/** The application's screen state machine: choosing a video, resetting,
    logging out, and running an analysis, which asks the model for a result
    and then captures a keyframe for each of its segments. The analysis
    call, the sign-out and the browser's video events are inputs. */
module AppFlow {
  import opened Js
  import opened Http
  import opened Types
  import FrameCapture

  const Initializing: string := "Initializing Gemini 2.5 Vision Core..."
  const Capturing: string := "Capturing keyframe evidence..."
  const AnalysisFailed: string := "Analysis sequence failed."

  /** The message an analysis failure leaves on screen: the error's message
      when it has a non-empty one, otherwise the fixed fallback. A failed
      capture rejects with an event, which has no message. */
  function FailureMessage(message: Option<string>): (text: string)
    ensures NonEmpty(message) ==> text == message.value
    ensures !NonEmpty(message) ==> text == AnalysisFailed
  {
    MessageOr(message, AnalysisFailed)
  }

  /** The result stored on success: the analysis with its segments replaced by
      the captured ones when there were any segments to capture. */
  function Stored(analysis: AnalysisResult, load: FrameCapture.Load, outcomes: seq<FrameCapture.Outcome>): (stored: Option<AnalysisResult>)
    requires |outcomes| == |analysis.segments|
    ensures analysis.segments == [] ==> stored == Some(analysis)
    ensures analysis.segments != [] && load.LoadError? ==> stored.None?
    ensures analysis.segments != [] && load.Loaded? ==>
      stored == Some(analysis.(segments := FrameCapture.Collected(analysis.segments, outcomes)))
  {
    if analysis.segments == [] then Some(analysis)
    else if load.LoadError? then None
    else Some(analysis.(segments := FrameCapture.Collected(analysis.segments, outcomes)))
  }

  /** The screen state of `App`: the current screen, the chosen video, the
      last result, the error shown and the progress line. */
  class App {
    var appState: AppState
    var videoData: Option<VideoData>
    var result: Option<AnalysisResult>
    var errorMsg: Option<string>
    var processingStatus: string

    /** The states the handlers keep consistent: the start screen exactly when
        no video is chosen, a result behind every success, an error message
        exactly on the error screen, and nothing left over on the start
        screen. */
    ghost predicate Valid()
      reads this
    {
      (appState == IDLE <==> videoData.None?) &&
      (appState == IDLE ==> result.None?) &&
      (appState == SUCCESS ==> result.Some?) &&
      (errorMsg.Some? <==> appState == ERROR)
    }

    constructor ()
      ensures Valid()
      ensures appState == IDLE && videoData.None? && result.None? && errorMsg.None? && processingStatus == ""
    {
      appState := IDLE;
      videoData := None;
      result := None;
      errorMsg := None;
      processingStatus := "";
    }

    /** `handleVideoSelected`: show the preview of the new video and clear the
        error; an earlier result is kept. */
    method HandleVideoSelected(data: VideoData)
      requires Valid()
      modifies this
      ensures Valid()
      ensures appState == PREVIEW && videoData == Some(data) && errorMsg.None?
      ensures result == old(result) && processingStatus == old(processingStatus)
    {
      videoData := Some(data);
      appState := PREVIEW;
      errorMsg := None;
    }

    /** `handleReset`: back to the start screen with no video, no result and
        no error. */
    method HandleReset()
      modifies this
      ensures Valid()
      ensures appState == IDLE && videoData.None? && result.None? && errorMsg.None?
      ensures processingStatus == old(processingStatus)
    {
      appState := IDLE;
      videoData := None;
      result := None;
      errorMsg := None;
    }

    /** `handleLogout`: sign out, then reset; when signing out throws, the
        reset never happens. */
    method HandleLogout(signOutThrew: bool)
      requires Valid()
      modifies this
      ensures Valid()
      ensures signOutThrew ==> unchanged(this)
      ensures !signOutThrew ==> appState == IDLE && videoData.None? && result.None? && errorMsg.None?
    {
      if signOutThrew {
        return;
      }
      HandleReset();
    }

    /** `handleAnalyze`, run to its end. `analysis` is how the model call
        settles; `load` and `outcomes` are the browser's answers to the frame
        capture, one outcome per segment. `run` is the capture call, made
        only for a non-empty segment list. */
    method HandleAnalyze(analysis: Awaited<AnalysisResult>, load: FrameCapture.Load, outcomes: seq<FrameCapture.Outcome>)
      returns (run: Option<FrameCapture.Run>)
      requires Valid()
      requires analysis.Fulfilled? ==> |outcomes| == |analysis.value.segments|
      modifies this
      ensures Valid()
      // without a video nothing happens
      ensures old(videoData).None? ==> unchanged(this) && run.None?
      ensures old(videoData).Some? ==> videoData == old(videoData)
      // the capture runs exactly for an answer with segments
      ensures old(videoData).Some? ==> (run.Some? <==> analysis.Fulfilled? && analysis.value.segments != [])
      // the capture resolves with the collected segments after exactly the
      // planned seeks and removes the video, or rejects on a load error
      ensures run.Some? && load.LoadError? ==> run.value == FrameCapture.Run(FrameCapture.Rejected, [], false)
      ensures run.Some? && load.Loaded? ==>
        run.value == FrameCapture.Run(FrameCapture.Resolved(FrameCapture.Collected(analysis.value.segments, outcomes)),
                                      FrameCapture.SeekPlan(analysis.value.segments, load.duration), true)
      ensures old(videoData).Some? ==>
        processingStatus == (if run.Some? then Capturing else Initializing)
      // a failed model call leaves its message, or the fallback
      ensures old(videoData).Some? && analysis.Rejected? ==>
        appState == ERROR && errorMsg == Some(FailureMessage(analysis.message)) && result == old(result)
      // a successful one ends in success with the captured segments, unless
      // the video could not be loaded for the capture
      ensures old(videoData).Some? && analysis.Fulfilled? ==>
        var stored := Stored(analysis.value, load, outcomes);
        (stored.Some? ==> appState == SUCCESS && result == stored && errorMsg.None?) &&
        (stored.None? ==> appState == ERROR && errorMsg == Some(AnalysisFailed) && result == old(result))
    {
      run := None;
      if videoData.None? {
        return;
      }
      appState := ANALYZING;
      errorMsg := None;
      processingStatus := Initializing;
      match analysis {
        case Rejected(message) =>
          appState := ERROR;
          errorMsg := Some(FailureMessage(message));
        case Fulfilled(value) =>
          var answer := value;
          if |answer.segments| > 0 {
            processingStatus := Capturing;
            var capture := FrameCapture.CaptureFrames(answer.segments, load, outcomes);
            run := Some(capture);
            if capture.settled.Resolved? {
              answer := answer.(segments := capture.settled.frames);
            } else {
              appState := ERROR;
              errorMsg := Some(FailureMessage(None));
              return;
            }
          }
          result := Some(answer);
          appState := SUCCESS;
      }
    }
  }

  /** Once the video loads, the stored result is the model's answer with the
      same prompt and details and no more segments than it asked for, each
      one one of the requested segments with at most its screenshot set. */
  lemma StoredFromAnswer(analysis: AnalysisResult, duration: real, outcomes: seq<FrameCapture.Outcome>)
    requires |outcomes| == |analysis.segments|
    ensures var stored := Stored(analysis, FrameCapture.Loaded(duration), outcomes);
      stored.Some? && |stored.value.segments| <= |analysis.segments| &&
      stored.value.prompt == analysis.prompt && stored.value.details == analysis.details &&
      forall k :: 0 <= k < |stored.value.segments| ==>
        exists i :: 0 <= i < |analysis.segments| &&
          FrameCapture.SameExceptScreenshot(stored.value.segments[k], analysis.segments[i])
  {
    if analysis.segments != [] {
      var c := FrameCapture.Collected(analysis.segments, outcomes);
      FrameCapture.CapturedKeepsMetadata(analysis.segments, outcomes);
      var idx := FrameCapture.SourceIndices(outcomes);
      forall k | 0 <= k < |c|
        ensures exists i :: 0 <= i < |analysis.segments| && FrameCapture.SameExceptScreenshot(c[k], analysis.segments[i])
      {
        assert FrameCapture.SameExceptScreenshot(c[k], analysis.segments[idx[k]]);
      }
    }
  }
}
