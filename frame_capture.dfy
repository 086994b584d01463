/** The keyframe capture of the analysis screen (`captureFrames`): a cursor
    walks the segment list; for each segment the video is seeked to the
    segment's timestamp clamped into the video, and each `seeked` event either
    appends a copy of the segment carrying a screenshot, appends the segment
    untouched (no 2D context), or appends nothing (capture threw). When the
    cursor passes the end the video element is removed and the promise
    resolved; a load error rejects it. The media element, canvas and JPEG
    encoding are abstracted into the `Outcome` of each seek. */
module FrameCapture {
  import opened Js
  import opened Types

  /** How far before the end a seek past the end is placed, in seconds. */
  const EndMargin: real := 0.1

  /** The seek position used for a requested timestamp. */
  function ClampSeek(t: real, duration: real): (s: real)
    ensures 0.0 <= t <= duration ==> s == t
    ensures t > duration && duration - EndMargin >= 0.0 ==> s == duration - EndMargin
    ensures t > duration && duration - EndMargin < 0.0 ==> s == 0.0
    ensures t < 0.0 ==> s == 0.0
    ensures duration >= 0.0 ==> 0.0 <= s <= duration
  {
    var past := if t > duration then duration - EndMargin else t;
    if past < 0.0 then 0.0 else past
  }

  /** What happens in the `seeked` handler for one segment. */
  datatype Outcome = Captured(url: string) | NoContext | Threw

  /** What one `seeked` event appends to the captured list. */
  function Step(seg: SceneSegment, o: Outcome): (r: seq<SceneSegment>)
    ensures o.Threw? <==> r == []
    ensures o.Captured? ==> r == [seg.(screenshotUrl := Some(o.url))]
    ensures o.NoContext? ==> r == [seg]
  {
    match o
    case Captured(url) => [seg.(screenshotUrl := Some(url))]
    case NoContext => [seg]
    case Threw => []
  }

  /** The segment a non-throwing outcome turns into. */
  function Applied(seg: SceneSegment, o: Outcome): SceneSegment
    requires !o.Threw?
  {
    if o.Captured? then seg.(screenshotUrl := Some(o.url)) else seg
  }

  /** The list the capture resolves with, given one outcome per segment: one
      element per non-throwing step, so never longer than the input. */
  function Collected(segments: seq<SceneSegment>, outcomes: seq<Outcome>): (r: seq<SceneSegment>)
    requires |outcomes| == |segments|
    ensures |r| == Kept(outcomes) <= |segments|
    decreases |segments|
  {
    if segments == [] then []
    else
      var n := |segments| - 1;
      Collected(segments[..n], outcomes[..n]) + Step(segments[n], outcomes[n])
  }

  /** The seek positions issued for the segments, in order: one per segment,
      each inside a video of non-negative duration. */
  function SeekPlan(segments: seq<SceneSegment>, duration: real): (r: seq<real>)
    ensures |r| == |segments|
    ensures duration >= 0.0 ==> forall i :: 0 <= i < |r| ==> 0.0 <= r[i] <= duration
    decreases |segments|
  {
    if segments == [] then []
    else
      var n := |segments| - 1;
      SeekPlan(segments[..n], duration) + [ClampSeek(segments[n].timestampSeconds, duration)]
  }

  /** The number of segments whose capture did not throw. */
  function Kept(outcomes: seq<Outcome>): nat
    decreases |outcomes|
  {
    if outcomes == [] then 0
    else Kept(outcomes[..|outcomes| - 1]) + (if outcomes[|outcomes| - 1].Threw? then 0 else 1)
  }

  /** The indices of the segments whose capture did not throw, ascending. */
  function SourceIndices(outcomes: seq<Outcome>): seq<nat>
    decreases |outcomes|
  {
    if outcomes == [] then []
    else
      var n := |outcomes| - 1;
      SourceIndices(outcomes[..n]) + (if outcomes[n].Threw? then [] else [n])
  }

  /** Two segments agree on everything except the screenshot. */
  predicate SameExceptScreenshot(a: SceneSegment, b: SceneSegment) {
    a.(screenshotUrl := None) == b.(screenshotUrl := None)
  }

  predicate StrictlyIncreasing(idx: seq<nat>) {
    forall i, j :: 0 <= i < j < |idx| ==> idx[i] < idx[j]
  }

  lemma {:induction false} SeekPlanAt(segments: seq<SceneSegment>, duration: real, i: nat)
    requires i < |segments|
    ensures |SeekPlan(segments, duration)| == |segments|
    ensures SeekPlan(segments, duration)[i] == ClampSeek(segments[i].timestampSeconds, duration)
    decreases |segments|
  {
    var n := |segments| - 1;
    if n > 0 {
      SeekPlanAt(segments[..n], duration, if i < n then i else 0);
    }
  }

  /** Every seek is issued inside the video: one per segment, in input order,
      none skipped or repeated. */
  lemma SeeksInsideVideo(segments: seq<SceneSegment>, duration: real)
    requires duration >= 0.0
    ensures |SeekPlan(segments, duration)| == |segments|
    ensures forall i :: 0 <= i < |segments| ==>
      SeekPlan(segments, duration)[i] == ClampSeek(segments[i].timestampSeconds, duration) &&
      0.0 <= SeekPlan(segments, duration)[i] <= duration
  {
    if |segments| > 0 {
      SeekPlanAt(segments, duration, 0);
    }
    forall i | 0 <= i < |segments|
      ensures SeekPlan(segments, duration)[i] == ClampSeek(segments[i].timestampSeconds, duration)
    {
      SeekPlanAt(segments, duration, i);
    }
  }

  /** Each captured element comes from a distinct input segment, in input
      order: it is that segment, with the screenshot set exactly when the
      capture produced one; everything else, `timestampSeconds` included,
      is kept unclamped. */
  lemma {:induction false} CaptureSources(segments: seq<SceneSegment>, outcomes: seq<Outcome>)
    requires |outcomes| == |segments|
    ensures |SourceIndices(outcomes)| == |Collected(segments, outcomes)|
    ensures StrictlyIncreasing(SourceIndices(outcomes))
    ensures forall k :: 0 <= k < |SourceIndices(outcomes)| ==>
      var i := SourceIndices(outcomes)[k];
      i < |segments| && !outcomes[i].Threw? &&
      Collected(segments, outcomes)[k] == Applied(segments[i], outcomes[i])
    decreases |segments|
  {
    if segments != [] {
      var n := |segments| - 1;
      var s', o' := segments[..n], outcomes[..n];
      CaptureSources(s', o');
      var idx := SourceIndices(outcomes);
      var c := Collected(segments, outcomes);
      assert idx == SourceIndices(o') + (if outcomes[n].Threw? then [] else [n]);
      assert c == Collected(s', o') + Step(segments[n], outcomes[n]);
      forall k | 0 <= k < |idx|
        ensures idx[k] < |segments| && !outcomes[idx[k]].Threw?
        ensures c[k] == Applied(segments[idx[k]], outcomes[idx[k]])
      {
        if k < |SourceIndices(o')| {
          assert idx[k] == SourceIndices(o')[k];
          assert c[k] == Collected(s', o')[k];
        }
      }
      forall i, j | 0 <= i < j < |idx| ensures idx[i] < idx[j] {
        if j < |SourceIndices(o')| {
          assert idx[i] == SourceIndices(o')[i] && idx[j] == SourceIndices(o')[j];
        } else {
          assert idx[i] == SourceIndices(o')[i];
        }
      }
    }
  }

  /** Every captured element differs from its source segment at most in the
      screenshot. */
  lemma CapturedKeepsMetadata(segments: seq<SceneSegment>, outcomes: seq<Outcome>)
    requires |outcomes| == |segments|
    ensures |SourceIndices(outcomes)| == |Collected(segments, outcomes)|
    ensures forall k :: 0 <= k < |SourceIndices(outcomes)| ==>
      SourceIndices(outcomes)[k] < |segments| &&
      SameExceptScreenshot(Collected(segments, outcomes)[k], segments[SourceIndices(outcomes)[k]])
  {
    CaptureSources(segments, outcomes);
  }

  /** When no capture throws, the output matches the input index for index. */
  lemma NoThrowKeepsPositions(segments: seq<SceneSegment>, outcomes: seq<Outcome>)
    requires |outcomes| == |segments|
    requires forall i :: 0 <= i < |outcomes| ==> !outcomes[i].Threw?
    ensures |Collected(segments, outcomes)| == |segments|
    ensures forall i :: 0 <= i < |segments| ==>
      Collected(segments, outcomes)[i] == Applied(segments[i], outcomes[i])
  {
    CaptureSources(segments, outcomes);
    AllKeptIndices(outcomes);
  }

  lemma {:induction false} AllKeptIndices(outcomes: seq<Outcome>)
    requires forall i :: 0 <= i < |outcomes| ==> !outcomes[i].Threw?
    ensures |SourceIndices(outcomes)| == |outcomes|
    ensures forall i :: 0 <= i < |outcomes| ==> SourceIndices(outcomes)[i] == i
    decreases |outcomes|
  {
    if outcomes != [] {
      AllKeptIndices(outcomes[..|outcomes| - 1]);
    }
  }

  /** How the promise ended. */
  datatype Settled = Pending | Resolved(frames: seq<SceneSegment>) | Rejected

  /** One call of `captureFrames`: the video element and its listeners, the
      `capturedSegments` array and the `currentIndex` cursor. */
  class Capture {
    const segments: seq<SceneSegment>
    /** `video.duration`, known once metadata has loaded. */
    var duration: real
    var loaded: bool
    /** `currentIndex`. */
    var index: nat
    /** `capturedSegments`. */
    var captured: seq<SceneSegment>
    /** The values assigned to `video.currentTime`, in order. */
    var seeks: seq<real>
    /** A seek was issued and its `seeked` event has not fired yet. */
    var seekPending: bool
    /** `video.remove()` was called. */
    var removed: bool
    var promise: Settled
    /** The outcome of every `seeked` event handled so far. */
    ghost var outcomes: seq<Outcome>

    /** The cursor and the captured list agree with the events so far. */
    ghost predicate Core()
      reads this
    {
      && index <= |segments|
      && |outcomes| == index
      && captured == Collected(segments[..index], outcomes)
      && (promise.Resolved? ==> promise.frames == captured)
    }

    /** Between the cursor moving and the next seek or completion. */
    ghost predicate Ready()
      reads this
    {
      && Core()
      && loaded && !seekPending && !removed && !promise.Resolved?
      && seeks == SeekPlan(segments[..index], duration)
    }

    ghost predicate Valid()
      reads this
    {
      && Core()
      && (!loaded ==> index == 0 && seeks == [] && !seekPending && !removed && !promise.Resolved?)
      && (seekPending ==> loaded && index < |segments| && !removed && !promise.Resolved?
                          && seeks == SeekPlan(segments[..index + 1], duration))
      && (loaded && !seekPending ==> index == |segments| && removed && !promise.Pending?
                                     && seeks == SeekPlan(segments, duration))
    }

    constructor (segments: seq<SceneSegment>)
      ensures Valid()
      ensures this.segments == segments && !loaded && promise == Pending
      ensures index == 0 && captured == [] && seeks == [] && !removed
    {
      this.segments := segments;
      duration := 0.0;
      loaded := false;
      index := 0;
      captured := [];
      seeks := [];
      seekPending := false;
      removed := false;
      promise := Pending;
      outcomes := [];
    }

    /** `processNextFrame`: past the end, remove the video and resolve;
        otherwise seek to the current segment's clamped timestamp. */
    method ProcessNext()
      requires Ready()
      modifies this
      ensures Valid() && loaded
      ensures index == old(index) && captured == old(captured) && outcomes == old(outcomes)
      ensures duration == old(duration)
      ensures old(index) >= |segments| ==>
        removed && !seekPending && seeks == old(seeks) &&
        promise == (if old(promise).Rejected? then Rejected else Resolved(captured))
      ensures old(index) < |segments| ==>
        !removed && seekPending && promise == old(promise) &&
        seeks == old(seeks) + [ClampSeek(segments[index].timestampSeconds, duration)]
    {
      if index >= |segments| {
        assert segments[..index] == segments;
        removed := true;
        if promise.Pending? {
          promise := Resolved(captured);
        }
        return;
      }
      var seekTime := segments[index].timestampSeconds;
      if seekTime > duration {
        seekTime := duration - EndMargin;
      }
      if seekTime < 0.0 {
        seekTime := 0.0;
      }
      seeks := seeks + [seekTime];
      seekPending := true;
      assert segments[..index + 1][..index] == segments[..index];
    }

    /** `onloadedmetadata`: the duration is known; start the walk. */
    method OnLoadedMetadata(d: real)
      requires Valid() && !loaded && !promise.Resolved?
      modifies this
      ensures Valid() && loaded && duration == d
      ensures index == 0 && outcomes == [] && captured == []
      ensures |segments| == 0 ==> removed && promise == (if old(promise).Rejected? then Rejected else Resolved([]))
      ensures |segments| > 0 ==> seekPending && promise == old(promise) && seeks == [ClampSeek(segments[0].timestampSeconds, d)]
    {
      duration := d;
      loaded := true;
      ProcessNext();
    }

    /** `onseeked`: record the capture outcome, advance the cursor by one,
        and go on to the next segment. */
    method OnSeeked(o: Outcome)
      requires Valid() && seekPending
      modifies this
      ensures Valid()
      ensures index == old(index) + 1 && loaded && duration == old(duration)
      ensures outcomes == old(outcomes) + [o]
      ensures captured == old(captured) + Step(segments[old(index)], o)
      ensures index < |segments| ==>
        seekPending && promise == old(promise) &&
        seeks == old(seeks) + [ClampSeek(segments[index].timestampSeconds, duration)]
      ensures index == |segments| ==>
        removed && !seekPending && seeks == old(seeks) &&
        promise == (if old(promise).Rejected? then Rejected else Resolved(captured))
    {
      var seg := segments[index];
      match o {
        case Captured(url) =>
          captured := captured + [seg.(screenshotUrl := Some(url))];
        case NoContext =>
          captured := captured + [seg];
        case Threw =>
      }
      outcomes := outcomes + [o];
      index := index + 1;
      seekPending := false;
      assert segments[..index][..index - 1] == segments[..index - 1];
      assert outcomes[..index - 1] == old(outcomes);
      ProcessNext();
    }

    /** `onerror`: reject the promise (a no-op once it has resolved); the
        video element is not removed. */
    method OnError()
      requires Valid()
      modifies this
      ensures Valid()
      ensures promise == (if old(promise).Resolved? then old(promise) else Rejected)
      ensures removed == old(removed) && index == old(index) && captured == old(captured)
      ensures seeks == old(seeks) && seekPending == old(seekPending) && loaded == old(loaded)
    {
      if promise.Pending? {
        promise := Rejected;
      }
    }
  }

  /** How the video's metadata load ends. */
  datatype Load = Loaded(duration: real) | LoadError

  /** The observable end of one `captureFrames` call. */
  datatype Run = Run(settled: Settled, seeks: seq<real>, removed: bool)

  /** One `captureFrames` call, with the browser supplying the load result and
      one `seeked` outcome per issued seek. */
  method CaptureFrames(segments: seq<SceneSegment>, load: Load, outcomes: seq<Outcome>) returns (run: Run)
    requires |outcomes| == |segments|
    ensures load.LoadError? ==> run == Run(Rejected, [], false)
    ensures load.Loaded? ==> run == Run(Resolved(Collected(segments, outcomes)), SeekPlan(segments, load.duration), true)
  {
    var c := new Capture(segments);
    if load.LoadError? {
      c.OnError();
      return Run(c.promise, c.seeks, c.removed);
    }
    c.OnLoadedMetadata(load.duration);
    while c.seekPending
      invariant c.Valid() && c.loaded && c.segments == segments && c.duration == load.duration
      invariant c.outcomes == outcomes[..c.index]
      invariant !c.promise.Rejected?
      decreases |segments| - c.index
    {
      c.OnSeeked(outcomes[c.index]);
      assert outcomes[..c.index] == outcomes[..c.index - 1] + [outcomes[c.index - 1]];
    }
    assert segments[..c.index] == segments && outcomes[..c.index] == outcomes;
    run := Run(c.promise, c.seeks, c.removed);
  }
}
