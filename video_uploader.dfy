/** The video upload box: the file checks (a video MIME type, at most
    20 MiB), the split of the data URL the file reader produces, and the
    drag-highlight flag. */
module VideoUploader {
  import opened Js
  import opened Types

  const MaxFileSizeMb: nat := 20

  /** The size limit in bytes. */
  const MaxFileSizeBytes: int := MaxFileSizeMb * 1024 * 1024

  const InvalidTypeError: string := "Please upload a valid video file."
  const TooLargeError: string := "File is too large. Max size: " + Decimal(MaxFileSizeMb) + "MB."
  const ReadError: string := "Failed to read file."

  /** The size message names the limit as "20MB". */
  lemma TooLargeErrorText()
    ensures TooLargeError == "File is too large. Max size: 20MB."
  {
    assert Decimal(2) == ['2'];
    assert Decimal(20) == Decimal(2) + [DigitChar(0)];
  }

  /** The message a file is refused with, if any: the type is checked
      before the size. */
  function Validate(file: File): (error: Option<string>)
    ensures error.None? <==> StartsWith(file.mimeType, "video/") && file.size <= MaxFileSizeBytes
    ensures !StartsWith(file.mimeType, "video/") ==> error == Some(InvalidTypeError)
    ensures StartsWith(file.mimeType, "video/") && file.size > MaxFileSizeBytes ==> error == Some(TooLargeError)
  {
    if !StartsWith(file.mimeType, "video/") then Some(InvalidTypeError)
    else if file.size > MaxFileSizeBytes then Some(TooLargeError)
    else None
  }

  /** The limit is inclusive: exactly 20 MiB passes, one byte more does not. */
  lemma LimitIsInclusive(name: string, mimeType: string)
    requires StartsWith(mimeType, "video/")
    ensures Validate(File(name, mimeType, 20 * 1024 * 1024)).None?
    ensures Validate(File(name, mimeType, 20 * 1024 * 1024 + 1)) == Some(TooLargeError)
  {
  }

  /** An oversize file that is not a video reports the type, not the size. */
  lemma TypeCheckedFirst(file: File)
    requires !StartsWith(file.mimeType, "video/") && file.size > MaxFileSizeBytes
    ensures Validate(file) == Some(InvalidTypeError)
  {
  }

  /** `result.split(',')[1]`: the text between the first and the second
      comma, `undefined` when there is no comma. */
  function Base64Part(dataUrl: string): (b: Option<string>)
    ensures b.Some? ==> ',' !in b.value
  {
    var parts := Split(dataUrl, ',');
    SplitJoin(dataUrl, ',');
    if |parts| >= 2 then Some(parts[1]) else None
  }

  /** A data URL "data:<type>;base64,<data>" gives back exactly its data, and
      anything after a further comma is cut off. */
  lemma {:induction false} Base64PartOfDataUrl(mimeType: string, data: string, rest: string)
    requires ',' !in mimeType && ',' !in data
    ensures Base64Part("data:" + mimeType + ";base64," + data) == Some(data)
    ensures Base64Part("data:" + mimeType + ";base64," + data + "," + rest) == Some(data)
  {
    var head := "data:" + mimeType + ";base64";
    assert ',' !in head;
    assert "data:" + mimeType + ";base64," + data == head + [','] + data;
    SplitAfterFirst(head, ',', data);
    SplitNoSeparator(data, ',');
    assert "data:" + mimeType + ";base64," + data + "," + rest == head + [','] + (data + [','] + rest);
    SplitAfterFirst(head, ',', data + [','] + rest);
    SplitAfterFirst(data, ',', rest);
  }

  /** A text without a comma has no data part. */
  lemma NoCommaNoData(dataUrl: string)
    requires ',' !in dataUrl
    ensures Base64Part(dataUrl).None?
  {
    SplitNoSeparator(dataUrl, ',');
  }

  /** How `readAsDataURL` ends: with the data URL, or with `onerror`. */
  datatype Read = DataUrl(text: string) | ReadFailed

  /** The error shown once a file has been processed: the check's message,
      else the reader's failure, else none. */
  function ErrorAfter(file: File, read: Read): (error: Option<string>)
    ensures Validate(file).Some? ==> error == Validate(file)
    ensures Validate(file).None? ==> (error.Some? <==> read.ReadFailed?) && (error.Some? ==> error.value == ReadError)
  {
    if Validate(file).Some? then Validate(file) else if read.ReadFailed? then Some(ReadError) else None
  }

  /** What a processed file hands to `onVideoSelected`: the file itself, its
      preview URL, the data part of the data URL and the file's own type. */
  function Handed(file: File, read: Read, previewUrl: string): (handed: seq<VideoData>)
    ensures |handed| <= 1
    ensures handed != [] <==> Validate(file).None? && read.DataUrl?
    ensures handed != [] ==> handed[0] == VideoData(file, previewUrl, Base64Part(read.text), file.mimeType)
  {
    if Validate(file).None? && read.DataUrl? then [VideoData(file, previewUrl, Base64Part(read.text), file.mimeType)] else []
  }

  /** A processed file either reaches `onVideoSelected` or leaves an error on
      screen, never both and never neither. */
  lemma SelectedOrError(file: File, read: Read, previewUrl: string)
    ensures Handed(file, read, previewUrl) != [] <==> ErrorAfter(file, read).None?
  {
  }

  /** The component's state, and the videos it has handed to
      `onVideoSelected` so far. */
  class Uploader {
    var dragActive: bool
    var error: Option<string>
    var selected: seq<VideoData>

    constructor ()
      ensures !dragActive && error.None? && selected == []
    {
      dragActive := false;
      error := None;
      selected := [];
    }

    /** `processFile`, with the reader run to its end; `previewUrl` is what
      `URL.createObjectURL` returns. The old error is cleared first, so the
      error afterwards is this file's alone. */
    method ProcessFile(file: File, read: Read, previewUrl: string)
      modifies this
      ensures dragActive == old(dragActive)
      ensures error == ErrorAfter(file, read)
      ensures selected == old(selected) + Handed(file, read, previewUrl)
    {
      error := None;
      if !StartsWith(file.mimeType, "video/") {
        error := Some(InvalidTypeError);
        return;
      }
      if file.size > MaxFileSizeBytes {
        error := Some(TooLargeError);
        return;
      }
      match read {
        case DataUrl(text) =>
          var base64Data := Base64Part(text);
          selected := selected + [VideoData(file, previewUrl, base64Data, file.mimeType)];
        case ReadFailed =>
          error := Some(ReadError);
      }
    }

    /** `handleDrag`: entering or hovering highlights, leaving clears, any
      other event type leaves the flag alone. */
    method HandleDrag(eventType: string)
      modifies this
      ensures eventType == "dragenter" || eventType == "dragover" ==> dragActive
      ensures eventType == "dragleave" ==> !dragActive
      ensures eventType !in {"dragenter", "dragover", "dragleave"} ==> dragActive == old(dragActive)
      ensures error == old(error) && selected == old(selected)
    {
      if eventType == "dragenter" || eventType == "dragover" {
        dragActive := true;
      } else if eventType == "dragleave" {
        dragActive := false;
      }
    }

    /** `handleDrop`: the highlight always goes off, and only the first
      dropped file, if any, is processed. */
    method HandleDrop(files: seq<File>, read: Read, previewUrl: string)
      modifies this
      ensures !dragActive
      ensures files == [] ==> error == old(error) && selected == old(selected)
      ensures files != [] ==>
        error == ErrorAfter(files[0], read) && selected == old(selected) + Handed(files[0], read, previewUrl)
    {
      dragActive := false;
      if |files| > 0 {
        ProcessFile(files[0], read, previewUrl);
      }
    }

    /** `handleChange` on the file input: the first chosen file, if any, is
      processed; a missing file list does nothing. */
    method HandleChange(files: Option<seq<File>>, read: Read, previewUrl: string)
      modifies this
      ensures dragActive == old(dragActive)
      ensures (files.None? || files.value == []) ==> error == old(error) && selected == old(selected)
      ensures files.Some? && files.value != [] ==>
        error == ErrorAfter(files.value[0], read) && selected == old(selected) + Handed(files.value[0], read, previewUrl)
    {
      if files.Some? && |files.value| > 0 {
        ProcessFile(files.value[0], read, previewUrl);
      }
    }
  }
}
