/**
 * The upload dialog of the front end: validating the chosen file,
 * defaulting the dataset name from the file name, and the submit sequence
 * that posts the form, animates a progress bar on a timer and reports the
 * outcome. The session, the server's answer and the number of timer ticks
 * that fire before it arrives are parameters.
 */
module DatasetUploader {
  import opened Common
  import opened Text

  /** A chosen file: its name and its size in bytes. */
  datatype FileInfo = FileInfo(name: string, size: nat)

  /** A toast shown to the user. */
  datatype Toast = Toast(destructive: bool, title: string, description: string)

  /** The form posted to the upload function, with its Authorization header. */
  datatype UploadRequest = UploadRequest(file: FileInfo, name: string, description: string, authorization: string)

  /** What `JSON.parse` makes of an error body: not JSON, or an object with an optional `error` field. */
  datatype ErrorBody = NotJson | Json(error: Option<string>)

  /** How the upload request ends. */
  datatype Response =
    | Threw(message: string)
    | Failed(text: string, body: ErrorBody)
    | Succeeded

  /** 50 MB; a file of exactly this size is accepted. */
  const MaxSize := 50 * 1024 * 1024
  const AcceptedExtensions := ["csv", "json", "xls", "xlsx"]
  const NotLoggedIn := "You must be logged in to upload datasets"
  const UploadFailedDefault := "Failed to upload dataset"

  /** The lowercased text after the last '.', or the whole name when it has none. */
  function Extension(fileName: string): (ext: string)
    ensures '.' !in ext && |ext| <= |fileName|
    ensures '.' !in fileName ==> ext == Lower(fileName)
    ensures ext == Lower(fileName[|fileName| - |ext|..]) && '.' !in fileName[|fileName| - |ext|..]
    ensures |ext| == |fileName| || fileName[|fileName| - |ext| - 1] == '.'
  {
    AfterLastNone(fileName);
    Lower(AfterLast(fileName, '.'))
  }

  /** Whatever precedes the last '.', the extension is the lowercased text after it. */
  lemma ExtensionAfterDot(stem: string, ext: string)
    requires '.' !in ext
    ensures Extension(stem + "." + ext) == Lower(ext)
  {
    var name := stem + "." + ext;
    var start := |name| - |Extension(name)|;
    forall i | start <= i < |name|
      ensures name[i] != '.'
    {
      assert name[i] == name[start..][i - start];
    }
    assert name[|stem|] == '.';
    assert start > |stem|;
    assert name[start - 1] == '.';
    assert start == |stem| + 1;
    assert name[start..] == ext;
  }

  /** A name without '.' is its own last piece. */
  lemma AfterLastNone(s: string)
    ensures '.' !in s ==> AfterLast(s, '.') == s
  {
  }

  /** A text that `[^/.]+` matches in full. */
  predicate ExtensionText(e: string) {
    e != "" && '.' !in e && '/' !in e
  }

  /** `name.replace(/\.[^/.]+$/, "")`: the name without its last extension, if it has one. */
  function DefaultName(fileName: string): (r: string)
    ensures r == fileName ||
      (|r| < |fileName| && fileName[..|r|] == r && fileName[|r|] == '.' && ExtensionText(fileName[|r| + 1..]))
  {
    var ext := AfterLast(fileName, '.');
    if |ext| < |fileName| && ExtensionText(ext) then
      assert fileName[|fileName| - |ext|..] == ext;
      fileName[..|fileName| - |ext| - 1]
    else fileName
  }

  /** `AfterLast` is the text after a '.' that no later '.' follows. */
  lemma AfterLastAt(s: string, k: nat)
    requires k < |s| && s[k] == '.' && '.' !in s[k + 1..]
    ensures AfterLast(s, '.') == s[k + 1..]
  {
  }

  /** The pattern matches, and the name changes, exactly when some '.' is followed to the end by extension text. */
  lemma DefaultNameIff(fileName: string)
    ensures DefaultName(fileName) != fileName <==>
      exists k :: 0 <= k < |fileName| && fileName[k] == '.' && ExtensionText(fileName[k + 1..])
  {
    var r := DefaultName(fileName);
    if r != fileName {
      var k := |r|;
      assert 0 <= k < |fileName| && fileName[k] == '.' && ExtensionText(fileName[k + 1..]);
    }
    if exists k :: 0 <= k < |fileName| && fileName[k] == '.' && ExtensionText(fileName[k + 1..]) {
      var k :| 0 <= k < |fileName| && fileName[k] == '.' && ExtensionText(fileName[k + 1..]);
      AfterLastAt(fileName, k);
      assert |fileName[..k]| < |fileName|;
    }
  }

  /** The error message thrown for a failed response. */
  function ErrorMessage(text: string, body: ErrorBody): (message: string)
    ensures message != ""
    ensures body.Json? && Truthy(body.error) ==> message == body.error.value
    ensures body.NotJson? && text != "" ==> message == text
  {
    match body
    case Json(error) => if Truthy(error) then error.value else UploadFailedDefault
    case NotJson => if text != "" then text else UploadFailedDefault
  }

  /** The progress shown after each of the first `n` timer ticks: +10 per tick from 10, held at 90. */
  function TickValues(n: nat): (values: seq<int>)
    ensures |values| == n
  {
    seq(n, i => if 20 + 10 * i < 90 then 20 + 10 * i else 90)
  }

  /** Progress never leaves [20, 90] while the upload is pending, and never goes back. */
  lemma TickValuesBounded(n: nat)
    ensures forall i :: 0 <= i < n ==> 20 <= TickValues(n)[i] <= 90
    ensures forall i, j :: 0 <= i <= j < n ==> TickValues(n)[i] <= TickValues(n)[j]
  {
  }

  /** `DatasetUploader`'s state, the toasts it showed and the requests it sent. */
  class DatasetUploader {
    var open: bool
    var file: Option<FileInfo>
    var name: string
    var description: string
    var uploading: bool
    var progress: int
    var progressLog: seq<int>
    var intervalRunning: bool
    var toasts: seq<Toast>
    var requests: seq<UploadRequest>
    var completions: nat

    constructor()
      ensures !open && file.None? && name == "" && description == "" && !uploading && progress == 0
      ensures progressLog == [] && !intervalRunning && toasts == [] && requests == [] && completions == 0
    {
      open := false;
      file := None;
      name := "";
      description := "";
      uploading := false;
      progress := 0;
      progressLog := [];
      intervalRunning := false;
      toasts := [];
      requests := [];
      completions := 0;
    }

    /**
     * `handleFileChange`: an oversized file, then a file of an unsupported
     * type, is refused with a toast and nothing else changes; otherwise it
     * is selected and, when the name is empty, the name is defaulted.
     */
    method HandleFileChange(files: seq<FileInfo>)
      modifies this`file, this`name, this`toasts
      ensures files == [] ==> file == old(file) && name == old(name) && toasts == old(toasts)
      ensures files != [] && files[0].size > MaxSize ==>
        file == old(file) && name == old(name) &&
        toasts == old(toasts) + [Toast(true, "File too large", "Maximum file size is 50MB")]
      ensures files != [] && files[0].size <= MaxSize && Extension(files[0].name) !in AcceptedExtensions ==>
        file == old(file) && name == old(name) &&
        toasts == old(toasts) + [Toast(true, "Unsupported file type", "Please upload a CSV, JSON, or Excel file")]
      ensures files != [] && files[0].size <= MaxSize && Extension(files[0].name) in AcceptedExtensions ==>
        file == Some(files[0]) && toasts == old(toasts) &&
        name == (if old(name) == "" then DefaultName(files[0].name) else old(name))
    {
      if files == [] {
        return;
      }
      var selected := files[0];
      if selected.size > MaxSize {
        toasts := toasts + [Toast(true, "File too large", "Maximum file size is 50MB")];
        return;
      }
      var ext := Extension(selected.name);
      if ext !in AcceptedExtensions {
        toasts := toasts + [Toast(true, "Unsupported file type", "Please upload a CSV, JSON, or Excel file")];
        return;
      }
      file := Some(selected);
      if name == "" {
        name := DefaultName(selected.name);
      }
    }

    /**
     * `handleSubmit`: with a file selected, progress starts at 10; without a
     * session the upload fails at once; otherwise the form is posted, the
     * progress interval starts, `ticks` timer ticks fire before the request
     * ends, and the upload ends at 100 on success or back at 0, with the
     * error's toast, on failure. The interval is cleared only when `fetch`
     * returns: when it rejects, the interval keeps running unless it already
     * cleared itself at 90.
     */
    method HandleSubmit(session: Option<string>, ticks: nat, response: Response)
      modifies this`uploading, this`progress, this`progressLog, this`intervalRunning, this`toasts, this`requests
      ensures old(file).None? ==>
        uploading == old(uploading) && progress == old(progress) && progressLog == old(progressLog) &&
        intervalRunning == old(intervalRunning) && toasts == old(toasts) && requests == old(requests)
      ensures old(file).Some? && session.None? ==>
        !uploading && progress == 0 && progressLog == old(progressLog) + [10, 0] && requests == old(requests) &&
        intervalRunning == old(intervalRunning) &&
        toasts == old(toasts) + [Toast(true, "Upload failed", FailureDescription(NotLoggedIn))]
      ensures old(file).Some? && session.Some? ==>
        requests == old(requests) + [UploadRequest(file.value, name, description, "Bearer " + session.value)] &&
        progressLog == old(progressLog) + [10] + TickValues(Min(ticks, 9)) + [progress]
      ensures old(file).Some? && session.Some? && response.Succeeded? ==>
        uploading && progress == 100 && !intervalRunning &&
        toasts == old(toasts) + [Toast(false, "Dataset uploaded", "Your dataset has been successfully uploaded")]
      ensures old(file).Some? && session.Some? && !response.Succeeded? ==>
        !uploading && progress == 0 && toasts == old(toasts) + [Toast(true, "Upload failed", FailureDescription(FailureMessage(response)))]
      ensures old(file).Some? && session.Some? && response.Failed? ==> !intervalRunning
      ensures old(file).Some? && session.Some? && response.Threw? ==> (intervalRunning <==> ticks < 9)
    {
      if file.None? {
        return;
      }
      uploading := true;
      SetProgress(10);
      if session.None? {
        Fail(NotLoggedIn);
        return;
      }
      requests := requests + [UploadRequest(file.value, name, description, "Bearer " + session.value)];
      intervalRunning := true;
      RunInterval(ticks);
      if response.Threw? {
        Fail(response.message);
        return;
      }
      intervalRunning := false;
      if response.Failed? {
        Fail(FailureMessage(response));
        return;
      }
      SetProgress(100);
      toasts := toasts + [Toast(false, "Dataset uploaded", "Your dataset has been successfully uploaded")];
    }

    /**
     * The progress interval while the request is pending: each of the
     * `ticks` ticks adds 10, until a tick finds 90, holds it and clears the
     * interval.
     */
    method RunInterval(ticks: nat)
      requires progress == 10 && intervalRunning
      modifies this`progress, this`progressLog, this`intervalRunning
      ensures progressLog == old(progressLog) + TickValues(Min(ticks, 9))
      ensures progress == 10 + 10 * Min(ticks, 8)
      ensures intervalRunning <==> ticks < 9
    {
      var start := progressLog;
      var t := 0;
      while t < ticks
        invariant t <= ticks
        invariant intervalRunning <==> t < 9
        invariant progress == if t <= 8 then 10 + 10 * t else 90
        invariant progressLog == start + TickValues(Min(t, 9))
      {
        if t < 9 {
          assert TickValues(t + 1) == TickValues(t) + [if t < 8 then 20 + 10 * t else 90];
        }
        Tick();
        t := t + 1;
      }
    }

    /**
     * One firing of the progress interval: while it runs, a tick that finds
     * 90 holds it and clears the interval, any other tick adds 10.
     */
    method Tick()
      modifies this`progress, this`progressLog, this`intervalRunning
      ensures !old(intervalRunning) ==>
        !intervalRunning && progress == old(progress) && progressLog == old(progressLog)
      ensures old(intervalRunning) && old(progress) >= 90 ==>
        !intervalRunning && progress == 90 && progressLog == old(progressLog) + [90]
      ensures old(intervalRunning) && old(progress) < 90 ==>
        intervalRunning && progress == old(progress) + 10 && progressLog == old(progressLog) + [progress]
    {
      if !intervalRunning {
        return;
      }
      if progress >= 90 {
        intervalRunning := false;
        SetProgress(90);
      } else {
        SetProgress(progress + 10);
      }
    }

    /** `setProgress`, recorded. */
    method SetProgress(value: int)
      modifies this`progress, this`progressLog
      ensures progress == value && progressLog == old(progressLog) + [value]
    {
      progress := value;
      progressLog := progressLog + [value];
    }

    /** The catch block: a destructive toast, then uploading off and progress back to 0. */
    method Fail(message: string)
      modifies this`uploading, this`progress, this`progressLog, this`toasts
      ensures !uploading && progress == 0 && progressLog == old(progressLog) + [0]
      ensures toasts == old(toasts) + [Toast(true, "Upload failed", FailureDescription(message))]
    {
      toasts := toasts + [Toast(true, "Upload failed", FailureDescription(message))];
      uploading := false;
      SetProgress(0);
    }

    /** The delayed reset after a successful upload: the form is cleared and the dialog closed. */
    method ResetAfterUpload()
      modifies this`file, this`name, this`description, this`uploading, this`progress, this`progressLog,
               this`open, this`completions
      ensures file.None? && name == "" && description == "" && !uploading && progress == 0 && !open
      ensures progressLog == old(progressLog) + [0] && completions == old(completions) + 1
    {
      file := None;
      name := "";
      description := "";
      uploading := false;
      SetProgress(0);
      open := false;
      completions := completions + 1;
    }
  }

  function Min(a: int, b: int): int {
    if a < b then a else b
  }

  /** The description of the failure toast for a response that is not a success. */
  function FailureMessage(response: Response): (message: string)
    requires !response.Succeeded?
  {
    match response
    case Threw(message) => message
    case Failed(text, body) => ErrorMessage(text, body)
  }

  /** `error.message || "An error occurred while uploading dataset"`. */
  function FailureDescription(message: string): (description: string)
    ensures description != ""
    ensures message != "" ==> description == message
  {
    if message != "" then message else "An error occurred while uploading dataset"
  }

  /**
   * When `fetch` rejects before the interval reaches 90, the catch block
   * resets progress to 0 but the interval still runs: its next tick raises
   * progress to 10 while nothing is uploading.
   */
  method RejectedFetchKeepsTicking() returns (progress: int, uploading: bool)
    ensures progress == 10 && !uploading
  {
    var uploader := new DatasetUploader();
    uploader.file := Some(FileInfo("data.csv", 1));
    uploader.HandleSubmit(Some("token"), 0, Threw("Failed to fetch"));
    uploader.Tick();
    progress, uploading := uploader.progress, uploader.uploading;
  }

  /** A file named ".csv" passes validation yet defaults the dataset name to the empty text. */
  lemma DotFileDefaultsToEmpty()
    ensures Extension(".csv") in AcceptedExtensions && DefaultName(".csv") == ""
  {
    AfterLastAt(".csv", 0);
    assert Lower("csv") == "csv";
  }

  /** A dot with nothing after it is not an extension: the name stays as it is. */
  lemma TrailingDotKept()
    ensures DefaultName("data.") == "data."
  {
    DefaultNameIff("data.");
  }

  /** Only the last extension is removed. */
  lemma LastExtensionRemoved()
    ensures DefaultName("sales.2024.csv") == "sales.2024"
  {
    AfterLastAt("sales.2024.csv", 10);
  }
}
