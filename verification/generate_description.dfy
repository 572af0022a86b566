/**
 * The "Generate Description" dashboard tool: the user picks an image, which
 * is stored and then analysed by the server without a description.
 *
 * As for the description checker, the `useState` slots are the fields of
 * `Generator` and each handler is a method specified by a transition
 * function on `State`. The `FileReader` callback (`onloadend`) runs after
 * `handleUploadAndAnalyze` has returned, so a started read is recorded in
 * `pendingReads` and its callback is the separate method `OnLoadEnd`.
 */
module GenerateDescription {
  import opened Wrappers
  import opened FileChecks
  import opened DataUrl
  import opened Fetch

  /** A `readAsDataURL` in flight, with what its callback captured. */
  datatype PendingRead = PendingRead(userId: int, file: File)

  datatype State = State(
    selectedFile: Option<File>,
    previewUrl: Option<string>,
    error: string,
    analysisResult: Option<string>,
    isUploading: bool,
    isAnalyzing: bool,
    requests: seq<Request>,
    pendingReads: seq<PendingRead>)

  /** A file and its preview are always set and cleared together. */
  predicate Valid(s: State) {
    s.selectedFile.Some? <==> s.previewUrl.Some?
  }

  /** The "Upload & Analyze" button is rendered: the preview URL is neither `null` nor "". */
  predicate UploadShown(s: State) { s.previewUrl.Some? && s.previewUrl.value != "" }

  /** The button is rendered and not disabled. */
  predicate UploadEnabled(s: State) {
    UploadShown(s) && !s.isUploading && !s.isAnalyzing
  }

  /** The slots as the component first renders them. */
  function Initial(): (s: State)
    ensures Valid(s) && !UploadShown(s)
    ensures s.error == "" && s.requests == [] && s.pendingReads == []
  {
    State(None, None, "", None, false, false, [], [])
  }

  /** `handleFileChange`: the outcome of `FileChecks.Check` decides the new slots. */
  function FileChange(s: State, file: Option<File>, objectUrl: string): State
  {
    match Check(file)
    case NoFile => s.(error := "No file selected")
    case Accepted(f) => s.(error := "", selectedFile := Some(f), previewUrl := Some(objectUrl))
    case _ => s.(error := Message(Check(file)), selectedFile := None, previewUrl := None)
  }

  /**
   * The same ordered checks as the description checker, with the same
   * clearing on rejection; an accepted file does not clear an earlier
   * analysis result.
   */
  lemma FileChangeOutcomes(s: State, file: Option<File>, objectUrl: string)
    requires Valid(s)
    ensures var t := FileChange(s, file, objectUrl);
      && Valid(t)
      && (file.None? ==>
            t.error == "No file selected" && t.selectedFile == s.selectedFile && t.previewUrl == s.previewUrl)
      && (file.Some? && !Check(file).Accepted? ==>
            t.error == Message(Check(file)) && t.selectedFile == None && t.previewUrl == None)
      && (Check(file).Accepted? ==>
            t.error == "" && t.selectedFile == file && t.previewUrl == Some(objectUrl))
      && t.analysisResult == s.analysisResult && t.requests == s.requests && t.pendingReads == s.pendingReads
      && t.isUploading == s.isUploading && t.isAnalyzing == s.isAnalyzing
  {
  }

  /**
   * `handleUploadAndAnalyze`: the guard, then the identity check; on success
   * a read of the file is started and the handler returns, clearing
   * `isUploading` before the file is stored.
   */
  function UploadAndAnalyze(s: State, token: Option<string>, identity: Reply<Identity>): State
  {
    if s.selectedFile.None? then
      s.(error := "Pleaser provide an image.")
    else
      var started := s.(isUploading := true, error := "", requests := s.requests + [FetchIdentity(BearerHeader(token))]);
      var settled :=
        match identity
        case Ok(user) => started.(pendingReads := started.pendingReads + [PendingRead(user.id, s.selectedFile.value)])
        case NotOk(_) => started.(error := "Failed to fetch user details")
        case Throws(m) => started.(error := m);
      settled.(isUploading := false)
  }

  /** Without a file no request is made. */
  lemma UploadGuard(s: State, token: Option<string>, identity: Reply<Identity>)
    requires s.selectedFile.None?
    ensures UploadAndAnalyze(s, token, identity) == s.(error := "Pleaser provide an image.")
  {
  }

  /** The button is only shown with a file selected, so from it the guard never fires. */
  lemma UploadShownHasFile(s: State)
    requires Valid(s) && UploadShown(s)
    ensures s.selectedFile.Some?
  {
  }

  /**
   * Pressed while enabled, the button always gets past the guard: exactly
   * the identity check is requested and both busy flags end cleared.
   */
  lemma UploadFromEnabledButton(s: State, token: Option<string>, identity: Reply<Identity>)
    requires Valid(s) && UploadEnabled(s)
    ensures var t := UploadAndAnalyze(s, token, identity);
      && t.requests == s.requests + [FetchIdentity(BearerHeader(token))]
      && !t.isUploading && !t.isAnalyzing
  {
    UploadShownHasFile(s);
    UploadAndAnalyzeOutcomes(s, token, identity);
  }

  /**
   * With a file, exactly one request (the identity check) is made; a failed
   * check sets the fixed message, whatever the server said, and starts no
   * read; a passed one starts a read of the selected file for the returned
   * id. Either way `isUploading` ends cleared and no file has been stored.
   */
  lemma UploadAndAnalyzeOutcomes(s: State, token: Option<string>, identity: Reply<Identity>)
    requires s.selectedFile.Some?
    ensures var t := UploadAndAnalyze(s, token, identity);
      && t.requests == s.requests + [FetchIdentity(BearerHeader(token))]
      && !t.isUploading
      && (identity.Ok? ==>
            t.error == "" && t.pendingReads == s.pendingReads + [PendingRead(identity.body.id, s.selectedFile.value)])
      && (identity.NotOk? ==> t.error == "Failed to fetch user details" && t.pendingReads == s.pendingReads)
      && (identity.Throws? ==> t.error == identity.message && t.pendingReads == s.pendingReads)
      && t.selectedFile == s.selectedFile && t.previewUrl == s.previewUrl
      && t.analysisResult == s.analysisResult && t.isAnalyzing == s.isAnalyzing
  {
  }

  /** `handleAnalyzeFile`. */
  function AnalyzeStored(s: State, fileId: int, analysis: Reply<Analysis>): State
  {
    var started := s.(isAnalyzing := true, requests := s.requests + [AnalyzeFile(fileId)]);
    var settled :=
      match analysis
      case Ok(result) => started.(analysisResult := result.analysisResult)
      case NotOk(_) => started.(error := "Failed to analyze image")
      case Throws(m) => started.(error := m);
    settled.(isAnalyzing := false)
  }

  /** One request for the file; the result on success, the message otherwise; `isAnalyzing` cleared. */
  lemma AnalyzeStoredOutcomes(s: State, fileId: int, analysis: Reply<Analysis>)
    ensures var t := AnalyzeStored(s, fileId, analysis);
      && t.requests == s.requests + [AnalyzeFile(fileId)]
      && !t.isAnalyzing
      && (analysis.Ok? ==> t.analysisResult == analysis.body.analysisResult && t.error == s.error)
      && (analysis.NotOk? ==> t.error == "Failed to analyze image" && t.analysisResult == s.analysisResult)
      && (analysis.Throws? ==> t.error == analysis.message && t.analysisResult == s.analysisResult)
      && t.selectedFile == s.selectedFile && t.previewUrl == s.previewUrl
      && t.isUploading == s.isUploading && t.pendingReads == s.pendingReads
  {
  }

  /** The list without its `k`-th element. */
  function Without<T>(xs: seq<T>, k: nat): (r: seq<T>)
    requires k < |xs|
    ensures |r| == |xs| - 1
    ensures forall i :: 0 <= i < k ==> r[i] == xs[i]
    ensures forall i :: k <= i < |r| ==> r[i] == xs[i + 1]
  {
    xs[..k] + xs[k + 1..]
  }

  /**
   * The `onloadend` callback of pending read `k`. When the read failed,
   * `reader.result` is null and the callback throws before any request.
   * Otherwise the store call is made; its failure is thrown outside any
   * `try` and sets nothing; its success leads to `handleAnalyzeFile`.
   */
  function LoadEnd(s: State, k: nat, read: ImageRead, store: Reply<Stored>, analysis: Reply<Analysis>): State
    requires k < |s.pendingReads|
  {
    var p := s.pendingReads[k];
    var s1 := s.(pendingReads := Without(s.pendingReads, k));
    match read
    case ReadFails(_) => s1
    case DataUrlRead(dataUrl) =>
      var payload := StorePayload(p.userId, p.file.name, "", SecondField(dataUrl));
      var s2 := s1.(requests := s1.requests + [StoreFile(payload)]);
      if store.Ok? then AnalyzeStored(s2, store.body.id, analysis) else s2
  }

  /**
   * The store call carries the captured id and file name, an empty text and
   * the base64 field of the data URL; a failed store call changes no slot
   * and makes no further request; a failed read makes no request at all.
   */
  lemma LoadEndOutcomes(s: State, k: nat, read: ImageRead, store: Reply<Stored>, analysis: Reply<Analysis>)
    requires k < |s.pendingReads|
    ensures var t, p := LoadEnd(s, k, read, store, analysis), s.pendingReads[k];
      && t.pendingReads == Without(s.pendingReads, k)
      && t.selectedFile == s.selectedFile && t.previewUrl == s.previewUrl && t.isUploading == s.isUploading
      && (read.ReadFails? ==> t == s.(pendingReads := Without(s.pendingReads, k)))
      && (read.DataUrlRead? ==>
            && |t.requests| >= |s.requests| + 1
            && t.requests[|s.requests|] == StoreFile(StorePayload(p.userId, p.file.name, "", SecondField(read.dataUrl))))
      && (read.DataUrlRead? && !store.Ok? ==>
            t == s.(pendingReads := Without(s.pendingReads, k),
                    requests := s.requests + [StoreFile(StorePayload(p.userId, p.file.name, "", SecondField(read.dataUrl)))]))
      && (read.DataUrlRead? && store.Ok? ==>
            |t.requests| == |s.requests| + 2 && t.requests[|s.requests| + 1] == AnalyzeFile(store.body.id) && !t.isAnalyzing)
  {
  }

  class Generator {
    var selectedFile: Option<File>
    var previewUrl: Option<string>
    var error: string
    var analysisResult: Option<string>
    var isUploading: bool
    var isAnalyzing: bool
    /** Every network call made so far, oldest first. */
    var requests: seq<Request>
    /** Reads started by `HandleUploadAndAnalyze` whose callback has not run yet. */
    var pendingReads: seq<PendingRead>

    function Snapshot(): State
      reads this
    {
      State(selectedFile, previewUrl, error, analysisResult, isUploading, isAnalyzing, requests, pendingReads)
    }

    constructor ()
      ensures Snapshot() == Initial()
    {
      selectedFile, previewUrl, error, analysisResult := None, None, "", None;
      isUploading, isAnalyzing := false, false;
      requests, pendingReads := [], [];
    }

    /** `handleFileChange`; `objectUrl` is the preview URL the browser creates for the file. */
    method HandleFileChange(file: Option<File>, objectUrl: string)
      modifies this
      ensures Snapshot() == FileChange(old(Snapshot()), file, objectUrl)
    {
      if file.None? {
        error := "No file selected";
        return;
      }
      var f := file.value;
      if !("image/" <= f.mediaType) {
        error := "Please select a valid image file (jpg, png, etc.)";
        selectedFile := None;
        previewUrl := None;
        return;
      }
      if f.size > 5 * 1024 * 1024 {
        error := "File size must be less than 5 MB";
        selectedFile := None;
        previewUrl := None;
        return;
      }
      error := "";
      selectedFile := file;
      previewUrl := Some(objectUrl);
    }

    /** `handleUploadAndAnalyze`, run from the "Upload & Analyze" button. */
    method HandleUploadAndAnalyze(token: Option<string>, identity: Reply<Identity>)
      modifies this
      ensures Snapshot() == UploadAndAnalyze(old(Snapshot()), token, identity)
    {
      if selectedFile.None? {
        error := "Pleaser provide an image.";
        return;
      }
      isUploading := true;
      error := "";
      requests := requests + [FetchIdentity(BearerHeader(token))];
      match identity {
        case Ok(user) =>
          pendingReads := pendingReads + [PendingRead(user.id, selectedFile.value)];
        case NotOk(_) =>
          error := "Failed to fetch user details";
        case Throws(message) =>
          error := message;
      }
      isUploading := false;
    }

    /** The `onloadend` callback of pending read `k`. */
    method OnLoadEnd(k: nat, read: ImageRead, store: Reply<Stored>, analysis: Reply<Analysis>)
      requires k < |pendingReads|
      modifies this
      ensures Snapshot() == LoadEnd(old(Snapshot()), k, read, store, analysis)
    {
      var p := pendingReads[k];
      pendingReads := pendingReads[..k] + pendingReads[k + 1..];
      if read.ReadFails? {
        return;
      }
      var payload := StorePayload(p.userId, p.file.name, "", SecondField(read.dataUrl));
      requests := requests + [StoreFile(payload)];
      if store.Ok? {
        HandleAnalyzeFile(store.body.id, analysis);
      }
    }

    /** `handleAnalyzeFile`. */
    method HandleAnalyzeFile(fileId: int, analysis: Reply<Analysis>)
      modifies this
      ensures Snapshot() == AnalyzeStored(old(Snapshot()), fileId, analysis)
    {
      isAnalyzing := true;
      requests := requests + [AnalyzeFile(fileId)];
      match analysis {
        case Ok(result) => analysisResult := result.analysisResult;
        case NotOk(_) => error := "Failed to analyze image";
        case Throws(message) => error := message;
      }
      isAnalyzing := false;
    }
  }
}
