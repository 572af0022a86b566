/**
 * The "Validate Description" dashboard tool: the user supplies an image
 * (a local file, or the image of a Twitter post) with a description, and the
 * tool stores the image and asks the server whether the description matches.
 *
 * The component's `useState` slots are the fields of `Checker`; each event
 * handler is a method run to completion, with the outcomes of its network
 * calls and of the `FileReader` given as arguments. Each method is specified
 * by a transition function on `State`, a snapshot of the slots, and the
 * lemmas below state what the handlers promise in terms of those functions.
 */
module DescriptionChecker {
  import opened Wrappers
  import opened Text
  import opened FileChecks
  import opened TweetUrl
  import opened DataUrl
  import opened Fetch

  datatype InputType = FileInput | TwitterInput

  /** The component's slots, plus the network calls made so far (oldest first). */
  datatype State = State(
    inputType: InputType,
    selectedFile: Option<File>,
    previewUrl: Option<string>,
    twitterUrl: string,
    error: string,
    textInput: string,
    analysisResult: Option<string>,
    isUploading: bool,
    isAnalyzing: bool,
    isFetching: bool,
    requests: seq<Request>)

  /** A JavaScript value that is neither `null` nor "". */
  predicate Truthy(o: Option<string>) { o.Some? && o.value != "" }

  /** In file mode a preview only ever comes from an accepted file. */
  predicate Valid(s: State) {
    s.inputType == FileInput && Truthy(s.previewUrl) ==> s.selectedFile.Some?
  }

  /** The "Upload & Analyze" button is rendered. */
  predicate UploadShown(s: State) {
    Truthy(s.previewUrl) && Trim(s.textInput) != ""
  }

  /** The "Upload & Analyze" button is rendered and not disabled. */
  predicate UploadEnabled(s: State) {
    UploadShown(s) && !s.isUploading && !s.isAnalyzing
  }

  /** The "Fetch Twitter Data" button is rendered and not disabled. */
  predicate FetchEnabled(s: State) {
    s.inputType == TwitterInput && !s.isFetching && Trim(s.twitterUrl) != ""
  }

  /** The slots and the inputs of the form that a handler leaves as they were. */
  predicate SameInput(s: State, t: State) {
    && t.inputType == s.inputType && t.twitterUrl == s.twitterUrl && t.selectedFile == s.selectedFile
    && t.previewUrl == s.previewUrl && t.textInput == s.textInput
  }

  /** The slots as the component first renders them. */
  function Initial(): (s: State)
    ensures Valid(s) && !UploadShown(s) && !FetchEnabled(s)
    ensures s.error == "" && s.requests == [] && s.inputType == FileInput
  {
    State(FileInput, None, None, "", "", "", None, false, false, false, [])
  }

  /** The "Upload File" radio button. */
  function SelectFileInput(s: State): State
  {
    s.(inputType := FileInput, twitterUrl := "", previewUrl := None, selectedFile := None,
       textInput := "", analysisResult := None)
  }

  /** The "Twitter Post" radio button. */
  function SelectTwitterInput(s: State): State
  {
    s.(inputType := TwitterInput, selectedFile := None, previewUrl := None,
       textInput := "", analysisResult := None)
  }

  /**
   * Either radio button discards the image, the description and the result
   * and makes no request; only "Upload File" clears the typed post URL, and
   * neither clears the message.
   */
  lemma SelectInputResets(s: State)
    ensures var t := SelectFileInput(s);
      && Valid(t) && !UploadShown(t) && t.inputType == FileInput && t.twitterUrl == ""
      && t.previewUrl == None && t.selectedFile == None && t.textInput == "" && t.analysisResult == None
      && t.error == s.error && t.requests == s.requests
      && t.isUploading == s.isUploading && t.isAnalyzing == s.isAnalyzing && t.isFetching == s.isFetching
    ensures var t := SelectTwitterInput(s);
      && Valid(t) && !UploadShown(t) && t.inputType == TwitterInput && t.twitterUrl == s.twitterUrl
      && t.previewUrl == None && t.selectedFile == None && t.textInput == "" && t.analysisResult == None
      && t.error == s.error && t.requests == s.requests
      && t.isUploading == s.isUploading && t.isAnalyzing == s.isAnalyzing && t.isFetching == s.isFetching
  {
    assert Trim("") == "";
  }

  /** Selecting an input type twice in a row is the same as selecting it once. */
  lemma SelectInputIdempotent(s: State)
    ensures SelectFileInput(SelectFileInput(s)) == SelectFileInput(s)
    ensures SelectTwitterInput(SelectTwitterInput(s)) == SelectTwitterInput(s)
  {
  }

  /** `handleFileChange`: the outcome of `FileChecks.Check` decides the new slots. */
  function FileChange(s: State, file: Option<File>, objectUrl: string): State
  {
    match Check(file)
    case NoFile => s.(error := "No file selected")
    case Accepted(f) =>
      s.(error := "", selectedFile := Some(f), previewUrl := Some(objectUrl),
         textInput := "", analysisResult := None)
    case _ => s.(error := Message(Check(file)), selectedFile := None, previewUrl := None)
  }

  /**
   * Choosing no file only sets a message; a rejected file also clears the
   * image; an accepted one becomes the image with an empty description.
   * The type and the inputs of the other mode, the busy flags and the
   * requests never change.
   */
  lemma FileChangeOutcomes(s: State, file: Option<File>, objectUrl: string)
    requires Valid(s)
    ensures var t := FileChange(s, file, objectUrl);
      && Valid(t)
      && (file.None? ==>
            && t.error == "No file selected"
            && t.selectedFile == s.selectedFile && t.previewUrl == s.previewUrl
            && t.textInput == s.textInput && t.analysisResult == s.analysisResult)
      && (file.Some? && !Check(file).Accepted? ==>
            && t.error == Message(Check(file)) && t.error != ""
            && t.selectedFile == None && t.previewUrl == None
            && t.textInput == s.textInput && t.analysisResult == s.analysisResult)
      && (Check(file).Accepted? ==>
            && t.error == "" && t.selectedFile == file && t.previewUrl == Some(objectUrl)
            && t.textInput == "" && t.analysisResult == None)
      && t.inputType == s.inputType && t.twitterUrl == s.twitterUrl && t.requests == s.requests
      && t.isUploading == s.isUploading && t.isAnalyzing == s.isAnalyzing && t.isFetching == s.isFetching
  {
  }

  /** The message `handleTwitterUrl` shows for a fetch outcome, `None` on success. */
  function TwitterFailure(reply: Reply<TwitterData>): (m: Option<string>)
    ensures m.None? <==> reply.Ok? && reply.body.imageUrl != "" && reply.body.tweetText != ""
  {
    match reply
    case Ok(d) =>
      if d.imageUrl == "" || d.tweetText == "" then Some("Failed to extract image or text from Twitter post.")
      else None
    case NotOk(_) => Some("Failed to fetch Twitter data. Please check the URL.")
    case Throws(m) => Some(OrElse(m, "An error occurred while fetching Twitter data."))
  }

  /** `handleTwitterUrl`: the two guards, then the request. */
  function TwitterFetch(s: State, reply: Reply<TwitterData>): State
  {
    if Trim(s.twitterUrl) == "" then
      s.(error := "Please enter a valid Twitter post URL.")
    else if TweetId(s.twitterUrl).None? then
      s.(error := "Invalid Twitter URL. Please enter a valid URL.")
    else
      TwitterSettle(s, FetchTwitterData(Trim(s.twitterUrl), TweetId(s.twitterUrl).value), reply)
  }

  /**
   * `handleTwitterUrl` past its guards: the busy flag is set, the message
   * cleared and the request made; then the `try`/`catch`/`finally`.
   */
  function TwitterSettle(s: State, request: Request, reply: Reply<TwitterData>): State
  {
    var started := s.(isFetching := true, error := "", requests := s.requests + [request]);
    var settled :=
      match TwitterFailure(reply)
      case None => started.(previewUrl := Some(reply.body.imageUrl), textInput := reply.body.tweetText, error := "")
      case Some(m) => started.(error := m);
    settled.(isFetching := false)
  }

  /**
   * A blank URL, or one without a post id, is refused with a message, no
   * request and `isFetching` untouched.
   */
  lemma TwitterFetchRefused(s: State, reply: Reply<TwitterData>)
    requires Trim(s.twitterUrl) == "" || TweetId(s.twitterUrl).None?
    ensures Trim(s.twitterUrl) == "" ==>
      TwitterFetch(s, reply) == s.(error := "Please enter a valid Twitter post URL.")
    ensures Trim(s.twitterUrl) != "" ==>
      TwitterFetch(s, reply) == s.(error := "Invalid Twitter URL. Please enter a valid URL.")
  {
  }

  /**
   * Otherwise exactly one request is made, with the trimmed URL and the id,
   * and the post's image and text are taken only when both are present;
   * `isFetching` ends cleared.
   */
  lemma TwitterFetchRequest(s: State, reply: Reply<TwitterData>)
    requires Valid(s) && s.inputType == TwitterInput
    requires Trim(s.twitterUrl) != "" && TweetId(s.twitterUrl).Some?
    ensures var t := TwitterFetch(s, reply);
      && Valid(t)
      && t.requests == s.requests + [FetchTwitterData(Trim(s.twitterUrl), TweetId(s.twitterUrl).value)]
      && !t.isFetching
      && (TwitterFailure(reply).None? ==>
            t.error == "" && t.previewUrl == Some(reply.body.imageUrl) && t.textInput == reply.body.tweetText)
      && (TwitterFailure(reply).Some? ==>
            t.error == TwitterFailure(reply).value && t.previewUrl == s.previewUrl && t.textInput == s.textInput)
      && t.inputType == s.inputType && t.twitterUrl == s.twitterUrl
      && t.selectedFile == s.selectedFile && t.analysisResult == s.analysisResult
      && t.isUploading == s.isUploading && t.isAnalyzing == s.isAnalyzing
  {
  }

  /**
   * From the enabled "Fetch Twitter Data" button the blank-URL guard never
   * fires: either the URL has no post id and only that message is set, or
   * exactly one request is made. Either way `isFetching` ends false.
   */
  lemma FetchFromEnabledButton(s: State, reply: Reply<TwitterData>)
    requires Valid(s) && FetchEnabled(s)
    ensures var t := TwitterFetch(s, reply);
      && !t.isFetching
      && (TweetId(s.twitterUrl).None? ==> t == s.(error := "Invalid Twitter URL. Please enter a valid URL."))
      && (TweetId(s.twitterUrl).Some? ==>
            t.requests == s.requests + [FetchTwitterData(Trim(s.twitterUrl), TweetId(s.twitterUrl).value)])
  {
    if TweetId(s.twitterUrl).Some? {
      TwitterFetchRequest(s, reply);
    }
  }

  /** `handleAnalyzeImage`: asks whether the current (trimmed) description matches the stored file. */
  function AnalyzeImage(s: State, fileId: int, analysis: Reply<Analysis>): State
  {
    var started := s.(isAnalyzing := true, requests := s.requests + [AnalyzeWithDescription(fileId, Trim(s.textInput))]);
    var settled :=
      match analysis
      case Ok(result) => started.(analysisResult := result.analysisResult)
      case NotOk(_) => started.(error := "Failed to analyze image with description")
      case Throws(m) => started.(error := m);
    settled.(isAnalyzing := false)
  }

  /**
   * One request, for the given file and the trimmed description; the result
   * is taken on success and the message set otherwise; `isAnalyzing` ends
   * cleared and nothing else changes.
   */
  lemma AnalyzeImageOutcomes(s: State, fileId: int, analysis: Reply<Analysis>)
    ensures var t := AnalyzeImage(s, fileId, analysis);
      && t.requests == s.requests + [AnalyzeWithDescription(fileId, Trim(s.textInput))]
      && !t.isAnalyzing
      && (analysis.Ok? ==> t.analysisResult == analysis.body.analysisResult && t.error == s.error)
      && (analysis.NotOk? ==>
            t.error == "Failed to analyze image with description" && t.analysisResult == s.analysisResult)
      && (analysis.Throws? ==> t.error == analysis.message && t.analysisResult == s.analysisResult)
      && SameInput(s, t) && t.isUploading == s.isUploading && t.isFetching == s.isFetching
  {
  }

  /** The message `handleUpload` shows when a step before analysis fails. */
  function UploadFailure<T>(reply: Reply<T>, fallback: string): string
    requires !reply.Ok?
  {
    match reply
    case NotOk(detail) => OrElse(detail, fallback)
    case Throws(m) => OrElse(m, "An error occurred during file upload.")
  }

  /** The body of the store call. */
  function Payload(s: State, userId: int, dataUrl: string): StorePayload
    requires Valid(s) && Truthy(s.previewUrl)
  {
    var fileName := if s.inputType == FileInput then s.selectedFile.value.name else "twitter_image";
    StorePayload(userId, fileName, Trim(s.textInput), SecondField(dataUrl))
  }

  /** `handleUpload`: the guard, then the `try` block with `isUploading` set. */
  function Upload(s: State, token: Option<string>, identity: Reply<Identity>, image: ImageRead,
                  store: Reply<Stored>, analysis: Reply<Analysis>): State
    requires Valid(s)
  {
    if !UploadShown(s) then
      s.(error := "Please provide an image and a description.")
    else
      UploadTry(s, token, identity, image, store, analysis).(isUploading := false)
  }

  /**
   * `handleUpload` from `setIsUploading(true)` to the end of its `try` block:
   * the busy flag is set and the message cleared, then the identity check and
   * the store step.
   */
  function UploadTry(s: State, token: Option<string>, identity: Reply<Identity>, image: ImageRead,
                     store: Reply<Stored>, analysis: Reply<Analysis>): State
    requires Valid(s) && Truthy(s.previewUrl)
  {
    var s1 := s.(isUploading := true, error := "", requests := s.requests + [FetchIdentity(BearerHeader(token))]);
    if !identity.Ok? then s1.(error := UploadFailure(identity, "Failed to fetch user details"))
    else UploadStore(s1, identity.body.id, image, store, analysis)
  }

  /** Reading the preview as base64, the store call and the analysis of the stored file. */
  function UploadStore(s: State, userId: int, image: ImageRead, store: Reply<Stored>, analysis: Reply<Analysis>): State
    requires Valid(s) && Truthy(s.previewUrl)
  {
    var s1 := s.(requests := s.requests + [FetchImage(s.previewUrl.value)]);
    if image.ReadFails? then s1.(error := OrElse(image.message, "An error occurred during file upload."))
    else
      var s2 := s1.(requests := s1.requests + [StoreFile(Payload(s, userId, image.dataUrl))]);
      if !store.Ok? then s2.(error := UploadFailure(store, "Failed to upload file"))
      else AnalyzeImage(s2, store.body.id, analysis)
  }

  /** Without an image and a non-blank description no request is made at all. */
  lemma UploadGuard(s: State, token: Option<string>, identity: Reply<Identity>, image: ImageRead,
                    store: Reply<Stored>, analysis: Reply<Analysis>)
    requires Valid(s) && !UploadShown(s)
    ensures Upload(s, token, identity, image, store, analysis) == s.(error := "Please provide an image and a description.")
  {
  }

  /** An upload never changes the form's inputs and ends with `isUploading` cleared. */
  lemma UploadKeepsInput(s: State, token: Option<string>, identity: Reply<Identity>, image: ImageRead,
                         store: Reply<Stored>, analysis: Reply<Analysis>)
    requires Valid(s) && UploadShown(s)
    ensures var t := Upload(s, token, identity, image, store, analysis);
      Valid(t) && SameInput(s, t) && t.isFetching == s.isFetching && !t.isUploading
  {
  }

  /** A failed identity check: one request, its message, and nothing read or stored. */
  lemma UploadIdentityFails(s: State, token: Option<string>, identity: Reply<Identity>, image: ImageRead,
                            store: Reply<Stored>, analysis: Reply<Analysis>)
    requires Valid(s) && UploadShown(s) && !identity.Ok?
    ensures var t := Upload(s, token, identity, image, store, analysis);
      && t.requests == s.requests + [FetchIdentity(BearerHeader(token))]
      && t.error == UploadFailure(identity, "Failed to fetch user details")
      && t.analysisResult == s.analysisResult && t.isAnalyzing == s.isAnalyzing
  {
  }

  /** The image cannot be read: nothing is stored. */
  lemma UploadReadFails(s: State, token: Option<string>, identity: Reply<Identity>, image: ImageRead,
                        store: Reply<Stored>, analysis: Reply<Analysis>)
    requires Valid(s) && UploadShown(s) && identity.Ok? && image.ReadFails?
    ensures var t := Upload(s, token, identity, image, store, analysis);
      && t.requests == s.requests + [FetchIdentity(BearerHeader(token)), FetchImage(s.previewUrl.value)]
      && t.error == OrElse(image.message, "An error occurred during file upload.")
      && t.analysisResult == s.analysisResult && t.isAnalyzing == s.isAnalyzing
  {
  }

  /**
   * The store call carries the id of the identity check, the file's name (or
   * "twitter_image"), the trimmed description and the base64 field of the
   * data URL; if it fails nothing is analysed.
   */
  lemma UploadStoreCall(s: State, token: Option<string>, identity: Reply<Identity>, image: ImageRead,
                        store: Reply<Stored>, analysis: Reply<Analysis>)
    requires Valid(s) && UploadShown(s) && identity.Ok? && image.DataUrlRead?
    ensures var t := Upload(s, token, identity, image, store, analysis);
      var p := StorePayload(identity.body.id,
                            if s.inputType == FileInput then s.selectedFile.value.name else "twitter_image",
                            Trim(s.textInput), SecondField(image.dataUrl));
      && |t.requests| >= |s.requests| + 3
      && t.requests[..|s.requests| + 3] == s.requests + [FetchIdentity(BearerHeader(token)), FetchImage(s.previewUrl.value), StoreFile(p)]
      && (!store.Ok? ==>
            && |t.requests| == |s.requests| + 3
            && t.error == UploadFailure(store, "Failed to upload file")
            && t.analysisResult == s.analysisResult && t.isAnalyzing == s.isAnalyzing)
  {
    var t := Upload(s, token, identity, image, store, analysis);
    if store.Ok? {
      assert t.requests[..|s.requests| + 3] == UploadStore(s.(isUploading := true, error := "", requests := s.requests + [FetchIdentity(BearerHeader(token))]), identity.body.id, image, store, analysis).requests[..|s.requests| + 3];
    }
  }

  /** Analysis is asked for the id the store call returned, with the trimmed description. */
  lemma UploadAnalyzes(s: State, token: Option<string>, identity: Reply<Identity>, image: ImageRead,
                       store: Reply<Stored>, analysis: Reply<Analysis>)
    requires Valid(s) && UploadShown(s) && identity.Ok? && image.DataUrlRead? && store.Ok?
    ensures var t := Upload(s, token, identity, image, store, analysis);
      && |t.requests| == |s.requests| + 4
      && t.requests[|s.requests| + 3] == AnalyzeWithDescription(store.body.id, Trim(s.textInput))
      && !t.isAnalyzing
      && (analysis.Ok? ==> t.error == "" && t.analysisResult == analysis.body.analysisResult)
      && (analysis.NotOk? ==>
            t.error == "Failed to analyze image with description" && t.analysisResult == s.analysisResult)
      && (analysis.Throws? ==> t.error == analysis.message && t.analysisResult == s.analysisResult)
  {
  }

  /** Started from the enabled button, an upload leaves neither busy flag set. */
  lemma UploadClearsBusyFlags(s: State, token: Option<string>, identity: Reply<Identity>, image: ImageRead,
                              store: Reply<Stored>, analysis: Reply<Analysis>)
    requires Valid(s) && UploadEnabled(s)
    ensures var t := Upload(s, token, identity, image, store, analysis); !t.isUploading && !t.isAnalyzing
  {
  }

  class Checker {
    var inputType: InputType
    var selectedFile: Option<File>
    var previewUrl: Option<string>
    var twitterUrl: string
    var error: string
    var textInput: string
    var analysisResult: Option<string>
    var isUploading: bool
    var isAnalyzing: bool
    var isFetching: bool
    /** Every network call made so far, oldest first. */
    var requests: seq<Request>

    function Snapshot(): State
      reads this
    {
      State(inputType, selectedFile, previewUrl, twitterUrl, error, textInput, analysisResult,
            isUploading, isAnalyzing, isFetching, requests)
    }

    constructor ()
      ensures Snapshot() == Initial()
    {
      inputType, selectedFile, previewUrl := FileInput, None, None;
      twitterUrl, error, textInput, analysisResult := "", "", "", None;
      isUploading, isAnalyzing, isFetching := false, false, false;
      requests := [];
    }

    /**
     * The `onChange` of the "Upload File" radio button. The browser fires it
     * only when the button becomes checked; the method may also be called in
     * file mode, which allows more runs than the component has.
     */
    method SelectFile()
      modifies this
      ensures Snapshot() == SelectFileInput(old(Snapshot()))
    {
      inputType := FileInput;
      twitterUrl := "";
      previewUrl := None;
      selectedFile := None;
      textInput := "";
      analysisResult := None;
    }

    /**
     * The `onChange` of the "Twitter Post" radio button, fired only when it
     * becomes checked; as for `SelectFile`, the method may be called in
     * either mode.
     */
    method SelectTwitter()
      modifies this
      ensures Snapshot() == SelectTwitterInput(old(Snapshot()))
    {
      inputType := TwitterInput;
      selectedFile := None;
      previewUrl := None;
      textInput := "";
      analysisResult := None;
    }

    /** Typing in the post URL field. */
    method EditTwitterUrl(url: string)
      modifies this`twitterUrl
      ensures Snapshot() == old(Snapshot()).(twitterUrl := url)
    {
      twitterUrl := url;
    }

    /** Typing in the description field, which is read-only for a Twitter post. */
    method EditDescription(text: string)
      requires inputType == FileInput
      modifies this`textInput
      ensures Snapshot() == old(Snapshot()).(textInput := text)
    {
      textInput := text;
    }

    /**
     * `handleFileChange`: `file` is the first selected file, `objectUrl` the
     * preview URL the browser creates for it.
     */
    method HandleFileChange(file: Option<File>, objectUrl: string)
      requires Valid(Snapshot())
      modifies this
      ensures Snapshot() == FileChange(old(Snapshot()), file, objectUrl)
    {
      if file.None? {
        error := "No file selected";
        return;
      }
      var f := file.value;
      if !("image/" <= f.mediaType) {
        error := "Please select a valid image file (jpg, png, etc.)";
        selectedFile := None;
        previewUrl := None;
        return;
      }
      if f.size > 5 * 1024 * 1024 {
        error := "File size must be less than 5 MB";
        selectedFile := None;
        previewUrl := None;
        return;
      }
      error := "";
      selectedFile := file;
      previewUrl := Some(objectUrl);
      textInput := "";
      analysisResult := None;
    }

    /** `handleTwitterUrl`, run from the "Fetch Twitter Data" button. */
    method HandleTwitterUrl(reply: Reply<TwitterData>)
      requires Valid(Snapshot()) && inputType == TwitterInput
      modifies this
      ensures Snapshot() == TwitterFetch(old(Snapshot()), reply)
    {
      if Trim(twitterUrl) == "" {
        error := "Please enter a valid Twitter post URL.";
        return;
      }
      var tweetId := TweetId(twitterUrl);
      if tweetId.None? {
        error := "Invalid Twitter URL. Please enter a valid URL.";
        return;
      }
      FetchTweet(FetchTwitterData(Trim(twitterUrl), tweetId.value), reply);
    }

    /** `handleTwitterUrl` from `setIsFetching(true)` on; `request` is the call it makes. */
    method FetchTweet(request: Request, reply: Reply<TwitterData>)
      modifies this
      ensures Snapshot() == TwitterSettle(old(Snapshot()), request, reply)
    {
      isFetching := true;
      error := "";
      requests := requests + [request];
      match reply {
        case Ok(data) =>
          if data.imageUrl == "" || data.tweetText == "" {
            error := "Failed to extract image or text from Twitter post.";
          } else {
            previewUrl := Some(data.imageUrl);
            textInput := data.tweetText;
            error := "";
          }
        case NotOk(_) =>
          error := "Failed to fetch Twitter data. Please check the URL.";
        case Throws(message) =>
          error := OrElse(message, "An error occurred while fetching Twitter data.");
      }
      isFetching := false;
    }

    /** `handleUpload`, run from the "Upload & Analyze" button. */
    method HandleUpload(token: Option<string>, identity: Reply<Identity>, image: ImageRead,
                        store: Reply<Stored>, analysis: Reply<Analysis>)
      requires Valid(Snapshot())
      modifies this
      ensures Snapshot() == Upload(old(Snapshot()), token, identity, image, store, analysis)
    {
      if !Truthy(previewUrl) || Trim(textInput) == "" {
        error := "Please provide an image and a description.";
        return;
      }
      TryUpload(token, identity, image, store, analysis);
      isUploading := false;
    }

    /** `handleUpload` from `setIsUploading(true)` to the end of its `try`/`catch`. */
    method TryUpload(token: Option<string>, identity: Reply<Identity>, image: ImageRead,
                     store: Reply<Stored>, analysis: Reply<Analysis>)
      requires Valid(Snapshot()) && Truthy(previewUrl)
      modifies this
      ensures Snapshot() == UploadTry(old(Snapshot()), token, identity, image, store, analysis)
    {
      isUploading := true;
      error := "";
      requests := requests + [FetchIdentity(BearerHeader(token))];
      if !identity.Ok? {
        error := UploadFailure(identity, "Failed to fetch user details");
        return;
      }
      StoreAndAnalyze(identity.body.id, image, store, analysis);
    }

    /** The rest of the `try` block: `fetchImageAsBase64`, the store call and the analysis. */
    method StoreAndAnalyze(userId: int, image: ImageRead, store: Reply<Stored>, analysis: Reply<Analysis>)
      requires Valid(Snapshot()) && Truthy(previewUrl)
      modifies this
      ensures Snapshot() == UploadStore(old(Snapshot()), userId, image, store, analysis)
    {
      var fileName := if inputType == FileInput then selectedFile.value.name else "twitter_image";
      var uploadedText := Trim(textInput);
      requests := requests + [FetchImage(previewUrl.value)];
      if image.ReadFails? {
        error := OrElse(image.message, "An error occurred during file upload.");
        return;
      }
      var payload := StorePayload(userId, fileName, uploadedText, SecondField(image.dataUrl));
      requests := requests + [StoreFile(payload)];
      if !store.Ok? {
        error := UploadFailure(store, "Failed to upload file");
        return;
      }
      HandleAnalyzeImage(store.body.id, analysis);
    }

    /** `handleAnalyzeImage`. */
    method HandleAnalyzeImage(fileId: int, analysis: Reply<Analysis>)
      modifies this
      ensures Snapshot() == AnalyzeImage(old(Snapshot()), fileId, analysis)
    {
      isAnalyzing := true;
      requests := requests + [AnalyzeWithDescription(fileId, Trim(textInput))];
      match analysis {
        case Ok(result) => analysisResult := result.analysisResult;
        case NotOk(_) => error := "Failed to analyze image with description";
        case Throws(message) => error := message;
      }
      isAnalyzing := false;
    }
  }
}
