# Graphs analysis using AI — a verified model of its core logic

The system is a web application. Users sign up and log in. They then upload
infographics to a backend, which asks a language model either to describe the
image ("Generate Description") or to say whether a given description matches
it ("Validate Description"). This project models the parts of that code that
carry real logic, and proves what they promise:

- **The two dashboard tools** (`DescriptionChecker`, `GenerateDescription`).
  - Each React component is a class. Its fields are the component's `useState` slots, plus a log of the network calls made so far.
  - Each event handler is a method. The outcome of each network call and of the `FileReader` is an argument.
  - Every method is specified by a transition function on a snapshot of the slots (`ensures Snapshot() == F(old(Snapshot()), …)`).
  - Lemmas about those functions state what each handler sets, clears, leaves alone and requests.
  - Shared pieces live in their own modules:
    - the ordered file checks (`FileChecks`);
    - the post-id extraction `/status\/(\d+)/` (`TweetUrl`);
    - `split(",")[1]` on a data URL, and its agreement with section 3 of RFC 2397 (`DataUrl`);
    - JavaScript's `trim` and UTF-16 `length` (`Text`).
- **The sign-up form** (`RegisterForm`). The react-hook-form rules are pure functions. The email regular expression is stated as a ghost predicate, with a right-to-left recogniser proved equivalent to it. Lemmas state what every accepted address looks like.
- **The user endpoints** (`Users`). A `UserTable` class holds the `users` table as a map from id to row. Each endpoint is a method on it. bcrypt and the JWT signer are function values the table is given.
- **Access tokens** (`JwtAuth`, `Numerals`).
  - `create_access_token` is an imperative method, proved against the claim set it signs.
  - `get_current_user` is a pure decision over the outcome of decoding a token.
  - Python's `str`/`int` conversions of the subject claim are modelled, with the round trip `int(str(i)) == i` proved.

Behaviour the code has that a reader might not expect, modelled as written:

- `handleUpload` sends `Authorization: Bearer null` when no token is stored.
- A file that is both too large and not an image gets the type message, because the type check comes first.
- `split(",")[1]` is the text between the first and the second comma. `DataUrl.SecondFieldOfBase64DataUrl` shows that for a base64 data URL this is exactly the data.
- In the "Generate Description" tool:
  - `isUploading` is cleared as soon as the file read has started.
  - A failed store call inside the `onloadend` callback reaches no `try`, so it changes no slot.
  - Its upload message reads "Pleaser provide an image.", and it is modelled verbatim.
- `update_user` does not check that a new email is free. The column's `unique` constraint (backend/models/user.py:10) makes the commit fail instead. The model turns that into a 500 that leaves the table unchanged.
- A `sub` claim that is not an integer numeral makes `int()` raise `ValueError`. `except JWTError` does not catch it, so it is not turned into the 401.

## Model

| member | source | states |
|---|---|---|
| FileChecks.Check | frontend/src/components/Dashboard/DescriptionChecker.jsx:38-55 | The first failing check decides the verdict: a missing file; a media type not starting with "image/"; a size above 5,242,880 bytes. Each verdict is given as an if-and-only-if. Exactly 5 MiB is accepted. |
| FileChecks.Message | frontend/src/components/Dashboard/DescriptionChecker.jsx:39-51 | Every rejection has a non-empty message. |
| TweetUrl.TweetId | frontend/src/components/Dashboard/DescriptionChecker.jsx:71-76 | There is no id exactly when no position has "status/" followed by a digit. Otherwise the id is the maximal, non-empty digit run after the leftmost such "status/". |
| DataUrl.SecondField | frontend/src/components/Dashboard/DescriptionChecker.jsx:208 | `split(",")[1]` is undefined exactly when there is no comma. Otherwise it is the comma-free text that starts right after the first comma and ends at the next comma or at the end. |
| DataUrl.SecondFieldOfSingleComma | frontend/src/components/Dashboard/DescriptionChecker.jsx:208 | With a single comma, the field is all the text after it. |
| DataUrl.SecondFieldOfBase64DataUrl | frontend/src/components/Dashboard/GenerateDescription.jsx:64 | For `data:<type>;base64,<data>` the field sent to the server is exactly `<data>`. |
| Text.TrimStartShape | frontend/src/components/Dashboard/DescriptionChecker.jsx:65 | Trimming the start removes a white-space-only prefix and stops at the first other character. |
| Text.TrimEndShape | frontend/src/components/Dashboard/DescriptionChecker.jsx:65 | Trimming the end removes a white-space-only suffix and stops at the last other character. |
| Text.TrimShape | frontend/src/components/Dashboard/DescriptionChecker.jsx:65 | `trim()` keeps an infix that neither starts nor ends with white space, and removes only white space on either side. |
| Text.TrimEmptyIffAllSpace | frontend/src/components/Dashboard/DescriptionChecker.jsx:114 | `!s.trim()` holds exactly when `s` is made only of white space. |
| Text.Utf16Length | frontend/src/components/Auth/RegisterForm.jsx:45-47 | A JavaScript length lies between the number of code points and twice that. |
| DescriptionChecker.Initial | frontend/src/components/Dashboard/DescriptionChecker.jsx:6-15 | The initial slots are consistent: file mode, no message, no request, no upload button and no fetch button. |
| DescriptionChecker.Checker.constructor | frontend/src/components/Dashboard/DescriptionChecker.jsx:6-15 | A new component holds the initial slots. |
| DescriptionChecker.SelectInputResets | frontend/src/components/Dashboard/DescriptionChecker.jsx:235-259 | Either radio button clears the preview, the file, the text and the result, and hides the upload button. Only "Upload File" clears the post URL. The message, the busy flags and the requests are unchanged. |
| DescriptionChecker.SelectInputIdempotent | frontend/src/components/Dashboard/DescriptionChecker.jsx:235-259 | Selecting an input type twice is the same as selecting it once. |
| DescriptionChecker.Checker.SelectFile | frontend/src/components/Dashboard/DescriptionChecker.jsx:235-242 | The slots become those of the "Upload File" reset. |
| DescriptionChecker.Checker.SelectTwitter | frontend/src/components/Dashboard/DescriptionChecker.jsx:252-258 | The slots become those of the "Twitter Post" reset. |
| DescriptionChecker.Checker.EditTwitterUrl | frontend/src/components/Dashboard/DescriptionChecker.jsx:277 | Typing in the URL box changes only `twitterUrl`. |
| DescriptionChecker.Checker.EditDescription | frontend/src/components/Dashboard/DescriptionChecker.jsx:302-307 | Typing a description, which is possible only in file mode, changes only `textInput`. |
| DescriptionChecker.FileChangeOutcomes | frontend/src/components/Dashboard/DescriptionChecker.jsx:35-61 | A missing file only sets "No file selected". A rejected file sets its message and clears the file and the preview. An accepted file clears the message, sets the file and the preview, and resets the text and the result. Nothing else changes, and no request is made. |
| DescriptionChecker.Checker.HandleFileChange | frontend/src/components/Dashboard/DescriptionChecker.jsx:35-62 | The new slots are `FileChange` of the old ones. |
| DescriptionChecker.TwitterFailure | frontend/src/components/Dashboard/DescriptionChecker.jsx:90-107 | A fetch succeeds exactly when the response is ok and both the image URL and the text are present. |
| DescriptionChecker.TwitterFetchRefused | frontend/src/components/Dashboard/DescriptionChecker.jsx:65-75 | A blank URL, or a URL without a post id, only sets the matching message. No request is made, and `isFetching` is untouched. |
| DescriptionChecker.TwitterFetchRequest | frontend/src/components/Dashboard/DescriptionChecker.jsx:78-110 | Exactly one request is made, with the trimmed URL and the id. On success the preview and the text are taken and the message is cleared. On failure the message is set and the preview and the text are kept. `isFetching` ends false. |
| DescriptionChecker.FetchFromEnabledButton | frontend/src/components/Dashboard/DescriptionChecker.jsx:279-283 | From the enabled "Fetch Twitter Data" button the blank-URL guard never fires. Either only the invalid-URL message is set, or exactly one request is made with the trimmed URL and the id. `isFetching` ends false. |
| DescriptionChecker.Checker.HandleTwitterUrl | frontend/src/components/Dashboard/DescriptionChecker.jsx:64-111 | The new slots are `TwitterFetch` of the old ones. |
| DescriptionChecker.Checker.FetchTweet | frontend/src/components/Dashboard/DescriptionChecker.jsx:78-110 | From `setIsFetching(true)` on, the new slots are `TwitterSettle` of the old ones. |
| DescriptionChecker.AnalyzeImageOutcomes | frontend/src/components/Dashboard/DescriptionChecker.jsx:171-201 | One request is made, for the file id and the trimmed description. Success takes `analysis_result`; failure sets its message. `isAnalyzing` ends false, and the inputs are unchanged. |
| DescriptionChecker.Checker.HandleAnalyzeImage | frontend/src/components/Dashboard/DescriptionChecker.jsx:171-201 | The new slots are `AnalyzeImage` of the old ones. |
| DescriptionChecker.UploadGuard | frontend/src/components/Dashboard/DescriptionChecker.jsx:113-117 | Without a preview and a non-blank description, only the message is set and no request is made. |
| DescriptionChecker.UploadKeepsInput | frontend/src/components/Dashboard/DescriptionChecker.jsx:113-169 | An upload never changes the form's inputs, and ends with `isUploading` false. |
| DescriptionChecker.UploadIdentityFails | frontend/src/components/Dashboard/DescriptionChecker.jsx:122-131 | A failed identity check shows `detail`, or the fallback message, and makes no further request. |
| DescriptionChecker.UploadReadFails | frontend/src/components/Dashboard/DescriptionChecker.jsx:140 | When the preview cannot be read, nothing is stored. |
| DescriptionChecker.UploadStoreCall | frontend/src/components/Dashboard/DescriptionChecker.jsx:136-157 | The store call carries the identity's id, the file name (or "twitter_image" in post mode), the trimmed text and the data-URL field. A failed store shows `detail`, or "Failed to upload file", and no analysis is requested. |
| DescriptionChecker.UploadAnalyzes | frontend/src/components/Dashboard/DescriptionChecker.jsx:159-162 | Analysis is requested exactly once, for the id the store call returned. |
| DescriptionChecker.UploadClearsBusyFlags | frontend/src/components/Dashboard/DescriptionChecker.jsx:166-167 | An upload started from the enabled button leaves both `isUploading` and `isAnalyzing` false. |
| DescriptionChecker.Checker.HandleUpload | frontend/src/components/Dashboard/DescriptionChecker.jsx:113-169 | The new slots are `Upload` of the old ones. |
| DescriptionChecker.Checker.TryUpload | frontend/src/components/Dashboard/DescriptionChecker.jsx:119-162 | From `setIsUploading(true)` to the end of the `try` block, the new slots are `UploadTry` of the old ones. |
| DescriptionChecker.Checker.StoreAndAnalyze | frontend/src/components/Dashboard/DescriptionChecker.jsx:133-162 | After the identity check, the new slots are `UploadStore` of the old ones. |
| GenerateDescription.Initial | frontend/src/components/Dashboard/GenerateDescription.jsx:6-11 | The initial slots are consistent, with no message, no request and no upload button. |
| GenerateDescription.Generator.constructor | frontend/src/components/Dashboard/GenerateDescription.jsx:6-11 | A new component holds the initial slots. |
| GenerateDescription.FileChangeOutcomes | frontend/src/components/Dashboard/GenerateDescription.jsx:13-38 | These are the same ordered checks, with the same clearing on rejection. An accepted file keeps the earlier analysis result. |
| GenerateDescription.Generator.HandleFileChange | frontend/src/components/Dashboard/GenerateDescription.jsx:13-38 | The new slots are `FileChange` of the old ones. |
| GenerateDescription.UploadGuard | frontend/src/components/Dashboard/GenerateDescription.jsx:40-44 | Without a file, the only change is the message "Pleaser provide an image.", and no request is made. |
| GenerateDescription.UploadShownHasFile | frontend/src/components/Dashboard/GenerateDescription.jsx:164-169 | A shown upload button implies a selected file. |
| GenerateDescription.UploadFromEnabledButton | frontend/src/components/Dashboard/GenerateDescription.jsx:164-169 | From the enabled "Upload & Analyze" button the guard never fires. Exactly the identity check is requested, and both busy flags end false. |
| GenerateDescription.UploadAndAnalyzeOutcomes | frontend/src/components/Dashboard/GenerateDescription.jsx:46-100 | One identity request is made. A non-ok response gets the fixed message "Failed to fetch user details", whatever `detail` says. On success a read of the selected file is started for the returned id. `isUploading` ends false before anything is stored. |
| GenerateDescription.Generator.HandleUploadAndAnalyze | frontend/src/components/Dashboard/GenerateDescription.jsx:40-101 | The new slots are `UploadAndAnalyze` of the old ones. |
| GenerateDescription.LoadEndOutcomes | frontend/src/components/Dashboard/GenerateDescription.jsx:63-92 | The store payload is the captured id, the file name, "" and the data-URL field. A failed store changes nothing else. A failed read makes no request. A stored file is analysed by its id. |
| GenerateDescription.Generator.OnLoadEnd | frontend/src/components/Dashboard/GenerateDescription.jsx:63-92 | The new slots are `LoadEnd` of the old ones. |
| GenerateDescription.AnalyzeStoredOutcomes | frontend/src/components/Dashboard/GenerateDescription.jsx:103-128 | One request is made for the file. Success takes `analysis_result`; failure sets "Failed to analyze image" or the thrown message. `isAnalyzing` ends false. |
| GenerateDescription.Generator.HandleAnalyzeFile | frontend/src/components/Dashboard/GenerateDescription.jsx:103-129 | The new slots are `AnalyzeStored` of the old ones. |
| RegisterForm.IsEmailSound | frontend/src/components/Auth/RegisterForm.jsx:29 | Every address the recogniser accepts matches the email pattern. |
| RegisterForm.IsEmailComplete | frontend/src/components/Auth/RegisterForm.jsx:29 | Every address the pattern matches is accepted by the recogniser. |
| RegisterForm.EmailRecogniserCorrect | frontend/src/components/Auth/RegisterForm.jsx:29 | The recogniser accepts exactly what the pattern matches. |
| RegisterForm.NoAtInParts | frontend/src/components/Auth/RegisterForm.jsx:29 | No part of a matched address other than the separator contains `@`, and the top-level label contains no dot. |
| RegisterForm.AcceptedEmailHasOneAt | frontend/src/components/Auth/RegisterForm.jsx:29 | An accepted address contains exactly one `@`. |
| RegisterForm.AcceptedEmailTopLabel | frontend/src/components/Auth/RegisterForm.jsx:29 | After the last dot of an accepted address come at least two letters and nothing else. |
| RegisterForm.EmailError | frontend/src/components/Auth/RegisterForm.jsx:26-31 | An empty email gets "Email is required". Otherwise there is no message exactly when the pattern matches, and "Invalid email address" when it does not. |
| RegisterForm.PasswordError | frontend/src/components/Auth/RegisterForm.jsx:43-48 | An empty password gets "Password is required". A password shorter than 6 UTF-16 units gets the length message. Otherwise there is no message. |
| RegisterForm.ConfirmError | frontend/src/components/Auth/RegisterForm.jsx:60-62 | An empty confirmation gets "Please confirm your password". One that differs from the password gets "Passwords do not match". |
| RegisterForm.Submit | frontend/src/components/Auth/RegisterForm.jsx:12-14 | The form data is handed to the logger unchanged exactly when all three rules pass. Nothing else happens. |
| Numerals.PyIntOfPyStr | backend/core/jwt_auth.py:56 | `int(str(i)) == i` for every integer. |
| Numerals.DecimalValue | backend/core/jwt_auth.py:33 | The digits `str` writes for a natural number read back as that number. |
| JwtAuth.Expiry | backend/core/jwt_auth.py:26-29 | The expiry is now plus the delta when the delta is given and non-zero. Otherwise it is now plus 30 minutes. |
| JwtAuth.ClaimsToEncode | backend/core/jwt_auth.py:25-33 | The claims are those of the input plus `exp`. `exp` is the expiry, overwriting any earlier value. A `sub` becomes its string form. Every other claim is copied unchanged. |
| JwtAuth.CreateAccessToken | backend/core/jwt_auth.py:23-36 | The token is the signature of `ClaimsToEncode`. The caller's claims are a value and cannot change. |
| JwtAuth.CredentialsError | backend/core/jwt_auth.py:44-48 | The refusal is a 401 with `WWW-Authenticate: Bearer`. |
| JwtAuth.GetCurrentUser | backend/core/jwt_auth.py:42-68 | A token that does not decode, or has no non-null `sub`, is refused with the 401. A non-numeric `sub` escapes as `ValueError`. An id with no user is refused with the 401. Otherwise the user with that id is returned, and its id is `int(sub)`. Each outcome is given as an if-and-only-if. |
| JwtAuth.TokenSubjectRoundTrip | backend/core/jwt_auth.py:32-56 | A token built for user id `i` carries `sub = str(i)`. Decoding it authenticates user `i` when that user exists, and is refused with the 401 otherwise. |
| UserModel.ToRead | backend/routers/users.py:26-29 | The response keeps the id, the email and the creation time, and drops the hash. |
| Users.UserTable.Register | backend/routers/users.py:77-117 | A taken email gets 400 "Email already registered." and the table is unchanged. Otherwise exactly one row is added, with the hash of the password, and it is returned. Ids match keys and emails stay unique. |
| Users.UserTable.FindByEmail | backend/routers/users.py:67 | It returns the row with that email, or nothing exactly when no row has it. |
| Users.UserTable.Login | backend/routers/users.py:64-74 | An unknown email and a wrong password get the same 401, and these are the only failures. Success returns a "bearer" token whose claims have `sub` = that user's id. |
| Users.UserTable.GetUser | backend/routers/users.py:119-128 | It returns the row with that id, or 404 "User not found.". |
| Users.UserTable.UpdateUser | backend/routers/users.py:130-148 | An unknown id gets 404 and no change. A non-empty email replaces the email, and a non-empty password is rehashed. Nothing else in that row and no other row changes. An email already used by another row fails with 500 and no change. |
| Users.UserTable.DeleteUser | backend/routers/users.py:151-163 | It removes exactly that row and returns it, or gives 404 and no change. |
| Users.UserTable.GetAllUsers | backend/routers/users.py:166-170 | It returns every row, and nothing else. |
| Users.LoginTokenAuthenticates | backend/routers/users.py:72 | The claims of a login token, once decoded, authenticate the user who logged in, while that user exists. |

## Left out

- `fetch`, `localStorage`, `URL.createObjectURL` and `FileReader` are not modelled. Their results are arguments of the handlers: a stored token, an object URL, a `Reply` for each call, and an `ImageRead` for reading an image into a data URL.
  - A non-ok response whose body the handler never reads is `NotOk(_)`, whatever its body. This covers the post fetch, both analysis calls and the generator's identity check, which show their fixed messages.
  - Where the handler reads the error body, a non-ok JSON body gives `NotOk(detail)`. These are the identity and store calls of `handleUpload` and the generator's store call. A truthy `detail` that is not a string, such as a list of validation errors, is given as its `String()` form. `detail` is the empty string only when it is missing or falsy.
  - `Throws` carries the JSON parser's message when a body the handler parses is not JSON: any ok body, or a non-ok body at the calls above. `handleUpload` shows that message through `err.message`. For the generator's store call nothing is shown, since that failure reaches no `try`.
- Base64 encoding by `FileReader` is not modelled. `DataUrl` takes the data URL as given.
- The typewriter `useEffect`/`setTimeout` of the description checker, and all rendering, are not modelled. The only parts of the JSX that are modelled are the conditions under which buttons are shown or enabled.
- React runs each handler on the slot values of its render and applies `set…` calls after it. The model runs each handler as one sequential run over the current slots. Interleavings of concurrent handlers are not modelled.
- The browser's own `type="email"` validation runs before react-hook-form's rules and is not modelled. The same goes for pydantic's `EmailStr` validation and normalisation in the backend: emails are compared as given.
- bcrypt (`hash_password`, `verify_password`) and jose (`jwt.encode`, `jwt.decode`) are not modelled. The first three are function values given to `UserTable`. Decoding is an input (`Decoded`), so the library's checks of the signature, of `exp` and of `sub`'s type are part of that input.
- Users.UserTable.Register: the stored hash is `hash(password)` for a fixed function `hash`. bcrypt draws a fresh salt on every call, so in the program two rows with the same password, or a password set again by `update_user`, get different hashes. In the model they get equal ones. Stored hashes mean something only through `verify`, and no contract should be read as saying two hashes are equal.
- Users.UserTable.UpdateUser: a non-empty password is stored as `hash(password)` with the same deterministic `hash`. The caveat above about salts and equal hashes applies here too.
- JwtAuth.GetCurrentUser: for a decoded `sub` that is an integer or a boolean, the model follows `int()`. The library's `decode` refuses such a claim with a `JWTError`, so in the program such tokens get the 401 at the `decode` call inside the function's own `try`. The model takes the outcome of that call as its input `Decoded`.
- `jwt.encode` raising, which `create_access_token` turns into a 500, is not modelled: the signer is total.
- Times are whole seconds. `datetime.now()` is an argument. Sub-second deltas and the time zone of a naive `datetime` are not modelled.
- `int()` accepting non-ASCII decimal digits is not modelled (`Numerals.PyInt` accepts ASCII digits, signs, surrounding white space and inner underscores).
- The database is a map. The id of a new row is an argument (`newId`) chosen by the caller, standing for the autoincrement column. Sessions, commits and refreshes are not modelled.
- `get_current_user_details` (`GET /users/me`) is not modelled beyond `JwtAuth.GetCurrentUser`, which it delegates to.
- The analysis, upload and OpenAI routers are network calls with no local logic, and are not modelled.
