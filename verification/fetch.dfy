/**
 * The frontend's view of the network. A call's outcome is not computed by
 * the model: each handler receives it as an argument. Every call the
 * handlers make is recorded, in order, as a `Request`.
 */
module Fetch {
  import opened Wrappers

  /**
   * How a `fetch`, and the `response.json()` the handler makes on it, settles.
   *  - `Ok(body)`: an ok response with its parsed body.
   *  - `NotOk(detail)`: a non-ok response. Where the handler ignores the body
   *    of a non-ok response (the post fetch, the two analysis calls and the
   *    generator's identity check), every non-ok response is `NotOk`, whatever
   *    its body, and `detail` is unused. Where it reads `detail` (the identity
   *    and store calls of the description checker and the generator's store
   *    call), `detail` is `String(detail)` when truthy and "" when missing or
   *    falsy.
   *  - `Throws(message)`: a rejection with the `Error`'s message ("" when it
   *    has none). This covers an unreachable server, and a body the handler
   *    parses that is not JSON: every ok body, and the non-ok bodies where
   *    `detail` is read. There the message is the JSON parser's.
   */
  datatype Reply<+T> = Ok(body: T) | NotOk(detail: string) | Throws(message: string)

  /** How reading an image into a data URL settles (fetching the blob, then `FileReader`). */
  datatype ImageRead = DataUrlRead(dataUrl: string) | ReadFails(message: string)

  /** Body of `/api/users/me`. */
  datatype Identity = Identity(id: int)

  /** Body of `/api/twitter_data`; "" stands for a missing or empty field. */
  datatype TwitterData = TwitterData(imageUrl: string, tweetText: string)

  /** Body of `/api/files`. */
  datatype Stored = Stored(id: int)

  /** Body of the two analysis endpoints; `None` when `analysis_result` is missing. */
  datatype Analysis = Analysis(analysisResult: Option<string>)

  /** The JSON sent to `/api/files`; `file` is left out of the JSON when `None`. */
  datatype StorePayload = StorePayload(userId: int, fileName: string, uploadedText: string, file: Option<string>)

  datatype Request =
    | FetchTwitterData(url: string, tweetId: string)
    | FetchIdentity(authorization: string)
    | FetchImage(url: string)
    | StoreFile(payload: StorePayload)
    | AnalyzeWithDescription(fileId: int, description: string)
    | AnalyzeFile(fileId: int)

  /** JavaScript's `a || b` on strings: the empty string is falsy. */
  function OrElse(a: string, b: string): string
  {
    if a != "" then a else b
  }

  /**
   * `Bearer ${token}` for the value of `localStorage.getItem("token")`; a
   * missing token is interpolated as the text "null".
   */
  function BearerHeader(token: Option<string>): string
  {
    "Bearer " + (match token case Some(t) => t case None => "null")
  }
}
