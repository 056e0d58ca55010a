/** The client side of a POST to the upload endpoint, as both recorders see it. */
module UploadClient {
  import opened Wrappers

  const UPLOAD_FAILED: string := "Upload failed"
  const UPLOAD_ERROR_PREFIX: string := "Failed to upload recording: "
  const UNKNOWN_ERROR: string := "Unknown error"

  /** The parsed JSON body of the endpoint's answer. */
  datatype UploadBody = UploadBody(url: Option<string>, error: Option<string>)

  /** How the request ended: it threw (network failure, unparsable body) with an error
      message when the thrown value was an `Error`, or it produced a response. */
  datatype FetchOutcome =
    | Threw(message: Option<string>)
    | Responded(ok: bool, body: UploadBody)

  /** The message shown for a non-ok response: the body's error when it is a non-empty
      string, otherwise the generic text. */
  function ResponseError(body: UploadBody): (msg: string)
    ensures body.error.Some? && body.error.value != "" ==> msg == body.error.value
    ensures body.error.None? || body.error.value == "" ==> msg == UPLOAD_FAILED
    ensures msg != ""
  {
    if body.error.Some? && body.error.value != "" then body.error.value else UPLOAD_FAILED
  }

  /** The message shown when the request or a later step threw. */
  function ThrownError(message: Option<string>): (msg: string)
    ensures |msg| >= |UPLOAD_ERROR_PREFIX| && msg[..|UPLOAD_ERROR_PREFIX|] == UPLOAD_ERROR_PREFIX
    ensures msg[|UPLOAD_ERROR_PREFIX|..] == if message.Some? then message.value else UNKNOWN_ERROR
  {
    UPLOAD_ERROR_PREFIX + message.GetOr(UNKNOWN_ERROR)
  }
}
