/** Configuration and the `X-API-Key` check shared by both endpoints. */
module Gate {
  import opened Wrappers

  /** The settings the endpoints read: the shared secret and the key for the
      carrier registry. Both are plain strings; the registry key may be empty. */
  datatype Config = Config(apiKey: string, fmcsaApiKey: string)

  /** An `HTTPException`: a status code and its `detail` text. */
  datatype HttpError = HttpError(status: int, detail: string)

  const Forbidden := HttpError(403, "Invalid API key")

  /** `verify_api_key`: the supplied header value is accepted, and returned
      unchanged, exactly when it equals the configured secret. */
  function VerifyApiKey(supplied: string, configured: string): (r: Result<string, HttpError>)
    ensures r.Success? <==> supplied == configured
    ensures r.Success? ==> r.value == supplied
    ensures r.Failure? ==> r.error == Forbidden
  {
    if supplied != configured then Failure(Forbidden) else Success(supplied)
  }
}
