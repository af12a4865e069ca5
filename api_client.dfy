/**
 * frontend/src/api/client.js: the axios client's three interceptors. Requests get an
 * `/api` prefix unless already routed; a response whose body flags an error becomes a
 * rejection; a failed request becomes a rejection with a normalised message.
 */
module ApiClient {
  import opened Wrappers
  import opened JsValues
  import opened HttpConfig

  /** The URL after the request interceptor. */
  function PrefixedUrl(url: string): (r: string)
    ensures StartsWith(url, "/api") || StartsWith(url, "/auth") ==> r == url
    ensures !(StartsWith(url, "/api") || StartsWith(url, "/auth")) ==> r == "/api" + url
  {
    if !StartsWith(url, "/api") && !StartsWith(url, "/auth") then "/api" + url else url
  }

  /** Every request leaves the interceptor routed to `/api` or `/auth`. */
  lemma PrefixedUrlIsRouted(url: string)
    ensures StartsWith(PrefixedUrl(url), "/api") || StartsWith(PrefixedUrl(url), "/auth")
  {
    if !StartsWith(url, "/api") && !StartsWith(url, "/auth") {
      assert ("/api" + url)[..4] == "/api";
    }
  }

  /** Applying the interceptor twice is applying it once. */
  lemma PrefixIdempotent(url: string)
    ensures PrefixedUrl(PrefixedUrl(url)) == PrefixedUrl(url)
  {
    PrefixedUrlIsRouted(url);
  }

  /** The interceptor on a config: only the URL may change. */
  method PrefixUrl(config: RequestConfig)
    modifies config
    ensures config.url == PrefixedUrl(old(config.url))
    ensures config.headers == old(config.headers)
  {
    if !StartsWith(config.url, "/api") && !StartsWith(config.url, "/auth") {
      config.url := "/api" + config.url;
    }
  }

  /** A JSON response body: whether its `error` field is truthy, and its `message`. */
  datatype Body = Body(error: bool, message: Option<string>)

  /** `response.data` (None: no body) and `response.status`. */
  datatype Response = Response(status: int, data: Option<Body>)

  /** A failed request as axios reports it: `error.message`, `error.config.url`, `error.response`. */
  datatype Failure = Failure(message: Option<string>, url: Option<string>, response: Option<Response>)

  /** How the promise settles. */
  datatype Settled =
    | Resolved(data: Option<Body>)
    | Rejected(message: string, data: Option<Body>, status: Option<int>, url: Option<string>)

  /** The response interceptor's success handler (the rejection it builds carries no URL). */
  function OnFulfilled(r: Response): (s: Settled)
    ensures s.Rejected? <==> r.data.Some? && r.data.value.error
    ensures s.Resolved? ==> s.data == r.data
    ensures s.Rejected? ==>
      && s.message == (if Falsy(r.data.value.message) then "API Error" else r.data.value.message.value)
      && s.data == r.data && s.status == Some(r.status) && s.url.None?
  {
    match r.data
    case Some(body) =>
      if body.error then
        Rejected(if Falsy(body.message) then "API Error" else body.message.value, r.data, Some(r.status), None)
      else Resolved(r.data)
    case None => Resolved(None)
  }

  /** The message of a failed request: the first truthy of the body's message and the error's
      message, else "Network Error". */
  function ErrorMessage(f: Failure): (m: string)
    ensures m != ""
    ensures m == "Network Error" || Some(m) == f.message
      || (f.response.Some? && f.response.value.data.Some? && Some(m) == f.response.value.data.value.message)
  {
    var fromBody := if f.response.Some? && f.response.value.data.Some? then f.response.value.data.value.message else None;
    if !Falsy(fromBody) then fromBody.value
    else if !Falsy(f.message) then f.message.value
    else "Network Error"
  }

  /** The response interceptor's failure handler: always a rejection. */
  function OnRejected(f: Failure): (s: Settled)
    ensures s.Rejected? && s.message == ErrorMessage(f) && s.url == f.url
    ensures s.status == (if f.response.Some? then Some(f.response.value.status) else None)
    ensures s.data == (if f.response.Some? then f.response.value.data else None)
  {
    Rejected(ErrorMessage(f), if f.response.Some? then f.response.value.data else None,
             if f.response.Some? then Some(f.response.value.status) else None, f.url)
  }

  /** The order of the message sources, and that a rejection's message is never empty. */
  lemma ErrorMessagePriority(f: Failure)
    ensures ErrorMessage(f) != ""
    ensures f.response.Some? && f.response.value.data.Some? && !Falsy(f.response.value.data.value.message) ==>
      ErrorMessage(f) == f.response.value.data.value.message.value
    ensures (f.response.None? || f.response.value.data.None? || Falsy(f.response.value.data.value.message)) ==>
      ErrorMessage(f) == (if Falsy(f.message) then "Network Error" else f.message.value)
  {
  }

  /** Every rejection either interceptor produces has a non-empty message. */
  lemma RejectionsHaveMessage(r: Response, f: Failure)
    ensures OnFulfilled(r).Rejected? ==> OnFulfilled(r).message != ""
    ensures OnRejected(f).message != ""
  {
    ErrorMessagePriority(f);
  }
}
