/**
 * frontend/src/client.js: the request interceptor that attaches the stored token as
 * `Authorization: Bearer <token>`, and how that header fares at backend/middleware/auth.js.
 */
module TokenClient {
  import opened Wrappers
  import opened JsValues
  import opened Credentials
  import opened HttpConfig
  import BearerMiddleware

  /** The template string `Bearer ${token}`. */
  function BearerHeader(token: string): (h: string)
    ensures StartsWith(h, "Bearer ") && h[7..] == token
  {
    "Bearer " + token
  }

  /** The interceptor, given `localStorage.getItem('token')`; only `headers.Authorization` may change. */
  method AttachToken(config: RequestConfig, stored: Option<string>)
    modifies config
    ensures config.url == old(config.url)
    ensures !Falsy(stored) ==> config.headers == old(config.headers)["Authorization" := BearerHeader(stored.value)]
    ensures Falsy(stored) ==> config.headers == old(config.headers)
  {
    if !Falsy(stored) {
      config.headers := config.headers["Authorization" := BearerHeader(stored.value)];
    }
  }

  /** A non-empty token without spaces comes back out of the header exactly, the header is never
      refused 401, and the middleware's decision is the verifier's verdict on the token. */
  lemma BearerRoundTrip(token: string, verify: Verifier)
    requires token != "" && ' ' !in token
    ensures TokenField(BearerHeader(token)) == Some(token)
    ensures BearerMiddleware.Decide(Some(BearerHeader(token)), verify) ==
      match verify(token)
      case None => Forbidden("Invalid token")
      case Some(p) => Accept(p)
  {
    BearerHeaderHasToken(BearerHeader(token));
    SplitWithoutSeparator(token, ' ');
  }

  /** A token holding a space is cut at the first one: the middleware verifies only that prefix. */
  lemma TokenCutAtSpace(first: string, rest: string)
    requires ' ' !in first
    ensures TokenField(BearerHeader(first + " " + rest)) == Some(first)
  {
    var header := BearerHeader(first + " " + rest);
    BearerHeaderHasToken(header);
    assert header[7..] == first + [' '] + rest;
    SplitAfterFirstSeparator(first, ' ', rest);
  }
}
