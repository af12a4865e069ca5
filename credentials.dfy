/**
 * What the two token middlewares share: the token payload, `jwt.verify` as a parameter,
 * the `Authorization` header's second field, and the request/response pair a middleware
 * updates (`req.user`, `req.userId`, the response status, the calls to `next`).
 */
module Credentials {
  import opened Wrappers
  import opened JsValues

  /** The claims of a token: `userId` (what the server puts in), `id`, and the expiry `exp`
      in seconds. Each may be absent. */
  datatype Payload = Payload(userId: Option<string>, id: Option<string>, exp: Option<int>)

  /** `jwt.verify(token, secret)`: the payload, or None when it throws (bad signature, expired, malformed). */
  type Verifier = string -> Option<Payload>

  /** The outcome a middleware reaches: a 401 or 403 response, or a call to `next` with the payload. */
  datatype Decision = Unauthorized(error: string) | Forbidden(error: string) | Accept(payload: Payload)

  /** `authHeader.split(' ')[1]`: undefined when the header holds no space. */
  function TokenField(header: string): (t: Option<string>)
    ensures t.Some? <==> ' ' in header
    ensures t.Some? ==> ' ' !in t.value
  {
    SplitIsSingleIff(header, ' ');
    FieldAt(Split(header, ' '), 1)
  }

  /** A header that starts with "Bearer " always has a second field: the text after the
      prefix up to the next space. */
  lemma BearerHeaderHasToken(header: string)
    requires StartsWith(header, "Bearer ")
    ensures Split(header, ' ')[0] == "Bearer"
    ensures TokenField(header) == Some(Split(header[7..], ' ')[0])
  {
    assert header == "Bearer" + [' '] + header[7..];
    SplitAfterFirstSeparator("Bearer", ' ', header[7..]);
  }

  /** One Express request/response pair as a middleware sees it. */
  class Exchange {
    /** `req.headers.authorization`. */
    const authorization: Option<string>
    /** `req.user`. */
    var user: Option<Payload>
    /** `req.userId`. */
    var userId: Option<string>
    /** The status sent, 0 while no response has been sent. */
    var status: int
    /** The `error` of the JSON body sent. */
    var error: string
    /** How many times `next()` has been called. */
    var nextCalls: nat

    constructor (authorization: Option<string>)
      ensures this.authorization == authorization
      ensures user.None? && userId.None? && status == 0 && error == "" && nextCalls == 0
    {
      this.authorization := authorization;
      user, userId, status, error, nextCalls := None, None, 0, "", 0;
    }
  }
}
