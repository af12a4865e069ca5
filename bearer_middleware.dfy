/**
 * backend/middleware/auth.js: the bearer-token middleware. A missing header or one without
 * the "Bearer " prefix is answered 401; a token `jwt.verify` rejects is answered 403;
 * otherwise `req.user` and `req.userId` are set from the payload and `next` is called.
 */
module BearerMiddleware {
  import opened Wrappers
  import opened JsValues
  import opened Credentials

  /** The decision of the middleware for a header. */
  function Decide(header: Option<string>, verify: Verifier): (d: Decision)
    ensures d.Unauthorized? <==> Falsy(header) || !StartsWith(header.value, "Bearer ")
    ensures d.Unauthorized? ==> d.error == "No token provided"
    ensures d.Forbidden? ==> d.error == "Invalid token"
    ensures d.Forbidden? <==>
      !Falsy(header) && StartsWith(header.value, "Bearer ") && TokenField(header.value).Some?
      && verify(TokenField(header.value).value).None?
    ensures d.Accept? ==>
      !Falsy(header) && TokenField(header.value).Some? && Some(d.payload) == verify(TokenField(header.value).value)
  {
    if Falsy(header) || !StartsWith(header.value, "Bearer ") then Unauthorized("No token provided")
    else
      BearerHeaderHasToken(header.value);
      match verify(TokenField(header.value).value)
      case None => Forbidden("Invalid token")
      case Some(payload) => Accept(payload)
  }

  /** The middleware run on one request. On a fresh exchange it ends in exactly one of:
      a 401, a 403, or a single call to `next`. */
  method Authenticate(ex: Exchange, verify: Verifier)
    modifies ex
    ensures var d := Decide(ex.authorization, verify);
      match d
      case Unauthorized(e) =>
        ex.status == 401 && ex.error == e && ex.nextCalls == old(ex.nextCalls)
        && ex.user == old(ex.user) && ex.userId == old(ex.userId)
      case Forbidden(e) =>
        ex.status == 403 && ex.error == e && ex.nextCalls == old(ex.nextCalls)
        && ex.user == old(ex.user) && ex.userId == old(ex.userId)
      case Accept(p) =>
        ex.user == Some(p) && ex.userId == p.userId && ex.nextCalls == old(ex.nextCalls) + 1
        && ex.status == old(ex.status) && ex.error == old(ex.error)
    ensures old(ex.status) == 0 && old(ex.nextCalls) == 0 ==>
      (ex.status == 401 || ex.status == 403) != (ex.nextCalls == 1) && ex.nextCalls <= 1
  {
    var authHeader := ex.authorization;
    if authHeader.None? || authHeader.value == "" || !StartsWith(authHeader.value, "Bearer ") {
      ex.status, ex.error := 401, "No token provided";
      return;
    }
    BearerHeaderHasToken(authHeader.value);
    var token := TokenField(authHeader.value).value;
    var decoded := verify(token);
    if decoded.None? {
      ex.status, ex.error := 403, "Invalid token";
      return;
    }
    ex.user := decoded;
    var payload := verify(token);
    ex.userId := payload.value.userId;
    ex.nextCalls := ex.nextCalls + 1;
  }
}
