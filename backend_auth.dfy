/**
 * backend/auth.js. The module's export (line 26) is a token middleware: any non-empty
 * header is accepted as a carrier, its second space-separated field is verified, and on
 * success only `req.userId` is set. The register handler above it checks no fields, and it
 * is never exported because line 26 replaces `module.exports`.
 */
module BackendAuth {
  import opened Wrappers
  import opened JsValues
  import opened Credentials
  import opened Users
  import BearerMiddleware

  /** The decision of the exported middleware. */
  function Decide(header: Option<string>, verify: Verifier): (d: Decision)
    ensures d.Unauthorized? <==> Falsy(header)
    ensures d.Unauthorized? ==> d.error == "No token"
    ensures d.Forbidden? ==> d.error == "Invalid token"
    ensures d.Accept? <==>
      !Falsy(header) && TokenField(header.value).Some? && verify(TokenField(header.value).value).Some?
    ensures d.Accept? ==> Some(d.payload) == verify(TokenField(header.value).value)
  {
    if Falsy(header) then Unauthorized("No token")
    else
      match TokenField(header.value)
      case None => Forbidden("Invalid token")  // jwt.verify(undefined) throws
      case Some(token) =>
        match verify(token)
        case None => Forbidden("Invalid token")
        case Some(payload) => Accept(payload)
  }

  /** The exported middleware run on one request; `req.user` is never touched. */
  method VerifyToken(ex: Exchange, verify: Verifier)
    modifies ex
    ensures ex.user == old(ex.user)
    ensures var d := Decide(ex.authorization, verify);
      match d
      case Unauthorized(e) =>
        ex.status == 401 && ex.error == e && ex.nextCalls == old(ex.nextCalls) && ex.userId == old(ex.userId)
      case Forbidden(e) =>
        ex.status == 403 && ex.error == e && ex.nextCalls == old(ex.nextCalls) && ex.userId == old(ex.userId)
      case Accept(p) =>
        ex.userId == p.userId && ex.nextCalls == old(ex.nextCalls) + 1
        && ex.status == old(ex.status) && ex.error == old(ex.error)
  {
    var authHeader := ex.authorization;
    if authHeader.None? || authHeader.value == "" {
      ex.status, ex.error := 401, "No token";
      return;
    }
    var token := TokenField(authHeader.value);
    var payload := if token.None? then None else verify(token.value);
    if payload.None? {
      ex.status, ex.error := 403, "Invalid token";
      return;
    }
    ex.userId := payload.value.userId;
    ex.nextCalls := ex.nextCalls + 1;
  }

  /** The unexported register handler: no field check; bcrypt throws on an absent password. */
  method Register(db: UserCollection, name: Option<string>, email: Option<string>, password: Option<string>,
                  hash: Hasher, saveFails: bool) returns (reply: Reply)
    requires db.Valid()
    modifies db
    ensures db.Valid()
    ensures EmailTaken(old(db.users), email) ==>
      reply == Reply(400, "Email already registered") && db.users == old(db.users)
    ensures !EmailTaken(old(db.users), email) && (password.None? || saveFails) ==>
      reply == Reply(500, "Registration failed") && db.users == old(db.users)
    ensures !EmailTaken(old(db.users), email) && password.Some? && !saveFails ==>
      reply == Reply(201, "User registered successfully")
      && db.users == old(db.users) + [User(name, email, Some(hash(password.value)))]
    ensures reply.status == 201 <==> |db.users| == |old(db.users)| + 1
  {
    if EmailTaken(db.users, email) {
      return Reply(400, "Email already registered");
    }
    if password.None? {
      return Reply(500, "Registration failed");
    }
    var hashedPassword := hash(password.value);
    if saveFails {
      return Reply(500, "Registration failed");
    }
    db.Save(User(name, email, Some(hashedPassword)));
    reply := Reply(201, "User registered successfully");
  }

  /** On a "Bearer ..." header the two middlewares pass or refuse together, with the same payload. */
  lemma AgreeOnBearerHeaders(header: string, verify: Verifier)
    requires StartsWith(header, "Bearer ")
    ensures Decide(Some(header), verify).Accept? <==> BearerMiddleware.Decide(Some(header), verify).Accept?
    ensures Decide(Some(header), verify).Accept? ==>
      Decide(Some(header), verify).payload == BearerMiddleware.Decide(Some(header), verify).payload
    ensures Decide(Some(header), verify).Forbidden? <==> BearerMiddleware.Decide(Some(header), verify).Forbidden?
  {
    BearerHeaderHasToken(header);
  }

  /** Any other scheme word is accepted by this middleware and refused 401 by the bearer one. */
  lemma AcceptsAnyScheme(scheme: string, token: string, verify: Verifier)
    requires scheme != "Bearer" && ' ' !in scheme && ' ' !in token
    requires verify(token).Some?
    ensures Decide(Some(scheme + " " + token), verify) == Accept(verify(token).value)
    ensures BearerMiddleware.Decide(Some(scheme + " " + token), verify) == Unauthorized("No token provided")
  {
    var header := scheme + " " + token;
    assert header == scheme + [' '] + token;
    SplitAfterFirstSeparator(scheme, ' ', token);
    SplitWithoutSeparator(token, ' ');
    if StartsWith(header, "Bearer ") {
      BearerHeaderHasToken(header);
      assert false;
    }
  }

  /** A header holding only the word "Bearer": 401 from the bearer middleware, 403 here. */
  lemma BareBearer(verify: Verifier)
    ensures BearerMiddleware.Decide(Some("Bearer"), verify) == Unauthorized("No token provided")
    ensures Decide(Some("Bearer"), verify) == Forbidden("Invalid token")
  {
    SplitWithoutSeparator("Bearer", ' ');
  }
}
