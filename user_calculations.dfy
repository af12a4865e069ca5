/**
 * backend/userCalc.js: GET /user-calculations behind the middleware exported by
 * backend/auth.js. The handler reads the ledger and filters it by the caller's id; it never
 * writes. As wired, `req.user` is never set and the imported `./server` module exports no
 * model, so every request that passes the middleware is answered 500.
 */
module UserCalculations {
  import opened Wrappers
  import opened Credentials
  import opened CalculationSchema
  import BackendAuth

  /** `Calculation.find({ userId })`: the records of that owner, in ledger order. An absent id
      matches no record. */
  function OwnedBy(ledger: seq<Calculation>, owner: Option<string>): (mine: seq<Calculation>)
    ensures forall c :: c in mine <==> c in ledger && Some(c.userId) == owner
    ensures |mine| <= |ledger|
  {
    if ledger == [] then []
    else
      var rest := OwnedBy(ledger[1..], owner);
      assert forall c :: c in ledger <==> c == ledger[0] || c in ledger[1..];
      if Some(ledger[0].userId) == owner then [ledger[0]] + rest else rest
  }

  /** The records of an owner come in ledger order: filtering distributes over concatenation. */
  lemma {:induction false} OwnedByAppend(a: seq<Calculation>, b: seq<Calculation>, owner: Option<string>)
    ensures OwnedBy(a + b, owner) == OwnedBy(a, owner) + OwnedBy(b, owner)
  {
    if a == [] {
      assert a + b == b;
    } else {
      assert (a + b)[1..] == a[1..] + b;
      OwnedByAppend(a[1..], b, owner);
    }
  }

  /** Two different owners see disjoint sets of records. */
  lemma OwnersDisjoint(ledger: seq<Calculation>, u1: string, u2: string)
    requires u1 != u2
    ensures forall c :: c in OwnedBy(ledger, Some(u1)) ==> c !in OwnedBy(ledger, Some(u2))
  {
  }

  /** The response of the route. */
  datatype ListReply = Listed(records: seq<Calculation>) | Refused(status: int, error: string) | Failed(status: int, message: string)

  /** The handler after the middleware. `user` is `req.user`; `model` is the imported model's
      ledger, None when the module has no `find`. Either missing one throws. */
  function HandleList(model: Option<seq<Calculation>>, user: Option<Payload>): (reply: ListReply)
    ensures reply.Failed? <==> user.None? || model.None?
    ensures reply.Failed? ==> reply == Failed(500, "Server error")
    ensures reply.Listed? ==> reply.records == OwnedBy(model.value, user.value.id)
    ensures !reply.Refused?
  {
    if user.None? || model.None? then Failed(500, "Server error")
    else Listed(OwnedBy(model.value, user.value.id))
  }

  /** The route as wired: the middleware of backend/auth.js, which never sets `req.user`, then the handler. */
  function Route(header: Option<string>, verify: Verifier, model: Option<seq<Calculation>>): (reply: ListReply)
    ensures reply.Refused? <==> !BackendAuth.Decide(header, verify).Accept?
    ensures BackendAuth.Decide(header, verify).Unauthorized? ==>
      reply == Refused(401, BackendAuth.Decide(header, verify).error)
    ensures BackendAuth.Decide(header, verify).Forbidden? ==>
      reply == Refused(403, BackendAuth.Decide(header, verify).error)
    ensures BackendAuth.Decide(header, verify).Accept? ==> reply == HandleList(model, None)
  {
    match BackendAuth.Decide(header, verify)
    case Unauthorized(e) => Refused(401, e)
    case Forbidden(e) => Refused(403, e)
    case Accept(_) => HandleList(model, None)
  }

  /** As wired, no request is ever answered with records: a request that passes the middleware
      gets 500, any other keeps the middleware's 401 or 403. */
  lemma AsWiredNeverLists(header: Option<string>, verify: Verifier, model: Option<seq<Calculation>>)
    ensures !Route(header, verify, model).Listed?
    ensures BackendAuth.Decide(header, verify).Accept? <==> Route(header, verify, model) == Failed(500, "Server error")
  {
  }

  /** With `req.user` set, a caller sees exactly their own records and nobody else's. */
  lemma HandlerScopesToCaller(ledger: seq<Calculation>, p: Payload, c: Calculation)
    requires c in ledger
    ensures c in HandleList(Some(ledger), Some(p)).records <==> Some(c.userId) == p.id
  {
  }
}
