/**
 * frontend/src/App.js: the signed-in page's state. On load a stored token is decoded and
 * discarded when expired; `handleCalculate` posts the form and saves a complete answer;
 * the history list is sorted newest first in place, and its items are edited and deleted
 * by their position in that list.
 */
module AppHistory {
  import opened Wrappers
  import opened JsValues
  import opened Credentials
  import opened CalculationSchema
  import CityCostCache
  import ValidatedCalculation

  // ---------------------------------------------------------------- token expiry

  /** `jwtDecode` of a stored token: its claims, or None when it throws. Nothing is verified. */
  type Decoder = string -> Option<Payload>

  /** `Date.now() >= exp * 1000`, with a token that does not decode counted as expired.
      A missing `exp` makes the comparison false (NaN), so such a token never expires. */
  predicate Expired(claims: Option<Payload>, now: int): (expired: bool)
    ensures claims.None? ==> expired
    ensures claims.Some? && claims.value.exp.None? ==> !expired
  {
    claims.None? || (claims.value.exp.Some? && now >= claims.value.exp.value * 1000)
  }

  /** Once expired, a token stays expired at every later time. */
  lemma ExpiryIsPermanent(claims: Option<Payload>, now: int, later: int)
    requires Expired(claims, now) && now <= later
    ensures Expired(claims, later)
  {
  }

  /** A token with expiry `exp` seconds is live up to the millisecond before `exp * 1000`,
      and expired from that millisecond on. */
  lemma ExpiryBoundary(p: Payload)
    requires p.exp.Some?
    ensures !Expired(Some(p), p.exp.value * 1000 - 1)
    ensures Expired(Some(p), p.exp.value * 1000)
  {
  }

  // ---------------------------------------------------------------- the calculation answer

  /** The answer of POST /calculate as the client reads it; a field that is not a number is None. */
  datatype Answer = Answer(
    city: Option<string>, country: Option<string>, monthlySalary: Option<real>,
    estimatedMonthlyRent: Option<real>, estimatedMonthlyLivingCost: Option<real>,
    disposableIncome: Option<real>, affordability: Option<string>)

  /** How the POST settled: a rejection with its message, or the resolved body (None: null or empty). */
  datatype Settled = Rejected(message: string) | Resolved(body: Option<Answer>)

  /** The body of POST /save-calculation; the timestamp is the request time in milliseconds. */
  datatype SaveRequest = SaveRequest(
    city: Option<string>, country: Option<string>, salary: JsNum,
    estimatedMonthlyRent: real, estimatedMonthlyLivingCost: Option<real>, disposableIncome: real,
    affordability: Option<string>, timestamp: int)

  /** The body of PUT /update-calculation; an absent record gives an absent timestamp. */
  datatype UpdateRequest = UpdateRequest(timestamp: Option<int>, salary: real)

  /** An answer the page accepts: a body whose rent and disposable income are numbers. */
  predicate Complete(body: Option<Answer>): (complete: bool)
    ensures body.None? ==> !complete
    ensures body.Some? ==>
      (complete <==> body.value.estimatedMonthlyRent.Some? && body.value.disposableIncome.Some?)
  {
    body.Some? && body.value.estimatedMonthlyRent.Some? && body.value.disposableIncome.Some?
  }

  /** The save request built from a complete answer. */
  function SaveRequestOf(a: Answer, salary: JsNum, timestamp: int): (r: SaveRequest)
    requires a.estimatedMonthlyRent.Some? && a.disposableIncome.Some?
    ensures r.city == a.city && r.country == a.country && r.affordability == a.affordability
    ensures Some(r.estimatedMonthlyRent) == a.estimatedMonthlyRent && Some(r.disposableIncome) == a.disposableIncome
    ensures r.estimatedMonthlyLivingCost == a.estimatedMonthlyLivingCost
    ensures r.salary == salary && r.timestamp == timestamp
  {
    SaveRequest(a.city, a.country, salary, a.estimatedMonthlyRent.value, a.estimatedMonthlyLivingCost,
                a.disposableIncome.value, a.affordability, timestamp)
  }

  // ---------------------------------------------------------------- verdict colour

  /** `affordability.toLowerCase().includes('affordable')`: the success colour. */
  predicate SuccessColour(affordability: string): (success: bool)
    ensures Includes(affordability, "affordable") || Includes(affordability, "Affordable") ==> success
  {
    VerdictWordSurvivesLowering(affordability);
    Includes(ToLower(affordability), "affordable")
  }

  /** The word "affordable", in lower case or capitalised, is still there after lower-casing. */
  lemma VerdictWordSurvivesLowering(s: string)
    ensures Includes(s, "affordable") || Includes(s, "Affordable") ==> Includes(ToLower(s), "affordable")
  {
    assert ToLower("affordable") == "affordable";
    assert ToLower("Affordable") == "affordable";
    if Includes(s, "affordable") {
      IncludesLowered(s, "affordable");
    } else if Includes(s, "Affordable") {
      IncludesLowered(s, "Affordable");
    }
  }

  /** "affordable" and "Affordable" are shown in the success colour. */
  lemma PositiveVerdictsLookSuccessful()
    ensures SuccessColour("affordable") && SuccessColour("Affordable")
  {
    EndsWithIncludes([], "affordable");
    EndsWithIncludes([], "Affordable");
    assert [] + "affordable" == "affordable" && [] + "Affordable" == "Affordable";
  }

  /** "not affordable" is shown in the success colour. */
  lemma LowerNegativeLooksSuccessful()
    ensures SuccessColour("not affordable")
  {
    assert ToLower("not affordable") == "not " + "affordable";
    EndsWithIncludes("not ", "affordable");
  }

  /** "Not Affordable" is shown in the success colour. */
  lemma CapitalisedNegativeLooksSuccessful()
    ensures SuccessColour("Not Affordable")
  {
    assert ToLower("Not Affordable") == "not " + "affordable";
    EndsWithIncludes("not ", "affordable");
  }

  /** Every verdict either calculate handler returns is shown in the success colour, a
      negative one included, because "not affordable" contains "affordable". */
  lemma EveryVerdictLooksSuccessful(disposable: JsNum)
    ensures SuccessColour(CityCostCache.Verdict(disposable))
    ensures SuccessColour(ValidatedCalculation.CapitalisedVerdict(disposable))
  {
    PositiveVerdictsLookSuccessful();
    LowerNegativeLooksSuccessful();
    CapitalisedNegativeLooksSuccessful();
  }

  // ---------------------------------------------------------------- newest-first order

  predicate NewestFirst(s: seq<Calculation>) {
    forall i, j :: 0 <= i < j < |s| ==> s[i].timestamp >= s[j].timestamp
  }

  /** A record no older than the head of a newest-first list can go in front of it. */
  lemma ConsNewestFirst(x: Calculation, s: seq<Calculation>)
    requires NewestFirst(s) && (|s| == 0 || x.timestamp >= s[0].timestamp)
    ensures NewestFirst([x] + s)
  {
    var r := [x] + s;
    forall i, j | 0 <= i < j < |r| ensures r[i].timestamp >= r[j].timestamp {
      if i == 0 && j > 1 {
        assert r[j] == s[j - 1];
      }
    }
  }

  /** Every record of `t`, which holds `x` and the tail of `s`, is no newer than the head of `s`. */
  lemma HeadNewest(x: Calculation, s: seq<Calculation>, t: seq<Calculation>)
    requires |s| > 0 && NewestFirst(s) && s[0].timestamp > x.timestamp
    requires multiset(t) == multiset(s[1..]) + multiset{x}
    ensures |t| == 0 || s[0].timestamp >= t[0].timestamp
  {
    if |t| > 0 && t[0] != x {
      assert t[0] in multiset(t);
      assert t[0] in multiset(s[1..]);
      var j :| 0 <= j < |s[1..]| && s[1..][j] == t[0];
      assert s[j + 1] == t[0];
    }
  }

  /** Inserts `x` into a newest-first sequence. */
  function InsertNewestFirst(x: Calculation, s: seq<Calculation>): (r: seq<Calculation>)
    requires NewestFirst(s)
    ensures NewestFirst(r)
    ensures multiset(r) == multiset(s) + multiset{x}
  {
    if |s| == 0 then [x]
    else if x.timestamp >= s[0].timestamp then
      ConsNewestFirst(x, s);
      [x] + s
    else
      var t := InsertNewestFirst(x, s[1..]);
      HeadNewest(x, s, t);
      ConsNewestFirst(s[0], t);
      assert s == [s[0]] + s[1..];
      [s[0]] + t
  }

  /** `calculations.sort((a, b) => new Date(b.timestamp) - new Date(a.timestamp))`. */
  function SortNewestFirst(s: seq<Calculation>): (r: seq<Calculation>)
    ensures NewestFirst(r)
    ensures multiset(r) == multiset(s)
  {
    if |s| == 0 then []
    else
      assert s == [s[0]] + s[1..];
      InsertNewestFirst(s[0], SortNewestFirst(s[1..]))
  }

  /** A list already newest first is left as it is. */
  lemma {:induction false} SortKeepsSorted(s: seq<Calculation>)
    requires NewestFirst(s)
    ensures SortNewestFirst(s) == s
  {
    if |s| > 0 {
      SortKeepsSorted(s[1..]);
      assert s == [s[0]] + s[1..];
    }
  }

  /** Sorting on every render is sorting once: the second sort changes nothing. */
  lemma SortIdempotent(s: seq<Calculation>)
    ensures SortNewestFirst(SortNewestFirst(s)) == SortNewestFirst(s)
  {
    SortKeepsSorted(SortNewestFirst(s));
  }

  // ---------------------------------------------------------------- the page

  class AppState {
    /** `localStorage.getItem('token')`. */
    var storedToken: Option<string>
    var loggedIn: bool
    /** `calculations`: the history list. */
    var calculations: seq<Calculation>
    /** `editingIndex` (null: None). */
    var editingIndex: Option<nat>
    /** `editedSalary` as the guard reads it. */
    var editedSalary: NumericInput
    /** `result`: the last accepted answer. */
    var result: Option<Answer>
    /** `error`: the message shown above the form. */
    var error: Option<string>

    /** The state when the page mounts. */
    constructor (storedToken: Option<string>)
      ensures this.storedToken == storedToken && !loggedIn && calculations == []
      ensures editingIndex.None? && editedSalary.Blank? && result.None? && error.None?
    {
      this.storedToken := storedToken;
      loggedIn, calculations, editingIndex, editedSalary, result, error := false, [], None, Blank, None, None;
    }

    /** The effect run on load (lines 45-62). */
    method CheckStoredToken(decode: Decoder, now: int)
      modifies this
      ensures old(storedToken.None? || storedToken.value == "") ==>
        storedToken == old(storedToken) && loggedIn == old(loggedIn)
      ensures old(storedToken.Some? && storedToken.value != "") ==>
        if Expired(decode(old(storedToken).value), now) then storedToken.None? && !loggedIn
        else storedToken == old(storedToken) && loggedIn
      ensures calculations == old(calculations) && editingIndex == old(editingIndex)
      ensures editedSalary == old(editedSalary) && result == old(result) && error == old(error)
    {
      if storedToken.Some? && storedToken.value != "" {
        var claims := decode(storedToken.value);
        if Expired(claims, now) {
          storedToken := None;
          loggedIn := false;
        } else {
          loggedIn := true;
        }
      }
    }

    /** `handleLogout`. */
    method Logout()
      modifies this
      ensures storedToken.None? && !loggedIn
      ensures calculations == old(calculations) && editingIndex == old(editingIndex)
      ensures editedSalary == old(editedSalary) && result == old(result) && error == old(error)
    {
      storedToken := None;
      loggedIn := false;
    }

    /** `handleCalculate` (lines 122-172), given how the two requests settle: `answer` for
        POST /calculate and `saveFailure` for POST /save-calculation. Returns the save request
        sent, if any. */
    method HandleCalculate(selectedCity: string, salary: NumericInput, answer: Settled,
                           saveFailure: Option<string>, timestamp: int) returns (saved: Option<SaveRequest>)
      modifies this
      ensures selectedCity == "" || salary.Blank? ==>
        saved.None? && result == old(result) && error == old(error)
      ensures selectedCity != "" && salary.Entered? && answer.Rejected? ==>
        saved.None? && result == old(result) && error == Some(answer.message)
      ensures selectedCity != "" && salary.Entered? && answer.Resolved? && !Complete(answer.body) ==>
        saved.None? && result == old(result) && error == Some("Incomplete data from the server.")
      ensures selectedCity != "" && salary.Entered? && answer.Resolved? && Complete(answer.body) ==>
        && result == answer.body
        && saved == Some(SaveRequestOf(answer.body.value, salary.value, timestamp))
        && error == (if saveFailure.Some? then saveFailure else None)
      ensures storedToken == old(storedToken) && loggedIn == old(loggedIn) && calculations == old(calculations)
      ensures editingIndex == old(editingIndex) && editedSalary == old(editedSalary)
    {
      saved := None;
      if selectedCity == "" || salary.Blank? {
        return;
      }
      error := None;
      match answer {
        case Rejected(message) =>
          error := Some(message);
        case Resolved(body) =>
          if !Complete(body) {
            error := Some("Incomplete data from the server.");
          } else {
            result := body;
            saved := Some(SaveRequestOf(body.value, salary.value, timestamp));
            if saveFailure.Some? {
              error := saveFailure;
            }
          }
      }
    }

    /** `handleEditCalculation`: called from an item of the list. */
    method EditCalculation(index: nat)
      requires index < |calculations|
      modifies this
      ensures editingIndex == Some(index)
      ensures editedSalary == match old(calculations)[index].salary
        case None => Blank
        case Some(v) => Entered(Finite(v))
      ensures storedToken == old(storedToken) && loggedIn == old(loggedIn) && calculations == old(calculations)
      ensures result == old(result) && error == old(error)
    {
      editingIndex := Some(index);
      editedSalary := match calculations[index].salary
        case None => Blank
        case Some(v) => Entered(Finite(v));
    }

    /** `handleSaveEditedCalculation`. Proceeds only while an item is being edited with a positive
        salary; then exactly the salary of that item changes, the edit ends, and the update
        request is returned. */
    method SaveEditedCalculation() returns (update: Option<UpdateRequest>)
      modifies this
      ensures old(editingIndex.None? || editedSalary.Blank? || !GreaterThanZero(editedSalary.value)) ==>
        update.None? && calculations == old(calculations)
        && editingIndex == old(editingIndex) && editedSalary == old(editedSalary)
      ensures old(editingIndex.Some? && editedSalary.Entered? && GreaterThanZero(editedSalary.value)) ==>
        var i, v := old(editingIndex).value, old(editedSalary).value.v;
        && editingIndex.None? && editedSalary.Blank?
        && (i < |old(calculations)| ==>
              calculations == old(calculations)[i := old(calculations)[i].(salary := Some(v))]
              && update == Some(UpdateRequest(Some(old(calculations)[i].timestamp), v)))
        && (i >= |old(calculations)| ==>
              calculations == old(calculations) && update == Some(UpdateRequest(None, v)))
      ensures storedToken == old(storedToken) && loggedIn == old(loggedIn)
      ensures result == old(result) && error == old(error)
    {
      if editingIndex.None? || editedSalary.Blank? || !GreaterThanZero(editedSalary.value) {
        return None;
      }
      var i, v := editingIndex.value, editedSalary.value.v;
      if i < |calculations| {
        var edited := calculations[i].(salary := Some(v));
        update := Some(UpdateRequest(Some(edited.timestamp), v));
        calculations := calculations[i := edited];
      } else {
        update := Some(UpdateRequest(None, v));
      }
      editingIndex := None;
      editedSalary := Blank;
    }

    /** `handleDeleteCalculation`: removes the item at `index` and returns the timestamp sent
        to the server; an index past the end removes nothing and sends nothing. */
    method DeleteCalculation(index: nat) returns (deleted: Option<int>)
      modifies this
      ensures index < |old(calculations)| ==>
        calculations == old(calculations)[..index] + old(calculations)[index + 1..]
        && deleted == Some(old(calculations)[index].timestamp)
      ensures index >= |old(calculations)| ==> calculations == old(calculations) && deleted.None?
      ensures multiset(calculations) <= multiset(old(calculations))
      ensures storedToken == old(storedToken) && loggedIn == old(loggedIn) && editingIndex == old(editingIndex)
      ensures editedSalary == old(editedSalary) && result == old(result) && error == old(error)
    {
      if index < |calculations| {
        deleted := Some(calculations[index].timestamp);
        assert calculations == calculations[..index] + [calculations[index]] + calculations[index + 1..];
        calculations := calculations[..index] + calculations[index + 1..];
      } else {
        deleted := None;
      }
    }

    /** The in-place `sort` the list rendering performs: newest first, the same records. */
    method SortHistory()
      modifies this
      ensures calculations == SortNewestFirst(old(calculations))
      ensures NewestFirst(calculations) && multiset(calculations) == multiset(old(calculations))
      ensures storedToken == old(storedToken) && loggedIn == old(loggedIn) && editingIndex == old(editingIndex)
      ensures editedSalary == old(editedSalary) && result == old(result) && error == old(error)
    {
      calculations := SortNewestFirst(calculations);
    }
  }
}
