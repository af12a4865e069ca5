/**
 * backend/server.js: the `CityCost` collection and its three routes.
 *  - GET /api/cities      lists every record sorted by city name;
 *  - GET /api/cost/:city  serves a record updated within the last seven days, otherwise asks the
 *                         external pricing source and upserts the answer by city;
 *  - POST /api/calculate  derives the monthly breakdown and verdict from a stored record.
 * The pricing source is an input (`Option<Quote>`, None when the request to it fails); the clock
 * is the parameter `now`, in milliseconds.
 */
module CityCostCache {
  import opened Wrappers
  import opened JsValues

  /** Seven days in milliseconds: the freshness window of the cache. */
  const FreshnessWindow: int := 7 * 24 * 60 * 60 * 1000
  /** Reference monthly rent at rent index 100. */
  const RentBaseline: real := 2000.0
  /** Reference monthly living cost at cost-of-living index 100. */
  const LivingBaseline: real := 3000.0

  /** A stored `CityCost` document. An index the pricing source did not supply reads as NaN. */
  datatype CityCost = CityCost(
    city: string,
    country: string,
    costOfLivingIndex: JsNum,
    rentIndex: JsNum,
    groceriesIndex: JsNum,
    restaurantIndex: JsNum,
    lastUpdated: int)

  /** What the pricing source answers for a city. */
  datatype Quote = Quote(
    country: string,
    costOfLivingIndex: JsNum,
    rentIndex: JsNum,
    groceriesIndex: JsNum,
    restaurantPriceIndex: JsNum)

  /** The six fields written back to the store and sent to the client after a fetch. */
  datatype CostData = CostData(
    city: string,
    country: string,
    costOfLivingIndex: JsNum,
    rentIndex: JsNum,
    groceriesIndex: JsNum,
    restaurantIndex: JsNum)

  datatype CostReply =
    | Cached(record: CityCost)
    | Refreshed(data: CostData)
    | CostError(status: int, message: string)

  /** The JSON body of /api/calculate. */
  datatype Breakdown = Breakdown(
    city: string,
    country: string,
    monthlySalary: JsNum,
    estimatedMonthlyRent: JsNum,
    estimatedMonthlyLivingCost: JsNum,
    disposableIncome: JsNum,
    affordability: string)

  datatype CalcReply = CalcOk(body: Breakdown) | CalcError(status: int, message: string)

  // ---------------------------------------------------------------- store queries

  /** At most one record per city key. */
  ghost predicate UniqueCities(records: seq<CityCost>) {
    forall i, j :: 0 <= i < j < |records| ==> records[i].city != records[j].city
  }

  /** `lastUpdated >= now - 7 days`: the boundary is inclusive. */
  predicate IsFresh(r: CityCost, now: int): (current: bool)
    ensures current <==> now - r.lastUpdated <= 7 * 24 * 60 * 60 * 1000
  {
    r.lastUpdated >= now - FreshnessWindow
  }

  /** `findOne({ city, lastUpdated: { $gte: now - 7 days } })`: the first fresh record of the city. */
  function FindFresh(records: seq<CityCost>, city: string, now: int): (r: Option<CityCost>)
    ensures r.Some? ==> r.value in records && r.value.city == city && IsFresh(r.value, now)
    ensures r.None? ==> forall i :: 0 <= i < |records| ==> !(records[i].city == city && IsFresh(records[i], now))
  {
    if |records| == 0 then None
    else if records[0].city == city && IsFresh(records[0], now) then Some(records[0])
    else FindFresh(records[1..], city, now)
  }

  /** The position of the first record with key `city`, the one `findOne({ city })` finds. */
  function IndexOfCity(records: seq<CityCost>, city: string): (k: Option<nat>)
    ensures k.Some? ==> k.value < |records| && records[k.value].city == city
    ensures k.Some? ==> forall i :: 0 <= i < k.value ==> records[i].city != city
    ensures k.None? ==> forall i :: 0 <= i < |records| ==> records[i].city != city
  {
    if |records| == 0 then None
    else if records[0].city == city then Some(0)
    else
      match IndexOfCity(records[1..], city)
      case None => None
      case Some(j) => Some(j + 1)
  }

  /** `findOne({ city })` where the body's city may be undefined; an undefined filter value matches no record. */
  function FindCity(records: seq<CityCost>, city: Option<string>): (r: Option<CityCost>)
    ensures r.Some? ==> city.Some? && r.value in records && r.value.city == city.value
    ensures r.None? ==> city.None? || forall i :: 0 <= i < |records| ==> records[i].city != city.value
  {
    if city.None? then None
    else
      match IndexOfCity(records, city.value)
      case None => None
      case Some(k) => Some(records[k])
  }

  // ---------------------------------------------------------------- refresh and upsert

  /** The fields built from the pricing source's answer (the source's `restaurant_price_index`
      becomes `restaurantIndex`); `lastUpdated` is not among them. */
  function CostDataOf(city: string, q: Quote): (d: CostData)
    ensures d.city == city && d.country == q.country && d.restaurantIndex == q.restaurantPriceIndex
    ensures d.costOfLivingIndex == q.costOfLivingIndex && d.rentIndex == q.rentIndex
    ensures d.groceriesIndex == q.groceriesIndex
  {
    CostData(city, q.country, q.costOfLivingIndex, q.rentIndex, q.groceriesIndex, q.restaurantPriceIndex)
  }

  /** The record holds exactly the six fetched fields. */
  predicate Holds(r: CityCost, d: CostData) {
    r.city == d.city && r.country == d.country && r.costOfLivingIndex == d.costOfLivingIndex
    && r.rentIndex == d.rentIndex && r.groceriesIndex == d.groceriesIndex
    && r.restaurantIndex == d.restaurantIndex
  }

  /** `findOneAndUpdate({ city }, costData, { upsert: true })`: overwrite the six fields of the
      first record of that city, keeping its `lastUpdated`; with no such record, insert one whose
      `lastUpdated` is the schema default, the current time. */
  function Upsert(records: seq<CityCost>, d: CostData, now: int): (r: seq<CityCost>)
    ensures |r| == if IndexOfCity(records, d.city).Some? then |records| else |records| + 1
    ensures forall i | 0 <= i < |records| :: r[i].city == records[i].city
    ensures IndexOfCity(records, d.city).None? ==> r[|records|].lastUpdated == now && Holds(r[|records|], d)
  {
    match IndexOfCity(records, d.city)
    case Some(k) =>
      records[k := records[k].(country := d.country, costOfLivingIndex := d.costOfLivingIndex,
                               rentIndex := d.rentIndex, groceriesIndex := d.groceriesIndex,
                               restaurantIndex := d.restaurantIndex)]
    case None =>
      records + [CityCost(d.city, d.country, d.costOfLivingIndex, d.rentIndex, d.groceriesIndex,
                          d.restaurantIndex, now)]
  }

  /** After an upsert, the keys are still unique and exactly one record has the fetched city,
      holding the fetched fields. */
  lemma UpsertStoresExactlyOne(records: seq<CityCost>, d: CostData, now: int)
    requires UniqueCities(records)
    ensures UniqueCities(Upsert(records, d, now))
    ensures exists k :: 0 <= k < |Upsert(records, d, now)| && Holds(Upsert(records, d, now)[k], d)
    ensures forall k, l ::
              (0 <= k < |Upsert(records, d, now)| && 0 <= l < |Upsert(records, d, now)|
               && Upsert(records, d, now)[k].city == d.city && Upsert(records, d, now)[l].city == d.city) ==> k == l
  {
    var r := Upsert(records, d, now);
    match IndexOfCity(records, d.city)
    case Some(k) =>
      assert Holds(r[k], d);
    case None =>
      assert Holds(r[|records|], d);
  }

  /** An upsert touches no record of another city and never drops one. */
  lemma UpsertKeepsOtherCities(records: seq<CityCost>, d: CostData, now: int)
    ensures |Upsert(records, d, now)| == |records| + (if IndexOfCity(records, d.city).None? then 1 else 0)
    ensures forall i :: 0 <= i < |records| && records[i].city != d.city ==> Upsert(records, d, now)[i] == records[i]
  {
  }

  /** Refreshing an existing record keeps its `lastUpdated`; only a first insert stamps `now`. */
  lemma UpsertTimestamp(records: seq<CityCost>, d: CostData, now: int)
    ensures IndexOfCity(records, d.city).Some? ==>
      var k := IndexOfCity(records, d.city).value;
      Upsert(records, d, now)[k].lastUpdated == records[k].lastUpdated
    ensures IndexOfCity(records, d.city).None? ==>
      Upsert(records, d, now)[|records|].lastUpdated == now
  {
  }

  /** Under unique keys, `FindFresh` finds a record exactly when the city's one record is fresh. */
  lemma {:induction false} FindFreshUnique(records: seq<CityCost>, city: string, now: int)
    requires UniqueCities(records)
    ensures FindFresh(records, city, now).Some? <==>
      (IndexOfCity(records, city).Some? && IsFresh(records[IndexOfCity(records, city).value], now))
    ensures FindFresh(records, city, now).Some? ==>
      FindFresh(records, city, now).value == records[IndexOfCity(records, city).value]
  {
    var f := FindFresh(records, city, now);
    if f.Some? {
      var i :| 0 <= i < |records| && records[i] == f.value;
      var k := IndexOfCity(records, city).value;
      assert i == k;
    }
  }

  /** A stale record that gets refreshed stays stale: the same request at the same time fetches again.
      (Only a record inserted for the first time becomes fresh.) */
  lemma StaleRefreshStaysStale(records: seq<CityCost>, d: CostData, now: int)
    requires UniqueCities(records)
    requires IndexOfCity(records, d.city).Some?
    requires !IsFresh(records[IndexOfCity(records, d.city).value], now)
    ensures FindFresh(Upsert(records, d, now), d.city, now).None?
  {
    UpsertStoresExactlyOne(records, d, now);
    UpsertTimestamp(records, d, now);
    FindFreshUnique(Upsert(records, d, now), d.city, now);
  }

  /** A record inserted by a fetch at `now` is served from the cache for the next seven days. */
  lemma InsertedRecordServedWhileFresh(records: seq<CityCost>, d: CostData, now: int, later: int)
    requires UniqueCities(records)
    requires IndexOfCity(records, d.city).None?
    requires now <= later <= now + FreshnessWindow
    ensures FindFresh(Upsert(records, d, now), d.city, later).Some?
    ensures Holds(FindFresh(Upsert(records, d, now), d.city, later).value, d)
  {
    var r := Upsert(records, d, now);
    UpsertStoresExactlyOne(records, d, now);
    FindFreshUnique(r, d.city, later);
    assert r[|records|].city == d.city;
  }

  // ---------------------------------------------------------------- calculator

  /** `salary / 12`. */
  function MonthlySalary(salary: JsNum): (m: JsNum)
    ensures m.NaN? <==> salary.NaN?
    ensures m.Finite? ==> m.v * 12.0 == salary.v
  {
    Div(salary, 12.0)
  }

  /** `(rentIndex / 100) * 2000`: an index of 100 costs the baseline rent. */
  function EstimatedMonthlyRent(rentIndex: JsNum): (r: JsNum)
    ensures r.NaN? <==> rentIndex.NaN?
    ensures r.Finite? ==> r.v * 100.0 == rentIndex.v * RentBaseline
  {
    Mul(Div(rentIndex, 100.0), RentBaseline)
  }

  /** `(costOfLivingIndex / 100) * 3000`: an index of 100 costs the baseline living cost. */
  function EstimatedMonthlyLivingCost(costOfLivingIndex: JsNum): (l: JsNum)
    ensures l.NaN? <==> costOfLivingIndex.NaN?
    ensures l.Finite? ==> l.v * 100.0 == costOfLivingIndex.v * LivingBaseline
  {
    Mul(Div(costOfLivingIndex, 100.0), LivingBaseline)
  }

  /** `monthlySalary - estimatedMonthlyRent - estimatedMonthlyLivingCost`: what is left. */
  function DisposableIncome(monthlySalary: JsNum, rent: JsNum, living: JsNum): (d: JsNum)
    ensures d.NaN? <==> monthlySalary.NaN? || rent.NaN? || living.NaN?
    ensures d.Finite? ==> d.v + rent.v + living.v == monthlySalary.v
  {
    Sub(Sub(monthlySalary, rent), living)
  }

  /** `disposableIncome > 0 ? 'affordable' : 'not affordable'`. */
  function Verdict(disposable: JsNum): (verdict: string)
    ensures verdict == "affordable" || verdict == "not affordable"
    ensures verdict == "affordable" <==> disposable.Finite? && disposable.v > 0.0
  {
    if GreaterThanZero(disposable) then "affordable" else "not affordable"
  }

  /** The breakdown of `salary` against a stored record. */
  function ComputeBreakdown(rec: CityCost, salary: JsNum): (b: Breakdown)
    ensures b.city == rec.city && b.country == rec.country
    ensures b.disposableIncome.NaN? <==> salary.NaN? || rec.rentIndex.NaN? || rec.costOfLivingIndex.NaN?
    ensures salary.Finite? ==> b.monthlySalary == Finite(salary.v / 12.0)
    ensures rec.rentIndex.Finite? ==> b.estimatedMonthlyRent == Finite(rec.rentIndex.v * 20.0)
    ensures rec.costOfLivingIndex.Finite? ==> b.estimatedMonthlyLivingCost == Finite(rec.costOfLivingIndex.v * 30.0)
    ensures b.disposableIncome.Finite? ==>
      b.disposableIncome.v == b.monthlySalary.v - b.estimatedMonthlyRent.v - b.estimatedMonthlyLivingCost.v
    ensures b.affordability == "affordable" <==>
      salary.Finite? && rec.rentIndex.Finite? && rec.costOfLivingIndex.Finite?
      && salary.v / 12.0 > rec.rentIndex.v * 20.0 + rec.costOfLivingIndex.v * 30.0
    ensures b.affordability == Verdict(b.disposableIncome)
  {
    var monthly := MonthlySalary(salary);
    var rent := EstimatedMonthlyRent(rec.rentIndex);
    var living := EstimatedMonthlyLivingCost(rec.costOfLivingIndex);
    var disposable := DisposableIncome(monthly, rent, living);
    Breakdown(rec.city, rec.country, monthly, rent, living, disposable, Verdict(disposable))
  }

  /** A disposable income of exactly zero is "not affordable": the verdict needs a strict surplus. */
  lemma ZeroDisposableIsNotAffordable(rec: CityCost, salary: real)
    requires rec.rentIndex.Finite? && rec.costOfLivingIndex.Finite?
    requires salary / 12.0 == rec.rentIndex.v * 20.0 + rec.costOfLivingIndex.v * 30.0
    ensures ComputeBreakdown(rec, Finite(salary)).disposableIncome == Finite(0.0)
    ensures ComputeBreakdown(rec, Finite(salary)).affordability == "not affordable"
  {
  }

  /** A salary of 60000 against rent index 95 and cost-of-living index 100. */
  lemma WorkedExample(rec: CityCost)
    requires rec.rentIndex == Finite(95.0) && rec.costOfLivingIndex == Finite(100.0)
    ensures ComputeBreakdown(rec, Finite(60000.0)) ==
      Breakdown(rec.city, rec.country, Finite(5000.0), Finite(1900.0), Finite(3000.0), Finite(100.0), "affordable")
  {
    var b := ComputeBreakdown(rec, Finite(60000.0));
    assert b.monthlySalary == Finite(5000.0);
    assert b.estimatedMonthlyRent == Finite(1900.0);
    assert b.estimatedMonthlyLivingCost == Finite(3000.0);
    assert b.disposableIncome.Finite?;
    assert b.disposableIncome.v == 100.0;
  }

  // ---------------------------------------------------------------- ordering by city

  /** MongoDB's ascending order on strings: lexicographic by character code. */
  predicate CityLe(a: string, b: string)
    decreases |a|
  {
    |a| == 0 || (|b| > 0 && (a[0] < b[0] || (a[0] == b[0] && CityLe(a[1..], b[1..]))))
  }

  lemma {:induction false} CityLeTotal(a: string, b: string)
    ensures CityLe(a, b) || CityLe(b, a)
    decreases |a|
  {
    if |a| > 0 && |b| > 0 && a[0] == b[0] {
      CityLeTotal(a[1..], b[1..]);
    }
  }

  lemma {:induction false} CityLeTransitive(a: string, b: string, c: string)
    requires CityLe(a, b) && CityLe(b, c)
    ensures CityLe(a, c)
    decreases |a|
  {
    if |a| > 0 && a[0] == b[0] && b[0] == c[0] {
      CityLeTransitive(a[1..], b[1..], c[1..]);
    }
  }

  predicate SortedByCity(s: seq<CityCost>) {
    forall i, j :: 0 <= i < j < |s| ==> CityLe(s[i].city, s[j].city)
  }

  /** A record whose city does not come after the head of a sorted list can go in front of it. */
  lemma ConsSortedByCity(x: CityCost, s: seq<CityCost>)
    requires SortedByCity(s) && (|s| == 0 || CityLe(x.city, s[0].city))
    ensures SortedByCity([x] + s)
  {
    var r := [x] + s;
    forall i, j | 0 <= i < j < |r| ensures CityLe(r[i].city, r[j].city) {
      if i == 0 && j > 1 {
        assert r[j] == s[j - 1];
        CityLeTransitive(x.city, s[0].city, s[j - 1].city);
      }
    }
  }

  /** The head of `t`, which holds `x` and the tail of `s`, does not come before the head of `s`. */
  lemma HeadFirstByCity(x: CityCost, s: seq<CityCost>, t: seq<CityCost>)
    requires |s| > 0 && SortedByCity(s) && CityLe(s[0].city, x.city)
    requires multiset(t) == multiset(s[1..]) + multiset{x}
    ensures |t| == 0 || CityLe(s[0].city, t[0].city)
  {
    if |t| > 0 && t[0] != x {
      assert t[0] in multiset(t);
      assert t[0] in multiset(s[1..]);
      var j :| 0 <= j < |s[1..]| && s[1..][j] == t[0];
      assert s[j + 1] == t[0];
    }
  }

  /** Inserts `x` into a city-sorted sequence. */
  function InsertByCity(x: CityCost, s: seq<CityCost>): (r: seq<CityCost>)
    requires SortedByCity(s)
    ensures SortedByCity(r)
    ensures multiset(r) == multiset(s) + multiset{x}
  {
    if |s| == 0 then [x]
    else if CityLe(x.city, s[0].city) then
      ConsSortedByCity(x, s);
      [x] + s
    else
      var t := InsertByCity(x, s[1..]);
      CityLeTotal(x.city, s[0].city);
      HeadFirstByCity(x, s, t);
      ConsSortedByCity(s[0], t);
      assert s == [s[0]] + s[1..];
      [s[0]] + t
  }

  /** `find().sort({ city: 1 })`: the records, ordered by city. */
  function SortByCity(s: seq<CityCost>): (r: seq<CityCost>)
    ensures SortedByCity(r)
    ensures multiset(r) == multiset(s)
  {
    if |s| == 0 then []
    else
      assert s == [s[0]] + s[1..];
      InsertByCity(s[0], SortByCity(s[1..]))
  }

  // ---------------------------------------------------------------- the store

  class CityCostStore {
    /** The documents of the `CityCost` collection, in their natural order. */
    var records: seq<CityCost>

    ghost predicate Valid()
      reads this
    {
      UniqueCities(records)
    }

    constructor (initial: seq<CityCost>)
      requires UniqueCities(initial)
      ensures Valid() && records == initial
    {
      records := initial;
    }

    /** GET /api/cities: all records, sorted ascending by city; the store is not changed. */
    method ListCities() returns (cities: seq<CityCost>)
      ensures SortedByCity(cities)
      ensures multiset(cities) == multiset(records)
    {
      cities := SortByCity(records);
    }

    /** GET /api/cost/:city. `fetched` says whether the pricing source was consulted; `quote`
        is its answer (None: the request to it failed); `writeFails` says that the store
        rejects the upsert, which ends in the same catch block. */
    method GetCost(city: string, now: int, quote: Option<Quote>, writeFails: bool) returns (reply: CostReply, fetched: bool)
      requires Valid()
      modifies this
      ensures Valid()
      ensures fetched <==> FindFresh(old(records), city, now).None?
      ensures !fetched ==> reply == Cached(FindFresh(old(records), city, now).value) && records == old(records)
      ensures fetched && (quote.None? || writeFails) ==>
        reply == CostError(500, "Error fetching cost data") && records == old(records)
      ensures fetched && quote.Some? && !writeFails ==>
        reply == Refreshed(CostDataOf(city, quote.value))
        && records == Upsert(old(records), CostDataOf(city, quote.value), now)
    {
      var hit := FindFresh(records, city, now);
      if hit.Some? {
        return Cached(hit.value), false;
      }
      fetched := true;
      if quote.None? {
        return CostError(500, "Error fetching cost data"), fetched;
      }
      var costData := CostDataOf(city, quote.value);
      if writeFails {
        return CostError(500, "Error fetching cost data"), fetched;
      }
      UpsertStoresExactlyOne(records, costData, now);
      records := Upsert(records, costData, now);
      reply := Refreshed(costData);
    }

    /** POST /api/calculate: no freshness check, and the store is only read. */
    method Calculate(city: Option<string>, salary: JsNum) returns (reply: CalcReply)
      ensures reply.CalcError? <==> FindCity(records, city).None?
      ensures reply.CalcError? ==> reply == CalcError(404, "City data not found")
      ensures reply.CalcOk? ==> reply.body == ComputeBreakdown(FindCity(records, city).value, salary)
    {
      var costData := FindCity(records, city);
      if costData.None? {
        return CalcError(404, "City data not found");
      }
      reply := CalcOk(ComputeBreakdown(costData.value, salary));
    }
  }
}
