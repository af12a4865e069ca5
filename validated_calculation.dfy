/**
 * frontend/src/api/calculations.js: the POST /api/calculate handler with input checks.
 * It reads the `CityCost` store (never writes it), applies the server's four formulas,
 * labels the verdict with capitals and refuses to answer when a derived value is NaN.
 */
module ValidatedCalculation {
  import opened Wrappers
  import opened JsValues
  import opened CityCostCache

  /** A JSON body field as the handler sees it: absent, a string, or a number. */
  datatype BodyValue = Absent | Text(s: string) | Number(n: JsNum)

  /** `disposableIncome > 0 ? 'Affordable' : 'Not Affordable'`. */
  function CapitalisedVerdict(disposable: JsNum): (verdict: string)
    ensures verdict == "Affordable" <==> disposable.Finite? && disposable.v > 0.0
    ensures verdict == "Affordable" || verdict == "Not Affordable"
  {
    if GreaterThanZero(disposable) then "Affordable" else "Not Affordable"
  }

  /** One of the four derived values is NaN. */
  predicate AnyNaN(b: Breakdown): (nan: bool)
    ensures !nan ==>
      b.monthlySalary.Finite? && b.estimatedMonthlyRent.Finite?
      && b.estimatedMonthlyLivingCost.Finite? && b.disposableIncome.Finite?
  {
    b.monthlySalary.NaN? || b.estimatedMonthlyRent.NaN? || b.estimatedMonthlyLivingCost.NaN?
    || b.disposableIncome.NaN?
  }

  /** The handler, lines 10-61. */
  function HandleCalculate(records: seq<CityCost>, city: Option<string>, salary: BodyValue): (reply: CalcReply)
    ensures (Falsy(city) || !salary.Number?) <==> reply == CalcError(400, "City and valid salary are required.")
    ensures reply == CalcError(404, "City data not found") <==>
      !Falsy(city) && salary.Number? && FindCity(records, city).None?
    ensures reply == CalcError(500, "Calculation failed due to invalid data") <==>
      !Falsy(city) && salary.Number? && FindCity(records, city).Some?
      && (salary.n.NaN? || FindCity(records, city).value.rentIndex.NaN?
          || FindCity(records, city).value.costOfLivingIndex.NaN?)
    ensures (!Falsy(city) && salary.Number? && FindCity(records, city).Some?
             && !salary.n.NaN? && !FindCity(records, city).value.rentIndex.NaN?
             && !FindCity(records, city).value.costOfLivingIndex.NaN?)
            ==> reply.CalcOk?
    ensures reply.CalcOk? ==>
      var rec := FindCity(records, city).value;
      && salary.Number? && FindCity(records, city).Some?
      && reply.body.city == rec.city && reply.body.country == rec.country
      && reply.body.monthlySalary == Finite(salary.n.v / 12.0)
      && reply.body.estimatedMonthlyRent == Finite(rec.rentIndex.v * 20.0)
      && reply.body.estimatedMonthlyLivingCost == Finite(rec.costOfLivingIndex.v * 30.0)
      && reply.body.disposableIncome
         == Finite(salary.n.v / 12.0 - rec.rentIndex.v * 20.0 - rec.costOfLivingIndex.v * 30.0)
      && reply.body.affordability == CapitalisedVerdict(reply.body.disposableIncome)
  {
    if Falsy(city) || !salary.Number? then
      CalcError(400, "City and valid salary are required.")
    else
      match FindCity(records, city)
      case None => CalcError(404, "City data not found")
      case Some(rec) =>
        var b := ComputeBreakdown(rec, salary.n);
        var labelled := b.(affordability := CapitalisedVerdict(b.disposableIncome));
        if AnyNaN(b) then CalcError(500, "Calculation failed due to invalid data")
        else CalcOk(labelled)
  }

  /** Where this handler answers, the unvalidated server route answers with the same record
      and numbers, and its verdict is the lower-case form of this one. */
  lemma AgreesWithServer(records: seq<CityCost>, city: Option<string>, salary: BodyValue)
    requires HandleCalculate(records, city, salary).CalcOk?
    ensures
      var mine := HandleCalculate(records, city, salary).body;
      var theirs := ComputeBreakdown(FindCity(records, city).value, salary.n);
      && mine == theirs.(affordability := mine.affordability)
      && (mine.affordability == "Affordable" <==> theirs.affordability == "affordable")
  {
  }

  /** A number-typed NaN salary passes the 400 check and is caught by the NaN guard. A JSON
      body cannot carry NaN, so over HTTP this case needs a caller that builds `req.body`
      itself; the lemma pins down what the guards do with it. */
  lemma NaNSalaryIsServerError(records: seq<CityCost>, city: string)
    requires city != "" && FindCity(records, Some(city)).Some?
    ensures HandleCalculate(records, Some(city), Number(NaN)) == CalcError(500, "Calculation failed due to invalid data")
  {
  }
}
