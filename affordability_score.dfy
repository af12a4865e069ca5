/**
 * frontend/src/components/lib/api.ts: `calculateAffordability`, the client-side estimate.
 * Monthly income is salary/12 after a flat 25% tax; the score compares the surplus with that
 * income, centred on 60 and clamped to 0..100. The cost data is what `getCostOfLiving`
 * fetched for the target city (None: the request failed and the promise rejects).
 */
module AffordabilityScore {
  import opened Wrappers

  /** `CalculationFormData` as api.ts receives it: the salary is already a number. */
  datatype FormData = FormData(salary: real, currency: string, currentCity: string, targetCity: string)

  /** `CostOfLivingData`: monthly costs per category. */
  datatype CostOfLiving = CostOfLiving(
    housing: real, food: real, transport: real, entertainment: real, other: real, currency: string)

  /** `CalculationResult`: the form fields, the category costs and the derived figures. */
  datatype CalculationResult = CalculationResult(
    salary: real, currency: string, currentCity: string, targetCity: string,
    housingCost: real, foodCost: real, transportCost: real, entertainmentCost: real, otherCost: real,
    totalCost: real, monthlyIncome: real, surplus: real, affordabilityScore: int)

  /** JavaScript `Math.round`: the nearest integer, halves rounded up (`floor(x + 0.5)`). */
  function Round(x: real): (n: int)
    ensures n as real - 0.5 <= x < n as real + 0.5
  {
    (x + 0.5).Floor
  }

  /** `Math.min(100, Math.max(0, n))`. */
  function Clamp(n: int): (c: int)
    ensures 0 <= c <= 100
    ensures 0 <= n <= 100 ==> c == n
    ensures n < 0 ==> c == 0
    ensures n > 100 ==> c == 100
  {
    if n < 0 then 0 else if n > 100 then 100 else n
  }

  /** `(salary / 12) * 0.75`: a quarter of the monthly salary goes to tax. */
  function MonthlyIncome(salary: real): (income: real)
    ensures income * 16.0 == salary
    ensures income > 0.0 <==> salary > 0.0
  {
    salary / 12.0 * 0.75
  }

  /** The sum of the five category costs. */
  function TotalCost(c: CostOfLiving): (total: real)
    ensures c.housing >= 0.0 && c.food >= 0.0 && c.transport >= 0.0 && c.entertainment >= 0.0 && c.other >= 0.0
      ==> total >= c.housing && total >= c.food && total >= c.transport && total >= c.entertainment && total >= c.other
  {
    c.housing + c.food + c.transport + c.entertainment + c.other
  }

  /** The score: the surplus as a percentage of income, shifted by 60, rounded and clamped. */
  function Score(surplus: real, income: real): (s: int)
    requires income != 0.0
    ensures 0 <= s <= 100
    ensures surplus == 0.0 ==> s == 60
  {
    Clamp(Round(surplus / income * 100.0 + 60.0))
  }

  /** The pure body of `calculateAffordability` (lines 54-70); the salary is positive because
      step one refuses any other. */
  function Compute(form: FormData, cost: CostOfLiving): (r: CalculationResult)
    requires form.salary > 0.0
    ensures r.salary == form.salary && r.currency == form.currency
    ensures r.currentCity == form.currentCity && r.targetCity == form.targetCity
    ensures r.housingCost == cost.housing && r.foodCost == cost.food && r.transportCost == cost.transport
    ensures r.entertainmentCost == cost.entertainment && r.otherCost == cost.other
    ensures r.monthlyIncome * 16.0 == form.salary && r.monthlyIncome > 0.0
    ensures r.totalCost == r.housingCost + r.foodCost + r.transportCost + r.entertainmentCost + r.otherCost
    ensures r.surplus + r.totalCost == r.monthlyIncome
    ensures 0 <= r.affordabilityScore <= 100
    ensures r.surplus == 0.0 ==> r.affordabilityScore == 60
  {
    var income := MonthlyIncome(form.salary);
    var total := TotalCost(cost);
    var surplus := income - total;
    CalculationResult(form.salary, form.currency, form.currentCity, form.targetCity,
                      cost.housing, cost.food, cost.transport, cost.entertainment, cost.other,
                      total, income, surplus, Score(surplus, income))
  }

  /** `api.calculateAffordability`: rejects (None) when the cost data could not be fetched. */
  function CalculateAffordability(form: FormData, fetched: Option<CostOfLiving>): (r: Option<CalculationResult>)
    requires form.salary > 0.0
    ensures r.Some? <==> fetched.Some?
    ensures r.Some? ==> r.value == Compute(form, fetched.value)
  {
    match fetched
    case None => None
    case Some(cost) => Some(Compute(form, cost))
  }

  /** `Math.round(x) >= n` exactly when `x >= n - 0.5`. */
  lemma RoundAtLeast(x: real, n: int)
    ensures Round(x) >= n <==> x >= n as real - 0.5
  {
  }

  /** The score as a function of the surplus percentage `p = surplus / income * 100`:
      at least 60 exactly for `p >= -0.5`, at least 80 exactly for `p >= 19.5`,
      100 exactly for `p >= 39.5` and 0 exactly for `p < -59.5`. */
  lemma ScoreThresholds(surplus: real, income: real)
    requires income > 0.0
    ensures Score(surplus, income) >= 60 <==> surplus / income * 100.0 >= -0.5
    ensures Score(surplus, income) >= 80 <==> surplus / income * 100.0 >= 19.5
    ensures Score(surplus, income) == 100 <==> surplus / income * 100.0 >= 39.5
    ensures Score(surplus, income) == 0 <==> surplus / income * 100.0 < -59.5
  {
    var p := surplus / income * 100.0;
    RoundAtLeast(p + 60.0, 60);
    RoundAtLeast(p + 60.0, 80);
    RoundAtLeast(p + 60.0, 100);
    RoundAtLeast(p + 60.0, 1);
  }

  /** A bigger surplus against the same income never lowers the score. */
  lemma ScoreMonotone(s1: real, s2: real, income: real)
    requires income > 0.0 && s1 <= s2
    ensures Score(s1, income) <= Score(s2, income)
  {
    var p1, p2 := s1 / income * 100.0, s2 / income * 100.0;
    assert p1 <= p2 by {
      assert s1 / income <= s2 / income;
    }
    var n1, n2 := Round(p1 + 60.0), Round(p2 + 60.0);
    RoundAtLeast(p2 + 60.0, n1);
  }

  /** Scaling a ratio back to money: with `x * m == s` and `m > 0`, the ratio is at least
      -0.5 % exactly when twice a hundred times `s` is at least `-m`. */
  lemma RatioInMoney(x: real, m: real, s: real)
    requires m > 0.0 && x * m == s
    ensures x * 100.0 >= -0.5 <==> 200.0 * s >= -m
  {
    assert 200.0 * s == (200.0 * x) * m;
    if 200.0 * x >= -1.0 {
      assert (200.0 * x) * m >= -1.0 * m;
    } else {
      assert (200.0 * x) * m < -1.0 * m;
    }
  }

  /** In terms of money: the score reaches 60 exactly when the deficit is at most half a
      percent of the monthly income. */
  lemma ScoreAtLeast60InMoney(form: FormData, cost: CostOfLiving)
    requires form.salary > 0.0
    ensures var r := Compute(form, cost);
      r.affordabilityScore >= 60 <==> 200.0 * r.surplus >= -r.monthlyIncome
  {
    var r := Compute(form, cost);
    ScoreThresholds(r.surplus, r.monthlyIncome);
    RatioInMoney(r.surplus / r.monthlyIncome, r.monthlyIncome, r.surplus);
  }
}
