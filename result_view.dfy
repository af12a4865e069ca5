/**
 * frontend/src/components/calculator/step-three.tsx: the decisions the result screen makes
 * from a `CalculationResult` — colour, icon and message bands on the score, the surplus
 * percentage and its label, and the fixed figure shown for the current city.
 */
module ResultView {
  import opened AffordabilityScore

  /** `getAffordabilityColor`. */
  function AffordabilityColor(score: int): (c: string)
    ensures c == "bg-emerald-500" <==> score >= 80
    ensures c == "bg-yellow-500" <==> 60 <= score < 80
    ensures c == "bg-red-500" <==> score < 60
  {
    if score >= 80 then "bg-emerald-500"
    else if score >= 60 then "bg-yellow-500"
    else "bg-red-500"
  }

  /** The thumbs-up icon of `getAffordabilityIcon`: its colour class and whether it is turned upside down. */
  datatype Icon = ThumbsUp(colour: string, upsideDown: bool)

  function AffordabilityIcon(score: int): (i: Icon)
    ensures !i.upsideDown <==> score >= 60
    ensures i.colour == (if score >= 60 then "text-emerald-600" else "text-red-600")
  {
    if score >= 60 then ThumbsUp("text-emerald-600", false) else ThumbsUp("text-red-600", true)
  }

  /** `getAffordabilityMessage`. */
  function AffordabilityMessage(score: int): (m: string)
    ensures m == "Yes! You can afford" <==> score >= 80
    ensures m == "You can moderately afford" <==> 60 <= score < 80
    ensures m == "It might be challenging to afford" <==> score < 60
  {
    if score >= 80 then "Yes! You can afford"
    else if score >= 60 then "You can moderately afford"
    else "It might be challenging to afford"
  }

  /** The sentence after the salary (line 50). */
  function LifestyleText(score: int): (t: string)
    ensures t == " you'll have a comfortable lifestyle" <==> score >= 60
  {
    if score >= 60 then " you'll have a comfortable lifestyle" else " it may be tight financially"
  }

  /** The score badge's colours (line 52). */
  function BadgeClass(score: int): (b: string)
    ensures b == "bg-emerald-50 text-emerald-700" <==> score >= 60
  {
    if score >= 60 then "bg-emerald-50 text-emerald-700" else "bg-red-50 text-red-700"
  }

  /** `surplusPercentage` (line 33). */
  function SurplusPercentage(r: CalculationResult): (p: real)
    requires r.monthlyIncome != 0.0
    ensures p * r.monthlyIncome == r.surplus * 100.0
    ensures r.monthlyIncome > 0.0 ==> (p > 0.0 <==> r.surplus > 0.0)
  {
    r.surplus / r.monthlyIncome * 100.0
  }

  /** "Monthly Surplus" or "Monthly Deficit" (line 142). */
  function SurplusLabel(surplus: real): (l: string)
    ensures l == "Surplus" <==> surplus > 0.0
    ensures l == "Surplus" || l == "Deficit"
  {
    if surplus > 0.0 then "Surplus" else "Deficit"
  }

  /** The monthly expenses shown for the current city (line 166). */
  function CurrentCityExpenses(totalCost: real): (shown: string)
    ensures shown == "4,200" <==> totalCost > 3000.0
    ensures shown == "4,200" || shown == "2,800"
  {
    if totalCost > 3000.0 then "4,200" else "2,800"
  }

  /** Colour, message, icon, sentence and badge all follow the same two thresholds. */
  lemma BandsAgree(score: int)
    ensures AffordabilityColor(score) == "bg-emerald-500" <==> AffordabilityMessage(score) == "Yes! You can afford"
    ensures AffordabilityColor(score) == "bg-red-500" <==> AffordabilityIcon(score).upsideDown
    ensures !AffordabilityIcon(score).upsideDown <==> LifestyleText(score) == " you'll have a comfortable lifestyle"
    ensures LifestyleText(score) == " you'll have a comfortable lifestyle" <==> BadgeClass(score) == "bg-emerald-50 text-emerald-700"
  {
  }

  /** For a computed result, the message depends on the surplus percentage alone:
      "Yes!" from 19.5%, "moderately" from -0.5% up to 19.5%, "challenging" below -0.5%. */
  lemma MessageBySurplusPercentage(form: FormData, cost: CostOfLiving)
    requires form.salary > 0.0
    ensures
      var r := Compute(form, cost);
      && (AffordabilityMessage(r.affordabilityScore) == "Yes! You can afford" <==> SurplusPercentage(r) >= 19.5)
      && (AffordabilityMessage(r.affordabilityScore) == "You can moderately afford" <==>
            -0.5 <= SurplusPercentage(r) < 19.5)
      && (AffordabilityMessage(r.affordabilityScore) == "It might be challenging to afford" <==>
            SurplusPercentage(r) < -0.5)
  {
    var r := Compute(form, cost);
    ScoreThresholds(r.surplus, r.monthlyIncome);
  }

  /** A surplus always gets the upright icon; the red band always comes with a "Deficit". */
  lemma SurplusIsNeverRed(form: FormData, cost: CostOfLiving)
    requires form.salary > 0.0
    ensures Compute(form, cost).surplus > 0.0 ==> !AffordabilityIcon(Compute(form, cost).affordabilityScore).upsideDown
    ensures AffordabilityColor(Compute(form, cost).affordabilityScore) == "bg-red-500" ==>
      SurplusLabel(Compute(form, cost).surplus) == "Deficit"
  {
    var r := Compute(form, cost);
    ScoreThresholds(r.surplus, r.monthlyIncome);
    if r.surplus > 0.0 {
      assert r.surplus / r.monthlyIncome > 0.0;
    }
  }

  /** The bands and the label can disagree: a deficit of 0.4% of income still reads
      "You can moderately afford" beside "Monthly Deficit". */
  lemma SmallDeficitStillModerate()
    ensures
      var r := Compute(FormData(16000.0, "USD", "Here", "There"), CostOfLiving(1004.0, 0.0, 0.0, 0.0, 0.0, "USD"));
      SurplusLabel(r.surplus) == "Deficit" && AffordabilityMessage(r.affordabilityScore) == "You can moderately afford"
  {
    var r := Compute(FormData(16000.0, "USD", "Here", "There"), CostOfLiving(1004.0, 0.0, 0.0, 0.0, 0.0, "USD"));
    assert r.monthlyIncome == 1000.0;
    assert r.surplus == -4.0;
    ScoreThresholds(r.surplus, r.monthlyIncome);
  }
}
