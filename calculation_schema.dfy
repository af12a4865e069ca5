/**
 * backend/models/Calculations.js: the `Calculation` record. Only the owner's `userId` is
 * required; the city, the country, the salary and the three derived figures are optional,
 * `affordability` is any string, and `timestamp` defaults to the creation time.
 */
module CalculationSchema {
  import opened Wrappers

  /** A stored calculation; the timestamp is in milliseconds. */
  datatype Calculation = Calculation(
    userId: string, city: Option<string>, country: Option<string>, salary: Option<real>,
    estimatedMonthlyRent: Option<real>, estimatedMonthlyLivingCost: Option<real>,
    disposableIncome: Option<real>, affordability: Option<string>, timestamp: int)

  /** The document given to `new Calculation(...)`: any field may be left out. */
  datatype CalculationInput = CalculationInput(
    userId: Option<string>, city: Option<string>, country: Option<string>, salary: Option<real>,
    estimatedMonthlyRent: Option<real>, estimatedMonthlyLivingCost: Option<real>,
    disposableIncome: Option<real>, affordability: Option<string>, timestamp: Option<int>)

  /** Document validation: a record, or the path of the missing required field. */
  datatype Validated = Valid(record: Calculation) | Invalid(path: string)

  /** Validation and defaults when a document is created at time `now`. */
  function Create(input: CalculationInput, now: int): (r: Validated)
    ensures r.Invalid? <==> input.userId.None?
    ensures r.Invalid? ==> r.path == "userId"
    ensures r.Valid? ==> Some(r.record.userId) == input.userId
    ensures r.Valid? ==> r.record.timestamp == (if input.timestamp.Some? then input.timestamp.value else now)
    ensures r.Valid? ==> AsInput(r.record).(timestamp := input.timestamp) == input
  {
    match input.userId
    case None => Invalid("userId")
    case Some(owner) =>
      Valid(Calculation(owner, input.city, input.country, input.salary, input.estimatedMonthlyRent,
                        input.estimatedMonthlyLivingCost, input.disposableIncome, input.affordability,
                        input.timestamp.GetOr(now)))
  }

  /** A stored record written back out as a document with every field present. */
  function AsInput(c: Calculation): CalculationInput {
    CalculationInput(Some(c.userId), c.city, c.country, c.salary, c.estimatedMonthlyRent,
                     c.estimatedMonthlyLivingCost, c.disposableIncome, c.affordability, Some(c.timestamp))
  }

  /** A stored record re-created from its own fields is itself, at any time. */
  lemma CreateAsInput(c: Calculation, now: int)
    ensures Create(AsInput(c), now) == Valid(c)
  {
  }

  /** Only the owner is required: a document with nothing but a `userId` is accepted and stamped now. */
  lemma OnlyOwnerRequired(owner: string, now: int)
    ensures Create(CalculationInput(Some(owner), None, None, None, None, None, None, None, None), now) ==
      Valid(Calculation(owner, None, None, None, None, None, None, None, now))
  {
  }

  /** `affordability` keeps any string, whichever handler's vocabulary it comes from. */
  lemma AnyAffordabilityLabel(input: CalculationInput, text: string, now: int)
    requires input.userId.Some?
    ensures Create(input.(affordability := Some(text)), now).record.affordability == Some(text)
  {
  }
}
