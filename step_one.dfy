/**
 * frontend/src/components/calculator/step-one.tsx and the `CalculationFormData` it edits:
 * the salary, currency and current city are entered here, and `handleSubmit` refuses to
 * move on until the salary and current city are filled and the salary is a positive number.
 */
module StepOne {
  import opened JsValues

  /** `CalculationFormData`; the salary is the text of a number field, read with `Number(...)`. */
  datatype WizardForm = WizardForm(salary: NumericInput, currency: string, currentCity: string, targetCity: string)

  /** The currencies the currency select offers. */
  const Currencies: seq<string> := ["USD", "EUR", "GBP", "CAD", "AUD"]

  /** The form the calculator page starts with and resets to. */
  const InitialForm: WizardForm := WizardForm(Blank, "USD", "", "")

  /** `Number(formData.salary)`: the empty string reads as 0. */
  function NumberOf(s: NumericInput): (n: JsNum)
    ensures s.Entered? ==> n == s.value
    ensures s.Blank? ==> n == Finite(0.0)
  {
    match s
    case Blank => Finite(0.0)
    case Entered(n) => n
  }

  /** What `handleSubmit` does with the form. */
  datatype Submission = MissingFields | InvalidSalary | Next

  function CheckStepOne(form: WizardForm): (s: Submission)
    ensures s == MissingFields <==> form.salary.Blank? || form.currentCity == ""
    ensures s == InvalidSalary <==> form.salary.Entered? && form.currentCity != "" && !GreaterThanZero(form.salary.value)
    ensures s == Next <==> form.currentCity != "" && form.salary.Entered? && GreaterThanZero(form.salary.value)
  {
    if form.salary.Blank? || form.currentCity == "" then MissingFields
    else if form.salary.value.NaN? || form.salary.value.v <= 0.0 then InvalidSalary
    else Next
  }

  /** The alert shown for a refused submission. */
  function Alert(s: Submission): (a: string)
    requires s != Next
    ensures a != ""
    ensures a == "Please fill in all required fields" <==> s == MissingFields
  {
    if s == MissingFields then "Please fill in all required fields" else "Please enter a valid salary amount"
  }

  /** A form that passes step one has a positive salary, so the score's division is defined. */
  lemma PassingFormHasPositiveSalary(form: WizardForm)
    requires CheckStepOne(form) == Next
    ensures NumberOf(form.salary).Finite? && NumberOf(form.salary).v > 0.0
  {
  }

  /** The target city and the currency play no part in step one's check. */
  lemma CheckIgnoresTargetAndCurrency(form: WizardForm, target: string, currency: string)
    ensures CheckStepOne(form.(targetCity := target, currency := currency)) == CheckStepOne(form)
  {
  }
}
