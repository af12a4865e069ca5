/**
 * frontend/src/pages/calculator.tsx: the three-step calculator. The page holds the step,
 * the form and the result; step one's and step two's checks guard the transitions, and the
 * score is computed when step two moves on. The invariant `Valid` says that from step two on
 * the form has passed step one, and that at step three the result shown is the one computed
 * for the form shown.
 */
module CalculatorPage {
  import opened Wrappers
  import opened JsValues
  import opened AffordabilityScore
  import opened StepOne
  import opened StepTwo

  /** The score request built from the form (lines 46-51). */
  function ScoreRequest(form: WizardForm): (f: FormData)
    ensures f.currency == form.currency && f.currentCity == form.currentCity && f.targetCity == form.targetCity
    ensures form.salary.Entered? && form.salary.value.Finite? ==> f.salary == form.salary.value.v
  {
    var n := NumberOf(form.salary);
    FormData(if n.Finite? then n.v else 0.0, form.currency, form.currentCity, form.targetCity)
  }

  /** The result belongs to the form: same salary, currency and cities. */
  predicate ResultMatchesForm(r: CalculationResult, form: WizardForm) {
    form.salary.Entered? && form.salary.value.Finite? && r.salary == form.salary.value.v
    && r.currency == form.currency && r.currentCity == form.currentCity && r.targetCity == form.targetCity
  }

  class Wizard {
    var currentStep: int
    var formData: WizardForm
    var result: Option<CalculationResult>
    var isCalculating: bool

    ghost predicate Valid()
      reads this
    {
      && 1 <= currentStep <= 3
      && formData.currency in Currencies
      && (currentStep >= 2 ==> CheckStepOne(formData) == Next)
      && (currentStep == 3 ==> result.Some? && ResultMatchesForm(result.value, formData))
      && (result.Some? ==> 0 <= result.value.affordabilityScore <= 100)
      && !isCalculating
    }

    constructor ()
      ensures Valid()
      ensures currentStep == 1 && formData == InitialForm && result.None? && !isCalculating
    {
      currentStep, formData, result, isCalculating := 1, InitialForm, None, false;
    }

    /** The salary field (step-one.tsx line 51). */
    method EnterSalary(s: NumericInput)
      requires Valid() && currentStep == 1
      modifies this
      ensures Valid()
      ensures formData == old(formData).(salary := s)
      ensures currentStep == old(currentStep) && result == old(result)
    {
      formData := formData.(salary := s);
    }

    /** The currency select (step-one.tsx line 64). */
    method ChooseCurrency(c: string)
      requires Valid() && currentStep == 1 && c in Currencies
      modifies this
      ensures Valid()
      ensures formData == old(formData).(currency := c)
      ensures currentStep == old(currentStep) && result == old(result)
    {
      formData := formData.(currency := c);
    }

    /** The current-city field (step-one.tsx line 88). */
    method EnterCurrentCity(c: string)
      requires Valid() && currentStep == 1
      modifies this
      ensures Valid()
      ensures formData == old(formData).(currentCity := c)
      ensures currentStep == old(currentStep) && result == old(result)
    {
      formData := formData.(currentCity := c);
    }

    /** Step one's `handleSubmit`: moves to step two, or returns the alert and changes nothing. */
    method SubmitStepOne() returns (alert: Option<string>)
      requires Valid() && currentStep == 1
      modifies this
      ensures Valid()
      ensures CheckStepOne(formData) == Next <==> currentStep == 2
      ensures CheckStepOne(formData) == Next ==> alert.None?
      ensures CheckStepOne(formData) != Next ==> alert == Some(Alert(CheckStepOne(formData))) && currentStep == 1
      ensures formData == old(formData) && result == old(result)
    {
      var check := CheckStepOne(formData);
      if check != Next {
        return Some(Alert(check));
      }
      currentStep := 2;
      alert := None;
    }

    /** `selectCity` (step-two.tsx lines 54-56). */
    method SelectCity(name: string)
      requires Valid() && currentStep == 2
      modifies this
      ensures Valid()
      ensures formData == old(formData).(targetCity := name)
      ensures currentStep == old(currentStep) && result == old(result)
    {
      CheckIgnoresTargetAndCurrency(formData, name, formData.currency);
      formData := formData.(targetCity := name);
    }

    /** Step two's "Previous" button. */
    method StepTwoPrevious()
      requires Valid() && currentStep == 2
      modifies this
      ensures Valid()
      ensures currentStep == 1 && formData == old(formData) && result == old(result)
    {
      currentStep := 1;
    }

    /** `handleCalculate`, given what `api.calculateAffordability` fetched for the target city:
        on success the computed result and step three, on failure nothing changes. */
    method HandleCalculate(fetched: Option<CostOfLiving>)
      requires Valid() && currentStep == 2
      modifies this
      ensures Valid()
      ensures formData == old(formData) && !isCalculating
      ensures fetched.Some? ==>
        currentStep == 3 && result == Some(Compute(ScoreRequest(formData), fetched.value))
      ensures fetched.None? ==> currentStep == 2 && result == old(result)
    {
      isCalculating := true;
      PassingFormHasPositiveSalary(formData);
      var calculationResult := CalculateAffordability(ScoreRequest(formData), fetched);
      if calculationResult.Some? {
        result := calculationResult;
        currentStep := 3;
      }
      isCalculating := false;
    }

    /** Step two's `handleNext`: refuses without a target city, otherwise calculates. */
    method SubmitStepTwo(fetched: Option<CostOfLiving>) returns (alert: Option<string>)
      requires Valid() && currentStep == 2
      modifies this
      ensures Valid()
      ensures alert == CheckStepTwo(formData.targetCity)
      ensures alert.Some? ==> currentStep == 2 && result == old(result)
      ensures alert.None? && fetched.Some? ==>
        currentStep == 3 && result == Some(Compute(ScoreRequest(formData), fetched.value))
      ensures alert.None? && fetched.None? ==> currentStep == 2 && result == old(result)
      ensures formData == old(formData)
    {
      alert := CheckStepTwo(formData.targetCity);
      if alert.None? {
        HandleCalculate(fetched);
      }
    }

    /** `handleSave`: the result handed to the save mutation, if there is one. */
    method HandleSave() returns (saved: Option<CalculationResult>)
      requires Valid()
      ensures saved == result
      ensures currentStep == 3 ==> saved.Some? && ResultMatchesForm(saved.value, formData)
    {
      saved := result;
    }

    /** `handleStartNew`: back to the initial page. */
    method HandleStartNew()
      requires Valid()
      modifies this
      ensures Valid()
      ensures currentStep == 1 && formData == InitialForm && result.None?
    {
      currentStep := 1;
      formData := InitialForm;
      result := None;
    }

    /** `handleCompareMore`: back to step two with the target cleared; the rest of the form stays. */
    method HandleCompareMore()
      requires Valid() && currentStep == 3
      modifies this
      ensures Valid()
      ensures currentStep == 2 && formData == old(formData).(targetCity := "") && result == old(result)
    {
      CheckIgnoresTargetAndCurrency(formData, "", formData.currency);
      currentStep := 2;
      formData := formData.(targetCity := "");
    }
  }
}
