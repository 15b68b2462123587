/**
 * The two components on one page, joined by the salary data channel: a
 * message the calculator publishes reaches the breakdown synchronously
 * when the breakdown holds a subscription.
 */
module Page {
  import opened Wrappers
  import opened SalaryChannel
  import opened SalaryCalculator
  import opened SalaryBreakDown

  /** Each pay period option upper-cases to the enum name the calculation expects. */
  lemma PeriodOptionsToEnums()
    ensures |PeriodOptions| == |PayPeriodEnums|
    ensures forall k :: 0 <= k < |PeriodOptions| ==> ConvertToEnum(PeriodOptions[k]) == PayPeriodEnums[k]
  {
    forall k | 0 <= k < |PeriodOptions|
      ensures ConvertToEnum(PeriodOptions[k]) == PayPeriodEnums[k]
    {
      var option, name := PeriodOptions[k], PayPeriodEnums[k];
      assert |option| == |name| && forall q :: 0 <= q < |option| ==> UpperChar(option[q]) == name[q];
      UpperCasesTo(option, name);
    }
  }

  lemma UpperCasesTo(s: string, e: string)
    requires |s| == |e|
    requires forall q :: 0 <= q < |s| ==> UpperChar(s[q]) == e[q]
    ensures ConvertToEnum(s) == e
  {
  }

  /**
   * A click on submit followed by delivery on the channel: when the inputs
   * pass validation and the breakdown is subscribed, the breakdown sends one
   * request built from the calculator's fields, with the pay period
   * upper-cased; otherwise it sends nothing.
   */
  method Submit(calculator: SalaryCalculator, view: SalaryBreakDown, outcome: CalcOutcome)
    modifies calculator`published, calculator`toasts
    modifies view`requests, view`toasts, view`annualTakeHome, view`annualTaxableIncome,
      view`annualSuperannuation, view`annualTotalTaxes, view`annualIncomeTax, view`annualMedLevy,
      view`annualLIO
    ensures var valid := ValidateInputs(calculator.salary, calculator.superRate).None?;
      if valid && view.subscription.IsTruthy() then
        calculator.salary.Some? && calculator.superRate.Some? &&
        view.requests == old(view.requests) +
          [CalcRequest(calculator.salary.value, ConvertToEnum(calculator.payPeriod), calculator.includeSuper,
                       calculator.superRate.value, calculator.isMedExempt)]
      else
        view.requests == old(view.requests)
  {
    var before := |calculator.published|;
    calculator.HandleButtonClick();
    if |calculator.published| > before && view.subscription.IsTruthy() {
      var message := calculator.published[before];
      view.HandleMessage(message, outcome);
    }
  }
}
