/**
 * The input component: five input fields, their change handlers, validation,
 * and the submit button that publishes the inputs on the salary data channel.
 */
module SalaryCalculator {
  import opened Wrappers
  import opened SalaryChannel

  const BothInvalidMessage := "Please enter valid salary and superannuation rate with number format"
  const SalaryInvalidMessage := "Please enter valid salary with number format"
  const SuperRateInvalidMessage := "Please enter valid superannuation rate with number format"

  /** Field values a fresh component starts with. */
  const DefaultSalary: real := 0.0
  const DefaultPayPeriod := "Annually"
  const DefaultSuperRate: real := 11.0

  /** The six values of the pay period select, in display order. */
  const PeriodOptions: seq<string> := ["Annually", "Monthly", "Fortnightly", "Weekly", "Daily", "Hourly"]

  /**
   * `validateInputs`: the error message for the current salary and super
   * rate, or `None` when they may be published. `None` stands for `null`
   * in both the arguments and the result. A salary of zero is refused, a
   * super rate of zero is not; a zero salary hides a missing super rate.
   */
  function ValidateInputs(salary: Option<real>, superRate: Option<real>): (r: Option<string>)
    ensures r == Some(BothInvalidMessage) <==> salary.None? && superRate.None?
    ensures r == Some(SalaryInvalidMessage) <==>
              (salary.None? && superRate.Some?) || salary == Some(0.0)
    ensures r == Some(SuperRateInvalidMessage) <==>
              salary.Some? && salary.value != 0.0 && superRate.None?
    ensures r.None? <==> salary.Some? && salary.value != 0.0 && superRate.Some?
  {
    if salary.None? && superRate.None? then Some(BothInvalidMessage)
    else if salary.None? || salary.value == 0.0 then Some(SalaryInvalidMessage)
    else if superRate.None? then Some(SuperRateInvalidMessage)
    else None
  }

  /**
   * What the two numeric handlers store for a raw input: the parsed number
   * when `parseFloat(raw)` is a number and `isFinite(raw)` holds, `null`
   * otherwise. `parseFloat` and `isFinite` are JavaScript built-ins given
   * here as parameters: `parseFloat` yields `None` for NaN (and for an
   * infinite prefix, which `isFinite` refuses anyway).
   */
  function ParsedInput(raw: string, parseFloat: string -> Option<real>, isFinite: string -> bool): (r: Option<real>)
    ensures r.Some? <==> parseFloat(raw).Some? && isFinite(raw)
    ensures r.Some? ==> r == parseFloat(raw)
  {
    if parseFloat(raw).Some? && isFinite(raw) then parseFloat(raw) else None
  }

  class SalaryCalculator {
    var salary: Option<real>
    var payPeriod: string
    var superRate: Option<real>
    var includeSuper: bool
    var isMedExempt: bool

    /** Messages published on the salary data channel, oldest first. */
    var published: seq<SalaryMessage>
    /** Toasts dispatched, oldest first. */
    var toasts: seq<Toast>

    constructor ()
      ensures salary == Some(DefaultSalary) && payPeriod == DefaultPayPeriod
      ensures superRate == Some(DefaultSuperRate)
      ensures !includeSuper && !isMedExempt
      ensures published == [] && toasts == []
    {
      salary := Some(DefaultSalary);
      payPeriod := DefaultPayPeriod;
      superRate := Some(DefaultSuperRate);
      includeSuper := false;
      isMedExempt := false;
      published := [];
      toasts := [];
    }

    /** `handleSalaryChange`: stores the parsed salary, or `null` when the input is not a finite number. */
    method HandleSalaryChange(raw: string, parseFloat: string -> Option<real>, isFinite: string -> bool)
      modifies this`salary
      ensures salary == ParsedInput(raw, parseFloat, isFinite)
    {
      if parseFloat(raw).Some? && isFinite(raw) {
        salary := parseFloat(raw);
      } else {
        salary := None;
      }
    }

    /** `handleSuperRateChange`: the same rule for the super rate. */
    method HandleSuperRateChange(raw: string, parseFloat: string -> Option<real>, isFinite: string -> bool)
      modifies this`superRate
      ensures superRate == ParsedInput(raw, parseFloat, isFinite)
    {
      if parseFloat(raw).Some? && isFinite(raw) {
        superRate := parseFloat(raw);
      } else {
        superRate := None;
      }
    }

    /** `handlePeriodChange`: takes the selected value as it is. */
    method HandlePeriodChange(value: string)
      modifies this`payPeriod
      ensures payPeriod == value
    {
      payPeriod := value;
    }

    /** `handleIncludeSuperChange`: takes the checkbox state as it is. */
    method HandleIncludeSuperChange(checked: bool)
      modifies this`includeSuper
      ensures includeSuper == checked
    {
      includeSuper := checked;
    }

    /** `handleMedicareExemptionChange`: takes the checkbox state as it is. */
    method HandleMedicareExemptionChange(checked: bool)
      modifies this`isMedExempt
      ensures isMedExempt == checked
    {
      isMedExempt := checked;
    }

    /**
     * `handleButtonClick`: on a validation error, one error toast and no
     * message; otherwise exactly one message carrying the five current
     * fields and no toast. The input fields are never changed.
     */
    method HandleButtonClick()
      modifies this`published, this`toasts
      ensures var error := ValidateInputs(salary, superRate);
        if error.Some? then
          toasts == old(toasts) + [ErrorToast(error.value)] && published == old(published)
        else
          salary.Some? && superRate.Some? &&
          published == old(published) +
            [SalaryMessage(salary.value, payPeriod, superRate.value, includeSuper, isMedExempt)] &&
          toasts == old(toasts)
    {
      var error := ValidateInputs(salary, superRate);
      if error.Some? {
        ShowError(error.value);
        return;
      }
      var message := SalaryMessage(salary.value, payPeriod, superRate.value, includeSuper, isMedExempt);
      published := published + [message];
    }

    /** `showError`: dispatches one error toast. */
    method ShowError(message: string)
      modifies this`toasts
      ensures toasts == old(toasts) + [ErrorToast(message)]
    {
      toasts := toasts + [ErrorToast(message)];
    }
  }

  /** A fresh component refuses its default salary of zero. */
  lemma DefaultStateRefused()
    ensures ValidateInputs(Some(DefaultSalary), Some(DefaultSuperRate)) == Some(SalaryInvalidMessage)
  {
  }

  /** The code accepts a negative salary: only null and zero are refused. */
  lemma NegativeSalaryAccepted(salary: real, superRate: real)
    requires salary < 0.0
    ensures ValidateInputs(Some(salary), Some(superRate)).None?
  {
  }

  /**
   * Clicking submit on a freshly created component publishes nothing and
   * shows the salary message.
   */
  method FirstClick() returns (published: seq<SalaryMessage>, toasts: seq<Toast>)
    ensures published == []
    ensures toasts == [ErrorToast(SalaryInvalidMessage)]
  {
    var c := new SalaryCalculator();
    c.HandleButtonClick();
    published, toasts := c.published, c.toasts;
  }

  /**
   * Entering a salary that parses and clicking submit on an otherwise fresh
   * component publishes one message with the default period and rate.
   */
  method EnterSalaryAndClick(raw: string, parseFloat: string -> Option<real>, isFinite: string -> bool)
    returns (published: seq<SalaryMessage>, toasts: seq<Toast>)
    ensures var s := ParsedInput(raw, parseFloat, isFinite);
      if s.Some? && s.value != 0.0 then
        published == [SalaryMessage(s.value, DefaultPayPeriod, DefaultSuperRate, false, false)] && toasts == []
      else
        published == [] && toasts == [ErrorToast(SalaryInvalidMessage)]
  {
    var c := new SalaryCalculator();
    c.HandleSalaryChange(raw, parseFloat, isFinite);
    c.HandleButtonClick();
    published, toasts := c.published, c.toasts;
  }
}
