/**
 * The breakdown component: it subscribes to the salary data channel, sends
 * each message it receives to the server-side calculation, stores the seven
 * annual figures that come back, reports failures as toasts, and lays the
 * figures out in two tables.
 */
module SalaryBreakDown {
  import opened Wrappers
  import opened Strings
  import opened SalaryChannel
  import opened NumberFormat

  /** The enum names the calculation endpoint expects, one per pay period option. */
  const PayPeriodEnums: seq<string> := ["ANNUALLY", "MONTHLY", "FORTNIGHTLY", "WEEKLY", "DAILY", "HOURLY"]

  const UnknownError := "Unknown error"

  /** Upper-casing of one character; only `a`..`z` have an upper-case form here. */
  function UpperChar(c: char): (u: char)
    ensures !('a' <= u <= 'z')
    ensures 'a' <= c <= 'z' ==> u as int == c as int - 32
    ensures !('a' <= c <= 'z') ==> u == c
  {
    if 'a' <= c <= 'z' then (c as int - 32) as char else c
  }

  /** `convertToEnum`: `payPeriod.toUpperCase()`, character by character. */
  function ConvertToEnum(payPeriod: string): (r: string)
    ensures |r| == |payPeriod|
    ensures forall k :: 0 <= k < |r| ==> r[k] == UpperChar(payPeriod[k])
  {
    if |payPeriod| == 0 then "" else [UpperChar(payPeriod[0])] + ConvertToEnum(payPeriod[1..])
  }

  /** Upper-casing twice is upper-casing once. */
  lemma ConvertToEnumIdempotent(payPeriod: string)
    ensures ConvertToEnum(ConvertToEnum(payPeriod)) == ConvertToEnum(payPeriod)
  {
  }

  /** One element of an array error body; `None` when it has no message, which `join` writes as "". */
  datatype ErrorItem = ErrorItem(message: Option<string>)

  /**
   * The `body` of an error the calculation call rejects with: an array of
   * errors, or an object whose `message` is a string (`Some`) or is not (`None`).
   */
  datatype ErrorBody = ArrayBody(items: seq<ErrorItem>) | ObjectBody(message: Option<string>)

  datatype ErrorPayload = ErrorPayload(body: ErrorBody)

  /** What `join` writes for each element of an array body. */
  function ItemTexts(items: seq<ErrorItem>): (texts: seq<string>)
    ensures |texts| == |items|
    ensures forall k :: 0 <= k < |items| ==> texts[k] == items[k].message.GetOr("")
  {
    seq(|items|, k requires 0 <= k < |items| => items[k].message.GetOr(""))
  }

  /**
   * The message `handleError` shows: an array body's messages joined with
   * ", ", otherwise a string `body.message`, otherwise "Unknown error".
   */
  function ErrorMessage(error: ErrorPayload): (m: string)
    ensures error.body.ArrayBody? ==> m == Join(ItemTexts(error.body.items), ", ")
    ensures error.body.ObjectBody? && error.body.message.Some? ==> m == error.body.message.value
    ensures error.body.ObjectBody? && error.body.message.None? ==> m == UnknownError
  {
    match error.body
    case ArrayBody(items) => Join(ItemTexts(items), ", ")
    case ObjectBody(message) => message.GetOr(UnknownError)
  }

  /** The three shapes of error payload and the message each gives. */
  lemma ErrorMessageExamples()
    ensures ErrorMessage(ErrorPayload(ArrayBody([ErrorItem(Some("a")), ErrorItem(Some("b"))]))) == "a, b"
    ensures ErrorMessage(ErrorPayload(ObjectBody(Some("x")))) == "x"
    ensures ErrorMessage(ErrorPayload(ObjectBody(None))) == UnknownError
  {
  }

  /** An empty array body gives an empty message, not "Unknown error". */
  lemma EmptyArrayBodyMessage()
    ensures ErrorMessage(ErrorPayload(ArrayBody([]))) == ""
  {
  }

  /** A one-element array body gives that element's message unchanged. */
  lemma SingleErrorMessage(text: string)
    ensures ErrorMessage(ErrorPayload(ArrayBody([ErrorItem(Some(text))]))) == text
  {
  }

  /** An array body's message holds every element's text and one ", " between each two. */
  lemma ArrayErrorMessageLength(items: seq<ErrorItem>)
    requires |items| >= 1
    ensures |ErrorMessage(ErrorPayload(ArrayBody(items)))|
            == |Concat(ItemTexts(items))| + 2 * (|items| - 1)
  {
    JoinLength(ItemTexts(items), ", ");
  }

  /** The stored subscription: JavaScript's initial 0, `null` after disconnecting, or a live handle. */
  datatype Subscription = Unset | Cleared | Active(handle: nat) {
    /** JavaScript truthiness: 0 and `null` are falsy, a subscription object is not. */
    predicate IsTruthy()
    {
      Active?
    }
  }

  /** Calls made on the message service. */
  datatype BusCall = Subscribe(handle: nat) | Unsubscribe(subscription: Subscription)

  /** The arguments of `calculateSalary`. */
  datatype CalcRequest = CalcRequest(
    inputSalary: real,
    payPeriod: string,
    includeSuper: bool,
    superRate: real,
    isMedExempt: bool)

  /** The annual figures `calculateSalary` returns, already parsed. */
  datatype CalcResult = CalcResult(
    annualIncome: real,
    annualTaxableIncome: real,
    annualSuper: real,
    annualTaxes: real,
    annualIncomeTax: real,
    annualMedLevy: real,
    annualLIO: real)

  /** How the server call ends. */
  datatype CalcOutcome = Succeeded(result: CalcResult) | Failed(error: ErrorPayload)

  /** What the wired `getPeriodicDivisors` delivers: data, an error, or nothing yet. */
  datatype DivisorWire = DivisorData(data: map<string, real>) | DivisorError | NoDivisors

  /** `data[key]`: `None` stands for `undefined` when the key is missing. */
  function Lookup(data: map<string, real>, key: string): (v: Option<real>)
    ensures v.Some? <==> key in data
    ensures v.Some? ==> v.value == data[key]
  {
    if key in data then Some(data[key]) else None
  }

  /** A table cell: a formatted figure, or the unary minus the source applies to one. */
  datatype Cell = Text(text: string) | NegatedText(text: string)

  /** A table row: its `label` (here `caption`) and its annual column. */
  datatype Row = Row(caption: string, annual: Cell)

  const IncomeLabels: seq<string> := ["Take home pay", "Taxable income", "Superannuation", "Total taxes"]
  const TaxLabels: seq<string> := ["Income Tax", "LITO (Low Income Tax Offset)", "Medicare Levy", "Total taxes"]

  class SalaryBreakDown {
    var annualTakeHome: real
    var annualTaxableIncome: real
    var annualSuperannuation: real
    var annualTotalTaxes: real
    var annualIncomeTax: real
    var annualMedLevy: real
    var annualLIO: real
    var subscription: Subscription
    var weeksPerYear: Option<real>
    var fortnightsPerYear: Option<real>
    var monthsPerYear: Option<real>

    /** Calls made on the message service, oldest first. */
    var busCalls: seq<BusCall>
    /** Requests sent to `calculateSalary`, oldest first. */
    var requests: seq<CalcRequest>
    /** Toasts dispatched, oldest first. */
    var toasts: seq<Toast>

    /** The seven stored annual figures, in the order of the result fields they come from. */
    function Totals(): CalcResult
      reads this
    {
      CalcResult(annualTakeHome, annualTaxableIncome, annualSuperannuation, annualTotalTaxes,
                 annualIncomeTax, annualMedLevy, annualLIO)
    }

    constructor ()
      ensures Totals() == CalcResult(0.0, 0.0, 0.0, 0.0, 0.0, 0.0, 0.0)
      ensures subscription == Unset
      ensures weeksPerYear.None? && fortnightsPerYear.None? && monthsPerYear.None?
      ensures busCalls == [] && requests == [] && toasts == []
    {
      annualTakeHome, annualTaxableIncome, annualSuperannuation, annualTotalTaxes := 0.0, 0.0, 0.0, 0.0;
      annualIncomeTax, annualMedLevy, annualLIO := 0.0, 0.0, 0.0;
      subscription := Unset;
      weeksPerYear, fortnightsPerYear, monthsPerYear := None, None, None;
      busCalls, requests, toasts := [], [], [];
    }

    /** `connectedCallback`; `handle` is what the message service's `subscribe` would return. */
    method ConnectedCallback(handle: nat)
      modifies this`subscription, this`busCalls
      ensures if old(subscription).IsTruthy() then
          subscription == old(subscription) && busCalls == old(busCalls)
        else
          subscription == Active(handle) && busCalls == old(busCalls) + [Subscribe(handle)]
    {
      GetSalaryData(handle);
    }

    /** `disconnectedCallback`: unsubscribes whatever is stored and clears it to `null`. */
    method DisconnectedCallback()
      modifies this`subscription, this`busCalls
      ensures busCalls == old(busCalls) + [Unsubscribe(old(subscription))]
      ensures subscription == Cleared
    {
      busCalls := busCalls + [Unsubscribe(subscription)];
      subscription := Cleared;
    }

    /** `getSalaryData`: subscribes only while no subscription is stored. */
    method GetSalaryData(handle: nat)
      modifies this`subscription, this`busCalls
      ensures if old(subscription).IsTruthy() then
          subscription == old(subscription) && busCalls == old(busCalls)
        else
          subscription == Active(handle) && busCalls == old(busCalls) + [Subscribe(handle)]
    {
      if !subscription.IsTruthy() {
        busCalls := busCalls + [Subscribe(handle)];
        subscription := Active(handle);
      }
    }

    /**
     * `handleMessage`: forwards the message to the calculation with the pay
     * period upper-cased and the other four fields unchanged.
     */
    method HandleMessage(message: SalaryMessage, outcome: CalcOutcome)
      modifies this`requests, this`toasts, this`annualTakeHome, this`annualTaxableIncome,
        this`annualSuperannuation, this`annualTotalTaxes, this`annualIncomeTax, this`annualMedLevy,
        this`annualLIO
      ensures requests == old(requests) + [CalcRequest(message.salary, ConvertToEnum(message.payPeriod),
                                                       message.includeSuper, message.superRate, message.isMedExempt)]
      ensures outcome.Succeeded? ==> Totals() == outcome.result && toasts == old(toasts)
      ensures outcome.Failed? ==>
        Totals() == old(Totals()) && toasts == old(toasts) + [ErrorToast(ErrorMessage(outcome.error))]
    {
      var payPeriodEnum := ConvertToEnum(message.payPeriod);
      CalculateAnnualTakeHome(message.salary, payPeriodEnum, message.includeSuper, message.superRate,
                              message.isMedExempt, outcome);
    }

    /**
     * `calculateAnnualTakeHome`: one request to the server; on success the
     * seven annual figures are replaced by the result's, on failure they are
     * kept and one error toast is raised.
     */
    method CalculateAnnualTakeHome(salary: real, payPeriod: string, includeSuper: bool, superRate: real,
                                   isMedExempt: bool, outcome: CalcOutcome)
      modifies this`requests, this`toasts, this`annualTakeHome, this`annualTaxableIncome,
        this`annualSuperannuation, this`annualTotalTaxes, this`annualIncomeTax, this`annualMedLevy,
        this`annualLIO
      ensures requests == old(requests) + [CalcRequest(salary, payPeriod, includeSuper, superRate, isMedExempt)]
      ensures outcome.Succeeded? ==>
        annualTakeHome == outcome.result.annualIncome &&
        annualTaxableIncome == outcome.result.annualTaxableIncome &&
        annualSuperannuation == outcome.result.annualSuper &&
        annualTotalTaxes == outcome.result.annualTaxes &&
        annualIncomeTax == outcome.result.annualIncomeTax &&
        annualMedLevy == outcome.result.annualMedLevy &&
        annualLIO == outcome.result.annualLIO &&
        toasts == old(toasts)
      ensures outcome.Failed? ==>
        Totals() == old(Totals()) && toasts == old(toasts) + [ErrorToast(ErrorMessage(outcome.error))]
    {
      requests := requests + [CalcRequest(salary, payPeriod, includeSuper, superRate, isMedExempt)];
      match outcome
      case Succeeded(result) =>
        annualTakeHome := result.annualIncome;
        annualTaxableIncome := result.annualTaxableIncome;
        annualSuperannuation := result.annualSuper;
        annualTotalTaxes := result.annualTaxes;
        annualIncomeTax := result.annualIncomeTax;
        annualMedLevy := result.annualMedLevy;
        annualLIO := result.annualLIO;
      case Failed(error) =>
        HandleError(error);
    }

    /** `wiredDivisors`: data sets the three divisors (`undefined` for a missing key); an error changes nothing. */
    method WiredDivisors(wire: DivisorWire)
      modifies this`weeksPerYear, this`fortnightsPerYear, this`monthsPerYear
      ensures wire.DivisorData? ==>
        monthsPerYear == Lookup(wire.data, "Months Per Year") &&
        weeksPerYear == Lookup(wire.data, "Weeks Per Year") &&
        fortnightsPerYear == Lookup(wire.data, "Fortnights Per Year")
      ensures !wire.DivisorData? ==>
        monthsPerYear == old(monthsPerYear) && weeksPerYear == old(weeksPerYear) &&
        fortnightsPerYear == old(fortnightsPerYear)
    {
      if wire.DivisorData? {
        monthsPerYear := Lookup(wire.data, "Months Per Year");
        weeksPerYear := Lookup(wire.data, "Weeks Per Year");
        fortnightsPerYear := Lookup(wire.data, "Fortnights Per Year");
      }
    }

    /** `handleError`: one error toast with the message the payload gives. */
    method HandleError(error: ErrorPayload)
      modifies this`toasts
      ensures toasts == old(toasts) + [ErrorToast(ErrorMessage(error))]
    {
      var message := ErrorMessage(error);
      toasts := toasts + [ErrorToast(message)];
    }

    /** `incomeData`: four rows in a fixed order, each showing its stored annual figure formatted. */
    function IncomeData(toFixed: real -> string): (rows: seq<Row>)
      reads this
      ensures |rows| == 4
      ensures forall k :: 0 <= k < 4 ==> rows[k].caption == IncomeLabels[k]
      ensures rows[0].annual == Text(FormatNumber(annualTakeHome, toFixed))
      ensures rows[1].annual == Text(FormatNumber(annualTaxableIncome, toFixed))
      ensures rows[2].annual == Text(FormatNumber(annualSuperannuation, toFixed))
      ensures rows[3].annual == Text(FormatNumber(annualTotalTaxes, toFixed))
    {
      [ Row("Take home pay", Text(FormatNumber(annualTakeHome, toFixed))),
        Row("Taxable income", Text(FormatNumber(annualTaxableIncome, toFixed))),
        Row("Superannuation", Text(FormatNumber(annualSuperannuation, toFixed))),
        Row("Total taxes", Text(FormatNumber(annualTotalTaxes, toFixed))) ]
    }

    /** `taxData`: four rows in a fixed order; the offset row negates its formatted figure. */
    function TaxData(toFixed: real -> string): (rows: seq<Row>)
      reads this
      ensures |rows| == 4
      ensures forall k :: 0 <= k < 4 ==> rows[k].caption == TaxLabels[k]
      ensures rows[0].annual == Text(FormatNumber(annualIncomeTax, toFixed))
      ensures rows[1].annual == NegatedText(FormatNumber(annualLIO, toFixed))
      ensures rows[2].annual == Text(FormatNumber(annualMedLevy, toFixed))
      ensures rows[3].annual == Text(FormatNumber(annualTotalTaxes, toFixed))
    {
      [ Row("Income Tax", Text(FormatNumber(annualIncomeTax, toFixed))),
        Row("LITO (Low Income Tax Offset)", NegatedText(FormatNumber(annualLIO, toFixed))),
        Row("Medicare Levy", Text(FormatNumber(annualMedLevy, toFixed))),
        Row("Total taxes", Text(FormatNumber(annualTotalTaxes, toFixed))) ]
    }
  }

  /** The "Total taxes" row is the same in both tables. */
  lemma TotalTaxesRowShared(view: SalaryBreakDown, toFixed: real -> string)
    ensures view.IncomeData(toFixed)[3] == view.TaxData(toFixed)[3]
  {
  }

  /** Mounting and asking to subscribe again subscribes once; the second request is a no-op. */
  method SubscribeTwice(first: nat, second: nat) returns (calls: seq<BusCall>, subscription: Subscription)
    ensures calls == [Subscribe(first)]
    ensures subscription == Active(first)
  {
    var view := new SalaryBreakDown();
    view.ConnectedCallback(first);
    view.GetSalaryData(second);
    calls, subscription := view.busCalls, view.subscription;
  }

  /** After a disconnect the stored handle is cleared, so the next connect subscribes afresh. */
  method Remount(first: nat, second: nat) returns (calls: seq<BusCall>, subscription: Subscription)
    ensures calls == [Subscribe(first), Unsubscribe(Active(first)), Subscribe(second)]
    ensures subscription == Active(second)
  {
    var view := new SalaryBreakDown();
    view.ConnectedCallback(first);
    view.DisconnectedCallback();
    view.ConnectedCallback(second);
    calls, subscription := view.busCalls, view.subscription;
  }

  /** Disconnecting twice passes the cleared `null` to the second unsubscribe and stays cleared. */
  method DisconnectTwice(handle: nat) returns (calls: seq<BusCall>, subscription: Subscription)
    ensures calls == [Subscribe(handle), Unsubscribe(Active(handle)), Unsubscribe(Cleared)]
    ensures subscription == Cleared
  {
    var view := new SalaryBreakDown();
    view.ConnectedCallback(handle);
    view.DisconnectedCallback();
    view.DisconnectedCallback();
    calls, subscription := view.busCalls, view.subscription;
  }

  /** A failed calculation after a successful one keeps the earlier figures and raises one toast. */
  method FailureKeepsTotals(message: SalaryMessage, result: CalcResult, error: ErrorPayload)
    returns (totals: CalcResult, toasts: seq<Toast>)
    ensures totals == result
    ensures toasts == [ErrorToast(ErrorMessage(error))]
  {
    var view := new SalaryBreakDown();
    view.HandleMessage(message, Succeeded(result));
    view.HandleMessage(message, Failed(error));
    totals, toasts := view.Totals(), view.toasts;
  }
}
