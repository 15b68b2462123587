# Salary pay calculator components, modelled in Dafny

This project models the client-side logic of two Lightning web components of a
pay calculator. The salary arithmetic itself runs in a server-side controller
that is not part of this model.

- **salaryCalculator** collects the salary, pay period, superannuation rate,
  include-super flag and Medicare-exemption flag. It validates them, and on
  submit it publishes a five-field message on the salary data channel.
  Invalid inputs raise an error toast instead.
- **salaryBreakDown** subscribes to that channel once per mount. For each
  message it upper-cases the pay period into the server's enum form and calls
  `calculateSalary`. On success it stores the seven annual figures. On failure
  it keeps them and shows an error toast. It then lays the figures out in two
  four-row tables, formatting numbers with comma thousands separators.

Modules:

- `SalaryCalculator` (salary_calculator.dfy): the input component as a class,
  plus the pure validator `ValidateInputs`.
- `SalaryBreakDown` (salary_breakdown.dfy): the breakdown component as a
  class. It also holds the pure upper-casing, the error-message extraction
  and the two table getters.
- `NumberFormat` (number_format.dfy): `formatNumber`'s regular-expression
  replacement, modelled position by position as the JavaScript engine
  applies it. It is proved equal to an independent definition of digit
  grouping.
- `SalaryChannel` (salary_channel.dfy): the channel message and the toast
  shared by both components.
- `Page` (page.dfy): both components joined by the channel.
- `Strings`, `Wrappers`: JavaScript's `join` with its inverse `split`, and
  `Option` for `null`.

The platform services are replaced by recorded effects:

- The message service becomes logs on the components: published messages,
  and subscribe/unsubscribe calls.
- Toasts become a log of `Toast` values.
- The handle that `subscribe` returns is a method parameter.
- The server calls are an outcome parameter, `Succeeded(result)` or
  `Failed(error)`.
- `parseFloat`, `isFinite` and `toFixed(2)` are function parameters.

Two behaviours of the code are worth stating outright:

- Validation refuses only `null` and exactly `0`, so a negative salary is
  published (`NegativeSalaryAccepted`).
- There is no pending state for divisors that have not loaded. The code
  divides by `undefined`, and the per-period columns are left out (see
  Left out).

## Model

| member | source | states |
|---|---|---|
| `SalaryCalculator.ValidateInputs` | force-app/main/default/lwc/salaryCalculator/salaryCalculator.js:93-102 | Each of the three messages and `null` is characterised both ways. The combined message is returned iff both values are null. The salary message is returned iff the salary is null with a rate present, or the salary is 0. The rate message is returned iff the salary is non-zero and the rate is null. `null` is returned iff the salary is non-null and non-zero and the rate is non-null, so a rate of 0 passes. |
| `SalaryCalculator.ParsedInput` | force-app/main/default/lwc/salaryCalculator/salaryCalculator.js:43-48 | The stored value is non-null exactly when `parseFloat` gives a number and `isFinite` holds. It is then that number. |
| `SalaryCalculator.SalaryCalculator.constructor` | force-app/main/default/lwc/salaryCalculator/salaryCalculator.js:6-12 | Defaults: salary 0, "Annually", rate 11, both flags false, nothing published or toasted. |
| `SalaryCalculator.SalaryCalculator.HandleSalaryChange` | force-app/main/default/lwc/salaryCalculator/salaryCalculator.js:41-49 | The salary becomes the parsed value, or null. Its frame lets no other field change. |
| `SalaryCalculator.SalaryCalculator.HandleSuperRateChange` | force-app/main/default/lwc/salaryCalculator/salaryCalculator.js:56-64 | The same rule, for the super rate only. |
| `SalaryCalculator.SalaryCalculator.HandlePeriodChange` | force-app/main/default/lwc/salaryCalculator/salaryCalculator.js:51-53 | The pay period is assigned as given, and nothing else changes. |
| `SalaryCalculator.SalaryCalculator.HandleIncludeSuperChange` | force-app/main/default/lwc/salaryCalculator/salaryCalculator.js:66-68 | The include-super flag is assigned as given, and nothing else changes. |
| `SalaryCalculator.SalaryCalculator.HandleMedicareExemptionChange` | force-app/main/default/lwc/salaryCalculator/salaryCalculator.js:70-72 | The exemption flag is assigned as given, and nothing else changes. |
| `SalaryCalculator.SalaryCalculator.HandleButtonClick` | force-app/main/default/lwc/salaryCalculator/salaryCalculator.js:76-90 | On a validation error: exactly one error toast with that message, and nothing published. Otherwise: exactly one message carrying the five current fields, and no toast. The input fields never change. |
| `SalaryCalculator.SalaryCalculator.ShowError` | force-app/main/default/lwc/salaryCalculator/salaryCalculator.js:104-112 | Appends one toast titled "Error" with variant "error". |
| `SalaryCalculator.DefaultStateRefused` | force-app/main/default/lwc/salaryCalculator/salaryCalculator.js:96-97 | The default salary 0 with rate 11 gets the salary message. |
| `SalaryCalculator.NegativeSalaryAccepted` | force-app/main/default/lwc/salaryCalculator/salaryCalculator.js:96-101 | A negative salary with any rate passes validation. |
| `SalaryCalculator.FirstClick` | force-app/main/default/lwc/salaryCalculator/salaryCalculator.js:76-81 | A first click on a fresh component publishes nothing and shows the salary message. |
| `SalaryCalculator.EnterSalaryAndClick` | force-app/main/default/lwc/salaryCalculator/salaryCalculator.js:41-90 | After a salary entry on a fresh component, a click publishes one message with the default period and rate iff the entry parsed to a non-zero number. Otherwise it shows the salary message. |
| `SalaryChannel.ErrorToast` | force-app/main/default/lwc/salaryBreakDown/salaryBreakDown.js:131-139 | An error toast has title "Error", variant "error" and the given message. |
| `SalaryBreakDown.UpperChar` | force-app/main/default/lwc/salaryBreakDown/salaryBreakDown.js:118 | A lower-case letter `a`–`z` becomes its capital (code point minus 32); every other character is unchanged. |
| `SalaryBreakDown.ConvertToEnum` | force-app/main/default/lwc/salaryBreakDown/salaryBreakDown.js:117-119 | The result has the same length, and each character is upper-cased. |
| `SalaryBreakDown.ConvertToEnumIdempotent` | force-app/main/default/lwc/salaryBreakDown/salaryBreakDown.js:117-119 | Converting twice equals converting once. |
| `Page.PeriodOptionsToEnums` | force-app/main/default/lwc/salaryCalculator/salaryCalculator.js:15-22 | The six select values Annually … Hourly convert, in order, to ANNUALLY … HOURLY. |
| `SalaryBreakDown.ItemTexts` | force-app/main/default/lwc/salaryBreakDown/salaryBreakDown.js:124 | One text per array element: its message, or "" where it has none. |
| `SalaryBreakDown.ErrorMessage` | force-app/main/default/lwc/salaryBreakDown/salaryBreakDown.js:122-127 | An array body gives its messages joined with ", ". Otherwise a string `body.message` is used as is. Otherwise the result is "Unknown error". |
| `SalaryBreakDown.ErrorMessageExamples` | force-app/main/default/lwc/salaryBreakDown/salaryBreakDown.js:122-127 | `[{a},{b}]` gives "a, b", `{message:"x"}` gives "x", and a non-string message gives "Unknown error". |
| `SalaryBreakDown.EmptyArrayBodyMessage` | force-app/main/default/lwc/salaryBreakDown/salaryBreakDown.js:123-124 | An empty array body gives "", not "Unknown error". |
| `SalaryBreakDown.SingleErrorMessage` | force-app/main/default/lwc/salaryBreakDown/salaryBreakDown.js:123-124 | A one-element array body gives that element's message unchanged. |
| `SalaryBreakDown.ArrayErrorMessageLength` | force-app/main/default/lwc/salaryBreakDown/salaryBreakDown.js:124 | The joined message is as long as all element texts plus two characters per separator. |
| `SalaryBreakDown.Lookup` | force-app/main/default/lwc/salaryBreakDown/salaryBreakDown.js:109-111 | A key present gives its value, and a missing key gives `undefined`. |
| `SalaryBreakDown.SalaryBreakDown.constructor` | force-app/main/default/lwc/salaryBreakDown/salaryBreakDown.js:13-27 | All seven annual figures are 0. The subscription is the initial 0. Divisors are undefined. No calls have been made. |
| `SalaryBreakDown.SalaryBreakDown.ConnectedCallback` | force-app/main/default/lwc/salaryBreakDown/salaryBreakDown.js:42-44 | Mounting behaves as `getSalaryData`. |
| `SalaryBreakDown.SalaryBreakDown.GetSalaryData` | force-app/main/default/lwc/salaryBreakDown/salaryBreakDown.js:51-59 | One subscribe call, storing its handle, exactly when the stored subscription is falsy. Otherwise nothing changes. |
| `SalaryBreakDown.SalaryBreakDown.DisconnectedCallback` | force-app/main/default/lwc/salaryBreakDown/salaryBreakDown.js:46-49 | Unsubscribes the stored value, whatever it is, and stores `null`. |
| `SalaryBreakDown.SubscribeTwice` | force-app/main/default/lwc/salaryBreakDown/salaryBreakDown.js:51-59 | Two subscribe requests in a row give exactly one subscribe call. |
| `SalaryBreakDown.Remount` | force-app/main/default/lwc/salaryBreakDown/salaryBreakDown.js:46-59 | Connect, disconnect, connect: the second connect subscribes afresh with the new handle. |
| `SalaryBreakDown.DisconnectTwice` | force-app/main/default/lwc/salaryBreakDown/salaryBreakDown.js:46-49 | A second disconnect unsubscribes `null` and leaves the subscription cleared. |
| `SalaryBreakDown.SalaryBreakDown.HandleMessage` | force-app/main/default/lwc/salaryBreakDown/salaryBreakDown.js:62-76 | One request with the upper-cased pay period. Salary, include-super, rate and exemption pass through unchanged. The stored figures and toasts follow the outcome. |
| `SalaryBreakDown.SalaryBreakDown.CalculateAnnualTakeHome` | force-app/main/default/lwc/salaryBreakDown/salaryBreakDown.js:77-103 | On success the seven annual fields take the seven result fields (income → take-home, super → superannuation, …) with no toast. On failure the figures are unchanged and exactly one error toast carries the extracted message. |
| `SalaryBreakDown.SalaryBreakDown.HandleError` | force-app/main/default/lwc/salaryBreakDown/salaryBreakDown.js:121-129 | Appends exactly one error toast with the extracted message. |
| `SalaryBreakDown.FailureKeepsTotals` | force-app/main/default/lwc/salaryBreakDown/salaryBreakDown.js:91-102 | A failure after a success keeps the successful figures and raises one toast. |
| `SalaryBreakDown.SalaryBreakDown.WiredDivisors` | force-app/main/default/lwc/salaryBreakDown/salaryBreakDown.js:106-115 | Data sets the three divisors from their keys. An error or no data changes nothing. |
| `SalaryBreakDown.SalaryBreakDown.IncomeData` | force-app/main/default/lwc/salaryBreakDown/salaryBreakDown.js:146-191 | Four rows, in order: Take home pay, Taxable income, Superannuation, Total taxes. Each annual cell is `formatNumber` of its stored figure. |
| `SalaryBreakDown.SalaryBreakDown.TaxData` | force-app/main/default/lwc/salaryBreakDown/salaryBreakDown.js:194-233 | Four rows, in order: Income Tax, LITO, Medicare Levy, Total taxes. The LITO cell is the negation of its formatted figure, and the others are `formatNumber` of their figures. |
| `SalaryBreakDown.TotalTaxesRowShared` | force-app/main/default/lwc/salaryBreakDown/salaryBreakDown.js:223-231 | The "Total taxes" row is identical in both tables. |
| `NumberFormat.DigitRunMaximal` | force-app/main/default/lwc/salaryBreakDown/salaryBreakDown.js:142 | The lookahead's digit run is maximal: all digits, with no digit after it. |
| `NumberFormat.CommaPositions` | force-app/main/default/lwc/salaryBreakDown/salaryBreakDown.js:142 | In a fixed-point text, a comma goes before an integer digit iff it is not the first one and the number of digits from it to the point is a multiple of three. |
| `NumberFormat.FixedMarks` | force-app/main/default/lwc/salaryBreakDown/salaryBreakDown.js:142 | On a fixed-point text, the regular expression matches exactly at the group boundaries inside the integer part. |
| `NumberFormat.StripInsertCommas` | force-app/main/default/lwc/salaryBreakDown/salaryBreakDown.js:142 | Whatever positions are matched, deleting the commas from the result gives back a comma-free input. |
| `NumberFormat.DigitGroups` | force-app/main/default/lwc/salaryBreakDown/salaryBreakDown.js:142 | The intended grouping. The first group has 1–3 digits, every later group has exactly 3, and together they spell the digits. |
| `NumberFormat.GroupThousandsFixed` | force-app/main/default/lwc/salaryBreakDown/salaryBreakDown.js:142 | On `toFixed(2)` text, the replacement keeps the sign and decimals and writes the integer part as its digit groups joined by commas. |
| `NumberFormat.GroupedLayout` | force-app/main/default/lwc/salaryBreakDown/salaryBreakDown.js:142 | Splitting the integer part at commas gives back the digit groups. Commas occur only inside the integer part: never first, and never right after "-". |
| `NumberFormat.StripGroupThousands` | force-app/main/default/lwc/salaryBreakDown/salaryBreakDown.js:142 | Deleting all commas gives back any comma-free input. |
| `NumberFormat.FormatNumberFixed` | force-app/main/default/lwc/salaryBreakDown/salaryBreakDown.js:141-144 | `formatNumber` of a value is its fixed text with grouped integer digits, and it strips back to that text. |
| `NumberFormat.WeeklyExample` | force-app/main/default/lwc/salaryBreakDown/salaryBreakDown.js:142 | "2307.69" becomes "2,307.69". |
| `NumberFormat.NegativeExample` | force-app/main/default/lwc/salaryBreakDown/salaryBreakDown.js:142 | "-123456.00" becomes "-123,456.00": no comma between the minus and a leading group of three. |
| `Page.Submit` | force-app/main/default/lwc/salaryCalculator/salaryCalculator.js:76-90 | Click then channel delivery. Valid inputs and a subscribed breakdown give one request built from the calculator's fields, with the period upper-cased. Otherwise no request is sent. |

## Left out

- The weekly, fortnightly and monthly columns of both tables are not modelled. They divide by the divisors, give `NaN` while the divisors are `undefined`, and use floating point.
- `SalaryBreakDown.SalaryBreakDown.IncomeData`: only the label and annual column of each row are modelled, because the other three columns are those divisions.
- `SalaryBreakDown.SalaryBreakDown.TaxData`: the LITO cells apply JavaScript's unary minus to a string, which yields a number or `NaN`. This is kept symbolic as `NegatedText`, and the coercion itself is not modelled.
- `toFixed(2)` is a parameter. Its rounding and its exponent form at 10^21 and above are not modelled. Comma grouping is proved on well-formed fixed-point text (`NumberFormat.Fixed`).
- `parseFloat` and `isFinite` are parameters. The result strings from the server are taken as already-parsed reals.
- `calculateSalary` and `getPeriodicDivisors` are server code. A calculation is an outcome parameter, and the call and its completion happen in one step.
- Concurrency is not modelled. This covers asynchronous completion order, one result overwriting another (last-write-wins), and divisors arriving before or after a result.
- The message service, `MessageContext`, the wire adapters and `ShowToastEvent` are platform services. They are represented by recorded calls and toasts, and the subscribe handle is a parameter. Delivery to subscribers is modelled in `Page.Submit` only.
- `console.error` in `wiredDivisors` is a diagnostic and is not modelled.
- `salaryFormatted` is not modelled: it formats with `Intl.NumberFormat`, which depends on locale.
- Unused state is not modelled: `taxYear`, `taxYearOptions`, `errorMessage`, `hasError`, `weeklyTakeHome`, `fortnightlyTakeHome`, the `salaryData` map, and the breakdown's own `isMedExempt`.
- `SalaryBreakDown.ErrorMessage`: an error with no `body` makes the source throw; the payload type always has a body. Array elements whose `message` is a number or an object are not modelled. An element's message is a string or absent, and absent joins as "".
- `SalaryBreakDown.UpperChar`: only `a`–`z` get a capital. JavaScript's Unicode case mapping of other letters (for example "é" becoming "É") is not modelled, and those characters are kept unchanged. The pay period values are ASCII.
- `SalaryBreakDown.ConvertToEnum`: only `a`–`z` are upper-cased. JavaScript's full Unicode case mapping (for example "ß" becoming "SS") is not modelled. The pay period values are ASCII.
