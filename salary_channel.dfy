/**
 * What the two components exchange: the message published on the salary data
 * channel, and the toast both raise to show an error.
 */
module SalaryChannel {

  /**
   * The five-field message the calculator publishes. The calculator publishes
   * only after validation, so `salary` and `superRate` are numbers here, never null.
   */
  datatype SalaryMessage = SalaryMessage(
    salary: real,
    payPeriod: string,
    superRate: real,
    includeSuper: bool,
    isMedExempt: bool)

  /** A toast notification as dispatched through `ShowToastEvent`. */
  datatype Toast = Toast(title: string, message: string, variant: string)

  /** The toast both components' `showError` raises. */
  function ErrorToast(message: string): (t: Toast)
    ensures t.title == "Error" && t.variant == "error"
    ensures t.message == message
  {
    Toast("Error", message, "error")
  }
}
