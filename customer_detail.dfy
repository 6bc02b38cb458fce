/** The payment timeline of the customer page: the status badge each payment gets and
  * whether its "Mark Paid" button is offered. */
module CustomerDetail {
  import opened Calendar
  import opened Records

  /** The three badges of the timeline. */
  datatype Shown = ShownPaid | ShownOverdue | ShownUpcoming

  /** `getPaymentStatus`: a payment stored as paid shows paid whatever its dates; any other
    * payment shows overdue when its due date is in the past (`isPast`), and upcoming
    * otherwise, whatever label is stored for it. */
  function PaymentStatus(status: Status, dueDate: Instant, now: Instant): (r: Shown)
    ensures r == ShownPaid <==> status == Paid
    ensures r == ShownOverdue <==> status != Paid && Before(dueDate, now)
    ensures r == ShownUpcoming <==> status != Paid && !Before(dueDate, now)
  {
    if status == Paid then ShownPaid
    else if Before(dueDate, now) && status != Paid then ShownOverdue
    else ShownUpcoming
  }

  /** The "Mark Paid" button is rendered for every payment not shown as paid. */
  function ShowsMarkPaid(p: Payment, now: Instant): (show: bool)
    ensures show <==> p.status != Paid
  {
    PaymentStatus(p.status, p.dueDate, now) != ShownPaid
  }

}
