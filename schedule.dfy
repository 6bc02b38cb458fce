/** The payment schedule generated when a purchase is created (`calculatePayments`):
  * the drafts of the payment rows, with the status each is stored with. */
module Schedule {
  import opened Wrappers
  import opened Calendar
  import opened Money
  import opened Records
  import opened CustomerDetail

  /** A payment row to be created: amount, due date, stored status and paid date. */
  datatype Draft = Draft(amount: Cents, dueDate: Instant, status: Status, paidDate: Option<Instant>)

  /** Installments per payment term; "monthly" and every unrecognised term get six. */
  function InstallmentCount(terms: string): (n: nat)
    ensures terms == "quarterly" ==> n == 4
    ensures terms == "yearly" ==> n == 3
    ensures terms != "quarterly" && terms != "yearly" ==> n == 6
  {
    if terms == "quarterly" then 4 else if terms == "yearly" then 3 else 6
  }

  /** `k` payment periods after `d`: three months per quarter, a year, or else a month. */
  function AddPeriod(terms: string, d: Instant, k: int): (r: Instant)
    ensures r.month == d.month + k * (if terms == "quarterly" then 3 else if terms == "yearly" then 12 else 1)
    ensures r.ms == d.ms && r.day <= d.day
    ensures r.day == d.day || r.day == DaysInMonth(r.month) - 1
  {
    if terms == "quarterly" then AddMonths(d, k * 3)
    else if terms == "yearly" then AddYears(d, k)
    else AddMonths(d, k)
  }

  /** Later periods fall strictly later, and period zero is the start date itself. */
  lemma AddPeriodIncreasing(terms: string, d: Instant, j: int, k: int)
    requires j < k
    ensures Before(AddPeriod(terms, d, j), AddPeriod(terms, d, k))
    ensures AddPeriod(terms, d, 0) == d
  {
    if terms == "quarterly" {
      AddMonthsStrictlyIncreasing(d, j * 3, k * 3);
    } else if terms == "yearly" {
      AddMonthsStrictlyIncreasing(d, 12 * j, 12 * k);
    } else {
      AddMonthsStrictlyIncreasing(d, j, k);
    }
  }

  /** The `k`-th installment draft (from 1): not paid, and stored as overdue exactly when
    * it is already due before `now`. */
  function Installment(amount: Cents, terms: string, purchaseDate: Instant, k: int, now: Instant): Draft
  {
    var due := AddPeriod(terms, purchaseDate, k);
    Draft(amount, due, if Before(due, now) then Overdue else Upcoming, None)
  }

  /** Number of leading entries before the installments: one for a positive initial payment. */
  function Lead(initialPayment: Cents): nat
  {
    if initialPayment > 0 then 1 else 0
  }

  /** Number of installments: none when the initial payment covers the price. */
  function Installments(totalPrice: Cents, initialPayment: Cents, terms: string): nat
  {
    if totalPrice - initialPayment <= 0 then 0 else InstallmentCount(terms)
  }

  /** The schedule `calculatePayments` produces, entry by entry.
    * One-time terms: a single entry for the full price, due on the purchase date, paid on
    * that date exactly when the initial payment covers the price.
    * Other terms: a paid entry for a positive initial payment, due and paid on the purchase
    * date; then, if anything remains to pay, the installments of equal amount. */
  ghost predicate IsSchedule(payments: seq<Draft>, totalPrice: Cents, initialPayment: Cents,
                             terms: string, purchaseDate: Instant, now: Instant)
  {
    if terms == "one-time" then
      && |payments| == 1
      && payments[0].amount == totalPrice && payments[0].dueDate == purchaseDate
      && (initialPayment >= totalPrice ==> payments[0].status == Paid && payments[0].paidDate == Some(purchaseDate))
      && (initialPayment < totalPrice ==> payments[0].status == Upcoming && payments[0].paidDate == None)
    else
      InstallmentPlan(payments, totalPrice, initialPayment, terms, purchaseDate, now)
  }

  /** The schedule for terms other than one-time. */
  ghost predicate InstallmentPlan(payments: seq<Draft>, totalPrice: Cents, initialPayment: Cents,
                                  terms: string, purchaseDate: Instant, now: Instant)
  {
    && |payments| == Lead(initialPayment) + Installments(totalPrice, initialPayment, terms)
    && (Lead(initialPayment) == 1 ==> payments[0] == Draft(initialPayment, purchaseDate, Paid, Some(purchaseDate)))
    && (forall i :: Lead(initialPayment) <= i < |payments| ==>
          payments[i] ==
          Installment(InstallmentCents(totalPrice - initialPayment, InstallmentCount(terms)), terms, purchaseDate,
                      i + 1 - Lead(initialPayment), now))
  }

  /** Entry `i` of an installment plan is due `i + 1 - lead` periods after the purchase; the
    * installments are unpaid and stored as overdue exactly when due before `now`. */
  lemma PlanEntries(payments: seq<Draft>, totalPrice: Cents, initialPayment: Cents,
                    terms: string, purchaseDate: Instant, now: Instant)
    requires InstallmentPlan(payments, totalPrice, initialPayment, terms, purchaseDate, now)
    ensures forall i :: 0 <= i < |payments| ==>
      payments[i].dueDate == AddPeriod(terms, purchaseDate, i + 1 - Lead(initialPayment))
    ensures forall i :: 0 <= i < |payments| ==> (payments[i].status == Paid <==> payments[i].paidDate.Some?)
    ensures forall i :: 0 <= i < |payments| && payments[i].status != Paid ==>
      (payments[i].status == Overdue <==> Before(payments[i].dueDate, now))
  {
    AddPeriodIncreasing(terms, purchaseDate, 0, 1);
  }

  /** What follows from the shape of a schedule: due dates strictly increase from the
    * purchase date on; an entry has a paid date exactly when it is stored as paid; and,
    * outside one-time terms, the stored label of every unpaid entry is the badge the
    * customer page shows for it at the moment of creation. */
  lemma ScheduleProperties(payments: seq<Draft>, totalPrice: Cents, initialPayment: Cents,
                           terms: string, purchaseDate: Instant, now: Instant)
    requires IsSchedule(payments, totalPrice, initialPayment, terms, purchaseDate, now)
    ensures forall i, j :: 0 <= i < j < |payments| ==> Before(payments[i].dueDate, payments[j].dueDate)
    ensures forall i :: 0 <= i < |payments| ==> !Before(payments[i].dueDate, purchaseDate)
    ensures forall i :: 0 <= i < |payments| ==> (payments[i].status == Paid <==> payments[i].paidDate.Some?)
    ensures terms != "one-time" ==> forall i :: 0 <= i < |payments| && payments[i].status != Paid ==>
      PaymentStatus(payments[i].status, payments[i].dueDate, now) ==
        (if payments[i].status == Overdue then ShownOverdue else ShownUpcoming)
  {
    if terms != "one-time" {
      PlanEntries(payments, totalPrice, initialPayment, terms, purchaseDate, now);
      var lead := Lead(initialPayment);
      forall i, j | 0 <= i < j < |payments|
        ensures Before(payments[i].dueDate, payments[j].dueDate)
      {
        AddPeriodIncreasing(terms, purchaseDate, i + 1 - lead, j + 1 - lead);
      }
      forall i | 0 <= i < |payments|
        ensures !Before(payments[i].dueDate, purchaseDate)
      {
        AddPeriodIncreasing(terms, purchaseDate, 0, 1);
        if i + 1 - lead > 0 {
          AddPeriodIncreasing(terms, purchaseDate, 0, i + 1 - lead);
        }
      }
    }
  }

  /** `calculatePayments(totalPrice, initialPayment, paymentTerms, purchaseDate)`, with
    * the clock reading `now` passed in. */
  method CalculatePayments(totalPrice: Cents, initialPayment: Cents, paymentTerms: string,
                           purchaseDate: Instant, now: Instant)
    returns (payments: seq<Draft>)
    ensures IsSchedule(payments, totalPrice, initialPayment, paymentTerms, purchaseDate, now)
    ensures forall i, j :: 0 <= i < j < |payments| ==> Before(payments[i].dueDate, payments[j].dueDate)
    ensures forall i :: 0 <= i < |payments| ==> !Before(payments[i].dueDate, purchaseDate)
    ensures forall i :: 0 <= i < |payments| ==> (payments[i].status == Paid <==> payments[i].paidDate.Some?)
    ensures paymentTerms != "one-time" ==> forall i :: 0 <= i < |payments| && payments[i].status != Paid ==>
      PaymentStatus(payments[i].status, payments[i].dueDate, now) ==
        (if payments[i].status == Overdue then ShownOverdue else ShownUpcoming)
  {
    payments := Drafts(totalPrice, initialPayment, paymentTerms, purchaseDate, now);
    ScheduleProperties(payments, totalPrice, initialPayment, paymentTerms, purchaseDate, now);
  }

  /** The body of `calculatePayments`. */
  method Drafts(totalPrice: Cents, initialPayment: Cents, paymentTerms: string,
                purchaseDate: Instant, now: Instant)
    returns (payments: seq<Draft>)
    ensures IsSchedule(payments, totalPrice, initialPayment, paymentTerms, purchaseDate, now)
  {
    var remaining := totalPrice - initialPayment;

    if paymentTerms == "one-time" {
      var paidInFull := initialPayment >= totalPrice;
      payments := [Draft(totalPrice, purchaseDate,
                         if paidInFull then Paid else Upcoming,
                         if paidInFull then Some(purchaseDate) else None)];
      return;
    }

    payments := [];
    if initialPayment > 0 {
      payments := payments + [Draft(initialPayment, purchaseDate, Paid, Some(purchaseDate))];
    }

    if remaining <= 0 {
      return;
    }

    var numInstallments := 6;
    var addPeriod: (Instant, int) -> Instant := (date: Instant, num: int) => AddMonths(date, num);
    if paymentTerms == "quarterly" {
      numInstallments := 4;
      addPeriod := (date: Instant, num: int) => AddMonths(date, num * 3);
    } else if paymentTerms == "yearly" {
      numInstallments := 3;
      addPeriod := (date: Instant, num: int) => AddYears(date, num);
    }
    assert numInstallments == InstallmentCount(paymentTerms);

    var installmentAmount := InstallmentCents(remaining, numInstallments);
    ghost var lead := payments;
    payments := AddInstallments(payments, numInstallments, addPeriod, installmentAmount, paymentTerms,
                                purchaseDate, now);
    PlanFromParts(lead, payments, totalPrice, initialPayment, paymentTerms, purchaseDate, now);
  }

  /** The entries built before the installment loop followed by the installments it appends
    * form the installment plan. */
  lemma PlanFromParts(lead: seq<Draft>, payments: seq<Draft>, totalPrice: Cents, initialPayment: Cents,
                      terms: string, purchaseDate: Instant, now: Instant)
    requires totalPrice - initialPayment > 0
    requires lead == if initialPayment > 0 then [Draft(initialPayment, purchaseDate, Paid, Some(purchaseDate))] else []
    requires |payments| == |lead| + InstallmentCount(terms)
    requires forall j :: 0 <= j < |lead| ==> payments[j] == lead[j]
    requires forall j :: |lead| <= j < |payments| ==>
      payments[j] == Installment(InstallmentCents(totalPrice - initialPayment, InstallmentCount(terms)),
                                 terms, purchaseDate, j + 1 - |lead|, now)
    ensures InstallmentPlan(payments, totalPrice, initialPayment, terms, purchaseDate, now)
  {
    assert |lead| == Lead(initialPayment);
  }

  /** The installment loop of `calculatePayments`: appends installments 1 to `n`, each due
    * `addPeriod(purchaseDate, i + 1)` and stored as overdue when already due before `now`. */
  method AddInstallments(payments: seq<Draft>, n: nat, addPeriod: (Instant, int) -> Instant, amount: Cents,
                         terms: string, purchaseDate: Instant, now: Instant)
    returns (payments': seq<Draft>)
    requires forall k :: addPeriod(purchaseDate, k) == AddPeriod(terms, purchaseDate, k)
    ensures |payments'| == |payments| + n
    ensures forall j :: 0 <= j < |payments| ==> payments'[j] == payments[j]
    ensures forall j :: |payments| <= j < |payments'| ==>
      payments'[j] == Installment(amount, terms, purchaseDate, j + 1 - |payments|, now)
  {
    payments' := payments;
    for i := 0 to n
      invariant |payments'| == |payments| + i
      invariant forall j :: 0 <= j < |payments| ==> payments'[j] == payments[j]
      invariant forall j :: |payments| <= j < |payments'| ==>
        payments'[j] == Installment(amount, terms, purchaseDate, j + 1 - |payments|, now)
    {
      var dueDate := addPeriod(purchaseDate, i + 1);

      var status := Upcoming;
      if Before(dueDate, now) {
        status := Overdue;
      }

      var next := Draft(amount, dueDate, status, None);
      assert next == Installment(amount, terms, purchaseDate, i + 1, now);
      PushInstallment(payments, payments', next, i, amount, terms, purchaseDate, now);
      payments' := payments' + [next];
    }
  }

  /** One turn of the installment loop: appending the next installment extends the
    * installments already built by one and keeps the entries before them. */
  lemma PushInstallment(start: seq<Draft>, payments: seq<Draft>, next: Draft, i: nat, amount: Cents,
                        terms: string, purchaseDate: Instant, now: Instant)
    requires |payments| == |start| + i
    requires forall j :: 0 <= j < |start| ==> payments[j] == start[j]
    requires forall j :: |start| <= j < |payments| ==>
      payments[j] == Installment(amount, terms, purchaseDate, j + 1 - |start|, now)
    requires next == Installment(amount, terms, purchaseDate, i + 1, now)
    ensures forall j :: 0 <= j < |start| ==> (payments + [next])[j] == start[j]
    ensures forall j :: |start| <= j < |payments + [next]| ==>
      (payments + [next])[j] == Installment(amount, terms, purchaseDate, j + 1 - |start|, now)
  {
    forall j | 0 <= j < |payments + [next]|
      ensures j < |payments| ==> (payments + [next])[j] == payments[j]
    {
    }
  }
}
