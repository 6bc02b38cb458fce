/** The request handlers of the API that hold logic of their own: the login guard, the
  * KPI report, the mark-paid check chain and the CSV bulk import of customers. A request's
  * logged-in user arrives as `session`, the clock reading as `now`. */
module Routes {
  import opened Wrappers
  import opened Seqs
  import opened Calendar
  import opened Money
  import opened Records
  import opened Ledger
  import opened Storage

  /** An HTTP error answer: status code and message. */
  datatype Failure = Failure(code: nat, message: string)

  const NotLoggedIn := Failure(401, "Unauthorized")
  const PaymentNotFound := Failure(404, "Payment not found")
  const PurchaseNotFound := Failure(404, "Purchase not found")
  const NotOwner := Failure(403, "Unauthorized")
  const CsvRequired := Failure(400, "CSV data is required")

  /** `requireAuth`: a request without a logged-in user is answered 401 and goes no
    * further; otherwise the handler runs on behalf of that user. */
  function RequireAuth(session: Option<Id>): (r: Result<Id, Failure>)
    ensures r.Ok? <==> session.Some?
    ensures r.Ok? ==> r.value == session.value
    ensures r.Err? ==> r.error.code == 401
  {
    if session.None? then Err(NotLoggedIn) else Ok(session.value)
  }

  // ---------------------------------------------------------------- KPI report

  /** The start of the reporting period: the month or the year of `now`; every other
    * period value (with "all", the default) sets no start. */
  function FilterDate(period: string, now: Instant): (r: Option<Instant>)
    ensures r.Some? <==> period == "month" || period == "year"
    ensures r.Some? ==> !Before(now, r.value) && r.value.day == 0 && r.value.ms == 0
    ensures period == "month" ==> r.value.month == now.month
    ensures period == "year" ==> r.value.month % 12 == 0 && now.month - 12 < r.value.month <= now.month
  {
    PeriodStartsOrdered(now);
    if period == "month" then Some(StartOfMonth(now))
    else if period == "year" then Some(StartOfYear(now))
    else None
  }

  /** The payments the report walks: customer by customer in the order `getCustomers`
    * lists them, and for each its purchases and their payments as the summary fold
    * visits them. */
  function KpiPayments(store: SqliteStorage, cs: seq<Customer>): seq<Payment>
    reads store
  {
    if cs == [] then []
    else KpiPayments(store, cs[..|cs| - 1]) + store.VisitOrder(store.PurchasesByCustomer(cs[|cs| - 1].id))
  }

  datatype KpiReport = KpiReport(totalPaid: Cents, totalOverdue: Cents)

  /** The innermost loop of the report: one purchase's payments added to the totals. */
  method AddUpPayments(payments: seq<Payment>, filterDate: Option<Instant>, now: Instant,
                       ghost seen: seq<Payment>, totalPaid: Cents, totalOverdue: Cents)
    returns (totalPaid': Cents, totalOverdue': Cents)
    requires totalPaid == PaidTotal(seen, filterDate) && totalOverdue == OverdueTotal(seen, now)
    ensures totalPaid' == PaidTotal(seen + payments, filterDate)
    ensures totalOverdue' == OverdueTotal(seen + payments, now)
  {
    totalPaid', totalOverdue' := totalPaid, totalOverdue;
    AppendSlice(seen, payments, 0);
    for k := 0 to |payments|
      invariant totalPaid' == PaidTotal(seen + payments[..k], filterDate)
      invariant totalOverdue' == OverdueTotal(seen + payments[..k], now)
    {
      var payment := payments[k];
      PaidStep(seen + payments[..k], payment, filterDate);
      FoldStep(seen + payments[..k], payment, now);
      if payment.status == Paid {
        if filterDate.None? || (payment.paidDate.Some? && !Before(payment.paidDate.value, filterDate.value)) {
          totalPaid' := totalPaid' + payment.amount;
        }
      } else if Before(payment.dueDate, now) {
        totalOverdue' := totalOverdue' + payment.amount;
      }
      AppendSlice(seen, payments, k);
    }
    AppendSlice(seen, payments, |payments|);
  }

  /** The middle loop of the report: the payments of one customer's purchases, purchase
    * by purchase, added to the totals. */
  method AddUpPurchases(store: SqliteStorage, purchases: seq<Purchase>, filterDate: Option<Instant>, now: Instant,
                        ghost seen: seq<Payment>, totalPaid: Cents, totalOverdue: Cents)
    returns (totalPaid': Cents, totalOverdue': Cents)
    requires totalPaid == PaidTotal(seen, filterDate) && totalOverdue == OverdueTotal(seen, now)
    ensures totalPaid' == PaidTotal(seen + store.VisitOrder(purchases), filterDate)
    ensures totalOverdue' == OverdueTotal(seen + store.VisitOrder(purchases), now)
  {
    totalPaid', totalOverdue' := totalPaid, totalOverdue;
    ghost var visited := seen;
    assert purchases[..0] == [] && seen + [] == seen;
    for j := 0 to |purchases|
      invariant visited == seen + store.VisitOrder(purchases[..j])
      invariant totalPaid' == PaidTotal(visited, filterDate) && totalOverdue' == OverdueTotal(visited, now)
    {
      var payments := store.PaymentsByPurchase(purchases[j].id);
      totalPaid', totalOverdue' := AddUpPayments(payments, filterDate, now, visited, totalPaid', totalOverdue');
      AppendSlice([], purchases, j);
      ghost var done := store.VisitOrder(purchases[..j]);
      assert store.VisitOrder(purchases[..j + 1]) == done + payments;
      AppendAssoc(seen, done, payments);
      visited := visited + payments;
    }
    assert purchases[..|purchases|] == purchases;
  }

  /** `GET /api/kpi`: the paid total since the start of the period and the overdue total,
    * over every payment of the caller's customers. */
  method Kpi(store: SqliteStorage, session: Option<Id>, period: string, now: Instant)
    returns (r: Result<KpiReport, Failure>)
    ensures session.None? ==> r == Err(NotLoggedIn)
    ensures session.Some? ==>
      var ps := KpiPayments(store, store.OwnedCustomers(session.value));
      r == Ok(KpiReport(PaidTotal(ps, FilterDate(period, now)), OverdueTotal(ps, now)))
  {
    var auth := RequireAuth(session);
    if auth.Err? {
      return Err(auth.error);
    }
    var userId := auth.value;
    var customers := store.GetCustomers(userId, now);
    ghost var owned := store.OwnedCustomers(userId);

    var totalPaid: Cents := 0;
    var totalOverdue: Cents := 0;
    var filterDate: Option<Instant> := None;
    if period == "month" {
      filterDate := Some(StartOfMonth(now));
    } else if period == "year" {
      filterDate := Some(StartOfYear(now));
    }
    assert filterDate == FilterDate(period, now);

    ghost var seen: seq<Payment> := [];
    for i := 0 to |customers|
      invariant seen == KpiPayments(store, owned[..i])
      invariant totalPaid == PaidTotal(seen, filterDate) && totalOverdue == OverdueTotal(seen, now)
    {
      assert customers[i].customer == owned[i];
      var purchases := store.PurchasesByCustomer(customers[i].customer.id);
      totalPaid, totalOverdue := AddUpPurchases(store, purchases, filterDate, now, seen, totalPaid, totalOverdue);
      AppendSlice([], owned, i);
      seen := seen + store.VisitOrder(purchases);
    }
    assert owned[..|owned|] == owned;
    r := Ok(KpiReport(totalPaid, totalOverdue));
  }

  /** The report's period only narrows the paid total: this month's total is at most this
    * year's, which is at most the total over all time. */
  lemma KpiPeriodsNest(ps: seq<Payment>, now: Instant)
    requires NonNegative(ps)
    ensures PaidTotal(ps, FilterDate("month", now)) <= PaidTotal(ps, FilterDate("year", now))
    ensures PaidTotal(ps, FilterDate("year", now)) <= PaidTotal(ps, FilterDate("all", now))
  {
    PeriodStartsOrdered(now);
    PaidTotalSinceMonotone(ps, FilterDate("month", now), FilterDate("year", now));
    PaidTotalSinceMonotone(ps, FilterDate("year", now), None);
  }

  /** The overdue total does not depend on the period, and no payment is counted in both
    * totals. */
  lemma KpiTotalsDisjoint(ps: seq<Payment>, period: string, now: Instant)
    requires NonNegative(ps)
    ensures PaidTotal(ps, FilterDate(period, now)) + OverdueTotal(ps, now) <= AmountTotal(ps)
  {
    PaidAndOverdueDisjoint(ps, FilterDate(period, now), now);
  }

  /** The sums of the per-customer totals of the dashboard's customer list. */
  function SummedPaid(ss: seq<CustomerSummary>): Cents
  {
    if ss == [] then 0 else SummedPaid(ss[..|ss| - 1]) + ss[|ss| - 1].totalPaid
  }

  function SummedOverdue(ss: seq<CustomerSummary>): Cents
  {
    if ss == [] then 0 else SummedOverdue(ss[..|ss| - 1]) + ss[|ss| - 1].totalOverdue
  }

  /** Over all time the report agrees with the customer list: its paid and overdue totals
    * are the sums of the customers' own totals, given the summaries `getCustomers`
    * builds for the same customers. */
  lemma {:induction false} KpiAgreesWithSummaries(store: SqliteStorage, cs: seq<Customer>,
                                                  ss: seq<CustomerSummary>, now: Instant)
    requires |ss| == |cs|
    requires forall i :: 0 <= i < |cs| ==>
      ss[i] == Summarize(cs[i], store.VisitOrder(store.PurchasesByCustomer(cs[i].id)), now)
    ensures PaidTotal(KpiPayments(store, cs), None) == SummedPaid(ss)
    ensures OverdueTotal(KpiPayments(store, cs), now) == SummedOverdue(ss)
  {
    if cs != [] {
      var n := |cs| - 1;
      KpiAgreesWithSummaries(store, cs[..n], ss[..n], now);
      TotalsAppend(KpiPayments(store, cs[..n]), store.VisitOrder(store.PurchasesByCustomer(cs[n].id)), None, now);
    }
  }

  // ---------------------------------------------------------------- mark paid

  /** The update the mark-paid route sends: status paid, paid on `now`, nothing else. */
  function MarkPaidPatch(now: Instant): (u: PaymentPatch)
    ensures u.status == Set(Paid) && u.paidDate == Set(Some(now))
    ensures u.purchaseId.Keep? && u.amount.Keep? && u.dueDate.Keep?
  {
    PaymentPatch(Keep, Keep, Keep, Set(Paid), Set(Some(now)))
  }

  /** The caller owns the payment: its purchase exists and that purchase's customer is
    * theirs. */
  predicate OwnsPayment(store: SqliteStorage, userId: Id, p: Payment)
    reads store
  {
    var purchase := store.GetPurchase(p.purchaseId);
    purchase.Some? && store.GetCustomer(purchase.value.customerId, userId).Some?
  }

  /** `PATCH /api/payments/:id/mark-paid`: 401 without a login, 404 for an unknown
    * payment, 404 for a payment whose purchase is gone, 403 when the purchase's customer
    * belongs to someone else; otherwise the payment is updated to paid on `now` through
    * `updatePayment`, so who marked it is not recorded. The store's referential integrity
    * makes the second 404 unreachable. */
  method MarkPaid(store: SqliteStorage, session: Option<Id>, paymentId: Id, now: Instant)
    returns (r: Result<Payment, Failure>)
    requires store.Valid()
    modifies store
    ensures store.Valid()
    ensures r != Err(PurchaseNotFound)
    ensures r.Err? ==> unchanged(store)
    ensures session.None? ==> r == Err(NotLoggedIn)
    ensures session.Some? && old(store.GetPayment(paymentId)).None? ==> r == Err(PaymentNotFound)
    ensures session.Some? && old(store.GetPayment(paymentId)).Some? ==>
      var e := old(store.GetPayment(paymentId)).value;
      && (!old(OwnsPayment(store, session.value, e)) ==> r == Err(NotOwner))
      && (old(OwnsPayment(store, session.value, e)) ==>
            && r == Ok(PatchedPayment(e, MarkPaidPatch(now)))
            && r.value.status == Paid && r.value.paidDate == Some(now)
            && r.value.markedPaidBy == e.markedPaidBy
            && store.payments == ReplaceWhere(old(store.payments), PaymentKey, paymentId,
                                              StoredPayment(e, MarkPaidPatch(now)))
            && store.users == old(store.users) && store.customers == old(store.customers)
            && store.purchases == old(store.purchases) && store.nextId == old(store.nextId))
  {
    var auth := RequireAuth(session);
    if auth.Err? {
      return Err(auth.error);
    }
    var payment := store.GetPayment(paymentId);
    if payment.None? {
      return Err(PaymentNotFound);
    }
    var purchase := store.GetPurchase(payment.value.purchaseId);
    if purchase.None? {
      assert false;
      return Err(PurchaseNotFound);
    }
    var customer := store.GetCustomer(purchase.value.customerId, auth.value);
    if customer.None? {
      return Err(NotOwner);
    }
    var updated := store.UpdatePayment(paymentId, MarkPaidPatch(now));
    r := Ok(updated.value);
  }

  // ---------------------------------------------------------------- bulk import

  /** A CSV row as the parser hands it over: trimmed, lower-cased header to cell text. */
  type CsvRow = map<string, string>

  /** The customer fields a row maps to. */
  datatype CustomerData = CustomerData(
    name: string, email: Option<string>, phone: Option<string>, company: Option<string>)

  /** `row.column || null`: the cell, unless the column is missing or its cell empty. */
  function Cell(row: CsvRow, column: string): (r: Option<string>)
    ensures r.Some? <==> column in row && row[column] != ""
    ensures r.Some? ==> r.value == row[column]
  {
    if column in row && row[column] != "" then Some(row[column]) else None
  }

  /** The mapping of a row to customer fields: the name from the "name" column, else from
    * "customer_name", else empty; email, phone and company from their columns. */
  function MapRow(row: CsvRow): (d: CustomerData)
    ensures Cell(row, "name").Some? ==> d.name == row["name"]
    ensures Cell(row, "name").None? && Cell(row, "customer_name").Some? ==> d.name == row["customer_name"]
    ensures Cell(row, "name").None? && Cell(row, "customer_name").None? ==> d.name == ""
    ensures d.email == Cell(row, "email") && d.phone == Cell(row, "phone") && d.company == Cell(row, "company")
  {
    var name := Cell(row, "name");
    var customerName := Cell(row, "customer_name");
    CustomerData(
      if name.Some? then name.value else if customerName.Some? then customerName.value else "",
      Cell(row, "email"), Cell(row, "phone"), Cell(row, "company"))
  }

  /** A value a field of the object handed to the schema holds: text, or `null`. */
  datatype FieldValue = Text(text: string) | Null

  /** The object the route builds from the mapped fields, `null` for an absent one. */
  function RowObject(d: CustomerData): (o: map<string, FieldValue>)
    ensures o.Keys == {"name", "email", "phone", "company"}
    ensures o["name"] == Text(d.name)
    ensures forall key :: key in {"email", "phone", "company"} ==> o[key].Text? == Field(d, key).Some?
    ensures forall key :: key in {"email", "phone", "company"} && o[key].Text? ==> o[key].text == Field(d, key).value
  {
    map["name" := Text(d.name), "email" := OrNull(d.email), "phone" := OrNull(d.phone),
        "company" := OrNull(d.company)]
  }

  /** The optional field of `d` a key names. */
  function Field(d: CustomerData, key: string): Option<string>
  {
    if key == "email" then d.email else if key == "phone" then d.phone else d.company
  }

  function OrNull(v: Option<string>): FieldValue
  {
    if v.Some? then Text(v.value) else Null
  }

  /** The check of a `text(...).notNull()` column without default: the key must be present
    * and hold text; there is no minimum length. */
  function RequiredText(o: map<string, FieldValue>, key: string): (r: Result<string, string>)
    ensures r.Ok? <==> key in o && o[key].Text?
    ensures r.Ok? ==> r.value == o[key].text
    ensures key !in o ==> r == Err("Required")
    ensures key in o && o[key].Null? ==> r == Err("Expected string, received null")
  {
    if key !in o then Err("Required")
    else match o[key]
      case Text(s) => Ok(s)
      case Null => Err("Expected string, received null")
  }

  /** The check of a nullable `text(...)` column: the key may be missing or `null`, both
    * read as no value. */
  function NullableText(o: map<string, FieldValue>, key: string): (r: Option<string>)
    ensures r.Some? <==> key in o && o[key].Text?
    ensures r.Some? ==> r.value == o[key].text
  {
    if key in o && o[key].Text? then Some(o[key].text) else None
  }

  /** `insertCustomerSchema.parse`: the insert schema of the customers table without the
    * id, owner and creation columns: a required text `name` and nullable `email`, `phone`
    * and `company`; keys it does not know are dropped. */
  function InsertCustomerSchema(o: map<string, FieldValue>): (r: Result<CustomerData, string>)
    ensures r.Ok? <==> "name" in o && o["name"].Text?
    ensures r.Ok? ==> r.value.name == o["name"].text
    ensures r.Ok? ==> r.value.email == NullableText(o, "email") && r.value.phone == NullableText(o, "phone")
    ensures r.Ok? ==> r.value.company == NullableText(o, "company")
    ensures r.Err? ==> r.error != ""
  {
    var name := RequiredText(o, "name");
    if name.Err? then Err(name.error)
    else Ok(CustomerData(name.value, NullableText(o, "email"), NullableText(o, "phone"),
                         NullableText(o, "company")))
  }

  /** The validator the route applies to the mapped fields: build the object, parse it.
    * It accepts every mapped row unchanged — also one with no name at all, whose name is
    * the empty string. */
  function ParseCustomer(d: CustomerData): (r: Result<CustomerData, string>)
    ensures r == Ok(d)
  {
    var o := RowObject(d);
    assert o["email"].Text? == d.email.Some? && o["phone"].Text? == d.phone.Some?;
    assert o["company"].Text? == d.company.Some?;
    InsertCustomerSchema(o)
  }

  /** With the route's own validator and the caller's user row present, a bulk import
    * rejects no row and creates one customer per row. */
  lemma {:induction false} ImportRejectsNothing(rows: seq<CsvRow>, userId: Id, now: Instant, firstId: nat)
    ensures Rejections(rows, ParseCustomer, true) == []
    ensures |Imports(rows, ParseCustomer, true, userId, now, firstId)| == |rows|
  {
    if rows != [] {
      var n := |rows| - 1;
      ImportRejectsNothing(rows[..n], userId, now, firstId);
      assert ParseCustomer(MapRow(rows[n])).Ok?;
    }
    ImportAccounting(rows, ParseCustomer, true, userId, now, firstId);
  }

  /** `error.message || 'Unknown error'`. */
  function ErrorText(message: string): (text: string)
    ensures text != ""
    ensures message != "" ==> text == message
    ensures message == "" ==> text == "Unknown error"
  {
    if message == "" then "Unknown error" else message
  }

  /** What becomes of one row: the validated fields, or the error it is rejected with —
    * the validator's, or the store's when the caller's user row is gone. */
  function RowVerdict(row: CsvRow, validate: CustomerData -> Result<CustomerData, string>,
                      ownerExists: bool): (r: Result<CustomerData, string>)
    ensures r.Ok? <==> validate(MapRow(row)).Ok? && ownerExists
    ensures r.Ok? ==> r.value == validate(MapRow(row)).value
    ensures r.Err? ==> r.error != ""
    ensures validate(MapRow(row)).Err? ==> r == Err(ErrorText(validate(MapRow(row)).error))
    ensures validate(MapRow(row)).Ok? && !ownerExists ==> r == Err(ForeignKeyFailed)
  {
    var v := validate(MapRow(row));
    if v.Err? then Err(ErrorText(v.error))
    else if !ownerExists then Err(ErrorText(ForeignKeyFailed))
    else Ok(v.value)
  }

  /** A row imported (`row` counts the header as row 1) and one rejected. */
  datatype Imported = Imported(row: nat, customer: Customer)
  datatype Rejected = Rejected(row: nat, data: CsvRow, error: string)

  /** The customer `createCustomer` makes from validated fields. */
  function NewCustomer(d: CustomerData, id: Id, userId: Id, now: Instant): Customer
  {
    Customer(id, userId, d.name, d.email, d.phone, d.company, now, userId)
  }

  /** The rows imported, in order, with the customers created for them: fresh ids from
    * `firstId` on, owned and created by `userId` at `now`. */
  function Imports(rows: seq<CsvRow>, validate: CustomerData -> Result<CustomerData, string>,
                   ownerExists: bool, userId: Id, now: Instant, firstId: nat): (r: seq<Imported>)
    ensures |r| <= |rows|
  {
    if rows == [] then []
    else
      var n := |rows| - 1;
      var prev := Imports(rows[..n], validate, ownerExists, userId, now, firstId);
      var v := RowVerdict(rows[n], validate, ownerExists);
      if v.Ok? then
        prev + [Imported(n + 2, NewCustomer(v.value, firstId + |prev|, userId, now))]
      else prev
  }

  /** The rows rejected, in order, each with its data and its error. */
  function Rejections(rows: seq<CsvRow>, validate: CustomerData -> Result<CustomerData, string>,
                      ownerExists: bool): (r: seq<Rejected>)
    ensures |r| <= |rows|
  {
    if rows == [] then []
    else
      var n := |rows| - 1;
      var prev := Rejections(rows[..n], validate, ownerExists);
      var v := RowVerdict(rows[n], validate, ownerExists);
      if v.Ok? then prev else prev + [Rejected(n + 2, rows[n], v.error)]
  }

  /** `x`, the `j`-th import, is a row that passed, numbered counting the header as row 1,
    * and its customer holds the validated fields under the `j`-th fresh id. */
  predicate ImportedFrom(rows: seq<CsvRow>, validate: CustomerData -> Result<CustomerData, string>,
                         ownerExists: bool, userId: Id, now: Instant, firstId: nat, j: nat, x: Imported)
  {
    && 2 <= x.row < |rows| + 2
    && var v := RowVerdict(rows[x.row - 2], validate, ownerExists);
       && v.Ok?
       && x.customer == NewCustomer(v.value, firstId + j, userId, now)
  }

  /** Each imported row is a row that passed, in increasing row order, with the customer
    * created from it. */
  lemma {:induction false} ImportsSound(rows: seq<CsvRow>, validate: CustomerData -> Result<CustomerData, string>,
                                        ownerExists: bool, userId: Id, now: Instant, firstId: nat)
    ensures forall j :: 0 <= j < |Imports(rows, validate, ownerExists, userId, now, firstId)| ==>
      ImportedFrom(rows, validate, ownerExists, userId, now, firstId, j,
                   Imports(rows, validate, ownerExists, userId, now, firstId)[j])
    ensures forall j, k :: 0 <= j < k < |Imports(rows, validate, ownerExists, userId, now, firstId)| ==>
      Imports(rows, validate, ownerExists, userId, now, firstId)[j].row <
      Imports(rows, validate, ownerExists, userId, now, firstId)[k].row
  {
    if rows != [] {
      var n := |rows| - 1;
      var prev := Imports(rows[..n], validate, ownerExists, userId, now, firstId);
      ImportsSound(rows[..n], validate, ownerExists, userId, now, firstId);
      var r := Imports(rows, validate, ownerExists, userId, now, firstId);
      assert forall j :: 0 <= j < |prev| ==> r[j] == prev[j];
      forall j | 0 <= j < |r|
        ensures ImportedFrom(rows, validate, ownerExists, userId, now, firstId, j, r[j])
      {
        if j < |prev| {
          assert ImportedFrom(rows[..n], validate, ownerExists, userId, now, firstId, j, prev[j]);
          assert rows[..n][prev[j].row - 2] == rows[prev[j].row - 2];
        }
      }
      forall j, k | 0 <= j < k < |r| ensures r[j].row < r[k].row {
        assert r[j] == prev[j];
        assert ImportedFrom(rows[..n], validate, ownerExists, userId, now, firstId, j, prev[j]);
        if k < |prev| {
          assert r[k] == prev[k];
        }
      }
    }
  }

  /** Every row that passes is imported. */
  lemma {:induction false} ImportsComplete(rows: seq<CsvRow>, validate: CustomerData -> Result<CustomerData, string>,
                                           ownerExists: bool, userId: Id, now: Instant, firstId: nat, i: nat)
    requires i < |rows| && RowVerdict(rows[i], validate, ownerExists).Ok?
    ensures exists j :: (0 <= j < |Imports(rows, validate, ownerExists, userId, now, firstId)| &&
                         Imports(rows, validate, ownerExists, userId, now, firstId)[j].row == i + 2)
  {
    var n := |rows| - 1;
    var prev := Imports(rows[..n], validate, ownerExists, userId, now, firstId);
    var r := Imports(rows, validate, ownerExists, userId, now, firstId);
    if i == n {
      assert r[|prev|].row == i + 2;
    } else {
      assert rows[..n][i] == rows[i];
      ImportsComplete(rows[..n], validate, ownerExists, userId, now, firstId, i);
      var j :| 0 <= j < |prev| && prev[j].row == i + 2;
      if RowVerdict(rows[n], validate, ownerExists).Err? {
        assert r == prev;
      } else {
        assert r[..|prev|] == prev;
        assert r[j] == prev[j];
      }
    }
  }

  /** `x` is a row that failed, numbered counting the header as row 1, with its own data
    * and error. */
  predicate RejectedFrom(rows: seq<CsvRow>, validate: CustomerData -> Result<CustomerData, string>,
                         ownerExists: bool, x: Rejected)
  {
    && 2 <= x.row < |rows| + 2
    && x.data == rows[x.row - 2]
    && RowVerdict(rows[x.row - 2], validate, ownerExists) == Err(x.error)
  }

  /** Each rejected row is a row that failed, in increasing row order. */
  lemma {:induction false} RejectionsSound(rows: seq<CsvRow>, validate: CustomerData -> Result<CustomerData, string>,
                                           ownerExists: bool)
    ensures forall j :: 0 <= j < |Rejections(rows, validate, ownerExists)| ==>
      RejectedFrom(rows, validate, ownerExists, Rejections(rows, validate, ownerExists)[j])
    ensures forall j, k :: 0 <= j < k < |Rejections(rows, validate, ownerExists)| ==>
      Rejections(rows, validate, ownerExists)[j].row < Rejections(rows, validate, ownerExists)[k].row
  {
    if rows != [] {
      var n := |rows| - 1;
      var prev := Rejections(rows[..n], validate, ownerExists);
      RejectionsSound(rows[..n], validate, ownerExists);
      var r := Rejections(rows, validate, ownerExists);
      assert forall j :: 0 <= j < |prev| ==> r[j] == prev[j];
      forall j | 0 <= j < |r| ensures RejectedFrom(rows, validate, ownerExists, r[j]) {
        if j < |prev| {
          assert RejectedFrom(rows[..n], validate, ownerExists, prev[j]);
          assert rows[..n][prev[j].row - 2] == rows[prev[j].row - 2];
        }
      }
      forall j, k | 0 <= j < k < |r| ensures r[j].row < r[k].row {
        assert r[j] == prev[j];
        assert RejectedFrom(rows[..n], validate, ownerExists, prev[j]);
        if k < |prev| {
          assert r[k] == prev[k];
        }
      }
    }
  }

  /** Every row that fails is rejected. */
  lemma {:induction false} RejectionsComplete(rows: seq<CsvRow>, validate: CustomerData -> Result<CustomerData, string>,
                                              ownerExists: bool, i: nat)
    requires i < |rows| && RowVerdict(rows[i], validate, ownerExists).Err?
    ensures exists j :: (0 <= j < |Rejections(rows, validate, ownerExists)| &&
                         Rejections(rows, validate, ownerExists)[j].row == i + 2)
  {
    var n := |rows| - 1;
    var prev := Rejections(rows[..n], validate, ownerExists);
    var r := Rejections(rows, validate, ownerExists);
    if i == n {
      assert r[|prev|].row == i + 2;
    } else {
      assert rows[..n][i] == rows[i];
      RejectionsComplete(rows[..n], validate, ownerExists, i);
      var j :| 0 <= j < |prev| && prev[j].row == i + 2;
      if RowVerdict(rows[n], validate, ownerExists).Ok? {
        assert r == prev;
      } else {
        assert r[..|prev|] == prev;
        assert r[j] == prev[j];
      }
    }
  }

  /** Every row is counted once: the imported and the rejected rows add up to all rows. */
  lemma {:induction false} ImportAccounting(rows: seq<CsvRow>, validate: CustomerData -> Result<CustomerData, string>,
                                            ownerExists: bool, userId: Id, now: Instant, firstId: nat)
    ensures |Imports(rows, validate, ownerExists, userId, now, firstId)| + |Rejections(rows, validate, ownerExists)| == |rows|
  {
    if rows != [] {
      ImportAccounting(rows[..|rows| - 1], validate, ownerExists, userId, now, firstId);
    }
  }

  /** No row is both imported and rejected. */
  lemma ImportedNotRejected(rows: seq<CsvRow>, validate: CustomerData -> Result<CustomerData, string>,
                            ownerExists: bool, userId: Id, now: Instant, firstId: nat, j: nat, k: nat)
    requires j < |Imports(rows, validate, ownerExists, userId, now, firstId)|
    requires k < |Rejections(rows, validate, ownerExists)|
    ensures Imports(rows, validate, ownerExists, userId, now, firstId)[j].row != Rejections(rows, validate, ownerExists)[k].row
  {
    ImportedRowPassed(rows, validate, ownerExists, userId, now, firstId, j);
    RejectedRowFailed(rows, validate, ownerExists, k);
  }

  /** The row of the `j`-th import passed its checks. */
  lemma ImportedRowPassed(rows: seq<CsvRow>, validate: CustomerData -> Result<CustomerData, string>,
                          ownerExists: bool, userId: Id, now: Instant, firstId: nat, j: nat)
    requires j < |Imports(rows, validate, ownerExists, userId, now, firstId)|
    ensures var x := Imports(rows, validate, ownerExists, userId, now, firstId)[j];
      2 <= x.row < |rows| + 2 && RowVerdict(rows[x.row - 2], validate, ownerExists).Ok?
  {
    ImportsSound(rows, validate, ownerExists, userId, now, firstId);
    assert ImportedFrom(rows, validate, ownerExists, userId, now, firstId, j,
                        Imports(rows, validate, ownerExists, userId, now, firstId)[j]);
  }

  /** The row of the `k`-th rejection failed its checks. */
  lemma RejectedRowFailed(rows: seq<CsvRow>, validate: CustomerData -> Result<CustomerData, string>,
                          ownerExists: bool, k: nat)
    requires k < |Rejections(rows, validate, ownerExists)|
    ensures var y := Rejections(rows, validate, ownerExists)[k];
      2 <= y.row < |rows| + 2 && RowVerdict(rows[y.row - 2], validate, ownerExists).Err?
  {
    RejectionsSound(rows, validate, ownerExists);
    assert RejectedFrom(rows, validate, ownerExists, Rejections(rows, validate, ownerExists)[k]);
  }

  /** The customers created, in order. */
  function ImportedCustomers(imports: seq<Imported>): (cs: seq<Customer>)
    ensures |cs| == |imports| && forall j :: 0 <= j < |imports| ==> cs[j] == imports[j].customer
  {
    if imports == [] then [] else ImportedCustomers(imports[..|imports| - 1]) + [imports[|imports| - 1].customer]
  }

  datatype ImportReport = ImportReport(
    total: nat, successCount: nat, failedCount: nat, success: seq<Imported>, failed: seq<Rejected>)

  /** `POST /api/customers/bulk-import`: 401 without a login and 400 without CSV text;
    * otherwise each parsed row is mapped, validated and created as a customer of the
    * caller, or rejected with its error, and the report counts both. `parsed` is what the
    * CSV parser makes of `csvData`, and `validate` the customer schema. */
  method BulkImport(store: SqliteStorage, session: Option<Id>, csvData: Option<string>, parsed: seq<CsvRow>,
                    validate: CustomerData -> Result<CustomerData, string>, now: Instant)
    returns (r: Result<ImportReport, Failure>)
    requires store.Valid()
    modifies store
    ensures store.Valid()
    ensures r.Err? ==> unchanged(store)
    ensures session.None? ==> r == Err(NotLoggedIn)
    ensures session.Some? && (csvData.None? || csvData.value == "") ==> r == Err(CsvRequired)
    ensures session.Some? && csvData.Some? && csvData.value != "" ==>
      var ok := session.value in Keys(old(store.users), UserKey);
      var imports := Imports(parsed, validate, ok, session.value, now, old(store.nextId));
      var rejections := Rejections(parsed, validate, ok);
      && r == Ok(ImportReport(|parsed|, |imports|, |rejections|, imports, rejections))
      && r.value.total == r.value.successCount + r.value.failedCount
      && store.customers == old(store.customers) + ImportedCustomers(imports)
      && store.nextId == old(store.nextId) + |imports|
      && store.users == old(store.users) && store.purchases == old(store.purchases)
      && store.payments == old(store.payments)
  {
    var auth := RequireAuth(session);
    if auth.Err? {
      return Err(auth.error);
    }
    if csvData.None? || csvData.value == "" {
      return Err(CsvRequired);
    }
    var userId := auth.value;
    ghost var ok := userId in Keys(store.users, UserKey);
    ghost var firstId := store.nextId;
    ghost var before := store.customers;

    var success: seq<Imported> := [];
    var failed: seq<Rejected> := [];
    for i := 0 to |parsed|
      invariant store.Valid()
      invariant success == Imports(parsed[..i], validate, ok, userId, now, firstId)
      invariant failed == Rejections(parsed[..i], validate, ok)
      invariant store.customers == before + ImportedCustomers(success)
      invariant store.nextId == firstId + |success|
      invariant store.users == old(store.users) && store.purchases == old(store.purchases)
      invariant store.payments == old(store.payments)
    {
      success, failed := ImportRow(store, parsed, i, validate, userId, now, ok, firstId, before, success, failed);
    }
    assert parsed[..|parsed|] == parsed;
    ImportAccounting(parsed, validate, ok, userId, now, firstId);
    r := Ok(ImportReport(|parsed|, |success|, |failed|, success, failed));
  }

  /** The report after row `i`, given what creating its customer gave: the row joins
    * the imports or the rejections, and the customers created grow with it. */
  lemma RowRecorded(rows: seq<CsvRow>, i: nat, validate: CustomerData -> Result<CustomerData, string>,
                    ownerExists: bool, userId: Id, now: Instant, firstId: nat,
                    success: seq<Imported>, failed: seq<Rejected>, created: Result<Customer, string>)
    requires i < |rows|
    requires success == Imports(rows[..i], validate, ownerExists, userId, now, firstId)
    requires failed == Rejections(rows[..i], validate, ownerExists)
    requires created.Err? <==> RowVerdict(rows[i], validate, ownerExists).Err?
    requires created.Err? ==> RowVerdict(rows[i], validate, ownerExists).error == ErrorText(created.error)
    requires created.Ok? ==>
      created.value == NewCustomer(RowVerdict(rows[i], validate, ownerExists).value, firstId + |success|, userId, now)
    ensures created.Err? ==>
      && success == Imports(rows[..i + 1], validate, ownerExists, userId, now, firstId)
      && failed + [Rejected(i + 2, rows[i], ErrorText(created.error))] == Rejections(rows[..i + 1], validate, ownerExists)
    ensures created.Ok? ==>
      && success + [Imported(i + 2, created.value)] == Imports(rows[..i + 1], validate, ownerExists, userId, now, firstId)
      && failed == Rejections(rows[..i + 1], validate, ownerExists)
  {
    if created.Ok? {
      RowImported(rows, i, validate, ownerExists, userId, now, firstId, success, failed,
                  RowVerdict(rows[i], validate, ownerExists).value);
    } else {
      RowRejected(rows, i, validate, ownerExists, userId, now, firstId, success, failed,
                  RowVerdict(rows[i], validate, ownerExists).error);
    }
  }

  /** A row that passes joins the imports, under the next fresh id. */
  lemma RowImported(rows: seq<CsvRow>, i: nat, validate: CustomerData -> Result<CustomerData, string>,
                    ownerExists: bool, userId: Id, now: Instant, firstId: nat,
                    success: seq<Imported>, failed: seq<Rejected>, d: CustomerData)
    requires i < |rows| && RowVerdict(rows[i], validate, ownerExists) == Ok(d)
    requires success == Imports(rows[..i], validate, ownerExists, userId, now, firstId)
    requires failed == Rejections(rows[..i], validate, ownerExists)
    ensures Imports(rows[..i + 1], validate, ownerExists, userId, now, firstId) ==
      success + [Imported(i + 2, NewCustomer(d, firstId + |success|, userId, now))]
    ensures Rejections(rows[..i + 1], validate, ownerExists) == failed
  {
    var pre := rows[..i + 1];
    assert pre[..i] == rows[..i] && pre[i] == rows[i];
  }

  /** A row that fails joins the rejections with its error. */
  lemma RowRejected(rows: seq<CsvRow>, i: nat, validate: CustomerData -> Result<CustomerData, string>,
                    ownerExists: bool, userId: Id, now: Instant, firstId: nat,
                    success: seq<Imported>, failed: seq<Rejected>, error: string)
    requires i < |rows| && RowVerdict(rows[i], validate, ownerExists) == Err(error)
    requires success == Imports(rows[..i], validate, ownerExists, userId, now, firstId)
    requires failed == Rejections(rows[..i], validate, ownerExists)
    ensures Imports(rows[..i + 1], validate, ownerExists, userId, now, firstId) == success
    ensures Rejections(rows[..i + 1], validate, ownerExists) == failed + [Rejected(i + 2, rows[i], error)]
  {
    var pre := rows[..i + 1];
    assert pre[..i] == rows[..i] && pre[i] == rows[i];
  }

  /** One more import adds its customer at the end. */
  lemma ImportedCustomersAppend(imports: seq<Imported>, x: Imported)
    ensures ImportedCustomers(imports + [x]) == ImportedCustomers(imports) + [x.customer]
  {
    assert (imports + [x])[..|imports|] == imports;
  }

  /** The `try` block of the import loop: map the row, validate it and create the
    * customer; the error of whichever step throws is caught as `Err`. */
  method CreateFromRow(store: SqliteStorage, row: CsvRow, validate: CustomerData -> Result<CustomerData, string>,
                       userId: Id, now: Instant)
    returns (created: Result<Customer, string>)
    requires store.Valid()
    modifies store
    ensures store.Valid()
    ensures created.Err? <==> RowVerdict(row, validate, userId in Keys(old(store.users), UserKey)).Err?
    ensures created.Err? ==>
      && RowVerdict(row, validate, userId in Keys(old(store.users), UserKey)).error == ErrorText(created.error)
      && unchanged(store)
    ensures created.Ok? ==>
      && created.value == NewCustomer(RowVerdict(row, validate, userId in Keys(old(store.users), UserKey)).value,
                                      old(store.nextId), userId, now)
      && store.customers == old(store.customers) + [created.value]
      && store.nextId == old(store.nextId) + 1
      && store.users == old(store.users) && store.purchases == old(store.purchases)
      && store.payments == old(store.payments)
  {
    var validated := validate(MapRow(row));
    if validated.Err? {
      return Err(validated.error);
    }
    var d := validated.value;
    created := store.CreateCustomer(d.name, d.email, d.phone, d.company, userId, now);
  }

  /** The body of the import loop for row `i`. */
  method ImportRow(store: SqliteStorage, parsed: seq<CsvRow>, i: nat,
                   validate: CustomerData -> Result<CustomerData, string>, userId: Id, now: Instant,
                   ghost ok: bool, ghost firstId: nat, ghost before: seq<Customer>,
                   success: seq<Imported>, failed: seq<Rejected>)
    returns (success': seq<Imported>, failed': seq<Rejected>)
    requires i < |parsed| && store.Valid()
    requires ok == (userId in Keys(store.users, UserKey))
    requires success == Imports(parsed[..i], validate, ok, userId, now, firstId)
    requires failed == Rejections(parsed[..i], validate, ok)
    requires store.customers == before + ImportedCustomers(success)
    requires store.nextId == firstId + |success|
    modifies store
    ensures store.Valid()
    ensures success' == Imports(parsed[..i + 1], validate, ok, userId, now, firstId)
    ensures failed' == Rejections(parsed[..i + 1], validate, ok)
    ensures store.customers == before + ImportedCustomers(success')
    ensures store.nextId == firstId + |success'|
    ensures store.users == old(store.users) && store.purchases == old(store.purchases)
    ensures store.payments == old(store.payments)
  {
    success', failed' := success, failed;
    var row := parsed[i];
    var rowNumber := i + 2;
    var created := CreateFromRow(store, row, validate, userId, now);
    RowRecorded(parsed, i, validate, ok, userId, now, firstId, success, failed, created);
    if created.Err? {
      failed' := failed' + [Rejected(rowNumber, row, ErrorText(created.error))];
    } else {
      ImportedCustomersAppend(success', Imported(rowNumber, created.value));
      success' := success' + [Imported(rowNumber, created.value)];
      AppendAssoc(before, ImportedCustomers(success), [created.value]);
    }
  }
}
