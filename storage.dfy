/** The store: the four tables of the SQLite database (users, customers, purchases,
  * payments) held in memory, with the queries the routes and the dashboard use. */
module Storage {
  import opened Wrappers
  import opened Seqs
  import opened Calendar
  import opened Money
  import opened Records
  import opened Ledger
  import opened Schema

  const UsernameTaken := "Username already exists"
  const LastAdmin := "Cannot delete the last admin user"
  /** What SQLite reports when a row names a parent row that does not exist. */
  const ForeignKeyFailed := "FOREIGN KEY constraint failed"

  /** What the database guarantees about its tables: ids are handed out in increasing
    * order and never reused (so each is a primary key), usernames are unique, and every
    * customer, purchase and payment refers to an existing owner, customer and purchase. */
  ghost predicate TablesOk(users: seq<User>, customers: seq<Customer>, purchases: seq<Purchase>,
                           payments: seq<Payment>, nextId: nat)
  {
    && IncreasingBy(users, UserKey) && IncreasingBy(customers, CustomerKey)
    && IncreasingBy(purchases, PurchaseKey) && IncreasingBy(payments, PaymentKey)
    && (forall u :: u in users ==> u.id < nextId)
    && (forall c :: c in customers ==> c.id < nextId)
    && (forall p :: p in purchases ==> p.id < nextId)
    && (forall p :: p in payments ==> p.id < nextId)
    && DistinctBy(users, Username)
    && (forall c :: c in customers ==> c.userId in Keys(users, UserKey))
    && (forall p :: p in purchases ==> p.customerId in Keys(customers, CustomerKey))
    && (forall p :: p in payments ==> p.purchaseId in Keys(purchases, PurchaseKey))
  }

  /** The customers whose owner is among `owners` (`ON DELETE CASCADE` on `user_id`). */
  function CustomersOf(customers: seq<Customer>, owners: set<int>): (r: seq<Customer>)
    ensures forall c :: c in r <==> c in customers && c.userId in owners
  {
    Filter(customers, (c: Customer) => c.userId in owners)
  }

  /** The purchases whose customer is among `kept` (`ON DELETE CASCADE` on `customer_id`). */
  function PurchasesOf(purchases: seq<Purchase>, kept: set<int>): (r: seq<Purchase>)
    ensures forall p :: p in r <==> p in purchases && p.customerId in kept
  {
    Filter(purchases, (p: Purchase) => p.customerId in kept)
  }

  /** The payments whose purchase is among `kept` (`ON DELETE CASCADE` on `purchase_id`). */
  function PaymentsOf(payments: seq<Payment>, kept: set<int>): (r: seq<Payment>)
    ensures forall p :: p in r <==> p in payments && p.purchaseId in kept
  {
    Filter(payments, (p: Payment) => p.purchaseId in kept)
  }

  /** Number of administrators. */
  function AdminCount(users: seq<User>): nat
  {
    Count(users, IsAdmin)
  }

  /** The users left after deleting user `id`. */
  function WithoutUser(users: seq<User>, id: Id): (r: seq<User>)
    ensures forall u :: u in r <==> u in users && u.id != id
  {
    Filter(users, (u: User) => u.id != id)
  }

  /** The customers left after deleting customer `id` of owner `userId`. */
  function WithoutCustomer(customers: seq<Customer>, id: Id, userId: Id): (r: seq<Customer>)
    ensures forall c :: c in r <==> c in customers && !(c.id == id && c.userId == userId)
  {
    Filter(customers, (c: Customer) => !(c.id == id && c.userId == userId))
  }

  /** Removing rows and then the rows that depended on them leaves the tables consistent. */
  lemma CascadeKeepsTables(users: seq<User>, customers: seq<Customer>, purchases: seq<Purchase>,
                           payments: seq<Payment>, nextId: nat, users': seq<User>, customers': seq<Customer>,
                           purchases': seq<Purchase>, payments': seq<Payment>)
    requires TablesOk(users, customers, purchases, payments, nextId)
    requires IncreasingBy(users', UserKey) && DistinctBy(users', Username) && IncreasingBy(customers', CustomerKey)
    requires forall u :: u in users' ==> u in users
    requires forall c :: c in customers' ==> c in customers && c.userId in Keys(users', UserKey)
    requires purchases' == PurchasesOf(purchases, Keys(customers', CustomerKey))
    requires payments' == PaymentsOf(payments, Keys(purchases', PurchaseKey))
    ensures TablesOk(users', customers', purchases', payments', nextId)
  {
    FilterIncreasing(purchases, (p: Purchase) => p.customerId in Keys(customers', CustomerKey), PurchaseKey);
    var kept := Keys(purchases', PurchaseKey);
    FilterIncreasing(payments, (p: Payment) => p.purchaseId in kept, PaymentKey);
  }

  /** Deleting one user leaves an administrator whenever there was one and the deleted user
    * was not the only one. */
  lemma AdminSurvives(users: seq<User>, id: Id)
    requires IncreasingBy(users, UserKey)
    requires AdminCount(users) >= 2 || (AdminCount(users) >= 1 && forall u :: u in users && u.id == id ==> !IsAdmin(u))
    ensures AdminCount(WithoutUser(users, id)) >= 1
  {
    var admins := Filter(users, IsAdmin);
    FilterIncreasing(users, IsAdmin, UserKey);
    var a := if admins[0].id != id then admins[0] else admins[1];
    assert a in admins;
    assert a in Filter(WithoutUser(users, id), IsAdmin);
  }

  /** A user under the next id with a new username can be appended. */
  lemma AddUserOk(users: seq<User>, customers: seq<Customer>, purchases: seq<Purchase>,
                  payments: seq<Payment>, nextId: nat, u: User)
    requires TablesOk(users, customers, purchases, payments, nextId)
    requires u.id == nextId && forall i :: 0 <= i < |users| ==> users[i].username != u.username
    ensures TablesOk(users + [u], customers, purchases, payments, nextId + 1)
  {
    AppendIncreasing(users, UserKey, u);
    AppendDistinct(users, Username, u);
  }

  /** A customer under the next id whose owner exists can be appended. */
  lemma AddCustomerOk(users: seq<User>, customers: seq<Customer>, purchases: seq<Purchase>,
                      payments: seq<Payment>, nextId: nat, c: Customer)
    requires TablesOk(users, customers, purchases, payments, nextId)
    requires c.id == nextId && c.userId in Keys(users, UserKey)
    ensures TablesOk(users, customers + [c], purchases, payments, nextId + 1)
  {
    AppendIncreasing(customers, CustomerKey, c);
  }

  /** A purchase under the next id whose customer exists can be appended. */
  lemma AddPurchaseOk(users: seq<User>, customers: seq<Customer>, purchases: seq<Purchase>,
                      payments: seq<Payment>, nextId: nat, p: Purchase)
    requires TablesOk(users, customers, purchases, payments, nextId)
    requires p.id == nextId && p.customerId in Keys(customers, CustomerKey)
    ensures TablesOk(users, customers, purchases + [p], payments, nextId + 1)
  {
    AppendIncreasing(purchases, PurchaseKey, p);
  }

  /** A payment under the next id whose purchase exists can be appended. */
  lemma AddPaymentOk(users: seq<User>, customers: seq<Customer>, purchases: seq<Purchase>,
                     payments: seq<Payment>, nextId: nat, p: Payment)
    requires TablesOk(users, customers, purchases, payments, nextId)
    requires p.id == nextId && p.purchaseId in Keys(purchases, PurchaseKey)
    ensures TablesOk(users, customers, purchases, payments + [p], nextId + 1)
  {
    AppendIncreasing(payments, PaymentKey, p);
  }

  /** Replacing a customer by a row with the same id and owner keeps the tables consistent. */
  lemma ReplaceCustomerOk(users: seq<User>, customers: seq<Customer>, purchases: seq<Purchase>,
                          payments: seq<Payment>, nextId: nat, e: Customer, row: Customer)
    requires TablesOk(users, customers, purchases, payments, nextId)
    requires e in customers && row.id == e.id && row.userId == e.userId
    ensures TablesOk(users, ReplaceWhere(customers, CustomerKey, e.id, row), purchases, payments, nextId)
  {
    ReplaceKeepsKeys(customers, CustomerKey, e.id, row);
  }

  /** Replacing a purchase by a row with the same id and customer keeps the tables consistent. */
  lemma ReplacePurchaseOk(users: seq<User>, customers: seq<Customer>, purchases: seq<Purchase>,
                          payments: seq<Payment>, nextId: nat, e: Purchase, row: Purchase)
    requires TablesOk(users, customers, purchases, payments, nextId)
    requires e in purchases && row.id == e.id && row.customerId == e.customerId
    ensures TablesOk(users, customers, ReplaceWhere(purchases, PurchaseKey, e.id, row), payments, nextId)
  {
    ReplaceKeepsKeys(purchases, PurchaseKey, e.id, row);
  }

  /** Replacing a payment by a row with the same id and purchase keeps the tables consistent. */
  lemma ReplacePaymentOk(users: seq<User>, customers: seq<Customer>, purchases: seq<Purchase>,
                         payments: seq<Payment>, nextId: nat, e: Payment, row: Payment)
    requires TablesOk(users, customers, purchases, payments, nextId)
    requires e in payments && row.id == e.id && row.purchaseId == e.purchaseId
    ensures TablesOk(users, customers, purchases, ReplaceWhere(payments, PaymentKey, e.id, row), nextId)
  {
    ReplaceKeepsKeys(payments, PaymentKey, e.id, row);
  }

  /** Reading a row back after `UPDATE ... WHERE id = ?` gives the row written, so
    * `updatePurchase` may answer with the row it wrote. */
  lemma ReadBackPurchase(purchases: seq<Purchase>, id: Id, row: Purchase)
    requires IncreasingBy(purchases, PurchaseKey) && id in Keys(purchases, PurchaseKey) && row.id == id
    ensures FindBy(ReplaceWhere(purchases, PurchaseKey, id, row), PurchaseKey, id) == Some(row)
  {
    ReplaceKeepsKeys(purchases, PurchaseKey, id, row);
    FindByUnique(ReplaceWhere(purchases, PurchaseKey, id, row), PurchaseKey, row);
  }

  /** A partial update of a purchase: a field left as `Keep` was not in the request. The
    * customer can be named too, but the store never moves a purchase to another customer. */
  datatype PurchasePatch = PurchasePatch(
    customerId: Patch<Id>, product: Patch<string>, purchaseDate: Patch<Instant>,
    initialPayment: Patch<string>, rentalAmount: Patch<string>, rentalFrequency: Patch<string>)

  /** Whether the update names any column the store writes. */
  predicate AnyColumn(u: PurchasePatch)
  {
    u.product.Set? || u.purchaseDate.Set? || u.initialPayment.Set? || u.rentalAmount.Set? || u.rentalFrequency.Set?
  }

  /** The purchase after an update: each supplied column replaced, everything else kept. */
  function PatchedPurchase(e: Purchase, u: PurchasePatch): (r: Purchase)
    ensures r.id == e.id && r.customerId == e.customerId
    ensures r.createdAt == e.createdAt && r.createdBy == e.createdBy
    ensures u.product.Keep? ==> r.product == e.product
    ensures u.purchaseDate.Keep? ==> r.purchaseDate == e.purchaseDate
    ensures u.initialPayment.Keep? ==> r.initialPayment == e.initialPayment
    ensures u.rentalAmount.Keep? ==> r.rentalAmount == e.rentalAmount
    ensures u.rentalFrequency.Keep? ==> r.rentalFrequency == e.rentalFrequency
    ensures u.product.Set? ==> r.product == u.product.value
    ensures u.purchaseDate.Set? ==> r.purchaseDate == u.purchaseDate.value
    ensures u.initialPayment.Set? ==> r.initialPayment == u.initialPayment.value
    ensures u.rentalAmount.Set? ==> r.rentalAmount == u.rentalAmount.value
    ensures u.rentalFrequency.Set? ==> r.rentalFrequency == u.rentalFrequency.value
    ensures !AnyColumn(u) ==> r == e
  {
    e.(product := Apply(u.product, e.product),
       purchaseDate := Apply(u.purchaseDate, e.purchaseDate),
       initialPayment := Apply(u.initialPayment, e.initialPayment),
       rentalAmount := Apply(u.rentalAmount, e.rentalAmount),
       rentalFrequency := Apply(u.rentalFrequency, e.rentalFrequency))
  }

  /** A partial update of a payment, as the request body carries it. `paidDate` may be
    * left out (`Keep`), null (`Set(None)`) or a date. */
  datatype PaymentPatch = PaymentPatch(
    purchaseId: Patch<Id>, amount: Patch<Cents>, dueDate: Patch<Instant>,
    status: Patch<Status>, paidDate: Patch<Option<Instant>>)

  /** The payment `updatePayment` returns: every supplied field replaced, every other one
    * kept; a paid date given as null clears it. */
  function PatchedPayment(e: Payment, u: PaymentPatch): (r: Payment)
    ensures r.id == e.id && r.createdAt == e.createdAt && r.createdBy == e.createdBy
    ensures r.markedPaidBy == e.markedPaidBy
    ensures u.purchaseId.Keep? ==> r.purchaseId == e.purchaseId
    ensures u.amount.Keep? ==> r.amount == e.amount
    ensures u.dueDate.Keep? ==> r.dueDate == e.dueDate
    ensures u.status.Keep? ==> r.status == e.status
    ensures u.paidDate.Keep? ==> r.paidDate == e.paidDate
    ensures u.purchaseId.Set? ==> r.purchaseId == u.purchaseId.value
    ensures u.amount.Set? ==> r.amount == u.amount.value
    ensures u.dueDate.Set? ==> r.dueDate == u.dueDate.value
    ensures u.status.Set? ==> r.status == u.status.value
    ensures u.paidDate.Set? ==> r.paidDate == u.paidDate.value
  {
    e.(purchaseId := Apply(u.purchaseId, e.purchaseId),
       amount := Apply(u.amount, e.amount),
       dueDate := Apply(u.dueDate, e.dueDate),
       status := Apply(u.status, e.status),
       paidDate := Apply(u.paidDate, e.paidDate))
  }

  /** The row `updatePayment` writes: the columns amount, due date, status and paid date
    * of the returned payment; the purchase column is not written. */
  function StoredPayment(e: Payment, u: PaymentPatch): (r: Payment)
    ensures r.purchaseId == e.purchaseId && r.markedPaidBy == e.markedPaidBy
    ensures r.id == e.id && r.createdAt == e.createdAt && r.createdBy == e.createdBy
    ensures r.amount == PatchedPayment(e, u).amount && r.dueDate == PatchedPayment(e, u).dueDate
    ensures r.status == PatchedPayment(e, u).status && r.paidDate == PatchedPayment(e, u).paidDate
    ensures r == PatchedPayment(e, u) <==> u.purchaseId.Keep? || u.purchaseId.value == e.purchaseId
  {
    PatchedPayment(e, u).(purchaseId := e.purchaseId)
  }

  /** The columns `updatePurchase` may write, in the order it lists them. */
  datatype PurchaseColumn = ProductColumn | PurchaseDateColumn | InitialPaymentColumn
                          | RentalAmountColumn | RentalFrequencyColumn

  /** The column list and the new row `updatePurchase` builds, one supplied field at a
    * time: a column is listed exactly when its field was supplied. */
  method UpdateColumns(e: Purchase, updates: PurchasePatch) returns (updateFields: seq<PurchaseColumn>, row: Purchase)
    ensures row == PatchedPurchase(e, updates)
    ensures |updateFields| == 0 <==> !AnyColumn(updates)
    ensures ProductColumn in updateFields <==> updates.product.Set?
    ensures PurchaseDateColumn in updateFields <==> updates.purchaseDate.Set?
    ensures InitialPaymentColumn in updateFields <==> updates.initialPayment.Set?
    ensures RentalAmountColumn in updateFields <==> updates.rentalAmount.Set?
    ensures RentalFrequencyColumn in updateFields <==> updates.rentalFrequency.Set?
  {
    row := e;
    updateFields := [];
    if updates.product.Set? {
      updateFields := updateFields + [ProductColumn];
      row := row.(product := updates.product.value);
    }
    if updates.purchaseDate.Set? {
      updateFields := updateFields + [PurchaseDateColumn];
      row := row.(purchaseDate := updates.purchaseDate.value);
    }
    if updates.initialPayment.Set? {
      updateFields := updateFields + [InitialPaymentColumn];
      row := row.(initialPayment := updates.initialPayment.value);
    }
    if updates.rentalAmount.Set? {
      updateFields := updateFields + [RentalAmountColumn];
      row := row.(rentalAmount := updates.rentalAmount.value);
    }
    if updates.rentalFrequency.Set? {
      updateFields := updateFields + [RentalFrequencyColumn];
      row := row.(rentalFrequency := updates.rentalFrequency.value);
    }
  }

  /** A payment joined with its purchase and that purchase's customer, as the dashboard
    * queries select it (`INNER JOIN purchases ... INNER JOIN customers`). */
  datatype PaymentRow = PaymentRow(payment: Payment, product: string, customer: Customer)

  /** `WHERE customer_id = ?` on purchases. */
  function OfCustomer(customerId: Id): Purchase -> bool
  {
    (p: Purchase) => p.customerId == customerId
  }

  /** `WHERE purchase_id = ?` on payments. */
  function OfPurchase(purchaseId: Id): Payment -> bool
  {
    (p: Payment) => p.purchaseId == purchaseId
  }

  /** `WHERE user_id = ?` on customers. */
  function OwnedBy(userId: Id): Customer -> bool
  {
    (c: Customer) => c.userId == userId
  }

  /** `ORDER BY p.due_date ASC` on joined rows. */
  function RowDue(r: PaymentRow): int { Ordinal(r.payment.dueDate) }

  /** `getUpcomingPayments`' condition: not paid and due after `now`, at the latest on
    * `horizon`. */
  function DueWithin(now: Instant, horizon: Instant): PaymentRow -> bool
  {
    (r: PaymentRow) => r.payment.status != Paid && Before(now, r.payment.dueDate) && !Before(horizon, r.payment.dueDate)
  }

  /** `getOverduePaymentsCount`' condition, the live test of the summaries. */
  function LiveOverdue(now: Instant): PaymentRow -> bool
  {
    (r: PaymentRow) => CountsAsOverdue(r.payment, now)
  }

  /** `getOverduePayments`' condition: the stored label alone. */
  function StoredOverdue(r: PaymentRow): bool
  {
    r.payment.status == Overdue
  }

  /** `getThisMonthUpcomingPayments`' condition: stored as upcoming and due within the
    * calendar month of `now`, both ends included. */
  function UpcomingThisMonth(now: Instant): PaymentRow -> bool
  {
    (r: PaymentRow) => r.payment.status == Upcoming
      && !Before(r.payment.dueDate, StartOfMonth(now)) && !Before(EndOfMonth(now), r.payment.dueDate)
  }

  /** The payment queries return at most this many upcoming payments (`LIMIT 10`). */
  const UpcomingLimit: nat := 10

  /** The kinds of entry of the activity log. */
  datatype ActivityKind = CustomerCreated | PurchaseCreated | PaymentMarkedPaid

  /** An entry of the activity log: what happened to which row, when, and by whom. */
  datatype ActivityEntry = ActivityEntry(
    kind: ActivityKind, entityId: Id, createdAt: Instant, createdById: Id, createdByUsername: string)

  /** `ORDER BY created_at DESC`: the newest first. */
  function NewestFirst(e: ActivityEntry): int { -Ordinal(e.createdAt) }
  function NewestCustomer(c: Customer): int { -Ordinal(c.createdAt) }
  function NewestPurchase(p: Purchase): int { -Ordinal(p.createdAt) }
  /** `ORDER BY paid_date DESC` among payments that have a paid date. */
  function NewestPaid(p: Payment): int { if p.paidDate.Some? then -Ordinal(p.paidDate.value) else 0 }

  predicate HasPaidDate(p: Payment) { p.paidDate.Some? }
  predicate NoPaidDate(p: Payment) { p.paidDate.None? }

  /** `a` may be listed before `b` under `ORDER BY paid_date DESC`: a payment with a paid
    * date comes before one without (`NULL` is the smallest value), and a later paid date
    * before an earlier one. */
  predicate PaidNoEarlier(a: Payment, b: Payment)
  {
    b.paidDate.Some? ==> a.paidDate.Some? && !Before(a.paidDate.value, b.paidDate.value)
  }

  /** `ORDER BY paid_date DESC` over `ps`: the payments with a paid date, latest first,
    * then those without. */
  function PaidFirst(ps: seq<Payment>): (r: seq<Payment>)
    ensures multiset(r) == multiset(ps)
    ensures forall i, j :: 0 <= i < j < |r| ==> PaidNoEarlier(r[i], r[j])
  {
    var dated := Filter(ps, HasPaidDate);
    var sorted := SortBy(dated, NewestPaid);
    var undated := Filter(ps, NoPaidDate);
    FilterSplit(ps, HasPaidDate, NoPaidDate);
    PaidFirstOrdered(dated, sorted, undated);
    sorted + undated
  }

  lemma PaidFirstOrdered(dated: seq<Payment>, sorted: seq<Payment>, undated: seq<Payment>)
    requires forall x :: x in dated ==> x.paidDate.Some?
    requires multiset(sorted) == multiset(dated) && SortedBy(sorted, NewestPaid)
    requires forall x :: x in undated ==> x.paidDate.None?
    ensures forall i, j :: 0 <= i < j < |sorted + undated| ==>
      PaidNoEarlier((sorted + undated)[i], (sorted + undated)[j])
  {
    var all := sorted + undated;
    forall i, j | 0 <= i < j < |all| ensures PaidNoEarlier(all[i], all[j]) {
      if j < |sorted| {
        assert sorted[i] in multiset(dated) && sorted[j] in multiset(dated);
        assert NewestPaid(sorted[i]) <= NewestPaid(sorted[j]);
      } else {
        assert all[j] in undated;
      }
    }
  }

  /** `ORDER BY paid_date DESC LIMIT n` over `ps`. A payment of `ps` is left out only when
    * `n` payments paid no earlier were kept. */
  function PaidDateDesc(ps: seq<Payment>, n: nat): (r: seq<Payment>)
    ensures |r| == if |ps| <= n then |ps| else n
    ensures multiset(r) <= multiset(ps)
    ensures forall i, j :: 0 <= i < j < |r| ==> PaidNoEarlier(r[i], r[j])
    ensures forall p :: p in ps && p !in r ==> |r| == n && forall y :: y in r ==> PaidNoEarlier(y, p)
  {
    var all := PaidFirst(ps);
    var r := Take(all, n);
    forall p | p in ps && p !in r
      ensures |r| == n && forall y :: y in r ==> PaidNoEarlier(y, p)
    {
      assert p in multiset(all);
      var k := TakeLeavesOut(all, n, p);
      forall y | y in r ensures PaidNoEarlier(y, p) {
        var i :| 0 <= i < |r| && r[i] == y;
        assert all[i] == y;
      }
    }
    r
  }

  /** A payment the activity log reports: paid, with the user who marked it recorded. */
  predicate MarkedPaid(p: Payment)
  {
    p.status == Paid && p.markedPaidBy.Some?
  }

  /** `log` holds at most `limit` of `entries`, newest first, and an entry is dropped only
    * when `limit` entries no older were kept. */
  predicate KeepsNewest(log: seq<ActivityEntry>, entries: seq<ActivityEntry>, limit: nat)
  {
    && |log| <= limit
    && SortedBy(log, NewestFirst)
    && multiset(log) <= multiset(entries)
    && (forall e :: e in log ==> e in entries)
    && forall e :: e in entries && e !in log ==>
         |log| == limit && forall f :: f in log ==> NewestFirst(f) <= NewestFirst(e)
  }

  /** The activity log's last step keeps the newest `limit` entries. */
  lemma NewestEntries(entries: seq<ActivityEntry>, limit: nat)
    ensures KeepsNewest(Take(SortBy(entries, NewestFirst), limit), entries, limit)
  {
    var log := SortTake(entries, NewestFirst, limit);
    assert log == Take(SortBy(entries, NewestFirst), limit);
    forall e | e in log ensures e in entries {
      assert e in multiset(log);
    }
  }

  class SqliteStorage {
    var users: seq<User>
    var customers: seq<Customer>
    var purchases: seq<Purchase>
    var payments: seq<Payment>
    /** The next fresh id; stands for `randomUUID`. */
    var nextId: nat

    ghost predicate Valid()
      reads this
    {
      TablesOk(users, customers, purchases, payments, nextId)
    }

    constructor ()
      ensures Valid()
      ensures users == [] && customers == [] && purchases == [] && payments == []
    {
      users, customers, purchases, payments := [], [], [], [];
      nextId := 0;
    }

    /** Replaces the four tables at once by tables already known to be consistent. */
    method SetTables(users': seq<User>, customers': seq<Customer>, purchases': seq<Purchase>, payments': seq<Payment>)
      requires TablesOk(users', customers', purchases', payments', nextId)
      modifies this
      ensures Valid()
      ensures users == users' && customers == customers' && purchases == purchases' && payments == payments'
      ensures nextId == old(nextId)
    {
      users, customers, purchases, payments := users', customers', purchases', payments';
    }

    function GetUser(id: Id): (r: Option<User>)
      reads this
      ensures r.Some? ==> r.value in users && r.value.id == id
      ensures r.None? <==> forall u :: u in users ==> u.id != id
    {
      FindBy(users, UserKey, id)
    }

    function GetUserByUsername(username: string): (r: Option<User>)
      reads this
      ensures r.Some? ==> r.value in users && r.value.username == username
      ensures r.None? <==> forall u :: u in users ==> u.username != username
    {
      var found := Filter(users, (u: User) => u.username == username);
      if found == [] then None else Some(found[0])
    }

    /** Inserts a user under a fresh id; the unique username constraint turns a second
      * user of the same name into an error. */
    method InsertUser(username: string, password: string, role: string, createdBy: Option<Id>, now: Instant)
      returns (r: Result<User, string>)
      requires Valid()
      modifies this
      ensures Valid()
      ensures r.Err? <==> old(GetUserByUsername(username)).Some?
      ensures r.Err? ==> r.error == UsernameTaken && unchanged(this)
      ensures r.Ok? ==> && r.value == User(old(nextId), username, password, role, now, createdBy)
                        && users == old(users) + [r.value] && nextId == old(nextId) + 1
                        && customers == old(customers) && purchases == old(purchases) && payments == old(payments)
    {
      if GetUserByUsername(username).Some? {
        return Err(UsernameTaken);
      }
      var user := User(nextId, username, password, role, now, createdBy);
      AddUserOk(users, customers, purchases, payments, nextId, user);
      users := users + [user];
      nextId := nextId + 1;
      r := Ok(user);
    }

    /** `createUser`: self-registration, always with the role "user" and no creator. */
    method CreateUser(username: string, password: string, now: Instant) returns (r: Result<User, string>)
      requires Valid()
      modifies this
      ensures Valid()
      ensures r.Err? <==> old(GetUserByUsername(username)).Some?
      ensures r.Err? ==> r.error == UsernameTaken && unchanged(this)
      ensures r.Ok? ==> && r.value == User(old(nextId), username, password, "user", now, None)
                        && users == old(users) + [r.value] && nextId == old(nextId) + 1
                        && customers == old(customers) && purchases == old(purchases) && payments == old(payments)
    {
      r := InsertUser(username, password, "user", None, now);
    }

    /** `createUserByAdmin`: a user with the validated role, recorded as created by the admin. */
    method CreateUserByAdmin(input: NewUser, adminId: Id, now: Instant) returns (r: Result<User, string>)
      requires Valid()
      modifies this
      ensures Valid()
      ensures r.Err? <==> old(GetUserByUsername(input.username)).Some?
      ensures r.Err? ==> r.error == UsernameTaken && unchanged(this)
      ensures r.Ok? ==> && r.value == User(old(nextId), input.username, input.password, input.role, now, Some(adminId))
                        && users == old(users) + [r.value] && nextId == old(nextId) + 1
                        && customers == old(customers) && purchases == old(purchases) && payments == old(payments)
    {
      r := InsertUser(input.username, input.password, input.role, Some(adminId), now);
    }

    /** `deleteUser`: false for an unknown id; an error when the user is an admin and there
      * is at most one admin; otherwise the user goes, and with it (by cascade) its customers,
      * their purchases and their payments. */
    method DeleteUser(id: Id) returns (r: Result<bool, string>)
      requires Valid()
      modifies this
      ensures Valid()
      ensures old(GetUser(id)).None? ==> r == Ok(false) && unchanged(this)
      ensures old(GetUser(id)).Some? && IsAdmin(old(GetUser(id)).value) && old(AdminCount(users)) <= 1 ==>
        r == Err(LastAdmin) && unchanged(this)
      ensures r == Ok(true) <==>
        old(GetUser(id)).Some? && !(IsAdmin(old(GetUser(id)).value) && old(AdminCount(users)) <= 1)
      ensures r == Ok(true) ==>
        && users == WithoutUser(old(users), id)
        && customers == CustomersOf(old(customers), Keys(users, UserKey))
        && purchases == PurchasesOf(old(purchases), Keys(customers, CustomerKey))
        && payments == PaymentsOf(old(payments), Keys(purchases, PurchaseKey))
        && nextId == old(nextId)
      ensures old(AdminCount(users)) >= 1 ==> AdminCount(users) >= 1
    {
      var user := GetUser(id);
      if user.None? {
        return Ok(false);
      }
      var adminCount := AdminCount(users);
      if IsAdmin(user.value) && adminCount <= 1 {
        return Err(LastAdmin);
      }
      if adminCount >= 1 {
        FindByUnique(users, UserKey, user.value);
        AdminSurvives(users, id);
      }
      var users' := WithoutUser(users, id);
      FilterIncreasing(users, (u: User) => u.id != id, UserKey);
      FilterDistinct(users, (u: User) => u.id != id, Username);
      var owners := Keys(users', UserKey);
      var customers' := CustomersOf(customers, owners);
      FilterIncreasing(customers, (c: Customer) => c.userId in owners, CustomerKey);
      var purchases' := PurchasesOf(purchases, Keys(customers', CustomerKey));
      var payments' := PaymentsOf(payments, Keys(purchases', PurchaseKey));
      CascadeKeepsTables(users, customers, purchases, payments, nextId, users', customers', purchases', payments');
      SetTables(users', customers', purchases', payments');
      r := Ok(true);
    }

    /** `getCustomer`: the customer with this id, only if `userId` owns it. */
    function GetCustomer(id: Id, userId: Id): (r: Option<Customer>)
      reads this
      ensures r.Some? ==> r.value in customers && r.value.id == id && r.value.userId == userId
      ensures r.None? <==> forall c :: c in customers ==> !(c.id == id && c.userId == userId)
    {
      var owned := Filter(customers, (c: Customer) => c.userId == userId);
      var r := FindBy(owned, CustomerKey, id);
      assert r.None? ==> forall c :: c in owned ==> c.id != id by {
        if r.None? {
          forall c | c in owned ensures c.id != id {
            assert CustomerKey(c) in Keys(owned, CustomerKey);
          }
        }
      }
      r
    }

    /** `createCustomer`: a customer under a fresh id owned and created by `userId`; the
      * owner must exist. */
    method CreateCustomer(name: string, email: Option<string>, phone: Option<string>, company: Option<string>,
                          userId: Id, now: Instant)
      returns (r: Result<Customer, string>)
      requires Valid()
      modifies this
      ensures Valid()
      ensures r.Err? <==> userId !in Keys(old(users), UserKey)
      ensures r.Err? ==> r.error == ForeignKeyFailed && unchanged(this)
      ensures r.Ok? ==> && r.value == Customer(old(nextId), userId, name, email, phone, company, now, userId)
                        && customers == old(customers) + [r.value] && nextId == old(nextId) + 1
                        && users == old(users) && purchases == old(purchases) && payments == old(payments)
    {
      if userId !in Keys(users, UserKey) {
        return Err(ForeignKeyFailed);
      }
      var customer := Customer(nextId, userId, name, email, phone, company, now, userId);
      AddCustomerOk(users, customers, purchases, payments, nextId, customer);
      customers := customers + [customer];
      nextId := nextId + 1;
      r := Ok(customer);
    }

    /** `updateCustomer`: for an owned customer, replaces the name and every optional field
      * the request names; otherwise changes nothing and answers `None`. */
    method UpdateCustomer(id: Id, userId: Id, name: string, email: Patch<Option<string>>,
                          phone: Patch<Option<string>>, company: Patch<Option<string>>)
      returns (r: Option<Customer>)
      requires Valid()
      modifies this
      ensures Valid()
      ensures old(GetCustomer(id, userId)).None? ==> r.None? && unchanged(this)
      ensures old(GetCustomer(id, userId)).Some? ==>
        var e := old(GetCustomer(id, userId)).value;
        && r == Some(e.(name := name, email := Apply(email, e.email), phone := Apply(phone, e.phone),
                        company := Apply(company, e.company)))
        && customers == ReplaceWhere(old(customers), CustomerKey, id, r.value)
        && users == old(users) && purchases == old(purchases) && payments == old(payments)
        && nextId == old(nextId)
    {
      var existing := GetCustomer(id, userId);
      if existing.None? {
        return None;
      }
      var e := existing.value;
      var updated := e.(name := name, email := Apply(email, e.email), phone := Apply(phone, e.phone),
                        company := Apply(company, e.company));
      ReplaceCustomerOk(users, customers, purchases, payments, nextId, e, updated);
      customers := ReplaceWhere(customers, CustomerKey, id, updated);
      r := Some(updated);
    }

    /** `deleteCustomer`: for an owned customer, removes it and (by cascade) its purchases
      * and their payments, answering true; otherwise changes nothing and answers false. */
    method DeleteCustomer(id: Id, userId: Id) returns (deleted: bool)
      requires Valid()
      modifies this
      ensures Valid()
      ensures deleted <==> old(GetCustomer(id, userId)).Some?
      ensures !deleted ==> unchanged(this)
      ensures deleted ==>
        && customers == WithoutCustomer(old(customers), id, userId)
        && purchases == PurchasesOf(old(purchases), Keys(customers, CustomerKey))
        && payments == PaymentsOf(old(payments), Keys(purchases, PurchaseKey))
        && users == old(users) && nextId == old(nextId)
    {
      if GetCustomer(id, userId).None? {
        return false;
      }
      var customers' := WithoutCustomer(customers, id, userId);
      FilterIncreasing(customers, (c: Customer) => !(c.id == id && c.userId == userId), CustomerKey);
      var purchases' := PurchasesOf(purchases, Keys(customers', CustomerKey));
      var payments' := PaymentsOf(payments, Keys(purchases', PurchaseKey));
      CascadeKeepsTables(users, customers, purchases, payments, nextId, users, customers', purchases', payments');
      SetTables(users, customers', purchases', payments');
      deleted := true;
    }

    function GetPurchase(id: Id): (r: Option<Purchase>)
      reads this
      ensures r.Some? ==> r.value in purchases && r.value.id == id
      ensures r.None? <==> id !in Keys(purchases, PurchaseKey)
    {
      FindBy(purchases, PurchaseKey, id)
    }

    /** `getPurchasesByCustomer`: the customer's purchases in table order. */
    function PurchasesByCustomer(customerId: Id): (r: seq<Purchase>)
      reads this
      ensures forall p :: p in r <==> p in purchases && p.customerId == customerId
      ensures IsSubsequence(r, purchases)
    {
      FilterIsSubsequence(purchases, OfCustomer(customerId));
      Filter(purchases, OfCustomer(customerId))
    }

    /** `createPurchase`: a purchase under a fresh id created by `userId`; its customer
      * must exist. */
    method CreatePurchase(input: PurchaseInput, userId: Id, now: Instant) returns (r: Result<Purchase, string>)
      requires Valid()
      modifies this
      ensures Valid()
      ensures r.Err? <==> input.customerId !in Keys(old(customers), CustomerKey)
      ensures r.Err? ==> r.error == ForeignKeyFailed && unchanged(this)
      ensures r.Ok? ==> && r.value == Purchase(old(nextId), input.customerId, input.product, input.purchaseDate,
                                               input.initialPayment, input.rentalAmount, input.rentalFrequency,
                                               now, userId)
                        && purchases == old(purchases) + [r.value] && nextId == old(nextId) + 1
                        && users == old(users) && customers == old(customers) && payments == old(payments)
    {
      if input.customerId !in Keys(customers, CustomerKey) {
        return Err(ForeignKeyFailed);
      }
      var purchase := Purchase(nextId, input.customerId, input.product, input.purchaseDate,
                               input.initialPayment, input.rentalAmount, input.rentalFrequency, now, userId);
      AddPurchaseOk(users, customers, purchases, payments, nextId, purchase);
      purchases := purchases + [purchase];
      nextId := nextId + 1;
      r := Ok(purchase);
    }

    /** `updatePurchase`: `None` for an unknown id; the existing purchase, untouched, when
      * the request names no column; otherwise the purchase with the named columns
      * replaced, read back after the update. */
    method UpdatePurchase(id: Id, updates: PurchasePatch) returns (r: Option<Purchase>)
      requires Valid()
      modifies this
      ensures Valid()
      ensures old(GetPurchase(id)).None? ==> r.None? && unchanged(this)
      ensures old(GetPurchase(id)).Some? ==> r == Some(PatchedPurchase(old(GetPurchase(id)).value, updates))
      ensures !AnyColumn(updates) ==> unchanged(this)
      ensures old(GetPurchase(id)).Some? && AnyColumn(updates) ==>
        && purchases == ReplaceWhere(old(purchases), PurchaseKey, id, r.value)
        && users == old(users) && customers == old(customers) && payments == old(payments)
        && nextId == old(nextId)
    {
      var existing := GetPurchase(id);
      if existing.None? {
        return None;
      }
      var updateFields, row := UpdateColumns(existing.value, updates);
      if |updateFields| == 0 {
        return existing;
      }
      r := WritePurchase(existing.value, row);
    }

    /** `UPDATE purchases SET ... WHERE id = ?` followed by `getPurchase(id)`: the row
      * replaces the purchase with its id, and reading it back gives the row written. */
    method WritePurchase(e: Purchase, row: Purchase) returns (r: Option<Purchase>)
      requires Valid()
      requires e in purchases && row.id == e.id && row.customerId == e.customerId
      modifies this
      ensures Valid()
      ensures r == Some(row)
      ensures purchases == ReplaceWhere(old(purchases), PurchaseKey, e.id, row)
      ensures users == old(users) && customers == old(customers) && payments == old(payments)
      ensures nextId == old(nextId)
    {
      ReplacePurchaseOk(users, customers, purchases, payments, nextId, e, row);
      assert e.id in Keys(purchases, PurchaseKey);
      ReadBackPurchase(purchases, e.id, row);
      purchases := ReplaceWhere(purchases, PurchaseKey, e.id, row);
      r := FindBy(purchases, PurchaseKey, e.id);
    }

    function GetPayment(id: Id): (r: Option<Payment>)
      reads this
      ensures r.Some? ==> r.value in payments && r.value.id == id
      ensures r.None? <==> id !in Keys(payments, PaymentKey)
    {
      FindBy(payments, PaymentKey, id)
    }

    /** `getPaymentsByPurchase`: the purchase's payments, earliest due first. */
    function PaymentsByPurchase(purchaseId: Id): (r: seq<Payment>)
      reads this
      ensures multiset(r) == multiset(Filter(payments, OfPurchase(purchaseId)))
      ensures forall p :: p in r <==> p in payments && p.purchaseId == purchaseId
      ensures SortedBy(r, DueKey)
    {
      var mine := Filter(payments, OfPurchase(purchaseId));
      var r := SortBy(mine, DueKey);
      assert forall p :: p in r <==> p in mine by {
        forall p ensures p in r <==> p in mine { SortByMembers(mine, DueKey, p); }
      }
      r
    }

    /** `createPayment`: a payment under a fresh id created by `userId`, recorded as marked
      * paid by `userId` exactly when it comes with a paid date; its purchase must exist. */
    method CreatePayment(purchaseId: Id, amount: Cents, dueDate: Instant, status: Status,
                         paidDate: Option<Instant>, userId: Id, now: Instant)
      returns (r: Result<Payment, string>)
      requires Valid()
      modifies this
      ensures Valid()
      ensures r.Err? <==> purchaseId !in Keys(old(purchases), PurchaseKey)
      ensures r.Err? ==> r.error == ForeignKeyFailed && unchanged(this)
      ensures r.Ok? ==> && r.value.markedPaidBy == (if paidDate.Some? then Some(userId) else None)
                        && r.value == Payment(old(nextId), purchaseId, amount, dueDate, status, paidDate,
                                              now, userId, r.value.markedPaidBy)
                        && payments == old(payments) + [r.value] && nextId == old(nextId) + 1
                        && users == old(users) && customers == old(customers) && purchases == old(purchases)
    {
      if purchaseId !in Keys(purchases, PurchaseKey) {
        return Err(ForeignKeyFailed);
      }
      var payment := Payment(nextId, purchaseId, amount, dueDate, status, paidDate, now, userId,
                             if paidDate.Some? then Some(userId) else None);
      AddPaymentOk(users, customers, purchases, payments, nextId, payment);
      payments := payments + [payment];
      nextId := nextId + 1;
      r := Ok(payment);
    }

    /** `markPaymentPaid`: `None` for an unknown id; otherwise the payment becomes paid on
    * `now`, marked by `userId`, with amount, due date and purchase unchanged. */
    method MarkPaymentPaid(id: Id, userId: Id, now: Instant) returns (r: Option<Payment>)
      requires Valid()
      modifies this
      ensures Valid()
      ensures old(GetPayment(id)).None? ==> r.None? && unchanged(this)
      ensures old(GetPayment(id)).Some? ==>
        var e := old(GetPayment(id)).value;
        && r == Some(e.(status := Paid, paidDate := Some(now), markedPaidBy := Some(userId)))
        && r.value.amount == e.amount && r.value.dueDate == e.dueDate && r.value.purchaseId == e.purchaseId
        && payments == ReplaceWhere(old(payments), PaymentKey, id, r.value)
        && users == old(users) && customers == old(customers) && purchases == old(purchases)
        && nextId == old(nextId)
    {
      var existing := GetPayment(id);
      if existing.None? {
        return None;
      }
      var paid := existing.value.(status := Paid, paidDate := Some(now), markedPaidBy := Some(userId));
      ReplacePaymentOk(users, customers, purchases, payments, nextId, existing.value, paid);
      payments := ReplaceWhere(payments, PaymentKey, id, paid);
      r := Some(paid);
    }

    /** `updatePayment`: `None` for an unknown id; otherwise the payment with the supplied
      * fields replaced. The stored row takes the new amount, due date, status and paid date
      * but keeps its purchase, even when the returned payment names another one. */
    method UpdatePayment(id: Id, updates: PaymentPatch) returns (r: Option<Payment>)
      requires Valid()
      modifies this
      ensures Valid()
      ensures old(GetPayment(id)).None? ==> r.None? && unchanged(this)
      ensures old(GetPayment(id)).Some? ==>
        var e := old(GetPayment(id)).value;
        && r == Some(PatchedPayment(e, updates))
        && payments == ReplaceWhere(old(payments), PaymentKey, id, StoredPayment(e, updates))
        && users == old(users) && customers == old(customers) && purchases == old(purchases)
        && nextId == old(nextId)
    {
      var existing := GetPayment(id);
      if existing.None? {
        return None;
      }
      var updated := PatchedPayment(existing.value, updates);
      var stored := StoredPayment(existing.value, updates);
      ReplacePaymentOk(users, customers, purchases, payments, nextId, existing.value, stored);
      payments := ReplaceWhere(payments, PaymentKey, id, stored);
      r := Some(updated);
    }

    /** The payment joined with its purchase and that purchase's customer, when both exist
      * and the customer belongs to `userId`. */
    function RowFor(p: Payment, userId: Id): (r: Option<PaymentRow>)
      reads this
      ensures r.Some? <==>
        && GetPurchase(p.purchaseId).Some?
        && FindBy(customers, CustomerKey, GetPurchase(p.purchaseId).value.customerId).Some?
        && FindBy(customers, CustomerKey, GetPurchase(p.purchaseId).value.customerId).value.userId == userId
      ensures r.Some? ==> && r.value.payment == p && r.value.customer in customers
                          && r.value.customer.userId == userId
      ensures r.Some? ==> && GetPurchase(p.purchaseId).Some?
                          && r.value.product == GetPurchase(p.purchaseId).value.product
                          && r.value.customer.id == GetPurchase(p.purchaseId).value.customerId
    {
      match GetPurchase(p.purchaseId)
      case None => None
      case Some(pur) =>
        match FindBy(customers, CustomerKey, pur.customerId)
        case None => None
        case Some(c) => if c.userId == userId then Some(PaymentRow(p, pur.product, c)) else None
    }

    /** The rows of `ps` that join and belong to `userId`, in table order. */
    function JoinRows(ps: seq<Payment>, userId: Id): (rows: seq<PaymentRow>)
      reads this
      ensures forall r :: r in rows ==> r.payment in ps && RowFor(r.payment, userId) == Some(r)
      ensures forall p :: p in ps && RowFor(p, userId).Some? ==> RowFor(p, userId).value in rows
      ensures NoRepeats(ps) ==> NoRepeats(rows)
    {
      if ps == [] then []
      else
        var rest := JoinRows(ps[..|ps| - 1], userId);
        var p := ps[|ps| - 1];
        assert forall q :: q in ps ==> q in ps[..|ps| - 1] || q == p;
        LastNotRepeated(ps);
        match RowFor(p, userId)
        case None => rest
        case Some(row) =>
          AppendNew(rest, row);
          rest + [row]
    }

    /** Every payment of a customer `userId` owns, joined with its purchase and customer. */
    function OwnerRows(userId: Id): seq<PaymentRow>
      reads this
    {
      JoinRows(payments, userId)
    }

    /** `getUpcomingPayments(userId, daysAhead)`: the owner's unpaid payments due after
      * `now` and at most `daysAhead` days later, earliest first, at most ten of them; a
      * matching payment is left out only when ten others due no later were returned. */
    function UpcomingPayments(userId: Id, daysAhead: nat, now: Instant): (r: seq<PaymentRow>)
      reads this
      ensures |r| <= UpcomingLimit
      ensures SortedBy(r, RowDue)
      ensures multiset(r) <= multiset(Filter(OwnerRows(userId), DueWithin(now, AddDays(now, daysAhead))))
      ensures forall x :: x in r ==> x in OwnerRows(userId) && DueWithin(now, AddDays(now, daysAhead))(x)
      ensures forall x :: x in OwnerRows(userId) && DueWithin(now, AddDays(now, daysAhead))(x) && x !in r ==>
        |r| == UpcomingLimit && forall y :: y in r ==> RowDue(y) <= RowDue(x)
    {
      var matching := Filter(OwnerRows(userId), DueWithin(now, AddDays(now, daysAhead)));
      var r := SortTake(matching, RowDue, UpcomingLimit);
      assert forall x :: x in r ==> x in matching by {
        forall x | x in r ensures x in matching { assert multiset(r)[x] <= multiset(matching)[x]; }
      }
      r
    }

    /** `getOverduePaymentsCount(userId)`: how many of the owner's payments are unpaid and
      * due before `now`, by the same test as the customer summaries. */
    function OverduePaymentsCount(userId: Id, now: Instant): (n: nat)
      reads this
      ensures n == |Filter(OwnerRows(userId), LiveOverdue(now))|
      ensures n <= |OwnerRows(userId)|
    {
      Count(OwnerRows(userId), LiveOverdue(now))
    }

    /** `getOverduePayments(userId)`: the owner's payments whose stored status is
      * "overdue", earliest due first; the dates are not looked at. */
    function OverduePayments(userId: Id): (r: seq<PaymentRow>)
      reads this
      ensures multiset(r) == multiset(Filter(OwnerRows(userId), StoredOverdue))
      ensures forall x :: x in r <==> x in OwnerRows(userId) && x.payment.status == Overdue
      ensures SortedBy(r, RowDue)
    {
      var matching := Filter(OwnerRows(userId), StoredOverdue);
      var r := SortBy(matching, RowDue);
      assert forall x :: x in r <==> x in matching by {
        forall x ensures x in r <==> x in matching { SortByMembers(matching, RowDue, x); }
      }
      r
    }

    /** `getThisMonthUpcomingPayments(userId)`: the owner's payments stored as "upcoming"
      * that fall due within the calendar month of `now`, earliest first. */
    function ThisMonthUpcomingPayments(userId: Id, now: Instant): (r: seq<PaymentRow>)
      reads this
      ensures multiset(r) == multiset(Filter(OwnerRows(userId), UpcomingThisMonth(now)))
      ensures forall x :: x in r <==>
        (&& x in OwnerRows(userId) && x.payment.status == Upcoming
         && !Before(x.payment.dueDate, StartOfMonth(now)) && !Before(EndOfMonth(now), x.payment.dueDate))
      ensures SortedBy(r, RowDue)
    {
      var matching := Filter(OwnerRows(userId), UpcomingThisMonth(now));
      var r := SortBy(matching, RowDue);
      assert forall x :: x in r <==> x in matching by {
        forall x ensures x in r <==> x in matching { SortByMembers(matching, RowDue, x); }
      }
      r
    }

    /** Ids are primary keys, so no query lists the same row twice. */
    lemma QueriesListEachRowOnce(userId: Id, customerId: Id, purchaseId: Id, daysAhead: nat, now: Instant)
      requires Valid()
      ensures NoRepeats(OwnedCustomers(userId))
      ensures NoRepeats(PurchasesByCustomer(customerId))
      ensures NoRepeats(PaymentsByPurchase(purchaseId))
      ensures NoRepeats(UpcomingPayments(userId, daysAhead, now))
      ensures NoRepeats(OverduePayments(userId))
      ensures NoRepeats(ThisMonthUpcomingPayments(userId, now))
    {
      IncreasingNoRepeats(customers, CustomerKey);
      IncreasingNoRepeats(purchases, PurchaseKey);
      IncreasingNoRepeats(payments, PaymentKey);
      FilterSubMultiset(customers, OwnedBy(userId));
      SubMultisetNoRepeats(OwnedCustomers(userId), customers);
      FilterSubMultiset(purchases, OfCustomer(customerId));
      SubMultisetNoRepeats(PurchasesByCustomer(customerId), purchases);
      FilterSubMultiset(payments, OfPurchase(purchaseId));
      SubMultisetNoRepeats(PaymentsByPurchase(purchaseId), payments);
      var rows := OwnerRows(userId);
      var upcoming := Filter(rows, DueWithin(now, AddDays(now, daysAhead)));
      FilterSubMultiset(rows, DueWithin(now, AddDays(now, daysAhead)));
      SubMultisetNoRepeats(upcoming, rows);
      SubMultisetNoRepeats(UpcomingPayments(userId, daysAhead, now), upcoming);
      FilterSubMultiset(rows, StoredOverdue);
      SubMultisetNoRepeats(OverduePayments(userId), rows);
      FilterSubMultiset(rows, UpcomingThisMonth(now));
      SubMultisetNoRepeats(ThisMonthUpcomingPayments(userId, now), rows);
    }

    /** The name shown for a user id: its username, or "Unknown" when there is no such
      * user or the name is empty (`LEFT JOIN users` and `|| 'Unknown'`). */
    function UsernameOf(id: Id): (name: string)
      reads this
      ensures name != []
      ensures GetUser(id).Some? && GetUser(id).value.username != [] ==> name == GetUser(id).value.username
      ensures !(GetUser(id).Some? && GetUser(id).value.username != []) ==> name == "Unknown"
    {
      match GetUser(id)
      case Some(u) => if u.username != [] then u.username else "Unknown"
      case None => "Unknown"
    }

    function CustomerEntry(c: Customer): ActivityEntry
      reads this
    {
      ActivityEntry(CustomerCreated, c.id, c.createdAt, c.createdBy, UsernameOf(c.createdBy))
    }

    function PurchaseEntry(p: Purchase): ActivityEntry
      reads this
    {
      ActivityEntry(PurchaseCreated, p.id, p.createdAt, p.createdBy, UsernameOf(p.createdBy))
    }

    /** A payment without a paid date is dated `now`. */
    function PaymentEntry(p: Payment, now: Instant): ActivityEntry
      requires p.markedPaidBy.Some?
      reads this
    {
      ActivityEntry(PaymentMarkedPaid, p.id, if p.paidDate.Some? then p.paidDate.value else now,
                    p.markedPaidBy.value, UsernameOf(p.markedPaidBy.value))
    }

    /** The three queries of the activity log, each newest first and limited. Payments
      * without a paid date sort after the others (`NULL` is the smallest value). */
    function RecentCustomers(limit: nat): (r: seq<Customer>)
      reads this
      ensures |r| <= limit && SortedBy(r, NewestCustomer)
      ensures multiset(r) <= multiset(customers)
      ensures forall c :: c in customers && c !in r ==>
        |r| == limit && forall d :: d in r ==> !Before(d.createdAt, c.createdAt)
    {
      SortTake(customers, NewestCustomer, limit)
    }

    function RecentPurchases(limit: nat): (r: seq<Purchase>)
      reads this
      ensures |r| <= limit && SortedBy(r, NewestPurchase)
      ensures multiset(r) <= multiset(purchases)
      ensures forall p :: p in purchases && p !in r ==>
        |r| == limit && forall q :: q in r ==> !Before(q.createdAt, p.createdAt)
    {
      SortTake(purchases, NewestPurchase, limit)
    }

    function RecentPayments(limit: nat): (r: seq<Payment>)
      reads this
      ensures |r| <= limit
      ensures forall i :: 0 <= i < |r| ==> MarkedPaid(r[i])
      ensures multiset(r) <= multiset(Filter(payments, MarkedPaid))
      ensures forall i, j :: 0 <= i < j < |r| ==> PaidNoEarlier(r[i], r[j])
      ensures forall p :: p in payments && MarkedPaid(p) && p !in r ==>
        |r| == limit && forall y :: y in r ==> PaidNoEarlier(y, p)
    {
      var marked := Filter(payments, MarkedPaid);
      var r := PaidDateDesc(marked, limit);
      forall i | 0 <= i < |r| ensures MarkedPaid(r[i]) {
        assert multiset(r)[r[i]] <= multiset(marked)[r[i]];
      }
      r
    }

    /** The entries in the order the three loops of `getActivityLog` push them. */
    function CollectedEntries(limit: nat, now: Instant): seq<ActivityEntry>
      reads this
    {
      CustomerEntries(RecentCustomers(limit)) + PurchaseEntries(RecentPurchases(limit))
        + PaymentEntries(RecentPayments(limit), now)
    }

    function CustomerEntries(cs: seq<Customer>): (r: seq<ActivityEntry>)
      reads this
      ensures |r| == |cs| && forall i :: 0 <= i < |cs| ==> r[i] == CustomerEntry(cs[i])
    {
      if cs == [] then [] else CustomerEntries(cs[..|cs| - 1]) + [CustomerEntry(cs[|cs| - 1])]
    }

    function PurchaseEntries(ps: seq<Purchase>): (r: seq<ActivityEntry>)
      reads this
      ensures |r| == |ps| && forall i :: 0 <= i < |ps| ==> r[i] == PurchaseEntry(ps[i])
    {
      if ps == [] then [] else PurchaseEntries(ps[..|ps| - 1]) + [PurchaseEntry(ps[|ps| - 1])]
    }

    function PaymentEntries(ps: seq<Payment>, now: Instant): (r: seq<ActivityEntry>)
      requires forall i :: 0 <= i < |ps| ==> ps[i].markedPaidBy.Some?
      reads this
      ensures |r| == |ps| && forall i :: 0 <= i < |ps| ==> r[i] == PaymentEntry(ps[i], now)
    {
      if ps == [] then [] else PaymentEntries(ps[..|ps| - 1], now) + [PaymentEntry(ps[|ps| - 1], now)]
    }

    /** One loop of `getActivityLog` each: push one entry per row, in row order. */
    method PushCustomerEntries(entries: seq<ActivityEntry>, rows: seq<Customer>)
      returns (entries': seq<ActivityEntry>)
      ensures entries' == entries + CustomerEntries(rows)
    {
      entries' := entries;
      for i := 0 to |rows|
        invariant entries' == entries + CustomerEntries(rows[..i])
      {
        assert rows[..i + 1][..i] == rows[..i];
        entries' := entries' + [CustomerEntry(rows[i])];
      }
      assert rows[..|rows|] == rows;
    }

    method PushPurchaseEntries(entries: seq<ActivityEntry>, rows: seq<Purchase>)
      returns (entries': seq<ActivityEntry>)
      ensures entries' == entries + PurchaseEntries(rows)
    {
      entries' := entries;
      for i := 0 to |rows|
        invariant entries' == entries + PurchaseEntries(rows[..i])
      {
        assert rows[..i + 1][..i] == rows[..i];
        entries' := entries' + [PurchaseEntry(rows[i])];
      }
      assert rows[..|rows|] == rows;
    }

    method PushPaymentEntries(entries: seq<ActivityEntry>, rows: seq<Payment>, now: Instant)
      returns (entries': seq<ActivityEntry>)
      requires forall i :: 0 <= i < |rows| ==> rows[i].markedPaidBy.Some?
      ensures entries' == entries + PaymentEntries(rows, now)
    {
      entries' := entries;
      for i := 0 to |rows|
        invariant entries' == entries + PaymentEntries(rows[..i], now)
      {
        assert rows[..i + 1][..i] == rows[..i];
        entries' := entries' + [PaymentEntry(rows[i], now)];
      }
      assert rows[..|rows|] == rows;
    }

    /** `getActivityLog(limit)`: the customers created, the purchases created and the
      * payments marked paid, each query limited to `limit`, then all of them newest first
      * and cut to `limit`. */
    method ActivityLog(limit: nat, now: Instant) returns (log: seq<ActivityEntry>)
      ensures log == Take(SortBy(CollectedEntries(limit, now), NewestFirst), limit)
      ensures KeepsNewest(log, CollectedEntries(limit, now), limit)
    {
      var entries: seq<ActivityEntry> := [];
      entries := PushCustomerEntries(entries, RecentCustomers(limit));
      assert entries == CustomerEntries(RecentCustomers(limit));
      entries := PushPurchaseEntries(entries, RecentPurchases(limit));
      entries := PushPaymentEntries(entries, RecentPayments(limit), now);
      assert entries == CollectedEntries(limit, now);

      log := Take(SortBy(entries, NewestFirst), limit);
      NewestEntries(entries, limit);
    }

    /** The payments of a customer in the order `getCustomers` visits them: purchase by
      * purchase in table order, and within a purchase by due date. */
    function VisitOrder(ps: seq<Purchase>): seq<Payment>
      reads this
    {
      if ps == [] then [] else VisitOrder(ps[..|ps| - 1]) + PaymentsByPurchase(ps[|ps| - 1].id)
    }

    /** The summary `getCustomers` builds for one customer, with `now` read once. */
    method SummarizeCustomer(c: Customer, now: Instant) returns (summary: CustomerSummary)
      ensures summary == Summarize(c, VisitOrder(PurchasesByCustomer(c.id)), now)
    {
      var owned := PurchasesByCustomer(c.id);
      var nextPaymentDate: Option<Instant> := None;
      var nextPaymentAmount: Option<Cents> := None;
      var totalOverdue: Cents := 0;
      var totalPaid: Cents := 0;
      ghost var seen: seq<Payment> := [];

      for i := 0 to |owned|
        invariant seen == VisitOrder(owned[..i])
        invariant Folded(seen, now, nextPaymentDate, nextPaymentAmount, totalOverdue, totalPaid)
      {
        var ps := PaymentsByPurchase(owned[i].id);
        nextPaymentDate, nextPaymentAmount, totalOverdue, totalPaid :=
          FoldPayments(ps, now, seen, nextPaymentDate, nextPaymentAmount, totalOverdue, totalPaid);
        AppendSlice([], owned, i);
        seen := seen + ps;
      }
      assert owned[..|owned|] == owned;
      summary := CustomerSummary(c, nextPaymentDate, nextPaymentAmount, totalOverdue, totalPaid);
      assert summary == Summarize(c, seen, now);
    }

    /** The customers `userId` owns, newest first (`ORDER BY created_at DESC`). */
    function OwnedCustomers(userId: Id): (r: seq<Customer>)
      reads this
      ensures multiset(r) == multiset(Filter(customers, OwnedBy(userId)))
      ensures forall c :: c in r <==> c in customers && c.userId == userId
      ensures SortedBy(r, NewestCustomer)
    {
      var mine := Filter(customers, OwnedBy(userId));
      var r := SortBy(mine, NewestCustomer);
      assert forall c :: c in r <==> c in mine by {
        forall c ensures c in r <==> c in mine { SortByMembers(mine, NewestCustomer, c); }
      }
      r
    }

    /** `getCustomers(userId)`: one summary per owned customer, newest customer first. */
    method GetCustomers(userId: Id, now: Instant) returns (summaries: seq<CustomerSummary>)
      ensures |summaries| == |OwnedCustomers(userId)|
      ensures forall i :: 0 <= i < |summaries| ==>
        summaries[i] == Summarize(OwnedCustomers(userId)[i], VisitOrder(PurchasesByCustomer(OwnedCustomers(userId)[i].id)), now)
    {
      var rows := OwnedCustomers(userId);
      summaries := [];
      for i := 0 to |rows|
        invariant |summaries| == i
        invariant forall k :: 0 <= k < i ==>
          summaries[k] == Summarize(rows[k], VisitOrder(PurchasesByCustomer(rows[k].id)), now)
      {
        var summary := SummarizeCustomer(rows[i], now);
        summaries := summaries + [summary];
      }
    }
  }
}
