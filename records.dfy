/** The rows of the four tables of the store (users, customers, purchases, payments)
  * and the customer summary the dashboard lists. */
module Records {
  import opened Wrappers
  import opened Calendar
  import opened Money

  /** Row identifiers; the store hands out fresh ones (the `randomUUID` oracle). */
  type Id = nat

  /** The text of a payment's `status` column; any other text is kept as it is. */
  datatype Status = Paid | Upcoming | Overdue | Other(text: string)

  datatype User = User(
    id: Id, username: string, password: string, role: string,
    createdAt: Instant, createdBy: Option<Id>)

  datatype Customer = Customer(
    id: Id, userId: Id, name: string,
    email: Option<string>, phone: Option<string>, company: Option<string>,
    createdAt: Instant, createdBy: Id)

  /** A purchase; its money columns are the strings the purchase schema validated. */
  datatype Purchase = Purchase(
    id: Id, customerId: Id, product: string, purchaseDate: Instant,
    initialPayment: string, rentalAmount: string, rentalFrequency: string,
    createdAt: Instant, createdBy: Id)

  /** A payment; `amount` is the number of cents its amount string denotes. */
  datatype Payment = Payment(
    id: Id, purchaseId: Id, amount: Cents, dueDate: Instant, status: Status,
    paidDate: Option<Instant>, createdAt: Instant, createdBy: Id, markedPaidBy: Option<Id>)

  /** A customer with the totals and the next payment the dashboard shows. */
  datatype CustomerSummary = CustomerSummary(
    customer: Customer,
    nextPaymentDate: Option<Instant>, nextPaymentAmount: Option<Cents>,
    totalOverdue: Cents, totalPaid: Cents)

  function UserKey(u: User): int { u.id }
  function CustomerKey(c: Customer): int { c.id }
  function PurchaseKey(p: Purchase): int { p.id }
  function PaymentKey(p: Payment): int { p.id }
  function Username(u: User): string { u.username }

  /** Ordering key of a payment by due date (`ORDER BY due_date ASC`). */
  function DueKey(p: Payment): int { Ordinal(p.dueDate) }

  predicate IsAdmin(u: User) { u.role == "admin" }
}
