/** The folds over payments shared by the customer summaries and the KPI report:
  * paid total, overdue total and the next payment due. */
module Ledger {
  import opened Wrappers
  import opened Calendar
  import opened Money
  import opened Records
  import opened CustomerDetail

  /** A payment the paid total includes: stored as paid and, when a period start is given,
    * paid on or after it (a payment without a paid date is then left out). */
  predicate CountsAsPaid(p: Payment, since: Option<Instant>)
  {
    p.status == Paid && (since.None? || (p.paidDate.Some? && !Before(p.paidDate.value, since.value)))
  }

  /** A payment the overdue total includes: not stored as paid and due before `now`. */
  predicate CountsAsOverdue(p: Payment, now: Instant)
  {
    p.status != Paid && Before(p.dueDate, now)
  }

  /** A payment that can be the next one: not stored as paid and not due before `now`. */
  predicate IsPending(p: Payment, now: Instant)
  {
    p.status != Paid && !Before(p.dueDate, now)
  }

  predicate NonNegative(ps: seq<Payment>)
  {
    forall i :: 0 <= i < |ps| ==> ps[i].amount >= 0
  }

  function PaidTotal(ps: seq<Payment>, since: Option<Instant>): Cents
  {
    if ps == [] then 0
    else PaidTotal(ps[..|ps| - 1], since) + (if CountsAsPaid(ps[|ps| - 1], since) then ps[|ps| - 1].amount else 0)
  }

  function OverdueTotal(ps: seq<Payment>, now: Instant): Cents
  {
    if ps == [] then 0
    else OverdueTotal(ps[..|ps| - 1], now) + (if CountsAsOverdue(ps[|ps| - 1], now) then ps[|ps| - 1].amount else 0)
  }

  function AmountTotal(ps: seq<Payment>): Cents
  {
    if ps == [] then 0 else AmountTotal(ps[..|ps| - 1]) + ps[|ps| - 1].amount
  }

  /** Position of the next payment: the pending payment with the earliest due date, the
    * first one met when several share it. */
  function NextDueIndex(ps: seq<Payment>, now: Instant): (r: Option<nat>)
    ensures r.Some? ==> r.value < |ps|
  {
    if ps == [] then None
    else
      var n := |ps| - 1;
      var r := NextDueIndex(ps[..n], now);
      if IsPending(ps[n], now) && (r.None? || Before(ps[n].dueDate, ps[r.value].dueDate)) then Some(n)
      else r
  }

  /** The next payment exists exactly when some payment is pending; it is pending, no
    * pending payment is due before it, and every pending payment met before it is due
    * strictly later. */
  lemma {:induction false} NextDueIndexSpec(ps: seq<Payment>, now: Instant)
    ensures NextDueIndex(ps, now).None? <==> forall i :: 0 <= i < |ps| ==> !IsPending(ps[i], now)
    ensures NextDueIndex(ps, now).Some? ==>
      var k := NextDueIndex(ps, now).value;
      && IsPending(ps[k], now)
      && (forall i :: 0 <= i < |ps| && IsPending(ps[i], now) ==> !Before(ps[i].dueDate, ps[k].dueDate))
      && (forall i :: 0 <= i < k && IsPending(ps[i], now) ==> Before(ps[k].dueDate, ps[i].dueDate))
  {
    if ps != [] {
      var n := |ps| - 1;
      var prev := ps[..n];
      NextDueIndexSpec(prev, now);
      assert forall i :: 0 <= i < n ==> prev[i] == ps[i];
      var r := NextDueIndex(prev, now);
      if IsPending(ps[n], now) && (r.None? || Before(ps[n].dueDate, ps[r.value].dueDate)) {
        assert NextDueIndex(ps, now) == Some(n);
        forall i | 0 <= i < n && IsPending(ps[i], now) ensures Before(ps[n].dueDate, ps[i].dueDate) {
          assert IsPending(prev[i], now);
        }
      } else {
        assert NextDueIndex(ps, now) == r;
      }
    }
  }

  /** The summary of one customer from the payments of its purchases, in the order the
    * store visits them. */
  function Summarize(c: Customer, ps: seq<Payment>, now: Instant): CustomerSummary
  {
    var next := NextDueIndex(ps, now);
    CustomerSummary(
      c,
      if next.Some? then Some(ps[next.value].dueDate) else None,
      if next.Some? then Some(ps[next.value].amount) else None,
      OverdueTotal(ps, now),
      PaidTotal(ps, None))
  }

  /** The four running values of the customer summary fold (next date, next amount,
    * overdue total, paid total) equal the folds of the payments seen so far. */
  predicate Folded(seen: seq<Payment>, now: Instant, nextDate: Option<Instant>, nextAmount: Option<Cents>,
                   overdue: Cents, paid: Cents)
  {
    var k := NextDueIndex(seen, now);
    && paid == PaidTotal(seen, None) && overdue == OverdueTotal(seen, now)
    && nextDate == (if k.Some? then Some(seen[k.value].dueDate) else None)
    && nextAmount == (if k.Some? then Some(seen[k.value].amount) else None)
  }

  /** How each fold moves when one more payment is seen. */
  lemma FoldStep(s: seq<Payment>, x: Payment, now: Instant)
    ensures PaidTotal(s + [x], None) == PaidTotal(s, None) + (if x.status == Paid then x.amount else 0)
    ensures OverdueTotal(s + [x], now) == OverdueTotal(s, now) + (if CountsAsOverdue(x, now) then x.amount else 0)
    ensures NextDueIndex(s + [x], now) ==
      var k := NextDueIndex(s, now);
      if IsPending(x, now) && (k.None? || Before(x.dueDate, s[k.value].dueDate)) then Some(|s|) else k
    ensures forall i :: 0 <= i < |s| ==> (s + [x])[i] == s[i]
  {
    assert (s + [x])[..|s|] == s;
  }

  /** How the paid total moves when one more payment is seen, for any period start. */
  lemma PaidStep(s: seq<Payment>, x: Payment, since: Option<Instant>)
    ensures PaidTotal(s + [x], since) == PaidTotal(s, since) + (if CountsAsPaid(x, since) then x.amount else 0)
  {
    assert (s + [x])[..|s|] == s;
  }

  /** Both totals of a concatenation are the sums of the totals of its parts, so they do
    * not depend on how the payments are grouped. */
  lemma {:induction false} TotalsAppend(a: seq<Payment>, b: seq<Payment>, since: Option<Instant>, now: Instant)
    ensures PaidTotal(a + b, since) == PaidTotal(a, since) + PaidTotal(b, since)
    ensures OverdueTotal(a + b, now) == OverdueTotal(a, now) + OverdueTotal(b, now)
    decreases |b|
  {
    if b == [] {
      assert a + b == a;
    } else {
      var n := |b| - 1;
      TotalsAppend(a, b[..n], since, now);
      assert (a + b)[..|a + b| - 1] == a + b[..n];
    }
  }

  /** The inner loop of the customer summary fold: the payments of one purchase folded into
    * the running values, which afterwards are those of everything seen so far. */
  method FoldPayments(ps: seq<Payment>, now: Instant, ghost seen: seq<Payment>,
                      nextDate: Option<Instant>, nextAmount: Option<Cents>, overdue: Cents, paid: Cents)
    returns (nextDate': Option<Instant>, nextAmount': Option<Cents>, overdue': Cents, paid': Cents)
    requires Folded(seen, now, nextDate, nextAmount, overdue, paid)
    ensures Folded(seen + ps, now, nextDate', nextAmount', overdue', paid')
  {
    nextDate', nextAmount', overdue', paid' := nextDate, nextAmount, overdue, paid;
    ghost var cur := seen;
    assert ps[..0] == [];
    for j := 0 to |ps|
      invariant cur == seen + ps[..j]
      invariant Folded(cur, now, nextDate', nextAmount', overdue', paid')
    {
      var payment := ps[j];
      FoldStep(cur, payment, now);
      if payment.status == Paid {
        paid' := paid' + payment.amount;
      } else if Before(payment.dueDate, now) {
        overdue' := overdue' + payment.amount;
      } else if nextDate'.None? || Before(payment.dueDate, nextDate'.value) {
        nextDate' := Some(payment.dueDate);
        nextAmount' := Some(payment.amount);
      }
      assert ps[..j + 1] == ps[..j] + [payment];
      cur := cur + [payment];
    }
    assert ps[..|ps|] == ps;
  }

  /** A later period start can only leave payments out of the paid total. */
  lemma {:induction false} PaidTotalSinceMonotone(ps: seq<Payment>, later: Option<Instant>, earlier: Option<Instant>)
    requires NonNegative(ps)
    requires earlier.None? || (later.Some? && !Before(later.value, earlier.value))
    ensures PaidTotal(ps, later) <= PaidTotal(ps, earlier)
  {
    if ps != [] {
      PaidTotalSinceMonotone(ps[..|ps| - 1], later, earlier);
    }
  }

  /** No payment counts toward both totals: together they never exceed the sum of all
    * amounts. */
  lemma {:induction false} PaidAndOverdueDisjoint(ps: seq<Payment>, since: Option<Instant>, now: Instant)
    requires NonNegative(ps)
    ensures PaidTotal(ps, since) + OverdueTotal(ps, now) <= AmountTotal(ps)
  {
    if ps != [] {
      PaidAndOverdueDisjoint(ps[..|ps| - 1], since, now);
    }
  }

  /** The totals classify each payment exactly as the customer page's badge does. */
  lemma TotalsAgreeWithBadge(p: Payment, now: Instant)
    ensures CountsAsPaid(p, None) <==> PaymentStatus(p.status, p.dueDate, now) == ShownPaid
    ensures CountsAsOverdue(p, now) <==> PaymentStatus(p.status, p.dueDate, now) == ShownOverdue
    ensures IsPending(p, now) <==> PaymentStatus(p.status, p.dueDate, now) == ShownUpcoming
  {
  }
}
