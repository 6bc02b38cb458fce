/** Calendar arithmetic the application gets from date-fns and JavaScript `Date`,
  * on a single wall clock (no time zones, no daylight saving).
  *
  * An instant is written as a month index (12 * year + month, months counted from 0),
  * a day within that month (from 0) and a millisecond within that day. */
module Calendar {

  const DayMs: int := 86_400_000

  predicate IsLeapYear(year: int)
  {
    year % 4 == 0 && (year % 100 != 0 || year % 400 == 0)
  }

  /** Number of days of the month with index `month` in the Gregorian calendar. */
  function DaysInMonth(month: int): (n: int)
    ensures 28 <= n <= 31
    ensures n < 30 <==> month % 12 == 1
    ensures month % 12 == 1 ==> (n == 29 <==> IsLeapYear(month / 12))
  {
    var year, m := month / 12, month % 12;
    if m == 1 then (if IsLeapYear(year) then 29 else 28)
    else if m == 3 || m == 5 || m == 8 || m == 10 then 30
    else 31
  }

  datatype RawInstant = At(month: int, day: int, ms: int)

  /** A well-formed instant: the day exists in its month and the time lies within the day. */
  type Instant = t: RawInstant | 0 <= t.day < DaysInMonth(t.month) && 0 <= t.ms < 86_400_000
    witness At(0, 0, 0)

  /** A number that orders instants chronologically (each month takes 31 day slots). */
  function Ordinal(t: Instant): int
  {
    t.month * 2_678_400_000 + t.day * 86_400_000 + t.ms
  }

  /** `a < b` on JavaScript dates. */
  predicate Before(a: Instant, b: Instant)
  {
    Ordinal(a) < Ordinal(b)
  }

  /** Distinct instants have distinct ordinals, so `Before` is a strict total order. */
  lemma OrdinalInjective(a: Instant, b: Instant)
    requires Ordinal(a) == Ordinal(b)
    ensures a == b
  {
    if a.month < b.month {
      LaterMonthIsLater(a, b);
    } else if b.month < a.month {
      LaterMonthIsLater(b, a);
    }
  }

  lemma LaterMonthIsLater(a: Instant, b: Instant)
    requires a.month < b.month
    ensures Before(a, b)
  {
  }

  /** date-fns `addMonths`: same day and time `k` months later, clamped to the last day
    * of the target month when that month is shorter. */
  function AddMonths(t: Instant, k: int): (r: Instant)
    ensures r.month == t.month + k && r.ms == t.ms
    ensures r.day == t.day || (t.day > r.day && r.day == DaysInMonth(r.month) - 1)
  {
    var month := t.month + k;
    At(month, if t.day < DaysInMonth(month) then t.day else DaysInMonth(month) - 1, t.ms)
  }

  /** date-fns `addYears`, which adds twelve months per year: the same month of the year,
    * with February 29 clamped to February 28 outside leap years. */
  function AddYears(t: Instant, k: int): (r: Instant)
    ensures r.month == t.month + 12 * k && r.month % 12 == t.month % 12 && r.ms == t.ms
    ensures r.day == t.day || (t.day > r.day && r.day == DaysInMonth(r.month) - 1)
  {
    AddMonths(t, 12 * k)
  }

  /** Adding more months gives a strictly later instant. */
  lemma AddMonthsStrictlyIncreasing(t: Instant, j: int, k: int)
    requires j < k
    ensures Before(AddMonths(t, j), AddMonths(t, k))
  {
    LaterMonthIsLater(AddMonths(t, j), AddMonths(t, k));
  }

  lemma AddMonthsZero(t: Instant)
    ensures AddMonths(t, 0) == t
  {
  }

  /** date-fns `startOfMonth`: midnight of the first day of the month, the earliest
    * instant of the month. */
  function StartOfMonth(t: Instant): (r: Instant)
    ensures r.month == t.month && !Before(t, r)
    ensures forall u: Instant :: u.month == t.month ==> !Before(u, r)
  {
    At(t.month, 0, 0)
  }

  /** date-fns `startOfYear`: midnight of the first of January, the earliest instant of
    * the year. */
  function StartOfYear(t: Instant): (r: Instant)
    ensures r.month % 12 == 0 && r.month / 12 == t.month / 12 && !Before(t, r)
    ensures forall u: Instant :: u.month / 12 == t.month / 12 ==> !Before(u, r)
  {
    At(t.month - t.month % 12, 0, 0)
  }

  /** `new Date(year, month + 1, 0, 23, 59, 59, 999)`: the last millisecond of the month. */
  function EndOfMonth(t: Instant): (r: Instant)
    ensures r.month == t.month && !Before(r, t)
    ensures forall u: Instant :: u.month == t.month ==> !Before(r, u)
  {
    At(t.month, DaysInMonth(t.month) - 1, DayMs - 1)
  }

  /** The start of the year is no later than the start of the month, which is no later
    * than the instant itself, which is no later than the end of the month. */
  lemma PeriodStartsOrdered(t: Instant)
    ensures !Before(t, StartOfMonth(t)) && !Before(StartOfMonth(t), StartOfYear(t))
    ensures !Before(EndOfMonth(t), t)
  {
  }

  /** `now.getTime() + days * 24 * 60 * 60 * 1000`: the same time of day `days` days later. */
  function AddDays(t: Instant, days: nat): (r: Instant)
    ensures r.ms == t.ms
    ensures days == 0 ==> r == t
    decreases days
  {
    var left := DaysInMonth(t.month) - t.day;
    if days < left then At(t.month, t.day + days, t.ms)
    else AddDays(At(t.month + 1, 0, t.ms), days - left)
  }

  /** The same time of day on the next calendar day: the next day of the month, or the
    * first of the next month after its last day. */
  function NextDay(t: Instant): (r: Instant)
    ensures r.ms == t.ms && Before(t, r)
    ensures r.month == t.month || (r.month == t.month + 1 && r.day == 0 && t.day == DaysInMonth(t.month) - 1)
    ensures r.month == t.month ==> r.day == t.day + 1
  {
    if t.day + 1 < DaysInMonth(t.month) then At(t.month, t.day + 1, t.ms) else At(t.month + 1, 0, t.ms)
  }

  /** Moving forward one day is moving to the next calendar day. */
  lemma AddDaysOne(t: Instant)
    ensures AddDays(t, 1) == NextDay(t)
  {
    var left := DaysInMonth(t.month) - t.day;
    if left == 1 {
      assert AddDays(At(t.month + 1, 0, t.ms), 0) == At(t.month + 1, 0, t.ms);
    }
  }

  /** Moving forward `n + 1` days is moving forward `n` days and then to the next calendar
    * day; with `AddDays(t, 0) == t` this fixes `AddDays(t, n)` as the `n`-th next day. */
  lemma AddDaysStep(t: Instant, n: nat)
    ensures AddDays(t, n + 1) == NextDay(AddDays(t, n))
  {
    AddDaysCompose(t, n, 1);
    AddDaysOne(AddDays(t, n));
  }

  /** Moving forward `a` days and then `b` days is moving forward `a + b` days. */
  lemma {:induction false} AddDaysCompose(t: Instant, a: nat, b: nat)
    ensures AddDays(AddDays(t, a), b) == AddDays(t, a + b)
    decreases a
  {
    var left := DaysInMonth(t.month) - t.day;
    if a >= left {
      AddDaysCompose(At(t.month + 1, 0, t.ms), a - left, b);
    }
  }

  /** Moving forward by a number of days never goes back, and strictly advances when
    * that number is positive. */
  lemma {:induction false} AddDaysAdvances(t: Instant, days: nat)
    ensures !Before(AddDays(t, days), t)
    ensures days > 0 ==> Before(t, AddDays(t, days))
    decreases days
  {
    var left := DaysInMonth(t.month) - t.day;
    if days >= left {
      var next: Instant := At(t.month + 1, 0, t.ms);
      AddDaysAdvances(next, days - left);
      LaterMonthIsLater(t, next);
    }
  }
}
