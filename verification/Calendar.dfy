/** Calendar arithmetic: civil timestamps, their order, and adding months with
    the day clamped to the end of the month. */
module Calendar {
  import opened Money

  /** Microseconds in a day. */
  const DAY := 86_400_000_000

  /** tick is the time of day in microseconds. */
  datatype Stamp = Stamp(year: nat, month: nat, day: nat, tick: nat)

  predicate IsLeap(year: nat) {
    year % 4 == 0 && (year % 100 != 0 || year % 400 == 0)
  }

  function MonthDays(year: nat, month: nat): (n: nat)
    requires 1 <= month <= 12
    ensures 28 <= n <= 31
  {
    if month == 2 then (if IsLeap(year) then 29 else 28)
    else if month == 4 || month == 6 || month == 9 || month == 11 then 30
    else 31
  }

  predicate Valid(s: Stamp) {
    1 <= s.year && 1 <= s.month <= 12 && 1 <= s.day <= MonthDays(s.year, s.month) && s.tick < DAY
  }

  type Time = s: Stamp | Valid(s) witness Stamp(1, 1, 1, 0)

  function AddMonths(s: Time, months: nat): (r: Time) {
    var total := s.month - 1 + months;
    var year := s.year + total / 12;
    var month := total % 12 + 1;
    Stamp(year, month, Min(s.day, MonthDays(year, month)), s.tick)
  }

  // ---------- The order of time ----------

  /** Months counted from year zero. */
  function Index(s: Time): nat { 12 * s.year + s.month - 1 }

  function DaysIn(index: nat): nat { MonthDays(index / 12, index % 12 + 1) }

  /** Days in all the months before one. */
  function DaysBefore(index: nat): nat {
    if index == 0 then 0 else DaysBefore(index - 1) + DaysIn(index - 1)
  }

  /** Microseconds on one line, so that a timestamp can be compared and shifted. */
  function Instant(s: Time): nat {
    (DaysBefore(Index(s)) + s.day - 1) * DAY + s.tick
  }

  predicate Earlier(a: Time, b: Time) {
    || Index(a) < Index(b)
    || (Index(a) == Index(b) && a.day < b.day)
    || (Index(a) == Index(b) && a.day == b.day && a.tick < b.tick)
  }

  lemma {:induction false} MonthsAscend(i: nat, j: nat)
    requires i < j
    ensures DaysBefore(i) + DaysIn(i) <= DaysBefore(j)
    decreases j
  {
    if i == j - 1 {
    } else {
      MonthsAscend(i, j - 1);
    }
  }

  lemma IndexSplits(s: Time)
    ensures Index(s) / 12 == s.year && Index(s) % 12 == s.month - 1 && DaysIn(Index(s)) == MonthDays(s.year, s.month)
  {
  }

  lemma DayNumbers(a: Time, b: Time)
    requires Index(a) < Index(b)
    ensures DaysBefore(Index(a)) + a.day <= DaysBefore(Index(b)) + b.day - 1
  {
    MonthsAscend(Index(a), Index(b));
    IndexSplits(a);
  }

  lemma DaysApart(p: nat, q: nat, s: nat, t: nat)
    requires p < q && s < DAY
    ensures p * DAY + s < q * DAY + t
  {
  }

  lemma EarlierFirst(a: Time, b: Time)
    ensures Earlier(a, b) ==> Instant(a) < Instant(b)
  {
    var p, q := DaysBefore(Index(a)) + a.day - 1, DaysBefore(Index(b)) + b.day - 1;
    if Index(a) < Index(b) {
      DayNumbers(a, b);
      DaysApart(p, q, a.tick, b.tick);
    } else if Index(a) == Index(b) && a.day < b.day {
      DaysApart(p, q, a.tick, b.tick);
    }
  }

  /** Comparing instants is comparing year, month, day and time in turn. */
  lemma InstantOrder(a: Time, b: Time)
    ensures Instant(a) < Instant(b) <==> Earlier(a, b)
    ensures Instant(a) == Instant(b) <==> a == b
  {
    EarlierFirst(a, b);
    EarlierFirst(b, a);
    if Index(a) == Index(b) {
      IndexSplits(a);
      IndexSplits(b);
    }
  }

  function DaysToMonth(year: nat, n: nat): nat
    requires n <= 12
  {
    if n == 0 then 0 else DaysToMonth(year, n - 1) + MonthDays(year, n)
  }

  lemma Quarter(year: nat, n: nat)
    requires n <= 9
    ensures DaysToMonth(year, n + 3)
      == DaysToMonth(year, n) + MonthDays(year, n + 1) + MonthDays(year, n + 2) + MonthDays(year, n + 3)
  {
    assert DaysToMonth(year, n + 2) == DaysToMonth(year, n + 1) + MonthDays(year, n + 2);
  }

  lemma {:induction false} MonthIndex(year: nat, n: nat)
    requires n < 12
    ensures DaysIn(12 * year + n) == MonthDays(year, n + 1)
  {
  }

  lemma {:induction false} MonthsOfYear(year: nat, n: nat)
    requires n <= 12
    ensures DaysBefore(12 * year + n) == DaysBefore(12 * year) + DaysToMonth(year, n)
  {
    if n == 0 {
    } else {
      MonthsOfYear(year, n - 1);
      MonthIndex(year, n - 1);
      assert DaysBefore(12 * year + n) == DaysBefore(12 * year + (n - 1)) + DaysIn(12 * year + (n - 1));
    }
  }

  /** The Gregorian months, and so the years: 365 days, or 366 in every fourth year
      but for the centuries not divisible by 400. */
  lemma GregorianYear(year: nat)
    requires year >= 1
    ensures var feb := if year % 400 == 0 || (year % 4 == 0 && year % 100 != 0) then 29 else 28;
      && (forall m :: 1 <= m <= 12 ==> MonthDays(year, m) == [31, feb, 31, 30, 31, 30, 31, 31, 30, 31, 30, 31][m - 1])
      && DaysBefore(12 * year + 12) - DaysBefore(12 * year) == 337 + feb
  {
    MonthsOfYear(year, 12);
    Quarter(year, 0);
    Quarter(year, 3);
    Quarter(year, 6);
    Quarter(year, 9);
  }

  // ---------- Adding months ----------

  /** The month moves by exactly the number asked for; day and time stay, but for
      the clamp to the end of the month. */
  lemma AddMonthsLands(s: Time, months: nat)
    ensures var r := AddMonths(s, months);
      && Index(r) == Index(s) + months && r.tick == s.tick
      && r.day == Min(s.day, DaysIn(Index(s) + months))
  {
    var total := s.month - 1 + months;
    assert (12 * s.year + total) / 12 == s.year + total / 12 && (12 * s.year + total) % 12 == total % 12;
  }

  lemma AddMonthsMovesOn(s: Time, months: nat)
    requires months >= 1
    ensures Instant(s) < Instant(AddMonths(s, months))
  {
    AddMonthsLands(s, months);
    InstantOrder(s, AddMonths(s, months));
  }

  /** Two dates of one month that the target month is too short to keep apart. */
  predicate Collapse(a: Time, b: Time, months: nat) {
    Index(a) == Index(b) && a.day < b.day && DaysIn(Index(a) + months) <= a.day
  }

  lemma NotLater(a: Time, b: Time)
    ensures Instant(a) <= Instant(b) <==> !Earlier(b, a)
  {
    InstantOrder(b, a);
  }

  lemma ClampOrder(a: Time, b: Time, months: nat)
    requires !Earlier(b, a)
    ensures var x, y := AddMonths(a, months), AddMonths(b, months);
      && (Index(x) < Index(y) || (Index(x) == Index(y) && x.day <= y.day))
      && (!Earlier(y, x) <==> !(Collapse(a, b, months) && b.tick < a.tick))
  {
    AddMonthsLands(a, months);
    AddMonthsLands(b, months);
  }

  /** On dates adding months is monotone. On timestamps it is so except exactly
      when the clamp lands both on one day and the later one is earlier in its day. */
  lemma AddMonthsMonotoneIff(a: Time, b: Time, months: nat)
    requires Instant(a) <= Instant(b)
    ensures var x, y := AddMonths(a, months), AddMonths(b, months);
      && (Index(x) < Index(y) || (Index(x) == Index(y) && x.day <= y.day))
      && (Instant(x) <= Instant(y) <==> !(Collapse(a, b, months) && b.tick < a.tick))
  {
    NotLater(a, b);
    ClampOrder(a, b, months);
    NotLater(AddMonths(a, months), AddMonths(b, months));
  }

  /** Such as late on January 30 against early on January 31, one month on. */
  lemma LateJanuaryOvertakes(year: nat)
    requires year >= 1
    ensures var a: Time, b: Time := Stamp(year, 1, 30, DAY - 1), Stamp(year, 1, 31, 0);
      Instant(a) < Instant(b) && Instant(AddMonths(b, 1)) < Instant(AddMonths(a, 1))
  {
    var a: Time, b: Time := Stamp(year, 1, 30, DAY - 1), Stamp(year, 1, 31, 0);
    InstantOrder(a, b);
    AddMonthsMonotoneIff(a, b, 1);
    IndexSplits(AddMonths(a, 1));
  }

  /** Adding in two goes lands in the same month as adding at once, never later
      and at most three days earlier. */
  lemma AddMonthsTwice(s: Time, a: nat, b: nat)
    ensures var once, twice := AddMonths(s, a + b), AddMonths(AddMonths(s, a), b);
      && Index(twice) == Index(once) && twice.tick == once.tick
      && twice.day <= once.day <= twice.day + 3
      && (twice == once <==> twice.day == once.day)
  {
  }
}
