/** The monthly partitions of the event table: calendar arithmetic. */
module Partitions {

  /** A calendar date; the proleptic Gregorian calendar, as in the standard library. */
  datatype Date = Date(year: int, month: int, day: int)

  /** A UTC time: a date and the microseconds since its midnight. */
  datatype Time = Time(date: Date, micros: nat)

  predicate IsLeap(y: int) {
    y % 4 == 0 && (y % 100 != 0 || y % 400 == 0)
  }

  function DaysIn(y: int, m: int): int {
    if m == 2 then (if IsLeap(y) then 29 else 28)
    else if m == 4 || m == 6 || m == 9 || m == 11 then 30 else 31
  }

  predicate IsDate(d: Date) {
    1 <= d.month <= 12 && 1 <= d.day <= DaysIn(d.year, d.month)
  }

  const DAY: nat := 86_400_000_000

  predicate IsTime(t: Time) {
    IsDate(t.date) && t.micros < DAY
  }

  /** The month after. */
  function NextMonth(y: int, m: int): (int, int) {
    if m == 12 then (y + 1, 1) else (y, m + 1)
  }

  function NextDay(d: Date): Date {
    if d.day < DaysIn(d.year, d.month) then d.(day := d.day + 1)
    else var (y, m) := NextMonth(d.year, d.month); Date(y, m, 1)
  }

  /** `d + timedelta(days=n)`, one day at a time. */
  function AddDays(d: Date, n: nat): Date
    decreases n
  {
    if n == 0 then d else AddDays(NextDay(d), n - 1)
  }

  function FirstOf(y: int, m: int): Time {
    Time(Date(y, m, 1), 0)
  }

  /** `_month_range`: back to the first at midnight; the end is four days past the 28th, back to the first. */
  function MonthRange(t: Time): (Time, Time) {
    var start := Time(t.date.(day := 1), 0);
    var later := AddDays(start.date.(day := 28), 4);
    (start, Time(later.(day := 1), start.micros))
  }

  // ---------------------------------------------------------------- adding days

  lemma {:induction false} AddDaysWithin(d: Date, n: nat)
    requires IsDate(d) && d.day + n <= DaysIn(d.year, d.month)
    ensures AddDays(d, n) == d.(day := d.day + n)
    decreases n
  {
    if n > 0 {
      AddDaysWithin(NextDay(d), n - 1);
    }
  }

  /** Adding at least the rest of the month passes through the first of the next one. */
  lemma {:induction false} AddDaysAcross(d: Date, n: nat)
    requires IsDate(d) && d.day + n > DaysIn(d.year, d.month)
    ensures
      var (y, m) := NextMonth(d.year, d.month);
      AddDays(d, n) == AddDays(Date(y, m, 1), n - (DaysIn(d.year, d.month) - d.day + 1))
    decreases n
  {
    if d.day < DaysIn(d.year, d.month) {
      AddDaysAcross(NextDay(d), n - 1);
    }
  }

  /** The ordinal the standard library computes with. */
  function Ordinal(d: Date): int {
    var y := d.year - 1;
    y * 365 + y / 4 - y / 100 + y / 400 + DaysBefore(d.year, d.month) + d.day
  }

  function DaysBefore(y: int, m: int): int
    decreases if m < 0 then 0 else m
  {
    if m <= 1 then 0 else DaysBefore(y, m - 1) + DaysIn(y, m - 1)
  }

  lemma YearLength(y: int)
    ensures DaysBefore(y, 12) + 31 == if IsLeap(y) then 366 else 365
  {
  }

  lemma LeapStep(y: int)
    ensures y / 4 - y / 100 + y / 400 == (y - 1) / 4 - (y - 1) / 100 + (y - 1) / 400 + if IsLeap(y) then 1 else 0
  {
    QuotientStep(y, 4);
    QuotientStep(y, 100);
    QuotientStep(y, 400);
  }

  lemma QuotientStep(y: int, k: int)
    requires k == 4 || k == 100 || k == 400
    ensures y / k == (y - 1) / k + if y % k == 0 then 1 else 0
  {
  }

  /** One calendar day is one ordinal, over month ends, year ends and leap days. */
  lemma NextDayOrdinal(d: Date)
    requires IsDate(d)
    ensures IsDate(NextDay(d)) && Ordinal(NextDay(d)) == Ordinal(d) + 1
  {
    if d.day == DaysIn(d.year, d.month) {
      if d.month == 12 {
        YearLength(d.year);
        LeapStep(d.year);
        assert DaysBefore(d.year + 1, 1) == 0;
      }
    }
  }

  /** Day-by-day addition agrees with ordinal addition, which is how the library adds. */
  lemma {:induction false} AddDaysOrdinal(d: Date, n: nat)
    requires IsDate(d)
    ensures IsDate(AddDays(d, n)) && Ordinal(AddDays(d, n)) == Ordinal(d) + n
    decreases n
  {
    NextDayOrdinal(d);
    if n > 0 {
      AddDaysOrdinal(NextDay(d), n - 1);
    }
  }

  // ---------------------------------------------------------------- one month

  /** For every time, leap years and year ends included, the range runs from the first of its month to the first of the next. */
  lemma MonthRangeExact(t: Time)
    requires IsTime(t)
    ensures
      var (y, m) := NextMonth(t.date.year, t.date.month);
      MonthRange(t) == (FirstOf(t.date.year, t.date.month), FirstOf(y, m))
  {
    var d := t.date.(day := 28);
    AddDaysAcross(d, 4);
    var (y, m) := NextMonth(t.date.year, t.date.month);
    AddDaysWithin(Date(y, m, 1), 4 - (DaysIn(d.year, d.month) - 28 + 1));
  }

  /** Times on one line. */
  function Instant(t: Time): int {
    Ordinal(t.date) * DAY + t.micros
  }

  predicate InRange(t: Time, range: (Time, Time)) {
    Instant(range.0) <= Instant(t) < Instant(range.1)
  }

  lemma MonthSpan(y: int, m: int)
    requires 1 <= m <= 12
    ensures var (y', m') := NextMonth(y, m); Ordinal(Date(y', m', 1)) == Ordinal(Date(y, m, 1)) + DaysIn(y, m)
  {
    NextDayOrdinal(Date(y, m, DaysIn(y, m)));
  }

  /** A month's serial number. */
  function Serial(y: int, m: int): int {
    12 * y + m
  }

  /** Later months start later. */
  lemma {:induction false} MonthsAscend(y: int, m: int, y': int, m': int)
    requires 1 <= m <= 12 && 1 <= m' <= 12 && Serial(y, m) < Serial(y', m')
    ensures var (y1, m1) := NextMonth(y, m); Ordinal(Date(y1, m1, 1)) <= Ordinal(Date(y', m', 1))
    decreases Serial(y', m') - Serial(y, m)
  {
    var (y1, m1) := NextMonth(y, m);
    if Serial(y1, m1) < Serial(y', m') {
      MonthsAscend(y1, m1, y', m');
      MonthSpan(y1, m1);
    } else {
      assert y1 == y' && m1 == m';
    }
  }

  /** A time lies in the partition of a month exactly when it is a time of that month: partitions never overlap or miss. */
  lemma PartitionIffMonth(t: Time, y: int, m: int)
    requires IsTime(t) && 1 <= m <= 12
    ensures InRange(t, MonthRange(FirstOf(y, m))) <==> t.date.year == y && t.date.month == m
  {
    MonthRangeExact(FirstOf(y, m));
    var ty, tm := t.date.year, t.date.month;
    MonthSpan(y, m);
    MonthSpan(ty, tm);
    assert Ordinal(Date(ty, tm, 1)) <= Ordinal(t.date) < Ordinal(Date(ty, tm, 1)) + DaysIn(ty, tm);
    if Serial(ty, tm) < Serial(y, m) {
      MonthsAscend(ty, tm, y, m);
    } else if Serial(y, m) < Serial(ty, tm) {
      MonthsAscend(y, m, ty, tm);
    }
    var o := Ordinal(t.date);
    assert Instant(t) < (o + 1) * DAY && o * DAY <= Instant(t);
  }

  // ---------------------------------------------------------------- the future partitions

  /** The month `k` after a month. */
  function MonthPlus(y: int, m: int, k: nat): (int, int)
    decreases k
  {
    if k == 0 then (y, m) else var (y', m') := NextMonth(y, m); MonthPlus(y', m', k - 1)
  }

  function DaysAcross(y: int, m: int, k: nat): nat
    decreases k
  {
    if k == 0 then 0 else var (y', m') := NextMonth(y, m); DaysIn(y, m) + DaysAcross(y', m', k - 1)
  }

  lemma {:induction false} AddDaysMonths(y: int, m: int, k: nat, n: nat)
    requires 1 <= m <= 12 && DaysAcross(y, m, k) <= n
    ensures
      var (y', m') := MonthPlus(y, m, k);
      1 <= m' <= 12 && AddDays(Date(y, m, 1), n) == AddDays(Date(y', m', 1), n - DaysAcross(y, m, k))
    decreases k
  {
    if k > 0 {
      AddDaysAcross(Date(y, m, 1), n);
      var (y1, m1) := NextMonth(y, m);
      AddDaysMonths(y1, m1, k - 1, n - DaysIn(y, m));
    }
  }

  /** Jumping 32 days per month from a first lands in the month that many months on, for up to three months. */
  lemma JumpLandsInMonth(y: int, m: int, k: nat)
    requires 1 <= m <= 12 && k <= 3
    ensures
      var d := AddDays(Date(y, m, 1), 32 * k);
      (d.year, d.month) == MonthPlus(y, m, k) && IsDate(d)
  {
    var (y1, m1) := NextMonth(y, m);
    var (y2, m2) := NextMonth(y1, m1);
    assert DaysAcross(y2, m2, 0) == 0 && DaysAcross(y1, m1, 0) == 0;
    assert DaysAcross(y2, m2, 1) == DaysIn(y2, m2);
    assert DaysAcross(y1, m1, 1) == DaysIn(y1, m1) && DaysAcross(y1, m1, 2) == DaysIn(y1, m1) + DaysIn(y2, m2);
    var across := DaysAcross(y, m, k);
    assert k == 1 ==> 28 <= across <= 31;
    assert k == 2 ==> 59 <= across <= 62;
    assert k == 3 ==> 89 <= across <= 92;
    AddDaysMonths(y, m, k, 32 * k);
    var (y', m') := MonthPlus(y, m, k);
    AddDaysWithin(Date(y', m', 1), 32 * k - across);
  }

  /** The loop that creates the partitions of this month and the next three. */
  method FuturePartitions(now: Time) returns (ranges: seq<(Time, Time)>)
    requires IsTime(now)
    ensures |ranges| == 4
    ensures forall k: nat | k < 4 ::
      var (y, m) := MonthPlus(now.date.year, now.date.month, k);
      var (y', m') := MonthPlus(now.date.year, now.date.month, k + 1);
      ranges[k] == (FirstOf(y, m), FirstOf(y', m'))
  {
    ranges := [];
    var y, m := now.date.year, now.date.month;
    for offset := 0 to 4
      invariant |ranges| == offset
      invariant forall k: nat | k < offset :: ranges[k] == Expected(y, m, k)
    {
      var jumped := AddDays(now.date.(day := 1), 32 * offset);
      JumpLandsInMonth(y, m, offset);
      var monthStart := Time(jumped.(day := 1), now.micros);
      MonthRangeExact(monthStart);
      MonthPlusNext(y, m, offset);
      ranges := ranges + [MonthRange(monthStart)];
    }
  }

  ghost function Expected(y: int, m: int, k: nat): (Time, Time) {
    var (y1, m1) := MonthPlus(y, m, k);
    var (y2, m2) := MonthPlus(y, m, k + 1);
    (FirstOf(y1, m1), FirstOf(y2, m2))
  }

  lemma {:induction false} MonthPlusNext(y: int, m: int, k: nat)
    ensures var (y1, m1) := MonthPlus(y, m, k); MonthPlus(y, m, k + 1) == NextMonth(y1, m1)
    decreases k
  {
    var (y', m') := NextMonth(y, m);
    if k == 0 {
      assert MonthPlus(y', m', 0) == (y', m');
    } else {
      MonthPlusNext(y', m', k - 1);
    }
  }

  lemma {:induction false} MonthPlusAscends(y: int, m: int, k: nat)
    requires 1 <= m <= 12
    ensures var (y1, m1) := MonthPlus(y, m, k); 1 <= m1 <= 12 && Serial(y1, m1) == Serial(y, m) + k
    decreases k
  {
    if k > 0 {
      var (y', m') := NextMonth(y, m);
      MonthPlusAscends(y', m', k - 1);
    }
  }

  /** Every instant from the start of this month to the end of the fourth falls in exactly one of the four partitions. */
  lemma ExactlyOnePartition(now: Time, t: Time)
    requires IsTime(now) && IsTime(t)
    requires
      var (y, m) := MonthPlus(now.date.year, now.date.month, 4);
      Instant(FirstOf(now.date.year, now.date.month)) <= Instant(t) < Instant(FirstOf(y, m))
    ensures exists k: nat | k < 4 :: InRange(t, Expected(now.date.year, now.date.month, k))
    ensures forall j: nat, k: nat | j < 4 && k < 4 && InRange(t, Expected(now.date.year, now.date.month, j))
              && InRange(t, Expected(now.date.year, now.date.month, k)) :: j == k
  {
    var y, m := now.date.year, now.date.month;
    if Instant(t) < Instant(Expected(y, m, 0).1) {
      assert InRange(t, Expected(y, m, 0));
    } else if Instant(t) < Instant(Expected(y, m, 1).1) {
      assert InRange(t, Expected(y, m, 1));
    } else if Instant(t) < Instant(Expected(y, m, 2).1) {
      assert InRange(t, Expected(y, m, 2));
    } else {
      assert InRange(t, Expected(y, m, 3));
    }
    forall j: nat, k: nat | j < 4 && k < 4 && InRange(t, Expected(y, m, j)) && InRange(t, Expected(y, m, k)) ensures j == k {
      OwnMonth(y, m, j, t);
      OwnMonth(y, m, k, t);
    }
  }

  lemma OwnMonth(y: int, m: int, k: nat, t: Time)
    requires 1 <= m <= 12 && IsTime(t) && InRange(t, Expected(y, m, k))
    ensures Serial(t.date.year, t.date.month) == Serial(y, m) + k
  {
    var (y1, m1) := MonthPlus(y, m, k);
    MonthPlusAscends(y, m, k);
    MonthPlusNext(y, m, k);
    MonthRangeExact(FirstOf(y1, m1));
    PartitionIffMonth(t, y1, m1);
  }
}
