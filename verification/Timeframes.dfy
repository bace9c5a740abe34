/** UTC candle periods: days, Monday weeks and Gregorian months.

    A time is a number of seconds since 0001-01-01T00:00:00Z. That day is a Monday, so the
    weekday of a day number is its remainder by 7. A month is numbered from January of year 1. */
module Timeframes {
  import opened Common

  type Time = nat

  const DAY: nat := 86400
  const WEEK: nat := 604800

  datatype Timeframe = Daily | Weekly | Monthly

  /* ---------- the proleptic Gregorian calendar ---------- */

  predicate IsLeap(year: nat) {
    year % 4 == 0 && (year % 100 != 0 || year % 400 == 0)
  }

  function DaysInMonth(year: nat, month: nat): (n: nat)
    ensures 28 <= n <= 31
  {
    if month == 2 then (if IsLeap(year) then 29 else 28)
    else if month == 4 || month == 6 || month == 9 || month == 11 then 30
    else 31
  }

  /** Day number of the first day of month number `k`, i.e. of month `k % 12 + 1` of year `k / 12 + 1`. */
  function MonthStart(k: nat): nat {
    if k == 0 then 0 else MonthStart(k - 1) + DaysInMonth((k - 1) / 12 + 1, (k - 1) % 12 + 1)
  }

  function MonthFrom(k: nat, day: nat): (m: nat)
    requires MonthStart(k) <= day
    ensures MonthStart(m) <= day < MonthStart(m + 1)
    decreases day - MonthStart(k)
  {
    if day < MonthStart(k + 1) then k else MonthFrom(k + 1, day)
  }

  /** The month number a day falls in. */
  function MonthOf(day: nat): (m: nat)
    ensures MonthStart(m) <= day < MonthStart(m + 1)
  {
    MonthFrom(0, day)
  }

  function Year(t: Time): (y: nat)
    ensures y >= 1
  {
    MonthOf(t / DAY) / 12 + 1
  }

  function Month(t: Time): (m: nat)
    ensures 1 <= m <= 12
  {
    MonthOf(t / DAY) % 12 + 1
  }

  function DayOfMonth(t: Time): nat { t / DAY - MonthStart(MonthOf(t / DAY)) + 1 }

  function Hour(t: Time): nat { t % DAY / 3600 }

  function Weekday(t: Time): nat { t / DAY % 7 }

  /* ---------- period boundaries, as the service computes them ---------- */

  function DailyOpen(t: Time): Time { t - t % DAY }

  function DailyClose(open: Time): Time { DailyOpen(open) + (DAY - 1) }

  function WeeklyOpenContaining(t: Time): (open: Time)
    ensures open <= t
  {
    assert Weekday(t) <= t / DAY;
    DailyOpen(t) - Weekday(t) * DAY
  }

  /** None where the service raises: the open is not on a Monday. */
  function WeeklyClose(open: Time): Option<Time> {
    if Weekday(open) != 0 then None else Some(open + (WEEK - 1))
  }

  function MonthlyOpen(year: nat, month: nat): Time
    requires year >= 1 && 1 <= month <= 12
  {
    MonthStart(12 * (year - 1) + (month - 1)) * DAY
  }

  function FollowingMonth(open: Time): Time {
    if Month(open) == 12 then MonthlyOpen(Year(open) + 1, 1) else MonthlyOpen(Year(open), Month(open) + 1)
  }

  /** None where the service raises: the open is not in the first hour of a month. */
  function MonthlyClose(open: Time): Option<Time> {
    if DayOfMonth(open) != 1 || Hour(open) != 0 then None
    else
      FollowingMonthIsLater(open);
      Some(FollowingMonth(open) - 1)
  }

  function ExpectedClose(open: Time, tf: Timeframe): Option<Time> {
    match tf
    case Daily => Some(DailyClose(open))
    case Weekly => WeeklyClose(open)
    case Monthly => MonthlyClose(open)
  }

  function NextOpen(open: Time, tf: Timeframe): Time {
    match tf
    case Daily => open + DAY
    case Weekly => open + WEEK
    case Monthly => FollowingMonth(open)
  }

  /** The open of the period a provider timestamp falls in. */
  function CanonicalOpen(t: Time, tf: Timeframe): Time {
    match tf
    case Daily => DailyOpen(t)
    case Weekly => WeeklyOpenContaining(t)
    case Monthly => MonthlyOpen(Year(t), Month(t))
  }

  predicate IsClosedAt(close: Time, evaluation: Time) { close <= evaluation }

  /* ---------- the reference: periods numbered from zero ---------- */

  /** The i-th period of a timeframe opens here. */
  function PeriodOpen(tf: Timeframe, i: nat): Time {
    match tf
    case Daily => i * DAY
    case Weekly => i * WEEK
    case Monthly => MonthStart(i) * DAY
  }

  function PeriodIndex(tf: Timeframe, t: Time): nat {
    match tf
    case Daily => t / DAY
    case Weekly => t / WEEK
    case Monthly => MonthOf(t / DAY)
  }

  /** The last second of the i-th period. */
  function PeriodClose(tf: Timeframe, i: nat): Time {
    PeriodOpensIncrease(tf, i, i + 1);
    PeriodOpen(tf, i + 1) - 1
  }

  predicate Aligned(tf: Timeframe, t: Time) { t == PeriodOpen(tf, PeriodIndex(tf, t)) }

  lemma MonthStartsIncrease(i: nat, j: nat)
    requires i < j
    ensures MonthStart(i) + 28 <= MonthStart(j)
  {
    if i + 1 < j {
      MonthStartsIncrease(i, j - 1);
    }
  }

  lemma MonthNumberParts(year: nat, month: nat)
    requires year >= 1 && 1 <= month <= 12
    ensures (12 * (year - 1) + month - 1) / 12 == year - 1
    ensures (12 * (year - 1) + month - 1) % 12 == month - 1
  {
  }

  lemma MonthStartStep(k: nat)
    ensures MonthStart(k + 1) == MonthStart(k) + DaysInMonth(k / 12 + 1, k % 12 + 1)
  {
  }

  lemma MonthStep(year: nat, month: nat, k: nat)
    requires year >= 1 && 1 <= month <= 12 && k == 12 * (year - 1) + month - 1
    ensures MonthStart(k + 1) == MonthStart(k) + DaysInMonth(year, month)
  {
    MonthNumberParts(year, month);
    MonthStartStep(k);
  }

  /** Days in the months `first`, `first + 1`, ... of a year. */
  function DaysInMonths(year: nat, first: nat, count: nat): nat {
    if count == 0 then 0 else DaysInMonths(year, first, count - 1) + DaysInMonth(year, first + count - 1)
  }

  lemma MonthsOfYear(year: nat, count: nat)
    requires year >= 1 && count <= 12
    ensures MonthStart(12 * (year - 1) + count) == MonthStart(12 * (year - 1)) + DaysInMonths(year, 1, count)
  {
    if count > 0 {
      MonthsOfYear(year, count - 1);
      MonthStep(year, count, 12 * (year - 1) + count - 1);
    }
  }

  lemma YearLength(year: nat)
    ensures DaysInMonths(year, 1, 12) == (if IsLeap(year) then 366 else 365)
  {
    var leap := if IsLeap(year) then 1 else 0;
    assert DaysInMonths(year, 1, 1) == 31;
    assert DaysInMonths(year, 1, 2) == 59 + leap;
    assert DaysInMonths(year, 1, 3) == 90 + leap;
    assert DaysInMonths(year, 1, 4) == 120 + leap;
    assert DaysInMonths(year, 1, 6) == 181 + leap;
    assert DaysInMonths(year, 1, 8) == 243 + leap;
    assert DaysInMonths(year, 1, 10) == 304 + leap;
  }

  function LeapDays(n: nat): int { n / 4 - n / 100 + n / 400 }

  lemma QuotientSteps(n: nat)
    requires n >= 1
    ensures n / 4 == (n - 1) / 4 + (if n % 4 == 0 then 1 else 0)
    ensures n / 100 == (n - 1) / 100 + (if n % 100 == 0 then 1 else 0)
    ensures n / 400 == (n - 1) / 400 + (if n % 400 == 0 then 1 else 0)
  {
  }

  lemma CenturyDivides(n: nat)
    ensures n % 400 == 0 ==> n % 100 == 0
    ensures n % 100 == 0 ==> n % 4 == 0
  {
    var q := n / 100;
    assert n == 100 * q + n % 100;
    assert n % 400 == 0 ==> n == 100 * (4 * (n / 400));
    assert n % 100 == 0 ==> n == 4 * (25 * q);
  }

  lemma LeapDaysStep(n: nat)
    requires n >= 1
    ensures LeapDays(n) == LeapDays(n - 1) + (if IsLeap(n) then 1 else 0)
  {
    QuotientSteps(n);
    CenturyDivides(n);
  }

  /** The month table agrees with the closed formula for the days before a year. */
  lemma {:induction false} DaysBeforeYear(n: nat)
    ensures MonthStart(12 * n) == 365 * n + LeapDays(n)
  {
    if n > 0 {
      DaysBeforeYear(n - 1);
      MonthsOfYear(n, 12);
      YearLength(n);
      LeapDaysStep(n);
      assert 12 * (n - 1) + 12 == 12 * n;
    }
  }

  lemma MonthOfUnique(m: nat, day: nat)
    requires MonthStart(m) <= day < MonthStart(m + 1)
    ensures MonthOf(day) == m
  {
    var found := MonthOf(day);
    if found < m {
      MonthStartsGrow(found + 1, m);
    } else if m < found {
      MonthStartsGrow(m + 1, found);
    }
  }

  lemma MonthStartsGrow(i: nat, j: nat)
    requires i <= j
    ensures MonthStart(i) <= MonthStart(j)
  {
    if i < j {
      MonthStartsIncrease(i, j);
    }
  }

  /** The year/month branch of the service is "next month number". */
  lemma FollowingMonthNumber(open: Time)
    ensures FollowingMonth(open) == MonthStart(MonthOf(open / DAY) + 1) * DAY
  {
    var k := MonthOf(open / DAY);
    assert k == 12 * (k / 12) + k % 12;
    if Month(open) == 12 {
      assert 12 * (Year(open) + 1 - 1) + (1 - 1) == k + 1;
    } else {
      assert 12 * (Year(open) - 1) + (Month(open) + 1 - 1) == k + 1;
    }
  }

  lemma FollowingMonthIsLater(open: Time)
    ensures FollowingMonth(open) > open
  {
    FollowingMonthNumber(open);
    assert open / DAY + 1 <= MonthStart(MonthOf(open / DAY) + 1);
  }

  /** Both loops that step a cursor by `NextOpen` make progress. */
  lemma NextOpenIsLater(open: Time, tf: Timeframe)
    ensures NextOpen(open, tf) > open
  {
    if tf == Monthly {
      FollowingMonthIsLater(open);
    }
  }

  lemma PeriodOpensIncrease(tf: Timeframe, i: nat, j: nat)
    requires i < j
    ensures PeriodOpen(tf, i) + DAY <= PeriodOpen(tf, j)
  {
    if tf == Monthly {
      MonthStartsIncrease(i, j);
    }
  }

  /** Period numbers and opens order alike. */
  lemma PeriodOrder(tf: Timeframe, i: nat, j: nat)
    ensures i < j <==> PeriodOpen(tf, i) < PeriodOpen(tf, j)
    ensures i == j <==> PeriodOpen(tf, i) == PeriodOpen(tf, j)
  {
    if i < j {
      PeriodOpensIncrease(tf, i, j);
    } else if j < i {
      PeriodOpensIncrease(tf, j, i);
    }
  }

  /** Every time falls in exactly one period: the one `PeriodIndex` names. */
  lemma PeriodContains(tf: Timeframe, t: Time)
    ensures PeriodOpen(tf, PeriodIndex(tf, t)) <= t < PeriodOpen(tf, PeriodIndex(tf, t) + 1)
    ensures t <= PeriodClose(tf, PeriodIndex(tf, t))
  {
    if tf == Monthly {
      var k := MonthOf(t / DAY);
      assert t / DAY + 1 <= MonthStart(k + 1);
    }
  }

  lemma PeriodIndexUnique(tf: Timeframe, i: nat, t: Time)
    requires PeriodOpen(tf, i) <= t < PeriodOpen(tf, i + 1)
    ensures PeriodIndex(tf, t) == i
  {
    if tf == Monthly {
      assert MonthStart(i) <= t / DAY < MonthStart(i + 1);
      MonthOfUnique(i, t / DAY);
    }
  }

  lemma OpenIsAligned(tf: Timeframe, i: nat)
    ensures PeriodIndex(tf, PeriodOpen(tf, i)) == i
    ensures Aligned(tf, PeriodOpen(tf, i))
  {
    PeriodOpensIncrease(tf, i, i + 1);
    PeriodIndexUnique(tf, i, PeriodOpen(tf, i));
  }

  lemma WeeklySteps(i: nat)
    ensures WeeklyClose(i * WEEK) == Some(PeriodClose(Weekly, i))
  {
    assert i * WEEK / DAY == 7 * i;
    assert 7 * i % 7 == 0;
  }

  lemma MonthlySteps(i: nat)
    ensures FollowingMonth(MonthStart(i) * DAY) == MonthStart(i + 1) * DAY
    ensures MonthlyClose(MonthStart(i) * DAY) == Some(PeriodClose(Monthly, i))
  {
    var t := MonthStart(i) * DAY;
    assert t / DAY == MonthStart(i) && t % DAY == 0;
    OpenIsAligned(Monthly, i);
    FollowingMonthNumber(t);
  }

  /** On a period open the service's next open and expected close are the reference ones. */
  lemma {:induction false} PeriodSteps(tf: Timeframe, i: nat)
    ensures NextOpen(PeriodOpen(tf, i), tf) == PeriodOpen(tf, i + 1)
    ensures ExpectedClose(PeriodOpen(tf, i), tf) == Some(PeriodClose(tf, i))
  {
    match tf {
      case Daily =>
      case Weekly => WeeklySteps(i);
      case Monthly => MonthlySteps(i);
    }
  }

  /** Mapping a provider timestamp to its canonical open finds the period it falls in. */
  lemma {:induction false} CanonicalOpenIsPeriodOpen(tf: Timeframe, t: Time)
    ensures CanonicalOpen(t, tf) == PeriodOpen(tf, PeriodIndex(tf, t))
    ensures Aligned(tf, CanonicalOpen(t, tf))
  {
    match tf {
      case Daily =>
      case Weekly =>
        var d := t / DAY;
        assert t / WEEK == d / 7;
        assert d == 7 * (d / 7) + d % 7;
      case Monthly =>
        var k := MonthOf(t / DAY);
        assert 12 * (Year(t) - 1) + (Month(t) - 1) == k;
    }
    OpenIsAligned(tf, PeriodIndex(tf, t));
  }
}
