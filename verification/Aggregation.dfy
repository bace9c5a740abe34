/** Complete weeks and months built from daily candles. */
module Aggregation {
  import opened Common
  import opened Timeframes
  import opened Candles
  import opened Gaps

  function MaxHigh(s: seq<Candle>): (h: real)
    requires s != []
    ensures forall c :: c in s ==> c.high <= h
    ensures exists c :: c in s && c.high == h
  {
    if |s| == 1 then s[0].high else
    var rest := MaxHigh(s[1..]);
    assert forall c :: c in s <==> c == s[0] || c in s[1..];
    if rest > s[0].high then rest else s[0].high
  }

  function MinLow(s: seq<Candle>): (l: real)
    requires s != []
    ensures forall c :: c in s ==> l <= c.low
    ensures exists c :: c in s && c.low == l
  {
    if |s| == 1 then s[0].low else
    var rest := MinLow(s[1..]);
    assert forall c :: c in s <==> c == s[0] || c in s[1..];
    if rest < s[0].low then rest else s[0].low
  }

  function SumVolume(s: seq<Candle>): real {
    if s == [] then 0.0 else s[0].volume + SumVolume(s[1..])
  }

  function Members(dailies: seq<Candle>, from: Time, to: Time): seq<Candle> {
    Filter(dailies, (d: Candle) => from <= d.openTime <= to)
  }

  function DaysPresent(dailies: seq<Candle>): set<Time> {
    set d | d in dailies :: DailyOpen(d.openTime)
  }

  function AggregateBucket(dailies: seq<Candle>, symbol: Symbol, tf: Timeframe, open: Time, close: Time,
                           evaluation: Time, required: set<Time>): Option<Candle>
  {
    var members := Members(dailies, open, close);
    if !IsClosedAt(close, evaluation) || members == [] || DaysPresent(members) != required then None else
    var ordered := SortCandles(members);
    Some(Candle(symbol, tf, open, close, ordered[0].open, MaxHigh(ordered), MinLow(ordered),
                ordered[|ordered| - 1].close, SumVolume(ordered), true))
  }

  predicate Midnight(t: Time) { t % DAY == 0 }

  /** The day opens inside a period. */
  function DaysOf(tf: Timeframe, i: nat): set<Time> {
    set t: Time | PeriodOpen(tf, i) <= t < PeriodOpen(tf, i + 1) && Midnight(t)
  }

  function DayRange(start: Time, count: nat): set<Time> {
    set i | 0 <= i < count :: start + i * DAY
  }

  /** The aggregate of the i-th period, if it is closed and complete. */
  function AggregateOne(dailies: seq<Candle>, symbol: Symbol, tf: Timeframe, evaluation: Time, i: nat): Option<Candle> {
    AggregateBucket(dailies, symbol, tf, PeriodOpen(tf, i), PeriodClose(tf, i), evaluation, DaysOf(tf, i))
  }

  function ToSeq(c: Option<Candle>): seq<Candle> {
    match c
    case None => []
    case Some(x) => [x]
  }

  function AggregateRun(dailies: seq<Candle>, symbol: Symbol, tf: Timeframe, evaluation: Time, i: nat, j: nat): seq<Candle> {
    if i >= j then [] else
    AggregateRun(dailies, symbol, tf, evaluation, i, j - 1) + ToSeq(AggregateOne(dailies, symbol, tf, evaluation, j - 1))
  }

  function OfSymbol(dailies: seq<Candle>, symbol: Symbol): seq<Candle> {
    SortCandles(Filter(dailies, (d: Candle) => d.symbol == symbol))
  }

  function Aggregate(dailies: seq<Candle>, symbol: Symbol, tf: Timeframe, evaluation: Time): seq<Candle> {
    var own := OfSymbol(dailies, symbol);
    if own == [] then [] else
    AggregateRun(own, symbol, tf, evaluation, PeriodIndex(tf, own[0].openTime), PeriodIndex(tf, own[|own| - 1].openTime) + 1)
  }

  lemma WeekDays(i: nat)
    ensures DayRange(PeriodOpen(Weekly, i), 7) == DaysOf(Weekly, i)
  {
    var start := PeriodOpen(Weekly, i);
    forall t | t in DaysOf(Weekly, i) ensures t in DayRange(start, 7) {
      var k := t / DAY - 7 * i;
      assert 0 <= k < 7 && t == start + k * DAY;
    }
    forall t | t in DayRange(start, 7) ensures t in DaysOf(Weekly, i) {
      var k :| 0 <= k < 7 && t == start + k * DAY;
      WholeDays(7 * i + k);
    }
  }

  lemma WholeDays(n: nat)
    ensures Midnight(n * DAY)
  {
  }

  lemma FirstDayOnly(tf: Timeframe, t: Time, i: nat)
    ensures PeriodOpen(tf, i) <= DailyOpen(t) <==> i <= PeriodIndex(tf, t)
  {
    PeriodContains(tf, t);
    PeriodOpenIsMidnight(tf, i);
    hide PeriodOpen;
    hide Midnight;
    hide PeriodIndex;
    PeriodOrder(tf, i, PeriodIndex(tf, t));
    PeriodOrder(tf, PeriodIndex(tf, t), i);
    PeriodOrder(tf, PeriodIndex(tf, t) + 1, i);
    assert PeriodOpen(tf, i) <= t <==> PeriodOpen(tf, i) <= DailyOpen(t) by {
      MidnightBefore(PeriodOpen(tf, i), t);
    }
  }

  lemma MidnightBefore(m: Time, t: Time)
    requires Midnight(m)
    ensures m <= t <==> m <= DailyOpen(t)
  {
  }

  lemma NextMidnight(m: Time)
    requires Midnight(m)
    ensures Midnight(m + DAY)
    ensures m >= DAY ==> Midnight(m - DAY)
    ensures DailyOpen(m) == m
  {
  }

  lemma PeriodOpenIsMidnight(tf: Timeframe, i: nat)
    ensures Midnight(PeriodOpen(tf, i))
  {
    if tf == Weekly {
      assert i * WEEK == (7 * i) * DAY;
    }
  }

  method AggregateWeekly(dailies: seq<Candle>, symbol: Symbol, evaluation: Time) returns (weeks: seq<Candle>)
    ensures weeks == Aggregate(dailies, symbol, Weekly, evaluation)
  {
    hide SortCandles;
    hide AggregateBucket;
    hide PeriodOpen;
    hide Midnight;
    hide PeriodIndex;
    hide DaysOf;
    hide DayRange;
    var own := OfSymbol(dailies, symbol);
    weeks := [];
    if own == [] {
      return;
    }
    var lastDay := DailyOpen(own[|own| - 1].openTime);
    CanonicalOpenIsPeriodOpen(Weekly, DailyOpen(own[0].openTime));
    SameWeek(own[0].openTime);
    var weekStart := WeeklyOpenContaining(DailyOpen(own[0].openTime));
    ghost var first := PeriodIndex(Weekly, own[0].openTime);
    ghost var end := PeriodIndex(Weekly, own[|own| - 1].openTime) + 1;
    ghost var k := first;
    while weekStart <= lastDay
      invariant first <= k && weekStart == PeriodOpen(Weekly, k)
      invariant k <= end || k == first
      invariant weeks == AggregateRun(own, symbol, Weekly, evaluation, first, k)
      decreases end - k
    {
      FirstDayOnly(Weekly, own[|own| - 1].openTime, k);
      PeriodSteps(Weekly, k);
      WeekDays(k);
      var week := AggregateBucket(own, symbol, Weekly, weekStart, WeeklyClose(weekStart).value, evaluation,
                                  DayRange(weekStart, 7));
      weeks := weeks + ToSeq(week);
      weekStart := weekStart + WEEK;
      k := k + 1;
    }
    FirstDayOnly(Weekly, own[|own| - 1].openTime, k);
    if k > end {
      EmptyRuns(own, symbol, Weekly, evaluation, first, end, k);
    }
  }

  lemma EmptyRuns(own: seq<Candle>, symbol: Symbol, tf: Timeframe, evaluation: Time, first: nat, end: nat, k: nat)
    requires k == first && end <= k
    ensures AggregateRun(own, symbol, tf, evaluation, first, k) == AggregateRun(own, symbol, tf, evaluation, first, end)
  {
  }

  lemma SameWeek(t: Time)
    ensures PeriodIndex(Weekly, DailyOpen(t)) == PeriodIndex(Weekly, t)
  {
    assert DailyOpen(t) == t / DAY * DAY;
    assert t / WEEK == t / DAY / 7;
  }

  /** The midnights from `start` up to `end` that are no later than `last`. */
  function Midnights(start: Time, end: Time, last: Time): set<Time> {
    set t: Time | start <= t < end && t <= last && Midnight(t)
  }

  lemma MidnightsStep(start: Time, cursor: Time, last: Time)
    requires start <= cursor <= last && Midnight(cursor)
    ensures Midnights(start, cursor, last) + {cursor} == Midnights(start, cursor + DAY, last)
  {
    forall t | t in Midnights(start, cursor + DAY, last) ensures t in Midnights(start, cursor, last) + {cursor} {
      MidnightStep(t, cursor);
    }
    NextMidnight(cursor);
  }

  method MonthDayRange(monthStart: Time, ghost i: nat) returns (days: set<Time>)
    requires monthStart == PeriodOpen(Monthly, i)
    ensures days == DaysOf(Monthly, i)
  {
    hide PeriodOpen;
    hide Midnight;
    hide MonthlyClose;
    hide PeriodClose;
    hide DaysOf;
    PeriodSteps(Monthly, i);
    PeriodOpenIsMidnight(Monthly, i);
    var lastDay := DailyOpen(MonthlyClose(monthStart).value);
    days := {};
    var cursor := monthStart;
    while cursor <= lastDay
      invariant Midnight(cursor) && monthStart <= cursor
      invariant days == Midnights(monthStart, cursor, lastDay)
      decreases lastDay + 1 - cursor
    {
      MidnightsStep(monthStart, cursor, lastDay);
      NextMidnight(cursor);
      days := days + {cursor};
      cursor := cursor + DAY;
    }
    UpToLastDay(i, cursor);
  }

  lemma UpToLastDay(i: nat, end: Time)
    requires end > DailyOpen(PeriodClose(Monthly, i))
    ensures Midnights(PeriodOpen(Monthly, i), end, DailyOpen(PeriodClose(Monthly, i))) == DaysOf(Monthly, i)
  {
    PeriodOpenIsMidnight(Monthly, i + 1);
    PeriodOpensIncrease(Monthly, i, i + 1);
    hide PeriodOpen;
    hide Midnight;
    forall t: Time | Midnight(t) ensures t <= DailyOpen(PeriodClose(Monthly, i)) <==> t < PeriodOpen(Monthly, i + 1) {
      MidnightBefore(t, PeriodClose(Monthly, i));
    }
  }

  lemma MidnightStep(a: Time, b: Time)
    requires Midnight(a) && Midnight(b)
    ensures a < b + DAY ==> a <= b
    ensures b > 0 ==> DailyOpen(b - 1) == b - DAY
  {
  }

  lemma FirstMonth(t: Time)
    ensures MonthlyOpen(Year(t), Month(t)) == PeriodOpen(Monthly, PeriodIndex(Monthly, t))
  {
    CanonicalOpenIsPeriodOpen(Monthly, t);
  }

  method AggregateMonthly(dailies: seq<Candle>, symbol: Symbol, evaluation: Time) returns (months: seq<Candle>)
    ensures months == Aggregate(dailies, symbol, Monthly, evaluation)
  {
    hide SortCandles;
    hide AggregateBucket;
    hide PeriodOpen;
    hide Midnight;
    hide PeriodIndex;
    hide DaysOf;
    hide MonthlyClose;
    hide PeriodClose;
    hide OfSymbol;
    hide FollowingMonth;
    hide MonthlyOpen;
    hide CanonicalOpen;
    hide Year;
    hide Month;
    hide DailyOpen;
    var own := OfSymbol(dailies, symbol);
    months := [];
    if own == [] {
      return;
    }
    var lastDay := DailyOpen(own[|own| - 1].openTime);
    FirstMonth(own[0].openTime);
    var cursor := MonthlyOpen(Year(own[0].openTime), Month(own[0].openTime));
    ghost var first := PeriodIndex(Monthly, own[0].openTime);
    ghost var end := PeriodIndex(Monthly, own[|own| - 1].openTime) + 1;
    ghost var k := first;
    while cursor <= lastDay
      invariant first <= k && cursor == PeriodOpen(Monthly, k)
      invariant k <= end || k == first
      invariant months == AggregateRun(own, symbol, Monthly, evaluation, first, k)
      decreases end - k
    {
      FirstDayOnly(Monthly, own[|own| - 1].openTime, k);
      PeriodSteps(Monthly, k);
      var required := MonthDayRange(cursor, k);
      var month := AggregateBucket(own, symbol, Monthly, cursor, MonthlyClose(cursor).value, evaluation, required);
      months := months + ToSeq(month);
      cursor := FollowingMonth(cursor);
      k := k + 1;
    }
    FirstDayOnly(Monthly, own[|own| - 1].openTime, k);
    if k > end {
      EmptyRuns(own, symbol, Monthly, evaluation, first, end, k);
    }
  }

  /* ---------- what an aggregate means ---------- */

  /** Every day of the period has a candle, and there is no candle elsewhere on those days. */
  predicate Complete(own: seq<Candle>, tf: Timeframe, i: nat) {
    forall t :: t in DaysOf(tf, i) ==> exists d :: d in own && d.openTime == t
  }

  predicate DailyAligned(own: seq<Candle>) {
    forall d :: d in own ==> Midnight(d.openTime)
  }

  lemma MembersOfPeriod(own: seq<Candle>, tf: Timeframe, i: nat)
    requires DailyAligned(own)
    ensures var m := Members(own, PeriodOpen(tf, i), PeriodClose(tf, i));
            (forall d :: d in m <==> d in own && d.openTime in DaysOf(tf, i)) &&
            (m != [] && DaysPresent(m) == DaysOf(tf, i) <==> Complete(own, tf, i))
  {
    PeriodOpensIncrease(tf, i, i + 1);
    PeriodOpenIsMidnight(tf, i);
    hide PeriodOpen;
    hide Midnight;
    var m := Members(own, PeriodOpen(tf, i), PeriodClose(tf, i));
    assert PeriodOpen(tf, i) in DaysOf(tf, i);
    forall d | d in m ensures DailyOpen(d.openTime) == d.openTime {
      NextMidnight(d.openTime);
    }
    if Complete(own, tf, i) {
      assert exists d :: d in own && d.openTime == PeriodOpen(tf, i);
      forall t | t in DaysOf(tf, i) ensures t in DaysPresent(m) {
        var d :| d in own && d.openTime == t;
        assert d in m;
      }
    }
    if DaysPresent(m) == DaysOf(tf, i) {
      forall t | t in DaysOf(tf, i) ensures exists d :: d in own && d.openTime == t {
        assert t in DaysPresent(m);
      }
    }
  }

  /** A period yields an aggregate exactly when it has closed and is complete. */
  lemma AggregateOneIff(own: seq<Candle>, symbol: Symbol, tf: Timeframe, evaluation: Time, i: nat)
    requires DailyAligned(own)
    ensures AggregateOne(own, symbol, tf, evaluation, i).Some? <==>
            PeriodClose(tf, i) <= evaluation && Complete(own, tf, i)
  {
    hide PeriodOpen;
    hide Midnight;
    hide DaysOf;
    hide Complete;
    hide SortCandles;
    MembersOfPeriod(own, tf, i);
  }

  /** First open, last close, highest high, lowest low and total volume of the period's days. */
  ghost predicate Summarises(c: Candle, own: seq<Candle>, symbol: Symbol, tf: Timeframe, i: nat) {
    var m := Members(own, PeriodOpen(tf, i), PeriodClose(tf, i));
    && c.symbol == symbol && c.tf == tf && c.isClosed
    && c.openTime == PeriodOpen(tf, i) && c.closeTime == PeriodClose(tf, i)
    && (exists d :: d in m && d.openTime == PeriodOpen(tf, i) && c.open == d.open)
    && (exists d :: d in m && d.openTime + DAY == PeriodOpen(tf, i + 1) && c.close == d.close)
    && (forall d :: d in m ==> c.low <= d.low && d.high <= c.high)
    && (exists d :: d in m && d.high == c.high) && (exists d :: d in m && d.low == c.low)
    && c.volume == SumVolume(m)
  }

  lemma MembersSorted(own: seq<Candle>, from: Time, to: Time)
    requires StrictlySorted(own)
    ensures StrictlySorted(Members(own, from, to))
  {
    FilterKeepsStrictOrder(own, (d: Candle) => from <= d.openTime <= to);
  }

  lemma {:induction false} AggregateOneMeans(own: seq<Candle>, symbol: Symbol, tf: Timeframe, evaluation: Time, i: nat)
    requires StrictlySorted(own) && DailyAligned(own)
    requires AggregateOne(own, symbol, tf, evaluation, i).Some?
    ensures Summarises(AggregateOne(own, symbol, tf, evaluation, i).value, own, symbol, tf, i)
  {
    hide PeriodOpen;
    hide Midnight;
    hide PeriodClose;
    hide SortCandles;
    hide DaysOf;
    hide Members;
    hide Complete;
    var m := Members(own, PeriodOpen(tf, i), PeriodClose(tf, i));
    AggregateOneIff(own, symbol, tf, evaluation, i);
    MembersSorted(own, PeriodOpen(tf, i), PeriodClose(tf, i));
    StrictIsSorted(m);
    EdgeDays(own, tf, i);
    assert m[0] in m && m[|m| - 1] in m;
  }

  lemma InDays(tf: Timeframe, i: nat, t: Time)
    ensures t in DaysOf(tf, i) <==> PeriodOpen(tf, i) <= t && t + DAY <= PeriodOpen(tf, i + 1) && Midnight(t)
  {
    PeriodOpenIsMidnight(tf, i + 1);
    hide PeriodOpen;
    hide Midnight;
    if Midnight(t) {
      NextMidnight(t);
      MidnightStep(t + DAY, PeriodOpen(tf, i + 1));
    }
  }

  lemma MemberDays(own: seq<Candle>, tf: Timeframe, i: nat, d: Candle)
    requires DailyAligned(own) && d in Members(own, PeriodOpen(tf, i), PeriodClose(tf, i))
    ensures PeriodOpen(tf, i) <= d.openTime && d.openTime + DAY <= PeriodOpen(tf, i + 1)
  {
    hide PeriodOpen;
    hide Midnight;
    hide Members;
    hide DaysOf;
    hide DaysPresent;
    MembersOfPeriod(own, tf, i);
    InDays(tf, i, d.openTime);
  }

  lemma DayPresent(own: seq<Candle>, tf: Timeframe, i: nat, t: Time) returns (d: Candle)
    requires DailyAligned(own) && Complete(own, tf, i) && t in DaysOf(tf, i)
    ensures d in Members(own, PeriodOpen(tf, i), PeriodClose(tf, i)) && d.openTime == t
  {
    hide PeriodOpen;
    hide Midnight;
    hide Members;
    hide DaysOf;
    hide DaysPresent;
    MembersOfPeriod(own, tf, i);
    d :| d in own && d.openTime == t;
  }

  lemma FirstAndLastDay(tf: Timeframe, i: nat)
    ensures PeriodOpen(tf, i) in DaysOf(tf, i) && PeriodOpen(tf, i + 1) - DAY in DaysOf(tf, i)
  {
    PeriodOpensIncrease(tf, i, i + 1);
    PeriodOpenIsMidnight(tf, i);
    PeriodOpenIsMidnight(tf, i + 1);
    NextMidnight(PeriodOpen(tf, i + 1));
    hide PeriodOpen;
    hide Midnight;
    hide DaysOf;
    InDays(tf, i, PeriodOpen(tf, i));
    InDays(tf, i, PeriodOpen(tf, i + 1) - DAY);
  }

  /** The earliest member is on the period's first day and the latest on its last. */
  lemma EdgeDays(own: seq<Candle>, tf: Timeframe, i: nat)
    requires StrictlySorted(own) && DailyAligned(own) && Complete(own, tf, i)
    ensures var m := Members(own, PeriodOpen(tf, i), PeriodClose(tf, i));
            m != [] && m[0].openTime == PeriodOpen(tf, i) && m[|m| - 1].openTime + DAY == PeriodOpen(tf, i + 1)
  {
    hide PeriodOpen;
    hide Midnight;
    hide PeriodClose;
    hide Members;
    hide DaysOf;
    hide DailyAligned;
    hide Complete;
    var m := Members(own, PeriodOpen(tf, i), PeriodClose(tf, i));
    MembersSorted(own, PeriodOpen(tf, i), PeriodClose(tf, i));
    FirstAndLastDay(tf, i);
    var a := DayPresent(own, tf, i, PeriodOpen(tf, i));
    var z := DayPresent(own, tf, i, PeriodOpen(tf, i + 1) - DAY);
    forall d | d in m ensures a.openTime <= d.openTime <= z.openTime {
      MemberDays(own, tf, i, d);
    }
    EndsOfSorted(m, a, z);
  }

  lemma EndsOfSorted(s: seq<Candle>, a: Candle, z: Candle)
    requires StrictlySorted(s) && a in s && z in s
    requires forall d :: d in s ==> a.openTime <= d.openTime <= z.openTime
    ensures s[0].openTime == a.openTime && s[|s| - 1].openTime == z.openTime
  {
    assert s[0] in s && s[|s| - 1] in s;
  }

  /** The result lists the aggregates of exactly the closed and complete periods, in order. */
  predicate Listed(own: seq<Candle>, symbol: Symbol, tf: Timeframe, evaluation: Time, i: nat, j: nat, c: Candle) {
    exists k :: i <= k < j && AggregateOne(own, symbol, tf, evaluation, k) == Some(c)
  }

  lemma {:induction false} RunLists(own: seq<Candle>, symbol: Symbol, tf: Timeframe, evaluation: Time, i: nat, j: nat, c: Candle)
    ensures c in AggregateRun(own, symbol, tf, evaluation, i, j) <==> Listed(own, symbol, tf, evaluation, i, j, c)
  {
    hide AggregateOne;
    if i < j {
      RunLists(own, symbol, tf, evaluation, i, j - 1, c);
      var front, one := AggregateRun(own, symbol, tf, evaluation, i, j - 1), AggregateOne(own, symbol, tf, evaluation, j - 1);
      assert c in front + ToSeq(one) <==> c in front || one == Some(c);
    }
  }

  lemma {:induction false} RunBound(own: seq<Candle>, symbol: Symbol, tf: Timeframe, evaluation: Time, i: nat, j: nat, c: Candle)
    requires c in AggregateRun(own, symbol, tf, evaluation, i, j)
    ensures c.openTime < PeriodOpen(tf, j)
  {
    hide PeriodOpen;
    hide Midnight;
    hide AggregateOne;
    RunLists(own, symbol, tf, evaluation, i, j, c);
    var k :| i <= k < j && AggregateOne(own, symbol, tf, evaluation, k) == Some(c);
    AggregateOneOpens(own, symbol, tf, evaluation, k);
    PeriodOrder(tf, k, j);
  }

  lemma {:induction false} RunSorted(own: seq<Candle>, symbol: Symbol, tf: Timeframe, evaluation: Time, i: nat, j: nat)
    ensures StrictlySorted(AggregateRun(own, symbol, tf, evaluation, i, j))
  {
    hide PeriodOpen;
    hide Midnight;
    hide AggregateOne;
    if i < j {
      RunSorted(own, symbol, tf, evaluation, i, j - 1);
      AggregateOneOpens(own, symbol, tf, evaluation, j - 1);
      var front := AggregateRun(own, symbol, tf, evaluation, i, j - 1);
      forall k | 0 <= k < |front| ensures front[k].openTime < PeriodOpen(tf, j - 1) {
        RunBound(own, symbol, tf, evaluation, i, j - 1, front[k]);
      }
    }
  }

  lemma RunMeans(own: seq<Candle>, symbol: Symbol, tf: Timeframe, evaluation: Time, i: nat, j: nat, c: Candle) returns (k: nat)
    requires StrictlySorted(own) && DailyAligned(own) && c in AggregateRun(own, symbol, tf, evaluation, i, j)
    ensures PeriodClose(tf, k) <= evaluation && Summarises(c, own, symbol, tf, k)
  {
    hide AggregateOne;
    hide AggregateRun;
    hide PeriodClose;
    hide Summarises;
    hide DailyAligned;
    hide Complete;
    RunLists(own, symbol, tf, evaluation, i, j, c);
    k :| i <= k < j && AggregateOne(own, symbol, tf, evaluation, k) == Some(c);
    AggregateOneMeans(own, symbol, tf, evaluation, k);
    AggregateOneIff(own, symbol, tf, evaluation, k);
  }

  lemma AggregateOneOpens(own: seq<Candle>, symbol: Symbol, tf: Timeframe, evaluation: Time, i: nat)
    ensures AggregateOne(own, symbol, tf, evaluation, i).Some? ==>
              AggregateOne(own, symbol, tf, evaluation, i).value.openTime == PeriodOpen(tf, i)
  {
  }

  /** A complete period lies between the first and the last candle. */
  lemma CompleteInRange(own: seq<Candle>, tf: Timeframe, i: nat)
    requires own != [] && SortedByOpen(own) && Complete(own, tf, i)
    ensures PeriodIndex(tf, own[0].openTime) <= i <= PeriodIndex(tf, own[|own| - 1].openTime)
  {
    PeriodOpensIncrease(tf, i, i + 1);
    PeriodOpenIsMidnight(tf, i);
    assert PeriodOpen(tf, i) in DaysOf(tf, i);
    var d :| d in own && d.openTime == PeriodOpen(tf, i);
    var a, z := own[0].openTime, own[|own| - 1].openTime;
    PeriodContains(tf, a);
    PeriodContains(tf, z);
    hide PeriodOpen;
    hide Midnight;
    hide PeriodIndex;
    hide DaysOf;
    PeriodOrder(tf, i, PeriodIndex(tf, a));
    PeriodOrder(tf, PeriodIndex(tf, a), i);
    PeriodOrder(tf, PeriodIndex(tf, z) + 1, i);
    PeriodOrder(tf, i, PeriodIndex(tf, z) + 1);
  }

  lemma OwnAligned(dailies: seq<Candle>, symbol: Symbol)
    requires DailyAligned(dailies)
    ensures DailyAligned(OfSymbol(dailies, symbol))
  {
  }

  /** A period is listed exactly when it has closed and every one of its days is present. */
  lemma {:induction false} AggregateExact(dailies: seq<Candle>, symbol: Symbol, tf: Timeframe, evaluation: Time, i: nat)
    requires StrictlySorted(OfSymbol(dailies, symbol)) && DailyAligned(dailies)
    ensures PeriodClose(tf, i) <= evaluation && Complete(OfSymbol(dailies, symbol), tf, i) <==>
            exists c :: c in Aggregate(dailies, symbol, tf, evaluation) && c.openTime == PeriodOpen(tf, i)
  {
    hide OfSymbol;
    hide AggregateRun;
    hide DailyAligned;
    hide StrictlySorted;
    var own := OfSymbol(dailies, symbol);
    OwnAligned(dailies, symbol);
    hide PeriodClose;
    hide PeriodOpen;
    hide Midnight;
    hide PeriodIndex;
    hide Complete;
    if own == [] {
      NothingComplete(tf, i);
    } else {
      ListedIff(own, symbol, tf, evaluation, i, PeriodIndex(tf, own[0].openTime), PeriodIndex(tf, own[|own| - 1].openTime) + 1);
    }
  }

  lemma AggregateSorted(dailies: seq<Candle>, symbol: Symbol, tf: Timeframe, evaluation: Time)
    ensures StrictlySorted(Aggregate(dailies, symbol, tf, evaluation))
  {
    hide OfSymbol;
    hide AggregateRun;
    hide PeriodIndex;
    var own := OfSymbol(dailies, symbol);
    if own != [] {
      RunSorted(own, symbol, tf, evaluation, PeriodIndex(tf, own[0].openTime), PeriodIndex(tf, own[|own| - 1].openTime) + 1);
    }
  }

  /** Each listed aggregate summarises the days of a closed period. */
  lemma {:induction false} AggregateMeaning(dailies: seq<Candle>, symbol: Symbol, tf: Timeframe, evaluation: Time, c: Candle)
    requires StrictlySorted(OfSymbol(dailies, symbol)) && DailyAligned(dailies)
    requires c in Aggregate(dailies, symbol, tf, evaluation)
    ensures exists i :: PeriodClose(tf, i) <= evaluation && Summarises(c, OfSymbol(dailies, symbol), symbol, tf, i)
  {
    hide OfSymbol;
    hide DailyAligned;
    hide StrictlySorted;
    hide AggregateRun;
    hide PeriodClose;
    hide PeriodIndex;
    hide Summarises;
    var own := OfSymbol(dailies, symbol);
    OwnAligned(dailies, symbol);
    var first, end := PeriodIndex(tf, own[0].openTime), PeriodIndex(tf, own[|own| - 1].openTime) + 1;
    var k := RunMeans(own, symbol, tf, evaluation, first, end, c);
  }

  lemma NothingComplete(tf: Timeframe, i: nat)
    ensures !Complete([], tf, i)
  {
    PeriodOpensIncrease(tf, i, i + 1);
    PeriodOpenIsMidnight(tf, i);
    hide PeriodOpen;
    hide Midnight;
    assert PeriodOpen(tf, i) in DaysOf(tf, i);
  }

  lemma ListedIff(own: seq<Candle>, symbol: Symbol, tf: Timeframe, evaluation: Time, i: nat, first: nat, end: nat)
    requires own != [] && StrictlySorted(own) && DailyAligned(own)
    requires first == PeriodIndex(tf, own[0].openTime) && end == PeriodIndex(tf, own[|own| - 1].openTime) + 1
    ensures PeriodClose(tf, i) <= evaluation && Complete(own, tf, i) <==>
            exists c :: c in AggregateRun(own, symbol, tf, evaluation, first, end) && c.openTime == PeriodOpen(tf, i)
  {
    hide PeriodOpen;
    hide Midnight;
    hide PeriodIndex;
    hide AggregateOne;
    hide Complete;
    hide AggregateRun;
    hide PeriodClose;
    var r := AggregateRun(own, symbol, tf, evaluation, first, end);
    AggregateOneIff(own, symbol, tf, evaluation, i);
    if AggregateOne(own, symbol, tf, evaluation, i).Some? {
      var c := AggregateOne(own, symbol, tf, evaluation, i).value;
      CompleteInRange(own, tf, i);
      AggregateOneOpens(own, symbol, tf, evaluation, i);
      RunLists(own, symbol, tf, evaluation, first, end, c);
      assert c in r;
    }
    if c :| c in r && c.openTime == PeriodOpen(tf, i) {
      RunLists(own, symbol, tf, evaluation, first, end, c);
      var k :| first <= k < end && AggregateOne(own, symbol, tf, evaluation, k) == Some(c);
      AggregateOneOpens(own, symbol, tf, evaluation, k);
      PeriodOrder(tf, i, k);
    }
  }

  /** Aggregates of well-formed daily candles are well-formed candles of their timeframe. */
  lemma AggregateWellFormed(own: seq<Candle>, c: Candle, symbol: Symbol, tf: Timeframe, i: nat)
    requires forall d :: d in own ==> WellFormed(d)
    requires Summarises(c, own, symbol, tf, i)
    ensures WellFormed(c)
  {
    PeriodSteps(tf, i);
    PeriodOpensIncrease(tf, i, i + 1);
    var m := Members(own, PeriodOpen(tf, i), PeriodClose(tf, i));
    hide ExpectedClose;
    hide PeriodOpen;
    hide Midnight;
    hide Members;
    assert forall d :: d in m ==> WellFormed(d);
    VolumeNonNegative(m);
  }

  lemma VolumeNonNegative(s: seq<Candle>)
    requires forall d :: d in s ==> d.volume >= 0.0
    ensures SumVolume(s) >= 0.0
  {
  }

  /** Aggregating later can only append: an earlier result is a prefix of a later one. */
  lemma {:induction false} AggregatePrefix(own: seq<Candle>, symbol: Symbol, tf: Timeframe, early: Time, late: Time, i: nat,
                                        j: nat)
    requires early <= late
    ensures AggregateRun(own, symbol, tf, early, i, j) <= AggregateRun(own, symbol, tf, late, i, j)
    ensures j > 0 && PeriodClose(tf, j - 1) <= early ==>
              AggregateRun(own, symbol, tf, early, i, j) == AggregateRun(own, symbol, tf, late, i, j)
  {
    hide PeriodOpen;
    hide Midnight;
    hide PeriodClose;
    hide AggregateOne;
    if i < j {
      AggregatePrefix(own, symbol, tf, early, late, i, j - 1);
      SameWhenClosed(own, symbol, tf, early, late, j - 1);
      if j >= 2 {
        ClosesGrow(tf, j - 2);
      }
    }
  }

  lemma ClosesGrow(tf: Timeframe, i: nat)
    ensures PeriodClose(tf, i) < PeriodClose(tf, i + 1)
  {
    PeriodOpensIncrease(tf, i + 1, i + 2);
  }

  lemma SameWhenClosed(own: seq<Candle>, symbol: Symbol, tf: Timeframe, early: Time, late: Time, i: nat)
    requires early <= late
    ensures AggregateOne(own, symbol, tf, early, i) ==
            if PeriodClose(tf, i) <= early then AggregateOne(own, symbol, tf, late, i) else None
  {
    hide PeriodOpen;
    hide Midnight;
    hide DaysOf;
    hide SortCandles;
    hide Members;
  }

  lemma AggregateGrows(dailies: seq<Candle>, symbol: Symbol, tf: Timeframe, early: Time, late: Time)
    requires early <= late
    ensures Aggregate(dailies, symbol, tf, early) <= Aggregate(dailies, symbol, tf, late)
  {
    hide OfSymbol;
    hide PeriodIndex;
    hide AggregateRun;
    var own := OfSymbol(dailies, symbol);
    if own != [] {
      AggregatePrefix(own, symbol, tf, early, late, PeriodIndex(tf, own[0].openTime),
          PeriodIndex(tf, own[|own| - 1].openTime) + 1);
    }
  }
}
