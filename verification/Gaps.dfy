/** Gap detection: the missing periods of a candle series up to an evaluation time. */
module Gaps {
  import opened Common
  import opened Timeframes
  import opened Candles

  predicate AllAligned(s: seq<Candle>, tf: Timeframe) {
    forall c :: c in s ==> Aligned(tf, c.openTime)
  }

  function GapAt(symbol: Symbol, tf: Timeframe, i: nat): Gap {
    Gap(symbol, tf, PeriodOpen(tf, i), PeriodClose(tf, i))
  }

  /** A gap for each period `i`, ..., `j - 1`. */
  function GapRun(symbol: Symbol, tf: Timeframe, i: nat, j: nat): seq<Gap> {
    if i >= j then [] else GapRun(symbol, tf, i, j - 1) + [GapAt(symbol, tf, j - 1)]
  }

  function InnerGaps(s: seq<Candle>, n: nat, symbol: Symbol, tf: Timeframe): seq<Gap>
    requires n < |s|
  {
    if n == 0 then [] else
    InnerGaps(s, n - 1, symbol, tf) +
    GapRun(symbol, tf, PeriodIndex(tf, s[n - 1].openTime) + 1, PeriodIndex(tf, s[n].openTime))
  }

  /** How many periods have closed at an evaluation time: period `i` has exactly when `i` is smaller. */
  function ClosedPeriods(tf: Timeframe, evaluation: Time): nat { PeriodIndex(tf, evaluation + 1) }

  function GapsOf(s: seq<Candle>, symbol: Symbol, tf: Timeframe, evaluation: Time): seq<Gap> {
    if s == [] then [] else
    InnerGaps(s, |s| - 1, symbol, tf) +
    GapRun(symbol, tf, PeriodIndex(tf, s[|s| - 1].openTime) + 1, ClosedPeriods(tf, evaluation))
  }

  lemma ClosedPeriodsBound(tf: Timeframe, i: nat, evaluation: Time)
    ensures PeriodClose(tf, i) <= evaluation <==> i < ClosedPeriods(tf, evaluation)
  {
    hide PeriodOpen;
    hide PeriodIndex;
    var n := ClosedPeriods(tf, evaluation);
    PeriodContains(tf, evaluation + 1);
    PeriodOrder(tf, i + 1, n);
    PeriodOrder(tf, n, i + 1);
    PeriodOrder(tf, i + 1, n + 1);
    PeriodOrder(tf, n + 1, i + 1);
  }

  /* ---------- the detector, on any series ---------- */

  function Joined(a: Option<seq<Gap>>, b: Option<seq<Gap>>): Option<seq<Gap>> {
    if a.None? || b.None? then None else Some(a.value + b.value)
  }

  /** The cursor from `cursor` up to, not including, `end`; None where it starts no period and the service raises. */
  function StepsTo(symbol: Symbol, tf: Timeframe, cursor: Time, end: Time): Option<seq<Gap>>
    decreases end - cursor
  {
    if cursor >= end then Some([])
    else if ExpectedClose(cursor, tf).None? then None
    else
      NextOpenIsLater(cursor, tf);
      Joined(Some([Gap(symbol, tf, cursor, ExpectedClose(cursor, tf).value)]), StepsTo(symbol, tf, NextOpen(cursor, tf), end))
  }

  /** The cursor's second stretch: as long as periods have closed. */
  function StepsClosed(symbol: Symbol, tf: Timeframe, cursor: Time, evaluation: Time): Option<seq<Gap>>
    decreases evaluation - cursor
  {
    if cursor > evaluation then Some([])
    else if ExpectedClose(cursor, tf).None? then None
    else if ExpectedClose(cursor, tf).value > evaluation then Some([])
    else
      NextOpenIsLater(cursor, tf);
      Joined(Some([Gap(symbol, tf, cursor, ExpectedClose(cursor, tf).value)]),
             StepsClosed(symbol, tf, NextOpen(cursor, tf), evaluation))
  }

  function InnerSteps(s: seq<Candle>, n: nat, symbol: Symbol, tf: Timeframe): Option<seq<Gap>>
    requires n < |s|
  {
    if n == 0 then Some([]) else
    Joined(InnerSteps(s, n - 1, symbol, tf), StepsTo(symbol, tf, NextOpen(s[n - 1].openTime, tf), s[n].openTime))
  }

  /** What the detector answers for a sorted series; None if it raises. */
  function Detected(s: seq<Candle>, symbol: Symbol, tf: Timeframe, evaluation: Time): Option<seq<Gap>> {
    if s == [] then Some([]) else
    Joined(InnerSteps(s, |s| - 1, symbol, tf), StepsClosed(symbol, tf, NextOpen(s[|s| - 1].openTime, tf), evaluation))
  }

  lemma JoinedTwice(a: Option<seq<Gap>>, b: Option<seq<Gap>>, c: Option<seq<Gap>>)
    ensures Joined(Joined(a, b), c) == Joined(a, Joined(b, c))
    ensures Joined(a, Some([])) == a && Joined(Some([]), a) == a
  {
    if a.Some? {
      assert a.value + [] == a.value && [] + a.value == a.value;
      if b.Some? && c.Some? {
        assert (a.value + b.value) + c.value == a.value + (b.value + c.value);
      }
    }
  }

  /** One stretch of the detector's cursor. */
  method FillRun(symbol: Symbol, tf: Timeframe, start: Time, end: Time) returns (gaps: Option<seq<Gap>>)
    ensures gaps == StepsTo(symbol, tf, start, end)
  {
    hide ExpectedClose;
    hide NextOpen;
    var found: seq<Gap> := [];
    var cursor := start;
    JoinedTwice(StepsTo(symbol, tf, start, end), None, None);
    while cursor < end
      invariant StepsTo(symbol, tf, start, end) == Joined(Some(found), StepsTo(symbol, tf, cursor, end))
      decreases end - cursor
    {
      NextOpenIsLater(cursor, tf);
      var close := ExpectedClose(cursor, tf);
      if close.None? {
        return None;
      }
      var gap := Gap(symbol, tf, cursor, close.value);
      JoinedTwice(Some(found), Some([gap]), StepsTo(symbol, tf, NextOpen(cursor, tf), end));
      found := found + [gap];
      cursor := NextOpen(cursor, tf);
    }
    JoinedTwice(Some(found), None, None);
    gaps := Some(found);
  }

  method FillClosed(symbol: Symbol, tf: Timeframe, start: Time, evaluation: Time) returns (gaps: Option<seq<Gap>>)
    ensures gaps == StepsClosed(symbol, tf, start, evaluation)
  {
    hide ExpectedClose;
    hide NextOpen;
    var found: seq<Gap> := [];
    var cursor := start;
    JoinedTwice(StepsClosed(symbol, tf, start, evaluation), None, None);
    while cursor <= evaluation
      invariant StepsClosed(symbol, tf, start, evaluation) == Joined(Some(found), StepsClosed(symbol, tf, cursor, evaluation))
      decreases evaluation - cursor
    {
      NextOpenIsLater(cursor, tf);
      var close := ExpectedClose(cursor, tf);
      if close.None? {
        return None;
      }
      if close.value > evaluation {
        break;
      }
      var gap := Gap(symbol, tf, cursor, close.value);
      JoinedTwice(Some(found), Some([gap]), StepsClosed(symbol, tf, NextOpen(cursor, tf), evaluation));
      found := found + [gap];
      cursor := NextOpen(cursor, tf);
    }
    JoinedTwice(Some(found), None, None);
    gaps := Some(found);
  }

  lemma {:induction false} RaisedBefore(s: seq<Candle>, n: nat, m: nat, symbol: Symbol, tf: Timeframe)
    requires n <= m < |s| && InnerSteps(s, n, symbol, tf).None?
    ensures InnerSteps(s, m, symbol, tf).None?
  {
    if n < m {
      RaisedBefore(s, n, m - 1, symbol, tf);
    }
  }

  /** None if the detector raises. */
  method DetectGaps(candles: seq<Candle>, symbol: Symbol, tf: Timeframe, evaluation: Time) returns (gaps: Option<seq<Gap>>)
    ensures gaps == Detected(SortCandles(candles), symbol, tf, evaluation)
  {
    hide SortCandles;
    hide StepsTo;
    hide StepsClosed;
    hide NextOpen;
    var sorted := SortCandles(candles);
    if sorted == [] {
      return Some([]);
    }
    var found: seq<Gap> := [];
    for n := 0 to |sorted| - 1
      invariant InnerSteps(sorted, n, symbol, tf) == Some(found)
    {
      var run := FillRun(symbol, tf, NextOpen(sorted[n].openTime, tf), sorted[n + 1].openTime);
      if run.None? {
        RaisedBefore(sorted, n + 1, |sorted| - 1, symbol, tf);
        return None;
      }
      found := found + run.value;
    }
    var run := FillClosed(symbol, tf, NextOpen(sorted[|sorted| - 1].openTime, tf), evaluation);
    if run.None? {
      return None;
    }
    gaps := Some(found + run.value);
  }

  /* ---------- on aligned candles it lists periods ---------- */

  lemma {:induction false} GapRunFront(symbol: Symbol, tf: Timeframe, i: nat, j: nat)
    requires i < j
    ensures GapRun(symbol, tf, i, j) == [GapAt(symbol, tf, i)] + GapRun(symbol, tf, i + 1, j)
  {
    hide GapAt;
    if i + 1 < j {
      GapRunFront(symbol, tf, i, j - 1);
    }
  }

  lemma {:induction false} StepsAreRun(symbol: Symbol, tf: Timeframe, i: nat, j: nat)
    ensures StepsTo(symbol, tf, PeriodOpen(tf, i), PeriodOpen(tf, j)) == Some(GapRun(symbol, tf, i, j))
    decreases j - i
  {
    hide PeriodOpen;
    hide ExpectedClose;
    hide NextOpen;
    PeriodOrder(tf, i, j);
    if i < j {
      PeriodSteps(tf, i);
      GapRunFront(symbol, tf, i, j);
      StepsAreRun(symbol, tf, i + 1, j);
    }
  }

  lemma {:induction false} ClosedStepsAreRun(symbol: Symbol, tf: Timeframe, i: nat, evaluation: Time)
    ensures StepsClosed(symbol, tf, PeriodOpen(tf, i), evaluation) == Some(GapRun(symbol, tf, i, ClosedPeriods(tf, evaluation)))
    decreases ClosedPeriods(tf, evaluation) - i
  {
    hide PeriodOpen;
    hide ExpectedClose;
    hide NextOpen;
    hide ClosedPeriods;
    PeriodSteps(tf, i);
    ClosedPeriodsBound(tf, i, evaluation);
    LateCursor(tf, i, evaluation);
    if i < ClosedPeriods(tf, evaluation) {
      GapRunFront(symbol, tf, i, ClosedPeriods(tf, evaluation));
      ClosedStepsAreRun(symbol, tf, i + 1, evaluation);
    }
  }

  lemma {:induction false} InnerStepsAreGaps(s: seq<Candle>, n: nat, symbol: Symbol, tf: Timeframe)
    requires n < |s| && AllAligned(s, tf)
    ensures InnerSteps(s, n, symbol, tf) == Some(InnerGaps(s, n, symbol, tf))
  {
    hide PeriodOpen;
    hide PeriodIndex;
    hide NextOpen;
    hide StepsTo;
    if n > 0 {
      assert s[n - 1] in s && s[n] in s;
      InnerStepsAreGaps(s, n - 1, symbol, tf);
      PeriodSteps(tf, PeriodIndex(tf, s[n - 1].openTime));
      StepsAreRun(symbol, tf, PeriodIndex(tf, s[n - 1].openTime) + 1, PeriodIndex(tf, s[n].openTime));
    }
  }

  /** On candles that open their periods the detector does not raise, and walks the periods between them. */
  lemma {:induction false} AlignedIsDetected(s: seq<Candle>, symbol: Symbol, tf: Timeframe, evaluation: Time)
    requires AllAligned(s, tf)
    ensures Detected(s, symbol, tf, evaluation) == Some(GapsOf(s, symbol, tf, evaluation))
  {
    hide PeriodOpen;
    hide PeriodIndex;
    hide NextOpen;
    hide StepsClosed;
    hide ClosedPeriods;
    if s != [] {
      assert s[|s| - 1] in s;
      InnerStepsAreGaps(s, |s| - 1, symbol, tf);
      PeriodSteps(tf, PeriodIndex(tf, s[|s| - 1].openTime));
      ClosedStepsAreRun(symbol, tf, PeriodIndex(tf, s[|s| - 1].openTime) + 1, evaluation);
    }
  }

  /* ---------- when it raises ---------- */

  lemma WeekLater(t: Time)
    ensures Weekday(t + WEEK) == Weekday(t)
  {
    assert (t + WEEK) / DAY == t / DAY + 7;
  }

  /** A cursor that starts a period, or is a day, keeps doing so; a week off its Monday never does. */
  ghost predicate Steady(tf: Timeframe, cursor: Time) {
    match tf
    case Daily => true
    case Weekly => Weekday(cursor) == 0
    case Monthly => exists k: nat :: cursor == PeriodOpen(Monthly, k)
  }

  lemma SteadyCloses(tf: Timeframe, cursor: Time)
    ensures Steady(tf, cursor) ==> ExpectedClose(cursor, tf).Some? && Steady(tf, NextOpen(cursor, tf))
  {
    if tf == Weekly {
      WeekLater(cursor);
    } else if tf == Monthly && Steady(tf, cursor) {
      var k: nat :| cursor == PeriodOpen(Monthly, k);
      PeriodSteps(Monthly, k);
      assert NextOpen(cursor, tf) == PeriodOpen(Monthly, k + 1);
    }
  }

  lemma {:induction false} SteadySteps(symbol: Symbol, tf: Timeframe, cursor: Time, end: Time)
    requires tf == Weekly || Steady(tf, cursor)
    ensures StepsTo(symbol, tf, cursor, end).None? <==> cursor < end && !Steady(tf, cursor)
    decreases end - cursor
  {
    hide Steady;
    hide NextOpen;
    SteadyCloses(tf, cursor);
    if cursor < end && Steady(tf, cursor) {
      NextOpenIsLater(cursor, tf);
      SteadySteps(symbol, tf, NextOpen(cursor, tf), end);
    }
    assert tf == Weekly && !Steady(tf, cursor) ==> ExpectedClose(cursor, tf).None? by { OffMonday(cursor); }
    hide ExpectedClose;
  }

  lemma OffMonday(t: Time)
    ensures !Steady(Weekly, t) ==> ExpectedClose(t, Weekly).None?
  {
  }

  lemma {:induction false} SteadyClosed(symbol: Symbol, tf: Timeframe, cursor: Time, evaluation: Time)
    requires tf == Weekly || Steady(tf, cursor)
    ensures StepsClosed(symbol, tf, cursor, evaluation).None? <==> cursor <= evaluation && !Steady(tf, cursor)
    decreases evaluation - cursor
  {
    hide Steady;
    hide NextOpen;
    SteadyCloses(tf, cursor);
    if cursor <= evaluation && Steady(tf, cursor) {
      NextOpenIsLater(cursor, tf);
      SteadyClosed(symbol, tf, NextOpen(cursor, tf), evaluation);
    }
    assert tf == Weekly && !Steady(tf, cursor) ==> ExpectedClose(cursor, tf).None? by { OffMonday(cursor); }
    hide ExpectedClose;
  }

  lemma FirstCursor(tf: Timeframe, t: Time)
    ensures tf != Weekly ==> Steady(tf, NextOpen(t, tf))
    ensures tf == Weekly ==> (Steady(tf, NextOpen(t, tf)) <==> Weekday(t) == 0)
  {
    WeekLater(t);
    if tf == Monthly {
      FollowingMonthNumber(t);
      assert NextOpen(t, tf) == PeriodOpen(Monthly, MonthOf(t / DAY) + 1);
    }
  }

  /** The time the cursor runs to after candle `k`. */
  predicate Walks(s: seq<Candle>, k: nat, evaluation: Time)
    requires k < |s|
  {
    if k + 1 < |s| then s[k].openTime + WEEK < s[k + 1].openTime else s[k].openTime + WEEK <= evaluation
  }

  lemma {:induction false} InnerRaises(s: seq<Candle>, n: nat, symbol: Symbol, tf: Timeframe, evaluation: Time)
    requires n < |s|
    ensures InnerSteps(s, n, symbol, tf).None? <==>
            tf == Weekly && exists k :: 0 <= k < n && Walks(s, k, evaluation) && Weekday(s[k].openTime) != 0
  {
    hide Weekday;
    hide StepsTo;
    hide Steady;
    if n > 0 {
      InnerRaises(s, n - 1, symbol, tf, evaluation);
      var cursor := NextOpen(s[n - 1].openTime, tf);
      FirstCursor(tf, s[n - 1].openTime);
      SteadySteps(symbol, tf, cursor, s[n].openTime);
      assert tf == Weekly ==> (cursor < s[n].openTime <==> Walks(s, n - 1, evaluation));
      hide NextOpen;
      hide Walks;
    }
  }

  /** The detector raises exactly for a weekly series in which a candle that opens on no Monday has room for a week
      after it: before the next candle, or by the evaluation time. */
  lemma {:induction false} DetectRaisesIff(s: seq<Candle>, symbol: Symbol, tf: Timeframe, evaluation: Time)
    ensures Detected(s, symbol, tf, evaluation).None? <==>
            tf == Weekly && exists k :: 0 <= k < |s| && Walks(s, k, evaluation) && Weekday(s[k].openTime) != 0
  {
    hide Weekday;
    hide StepsClosed;
    hide InnerSteps;
    hide Steady;
    if s != [] {
      var n := |s| - 1;
      InnerRaises(s, n, symbol, tf, evaluation);
      FirstCursor(tf, s[n].openTime);
      SteadyClosed(symbol, tf, NextOpen(s[n].openTime, tf), evaluation);
      assert tf == Weekly ==> (NextOpen(s[n].openTime, tf) <= evaluation <==> Walks(s, n, evaluation));
      hide NextOpen;
      hide Walks;
    }
  }

  lemma LateCursor(tf: Timeframe, k: nat, evaluation: Time)
    ensures PeriodOpen(tf, k) > evaluation ==> k >= ClosedPeriods(tf, evaluation)
    ensures PeriodClose(tf, k) > evaluation ==> k >= ClosedPeriods(tf, evaluation)
  {
    ClosedPeriodsBound(tf, k, evaluation);
    PeriodOpensIncrease(tf, k, k + 1);
  }

  /* ---------- exactness ---------- */

  predicate HasOpen(s: seq<Candle>, t: Time) { exists c :: c in s && c.openTime == t }

  /** A period open the series lacks although it lies after the first candle and is either
      followed by a candle or already closed. */
  predicate Missing(s: seq<Candle>, tf: Timeframe, evaluation: Time, t: Time) {
    && Aligned(tf, t) && !HasOpen(s, t)
    && (exists c :: c in s && c.openTime < t)
    && ((exists c :: c in s && t < c.openTime) || PeriodClose(tf, PeriodIndex(tf, t)) <= evaluation)
  }

  predicate InRun(t: Time, tf: Timeframe, i: nat, j: nat) {
    Aligned(tf, t) && i <= PeriodIndex(tf, t) < j
  }

  /** A list of gaps, one per open satisfying `at`, in increasing order. */
  ghost predicate Lists(g: seq<Gap>, symbol: Symbol, tf: Timeframe, at: Time -> bool) {
    && (forall k, l :: 0 <= k < l < |g| ==> g[k].missingOpen < g[l].missingOpen)
    && (forall k :: 0 <= k < |g| ==> at(g[k].missingOpen) && g[k] == GapAt(symbol, tf, PeriodIndex(tf, g[k].missingOpen)))
    && (forall t: Time :: at(t) ==> exists k :: 0 <= k < |g| && g[k].missingOpen == t)
  }

  lemma {:induction false} GapRunAt(symbol: Symbol, tf: Timeframe, i: nat, j: nat)
    ensures |GapRun(symbol, tf, i, j)| == Max(0, j - i)
    ensures forall k :: 0 <= k < j - i ==> GapRun(symbol, tf, i, j)[k] == GapAt(symbol, tf, i + k)
  {
    hide GapAt;
    if i < j {
      GapRunAt(symbol, tf, i, j - 1);
    }
  }

  lemma GapRunLists(symbol: Symbol, tf: Timeframe, i: nat, j: nat)
    ensures Lists(GapRun(symbol, tf, i, j), symbol, tf, (t: Time) => InRun(t, tf, i, j))
  {
    hide PeriodOpen;
    hide PeriodIndex;
    hide PeriodClose;
    hide GapRun;
    var g := GapRun(symbol, tf, i, j);
    GapRunAt(symbol, tf, i, j);
    forall k: nat | k < |g| ensures g[k].missingOpen == PeriodOpen(tf, i + k) && PeriodIndex(tf, g[k].missingOpen) == i + k {
      OpenIsAligned(tf, i + k);
    }
    forall k, l | 0 <= k < l < |g| ensures g[k].missingOpen < g[l].missingOpen {
      PeriodOrder(tf, i + k, i + l);
    }
    forall t: Time | InRun(t, tf, i, j) ensures exists k :: 0 <= k < |g| && g[k].missingOpen == t {
      assert g[PeriodIndex(tf, t) - i].missingOpen == t;
    }
  }

  lemma ListsAppend(a: seq<Gap>, b: seq<Gap>, symbol: Symbol, tf: Timeframe, p: Time -> bool, q: Time -> bool, r: Time -> bool)
    requires Lists(a, symbol, tf, p) && Lists(b, symbol, tf, q)
    requires forall t: Time, u: Time :: p(t) && q(u) ==> t < u
    requires forall t: Time :: r(t) <==> p(t) || q(t)
    ensures Lists(a + b, symbol, tf, r)
  {
    hide GapAt;
    hide PeriodIndex;
    var g := a + b;
    forall t: Time | r(t) ensures exists k :: 0 <= k < |g| && g[k].missingOpen == t {
      if p(t) {
        var k :| 0 <= k < |a| && a[k].missingOpen == t;
        assert g[k].missingOpen == t;
      } else {
        var k :| 0 <= k < |b| && b[k].missingOpen == t;
        assert g[|a| + k].missingOpen == t;
      }
    }
  }

  /** Opens missing strictly between the first and the `n`-th candle. */
  predicate MissingInside(s: seq<Candle>, n: nat, tf: Timeframe, t: Time)
    requires n < |s|
  {
    Aligned(tf, t) && s[0].openTime < t < s[n].openTime && forall k :: 0 <= k <= n ==> s[k].openTime != t
  }

  lemma BetweenCandles(s: seq<Candle>, n: nat, tf: Timeframe, t: Time)
    requires 0 < n < |s| && SortedByOpen(s) && AllAligned(s, tf)
    ensures MissingInside(s, n, tf, t) <==>
            MissingInside(s, n - 1, tf, t) ||
            InRun(t, tf, PeriodIndex(tf, s[n - 1].openTime) + 1, PeriodIndex(tf, s[n].openTime))
  {
    hide PeriodOpen;
    hide PeriodIndex;
    assert s[n - 1] in s && s[n] in s;
    PeriodOrder(tf, PeriodIndex(tf, s[n - 1].openTime), PeriodIndex(tf, t));
    PeriodOrder(tf, PeriodIndex(tf, t), PeriodIndex(tf, s[n].openTime));
    assert forall k :: 0 <= k <= n - 1 ==> s[k].openTime <= s[n - 1].openTime;
    assert s[0].openTime <= s[n - 1].openTime <= s[n].openTime;
  }

  lemma {:induction false} InnerGapsList(s: seq<Candle>, n: nat, symbol: Symbol, tf: Timeframe)
    requires n < |s| && SortedByOpen(s) && AllAligned(s, tf)
    ensures Lists(InnerGaps(s, n, symbol, tf), symbol, tf, (t: Time) => MissingInside(s, n, tf, t))
  {
    hide PeriodOpen;
    hide PeriodIndex;
    hide GapRun;
    if n > 0 {
      InnerGapsList(s, n - 1, symbol, tf);
      var i, j := PeriodIndex(tf, s[n - 1].openTime) + 1, PeriodIndex(tf, s[n].openTime);
      GapRunLists(symbol, tf, i, j);
      forall t: Time ensures MissingInside(s, n, tf, t) <==> MissingInside(s, n - 1, tf, t) || InRun(t, tf, i, j) {
        BetweenCandles(s, n, tf, t);
      }
      RunAfter(s, n, tf, i, j);
      ListsAppend(InnerGaps(s, n - 1, symbol, tf), GapRun(symbol, tf, i, j), symbol, tf,
                  (t: Time) => MissingInside(s, n - 1, tf, t), (t: Time) => InRun(t, tf, i, j),
                      (t: Time) => MissingInside(s, n, tf, t));
    }
  }

  lemma RunAfter(s: seq<Candle>, n: nat, tf: Timeframe, i: nat, j: nat)
    requires 0 < n <= |s| && AllAligned(s, tf) && i == PeriodIndex(tf, s[n - 1].openTime) + 1
    ensures forall t: Time, u: Time {:trigger MissingInside(s, n - 1, tf, t), InRun(u, tf, i, j)} ::
              MissingInside(s, n - 1, tf, t) && InRun(u, tf, i, j) ==> t < u
  {
    hide PeriodOpen;
    hide PeriodIndex;
    assert s[n - 1] in s;
    forall u: Time | InRun(u, tf, i, j) ensures s[n - 1].openTime < u {
      PeriodOrder(tf, i - 1, PeriodIndex(tf, u));
    }
  }

  /** A missing open lies inside the series or in the closed stretch after it. */
  lemma MissingSplits(s: seq<Candle>, tf: Timeframe, evaluation: Time, t: Time)
    requires s != [] && SortedByOpen(s) && AllAligned(s, tf)
    ensures Missing(s, tf, evaluation, t) <==>
            MissingInside(s, |s| - 1, tf, t) ||
            InRun(t, tf, PeriodIndex(tf, s[|s| - 1].openTime) + 1, ClosedPeriods(tf, evaluation))
  {
    hide PeriodOpen;
    hide PeriodIndex;
    hide PeriodClose;
    var last := s[|s| - 1];
    assert s[0] in s && last in s;
    ClosedPeriodsBound(tf, PeriodIndex(tf, t), evaluation);
    PeriodOrder(tf, PeriodIndex(tf, last.openTime), PeriodIndex(tf, t));
    assert forall k :: 0 <= k < |s| ==> s[0].openTime <= s[k].openTime <= last.openTime;
    assert forall k :: 0 <= k < |s| ==> s[k] in s;
    assert Aligned(tf, t) ==>
           (InRun(t, tf, PeriodIndex(tf, last.openTime) + 1, ClosedPeriods(tf, evaluation)) <==>
            last.openTime < t && PeriodClose(tf, PeriodIndex(tf, t)) <= evaluation);
  }

  /** The detector reports precisely the missing opens, each once and in order. */
  lemma {:induction false} GapsExact(s: seq<Candle>, symbol: Symbol, tf: Timeframe, evaluation: Time)
    requires SortedByOpen(s) && AllAligned(s, tf)
    ensures Lists(GapsOf(s, symbol, tf, evaluation), symbol, tf, (t: Time) => Missing(s, tf, evaluation, t))
  {
    hide PeriodOpen;
    hide PeriodIndex;
    hide GapRun;
    hide InnerGaps;
    hide Missing;
    if s == [] {
      forall t: Time ensures !Missing(s, tf, evaluation, t) {
        NothingMissing(tf, evaluation, t);
      }
    } else {
      var i, j := PeriodIndex(tf, s[|s| - 1].openTime) + 1, ClosedPeriods(tf, evaluation);
      InnerGapsList(s, |s| - 1, symbol, tf);
      GapRunLists(symbol, tf, i, j);
      RunAfter(s, |s|, tf, i, j);
      forall t: Time ensures Missing(s, tf, evaluation, t) <==> MissingInside(s, |s| - 1, tf, t) || InRun(t, tf, i, j) {
        MissingSplits(s, tf, evaluation, t);
      }
      ListsAppend(InnerGaps(s, |s| - 1, symbol, tf), GapRun(symbol, tf, i, j), symbol, tf,
                  (t: Time) => MissingInside(s, |s| - 1, tf, t), (t: Time) => InRun(t, tf, i, j),
                      (t: Time) => Missing(s, tf, evaluation, t));
    }
  }

  lemma NothingMissing(tf: Timeframe, evaluation: Time, t: Time)
    ensures !Missing([], tf, evaluation, t)
  {
  }

  /** No gap is reported exactly when no open is missing. */
  lemma NoGapsIff(s: seq<Candle>, symbol: Symbol, tf: Timeframe, evaluation: Time)
    requires SortedByOpen(s) && AllAligned(s, tf)
    ensures GapsOf(s, symbol, tf, evaluation) == [] <==> forall t: Time :: !Missing(s, tf, evaluation, t)
  {
    hide Missing;
    hide GapsOf;
    hide GapAt;
    GapsExact(s, symbol, tf, evaluation);
    var g := GapsOf(s, symbol, tf, evaluation);
    var at := (t: Time) => Missing(s, tf, evaluation, t);
    assert g != [] ==> at(g[0].missingOpen);
    assert forall t: Time :: Missing(s, tf, evaluation, t) ==> at(t);
  }

  /** Backfilling a candle at every reported open leaves nothing to report. */
  lemma {:induction false} BackfillClosesGaps(s: seq<Candle>, filled: seq<Candle>, symbol: Symbol, tf: Timeframe,
                                        evaluation: Time)
    requires SortedByOpen(s) && AllAligned(s, tf) && SortedByOpen(filled) && AllAligned(filled, tf)
    requires forall t: Time :: HasOpen(filled, t) <==>
               HasOpen(s, t) || exists k :: 0 <= k < |GapsOf(s, symbol, tf, evaluation)| &&
                                            GapsOf(s, symbol, tf, evaluation)[k].missingOpen == t
    ensures GapsOf(filled, symbol, tf, evaluation) == []
  {
    hide GapsOf;
    hide GapAt;
    hide PeriodClose;
    hide PeriodIndex;
    hide PeriodOpen;
    var g := GapsOf(s, symbol, tf, evaluation);
    GapsExact(s, symbol, tf, evaluation);
    forall t: Time ensures !Missing(filled, tf, evaluation, t) {
      if Missing(filled, tf, evaluation, t) {
        var at := (t: Time) => Missing(s, tf, evaluation, t);
        assert !HasOpen(s, t) && !at(t);
        var c :| c in filled && c.openTime < t;
        assert HasOpen(filled, c.openTime);
        assert exists d :: d in s && d.openTime < t;
        if e :| e in filled && t < e.openTime {
          assert HasOpen(filled, e.openTime);
          assert HasOpen(s, e.openTime) || at(e.openTime);
          EarlierCloses(tf, t, e.openTime);
        }
      }
    }
    NoGapsIff(filled, symbol, tf, evaluation);
  }

  lemma EarlierCloses(tf: Timeframe, t: Time, u: Time)
    requires t < u && Aligned(tf, t) && Aligned(tf, u)
    ensures PeriodClose(tf, PeriodIndex(tf, t)) <= PeriodClose(tf, PeriodIndex(tf, u))
  {
    hide PeriodOpen;
    hide PeriodIndex;
    var i, j := PeriodIndex(tf, t), PeriodIndex(tf, u);
    PeriodOrder(tf, i, j);
    PeriodOrder(tf, i + 1, j + 1);
  }

  predicate Follows(s: seq<Candle>, k: nat, tf: Timeframe)
    requires 0 < k < |s|
  {
    s[k].openTime == NextOpen(s[k - 1].openTime, tf)
  }

  /** Each open is the period after the one before it. */
  predicate Contiguous(s: seq<Candle>, tf: Timeframe) {
    forall k :: 0 < k < |s| ==> Follows(s, k, tf)
  }

  lemma GapRunEmpty(symbol: Symbol, tf: Timeframe, i: nat, j: nat)
    ensures GapRun(symbol, tf, i, j) == [] <==> i >= j
  {
  }

  lemma FollowsIff(s: seq<Candle>, k: nat, symbol: Symbol, tf: Timeframe)
    requires 0 < k < |s| && s[k - 1].openTime < s[k].openTime
    requires Aligned(tf, s[k - 1].openTime) && Aligned(tf, s[k].openTime)
    ensures Follows(s, k, tf) <==>
            GapRun(symbol, tf, PeriodIndex(tf, s[k - 1].openTime) + 1, PeriodIndex(tf, s[k].openTime)) == []
  {
    hide PeriodOpen;
    hide PeriodIndex;
    hide GapRun;
    hide NextOpen;
    var i, j := PeriodIndex(tf, s[k - 1].openTime), PeriodIndex(tf, s[k].openTime);
    GapRunEmpty(symbol, tf, i + 1, j);
    PeriodSteps(tf, i);
    PeriodOrder(tf, i, j);
    PeriodOrder(tf, i + 1, j);
  }

  lemma {:induction false} InnerGapsEmpty(s: seq<Candle>, n: nat, symbol: Symbol, tf: Timeframe)
    requires n < |s| && StrictlySorted(s) && AllAligned(s, tf)
    ensures InnerGaps(s, n, symbol, tf) == [] <==> forall k :: 0 < k <= n ==> Follows(s, k, tf)
  {
    hide Aligned;
    hide PeriodIndex;
    hide GapRun;
    hide Follows;
    if n > 0 {
      InnerGapsEmpty(s, n - 1, symbol, tf);
      assert s[n - 1] in s && s[n] in s;
      FollowsIff(s, n, symbol, tf);
    }
  }

  /** Gap-free means: every open follows the previous one, and the period after the last has not closed. */
  lemma {:induction false} GapFreeSeries(s: seq<Candle>, symbol: Symbol, tf: Timeframe, evaluation: Time)
    requires s != [] && StrictlySorted(s) && AllAligned(s, tf)
    ensures GapsOf(s, symbol, tf, evaluation) == [] <==>
            Contiguous(s, tf) && PeriodClose(tf, PeriodIndex(tf, s[|s| - 1].openTime) + 1) > evaluation
  {
    hide PeriodOpen;
    hide PeriodIndex;
    hide GapRun;
    hide InnerGaps;
    var n := |s| - 1;
    var i := PeriodIndex(tf, s[n].openTime);
    assert s[n] in s;
    InnerGapsEmpty(s, n, symbol, tf);
    GapRunEmpty(symbol, tf, i + 1, ClosedPeriods(tf, evaluation));
    ClosedPeriodsBound(tf, i + 1, evaluation);
  }
}
