/** The strategy bundle: closed candles of three timeframes with one merged quality report. */
module Bundle {
  import opened Common
  import opened Timeframes
  import opened Candles
  import opened Gaps
  import opened Aggregation
  import opened Repository
  import opened Ingest

  /* ---------- native and aggregated candles of one timeframe ---------- */

  function Opens(s: seq<Candle>): set<Time> { set c | c in s :: c.openTime }

  function MergeCandles(native: seq<Candle>, aggregated: seq<Candle>): seq<Candle> {
    SortCandles(native + Unmatched(native, aggregated))
  }

  /** A conflict for each aggregate that differs from the native candle of the same open. */
  function MergeConflicts(native: seq<Candle>, aggregated: seq<Candle>): seq<Conflict> {
    if aggregated == [] then [] else
    MergeConflicts(native, aggregated[..|aggregated| - 1]) + ClashWithNative(native, aggregated[|aggregated| - 1])
  }

  function ClashWithNative(native: seq<Candle>, a: Candle): seq<Conflict> {
    var same := Filter(native, (c: Candle) => c.openTime == a.openTime);
    if same == [] || same[0] == a then [] else [Conflict(CandleKey(a.symbol, a.tf, a.openTime), same[0], a)]
  }

  /** The two sources must be of one symbol and timeframe, each with one candle per open. */
  predicate OneSeries(s: seq<Candle>, symbol: Symbol, tf: Timeframe) {
    StrictlySorted(s) && forall c :: c in s ==> c.symbol == symbol && c.tf == tf
  }

  lemma SameOpen(s: seq<Candle>, c: Candle)
    requires StrictlySorted(s) && c in s
    ensures Filter(s, (x: Candle) => x.openTime == c.openTime) == [c]
  {
    var same := Filter(s, (x: Candle) => x.openTime == c.openTime);
    FilterKeepsStrictOrder(s, (x: Candle) => x.openTime == c.openTime);
    assert c in same;
    assert forall x :: x in same <==> x in [c] by {
      forall x | x in same ensures x == c {
        OpenIdentifies(s, x, c);
      }
    }
    StrictlySortedUnique(same, [c]);
  }

  lemma OpenIdentifies(s: seq<Candle>, a: Candle, b: Candle)
    requires StrictlySorted(s) && a in s && b in s && a.openTime == b.openTime
    ensures a == b
  {
  }

  function Unmatched(native: seq<Candle>, aggregated: seq<Candle>): seq<Candle> {
    Filter(aggregated, (a: Candle) => a.openTime !in Opens(native))
  }

  /* ---------- the merge of any two lists ---------- */

  predicate Own(c: Candle, symbol: Symbol, tf: Timeframe) { c.symbol == symbol && c.tf == tf }

  /** The candle a dictionary by open time holds: the last of its symbol and timeframe with that open. */
  function LastAt(s: seq<Candle>, symbol: Symbol, tf: Timeframe, t: Time): Option<Candle> {
    if s == [] then None
    else if Own(s[|s| - 1], symbol, tf) && s[|s| - 1].openTime == t then Some(s[|s| - 1])
    else LastAt(s[..|s| - 1], symbol, tf, t)
  }

  /** The first of its symbol and timeframe with that open. */
  function FirstAt(s: seq<Candle>, symbol: Symbol, tf: Timeframe, t: Time): Option<Candle> {
    if s == [] then None
    else if FirstAt(s[..|s| - 1], symbol, tf, t).Some? then FirstAt(s[..|s| - 1], symbol, tf, t)
    else if Own(s[|s| - 1], symbol, tf) && s[|s| - 1].openTime == t then Some(s[|s| - 1])
    else None
  }

  /** Native candles come before aggregates. */
  function MergedAt(native: seq<Candle>, aggregated: seq<Candle>, symbol: Symbol, tf: Timeframe, t: Time): Option<Candle> {
    if LastAt(native, symbol, tf, t).Some? then LastAt(native, symbol, tf, t) else FirstAt(aggregated, symbol, tf, t)
  }

  /** A conflict for each aggregate that differs from what its open already holds. */
  function Disagreements(native: seq<Candle>, aggregated: seq<Candle>, symbol: Symbol, tf: Timeframe): seq<Conflict> {
    if aggregated == [] then [] else
    var front, a := aggregated[..|aggregated| - 1], aggregated[|aggregated| - 1];
    var existing := MergedAt(native, front, symbol, tf, a.openTime);
    Disagreements(native, front, symbol, tf) +
    if !Own(a, symbol, tf) || existing.None? || existing.value == a then []
    else [Conflict(CandleKey(symbol, tf, a.openTime), existing.value, a)]
  }

  /** What the merge answers: of each open the candle that holds it, in order. */
  ghost predicate IsMerged(merged: seq<Candle>, native: seq<Candle>, aggregated: seq<Candle>, symbol: Symbol, tf: Timeframe) {
    StrictlySorted(merged) && forall c :: c in merged <==> MergedAt(native, aggregated, symbol, tf, c.openTime) == Some(c)
  }

  /** A dictionary holds, at each open, what `at` says. */
  ghost predicate Holds(byOpen: map<Time, Candle>, at: Time -> Option<Candle>) {
    forall t: Time :: at(t) == if t in byOpen then Some(byOpen[t]) else None
  }

  method ByOpen(s: seq<Candle>, symbol: Symbol, tf: Timeframe) returns (byOpen: map<Time, Candle>)
    ensures Holds(byOpen, (t: Time) => LastAt(s, symbol, tf, t))
  {
    byOpen := map[];
    for i := 0 to |s|
      invariant forall t: Time :: LastAt(s[..i], symbol, tf, t) == if t in byOpen then Some(byOpen[t]) else None
    {
      assert s[..i + 1][..i] == s[..i];
      if Own(s[i], symbol, tf) {
        byOpen := byOpen[s[i].openTime := s[i]];
      }
    }
    assert s[..|s|] == s;
  }

  lemma {:induction false} HeldOpens(native: seq<Candle>, aggregated: seq<Candle>, symbol: Symbol, tf: Timeframe, t: Time)
    ensures var last := LastAt(native, symbol, tf, t);
            last.Some? ==> last.value in native && Own(last.value, symbol, tf) && last.value.openTime == t
    ensures var first := FirstAt(aggregated, symbol, tf, t);
            first.Some? ==> first.value in aggregated && Own(first.value, symbol, tf) && first.value.openTime == t
    decreases |native| + |aggregated|
  {
    hide Own;
    if native != [] {
      HeldOpens(native[..|native| - 1], [], symbol, tf, t);
    }
    if aggregated != [] {
      HeldOpens([], aggregated[..|aggregated| - 1], symbol, tf, t);
    }
  }

  /** `sort_candles` of the dictionary's values. */
  method SortValues(byOpen: map<Time, Candle>) returns (sorted: seq<Candle>)
    requires forall t :: t in byOpen ==> byOpen[t].openTime == t
    ensures StrictlySorted(sorted) && forall c :: c in sorted <==> c.openTime in byOpen && byOpen[c.openTime] == c
  {
    sorted := [];
    var rest := byOpen.Keys;
    while rest != {}
      invariant rest <= byOpen.Keys && StrictlySorted(sorted)
      invariant forall c :: c in sorted <==> c.openTime in byOpen.Keys - rest && byOpen[c.openTime] == c
      decreases rest
    {
      var t :| t in rest;
      rest := rest - {t};
      InsertStrict(sorted, byOpen[t]);
      sorted := Insert(sorted, byOpen[t]);
    }
  }

  lemma MergedOpens(native: seq<Candle>, aggregated: seq<Candle>, symbol: Symbol, tf: Timeframe, t: Time)
    ensures var c := MergedAt(native, aggregated, symbol, tf, t); c.Some? ==> c.value.openTime == t
  {
    HeldOpens(native, aggregated, symbol, tf, t);
    hide LastAt;
    hide FirstAt;
  }

  lemma NoneMerged(native: seq<Candle>, symbol: Symbol, tf: Timeframe)
    ensures forall t: Time :: MergedAt(native, [], symbol, tf, t) == LastAt(native, symbol, tf, t)
    ensures Disagreements(native, [], symbol, tf) == []
  {
  }

  lemma MergedNext(native: seq<Candle>, aggregated: seq<Candle>, i: nat, symbol: Symbol, tf: Timeframe)
    requires i < |aggregated|
    ensures var a := aggregated[i];
            forall t: Time :: MergedAt(native, aggregated[..i + 1], symbol, tf, t) ==
                              if MergedAt(native, aggregated[..i], symbol, tf, t).None? && Own(a, symbol, tf) && a.openTime == t
                              then Some(a) else MergedAt(native, aggregated[..i], symbol, tf, t)
    ensures var a := aggregated[i]; var existing := MergedAt(native, aggregated[..i], symbol, tf, a.openTime);
            Disagreements(native, aggregated[..i + 1], symbol, tf) ==
            Disagreements(native, aggregated[..i], symbol, tf) +
            if !Own(a, symbol, tf) || existing.None? || existing.value == a then []
            else [Conflict(CandleKey(symbol, tf, a.openTime), existing.value, a)]
  {
    hide LastAt;
    hide Own;
    assert aggregated[..i + 1][..i] == aggregated[..i];
  }

  method Merge(native: seq<Candle>, aggregated: seq<Candle>, symbol: Symbol, tf: Timeframe)
    returns (merged: seq<Candle>, conflicts: seq<Conflict>)
    ensures IsMerged(merged, native, aggregated, symbol, tf)
    ensures conflicts == Disagreements(native, aggregated, symbol, tf)
  {
    hide StrictlySorted;
    hide MergedAt;
    hide Disagreements;
    hide Own;
    var byOpen: map<Time, Candle> := ByOpen(native, symbol, tf);
    conflicts := [];
    NoneMerged(native, symbol, tf);
    for i := 0 to |aggregated|
      invariant forall t: Time ::
                  MergedAt(native, aggregated[..i], symbol, tf, t) == if t in byOpen then Some(byOpen[t]) else None
      invariant conflicts == Disagreements(native, aggregated[..i], symbol, tf)
    {
      var agg := aggregated[i];
      MergedNext(native, aggregated, i, symbol, tf);
      if Own(agg, symbol, tf) {
        if agg.openTime !in byOpen {
          byOpen := byOpen[agg.openTime := agg];
        } else if byOpen[agg.openTime] != agg {
          conflicts := conflicts + [Conflict(CandleKey(symbol, tf, agg.openTime), byOpen[agg.openTime], agg)];
        }
      }
    }
    assert aggregated[..|aggregated|] == aggregated;
    forall t: Time | t in byOpen ensures byOpen[t].openTime == t {
      MergedOpens(native, aggregated, symbol, tf, t);
    }
    merged := SortValues(byOpen);
  }

  /* ---------- the merge of two series with one candle per open ---------- */

  lemma SplitSeries(s: seq<Candle>, symbol: Symbol, tf: Timeframe, c: Candle)
    requires OneSeries(s, symbol, tf) && s != []
    ensures var front, last := s[..|s| - 1], s[|s| - 1];
            OneSeries(front, symbol, tf) && Own(last, symbol, tf) && last.openTime !in Opens(front) &&
            Opens(s) == Opens(front) + {last.openTime} && (c in s <==> c in front || c == last) &&
            (c in front ==> c.openTime in Opens(front))
  {
    var front, last := s[..|s| - 1], s[|s| - 1];
    assert s == front + [last] && last in s;
    assert forall x :: x in front ==> x.openTime < last.openTime;
  }

  lemma {:induction false} LastIsIn(s: seq<Candle>, symbol: Symbol, tf: Timeframe, c: Candle)
    requires OneSeries(s, symbol, tf)
    ensures LastAt(s, symbol, tf, c.openTime) == Some(c) <==> c in s
    ensures LastAt(s, symbol, tf, c.openTime).Some? <==> c.openTime in Opens(s)
  {
    hide OneSeries;
    hide Own;
    if s != [] {
      SplitSeries(s, symbol, tf, c);
      LastIsIn(s[..|s| - 1], symbol, tf, c);
      hide Opens;
    }
  }

  lemma {:induction false} FirstIsIn(s: seq<Candle>, symbol: Symbol, tf: Timeframe, c: Candle)
    requires OneSeries(s, symbol, tf)
    ensures FirstAt(s, symbol, tf, c.openTime) == Some(c) <==> c in s
    ensures FirstAt(s, symbol, tf, c.openTime).Some? <==> c.openTime in Opens(s)
  {
    hide OneSeries;
    hide Own;
    if s != [] {
      SplitSeries(s, symbol, tf, c);
      FirstIsIn(s[..|s| - 1], symbol, tf, c);
      hide Opens;
    }
  }

  lemma OneAt(s: seq<Candle>, symbol: Symbol, tf: Timeframe, c: Candle)
    requires OneSeries(s, symbol, tf)
    ensures LastAt(s, symbol, tf, c.openTime) == Some(c) <==> c in s
    ensures FirstAt(s, symbol, tf, c.openTime) == Some(c) <==> c in s
    ensures LastAt(s, symbol, tf, c.openTime).Some? <==> c.openTime in Opens(s)
    ensures FirstAt(s, symbol, tf, c.openTime).Some? <==> c.openTime in Opens(s)
  {
    hide LastAt;
    hide FirstAt;
    hide Opens;
    hide OneSeries;
    LastIsIn(s, symbol, tf, c);
    FirstIsIn(s, symbol, tf, c);
  }

  lemma {:induction false} MergedSeries(merged: seq<Candle>, native: seq<Candle>, aggregated: seq<Candle>, symbol: Symbol,
                                        tf: Timeframe)
    requires OneSeries(native, symbol, tf) && OneSeries(aggregated, symbol, tf)
    requires IsMerged(merged, native, aggregated, symbol, tf)
    ensures merged == MergeCandles(native, aggregated)
  {
    hide MergeCandles;
    MergeExact(native, aggregated, symbol, tf);
    forall c ensures c in merged <==> c in MergeCandles(native, aggregated) {
      OneAt(native, symbol, tf, c);
      OneAt(aggregated, symbol, tf, c);
      assert c in native ==> c.openTime in Opens(native);
    }
    hide LastAt;
    hide FirstAt;
    StrictlySortedUnique(merged, MergeCandles(native, aggregated));
  }

  lemma {:induction false} SeriesDisagree(native: seq<Candle>, aggregated: seq<Candle>, symbol: Symbol, tf: Timeframe)
    requires OneSeries(native, symbol, tf) && OneSeries(aggregated, symbol, tf)
    ensures Disagreements(native, aggregated, symbol, tf) == MergeConflicts(native, aggregated)
  {
    hide ClashWithNative;
    if aggregated != [] {
      var front, a := aggregated[..|aggregated| - 1], aggregated[|aggregated| - 1];
      assert a in aggregated && forall c :: c in front ==> c in aggregated && c.openTime < a.openTime;
      SeriesDisagree(native, front, symbol, tf);
      OneAt(front, symbol, tf, a);
      OneAt(native, symbol, tf, a);
      ClashMeans(native, a);
      if LastAt(native, symbol, tf, a.openTime).Some? {
        var c := LastAt(native, symbol, tf, a.openTime).value;
        HeldOpens(native, [], symbol, tf, a.openTime);
        assert c in native && c.openTime == a.openTime;
      }
      hide LastAt;
      hide FirstAt;
    }
  }

  lemma ClashMeans(native: seq<Candle>, a: Candle)
    requires StrictlySorted(native)
    ensures a.openTime !in Opens(native) ==> ClashWithNative(native, a) == []
    ensures forall c :: c in native && c.openTime == a.openTime ==>
              ClashWithNative(native, a) ==
              if c == a then [] else [Conflict(CandleKey(a.symbol, a.tf, a.openTime), c, a)]
  {
    var same := Filter(native, (c: Candle) => c.openTime == a.openTime);
    if same != [] {
      assert same[0] in same;
      assert same[0].openTime in Opens(native);
    }
    forall c | c in native && c.openTime == a.openTime
      ensures ClashWithNative(native, a) == if c == a then [] else [Conflict(CandleKey(a.symbol, a.tf, a.openTime), c, a)]
    {
      SameOpen(native, c);
    }
  }

  /** The merge keeps one candle per open: every native candle, and an aggregate only where there is none. */
  lemma {:induction false} MergeExact(native: seq<Candle>, aggregated: seq<Candle>, symbol: Symbol, tf: Timeframe)
    requires OneSeries(native, symbol, tf) && OneSeries(aggregated, symbol, tf)
    ensures OneSeries(MergeCandles(native, aggregated), symbol, tf)
    ensures forall c :: c in MergeCandles(native, aggregated) <==>
              c in native || (c in aggregated && c.openTime !in Opens(native))
  {
    FilterKeepsStrictOrder(aggregated, (a: Candle) => a.openTime !in Opens(native));
    DistinctUnion(native, Unmatched(native, aggregated));
    hide SortCandles;
    SortDistinct(native + Unmatched(native, aggregated));
  }

  predicate DistinctOpens(s: seq<Candle>) {
    forall i, j :: 0 <= i < j < |s| ==> s[i].openTime != s[j].openTime
  }

  lemma DistinctUnion(a: seq<Candle>, b: seq<Candle>)
    requires StrictlySorted(a) && StrictlySorted(b) && forall c :: c in b ==> c.openTime !in Opens(a)
    ensures DistinctOpens(a + b)
  {
    var s := a + b;
    forall i, j | 0 <= i < j < |s| ensures s[i].openTime != s[j].openTime {
      if i < |a| <= j {
        assert a[i] in a && b[j - |a|] in b;
      }
    }
  }

  lemma {:induction false} SortDistinct(s: seq<Candle>)
    requires DistinctOpens(s)
    ensures StrictlySorted(SortCandles(s))
  {
    hide Insert;
    if s != [] {
      var front := s[..|s| - 1];
      SortDistinct(front);
      InsertStrict(SortCandles(front), s[|s| - 1]);
    }
  }

  /* ---------- the bundle ---------- */

  datatype Minimums = Minimums(daily: nat, weekly: nat, monthly: nat)

  /** What the bundle reads from the store: the closed candles of a symbol, and the recorded conflicts. */
  datatype View = View(daily: seq<Candle>, weekly: seq<Candle>, monthly: seq<Candle>, conflicts: seq<Conflict>)

  datatype StrategyBundle = StrategyBundle(
    symbol: Symbol, evaluationTime: Time, daily: seq<Candle>, weekly: seq<Candle>, monthly: seq<Candle>, report: Report)
  {
    predicate IsUsable() { report.status == Valid }
  }

  function ConflictsFor(conflicts: seq<Conflict>, symbol: Symbol, tf: Timeframe): seq<Conflict> {
    Filter(conflicts, (c: Conflict) => c.key.symbol == symbol && c.key.tf == tf)
  }

  function GapCheckTime(closed: seq<Candle>, evaluation: Time, tf: Timeframe): Time {
    if tf == Daily || closed == [] then evaluation else Min(evaluation, closed[|closed| - 1].closeTime)
  }

  function Selected(candles: seq<Candle>, minimum: nat): seq<Candle> {
    if minimum == 0 || |candles| < minimum then candles else candles[|candles| - minimum..]
  }

  function MarkClosed(s: seq<Candle>): seq<Candle> {
    seq(|s|, i requires 0 <= i < |s| => s[i].(isClosed := true))
  }

  function ToSeries(candles: seq<Candle>, minimum: nat): seq<Candle> { MarkClosed(Selected(candles, minimum)) }

  function Native(v: View, tf: Timeframe): seq<Candle> {
    match tf
    case Daily => v.daily
    case Weekly => v.weekly
    case Monthly => v.monthly
  }

  /** The candles of a timeframe that enter the bundle, before the closed filter is applied again. */
  function Resolved(v: View, symbol: Symbol, tf: Timeframe, evaluation: Time, aggregate: bool): seq<Candle> {
    if tf == Daily || !aggregate then Native(v, tf)
    else MergeCandles(Native(v, tf), Aggregate(v.daily, symbol, tf, evaluation))
  }

  function ResolvedConflicts(v: View, symbol: Symbol, tf: Timeframe, evaluation: Time, aggregate: bool): seq<Conflict> {
    ConflictsFor(v.conflicts, symbol, tf) +
    (if tf == Daily || !aggregate then [] else MergeConflicts(Native(v, tf), Aggregate(v.daily, symbol, tf, evaluation)))
  }

  function Closed(v: View, symbol: Symbol, tf: Timeframe, evaluation: Time, aggregate: bool): seq<Candle> {
    var resolved := Resolved(v, symbol, tf, evaluation, aggregate);
    if tf == Daily then resolved else Filter(resolved, (c: Candle) => IsClosedAt(c.closeTime, evaluation))
  }

  function ReportOf(v: View, symbol: Symbol, tf: Timeframe, evaluation: Time, aggregate: bool): Report
    requires forall c :: c in Closed(v, symbol, tf, evaluation, aggregate) ==> HasExpectedClose(c)
  {
    var closed := Closed(v, symbol, tf, evaluation, aggregate);
    SeriesReport(closed, symbol, tf, evaluation,
                 GapsOf(SortCandles(closed), symbol, tf, GapCheckTime(closed, evaluation, tf)),
                 ResolvedConflicts(v, symbol, tf, evaluation, aggregate))
  }

  function Priority(s: QualityStatus): nat {
    match s
    case Invalid => 4
    case Incomplete => 3
    case Stale => 2
    case Disconnected => 2
    case Valid => 0
  }

  /** The first status of highest priority. */
  function Worst(a: QualityStatus, b: QualityStatus, c: QualityStatus): QualityStatus {
    var ab := if Priority(b) > Priority(a) then b else a;
    if Priority(c) > Priority(ab) then c else ab
  }

  function MergeReports(d: Report, w: Report, m: Report): Report {
    var worst := Worst(d.status, w.status, m.status);
    Report(worst,
           if worst == Valid then [MdValid] else Dedup(d.codes + w.codes + m.codes),
           d.gaps + w.gaps + m.gaps, d.conflicts + w.conflicts + m.conflicts,
           d.missingRanges + w.missingRanges + m.missingRanges,
           m.lastKnown, m.expectedNextOpen, d.evaluationTime)
  }

  function WithHistory(merged: Report, enough: bool, evaluation: Time): Report {
    if enough then merged else
    merged.(status := if merged.status == Invalid then Invalid else Incomplete,
            codes := Dedup(merged.codes + [MdIncomplete]), evaluationTime := evaluation)
  }

  /** What the store guarantees about the closed series it hands out. */
  predicate SoundView(v: View, symbol: Symbol, evaluation: Time) {
    forall tf :: SoundSeries(Native(v, tf), symbol, tf, evaluation)
  }

  function BundleOf(v: View, symbol: Symbol, evaluation: Time, min: Minimums, aggregate: bool): StrategyBundle
    requires forall tf, c :: c in Closed(v, symbol, tf, evaluation, aggregate) ==> HasExpectedClose(c)
  {
    var d := Closed(v, symbol, Daily, evaluation, aggregate);
    var w := Closed(v, symbol, Weekly, evaluation, aggregate);
    var m := Closed(v, symbol, Monthly, evaluation, aggregate);
    var merged := MergeReports(ReportOf(v, symbol, Daily, evaluation, aggregate),
                               ReportOf(v, symbol, Weekly, evaluation, aggregate),
                               ReportOf(v, symbol, Monthly, evaluation, aggregate));
    StrategyBundle(symbol, evaluation, ToSeries(d, min.daily), ToSeries(w, min.weekly), ToSeries(m, min.monthly),
                   WithHistory(merged, |d| >= min.daily && |w| >= min.weekly && |m| >= min.monthly, evaluation))
  }

  /* ---------- the candles that enter a bundle are sound ---------- */

  lemma SoundDailies(s: seq<Candle>, symbol: Symbol, evaluation: Time)
    requires SoundSeries(s, symbol, Daily, evaluation)
    ensures OfSymbol(s, symbol) == s && DailyAligned(s)
    ensures forall c :: c in s ==> WellFormed(c)
  {
    FilterAll(s, (d: Candle) => d.symbol == symbol);
    StrictIsSorted(s);
    hide SortCandles;
    hide WellFormed;
    forall d | d in s ensures Midnight(d.openTime) {
      DailyOpenIsMidnight(d);
    }
  }

  lemma DailyOpenIsMidnight(d: Candle)
    requires d.tf == Daily && Canonical(d)
    ensures Midnight(d.openTime)
  {
    WholeDays(d.openTime / DAY);
  }

  lemma AggregatesAreSound(s: seq<Candle>, symbol: Symbol, tf: Timeframe, evaluation: Time)
    requires SoundSeries(s, symbol, Daily, evaluation)
    ensures SoundSeries(Aggregate(s, symbol, tf, evaluation), symbol, tf, evaluation)
  {
    hide Aggregate;
    hide OfSymbol;
    hide WellFormed;
    hide Canonical;
    hide DailyAligned;
    SoundDailies(s, symbol, evaluation);
    AggregateSorted(s, symbol, tf, evaluation);
    forall c | c in Aggregate(s, symbol, tf, evaluation)
      ensures c.symbol == symbol && c.tf == tf && Canonical(c) && WellFormed(c) && c.closeTime <= evaluation
    {
      AggregateMeaning(s, symbol, tf, evaluation, c);
      var i :| PeriodClose(tf, i) <= evaluation && Summarises(c, OfSymbol(s, symbol), symbol, tf, i);
      AggregateWellFormed(s, c, symbol, tf, i);
      SummaryIsCanonical(c, s, symbol, tf, i);
    }
  }

  lemma SummaryIsCanonical(c: Candle, own: seq<Candle>, symbol: Symbol, tf: Timeframe, i: nat)
    requires Summarises(c, own, symbol, tf, i)
    ensures Canonical(c) && c.symbol == symbol && c.tf == tf && c.closeTime == PeriodClose(tf, i)
  {
    OpenIsAligned(tf, i);
  }

  lemma MergeIsSound(native: seq<Candle>, aggregated: seq<Candle>, symbol: Symbol, tf: Timeframe, evaluation: Time)
    requires SoundSeries(native, symbol, tf, evaluation) && SoundSeries(aggregated, symbol, tf, evaluation)
    ensures SoundSeries(MergeCandles(native, aggregated), symbol, tf, evaluation)
  {
    hide MergeCandles;
    hide WellFormed;
    hide Canonical;
    MergeExact(native, aggregated, symbol, tf);
  }

  lemma ResolvedIsSound(v: View, symbol: Symbol, tf: Timeframe, evaluation: Time, aggregate: bool)
    requires SoundView(v, symbol, evaluation)
    ensures SoundSeries(Resolved(v, symbol, tf, evaluation, aggregate), symbol, tf, evaluation)
  {
    hide SoundSeries;
    hide Aggregate;
    hide MergeCandles;
    assert SoundSeries(Native(v, tf), symbol, tf, evaluation);
    if tf != Daily && aggregate {
      assert SoundSeries(Native(v, Daily), symbol, Daily, evaluation);
      AggregatesAreSound(v.daily, symbol, tf, evaluation);
      MergeIsSound(Native(v, tf), Aggregate(v.daily, symbol, tf, evaluation), symbol, tf, evaluation);
    }
  }

  lemma AllClosed(s: seq<Candle>, symbol: Symbol, tf: Timeframe, evaluation: Time)
    requires SoundSeries(s, symbol, tf, evaluation)
    ensures Filter(s, (c: Candle) => IsClosedAt(c.closeTime, evaluation)) == s
  {
    FilterAll(s, (c: Candle) => IsClosedAt(c.closeTime, evaluation));
  }

  /** Filtering again changes nothing: everything that enters a bundle has closed by evaluation time. */
  lemma ClosedIsResolved(v: View, symbol: Symbol, tf: Timeframe, evaluation: Time, aggregate: bool)
    requires SoundView(v, symbol, evaluation)
    ensures Closed(v, symbol, tf, evaluation, aggregate) == Resolved(v, symbol, tf, evaluation, aggregate)
    ensures SoundSeries(Closed(v, symbol, tf, evaluation, aggregate), symbol, tf, evaluation)
    ensures forall c :: c in Closed(v, symbol, tf, evaluation, aggregate) ==> HasExpectedClose(c)
  {
    hide SoundSeries;
    hide Resolved;
    hide HasExpectedClose;
    hide SoundView;
    ResolvedIsSound(v, symbol, tf, evaluation, aggregate);
    AllClosed(Resolved(v, symbol, tf, evaluation, aggregate), symbol, tf, evaluation);
    WellFormedHasClose(Resolved(v, symbol, tf, evaluation, aggregate), symbol, tf, evaluation);
  }

  lemma BundleDefined(v: View, symbol: Symbol, evaluation: Time, aggregate: bool)
    requires SoundView(v, symbol, evaluation)
    ensures forall tf, c :: c in Closed(v, symbol, tf, evaluation, aggregate) ==> HasExpectedClose(c)
  {
    hide SoundView;
    hide Closed;
    hide HasExpectedClose;
    forall tf: Timeframe ensures forall c :: c in Closed(v, symbol, tf, evaluation, aggregate) ==> HasExpectedClose(c) {
      ClosedIsResolved(v, symbol, tf, evaluation, aggregate);
    }
  }

  /* ---------- assembling it from the store ---------- */

  ghost predicate IsView(v: View, db: Db, symbol: Symbol, evaluation: Time) {
    v.conflicts == db.conflicts && forall tf :: IsClosedSeries(Native(v, tf), db.store, symbol, tf, evaluation)
  }

  lemma ViewIsSound(v: View, db: Db, symbol: Symbol, evaluation: Time)
    requires SoundStore(db) && IsView(v, db, symbol, evaluation)
    ensures SoundView(v, symbol, evaluation)
  {
    hide SoundSeries;
    hide IsClosedSeries;
    hide SoundStore;
    hide Native;
    forall tf: Timeframe ensures SoundSeries(Native(v, tf), symbol, tf, evaluation) {
      ClosedSeriesIsSound(db, Native(v, tf), symbol, tf, evaluation);
    }
  }

  lemma ViewOf(v: View, db: Db, symbol: Symbol, evaluation: Time)
    requires v.conflicts == db.conflicts && IsClosedSeries(v.daily, db.store, symbol, Daily, evaluation)
    requires IsClosedSeries(v.weekly, db.store, symbol, Weekly, evaluation)
    requires IsClosedSeries(v.monthly, db.store, symbol, Monthly, evaluation)
    ensures IsView(v, db, symbol, evaluation)
  {
    hide IsClosedSeries;
  }

  /** The aggregates of a symbol are one series of their timeframe, whatever the daily candles. */
  lemma AggregatesAreOneSeries(daily: seq<Candle>, symbol: Symbol, tf: Timeframe, evaluation: Time)
    ensures OneSeries(Aggregate(daily, symbol, tf, evaluation), symbol, tf)
  {
    AggregateSorted(daily, symbol, tf, evaluation);
    hide AggregateOne;
    hide OfSymbol;
    hide StrictlySorted;
    forall c | c in Aggregate(daily, symbol, tf, evaluation) ensures Own(c, symbol, tf) {
      var own := OfSymbol(daily, symbol);
      var i, j := PeriodIndex(tf, own[0].openTime), PeriodIndex(tf, own[|own| - 1].openTime) + 1;
      RunLists(own, symbol, tf, evaluation, i, j, c);
      var k :| i <= k < j && AggregateOne(own, symbol, tf, evaluation, k) == Some(c);
      AggregateIsOwn(own, symbol, tf, evaluation, k);
    }
  }

  lemma AggregateIsOwn(own: seq<Candle>, symbol: Symbol, tf: Timeframe, evaluation: Time, k: nat)
    ensures AggregateOne(own, symbol, tf, evaluation, k).Some? ==>
              Own(AggregateOne(own, symbol, tf, evaluation, k).value, symbol, tf)
  {
  }

  method ResolveHigherTimeframe(native: seq<Candle>, daily: seq<Candle>, symbol: Symbol, tf: Timeframe, evaluation: Time,
                                aggregate: bool) returns (candles: seq<Candle>, conflicts: seq<Conflict>)
    requires OneSeries(native, symbol, tf)
    ensures candles == if aggregate && tf != Daily then MergeCandles(native, Aggregate(daily, symbol, tf, evaluation)) else native
    ensures conflicts == if aggregate && tf != Daily then MergeConflicts(native, Aggregate(daily, symbol, tf, evaluation)) else []
  {
    hide MergeCandles;
    hide MergeConflicts;
    hide Aggregate;
    hide OneSeries;
    hide IsMerged;
    if !aggregate || tf == Daily {
      return native, [];
    }
    var aggregated: seq<Candle>;
    if tf == Weekly {
      aggregated := AggregateWeekly(daily, symbol, evaluation);
    } else {
      aggregated := AggregateMonthly(daily, symbol, evaluation);
    }
    AggregatesAreOneSeries(daily, symbol, tf, evaluation);
    candles, conflicts := Merge(native, aggregated, symbol, tf);
    MergedSeries(candles, native, aggregated, symbol, tf);
    SeriesDisagree(native, aggregated, symbol, tf);
  }

  /** The report of a timeframe; None if gap detection or validation raises. */
  function ReportFor(closed: seq<Candle>, symbol: Symbol, tf: Timeframe, evaluation: Time, conflicts: seq<Conflict>)
    : Option<Report>
  {
    var gaps := Detected(SortCandles(closed), symbol, tf, GapCheckTime(closed, evaluation, tf));
    if gaps.None? || exists c :: c in closed && !HasExpectedClose(c) then None
    else Some(SeriesReport(closed, symbol, tf, evaluation, gaps.value, conflicts))
  }

  method BuildReport(closed: seq<Candle>, symbol: Symbol, tf: Timeframe, evaluation: Time, conflicts: seq<Conflict>)
    returns (report: Option<Report>)
    ensures report == ReportFor(closed, symbol, tf, evaluation, conflicts)
  {
    hide HasExpectedClose;
    hide SeriesReport;
    hide Detected;
    hide SortCandles;
    var gaps := DetectGaps(closed, symbol, tf, GapCheckTime(closed, evaluation, tf));
    if gaps.None? {
      return None;
    }
    report := ValidateSeries(closed, symbol, tf, evaluation, gaps.value, conflicts);
  }

  function ReportIn(v: View, symbol: Symbol, tf: Timeframe, evaluation: Time, aggregate: bool): Option<Report> {
    ReportFor(Closed(v, symbol, tf, evaluation, aggregate), symbol, tf, evaluation,
              ResolvedConflicts(v, symbol, tf, evaluation, aggregate))
  }

  /** The bundle of whatever the store holds; None if one of the reports raises. */
  function Assembled(v: View, symbol: Symbol, evaluation: Time, min: Minimums, aggregate: bool): Option<StrategyBundle> {
    var d := Closed(v, symbol, Daily, evaluation, aggregate);
    var w := Closed(v, symbol, Weekly, evaluation, aggregate);
    var m := Closed(v, symbol, Monthly, evaluation, aggregate);
    var dr := ReportIn(v, symbol, Daily, evaluation, aggregate);
    var wr := ReportIn(v, symbol, Weekly, evaluation, aggregate);
    var mr := ReportIn(v, symbol, Monthly, evaluation, aggregate);
    if dr.None? || wr.None? || mr.None? then None else
    Some(StrategyBundle(
      symbol, evaluation, ToSeries(d, min.daily), ToSeries(w, min.weekly), ToSeries(m, min.monthly),
      WithHistory(MergeReports(dr.value, wr.value, mr.value),
                  |d| >= min.daily && |w| >= min.weekly && |m| >= min.monthly, evaluation)))
  }

  lemma ViewIsOneSeries(v: View, db: Db, symbol: Symbol, evaluation: Time)
    requires IsView(v, db, symbol, evaluation)
    ensures forall tf :: OneSeries(Native(v, tf), symbol, tf)
  {
    forall tf: Timeframe ensures OneSeries(Native(v, tf), symbol, tf) {
      assert IsClosedSeries(Native(v, tf), db.store, symbol, tf, evaluation);
    }
  }

  /** A higher timeframe: resolved, filtered and reported. */
  method HigherTimeframe(ghost v: View, native: seq<Candle>, daily: seq<Candle>, conflicts: seq<Conflict>, symbol: Symbol,
                         tf: Timeframe, evaluation: Time, aggregate: bool)
    returns (closed: seq<Candle>, report: Option<Report>)
    requires tf != Daily && native == Native(v, tf) && daily == v.daily && conflicts == v.conflicts
    requires OneSeries(native, symbol, tf)
    ensures closed == Closed(v, symbol, tf, evaluation, aggregate)
    ensures report == ReportIn(v, symbol, tf, evaluation, aggregate)
  {
    hide OneSeries;
    hide MergeCandles;
    hide MergeConflicts;
    hide Aggregate;
    hide ReportFor;
    hide ConflictsFor;
    var all, disagreements := ResolveHigherTimeframe(native, daily, symbol, tf, evaluation, aggregate);
    closed := Filter(all, (c: Candle) => IsClosedAt(c.closeTime, evaluation));
    report := BuildReport(closed, symbol, tf, evaluation, ConflictsFor(conflicts, symbol, tf) + disagreements);
  }

  /** Of any repository; None if the source raises. */
  method GetStrategyBundle(repository: CandleRepository, symbol: Symbol, evaluation: Time, min: Minimums, aggregate: bool)
    returns (bundle: Option<StrategyBundle>, ghost v: View)
    requires repository.Valid()
    ensures IsView(v, repository.State(), symbol, evaluation)
    ensures bundle == Assembled(v, symbol, evaluation, min, aggregate)
  {
    hide IsView;
    hide IsClosedSeries;
    hide OneSeries;
    hide MergeCandles;
    hide MergeConflicts;
    hide Aggregate;
    hide ReportFor;
    hide MergeReports;
    hide WithHistory;
    hide ToSeries;
    hide ConflictsFor;
    hide KeysMatch;
    var conflicts := repository.conflicts;
    var daily := repository.GetClosedBefore(symbol, Daily, evaluation);
    var weekly := repository.GetClosedBefore(symbol, Weekly, evaluation);
    var monthly := repository.GetClosedBefore(symbol, Monthly, evaluation);
    v := View(daily, weekly, monthly, conflicts);
    ViewOf(v, repository.State(), symbol, evaluation);
    ViewIsOneSeries(v, repository.State(), symbol, evaluation);
    assert Native(v, Weekly) == weekly && Native(v, Monthly) == monthly;
    assert Closed(v, symbol, Daily, evaluation, aggregate) == daily;
    assert ConflictsFor(conflicts, symbol, Daily) + [] == ConflictsFor(conflicts, symbol, Daily);
    var dailyReport := BuildReport(daily, symbol, Daily, evaluation, ConflictsFor(conflicts, symbol, Daily));
    if dailyReport.None? {
      return None, v;
    }
    var weeklyClosed, weeklyReport := HigherTimeframe(v, weekly, daily, conflicts, symbol, Weekly, evaluation, aggregate);
    if weeklyReport.None? {
      return None, v;
    }
    var monthlyClosed, monthlyReport := HigherTimeframe(v, monthly, daily, conflicts, symbol, Monthly, evaluation, aggregate);
    if monthlyReport.None? {
      return None, v;
    }
    var merged := MergeReports(dailyReport.value, weeklyReport.value, monthlyReport.value);
    var enough := |daily| >= min.daily && |weeklyClosed| >= min.weekly && |monthlyClosed| >= min.monthly;
    bundle := Some(StrategyBundle(symbol, evaluation, ToSeries(daily, min.daily), ToSeries(weeklyClosed, min.weekly),
                                  ToSeries(monthlyClosed, min.monthly), WithHistory(merged, enough, evaluation)));
  }

  lemma ReportIsDefined(v: View, symbol: Symbol, tf: Timeframe, evaluation: Time, aggregate: bool)
    requires SoundView(v, symbol, evaluation)
    ensures forall c :: c in Closed(v, symbol, tf, evaluation, aggregate) ==> HasExpectedClose(c)
    ensures ReportIn(v, symbol, tf, evaluation, aggregate) == Some(ReportOf(v, symbol, tf, evaluation, aggregate))
  {
    hide SoundView;
    hide SoundSeries;
    hide CleanSeries;
    hide HasExpectedClose;
    hide SeriesReport;
    hide Detected;
    hide GapsOf;
    hide SortCandles;
    hide Closed;
    hide ResolvedConflicts;
    hide GapCheckTime;
    hide AllAligned;
    var closed := Closed(v, symbol, tf, evaluation, aggregate);
    ClosedIsResolved(v, symbol, tf, evaluation, aggregate);
    SoundIsClean(closed, symbol, tf, evaluation);
    SoundIsStrict(closed, symbol, tf, evaluation);
    AlignedIsDetected(closed, symbol, tf, GapCheckTime(closed, evaluation, tf));
  }

  /** From a sound store the bundle never raises. */
  lemma SoundIsAssembled(v: View, symbol: Symbol, evaluation: Time, min: Minimums, aggregate: bool)
    requires SoundView(v, symbol, evaluation)
    ensures forall tf, c :: c in Closed(v, symbol, tf, evaluation, aggregate) ==> HasExpectedClose(c)
    ensures Assembled(v, symbol, evaluation, min, aggregate) == Some(BundleOf(v, symbol, evaluation, min, aggregate))
  {
    hide SoundView;
    hide ReportIn;
    hide ReportOf;
    hide Closed;
    hide HasExpectedClose;
    hide ToSeries;
    hide WithHistory;
    hide MergeReports;
    BundleDefined(v, symbol, evaluation, aggregate);
    ReportIsDefined(v, symbol, Daily, evaluation, aggregate);
    ReportIsDefined(v, symbol, Weekly, evaluation, aggregate);
    ReportIsDefined(v, symbol, Monthly, evaluation, aggregate);
  }

  /** After any history of raw ingests the bundle never raises. */
  lemma {:induction false} ReachableIsAssembled(calls: seq<Call>, v: View, symbol: Symbol, evaluation: Time, min: Minimums,
                                                aggregate: bool)
    requires IsView(v, History(calls), symbol, evaluation)
    ensures SoundView(v, symbol, evaluation)
    ensures forall tf, c :: c in Closed(v, symbol, tf, evaluation, aggregate) ==> HasExpectedClose(c)
    ensures Assembled(v, symbol, evaluation, min, aggregate) == Some(BundleOf(v, symbol, evaluation, min, aggregate))
  {
    hide History;
    hide IsView;
    hide SoundStore;
    hide SoundView;
    hide Assembled;
    hide BundleOf;
    hide Closed;
    hide HasExpectedClose;
    ReachableIsSound(calls);
    ViewIsSound(v, History(calls), symbol, evaluation);
    SoundIsAssembled(v, symbol, evaluation, min, aggregate);
  }

  /** Two stores that agree on the candles closed by evaluation time, and on the conflicts, give equal
      bundles: nothing that closes later can be seen. */
  lemma {:induction false} BundleSeesOnlyThePast(a: Db, b: Db, va: View, vb: View, symbol: Symbol, evaluation: Time,
                                                 min: Minimums, aggregate: bool)
    requires IsView(va, a, symbol, evaluation) && IsView(vb, b, symbol, evaluation) && a.conflicts == b.conflicts
    requires forall c: Candle | c.symbol == symbol && c.closeTime <= evaluation :: c in a.store.Values <==> c in b.store.Values
    ensures va == vb && Assembled(va, symbol, evaluation, min, aggregate) == Assembled(vb, symbol, evaluation, min, aggregate)
  {
    forall tf: Timeframe ensures Native(va, tf) == Native(vb, tf) {
      assert IsClosedSeries(Native(va, tf), a.store, symbol, tf, evaluation);
      assert IsClosedSeries(Native(vb, tf), b.store, symbol, tf, evaluation);
      ClosedSeriesUnique(Native(va, tf), Native(vb, tf), a.store, b.store, symbol, tf, evaluation);
    }
    assert va.daily == Native(va, Daily) && va.weekly == Native(va, Weekly) && va.monthly == Native(va, Monthly);
    assert vb.daily == Native(vb, Daily) && vb.weekly == Native(vb, Weekly) && vb.monthly == Native(vb, Monthly);
    hide Assembled;
  }

  /* ---------- what a usable bundle holds ---------- */

  /** A timeframe is in order: candles without a hole, up to the evaluation time for days, and no conflict. */
  predicate InOrder(v: View, symbol: Symbol, tf: Timeframe, evaluation: Time, aggregate: bool) {
    var closed := Closed(v, symbol, tf, evaluation, aggregate);
    && closed != [] && ResolvedConflicts(v, symbol, tf, evaluation, aggregate) == []
    && Contiguous(closed, tf)
    && (tf == Daily ==> PeriodClose(tf, PeriodIndex(tf, closed[|closed| - 1].openTime) + 1) > evaluation)
  }

  lemma ReportCovers(v: View, symbol: Symbol, tf: Timeframe, evaluation: Time, aggregate: bool)
    requires SoundView(v, symbol, evaluation)
    ensures var closed := Closed(v, symbol, tf, evaluation, aggregate);
            SoundSeries(closed, symbol, tf, evaluation) && (forall c :: c in closed ==> HasExpectedClose(c)) &&
            (ReportOf(v, symbol, tf, evaluation, aggregate).status == Valid <==>
             closed != [] && ResolvedConflicts(v, symbol, tf, evaluation, aggregate) == [] &&
             CoversTo(closed, tf, GapCheckTime(closed, evaluation, tf)))
  {
    hide SoundView;
    hide SoundSeries;
    hide SeriesReport;
    hide GapsOf;
    hide SortCandles;
    hide Closed;
    hide ResolvedConflicts;
    hide HasExpectedClose;
    hide CoversTo;
    hide GapCheckTime;
    var closed := Closed(v, symbol, tf, evaluation, aggregate);
    ClosedIsResolved(v, symbol, tf, evaluation, aggregate);
    SoundIsStrict(closed, symbol, tf, evaluation);
    SoundSeriesValid(closed, symbol, tf, evaluation, GapCheckTime(closed, evaluation, tf),
                     ResolvedConflicts(v, symbol, tf, evaluation, aggregate));
  }

  lemma ReportValidIff(v: View, symbol: Symbol, tf: Timeframe, evaluation: Time, aggregate: bool)
    requires SoundView(v, symbol, evaluation)
    requires forall c :: c in Closed(v, symbol, tf, evaluation, aggregate) ==> HasExpectedClose(c)
    ensures ReportOf(v, symbol, tf, evaluation, aggregate).status == Valid <==> InOrder(v, symbol, tf, evaluation, aggregate)
  {
    hide SoundView;
    hide SoundSeries;
    hide ReportOf;
    hide Closed;
    hide ResolvedConflicts;
    hide HasExpectedClose;
    hide Contiguous;
    hide PeriodClose;
    hide PeriodIndex;
    hide CoversTo;
    hide GapCheckTime;
    var closed := Closed(v, symbol, tf, evaluation, aggregate);
    ReportCovers(v, symbol, tf, evaluation, aggregate);
    if closed != [] {
      CoversToHorizon(closed, symbol, tf, evaluation);
    }
  }

  lemma CoversToHorizon(s: seq<Candle>, symbol: Symbol, tf: Timeframe, evaluation: Time)
    requires SoundSeries(s, symbol, tf, evaluation) && s != []
    ensures CoversTo(s, tf, GapCheckTime(s, evaluation, tf)) <==>
            Contiguous(s, tf) &&
            (tf == Daily ==> PeriodClose(tf, PeriodIndex(tf, s[|s| - 1].openTime) + 1) > evaluation)
  {
    hide SoundSeries;
    hide Contiguous;
    hide PeriodClose;
    hide PeriodIndex;
    NextClosesLater(s, symbol, tf, evaluation);
  }

  lemma NextClosesLater(s: seq<Candle>, symbol: Symbol, tf: Timeframe, evaluation: Time)
    requires SoundSeries(s, symbol, tf, evaluation) && s != []
    ensures PeriodClose(tf, PeriodIndex(tf, s[|s| - 1].openTime) + 1) > s[|s| - 1].closeTime
  {
    hide PeriodOpen;
    hide PeriodIndex;
    assert s[|s| - 1] in s;
    var i := PeriodIndex(tf, s[|s| - 1].openTime);
    PeriodOrder(tf, i + 1, i + 2);
  }

  predicate Enough(v: View, symbol: Symbol, evaluation: Time, min: Minimums, aggregate: bool) {
    && |Closed(v, symbol, Daily, evaluation, aggregate)| >= min.daily
    && |Closed(v, symbol, Weekly, evaluation, aggregate)| >= min.weekly
    && |Closed(v, symbol, Monthly, evaluation, aggregate)| >= min.monthly
  }

  /** A bundle is usable exactly when every timeframe is in order and long enough. */
  lemma {:induction false} UsableIff(v: View, symbol: Symbol, evaluation: Time, min: Minimums, aggregate: bool)
    requires SoundView(v, symbol, evaluation)
    requires forall tf, c :: c in Closed(v, symbol, tf, evaluation, aggregate) ==> HasExpectedClose(c)
    ensures BundleOf(v, symbol, evaluation, min, aggregate).IsUsable() <==>
            InOrder(v, symbol, Daily, evaluation, aggregate) && InOrder(v, symbol, Weekly, evaluation, aggregate) &&
            InOrder(v, symbol, Monthly, evaluation, aggregate) && Enough(v, symbol, evaluation, min, aggregate)
  {
    hide SoundView;
    hide ReportOf;
    hide InOrder;
    hide Closed;
    hide HasExpectedClose;
    hide ToSeries;
    ReportValidIff(v, symbol, Daily, evaluation, aggregate);
    ReportValidIff(v, symbol, Weekly, evaluation, aggregate);
    ReportValidIff(v, symbol, Monthly, evaluation, aggregate);
  }

  /** A series handed to the strategy: exactly the last `n` of the closed, hole-free candles. */
  predicate LastOf(series: seq<Candle>, closed: seq<Candle>, n: nat, symbol: Symbol, tf: Timeframe, evaluation: Time) {
    && n <= |closed| && |series| == n && Contiguous(series, tf)
    && forall i :: 0 <= i < n ==>
         series[i] == closed[|closed| - n + i].(isClosed := true) && series[i].symbol == symbol &&
         series[i].tf == tf && series[i].closeTime <= evaluation
  }

  lemma {:induction false} UsableHoldsLast(v: View, symbol: Symbol, tf: Timeframe, evaluation: Time, n: nat, aggregate: bool)
    requires SoundView(v, symbol, evaluation) && InOrder(v, symbol, tf, evaluation, aggregate)
    requires 0 < n <= |Closed(v, symbol, tf, evaluation, aggregate)|
    ensures LastOf(ToSeries(Closed(v, symbol, tf, evaluation, aggregate), n), Closed(v, symbol, tf, evaluation, aggregate),
                   n, symbol, tf, evaluation)
  {
    hide SoundView;
    hide Closed;
    hide SoundSeries;
    hide Contiguous;
    hide LastOf;
    hide ToSeries;
    ClosedIsResolved(v, symbol, tf, evaluation, aggregate);
    LastCandles(Closed(v, symbol, tf, evaluation, aggregate), symbol, tf, evaluation, n);
  }

  lemma LastCandles(closed: seq<Candle>, symbol: Symbol, tf: Timeframe, evaluation: Time, n: nat)
    requires SoundSeries(closed, symbol, tf, evaluation) && Contiguous(closed, tf) && 0 < n <= |closed|
    ensures LastOf(ToSeries(closed, n), closed, n, symbol, tf, evaluation)
  {
    hide NextOpen;
    hide WellFormed;
    hide Canonical;
    var series := ToSeries(closed, n);
    forall i | 0 <= i < n
      ensures series[i] == closed[|closed| - n + i].(isClosed := true) && series[i].symbol == symbol &&
              series[i].tf == tf && series[i].closeTime <= evaluation
    {
      assert closed[|closed| - n + i] in closed;
    }
    forall k | 0 < k < n ensures Follows(series, k, tf) {
      assert Follows(closed, |closed| - n + k, tf);
    }
  }

  /** A usable bundle with positive minimums holds, in each timeframe, exactly the last `minimum` closed,
      contiguous candles. */
  lemma {:induction false} UsableBundle(v: View, symbol: Symbol, evaluation: Time, min: Minimums, aggregate: bool)
    requires SoundView(v, symbol, evaluation) && min.daily > 0 && min.weekly > 0 && min.monthly > 0
    requires forall tf, c :: c in Closed(v, symbol, tf, evaluation, aggregate) ==> HasExpectedClose(c)
    requires BundleOf(v, symbol, evaluation, min, aggregate).IsUsable()
    ensures var b := BundleOf(v, symbol, evaluation, min, aggregate);
            LastOf(b.daily, Closed(v, symbol, Daily, evaluation, aggregate), min.daily, symbol, Daily, evaluation) &&
            LastOf(b.weekly, Closed(v, symbol, Weekly, evaluation, aggregate), min.weekly, symbol, Weekly, evaluation) &&
            LastOf(b.monthly, Closed(v, symbol, Monthly, evaluation, aggregate), min.monthly, symbol, Monthly, evaluation)
  {
    hide SoundView;
    hide ReportOf;
    hide InOrder;
    hide Closed;
    hide HasExpectedClose;
    hide ToSeries;
    hide LastOf;
    UsableIff(v, symbol, evaluation, min, aggregate);
    UsableHoldsLast(v, symbol, Daily, evaluation, min.daily, aggregate);
    UsableHoldsLast(v, symbol, Weekly, evaluation, min.weekly, aggregate);
    UsableHoldsLast(v, symbol, Monthly, evaluation, min.monthly, aggregate);
  }
}
