/** Performance metrics: drawdown, streaks and the per-symbol breakdown of closed trades. */
module Metrics {
  import opened Common
  import opened Ratios

  datatype Drawdown = Drawdown(equity: real, peak: real, pct: real)

  /** The running peak, which starts at zero. */
  function Peak(equities: seq<real>): real {
    if equities == [] then 0.0 else MaxReal(Peak(equities[..|equities| - 1]), equities[|equities| - 1])
  }

  function DrawdownPct(peak: real, equity: real): real {
    if peak == 0.0 then 0.0 else (peak - equity) / peak
  }

  function Curve(equities: seq<real>): seq<Drawdown> {
    if equities == [] then [] else
    var peak, last := Peak(equities), equities[|equities| - 1];
    Curve(equities[..|equities| - 1]) + [Drawdown(last, peak, DrawdownPct(peak, last))]
  }

  method DrawdownCurve(equities: seq<real>) returns (curve: seq<Drawdown>)
    ensures curve == Curve(equities)
  {
    curve := [];
    var peak := 0.0;
    for i := 0 to |equities|
      invariant peak == Peak(equities[..i]) && curve == Curve(equities[..i])
    {
      assert equities[..i + 1][..i] == equities[..i];
      peak := MaxReal(peak, equities[i]);
      curve := curve + [Drawdown(equities[i], peak, DrawdownPct(peak, equities[i]))];
    }
    assert equities[..|equities|] == equities;
  }

  /** The largest percentage on the curve, zero for an empty one. */
  function MaxDrawdown(curve: seq<Drawdown>): real {
    if curve == [] then 0.0
    else if |curve| == 1 then curve[0].pct
    else MaxReal(MaxDrawdown(curve[..|curve| - 1]), curve[|curve| - 1].pct)
  }

  /* ---------- drawdown against its definition over pairs ---------- */

  predicate Positive(equities: seq<real>) { forall i :: 0 <= i < |equities| ==> equities[i] > 0.0 }

  /** The loss from day `i` to day `j`, relative to day `i`. */
  function Loss(equities: seq<real>, i: nat, j: nat): real
    requires i < |equities| && j < |equities| && equities[i] != 0.0
  {
    (equities[i] - equities[j]) / equities[i]
  }

  lemma {:induction false} PeakIsMaximum(equities: seq<real>)
    requires Positive(equities) && equities != []
    ensures forall i :: 0 <= i < |equities| ==> equities[i] <= Peak(equities)
    ensures exists i :: 0 <= i < |equities| && equities[i] == Peak(equities)
  {
    var n := |equities| - 1;
    if n > 0 {
      PeakIsMaximum(equities[..n]);
      assert forall i :: 0 <= i < n ==> equities[..n][i] == equities[i];
      var i :| 0 <= i < n && equities[..n][i] == Peak(equities[..n]);
      assert equities[if Peak(equities) == equities[n] then n else i] == Peak(equities);
    } else {
      assert equities[..n] == [] && equities[0] == Peak(equities);
    }
  }

  lemma CompareQuotients(a: real, b: real, c: real, d: real)
    requires b > 0.0 && d > 0.0 && a * d <= c * b
    ensures a / b <= c / d
  {
    var x, y := a / b, c / d;
    assert x * b == a && y * d == c;
    assert (y - x) * (b * d) == c * b - a * d;
    assert b * d > 0.0;
  }

  lemma LossGrowsWithPeak(low: real, high: real, e: real)
    requires 0.0 < low <= high && 0.0 < e
    ensures (low - e) / low <= (high - e) / high
  {
    assert e * low <= e * high;
    assert (low - e) * high == low * high - e * high;
    assert (high - e) * low == low * high - e * low;
    CompareQuotients(low - e, low, high - e, high);
  }

  /** The last point of the curve is the largest loss ending there. */
  lemma LastDrawdown(equities: seq<real>)
    requires Positive(equities) && equities != []
    ensures var j := |equities| - 1; var pct := Curve(equities)[|Curve(equities)| - 1].pct;
            (forall i :: 0 <= i <= j ==> Loss(equities, i, j) <= pct) &&
            (exists i :: 0 <= i <= j && Loss(equities, i, j) == pct)
  {
    var j := |equities| - 1;
    PeakIsMaximum(equities);
    forall i | 0 <= i <= j ensures Loss(equities, i, j) <= DrawdownPct(Peak(equities), equities[j]) {
      LossGrowsWithPeak(equities[i], Peak(equities), equities[j]);
    }
    var i :| 0 <= i < |equities| && equities[i] == Peak(equities);
    assert Loss(equities, i, j) == DrawdownPct(Peak(equities), equities[j]);
  }

  lemma CurveLength(equities: seq<real>)
    ensures |Curve(equities)| == |equities|
  {
  }

  predicate BoundsLosses(m: real, equities: seq<real>) {
    forall i, j :: 0 <= i <= j < |equities| && equities[i] != 0.0 ==> Loss(equities, i, j) <= m
  }

  predicate AttainsLoss(m: real, equities: seq<real>) {
    exists i, j :: 0 <= i <= j < |equities| && equities[i] != 0.0 && Loss(equities, i, j) == m
  }

  lemma LossOfPrefix(equities: seq<real>, n: nat)
    requires n <= |equities|
    ensures forall i, j :: 0 <= i <= j < n && equities[i] != 0.0 ==> Loss(equities[..n], i, j) == Loss(equities, i, j)
  {
  }

  lemma MaxStep(equities: seq<real>)
    requires |equities| > 1
    ensures MaxDrawdown(Curve(equities)) ==
            MaxReal(MaxDrawdown(Curve(equities[..|equities| - 1])), Curve(equities)[|Curve(equities)| - 1].pct)
  {
    CurveLength(equities);
    CurveLength(equities[..|equities| - 1]);
    assert Curve(equities)[..|equities| - 1] == Curve(equities[..|equities| - 1]);
  }

  lemma AttainedLater(m: real, equities: seq<real>)
    requires equities != [] && AttainsLoss(m, equities[..|equities| - 1])
    ensures AttainsLoss(m, equities)
  {
    var n := |equities| - 1;
    LossOfPrefix(equities, n);
    hide Loss;
    var i, j :| 0 <= i <= j < n && equities[..n][i] != 0.0 && Loss(equities[..n], i, j) == m;
    assert Loss(equities, i, j) == m;
  }

  lemma BoundedLater(m: real, equities: seq<real>)
    requires equities != [] && BoundsLosses(m, equities[..|equities| - 1])
    requires forall i :: 0 <= i < |equities| && equities[i] != 0.0 ==> Loss(equities, i, |equities| - 1) <= m
    ensures BoundsLosses(m, equities)
  {
    var n := |equities| - 1;
    LossOfPrefix(equities, n);
    hide Loss;
    forall i, j | 0 <= i <= j < |equities| && equities[i] != 0.0 ensures Loss(equities, i, j) <= m {
      if j < n {
        assert Loss(equities[..n], i, j) <= m;
      }
    }
  }

  /** The one-pass maximum drawdown is the maximum relative loss over all pairs of days. */
  lemma {:induction false} MaxDrawdownExact(equities: seq<real>)
    requires Positive(equities) && equities != []
    ensures BoundsLosses(MaxDrawdown(Curve(equities)), equities) && AttainsLoss(MaxDrawdown(Curve(equities)), equities)
  {
    var n := |equities| - 1;
    LastDrawdown(equities);
    CurveLength(equities);
    hide Loss;
    hide Curve;
    var pct := Curve(equities)[n].pct;
    var k :| 0 <= k <= n && Loss(equities, k, n) == pct;
    assert AttainsLoss(pct, equities);
    if n > 0 {
      MaxStep(equities);
      hide MaxDrawdown;
      MaxDrawdownExact(equities[..n]);
      AttainedLater(MaxDrawdown(Curve(equities[..n])), equities);
      BoundedLater(MaxDrawdown(Curve(equities)), equities);
    }
  }

  /* ---------- streaks ---------- */

  /** The length of the run of wins (or losses) ending with the last trade. */
  function RunLength(ts: seq<Closed>, win: bool): nat {
    if ts == [] || IsWin(ts[|ts| - 1]) != win then 0 else 1 + RunLength(ts[..|ts| - 1], win)
  }

  function LongestRun(ts: seq<Closed>, win: bool): nat {
    if ts == [] then 0 else Max(LongestRun(ts[..|ts| - 1], win), RunLength(ts, win))
  }

  method Streaks(ts: seq<Closed>) returns (maxWins: nat, maxLosses: nat)
    ensures maxWins == LongestRun(ts, true) && maxLosses == LongestRun(ts, false)
  {
    var wins, losses := 0, 0;
    maxWins, maxLosses := 0, 0;
    for i := 0 to |ts|
      invariant wins == RunLength(ts[..i], true) && losses == RunLength(ts[..i], false)
      invariant maxWins == LongestRun(ts[..i], true) && maxLosses == LongestRun(ts[..i], false)
    {
      assert ts[..i + 1][..i] == ts[..i];
      if IsWin(ts[i]) {
        wins, losses := wins + 1, 0;
      } else {
        wins, losses := 0, losses + 1;
      }
      maxWins := Max(maxWins, wins);
      maxLosses := Max(maxLosses, losses);
    }
    assert ts[..|ts|] == ts;
  }

  predicate AllOf(ts: seq<Closed>, from: nat, to: nat, win: bool)
    requires from <= to <= |ts|
  {
    forall k :: from <= k < to ==> IsWin(ts[k]) == win
  }

  lemma {:induction false} RunLengthExact(ts: seq<Closed>, win: bool)
    ensures RunLength(ts, win) <= |ts| && AllOf(ts, |ts| - RunLength(ts, win), |ts|, win)
    ensures RunLength(ts, win) < |ts| ==> IsWin(ts[|ts| - RunLength(ts, win) - 1]) != win
  {
    if ts != [] && IsWin(ts[|ts| - 1]) == win {
      var front := ts[..|ts| - 1];
      RunLengthExact(front, win);
      var n := RunLength(front, win);
      forall k | |ts| - 1 - n <= k < |ts| ensures IsWin(ts[k]) == win {
        if k < |ts| - 1 {
          assert IsWin(front[k]) == win;
        }
      }
    }
  }

  lemma {:induction false} FinalRun(ts: seq<Closed>, a: nat, win: bool)
    requires a <= |ts| && AllOf(ts, a, |ts|, win)
    ensures |ts| - a <= RunLength(ts, win)
  {
    if a < |ts| {
      var front := ts[..|ts| - 1];
      assert forall k :: a <= k < |front| ==> front[k] == ts[k];
      FinalRun(front, a, win);
    }
  }

  /** The reported streak is the length of a longest block of consecutive wins (or losses). */
  lemma {:induction false} LongestRunExact(ts: seq<Closed>, win: bool)
    ensures exists a, b :: 0 <= a <= b <= |ts| && b - a == LongestRun(ts, win) && AllOf(ts, a, b, win)
    ensures forall a, b :: 0 <= a <= b <= |ts| && AllOf(ts, a, b, win) ==> b - a <= LongestRun(ts, win)
  {
    var n := |ts|;
    if n == 0 {
      assert AllOf(ts, 0, 0, win);
    } else {
      var front := ts[..n - 1];
      LongestRunExact(front, win);
      RunLengthExact(ts, win);
      var r := RunLength(ts, win);
      if LongestRun(ts, win) == r {
        assert AllOf(ts, n - r, n, win);
      } else {
        var a, b :| 0 <= a <= b <= n - 1 && b - a == LongestRun(front, win) && AllOf(front, a, b, win);
        assert forall k :: a <= k < b ==> ts[k] == front[k];
        assert AllOf(ts, a, b, win);
      }
      forall a, b | 0 <= a <= b <= n && AllOf(ts, a, b, win) ensures b - a <= LongestRun(ts, win) {
        if b < n {
          assert forall k :: a <= k < b ==> ts[k] == front[k];
          assert AllOf(front, a, b, win);
        } else {
          FinalRun(ts, a, win);
        }
      }
    }
  }

  /** `n` is the length of a longest block of consecutive wins (or losses). */
  ghost predicate IsLongest(ts: seq<Closed>, n: nat, win: bool) {
    && (exists a, b :: 0 <= a <= b <= |ts| && b - a == n && AllOf(ts, a, b, win))
    && (forall a, b :: 0 <= a <= b <= |ts| && AllOf(ts, a, b, win) ==> b - a <= n)
  }

  lemma LongestRunIsLongest(ts: seq<Closed>, win: bool)
    ensures IsLongest(ts, LongestRun(ts, win), win)
  {
    LongestRunExact(ts, win);
    hide LongestRun;
    hide AllOf;
  }

  /* ---------- breakdown by symbol ---------- */

  function OfSymbol(ts: seq<Closed>, symbol: string): seq<Closed> {
    Filter(ts, (t: Closed) => t.symbol == symbol)
  }

  datatype SymbolMetrics = SymbolMetrics(symbol: string, count: nat, netPnl: real, winRate: Option<real>)

  function MetricsOf(ts: seq<Closed>, symbol: string): SymbolMetrics {
    SymbolMetrics(symbol, |OfSymbol(ts, symbol)|, SumPnl(OfSymbol(ts, symbol)), WinRate(OfSymbol(ts, symbol)))
  }

  /** One entry per symbol that was traded, whatever order they are listed in. */
  predicate Lists(symbols: seq<string>, ts: seq<Closed>) {
    && (forall i, j :: 0 <= i < j < |symbols| ==> symbols[i] != symbols[j])
    && (forall t :: t in ts ==> t.symbol in symbols)
  }

  function Counts(symbols: seq<string>, ts: seq<Closed>): nat {
    if symbols == [] then 0 else MetricsOf(ts, symbols[0]).count + Counts(symbols[1..], ts)
  }

  function Pnls(symbols: seq<string>, ts: seq<Closed>): real {
    if symbols == [] then 0.0 else MetricsOf(ts, symbols[0]).netPnl + Pnls(symbols[1..], ts)
  }

  lemma {:induction false} BreakdownStep(symbols: seq<string>, t: Closed, rest: seq<Closed>)
    requires forall i, j :: 0 <= i < j < |symbols| ==> symbols[i] != symbols[j]
    ensures Counts(symbols, [t] + rest) == Counts(symbols, rest) + (if t.symbol in symbols then 1 else 0)
    ensures Pnls(symbols, [t] + rest) == Pnls(symbols, rest) + (if t.symbol in symbols then t.netPnl else 0.0)
  {
    if symbols != [] {
      BreakdownStep(symbols[1..], t, rest);
      assert ([t] + rest)[1..] == rest;
    }
  }

  /** The per-symbol counts and profits add up to the totals. */
  lemma {:induction false} BreakdownTotals(symbols: seq<string>, ts: seq<Closed>)
    requires Lists(symbols, ts)
    ensures Counts(symbols, ts) == |ts| && Pnls(symbols, ts) == SumPnl(ts)
  {
    if ts == [] {
      EmptyBreakdown(symbols);
    } else {
      BreakdownTotals(symbols, ts[1..]);
      assert ts == [ts[0]] + ts[1..];
      BreakdownStep(symbols, ts[0], ts[1..]);
    }
  }

  lemma EmptyBreakdown(symbols: seq<string>)
    ensures Counts(symbols, []) == 0 && Pnls(symbols, []) == 0.0
  {
  }

  /* ---------- the metrics of a run ---------- */

  function InsertName(names: seq<string>, name: string): seq<string> {
    if names == [] || NameBefore(name, names[0]) then [name] + names
    else if name == names[0] then names
    else [names[0]] + InsertName(names[1..], name)
  }

  /** The symbols that were traded, each once, in alphabetical order. */
  function Traded(ts: seq<Closed>): seq<string> {
    if ts == [] then [] else InsertName(Traded(ts[..|ts| - 1]), ts[|ts| - 1].symbol)
  }

  predicate Alphabetical(names: seq<string>) { forall i, j :: 0 <= i < j < |names| ==> NameBefore(names[i], names[j]) }

  lemma {:induction false} InsertNameMembers(names: seq<string>, name: string)
    ensures forall x :: x in InsertName(names, name) <==> x in names || x == name
  {
    if names != [] && !NameBefore(name, names[0]) && name != names[0] {
      InsertNameMembers(names[1..], name);
      assert forall x :: x in names <==> x == names[0] || x in names[1..];
    }
  }

  lemma {:induction false} InsertNameOrdered(names: seq<string>, name: string)
    requires Alphabetical(names)
    ensures Alphabetical(InsertName(names, name))
  {
    if names != [] {
      NamesCompare(name, names[0]);
      hide NameBefore;
      if NameBefore(name, names[0]) {
        forall j | 0 <= j < |names| ensures NameBefore(name, names[j]) {
          if j > 0 {
            NameBeforeTrans(name, names[0], names[j]);
          }
        }
      } else if name != names[0] {
        InsertNameOrdered(names[1..], name);
        InsertNameMembers(names[1..], name);
        var rest := InsertName(names[1..], name);
        forall j | 0 <= j < |rest| ensures NameBefore(names[0], rest[j]) {
          assert rest[j] in rest;
        }
      }
    }
  }

  lemma {:induction false} TradedExact(ts: seq<Closed>)
    ensures Alphabetical(Traded(ts)) && Lists(Traded(ts), ts)
  {
    hide NameBefore;
    if ts != [] {
      var front, last := ts[..|ts| - 1], ts[|ts| - 1];
      TradedExact(front);
      InsertNameOrdered(Traded(front), last.symbol);
      InsertNameMembers(Traded(front), last.symbol);
      assert forall t :: t in ts <==> t in front || t == last;
    }
    var names := Traded(ts);
    forall i, j | 0 <= i < j < |names| ensures names[i] != names[j] {
      NotBeforeItself(names[i]);
    }
  }

  datatype Summary = Summary(
    tradeCount: nat, ratios: RatioSet, maxDrawdown: real, maxWins: nat, maxLosses: nat, perSymbol: seq<SymbolMetrics>,
    perEntry: seq<EntryMetrics>, costs: Costs)

  function PerSymbol(ts: seq<Closed>, names: seq<string>): seq<SymbolMetrics> {
    seq(|names|, i requires 0 <= i < |names| => MetricsOf(ts, names[i]))
  }

  function Amounts(points: seq<Point>): seq<real> { seq(|points|, i requires 0 <= i < |points| => points[i].equity) }

  function SummaryOf(points: seq<Point>, ts: seq<Closed>, a: Account, roots: Roots): Summary {
    Summary(|ts|, RatiosOf(points, ts, a, roots), MaxDrawdown(Curve(Amounts(points))), LongestRun(ts, true),
            LongestRun(ts, false), PerSymbol(ts, Traded(ts)), PerEntry(ts), a.costs)
  }

  method ComputeMetrics(points: seq<Point>, ts: seq<Closed>, a: Account, roots: Roots) returns (summary: Summary)
    ensures summary == SummaryOf(points, ts, a, roots)
  {
    hide MetricsOf;
    hide GrowthRate;
    var curve := DrawdownCurve(Amounts(points));
    var moves := ListReturns(points);
    var ratios := RatioSet(
      TotalReturn(a), GrowthRate(a, roots), WinRate(ts),
      if GrossLoss(ts) > 0.0 then Quotient(GrossProfit(ts), GrossLoss(ts)) else None,
      MeanPnl(ts), Mean(RMultiples(ts)), Mean(RMultiples(ts)), MeanPnl(Winners(ts)), MeanPnl(Losers(ts)),
      Sharpe(moves, roots), Sortino(moves, roots), Quotient(DaysIn(points) as real, |points| as real));
    var maxWins, maxLosses := Streaks(ts);
    var names := Traded(ts);
    var perSymbol: seq<SymbolMetrics> := [];
    for n := 0 to |names|
      invariant perSymbol == PerSymbol(ts, names[..n])
    {
      perSymbol := perSymbol + [MetricsOf(ts, names[n])];
    }
    assert names[..|names|] == names;
    var perEntry := EntryMetricsOf(ts, BreakoutEntry) + EntryMetricsOf(ts, PullbackEntry);
    summary := Summary(|ts|, ratios, MaxDrawdown(curve), maxWins, maxLosses, perSymbol, perEntry, a.costs);
  }

  function TotalCount(ms: seq<SymbolMetrics>): nat { if ms == [] then 0 else ms[0].count + TotalCount(ms[1..]) }

  function TotalPnl(ms: seq<SymbolMetrics>): real { if ms == [] then 0.0 else ms[0].netPnl + TotalPnl(ms[1..]) }

  lemma {:induction false} TotalsOfBreakdown(ts: seq<Closed>, names: seq<string>)
    ensures TotalCount(PerSymbol(ts, names)) == Counts(names, ts) && TotalPnl(PerSymbol(ts, names)) == Pnls(names, ts)
  {
    hide MetricsOf;
    if names != [] {
      TotalsOfBreakdown(ts, names[1..]);
      assert PerSymbol(ts, names) == [MetricsOf(ts, names[0])] + PerSymbol(ts, names[1..]);
    }
  }

  /** The breakdowns in the metrics, by symbol and by entry type, add up to all trades; the former lists each traded
      symbol once, in alphabetical order. */
  lemma {:induction false} SummaryAddsUp(points: seq<Point>, ts: seq<Closed>, a: Account, roots: Roots)
    ensures var m := SummaryOf(points, ts, a, roots);
            TotalCount(m.perSymbol) == m.tradeCount && TotalPnl(m.perSymbol) == SumPnl(ts) &&
            EntryCount(m.perEntry) == m.tradeCount && EntryPnl(m.perEntry) == SumPnl(ts) &&
            forall i, j :: 0 <= i < j < |m.perSymbol| ==> NameBefore(m.perSymbol[i].symbol, m.perSymbol[j].symbol)
  {
    TradedExact(ts);
    TotalsOfBreakdown(ts, Traded(ts));
    BreakdownTotals(Traded(ts), ts);
    EntriesAddUp(ts);
    hide PerEntry;
    hide RatiosOf;
    hide NameBefore;
    hide Traded;
  }
}
