/** The ratios of a backtest: rates, expectancies and returns, each of them none where the service divides by zero. */
module Ratios {
  import opened Common
  import opened Timeframes

  datatype Entry = BreakoutEntry | PullbackEntry

  /** A closed trade as the metrics see it. */
  datatype Closed = Closed(symbol: string, netPnl: real, entry: Entry, rMultiple: Option<real>)

  /** A point of the equity curve as the metrics see it. */
  datatype Point = Point(equity: real, openPositions: nat)

  /** The two irrational functions the service takes from its platform. */
  datatype Roots = Roots(root: real -> real, power: (real, real) -> real)

  datatype Costs = Costs(fees: real, funding: real, slippage: real)

  /** The capital a run starts and ends with, its first and last day if it has any, and what it has paid. */
  datatype Account = Account(start: real, end: real, span: Option<(Time, Time)>, costs: Costs)

  predicate IsWin(t: Closed) { t.netPnl > 0.0 }

  predicate IsLoss(t: Closed) { t.netPnl <= 0.0 }

  function SumPnl(ts: seq<Closed>): real {
    if ts == [] then 0.0 else ts[0].netPnl + SumPnl(ts[1..])
  }

  function Sum(xs: seq<real>): real { if xs == [] then 0.0 else Sum(xs[..|xs| - 1]) + xs[|xs| - 1] }

  function Quotient(a: real, b: real): Option<real> { if b == 0.0 then None else Some(a / b) }

  function Winners(ts: seq<Closed>): seq<Closed> { Filter(ts, IsWin) }

  function Losers(ts: seq<Closed>): seq<Closed> { Filter(ts, IsLoss) }

  function GrossProfit(ts: seq<Closed>): real { SumPnl(Winners(ts)) }

  function GrossLoss(ts: seq<Closed>): real {
    if SumPnl(Losers(ts)) < 0.0 then -SumPnl(Losers(ts)) else SumPnl(Losers(ts))
  }

  function MeanPnl(ts: seq<Closed>): Option<real> { Quotient(SumPnl(ts), |ts| as real) }

  function RMultiples(ts: seq<Closed>): seq<real> {
    if ts == [] then [] else
    RMultiples(ts[..|ts| - 1]) + if ts[|ts| - 1].rMultiple.Some? then [ts[|ts| - 1].rMultiple.value] else []
  }

  function Mean(xs: seq<real>): Option<real> { Quotient(Sum(xs), |xs| as real) }

  function WinRate(ts: seq<Closed>): Option<real> { Quotient(|Winners(ts)| as real, |ts| as real) }

  const DAYS_PER_YEAR: real := 365.25

  function TotalReturn(a: Account): Option<real> { Quotient(a.end - a.start, a.start) }

  /** The yearly growth that would lead from the first capital to the last. */
  function GrowthRate(a: Account, roots: Roots): Option<real> {
    if a.span.None? || TotalReturn(a).None? || a.end <= 0.0 || a.start <= 0.0 then None else
    var years := ((a.span.value.1 - a.span.value.0) / DAY) as real / DAYS_PER_YEAR;
    if years <= 0.0 then None else Some(roots.power(TotalReturn(a).value + 1.0, 1.0 / years) - 1.0)
  }

  /** Day by day, leaving out days after an equity of zero or below. */
  function Returns(points: seq<Point>): seq<real> {
    if |points| < 2 then [] else
    var prev, cur := points[|points| - 2].equity, points[|points| - 1].equity;
    Returns(points[..|points| - 1]) + if prev > 0.0 then [(cur - prev) / prev] else []
  }

  function Squares(xs: seq<real>, center: real): seq<real> {
    seq(|xs|, i requires 0 <= i < |xs| => (xs[i] - center) * (xs[i] - center))
  }

  function Downside(xs: seq<real>): seq<real> { seq(|xs|, i requires 0 <= i < |xs| => if xs[i] < 0.0 then xs[i] else 0.0) }

  function Deviation(xs: seq<real>, center: real, roots: Roots): real
    requires xs != []
  {
    var variance := Sum(Squares(xs, center)) / |xs| as real;
    if variance > 0.0 then roots.root(variance) else 0.0
  }

  const TRADING_DAYS: real := 252.0

  function Yearly(mean: real, deviation: real, roots: Roots): Option<real> {
    if deviation > 0.0 then Some(mean / deviation * roots.root(TRADING_DAYS)) else None
  }

  function Sharpe(moves: seq<real>, roots: Roots): Option<real> {
    if |moves| < 2 then None else
    var mean := Sum(moves) / |moves| as real;
    Yearly(mean, Deviation(moves, mean, roots), roots)
  }

  function Sortino(moves: seq<real>, roots: Roots): Option<real> {
    if |moves| < 2 then None else
    Yearly(Sum(moves) / |moves| as real, Deviation(Downside(moves), 0.0, roots), roots)
  }

  function DaysIn(points: seq<Point>): nat {
    if points == [] then 0 else DaysIn(points[..|points| - 1]) + if points[|points| - 1].openPositions > 0 then 1 else 0
  }

  datatype RatioSet = RatioSet(
    totalReturn: Option<real>, growthRate: Option<real>, winRate: Option<real>, profitFactor: Option<real>,
    expectancy: Option<real>, expectancyR: Option<real>, averageR: Option<real>, averageWinner: Option<real>,
    averageLoser: Option<real>, sharpe: Option<real>, sortino: Option<real>, timeInMarket: Option<real>)

  function RatiosOf(points: seq<Point>, ts: seq<Closed>, a: Account, roots: Roots): RatioSet {
    RatioSet(TotalReturn(a), GrowthRate(a, roots), WinRate(ts),
             if GrossLoss(ts) > 0.0 then Quotient(GrossProfit(ts), GrossLoss(ts)) else None,
             MeanPnl(ts), Mean(RMultiples(ts)), Mean(RMultiples(ts)), MeanPnl(Winners(ts)), MeanPnl(Losers(ts)),
             Sharpe(Returns(points), roots), Sortino(Returns(points), roots), Quotient(DaysIn(points) as real, |points| as real))
  }

  method ListReturns(points: seq<Point>) returns (listed: seq<real>)
    ensures listed == Returns(points)
  {
    listed := [];
    if points == [] {
      return;
    }
    for i := 1 to |points|
      invariant listed == Returns(points[..i])
    {
      assert points[..i + 1][..i] == points[..i];
      var prev, cur := points[i - 1].equity, points[i].equity;
      if prev > 0.0 {
        listed := listed + [(cur - prev) / prev];
      }
    }
    assert points[..|points|] == points;
  }

  /* ---------- how the ratios hang together ---------- */

  /** A condition splits trades in two, and count and profit with them. */
  lemma {:induction false} SplitAddsUp(ts: seq<Closed>, p: Closed -> bool, q: Closed -> bool)
    requires forall t :: q(t) == !p(t)
    ensures |Filter(ts, p)| + |Filter(ts, q)| == |ts|
    ensures SumPnl(Filter(ts, p)) + SumPnl(Filter(ts, q)) == SumPnl(ts)
  {
    if ts != [] {
      SplitAddsUp(ts[1..], p, q);
      SumPnlCons(ts[0], Filter(ts[1..], p));
      SumPnlCons(ts[0], Filter(ts[1..], q));
    }
  }

  lemma SumPnlCons(t: Closed, ts: seq<Closed>)
    ensures SumPnl([t] + ts) == t.netPnl + SumPnl(ts)
  {
    assert ([t] + ts)[1..] == ts;
  }

  lemma {:induction false} LosersLose(ts: seq<Closed>)
    requires forall t :: t in ts ==> IsLoss(t)
    ensures SumPnl(ts) <= 0.0
  {
    if ts != [] {
      assert ts[0] in ts;
      LosersLose(ts[1..]);
    }
  }

  lemma WinnersAndLosers(ts: seq<Closed>)
    ensures |Winners(ts)| + |Losers(ts)| == |ts|
    ensures GrossLoss(ts) == -SumPnl(Losers(ts)) && GrossProfit(ts) - GrossLoss(ts) == SumPnl(ts)
  {
    SplitAddsUp(ts, IsWin, IsLoss);
    LosersLose(Losers(ts));
  }

  lemma Cancel(a: real, b: real)
    requires b != 0.0
    ensures a / b * b == a
  {
  }

  lemma Shares(w: real, l: real, n: real, p: real, q: real)
    requires w > 0.0 && l > 0.0 && n == w + l
    ensures w / n * (p / w) + (1.0 - w / n) * (q / l) == (p + q) / n
  {
    var x, y, s := w / n, p / w, q / l;
    assert y * w == p && s * l == q && x * n == w;
    assert (1.0 - x) * n == l;
    assert (x * y + (1.0 - x) * s) * n == (x * n) * y + ((1.0 - x) * n) * s;
    assert (x * y + (1.0 - x) * s) * n == p + q;
    Cancel(p + q, n);
    assert ((x * y + (1.0 - x) * s) - (p + q) / n) * n == 0.0;
  }

  predicate Times(a: real, b: real, product: real) { a * b == product }

  /** The mean of two values, the first with weight `w`. */
  predicate Weighted(mean: real, w: real, a: real, b: real) { mean == w * a + (1.0 - w) * b }

  lemma MeanIs(ts: seq<Closed>)
    ensures MeanPnl(ts).Some? <==> ts != []
    ensures ts != [] ==> Times(MeanPnl(ts).value, |ts| as real, SumPnl(ts))
  {
    hide SumPnl;
    if ts != [] {
      Cancel(SumPnl(ts), |ts| as real);
    }
  }

  lemma ExpectancySplits(ts: seq<Closed>)
    requires Winners(ts) != [] && Losers(ts) != []
    ensures WinRate(ts).Some? && MeanPnl(ts).Some? && MeanPnl(Winners(ts)).Some? && MeanPnl(Losers(ts)).Some?
    ensures Weighted(MeanPnl(ts).value, WinRate(ts).value, MeanPnl(Winners(ts)).value, MeanPnl(Losers(ts)).value)
  {
    WinnersAndLosers(ts);
    hide Winners;
    hide Losers;
    hide SumPnl;
    var w, l, n := |Winners(ts)|, |Losers(ts)|, |ts|;
    assert w as real + l as real == n as real;
    Shares(w as real, l as real, n as real, SumPnl(Winners(ts)), SumPnl(Losers(ts)));
  }

  lemma ProfitFactorIs(ts: seq<Closed>)
    requires GrossLoss(ts) > 0.0
    ensures Times(GrossProfit(ts) / GrossLoss(ts) - 1.0, GrossLoss(ts), SumPnl(ts))
  {
    WinnersAndLosers(ts);
    hide GrossLoss;
    hide GrossProfit;
    Cancel(GrossProfit(ts), GrossLoss(ts));
    var factor := GrossProfit(ts) / GrossLoss(ts);
    assert (factor - 1.0) * GrossLoss(ts) == factor * GrossLoss(ts) - GrossLoss(ts);
  }

  /** The expectancy is the net result per trade, and the profit factor the gross profit per gross loss; with winners and
      losers, the expectancy is the win rate times the average winner plus the loss rate times the average loser. */
  lemma {:induction false} ExpectancyDecomposes(points: seq<Point>, ts: seq<Closed>, a: Account, roots: Roots)
    ensures var r := RatiosOf(points, ts, a, roots);
            (r.expectancy.Some? <==> ts != []) &&
            (r.expectancy.Some? ==> Times(r.expectancy.value, |ts| as real, SumPnl(ts))) &&
            (r.profitFactor.Some? <==> GrossLoss(ts) > 0.0) &&
            (r.profitFactor.Some? ==> Times(r.profitFactor.value - 1.0, GrossLoss(ts), SumPnl(ts))) &&
            (r.averageWinner.Some? && r.averageLoser.Some? ==>
               r.expectancy.Some? && r.winRate.Some? &&
               Weighted(r.expectancy.value, r.winRate.value, r.averageWinner.value, r.averageLoser.value))
  {
    MeanIs(ts);
    MeanIs(Winners(ts));
    MeanIs(Losers(ts));
    if GrossLoss(ts) > 0.0 {
      ProfitFactorIs(ts);
    }
    if Winners(ts) != [] && Losers(ts) != [] {
      ExpectancySplits(ts);
    }
    hide Times;
    hide Weighted;
    hide Winners;
    hide Losers;
    hide TotalReturn;
    hide Mean;
    hide DaysIn;
    hide Sharpe;
    hide Sortino;
    hide GrowthRate;
    hide SumPnl;
    hide MeanPnl;
    hide WinRate;
    hide GrossLoss;
    hide GrossProfit;
  }

  /* ---------- breakdown by entry type ---------- */

  datatype EntryMetrics = EntryMetrics(entry: Entry, count: nat, netPnl: real, winRate: Option<real>)

  function HasEntry(e: Entry): Closed -> bool { (t: Closed) => t.entry == e }

  function OfEntry(ts: seq<Closed>, e: Entry): seq<Closed> { Filter(ts, HasEntry(e)) }

  function EntryMetricsOf(ts: seq<Closed>, e: Entry): seq<EntryMetrics> {
    var own := OfEntry(ts, e);
    if own == [] then [] else [EntryMetrics(e, |own|, SumPnl(own), WinRate(own))]
  }

  function PerEntry(ts: seq<Closed>): seq<EntryMetrics> {
    EntryMetricsOf(ts, BreakoutEntry) + EntryMetricsOf(ts, PullbackEntry)
  }

  function EntryCount(ms: seq<EntryMetrics>): nat { if ms == [] then 0 else ms[0].count + EntryCount(ms[1..]) }

  function EntryPnl(ms: seq<EntryMetrics>): real { if ms == [] then 0.0 else ms[0].netPnl + EntryPnl(ms[1..]) }

  lemma EntryFirst(ts: seq<Closed>, e: Entry, rest: seq<EntryMetrics>)
    ensures EntryCount(EntryMetricsOf(ts, e) + rest) == |OfEntry(ts, e)| + EntryCount(rest)
    ensures EntryPnl(EntryMetricsOf(ts, e) + rest) == SumPnl(OfEntry(ts, e)) + EntryPnl(rest)
  {
    var own := OfEntry(ts, e);
    var m := EntryMetrics(e, |own|, SumPnl(own), WinRate(own));
    assert ([m] + rest)[1..] == rest;
    assert [] + rest == rest;
    hide OfEntry;
    hide WinRate;
  }

  /** The breakdown by entry type adds up to all trades. */
  lemma {:induction false} EntriesAddUp(ts: seq<Closed>)
    ensures EntryCount(PerEntry(ts)) == |ts| && EntryPnl(PerEntry(ts)) == SumPnl(ts)
  {
    SplitAddsUp(ts, HasEntry(BreakoutEntry), HasEntry(PullbackEntry));
    EntryFirst(ts, BreakoutEntry, EntryMetricsOf(ts, PullbackEntry));
    EntryFirst(ts, PullbackEntry, []);
    assert EntryMetricsOf(ts, PullbackEntry) + [] == EntryMetricsOf(ts, PullbackEntry);
    hide SumPnl;
    hide EntryMetricsOf;
  }
}
