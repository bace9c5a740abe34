/** What a finished backtest reports: totals that add up over its trades, one id per trade or rejection,
    and the ids it leaves marked as processed. */
module BacktestResults {
  import opened Common
  import opened Timeframes
  import opened OrderedDict
  import opened Backtest
  import opened BacktestSafety
  import opened BacktestEngine
  import Metrics
  import Ratios
  import RatioLaws
  import BacktestTrades

  lemma SumSeqAppend(a: seq<Trade>, b: seq<Trade>, f: Trade -> real)
    ensures SumSeq(a + b, f) == SumSeq(a, f) + SumSeq(b, f)
  {
    if b == [] {
      assert a + b == a;
    } else {
      assert (a + b)[..|a + b| - 1] == a + b[..|b| - 1];
    }
  }

  lemma ClosedIdsAppend(a: seq<Trade>, b: seq<Trade>)
    ensures ClosedIds(a + b) == ClosedIds(a) + ClosedIds(b)
  {
    if b == [] {
      assert a + b == a;
    } else {
      var front, last := b[..|b| - 1], multiset{b[|b| - 1].id};
      assert (a + b)[..|a + b| - 1] == a + front;
      ClosedIdsAppend(a, front);
      Associate(ClosedIds(a), ClosedIds(front), last);
    }
  }

  lemma ValuesHead<V>(d: Dict<V>)
    requires d != []
    ensures Values(d) == [d[0].1] + Values(d[1..])
  {
  }

  lemma {:induction false} SumOfValues(d: Dict<Trade>, f: Trade -> real)
    ensures SumSeq(Values(d), f) == SumOf(d, f)
  {
    if d != [] {
      ValuesHead(d);
      SumOfValues(d[1..], f);
      SumSeqAppend([d[0].1], Values(d[1..]), f);
      assert [d[0].1][..0] == [];
    }
  }

  lemma OneId(t: Trade)
    ensures ClosedIds([t]) == multiset{t.id}
  {
    assert [t][..0] == [];
  }

  lemma {:induction false} IdsOfValues(d: Dict<Trade>)
    ensures ClosedIds(Values(d)) == Bag(d, IdOf)
  {
    if d != [] {
      ValuesHead(d);
      BagHead(d, IdOf);
      hide Bag;
      hide Values;
      IdsOfValues(d[1..]);
      OneId(d[0].1);
      hide ClosedIds;
      ClosedIdsAppend([d[0].1], Values(d[1..]));
    }
  }

  /** The reported totals are the sums over the reported trades, open and closed alike. */
  lemma {:induction false} TotalsAddUp(c: Config, b: Bundle, times: seq<Time>)
    requires c.Valid()
    ensures var r := Reported(c, b, times);
            r.totalFees == SumSeq(r.trades, FeesOf) && r.totalFunding == SumSeq(r.trades, FundingOf) &&
            r.totalSlippage == SumSeq(r.trades, SlippageOf)
  {
    if times != [] {
      RunBalances(c, b, times);
      hide Days;
      hide Start;
      var s := Days(c, b, Start(c), times);
      SumSeqAppend(s.closed, Values(s.active), FeesOf);
      SumSeqAppend(s.closed, Values(s.active), FundingOf);
      SumSeqAppend(s.closed, Values(s.active), SlippageOf);
      SumOfValues(s.active, FeesOf);
      SumOfValues(s.active, FundingOf);
      SumOfValues(s.active, SlippageOf);
    }
  }

  lemma RunBalances(c: Config, b: Bundle, times: seq<Time>)
    requires c.Valid()
    ensures var s := Days(c, b, Start(c), times); Balanced(c, s) && UsedOnce(c, s)
  {
    hide Days;
    hide Balanced;
    hide UsedOnce;
    RunKeepsInv(c, b, times);
  }

  /** Closing equity is the stake, plus what closed trades earned, less what open trades have cost, plus
      the open positions' profit at the last closes. */
  lemma {:induction false} EndCapitalExplained(c: Config, b: Bundle, times: seq<Time>)
    requires c.Valid()
    ensures var s := Days(c, b, Start(c), times);
            var marks := if times == [] then map[] else BarsOn(c, b, times[|times| - 1]);
            Reported(c, b, times).endCapital ==
              c.initialCash + SumSeq(s.closed, NetOf) - SumOf(s.active, CostOf) +
              Unrealized(s.positions, (p: Position) => MarkAtClose(marks, p))
  {
    RunBalances(c, b, times);
    hide BarsOn;
    hide Day;
    hide SumSeq;
  }

  /** The ids a run reports as used. */
  function ReportedIds(r: Result): multiset<IntentId> { ClosedIds(r.trades) + RejectedIds(r.rejections) }

  lemma ReportedAreUsed(c: Config, b: Bundle, s: State, times: seq<Time>)
    ensures ReportedIds(ResultOf(c, b, s, times)) == UsedIds(s)
  {
    hide EndCapital;
    ClosedIdsAppend(s.closed, Values(s.active));
    IdsOfValues(s.active);
  }

  /** Every reported trade and rejection has an id of its own, none of them an initial one. */
  lemma {:induction false} IdsAreDistinct(c: Config, b: Bundle, times: seq<Time>)
    requires c.Valid()
    ensures var ids := ReportedIds(Reported(c, b, times));
            forall id :: ids[id] <= 1 && (id in ids ==> id !in c.initialIds)
  {
    if times != [] {
      RunBalances(c, b, times);
      hide Days;
      hide Start;
      hide UsedIds;
      hide Balanced;
      ReportedAreUsed(c, b, Days(c, b, Start(c), times), times);
    }
  }

  /** The reported processed ids are the initial ids plus the used ones, except that a run without any
      candle reports none at all, even when it started with some. */
  lemma {:induction false} ProcessedIdsComplete(c: Config, b: Bundle, times: seq<Time>)
    requires c.Valid()
    ensures var r := Reported(c, b, times);
            (forall id :: id in r.processed <==> id in c.initialIds || id in ReportedIds(r)) <==>
            (times != [] || c.initialIds == {})
  {
    if times == [] {
      assert forall id :: id !in ReportedIds(EmptyResult(c, b));
      if id :| id in c.initialIds {
        assert id !in EmptyResult(c, b).processed;
      }
    } else {
      RunBalances(c, b, times);
      hide Days;
      hide Start;
      hide UsedIds;
      hide Balanced;
      ReportedAreUsed(c, b, Days(c, b, Start(c), times), times);
    }
  }

  /* ---------- what the reported metrics say of the reported run ---------- */

  /** For a run whose equity stays positive, the reported maximum drawdown is the largest relative loss between any
      two snapshots of the reported equity curve, and every snapshot has its point on the drawdown curve. */
  lemma {:induction false} ReportedDrawdown(c: Config, b: Bundle, times: seq<Time>)
    requires c.Valid() && Reported(c, b, times).curve != [] && Metrics.Positive(Equities(Reported(c, b, times).curve))
    ensures var r := Reported(c, b, times);
            Metrics.BoundsLosses(r.metrics.maxDrawdown, Equities(r.curve)) &&
            Metrics.AttainsLoss(r.metrics.maxDrawdown, Equities(r.curve)) && |r.drawdowns| == |r.curve|
  {
    hide EndCapital;
    hide Days;
    var equities := Equities(Reported(c, b, times).curve);
    Metrics.MaxDrawdownExact(equities);
    Metrics.CurveLength(equities);
    assert forall curve :: Metrics.Amounts(Points(curve)) == Equities(curve);
    hide Metrics.MaxDrawdown;
    hide Metrics.Curve;
    hide Metrics.BoundsLosses;
    hide Metrics.AttainsLoss;
  }

  /** A closed trade as the metrics are to see it. */
  predicate SeenAs(t: Trade, seen: Ratios.Closed) {
    && t.exit.Some? && seen.symbol == t.symbol && seen.netPnl == t.exit.value.net && seen.rMultiple == t.exit.value.rMultiple
    && (if t.id.entryType == Breakout then seen.entry == Ratios.BreakoutEntry else seen.entry == Ratios.PullbackEntry)
  }

  lemma {:induction false} ClosedAreSeen(ts: seq<Trade>)
    requires forall i :: 0 <= i < |ts| ==> ts[i].exit.Some?
    ensures |ClosedOf(ts)| == |ts| && forall i :: 0 <= i < |ts| ==> SeenAs(ts[i], ClosedOf(ts)[i])
  {
    if ts != [] {
      ClosedAreSeen(ts[..|ts| - 1]);
    }
  }

  /** The metrics of a run are taken over its closed trades, each once, in the order they were closed, and over its curve. */
  lemma {:induction false} MetricsSeeTrades(c: Config, b: Bundle, times: seq<Time>)
    requires c.Valid() && times != []
    ensures var s := Days(c, b, Start(c), times); var r := Reported(c, b, times);
            && |ClosedOf(s.closed)| == |s.closed|
            && (forall i :: 0 <= i < |s.closed| ==> SeenAs(s.closed[i], ClosedOf(s.closed)[i]))
            && r.trades == s.closed + Values(s.active)
            && r.metrics == Metrics.SummaryOf(Points(r.curve), ClosedOf(s.closed),
                                              AccountOf(c, r.endCapital, times, CostsOf(s)), c.roots)
  {
    var s := Days(c, b, Start(c), times);
    BacktestTrades.TradesExplained(c, b, times);
    forall i | 0 <= i < |s.closed| ensures s.closed[i].exit.Some? {
      assert BacktestTrades.ClosedExplained(c, b, s.closed[i]);
    }
    ClosedAreSeen(s.closed);
    hide SeenAs;
    hide ClosedOf;
    hide Days;
    hide EndCapital;
    hide AllWarnings;
    hide Metrics.SummaryOf;
    hide Metrics.Curve;
  }

  /** The reported total return leads from the stake to the closing equity; the reported growth does so when kept up from the
      first day of the run to the last; and the time in the market counts the snapshots with an open position. */
  lemma {:induction false} ReportedGrowth(c: Config, b: Bundle, times: seq<Time>)
    requires c.Valid() && times != [] && times[0] <= times[|times| - 1] && RatioLaws.TakesPowers(c.roots)
    ensures var r := Reported(c, b, times); var total := r.metrics.ratios.totalReturn;
            (total.Some? <==> c.initialCash != 0.0) &&
            (total.Some? ==> r.endCapital == c.initialCash + RatioLaws.Product(total.value, c.initialCash))
    ensures var r := Reported(c, b, times); var g := r.metrics.ratios.growthRate; var span := times[|times| - 1] - times[0];
            (g.Some? <==> c.initialCash > 0.0 && r.endCapital > 0.0 && span >= DAY) &&
            (g.Some? ==>
               RatioLaws.Product(c.initialCash, c.roots.power(1.0 + g.value, (span / DAY) as real / 365.25)) == r.endCapital)
    ensures var r := Reported(c, b, times);
            RatioLaws.IsRate(r.metrics.ratios.timeInMarket,
                             |set i | 0 <= i < |Points(r.curve)| && Points(r.curve)[i].openPositions > 0|, |r.curve|)
  {
    hide EndCapital;
    hide Days;
    hide Reported;
    hide SeenAs;
    hide ClosedOf;
    hide RatioLaws.TakesPowers;
    hide RatioLaws.IsRate;
    hide RatioLaws.Product;
    hide Ratios.RatiosOf;
    hide Metrics.SummaryOf;
    MetricsSeeTrades(c, b, times);
    var s, r := Days(c, b, Start(c), times), Reported(c, b, times);
    var a := AccountOf(c, r.endCapital, times, CostsOf(s));
    SummaryRatios(Points(r.curve), ClosedOf(s.closed), a, c.roots);
    RatioLaws.TotalReturnIs(Points(r.curve), ClosedOf(s.closed), a, c.roots);
    RatioLaws.GrowthCompounds(Points(r.curve), ClosedOf(s.closed), a, c.roots);
    RatioLaws.RatesAre(Points(r.curve), ClosedOf(s.closed), a, c.roots);
  }

  lemma SummaryRatios(points: seq<Ratios.Point>, ts: seq<Ratios.Closed>, a: Ratios.Account, roots: Ratios.Roots)
    ensures Metrics.SummaryOf(points, ts, a, roots).ratios == Ratios.RatiosOf(points, ts, a, roots)
  {
    hide Ratios.RatiosOf;
  }

  /** The costs in the metrics are the totals of the result. */
  lemma {:induction false} ReportedCosts(c: Config, b: Bundle, times: seq<Time>)
    requires c.Valid()
    ensures var r := Reported(c, b, times);
            r.metrics.costs == Ratios.Costs(r.totalFees, r.totalFunding, r.totalSlippage) && r.metrics.tradeCount <= |r.trades|
  {
    hide Days;
    hide EndCapital;
    hide AllWarnings;
    hide Ratios.RatiosOf;
    hide Metrics.Curve;
    hide Metrics.LongestRun;
    hide Metrics.PerSymbol;
    hide Metrics.Traded;
    if times == [] {
      assert |ClosedOf([])| == 0;
    } else {
      ClosedAtMost(Days(c, b, Start(c), times).closed);
    }
  }

  lemma {:induction false} ClosedAtMost(ts: seq<Trade>)
    ensures |ClosedOf(ts)| <= |ts|
  {
    if ts != [] {
      ClosedAtMost(ts[..|ts| - 1]);
    }
  }

  /** A run without a day reports its stake, untouched, and nothing else. */
  lemma {:induction false} EmptyRun(c: Config, b: Bundle)
    requires c.Valid()
    ensures var r := Reported(c, b, []);
            && r.endCapital == c.initialCash && r.trades == [] && r.positions == [] && r.curve == [] && r.rejections == []
            && r.evaluations == [] && r.totalFees == 0.0 && r.totalFunding == 0.0 && r.totalSlippage == 0.0
            && r.metrics.tradeCount == 0 && r.metrics.maxDrawdown == 0.0 && r.metrics.ratios.growthRate == None
            && (c.initialCash != 0.0 ==> r.metrics.ratios.totalReturn == Some(0.0))
  {
    hide AllWarnings;
    hide Ratios.Sharpe;
    hide Ratios.Sortino;
    hide Ratios.DaysIn;
    assert Points([]) == [] && Metrics.Amounts([]) == [];
    if c.initialCash != 0.0 {
      assert (c.initialCash - c.initialCash) / c.initialCash == 0.0;
    }
  }

  lemma {:induction false} SumOfClosed(ts: seq<Trade>)
    ensures Ratios.SumPnl(ClosedOf(ts)) == SumSeq(ts, NetOf)
  {
    if ts != [] {
      var front, last := ts[..|ts| - 1], ts[|ts| - 1];
      SumOfClosed(front);
      if last.exit.Some? {
        SumPnlSnoc(ClosedOf(front), Seen(last, last.exit.value));
      } else {
        assert ClosedOf(ts) == ClosedOf(front);
      }
    }
  }

  lemma {:induction false} SumPnlSnoc(ts: seq<Ratios.Closed>, t: Ratios.Closed)
    ensures Ratios.SumPnl(ts + [t]) == Ratios.SumPnl(ts) + t.netPnl
  {
    if ts == [] {
      assert [t][1..] == [] && ts + [t] == [t];
    } else {
      assert (ts + [t])[1..] == ts[1..] + [t];
      SumPnlSnoc(ts[1..], t);
    }
  }

  /** The per-symbol profits of the metrics explain the closing equity: the stake, plus those profits, less what open
      trades have cost, plus the open positions' profit at the last closes. */
  lemma {:induction false} BreakdownExplainsEquity(c: Config, b: Bundle, times: seq<Time>)
    requires c.Valid()
    ensures var s := Days(c, b, Start(c), times);
            var marks := if times == [] then map[] else BarsOn(c, b, times[|times| - 1]);
            var r := Reported(c, b, times);
            r.endCapital ==
              c.initialCash + Metrics.TotalPnl(r.metrics.perSymbol) - SumOf(s.active, CostOf) +
              Unrealized(s.positions, (p: Position) => MarkAtClose(marks, p))
  {
    var s := Days(c, b, Start(c), times);
    EndCapitalExplained(c, b, times);
    SumOfClosed(s.closed);
    Metrics.SummaryAddsUp(Points(s.curve), ClosedOf(s.closed),
                          AccountOf(c, EndCapital(c, b, s, times), times, CostsOf(s)), c.roots);
    Metrics.SummaryAddsUp([], [], AccountOf(c, c.initialCash, [], Ratios.Costs(0.0, 0.0, 0.0)), c.roots);
    hide Metrics.SummaryOf;
    hide BarsOn;
    hide Day;
    hide Unrealized;
    hide EndCapital;
  }

  /** The reported streaks are the longest blocks of consecutive wins and losses among the closed trades. */
  lemma {:induction false} ReportedStreaks(c: Config, b: Bundle, times: seq<Time>)
    requires c.Valid()
    ensures var ts, m := ClosedOf(Days(c, b, Start(c), times).closed), Reported(c, b, times).metrics;
            Metrics.IsLongest(ts, m.maxWins, true) && Metrics.IsLongest(ts, m.maxLosses, false)
  {
    var ts := ClosedOf(Days(c, b, Start(c), times).closed);
    Metrics.LongestRunIsLongest(ts, true);
    Metrics.LongestRunIsLongest(ts, false);
    assert times == [] ==> ts == [];
    hide Day;
    hide EndCapital;
    hide Metrics.LongestRun;
    hide Metrics.IsLongest;
  }

  /** With closed trades, what they earned is the reported expectancy times their number; both breakdowns give the same. */
  lemma {:induction false} ExpectancyExplainsEquity(c: Config, b: Bundle, times: seq<Time>)
    requires c.Valid() && Reported(c, b, times).metrics.tradeCount > 0
    ensures var s, m := Days(c, b, Start(c), times), Reported(c, b, times).metrics;
            m.ratios.expectancy.Some? &&
            Ratios.Times(m.ratios.expectancy.value, m.tradeCount as real, SumSeq(s.closed, NetOf)) &&
            Metrics.TotalPnl(m.perSymbol) == SumSeq(s.closed, NetOf) && Ratios.EntryPnl(m.perEntry) == SumSeq(s.closed, NetOf)
  {
    var s := Days(c, b, Start(c), times);
    var ts, a := ClosedOf(s.closed), AccountOf(c, EndCapital(c, b, s, times), times, CostsOf(s));
    SumOfClosed(s.closed);
    Metrics.SummaryAddsUp(Points(s.curve), ts, a, c.roots);
    Ratios.ExpectancyDecomposes(Points(s.curve), ts, a, c.roots);
    hide Day;
    hide EndCapital;
    hide Ratios.RatiosOf;
    hide Ratios.Times;
    hide Ratios.PerEntry;
    hide Metrics.PerSymbol;
    hide AllWarnings;
  }
}
