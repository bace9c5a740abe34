/** What a whole trading day comes to: what it charges, whom it asks, which stops it moves, and what it records. */
module BacktestDays {
  import opened Common
  import opened Timeframes
  import opened OrderedDict
  import opened Backtest
  import opened BacktestSafety
  import opened BacktestTrades
  import opened BacktestSteps
  import Stops

  /* ---------- what each pass leaves alone ---------- */

  /** The record of a run so far. */
  predicate SameRecord(s: State, t: State) { t.curve == s.curve && t.peak == s.peak }

  /** Charges, evaluations and record are as before. */
  predicate OnlyTrades(s: State, t: State) {
    SameRecord(s, t) && t.totalFunding == s.totalFunding && t.evaluations == s.evaluations
  }

  lemma CheckOnlyTrades(c: Config, s: State, k: Sym, bar: Candle, atOpen: bool)
    ensures OnlyTrades(s, CheckStop(c, s, k, bar, atOpen))
  {
    hide TriggerFor;
    hide ClosedTrade;
    hide Stops.ExitAccount;
    hide Has;
    hide Get;
    hide Remove;
  }

  lemma FillOnlyTrades(c: Config, s: State, v: DayView, intent: Pending, bar: Candle)
    requires c.tick(intent.symbol) > 0.0
    ensures OnlyTrades(s, FillIntent(c, s, v, intent, bar))
  {
    hide ProposalFor;
    hide CheckStop;
    hide NewPosition;
    hide NewTrade;
    hide RejectionCodes;
    hide TooDear;
    hide Put;
    hide Stops.EntryFill;
    hide Stops.InitialStop;
    var fill := Stops.EntryFill(bar.open, c.bps);
    var stop := Stops.InitialStop(fill, intent.atr, c.rules, c.tick(intent.symbol));
    var d := c.risk(ProposalFor(s, v, intent, intent.symbol, fill, stop));
    if d.quantity.Some? {
      CheckOnlyTrades(c, Opened(c, s, intent, bar, fill, stop, d.quantity.value), intent.symbol, bar, true);
    }
  }

  lemma {:induction false} FillsOnlyTrade(c: Config, s: State, v: DayView, intents: seq<Pending>, bar: Candle)
    requires forall i :: 0 <= i < |intents| ==> c.tick(intents[i].symbol) > 0.0
    ensures OnlyTrades(s, FillIntents(c, s, v, intents, bar))
    decreases |intents|
  {
    hide FillIntent;
    if intents != [] {
      FillOnlyTrades(c, s, v, intents[0], bar);
      FillsOnlyTrade(c, FillIntent(c, s, v, intents[0], bar), v, intents[1..], bar);
    }
  }

  lemma {:induction false} TradingPass(c: Config, s: State, v: DayView, phase: Phase, symbols: seq<Sym>)
    requires c.Valid() && (phase == Fill || phase == Stop)
    ensures OnlyTrades(s, PhaseAll(c, s, v, phase, symbols))
    decreases |symbols|
  {
    if symbols != [] {
      var k, next := symbols[0], PhaseOne(c, s, v, phase, symbols[0]);
      if k in v.bars {
        FillsOnlyTrade(c, Kept(s, k), v, Due(s, k), v.bars[k]);
        CheckOnlyTrades(c, s, k, v.bars[k], false);
      }
      hide FillIntents;
      hide CheckStop;
      TradingPass(c, next, v, phase, symbols[1..]);
    }
  }

  /* ---------- funding ---------- */

  /** What the position of a symbol pays on a day. */
  function Charged(c: Config, v: DayView, d: Dict<Position>, k: Sym): real {
    if k !in v.bars || !Has(d, k) then 0.0 else
    var rate := if c.assumedRate.Some? then c.assumedRate.value else if k in v.funding then SumRates(v.funding[k]) else 0.0;
    Share(Worth(Get(d, k).entryPrice, Get(d, k).quantity), rate)
  }

  function ChargedAll(c: Config, v: DayView, d: Dict<Position>, symbols: seq<Sym>): real {
    if symbols == [] then 0.0 else Charged(c, v, d, symbols[0]) + ChargedAll(c, v, d, symbols[1..])
  }

  lemma FundOne(c: Config, s: State, v: DayView, k: Sym)
    ensures var t := FundSymbol(c, s, v, k);
            t.positions == s.positions && t.totalFunding == s.totalFunding + Charged(c, v, s.positions, k) &&
            t.cash == s.cash - Charged(c, v, s.positions, k)
  {
    FundingIs(c, s, v, k);
    hide Has;
    hide Get;
    hide Share;
    hide Worth;
    hide FundSymbol;
  }

  lemma {:induction false} EventsRecord(s: State, k: Sym, notional: real, events: seq<Funding>)
    ensures SameRecord(s, ChargeEvents(s, k, notional, events)) && ChargeEvents(s, k, notional, events).evaluations == s.evaluations
    decreases |events|
  {
    if events != [] {
      EventsRecord(Charge(s, k, Stops.FundingPayment(notional, events[0].rate)), k, notional, events[1..]);
    }
  }

  lemma {:induction false} FundingPass(c: Config, s: State, v: DayView, symbols: seq<Sym>)
    requires c.Valid()
    ensures var t := PhaseAll(c, s, v, Fund, symbols);
            && t.positions == s.positions && t.totalFunding == s.totalFunding + ChargedAll(c, v, s.positions, symbols)
            && SameRecord(s, t) && t.evaluations == s.evaluations
    decreases |symbols|
  {
    hide Charged;
    if symbols != [] {
      var k, next := symbols[0], PhaseOne(c, s, v, Fund, symbols[0]);
      FundOne(c, s, v, k);
      if k in v.bars && Has(s.positions, k) {
        EventsRecord(s, k, NotionalOf(Get(s.positions, k)), if k in v.funding then v.funding[k] else []);
      }
      hide ChargeEvents;
      FundingPass(c, next, v, symbols[1..]);
    }
  }

  /* ---------- evaluation ---------- */

  /** What the strategy says of each symbol that has a bar, in configuration order. */
  function Answers(c: Config, v: DayView, symbols: seq<Sym>): seq<Evaluation> {
    if symbols == [] then [] else
    var k := symbols[0];
    (if k in v.bars && k in v.slices then [c.strategy(k, v.slices[k], v.bars[k].closeTime + 5)] else []) +
    Answers(c, v, symbols[1..])
  }

  lemma EvaluateOne(c: Config, s: State, v: DayView, k: Sym)
    ensures var t := EvaluateSymbol(c, s, v, k);
            t == s.(evaluations := s.evaluations + Answers(c, v, [k]), pending := t.pending)
  {
    assert [k][1..] == [];
    assert Answers(c, v, []) == [];
    if k in v.bars && k in v.slices {
      EvaluationIs(c, s, v, k);
      hide EvaluateSymbol;
    }
  }

  lemma {:induction false} EvaluationPass(c: Config, s: State, v: DayView, symbols: seq<Sym>)
    requires c.Valid()
    ensures var t := PhaseAll(c, s, v, Evaluate, symbols);
            t == s.(evaluations := s.evaluations + Answers(c, v, symbols), pending := t.pending)
    decreases |symbols|
  {
    if symbols != [] {
      var k, next := symbols[0], PhaseOne(c, s, v, Evaluate, symbols[0]);
      EvaluateOne(c, s, v, k);
      hide EvaluateSymbol;
      EvaluationPass(c, next, v, symbols[1..]);
      assert Answers(c, v, [k]) + Answers(c, v, symbols[1..]) == Answers(c, v, symbols) by {
        assert [k][1..] == [];
        assert Answers(c, v, []) == [];
      }
      assert s.evaluations + Answers(c, v, [k]) + Answers(c, v, symbols[1..]) == s.evaluations + Answers(c, v, symbols);
    } else {
      assert s.evaluations + [] == s.evaluations;
    }
  }

  /* ---------- trailing ---------- */

  /** Apart from their levels, the positions are the same. */
  ghost predicate SameSizes(d: Dict<Position>, e: Dict<Position>) {
    && (forall k :: Has(e, k) <==> Has(d, k))
    && (forall k :: Has(d, k) ==> Get(e, k) == Get(d, k).(levels := Get(e, k).levels))
  }

  /** A position as trailing leaves it: its levels follow the close of the bar, and the trail has a point for it. */
  ghost predicate Trailed(c: Config, s: State, v: DayView, t: State, k: Sym) {
    && k in v.bars && c.tick(k) > 0.0 && Has(s.positions, k) && Has(t.positions, k) && k in t.trails
    && var p := Get(s.positions, k); var levels := Get(t.positions, k).levels;
       && (exists atr: real :: IsRange(s.evaluations, k, p.entryAtr, atr) &&
             levels == Stops.UpdateTrail(p.levels, v.bars[k].close, atr, c.rules, c.tick(k)))
       && t.trails[k] == (if k in s.trails then s.trails[k] else []) + [TrailPoint(v.time, levels.trail, levels.effective)]
  }

  predicate HasTrail(s: State, v: DayView, k: Sym) { k in v.bars && k in v.withHistory && Has(s.positions, k) }

  /** The levels and the trail of a symbol are as before. */
  ghost predicate SameLevels(s: State, t: State, k: Sym) {
    && (Has(t.positions, k) <==> Has(s.positions, k)) && (Has(s.positions, k) ==> Get(t.positions, k) == Get(s.positions, k))
    && (k in t.trails <==> k in s.trails) && (k in s.trails ==> t.trails[k] == s.trails[k])
  }

  lemma TrailOne(c: Config, s: State, v: DayView, k: Sym)
    requires c.Valid()
    ensures var t := TrailSymbol(c, s, v, k);
            && SameSizes(s.positions, t.positions) && t == s.(positions := t.positions, trails := t.trails)
            && (HasTrail(s, v, k) ==> Trailed(c, s, v, t, k)) && (!HasTrail(s, v, k) ==> t == s)
            && forall x :: x != k ==> SameLevels(s, t, x)
  {
    var t := TrailSymbol(c, s, v, k);
    if HasTrail(s, v, k) {
      TrailingIs(c, s, v, k);
      var p := Get(s.positions, k);
      forall x ensures Has(t.positions, x) <==> Has(s.positions, x)
        ensures Has(s.positions, x) ==> Get(t.positions, x) == if x == k then Get(t.positions, k) else Get(s.positions, x)
        ensures Get(t.positions, k) == p.(levels := Get(t.positions, k).levels)
      {
        var levels := Stops.UpdateTrail(p.levels, v.bars[k].close, LatestAtr(s.evaluations, k, p.entryAtr), c.rules, c.tick(k));
        GetPut(s.positions, k, p.(levels := levels), x);
        GetPut(s.positions, k, p.(levels := levels), k);
        hide Has;
        hide Get;
        hide Put;
        hide Stops.UpdateTrail;
        hide LatestAtr;
      }
    }
    hide Has;
    hide Get;
    hide Put;
    hide IsRange;
    hide Stops.UpdateTrail;
    hide LatestAtr;
  }

  predicate NoRepeats(symbols: seq<Sym>) { forall i, j :: 0 <= i < j < |symbols| ==> symbols[i] != symbols[j] }

  lemma TrailThen(c: Config, s: State, v: DayView, t: State, u: State, k: Sym)
    requires SameLevels(s, t, k) && t.evaluations == s.evaluations && Trailed(c, t, v, u, k)
    ensures Trailed(c, s, v, u, k)
  {
    hide Has;
    hide Get;
    hide IsRange;
    hide Stops.UpdateTrail;
  }

  lemma ThenSame(c: Config, s: State, v: DayView, t: State, u: State, k: Sym)
    requires SameLevels(t, u, k) && Trailed(c, s, v, t, k)
    ensures Trailed(c, s, v, u, k)
  {
    hide Has;
    hide Get;
    hide IsRange;
    hide Stops.UpdateTrail;
  }

  lemma SizesTrans(a: Dict<Position>, b: Dict<Position>, d: Dict<Position>)
    requires SameSizes(a, b) && SameSizes(b, d)
    ensures SameSizes(a, d)
  {
    hide Has;
    hide Get;
  }

  lemma SelfSame(s: State, k: Sym)
    ensures SameSizes(s.positions, s.positions) && SameLevels(s, s, k)
  {
    hide Has;
    hide Get;
  }

  lemma LevelsTrans(s: State, t: State, u: State, k: Sym)
    requires SameLevels(s, t, k) && SameLevels(t, u, k)
    ensures SameLevels(s, u, k)
  {
    hide Has;
    hide Get;
  }

  lemma {:induction false} TrailPass(c: Config, s: State, v: DayView, symbols: seq<Sym>, k: Sym)
    requires c.Valid()
    ensures var t := PhaseAll(c, s, v, Trail, symbols);
            && SameSizes(s.positions, t.positions) && t == s.(positions := t.positions, trails := t.trails)
            && (NoRepeats(symbols) && k in symbols && HasTrail(s, v, k) ==> Trailed(c, s, v, t, k))
            && (k !in symbols || !HasTrail(s, v, k) ==> SameLevels(s, t, k))
    decreases |symbols|
  {
    hide Trailed;
    hide SameSizes;
    hide TrailSymbol;
    hide Has;
    hide Get;
    SelfSame(s, k);
    if symbols != [] {
      var x, next := symbols[0], PhaseOne(c, s, v, Trail, symbols[0]);
      var t := PhaseAll(c, next, v, Trail, symbols[1..]);
      TrailOne(c, s, v, x);
      TrailPass(c, next, v, symbols[1..], k);
      SizesTrans(s.positions, next.positions, t.positions);
      assert NoRepeats(symbols) ==> NoRepeats(symbols[1..]) && (k == x ==> k !in symbols[1..]);
      if k == x {
        if NoRepeats(symbols) && HasTrail(s, v, k) {
          ThenSame(c, s, v, next, t, k);
        }
      } else {
        assert SameLevels(s, next, k);
        if NoRepeats(symbols) && k in symbols && HasTrail(s, v, k) {
          TrailThen(c, s, v, next, t, k);
        } else if k !in symbols || !HasTrail(s, v, k) {
          LevelsTrans(s, next, t, k);
        }
      }
    }
  }

  /* ---------- the day ---------- */

  lemma {:induction false} ChargedSame(c: Config, v: DayView, d: Dict<Position>, e: Dict<Position>, symbols: seq<Sym>)
    requires SameSizes(d, e)
    ensures ChargedAll(c, v, d, symbols) == ChargedAll(c, v, e, symbols)
  {
    hide Has;
    hide Get;
    hide Share;
    hide Worth;
    if symbols != [] {
      ChargedSame(c, v, d, e, symbols[1..]);
    }
  }

  /** What a day records. */
  ghost predicate Recorded(s: State, v: DayView, after: State) {
    var worth := OpenWorth(after.positions, v.bars);
    && after.curve == s.curve + [Snapshot(v.time, after.cash, after.cash + worth, worth, |after.positions|)]
    && Stops.IsGreatest(after.peak, s.peak, after.cash + worth)
  }

  lemma SnapshotRecords(s: State, v: DayView)
    ensures Recorded(s, v, TakeSnapshot(s, v))
    ensures var t := TakeSnapshot(s, v); t == s.(curve := t.curve, peak := t.peak)
  {
    OpenWorthIs(s.positions, v.bars, (p: Position) => MarkAtClose(v.bars, p));
    hide Unrealized;
    hide OpenWorth;
  }

  /** The passes of a day, on what each of them leaves for the next. */
  lemma DayPasses(c: Config, s: State, v: DayView, k: Sym) returns (funded: State, evaluated: State, trailed: State)
    requires c.Valid() && v.bars != map[]
    ensures var stopped := AfterStops(c, s, v);
            && OnlyTrades(s, stopped) && funded.positions == stopped.positions && funded.trails == stopped.trails
            && funded.totalFunding ==
                 s.totalFunding + (if c.fundingEnabled then ChargedAll(c, v, stopped.positions, c.symbols) else 0.0)
            && SameRecord(s, funded) && funded.evaluations == s.evaluations
    ensures evaluated == funded.(evaluations := funded.evaluations + Answers(c, v, c.symbols), pending := evaluated.pending)
    ensures SameSizes(evaluated.positions, trailed.positions)
    ensures trailed == evaluated.(positions := trailed.positions, trails := trailed.trails)
    ensures NoRepeats(c.symbols) && k in c.symbols && HasTrail(evaluated, v, k) ==> Trailed(c, evaluated, v, trailed, k)
    ensures Day(c, s, v) == TakeSnapshot(trailed, v)
  {
    hide PhaseAll;
    hide SameSizes;
    hide Trailed;
    hide HasTrail;
    hide Unrealized;
    var filled := PhaseAll(c, s, v, Fill, c.symbols);
    var stopped := AfterStops(c, s, v);
    TradingPass(c, s, v, Fill, c.symbols);
    TradingPass(c, filled, v, Stop, c.symbols);
    FundingPass(c, stopped, v, c.symbols);
    FundingTrails(c, stopped, v, c.symbols);
    funded := if c.fundingEnabled then PhaseAll(c, stopped, v, Fund, c.symbols) else stopped;
    EvaluationPass(c, funded, v, c.symbols);
    evaluated := PhaseAll(c, funded, v, Evaluate, c.symbols);
    TrailPass(c, evaluated, v, c.symbols, k);
    trailed := PhaseAll(c, evaluated, v, Trail, c.symbols);
  }

  lemma {:induction false} FundingTrails(c: Config, s: State, v: DayView, symbols: seq<Sym>)
    requires c.Valid()
    ensures PhaseAll(c, s, v, Fund, symbols).trails == s.trails
    decreases |symbols|
  {
    if symbols != [] {
      FundingIs(c, s, v, symbols[0]);
      FundingTrails(c, PhaseOne(c, s, v, Fund, symbols[0]), v, symbols[1..]);
    }
  }

  /** A trading day charges, if funding is on, the positions it ends with; asks the strategy once about each symbol that has
      a bar, in order; and records cash, equity at the closes, open profit and the number of positions. */
  lemma {:induction false} DayComesTo(c: Config, s: State, v: DayView)
    requires c.Valid() && v.bars != map[]
    ensures var after := Day(c, s, v);
            && after.totalFunding ==
                 s.totalFunding + (if c.fundingEnabled then ChargedAll(c, v, after.positions, c.symbols) else 0.0)
            && after.evaluations == s.evaluations + Answers(c, v, c.symbols)
            && Recorded(s, v, after)
  {
    var funded, evaluated, trailed := DayPasses(c, s, v, "");
    SnapshotRecords(trailed, v);
    ChargedSame(c, v, evaluated.positions, trailed.positions, c.symbols);
    hide Day;
    hide AfterStops;
    hide TakeSnapshot;
    hide ChargedAll;
    hide SameSizes;
    hide Trailed;
    hide HasTrail;
    hide OpenWorth;
  }

  /** And every position it ends with that has a bar and a history has had its stops moved, after the strategy was asked, by
      the close of the bar, once for a symbol configured once; sizes and prices stay as the stop pass left them. */
  lemma {:induction false} DayMovesStops(c: Config, s: State, v: DayView, k: Sym)
    requires c.Valid() && v.bars != map[] && k in c.symbols
    ensures var after := Day(c, s, v); var stopped := AfterStops(c, s, v);
            && SameSizes(stopped.positions, after.positions)
            && (NoRepeats(c.symbols) && HasTrail(after, v, k) ==>
                  Trailed(c, stopped.(evaluations := after.evaluations), v, after, k))
  {
    var funded, evaluated, trailed := DayPasses(c, s, v, k);
    var stopped := AfterStops(c, s, v);
    SnapshotRecords(trailed, v);
    assert HasTrail(trailed, v, k) <==> HasTrail(evaluated, v, k);
    if NoRepeats(c.symbols) && HasTrail(trailed, v, k) {
      SameTrailed(c, evaluated, stopped.(evaluations := evaluated.evaluations), v, trailed, Day(c, s, v), k);
    }
    hide Day;
    hide AfterStops;
    hide TakeSnapshot;
    hide SameSizes;
    hide Trailed;
  }

  lemma SameTrailed(c: Config, s: State, before: State, v: DayView, t: State, after: State, k: Sym)
    requires before.positions == s.positions && before.trails == s.trails && before.evaluations == s.evaluations
    requires after.positions == t.positions && after.trails == t.trails && Trailed(c, s, v, t, k)
    ensures Trailed(c, before, v, after, k)
  {
    hide Has;
    hide Get;
    hide IsRange;
    hide Stops.UpdateTrail;
  }
}
