/** What each pass of a trading day does, said without its own functions: which intents are filled, at what and on whose
    decision; which stops are left; what funding is paid; what is queued. */
module BacktestSteps {
  import opened Common
  import opened Timeframes
  import opened OrderedDict
  import opened Backtest
  import opened BacktestSafety
  import opened BacktestTrades
  import Stops

  /* ---------- value ---------- */

  /** Slippage is never to the trader's advantage. */
  lemma SlippageCosts(reference: real, bps: real)
    requires 0.0 <= bps <= 10000.0 && reference >= 0.0
    ensures Stops.ExitFill(reference, bps) <= reference <= Stops.EntryFill(reference, bps)
  {
    var part := bps / 10000.0;
    assert reference * part >= 0.0;
    assert reference * (1.0 + part) == reference + reference * part;
    assert reference * (1.0 - part) == reference - reference * part;
  }

  /** Leaving a position at a fill changes the value of the account, with that position marked at the fill, by the exit
      fee and nothing else. */
  lemma {:induction false} ExitKeepsValue(c: Config, s: State, k: Sym, bar: Candle, atOpen: bool, mark: Position -> real)
    requires Paired(s) && Has(s.positions, k) && TriggerFor(Get(s.positions, k), bar, atOpen).Some?
    requires mark(Get(s.positions, k)) == Cheaper(TriggerFor(Get(s.positions, k), bar, atOpen).value.exitReference, c.bps)
    ensures var p := Get(s.positions, k); var after := CheckStop(c, s, k, bar, atOpen);
            after.cash + Unrealized(after.positions, mark) ==
              s.cash + Unrealized(s.positions, mark) - Share(Worth(mark(p), p.quantity), c.exitFee)
  {
    var p := Get(s.positions, k);
    var trigger := TriggerFor(p, bar, atOpen).value;
    IndexByKeysIfPaired(s, k);
    ExitedParts(c, s, p, k, bar, trigger);
    ExitAccountIs(trigger.exitReference, p.quantity, p.entryPrice, c.bps, c.exitFee);
    SumRemove(s.positions, k, Gain(mark));
    GainIs(mark, p);
    hide TriggerFor;
    hide Exited;
    hide ClosedTrade;
    hide Paired;
    hide Has;
    hide Get;
    hide Remove;
    hide SumOf;
    hide Gain;
    hide Worth;
    hide Share;
    hide Cheaper;
    hide Stops.ExitAccount;
  }

  lemma GainIs(mark: Position -> real, p: Position)
    ensures Gain(mark)(p) == Worth(mark(p) - p.entryPrice, p.quantity)
  {
  }

  /** Entering at a fill changes it by the entry fee. */
  lemma {:induction false} EntryKeepsValue(c: Config, s: State, intent: Pending, bar: Candle, stop: real, quantity: real,
                                           mark: Position -> real)
    requires c.tick(intent.symbol) > 0.0 && !Has(s.positions, intent.symbol)
    requires forall p: Position :: p.symbol == intent.symbol ==> mark(p) == Dearer(bar.open, c.bps)
    ensures var fill := Dearer(bar.open, c.bps); var after := Opened(c, s, intent, bar, fill, stop, quantity);
            after.cash + Unrealized(after.positions, mark) ==
              s.cash + Unrealized(s.positions, mark) - Share(Worth(fill, quantity), c.entryFee)
  {
    var fill := Dearer(bar.open, c.bps);
    var p := NewPosition(c, intent, bar, fill, stop, quantity);
    EntryTermsAre(c, bar.open, fill, stop, quantity);
    OpenedParts(c, s, intent, bar, fill, stop, quantity);
    assert p.symbol == intent.symbol && p.entryPrice == fill;
    assert Opened(c, s, intent, bar, fill, stop, quantity).cash == s.cash - Stops.Fee(fill * quantity, c.entryFee);
    SumPut(s.positions, intent.symbol, p, Gain(mark));
    GainIs(mark, p);
    assert Worth(0.0, quantity) == 0.0;
    hide Opened;
    hide NewPosition;
    hide NewTrade;
    hide Has;
    hide Put;
    hide SumOf;
    hide Gain;
    hide Worth;
    hide Share;
    hide Dearer;
    hide Stops.Fee;
  }

  /** What a trade has earned by the difference of its two fills. */
  function FillGain(t: Trade): real { if t.exit.Some? then Worth(t.exit.value.fill - t.entryFill, t.quantity) else 0.0 }

  lemma {:induction false} NetsAre(c: Config, b: Bundle, ts: seq<Trade>)
    requires forall i :: 0 <= i < |ts| ==> ClosedExplained(c, b, ts[i])
    ensures SumSeq(ts, NetOf) == SumSeq(ts, FillGain) - SumSeq(ts, FeesOf) - SumSeq(ts, FundingOf)
  {
    if ts != [] {
      NetsAre(c, b, ts[..|ts| - 1]);
      assert ClosedExplained(c, b, ts[|ts| - 1]);
      hide Worth;
      hide Share;
      hide StopExplained;
      hide EntryExplained;
    }
  }

  lemma CostsAre(d: Dict<Trade>)
    ensures SumOf(d, CostOf) == SumOf(d, FeesOf) + SumOf(d, FundingOf)
  {
  }

  /** What the open positions are worth at the closes of a day, written out. */
  function OpenWorth(d: Dict<Position>, bars: map<Sym, Candle>): real {
    if d == [] then 0.0 else
    var p := d[0].1;
    (if p.symbol in bars then Worth(bars[p.symbol].close - p.entryPrice, p.quantity) else 0.0) + OpenWorth(d[1..], bars)
  }

  lemma {:induction false} OpenWorthIs(d: Dict<Position>, bars: map<Sym, Candle>, mark: Position -> real)
    requires forall p :: mark(p) == MarkAtClose(bars, p)
    ensures Unrealized(d, mark) == OpenWorth(d, bars)
  {
    if d != [] {
      OpenWorthIs(d[1..], bars, mark);
      GainIs(mark, d[0].1);
      assert Worth(0.0, d[0].1.quantity) == 0.0;
      hide Worth;
      hide Gain;
    }
  }

  /** The closing equity of a run is its stake, plus quantity times price difference of every closed trade's two fills and
      of every open position to the last close, less all fees and all funding. */
  lemma {:induction false} EquityFromFills(c: Config, b: Bundle, times: seq<Time>)
    requires c.Valid() && times != []
    ensures var s := Days(c, b, Start(c), times);
            EndCapital(c, b, s, times) ==
              c.initialCash + SumSeq(s.closed, FillGain) + OpenWorth(s.positions, BarsOn(c, b, times[|times| - 1])) -
              s.totalFees - s.totalFunding
  {
    var s := Days(c, b, Start(c), times);
    var bars := BarsOn(c, b, times[|times| - 1]);
    TradesExplained(c, b, times);
    RunKeepsInv(c, b, times);
    InvIsBalanced(c, s);
    NetsAre(c, b, s.closed);
    CostsAre(s.active);
    OpenWorthIs(s.positions, bars, (p: Position) => MarkAtClose(bars, p));
    EndCapitalIs(c, b, s, times);
    hide Inv;
    hide Days;
    hide ClosedExplained;
    hide KeyExplained;
    hide BarsOn;
    hide SumSeq;
    hide SumOf;
    hide Unrealized;
    hide EndCapital;
  }

  lemma EndCapitalIs(c: Config, b: Bundle, s: State, times: seq<Time>)
    requires times != []
    ensures var bars := BarsOn(c, b, times[|times| - 1]);
            EndCapital(c, b, s, times) == s.cash + OpenWorth(s.positions, bars)
  {
    var bars := BarsOn(c, b, times[|times| - 1]);
    OpenWorthIs(s.positions, bars, (p: Position) => MarkAtClose(bars, p));
    hide BarsOn;
    hide OpenWorth;
  }

  lemma InvIsBalanced(c: Config, s: State)
    requires Inv(c, s)
    ensures Balanced(c, s)
  {
  }

  /* ---------- the stop pass ---------- */

  /** The bar of the day did not reach the stop. */
  predicate Untouched(v: DayView, s: State, k: Sym) {
    k in v.bars && Has(s.positions, k) ==>
      var stop := Get(s.positions, k).levels.effective; v.bars[k].open >= stop && v.bars[k].low > stop
  }

  lemma NoTriggerIff(p: Position, bar: Candle)
    ensures TriggerFor(p, bar, false).None? <==> bar.open >= p.levels.effective && bar.low > p.levels.effective
    ensures TriggerFor(p, bar, true).None? <==> bar.open >= p.levels.effective
  {
  }

  lemma CheckedPositions(c: Config, s: State, k: Sym, bar: Candle, atOpen: bool)
    requires Paired(s)
    ensures var after := CheckStop(c, s, k, bar, atOpen);
            if Has(s.positions, k) && TriggerFor(Get(s.positions, k), bar, atOpen).Some?
            then after.positions == Remove(s.positions, k) && after.trails == s.trails - {k}
            else after == s
  {
    IndexByKeysIfPaired(s, k);
    hide TriggerFor;
    hide ClosedTrade;
    hide Stops.ExitAccount;
    hide Has;
    hide Remove;
    hide Get;
    hide Paired;
  }

  lemma StopOne(c: Config, s: State, v: DayView, k: Sym, x: Sym)
    requires Inv(c, s)
    ensures var after := StopSymbol(c, s, v, k);
            Untouched(v, after, k) && (x != k ==> Has(after.positions, x) == Has(s.positions, x)) &&
            (x != k && Has(s.positions, x) ==> Get(after.positions, x) == Get(s.positions, x))
  {
    InvIsPaired(c, s);
    if k in v.bars {
      CheckedPositions(c, s, k, v.bars[k], false);
      if Has(s.positions, k) {
        NoTriggerIff(Get(s.positions, k), v.bars[k]);
      }
      DistinctRemove(s.positions, k);
      if x != k {
        GetRemove(s.positions, k, x);
      }
    }
    hide Inv;
    hide CheckStop;
    hide TriggerFor;
    hide Has;
    hide Get;
    hide Remove;
    hide Keys;
    hide Distinct;
  }

  /** After the stop pass of a day no position is open whose bar opened below its stop or reached it. */
  lemma {:induction false} StopsAreTaken(c: Config, s: State, v: DayView, symbols: seq<Sym>, k: Sym)
    requires c.Valid() && Inv(c, s)
    ensures k in symbols ==> Untouched(v, PhaseAll(c, s, v, Stop, symbols), k)
    ensures Untouched(v, s, k) ==> Untouched(v, PhaseAll(c, s, v, Stop, symbols), k)
    decreases |symbols|
  {
    hide Inv;
    hide StopSymbol;
    hide Has;
    hide Get;
    if symbols != [] {
      var next := StopSymbol(c, s, v, symbols[0]);
      assert next == PhaseOne(c, s, v, Stop, symbols[0]);
      PhaseOneInv(c, s, v, Stop, symbols[0]);
      StopOne(c, s, v, symbols[0], k);
      StopsAreTaken(c, next, v, symbols[1..], k);
    }
  }

  /* ---------- the later passes ---------- */

  /** Neither a position nor a trade comes or goes, and trails only grow. */
  ghost predicate Continues(s: State, t: State) {
    && Keys(t.positions) == Keys(s.positions) && Keys(t.active) == Keys(s.active) && t.closed == s.closed
    && t.rejections == s.rejections && t.processed == s.processed
    && (forall k :: k in s.trails ==> k in t.trails && s.trails[k] <= t.trails[k])
  }

  lemma ContinuesTrans(s: State, t: State, u: State)
    requires Continues(s, t) && Continues(t, u)
    ensures Continues(s, u)
  {
    forall k | k in s.trails ensures k in u.trails && s.trails[k] <= u.trails[k] {
      assert k in t.trails && s.trails[k] <= t.trails[k];
    }
  }

  lemma ChargeContinues(s: State, k: Sym, payment: real)
    ensures Continues(s, Charge(s, k, payment))
  {
    hide Put;
    hide Has;
    hide Get;
    hide Keys;
    if Has(s.active, k) {
      PutKnown(s.active, k, Get(s.active, k).(funding := Get(s.active, k).funding + payment));
    }
  }

  lemma {:induction false} ChargeAllContinues(s: State, k: Sym, notional: real, events: seq<Funding>)
    ensures Continues(s, ChargeEvents(s, k, notional, events))
    decreases |events|
  {
    hide Charge;
    hide Continues;
    if events == [] {
      SelfContinues(s);
    } else {
      var next := Charge(s, k, Stops.FundingPayment(notional, events[0].rate));
      ChargeContinues(s, k, Stops.FundingPayment(notional, events[0].rate));
      ChargeAllContinues(next, k, notional, events[1..]);
      ContinuesTrans(s, next, ChargeEvents(s, k, notional, events));
    }
  }

  lemma SelfContinues(s: State)
    ensures Continues(s, s)
  {
  }

  lemma PhaseContinues(c: Config, s: State, v: DayView, phase: Phase, k: Sym)
    requires c.Valid() && (phase == Fund || phase == Evaluate || phase == Trail)
    ensures Continues(s, PhaseOne(c, s, v, phase, k))
  {
    hide Charge;
    hide ChargeEvents;
    hide Put;
    hide Has;
    hide Get;
    hide Keys;
    hide LatestAtr;
    hide Stops.UpdateTrail;
    SelfContinues(s);
    match phase {
      case Fund =>
        if k in v.bars && Has(s.positions, k) {
          var notional := NotionalOf(Get(s.positions, k));
          if c.assumedRate.Some? {
            ChargeContinues(s, k, Stops.FundingPayment(notional, c.assumedRate.value));
          } else {
            ChargeAllContinues(s, k, notional, if k in v.funding then v.funding[k] else []);
          }
        }
      case Evaluate =>
      case Trail =>
        if k in v.bars && Has(s.positions, k) && k in v.withHistory {
          var p := Get(s.positions, k);
          var levels := Stops.UpdateTrail(p.levels, v.bars[k].close, LatestAtr(s.evaluations, k, p.entryAtr), c.rules, c.tick(k));
          PutKnown(s.positions, k, p.(levels := levels));
        }
    }
  }

  lemma {:induction false} PassContinues(c: Config, s: State, v: DayView, phase: Phase, symbols: seq<Sym>)
    requires c.Valid() && (phase == Fund || phase == Evaluate || phase == Trail)
    ensures Continues(s, PhaseAll(c, s, v, phase, symbols))
    decreases |symbols|
  {
    hide PhaseOne;
    hide Continues;
    if symbols == [] {
      SelfContinues(s);
    } else {
      var next := PhaseOne(c, s, v, phase, symbols[0]);
      PhaseContinues(c, s, v, phase, symbols[0]);
      PassContinues(c, next, v, phase, symbols[1..]);
      ContinuesTrans(s, next, PhaseAll(c, s, v, phase, symbols));
    }
  }

  /** The state once the intents due at the open have been filled and the stops taken. */
  function AfterStops(c: Config, s: State, v: DayView): State
    requires c.Valid()
  {
    PhaseAll(c, PhaseAll(c, s, v, Fill, c.symbols), v, Stop, c.symbols)
  }

  /** A day ends with the positions that filling and then stopping out has left, none of them with a stop that its bar
      reached: nothing is entered or left after the stop pass. */
  lemma {:induction false} DayKeepsStops(c: Config, s: State, v: DayView)
    requires c.Valid() && Inv(c, s) && v.bars != map[]
    ensures Continues(AfterStops(c, s, v), Day(c, s, v))
    ensures forall k :: k in c.symbols ==> Untouched(v, AfterStops(c, s, v), k)
  {
    hide Inv;
    hide PhaseAll;
    hide Continues;
    hide Unrealized;
    hide Untouched;
    var filled := PhaseAll(c, s, v, Fill, c.symbols);
    var stopped := AfterStops(c, s, v);
    var funded := if c.fundingEnabled then PhaseAll(c, stopped, v, Fund, c.symbols) else stopped;
    var evaluated := PhaseAll(c, funded, v, Evaluate, c.symbols);
    var trailed := PhaseAll(c, evaluated, v, Trail, c.symbols);
    PhaseAllInv(c, s, v, Fill, c.symbols);
    forall k | k in c.symbols ensures Untouched(v, stopped, k) {
      StopsAreTaken(c, filled, v, c.symbols, k);
    }
    SelfContinues(stopped);
    PassContinues(c, stopped, v, Fund, c.symbols);
    PassContinues(c, funded, v, Evaluate, c.symbols);
    PassContinues(c, evaluated, v, Trail, c.symbols);
    ContinuesTrans(stopped, funded, evaluated);
    ContinuesTrans(stopped, evaluated, trailed);
    SnapshotContinues(trailed, v);
    ContinuesTrans(stopped, trailed, Day(c, s, v));
  }

  lemma SnapshotContinues(s: State, v: DayView)
    ensures Continues(s, TakeSnapshot(s, v))
  {
    hide Unrealized;
  }

  /* ---------- the fill pass ---------- */

  /** What the risk engine is asked: the fill, the stop, and the account with every position marked at the open of its bar,
      else at its last close, else at its entry. */
  ghost predicate Asks(c: Config, s: State, v: DayView, intent: Pending, bar: Candle, q: Proposal) {
    && q.symbol == intent.symbol && q.id == intent.id && q.atr == intent.atr && q.processed == s.processed
    && q.fill == Dearer(bar.open, c.bps)
    && Stops.Truncates(Stops.Below(q.fill, c.rules.initialMultiple, intent.atr), q.stop, c.tick(intent.symbol))
    && q.equity == s.cash + OpenWorthAtOpen(s.positions, v)
    && Stops.IsGreatest(q.available, 0.0, q.equity - TiedUp(s.positions))
    && |q.orders| == |s.pending| && (forall i :: 0 <= i < |s.pending| ==> q.orders[i] == (s.pending[i].symbol, s.pending[i].id))
    && (forall x :: x in q.positions <==> ShownAmong(s.positions, v, x))
  }

  /** The risk engine is shown every position with a size and a price above zero. */
  predicate ShownAmong(d: Dict<Position>, v: DayView, x: PositionState) {
    exists i :: 0 <= i < |d| && IsShown(d[i].1, v, x)
  }

  predicate IsShown(p: Position, v: DayView, x: PositionState) {
    && p.quantity > 0.0 && PriceAtOpen(v, p) > 0.0
    && x == PositionState(p.symbol, p.entryPrice, p.quantity, p.levels.stopInitial, p.levels.trail, PriceAtOpen(v, p))
  }

  lemma {:induction false} StatesAre(d: Dict<Position>, v: DayView, x: PositionState)
    ensures x in PositionStates(d, MarksAtOpen(v)) <==> ShownAmong(d, v, x)
  {
    hide PriceAtOpen;
    if d != [] {
      StatesAre(d[1..], v, x);
      OneState(d[0].1, v, x);
      hide IsShown;
      assert forall i :: 0 <= i < |d| - 1 ==> d[1..][i] == d[i + 1];
      if i :| 0 <= i < |d| && IsShown(d[i].1, v, x) {
        assert i > 0 ==> d[1..][i - 1] == d[i];
      }
    }
  }

  lemma OneState(p: Position, v: DayView, x: PositionState)
    ensures MarkAtOpen(v, p) == PriceAtOpen(v, p)
    ensures IsShown(p, v, x) <==>
              p.quantity > 0.0 && MarkAtOpen(v, p) > 0.0 &&
              x == PositionState(p.symbol, p.entryPrice, p.quantity, p.levels.stopInitial, p.levels.trail, MarkAtOpen(v, p))
  {
  }

  function PriceAtOpen(v: DayView, p: Position): real {
    if p.symbol in v.bars then v.bars[p.symbol].open
    else if p.symbol in v.prior then v.prior[p.symbol] else p.entryPrice
  }

  function OpenWorthAtOpen(d: Dict<Position>, v: DayView): real {
    if d == [] then 0.0 else
    Worth(PriceAtOpen(v, d[0].1) - d[0].1.entryPrice, d[0].1.quantity) + OpenWorthAtOpen(d[1..], v)
  }

  function TiedUp(d: Dict<Position>): real { if d == [] then 0.0 else d[0].1.margin + TiedUp(d[1..]) }

  lemma {:induction false} OpenWorthAtOpenIs(d: Dict<Position>, v: DayView)
    ensures Unrealized(d, MarksAtOpen(v)) == OpenWorthAtOpen(d, v)
  {
    if d != [] {
      OpenWorthAtOpenIs(d[1..], v);
      GainIs(MarksAtOpen(v), d[0].1);
      hide Worth;
      hide Gain;
    }
  }

  lemma {:induction false} TiedUpIs(d: Dict<Position>, f: Position -> real)
    requires forall p :: f(p) == p.margin
    ensures SumOf(d, f) == TiedUp(d)
  {
    if d != [] {
      TiedUpIs(d[1..], f);
    }
  }

  lemma ProposalAsks(c: Config, s: State, v: DayView, intent: Pending, bar: Candle)
    requires c.tick(intent.symbol) > 0.0
    ensures var fill := Stops.EntryFill(bar.open, c.bps);
            var stop := Stops.InitialStop(fill, intent.atr, c.rules, c.tick(intent.symbol));
            Asks(c, s, v, intent, bar, ProposalFor(s, v, intent, intent.symbol, fill, stop))
  {
    var fill := Stops.EntryFill(bar.open, c.bps);
    EntryTermsAre(c, bar.open, fill, 0.0, 0.0);
    Stops.InitialStopIs(fill, intent.atr, c.rules, c.tick(intent.symbol));
    OpenWorthAtOpenIs(s.positions, v);
    TiedUpIs(s.positions, (p: Position) => p.margin);
    MarginsAre(s.positions);
    forall x ensures x in PositionStates(s.positions, MarksAtOpen(v)) <==> ShownAmong(s.positions, v, x) {
      StatesAre(s.positions, v, x);
    }
    hide ShownAmong;
    hide Dearer;
    hide PositionStates;
    hide Unrealized;
    hide UsedMargin;
    hide Stops.Truncates;
    hide Stops.Below;
    hide Stops.InitialStop;
    hide Stops.EntryFill;
  }

  lemma MarginsAre(d: Dict<Position>)
    ensures UsedMargin(d) == TiedUp(d)
  {
    TiedUpIs(d, (p: Position) => p.margin);
    hide TiedUp;
  }

  /** The codes of a refusal: all but the approval, unless that is the only one. */
  ghost predicate RefusalCodes(codes: seq<string>, given: seq<string>) {
    if forall x :: x in given ==> x == RISK_APPROVED then codes == given
    else (forall x :: x in codes <==> x in given && x != RISK_APPROVED)
  }

  lemma RejectionCodesAre(d: Decision)
    ensures RefusalCodes(RejectionCodes(d), d.codes)
  {
    var codes := Filter(d.codes, (x: string) => x != RISK_APPROVED);
    if codes != [] {
      assert codes[0] in codes;
    } else {
      forall x | x in d.codes ensures x == RISK_APPROVED {
        assert x != RISK_APPROVED ==> x in codes;
      }
    }
  }

  ghost predicate Refused(s: State, after: State, intent: Pending, bar: Candle, codes: seq<string>) {
    && after.rejections == s.rejections + [Rejection(bar.openTime, intent.symbol, intent.id, codes, intent.codes)]
    && after.positions == s.positions && after.active == s.active && after.closed == s.closed && after.cash == s.cash
    && after.orders == s.orders[intent.id := Rejected] && after.processed == s.processed + {intent.id}
  }

  /** A trade of that id, quantity and entry is open, or has been left at the open it was entered at. */
  ghost predicate Entered(s: State, after: State, intent: Pending, bar: Candle, quantity: real) {
    && after.orders == s.orders[intent.id := Filled] && after.processed == s.processed + {intent.id}
    && after.rejections == s.rejections
    && exists t: Trade ::
         && t.id == intent.id && t.symbol == intent.symbol && t.quantity == quantity && t.entryTime == bar.openTime
         && t.signalTime == intent.signalTime
         && ((Has(after.active, intent.symbol) && Get(after.active, intent.symbol) == t && after.closed == s.closed) ||
             (!Has(after.positions, intent.symbol) && after.closed == s.closed + [t]))
  }

  lemma OpenedIsEntered(c: Config, s: State, intent: Pending, bar: Candle, fill: real, stop: real, quantity: real)
    requires c.tick(intent.symbol) > 0.0 && Paired(s) && !Has(s.positions, intent.symbol)
    ensures var after := CheckStop(c, Opened(c, s, intent, bar, fill, stop, quantity), intent.symbol, bar, true);
            Entered(s, after, intent, bar, quantity)
  {
    var k, now := intent.symbol, Opened(c, s, intent, bar, fill, stop, quantity);
    var p := NewPosition(c, intent, bar, fill, stop, quantity);
    var trail := [TrailPoint(bar.openTime, p.levels.trail, p.levels.effective)];
    var t := NewTrade(c, intent, bar, fill, stop, quantity, trail);
    OpenedParts(c, s, intent, bar, fill, stop, quantity);
    OpenPairs2(c, s, intent, bar, fill, stop, quantity);
    DistinctPut(s.active, k, t);
    assert Get(now.active, k) == t && Has(now.active, k);
    assert t.id == intent.id && t.symbol == k && t.quantity == quantity && t.entryTime == bar.openTime &&
           t.signalTime == intent.signalTime;
    assert now.orders == s.orders[intent.id := Filled] && now.processed == s.processed + {intent.id} &&
           now.rejections == s.rejections;
    hide Opened;
    hide NewPosition;
    hide NewTrade;
    hide Put;
    hide Keys;
    hide Distinct;
    hide TriggerFor;
    hide Stops.ExitAccount;
    if Has(now.positions, k) && TriggerFor(Get(now.positions, k), bar, true).Some? {
      ExitedParts(c, now, Get(now.positions, k), k, bar, TriggerFor(Get(now.positions, k), bar, true).value);
      DistinctRemove(now.positions, k);
      hide Remove;
      hide Has;
      hide Get;
    }
  }

  lemma OpenPairs2(c: Config, s: State, intent: Pending, bar: Candle, fill: real, stop: real, quantity: real)
    requires c.tick(intent.symbol) > 0.0 && Paired(s)
    ensures Paired(Opened(c, s, intent, bar, fill, stop, quantity))
  {
    var p := NewPosition(c, intent, bar, fill, stop, quantity);
    var t := NewTrade(c, intent, bar, fill, stop, quantity, [TrailPoint(bar.openTime, p.levels.trail, p.levels.effective)]);
    OpenedParts(c, s, intent, bar, fill, stop, quantity);
    SameKeysPut(s.positions, s.active, intent.symbol, p, t);
    DistinctPut(s.positions, intent.symbol, p);
    DistinctPut(s.active, intent.symbol, t);
    hide Opened;
    hide NewPosition;
    hide NewTrade;
    hide Put;
    hide Has;
    hide Get;
    hide Keys;
    hide Distinct;
  }

  /** A position is entered with the fill as its highest close and the stops that start from it, and these are the first
      point of its trail. */
  lemma {:induction false} EntryStops(c: Config, s: State, intent: Pending, bar: Candle, fill: real, stop: real, quantity: real)
    requires c.tick(intent.symbol) > 0.0
    ensures var after := Opened(c, s, intent, bar, fill, stop, quantity);
            Has(after.positions, intent.symbol) && Has(after.active, intent.symbol) && intent.symbol in after.trails &&
            var first := Get(after.positions, intent.symbol).levels;
            first.highestClose == fill && first.stopInitial == stop && Stops.IsGreatest(first.effective, first.trail, stop) &&
            after.trails[intent.symbol] == [TrailPoint(bar.openTime, first.trail, first.effective)] &&
            Get(after.active, intent.symbol).trail == after.trails[intent.symbol] &&
            exists x: real ::
              Stops.IsGreatest(x, Stops.Below(fill, c.rules.trailMultiple, intent.atr), stop) &&
              Stops.Truncates(x, first.trail, c.tick(intent.symbol))
  {
    var k, p := intent.symbol, NewPosition(c, intent, bar, fill, stop, quantity);
    var trail := [TrailPoint(bar.openTime, p.levels.trail, p.levels.effective)];
    OpenedParts(c, s, intent, bar, fill, stop, quantity);
    GetPut(s.positions, k, p, k);
    GetPut(s.active, k, NewTrade(c, intent, bar, fill, stop, quantity, trail), k);
    Stops.TrailStarts(fill, intent.atr, stop, c.rules, c.tick(k));
    hide Stops.StartTrail;
    hide Stops.Truncates;
    hide Stops.Below;
    hide Stops.IsGreatest;
    hide Stops.Fee;
    hide Stops.SlippageCost;
    hide Stops.Margin;
    hide Opened;
    hide Put;
    hide Has;
    hide Get;
  }

  /** What becomes of an intent the risk engine was asked about with this proposal. */
  ghost predicate Decided(c: Config, s: State, after: State, intent: Pending, bar: Candle, q: Proposal) {
    var d := c.risk(q);
    if !d.approved || d.quantity.None? then
      exists codes: seq<string> :: RefusalCodes(codes, d.codes) && Refused(s, after, intent, bar, codes)
    else if Share(Worth(q.fill, d.quantity.value), c.entryFee) > s.cash
    then Refused(s, after, intent, bar, ["RC_REJECT_LEVERAGE"])
    else Entered(s, after, intent, bar, d.quantity.value)
  }

  lemma DecidedNo(c: Config, s: State, intent: Pending, bar: Candle, q: Proposal)
    requires !c.risk(q).approved || c.risk(q).quantity.None?
    ensures Decided(c, s, Reject(s, intent, bar, RejectionCodes(c.risk(q))), intent, bar, q)
  {
    RejectionCodesAre(c.risk(q));
    RejectRefuses(s, intent, bar, RejectionCodes(c.risk(q)));
    hide RefusalCodes;
    hide Refused;
    hide Reject;
    hide RejectionCodes;
  }

  lemma TooDearIs(c: Config, s: State, fill: real, quantity: real)
    ensures TooDear(c, s, fill, quantity) <==> Share(Worth(fill, quantity), c.entryFee) > s.cash
  {
  }

  lemma DecidedYes(c: Config, s: State, intent: Pending, bar: Candle, q: Proposal, fill: real, stop: real, quantity: real)
    requires c.tick(intent.symbol) > 0.0 && Paired(s) && !Has(s.positions, intent.symbol)
    requires c.risk(q).approved && c.risk(q).quantity == Some(quantity) && q.fill == fill
    requires fill == Stops.EntryFill(bar.open, c.bps)
    requires stop == Stops.InitialStop(fill, intent.atr, c.rules, c.tick(intent.symbol))
    ensures TooDear(c, s, fill, quantity) ==> Decided(c, s, Reject(s, intent, bar, [REJECT_LEVERAGE]), intent, bar, q)
    ensures !TooDear(c, s, fill, quantity) ==>
              Decided(c, s, CheckStop(c, Opened(c, s, intent, bar, fill, stop, quantity), intent.symbol, bar, true), intent, bar, q)
  {
    hide Opened;
    hide CheckStop;
    hide Entered;
    hide Refused;
    hide Reject;
    hide Has;
    hide Paired;
    hide Worth;
    hide Share;
    hide TooDear;
    hide Stops.EntryFill;
    hide Stops.InitialStop;
    TooDearIs(c, s, fill, quantity);
    RejectRefuses(s, intent, bar, [REJECT_LEVERAGE]);
    OpenedIsEntered(c, s, intent, bar, fill, stop, quantity);
  }

  /** What becomes of an intent that is due: the risk engine is asked once. If it approves a quantity whose entry fee the
      cash covers, the intent is filled with it; otherwise it is refused, with the engine's codes or for want of cash. */
  lemma {:induction false} FillDecides(c: Config, s: State, v: DayView, intent: Pending, bar: Candle)
    requires c.tick(intent.symbol) > 0.0 && Paired(s) && !Has(s.positions, intent.symbol) && intent.id !in s.processed
    ensures exists q: Proposal ::
              Asks(c, s, v, intent, bar, q) && Decided(c, s, FillIntent(c, s, v, intent, bar), intent, bar, q)
  {
    hide Asks;
    hide Opened;
    hide CheckStop;
    hide Decided;
    hide Reject;
    hide RejectionCodes;
    hide TooDear;
    hide Has;
    hide Paired;
    hide Stops.EntryFill;
    hide Stops.InitialStop;
    var fill := Stops.EntryFill(bar.open, c.bps);
    var stop := Stops.InitialStop(fill, intent.atr, c.rules, c.tick(intent.symbol));
    var q := ProposalFor(s, v, intent, intent.symbol, fill, stop);
    assert q.fill == fill;
    ProposalAsks(c, s, v, intent, bar);
    hide ProposalFor;
    if !c.risk(q).approved || c.risk(q).quantity.None? {
      DecidedNo(c, s, intent, bar, q);
    } else {
      DecidedYes(c, s, intent, bar, q, fill, stop, c.risk(q).quantity.value);
    }
  }

  lemma RejectRefuses(s: State, intent: Pending, bar: Candle, codes: seq<string>)
    ensures Refused(s, Reject(s, intent, bar, codes), intent, bar, codes)
  {
  }

  /* ---------- where a day's trades come from ---------- */

  /** A trade goes on from the start of the day, or comes from an intent that waited then. */
  ghost predicate Origin(s0: State, id: IntentId, k: Sym, funding: real, trail: seq<TrailPoint>) {
    || (Has(s0.active, k) && id == Get(s0.active, k).id && funding == Get(s0.active, k).funding && k in s0.trails &&
        trail == s0.trails[k])
    || (funding == 0.0 && |trail| == 1 && exists p :: p in s0.pending && p.id == id && p.symbol == k)
  }

  ghost predicate Since(s0: State, s: State) {
    && (forall p :: p in s.pending ==> p in s0.pending)
    && (forall k :: Has(s.active, k) ==>
          k in s.trails && Get(s.active, k).symbol == k &&
          Origin(s0, Get(s.active, k).id, k, Get(s.active, k).funding, s.trails[k]))
    && |s.closed| >= |s0.closed| && s.closed[..|s0.closed|] == s0.closed
    && (forall i :: |s0.closed| <= i < |s.closed| ==>
          Origin(s0, s.closed[i].id, s.closed[i].symbol, s.closed[i].funding, s.closed[i].trail))
  }

  lemma SinceSame(s0: State, s: State, t: State)
    requires Since(s0, s) && t.active == s.active && t.trails == s.trails && t.closed == s.closed
    requires forall p :: p in t.pending ==> p in s0.pending
    ensures Since(s0, t)
  {
    hide Origin;
    hide Has;
    hide Get;
  }

  lemma SinceOpened(c: Config, s0: State, s: State, intent: Pending, bar: Candle, fill: real, stop: real, quantity: real)
    requires c.tick(intent.symbol) > 0.0 && Since(s0, s) && intent in s0.pending
    ensures Since(s0, Opened(c, s, intent, bar, fill, stop, quantity))
  {
    var k := intent.symbol;
    var p := NewPosition(c, intent, bar, fill, stop, quantity);
    var trail := [TrailPoint(bar.openTime, p.levels.trail, p.levels.effective)];
    var t := NewTrade(c, intent, bar, fill, stop, quantity, trail);
    OpenedParts(c, s, intent, bar, fill, stop, quantity);
    assert t.id == intent.id && t.symbol == k && t.funding == 0.0;
    assert Origin(s0, t.id, k, t.funding, trail);
    var after := Opened(c, s, intent, bar, fill, stop, quantity);
    assert after.pending == s.pending;
    hide Opened;
    hide NewPosition;
    hide NewTrade;
    hide Origin;
    hide Put;
    hide Has;
    hide Get;
    forall x | Has(after.active, x)
      ensures x in after.trails && Get(after.active, x).symbol == x &&
              Origin(s0, Get(after.active, x).id, x, Get(after.active, x).funding, after.trails[x])
    {
      GetPut(s.active, k, t, x);
    }
  }

  lemma SinceRemoved(s0: State, s: State, after: State, k: Sym, u: Trade)
    requires Since(s0, s) && Distinct(s.active) && Origin(s0, u.id, u.symbol, u.funding, u.trail)
    requires after.active == Remove(s.active, k) && after.trails == s.trails - {k} && after.closed == s.closed + [u]
    requires after.pending == s.pending
    ensures Since(s0, after)
  {
    DistinctRemove(s.active, k);
    hide Origin;
    hide Remove;
    hide Has;
    hide Get;
    hide Distinct;
    forall x | Has(after.active, x)
      ensures x in after.trails && Get(after.active, x).symbol == x &&
              Origin(s0, Get(after.active, x).id, x, Get(after.active, x).funding, after.trails[x])
    {
      GetRemove(s.active, k, x);
    }
  }

  lemma SinceExited(c: Config, s0: State, s: State, p: Position, k: Sym, bar: Candle, trigger: Stops.Trigger)
    requires Since(s0, s) && Distinct(s.active) && Has(s.active, k)
    ensures Since(s0, Exited(c, s, p, k, bar, trigger))
  {
    var after := Exited(c, s, p, k, bar, trigger);
    ExitedParts(c, s, p, k, bar, trigger);
    var u := after.closed[|s.closed|];
    assert after.closed == s.closed + [u];
    assert k in s.trails;
    assert Origin(s0, Get(s.active, k).id, k, Get(s.active, k).funding, s.trails[k]) && Get(s.active, k).symbol == k;
    hide Since;
    ClosedTradeKeeps(c, s, p, k, bar, trigger, u);
    SinceRemoved(s0, s, after, k, u);
    hide Exited;
    hide ClosedTrade;
    hide Origin;
    hide Remove;
    hide Has;
    hide Get;
    hide Distinct;
    hide Stops.ExitAccount;
  }

  lemma ClosedTradeKeeps(c: Config, s: State, p: Position, k: Sym, bar: Candle, trigger: Stops.Trigger, u: Trade)
    requires Has(s.active, k) && k in s.trails
    requires Exited(c, s, p, k, bar, trigger).closed == s.closed + [u]
    ensures u.id == Get(s.active, k).id && u.symbol == Get(s.active, k).symbol && u.funding == Get(s.active, k).funding &&
            u.trail == s.trails[k]
    ensures Exited(c, s, p, k, bar, trigger).pending == s.pending
  {
    ExitedParts(c, s, p, k, bar, trigger);
    var closed := Exited(c, s, p, k, bar, trigger).closed;
    assert closed[|s.closed|] == u;
    hide Has;
    hide Get;
    hide Remove;
    hide Stops.ExitAccount;
  }

  lemma SinceChecked(c: Config, s0: State, s: State, k: Sym, bar: Candle, atOpen: bool)
    requires Since(s0, s) && Paired(s)
    ensures Since(s0, CheckStop(c, s, k, bar, atOpen))
  {
    IndexByKeysIfPaired(s, k);
    assert Distinct(s.active);
    hide Since;
    hide Exited;
    hide TriggerFor;
    hide Has;
    hide Get;
    hide Keys;
    hide Distinct;
    if Has(s.positions, k) && TriggerFor(Get(s.positions, k), bar, atOpen).Some? {
      SinceExited(c, s0, s, Get(s.positions, k), k, bar, TriggerFor(Get(s.positions, k), bar, atOpen).value);
    }
  }

  lemma SinceFilled(c: Config, s0: State, s: State, v: DayView, intent: Pending, bar: Candle)
    requires Inv(c, s) && Since(s0, s) && intent in s0.pending && !Has(s.positions, intent.symbol)
    ensures Since(s0, FillIntent(c, s, v, intent, bar))
  {
    assert c.tick(intent.symbol) > 0.0;
    InvIsPaired(c, s);
    hide Inv;
    hide Since;
    hide Paired;
    hide Has;
    hide ProposalFor;
    hide Opened;
    hide CheckStop;
    hide RejectionCodes;
    hide Stops.InitialStop;
    hide Stops.EntryFill;
    if intent.id !in s.processed {
      var fill := Stops.EntryFill(bar.open, c.bps);
      var stop := Stops.InitialStop(fill, intent.atr, c.rules, c.tick(intent.symbol));
      var d := c.risk(ProposalFor(s, v, intent, intent.symbol, fill, stop));
      SincePending(s0, s);
      SinceSame(s0, s, Reject(s, intent, bar, RejectionCodes(d)));
      SinceSame(s0, s, Reject(s, intent, bar, [REJECT_LEVERAGE]));
      if d.quantity.Some? {
        SinceOpened(c, s0, s, intent, bar, fill, stop, d.quantity.value);
        OpenPairs2(c, s, intent, bar, fill, stop, d.quantity.value);
        SinceChecked(c, s0, Opened(c, s, intent, bar, fill, stop, d.quantity.value), intent.symbol, bar, true);
      }
    }
  }

  lemma SincePending(s0: State, s: State)
    requires Since(s0, s)
    ensures forall p :: p in s.pending ==> p in s0.pending
  {
  }

  lemma SinceFillSymbol(c: Config, s0: State, s: State, v: DayView, k: Sym)
    requires c.Valid() && Inv(c, s) && Since(s0, s)
    ensures Since(s0, FillSymbol(c, s, v, k))
  {
    hide Inv;
    hide Since;
    hide Has;
    hide HasPending;
    hide FillIntent;
    SincePending(s0, s);
    KeptInv(c, s, k);
    SinceSame(s0, s, Kept(s, k));
    var due := Due(s, k);
    if k in v.bars && due != [] {
      assert due[0] in due && due[0] in s.pending;
      SinceFilled(c, s0, Kept(s, k), v, due[0], v.bars[k]);
      FillOneIntent(c, Kept(s, k), v, due, v.bars[k]);
    }
  }

  lemma {:induction false} SincePass(c: Config, s0: State, s: State, v: DayView, phase: Phase, symbols: seq<Sym>)
    requires c.Valid() && Inv(c, s) && Since(s0, s) && (phase == Fill || phase == Stop)
    ensures Since(s0, PhaseAll(c, s, v, phase, symbols))
    decreases |symbols|
  {
    hide Inv;
    hide Since;
    hide FillSymbol;
    hide CheckStop;
    if symbols != [] {
      var k := symbols[0];
      PhaseOneInv(c, s, v, phase, k);
      if phase == Fill {
        SinceFillSymbol(c, s0, s, v, k);
      } else if k in v.bars {
        InvIsPaired(c, s);
        SinceChecked(c, s0, s, k, v.bars[k], false);
      }
      SincePass(c, s0, PhaseOne(c, s, v, phase, k), v, phase, symbols[1..]);
    }
  }

  lemma SinceStart(c: Config, b: Bundle, s: State)
    requires Inv(c, s) && Explained(c, b, s)
    ensures Since(s, s)
  {
    InvIsPaired(c, s);
    hide OpenExplained;
    hide ClosedExplained;
    forall k | Has(s.active, k)
      ensures k in s.trails && Get(s.active, k).symbol == k &&
              Origin(s, Get(s.active, k).id, k, Get(s.active, k).funding, s.trails[k])
    {
      IndexByKeysIfPaired(s, k);
      assert KeyExplained(c, b, s, k);
    }
  }

  /** A trade that is closed on a day is left at the stop it had when the day began, with the funding it had paid by then,
      or on the day it was entered; and a trade that is new on a day comes from an intent that waited when it began. So no
      stop, charge or signal of a day acts on that day. */
  lemma {:induction false} DayActsOnThePast(c: Config, b: Bundle, s: State, v: DayView)
    requires c.Valid() && Inv(c, s) && Explained(c, b, s) && v.bars != map[]
    ensures Since(s, AfterStops(c, s, v)) && Continues(AfterStops(c, s, v), Day(c, s, v))
  {
    SinceStart(c, b, s);
    DayKeepsStops(c, s, v);
    PhaseAllInv(c, s, v, Fill, c.symbols);
    SincePass(c, s, s, v, Fill, c.symbols);
    SincePass(c, s, PhaseAll(c, s, v, Fill, c.symbols), v, Stop, c.symbols);
    hide Inv;
    hide Explained;
    hide Since;
    hide Continues;
    hide PhaseAll;
    hide Day;
  }

  /** So it is on every day of every run. */
  lemma {:induction false} RunActsOnThePast(c: Config, b: Bundle, times: seq<Time>)
    requires c.Valid() && times != [] && BarsOn(c, b, times[|times| - 1]) != map[]
    ensures var s, v := Days(c, b, Start(c), times[..|times| - 1]), ViewOf(c, b, times[|times| - 1]);
            Since(s, AfterStops(c, s, v)) && Continues(AfterStops(c, s, v), Days(c, b, Start(c), times)) &&
            forall k :: k in c.symbols ==> Untouched(v, AfterStops(c, s, v), k)
  {
    var front, last := times[..|times| - 1], times[|times| - 1];
    RunKeepsInv(c, b, front);
    TradesExplained(c, b, front);
    BarsOfView(c, b, last);
    hide Inv;
    hide Explained;
    hide Since;
    hide Continues;
    hide Untouched;
    hide AfterStops;
    hide ViewOf;
    hide BarsOn;
    DayActsOnThePast(c, b, Days(c, b, Start(c), front), ViewOf(c, b, last));
    DayKeepsStops(c, Days(c, b, Start(c), front), ViewOf(c, b, last));
    hide Day;
  }

  /* ---------- funding ---------- */

  function SumRates(events: seq<Funding>): real { if events == [] then 0.0 else events[0].rate + SumRates(events[1..]) }

  ghost predicate Paid(s: State, after: State, k: Sym, amount: real) {
    && after.cash == s.cash - amount && after.totalFunding == s.totalFunding + amount
    && (Has(s.active, k) ==>
          Has(after.active, k) &&
          Get(after.active, k) == Get(s.active, k).(funding := Get(s.active, k).funding + amount))
    && after.positions == s.positions && after.closed == s.closed && after.pending == s.pending && after.trails == s.trails
  }

  lemma ChargePays(s: State, k: Sym, payment: real)
    ensures Paid(s, Charge(s, k, payment), k, payment)
  {
    if Has(s.active, k) {
      GetPut(s.active, k, Get(s.active, k).(funding := Get(s.active, k).funding + payment), k);
    }
    hide Has;
    hide Get;
    hide Put;
  }

  lemma PaidTwice(s: State, t: State, u: State, k: Sym, x: real, y: real)
    requires Paid(s, t, k, x) && Paid(t, u, k, y)
    ensures Paid(s, u, k, x + y)
  {
    hide Has;
    hide Get;
  }

  lemma {:induction false} EventsPay(s: State, k: Sym, notional: real, events: seq<Funding>)
    ensures Paid(s, ChargeEvents(s, k, notional, events), k, Share(notional, SumRates(events)))
    decreases |events|
  {
    hide Charge;
    hide Paid;
    if events == [] {
      assert Share(notional, 0.0) == 0.0;
      PaysNothing(s, k);
    } else {
      var x := Stops.FundingPayment(notional, events[0].rate);
      var next := Charge(s, k, x);
      ChargePays(s, k, x);
      EventsPay(next, k, notional, events[1..]);
      PaidTwice(s, next, ChargeEvents(s, k, notional, events), k, x, Share(notional, SumRates(events[1..])));
      assert Share(notional, SumRates(events)) == x + Share(notional, SumRates(events[1..]));
    }
  }

  lemma PaysNothing(s: State, k: Sym)
    ensures Paid(s, s, k, 0.0)
  {
  }

  /** Funding: a position that has a bar pays, on its size at entry, the assumed rate once, or else the rates of the events
      of the day; any other pays nothing. */
  lemma {:induction false} FundingIs(c: Config, s: State, v: DayView, k: Sym)
    ensures if k in v.bars && Has(s.positions, k) then
              var p := Get(s.positions, k);
              var rate := if c.assumedRate.Some? then c.assumedRate.value
                          else if k in v.funding then SumRates(v.funding[k]) else 0.0;
              Paid(s, FundSymbol(c, s, v, k), k, Share(Worth(p.entryPrice, p.quantity), rate))
            else FundSymbol(c, s, v, k) == s
  {
    if k in v.bars && Has(s.positions, k) {
      var p := Get(s.positions, k);
      var notional := NotionalOf(p);
      assert notional == Worth(p.entryPrice, p.quantity);
      if c.assumedRate.Some? {
        ChargePays(s, k, Stops.FundingPayment(notional, c.assumedRate.value));
      } else {
        EventsPay(s, k, notional, if k in v.funding then v.funding[k] else []);
        assert SumRates([]) == 0.0;
      }
      hide Worth;
      hide Charge;
      hide ChargeEvents;
      hide Paid;
      hide Has;
      hide Get;
    }
  }

  /** The events of a day are those of the symbol within its bar. */
  lemma FundingEventsAre(c: Config, b: Bundle, t: Time, k: Sym, e: Funding)
    requires k in BarsOn(c, b, t)
    ensures var v := ViewOf(c, b, t);
            k in v.funding &&
            (e in v.funding[k] <==>
             k in b.funding && e in b.funding[k] && v.bars[k].openTime <= e.timestamp <= v.bars[k].closeTime)
  {
    hide BarAt;
  }

  /* ---------- evaluation ---------- */

  /** What an evaluation asks to be queued. */
  predicate Signals(e: Evaluation) { e.longEntry && e.entryType.Some? && e.stopInitial.Some? && e.atr.Some? }

  /** The strategy sees the symbol's closed candles at the evaluation time, and its entry signal is queued exactly if it is
      complete, new, and the symbol has neither a position nor a waiting intent. */
  lemma {:induction false} EvaluationIs(c: Config, s: State, v: DayView, k: Sym)
    requires k in v.bars && k in v.slices
    ensures var at := v.bars[k].closeTime + 5;
            var e := c.strategy(k, v.slices[k], at);
            var after := EvaluateSymbol(c, s, v, k);
            after == s.(evaluations := s.evaluations + [e], pending := after.pending) &&
            if Signals(e) && IntentId(k, e.version, at, e.entryType.value) !in s.processed && !Has(s.positions, k) &&
               (forall p :: p in s.pending ==> p.symbol != k)
            then after.pending == s.pending + [Pending(IntentId(k, e.version, at, e.entryType.value), k, at,
                                                       if e.entryPrice.Some? then e.entryPrice.value else 0.0,
                                                       e.stopInitial.value, e.atr.value, e.codes)]
            else after.pending == s.pending
  {
    hide Has;
    assert HasPending(s, k) <==> exists p :: p in s.pending && p.symbol == k;
  }

  lemma SliceIs(m: map<Sym, seq<Candle>>, k: Sym, at: Time, x: Candle)
    ensures x in ClosedBy(Series(m, k), at) <==> k in m && x in m[k] && x.isClosed && x.closeTime <= at
  {
  }

  lemma ViewSlices(c: Config, b: Bundle, t: Time, k: Sym)
    requires k in BarsOn(c, b, t)
    ensures var v := ViewOf(c, b, t);
            v.bars == BarsOn(c, b, t) && k in v.slices && v.slices[k] == SlicesAt(b, k, v.bars[k].closeTime + 5)
  {
    hide BarsOn;
    hide SlicesAt;
    hide PriorCloses;
    hide ClosedBy;
    hide FundingWithin;
  }

  /** A candle is shown to the strategy exactly if it is flagged closed and its close time has come. */
  lemma SlicesAre(c: Config, b: Bundle, t: Time, k: Sym, x: Candle)
    requires k in BarsOn(c, b, t)
    ensures var v := ViewOf(c, b, t); var at := v.bars[k].closeTime + 5;
            k in v.slices &&
            (x in v.slices[k].daily <==> k in b.daily && x in b.daily[k] && x.isClosed && x.closeTime <= at) &&
            (x in v.slices[k].weekly <==> k in b.weekly && x in b.weekly[k] && x.isClosed && x.closeTime <= at) &&
            (x in v.slices[k].monthly <==> k in b.monthly && x in b.monthly[k] && x.isClosed && x.closeTime <= at)
  {
    ViewSlices(c, b, t, k);
    var at := BarsOn(c, b, t)[k].closeTime + 5;
    SliceIs(b.daily, k, at, x);
    SliceIs(b.weekly, k, at, x);
    SliceIs(b.monthly, k, at, x);
    hide ViewOf;
    hide BarsOn;
    hide ClosedBy;
  }

  /* ---------- trailing ---------- */

  /** The range used for trailing: that of the symbol's latest evaluation, if it has one that is not zero, else the range
      at entry. */
  ghost predicate IsRange(evaluations: seq<Evaluation>, k: Sym, default: real, atr: real) {
    (exists i :: 0 <= i < |evaluations| && evaluations[i].symbol == k &&
       (forall j :: i < j < |evaluations| ==> evaluations[j].symbol != k) &&
       atr == if evaluations[i].atr.Some? && evaluations[i].atr.value != 0.0 then evaluations[i].atr.value else default)
    || ((forall j :: 0 <= j < |evaluations| ==> evaluations[j].symbol != k) && atr == default)
  }

  lemma {:induction false} LatestIsRange(evaluations: seq<Evaluation>, k: Sym, default: real)
    ensures IsRange(evaluations, k, default, LatestAtr(evaluations, k, default))
  {
    if evaluations != [] {
      var n := |evaluations| - 1;
      if evaluations[n].symbol != k {
        LatestIsRange(evaluations[..n], k, default);
        assert forall i :: 0 <= i < n ==> evaluations[..n][i] == evaluations[i];
      }
    }
  }

  /** The trailing update of a position that has a bar and a history: its levels follow the close of the bar, by the range
      of the latest evaluation, and the new level is noted. */
  lemma {:induction false} TrailingIs(c: Config, s: State, v: DayView, k: Sym)
    requires c.Valid() && k in v.bars && k in v.withHistory && Has(s.positions, k)
    ensures var p := Get(s.positions, k); var after := TrailSymbol(c, s, v, k);
            Has(after.positions, k) && k in after.trails &&
            var levels := Get(after.positions, k).levels;
            (exists atr: real :: IsRange(s.evaluations, k, p.entryAtr, atr) &&
               levels == Stops.UpdateTrail(p.levels, v.bars[k].close, atr, c.rules, c.tick(k))) &&
            after.trails[k] == (if k in s.trails then s.trails[k] else []) + [TrailPoint(v.time, levels.trail, levels.effective)] &&
            after == s.(positions := after.positions, trails := after.trails)
  {
    var p := Get(s.positions, k);
    var atr := LatestAtr(s.evaluations, k, p.entryAtr);
    LatestIsRange(s.evaluations, k, p.entryAtr);
    var levels := Stops.UpdateTrail(p.levels, v.bars[k].close, atr, c.rules, c.tick(k));
    GetPut(s.positions, k, p.(levels := levels), k);
    hide Stops.UpdateTrail;
    hide LatestAtr;
    hide IsRange;
    hide Put;
    hide Has;
    hide Get;
  }

  /* ---------- what a day sees ---------- */

  /** The last candle of a list with that open. */
  predicate HoldsAt(candles: seq<Candle>, i: nat, t: Time) {
    i < |candles| && candles[i].openTime == t && forall j :: i < j < |candles| ==> candles[j].openTime != t
  }

  /** Of the candles that open before a time, the one that opens last, the last listed of several. */
  predicate LatestBefore(candles: seq<Candle>, i: nat, t: Time) {
    && i < |candles| && candles[i].openTime < t
    && forall j :: 0 <= j < |candles| && candles[j].openTime < t ==>
         candles[j].openTime < candles[i].openTime || (candles[j].openTime == candles[i].openTime && j <= i)
  }

  lemma {:induction false} BarAtHolds(candles: seq<Candle>, t: Time)
    ensures BarAt(candles, t).Some? ==> exists i: nat :: HoldsAt(candles, i, t) && BarAt(candles, t) == Some(candles[i])
    ensures BarAt(candles, t).None? ==> forall i :: 0 <= i < |candles| ==> candles[i].openTime != t
  {
    if candles != [] {
      var n := |candles| - 1;
      var front := candles[..n];
      assert forall j :: 0 <= j < n ==> front[j] == candles[j];
      if candles[n].openTime == t {
        assert HoldsAt(candles, n, t);
      } else {
        BarAtHolds(front, t);
        if BarAt(front, t).Some? {
          var i: nat :| HoldsAt(front, i, t) && BarAt(front, t) == Some(front[i]);
          assert HoldsAt(candles, i, t);
        }
      }
    }
  }

  lemma {:induction false} BarBeforeHolds(candles: seq<Candle>, t: Time)
    ensures BarBefore(candles, t).Some? ==>
              exists i: nat :: LatestBefore(candles, i, t) && BarBefore(candles, t) == Some(candles[i])
    ensures BarBefore(candles, t).None? ==> forall i :: 0 <= i < |candles| ==> candles[i].openTime >= t
  {
    if candles != [] {
      var n := |candles| - 1;
      var front := candles[..n];
      assert forall j :: 0 <= j < n ==> front[j] == candles[j];
      BarBeforeHolds(front, t);
      var before := BarBefore(front, t);
      if candles[n].openTime < t && (before.None? || before.value.openTime <= candles[n].openTime) {
        assert LatestBefore(candles, n, t);
      } else if before.Some? {
        var i: nat :| LatestBefore(front, i, t) && before == Some(front[i]);
        assert LatestBefore(candles, i, t);
      }
    }
  }

  lemma ViewParts(c: Config, b: Bundle, t: Time)
    ensures ViewOf(c, b, t).bars == BarsOn(c, b, t) && ViewOf(c, b, t).prior == PriorCloses(c, b, t)
    ensures ViewOf(c, b, t).time == FirstTime(c.symbols, BarsOn(c, b, t))
  {
    hide BarsOn;
    hide PriorCloses;
    hide ClosedBy;
    hide FundingWithin;
    hide SlicesAt;
  }

  /** A day sees, of each configured symbol, the candle its daily series holds for that open, and the close of the latest
      candle before. */
  lemma {:induction false} DaySees(c: Config, b: Bundle, t: Time, k: Sym)
    ensures var v := ViewOf(c, b, t); var daily := Series(b.daily, k);
            if k in v.bars then k in c.symbols && exists i: nat :: HoldsAt(daily, i, t) && v.bars[k] == daily[i]
            else k in c.symbols ==> forall i :: 0 <= i < |daily| ==> daily[i].openTime != t
    ensures var v := ViewOf(c, b, t); var daily := Series(b.daily, k);
            if k in v.prior then k in c.symbols && exists i: nat :: LatestBefore(daily, i, t) && v.prior[k] == daily[i].close
            else k in c.symbols ==> forall i :: 0 <= i < |daily| ==> daily[i].openTime >= t
  {
    ViewParts(c, b, t);
    BarAtHolds(Series(b.daily, k), t);
    BarBeforeHolds(Series(b.daily, k), t);
    hide ViewOf;
    hide BarAt;
    hide BarBefore;
    hide HoldsAt;
    hide LatestBefore;
    hide Series;
  }

  /** A day's snapshot and trail are timed five seconds after the close of the bar of the first symbol that has one. */
  lemma {:induction false} DayIsTimed(c: Config, b: Bundle, t: Time, n: nat)
    requires n < |c.symbols| && c.symbols[n] in ViewOf(c, b, t).bars
    requires forall m :: 0 <= m < n ==> c.symbols[m] !in ViewOf(c, b, t).bars
    ensures ViewOf(c, b, t).time == ViewOf(c, b, t).bars[c.symbols[n]].closeTime + 5
  {
    ViewParts(c, b, t);
    hide ViewOf;
    hide BarsOn;
    FirstTimeIs(c.symbols, BarsOn(c, b, t), n);
  }

  lemma {:induction false} FirstTimeIs(symbols: seq<Sym>, bars: map<Sym, Candle>, n: nat)
    requires n < |symbols| && symbols[n] in bars && forall m :: 0 <= m < n ==> symbols[m] !in bars
    ensures FirstTime(symbols, bars) == bars[symbols[n]].closeTime + 5
  {
    if n > 0 {
      assert symbols[0] !in bars;
      FirstTimeIs(symbols[1..], bars, n - 1);
    }
  }

  /** The symbols a day knows a history of are those with a bar and a daily candle closed by the time of the day. */
  lemma {:induction false} HistoryIs(c: Config, b: Bundle, t: Time, k: Sym)
    ensures var v := ViewOf(c, b, t);
            k in v.withHistory <==>
            k in v.bars && exists x :: x in Series(b.daily, k) && x.isClosed && x.closeTime <= v.time
  {
    ViewParts(c, b, t);
    var time := ViewOf(c, b, t).time;
    var closed := ClosedBy(Series(b.daily, k), time);
    assert closed != [] <==> exists x :: x in closed by {
      if closed != [] {
        assert closed[0] in closed;
      }
    }
    HistoryPart(c, b, t, k);
    hide ViewOf;
    hide BarsOn;
    hide Series;
  }

  lemma HistoryPart(c: Config, b: Bundle, t: Time, k: Sym)
    ensures var v := ViewOf(c, b, t); k in v.withHistory <==> k in v.bars && ClosedBy(Series(b.daily, k), v.time) != []
  {
    hide BarsOn;
    hide PriorCloses;
    hide ClosedBy;
    hide FundingWithin;
    hide SlicesAt;
    hide Series;
  }
}
