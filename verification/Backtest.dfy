/** The event-driven backtester: its data, and one trading day as a function of the runtime state.

    The strategy and the risk engine are parameters; the rest is what the engine computes. */
module Backtest {
  import opened Common
  import opened Timeframes
  import opened OrderedDict
  import Stops
  import Ratios

  type Sym = string

  datatype Candle = Candle(openTime: Time, closeTime: Time, open: real, high: real, low: real, close: real, isClosed: bool)

  datatype Funding = Funding(timestamp: Time, rate: real)

  datatype Bundle = Bundle(
    daily: map<Sym, seq<Candle>>, weekly: map<Sym, seq<Candle>>, monthly: map<Sym, seq<Candle>>,
    funding: map<Sym, seq<Funding>>, warnings: seq<Warning>)

  /** What is noted about the data: what came with them, and candles out of order, repeated or not closed. */
  datatype Warning = Given(text: string) | Duplicate(symbol: Sym, open: Time) | Unsorted(symbol: Sym, open: Time) |
    Unclosed(symbol: Sym, open: Time)

  datatype EntryType = Breakout | Pullback

  /** Symbol, strategy version, signal time and entry type: the key a client intent id is built from. */
  datatype IntentId = IntentId(symbol: Sym, version: string, signalTime: Time, entryType: EntryType)

  /** What the strategy is shown: the candles closed by the evaluation time. */
  datatype Slices = Slices(daily: seq<Candle>, weekly: seq<Candle>, monthly: seq<Candle>)

  datatype Evaluation = Evaluation(
    symbol: Sym, version: string, longEntry: bool, entryType: Option<EntryType>, stopInitial: Option<real>,
    entryPrice: Option<real>, atr: Option<real>, codes: seq<string>)

  datatype Pending = Pending(id: IntentId, symbol: Sym, signalTime: Time, signalClose: real, stop: real, atr: real,
      codes: seq<string>)

  datatype Position = Position(
    symbol: Sym, quantity: real, entryPrice: real, entryTime: Time, levels: Stops.TrailState, entryAtr: real,
    id: IntentId, margin: real)

  datatype TrailPoint = TrailPoint(time: Time, trail: real, effective: real)

  datatype ExitInfo = ExitInfo(
    time: Time, reason: Stops.ExitReason, reference: real, fill: real, gross: real, net: real,
    rMultiple: Option<real>, holdingDays: int)

  datatype Trade = Trade(
    symbol: Sym, id: IntentId, signalTime: Time, entryTime: Time, entryReference: real, entryFill: real, quantity: real,
    initialStop: real, trail: seq<TrailPoint>, fees: real, funding: real, slippage: real, initialRisk: real,
    exit: Option<ExitInfo>)

  datatype OrderStatus = Filled | Rejected

  datatype Rejection = Rejection(time: Time, symbol: Sym, id: IntentId, codes: seq<string>, strategyCodes: seq<string>)

  datatype Snapshot = Snapshot(time: Time, cash: real, equity: real, unrealized: real, openPositions: nat)

  datatype PositionState = PositionState(symbol: Sym, entryPrice: real, quantity: real, stopInitial: real, trail: real,
      mark: real)

  /** What the risk engine is asked about an entry. */
  datatype Proposal = Proposal(
    symbol: Sym, fill: real, stop: real, id: IntentId, atr: real, equity: real, available: real,
    positions: seq<PositionState>, orders: seq<(Sym, IntentId)>, processed: set<IntentId>)

  datatype Decision = Decision(approved: bool, quantity: Option<real>, codes: seq<string>)

  datatype Config = Config(
    symbols: seq<Sym>, initialCash: real, initialIds: set<IntentId>, entryFee: real, exitFee: real, bps: real,
    maxLeverage: real, fundingEnabled: bool, assumedRate: Option<real>, rules: Stops.StopRules, tick: Sym -> real,
    strategy: (Sym, Slices, Time) -> Evaluation, risk: Proposal -> Decision, roots: Ratios.Roots)
  {
    /** The engine raises on a tick size that is not positive. */
    ghost predicate Valid() { forall s :: tick(s) > 0.0 }
  }

  datatype State = State(
    cash: real, positions: Dict<Position>, pending: seq<Pending>, processed: set<IntentId>, orders: map<IntentId, OrderStatus>,
    active: Dict<Trade>, closed: seq<Trade>, evaluations: seq<Evaluation>, rejections: seq<Rejection>, curve: seq<Snapshot>,
    totalFees: real, totalFunding: real, totalSlippage: real, realized: real, trails: map<Sym, seq<TrailPoint>>, peak: real)

  function Start(c: Config): State {
    State(c.initialCash, [], [], c.initialIds, map[], [], [], [], [], [], 0.0, 0.0, 0.0, 0.0, map[], c.initialCash)
  }

  /* ---------- reading the bundle ---------- */

  const EVALUATION_BUFFER: nat := 5

  function EvaluationTime(bar: Candle): Time { bar.closeTime + EVALUATION_BUFFER }

  function Series<T>(m: map<Sym, seq<T>>, s: Sym): seq<T> { if s in m then m[s] else [] }

  function ClosedAt(asOf: Time): Candle -> bool { (c: Candle) => c.isClosed && c.closeTime <= asOf }

  function ClosedBy(candles: seq<Candle>, asOf: Time): seq<Candle> { Filter(candles, ClosedAt(asOf)) }

  /** The candle a dictionary keyed by open time holds: the last one with that open. */
  function BarAt(candles: seq<Candle>, t: Time): Option<Candle> {
    if candles == [] then None
    else if candles[|candles| - 1].openTime == t then Some(candles[|candles| - 1])
    else BarAt(candles[..|candles| - 1], t)
  }

  /** The candle with the latest open before `t`. */
  function BarBefore(candles: seq<Candle>, t: Time): Option<Candle> {
    if candles == [] then None else
    var front, last := BarBefore(candles[..|candles| - 1], t), candles[|candles| - 1];
    if last.openTime < t && (front.None? || front.value.openTime <= last.openTime) then Some(last) else front
  }

  function During(bar: Candle): Funding -> bool { (e: Funding) => bar.openTime <= e.timestamp <= bar.closeTime }

  function FundingWithin(events: seq<Funding>, bar: Candle): seq<Funding> { Filter(events, During(bar)) }

  function SlicesAt(b: Bundle, s: Sym, asOf: Time): Slices {
    Slices(ClosedBy(Series(b.daily, s), asOf), ClosedBy(Series(b.weekly, s), asOf), ClosedBy(Series(b.monthly, s), asOf))
  }

  /** Everything one trading day looks at. */
  datatype DayView = DayView(
    bars: map<Sym, Candle>, prior: map<Sym, real>, funding: map<Sym, seq<Funding>>, slices: map<Sym, Slices>,
    time: Time, withHistory: set<Sym>)

  function BarsOn(c: Config, b: Bundle, t: Time): map<Sym, Candle> {
    map s | s in c.symbols && BarAt(Series(b.daily, s), t).Some? :: BarAt(Series(b.daily, s), t).value
  }

  function PriorCloses(c: Config, b: Bundle, t: Time): map<Sym, real> {
    map s | s in c.symbols && BarBefore(Series(b.daily, s), t).Some? :: BarBefore(Series(b.daily, s), t).value.close
  }

  /** The evaluation time of the first symbol, in configuration order, that trades on the day. */
  function FirstTime(symbols: seq<Sym>, bars: map<Sym, Candle>): Time {
    if symbols == [] then 0
    else if symbols[0] in bars then EvaluationTime(bars[symbols[0]])
    else FirstTime(symbols[1..], bars)
  }

  function ViewOf(c: Config, b: Bundle, t: Time): DayView {
    var bars := BarsOn(c, b, t);
    var time := FirstTime(c.symbols, bars);
    DayView(bars, PriorCloses(c, b, t),
            map s | s in bars :: FundingWithin(Series(b.funding, s), bars[s]),
            map s | s in bars :: SlicesAt(b, s, EvaluationTime(bars[s])),
            time, set s | s in bars && ClosedBy(Series(b.daily, s), time) != [])
  }

  /* ---------- valuation ---------- */

  function MarkAtOpen(v: DayView, p: Position): real {
    if p.symbol in v.bars then v.bars[p.symbol].open
    else if p.symbol in v.prior then v.prior[p.symbol] else p.entryPrice
  }

  function MarkAtClose(bars: map<Sym, Candle>, p: Position): real {
    if p.symbol in bars then bars[p.symbol].close else p.entryPrice
  }

  function MarksAtOpen(v: DayView): Position -> real { (p: Position) => MarkAtOpen(v, p) }

  function Gain(mark: Position -> real): Position -> real { (p: Position) => p.quantity * (mark(p) - p.entryPrice) }

  function Unrealized(d: Dict<Position>, mark: Position -> real): real { SumOf(d, Gain(mark)) }

  function UsedMargin(d: Dict<Position>): real { SumOf(d, (p: Position) => p.margin) }

  function PositionStates(d: Dict<Position>, mark: Position -> real): seq<PositionState> {
    if d == [] then [] else
    var p := d[0].1;
    (if p.quantity <= 0.0 || mark(p) <= 0.0 then []
     else [PositionState(p.symbol, p.entryPrice, p.quantity, p.levels.stopInitial, p.levels.trail, mark(p))]) +
    PositionStates(d[1..], mark)
  }

  function OpenOrders(ps: seq<Pending>): seq<(Sym, IntentId)> {
    seq(|ps|, i requires 0 <= i < |ps| => (ps[i].symbol, ps[i].id))
  }

  function ProposalFor(s: State, v: DayView, intent: Pending, symbol: Sym, fill: real, stop: real): Proposal {
    var mark := MarksAtOpen(v);
    var equity := s.cash + Unrealized(s.positions, mark);
    var free := equity - UsedMargin(s.positions);
    Proposal(symbol, fill, stop, intent.id, intent.atr, equity, if free < 0.0 then 0.0 else free,
             PositionStates(s.positions, mark), OpenOrders(s.pending), s.processed)
  }

  /* ---------- the steps of a day ---------- */

  function Mark(s: State, id: IntentId, status: OrderStatus): State {
    s.(processed := s.processed + {id}, orders := s.orders[id := status])
  }

  const RISK_APPROVED := "RC_RISK_APPROVED"
  const REJECT_LEVERAGE := "RC_REJECT_LEVERAGE"

  function RejectionCodes(d: Decision): seq<string> {
    var codes := Filter(d.codes, (x: string) => x != RISK_APPROVED);
    if codes == [] then d.codes else codes
  }

  function Reject(s: State, intent: Pending, bar: Candle, codes: seq<string>): State {
    Mark(s, intent.id, Rejected).(
      rejections := s.rejections + [Rejection(bar.openTime, intent.symbol, intent.id, codes, intent.codes)])
  }

  function NewPosition(c: Config, intent: Pending, bar: Candle, fill: real, stop: real, quantity: real): Position
    requires c.tick(intent.symbol) > 0.0
  {
    Position(intent.symbol, quantity, fill, bar.openTime,
             Stops.StartTrail(fill, intent.atr, stop, c.rules, c.tick(intent.symbol)), intent.atr, intent.id,
             Stops.Margin(fill * quantity, c.maxLeverage))
  }

  function NewTrade(c: Config, intent: Pending, bar: Candle, fill: real, stop: real, quantity: real,
                    trail: seq<TrailPoint>): Trade {
    Trade(intent.symbol, intent.id, intent.signalTime, bar.openTime, bar.open, fill, quantity, stop, trail,
          Stops.Fee(fill * quantity, c.entryFee), 0.0, Stops.SlippageCost(bar.open, fill, quantity),
          quantity * (fill - stop), None)
  }

  function Opened(c: Config, s: State, intent: Pending, bar: Candle, fill: real, stop: real, quantity: real): State
    requires c.tick(intent.symbol) > 0.0
  {
    var position := NewPosition(c, intent, bar, fill, stop, quantity);
    var trail := [TrailPoint(bar.openTime, position.levels.trail, position.levels.effective)];
    var trade := NewTrade(c, intent, bar, fill, stop, quantity, trail);
    Mark(s, intent.id, Filled).(
      cash := s.cash - trade.fees, totalFees := s.totalFees + trade.fees, totalSlippage := s.totalSlippage + trade.slippage,
      positions := Put(s.positions, intent.symbol, position), trails := s.trails[intent.symbol := trail],
      active := Put(s.active, intent.symbol, trade))
  }

  function SafeRatio(risk: real, net: real): Option<real> { if risk == 0.0 then None else Some(net / risk) }

  function ClosedTrade(t: Trade, bar: Candle, trigger: Stops.Trigger, a: Stops.ExitAccounting, trail: seq<TrailPoint>): Trade {
    var fees := t.fees + a.fee;
    var net := a.gross - fees - t.funding;
    t.(fees := fees, slippage := t.slippage + a.slippage, trail := trail,
       exit := Some(ExitInfo(bar.openTime, trigger.reason, trigger.exitReference, a.fill, a.gross, net,
                             SafeRatio(t.initialRisk, net), (bar.openTime - t.entryTime) / DAY)))
  }

  function TrailOf(s: State, symbol: Sym): seq<TrailPoint> { if symbol in s.trails then s.trails[symbol] else [] }

  function Exited(c: Config, s: State, p: Position, symbol: Sym, bar: Candle, trigger: Stops.Trigger): State {
    var a := Stops.ExitAccount(trigger.exitReference, p.quantity, p.entryPrice, c.bps, c.exitFee);
    var paid := s.(cash := s.cash + a.walletDelta, totalFees := s.totalFees + a.fee,
        totalSlippage := s.totalSlippage + a.slippage);
    var booked :=
      if Has(s.active, symbol) then
        var trade := ClosedTrade(Get(s.active, symbol), bar, trigger, a, TrailOf(s, symbol));
        paid.(active := Remove(s.active, symbol), closed := s.closed + [trade], realized := s.realized + trade.exit.value.net)
      else paid;
    booked.(positions := Remove(s.positions, symbol), trails := s.trails - {symbol})
  }

  function LevelsOf(p: Position): Stops.Levels {
    Stops.Levels(p.levels.effective, p.levels.stopInitial, p.levels.trail)
  }

  function TriggerFor(p: Position, bar: Candle, atOpen: bool): Option<Stops.Trigger> {
    var seen := Stops.Bar(bar.open, bar.low);
    if atOpen then Stops.GapStopAtOpen(seen, LevelsOf(p)) else Stops.StopTrigger(seen, LevelsOf(p))
  }

  function CheckStop(c: Config, s: State, symbol: Sym, bar: Candle, atOpen: bool): State {
    if !Has(s.positions, symbol) then s else
    var p := Get(s.positions, symbol);
    var trigger := TriggerFor(p, bar, atOpen);
    if trigger.None? then s else Exited(c, s, p, symbol, bar, trigger.value)
  }

  /** The entry fee must be covered by cash. */
  predicate TooDear(c: Config, s: State, fill: real, quantity: real) { Stops.Fee(fill * quantity, c.entryFee) > s.cash }

  function FillIntent(c: Config, s: State, v: DayView, intent: Pending, bar: Candle): State
    requires c.tick(intent.symbol) > 0.0
  {
    if intent.id in s.processed then s else
    var fill := Stops.EntryFill(bar.open, c.bps);
    var stop := Stops.InitialStop(fill, intent.atr, c.rules, c.tick(intent.symbol));
    var decision := c.risk(ProposalFor(s, v, intent, intent.symbol, fill, stop));
    if !decision.approved || decision.quantity.None? then Reject(s, intent, bar, RejectionCodes(decision))
    else if TooDear(c, s, fill, decision.quantity.value) then Reject(s, intent, bar, [REJECT_LEVERAGE])
    else CheckStop(c, Opened(c, s, intent, bar, fill, stop, decision.quantity.value), intent.symbol, bar, true)
  }

  function FillIntents(c: Config, s: State, v: DayView, intents: seq<Pending>, bar: Candle): State
    requires forall i :: 0 <= i < |intents| ==> c.tick(intents[i].symbol) > 0.0
    decreases |intents|
  {
    if intents == [] then s else FillIntents(c, FillIntent(c, s, v, intents[0], bar), v, intents[1..], bar)
  }

  function Due(s: State, symbol: Sym): seq<Pending> { Filter(s.pending, (p: Pending) => p.symbol == symbol) }

  function Kept(s: State, symbol: Sym): State { s.(pending := Filter(s.pending, (p: Pending) => p.symbol != symbol)) }

  function FillSymbol(c: Config, s: State, v: DayView, symbol: Sym): State
    requires c.Valid()
  {
    if symbol in v.bars then FillIntents(c, Kept(s, symbol), v, Due(s, symbol), v.bars[symbol]) else s
  }

  function StopSymbol(c: Config, s: State, v: DayView, symbol: Sym): State {
    if symbol in v.bars then CheckStop(c, s, symbol, v.bars[symbol], false) else s
  }

  function Charge(s: State, symbol: Sym, payment: real): State {
    s.(cash := s.cash - payment, totalFunding := s.totalFunding + payment,
       active := if Has(s.active, symbol)
                 then Put(s.active, symbol, Get(s.active, symbol).(funding := Get(s.active, symbol).funding + payment))
                 else s.active)
  }

  function ChargeEvents(s: State, symbol: Sym, notional: real, events: seq<Funding>): State
    decreases |events|
  {
    if events == [] then s
    else ChargeEvents(Charge(s, symbol, Stops.FundingPayment(notional, events[0].rate)), symbol, notional, events[1..])
  }

  function NotionalOf(p: Position): real { p.quantity * p.entryPrice }

  function FundSymbol(c: Config, s: State, v: DayView, symbol: Sym): State {
    if symbol !in v.bars || !Has(s.positions, symbol) then s else
    var notional := NotionalOf(Get(s.positions, symbol));
    if c.assumedRate.Some? then Charge(s, symbol, Stops.FundingPayment(notional, c.assumedRate.value))
    else ChargeEvents(s, symbol, notional, if symbol in v.funding then v.funding[symbol] else [])
  }

  predicate HasPending(s: State, symbol: Sym) { exists i :: 0 <= i < |s.pending| && s.pending[i].symbol == symbol }

  function Queue(s: State, symbol: Sym, e: Evaluation, time: Time): State {
    var seen := s.(evaluations := s.evaluations + [e]);
    if !e.longEntry || e.entryType.None? || e.stopInitial.None? || e.atr.None? then seen else
    var id := IntentId(symbol, e.version, time, e.entryType.value);
    if id in s.processed || Has(s.positions, symbol) || HasPending(s, symbol) then seen else
    seen.(pending := s.pending + [Pending(id, symbol, time, if e.entryPrice.Some? then e.entryPrice.value else 0.0,
                                          e.stopInitial.value, e.atr.value, e.codes)])
  }

  function EvaluateSymbol(c: Config, s: State, v: DayView, symbol: Sym): State {
    if symbol in v.bars && symbol in v.slices
    then Queue(s, symbol, c.strategy(symbol, v.slices[symbol], EvaluationTime(v.bars[symbol])), EvaluationTime(v.bars[symbol]))
    else s
  }

  /** The average true range of the latest evaluation of a symbol, if it has one that is not zero. */
  function LatestAtr(evaluations: seq<Evaluation>, symbol: Sym, default: real): real {
    if evaluations == [] then default else
    var last := evaluations[|evaluations| - 1];
    if last.symbol != symbol then LatestAtr(evaluations[..|evaluations| - 1], symbol, default)
    else if last.atr.Some? && last.atr.value != 0.0 then last.atr.value else default
  }

  function TrailSymbol(c: Config, s: State, v: DayView, symbol: Sym): State
    requires c.Valid()
  {
    if symbol !in v.bars || !Has(s.positions, symbol) || symbol !in v.withHistory then s else
    var p := Get(s.positions, symbol);
    var atr := LatestAtr(s.evaluations, symbol, p.entryAtr);
    var levels := Stops.UpdateTrail(p.levels, v.bars[symbol].close, atr, c.rules, c.tick(symbol));
    s.(positions := Put(s.positions, symbol, p.(levels := levels)),
       trails := s.trails[symbol := TrailOf(s, symbol) + [TrailPoint(v.time, levels.trail, levels.effective)]])
  }

  function TakeSnapshot(s: State, v: DayView): State {
    var unrealized := Unrealized(s.positions, (p: Position) => MarkAtClose(v.bars, p));
    var equity := s.cash + unrealized;
    s.(peak := MaxReal(s.peak, equity), curve := s.curve + [Snapshot(v.time, s.cash, equity, unrealized, |s.positions|)])
  }

  /** One pass of a day over the symbols, in configuration order. */
  datatype Phase = Fill | Stop | Fund | Evaluate | Trail

  function PhaseOne(c: Config, s: State, v: DayView, phase: Phase, symbol: Sym): State
    requires c.Valid()
  {
    match phase
    case Fill => FillSymbol(c, s, v, symbol)
    case Stop => StopSymbol(c, s, v, symbol)
    case Fund => FundSymbol(c, s, v, symbol)
    case Evaluate => EvaluateSymbol(c, s, v, symbol)
    case Trail => TrailSymbol(c, s, v, symbol)
  }

  function PhaseAll(c: Config, s: State, v: DayView, phase: Phase, symbols: seq<Sym>): State
    requires c.Valid()
    decreases |symbols|
  {
    if symbols == [] then s else PhaseAll(c, PhaseOne(c, s, v, phase, symbols[0]), v, phase, symbols[1..])
  }

  function Day(c: Config, s: State, v: DayView): State
    requires c.Valid()
  {
    if v.bars == map[] then s else
    var filled := PhaseAll(c, s, v, Fill, c.symbols);
    var stopped := PhaseAll(c, filled, v, Stop, c.symbols);
    var funded := if c.fundingEnabled then PhaseAll(c, stopped, v, Fund, c.symbols) else stopped;
    var evaluated := PhaseAll(c, funded, v, Evaluate, c.symbols);
    TakeSnapshot(PhaseAll(c, evaluated, v, Trail, c.symbols), v)
  }

  function Days(c: Config, b: Bundle, s: State, times: seq<Time>): State
    requires c.Valid()
  {
    if times == [] then s else Day(c, Days(c, b, s, times[..|times| - 1]), ViewOf(c, b, times[|times| - 1]))
  }

  /** The days of a run: every daily open of a configured symbol, once, in order. */
  ghost predicate IsTimeline(times: seq<Time>, c: Config, b: Bundle) {
    && (forall i, j :: 0 <= i < j < |times| ==> times[i] < times[j])
    && forall t :: t in times <==>
         exists s, i :: s in c.symbols && 0 <= i < |Series(b.daily, s)| && Series(b.daily, s)[i].openTime == t
  }

  /** Closing equity: open positions valued at the last day's closes. */
  function EndCapital(c: Config, b: Bundle, s: State, times: seq<Time>): real {
    var marks := if times == [] then map[] else BarsOn(c, b, times[|times| - 1]);
    s.cash + Unrealized(s.positions, (p: Position) => MarkAtClose(marks, p))
  }
}
