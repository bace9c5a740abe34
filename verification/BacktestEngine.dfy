/** The backtest engine itself: runtime fields changed by nested loops over days and symbols, refining
    the day function of `Backtest`. */
module BacktestEngine {
  import opened Common
  import opened Timeframes
  import opened OrderedDict
  import opened Backtest
  import Safety = BacktestSafety
  import LookAhead
  import Stops
  import Metrics
  import Ratios

  datatype Result = Result(
    endCapital: real, trades: seq<Trade>, positions: seq<Position>, curve: seq<Snapshot>, rejections: seq<Rejection>,
    evaluations: seq<Evaluation>, totalFees: real, totalFunding: real, totalSlippage: real, processed: set<IntentId>,
    drawdowns: seq<Metrics.Drawdown>, metrics: Metrics.Summary, warnings: seq<Warning>)

  function Equities(curve: seq<Snapshot>): seq<real> { seq(|curve|, i requires 0 <= i < |curve| => curve[i].equity) }

  function Points(curve: seq<Snapshot>): seq<Ratios.Point> {
    seq(|curve|, i requires 0 <= i < |curve| => Ratios.Point(curve[i].equity, curve[i].openPositions))
  }

  /** A trade as the metrics see it. */
  function Seen(t: Trade, x: ExitInfo): Ratios.Closed {
    Ratios.Closed(t.symbol, x.net, if t.id.entryType.Breakout? then Ratios.BreakoutEntry else Ratios.PullbackEntry, x.rMultiple)
  }

  /** The trades that have a net profit. */
  function ClosedOf(ts: seq<Trade>): seq<Ratios.Closed> {
    if ts == [] then [] else
    var last := ts[|ts| - 1];
    ClosedOf(ts[..|ts| - 1]) + if last.exit.Some? then [Seen(last, last.exit.value)] else []
  }

  function AccountOf(c: Config, end: real, times: seq<Time>, costs: Ratios.Costs): Ratios.Account {
    Ratios.Account(c.initialCash, end, if times == [] then None else Some((times[0], times[|times| - 1])), costs)
  }

  function CostsOf(s: State): Ratios.Costs { Ratios.Costs(s.totalFees, s.totalFunding, s.totalSlippage) }

  /* ---------- warnings about the data ---------- */

  predicate OpensBefore(s: seq<Candle>, i: nat, t: Time)
    requires i <= |s|
  {
    exists j :: 0 <= j < i && s[j].openTime == t
  }

  function WarningsAt(s: seq<Candle>, i: nat, symbol: Sym): seq<Warning>
    requires i < |s|
  {
    (if OpensBefore(s, i, s[i].openTime) then [Duplicate(symbol, s[i].openTime)] else []) +
    (if i > 0 && s[i].openTime <= s[i - 1].openTime then [Unsorted(symbol, s[i].openTime)] else []) +
    (if !s[i].isClosed then [Unclosed(symbol, s[i].openTime)] else [])
  }

  function SeriesWarnings(s: seq<Candle>, n: nat, symbol: Sym): seq<Warning>
    requires n <= |s|
  {
    if n == 0 then [] else SeriesWarnings(s, n - 1, symbol) + WarningsAt(s, n - 1, symbol)
  }

  function WarningsOf(s: seq<Candle>, symbol: Sym): seq<Warning> { SeriesWarnings(s, |s|, symbol) }

  function AllWarnings(b: Bundle, symbols: seq<Sym>): seq<Warning> {
    if symbols == [] then b.warnings else
    var s := symbols[|symbols| - 1];
    AllWarnings(b, symbols[..|symbols| - 1]) + WarningsOf(Series(b.daily, s), s) + WarningsOf(Series(b.weekly, s), s) +
    WarningsOf(Series(b.monthly, s), s)
  }

  /** The first `n` candles are in strict order, and closed. */
  predicate ChronologicalTo(s: seq<Candle>, n: nat)
    requires n <= |s|
  {
    && (forall i, j :: 0 <= i < j < n ==> s[i].openTime < s[j].openTime)
    && (forall i :: 0 <= i < n ==> s[i].isClosed)
  }

  predicate Chronological(s: seq<Candle>) { ChronologicalTo(s, |s|) }

  lemma NextInOrder(s: seq<Candle>, n: nat, symbol: Sym)
    requires n < |s| && ChronologicalTo(s, n)
    ensures WarningsAt(s, n, symbol) == [] <==> ChronologicalTo(s, n + 1)
  {
    assert n > 0 ==> forall i :: 0 <= i < n ==> s[i].openTime <= s[n - 1].openTime;
  }

  lemma {:induction false} SeriesWarnsIff(s: seq<Candle>, n: nat, symbol: Sym)
    requires n <= |s|
    ensures SeriesWarnings(s, n, symbol) == [] <==> ChronologicalTo(s, n)
  {
    if n > 0 {
      SeriesWarnsIff(s, n - 1, symbol);
      assert ChronologicalTo(s, n) ==> ChronologicalTo(s, n - 1);
      if ChronologicalTo(s, n - 1) {
        NextInOrder(s, n - 1, symbol);
      }
      hide ChronologicalTo;
      hide WarningsAt;
    }
  }

  predicate CleanSymbol(b: Bundle, s: Sym) {
    Chronological(Series(b.daily, s)) && Chronological(Series(b.weekly, s)) && Chronological(Series(b.monthly, s))
  }

  predicate AllClean(b: Bundle, symbols: seq<Sym>) { forall s :: s in symbols ==> CleanSymbol(b, s) }

  lemma CleanLast(b: Bundle, symbols: seq<Sym>)
    requires symbols != []
    ensures AllClean(b, symbols) <==> AllClean(b, symbols[..|symbols| - 1]) && CleanSymbol(b, symbols[|symbols| - 1])
  {
    hide CleanSymbol;
    assert forall x :: x in symbols <==> x in symbols[..|symbols| - 1] || x == symbols[|symbols| - 1];
  }

  lemma WarnsIff(s: seq<Candle>, symbol: Sym)
    ensures WarningsOf(s, symbol) == [] <==> Chronological(s)
  {
    SeriesWarnsIff(s, |s|, symbol);
  }

  /** A run adds no warning to those its data came with exactly if every series of every configured symbol is in strict
      order and all closed. */
  lemma {:induction false} RunWarnsIff(b: Bundle, symbols: seq<Sym>)
    ensures |AllWarnings(b, symbols)| >= |b.warnings| && AllWarnings(b, symbols)[..|b.warnings|] == b.warnings
    ensures AllWarnings(b, symbols) == b.warnings <==> AllClean(b, symbols)
  {
    if symbols != [] {
      var front, s := symbols[..|symbols| - 1], symbols[|symbols| - 1];
      RunWarnsIff(b, front);
      WarnsIff(Series(b.daily, s), s);
      WarnsIff(Series(b.weekly, s), s);
      WarnsIff(Series(b.monthly, s), s);
      CleanLast(b, symbols);
      assert CleanSymbol(b, s) <==> WarningsOf(Series(b.daily, s), s) == [] && WarningsOf(Series(b.weekly, s), s) == [] &&
                                    WarningsOf(Series(b.monthly, s), s) == [];
      hide AllClean;
      hide CleanSymbol;
      AddsNothing(b.warnings, AllWarnings(b, front), WarningsOf(Series(b.daily, s), s), WarningsOf(Series(b.weekly, s), s),
                  WarningsOf(Series(b.monthly, s), s));
      hide WarningsOf;
      hide Chronological;
    }
  }

  lemma AddsNothing(given: seq<Warning>, a: seq<Warning>, x: seq<Warning>, y: seq<Warning>, z: seq<Warning>)
    requires |a| >= |given| && a[..|given|] == given
    ensures |a + x + y + z| >= |given| && (a + x + y + z)[..|given|] == given
    ensures a + x + y + z == given <==> a == given && x == [] && y == [] && z == []
  {
    assert |a + x + y + z| == |a| + |x| + |y| + |z|;
    assert (a + x + y + z)[..|given|] == a[..|given|];
  }

  method ValidateChronological(s: seq<Candle>, symbol: Sym) returns (warnings: seq<Warning>)
    ensures warnings == WarningsOf(s, symbol)
  {
    warnings := [];
    var seen: set<Time> := {};
    for i := 0 to |s|
      invariant forall t :: t in seen <==> OpensBefore(s, i, t)
      invariant warnings == SeriesWarnings(s, i, symbol)
    {
      var c := s[i];
      ghost var before := warnings;
      if c.openTime in seen {
        warnings := warnings + [Duplicate(symbol, c.openTime)];
      }
      if i > 0 && c.openTime <= s[i - 1].openTime {
        warnings := warnings + [Unsorted(symbol, c.openTime)];
      }
      if !c.isClosed {
        warnings := warnings + [Unclosed(symbol, c.openTime)];
      }
      assert warnings == before + WarningsAt(s, i, symbol);
      assert OpensBefore(s, i + 1, c.openTime);
      assert forall t :: OpensBefore(s, i + 1, t) <==> OpensBefore(s, i, t) || t == c.openTime;
      seen := seen + {c.openTime};
    }
  }

  method CollectWarnings(c: Config, b: Bundle) returns (warnings: seq<Warning>)
    ensures warnings == AllWarnings(b, c.symbols)
  {
    hide WarningsOf;
    warnings := b.warnings;
    for n := 0 to |c.symbols|
      invariant warnings == AllWarnings(b, c.symbols[..n])
    {
      assert c.symbols[..n + 1][..n] == c.symbols[..n];
      var daily := ValidateChronological(Series(b.daily, c.symbols[n]), c.symbols[n]);
      var weekly := ValidateChronological(Series(b.weekly, c.symbols[n]), c.symbols[n]);
      var monthly := ValidateChronological(Series(b.monthly, c.symbols[n]), c.symbols[n]);
      warnings := warnings + daily + weekly + monthly;
    }
    assert c.symbols[..|c.symbols|] == c.symbols;
  }

  /* ---------- the result ---------- */

  function Values<V>(d: Dict<V>): seq<V> { seq(|d|, i requires 0 <= i < |d| => d[i].1) }

  function ResultOf(c: Config, b: Bundle, s: State, times: seq<Time>): Result {
    Result(EndCapital(c, b, s, times), s.closed + Values(s.active), Values(s.positions), s.curve, s.rejections,
           s.evaluations, s.totalFees, s.totalFunding, s.totalSlippage, s.processed,
           Metrics.Curve(Equities(s.curve)),
           Metrics.SummaryOf(Points(s.curve), ClosedOf(s.closed),
                             AccountOf(c, EndCapital(c, b, s, times), times, CostsOf(s)), c.roots),
           AllWarnings(b, c.symbols))
  }

  /** The result when no configured symbol has a daily candle. */
  function EmptyResult(c: Config, b: Bundle): Result {
    Result(c.initialCash, [], [], [], [], [], 0.0, 0.0, 0.0, {}, [],
           Metrics.SummaryOf([], [], AccountOf(c, c.initialCash, [], Ratios.Costs(0.0, 0.0, 0.0)), c.roots),
           AllWarnings(b, c.symbols))
  }

  /** What a run over some days reports. */
  function Reported(c: Config, b: Bundle, times: seq<Time>): Result
    requires c.Valid()
  {
    if times == [] then EmptyResult(c, b) else ResultOf(c, b, Days(c, b, Start(c), times), times)
  }

  /* ---------- the timeline ---------- */

  function InsertTime(times: seq<Time>, t: Time): seq<Time> {
    if times == [] || t < times[0] then [t] + times
    else if t == times[0] then times
    else [times[0]] + InsertTime(times[1..], t)
  }

  lemma {:induction false} InsertTimeMembers(times: seq<Time>, t: Time)
    ensures forall x :: x in InsertTime(times, t) <==> x in times || x == t
  {
    if times != [] && t > times[0] {
      InsertTimeMembers(times[1..], t);
      assert forall x :: x in times <==> x == times[0] || x in times[1..];
    }
  }

  lemma {:induction false} InsertTimeIncreases(times: seq<Time>, t: Time)
    requires LookAhead.Increasing(times)
    ensures LookAhead.Increasing(InsertTime(times, t))
  {
    if times != [] && t > times[0] {
      assert forall i, j :: 0 <= i < j < |times| - 1 ==> times[1..][i] < times[1..][j];
      InsertTimeIncreases(times[1..], t);
      InsertTimeMembers(times[1..], t);
      var rest := InsertTime(times[1..], t);
      forall i | 0 <= i < |rest| ensures times[0] < rest[i] {
        assert rest[i] in rest;
      }
    }
  }

  predicate OpensWithin(candles: seq<Candle>, n: nat, t: Time) {
    exists i :: 0 <= i < n && i < |candles| && candles[i].openTime == t
  }

  method AddOpens(times: seq<Time>, candles: seq<Candle>) returns (all: seq<Time>)
    requires LookAhead.Increasing(times)
    ensures LookAhead.Increasing(all)
    ensures forall t :: t in all <==> t in times || LookAhead.OpensAt(candles, t)
  {
    all := times;
    for n := 0 to |candles|
      invariant LookAhead.Increasing(all)
      invariant forall t :: t in all <==> t in times || OpensWithin(candles, n, t)
    {
      InsertTimeIncreases(all, candles[n].openTime);
      InsertTimeMembers(all, candles[n].openTime);
      forall t ensures OpensWithin(candles, n + 1, t) <==> OpensWithin(candles, n, t) || t == candles[n].openTime {
        WithinNext(candles, n, t);
      }
      all := InsertTime(all, candles[n].openTime);
    }
    assert forall t :: OpensWithin(candles, |candles|, t) <==> LookAhead.OpensAt(candles, t);
  }

  lemma WithinNext(candles: seq<Candle>, n: nat, t: Time)
    requires n < |candles|
    ensures OpensWithin(candles, n + 1, t) <==> OpensWithin(candles, n, t) || t == candles[n].openTime
  {
    if t == candles[n].openTime {
      assert OpensWithin(candles, n + 1, t);
    }
  }

  /** Every daily open of a configured symbol, once, in order. */
  method BuildTimeline(c: Config, b: Bundle) returns (times: seq<Time>)
    ensures IsTimeline(times, c, b)
  {
    times := [];
    for n := 0 to |c.symbols|
      invariant LookAhead.Increasing(times)
      invariant forall t :: t in times <==> exists k :: 0 <= k < n && LookAhead.OpensAt(Series(b.daily, c.symbols[k]), t)
    {
      times := AddOpens(times, Series(b.daily, c.symbols[n]));
    }
    CollectedIsTimeline(c, b, times);
  }

  lemma CollectedIsTimeline(c: Config, b: Bundle, times: seq<Time>)
    requires LookAhead.Increasing(times)
    requires forall t :: t in times <==> exists k :: 0 <= k < |c.symbols| && LookAhead.OpensAt(Series(b.daily, c.symbols[k]), t)
    ensures IsTimeline(times, c, b)
  {
    forall t ensures t in times <==>
                     exists s, i :: s in c.symbols && 0 <= i < |Series(b.daily, s)| && Series(b.daily, s)[i].openTime == t {
      if t in times {
        var k :| 0 <= k < |c.symbols| && LookAhead.OpensAt(Series(b.daily, c.symbols[k]), t);
        var i :| 0 <= i < |Series(b.daily, c.symbols[k])| && Series(b.daily, c.symbols[k])[i].openTime == t;
        assert c.symbols[k] in c.symbols;
      }
      if s, i :| s in c.symbols && 0 <= i < |Series(b.daily, s)| && Series(b.daily, s)[i].openTime == t {
        var k :| 0 <= k < |c.symbols| && c.symbols[k] == s;
        assert LookAhead.OpensAt(Series(b.daily, c.symbols[k]), t);
      }
    }
  }

  /* ---------- one day's view ---------- */

  /** The dictionary of a series by open time: a later candle replaces an earlier one. */
  method IndexByOpen(candles: seq<Candle>) returns (index: map<Time, Candle>)
    ensures forall t :: t in index <==> BarAt(candles, t).Some?
    ensures forall t :: t in index ==> index[t] == BarAt(candles, t).value
  {
    index := map[];
    for n := 0 to |candles|
      invariant forall t :: t in index <==> BarAt(candles[..n], t).Some?
      invariant forall t :: t in index ==> index[t] == BarAt(candles[..n], t).value
    {
      assert candles[..n + 1][..n] == candles[..n];
      index := index[candles[n].openTime := candles[n]];
    }
    assert candles[..|candles|] == candles;
  }

  lemma {:induction false} BarBeforeIsLatest(candles: seq<Candle>, t: Time)
    ensures var best := BarBefore(candles, t);
            best.Some? ==> best.value.openTime < t && BarAt(candles, best.value.openTime) == best
    ensures forall x: Time :: x < t && BarAt(candles, x).Some? ==>
              BarBefore(candles, t).Some? && x <= BarBefore(candles, t).value.openTime
  {
    if candles != [] {
      BarBeforeIsLatest(candles[..|candles| - 1], t);
    }
  }

  /** The close before a time: the latest key below it, whatever order the keys are visited in. */
  method PriorClose(index: map<Time, Candle>, ghost candles: seq<Candle>, before: Time) returns (prior: Option<Candle>)
    requires forall t :: t in index <==> BarAt(candles, t).Some?
    requires forall t :: t in index ==> index[t] == BarAt(candles, t).value
    ensures prior == BarBefore(candles, before)
  {
    prior := None;
    var left := index.Keys;
    while left != {}
      invariant left <= index.Keys
      invariant prior.Some? ==>
                  prior.value.openTime in index && prior.value == index[prior.value.openTime] && prior.value.openTime < before
      invariant forall t :: t in index && t !in left && t < before ==> prior.Some? && t <= prior.value.openTime
      decreases left
    {
      var t :| t in left;
      if t < before && (prior.None? || t > prior.value.openTime) {
        Safety.BarAtIsAt(candles, t);
        prior := Some(index[t]);
      }
      left := left - {t};
    }
    BarBeforeIsLatest(candles, before);
  }

  method DayCandles(c: Config, b: Bundle, t: Time) returns (bars: map<Sym, Candle>, prior: map<Sym, real>)
    ensures bars == BarsOn(c, b, t) && prior == PriorCloses(c, b, t)
  {
    bars, prior := map[], map[];
    for n := 0 to |c.symbols|
      invariant forall s :: s in bars <==> s in c.symbols[..n] && BarAt(Series(b.daily, s), t).Some?
      invariant forall s :: s in bars ==> bars[s] == BarAt(Series(b.daily, s), t).value
      invariant forall s :: s in prior <==> s in c.symbols[..n] && BarBefore(Series(b.daily, s), t).Some?
      invariant forall s :: s in prior ==> prior[s] == BarBefore(Series(b.daily, s), t).value.close
    {
      var s := c.symbols[n];
      assert forall x :: x in c.symbols[..n + 1] <==> x in c.symbols[..n] || x == s;
      var index := IndexByOpen(Series(b.daily, s));
      if t in index {
        bars := bars[s := index[t]];
      }
      var last := PriorClose(index, Series(b.daily, s), t);
      if last.Some? {
        prior := prior[s := last.value.close];
      }
    }
    assert c.symbols[..|c.symbols|] == c.symbols;
  }

  method UnrealizedPnl(positions: Dict<Position>, marks: Position -> real) returns (total: real)
    ensures total == Unrealized(positions, marks)
  {
    ghost var value := Gain(marks);
    total := 0.0;
    for n := 0 to |positions|
      invariant total == SumOf(positions[..n], value)
    {
      var p := positions[n].1;
      assert positions[..n + 1] == positions[..n] + [positions[n]];
      SumAppend(positions[..n], [positions[n]], value);
      total := total + p.quantity * (marks(p) - p.entryPrice);
    }
    assert positions[..|positions|] == positions;
  }

  /* ---------- the engine ---------- */

  lemma PhaseNext(c: Config, s: State, v: DayView, phase: Phase, symbols: seq<Sym>, n: nat)
    requires c.Valid() && n < |symbols|
    ensures PhaseAll(c, s, v, phase, symbols[n..]) == PhaseAll(c, PhaseOne(c, s, v, phase, symbols[n]), v, phase,
            symbols[n + 1..])
  {
    hide PhaseOne;
    assert symbols[n..][0] == symbols[n] && symbols[n..][1..] == symbols[n + 1..];
  }

  class Engine {
    var cash: real
    var positions: Dict<Position>
    var pending: seq<Pending>
    var processed: set<IntentId>
    var orders: map<IntentId, OrderStatus>
    var active: Dict<Trade>
    var closed: seq<Trade>
    var evaluations: seq<Evaluation>
    var rejections: seq<Rejection>
    var curve: seq<Snapshot>
    var totalFees: real
    var totalFunding: real
    var totalSlippage: real
    var realized: real
    var trails: map<Sym, seq<TrailPoint>>
    var peak: real

    function Now(): State
      reads this
    {
      State(cash, positions, pending, processed, orders, active, closed, evaluations, rejections, curve,
            totalFees, totalFunding, totalSlippage, realized, trails, peak)
    }

    constructor (c: Config)
      ensures Now() == Start(c)
    {
      cash, peak, processed := c.initialCash, c.initialCash, c.initialIds;
      positions, pending, orders, active := [], [], map[], [];
      closed, evaluations, rejections, curve := [], [], [], [];
      totalFees, totalFunding, totalSlippage, realized, trails := 0.0, 0.0, 0.0, 0.0, map[];
    }

    method MarkTerminal(id: IntentId, status: OrderStatus)
      modifies this
      ensures Now() == Mark(old(Now()), id, status)
    {
      processed := processed + {id};
      orders := orders[id := status];
    }

    method RejectIntent(intent: Pending, bar: Candle, codes: seq<string>)
      modifies this
      ensures Now() == Reject(old(Now()), intent, bar, codes)
    {
      MarkTerminal(intent.id, Rejected);
      rejections := rejections + [Rejection(bar.openTime, intent.symbol, intent.id, codes, intent.codes)];
    }

    /** Close the open trade of a symbol, if it has one. */
    method BookExit(symbol: Sym, bar: Candle, trigger: Stops.Trigger, a: Stops.ExitAccounting)
      modifies this`active, this`closed, this`realized
      ensures !Has(old(active), symbol) ==> active == old(active) && closed == old(closed) && realized == old(realized)
      ensures Has(old(active), symbol) ==>
                var trade := ClosedTrade(Get(old(active), symbol), bar, trigger, a, TrailOf(old(Now()), symbol));
                active == Remove(old(active), symbol) && closed == old(closed) + [trade] &&
                realized == old(realized) + trade.exit.value.net
    {
      hide Remove;
      hide Has;
      hide Get;
      hide SafeRatio;
      if Has(active, symbol) {
        var trade := ClosedTrade(Get(active, symbol), bar, trigger, a, if symbol in trails then trails[symbol] else []);
        active := Remove(active, symbol);
        closed := closed + [trade];
        realized := realized + trade.exit.value.net;
      }
    }

    method ExitPosition(c: Config, p: Position, symbol: Sym, bar: Candle, trigger: Stops.Trigger)
      modifies this
      ensures Now() == Exited(c, old(Now()), p, symbol, bar, trigger)
    {
      hide Remove;
      hide Has;
      hide Get;
      hide ClosedTrade;
      hide Stops.ExitAccount;
      var a := Stops.ExitAccount(trigger.exitReference, p.quantity, p.entryPrice, c.bps, c.exitFee);
      BookExit(symbol, bar, trigger, a);
      cash, totalFees, totalSlippage := cash + a.walletDelta, totalFees + a.fee, totalSlippage + a.slippage;
      positions, trails := Remove(positions, symbol), trails - {symbol};
    }

    method CheckStopExit(c: Config, symbol: Sym, bar: Candle, atOpen: bool)
      modifies this
      ensures Now() == CheckStop(c, old(Now()), symbol, bar, atOpen)
    {
      hide Has;
      hide Get;
      hide TriggerFor;
      hide Exited;
      if Has(positions, symbol) {
        var p := Get(positions, symbol);
        var trigger := TriggerFor(p, bar, atOpen);
        if trigger.Some? {
          ExitPosition(c, p, symbol, bar, trigger.value);
        }
      }
    }

    method OpenPosition(c: Config, intent: Pending, bar: Candle, fill: real, stop: real, quantity: real)
      requires c.tick(intent.symbol) > 0.0
      modifies this
      ensures Now() == Opened(c, old(Now()), intent, bar, fill, stop, quantity)
    {
      hide Put;
      hide NewPosition;
      hide NewTrade;
      var position := NewPosition(c, intent, bar, fill, stop, quantity);
      var trail := [TrailPoint(bar.openTime, position.levels.trail, position.levels.effective)];
      var trade := NewTrade(c, intent, bar, fill, stop, quantity, trail);
      cash, totalFees, totalSlippage := cash - trade.fees, totalFees + trade.fees, totalSlippage + trade.slippage;
      positions, trails, active := Put(positions, intent.symbol, position), trails[intent.symbol := trail],
          Put(active, intent.symbol, trade);
      processed, orders := processed + {intent.id}, orders[intent.id := Filled];
    }

    method FillOne(c: Config, v: DayView, intent: Pending, bar: Candle)
      requires c.Valid()
      modifies this
      ensures Now() == FillIntent(c, old(Now()), v, intent, bar)
    {
      hide ProposalFor;
      hide Opened;
      hide CheckStop;
      hide Reject;
      hide RejectionCodes;
      hide Stops.InitialStop;
      hide Stops.EntryFill;
      if intent.id in processed {
        return;
      }
      var fill := Stops.EntryFill(bar.open, c.bps);
      var stop := Stops.InitialStop(fill, intent.atr, c.rules, c.tick(intent.symbol));
      var decision := c.risk(ProposalFor(Now(), v, intent, intent.symbol, fill, stop));
      if !decision.approved || decision.quantity.None? {
        RejectIntent(intent, bar, RejectionCodes(decision));
      } else if Stops.Fee(fill * decision.quantity.value, c.entryFee) > cash {
        RejectIntent(intent, bar, [REJECT_LEVERAGE]);
      } else {
        OpenPosition(c, intent, bar, fill, stop, decision.quantity.value);
        CheckStopExit(c, intent.symbol, bar, true);
      }
    }

    /** Fill what waits for a symbol at its open. */
    method FillPendingAtOpen(c: Config, v: DayView, symbol: Sym)
      requires c.Valid()
      modifies this
      ensures Now() == FillSymbol(c, old(Now()), v, symbol)
    {
      hide FillIntent;
      if symbol !in v.bars {
        return;
      }
      var toFill := Filter(pending, (p: Pending) => p.symbol == symbol);
      pending := Filter(pending, (p: Pending) => p.symbol != symbol);
      ghost var s := Kept(old(Now()), symbol);
      assert toFill == Due(old(Now()), symbol) && Now() == s;
      for n := 0 to |toFill|
        invariant FillIntents(c, Now(), v, toFill[n..], v.bars[symbol]) == FillIntents(c, s, v, toFill, v.bars[symbol])
      {
        assert toFill[n..][0] == toFill[n] && toFill[n..][1..] == toFill[n + 1..];
        FillOne(c, v, toFill[n], v.bars[symbol]);
      }
    }

    method ChargeFunding(symbol: Sym, payment: real)
      modifies this
      ensures Now() == Charge(old(Now()), symbol, payment)
    {
      hide Has;
      hide Get;
      hide Put;
      cash := cash - payment;
      totalFunding := totalFunding + payment;
      if Has(active, symbol) {
        var trade := Get(active, symbol);
        active := Put(active, symbol, trade.(funding := trade.funding + payment));
      }
    }

    /** A constant rate replaces the recorded funding events. */
    method ApplyFunding(c: Config, v: DayView, symbol: Sym)
      modifies this
      ensures Now() == FundSymbol(c, old(Now()), v, symbol)
    {
      hide Charge;
      hide Stops.FundingPayment;
      hide NotionalOf;
      hide Has;
      hide Get;
      if symbol !in v.bars || !Has(positions, symbol) {
        return;
      }
      var notional := NotionalOf(Get(positions, symbol));
      if c.assumedRate.Some? {
        ChargeFunding(symbol, Stops.FundingPayment(notional, c.assumedRate.value));
        return;
      }
      var events := if symbol in v.funding then v.funding[symbol] else [];
      for n := 0 to |events|
        invariant ChargeEvents(Now(), symbol, notional, events[n..]) == ChargeEvents(old(Now()), symbol, notional, events)
      {
        assert events[n..][0] == events[n] && events[n..][1..] == events[n + 1..];
        ChargeFunding(symbol, Stops.FundingPayment(notional, events[n].rate));
      }
    }

    /** Queue a long entry unless its id was used, the symbol has a position, or an intent already waits. */
    method StrategyAndQueue(c: Config, v: DayView, symbol: Sym)
      modifies this
      ensures Now() == EvaluateSymbol(c, old(Now()), v, symbol)
    {
      hide Has;
      if symbol !in v.bars || symbol !in v.slices {
        return;
      }
      var time := EvaluationTime(v.bars[symbol]);
      var e := c.strategy(symbol, v.slices[symbol], time);
      evaluations := evaluations + [e];
      if !e.longEntry || e.entryType.None? || e.stopInitial.None? || e.atr.None? {
        return;
      }
      var id := IntentId(symbol, e.version, time, e.entryType.value);
      if id in processed || Has(positions, symbol) || HasPending(Now(), symbol) {
        return;
      }
      pending := pending + [Pending(id, symbol, time, if e.entryPrice.Some? then e.entryPrice.value else 0.0,
                                    e.stopInitial.value, e.atr.value, e.codes)];
    }

    method UpdateTrailing(c: Config, v: DayView, symbol: Sym)
      requires c.Valid()
      modifies this
      ensures Now() == TrailSymbol(c, old(Now()), v, symbol)
    {
      hide Has;
      hide Get;
      hide Put;
      hide Stops.UpdateTrail;
      hide LatestAtr;
      if symbol !in v.bars || !Has(positions, symbol) || symbol !in v.withHistory {
        return;
      }
      var p := Get(positions, symbol);
      var atr := LatestAtr(evaluations, symbol, p.entryAtr);
      var levels := Stops.UpdateTrail(p.levels, v.bars[symbol].close, atr, c.rules, c.tick(symbol));
      positions := Put(positions, symbol, p.(levels := levels));
      var point := TrailPoint(v.time, levels.trail, levels.effective);
      trails := trails[symbol := (if symbol in trails then trails[symbol] else []) + [point]];
    }

    method Snap(v: DayView)
      modifies this
      ensures Now() == TakeSnapshot(old(Now()), v)
    {
      hide Unrealized;
      var unrealized := UnrealizedPnl(positions, (p: Position) => MarkAtClose(v.bars, p));
      var equity := cash + unrealized;
      peak := MaxReal(peak, equity);
      curve := curve + [Snapshot(v.time, cash, equity, unrealized, |positions|)];
    }

    /** One pass over the symbols, in configuration order. */
    method RunPhase(c: Config, v: DayView, phase: Phase)
      requires c.Valid()
      modifies this
      ensures Now() == PhaseAll(c, old(Now()), v, phase, c.symbols)
    {
      hide FillSymbol;
      hide FundSymbol;
      hide EvaluateSymbol;
      hide TrailSymbol;
      hide CheckStop;
      for n := 0 to |c.symbols|
        invariant PhaseAll(c, Now(), v, phase, c.symbols[n..]) == PhaseAll(c, old(Now()), v, phase, c.symbols)
      {
        var symbol := c.symbols[n];
        PhaseNext(c, Now(), v, phase, c.symbols, n);
        match phase {
          case Fill => FillPendingAtOpen(c, v, symbol);
          case Stop => if symbol in v.bars { CheckStopExit(c, symbol, v.bars[symbol], false); }
          case Fund => ApplyFunding(c, v, symbol);
          case Evaluate => StrategyAndQueue(c, v, symbol);
          case Trail => UpdateTrailing(c, v, symbol);
        }
      }
    }

    method RunDay(c: Config, b: Bundle, t: Time)
      requires c.Valid()
      modifies this
      ensures Now() == Day(c, old(Now()), ViewOf(c, b, t))
    {
      hide PhaseAll;
      hide TakeSnapshot;
      hide BarsOn;
      hide PriorCloses;
      hide SlicesAt;
      hide FundingWithin;
      var bars, prior := DayCandles(c, b, t);
      if bars == map[] {
        return;
      }
      var time := FirstTime(c.symbols, bars);
      var v := DayView(bars, prior,
                       map s | s in bars :: FundingWithin(Series(b.funding, s), bars[s]),
                       map s | s in bars :: SlicesAt(b, s, EvaluationTime(bars[s])),
                       time, set s | s in bars && ClosedBy(Series(b.daily, s), time) != []);
      RunPhase(c, v, Fill);
      RunPhase(c, v, Stop);
      if c.fundingEnabled {
        RunPhase(c, v, Fund);
      }
      RunPhase(c, v, Evaluate);
      RunPhase(c, v, Trail);
      Snap(v);
    }

    /** A whole backtest. */
    method Run(c: Config, b: Bundle) returns (r: Result, ghost times: seq<Time>)
      requires c.Valid() && Now() == Start(c)
      modifies this
      ensures IsTimeline(times, c, b) && Now() == Days(c, b, Start(c), times)
      ensures r == Reported(c, b, times)
    {
      hide Day;
      hide ViewOf;
      hide BarsOn;
      hide IsTimeline;
      hide Unrealized;
      hide AllWarnings;
      hide Metrics.SummaryOf;
      var warnings := CollectWarnings(c, b);
      var days := BuildTimeline(c, b);
      times := days;
      if days == [] {
        var none := Metrics.ComputeMetrics([], [], AccountOf(c, c.initialCash, [], Ratios.Costs(0.0, 0.0, 0.0)), c.roots);
        r := Result(c.initialCash, [], [], [], [], [], 0.0, 0.0, 0.0, {}, [], none, warnings);
        return;
      }
      for n := 0 to |days|
        invariant Now() == Days(c, b, Start(c), days[..n])
      {
        assert days[..n + 1][..n] == days[..n];
        RunDay(c, b, days[n]);
      }
      assert days[..|days|] == days;
      var marks, _ := DayCandles(c, b, days[|days| - 1]);
      var unrealized := UnrealizedPnl(positions, (p: Position) => MarkAtClose(marks, p));
      var account := AccountOf(c, cash + unrealized, days, Ratios.Costs(totalFees, totalFunding, totalSlippage));
      var metrics := Metrics.ComputeMetrics(Points(curve), ClosedOf(closed), account, c.roots);
      var drawdowns := Metrics.DrawdownCurve(Equities(curve));
      r := Result(cash + unrealized, closed + Values(active), Values(positions), curve, rejections, evaluations,
                  totalFees, totalFunding, totalSlippage, processed, drawdowns, metrics, warnings);
    }
  }
}
