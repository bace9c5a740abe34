/** Stop exits and entry/exit accounting shared by the backtester and paper trading. */
module Stops {
  import opened Common

  datatype ExitReason = StopInitial | StopTrailing | StopGap

  datatype Trigger = Trigger(exitReference: real, reason: ExitReason)

  /** The stop levels of a position. */
  datatype Levels = Levels(effective: real, initial: real, trail: real)

  /** What of a daily bar a stop looks at. A preview has the lowest price so far. */
  datatype Bar = Bar(open: real, low: real)

  function GapStopAtOpen(bar: Bar, stop: Levels): Option<Trigger> {
    if bar.open < stop.effective then Some(Trigger(bar.open, StopGap)) else None
  }

  function IntradayStop(bar: Bar, stop: Levels): Option<Trigger> {
    if bar.low <= stop.effective
    then Some(Trigger(stop.effective, if stop.trail >= stop.initial then StopTrailing else StopInitial))
    else None
  }

  /** The batch check on a closed bar: the gap first, then the final low. */
  function StopTrigger(bar: Bar, stop: Levels): Option<Trigger> {
    var gap := GapStopAtOpen(bar, stop);
    if gap.Some? then gap else IntradayStop(bar, stop)
  }

  /* ---------- an ideal live feed: the open, then previews with a falling low ---------- */

  /** Previews of one bar: one open, and a running low that never rises and ends at the final low. */
  predicate Previews(ps: seq<Bar>, final: Bar) {
    && (forall i :: 0 <= i < |ps| ==> ps[i].open == final.open)
    && (forall i, j :: 0 <= i < j < |ps| ==> ps[j].low <= ps[i].low)
    && (ps != [] ==> ps[|ps| - 1].low == final.low)
  }

  function FirstIntraday(ps: seq<Bar>, stop: Levels): Option<Trigger> {
    if ps == [] then None else
    var first := IntradayStop(ps[0], stop);
    if first.Some? then first else FirstIntraday(ps[1..], stop)
  }

  /** An ideal watcher, which checks the gap at the open and then the intraday stop on every preview: the standard
      the two live formulas are held to. The paper-trading bridge is not one: of a day's updates it checks the
      first alone (`BridgeSharing.OnlyFirstUpdateIsChecked`). */
  method WatchBar(ps: seq<Bar>, open: real, stop: Levels) returns (exit: Option<Trigger>)
    requires forall p :: p in ps ==> p.open == open
    ensures var gap := GapStopAtOpen(Bar(open, open), stop);
            exit == if gap.Some? then gap else FirstIntraday(ps, stop)
  {
    exit := GapStopAtOpen(Bar(open, open), stop);
    var i := 0;
    while i < |ps| && exit.None?
      invariant i <= |ps|
      invariant GapStopAtOpen(Bar(open, open), stop).None? ==>
                  FirstIntraday(ps, stop) == if exit.Some? then exit else FirstIntraday(ps[i..], stop)
      invariant GapStopAtOpen(Bar(open, open), stop).Some? ==> exit == GapStopAtOpen(Bar(open, open), stop)
    {
      exit := IntradayStop(ps[i], stop);
      assert ps[i..][0] == ps[i] && ps[i..][1..] == ps[i + 1..];
      i := i + 1;
    }
  }

  lemma {:induction false} FirstIntradayIff(ps: seq<Bar>, final: Bar, stop: Levels)
    requires Previews(ps, final) && ps != []
    ensures FirstIntraday(ps, stop) == IntradayStop(final, stop)
  {
    if |ps| > 1 {
      assert forall i :: 0 <= i < |ps| - 1 ==> ps[1..][i] == ps[i + 1];
      FirstIntradayIff(ps[1..], final, stop);
      assert ps[|ps| - 1].low <= ps[0].low;
    }
  }

  /** The ideal watcher exits exactly when the batch check on the closed bar does, at the same reference price and
      for the same reason. */
  lemma {:induction false} StreamingMatchesBatch(ps: seq<Bar>, final: Bar, stop: Levels)
    requires Previews(ps, final) && ps != []
    ensures (var gap := GapStopAtOpen(Bar(final.open, final.open), stop);
             if gap.Some? then gap else FirstIntraday(ps, stop)) == StopTrigger(final, stop)
  {
    FirstIntradayIff(ps, final, stop);
  }

  /** A watcher that sees only some of the previews can miss the exit: exactly when no gap exit fires and the stop
      lies at or above the final low but below every low that was seen. */
  lemma {:induction false} MissedExit(ps: seq<Bar>, final: Bar, stop: Levels)
    requires forall i :: 0 <= i < |ps| ==> ps[i].open == final.open && ps[i].low >= final.low
    ensures (GapStopAtOpen(final, stop).None? && FirstIntraday(ps, stop).None? && StopTrigger(final, stop).Some?) <==>
            (final.low <= stop.effective <= final.open && forall i :: 0 <= i < |ps| ==> stop.effective < ps[i].low)
  {
    if ps != [] {
      assert forall i :: 0 <= i < |ps| - 1 ==> ps[1..][i] == ps[i + 1];
      MissedExit(ps[1..], final, stop);
    }
  }

  /* ---------- stop levels of a position ---------- */

  /** Towards zero, as the decimal rounding of the strategy engine does. */
  function Truncate(x: real): int { if x >= 0.0 then x.Floor else -(-x).Floor }

  function RoundToTick(price: real, tick: real): real
    requires tick > 0.0
  {
    Ticks(Truncate(price / tick), tick)
  }

  datatype TrailState = TrailState(stopInitial: real, highestClose: real, trail: real, effective: real)

  datatype StopRules = StopRules(initialMultiple: real, trailMultiple: real)

  /** So many ranges below a price. */
  function Below(price: real, multiple: real, atr: real): real { price - multiple * atr }

  function InitialStop(entry: real, atr: real, rules: StopRules, tick: real): real
    requires tick > 0.0
  {
    RoundToTick(Below(entry, rules.initialMultiple, atr), tick)
  }

  function StartTrail(entry: real, atr: real, stopInitial: real, rules: StopRules, tick: real): TrailState
    requires tick > 0.0
  {
    var trail := RoundToTick(MaxReal(Below(entry, rules.trailMultiple, atr), stopInitial), tick);
    TrailState(stopInitial, entry, trail, MaxReal(stopInitial, trail))
  }

  function UpdateTrail(s: TrailState, close: real, atr: real, rules: StopRules, tick: real): TrailState
    requires tick > 0.0
  {
    var highest := MaxReal(s.highestClose, close);
    var trail := RoundToTick(MaxReal(MaxReal(s.trail, Below(highest, rules.trailMultiple, atr)), s.stopInitial), tick);
    TrailState(s.stopInitial, highest, trail, MaxReal(s.stopInitial, trail))
  }

  function Ticks(k: int, tick: real): real { k as real * tick }

  ghost predicate OnTick(price: real, tick: real) { exists k: int :: price == Ticks(k, tick) }

  /** Trailing levels as they start out and as every update leaves them. */
  ghost predicate Consistent(s: TrailState, tick: real) {
    OnTick(s.trail, tick) && s.effective == MaxReal(s.stopInitial, s.trail)
  }

  lemma RoundKeepsFloor(x: real, k: int, tick: real)
    requires tick > 0.0 && Ticks(k, tick) <= x
    ensures Ticks(k, tick) <= RoundToTick(x, tick)
  {
    var q := x / tick;
    assert q * tick == x;
    assert (q - k as real) * tick >= 0.0;
    assert q >= k as real;
    assert Truncate(q) >= k;
    assert (Truncate(q) - k) as real * tick >= 0.0;
  }

  lemma RoundOnTick(x: real, tick: real)
    requires tick > 0.0
    ensures OnTick(RoundToTick(x, tick), tick)
  {
  }

  /** Rounding towards zero leaves a multiple of the tick, less than a tick away. */
  ghost predicate Truncates(x: real, price: real, tick: real) {
    && OnTick(price, tick)
    && (x >= 0.0 ==> 0.0 <= price <= x < price + tick) && (x < 0.0 ==> price - tick < x <= price <= 0.0)
  }

  lemma TruncateBounds(x: real)
    ensures x >= 0.0 ==> 0.0 <= Truncate(x) as real <= x < Truncate(x) as real + 1.0
    ensures x < 0.0 ==> Truncate(x) as real - 1.0 < x <= Truncate(x) as real <= 0.0
  {
  }

  lemma ScaleOne(a: real, b: real, tick: real)
    requires tick > 0.0
    ensures a <= b ==> a * tick <= b * tick
    ensures a < b ==> a * tick < b * tick
  {
    assert (b - a) * tick == b * tick - a * tick;
  }

  lemma TicksBelow(q: real, k: int, tick: real)
    requires tick > 0.0
    ensures k as real <= q ==> Ticks(k, tick) <= q * tick
    ensures k as real < q ==> Ticks(k, tick) < q * tick
    ensures q <= k as real ==> q * tick <= Ticks(k, tick)
    ensures q < k as real ==> q * tick < Ticks(k, tick)
  {
    ScaleOne(k as real, q, tick);
    ScaleOne(q, k as real, tick);
  }

  lemma TicksStep(k: int, tick: real)
    ensures Ticks(k + 1, tick) == Ticks(k, tick) + tick && Ticks(k - 1, tick) == Ticks(k, tick) - tick && Ticks(0, tick) == 0.0
  {
  }

  lemma TicksOrder(k: int, tick: real)
    requires tick > 0.0
    ensures k >= 0 ==> Ticks(k, tick) >= 0.0
    ensures k <= 0 ==> Ticks(k, tick) <= 0.0
  {
    TicksBelow(0.0, k, tick);
  }

  lemma Divide(x: real, tick: real) returns (q: real)
    requires tick > 0.0
    ensures q == x / tick && q * tick == x && (x >= 0.0 <==> q >= 0.0)
  {
    q := x / tick;
    ScaleOne(q, 0.0, tick);
    ScaleOne(0.0, q, tick);
  }

  lemma RoundTruncates(x: real, tick: real)
    requires tick > 0.0
    ensures Truncates(x, RoundToTick(x, tick), tick)
  {
    RoundOnTick(x, tick);
    var q := Divide(x, tick);
    TruncateBounds(q);
    var k := Truncate(q);
    assert RoundToTick(x, tick) == Ticks(k, tick);
    hide OnTick;
    hide Truncate;
    hide RoundToTick;
    TicksBelow(q, k, tick);
    TicksBelow(q, k + 1, tick);
    TicksBelow(q, k - 1, tick);
    TicksStep(k, tick);
    TicksOrder(k, tick);
    hide Ticks;
  }

  /** The distance is the multiple of the range, and it is taken off. */
  lemma BelowBy(price: real, multiple: real, atr: real)
    ensures price - Below(price, multiple, atr) == multiple * atr
  {
  }

  /** The initial stop lies its multiple of the range below the entry, rounded to the tick. */
  lemma InitialStopIs(entry: real, atr: real, rules: StopRules, tick: real)
    requires tick > 0.0
    ensures Truncates(Below(entry, rules.initialMultiple, atr), InitialStop(entry, atr, rules, tick), tick)
  {
    RoundTruncates(Below(entry, rules.initialMultiple, atr), tick);
    hide RoundToTick;
    hide Truncates;
    hide InitialStop;
    hide Below;
  }

  predicate IsGreatest(m: real, a: real, b: real) { m >= a && m >= b && (m == a || m == b) }

  /** What an update comes to: the highest close goes on to the new one if that is higher, and the trail to the highest of
      itself, the initial stop and its distance below the highest close, rounded to the tick; the effective stop is the
      higher of trail and initial stop. */
  lemma {:induction false} TrailFollows(s: TrailState, close: real, atr: real, rules: StopRules, tick: real)
    requires tick > 0.0
    ensures var next := UpdateTrail(s, close, atr, rules, tick);
            IsGreatest(next.highestClose, s.highestClose, close) && next.stopInitial == s.stopInitial &&
            IsGreatest(next.effective, next.trail, s.stopInitial) &&
            exists x: real, y: real ::
              IsGreatest(x, s.trail, Below(next.highestClose, rules.trailMultiple, atr)) && IsGreatest(y, x, s.stopInitial) &&
              Truncates(y, next.trail, tick)
  {
    var highest := MaxReal(s.highestClose, close);
    var x := MaxReal(s.trail, Below(highest, rules.trailMultiple, atr));
    var y := MaxReal(x, s.stopInitial);
    RoundTruncates(y, tick);
    hide RoundToTick;
    hide Truncates;
    hide Below;
    assert IsGreatest(x, s.trail, Below(highest, rules.trailMultiple, atr)) && IsGreatest(y, x, s.stopInitial);
  }

  /** A new position starts with the entry as its highest close. */
  lemma {:induction false} TrailStarts(entry: real, atr: real, stopInitial: real, rules: StopRules, tick: real)
    requires tick > 0.0
    ensures var first := StartTrail(entry, atr, stopInitial, rules, tick);
            first.highestClose == entry && first.stopInitial == stopInitial &&
            IsGreatest(first.effective, first.trail, stopInitial) &&
            exists x: real :: IsGreatest(x, Below(entry, rules.trailMultiple, atr), stopInitial) && Truncates(x, first.trail, tick)
  {
    var x := MaxReal(Below(entry, rules.trailMultiple, atr), stopInitial);
    RoundTruncates(x, tick);
    hide RoundToTick;
    hide Truncates;
    hide Below;
    assert IsGreatest(x, Below(entry, rules.trailMultiple, atr), stopInitial);
  }

  lemma StartIsConsistent(entry: real, atr: real, stopInitial: real, rules: StopRules, tick: real)
    requires tick > 0.0
    ensures Consistent(StartTrail(entry, atr, stopInitial, rules, tick), tick)
  {
  }

  /** An update never lowers a stop, although it rounds down. */
  lemma {:induction false} TrailNeverLowers(s: TrailState, close: real, atr: real, rules: StopRules, tick: real)
    requires tick > 0.0 && Consistent(s, tick)
    ensures var next := UpdateTrail(s, close, atr, rules, tick);
            Consistent(next, tick) && next.trail >= s.trail && next.effective >= s.effective && next.stopInitial == s.stopInitial
  {
    hide RoundToTick;
    hide Ticks;
    var k: int :| s.trail == Ticks(k, tick);
    var highest := MaxReal(s.highestClose, close);
    RoundKeepsFloor(MaxReal(MaxReal(s.trail, Below(highest, rules.trailMultiple, atr)), s.stopInitial), k, tick);
    RoundOnTick(MaxReal(MaxReal(s.trail, Below(highest, rules.trailMultiple, atr)), s.stopInitial), tick);
  }

  /* ---------- accounting ---------- */

  function Abs(x: real): real { if x < 0.0 then -x else x }

  function EntryFill(reference: real, bps: real): real { reference * (1.0 + bps / 10000.0) }

  function ExitFill(reference: real, bps: real): real { reference * (1.0 - bps / 10000.0) }

  function Fee(notional: real, rate: real): real { notional * rate }

  function SlippageCost(reference: real, fill: real, quantity: real): real { Abs(fill - reference) * quantity }

  function FundingPayment(notional: real, rate: real): real { notional * rate }

  function Margin(notional: real, maxLeverage: real): real {
    if maxLeverage <= 0.0 then notional else notional / maxLeverage
  }

  datatype ExitAccounting = ExitAccounting(fill: real, fee: real, slippage: real, gross: real, walletDelta: real)

  function ExitAccount(reference: real, quantity: real, entryPrice: real, bps: real, feeRate: real): ExitAccounting {
    var fill := ExitFill(reference, bps);
    var fee := Fee(fill * quantity, feeRate);
    var gross := (fill - entryPrice) * quantity;
    ExitAccounting(fill, fee, SlippageCost(reference, fill, quantity), gross, gross - fee)
  }
}
