/** What a backtest's trades are worth: every trade, open or closed, is explained by the bars it was made on, in formulas
    of their own, and no stop that was reached is left standing. */
module BacktestTrades {
  import opened Common
  import opened Timeframes
  import opened OrderedDict
  import opened Backtest
  import opened BacktestSafety
  import Stops

  /* ---------- what a trade must look like ---------- */

  function Distance(a: real, b: real): real { if a < b then b - a else a - b }

  /** A price made dearer, or cheaper, by hundredths of a percent. */
  function Dearer(price: real, bps: real): real { price + price * bps / 10000.0 }

  function Cheaper(price: real, bps: real): real { price - price * bps / 10000.0 }

  function Worth(price: real, quantity: real): real { price * quantity }

  function Share(amount: real, rate: real): real { amount * rate }

  /** What an amount ties up of the wallet. */
  function MarginOf(amount: real, leverage: real): real { if leverage <= 0.0 then amount else amount / leverage }

  /** The price the order was placed at is the open of the entry bar; slippage makes the fill dearer. */
  predicate EntryExplained(c: Config, b: Bundle, t: Trade) {
    var bar := BarAt(Series(b.daily, t.symbol), t.entryTime);
    && bar.Some? && t.entryReference == bar.value.open
    && t.entryFill == Dearer(t.entryReference, c.bps)
    && t.initialRisk == Worth(t.entryFill - t.initialStop, t.quantity)
  }

  /** An open trade has cost its entry fee and what funding was charged. */
  predicate OpenExplained(c: Config, b: Bundle, t: Trade) {
    && EntryExplained(c, b, t) && t.exit.None?
    && t.fees == Share(Worth(t.entryFill, t.quantity), c.entryFee)
    && t.slippage == Worth(Distance(t.entryFill, t.entryReference), t.quantity)
  }

  /** A stop is left at the open if the bar opens below it, else at the stop itself if the low reaches it. */
  predicate StopExplained(bar: Candle, stop: TrailPoint, initial: real, x: ExitInfo) {
    if x.reason.StopGap? then bar.open < stop.effective && x.reference == bar.open
    else
      && bar.low <= stop.effective <= bar.open && x.reference == stop.effective
      && (x.reason.StopTrailing? <==> stop.trail >= initial)
  }

  /** A closed trade earned the quantity times the price difference of its two fills, less both fees and the funding. */
  predicate ClosedExplained(c: Config, b: Bundle, t: Trade) {
    && EntryExplained(c, b, t) && t.exit.Some? && t.trail != []
    && var x := t.exit.value;
       var bar := BarAt(Series(b.daily, t.symbol), x.time);
       && bar.Some? && StopExplained(bar.value, t.trail[|t.trail| - 1], t.initialStop, x)
       && x.fill == Cheaper(x.reference, c.bps)
       && t.fees == Share(Worth(t.entryFill, t.quantity), c.entryFee) + Share(Worth(x.fill, t.quantity), c.exitFee)
       && t.slippage == Worth(Distance(t.entryFill, t.entryReference), t.quantity) +
                        Worth(Distance(x.fill, x.reference), t.quantity)
       && x.gross == Worth(x.fill - t.entryFill, t.quantity)
       && x.net == x.gross - t.fees - t.funding
       && x.rMultiple == (if t.initialRisk == 0.0 then None else Some(x.net / t.initialRisk))
       && x.holdingDays == (x.time - t.entryTime) / DAY
  }

  /** A position and its open trade tell the same story. */
  ghost predicate SameStory(c: Config, k: Sym, p: Position, t: Trade) {
    && p.symbol == k && t.symbol == k && p.id == t.id && p.quantity == t.quantity && p.entryPrice == t.entryFill
    && p.entryTime == t.entryTime && p.levels.stopInitial == t.initialStop
    && p.margin == MarginOf(Worth(t.entryFill, t.quantity), c.maxLeverage)
    && (c.tick(k) > 0.0 ==>
          Stops.Truncates(Stops.Below(t.entryFill, c.rules.initialMultiple, p.entryAtr), t.initialStop, c.tick(k)))
  }

  predicate TrailEnds(trail: seq<TrailPoint>, p: Position) {
    && trail != [] && trail[|trail| - 1].trail == p.levels.trail && trail[|trail| - 1].effective == p.levels.effective
  }

  ghost predicate KeyExplained(c: Config, b: Bundle, s: State, k: Sym)
    requires Has(s.positions, k)
  {
    && Has(s.active, k) && SameStory(c, k, Get(s.positions, k), Get(s.active, k))
    && OpenExplained(c, b, Get(s.active, k)) && k in s.trails && TrailEnds(s.trails[k], Get(s.positions, k))
  }

  ghost predicate Explained(c: Config, b: Bundle, s: State) {
    && (forall k :: Has(s.positions, k) ==> KeyExplained(c, b, s, k))
    && (forall i :: 0 <= i < |s.closed| ==> ClosedExplained(c, b, s.closed[i]))
  }

  /** The bar is the one the bundle holds for the symbol and time. */
  predicate Held(b: Bundle, k: Sym, bar: Candle) { BarAt(Series(b.daily, k), bar.openTime) == Some(bar) }

  ghost predicate ViewHeld(b: Bundle, v: DayView) { forall k :: k in v.bars ==> Held(b, k, v.bars[k]) }

  lemma ViewIsHeld(c: Config, b: Bundle, t: Time)
    ensures ViewHeld(b, ViewOf(c, b, t))
  {
    var bars := BarsOn(c, b, t);
    forall k | k in bars ensures Held(b, k, bars[k]) {
      BarAtIsAt(Series(b.daily, k), t);
    }
    assert ViewOf(c, b, t).bars == bars;
  }

  /* ---------- opening ---------- */

  lemma NewTradeParts(c: Config, intent: Pending, bar: Candle, fill: real, stop: real, quantity: real, trail: seq<TrailPoint>)
    ensures var t := NewTrade(c, intent, bar, fill, stop, quantity, trail);
            && t.symbol == intent.symbol && t.id == intent.id && t.entryTime == bar.openTime && t.entryReference == bar.open
            && t.entryFill == fill && t.quantity == quantity && t.initialStop == stop && t.exit.None?
            && t.fees == Share(Worth(fill, quantity), c.entryFee)
            && t.slippage == Worth(Distance(fill, bar.open), quantity) && t.initialRisk == Worth(fill - stop, quantity)
  {
    EntryTermsAre(c, bar.open, fill, stop, quantity);
    hide Worth;
    hide Share;
    hide Distance;
    hide Stops.Fee;
    hide Stops.SlippageCost;
  }

  lemma NewPositionParts(c: Config, intent: Pending, bar: Candle, fill: real, stop: real, quantity: real)
    requires c.tick(intent.symbol) > 0.0
    ensures var p := NewPosition(c, intent, bar, fill, stop, quantity);
            && p.symbol == intent.symbol && p.id == intent.id && p.quantity == quantity && p.entryPrice == fill
            && p.entryTime == bar.openTime && p.entryAtr == intent.atr && p.levels.stopInitial == stop
            && p.margin == MarginOf(Worth(fill, quantity), c.maxLeverage)
  {
    EntryTermsAre(c, bar.open, fill, stop, quantity);
    StartLevels(fill, intent.atr, stop, c.rules, c.tick(intent.symbol));
    hide Worth;
    hide MarginOf;
    hide Stops.Margin;
    hide Stops.StartTrail;
  }

  lemma NewTradeExplained(c: Config, b: Bundle, intent: Pending, bar: Candle, quantity: real, trail: seq<TrailPoint>)
    requires c.tick(intent.symbol) > 0.0 && Held(b, intent.symbol, bar)
    ensures var fill := Stops.EntryFill(bar.open, c.bps);
            var stop := Stops.InitialStop(fill, intent.atr, c.rules, c.tick(intent.symbol));
            var t := NewTrade(c, intent, bar, fill, stop, quantity, trail);
            OpenExplained(c, b, t) && SameStory(c, intent.symbol, NewPosition(c, intent, bar, fill, stop, quantity), t)
  {
    hide NewTrade;
    hide NewPosition;
    hide BarAt;
    hide Worth;
    hide Share;
    hide Dearer;
    hide Distance;
    hide MarginOf;
    hide Stops.Truncates;
    hide Stops.Below;
    hide Stops.InitialStop;
    hide Stops.EntryFill;
    var fill := Stops.EntryFill(bar.open, c.bps);
    var stop := Stops.InitialStop(fill, intent.atr, c.rules, c.tick(intent.symbol));
    FillIsDearer(bar.open, c.bps);
    NewTradeParts(c, intent, bar, fill, stop, quantity, trail);
    NewPositionParts(c, intent, bar, fill, stop, quantity);
    Stops.InitialStopIs(fill, intent.atr, c.rules, c.tick(intent.symbol));
  }

  lemma FillIsDearer(reference: real, bps: real)
    ensures Stops.EntryFill(reference, bps) == Dearer(reference, bps)
  {
  }

  lemma StartLevels(entry: real, atr: real, stop: real, rules: Stops.StopRules, tick: real)
    requires tick > 0.0
    ensures Stops.StartTrail(entry, atr, stop, rules, tick).stopInitial == stop
  {
  }

  lemma EntryTermsAre(c: Config, reference: real, fill: real, stop: real, quantity: real)
    ensures Stops.EntryFill(reference, c.bps) == Dearer(reference, c.bps)
    ensures Stops.Fee(fill * quantity, c.entryFee) == Share(Worth(fill, quantity), c.entryFee)
    ensures Stops.SlippageCost(reference, fill, quantity) == Worth(Distance(fill, reference), quantity)
    ensures quantity * (fill - stop) == Worth(fill - stop, quantity)
    ensures Stops.Margin(fill * quantity, c.maxLeverage) == MarginOf(Worth(fill, quantity), c.maxLeverage)
  {
  }

  lemma OpenedParts(c: Config, s: State, intent: Pending, bar: Candle, fill: real, stop: real, quantity: real)
    requires c.tick(intent.symbol) > 0.0
    ensures var p := NewPosition(c, intent, bar, fill, stop, quantity);
            var trail := [TrailPoint(bar.openTime, p.levels.trail, p.levels.effective)];
            var after := Opened(c, s, intent, bar, fill, stop, quantity);
            after.positions == Put(s.positions, intent.symbol, p) && after.trails == s.trails[intent.symbol := trail] &&
            after.active == Put(s.active, intent.symbol, NewTrade(c, intent, bar, fill, stop, quantity, trail)) &&
            after.closed == s.closed
  {
  }

  lemma OpenKeeps(c: Config, b: Bundle, s: State, intent: Pending, bar: Candle, quantity: real)
    requires Explained(c, b, s) && c.tick(intent.symbol) > 0.0 && Held(b, intent.symbol, bar)
    ensures var fill := Stops.EntryFill(bar.open, c.bps);
            var stop := Stops.InitialStop(fill, intent.atr, c.rules, c.tick(intent.symbol));
            Explained(c, b, Opened(c, s, intent, bar, fill, stop, quantity))
  {
    var k := intent.symbol;
    var fill := Stops.EntryFill(bar.open, c.bps);
    var stop := Stops.InitialStop(fill, intent.atr, c.rules, c.tick(k));
    var p := NewPosition(c, intent, bar, fill, stop, quantity);
    var trail := [TrailPoint(bar.openTime, p.levels.trail, p.levels.effective)];
    var t := NewTrade(c, intent, bar, fill, stop, quantity, trail);
    NewTradeExplained(c, b, intent, bar, quantity, trail);
    OpenedParts(c, s, intent, bar, fill, stop, quantity);
    hide Opened;
    hide NewPosition;
    hide NewTrade;
    hide OpenExplained;
    hide ClosedExplained;
    hide SameStory;
    hide Put;
    hide Has;
    hide Get;
    hide Held;
    hide Stops.InitialStop;
    hide Stops.EntryFill;
    var after := Opened(c, s, intent, bar, fill, stop, quantity);
    forall x | Has(after.positions, x) ensures KeyExplained(c, b, after, x) {
      GetPut(s.positions, k, p, x);
      GetPut(s.active, k, t, x);
      assert x != k ==> KeyExplained(c, b, s, x);
    }
  }

  /* ---------- leaving ---------- */

  lemma TriggerExplained(p: Position, bar: Candle, atOpen: bool, stop: TrailPoint, x: ExitInfo)
    requires TriggerFor(p, bar, atOpen).Some? && stop.trail == p.levels.trail && stop.effective == p.levels.effective
    requires x.reason == TriggerFor(p, bar, atOpen).value.reason && x.reference == TriggerFor(p, bar, atOpen).value.exitReference
    ensures StopExplained(bar, stop, p.levels.stopInitial, x)
  {
  }

  lemma ClosedTradeExplained(c: Config, b: Bundle, k: Sym, p: Position, t: Trade, bar: Candle, atOpen: bool,
                             trail: seq<TrailPoint>)
    requires SameStory(c, k, p, t) && OpenExplained(c, b, t) && Held(b, k, bar) && TrailEnds(trail, p)
    requires TriggerFor(p, bar, atOpen).Some?
    ensures var trigger := TriggerFor(p, bar, atOpen).value;
            var a := Stops.ExitAccount(trigger.exitReference, p.quantity, p.entryPrice, c.bps, c.exitFee);
            ClosedExplained(c, b, ClosedTrade(t, bar, trigger, a, trail))
  {
    var trigger := TriggerFor(p, bar, atOpen).value;
    var a := Stops.ExitAccount(trigger.exitReference, p.quantity, p.entryPrice, c.bps, c.exitFee);
    ExitAccountIs(trigger.exitReference, p.quantity, p.entryPrice, c.bps, c.exitFee);
    var u := ClosedTrade(t, bar, trigger, a, trail);
    TriggerExplained(p, bar, atOpen, trail[|trail| - 1], u.exit.value);
    hide BarAt;
    hide TriggerFor;
    hide StopExplained;
    hide Worth;
    hide Share;
    hide Cheaper;
    hide Dearer;
    hide Distance;
    hide MarginOf;
    hide Stops.ExitAccount;
    hide Stops.Truncates;
    hide Stops.Below;
  }

  /** What an exit is worth, in formulas of its own. */
  lemma ExitAccountIs(reference: real, quantity: real, entryPrice: real, bps: real, feeRate: real)
    ensures var a := Stops.ExitAccount(reference, quantity, entryPrice, bps, feeRate);
            a.fill == Cheaper(reference, bps) && a.fee == Share(Worth(a.fill, quantity), feeRate) &&
            a.slippage == Worth(Distance(a.fill, reference), quantity) && a.gross == Worth(a.fill - entryPrice, quantity) &&
            a.walletDelta == a.gross - a.fee
  {
  }

  lemma ExitedParts(c: Config, s: State, p: Position, k: Sym, bar: Candle, trigger: Stops.Trigger)
    requires Has(s.active, k)
    ensures var a := Stops.ExitAccount(trigger.exitReference, p.quantity, p.entryPrice, c.bps, c.exitFee);
            var after := Exited(c, s, p, k, bar, trigger);
            after.positions == Remove(s.positions, k) && after.active == Remove(s.active, k) && after.trails == s.trails - {k} &&
            after.closed == s.closed + [ClosedTrade(Get(s.active, k), bar, trigger, a, TrailOf(s, k))] &&
            after.cash == s.cash + a.walletDelta
  {
    hide Remove;
    hide Has;
    hide Get;
    hide Stops.ExitAccount;
  }

  lemma ExitKeeps(c: Config, b: Bundle, s: State, k: Sym, bar: Candle, atOpen: bool)
    requires Explained(c, b, s) && Paired(s) && Has(s.positions, k) && Held(b, k, bar)
    requires TriggerFor(Get(s.positions, k), bar, atOpen).Some?
    ensures Explained(c, b, Exited(c, s, Get(s.positions, k), k, bar, TriggerFor(Get(s.positions, k), bar, atOpen).value))
  {
    var p := Get(s.positions, k);
    var trigger := TriggerFor(p, bar, atOpen).value;
    var after := Exited(c, s, p, k, bar, trigger);
    assert KeyExplained(c, b, s, k);
    ClosedTradeExplained(c, b, k, p, Get(s.active, k), bar, atOpen, s.trails[k]);
    ExitedParts(c, s, p, k, bar, trigger);
    DistinctRemove(s.positions, k);
    hide TriggerFor;
    hide Exited;
    hide ClosedTrade;
    hide OpenExplained;
    hide ClosedExplained;
    hide SameStory;
    hide Remove;
    hide Has;
    hide Get;
    hide Keys;
    hide Distinct;
    hide Held;
    hide Stops.ExitAccount;
    forall x | Has(after.positions, x) ensures KeyExplained(c, b, after, x) {
      GetRemove(s.positions, k, x);
      GetRemove(s.active, k, x);
      assert KeyExplained(c, b, s, x);
    }
  }

  lemma CheckKeeps(c: Config, b: Bundle, s: State, k: Sym, bar: Candle, atOpen: bool)
    requires Explained(c, b, s) && Paired(s) && Held(b, k, bar)
    ensures Explained(c, b, CheckStop(c, s, k, bar, atOpen))
  {
    hide Explained;
    hide Paired;
    hide TriggerFor;
    hide Exited;
    if Has(s.positions, k) && TriggerFor(Get(s.positions, k), bar, atOpen).Some? {
      ExitKeeps(c, b, s, k, bar, atOpen);
    }
  }

  /* ---------- the other steps ---------- */

  lemma SameExplained(c: Config, b: Bundle, s: State, after: State)
    requires after.positions == s.positions && after.active == s.active && after.trails == s.trails && after.closed == s.closed
    ensures Explained(c, b, after) == Explained(c, b, s)
  {
    hide Has;
    hide Get;
    hide OpenExplained;
    hide ClosedExplained;
    hide SameStory;
    forall k | Has(s.positions, k) ensures KeyExplained(c, b, after, k) == KeyExplained(c, b, s, k) {
    }
  }

  lemma ChargeExplained(c: Config, b: Bundle, s: State, k: Sym, payment: real)
    requires Explained(c, b, s)
    ensures Explained(c, b, Charge(s, k, payment))
  {
    hide OpenExplained;
    hide ClosedExplained;
    hide SameStory;
    hide Put;
    hide Has;
    hide Get;
    var after := Charge(s, k, payment);
    if Has(s.active, k) {
      var t := Get(s.active, k).(funding := Get(s.active, k).funding + payment);
      forall x | Has(after.positions, x) ensures KeyExplained(c, b, after, x) {
        assert KeyExplained(c, b, s, x);
        GetPut(s.active, k, t, x);
        FundingIsOutside(c, b, x, Get(s.positions, x), Get(s.active, k), payment);
      }
    } else {
      SameExplained(c, b, s, after);
    }
  }

  lemma FundingIsOutside(c: Config, b: Bundle, k: Sym, p: Position, t: Trade, payment: real)
    ensures var u := t.(funding := t.funding + payment);
            OpenExplained(c, b, u) == OpenExplained(c, b, t) && SameStory(c, k, p, u) == SameStory(c, k, p, t)
  {
    hide Stops.Truncates;
    hide Stops.Below;
    hide BarAt;
  }

  lemma {:induction false} ChargeAllExplained(c: Config, b: Bundle, s: State, k: Sym, notional: real, events: seq<Funding>)
    requires Explained(c, b, s)
    ensures Explained(c, b, ChargeEvents(s, k, notional, events))
    decreases |events|
  {
    hide Explained;
    hide Charge;
    if events != [] {
      var payment := Stops.FundingPayment(notional, events[0].rate);
      ChargeExplained(c, b, s, k, payment);
      ChargeAllExplained(c, b, Charge(s, k, payment), k, notional, events[1..]);
    }
  }

  lemma TrailExplained(c: Config, b: Bundle, s: State, v: DayView, k: Sym)
    requires c.Valid() && Explained(c, b, s)
    ensures Explained(c, b, TrailSymbol(c, s, v, k))
  {
    hide OpenExplained;
    hide ClosedExplained;
    hide Put;
    hide Has;
    hide Get;
    hide LatestAtr;
    hide Stops.RoundToTick;
    hide Stops.Truncates;
    hide Stops.Below;
    var after := TrailSymbol(c, s, v, k);
    if k in v.bars && Has(s.positions, k) && k in v.withHistory {
      var p := Get(s.positions, k);
      var levels := Stops.UpdateTrail(p.levels, v.bars[k].close, LatestAtr(s.evaluations, k, p.entryAtr), c.rules, c.tick(k));
      assert levels.stopInitial == p.levels.stopInitial;
      forall x | Has(after.positions, x) ensures KeyExplained(c, b, after, x) {
        assert KeyExplained(c, b, s, k);
        GetPut(s.positions, k, p.(levels := levels), x);
        assert x != k ==> KeyExplained(c, b, s, x);
        hide Stops.UpdateTrail;
      }
    }
  }

  lemma FillExplained(c: Config, b: Bundle, s: State, v: DayView, intent: Pending, bar: Candle)
    requires Inv(c, s) && Explained(c, b, s) && !Has(s.positions, intent.symbol) && !HasPending(s, intent.symbol)
    requires Held(b, intent.symbol, bar)
    ensures Explained(c, b, FillIntent(c, s, v, intent, bar))
  {
    assert c.tick(intent.symbol) > 0.0;
    hide Inv;
    hide Explained;
    hide Held;
    hide Has;
    hide HasPending;
    hide ProposalFor;
    hide Opened;
    hide CheckStop;
    hide Stops.InitialStop;
    hide Stops.EntryFill;
    hide RejectionCodes;
    if intent.id !in s.processed {
      var fill := Stops.EntryFill(bar.open, c.bps);
      var stop := Stops.InitialStop(fill, intent.atr, c.rules, c.tick(intent.symbol));
      var decision := c.risk(ProposalFor(s, v, intent, intent.symbol, fill, stop));
      SameExplained(c, b, s, Reject(s, intent, bar, RejectionCodes(decision)));
      SameExplained(c, b, s, Reject(s, intent, bar, [REJECT_LEVERAGE]));
      if decision.quantity.Some? {
        OpenInv(c, s, intent, bar, fill, stop, decision.quantity.value);
        OpenKeeps(c, b, s, intent, bar, decision.quantity.value);
        InvIsPaired(c, Opened(c, s, intent, bar, fill, stop, decision.quantity.value));
        CheckKeeps(c, b, Opened(c, s, intent, bar, fill, stop, decision.quantity.value), intent.symbol, bar, true);
      }
    }
  }

  lemma InvIsPaired(c: Config, s: State)
    requires Inv(c, s)
    ensures Paired(s)
  {
  }

  lemma FillSymbolExplained(c: Config, b: Bundle, s: State, v: DayView, k: Sym)
    requires c.Valid() && Inv(c, s) && Explained(c, b, s) && ViewHeld(b, v)
    ensures Explained(c, b, FillSymbol(c, s, v, k))
  {
    hide Inv;
    hide Explained;
    hide Held;
    hide Has;
    hide HasPending;
    hide FillIntent;
    hide Due;
    KeptInv(c, s, k);
    SameExplained(c, b, s, Kept(s, k));
    var due := Due(s, k);
    if k in v.bars && due != [] {
      FillExplained(c, b, Kept(s, k), v, due[0], v.bars[k]);
      FillOneIntent(c, Kept(s, k), v, due, v.bars[k]);
    }
  }

  lemma FundExplained(c: Config, b: Bundle, s: State, v: DayView, k: Sym)
    requires c.Valid() && Explained(c, b, s) && Paired(s)
    ensures Explained(c, b, FundSymbol(c, s, v, k))
  {
    hide Explained;
    hide Paired;
    hide Has;
    hide Charge;
    hide ChargeEvents;
    if k in v.bars && Has(s.positions, k) {
      var notional := NotionalOf(Get(s.positions, k));
      if c.assumedRate.Some? {
        ChargeExplained(c, b, s, k, Stops.FundingPayment(notional, c.assumedRate.value));
      } else {
        ChargeAllExplained(c, b, s, k, notional, if k in v.funding then v.funding[k] else []);
      }
    }
  }

  lemma PhaseOneExplained(c: Config, b: Bundle, s: State, v: DayView, phase: Phase, k: Sym)
    requires c.Valid() && Inv(c, s) && Explained(c, b, s) && ViewHeld(b, v)
    ensures Explained(c, b, PhaseOne(c, s, v, phase, k))
  {
    InvIsPaired(c, s);
    hide Inv;
    hide Explained;
    hide Held;
    hide Paired;
    hide Has;
    hide FillSymbol;
    hide TrailSymbol;
    hide CheckStop;
    hide FundSymbol;
    match phase {
      case Fill => FillSymbolExplained(c, b, s, v, k);
      case Stop => if k in v.bars { CheckKeeps(c, b, s, k, v.bars[k], false); }
      case Fund => FundExplained(c, b, s, v, k);
      case Evaluate => SameExplained(c, b, s, EvaluateSymbol(c, s, v, k));
      case Trail => TrailExplained(c, b, s, v, k);
    }
  }

  lemma {:induction false} PhaseAllExplained(c: Config, b: Bundle, s: State, v: DayView, phase: Phase, symbols: seq<Sym>)
    requires c.Valid() && Inv(c, s) && Explained(c, b, s) && ViewHeld(b, v)
    ensures Explained(c, b, PhaseAll(c, s, v, phase, symbols)) && Inv(c, PhaseAll(c, s, v, phase, symbols))
    decreases |symbols|
  {
    hide Inv;
    hide Explained;
    hide ViewHeld;
    hide PhaseOne;
    if symbols != [] {
      PhaseOneInv(c, s, v, phase, symbols[0]);
      PhaseOneExplained(c, b, s, v, phase, symbols[0]);
      PhaseAllExplained(c, b, PhaseOne(c, s, v, phase, symbols[0]), v, phase, symbols[1..]);
    }
  }

  lemma DayExplained(c: Config, b: Bundle, s: State, v: DayView)
    requires c.Valid() && Inv(c, s) && Explained(c, b, s) && ViewHeld(b, v)
    ensures Explained(c, b, Day(c, s, v))
  {
    hide Inv;
    hide Explained;
    hide ViewHeld;
    hide PhaseAll;
    hide Unrealized;
    if v.bars != map[] {
      var filled := PhaseAll(c, s, v, Fill, c.symbols);
      var stopped := PhaseAll(c, filled, v, Stop, c.symbols);
      var funded := if c.fundingEnabled then PhaseAll(c, stopped, v, Fund, c.symbols) else stopped;
      var evaluated := PhaseAll(c, funded, v, Evaluate, c.symbols);
      var trailed := PhaseAll(c, evaluated, v, Trail, c.symbols);
      PhaseAllExplained(c, b, s, v, Fill, c.symbols);
      PhaseAllExplained(c, b, filled, v, Stop, c.symbols);
      if c.fundingEnabled {
        PhaseAllExplained(c, b, stopped, v, Fund, c.symbols);
      }
      PhaseAllExplained(c, b, funded, v, Evaluate, c.symbols);
      PhaseAllExplained(c, b, evaluated, v, Trail, c.symbols);
      SameExplained(c, b, trailed, TakeSnapshot(trailed, v));
    }
  }

  /** After any days of any run, every trade is explained by the bars of its entry and its exit: its fills, its fees and
      slippage, why and where it was left, and what it earned; and every position agrees with its open trade. */
  lemma {:induction false} TradesExplained(c: Config, b: Bundle, times: seq<Time>)
    requires c.Valid()
    ensures Explained(c, b, Days(c, b, Start(c), times))
  {
    if times != [] {
      hide Inv;
      hide Explained;
      hide Day;
      hide ViewOf;
      hide ViewHeld;
      var front := times[..|times| - 1];
      TradesExplained(c, b, front);
      RunKeepsInv(c, b, front);
      ViewIsHeld(c, b, times[|times| - 1]);
      DayExplained(c, b, Days(c, b, Start(c), front), ViewOf(c, b, times[|times| - 1]));
    }
  }
}
