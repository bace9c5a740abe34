/** What every step of a backtest keeps: the books balance, every intent is used at most once,
    positions and open trades go together, and a stop never falls while its position lives. */
module BacktestSafety {
  import opened Common
  import opened Timeframes
  import opened OrderedDict
  import opened Backtest
  import Stops

  /* ---------- the invariant ---------- */

  function SumSeq(ts: seq<Trade>, f: Trade -> real): real {
    if ts == [] then 0.0 else SumSeq(ts[..|ts| - 1], f) + f(ts[|ts| - 1])
  }

  function NetOf(t: Trade): real { if t.exit.Some? then t.exit.value.net else 0.0 }

  function FeesOf(t: Trade): real { t.fees }

  function FundingOf(t: Trade): real { t.funding }

  function SlippageOf(t: Trade): real { t.slippage }

  /** What an open trade has cost so far. */
  function CostOf(t: Trade): real { t.fees + t.funding }

  /** Conservation of money: cash is what was put in, plus what closed trades earned, less what open
      trades have cost; and each running total is the sum over all trades. */
  ghost predicate Balanced(c: Config, s: State) {
    && s.cash == c.initialCash + SumSeq(s.closed, NetOf) - SumOf(s.active, CostOf)
    && s.totalFees == SumSeq(s.closed, FeesOf) + SumOf(s.active, FeesOf)
    && s.totalFunding == SumSeq(s.closed, FundingOf) + SumOf(s.active, FundingOf)
    && s.totalSlippage == SumSeq(s.closed, SlippageOf) + SumOf(s.active, SlippageOf)
    && s.realized == SumSeq(s.closed, NetOf)
  }

  /** Open positions and open trades have the same symbols, in the same order, one of each. */
  ghost predicate Paired(s: State) {
    Keys(s.positions) == Keys(s.active) && Distinct(s.positions) && Distinct(s.active)
  }

  function IdOf(t: Trade): IntentId { t.id }

  function ClosedIds(ts: seq<Trade>): multiset<IntentId> {
    if ts == [] then multiset{} else ClosedIds(ts[..|ts| - 1]) + multiset{ts[|ts| - 1].id}
  }

  function RejectedIds(rs: seq<Rejection>): multiset<IntentId> {
    if rs == [] then multiset{} else RejectedIds(rs[..|rs| - 1]) + multiset{rs[|rs| - 1].id}
  }

  /** The intents a run has used: one entry per trade, open or closed, and per rejection. */
  function UsedIds(s: State): multiset<IntentId> {
    ClosedIds(s.closed) + Bag(s.active, IdOf) + RejectedIds(s.rejections)
  }

  /** The processed ids are the initial ones plus the used ones; no id is used twice, nor an initial one. */
  ghost predicate UsedOnce(c: Config, s: State) {
    && c.initialIds <= s.processed
    && s.orders.Keys == s.processed - c.initialIds
    && forall id :: UsedIds(s)[id] == if id in s.processed && id !in c.initialIds then 1 else 0
  }

  /** At most one intent waits per symbol, and only for a symbol without a position. */
  ghost predicate OneEach(s: State) {
    && (forall i, j :: 0 <= i < j < |s.pending| ==> s.pending[i].symbol != s.pending[j].symbol)
    && (forall i :: 0 <= i < |s.pending| ==> !Has(s.positions, s.pending[i].symbol))
  }

  ghost predicate Rises(trail: seq<TrailPoint>) {
    forall i, j :: 0 <= i <= j < |trail| ==> trail[i].effective <= trail[j].effective
  }

  /** The recorded stop levels of a position rise, and the last one is its current level. */
  ghost predicate Follows(c: Config, s: State, k: Sym, p: Position) {
    && c.tick(k) > 0.0 && Stops.Consistent(p.levels, c.tick(k))
    && k in s.trails && s.trails[k] != [] && Rises(s.trails[k])
    && s.trails[k][|s.trails[k]| - 1].effective == p.levels.effective
  }

  ghost predicate Rising(c: Config, s: State) {
    && (forall k :: Has(s.positions, k) ==> Follows(c, s, k, Get(s.positions, k)))
    && (forall i :: 0 <= i < |s.closed| ==> Rises(s.closed[i].trail))
  }

  ghost predicate Inv(c: Config, s: State) {
    c.Valid() && Balanced(c, s) && Paired(s) && UsedOnce(c, s) && OneEach(s) && Rising(c, s)
  }

  lemma SumSeqSnoc(ts: seq<Trade>, t: Trade, f: Trade -> real)
    ensures SumSeq(ts + [t], f) == SumSeq(ts, f) + f(t)
  {
    assert (ts + [t])[..|ts|] == ts;
  }

  lemma StartInv(c: Config)
    requires c.Valid()
    ensures Inv(c, Start(c))
  {
    assert Keys(Start(c).positions) == Keys(Start(c).active);
  }

  /* ---------- opening ---------- */

  lemma OpenBalances(c: Config, s: State, intent: Pending, bar: Candle, fill: real, stop: real, quantity: real)
    requires c.Valid() && Balanced(c, s) && !Has(s.active, intent.symbol)
    ensures Balanced(c, Opened(c, s, intent, bar, fill, stop, quantity))
  {
    hide Put;
    hide Has;
    hide Stops.StartTrail;
    hide Stops.SlippageCost;
    hide Stops.Fee;
    var after := Opened(c, s, intent, bar, fill, stop, quantity);
    var trade := TradeOf(c, s, intent, bar, fill, stop, quantity);
    SumPut(s.active, intent.symbol, trade, CostOf);
    SumPut(s.active, intent.symbol, trade, FeesOf);
    SumPut(s.active, intent.symbol, trade, FundingOf);
    SumPut(s.active, intent.symbol, trade, SlippageOf);
  }

  /** The trade that opening an intent adds. */
  function TradeOf(c: Config, s: State, intent: Pending, bar: Candle, fill: real, stop: real, quantity: real): (t: Trade)
    requires c.tick(intent.symbol) > 0.0
    ensures Opened(c, s, intent, bar, fill, stop, quantity).active == Put(s.active, intent.symbol, t)
    ensures t.id == intent.id && t.exit.None? && t.funding == 0.0
    ensures t.fees == Stops.Fee(fill * quantity, c.entryFee) && t.slippage == Stops.SlippageCost(bar.open, fill, quantity)
  {
    var levels := NewPosition(c, intent, bar, fill, stop, quantity).levels;
    NewTrade(c, intent, bar, fill, stop, quantity, [TrailPoint(bar.openTime, levels.trail, levels.effective)])
  }

  lemma OpenPairs(c: Config, s: State, intent: Pending, bar: Candle, fill: real, stop: real, quantity: real)
    requires c.Valid() && Paired(s)
    ensures var after := Opened(c, s, intent, bar, fill, stop, quantity);
            Paired(after) && forall k :: Has(after.positions, k) <==> k == intent.symbol || Has(s.positions, k)
  {
    hide Put;
    hide Has;
    hide Keys;
    hide Distinct;
    hide Stops.StartTrail;
    var after := Opened(c, s, intent, bar, fill, stop, quantity);
    var trade := TradeOf(c, s, intent, bar, fill, stop, quantity);
    var p := NewPosition(c, intent, bar, fill, stop, quantity);
    assert after.positions == Put(s.positions, intent.symbol, p);
    SameKeysPut(s.positions, s.active, intent.symbol, p, trade);
    DistinctPut(s.positions, intent.symbol, p);
    DistinctPut(s.active, intent.symbol, trade);
  }

  /** Using an unused id once more keeps the account of ids. */
  lemma UseOne(c: Config, s: State, after: State, id: IntentId, status: OrderStatus)
    requires UsedOnce(c, s) && id !in s.processed
    requires after.processed == s.processed + {id} && after.orders == s.orders[id := status]
    requires UsedIds(after) == UsedIds(s) + multiset{id}
    ensures UsedOnce(c, after)
  {
    hide UsedIds;
  }

  lemma AddMiddle(a: multiset<IntentId>, b: multiset<IntentId>, r: multiset<IntentId>, x: multiset<IntentId>)
    ensures a + (b + x) + r == (a + b + r) + x
    ensures a + b + (r + x) == (a + b + r) + x
    ensures (a + x) + b + r == (a + b + r) + x
  {
  }

  lemma OpenUses(c: Config, s: State, intent: Pending, bar: Candle, fill: real, stop: real, quantity: real)
    requires c.Valid() && UsedOnce(c, s) && !Has(s.active, intent.symbol) && intent.id !in s.processed
    ensures UsedOnce(c, Opened(c, s, intent, bar, fill, stop, quantity))
  {
    hide Put;
    hide Has;
    hide Bag;
    hide UsedOnce;
    hide ClosedIds;
    hide RejectedIds;
    hide Stops.StartTrail;
    hide Stops.SlippageCost;
    hide Stops.Fee;
    var after := Opened(c, s, intent, bar, fill, stop, quantity);
    var trade := TradeOf(c, s, intent, bar, fill, stop, quantity);
    BagPutNew(s.active, intent.symbol, trade, IdOf);
    AddMiddle(ClosedIds(s.closed), Bag(s.active, IdOf), RejectedIds(s.rejections), multiset{intent.id});
    UseOne(c, s, after, intent.id, Filled);
  }

  lemma GetPut<V>(d: Dict<V>, k: Sym, v: V, x: Sym)
    ensures Has(Put(d, k, v), x) <==> x == k || Has(d, x)
    ensures Has(Put(d, k, v), x) ==> Get(Put(d, k, v), x) == if x == k then v else Get(d, x)
  {
    var e := Put(d, k, v);
    var i, j := IndexOf(e, x), IndexOf(d, x);
    HasIff(d, x);
    HasIff(e, x);
    if Has(d, x) {
      assert e[j].0 == x;
    } else if x == k {
      assert e[|d|].0 == x;
    }
    if Has(e, x) && x != k {
      assert e[i] == d[i];
    }
  }

  lemma GetRemove<V>(d: Dict<V>, k: Sym, x: Sym)
    requires Distinct(d) && x != k
    ensures Has(Remove(d, k), x) == Has(d, x)
    ensures Has(d, x) ==> Get(Remove(d, k), x) == Get(d, x)
  {
    DistinctRemove(d, k);
    if Has(d, k) && Has(d, x) {
      var e := Remove(d, k);
      var i, j := IndexOf(d, k), IndexOf(d, x);
      var n := if j < i then j else j - 1;
      assert e[n] == d[j];
      assert IndexOf(e, x) == n by {
        assert e[IndexOf(e, x)].0 == x;
        DistinctPosition(e, n, IndexOf(e, x));
      }
    }
  }

  lemma DistinctPosition<V>(d: Dict<V>, i: nat, j: nat)
    requires Distinct(d) && i < |d| && j < |d| && d[i].0 == d[j].0
    ensures i == j
  {
  }

  lemma OpenRises(c: Config, s: State, intent: Pending, bar: Candle, fill: real, stop: real, quantity: real)
    requires c.Valid() && Rising(c, s)
    ensures Rising(c, Opened(c, s, intent, bar, fill, stop, quantity))
  {
    var after := Opened(c, s, intent, bar, fill, stop, quantity);
    hide Put;
    hide Has;
    hide Get;
    hide Stops.StartTrail;
    hide Stops.Consistent;
    Stops.StartIsConsistent(fill, intent.atr, stop, c.rules, c.tick(intent.symbol));
    var p := NewPosition(c, intent, bar, fill, stop, quantity);
    forall k | Has(after.positions, k) ensures Follows(c, after, k, Get(after.positions, k)) {
      GetPut(s.positions, intent.symbol, p, k);
    }
  }

  /* ---------- leaving ---------- */

  lemma ExitBalances(c: Config, s: State, p: Position, symbol: Sym, bar: Candle, trigger: Stops.Trigger)
    requires Balanced(c, s) && Has(s.active, symbol)
    ensures Balanced(c, Exited(c, s, p, symbol, bar, trigger))
  {
    hide Remove;
    hide Has;
    hide Get;
    hide SafeRatio;
    var a := Stops.ExitAccount(trigger.exitReference, p.quantity, p.entryPrice, c.bps, c.exitFee);
    assert a.walletDelta == a.gross - a.fee;
    hide Stops.ExitAccount;
    var old0 := Get(s.active, symbol);
    var trade := ClosedTrade(old0, bar, trigger, a, TrailOf(s, symbol));
    SumRemove(s.active, symbol, CostOf);
    SumRemove(s.active, symbol, FeesOf);
    SumRemove(s.active, symbol, FundingOf);
    SumRemove(s.active, symbol, SlippageOf);
    SumSeqSnoc(s.closed, trade, NetOf);
    SumSeqSnoc(s.closed, trade, FeesOf);
    SumSeqSnoc(s.closed, trade, FundingOf);
    SumSeqSnoc(s.closed, trade, SlippageOf);
  }

  lemma ExitPairs(c: Config, s: State, p: Position, symbol: Sym, bar: Candle, trigger: Stops.Trigger)
    requires Paired(s) && Has(s.active, symbol)
    ensures var after := Exited(c, s, p, symbol, bar, trigger);
            Paired(after) && forall k :: Has(after.positions, k) <==> k != symbol && Has(s.positions, k)
  {
    hide Remove;
    hide Has;
    hide Keys;
    hide Distinct;
    hide ClosedTrade;
    SameKeysRemove(s.positions, s.active, symbol);
    DistinctRemove(s.positions, symbol);
    DistinctRemove(s.active, symbol);
  }

  lemma ExitUses(c: Config, s: State, p: Position, symbol: Sym, bar: Candle, trigger: Stops.Trigger)
    requires UsedOnce(c, s) && Has(s.active, symbol)
    ensures UsedOnce(c, Exited(c, s, p, symbol, bar, trigger))
  {
    hide Remove;
    hide Has;
    hide Get;
    hide SafeRatio;
    hide Stops.ExitAccount;
    var after := Exited(c, s, p, symbol, bar, trigger);
    var a := Stops.ExitAccount(trigger.exitReference, p.quantity, p.entryPrice, c.bps, c.exitFee);
    var trade := ClosedTrade(Get(s.active, symbol), bar, trigger, a, TrailOf(s, symbol));
    BagRemove(s.active, symbol, IdOf);
    assert (s.closed + [trade])[..|s.closed|] == s.closed;
    assert ClosedIds(after.closed) == ClosedIds(s.closed) + multiset{Get(s.active, symbol).id};
    assert UsedIds(after) == UsedIds(s);
  }

  lemma ExitRises(c: Config, s: State, p: Position, symbol: Sym, bar: Candle, trigger: Stops.Trigger)
    requires Rising(c, s) && Paired(s) && Has(s.positions, symbol)
    ensures Rising(c, Exited(c, s, p, symbol, bar, trigger))
  {
    IndexByKeys(s.positions, s.active, symbol);
    hide Remove;
    hide Has;
    hide Get;
    hide Keys;
    hide Distinct;
    hide SafeRatio;
    hide Stops.ExitAccount;
    hide Stops.Consistent;
    var after := Exited(c, s, p, symbol, bar, trigger);
    assert Follows(c, s, symbol, Get(s.positions, symbol));
    DistinctRemove(s.positions, symbol);
    forall k | Has(after.positions, k) ensures Follows(c, after, k, Get(after.positions, k)) {
      GetRemove(s.positions, symbol, k);
    }
  }

  lemma FewerPositions(s: State, after: State)
    requires OneEach(s) && after.pending == s.pending
    requires forall k :: Has(after.positions, k) ==> Has(s.positions, k)
    ensures OneEach(after)
  {
  }

  lemma CheckStopInv(c: Config, s: State, symbol: Sym, bar: Candle, atOpen: bool)
    requires Inv(c, s)
    ensures Inv(c, CheckStop(c, s, symbol, bar, atOpen))
    ensures CheckStop(c, s, symbol, bar, atOpen).pending == s.pending
  {
    hide Balanced;
    hide UsedOnce;
    hide Rising;
    hide Distinct;
    hide Keys;
    hide OneEach;
    hide TriggerFor;
    hide ClosedTrade;
    IndexByKeysIfPaired(s, symbol);
    if Has(s.positions, symbol) && TriggerFor(Get(s.positions, symbol), bar, atOpen).Some? {
      var p, trigger := Get(s.positions, symbol), TriggerFor(Get(s.positions, symbol), bar, atOpen).value;
      ExitKeepsInv(c, s, p, symbol, bar, trigger);
    }
  }

  lemma IndexByKeysIfPaired(s: State, symbol: Sym)
    requires Paired(s)
    ensures Has(s.active, symbol) == Has(s.positions, symbol)
  {
    IndexByKeys(s.positions, s.active, symbol);
  }

  lemma ExitKeepsInv(c: Config, s: State, p: Position, symbol: Sym, bar: Candle, trigger: Stops.Trigger)
    requires Inv(c, s) && Has(s.positions, symbol)
    ensures Inv(c, Exited(c, s, p, symbol, bar, trigger)) && Exited(c, s, p, symbol, bar, trigger).pending == s.pending
  {
    hide Balanced;
    hide UsedOnce;
    hide Rising;
    hide Paired;
    hide OneEach;
    hide Has;
    hide ClosedTrade;
    IndexByKeysIfPaired(s, symbol);
    ExitBalances(c, s, p, symbol, bar, trigger);
    ExitPairs(c, s, p, symbol, bar, trigger);
    ExitUses(c, s, p, symbol, bar, trigger);
    ExitRises(c, s, p, symbol, bar, trigger);
    FewerPositions(s, Exited(c, s, p, symbol, bar, trigger));
  }

  /* ---------- filling ---------- */

  lemma RejectInv(c: Config, s: State, intent: Pending, bar: Candle, codes: seq<string>)
    requires Inv(c, s) && intent.id !in s.processed
    ensures Inv(c, Reject(s, intent, bar, codes)) && Reject(s, intent, bar, codes).pending == s.pending
  {
    hide Balanced;
    hide Paired;
    hide OneEach;
    hide Rising;
    RejectUses(c, s, intent, bar, codes);
    SameBooks(c, s, Reject(s, intent, bar, codes));
  }

  lemma RejectUses(c: Config, s: State, intent: Pending, bar: Candle, codes: seq<string>)
    requires UsedOnce(c, s) && intent.id !in s.processed
    ensures UsedOnce(c, Reject(s, intent, bar, codes))
  {
    hide Bag;
    hide UsedOnce;
    hide ClosedIds;
    var after := Reject(s, intent, bar, codes);
    assert after.rejections[..|s.rejections|] == s.rejections;
    AddMiddle(ClosedIds(s.closed), Bag(s.active, IdOf), RejectedIds(s.rejections), multiset{intent.id});
    UseOne(c, s, after, intent.id, Rejected);
  }

  lemma SameBooks(c: Config, s: State, after: State)
    requires after.cash == s.cash && after.positions == s.positions && after.active == s.active && after.closed == s.closed
    requires after.totalFees == s.totalFees && after.totalFunding == s.totalFunding && after.totalSlippage == s.totalSlippage
    requires after.realized == s.realized && after.trails == s.trails && after.pending == s.pending
    ensures Balanced(c, after) == Balanced(c, s) && Paired(after) == Paired(s) && Rising(c, after) == Rising(c, s)
    ensures OneEach(after) == OneEach(s)
  {
    hide SumSeq;
    hide SumOf;
    forall k | Has(s.positions, k)
      ensures Follows(c, after, k, Get(after.positions, k)) == Follows(c, s, k, Get(s.positions, k)) {
    }
  }

  lemma OpenInv(c: Config, s: State, intent: Pending, bar: Candle, fill: real, stop: real, quantity: real)
    requires Inv(c, s) && intent.id !in s.processed && !Has(s.positions, intent.symbol) && !HasPending(s, intent.symbol)
    ensures var after := Opened(c, s, intent, bar, fill, stop, quantity); Inv(c, after) && after.pending == s.pending
  {
    hide Balanced;
    hide Rising;
    hide UsedOnce;
    hide Paired;
    hide Put;
    hide Has;
    hide Stops.StartTrail;
    IndexByKeysIfPaired(s, intent.symbol);
    OpenBalances(c, s, intent, bar, fill, stop, quantity);
    OpenPairs(c, s, intent, bar, fill, stop, quantity);
    OpenUses(c, s, intent, bar, fill, stop, quantity);
    OpenRises(c, s, intent, bar, fill, stop, quantity);
  }

  lemma FillIntentInv(c: Config, s: State, v: DayView, intent: Pending, bar: Candle)
    requires Inv(c, s) && !Has(s.positions, intent.symbol) && !HasPending(s, intent.symbol)
    ensures Inv(c, FillIntent(c, s, v, intent, bar)) && FillIntent(c, s, v, intent, bar).pending == s.pending
  {
    hide Balanced;
    hide Rising;
    hide UsedOnce;
    hide Paired;
    hide OneEach;
    hide Has;
    hide HasPending;
    hide ProposalFor;
    hide Opened;
    hide CheckStop;
    hide Stops.InitialStop;
    hide Stops.EntryFill;
    hide RejectionCodes;
    if intent.id !in s.processed {
      var fill := Stops.EntryFill(bar.open, c.bps);
      var stop := Stops.InitialStop(fill, intent.atr, c.rules, c.tick(intent.symbol));
      var decision := c.risk(ProposalFor(s, v, intent, intent.symbol, fill, stop));
      RejectInv(c, s, intent, bar, RejectionCodes(decision));
      RejectInv(c, s, intent, bar, [REJECT_LEVERAGE]);
      if decision.quantity.Some? {
        OpenInv(c, s, intent, bar, fill, stop, decision.quantity.value);
        CheckStopInv(c, Opened(c, s, intent, bar, fill, stop, decision.quantity.value), intent.symbol, bar, true);
      }
    }
  }

  lemma OneDue(pending: seq<Pending>, symbol: Sym)
    requires forall i, j :: 0 <= i < j < |pending| ==> pending[i].symbol != pending[j].symbol
    ensures |Filter(pending, (p: Pending) => p.symbol == symbol)| <= 1
  {
    if pending != [] {
      assert forall i, j :: 0 <= i < j < |pending| - 1 ==> pending[1..][i].symbol != pending[1..][j].symbol;
      OneDue(pending[1..], symbol);
      var rest := Filter(pending[1..], (p: Pending) => p.symbol == symbol);
      if pending[0].symbol == symbol && rest != [] {
        assert rest[0] in pending[1..];
      }
    }
  }

  predicate DistinctSymbols(ps: seq<Pending>) {
    forall i, j :: 0 <= i < j < |ps| ==> ps[i].symbol != ps[j].symbol
  }

  lemma PrependDistinct(p: Pending, rest: seq<Pending>)
    requires DistinctSymbols(rest) && forall q :: q in rest ==> q.symbol != p.symbol
    ensures DistinctSymbols([p] + rest)
  {
  }

  lemma KeptPending(pending: seq<Pending>, symbol: Sym)
    requires DistinctSymbols(pending)
    ensures DistinctSymbols(Filter(pending, (p: Pending) => p.symbol != symbol))
  {
    if pending != [] {
      assert forall i, j :: 0 <= i < j < |pending| - 1 ==> pending[1..][i].symbol != pending[1..][j].symbol;
      KeptPending(pending[1..], symbol);
      PrependDistinct(pending[0], Filter(pending[1..], (p: Pending) => p.symbol != symbol));
    }
  }

  lemma KeptOneEach(s: State, symbol: Sym)
    requires OneEach(s)
    ensures OneEach(Kept(s, symbol)) && !HasPending(Kept(s, symbol), symbol)
    ensures |Due(s, symbol)| <= 1
    ensures Due(s, symbol) != [] ==> !Has(s.positions, symbol) && Due(s, symbol)[0].symbol == symbol
  {
    hide Has;
    OneDue(s.pending, symbol);
    KeptPending(s.pending, symbol);
    var after := Kept(s, symbol);
    forall i | 0 <= i < |after.pending| ensures !Has(s.positions, after.pending[i].symbol) && after.pending[i].symbol != symbol {
      assert after.pending[i] in s.pending;
    }
    if Due(s, symbol) != [] {
      assert Due(s, symbol)[0] in s.pending;
    }
  }

  lemma KeptInv(c: Config, s: State, symbol: Sym)
    requires Inv(c, s)
    ensures Inv(c, Kept(s, symbol)) && !HasPending(Kept(s, symbol), symbol)
    ensures |Due(s, symbol)| <= 1
    ensures Due(s, symbol) != [] ==> !Has(s.positions, symbol) && Due(s, symbol)[0].symbol == symbol
  {
    hide Balanced;
    hide Paired;
    hide Rising;
    hide OneEach;
    hide HasPending;
    hide Has;
    hide Due;
    var after := Kept(s, symbol);
    SameBooksButPending(c, s);
    SameBooksButPending(c, after);
    assert s.(pending := []) == after.(pending := []);
    KeptOneEach(s, symbol);
    assert UsedIds(after) == UsedIds(s);
  }

  lemma SameBooksButPending(c: Config, s: State)
    ensures var bare := s.(pending := []);
            Balanced(c, bare) == Balanced(c, s) && Paired(bare) == Paired(s) && Rising(c, bare) == Rising(c, s)
  {
    var bare := s.(pending := []);
    forall k | Has(s.positions, k)
      ensures Follows(c, bare, k, Get(bare.positions, k)) == Follows(c, s, k, Get(s.positions, k)) {
    }
  }

  lemma FillOneIntent(c: Config, s: State, v: DayView, intents: seq<Pending>, bar: Candle)
    requires |intents| == 1 && c.tick(intents[0].symbol) > 0.0
    ensures FillIntents(c, s, v, intents, bar) == FillIntent(c, s, v, intents[0], bar)
  {
    hide FillIntent;
    assert intents[1..] == [];
  }

  lemma FillSymbolInv(c: Config, s: State, v: DayView, symbol: Sym)
    requires Inv(c, s)
    ensures Inv(c, FillSymbol(c, s, v, symbol))
  {
    hide Balanced;
    hide Rising;
    hide UsedOnce;
    hide Paired;
    hide OneEach;
    hide Has;
    hide HasPending;
    hide FillIntent;
    hide Due;
    KeptInv(c, s, symbol);
    var due := Due(s, symbol);
    if symbol in v.bars && due != [] {
      FillIntentInv(c, Kept(s, symbol), v, due[0], v.bars[symbol]);
      FillOneIntent(c, Kept(s, symbol), v, due, v.bars[symbol]);
    }
  }

  /* ---------- funding, evaluation, trailing ---------- */

  lemma ChargeBalances(c: Config, s: State, symbol: Sym, payment: real)
    requires Balanced(c, s) && Has(s.active, symbol)
    ensures Balanced(c, Charge(s, symbol, payment))
  {
    hide Put;
    hide Has;
    hide Get;
    var trade := Get(s.active, symbol).(funding := Get(s.active, symbol).funding + payment);
    SumPut(s.active, symbol, trade, CostOf);
    SumPut(s.active, symbol, trade, FeesOf);
    SumPut(s.active, symbol, trade, FundingOf);
    SumPut(s.active, symbol, trade, SlippageOf);
  }

  lemma ChargeInv(c: Config, s: State, symbol: Sym, payment: real)
    requires Inv(c, s) && Has(s.positions, symbol)
    ensures Inv(c, Charge(s, symbol, payment)) && Charge(s, symbol, payment).positions == s.positions
  {
    hide Balanced;
    hide UsedOnce;
    hide Rising;
    hide Paired;
    hide OneEach;
    hide Has;
    IndexByKeysIfPaired(s, symbol);
    ChargeBalances(c, s, symbol, payment);
    ChargeKeeps(c, s, symbol, payment);
  }

  lemma ChargeKeeps(c: Config, s: State, symbol: Sym, payment: real)
    requires Has(s.active, symbol)
    ensures var after := Charge(s, symbol, payment);
            (Paired(s) ==> Paired(after)) && UsedOnce(c, after) == UsedOnce(c, s) &&
            OneEach(after) == OneEach(s) && Rising(c, after) == Rising(c, s)
  {
    ChargePairs(s, symbol, payment);
    ChargeUses(s, symbol, payment);
    hide Put;
    hide Has;
    hide Get;
    hide Paired;
    hide UsedIds;
    hide Rising;
    SameStops(c, s, Charge(s, symbol, payment));
  }

  lemma ChargePairs(s: State, symbol: Sym, payment: real)
    requires Has(s.active, symbol)
    ensures Paired(s) ==> Paired(Charge(s, symbol, payment))
  {
    hide Put;
    hide Has;
    hide Get;
    hide Keys;
    hide Distinct;
    var trade := Get(s.active, symbol).(funding := Get(s.active, symbol).funding + payment);
    PutKnown(s.active, symbol, trade);
    if Paired(s) {
      DistinctPut(s.active, symbol, trade);
    }
  }

  lemma ChargeUses(s: State, symbol: Sym, payment: real)
    requires Has(s.active, symbol)
    ensures UsedIds(Charge(s, symbol, payment)) == UsedIds(s)
  {
    hide Put;
    hide Has;
    hide Get;
    hide Bag;
    hide ClosedIds;
    hide RejectedIds;
    var trade := Get(s.active, symbol).(funding := Get(s.active, symbol).funding + payment);
    BagPutKnown(s.active, symbol, trade, IdOf);
  }

  lemma SameStops(c: Config, s: State, after: State)
    requires after.positions == s.positions && after.trails == s.trails && after.closed == s.closed
    ensures Rising(c, after) == Rising(c, s)
  {
    forall k | Has(s.positions, k)
      ensures Follows(c, after, k, Get(after.positions, k)) == Follows(c, s, k, Get(s.positions, k)) {
    }
  }

  lemma {:induction false} ChargeEventsInv(c: Config, s: State, symbol: Sym, notional: real, events: seq<Funding>)
    requires Inv(c, s) && Has(s.positions, symbol)
    ensures Inv(c, ChargeEvents(s, symbol, notional, events))
    decreases |events|
  {
    hide Inv;
    hide Charge;
    hide Has;
    if events != [] {
      var payment := Stops.FundingPayment(notional, events[0].rate);
      ChargeInv(c, s, symbol, payment);
      ChargeEventsInv(c, Charge(s, symbol, payment), symbol, notional, events[1..]);
    }
  }

  lemma FundSymbolInv(c: Config, s: State, v: DayView, symbol: Sym)
    requires Inv(c, s)
    ensures Inv(c, FundSymbol(c, s, v, symbol))
  {
    hide Inv;
    hide Charge;
    hide ChargeEvents;
    hide Has;
    hide NotionalOf;
    hide Stops.FundingPayment;
    if symbol in v.bars && Has(s.positions, symbol) {
      var notional := NotionalOf(Get(s.positions, symbol));
      if c.assumedRate.Some? {
        ChargeInv(c, s, symbol, Stops.FundingPayment(notional, c.assumedRate.value));
      } else {
        ChargeEventsInv(c, s, symbol, notional, if symbol in v.funding then v.funding[symbol] else []);
      }
    }
  }

  lemma QueueInv(c: Config, s: State, symbol: Sym, e: Evaluation, time: Time)
    requires Inv(c, s)
    ensures Inv(c, Queue(s, symbol, e, time))
  {
    hide Balanced;
    hide Paired;
    hide Rising;
    hide Has;
    var after := Queue(s, symbol, e, time);
    SameBooks(c, s.(pending := []), after.(pending := []));
    SameBooksButPending(c, s);
    SameBooksButPending(c, after);
    assert UsedIds(after) == UsedIds(s);
  }

  lemma RaiseTrail(trail: seq<TrailPoint>, next: TrailPoint)
    requires trail != [] && Rises(trail) && trail[|trail| - 1].effective <= next.effective
    ensures Rises(trail + [next])
  {
  }

  lemma TrailSymbolInv(c: Config, s: State, v: DayView, symbol: Sym)
    requires Inv(c, s)
    ensures Inv(c, TrailSymbol(c, s, v, symbol))
  {
    hide Balanced;
    hide UsedOnce;
    hide Paired;
    hide OneEach;
    hide Rising;
    hide Has;
    hide Get;
    hide Put;
    hide LatestAtr;
    hide Stops.UpdateTrail;
    if symbol in v.bars && Has(s.positions, symbol) && symbol in v.withHistory {
      var p := Get(s.positions, symbol);
      var atr := LatestAtr(s.evaluations, symbol, p.entryAtr);
      var levels := Stops.UpdateTrail(p.levels, v.bars[symbol].close, atr, c.rules, c.tick(symbol));
      var point := TrailPoint(v.time, levels.trail, levels.effective);
      TrailKeepsBooks(c, s, symbol, p.(levels := levels), s.trails[symbol := TrailOf(s, symbol) + [point]]);
      TrailRises(c, s, symbol, v.bars[symbol].close, atr, v.time);
    }
  }

  lemma TrailKeepsBooks(c: Config, s: State, symbol: Sym, p: Position, trails: map<Sym, seq<TrailPoint>>)
    requires Has(s.positions, symbol)
    ensures var after := s.(positions := Put(s.positions, symbol, p), trails := trails);
            Balanced(c, after) == Balanced(c, s) && UsedOnce(c, after) == UsedOnce(c, s) &&
            (Paired(s) ==> Paired(after)) && (Paired(s) && OneEach(s) ==> OneEach(after))
  {
    hide Put;
    hide Has;
    hide Keys;
    hide Distinct;
    hide SumOf;
    hide SumSeq;
    var after := s.(positions := Put(s.positions, symbol, p), trails := trails);
    PutKnown(s.positions, symbol, p);
    if Paired(s) {
      DistinctPut(s.positions, symbol, p);
    }
    assert UsedIds(after) == UsedIds(s);
  }

  lemma TrailRises(c: Config, s: State, symbol: Sym, close: real, atr: real, time: Time)
    requires c.Valid() && Rising(c, s) && Has(s.positions, symbol)
    ensures var p := Get(s.positions, symbol);
            var levels := Stops.UpdateTrail(p.levels, close, atr, c.rules, c.tick(symbol));
            Rising(c, s.(positions := Put(s.positions, symbol, p.(levels := levels)),
                         trails := s.trails[symbol := TrailOf(s, symbol) + [TrailPoint(time, levels.trail, levels.effective)]]))
  {
    hide Has;
    hide Get;
    hide Put;
    hide Stops.UpdateTrail;
    hide Stops.Consistent;
    hide Rises;
    var p := Get(s.positions, symbol);
    assert Follows(c, s, symbol, p);
    var levels := Stops.UpdateTrail(p.levels, close, atr, c.rules, c.tick(symbol));
    Stops.TrailNeverLowers(p.levels, close, atr, c.rules, c.tick(symbol));
    RaiseTrail(s.trails[symbol], TrailPoint(time, levels.trail, levels.effective));
    var after := s.(positions := Put(s.positions, symbol, p.(levels := levels)),
                    trails := s.trails[symbol := TrailOf(s, symbol) + [TrailPoint(time, levels.trail, levels.effective)]]);
    forall k | Has(after.positions, k) ensures Follows(c, after, k, Get(after.positions, k)) {
      GetPut(s.positions, symbol, p.(levels := levels), k);
    }
  }

  lemma SnapshotInv(c: Config, s: State, v: DayView)
    requires Inv(c, s)
    ensures Inv(c, TakeSnapshot(s, v))
  {
    hide Balanced;
    hide Paired;
    hide Rising;
    hide Unrealized;
    var after := TakeSnapshot(s, v);
    SameBooks(c, s, after);
    assert UsedIds(after) == UsedIds(s);
  }

  /* ---------- whole runs ---------- */

  lemma PhaseOneInv(c: Config, s: State, v: DayView, phase: Phase, symbol: Sym)
    requires Inv(c, s)
    ensures Inv(c, PhaseOne(c, s, v, phase, symbol))
  {
    assert c.Valid();
    hide Inv;
    hide FillSymbol;
    hide FundSymbol;
    hide TrailSymbol;
    hide Queue;
    hide CheckStop;
    match phase {
      case Fill => FillSymbolInv(c, s, v, symbol);
      case Stop => if symbol in v.bars { CheckStopInv(c, s, symbol, v.bars[symbol], false); }
      case Fund => FundSymbolInv(c, s, v, symbol);
      case Evaluate =>
        if symbol in v.bars && symbol in v.slices {
          QueueInv(c, s, symbol, c.strategy(symbol, v.slices[symbol], EvaluationTime(v.bars[symbol])),
                   EvaluationTime(v.bars[symbol]));
        }
      case Trail => TrailSymbolInv(c, s, v, symbol);
    }
  }

  lemma {:induction false} PhaseAllInv(c: Config, s: State, v: DayView, phase: Phase, symbols: seq<Sym>)
    requires c.Valid() && Inv(c, s)
    ensures Inv(c, PhaseAll(c, s, v, phase, symbols))
    decreases |symbols|
  {
    hide Inv;
    hide PhaseOne;
    if symbols != [] {
      PhaseOneInv(c, s, v, phase, symbols[0]);
      PhaseAllInv(c, PhaseOne(c, s, v, phase, symbols[0]), v, phase, symbols[1..]);
    }
  }

  lemma DayInv(c: Config, s: State, v: DayView)
    requires c.Valid() && Inv(c, s)
    ensures Inv(c, Day(c, s, v))
  {
    hide Inv;
    hide PhaseAll;
    hide TakeSnapshot;
    if v.bars != map[] {
      var filled := PhaseAll(c, s, v, Fill, c.symbols);
      var stopped := PhaseAll(c, filled, v, Stop, c.symbols);
      var funded := if c.fundingEnabled then PhaseAll(c, stopped, v, Fund, c.symbols) else stopped;
      var evaluated := PhaseAll(c, funded, v, Evaluate, c.symbols);
      PhaseAllInv(c, s, v, Fill, c.symbols);
      PhaseAllInv(c, filled, v, Stop, c.symbols);
      if c.fundingEnabled {
        PhaseAllInv(c, stopped, v, Fund, c.symbols);
      }
      PhaseAllInv(c, funded, v, Evaluate, c.symbols);
      PhaseAllInv(c, evaluated, v, Trail, c.symbols);
      SnapshotInv(c, PhaseAll(c, evaluated, v, Trail, c.symbols), v);
    }
  }

  /** After any days of any run, money is conserved, intents are used once, positions and trades go
      together, and stops have only risen. */
  lemma {:induction false} RunKeepsInv(c: Config, b: Bundle, times: seq<Time>)
    requires c.Valid()
    ensures Inv(c, Days(c, b, Start(c), times))
  {
    if times == [] {
      StartInv(c);
    } else {
      hide Inv;
      hide Day;
      hide ViewOf;
      RunKeepsInv(c, b, times[..|times| - 1]);
      DayInv(c, Days(c, b, Start(c), times[..|times| - 1]), ViewOf(c, b, times[|times| - 1]));
    }
  }

  /** The equity of the last snapshot is the closing equity of the run. */
  lemma {:induction false} EndCapitalIsLastEquity(c: Config, b: Bundle, times: seq<Time>)
    requires c.Valid() && IsTimeline(times, c, b) && times != []
    ensures var s := Days(c, b, Start(c), times);
            s.curve != [] && s.curve[|s.curve| - 1].equity == EndCapital(c, b, s, times)
  {
    var last := times[|times| - 1];
    LastDayTrades(c, b, times);
    BarsOfView(c, b, last);
    hide Day;
    hide BarsOn;
    hide ViewOf;
    hide IsTimeline;
    hide Unrealized;
    hide Start;
    LastEquity(c, Days(c, b, Start(c), times[..|times| - 1]), ViewOf(c, b, last));
  }

  lemma LastDayTrades(c: Config, b: Bundle, times: seq<Time>)
    requires IsTimeline(times, c, b) && times != []
    ensures BarsOn(c, b, times[|times| - 1]) != map[]
  {
    var last := times[|times| - 1];
    assert last in times;
    var k, i :| k in c.symbols && 0 <= i < |Series(b.daily, k)| && Series(b.daily, k)[i].openTime == last;
    BarAtFinds(Series(b.daily, k), last, i);
    assert k in BarsOn(c, b, last);
  }

  lemma BarsOfView(c: Config, b: Bundle, t: Time)
    ensures ViewOf(c, b, t).bars == BarsOn(c, b, t)
  {
  }

  lemma LastEquity(c: Config, s: State, v: DayView)
    requires c.Valid() && v.bars != map[]
    ensures var d := Day(c, s, v);
            d.curve != [] && d.curve[|d.curve| - 1].equity == d.cash + Unrealized(d.positions,
                (p: Position) => MarkAtClose(v.bars, p))
  {
    hide PhaseAll;
    hide Unrealized;
  }

  lemma BarAtIsAt(candles: seq<Candle>, t: Time)
    ensures BarAt(candles, t).Some? ==> BarAt(candles, t).value.openTime == t
  {
  }

  lemma BarAtFinds(candles: seq<Candle>, t: Time, i: nat)
    requires i < |candles| && candles[i].openTime == t
    ensures BarAt(candles, t).Some? && BarAt(candles, t).value.openTime == t
  {
    if candles[|candles| - 1].openTime != t {
      assert candles[..|candles| - 1][i] == candles[i];
      BarAtFinds(candles[..|candles| - 1], t, i);
    }
  }
}
