/** When each consistency issue is reported, as a condition on the rows of the tables. */
module RecoveryIssues {
  import opened Common
  import opened Timeframes
  import opened Recovery
  import opened RecoverySafety

  /* ---------- which row a lookup finds ---------- */

  predicate FirstOrder(orders: seq<Order>, intent: nat, n: nat) {
    n < |orders| && orders[n].intent == intent && forall j :: 0 <= j < n ==> orders[j].intent != intent
  }

  predicate OrderAt(orders: seq<Order>, id: nat, n: nat) {
    n < |orders| && orders[n].id == id && forall j :: 0 <= j < n ==> orders[j].id != id
  }

  /** The fill of an order with the least sequence number, the earliest of several. */
  predicate FirstFill(fills: seq<Fill>, order: nat, n: nat) {
    && n < |fills| && fills[n].order == Some(order)
    && forall j :: 0 <= j < |fills| && fills[j].order == Some(order) ==>
         fills[n].sequence < fills[j].sequence || (fills[n].sequence == fills[j].sequence && n <= j)
  }

  predicate Held(p: Position) { p.status == PositionOpen || p.status == PositionClosing }

  predicate FirstHeld(positions: seq<Position>, symbol: string, n: nat) {
    && n < |positions| && positions[n].symbol == symbol && Held(positions[n])
    && forall j :: 0 <= j < n ==> !(positions[j].symbol == symbol && Held(positions[j]))
  }

  predicate HasFill(fills: seq<Fill>, order: nat) { exists n :: 0 <= n < |fills| && fills[n].order == Some(order) }

  predicate NoOrder(orders: seq<Order>, intent: nat) { forall n :: 0 <= n < |orders| ==> orders[n].intent != intent }

  lemma {:induction false} OrderForIs(orders: seq<Order>, intent: nat)
    ensures OrderFor(orders, intent).None? <==> NoOrder(orders, intent)
    ensures OrderFor(orders, intent).Some? ==>
              exists n: nat :: FirstOrder(orders, intent, n) && OrderFor(orders, intent) == Some(orders[n])
  {
    if orders != [] {
      if orders[0].intent == intent {
        assert FirstOrder(orders, intent, 0);
      } else {
        OrderForIs(orders[1..], intent);
        assert forall n :: 0 <= n < |orders| ==> n == 0 || orders[n] == orders[1..][n - 1];
        assert forall n :: 0 <= n < |orders| - 1 ==> orders[1..][n] == orders[n + 1];
        if OrderFor(orders[1..], intent).Some? {
          var n: nat :| FirstOrder(orders[1..], intent, n) && OrderFor(orders[1..], intent) == Some(orders[1..][n]);
          assert FirstOrder(orders, intent, n + 1);
        }
      }
    }
  }

  lemma {:induction false} OrderByIdIs(orders: seq<Order>, id: nat)
    ensures OrderById(orders, id).None? <==> forall n :: 0 <= n < |orders| ==> orders[n].id != id
    ensures OrderById(orders, id).Some? ==>
              exists n: nat :: OrderAt(orders, id, n) && OrderById(orders, id) == Some(orders[n])
  {
    if orders != [] {
      if orders[0].id == id {
        assert OrderAt(orders, id, 0);
      } else {
        OrderByIdIs(orders[1..], id);
        assert forall n :: 0 <= n < |orders| ==> n == 0 || orders[n] == orders[1..][n - 1];
        assert forall n :: 0 <= n < |orders| - 1 ==> orders[1..][n] == orders[n + 1];
        if OrderById(orders[1..], id).Some? {
          var n: nat :| OrderAt(orders[1..], id, n) && OrderById(orders[1..], id) == Some(orders[1..][n]);
          assert OrderAt(orders, id, n + 1);
        }
      }
    }
  }

  lemma {:induction false} OpenPositionIs(positions: seq<Position>, symbol: string)
    ensures OpenPositionOf(positions, symbol).None? ==>
              forall n :: 0 <= n < |positions| ==> !(positions[n].symbol == symbol && Held(positions[n]))
    ensures OpenPositionOf(positions, symbol).Some? ==>
              exists n: nat :: FirstHeld(positions, symbol, n) && OpenPositionOf(positions, symbol) == Some(positions[n])
  {
    if positions != [] {
      if positions[0].symbol == symbol && IsOpen(positions[0]) {
        assert FirstHeld(positions, symbol, 0);
      } else {
        var rest := positions[1..];
        OpenPositionIs(rest, symbol);
        assert forall n :: 0 <= n < |positions| ==> n == 0 || positions[n] == rest[n - 1];
        assert forall n :: 0 <= n < |rest| ==> rest[n] == positions[n + 1];
        if OpenPositionOf(rest, symbol).Some? {
          var n: nat :| FirstHeld(rest, symbol, n) && OpenPositionOf(rest, symbol) == Some(rest[n]);
          assert FirstHeld(positions, symbol, n + 1);
        }
      }
    }
  }

  lemma {:induction false} FillsForIs(fills: seq<Fill>, order: nat)
    ensures FillsFor(fills, order) != [] <==> HasFill(fills, order)
    ensures FillsFor(fills, order) != [] ==>
              exists n: nat :: FirstFill(fills, order, n) && FillsFor(fills, order)[0] == fills[n]
  {
    if fills != [] {
      var front, last := fills[..|fills| - 1], fills[|fills| - 1];
      FillsForIs(front, order);
      assert forall n :: 0 <= n < |front| ==> front[n] == fills[n];
      var placed := FillsFor(front, order);
      if last.order == Some(order) {
        assert PlaceFill(placed, last) != [];
        assert fills[|front|].order == Some(order);
        if placed == [] {
          assert !HasFill(front, order);
          assert FirstFill(fills, order, |front|);
        } else {
          var n: nat :| FirstFill(front, order, n) && placed[0] == front[n];
          assert FirstFill(fills, order, if last.sequence < placed[0].sequence then |front| else n);
        }
      } else {
        if n :| 0 <= n < |front| && front[n].order == Some(order) {
          assert fills[n].order == Some(order);
        }
        if n :| 0 <= n < |fills| && fills[n].order == Some(order) {
          assert front[n].order == Some(order);
        }
        if placed != [] {
          var n: nat :| FirstFill(front, order, n) && placed[0] == front[n];
          assert FirstFill(fills, order, n);
        }
      }
    }
  }

  /** The first fill of an order is an entry that the first open position of its symbol was opened with, for the
      intent of the order, and there is a wallet. */
  predicate Linked(t: Tables, o: nat, f: nat, p: nat)
    requires o < |t.orders| && f < |t.fills| && p < |t.positions|
  {
    && t.fills[f].kind == Entry && t.positions[p].entryIntent == t.orders[o].intent
    && t.positions[p].quantity == t.fills[f].quantity && t.positions[p].averageEntry == t.fills[f].price && t.hasWallet
  }

  ghost predicate Chain(t: Tables, order: nat) {
    exists o: nat, f: nat, p: nat :: OrderAt(t.orders, order, o) && FirstFill(t.fills, order, f) &&
      FirstHeld(t.positions, t.fills[f].symbol, p) && Linked(t, o, f, p)
  }

  /** Filling an order or its intent is held to be justified exactly by such a chain. */
  lemma {:induction false} ChainIff(t: Tables, order: nat)
    ensures ChainHolds(t, order) <==> Chain(t, order)
  {
    OrderByIdIs(t.orders, order);
    FillsForIs(t.fills, order);
    hide FillsFor;
    hide OrderById;
    hide OpenPositionOf;
    if ChainHolds(t, order) {
      var f: nat :| FirstFill(t.fills, order, f) && FillsFor(t.fills, order)[0] == t.fills[f];
      var o: nat :| OrderAt(t.orders, order, o) && OrderById(t.orders, order) == Some(t.orders[o]);
      OpenPositionIs(t.positions, t.fills[f].symbol);
      var p: nat :| FirstHeld(t.positions, t.fills[f].symbol, p) &&
        OpenPositionOf(t.positions, t.fills[f].symbol) == Some(t.positions[p]);
      assert Linked(t, o, f, p);
    }
    if Chain(t, order) {
      var o: nat, f: nat, p: nat :| OrderAt(t.orders, order, o) && FirstFill(t.fills, order, f) &&
        FirstHeld(t.positions, t.fills[f].symbol, p) && Linked(t, o, f, p);
      OpenPositionIs(t.positions, t.fills[f].symbol);
      assert t.fills[f].order == Some(order);
      var g: nat :| FirstFill(t.fills, order, g) && FillsFor(t.fills, order)[0] == t.fills[g];
      assert g == f;
      var q: nat :| OrderAt(t.orders, order, q) && OrderById(t.orders, order) == Some(t.orders[q]);
      assert q == o;
      var r: nat :| FirstHeld(t.positions, t.fills[f].symbol, r) &&
        OpenPositionOf(t.positions, t.fills[f].symbol) == Some(t.positions[r]);
      assert r == p;
    }
  }

  /* ---------- the condition of each issue ---------- */

  predicate Unfinished(s: IntentStatus) {
    s == Created || s == Approved || s == Scheduled || s == Submitted || s == IntentPartiallyFilled
  }

  /** The order of an intent is this one, and it has been filled at least once. */
  predicate FilledBy(t: Tables, intent: nat, o: nat) {
    FirstOrder(t.orders, intent, o) && HasFill(t.fills, t.orders[o].id)
  }

  ghost predicate FilledSoundly(t: Tables, intent: nat) {
    exists o: nat :: FilledBy(t, intent, o) && Chain(t, t.orders[o].id)
  }

  ghost predicate FilledUnsoundly(t: Tables, intent: nat) {
    exists o: nat :: FilledBy(t, intent, o) && !Chain(t, t.orders[o].id)
  }

  /** The order of an intent is this one and, though filled, still open. */
  predicate OpenThoughFilled(t: Tables, intent: nat, id: int, o: nat) {
    FilledBy(t, intent, o) && t.orders[o].id == id && t.orders[o].status == OrderOpen
  }

  predicate Positionless(t: Tables, intent: nat) {
    forall n :: 0 <= n < |t.positions| ==> t.positions[n].entryIntent != intent
  }

  ghost predicate NeverFilled(t: Tables, intent: nat) { forall o: nat :: !FilledBy(t, intent, o) }

  predicate NoIntent(t: Tables, id: nat) { forall n :: 0 <= n < |t.intents| ==> t.intents[n].id != id }

  function HeldOf(positions: seq<Position>, symbol: string): set<nat> {
    set n | 0 <= n < |positions| && positions[n].symbol == symbol && Held(positions[n])
  }

  function SeverityOf(c: Code): Severity {
    match c
    case OrphanRun | StaleHeartbeat | FilledWithoutStatus | OpenOrderWithFill => Auto
    case FilledWithoutFill | TerminalWithoutOrder | ClosingPosition | HighestCloseBelowEntry | AccountingMismatch => Manual
    case _ => Fatal
  }

  predicate OrphanHolds(t: Tables, id: int, detail: string) {
    exists n :: 0 <= n < |t.runs| && Stuck(t.runs[n], id, detail)
  }

  predicate StaleHolds(t: Tables, age: int, now: Time, threshold: nat) {
    t.runtime.Some? && age == now - t.runtime.value.heartbeat && age > threshold
  }

  predicate SeveralHolds(t: Tables, count: int, symbol: string) {
    count == |HeldOf(t.positions, symbol)| && count > 1
  }

  /** The conditions on an intent and its order. */
  ghost predicate IntentHolds(t: Tables, code: Code, id: int, detail: string, n: nat)
    requires n < |t.intents|
  {
    var i := t.intents[n];
    match code
    case FilledWithoutFill => id == i.id && detail == "" && i.status == IntentFilled && NeverFilled(t, i.id)
    case FilledWithoutStatus => id == i.id && detail == "" && Unfinished(i.status) && FilledSoundly(t, i.id)
    case FillWithoutChain =>
      if detail == "order" then exists o: nat :: OpenThoughFilled(t, i.id, id, o) && !Chain(t, t.orders[o].id)
      else id == i.id && detail == "intent" && Unfinished(i.status) && FilledUnsoundly(t, i.id)
    case OpenOrderWithFill => detail == "" && exists o: nat :: OpenThoughFilled(t, i.id, id, o) && Chain(t, t.orders[o].id)
    case TerminalWithoutOrder =>
      id == i.id && detail == "" && (i.status == IntentExpired || i.status == IntentFailed) && NoOrder(t.orders, i.id)
    case _ => false
  }

  ghost predicate PositionHolds(t: Tables, code: Code, p: Position) {
    match code
    case PositionWithoutIntent => Held(p) && NoIntent(t, p.entryIntent)
    case PositionWithoutFill => Held(p) && (NoIntent(t, p.entryIntent) || NeverFilled(t, p.entryIntent))
    case ClosingPosition => p.status == PositionClosing
    case StopBelowInitial => p.currentStop < p.initialStop
    case HighestCloseBelowEntry => p.highestClose < p.averageEntry
    case _ => false
  }

  /** The order is filled and its intent has no position. */
  predicate FilledNowhere(t: Tables, id: nat, o: nat) {
    OrderAt(t.orders, id, o) && t.orders[o].status == OrderFilled && Positionless(t, t.orders[o].intent)
  }

  ghost predicate FillHolds(t: Tables, code: Code, f: Fill) {
    match code
    case ExitWithoutPosition => f.kind == Exit && f.position.None?
    case EntryWithoutOrder => f.kind == Entry && f.order.None?
    case FillWithoutOrder => f.kind == Entry && f.order.Some? && forall n: nat :: !OrderAt(t.orders, f.order.value, n)
    case FillWithoutPosition => f.kind == Entry && f.order.Some? && exists o: nat :: FilledNowhere(t, f.order.value, o)
    case _ => false
  }

  predicate FallHolds(t: Tables, id: int) {
    exists n, m :: 0 <= n < |t.stopEvents| && 0 <= m < |t.positions| && t.stopEvents[n].id == id &&
      t.stopEvents[n].position == t.positions[m].id && t.stopEvents[n].next < t.stopEvents[n].previous
  }

  predicate RepeatHolds(t: Tables, id: int, key: string) {
    exists m, n :: 0 <= m < n < |t.fills| && t.fills[m].key == key && t.fills[n].key == key && t.fills[n].id == id
  }

  /** What the tables must hold for an issue to be reported. */
  ghost predicate Reported(t: Tables, x: Issue, now: Time, threshold: nat) {
    x.severity == SeverityOf(x.code) &&
    match x.code
    case OrphanRun => OrphanHolds(t, x.id, x.detail)
    case StaleHeartbeat => x.detail == "" && StaleHolds(t, x.id, now, threshold)
    case MultipleOpenPositions => SeveralHolds(t, x.id, x.detail)
    case FilledWithoutFill | FilledWithoutStatus | FillWithoutChain | OpenOrderWithFill | TerminalWithoutOrder =>
      exists n :: 0 <= n < |t.intents| && IntentHolds(t, x.code, x.id, x.detail, n)
    case PositionWithoutIntent | PositionWithoutFill | ClosingPosition | StopBelowInitial | HighestCloseBelowEntry =>
      x.detail == "" && exists n :: 0 <= n < |t.positions| && t.positions[n].id == x.id && PositionHolds(t, x.code, t.positions[n])
    case ExitWithoutPosition | EntryWithoutOrder | FillWithoutOrder | FillWithoutPosition =>
      x.detail == "" && exists n :: 0 <= n < |t.fills| && t.fills[n].id == x.id && FillHolds(t, x.code, t.fills[n])
    case StopHistoryFalls => x.detail == "" && FallHolds(t, x.id)
    case DuplicateFill => RepeatHolds(t, x.id, x.detail)
    case AccountingMismatch | MigrationNotAtHead => false
  }

  /* ---------- each check against its condition ---------- */

  predicate Stuck(r: RunRow, id: int, job: string) { r.status == RunRunning && r.id == id && r.job == job }

  lemma {:induction false} OrphanIff(t: Tables, runs: seq<RunRow>, x: Issue)
    requires runs <= t.runs
    ensures x in Orphans(runs) <==>
              x.code == OrphanRun && x.severity == Auto && exists n :: 0 <= n < |runs| && Stuck(runs[n], x.id, x.detail)
  {
    if runs != [] {
      var front, last := runs[..|runs| - 1], runs[|runs| - 1];
      OrphanIff(t, front, x);
      assert forall n :: 0 <= n < |front| ==> front[n] == runs[n];
      assert runs[|front|] == last;
      assert (exists n :: 0 <= n < |runs| && Stuck(runs[n], x.id, x.detail)) <==>
          Stuck(last, x.id, x.detail) || exists n :: 0 <= n < |front| && Stuck(front[n], x.id, x.detail);
    }
  }

  lemma CountAppend(a: seq<string>, b: seq<string>, s: string)
    ensures Count(a + b, s) == Count(a, s) + Count(b, s)
  {
    if a == [] {
      assert a + b == b;
    } else {
      assert (a + b)[1..] == a[1..] + b;
      CountAppend(a[1..], b, s);
    }
  }

  lemma HeldNext(front: seq<Position>, last: Position, s: string)
    ensures HeldOf(front + [last], s) == HeldOf(front, s) + if Held(last) && last.symbol == s then {|front|} else {}
  {
  }

  lemma CountOne(symbol: string, s: string)
    ensures Count([symbol], s) == if symbol == s then 1 else 0
  {
    assert [symbol][1..] == [];
  }

  lemma {:induction false} CountIs(positions: seq<Position>, s: string)
    ensures Count(OpenSymbols(positions), s) == |HeldOf(positions, s)|
  {
    if positions != [] {
      var front, last := positions[..|positions| - 1], positions[|positions| - 1];
      CountIs(front, s);
      var next := if IsOpen(last) then [last.symbol] else [];
      CountAppend(OpenSymbols(front), next, s);
      CountOne(last.symbol, s);
      assert positions == front + [last];
      HeldNext(front, last, s);
      assert |front| !in HeldOf(front, s);
      hide HeldOf;
      assert OpenSymbols(positions) == OpenSymbols(front) + next;
      hide Count;
      hide OpenSymbols;
    }
  }

  lemma CountPresent(symbols: seq<string>, s: string)
    ensures Count(symbols, s) > 0 <==> s in symbols
  {
  }

  lemma MultipleIff(symbols: seq<string>, among: seq<string>, x: Issue)
    ensures x in MultipleOpen(symbols, among) <==>
              x.code == MultipleOpenPositions && x.severity == Fatal && x.detail in symbols && x.id == Count(among, x.detail) &&
              x.id > 1
  {
  }

  lemma {:induction false} SeveralIff(t: Tables, x: Issue)
    ensures x in MultipleOpen(Dedup(OpenSymbols(t.positions)), OpenSymbols(t.positions)) <==>
              x.code == MultipleOpenPositions && x.severity == Fatal && SeveralHolds(t, x.id, x.detail)
  {
    var open := OpenSymbols(t.positions);
    MultipleIff(Dedup(open), open, x);
    CountIs(t.positions, x.detail);
    CountPresent(open, x.detail);
    hide MultipleOpen;
    hide Count;
    hide OpenSymbols;
    hide HeldOf;
  }

  lemma StaleIff(t: Tables, now: Time, threshold: nat, x: Issue)
    ensures x in Stale(t.runtime, now, threshold) <==>
              x.code == StaleHeartbeat && x.severity == Auto && x.detail == "" && StaleHolds(t, x.id, now, threshold)
  {
  }

  lemma NeverFilledIff(t: Tables, intent: nat)
    ensures NeverFilled(t, intent) <==>
              OrderFor(t.orders, intent).None? || !HasFill(t.fills, OrderFor(t.orders, intent).value.id)
    ensures forall o: nat :: FirstOrder(t.orders, intent, o) ==> OrderFor(t.orders, intent) == Some(t.orders[o])
  {
    OrderForIs(t.orders, intent);
    hide OrderFor;
    hide HasFill;
    if !NeverFilled(t, intent) {
      var o: nat :| FilledBy(t, intent, o);
      var n: nat :| FirstOrder(t.orders, intent, n) && OrderFor(t.orders, intent) == Some(t.orders[n]);
      assert n == o;
    }
    if o: nat :| FirstOrder(t.orders, intent, o) && OrderFor(t.orders, intent).Some? {
      var n: nat :| FirstOrder(t.orders, intent, n) && OrderFor(t.orders, intent) == Some(t.orders[n]);
      assert FilledBy(t, intent, n) <==> HasFill(t.fills, t.orders[n].id);
    }
    forall o: nat | FirstOrder(t.orders, intent, o) ensures OrderFor(t.orders, intent) == Some(t.orders[o]) {
      var n: nat :| FirstOrder(t.orders, intent, n) && OrderFor(t.orders, intent) == Some(t.orders[n]);
      assert n == o;
    }
  }

  /** The fills the check on an intent looks at. */
  function FillsOf(t: Tables, intent: nat): seq<Fill> {
    var order := OrderFor(t.orders, intent);
    if order.Some? then FillsFor(t.fills, order.value.id) else []
  }

  lemma {:induction false} FilledIff(t: Tables, intent: nat)
    ensures FillsOf(t, intent) == [] <==> NeverFilled(t, intent)
    ensures FillsOf(t, intent) != [] && ChainHoldsForIntent(t, intent) <==> FilledSoundly(t, intent)
    ensures FillsOf(t, intent) != [] && !ChainHoldsForIntent(t, intent) <==> FilledUnsoundly(t, intent)
  {
    NeverFilledIff(t, intent);
    OrderForIs(t.orders, intent);
    var order := OrderFor(t.orders, intent);
    if order.Some? {
      FillsForIs(t.fills, order.value.id);
      ChainIff(t, order.value.id);
    }
    hide OrderFor;
    hide FillsFor;
    hide HasFill;
    hide FirstOrder;
    hide Chain;
    hide ChainHolds;
  }

  lemma {:induction false} OpenFilledIff(t: Tables, intent: nat, id: int)
    ensures var order := OrderFor(t.orders, intent);
            order.Some? && order.value.status == OrderOpen && order.value.id == id && FillsOf(t, intent) != [] &&
            ChainHolds(t, order.value.id) <==>
            exists o: nat :: OpenThoughFilled(t, intent, id, o) && Chain(t, t.orders[o].id)
    ensures var order := OrderFor(t.orders, intent);
            order.Some? && order.value.status == OrderOpen && order.value.id == id && FillsOf(t, intent) != [] &&
            !ChainHolds(t, order.value.id) <==>
            exists o: nat :: OpenThoughFilled(t, intent, id, o) && !Chain(t, t.orders[o].id)
  {
    NeverFilledIff(t, intent);
    OrderForIs(t.orders, intent);
    var order := OrderFor(t.orders, intent);
    if order.Some? {
      FillsForIs(t.fills, order.value.id);
      ChainIff(t, order.value.id);
      var n: nat :| FirstOrder(t.orders, intent, n) && order == Some(t.orders[n]);
      assert OpenThoughFilled(t, intent, id, n) <==>
          order.value.status == OrderOpen && order.value.id == id && FillsOf(t, intent) != [];
    }
    hide OrderFor;
    hide FillsFor;
    hide HasFill;
    hide FirstOrder;
    hide Chain;
    hide ChainHolds;
  }

  lemma StatusIff(t: Tables, i: Intent, fills: seq<Fill>, x: Issue)
    ensures x in StatusIssues(t, i, fills) <==>
              x.id == i.id &&
              ((x.code == FilledWithoutFill && x.severity == Manual && x.detail == "" && i.status == IntentFilled && fills == []) ||
               (x.code == FilledWithoutStatus && x.severity == Auto && x.detail == "" && Unfinished(i.status) && fills != [] &&
                ChainHoldsForIntent(t, i.id)) ||
               (x.code == FillWithoutChain && x.severity == Fatal && x.detail == "intent" && Unfinished(i.status) &&
                fills != [] && !ChainHoldsForIntent(t, i.id)))
  {
    hide ChainHoldsForIntent;
  }

  lemma OrderIff(t: Tables, order: Option<Order>, fills: seq<Fill>, x: Issue)
    ensures x in OrderIssues(t, order, fills) <==>
              order.Some? && order.value.status == OrderOpen && x.id == order.value.id && fills != [] &&
              ((x.code == OpenOrderWithFill && x.severity == Auto && x.detail == "" && ChainHolds(t, order.value.id)) ||
               (x.code == FillWithoutChain && x.severity == Fatal && x.detail == "order" && !ChainHolds(t, order.value.id)))
  {
    hide ChainHolds;
  }

  lemma TerminalIff(i: Intent, order: Option<Order>, x: Issue)
    ensures x in TerminalIssues(i, order) <==>
              x == Issue(TerminalWithoutOrder, Manual, i.id, "") && (i.status == IntentExpired || i.status == IntentFailed) &&
              order.None?
  {
  }

  predicate IntentCode(c: Code) {
    c == FilledWithoutFill || c == FilledWithoutStatus || c == FillWithoutChain || c == OpenOrderWithFill ||
    c == TerminalWithoutOrder
  }

  lemma StatusHolds(t: Tables, n: nat, x: Issue)
    requires n < |t.intents|
    ensures x in StatusIssues(t, t.intents[n], FillsOf(t, t.intents[n].id)) <==>
              (x.code == FilledWithoutFill || x.code == FilledWithoutStatus ||
               (x.code == FillWithoutChain && x.detail != "order")) &&
              x.severity == SeverityOf(x.code) && IntentHolds(t, x.code, x.id, x.detail, n)
  {
    var i := t.intents[n];
    StatusIff(t, i, FillsOf(t, i.id), x);
    FilledIff(t, i.id);
    hide FillsOf;
    hide ChainHoldsForIntent;
    hide StatusIssues;
    hide FilledSoundly;
    hide FilledUnsoundly;
    hide NeverFilled;
  }

  lemma OrderHolds(t: Tables, n: nat, x: Issue)
    requires n < |t.intents|
    ensures x in OrderIssues(t, OrderFor(t.orders, t.intents[n].id), FillsOf(t, t.intents[n].id)) <==>
              (x.code == OpenOrderWithFill || (x.code == FillWithoutChain && x.detail == "order")) &&
              x.severity == SeverityOf(x.code) && IntentHolds(t, x.code, x.id, x.detail, n)
  {
    var i := t.intents[n];
    OrderIff(t, OrderFor(t.orders, i.id), FillsOf(t, i.id), x);
    OpenFilledIff(t, i.id, x.id);
    hide OrderFor;
    hide FillsOf;
    hide ChainHolds;
    hide OrderIssues;
    hide Chain;
    hide OpenThoughFilled;
  }

  lemma TerminalHolds(t: Tables, n: nat, x: Issue)
    requires n < |t.intents|
    ensures x in TerminalIssues(t.intents[n], OrderFor(t.orders, t.intents[n].id)) <==>
              x.code == TerminalWithoutOrder && x.severity == SeverityOf(x.code) && IntentHolds(t, x.code, x.id, x.detail, n)
  {
    var i := t.intents[n];
    TerminalIff(i, OrderFor(t.orders, i.id), x);
    OrderForIs(t.orders, i.id);
    hide OrderFor;
    hide TerminalIssues;
    hide NoOrder;
  }

  lemma {:induction false} IntentIff(t: Tables, n: nat, x: Issue)
    requires n < |t.intents|
    ensures x in IntentIssues(t, t.intents[n]) <==>
              IntentCode(x.code) && x.severity == SeverityOf(x.code) && IntentHolds(t, x.code, x.id, x.detail, n)
  {
    StatusHolds(t, n, x);
    OrderHolds(t, n, x);
    TerminalHolds(t, n, x);
    hide OrderFor;
    hide FillsFor;
    hide StatusIssues;
    hide OrderIssues;
    hide TerminalIssues;
    hide IntentHolds;
    hide SeverityOf;
  }

  lemma {:induction false} IntentsIff(t: Tables, x: Issue)
    ensures x in AllIntentIssues(t, t.intents) <==>
              IntentCode(x.code) && x.severity == SeverityOf(x.code) &&
              exists n :: 0 <= n < |t.intents| && IntentHolds(t, x.code, x.id, x.detail, n)
  {
    IssueOfSome(t, t.intents, x);
    hide AllIntentIssues;
    hide IntentIssues;
    hide IntentHolds;
    forall n | 0 <= n < |t.intents|
      ensures x in IntentIssues(t, t.intents[n]) <==>
                IntentCode(x.code) && x.severity == SeverityOf(x.code) && IntentHolds(t, x.code, x.id, x.detail, n)
    {
      IntentIff(t, n, x);
    }
  }

  predicate ReferenceCode(c: Code) { c == PositionWithoutIntent || c == PositionWithoutFill || c == ClosingPosition }

  predicate StopCode(c: Code) { c == StopBelowInitial || c == HighestCloseBelowEntry }

  predicate FillCode(c: Code) {
    c == ExitWithoutPosition || c == EntryWithoutOrder || c == FillWithoutOrder || c == FillWithoutPosition
  }

  lemma {:induction false} PositionIff(t: Tables, p: Position, x: Issue)
    ensures x in PositionIssues(t, p) <==>
              ReferenceCode(x.code) && x.severity == SeverityOf(x.code) && x.detail == "" && x.id == p.id &&
              PositionHolds(t, x.code, p)
  {
    FilledIff(t, p.entryIntent);
    assert HasIntent(t, p.entryIntent) <==> !NoIntent(t, p.entryIntent);
    hide HasIntent;
    hide NoIntent;
    hide OrderFor;
    hide FillsFor;
    hide NeverFilled;
    hide FilledSoundly;
    hide FilledUnsoundly;
    hide ChainHoldsForIntent;
    var fills := if HasIntent(t, p.entryIntent) then FillsOf(t, p.entryIntent) else [];
    assert PositionIssues(t, p) ==
           (if !HasIntent(t, p.entryIntent) && IsOpen(p) then [Issue(PositionWithoutIntent, Fatal, p.id, "")] else []) +
           (if IsOpen(p) && fills == [] then [Issue(PositionWithoutFill, Fatal, p.id, "")] else []) +
           (if p.status == PositionClosing then [Issue(ClosingPosition, Manual, p.id, "")] else []);
  }

  lemma {:induction false} PositionsIff(t: Tables, positions: seq<Position>, x: Issue)
    ensures x in AllPositionIssues(t, positions) <==>
              ReferenceCode(x.code) && x.severity == SeverityOf(x.code) && x.detail == "" &&
              exists n :: 0 <= n < |positions| && positions[n].id == x.id && PositionHolds(t, x.code, positions[n])
  {
    hide PositionIssues;
    hide PositionHolds;
    if positions != [] {
      var front, last := positions[..|positions| - 1], positions[|positions| - 1];
      PositionsIff(t, front, x);
      PositionIff(t, last, x);
      assert forall n :: 0 <= n < |front| ==> front[n] == positions[n];
      assert positions[|front|] == last;
      assert (exists n :: 0 <= n < |positions| && positions[n].id == x.id && PositionHolds(t, x.code, positions[n])) <==>
          (last.id == x.id && PositionHolds(t, x.code, last)) ||
          exists n :: 0 <= n < |front| && front[n].id == x.id && PositionHolds(t, x.code, front[n]);
    }
  }

  lemma FilledNowhereIff(t: Tables, id: nat)
    ensures OrderById(t.orders, id).None? <==> forall n: nat :: !OrderAt(t.orders, id, n)
    ensures OrderById(t.orders, id).Some? ==>
              var order := OrderById(t.orders, id).value;
              (order.status == OrderFilled && !HasPositionFor(t, order.intent) <==> exists o: nat :: FilledNowhere(t, id, o))
  {
    OrderByIdIs(t.orders, id);
    hide OrderById;
    var order := OrderById(t.orders, id);
    if order.Some? {
      var o: nat :| OrderAt(t.orders, id, o) && order == Some(t.orders[o]);
      assert Positionless(t, order.value.intent) <==> !HasPositionFor(t, order.value.intent);
      hide Positionless;
      hide HasPositionFor;
      assert order.value.status == OrderFilled && !HasPositionFor(t, order.value.intent) ==> FilledNowhere(t, id, o);
      if q: nat :| FilledNowhere(t, id, q) {
        assert q == o;
      }
    }
  }

  lemma {:induction false} FillIff(t: Tables, f: Fill, x: Issue)
    ensures x in FillIssues(t, f) <==>
              FillCode(x.code) && x.severity == SeverityOf(x.code) && x.detail == "" && x.id == f.id && FillHolds(t, x.code, f)
  {
    if f.order.Some? {
      FilledNowhereIff(t, f.order.value);
    }
    hide OrderById;
    hide OrderAt;
    hide FilledNowhere;
    hide HasPositionFor;
  }

  lemma {:induction false} FillsIff(t: Tables, fills: seq<Fill>, x: Issue)
    ensures x in AllFillIssues(t, fills) <==>
              FillCode(x.code) && x.severity == SeverityOf(x.code) && x.detail == "" &&
              exists n :: 0 <= n < |fills| && fills[n].id == x.id && FillHolds(t, x.code, fills[n])
  {
    hide FillIssues;
    hide FillHolds;
    if fills != [] {
      var front, last := fills[..|fills| - 1], fills[|fills| - 1];
      FillsIff(t, front, x);
      FillIff(t, last, x);
      assert forall n :: 0 <= n < |front| ==> front[n] == fills[n];
      assert fills[|front|] == last;
      assert (exists n :: 0 <= n < |fills| && fills[n].id == x.id && FillHolds(t, x.code, fills[n])) <==>
          (last.id == x.id && FillHolds(t, x.code, last)) ||
          exists n :: 0 <= n < |front| && front[n].id == x.id && FillHolds(t, x.code, front[n]);
    }
  }

  predicate FallsAt(e: StopEvent, position: nat, id: int) { e.id == id && e.position == position && e.next < e.previous }

  lemma {:induction false} FallingIff(events: seq<StopEvent>, position: nat, x: Issue)
    ensures x in FallingStops(events, position) <==>
              x.code == StopHistoryFalls && x.severity == Fatal && x.detail == "" &&
              exists n :: 0 <= n < |events| && FallsAt(events[n], position, x.id)
  {
    if events != [] {
      var front, last := events[..|events| - 1], events[|events| - 1];
      FallingIff(front, position, x);
      assert forall n :: 0 <= n < |front| ==> front[n] == events[n];
      assert events[|front|] == last;
      assert (exists n :: 0 <= n < |events| && FallsAt(events[n], position, x.id)) <==>
          FallsAt(last, position, x.id) || exists n :: 0 <= n < |front| && FallsAt(front[n], position, x.id);
    }
  }

  /** A stop event of the position falls. */
  predicate Falls(events: seq<StopEvent>, position: nat, id: int) {
    exists n :: 0 <= n < |events| && FallsAt(events[n], position, id)
  }

  lemma {:induction false} StopIff(t: Tables, p: Position, events: seq<StopEvent>, x: Issue)
    ensures x in StopIssues(p, events) <==>
              x.severity == SeverityOf(x.code) && x.detail == "" &&
              ((StopCode(x.code) && x.id == p.id && PositionHolds(t, x.code, p)) ||
               (x.code == StopHistoryFalls && Falls(events, p.id, x.id)))
  {
    FallingIff(events, p.id, x);
    hide FallingStops;
    hide FallsAt;
  }

  lemma {:induction false} StopsIff(t: Tables, positions: seq<Position>, events: seq<StopEvent>, x: Issue)
    ensures x in AllStopIssues(positions, events) <==>
              x.severity == SeverityOf(x.code) && x.detail == "" &&
              ((StopCode(x.code) &&
                exists n :: 0 <= n < |positions| && positions[n].id == x.id && PositionHolds(t, x.code, positions[n])) ||
               (x.code == StopHistoryFalls && exists n :: 0 <= n < |positions| && Falls(events, positions[n].id, x.id)))
  {
    hide StopIssues;
    hide PositionHolds;
    hide Falls;
    if positions != [] {
      var front, last := positions[..|positions| - 1], positions[|positions| - 1];
      StopsIff(t, front, events, x);
      StopIff(t, last, events, x);
      assert forall n :: 0 <= n < |front| ==> front[n] == positions[n];
      assert positions[|front|] == last;
      assert (exists n :: 0 <= n < |positions| && positions[n].id == x.id && PositionHolds(t, x.code, positions[n])) <==>
          (last.id == x.id && PositionHolds(t, x.code, last)) ||
          exists n :: 0 <= n < |front| && front[n].id == x.id && PositionHolds(t, x.code, front[n]);
      assert (exists n :: 0 <= n < |positions| && Falls(events, positions[n].id, x.id)) <==>
          Falls(events, last.id, x.id) || exists n :: 0 <= n < |front| && Falls(events, front[n].id, x.id);
    }
  }

  lemma FallsIff(t: Tables, id: int)
    ensures FallHolds(t, id) <==> exists m :: 0 <= m < |t.positions| && Falls(t.stopEvents, t.positions[m].id, id)
  {
    if FallHolds(t, id) {
      var n, m :| 0 <= n < |t.stopEvents| && 0 <= m < |t.positions| && t.stopEvents[n].id == id &&
        t.stopEvents[n].position == t.positions[m].id && t.stopEvents[n].next < t.stopEvents[n].previous;
      assert FallsAt(t.stopEvents[n], t.positions[m].id, id);
      assert Falls(t.stopEvents, t.positions[m].id, id);
    }
  }

  lemma {:induction false} RepeatIff(t: Tables, k: nat, x: Issue)
    requires k <= |t.fills|
    ensures x in Duplicates(t.fills[..k]) <==>
              x.code == DuplicateFill && x.severity == Fatal &&
              exists m, n :: 0 <= m < n < k && t.fills[m].key == x.detail && t.fills[n].key == x.detail && t.fills[n].id == x.id
  {
    if k > 0 {
      RepeatIff(t, k - 1, x);
      var front, last := t.fills[..k - 1], t.fills[k - 1];
      assert t.fills[..k][..k - 1] == front;
      assert KeySeen(front, last.key) <==> exists m :: 0 <= m < k - 1 && t.fills[m].key == last.key by {
        assert forall m :: 0 <= m < k - 1 ==> front[m] == t.fills[m];
      }
      hide KeySeen;
      if x == Issue(DuplicateFill, Fatal, last.id, last.key) && KeySeen(front, last.key) {
        var m :| 0 <= m < k - 1 && t.fills[m].key == last.key;
        assert t.fills[k - 1].key == x.detail && t.fills[k - 1].id == x.id;
      }
    }
  }

  predicate RowCode(c: Code) { c == OrphanRun || c == StaleHeartbeat || c == MultipleOpenPositions || c == DuplicateFill }

  lemma RunsReported(t: Tables, x: Issue, now: Time, threshold: nat)
    ensures x in Orphans(t.runs) <==> x.code == OrphanRun && Reported(t, x, now, threshold)
    ensures x in Stale(t.runtime, now, threshold) <==> x.code == StaleHeartbeat && Reported(t, x, now, threshold)
  {
    OrphanIff(t, t.runs, x);
    StaleIff(t, now, threshold, x);
    hide Orphans;
    hide Stale;
    hide StaleHolds;
  }

  lemma SeveralReported(t: Tables, x: Issue, now: Time, threshold: nat)
    ensures x in MultipleOpen(Dedup(OpenSymbols(t.positions)), OpenSymbols(t.positions)) <==>
              x.code == MultipleOpenPositions && Reported(t, x, now, threshold)
  {
    SeveralIff(t, x);
    hide MultipleOpen;
    hide OpenSymbols;
    hide SeveralHolds;
  }

  lemma RepeatsReported(t: Tables, x: Issue, now: Time, threshold: nat)
    ensures x in Duplicates(t.fills) <==> x.code == DuplicateFill && Reported(t, x, now, threshold)
  {
    RepeatIff(t, |t.fills|, x);
    assert t.fills[..|t.fills|] == t.fills;
    hide Duplicates;
  }

  lemma IntentsReported(t: Tables, x: Issue, now: Time, threshold: nat)
    ensures x in AllIntentIssues(t, t.intents) <==> IntentCode(x.code) && Reported(t, x, now, threshold)
  {
    IntentsIff(t, x);
    hide AllIntentIssues;
    hide IntentHolds;
  }

  lemma FillsReported(t: Tables, x: Issue, now: Time, threshold: nat)
    ensures x in AllFillIssues(t, t.fills) <==> FillCode(x.code) && Reported(t, x, now, threshold)
  {
    FillsIff(t, t.fills, x);
    hide AllFillIssues;
    hide FillHolds;
  }

  lemma PositionsReported(t: Tables, x: Issue, now: Time, threshold: nat)
    ensures x in AllPositionIssues(t, t.positions) <==> ReferenceCode(x.code) && Reported(t, x, now, threshold)
    ensures x in AllStopIssues(t.positions, t.stopEvents) <==>
              (StopCode(x.code) || x.code == StopHistoryFalls) && Reported(t, x, now, threshold)
  {
    PositionsIff(t, t.positions, x);
    StopsIff(t, t.positions, t.stopEvents, x);
    FallsIff(t, x.id);
    hide AllPositionIssues;
    hide AllStopIssues;
    hide PositionHolds;
    hide FallHolds;
    hide Falls;
  }

  lemma InChecks(t: Tables, x: Issue, now: Time, threshold: nat)
    ensures x in Checks(t, now, threshold) <==>
              x in Orphans(t.runs) || x in Stale(t.runtime, now, threshold) || x in Duplicates(t.fills) ||
              x in MultipleOpen(Dedup(OpenSymbols(t.positions)), OpenSymbols(t.positions)) ||
              x in AllIntentIssues(t, t.intents) || x in AllPositionIssues(t, t.positions) ||
              x in AllFillIssues(t, t.fills) || x in AllStopIssues(t.positions, t.stopEvents)
  {
    hide Orphans;
    hide Stale;
    hide MultipleOpen;
    hide OpenSymbols;
    hide AllIntentIssues;
    hide AllPositionIssues;
    hide AllFillIssues;
    hide AllStopIssues;
    hide Duplicates;
  }

  lemma ReportedCode(t: Tables, x: Issue, now: Time, threshold: nat)
    requires Reported(t, x, now, threshold)
    ensures RowCode(x.code) || IntentCode(x.code) || FillCode(x.code) || ReferenceCode(x.code) || StopCode(x.code) ||
            x.code == StopHistoryFalls
  {
  }

  /** An issue is reported exactly if the tables hold what its code says. */
  lemma {:induction false} ReportedIff(t: Tables, x: Issue, now: Time, threshold: nat)
    ensures x in Checks(t, now, threshold) <==> Reported(t, x, now, threshold)
  {
    hide Reported;
    hide Checks;
    hide Orphans;
    hide Stale;
    hide MultipleOpen;
    hide OpenSymbols;
    hide AllIntentIssues;
    hide AllPositionIssues;
    hide AllFillIssues;
    hide AllStopIssues;
    hide Duplicates;
    InChecks(t, x, now, threshold);
    RunsReported(t, x, now, threshold);
    SeveralReported(t, x, now, threshold);
    RepeatsReported(t, x, now, threshold);
    IntentsReported(t, x, now, threshold);
    FillsReported(t, x, now, threshold);
    PositionsReported(t, x, now, threshold);
    if Reported(t, x, now, threshold) {
      ReportedCode(t, x, now, threshold);
    }
  }

  /* ---------- the order of the issues ---------- */

  /** The place of a check among the checks. */
  function Place(c: Code): nat {
    match c
    case OrphanRun => 0
    case StaleHeartbeat => 1
    case MultipleOpenPositions => 2
    case FilledWithoutFill | FilledWithoutStatus | FillWithoutChain | OpenOrderWithFill | TerminalWithoutOrder => 3
    case PositionWithoutIntent | PositionWithoutFill | ClosingPosition => 4
    case ExitWithoutPosition | EntryWithoutOrder | FillWithoutOrder | FillWithoutPosition => 5
    case StopBelowInitial | HighestCloseBelowEntry | StopHistoryFalls => 6
    case DuplicateFill => 7
    case AccountingMismatch | MigrationNotAtHead => 8
  }

  predicate InPlace(issues: seq<Issue>, from: nat, to: nat) {
    && (forall i :: 0 <= i < |issues| ==> from <= Place(issues[i].code) <= to)
    && (forall i, j :: 0 <= i < j < |issues| ==> Place(issues[i].code) <= Place(issues[j].code))
  }

  lemma PlacesAppend(a: seq<Issue>, b: seq<Issue>, from: nat, middle: nat, next: nat, to: nat)
    requires InPlace(a, from, middle) && InPlace(b, next, to) && from <= middle <= next <= to
    ensures InPlace(a + b, from, to)
  {
    hide Place;
  }

  lemma OnePlace(issues: seq<Issue>, place: nat)
    requires forall x :: x in issues ==> Place(x.code) == place
    ensures InPlace(issues, place, place)
  {
    hide Place;
    forall i | 0 <= i < |issues| ensures Place(issues[i].code) == place {
      assert issues[i] in issues;
    }
  }

  lemma PartsInPlace(t: Tables, now: Time, threshold: nat)
    ensures InPlace(Orphans(t.runs), 0, 0) && InPlace(Stale(t.runtime, now, threshold), 1, 1)
    ensures InPlace(MultipleOpen(Dedup(OpenSymbols(t.positions)), OpenSymbols(t.positions)), 2, 2)
    ensures InPlace(AllIntentIssues(t, t.intents), 3, 3)
  {
    var several := MultipleOpen(Dedup(OpenSymbols(t.positions)), OpenSymbols(t.positions));
    hide MultipleOpen;
    hide AllIntentIssues;
    hide Orphans;
    hide Stale;
    hide OpenSymbols;
    hide Reported;
    hide InPlace;
    forall x ensures x in Orphans(t.runs) ==> Place(x.code) == 0
      ensures x in Stale(t.runtime, now, threshold) ==> Place(x.code) == 1
      ensures x in several ==> Place(x.code) == 2
      ensures x in AllIntentIssues(t, t.intents) ==> Place(x.code) == 3
    {
      RunsReported(t, x, now, threshold);
      SeveralReported(t, x, now, threshold);
      IntentsReported(t, x, now, threshold);
    }
    OnePlace(Orphans(t.runs), 0);
    OnePlace(Stale(t.runtime, now, threshold), 1);
    OnePlace(several, 2);
    OnePlace(AllIntentIssues(t, t.intents), 3);
  }

  lemma LastPartsInPlace(t: Tables)
    ensures InPlace(AllPositionIssues(t, t.positions), 4, 4) && InPlace(AllFillIssues(t, t.fills), 5, 5)
    ensures InPlace(AllStopIssues(t.positions, t.stopEvents), 6, 6) && InPlace(Duplicates(t.fills), 7, 7)
  {
    hide AllPositionIssues;
    hide AllFillIssues;
    hide AllStopIssues;
    hide Duplicates;
    hide Reported;
    hide InPlace;
    forall x ensures x in AllPositionIssues(t, t.positions) ==> Place(x.code) == 4
      ensures x in AllFillIssues(t, t.fills) ==> Place(x.code) == 5
      ensures x in AllStopIssues(t.positions, t.stopEvents) ==> Place(x.code) == 6
      ensures x in Duplicates(t.fills) ==> Place(x.code) == 7
    {
      PositionsReported(t, x, 0, 0);
      FillsReported(t, x, 0, 0);
      RepeatsReported(t, x, 0, 0);
    }
    OnePlace(AllPositionIssues(t, t.positions), 4);
    OnePlace(AllFillIssues(t, t.fills), 5);
    OnePlace(AllStopIssues(t.positions, t.stopEvents), 6);
    OnePlace(Duplicates(t.fills), 7);
  }

  /** The issues come in the order of the checks, whatever the tables: orphan runs, the heartbeat, positions of one
      symbol, intents, positions, fills, stops, repeated keys. Which issue comes first decides the recorded error. */
  lemma {:induction false} ChecksInOrder(t: Tables, now: Time, threshold: nat)
    ensures InPlace(Checks(t, now, threshold), 0, 7)
  {
    PartsInPlace(t, now, threshold);
    LastPartsInPlace(t);
    hide InPlace;
    hide MultipleOpen;
    hide AllIntentIssues;
    hide Orphans;
    hide Stale;
    hide OpenSymbols;
    hide AllPositionIssues;
    hide AllFillIssues;
    hide AllStopIssues;
    hide Duplicates;
    var several := MultipleOpen(Dedup(OpenSymbols(t.positions)), OpenSymbols(t.positions));
    var a := several + AllIntentIssues(t, t.intents);
    PlacesAppend(several, AllIntentIssues(t, t.intents), 2, 2, 3, 3);
    var b := a + AllPositionIssues(t, t.positions);
    PlacesAppend(a, AllPositionIssues(t, t.positions), 2, 3, 4, 4);
    var c := b + AllFillIssues(t, t.fills);
    PlacesAppend(b, AllFillIssues(t, t.fills), 2, 4, 5, 5);
    var d := c + AllStopIssues(t.positions, t.stopEvents);
    PlacesAppend(c, AllStopIssues(t.positions, t.stopEvents), 2, 5, 6, 6);
    PlacesAppend(d, Duplicates(t.fills), 2, 6, 7, 7);
    assert Rest(t) == d + Duplicates(t.fills);
    PlacesAppend(Stale(t.runtime, now, threshold), Rest(t), 1, 1, 2, 7);
    PlacesAppend(Orphans(t.runs), Stale(t.runtime, now, threshold) + Rest(t), 0, 0, 1, 7);
  }
}
