/** What a repair pass achieves: it removes exactly the issues it may repair and leaves every other one as it was. */
module RecoverySafety {
  import opened Common
  import opened Timeframes
  import opened Recovery

  /* ---------- which check reports what ---------- */

  predicate Within(issues: seq<Issue>, codes: set<Code>) { forall x :: x in issues ==> x.code in codes }

  lemma OrphanCodes(runs: seq<RunRow>)
    ensures Within(Orphans(runs), {OrphanRun}) && Left(Orphans(runs)) == []
  {
    if runs != [] {
      var front, last := runs[..|runs| - 1], runs[|runs| - 1];
      OrphanCodes(front);
      LeftAppend(Orphans(front), if last.status == RunRunning then [Issue(OrphanRun, Auto, last.id, last.job)] else []);
    }
  }

  lemma LeftAppend(a: seq<Issue>, b: seq<Issue>)
    ensures Left(a + b) == Left(a) + Left(b)
  {
    if b == [] {
      assert a + b == a;
    } else {
      assert (a + b)[..|a + b| - 1] == a + b[..|b| - 1];
      LeftAppend(a, b[..|b| - 1]);
    }
  }

  /** Nothing to repair among these. */
  predicate NoAuto(issues: seq<Issue>) { forall x :: x in issues ==> NotAuto(x) }

  lemma NothingLeftOut(issues: seq<Issue>)
    requires NoAuto(issues)
    ensures Left(issues) == issues
  {
    if issues != [] {
      NothingLeftOut(issues[..|issues| - 1]);
    }
  }

  lemma MultipleNoAuto(symbols: seq<string>, among: seq<string>)
    ensures NoAuto(MultipleOpen(symbols, among)) && Within(MultipleOpen(symbols, among), {MultipleOpenPositions})
  {
  }

  lemma PositionsNoAuto(t: Tables, positions: seq<Position>)
    ensures NoAuto(AllPositionIssues(t, positions))
    ensures Within(AllPositionIssues(t, positions), {PositionWithoutIntent, PositionWithoutFill, ClosingPosition})
  {
    if positions != [] {
      PositionsNoAuto(t, positions[..|positions| - 1]);
    }
  }

  lemma FillsNoAuto(t: Tables, fills: seq<Fill>)
    ensures NoAuto(AllFillIssues(t, fills))
    ensures Within(AllFillIssues(t, fills), {ExitWithoutPosition, EntryWithoutOrder, FillWithoutOrder, FillWithoutPosition})
  {
    if fills != [] {
      FillsNoAuto(t, fills[..|fills| - 1]);
    }
  }

  lemma FallingNoAuto(events: seq<StopEvent>, position: nat)
    ensures NoAuto(FallingStops(events, position)) && Within(FallingStops(events, position), {StopHistoryFalls})
  {
  }

  lemma StopsNoAuto(positions: seq<Position>, events: seq<StopEvent>)
    ensures NoAuto(AllStopIssues(positions, events))
    ensures Within(AllStopIssues(positions, events), {StopBelowInitial, HighestCloseBelowEntry, StopHistoryFalls})
  {
    if positions != [] {
      StopsNoAuto(positions[..|positions| - 1], events);
      FallingNoAuto(events, positions[|positions| - 1].id);
    }
  }

  lemma DuplicatesNoAuto(fills: seq<Fill>)
    ensures NoAuto(Duplicates(fills)) && Within(Duplicates(fills), {DuplicateFill})
  {
  }

  lemma IntentCodes(t: Tables, intents: seq<Intent>)
    ensures Within(AllIntentIssues(t, intents), {FilledWithoutFill, FilledWithoutStatus, FillWithoutChain, OpenOrderWithFill,
            TerminalWithoutOrder})
  {
    hide ChainHolds;
    hide ChainHoldsForIntent;
    hide OrderFor;
    hide FillsFor;
    if intents != [] {
      IntentCodes(t, intents[..|intents| - 1]);
    }
  }

  lemma RestCodes(t: Tables)
    ensures forall x :: x in Rest(t) && (x.code == OpenOrderWithFill || x.code == FilledWithoutStatus) ==>
            x in AllIntentIssues(t, t.intents)
    ensures forall x :: x in Rest(t) ==> x.code != OrphanRun && x.code != StaleHeartbeat
    ensures forall x :: x in AllIntentIssues(t, t.intents) ==> x in Rest(t)
    ensures forall x :: x in Rest(t) && !NotAuto(x) ==> x in AllIntentIssues(t, t.intents)
  {
    hide AllIntentIssues;
    hide AllPositionIssues;
    hide AllFillIssues;
    hide AllStopIssues;
    hide Duplicates;
    hide MultipleOpen;
    MultipleNoAuto(Dedup(OpenSymbols(t.positions)), OpenSymbols(t.positions));
    IntentCodes(t, t.intents);
    PositionsNoAuto(t, t.positions);
    FillsNoAuto(t, t.fills);
    StopsNoAuto(t.positions, t.stopEvents);
    DuplicatesNoAuto(t.fills);
  }

  /* ---------- flags ---------- */

  function OrderFlag(id: int): Issue { Issue(OpenOrderWithFill, Auto, id, "") }

  function IntentFlag(id: int): Issue { Issue(FilledWithoutStatus, Auto, id, "") }

  /** Primary keys, as the schema has them. */
  predicate Keyed(t: Tables) {
    && (forall i, j :: 0 <= i < j < |t.intents| ==> t.intents[i].id != t.intents[j].id)
    && (forall i, j :: 0 <= i < j < |t.orders| ==> t.orders[i].id != t.orders[j].id)
  }

  predicate OrderRepairable(t: Tables, o: Order) {
    o.status == OrderOpen && FillsFor(t.fills, o.id) != [] && ChainHolds(t, o.id)
  }

  predicate IntentRepairable(t: Tables, i: Intent) {
    var o := OrderFor(t.orders, i.id);
    o.Some? && FillsFor(t.fills, o.value.id) != [] && !IsTerminal(i.status) && ChainHoldsForIntent(t, i.id)
  }

  lemma StatusFlags(t: Tables, i: Intent, fills: seq<Fill>, id: int)
    ensures IntentFlag(id) in StatusIssues(t, i, fills) <==>
              i.id == id && fills != [] && !IsTerminal(i.status) && ChainHoldsForIntent(t, i.id)
    ensures OrderFlag(id) !in StatusIssues(t, i, fills)
  {
    hide ChainHoldsForIntent;
  }

  lemma OrderFlags(t: Tables, order: Option<Order>, fills: seq<Fill>, id: int)
    ensures OrderFlag(id) in OrderIssues(t, order, fills) <==>
              order.Some? && order.value.id == id && order.value.status == OrderOpen && fills != [] &&
                  ChainHolds(t, order.value.id)
    ensures IntentFlag(id) !in OrderIssues(t, order, fills)
  {
    hide ChainHolds;
  }

  lemma TerminalFlags(i: Intent, order: Option<Order>, id: int)
    ensures OrderFlag(id) !in TerminalIssues(i, order) && IntentFlag(id) !in TerminalIssues(i, order)
  {
  }

  lemma IntentIssuesFlags(t: Tables, i: Intent, id: int)
    ensures IntentFlag(id) in IntentIssues(t, i) <==> i.id == id && IntentRepairable(t, i)
    ensures OrderFlag(id) in IntentIssues(t, i) <==>
              OrderFor(t.orders, i.id).Some? && OrderFor(t.orders, i.id).value.id == id &&
                  OrderRepairable(t, OrderFor(t.orders, i.id).value)
  {
    hide ChainHolds;
    hide ChainHoldsForIntent;
    hide FillsFor;
    hide OrderFor;
    hide StatusIssues;
    hide OrderIssues;
    hide TerminalIssues;
    hide IntentFlag;
    hide OrderFlag;
    var order := OrderFor(t.orders, i.id);
    var fills := if order.Some? then FillsFor(t.fills, order.value.id) else [];
    StatusFlags(t, i, fills, id);
    OrderFlags(t, order, fills, id);
    TerminalFlags(i, order, id);
  }

  lemma {:induction false} IssueOfSome(t: Tables, intents: seq<Intent>, x: Issue)
    ensures x in AllIntentIssues(t, intents) <==> exists n :: 0 <= n < |intents| && x in IntentIssues(t, intents[n])
  {
    hide IntentIssues;
    if intents != [] {
      var front, last := intents[..|intents| - 1], intents[|intents| - 1];
      IssueOfSome(t, front, x);
      if n :| 0 <= n < |front| && x in IntentIssues(t, front[n]) {
        assert intents[n] == front[n];
      }
      if x in IntentIssues(t, last) {
        assert x in IntentIssues(t, intents[|front|]);
      }
      if n :| 0 <= n < |intents| && x in IntentIssues(t, intents[n]) {
        assert n < |front| ==> x in IntentIssues(t, front[n]);
      }
    }
  }

  lemma OrderForIsIn(orders: seq<Order>, intent: nat)
    ensures var o := OrderFor(orders, intent); o.Some? ==> o.value in orders && o.value.intent == intent
  {
  }

  lemma SameKeySameOrder(t: Tables, a: Order, b: Order)
    requires Keyed(t) && a in t.orders && b in t.orders && a.id == b.id
    ensures a == b
  {
    var i :| 0 <= i < |t.orders| && t.orders[i] == a;
    var j :| 0 <= j < |t.orders| && t.orders[j] == b;
    assert i == j;
  }

  /** An intent is flagged exactly if it can be repaired; its order exactly if that can be. */
  lemma {:induction false} FlaggedIff(t: Tables, n: nat)
    requires Keyed(t) && n < |t.intents|
    ensures IntentFlag(t.intents[n].id) in AllIntentIssues(t, t.intents) <==> IntentRepairable(t, t.intents[n])
    ensures var o := OrderFor(t.orders, t.intents[n].id);
            o.Some? ==> (OrderFlag(o.value.id) in AllIntentIssues(t, t.intents) <==> OrderRepairable(t, o.value))
  {
    hide IntentRepairable;
    hide OrderRepairable;
    hide AllIntentIssues;
    hide IntentIssues;
    var i := t.intents[n];
    IssueOfSome(t, t.intents, IntentFlag(i.id));
    IntentIssuesFlags(t, i, i.id);
    if m :| 0 <= m < |t.intents| && IntentFlag(i.id) in IntentIssues(t, t.intents[m]) {
      IntentIssuesFlags(t, t.intents[m], i.id);
      assert m == n;
    }
    var o := OrderFor(t.orders, i.id);
    if o.Some? {
      IssueOfSome(t, t.intents, OrderFlag(o.value.id));
      IntentIssuesFlags(t, i, o.value.id);
      OrderForIsIn(t.orders, i.id);
      if m :| 0 <= m < |t.intents| && OrderFlag(o.value.id) in IntentIssues(t, t.intents[m]) {
        IntentIssuesFlags(t, t.intents[m], o.value.id);
        OrderForIsIn(t.orders, t.intents[m].id);
        SameKeySameOrder(t, OrderFor(t.orders, t.intents[m].id).value, o.value);
      }
    }
  }

  /* ---------- what a repair pass does to the tables ---------- */

  /** Apart from statuses, nothing a chain depends on has changed. */
  predicate SameChains(t: Tables, u: Tables) {
    && u.fills == t.fills && u.positions == t.positions && u.hasWallet == t.hasWallet && u.stopEvents == t.stopEvents
    && |u.orders| == |t.orders| && |u.intents| == |t.intents|
    && (forall i :: 0 <= i < |t.orders| ==> u.orders[i].id == t.orders[i].id && u.orders[i].intent == t.orders[i].intent)
    && (forall i :: 0 <= i < |t.intents| ==> u.intents[i].id == t.intents[i].id)
  }

  predicate SameOrder(a: Option<Order>, b: Option<Order>) {
    a.Some? == b.Some? && (a.Some? ==> a.value.id == b.value.id && a.value.intent == b.value.intent)
  }

  lemma OrdersFoundAlike(a: seq<Order>, b: seq<Order>, key: nat)
    requires |a| == |b| && forall i :: 0 <= i < |a| ==> a[i].id == b[i].id && a[i].intent == b[i].intent
    ensures SameOrder(OrderFor(a, key), OrderFor(b, key)) && SameOrder(OrderById(a, key), OrderById(b, key))
  {
    if a != [] {
      assert forall i :: 0 <= i < |a| - 1 ==> a[1..][i] == a[i + 1] && b[1..][i] == b[i + 1];
      OrdersFoundAlike(a[1..], b[1..], key);
    }
  }

  lemma ChainsAlike(t: Tables, u: Tables, key: nat)
    requires SameChains(t, u)
    ensures ChainHolds(u, key) == ChainHolds(t, key) && ChainHoldsForIntent(u, key) == ChainHoldsForIntent(t, key)
    ensures SameOrder(OrderFor(t.orders, key), OrderFor(u.orders, key)) &&
            SameOrder(OrderById(t.orders, key), OrderById(u.orders, key))
  {
    OrdersFoundAlike(t.orders, u.orders, key);
    var o := OrderFor(t.orders, key);
    if o.Some? {
      OrdersFoundAlike(t.orders, u.orders, o.value.id);
    }
    hide FillsFor;
    hide OpenPositionOf;
    hide OrderFor;
    hide OrderById;
  }

  predicate HasCode(issues: seq<Issue>, code: Code) { exists i :: 0 <= i < |issues| && issues[i].code == code }

  predicate OrdersRepaired(a: seq<Order>, b: seq<Order>, issues: seq<Issue>) {
    |a| == |b| && forall i :: 0 <= i < |a| ==> b[i] == if OrderFlag(a[i].id) in issues then SetOrder(a[i], a[i].id) else a[i]
  }

  predicate IntentsRepaired(a: seq<Intent>, b: seq<Intent>, issues: seq<Issue>) {
    |a| == |b| && forall i :: 0 <= i < |a| ==> b[i] == if IntentFlag(a[i].id) in issues then SetIntent(a[i], a[i].id) else a[i]
  }

  predicate RuntimeRepaired(a: Option<Runtime>, b: Option<Runtime>, issues: seq<Issue>, now: Time) {
    if HasCode(issues, StaleHeartbeat) && a.Some?
    then b.Some? && b.value == a.value.(heartbeat := now, version := b.value.version)
    else b == a
  }

  /** The tables after repairing some issues: what was flagged is settled, the rest is as before. */
  predicate RepairedBy(t: Tables, u: Tables, issues: seq<Issue>, now: Time) {
    && SameChains(t, u)
    && OrdersRepaired(t.orders, u.orders, issues) && IntentsRepaired(t.intents, u.intents, issues)
    && u.runs == (if HasCode(issues, OrphanRun) then FailRuns(t.runs) else t.runs)
    && RuntimeRepaired(t.runtime, u.runtime, issues, now)
  }

  /** An issue a check can have reported: flags carry the chain they were raised for and no detail. */
  predicate Founded(t: Tables, x: Issue) {
    && (x.code == OpenOrderWithFill ==> x.id >= 0 && x == OrderFlag(x.id) && ChainHolds(t, x.id))
    && (x.code == FilledWithoutStatus ==> x.id >= 0 && x == IntentFlag(x.id) && ChainHoldsForIntent(t, x.id))
    && (x.code == OrphanRun || x.code == StaleHeartbeat ==> x.severity == Auto)
    && (!NotAuto(x) ==>
          x.code == OpenOrderWithFill || x.code == FilledWithoutStatus || x.code == OrphanRun || x.code == StaleHeartbeat)
  }

  lemma HasCodeNext(issues: seq<Issue>, x: Issue, code: Code)
    ensures HasCode(issues + [x], code) <==> HasCode(issues, code) || x.code == code
  {
    if i :| 0 <= i < |issues| && issues[i].code == code {
      assert (issues + [x])[i].code == code;
    }
    assert (issues + [x])[|issues|] == x;
    if i :| 0 <= i < |issues + [x]| && (issues + [x])[i].code == code {
      assert i < |issues| ==> issues[i].code == code;
    }
  }

  lemma OrdersNext(a: seq<Order>, b: seq<Order>, issues: seq<Issue>, x: Issue)
    requires OrdersRepaired(a, b, issues)
    ensures x.code != OpenOrderWithFill ==> OrdersRepaired(a, b, issues + [x])
    ensures x == OrderFlag(x.id) ==> OrdersRepaired(a, SetOrders(b, x.id), issues + [x])
  {
    assert forall y :: y in issues + [x] <==> y in issues || y == x;
  }

  lemma IntentsNext(a: seq<Intent>, b: seq<Intent>, issues: seq<Issue>, x: Issue)
    requires IntentsRepaired(a, b, issues)
    ensures x.code != FilledWithoutStatus ==> IntentsRepaired(a, b, issues + [x])
    ensures x == IntentFlag(x.id) ==> IntentsRepaired(a, SetIntents(b, x.id), issues + [x])
  {
    assert forall y :: y in issues + [x] <==> y in issues || y == x;
  }

  lemma ChainsStay(t: Tables, u: Tables, x: Issue, now: Time)
    requires SameChains(t, u)
    ensures SameChains(t, RepairOne(u, x, now))
  {
    hide ChainHolds;
    hide ChainHoldsForIntent;
  }

  lemma FailTwice(runs: seq<RunRow>)
    ensures FailRuns(FailRuns(runs)) == FailRuns(runs)
  {
  }

  lemma RepairNext(t: Tables, u: Tables, issues: seq<Issue>, x: Issue, now: Time)
    requires RepairedBy(t, u, issues, now) && Founded(t, x)
    ensures RepairedBy(t, RepairOne(u, x, now), issues + [x], now)
  {
    hide ChainHolds;
    hide ChainHoldsForIntent;
    hide OrdersRepaired;
    hide IntentsRepaired;
    hide SameChains;
    hide HasCode;
    hide FailRuns;
    hide SetOrders;
    hide SetIntents;
    OrdersNext(t.orders, u.orders, issues, x);
    IntentsNext(t.intents, u.intents, issues, x);
    HasCodeNext(issues, x, OrphanRun);
    HasCodeNext(issues, x, StaleHeartbeat);
    ChainsStay(t, u, x, now);
    FailTwice(t.runs);
    if x.id >= 0 {
      ChainsAlike(t, u, x.id);
    }
  }

  lemma RepairedNone(t: Tables, now: Time)
    ensures RepairedBy(t, t, [], now)
  {
  }

  lemma {:induction false} RepairsAreExact(t: Tables, issues: seq<Issue>, now: Time)
    requires forall x :: x in issues ==> Founded(t, x)
    ensures RepairedBy(t, RepairAll(t, issues, now), issues, now)
  {
    hide RepairedBy;
    hide RepairOne;
    hide Founded;
    if issues == [] {
      RepairedNone(t, now);
    } else {
      var front, last := issues[..|issues| - 1], issues[|issues| - 1];
      RepairsAreExact(t, front, now);
      assert last in issues && issues == front + [last];
      RepairNext(t, RepairAll(t, front, now), front, last, now);
    }
  }

  /* ---------- the checks after it ---------- */

  lemma OrphansFounded(t: Tables, runs: seq<RunRow>)
    ensures forall x :: x in Orphans(runs) ==> x.code == OrphanRun && x.severity == Auto
  {
  }

  /** No orphan is reported exactly if nothing is running. */
  lemma {:induction false} OrphansIff(runs: seq<RunRow>)
    ensures Orphans(runs) == [] <==> forall i :: 0 <= i < |runs| ==> runs[i].status != RunRunning
  {
    if runs != [] {
      var front := runs[..|runs| - 1];
      OrphansIff(front);
      assert (forall i :: 0 <= i < |runs| ==> runs[i].status != RunRunning) ==> forall i :: 0 <= i < |front| ==>
             front[i] == runs[i];
      assert forall i :: 0 <= i < |front| ==> runs[i] == front[i];
    }
  }

  lemma IntentIssuesFounded(t: Tables, i: Intent)
    ensures forall x :: x in IntentIssues(t, i) ==> Founded(t, x)
  {
    hide ChainHolds;
    hide ChainHoldsForIntent;
    hide OrderFor;
    hide FillsFor;
  }

  lemma {:induction false} AllIntentsFounded(t: Tables, intents: seq<Intent>)
    ensures forall x :: x in AllIntentIssues(t, intents) ==> Founded(t, x)
  {
    hide Founded;
    hide IntentIssues;
    if intents != [] {
      AllIntentsFounded(t, intents[..|intents| - 1]);
      IntentIssuesFounded(t, intents[|intents| - 1]);
    }
  }

  lemma ChecksFounded(t: Tables, now: Time, threshold: nat)
    ensures forall x :: x in Checks(t, now, threshold) ==> Founded(t, x)
  {
    OrphansFounded(t, t.runs);
    AllIntentsFounded(t, t.intents);
    RestCodes(t);
    hide Rest;
    hide Orphans;
    hide AllIntentIssues;
    hide ChainHolds;
    hide ChainHoldsForIntent;
  }

  /** The flags among some issues are those the intents call for. */
  predicate FlagsFrom(t: Tables, issues: seq<Issue>) {
    && (forall i :: 0 <= i < |t.intents| ==>
          (IntentFlag(t.intents[i].id) in issues <==> IntentFlag(t.intents[i].id) in AllIntentIssues(t, t.intents)))
    && (forall i :: 0 <= i < |t.orders| ==>
          (OrderFlag(t.orders[i].id) in issues <==> OrderFlag(t.orders[i].id) in AllIntentIssues(t, t.intents)))
  }

  lemma ChecksFlags(t: Tables, now: Time, threshold: nat)
    ensures FlagsFrom(t, Checks(t, now, threshold))
  {
    OrphansFounded(t, t.runs);
    RestCodes(t);
    hide Rest;
    hide Orphans;
    hide AllIntentIssues;
  }

  lemma OrderIndex(a: seq<Order>, b: seq<Order>, key: nat)
    requires |a| == |b| && forall i :: 0 <= i < |a| ==> a[i].id == b[i].id && a[i].intent == b[i].intent
    ensures OrderFor(a, key).Some? ==>
              exists i :: 0 <= i < |a| && OrderFor(a, key) == Some(a[i]) && OrderFor(b, key) == Some(b[i])
    ensures OrderById(a, key).Some? ==>
              exists i :: 0 <= i < |a| && OrderById(a, key) == Some(a[i]) && OrderById(b, key) == Some(b[i])
  {
    if a != [] {
      assert forall i :: 0 <= i < |a| - 1 ==> a[1..][i] == a[i + 1] && b[1..][i] == b[i + 1];
      OrderIndex(a[1..], b[1..], key);
      if OrderFor(a, key).Some? && a[0].intent != key {
        var i :| 0 <= i < |a| - 1 && OrderFor(a[1..], key) == Some(a[1..][i]) && OrderFor(b[1..], key) == Some(b[1..][i]);
        assert OrderFor(a, key) == Some(a[i + 1]) && OrderFor(b, key) == Some(b[i + 1]);
      } else if OrderFor(a, key).Some? {
        assert OrderFor(a, key) == Some(a[0]) && OrderFor(b, key) == Some(b[0]);
      }
      if OrderById(a, key).Some? && a[0].id != key {
        var i :| 0 <= i < |a| - 1 && OrderById(a[1..], key) == Some(a[1..][i]) && OrderById(b[1..], key) == Some(b[1..][i]);
        assert OrderById(a, key) == Some(a[i + 1]) && OrderById(b, key) == Some(b[i + 1]);
      } else if OrderById(a, key).Some? {
        assert OrderById(a, key) == Some(a[0]) && OrderById(b, key) == Some(b[0]);
      }
    }
  }

  /** What an order looked up after the repair is. */
  predicate Settled(issues: seq<Issue>, a: Option<Order>, b: Option<Order>) {
    && a.Some? == b.Some?
    && (a.Some? ==> b.value == if OrderFlag(a.value.id) in issues then SetOrder(a.value, a.value.id) else a.value)
  }

  lemma LookupsSettled(t: Tables, u: Tables, issues: seq<Issue>, key: nat)
    requires SameChains(t, u) && OrdersRepaired(t.orders, u.orders, issues)
    ensures Settled(issues, OrderFor(t.orders, key), OrderFor(u.orders, key))
    ensures Settled(issues, OrderById(t.orders, key), OrderById(u.orders, key))
  {
    OrderIndex(t.orders, u.orders, key);
    OrdersFoundAlike(t.orders, u.orders, key);
    hide OrderFor;
    hide OrderById;
  }

  lemma LeftOne(x: Issue)
    ensures Left([x]) == if NotAuto(x) then [x] else []
  {
    assert [x][..0] == [];
  }

  lemma StatusAfter(t: Tables, u: Tables, i: Intent, j: Intent, fills: seq<Fill>)
    requires ChainHoldsForIntent(u, i.id) == ChainHoldsForIntent(t, i.id)
    requires j == if fills != [] && !IsTerminal(i.status) && ChainHoldsForIntent(t, i.id) then SetIntent(i, i.id) else i
    ensures StatusIssues(u, j, fills) == Left(StatusIssues(t, i, fills))
  {
    hide ChainHoldsForIntent;
    LeftOne(Issue(FilledWithoutFill, Manual, i.id, ""));
    LeftOne(Issue(FilledWithoutStatus, Auto, i.id, ""));
    LeftOne(Issue(FillWithoutChain, Fatal, i.id, "intent"));
  }

  lemma OrderAfter(t: Tables, u: Tables, order: Option<Order>, other: Option<Order>, fills: seq<Fill>)
    requires order.Some? == other.Some?
    requires order.Some? ==>
               ChainHolds(u, order.value.id) == ChainHolds(t, order.value.id) && fills == FillsFor(t.fills, order.value.id) &&
               other.value == if OrderRepairable(t, order.value) then SetOrder(order.value, order.value.id) else order.value
    ensures OrderIssues(u, other, fills) == Left(OrderIssues(t, order, fills))
  {
    hide ChainHolds;
    hide FillsFor;
    if order.Some? {
      LeftOne(Issue(OpenOrderWithFill, Auto, order.value.id, ""));
      LeftOne(Issue(FillWithoutChain, Fatal, order.value.id, "order"));
    }
  }

  lemma TerminalAfter(i: Intent, j: Intent, order: Option<Order>, other: Option<Order>)
    requires order.Some? == other.Some? && i.id == j.id && (j.status == i.status ||
             (!IsTerminal(i.status) && j.status == IntentFilled))
    ensures TerminalIssues(j, other) == Left(TerminalIssues(i, order))
  {
    LeftOne(Issue(TerminalWithoutOrder, Manual, i.id, ""));
  }

  lemma {:induction false} IntentAfter(t: Tables, u: Tables, issues: seq<Issue>, now: Time, n: nat)
    requires Keyed(t) && RepairedBy(t, u, issues, now) && FlagsFrom(t, issues) && n < |t.intents|
    ensures IntentIssues(u, u.intents[n]) == Left(IntentIssues(t, t.intents[n]))
  {
    var i, j := t.intents[n], u.intents[n];
    var order, other := OrderFor(t.orders, i.id), OrderFor(u.orders, i.id);
    var fills := if order.Some? then FillsFor(t.fills, order.value.id) else [];
    FlaggedIff(t, n);
    ChainsAlike(t, u, i.id);
    LookupsSettled(t, u, issues, i.id);
    assert order.Some? ==> order.value in t.orders by { OrderForIsIn(t.orders, i.id); }
    if order.Some? {
      ChainsAlike(t, u, order.value.id);
      var m :| 0 <= m < |t.orders| && t.orders[m] == order.value;
    }
    hide ChainHolds;
    hide ChainHoldsForIntent;
    hide OrderFor;
    hide FillsFor;
    hide AllIntentIssues;
    hide SameChains;
    hide RuntimeRepaired;
    hide OrdersRepaired;
    hide FailRuns;
    StatusAfter(t, u, i, j, fills);
    OrderAfter(t, u, order, other, fills);
    TerminalAfter(i, j, order, other);
    LeftAppend(StatusIssues(t, i, fills), OrderIssues(t, order, fills));
    LeftAppend(StatusIssues(t, i, fills) + OrderIssues(t, order, fills), TerminalIssues(i, order));
    hide StatusIssues;
    hide OrderIssues;
    hide TerminalIssues;
    hide Left;
  }

  lemma {:induction false} IntentsAfter(t: Tables, u: Tables, issues: seq<Issue>, now: Time, n: nat)
    requires Keyed(t) && RepairedBy(t, u, issues, now) && FlagsFrom(t, issues) && n <= |t.intents| == |u.intents|
    ensures AllIntentIssues(u, u.intents[..n]) == Left(AllIntentIssues(t, t.intents[..n]))
  {
    hide RepairedBy;
    hide FlagsFrom;
    hide Keyed;
    hide IntentIssues;
    hide Left;
    if n > 0 {
      IntentsAfter(t, u, issues, now, n - 1);
      IntentAfter(t, u, issues, now, n - 1);
      assert t.intents[..n][..n - 1] == t.intents[..n - 1] && u.intents[..n][..n - 1] == u.intents[..n - 1];
      LeftAppend(AllIntentIssues(t, t.intents[..n - 1]), IntentIssues(t, t.intents[n - 1]));
    } else {
      NoneLeft();
    }
  }

  lemma NoneLeft()
    ensures Left([]) == []
  {
  }

  lemma IntentsKept(t: Tables, u: Tables, id: nat)
    requires SameChains(t, u)
    ensures HasIntent(u, id) == HasIntent(t, id) && HasPositionFor(u, id) == HasPositionFor(t, id)
  {
    if HasIntent(t, id) {
      var i :| 0 <= i < |t.intents| && t.intents[i].id == id;
      assert u.intents[i].id == id;
    }
    if HasIntent(u, id) {
      var i :| 0 <= i < |u.intents| && u.intents[i].id == id;
      assert t.intents[i].id == id;
    }
  }

  lemma {:induction false} PositionsAfter(t: Tables, u: Tables, positions: seq<Position>)
    requires SameChains(t, u)
    ensures AllPositionIssues(u, positions) == AllPositionIssues(t, positions)
  {
    hide FillsFor;
    hide OrderFor;
    hide HasIntent;
    if positions != [] {
      var p := positions[|positions| - 1];
      PositionsAfter(t, u, positions[..|positions| - 1]);
      IntentsKept(t, u, p.entryIntent);
      ChainsAlike(t, u, p.entryIntent);
      hide SameChains;
      hide ChainHolds;
      hide ChainHoldsForIntent;
      assert PositionIssues(u, p) == PositionIssues(t, p) by { assert u.fills == t.fills by { SameFills(t, u); } }
    }
  }

  lemma SameFills(t: Tables, u: Tables)
    requires SameChains(t, u)
    ensures u.fills == t.fills
  {
  }

  lemma OpenPositionIsIn(positions: seq<Position>, symbol: string)
    ensures var p := OpenPositionOf(positions, symbol); p.Some? ==> p.value in positions
  {
  }

  /** An order that a repair fills has a position, so filling it raises no new issue. */
  lemma ChainHasPosition(t: Tables, order: nat)
    requires ChainHolds(t, order)
    ensures OrderById(t.orders, order).Some? && HasPositionFor(t, OrderById(t.orders, order).value.intent)
  {
    var p := OpenPositionOf(t.positions, FillsFor(t.fills, order)[0].symbol);
    OpenPositionIsIn(t.positions, FillsFor(t.fills, order)[0].symbol);
    hide FillsFor;
    hide OpenPositionOf;
    hide OrderById;
    var i :| 0 <= i < |t.positions| && t.positions[i] == p.value;
  }

  lemma {:induction false} FillAfter(t: Tables, u: Tables, issues: seq<Issue>, now: Time, f: Fill)
    requires RepairedBy(t, u, issues, now) && forall x :: x in issues ==> Founded(t, x)
    ensures FillIssues(u, f) == FillIssues(t, f)
  {
    if f.kind == Entry && f.order.Some? {
      var key := f.order.value;
      LookupsSettled(t, u, issues, key);
      var order := OrderById(t.orders, key);
      if order.Some? {
        OrderByIdKey(t.orders, key);
        IntentsKept(t, u, order.value.intent);
        if OrderFlag(key) in issues {
          assert Founded(t, OrderFlag(key));
          ChainHasPosition(t, key);
        }
      }
    }
    hide OrderById;
    hide ChainHolds;
    hide ChainHoldsForIntent;
    hide RepairedBy;
    hide HasPositionFor;
  }

  lemma OrderByIdKey(orders: seq<Order>, key: nat)
    ensures OrderById(orders, key).Some? ==> OrderById(orders, key).value.id == key
  {
  }

  lemma {:induction false} FillsAfter(t: Tables, u: Tables, issues: seq<Issue>, now: Time, fills: seq<Fill>)
    requires RepairedBy(t, u, issues, now) && forall x :: x in issues ==> Founded(t, x)
    ensures AllFillIssues(u, fills) == AllFillIssues(t, fills)
  {
    hide RepairedBy;
    hide Founded;
    hide FillIssues;
    if fills != [] {
      FillsAfter(t, u, issues, now, fills[..|fills| - 1]);
      FillAfter(t, u, issues, now, fills[|fills| - 1]);
    }
  }

  lemma PartsNoAuto(t: Tables)
    ensures Left(MultipleOpen(Dedup(OpenSymbols(t.positions)), OpenSymbols(t.positions))) ==
            MultipleOpen(Dedup(OpenSymbols(t.positions)), OpenSymbols(t.positions))
    ensures Left(AllPositionIssues(t, t.positions)) == AllPositionIssues(t, t.positions)
    ensures Left(AllFillIssues(t, t.fills)) == AllFillIssues(t, t.fills)
    ensures Left(AllStopIssues(t.positions, t.stopEvents)) == AllStopIssues(t.positions, t.stopEvents)
    ensures Left(Duplicates(t.fills)) == Duplicates(t.fills)
  {
    hide MultipleOpen;
    hide AllPositionIssues;
    hide AllFillIssues;
    hide AllStopIssues;
    hide Duplicates;
    hide Left;
    hide NoAuto;
    MultipleNoAuto(Dedup(OpenSymbols(t.positions)), OpenSymbols(t.positions));
    PositionsNoAuto(t, t.positions);
    FillsNoAuto(t, t.fills);
    StopsNoAuto(t.positions, t.stopEvents);
    DuplicatesNoAuto(t.fills);
    NothingLeftOut(MultipleOpen(Dedup(OpenSymbols(t.positions)), OpenSymbols(t.positions)));
    NothingLeftOut(AllPositionIssues(t, t.positions));
    NothingLeftOut(AllFillIssues(t, t.fills));
    NothingLeftOut(AllStopIssues(t.positions, t.stopEvents));
    NothingLeftOut(Duplicates(t.fills));
  }

  lemma AllIntentsAfter(t: Tables, u: Tables, issues: seq<Issue>, now: Time)
    requires Keyed(t) && RepairedBy(t, u, issues, now) && FlagsFrom(t, issues)
    ensures AllIntentIssues(u, u.intents) == Left(AllIntentIssues(t, t.intents))
  {
    assert |u.intents| == |t.intents|;
    hide RepairedBy;
    hide FlagsFrom;
    hide Keyed;
    hide AllIntentIssues;
    hide Left;
    IntentsAfter(t, u, issues, now, |t.intents|);
    assert t.intents[..|t.intents|] == t.intents && u.intents[..|u.intents|] == u.intents;
  }

  lemma {:induction false} RestAfter(t: Tables, u: Tables, issues: seq<Issue>, now: Time)
    requires Keyed(t) && RepairedBy(t, u, issues, now) && FlagsFrom(t, issues) && forall x :: x in issues ==> Founded(t, x)
    ensures Rest(u) == Left(Rest(t))
  {
    assert SameChains(t, u) && u.positions == t.positions && u.stopEvents == t.stopEvents && u.fills == t.fills;
    AllIntentsAfter(t, u, issues, now);
    PositionsAfter(t, u, t.positions);
    FillsAfter(t, u, issues, now, t.fills);
    PartsNoAuto(t);
    hide RepairedBy;
    hide FlagsFrom;
    hide Keyed;
    hide SameChains;
    hide Founded;
    hide MultipleOpen;
    hide AllIntentIssues;
    hide AllPositionIssues;
    hide AllFillIssues;
    hide AllStopIssues;
    hide Duplicates;
    hide Left;
    LeftSix(MultipleOpen(Dedup(OpenSymbols(t.positions)), OpenSymbols(t.positions)), AllIntentIssues(t, t.intents),
            AllPositionIssues(t, t.positions), AllFillIssues(t, t.fills), AllStopIssues(t.positions, t.stopEvents),
            Duplicates(t.fills));
  }

  lemma LeftSix(a: seq<Issue>, b: seq<Issue>, c: seq<Issue>, d: seq<Issue>, e: seq<Issue>, f: seq<Issue>)
    ensures Left(a + b + c + d + e + f) == Left(a) + Left(b) + Left(c) + Left(d) + Left(e) + Left(f)
  {
    hide Left;
    LeftAppend(a, b);
    LeftAppend(a + b, c);
    LeftAppend(a + b + c, d);
    LeftAppend(a + b + c + d, e);
    LeftAppend(a + b + c + d + e, f);
  }

  /* ---------- the repair pass ---------- */

  function Repaired(t: Tables, first: Time, now: Time, threshold: nat): Tables {
    RepairAll(t, Checks(t, first, threshold), now)
  }

  lemma RunsAfter(t: Tables, issues: seq<Issue>, runs: seq<RunRow>)
    requires Orphans(t.runs) != [] ==> HasCode(issues, OrphanRun)
    requires runs == if HasCode(issues, OrphanRun) then FailRuns(t.runs) else t.runs
    ensures Orphans(runs) == []
  {
    OrphansIff(runs);
    OrphansIff(t.runs);
    hide Orphans;
  }

  lemma PartHasCode(a: seq<Issue>, b: seq<Issue>, code: Code)
    requires HasCode(a, code)
    ensures HasCode(a + b, code) && HasCode(b + a, code)
  {
    var i :| 0 <= i < |a| && a[i].code == code;
    assert (a + b)[i].code == code && (b + a)[|b| + i].code == code;
  }

  lemma FirstHasCode(a: seq<Issue>, code: Code)
    requires a != [] && a[0].code == code
    ensures HasCode(a, code)
  {
  }

  lemma {:induction false} RepairPass(t: Tables, first: Time, now: Time, threshold: nat)
    ensures RepairedBy(t, Repaired(t, first, now, threshold), Checks(t, first, threshold), now)
    ensures Orphans(Repaired(t, first, now, threshold).runs) == []
  {
    var issues := Checks(t, first, threshold);
    ChecksFounded(t, first, threshold);
    OrphansFounded(t, t.runs);
    hide Founded;
    hide Rest;
    hide Orphans;
    RepairsAreExact(t, issues, now);
    if Orphans(t.runs) != [] {
      assert Orphans(t.runs)[0] in Orphans(t.runs);
      FirstHasCode(Orphans(t.runs), OrphanRun);
      PartHasCode(Orphans(t.runs), Stale(t.runtime, first, threshold) + Rest(t), OrphanRun);
    }
    hide HasCode;
    hide Stale;
    RunsAfter(t, issues, Repaired(t, first, now, threshold).runs);
    hide RepairAll;
  }

  /** One pass removes every issue it may repair and changes no other: checked again at any later time, the
      tables give exactly the issues left over, preceded by a stale heartbeat if there is one by then. */
  lemma {:induction false} RepairIsExact(t: Tables, first: Time, now: Time, later: Time, threshold: nat)
    requires Keyed(t)
    ensures var u := Repaired(t, first, now, threshold);
            Checks(u, later, threshold) == Stale(u.runtime, later, threshold) + Left(Checks(t, first, threshold))
  {
    var u := Repaired(t, first, now, threshold);
    RepairPass(t, first, now, threshold);
    ChecksFounded(t, first, threshold);
    ChecksFlags(t, first, threshold);
    OrphanCodes(t.runs);
    StaleLeft(t.runtime, first, threshold);
    hide RepairedBy;
    hide Founded;
    hide FlagsFrom;
    hide Keyed;
    hide Rest;
    hide Orphans;
    hide Stale;
    hide Left;
    hide Repaired;
    RestAfter(t, u, Checks(t, first, threshold), now);
    LeftAppend(Orphans(t.runs), Stale(t.runtime, first, threshold) + Rest(t));
    LeftAppend(Stale(t.runtime, first, threshold), Rest(t));
  }

  lemma StaleLeft(r: Option<Runtime>, now: Time, threshold: nat)
    ensures Left(Stale(r, now, threshold)) == []
  {
    if IsStale(r, now, threshold) {
      LeftOne(Issue(StaleHeartbeat, Auto, now - r.value.heartbeat, ""));
    } else {
      NoneLeft();
    }
  }

  /* ---------- what the pass reports ---------- */

  lemma {:induction false} NoneRunning(runs: seq<RunRow>)
    ensures RunningCount(FailRuns(runs)) == 0
    ensures RunningCount(runs) == |Orphans(runs)|
  {
    if runs != [] {
      NoneRunning(runs[..|runs| - 1]);
      assert FailRuns(runs)[..|runs| - 1] == FailRuns(runs[..|runs| - 1]);
    }
  }

  /** The report of an issue other than an orphan, from the issue alone. */
  function NameOf(x: Issue): seq<Repair> {
    match x.code
    case OpenOrderWithFill => [OrderSetFilled(x.id)]
    case FilledWithoutStatus => [IntentSetFilled(x.id)]
    case StaleHeartbeat => [HeartbeatRefreshed]
    case _ => []
  }

  function Names(issues: seq<Issue>): seq<Repair> {
    if issues == [] then [] else Names(issues[..|issues| - 1]) + NameOf(issues[|issues| - 1])
  }

  lemma ReportIs(t: Tables, u: Tables, issues: seq<Issue>, x: Issue, now: Time)
    requires RepairedBy(t, u, issues, now) && Founded(t, x) && (x.code == StaleHeartbeat ==> t.runtime.Some?)
    ensures ReportOf(u, x) ==
            if x.code == OrphanRun then
              (if HasCode(issues, OrphanRun) || Orphans(t.runs) == [] then [] else [RunsFailed(|Orphans(t.runs)|)])
            else NameOf(x)
  {
    hide ChainHolds;
    hide ChainHoldsForIntent;
    hide OrdersRepaired;
    hide IntentsRepaired;
    hide SameChains;
    hide HasCode;
    hide FailRuns;
    hide Orphans;
    NoneRunning(t.runs);
    if x.id >= 0 {
      ChainsAlike(t, u, x.id);
    }
  }

  predicate OrphansFirst(issues: seq<Issue>) {
    forall i, j :: 0 <= i < j < |issues| && issues[j].code == OrphanRun ==> issues[i].code == OrphanRun
  }

  lemma {:induction false} RepairsNamed(t: Tables, issues: seq<Issue>, now: Time)
    requires forall x :: x in issues ==> Founded(t, x) && (x.code == StaleHeartbeat ==> t.runtime.Some?)
    requires OrphansFirst(issues)
    ensures RepairsMade(t, issues, now) ==
            (if HasCode(issues, OrphanRun) && Orphans(t.runs) != [] then [RunsFailed(|Orphans(t.runs)|)] else []) + Names(issues)
  {
    hide RepairedBy;
    hide Founded;
    hide Orphans;
    hide RepairAll;
    hide ReportOf;
    hide NameOf;
    hide HasCode;
    NothingHasCode();
    if issues != [] {
      var front, last := issues[..|issues| - 1], issues[|issues| - 1];
      assert issues == front + [last] && last in issues;
      NoName(last);
      RepairsNamed(t, front, now);
      RepairsAreExact(t, front, now);
      ReportIs(t, RepairAll(t, front, now), front, last, now);
      HasCodeNext(front, last, OrphanRun);
      if last.code == OrphanRun {
        OnlyOrphans(front);
      }
    }
  }

  lemma NothingHasCode()
    ensures !HasCode([], OrphanRun)
  {
  }

  lemma NoName(x: Issue)
    ensures x.code == OrphanRun ==> NameOf(x) == []
  {
  }

  lemma {:induction false} OnlyOrphans(issues: seq<Issue>)
    requires forall i :: 0 <= i < |issues| ==> issues[i].code == OrphanRun
    ensures Names(issues) == [] && (issues != [] ==> HasCode(issues, OrphanRun))
  {
    if issues != [] {
      OnlyOrphans(issues[..|issues| - 1]);
    }
  }

  lemma OrphansComeFirst(a: seq<Issue>, b: seq<Issue>)
    requires (forall x :: x in a ==> x.code == OrphanRun) && (forall x :: x in b ==> x.code != OrphanRun)
    ensures OrphansFirst(a + b)
  {
  }

  /** A repair pass reports the number of orphans once, if there are any, and then, in the order of the issues, a stale
      heartbeat and each order and intent that was flagged; nothing it reports was left undone. */
  lemma {:induction false} RepairListExact(t: Tables, first: Time, now: Time, threshold: nat)
    ensures RepairsMade(t, Checks(t, first, threshold), now) ==
            (if Orphans(t.runs) == [] then [] else [RunsFailed(|Orphans(t.runs)|)]) + Names(Checks(t, first, threshold))
  {
    var issues := Checks(t, first, threshold);
    ChecksFounded(t, first, threshold);
    OrphansFounded(t, t.runs);
    RestCodes(t);
    hide Founded;
    hide Rest;
    hide Orphans;
    OrphansComeFirst(Orphans(t.runs), Stale(t.runtime, first, threshold) + Rest(t));
    if Orphans(t.runs) != [] {
      assert Orphans(t.runs)[0] in Orphans(t.runs);
      FirstHasCode(Orphans(t.runs), OrphanRun);
      PartHasCode(Orphans(t.runs), Stale(t.runtime, first, threshold) + Rest(t), OrphanRun);
    }
    RepairsNamed(t, issues, now);
    hide RepairsMade;
    hide Names;
  }
}
