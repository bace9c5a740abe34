/** What a recovery that ends ready, degraded or failed says about the rows of the tables. */
module RecoveryReady {
  import opened Common
  import opened Timeframes
  import opened Recovery
  import opened RecoverySafety
  import opened RecoveryEngine
  import opened RecoveryIssues

  /* ---------- consistent tables ---------- */

  ghost predicate SoundIntent(t: Tables, i: Intent) {
    && (i.status == IntentFilled ==> !NeverFilled(t, i.id))
    && (Unfinished(i.status) ==> !FilledUnsoundly(t, i.id))
    && (i.status == IntentExpired || i.status == IntentFailed ==> !NoOrder(t.orders, i.id))
    && (forall o: nat :: FilledBy(t, i.id, o) && t.orders[o].status == OrderOpen ==> Chain(t, t.orders[o].id))
  }

  predicate SoundPosition(t: Tables, p: Position) {
    && p.status != PositionClosing && p.initialStop <= p.currentStop && p.averageEntry <= p.highestClose
    && (p.status == PositionOpen ==>
          exists n, o :: 0 <= n < |t.intents| && t.intents[n].id == p.entryIntent && 0 <= o < |t.orders| &&
            FilledBy(t, p.entryIntent, o))
  }

  /** The order is there and, if it is filled, its intent has a position. */
  predicate FilledSomewhere(t: Tables, id: nat, o: nat) {
    OrderAt(t.orders, id, o) && (t.orders[o].status == OrderFilled ==> !Positionless(t, t.orders[o].intent))
  }

  predicate SoundFill(t: Tables, f: Fill) {
    match f.kind
    case Exit => f.position.Some?
    case Entry =>
      f.order.Some? && exists o :: 0 <= o < |t.orders| && FilledSomewhere(t, f.order.value, o)
  }

  predicate OneHeld(positions: seq<Position>) {
    forall i, j :: 0 <= i < j < |positions| && Held(positions[i]) && Held(positions[j]) ==>
      positions[i].symbol != positions[j].symbol
  }

  predicate StopsRise(t: Tables) {
    forall n, m :: 0 <= n < |t.stopEvents| && 0 <= m < |t.positions| && t.stopEvents[n].position == t.positions[m].id ==>
      t.stopEvents[n].previous <= t.stopEvents[n].next
  }

  predicate KeysDiffer(fills: seq<Fill>) { forall m, n :: 0 <= m < n < |fills| ==> fills[m].key != fills[n].key }

  /** Nothing that needs an operator: every reference is there, every filled row has its chain, stops are in order. */
  ghost predicate Consistent(t: Tables) {
    && (forall n :: 0 <= n < |t.intents| ==> SoundIntent(t, t.intents[n]))
    && (forall n :: 0 <= n < |t.positions| ==> SoundPosition(t, t.positions[n]))
    && (forall n :: 0 <= n < |t.fills| ==> SoundFill(t, t.fills[n]))
    && OneHeld(t.positions) && StopsRise(t) && KeysDiffer(t.fills)
  }

  lemma {:induction false} OneHeldIff(positions: seq<Position>)
    ensures OneHeld(positions) <==> forall symbol :: |HeldOf(positions, symbol)| <= 1
  {
    forall symbol | |HeldOf(positions, symbol)| > 1 ensures !OneHeld(positions) {
      var held := HeldOf(positions, symbol);
      var i :| i in held;
      assert |held - {i}| == |held| - 1;
      var j :| j in held - {i};
      assert Held(positions[i]) && Held(positions[j]) && positions[i].symbol == positions[j].symbol;
    }
    if !OneHeld(positions) {
      var i, j :| 0 <= i < j < |positions| && Held(positions[i]) && Held(positions[j]) &&
        positions[i].symbol == positions[j].symbol;
      var held := HeldOf(positions, positions[i].symbol);
      assert j in held - {i} && |held - {i}| == |held| - 1;
    }
  }

  /** Of the severe issues none depends on the clock. */
  lemma SevereIsTimeless(t: Tables, x: Issue, now: Time, threshold: nat)
    requires x.severity != Auto
    ensures Reported(t, x, now, threshold) <==> Reported(t, x, 0, 0)
  {
    hide OrphanHolds;
    hide SeveralHolds;
    hide IntentHolds;
    hide PositionHolds;
    hide FillHolds;
    hide FallHolds;
    hide RepeatHolds;
  }

  lemma SoundIntentIff(t: Tables, n: nat)
    requires n < |t.intents|
    ensures SoundIntent(t, t.intents[n]) <==>
              forall code, id, detail :: IntentHolds(t, code, id, detail, n) ==> SeverityOf(code) == Auto
  {
    var i := t.intents[n];
    hide NeverFilled;
    hide FilledUnsoundly;
    hide NoOrder;
    hide FilledBy;
    hide Chain;
    if !SoundIntent(t, i) {
      if i.status == IntentFilled && NeverFilled(t, i.id) {
        assert IntentHolds(t, FilledWithoutFill, i.id, "", n);
      } else if Unfinished(i.status) && FilledUnsoundly(t, i.id) {
        assert IntentHolds(t, FillWithoutChain, i.id, "intent", n);
      } else if (i.status == IntentExpired || i.status == IntentFailed) && NoOrder(t.orders, i.id) {
        assert IntentHolds(t, TerminalWithoutOrder, i.id, "", n);
      } else {
        var o: nat :| FilledBy(t, i.id, o) && t.orders[o].status == OrderOpen && !Chain(t, t.orders[o].id);
        assert OpenThoughFilled(t, i.id, t.orders[o].id, o);
        assert IntentHolds(t, FillWithoutChain, t.orders[o].id, "order", n);
      }
    }
  }

  lemma SoundPositionIff(t: Tables, p: Position)
    ensures SoundPosition(t, p) <==> forall code :: !PositionHolds(t, code, p)
  {
    hide FilledBy;
    if !SoundPosition(t, p) {
      if Held(p) && !NoIntent(t, p.entryIntent) && !NeverFilled(t, p.entryIntent) {
        var n :| 0 <= n < |t.intents| && t.intents[n].id == p.entryIntent;
        var o: nat :| FilledBy(t, p.entryIntent, o);
        FilledByIsIn(t, p.entryIntent, o);
      }
      assert PositionHolds(t, PositionWithoutIntent, p) || PositionHolds(t, PositionWithoutFill, p) ||
             PositionHolds(t, ClosingPosition, p) || PositionHolds(t, StopBelowInitial, p) ||
             PositionHolds(t, HighestCloseBelowEntry, p);
    }
  }

  lemma FilledByIsIn(t: Tables, intent: nat, o: nat)
    requires FilledBy(t, intent, o)
    ensures o < |t.orders|
  {
  }

  lemma SoundFillIff(t: Tables, f: Fill)
    ensures SoundFill(t, f) <==> forall code :: !FillHolds(t, code, f)
  {
    hide Positionless;
    if !SoundFill(t, f) {
      if f.kind == Entry && f.order.Some? && !FillHolds(t, FillWithoutOrder, f) {
        var o: nat :| OrderAt(t.orders, f.order.value, o);
        assert FilledSomewhere(t, f.order.value, o) || FilledNowhere(t, f.order.value, o);
      }
      assert FillHolds(t, ExitWithoutPosition, f) || FillHolds(t, EntryWithoutOrder, f) ||
             FillHolds(t, FillWithoutOrder, f) || FillHolds(t, FillWithoutPosition, f);
    }
  }

  lemma IntentReported(t: Tables, x: Issue, now: Time, threshold: nat)
    requires IntentCode(x.code)
    ensures Reported(t, x, now, threshold) <==>
              x.severity == SeverityOf(x.code) && exists n :: 0 <= n < |t.intents| && IntentHolds(t, x.code, x.id, x.detail, n)
  {
    hide IntentHolds;
  }

  lemma IntentsSoundIff(t: Tables)
    ensures (forall n :: 0 <= n < |t.intents| ==> SoundIntent(t, t.intents[n])) <==>
            forall x :: Reported(t, x, 0, 0) && IntentCode(x.code) ==> x.severity == Auto
  {
    if n :| 0 <= n < |t.intents| && !SoundIntent(t, t.intents[n]) {
      SoundIntentIff(t, n);
      hide IntentHolds;
      hide SoundIntent;
      var code, id, detail :| IntentHolds(t, code, id, detail, n) && SeverityOf(code) != Auto;
      IntentHoldsCode(t, code, id, detail, n);
      IntentReported(t, Issue(code, SeverityOf(code), id, detail), 0, 0);
      hide Reported;
    } else {
      forall x | Reported(t, x, 0, 0) && IntentCode(x.code) ensures x.severity == Auto {
        IntentReported(t, x, 0, 0);
        hide Reported;
        hide IntentHolds;
        hide SoundIntent;
        var n :| 0 <= n < |t.intents| && IntentHolds(t, x.code, x.id, x.detail, n);
        SoundIntentIff(t, n);
      }
    }
  }

  lemma IntentHoldsCode(t: Tables, code: Code, id: int, detail: string, n: nat)
    requires n < |t.intents| && IntentHolds(t, code, id, detail, n)
    ensures IntentCode(code)
  {
  }

  lemma PositionsSoundIff(t: Tables)
    ensures (forall n :: 0 <= n < |t.positions| ==> SoundPosition(t, t.positions[n])) <==>
            forall x :: Reported(t, x, 0, 0) ==> !ReferenceCode(x.code) && !StopCode(x.code)
  {
    forall n | 0 <= n < |t.positions|
      ensures SoundPosition(t, t.positions[n]) <==> forall code :: !PositionHolds(t, code, t.positions[n])
    {
      SoundPositionIff(t, t.positions[n]);
    }
    hide SoundPosition;
    if n :| 0 <= n < |t.positions| && !SoundPosition(t, t.positions[n]) {
      var code :| PositionHolds(t, code, t.positions[n]);
      PositionHoldsCode(t, code, t.positions[n]);
      hide PositionHolds;
      assert Reported(t, Issue(code, SeverityOf(code), t.positions[n].id, ""), 0, 0);
    }
    hide PositionHolds;
  }

  lemma PositionHoldsCode(t: Tables, code: Code, p: Position)
    requires PositionHolds(t, code, p)
    ensures ReferenceCode(code) || StopCode(code)
  {
  }

  lemma FillsSoundIff(t: Tables)
    ensures (forall n :: 0 <= n < |t.fills| ==> SoundFill(t, t.fills[n])) <==>
            forall x :: Reported(t, x, 0, 0) ==> !FillCode(x.code)
  {
    forall n | 0 <= n < |t.fills| ensures SoundFill(t, t.fills[n]) <==> forall code :: !FillHolds(t, code, t.fills[n]) {
      SoundFillIff(t, t.fills[n]);
    }
    hide SoundFill;
    if n :| 0 <= n < |t.fills| && !SoundFill(t, t.fills[n]) {
      var code :| FillHolds(t, code, t.fills[n]);
      FillHoldsCode(t, code, t.fills[n]);
      hide FillHolds;
      assert Reported(t, Issue(code, SeverityOf(code), t.fills[n].id, ""), 0, 0);
    }
    hide FillHolds;
  }

  lemma FillHoldsCode(t: Tables, code: Code, f: Fill)
    requires FillHolds(t, code, f)
    ensures FillCode(code)
  {
  }

  lemma OneHeldReported(t: Tables)
    ensures OneHeld(t.positions) <==> forall x :: Reported(t, x, 0, 0) ==> x.code != MultipleOpenPositions
  {
    OneHeldIff(t.positions);
    hide OneHeld;
    hide HeldOf;
    if symbol :| |HeldOf(t.positions, symbol)| > 1 {
      assert Reported(t, Issue(MultipleOpenPositions, Fatal, |HeldOf(t.positions, symbol)|, symbol), 0, 0);
    }
    forall x | Reported(t, x, 0, 0) && x.code == MultipleOpenPositions ensures |HeldOf(t.positions, x.detail)| > 1 {
    }
    hide Reported;
  }

  lemma StopsRiseReported(t: Tables)
    ensures StopsRise(t) <==> forall x :: Reported(t, x, 0, 0) ==> x.code != StopHistoryFalls
  {
    if !StopsRise(t) {
      var n, m :| 0 <= n < |t.stopEvents| && 0 <= m < |t.positions| && t.stopEvents[n].position == t.positions[m].id &&
        t.stopEvents[n].next < t.stopEvents[n].previous;
      assert Reported(t, Issue(StopHistoryFalls, Fatal, t.stopEvents[n].id, ""), 0, 0);
    }
    forall x | Reported(t, x, 0, 0) && x.code == StopHistoryFalls ensures !StopsRise(t) {
      assert FallHolds(t, x.id);
    }
    hide Reported;
  }

  lemma KeysDifferReported(t: Tables)
    ensures KeysDiffer(t.fills) <==> forall x :: Reported(t, x, 0, 0) ==> x.code != DuplicateFill
  {
    if !KeysDiffer(t.fills) {
      var m, n :| 0 <= m < n < |t.fills| && t.fills[m].key == t.fills[n].key;
      assert Reported(t, Issue(DuplicateFill, Fatal, t.fills[n].id, t.fills[n].key), 0, 0);
    }
    forall x | Reported(t, x, 0, 0) && x.code == DuplicateFill ensures !KeysDiffer(t.fills) {
      assert RepeatHolds(t, x.id, x.detail);
    }
    hide Reported;
  }

  lemma EveryCode(c: Code)
    ensures IntentCode(c) || ReferenceCode(c) || StopCode(c) || FillCode(c) || c == MultipleOpenPositions ||
            c == StopHistoryFalls || c == DuplicateFill || c == OrphanRun || c == StaleHeartbeat || c == AccountingMismatch ||
            c == MigrationNotAtHead
    ensures (c == OrphanRun || c == StaleHeartbeat) ==> SeverityOf(c) == Auto
    ensures
      ReferenceCode(c) || StopCode(c) || FillCode(c) || c == MultipleOpenPositions || c == StopHistoryFalls || c == DuplicateFill
      ==> SeverityOf(c) != Auto
  {
  }

  lemma ReportedSeverity(t: Tables, x: Issue)
    requires Reported(t, x, 0, 0)
    ensures x.severity == SeverityOf(x.code) && x.code != AccountingMismatch && x.code != MigrationNotAtHead
  {
  }

  lemma {:induction false} ConsistentIsUnreported(t: Tables)
    ensures Consistent(t) <==> forall x :: Reported(t, x, 0, 0) ==> x.severity == Auto
  {
    IntentsSoundIff(t);
    PositionsSoundIff(t);
    FillsSoundIff(t);
    OneHeldReported(t);
    StopsRiseReported(t);
    KeysDifferReported(t);
    hide SoundIntent;
    hide SoundPosition;
    hide SoundFill;
    hide OneHeld;
    hide StopsRise;
    hide KeysDiffer;
    forall x | Reported(t, x, 0, 0)
      ensures x.severity == SeverityOf(x.code) && x.code != AccountingMismatch && x.code != MigrationNotAtHead
    {
      ReportedSeverity(t, x);
    }
    hide Reported;
    forall c: Code
      ensures IntentCode(c) || ReferenceCode(c) || StopCode(c) || FillCode(c) || c == MultipleOpenPositions ||
              c == StopHistoryFalls || c == DuplicateFill || c == OrphanRun || c == StaleHeartbeat ||
              c == AccountingMismatch || c == MigrationNotAtHead
      ensures (c == OrphanRun || c == StaleHeartbeat) ==> SeverityOf(c) == Auto
      ensures
        ReferenceCode(c) || StopCode(c) || FillCode(c) || c == MultipleOpenPositions || c == StopHistoryFalls || c == DuplicateFill
        ==> SeverityOf(c) != Auto
    {
      EveryCode(c);
    }
    hide SeverityOf;
  }

  /** The checks find nothing beyond what can be repaired exactly in consistent tables. */
  lemma {:induction false} ConsistentIff(t: Tables, now: Time, threshold: nat)
    ensures Consistent(t) <==> Left(Checks(t, now, threshold)) == []
  {
    ConsistentIsUnreported(t);
    LeftIsNoAuto(Checks(t, now, threshold));
    forall x: Issue | x.severity != Auto
      ensures x in Checks(t, now, threshold) <==> Reported(t, x, 0, 0)
    {
      ReportedIff(t, x, now, threshold);
      SevereIsTimeless(t, x, now, threshold);
    }
    hide Checks;
    hide Reported;
    hide Consistent;
    hide Left;
    var left := Left(Checks(t, now, threshold));
    if left != [] {
      assert left[0] in left;
    }
  }

  /* ---------- where startup ends ---------- */

  /** The tables but for the runtime row. */
  predicate SameRows(t: Tables, e: Tables) { e.(runtime := t.runtime) == t }

  lemma {:induction false} ChainSame(t: Tables, e: Tables, order: nat)
    requires SameRows(t, e)
    ensures Chain(e, order) == Chain(t, order)
  {
    if Chain(t, order) {
      var o: nat, f: nat, p: nat :| OrderAt(t.orders, order, o) && FirstFill(t.fills, order, f) &&
        FirstHeld(t.positions, t.fills[f].symbol, p) && Linked(t, o, f, p);
      assert Linked(e, o, f, p);
    }
    if Chain(e, order) {
      var o: nat, f: nat, p: nat :| OrderAt(t.orders, order, o) && FirstFill(t.fills, order, f) &&
        FirstHeld(t.positions, t.fills[f].symbol, p) && Linked(e, o, f, p);
      assert Linked(t, o, f, p);
    }
  }

  lemma FilledSame(t: Tables, e: Tables, intent: nat)
    requires SameRows(t, e)
    ensures NeverFilled(e, intent) == NeverFilled(t, intent) && FilledSoundly(e, intent) == FilledSoundly(t, intent)
    ensures FilledUnsoundly(e, intent) == FilledUnsoundly(t, intent)
  {
    assert forall o: nat :: FilledBy(e, intent, o) == FilledBy(t, intent, o);
    forall order: nat ensures Chain(e, order) == Chain(t, order) {
      ChainSame(t, e, order);
    }
    hide FilledBy;
    hide Chain;
  }

  lemma IntentSame(t: Tables, e: Tables, code: Code, id: int, detail: string, n: nat)
    requires SameRows(t, e) && n < |t.intents|
    ensures IntentHolds(e, code, id, detail, n) == IntentHolds(t, code, id, detail, n)
  {
    FilledSame(t, e, t.intents[n].id);
    assert forall o: nat :: OpenThoughFilled(e, t.intents[n].id, id, o) == OpenThoughFilled(t, t.intents[n].id, id, o);
    forall order: nat ensures Chain(e, order) == Chain(t, order) {
      ChainSame(t, e, order);
    }
    hide OpenThoughFilled;
    hide NeverFilled;
    hide FilledSoundly;
    hide FilledUnsoundly;
    hide NoOrder;
    hide Chain;
  }

  lemma PositionSame(t: Tables, e: Tables, code: Code, p: Position)
    requires SameRows(t, e)
    ensures PositionHolds(e, code, p) == PositionHolds(t, code, p)
  {
    FilledSame(t, e, p.entryIntent);
    hide NeverFilled;
    hide FilledSoundly;
    hide FilledUnsoundly;
  }

  lemma FillSame(t: Tables, e: Tables, code: Code, f: Fill)
    requires SameRows(t, e)
    ensures FillHolds(e, code, f) == FillHolds(t, code, f)
  {
    if f.order.Some? {
      assert forall o: nat :: FilledNowhere(e, f.order.value, o) == FilledNowhere(t, f.order.value, o);
      hide FilledNowhere;
    }
  }

  lemma {:induction false} ReportedSame(t: Tables, e: Tables, x: Issue, now: Time, threshold: nat)
    requires SameRows(t, e) && x.code != StaleHeartbeat
    ensures Reported(e, x, now, threshold) <==> Reported(t, x, now, threshold)
  {
    forall n | 0 <= n < |t.intents|
      ensures IntentHolds(e, x.code, x.id, x.detail, n) == IntentHolds(t, x.code, x.id, x.detail, n)
    {
      IntentSame(t, e, x.code, x.id, x.detail, n);
    }
    forall n | 0 <= n < |t.positions| ensures PositionHolds(e, x.code, t.positions[n]) == PositionHolds(t, x.code, t.positions[n])
    {
      PositionSame(t, e, x.code, t.positions[n]);
    }
    forall n | 0 <= n < |t.fills| ensures FillHolds(e, x.code, t.fills[n]) == FillHolds(t, x.code, t.fills[n]) {
      FillSame(t, e, x.code, t.fills[n]);
    }
    hide IntentHolds;
    hide PositionHolds;
    hide FillHolds;
  }

  lemma EnteredSame(t: Tables, w: World)
    requires CanStart(t)
    ensures SameRows(t, Entered(t, w))
  {
  }

  lemma {:induction false} EnteredConsistent(t: Tables, w: World)
    requires CanStart(t)
    ensures Left(Checks(Entered(t, w), w.first, w.threshold)) == [] <==> Consistent(t)
    ensures forall x: Issue :: x.severity != Auto ==>
              (x in Checks(Entered(t, w), w.first, w.threshold) <==> Reported(t, x, 0, 0))
  {
    var e := Entered(t, w);
    EnteredSame(t, w);
    ConsistentIff(e, w.first, w.threshold);
    ConsistentIsUnreported(t);
    ConsistentIsUnreported(e);
    forall x: Issue | x.severity != Auto ensures Reported(e, x, 0, 0) <==> Reported(t, x, 0, 0)
      ensures Reported(e, x, 0, 0) <==> x in Checks(e, w.first, w.threshold)
    {
      if x.code == StaleHeartbeat {
        StaleIsAuto(e, x);
        StaleIsAuto(t, x);
      } else {
        ReportedSame(t, e, x, 0, 0);
      }
      ReportedIff(e, x, w.first, w.threshold);
      SevereIsTimeless(e, x, w.first, w.threshold);
    }
    hide Consistent;
    hide Reported;
    hide Entered;
    hide Checks;
    hide Left;
  }

  lemma StaleIsAuto(t: Tables, x: Issue)
    requires x.code == StaleHeartbeat && x.severity != Auto
    ensures !Reported(t, x, 0, 0)
  {
  }

  /** Startup ends ready exactly if the schema is current, unless the runtime was ready already, the market data is
      ready, the tables are consistent, and the tables as repaired account for the wallet. */
  lemma {:induction false} ReadyIffConsistent(t: Tables, w: World)
    requires Keyed(t) && CanStart(t)
    ensures StartupOf(t, w).status == Ready <==>
              (t.runtime.value.status == Ready || w.schemaCurrent) && w.marketReady && Consistent(t) &&
              w.accounting(StartupOf(t, w).tables)
  {
    ReadyIff(t, w);
    EnteredConsistent(t, w);
    hide Consistent;
    hide Left;
    hide Checks;
    hide Entered;
    hide Repairing;
    hide Remaining;
    hide Decision;
    hide RepairsMade;
    hide Keyed;
  }

  lemma AnyIs(issues: seq<Issue>, severity: Severity)
    ensures Any(issues, severity) <==> exists x :: x in issues && x.severity == severity
  {
    if x :| x in issues && x.severity == severity {
      var i :| 0 <= i < |issues| && issues[i] == x;
      assert issues[i].severity == severity;
    }
  }

  lemma AccountingNotFatal(t: Tables, w: World)
    ensures !Any(AccountingIssues(t, w), Fatal)
  {
  }

  lemma FatalAmong(stale: seq<Issue>, left: seq<Issue>, accounting: seq<Issue>)
    requires !Any(stale, Fatal) && !Any(accounting, Fatal)
    ensures Any(stale + (left + accounting), Fatal) <==> exists x :: x in left && x.severity == Fatal
  {
    AnyAppend(stale, left + accounting, Fatal);
    AnyAppend(left, accounting, Fatal);
    AnyIs(left, Fatal);
    hide Any;
  }

  lemma {:induction false} FatalRemains(t: Tables, w: World)
    requires Keyed(t) && CanStart(t)
    ensures Any(Remaining(Repairing(Entered(t, w), w), w), Fatal) <==> exists x :: Reported(t, x, 0, 0) && x.severity == Fatal
  {
    hide Any;
    hide Left;
    hide Checks;
    hide Entered;
    hide Repairing;
    hide Remaining;
    hide AccountingIssues;
    hide Stale;
    hide Keyed;
    hide Consistent;
    hide Reported;
    hide NoAuto;
    var e := Entered(t, w);
    var u := Repairing(e, w);
    EnteredConsistent(t, w);
    EnteredKeyed(t, w);
    RemainingAre(e, w);
    LeftIsNoAuto(Checks(e, w.first, w.threshold));
    AccountingNotFatal(u, w);
    StaleNotSevere(u.runtime, w.later, w.threshold);
    FatalAmong(Stale(u.runtime, w.later, w.threshold), Left(Checks(e, w.first, w.threshold)), AccountingIssues(u, w));
  }

  /** It ends failed exactly if the schema is not current, unless the runtime was ready already, or a fatal issue
      holds of the tables; otherwise it is ready or degraded. */
  lemma {:induction false} FailedIff(t: Tables, w: World)
    requires Keyed(t) && CanStart(t)
    ensures StartupOf(t, w).status == Failed <==>
              (t.runtime.value.status != Ready && !w.schemaCurrent) || exists x :: Reported(t, x, 0, 0) && x.severity == Fatal
    ensures var s := StartupOf(t, w).status; s == Ready || s == Degraded || s == Failed
  {
    FatalRemains(t, w);
    StartupStatus(t, w);
    hide Reported;
    hide Any;
    hide Checks;
    hide Entered;
    hide Repairing;
    hide Remaining;
    hide RepairsMade;
    hide Keyed;
    hide CodeName;
    hide FirstOf;
  }

  /** The first issue of a severity. */
  predicate Leads(issues: seq<Issue>, severity: Severity, n: nat) {
    n < |issues| && issues[n].severity == severity && forall j :: 0 <= j < n ==> issues[j].severity != severity
  }

  lemma {:induction false} FirstOfIs(issues: seq<Issue>, severity: Severity)
    requires Any(issues, severity)
    ensures exists n: nat :: Leads(issues, severity, n) && FirstOf(issues, severity) == issues[n].code
  {
    if issues[0].severity == severity {
      assert Leads(issues, severity, 0);
    } else {
      assert Any(issues[1..], severity) by {
        var i :| 0 <= i < |issues| && issues[i].severity == severity;
        assert issues[1..][i - 1] == issues[i];
      }
      FirstOfIs(issues[1..], severity);
      var n: nat :| Leads(issues[1..], severity, n) && FirstOf(issues[1..], severity) == issues[1..][n].code;
      assert Leads(issues, severity, n + 1);
    }
  }

  /** The error that is recorded: the first fatal issue; else, for a runtime that was ready, the first issue for an
      operator before missing market data, and for any other one after it. */
  lemma {:induction false} ErrorIs(t: Tables, w: World)
    requires Keyed(t) && CanStart(t) && (t.runtime.value.status == Ready || w.schemaCurrent)
    ensures var s := StartupOf(t, w);
            s.status == Failed ==> exists n: nat :: Leads(s.issues, Fatal, n) && s.error == Some(CodeName(s.issues[n].code))
    ensures var s := StartupOf(t, w);
            s.status == Degraded ==>
              if !w.marketReady && (t.runtime.value.status != Ready || !Any(s.issues, Manual))
              then s.error == Some("market_data_not_ready")
              else exists n: nat :: Leads(s.issues, Manual, n) && s.error == Some(CodeName(s.issues[n].code))
  {
    var issues := StartupOf(t, w).issues;
    if Any(issues, Fatal) {
      FirstOfIs(issues, Fatal);
    }
    if Any(issues, Manual) {
      FirstOfIs(issues, Manual);
    }
    hide Any;
    hide Leads;
    hide FirstOf;
    hide CodeName;
    hide Checks;
    hide Entered;
    hide Repairing;
    hide Remaining;
    hide RepairsMade;
    hide Keyed;
  }

  /* ---------- what the repair leaves ---------- */

  predicate RunsDone(t: Tables, u: Tables) {
    && |u.runs| == |t.runs|
    && forall n :: 0 <= n < |t.runs| ==>
      u.runs[n] == if t.runs[n].status == RunRunning then t.runs[n].(status := RunFailed) else t.runs[n]
  }

  ghost predicate IntentsDone(t: Tables, u: Tables) {
    && |u.intents| == |t.intents|
    && forall n :: 0 <= n < |t.intents| ==>
      u.intents[n] == if Unfinished(t.intents[n].status) && FilledSoundly(t, t.intents[n].id)
                      then t.intents[n].(status := IntentFilled) else t.intents[n]
  }

  /** An open order that has been filled for an intent, with the chain that justifies it. */
  ghost predicate Fillable(t: Tables, o: nat)
    requires o < |t.orders|
  {
    && t.orders[o].status == OrderOpen && Chain(t, t.orders[o].id)
    && exists m :: 0 <= m < |t.intents| && FilledBy(t, t.intents[m].id, o)
  }

  ghost predicate OrdersDone(t: Tables, u: Tables) {
    && |u.orders| == |t.orders|
    && forall n :: 0 <= n < |t.orders| ==>
      u.orders[n] == if Fillable(t, n) then t.orders[n].(status := OrderFilled, remaining := 0.0) else t.orders[n]
  }

  lemma CompletableIs(t: Tables, n: nat)
    requires Keyed(t) && n < |t.intents|
    ensures Unfinished(t.intents[n].status) && FilledSoundly(t, t.intents[n].id) <==>
              exists m :: 0 <= m < |t.intents| && IntentHolds(t, FilledWithoutStatus, t.intents[n].id, "", m)
  {
    forall m | 0 <= m < |t.intents|
      ensures IntentHolds(t, FilledWithoutStatus, t.intents[n].id, "", m) <==>
                t.intents[m].id == t.intents[n].id && Unfinished(t.intents[m].status) && FilledSoundly(t, t.intents[m].id)
    {
    }
    hide IntentHolds;
    hide FilledSoundly;
    hide Unfinished;
  }

  lemma {:induction false} IntentFlagged(t: Tables, n: nat, now: Time, threshold: nat)
    requires Keyed(t) && n < |t.intents|
    ensures IntentFlag(t.intents[n].id) in Checks(t, now, threshold) <==>
              Unfinished(t.intents[n].status) && FilledSoundly(t, t.intents[n].id)
  {
    hide Reported;
    hide Checks;
    hide IntentHolds;
    hide FilledSoundly;
    hide Unfinished;
    hide Keyed;
    var x := IntentFlag(t.intents[n].id);
    CompletableIs(t, n);
    ReportedIff(t, x, now, threshold);
    IntentReported(t, x, now, threshold);
  }

  lemma OpenFilled(t: Tables, m: nat, n: nat)
    requires Keyed(t) && n < |t.orders| && m < |t.intents|
    ensures IntentHolds(t, OpenOrderWithFill, t.orders[n].id, "", m) <==>
              t.orders[n].status == OrderOpen && Chain(t, t.orders[n].id) && FilledBy(t, t.intents[m].id, n)
  {
    hide Chain;
    hide HasFill;
  }

  lemma FillableIs(t: Tables, n: nat)
    requires Keyed(t) && n < |t.orders|
    ensures Fillable(t, n) <==>
              exists m :: 0 <= m < |t.intents| && IntentHolds(t, OpenOrderWithFill, t.orders[n].id, "", m)
  {
    forall m | 0 <= m < |t.intents|
      ensures IntentHolds(t, OpenOrderWithFill, t.orders[n].id, "", m) <==>
                t.orders[n].status == OrderOpen && Chain(t, t.orders[n].id) && FilledBy(t, t.intents[m].id, n)
    {
      OpenFilled(t, m, n);
    }
    hide IntentHolds;
    hide Chain;
    hide FilledBy;
    hide Keyed;
  }

  lemma {:induction false} OrderFlagged(t: Tables, n: nat, now: Time, threshold: nat)
    requires Keyed(t) && n < |t.orders|
    ensures OrderFlag(t.orders[n].id) in Checks(t, now, threshold) <==> Fillable(t, n)
  {
    hide Reported;
    hide Checks;
    hide IntentHolds;
    hide Fillable;
    hide Keyed;
    var x := OrderFlag(t.orders[n].id);
    FillableIs(t, n);
    ReportedIff(t, x, now, threshold);
    IntentReported(t, x, now, threshold);
  }

  lemma FlaggedDone(t: Tables, u: Tables, first: Time, threshold: nat)
    requires Keyed(t)
    requires IntentsRepaired(t.intents, u.intents, Checks(t, first, threshold))
    requires OrdersRepaired(t.orders, u.orders, Checks(t, first, threshold))
    ensures IntentsDone(t, u) && OrdersDone(t, u)
  {
    hide Checks;
    hide FilledSoundly;
    hide Fillable;
    hide Keyed;
    hide IntentFlag;
    hide OrderFlag;
    forall n | 0 <= n < |t.intents|
      ensures IntentFlag(t.intents[n].id) in Checks(t, first, threshold) <==>
                Unfinished(t.intents[n].status) && FilledSoundly(t, t.intents[n].id)
    {
      IntentFlagged(t, n, first, threshold);
    }
    forall n | 0 <= n < |t.orders| ensures OrderFlag(t.orders[n].id) in Checks(t, first, threshold) <==> Fillable(t, n) {
      OrderFlagged(t, n, first, threshold);
    }
  }

  /** A repair pass fails every running job, fills every open order that a chain justifies, completes the intents
      of such orders, refreshes a stale heartbeat, and touches nothing else. */
  lemma {:induction false} RepairDoes(t: Tables, first: Time, now: Time, threshold: nat)
    requires Keyed(t)
    ensures var u := Repaired(t, first, now, threshold);
            u.fills == t.fills && u.positions == t.positions && u.stopEvents == t.stopEvents && u.hasWallet == t.hasWallet
    ensures var u := Repaired(t, first, now, threshold); RunsDone(t, u) && IntentsDone(t, u) && OrdersDone(t, u)
    ensures Repaired(t, first, now, threshold).runtime.Some? == t.runtime.Some?
    ensures t.runtime.Some? ==>
              Repaired(t, first, now, threshold).runtime.value.heartbeat ==
                if first - t.runtime.value.heartbeat > threshold then now else t.runtime.value.heartbeat
  {
    hide Repaired;
    hide Checks;
    hide RunsDone;
    hide IntentsDone;
    hide OrdersDone;
    hide IntentsRepaired;
    hide OrdersRepaired;
    hide Keyed;
    hide HasCode;
    hide FailRuns;
    var u := Repaired(t, first, now, threshold);
    RepairPass(t, first, now, threshold);
    RunsRepaired(t, u, Checks(t, first, threshold), now);
    FlaggedDone(t, u, first, threshold);
    HeartbeatAfter(t, first, now, threshold);
  }

  lemma RunsRepaired(t: Tables, u: Tables, issues: seq<Issue>, now: Time)
    requires RepairedBy(t, u, issues, now) && Orphans(u.runs) == []
    ensures RunsDone(t, u)
  {
    OrphansIff(u.runs);
    hide SameChains;
    hide OrdersRepaired;
    hide IntentsRepaired;
    hide RuntimeRepaired;
    hide Orphans;
  }
}
