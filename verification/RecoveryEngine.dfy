/** The recovery service: checks that append to one list, repairs row by row, and the decision taken at startup. */
module RecoveryEngine {
  import opened Common
  import opened Timeframes
  import opened Recovery
  import opened RecoverySafety

  /* ---------- what is left after a repair pass ---------- */

  /** After a repair pass, checked again later, a repairable issue is left exactly if the heartbeat is stale by
      then: the one just written, or, if it was fresh at the first check, the old one. */
  lemma {:induction false} RepairableLeftIff(t: Tables, first: Time, now: Time, later: Time, threshold: nat)
    requires Keyed(t)
    ensures var u := Repaired(t, first, now, threshold);
            NoAuto(Checks(u, later, threshold)) <==>
            (t.runtime.Some? ==>
               later <= threshold + if IsStale(t.runtime, first, threshold) then now else t.runtime.value.heartbeat)
  {
    var u := Repaired(t, first, now, threshold);
    RepairIsExact(t, first, now, later, threshold);
    HeartbeatAfter(t, first, now, threshold);
    hide Repaired;
    hide Checks;
    LeftIsNoAuto(Checks(t, first, threshold));
    if IsStale(u.runtime, later, threshold) {
      assert Stale(u.runtime, later, threshold)[0] in Checks(u, later, threshold);
    }
  }

  lemma LeftIsNoAuto(issues: seq<Issue>)
    ensures NoAuto(Left(issues))
    ensures forall x :: x in Left(issues) <==> x in issues && NotAuto(x)
  {
    if issues != [] {
      LeftIsNoAuto(issues[..|issues| - 1]);
    }
  }

  lemma {:induction false} HeartbeatAfter(t: Tables, first: Time, now: Time, threshold: nat)
    ensures var u := Repaired(t, first, now, threshold);
            u.runtime.Some? == t.runtime.Some? &&
            (t.runtime.Some? ==>
               u.runtime.value.heartbeat == (if IsStale(t.runtime, first, threshold) then now else t.runtime.value.heartbeat) &&
               u.runtime.value.status == t.runtime.value.status && u.runtime.value.paused == t.runtime.value.paused &&
               u.runtime.value.killSwitch == t.runtime.value.killSwitch)
  {
    var issues := Checks(t, first, threshold);
    RepairPass(t, first, now, threshold);
    hide RepairAll;
    hide Orphans;
    hide Rest;
    hide SameChains;
    hide OrdersRepaired;
    hide IntentsRepaired;
    StaleIffReported(t, first, threshold);
  }

  lemma StaleIffReported(t: Tables, now: Time, threshold: nat)
    ensures HasCode(Checks(t, now, threshold), StaleHeartbeat) <==> IsStale(t.runtime, now, threshold)
  {
    OrphansFounded(t, t.runs);
    RestCodes(t);
    hide Orphans;
    hide Rest;
    var stale := Stale(t.runtime, now, threshold);
    if IsStale(t.runtime, now, threshold) {
      FirstHasCode(stale, StaleHeartbeat);
      PartHasCode(stale, Rest(t), StaleHeartbeat);
      PartHasCode(stale + Rest(t), Orphans(t.runs), StaleHeartbeat);
    }
    var all := Checks(t, now, threshold);
    if i :| 0 <= i < |all| && all[i].code == StaleHeartbeat {
      assert all[i] in all;
    }
  }

  /** A clock that advances by less than the threshold is not enough: a heartbeat one second short of stale at
      the first check is stale two seconds later, and nothing has refreshed it. */
  lemma HeartbeatGoesStale()
    ensures var t := Tables([], [], [], [], [], [], true, Some(Runtime(Ready, 0, "", false, false, 0)));
            Checks(t, 30, 30) == [] && Checks(Repaired(t, 30, 30, 30), 31, 30) == [Issue(StaleHeartbeat, Auto, 31, "")]
  {
    var t := Tables([], [], [], [], [], [], true, Some(Runtime(Ready, 0, "", false, false, 0)));
    assert MultipleOpen(Dedup(OpenSymbols(t.positions)), OpenSymbols(t.positions)) == [];
    assert Rest(t) == [];
    assert Checks(t, 30, 30) == [];
  }

  /* ---------- the decision ---------- */

  /** The runtime transitions that are allowed. */
  predicate Allowed(from: RuntimeStatus, to: RuntimeStatus) {
    from == to ||
    match from
    case Stopped => to == Starting
    case Starting => to == Recovering || to == Syncing || to == Failed
    case Recovering => to == Syncing || to == Ready || to == Degraded || to == Failed
    case Syncing => to == Ready || to == Degraded || to == Failed
    case Ready => to == Degraded || to == Failed || to == Paused || to == Killed || to == ShuttingDown
    case Degraded => to == Recovering || to == Ready || to == Paused || to == Killed || to == ShuttingDown || to == Failed
    case Paused => to == Ready || to == ShuttingDown
    case Killed => to == ShuttingDown
    case ShuttingDown => to == Stopped || to == Failed
    case Failed => false
  }

  function Moved(t: Tables, to: RuntimeStatus, error: Option<string>, now: Time): Option<Tables> {
    if t.runtime.None? || !Allowed(t.runtime.value.status, to) then None else
    var r := t.runtime.value;
    Some(t.(runtime := Some(r.(status := to, heartbeat := now, version := r.version + 1,
                               lastError := if error.Some? then error.value else r.lastError))))
  }

  /** Circumstances of a startup: whether the lock is free and no recovery is running, the market data ready, the
      schema current; what the independent accounting finds; and the clock at each point. */
  datatype World = World(
    free: bool, marketReady: bool, schemaCurrent: bool, accounting: Tables -> bool, start: Time, first: Time, now: Time,
    later: Time, end: Time, threshold: nat)

  predicate Any(issues: seq<Issue>, severity: Severity) { exists i :: 0 <= i < |issues| && issues[i].severity == severity }

  function FirstOf(issues: seq<Issue>, severity: Severity): Code
    requires Any(issues, severity)
  {
    if issues[0].severity == severity then issues[0].code else
    assert exists i :: 0 <= i < |issues| - 1 && issues[1..][i].severity == severity by {
      var i :| 0 <= i < |issues| && issues[i].severity == severity;
      assert issues[1..][i - 1] == issues[i];
    }
    FirstOf(issues[1..], severity)
  }

  function CodeName(c: Code): string {
    match c
    case OrphanRun => "orphan_scheduler_run"
    case StaleHeartbeat => "stale_runtime_heartbeat"
    case MultipleOpenPositions => "multiple_open_positions"
    case FilledWithoutFill => "filled_intent_without_fill"
    case FilledWithoutStatus => "filled_intent_without_status"
    case FillWithoutChain => "fill_without_economic_chain"
    case OpenOrderWithFill => "open_order_with_fill"
    case TerminalWithoutOrder => "terminal_intent_without_order"
    case PositionWithoutIntent => "position_without_entry_intent"
    case PositionWithoutFill => "position_without_entry_fill"
    case ClosingPosition => "closing_position_pending_exit"
    case ExitWithoutPosition => "exit_fill_without_position"
    case EntryWithoutOrder => "entry_fill_without_order"
    case FillWithoutOrder => "fill_without_order"
    case FillWithoutPosition => "fill_without_position"
    case StopBelowInitial => "current_stop_below_initial"
    case HighestCloseBelowEntry => "highest_close_below_entry"
    case StopHistoryFalls => "invalid_stop_history"
    case DuplicateFill => "duplicate_deterministic_fill"
    case AccountingMismatch => "accounting_reconciliation_mismatch"
    case MigrationNotAtHead => "migration_not_at_head"
  }

  function AccountingIssues(t: Tables, w: World): seq<Issue> {
    if w.accounting(t) then [] else [Issue(AccountingMismatch, Manual, 0, "")]
  }

  /** What is reported once repairs are done: the checks again, and the accounting. */
  function Remaining(t: Tables, w: World): seq<Issue> { Checks(t, w.later, w.threshold) + AccountingIssues(t, w) }

  predicate CanStart(t: Tables) {
    t.runtime.Some? && (t.runtime.value.status == Stopped || t.runtime.value.status == Starting ||
                        t.runtime.value.status == Recovering || t.runtime.value.status == Degraded ||
                        t.runtime.value.status == Ready)
  }

  /** Recovery starts from exactly the statuses that are ready, or from which recovering can be reached: from a
      stopped runtime by way of starting. All others are refused before anything is changed. */
  lemma {:induction false} CanStartIff(t: Tables, now: Time)
    ensures CanStart(t) <==>
            t.runtime.Some? &&
            (t.runtime.value.status == Ready || Moved(t, Recovering, None, now).Some? ||
             (Moved(t, Starting, None, now).Some? && t.runtime.value.status == Stopped &&
              Moved(Moved(t, Starting, None, now).value, Recovering, None, now).Some?))
  {
  }

  /** The tables the checks look at: a runtime that is ready stays so, any other one is moved to recovering. */
  function Entered(t: Tables, w: World): Tables
    requires CanStart(t)
  {
    var r := t.runtime.value;
    if r.status == Ready then t
    else
      var started := if r.status == Stopped then Moved(t, Starting, None, w.start).value else t;
      Moved(started, Recovering, None, w.start).value
  }

  function Repairing(t: Tables, w: World): Tables { Repaired(t, w.first, w.now, w.threshold) }

  const MARKET_DATA_NOT_READY := "market_data_not_ready"

  /** Where recovery ends, and the error it records; a runtime that stays ready keeps its error. */
  function Decision(wasReady: bool, issues: seq<Issue>, w: World): (RuntimeStatus, Option<string>) {
    if Any(issues, Fatal) then (Failed, Some(CodeName(FirstOf(issues, Fatal))))
    else if wasReady then
      if Any(issues, Manual) then (Degraded, Some(CodeName(FirstOf(issues, Manual))))
      else if !w.marketReady then (Degraded, Some(MARKET_DATA_NOT_READY))
      else (Ready, None)
    else if !w.marketReady then (Degraded, Some(MARKET_DATA_NOT_READY))
    else if Any(issues, Manual) then (Degraded, Some(CodeName(FirstOf(issues, Manual))))
    else (Ready, Some(""))
  }

  datatype Startup = Startup(
    status: RuntimeStatus, error: Option<string>, issues: seq<Issue>, repairs: seq<Repair>, entryReady: bool, tables: Tables)

  /** New positions may be entered: ready, and neither paused nor stopped by the kill switch. */
  predicate MayEnter(status: RuntimeStatus, t: Tables) {
    status == Ready && t.runtime.Some? && !t.runtime.value.paused && !t.runtime.value.killSwitch
  }

  /** The transitions a decision calls for: by way of syncing, unless the runtime was ready or recovery failed. */
  function Concluded(t: Tables, wasReady: bool, status: RuntimeStatus, error: Option<string>, w: World): (u: Tables)
    requires status == Ready || status == Degraded || status == Failed
    requires error.None? <==> wasReady && status == Ready
    requires t.runtime.Some? && t.runtime.value.status == if wasReady then Ready else Recovering
    ensures u.(runtime := t.runtime) == t && u.runtime.Some? && u.runtime.value.status == status
    ensures u.runtime.value.paused == t.runtime.value.paused && u.runtime.value.killSwitch == t.runtime.value.killSwitch
    ensures error.Some? ==> u.runtime.value.lastError == error.value && u.runtime.value.heartbeat == w.end
    ensures error.None? ==> u == t
  {
    var synced := if !wasReady && status != Failed then Moved(t, Syncing, None, w.end).value else t;
    if error.Some? then Moved(synced, status, error, w.end).value else synced
  }

  /** A startup from tables it may start from. */
  function StartupOf(t: Tables, w: World): Startup
    requires CanStart(t)
  {
    var e := Entered(t, w);
    var wasReady := t.runtime.value.status == Ready;
    if !wasReady && !w.schemaCurrent
    then Startup(Failed, Some("migration_not_at_head"), [Issue(MigrationNotAtHead, Fatal, 0, "")], [], false, e)
    else
      var u := Repairing(e, w);
      var issues := Remaining(u, w);
      var decision := Decision(wasReady, issues, w);
      Startup(decision.0, decision.1, issues, RepairsMade(e, Checks(e, w.first, w.threshold), w.now), MayEnter(decision.0, u), u)
  }

  lemma StartupStatus(t: Tables, w: World)
    requires CanStart(t)
    ensures var s := StartupOf(t, w); var wasReady := t.runtime.value.status == Ready;
            (s.status == Ready || s.status == Degraded || s.status == Failed) &&
            (s.error.None? <==> wasReady && s.status == Ready) &&
            s.tables.runtime.Some? && s.tables.runtime.value.status == if wasReady then Ready else Recovering
  {
    hide Repairing;
    hide Remaining;
    hide Decision;
    hide Entered;
    hide Checks;
    hide RepairsMade;
    var e := Entered(t, w);
    EnteredStatus(t, w);
    RepairingStatus(e, w);
    DecisionStatus(t.runtime.value.status == Ready, Remaining(Repairing(e, w), w), w);
  }

  /** The tables a startup leaves. */
  function FinalTables(t: Tables, w: World): Tables
    requires CanStart(t)
  {
    var s := StartupOf(t, w);
    StartupStatus(t, w);
    Concluded(s.tables, t.runtime.value.status == Ready, s.status, s.error, w)
  }

  lemma FlagsKept(t: Tables, w: World)
    requires CanStart(t)
    ensures var r := Repairing(Entered(t, w), w).runtime;
            r.Some? && r.value.paused == t.runtime.value.paused && r.value.killSwitch == t.runtime.value.killSwitch
  {
    hide Repaired;
    hide Checks;
    HeartbeatAfter(Entered(t, w), w.first, w.now, w.threshold);
  }

  /** New positions may be entered after exactly those startups that end READY with the runtime, as it was found,
      neither paused nor stopped by the kill switch. */
  lemma {:induction false} EntryReadyIff(t: Tables, w: World)
    requires Keyed(t) && CanStart(t)
    ensures StartupOf(t, w).entryReady <==>
            !t.runtime.value.paused && !t.runtime.value.killSwitch &&
            (t.runtime.value.status == Ready || w.schemaCurrent) && w.marketReady &&
            Left(Checks(Entered(t, w), w.first, w.threshold)) == [] && w.accounting(Repairing(Entered(t, w), w))
    ensures StartupOf(t, w).entryReady <==>
            StartupOf(t, w).status == Ready && !t.runtime.value.paused && !t.runtime.value.killSwitch
  {
    ReadyIff(t, w);
    FlagsKept(t, w);
    hide Entered;
    hide Repairing;
    hide Remaining;
    hide Decision;
    hide Left;
    hide Checks;
    hide Keyed;
    hide RepairsMade;
  }

  /* ---------- what ready means ---------- */

  lemma AnyAppend(a: seq<Issue>, b: seq<Issue>, severity: Severity)
    ensures Any(a + b, severity) <==> Any(a, severity) || Any(b, severity)
  {
    if i :| 0 <= i < |a| && a[i].severity == severity {
      assert (a + b)[i].severity == severity;
    }
    if i :| 0 <= i < |b| && b[i].severity == severity {
      assert (a + b)[|a| + i].severity == severity;
    }
    if i :| 0 <= i < |a + b| && (a + b)[i].severity == severity {
      assert i < |a| ==> a[i].severity == severity;
      assert i >= |a| ==> b[i - |a|].severity == severity;
    }
  }

  lemma NoneSevere(issues: seq<Issue>)
    requires NoAuto(issues)
    ensures Any(issues, Fatal) || Any(issues, Manual) <==> issues != []
  {
    if issues != [] {
      assert issues[0] in issues;
    }
  }

  lemma StaleNotSevere(r: Option<Runtime>, now: Time, threshold: nat)
    ensures !Any(Stale(r, now, threshold), Fatal) && !Any(Stale(r, now, threshold), Manual)
  {
  }

  lemma {:induction false} RemainingAre(e: Tables, w: World)
    requires Keyed(e)
    ensures var u := Repairing(e, w);
            var left := Left(Checks(e, w.first, w.threshold)) + AccountingIssues(u, w);
            Remaining(u, w) == Stale(u.runtime, w.later, w.threshold) + left && NoAuto(left)
  {
    hide Repaired;
    hide Checks;
    RepairIsExact(e, w.first, w.now, w.later, w.threshold);
    LeftIsNoAuto(Checks(e, w.first, w.threshold));
    hide Left;
    hide Stale;
  }

  lemma EnteredKeyed(t: Tables, w: World)
    requires CanStart(t) && Keyed(t)
    ensures Keyed(Entered(t, w))
  {
  }

  /** Recovery ends ready exactly if the schema is current, or the runtime was ready already, the market data is
      ready, the checks found nothing beyond what can be repaired, and the repaired tables account for the wallet. */
  lemma {:induction false} ReadyIff(t: Tables, w: World)
    requires Keyed(t) && CanStart(t)
    ensures StartupOf(t, w).status == Ready <==>
            (t.runtime.value.status == Ready || w.schemaCurrent) && w.marketReady &&
            Left(Checks(Entered(t, w), w.first, w.threshold)) == [] && w.accounting(Repairing(Entered(t, w), w))
    ensures StartupOf(t, w).status == Ready ==>
              StartupOf(t, w).issues == Stale(Repairing(Entered(t, w), w).runtime, w.later, w.threshold)
  {
    var e := Entered(t, w);
    EnteredKeyed(t, w);
    RemainingAre(e, w);
    var u := Repairing(e, w);
    var left := Left(Checks(e, w.first, w.threshold)) + AccountingIssues(u, w);
    NoneSevere(left);
    StaleNotSevere(u.runtime, w.later, w.threshold);
    AnyAppend(Stale(u.runtime, w.later, w.threshold), left, Fatal);
    AnyAppend(Stale(u.runtime, w.later, w.threshold), left, Manual);
    hide Entered;
    hide Repairing;
    hide Remaining;
    hide Left;
    hide Checks;
    hide Stale;
    hide Any;
    hide Keyed;
    hide NoAuto;
    hide CodeName;
    hide FirstOf;
  }

  /** A recovery that ends ready leaves an empty issue list exactly if the heartbeat is fresh at the second check. */
  lemma {:induction false} ReadyIsCleanIff(t: Tables, w: World)
    requires Keyed(t) && CanStart(t) && StartupOf(t, w).status == Ready
    ensures var e := Entered(t, w);
            StartupOf(t, w).issues == [] <==>
            w.later <= w.threshold + if IsStale(e.runtime, w.first, w.threshold) then w.now else e.runtime.value.heartbeat
  {
    ReadyIff(t, w);
    HeartbeatAfter(Entered(t, w), w.first, w.now, w.threshold);
    EnteredHasRuntime(t, w);
    hide StartupOf;
    hide Entered;
    hide Repaired;
    hide Checks;
    hide Left;
    hide Keyed;
  }

  lemma EnteredHasRuntime(t: Tables, w: World)
    requires CanStart(t)
    ensures Entered(t, w).runtime.Some? && (t.runtime.value.status != Ready ==> Entered(t, w).runtime.value.heartbeat == w.start)
  {
  }

  /** From any other status than ready, entering recovery refreshes the heartbeat, so a recovery that takes no
      longer than the threshold and ends ready has no issue left at all. */
  lemma {:induction false} ReadyIsClean(t: Tables, w: World)
    requires Keyed(t) && CanStart(t) && StartupOf(t, w).status == Ready && t.runtime.value.status != Ready
    requires w.start <= w.now && w.later <= w.start + w.threshold
    ensures StartupOf(t, w).issues == []
  {
    hide StartupOf;
    hide Entered;
    hide Keyed;
    ReadyIsCleanIff(t, w);
    EnteredHasRuntime(t, w);
  }

  /* ---------- the service ---------- */

  class RecoveryService {
    const threshold: nat
    var tables: Tables

    constructor (threshold: nat, tables: Tables)
      ensures this.threshold == threshold && this.tables == tables
    {
      this.threshold, this.tables := threshold, tables;
    }

    method CheckOrphanRuns(issues: seq<Issue>) returns (all: seq<Issue>)
      ensures all == issues + Orphans(tables.runs)
    {
      all := issues;
      for n := 0 to |tables.runs|
        invariant all == issues + Orphans(tables.runs[..n])
      {
        assert tables.runs[..n + 1][..n] == tables.runs[..n];
        if tables.runs[n].status == RunRunning {
          all := all + [Issue(OrphanRun, Auto, tables.runs[n].id, tables.runs[n].job)];
        }
      }
      assert tables.runs[..|tables.runs|] == tables.runs;
    }

    method CheckStaleHeartbeat(issues: seq<Issue>, now: Time) returns (all: seq<Issue>)
      ensures all == issues + Stale(tables.runtime, now, threshold)
    {
      all := issues;
      if tables.runtime.Some? {
        var age := now - tables.runtime.value.heartbeat;
        if age > threshold {
          all := all + [Issue(StaleHeartbeat, Auto, age, "")];
        }
      }
    }

    method CheckIntent(i: Intent, issues: seq<Issue>) returns (all: seq<Issue>)
      ensures all == issues + IntentIssues(tables, i)
    {
      hide StatusIssues;
      hide OrderIssues;
      hide TerminalIssues;
      hide OrderFor;
      hide FillsFor;
      var order := OrderFor(tables.orders, i.id);
      var fills := if order.Some? then FillsFor(tables.fills, order.value.id) else [];
      all := issues + StatusIssues(tables, i, fills);
      all := all + OrderIssues(tables, order, fills);
      all := all + TerminalIssues(i, order);
      Regroup(issues, StatusIssues(tables, i, fills), OrderIssues(tables, order, fills), TerminalIssues(i, order));
    }

    method CheckIntents(issues: seq<Issue>) returns (all: seq<Issue>)
      ensures all == issues + AllIntentIssues(tables, tables.intents)
    {
      hide IntentIssues;
      all := issues;
      for n := 0 to |tables.intents|
        invariant all == issues + AllIntentIssues(tables, tables.intents[..n])
      {
        assert tables.intents[..n + 1][..n] == tables.intents[..n];
        all := CheckIntent(tables.intents[n], all);
      }
      assert tables.intents[..|tables.intents|] == tables.intents;
    }

    method CheckPositionReferences(issues: seq<Issue>) returns (all: seq<Issue>)
      ensures all == issues + AllPositionIssues(tables, tables.positions) + AllFillIssues(tables, tables.fills)
    {
      hide PositionIssues;
      hide FillIssues;
      all := issues;
      for n := 0 to |tables.positions|
        invariant all == issues + AllPositionIssues(tables, tables.positions[..n])
      {
        assert tables.positions[..n + 1][..n] == tables.positions[..n];
        all := all + PositionIssues(tables, tables.positions[n]);
      }
      assert tables.positions[..|tables.positions|] == tables.positions;
      ghost var positioned := all;
      for n := 0 to |tables.fills|
        invariant all == positioned + AllFillIssues(tables, tables.fills[..n])
      {
        assert tables.fills[..n + 1][..n] == tables.fills[..n];
        all := all + FillIssues(tables, tables.fills[n]);
      }
      assert tables.fills[..|tables.fills|] == tables.fills;
    }

    method CheckStopInvariants(issues: seq<Issue>) returns (all: seq<Issue>)
      ensures all == issues + AllStopIssues(tables.positions, tables.stopEvents)
    {
      hide StopIssues;
      all := issues;
      for n := 0 to |tables.positions|
        invariant all == issues + AllStopIssues(tables.positions[..n], tables.stopEvents)
      {
        assert tables.positions[..n + 1][..n] == tables.positions[..n];
        all := all + StopIssues(tables.positions[n], tables.stopEvents);
      }
      assert tables.positions[..|tables.positions|] == tables.positions;
    }

    method CheckDuplicateFills(issues: seq<Issue>) returns (all: seq<Issue>)
      ensures all == issues + Duplicates(tables.fills)
    {
      all := issues;
      var seen: set<string> := {};
      for n := 0 to |tables.fills|
        invariant all == issues + Duplicates(tables.fills[..n])
        invariant forall key :: key in seen <==> KeySeen(tables.fills[..n], key)
      {
        var f := tables.fills[n];
        assert tables.fills[..n + 1][..n] == tables.fills[..n];
        if f.key in seen {
          all := all + [Issue(DuplicateFill, Fatal, f.id, f.key)];
        }
        SeenNext(tables.fills[..n], f);
        assert tables.fills[..n + 1] == tables.fills[..n] + [f];
        seen := seen + {f.key};
      }
      assert tables.fills[..|tables.fills|] == tables.fills;
    }

    method RunConsistencyChecks(now: Time) returns (issues: seq<Issue>)
      ensures issues == Checks(tables, now, threshold)
    {
      hide Orphans;
      hide Stale;
      hide MultipleOpen;
      hide AllIntentIssues;
      hide AllPositionIssues;
      hide AllFillIssues;
      hide AllStopIssues;
      hide Duplicates;
      issues := CheckOrphanRuns([]);
      issues := CheckStaleHeartbeat(issues, now);
      issues := issues + MultipleOpen(Dedup(OpenSymbols(tables.positions)), OpenSymbols(tables.positions));
      issues := CheckIntents(issues);
      issues := CheckPositionReferences(issues);
      issues := CheckStopInvariants(issues);
      issues := CheckDuplicateFills(issues);
      InOneList(Orphans(tables.runs), Stale(tables.runtime, now, threshold),
                MultipleOpen(Dedup(OpenSymbols(tables.positions)), OpenSymbols(tables.positions)),
                AllIntentIssues(tables, tables.intents), AllPositionIssues(tables, tables.positions),
                AllFillIssues(tables, tables.fills), AllStopIssues(tables.positions, tables.stopEvents),
                Duplicates(tables.fills));
    }

    /** Repairs in the order of the issues; a chain that no longer holds is skipped. */
    method ApplyAutoRepairs(issues: seq<Issue>, now: Time) returns (repairs: seq<Repair>)
      modifies this
      ensures tables == RepairAll(old(tables), issues, now)
      ensures repairs == RepairsMade(old(tables), issues, now)
    {
      hide RunningCount;
      repairs := [];
      hide ChainHolds;
      hide ChainHoldsForIntent;
      hide FailRuns;
      hide SetOrders;
      hide SetIntents;
      for n := 0 to |issues|
        invariant tables == RepairAll(old(tables), issues[..n], now)
        invariant repairs == RepairsMade(old(tables), issues[..n], now)
      {
        var issue := issues[n];
        assert issues[..n + 1][..n] == issues[..n];
        if issue.severity == Auto {
          match issue.code {
            case OrphanRun =>
              var count := RunningCount(tables.runs);
              tables := tables.(runs := FailRuns(tables.runs));
              if count > 0 {
                repairs := repairs + [RunsFailed(count)];
              }
            case OpenOrderWithFill =>
              if issue.id >= 0 && ChainHolds(tables, issue.id) {
                tables := tables.(orders := SetOrders(tables.orders, issue.id));
                repairs := repairs + [OrderSetFilled(issue.id)];
              }
            case FilledWithoutStatus =>
              if issue.id >= 0 && ChainHoldsForIntent(tables, issue.id) {
                tables := tables.(intents := SetIntents(tables.intents, issue.id));
                repairs := repairs + [IntentSetFilled(issue.id)];
              }
            case StaleHeartbeat =>
              if tables.runtime.Some? {
                tables := tables.(runtime := Refreshed(tables.runtime, now));
                repairs := repairs + [HeartbeatRefreshed];
              }
            case _ =>
          }
        }
      }
      assert issues[..|issues|] == issues;
    }

    method Transition(to: RuntimeStatus, error: Option<string>, now: Time)
      requires Moved(tables, to, error, now).Some?
      modifies this
      ensures tables == Moved(old(tables), to, error, now).value
    {
      tables := Moved(tables, to, error, now).value;
    }

    /** A runtime that is not ready is moved to recovering. */
    method EnterRecovery(w: World)
      requires CanStart(tables)
      modifies this
      ensures tables == Entered(old(tables), w)
    {
      if tables.runtime.value.status != Ready {
        if tables.runtime.value.status == Stopped {
          Transition(Starting, None, w.start);
        }
        Transition(Recovering, None, w.start);
      }
    }

    method RepairAndRecheck(w: World) returns (issues: seq<Issue>, repairs: seq<Repair>)
      requires w.threshold == threshold
      modifies this
      ensures tables == Repairing(old(tables), w) && issues == Remaining(tables, w)
      ensures repairs == RepairsMade(old(tables), Checks(old(tables), w.first, w.threshold), w.now)
    {
      hide Checks;
      hide RepairAll;
      hide RepairsMade;
      var found := RunConsistencyChecks(w.first);
      repairs := ApplyAutoRepairs(found, w.now);
      issues := RunConsistencyChecks(w.later);
      if !w.accounting(tables) {
        issues := issues + [Issue(AccountingMismatch, Manual, 0, "")];
      }
    }

    method Conclude(wasReady: bool, status: RuntimeStatus, error: Option<string>, w: World)
      requires status == Ready || status == Degraded || status == Failed
      requires error.None? <==> wasReady && status == Ready
      requires tables.runtime.Some? && tables.runtime.value.status == if wasReady then Ready else Recovering
      modifies this
      ensures tables == Concluded(old(tables), wasReady, status, error, w)
    {
      if !wasReady && status != Failed {
        Transition(Syncing, None, w.end);
      }
      if error.Some? {
        Transition(status, error, w.end);
      }
    }

    /** Startup: nothing happens unless the lock is free and the status one that recovery may start from. */
    method RecoverOnStartup(w: World) returns (result: Option<Startup>)
      requires w.threshold == threshold
      modifies this
      ensures result.Some? <==> w.free && CanStart(old(tables))
      ensures result.None? ==> tables == old(tables)
      ensures result.Some? ==> tables == FinalTables(old(tables), w)
      ensures result.Some? ==> result.value == StartupOf(old(tables), w).(tables := tables)
    {
      hide Repairing;
      hide Remaining;
      hide Decision;
      hide Entered;
      hide Checks;
      hide RepairsMade;
      hide Concluded;
      if !w.free || !CanStart(tables) {
        return None;
      }
      var wasReady := tables.runtime.value.status == Ready;
      ghost var start := tables;
      EnterRecovery(w);
      ghost var entered := tables;
      EnteredStatus(start, w);
      if !wasReady && !w.schemaCurrent {
        Conclude(wasReady, Failed, Some("migration_not_at_head"), w);
        return Some(Startup(Failed, Some("migration_not_at_head"), [Issue(MigrationNotAtHead, Fatal, 0, "")], [], false, tables));
      }
      var issues, repairs := RepairAndRecheck(w);
      RepairingStatus(entered, w);
      var decision := Decision(wasReady, issues, w);
      DecisionStatus(wasReady, issues, w);
      Conclude(wasReady, decision.0, decision.1, w);
      return Some(Startup(decision.0, decision.1, issues, repairs, MayEnter(decision.0, tables), tables));
    }
  }

  lemma EnteredStatus(t: Tables, w: World)
    requires CanStart(t)
    ensures Entered(t, w).runtime.Some?
    ensures Entered(t, w).runtime.value.status == if t.runtime.value.status == Ready then Ready else Recovering
  {
  }

  lemma RepairingStatus(t: Tables, w: World)
    requires t.runtime.Some?
    ensures Repairing(t, w).runtime.Some? && Repairing(t, w).runtime.value.status == t.runtime.value.status
  {
    hide Repaired;
    HeartbeatAfter(t, w.first, w.now, w.threshold);
  }

  lemma Regroup(a: seq<Issue>, b: seq<Issue>, c: seq<Issue>, d: seq<Issue>)
    ensures a + b + c + d == a + (b + c + d)
  {
  }

  lemma DecisionStatus(wasReady: bool, issues: seq<Issue>, w: World)
    ensures var d := Decision(wasReady, issues, w);
            (d.0 == Ready || d.0 == Degraded || d.0 == Failed) && (d.1.None? <==> wasReady && d.0 == Ready)
  {
    hide CodeName;
    hide FirstOf;
  }

  lemma SeenNext(fills: seq<Fill>, f: Fill)
    ensures forall key :: KeySeen(fills + [f], key) <==> KeySeen(fills, key) || key == f.key
  {
    forall key ensures KeySeen(fills + [f], key) <==> KeySeen(fills, key) || key == f.key {
      if i :| 0 <= i < |fills| && fills[i].key == key {
        assert (fills + [f])[i].key == key;
      }
      assert (fills + [f])[|fills|] == f;
    }
  }

  lemma InOneList(a: seq<Issue>, b: seq<Issue>, c: seq<Issue>, d: seq<Issue>, e: seq<Issue>, f: seq<Issue>, g: seq<Issue>,
                  h: seq<Issue>)
    ensures [] + a + b + c + d + e + f + g + h == a + (b + (c + d + e + f + g + h))
  {
  }
}
