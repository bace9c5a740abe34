/** Whole histories of the market-event bridge: polls that commit, polls that are rolled back, restarts and
    operator recoveries, in any order and number. */
module BridgeRuns {
  import opened Common
  import opened Timeframes
  import opened Scheduler
  import opened Bridge
  import opened BridgeSafety
  import opened Detector

  /** What survives where: the committed store outlives everything, the trackers and the bridge's memory of
      attempts only the process. */
  datatype System = System(committed: Store, pending: map<Key, Key>, trackers: map<string, Tracker>)

  datatype Move =
    | Commit(items: seq<(Event, Env)>)
    | Abort(memory: map<Key, Key>)
    | Restart(failOrphans: bool)
    | Recover(event: Event)

  function Start(): System { System(Store(map[], []), map[], map[]) }

  /** The events of a poll to acknowledge once it is committed, and those to give up on. */
  function ToAck(outcomes: seq<Outcome>): seq<Event> {
    if outcomes == [] then [] else
    var last := outcomes[|outcomes| - 1];
    ToAck(outcomes[..|outcomes| - 1]) + if ShouldAck(last) then [last.event] else []
  }

  function ToGiveUp(outcomes: seq<Outcome>): seq<Event> {
    if outcomes == [] then [] else
    var last := outcomes[|outcomes| - 1];
    ToGiveUp(outcomes[..|outcomes| - 1]) + if last.terminalFailed then [last.event] else []
  }

  function TrackAll(trackers: map<string, Tracker>, events: seq<Event>): map<string, Tracker>
    decreases |events|
  {
    if events == [] then trackers else TrackAll(Track(trackers, events[0]), events[1..])
  }

  /** Giving up on a live update raises, so the events after it are not given up on. */
  function GiveUpUntilLive(trackers: map<string, Tracker>, events: seq<Event>): map<string, Tracker>
    decreases |events|
  {
    if events == [] || events[0].kind.Live? then trackers else GiveUpUntilLive(GiveUp(trackers, events[0]), events[1..])
  }

  function Settled(trackers: map<string, Tracker>, outcomes: seq<Outcome>): map<string, Tracker> {
    GiveUpUntilLive(TrackAll(trackers, ToAck(outcomes)), ToGiveUp(outcomes))
  }

  function NextAttempt(s: Store, k: Key): Key { Key(Attempt(k.job, |Attempts(s.rows, k)| + 1), k.at) }

  predicate Recoverable(s: Store, e: Event) { !e.kind.Live? && PermanentlyFailed(s.rows, RowKey(e)) }

  /** Which moves can happen. A rolled-back poll leaves the store alone but may leave any memory of attempts
      that are in the store and not completed. */
  ghost predicate Enabled(y: System, m: Move) {
    match m
    case Commit(_) => true
    case Abort(memory) => PendingOk(Work(y.committed, memory))
    case Restart(_) => true
    case Recover(e) => Recoverable(y.committed, e)
  }

  function Apply(y: System, m: Move): System {
    match m
    case Commit(items) =>
      var b := ProcessAll(Work(y.committed, y.pending), items);
      System(b.work.store, b.work.pending, Settled(y.trackers, b.outcomes))
    case Abort(memory) => y.(pending := memory)
    case Restart(failOrphans) => System(if failOrphans then OrphansFailed(y.committed) else y.committed, map[], map[])
    case Recover(e) =>
      var k, a := RowKey(e), NextAttempt(y.committed, RowKey(e));
      System(if a in y.committed.rows then y.committed
             else y.committed.(rows := y.committed.rows[a := Run(Running, None, Some(k), None)]),
             y.pending[k := a],
             if e.kind.Live? then y.trackers else y.trackers[e.symbol := Cleared(TrackerOf(y.trackers, e.symbol), e)])
  }

  /* ---------- the invariant ---------- */

  /** The attempts at a row are numbered from one without gaps. */
  function Numbered(k: Key, n: nat): set<Key> {
    if n == 0 then {} else Numbered(k, n - 1) + {Key(Attempt(k.job, n), k.at)}
  }

  ghost predicate AttemptsNumbered(s: Store) {
    forall k :: Attempts(s.rows, k) == Numbered(k, |Attempts(s.rows, k)|)
  }

  predicate Passed(t: Tracker, rows: map<Key, Run>, s: Sym) {
    && (t.openAck.Some? ==> OpenComplete(rows, s, t.openAck.value))
    && (t.dayAck.Some? ==> Is(rows, Key(DayClosed(s), t.dayAck.value), Completed))
    && (t.weekAck.Some? ==> Is(rows, Key(WeekClosed(s), t.weekAck.value), Completed))
    && (t.monthAck.Some? ==> Is(rows, Key(MonthClosed(s), t.monthAck.value), Completed))
  }

  /** Everything a tracker has acknowledged is completed in the store: a daily open with all its phases. */
  ghost predicate AcksHold(trackers: map<string, Tracker>, rows: map<Key, Run>) {
    forall s :: s in trackers ==> Passed(trackers[s], rows, s)
  }

  ghost predicate Safe(y: System) {
    Good(Work(y.committed, y.pending)) && AttemptsNumbered(y.committed) && AcksHold(y.trackers, y.committed.rows)
  }

  /* ---------- each move ---------- */

  lemma SameAttemptSets(s: Store, t: Store)
    requires Sound(s) && Sound(t) && SameAttemptRows(s, t) && AttemptsNumbered(s)
    ensures AttemptsNumbered(t)
  {
    forall k ensures Attempts(t.rows, k) == Attempts(s.rows, k) {
      forall a ensures a in Attempts(t.rows, k) <==> a in Attempts(s.rows, k) {
        assert RowOk(s, a) && RowOk(t, a);
      }
    }
    forall k ensures Attempts(t.rows, k) == Numbered(k, |Attempts(t.rows, k)|) {
      assert Attempts(s.rows, k) == Numbered(k, |Attempts(s.rows, k)|);
    }
  }

  lemma AcksStay(trackers: map<string, Tracker>, s: Store, t: Store)
    requires AcksHold(trackers, s.rows) && Keeps(s, t)
    ensures AcksHold(trackers, t.rows)
  {
    forall x | x in trackers ensures Passed(trackers[x], t.rows, x) {
      assert Passed(trackers[x], s.rows, x);
    }
  }

  lemma PutTracker(trackers: map<string, Tracker>, rows: map<Key, Run>, s: Sym, t: Tracker)
    requires AcksHold(trackers, rows) && (Passed(TrackerOf(trackers, s), rows, s) ==> Passed(t, rows, s))
    ensures AcksHold(trackers[s := t], rows)
  {
    hide OpenComplete;
    assert Passed(TrackerOf(trackers, s), rows, s);
    hide Passed;
  }

  lemma TrackHolds(trackers: map<string, Tracker>, rows: map<Key, Run>, e: Event)
    requires AcksHold(trackers, rows) && Earned(rows, e)
    ensures AcksHold(Track(trackers, e), rows)
  {
    hide AcksHold;
    hide OpenComplete;
    PutTracker(trackers, rows, e.symbol, Acknowledged(TrackerOf(trackers, e.symbol), e));
  }

  lemma GiveUpHolds(trackers: map<string, Tracker>, rows: map<Key, Run>, e: Event)
    requires AcksHold(trackers, rows) && !e.kind.Live?
    ensures AcksHold(GiveUp(trackers, e), rows)
    ensures AcksHold(trackers[e.symbol := Cleared(TrackerOf(trackers, e.symbol), e)], rows)
  {
    hide AcksHold;
    hide OpenComplete;
    PutTracker(trackers, rows, e.symbol, GivenUp(TrackerOf(trackers, e.symbol), e));
    PutTracker(trackers, rows, e.symbol, Cleared(TrackerOf(trackers, e.symbol), e));
  }

  lemma {:induction false} ToAckEarned(rows: map<Key, Run>, outcomes: seq<Outcome>)
    requires forall i :: 0 <= i < |outcomes| && ShouldAck(outcomes[i]) ==> Earned(rows, outcomes[i].event)
    ensures forall e :: e in ToAck(outcomes) ==> Earned(rows, e)
  {
    hide Earned;
    if outcomes != [] {
      ToAckEarned(rows, outcomes[..|outcomes| - 1]);
    }
  }

  lemma {:induction false} TrackAllHolds(trackers: map<string, Tracker>, rows: map<Key, Run>, events: seq<Event>)
    requires AcksHold(trackers, rows) && forall e :: e in events ==> Earned(rows, e)
    ensures AcksHold(TrackAll(trackers, events), rows)
    decreases |events|
  {
    hide AcksHold;
    hide Earned;
    hide Track;
    if events != [] {
      assert events[0] in events;
      TrackHolds(trackers, rows, events[0]);
      TrackAllHolds(Track(trackers, events[0]), rows, events[1..]);
    }
  }

  lemma {:induction false} GiveUpUntilLiveHolds(trackers: map<string, Tracker>, rows: map<Key, Run>, events: seq<Event>)
    requires AcksHold(trackers, rows)
    ensures AcksHold(GiveUpUntilLive(trackers, events), rows)
    decreases |events|
  {
    hide AcksHold;
    hide GiveUp;
    if events != [] && !events[0].kind.Live? {
      GiveUpHolds(trackers, rows, events[0]);
      GiveUpUntilLiveHolds(GiveUp(trackers, events[0]), rows, events[1..]);
    }
  }

  lemma {:induction false} CommitSafe(y: System, items: seq<(Event, Env)>)
    requires Safe(y)
    ensures var z := Apply(y, Commit(items)); Safe(z) && Keeps(y.committed, z.committed) && Settles(y.committed, z.committed)
  {
    var w := Work(y.committed, y.pending);
    var b := ProcessAll(w, items);
    BatchAdvances(w, items);
    hide ProcessAll;
    hide Keeps;
    hide Settles;
    hide Earned;
    hide AcksHold;
    hide AttemptsNumbered;
    hide Sound;
    SameAttemptSets(y.committed, b.work.store);
    AcksStay(y.trackers, y.committed, b.work.store);
    ToAckEarned(b.work.store.rows, b.outcomes);
    TrackAllHolds(y.trackers, b.work.store.rows, ToAck(b.outcomes));
    GiveUpUntilLiveHolds(TrackAll(y.trackers, ToAck(b.outcomes)), b.work.store.rows, ToGiveUp(b.outcomes));
  }

  lemma OrphansSafe(w: Work)
    requires Good(w)
    ensures Good(Work(OrphansFailed(w.store), map[])) && Keeps(w.store, OrphansFailed(w.store))
    ensures SameAttemptRows(w.store, OrphansFailed(w.store))
  {
    var s, t := w.store, OrphansFailed(w.store);
    forall k ensures RowOk(t, k) {
      assert RowOk(s, k);
    }
    forall sym, at: Time ensures OpenOk(t.rows, sym, at) && Tied(t.rows, sym, at) {
      assert OpenOk(s.rows, sym, at) && Tied(s.rows, sym, at);
    }
  }

  lemma RestartSafe(y: System, failOrphans: bool)
    requires Safe(y)
    ensures var z := Apply(y, Restart(failOrphans)); Safe(z) && Keeps(y.committed, z.committed)
  {
    OrphansSafe(Work(y.committed, y.pending));
    hide Sound;
    hide AllTied;
    hide OrphansFailed;
    hide AttemptsNumbered;
    hide SameAttemptRows;
    if failOrphans {
      SameAttemptSets(y.committed, OrphansFailed(y.committed));
    }
  }

  lemma NumberedMembers(k: Key, n: nat, a: Key)
    ensures a in Numbered(k, n) <==> a.job.Attempt? && a.job.of == k.job && a.at == k.at && 1 <= a.job.generation <= n
    ensures |Numbered(k, n)| == n
  {
    if n > 0 {
      NumberedMembers(k, n - 1, a);
      NumberedMembers(k, n - 1, Key(Attempt(k.job, n), k.at));
    }
  }

  /** The next attempt's number is free. */
  lemma NextIsFree(s: Store, k: Key)
    requires Sound(s) && AttemptsNumbered(s)
    ensures NextAttempt(s, k) !in s.rows
  {
    var a := NextAttempt(s, k);
    assert RowOk(s, a);
    NumberedMembers(k, |Attempts(s.rows, k)|, a);
    assert Attempts(s.rows, k) == Numbered(k, |Attempts(s.rows, k)|);
    assert a in s.rows ==> a in Attempts(s.rows, k);
  }

  lemma AttemptsAfter(s: Store, k: Key, x: Key)
    requires NextAttempt(s, k) !in s.rows
    ensures var a := NextAttempt(s, k);
            var t := s.(rows := s.rows[a := Run(Running, None, Some(k), None)]);
            a !in Attempts(s.rows, x) && Attempts(t.rows, x) == if x == k then Attempts(s.rows, x) + {a} else Attempts(s.rows, x)
  {
  }

  lemma RecoverNumbers(s: Store, k: Key)
    requires AttemptsNumbered(s) && NextAttempt(s, k) !in s.rows
    ensures AttemptsNumbered(s.(rows := s.rows[NextAttempt(s, k) := Run(Running, None, Some(k), None)]))
  {
    var a := NextAttempt(s, k);
    var t := s.(rows := s.rows[a := Run(Running, None, Some(k), None)]);
    forall x ensures Attempts(t.rows, x) == Numbered(x, |Attempts(t.rows, x)|) {
      assert Attempts(s.rows, x) == Numbered(x, |Attempts(s.rows, x)|);
      AttemptsAfter(s, k, x);
      assert x == k ==> |Attempts(s.rows, x) + {a}| == |Attempts(s.rows, x)| + 1;
    }
    hide Attempts;
  }

  lemma RecoverRow(s: Store, a: Key)
    requires Sound(s) && AllTied(s) && a.job.Attempt? && a !in s.rows
    ensures var t := s.(rows := s.rows[a := Run(Running, None, Some(Key(a.job.of, a.at)), None)]);
            Sound(t) && AllTied(t) && Keeps(s, t) && Only(s, t, {a})
  {
    var t := s.(rows := s.rows[a := Run(Running, None, Some(Key(a.job.of, a.at)), None)]);
    HarmlessKeeps(s, t, a);
    ChangeRow(s, t, a);
  }

  lemma {:induction false} RecoverSafe(y: System, e: Event)
    requires Safe(y) && Recoverable(y.committed, e)
    ensures var z := Apply(y, Recover(e)); Safe(z) && Keeps(y.committed, z.committed)
  {
    var k, a := RowKey(e), NextAttempt(y.committed, RowKey(e));
    var z := Apply(y, Recover(e));
    NextIsFree(y.committed, k);
    RecoverNumbers(y.committed, k);
    RecoverRow(y.committed, a);
    assert PendingOk(Work(z.committed, z.pending)) by {
      forall x | x in z.pending ensures AttemptOk(z.committed.rows, x, z.pending[x]) {
        assert x != k ==> AttemptOk(y.committed.rows, x, y.pending[x]);
      }
    }
    hide Sound;
    hide AllTied;
    hide AttemptsNumbered;
    hide PendingOk;
    hide Only;
    hide Keeps;
    AcksStay(y.trackers, y.committed, z.committed);
    GiveUpHolds(y.trackers, z.committed.rows, e);
  }

  lemma MoveSafe(y: System, m: Move)
    requires Safe(y) && Enabled(y, m)
    ensures Safe(Apply(y, m)) && Keeps(y.committed, Apply(y, m).committed)
  {
    match m {
      case Commit(items) => CommitSafe(y, items);
      case Abort(_) =>
      case Restart(f) => RestartSafe(y, f);
      case Recover(e) => RecoverSafe(y, e);
    }
    hide Good;
    hide AttemptsNumbered;
    hide AcksHold;
    hide ProcessAll;
  }

  /* ---------- whole histories ---------- */

  function After(y: System, moves: seq<Move>): System {
    if moves == [] then y else Apply(After(y, moves[..|moves| - 1]), moves[|moves| - 1])
  }

  ghost predicate Possible(y: System, moves: seq<Move>) {
    moves == [] || (Possible(y, moves[..|moves| - 1]) && Enabled(After(y, moves[..|moves| - 1]), moves[|moves| - 1]))
  }

  lemma KeepsSelf(s: Store)
    ensures Keeps(s, s)
  {
  }

  /** Completed rows never change status again, whatever happens after. */
  lemma {:induction false} HistorySafe(y: System, moves: seq<Move>)
    requires Safe(y) && Possible(y, moves)
    ensures Safe(After(y, moves)) && Keeps(y.committed, After(y, moves).committed)
  {
    hide Safe;
    hide Apply;
    hide Enabled;
    hide Keeps;
    if moves == [] {
      KeepsSelf(y.committed);
    } else {
      var front := moves[..|moves| - 1];
      HistorySafe(y, front);
      MoveSafe(After(y, front), moves[|moves| - 1]);
      KeepsTrans(y.committed, After(y, front).committed, After(y, moves).committed);
    }
  }

  lemma StartSafe()
    ensures Safe(Start())
  {
    forall k ensures Attempts(Start().committed.rows, k) == Numbered(k, |Attempts(Start().committed.rows, k)|) {
      assert Attempts(Start().committed.rows, k) == {};
    }
  }

  /** After any history, a daily open the tracker has acknowledged has its gap, fill and snapshot rows
      completed in the committed store, and the stop, fill and snapshot jobs of that time have succeeded
      exactly once. */
  lemma {:induction false} AcknowledgedOpensAreComplete(moves: seq<Move>, symbol: Sym)
    requires Possible(Start(), moves)
    ensures var y := After(Start(), moves);
            symbol in y.trackers && y.trackers[symbol].openAck.Some? ==>
              var at := y.trackers[symbol].openAck.value;
              OpenComplete(y.committed.rows, symbol, at) &&
              multiset(y.committed.done)[Key(StopTrigger, at)] == 1 && multiset(y.committed.done)[Key(FillProcessing, at)] == 1 &&
              multiset(y.committed.done)[Key(PortfolioSnapshot, at)] == 1
  {
    StartSafe();
    HistorySafe(Start(), moves);
    var y := After(Start(), moves);
    if symbol in y.trackers && y.trackers[symbol].openAck.Some? {
      var at := y.trackers[symbol].openAck.value;
      assert Passed(y.trackers[symbol], y.committed.rows, symbol) && OpenOk(y.committed.rows, symbol, at);
      assert RowOk(y.committed, Key(StopTrigger, at)) && RowOk(y.committed, Key(FillProcessing, at));
      assert RowOk(y.committed, Key(PortfolioSnapshot, at));
    }
  }

  /** After any history, each scheduler job has succeeded at most once per time: exactly once if its row is
      completed, and never otherwise. */
  lemma {:induction false} SuccessOnce(moves: seq<Move>, k: Key)
    requires Possible(Start(), moves)
    ensures var s := After(Start(), moves).committed;
            multiset(s.done)[k] == if IsSchedulerJob(k.job) && Is(s.rows, k, Completed) then 1 else 0
  {
    StartSafe();
    HistorySafe(Start(), moves);
    assert RowOk(After(Start(), moves).committed, k);
  }

  /** After any history, a completed daily open has its three phases completed; fill and snapshot are
      completed together, after the gap stop. */
  lemma {:induction false} PhasesInOrder(moves: seq<Move>, symbol: Sym, at: Time)
    requires Possible(Start(), moves)
    ensures var rows := After(Start(), moves).committed.rows;
            (Is(rows, ParentKey(symbol, at), Completed) ==> OpenComplete(rows, symbol, at)) &&
            (Is(rows, FillKey(symbol, at), Completed) <==> Is(rows, SnapKey(symbol, at), Completed)) &&
            (Is(rows, FillKey(symbol, at), Completed) ==> Is(rows, GapKey(symbol, at), Completed))
  {
    StartSafe();
    HistorySafe(Start(), moves);
    assert OpenOk(After(Start(), moves).committed.rows, symbol, at) && Tied(After(Start(), moves).committed.rows, symbol, at);
  }

  /** A row completed at some point of a history is completed at every later point. */
  lemma {:induction false} CompletedForever(moves: seq<Move>, later: seq<Move>, k: Key)
    requires Possible(Start(), moves) && Possible(After(Start(), moves), later)
    requires Is(After(Start(), moves).committed.rows, k, Completed)
    ensures Is(After(After(Start(), moves), later).committed.rows, k, Completed)
  {
    StartSafe();
    HistorySafe(Start(), moves);
    HistorySafe(After(Start(), moves), later);
  }

  /** A committed poll that finds nothing running leaves nothing running. */
  lemma {:induction false} NothingStuck(moves: seq<Move>, items: seq<(Event, Env)>)
    requires Possible(Start(), moves) && forall k :: !Is(After(Start(), moves).committed.rows, k, Running)
    ensures forall k :: !Is(Apply(After(Start(), moves), Commit(items)).committed.rows, k, Running)
  {
    StartSafe();
    HistorySafe(Start(), moves);
    CommitSafe(After(Start(), moves), items);
  }

  /** The row of an attempt that a failing restart has found running. */
  function Orphaned(r: Run): Run {
    if r.status == Running then r.(status := Failed, error := Some("orphan_run_marked_failed_on_recovery")) else r
  }

  lemma RecoverLeavesRow(y: System, e: Event, a: Key)
    requires Safe(y) && Recoverable(y.committed, e) && a in y.committed.rows
    ensures var z := Apply(y, Recover(e)).committed; a in z.rows && z.rows[a] == y.committed.rows[a]
  {
  }

  lemma CommitLeavesCloseAttempt(y: System, items: seq<(Event, Env)>, a: Key)
    requires Safe(y) && a in y.committed.rows && a.job.Attempt? && !a.job.of.OpenParent?
    ensures var z := Apply(y, Commit(items)).committed; a in z.rows && z.rows[a] == y.committed.rows[a]
  {
    BatchAdvances(Work(y.committed, y.pending), items);
    hide Good;
    hide ProcessAll;
  }

  lemma MoveLeavesCloseAttempt(y: System, m: Move, a: Key)
    requires Safe(y) && Enabled(y, m) && a in y.committed.rows && a.job.Attempt? && !a.job.of.OpenParent?
    ensures var z := Apply(y, m).committed;
            a in z.rows && z.rows[a] == if m == Restart(true) then Orphaned(y.committed.rows[a]) else y.committed.rows[a]
  {
    match m {
      case Commit(items) => CommitLeavesCloseAttempt(y, items, a);
      case Abort(_) =>
      case Restart(_) =>
      case Recover(e) => RecoverLeavesRow(y, e, a);
    }
    hide Safe;
    hide ProcessAll;
  }

  /** An operator's attempt at a permanently failed daily close is ended by no poll: over any later history of
      polls, rollbacks, restarts and recoveries its row is as it was created, until the first restart that fails
      what it finds running. */
  lemma {:induction false} CloseAttemptNeverEnds(moves: seq<Move>, later: seq<Move>, a: Key)
    requires Possible(Start(), moves) && Possible(After(Start(), moves), later) && a in After(Start(), moves).committed.rows
    requires a.job.Attempt? && !a.job.of.OpenParent?
    ensures var was := After(Start(), moves).committed.rows[a];
            var z := After(After(Start(), moves), later).committed;
            a in z.rows && z.rows[a] == if Restart(true) in later then Orphaned(was) else was
  {
    hide Safe;
    hide Possible;
    hide Enabled;
    hide Apply;
    if later != [] {
      var front, last := later[..|later| - 1], later[|later| - 1];
      var y := After(Start(), moves);
      LastIsEnabled(y, later);
      assert later == front + [last];
      CloseAttemptNeverEnds(moves, front, a);
      StartSafe();
      HistorySafe(Start(), moves);
      HistorySafe(y, front);
      MoveLeavesCloseAttempt(After(y, front), last, a);
    }
  }

  lemma LastIsEnabled(y: System, moves: seq<Move>)
    requires Possible(y, moves) && moves != []
    ensures Possible(y, moves[..|moves| - 1]) && Enabled(After(y, moves[..|moves| - 1]), moves[|moves| - 1])
  {
  }

  /** However far a poll got before it was rolled back, the memory it leaves is one an abort may leave. */
  lemma {:induction false} AbortedMemory(y: System, items: seq<(Event, Env)>, k: Key)
    requires Safe(y)
    ensures var w := ProcessAll(Work(y.committed, y.pending), items).work;
            Enabled(y, Abort(w.pending)) && Enabled(y, Abort(Remembered(w, k).pending))
  {
    var w := Work(y.committed, y.pending);
    var v := ProcessAll(w, items).work;
    BatchAdvances(w, items);
    RememberedGood(v, k);
    OldMemory(w, v);
    OldMemory(w, Remembered(v, k));
  }

  lemma OldMemory(w: Work, v: Work)
    requires PendingOk(v) && Keeps(w.store, v.store) && SameAttemptRows(w.store, v.store)
    ensures PendingOk(Work(w.store, v.pending))
  {
    forall k | k in v.pending ensures AttemptOk(w.store.rows, k, v.pending[k]) {
      assert AttemptOk(v.store.rows, k, v.pending[k]);
      assert Is(w.store.rows, v.pending[k], Completed) ==> Is(v.store.rows, v.pending[k], Completed);
    }
  }

  /* ---------- giving up on a live update ---------- */

  predicate HasLive(events: seq<Event>) { exists i :: 0 <= i < |events| && events[i].kind.Live? }

  /** When a live update is given up on: its row holds a permanent failure nobody recovers, or it is not completed
      and its candle is there while the symbol is misconfigured. */
  predicate LiveGivenUp(w: Work, env: Env, e: Event) {
    var k := RowKey(e);
    (PermanentlyFailed(w.store.rows, k) && ActiveContext(w, k).None?) ||
    (!Is(w.store.rows, k, Completed) && env.candle && env.context.Misconfigured?)
  }

  lemma LiveMisconfigured(s: Store, env: Env, e: Event)
    ensures var r := HandleLive(s, env, e).raised;
            r.Some? && r.value.PermanentConfiguration? <==> env.candle && env.context.Misconfigured?
  {
    VerdictIsNotPermanent([RunJob(s, env, Key(IntradayStop, e.at)).outcome]);
    hide RunJob;
    hide Verdict;
  }

  lemma {:induction false} VerdictIsNotPermanent(outcomes: seq<JobOutcome>)
    ensures Verdict(outcomes).Some? ==> !Verdict(outcomes).value.PermanentConfiguration?
  {
    if outcomes != [] {
      VerdictIsNotPermanent(outcomes[1..]);
    }
  }

  lemma {:induction false} LiveGivenUpIff(w: Work, env: Env, e: Event)
    requires e.kind.Live?
    ensures Process(w, env, e).outcome.terminalFailed <==> LiveGivenUp(w, env, e)
  {
    var k := RowKey(e);
    var v := if PermanentlyFailed(w.store.rows, k) then Remembered(w, k) else w;
    assert v.store == w.store;
    var step := HandleLive(Ensured(w.store, k), env, e);
    LiveMisconfigured(Ensured(w.store, k), env, e);
    OnlyMisconfiguredIsTerminal(v.(store := step.store), e, step.raised);
    hide ActiveContext;
    hide HandleLive;
    hide Remembered;
    hide Ensured;
    hide ConcludeOther;
  }

  lemma OnlyMisconfiguredIsTerminal(w: Work, e: Event, r: Option<Raised>)
    requires RowKey(e) in w.store.rows
    ensures ConcludeOther(w, e, r).outcome.terminalFailed <==> r.Some? && r.value.PermanentConfiguration?
  {
  }

  lemma {:induction false} GivenUpOutcomes(outcomes: seq<Outcome>)
    ensures HasLive(ToGiveUp(outcomes)) <==>
            exists i :: 0 <= i < |outcomes| && outcomes[i].terminalFailed && outcomes[i].event.kind.Live?
  {
    if outcomes != [] {
      var n := |outcomes| - 1;
      GivenUpOutcomes(outcomes[..n]);
      var front, all := ToGiveUp(outcomes[..n]), ToGiveUp(outcomes);
      assert all == front + if outcomes[n].terminalFailed then [outcomes[n].event] else [];
      if HasLive(front) {
        var i :| 0 <= i < |front| && front[i].kind.Live?;
        assert all[i] == front[i];
      }
      if outcomes[n].terminalFailed {
        assert all[|front|] == outcomes[n].event;
      }
      assert all[..|front|] == front;
      forall i | 0 <= i < n ensures outcomes[..n][i] == outcomes[i] {
      }
    }
  }

  lemma {:induction false} OutcomeAt(w: Work, items: seq<(Event, Env)>, i: nat)
    requires i < |items|
    ensures var b := ProcessAll(w, items);
            |b.outcomes| == |items| && b.outcomes[i] == Process(ProcessAll(w, items[..i]).work, items[i].1, items[i].0).outcome
  {
    hide Process;
    var n := |items| - 1;
    if i < n {
      OutcomeAt(w, items[..n], i);
      assert items[..n][..i] == items[..i];
    } else if n > 0 {
      OutcomeAt(w, items[..n], 0);
    }
  }

  /** At its turn in the poll, some live update's row holds a permanent failure nobody recovers, or its symbol is
      misconfigured. */
  predicate MeetsBadLive(w: Work, items: seq<(Event, Env)>) {
    exists i :: 0 <= i < |items| && items[i].0.kind.Live? && LiveGivenUp(ProcessAll(w, items[..i]).work, items[i].1, items[i].0)
  }

  /** Exactly then does a committed poll raise after its commit. */
  lemma {:induction false} PollRaisesIff(w: Work, items: seq<(Event, Env)>)
    ensures HasLive(ToGiveUp(ProcessAll(w, items).outcomes)) <==> MeetsBadLive(w, items)
  {
    var b := ProcessAll(w, items);
    GivenUpOutcomes(b.outcomes);
    forall i | 0 <= i < |items|
      ensures i < |b.outcomes| && b.outcomes[i].event == items[i].0
      ensures items[i].0.kind.Live? ==>
                (b.outcomes[i].terminalFailed <==> LiveGivenUp(ProcessAll(w, items[..i]).work, items[i].1, items[i].0))
    {
      OutcomeAt(w, items, i);
      OutcomeEvent(ProcessAll(w, items[..i]).work, items[i].1, items[i].0);
      if items[i].0.kind.Live? {
        LiveGivenUpIff(ProcessAll(w, items[..i]).work, items[i].1, items[i].0);
      }
    }
    assert items == [] ==> b.outcomes == [];
    if items != [] {
      OutcomeAt(w, items, 0);
    }
    hide ProcessAll;
    hide Process;
    hide LiveGivenUp;
    hide ToGiveUp;
  }

  function GiveUpAll(trackers: map<string, Tracker>, events: seq<Event>): map<string, Tracker>
    requires !HasLive(events)
  {
    assert forall i :: 0 <= i < |events| ==> !events[i].kind.Live?;
    if events == [] then trackers else GiveUp(GiveUpAll(trackers, events[..|events| - 1]), events[|events| - 1])
  }

  /** Giving up stops at the first live update of the list: what comes before it is given up on, and neither it nor
      anything after it is. */
  lemma {:induction false} GiveUpStopsAtLive(trackers: map<string, Tracker>, before: seq<Event>, live: Event, rest: seq<Event>)
    requires live.kind.Live? && !HasLive(before)
    ensures GiveUpUntilLive(trackers, before + [live] + rest) == GiveUpAll(trackers, before)
    ensures GiveUpUntilLive(trackers, before) == GiveUpAll(trackers, before)
    decreases |before|
  {
    hide GiveUp;
    var events := before + [live] + rest;
    if before != [] {
      assert events[0] == before[0] && events[1..] == before[1..] + [live] + rest;
      assert forall i :: 0 <= i < |before[1..]| ==> before[1..][i] == before[i + 1];
      GiveUpStopsAtLive(GiveUp(trackers, before[0]), before[1..], live, rest);
      GiveUpAllFront(trackers, before);
    }
  }

  lemma {:induction false} GiveUpAllFront(trackers: map<string, Tracker>, events: seq<Event>)
    requires events != [] && !HasLive(events) && !events[0].kind.Live? && !HasLive(events[1..])
    ensures GiveUpAll(trackers, events) == GiveUpAll(GiveUp(trackers, events[0]), events[1..])
  {
    hide GiveUp;
    var n := |events| - 1;
    if n > 0 {
      GiveUpAllFront(trackers, events[..n]);
      assert events[..n][1..] == events[1..][..n - 1] && events[1..][n - 1] == events[n];
    } else {
      assert events[..0] == [] && events[1..] == [];
    }
  }

  /** An instance: of a poll that finds a live update and another symbol's daily close misconfigured, the close
      fails permanently and is not given up on, so it is detected and fails again. */
  lemma {:induction false} GivingUpIsCutShort(live: Event, close: Event, env: Env)
    requires live.kind.Live? && close.kind.DayClose?
    requires env.candle && env.evaluationDue && env.context.Misconfigured? && env.context.code in PERMANENT_CODES
    ensures var y := Apply(Start(), Commit([(live, env), (close, env)]));
            PermanentlyFailed(y.committed.rows, RowKey(close)) && y.trackers == Start().trackers
  {
    var items := [(live, env), (close, env)];
    var w := Work(Store(map[], []), map[]);
    var v := Process(w, env, live);
    var u := Process(v.work, env, close);
    assert items[..1] == [(live, env)] && items[..1][..0] == [];
    assert ProcessAll(w, []) == Batch(w, []);
    assert ProcessAll(w, items[..1]) == Batch(v.work, [v.outcome]);
    assert ProcessAll(w, items) == Batch(u.work, [v.outcome, u.outcome]);
    assert v.outcome == Outcome(live, Failed, false, Some(env.context.code), false, true);
    assert u.outcome == Outcome(close, Failed, false, Some(env.context.code), false, true);
    ListsOfTwo(v.outcome, u.outcome);
    var y := Apply(Start(), Commit(items));
    assert y.trackers == Settled(map[], [v.outcome, u.outcome]);
  }

  lemma ListsOfTwo(a: Outcome, b: Outcome)
    requires a.terminalFailed && b.terminalFailed && !ShouldAck(a) && !ShouldAck(b)
    ensures ToAck([a, b]) == [] && ToGiveUp([a, b]) == [a.event, b.event]
  {
    assert [a, b][..1] == [a] && [a][..0] == [];
    assert ToAck([a]) == [] && ToGiveUp([a]) == [a.event];
  }
}
