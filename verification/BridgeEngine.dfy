/** The bridge as an object: savepoints around the phases of a daily open, the poll over eligible groups, and
    the commit boundary before acknowledgement. It refines the functions of `Bridge` and `Fairness`. */
module BridgeEngine {
  import opened Common
  import opened Timeframes
  import opened Scheduler
  import opened Bridge
  import opened BridgeSafety
  import opened Detector
  import opened Fairness
  import opened BridgeRuns
  import opened BridgeFrames
  import opened BridgePolls

  /* ---------- the bridge ---------- */

  datatype PollResult = PollResult(outcomes: seq<Outcome>, toAck: seq<Event>, givenUp: seq<Event>, deferred: bool)

  class MarketEventBridge {
    const repo: Repository
    const jobs: JobScheduler
    const maxEvents: nat
    var pending: map<Key, Key>
    var deferredEvents: bool
    var queueOverflow: bool
    /** The rotation cursor and the groups' retry states are rows of the store too. */
    var cursor: nat
    var states: map<GroupKey, GroupState>

    predicate Valid() { jobs.repo == repo }

    function Now(): Work
      reads this, repo
    {
      Work(repo.Now(), pending)
    }

    constructor (repo: Repository, jobs: JobScheduler, maxEvents: nat)
      requires jobs.repo == repo
      ensures Valid() && this.repo == repo && pending == map[] && cursor == 0 && states == map[]
    {
      this.repo, this.jobs, this.maxEvents := repo, jobs, maxEvents;
      pending, deferredEvents, queueOverflow, cursor, states := map[], false, false, 0, map[];
    }

    method RunOpenSubjob(env: Env, sub: Key, job: Key) returns (raised: Option<Raised>)
      requires Valid() && sub != job
      modifies repo
      ensures Step(repo.Now(), raised) == OpenSubjob(old(repo.Now()), env, sub, job)
    {
      hide Verdict;
      hide RunLocked;
      hide Released;
      if sub in repo.rows && repo.rows[sub].status == Completed {
        return None;
      }
      var _, _ := repo.InsertOrGet(sub);
      var outcome := jobs.RunUnderLock(env, job);
      RunLockedKeeps(Ensured(old(repo.Now()), sub), env, job);
      var verdict := RequireSuccessful([outcome]);
      if verdict == Some(SchedulerDeferred) || (verdict.None? && !IsTerminalSuccess(outcome)) {
        repo.Release(sub, SCHEDULER_DEFERRED);
        return Some(SchedulerDeferred);
      }
      if verdict.Some? {
        return Some(SequenceFailure(sub, CodeOf(verdict.value)));
      }
      repo.Complete(sub, Completed, None);
      return None;
    }

    /** Gap stop in a savepoint; fill and snapshot in another: an exception inside restores what was saved. */
    method HandleDailyOpen(env: Env, e: Event) returns (raised: Option<Raised>)
      requires Valid()
      modifies repo
      ensures Step(repo.Now(), raised) == HandleOpen(old(repo.Now()), env, e)
    {
      hide OpenSubjob;
      if ContextRaises(env).Some? {
        return ContextRaises(env);
      }
      var save := repo.Now();
      raised := RunOpenSubjob(env, GapKey(e.symbol, e.at), Key(StopTrigger, e.at));
      if raised.Some? {
        repo.RollBack(save);
        return;
      }
      if !env.fillDue {
        return Some(FillNotDue);
      }
      save := repo.Now();
      raised := RunOpenSubjob(env, FillKey(e.symbol, e.at), Key(FillProcessing, e.at));
      if raised.None? {
        raised := RunOpenSubjob(env, SnapKey(e.symbol, e.at), Key(PortfolioSnapshot, e.at));
      }
      if raised.Some? {
        repo.RollBack(save);
      }
    }

    method HandleDailyLive(env: Env, e: Event) returns (raised: Option<Raised>)
      requires Valid()
      modifies repo
      ensures Step(repo.Now(), raised) == HandleLive(old(repo.Now()), env, e)
    {
      hide RunJob;
      hide Verdict;
      if ContextRaises(env).Some? {
        return ContextRaises(env);
      }
      var outcome := jobs.RunKeyed(env, Key(IntradayStop, e.at));
      if outcome.status == Failed {
        return Some(Unexpected(MessageOr(outcome.error, "intraday stop processing failed")));
      }
      raised := RequireSuccessful([outcome]);
    }

    method RunCloseSequence(env: Env, close: Time) returns (outcomes: seq<JobOutcome>)
      requires Valid()
      modifies repo
      ensures (repo.Now(), outcomes) == RunAll(old(repo.Now()), env, CloseJobs(close))
    {
      hide RunJob;
      var evaluated := jobs.RunKeyed(env, Key(SignalEvaluation, close));
      label A:
      var updated := jobs.RunKeyed(env, Key(StopUpdate, close));
      label B:
      var snapped := jobs.RunKeyed(env, Key(PortfolioSnapshot, close));
      outcomes := [evaluated, updated, snapped];
      RunAllThree(old(repo.Now()), env, CloseJobs(close));
    }

    method HandleDailyClosed(env: Env, e: Event) returns (raised: Option<Raised>)
      requires Valid()
      modifies repo
      ensures Step(repo.Now(), raised) == HandleClose(old(repo.Now()), env, e)
    {
      hide RunAll;
      hide Verdict;
      if !env.candle {
        return Some(ContextNotReady);
      }
      if !env.evaluationDue {
        return Some(EvaluationNotDue);
      }
      if ContextRaises(env).Some? {
        return ContextRaises(env);
      }
      if !env.lock {
        return Some(SchedulerDeferred);
      }
      var outcomes := RunCloseSequence(env, CloseTime(e));
      raised := RequireSuccessful(outcomes);
    }

    /* ---------- one event ---------- */

    method ActiveRecovery(k: Key) returns (attempt: Option<Key>)
      modifies this`pending
      ensures attempt == ActiveContext(old(Now()), k) && Now() == Remembered(old(Now()), k)
    {
      if k in pending {
        return Some(pending[k]);
      }
      if k !in repo.rows {
        return None;
      }
      attempt := ActiveAttempt(repo.rows, k);
      if attempt.Some? {
        pending := pending[k := attempt.value];
      }
    }

    method PersistedOutcome(e: Event, skipped: bool) returns (o: Outcome)
      requires RowKey(e) in repo.rows
      ensures Processed(Now(), o) == Persisted(Now(), e, skipped)
    {
      var run := repo.rows[RowKey(e)];
      o := Outcome(e, run.status, skipped, run.error, false, false);
    }

    method DeferredOutcome(e: Event, release: Key, code: string) returns (o: Outcome)
      modifies repo
      ensures Processed(Now(), o) == Deferred(old(Now()), e, release, code)
    {
      repo.Release(release, code);
      o := Outcome(e, Skipped, true, Some(code), true, false);
    }

    method FailureAudit(parent: Key, sub: Key, message: string)
      modifies repo
      ensures repo.Now() == Audited(old(repo.Now()), parent, sub, message)
    {
      if !(parent in repo.rows && repo.rows[parent].status == Completed) {
        var _, _ := repo.InsertOrGet(parent);
        repo.Complete(parent, Failed, Some(message));
      }
      if sub != parent {
        var _, _ := repo.InsertOrGet(sub);
        repo.Complete(sub, Failed, Some(message));
      }
    }

    /** How a daily open that was not under recovery is written down. */
    method FinishOpen(e: Event, raised: Option<Raised>) returns (o: Outcome)
      requires RowKey(e) in repo.rows
      modifies repo
      ensures Processed(Now(), o) == ConcludeOpen(old(Now()), e, raised)
    {
      hide Released;
      hide Audited;
      var k := RowKey(e);
      if raised.None? {
        repo.Complete(k, Completed, None);
        o := PersistedOutcome(e, false);
        return;
      }
      match raised.value {
        case FillNotDue => o := DeferredOutcome(e, k, FILL_NOT_DUE);
        case ContextNotReady => o := DeferredOutcome(e, k, CONTEXT_NOT_READY);
        case SchedulerDeferred => o := DeferredOutcome(e, k, SCHEDULER_DEFERRED);
        case PermanentConfiguration(code) =>
          repo.Complete(k, Failed, Some(code));
          o := Outcome(e, Failed, false, Some(code), false, true);
        case SequenceFailure(sub, message) =>
          FailureAudit(k, sub, message);
          o := PersistedOutcome(e, false);
        case EvaluationNotDue =>
          FailureAudit(k, k, EVALUATION_NOT_DUE);
          o := PersistedOutcome(e, false);
        case Unexpected(message) =>
          FailureAudit(k, k, message);
          o := PersistedOutcome(e, false);
      }
    }

    method FinishRecovery(e: Event, attempt: Key, raised: Option<Raised>) returns (o: Outcome)
      requires attempt in repo.rows
      modifies repo, this`pending
      ensures Processed(Now(), o) == ConcludeRecovery(old(Now()), e, attempt, raised)
    {
      hide Released;
      var k := RowKey(e);
      if raised.None? {
        repo.Complete(attempt, Completed, None);
        repo.MarkResolved(k, attempt);
        pending := pending - {k};
        return Outcome(e, Completed, false, None, false, false);
      }
      match raised.value {
        case FillNotDue => o := DeferredOutcome(e, attempt, FILL_NOT_DUE);
        case ContextNotReady => o := DeferredOutcome(e, attempt, CONTEXT_NOT_READY);
        case SchedulerDeferred => o := DeferredOutcome(e, attempt, SCHEDULER_DEFERRED);
        case _ =>
          repo.Complete(attempt, Failed, Some(CodeOf(raised.value)));
          pending := pending - {k};
          o := Outcome(e, Failed, false, Some(CodeOf(raised.value)), false, raised.value.PermanentConfiguration?);
      }
    }

    method FinishOther(e: Event, raised: Option<Raised>) returns (o: Outcome)
      requires RowKey(e) in repo.rows
      modifies repo
      ensures Processed(Now(), o) == ConcludeOther(old(Now()), e, raised)
    {
      hide Released;
      var k := RowKey(e);
      if raised.None? {
        repo.Complete(k, Completed, None);
        o := PersistedOutcome(e, false);
        return;
      }
      match raised.value {
        case ContextNotReady => o := DeferredOutcome(e, k, CONTEXT_NOT_READY);
        case SchedulerDeferred => o := DeferredOutcome(e, k, SCHEDULER_DEFERRED);
        case EvaluationNotDue => o := DeferredOutcome(e, k, EVALUATION_NOT_DUE);
        case PermanentConfiguration(code) =>
          repo.Complete(k, Failed, Some(code));
          o := Outcome(e, Failed, false, Some(code), false, true);
        case _ =>
          repo.Complete(k, Failed, Some(CodeOf(raised.value)));
          o := PersistedOutcome(e, false);
      }
    }

    method ProcessDailyOpen(env: Env, e: Event) returns (o: Outcome)
      requires Valid()
      modifies repo, this`pending
      ensures Processed(Now(), o) == ProcessOpen(old(Now()), env, e)
    {
      hide HandleOpen;
      hide ConcludeOpen;
      hide ConcludeRecovery;
      hide ActiveContext;
      var k := RowKey(e);
      var attempt := ActiveRecovery(k);
      if attempt.None? && PermanentlyFailed(repo.rows, k) {
        return Outcome(e, Failed, true, repo.rows[k].error, false, true);
      }
      if attempt.Some? {
        if attempt.value in repo.rows && repo.rows[attempt.value].status == Skipped &&
            IsRetryable(repo.rows[attempt.value].error) {
          repo.Reactivate(attempt.value);
        } else {
          var _, _ := repo.InsertOrGet(attempt.value);
        }
        var raised := HandleDailyOpen(env, e);
        o := FinishRecovery(e, attempt.value, raised);
        return;
      }
      if OpenComplete(repo.rows, e.symbol, e.at) {
        if !(k in repo.rows && repo.rows[k].status == Completed) {
          var _, _ := repo.InsertOrGet(k);
          repo.Complete(k, Completed, None);
        }
        o := PersistedOutcome(e, true);
        return;
      }
      var _, _ := repo.InsertOrGet(k);
      var raised := HandleDailyOpen(env, e);
      o := FinishOpen(e, raised);
    }

    method ProcessOtherEvent(env: Env, e: Event) returns (o: Outcome)
      requires Valid() && !e.kind.Open?
      modifies repo, this`pending
      ensures Processed(Now(), o) == ProcessOther(old(Now()), env, e)
    {
      hide HandleLive;
      hide HandleClose;
      hide ConcludeOther;
      hide ActiveContext;
      var k := RowKey(e);
      if PermanentlyFailed(repo.rows, k) {
        var attempt := ActiveRecovery(k);
        if attempt.None? {
          return Outcome(e, Failed, true, repo.rows[k].error, false, true);
        }
      }
      if k in repo.rows && repo.rows[k].status == Completed {
        return Outcome(e, Completed, true, None, false, false);
      }
      var _, created := repo.InsertOrGet(k);
      if e.kind.WeekClose? || e.kind.MonthClose? {
        repo.Complete(k, Completed, None);
        o := PersistedOutcome(e, !created);
        return;
      }
      var raised;
      if e.kind.Live? {
        raised := HandleDailyLive(env, e);
      } else {
        raised := HandleDailyClosed(env, e);
      }
      o := FinishOther(e, raised);
    }

    method ProcessEvent(env: Env, e: Event) returns (o: Outcome)
      requires Valid()
      modifies repo, this`pending
      ensures Processed(Now(), o) == Process(old(Now()), env, e)
    {
      hide ProcessOpen;
      hide ProcessOther;
      if e.kind.Open? {
        o := ProcessDailyOpen(env, e);
      } else {
        o := ProcessOtherEvent(env, e);
      }
    }

    /* ---------- a poll ---------- */

    /** A group's events in turn, noting each outcome, until one is deferred or the budget is used up. */
    method ProcessGroup(envs: nat -> Env, from: nat, events: seq<Event>, budget: nat, time: Time,
                        start: map<GroupKey, GroupState>, ghost before: seq<Outcome>)
      returns (outcomes: seq<Outcome>, blocked: bool)
      requires Valid() && states == NoteAll(start, before, time)
      modifies repo, this`pending, this`states
      ensures GroupRun(Now(), outcomes, blocked) == RunGroup(old(Now()), envs, from, events, budget)
      ensures states == NoteAll(start, before + outcomes, time)
    {
      hide Process;
      hide RestOfGroup;
      hide Joined;
      hide NoteAll;
      hide NoteOutcome;
      outcomes, blocked := [], false;
      ghost var target := RunGroup(Now(), envs, from, events, budget);
      JoinStart(Now(), envs, from, events, budget);
      hide RunGroup;
      assert before + outcomes == before;
      while |outcomes| < |events| && |outcomes| < budget && !blocked
        invariant |outcomes| <= |events| && |outcomes| <= budget
        invariant states == NoteAll(start, before + outcomes, time)
        invariant Joined(target, outcomes, RestOfGroup(Now(), envs, from, events, budget, |outcomes|, blocked))
        decreases |events| - |outcomes|
      {
        JoinNext(target, outcomes, Now(), envs, from, events, budget);
        var o := ProcessEvent(envs(from + |outcomes|), events[|outcomes|]);
        states := NoteOutcome(start, states, o, time);
        NoteNext(start, before, outcomes, o, time);
        outcomes := outcomes + [o];
        blocked := o.deferred;
      }
      JoinEnd(target, outcomes, Now(), envs, from, events, budget, blocked);
    }

    /** Groups in turn while budget is left. */
    method ProcessGroups(envs: nat -> Env, groups: seq<seq<Event>>, time: Time)
      returns (outcomes: seq<Outcome>, rotated: nat, deferred: bool)
      requires Valid()
      modifies repo, this`pending, this`states
      ensures Pass(Now(), outcomes, rotated, deferred) == RunGroups(old(Now()), envs, 0, groups, maxEvents)
      ensures states == NoteAll(old(states), outcomes, time)
    {
      hide RunGroup;
      hide RunGroups;
      hide Chained;
      hide NoteAll;
      var start := states;
      outcomes, rotated, deferred := [], 0, false;
      ghost var target := RunGroups(Now(), envs, 0, groups, maxEvents);
      ChainStart(Now(), envs, groups, maxEvents);
      NoteNone(start, time);
      while rotated < |groups| && |outcomes| < maxEvents
        invariant rotated <= |groups| && |outcomes| <= maxEvents
        invariant states == NoteAll(start, outcomes, time)
        invariant Chained(target, Now(), envs, groups, maxEvents, outcomes, rotated, deferred)
      {
        ChainNext(target, Now(), envs, groups, maxEvents, outcomes, rotated, deferred);
        var more, blocked := ProcessGroup(envs, |outcomes|, groups[rotated], maxEvents - |outcomes|, time, start, outcomes);
        outcomes := outcomes + more;
        rotated := rotated + 1;
        deferred := deferred || blocked;
      }
      ChainEnd(target, Now(), envs, groups, maxEvents, outcomes, rotated, deferred);
    }

    /** One poll: nothing unless the market data is ready, the lock held and the session healthy; else the
        eligible groups from the cursor on, within the budget, and the cursor moved. */
    method ProcessAfterPoll(ready: bool, held: bool, healthy: bool, detector: MarketEventDetector, latest: Latest, time: Time,
                            envs: nat -> Env)
      returns (r: PollResult)
      requires Valid()
      modifies repo, this, detector
      ensures forall s :: TrackerOf(detector.trackers, s) == TrackerOf(old(detector.trackers), s)
      ensures !(ready && held && healthy) ==>
                Now() == old(Now()) && cursor == old(cursor) && states == old(states) && r == PollResult([], [], [], false)
      ensures ready && held && healthy ==>
                var events := SortEvents(DetectAll(old(detector.trackers), latest, detector.symbols, time, detector.delay));
                var groups := GroupsOf(events, EligibleFor(events, time, old(states)));
                var p := PollPass(old(Now()), envs, groups, old(cursor), maxEvents);
                && Now() == p.work && r == PollResult(p.outcomes, ToAck(p.outcomes), ToGiveUp(p.outcomes), p.deferred)
                && cursor == AdvanceCursor(old(cursor), |groups|, p.rotated, p.deferred)
                && states == NoteAll(old(states), p.outcomes, time)
                && deferredEvents == p.deferred && queueOverflow == (|events| > maxEvents)
    {
      hide RunGroups;
      hide RunGroup;
      hide DetectAll;
      hide SortEvents;
      hide GroupKeys;
      hide Members;
      hide ToAck;
      hide ToGiveUp;
      hide NoteAll;
      hide IsEligible;
      deferredEvents := false;
      if !ready || !held || !healthy {
        return PollResult([], [], [], false);
      }
      var detected := detector.DetectCandidates(latest, time);
      var events := SortEvents(detected);
      var keys := EligibleKeys(GroupKeys(events), time, states);
      var groups := GroupsOf(events, keys);
      queueOverflow := |events| > maxEvents;
      var outcomes, rotated, deferred := [], 0, false;
      if groups == [] {
        NoteNone(states, time);
      } else {
        outcomes, rotated, deferred := ProcessGroups(envs, Rotated(groups, cursor), time);
      }
      deferredEvents := deferred;
      cursor := AdvanceCursor(cursor, |groups|, rotated, deferred);
      r := PollResult(outcomes, ToAck(outcomes), ToGiveUp(outcomes), deferred);
    }

    /** An operator's retry of a permanent failure, once the configuration is right. */
    method RecoverPermanentConfiguration(held: bool, valid: bool, detector: MarketEventDetector, e: Event) returns (ok: bool)
      modifies repo, this`pending, detector
      ensures ok == (held && valid && Recoverable(old(repo.Now()), e))
      ensures System(repo.Now(), pending, detector.trackers) ==
                if ok then Apply(old(System(repo.Now(), pending, detector.trackers)), Recover(e))
                else old(System(repo.Now(), pending, detector.trackers))
    {
      hide Attempts;
      hide Cleared;
      var k := RowKey(e);
      ok := held && valid && !e.kind.Live? && PermanentlyFailed(repo.rows, k);
      if ok {
        detector.ClearTerminalFailed(e);
        var attempt := NextAttempt(repo.Now(), k);
        if attempt !in repo.rows {
          repo.rows := repo.rows[attempt := Run(Running, None, Some(k), None)];
        }
        pending := pending[k := attempt];
      }
    }
  }

  /* ---------- what the loops keep ---------- */

  function RestOfGroup(w: Work, envs: nat -> Env, from: nat, events: seq<Event>, budget: nat, done: nat, blocked: bool): GroupRun
    requires done <= |events| && done <= budget
  {
    if blocked then GroupRun(w, [], true) else RunGroup(w, envs, from + done, events[done..], budget - done)
  }

  predicate Joined(target: GroupRun, outcomes: seq<Outcome>, rest: GroupRun) {
    target == GroupRun(rest.work, outcomes + rest.outcomes, rest.blocked)
  }

  lemma JoinStart(w: Work, envs: nat -> Env, from: nat, events: seq<Event>, budget: nat)
    ensures Joined(RunGroup(w, envs, from, events, budget), [], RestOfGroup(w, envs, from, events, budget, 0, false))
  {
    hide RunGroup;
    assert events[0..] == events;
  }

  lemma JoinNext(target: GroupRun, outcomes: seq<Outcome>, w: Work, envs: nat -> Env, from: nat, events: seq<Event>, budget: nat)
    requires |outcomes| < |events| && |outcomes| < budget
    requires Joined(target, outcomes, RestOfGroup(w, envs, from, events, budget, |outcomes|, false))
    ensures var p := Process(w, envs(from + |outcomes|), events[|outcomes|]);
            Joined(target, outcomes + [p.outcome],
                   RestOfGroup(p.work, envs, from, events, budget, |outcomes| + 1, p.outcome.deferred))
  {
    hide Process;
    var n := |outcomes|;
    var p := Process(w, envs(from + n), events[n]);
    assert events[n..][0] == events[n] && events[n..][1..] == events[n + 1..];
    var rest := RestOfGroup(p.work, envs, from, events, budget, n + 1, p.outcome.deferred);
    assert outcomes + [p.outcome] + rest.outcomes == outcomes + ([p.outcome] + rest.outcomes);
    assert [p.outcome] + [] == [p.outcome];
  }

  lemma JoinEnd(target: GroupRun, outcomes: seq<Outcome>, w: Work, envs: nat -> Env, from: nat, events: seq<Event>,
                budget: nat, blocked: bool)
    requires |outcomes| <= |events| && |outcomes| <= budget && (blocked || |outcomes| == |events| || |outcomes| == budget)
    requires Joined(target, outcomes, RestOfGroup(w, envs, from, events, budget, |outcomes|, blocked))
    ensures target == GroupRun(w, outcomes, blocked)
  {
    hide Process;
    assert outcomes + [] == outcomes;
  }

  predicate Chained(target: Pass, w: Work, envs: nat -> Env, groups: seq<seq<Event>>, budget: nat,
                    outcomes: seq<Outcome>, rotated: nat, deferred: bool)
    requires rotated <= |groups| && |outcomes| <= budget
  {
    var rest := RunGroups(w, envs, |outcomes|, groups[rotated..], budget - |outcomes|);
    target == Pass(rest.work, outcomes + rest.outcomes, rotated + rest.rotated, deferred || rest.deferred)
  }

  lemma ChainStart(w: Work, envs: nat -> Env, groups: seq<seq<Event>>, budget: nat)
    ensures Chained(RunGroups(w, envs, 0, groups, budget), w, envs, groups, budget, [], 0, false)
  {
    hide RunGroups;
    assert groups[0..] == groups;
  }

  lemma ChainNext(target: Pass, w: Work, envs: nat -> Env, groups: seq<seq<Event>>, budget: nat,
                  outcomes: seq<Outcome>, rotated: nat, deferred: bool)
    requires rotated < |groups| && |outcomes| < budget && Chained(target, w, envs, groups, budget, outcomes, rotated, deferred)
    ensures var g := RunGroup(w, envs, |outcomes|, groups[rotated], budget - |outcomes|);
            Chained(target, g.work, envs, groups, budget, outcomes + g.outcomes, rotated + 1, deferred || g.blocked)
  {
    hide RunGroup;
    hide RunGroups;
    assert groups[rotated..][0] == groups[rotated] && groups[rotated..][1..] == groups[rotated + 1..];
    PassStep(w, envs, |outcomes|, groups[rotated..], budget - |outcomes|);
    var g := RunGroup(w, envs, |outcomes|, groups[rotated], budget - |outcomes|);
    var rest := RunGroups(g.work, envs, |outcomes| + |g.outcomes|, groups[rotated + 1..], budget - |outcomes| - |g.outcomes|);
    assert outcomes + (g.outcomes + rest.outcomes) == outcomes + g.outcomes + rest.outcomes;
  }

  lemma ChainEnd(target: Pass, w: Work, envs: nat -> Env, groups: seq<seq<Event>>, budget: nat,
                 outcomes: seq<Outcome>, rotated: nat, deferred: bool)
    requires rotated <= |groups| && |outcomes| <= budget && (rotated == |groups| || |outcomes| == budget)
    requires Chained(target, w, envs, groups, budget, outcomes, rotated, deferred)
    ensures target == Pass(w, outcomes, rotated, deferred)
  {
    hide RunGroups;
    PassStops(w, envs, |outcomes|, groups[rotated..], budget - |outcomes|);
    assert outcomes + [] == outcomes;
  }

  lemma NoteNext(start: map<GroupKey, GroupState>, before: seq<Outcome>, outcomes: seq<Outcome>, o: Outcome, time: Time)
    ensures NoteAll(start, before + (outcomes + [o]), time) == NoteOutcome(start, NoteAll(start, before + outcomes, time), o,
            time)
  {
    hide NoteOutcome;
    var all := before + (outcomes + [o]);
    assert all[..|all| - 1] == before + outcomes && all[|all| - 1] == o;
  }

  lemma NoteNone(start: map<GroupKey, GroupState>, time: Time)
    ensures NoteAll(start, [], time) == start
  {
  }

  lemma RunLockedKeeps(s: Store, env: Env, k: Key)
    ensures s.rows.Keys <= RunLocked(s, env, k).store.rows.Keys
  {
  }

  lemma RunAllThree(s: Store, env: Env, jobs: seq<Key>)
    requires |jobs| == 3
    ensures var a := RunJob(s, env, jobs[0]);
            var b := RunJob(a.store, env, jobs[1]);
            var c := RunJob(b.store, env, jobs[2]);
            RunAll(s, env, jobs) == (c.store, [a.outcome, b.outcome, c.outcome])
  {
    hide RunJob;
    var a := RunJob(s, env, jobs[0]);
    var b := RunJob(a.store, env, jobs[1]);
    var c := RunJob(b.store, env, jobs[2]);
    assert jobs[1..][1..] == [jobs[2]] && [jobs[2]][1..] == [];
    var none := RunAll(c.store, env, []);
    assert none == (c.store, []);
    assert [c.outcome] + none.1 == [c.outcome] && [jobs[2]][0] == jobs[2];
    assert RunAll(b.store, env, [jobs[2]]) == (c.store, [c.outcome] + none.1);
    assert RunAll(a.store, env, jobs[1..]) == (c.store, [b.outcome] + [c.outcome]);
    assert RunAll(s, env, jobs) == (c.store, [a.outcome] + ([b.outcome] + [c.outcome]));
    assert [a.outcome] + ([b.outcome] + [c.outcome]) == [a.outcome, b.outcome, c.outcome];
  }

  /* ---------- the commit boundary ---------- */

  /** Trackers that answer alike: one may list a symbol as untouched that the other does not list. */
  ghost predicate SameTrackers(a: map<string, Tracker>, b: map<string, Tracker>) {
    forall s :: TrackerOf(a, s) == TrackerOf(b, s)
  }

  lemma PutSame(a: map<string, Tracker>, b: map<string, Tracker>, k: string, t: Tracker)
    requires SameTrackers(a, b)
    ensures SameTrackers(a[k := t], b[k := t])
  {
    var u, v := a[k := t], b[k := t];
    forall s ensures TrackerOf(u, s) == TrackerOf(v, s) {
      assert TrackerOf(a, s) == TrackerOf(b, s);
    }
  }

  lemma {:induction false} TrackAllSame(a: map<string, Tracker>, b: map<string, Tracker>, events: seq<Event>)
    requires SameTrackers(a, b)
    ensures SameTrackers(TrackAll(a, events), TrackAll(b, events))
    decreases |events|
  {
    if events != [] {
      assert TrackerOf(a, events[0].symbol) == TrackerOf(b, events[0].symbol);
      PutSame(a, b, events[0].symbol, Acknowledged(TrackerOf(a, events[0].symbol), events[0]));
      TrackAllSame(Track(a, events[0]), Track(b, events[0]), events[1..]);
    }
  }

  lemma {:induction false} GiveUpSame(a: map<string, Tracker>, b: map<string, Tracker>, events: seq<Event>)
    requires SameTrackers(a, b)
    ensures SameTrackers(GiveUpUntilLive(a, events), GiveUpUntilLive(b, events))
    decreases |events|
  {
    if events != [] && !events[0].kind.Live? {
      assert TrackerOf(a, events[0].symbol) == TrackerOf(b, events[0].symbol);
      PutSame(a, b, events[0].symbol, GivenUp(TrackerOf(a, events[0].symbol), events[0]));
      GiveUpSame(GiveUp(a, events[0]), GiveUp(b, events[0]), events[1..]);
    }
  }

  class PollLoop {
    const bridge: MarketEventBridge
    const detector: MarketEventDetector

    constructor (bridge: MarketEventBridge, detector: MarketEventDetector)
      ensures this.bridge == bridge && this.detector == detector
    {
      this.bridge, this.detector := bridge, detector;
    }

    method Acknowledge(events: seq<Event>)
      modifies detector
      ensures detector.trackers == TrackAll(old(detector.trackers), events)
    {
      hide Track;
      for n := 0 to |events|
        invariant TrackAll(detector.trackers, events[n..]) == TrackAll(old(detector.trackers), events)
      {
        assert events[n..][0] == events[n] && events[n..][1..] == events[n + 1..];
        detector.AcknowledgeCompleted(events[n]);
      }
    }

    /** Giving up on a live update is not supported: it raises, and the rest is not given up on. */
    method GiveUpOn(events: seq<Event>) returns (raised: bool)
      modifies detector
      ensures detector.trackers == GiveUpUntilLive(old(detector.trackers), events)
      ensures raised == HasLive(events)
    {
      hide GiveUp;
      for n := 0 to |events|
        invariant GiveUpUntilLive(detector.trackers, events[n..]) == GiveUpUntilLive(old(detector.trackers), events)
        invariant forall i :: 0 <= i < n ==> !events[i].kind.Live?
      {
        assert events[n..][0] == events[n] && events[n..][1..] == events[n + 1..];
        if events[n].kind.Live? {
          return true;
        }
        detector.AcknowledgeTerminalFailed(events[n]);
      }
      return false;
    }

    /** One poll with a single commit: what it did is acknowledged only once it is committed. */
    method ProcessCommittedPoll(ready: bool, held: bool, healthy: bool, latest: Latest, time: Time, envs: nat -> Env,
                                commitFails: bool)
      returns (raised: bool, ghost outcomes: seq<Outcome>)
      requires bridge.Valid()
      modifies bridge, bridge.repo, detector
      ensures commitFails ==>
                raised && bridge.repo.Now() == old(bridge.repo.Now()) && bridge.cursor == old(bridge.cursor) &&
                bridge.states == old(bridge.states) && SameTrackers(detector.trackers, old(detector.trackers))
      ensures !commitFails ==>
                var z := Apply(old(System(bridge.repo.Now(), bridge.pending, detector.trackers)),
                    Commit(ItemsOf(outcomes, envs, 0)));
                bridge.repo.Now() == z.committed && bridge.pending == z.pending && SameTrackers(detector.trackers, z.trackers) &&
                raised == MeetsBadLive(old(Work(bridge.repo.Now(), bridge.pending)), ItemsOf(outcomes, envs, 0))
      ensures DistinctNames(detector.symbols) ==> Apart(ItemsOf(outcomes, envs, 0))
      ensures !commitFails && DistinctNames(detector.symbols) && Good(old(Work(bridge.repo.Now(), bridge.pending))) ==>
                raised == HoldsBadLive(old(Work(bridge.repo.Now(), bridge.pending)), ItemsOf(outcomes, envs, 0))
    {
      hide PollPass;
      hide MeetsBadLive;
      hide HoldsBadLive;
      hide Apart;
      hide DistinctNames;
      hide Good;
      hide SameTrackers;
      hide Apply;
      hide HasLive;
      hide DetectAll;
      hide SortEvents;
      hide GroupsOf;
      hide EligibleFor;
      var save, cursor, states := bridge.repo.Now(), bridge.cursor, bridge.states;
      ghost var start := System(bridge.repo.Now(), bridge.pending, detector.trackers);
      label Before:
      var r := bridge.ProcessAfterPoll(ready, held, healthy, detector, latest, time, envs);
      outcomes := r.outcomes;
      ghost var w := Work(start.committed, start.pending);
      if ready && held && healthy {
        if DistinctNames(detector.symbols) {
          DetectedPollIsApart(w, envs, start.trackers, latest, detector.symbols, time, detector.delay, states, cursor,
                              bridge.maxEvents);
        }
      } else {
        NothingIsApart(envs);
      }
      assert SameTrackers(detector.trackers, start.trackers) by { Alike(detector.trackers, start.trackers); }
      if commitFails {
        bridge.repo.RollBack(save);
        bridge.cursor, bridge.states := cursor, states;
        return true, outcomes;
      }
      ghost var groups: seq<seq<Event>> := [];
      if ready && held && healthy {
        ghost var events := SortEvents(DetectAll(start.trackers, latest, detector.symbols, time, detector.delay));
        groups := GroupsOf(events, EligibleFor(events, time, states));
      } else {
        NoPoll(Work(start.committed, start.pending), envs, cursor, bridge.maxEvents);
      }
      PollIsCommit(start, envs, groups, cursor, bridge.maxEvents);
      if Apart(ItemsOf(outcomes, envs, 0)) && Good(w) {
        ApartHolds(w, ItemsOf(outcomes, envs, 0));
      }
      TrackAllSame(detector.trackers, start.trackers, ToAck(outcomes));
      GiveUpSame(TrackAll(detector.trackers, ToAck(outcomes)), TrackAll(start.trackers, ToAck(outcomes)), ToGiveUp(outcomes));
      Acknowledge(r.toAck);
      raised := GiveUpOn(r.givenUp);
    }
  }

  lemma Alike(a: map<string, Tracker>, b: map<string, Tracker>)
    requires forall s :: TrackerOf(a, s) == TrackerOf(b, s)
    ensures SameTrackers(a, b)
  {
  }

  lemma ApartHolds(w: Work, items: seq<(Event, Env)>)
    requires Good(w) && Apart(items)
    ensures MeetsBadLive(w, items) <==> HoldsBadLive(w, items)
  {
    MeetsIffHolds(w, items);
    hide Good;
    hide MeetsBadLive;
    hide HoldsBadLive;
  }

  lemma NothingIsApart(envs: nat -> Env)
    ensures Apart(ItemsOf([], envs, 0))
  {
  }

  lemma NoPoll(w: Work, envs: nat -> Env, cursor: nat, budget: nat)
    ensures PollPass(w, envs, [], cursor, budget) == Pass(w, [], 0, false) && ToAck([]) == [] && ToGiveUp([]) == []
  {
  }
}
