/** What becomes of an event: what holds it back, how a failure is noted, and what the trackers learn of a poll. */
module BridgeOutcomes {
  import opened Common
  import opened Timeframes
  import opened Scheduler
  import opened Bridge
  import opened BridgeSafety
  import opened BridgeRuns
  import opened BridgeSharing
  import opened Detector

  /* ---------- rows ---------- */

  /** Two events share a row exactly if they are of one kind, symbol and time and, as live updates, of one low. */
  lemma {:induction false} SameRowIff(e: Event, f: Event)
    ensures RowKey(e) == RowKey(f) <==>
              e.kind == f.kind && e.symbol == f.symbol && e.at == f.at && (e.kind.Live? ==> e.low == f.low)
    ensures !RowKey(e).job.Attempt? && RowKey(e).at == e.at
  {
  }

  /* ---------- held back ---------- */

  /** The candle is missing, or the context not ready. */
  predicate NotReadyYet(env: Env) { !env.candle || env.context.NotReady? }

  /** What keeps an event from being handled at all; it is tried again later. */
  predicate HeldBack(env: Env, e: Event) {
    match e.kind
    case Open => NotReadyYet(env)
    case Live => NotReadyYet(env) || (env.context.Ready? && !env.enabled)
    case DayClose => !env.candle || !env.evaluationDue || env.context.NotReady? || (env.context.Ready? && !env.lock)
    case _ => false
  }

  lemma HandlerIsHeld(s: Store, env: Env, e: Event)
    requires HeldBack(env, e)
    ensures var r := if e.kind.Open? then HandleOpen(s, env, e) else if e.kind.Live? then HandleLive(s, env, e)
                     else HandleClose(s, env, e);
            r.store == s && r.raised.Some? &&
            (r.raised.value.ContextNotReady? || r.raised.value.SchedulerDeferred? || r.raised.value.EvaluationNotDue?)
  {
    if e.kind.Live? {
      var o := RunJob(s, env, Key(IntradayStop, e.at)).outcome;
      assert [o][1..] == [];
    }
  }

  lemma ReleaseUndoes(s: Store, k: Key, code: string)
    requires !k.job.Attempt? && !Is(s.rows, k, Running) && (k in s.rows ==> s.rows[k].recoveryOf.None?)
    ensures Released(Ensured(s, k), k, code) == s
  {
    if k !in s.rows {
      assert Ensured(s, k).rows - {k} == s.rows;
    }
  }

  /** An event that is held back changes nothing in the store, and is neither acknowledged nor given up on but deferred. */
  lemma {:induction false} HeldBackIsNoOp(w: Work, env: Env, e: Event)
    requires Sound(w.store) && HeldBack(env, e) && !Is(w.store.rows, RowKey(e), Running)
    requires !PermanentlyFailed(w.store.rows, RowKey(e)) && ActiveContext(w, RowKey(e)).None?
    requires !Is(w.store.rows, RowKey(e), Completed) && (e.kind.Open? ==> !OpenComplete(w.store.rows, e.symbol, e.at))
    ensures var p := Process(w, env, e);
            p.work == w && p.outcome.deferred && !ShouldAck(p.outcome) && !p.outcome.terminalFailed
  {
    var k := RowKey(e);
    HandlerIsHeld(Ensured(w.store, k), env, e);
    assert RowOk(w.store, k);
    var r := if e.kind.Open? then HandleOpen(Ensured(w.store, k), env, e)
             else if e.kind.Live? then HandleLive(Ensured(w.store, k), env, e) else HandleClose(Ensured(w.store, k), env, e);
    ReleaseUndoes(w.store, k, CodeOf(r.raised.value));
    hide Sound;
    hide HandleOpen;
    hide HandleLive;
    hide HandleClose;
    hide PermanentlyFailed;
    hide ActiveContext;
    hide OpenComplete;
    hide Ensured;
    hide Released;
  }

  /** As long as a fill is not due, a daily open does not touch its fill and its snapshot: neither their rows nor their
      jobs; and it does not go through. */
  lemma {:induction false} NoFillBeforeItIsDue(s: Store, env: Env, e: Event)
    requires Sound(s) && !env.fillDue
    ensures var r := HandleOpen(s, env, e);
            r.raised.Some? && Only(s, r.store, {GapKey(e.symbol, e.at), Key(StopTrigger, e.at)})
    ensures var r := HandleOpen(s, env, e);
            multiset(r.store.done)[Key(FillProcessing, e.at)] == multiset(s.done)[Key(FillProcessing, e.at)] &&
            multiset(r.store.done)[Key(PortfolioSnapshot, e.at)] == multiset(s.done)[Key(PortfolioSnapshot, e.at)]
  {
    var sub, job := GapKey(e.symbol, e.at), Key(StopTrigger, e.at);
    SubjobKeeps(s, env, sub, job, e.symbol, e.at);
    SubjobDone(s, env, sub, job);
    hide Sound;
    hide OpenSubjob;
  }

  /** Once the gap stop of a day has gone through it stays: if the open goes no further, because the fill is not due or
      fill or snapshot fail, the store holds the gap stop and its job, and nothing else has changed. */
  lemma {:induction false} GapStopStays(s: Store, env: Env, e: Event)
    requires Sound(s) && env.candle && env.context.Ready? && env.lock && env.enabled && Runs(s, env, Key(StopTrigger, e.at))
    ensures var r := HandleOpen(s, env, e);
            r.raised.Some? ==>
              && Is(r.store.rows, GapKey(e.symbol, e.at), Completed) && Is(r.store.rows, Key(StopTrigger, e.at), Completed)
              && r.store.done == s.done + Missing(s, Key(StopTrigger, e.at))
              && Only(s, r.store, {GapKey(e.symbol, e.at), Key(StopTrigger, e.at)})
  {
    var sub, job := GapKey(e.symbol, e.at), Key(StopTrigger, e.at);
    assert OpenOk(s.rows, e.symbol, e.at);
    SubjobRuns(s, env, sub, job);
    SubjobCompletes(s, env, sub, job);
    hide Sound;
    hide OpenSubjob;
    hide Missing;
    hide Only;
  }

  /** An open whose fill is not due is deferred, with the gap stop done and no row of its own left behind. */
  lemma {:induction false} NotDueIsDeferred(w: Work, env: Env, e: Event)
    requires Sound(w.store) && e.kind.Open? && RowKey(e) !in w.store.rows && ActiveContext(w, RowKey(e)).None?
    requires !OpenComplete(w.store.rows, e.symbol, e.at) && env.candle && env.context.Ready? && env.lock && env.enabled
    requires !env.fillDue && Runs(w.store, env, Key(StopTrigger, e.at))
    ensures var p := Process(w, env, e);
            && p.outcome.deferred && !ShouldAck(p.outcome) && p.outcome.error == Some(FILL_NOT_DUE)
            && RowKey(e) !in p.work.store.rows && Is(p.work.store.rows, GapKey(e.symbol, e.at), Completed)
            && p.work.store.done == w.store.done + Missing(w.store, Key(StopTrigger, e.at))
  {
    var k, started := RowKey(e), Ensured(w.store, RowKey(e));
    EnsuredSound(w.store, k);
    StartedSame(w.store, k, Key(StopTrigger, e.at));
    GapStopStays(started, env, e);
    NotDueRaises(started, env, e);
    ProcessFreshOpen(w, env, e);
    hide Sound;
    hide HandleOpen;
    hide Process;
    hide ActiveContext;
    hide OpenComplete;
    hide Missing;
  }

  lemma EnsuredSound(s: Store, k: Key)
    requires Sound(s) && k.job.OpenParent? && k !in s.rows
    ensures Sound(Ensured(s, k))
  {
    EnsuredKeeps(s, k);
  }

  lemma NotDueRaises(s: Store, env: Env, e: Event)
    requires Sound(s) && env.candle && env.context.Ready? && env.lock && env.enabled && !env.fillDue
    requires Runs(s, env, Key(StopTrigger, e.at))
    ensures HandleOpen(s, env, e).raised == Some(FillNotDue)
  {
    assert OpenOk(s.rows, e.symbol, e.at);
    SubjobRuns(s, env, GapKey(e.symbol, e.at), Key(StopTrigger, e.at));
    hide OpenSubjob;
    hide Sound;
  }

  lemma SubjobCompletes(s: Store, env: Env, sub: Key, job: Key)
    requires sub != job && (Is(s.rows, sub, Completed) ==> Is(s.rows, job, Completed))
    ensures var r := OpenSubjob(s, env, sub, job);
            r.raised.None? ==> Is(r.store.rows, sub, Completed) && Is(r.store.rows, job, Completed)
  {
    var o := RunLocked(Ensured(s, sub), env, job).outcome;
    assert [o][1..] == [];
  }

  /** A phase the scheduler turns down leaves no row behind. */
  lemma {:induction false} TurnedDownIsReleased(s: Store, env: Env, sub: Key, job: Key)
    requires sub != job && sub !in s.rows
    ensures var r := OpenSubjob(s, env, sub, job);
            r.raised == Some(SchedulerDeferred) ==> sub !in r.store.rows && r.store.done == s.done
  {
    var o := RunLocked(Ensured(s, sub), env, job).outcome;
    assert [o][1..] == [];
    assert Verdict([]).None?;
    assert o.status == Completed && !o.skipped ==> IsTerminalSuccess(o) && Verdict([o]).None?;
  }

  lemma SubjobDone(s: Store, env: Env, sub: Key, job: Key)
    requires sub != job
    ensures var t := OpenSubjob(s, env, sub, job).store; t.done == s.done || t.done == s.done + [job]
  {
    hide Verdict;
  }

  /* ---------- failures ---------- */

  /** What is noted of a failure: the reason at the row of the event, which is not acknowledged and tried again, or given up
      on if its configuration is wrong for good. */
  ghost predicate Noted(p: Processed, e: Event, r: Raised) {
    && RowKey(e) in p.work.store.rows && p.work.store.rows[RowKey(e)].status == Failed
    && p.work.store.rows[RowKey(e)].error == Some(CodeOf(r))
    && !p.outcome.deferred && !ShouldAck(p.outcome) && p.outcome.error == Some(CodeOf(r))
    && (p.outcome.terminalFailed <==> r.PermanentConfiguration?)
  }

  /** A failure of the event itself, not something it has to wait for. */
  predicate IsFailure(r: Option<Raised>) {
    r.Some? && (r.value.Unexpected? || r.value.SequenceFailure? || r.value.PermanentConfiguration?)
  }

  lemma ConcludeOpenNotes(w: Work, e: Event, r: Option<Raised>)
    requires e.kind.Open? && RowKey(e) in w.store.rows && !Is(w.store.rows, RowKey(e), Completed)
    requires PhaseFailed(Step(w.store, r), e.symbol, e.at) && IsFailure(r)
    ensures Noted(ConcludeOpen(w, e, r), e, r.value)
  {
    AuditedParent(w.store, e, r);
    hide Audited;
    hide Released;
  }

  lemma OpenLeavesParent(w: Work, env: Env, e: Event)
    requires Good(w) && e.kind.Open? && !OpenComplete(w.store.rows, e.symbol, e.at)
    ensures var step := HandleOpen(Ensured(w.store, RowKey(e)), env, e);
            RowKey(e) in step.store.rows && !Is(step.store.rows, RowKey(e), Completed) && PhaseFailed(step, e.symbol, e.at)
  {
    var k := RowKey(e);
    EnsuredKeeps(w.store, k);
    var started := Ensured(w.store, k);
    HandleOpenKeeps(started, env, e);
    if Is(w.store.rows, k, Completed) {
      ParentImpliesPhases(w.store, e.symbol, e.at);
    }
    ParentUntouched(w.store, started, HandleOpen(started, env, e).store, e);
    hide Good;
    hide Sound;
    hide AllTied;
    hide HandleOpen;
    hide OpenComplete;
    hide Keeps;
    hide Settles;
    hide Only;
    hide Ensured;
    hide PhaseFailed;
  }

  /** A daily open that fails for a reason that may pass is noted as failed, with the reason, at its own row, and is tried
      again; one whose configuration is wrong for good is noted with the code and given up on. */
  lemma {:induction false} OpenFailureIsNoted(w: Work, env: Env, e: Event)
    requires Good(w) && e.kind.Open? && !PermanentlyFailed(w.store.rows, RowKey(e)) && ActiveContext(w, RowKey(e)).None?
    requires !OpenComplete(w.store.rows, e.symbol, e.at)
    ensures var r := HandleOpen(Ensured(w.store, RowKey(e)), env, e).raised;
            IsFailure(r) ==> Noted(Process(w, env, e), e, r.value)
  {
    OpenLeavesParent(w, env, e);
    ProcessFreshOpen(w, env, e);
    hide Good;
    hide HandleOpen;
    hide Process;
    hide ActiveContext;
    hide OpenComplete;
    hide PermanentlyFailed;
    hide Ensured;
    hide PhaseFailed;
    hide Noted;
    hide ConcludeOpen;
    var step := HandleOpen(Ensured(w.store, RowKey(e)), env, e);
    if IsFailure(step.raised) {
      ConcludeOpenNotes(w.(store := step.store), e, step.raised);
    }
  }

  lemma ProcessFreshOpen(w: Work, env: Env, e: Event)
    requires e.kind.Open? && !PermanentlyFailed(w.store.rows, RowKey(e)) && ActiveContext(w, RowKey(e)).None?
    requires !OpenComplete(w.store.rows, e.symbol, e.at)
    ensures var step := HandleOpen(Ensured(w.store, RowKey(e)), env, e);
            Process(w, env, e) == ConcludeOpen(w.(store := step.store), e, step.raised)
  {
    hide HandleOpen;
    hide ConcludeOpen;
    hide ActiveContext;
    hide OpenComplete;
    hide PermanentlyFailed;
    hide Ensured;
  }

  lemma AuditedParent(s: Store, e: Event, r: Option<Raised>)
    requires e.kind.Open? && RowKey(e) in s.rows && !Is(s.rows, RowKey(e), Completed)
    requires PhaseFailed(Step(s, r), e.symbol, e.at)
    ensures forall message :: var t := Audited(s, RowKey(e), RowKey(e), message);
              t.rows[RowKey(e)].status == Failed && t.rows[RowKey(e)].error == Some(message)
    ensures r.Some? && r.value.SequenceFailure? ==>
              forall message :: var t := Audited(s, RowKey(e), r.value.subjob, message);
                t.rows[RowKey(e)].status == Failed && t.rows[RowKey(e)].error == Some(message)
  {
  }

  /** The phase that failed is noted too, and a phase of another day, or a completed open, is not touched. */
  lemma {:induction false} PhaseIsNoted(s: Store, parent: Key, sub: Key, message: string)
    requires sub != parent
    ensures var t := Audited(s, parent, sub, message);
            && sub in t.rows && t.rows[sub].status == Failed && t.rows[sub].error == Some(message)
            && (Is(s.rows, parent, Completed) ==> t.rows[parent] == s.rows[parent])
            && Only(s, t, {parent, sub}) && t.done == s.done
  {
  }

  /** What keeps a failed event from being tried again: a code that stands for good, not resolved and not in recovery. */
  predicate Closed(w: Work, k: Key) {
    && k in w.store.rows && w.store.rows[k].status == Failed && w.store.rows[k].resolvedBy.None?
    && w.store.rows[k].error.Some? && w.store.rows[k].error.value in PERMANENT_CODES && ActiveContext(w, k).None?
  }

  lemma ClosedIsTurnedAway(w: Work, env: Env, e: Event)
    requires Closed(w, RowKey(e))
    ensures Process(w, env, e) == Processed(w, Outcome(e, Failed, true, w.store.rows[RowKey(e)].error, false, true))
  {
    hide HandleOpen;
    hide HandleLive;
    hide HandleClose;
    hide ActiveContext;
    hide OpenComplete;
  }

  lemma OtherIsHandled(w: Work, env: Env, e: Event)
    requires !Closed(w, RowKey(e)) && (e.kind.Live? || e.kind.DayClose?) && !Is(w.store.rows, RowKey(e), Completed)
    ensures var started := Ensured(w.store, RowKey(e));
            var step := if e.kind.Live? then HandleLive(started, env, e) else HandleClose(started, env, e);
            Process(w, env, e).work.store.done == step.store.done &&
            (ShouldAck(Process(w, env, e).outcome) <==> step.raised.None?)
  {
    hide HandleLive;
    hide HandleClose;
    hide ActiveContext;
    hide Released;
    var v := if PermanentlyFailed(w.store.rows, RowKey(e)) then Remembered(w, RowKey(e)) else w;
    assert v.store == w.store;
    ReleaseKeepsDone(w, e);
  }

  /** Such an event is turned away with nothing done. Any other live update or daily close that is not completed is
      handled, whether it failed before or not. */
  lemma {:induction false} RetriedUnlessPermanent(w: Work, env: Env, e: Event)
    ensures Closed(w, RowKey(e)) ==>
              Process(w, env, e) == Processed(w, Outcome(e, Failed, true, w.store.rows[RowKey(e)].error, false, true))
    ensures !Closed(w, RowKey(e)) && (e.kind.Live? || e.kind.DayClose?) && !Is(w.store.rows, RowKey(e), Completed) ==>
              var started := Ensured(w.store, RowKey(e));
              var step := if e.kind.Live? then HandleLive(started, env, e) else HandleClose(started, env, e);
              Process(w, env, e).work.store.done == step.store.done &&
              (ShouldAck(Process(w, env, e).outcome) <==> step.raised.None?)
  {
    if Closed(w, RowKey(e)) {
      ClosedIsTurnedAway(w, env, e);
    } else if (e.kind.Live? || e.kind.DayClose?) && !Is(w.store.rows, RowKey(e), Completed) {
      OtherIsHandled(w, env, e);
    }
    hide Process;
    hide HandleLive;
    hide HandleClose;
    hide Closed;
    hide Ensured;
  }

  lemma ReleaseKeepsDone(w: Work, e: Event)
    ensures forall s: Store, code :: Released(s, RowKey(e), code).done == s.done
  {
  }

  /** The same for a live update or a daily close. */
  lemma {:induction false} OtherFailureIsNoted(w: Work, env: Env, e: Event)
    requires (e.kind.Live? || e.kind.DayClose?) && !PermanentlyFailed(w.store.rows, RowKey(e))
    requires !Is(w.store.rows, RowKey(e), Completed)
    ensures var s := Ensured(w.store, RowKey(e));
            var r := (if e.kind.Live? then HandleLive(s, env, e) else HandleClose(s, env, e)).raised;
            (r.Some? && (r.value.Unexpected? || r.value.PermanentConfiguration?) ==> Noted(Process(w, env, e), e, r.value))
  {
    hide HandleLive;
    hide HandleClose;
    hide PermanentlyFailed;
    hide ActiveContext;
    hide Ensured;
    hide Released;
  }

  /** A failing handler fails its phase of the open, with its message. */
  lemma {:induction false} FailingHandlerFails(s: Store, env: Env, sub: Key, job: Key)
    requires sub != job && !Is(s.rows, sub, Completed) && env.lock && env.enabled
    requires !Is(s.rows, job, Completed) && !Is(s.rows, job, Running) && env.handler(job.job).Some?
    ensures var r := OpenSubjob(s, env, sub, job);
            r.raised.Some? && r.raised.value.SequenceFailure? && r.raised.value.subjob == sub && r.store.done == s.done &&
            Is(r.store.rows, job, Failed) &&
            r.raised.value.message ==
              if env.handler(job.job).value != "" then env.handler(job.job).value else "scheduler job failed"
  {
    var o := RunLocked(Ensured(s, sub), env, job).outcome;
    assert [o][1..] == [];
  }

  /* ---------- what the trackers learn ---------- */

  predicate AcksEvent(o: Outcome, e: Event) { ShouldAck(o) && o.event == e }

  predicate FailsEvent(o: Outcome, e: Event) { o.terminalFailed && o.event == e }

  lemma {:induction false} AckedMembers(outcomes: seq<Outcome>, e: Event)
    ensures e in ToAck(outcomes) <==> exists i :: 0 <= i < |outcomes| && AcksEvent(outcomes[i], e)
    ensures e in ToGiveUp(outcomes) <==> exists i :: 0 <= i < |outcomes| && FailsEvent(outcomes[i], e)
  {
    if outcomes != [] {
      var n := |outcomes| - 1;
      var front, last := outcomes[..n], outcomes[n];
      AckedMembers(front, e);
      assert forall i :: 0 <= i < n ==> front[i] == outcomes[i];
      assert (exists i :: 0 <= i < |outcomes| && AcksEvent(outcomes[i], e)) <==>
          AcksEvent(last, e) || exists i :: 0 <= i < n && AcksEvent(front[i], e);
      assert (exists i :: 0 <= i < |outcomes| && FailsEvent(outcomes[i], e)) <==>
          FailsEvent(last, e) || exists i :: 0 <= i < n && FailsEvent(front[i], e);
    }
  }

  lemma {:induction false} TrackedIsRemembered(trackers: map<string, Tracker>, events: seq<Event>, e: Event)
    requires Remembers(TrackerOf(trackers, e.symbol), e) || e in events
    requires forall f :: f in events ==> !Overwrites(f, e)
    ensures Remembers(TrackerOf(TrackAll(trackers, events), e.symbol), e)
    decreases |events|
  {
    if events != [] {
      var next := Track(trackers, events[0]);
      assert events[0] in events;
      if Remembers(TrackerOf(trackers, e.symbol), e) {
        ToldRemembers(trackers, AckedNote(events[0]), e);
      } else if events[0] == e {
        AllRemembered(trackers, e, []);
        assert ToldAll(next, []) == next;
      }
      hide Remembers;
      hide Overwrites;
      hide Track;
      TrackedIsRemembered(next, events[1..], e);
    }
  }

  lemma {:induction false} GivingUpKeepsAcks(trackers: map<string, Tracker>, events: seq<Event>, e: Event)
    requires Remembers(TrackerOf(trackers, e.symbol), e)
    ensures Remembers(TrackerOf(GiveUpUntilLive(trackers, events), e.symbol), e)
    decreases |events|
  {
    hide Remembers;
    hide GiveUp;
    if events != [] && !events[0].kind.Live? {
      ToldRemembers(trackers, GivenUpNote(events[0]), e);
      GivingUpKeepsAcks(GiveUp(trackers, events[0]), events[1..], e);
    }
  }

  /** What a committed poll has to acknowledge is acknowledged: the tracker remembers it, unless another acknowledgement of
      the poll overwrites it. */
  lemma {:induction false} CommittedIsAcknowledged(y: System, items: seq<(Event, Env)>, i: nat)
    requires i < |ProcessAll(Work(y.committed, y.pending), items).outcomes|
    requires var o := ProcessAll(Work(y.committed, y.pending), items).outcomes;
             ShouldAck(o[i]) && forall j :: 0 <= j < |o| && ShouldAck(o[j]) ==> !Overwrites(o[j].event, o[i].event)
    ensures var e := ProcessAll(Work(y.committed, y.pending), items).outcomes[i].event;
            Remembers(TrackerOf(Apply(y, Commit(items)).trackers, e.symbol), e)
  {
    hide ProcessAll;
    hide Remembers;
    hide Overwrites;
    hide ShouldAck;
    var o := ProcessAll(Work(y.committed, y.pending), items).outcomes;
    var e := o[i].event;
    AckedMembers(o, e);
    forall f | f in ToAck(o) ensures !Overwrites(f, e) {
      AckedMembers(o, f);
    }
    TrackedIsRemembered(y.trackers, ToAck(o), e);
    GivingUpKeepsAcks(TrackAll(y.trackers, ToAck(o)), ToGiveUp(o), e);
    hide ToAck;
    hide ToGiveUp;
    hide TrackAll;
  }

  lemma {:induction false} TrackingGivesUpNothing(trackers: map<string, Tracker>, events: seq<Event>, s: string, kind: Kind)
    ensures var failed := FailedOf(TrackerOf(TrackAll(trackers, events), s), kind);
            failed.None? || failed == FailedOf(TrackerOf(trackers, s), kind)
    decreases |events|
  {
    if events != [] {
      TrackingGivesUpNothing(Track(trackers, events[0]), events[1..], s, kind);
    }
  }

  lemma {:induction false} OnlyListedGivenUp(trackers: map<string, Tracker>, events: seq<Event>, s: string, kind: Kind)
    requires !kind.Live?
    ensures var failed := FailedOf(TrackerOf(GiveUpUntilLive(trackers, events), s), kind);
            failed == FailedOf(TrackerOf(trackers, s), kind) ||
            exists e :: e in events && e.kind == kind && e.symbol == s && failed == Some(e.at)
    decreases |events|
  {
    if events != [] && !events[0].kind.Live? {
      OnlyListedGivenUp(GiveUp(trackers, events[0]), events[1..], s, kind);
      assert forall e :: e in events[1..] ==> e in events;
    }
  }

  /** Some outcome of the list failed for good, of that symbol, kind and time. */
  predicate FailedForGood(outcomes: seq<Outcome>, s: string, kind: Kind, at: Option<Time>) {
    exists i :: 0 <= i < |outcomes| && outcomes[i].terminalFailed && outcomes[i].event.kind == kind &&
                outcomes[i].event.symbol == s && at == Some(outcomes[i].event.at)
  }

  lemma SettledGivesUp(trackers: map<string, Tracker>, o: seq<Outcome>, s: string, kind: Kind)
    requires !kind.Live?
    ensures var failed := FailedOf(TrackerOf(Settled(trackers, o), s), kind);
            failed.None? || failed == FailedOf(TrackerOf(trackers, s), kind) || FailedForGood(o, s, kind, failed)
  {
    var tracked, given := TrackAll(trackers, ToAck(o)), ToGiveUp(o);
    TrackingGivesUpNothing(trackers, ToAck(o), s, kind);
    OnlyListedGivenUp(tracked, given, s, kind);
    var failed := FailedOf(TrackerOf(GiveUpUntilLive(tracked, given), s), kind);
    if failed != FailedOf(TrackerOf(tracked, s), kind) {
      var e :| e in given && e.kind == kind && e.symbol == s && failed == Some(e.at);
      AckedMembers(o, e);
    }
    hide ToAck;
    hide ToGiveUp;
    hide TrackAll;
    hide GiveUpUntilLive;
    hide FailedOf;
  }

  /** Nothing is given up on but what failed for good: whatever a tracker holds as given up after a committed poll it held
      before, or the poll found an event of that symbol, kind and time to have failed for good. */
  lemma {:induction false} OnlyPermanentIsGivenUp(y: System, items: seq<(Event, Env)>, s: string, kind: Kind)
    requires !kind.Live?
    ensures var failed := FailedOf(TrackerOf(Apply(y, Commit(items)).trackers, s), kind);
            failed.None? || failed == FailedOf(TrackerOf(y.trackers, s), kind) ||
            FailedForGood(ProcessAll(Work(y.committed, y.pending), items).outcomes, s, kind, failed)
  {
    SettledGivesUp(y.trackers, ProcessAll(Work(y.committed, y.pending), items).outcomes, s, kind);
    hide ProcessAll;
    hide Settled;
    hide FailedOf;
    hide FailedForGood;
  }

  /** An event that failed for good, with no live update before it in the list, is given up on. */
  lemma {:induction false} PermanentIsGivenUp(trackers: map<string, Tracker>, events: seq<Event>, e: Event)
    requires !e.kind.Live?
    requires FailedOf(TrackerOf(trackers, e.symbol), e.kind) == Some(e.at) || e in events
    requires forall f :: f in events ==> !f.kind.Live? && (f.symbol == e.symbol && f.kind == e.kind ==> f.at == e.at)
    ensures FailedOf(TrackerOf(GiveUpUntilLive(trackers, events), e.symbol), e.kind) == Some(e.at)
    decreases |events|
  {
    if events != [] {
      assert events[0] in events;
      PermanentIsGivenUp(GiveUp(trackers, events[0]), events[1..], e);
    }
  }
}
