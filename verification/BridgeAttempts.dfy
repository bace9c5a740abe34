/** Which recovery attempts there can be, and how they end. */
module BridgeAttempts {
  import opened Common
  import opened Timeframes
  import opened Scheduler
  import opened Bridge
  import opened BridgeSafety
  import opened BridgeRuns
  import opened BridgeFrames
  import opened Detector

  /* ---------- weekly and monthly closes never fail, and what is recovered stays ---------- */

  predicate IsMarker(j: Job) { j.WeekClosed? || j.MonthClosed? }

  /** Rows that a handler may touch: the scheduler's jobs and the phases of an open. */
  predicate IsInner(j: Job) { IsSchedulerJob(j) || j.OpenGap? || j.OpenFill? || j.OpenSnap? }

  /** An attempt is at a daily open or a daily close whose row is there and not running. */
  predicate HasOriginal(rows: map<Key, Run>, a: Key)
    requires a.job.Attempt?
  {
    var k := Key(a.job.of, a.at);
    (k.job.OpenParent? || k.job.DayClosed?) && k in rows && rows[k].status != Running
  }

  predicate RowFits(rows: map<Key, Run>, k: Key)
    requires k in rows
  {
    (IsMarker(k.job) ==> rows[k].status == Completed) && (k.job.Attempt? ==> HasOriginal(rows, k))
  }

  /** Weekly and monthly closes are completed, and attempts have their originals. */
  ghost predicate RowsFit(s: Store) { forall k :: k in s.rows ==> RowFits(s.rows, k) }

  lemma OnlyKeepsFit(s: Store, t: Store, keys: set<Key>)
    requires RowsFit(s) && Only(s, t, keys) && forall k :: k in keys ==> IsInner(k.job)
    ensures RowsFit(t)
  {
  }

  lemma LeavesOnly(s: Store, t: Store, keys: set<Key>)
    requires Leaves(s, t, keys)
    ensures Only(s, t, keys)
  {
  }

  lemma OpenKeepsFit(s: Store, env: Env, e: Event)
    requires Sound(s) && AllTied(s) && RowsFit(s)
    ensures RowsFit(HandleOpen(s, env, e).store) && PhaseFailed(HandleOpen(s, env, e), e.symbol, e.at)
  {
    HandleOpenKeeps(s, env, e);
    hide HandleOpen;
    hide Sound;
    hide AllTied;
    hide Keeps;
    hide Settles;
    OnlyKeepsFit(s, HandleOpen(s, env, e).store, OpenRows(e.symbol, e.at));
  }

  lemma OtherKeepsFit(s: Store, env: Env, e: Event)
    requires Sound(s) && AllTied(s) && RowsFit(s)
    ensures RowsFit(HandleLive(s, env, e).store) && RowsFit(HandleClose(s, env, e).store)
  {
    HandleLiveKeeps(s, env, e);
    HandleCloseKeeps(s, env, e);
    LeavesOnly(s, HandleLive(s, env, e).store, {Key(IntradayStop, e.at)});
    LeavesOnly(s, HandleClose(s, env, e).store, CloseRows(CloseTime(e)));
    OnlyKeepsFit(s, HandleLive(s, env, e).store, {Key(IntradayStop, e.at)});
    OnlyKeepsFit(s, HandleClose(s, env, e).store, CloseRows(CloseTime(e)));
  }

  lemma ConcludeRecoveryFits(w: Work, e: Event, a: Key, r: Option<Raised>)
    requires RowsFit(w.store) && a in w.store.rows && a.job.Attempt?
    ensures RowsFit(ConcludeRecovery(w, e, a, r).work.store)
  {
  }

  lemma EndFits(s: Store, k: Key, status: Status, error: Option<string>, code: string)
    requires RowsFit(s) && k in s.rows && !k.job.Attempt? && !IsMarker(k.job) && status != Running
    ensures RowsFit(Finished(s, k, status, error)) && RowsFit(Released(s, k, code))
  {
  }

  lemma AuditFits(s: Store, parent: Key, sub: Key, message: string)
    requires RowsFit(s) && parent in s.rows && !parent.job.Attempt? && !IsMarker(parent.job)
    requires !sub.job.Attempt? && !IsMarker(sub.job)
    ensures RowsFit(Audited(s, parent, sub, message))
  {
    EndFits(s, parent, Failed, Some(message), "");
    if sub != parent {
      var failed := if Is(s.rows, parent, Completed) then s else Finished(s, parent, Failed, Some(message));
      ChangesFit(failed, sub);
      EndFits(Ensured(failed, sub), sub, Failed, Some(message), "");
    }
    hide RowsFit;
  }

  lemma ConcludeOpenFits(w: Work, e: Event, r: Option<Raised>)
    requires RowsFit(w.store) && e.kind.Open? && RowKey(e) in w.store.rows
    requires PhaseFailed(Step(w.store, r), e.symbol, e.at)
    ensures RowsFit(ConcludeOpen(w, e, r).work.store)
  {
    var k := RowKey(e);
    EndFits(w.store, k, Completed, None, "");
    if r.Some? {
      EndFits(w.store, k, Failed, Some(CodeOf(r.value)), CodeOf(r.value));
      AuditFits(w.store, k, k, CodeOf(r.value));
      if r.value.SequenceFailure? {
        AuditFits(w.store, k, r.value.subjob, r.value.message);
      }
    }
    hide RowsFit;
    hide Finished;
    hide Released;
    hide Audited;
  }

  lemma ConcludeOtherFits(w: Work, e: Event, r: Option<Raised>)
    requires RowsFit(w.store) && (e.kind.Live? || e.kind.DayClose?) && RowKey(e) in w.store.rows
    ensures RowsFit(ConcludeOther(w, e, r).work.store)
  {
  }

  lemma ChangesFit(s: Store, k: Key)
    requires RowsFit(s)
    ensures k.job.Attempt? && k in s.rows ==> RowsFit(Reactivated(s, k))
    ensures !k.job.Attempt? ==> RowsFit(ParentCompleted(s, k)) && RowsFit(Finished(Ensured(s, k), k, Completed, None))
    ensures !k.job.Attempt? && !IsMarker(k.job) ==> RowsFit(Ensured(s, k))
  {
  }

  lemma {:induction false} OpenFits(w: Work, env: Env, e: Event)
    requires Good(w) && RowsFit(w.store) && e.kind.Open?
    ensures RowsFit(ProcessOpen(w, env, e).work.store)
  {
    var k, attempt := RowKey(e), ActiveContext(w, RowKey(e));
    ChangesFit(w.store, k);
    EnsuredKeeps(w.store, k);
    assert RowKey(e) in HandleOpen(Ensured(w.store, k), env, e).store.rows;
    if attempt.Some? {
      var a := attempt.value;
      ActiveIsAttempt(w, k);
      RecoverOpen(w, env, e, a);
      ChangesFit(w.store, a);
      var started := Reactivated(w.store, a);
      OpenKeepsFit(started, env, e);
      var step := HandleOpen(started, env, e);
      ConcludeRecoveryFits(Remembered(w, k).(store := step.store), e, a, step.raised);
    } else {
      var step := HandleOpen(Ensured(w.store, k), env, e);
      OpenKeepsFit(Ensured(w.store, k), env, e);
      ConcludeOpenFits(w.(store := step.store), e, step.raised);
    }
    hide Sound;
    hide AllTied;
    hide RowsFit;
    hide HandleOpen;
    hide Reactivated;
    hide Leaves;
    hide AttemptOk;
    hide ConcludeRecovery;
    hide ConcludeOpen;
    hide ActiveContext;
    hide ParentCompleted;
    hide OpenComplete;
    hide Remembered;
    hide Ensured;
  }

  lemma {:induction false} OtherFits(w: Work, env: Env, e: Event)
    requires Good(w) && RowsFit(w.store) && !e.kind.Open?
    ensures RowsFit(ProcessOther(w, env, e).work.store)
  {
    var k := RowKey(e);
    ChangesFit(w.store, k);
    EnsuredKeeps(w.store, k);
    var started := Ensured(w.store, k);
    assert Remembered(w, k).store == w.store;
    if e.kind.Live? || e.kind.DayClose? {
      OtherKeepsFit(started, env, e);
      var v := if PermanentlyFailed(w.store.rows, k) then Remembered(w, k) else w;
      var step := if e.kind.Live? then HandleLive(started, env, e) else HandleClose(started, env, e);
      ConcludeOtherFits(v.(store := step.store), e, step.raised);
    }
    hide Good;
    hide RowsFit;
    hide Ensured;
    hide Remembered;
    hide ActiveContext;
    hide HandleLive;
    hide HandleClose;
    hide ConcludeOther;
    hide PermanentlyFailed;
  }

  lemma {:induction false} BatchFits(w: Work, items: seq<(Event, Env)>)
    requires Good(w) && RowsFit(w.store)
    ensures RowsFit(ProcessAll(w, items).work.store)
  {
    hide Good;
    hide RowsFit;
    hide ProcessOpen;
    hide ProcessOther;
    if items != [] {
      var front, last := items[..|items| - 1], items[|items| - 1];
      BatchFits(w, front);
      BatchAdvances(w, front);
      if last.0.kind.Open? {
        OpenFits(ProcessAll(w, front).work, last.1, last.0);
      } else {
        OtherFits(ProcessAll(w, front).work, last.1, last.0);
      }
    }
  }

  /* ---------- which rows there can be ---------- */

  /** Nothing but an attempt is left running. */
  ghost predicate OnlyAttemptsRun(s: Store) { forall k :: Is(s.rows, k, Running) ==> k.job.Attempt? }

  lemma MoveFits(y: System, m: Move)
    requires Safe(y) && Enabled(y, m) && RowsFit(y.committed) && OnlyAttemptsRun(y.committed)
    ensures RowsFit(Apply(y, m).committed) && OnlyAttemptsRun(Apply(y, m).committed)
  {
    match m {
      case Commit(items) =>
        var w := Work(y.committed, y.pending);
        BatchFits(w, items);
        BatchAdvances(w, items);
        CommitFits(y.committed, ProcessAll(w, items).work.store);
      case Abort(_) =>
      case Restart(failOrphans) => RestartFits(y.committed);
      case Recover(e) => RecoverFits(y, e);
    }
    hide Good;
    hide AttemptsNumbered;
    hide AcksHold;
    hide ProcessAll;
    hide RowsFit;
    hide OnlyAttemptsRun;
    hide OrphansFailed;
  }

  lemma CommitFits(s: Store, t: Store)
    requires OnlyAttemptsRun(s) && Settles(s, t)
    ensures OnlyAttemptsRun(t)
  {
  }

  lemma RestartFits(s: Store)
    requires RowsFit(s) && OnlyAttemptsRun(s)
    ensures RowsFit(OrphansFailed(s)) && OnlyAttemptsRun(OrphansFailed(s))
  {
  }

  lemma RecoverFits(y: System, e: Event)
    requires Recoverable(y.committed, e) && RowsFit(y.committed) && OnlyAttemptsRun(y.committed)
    ensures var z := Apply(y, Recover(e)).committed; RowsFit(z) && OnlyAttemptsRun(z)
  {
  }

  lemma {:induction false} HistoryFits(moves: seq<Move>)
    requires Possible(Start(), moves)
    ensures var s := After(Start(), moves).committed; RowsFit(s) && OnlyAttemptsRun(s)
  {
    hide Safe;
    hide Possible;
    hide Enabled;
    hide Apply;
    if moves != [] {
      var front := moves[..|moves| - 1];
      LastIsEnabled(Start(), moves);
      HistoryFits(front);
      StartSafe();
      HistorySafe(Start(), front);
      MoveFits(After(Start(), front), moves[|moves| - 1]);
    }
  }

  /** After any history a weekly or monthly close that has a row is completed, so there is nothing an operator
      could recover; attempts exist at daily opens and daily closes only; and only an attempt is left running. */
  lemma {:induction false} AttemptsAreOfDays(moves: seq<Move>, k: Key)
    requires Possible(Start(), moves) && k in After(Start(), moves).committed.rows
    ensures var rows := After(Start(), moves).committed.rows;
            (IsMarker(k.job) ==> rows[k].status == Completed && !PermanentlyFailed(rows, k)) &&
            (k.job.Attempt? ==> k.job.of.OpenParent? || k.job.of.DayClosed?) &&
            (rows[k].status == Running ==> k.job.Attempt?)
  {
    HistoryFits(moves);
  }

  /* ---------- how an attempt ends ---------- */

  /** What becomes of an attempt by what its daily open raises. */
  function EndOf(r: Option<Raised>): Status {
    if r.None? then Completed
    else if r.value.FillNotDue? || r.value.ContextNotReady? || r.value.SchedulerDeferred? then Skipped
    else Failed
  }

  /** Set aside, and running again once it is taken up. */
  predicate TakenUp(s: Store, a: Key) { Is(s.rows, a, Skipped) && Is(Reactivated(s, a).rows, a, Running) }

  /** The original is resolved: by this attempt, unless an earlier one did. */
  predicate ResolvedBy(before: map<Key, Run>, after: map<Key, Run>, k: Key, a: Key)
    requires k in before
  {
    k in after && after[k].resolvedBy == if before[k].resolvedBy.Some? then before[k].resolvedBy else Some(a)
  }

  /** What the poll is told of a recovered open: acknowledge it, try it again, or that it failed, for good if its
      configuration is wrong, with the reason at the attempt's row. */
  predicate Answers(p: Processed, a: Key, r: Option<Raised>) {
    && (ShouldAck(p.outcome) <==> r.None?) && (p.outcome.deferred <==> EndOf(r) == Skipped)
    && (p.outcome.terminalFailed <==> r.Some? && r.value.PermanentConfiguration?)
    && (r.Some? ==>
          p.outcome.error == Some(CodeOf(r.value)) && a in p.work.store.rows &&
          p.work.store.rows[a].error == Some(CodeOf(r.value)))
  }

  lemma AttemptConcludes(w: Work, e: Event, a: Key, r: Option<Raised>)
    requires AttemptOk(w.store.rows, RowKey(e), a) && w.store.rows[a].recoveryOf.Some?
    ensures var rows := ConcludeRecovery(w, e, a, r).work.store.rows;
            Is(rows, a, EndOf(r)) && (EndOf(r) == Skipped ==> TakenUp(ConcludeRecovery(w, e, a, r).work.store, a)) &&
            (r.None? && RowKey(e) in w.store.rows ==> ResolvedBy(w.store.rows, rows, RowKey(e), a)) &&
            Answers(ConcludeRecovery(w, e, a, r), a, r)
  {
  }

  lemma ProcessRecovers(w: Work, env: Env, e: Event, a: Key)
    requires e.kind.Open? && ActiveContext(w, RowKey(e)) == Some(a)
    ensures var step := HandleOpen(Reactivated(w.store, a), env, e);
            Process(w, env, e) == ConcludeRecovery(Remembered(w, RowKey(e)).(store := step.store), e, a, step.raised)
  {
    hide HandleOpen;
    hide Reactivated;
    hide ActiveContext;
    hide Remembered;
    hide ConcludeRecovery;
  }

  /** Processing a daily open ends its active attempt: completed, with the original resolved, if nothing is
      raised; set aside to be taken up again if the open is not due or not ready; failed otherwise. */
  lemma {:induction false} ActiveAttemptEnds(w: Work, env: Env, e: Event, a: Key)
    requires Good(w) && e.kind.Open? && ActiveContext(w, RowKey(e)) == Some(a)
    ensures var raised := HandleOpen(Reactivated(w.store, a), env, e).raised;
            var rows := Process(w, env, e).work.store.rows;
            Is(rows, a, EndOf(raised)) && (EndOf(raised) == Skipped ==> TakenUp(Process(w, env, e).work.store, a)) &&
            Answers(Process(w, env, e), a, raised) &&
            (raised.None? && RowKey(e) in w.store.rows ==> IsResolved(rows, RowKey(e)))
  {
    hide TakenUp;
    hide Answers;
    var k := RowKey(e);
    ActiveIsAttempt(w, k);
    RecoverOpen(w, env, e, a);
    var started := Reactivated(w.store, a);
    var step := HandleOpen(started, env, e);
    assert k in w.store.rows ==> k in step.store.rows;
    assert step.store.rows[a].recoveryOf.Some? by { assert RowOk(step.store, a); }
    ProcessRecovers(w, env, e, a);
    AttemptConcludes(Remembered(w, k).(store := step.store), e, a, step.raised);
    hide Good;
    hide Leaves;
    hide Sound;
    hide AllTied;
    hide HandleOpen;
    hide Reactivated;
    hide ActiveContext;
    hide OpenComplete;
    hide Process;
    hide ConcludeRecovery;
    hide EndOf;
    hide Remembered;
  }

  /** Of the events at its row, a running attempt that is the active one is ended by a daily open and by
      nothing else. */
  lemma {:induction false} AttemptEndsIffOpen(w: Work, env: Env, e: Event, a: Key)
    requires Good(w) && ActiveContext(w, RowKey(e)) == Some(a) && Is(w.store.rows, a, Running)
    ensures !Is(Process(w, env, e).work.store.rows, a, Running) <==> e.kind.Open?
  {
    ActiveIsAttempt(w, RowKey(e));
    if e.kind.Open? {
      ActiveAttemptEnds(w, env, e, a);
    } else {
      EventAdvances(w, env, e);
    }
    hide Good;
    hide Process;
    hide HandleOpen;
    hide ActiveContext;
  }

  /* ---------- what one poll does to it ---------- */

  lemma ConcludedElsewhere(w: Work, e: Event, b: Key, r: Option<Raised>, a: Key)
    requires b in w.store.rows && a.job.Attempt? && a != b
    ensures var t := ConcludeRecovery(w, e, b, r).work.store;
            (a in w.store.rows <==> a in t.rows) && (a in w.store.rows ==> t.rows[a] == w.store.rows[a])
  {
  }

  lemma RecoveryLeavesOthers(w: Work, env: Env, e: Event, b: Key, a: Key)
    requires Good(w) && e.kind.Open? && a.job.Attempt? && a in w.store.rows && a != b && ActiveContext(w, RowKey(e)) == Some(b)
    ensures var rows := Process(w, env, e).work.store.rows; a in rows && rows[a] == w.store.rows[a]
  {
    var k := RowKey(e);
    PhasesAreNoAttempts(e.symbol, e.at);
    ActiveIsAttempt(w, k);
    RecoverOpen(w, env, e, b);
    var started := Reactivated(w.store, b);
    var step := HandleOpen(started, env, e);
    assert a in started.rows && started.rows[a] == w.store.rows[a];
    UntouchedBy(started, step.store, OpenRows(e.symbol, e.at), a);
    ProcessRecovers(w, env, e, b);
    ConcludedElsewhere(Remembered(w, k).(store := step.store), e, b, step.raised, a);
    hide Good;
    hide Sound;
    hide AllTied;
    hide HandleOpen;
    hide Reactivated;
    hide ActiveContext;
    hide ConcludeRecovery;
    hide Process;
    hide Keeps;
    hide Settles;
    hide Only;
    hide OpenRows;
    hide OpenComplete;
  }

  lemma ProcessWithoutAttempt(w: Work, env: Env, e: Event)
    requires e.kind.Open? && ActiveContext(w, RowKey(e)).None?
    ensures var step := HandleOpen(Ensured(w.store, RowKey(e)), env, e);
            var t := Process(w, env, e).work.store;
            t == w.store || t == ParentCompleted(w.store, RowKey(e)) ||
            t == ConcludeOpen(w.(store := step.store), e, step.raised).work.store
  {
    hide HandleOpen;
    hide ConcludeOpen;
    hide ActiveContext;
    hide OpenComplete;
    hide PermanentlyFailed;
    hide ParentCompleted;
    hide Ensured;
  }

  lemma FreshLeavesAttempts(w: Work, env: Env, e: Event, a: Key)
    requires Good(w) && e.kind.Open? && a.job.Attempt? && a in w.store.rows && ActiveContext(w, RowKey(e)).None?
    ensures var rows := Process(w, env, e).work.store.rows; a in rows && rows[a] == w.store.rows[a]
  {
    var ensured := Ensured(w.store, RowKey(e));
    EnsuredKeeps(w.store, RowKey(e));
    PhasesAreNoAttempts(e.symbol, e.at);
    HandleOpenKeeps(ensured, env, e);
    var step := HandleOpen(ensured, env, e);
    assert a in ensured.rows && ensured.rows[a] == w.store.rows[a] &&
           a in ParentCompleted(w.store, RowKey(e)).rows && ParentCompleted(w.store, RowKey(e)).rows[a] == w.store.rows[a];
    UntouchedBy(ensured, step.store, OpenRows(e.symbol, e.at), a);
    ConcludedOpenElsewhere(w.(store := step.store), e, step.raised, a);
    ProcessWithoutAttempt(w, env, e);
    hide Good;
    hide Sound;
    hide AllTied;
    hide HandleOpen;
    hide ActiveContext;
    hide ConcludeOpen;
    hide Keeps;
    hide Settles;
    hide Only;
    hide OpenRows;
    hide PhaseFailed;
    hide OpenComplete;
    hide Process;
  }

  /** A daily open leaves alone every attempt but its active one. */
  lemma {:induction false} OtherAttemptsWait(w: Work, env: Env, e: Event, a: Key)
    requires Good(w) && e.kind.Open? && a.job.Attempt? && a in w.store.rows && ActiveContext(w, RowKey(e)) != Some(a)
    ensures var rows := Process(w, env, e).work.store.rows; a in rows && rows[a] == w.store.rows[a]
  {
    hide Process;
    hide ActiveContext;
    hide Good;
    if ActiveContext(w, RowKey(e)).Some? {
      RecoveryLeavesOthers(w, env, e, ActiveContext(w, RowKey(e)).value, a);
    } else {
      FreshLeavesAttempts(w, env, e, a);
    }
  }

  lemma UntouchedBy(s: Store, t: Store, keys: set<Key>, a: Key)
    requires Only(s, t, keys) && NoAttempts(keys) && a.job.Attempt? && a in s.rows
    ensures a in t.rows && t.rows[a] == s.rows[a]
  {
  }

  lemma ConcludedOpenElsewhere(w: Work, e: Event, r: Option<Raised>, a: Key)
    requires e.kind.Open? && RowKey(e) in w.store.rows && PhaseFailed(Step(w.store, r), e.symbol, e.at)
    requires a.job.Attempt? && a in w.store.rows
    ensures var t := ConcludeOpen(w, e, r).work.store; a in t.rows && t.rows[a] == w.store.rows[a]
  {
  }

  /** What one event does to a running attempt at its row. */
  lemma {:induction false} EventEndsIff(w: Work, env: Env, e: Event, a: Key)
    requires Good(w) && Is(w.store.rows, a, Running) && a.job.Attempt? && Key(a.job.of, a.at) == RowKey(e)
    ensures !Is(Process(w, env, e).work.store.rows, a, Running) <==> e.kind.Open? && ActiveContext(w, RowKey(e)) == Some(a)
  {
    if !e.kind.Open? {
      EventAdvances(w, env, e);
    } else if ActiveContext(w, RowKey(e)) == Some(a) {
      AttemptEndsIffOpen(w, env, e, a);
    } else {
      OtherAttemptsWait(w, env, e, a);
    }
    hide Good;
    hide Process;
    hide ActiveContext;
  }

  lemma SameRun(s: Store, t: Store, k: Key, a: Key)
    requires SameAt(s, t, k) && a.job.Attempt? && Key(a.job.of, a.at) == k
    ensures Is(t.rows, a, Running) <==> Is(s.rows, a, Running)
  {
    assert Belongs(a, k);
  }

  /** What a poll with one event a row does to a running attempt: it ends exactly if the attempt is the active one of a
      daily open, seen before the poll, and the poll gets to that open. An older attempt waits for the newer ones. */
  lemma {:induction false} PollEndsIff(w: Work, items: seq<(Event, Env)>, a: Key)
    requires Good(w) && Apart(items) && Is(w.store.rows, a, Running) && a.job.Attempt? && IsEventJob(a.job.of)
    ensures var k := Key(a.job.of, a.at);
            !Is(ProcessAll(w, items).work.store.rows, a, Running) <==>
            k.job.OpenParent? && ActiveContext(w, k) == Some(a) && exists i :: 0 <= i < |items| && RowKey(items[i].0) == k
  {
    hide Good;
    hide Process;
    hide ActiveContext;
    hide SameAt;
    hide Sound;
    var k := Key(a.job.of, a.at);
    assert ProcessAll(w, []).work == w && items[..0] == [];
    if i :| 0 <= i < |items| && RowKey(items[i].0) == k {
      var before, after := ProcessAll(w, items[..i]).work, ProcessAll(w, items[..i + 1]).work;
      forall j | 0 <= j < i ensures RowKey(items[..i][j].0) != k {
        assert items[..i][j] == items[j];
      }
      assert items[..i][..0] == [];
      PollFrame(w, items[..i], 0, k);
      GoodIsSound(w);
      GoodIsSound(before);
      ContextSame(w, before, k);
      SameRun(w.store, before.store, k, a);
      EventEndsIff(before, items[i].1, items[i].0, a);
      assert items[..i + 1][..i] == items[..i];
      assert after == Process(before, items[i].1, items[i].0).work;
      PollFrame(w, items, i + 1, k);
      SameRun(after.store, ProcessAll(w, items).work.store, k, a);
    } else {
      PollFrame(w, items, 0, k);
      SameRun(w.store, ProcessAll(w, items).work.store, k, a);
    }
  }

  lemma GoodIsSound(w: Work)
    requires Good(w)
    ensures Sound(w.store)
  {
  }

  /* ---------- what polls can do to it ---------- */

  function ActiveOnes(rows: map<Key, Run>, k: Key): set<Key> { set x | x in rows && IsActive(rows, k, x) }

  /** A symbol's configuration that stays broken. */
  predicate Breaks(env: Env) { env.candle && env.context.Broken? }

  lemma NumberedIsActive(s: Store, k: Key, n: nat, a: Key)
    requires IsActive(s.rows, k, a) && a in Numbered(k, n)
    ensures LatestActive(s.rows, k, n).Some?
  {
    NumberedMembers(k, n, a);
    if a != Key(Attempt(k.job, n), k.at) {
      NumberedMembers(k, n - 1, a);
      NumberedIsActive(s, k, n - 1, a);
    }
  }

  lemma SomeIsActive(w: Work, k: Key, a: Key)
    requires AttemptsNumbered(w.store) && IsActive(w.store.rows, k, a) && k in w.store.rows
    ensures ActiveContext(w, k).Some?
    ensures k !in w.pending ==> IsActive(w.store.rows, k, ActiveContext(w, k).value)
  {
    assert a in Attempts(w.store.rows, k);
    assert Attempts(w.store.rows, k) == Numbered(k, |Attempts(w.store.rows, k)|);
    NumberedIsActive(w.store, k, |Attempts(w.store.rows, k)|, a);
    LatestIsActive(w.store.rows, k, |Attempts(w.store.rows, k)|);
  }

  /** One failing open takes its attempt off the list of active ones. */
  lemma FailingOpen(w: Work, env: Env, e: Event, a: Key)
    requires Good(w) && AttemptsNumbered(w.store) && e.kind.Open? && Breaks(env)
    requires IsActive(w.store.rows, RowKey(e), a) && RowKey(e) in w.store.rows
    ensures var k := RowKey(e); var v := Process(w, env, e).work;
            k !in v.pending && ActiveOnes(v.store.rows, k) <= ActiveOnes(w.store.rows, k) &&
            (k !in w.pending ==> ActiveOnes(v.store.rows, k) < ActiveOnes(w.store.rows, k))
  {
    var k := RowKey(e);
    SomeIsActive(w, k, a);
    var b := ActiveContext(w, k).value;
    ActiveIsAttempt(w, k);
    assert RowOk(w.store, b);
    var v := Process(w, env, e).work;
    assert v.store == Finished(Reactivated(w.store, b), b, Failed, Some(CodeOf(Unexpected(env.context.message))));
    assert b !in ActiveOnes(v.store.rows, k);
    assert forall x :: x in v.store.rows && x != b ==> x in w.store.rows && v.store.rows[x] == w.store.rows[x];
    if k !in w.pending {
      assert b in ActiveOnes(w.store.rows, k);
    }
  }

  lemma Fewer(s: set<Key>, t: set<Key>)
    ensures s <= t ==> |s| <= |t|
    ensures s < t ==> |s| < |t|
  {
    if s <= t {
      assert t == s + (t - s);
    }
  }

  lemma StillActive(w: Work, v: Work, k: Key, a: Key)
    requires Advances(w, v) && AttemptsNumbered(w.store) && Good(w) && RowsFit(v.store)
    requires AttemptOk(w.store.rows, k, a) && Is(v.store.rows, a, Running)
    ensures AttemptsNumbered(v.store) && IsActive(v.store.rows, k, a) && k in v.store.rows
  {
    SameAttemptSets(w.store, v.store);
    assert RowOk(v.store, a) && RowFits(v.store.rows, a);
  }

  /** Some latest candles make the detector report the event. */
  ghost predicate Offered(trackers: map<string, Tracker>, e: Event) {
    exists latest: Latest, time: Time, delay: nat :: e in DetectSymbol(TrackerOf(trackers, e.symbol), latest, e.symbol, time, delay)
  }

  /** A daily open is offered exactly until it is acknowledged or given up on. */
  lemma {:induction false} OfferedIff(trackers: map<string, Tracker>, e: Event)
    requires e.kind.Open?
    ensures Offered(trackers, e) <==>
            TrackerOf(trackers, e.symbol).openAck != Some(e.at) && TrackerOf(trackers, e.symbol).openFailed != Some(e.at)
  {
    var t := TrackerOf(trackers, e.symbol);
    var c := Seen(e.at, e.at, e.low, false);
    var latest: Latest := (s: string, tf: Timeframe) => if tf == Daily then Some(c) else None;
    if t.openAck != Some(e.at) && t.openFailed != Some(e.at) {
      assert DetectOpen(t, c, e.symbol) == [e];
      assert e in DetectSymbol(t, latest, e.symbol, 0, 0);
    }
  }

  /** Polls of one event each, at row `k`, that the detector offers at its turn. */
  ghost predicate OwnPolls(y: System, later: seq<Move>, k: Key) {
    forall i :: 0 <= i < |later| ==>
      later[i].Commit? && |later[i].items| == 1 && RowKey(later[i].items[0].0) == k &&
      Offered(After(y, later[..i]).trackers, later[i].items[0].0)
  }

  lemma {:induction false} AfterFront(y: System, m: Move, later: seq<Move>)
    ensures After(y, [m] + later) == After(Apply(y, m), later)
    ensures Enabled(y, m) && Possible(Apply(y, m), later) ==> Possible(y, [m] + later)
  {
    hide Apply;
    hide Enabled;
    var all := [m] + later;
    if later == [] {
      assert all[..0] == [] && all == [m];
      assert After(y, []) == y && Possible(y, []);
    } else {
      AfterFront(y, m, later[..|later| - 1]);
      assert all[..|all| - 1] == [m] + later[..|later| - 1] && all[|all| - 1] == later[|later| - 1];
    }
  }

  lemma {:induction false} OwnPollsFront(y: System, m: Move, later: seq<Move>, k: Key)
    requires m.Commit? && |m.items| == 1 && RowKey(m.items[0].0) == k && Offered(y.trackers, m.items[0].0)
    requires OwnPolls(Apply(y, m), later, k)
    ensures OwnPolls(y, [m] + later, k)
  {
    hide Offered;
    hide Apply;
    var all := [m] + later;
    forall i | 0 <= i < |all|
      ensures all[i].Commit? && |all[i].items| == 1 && RowKey(all[i].items[0].0) == k &&
              Offered(After(y, all[..i]).trackers, all[i].items[0].0)
    {
      if i == 0 {
        assert all[..0] == [] && After(y, []) == y;
      } else {
        assert all[..i] == [m] + later[..i - 1] && all[i] == later[i - 1];
        AfterFront(y, m, later[..i - 1]);
      }
    }
  }

  lemma OneEventPoll(y: System, env: Env, e: Event)
    ensures var p := Process(Work(y.committed, y.pending), env, e);
            Apply(y, Commit([(e, env)])) == System(p.work.store, p.work.pending, Settled(y.trackers, [p.outcome]))
  {
    hide Process;
    hide Settled;
    var w := Work(y.committed, y.pending);
    var items := [(e, env)];
    assert items[..0] == [] && ProcessAll(w, []) == Batch(w, []);
    assert ProcessAll(w, items) == Batch(Process(w, env, e).work, [Process(w, env, e).outcome]);
  }

  lemma NothingToTrack(trackers: map<string, Tracker>, o: Outcome)
    requires !ShouldAck(o) && !o.terminalFailed
    ensures Settled(trackers, [o]) == trackers
  {
    assert [o][..0] == [] && ToAck([o]) == [] && ToGiveUp([o]) == [];
  }

  /** A poll of one failing open changes no tracker. */
  lemma FailingPoll(y: System, env: Env, e: Event)
    requires e.kind.Open? && Breaks(env) && ActiveContext(Work(y.committed, y.pending), RowKey(e)).Some?
    requires Good(Work(y.committed, y.pending))
    ensures var p := Process(Work(y.committed, y.pending), env, e);
            Apply(y, Commit([(e, env)])) == System(p.work.store, p.work.pending, y.trackers)
  {
    hide Process;
    hide Settled;
    hide Apply;
    hide Good;
    hide ActiveContext;
    OneEventPoll(y, env, e);
    FailingOutcome(Work(y.committed, y.pending), env, e);
    NothingToTrack(y.trackers, Process(Work(y.committed, y.pending), env, e).outcome);
  }

  lemma FailingOutcome(w: Work, env: Env, e: Event)
    requires Good(w) && e.kind.Open? && Breaks(env) && ActiveContext(w, RowKey(e)).Some?
    ensures !ShouldAck(Process(w, env, e).outcome) && !Process(w, env, e).outcome.terminalFailed
  {
    hide ActiveContext;
    hide Reactivated;
  }

  /** How much is left to end before `a`: the active attempts, and a memory. */
  function Ahead(w: Work, k: Key): nat { 2 * |ActiveOnes(w.store.rows, k)| + if k in w.pending then 1 else 0 }

  lemma {:induction false} EndingPolls(y: System, env: Env, e: Event, a: Key) returns (later: seq<Move>)
    requires Safe(y) && RowsFit(y.committed) && e.kind.Open? && Breaks(env) && Offered(y.trackers, e)
    requires a.job.Attempt? && Key(a.job.of, a.at) == RowKey(e) && Is(y.committed.rows, a, Running)
    ensures Possible(y, later) && OwnPolls(y, later, RowKey(e)) && !Is(After(y, later).committed.rows, a, Running)
    decreases Ahead(Work(y.committed, y.pending), RowKey(e))
  {
    hide Possible;
    hide OwnPolls;
    hide Offered;
    hide RowsFit;
    hide AcksHold;
    var w, k, m := Work(y.committed, y.pending), RowKey(e), Commit([(e, env)]);
    var z := Apply(y, m);
    assert IsActive(w.store.rows, k, a) && k in w.store.rows by {
      assert RowOk(y.committed, a) && RowFits(y.committed.rows, a) by { FitsRow(y.committed, a); }
    }
    SomeIsActive(w, k, a);
    FailingPoll(y, env, e);
    CommitSafe(y, m.items);
    BatchFits(w, m.items);
    if Is(z.committed.rows, a, Running) {
      FailingOpen(w, env, e, a);
      Fewer(ActiveOnes(z.committed.rows, k), ActiveOnes(w.store.rows, k));
      hide Apply;
      var rest := EndingPolls(z, env, e, a);
      later := [m] + rest;
      AfterFront(y, m, rest);
      OwnPollsFront(y, m, rest, k);
    } else {
      later := [m] + [];
      AfterFront(y, m, []);
      NoMoves(z, k);
      OwnPollsFront(y, m, [], k);
    }
  }

  lemma FitsRow(s: Store, a: Key)
    requires RowsFit(s) && a in s.rows
    ensures RowFits(s.rows, a)
  {
  }

  lemma NoMoves(z: System, k: Key)
    ensures Possible(z, []) && After(z, []) == z && OwnPolls(z, [], k)
  {
  }

  /** When the polls of its own event that a detector yields, one event each, can end a running attempt of a reachable
      store: exactly if it is at a daily open that its tracker has neither acknowledged nor given up on. */
  lemma {:induction false} EndsByOwnPollsIff(moves: seq<Move>, a: Key)
    requires Possible(Start(), moves) && Is(After(Start(), moves).committed.rows, a, Running)
    ensures a.job.Attempt?
    ensures var y, k := After(Start(), moves), Key(a.job.of, a.at);
            (exists later :: Possible(y, later) && OwnPolls(y, later, k) && !Is(After(y, later).committed.rows, a, Running)) <==>
            k.job.OpenParent? && TrackerOf(y.trackers, k.job.symbol).openAck != Some(k.at) &&
            TrackerOf(y.trackers, k.job.symbol).openFailed != Some(k.at)
  {
    var y := After(Start(), moves);
    StartSafe();
    HistorySafe(Start(), moves);
    HistoryFits(moves);
    FitsRow(y.committed, a);
    var k := Key(a.job.of, a.at);
    hide Safe;
    hide RowsFit;
    hide After;
    hide Possible;
    hide Offered;
    if k.job.OpenParent? {
      var e := Event(Open, k.job.symbol, k.at, 0.0);
      OfferedIff(y.trackers, e);
      if Offered(y.trackers, e) {
        var later := EndingPolls(y, Env(true, Broken(""), true, true, true, true, j => None), e, a);
        assert Possible(y, later) && OwnPolls(y, later, k) && !Is(After(y, later).committed.rows, a, Running);
      }
    }
    forall later | Possible(y, later) && OwnPolls(y, later, k) && !Is(After(y, later).committed.rows, a, Running)
      ensures k.job.OpenParent? && Offered(y.trackers, Event(Open, k.job.symbol, k.at, 0.0))
    {
      OwnPollsNeeded(moves, later, a);
    }
  }

  lemma OfferedAtRow(trackers: map<string, Tracker>, e: Event, k: Key)
    requires k.job.OpenParent? && RowKey(e) == k && Offered(trackers, e)
    ensures Offered(trackers, Event(Open, k.job.symbol, k.at, 0.0))
  {
    hide Offered;
    OfferedIff(trackers, e);
    OfferedIff(trackers, Event(Open, k.job.symbol, k.at, 0.0));
  }

  lemma CloseRunsOn(moves: seq<Move>, later: seq<Move>, a: Key)
    requires Possible(Start(), moves) && Is(After(Start(), moves).committed.rows, a, Running) && a.job.Attempt?
    requires Possible(After(Start(), moves), later) && Restart(true) !in later && !a.job.of.OpenParent?
    ensures Is(After(After(Start(), moves), later).committed.rows, a, Running)
  {
    hide Possible;
    hide After;
    CloseAttemptNeverEnds(moves, later, a);
  }

  lemma {:induction false} OwnPollsNeeded(moves: seq<Move>, later: seq<Move>, a: Key)
    requires Possible(Start(), moves) && Is(After(Start(), moves).committed.rows, a, Running) && a.job.Attempt?
    requires var y, k := After(Start(), moves), Key(a.job.of, a.at);
             Possible(y, later) && OwnPolls(y, later, k) && !Is(After(y, later).committed.rows, a, Running)
    ensures var y, k := After(Start(), moves), Key(a.job.of, a.at);
            k.job.OpenParent? && Offered(y.trackers, Event(Open, k.job.symbol, k.at, 0.0))
  {
    var y, k := After(Start(), moves), Key(a.job.of, a.at);
    hide Offered;
    hide OwnPolls;
    hide Possible;
    hide After;
    hide RowKey;
    AfterNone(y, later);
    OwnPollsAreCommits(y, later, k);
    if !k.job.OpenParent? {
      CloseRunsOn(moves, later, a);
    } else {
      var e := FirstOffered(y, later, k);
      OfferedAtRow(y.trackers, e, k);
    }
  }

  lemma AfterNone(y: System, later: seq<Move>)
    ensures later == [] ==> After(y, later) == y
  {
  }

  lemma OwnPollsAreCommits(y: System, later: seq<Move>, k: Key)
    requires OwnPolls(y, later, k)
    ensures Restart(true) !in later
  {
  }

  lemma FirstOffered(y: System, later: seq<Move>, k: Key) returns (e: Event)
    requires OwnPolls(y, later, k) && later != []
    ensures RowKey(e) == k && Offered(y.trackers, e)
  {
    hide Offered;
    e := later[0].items[0].0;
    assert later[..0] == [];
    AfterNone(y, []);
  }

  /* ---------- an attempt at a daily close, as it happens ---------- */

  /** An instance: a daily close whose symbol is misconfigured fails, the operator's recovery of it is accepted, and
      its attempt is left running by every later history without a failing restart. */
  lemma {:induction false} CloseAttemptStaysRunning(symbol: Sym, at: Time, later: seq<Move>)
    ensures var e := Event(DayClose, symbol, at, 0.0);
            var env := Env(true, Misconfigured("PERMANENT_CONFIGURATION_FAILURE"), true, true, true, true, j => None);
            var moves := [Commit([(e, env)]), Recover(e)];
            var a := Key(Attempt(DayClosed(symbol), 1), at);
            Possible(Start(), moves) && Is(After(Start(), moves).committed.rows, a, Running) &&
            (Possible(After(Start(), moves), later) && Restart(true) !in later ==>
             Is(After(After(Start(), moves), later).committed.rows, a, Running))
  {
    var e := Event(DayClose, symbol, at, 0.0);
    var env := Env(true, Misconfigured("PERMANENT_CONFIGURATION_FAILURE"), true, true, true, true, j => None);
    var moves := [Commit([(e, env)]), Recover(e)];
    var a := Key(Attempt(DayClosed(symbol), 1), at);
    CloseFails(e, env);
    assert moves[..1] == [Commit([(e, env)])] && moves[..1][..0] == [];
    assert After(Start(), []) == Start() && After(Start(), moves[..1]) == Apply(Start(), Commit([(e, env)]));
    assert Possible(Start(), moves[..1]);
    if Possible(After(Start(), moves), later) && Restart(true) !in later {
      CloseAttemptNeverEnds(moves, later, a);
    }
    hide ProcessAll;
    hide Settled;
  }

  lemma CloseFails(e: Event, env: Env)
    requires e.kind.DayClose? && env.candle && env.evaluationDue
    requires env.context.Misconfigured? && env.context.code in PERMANENT_CODES
    ensures var y := Apply(Start(), Commit([(e, env)]));
            Recoverable(y.committed, e) && NextAttempt(y.committed, RowKey(e)) == Key(Attempt(RowKey(e).job, 1), e.at) &&
            NextAttempt(y.committed, RowKey(e)) !in y.committed.rows
  {
    var w := Work(Store(map[], []), map[]);
    assert [(e, env)][..0] == [];
    assert ProcessAll(w, []).work == w;
    var s := ProcessAll(w, [(e, env)]).work.store;
    assert s == Process(w, env, e).work.store;
    assert s.rows == map[RowKey(e) := Run(Failed, Some(env.context.code), None, None)];
    assert Attempts(s.rows, RowKey(e)) == {};
  }

  /* ---------- two attempts at one daily open ---------- */

  lemma OpenFails(e: Event, env: Env)
    requires e.kind.Open? && env.candle && env.context.Misconfigured? && env.context.code in PERMANENT_CODES
    ensures Apply(Start(), Commit([(e, env)])).committed.rows == map[RowKey(e) := Run(Failed, Some(env.context.code), None, None)]
  {
    var w := Work(Store(map[], []), map[]);
    OneEventPoll(Start(), env, e);
    assert Start().committed == w.store && Start().pending == w.pending;
    hide Apply;
    hide Settled;
  }

  /** Nothing keeps an operator from recovering one failed open twice. */
  lemma RecoveredTwice(y: System, e: Event)
    requires Recoverable(y.committed, e) && !RowKey(e).job.Attempt? && y.committed.rows.Keys == {RowKey(e)}
    requires y.committed.rows[RowKey(e)].recoveryOf.None?
    ensures var z := Apply(Apply(y, Recover(e)), Recover(e));
            var first, second := Key(Attempt(RowKey(e).job, 1), e.at), Key(Attempt(RowKey(e).job, 2), e.at);
            Enabled(y, Recover(e)) && Enabled(Apply(y, Recover(e)), Recover(e)) &&
            Is(z.committed.rows, first, Running) && Is(z.committed.rows, second, Running) &&
            ActiveContext(Work(z.committed, z.pending), RowKey(e)) == Some(second)
  {
    var k := RowKey(e);
    var first := Key(Attempt(k.job, 1), e.at);
    assert Attempts(y.committed.rows, k) <= {};
    assert NextAttempt(y.committed, k) == first;
    var z := Apply(y, Recover(e));
    assert Attempts(z.committed.rows, k) == {first};
  }

  /** An instance: a failed open recovered twice. A poll of that open, in any circumstances, ends the second attempt and
      leaves the first one running. */
  lemma {:induction false} OlderAttemptWaits(symbol: Sym, at: Time, env: Env)
    ensures var e := Event(Open, symbol, at, 0.0);
            var broken := Env(true, Misconfigured("PERMANENT_CONFIGURATION_FAILURE"), true, true, true, true, j => None);
            var moves := [Commit([(e, broken)]), Recover(e), Recover(e)];
            var rows := Apply(After(Start(), moves), Commit([(e, env)])).committed.rows;
            Possible(Start(), moves) &&
            Is(rows, Key(Attempt(OpenParent(symbol), 1), at), Running) &&
            !Is(rows, Key(Attempt(OpenParent(symbol), 2), at), Running)
  {
    var e := Event(Open, symbol, at, 0.0);
    var broken := Env(true, Misconfigured("PERMANENT_CONFIGURATION_FAILURE"), true, true, true, true, j => None);
    var fail := Commit([(e, broken)]);
    var moves := [fail, Recover(e), Recover(e)];
    var first, second := Key(Attempt(OpenParent(symbol), 1), at), Key(Attempt(OpenParent(symbol), 2), at);
    OpenFails(e, broken);
    RecoveredTwice(Apply(Start(), fail), e);
    ThreeMoves(Start(), fail, Recover(e), Recover(e));
    StartSafe();
    HistorySafe(Start(), moves);
    var y := After(Start(), moves);
    var w := Work(y.committed, y.pending);
    hide Apply;
    hide Possible;
    hide After;
    hide ActiveContext;
    PollEndsIff(w, [(e, env)], first);
    PollEndsIff(w, [(e, env)], second);
    assert RowKey([(e, env)][0].0) == RowKey(e);
    CommitIsBatch(y, [(e, env)]);
  }

  lemma CommitIsBatch(y: System, items: seq<(Event, Env)>)
    ensures Apply(y, Commit(items)).committed == ProcessAll(Work(y.committed, y.pending), items).work.store
  {
  }

  lemma ThreeMoves(y: System, a: Move, b: Move, c: Move)
    ensures After(y, [a, b, c]) == Apply(Apply(Apply(y, a), b), c)
    ensures Enabled(y, a) && Enabled(Apply(y, a), b) && Enabled(Apply(Apply(y, a), b), c) ==> Possible(y, [a, b, c])
  {
    hide Apply;
    hide Enabled;
    assert [a, b, c][..2] == [a, b] && [a, b][..1] == [a] && [a][..0] == [];
    assert After(y, []) == y && Possible(y, []);
    assert After(y, [a]) == Apply(y, a);
    assert After(y, [a, b]) == Apply(Apply(y, a), b);
    if Enabled(y, a) && Enabled(Apply(y, a), b) && Enabled(Apply(Apply(y, a), b), c) {
      assert Possible(y, [a]);
      assert Possible(y, [a, b]);
    }
  }
}
