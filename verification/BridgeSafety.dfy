/** What processing events keeps: completed rows stay completed, a completed daily open has all its phases,
    every handler success is recorded once per key, and nothing is left running. */
module BridgeSafety {
  import opened Common
  import opened Timeframes
  import opened Scheduler
  import opened Bridge

  predicate IsSchedulerJob(j: Job) {
    j.StopTrigger? || j.FillProcessing? || j.PortfolioSnapshot? || j.IntradayStop? || j.SignalEvaluation? || j.StopUpdate?
  }

  predicate IsPhase(j: Job) { j.OpenParent? || j.OpenGap? || j.OpenFill? || j.OpenSnap? }

  /** Jobs whose completion says nothing about other rows. */
  predicate IsPlain(j: Job) { !IsSchedulerJob(j) && !IsPhase(j) }

  predicate IsResolved(rows: map<Key, Run>, k: Key) { k in rows && rows[k].resolvedBy.Some? }

  function ParentKey(s: Sym, t: Time): Key { Key(OpenParent(s), t) }

  /** The rows of one symbol's daily open: a completed or resolved parent has all phases completed, phases
      complete in order, and a completed phase has its scheduler job completed for that time. */
  predicate OpenOk(rows: map<Key, Run>, s: Sym, t: Time) {
    && (Is(rows, ParentKey(s, t), Completed) || IsResolved(rows, ParentKey(s, t)) ==> OpenComplete(rows, s, t))
    && (Is(rows, SnapKey(s, t), Completed) ==>
          Is(rows, FillKey(s, t), Completed) && Is(rows, Key(PortfolioSnapshot, t), Completed))
    && (Is(rows, FillKey(s, t), Completed) ==> Is(rows, GapKey(s, t), Completed) && Is(rows, Key(FillProcessing, t), Completed))
    && (Is(rows, GapKey(s, t), Completed) ==> Is(rows, Key(StopTrigger, t), Completed))
  }

  /** Fill and snapshot complete together. */
  predicate Tied(rows: map<Key, Run>, s: Sym, t: Time) {
    Is(rows, FillKey(s, t), Completed) ==> Is(rows, SnapKey(s, t), Completed)
  }

  /** A row's link to the row it recovers, and its handler successes: one if it is a completed scheduler job, else none. */
  ghost predicate RowOk(s: Store, k: Key) {
    && (k in s.rows ==> s.rows[k].recoveryOf == if k.job.Attempt? then Some(Key(k.job.of, k.at)) else None)
    && multiset(s.done)[k] == if IsSchedulerJob(k.job) && Is(s.rows, k, Completed) then 1 else 0
  }

  ghost predicate Sound(s: Store) {
    (forall sym, t :: OpenOk(s.rows, sym, t)) && (forall k :: RowOk(s, k))
  }

  ghost predicate AllTied(s: Store) { forall sym, t :: Tied(s.rows, sym, t) }

  /** Completed rows stay completed, handler successes are only added, and no row is left running that was not. */
  ghost predicate Keeps(s: Store, t: Store) {
    && (forall k :: Is(s.rows, k, Completed) ==> Is(t.rows, k, Completed))
    && s.done <= t.done
  }

  ghost predicate Settles(s: Store, t: Store) { forall k :: Is(t.rows, k, Running) ==> Is(s.rows, k, Running) }

  /** Every remembered attempt is a row of the original that has not completed. */
  ghost predicate PendingOk(w: Work) {
    forall k :: k in w.pending ==> AttemptOk(w.store.rows, k, w.pending[k])
  }

  predicate AttemptOk(rows: map<Key, Run>, k: Key, a: Key) {
    a.job.Attempt? && Key(a.job.of, a.at) == k && a in rows && rows[a].status != Completed
  }

  ghost predicate Good(w: Work) { Sound(w.store) && AllTied(w.store) && PendingOk(w) }

  /* ---------- changing one row ---------- */

  /** A row that was not completed, and does not become completed, may change status and error. */
  predicate Harmless(s: Store, t: Store, k: Key) {
    && t.done == s.done && k in t.rows && t.rows == s.rows[k := t.rows[k]]
    && !Is(s.rows, k, Completed)
    && t.rows[k].recoveryOf == (if k.job.Attempt? then Some(Key(k.job.of, k.at)) else None)
    && (IsResolved(t.rows, k) ==> IsResolved(s.rows, k))
  }

  lemma HarmlessKeeps(s: Store, t: Store, k: Key)
    requires Harmless(s, t, k)
    ensures Keeps(s, t)
  {
  }

  lemma ChangeRow(s: Store, t: Store, k: Key)
    requires Sound(s) && Harmless(s, t, k) && !Is(t.rows, k, Completed)
    ensures Sound(t) && (AllTied(s) ==> AllTied(t))
  {
    forall x ensures RowOk(t, x) {
      assert RowOk(s, x);
    }
    forall sym, tm ensures OpenOk(t.rows, sym, tm) {
      assert OpenOk(s.rows, sym, tm);
    }
    if AllTied(s) {
      forall sym, tm ensures Tied(t.rows, sym, tm) {
        assert Tied(s.rows, sym, tm);
      }
    }
  }

  /** Completing a row whose completion says nothing about other rows. */
  lemma CompletePlain(s: Store, t: Store, k: Key)
    requires Sound(s) && Harmless(s, t, k) && IsPlain(k.job)
    ensures Sound(t) && (AllTied(s) ==> AllTied(t))
  {
    forall x ensures RowOk(t, x) {
      assert RowOk(s, x);
    }
    forall sym, tm ensures OpenOk(t.rows, sym, tm) {
      assert OpenOk(s.rows, sym, tm);
    }
    if AllTied(s) {
      forall sym, tm ensures Tied(t.rows, sym, tm) {
        assert Tied(s.rows, sym, tm);
      }
    }
  }

  lemma DropRow(s: Store, k: Key)
    requires Sound(s) && !Is(s.rows, k, Completed)
    ensures var t := s.(rows := s.rows - {k}); Sound(t) && Keeps(s, t) && (AllTied(s) ==> AllTied(t))
  {
    var t := s.(rows := s.rows - {k});
    forall x ensures RowOk(t, x) {
      assert RowOk(s, x);
    }
    forall sym, tm ensures OpenOk(t.rows, sym, tm) {
      assert OpenOk(s.rows, sym, tm);
    }
    if AllTied(s) {
      forall sym, tm ensures Tied(t.rows, sym, tm) {
        assert Tied(s.rows, sym, tm);
      }
    }
  }

  /** A handler success is logged as its row completes. */
  lemma CompleteJob(s: Store, k: Key)
    requires Sound(s) && IsSchedulerJob(k.job) && k in s.rows && !Is(s.rows, k, Completed)
    ensures var t := Finished(s, k, Completed, None).(done := s.done + [k]);
            Sound(t) && Keeps(s, t) && (AllTied(s) ==> AllTied(t))
  {
    var t := Finished(s, k, Completed, None).(done := s.done + [k]);
    forall x ensures RowOk(t, x) {
      assert RowOk(s, x);
      assert multiset(t.done) == multiset(s.done) + multiset{k};
    }
    forall sym, tm ensures OpenOk(t.rows, sym, tm) {
      assert OpenOk(s.rows, sym, tm);
    }
    if AllTied(s) {
      forall sym, tm ensures Tied(t.rows, sym, tm) {
        assert Tied(s.rows, sym, tm);
      }
    }
  }

  /** What must be completed before a phase of a daily open may be. */
  predicate PhaseReady(rows: map<Key, Run>, k: Key, sym: Sym, at: Time) {
    || (k == GapKey(sym, at) && Is(rows, Key(StopTrigger, at), Completed))
    || (k == FillKey(sym, at) && Is(rows, GapKey(sym, at), Completed) && Is(rows, Key(FillProcessing, at), Completed))
    || (k == SnapKey(sym, at) && Is(rows, FillKey(sym, at), Completed) && Is(rows, Key(PortfolioSnapshot, at), Completed))
    || (k == ParentKey(sym, at) && OpenComplete(rows, sym, at))
  }

  /** Completing a phase of a daily open in order, after its scheduler job. */
  lemma CompletePhase(s: Store, t: Store, k: Key, sym: Sym, at: Time)
    requires Sound(s) && Harmless(s, t, k) && Is(t.rows, k, Completed)
    requires PhaseReady(s.rows, k, sym, at)
    ensures Sound(t)
    ensures forall x, tm: Time :: Tied(s.rows, x, tm) && (x != sym || tm != at) ==> Tied(t.rows, x, tm)
    ensures k.job.OpenGap? || k.job.OpenParent? ==> (Tied(s.rows, sym, at) ==> Tied(t.rows, sym, at))
    ensures k.job.OpenSnap? ==> Tied(t.rows, sym, at)
  {
    forall x ensures RowOk(t, x) {
      assert RowOk(s, x);
    }
    forall x, tm ensures OpenOk(t.rows, x, tm) {
      assert OpenOk(s.rows, x, tm);
    }
  }

  /* ---------- running jobs and phases ---------- */

  /** Only rows of the given keys may differ. */
  predicate Only(s: Store, t: Store, keys: set<Key>) {
    && s.rows.Keys <= t.rows.Keys
    && (forall k :: k in t.rows && k !in keys ==> k in s.rows && t.rows[k] == s.rows[k])
  }

  lemma EnsuredKeeps(s: Store, k: Key)
    requires Sound(s) && !k.job.Attempt?
    ensures var t := Ensured(s, k); Sound(t) && Keeps(s, t) && (AllTied(s) ==> AllTied(t)) && Only(s, t, {k})
  {
    if k !in s.rows {
      HarmlessKeeps(s, Ensured(s, k), k);
      ChangeRow(s, Ensured(s, k), k);
    }
  }

  lemma FinishedFails(s: Store, k: Key, error: Option<string>)
    requires Sound(s) && k in s.rows && !Is(s.rows, k, Completed)
    ensures var t := Finished(s, k, Failed, error);
            Sound(t) && Keeps(s, t) && Settles(s, t) && !Is(t.rows, k, Running) && (AllTied(s) ==> AllTied(t)) && Only(s, t, {k})
  {
    assert RowOk(s, k);
    HarmlessKeeps(s, Finished(s, k, Failed, error), k);
    ChangeRow(s, Finished(s, k, Failed, error), k);
  }

  lemma KeepsTrans(s: Store, t: Store, u: Store)
    requires Keeps(s, t) && Keeps(t, u)
    ensures Keeps(s, u)
  {
  }

  /** Running a scheduler job: its row ends completed or failed, and a success is logged. */
  lemma RunJobKeeps(s: Store, env: Env, k: Key)
    requires Sound(s) && IsSchedulerJob(k.job)
    ensures var t := RunJob(s, env, k).store;
            Sound(t) && Keeps(s, t) && Settles(s, t) && (AllTied(s) ==> AllTied(t)) && Only(s, t, {k})
    ensures Verdict([RunJob(s, env, k).outcome]).None? ==> Is(RunJob(s, env, k).store.rows, k, Completed)
  {
    hide Sound;
    hide AllTied;
    var o := RunJob(s, env, k).outcome;
    assert [o][1..] == [];
    if env.enabled && !Is(s.rows, k, Completed) && !Is(s.rows, k, Running) {
      EnsuredKeeps(s, k);
      var started := Ensured(s, k);
      CompleteJob(started, k);
      FinishedFails(started, k, env.handler(k.job));
      KeepsTrans(s, started, RunJob(s, env, k).store);
    }
  }

  predicate IsPhaseOf(sub: Key, job: Key, sym: Sym, at: Time) {
    || (sub == GapKey(sym, at) && job == Key(StopTrigger, at))
    || (sub == FillKey(sym, at) && job == Key(FillProcessing, at))
    || (sub == SnapKey(sym, at) && job == Key(PortfolioSnapshot, at))
  }

  /** The phase before this one is completed. */
  predicate PreviousDone(rows: map<Key, Run>, sub: Key, sym: Sym, at: Time) {
    && (sub == FillKey(sym, at) ==> Is(rows, GapKey(sym, at), Completed))
    && (sub == SnapKey(sym, at) ==> Is(rows, FillKey(sym, at), Completed))
  }

  /** A phase that is run: its row is started, its job run, and its row completed. */
  lemma SubjobRan(s: Store, env: Env, sub: Key, job: Key, sym: Sym, at: Time)
    requires Sound(s) && IsPhaseOf(sub, job, sym, at) && PreviousDone(s.rows, sub, sym, at) && !Is(s.rows, sub, Completed)
    requires Verdict([RunJob(Ensured(s, sub), env, job).outcome]).None?
    ensures var t := Finished(RunJob(Ensured(s, sub), env, job).store, sub, Completed, None);
            Sound(t) && Keeps(s, t) && Settles(s, t) && Only(s, t, {sub, job})
  {
    hide Sound;
    hide RunJob;
    hide Verdict;
    var started := Ensured(s, sub);
    EnsuredKeeps(s, sub);
    RunJobKeeps(started, env, job);
    var ran := RunJob(started, env, job).store;
    PhaseEnds(ran, sub, job, sym, at);
    KeepsTrans(s, started, ran);
    KeepsTrans(s, ran, Finished(ran, sub, Completed, None));
  }

  lemma SubjobKeeps(s: Store, env: Env, sub: Key, job: Key, sym: Sym, at: Time)
    requires Sound(s) && IsPhaseOf(sub, job, sym, at) && PreviousDone(s.rows, sub, sym, at)
    ensures var r := OpenSubjob(s, env, sub, job);
            r.raised.None? ==> Sound(r.store) && Keeps(s, r.store) && Settles(s, r.store) && Only(s, r.store, {sub, job}) &&
                               Is(r.store.rows, sub, Completed)
  {
    var r := OpenSubjob(s, env, sub, job);
    hide Sound;
    hide RunJob;
    hide Verdict;
    if r.raised.None? && !Is(s.rows, sub, Completed) {
      assert env.lock by { LockVerdict(Ensured(s, sub), env, job); }
      SubjobRan(s, env, sub, job, sym, at);
    }
  }

  lemma LockVerdict(s: Store, env: Env, k: Key)
    requires Verdict([RunLocked(s, env, k).outcome]).None?
    ensures env.lock
  {
    assert [RunLocked(s, env, k).outcome][1..] == [];
  }

  lemma PhaseEnds(s: Store, sub: Key, job: Key, sym: Sym, at: Time)
    requires Sound(s) && IsPhaseOf(sub, job, sym, at) && PreviousDone(s.rows, sub, sym, at)
    requires Is(s.rows, job, Completed) && sub in s.rows && !Is(s.rows, sub, Completed)
    ensures var t := Finished(s, sub, Completed, None); Sound(t) && Keeps(s, t)
  {
    assert RowOk(s, sub);
    var t := Finished(s, sub, Completed, None);
    HarmlessKeeps(s, t, sub);
    CompletePhase(s, t, sub, sym, at);
  }

  lemma SubjobRaises(s: Store, env: Env, sub: Key, job: Key)
    requires sub != job && OpenSubjob(s, env, sub, job).raised.Some?
    ensures !Is(s.rows, sub, Completed)
    ensures var r := OpenSubjob(s, env, sub, job).raised.value; r.SchedulerDeferred? || (r.SequenceFailure? && r.subjob == sub)
  {
    var o := RunLocked(Ensured(s, sub), env, job).outcome;
    assert [o][1..] == [];
  }

  /* ---------- handlers ---------- */

  function GapRows(sym: Sym, at: Time): set<Key> { {GapKey(sym, at), Key(StopTrigger, at)} }

  function FillRows(sym: Sym, at: Time): set<Key> {
    {FillKey(sym, at), Key(FillProcessing, at), SnapKey(sym, at), Key(PortfolioSnapshot, at)}
  }

  lemma GapKeepsTied(s: Store, t: Store, sym: Sym, at: Time)
    requires AllTied(s) && Only(s, t, GapRows(sym, at)) && Keeps(s, t)
    ensures AllTied(t)
  {
    forall x, tm: Time ensures Tied(t.rows, x, tm) {
      assert Tied(s.rows, x, tm);
    }
  }

  lemma FillKeepsTied(s: Store, t: Store, sym: Sym, at: Time)
    requires AllTied(s) && Only(s, t, FillRows(sym, at)) && Keeps(s, t) && Is(t.rows, SnapKey(sym, at), Completed)
    ensures AllTied(t)
  {
    forall x, tm: Time ensures Tied(t.rows, x, tm) {
      assert Tied(s.rows, x, tm);
    }
  }

  lemma OnlyTrans(s: Store, t: Store, u: Store, a: set<Key>, b: set<Key>)
    requires Only(s, t, a) && Only(t, u, b)
    ensures Only(s, u, a + b)
  {
  }

  lemma OnlyMore(s: Store, t: Store, a: set<Key>, b: set<Key>)
    requires Only(s, t, a) && a <= b
    ensures Only(s, t, b)
  {
  }

  /** Fill and snapshot, from the point where the gap phase is completed. */
  lemma FillPhases(s: Store, env: Env, sym: Sym, at: Time)
    requires Sound(s) && AllTied(s) && Is(s.rows, GapKey(sym, at), Completed)
    ensures var fill := OpenSubjob(s, env, FillKey(sym, at), Key(FillProcessing, at));
            var snap := OpenSubjob(fill.store, env, SnapKey(sym, at), Key(PortfolioSnapshot, at));
            fill.raised.None? && snap.raised.None? ==>
              Sound(snap.store) && AllTied(snap.store) && Keeps(s, snap.store) && Settles(s, snap.store) &&
              Only(s, snap.store, FillRows(sym, at)) && OpenComplete(snap.store.rows, sym, at)
  {
    hide Sound;
    hide AllTied;
    hide OpenSubjob;
    hide Tied;
    var fill := OpenSubjob(s, env, FillKey(sym, at), Key(FillProcessing, at));
    var snap := OpenSubjob(fill.store, env, SnapKey(sym, at), Key(PortfolioSnapshot, at));
    if fill.raised.None? && snap.raised.None? {
      SubjobKeeps(s, env, FillKey(sym, at), Key(FillProcessing, at), sym, at);
      SubjobKeeps(fill.store, env, SnapKey(sym, at), Key(PortfolioSnapshot, at), sym, at);
      KeepsTrans(s, fill.store, snap.store);
      OnlyTrans(s, fill.store, snap.store, {FillKey(sym, at), Key(FillProcessing, at)},
          {SnapKey(sym, at), Key(PortfolioSnapshot, at)});
      OnlyMore(s, snap.store, {FillKey(sym, at), Key(FillProcessing, at)} + {SnapKey(sym, at), Key(PortfolioSnapshot, at)},
          FillRows(sym, at));
      FillKeepsTied(s, snap.store, sym, at);
    }
  }

  /** What a handler leaves behind, whether it raises or not. */
  ghost predicate Leaves(s: Store, t: Store, keys: set<Key>) {
    Sound(t) && AllTied(t) && Keeps(s, t) && Settles(s, t) && Only(s, t, keys)
  }

  predicate PhaseFailed(r: Step, sym: Sym, at: Time) {
    r.raised.Some? && r.raised.value.SequenceFailure? ==>
      r.raised.value.subjob in {GapKey(sym, at), FillKey(sym, at), SnapKey(sym, at)} &&
      !Is(r.store.rows, r.raised.value.subjob, Completed)
  }

  lemma GapPhase(s: Store, env: Env, sym: Sym, at: Time)
    requires Sound(s) && AllTied(s)
    ensures var gap := OpenSubjob(s, env, GapKey(sym, at), Key(StopTrigger, at));
            gap.raised.None? ==> Leaves(s, gap.store, GapRows(sym, at)) && Is(gap.store.rows, GapKey(sym, at), Completed)
  {
    hide Sound;
    hide AllTied;
    hide OpenSubjob;
    var gap := OpenSubjob(s, env, GapKey(sym, at), Key(StopTrigger, at));
    if gap.raised.None? {
      SubjobKeeps(s, env, GapKey(sym, at), Key(StopTrigger, at), sym, at);
      GapKeepsTied(s, gap.store, sym, at);
    }
  }

  lemma LeavesSelf(s: Store, keys: set<Key>)
    requires Sound(s) && AllTied(s)
    ensures Leaves(s, s, keys)
  {
  }

  lemma LeavesTrans(s: Store, t: Store, u: Store, a: set<Key>, b: set<Key>)
    requires Leaves(s, t, a) && Leaves(t, u, b)
    ensures Leaves(s, u, a + b)
  {
    hide Sound;
    hide AllTied;
    KeepsTrans(s, t, u);
  }

  function OpenRows(sym: Sym, at: Time): set<Key> { GapRows(sym, at) + FillRows(sym, at) }

  lemma {:induction false} HandleOpenKeeps(s: Store, env: Env, e: Event)
    requires Sound(s) && AllTied(s)
    ensures var r := HandleOpen(s, env, e);
            Leaves(s, r.store, OpenRows(e.symbol, e.at)) && PhaseFailed(r, e.symbol, e.at) &&
            (r.raised.None? ==> OpenComplete(r.store.rows, e.symbol, e.at))
  {
    hide Sound;
    hide AllTied;
    hide OpenSubjob;
    hide GapRows;
    hide FillRows;
    hide Only;
    hide Keeps;
    hide Settles;
    LeavesSelf(s, OpenRows(e.symbol, e.at));
    if ContextRaises(env).None? {
      var gap := OpenSubjob(s, env, GapKey(e.symbol, e.at), Key(StopTrigger, e.at));
      if gap.raised.Some? {
        SubjobRaises(s, env, GapKey(e.symbol, e.at), Key(StopTrigger, e.at));
      } else {
        GapPhase(s, env, e.symbol, e.at);
        LeavesSelf(gap.store, FillRows(e.symbol, e.at));
        LeavesTrans(s, gap.store, gap.store, GapRows(e.symbol, e.at), FillRows(e.symbol, e.at));
        if env.fillDue {
          FillPhases(gap.store, env, e.symbol, e.at);
          FillRaises(gap.store, env, e.symbol, e.at);
          var fill := OpenSubjob(gap.store, env, FillKey(e.symbol, e.at), Key(FillProcessing, e.at));
          var snap := OpenSubjob(fill.store, env, SnapKey(e.symbol, e.at), Key(PortfolioSnapshot, e.at));
          if fill.raised.None? && snap.raised.None? {
            LeavesTrans(s, gap.store, snap.store, GapRows(e.symbol, e.at), FillRows(e.symbol, e.at));
          }
        }
      }
    }
  }

  /** A failing fill or snapshot phase is not completed at the savepoint that is restored. */
  lemma FillRaises(s: Store, env: Env, sym: Sym, at: Time)
    requires Sound(s) && AllTied(s) && Is(s.rows, GapKey(sym, at), Completed)
    ensures var fill := OpenSubjob(s, env, FillKey(sym, at), Key(FillProcessing, at));
            var snap := OpenSubjob(fill.store, env, SnapKey(sym, at), Key(PortfolioSnapshot, at));
            PhaseFailed(Step(s, fill.raised), sym, at) && (fill.raised.None? ==> PhaseFailed(Step(s, snap.raised), sym, at))
  {
    hide Sound;
    hide AllTied;
    hide OpenSubjob;
    var fill := OpenSubjob(s, env, FillKey(sym, at), Key(FillProcessing, at));
    if fill.raised.Some? {
      SubjobRaises(s, env, FillKey(sym, at), Key(FillProcessing, at));
    } else {
      SubjobKeeps(s, env, FillKey(sym, at), Key(FillProcessing, at), sym, at);
      var snap := OpenSubjob(fill.store, env, SnapKey(sym, at), Key(PortfolioSnapshot, at));
      if snap.raised.Some? {
        SubjobRaises(fill.store, env, SnapKey(sym, at), Key(PortfolioSnapshot, at));
      }
    }
  }

  /* ---------- concluding ---------- */

  ghost predicate SameAttempts(s: Store, t: Store) {
    forall a: Key :: a.job.Attempt? ==> (a in s.rows <==> a in t.rows) && (a in s.rows ==> s.rows[a] == t.rows[a])
  }

  /** Nothing is left running but what was, and the concluded row is not. */
  ghost predicate SettlesRow(s: Store, t: Store, k: Key) {
    forall x :: Is(t.rows, x, Running) ==> x != k && Is(s.rows, x, Running)
  }

  ghost predicate Concludes(s: Store, t: Store, k: Key) {
    Sound(t) && AllTied(t) && Keeps(s, t) && SettlesRow(s, t, k) && SameAttempts(s, t)
  }

  lemma ReleaseConcludes(s: Store, k: Key, code: string)
    requires Sound(s) && AllTied(s) && !k.job.Attempt? && k in s.rows && !Is(s.rows, k, Completed)
    ensures Concludes(s, Released(s, k, code), k)
  {
    assert RowOk(s, k);
    DropRow(s, k);
    hide Sound;
    hide AllTied;
  }

  lemma FailConcludes(s: Store, k: Key, error: Option<string>)
    requires Sound(s) && AllTied(s) && !k.job.Attempt? && k in s.rows && !Is(s.rows, k, Completed)
    ensures Concludes(s, Finished(s, k, Failed, error), k)
  {
    FinishedFails(s, k, error);
    hide Sound;
    hide AllTied;
  }

  lemma AuditConcludes(s: Store, k: Key, sub: Key, message: string)
    requires Sound(s) && AllTied(s) && !k.job.Attempt? && k in s.rows && !Is(s.rows, k, Completed)
    requires !sub.job.Attempt? && !Is(s.rows, sub, Completed)
    ensures Concludes(s, Audited(s, k, sub, message), k)
  {
    FailConcludes(s, k, Some(message));
    hide Sound;
    hide AllTied;
    if sub != k {
      var failed := Finished(s, k, Failed, Some(message));
      EnsuredKeeps(failed, sub);
      FinishedFails(Ensured(failed, sub), sub, Some(message));
      KeepsTrans(failed, Ensured(failed, sub), Audited(s, k, sub, message));
      KeepsTrans(s, failed, Audited(s, k, sub, message));
    }
  }

  lemma ParentConcludes(s: Store, sym: Sym, at: Time)
    requires Sound(s) && AllTied(s) && ParentKey(sym, at) in s.rows && !Is(s.rows, ParentKey(sym, at), Completed)
    requires OpenComplete(s.rows, sym, at)
    ensures Concludes(s, Finished(s, ParentKey(sym, at), Completed, None), ParentKey(sym, at))
  {
    var k := ParentKey(sym, at);
    var t := Finished(s, k, Completed, None);
    assert RowOk(s, k);
    HarmlessKeeps(s, t, k);
    CompletePhase(s, t, k, sym, at);
    forall x, tm: Time ensures Tied(t.rows, x, tm) {
      assert Tied(s.rows, x, tm);
    }
  }

  lemma PlainConcludes(s: Store, k: Key)
    requires Sound(s) && AllTied(s) && !k.job.Attempt? && IsPlain(k.job) && k in s.rows && !Is(s.rows, k, Completed)
    ensures Concludes(s, Finished(s, k, Completed, None), k)
  {
    var t := Finished(s, k, Completed, None);
    assert RowOk(s, k);
    HarmlessKeeps(s, t, k);
    CompletePlain(s, t, k);
    hide Sound;
    hide AllTied;
  }

  lemma {:induction false} ConcludeOpenKeeps(w: Work, e: Event, r: Option<Raised>)
    requires e.kind.Open? && RowKey(e) in w.store.rows && !Is(w.store.rows, RowKey(e), Completed)
    requires Sound(w.store) && AllTied(w.store) && PhaseFailed(Step(w.store, r), e.symbol, e.at)
    requires r.None? ==> OpenComplete(w.store.rows, e.symbol, e.at)
    ensures var p := ConcludeOpen(w, e, r);
            Concludes(w.store, p.work.store, RowKey(e)) && p.work.pending == w.pending &&
            (p.outcome.status == Completed ==> r.None? && Is(p.work.store.rows, RowKey(e), Completed))
  {
    hide Sound;
    hide AllTied;
    hide Concludes;
    var k := RowKey(e);
    if r.None? {
      ParentConcludes(w.store, e.symbol, e.at);
    } else {
      ReleaseConcludes(w.store, k, CodeOf(r.value));
      FailConcludes(w.store, k, Some(CodeOf(r.value)));
      AuditConcludes(w.store, k, k, CodeOf(r.value));
      if r.value.SequenceFailure? {
        AuditConcludes(w.store, k, r.value.subjob, r.value.message);
      }
    }
  }

  lemma {:induction false} ConcludeOtherKeeps(w: Work, e: Event, r: Option<Raised>)
    requires !e.kind.Open? && RowKey(e) in w.store.rows && !Is(w.store.rows, RowKey(e), Completed)
    requires Sound(w.store) && AllTied(w.store)
    ensures var p := ConcludeOther(w, e, r);
            Concludes(w.store, p.work.store, RowKey(e)) && p.work.pending == w.pending &&
            (p.outcome.status == Completed ==> Is(p.work.store.rows, RowKey(e), Completed))
  {
    hide Sound;
    hide AllTied;
    hide Concludes;
    var k := RowKey(e);
    PlainConcludes(w.store, k);
    if r.Some? {
      ReleaseConcludes(w.store, k, CodeOf(r.value));
      FailConcludes(w.store, k, Some(CodeOf(r.value)));
    }
  }

  /* ---------- one event ---------- */

  lemma HandleLiveKeeps(s: Store, env: Env, e: Event)
    requires Sound(s) && AllTied(s)
    ensures Leaves(s, HandleLive(s, env, e).store, {Key(IntradayStop, e.at)})
  {
    hide Sound;
    hide AllTied;
    RunJobKeeps(s, env, Key(IntradayStop, e.at));
  }

  function KeysOf(jobs: seq<Key>): set<Key> { set k | k in jobs }

  function CloseRows(at: Time): set<Key> { KeysOf(CloseJobs(at)) }

  lemma RunJobLeaves(s: Store, env: Env, k: Key)
    requires Sound(s) && AllTied(s) && IsSchedulerJob(k.job)
    ensures Leaves(s, RunJob(s, env, k).store, {k})
  {
    RunJobKeeps(s, env, k);
  }

  lemma {:induction false} RunAllLeaves(s: Store, env: Env, jobs: seq<Key>)
    requires Sound(s) && AllTied(s) && forall k :: k in jobs ==> IsSchedulerJob(k.job)
    ensures Leaves(s, RunAll(s, env, jobs).0, KeysOf(jobs))
    decreases |jobs|
  {
    LeavesSelf(s, KeysOf(jobs));
    if jobs != [] {
      assert jobs[0] in jobs;
      RunJobLeaves(s, env, jobs[0]);
      hide Sound;
      hide AllTied;
      hide RunJob;
      hide Keeps;
      hide Settles;
      hide Only;
      var first := RunJob(s, env, jobs[0]).store;
      RunAllLeaves(first, env, jobs[1..]);
      LeavesTrans(s, first, RunAll(s, env, jobs).0, {jobs[0]}, KeysOf(jobs[1..]));
      assert {jobs[0]} + KeysOf(jobs[1..]) == KeysOf(jobs);
    }
  }

  lemma HandleCloseKeeps(s: Store, env: Env, e: Event)
    requires Sound(s) && AllTied(s)
    ensures Leaves(s, HandleClose(s, env, e).store, CloseRows(CloseTime(e)))
  {
    LeavesSelf(s, CloseRows(CloseTime(e)));
    RunAllLeaves(s, env, CloseJobs(CloseTime(e)));
  }

  ghost predicate NoAttempts(keys: set<Key>) { forall k :: k in keys ==> !k.job.Attempt? }

  /** Start a row, handle the event, conclude: what holds of the whole. */
  lemma {:induction false} Whole(s: Store, handled: Store, t: Store, k: Key, keys: set<Key>)
    requires !k.job.Attempt? && NoAttempts(keys) && Leaves(Ensured(s, k), handled, keys) && Concludes(handled, t, k)
    ensures Keeps(s, t) && Settles(s, t) && SameAttempts(s, t) && SameAttemptRows(s, t) && CloseAttemptsSame(s, t)
  {
    hide Sound;
    hide AllTied;
    KeepsTrans(s, Ensured(s, k), handled);
    KeepsTrans(s, handled, t);
    forall a: Key | a.job.Attempt? ensures (a in s.rows <==> a in t.rows) && (a in s.rows ==> s.rows[a] == t.rows[a]) {
      assert a !in keys && a != k;
    }
  }

  lemma PendingKept(w: Work, t: Store)
    requires PendingOk(w) && SameAttempts(w.store, t)
    ensures PendingOk(w.(store := t))
  {
    forall k | k in w.pending ensures AttemptOk(t.rows, k, w.pending[k]) {
      assert AttemptOk(w.store.rows, k, w.pending[k]);
    }
  }

  /** Whatever one event does, the store stays sound, completed rows stay completed, successes are only
      added, and nothing new is left running. */
  ghost predicate Advances(w: Work, v: Work) {
    && Good(v) && Keeps(w.store, v.store) && Settles(w.store, v.store)
    && SameAttemptRows(w.store, v.store) && CloseAttemptsSame(w.store, v.store)
  }

  /** Processing events neither makes nor removes a recovery attempt. */
  ghost predicate SameAttemptRows(s: Store, t: Store) {
    forall a: Key :: a.job.Attempt? ==> (a in s.rows <==> a in t.rows)
  }

  ghost predicate MadeGood(rows: map<Key, Run>, k: Key) {
    exists n: nat :: Is(rows, Key(Attempt(k.job, n), k.at), Completed)
  }

  /** Nor does it ever touch an attempt at anything but a daily open. */
  ghost predicate CloseAttemptsSame(s: Store, t: Store) {
    forall a: Key :: a.job.Attempt? && !a.job.of.OpenParent? && a in s.rows ==> a in t.rows && t.rows[a] == s.rows[a]
  }

  /** An acknowledged event has a completed row or a completed recovery attempt; a daily open has all its
      phases completed as well. */
  ghost predicate Earned(rows: map<Key, Run>, e: Event) {
    && (Is(rows, RowKey(e), Completed) || (e.kind.Open? && MadeGood(rows, RowKey(e))))
    && (e.kind.Open? ==> OpenComplete(rows, e.symbol, e.at))
  }

  lemma ParentImpliesPhases(s: Store, sym: Sym, at: Time)
    requires Sound(s) && (Is(s.rows, ParentKey(sym, at), Completed) || IsResolved(s.rows, ParentKey(sym, at)))
    ensures OpenComplete(s.rows, sym, at)
  {
    assert OpenOk(s.rows, sym, at);
  }

  lemma {:induction false} FreshOpen(w: Work, env: Env, e: Event)
    requires Good(w) && e.kind.Open? && !OpenComplete(w.store.rows, e.symbol, e.at)
    ensures var step := HandleOpen(Ensured(w.store, RowKey(e)), env, e);
            var p := ConcludeOpen(w.(store := step.store), e, step.raised);
            Advances(w, p.work) && (p.outcome.status == Completed ==> Earned(p.work.store.rows, e))
  {
    var k := RowKey(e);
    if Is(w.store.rows, k, Completed) {
      ParentImpliesPhases(w.store, e.symbol, e.at);
    }
    EnsuredKeeps(w.store, k);
    var started := Ensured(w.store, k);
    hide Sound;
    hide AllTied;
    hide Ensured;
    hide HandleOpen;
    hide ConcludeOpen;
    hide OpenComplete;
    hide Keeps;
    hide Settles;
    hide Only;
    hide PendingOk;
    hide SameAttempts;
    hide SameAttemptRows;
    hide CloseAttemptsSame;
    hide SettlesRow;
    hide OpenRows;
    hide PhaseFailed;
    hide MadeGood;
    PhasesAreNoAttempts(e.symbol, e.at);
    HandleOpenKeeps(started, env, e);
    var step := HandleOpen(started, env, e);
    ParentUntouched(w.store, started, step.store, e);
    ConcludeOpenKeeps(w.(store := step.store), e, step.raised);
    var p := ConcludeOpen(w.(store := step.store), e, step.raised);
    Whole(w.store, step.store, p.work.store, k, OpenRows(e.symbol, e.at));
    PendingKept(w, p.work.store);
    assert p.work == w.(store := p.work.store);
    if p.outcome.status == Completed {
      ParentImpliesPhases(p.work.store, e.symbol, e.at);
    }
  }

  lemma PhasesAreNoAttempts(sym: Sym, at: Time)
    ensures NoAttempts(OpenRows(sym, at))
  {
  }

  lemma ParentUntouched(s: Store, started: Store, handled: Store, e: Event)
    requires e.kind.Open? && !Is(s.rows, RowKey(e), Completed) && started == Ensured(s, RowKey(e))
    requires Only(started, handled, OpenRows(e.symbol, e.at))
    ensures RowKey(e) in handled.rows && !Is(handled.rows, RowKey(e), Completed)
  {
  }

  lemma FinishedOpen(w: Work, e: Event)
    requires Good(w) && e.kind.Open? && OpenComplete(w.store.rows, e.symbol, e.at)
    ensures var v := w.(store := ParentCompleted(w.store, RowKey(e)));
            Advances(w, v) && Earned(v.store.rows, e) && Is(v.store.rows, RowKey(e), Completed)
  {
    var k := RowKey(e);
    if !Is(w.store.rows, k, Completed) {
      EnsuredKeeps(w.store, k);
      var started := Ensured(w.store, k);
      var t := ParentCompleted(w.store, k);
      assert OpenComplete(started.rows, e.symbol, e.at);
      assert AllTied(started);
      ParentConcludes(started, e.symbol, e.at);
      hide Sound;
      hide AllTied;
      LeavesSelf(started, {});
      Whole(w.store, started, t, k, {});
      PendingKept(w, t);
    }
  }

  lemma {:induction false} FreshRow(w: Work, e: Event, handled: Store, raised: Option<Raised>, keys: set<Key>)
    requires Good(w) && !e.kind.Open? && !Is(w.store.rows, RowKey(e), Completed)
    requires Leaves(Ensured(w.store, RowKey(e)), handled, keys) && NoAttempts(keys)
    requires RowKey(e) in handled.rows && !Is(handled.rows, RowKey(e), Completed)
    ensures var p := ConcludeOther(w.(store := handled), e, raised);
            Advances(w, p.work) && (p.outcome.status == Completed ==> Is(p.work.store.rows, RowKey(e), Completed))
  {
    hide Sound;
    hide AllTied;
    hide Ensured;
    hide ConcludeOther;
    hide Keeps;
    hide Settles;
    hide Only;
    ConcludeOtherKeeps(w.(store := handled), e, raised);
    var p := ConcludeOther(w.(store := handled), e, raised);
    Whole(w.store, handled, p.work.store, RowKey(e), keys);
    PendingKept(w, p.work.store);
    assert p.work == w.(store := p.work.store);
  }

  lemma RowUntouched(s: Store, handled: Store, e: Event, keys: set<Key>)
    requires Only(Ensured(s, RowKey(e)), handled, keys) && RowKey(e) !in keys && !Is(s.rows, RowKey(e), Completed)
    ensures RowKey(e) in handled.rows && !Is(handled.rows, RowKey(e), Completed)
  {
  }

  lemma {:induction false} FreshOther(w: Work, env: Env, e: Event)
    requires Good(w) && (e.kind.Live? || e.kind.DayClose?) && !Is(w.store.rows, RowKey(e), Completed)
    ensures var started := Ensured(w.store, RowKey(e));
            var step := if e.kind.Live? then HandleLive(started, env, e) else HandleClose(started, env, e);
            var p := ConcludeOther(w.(store := step.store), e, step.raised);
            Advances(w, p.work) && (p.outcome.status == Completed ==> Is(p.work.store.rows, RowKey(e), Completed))
  {
    EnsuredKeeps(w.store, RowKey(e));
    var started := Ensured(w.store, RowKey(e));
    hide Good;
    hide Sound;
    hide AllTied;
    hide Ensured;
    hide HandleLive;
    hide HandleClose;
    hide ConcludeOther;
    hide Keeps;
    hide Settles;
    hide Only;
    if e.kind.Live? {
      HandleLiveKeeps(started, env, e);
      var step := HandleLive(started, env, e);
      RowUntouched(w.store, step.store, e, {Key(IntradayStop, e.at)});
      FreshRow(w, e, step.store, step.raised, {Key(IntradayStop, e.at)});
    } else {
      HandleCloseKeeps(started, env, e);
      var step := HandleClose(started, env, e);
      RowUntouched(w.store, step.store, e, CloseRows(CloseTime(e)));
      FreshRow(w, e, step.store, step.raised, CloseRows(CloseTime(e)));
    }
  }

  lemma MarkerOther(w: Work, e: Event)
    requires Good(w) && (e.kind.WeekClose? || e.kind.MonthClose?) && !Is(w.store.rows, RowKey(e), Completed)
    ensures var k := RowKey(e);
            var v := w.(store := Finished(Ensured(w.store, k), k, Completed, None));
            Advances(w, v) && Is(v.store.rows, k, Completed)
  {
    var k := RowKey(e);
    EnsuredKeeps(w.store, k);
    var started := Ensured(w.store, k);
    PlainConcludes(started, k);
    hide Sound;
    hide AllTied;
    LeavesSelf(started, {});
    Whole(w.store, started, Finished(started, k, Completed, None), k, {});
    PendingKept(w, Finished(started, k, Completed, None));
  }

  /* ---------- recovery ---------- */

  lemma LatestIsActive(rows: map<Key, Run>, k: Key, n: nat)
    ensures var a := LatestActive(rows, k, n);
            a.Some? ==> IsActive(rows, k, a.value) && a.value.job.Attempt? && Key(a.value.job.of, a.value.at) == k
  {
  }

  lemma ActiveIsAttempt(w: Work, k: Key)
    requires PendingOk(w) && ActiveContext(w, k).Some?
    ensures AttemptOk(w.store.rows, k, ActiveContext(w, k).value)
  {
    if k !in w.pending {
      LatestIsActive(w.store.rows, k, |Attempts(w.store.rows, k)|);
    }
  }

  lemma RememberedGood(w: Work, k: Key)
    requires Good(w)
    ensures Good(Remembered(w, k)) && Remembered(w, k).store == w.store
  {
    hide Sound;
    hide AllTied;
    hide AttemptOk;
    if ActiveContext(w, k).Some? {
      ActiveIsAttempt(w, k);
    }
  }

  lemma ReactivatedKeeps(s: Store, a: Key)
    requires Sound(s) && AllTied(s) && a.job.Attempt? && a in s.rows && !Is(s.rows, a, Completed)
    ensures var t := Reactivated(s, a);
            Sound(t) && AllTied(t) && Keeps(s, t) && Only(s, t, {a}) && !Is(t.rows, a, Completed)
  {
    var t := Reactivated(s, a);
    assert RowOk(s, a);
    if t != s {
      HarmlessKeeps(s, t, a);
      ChangeRow(s, t, a);
    }
  }

  /** Ending an attempt: its row takes a final status, or is set aside to be retried. */
  lemma AttemptEnds(s: Store, a: Key, status: Status, error: Option<string>)
    requires Sound(s) && AllTied(s) && a.job.Attempt? && a in s.rows && !Is(s.rows, a, Completed) && status != Running
    ensures var t := Finished(s, a, status, error);
            Sound(t) && AllTied(t) && Keeps(s, t) && SettlesRow(s, t, a) && Only(s, t, {a}) && a in t.rows
  {
    var t := Finished(s, a, status, error);
    assert RowOk(s, a);
    HarmlessKeeps(s, t, a);
    CompletePlain(s, t, a);
  }

  lemma ResolveKeeps(s: Store, sym: Sym, at: Time, a: Key)
    requires Sound(s) && AllTied(s) && OpenComplete(s.rows, sym, at)
    ensures var t := Resolved(s, ParentKey(sym, at), a);
            Sound(t) && AllTied(t) && Keeps(s, t) && Settles(s, t) && Only(s, t, {ParentKey(sym, at)})
  {
    var k := ParentKey(sym, at);
    var t := Resolved(s, k, a);
    forall x ensures RowOk(t, x) {
      assert RowOk(s, x);
    }
    forall x, tm: Time ensures OpenOk(t.rows, x, tm) && Tied(t.rows, x, tm) {
      assert OpenOk(s.rows, x, tm) && Tied(s.rows, x, tm);
    }
  }

  /** Forgetting a row's attempt leaves the other memories right, whatever became of that attempt. */
  lemma OtherPending(w: Work, t: Store, k: Key, a: Key, keys: set<Key>)
    requires PendingOk(w) && AttemptOk(w.store.rows, k, a) && Only(w.store, t, keys)
    requires forall x :: x in keys && x.job.Attempt? ==> x == a
    ensures PendingOk(Work(t, w.pending - {k}))
  {
    forall x | x in w.pending && x != k ensures AttemptOk(t.rows, x, w.pending[x]) {
      assert AttemptOk(w.store.rows, x, w.pending[x]);
    }
  }

  /** The recovery of a daily open: what holds of the three parts together. */
  lemma {:induction false} RecoveryWhole(s: Store, started: Store, handled: Store, t: Store, k: Key, a: Key, keys: set<Key>)
    requires a.job.Attempt? && NoAttempts(keys) && Keeps(s, started) && Only(s, started, {a}) && Leaves(started, handled, keys)
    requires Keeps(handled, t) && SettlesRow(handled, t, a) && Only(handled, t, {a, k}) && k.job.OpenParent? && a in s.rows &&
             a.job.of == k.job
    ensures Keeps(s, t) && Settles(s, t) && SameAttemptRows(s, t) && CloseAttemptsSame(s, t)
  {
    hide Sound;
    hide AllTied;
    KeepsTrans(s, started, handled);
    KeepsTrans(s, handled, t);
  }

  lemma {:induction false} RecoverOpen(w: Work, env: Env, e: Event, a: Key)
    requires Good(w) && e.kind.Open? && AttemptOk(w.store.rows, RowKey(e), a)
    ensures var started := Reactivated(w.store, a);
            var step := HandleOpen(started, env, e);
            Sound(started) && AllTied(started) && Leaves(started, step.store, OpenRows(e.symbol, e.at)) &&
            (step.raised.None? ==> OpenComplete(step.store.rows, e.symbol, e.at)) &&
            AttemptOk(step.store.rows, RowKey(e), a)
  {
    ReactivatedKeeps(w.store, a);
    HandleOpenKeeps(Reactivated(w.store, a), env, e);
    AttemptUntouched(w.store, HandleOpen(Reactivated(w.store, a), env, e).store, e, a);
    hide Sound;
    hide AllTied;
    hide HandleOpen;
    hide Reactivated;
    hide Keeps;
    hide Settles;
    hide Only;
    hide Leaves;
    hide AttemptOk;
    hide PhaseFailed;
  }

  lemma AttemptUntouched(s: Store, handled: Store, e: Event, a: Key)
    requires e.kind.Open? && AttemptOk(s.rows, RowKey(e), a) && Only(Reactivated(s, a), handled, OpenRows(e.symbol, e.at))
    ensures AttemptOk(handled.rows, RowKey(e), a)
  {
  }

  /** What ending an attempt comes to, from the start of the event. */
  ghost predicate Ended(handled: Store, t: Store, k: Key, a: Key) {
    Sound(t) && AllTied(t) && Keeps(handled, t) && SettlesRow(handled, t, a) && Only(handled, t, {a, k})
  }

  lemma AddMemory(t: Store, pending: map<Key, Key>, k: Key, a: Key)
    requires PendingOk(Work(t, pending - {k}))
    ensures AttemptOk(t.rows, k, a) ==> PendingOk(Work(t, pending[k := a]))
  {
    hide AttemptOk;
    forall x | x in pending && x != k ensures AttemptOk(t.rows, x, pending[x]) {
      assert (pending - {k})[x] == pending[x];
    }
  }

  lemma RecoveryOnly(s: Store, handled: Store, t: Store, e: Event, a: Key)
    requires Only(s, Reactivated(s, a), {a}) && Only(Reactivated(s, a), handled, OpenRows(e.symbol, e.at)) &&
             Only(handled, t, {a, RowKey(e)})
    ensures Only(s, t, {a} + OpenRows(e.symbol, e.at) + {a, RowKey(e)})
  {
    hide Reactivated;
    hide OpenRows;
    hide RowKey;
    hide Only;
    OnlyTrans(s, Reactivated(s, a), handled, {a}, OpenRows(e.symbol, e.at));
    OnlyTrans(s, handled, t, {a} + OpenRows(e.symbol, e.at), {a, RowKey(e)});
  }

  lemma RecoveryTouchesOne(e: Event, a: Key)
    requires e.kind.Open?
    ensures forall x :: x in {a} + OpenRows(e.symbol, e.at) + {a, RowKey(e)} && x.job.Attempt? ==> x == a
  {
    PhasesAreNoAttempts(e.symbol, e.at);
    hide OpenRows;
  }

  lemma {:induction false} RecoveryEnds(w: Work, handled: Store, t: Store, e: Event, a: Key)
    requires Good(w) && e.kind.Open? && AttemptOk(w.store.rows, RowKey(e), a)
    requires Leaves(Reactivated(w.store, a), handled, OpenRows(e.symbol, e.at)) && Ended(handled, t, RowKey(e), a)
    ensures Advances(w, Work(t, w.pending - {RowKey(e)}))
    ensures AttemptOk(t.rows, RowKey(e), a) ==> Advances(w, Work(t, w.pending[RowKey(e) := a]))
  {
    assert !Is(w.store.rows, a, Completed);
    hide PendingOk;
    hide AttemptOk;
    hide SettlesRow;
    hide Sound;
    hide AllTied;
    hide Reactivated;
    hide OpenRows;
    hide Keeps;
    hide Settles;
    hide Only;
    hide SameAttemptRows;
    hide CloseAttemptsSame;
    ReactivatedKeeps(w.store, a);
    PhasesAreNoAttempts(e.symbol, e.at);
    RecoveryWhole(w.store, Reactivated(w.store, a), handled, t, RowKey(e), a, OpenRows(e.symbol, e.at));
    RecoveryOnly(w.store, handled, t, e, a);
    RecoveryTouchesOne(e, a);
    OtherPending(w, t, RowKey(e), a, {a} + OpenRows(e.symbol, e.at) + {a, RowKey(e)});
    AddMemory(t, w.pending, RowKey(e), a);
  }

  /** On success the attempt is completed and the original row is resolved by it. */
  lemma {:induction false} RecoverySucceeds(w: Work, handled: Store, e: Event, a: Key)
    requires Good(w) && e.kind.Open? && AttemptOk(w.store.rows, RowKey(e), a)
    requires Leaves(Reactivated(w.store, a), handled, OpenRows(e.symbol, e.at)) && AttemptOk(handled.rows, RowKey(e), a)
    requires OpenComplete(handled.rows, e.symbol, e.at)
    ensures var t := Resolved(Finished(handled, a, Completed, None), RowKey(e), a);
            Advances(w, Work(t, w.pending - {RowKey(e)})) && Earned(t.rows, e)
  {
    var k := RowKey(e);
    var finished := Finished(handled, a, Completed, None);
    var t := Resolved(finished, k, a);
    assert Is(finished.rows, a, Completed) && a == Key(Attempt(k.job, a.job.generation), k.at);
    assert OpenComplete(finished.rows, e.symbol, e.at);
    hide Sound;
    hide AllTied;
    hide Reactivated;
    AttemptEnds(handled, a, Completed, None);
    ResolveKeeps(finished, e.symbol, e.at, a);
    SuccessEnds(handled, finished, t, k, a);
    RecoveryEnds(w, handled, t, e, a);
    PhasesStay(handled, t, e.symbol, e.at);
    hide Good;
    hide Leaves;
    hide Finished;
  }

  lemma SuccessEnds(handled: Store, finished: Store, t: Store, k: Key, a: Key)
    requires Sound(t) && AllTied(t) && Keeps(handled, finished) && Keeps(finished, t)
    requires SettlesRow(handled, finished, a) && Settles(finished, t)
    requires Only(handled, finished, {a}) && Only(finished, t, {k})
    ensures Ended(handled, t, k, a)
  {
    hide Sound;
    hide AllTied;
    KeepsTrans(handled, finished, t);
  }

  /** Otherwise the attempt fails, or is set aside to be taken up again. */
  lemma {:induction false} RecoveryStops(w: Work, handled: Store, e: Event, a: Key, status: Status, error: Option<string>)
    requires Good(w) && e.kind.Open? && AttemptOk(w.store.rows, RowKey(e), a) && (status == Failed || status == Skipped)
    requires Leaves(Reactivated(w.store, a), handled, OpenRows(e.symbol, e.at)) && AttemptOk(handled.rows, RowKey(e), a)
    ensures var t := Finished(handled, a, status, error);
            Advances(w, Work(t, w.pending - {RowKey(e)})) && Advances(w, Work(t, w.pending[RowKey(e) := a]))
  {
    var t := Finished(handled, a, status, error);
    assert AttemptOk(t.rows, RowKey(e), a);
    hide Sound;
    hide AllTied;
    hide Reactivated;
    AttemptEnds(handled, a, status, error);
    hide Keeps;
    hide SettlesRow;
    assert Only(handled, t, {a, RowKey(e)});
    hide Only;
    RecoveryEnds(w, handled, t, e, a);
  }

  lemma {:induction false} ConcludeRecoveryKeeps(w: Work, handled: Store, e: Event, a: Key, r: Option<Raised>)
    requires Good(w) && e.kind.Open? && AttemptOk(w.store.rows, RowKey(e), a) && ActiveContext(w, RowKey(e)) == Some(a)
    requires Leaves(Reactivated(w.store, a), handled, OpenRows(e.symbol, e.at)) && AttemptOk(handled.rows, RowKey(e), a)
    requires r.None? ==> OpenComplete(handled.rows, e.symbol, e.at)
    ensures var p := ConcludeRecovery(Remembered(w, RowKey(e)).(store := handled), e, a, r);
            Advances(w, p.work) && (p.outcome.status == Completed ==> Earned(p.work.store.rows, e))
    ensures var rows := ConcludeRecovery(Remembered(w, RowKey(e)).(store := handled), e, a, r).work.store.rows;
            r.None? ==> Is(rows, a, Completed) && (RowKey(e) in handled.rows ==> IsResolved(rows, RowKey(e)))
  {
    var k := RowKey(e);
    var remembered := Remembered(w, k);
    assert remembered.pending == w.pending[k := a];
    assert remembered.pending - {k} == w.pending - {k};
    assert handled.rows[a].recoveryOf.Some? by { assert RowOk(handled, a); }
    if r.None? {
      RecoverySucceeds(w, handled, e, a);
    } else {
      RecoveryStops(w, handled, e, a, Skipped, Some(CodeOf(r.value)));
      RecoveryStops(w, handled, e, a, Failed, Some(CodeOf(r.value)));
    }
    hide Good;
    hide Leaves;
    hide Advances;
    hide Reactivated;
    hide ActiveContext;
    hide OpenComplete;
    hide Earned;
  }

  lemma PhasesStay(s: Store, t: Store, sym: Sym, at: Time)
    requires OpenComplete(s.rows, sym, at) && Keeps(s, t)
    ensures OpenComplete(t.rows, sym, at)
  {
  }

  /* ---------- any event, any batch ---------- */

  lemma AdvancesSelf(w: Work)
    requires Good(w)
    ensures Advances(w, w)
  {
  }

  lemma AdvancesTrans(w: Work, v: Work, u: Work)
    requires Advances(w, v) && Advances(v, u)
    ensures Advances(w, u)
  {
    hide Good;
    KeepsTrans(w.store, v.store, u.store);
  }

  lemma {:induction false} OpenAdvances(w: Work, env: Env, e: Event)
    requires Good(w) && e.kind.Open?
    ensures var p := ProcessOpen(w, env, e);
            Advances(w, p.work) && (p.outcome.status == Completed ==> Earned(p.work.store.rows, e))
  {
    var k, attempt := RowKey(e), ActiveContext(w, RowKey(e));
    assert attempt.Some? ==> AttemptOk(w.store.rows, k, attempt.value) by { if attempt.Some? { ActiveIsAttempt(w, k); } }
    AdvancesSelf(w);
    if attempt.Some? {
      RecoverOpen(w, env, e, attempt.value);
      var step := HandleOpen(Reactivated(w.store, attempt.value), env, e);
      ConcludeRecoveryKeeps(w, step.store, e, attempt.value, step.raised);
    } else if OpenComplete(w.store.rows, e.symbol, e.at) {
      FinishedOpen(w, e);
    } else {
      FreshOpen(w, env, e);
    }
    hide Good;
    hide Advances;
    hide Earned;
    hide HandleOpen;
    hide Reactivated;
    hide Leaves;
    hide AttemptOk;
    hide ConcludeRecovery;
    hide ConcludeOpen;
    hide ActiveContext;
    hide ParentCompleted;
    hide OpenComplete;
    hide Remembered;
  }

  lemma {:induction false} OtherAdvances(w: Work, env: Env, e: Event)
    requires Good(w) && !e.kind.Open?
    ensures var p := ProcessOther(w, env, e);
            Advances(w, p.work) && (p.outcome.status == Completed ==> Earned(p.work.store.rows, e))
  {
    var k := RowKey(e);
    RememberedGood(w, k);
    var v := if PermanentlyFailed(w.store.rows, k) then Remembered(w, k) else w;
    assert Good(v) && v.store == w.store;
    AdvancesSelf(v);
    SameStore(w, v);
    if !Is(v.store.rows, k, Completed) {
      if e.kind.WeekClose? || e.kind.MonthClose? {
        MarkerOther(v, e);
      } else {
        FreshOther(v, env, e);
      }
    }
    hide Good;
    hide Remembered;
    hide ActiveContext;
    hide HandleLive;
    hide HandleClose;
    hide ConcludeOther;
    hide PermanentlyFailed;
    hide Keeps;
    hide Settles;
  }

  lemma SameStore(w: Work, v: Work)
    requires Good(w) && v.store == w.store
    ensures forall u: Work :: Advances(v, u) ==> Advances(w, u)
  {
    hide Good;
    hide Keeps;
    hide Settles;
  }

  /** Processing any event in any circumstances advances the store, and an event that ends completed has
      earned it. */
  lemma {:induction false} EventAdvances(w: Work, env: Env, e: Event)
    requires Good(w)
    ensures var p := Process(w, env, e);
            Advances(w, p.work) && p.outcome.event == e &&
            (ShouldAck(p.outcome) ==> Earned(p.work.store.rows, e))
  {
    hide Good;
    hide Advances;
    hide Earned;
    if e.kind.Open? {
      OpenAdvances(w, env, e);
    } else {
      OtherAdvances(w, env, e);
    }
    OutcomeEvent(w, env, e);
    hide ProcessOpen;
    hide ProcessOther;
  }

  lemma EarnedStays(s: Store, t: Store, e: Event)
    requires Earned(s.rows, e) && Keeps(s, t)
    ensures Earned(t.rows, e)
  {
    if MadeGood(s.rows, RowKey(e)) {
      var n: nat :| Is(s.rows, Key(Attempt(RowKey(e).job, n), RowKey(e).at), Completed);
      assert Is(t.rows, Key(Attempt(RowKey(e).job, n), RowKey(e).at), Completed);
    }
  }

  /** The same for any batch of events: what is acknowledged at the end has been earned in the final store. */
  lemma {:induction false} BatchAdvances(w: Work, items: seq<(Event, Env)>)
    requires Good(w)
    ensures var b := ProcessAll(w, items);
            Advances(w, b.work) && |b.outcomes| == |items| &&
            forall i :: 0 <= i < |items| ==>
              b.outcomes[i].event == items[i].0 && (ShouldAck(b.outcomes[i]) ==> Earned(b.work.store.rows, items[i].0))
  {
    hide Good;
    hide Earned;
    hide Process;
    hide Keeps;
    hide Settles;
    if items == [] {
      AdvancesSelf(w);
    } else {
      var n := |items| - 1;
      BatchAdvances(w, items[..n]);
      var front := ProcessAll(w, items[..n]);
      EventAdvances(front.work, items[n].1, items[n].0);
      var p := Process(front.work, items[n].1, items[n].0);
      AdvancesTrans(w, front.work, p.work);
      forall i | 0 <= i < n && ShouldAck(front.outcomes[i]) ensures Earned(p.work.store.rows, items[i].0) {
        assert items[..n][i] == items[i];
        EarnedStays(front.work.store, p.work.store, items[i].0);
      }
    }
  }
}
