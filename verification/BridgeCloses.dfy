/** Daily closes: which jobs one runs, what its acknowledgement means over any history, and what holds an event back. */
module BridgeCloses {
  import opened Common
  import opened Timeframes
  import opened Scheduler
  import opened Bridge
  import opened BridgeSafety
  import opened BridgeRuns
  import opened BridgeFrames
  import opened BridgeSharing
  import opened Detector

  /* ---------- which jobs a close runs ---------- */

  function EvaluationKey(e: Event): Key { Key(SignalEvaluation, DailyClose(e.at)) }

  function UpdateKey(e: Event): Key { Key(StopUpdate, DailyClose(e.at)) }

  function SnapshotKey(e: Event): Key { Key(PortfolioSnapshot, DailyClose(e.at)) }

  /** Nothing outside stands in the way of a close. */
  predicate CloseWilling(env: Env) { env.candle && env.evaluationDue && env.context.Ready? && env.lock && env.enabled }

  lemma ThreeRuns(s: Store, env: Env, e: Event)
    ensures var a := RunJob(s, env, EvaluationKey(e));
            var b := RunJob(a.store, env, UpdateKey(e));
            var c := RunJob(b.store, env, SnapshotKey(e));
            RunAll(s, env, CloseJobs(CloseTime(e))) == (c.store, [a.outcome, b.outcome, c.outcome])
  {
    hide RunJob;
    var jobs := CloseJobs(CloseTime(e));
    var a := RunJob(s, env, EvaluationKey(e));
    var b := RunJob(a.store, env, UpdateKey(e));
    var c := RunJob(b.store, env, SnapshotKey(e));
    var two, one := [UpdateKey(e), SnapshotKey(e)], [SnapshotKey(e)];
    assert jobs[0] == EvaluationKey(e) && jobs[1..] == two && two[1..] == one && one[1..] == [];
    assert RunAll(c.store, env, []) == (c.store, []);
    OneMore(b.store, env, one, c, []);
    assert [c.outcome] + [] == [c.outcome] && RunAll(b.store, env, one) == (c.store, [c.outcome]);
    OneMore(a.store, env, two, b, [c.outcome]);
    assert [b.outcome] + [c.outcome] == [b.outcome, c.outcome];
    assert RunAll(a.store, env, two) == (c.store, [b.outcome, c.outcome]);
    OneMore(s, env, jobs, a, [b.outcome, c.outcome]);
    assert [a.outcome] + [b.outcome, c.outcome] == [a.outcome, b.outcome, c.outcome];
  }

  lemma OneMore(s: Store, env: Env, jobs: seq<Key>, first: JobStep, rest: seq<JobOutcome>)
    requires jobs != [] && first == RunJob(s, env, jobs[0]) && RunAll(first.store, env, jobs[1..]).1 == rest
    ensures RunAll(s, env, jobs) == (RunAll(first.store, env, jobs[1..]).0, [first.outcome] + rest)
  {
    hide RunJob;
  }

  lemma VerdictOfThree(a: JobOutcome, b: JobOutcome, c: JobOutcome)
    ensures Verdict([a, b, c]).None? <==> Verdict([a]).None? && Verdict([b]).None? && Verdict([c]).None?
  {
    assert [a, b, c][1..] == [b, c] && [b, c][1..] == [c] && [a][1..] == [] && [b][1..] == [] && [c][1..] == [];
    assert Verdict([]).None?;
  }

  /** A daily close that meets no obstacle runs exactly those of signal evaluation, stop update and snapshot that have not
      succeeded for its candle's close, in that order. */
  lemma {:induction false} CloseRunsTheMissing(s: Store, env: Env, e: Event)
    requires CloseWilling(env)
    requires Runs(s, env, EvaluationKey(e)) && Runs(s, env, UpdateKey(e)) && Runs(s, env, SnapshotKey(e))
    ensures var r := HandleClose(s, env, e);
            r.raised.None? &&
            r.store.done == s.done + Missing(s, EvaluationKey(e)) + Missing(s, UpdateKey(e)) + Missing(s, SnapshotKey(e)) &&
            Is(r.store.rows, EvaluationKey(e), Completed) && Is(r.store.rows, UpdateKey(e), Completed) &&
            Is(r.store.rows, SnapshotKey(e), Completed)
  {
    hide RunJob;
    hide Verdict;
    hide Missing;
    ThreeRuns(s, env, e);
    var a := RunJob(s, env, EvaluationKey(e));
    RunSucceeds(s, env, EvaluationKey(e));
    OthersSame(s, a.store, {EvaluationKey(e)}, UpdateKey(e));
    OthersSame(s, a.store, {EvaluationKey(e)}, SnapshotKey(e));
    var b := RunJob(a.store, env, UpdateKey(e));
    RunSucceeds(a.store, env, UpdateKey(e));
    OthersSame(a.store, b.store, {UpdateKey(e)}, SnapshotKey(e));
    OthersSame(a.store, b.store, {UpdateKey(e)}, EvaluationKey(e));
    var c := RunJob(b.store, env, SnapshotKey(e));
    RunSucceeds(b.store, env, SnapshotKey(e));
    OthersSame(b.store, c.store, {SnapshotKey(e)}, EvaluationKey(e));
    OthersSame(b.store, c.store, {SnapshotKey(e)}, UpdateKey(e));
    VerdictOfThree(a.outcome, b.outcome, c.outcome);
    hide RunAll;
  }

  /** The job has not succeeded for its time, and its handler fails. */
  predicate Fails(s: Store, env: Env, k: Key) { !Is(s.rows, k, Completed) && env.handler(k.job).Some? }

  /** The success a job adds, if its handler succeeds and it had none. */
  function Earnings(s: Store, env: Env, k: Key): seq<Key> {
    if Is(s.rows, k, Completed) || env.handler(k.job).Some? then [] else [k]
  }

  /** What a failed handler says. */
  function Told(message: Option<string>): string {
    if message.Some? && message.value != "" then message.value else "scheduler job failed"
  }

  lemma RunEarns(s: Store, env: Env, k: Key)
    requires env.enabled && !Is(s.rows, k, Running)
    ensures var j := RunJob(s, env, k);
            j.store.done == s.done + Earnings(s, env, k) && Only(s, j.store, {k}) &&
            Verdict([j.outcome]) == if Fails(s, env, k) then Some(Unexpected(Told(env.handler(k.job)))) else None
  {
    var o := RunJob(s, env, k).outcome;
    assert [o][1..] == [];
    assert Verdict([]).None?;
  }

  lemma FirstVerdict(a: JobOutcome, b: JobOutcome, c: JobOutcome)
    ensures Verdict([a, b, c]) ==
            if Verdict([a]).Some? then Verdict([a]) else if Verdict([b]).Some? then Verdict([b]) else Verdict([c])
  {
    assert [a, b, c][1..] == [b, c] && [b, c][1..] == [c] && [a][1..] == [] && [b][1..] == [] && [c][1..] == [];
    assert Verdict([]).None?;
  }

  lemma OtherJobSame(s: Store, t: Store, env: Env, keys: set<Key>, k: Key)
    requires Only(s, t, keys) && k !in keys
    ensures Earnings(t, env, k) == Earnings(s, env, k) && Fails(t, env, k) == Fails(s, env, k)
    ensures Is(t.rows, k, Running) == Is(s.rows, k, Running)
  {
    OthersSame(s, t, keys, k);
  }

  /** A handler that fails stops none of the three jobs: each that has not succeeded is run, the successes are those of
      the handlers that succeed, and what the close raises is the message of the first that fails. */
  lemma {:induction false} CloseRunsAllThree(s: Store, env: Env, e: Event)
    requires CloseWilling(env)
    requires !Is(s.rows, EvaluationKey(e), Running) && !Is(s.rows, UpdateKey(e), Running) && !Is(s.rows, SnapshotKey(e), Running)
    ensures var r := HandleClose(s, env, e);
            r.store.done ==
              s.done + Earnings(s, env, EvaluationKey(e)) + Earnings(s, env, UpdateKey(e)) + Earnings(s, env, SnapshotKey(e)) &&
            r.raised ==
              if Fails(s, env, EvaluationKey(e)) then Some(Unexpected(Told(env.handler(SignalEvaluation))))
              else if Fails(s, env, UpdateKey(e)) then Some(Unexpected(Told(env.handler(StopUpdate))))
              else if Fails(s, env, SnapshotKey(e)) then Some(Unexpected(Told(env.handler(PortfolioSnapshot))))
              else None
  {
    hide RunJob;
    hide Verdict;
    hide Earnings;
    hide Fails;
    hide Only;
    hide Is;
    hide Told;
    ThreeRuns(s, env, e);
    var a := RunJob(s, env, EvaluationKey(e));
    RunEarns(s, env, EvaluationKey(e));
    OtherJobSame(s, a.store, env, {EvaluationKey(e)}, UpdateKey(e));
    OtherJobSame(s, a.store, env, {EvaluationKey(e)}, SnapshotKey(e));
    var b := RunJob(a.store, env, UpdateKey(e));
    RunEarns(a.store, env, UpdateKey(e));
    OtherJobSame(a.store, b.store, env, {UpdateKey(e)}, SnapshotKey(e));
    var c := RunJob(b.store, env, SnapshotKey(e));
    RunEarns(b.store, env, SnapshotKey(e));
    FirstVerdict(a.outcome, b.outcome, c.outcome);
    hide RunAll;
  }

  /** So an unobstructed close is acknowledged with its three jobs run. */
  lemma {:induction false} CloseIsRun(w: Work, env: Env, e: Event)
    requires e.kind.DayClose? && CloseWilling(env)
    requires !PermanentlyFailed(w.store.rows, RowKey(e)) && !Is(w.store.rows, RowKey(e), Completed)
    requires Runs(w.store, env, EvaluationKey(e)) && Runs(w.store, env, UpdateKey(e)) && Runs(w.store, env, SnapshotKey(e))
    ensures var p := Process(w, env, e);
            ShouldAck(p.outcome) &&
            p.work.store.done == w.store.done + Missing(w.store, EvaluationKey(e)) + Missing(w.store, UpdateKey(e)) +
                                 Missing(w.store, SnapshotKey(e))
  {
    var started := Ensured(w.store, RowKey(e));
    StartedSame(w.store, RowKey(e), EvaluationKey(e));
    StartedSame(w.store, RowKey(e), UpdateKey(e));
    StartedSame(w.store, RowKey(e), SnapshotKey(e));
    CloseRunsTheMissing(started, env, e);
    hide HandleClose;
    hide PermanentlyFailed;
    hide Missing;
    hide Ensured;
  }

  /* ---------- what an acknowledged close has done ---------- */

  predicate CloseRun(rows: map<Key, Run>, at: Time) {
    Is(rows, Key(SignalEvaluation, DailyClose(at)), Completed) && Is(rows, Key(StopUpdate, DailyClose(at)), Completed) &&
    Is(rows, Key(PortfolioSnapshot, DailyClose(at)), Completed)
  }

  ghost predicate ClosesRun(s: Store) {
    forall sym, at: Time :: Is(s.rows, Key(DayClosed(sym), at), Completed) ==> CloseRun(s.rows, at)
  }

  lemma CloseRunStays(s: Store, t: Store, at: Time)
    requires CloseRun(s.rows, at) && Keeps(s, t)
    ensures CloseRun(t.rows, at)
  {
  }

  lemma HandledCloseRuns(s: Store, env: Env, e: Event)
    requires Sound(s) && HandleClose(s, env, e).raised.None?
    ensures CloseRun(HandleClose(s, env, e).store.rows, e.at)
  {
    hide Sound;
    hide RunJob;
    hide Verdict;
    hide AllTied;
    hide Settles;
    ThreeRuns(s, env, e);
    var a := RunJob(s, env, EvaluationKey(e));
    RunJobKeeps(s, env, EvaluationKey(e));
    var b := RunJob(a.store, env, UpdateKey(e));
    RunJobKeeps(a.store, env, UpdateKey(e));
    var c := RunJob(b.store, env, SnapshotKey(e));
    RunJobKeeps(b.store, env, SnapshotKey(e));
    VerdictOfThree(a.outcome, b.outcome, c.outcome);
    hide RunAll;
  }

  lemma ConcludeOtherRows(w: Work, e: Event, r: Option<Raised>)
    requires RowKey(e) in w.store.rows && e.kind.DayClose? && !Is(w.store.rows, RowKey(e), Completed)
    ensures var t := ConcludeOther(w, e, r).work.store;
            (Is(t.rows, RowKey(e), Completed) ==> r.None?) &&
            forall k :: k != RowKey(e) && Is(w.store.rows, k, Completed) ==> Is(t.rows, k, Completed)
  {
  }

  /** Processing a close that leaves its row completed leaves its three jobs completed. */
  lemma {:induction false} OwnCloseRuns(w: Work, env: Env, e: Event)
    requires Good(w) && ClosesRun(w.store) && e.kind.DayClose? && Is(Process(w, env, e).work.store.rows, RowKey(e), Completed)
    ensures CloseRun(Process(w, env, e).work.store.rows, e.at)
  {
    var k := RowKey(e);
    EventAdvances(w, env, e);
    if Is(w.store.rows, k, Completed) {
      CloseRunStays(w.store, Process(w, env, e).work.store, e.at);
    } else {
      var v := if PermanentlyFailed(w.store.rows, k) then Remembered(w, k) else w;
      var started := Ensured(w.store, k);
      EnsuredKeeps(w.store, k);
      HandleCloseKeeps(started, env, e);
      var step := HandleClose(started, env, e);
      RowUntouched(w.store, step.store, e, CloseRows(CloseTime(e)));
      assert v.store == w.store;
      OtherCases(w, v, env, e);
      ConcludeOtherRows(v.(store := step.store), e, step.raised);
      if step.raised.None? {
        HandledCloseRuns(started, env, e);
      }
      ProcessCloseIs(w, v, env, e);
      hide HandleClose;
      hide ConcludeOther;
    }
    hide Good;
    hide Sound;
    hide AllTied;
    hide Process;
    hide Remembered;
    hide PermanentlyFailed;
    hide Ensured;
    hide Leaves;
    hide CloseRows;
  }

  lemma ProcessCloseIs(w: Work, v: Work, env: Env, e: Event)
    requires e.kind.DayClose? && v == if PermanentlyFailed(w.store.rows, RowKey(e)) then Remembered(w, RowKey(e)) else w
    requires v.store == w.store && !Is(w.store.rows, RowKey(e), Completed)
    ensures var step := HandleClose(Ensured(w.store, RowKey(e)), env, e);
            var t := Process(w, env, e).work;
            t == w || t == ConcludeOther(v.(store := step.store), e, step.raised).work
  {
    hide HandleClose;
    hide Remembered;
    hide ActiveContext;
    hide PermanentlyFailed;
    hide ConcludeOther;
    hide Ensured;
  }

  lemma {:induction false} EventKeepsCloses(w: Work, env: Env, e: Event)
    requires Good(w) && ClosesRun(w.store)
    ensures ClosesRun(Process(w, env, e).work.store)
  {
    var t := Process(w, env, e).work.store;
    EventAdvances(w, env, e);
    forall sym, at: Time | Is(t.rows, Key(DayClosed(sym), at), Completed) ensures CloseRun(t.rows, at) {
      var k := Key(DayClosed(sym), at);
      if k == RowKey(e) {
        OwnCloseRuns(w, env, e);
      } else {
        if e.kind.Open? {
          OpenFrame(w, env, e, k);
        } else {
          OtherFrame(w, env, e, k);
        }
        assert Belongs(k, k);
        assert Is(w.store.rows, k, Completed);
        CloseRunStays(w.store, t, at);
      }
    }
    hide Good;
    hide Keeps;
    hide ProcessOpen;
    hide ProcessOther;
    hide CloseRun;
  }

  lemma {:induction false} BatchKeepsCloses(w: Work, items: seq<(Event, Env)>)
    requires Good(w) && ClosesRun(w.store)
    ensures ClosesRun(ProcessAll(w, items).work.store)
  {
    hide Good;
    hide ClosesRun;
    hide Process;
    if items != [] {
      var n := |items| - 1;
      BatchKeepsCloses(w, items[..n]);
      BatchAdvances(w, items[..n]);
      EventKeepsCloses(ProcessAll(w, items[..n]).work, items[n].1, items[n].0);
    }
  }

  lemma {:induction false} MoveKeepsCloses(y: System, m: Move)
    requires Safe(y) && Enabled(y, m) && ClosesRun(y.committed)
    ensures ClosesRun(Apply(y, m).committed)
  {
    match m {
      case Commit(items) => BatchKeepsCloses(Work(y.committed, y.pending), items);
      case Abort(_) =>
      case Restart(failOrphans) => RestartKeepsCloses(y.committed);
      case Recover(e) => RecoverKeepsCloses(y, e);
    }
    hide Good;
    hide AttemptsNumbered;
    hide AcksHold;
    hide ProcessAll;
    hide ClosesRun;
    hide OrphansFailed;
  }

  lemma RestartKeepsCloses(s: Store)
    requires ClosesRun(s)
    ensures ClosesRun(OrphansFailed(s))
  {
    forall sym, at: Time | Is(OrphansFailed(s).rows, Key(DayClosed(sym), at), Completed)
      ensures CloseRun(OrphansFailed(s).rows, at)
    {
      assert Is(s.rows, Key(DayClosed(sym), at), Completed);
      assert CloseRun(s.rows, at);
    }
  }

  lemma RecoverKeepsCloses(y: System, e: Event)
    requires ClosesRun(y.committed)
    ensures ClosesRun(Apply(y, Recover(e)).committed)
  {
    var z := Apply(y, Recover(e)).committed;
    forall sym, at: Time | Is(z.rows, Key(DayClosed(sym), at), Completed) ensures CloseRun(z.rows, at) {
      assert Is(y.committed.rows, Key(DayClosed(sym), at), Completed);
      assert CloseRun(y.committed.rows, at);
    }
  }

  lemma {:induction false} HistoryKeepsCloses(moves: seq<Move>)
    requires Possible(Start(), moves)
    ensures ClosesRun(After(Start(), moves).committed)
  {
    hide Safe;
    hide Possible;
    hide Enabled;
    hide Apply;
    if moves != [] {
      var front := moves[..|moves| - 1];
      LastIsEnabled(Start(), moves);
      HistoryKeepsCloses(front);
      StartSafe();
      HistorySafe(Start(), front);
      hide ClosesRun;
      MoveKeepsCloses(After(Start(), front), moves[|moves| - 1]);
    }
  }

  /** After any history, a daily close the tracker has acknowledged has signal evaluation, stop update and snapshot completed
      in the committed store for its candle's close, each with exactly one success. */
  lemma {:induction false} AcknowledgedClosesAreComplete(moves: seq<Move>, symbol: Sym)
    requires Possible(Start(), moves)
    ensures var y := After(Start(), moves);
            symbol in y.trackers && y.trackers[symbol].dayAck.Some? ==>
              var close := DailyClose(y.trackers[symbol].dayAck.value);
              forall job :: job == SignalEvaluation || job == StopUpdate || job == PortfolioSnapshot ==>
                Is(y.committed.rows, Key(job, close), Completed) && multiset(y.committed.done)[Key(job, close)] == 1
  {
    StartSafe();
    HistorySafe(Start(), moves);
    HistoryKeepsCloses(moves);
    var y := After(Start(), moves);
    if symbol in y.trackers && y.trackers[symbol].dayAck.Some? {
      var at := y.trackers[symbol].dayAck.value;
      assert Passed(y.trackers[symbol], y.committed.rows, symbol);
      assert CloseRun(y.committed.rows, at);
      assert RowOk(y.committed, Key(SignalEvaluation, DailyClose(at))) && RowOk(y.committed, Key(StopUpdate, DailyClose(at)));
      assert RowOk(y.committed, Key(PortfolioSnapshot, DailyClose(at)));
    }
  }
}
