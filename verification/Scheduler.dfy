/** Keyed scheduler runs, the job runner, and the classification of job outcomes. */
module Scheduler {
  import opened Common
  import opened Timeframes

  type Sym = string

  /** What a run is for. A job name carries its parameters, so equal jobs have equal names. The scheduler's
      own jobs name no symbol; the bridge's rows do. */
  datatype Job =
    | StopTrigger | FillProcessing | PortfolioSnapshot | IntradayStop | SignalEvaluation | StopUpdate
    | OpenParent(symbol: Sym) | OpenGap(symbol: Sym) | OpenFill(symbol: Sym) | OpenSnap(symbol: Sym)
    | LiveUpdate(symbol: Sym, low: real) | DayClosed(symbol: Sym) | WeekClosed(symbol: Sym) | MonthClosed(symbol: Sym)
    | Attempt(of: Job, generation: nat)

  datatype Key = Key(job: Job, at: Time)

  datatype Status = Running | Completed | Failed | Skipped

  datatype Run = Run(status: Status, error: Option<string>, recoveryOf: Option<Key>, resolvedBy: Option<Key>)

  /** The store: one row per job and time, and the log of handler successes, which commit and roll back together. */
  datatype Store = Store(rows: map<Key, Run>, done: seq<Key>)

  const PERMANENT_CODES: set<string> := {
    "PERMANENT_CONFIGURATION_FAILURE", "PERMANENT_CONFIGURATION_INVALID_TICK_SIZE",
    "PERMANENT_CONFIGURATION_INVALID_QUANTITY_STEP", "PERMANENT_CONFIGURATION_INVALID_MIN_QUANTITY",
    "PERMANENT_CONFIGURATION_INVALID_MIN_NOTIONAL", "PERMANENT_CONFIGURATION_SYMBOL_MISMATCH",
    "PERMANENT_CONFIGURATION_PRECISION_MISMATCH" }

  const CONTEXT_NOT_READY := "RETRYABLE_CONTEXT_NOT_READY"
  const FILL_NOT_DUE := "FILL_NOT_DUE"
  const SCHEDULER_DEFERRED := "RETRYABLE_SCHEDULER_DEFERRED"
  const EVALUATION_NOT_DUE := "DAILY_EVALUATION_NOT_DUE"

  predicate IsPermanent(error: Option<string>) { error.Some? && error.value in PERMANENT_CODES }

  predicate IsRetryable(error: Option<string>) {
    error.Some? && error.value in {CONTEXT_NOT_READY, FILL_NOT_DUE, SCHEDULER_DEFERRED}
  }

  predicate Is(rows: map<Key, Run>, k: Key, status: Status) { k in rows && rows[k].status == status }

  /* ---------- row operations ---------- */

  /** Insert a running row unless the key has one. */
  function Ensured(s: Store, k: Key): Store {
    if k in s.rows then s else s.(rows := s.rows[k := Run(Running, None, None, None)])
  }

  function Finished(s: Store, k: Key, status: Status, error: Option<string>): Store
    requires k in s.rows
  {
    s.(rows := s.rows[k := s.rows[k].(status := status, error := error)])
  }

  /** Give up a run that is to be retried: an attempt is marked skipped, any other running row disappears. */
  function Released(s: Store, k: Key, code: string): Store {
    if k !in s.rows then s
    else if s.rows[k].recoveryOf.Some? then Finished(s, k, Skipped, Some(code))
    else if s.rows[k].status == Running then s.(rows := s.rows - {k})
    else s
  }

  function Resolved(s: Store, k: Key, attempt: Key): Store {
    if k in s.rows && s.rows[k].resolvedBy.None? then s.(rows := s.rows[k := s.rows[k].(resolvedBy := Some(attempt))]) else s
  }

  predicate IsActive(rows: map<Key, Run>, original: Key, k: Key) {
    && k in rows && rows[k].recoveryOf == Some(original)
    && (rows[k].status == Running || (rows[k].status == Skipped && IsRetryable(rows[k].error)))
  }

  function Attempts(rows: map<Key, Run>, original: Key): set<Key> {
    set k | k in rows && rows[k].recoveryOf == Some(original)
  }

  /** The latest active recovery attempt among the first `n`. */
  function LatestActive(rows: map<Key, Run>, original: Key, n: nat): Option<Key> {
    if n == 0 then None
    else if IsActive(rows, original, Key(Attempt(original.job, n), original.at))
    then Some(Key(Attempt(original.job, n), original.at))
    else LatestActive(rows, original, n - 1)
  }

  function ActiveAttempt(rows: map<Key, Run>, original: Key): Option<Key> {
    LatestActive(rows, original, |Attempts(rows, original)|)
  }

  /** A restart marks every running row as failed. */
  function OrphansFailed(s: Store): Store {
    s.(rows := map k | k in s.rows ::
         if s.rows[k].status == Running then s.rows[k].(status := Failed, error := Some("orphan_run_marked_failed_on_recovery"))
         else s.rows[k])
  }

  /* ---------- running a job ---------- */

  datatype Context = Ready | NotReady | Misconfigured(code: string) | Broken(message: string)

  /** What the outside world does while one event is processed: whether the candle is there, what building the
      context gives, whether the lock is taken, the scheduler enabled and a phase due, and how each handler ends. */
  datatype Env = Env(
    candle: bool, context: Context, lock: bool, enabled: bool, fillDue: bool, evaluationDue: bool,
    handler: Job -> Option<string>)

  datatype JobOutcome = JobOutcome(status: Status, skipped: bool, error: Option<string>)

  datatype JobStep = JobStep(store: Store, outcome: JobOutcome)

  function RunJob(s: Store, env: Env, k: Key): (r: JobStep)
    ensures s.rows.Keys <= r.store.rows.Keys
  {
    if !env.enabled then JobStep(s, JobOutcome(Skipped, true, Some("scheduler_not_ready")))
    else if Is(s.rows, k, Completed) then JobStep(s, JobOutcome(Completed, true, None))
    else if Is(s.rows, k, Running) then JobStep(s, JobOutcome(Skipped, true, Some("already_running")))
    else
      var started := Ensured(s, k);
      var failure := env.handler(k.job);
      if failure.Some? then JobStep(Finished(started, k, Failed, failure), JobOutcome(Failed, false, failure))
      else JobStep(Finished(started, k, Completed, None).(done := s.done + [k]), JobOutcome(Completed, false, None))
  }

  function RunLocked(s: Store, env: Env, k: Key): JobStep {
    if !env.lock then JobStep(s, JobOutcome(Skipped, true, Some("advisory_lock_not_acquired"))) else RunJob(s, env, k)
  }

  /* ---------- outcomes ---------- */

  datatype Raised =
    | ContextNotReady | FillNotDue | EvaluationNotDue | SchedulerDeferred
    | PermanentConfiguration(code: string) | SequenceFailure(subjob: Key, message: string) | Unexpected(message: string)

  function CodeOf(r: Raised): string {
    match r
    case ContextNotReady => CONTEXT_NOT_READY
    case FillNotDue => FILL_NOT_DUE
    case EvaluationNotDue => EVALUATION_NOT_DUE
    case SchedulerDeferred => SCHEDULER_DEFERRED
    case PermanentConfiguration(code) => code
    case SequenceFailure(_, message) => message
    case Unexpected(message) => message
  }

  const RETRYABLE_SKIPS: set<string> := {
    "advisory_lock_not_acquired", "scheduler_not_ready", "already_running", "fill_not_due", "evaluation_not_due" }

  predicate IsRetryableSkip(o: JobOutcome) { o.skipped && o.error.Some? && o.error.value in RETRYABLE_SKIPS }

  predicate IsTerminalSuccess(o: JobOutcome) { o.status == Completed && (!o.skipped || o.error.None?) }

  function MessageOr(error: Option<string>, default: string): string {
    if error.Some? && error.value != "" then error.value else default
  }

  /** The first failed or retryably skipped outcome decides what is raised. */
  function Verdict(outcomes: seq<JobOutcome>): Option<Raised> {
    if outcomes == [] then None
    else if outcomes[0].status == Failed then Some(Unexpected(MessageOr(outcomes[0].error, "scheduler job failed")))
    else if IsRetryableSkip(outcomes[0]) then Some(SchedulerDeferred)
    else Verdict(outcomes[1..])
  }

  method RequireSuccessful(outcomes: seq<JobOutcome>) returns (raised: Option<Raised>)
    ensures raised == Verdict(outcomes)
    ensures raised.None? <==> forall o :: o in outcomes ==> o.status != Failed && !IsRetryableSkip(o)
  {
    for n := 0 to |outcomes|
      invariant Verdict(outcomes) == Verdict(outcomes[n..])
      invariant forall o :: o in outcomes[..n] ==> o.status != Failed && !IsRetryableSkip(o)
    {
      assert outcomes[n..][0] == outcomes[n] && outcomes[n..][1..] == outcomes[n + 1..];
      assert outcomes[n] in outcomes;
      if outcomes[n].status == Failed {
        return Some(Unexpected(MessageOr(outcomes[n].error, "scheduler job failed")));
      }
      if IsRetryableSkip(outcomes[n]) {
        return Some(SchedulerDeferred);
      }
      assert forall o :: o in outcomes[..n + 1] <==> o in outcomes[..n] || o == outcomes[n];
    }
    assert outcomes[..|outcomes|] == outcomes;
    return None;
  }

  /** Of a job that was run, only a completed row is neither failed nor deferred. */
  lemma RunVerdict(s: Store, env: Env, k: Key)
    ensures var j := RunLocked(s, env, k);
            Verdict([j.outcome]).None? <==> Is(j.store.rows, k, Completed) && env.enabled && env.lock
    ensures IsTerminalSuccess(RunLocked(s, env, k).outcome) <==> Verdict([RunLocked(s, env, k).outcome]).None?
  {
    var o := RunLocked(s, env, k).outcome;
    assert [o][1..] == [];
  }

  /* ---------- the repository and the scheduler as objects ---------- */

  class Repository {
    var rows: map<Key, Run>
    var done: seq<Key>

    function Now(): Store
      reads this
    {
      Store(rows, done)
    }

    constructor (s: Store)
      ensures Now() == s
    {
      rows, done := s.rows, s.done;
    }

    method InsertOrGet(k: Key) returns (run: Run, created: bool)
      modifies this
      ensures Now() == Ensured(old(Now()), k) && k in rows && run == rows[k] && created == (k !in old(rows))
    {
      created := k !in rows;
      if created {
        rows := rows[k := Run(Running, None, None, None)];
      }
      run := rows[k];
    }

    method Complete(k: Key, status: Status, error: Option<string>)
      requires k in rows
      modifies this
      ensures Now() == Finished(old(Now()), k, status, error)
    {
      rows := rows[k := rows[k].(status := status, error := error)];
    }

    method Release(k: Key, code: string)
      modifies this
      ensures Now() == Released(old(Now()), k, code)
    {
      if k !in rows {
        return;
      }
      if rows[k].recoveryOf.Some? {
        Complete(k, Skipped, Some(code));
      } else if rows[k].status == Running {
        rows := rows - {k};
      }
    }

    method Reactivate(k: Key)
      requires k in rows
      modifies this
      ensures Now() == Finished(old(Now()), k, Running, None)
    {
      rows := rows[k := rows[k].(status := Running, error := None)];
    }

    method MarkResolved(k: Key, attempt: Key)
      modifies this
      ensures Now() == Resolved(old(Now()), k, attempt)
    {
      if k in rows && rows[k].resolvedBy.None? {
        rows := rows[k := rows[k].(resolvedBy := Some(attempt))];
      }
    }

    /** Leaving a savepoint with an exception. */
    method RollBack(save: Store)
      modifies this
      ensures Now() == save
    {
      rows, done := save.rows, save.done;
    }

    method FailOrphans()
      modifies this
      ensures Now() == OrphansFailed(old(Now()))
    {
      rows := map k | k in rows ::
        if rows[k].status == Running then rows[k].(status := Failed, error := Some("orphan_run_marked_failed_on_recovery"))
        else rows[k];
    }

  }

  class JobScheduler {
    const repo: Repository

    constructor (repo: Repository)
      ensures this.repo == repo
    {
      this.repo := repo;
    }

    /** Run a job for a time unless its row is completed or running. */
    method RunKeyed(env: Env, k: Key) returns (outcome: JobOutcome)
      modifies repo
      ensures JobStep(repo.Now(), outcome) == RunJob(old(repo.Now()), env, k)
    {
      if !env.enabled {
        return JobOutcome(Skipped, true, Some("scheduler_not_ready"));
      }
      if k in repo.rows {
        if repo.rows[k].status == Completed {
          return JobOutcome(Completed, true, None);
        }
        if repo.rows[k].status == Running {
          return JobOutcome(Skipped, true, Some("already_running"));
        }
      }
      var _, _ := repo.InsertOrGet(k);
      var failure := env.handler(k.job);
      if failure.None? {
        repo.done := repo.done + [k];
        repo.Complete(k, Completed, None);
        outcome := JobOutcome(Completed, false, None);
      } else {
        repo.Complete(k, Failed, failure);
        outcome := JobOutcome(Failed, false, failure);
      }
    }

    method RunUnderLock(env: Env, k: Key) returns (outcome: JobOutcome)
      modifies repo
      ensures JobStep(repo.Now(), outcome) == RunLocked(old(repo.Now()), env, k)
    {
      if !env.lock {
        return JobOutcome(Skipped, true, Some("advisory_lock_not_acquired"));
      }
      outcome := RunKeyed(env, k);
    }
  }
}
