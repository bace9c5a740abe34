/** The market-event bridge: what processing one event does to the store, as functions, and the bridge
    object that does it step by step with savepoints. */
module Bridge {
  import opened Common
  import opened Timeframes
  import opened Scheduler

  datatype Kind = Open | Live | DayClose | WeekClose | MonthClose

  datatype Event = Event(kind: Kind, symbol: Sym, at: Time, low: real)

  function RowKey(e: Event): Key {
    match e.kind
    case Open => Key(OpenParent(e.symbol), e.at)
    case Live => Key(LiveUpdate(e.symbol, e.low), e.at)
    case DayClose => Key(DayClosed(e.symbol), e.at)
    case WeekClose => Key(WeekClosed(e.symbol), e.at)
    case MonthClose => Key(MonthClosed(e.symbol), e.at)
  }

  function GapKey(s: Sym, t: Time): Key { Key(OpenGap(s), t) }

  function FillKey(s: Sym, t: Time): Key { Key(OpenFill(s), t) }

  function SnapKey(s: Sym, t: Time): Key { Key(OpenSnap(s), t) }

  /** A retryable event is exactly a deferred one, so one flag stands for both. */
  datatype Outcome = Outcome(
    event: Event, status: Status, skipped: bool, error: Option<string>, deferred: bool, terminalFailed: bool)

  predicate ShouldAck(o: Outcome) { o.status == Completed && !o.deferred }

  /* ---------- handlers ---------- */

  datatype Step = Step(store: Store, raised: Option<Raised>)

  function ContextRaises(env: Env): Option<Raised> {
    if !env.candle then Some(ContextNotReady) else
    match env.context
    case Ready => None
    case NotReady => Some(ContextNotReady)
    case Misconfigured(code) => Some(PermanentConfiguration(code))
    case Broken(message) => Some(Unexpected(message))
  }

  /** One phase of a daily open: its own row around one scheduler job. */
  function OpenSubjob(s: Store, env: Env, sub: Key, job: Key): (r: Step)
    requires sub != job
    ensures r.raised.None? ==> s.rows.Keys <= r.store.rows.Keys
  {
    if Is(s.rows, sub, Completed) then Step(s, None) else
    var j := RunLocked(Ensured(s, sub), env, job);
    var verdict := Verdict([j.outcome]);
    if verdict == Some(SchedulerDeferred) || (verdict.None? && !IsTerminalSuccess(j.outcome))
    then Step(Released(j.store, sub, SCHEDULER_DEFERRED), Some(SchedulerDeferred))
    else if verdict.Some? then Step(j.store, Some(SequenceFailure(sub, CodeOf(verdict.value))))
    else Step(Finished(j.store, sub, Completed, None), None)
  }

  /** A daily open: the gap stop in one savepoint, then, once due, fill and snapshot together in another. */
  function HandleOpen(s: Store, env: Env, e: Event): (r: Step)
    ensures s.rows.Keys <= r.store.rows.Keys
  {
    if ContextRaises(env).Some? then Step(s, ContextRaises(env)) else
    var gap := OpenSubjob(s, env, GapKey(e.symbol, e.at), Key(StopTrigger, e.at));
    if gap.raised.Some? then Step(s, gap.raised)
    else if !env.fillDue then Step(gap.store, Some(FillNotDue)) else
    var fill := OpenSubjob(gap.store, env, FillKey(e.symbol, e.at), Key(FillProcessing, e.at));
    if fill.raised.Some? then Step(gap.store, fill.raised) else
    var snap := OpenSubjob(fill.store, env, SnapKey(e.symbol, e.at), Key(PortfolioSnapshot, e.at));
    if snap.raised.Some? then Step(gap.store, snap.raised) else Step(snap.store, None)
  }

  function HandleLive(s: Store, env: Env, e: Event): (r: Step)
    ensures s.rows.Keys <= r.store.rows.Keys
  {
    if ContextRaises(env).Some? then Step(s, ContextRaises(env)) else
    var j := RunJob(s, env, Key(IntradayStop, e.at));
    if j.outcome.status == Failed
    then Step(j.store, Some(Unexpected(MessageOr(j.outcome.error, "intraday stop processing failed"))))
    else Step(j.store, Verdict([j.outcome]))
  }

  /** Evaluation, stop update and snapshot, all three whatever becomes of the others. */
  function RunAll(s: Store, env: Env, jobs: seq<Key>): (r: (Store, seq<JobOutcome>))
    ensures s.rows.Keys <= r.0.rows.Keys
    decreases |jobs|
  {
    if jobs == [] then (s, []) else
    var first := RunJob(s, env, jobs[0]);
    var rest := RunAll(first.store, env, jobs[1..]);
    (rest.0, [first.outcome] + rest.1)
  }

  function CloseJobs(at: Time): seq<Key> { [Key(SignalEvaluation, at), Key(StopUpdate, at), Key(PortfolioSnapshot, at)] }

  /** When the candle of an event closes: the stored daily candles all have the close their open calls for. */
  function CloseTime(e: Event): Time { DailyClose(e.at) }

  function HandleClose(s: Store, env: Env, e: Event): (r: Step)
    ensures s.rows.Keys <= r.store.rows.Keys
  {
    if !env.candle then Step(s, Some(ContextNotReady))
    else if !env.evaluationDue then Step(s, Some(EvaluationNotDue))
    else if ContextRaises(env).Some? then Step(s, ContextRaises(env))
    else if !env.lock then Step(s, Some(SchedulerDeferred)) else
    var ran := RunAll(s, env, CloseJobs(CloseTime(e)));
    Step(ran.0, Verdict(ran.1))
  }

  /* ---------- concluding an event ---------- */

  /** The store, and the bridge's memory of which attempt recovers which row. */
  datatype Work = Work(store: Store, pending: map<Key, Key>)

  datatype Processed = Processed(work: Work, outcome: Outcome)

  function Persisted(w: Work, e: Event, skipped: bool): Processed
    requires RowKey(e) in w.store.rows
  {
    var run := w.store.rows[RowKey(e)];
    Processed(w, Outcome(e, run.status, skipped, run.error, false, false))
  }

  function Deferred(w: Work, e: Event, release: Key, code: string): Processed {
    Processed(w.(store := Released(w.store, release, code)), Outcome(e, Skipped, true, Some(code), true, false))
  }

  function Failure(w: Work, e: Event, code: string, terminal: bool): Processed {
    Processed(w, Outcome(e, Failed, false, Some(code), false, terminal))
  }

  /** The failure of a daily open, written down for the parent and for the phase that failed. */
  function Audited(s: Store, parent: Key, sub: Key, message: string): (r: Store)
    ensures parent in r.rows
  {
    var t := Ensured(s, parent);
    var failed := if Is(s.rows, parent, Completed) then s else Finished(t, parent, Failed, Some(message));
    if sub == parent then failed else Finished(Ensured(failed, sub), sub, Failed, Some(message))
  }

  function ConcludeOpen(w: Work, e: Event, r: Option<Raised>): Processed
    requires RowKey(e) in w.store.rows
  {
    var k := RowKey(e);
    if r.None? then Persisted(w.(store := Finished(w.store, k, Completed, None)), e, false) else
    match r.value
    case FillNotDue => Deferred(w, e, k, CodeOf(r.value))
    case ContextNotReady => Deferred(w, e, k, CodeOf(r.value))
    case SchedulerDeferred => Deferred(w, e, k, CodeOf(r.value))
    case PermanentConfiguration(code) => Failure(w.(store := Finished(w.store, k, Failed, Some(code))), e, code, true)
    case SequenceFailure(sub, message) => Persisted(w.(store := Audited(w.store, k, sub, message)), e, false)
    case _ => Persisted(w.(store := Audited(w.store, k, k, CodeOf(r.value))), e, false)
  }

  function ConcludeOther(w: Work, e: Event, r: Option<Raised>): Processed
    requires RowKey(e) in w.store.rows
  {
    var k := RowKey(e);
    if r.None? then Persisted(w.(store := Finished(w.store, k, Completed, None)), e, false) else
    match r.value
    case ContextNotReady => Deferred(w, e, k, CodeOf(r.value))
    case SchedulerDeferred => Deferred(w, e, k, CodeOf(r.value))
    case EvaluationNotDue => Deferred(w, e, k, CodeOf(r.value))
    case PermanentConfiguration(code) => Failure(w.(store := Finished(w.store, k, Failed, Some(code))), e, code, true)
    case _ => Persisted(w.(store := Finished(w.store, k, Failed, Some(CodeOf(r.value)))), e, false)
  }

  /* ---------- recovery of a permanent failure ---------- */

  predicate PermanentlyFailed(rows: map<Key, Run>, k: Key) {
    Is(rows, k, Failed) && IsPermanent(rows[k].error) && rows[k].resolvedBy.None?
  }

  function ActiveContext(w: Work, k: Key): Option<Key> {
    if k in w.pending then Some(w.pending[k])
    else if k in w.store.rows then ActiveAttempt(w.store.rows, k)
    else None
  }

  function Remembered(w: Work, k: Key): Work {
    if ActiveContext(w, k).Some? then w.(pending := w.pending[k := ActiveContext(w, k).value]) else w
  }

  function Reactivated(s: Store, attempt: Key): (r: Store)
    ensures attempt in r.rows && s.rows.Keys <= r.rows.Keys
  {
    if attempt in s.rows && s.rows[attempt].status == Skipped && IsRetryable(s.rows[attempt].error)
    then Finished(s, attempt, Running, None)
    else Ensured(s, attempt)
  }

  function ConcludeRecovery(w: Work, e: Event, attempt: Key, r: Option<Raised>): Processed
    requires attempt in w.store.rows
  {
    var k := RowKey(e);
    var forgotten := w.pending - {k};
    if r.None? then
      Processed(Work(Resolved(Finished(w.store, attempt, Completed, None), k, attempt), forgotten),
                Outcome(e, Completed, false, None, false, false))
    else
      match r.value
      case FillNotDue => Deferred(w, e, attempt, CodeOf(r.value))
      case ContextNotReady => Deferred(w, e, attempt, CodeOf(r.value))
      case SchedulerDeferred => Deferred(w, e, attempt, CodeOf(r.value))
      case _ => Failure(Work(Finished(w.store, attempt, Failed, Some(CodeOf(r.value))), forgotten), e, CodeOf(r.value),
                        r.value.PermanentConfiguration?)
  }

  /* ---------- processing an event ---------- */

  predicate OpenComplete(rows: map<Key, Run>, s: Sym, t: Time) {
    Is(rows, GapKey(s, t), Completed) && Is(rows, FillKey(s, t), Completed) && Is(rows, SnapKey(s, t), Completed)
  }

  function ParentCompleted(s: Store, k: Key): (r: Store)
    ensures k in r.rows
  {
    if Is(s.rows, k, Completed) then s else Finished(Ensured(s, k), k, Completed, None)
  }

  function ShortCircuit(w: Work, e: Event): Processed
    requires RowKey(e) in w.store.rows
  {
    Processed(w, Outcome(e, Failed, true, w.store.rows[RowKey(e)].error, false, true))
  }

  function ProcessOpen(w: Work, env: Env, e: Event): Processed {
    var k, attempt := RowKey(e), ActiveContext(w, RowKey(e));
    if attempt.None? && PermanentlyFailed(w.store.rows, k) then ShortCircuit(w, e)
    else if attempt.Some? then
      var started := Reactivated(w.store, attempt.value);
      var step := HandleOpen(started, env, e);
      ConcludeRecovery(Remembered(w, k).(store := step.store), e, attempt.value, step.raised)
    else if OpenComplete(w.store.rows, e.symbol, e.at) then Persisted(w.(store := ParentCompleted(w.store, k)), e, true)
    else
      var step := HandleOpen(Ensured(w.store, k), env, e);
      ConcludeOpen(w.(store := step.store), e, step.raised)
  }

  function ProcessOther(w: Work, env: Env, e: Event): Processed
    requires !e.kind.Open?
  {
    var k := RowKey(e);
    if PermanentlyFailed(w.store.rows, k) && ActiveContext(w, k).None? then ShortCircuit(w, e) else
    var v := if PermanentlyFailed(w.store.rows, k) then Remembered(w, k) else w;
    if Is(v.store.rows, k, Completed) then Processed(v, Outcome(e, Completed, true, None, false, false)) else
    var started := Ensured(v.store, k);
    if e.kind.WeekClose? || e.kind.MonthClose? then
      Persisted(v.(store := Finished(started, k, Completed, None)), e, k in v.store.rows)
    else
      var step := if e.kind.Live? then HandleLive(started, env, e) else HandleClose(started, env, e);
      ConcludeOther(v.(store := step.store), e, step.raised)
  }

  function Process(w: Work, env: Env, e: Event): Processed {
    if e.kind.Open? then ProcessOpen(w, env, e) else ProcessOther(w, env, e)
  }

  lemma OutcomeEvent(w: Work, env: Env, e: Event)
    ensures Process(w, env, e).outcome.event == e
  {
    hide HandleOpen;
    hide HandleLive;
    hide HandleClose;
    hide ActiveContext;
    hide Reactivated;
    hide Audited;
    hide OpenComplete;
  }

  datatype Batch = Batch(work: Work, outcomes: seq<Outcome>)

  function ProcessAll(w: Work, items: seq<(Event, Env)>): Batch {
    if items == [] then Batch(w, []) else
    var front := ProcessAll(w, items[..|items| - 1]);
    var last := items[|items| - 1];
    var p := Process(front.work, last.1, last.0);
    Batch(p.work, front.outcomes + [p.outcome])
  }
}
