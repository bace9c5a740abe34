/** What processing one event leaves alone: the row, the attempts and the memory of every other event. */
module BridgeFrames {
  import opened Common
  import opened Timeframes
  import opened Scheduler
  import opened Bridge
  import opened BridgeSafety
  import opened BridgeRuns

  predicate IsEventJob(j: Job) { j.OpenParent? || j.LiveUpdate? || j.DayClosed? || j.WeekClosed? || j.MonthClosed? }

  /** The row of an event, and the attempts at it. */
  predicate Belongs(x: Key, k: Key) { x == k || (x.job.Attempt? && Key(x.job.of, x.at) == k) }

  ghost predicate SameAt(s: Store, t: Store, k: Key) {
    forall x :: Belongs(x, k) ==> (x in s.rows <==> x in t.rows) && (x in s.rows ==> t.rows[x] == s.rows[x])
  }

  predicate SameMemory(w: Work, v: Work, k: Key) {
    (k in w.pending <==> k in v.pending) && (k in w.pending ==> v.pending[k] == w.pending[k])
  }

  lemma SameAtTrans(s: Store, t: Store, u: Store, k: Key)
    requires SameAt(s, t, k) && SameAt(t, u, k)
    ensures SameAt(s, u, k)
  {
  }

  lemma OnlySame(s: Store, t: Store, keys: set<Key>, k: Key)
    requires Only(s, t, keys) && forall x :: x in keys ==> !Belongs(x, k)
    ensures SameAt(s, t, k)
  {
  }

  lemma StartSame(s: Store, x: Key, k: Key)
    requires !Belongs(x, k)
    ensures SameAt(s, Ensured(s, x), k) && SameAt(s, Reactivated(s, x), k) && SameAt(s, ParentCompleted(s, x), k)
    ensures SameAt(s, Finished(Ensured(s, x), x, Completed, None), k)
  {
  }

  lemma HandleOpenSame(s: Store, env: Env, e: Event, k: Key)
    requires Sound(s) && AllTied(s) && IsEventJob(k.job)
    ensures SameAt(s, HandleOpen(s, env, e).store, k) && PhaseFailed(HandleOpen(s, env, e), e.symbol, e.at)
  {
    HandleOpenKeeps(s, env, e);
    hide HandleOpen;
    hide Sound;
    hide AllTied;
    hide Keeps;
    hide Settles;
    OnlySame(s, HandleOpen(s, env, e).store, OpenRows(e.symbol, e.at), k);
  }

  lemma HandleOtherSame(s: Store, env: Env, e: Event, k: Key)
    requires Sound(s) && AllTied(s) && IsEventJob(k.job)
    ensures SameAt(s, HandleLive(s, env, e).store, k) && SameAt(s, HandleClose(s, env, e).store, k)
  {
    HandleLiveKeeps(s, env, e);
    HandleCloseKeeps(s, env, e);
    hide HandleLive;
    hide HandleClose;
    hide Sound;
    hide AllTied;
    hide Keeps;
    hide Settles;
    OnlySame(s, HandleLive(s, env, e).store, {Key(IntradayStop, e.at)}, k);
    OnlySame(s, HandleClose(s, env, e).store, CloseRows(CloseTime(e)), k);
  }

  lemma AuditSame(s: Store, parent: Key, sub: Key, message: string, k: Key)
    requires !Belongs(parent, k) && !Belongs(sub, k)
    ensures SameAt(s, Audited(s, parent, sub, message), k)
  {
  }

  lemma EndSame(s: Store, x: Key, status: Status, error: Option<string>, code: string, k: Key)
    requires !Belongs(x, k) && x in s.rows
    ensures SameAt(s, Finished(s, x, status, error), k) && SameAt(s, Released(s, x, code), k)
  {
  }

  lemma ConcludeOpenSame(w: Work, e: Event, r: Option<Raised>, k: Key)
    requires e.kind.Open? && RowKey(e) in w.store.rows && PhaseFailed(Step(w.store, r), e.symbol, e.at)
    requires IsEventJob(k.job) && RowKey(e) != k
    ensures var v := ConcludeOpen(w, e, r).work; SameAt(w.store, v.store, k) && v.pending == w.pending
  {
    var x := RowKey(e);
    EndSame(w.store, x, Completed, None, "", k);
    if r.Some? {
      EndSame(w.store, x, Failed, Some(CodeOf(r.value)), CodeOf(r.value), k);
      AuditSame(w.store, x, x, CodeOf(r.value), k);
      if r.value.SequenceFailure? {
        AuditSame(w.store, x, r.value.subjob, r.value.message, k);
      }
    }
    hide SameAt;
    hide Finished;
    hide Released;
    hide Audited;
  }

  lemma ConcludeOtherSame(w: Work, e: Event, r: Option<Raised>, k: Key)
    requires RowKey(e) in w.store.rows && IsEventJob(k.job) && RowKey(e) != k
    ensures var v := ConcludeOther(w, e, r).work; SameAt(w.store, v.store, k) && v.pending == w.pending
  {
    var x := RowKey(e);
    EndSame(w.store, x, Completed, None, "", k);
    if r.Some? {
      EndSame(w.store, x, Failed, Some(CodeOf(r.value)), CodeOf(r.value), k);
    }
    hide SameAt;
    hide Finished;
    hide Released;
  }

  lemma ConcludeRecoverySame(w: Work, e: Event, a: Key, r: Option<Raised>, k: Key)
    requires a in w.store.rows && !Belongs(a, k) && IsEventJob(k.job) && RowKey(e) != k
    ensures var v := ConcludeRecovery(w, e, a, r).work; SameAt(w.store, v.store, k) && SameMemory(w, v, k)
  {
    EndSame(w.store, a, Completed, None, "", k);
    if r.Some? {
      EndSame(w.store, a, Failed, Some(CodeOf(r.value)), CodeOf(r.value), k);
    } else {
      ResolvedSame(Finished(w.store, a, Completed, None), RowKey(e), a, k);
      SameAtTrans(w.store, Finished(w.store, a, Completed, None),
                  Resolved(Finished(w.store, a, Completed, None), RowKey(e), a), k);
    }
    hide SameAt;
    hide Finished;
    hide Released;
    hide Resolved;
  }

  lemma ResolvedSame(s: Store, x: Key, attempt: Key, k: Key)
    requires !Belongs(x, k)
    ensures SameAt(s, Resolved(s, x, attempt), k)
  {
  }

  lemma RememberedSame(w: Work, x: Key, k: Key)
    requires x != k
    ensures Remembered(w, x).store == w.store && SameMemory(w, Remembered(w, x), k)
  {
    hide ActiveContext;
  }

  lemma NotAnothers(w: Work, x: Key, k: Key)
    requires PendingOk(w) && ActiveContext(w, x).Some? && x != k && IsEventJob(k.job)
    ensures var a := ActiveContext(w, x).value; AttemptOk(w.store.rows, x, a) && !Belongs(a, k)
  {
    ActiveIsAttempt(w, x);
    hide ActiveContext;
  }

  lemma RecoveryFrame(w: Work, env: Env, e: Event, a: Key, k: Key)
    requires Good(w) && e.kind.Open? && IsEventJob(k.job) && RowKey(e) != k && ActiveContext(w, RowKey(e)) == Some(a)
    ensures var step := HandleOpen(Reactivated(w.store, a), env, e);
            a in step.store.rows &&
            var v := ConcludeRecovery(Remembered(w, RowKey(e)).(store := step.store), e, a, step.raised).work;
            SameAt(w.store, v.store, k) && SameMemory(w, v, k)
  {
    var x := RowKey(e);
    RememberedSame(w, x, k);
    NotAnothers(w, x, k);
    RecoverOpen(w, env, e, a);
    StartSame(w.store, a, k);
    var started := Reactivated(w.store, a);
    var step := HandleOpen(started, env, e);
    HandleOpenSame(started, env, e, k);
    SameAtTrans(w.store, started, step.store, k);
    var r := Remembered(w, x).(store := step.store);
    ConcludeRecoverySame(r, e, a, step.raised, k);
    SameAtTrans(w.store, step.store, ConcludeRecovery(r, e, a, step.raised).work.store, k);
    hide Good;
    hide Sound;
    hide AllTied;
    hide SameAt;
    hide HandleOpen;
    hide Reactivated;
    hide Leaves;
    hide ConcludeRecovery;
    hide ActiveContext;
    hide OpenComplete;
    hide Remembered;
  }

  lemma FreshFrame(w: Work, env: Env, e: Event, k: Key)
    requires Good(w) && e.kind.Open? && IsEventJob(k.job) && RowKey(e) != k
    ensures var step := HandleOpen(Ensured(w.store, RowKey(e)), env, e);
            var v := ConcludeOpen(w.(store := step.store), e, step.raised).work;
            SameAt(w.store, v.store, k) && SameMemory(w, v, k)
  {
    var x := RowKey(e);
    StartSame(w.store, x, k);
    EnsuredKeeps(w.store, x);
    var started := Ensured(w.store, x);
    var step := HandleOpen(started, env, e);
    HandleOpenSame(started, env, e, k);
    SameAtTrans(w.store, started, step.store, k);
    ConcludeOpenSame(w.(store := step.store), e, step.raised, k);
    SameAtTrans(w.store, step.store, ConcludeOpen(w.(store := step.store), e, step.raised).work.store, k);
    hide Good;
    hide Sound;
    hide AllTied;
    hide SameAt;
    hide HandleOpen;
    hide ConcludeOpen;
    hide PhaseFailed;
  }

  lemma {:induction false} OpenFrame(w: Work, env: Env, e: Event, k: Key)
    requires Good(w) && e.kind.Open? && IsEventJob(k.job) && RowKey(e) != k
    ensures var v := ProcessOpen(w, env, e).work; SameAt(w.store, v.store, k) && SameMemory(w, v, k)
  {
    var x, attempt := RowKey(e), ActiveContext(w, RowKey(e));
    StartSame(w.store, x, k);
    SelfSame(w.store, k);
    if attempt.Some? {
      RecoveryFrame(w, env, e, attempt.value, k);
    } else {
      FreshFrame(w, env, e, k);
    }
    hide Good;
    hide SameAt;
    hide HandleOpen;
    hide Reactivated;
    hide ConcludeRecovery;
    hide ConcludeOpen;
    hide ActiveContext;
    hide ParentCompleted;
    hide OpenComplete;
    hide Remembered;
    hide Ensured;
  }

  lemma SelfSame(s: Store, k: Key)
    ensures SameAt(s, s, k)
  {
  }

  lemma HandledFrame(w: Work, v: Work, env: Env, e: Event, k: Key)
    requires Good(w) && !e.kind.Open? && IsEventJob(k.job) && RowKey(e) != k
    requires v.store == w.store && SameMemory(w, v, k)
    ensures var started := Ensured(w.store, RowKey(e));
            var step := if e.kind.Live? then HandleLive(started, env, e) else HandleClose(started, env, e);
            var u := ConcludeOther(v.(store := step.store), e, step.raised).work;
            SameAt(w.store, u.store, k) && SameMemory(w, u, k)
  {
    var x := RowKey(e);
    StartSame(w.store, x, k);
    EnsuredKeeps(w.store, x);
    var started := Ensured(w.store, x);
    HandleOtherSame(started, env, e, k);
    var step := if e.kind.Live? then HandleLive(started, env, e) else HandleClose(started, env, e);
    SameAtTrans(w.store, started, step.store, k);
    ConcludeOtherSame(v.(store := step.store), e, step.raised, k);
    SameAtTrans(w.store, step.store, ConcludeOther(v.(store := step.store), e, step.raised).work.store, k);
    hide Good;
    hide Sound;
    hide AllTied;
    hide SameAt;
    hide HandleLive;
    hide HandleClose;
    hide ConcludeOther;
  }

  /** What processing anything but a daily open can leave. */
  lemma OtherCases(w: Work, v: Work, env: Env, e: Event)
    requires !e.kind.Open? && v == if PermanentlyFailed(w.store.rows, RowKey(e)) then Remembered(w, RowKey(e)) else w
    ensures var started := Ensured(v.store, RowKey(e));
            var step := if e.kind.Live? then HandleLive(started, env, e) else HandleClose(started, env, e);
            var u := ProcessOther(w, env, e).work;
            u == w || u == v || u == v.(store := Finished(started, RowKey(e), Completed, None)) ||
            u == ConcludeOther(v.(store := step.store), e, step.raised).work
  {
    hide RowKey;
    hide Finished;
    hide Ensured;
    hide Remembered;
    hide ActiveContext;
    hide HandleLive;
    hide HandleClose;
    hide ConcludeOther;
    hide PermanentlyFailed;
  }

  lemma {:induction false} OtherFrame(w: Work, env: Env, e: Event, k: Key)
    requires Good(w) && !e.kind.Open? && IsEventJob(k.job) && RowKey(e) != k
    ensures var v := ProcessOther(w, env, e).work; SameAt(w.store, v.store, k) && SameMemory(w, v, k)
  {
    var x := RowKey(e);
    StartSame(w.store, x, k);
    RememberedSame(w, x, k);
    SelfSame(w.store, k);
    var v := if PermanentlyFailed(w.store.rows, x) then Remembered(w, x) else w;
    assert v.store == w.store && SameMemory(w, v, k);
    HandledFrame(w, v, env, e, k);
    OtherCases(w, v, env, e);
    hide Good;
    hide SameAt;
    hide ProcessOther;
    hide Ensured;
    hide Remembered;
    hide HandleLive;
    hide HandleClose;
    hide ConcludeOther;
    hide PermanentlyFailed;
  }

  /* ---------- what is decided by it ---------- */

  ghost predicate SameContext(w: Work, v: Work, k: Key) { SameAt(w.store, v.store, k) && SameMemory(w, v, k) }

  lemma {:induction false} LatestSame(s: Store, t: Store, k: Key, n: nat)
    requires SameAt(s, t, k)
    ensures LatestActive(t.rows, k, n) == LatestActive(s.rows, k, n)
  {
    if n > 0 {
      LatestSame(s, t, k, n - 1);
      assert Belongs(Key(Attempt(k.job, n), k.at), k);
    }
  }

  lemma AttemptsSame(s: Store, t: Store, k: Key)
    requires Sound(s) && Sound(t) && SameAt(s, t, k)
    ensures Attempts(t.rows, k) == Attempts(s.rows, k)
  {
    forall x ensures x in Attempts(t.rows, k) <==> x in Attempts(s.rows, k) {
      assert RowOk(s, x) && RowOk(t, x);
    }
  }

  /** The attempt an event at the row would take up is the same. */
  lemma ContextSame(w: Work, v: Work, k: Key)
    requires Sound(w.store) && Sound(v.store) && SameContext(w, v, k)
    ensures ActiveContext(v, k) == ActiveContext(w, k)
  {
    AttemptsSame(w.store, v.store, k);
    LatestSame(w.store, v.store, k, |Attempts(w.store.rows, k)|);
    assert Belongs(k, k);
    hide Sound;
  }

  /** The events of a poll from the `n`-th on leave alone what belongs to a row none of them is at. */
  lemma {:induction false} PollFrame(w: Work, items: seq<(Event, Env)>, n: nat, k: Key)
    requires Good(w) && IsEventJob(k.job) && n <= |items| && forall i :: n <= i < |items| ==> RowKey(items[i].0) != k
    ensures var before, after := ProcessAll(w, items[..n]).work, ProcessAll(w, items).work;
            Good(before) && Good(after) && SameContext(before, after, k)
  {
    hide Good;
    hide ProcessOpen;
    hide ProcessOther;
    hide SameAt;
    BatchAdvances(w, items);
    BatchAdvances(w, items[..n]);
    if n == |items| {
      assert items[..n] == items;
      SelfSame(ProcessAll(w, items).work.store, k);
    } else {
      var m := |items| - 1;
      var front := ProcessAll(w, items[..m]).work;
      assert items[..m][..n] == items[..n];
      PollFrame(w, items[..m], n, k);
      if items[m].0.kind.Open? {
        OpenFrame(front, items[m].1, items[m].0, k);
      } else {
        OtherFrame(front, items[m].1, items[m].0, k);
      }
      SameAtTrans(ProcessAll(w, items[..n]).work.store, front.store, ProcessAll(w, items).work.store, k);
    }
  }

  /** No two events of the poll are at one row. */
  predicate Apart(items: seq<(Event, Env)>) {
    forall i, j :: 0 <= i < j < |items| ==> RowKey(items[i].0) != RowKey(items[j].0)
  }

  /* ---------- giving up on a live update, seen before the poll ---------- */

  /** No other event of the poll is at the row of one of its live updates. */
  predicate LiveRowsDistinct(items: seq<(Event, Env)>) {
    forall i, j :: 0 <= i < j < |items| && items[j].0.kind.Live? ==> RowKey(items[i].0) != RowKey(items[j].0)
  }

  /** Some live update of the poll finds, in the store the poll starts from, a permanent failure nobody recovers at its
      row, or its row not completed and its symbol misconfigured. */
  predicate HoldsBadLive(w: Work, items: seq<(Event, Env)>) {
    exists i :: 0 <= i < |items| && items[i].0.kind.Live? && LiveGivenUp(w, items[i].1, items[i].0)
  }

  lemma LiveDecidedBefore(w: Work, items: seq<(Event, Env)>, j: nat)
    requires Good(w) && LiveRowsDistinct(items) && j < |items| && items[j].0.kind.Live?
    ensures LiveGivenUp(ProcessAll(w, items[..j]).work, items[j].1, items[j].0) <==> LiveGivenUp(w, items[j].1, items[j].0)
  {
    var k, front := RowKey(items[j].0), items[..j];
    forall i | 0 <= i < |front| ensures RowKey(front[i].0) != k {
      assert front[i] == items[i];
    }
    PollFrame(w, front, 0, k);
    assert front[..0] == [] && ProcessAll(w, []).work == w;
    ContextSame(w, ProcessAll(w, front).work, k);
    assert Belongs(k, k);
    hide Sound;
    hide AllTied;
    hide PendingOk;
    hide ProcessAll;
    hide ActiveContext;
  }

  /** What is met at its turn is what was held before the poll. */
  lemma {:induction false} MeetsIffHolds(w: Work, items: seq<(Event, Env)>)
    requires Good(w) && LiveRowsDistinct(items)
    ensures MeetsBadLive(w, items) <==> HoldsBadLive(w, items)
  {
    forall i | 0 <= i < |items| && items[i].0.kind.Live?
      ensures LiveGivenUp(ProcessAll(w, items[..i]).work, items[i].1, items[i].0) <==> LiveGivenUp(w, items[i].1, items[i].0)
    {
      LiveDecidedBefore(w, items, i);
    }
    hide LiveGivenUp;
    hide ProcessAll;
    hide Good;
  }

  /** A committed poll whose live updates have rows of their own raises after its commit exactly if, before the poll, one
      of them is to be given up on. */
  lemma {:induction false} PollRaisesIffBefore(w: Work, items: seq<(Event, Env)>)
    requires Good(w) && LiveRowsDistinct(items)
    ensures HasLive(ToGiveUp(ProcessAll(w, items).outcomes)) <==> HoldsBadLive(w, items)
  {
    PollRaisesIff(w, items);
    MeetsIffHolds(w, items);
    hide HoldsBadLive;
    hide MeetsBadLive;
    hide ProcessAll;
    hide Good;
    hide HasLive;
    hide ToGiveUp;
  }
}
