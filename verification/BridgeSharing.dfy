/** The scheduler's own jobs are keyed by time alone, so events of different symbols, and different live
    updates of one day, share them. What that means for which handlers run. */
module BridgeSharing {
  import opened Common
  import opened Timeframes
  import opened Scheduler
  import opened Bridge
  import opened BridgeSafety
  import Stops

  /** Nothing outside stands in the way. */
  predicate Willing(env: Env) {
    env.candle && env.context.Ready? && env.lock && env.enabled && env.fillDue
  }

  /** The handler succeeds, and the job is not already under way. */
  predicate Runs(s: Store, env: Env, k: Key) { env.handler(k.job).None? && !Is(s.rows, k, Running) }

  /** The job, if it has not succeeded for its time yet. */
  function Missing(s: Store, k: Key): seq<Key> { if Is(s.rows, k, Completed) then [] else [k] }

  lemma RunSucceeds(s: Store, env: Env, k: Key)
    requires env.enabled && Runs(s, env, k)
    ensures var j := RunJob(s, env, k);
            j.outcome.status == Completed && Verdict([j.outcome]).None? && IsTerminalSuccess(j.outcome) &&
            j.store.done == s.done + Missing(s, k) && Only(s, j.store, {k}) && Is(j.store.rows, k, Completed)
  {
    var o := RunJob(s, env, k).outcome;
    assert [o][1..] == [];
    assert Verdict([]).None?;
  }

  lemma StartedSame(s: Store, k: Key, j: Key)
    requires k != j
    ensures Missing(Ensured(s, k), j) == Missing(s, j) && Is(Ensured(s, k).rows, j, Running) == Is(s.rows, j, Running)
    ensures Ensured(s, k).done == s.done && Only(s, Ensured(s, k), {k})
  {
  }

  lemma SubjobRuns(s: Store, env: Env, sub: Key, job: Key)
    requires sub != job && env.lock && env.enabled && Runs(s, env, job)
    requires Is(s.rows, sub, Completed) ==> Is(s.rows, job, Completed)
    ensures var r := OpenSubjob(s, env, sub, job);
            r.raised.None? && r.store.done == s.done + Missing(s, job) && Only(s, r.store, {sub, job})
  {
    StartedSame(s, sub, job);
    RunSucceeds(Ensured(s, sub), env, job);
    hide RunJob;
    hide Verdict;
  }

  lemma OthersSame(s: Store, t: Store, keys: set<Key>, k: Key)
    requires Only(s, t, keys) && k !in keys
    ensures k in s.rows ==> k in t.rows && t.rows[k] == s.rows[k]
    ensures k in t.rows ==> k in s.rows
    ensures Missing(t, k) == Missing(s, k) && Is(t.rows, k, Running) == Is(s.rows, k, Running)
  {
  }

  /** A daily open, once nothing stands in its way, runs exactly those of the stop, fill and snapshot jobs
      that have not succeeded for its time, whichever symbol they were run for. */
  lemma {:induction false} OpenRunsTheMissing(s: Store, env: Env, e: Event)
    requires Sound(s) && Willing(env)
    requires Runs(s, env, Key(StopTrigger, e.at)) && Runs(s, env, Key(FillProcessing, e.at)) &&
             Runs(s, env, Key(PortfolioSnapshot, e.at))
    ensures var r := HandleOpen(s, env, e);
            r.raised.None? &&
            r.store.done == s.done + Missing(s, Key(StopTrigger, e.at)) + Missing(s, Key(FillProcessing, e.at)) +
                            Missing(s, Key(PortfolioSnapshot, e.at))
  {
    var stop, fill, snap := Key(StopTrigger, e.at), Key(FillProcessing, e.at), Key(PortfolioSnapshot, e.at);
    var gapRow, fillRow, snapRow := GapKey(e.symbol, e.at), FillKey(e.symbol, e.at), SnapKey(e.symbol, e.at);
    assert OpenOk(s.rows, e.symbol, e.at);
    assert (Is(s.rows, gapRow, Completed) ==> Is(s.rows, stop, Completed)) &&
           (Is(s.rows, fillRow, Completed) ==> Is(s.rows, fill, Completed));
    assert Is(s.rows, snapRow, Completed) ==> Is(s.rows, snap, Completed);
    hide Sound;
    hide OpenSubjob;
    hide OpenOk;
    hide Only;
    hide Missing;
    var a := OpenSubjob(s, env, gapRow, stop).store;
    SubjobRuns(s, env, gapRow, stop);
    OthersSame(s, a, {gapRow, stop}, fill);
    OthersSame(s, a, {gapRow, stop}, snap);
    OthersSame(s, a, {gapRow, stop}, fillRow);
    OthersSame(s, a, {gapRow, stop}, snapRow);
    var b := OpenSubjob(a, env, fillRow, fill).store;
    SubjobRuns(a, env, fillRow, fill);
    OthersSame(a, b, {fillRow, fill}, snap);
    OthersSame(a, b, {fillRow, fill}, snapRow);
    SubjobRuns(b, env, snapRow, snap);
  }

  lemma FreshSucceeds(w: Work, env: Env, e: Event)
    requires e.kind.Open? && !PermanentlyFailed(w.store.rows, RowKey(e)) && ActiveContext(w, RowKey(e)).None?
    requires !OpenComplete(w.store.rows, e.symbol, e.at)
    requires HandleOpen(Ensured(w.store, RowKey(e)), env, e).raised.None?
    ensures var p := Process(w, env, e);
            p.outcome.status == Completed && !p.outcome.deferred &&
            p.work == w.(store := Finished(HandleOpen(Ensured(w.store, RowKey(e)), env, e).store, RowKey(e), Completed, None))
  {
    hide HandleOpen;
    hide ActiveContext;
    hide OpenComplete;
    hide PermanentlyFailed;
  }

  /** So when another symbol's open of the same time has run the three jobs, this symbol's open completes,
      and is acknowledged, without any handler having run for it; it is the only way a fresh open that
      meets no obstacle can do so. */
  lemma {:induction false} SecondSymbolRunsNothing(w: Work, env: Env, e: Event)
    requires Good(w) && e.kind.Open? && Willing(env)
    requires !PermanentlyFailed(w.store.rows, RowKey(e)) && ActiveContext(w, RowKey(e)).None?
    requires !OpenComplete(w.store.rows, e.symbol, e.at)
    requires Runs(w.store, env, Key(StopTrigger, e.at)) && Runs(w.store, env, Key(FillProcessing, e.at)) &&
             Runs(w.store, env, Key(PortfolioSnapshot, e.at))
    ensures var p := Process(w, env, e);
            ShouldAck(p.outcome) &&
            (p.work.store.done == w.store.done <==>
             Is(w.store.rows, Key(StopTrigger, e.at), Completed) && Is(w.store.rows, Key(FillProcessing, e.at), Completed) &&
             Is(w.store.rows, Key(PortfolioSnapshot, e.at), Completed))
  {
    var k := RowKey(e);
    var stop, fill, snap := Key(StopTrigger, e.at), Key(FillProcessing, e.at), Key(PortfolioSnapshot, e.at);
    EnsuredKeeps(w.store, k);
    StartedSame(w.store, k, stop);
    StartedSame(w.store, k, fill);
    StartedSame(w.store, k, snap);
    assert Ensured(w.store, k).done == w.store.done;
    hide Sound;
    hide AllTied;
    hide PendingOk;
    hide Ensured;
    OpenRunsTheMissing(Ensured(w.store, k), env, e);
    FreshSucceeds(w, env, e);
    hide HandleOpen;
    hide Process;
    hide ActiveContext;
    hide OpenComplete;
    hide PermanentlyFailed;
  }

  /** The intraday stop is keyed by the candle's open alone, so a live update runs it only if no other update of that
      time has; otherwise it completes without the handler, although its low or its symbol differs. */
  lemma {:induction false} LiveStopRunsOncePerDay(w: Work, env: Env, e: Event)
    requires e.kind.Live? && env.candle && env.context.Ready? && env.enabled
    requires !PermanentlyFailed(w.store.rows, RowKey(e)) && !Is(w.store.rows, RowKey(e), Completed)
    requires Runs(w.store, env, Key(IntradayStop, e.at))
    ensures var p := Process(w, env, e);
            ShouldAck(p.outcome) && p.work.store.done == w.store.done + Missing(w.store, Key(IntradayStop, e.at))
  {
    StartedSame(w.store, RowKey(e), Key(IntradayStop, e.at));
    RunSucceeds(Ensured(w.store, RowKey(e)), env, Key(IntradayStop, e.at));
    hide RunJob;
    hide Verdict;
    hide ActiveContext;
    hide PermanentlyFailed;
  }

  /* ---------- from a fresh start ---------- */

  function Fresh(): Work { Work(Store(map[], []), map[]) }

  lemma FreshIsGood()
    ensures Good(Fresh())
  {
  }

  predicate JobsSucceed(env: Env) {
    env.handler(StopTrigger).None? && env.handler(FillProcessing).None? && env.handler(PortfolioSnapshot).None?
  }

  /** A first open: it runs the three jobs, and leaves no row but its own and theirs. */
  lemma FirstOpen(env: Env, e: Event)
    requires e.kind.Open? && Willing(env) && JobsSucceed(env)
    ensures var p := Process(Fresh(), env, e);
            ShouldAck(p.outcome) && p.work.pending == map[] &&
            p.work.store.done == [Key(StopTrigger, e.at), Key(FillProcessing, e.at), Key(PortfolioSnapshot, e.at)] &&
            forall k :: k in p.work.store.rows ==> k in OpenRows(e.symbol, e.at) + {RowKey(e)}
  {
    var w, k := Fresh(), RowKey(e);
    FreshIsGood();
    EnsuredKeeps(w.store, k);
    var started := Ensured(w.store, k);
    OpenRunsTheMissing(started, env, e);
    FreshSucceeds(w, env, e);
    HandleOpenKeeps(started, env, e);
    assert RowKey(e).job.OpenParent?;
    hide HandleOpen;
    hide Process;
    hide OpenRows;
    hide Sound;
    hide AllTied;
    hide Keeps;
    hide Settles;
  }

  lemma EarnedJobs(s: Store, e: Event)
    requires Sound(s) && e.kind.Open? && Earned(s.rows, e)
    ensures Is(s.rows, Key(StopTrigger, e.at), Completed) && Is(s.rows, Key(FillProcessing, e.at), Completed) &&
            Is(s.rows, Key(PortfolioSnapshot, e.at), Completed)
  {
    assert OpenOk(s.rows, e.symbol, e.at);
  }

  /** As it happens: the opens of two symbols at one time, one after the other. Both are acknowledged; the second
      adds nothing to what the first ran. */
  lemma {:induction false} TwoOpensRunOnce(env: Env, e: Event, env2: Env, e2: Event)
    requires e.kind.Open? && e2.kind.Open? && e.at == e2.at && e.symbol != e2.symbol
    requires Willing(env) && JobsSucceed(env) && Willing(env2) && JobsSucceed(env2)
    ensures var p := Process(Fresh(), env, e); var q := Process(p.work, env2, e2);
            ShouldAck(p.outcome) && ShouldAck(q.outcome) && q.work.store.done == p.work.store.done &&
            p.work.store.done == [Key(StopTrigger, e.at), Key(FillProcessing, e.at), Key(PortfolioSnapshot, e.at)]
  {
    FreshIsGood();
    FirstOpen(env, e);
    EventAdvances(Fresh(), env, e);
    var w := Process(Fresh(), env, e).work;
    EarnedJobs(w.store, e);
    OtherOpenUntouched(w, e, e2);
    hide Process;
    hide Sound;
    hide AllTied;
    hide ActiveContext;
    SecondSymbolRunsNothing(w, env2, e2);
  }

  lemma OtherOpenUntouched(w: Work, e: Event, e2: Event)
    requires e.kind.Open? && e2.kind.Open? && e.symbol != e2.symbol && w.pending == map[]
    requires forall k :: k in w.store.rows ==> k in OpenRows(e.symbol, e.at) + {RowKey(e)}
    ensures RowKey(e2) !in w.store.rows && ActiveContext(w, RowKey(e2)).None? && !OpenComplete(w.store.rows, e2.symbol, e2.at)
  {
  }

  /* ---------- the live updates of one candle ---------- */

  /** A live update of the candle at `at`, with nothing in the way of the intraday stop. */
  predicate Unobstructed(item: (Event, Env), at: Time) {
    && item.0.kind.Live? && item.0.at == at
    && item.1.candle && item.1.context.Ready? && item.1.enabled && item.1.handler(IntradayStop).None?
  }

  /** Nothing failed and nothing is running; the intraday stop has run if its row is there. */
  predicate Quiet(w: Work, at: Time) {
    && w.pending == map[] && (forall k :: k in w.store.rows ==> w.store.rows[k].status == Completed)
    && w.store.done == (if Key(IntradayStop, at) in w.store.rows then [Key(IntradayStop, at)] else [])
  }

  lemma UpdateIsQuiet(w: Work, env: Env, e: Event, at: Time)
    requires Quiet(w, at) && Unobstructed((e, env), at)
    requires RowKey(e) in w.store.rows ==> Key(IntradayStop, at) in w.store.rows
    ensures var p := Process(w, env, e);
            Quiet(p.work, at) && ShouldAck(p.outcome) && p.work.store.done == [Key(IntradayStop, at)]
  {
    var j := RunJob(Ensured(w.store, RowKey(e)), env, Key(IntradayStop, at));
    assert [j.outcome][1..] == [];
    assert Verdict([]).None?;
  }

  /** The updates for which the intraday stop was run: those whose processing logged a success. */
  function Checked(w: Work, items: seq<(Event, Env)>): seq<Event> {
    if items == [] then [] else
    var front, last := items[..|items| - 1], items[|items| - 1];
    Checked(w, front) +
    if ProcessAll(w, items).work.store.done == ProcessAll(w, front).work.store.done then [] else [last.0]
  }

  /** Of a day's live updates, whatever their lows and symbols, the intraday stop is run for the first alone; the others
      are acknowledged all the same. */
  lemma {:induction false} OnlyFirstUpdateIsChecked(items: seq<(Event, Env)>, at: Time)
    requires items != [] && forall i :: 0 <= i < |items| ==> Unobstructed(items[i], at)
    ensures var b := ProcessAll(Fresh(), items);
            Checked(Fresh(), items) == [items[0].0] && Quiet(b.work, at) && b.work.store.done == [Key(IntradayStop, at)] &&
            |b.outcomes| == |items| && forall o :: o in b.outcomes ==> ShouldAck(o)
  {
    hide Process;
    hide Unobstructed;
    var n := |items| - 1;
    var front := ProcessAll(Fresh(), items[..n]);
    assert ProcessAll(Fresh(), []) == Batch(Fresh(), []) && Checked(Fresh(), []) == [];
    if n > 0 {
      OnlyFirstUpdateIsChecked(items[..n], at);
    } else {
      assert items[..n] == [];
    }
    assert Unobstructed(items[n], at);
    assert items[n] == (items[n].0, items[n].1);
    UpdateIsQuiet(front.work, items[n].1, items[n].0, at);
    var p := Process(front.work, items[n].1, items[n].0);
    assert ProcessAll(Fresh(), items) == Batch(p.work, front.outcomes + [p.outcome]);
  }

  /** What the stop sees of a symbol's bar: a run of the handler is given the preview of its update's symbol and of no
      other, so only those updates count. */
  function SeenBars(symbol: Sym, open: real, updates: seq<Event>): seq<Stops.Bar> {
    if updates == [] then [] else
    (if updates[0].symbol == symbol then [Stops.Bar(open, updates[0].low)] else []) + SeenBars(symbol, open, updates[1..])
  }

  /** So the live watch of a symbol's bar misses the exit the batch check makes, even if every new low was sent, exactly
      if the stop lies between the final low and the open, and the first update of any symbol at that time is another
      symbol's or has a low above the stop. */
  lemma {:induction false} LiveWatchMissesExit(items: seq<(Event, Env)>, at: Time, symbol: Sym, final: Stops.Bar,
                                               stop: Stops.Levels)
    requires items != [] && forall i :: 0 <= i < |items| ==> Unobstructed(items[i], at)
    requires forall i :: 0 <= i < |items| && items[i].0.symbol == symbol ==> items[i].0.low >= final.low
    ensures (Stops.GapStopAtOpen(final, stop).None? &&
             Stops.FirstIntraday(SeenBars(symbol, final.open, Checked(Fresh(), items)), stop).None? &&
             Stops.StopTrigger(final, stop).Some?) <==>
            (final.low <= stop.effective <= final.open &&
             (items[0].0.symbol == symbol ==> stop.effective < items[0].0.low))
  {
    OnlyFirstUpdateIsChecked(items, at);
    hide Checked;
    hide ProcessAll;
    var first := items[0].0;
    var ps := SeenBars(symbol, final.open, [first]);
    assert [first][1..] == [] && SeenBars(symbol, final.open, []) == [];
    assert ps == if first.symbol == symbol then [Stops.Bar(final.open, first.low)] else [];
    Stops.MissedExit(ps, final, stop);
  }

  /** An instance: if another symbol's update comes first, an exit is missed however low the symbol's own updates go. */
  lemma OtherSymbolComesFirst(env: Env, at: Time)
    requires env.candle && env.context.Ready? && env.enabled && env.handler(IntradayStop).None?
    ensures var items := [(Event(Live, "SOL", at, 93.0), env), (Event(Live, "BTC", at, 90.0), env)];
            var final, stop := Stops.Bar(100.0, 90.0), Stops.Levels(95.0, 95.0, 0.0);
            Stops.FirstIntraday(SeenBars("BTC", 100.0, Checked(Fresh(), items)), stop).None? &&
            Stops.StopTrigger(final, stop).Some?
  {
    var items := [(Event(Live, "SOL", at, 93.0), env), (Event(Live, "BTC", at, 90.0), env)];
    LiveWatchMissesExit(items, at, "BTC", Stops.Bar(100.0, 90.0), Stops.Levels(95.0, 95.0, 0.0));
  }
}
