/** Group-based fairness: which events a poll attempts, when a deferred group is tried again, and how the
    rotation cursor moves. */
module Fairness {
  import opened Common
  import opened Timeframes
  import opened Scheduler
  import opened Bridge

  /* ---------- ordering and grouping ---------- */

  /** A lifecycle group: one class of event at one candle time, for all symbols. */
  datatype GroupKey = GroupKey(kind: Kind, at: Time)

  function GroupOf(e: Event): GroupKey { GroupKey(e.kind, e.at) }

  function SymbolRank(s: string): nat { if s == "BTC" then 0 else if s == "ETH" then 1 else if s == "SOL" then 2 else 99 }

  /** The order of symbols: the configured ones first, ties by name. */
  predicate SymbolBefore(a: string, b: string) {
    SymbolRank(a) < SymbolRank(b) || (SymbolRank(a) == SymbolRank(b) && NameBefore(a, b))
  }

  function KindRank(k: Kind): nat {
    match k
    case Open => 0
    case Live => 1
    case DayClose => 2
    case WeekClose => 3
    case MonthClose => 4
  }

  predicate KeyBefore(a: GroupKey, b: GroupKey) {
    KindRank(a.kind) < KindRank(b.kind) || (a.kind == b.kind && a.at < b.at)
  }

  function InsertKey(keys: seq<GroupKey>, k: GroupKey): seq<GroupKey> {
    if keys == [] || KeyBefore(k, keys[0]) then [k] + keys
    else if k == keys[0] then keys
    else [keys[0]] + InsertKey(keys[1..], k)
  }

  /** The groups of some events, each once, by class and then by time. */
  function GroupKeys(events: seq<Event>): seq<GroupKey> {
    if events == [] then [] else InsertKey(GroupKeys(events[..|events| - 1]), GroupOf(events[|events| - 1]))
  }

  function InsertEvent(events: seq<Event>, e: Event): seq<Event> {
    if events == [] || SymbolBefore(e.symbol, events[0].symbol) then [e] + events
    else [events[0]] + InsertEvent(events[1..], e)
  }

  /** The events of a group, in symbol order, otherwise as detected. */
  function Members(events: seq<Event>, k: GroupKey): seq<Event> {
    if events == [] then [] else
    var front, last := Members(events[..|events| - 1], k), events[|events| - 1];
    if GroupOf(last) == k then InsertEvent(front, last) else front
  }

  lemma {:induction false} InsertKeyMembers(keys: seq<GroupKey>, k: GroupKey)
    ensures forall x :: x in InsertKey(keys, k) <==> x in keys || x == k
  {
    if keys != [] && !KeyBefore(k, keys[0]) && k != keys[0] {
      InsertKeyMembers(keys[1..], k);
      assert forall x :: x in keys <==> x == keys[0] || x in keys[1..];
    }
  }

  predicate Ordered(keys: seq<GroupKey>) { forall i, j :: 0 <= i < j < |keys| ==> KeyBefore(keys[i], keys[j]) }

  lemma {:induction false} InsertKeyOrdered(keys: seq<GroupKey>, k: GroupKey)
    requires Ordered(keys)
    ensures Ordered(InsertKey(keys, k))
  {
    if keys != [] && !KeyBefore(k, keys[0]) && k != keys[0] {
      InsertKeyOrdered(keys[1..], k);
      InsertKeyMembers(keys[1..], k);
      var rest := InsertKey(keys[1..], k);
      forall i | 0 <= i < |rest| ensures KeyBefore(keys[0], rest[i]) {
        assert rest[i] in rest;
      }
    }
  }

  lemma {:induction false} InsertEventMembers(events: seq<Event>, e: Event)
    ensures multiset(InsertEvent(events, e)) == multiset(events) + multiset{e}
  {
    if events != [] && !SymbolBefore(e.symbol, events[0].symbol) {
      InsertEventMembers(events[1..], e);
      assert events == [events[0]] + events[1..];
    }
  }

  predicate SymbolSorted(events: seq<Event>) {
    forall i, j :: 0 <= i < j < |events| ==> !SymbolBefore(events[j].symbol, events[i].symbol)
  }

  lemma SymbolBeforeTrans(a: string, b: string, c: string)
    requires SymbolBefore(a, b) && SymbolBefore(b, c)
    ensures SymbolBefore(a, c)
  {
    hide SymbolRank;
    hide NameBefore;
    if NameBefore(a, b) && NameBefore(b, c) {
      NameBeforeTrans(a, b, c);
    }
  }

  lemma SymbolNotBeforeItself(a: string)
    ensures !SymbolBefore(a, a)
  {
    NotBeforeItself(a);
  }

  lemma {:induction false} InsertEventSorted(events: seq<Event>, e: Event)
    requires SymbolSorted(events)
    ensures SymbolSorted(InsertEvent(events, e))
  {
    hide SymbolBefore;
    if events != [] {
      if SymbolBefore(e.symbol, events[0].symbol) {
        forall j | 0 <= j < |events| ensures !SymbolBefore(events[j].symbol, e.symbol) {
          if SymbolBefore(events[j].symbol, e.symbol) {
            SymbolNotBeforeItself(events[0].symbol);
            SymbolBeforeTrans(events[j].symbol, e.symbol, events[0].symbol);
          }
        }
      } else {
        InsertEventSorted(events[1..], e);
        InsertEventMembers(events[1..], e);
        var rest := InsertEvent(events[1..], e);
        forall j | 0 <= j < |rest| ensures !SymbolBefore(rest[j].symbol, events[0].symbol) {
          assert rest[j] in multiset(rest);
          assert rest[j] == e || rest[j] in events[1..];
        }
      }
    }
  }

  lemma {:induction false} MembersSorted(events: seq<Event>, k: GroupKey)
    ensures SymbolSorted(Members(events, k))
  {
    if events != [] {
      MembersSorted(events[..|events| - 1], k);
      InsertEventSorted(Members(events[..|events| - 1], k), events[|events| - 1]);
    }
  }

  lemma {:induction false} KeysAreThoseOfEvents(events: seq<Event>, k: GroupKey)
    ensures k in GroupKeys(events) <==> exists i :: 0 <= i < |events| && GroupOf(events[i]) == k
  {
    if events != [] {
      var front, last := events[..|events| - 1], events[|events| - 1];
      KeysAreThoseOfEvents(front, k);
      InsertKeyMembers(GroupKeys(front), GroupOf(last));
      if i :| 0 <= i < |front| && GroupOf(front[i]) == k {
        assert GroupOf(events[i]) == k;
      }
      assert GroupOf(events[|front|]) == GroupOf(last);
    }
  }

  lemma {:induction false} KeysAreOrdered(events: seq<Event>)
    ensures Ordered(GroupKeys(events))
  {
    if events != [] {
      KeysAreOrdered(events[..|events| - 1]);
      InsertKeyOrdered(GroupKeys(events[..|events| - 1]), GroupOf(events[|events| - 1]));
    }
  }

  lemma {:induction false} MembersCount(events: seq<Event>, k: GroupKey, e: Event)
    ensures multiset(Members(events, k))[e] == if GroupOf(e) == k then multiset(events)[e] else 0
  {
    if events != [] {
      var front, last := events[..|events| - 1], events[|events| - 1];
      MembersCount(front, k, e);
      InsertEventMembers(Members(front, k), last);
      assert events == front + [last];
    }
  }

  /** Grouping loses and invents nothing: the groups are those of the events, in order and each once, and an
      event is in its own group as often as it was detected, in symbol order, and in no other. */
  lemma {:induction false} GroupingIsExact(events: seq<Event>)
    ensures Ordered(GroupKeys(events))
    ensures forall k :: k in GroupKeys(events) <==> exists i :: 0 <= i < |events| && GroupOf(events[i]) == k
    ensures forall k, e :: multiset(Members(events, k))[e] == if GroupOf(e) == k then multiset(events)[e] else 0
    ensures forall k :: SymbolSorted(Members(events, k))
  {
    hide GroupKeys;
    hide Members;
    KeysAreOrdered(events);
    forall k ensures k in GroupKeys(events) <==> exists i :: 0 <= i < |events| && GroupOf(events[i]) == k {
      KeysAreThoseOfEvents(events, k);
    }
    forall k, e ensures multiset(Members(events, k))[e] == if GroupOf(e) == k then multiset(events)[e] else 0 {
      MembersCount(events, k, e);
    }
    forall k ensures SymbolSorted(Members(events, k)) {
      MembersSorted(events, k);
    }
  }

  /** The class comes first in a poll: opens before live updates, both before closes of days, then of weeks, then of
      months. */
  predicate ClassBefore(a: Kind, b: Kind) {
    match a
    case Open => !b.Open?
    case Live => b.DayClose? || b.WeekClose? || b.MonthClose?
    case DayClose => b.WeekClose? || b.MonthClose?
    case WeekClose => b.MonthClose?
    case MonthClose => false
  }

  /** What the order is: groups by class and then by time; within a group BTC before ETH before SOL before any other
      symbol, those by name. */
  lemma {:induction false} OrderIs(events: seq<Event>)
    ensures var keys := GroupKeys(events);
            forall i, j :: 0 <= i < j < |keys| ==>
              ClassBefore(keys[i].kind, keys[j].kind) || (keys[i].kind == keys[j].kind && keys[i].at < keys[j].at)
    ensures forall a, b :: SymbolBefore(a, b) <==>
              (a == "BTC" && b != "BTC") || (a == "ETH" && b != "BTC" && b != "ETH") ||
              (a == "SOL" && b !in ["BTC", "ETH", "SOL"]) ||
              (a !in ["BTC", "ETH", "SOL"] && b !in ["BTC", "ETH", "SOL"] && NameBefore(a, b))
  {
    KeysAreOrdered(events);
    hide GroupKeys;
    forall a, b
      ensures SymbolBefore(a, b) <==>
                (a == "BTC" && b != "BTC") || (a == "ETH" && b != "BTC" && b != "ETH") ||
                (a == "SOL" && b !in ["BTC", "ETH", "SOL"]) ||
                (a !in ["BTC", "ETH", "SOL"] && b !in ["BTC", "ETH", "SOL"] && NameBefore(a, b))
    {
      NotBeforeItself(a);
      hide NameBefore;
    }
  }

  /* ---------- backoff and eligibility ---------- */

  datatype GroupState = GroupState(nextAttempt: Time, deferCount: nat)

  const MAX_RETRY_SECONDS := 30

  function PowerOfTwo(n: nat): nat { if n == 0 then 1 else 2 * PowerOfTwo(n - 1) }

  function Backoff(deferCount: int): nat {
    Min(MAX_RETRY_SECONDS, PowerOfTwo(Min(Max(deferCount, 1), 5) - 1))
  }

  /** The delay doubles from one second and stays at sixteen; the limit of thirty seconds is never reached. */
  lemma BackoffDoubles(n: int)
    ensures Backoff(n) == if n <= 1 then 1 else if n == 2 then 2 else if n == 3 then 4 else if n == 4 then 8 else 16
    ensures Backoff(n) <= Backoff(n + 1) <= 2 * Backoff(n) && Backoff(n) < MAX_RETRY_SECONDS
  {
    assert PowerOfTwo(4) == 2 * PowerOfTwo(3) && PowerOfTwo(3) == 2 * PowerOfTwo(2) && PowerOfTwo(2) == 2 * PowerOfTwo(1);
  }

  predicate IsEligible(k: GroupKey, time: Time, states: map<GroupKey, GroupState>) {
    k !in states || states[k].nextAttempt <= time
  }

  method EligibleKeys(keys: seq<GroupKey>, time: Time, states: map<GroupKey, GroupState>) returns (eligible: seq<GroupKey>)
    ensures eligible == Filter(keys, (k: GroupKey) => IsEligible(k, time, states))
  {
    ghost var keep := (k: GroupKey) => IsEligible(k, time, states);
    eligible := [];
    for n := 0 to |keys|
      invariant eligible == Filter(keys[..n], keep)
    {
      assert keys[..n + 1] == keys[..n] + [keys[n]];
      FilterSnoc(keys[..n], keys[n], keep);
      if keys[n] !in states || states[keys[n]].nextAttempt <= time {
        eligible := eligible + [keys[n]];
      }
    }
    assert keys[..|keys|] == keys;
  }

  function DeferredState(states: map<GroupKey, GroupState>, k: GroupKey, time: Time): GroupState {
    var count := if k in states then states[k].deferCount + 1 else 1;
    GroupState(time + Backoff(count), count)
  }

  /** However often a group has been deferred, sixteen seconds later it is eligible again. */
  lemma DeferredComesBack(states: map<GroupKey, GroupState>, k: GroupKey, time: Time, later: Time)
    requires later >= time + 16
    ensures IsEligible(k, later, states[k := DeferredState(states, k, time)])
    ensures !IsEligible(k, time, states[k := DeferredState(states, k, time)])
  {
    BackoffDoubles(DeferredState(states, k, time).deferCount);
  }

  /* ---------- one poll over the eligible groups ---------- */

  datatype GroupRun = GroupRun(work: Work, outcomes: seq<Outcome>, blocked: bool)

  /** A group's events in turn, until one is deferred or the budget is used up. `envs` gives, for the first
      event of the poll, the second, and so on, what the world does while it is processed; `from` counts the
      events before these. */
  function RunGroup(w: Work, envs: nat -> Env, from: nat, events: seq<Event>, budget: nat): (r: GroupRun)
    ensures |r.outcomes| <= budget
    decreases |events|
  {
    if events == [] || budget == 0 then GroupRun(w, [], false) else
    var p := Process(w, envs(from), events[0]);
    if p.outcome.deferred then GroupRun(p.work, [p.outcome], true) else
    var rest := RunGroup(p.work, envs, from + 1, events[1..], budget - 1);
    GroupRun(rest.work, [p.outcome] + rest.outcomes, rest.blocked)
  }

  datatype Pass = Pass(work: Work, outcomes: seq<Outcome>, rotated: nat, deferred: bool)

  /** Groups in turn while budget is left. */
  function RunGroups(w: Work, envs: nat -> Env, from: nat, groups: seq<seq<Event>>, budget: nat): Pass
    decreases |groups|
  {
    if groups == [] || budget == 0 then Pass(w, [], 0, false) else
    var g := RunGroup(w, envs, from, groups[0], budget);
    var rest := RunGroups(g.work, envs, from + |g.outcomes|, groups[1..], budget - |g.outcomes|);
    Pass(rest.work, g.outcomes + rest.outcomes, rest.rotated + 1, rest.deferred || g.blocked)
  }

  function Rotated<T>(s: seq<T>, cursor: nat): seq<T>
    requires s != []
  {
    s[cursor % |s|..] + s[..cursor % |s|]
  }

  function AdvanceCursor(cursor: nat, n: nat, rotated: nat, deferred: bool): nat {
    if n == 0 then cursor
    else if deferred then (cursor + 1) % n
    else if rotated == 0 then cursor
    else (cursor + rotated) % n
  }

  /** What a poll has to do: the eligible groups in order, and the circumstances. */
  datatype Round = Round(groups: seq<seq<Event>>, work: Work, envs: nat -> Env, budget: nat)

  function PassOf(r: Round, cursor: nat): Pass
    requires r.groups != []
  {
    RunGroups(r.work, r.envs, 0, Rotated(r.groups, cursor), r.budget)
  }

  function NextCursor(r: Round, cursor: nat): nat
    requires r.groups != []
  {
    var p := PassOf(r, cursor);
    AdvanceCursor(cursor, |r.groups|, p.rotated, p.deferred)
  }

  /* ---------- bounded waiting ---------- */

  predicate Attempted(outcomes: seq<Outcome>, e: Event) { exists i :: 0 <= i < |outcomes| && outcomes[i].event == e }

  lemma GroupAttemptsFirst(w: Work, envs: nat -> Env, from: nat, events: seq<Event>, budget: nat)
    requires events != [] && budget > 0
    ensures var g := RunGroup(w, envs, from, events, budget); g.outcomes != [] && g.outcomes[0].event == events[0]
  {
    OutcomeEvent(w, envs(from), events[0]);
    hide Process;
  }

  lemma AttemptedAppend(a: seq<Outcome>, b: seq<Outcome>, e: Event)
    requires Attempted(a, e) || Attempted(b, e)
    ensures Attempted(a + b, e)
  {
    if i :| 0 <= i < |a| && a[i].event == e {
      assert (a + b)[i].event == e;
    } else {
      var i :| 0 <= i < |b| && b[i].event == e;
      assert (a + b)[|a| + i].event == e;
    }
  }

  /** A turn of a group: its events in order, up to and including the first that is deferred, or as many as the budget
      allows. */
  predicate IsTurn(outcomes: seq<Outcome>, blocked: bool, events: seq<Event>, budget: nat) {
    var n := |outcomes|;
    && n <= |events| && n <= budget && (forall i :: 0 <= i < n ==> outcomes[i].event == events[i])
    && (forall i :: 0 <= i < n - 1 ==> !outcomes[i].deferred)
    && (blocked <==> n > 0 && outcomes[n - 1].deferred) && (!blocked ==> n == Min(|events|, budget))
  }

  lemma TurnGoesOn(o: Outcome, rest: seq<Outcome>, blocked: bool, events: seq<Event>, budget: nat)
    requires events != [] && budget > 0 && o.event == events[0] && !o.deferred
    requires IsTurn(rest, blocked, events[1..], budget - 1)
    ensures IsTurn([o] + rest, blocked, events, budget)
  {
    var outcomes := [o] + rest;
    forall i | 0 <= i < |outcomes|
      ensures outcomes[i].event == events[i] && (i > 0 ==> outcomes[i] == rest[i - 1])
    {
      assert i > 0 ==> events[1..][i - 1] == events[i];
    }
  }

  lemma TurnEnds(o: Outcome, events: seq<Event>, budget: nat)
    requires events != [] && budget > 0 && o.event == events[0] && o.deferred
    ensures IsTurn([o], true, events, budget)
  {
  }

  /** What a group's turn attempts. */
  lemma {:induction false} GroupRunIs(w: Work, envs: nat -> Env, from: nat, events: seq<Event>, budget: nat)
    ensures var g := RunGroup(w, envs, from, events, budget); IsTurn(g.outcomes, g.blocked, events, budget)
    decreases |events|
  {
    if events != [] && budget > 0 {
      OutcomeEvent(w, envs(from), events[0]);
      hide Process;
      hide IsTurn;
      var p := Process(w, envs(from), events[0]);
      if p.outcome.deferred {
        TurnEnds(p.outcome, events, budget);
      } else {
        var rest := RunGroup(p.work, envs, from + 1, events[1..], budget - 1);
        GroupRunIs(p.work, envs, from + 1, events[1..], budget - 1);
        TurnGoesOn(p.outcome, rest.outcomes, rest.blocked, events, budget);
      }
    }
  }

  /** Some outcome of the list was deferred. */
  predicate SomeDeferred(outcomes: seq<Outcome>) { exists i :: 0 <= i < |outcomes| && outcomes[i].deferred }

  lemma DeferredAppend(a: seq<Outcome>, b: seq<Outcome>)
    ensures SomeDeferred(a + b) <==> SomeDeferred(a) || SomeDeferred(b)
  {
    if i :| 0 <= i < |a| && a[i].deferred {
      assert (a + b)[i].deferred;
    }
    if i :| 0 <= i < |b| && b[i].deferred {
      assert (a + b)[|a| + i].deferred;
    }
    if i :| 0 <= i < |a + b| && (a + b)[i].deferred {
      assert if i < |a| then a[i].deferred else b[i - |a|].deferred;
    }
  }

  /** A poll stops early only for want of budget, so a deferral in one group never keeps it from the next; and it knows
      whether anything was deferred. */
  lemma {:induction false} PassRunIs(w: Work, envs: nat -> Env, from: nat, groups: seq<seq<Event>>, budget: nat)
    ensures var p := RunGroups(w, envs, from, groups, budget);
            && p.rotated <= |groups| && |p.outcomes| <= budget
            && (p.rotated < |groups| ==> |p.outcomes| == budget)
            && (p.deferred <==> SomeDeferred(p.outcomes))
    decreases |groups|
  {
    hide RunGroup;
    hide RunGroups;
    if groups == [] || budget == 0 {
      PassStops(w, envs, from, groups, budget);
    } else {
      PassStep(w, envs, from, groups, budget);
      var g := RunGroup(w, envs, from, groups[0], budget);
      GroupRunIs(w, envs, from, groups[0], budget);
      BlockedIs(g, groups[0], budget);
      hide IsTurn;
      var rest := RunGroups(g.work, envs, from + |g.outcomes|, groups[1..], budget - |g.outcomes|);
      PassRunIs(g.work, envs, from + |g.outcomes|, groups[1..], budget - |g.outcomes|);
      DeferredAppend(g.outcomes, rest.outcomes);
      hide SomeDeferred;
    }
  }

  lemma BlockedIs(g: GroupRun, events: seq<Event>, budget: nat)
    requires IsTurn(g.outcomes, g.blocked, events, budget)
    ensures g.blocked <==> SomeDeferred(g.outcomes)
  {
    if g.blocked {
      assert g.outcomes[|g.outcomes| - 1].deferred;
    }
  }

  predicate NonEmpty(groups: seq<seq<Event>>) { forall j :: 0 <= j < |groups| ==> |groups[j]| > 0 }

  lemma PassStep(w: Work, envs: nat -> Env, from: nat, groups: seq<seq<Event>>, budget: nat)
    requires groups != [] && budget > 0
    ensures var g := RunGroup(w, envs, from, groups[0], budget);
            var rest := RunGroups(g.work, envs, from + |g.outcomes|, groups[1..], budget - |g.outcomes|);
            RunGroups(w, envs, from, groups, budget) ==
              Pass(rest.work, g.outcomes + rest.outcomes, rest.rotated + 1, rest.deferred || g.blocked)
  {
    hide RunGroup;
  }

  lemma PassStops(w: Work, envs: nat -> Env, from: nat, groups: seq<seq<Event>>, budget: nat)
    requires groups == [] || budget == 0
    ensures RunGroups(w, envs, from, groups, budget) == Pass(w, [], 0, false)
  {
  }

  /** A pass with budget turns to a group, and to no more than there are. */
  lemma {:induction false} PassRotates(w: Work, envs: nat -> Env, from: nat, groups: seq<seq<Event>>, budget: nat)
    ensures var p := RunGroups(w, envs, from, groups, budget);
            p.rotated <= |groups| && (groups != [] && budget > 0 ==> p.rotated > 0)
    decreases |groups|
  {
    hide RunGroup;
    hide RunGroups;
    if groups == [] || budget == 0 {
      PassStops(w, envs, from, groups, budget);
    } else {
      PassStep(w, envs, from, groups, budget);
      var g := RunGroup(w, envs, from, groups[0], budget);
      PassRotates(g.work, envs, from + |g.outcomes|, groups[1..], budget - |g.outcomes|);
    }
  }

  /** Every group a pass has turned to had its first event attempted. */
  lemma {:induction false} PassAttempts(w: Work, envs: nat -> Env, from: nat, groups: seq<seq<Event>>, budget: nat, i: nat)
    requires NonEmpty(groups) && i < RunGroups(w, envs, from, groups, budget).rotated
    ensures i < |groups| && Attempted(RunGroups(w, envs, from, groups, budget).outcomes, groups[i][0])
    decreases |groups|
  {
    hide RunGroup;
    hide RunGroups;
    hide Attempted;
    if groups == [] || budget == 0 {
      PassStops(w, envs, from, groups, budget);
    } else {
      PassStep(w, envs, from, groups, budget);
      GroupAttemptsFirst(w, envs, from, groups[0], budget);
      PassRotates(w, envs, from, groups, budget);
      var g := RunGroup(w, envs, from, groups[0], budget);
      if i == 0 {
        FirstAttempted(g.outcomes, RunGroups(g.work, envs, from + |g.outcomes|, groups[1..], budget - |g.outcomes|).outcomes,
            groups[0][0]);
      } else {
        PassAttempts(g.work, envs, from + |g.outcomes|, groups[1..], budget - |g.outcomes|, i - 1);
        assert groups[1..][i - 1] == groups[i];
        AttemptedAppend(g.outcomes, RunGroups(g.work, envs, from + |g.outcomes|, groups[1..], budget - |g.outcomes|).outcomes,
            groups[i][0]);
      }
    }
  }

  lemma FirstAttempted(a: seq<Outcome>, b: seq<Outcome>, e: Event)
    requires a != [] && a[0].event == e
    ensures Attempted(a + b, e)
  {
    assert (a + b)[0].event == e;
  }

  /** The cursor after `k` rounds. */
  function CursorAt(rounds: seq<Round>, cursor: nat, k: nat): nat
    requires k <= |rounds| && forall i :: 0 <= i < |rounds| ==> rounds[i].groups != []
  {
    if k == 0 then cursor else NextCursor(rounds[k - 1], CursorAt(rounds, cursor, k - 1))
  }

  /** How many groups each round moved the cursor on, added up: the cursor without wrapping round. */
  function Distance(rounds: seq<Round>, cursor: nat, k: nat): nat
    requires k <= |rounds| && forall i :: 0 <= i < |rounds| ==> rounds[i].groups != []
  {
    if k == 0 then cursor else
    var p := PassOf(rounds[k - 1], CursorAt(rounds, cursor, k - 1));
    Distance(rounds, cursor, k - 1) + if p.deferred then 1 else p.rotated
  }

  ghost predicate SameGroups(rounds: seq<Round>, n: nat) {
    forall i :: 0 <= i < |rounds| ==>
      |rounds[i].groups| == n && rounds[i].budget > 0 && NonEmpty(rounds[i].groups)
  }

  lemma RotatedNonEmpty(groups: seq<seq<Event>>, cursor: nat)
    requires groups != [] && NonEmpty(groups)
    ensures |Rotated(groups, cursor)| == |groups| && NonEmpty(Rotated(groups, cursor))
  {
  }

  lemma RotatedAt<T>(s: seq<T>, cursor: nat, offset: nat)
    requires s != [] && offset < |s|
    ensures Rotated(s, cursor)[offset] == s[(cursor + offset) % |s|]
  {
    var n, start := |s|, cursor % |s|;
    assert cursor == cursor / n * n + start;
    if start + offset < n {
      ModUnique(cursor + offset, n, cursor / n, start + offset);
    } else {
      assert cursor / n * n + n == (cursor / n + 1) * n;
      ModUnique(cursor + offset, n, cursor / n + 1, start + offset - n);
    }
  }

  lemma MulAtLeast(d: int, n: int)
    requires d >= 1 && n >= 1
    ensures d * n >= n
  {
    assert d * n == (d - 1) * n + n;
  }

  lemma DivMod(x: int, n: int)
    requires n > 0
    ensures x == x / n * n + x % n && 0 <= x % n < n
  {
  }

  lemma MulDiff(a: int, b: int, n: int)
    ensures (a - b) * n == a * n - b * n && (b - a) * n == b * n - a * n
  {
  }

  lemma ModUnique(x: int, n: int, q: int, r: int)
    requires 0 <= r < n && x == q * n + r
    ensures x % n == r
  {
    DivMod(x, n);
    MulDiff(x / n, q, n);
    if x / n > q {
      MulAtLeast(x / n - q, n);
    } else if x / n < q {
      MulAtLeast(q - x / n, n);
    }
  }

  lemma ModMod(x: nat, n: nat)
    requires n > 0
    ensures x % n % n == x % n
  {
    DivMod(x, n);
    ModUnique(x % n, n, 0, x % n);
  }

  lemma ModAdd(a: nat, b: nat, c: nat, n: nat)
    requires n > 0 && a % n == b % n
    ensures (a + c) % n == (b + c) % n
  {
    DivMod(a, n);
    DivMod(b, n);
    DivMod(b + c, n);
    MulDiff((b + c) / n, b / n, n);
    var m := (b + c) / n - b / n;
    MulDiff(m, -(a / n), n);
    ModUnique(a + c, n, m + a / n, (b + c) % n);
  }

  lemma PassBounds(r: Round, cursor: nat)
    requires r.groups != [] && r.budget > 0 && NonEmpty(r.groups)
    ensures 1 <= PassOf(r, cursor).rotated <= |r.groups|
  {
    hide RunGroups;
    RotatedNonEmpty(r.groups, cursor);
    hide Rotated;
    PassRotates(r.work, r.envs, 0, Rotated(r.groups, cursor), r.budget);
  }

  /** One round moves the cursor on by one group or by all it turned to, which is at least one. */
  lemma RoundMoves(r: Round, cursor: nat)
    requires r.groups != [] && r.budget > 0 && NonEmpty(r.groups)
    ensures var p := PassOf(r, cursor);
            1 <= p.rotated <= |r.groups| && NextCursor(r, cursor) == (cursor + if p.deferred then 1 else p.rotated) % |r.groups|
  {
    PassBounds(r, cursor);
    hide PassOf;
  }

  lemma {:induction false} DistanceTracks(rounds: seq<Round>, n: nat, cursor: nat, k: nat)
    requires n > 0 && SameGroups(rounds, n) && k <= |rounds|
    ensures CursorAt(rounds, cursor, k) % n == Distance(rounds, cursor, k) % n
    ensures Distance(rounds, cursor, k) >= cursor + k
  {
    hide PassOf;
    hide NextCursor;
    if k > 0 {
      DistanceTracks(rounds, n, cursor, k - 1);
      var r, c := rounds[k - 1], CursorAt(rounds, cursor, k - 1);
      RoundMoves(r, c);
      var step := if PassOf(r, c).deferred then 1 else PassOf(r, c).rotated;
      ModAdd(c, Distance(rounds, cursor, k - 1), step, n);
      ModMod(c + step, n);
    }
  }

  /** The round whose stretch covers a position. */
  lemma {:induction false} CoveringRound(rounds: seq<Round>, n: nat, cursor: nat, k: nat, position: nat) returns (round: nat)
    requires n > 0 && SameGroups(rounds, n) && k <= |rounds| && cursor <= position < Distance(rounds, cursor, k)
    ensures round < k && Distance(rounds, cursor, round) <= position < Distance(rounds, cursor, round + 1)
  {
    hide PassOf;
    hide CursorAt;
    if position >= Distance(rounds, cursor, k - 1) {
      round := k - 1;
    } else {
      round := CoveringRound(rounds, n, cursor, k - 1, position);
    }
  }

  /** A group the round turned to, by its offset from the cursor. */
  lemma {:induction false} OffsetAttempted(r: Round, cursor: nat, offset: nat)
    requires r.groups != [] && r.budget > 0 && NonEmpty(r.groups)
    requires offset < PassOf(r, cursor).rotated
    ensures offset < |r.groups| && Attempted(PassOf(r, cursor).outcomes, r.groups[(cursor + offset) % |r.groups|][0])
  {
    RotatedNonEmpty(r.groups, cursor);
    PassAttempts(r.work, r.envs, 0, Rotated(r.groups, cursor), r.budget, offset);
    RotatedAt(r.groups, cursor, offset);
    hide RunGroups;
    hide Rotated;
    hide Attempted;
  }

  lemma {:induction false} RoundAttempts(rounds: seq<Round>, n: nat, cursor: nat, k: nat, position: nat)
    requires n > 0 && SameGroups(rounds, n) && k < |rounds|
    requires Distance(rounds, cursor, k) <= position < Distance(rounds, cursor, k + 1)
    ensures Attempted(PassOf(rounds[k], CursorAt(rounds, cursor, k)).outcomes, rounds[k].groups[position % n][0])
  {
    hide PassOf;
    hide CursorAt;
    hide Attempted;
    var r, c := rounds[k], CursorAt(rounds, cursor, k);
    var offset := position - Distance(rounds, cursor, k);
    RoundMoves(r, c);
    DistanceTracks(rounds, n, cursor, k);
    OffsetAttempted(r, c, offset);
    ModAdd(c, Distance(rounds, cursor, k), offset, n);
  }

  /** Bounded waiting: while the same `n` groups are eligible and there is a budget, any `n` polls in a row
      attempt the first event of every group, whichever of them defer and whatever the cursor was. */
  lemma {:induction false} EveryGroupIsAttempted(rounds: seq<Round>, n: nat, cursor: nat, g: nat) returns (round: nat)
    requires n > 0 && SameGroups(rounds, n) && |rounds| == n && g < n
    ensures round < n && Attempted(PassOf(rounds[round], CursorAt(rounds, cursor, round)).outcomes, rounds[round].groups[g][0])
  {
    var position := cursor + (g + n - cursor % n) % n;
    assert position % n == g by { PositionOf(cursor, n, g); }
    DistanceTracks(rounds, n, cursor, n);
    hide PassOf;
    hide CursorAt;
    round := CoveringRound(rounds, n, cursor, n, position);
    RoundAttempts(rounds, n, cursor, round, position);
  }

  lemma PositionOf(cursor: nat, n: nat, g: nat)
    requires n > 0 && g < n
    ensures (cursor + (g + n - cursor % n) % n) % n == g
  {
    var start := cursor % n;
    assert cursor == cursor / n * n + start;
    if g >= start {
      ModUnique(g + n - start, n, 1, g - start);
      ModUnique(cursor + (g - start), n, cursor / n, g);
    } else {
      ModUnique(g + n - start, n, 0, g + n - start);
      assert cursor / n * n + n == (cursor / n + 1) * n;
      ModUnique(cursor + (g + n - start), n, cursor / n + 1, g);
    }
  }
}
