/** The poll as a function: which events it processes, in what order, and that it is one of the batches the histories
    are made of. */
module BridgePolls {
  import opened Common
  import opened Timeframes
  import opened Scheduler
  import opened Bridge
  import opened BridgeSafety
  import opened Detector
  import opened Fairness
  import opened BridgeRuns
  import opened BridgeFrames
  import opened BridgeAttempts

  /* ---------- the poll as a function ---------- */

  predicate EventBefore(a: Event, b: Event) {
    var x, y := SymbolRank(a.symbol), SymbolRank(b.symbol);
    var m, n := KindRank(a.kind), KindRank(b.kind);
    x < y || (x == y && (m < n || (m == n && a.at < b.at)))
  }

  function Place(events: seq<Event>, e: Event): seq<Event> {
    if events == [] || EventBefore(e, events[0]) then [e] + events else [events[0]] + Place(events[1..], e)
  }

  /** A stable sort by symbol, class and time. */
  function SortEvents(events: seq<Event>): seq<Event> {
    if events == [] then [] else Place(SortEvents(events[..|events| - 1]), events[|events| - 1])
  }

  function EligibleFor(events: seq<Event>, time: Time, states: map<GroupKey, GroupState>): seq<GroupKey> {
    Filter(GroupKeys(events), (k: GroupKey) => IsEligible(k, time, states))
  }

  function GroupsOf(events: seq<Event>, keys: seq<GroupKey>): seq<seq<Event>> {
    seq(|keys|, i requires 0 <= i < |keys| => Members(events, keys[i]))
  }

  /** Eligible groups are never empty, as bounded waiting needs. */
  lemma EligibleGroupsNonEmpty(events: seq<Event>, time: Time, states: map<GroupKey, GroupState>)
    ensures NonEmpty(GroupsOf(events, EligibleFor(events, time, states)))
  {
    var keys := EligibleFor(events, time, states);
    forall i | 0 <= i < |keys| ensures |Members(events, keys[i])| > 0 {
      assert keys[i] in GroupKeys(events);
      KeysAreThoseOfEvents(events, keys[i]);
      var j :| 0 <= j < |events| && GroupOf(events[j]) == keys[i];
      MembersCount(events, keys[i], events[j]);
      assert events[j] in multiset(Members(events, keys[i]));
    }
  }

  function PollPass(w: Work, envs: nat -> Env, groups: seq<seq<Event>>, cursor: nat, budget: nat): Pass {
    if groups == [] then Pass(w, [], 0, false) else RunGroups(w, envs, 0, Rotated(groups, cursor), budget)
  }

  /** What an outcome does to its group's retry state: a deferral is counted from the states the poll started
      with, anything final clears the group. */
  function NoteOutcome(start: map<GroupKey, GroupState>, states: map<GroupKey, GroupState>, o: Outcome,
                       time: Time): map<GroupKey, GroupState> {
    var k := GroupOf(o.event);
    if o.deferred then states[k := DeferredState(start, k, time)]
    else if o.terminalFailed || o.status == Failed || o.status == Completed then states - {k}
    else states
  }

  function NoteAll(start: map<GroupKey, GroupState>, outcomes: seq<Outcome>, time: Time): map<GroupKey, GroupState> {
    if outcomes == [] then start
    else NoteOutcome(start, NoteAll(start, outcomes[..|outcomes| - 1], time), outcomes[|outcomes| - 1], time)
  }

  /** The last outcome of a group in a poll. */
  predicate LastOf(outcomes: seq<Outcome>, k: GroupKey, n: nat) {
    n < |outcomes| && GroupOf(outcomes[n].event) == k && forall j :: n < j < |outcomes| ==> GroupOf(outcomes[j].event) != k
  }

  predicate IsFinal(o: Outcome) { !o.deferred && (o.terminalFailed || o.status == Failed || o.status == Completed) }

  /** What a poll leaves of a group's retry state: if its last outcome was deferred, one more deferral than before the poll
      and a retry after the delay for that; if it was final, nothing; and the states of other groups are not touched. */
  lemma {:induction false} NotedIs(start: map<GroupKey, GroupState>, outcomes: seq<Outcome>, time: Time, k: GroupKey, n: nat)
    ensures var states := NoteAll(start, outcomes, time);
            && (LastOf(outcomes, k, n) && outcomes[n].deferred ==>
                  var count := if k in start then start[k].deferCount + 1 else 1;
                  k in states && states[k] == GroupState(time + Backoff(count), count))
            && (LastOf(outcomes, k, n) && IsFinal(outcomes[n]) ==> k !in states)
            && ((forall j :: 0 <= j < |outcomes| ==> GroupOf(outcomes[j].event) != k) ==>
                  (k in states <==> k in start) && (k in start ==> states[k] == start[k]))
  {
    hide Backoff;
    if outcomes != [] {
      var front, last := outcomes[..|outcomes| - 1], outcomes[|outcomes| - 1];
      NotedIs(start, front, time, k, n);
      assert forall j :: 0 <= j < |front| ==> front[j] == outcomes[j];
      if LastOf(outcomes, k, n) && n < |front| {
        assert LastOf(front, k, n) && GroupOf(last.event) != k;
      }
    }
  }

  /* ---------- a poll is a batch ---------- */

  /** The events a poll has processed, each with what the world did meanwhile. */
  function ItemsOf(outcomes: seq<Outcome>, envs: nat -> Env, from: nat): seq<(Event, Env)> {
    seq(|outcomes|, i requires 0 <= i < |outcomes| => (outcomes[i].event, envs(from + i)))
  }

  lemma {:induction false} BatchConcat(w: Work, a: seq<(Event, Env)>, b: seq<(Event, Env)>)
    ensures var first := ProcessAll(w, a);
            var second := ProcessAll(first.work, b);
            ProcessAll(w, a + b) == Batch(second.work, first.outcomes + second.outcomes)
  {
    hide Process;
    if b == [] {
      assert a + b == a;
    } else {
      var front := b[..|b| - 1];
      assert (a + b)[..|a + b| - 1] == a + front;
      BatchConcat(w, a, front);
    }
  }

  lemma BatchOne(w: Work, item: (Event, Env))
    ensures ProcessAll(w, [item]) == Batch(Process(w, item.1, item.0).work, [Process(w, item.1, item.0).outcome])
  {
    hide Process;
    assert [item][..0] == [];
    assert ProcessAll(w, []) == Batch(w, []);
  }

  lemma ItemsConcat(a: seq<Outcome>, b: seq<Outcome>, envs: nat -> Env, from: nat)
    ensures ItemsOf(a + b, envs, from) == ItemsOf(a, envs, from) + ItemsOf(b, envs, from + |a|)
  {
  }

  lemma {:induction false} GroupIsBatch(w: Work, envs: nat -> Env, from: nat, events: seq<Event>, budget: nat)
    ensures var g := RunGroup(w, envs, from, events, budget);
            ProcessAll(w, ItemsOf(g.outcomes, envs, from)) == Batch(g.work, g.outcomes)
    decreases |events|
  {
    hide Process;
    hide ProcessAll;
    var g := RunGroup(w, envs, from, events, budget);
    if events == [] || budget == 0 {
      EmptyBatch(w);
      assert ItemsOf(g.outcomes, envs, from) == [];
    } else {
      var p := Process(w, envs(from), events[0]);
      OutcomeEvent(w, envs(from), events[0]);
      BatchOne(w, (events[0], envs(from)));
      assert ItemsOf([p.outcome], envs, from) == [(events[0], envs(from))];
      if !p.outcome.deferred {
        var rest := RunGroup(p.work, envs, from + 1, events[1..], budget - 1);
        GroupIsBatch(p.work, envs, from + 1, events[1..], budget - 1);
        ItemsConcat([p.outcome], rest.outcomes, envs, from);
        BatchConcat(w, [(events[0], envs(from))], ItemsOf(rest.outcomes, envs, from + 1));
      }
    }
  }

  lemma EmptyBatch(w: Work)
    ensures ProcessAll(w, []) == Batch(w, [])
  {
  }

  lemma {:induction false} PassIsBatch(w: Work, envs: nat -> Env, from: nat, groups: seq<seq<Event>>, budget: nat)
    ensures var p := RunGroups(w, envs, from, groups, budget);
            ProcessAll(w, ItemsOf(p.outcomes, envs, from)) == Batch(p.work, p.outcomes)
    decreases |groups|
  {
    hide ProcessAll;
    hide RunGroup;
    hide RunGroups;
    hide ItemsOf;
    if groups == [] || budget == 0 {
      PassStops(w, envs, from, groups, budget);
      EmptyBatch(w);
      NoItems(envs, from);
    } else {
      PassStep(w, envs, from, groups, budget);
      var g := RunGroup(w, envs, from, groups[0], budget);
      var rest := RunGroups(g.work, envs, from + |g.outcomes|, groups[1..], budget - |g.outcomes|);
      GroupIsBatch(w, envs, from, groups[0], budget);
      PassIsBatch(g.work, envs, from + |g.outcomes|, groups[1..], budget - |g.outcomes|);
      ItemsConcat(g.outcomes, rest.outcomes, envs, from);
      BatchConcat(w, ItemsOf(g.outcomes, envs, from), ItemsOf(rest.outcomes, envs, from + |g.outcomes|));
    }
  }

  lemma NoItems(envs: nat -> Env, from: nat)
    ensures ItemsOf([], envs, from) == []
  {
  }

  /** Whatever groups a poll goes through and however its events end, committing it is a move of the histories
      that `BridgeRuns` proves safe. */
  lemma {:induction false} PollIsCommit(y: System, envs: nat -> Env, groups: seq<seq<Event>>, cursor: nat, budget: nat)
    ensures var p := PollPass(Work(y.committed, y.pending), envs, groups, cursor, budget);
            Apply(y, Commit(ItemsOf(p.outcomes, envs, 0))) ==
              System(p.work.store, p.work.pending, Settled(y.trackers, p.outcomes)) &&
            (HasLive(ToGiveUp(p.outcomes)) <==>
             MeetsBadLive(Work(y.committed, y.pending), ItemsOf(p.outcomes, envs, 0)))
  {
    hide ProcessAll;
    hide RunGroups;
    hide ItemsOf;
    hide Settled;
    hide MeetsBadLive;
    hide HasLive;
    var w := Work(y.committed, y.pending);
    PollRaisesIff(w, ItemsOf(PollPass(w, envs, groups, cursor, budget).outcomes, envs, 0));
    EmptyBatch(w);
    NoItems(envs, 0);
    if groups != [] {
      PassIsBatch(w, envs, 0, Rotated(groups, cursor), budget);
    }
  }

  /* ---------- what a detector yields is processed once ---------- */

  predicate DistinctNames(symbols: seq<string>) { forall i, j :: 0 <= i < j < |symbols| ==> symbols[i] != symbols[j] }

  /** No event twice, and no two at one row. */
  ghost predicate Unique(bag: multiset<Event>) {
    && (forall e :: bag[e] <= 1)
    && (forall e, f :: e in bag && f in bag && RowKey(e) == RowKey(f) ==> e == f)
  }

  lemma UniqueBelow(a: multiset<Event>, b: multiset<Event>)
    requires Unique(b) && a <= b
    ensures Unique(a)
  {
  }

  lemma UniqueUnion(a: multiset<Event>, b: multiset<Event>)
    requires Unique(a) && Unique(b) && forall e, f :: e in a && f in b ==> RowKey(e) != RowKey(f)
    ensures Unique(a + b)
  {
    forall e ensures (a + b)[e] <= 1 {
      assert e in a && e in b ==> RowKey(e) != RowKey(e);
    }
  }

  predicate OfKind(s: seq<Event>, symbol: string, kinds: set<Kind>) { forall e :: e in s ==> e.symbol == symbol && e.kind in kinds }

  lemma KindsApart(e: Event, f: Event)
    requires e.kind != f.kind || e.symbol != f.symbol
    ensures RowKey(e) != RowKey(f)
  {
  }

  lemma UniqueKinds(a: seq<Event>, b: seq<Event>, symbol: string, k: set<Kind>, l: set<Kind>)
    requires Unique(multiset(a)) && Unique(multiset(b)) && OfKind(a, symbol, k) && OfKind(b, symbol, l) && k !! l
    ensures Unique(multiset(a + b)) && OfKind(a + b, symbol, k + l)
  {
    forall e, f | e in multiset(a) && f in multiset(b) ensures RowKey(e) != RowKey(f) {
      assert e in a && f in b;
      KindsApart(e, f);
    }
    assert forall e :: e in a + b <==> e in a || e in b;
    hide Unique;
    UniqueUnion(multiset(a), multiset(b));
    assert multiset(a + b) == multiset(a) + multiset(b);
  }

  lemma AtMostOne(s: seq<Event>)
    requires |s| <= 1
    ensures Unique(multiset(s))
  {
    assert s != [] ==> s == [s[0]];
  }

  lemma OpenKinds(t: Tracker, c: Option<Seen>, symbol: string)
    ensures var a := if c.Some? then DetectOpen(t, c.value, symbol) else [];
            Unique(multiset(a)) && OfKind(a, symbol, {Open, Live})
  {
    AtMostOne(if c.Some? then DetectOpen(t, c.value, symbol) else []);
    hide Unique;
  }

  lemma CloseKinds(ack: Option<Time>, failed: Option<Time>, c: Option<Seen>, symbol: string, kind: Kind, time: Time, delay: nat)
    ensures var b := if c.Some? then DetectClose(ack, failed, c.value, symbol, kind, time, delay) else [];
            Unique(multiset(b)) && OfKind(b, symbol, {kind})
  {
    AtMostOne(if c.Some? then DetectClose(ack, failed, c.value, symbol, kind, time, delay) else []);
    hide Unique;
  }

  lemma SymbolUnique(t: Tracker, latest: Latest, symbol: string, time: Time, delay: nat)
    ensures Unique(multiset(DetectSymbol(t, latest, symbol, time, delay)))
    ensures forall e :: e in DetectSymbol(t, latest, symbol, time, delay) ==> e.symbol == symbol
  {
    hide Unique;
    hide DetectOpen;
    hide DetectClose;
    var daily, weekly, monthly := latest(symbol, Daily), latest(symbol, Weekly), latest(symbol, Monthly);
    var a := if daily.Some? then DetectOpen(t, daily.value, symbol) else [];
    var b := if daily.Some? then DetectClose(t.dayAck, t.dayFailed, daily.value, symbol, DayClose, time, delay) else [];
    var c := if weekly.Some? then DetectClose(t.weekAck, t.weekFailed, weekly.value, symbol, WeekClose, time, 0) else [];
    var d := if monthly.Some? then DetectClose(t.monthAck, t.monthFailed, monthly.value, symbol, MonthClose, time, 0) else [];
    OpenKinds(t, daily, symbol);
    CloseKinds(t.dayAck, t.dayFailed, daily, symbol, DayClose, time, delay);
    CloseKinds(t.weekAck, t.weekFailed, weekly, symbol, WeekClose, time, 0);
    CloseKinds(t.monthAck, t.monthFailed, monthly, symbol, MonthClose, time, 0);
    assert DetectSymbol(t, latest, symbol, time, delay) == a + b + c + d;
    FourKinds(a, b, c, d, symbol);
    hide DetectSymbol;
  }

  lemma FourKinds(a: seq<Event>, b: seq<Event>, c: seq<Event>, d: seq<Event>, symbol: string)
    requires Unique(multiset(a)) && Unique(multiset(b)) && Unique(multiset(c)) && Unique(multiset(d))
    requires OfKind(a, symbol, {Open, Live}) && OfKind(b, symbol, {DayClose}) && OfKind(c, symbol, {WeekClose}) &&
             OfKind(d, symbol, {MonthClose})
    ensures Unique(multiset(a + b + c + d)) && forall e :: e in a + b + c + d ==> e.symbol == symbol
  {
    hide Unique;
    UniqueKinds(a, b, symbol, {Open, Live}, {DayClose});
    UniqueKinds(a + b, c, symbol, {Open, Live} + {DayClose}, {WeekClose});
    UniqueKinds(a + b + c, d, symbol, {Open, Live} + {DayClose} + {WeekClose}, {MonthClose});
  }

  lemma {:induction false} DetectedUnique(trackers: map<string, Tracker>, latest: Latest, symbols: seq<string>, time: Time,
                                          delay: nat)
    requires DistinctNames(symbols)
    ensures Unique(multiset(DetectAll(trackers, latest, symbols, time, delay)))
    ensures forall e :: e in DetectAll(trackers, latest, symbols, time, delay) ==> e.symbol in symbols
  {
    hide Unique;
    hide DetectSymbol;
    if symbols == [] {
      AtMostOne([]);
    } else {
      var front, last := symbols[..|symbols| - 1], symbols[|symbols| - 1];
      var a := DetectAll(trackers, latest, front, time, delay);
      var b := DetectSymbol(TrackerOf(trackers, last), latest, last, time, delay);
      DetectedUnique(trackers, latest, front, time, delay);
      SymbolUnique(TrackerOf(trackers, last), latest, last, time, delay);
      forall e, f | e in multiset(a) && f in multiset(b) ensures RowKey(e) != RowKey(f) {
        assert e in a && f in b;
        KindsApart(e, f);
      }
      UniqueUnion(multiset(a), multiset(b));
      assert multiset(a + b) == multiset(a) + multiset(b);
      assert forall e :: e in a + b <==> e in a || e in b;
    }
  }

  lemma {:induction false} PlaceBag(events: seq<Event>, e: Event)
    ensures multiset(Place(events, e)) == multiset(events) + multiset{e}
  {
    hide EventBefore;
    if events != [] && !EventBefore(e, events[0]) {
      PlaceBag(events[1..], e);
      assert events == [events[0]] + events[1..];
    }
  }

  lemma {:induction false} SortBag(events: seq<Event>)
    ensures multiset(SortEvents(events)) == multiset(events)
  {
    hide Place;
    if events != [] {
      var n := |events| - 1;
      SortBag(events[..n]);
      PlaceBag(SortEvents(events[..n]), events[n]);
      assert events == events[..n] + [events[n]];
    }
  }

  function Bag(groups: seq<seq<Event>>): multiset<Event> {
    if groups == [] then multiset{} else multiset(groups[0]) + Bag(groups[1..])
  }

  lemma {:induction false} BagConcat(a: seq<seq<Event>>, b: seq<seq<Event>>)
    ensures Bag(a + b) == Bag(a) + Bag(b)
  {
    if a == [] {
      assert a + b == b;
    } else {
      assert (a + b)[1..] == a[1..] + b;
      BagConcat(a[1..], b);
    }
  }

  lemma RotatedBag(groups: seq<seq<Event>>, cursor: nat)
    requires groups != []
    ensures Bag(Rotated(groups, cursor)) == Bag(groups)
  {
    var n := cursor % |groups|;
    BagConcat(groups[n..], groups[..n]);
    BagConcat(groups[..n], groups[n..]);
    assert groups == groups[..n] + groups[n..];
  }

  predicate DistinctKeys(keys: seq<GroupKey>) { forall i, j :: 0 <= i < j < |keys| ==> keys[i] != keys[j] }

  /** Over distinct keys, an event is in one group at most, and there as often as it was detected. */
  lemma {:induction false} GroupsBag(events: seq<Event>, keys: seq<GroupKey>, e: Event)
    requires DistinctKeys(keys)
    ensures Bag(GroupsOf(events, keys))[e] == if GroupOf(e) in keys then multiset(events)[e] else 0
  {
    if keys != [] {
      var groups := GroupsOf(events, keys);
      assert groups[1..] == GroupsOf(events, keys[1..]);
      assert forall i :: 0 <= i < |keys| - 1 ==> keys[1..][i] == keys[i + 1];
      GroupsBag(events, keys[1..], e);
      MembersCount(events, keys[0], e);
      assert GroupOf(e) in keys <==> GroupOf(e) == keys[0] || GroupOf(e) in keys[1..];
      hide Members;
    }
  }

  lemma {:induction false} FilterDistinct(keys: seq<GroupKey>, p: GroupKey -> bool)
    requires DistinctKeys(keys)
    ensures DistinctKeys(Filter(keys, p))
  {
    if keys != [] {
      assert forall i :: 0 <= i < |keys| - 1 ==> keys[1..][i] == keys[i + 1];
      FilterDistinct(keys[1..], p);
      var rest := Filter(keys[1..], p);
      assert keys[0] !in keys[1..];
      assert keys[0] !in rest;
      assert DistinctKeys([keys[0]] + rest);
    }
  }

  lemma OrderedDistinct(keys: seq<GroupKey>)
    requires Ordered(keys)
    ensures DistinctKeys(keys)
  {
    forall i, j | 0 <= i < j < |keys| ensures keys[i] != keys[j] {
      assert KeyBefore(keys[i], keys[j]);
    }
  }

  lemma EligibleBag(events: seq<Event>, time: Time, states: map<GroupKey, GroupState>)
    ensures Bag(GroupsOf(events, EligibleFor(events, time, states))) <= multiset(events)
  {
    var keys := EligibleFor(events, time, states);
    KeysAreOrdered(events);
    OrderedDistinct(GroupKeys(events));
    FilterDistinct(GroupKeys(events), (k: GroupKey) => IsEligible(k, time, states));
    forall e ensures Bag(GroupsOf(events, keys))[e] <= multiset(events)[e] {
      GroupsBag(events, keys, e);
    }
  }

  function EventsOf(outcomes: seq<Outcome>): seq<Event> { seq(|outcomes|, i requires 0 <= i < |outcomes| => outcomes[i].event) }

  lemma {:induction false} GroupProcesses(w: Work, envs: nat -> Env, from: nat, events: seq<Event>, budget: nat)
    ensures var g := RunGroup(w, envs, from, events, budget);
            |g.outcomes| <= |events| && EventsOf(g.outcomes) == events[..|g.outcomes|]
    decreases |events|
  {
    hide Process;
    if events != [] && budget > 0 {
      var p := Process(w, envs(from), events[0]);
      OutcomeEvent(w, envs(from), events[0]);
      if !p.outcome.deferred {
        GroupProcesses(p.work, envs, from + 1, events[1..], budget - 1);
        var rest := RunGroup(p.work, envs, from + 1, events[1..], budget - 1).outcomes;
        assert EventsOf([p.outcome] + rest) == [events[0]] + EventsOf(rest);
      }
    }
  }

  lemma PrefixBag(events: seq<Event>, n: nat)
    requires n <= |events|
    ensures multiset(events[..n]) <= multiset(events)
  {
    assert events == events[..n] + events[n..];
  }

  lemma EventsConcat(a: seq<Outcome>, b: seq<Outcome>)
    ensures multiset(EventsOf(a + b)) == multiset(EventsOf(a)) + multiset(EventsOf(b))
  {
    assert EventsOf(a + b) == EventsOf(a) + EventsOf(b);
  }

  lemma BagStep(groups: seq<seq<Event>>, a: multiset<Event>, b: multiset<Event>)
    requires groups != [] && a <= multiset(groups[0]) && b <= Bag(groups[1..])
    ensures a + b <= Bag(groups)
  {
  }

  /** A pass processes events of its groups, none more often than they hold it. */
  lemma {:induction false} PassProcesses(w: Work, envs: nat -> Env, from: nat, groups: seq<seq<Event>>, budget: nat)
    ensures multiset(EventsOf(RunGroups(w, envs, from, groups, budget).outcomes)) <= Bag(groups)
    decreases |groups|
  {
    hide RunGroup;
    hide RunGroups;
    hide Bag;
    hide EventsOf;
    if groups == [] || budget == 0 {
      PassStops(w, envs, from, groups, budget);
      NoEvents();
    } else {
      PassStep(w, envs, from, groups, budget);
      var g := RunGroup(w, envs, from, groups[0], budget);
      var rest := RunGroups(g.work, envs, from + |g.outcomes|, groups[1..], budget - |g.outcomes|);
      GroupProcesses(w, envs, from, groups[0], budget);
      PrefixBag(groups[0], |g.outcomes|);
      PassProcesses(g.work, envs, from + |g.outcomes|, groups[1..], budget - |g.outcomes|);
      EventsConcat(g.outcomes, rest.outcomes);
      BagStep(groups, multiset(EventsOf(g.outcomes)), multiset(EventsOf(rest.outcomes)));
    }
  }

  lemma NoEvents()
    ensures EventsOf([]) == []
  {
  }

  lemma TwiceCounts(events: seq<Event>, i: nat, j: nat)
    requires i < j < |events|
    ensures events[i] == events[j] ==> multiset(events)[events[i]] >= 2
  {
    assert events == events[..j] + [events[j]] + events[j + 1..];
    assert events[..j][i] == events[i] && events[i] in multiset(events[..j]);
  }

  lemma UniqueIsApart(outcomes: seq<Outcome>, envs: nat -> Env)
    requires Unique(multiset(EventsOf(outcomes)))
    ensures Apart(ItemsOf(outcomes, envs, 0))
  {
    var events := EventsOf(outcomes);
    assert forall i :: 0 <= i < |outcomes| ==> ItemsOf(outcomes, envs, 0)[i].0 == events[i];
    forall i, j | 0 <= i < j < |events| ensures RowKey(events[i]) != RowKey(events[j]) {
      assert events[i] in multiset(events) && events[j] in multiset(events);
      TwiceCounts(events, i, j);
    }
  }

  /** A poll of what the detector yields for distinct symbols processes at most one event a row. */
  lemma {:induction false} DetectedPollIsApart(w: Work, envs: nat -> Env, trackers: map<string, Tracker>, latest: Latest,
                                               symbols: seq<string>, time: Time, delay: nat, states: map<GroupKey, GroupState>,
                                               cursor: nat, budget: nat)
    requires DistinctNames(symbols)
    ensures var events := SortEvents(DetectAll(trackers, latest, symbols, time, delay));
            var p := PollPass(w, envs, GroupsOf(events, EligibleFor(events, time, states)), cursor, budget);
            Apart(ItemsOf(p.outcomes, envs, 0))
  {
    hide Unique;
    hide Apart;
    hide DetectAll;
    hide SortEvents;
    hide GroupsOf;
    hide EligibleFor;
    hide RunGroups;
    hide Rotated;
    var detected := DetectAll(trackers, latest, symbols, time, delay);
    var events := SortEvents(detected);
    var groups := GroupsOf(events, EligibleFor(events, time, states));
    var p := PollPass(w, envs, groups, cursor, budget);
    DetectedUnique(trackers, latest, symbols, time, delay);
    SortBag(detected);
    EligibleBag(events, time, states);
    if groups == [] {
      assert p.outcomes == [];
      AtMostOne(EventsOf(p.outcomes));
    } else {
      RotatedBag(groups, cursor);
      PassProcesses(w, envs, 0, Rotated(groups, cursor), budget);
      UniqueBelow(multiset(EventsOf(p.outcomes)), multiset(detected));
    }
    UniqueIsApart(p.outcomes, envs);
  }
}
