/** The in-memory candle store: insert-or-ignore for history, finalise-once updates for the live feed. */
module Repository {
  import opened Common
  import opened Timeframes
  import opened Candles

  datatype Db = Db(store: map<CandleKey, Candle>, conflicts: seq<Conflict>)

  predicate KeysMatch(store: map<CandleKey, Candle>) {
    forall k :: k in store ==> store[k].Key() == k
  }

  function Stored(db: Db, c: Candle): Db { db.(store := db.store[c.Key() := c]) }

  function Clash(db: Db, c: Candle): Conflict
    requires c.Key() in db.store
  {
    Conflict(c.Key(), db.store[c.Key()], c)
  }

  function Clashed(db: Db, c: Candle): Db
    requires c.Key() in db.store
  {
    db.(conflicts := db.conflicts + [Clash(db, c)])
  }

  /** History: the first candle of a key stays; a differing later one is recorded as a conflict. */
  function PutOnce(db: Db, c: Candle): Db {
    if c.Key() !in db.store then Stored(db, c)
    else if db.store[c.Key()] == c then db
    else Clashed(db, c)
  }

  /** Whether the live policy lets a differing candle replace the stored one. */
  predicate Replaceable(existing: Candle, c: Candle, evaluation: Time) {
    (!existing.isClosed && c.isClosed) || !IsClosedAt(existing.closeTime, evaluation)
  }

  function PutLive(db: Db, c: Candle, evaluation: Time): Db {
    if c.Key() !in db.store then Stored(db, c)
    else if db.store[c.Key()] == c then db
    else if Replaceable(db.store[c.Key()], c, evaluation) then Stored(db, c)
    else Clashed(db, c)
  }

  function PutMany(db: Db, cs: seq<Candle>): Db {
    if cs == [] then db else PutOnce(PutMany(db, cs[..|cs| - 1]), cs[|cs| - 1])
  }

  /* ---------- reading a series back ---------- */

  predicate InRange(c: Candle, symbol: Symbol, tf: Timeframe, start: Option<Time>, end: Option<Time>) {
    && c.symbol == symbol && c.tf == tf
    && (start.Some? ==> c.openTime >= start.value) && (end.Some? ==> c.openTime <= end.value)
  }

  /** What a range query answers: the matching stored candles, in order of open time. */
  ghost predicate IsRange(r: seq<Candle>, store: map<CandleKey, Candle>, symbol: Symbol, tf: Timeframe,
                          start: Option<Time>, end: Option<Time>)
  {
    && StrictlySorted(r)
    && forall c :: c in r <==>
         c in store.Values && c.symbol == symbol && c.tf == tf && (start == None || start.value <= c.openTime) &&
         (end == None || c.openTime <= end.value)
  }

  /** The answer of `get_closed_before`: everything of a series that has closed, in order. */
  ghost predicate IsClosedSeries(r: seq<Candle>, store: map<CandleKey, Candle>, symbol: Symbol, tf: Timeframe, evaluation: Time) {
    && StrictlySorted(r)
    && forall c :: c in r <==> c in store.Values && c.symbol == symbol && c.tf == tf && c.closeTime <= evaluation
  }

  /** The answer depends on nothing but the closed candles of the series. */
  lemma ClosedSeriesUnique(r: seq<Candle>, q: seq<Candle>, a: map<CandleKey, Candle>, b: map<CandleKey, Candle>,
                           symbol: Symbol, tf: Timeframe, evaluation: Time)
    requires IsClosedSeries(r, a, symbol, tf, evaluation) && IsClosedSeries(q, b, symbol, tf, evaluation)
    requires forall c: Candle | c.symbol == symbol && c.tf == tf && c.closeTime <= evaluation ::
               c in a.Values <==> c in b.Values
    ensures r == q
  {
    StrictlySortedUnique(r, q);
  }

  class CandleRepository {
    var store: map<CandleKey, Candle>
    var conflicts: seq<Conflict>

    ghost predicate Valid()
      reads this
    {
      KeysMatch(store)
    }

    ghost function State(): Db
      reads this
    {
      Db(store, conflicts)
    }

    constructor ()
      ensures Valid() && State() == Db(map[], [])
    {
      store, conflicts := map[], [];
    }

    method Upsert(c: Candle) returns (added: bool, conflict: Option<Conflict>)
      requires Valid()
      modifies this
      ensures Valid() && State() == PutOnce(old(State()), c)
      ensures added <==> c.Key() !in old(store)
      ensures conflict == if State() == old(State()) || added then None else Some(Clash(old(State()), c))
    {
      var key := c.Key();
      if key !in store {
        store := store[key := c];
        return true, None;
      }
      if store[key] == c {
        return false, None;
      }
      var clash := Conflict(key, store[key], c);
      conflicts := conflicts + [clash];
      return false, Some(clash);
    }

    method UpsertLive(c: Candle, evaluation: Time) returns (added: bool, conflict: Option<Conflict>)
      requires Valid()
      modifies this
      ensures Valid() && State() == PutLive(old(State()), c, evaluation)
      ensures added <==> store != old(store)
      ensures conflict == if State() == old(State()) || added then None else Some(Clash(old(State()), c))
    {
      var key := c.Key();
      if key !in store {
        store := store[key := c];
        return true, None;
      }
      var existing := store[key];
      if existing == c {
        return false, None;
      }
      if !existing.isClosed && c.isClosed {
        store := store[key := c];
        assert store[key] != old(store)[key];
        return true, None;
      }
      if !IsClosedAt(existing.closeTime, evaluation) {
        store := store[key := c];
        assert store[key] != old(store)[key];
        return true, None;
      }
      var clash := Conflict(key, existing, c);
      conflicts := conflicts + [clash];
      return false, Some(clash);
    }

    method UpsertMany(cs: seq<Candle>) returns (inserted: nat, clashes: seq<Conflict>)
      requires Valid()
      modifies this
      ensures Valid() && State() == PutMany(old(State()), cs)
      ensures conflicts == old(conflicts) + clashes
      ensures |store| == |old(store)| + inserted
    {
      inserted, clashes := 0, [];
      for i := 0 to |cs|
        invariant Valid() && State() == PutMany(old(State()), cs[..i])
        invariant conflicts == old(conflicts) + clashes
        invariant |store| == |old(store)| + inserted
      {
        ghost var before := store;
        var added, conflict := Upsert(cs[i]);
        assert cs[..i + 1][..i] == cs[..i];
        if added {
          inserted := inserted + 1;
          assert store.Keys == before.Keys + {cs[i].Key()};
        }
        if conflict.Some? {
          clashes := clashes + [conflict.value];
        }
      }
      assert cs[..|cs|] == cs;
    }

    method GetRange(symbol: Symbol, tf: Timeframe, start: Option<Time>, end: Option<Time>) returns (r: seq<Candle>)
      requires Valid()
      ensures IsRange(r, store, symbol, tf, start, end)
    {
      hide IsRange;
      hide InRange;
      var rest := store.Keys;
      r := [];
      while rest != {}
        invariant rest <= store.Keys && StrictlySorted(r)
        invariant forall c :: c in r <==>
                    c.Key() in store.Keys - rest && store[c.Key()] == c && InRange(c, symbol, tf, start, end)
        decreases rest
      {
        var k :| k in rest;
        rest := rest - {k};
        if InRange(store[k], symbol, tf, start, end) {
          RangeNew(r, store, k, symbol, tf, start, end);
          InsertStrict(r, store[k]);
          r := Insert(r, store[k]);
        }
      }
      RangeIs(r, store, symbol, tf, start, end);
    }

    method GetLatest(symbol: Symbol, tf: Timeframe) returns (c: Option<Candle>)
      requires Valid()
      ensures c.None? ==> forall x :: x in store.Values ==> x.symbol != symbol || x.tf != tf
      ensures c.Some? ==> c.value in store.Values && c.value.symbol == symbol && c.value.tf == tf &&
                          forall x :: x in store.Values && x.symbol == symbol && x.tf == tf ==> x.openTime <= c.value.openTime
    {
      var r := GetRange(symbol, tf, None, None);
      if r == [] {
        assert forall x :: x in store.Values && InRange(x, symbol, tf, None, None) ==> x in r;
        return None;
      }
      assert r[|r| - 1] in r;
      assert forall x :: x in store.Values && InRange(x, symbol, tf, None, None) ==> x in r;
      return Some(r[|r| - 1]);
    }

    method GetClosedBefore(symbol: Symbol, tf: Timeframe, evaluation: Time) returns (r: seq<Candle>)
      requires Valid()
      ensures IsClosedSeries(r, store, symbol, tf, evaluation)
    {
      var all := GetRange(symbol, tf, None, None);
      r := Filter(all, (c: Candle) => IsClosedAt(c.closeTime, evaluation));
      FilterKeepsStrictOrder(all, (c: Candle) => IsClosedAt(c.closeTime, evaluation));
    }
  }

  lemma RangeNew(r: seq<Candle>, store: map<CandleKey, Candle>, k: CandleKey, symbol: Symbol, tf: Timeframe,
                 start: Option<Time>, end: Option<Time>)
    requires KeysMatch(store) && k in store && InRange(store[k], symbol, tf, start, end)
    requires forall c :: c in r ==> c.Key() != k && InRange(c, symbol, tf, start, end)
    ensures forall c :: c in r ==> c.openTime != store[k].openTime
  {
  }

  lemma RangeIs(r: seq<Candle>, store: map<CandleKey, Candle>, symbol: Symbol, tf: Timeframe, start: Option<Time>,
                end: Option<Time>)
    requires KeysMatch(store) && StrictlySorted(r)
    requires forall c :: c in r <==> c.Key() in store && store[c.Key()] == c && InRange(c, symbol, tf, start, end)
    ensures IsRange(r, store, symbol, tf, start, end)
  {
    assert forall c :: c in store.Values <==> c.Key() in store && store[c.Key()] == c;
  }

  lemma InsertStrict(s: seq<Candle>, c: Candle)
    requires StrictlySorted(s) && forall x :: x in s ==> x.openTime != c.openTime
    ensures StrictlySorted(Insert(s, c))
  {
    if s != [] && s[|s| - 1].openTime > c.openTime {
      var front, last := s[..|s| - 1], s[|s| - 1];
      InsertStrict(front, c);
      assert s == front + [last];
      AppendStrict(Insert(front, c), last, front, c);
    } else {
      assert s != [] ==> s[|s| - 1] in s;
    }
  }

  lemma AppendStrict(inserted: seq<Candle>, last: Candle, front: seq<Candle>, c: Candle)
    requires StrictlySorted(inserted) && c.openTime < last.openTime
    requires forall x :: x in front ==> x.openTime < last.openTime
    requires forall x :: x in inserted <==> x in front || x == c
    ensures StrictlySorted(inserted + [last])
  {
    forall i | 0 <= i < |inserted| ensures inserted[i].openTime < last.openTime {
      assert inserted[i] in inserted;
    }
  }

  /* ---------- runs of writes ---------- */

  /** A write as it reaches the store; `at` is the evaluation time it was normalised at. */
  datatype Write = Live(candle: Candle, at: Time) | Batch(candle: Candle, at: Time)

  function Apply(db: Db, w: Write): Db {
    match w
    case Live(c, t) => PutLive(db, c, t)
    case Batch(c, t) => PutOnce(db, c)
  }

  function Run(db: Db, ws: seq<Write>): Db
    decreases |ws|
  {
    if ws == [] then db else Run(Apply(db, ws[0]), ws[1..])
  }

  /** A candle is only flagged closed once its period has ended. */
  predicate HonestFlag(c: Candle, at: Time) { c.isClosed ==> c.closeTime <= at }

  /** Writes come with non-decreasing evaluation times, none before `now`. */
  predicate Timely(ws: seq<Write>, now: Time) {
    && (forall i :: 0 <= i < |ws| ==> now <= ws[i].at && HonestFlag(ws[i].candle, ws[i].at))
    && (forall i, j :: 0 <= i < j < |ws| ==> ws[i].at <= ws[j].at)
  }

  predicate Settled(db: Db, now: Time) {
    KeysMatch(db.store) && forall k :: k in db.store ==> HonestFlag(db.store[k], now)
  }

  lemma ApplySettled(db: Db, w: Write, now: Time)
    requires Settled(db, now) && now <= w.at && HonestFlag(w.candle, w.at)
    ensures Settled(Apply(db, w), w.at)
  {
  }

  /** When the live policy overwrites a finalised candle: exactly when asked at a time before the
      candle's own close. */
  lemma {:induction false} OverwritesFinalised(db: Db, c: Candle, at: Time)
    requires c.Key() in db.store && db.store[c.Key()].isClosed
    ensures PutLive(db, c, at).store[c.Key()] != db.store[c.Key()] <==>
            c != db.store[c.Key()] && at < db.store[c.Key()].closeTime
  {
  }

  /** The conflicts a run of writes raises against the finalised candle of a key, in order. */
  function Differing(ws: seq<Write>, final: Candle): seq<Conflict> {
    if ws == [] then [] else
    (if ws[0].candle.Key() == final.Key() && ws[0].candle != final
     then [Conflict(final.Key(), final, ws[0].candle)] else []) +
    Differing(ws[1..], final)
  }

  function ConflictsOf(conflicts: seq<Conflict>, key: CandleKey): seq<Conflict> {
    Filter(conflicts, (x: Conflict) => x.key == key)
  }

  lemma ApplyKeepsFinal(db: Db, w: Write, now: Time, key: CandleKey)
    requires Settled(db, now) && now <= w.at && key in db.store && db.store[key].isClosed
    ensures var after := Apply(db, w); var final := db.store[key];
            key in after.store && after.store[key] == final &&
            ConflictsOf(after.conflicts, key) == ConflictsOf(db.conflicts, key) +
              (if w.candle.Key() == key && w.candle != final then [Conflict(key, final, w.candle)] else [])
  {
    var ofKey := (x: Conflict) => x.key == key;
    var after := Apply(db, w);
    if after.conflicts != db.conflicts {
      FilterAppend(db.conflicts, [Clash(db, w.candle)], ofKey);
      assert Filter([Clash(db, w.candle)], ofKey) == if w.candle.Key() == key then [Clash(db, w.candle)] else [];
    }
  }

  /** A finalised candle never changes again, and each later differing candle of its key is
      recorded as exactly one conflict, in order. */
  lemma {:induction false} FinaliseOnce(db: Db, ws: seq<Write>, now: Time, key: CandleKey)
    requires Settled(db, now) && Timely(ws, now) && key in db.store && db.store[key].isClosed
    ensures key in Run(db, ws).store && Run(db, ws).store[key] == db.store[key]
    ensures ConflictsOf(Run(db, ws).conflicts, key) == ConflictsOf(db.conflicts, key) + Differing(ws, db.store[key])
    decreases |ws|
  {
    hide ConflictsOf;
    if ws != [] {
      var after := Apply(db, ws[0]);
      ApplySettled(db, ws[0], now);
      ApplyKeepsFinal(db, ws[0], now, key);
      assert forall i :: 0 <= i < |ws[1..]| ==> ws[1..][i] == ws[i + 1];
      FinaliseOnce(after, ws[1..], ws[0].at, key);
    }
  }

  /* ---------- what a write does, case by case ---------- */

  /** The first candle of a key is stored, by either path. */
  lemma NewKeyIsStored(db: Db, w: Write)
    requires w.candle.Key() !in db.store
    ensures Apply(db, w).store == db.store[w.candle.Key() := w.candle] && Apply(db, w).conflicts == db.conflicts
  {
  }

  /** A closed candle finalises an open one, whenever it comes. */
  lemma LiveFinalises(db: Db, c: Candle, at: Time)
    requires c.Key() in db.store && !db.store[c.Key()].isClosed && c.isClosed
    ensures var after := Apply(db, Live(c, at));
            after.store == db.store[c.Key() := c] && after.conflicts == db.conflicts
  {
  }

  /** An open candle replaces an open one until that one's close; from then on, if it differs, it is a conflict. */
  lemma LiveUpdatesUntilClose(db: Db, c: Candle, at: Time)
    requires c.Key() in db.store && !db.store[c.Key()].isClosed && !c.isClosed && c != db.store[c.Key()]
    ensures var after := Apply(db, Live(c, at)); var was := db.store[c.Key()];
            if at < was.closeTime then after.store == db.store[c.Key() := c] && after.conflicts == db.conflicts
            else after.store == db.store && after.conflicts == db.conflicts + [Conflict(c.Key(), was, c)]
  {
  }

  /** History never replaces a candle: a differing one is a conflict, the same one nothing. */
  lemma HistoryKeeps(db: Db, c: Candle, at: Time)
    requires c.Key() in db.store
    ensures var after := Apply(db, Batch(c, at)); var was := db.store[c.Key()];
            after.store == db.store && after.conflicts == db.conflicts + if c == was then [] else [Conflict(c.Key(), was, c)]
  {
  }

  lemma {:induction false} RunAppend(db: Db, a: seq<Write>, b: seq<Write>)
    ensures Run(db, a + b) == Run(Run(db, a), b)
    decreases |a|
  {
    if a == [] {
      assert a + b == b;
    } else {
      assert (a + b)[0] == a[0] && (a + b)[1..] == a[1..] + b;
      RunAppend(Apply(db, a[0]), a[1..], b);
    }
  }

  lemma {:induction false} RunSettled(db: Db, ws: seq<Write>, now: Time)
    requires Settled(db, now) && Timely(ws, now)
    ensures Settled(Run(db, ws), if ws == [] then now else ws[|ws| - 1].at)
    decreases |ws|
  {
    if ws != [] {
      ApplySettled(db, ws[0], now);
      assert forall i :: 0 <= i < |ws[1..]| ==> ws[1..][i] == ws[i + 1];
      RunSettled(Apply(db, ws[0]), ws[1..], ws[0].at);
    }
  }

  predicate NotFinal(db: Db, key: CandleKey) { key in db.store ==> !db.store[key].isClosed }

  lemma {:induction false} StaysNotFinal(db: Db, ws: seq<Write>, key: CandleKey)
    requires NotFinal(db, key) && KeysMatch(db.store)
    requires forall j :: 0 <= j < |ws| && ws[j].candle.Key() == key ==> !ws[j].candle.isClosed
    ensures NotFinal(Run(db, ws), key)
    decreases |ws|
  {
    if ws != [] {
      assert forall i :: 0 <= i < |ws[1..]| ==> ws[1..][i] == ws[i + 1];
      StaysNotFinal(Apply(db, ws[0]), ws[1..], key);
    }
  }

  lemma TimelyParts(ws: seq<Write>, now: Time, i: nat)
    requires Timely(ws, now) && i < |ws|
    ensures Timely(ws[..i], now) && Timely(ws[i + 1..], ws[i].at)
    ensures i > 0 ==> ws[i - 1].at <= ws[i].at
  {
  }

  /** Over any timely run that starts with a key open or absent, the first closed candle of the key that comes live is the
      one that is stored from then on, and every later differing one is a conflict. */
  lemma {:induction false} FirstClosedLiveStays(db: Db, ws: seq<Write>, i: nat, now: Time, key: CandleKey)
    requires Settled(db, now) && Timely(ws, now) && NotFinal(db, key)
    requires i < |ws| && ws[i].Live? && ws[i].candle.Key() == key && ws[i].candle.isClosed
    requires forall j :: 0 <= j < i && ws[j].candle.Key() == key ==> !ws[j].candle.isClosed
    ensures key in Run(db, ws).store && Run(db, ws).store[key] == ws[i].candle
    ensures ConflictsOf(Run(db, ws).conflicts, key) ==
            ConflictsOf(Run(db, ws[..i]).conflicts, key) + Differing(ws[i + 1..], ws[i].candle)
  {
    hide ConflictsOf;
    hide Run;
    hide Settled;
    var before := Run(db, ws[..i]);
    var after := Apply(before, ws[i]);
    TimelyParts(ws, now, i);
    SettledKeys(db, now);
    StaysNotFinal(db, ws[..i], key);
    RunSettled(db, ws[..i], now);
    SettledUntil(before, if i == 0 then now else ws[i - 1].at, ws[i].at);
    ApplySettled(before, ws[i], ws[i].at);
    if key in before.store {
      LiveFinalises(before, ws[i].candle, ws[i].at);
    } else {
      NewKeyIsStored(before, ws[i]);
    }
    hide Apply;
    FinaliseOnce(after, ws[i + 1..], ws[i].at, key);
    RunOne(before, ws[i]);
    RunAppend(before, [ws[i]], ws[i + 1..]);
    RunAppend(db, ws[..i], [ws[i]] + ws[i + 1..]);
    assert ws == ws[..i] + ([ws[i]] + ws[i + 1..]);
  }

  lemma RunOne(db: Db, w: Write)
    ensures Run(db, [w]) == Apply(db, w)
  {
    assert [w][1..] == [];
  }

  lemma SettledKeys(db: Db, now: Time)
    requires Settled(db, now)
    ensures KeysMatch(db.store)
  {
  }

  lemma SettledUntil(db: Db, now: Time, later: Time)
    requires Settled(db, now) && now <= later
    ensures Settled(db, later)
  {
  }
}
