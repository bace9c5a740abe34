/** The append-only dataset catalog: how a dataset grows does not depend on how it is chunked. */
module Catalog {
  import opened Common
  import opened Timeframes
  import opened Candles

  type DatasetId = string

  datatype Dataset = Dataset(candles: seq<Candle>, conflicts: seq<Conflict>)

  /** The state of one append: what is known by key, what is new, what clashed. */
  datatype Progress = Progress(byKey: map<CandleKey, Candle>, added: seq<Candle>, conflicts: seq<Conflict>)

  function ByKey(s: seq<Candle>): (m: map<CandleKey, Candle>)
    ensures forall k :: k in m ==> m[k] in s && m[k].Key() == k
    ensures forall c :: c in s ==> c.Key() in m
  {
    if s == [] then map[] else
    assert forall c :: c in s <==> c in s[..|s| - 1] || c == s[|s| - 1];
    ByKey(s[..|s| - 1])[s[|s| - 1].Key() := s[|s| - 1]]
  }

  function Step(p: Progress, c: Candle): Progress {
    if c.Key() !in p.byKey then Progress(p.byKey[c.Key() := c], p.added + [c], p.conflicts)
    else if p.byKey[c.Key()] == c then p
    else p.(conflicts := p.conflicts + [Conflict(c.Key(), p.byKey[c.Key()], c)])
  }

  function Steps(p: Progress, cs: seq<Candle>): Progress {
    if cs == [] then p else Step(Steps(p, cs[..|cs| - 1]), cs[|cs| - 1])
  }

  function Appended(ds: Dataset, cs: seq<Candle>): (Dataset, nat) {
    var p := Steps(Progress(ByKey(ds.candles), [], ds.conflicts), cs);
    (Dataset(SortCandles(ds.candles + p.added), p.conflicts), |p.added|)
  }

  lemma StepsNone(p: Progress)
    ensures Steps(p, []) == p
  {
  }

  lemma StepsLast(p: Progress, cs: seq<Candle>, i: nat)
    requires i < |cs|
    ensures Steps(p, cs[..i + 1]) == Step(Steps(p, cs[..i]), cs[i])
  {
    assert cs[..i + 1][..i] == cs[..i];
  }

  class DatasetCatalog {
    var manifests: set<DatasetId>
    var candles: map<DatasetId, seq<Candle>>
    var appendConflicts: map<DatasetId, seq<Conflict>>

    constructor ()
      ensures manifests == {} && candles == map[] && appendConflicts == map[]
    {
      manifests, candles, appendConflicts := {}, map[], map[];
    }

    function DatasetOf(id: DatasetId): Dataset
      reads this
    {
      Dataset(if id in candles then candles[id] else [], if id in appendConflicts then appendConflicts[id] else [])
    }

    /** None where the catalog raises: the dataset was never published. */
    method AppendCandles(id: DatasetId, cs: seq<Candle>) returns (r: Option<nat>)
      modifies this`candles, this`appendConflicts
      ensures id !in manifests ==> r == None && unchanged(this)
      ensures id in manifests ==> r == Some(Appended(old(DatasetOf(id)), cs).1) && Holds(id, Appended(old(DatasetOf(id)), cs).0)
      ensures id in manifests ==> OthersKept(id)
    {
      hide Appended;
      hide Holds;
      if id !in manifests {
        return None;
      }
      var added := AppendPublished(id, cs);
      r := Some(added);
    }

    ghost predicate Holds(id: DatasetId, ds: Dataset)
      reads this
    {
      DatasetOf(id) == ds
    }

    twostate predicate OthersKept(id: DatasetId)
      reads this
    {
      && (forall other | other in candles :: other == id || (other in old(candles) && candles[other] == old(candles)[other]))
      && (forall other | other in appendConflicts ::
            other == id || (other in old(appendConflicts) && appendConflicts[other] == old(appendConflicts)[other]))
      && old(candles).Keys <= candles.Keys && old(appendConflicts).Keys <= appendConflicts.Keys
    }

    method AppendPublished(id: DatasetId, cs: seq<Candle>) returns (count: nat)
      modifies this`candles, this`appendConflicts
      ensures count == Appended(old(DatasetOf(id)), cs).1 && Holds(id, Appended(old(DatasetOf(id)), cs).0)
      ensures OthersKept(id)
    {
      hide SortCandles;
      hide Steps;
      hide ByKey;
      var existing := if id in candles then candles[id] else [];
      var before := if id in appendConflicts then appendConflicts[id] else [];
      var byKey, added, clashes := Absorb(ByKey(existing), before, cs);
      appendConflicts := if clashes == before then appendConflicts else appendConflicts[id := clashes];
      candles := candles[id := SortCandles(existing + added)];
      count := |added|;
    }
  }

  /** The loop of an append: candles of a new key are added, differing candles of a known key clash. */
  method Absorb(known: map<CandleKey, Candle>, before: seq<Conflict>, cs: seq<Candle>)
    returns (byKey: map<CandleKey, Candle>, added: seq<Candle>, clashes: seq<Conflict>)
    ensures Steps(Progress(known, [], before), cs) == Progress(byKey, added, clashes)
  {
    hide Steps;
    byKey, added, clashes := known, [], before;
    ghost var start := Progress(known, [], before);
    StepsNone(start);
    for i := 0 to |cs|
      invariant Steps(start, cs[..i]) == Progress(byKey, added, clashes)
    {
      var c := cs[i];
      StepsLast(start, cs, i);
      var key := c.Key();
      if key in byKey {
        if byKey[key] != c {
          clashes := clashes + [Conflict(key, byKey[key], c)];
        }
      } else {
        added := added + [c];
        byKey := byKey[key := c];
      }
    }
    assert cs[..|cs|] == cs;
  }

  /* ---------- chunking ---------- */

  lemma {:induction false} StepsAppend(p: Progress, a: seq<Candle>, b: seq<Candle>)
    ensures Steps(p, a + b) == Steps(Steps(p, a), b)
  {
    if b == [] {
      assert a + b == a;
    } else {
      StepsAppend(p, a, b[..|b| - 1]);
      assert (a + b)[..|a + b| - 1] == a + b[..|b| - 1];
    }
  }

  /** The new candles do not depend on which were new before: they are appended. */
  lemma {:induction false} StepsShift(m: map<CandleKey, Candle>, added: seq<Candle>, conflicts: seq<Conflict>, cs: seq<Candle>)
    ensures var p, q := Steps(Progress(m, [], conflicts), cs), Steps(Progress(m, added, conflicts), cs);
            q == Progress(p.byKey, added + p.added, p.conflicts)
  {
    if cs != [] {
      StepsShift(m, added, conflicts, cs[..|cs| - 1]);
    }
  }

  /** No two candles of a list share a key. */
  predicate KeysIdentify(s: seq<Candle>) {
    forall x, y :: x in s && y in s && x.Key() == y.Key() ==> x == y
  }

  lemma ByKeyOfSet(s: seq<Candle>, t: seq<Candle>)
    requires KeysIdentify(s) && forall c :: c in s <==> c in t
    ensures ByKey(s) == ByKey(t)
  {
    hide ByKey;
    var m, n := ByKey(s), ByKey(t);
    forall k | k in m ensures k in n && n[k] == m[k] {
      assert m[k] in t;
    }
    forall k | k in n ensures k in m {
      assert n[k] in s;
    }
  }

  /** During an append the index holds exactly the existing and the new candles, one per key. */
  predicate Indexed(p: Progress, existing: seq<Candle>) {
    && (forall c :: c in existing + p.added ==> c.Key() in p.byKey && p.byKey[c.Key()] == c)
    && (forall k :: k in p.byKey ==> p.byKey[k] in existing + p.added && p.byKey[k].Key() == k)
  }

  lemma StepIndexed(p: Progress, existing: seq<Candle>, c: Candle)
    requires Indexed(p, existing)
    ensures Indexed(Step(p, c), existing)
  {
    var q := Step(p, c);
    if q.added != p.added {
      assert forall x :: x in existing + q.added <==> x in existing + p.added || x == c;
    }
  }

  lemma {:induction false} StepsIndexed(p: Progress, existing: seq<Candle>, cs: seq<Candle>)
    requires Indexed(p, existing)
    ensures Indexed(Steps(p, cs), existing)
  {
    if cs != [] {
      StepsIndexed(p, existing, cs[..|cs| - 1]);
      StepIndexed(Steps(p, cs[..|cs| - 1]), existing, cs[|cs| - 1]);
    }
  }

  lemma StartIndexed(ds: Dataset)
    requires KeysIdentify(ds.candles)
    ensures Indexed(Progress(ByKey(ds.candles), [], ds.conflicts), ds.candles)
  {
  }

  lemma IndexedIsByKey(p: Progress, existing: seq<Candle>)
    requires Indexed(p, existing)
    ensures KeysIdentify(existing + p.added) && p.byKey == ByKey(existing + p.added)
  {
    hide ByKey;
    var all := existing + p.added;
    forall k | k in p.byKey ensures k in ByKey(all) && ByKey(all)[k] == p.byKey[k] {
      assert p.byKey[k] in all;
    }
    forall k | k in ByKey(all) ensures k in p.byKey {
      assert ByKey(all)[k] in all;
    }
  }

  /** Appending keeps one candle per key, in order of open time. */
  lemma AppendKeepsKeys(ds: Dataset, cs: seq<Candle>)
    requires KeysIdentify(ds.candles)
    ensures KeysIdentify(Appended(ds, cs).0.candles) && SortedByOpen(Appended(ds, cs).0.candles)
    ensures ByKey(Appended(ds, cs).0.candles) == Steps(Progress(ByKey(ds.candles), [], ds.conflicts), cs).byKey
  {
    hide SortCandles;
    hide ByKey;
    hide Indexed;
    var p := Progress(ByKey(ds.candles), [], ds.conflicts);
    StartIndexed(ds);
    StepsIndexed(p, ds.candles, cs);
    IndexedIsByKey(Steps(p, cs), ds.candles);
    ByKeyOfSet(ds.candles + Steps(p, cs).added, SortCandles(ds.candles + Steps(p, cs).added));
  }

  /** Appending a batch in two parts is appending it whole: same candles, same conflicts, same total. */
  lemma {:induction false} ChunkingIndependent(ds: Dataset, a: seq<Candle>, b: seq<Candle>)
    requires KeysIdentify(ds.candles)
    ensures var first := Appended(ds, a); var second := Appended(first.0, b); var whole := Appended(ds, a + b);
            second.0 == whole.0 && first.1 + second.1 == whole.1
  {
    hide SortCandles;
    hide ByKey;
    hide KeysIdentify;
    hide Steps;
    hide SortedByOpen;
    var p := Steps(Progress(ByKey(ds.candles), [], ds.conflicts), a);
    var first := Appended(ds, a).0;
    StepsAppend(Progress(ByKey(ds.candles), [], ds.conflicts), a, b);
    AppendKeepsKeys(ds, a);
    StepsShift(p.byKey, p.added, p.conflicts, b);
    var q := Steps(Progress(p.byKey, [], p.conflicts), b);
    assert ds.candles + (p.added + q.added) == (ds.candles + p.added) + q.added;
    SortAppend(ds.candles + p.added, q.added);
  }

  function Concat(chunks: seq<seq<Candle>>): seq<Candle> {
    if chunks == [] then [] else Concat(chunks[..|chunks| - 1]) + chunks[|chunks| - 1]
  }

  function AppendChunks(ds: Dataset, chunks: seq<seq<Candle>>): (Dataset, nat) {
    if chunks == [] then (ds, 0) else
    var before := AppendChunks(ds, chunks[..|chunks| - 1]);
    var last := Appended(before.0, chunks[|chunks| - 1]);
    (last.0, before.1 + last.1)
  }

  /** Any split of a batch gives the result of appending it whole. */
  lemma {:induction false} AnySplit(ds: Dataset, chunks: seq<seq<Candle>>)
    requires KeysIdentify(ds.candles) && SortedByOpen(ds.candles)
    ensures AppendChunks(ds, chunks) == Appended(ds, Concat(chunks))
  {
    hide SortCandles;
    hide ByKey;
    if chunks == [] {
      SortOfSorted(ds.candles);
      assert ds.candles + [] == ds.candles;
    } else {
      hide Appended;
      hide KeysIdentify;
      AnySplit(ds, chunks[..|chunks| - 1]);
      ChunkingIndependent(ds, Concat(chunks[..|chunks| - 1]), chunks[|chunks| - 1]);
    }
  }

  lemma {:induction false} KnownCandlesChangeNothing(p: Progress, cs: seq<Candle>)
    requires forall c :: c in cs ==> c.Key() in p.byKey && p.byKey[c.Key()] == c
    ensures Steps(p, cs) == p
  {
    if cs != [] {
      KnownCandlesChangeNothing(p, cs[..|cs| - 1]);
      assert cs[|cs| - 1] in cs;
    }
  }

  /** Appending what is already stored, whole or in part, adds nothing and records no conflict. */
  lemma {:induction false} ReappendIsNoOp(ds: Dataset, again: seq<Candle>)
    requires KeysIdentify(ds.candles) && SortedByOpen(ds.candles) && forall c :: c in again ==> c in ds.candles
    ensures Appended(ds, again) == (ds, 0)
  {
    hide SortCandles;
    hide ByKey;
    var p := Progress(ByKey(ds.candles), [], ds.conflicts);
    StartIndexed(ds);
    assert ds.candles + p.added == ds.candles;
    KnownCandlesChangeNothing(p, again);
    SortOfSorted(ds.candles);
  }

  /** What an append means: every old candle stays, and a new one enters exactly when its key was unknown and it comes
      first in the batch. */
  lemma {:induction false} AppendMeans(ds: Dataset, cs: seq<Candle>, k: CandleKey)
    requires KeysIdentify(ds.candles)
    ensures var m := ByKey(Appended(ds, cs).0.candles); var known := ByKey(ds.candles);
            (k in known ==> k in m && m[k] == known[k]) &&
            (k !in known ==>
               (k in m <==> exists c :: c in cs && c.Key() == k) &&
               (k in m ==> exists i :: 0 <= i < |cs| && cs[i] == m[k] && forall j :: 0 <= j < i ==> cs[j].Key() != k))
  {
    hide SortCandles;
    AppendKeepsKeys(ds, cs);
    StepsMeans(Progress(ByKey(ds.candles), [], ds.conflicts), cs, k);
  }

  lemma {:induction false} StepsMeans(p: Progress, cs: seq<Candle>, k: CandleKey)
    ensures var m := Steps(p, cs).byKey;
            (k in p.byKey ==> k in m && m[k] == p.byKey[k]) &&
            (k !in p.byKey ==>
               (k in m <==> exists c :: c in cs && c.Key() == k) &&
               (k in m ==> exists i :: 0 <= i < |cs| && cs[i] == m[k] && forall j :: 0 <= j < i ==> cs[j].Key() != k))
  {
    if cs != [] {
      var front, last := cs[..|cs| - 1], cs[|cs| - 1];
      StepsMeans(p, front, k);
      assert forall c :: c in cs <==> c in front || c == last;
      var m := Steps(p, cs).byKey;
      if k !in p.byKey && k in Steps(p, front).byKey {
        var i :| 0 <= i < |front| && front[i] == m[k] && forall j :: 0 <= j < i ==> front[j].Key() != k;
        assert cs[i] == m[k] && forall j :: 0 <= j < i ==> cs[j] == front[j];
      } else if k !in p.byKey && k in m {
        assert cs[|cs| - 1] == m[k];
        forall j | 0 <= j < |cs| - 1 ensures cs[j].Key() != k {
          assert front[j] in front;
        }
      }
    }
  }

  /** The candles of a batch that differ from what is stored for their key, each as a conflict, in batch order. */
  function Differing(stored: map<CandleKey, Candle>, cs: seq<Candle>): seq<Conflict>
    requires forall c :: c in cs ==> c.Key() in stored
  {
    if cs == [] then [] else
    var c := cs[|cs| - 1];
    assert forall x :: x in cs[..|cs| - 1] ==> x in cs;
    Differing(stored, cs[..|cs| - 1]) +
    if stored[c.Key()] == c then [] else [Conflict(c.Key(), stored[c.Key()], c)]
  }

  lemma {:induction false} DifferingAgrees(a: map<CandleKey, Candle>, b: map<CandleKey, Candle>, cs: seq<Candle>)
    requires forall c :: c in cs ==> c.Key() in a && c.Key() in b && a[c.Key()] == b[c.Key()]
    ensures Differing(a, cs) == Differing(b, cs)
  {
    if cs != [] {
      assert cs[|cs| - 1] in cs;
      DifferingAgrees(a, b, cs[..|cs| - 1]);
    }
  }

  lemma {:induction false} StepsRecord(p: Progress, cs: seq<Candle>)
    ensures var q := Steps(p, cs);
            (forall c :: c in cs ==> c.Key() in q.byKey) && q.conflicts == p.conflicts + Differing(q.byKey, cs)
  {
    if cs != [] {
      var front, last := cs[..|cs| - 1], cs[|cs| - 1];
      StepsRecord(p, front);
      var before, q := Steps(p, front), Steps(p, cs);
      assert forall c :: c in cs <==> c in front || c == last;
      DifferingAgrees(before.byKey, q.byKey, front);
      hide Steps;
      assert q == Step(before, last);
    }
  }

  /** An append records one conflict for each candle of the batch that differs from the one its key ends up with, and
      counts what it adds. */
  lemma {:induction false} AppendRecords(ds: Dataset, cs: seq<Candle>)
    requires KeysIdentify(ds.candles)
    ensures var after := Appended(ds, cs); var stored := ByKey(after.0.candles);
            (forall c :: c in cs ==> c.Key() in stored) && after.0.conflicts == ds.conflicts + Differing(stored, cs) &&
            |after.0.candles| == |ds.candles| + after.1
  {
    AppendKeepsKeys(ds, cs);
    var p := Progress(ByKey(ds.candles), [], ds.conflicts);
    StepsRecord(p, cs);
    var all := ds.candles + Steps(p, cs).added;
    assert |multiset(SortCandles(all))| == |multiset(all)|;
    hide Steps;
    hide SortCandles;
    hide ByKey;
    hide Differing;
  }
}
