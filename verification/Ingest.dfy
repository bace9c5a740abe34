/** Provider payloads: validation, normalisation to canonical periods, and ingestion into the store. */
module Ingest {
  import opened Common
  import opened Timeframes
  import opened Candles
  import opened Gaps
  import opened Repository

  /** A provider payload whose symbol has been resolved. */
  datatype RawCandle = RawCandle(
    symbol: Symbol, tf: Timeframe, openTime: Time, closeTime: Time,
    open: real, high: real, low: real, close: real, volume: real, isClosed: bool)

  function RawCodes(raw: RawCandle): seq<ReasonCode> {
    if raw.volume < 0.0 then [MdInvalidVolume] else []
  }

  lemma CanonicalClose(t: Time, tf: Timeframe)
    ensures ExpectedClose(CanonicalOpen(t, tf), tf) == Some(PeriodClose(tf, PeriodIndex(tf, t)))
  {
    hide PeriodOpen;
    hide PeriodIndex;
    hide ExpectedClose;
    hide CanonicalOpen;
    CanonicalOpenIsPeriodOpen(tf, t);
    PeriodSteps(tf, PeriodIndex(tf, t));
  }

  /** The payload placed on its canonical period; flagged closed only once that period has ended. */
  function Normalize(raw: RawCandle, evaluation: Time): Candle {
    CanonicalClose(raw.openTime, raw.tf);
    var open := CanonicalOpen(raw.openTime, raw.tf);
    var close := ExpectedClose(open, raw.tf).value;
    Candle(raw.symbol, raw.tf, open, close, raw.open, raw.high, raw.low, raw.close, raw.volume,
           raw.isClosed && IsClosedAt(close, evaluation))
  }

  /** A candle on its canonical period. */
  predicate Canonical(c: Candle) {
    Aligned(c.tf, c.openTime) && c.closeTime == PeriodClose(c.tf, PeriodIndex(c.tf, c.openTime))
  }

  lemma NormalizedIsCanonical(raw: RawCandle, evaluation: Time)
    ensures Canonical(Normalize(raw, evaluation)) && HasExpectedClose(Normalize(raw, evaluation))
    ensures HonestFlag(Normalize(raw, evaluation), evaluation)
    ensures PeriodIndex(raw.tf, Normalize(raw, evaluation).openTime) == PeriodIndex(raw.tf, raw.openTime)
  {
    hide PeriodOpen;
    hide PeriodIndex;
    hide CanonicalOpen;
    hide ExpectedClose;
    CanonicalClose(raw.openTime, raw.tf);
    CanonicalOpenIsPeriodOpen(raw.tf, raw.openTime);
    OpenIsAligned(raw.tf, PeriodIndex(raw.tf, raw.openTime));
  }

  /** Normalising moves a payload in time and touches nothing else of it; it stays closed if its period has ended. */
  lemma NormalizeKeeps(raw: RawCandle, evaluation: Time)
    ensures var c := Normalize(raw, evaluation);
            && c.symbol == raw.symbol && c.tf == raw.tf && c.volume == raw.volume
            && c.open == raw.open && c.high == raw.high && c.low == raw.low && c.close == raw.close
            && (c.isClosed <==> raw.isClosed && c.closeTime <= evaluation)
  {
    hide CanonicalOpen;
    hide ExpectedClose;
  }

  /** Normalising is idempotent on the period: the canonical open of a canonical open is itself. */
  lemma NormalizeIdempotent(raw: RawCandle, evaluation: Time)
    ensures Normalize(raw.(openTime := Normalize(raw, evaluation).openTime), evaluation) == Normalize(raw, evaluation)
  {
    hide PeriodOpen;
    hide PeriodIndex;
    hide CanonicalOpen;
    hide ExpectedClose;
    CanonicalOpenIsPeriodOpen(raw.tf, raw.openTime);
    OpenIsAligned(raw.tf, PeriodIndex(raw.tf, raw.openTime));
    CanonicalOpenIsPeriodOpen(raw.tf, CanonicalOpen(raw.openTime, raw.tf));
  }

  predicate Accepted(c: Candle)
    requires HasExpectedClose(c)
  {
    StructureCodes(c) == []
  }

  /* ---------- what an ingest call does to the store ---------- */

  function IngestOne(db: Db, raw: RawCandle, evaluation: Time): Db {
    var c := Normalize(raw, evaluation);
    NormalizedIsCanonical(raw, evaluation);
    if RawCodes(raw) != [] || !Accepted(c) then db else PutLive(db, c, evaluation)
  }

  function IngestLive(db: Db, raws: seq<RawCandle>, evaluation: Time): Db {
    if raws == [] then db else
    IngestOne(IngestLive(db, raws[..|raws| - 1], evaluation), raws[|raws| - 1], evaluation)
  }

  function IngestNormalizedSpec(db: Db, cs: seq<Candle>): Db
    requires forall c :: c in cs ==> HasExpectedClose(c)
  {
    if cs == [] then db else
    var before := IngestNormalizedSpec(db, cs[..|cs| - 1]);
    if Accepted(cs[|cs| - 1]) then PutOnce(before, cs[|cs| - 1]) else before
  }

  function NormalizeAll(raws: seq<RawCandle>, evaluation: Time): (r: seq<Candle>)
    ensures forall c :: c in r ==> Canonical(c) && HasExpectedClose(c) && HonestFlag(c, evaluation)
  {
    if raws == [] then [] else
    NormalizedIsCanonical(raws[|raws| - 1], evaluation);
    NormalizeAll(raws[..|raws| - 1], evaluation) + [Normalize(raws[|raws| - 1], evaluation)]
  }

  lemma {:induction false} NormalizeAllIs(raws: seq<RawCandle>, evaluation: Time)
    ensures |NormalizeAll(raws, evaluation)| == |raws|
    ensures forall i :: 0 <= i < |raws| ==> NormalizeAll(raws, evaluation)[i] == Normalize(raws[i], evaluation)
  {
    hide Normalize;
    if raws != [] {
      NormalizeAllIs(raws[..|raws| - 1], evaluation);
    }
  }

  function IngestBatch(db: Db, raws: seq<RawCandle>, evaluation: Time): Db {
    IngestNormalizedSpec(db, NormalizeAll(Filter(raws, (r: RawCandle) => RawCodes(r) == []), evaluation))
  }

  datatype IngestResult = IngestResult(
    inserted: nat, identicalSkipped: nat, rejected: seq<seq<ReasonCode>>, conflicts: seq<Conflict>, codes: seq<ReasonCode>)
  {
    /** Every candle handed in is accounted for once. */
    predicate Accounts(n: nat) { inserted + identicalSkipped + |rejected| + |conflicts| == n }
  }

  /** The candles a direct call gets through: it raises at the first one whose open starts no period. */
  function Readable(cs: seq<Candle>): (r: seq<Candle>)
    ensures r <= cs && forall c :: c in r ==> HasExpectedClose(c)
    ensures |r| < |cs| ==> !HasExpectedClose(cs[|r|])
  {
    if cs == [] || !HasExpectedClose(cs[0]) then [] else [cs[0]] + Readable(cs[1..])
  }

  lemma ReadableUpTo(cs: seq<Candle>, n: nat)
    requires n <= |cs| && forall c :: c in cs[..n] ==> HasExpectedClose(c)
    requires n < |cs| ==> !HasExpectedClose(cs[n])
    ensures Readable(cs) == cs[..n]
  {
    hide HasExpectedClose;
    var r := Readable(cs);
    assert r == cs[..|r|];
  }

  /** None when the call raises; what was stored by then stays. */
  method IngestNormalized(repository: CandleRepository, cs: seq<Candle>) returns (r: Option<IngestResult>)
    requires repository.Valid()
    modifies repository
    ensures repository.Valid() && repository.State() == IngestNormalizedSpec(old(repository.State()), Readable(cs))
    ensures r.None? <==> exists c :: c in cs && !HasExpectedClose(c)
    ensures r.Some? ==> r.value.Accounts(|cs|) && repository.conflicts == old(repository.conflicts) + r.value.conflicts
  {
    hide HasExpectedClose;
    hide StructureCodes;
    hide Readable;
    var inserted, identical := 0, 0;
    var rejected: seq<seq<ReasonCode>>, clashes: seq<Conflict>, emitted: seq<ReasonCode> := [], [], [];
    for i := 0 to |cs|
      invariant forall c :: c in cs[..i] ==> HasExpectedClose(c)
      invariant repository.Valid() && repository.State() == IngestNormalizedSpec(old(repository.State()), cs[..i])
      invariant inserted + identical + |rejected| + |clashes| == i
      invariant repository.conflicts == old(repository.conflicts) + clashes
    {
      if !HasExpectedClose(cs[i]) {
        ReadableUpTo(cs, i);
        assert cs[i] in cs;
        return None;
      }
      assert cs[..i + 1] == cs[..i] + [cs[i]] && cs[..i + 1][..i] == cs[..i];
      var codes := StructureCodes(cs[i]);
      if codes != [] {
        rejected := rejected + [codes];
        emitted := emitted + codes;
      } else {
        var added, conflict := repository.Upsert(cs[i]);
        if conflict.Some? {
          clashes := clashes + [conflict.value];
          emitted := emitted + [MdDuplicateConflict];
        } else if added {
          inserted := inserted + 1;
        } else {
          identical := identical + 1;
          emitted := emitted + [MdDuplicateIdentical];
        }
      }
    }
    assert cs[..|cs|] == cs;
    ReadableUpTo(cs, |cs|);
    r := Some(IngestResult(inserted, identical, rejected, clashes, Dedup(emitted)));
  }

  method IngestLiveRaw(repository: CandleRepository, raws: seq<RawCandle>, evaluation: Time) returns (r: IngestResult)
    requires repository.Valid()
    modifies repository
    ensures repository.Valid() && repository.State() == IngestLive(old(repository.State()), raws, evaluation)
    ensures r.Accounts(|raws|) && repository.conflicts == old(repository.conflicts) + r.conflicts
  {
    hide StructureCodes;
    hide Normalize;
    var inserted, identical := 0, 0;
    var rejected: seq<seq<ReasonCode>>, clashes: seq<Conflict>, emitted: seq<ReasonCode> := [], [], [];
    for i := 0 to |raws|
      invariant repository.Valid() && repository.State() == IngestLive(old(repository.State()), raws[..i], evaluation)
      invariant inserted + identical + |rejected| + |clashes| == i
      invariant repository.conflicts == old(repository.conflicts) + clashes
    {
      assert raws[..i + 1][..i] == raws[..i];
      var codes := RawCodes(raws[i]);
      var c := Normalize(raws[i], evaluation);
      NormalizedIsCanonical(raws[i], evaluation);
      if codes == [] {
        codes := StructureCodes(c);
      }
      if codes != [] {
        rejected := rejected + [codes];
        emitted := emitted + codes;
      } else {
        var added, conflict := repository.UpsertLive(c, evaluation);
        if conflict.Some? {
          clashes := clashes + [conflict.value];
          emitted := emitted + [MdDuplicateConflict];
        } else if added {
          inserted := inserted + 1;
        } else {
          identical := identical + 1;
          emitted := emitted + [MdDuplicateIdentical];
        }
      }
    }
    assert raws[..|raws|] == raws;
    r := IngestResult(inserted, identical, rejected, clashes, Dedup(emitted));
  }

  method IngestRawBatch(repository: CandleRepository, raws: seq<RawCandle>, evaluation: Time) returns (r: IngestResult)
    requires repository.Valid()
    modifies repository
    ensures repository.Valid() && repository.State() == IngestBatch(old(repository.State()), raws, evaluation)
    ensures repository.conflicts == old(repository.conflicts) + r.conflicts
  {
    var valid := Filter(raws, (x: RawCandle) => RawCodes(x) == []);
    var normalized := NormalizeAll(valid, evaluation);
    ReadableUpTo(normalized, |normalized|);
    assert normalized[..|normalized|] == normalized;
    var done := IngestNormalized(repository, normalized);
    r := done.value;
  }

  /* ---------- every store an ingest history can reach ---------- */

  datatype Call = LiveCall(raws: seq<RawCandle>, at: Time) | BatchCall(raws: seq<RawCandle>, at: Time)

  function ApplyCall(db: Db, call: Call): Db {
    match call
    case LiveCall(raws, t) => IngestLive(db, raws, t)
    case BatchCall(raws, t) => IngestBatch(db, raws, t)
  }

  function History(calls: seq<Call>): Db {
    if calls == [] then Db(map[], []) else ApplyCall(History(calls[..|calls| - 1]), calls[|calls| - 1])
  }

  /** Stored under its own key, on its canonical period, and structurally sound. */
  predicate Sound(k: CandleKey, c: Candle) {
    c.Key() == k && Canonical(c) && WellFormed(c)
  }

  predicate SoundStore(db: Db) {
    forall k :: k in db.store ==> Sound(k, db.store[k])
  }

  lemma PutKeepsSound(db: Db, c: Candle, evaluation: Time)
    requires SoundStore(db) && Canonical(c) && HasExpectedClose(c) && Accepted(c)
    ensures SoundStore(PutLive(db, c, evaluation)) && SoundStore(PutOnce(db, c))
  {
    hide StructureCodes;
    hide Canonical;
    hide WellFormed;
    hide HasExpectedClose;
    StructureCodesEmpty(c);
  }

  lemma {:induction false} LiveKeepsSound(db: Db, raws: seq<RawCandle>, evaluation: Time)
    requires SoundStore(db)
    ensures SoundStore(IngestLive(db, raws, evaluation))
  {
    hide StructureCodes;
    hide Normalize;
    hide Canonical;
    hide SoundStore;
    if raws != [] {
      LiveKeepsSound(db, raws[..|raws| - 1], evaluation);
      var raw := raws[|raws| - 1];
      NormalizedIsCanonical(raw, evaluation);
      if Accepted(Normalize(raw, evaluation)) {
        PutKeepsSound(IngestLive(db, raws[..|raws| - 1], evaluation), Normalize(raw, evaluation), evaluation);
      }
    }
  }

  lemma {:induction false} NormalizedKeepsSound(db: Db, cs: seq<Candle>)
    requires SoundStore(db) && forall c :: c in cs ==> HasExpectedClose(c) && Canonical(c)
    ensures SoundStore(IngestNormalizedSpec(db, cs))
  {
    hide StructureCodes;
    hide Canonical;
    hide SoundStore;
    hide HasExpectedClose;
    if cs != [] {
      NormalizedKeepsSound(db, cs[..|cs| - 1]);
      var c := cs[|cs| - 1];
      assert c in cs;
      if Accepted(c) {
        PutKeepsSound(IngestNormalizedSpec(db, cs[..|cs| - 1]), c, 0);
      }
    }
  }

  /** Whatever was ingested, through either raw path and at whatever times, the store is sound. */
  lemma {:induction false} ReachableIsSound(calls: seq<Call>)
    ensures SoundStore(History(calls))
  {
    hide SoundStore;
    hide NormalizeAll;
    if calls == [] {
      EmptyIsSound();
    } else {
      ReachableIsSound(calls[..|calls| - 1]);
      var db := History(calls[..|calls| - 1]);
      match calls[|calls| - 1] {
        case LiveCall(raws, t) => LiveKeepsSound(db, raws, t);
        case BatchCall(raws, t) =>
          NormalizedKeepsSound(db, NormalizeAll(Filter(raws, (r: RawCandle) => RawCodes(r) == []), t));
      }
    }
  }

  /** Every stored daily candle closes with the last second of the day it opens on. */
  lemma DailiesCloseWithTheDay(calls: seq<Call>, k: CandleKey)
    requires k in History(calls).store && k.tf == Daily
    ensures History(calls).store[k].closeTime == DailyClose(k.openTime) && k.openTime % DAY == 0
  {
    ReachableIsSound(calls);
    hide History;
    PeriodSteps(Daily, PeriodIndex(Daily, k.openTime));
  }

  /* ---------- finalised candles over whole ingest histories ---------- */

  /** Calls come with non-decreasing evaluation times, none before `now`. */
  predicate Orderly(calls: seq<Call>, now: Time) {
    && (forall i :: 0 <= i < |calls| ==> now <= calls[i].at)
    && (forall i, j :: 0 <= i < j < |calls| ==> calls[i].at <= calls[j].at)
  }

  predicate IsFinal(db: Db, key: CandleKey, c: Candle) { key in db.store && db.store[key] == c && c.isClosed }

  lemma SettledLater(db: Db, now: Time, later: Time)
    requires Settled(db, now) && now <= later
    ensures Settled(db, later)
  {
  }

  lemma WriteKeepsFinal(db: Db, c: Candle, at: Time, key: CandleKey, final: Candle)
    requires Settled(db, at) && HonestFlag(c, at)
    ensures Settled(PutLive(db, c, at), at) && Settled(PutOnce(db, c), at)
    ensures IsFinal(db, key, final) ==> IsFinal(PutLive(db, c, at), key, final) && IsFinal(PutOnce(db, c), key, final)
  {
  }

  lemma {:induction false} LiveKeepsFinal(db: Db, raws: seq<RawCandle>, at: Time, key: CandleKey, final: Candle)
    requires Settled(db, at)
    ensures Settled(IngestLive(db, raws, at), at) && (IsFinal(db, key, final) ==> IsFinal(IngestLive(db, raws, at), key, final))
  {
    hide StructureCodes;
    hide Normalize;
    hide Canonical;
    hide Settled;
    hide IsFinal;
    if raws != [] {
      LiveKeepsFinal(db, raws[..|raws| - 1], at, key, final);
      NormalizedIsCanonical(raws[|raws| - 1], at);
      WriteKeepsFinal(IngestLive(db, raws[..|raws| - 1], at), Normalize(raws[|raws| - 1], at), at, key, final);
    }
  }

  lemma {:induction false} BatchKeepsFinal(db: Db, cs: seq<Candle>, at: Time, key: CandleKey, final: Candle)
    requires Settled(db, at) && forall c :: c in cs ==> HasExpectedClose(c) && HonestFlag(c, at)
    ensures var after := IngestNormalizedSpec(db, cs);
            Settled(after, at) && (IsFinal(db, key, final) ==> IsFinal(after, key, final))
  {
    hide StructureCodes;
    hide Settled;
    hide IsFinal;
    hide HasExpectedClose;
    if cs != [] {
      assert cs[|cs| - 1] in cs;
      BatchKeepsFinal(db, cs[..|cs| - 1], at, key, final);
      WriteKeepsFinal(IngestNormalizedSpec(db, cs[..|cs| - 1]), cs[|cs| - 1], at, key, final);
    }
  }

  lemma {:induction false} CallKeepsFinal(db: Db, call: Call, now: Time, key: CandleKey, final: Candle)
    requires Settled(db, now) && now <= call.at
    ensures Settled(ApplyCall(db, call), call.at) && (IsFinal(db, key, final) ==> IsFinal(ApplyCall(db, call), key, final))
  {
    SettledLater(db, now, call.at);
    hide NormalizeAll;
    hide Settled;
    hide IsFinal;
    match call {
      case LiveCall(raws, t) => LiveKeepsFinal(db, raws, t, key, final);
      case BatchCall(raws, t) => BatchKeepsFinal(db, NormalizeAll(Filter(raws, (r: RawCandle) => RawCodes(r) == []), t), t,
          key, final);
    }
  }

  lemma {:induction false} HistorySettled(calls: seq<Call>, now: Time, key: CandleKey, any: Candle)
    requires Orderly(calls, now)
    ensures Settled(History(calls), if calls == [] then now else calls[|calls| - 1].at)
  {
    hide Settled;
    if calls == [] {
      EmptySettled(now);
    } else {
      var front, last := calls[..|calls| - 1], calls[|calls| - 1];
      HistorySettled(front, now, key, any);
      CallKeepsFinal(History(front), last, if front == [] then now else front[|front| - 1].at, key, any);
    }
  }

  lemma EmptySettled(now: Time)
    ensures Settled(Db(map[], []), now)
  {
  }

  lemma OrderlyFront(calls: seq<Call>, call: Call)
    requires Orderly(calls + [call], 0)
    ensures Orderly(calls, 0) && (if calls == [] then 0 else calls[|calls| - 1].at) <= call.at
  {
    var all := calls + [call];
    assert forall i :: 0 <= i < |calls| ==> calls[i] == all[i];
    assert all[|calls|] == call;
  }

  lemma HistoryNext(calls: seq<Call>, call: Call)
    ensures History(calls + [call]) == ApplyCall(History(calls), call)
  {
    hide ApplyCall;
    assert (calls + [call])[..|calls|] == calls;
  }

  lemma FinalNext(calls: seq<Call>, call: Call, key: CandleKey, final: Candle)
    requires Orderly(calls + [call], 0) && IsFinal(History(calls), key, final)
    ensures IsFinal(History(calls + [call]), key, final)
  {
    hide Settled;
    hide ApplyCall;
    hide History;
    hide IsFinal;
    OrderlyFront(calls, call);
    HistoryNext(calls, call);
    hide Orderly;
    HistorySettled(calls, 0, key, final);
    CallKeepsFinal(History(calls), call, if calls == [] then 0 else calls[|calls| - 1].at, key, final);
  }

  /** Over any history of ingest calls with non-decreasing evaluation times, a candle that is stored as closed
      at some point is the same candle ever after. */
  lemma {:induction false} FinalisedForever(calls: seq<Call>, later: seq<Call>, key: CandleKey)
    requires Orderly(calls + later, 0) && key in History(calls).store && History(calls).store[key].isClosed
    ensures IsFinal(History(calls + later), key, History(calls).store[key])
  {
    hide ApplyCall;
    hide History;
    hide Orderly;
    if later == [] {
      assert calls + later == calls;
    } else {
      var front, last := calls + later[..|later| - 1], later[|later| - 1];
      assert calls + later == front + [last];
      OrderlyFront(front, last);
      FinalisedForever(calls, later[..|later| - 1], key);
      FinalNext(front, last, key, History(calls).store[key]);
    }
  }

  /* ---------- what is stored of what comes in ---------- */

  /** A payload the live path does not refuse. */
  predicate Passes(raw: RawCandle, evaluation: Time) {
    NormalizedIsCanonical(raw, evaluation);
    RawCodes(raw) == [] && Accepted(Normalize(raw, evaluation))
  }

  /** It is refused exactly for a negative volume, or for prices that are not positive or not enclosed by low and high. */
  lemma PassesIff(raw: RawCandle, evaluation: Time)
    ensures Passes(raw, evaluation) <==>
            raw.volume >= 0.0 && 0.0 < raw.low <= raw.open <= raw.high && raw.low <= raw.close <= raw.high
  {
    hide ExpectedClose;
    hide CanonicalOpen;
    hide StructureCodes;
    hide PeriodOpen;
    hide PeriodIndex;
    var c := Normalize(raw, evaluation);
    NormalizedIsCanonical(raw, evaluation);
    CanonicalClose(raw.openTime, raw.tf);
    CanonicalOpenIsPeriodOpen(raw.tf, raw.openTime);
    PeriodOpensIncrease(raw.tf, PeriodIndex(raw.tf, raw.openTime), PeriodIndex(raw.tf, raw.openTime) + 1);
    StructureCodesEmpty(c);
    assert c.openTime < c.closeTime;
  }

  /** A refused payload changes nothing. A payload that passes is stored if its key is new, or held open and either finalised
      by it or not yet past its close; held closed it stays as it is, unless it has yet to close. */
  lemma {:induction false} LivePayloadIs(db: Db, raw: RawCandle, at: Time)
    ensures var c := Normalize(raw, at); var after := IngestOne(db, raw, at);
            if !Passes(raw, at) then after == db
            else if c.Key() !in db.store || db.store[c.Key()] == c || (!db.store[c.Key()].isClosed && c.isClosed) ||
                    at < db.store[c.Key()].closeTime
            then after.store == db.store[c.Key() := c] && after.conflicts == db.conflicts
            else after.store == db.store && after.conflicts == db.conflicts + [Conflict(c.Key(), db.store[c.Key()], c)]
  {
    hide Normalize;
    hide StructureCodes;
    NormalizedIsCanonical(raw, at);
    var c := Normalize(raw, at);
    if c.Key() in db.store && db.store[c.Key()] == c {
      assert db.store[c.Key() := c] == db.store;
    }
  }

  /** The first closed payload of a key that passes is the candle of that key from then on: after the call that brings it,
      if the key was open or absent before and no earlier payload of the call that passes closes it. */
  lemma {:induction false} ClosedPayloadStays(db: Db, raws: seq<RawCandle>, at: Time, i: nat, key: CandleKey)
    requires Settled(db, at) && NotFinal(db, key) && i < |raws| && Passes(raws[i], at)
    requires Normalize(raws[i], at).Key() == key && Normalize(raws[i], at).isClosed
    requires forall j :: 0 <= j < i && Normalize(raws[j], at).Key() == key && Passes(raws[j], at) ==>
               !Normalize(raws[j], at).isClosed
    ensures IsFinal(IngestLive(db, raws, at), key, Normalize(raws[i], at))
    decreases |raws|
  {
    hide Normalize;
    hide Passes;
    hide Settled;
    hide IngestOne;
    var n := |raws| - 1;
    var front := raws[..n];
    var before := IngestLive(db, front, at);
    assert forall j :: 0 <= j < n ==> front[j] == raws[j];
    LiveKeepsFinal(db, front, at, key, Normalize(raws[i], at));
    NormalizedIsCanonical(raws[n], at);
    if i < n {
      ClosedPayloadStays(db, front, at, i, key);
      OnePayloadKeepsFinal(before, raws[n], at, key, Normalize(raws[i], at));
    } else {
      OpenUntil(db, front, at, key);
      LivePayloadIs(before, raws[n], at);
    }
  }

  lemma OnePayloadKeepsFinal(db: Db, raw: RawCandle, at: Time, key: CandleKey, final: Candle)
    requires Settled(db, at) && IsFinal(db, key, final)
    ensures IsFinal(IngestOne(db, raw, at), key, final)
  {
    hide Normalize;
    hide StructureCodes;
    NormalizedIsCanonical(raw, at);
    WriteKeepsFinal(db, Normalize(raw, at), at, key, final);
  }

  lemma {:induction false} OpenUntil(db: Db, raws: seq<RawCandle>, at: Time, key: CandleKey)
    requires NotFinal(db, key)
    requires forall j :: 0 <= j < |raws| && Normalize(raws[j], at).Key() == key && Passes(raws[j], at) ==>
               !Normalize(raws[j], at).isClosed
    ensures NotFinal(IngestLive(db, raws, at), key)
  {
    hide Normalize;
    hide Passes;
    hide IngestOne;
    if raws != [] {
      var n := |raws| - 1;
      assert forall j :: 0 <= j < n ==> raws[..n][j] == raws[j];
      OpenUntil(db, raws[..n], at, key);
      LivePayloadIs(IngestLive(db, raws[..n], at), raws[n], at);
    }
  }

  predicate FirstAccepted(cs: seq<Candle>, i: nat, key: CandleKey)
    requires forall c :: c in cs ==> HasExpectedClose(c)
    requires i < |cs|
  {
    && cs[i].Key() == key && Accepted(cs[i])
    && forall j :: 0 <= j < i && cs[j].Key() == key ==> !Accepted(cs[j])
  }

  /** History stores the first candle of a new key that is well formed, and never touches a known key. */
  lemma {:induction false} BatchStoresFirst(db: Db, cs: seq<Candle>, key: CandleKey)
    requires forall c :: c in cs ==> HasExpectedClose(c)
    ensures var after := IngestNormalizedSpec(db, cs);
            (key in db.store ==> key in after.store && after.store[key] == db.store[key]) &&
            (key !in db.store ==>
               (key in after.store <==> exists i :: 0 <= i < |cs| && FirstAccepted(cs, i, key)) &&
               forall i :: 0 <= i < |cs| && FirstAccepted(cs, i, key) ==> key in after.store && after.store[key] == cs[i])
  {
    hide StructureCodes;
    hide HasExpectedClose;
    if cs != [] {
      var n := |cs| - 1;
      var front := cs[..n];
      assert forall j :: 0 <= j < n ==> front[j] == cs[j];
      assert forall i :: 0 <= i < n ==> (FirstAccepted(front, i, key) <==> FirstAccepted(cs, i, key));
      assert cs[n] in cs;
      BatchStoresFirst(db, front, key);
      if key !in db.store && cs[n].Key() == key && Accepted(cs[n]) {
        if forall i :: 0 <= i < n ==> !FirstAccepted(front, i, key) {
          NoneAccepted(front, key);
          assert FirstAccepted(cs, n, key);
        } else {
          var i :| 0 <= i < n && FirstAccepted(front, i, key);
          assert !FirstAccepted(cs, n, key);
        }
      }
    }
  }

  lemma {:induction false} NoneAccepted(cs: seq<Candle>, key: CandleKey)
    requires forall c :: c in cs ==> HasExpectedClose(c)
    requires forall i :: 0 <= i < |cs| ==> !FirstAccepted(cs, i, key)
    ensures forall i :: 0 <= i < |cs| && cs[i].Key() == key ==> !Accepted(cs[i])
  {
    hide StructureCodes;
    hide HasExpectedClose;
    if cs != [] {
      var n := |cs| - 1;
      assert forall j :: 0 <= j < n ==> cs[..n][j] == cs[j];
      assert forall i :: 0 <= i < n ==> (FirstAccepted(cs[..n], i, key) <==> FirstAccepted(cs, i, key));
      NoneAccepted(cs[..n], key);
      assert !FirstAccepted(cs, n, key);
    }
  }

  lemma EmptyIsSound()
    ensures SoundStore(Db(map[], []))
  {
  }

  /* ---------- the direct path, which does not canonicalise ---------- */

  lemma WholeDay(n: nat)
    ensures n * DAY % DAY == 0
  {
  }

  lemma AlignedAtMidnight(tf: Timeframe, t: Time)
    requires Aligned(tf, t)
    ensures t % DAY == 0
  {
    hide PeriodIndex;
    var i := PeriodIndex(tf, t);
    match tf {
      case Daily => WholeDay(i);
      case Weekly =>
        assert i * WEEK == (7 * i) * DAY;
        WholeDay(7 * i);
      case Monthly => WholeDay(MonthStart(i));
    }
  }

  /** Of the candles the direct path lets in, those on their canonical period are the ones that open at midnight. */
  lemma MidnightDecides(c: Candle)
    requires HasExpectedClose(c) && Accepted(c)
    ensures Canonical(c) <==> c.openTime % DAY == 0
  {
    var t, d := c.openTime, c.openTime / DAY;
    StructureCodesEmpty(c);
    if t % DAY == 0 {
      match c.tf {
        case Daily =>
        case Weekly =>
          assert t / WEEK == d / 7;
          assert d == 7 * (d / 7);
        case Monthly =>
          FollowingMonthNumber(t);
      }
    } else if Canonical(c) {
      AlignedAtMidnight(c.tf, t);
    }
  }

  predicate AllAtMidnight(cs: seq<Candle>)
    requires forall c :: c in cs ==> HasExpectedClose(c)
  {
    forall c :: c in cs && Accepted(c) ==> c.openTime % DAY == 0
  }

  lemma {:induction false} AcceptedIsStored(db: Db, cs: seq<Candle>, c: Candle)
    requires forall x :: x in cs ==> HasExpectedClose(x)
    requires c in cs && Accepted(c)
    ensures c.Key() in IngestNormalizedSpec(db, cs).store
  {
    hide StructureCodes;
    hide HasExpectedClose;
    if c in cs[..|cs| - 1] {
      AcceptedIsStored(db, cs[..|cs| - 1], c);
    }
  }

  lemma {:induction false} MidnightKeepsSound(db: Db, cs: seq<Candle>)
    requires forall c :: c in cs ==> HasExpectedClose(c)
    requires SoundStore(db) && AllAtMidnight(cs)
    ensures SoundStore(IngestNormalizedSpec(db, cs))
  {
    hide StructureCodes;
    hide Canonical;
    hide SoundStore;
    hide HasExpectedClose;
    if cs != [] {
      var front, c := cs[..|cs| - 1], cs[|cs| - 1];
      assert c in cs && forall x :: x in front ==> x in cs;
      MidnightKeepsSound(db, front);
      if Accepted(c) {
        MidnightDecides(c);
        PutKeepsSound(IngestNormalizedSpec(db, front), c, 0);
      }
    }
  }

  /** Exactly when the direct path keeps a sound store sound: every candle it accepts opens at midnight. */
  lemma {:induction false} DirectKeepsSoundIff(db: Db, cs: seq<Candle>)
    requires SoundStore(db)
    ensures SoundStore(IngestNormalizedSpec(db, Readable(cs))) <==> AllAtMidnight(Readable(cs))
  {
    hide StructureCodes;
    hide HasExpectedClose;
    hide IngestNormalizedSpec;
    hide Readable;
    var read := Readable(cs);
    var after := IngestNormalizedSpec(db, read);
    if SoundStore(after) {
      forall c | c in read && Accepted(c) ensures c.openTime % DAY == 0 {
        AcceptedIsStored(db, read, c);
        assert Sound(c.Key(), after.store[c.Key()]);
        AlignedAtMidnight(c.tf, c.openTime);
      }
    }
    if AllAtMidnight(read) {
      MidnightKeepsSound(db, read);
    }
  }

  /** An instance: a daily candle opening at noon is accepted and stored. */
  lemma NoonCandleAccepted()
    ensures exists c :: HasExpectedClose(c) && Accepted(c) && !Canonical(c) &&
              c in IngestNormalizedSpec(Db(map[], []), [c]).store.Values
  {
    var c := Candle(BTC, Daily, 43200, 86399, 2.0, 3.0, 1.0, 2.0, 5.0, true);
    assert HasExpectedClose(c) && WellFormed(c);
    StructureCodesEmpty(c);
    assert IngestNormalizedSpec(Db(map[], []), []) == Db(map[], []);
    assert [c][..0] == [];
    var db := IngestNormalizedSpec(Db(map[], []), [c]);
    assert db == PutOnce(Db(map[], []), c);
    assert c.Key() in db.store && db.store[c.Key()] == c;
  }

  /** Nor is it only days: a week from a Monday noon to the next, and a month from half past midnight, get in. */
  lemma OffMidnightAccepted(tf: Timeframe)
    ensures exists c: Candle :: c.tf == tf && HasExpectedClose(c) && Accepted(c) &&
              !SoundStore(IngestNormalizedSpec(Db(map[], []), Readable([c])))
  {
    var open := if tf == Monthly then 1800 else 43200;
    if tf == Monthly {
      assert MonthStart(1) == 31;
      MonthOfUnique(0, 0);
      FollowingMonthNumber(open);
    }
    var close := ExpectedClose(open, tf).value;
    var c := Candle(BTC, tf, open, close, 2.0, 3.0, 1.0, 2.0, 5.0, true);
    assert HasExpectedClose(c) && WellFormed(c);
    StructureCodesEmpty(c);
    assert c in [c] && Readable([c]) == [c];
    EmptyIsSound();
    DirectKeepsSoundIff(Db(map[], []), [c]);
  }

  /* ---------- when a stored series is accepted ---------- */

  predicate SoundSeries(s: seq<Candle>, symbol: Symbol, tf: Timeframe, evaluation: Time) {
    && StrictlySorted(s)
    && forall c :: c in s ==> c.symbol == symbol && c.tf == tf && Canonical(c) && WellFormed(c) && c.closeTime <= evaluation
  }

  lemma ClosedSeriesIsSound(db: Db, s: seq<Candle>, symbol: Symbol, tf: Timeframe, evaluation: Time)
    requires SoundStore(db) && IsClosedSeries(s, db.store, symbol, tf, evaluation)
    ensures SoundSeries(s, symbol, tf, evaluation)
  {
    hide Canonical;
    hide WellFormed;
    forall c | c in s ensures c.symbol == symbol && c.tf == tf && Canonical(c) && WellFormed(c) && c.closeTime <= evaluation {
      assert c in db.store.Values;
      var k :| k in db.store && db.store[k] == c;
      assert Sound(k, c);
    }
  }

  lemma SoundPairSeparated(a: Candle, b: Candle)
    requires a.tf == b.tf && Canonical(a) && Canonical(b) && a.openTime < b.openTime
    ensures a.closeTime < b.openTime
  {
    hide PeriodOpen;
    hide PeriodIndex;
    var i, j := PeriodIndex(a.tf, a.openTime), PeriodIndex(b.tf, b.openTime);
    PeriodOrder(a.tf, i, j);
    PeriodOrder(a.tf, i + 1, j);
  }

  lemma SoundIsClean(s: seq<Candle>, symbol: Symbol, tf: Timeframe, evaluation: Time)
    requires SoundSeries(s, symbol, tf, evaluation)
    ensures CleanSeries(s, symbol, tf, evaluation) && AllAligned(s, tf)
  {
    hide Canonical;
    hide WellFormed;
    forall i | 0 <= i < |s| ensures Accepts(s, i, symbol, tf, evaluation) {
      assert s[i] in s;
      if i > 0 {
        assert s[i - 1] in s;
        SoundPairSeparated(s[i - 1], s[i]);
      }
    }
    forall c | c in s ensures Aligned(tf, c.openTime) {
      CanonicalIsAligned(c);
    }
  }

  lemma CanonicalIsAligned(c: Candle)
    requires Canonical(c)
    ensures Aligned(c.tf, c.openTime)
  {
  }

  /** Contiguous, and the period after the last candle has not closed by `horizon`. */
  predicate CoversTo(s: seq<Candle>, tf: Timeframe, horizon: Time)
    requires s != []
  {
    Contiguous(s, tf) && PeriodClose(tf, PeriodIndex(tf, s[|s| - 1].openTime) + 1) > horizon
  }

  lemma {:induction false} SoundSeriesValid(s: seq<Candle>, symbol: Symbol, tf: Timeframe, evaluation: Time, horizon: Time,
                                            conflicts: seq<Conflict>)
    requires SoundSeries(s, symbol, tf, evaluation)
    requires forall c :: c in s ==> HasExpectedClose(c)
    ensures SeriesReport(s, symbol, tf, evaluation, GapsOf(s, symbol, tf, horizon), conflicts).status == Valid <==>
            s != [] && conflicts == [] && CoversTo(s, tf, horizon)
  {
    hide SoundSeries;
    hide CleanSeries;
    hide GapsOf;
    hide SeriesReport;
    hide PeriodClose;
    hide PeriodIndex;
    hide AllAligned;
    hide Contiguous;
    hide StrictlySorted;
    hide SortCandles;
    hide HasExpectedClose;
    SoundIsClean(s, symbol, tf, evaluation);
    ValidSeries(s, symbol, tf, evaluation, GapsOf(s, symbol, tf, horizon), conflicts);
    if s != [] {
      SoundIsStrict(s, symbol, tf, evaluation);
      GapFreeSeries(s, symbol, tf, horizon);
    }
  }

  lemma SoundIsStrict(s: seq<Candle>, symbol: Symbol, tf: Timeframe, evaluation: Time)
    requires SoundSeries(s, symbol, tf, evaluation)
    ensures StrictlySorted(s) && SortCandles(s) == s
  {
    StrictIsSorted(s);
  }

  lemma WellFormedHasClose(s: seq<Candle>, symbol: Symbol, tf: Timeframe, evaluation: Time)
    requires SoundSeries(s, symbol, tf, evaluation)
    ensures forall c :: c in s ==> HasExpectedClose(c)
  {
    hide ExpectedClose;
  }

  /** The reachable-store characterisation. After any ingest history, the closed series of a symbol,
      put through the gap detector and the validator, is VALID exactly when it is non-empty, free of
      recorded conflicts, steps by one period at a time, and misses no period that has closed. */
  lemma {:induction false} ReachableSeriesValid(calls: seq<Call>, s: seq<Candle>, symbol: Symbol, tf: Timeframe, evaluation: Time,
                                                conflicts: seq<Conflict>)
    requires IsClosedSeries(s, History(calls).store, symbol, tf, evaluation)
    ensures forall c :: c in s ==> HasExpectedClose(c)
    ensures SeriesReport(s, symbol, tf, evaluation, GapsOf(SortCandles(s), symbol, tf, evaluation),
            conflicts).status == Valid <==>
            s != [] && conflicts == [] && CoversTo(s, tf, evaluation)
  {
    hide SoundSeries;
    hide SoundStore;
    hide GapsOf;
    hide SeriesReport;
    hide CoversTo;
    hide HasExpectedClose;
    hide History;
    ReachableIsSound(calls);
    ClosedSeriesIsSound(History(calls), s, symbol, tf, evaluation);
    SoundIsStrict(s, symbol, tf, evaluation);
    WellFormedHasClose(s, symbol, tf, evaluation);
    SoundSeriesValid(s, symbol, tf, evaluation, evaluation, conflicts);
  }
}
