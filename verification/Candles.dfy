/** Candles, their order, and the fail-closed validation of a candle and of a series. */
module Candles {
  import opened Common
  import opened Timeframes

  datatype Symbol = BTC | ETH | SOL

  datatype Candle = Candle(
    symbol: Symbol, tf: Timeframe, openTime: Time, closeTime: Time,
    open: real, high: real, low: real, close: real, volume: real, isClosed: bool)
  {
    function Key(): CandleKey { CandleKey(symbol, tf, openTime) }
  }

  datatype CandleKey = CandleKey(symbol: Symbol, tf: Timeframe, openTime: Time)

  datatype Gap = Gap(symbol: Symbol, tf: Timeframe, missingOpen: Time, expectedClose: Time)

  datatype Conflict = Conflict(key: CandleKey, existing: Candle, incoming: Candle)

  datatype QualityStatus = Valid | Stale | Incomplete | Invalid | Disconnected

  datatype ReasonCode =
    | MdValid | MdIncomplete | MdInvalid | MdDuplicateIdentical | MdDuplicateConflict | MdGapDetected
    | MdOpenCandleExcluded | MdFutureCandle | MdInvalidOhlc | MdInvalidVolume | MdInvalidTimeframe

  datatype Report = Report(
    status: QualityStatus, codes: seq<ReasonCode>, gaps: seq<Gap>, conflicts: seq<Conflict>,
    missingRanges: seq<(Time, Time)>, lastKnown: Option<Candle>, expectedNextOpen: Option<Time>,
    evaluationTime: Time)

  /* ---------- order by open time (a stable sort) ---------- */

  predicate SortedByOpen(s: seq<Candle>) {
    forall i, j :: 0 <= i < j < |s| ==> s[i].openTime <= s[j].openTime
  }

  predicate StrictlySorted(s: seq<Candle>) {
    forall i, j :: 0 <= i < j < |s| ==> s[i].openTime < s[j].openTime
  }

  function Insert(s: seq<Candle>, c: Candle): (r: seq<Candle>)
    ensures multiset(r) == multiset(s) + multiset{c}
    ensures forall x :: x in r <==> x in s || x == c
    ensures SortedByOpen(s) ==> SortedByOpen(r)
  {
    if s == [] || s[|s| - 1].openTime <= c.openTime then s + [c]
    else
      assert s == s[..|s| - 1] + [s[|s| - 1]];
      var front := Insert(s[..|s| - 1], c);
      InsertedFront(s, c, front);
      front + [s[|s| - 1]]
  }

  lemma InsertedFront(s: seq<Candle>, c: Candle, front: seq<Candle>)
    requires s != [] && c.openTime < s[|s| - 1].openTime
    requires forall x :: x in front <==> x in s[..|s| - 1] || x == c
    requires SortedByOpen(s) ==> SortedByOpen(front)
    ensures SortedByOpen(s) ==> SortedByOpen(front + [s[|s| - 1]])
  {
    if SortedByOpen(s) {
      forall i | 0 <= i < |front| ensures front[i].openTime <= s[|s| - 1].openTime {
        assert front[i] in front;
      }
    }
  }

  function SortCandles(s: seq<Candle>): (r: seq<Candle>)
    ensures multiset(r) == multiset(s)
    ensures |r| == |s|
    ensures forall x :: x in r <==> x in s
    ensures SortedByOpen(r)
  {
    if s == [] then [] else
    assert s == s[..|s| - 1] + [s[|s| - 1]];
    assert |multiset(s)| == |multiset(Insert(SortCandles(s[..|s| - 1]), s[|s| - 1]))|;
    Insert(SortCandles(s[..|s| - 1]), s[|s| - 1])
  }

  lemma SortOfSorted(s: seq<Candle>)
    requires SortedByOpen(s)
    ensures SortCandles(s) == s
  {
    if s != [] {
      var n := |s| - 1;
      SortOfSorted(s[..n]);
      assert s == s[..n] + [s[n]];
    }
  }

  lemma SortLast(s: seq<Candle>, c: Candle)
    ensures SortCandles(s + [c]) == Insert(SortCandles(s), c)
  {
    assert (s + [c])[..|s|] == s && (s + [c])[|s|] == c;
  }

  /** A sorted prefix can be sorted first: the sort is a fold of insertions. */
  lemma {:induction false} SortAppend(a: seq<Candle>, b: seq<Candle>)
    ensures SortCandles(SortCandles(a) + b) == SortCandles(a + b)
  {
    hide Insert;
    hide SortCandles;
    if b == [] {
      assert a + b == a && SortCandles(a) + b == SortCandles(a);
      SortOfSorted(SortCandles(a));
    } else {
      var front, c := b[..|b| - 1], b[|b| - 1];
      SortAppend(a, front);
      assert a + b == (a + front) + [c];
      assert SortCandles(a) + b == (SortCandles(a) + front) + [c];
      SortLast(a + front, c);
      SortLast(SortCandles(a) + front, c);
    }
  }

  /** A strictly sorted list is determined by its set of candles. */
  lemma {:induction false} StrictlySortedUnique(a: seq<Candle>, b: seq<Candle>)
    requires StrictlySorted(a) && StrictlySorted(b)
    requires forall x :: x in a <==> x in b
    ensures a == b
  {
    assert a != [] ==> a[0] in b;
    assert b != [] ==> b[0] in a;
    if a != [] && b != [] {
      FirstIsLeast(a, b);
      forall x ensures x in a[1..] <==> x in b[1..] {
        TailMembers(a, x);
        TailMembers(b, x);
      }
      StrictlySortedUnique(a[1..], b[1..]);
      assert a == [a[0]] + a[1..] && b == [b[0]] + b[1..];
    }
  }

  lemma LeastFirst(s: seq<Candle>, x: Candle)
    requires StrictlySorted(s) && x in s
    ensures x == s[0] || s[0].openTime < x.openTime
  {
  }

  lemma FirstIsLeast(a: seq<Candle>, b: seq<Candle>)
    requires StrictlySorted(a) && StrictlySorted(b) && a != [] && b != []
    requires forall x :: x in a <==> x in b
    ensures a[0] == b[0]
  {
    assert a[0] in b && b[0] in a;
    LeastFirst(b, a[0]);
    LeastFirst(a, b[0]);
  }

  lemma TailMembers(a: seq<Candle>, x: Candle)
    requires StrictlySorted(a) && a != []
    ensures x in a[1..] <==> x in a && x != a[0]
  {
    if x in a && x != a[0] {
      var i :| 0 <= i < |a| && a[i] == x;
      assert a[1..][i - 1] == x;
    }
    if x in a[1..] {
      var i :| 0 <= i < |a[1..]| && a[1..][i] == x;
      assert a[i + 1] == x && a[0].openTime < a[i + 1].openTime;
    }
  }

  lemma StrictIsSorted(s: seq<Candle>)
    requires StrictlySorted(s)
    ensures SortedByOpen(s) && SortCandles(s) == s
  {
    SortOfSorted(s);
  }

  lemma FilterKeepsStrictOrder(s: seq<Candle>, p: Candle -> bool)
    requires StrictlySorted(s)
    ensures StrictlySorted(Filter(s, p))
  {
    if s != [] {
      FilterKeepsStrictOrder(s[1..], p);
      var rest := Filter(s[1..], p);
      forall x | x in rest ensures s[0].openTime < x.openTime {
        assert x in s[1..];
        var i :| 0 <= i < |s[1..]| && s[1..][i] == x;
        assert s[i + 1] == x;
      }
    }
  }

  /* ---------- one candle ---------- */

  /** The service compares the close with `ExpectedClose`, which raises on an open that is not a period start. */
  predicate HasExpectedClose(c: Candle) { ExpectedClose(c.openTime, c.tf).Some? }

  function StructureCodes(c: Candle): seq<ReasonCode>
    requires HasExpectedClose(c)
  {
    Dedup(
      (if c.open <= 0.0 || c.high <= 0.0 || c.low <= 0.0 || c.close <= 0.0 then [MdInvalidOhlc] else []) +
      (if c.volume < 0.0 then [MdInvalidVolume] else []) +
      (if c.high < c.open || c.high < c.close || c.high < c.low then [MdInvalidOhlc] else []) +
      (if c.low > c.open || c.low > c.close || c.low > c.high then [MdInvalidOhlc] else []) +
      (if c.openTime >= c.closeTime then [MdInvalidTimeframe] else []) +
      (if ExpectedClose(c.openTime, c.tf) != Some(c.closeTime) then [MdInvalidTimeframe] else []))
  }

  predicate WellFormed(c: Candle) {
    && 0.0 < c.low <= c.open <= c.high && c.low <= c.close <= c.high && c.volume >= 0.0
    && ExpectedClose(c.openTime, c.tf) == Some(c.closeTime) && c.openTime < c.closeTime
  }

  lemma StructureCodesEmpty(c: Candle)
    requires HasExpectedClose(c)
    ensures StructureCodes(c) == [] <==> WellFormed(c)
  {
    var codes := StructureCodes(c);
    if codes != [] {
      assert codes[0] in codes;
    }
    assert c.low <= 0.0 || c.open <= 0.0 || c.high <= 0.0 || c.close <= 0.0 ==> MdInvalidOhlc in codes;
  }

  function SingleCodes(c: Candle, evaluation: Time): seq<ReasonCode>
    requires HasExpectedClose(c)
  {
    Dedup(StructureCodes(c) +
          (if IsClosedAt(c.closeTime, evaluation) then []
           else if c.closeTime > evaluation then [MdFutureCandle] else [MdOpenCandleExcluded]))
  }

  lemma SingleCodesEmpty(c: Candle, evaluation: Time)
    requires HasExpectedClose(c)
    ensures SingleCodes(c, evaluation) == [] <==> WellFormed(c) && c.closeTime <= evaluation
  {
    StructureCodesEmpty(c);
    var codes := SingleCodes(c, evaluation);
    if StructureCodes(c) != [] {
      assert StructureCodes(c)[0] in codes;
    }
    if c.closeTime > evaluation {
      assert MdFutureCandle in codes;
    }
    if codes != [] {
      assert codes[0] in codes;
    }
  }

  /* ---------- a series ---------- */

  /** The codes a candle contributes after its predecessor in the sorted series. */
  function CodesFor(c: Candle, previous: Option<Candle>, seen: bool, symbol: Symbol, tf: Timeframe, evaluation: Time)
    : seq<ReasonCode>
    requires HasExpectedClose(c)
  {
    (if c.symbol != symbol || c.tf != tf then [MdInvalid] else []) +
    SingleCodes(c, evaluation) +
    (if seen then [MdDuplicateConflict] else []) +
    (if previous.Some? && c.openTime <= previous.value.closeTime then [MdInvalid] else []) +
    (if previous.Some? && c.openTime <= previous.value.openTime then [MdInvalid] else [])
  }

  predicate OpenSeen(s: seq<Candle>, i: nat, t: Time)
    requires i <= |s|
  {
    exists j :: 0 <= j < i && s[j].openTime == t
  }

  function Before(s: seq<Candle>, i: nat): Option<Candle>
    requires i <= |s|
  {
    if i == 0 then None else Some(s[i - 1])
  }

  function CodesAt(s: seq<Candle>, i: nat, symbol: Symbol, tf: Timeframe, evaluation: Time): seq<ReasonCode>
    requires i < |s| && HasExpectedClose(s[i])
  {
    CodesFor(s[i], Before(s, i), OpenSeen(s, i, s[i].openTime), symbol, tf, evaluation)
  }

  predicate ClosesTo(s: seq<Candle>, n: nat)
    requires n <= |s|
  {
    forall i :: 0 <= i < n ==> HasExpectedClose(s[i])
  }

  function SeriesCodes(s: seq<Candle>, n: nat, symbol: Symbol, tf: Timeframe, evaluation: Time): seq<ReasonCode>
    requires n <= |s| && ClosesTo(s, n)
  {
    if n == 0 then [] else
    SeriesCodes(s, n - 1, symbol, tf, evaluation) + CodesAt(s, n - 1, symbol, tf, evaluation)
  }

  function AllCodes(candles: seq<Candle>, symbol: Symbol, tf: Timeframe, evaluation: Time,
                    gaps: seq<Gap>, conflicts: seq<Conflict>): seq<ReasonCode>
    requires forall c :: c in candles ==> HasExpectedClose(c)
  {
    var sorted := SortCandles(candles);
    Dedup((if sorted != candles then [MdInvalid] else []) +
          SeriesCodes(sorted, |sorted|, symbol, tf, evaluation) +
          (if gaps != [] then [MdGapDetected] else []) +
          (if conflicts != [] then [MdDuplicateConflict] else []))
  }

  function StatusOf(codes: seq<ReasonCode>): QualityStatus {
    if MdInvalidOhlc in codes || MdInvalidVolume in codes || MdInvalidTimeframe in codes || MdDuplicateConflict in codes
    then Invalid
    else if MdGapDetected in codes then Incomplete
    else if codes != [] then Invalid
    else Valid
  }

  function RangesOf(gaps: seq<Gap>): seq<(Time, Time)> {
    seq(|gaps|, i requires 0 <= i < |gaps| => (gaps[i].missingOpen, gaps[i].expectedClose))
  }

  function SeriesReport(candles: seq<Candle>, symbol: Symbol, tf: Timeframe, evaluation: Time,
                        gaps: seq<Gap>, conflicts: seq<Conflict>): Report
    requires forall c :: c in candles ==> HasExpectedClose(c)
  {
    if candles == [] then Report(Incomplete, [MdIncomplete], [], [], [], None, None, evaluation) else
    var codes := AllCodes(candles, symbol, tf, evaluation, gaps, conflicts);
    var last := SortCandles(candles)[|candles| - 1];
    Report(StatusOf(codes), if codes == [] then [MdValid] else codes, gaps, conflicts, RangesOf(gaps),
           Some(last), Some(NextOpen(last.openTime, tf)), evaluation)
  }

  lemma NothingSeen(s: seq<Candle>)
    ensures forall t :: !OpenSeen(s, 0, t)
  {
  }

  lemma SeenNext(s: seq<Candle>, i: nat)
    requires i < |s|
    ensures forall t :: OpenSeen(s, i + 1, t) <==> OpenSeen(s, i, t) || t == s[i].openTime
  {
    assert OpenSeen(s, i + 1, s[i].openTime);
  }

  lemma AllClose(s: seq<Candle>, candles: seq<Candle>)
    requires forall c :: c in s <==> c in candles
    ensures ClosesTo(s, |s|) <==> forall c :: c in candles ==> HasExpectedClose(c)
  {
    hide HasExpectedClose;
    assert forall i :: 0 <= i < |s| ==> s[i] in s;
  }

  /** The loop over a sorted series; None if it raises, on a candle whose open starts no period. */
  method ScanSeries(sorted: seq<Candle>, symbol: Symbol, tf: Timeframe, evaluation: Time) returns (codes: Option<seq<ReasonCode>>)
    ensures codes.None? <==> !ClosesTo(sorted, |sorted|)
    ensures codes.Some? ==> codes.value == SeriesCodes(sorted, |sorted|, symbol, tf, evaluation)
  {
    hide CodesFor;
    hide ExpectedClose;
    hide HasExpectedClose;
    hide OpenSeen;
    var found: seq<ReasonCode> := [];
    NothingSeen(sorted);
    var seen: set<Time> := {};
    var last: Option<Candle> := None;
    for i := 0 to |sorted|
      invariant ClosesTo(sorted, i)
      invariant forall t :: t in seen <==> OpenSeen(sorted, i, t)
      invariant last == Before(sorted, i)
      invariant found == SeriesCodes(sorted, i, symbol, tf, evaluation)
    {
      var c := sorted[i];
      if !HasExpectedClose(c) {
        return None;
      }
      found := found + CodesFor(c, last, c.openTime in seen, symbol, tf, evaluation);
      SeenNext(sorted, i);
      seen := seen + {c.openTime};
      last := Some(c);
    }
    codes := Some(found);
  }

  /** None if the validation raises. */
  method ValidateSeries(candles: seq<Candle>, symbol: Symbol, tf: Timeframe, evaluation: Time,
                        gaps: seq<Gap>, conflicts: seq<Conflict>) returns (report: Option<Report>)
    ensures report.None? <==> exists c :: c in candles && !HasExpectedClose(c)
    ensures report.Some? ==> report.value == SeriesReport(candles, symbol, tf, evaluation, gaps, conflicts)
  {
    hide NextOpen;
    hide SortCandles;
    hide HasExpectedClose;
    hide Dedup;
    hide StatusOf;
    hide RangesOf;
    hide SeriesCodes;
    if candles == [] {
      return Some(Report(Incomplete, [MdIncomplete], [], [], [], None, None, evaluation));
    }
    var sorted := SortCandles(candles);
    AllClose(sorted, candles);
    var scanned := ScanSeries(sorted, symbol, tf, evaluation);
    if scanned.None? {
      return None;
    }
    var codes := (if sorted != candles then [MdInvalid] else []) + scanned.value;
    codes := codes + (if gaps != [] then [MdGapDetected] else []);
    codes := codes + (if conflicts != [] then [MdDuplicateConflict] else []);
    var unique := Dedup(codes);
    var last := sorted[|sorted| - 1];
    report := Some(Report(StatusOf(unique), if unique == [] then [MdValid] else unique, gaps, conflicts, RangesOf(gaps),
                          Some(last), Some(NextOpen(last.openTime, tf)), evaluation));
  }

  /** What candle `i` must look like to be accepted, said without reason codes. */
  predicate Accepts(s: seq<Candle>, i: nat, symbol: Symbol, tf: Timeframe, evaluation: Time)
    requires i < |s|
  {
    && s[i].symbol == symbol && s[i].tf == tf && WellFormed(s[i]) && s[i].closeTime <= evaluation
    && (i > 0 ==> s[i - 1].closeTime < s[i].openTime)
  }

  predicate CleanTo(s: seq<Candle>, n: nat, symbol: Symbol, tf: Timeframe, evaluation: Time)
    requires n <= |s|
  {
    forall i :: 0 <= i < n ==> Accepts(s, i, symbol, tf, evaluation)
  }

  predicate CleanSeries(s: seq<Candle>, symbol: Symbol, tf: Timeframe, evaluation: Time) {
    CleanTo(s, |s|, symbol, tf, evaluation)
  }

  lemma CleanIsStrict(s: seq<Candle>, symbol: Symbol, tf: Timeframe, evaluation: Time)
    requires CleanSeries(s, symbol, tf, evaluation)
    ensures StrictlySorted(s)
  {
    forall i, j | 0 <= i < j < |s| ensures s[i].openTime < s[j].openTime {
      CleanStep(s, symbol, tf, evaluation, i, j);
    }
  }

  lemma CleanStep(s: seq<Candle>, symbol: Symbol, tf: Timeframe, evaluation: Time, i: nat, j: nat)
    requires CleanSeries(s, symbol, tf, evaluation) && i < j < |s|
    ensures s[i].openTime < s[j].openTime
  {
    assert Accepts(s, j - 1, symbol, tf, evaluation) && Accepts(s, j, symbol, tf, evaluation);
    if i < j - 1 {
      CleanStep(s, symbol, tf, evaluation, i, j - 1);
    }
  }

  lemma CodesAtEmpty(s: seq<Candle>, i: nat, symbol: Symbol, tf: Timeframe, evaluation: Time)
    requires i < |s| && HasExpectedClose(s[i]) && SortedByOpen(s)
    requires i > 0 ==> Accepts(s, i - 1, symbol, tf, evaluation)
    ensures CodesAt(s, i, symbol, tf, evaluation) == [] <==> Accepts(s, i, symbol, tf, evaluation)
  {
    SingleCodesEmpty(s[i], evaluation);
    assert i > 0 ==> forall j :: 0 <= j < i ==> s[j].openTime <= s[i - 1].openTime;
  }

  lemma {:induction false} SeriesCodesEmpty(s: seq<Candle>, n: nat, symbol: Symbol, tf: Timeframe, evaluation: Time)
    requires n <= |s| && SortedByOpen(s) && forall c :: c in s ==> HasExpectedClose(c)
    ensures SeriesCodes(s, n, symbol, tf, evaluation) == [] <==> CleanTo(s, n, symbol, tf, evaluation)
  {
    hide CodesAt;
    hide Accepts;
    if n > 0 {
      SeriesCodesEmpty(s, n - 1, symbol, tf, evaluation);
      if CleanTo(s, n - 1, symbol, tf, evaluation) {
        CodesAtEmpty(s, n - 1, symbol, tf, evaluation);
      }
    }
  }

  /** A series is VALID exactly when it is non-empty, in order, clean, gap-free and conflict-free. */
  lemma {:induction false} ValidSeries(candles: seq<Candle>, symbol: Symbol, tf: Timeframe, evaluation: Time,
                                       gaps: seq<Gap>, conflicts: seq<Conflict>)
    requires forall c :: c in candles ==> HasExpectedClose(c)
    ensures SeriesReport(candles, symbol, tf, evaluation, gaps, conflicts).status == Valid <==>
            candles != [] && CleanSeries(candles, symbol, tf, evaluation) && gaps == [] && conflicts == []
  {
    hide ExpectedClose;
    hide AllCodes;
    hide CleanSeries;
    hide SeriesCodes;
    hide SortCandles;
    hide NextOpen;
    hide Insert;
    if candles != [] {
      var sorted := SortCandles(candles);
      SeriesCodesIff(sorted, symbol, tf, evaluation);
      AllCodesEmpty(candles, symbol, tf, evaluation, gaps, conflicts);
      if CleanSeries(candles, symbol, tf, evaluation) {
        CleanIsStrict(candles, symbol, tf, evaluation);
        StrictIsSorted(candles);
      }
    }
  }

  lemma SeriesCodesIff(s: seq<Candle>, symbol: Symbol, tf: Timeframe, evaluation: Time)
    requires SortedByOpen(s) && forall c :: c in s ==> HasExpectedClose(c)
    ensures SeriesCodes(s, |s|, symbol, tf, evaluation) == [] <==> CleanSeries(s, symbol, tf, evaluation)
  {
    SeriesCodesEmpty(s, |s|, symbol, tf, evaluation);
  }

  lemma AllCodesEmpty(candles: seq<Candle>, symbol: Symbol, tf: Timeframe, evaluation: Time,
                      gaps: seq<Gap>, conflicts: seq<Conflict>)
    requires forall c :: c in candles ==> HasExpectedClose(c)
    ensures var sorted := SortCandles(candles);
            AllCodes(candles, symbol, tf, evaluation, gaps, conflicts) == [] <==>
            (sorted == candles && SeriesCodes(sorted, |sorted|, symbol, tf, evaluation) == [] &&
             gaps == [] && conflicts == [])
  {
    var sorted := SortCandles(candles);
    var a := if sorted != candles then [MdInvalid] else [];
    var b := SeriesCodes(sorted, |sorted|, symbol, tf, evaluation);
    var c := if gaps != [] then [MdGapDetected] else [];
    var d := if conflicts != [] then [MdDuplicateConflict] else [];
    DedupEmpty(a + b + c + d);
    assert a + b + c + d == [] <==> a == [] && b == [] && c == [] && d == [] by {
      assert |a + b + c + d| == |a| + |b| + |c| + |d|;
    }
  }

  lemma DedupEmpty(s: seq<ReasonCode>)
    ensures Dedup(s) == [] <==> s == []
  {
    if s != [] {
      assert s[0] in Dedup(s);
    }
  }
}
