/** What a quality report says: which reason codes it carries, when a series is incomplete rather than invalid, and
    how the reports of the three timeframes make up that of a bundle. */
module Reports {
  import opened Common
  import opened Timeframes
  import opened Candles
  import opened Gaps
  import opened Aggregation
  import opened Ingest
  import opened Bundle

  /* ---------- the codes of one candle ---------- */

  predicate Priced(c: Candle) { 0.0 < c.low <= c.open <= c.high && c.low <= c.close <= c.high }

  predicate OnTime(c: Candle) { ExpectedClose(c.openTime, c.tf) == Some(c.closeTime) && c.openTime < c.closeTime }

  lemma StructureCodesAre(c: Candle, x: ReasonCode)
    requires HasExpectedClose(c)
    ensures x in StructureCodes(c) <==>
              (x == MdInvalidOhlc && !Priced(c)) || (x == MdInvalidVolume && c.volume < 0.0) ||
              (x == MdInvalidTimeframe && !OnTime(c))
  {
    hide ExpectedClose;
  }

  lemma SingleCodesAre(c: Candle, evaluation: Time, x: ReasonCode)
    requires HasExpectedClose(c)
    ensures x in SingleCodes(c, evaluation) <==>
              x in StructureCodes(c) || (x == MdFutureCandle && evaluation < c.closeTime)
  {
    hide StructureCodes;
  }

  /** What the candle at a place in order adds to the codes. */
  predicate Adds(s: seq<Candle>, i: nat, symbol: Symbol, tf: Timeframe, evaluation: Time, x: ReasonCode)
    requires i < |s|
  {
    var c := s[i];
    match x
    case MdInvalidOhlc => !Priced(c)
    case MdInvalidVolume => c.volume < 0.0
    case MdInvalidTimeframe => !OnTime(c)
    case MdFutureCandle => evaluation < c.closeTime
    case MdDuplicateConflict => i > 0 && s[i - 1].openTime == c.openTime
    case MdInvalid =>
      c.symbol != symbol || c.tf != tf || (i > 0 && (c.openTime <= s[i - 1].closeTime || c.openTime == s[i - 1].openTime))
    case _ => false
  }

  lemma SeenIsBefore(s: seq<Candle>, i: nat)
    requires i < |s| && SortedByOpen(s)
    ensures OpenSeen(s, i, s[i].openTime) <==> i > 0 && s[i - 1].openTime == s[i].openTime
  {
    if j :| 0 <= j < i && s[j].openTime == s[i].openTime {
      assert s[j].openTime <= s[i - 1].openTime <= s[i].openTime;
    }
  }

  lemma InFour(a: seq<ReasonCode>, b: seq<ReasonCode>, c: seq<ReasonCode>, d: seq<ReasonCode>, x: ReasonCode)
    ensures x in a + b + c + d <==> x in a || x in b || x in c || x in d
  {
  }

  predicate Meets(c: Candle, previous: Option<Candle>) {
    previous.Some? && (c.openTime <= previous.value.closeTime || c.openTime <= previous.value.openTime)
  }

  lemma CodesForAre(c: Candle, previous: Option<Candle>, seen: bool, symbol: Symbol, tf: Timeframe, evaluation: Time, x: ReasonCode)
    requires HasExpectedClose(c)
    ensures x in CodesFor(c, previous, seen, symbol, tf, evaluation) <==>
              x in SingleCodes(c, evaluation) || (seen && x == MdDuplicateConflict) ||
              (x == MdInvalid && (c.symbol != symbol || c.tf != tf || Meets(c, previous)))
  {
    hide SingleCodes;
    hide HasExpectedClose;
    var own := if c.symbol != symbol || c.tf != tf then [MdInvalid] else [];
    var twice := if seen then [MdDuplicateConflict] else [];
    var closed := if previous.Some? && c.openTime <= previous.value.closeTime then [MdInvalid] else [];
    var early := if previous.Some? && c.openTime <= previous.value.openTime then [MdInvalid] else [];
    InFour(own, SingleCodes(c, evaluation), twice, closed, x);
    assert CodesFor(c, previous, seen, symbol, tf, evaluation) ==
           own + SingleCodes(c, evaluation) + twice + closed + early;
  }

  lemma AddsAre(s: seq<Candle>, i: nat, symbol: Symbol, tf: Timeframe, evaluation: Time, x: ReasonCode)
    requires i < |s| && SortedByOpen(s)
    ensures Adds(s, i, symbol, tf, evaluation, x) <==>
              (x == MdInvalidOhlc && !Priced(s[i])) || (x == MdInvalidVolume && s[i].volume < 0.0) ||
              (x == MdInvalidTimeframe && !OnTime(s[i])) || (x == MdFutureCandle && evaluation < s[i].closeTime) ||
              (x == MdDuplicateConflict && OpenSeen(s, i, s[i].openTime)) ||
              (x == MdInvalid && (s[i].symbol != symbol || s[i].tf != tf || Meets(s[i], Before(s, i))))
  {
    SeenIsBefore(s, i);
    assert i > 0 ==> s[i - 1].openTime <= s[i].openTime;
    hide SortedByOpen;
    hide OpenSeen;
    hide Priced;
    hide OnTime;
  }

  lemma {:induction false} CodesAtAre(s: seq<Candle>, i: nat, symbol: Symbol, tf: Timeframe, evaluation: Time, x: ReasonCode)
    requires i < |s| && SortedByOpen(s) && HasExpectedClose(s[i])
    ensures x in CodesAt(s, i, symbol, tf, evaluation) <==> Adds(s, i, symbol, tf, evaluation, x)
  {
    hide SortedByOpen;
    hide OpenSeen;
    hide CodesFor;
    hide SingleCodes;
    hide StructureCodes;
    hide HasExpectedClose;
    hide Priced;
    hide OnTime;
    hide Meets;
    hide Before;
    hide Adds;
    SingleCodesAre(s[i], evaluation, x);
    StructureCodesAre(s[i], x);
    CodesForAre(s[i], Before(s, i), OpenSeen(s, i, s[i].openTime), symbol, tf, evaluation, x);
    AddsAre(s, i, symbol, tf, evaluation, x);
  }

  lemma {:induction false} SeriesCodesAre(s: seq<Candle>, n: nat, symbol: Symbol, tf: Timeframe, evaluation: Time, x: ReasonCode)
    requires n <= |s| && SortedByOpen(s) && ClosesTo(s, |s|)
    ensures x in SeriesCodes(s, n, symbol, tf, evaluation) <==>
              exists i :: 0 <= i < n && Adds(s, i, symbol, tf, evaluation, x)
  {
    hide CodesAt;
    hide Adds;
    hide SortedByOpen;
    if n > 0 {
      SeriesCodesAre(s, n - 1, symbol, tf, evaluation, x);
      CodesAtAre(s, n - 1, symbol, tf, evaluation, x);
    }
  }

  /* ---------- the report of a series ---------- */

  /** Which codes a non-empty series calls for. */
  predicate CallsFor(candles: seq<Candle>, symbol: Symbol, tf: Timeframe, evaluation: Time, gaps: seq<Gap>,
                     conflicts: seq<Conflict>, x: ReasonCode) {
    var sorted := SortCandles(candles);
    (exists i :: 0 <= i < |sorted| && Adds(sorted, i, symbol, tf, evaluation, x)) ||
    (x == MdGapDetected && gaps != []) || (x == MdDuplicateConflict && conflicts != []) ||
    (x == MdInvalid && candles != sorted)
  }

  lemma AllCodesHas(candles: seq<Candle>, symbol: Symbol, tf: Timeframe, evaluation: Time, gaps: seq<Gap>,
                    conflicts: seq<Conflict>, x: ReasonCode)
    requires (forall c :: c in candles ==> HasExpectedClose(c)) && ClosesTo(SortCandles(candles), |SortCandles(candles)|)
    ensures x in AllCodes(candles, symbol, tf, evaluation, gaps, conflicts) <==>
              x in SeriesCodes(SortCandles(candles), |SortCandles(candles)|, symbol, tf, evaluation) ||
              (x == MdGapDetected && gaps != []) || (x == MdDuplicateConflict && conflicts != []) ||
              (x == MdInvalid && candles != SortCandles(candles))
  {
    hide SortCandles;
    hide SeriesCodes;
    hide HasExpectedClose;
    hide ClosesTo;
    var sorted := SortCandles(candles);
    InFour(if sorted != candles then [MdInvalid] else [], SeriesCodes(sorted, |sorted|, symbol, tf, evaluation),
           if gaps != [] then [MdGapDetected] else [], if conflicts != [] then [MdDuplicateConflict] else [], x);
  }

  lemma {:induction false} AllCodesAre(candles: seq<Candle>, symbol: Symbol, tf: Timeframe, evaluation: Time, gaps: seq<Gap>,
                                       conflicts: seq<Conflict>, x: ReasonCode)
    requires forall c :: c in candles ==> HasExpectedClose(c)
    ensures x in AllCodes(candles, symbol, tf, evaluation, gaps, conflicts) <==>
              CallsFor(candles, symbol, tf, evaluation, gaps, conflicts, x)
  {
    var sorted := SortCandles(candles);
    AllClose(sorted, candles);
    SeriesCodesAre(sorted, |sorted|, symbol, tf, evaluation, x);
    AllCodesHas(candles, symbol, tf, evaluation, gaps, conflicts, x);
    hide AllCodes;
    hide HasExpectedClose;
    hide SortCandles;
    hide SeriesCodes;
    hide Adds;
    hide ClosesTo;
  }

  /** The candle at a place in order is malformed, or shares the open of the one before it. */
  predicate Malformed(s: seq<Candle>, i: nat)
    requires i < |s|
  {
    !Priced(s[i]) || s[i].volume < 0.0 || !OnTime(s[i]) || (i > 0 && s[i - 1].openTime == s[i].openTime)
  }

  lemma MalformedAdds(s: seq<Candle>, i: nat, symbol: Symbol, tf: Timeframe, evaluation: Time)
    requires i < |s|
    ensures Malformed(s, i) <==>
              Adds(s, i, symbol, tf, evaluation, MdInvalidOhlc) || Adds(s, i, symbol, tf, evaluation, MdInvalidVolume) ||
              Adds(s, i, symbol, tf, evaluation, MdInvalidTimeframe) || Adds(s, i, symbol, tf, evaluation, MdDuplicateConflict)
  {
    hide Priced;
    hide OnTime;
  }

  /** A conflict is on record, or a candle is malformed or not the only one of its open. */
  predicate Spoiled(candles: seq<Candle>, conflicts: seq<Conflict>) {
    var sorted := SortCandles(candles);
    conflicts != [] || exists i :: 0 <= i < |sorted| && Malformed(sorted, i)
  }

  lemma SpoiledCodes(candles: seq<Candle>, symbol: Symbol, tf: Timeframe, evaluation: Time, gaps: seq<Gap>,
                     conflicts: seq<Conflict>)
    ensures Spoiled(candles, conflicts) <==>
              CallsFor(candles, symbol, tf, evaluation, gaps, conflicts, MdInvalidOhlc) ||
              CallsFor(candles, symbol, tf, evaluation, gaps, conflicts, MdInvalidVolume) ||
              CallsFor(candles, symbol, tf, evaluation, gaps, conflicts, MdInvalidTimeframe) ||
              CallsFor(candles, symbol, tf, evaluation, gaps, conflicts, MdDuplicateConflict)
  {
    hide SortCandles;
    hide Malformed;
    hide Adds;
    var sorted := SortCandles(candles);
    forall i | 0 <= i < |sorted|
      ensures Malformed(sorted, i) <==>
                Adds(sorted, i, symbol, tf, evaluation, MdInvalidOhlc) ||
                Adds(sorted, i, symbol, tf, evaluation, MdInvalidVolume) ||
                Adds(sorted, i, symbol, tf, evaluation, MdInvalidTimeframe) ||
                Adds(sorted, i, symbol, tf, evaluation, MdDuplicateConflict)
    {
      MalformedAdds(sorted, i, symbol, tf, evaluation);
    }
  }

  /** An empty series is incomplete. Of any other, a hole makes it incomplete unless it is spoiled; it is valid when no
      code is called for, and otherwise invalid. */
  lemma {:induction false} StatusIs(candles: seq<Candle>, symbol: Symbol, tf: Timeframe, evaluation: Time, gaps: seq<Gap>,
                                    conflicts: seq<Conflict>)
    requires forall c :: c in candles ==> HasExpectedClose(c)
    ensures var status := SeriesReport(candles, symbol, tf, evaluation, gaps, conflicts).status;
            && (status == Incomplete <==> candles == [] || (gaps != [] && !Spoiled(candles, conflicts)))
            && (status == Valid <==>
                candles != [] && forall x :: !CallsFor(candles, symbol, tf, evaluation, gaps, conflicts, x))
            && (status == Valid || status == Incomplete || status == Invalid)
  {
    if candles != [] {
      var codes := AllCodes(candles, symbol, tf, evaluation, gaps, conflicts);
      forall x ensures x in codes <==> CallsFor(candles, symbol, tf, evaluation, gaps, conflicts, x) {
        AllCodesAre(candles, symbol, tf, evaluation, gaps, conflicts, x);
      }
      NotValidCode(candles, symbol, tf, evaluation, gaps, conflicts);
      SpoiledCodes(candles, symbol, tf, evaluation, gaps, conflicts);
      SomeCode(codes);
      hide HasExpectedClose;
      hide CallsFor;
      hide Spoiled;
      hide AllCodes;
      hide SortCandles;
      hide NextOpen;
      hide RangesOf;
    }
  }

  lemma SomeCode(codes: seq<ReasonCode>)
    ensures codes == [] <==> forall x :: x !in codes
  {
    if codes != [] {
      assert codes[0] in codes;
    }
  }

  /** A report carries the codes its candles call for, and `MdValid` alone if there are none. */
  lemma {:induction false} CodesAre(candles: seq<Candle>, symbol: Symbol, tf: Timeframe, evaluation: Time, gaps: seq<Gap>,
                                    conflicts: seq<Conflict>, x: ReasonCode)
    requires (forall c :: c in candles ==> HasExpectedClose(c)) && candles != []
    ensures var codes := SeriesReport(candles, symbol, tf, evaluation, gaps, conflicts).codes;
            x in codes <==> CallsFor(candles, symbol, tf, evaluation, gaps, conflicts, x) || codes == [MdValid] == [x]
  {
    AllCodesAre(candles, symbol, tf, evaluation, gaps, conflicts, x);
    NotValidCode(candles, symbol, tf, evaluation, gaps, conflicts);
    AllCodesAre(candles, symbol, tf, evaluation, gaps, conflicts, MdValid);
    SomeCode(AllCodes(candles, symbol, tf, evaluation, gaps, conflicts));
    hide HasExpectedClose;
    hide CallsFor;
    hide AllCodes;
    hide SortCandles;
    hide NextOpen;
    hide RangesOf;
    hide StatusOf;
  }

  /** The rest of a report: the latest candle, the open expected after it, and when each hole opens and closes. */
  lemma {:induction false} ReportTells(candles: seq<Candle>, symbol: Symbol, tf: Timeframe, evaluation: Time, gaps: seq<Gap>,
                                       conflicts: seq<Conflict>)
    requires (forall c :: c in candles ==> HasExpectedClose(c)) && candles != []
    ensures var r := SeriesReport(candles, symbol, tf, evaluation, gaps, conflicts);
            && r.lastKnown.Some? && r.lastKnown.value in candles
            && (forall c :: c in candles ==> c.openTime <= r.lastKnown.value.openTime)
            && r.expectedNextOpen == Some(NextOpen(r.lastKnown.value.openTime, tf))
            && |r.missingRanges| == |gaps|
            && (forall i :: 0 <= i < |gaps| ==> r.missingRanges[i] == (gaps[i].missingOpen, gaps[i].expectedClose))
            && r.gaps == gaps && r.conflicts == conflicts && r.evaluationTime == evaluation
  {
    LatestIsLast(candles);
    hide HasExpectedClose;
    hide AllCodes;
    hide SortCandles;
    hide NextOpen;
    hide StatusOf;
  }

  lemma NotValidCode(candles: seq<Candle>, symbol: Symbol, tf: Timeframe, evaluation: Time, gaps: seq<Gap>,
                     conflicts: seq<Conflict>)
    ensures !CallsFor(candles, symbol, tf, evaluation, gaps, conflicts, MdValid)
    ensures CallsFor(candles, symbol, tf, evaluation, gaps, conflicts, MdGapDetected) <==> gaps != []
  {
    hide SortCandles;
  }

  lemma LatestIsLast(candles: seq<Candle>)
    requires candles != []
    ensures |SortCandles(candles)| == |candles|
    ensures var last := SortCandles(candles)[|candles| - 1];
            last in candles && forall c :: c in candles ==> c.openTime <= last.openTime
  {
    var sorted := SortCandles(candles);
    assert |multiset(sorted)| == |multiset(candles)|;
    forall c | c in candles ensures c.openTime <= sorted[|candles| - 1].openTime {
      assert c in multiset(sorted);
      var i :| 0 <= i < |sorted| && sorted[i] == c;
    }
    assert sorted[|candles| - 1] in multiset(sorted);
  }

  /* ---------- the report of a bundle ---------- */

  /** The conflicts a timeframe answers for: those on record for it, and each complete aggregate that differs from
      the native candle of its open. */
  lemma {:induction false} ConflictsAre(v: View, symbol: Symbol, tf: Timeframe, evaluation: Time, aggregate: bool, k: Conflict)
    requires StrictlySorted(Native(v, tf))
    ensures k in ResolvedConflicts(v, symbol, tf, evaluation, aggregate) <==>
              (k in v.conflicts && k.key.symbol == symbol && k.key.tf == tf) ||
              (tf != Daily && aggregate && k.existing in Native(v, tf) &&
               k.incoming in Aggregate(v.daily, symbol, tf, evaluation) && k.key == k.incoming.Key() &&
               k.existing.openTime == k.incoming.openTime && k.existing != k.incoming)
  {
    MergeConflictsAre(Native(v, tf), Aggregate(v.daily, symbol, tf, evaluation), k);
    hide Aggregate;
    hide MergeConflicts;
  }

  lemma ClashIs(native: seq<Candle>, a: Candle, k: Conflict)
    requires StrictlySorted(native)
    ensures k in ClashWithNative(native, a) <==>
              k.existing in native && k.incoming == a && k.key == a.Key() && k.existing.openTime == a.openTime && k.existing != a
  {
    ClashMeans(native, a);
    if a.openTime in Opens(native) {
      var c :| c in native && c.openTime == a.openTime;
      hide ClashWithNative;
      assert k.existing in native && k.existing.openTime == a.openTime ==> k.existing == c by {
        if k.existing in native && k.existing.openTime == a.openTime {
          OpenIdentifies(native, k.existing, c);
        }
      }
    }
  }

  lemma {:induction false} MergeConflictsAre(native: seq<Candle>, aggregated: seq<Candle>, k: Conflict)
    requires StrictlySorted(native)
    ensures k in MergeConflicts(native, aggregated) <==>
              k.existing in native && k.incoming in aggregated && k.key == k.incoming.Key() &&
              k.existing.openTime == k.incoming.openTime && k.existing != k.incoming
  {
    if aggregated != [] {
      var front, a := aggregated[..|aggregated| - 1], aggregated[|aggregated| - 1];
      MergeConflictsAre(native, front, k);
      ClashIs(native, a, k);
      hide ClashWithNative;
      assert aggregated == front + [a];
    }
  }

  predicate Gradable(s: QualityStatus) { s == Valid || s == Incomplete || s == Invalid }

  lemma ReportGradable(v: View, symbol: Symbol, tf: Timeframe, evaluation: Time, aggregate: bool)
    ensures var r := ReportIn(v, symbol, tf, evaluation, aggregate); r.Some? ==> Gradable(r.value.status)
  {
    hide Closed;
    hide ResolvedConflicts;
    hide Detected;
    hide SortCandles;
    hide HasExpectedClose;
    hide AllCodes;
    hide NextOpen;
  }

  lemma WorstIs(d: QualityStatus, w: QualityStatus, m: QualityStatus)
    requires Gradable(d) && Gradable(w) && Gradable(m)
    ensures var worst := Worst(d, w, m);
            Gradable(worst) && (worst == Invalid <==> d == Invalid || w == Invalid || m == Invalid) &&
            (worst == Valid <==> d == Valid && w == Valid && m == Valid)
  {
  }

  lemma MergedStatus(d: Report, w: Report, m: Report, enough: bool, evaluation: Time)
    requires Gradable(d.status) && Gradable(w.status) && Gradable(m.status)
    ensures var status := WithHistory(MergeReports(d, w, m), enough, evaluation).status;
            if SomeInvalid(d, w, m) then status == Invalid
            else if AllValid(d, w, m) && enough then status == Valid
            else status == Incomplete
  {
    WorstIs(d.status, w.status, m.status);
    hide Worst;
    hide Dedup;
  }

  lemma EveryReport(v: View, symbol: Symbol, evaluation: Time, min: Minimums, aggregate: bool)
    requires Assembled(v, symbol, evaluation, min, aggregate).Some?
    ensures forall tf :: ReportIn(v, symbol, tf, evaluation, aggregate).Some?
  {
    forall tf: Timeframe ensures ReportIn(v, symbol, tf, evaluation, aggregate).Some? {
      if tf != Daily && tf != Weekly {
        assert tf == Monthly;
      }
    }
  }

  predicate SomeInvalid(d: Report, w: Report, m: Report) { d.status == Invalid || w.status == Invalid || m.status == Invalid }

  predicate AllValid(d: Report, w: Report, m: Report) { d.status == Valid && w.status == Valid && m.status == Valid }

  /** A bundle has a report if the three timeframes do: invalid if one of theirs is; valid if all are and there is
      history enough; incomplete otherwise. */
  lemma {:induction false} BundleStatusIs(v: View, symbol: Symbol, evaluation: Time, min: Minimums, aggregate: bool)
    requires Assembled(v, symbol, evaluation, min, aggregate).Some?
    ensures forall tf :: ReportIn(v, symbol, tf, evaluation, aggregate).Some?
    ensures var status := Assembled(v, symbol, evaluation, min, aggregate).value.report.status;
            var d, w, m := ReportIn(v, symbol, Daily, evaluation, aggregate).value,
                ReportIn(v, symbol, Weekly, evaluation, aggregate).value, ReportIn(v, symbol, Monthly, evaluation, aggregate).value;
            if SomeInvalid(d, w, m) then status == Invalid
            else if AllValid(d, w, m) && Enough(v, symbol, evaluation, min, aggregate) then status == Valid
            else status == Incomplete
  {
    EveryReport(v, symbol, evaluation, min, aggregate);
    ReportGradable(v, symbol, Daily, evaluation, aggregate);
    ReportGradable(v, symbol, Weekly, evaluation, aggregate);
    ReportGradable(v, symbol, Monthly, evaluation, aggregate);
    BundleReport(v, symbol, evaluation, min, aggregate);
    hide ReportIn;
    hide Enough;
    hide MergeReports;
    hide WithHistory;
    hide Assembled;
    MergedStatus(ReportIn(v, symbol, Daily, evaluation, aggregate).value, ReportIn(v, symbol, Weekly, evaluation, aggregate).value,
                 ReportIn(v, symbol, Monthly, evaluation, aggregate).value,
                 Enough(v, symbol, evaluation, min, aggregate), evaluation);
  }

  /** It carries the holes and conflicts of all three and the latest candle of the months; its codes are those of the
      three, unless all are valid, and that of missing history if there is too little. */
  lemma {:induction false} BundleTells(v: View, symbol: Symbol, evaluation: Time, min: Minimums, aggregate: bool)
    requires Assembled(v, symbol, evaluation, min, aggregate).Some?
    requires forall tf :: ReportIn(v, symbol, tf, evaluation, aggregate).Some?
    ensures var r := Assembled(v, symbol, evaluation, min, aggregate).value.report;
            var d, w, m := ReportIn(v, symbol, Daily, evaluation, aggregate).value,
                ReportIn(v, symbol, Weekly, evaluation, aggregate).value, ReportIn(v, symbol, Monthly, evaluation, aggregate).value;
            && r.gaps == d.gaps + w.gaps + m.gaps && r.conflicts == d.conflicts + w.conflicts + m.conflicts
            && r.missingRanges == d.missingRanges + w.missingRanges + m.missingRanges
            && r.lastKnown == m.lastKnown && r.expectedNextOpen == m.expectedNextOpen
            && (forall x :: x in r.codes <==>
                  (x == MdIncomplete && !Enough(v, symbol, evaluation, min, aggregate)) ||
                  if AllValid(d, w, m) then x == MdValid
                  else x in d.codes || x in w.codes || x in m.codes)
  {
    ReportGradable(v, symbol, Daily, evaluation, aggregate);
    ReportGradable(v, symbol, Weekly, evaluation, aggregate);
    ReportGradable(v, symbol, Monthly, evaluation, aggregate);
    hide ReportIn;
    hide Closed;
    hide ToSeries;
    var d, w, m := ReportIn(v, symbol, Daily, evaluation, aggregate).value,
        ReportIn(v, symbol, Weekly, evaluation, aggregate).value, ReportIn(v, symbol, Monthly, evaluation, aggregate).value;
    WorstIs(d.status, w.status, m.status);
    hide Worst;
    MergedTells(d, w, m, Enough(v, symbol, evaluation, min, aggregate), evaluation);
    hide Enough;
    hide MergeReports;
    hide WithHistory;
    BundleReport(v, symbol, evaluation, min, aggregate);
    hide Assembled;
  }

  lemma MergedTells(d: Report, w: Report, m: Report, enough: bool, evaluation: Time)
    requires Gradable(d.status) && Gradable(w.status) && Gradable(m.status)
    ensures var r := WithHistory(MergeReports(d, w, m), enough, evaluation);
            && r.gaps == d.gaps + w.gaps + m.gaps && r.conflicts == d.conflicts + w.conflicts + m.conflicts
            && r.missingRanges == d.missingRanges + w.missingRanges + m.missingRanges
            && r.lastKnown == m.lastKnown && r.expectedNextOpen == m.expectedNextOpen
            && (forall x :: x in r.codes <==>
                  (x == MdIncomplete && !enough) ||
                  if AllValid(d, w, m) then x == MdValid
                  else x in d.codes || x in w.codes || x in m.codes)
  {
    WorstIs(d.status, w.status, m.status);
    hide Worst;
  }

  lemma BundleReport(v: View, symbol: Symbol, evaluation: Time, min: Minimums, aggregate: bool)
    requires Assembled(v, symbol, evaluation, min, aggregate).Some?
    requires forall tf :: ReportIn(v, symbol, tf, evaluation, aggregate).Some?
    ensures Assembled(v, symbol, evaluation, min, aggregate).value.report ==
            WithHistory(MergeReports(ReportIn(v, symbol, Daily, evaluation, aggregate).value,
                                     ReportIn(v, symbol, Weekly, evaluation, aggregate).value,
                                     ReportIn(v, symbol, Monthly, evaluation, aggregate).value),
                        Enough(v, symbol, evaluation, min, aggregate), evaluation)
  {
    hide ReportIn;
    hide Closed;
    hide ToSeries;
    hide MergeReports;
    hide WithHistory;
  }
}
