/** No look-ahead: what a backtest does through a day depends on nothing that becomes known later. */
module LookAhead {
  import opened Common
  import opened Timeframes
  import opened OrderedDict
  import opened Backtest
  import Stops

  /* ---------- two bundles that agree on the past ---------- */

  function KnownAt(asOf: Time): Candle -> bool { (c: Candle) => c.closeTime <= asOf }

  function Known(candles: seq<Candle>, asOf: Time): seq<Candle> { Filter(candles, KnownAt(asOf)) }

  function OpensUpTo(day: Time): Candle -> bool { (c: Candle) => c.openTime <= day }

  function OpenedBy(candles: seq<Candle>, day: Time): seq<Candle> { Filter(candles, OpensUpTo(day)) }

  function PaidBy(asOf: Time): Funding -> bool { (e: Funding) => e.timestamp <= asOf }

  function FundedBy(events: seq<Funding>, asOf: Time): seq<Funding> { Filter(events, PaidBy(asOf)) }

  /** A daily series splits at a day: what opened by then is evaluated by `asOf`, what opens later closes later. */
  predicate SplitsAt(candles: seq<Candle>, day: Time, asOf: Time) {
    forall c :: c in candles ==> if c.openTime <= day then EvaluationTime(c) <= asOf else asOf < c.closeTime
  }

  predicate AgreeOn(a: Bundle, b: Bundle, s: Sym, day: Time, asOf: Time) {
    && OpenedBy(Series(a.daily, s), day) == OpenedBy(Series(b.daily, s), day)
    && SplitsAt(Series(a.daily, s), day, asOf) && SplitsAt(Series(b.daily, s), day, asOf)
    && Known(Series(a.weekly, s), asOf) == Known(Series(b.weekly, s), asOf)
    && Known(Series(a.monthly, s), asOf) == Known(Series(b.monthly, s), asOf)
    && FundedBy(Series(a.funding, s), asOf) == FundedBy(Series(b.funding, s), asOf)
  }

  predicate Agree(c: Config, a: Bundle, b: Bundle, day: Time, asOf: Time) {
    forall s :: s in c.symbols ==> AgreeOn(a, b, s, day, asOf)
  }

  /* ---------- each lookup of a day sees only the past ---------- */

  lemma {:induction false} BarAtPast(candles: seq<Candle>, t: Time, day: Time)
    requires t <= day
    ensures BarAt(OpenedBy(candles, day), t) == BarAt(candles, t)
  {
    if candles != [] {
      var front, last := candles[..|candles| - 1], candles[|candles| - 1];
      assert candles == front + [last];
      FilterSnoc(front, last, OpensUpTo(day));
      BarAtPast(front, t, day);
      if last.openTime <= day {
        assert OpenedBy(candles, day)[..|OpenedBy(front, day)|] == OpenedBy(front, day);
      } else {
        assert OpenedBy(candles, day) == OpenedBy(front, day);
      }
    }
  }

  lemma {:induction false} BarBeforePast(candles: seq<Candle>, t: Time, day: Time)
    requires t <= day
    ensures BarBefore(OpenedBy(candles, day), t) == BarBefore(candles, t)
  {
    if candles != [] {
      var front, last := candles[..|candles| - 1], candles[|candles| - 1];
      assert candles == front + [last];
      FilterSnoc(front, last, OpensUpTo(day));
      BarBeforePast(front, t, day);
      if last.openTime <= day {
        assert OpenedBy(candles, day)[..|OpenedBy(front, day)|] == OpenedBy(front, day);
      } else {
        assert OpenedBy(candles, day) == OpenedBy(front, day);
      }
    }
  }

  lemma BarAtMember(candles: seq<Candle>, t: Time)
    requires BarAt(candles, t).Some?
    ensures BarAt(candles, t).value in candles && BarAt(candles, t).value.openTime == t
  {
  }

  /** The closed slice of a daily series is a slice of what opened by the day. */
  lemma DailySlice(candles: seq<Candle>, day: Time, asOf: Time, at: Time)
    requires SplitsAt(candles, day, asOf) && at <= asOf
    ensures ClosedBy(OpenedBy(candles, day), at) == ClosedBy(candles, at)
  {
    FilterImplied(candles, OpensUpTo(day), ClosedAt(at));
  }

  lemma HigherSlice(candles: seq<Candle>, asOf: Time, at: Time)
    requires at <= asOf
    ensures ClosedBy(Known(candles, asOf), at) == ClosedBy(candles, at)
  {
    FilterImplied(candles, KnownAt(asOf), ClosedAt(at));
  }

  lemma FundingSlice(events: seq<Funding>, asOf: Time, bar: Candle)
    requires bar.closeTime <= asOf
    ensures FundingWithin(FundedBy(events, asOf), bar) == FundingWithin(events, bar)
  {
    FilterImplied(events, PaidBy(asOf), During(bar));
  }

  lemma SameSlices(a: Bundle, b: Bundle, s: Sym, day: Time, asOf: Time, at: Time)
    requires AgreeOn(a, b, s, day, asOf) && at <= asOf
    ensures SlicesAt(a, s, at) == SlicesAt(b, s, at)
  {
    DailySlice(Series(a.daily, s), day, asOf, at);
    DailySlice(Series(b.daily, s), day, asOf, at);
    HigherSlice(Series(a.weekly, s), asOf, at);
    HigherSlice(Series(b.weekly, s), asOf, at);
    HigherSlice(Series(a.monthly, s), asOf, at);
    HigherSlice(Series(b.monthly, s), asOf, at);
  }

  lemma SameBars(c: Config, a: Bundle, b: Bundle, day: Time, asOf: Time, t: Time)
    requires Agree(c, a, b, day, asOf) && t <= day
    ensures BarsOn(c, a, t) == BarsOn(c, b, t) && PriorCloses(c, a, t) == PriorCloses(c, b, t)
    ensures forall s :: s in BarsOn(c, a, t) ==> s in c.symbols && EvaluationTime(BarsOn(c, a, t)[s]) <= asOf
  {
    hide BarAt;
    hide BarBefore;
    hide Series;
    hide AgreeOn;
    forall s | s in c.symbols
      ensures BarAt(Series(a.daily, s), t) == BarAt(Series(b.daily, s), t)
      ensures BarBefore(Series(a.daily, s), t) == BarBefore(Series(b.daily, s), t)
      ensures BarAt(Series(a.daily, s), t).Some? ==> EvaluationTime(BarAt(Series(a.daily, s), t).value) <= asOf
    {
      SameBar(a, b, s, day, asOf, t);
    }
  }

  lemma SameBar(a: Bundle, b: Bundle, s: Sym, day: Time, asOf: Time, t: Time)
    requires AgreeOn(a, b, s, day, asOf) && t <= day
    ensures BarAt(Series(a.daily, s), t) == BarAt(Series(b.daily, s), t)
    ensures BarBefore(Series(a.daily, s), t) == BarBefore(Series(b.daily, s), t)
    ensures BarAt(Series(a.daily, s), t).Some? ==> EvaluationTime(BarAt(Series(a.daily, s), t).value) <= asOf
  {
    BarAtPast(Series(a.daily, s), t, day);
    BarAtPast(Series(b.daily, s), t, day);
    BarBeforePast(Series(a.daily, s), t, day);
    BarBeforePast(Series(b.daily, s), t, day);
    if BarAt(Series(a.daily, s), t).Some? {
      BarAtMember(Series(a.daily, s), t);
    }
  }

  lemma FirstTimeBound(symbols: seq<Sym>, bars: map<Sym, Candle>, asOf: Time)
    requires forall s :: s in bars ==> EvaluationTime(bars[s]) <= asOf
    ensures FirstTime(symbols, bars) <= asOf
  {
  }

  /** A day through `day` looks the same in both bundles. */
  lemma {:induction false} SameView(c: Config, a: Bundle, b: Bundle, day: Time, asOf: Time, t: Time)
    requires Agree(c, a, b, day, asOf) && t <= day
    ensures ViewOf(c, a, t) == ViewOf(c, b, t)
  {
    hide BarsOn;
    hide PriorCloses;
    hide SlicesAt;
    hide FundingWithin;
    hide ClosedBy;
    hide AgreeOn;
    SameBars(c, a, b, day, asOf, t);
    var bars := BarsOn(c, a, t);
    FirstTimeBound(c.symbols, bars, asOf);
    forall s | s in bars
      ensures SlicesAt(a, s, EvaluationTime(bars[s])) == SlicesAt(b, s, EvaluationTime(bars[s]))
      ensures FundingWithin(Series(a.funding, s), bars[s]) == FundingWithin(Series(b.funding, s), bars[s])
      ensures ClosedBy(Series(a.daily, s), FirstTime(c.symbols, bars)) == ClosedBy(Series(b.daily, s), FirstTime(c.symbols, bars))
    {
      SameLookups(a, b, s, day, asOf, bars[s], FirstTime(c.symbols, bars));
    }
  }

  lemma SameLookups(a: Bundle, b: Bundle, s: Sym, day: Time, asOf: Time, bar: Candle, time: Time)
    requires AgreeOn(a, b, s, day, asOf) && EvaluationTime(bar) <= asOf && time <= asOf
    ensures SlicesAt(a, s, EvaluationTime(bar)) == SlicesAt(b, s, EvaluationTime(bar))
    ensures FundingWithin(Series(a.funding, s), bar) == FundingWithin(Series(b.funding, s), bar)
    ensures ClosedBy(Series(a.daily, s), time) == ClosedBy(Series(b.daily, s), time)
  {
    hide FundingWithin;
    hide ClosedBy;
    hide SplitsAt;
    SameSlices(a, b, s, day, asOf, EvaluationTime(bar));
    FundingSlice(Series(a.funding, s), asOf, bar);
    FundingSlice(Series(b.funding, s), asOf, bar);
    DailySlice(Series(a.daily, s), day, asOf, time);
    DailySlice(Series(b.daily, s), day, asOf, time);
  }

  /* ---------- timelines ---------- */

  /** The days of a timeline up to and including `day`. */
  function UpTo(day: Time): Time -> bool { (t: Time) => t <= day }

  function Through(times: seq<Time>, day: Time): seq<Time> { Filter(times, UpTo(day)) }

  predicate Increasing(times: seq<Time>) { forall i, j :: 0 <= i < j < |times| ==> times[i] < times[j] }

  lemma ThroughIncreases(times: seq<Time>, day: Time)
    requires Increasing(times)
    ensures Increasing(Through(times, day))
  {
    if times != [] {
      assert forall i, j :: 0 <= i < j < |times| - 1 ==> times[1..][i] < times[1..][j];
      ThroughIncreases(times[1..], day);
      var rest := Through(times[1..], day);
      forall i | 0 <= i < |rest| ensures times[0] < rest[i] {
        assert rest[i] in times[1..];
      }
    }
  }

  /** The days up to `day` are an initial stretch of the run. */
  lemma {:induction false} ThroughPrefix(times: seq<Time>, day: Time)
    requires Increasing(times)
    ensures Through(times, day) <= times
  {
    if times != [] {
      assert forall i, j :: 0 <= i < j < |times| - 1 ==> times[1..][i] < times[1..][j];
      ThroughPrefix(times[1..], day);
      assert Through(times, day) != [] ==> Through(times, day)[0] in Through(times, day);
    }
  }

  lemma {:induction false} IncreasingUnique(p: seq<Time>, q: seq<Time>)
    requires Increasing(p) && Increasing(q) && forall t :: t in p <==> t in q
    ensures p == q
  {
    assert p != [] ==> p[|p| - 1] in q;
    assert q != [] ==> q[|q| - 1] in p;
    if p != [] && q != [] {
      var m, n := |p| - 1, |q| - 1;
      assert p[m] == q[n];
      forall t ensures t in p[..m] <==> t in q[..n] {
        FrontMembers(p, t);
        FrontMembers(q, t);
      }
      IncreasingUnique(p[..m], q[..n]);
      assert p == p[..m] + [p[m]] && q == q[..n] + [q[n]];
    }
  }

  lemma FrontMembers(p: seq<Time>, t: Time)
    requires Increasing(p) && p != []
    ensures t in p[..|p| - 1] <==> t in p && t != p[|p| - 1]
  {
    if t in p && t != p[|p| - 1] {
      var i :| 0 <= i < |p| && p[i] == t;
      assert p[..|p| - 1][i] == t;
    }
  }

  predicate OpensAt(candles: seq<Candle>, t: Time) { exists i :: 0 <= i < |candles| && candles[i].openTime == t }

  lemma OpensAtPast(candles: seq<Candle>, t: Time, day: Time)
    requires t <= day
    ensures OpensAt(candles, t) <==> OpensAt(OpenedBy(candles, day), t)
  {
    if OpensAt(candles, t) {
      var i :| 0 <= i < |candles| && candles[i].openTime == t;
      assert candles[i] in OpenedBy(candles, day);
    }
    if OpensAt(OpenedBy(candles, day), t) {
      var i :| 0 <= i < |OpenedBy(candles, day)| && OpenedBy(candles, day)[i].openTime == t;
      assert OpenedBy(candles, day)[i] in candles;
    }
  }

  lemma TimelineMember(c: Config, b: Bundle, times: seq<Time>, t: Time)
    requires IsTimeline(times, c, b)
    ensures t in times <==> exists s :: s in c.symbols && OpensAt(Series(b.daily, s), t)
  {
    if s, i :| s in c.symbols && 0 <= i < |Series(b.daily, s)| && Series(b.daily, s)[i].openTime == t {
      assert OpensAt(Series(b.daily, s), t);
    }
    if s :| s in c.symbols && OpensAt(Series(b.daily, s), t) {
      var i :| 0 <= i < |Series(b.daily, s)| && Series(b.daily, s)[i].openTime == t;
      assert t in times;
    }
  }

  /** Both runs go through the same days up to `day`. */
  lemma {:induction false} SameDays(c: Config, a: Bundle, b: Bundle, day: Time, asOf: Time, ta: seq<Time>, tb: seq<Time>)
    requires Agree(c, a, b, day, asOf) && IsTimeline(ta, c, a) && IsTimeline(tb, c, b)
    ensures Through(ta, day) == Through(tb, day)
  {
    hide IsTimeline;
    hide OpensAt;
    hide AgreeOn;
    TimelineIncreases(c, a, ta);
    TimelineIncreases(c, b, tb);
    ThroughIncreases(ta, day);
    ThroughIncreases(tb, day);
    forall t: Time ensures t in Through(ta, day) <==> t in Through(tb, day) {
      if t <= day {
        TimelineMember(c, a, ta, t);
        TimelineMember(c, b, tb, t);
        forall s | s in c.symbols ensures OpensAt(Series(a.daily, s), t) == OpensAt(Series(b.daily, s), t) {
          SameOpening(a, b, s, day, asOf, t);
        }
      }
    }
    IncreasingUnique(Through(ta, day), Through(tb, day));
  }

  lemma SameOpening(a: Bundle, b: Bundle, s: Sym, day: Time, asOf: Time, t: Time)
    requires AgreeOn(a, b, s, day, asOf) && t <= day
    ensures OpensAt(Series(a.daily, s), t) == OpensAt(Series(b.daily, s), t)
  {
    OpensAtPast(Series(a.daily, s), t, day);
    OpensAtPast(Series(b.daily, s), t, day);
  }

  lemma TimelineIncreases(c: Config, b: Bundle, times: seq<Time>)
    requires IsTimeline(times, c, b)
    ensures Increasing(times)
  {
  }

  /* ---------- the theorem ---------- */

  lemma {:induction false} SameRun(c: Config, a: Bundle, b: Bundle, day: Time, asOf: Time, s: State, times: seq<Time>)
    requires c.Valid() && Agree(c, a, b, day, asOf) && forall i :: 0 <= i < |times| ==> times[i] <= day
    ensures Days(c, a, s, times) == Days(c, b, s, times)
  {
    hide Day;
    hide ViewOf;
    hide Agree;
    if times != [] {
      SameRun(c, a, b, day, asOf, s, times[..|times| - 1]);
      SameView(c, a, b, day, asOf, times[|times| - 1]);
    }
  }

  /** No look-ahead. If two bundles agree on the daily candles opening by `day`, on weekly and monthly candles
      and funding known by its evaluation time, and every later daily candle closes after that time, then
      both runs go through the same days and reach the same state: cash, positions, intents, trades,
      evaluations and equity curve. */
  lemma {:induction false} NoLookAhead(c: Config, a: Bundle, b: Bundle, day: Time, asOf: Time, ta: seq<Time>, tb: seq<Time>)
    requires c.Valid() && Agree(c, a, b, day, asOf) && IsTimeline(ta, c, a) && IsTimeline(tb, c, b)
    ensures Through(ta, day) == Through(tb, day) && Through(ta, day) <= ta && Through(tb, day) <= tb
    ensures Days(c, a, Start(c), Through(ta, day)) == Days(c, b, Start(c), Through(tb, day))
  {
    hide Agree;
    hide IsTimeline;
    hide Days;
    SameDays(c, a, b, day, asOf, ta, tb);
    TimelineIncreases(c, a, ta);
    TimelineIncreases(c, b, tb);
    ThroughPrefix(ta, day);
    ThroughPrefix(tb, day);
    assert forall i :: 0 <= i < |Through(ta, day)| ==> Through(ta, day)[i] in Through(ta, day);
    SameRun(c, a, b, day, asOf, Start(c), Through(ta, day));
  }

  /* ---------- truncation ---------- */

  function TruncatedSeries(m: map<Sym, seq<Candle>>, keep: Candle -> bool): map<Sym, seq<Candle>> {
    map s | s in m :: Filter(m[s], keep)
  }

  /** The bundle as it could have been recorded at the evaluation time of `day`. */
  function Truncated(b: Bundle, day: Time, asOf: Time): Bundle {
    Bundle(TruncatedSeries(b.daily, OpensUpTo(day)), TruncatedSeries(b.weekly, KnownAt(asOf)),
           TruncatedSeries(b.monthly, KnownAt(asOf)), map s | s in b.funding :: FundedBy(b.funding[s], asOf), b.warnings)
  }

  lemma TruncatedAgrees(c: Config, b: Bundle, day: Time, asOf: Time)
    requires forall s :: s in c.symbols ==> SplitsAt(Series(b.daily, s), day, asOf)
    ensures Agree(c, b, Truncated(b, day, asOf), day, asOf)
  {
    forall s | s in c.symbols ensures AgreeOn(b, Truncated(b, day, asOf), s, day, asOf) {
      TruncatedAgreesOn(b, s, day, asOf);
    }
  }

  lemma TruncatedAgreesOn(b: Bundle, s: Sym, day: Time, asOf: Time)
    requires SplitsAt(Series(b.daily, s), day, asOf)
    ensures AgreeOn(b, Truncated(b, day, asOf), s, day, asOf)
  {
    FilterImplied(Series(b.daily, s), OpensUpTo(day), OpensUpTo(day));
    FilterImplied(Series(b.weekly, s), KnownAt(asOf), KnownAt(asOf));
    FilterImplied(Series(b.monthly, s), KnownAt(asOf), KnownAt(asOf));
    FilterImplied(Series(b.funding, s), PaidBy(asOf), PaidBy(asOf));
  }

  /** A run on data cut off after a day is a prefix of the full run. */
  lemma {:induction false} TruncatedRunIsPrefix(c: Config, b: Bundle, day: Time, asOf: Time, full: seq<Time>, cut: seq<Time>)
    requires c.Valid() && forall s :: s in c.symbols ==> SplitsAt(Series(b.daily, s), day, asOf)
    requires IsTimeline(full, c, b) && IsTimeline(cut, c, Truncated(b, day, asOf))
    ensures cut == Through(full, day)
    ensures Days(c, Truncated(b, day, asOf), Start(c), cut) == Days(c, b, Start(c), Through(full, day))
  {
    hide Agree;
    hide Days;
    hide Start;
    hide SplitsAt;
    hide Truncated;
    hide IsTimeline;
    var t := Truncated(b, day, asOf);
    TruncatedAgrees(c, b, day, asOf);
    NoLookAhead(c, b, t, day, asOf, full, cut);
    TruncatedTimeline(c, b, day, asOf, cut);
  }

  /** No day of a truncated bundle lies beyond the cut. */
  lemma TruncatedTimeline(c: Config, b: Bundle, day: Time, asOf: Time, cut: seq<Time>)
    requires IsTimeline(cut, c, Truncated(b, day, asOf))
    ensures Through(cut, day) == cut
  {
    var t := Truncated(b, day, asOf);
    forall x: Time | x in cut ensures x <= day {
      var s, i :| s in c.symbols && 0 <= i < |Series(t.daily, s)| && Series(t.daily, s)[i].openTime == x;
      assert Series(t.daily, s)[i] in Series(t.daily, s);
    }
    FilterAll(cut, UpTo(day));
  }

  /** Daily candles on UTC days split at every day, with the evaluation time five seconds after its close. */
  lemma CanonicalDailiesSplit(candles: seq<Candle>, n: nat)
    requires forall c :: c in candles ==> c.openTime % DAY == 0 && c.closeTime == c.openTime + DAY - 1
    ensures SplitsAt(candles, n * DAY, n * DAY + DAY - 1 + EVALUATION_BUFFER)
  {
    forall c | c in candles
      ensures if c.openTime <= n * DAY then EvaluationTime(c) <= n * DAY + DAY - 1 + EVALUATION_BUFFER
              else n * DAY + DAY - 1 + EVALUATION_BUFFER < c.closeTime
    {
      assert c.openTime == c.openTime / DAY * DAY;
    }
  }

  /* ---------- within a day ---------- */

  /** Two views of a day in which the same symbols trade, from the same opens, after the same closes. */
  predicate SameOpens(v: DayView, w: DayView) {
    && v.bars.Keys == w.bars.Keys && v.prior == w.prior
    && forall s :: s in v.bars ==> v.bars[s].openTime == w.bars[s].openTime && v.bars[s].open == w.bars[s].open
  }

  lemma {:induction false} SumSame(d: Dict<Position>, f: Position -> real, g: Position -> real)
    requires forall p :: f(p) == g(p)
    ensures SumOf(d, f) == SumOf(d, g)
  {
    if d != [] {
      SumSame(d[1..], f, g);
    }
  }

  lemma {:induction false} StatesSame(d: Dict<Position>, f: Position -> real, g: Position -> real)
    requires forall p :: f(p) == g(p)
    ensures PositionStates(d, f) == PositionStates(d, g)
  {
    if d != [] {
      StatesSame(d[1..], f, g);
    }
  }

  lemma ProposalSame(s: State, v: DayView, w: DayView, intent: Pending, symbol: Sym, fill: real, stop: real)
    requires SameOpens(v, w)
    ensures ProposalFor(s, v, intent, symbol, fill, stop) == ProposalFor(s, w, intent, symbol, fill, stop)
  {
    var f, g := MarksAtOpen(v), MarksAtOpen(w);
    assert forall p :: f(p) == g(p);
    assert forall p :: Gain(f)(p) == Gain(g)(p);
    SumSame(s.positions, Gain(f), Gain(g));
    StatesSame(s.positions, f, g);
    hide SumOf;
    hide PositionStates;
    hide Gain;
    hide MarksAtOpen;
  }

  lemma GapSame(c: Config, s: State, symbol: Sym, a: Candle, b: Candle)
    requires a.openTime == b.openTime && a.open == b.open
    ensures CheckStop(c, s, symbol, a, true) == CheckStop(c, s, symbol, b, true)
  {
    hide Has;
    hide Get;
    hide LevelsOf;
    hide Exited;
    if Has(s.positions, symbol) && TriggerFor(Get(s.positions, symbol), a, true).Some? {
      var p := Get(s.positions, symbol);
      ExitedSame(c, s, p, symbol, a, b, TriggerFor(p, a, true).value);
    }
  }

  lemma ExitedSame(c: Config, s: State, p: Position, symbol: Sym, a: Candle, b: Candle, trigger: Stops.Trigger)
    requires a.openTime == b.openTime
    ensures Exited(c, s, p, symbol, a, trigger) == Exited(c, s, p, symbol, b, trigger)
  {
    hide Has;
    hide Get;
    hide Remove;
    hide Stops.ExitAccount;
    hide SafeRatio;
  }

  lemma FillIntentSame(c: Config, s: State, v: DayView, w: DayView, intent: Pending, symbol: Sym)
    requires SameOpens(v, w) && c.tick(intent.symbol) > 0.0 && symbol in v.bars
    ensures FillIntent(c, s, v, intent, v.bars[symbol]) == FillIntent(c, s, w, intent, w.bars[symbol])
  {
    var a, b := v.bars[symbol], w.bars[symbol];
    assert a.openTime == b.openTime && a.open == b.open;
    hide SameOpens;
    hide Opened;
    hide Mark;
    hide TooDear;
    hide CheckStop;
    hide ProposalFor;
    hide NewPosition;
    hide Put;
    hide Stops.InitialStop;
    hide Stops.EntryFill;
    hide Stops.Fee;
    hide Stops.SlippageCost;
    hide RejectionCodes;
    var fill := Stops.EntryFill(a.open, c.bps);
    var stop := Stops.InitialStop(fill, intent.atr, c.rules, c.tick(intent.symbol));
    ProposalSame(s, v, w, intent, intent.symbol, fill, stop);
    var decision := c.risk(ProposalFor(s, v, intent, intent.symbol, fill, stop));
    if decision.quantity.Some? {
      OpenedSame(c, s, intent, a, b, fill, stop, decision.quantity.value);
      GapSame(c, Opened(c, s, intent, a, fill, stop, decision.quantity.value), intent.symbol, a, b);
    }
  }

  lemma OpenedSame(c: Config, s: State, intent: Pending, a: Candle, b: Candle, fill: real, stop: real, quantity: real)
    requires a.openTime == b.openTime && a.open == b.open && c.tick(intent.symbol) > 0.0
    ensures Opened(c, s, intent, a, fill, stop, quantity) == Opened(c, s, intent, b, fill, stop, quantity)
  {
    hide Put;
    hide Stops.StartTrail;
    hide Stops.Fee;
    hide Stops.SlippageCost;
    hide Stops.Margin;
  }

  lemma {:induction false} FillIntentsSame(c: Config, s: State, v: DayView, w: DayView, intents: seq<Pending>, symbol: Sym)
    requires SameOpens(v, w) && symbol in v.bars && forall i :: 0 <= i < |intents| ==> c.tick(intents[i].symbol) > 0.0
    ensures FillIntents(c, s, v, intents, v.bars[symbol]) == FillIntents(c, s, w, intents, w.bars[symbol])
    decreases |intents|
  {
    hide FillIntent;
    if intents != [] {
      FillIntentSame(c, s, v, w, intents[0], symbol);
      FillIntentsSame(c, FillIntent(c, s, v, intents[0], v.bars[symbol]), v, w, intents[1..], symbol);
    }
  }

  /** Filling at the open sees nothing of the day but its opens: two days with the same opens and earlier
      closes, whatever their highs, lows and closes, fill, reject and gap out exactly alike. */
  lemma {:induction false} FillsSeeOnlyOpens(c: Config, s: State, v: DayView, w: DayView, symbols: seq<Sym>)
    requires c.Valid() && SameOpens(v, w)
    ensures PhaseAll(c, s, v, Fill, symbols) == PhaseAll(c, s, w, Fill, symbols)
    decreases |symbols|
  {
    hide FillIntents;
    if symbols != [] {
      if symbols[0] in v.bars {
        FillIntentsSame(c, Kept(s, symbols[0]), v, w, Due(s, symbols[0]), symbols[0]);
      }
      FillsSeeOnlyOpens(c, PhaseOne(c, s, v, Fill, symbols[0]), v, w, symbols[1..]);
    }
  }
}
