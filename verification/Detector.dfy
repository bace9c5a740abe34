/** Detection of market events from the latest candles, against what has been acknowledged. */
module Detector {
  import opened Common
  import opened Timeframes
  import opened Bridge

  /** What detection sees of a symbol's latest candle. */
  datatype Seen = Seen(openTime: Time, closeTime: Time, low: real, isClosed: bool)

  datatype Tracker = Tracker(
    openAck: Option<Time>, openFailed: Option<Time>, liveLow: Option<real>, dayAck: Option<Time>, dayFailed: Option<Time>,
    weekAck: Option<Time>, weekFailed: Option<Time>, monthAck: Option<Time>, monthFailed: Option<Time>)

  const FRESH := Tracker(None, None, None, None, None, None, None, None, None)

  function Acknowledged(t: Tracker, e: Event): Tracker {
    match e.kind
    case Open => t.(openAck := Some(e.at), openFailed := None, liveLow := Some(e.low))
    case Live => t.(liveLow := Some(e.low))
    case DayClose => t.(dayAck := Some(e.at), dayFailed := None)
    case WeekClose => t.(weekAck := Some(e.at), weekFailed := None)
    case MonthClose => t.(monthAck := Some(e.at), monthFailed := None)
  }

  /** A live update cannot fail terminally. */
  function GivenUp(t: Tracker, e: Event): Tracker
    requires !e.kind.Live?
  {
    match e.kind
    case Open => t.(openFailed := Some(e.at))
    case DayClose => t.(dayFailed := Some(e.at))
    case WeekClose => t.(weekFailed := Some(e.at))
    case MonthClose => t.(monthFailed := Some(e.at))
  }

  function Cleared(t: Tracker, e: Event): Tracker
    requires !e.kind.Live?
  {
    match e.kind
    case Open => t.(openFailed := None)
    case DayClose => t.(dayFailed := None)
    case WeekClose => t.(weekFailed := None)
    case MonthClose => t.(monthFailed := None)
  }

  function DetectOpen(t: Tracker, c: Seen, symbol: string): seq<Event> {
    if c.isClosed then []
    else if t.openAck != Some(c.openTime)
    then if t.openFailed != Some(c.openTime) then [Event(Open, symbol, c.openTime, c.low)] else []
    else if t.liveLow != Some(c.low) then [Event(Live, symbol, c.openTime, c.low)]
    else []
  }

  function DetectClose(ack: Option<Time>, failed: Option<Time>, c: Seen, symbol: string, kind: Kind, time: Time,
                       delay: nat): seq<Event> {
    if c.isClosed && IsClosedAt(c.closeTime, time) && time >= c.closeTime + delay && ack != Some(c.openTime) &&
        failed != Some(c.openTime)
    then [Event(kind, symbol, c.openTime, 0.0)]
    else []
  }

  type Latest = (string, Timeframe) -> Option<Seen>

  function DetectSymbol(t: Tracker, latest: Latest, symbol: string, time: Time, delay: nat): seq<Event> {
    var daily, weekly, monthly := latest(symbol, Daily), latest(symbol, Weekly), latest(symbol, Monthly);
    (if daily.Some?
     then DetectOpen(t, daily.value, symbol) + DetectClose(t.dayAck, t.dayFailed, daily.value, symbol, DayClose, time, delay)
     else []) +
    (if weekly.Some? then DetectClose(t.weekAck, t.weekFailed, weekly.value, symbol, WeekClose, time, 0) else []) +
    (if monthly.Some? then DetectClose(t.monthAck, t.monthFailed, monthly.value, symbol, MonthClose, time, 0) else [])
  }

  function TrackerOf(trackers: map<string, Tracker>, symbol: string): Tracker {
    if symbol in trackers then trackers[symbol] else FRESH
  }

  function Track(trackers: map<string, Tracker>, e: Event): map<string, Tracker> {
    trackers[e.symbol := Acknowledged(TrackerOf(trackers, e.symbol), e)]
  }

  function GiveUp(trackers: map<string, Tracker>, e: Event): map<string, Tracker>
    requires !e.kind.Live?
  {
    trackers[e.symbol := GivenUp(TrackerOf(trackers, e.symbol), e)]
  }

  function DetectAll(trackers: map<string, Tracker>, latest: Latest, symbols: seq<string>, time: Time, delay: nat): seq<Event> {
    if symbols == [] then []
    else DetectAll(trackers, latest, symbols[..|symbols| - 1], time, delay) +
         DetectSymbol(TrackerOf(trackers, symbols[|symbols| - 1]), latest, symbols[|symbols| - 1], time, delay)
  }

  /* ---------- what is detected ---------- */

  /** The latest candle of the series is closed, its time has come, and its open is news. */
  predicate JustClosed(c: Option<Seen>, at: Time, time: Time, delay: nat, ack: Option<Time>, failed: Option<Time>) {
    && c.Some? && c.value.isClosed && at == c.value.openTime && c.value.closeTime + delay <= time
    && ack != Some(at) && failed != Some(at)
  }

  /** When an event is due: an open for an unclosed day that is neither acknowledged nor given up on, a live update for an
      acknowledged one with a new low, and a close for a closed day, after the delay, week or month that is neither. */
  predicate IsDue(t: Tracker, latest: Latest, e: Event, time: Time, delay: nat) {
    var day := latest(e.symbol, Daily);
    match e.kind
    case Open =>
      && day.Some? && !day.value.isClosed && e.at == day.value.openTime && e.low == day.value.low
      && t.openAck != Some(e.at) && t.openFailed != Some(e.at)
    case Live =>
      && day.Some? && !day.value.isClosed && e.at == day.value.openTime && e.low == day.value.low
      && t.openAck == Some(e.at) && t.liveLow != Some(e.low)
    case DayClose => e.low == 0.0 && JustClosed(day, e.at, time, delay, t.dayAck, t.dayFailed)
    case WeekClose => e.low == 0.0 && JustClosed(latest(e.symbol, Weekly), e.at, time, 0, t.weekAck, t.weekFailed)
    case MonthClose => e.low == 0.0 && JustClosed(latest(e.symbol, Monthly), e.at, time, 0, t.monthAck, t.monthFailed)
  }

  lemma OpenListedIff(t: Tracker, c: Seen, symbol: string, e: Event)
    ensures e in DetectOpen(t, c, symbol) <==>
            e.symbol == symbol && !c.isClosed && e.at == c.openTime && e.low == c.low &&
            ((e.kind.Open? && t.openAck != Some(e.at) && t.openFailed != Some(e.at)) ||
             (e.kind.Live? && t.openAck == Some(e.at) && t.liveLow != Some(e.low)))
  {
    assert e == Event(e.kind, e.symbol, e.at, e.low);
  }

  lemma CloseListedIff(ack: Option<Time>, failed: Option<Time>, c: Seen, symbol: string, kind: Kind, time: Time, delay: nat,
                       e: Event)
    ensures e in DetectClose(ack, failed, c, symbol, kind, time, delay) <==>
            e.kind == kind && e.symbol == symbol && e.low == 0.0 && JustClosed(Some(c), e.at, time, delay, ack, failed)
  {
    assert e == Event(e.kind, e.symbol, e.at, e.low);
  }

  lemma {:induction false} SymbolListsIff(t: Tracker, latest: Latest, symbol: string, time: Time, delay: nat, e: Event)
    ensures e in DetectSymbol(t, latest, symbol, time, delay) <==> e.symbol == symbol && IsDue(t, latest, e, time, delay)
  {
    var daily, weekly, monthly := latest(symbol, Daily), latest(symbol, Weekly), latest(symbol, Monthly);
    if daily.Some? {
      OpenListedIff(t, daily.value, symbol, e);
      CloseListedIff(t.dayAck, t.dayFailed, daily.value, symbol, DayClose, time, delay, e);
    }
    if weekly.Some? {
      CloseListedIff(t.weekAck, t.weekFailed, weekly.value, symbol, WeekClose, time, 0, e);
    }
    if monthly.Some? {
      CloseListedIff(t.monthAck, t.monthFailed, monthly.value, symbol, MonthClose, time, 0, e);
    }
    hide DetectOpen;
    hide DetectClose;
  }

  /** The detector lists exactly the events of the given symbols that are due. */
  lemma {:induction false} DetectedIff(trackers: map<string, Tracker>, latest: Latest, symbols: seq<string>, time: Time,
                                       delay: nat, e: Event)
    ensures e in DetectAll(trackers, latest, symbols, time, delay) <==>
            e.symbol in symbols && IsDue(TrackerOf(trackers, e.symbol), latest, e, time, delay)
  {
    hide DetectSymbol;
    hide IsDue;
    hide TrackerOf;
    if symbols != [] {
      var front, last := symbols[..|symbols| - 1], symbols[|symbols| - 1];
      DetectedIff(trackers, latest, front, time, delay, e);
      SymbolListsIff(TrackerOf(trackers, last), latest, last, time, delay, e);
      assert e.symbol in symbols <==> e.symbol in front || e.symbol == last;
    }
  }

  /* ---------- what acknowledging comes to ---------- */

  predicate SameOccasion(e: Event, f: Event) {
    e.kind == f.kind && e.symbol == f.symbol && e.at == f.at && (e.kind.Live? ==> e.low == f.low)
  }

  /** What a tracker may be told between two detections. */
  datatype Note = AckedNote(event: Event) | GivenUpNote(event: Event) | ClearedNote(event: Event)

  function Told(trackers: map<string, Tracker>, n: Note): map<string, Tracker> {
    match n
    case AckedNote(f) => Track(trackers, f)
    case GivenUpNote(f) => if f.kind.Live? then trackers else GiveUp(trackers, f)
    case ClearedNote(f) =>
      if f.kind.Live? then trackers else trackers[f.symbol := Cleared(TrackerOf(trackers, f.symbol), f)]
  }

  function ToldAll(trackers: map<string, Tracker>, notes: seq<Note>): map<string, Tracker> {
    if notes == [] then trackers else Told(ToldAll(trackers, notes[..|notes| - 1]), notes[|notes| - 1])
  }

  /** Acknowledging `f` overwrites what a tracker remembers of `e`: another event of its kind and symbol, or, for a live
      update, an open of the symbol, which notes its low. */
  predicate Overwrites(f: Event, e: Event) {
    f.symbol == e.symbol && (f.kind == e.kind || (f.kind.Open? && e.kind.Live?)) &&
    (if e.kind.Live? then f.low != e.low else f.at != e.at)
  }

  predicate Remembers(t: Tracker, e: Event) {
    match e.kind
    case Open => t.openAck == Some(e.at)
    case Live => t.liveLow == Some(e.low)
    case DayClose => t.dayAck == Some(e.at)
    case WeekClose => t.weekAck == Some(e.at)
    case MonthClose => t.monthAck == Some(e.at)
  }

  lemma ToldRemembers(trackers: map<string, Tracker>, n: Note, e: Event)
    requires Remembers(TrackerOf(trackers, e.symbol), e) && (n.AckedNote? ==> !Overwrites(n.event, e))
    ensures Remembers(TrackerOf(Told(trackers, n), e.symbol), e)
  {
  }

  lemma {:induction false} AllRemembered(trackers: map<string, Tracker>, e: Event, later: seq<Note>)
    requires forall n :: n in later && n.AckedNote? ==> !Overwrites(n.event, e)
    ensures Remembers(TrackerOf(ToldAll(Track(trackers, e), later), e.symbol), e)
  {
    hide Told;
    hide Overwrites;
    if later != [] {
      hide Remembers;
      AllRemembered(trackers, e, later[..|later| - 1]);
      ToldRemembers(ToldAll(Track(trackers, e), later[..|later| - 1]), later[|later| - 1], e);
    }
  }

  lemma RememberedIsQuiet(t: Tracker, e: Event, latest: Latest, time: Time, delay: nat)
    requires Remembers(t, e)
    ensures forall f :: f in DetectSymbol(t, latest, e.symbol, time, delay) ==> !SameOccasion(e, f)
  {
    forall c: Seen ensures forall f :: f in DetectOpen(t, c, e.symbol) ==> !SameOccasion(e, f) {
    }
    hide DetectOpen;
  }

  /** An acknowledged event is not detected again, whatever candles arrive and whatever the trackers are told in between,
      as long as no acknowledgement overwrites it. */
  lemma {:induction false} AcknowledgedIsQuiet(trackers: map<string, Tracker>, e: Event, later: seq<Note>, latest: Latest,
                                               time: Time, delay: nat)
    requires forall n :: n in later && n.AckedNote? ==> !Overwrites(n.event, e)
    ensures forall f :: f in DetectSymbol(TrackerOf(ToldAll(Track(trackers, e), later), e.symbol), latest, e.symbol, time, delay)
              ==> !SameOccasion(e, f)
  {
    AllRemembered(trackers, e, later);
    RememberedIsQuiet(TrackerOf(ToldAll(Track(trackers, e), later), e.symbol), e, latest, time, delay);
    hide DetectSymbol;
    hide Remembers;
  }

  /** Nor is an event that was given up on. */
  lemma {:induction false} GivenUpIsQuiet(t: Tracker, e: Event, latest: Latest, time: Time, delay: nat)
    requires !e.kind.Live?
    ensures forall f :: f in DetectSymbol(GivenUp(t, e), latest, e.symbol, time, delay) ==> !SameOccasion(e, f)
  {
  }

  function AcknowledgedAll(t: Tracker, es: seq<Event>): Tracker
    decreases |es|
  {
    if es == [] then t else AcknowledgedAll(Acknowledged(t, es[0]), es[1..])
  }

  lemma AcknowledgedConcat(t: Tracker, a: seq<Event>, b: seq<Event>)
    ensures AcknowledgedAll(t, a + b) == AcknowledgedAll(AcknowledgedAll(t, a), b)
    decreases |a|
  {
    if a == [] {
      assert a + b == b;
    } else {
      assert (a + b)[1..] == a[1..] + b;
      AcknowledgedConcat(Acknowledged(t, a[0]), a[1..], b);
    }
  }

  lemma AcknowledgedOne(t: Tracker, e: Event)
    ensures AcknowledgedAll(t, [e]) == Acknowledged(t, e)
  {
    assert [e][1..] == [];
  }

  lemma AcknowledgedClose(t: Tracker, c: Seen, symbol: string, kind: Kind, ack: Option<Time>, failed: Option<Time>,
                          time: Time, delay: nat)
    ensures var es := DetectClose(ack, failed, c, symbol, kind, time, delay);
            AcknowledgedAll(t, es) == if es == [] then t else Acknowledged(t, Event(kind, symbol, c.openTime, 0.0))
  {
    AcknowledgedOne(t, Event(kind, symbol, c.openTime, 0.0));
  }

  lemma AcknowledgedOpen(t: Tracker, c: Seen, symbol: string)
    ensures var es := DetectOpen(t, c, symbol); AcknowledgedAll(t, es) == if es == [] then t else Acknowledged(t, es[0])
  {
    if DetectOpen(t, c, symbol) != [] {
      AcknowledgedOne(t, DetectOpen(t, c, symbol)[0]);
    }
  }

  predicate OthersKept(t: Tracker, u: Tracker, kind: Kind) {
    && (!kind.Open? ==> t.openAck == u.openAck && t.openFailed == u.openFailed && t.liveLow == u.liveLow)
    && (!kind.DayClose? ==> t.dayAck == u.dayAck && t.dayFailed == u.dayFailed)
    && (!kind.WeekClose? ==> t.weekAck == u.weekAck && t.weekFailed == u.weekFailed)
    && (!kind.MonthClose? ==> t.monthAck == u.monthAck && t.monthFailed == u.monthFailed)
  }

  function AckOf(t: Tracker, kind: Kind): Option<Time> {
    match kind
    case DayClose => t.dayAck
    case WeekClose => t.weekAck
    case MonthClose => t.monthAck
    case _ => t.openAck
  }

  function FailedOf(t: Tracker, kind: Kind): Option<Time> {
    match kind
    case DayClose => t.dayFailed
    case WeekClose => t.weekFailed
    case MonthClose => t.monthFailed
    case _ => t.openFailed
  }

  /** What a tracker learns. An acknowledged event is the latest acknowledged of its kind, and with an open or a live update
      its low; whatever of that kind was given up on is forgotten. An event given up on is noted beside what was
      acknowledged, and an operator's recovery takes just that note away. Other kinds are not touched. */
  lemma {:induction false} TrackerLearns(t: Tracker, e: Event)
    ensures var u := Acknowledged(t, e);
            if e.kind.Live? then u == t.(liveLow := Some(e.low))
            else
              && OthersKept(t, u, e.kind) && AckOf(u, e.kind) == Some(e.at) && FailedOf(u, e.kind) == None
              && (e.kind.Open? ==> u.liveLow == Some(e.low))
    ensures !e.kind.Live? ==>
              var u := GivenUp(t, e);
              OthersKept(t, u, e.kind) && AckOf(u, e.kind) == AckOf(t, e.kind) && FailedOf(u, e.kind) == Some(e.at) &&
              u.liveLow == t.liveLow
    ensures !e.kind.Live? ==>
              var u := Cleared(t, e);
              OthersKept(t, u, e.kind) && AckOf(u, e.kind) == AckOf(t, e.kind) && FailedOf(u, e.kind) == None &&
              u.liveLow == t.liveLow
  {
  }

  /** So an event that was given up on is due again once it is recovered, exactly as if it never had been. */
  lemma {:induction false} RecoveredIsDue(t: Tracker, latest: Latest, e: Event, time: Time, delay: nat)
    requires !e.kind.Live? && FailedOf(t, e.kind) == None
    ensures IsDue(Cleared(GivenUp(t, e), e), latest, e, time, delay) <==> IsDue(t, latest, e, time, delay)
    ensures !IsDue(GivenUp(t, e), latest, e, time, delay)
  {
  }

  /** Acknowledging a detected close silences it and touches nothing else. */
  lemma CloseAcknowledged(t: Tracker, c: Option<Seen>, symbol: string, kind: Kind, time: Time, delay: nat)
    requires kind.DayClose? || kind.WeekClose? || kind.MonthClose?
    ensures var es := if c.Some? then DetectClose(AckOf(t, kind), FailedOf(t, kind), c.value, symbol, kind, time, delay) else [];
            var u := AcknowledgedAll(t, es);
            OthersKept(t, u, kind) &&
            (c.Some? ==> DetectClose(AckOf(u, kind), FailedOf(u, kind), c.value, symbol, kind, time, delay) == [])
  {
    if c.Some? {
      AcknowledgedClose(t, c.value, symbol, kind, AckOf(t, kind), FailedOf(t, kind), time, delay);
    }
  }

  lemma OpenAcknowledged(t: Tracker, c: Option<Seen>, symbol: string)
    ensures var es := if c.Some? then DetectOpen(t, c.value, symbol) else [];
            var u := AcknowledgedAll(t, es);
            OthersKept(t, u, Open) && (c.Some? ==> DetectOpen(u, c.value, symbol) == [])
  {
    if c.Some? {
      AcknowledgedOpen(t, c.value, symbol);
    }
  }

  /** Detection of a daily open looks at the open fields only. */
  lemma OpenFields(t: Tracker, u: Tracker, c: Seen, symbol: string)
    requires t.openAck == u.openAck && t.openFailed == u.openFailed && t.liveLow == u.liveLow
    ensures DetectOpen(t, c, symbol) == DetectOpen(u, c, symbol)
  {
  }

  /** Once everything detected has been acknowledged, the same candles give nothing more. */
  lemma {:induction false} AllAcknowledgedIsQuiet(t: Tracker, latest: Latest, symbol: string, time: Time, delay: nat)
    ensures DetectSymbol(AcknowledgedAll(t, DetectSymbol(t, latest, symbol, time, delay)), latest, symbol, time, delay) == []
  {
    hide AcknowledgedAll;
    hide DetectOpen;
    hide DetectClose;
    var daily, weekly, monthly := latest(symbol, Daily), latest(symbol, Weekly), latest(symbol, Monthly);
    var opens := if daily.Some? then DetectOpen(t, daily.value, symbol) else [];
    var days := if daily.Some? then DetectClose(t.dayAck, t.dayFailed, daily.value, symbol, DayClose, time, delay) else [];
    var weeks := if weekly.Some? then DetectClose(t.weekAck, t.weekFailed, weekly.value, symbol, WeekClose, time, 0) else [];
    var months :=
      if monthly.Some? then DetectClose(t.monthAck, t.monthFailed, monthly.value, symbol, MonthClose, time, 0) else [];
    assert DetectSymbol(t, latest, symbol, time, delay) == opens + days + weeks + months;
    AcknowledgedConcat(t, opens + days + weeks, months);
    AcknowledgedConcat(t, opens + days, weeks);
    AcknowledgedConcat(t, opens, days);
    var t1 := AcknowledgedAll(t, opens);
    var t2 := AcknowledgedAll(t1, days);
    var t3 := AcknowledgedAll(t2, weeks);
    var u := AcknowledgedAll(t3, months);
    OpenAcknowledged(t, daily, symbol);
    CloseAcknowledged(t1, daily, symbol, DayClose, time, delay);
    CloseAcknowledged(t2, weekly, symbol, WeekClose, time, 0);
    CloseAcknowledged(t3, monthly, symbol, MonthClose, time, 0);
    if daily.Some? {
      OpenFields(t1, u, daily.value, symbol);
    }
  }

  /* ---------- the detector ---------- */

  class MarketEventDetector {
    const symbols: seq<string>
    const delay: nat
    var trackers: map<string, Tracker>

    constructor (symbols: seq<string>, delay: nat)
      ensures this.symbols == symbols && this.delay == delay && trackers == map[]
    {
      this.symbols, this.delay, trackers := symbols, delay, map[];
    }

    /** Detecting consumes nothing: it may add untouched trackers but changes none. */
    method DetectCandidates(latest: Latest, time: Time) returns (events: seq<Event>)
      modifies this
      ensures events == DetectAll(old(trackers), latest, symbols, time, delay)
      ensures forall s :: TrackerOf(trackers, s) == TrackerOf(old(trackers), s)
    {
      events := [];
      for n := 0 to |symbols|
        invariant events == DetectAll(old(trackers), latest, symbols[..n], time, delay)
        invariant forall s :: TrackerOf(trackers, s) == TrackerOf(old(trackers), s)
      {
        assert symbols[..n + 1][..n] == symbols[..n];
        if symbols[n] !in trackers {
          trackers := trackers[symbols[n] := FRESH];
        }
        events := events + DetectSymbol(trackers[symbols[n]], latest, symbols[n], time, delay);
      }
      assert symbols[..|symbols|] == symbols;
    }

    method AcknowledgeCompleted(e: Event)
      modifies this
      ensures trackers == Track(old(trackers), e)
    {
      trackers := trackers[e.symbol := Acknowledged(TrackerOf(trackers, e.symbol), e)];
    }

    method AcknowledgeTerminalFailed(e: Event)
      requires !e.kind.Live?
      modifies this
      ensures trackers == GiveUp(old(trackers), e)
    {
      trackers := trackers[e.symbol := GivenUp(TrackerOf(trackers, e.symbol), e)];
    }

    method ClearTerminalFailed(e: Event)
      requires !e.kind.Live?
      modifies this
      ensures trackers == old(trackers)[e.symbol := Cleared(TrackerOf(old(trackers), e.symbol), e)]
    {
      trackers := trackers[e.symbol := Cleared(TrackerOf(trackers, e.symbol), e)];
    }
  }
}
