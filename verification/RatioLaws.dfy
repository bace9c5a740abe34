/** What the ratios of a backtest measure, said without the formulas the service computes them by. */
module RatioLaws {
  import opened Common
  import opened Timeframes
  import opened Ratios
  import Metrics

  /** The platform's square root is one. */
  ghost predicate TakesRoots(roots: Roots) {
    forall x: real {:trigger roots.root(x)} :: x >= 0.0 ==> roots.root(x) >= 0.0 && roots.root(x) * roots.root(x) == x
  }

  /** The platform's power undoes the root of the same degree. */
  ghost predicate TakesPowers(roots: Roots) {
    forall x: real, y: real {:trigger roots.power(x, 1.0 / y)} ::
      x > 0.0 && y > 0.0 ==> roots.power(roots.power(x, 1.0 / y), y) == x
  }

  /* ---------- returns ---------- */

  predicate AllPositive(points: seq<Point>) { forall i :: 0 <= i < |points| ==> points[i].equity > 0.0 }

  function Product(a: real, b: real): real { a * b }

  /** What one unit becomes under these returns. */
  function Compound(xs: seq<real>): real {
    if xs == [] then 1.0 else Product(Compound(xs[..|xs| - 1]), 1.0 + xs[|xs| - 1])
  }

  lemma OneReturn(prev: real, cur: real, start: real, before: real)
    requires prev > 0.0 && Product(start, before) == prev
    ensures Product(start, Product(before, 1.0 + (cur - prev) / prev)) == cur
  {
    var x := (cur - prev) / prev;
    Cancel(cur - prev, prev);
    assert x * prev == cur - prev;
    assert start * (before * (1.0 + x)) == (start * before) * (1.0 + x);
  }

  /** The daily returns of a curve that stays positive compound to its last point. */
  lemma {:induction false} ReturnsCompound(points: seq<Point>)
    requires points != [] && AllPositive(points)
    ensures |Returns(points)| == |points| - 1
    ensures Product(points[0].equity, Compound(Returns(points))) == points[|points| - 1].equity
  {
    if |points| == 1 {
      assert Product(points[0].equity, 1.0) == points[0].equity;
    } else {
      var front := points[..|points| - 1];
      ReturnsCompound(front);
      var prev, cur := points[|points| - 2].equity, points[|points| - 1].equity;
      assert front[|front| - 1].equity == prev && front[0] == points[0];
      OneReturn(prev, cur, points[0].equity, Compound(Returns(front)));
      var x := (cur - prev) / prev;
      assert Returns(points) == Returns(front) + [x];
      assert Returns(points)[..|Returns(front)|] == Returns(front);
      hide Product;
    }
  }

  /** The total return is what the last capital exceeds the first by. */
  lemma TotalReturnIs(points: seq<Point>, ts: seq<Closed>, a: Account, roots: Roots)
    ensures var r := RatiosOf(points, ts, a, roots).totalReturn;
            (r.Some? <==> a.start != 0.0) && (r.Some? ==> a.end == a.start + Product(r.value, a.start))
  {
    if a.start != 0.0 {
      Cancel(a.end - a.start, a.start);
    }
    hide Sharpe;
    hide Sortino;
    hide GrowthRate;
    hide DaysIn;
  }

  /** The yearly growth, kept up over the years between the first day and the last, leads from the first capital to the
      last; there is one exactly if both are positive and at least a whole day lies between. */
  lemma GrowthCompounds(points: seq<Point>, ts: seq<Closed>, a: Account, roots: Roots)
    requires TakesPowers(roots) && (a.span.Some? ==> a.span.value.0 <= a.span.value.1)
    ensures var g := RatiosOf(points, ts, a, roots).growthRate;
            (g.Some? <==> a.span.Some? && a.start > 0.0 && a.end > 0.0 && a.span.value.1 - a.span.value.0 >= DAY) &&
            (g.Some? ==>
               var years := ((a.span.value.1 - a.span.value.0) / DAY) as real / 365.25;
               Product(a.start, roots.power(1.0 + g.value, years)) == a.end)
  {
    hide Sharpe;
    hide Sortino;
    hide DaysIn;
    hide TakesPowers;
    GrowthIs(a, roots);
  }

  lemma GrowthIs(a: Account, roots: Roots)
    requires TakesPowers(roots) && (a.span.Some? ==> a.span.value.0 <= a.span.value.1)
    ensures var g := GrowthRate(a, roots);
            (g.Some? <==> a.span.Some? && a.start > 0.0 && a.end > 0.0 && a.span.value.1 - a.span.value.0 >= DAY) &&
            (g.Some? ==>
               var years := ((a.span.value.1 - a.span.value.0) / DAY) as real / 365.25;
               Product(a.start, roots.power(1.0 + g.value, years)) == a.end)
  {
    if a.span.Some? && a.start > 0.0 && a.end > 0.0 {
      var days := (a.span.value.1 - a.span.value.0) / DAY;
      var years := days as real / 365.25;
      var x := TotalReturn(a).value + 1.0;
      Cancel(a.end - a.start, a.start);
      assert x * a.start == a.end;
      assert x > 0.0 by { PositiveFactor(x, a.start); }
      var g := GrowthRate(a, roots);
      if g.Some? {
        assert roots.power(roots.power(x, 1.0 / years), years) == x;
        assert 1.0 + g.value == roots.power(x, 1.0 / years);
      }
    }
  }

  lemma PositiveFactor(x: real, y: real)
    requires y > 0.0 && x * y > 0.0
    ensures x > 0.0
  {
  }

  /* ---------- risk ---------- */

  /** The squared distances from a center, together. */
  function Spread(xs: seq<real>, center: real): real {
    if xs == [] then 0.0 else Spread(xs[..|xs| - 1], center) + Product(xs[|xs| - 1] - center, xs[|xs| - 1] - center)
  }

  /** The squares of the losses, together. */
  function Shortfall(xs: seq<real>): real {
    if xs == [] then 0.0
    else Shortfall(xs[..|xs| - 1]) + if xs[|xs| - 1] < 0.0 then Product(xs[|xs| - 1], xs[|xs| - 1]) else 0.0
  }

  lemma SumSnoc(xs: seq<real>, x: real)
    ensures Sum(xs + [x]) == Sum(xs) + x
  {
    assert (xs + [x])[..|xs|] == xs;
  }

  lemma SquareAt(xs: seq<real>, center: real, i: nat)
    requires i < |xs|
    ensures |Squares(xs, center)| == |xs| && Squares(xs, center)[i] == Product(xs[i] - center, xs[i] - center)
  {
    var d := xs[i] - center;
    assert Squares(xs, center)[i] == d * d;
  }

  lemma SquaresNext(xs: seq<real>, x: real, center: real)
    ensures Squares(xs + [x], center) == Squares(xs, center) + [Product(x - center, x - center)]
  {
    var longer := xs + [x];
    var all := Squares(longer, center);
    SquareAt(longer, center, |xs|);
    forall i | 0 <= i < |xs| ensures all[i] == Squares(xs, center)[i] {
      assert longer[i] == xs[i];
      SquareAt(longer, center, i);
      SquareAt(xs, center, i);
    }
    hide Squares;
  }

  lemma {:induction false} SquaresAre(xs: seq<real>, center: real)
    ensures Sum(Squares(xs, center)) == Spread(xs, center)
  {
    if xs != [] {
      var front, x := xs[..|xs| - 1], xs[|xs| - 1];
      SquaresAre(front, center);
      assert xs == front + [x];
      SquaresNext(front, x, center);
      SumSnoc(Squares(front, center), Product(x - center, x - center));
      hide Sum;
      hide Squares;
      hide Product;
    }
  }

  lemma DownsideNext(xs: seq<real>, x: real)
    ensures Downside(xs + [x]) == Downside(xs) + [if x < 0.0 then x else 0.0]
  {
  }

  lemma {:induction false} DownsideIs(xs: seq<real>)
    ensures Sum(Squares(Downside(xs), 0.0)) == Shortfall(xs)
  {
    if xs != [] {
      var front, x := xs[..|xs| - 1], xs[|xs| - 1];
      var d := if x < 0.0 then x else 0.0;
      DownsideIs(front);
      assert xs == front + [x];
      DownsideNext(front, x);
      SquaresNext(Downside(front), d, 0.0);
      SumSnoc(Squares(Downside(front), 0.0), Product(d - 0.0, d - 0.0));
      assert d - 0.0 == d;
      assert d == 0.0 ==> Product(d, d) == 0.0;
      hide Sum;
      hide Squares;
      hide Downside;
      hide Product;
    }
  }

  lemma PositiveProduct(x: real, y: real)
    requires (x > 0.0 && y > 0.0) || (x < 0.0 && y < 0.0)
    ensures Product(x, y) > 0.0
  {
  }

  lemma SquarePositive(x: real)
    ensures Product(x, x) >= 0.0 && (Product(x, x) == 0.0 <==> x == 0.0)
  {
    if x != 0.0 {
      PositiveProduct(x, x);
    }
  }

  lemma {:induction false} SpreadIff(xs: seq<real>, center: real)
    ensures Spread(xs, center) >= 0.0
    ensures Spread(xs, center) == 0.0 <==> forall i :: 0 <= i < |xs| ==> xs[i] == center
  {
    if xs != [] {
      var front := xs[..|xs| - 1];
      SpreadIff(front, center);
      SquarePositive(xs[|xs| - 1] - center);
      assert forall i :: 0 <= i < |front| ==> front[i] == xs[i];
      hide Product;
    }
  }

  lemma {:induction false} ShortfallIff(xs: seq<real>)
    ensures Shortfall(xs) >= 0.0
    ensures Shortfall(xs) > 0.0 <==> exists i :: 0 <= i < |xs| && xs[i] < 0.0
  {
    if xs != [] {
      var front := xs[..|xs| - 1];
      ShortfallIff(front);
      SquarePositive(xs[|xs| - 1]);
      assert forall i :: 0 <= i < |front| ==> front[i] == xs[i];
      hide Product;
    }
  }

  /** A ratio of mean to deviation, over a year: its square times the squared distances is 252 squared means for
      each return, and it has the sign of the mean. */
  predicate Measures(ratio: real, mean: real, squares: real, n: nat) {
    Product(Product(ratio, ratio), squares) == Product(252.0 * n as real, Product(mean, mean)) && (ratio > 0.0 <==> mean > 0.0)
  }

  lemma RatioMeasures(mean: real, deviation: real, year: real, squares: real, n: nat)
    requires n > 0 && deviation > 0.0 && year > 0.0 && year * year == 252.0 && deviation * deviation == squares / n as real
    ensures Measures(mean / deviation * year, mean, squares, n)
  {
    var q, m := mean / deviation, n as real;
    Cancel(mean, deviation);
    Cancel(squares, m);
    assert q * deviation == mean && squares == deviation * deviation * m;
    var ratio := q * year;
    assert ratio * ratio == (q * q) * 252.0 by {
      assert (q * year) * (q * year) == (q * q) * (year * year);
    }
    assert mean * mean == (q * q) * (deviation * deviation) by {
      assert (q * deviation) * (q * deviation) == (q * q) * (deviation * deviation);
    }
    assert ratio * ratio * squares == ((q * q) * 252.0) * ((deviation * deviation) * m);
    assert ((q * q) * 252.0) * ((deviation * deviation) * m) == (252.0 * m) * ((q * q) * (deviation * deviation));
    SignOf(mean, deviation, q, year);
  }

  lemma SignOf(mean: real, deviation: real, q: real, year: real)
    requires deviation > 0.0 && year > 0.0 && q * deviation == mean
    ensures q * year > 0.0 <==> mean > 0.0
  {
    if q > 0.0 {
      assert q * deviation > 0.0 && q * year > 0.0;
    } else {
      assert q * deviation <= 0.0 && q * year <= 0.0;
    }
  }

  lemma RootOf(roots: Roots, x: real)
    requires TakesRoots(roots) && x > 0.0
    ensures roots.root(x) > 0.0 && roots.root(x) * roots.root(x) == x
  {
  }

  lemma {:induction false} DeviationIs(xs: seq<real>, center: real, roots: Roots)
    requires TakesRoots(roots) && xs != []
    ensures var d := Deviation(xs, center, roots); var squares := Sum(Squares(xs, center));
            d >= 0.0 && (d > 0.0 <==> squares > 0.0) && (d > 0.0 ==> d * d == squares / |xs| as real)
  {
    hide Squares;
    hide Sum;
    var squares, n := Sum(Squares(xs, center)), |xs| as real;
    var variance := squares / n;
    Cancel(squares, n);
    if variance > 0.0 {
      RootOf(roots, variance);
      hide TakesRoots;
      assert variance * n > 0.0;
    } else {
      hide TakesRoots;
      assert variance * n <= 0.0;
    }
  }

  lemma YearlyMeasures(xs: seq<real>, mean: real, center: real, ys: seq<real>, roots: Roots)
    requires TakesRoots(roots) && xs != []
    ensures var ratio := Yearly(mean, Deviation(xs, center, roots), roots); var squares := Sum(Squares(xs, center));
            (ratio.Some? <==> squares > 0.0) && (ratio.Some? ==> Measures(ratio.value, mean, squares, |xs|))
  {
    DeviationIs(xs, center, roots);
    RootOf(roots, TRADING_DAYS);
    var d := Deviation(xs, center, roots);
    hide TakesRoots;
    hide Squares;
    hide Sum;
    hide Deviation;
    hide Measures;
    if d > 0.0 {
      RatioMeasures(mean, d, roots.root(TRADING_DAYS), Sum(Squares(xs, center)), |xs|);
    }
  }

  /** The Sharpe ratio: there is one exactly if there are two returns or more and they are not all alike; it sets the mean
      return against the spread around it. */
  lemma {:induction false} SharpeIs(points: seq<Point>, ts: seq<Closed>, a: Account, roots: Roots)
    requires TakesRoots(roots)
    ensures var r := RatiosOf(points, ts, a, roots).sharpe; var moves := Returns(points);
            (r.Some? <==> exists i, j :: 0 <= i < j < |moves| && moves[i] != moves[j]) &&
            (r.Some? ==> var mean := Sum(moves) / |moves| as real; Measures(r.value, mean, Spread(moves, mean), |moves|))
  {
    var moves := Returns(points);
    hide TakesRoots;
    hide Returns;
    hide Measures;
    hide GrowthRate;
    hide Sortino;
    hide DaysIn;
    if |moves| >= 2 {
      var mean := Sum(moves) / |moves| as real;
      YearlyMeasures(moves, mean, mean, moves, roots);
      SquaresAre(moves, mean);
      SpreadIff(moves, mean);
      AlikeIff(moves);
      hide Spread;
      hide Squares;
      hide Deviation;
      hide Yearly;
      hide Sum;
    }
  }

  /** Equal values are their mean. */
  lemma {:induction false} AllAlike(xs: seq<real>)
    requires xs != []
    ensures (forall i :: 0 <= i < |xs| ==> xs[i] == xs[0]) ==> Sum(xs) / |xs| as real == xs[0]
  {
    if forall i :: 0 <= i < |xs| ==> xs[i] == xs[0] {
      SumOfAlike(xs, xs[0]);
      Cancel(Sum(xs), |xs| as real);
      var n := |xs| as real;
      assert (Sum(xs) / n - xs[0]) * n == 0.0;
    }
  }

  /** All values are the mean exactly if no two differ. */
  lemma {:induction false} AlikeIff(xs: seq<real>)
    requires xs != []
    ensures (forall i :: 0 <= i < |xs| ==> xs[i] == Sum(xs) / |xs| as real) <==>
            !exists i, j :: 0 <= i < j < |xs| && xs[i] != xs[j]
  {
    hide Sum;
    if !exists i, j :: 0 <= i < j < |xs| && xs[i] != xs[j] {
      forall i | 0 <= i < |xs| ensures xs[i] == xs[0] {
      }
      AllAlike(xs);
    }
  }

  lemma {:induction false} SumOfAlike(xs: seq<real>, x: real)
    requires forall i :: 0 <= i < |xs| ==> xs[i] == x
    ensures Sum(xs) == |xs| as real * x
  {
    if xs != [] {
      SumOfAlike(xs[..|xs| - 1], x);
      assert (|xs| - 1) as real == |xs| as real - 1.0;
    }
  }

  /** The Sortino ratio: there is one exactly if there are two returns or more and one is a loss; it sets the mean return
      against the losses. */
  lemma {:induction false} SortinoIs(points: seq<Point>, ts: seq<Closed>, a: Account, roots: Roots)
    requires TakesRoots(roots)
    ensures var r := RatiosOf(points, ts, a, roots).sortino; var moves := Returns(points);
            (r.Some? <==> |moves| >= 2 && exists i :: 0 <= i < |moves| && moves[i] < 0.0) &&
            (r.Some? ==> Measures(r.value, Sum(moves) / |moves| as real, Shortfall(moves), |moves|))
  {
    var moves := Returns(points);
    hide TakesRoots;
    hide Returns;
    hide Measures;
    hide GrowthRate;
    hide Sharpe;
    hide DaysIn;
    if |moves| >= 2 {
      var mean := Sum(moves) / |moves| as real;
      assert |Downside(moves)| == |moves|;
      YearlyMeasures(Downside(moves), mean, 0.0, moves, roots);
      DownsideIs(moves);
      ShortfallIff(moves);
      hide Shortfall;
      hide Squares;
      hide Downside;
      hide Deviation;
      hide Yearly;
      hide Sum;
    }
  }

  /* ---------- rates ---------- */

  /** A rate is so many of so many. */
  predicate IsRate(rate: Option<real>, part: nat, whole: nat) {
    (rate.Some? <==> whole > 0) && (rate.Some? ==> Product(rate.value, whole as real) == part as real)
  }

  lemma QuotientIsRate(part: nat, whole: nat)
    ensures IsRate(Quotient(part as real, whole as real), part, whole)
  {
    if whole > 0 {
      Cancel(part as real, whole as real);
    }
  }

  lemma {:induction false} DaysAre(points: seq<Point>)
    ensures DaysIn(points) == |set i | 0 <= i < |points| && points[i].openPositions > 0|
  {
    if points != [] {
      var n := |points| - 1;
      var front := points[..n];
      DaysAre(front);
      var before, after := set i | 0 <= i < |front| && front[i].openPositions > 0,
          set i | 0 <= i < |points| && points[i].openPositions > 0;
      assert forall i :: 0 <= i < n ==> front[i] == points[i];
      assert after == before + if points[n].openPositions > 0 then {n} else {};
      assert n !in before;
    }
  }

  /** The trades with a profit, by place. */
  function Wins(ts: seq<Closed>): set<nat> { set i: nat | i < |ts| && ts[i].netPnl > 0.0 }

  lemma WinsNext(front: seq<Closed>, last: Closed)
    ensures Wins(front + [last]) == Wins(front) + (if last.netPnl > 0.0 then {|front|} else {}) && |front| !in Wins(front)
  {
  }

  lemma {:induction false} WinnersAre(ts: seq<Closed>)
    ensures |Winners(ts)| == |Wins(ts)|
  {
    if ts != [] {
      var front, last := ts[..|ts| - 1], ts[|ts| - 1];
      WinnersAre(front);
      assert ts == front + [last];
      FilterSnoc(front, last, IsWin);
      WinsNext(front, last);
      hide Wins;
      hide Filter;
    }
  }

  lemma {:induction false} WinRateIs(ts: seq<Closed>)
    ensures IsRate(WinRate(ts), |Wins(ts)|, |ts|)
  {
    WinnersAre(ts);
    QuotientIsRate(|Winners(ts)|, |ts|);
    hide Winners;
    hide Wins;
    hide Quotient;
    hide IsRate;
  }

  /** The win rate counts the trades with a profit, the time in the market the days with an open position. */
  lemma {:induction false} RatesAre(points: seq<Point>, ts: seq<Closed>, a: Account, roots: Roots)
    ensures IsRate(RatiosOf(points, ts, a, roots).winRate, |Wins(ts)|, |ts|)
    ensures IsRate(RatiosOf(points, ts, a, roots).timeInMarket,
                   |set i | 0 <= i < |points| && points[i].openPositions > 0|, |points|)
  {
    WinRateIs(ts);
    DaysAre(points);
    QuotientIsRate(DaysIn(points), |points|);
    hide DaysIn;
    hide IsRate;
    hide Wins;
    hide WinRate;
    hide Sharpe;
    hide Sortino;
    hide GrowthRate;
  }

  /** The trades of a kind, and of those the ones with a profit, by place. */
  function Placed(ts: seq<Closed>, kind: Closed -> bool): set<nat> { set i: nat | i < |ts| && kind(ts[i]) }

  function Winning(ts: seq<Closed>, kind: Closed -> bool): set<nat> {
    set i: nat | i < |ts| && kind(ts[i]) && ts[i].netPnl > 0.0
  }

  lemma PlacedNext(front: seq<Closed>, last: Closed, kind: Closed -> bool)
    ensures |Placed(front + [last], kind)| == |Placed(front, kind)| + if kind(last) then 1 else 0
  {
    assert Placed(front + [last], kind) == Placed(front, kind) + if kind(last) then {|front|} else {};
    assert |front| !in Placed(front, kind);
  }

  lemma WinningNext(front: seq<Closed>, last: Closed, kind: Closed -> bool)
    ensures |Winning(front + [last], kind)| == |Winning(front, kind)| + if kind(last) && last.netPnl > 0.0 then 1 else 0
  {
    assert Winning(front + [last], kind) == Winning(front, kind) + if kind(last) && last.netPnl > 0.0 then {|front|} else {};
    assert |front| !in Winning(front, kind);
  }

  function CountOf(ts: seq<Closed>, kind: Closed -> bool): nat { |Filter(ts, kind)| }

  function WinsOf(ts: seq<Closed>, kind: Closed -> bool): nat { |Wins(Filter(ts, kind))| }

  lemma KindNext(front: seq<Closed>, last: Closed, kind: Closed -> bool)
    ensures CountOf(front + [last], kind) == CountOf(front, kind) + if kind(last) then 1 else 0
    ensures WinsOf(front + [last], kind) == WinsOf(front, kind) + if kind(last) && last.netPnl > 0.0 then 1 else 0
  {
    FilterSnoc(front, last, kind);
    WinsNext(Filter(front, kind), last);
    var before := Filter(front, kind);
    hide Filter;
    hide Wins;
    assert before + [] == before;
  }

  lemma {:induction false} KindsAre(ts: seq<Closed>, kind: Closed -> bool)
    ensures CountOf(ts, kind) == |Placed(ts, kind)| && WinsOf(ts, kind) == |Winning(ts, kind)|
  {
    if ts != [] {
      hide CountOf;
      hide WinsOf;
      hide Placed;
      hide Winning;
      var front, last := ts[..|ts| - 1], ts[|ts| - 1];
      KindsAre(front, kind);
      KindNext(front, last, kind);
      PlacedNext(front, last, kind);
      WinningNext(front, last, kind);
      assert ts == front + [last];
    }
  }

  /** The breakdowns count the trades of each symbol and entry type, and give the rate of those with a profit. */
  lemma {:induction false} BreakdownRates(points: seq<Point>, ts: seq<Closed>, a: Account, roots: Roots)
    ensures forall m :: m in Metrics.SummaryOf(points, ts, a, roots).perSymbol ==>
              var kind := (t: Closed) => t.symbol == m.symbol;
              m.count == |Placed(ts, kind)| && IsRate(m.winRate, |Winning(ts, kind)|, m.count)
    ensures forall m :: m in Metrics.SummaryOf(points, ts, a, roots).perEntry ==>
              m.count == |Placed(ts, HasEntry(m.entry))| && IsRate(m.winRate, |Winning(ts, HasEntry(m.entry))|, m.count)
  {
    hide RatiosOf;
    hide Placed;
    hide Winning;
    hide Wins;
    hide WinRate;
    hide IsRate;
    hide Filter;
    hide SumPnl;
    hide HasEntry;
    hide Metrics.Traded;
    hide Metrics.LongestRun;
    hide Metrics.Curve;
    forall m | m in Metrics.SummaryOf(points, ts, a, roots).perSymbol
      ensures var kind := (t: Closed) => t.symbol == m.symbol;
              m.count == |Placed(ts, kind)| && IsRate(m.winRate, |Winning(ts, kind)|, m.count)
    {
      var kind := (t: Closed) => t.symbol == m.symbol;
      assert m == Metrics.MetricsOf(ts, m.symbol);
      KindsAre(ts, kind);
      WinRateIs(Filter(ts, kind));
    }
    forall m | m in Metrics.SummaryOf(points, ts, a, roots).perEntry
      ensures m.count == |Placed(ts, HasEntry(m.entry))| && IsRate(m.winRate, |Winning(ts, HasEntry(m.entry))|, m.count)
    {
      KindsAre(ts, HasEntry(m.entry));
      WinRateIs(Filter(ts, HasEntry(m.entry)));
    }
  }

  /* ---------- multiples of the risk ---------- */

  function SumR(ts: seq<Closed>): real {
    if ts == [] then 0.0
    else SumR(ts[..|ts| - 1]) + if ts[|ts| - 1].rMultiple.Some? then ts[|ts| - 1].rMultiple.value else 0.0
  }

  function Rated(ts: seq<Closed>): set<nat> { set i: nat | i < |ts| && ts[i].rMultiple.Some? }

  lemma RatedNext(front: seq<Closed>, last: Closed)
    ensures Rated(front + [last]) == Rated(front) + (if last.rMultiple.Some? then {|front|} else {}) && |front| !in Rated(front)
  {
  }

  lemma {:induction false} MultiplesAre(ts: seq<Closed>)
    ensures |RMultiples(ts)| == |Rated(ts)| && Sum(RMultiples(ts)) == SumR(ts)
  {
    if ts != [] {
      var front, last := ts[..|ts| - 1], ts[|ts| - 1];
      MultiplesAre(front);
      assert ts == front + [last];
      RatedNext(front, last);
      hide Rated;
      if last.rMultiple.Some? {
        SumSnoc(RMultiples(front), last.rMultiple.value);
        assert RMultiples(ts) == RMultiples(front) + [last.rMultiple.value];
      } else {
        assert RMultiples(ts) == RMultiples(front);
      }
      hide Sum;
    }
  }

  /** The average multiple of the risk, and the expectancy in multiples, are over the trades that have one. */
  lemma {:induction false} MultiplesAverage(points: seq<Point>, ts: seq<Closed>, a: Account, roots: Roots)
    ensures var r := RatiosOf(points, ts, a, roots);
            r.expectancyR == r.averageR && (r.averageR.Some? <==> |Rated(ts)| > 0) &&
            (r.averageR.Some? ==> Product(r.averageR.value, |Rated(ts)| as real) == SumR(ts))
  {
    MultiplesAre(ts);
    MeanOf(RMultiples(ts));
    hide RMultiples;
    hide Rated;
    hide SumR;
    hide Sum;
    hide Mean;
    hide TotalReturn;
    hide GrossLoss;
    hide GrossProfit;
    hide Sharpe;
    hide Sortino;
    hide GrowthRate;
    hide DaysIn;
    hide WinRate;
    hide MeanPnl;
    hide Quotient;
    hide Product;
  }

  lemma MeanOf(xs: seq<real>)
    ensures Mean(xs).Some? <==> |xs| > 0
    ensures |xs| > 0 ==> Product(Mean(xs).value, |xs| as real) == Sum(xs)
  {
    hide Sum;
    if |xs| > 0 {
      Cancel(Sum(xs), |xs| as real);
    }
  }
}
