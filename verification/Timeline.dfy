/** The provisional timeline: compressed source intervals are expanded into bins, summed over
    all series, and uncovered bins are filled with zero. */
module Timeline {

  type Duration = d: int | d > 0 witness 1

  /** A compressed interval. */
  datatype Interval = Interval(start: int, end: int, bin: Duration, value: real)

  datatype Point = Point(x: int, value: real)

  // ---- the query ----

  /** `generate_series(first, last, step)`. */
  function Series(first: int, last: int, step: Duration): seq<int>
    decreases last - first
  {
    if first > last then [] else [first] + Series(first + step, last, step)
  }

  function PointsAt(xs: seq<int>, value: real): seq<Point> {
    if xs == [] then [] else PointsAt(xs[..|xs| - 1], value) + [Point(xs[|xs| - 1], value)]
  }

  /** The bins of one interval. */
  function Expand(i: Interval): seq<Point> {
    PointsAt(Series(i.start, i.end - i.bin, i.bin), i.value)
  }

  function ExpandAll(rows: seq<Interval>): seq<Point> {
    if rows == [] then [] else ExpandAll(rows[..|rows| - 1]) + Expand(rows[|rows| - 1])
  }

  /** `SUM(value)` of the group `x`, or zero when there is no such group. */
  function SumAt(points: seq<Point>, x: int): real {
    if points == [] then 0.0
    else SumAt(points[..|points| - 1], x) + if points[|points| - 1].x == x then points[|points| - 1].value else 0.0
  }

  function MinX(points: seq<Point>): (m: int)
    requires points != []
    ensures forall p <- points :: m <= p.x
    ensures exists p <- points :: m == p.x
  {
    if |points| == 1 then points[0].x
    else
      assert points == [points[0]] + points[1..];
      var rest := MinX(points[1..]);
      if points[0].x < rest then points[0].x else rest
  }

  function MaxX(points: seq<Point>): (m: int)
    requires points != []
    ensures forall p <- points :: p.x <= m
    ensures exists p <- points :: m == p.x
  {
    if |points| == 1 then points[0].x
    else
      assert points == [points[0]] + points[1..];
      var rest := MaxX(points[1..]);
      if points[0].x > rest then points[0].x else rest
  }

  /** The rows of the chart for a domain of bins. */
  function Chart(xs: seq<int>, points: seq<Point>): seq<Point> {
    if xs == [] then []
    else Chart(xs[..|xs| - 1], points) + [Point(xs[|xs| - 1], SumAt(points, xs[|xs| - 1]))]
  }

  function Domain(points: seq<Point>, bin: Duration): seq<int> {
    if points == [] then [] else Series(MinX(points), MaxX(points), bin)
  }

  function Query(rows: seq<Interval>, bin: Duration): seq<Point> {
    Chart(Domain(ExpandAll(rows), bin), ExpandAll(rows))
  }

  // ---- whole multiples ----

  lemma AtLeastOne(k: int, bin: Duration)
    requires k >= 1
    ensures k * bin >= bin
  {
    assert (k - 1) * bin >= 0;
  }

  lemma SmallMultiple(k: int, bin: Duration)
    requires 0 - bin < k * bin < bin
    ensures k == 0
  {
    if k >= 1 {
      AtLeastOne(k, bin);
    }
    if k <= -1 {
      AtLeastOne(-k, bin);
    }
  }

  lemma DivMod(x: int, q: int, r: int, bin: Duration)
    requires x == q * bin + r && 0 <= r < bin
    ensures x / bin == q && x % bin == r
  {
    var p, s := x / bin, x % bin;
    assert x == p * bin + s;
    assert (p - q) * bin == p * bin - q * bin;
    SmallMultiple(p - q, bin);
  }

  lemma ShiftDown(d: int, step: Duration)
    ensures (d + step) / step == d / step + 1 && (d + step) % step == d % step
  {
    assert d == d / step * step + d % step;
    assert (d / step + 1) * step == d / step * step + step;
    DivMod(d + step, d / step + 1, d % step, step);
  }

  // ---- the bins ----

  /** A series has every step from the first to the last, once and in order. */
  lemma {:induction false} SeriesSteps(first: int, last: int, step: Duration)
    ensures |Series(first, last, step)| == if first > last then 0 else (last - first) / step + 1
    ensures forall k :: 0 <= k < |Series(first, last, step)| ==> Series(first, last, step)[k] == Step(first, k, step)
    decreases last - first
  {
    if first <= last {
      var rest := Series(first + step, last, step);
      SeriesSteps(first + step, last, step);
      OneStepLess(first, last, step);
      forall k | 0 <= k < |rest| + 1 ensures Series(first, last, step)[k] == Step(first, k, step) {
        if k > 0 {
          assert rest[k - 1] == Step(first + step, k - 1, step);
          StepOn(first, k, step);
        } else {
          assert Step(first, 0, step) == first;
        }
      }
    }
  }

  /** `first + k * step`, one step at a time. */
  function Step(first: int, k: nat, step: Duration): int {
    if k == 0 then first else Step(first, k - 1, step) + step
  }

  lemma {:induction false} StepIs(first: int, k: nat, step: Duration)
    ensures Step(first, k, step) == first + k * step
  {
    if k > 0 {
      StepIs(first, k - 1, step);
      assert k * step == (k - 1) * step + step;
    }
  }

  lemma {:induction false} StepOn(first: int, k: nat, step: Duration)
    requires k > 0
    ensures Step(first + step, k - 1, step) == Step(first, k, step)
  {
    if k > 1 {
      StepOn(first, k - 1, step);
    }
  }

  lemma OneStepLess(first: int, last: int, step: Duration)
    requires first <= last
    ensures (if first + step > last then 0 else (last - first - step) / step + 1) == (last - first) / step
  {
    if first + step > last {
      DivMod(last - first, 0, last - first, step);
    } else {
      ShiftDown(last - first - step, step);
    }
  }

  lemma ChartAt(xs: seq<int>, points: seq<Point>)
    ensures |Chart(xs, points)| == |xs|
    ensures forall k :: 0 <= k < |xs| ==> Chart(xs, points)[k] == Point(xs[k], SumAt(points, xs[k]))
  {
    if xs != [] {
      ChartAt(xs[..|xs| - 1], points);
    }
  }

  /** Whether an interval, cut into its bins, has one that starts at `x`. */
  predicate Covers(i: Interval, x: int) {
    i.start <= x && x + i.bin <= i.end && (x - i.start) % i.bin == 0
  }

  function SumCovering(rows: seq<Interval>, x: int): real {
    if rows == [] then 0.0
    else SumCovering(rows[..|rows| - 1], x) + if Covers(rows[|rows| - 1], x) then rows[|rows| - 1].value else 0.0
  }

  lemma {:induction false} SumAtConcat(a: seq<Point>, b: seq<Point>, x: int)
    ensures SumAt(a + b, x) == SumAt(a, x) + SumAt(b, x)
  {
    if b == [] {
      assert a + b == a;
    } else {
      var n := |b| - 1;
      SumAtConcat(a, b[..n], x);
      assert (a + b)[..|a| + n] == a + b[..n];
    }
  }

  lemma {:induction false} SumOfSeries(first: int, last: int, step: Duration, value: real, x: int)
    ensures SumAt(PointsAt(Series(first, last, step), value), x)
              == if first <= x <= last && (x - first) % step == 0 then value else 0.0
    decreases last - first
  {
    if first <= last {
      var rest := Series(first + step, last, step);
      SumOfSeries(first + step, last, step, value, x);
      PointsAtConcat([first], rest, value);
      assert [first][..0] == [];
      assert PointsAt([first], value) == [Point(first, value)];
      SumAtConcat([Point(first, value)], PointsAt(rest, value), x);
      assert [Point(first, value)][..0] == [];
      assert SumAt([Point(first, value)], x) == if x == first then value else 0.0;
      Remainder(first, x, step);
    }
  }

  lemma Remainder(first: int, x: int, step: Duration)
    ensures x >= first && (x - first) % step == 0 <==> x == first || (x >= first + step && (x - first - step) % step == 0)
  {
    if first <= x < first + step {
      DivMod(x - first, 0, x - first, step);
    } else {
      ShiftDown(x - first - step, step);
    }
  }

  lemma {:induction false} PointsAtConcat(a: seq<int>, b: seq<int>, value: real)
    ensures PointsAt(a + b, value) == PointsAt(a, value) + PointsAt(b, value)
  {
    if b == [] {
      assert a + b == a;
      assert PointsAt(a, value) + [] == PointsAt(a, value);
    } else {
      var n := |b| - 1;
      PointsAtConcat(a, b[..n], value);
      assert (a + b)[..|a| + n] == a + b[..n];
    }
  }

  /** The value of a bin is the sum of the intervals that cover it, zero when none does. */
  lemma {:induction false} BinValue(rows: seq<Interval>, x: int)
    ensures SumAt(ExpandAll(rows), x) == SumCovering(rows, x)
  {
    if rows != [] {
      var n := |rows| - 1;
      BinValue(rows[..n], x);
      var i := rows[n];
      SumAtConcat(ExpandAll(rows[..n]), Expand(i), x);
      SumOfSeries(i.start, i.end - i.bin, i.bin, i.value, x);
    }
  }

  lemma BinAt(rows: seq<Interval>, bin: Duration, first: int, last: int, k: nat, x: int)
    requires ExpandAll(rows) != [] && first == MinX(ExpandAll(rows)) && last == MaxX(ExpandAll(rows))
    requires x == Step(first, k, bin)
    ensures |Query(rows, bin)| == (last - first) / bin + 1
    ensures k < |Query(rows, bin)| ==> Query(rows, bin)[k] == Point(x, SumCovering(rows, x))
  {
    QueryIs(rows, bin, first, last);
    ChartOfSeries(first, last, bin, ExpandAll(rows));
    BinValue(rows, x);
  }

  /** The chart has every bin from the least to the greatest covered start exactly once and in
      order, each with the sum of the intervals covering it. */
  lemma EveryBinOnce(rows: seq<Interval>, bin: Duration, first: int, last: int, k: nat, x: int)
    requires ExpandAll(rows) != [] && first == MinX(ExpandAll(rows)) && last == MaxX(ExpandAll(rows))
    requires x == first + k * bin
    ensures |Query(rows, bin)| == (last - first) / bin + 1
    ensures k < |Query(rows, bin)| ==> Query(rows, bin)[k] == Point(x, SumCovering(rows, x))
  {
    IsStep(first, k, bin, x);
    BinAt(rows, bin, first, last, k, x);
  }

  lemma IsStep(first: int, k: nat, bin: Duration, x: int)
    requires x == first + k * bin
    ensures x == Step(first, k, bin)
  {
    StepIs(first, k, bin);
  }

  lemma QueryIs(rows: seq<Interval>, bin: Duration, first: int, last: int)
    requires ExpandAll(rows) != [] && first == MinX(ExpandAll(rows)) && last == MaxX(ExpandAll(rows))
    ensures Query(rows, bin) == Chart(Series(first, last, bin), ExpandAll(rows)) && first <= last
  {
  }

  lemma ChartOfSeries(first: int, last: int, bin: Duration, points: seq<Point>)
    requires first <= last
    ensures var chart := Chart(Series(first, last, bin), points);
            && |chart| == (last - first) / bin + 1
            && forall k :: 0 <= k < |chart| ==> chart[k] == Point(Step(first, k, bin), SumAt(points, Step(first, k, bin)))
  {
    SeriesSteps(first, last, bin);
    ChartAt(Series(first, last, bin), points);
  }

  // ---- the total ----

  function Total(points: seq<Point>): real {
    if points == [] then 0.0 else Total(points[..|points| - 1]) + points[|points| - 1].value
  }

  /** The part of the points that the bins `xs` show. */
  function Shown(xs: seq<int>, points: seq<Point>): real {
    if points == [] then 0.0
    else Shown(xs, points[..|points| - 1]) + if points[|points| - 1].x in xs then points[|points| - 1].value else 0.0
  }

  predicate Distinct(xs: seq<int>) {
    forall i, j :: 0 <= i < j < |xs| ==> xs[i] != xs[j]
  }

  /** A further point adds its value to the chart exactly when its bin is shown. */
  lemma {:induction false} ChartGrows(xs: seq<int>, points: seq<Point>, p: Point)
    requires Distinct(xs)
    ensures Total(Chart(xs, points + [p])) == Total(Chart(xs, points)) + if p.x in xs then p.value else 0.0
  {
    assert (points + [p])[..|points|] == points;
    if xs != [] {
      var n := |xs| - 1;
      assert xs == xs[..n] + [xs[n]];
      ChartGrows(xs[..n], points, p);
    }
  }

  lemma {:induction false} ChartOfNone(xs: seq<int>)
    ensures Total(Chart(xs, [])) == 0.0
  {
    if xs != [] {
      ChartOfNone(xs[..|xs| - 1]);
    }
  }

  lemma {:induction false} ChartTotal(xs: seq<int>, points: seq<Point>)
    requires Distinct(xs)
    ensures Total(Chart(xs, points)) == Shown(xs, points)
  {
    if points == [] {
      ChartOfNone(xs);
    } else {
      var n := |points| - 1;
      assert points == points[..n] + [points[n]];
      ChartTotal(xs, points[..n]);
      ChartGrows(xs, points[..n], points[n]);
    }
  }

  lemma SeriesDistinct(first: int, last: int, step: Duration)
    ensures Distinct(Series(first, last, step))
    ensures forall x :: x in Series(first, last, step) <==> first <= x <= last && (x - first) % step == 0
  {
    var s := Series(first, last, step);
    SeriesSteps(first, last, step);
    forall i, j | 0 <= i < j < |s| ensures s[i] != s[j] {
      StepsDiffer(first, i, j, step);
    }
    forall x ensures x in s <==> first <= x <= last && (x - first) % step == 0 {
      SeriesMember(first, last, step, x);
    }
  }

  lemma {:induction false} StepsDiffer(first: int, i: nat, j: nat, step: Duration)
    requires 0 <= i < j
    ensures Step(first, i, step) < Step(first, j, step)
  {
    if i < j - 1 {
      StepsDiffer(first, i, j - 1, step);
    }
  }

  lemma {:induction false} SeriesMember(first: int, last: int, step: Duration, x: int)
    ensures x in Series(first, last, step) <==> first <= x <= last && (x - first) % step == 0
    decreases last - first
  {
    if first <= last {
      SeriesMember(first + step, last, step, x);
      Remainder(first, x, step);
    }
  }

  /** For any rows, the chart's total is the total of exactly those bins of the expanded
      intervals that lie on the chart's own grid. */
  lemma TotalIsShown(rows: seq<Interval>, bin: Duration)
    ensures Total(Query(rows, bin)) == Shown(Domain(ExpandAll(rows), bin), ExpandAll(rows))
  {
    var points := ExpandAll(rows);
    if points != [] {
      SeriesDistinct(MinX(points), MaxX(points), bin);
    }
    ChartTotal(Domain(points, bin), points);
  }

  /** Intervals made of whole bins of the chart's duration, on one grid. */
  predicate Aligned(rows: seq<Interval>, bin: Duration) {
    forall i <- rows :: i.bin == bin && i.start <= i.end && i.start % bin == 0 && i.end % bin == 0
  }

  /** The number of bins times the value. */
  function AreaOf(i: Interval): real {
    Bins(i) as real * i.value
  }

  /** Value times number of bins, over all intervals. */
  function Area(rows: seq<Interval>): real {
    if rows == [] then 0.0 else Area(rows[..|rows| - 1]) + AreaOf(rows[|rows| - 1])
  }

  /** `n * value`, one value at a time. */
  function Times(n: int, value: real): real {
    if n <= 0 then 0.0 else Times(n - 1, value) + value
  }

  lemma OneMore(m: real, n: real, value: real)
    requires n == m + 1.0
    ensures n * value == m * value + value
  {
  }

  lemma {:induction false} TimesIs(n: nat, value: real)
    ensures Times(n, value) == n as real * value
  {
    if n > 0 {
      TimesIs(n - 1, value);
      OneMore((n - 1) as real, n as real, value);
      assert Times(n, value) == Times(n - 1, value) + value;
      assert Times(n - 1, value) == (n - 1) as real * value;
    }
  }

  function Bins(i: Interval): int {
    (i.end - i.start) / i.bin
  }

  lemma {:induction false} TotalConcat(a: seq<Point>, b: seq<Point>)
    ensures Total(a + b) == Total(a) + Total(b)
  {
    if b == [] {
      assert a + b == a;
    } else {
      var n := |b| - 1;
      TotalConcat(a, b[..n]);
      assert (a + b)[..|a| + n] == a + b[..n];
    }
  }

  lemma {:induction false} TotalOfPoints(xs: seq<int>, value: real)
    ensures Total(PointsAt(xs, value)) == Times(|xs|, value)
    ensures |PointsAt(xs, value)| == |xs| && forall k :: 0 <= k < |xs| ==> PointsAt(xs, value)[k].x == xs[k]
  {
    if xs != [] {
      var n := |xs| - 1;
      TotalOfPoints(xs[..n], value);
    }
  }

  lemma BinsCount(i: Interval)
    requires i.start <= i.end && i.start % i.bin == 0 && i.end % i.bin == 0
    ensures |Series(i.start, i.end - i.bin, i.bin)| == Bins(i)
  {
    SeriesSteps(i.start, i.end - i.bin, i.bin);
    WholeBins(i.end, i.start, i.bin);
  }

  lemma WholeBins(end: int, start: int, bin: Duration)
    requires start <= end && start % bin == 0 && end % bin == 0
    ensures (if start > end - bin then 0 else (end - bin - start) / bin + 1) == (end - start) / bin
  {
    if start > end - bin {
      DivMod(end - start, 0, end - start, bin);
    } else {
      OneStepLess(start, end, bin);
    }
  }

  lemma AreaOfOne(i: Interval)
    requires i.start <= i.end && i.start % i.bin == 0 && i.end % i.bin == 0
    ensures Total(Expand(i)) == AreaOf(i)
  {
    BinsCount(i);
    TimesIs(Bins(i), i.value);
    TotalOfPoints(Series(i.start, i.end - i.bin, i.bin), i.value);
  }

  lemma {:induction false} AreaOfAll(rows: seq<Interval>, bin: Duration)
    requires Aligned(rows, bin)
    ensures Total(ExpandAll(rows)) == Area(rows)
  {
    if rows != [] {
      var n := |rows| - 1;
      AreaOfAll(rows[..n], bin);
      TotalConcat(ExpandAll(rows[..n]), Expand(rows[n]));
      AreaOfOne(rows[n]);
    }
  }

  lemma ExpandOnGrid(i: Interval, bin: Duration, p: Point)
    requires i.bin == bin && i.start % bin == 0 && p in Expand(i)
    ensures p.x % bin == 0
  {
    var xs := Series(i.start, i.end - i.bin, i.bin);
    TotalOfPoints(xs, i.value);
    SeriesMember(i.start, i.end - i.bin, i.bin, p.x);
    OnGrid(i.start, p.x, bin);
  }

  lemma {:induction false} AllOnGrid(rows: seq<Interval>, bin: Duration, p: Point)
    requires Aligned(rows, bin) && p in ExpandAll(rows)
    ensures p.x % bin == 0
  {
    var n := |rows| - 1;
    if p in Expand(rows[n]) {
      ExpandOnGrid(rows[n], bin, p);
    } else {
      AllOnGrid(rows[..n], bin, p);
    }
  }

  lemma OnGrid(start: int, x: int, bin: Duration)
    requires start % bin == 0
    ensures x % bin == 0 <==> (x - start) % bin == 0
  {
    var k := start / bin;
    assert start == k * bin;
    ShiftedRemainder(x - start, k, bin);
  }

  lemma ShiftedRemainder(d: int, k: int, bin: Duration)
    ensures (d + k * bin) % bin == d % bin
  {
    var q, r := d / bin, d % bin;
    assert d == q * bin + r;
    assert (q + k) * bin == q * bin + k * bin;
    DivMod(d + k * bin, q + k, r, bin);
  }

  lemma {:induction false} AllShown(xs: seq<int>, points: seq<Point>)
    requires forall p <- points :: p.x in xs
    ensures Shown(xs, points) == Total(points)
  {
    if points != [] {
      AllShown(xs, points[..|points| - 1]);
    }
  }

  /** For aligned intervals the chart's total is value times covered bins, summed over all
      intervals. */
  lemma AlignedTotal(rows: seq<Interval>, bin: Duration)
    requires Aligned(rows, bin)
    ensures Total(Query(rows, bin)) == Area(rows)
  {
    var points := ExpandAll(rows);
    TotalIsShown(rows, bin);
    AreaOfAll(rows, bin);
    if points != [] {
      forall p | p in points ensures p.x in Domain(points, bin) {
        BinIsShown(rows, bin, p);
      }
      AllShown(Domain(points, bin), points);
    }
  }

  lemma BinIsShown(rows: seq<Interval>, bin: Duration, p: Point)
    requires Aligned(rows, bin) && p in ExpandAll(rows)
    ensures p.x in Domain(ExpandAll(rows), bin)
  {
    var points := ExpandAll(rows);
    var first := MinX(points);
    var least :| least in points && least.x == first;
    AllOnGrid(rows, bin, least);
    AllOnGrid(rows, bin, p);
    OnGrid(first, p.x, bin);
    SeriesMember(first, MaxX(points), bin, p.x);
  }
}
