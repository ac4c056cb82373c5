/** The two ways the recipe bins residence time, floor arithmetic and range join, and
    the bucket edges it builds from constants, the core count and the hot-start threshold. */
module ResidenceForms {
  import opened Wrappers
  import opened Residence

  // ---- linear binning ----

  /** The start of the `k`th bucket of width `w`. */
  function Start(k: nat, w: real): real {
    k as real * w
  }

  lemma StartOrder(a: nat, b: nat, w: real)
    requires w > 0.0
    ensures Start(a, w) <= Start(b, w) <==> a <= b
    ensures Start(a, w) == Start(b, w) <==> a == b
  {
    if a < b {
      ScaleStrict(a as real, b as real, w);
    } else if b < a {
      ScaleStrict(b as real, a as real, w);
    }
  }

  lemma StartNext(k: nat, w: real)
    ensures Start(0, w) == 0.0 && Start(k + 1, w) == Start(k, w) + w
  {
  }

  /** `floor(greatest(value, 0) / w)`. */
  function FloorIndex(v: real, w: real): (j: nat)
    requires w > 0.0
    ensures Start(j, w) <= (if v < 0.0 then 0.0 else v) < Start(j + 1, w)
  {
    var x := if v < 0.0 then 0.0 else v;
    FloorDivides(x, w);
    (x / w).Floor
  }

  lemma FloorDivides(x: real, w: real)
    requires x >= 0.0 && w > 0.0
    ensures (x / w).Floor >= 0
    ensures Start((x / w).Floor, w) <= x < Start((x / w).Floor + 1, w)
  {
    var q := x / w;
    assert q * w == x;
    assert q >= 0.0;
    QuotientBounds(x, w, q, q.Floor);
  }

  lemma QuotientBounds(x: real, w: real, q: real, n: nat)
    requires w > 0.0 && q * w == x && n as real <= q < n as real + 1.0
    ensures Start(n, w) <= x < Start(n + 1, w)
  {
    var above := n as real + 1.0;
    Scale(n as real, q, w);
    ScaleStrict(q, above, w);
    assert x < above * w;
    assert above * w == n as real * w + w;
    assert x < n as real * w + w;
    StartNext(n, w);
  }

  lemma Scale(a: real, b: real, w: real)
    requires a <= b && w >= 0.0
    ensures a * w <= b * w && w * a <= w * b
  {
  }

  lemma ScaleStrict(a: real, b: real, w: real)
    requires a < b && w > 0.0
    ensures a * w < b * w && w * a < w * b
  {
  }

  /** The bucket a sample is grouped under: the floored value, clamped to `bound`. */
  function LinearKey(v: real, w: real, bound: real): real
    requires w > 0.0
  {
    var start := Start(FloorIndex(v, w), w);
    if start <= bound then start else bound
  }

  /** The time the first `n` rows are grouped under the key `start`. */
  function GroupedTime(s: seq<Sample>, w: real, bound: real, start: real, n: nat): real
    requires w > 0.0 && n <= |s|
  {
    if n == 0 then 0.0
    else GroupedTime(s, w, bound, start, n - 1)
         + if LinearKey(s[n - 1].value, w, bound) == start then Counted(s, n - 1) else 0.0
  }

  /** The rows of the linear histogram whose domain is `0, w, ..., last * w`. */
  function LinearHistogram(s: seq<Sample>, w: real, bound: real, last: nat): (rows: seq<real>)
    requires w > 0.0
    ensures |rows| == last + 1
    ensures forall k: nat :: k <= last ==> rows[k] == GroupedTime(s, w, bound, Start(k, w), |s|)
  {
    seq(last + 1, k requires 0 <= k => GroupedTime(s, w, bound, Start(k, w), |s|))
  }

  /** The same bucket starts as explicit edges; `lower` is the first of them or open. */
  function LinearEdges(w: real, last: nat, lower: Option<real>): (edges: seq<Option<real>>)
    ensures |edges| == last + 1 && edges[0] == lower
    ensures forall k: nat :: 1 <= k <= last ==> edges[k] == Some(Start(k, w))
  {
    seq(last + 1, k requires 0 <= k => if k == 0 then lower else Some(Start(k, w)))
  }

  lemma LinearEdgesProper(w: real, last: nat, lower: Option<real>)
    requires w > 0.0 && (lower.Some? ==> lower.value == 0.0)
    ensures ProperEdges(LinearEdges(w, last, lower))
  {
    var edges := LinearEdges(w, last, lower);
    forall i: nat, j: nat | i < j < |edges| && edges[i].Some? && edges[j].Some?
      ensures edges[i].value < edges[j].value
    {
      StartOrder(j, i, w);
      StartNext(i, w);
    }
  }

  function Min(a: nat, b: nat): nat {
    if a <= b then a else b
  }

  lemma KeyIndex(v: real, w: real, last: nat)
    requires w > 0.0
    ensures LinearKey(v, w, Start(last, w)) == Start(Min(FloorIndex(v, w), last), w)
  {
    StartOrder(FloorIndex(v, w), last, w);
  }

  /** The floored index says which bucket starts a non-negative value has passed. */
  lemma PassesStart(v: real, w: real, k: nat)
    requires w > 0.0
    ensures (if v < 0.0 then 0.0 else v) >= Start(k, w) <==> FloorIndex(v, w) >= k
  {
    var j := FloorIndex(v, w);
    StartOrder(k, j, w);
    StartOrder(j + 1, k, w);
  }

  lemma BucketIndex(v: real, w: real, last: nat, k: nat)
    requires w > 0.0 && k <= last
    ensures InBucket(v, BucketAt(LinearEdges(w, last, None), k)) <==> Min(FloorIndex(v, w), last) == k
  {
    PassesStart(v, w, k);
    PassesStart(v, w, k + 1);
    StartOrder(1, k, w);
    StartOrder(1, k + 1, w);
    StartNext(0, w);
    var b := BucketAt(LinearEdges(w, last, None), k);
    assert b.start == if k == 0 then None else Some(Start(k, w));
    assert b.end == if k < last then Some(Start(k + 1, w)) else None;
  }

  /** Key `k * w` collects exactly the values of the half-open bucket `k`. */
  lemma KeyMeansBucket(v: real, w: real, last: nat, k: nat)
    requires w > 0.0 && k <= last
    ensures LinearKey(v, w, Start(last, w)) == Start(k, w) <==>
              InBucket(v, BucketAt(LinearEdges(w, last, None), k))
  {
    KeyIndex(v, w, last);
    BucketIndex(v, w, last, k);
    StartOrder(Min(FloorIndex(v, w), last), k, w);
  }

  lemma {:induction false} GroupedIsJoined(s: seq<Sample>, w: real, last: nat, k: nat, n: nat)
    requires w > 0.0 && k <= last && n <= |s|
    ensures GroupedTime(s, w, Start(last, w), Start(k, w), n) ==
              JoinedTime(s, BucketAt(LinearEdges(w, last, None), k), n)
  {
    if n > 0 {
      GroupedIsJoined(s, w, last, k, n - 1);
      KeyMeansBucket(s[n - 1].value, w, last, k);
    }
  }

  /** Floor-and-clamp binning up to a multiple of the width is the range join on the same
      edges with an open first bucket, for all samples. */
  lemma LinearIsEdgeForm(s: seq<Sample>, w: real, last: nat)
    requires w > 0.0
    ensures LinearHistogram(s, w, Start(last, w), last) == EdgeHistogram(s, LinearEdges(w, last, None))
  {
    var fast, simple := LinearHistogram(s, w, Start(last, w), last), EdgeHistogram(s, LinearEdges(w, last, None));
    forall k: nat | k <= last
      ensures fast[k] == simple[k]
    {
      GroupedIsJoined(s, w, last, k, |s|);
    }
  }

  lemma {:induction false} NonNegativeJoin(s: seq<Sample>, w: real, last: nat, k: nat, n: nat)
    requires w > 0.0 && k <= last && n <= |s|
    requires forall i :: 0 <= i < |s| ==> s[i].value >= 0.0
    ensures JoinedTime(s, BucketAt(LinearEdges(w, last, None), k), n) ==
              JoinedTime(s, BucketAt(LinearEdges(w, last, Some(0.0)), k), n)
  {
    if n > 0 {
      NonNegativeJoin(s, w, last, k, n - 1);
    }
  }

  /** For non-negative values the edges may start at zero. */
  lemma LinearIsZeroEdgeForm(s: seq<Sample>, w: real, last: nat)
    requires w > 0.0 && forall i :: 0 <= i < |s| ==> s[i].value >= 0.0
    ensures LinearHistogram(s, w, Start(last, w), last) == EdgeHistogram(s, LinearEdges(w, last, Some(0.0)))
  {
    LinearIsEdgeForm(s, w, last);
    var open, zero := EdgeHistogram(s, LinearEdges(w, last, None)), EdgeHistogram(s, LinearEdges(w, last, Some(0.0)));
    forall k: nat | k <= last
      ensures open[k] == zero[k]
    {
      NonNegativeJoin(s, w, last, k, |s|);
    }
  }

  /** The linear histogram keeps the time of every sample, negative values included. */
  lemma LinearConservesTime(s: seq<Sample>, w: real, last: nat)
    requires w > 0.0
    ensures Sum(LinearHistogram(s, w, Start(last, w), last)) == TimeFrom(s, None, |s|)
  {
    LinearIsEdgeForm(s, w, last);
    LinearEdgesProper(w, last, None);
    EdgesConserveTime(s, LinearEdges(w, last, None));
  }

  /** The clamp has to be a bucket start: with any bound strictly between the last bucket
      start and the next one, two rows above the bound lose all their time. */
  lemma UnalignedBoundLosesTime(w: real, last: nat, bound: real, gap: real)
    requires w > 0.0 && gap > 0.0 && Start(last, w) < bound < Start(last + 1, w)
    ensures var s := [Sample(0.0, bound + w), Sample(gap, bound + w)];
            && TimeFrom(s, None, 2) == gap + gap
            && forall k: nat :: k <= last ==> LinearHistogram(s, w, bound, last)[k] == 0.0
  {
    var v := bound + w;
    var s := [Sample(0.0, v), Sample(gap, v)];
    StartNext(last, w);
    StartOrder(0, last, w);
    PassesStart(v, w, last + 1);
    StartOrder(last + 1, FloorIndex(v, w), w);
    assert LinearKey(v, w, bound) == bound;
    forall k: nat | k <= last
      ensures LinearHistogram(s, w, bound, last)[k] == 0.0
    {
      StartOrder(k, last, w);
      NoTimeUnder(s, w, bound, Start(k, w), 2);
    }
    assert TimeFrom(s, None, 1) == gap;
  }

  /** A clamp between two bucket starts keeps all time of all samples exactly if it is
      itself a bucket start. */
  lemma LinearConservesExactlyOnGrid(w: real, last: nat, bound: real)
    requires w > 0.0 && Start(last, w) <= bound < Start(last + 1, w)
    ensures bound == Start(last, w) <==>
              forall s: seq<Sample> :: Sum(LinearHistogram(s, w, bound, last)) == TimeFrom(s, None, |s|)
  {
    if bound == Start(last, w) {
      forall s: seq<Sample>
        ensures Sum(LinearHistogram(s, w, bound, last)) == TimeFrom(s, None, |s|)
      {
        LinearConservesTime(s, w, last);
      }
    } else {
      UnalignedBoundLosesTime(w, last, bound, 1.0);
      var s := [Sample(0.0, bound + w), Sample(1.0, bound + w)];
      SumOfZeros(LinearHistogram(s, w, bound, last));
      assert Sum(LinearHistogram(s, w, bound, last)) != TimeFrom(s, None, |s|);
    }
  }

  lemma {:induction false} SumOfZeros(xs: seq<real>)
    requires forall k :: 0 <= k < |xs| ==> xs[k] == 0.0
    ensures Sum(xs) == 0.0
  {
    if xs != [] {
      SumOfZeros(xs[..|xs| - 1]);
    }
  }

  lemma {:induction false} NoTimeUnder(s: seq<Sample>, w: real, bound: real, start: real, n: nat)
    requires w > 0.0 && n <= |s|
    requires forall i :: 0 <= i < n ==> LinearKey(s[i].value, w, bound) != start
    ensures GroupedTime(s, w, bound, start, n) == 0.0
  {
    if n > 0 {
      NoTimeUnder(s, w, bound, start, n - 1);
    }
  }

  // ---- edges built from constants and the core count ----

  ghost predicate StepsUp(xs: seq<real>) {
    forall i :: 0 <= i < |xs| - 1 ==> xs[i] < xs[i + 1]
  }

  lemma {:induction false} StepsUpIncreases(xs: seq<real>, i: nat, j: nat)
    requires StepsUp(xs) && i < j < |xs|
    ensures xs[i] < xs[j]
  {
    if i + 1 < j {
      StepsUpIncreases(xs, i, j - 1);
    }
    assert xs[j - 1] < xs[j - 1 + 1];
  }

  /** `makeCpuRelativeBucketEdgesCteSql`. */
  function CpuRelativeEdges(multipliers: seq<real>, cores: nat): (edges: seq<Option<real>>)
    ensures |edges| == |multipliers|
  {
    seq(|multipliers|, k requires 0 <= k < |multipliers| => Some(cores as real * multipliers[k]))
  }

  function Ceil(x: real): int {
    -((-x).Floor)
  }

  function ScaledStarts(multipliers: seq<Option<real>>, hotStart: real): (starts: seq<Option<real>>)
    ensures |starts| == |multipliers|
  {
    seq(|multipliers|, k requires 0 <= k < |multipliers| =>
      if multipliers[k].None? then None else Some(hotStart * multipliers[k].value))
  }

  function RoundedUp(starts: seq<Option<real>>): (edges: seq<Option<real>>)
    ensures |edges| == |starts|
  {
    seq(|starts|, k requires 0 <= k < |starts| =>
      if starts[k].None? then None else Some(Ceil(starts[k].value) as real))
  }

  /** `makeHotStartRelativeBucketEdgesCteSql`: rounded up so that labels are whole; a missing
      multiplier leaves its edge open. */
  function HotStartEdges(multipliers: seq<Option<real>>, hotStart: real): (edges: seq<Option<real>>)
    ensures |edges| == |multipliers|
  {
    RoundedUp(ScaledStarts(multipliers, hotStart))
  }

  /** A list of multipliers that starts with `first`, which may be missing. */
  function From(first: Option<real>, xs: seq<real>): (starts: seq<Option<real>>)
    requires xs != []
    ensures |starts| == |xs|
  {
    seq(|xs|, k requires 0 <= k < |xs| => if k == 0 then first else Some(xs[k]))
  }

  function Larger(x: real, y: real): real {
    if x >= y then x else y
  }

  /** `makeTotalCountHotStartSql`. */
  datatype HotStart = HotStart(baseCount: real, floorMin: real, floorMax: real, perCoreMin: real, perCoreMax: real) {
    function ScaledFloor(scale: real): real {
      floorMin + (floorMax - floorMin) * scale
    }

    function PerCore(scale: real): real {
      perCoreMin + (perCoreMax - perCoreMin) * scale
    }

    function Allowance(scale: real, cores: nat): real {
      baseCount + PerCore(scale) * cores as real
    }

    function Threshold(scale: real, cores: nat): real {
      Larger(ScaledFloor(scale), Allowance(scale, cores))
    }
  }

  const TotalProcesses: HotStart := HotStart(80.0, 120.0, 500.0, 6.0, 20.0)
  const TotalThreads: HotStart := HotStart(300.0, 600.0, 2000.0, 60.0, 60.0)
  const TotalCountMultipliers: seq<real> := [0.0, 0.125, 0.25, 0.375, 0.5, 0.75, 1.0, 1.5, 2.0, 3.0]
  const RelativeLoadMultipliers: seq<real> := [0.0, 0.25, 0.5, 0.55, 0.6, 0.65, 0.7, 1.0, 1.25, 1.5]
  const RunningProcessMultipliers: seq<real> := [0.0, 0.25, 0.5, 0.75, 1.0, 1.25, 1.5, 2.0, 2.5, 3.0]

  /** Every edge but the first is a number, and each number is below the next. */
  ghost predicate AdjacentUp(starts: seq<Option<real>>) {
    && starts != []
    && (forall i :: 1 <= i < |starts| ==> starts[i].Some?)
    && (forall i, j :: 0 <= i < j < |starts| && j == i + 1 && starts[i].Some? && starts[j].Some? ==>
          starts[i].value < starts[j].value)
  }

  lemma {:induction false} AdjacentIncreases(starts: seq<Option<real>>, i: nat, j: nat)
    requires AdjacentUp(starts) && i < j < |starts| && starts[i].Some?
    ensures starts[j].Some? && starts[i].value < starts[j].value
  {
    if i + 1 < j {
      AdjacentIncreases(starts, i, j - 1);
    }
    assert starts[j - 1].Some? && starts[j - 1].value < starts[j].value;
  }

  /** The starts of `makeStaticBucketEdgesCteSql` are the edges as they stand. They are proper
      exactly if each steps up from the one before it; the first may be missing. */
  lemma StaticEdgesProper(starts: seq<Option<real>>)
    ensures ProperEdges(starts) <==> AdjacentUp(starts)
  {
    if AdjacentUp(starts) {
      forall i: nat, j: nat | i < j < |starts| && starts[i].Some? ensures starts[i].value < starts[j].value {
        AdjacentIncreases(starts, i, j);
      }
    }
  }

  lemma CpuRelativeEdgesProper(multipliers: seq<real>, cores: nat)
    requires multipliers != [] && StepsUp(multipliers) && cores >= 1
    ensures ProperEdges(CpuRelativeEdges(multipliers, cores))
  {
    var edges := CpuRelativeEdges(multipliers, cores);
    forall i: nat, j: nat | i < j < |edges|
      ensures edges[i].value < edges[j].value
    {
      StepsUpIncreases(multipliers, i, j);
      ScaleStrict(multipliers[i], multipliers[j], cores as real);
    }
  }

  /** Rounding up keeps two numbers apart that differ by at least one. */
  lemma CeilSeparates(x: real, y: real)
    requires x + 1.0 <= y
    ensures Ceil(x) < Ceil(y)
  {
  }

  lemma TotalCountGap(i: nat, j: nat)
    requires i < j < |TotalCountMultipliers|
    ensures TotalCountMultipliers[i] + 0.125 <= TotalCountMultipliers[j]
  {
    var m := TotalCountMultipliers;
    assert StepsUp(m);
    assert m[i] + 0.125 <= m[i + 1];
    if i + 1 < j {
      StepsUpIncreases(m, i + 1, j);
    }
  }

  /** A threshold of at least eight keeps the rounded edges strictly increasing. */
  lemma HotStartEdgesProper(hotStart: real, first: Option<real>)
    requires hotStart >= 8.0 && (first == None || first == Some(0.0))
    ensures ProperEdges(HotStartEdges(From(first, TotalCountMultipliers), hotStart))
  {
    var starts := From(first, TotalCountMultipliers);
    forall i: nat, j: nat | i < j < |starts| && starts[i].Some?
      ensures starts[i].value + 0.125 <= starts[j].value
    {
      TotalCountGap(i, j);
    }
    WideStartsProper(starts, hotStart);
  }

  /** Multipliers at least an eighth apart. */
  lemma WideStartsProper(starts: seq<Option<real>>, hotStart: real)
    requires starts != [] && hotStart >= 8.0
    requires forall i :: 1 <= i < |starts| ==> starts[i].Some?
    requires forall i: nat, j: nat :: i < j < |starts| && starts[i].Some? ==>
               starts[i].value + 0.125 <= starts[j].value
    ensures ProperEdges(HotStartEdges(starts, hotStart))
  {
    var scaled := ScaledStarts(starts, hotStart);
    forall i: nat, j: nat | i < j < |scaled| && scaled[i].Some?
      ensures scaled[i].value + 1.0 <= scaled[j].value
    {
      ProductGap(hotStart, starts[i].value, starts[j].value);
    }
    RoundedProper(scaled);
  }

  lemma ProductGap(hotStart: real, a: real, b: real)
    requires hotStart >= 8.0 && a + 0.125 <= b
    ensures hotStart * a + 1.0 <= hotStart * b
  {
    var d := b - a;
    Scale(0.125, d, hotStart);
    assert hotStart * 0.125 >= 1.0;
    assert hotStart * d == hotStart * b - hotStart * a;
  }

  /** Starts at least one apart are still apart when rounded up. */
  lemma RoundedProper(starts: seq<Option<real>>)
    requires starts != []
    requires forall i :: 1 <= i < |starts| ==> starts[i].Some?
    requires forall i: nat, j: nat :: i < j < |starts| && starts[i].Some? ==>
               starts[i].value + 1.0 <= starts[j].value
    ensures ProperEdges(RoundedUp(starts))
  {
    var edges := RoundedUp(starts);
    forall i: nat, j: nat | i < j < |edges| && edges[i].Some?
      ensures edges[i].value < edges[j].value
    {
      CeilSeparates(starts[i].value, starts[j].value);
    }
  }

  /** For every core count and every scale the threshold is at least the scaled floor, and
      a larger machine never has a lower one. */
  lemma ThresholdGrows(h: HotStart, scale: real, cores: nat, scale': real, cores': nat)
    requires 0.0 <= scale <= scale' <= 1.0 && 1 <= cores <= cores'
    requires h.floorMin <= h.floorMax && 0.0 <= h.perCoreMin <= h.perCoreMax
    ensures h.floorMin <= h.Threshold(scale, cores) <= h.Threshold(scale', cores')
  {
    FloorGrows(h, scale, scale');
    AllowanceGrows(h, scale, cores, scale', cores');
    LargerGrows(h.ScaledFloor(scale), h.Allowance(scale, cores), h.ScaledFloor(scale'), h.Allowance(scale', cores'));
  }

  lemma LargerGrows(x: real, y: real, x': real, y': real)
    requires x <= x' && y <= y'
    ensures x <= Larger(x, y) <= Larger(x', y')
  {
  }

  lemma AllowanceGrows(h: HotStart, scale: real, cores: nat, scale': real, cores': nat)
    requires 0.0 <= scale <= scale' && cores <= cores' && 0.0 <= h.perCoreMin <= h.perCoreMax
    ensures h.Allowance(scale, cores) <= h.Allowance(scale', cores')
  {
    PerCoreGrows(h, scale, scale');
    ProductGrows(h.PerCore(scale), h.PerCore(scale'), cores as real, cores' as real);
  }

  lemma ProductGrows(p: real, p': real, c: real, c': real)
    requires 0.0 <= p <= p' && 0.0 <= c <= c'
    ensures p * c <= p' * c'
  {
    Scale(p, p', c);
    Scale(c, c', p');
  }

  lemma FloorGrows(h: HotStart, scale: real, scale': real)
    requires 0.0 <= scale <= scale' && h.floorMin <= h.floorMax
    ensures h.floorMin <= h.ScaledFloor(scale) <= h.ScaledFloor(scale')
  {
    Scale(scale, scale', h.floorMax - h.floorMin);
    Scale(0.0, scale, h.floorMax - h.floorMin);
  }

  lemma PerCoreGrows(h: HotStart, scale: real, scale': real)
    requires 0.0 <= scale <= scale' && 0.0 <= h.perCoreMin <= h.perCoreMax
    ensures 0.0 <= h.PerCore(scale) <= h.PerCore(scale')
  {
    Scale(scale, scale', h.perCoreMax - h.perCoreMin);
    Scale(0.0, scale, h.perCoreMax - h.perCoreMin);
  }

  /** Total-count histograms conserve time on every machine: their edges increase strictly,
      whatever the core count, so each sample is counted in exactly one bucket. The same holds
      if the first bucket is left open below. */
  lemma TotalCountHistogramsConserve(s: seq<Sample>, h: HotStart, scale: real, cores: nat, first: Option<real>)
    requires 0.0 <= scale <= 1.0 && cores >= 1
    requires h == TotalProcesses || h == TotalThreads
    requires first == None || first == Some(0.0)
    ensures var edges := HotStartEdges(From(first, TotalCountMultipliers), h.Threshold(scale, cores));
            ProperEdges(edges) && Sum(EdgeHistogram(s, edges)) == TimeFrom(s, first, |s|)
  {
    var hotStart := h.Threshold(scale, cores);
    assert hotStart >= 8.0 by { ThresholdGrows(h, scale, cores, scale, cores); }
    HotStartEdgesProper(hotStart, first);
    EdgesConserveTime(s, HotStartEdges(From(first, TotalCountMultipliers), hotStart));
    FirstHotStartEdge(hotStart, first);
  }

  lemma FirstHotStartEdge(hotStart: real, first: Option<real>)
    requires first == None || first == Some(0.0)
    ensures HotStartEdges(From(first, TotalCountMultipliers), hotStart)[0] == first
  {
    assert hotStart * 0.0 == 0.0;
  }

  lemma MultipliersStepUp()
    ensures StepsUp(RelativeLoadMultipliers) && StepsUp(RunningProcessMultipliers)
  {
  }

  /** The same for load and run-queue histograms, whose edges scale with the core count. */
  lemma CpuRelativeHistogramsConserve(s: seq<Sample>, m: seq<real>, cores: nat)
    requires cores >= 1
    requires m == RelativeLoadMultipliers || m == RunningProcessMultipliers
    ensures ProperEdges(CpuRelativeEdges(m, cores))
    ensures Sum(EdgeHistogram(s, CpuRelativeEdges(m, cores))) == TimeFrom(s, Some(0.0), |s|)
  {
    MultipliersStepUp();
    CpuRelativeEdgesProper(m, cores);
    EdgesConserveTime(s, CpuRelativeEdges(m, cores));
    assert cores as real * 0.0 == 0.0;
  }

  // ---- what the edges mean ----

  lemma CeilBounds(x: real, up: int)
    requires up == Ceil(x)
    ensures x <= up as real < x + 1.0
  {
  }

  lemma OrderKept(m: int, n: int)
    ensures m <= n <==> m as real <= n as real
  {
  }

  lemma CeilAtMost(x: real, n: int)
    ensures Ceil(x) as real <= n as real <==> x <= n as real
  {
    var up := Ceil(x);
    CeilBounds(x, up);
    OrderKept(up, n);
    OrderKept(n, up - 1);
  }

  /** Rounding the edges up moves no whole count: a count is in a bucket exactly if it lies
      between the bucket's multiples of the threshold. */
  lemma WholeCountsStay(multipliers: seq<Option<real>>, hotStart: real, k: nat, n: int)
    requires k < |multipliers|
    ensures InBucket(n as real, BucketAt(HotStartEdges(multipliers, hotStart), k)) <==>
              && (multipliers[k].Some? ==> hotStart * multipliers[k].value <= n as real)
              && (k + 1 < |multipliers| && multipliers[k + 1].Some? ==> n as real < hotStart * multipliers[k + 1].value)
  {
    var starts := ScaledStarts(multipliers, hotStart);
    if starts[k].Some? {
      CeilAtMost(starts[k].value, n);
    }
    if k + 1 < |starts| && starts[k + 1].Some? {
      CeilAtMost(starts[k + 1].value, n);
    }
  }

  lemma PerCoreAtMost(m: real, v: real, cores: real)
    requires cores > 0.0
    ensures cores * m <= v <==> m <= v / cores
  {
    var q := v / cores;
    assert v == q * cores;
    if m <= q {
      Scale(m, q, cores);
    } else {
      ScaleStrict(q, m, cores);
    }
  }

  /** A load is in a CPU-relative bucket exactly if the load per core lies between the bucket's
      multipliers. */
  lemma CpuRelativeMeans(multipliers: seq<real>, cores: nat, k: nat, v: real)
    requires k < |multipliers| && cores >= 1
    ensures InBucket(v, BucketAt(CpuRelativeEdges(multipliers, cores), k)) <==>
              multipliers[k] <= v / cores as real && (k + 1 < |multipliers| ==> v / cores as real < multipliers[k + 1])
  {
    PerCoreAtMost(multipliers[k], v, cores as real);
    if k + 1 < |multipliers| {
      PerCoreAtMost(multipliers[k + 1], v, cores as real);
    }
  }

  /** A count reaches the threshold exactly if it reaches both the floor and the allowance, each
      of which goes from its minimum to its maximum as the scale goes from zero to one. */
  lemma ThresholdReached(h: HotStart, scale: real, cores: nat, count: real)
    ensures h.Threshold(scale, cores) <= count <==>
              h.ScaledFloor(scale) <= count && h.Allowance(scale, cores) <= count
    ensures h.ScaledFloor(0.0) == h.floorMin && h.ScaledFloor(1.0) == h.floorMax
    ensures h.Allowance(0.0, cores) == h.baseCount + h.perCoreMin * cores as real
    ensures h.Allowance(1.0, cores) == h.baseCount + h.perCoreMax * cores as real
  {
    ThresholdEnds(h);
  }

  lemma ThresholdEnds(h: HotStart)
    ensures h.ScaledFloor(0.0) == h.floorMin && h.ScaledFloor(1.0) == h.floorMax
    ensures h.PerCore(0.0) == h.perCoreMin && h.PerCore(1.0) == h.perCoreMax
  {
  }
}
