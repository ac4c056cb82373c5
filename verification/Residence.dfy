/** Residence-time histograms of the system utilization recipe: point samples become
    durations, and durations are summed per value bucket. The queries are given by their
    relational meaning over the filtered rows in time order; doubles are reals. */
module Residence {
  import opened Wrappers

  /** A row of `filtered_samples`. */
  datatype Sample = Sample(uptime: real, value: real)

  /** A row of `bucket_edges`: a missing bound is open. */
  datatype Bucket = Bucket(start: Option<real>, end: Option<real>)

  /** A result of the `ORDER BY uptime_s` window, with ties in any order. */
  ghost predicate TimeOrdered(s: seq<Sample>) {
    forall i, j :: 0 <= i < j < |s| ==> s[i].uptime <= s[j].uptime
  }

  /** `sample_duration_s`: up to the next row, or from the previous one for the last. */
  function Duration(s: seq<Sample>, i: nat): real
    requires i < |s|
  {
    if i + 1 < |s| then s[i + 1].uptime - s[i].uptime
    else if i > 0 then s[i].uptime - s[i - 1].uptime
    else 0.0
  }

  /** The duration that `sum` counts. */
  function Counted(s: seq<Sample>, i: nat): real
    requires i < |s|
  {
    var d := Duration(s, i);
    if d < 0.0 then 0.0 else d
  }

  predicate InBucket(v: real, b: Bucket) {
    (b.start.None? || v >= b.start.value) && (b.end.None? || v < b.end.value)
  }

  /** The range join: the time the first `n` rows spend in a bucket. */
  function JoinedTime(s: seq<Sample>, b: Bucket, n: nat): real
    requires n <= |s|
  {
    if n == 0 then 0.0
    else JoinedTime(s, b, n - 1) + if InBucket(s[n - 1].value, b) then Counted(s, n - 1) else 0.0
  }

  /** The time the first `n` rows spend at or above a lower edge, everything if open. */
  function TimeFrom(s: seq<Sample>, edge: Option<real>, n: nat): real
    requires n <= |s|
  {
    if n == 0 then 0.0
    else TimeFrom(s, edge, n - 1)
         + if edge.None? || s[n - 1].value >= edge.value then Counted(s, n - 1) else 0.0
  }

  /** Adjacent edges become half-open buckets, the last one open above. */
  function BucketAt(edges: seq<Option<real>>, k: nat): Bucket
    requires k < |edges|
  {
    Bucket(edges[k], if k + 1 < |edges| then edges[k + 1] else None)
  }

  /** `bucket_value` of every row of the explicit-edge histogram. */
  function EdgeHistogram(s: seq<Sample>, edges: seq<Option<real>>): (rows: seq<real>)
    ensures |rows| == |edges|
  {
    seq(|edges|, k requires 0 <= k < |edges| => JoinedTime(s, BucketAt(edges, k), |s|))
  }

  /** Only the first edge may be open, and the edges increase strictly. */
  ghost predicate ProperEdges(edges: seq<Option<real>>) {
    && |edges| > 0
    && (forall i :: 1 <= i < |edges| ==> edges[i].Some?)
    && (forall i, j :: 0 <= i < j < |edges| && edges[i].Some? && edges[j].Some? ==>
          edges[i].value < edges[j].value)
  }

  function Sum(xs: seq<real>): real {
    if xs == [] then 0.0 else Sum(xs[..|xs| - 1]) + xs[|xs| - 1]
  }

  // ---- the total ----

  /** From the first row to the last, plus the last gap once more. */
  function SpanTwiceLast(s: seq<Sample>): real {
    var n := |s|;
    if n < 2 then 0.0
    else (s[n - 1].uptime - s[0].uptime) + (s[n - 1].uptime - s[n - 2].uptime)
  }

  /** The last row counts its predecessor's gap a second time. */
  lemma {:induction false} TotalTime(s: seq<Sample>, n: nat)
    requires TimeOrdered(s) && n <= |s|
    ensures 0 < n < |s| ==> TimeFrom(s, None, n) == s[n].uptime - s[0].uptime
    ensures n == |s| ==> TimeFrom(s, None, n) == SpanTwiceLast(s)
  {
    if n > 0 {
      TotalTime(s, n - 1);
      assert Counted(s, n - 1) == Duration(s, n - 1);
    }
  }

  // ---- exactly one bucket ----

  /** A value at or above the first edge lies in exactly one bucket, any other in none. */
  lemma ExactlyOneBucket(edges: seq<Option<real>>, v: real)
    requires ProperEdges(edges)
    ensures (edges[0].None? || v >= edges[0].value) <==>
              exists k :: 0 <= k < |edges| && InBucket(v, BucketAt(edges, k))
    ensures forall j, k :: 0 <= j < k < |edges| && InBucket(v, BucketAt(edges, j)) ==>
              !InBucket(v, BucketAt(edges, k))
  {
    if edges[0].None? || v >= edges[0].value {
      var k := LastEdgeBelow(edges, v, |edges|);
      assert InBucket(v, BucketAt(edges, k));
    }
    forall j, k | 0 <= j < k < |edges| && InBucket(v, BucketAt(edges, j))
      ensures !InBucket(v, BucketAt(edges, k))
    {
      assert v < edges[j + 1].value;
      assert j + 1 < k ==> edges[j + 1].value < edges[k].value;
    }
  }

  /** The index of the last of the first `n` edges that does not exceed `v`. */
  lemma {:induction false} LastEdgeBelow(edges: seq<Option<real>>, v: real, n: nat) returns (k: nat)
    requires ProperEdges(edges) && (edges[0].None? || v >= edges[0].value)
    requires 0 < n <= |edges|
    ensures k < n && (edges[k].None? || v >= edges[k].value)
    ensures k + 1 < n ==> v < edges[k + 1].value
  {
    if edges[n - 1].None? || v >= edges[n - 1].value {
      k := n - 1;
    } else {
      k := LastEdgeBelow(edges, v, n - 1);
    }
  }

  // ---- conservation ----

  /** Splitting off the time below the next edge. */
  lemma {:induction false} SplitAtEdge(s: seq<Sample>, edges: seq<Option<real>>, k: nat, n: nat)
    requires ProperEdges(edges) && k < |edges| && n <= |s|
    ensures TimeFrom(s, edges[k], n) == JoinedTime(s, BucketAt(edges, k), n)
              + if k + 1 < |edges| then TimeFrom(s, edges[k + 1], n) else 0.0
  {
    if n > 0 {
      SplitAtEdge(s, edges, k, n - 1);
      assert k + 1 < |edges| && edges[k].Some? ==> edges[k].value < edges[k + 1].value;
    }
  }

  lemma {:induction false} PrefixConserved(s: seq<Sample>, edges: seq<Option<real>>, k: nat)
    requires ProperEdges(edges) && k <= |edges|
    ensures Sum(EdgeHistogram(s, edges)[..k]) + (if k < |edges| then TimeFrom(s, edges[k], |s|) else 0.0)
              == TimeFrom(s, edges[0], |s|)
  {
    var rows := EdgeHistogram(s, edges);
    if k > 0 {
      PrefixConserved(s, edges, k - 1);
      SplitAtEdge(s, edges, k - 1, |s|);
      assert rows[..k][..k - 1] == rows[..k - 1];
    }
  }

  /** The buckets sum to the time of all samples at or above the first edge; with an open
      first bucket that is the time of all samples. */
  lemma EdgesConserveTime(s: seq<Sample>, edges: seq<Option<real>>)
    requires ProperEdges(edges)
    ensures Sum(EdgeHistogram(s, edges)) == TimeFrom(s, edges[0], |s|)
  {
    PrefixConserved(s, edges, |edges|);
    assert EdgeHistogram(s, edges)[..|edges|] == EdgeHistogram(s, edges);
  }

  // ---- ties ----

  /** `b` lists rows of `a`, row `i` of `b` being row `p[i]` of `a`, none twice. */
  ghost predicate Reorders(a: seq<Sample>, b: seq<Sample>, p: seq<nat>) {
    && |a| == |b| == |p|
    && (forall i :: 0 <= i < |p| ==> p[i] < |a| && b[i] == a[p[i]])
    && (forall i, j :: 0 <= i < j < |p| ==> p[i] != p[j])
  }

  /** A rearrangement of the rows. */
  ghost predicate Rearranges(a: seq<Sample>, b: seq<Sample>) {
    exists p: seq<nat> :: Reorders(a, b, p)
  }

  /** More than `k` different numbers cannot all be below `k`. */
  lemma {:induction false} Pigeonhole(p: seq<nat>, k: nat) returns (i: nat)
    requires |p| > k
    requires forall i, j :: 0 <= i < j < |p| ==> p[i] != p[j]
    ensures i < |p| && p[i] >= k
    decreases k
  {
    i := 0;
    if k > 0 && p[0] < k {
      if j: nat :| j < |p| && p[j] == k - 1 {
        var q := p[..j] + p[j + 1..];
        i := Pigeonhole(q, k - 1);
        i := if i < j then i else i + 1;
      } else {
        i := Pigeonhole(p, k - 1);
      }
    }
  }

  /** Row `i` of a rearrangement is no earlier than row `i`. */
  lemma ReorderedNotEarlier(a: seq<Sample>, b: seq<Sample>, p: seq<nat>, i: nat)
    requires Reorders(a, b, p) && TimeOrdered(a) && TimeOrdered(b) && i < |a|
    ensures a[i].uptime <= b[i].uptime
  {
    var j := Pigeonhole(p[..i + 1], i);
    assert b[j] == a[p[j]] && b[j].uptime <= b[i].uptime && a[i].uptime <= a[p[j]].uptime;
  }

  /** And no later either. */
  lemma ReorderedNotLater(a: seq<Sample>, b: seq<Sample>, p: seq<nat>, i: nat)
    requires Reorders(a, b, p) && TimeOrdered(a) && TimeOrdered(b) && i < |a|
    ensures b[i].uptime <= a[i].uptime
  {
    var n := |a|;
    var q := seq(n - i, k requires 0 <= k < n - i => (n - 1 - p[i + k]) as nat);
    forall j, k | 0 <= j < k < |q| ensures q[j] != q[k] {
      assert p[i + j] != p[i + k];
    }
    var k := Pigeonhole(q, n - 1 - i);
    var j := i + k;
    assert p[j] <= i;
    assert b[j] == a[p[j]] && b[i].uptime <= b[j].uptime && a[p[j]].uptime <= a[i].uptime;
  }

  /** Tied rows change places, the timestamps do not; so every position keeps its duration. */
  lemma SameDurations(a: seq<Sample>, b: seq<Sample>, p: seq<nat>)
    requires Reorders(a, b, p) && TimeOrdered(a) && TimeOrdered(b)
    ensures forall i :: 0 <= i < |a| ==> a[i].uptime == b[i].uptime && Counted(a, i) == Counted(b, i)
  {
    forall i | 0 <= i < |a| ensures a[i].uptime == b[i].uptime {
      ReorderedNotEarlier(a, b, p, i);
      ReorderedNotLater(a, b, p, i);
    }
  }

  /** However the engine orders rows with equal timestamps, the total is the same. */
  lemma TotalIgnoresTieOrder(a: seq<Sample>, b: seq<Sample>)
    requires Rearranges(a, b) && TimeOrdered(a) && TimeOrdered(b)
    ensures TimeFrom(a, None, |a|) == TimeFrom(b, None, |b|)
  {
    var p: seq<nat> :| Reorders(a, b, p);
    SameDurations(a, b, p);
    SameTimes(a, b, |a|);
  }

  lemma {:induction false} SameTimes(a: seq<Sample>, b: seq<Sample>, n: nat)
    requires |a| == |b| && n <= |a|
    requires forall i :: 0 <= i < |a| ==> Counted(a, i) == Counted(b, i)
    ensures TimeFrom(a, None, n) == TimeFrom(b, None, n)
  {
    if n > 0 {
      SameTimes(a, b, n - 1);
    }
  }

  /** Two values lie in the same bucket, or both in none. */
  ghost predicate SameBucket(edges: seq<Option<real>>, v: real, w: real) {
    forall k :: 0 <= k < |edges| ==> (InBucket(v, BucketAt(edges, k)) <==> InBucket(w, BucketAt(edges, k)))
  }

  /** Rows that share a timestamp earlier than the last one share a bucket. */
  ghost predicate TiesShareBuckets(s: seq<Sample>, edges: seq<Option<real>>) {
    forall i, j :: 0 <= i < j < |s| && s[i].uptime == s[j].uptime < s[|s| - 1].uptime ==>
      SameBucket(edges, s[i].value, s[j].value)
  }

  lemma {:induction false} SameJoin(a: seq<Sample>, b: seq<Sample>, bucket: Bucket, n: nat)
    requires |a| == |b| && n <= |a|
    requires forall i :: 0 <= i < |a| ==> Counted(a, i) == Counted(b, i)
    requires forall i :: 0 <= i < |a| && Counted(a, i) != 0.0 ==>
               (InBucket(a[i].value, bucket) <==> InBucket(b[i].value, bucket))
    ensures JoinedTime(a, bucket, n) == JoinedTime(b, bucket, n)
  {
    if n > 0 {
      SameJoin(a, b, bucket, n - 1);
    }
  }

  /** A row that takes another's place and has time to its name shares the other's bucket. */
  lemma ReplacedInBucket(a: seq<Sample>, b: seq<Sample>, p: seq<nat>, edges: seq<Option<real>>, i: nat)
    requires Reorders(a, b, p) && TimeOrdered(a) && TimeOrdered(b) && TiesShareBuckets(a, edges)
    requires i < |a| && Counted(a, i) != 0.0
    ensures SameBucket(edges, a[i].value, b[i].value)
  {
    SameDurations(a, b, p);
    if p[i] != i {
      TimedTieIsEarlier(a, i, p[i]);
      TieShares(a, edges, i, p[i]);
    }
  }

  lemma TieShares(s: seq<Sample>, edges: seq<Option<real>>, i: nat, j: nat)
    requires TiesShareBuckets(s, edges) && i < |s| && j < |s|
    requires s[i].uptime == s[j].uptime < s[|s| - 1].uptime
    ensures SameBucket(edges, s[i].value, s[j].value)
  {
  }

  /** A tied row with time to its name is earlier than the last timestamp: of a tie at the
      last one, no row has any time. */
  lemma TimedTieIsEarlier(s: seq<Sample>, i: nat, j: nat)
    requires TimeOrdered(s) && i < |s| && j < |s| && i != j
    requires s[i].uptime == s[j].uptime && Counted(s, i) != 0.0
    ensures s[i].uptime < s[|s| - 1].uptime
  {
    var n := |s|;
    assert s[i].uptime <= s[n - 1].uptime;
    if i < n - 1 {
      assert s[i].uptime <= s[i + 1].uptime <= s[n - 1].uptime;
    }
    if j < n - 1 && s[j].uptime == s[n - 1].uptime {
      TieAtEnd(s, j);
    }
  }

  lemma TieAtEnd(s: seq<Sample>, j: nat)
    requires TimeOrdered(s) && j < |s| - 1 && s[j].uptime == s[|s| - 1].uptime
    ensures Counted(s, |s| - 1) == 0.0
  {
    assert s[j].uptime <= s[|s| - 2].uptime <= s[|s| - 1].uptime;
  }

  lemma TiesKeepHistogram(s: seq<Sample>, b: seq<Sample>, edges: seq<Option<real>>)
    requires TimeOrdered(s) && TimeOrdered(b) && Rearranges(s, b) && TiesShareBuckets(s, edges)
    ensures EdgeHistogram(b, edges) == EdgeHistogram(s, edges)
  {
    var p: seq<nat> :| Reorders(s, b, p);
    SameDurations(s, b, p);
    forall k | 0 <= k < |edges| ensures EdgeHistogram(b, edges)[k] == EdgeHistogram(s, edges)[k] {
      var bucket := BucketAt(edges, k);
      forall i | 0 <= i < |s| && Counted(s, i) != 0.0
        ensures InBucket(s[i].value, bucket) <==> InBucket(b[i].value, bucket)
      {
        ReplacedInBucket(s, b, p, edges, i);
      }
      SameJoin(s, b, bucket, |s|);
    }
  }

  /** Two rows of one timestamp change places. */
  function Swapped(s: seq<Sample>, i: nat, j: nat): seq<Sample>
    requires i < j < |s|
  {
    s[i := s[j]][j := s[i]]
  }

  lemma SwapIsOrdered(s: seq<Sample>, i: nat, j: nat)
    requires TimeOrdered(s) && i < j < |s| && s[i].uptime == s[j].uptime
    ensures TimeOrdered(Swapped(s, i, j)) && Rearranges(s, Swapped(s, i, j))
    ensures forall k :: 0 <= k < |s| ==> Counted(Swapped(s, i, j), k) == Counted(s, k)
  {
    SwapRearranges(s, i, j);
    SameTimestamps(s, Swapped(s, i, j));
  }

  lemma SwapRearranges(s: seq<Sample>, i: nat, j: nat)
    requires i < j < |s|
    ensures Rearranges(s, Swapped(s, i, j))
  {
    var p: seq<nat> := seq(|s|, k requires 0 <= k < |s| => if k == i then j else if k == j then i else k);
    assert Reorders(s, Swapped(s, i, j), p);
  }

  lemma SameTimestamps(s: seq<Sample>, b: seq<Sample>)
    requires TimeOrdered(s) && |s| == |b| && forall k :: 0 <= k < |s| ==> b[k].uptime == s[k].uptime
    ensures TimeOrdered(b) && forall k :: 0 <= k < |s| ==> Counted(b, k) == Counted(s, k)
  {
  }

  /** The time that changes buckets is the time of the later row. */
  lemma {:induction false} SwapMovesTime(s: seq<Sample>, i: nat, j: nat, bucket: Bucket, n: nat)
    requires i < j < |s| && n <= |s| && Counted(s, i) == 0.0
    requires forall k :: 0 <= k < |s| ==> Counted(Swapped(s, i, j), k) == Counted(s, k)
    requires !InBucket(s[i].value, bucket) <==> InBucket(s[j].value, bucket)
    ensures n <= j ==> JoinedTime(Swapped(s, i, j), bucket, n) == JoinedTime(s, bucket, n)
    ensures n > j ==>
              JoinedTime(Swapped(s, i, j), bucket, n) - JoinedTime(s, bucket, n)
              == if InBucket(s[i].value, bucket) then Counted(s, j) else -Counted(s, j)
  {
    if n > 0 {
      SwapMovesTime(s, i, j, bucket, n - 1);
    }
  }

  /** The last row of a timestamp that is not the last one. */
  lemma {:induction false} LastOfTie(s: seq<Sample>, i: nat) returns (e: nat)
    requires TimeOrdered(s) && i < |s| && s[i].uptime < s[|s| - 1].uptime
    ensures i <= e < |s| - 1 && s[e].uptime == s[i].uptime && Counted(s, e) > 0.0
    ensures forall k :: i <= k < e ==> s[k].uptime == s[i].uptime && Counted(s, k) == 0.0
    decreases |s| - i
  {
    if s[i + 1].uptime == s[i].uptime {
      e := LastOfTie(s, i + 1);
    } else {
      assert s[i].uptime <= s[i + 1].uptime;
      e := i;
    }
  }

  /** Tied rows in different buckets: one of them and the last row of their timestamp are
      in different buckets, and exchanging those two moves time. */
  lemma TieMovesTime(s: seq<Sample>, edges: seq<Option<real>>, i: nat, j: nat) returns (b: seq<Sample>)
    requires TimeOrdered(s) && i < j < |s| && s[i].uptime == s[j].uptime < s[|s| - 1].uptime
    requires !SameBucket(edges, s[i].value, s[j].value)
    ensures TimeOrdered(b) && Rearranges(s, b) && EdgeHistogram(b, edges) != EdgeHistogram(s, edges)
  {
    var e := LastOfTie(s, i);
    TieEndsBehind(s, i, j, e);
    var x := if SameBucket(edges, s[i].value, s[e].value) then j else i;
    assert x < e;
    var k :| 0 <= k < |edges|
             && (!InBucket(s[x].value, BucketAt(edges, k)) <==> InBucket(s[e].value, BucketAt(edges, k)));
    b := Swapped(s, x, e);
    SwapIsOrdered(s, x, e);
    SwapMovesTime(s, x, e, BucketAt(edges, k), |s|);
    assert EdgeHistogram(b, edges)[k] != EdgeHistogram(s, edges)[k];
  }

  lemma TieEndsBehind(s: seq<Sample>, i: nat, j: nat, e: nat)
    requires TimeOrdered(s) && i < j < |s| && s[i].uptime == s[j].uptime
    requires i <= e < |s| - 1 && s[e].uptime == s[i].uptime && Counted(s, e) > 0.0
    ensures j <= e
  {
    assert s[e].uptime < s[e + 1].uptime;
    assert forall k :: e < k < |s| ==> s[e + 1].uptime <= s[k].uptime;
  }

  /** The distribution over buckets is independent of how the engine orders rows with equal
      timestamps if and only if any two rows that share a timestamp earlier than the last
      one lie in the same bucket, or both in none. */
  lemma TieOrderMattersExactly(s: seq<Sample>, edges: seq<Option<real>>)
    requires TimeOrdered(s)
    ensures (forall b :: TimeOrdered(b) && Rearranges(s, b) ==> EdgeHistogram(b, edges) == EdgeHistogram(s, edges))
            <==> TiesShareBuckets(s, edges)
  {
    if TiesShareBuckets(s, edges) {
      forall b | TimeOrdered(b) && Rearranges(s, b) ensures EdgeHistogram(b, edges) == EdgeHistogram(s, edges) {
        TiesKeepHistogram(s, b, edges);
      }
    } else {
      var i, j :| 0 <= i < j < |s| && s[i].uptime == s[j].uptime < s[|s| - 1].uptime
                  && !SameBucket(edges, s[i].value, s[j].value);
      var b := TieMovesTime(s, edges, i, j);
    }
  }

  /** For instance, of two rows with one timestamp, the one the engine puts last receives the
      whole gap. */
  lemma TieOrderMovesTime(t: real, gap: real, low: Sample, high: Sample, next: Sample, edge: real)
    requires low == Sample(t, low.value) && high == Sample(t, high.value) && next == Sample(t + gap, low.value)
    requires gap > 0.0 && low.value < edge <= high.value
    ensures EdgeHistogram([low, high, next], [None, Some(edge)]) == [gap, gap]
    ensures EdgeHistogram([high, low, next], [None, Some(edge)]) == [gap + gap, 0.0]
  {
    ThreeRows([low, high, next], None, edge);
    ThreeRows([high, low, next], None, edge);
  }

  lemma ThreeRows(s: seq<Sample>, first: Option<real>, edge: real)
    requires |s| == 3 && first == None
    ensures EdgeHistogram(s, [first, Some(edge)])[0] ==
              Part(s, Bucket(first, Some(edge)), 0) + Part(s, Bucket(first, Some(edge)), 1) + Part(s, Bucket(first, Some(edge)), 2)
    ensures EdgeHistogram(s, [first, Some(edge)])[1] ==
              Part(s, Bucket(Some(edge), None), 0) + Part(s, Bucket(Some(edge), None), 1) + Part(s, Bucket(Some(edge), None), 2)
  {
    JoinThree(s, Bucket(first, Some(edge)));
    JoinThree(s, Bucket(Some(edge), None));
  }

  function Part(s: seq<Sample>, b: Bucket, i: nat): real
    requires i < |s|
  {
    if InBucket(s[i].value, b) then Counted(s, i) else 0.0
  }

  lemma JoinThree(s: seq<Sample>, b: Bucket)
    requires |s| == 3
    ensures JoinedTime(s, b, 3) == Part(s, b, 0) + Part(s, b, 1) + Part(s, b, 2)
  {
    assert JoinedTime(s, b, 1) == JoinedTime(s, b, 0) + Part(s, b, 0);
    assert JoinedTime(s, b, 2) == JoinedTime(s, b, 1) + Part(s, b, 1);
    assert JoinedTime(s, b, 3) == JoinedTime(s, b, 2) + Part(s, b, 2);
  }
}
