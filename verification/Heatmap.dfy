/** The syscall frequency heatmap: events are binned by time into at most 101 buckets, and
    each selected syscall gets a count and a rate for every bucket. */
module Heatmap {

  /** An event with a timestamp, in microseconds, and a syscall name. */
  datatype Event = Event(ts: int, syscall: string)

  const TargetBuckets: real := 100.0
  const MinBucketUs: real := 1000.0
  const ZeroDurationBucketUs: real := 1000000.0

  // ---- the query ----

  function StartTs(events: seq<Event>): (t: int)
    requires events != []
    ensures forall e <- events :: t <= e.ts
    ensures exists e <- events :: t == e.ts
  {
    if |events| == 1 then events[0].ts
    else
      assert events == [events[0]] + events[1..];
      var rest := StartTs(events[1..]);
      if events[0].ts < rest then events[0].ts else rest
  }

  function EndTs(events: seq<Event>): (t: int)
    requires events != []
    ensures forall e <- events :: e.ts <= t
    ensures exists e <- events :: t == e.ts
  {
    if |events| == 1 then events[0].ts
    else
      assert events == [events[0]] + events[1..];
      var rest := EndTs(events[1..]);
      if events[0].ts > rest then events[0].ts else rest
  }

  function SpanUs(events: seq<Event>): real {
    if events == [] then 0.0 else (EndTs(events) - StartTs(events)) as real
  }

  function BucketUs(span: real): real {
    if span <= 0.0 then ZeroDurationBucketUs
    else if span / TargetBuckets > MinBucketUs then span / TargetBuckets
    else MinBucketUs
  }

  function BucketCount(span: real): int {
    if span <= 0.0 then 1 else (span / BucketUs(span)).Floor + 1
  }

  function BucketIndex(start: int, width: real, e: Event): int
    requires width > 0.0
  {
    ((e.ts - start) as real / width).Floor
  }

  /** One cell of the dense table: the events of a syscall in a bucket. */
  function Count(events: seq<Event>, start: int, width: real, bucket: int, syscall: string): nat
    requires width > 0.0
  {
    if events == [] then 0
    else
      var e := events[|events| - 1];
      Count(events[..|events| - 1], start, width, bucket, syscall)
      + if e.syscall == syscall && BucketIndex(start, width, e) == bucket then 1 else 0
  }

  function Rate(count: nat, width: real): real
    requires width > 0.0
  {
    count as real * 1000000.0 / width
  }

  // ---- what it comes to ----

  function Total(events: seq<Event>, syscall: string): nat {
    if events == [] then 0
    else Total(events[..|events| - 1], syscall) + if events[|events| - 1].syscall == syscall then 1 else 0
  }

  /** A row of the dense table summed over its first `n` buckets. */
  function RowSum(events: seq<Event>, start: int, width: real, n: nat, syscall: string): nat
    requires width > 0.0
  {
    if n == 0 then 0
    else RowSum(events, start, width, n - 1, syscall) + Count(events, start, width, n - 1, syscall)
  }

  lemma FloorMonotone(x: real, y: real)
    requires 0.0 <= x <= y
    ensures 0 <= x.Floor <= y.Floor
  {
  }

  lemma Divide(x: real, y: real, width: real)
    requires 0.0 <= x <= y && width > 0.0
    ensures 0.0 <= x / width <= y / width
  {
    var a, b := x / width, y / width;
    assert a * width == x && b * width == y;
    if a > b {
      Multiply(a, b, width);
    }
    if 0.0 > a {
      Multiply(0.0, a, width);
    }
  }

  lemma Multiply(a: real, b: real, c: real)
    requires a > b && c > 0.0
    ensures a * c > b * c
  {
  }

  /** Every event falls into exactly one bucket, and that bucket exists. */
  lemma EventHasItsBucket(events: seq<Event>, e: Event)
    requires e in events
    ensures BucketUs(SpanUs(events)) > 0.0
    ensures 0 <= BucketIndex(StartTs(events), BucketUs(SpanUs(events)), e) < BucketCount(SpanUs(events))
  {
    EventInSpan(events, e);
    HasItsBucket(StartTs(events), EndTs(events), SpanUs(events), e);
  }

  lemma HasItsBucket(start: int, end: int, span: real, e: Event)
    requires start <= e.ts <= end && span == (end - start) as real
    ensures BucketUs(span) > 0.0
    ensures 0 <= BucketIndex(start, BucketUs(span), e) < BucketCount(span)
  {
    var offset := (e.ts - start) as real;
    Divide(offset, span, BucketUs(span));
    FloorMonotone(offset / BucketUs(span), span / BucketUs(span));
  }

  // ---- what a bucket is ----

  /** From `start` on, in whole widths. */
  predicate InWindow(ts: int, start: int, width: real, k: int) {
    k as real * width <= (ts - start) as real < k as real * width + width
  }

  lemma MultiplyAtMost(a: real, b: real, c: real)
    requires a <= b && c > 0.0
    ensures a * c <= b * c
  {
    if a < b {
      Multiply(b, a, c);
    }
  }

  lemma FloorBounds(x: real, width: real, k: int)
    requires width > 0.0 && k == (x / width).Floor
    ensures k as real * width <= x < k as real * width + width
  {
    Quotient(x, width);
    Between(k as real, x / width, width, x);
  }

  lemma Between(k: real, q: real, width: real, x: real)
    requires k <= q < k + 1.0 && width > 0.0 && x == q * width
    ensures k * width <= x < k * width + width
  {
    var above := k + 1.0;
    MultiplyAtMost(k, q, width);
    Multiply(above, q, width);
    assert x < above * width;
    OneMore(k, above, width);
  }

  lemma OneMore(k: real, above: real, width: real)
    requires above == k + 1.0
    ensures above * width == k * width + width
  {
  }

  lemma Quotient(x: real, width: real)
    requires width > 0.0
    ensures x / width * width == x
  {
  }

  lemma WindowsDiffer(x: real, width: real, j: int, k: int)
    requires width > 0.0 && j < k
    requires x < j as real * width + width
    ensures x < k as real * width
  {
    var above := j as real + 1.0;
    OneMore(j as real, above, width);
    MultiplyAtMost(above, k as real, width);
  }

  /** An event's bucket is the one window of time in which it happened. */
  lemma BucketIsWindow(start: int, width: real, e: Event, k: int)
    requires width > 0.0
    ensures BucketIndex(start, width, e) == k <==> InWindow(e.ts, start, width, k)
  {
    var x, j := (e.ts - start) as real, BucketIndex(start, width, e);
    FloorBounds(x, width, j);
    if InWindow(e.ts, start, width, k) {
      if j < k {
        WindowsDiffer(x, width, j, k);
      } else if k < j {
        WindowsDiffer(x, width, k, j);
      }
    }
  }

  /** The events of a syscall in a window. */
  function Within(events: seq<Event>, start: int, width: real, k: int, syscall: string): seq<Event> {
    if events == [] then []
    else
      var e := events[|events| - 1];
      Within(events[..|events| - 1], start, width, k, syscall)
      + if e.syscall == syscall && InWindow(e.ts, start, width, k) then [e] else []
  }

  /** A cell counts the events of its syscall in its window of time. */
  lemma {:induction false} CellCountsWindow(events: seq<Event>, start: int, width: real, k: int, syscall: string)
    requires width > 0.0
    ensures Count(events, start, width, k, syscall) == |Within(events, start, width, k, syscall)|
  {
    if events != [] {
      CellCountsWindow(events[..|events| - 1], start, width, k, syscall);
      BucketIsWindow(start, width, events[|events| - 1], k);
    }
  }

  /** The buckets are as many as it takes: the last one begins within the span, and the span
      ends before the next would begin. A trace without duration has one bucket, a second wide. */
  lemma GridFits(span: real)
    requires span >= 0.0
    ensures BucketUs(span) >= MinBucketUs
    ensures var last := (BucketCount(span) - 1) as real * BucketUs(span);
            last <= span < last + BucketUs(span)
    ensures span > 0.0 ==> BucketUs(span) == MinBucketUs || BucketUs(span) * TargetBuckets == span
    ensures span == 0.0 ==> BucketUs(span) == 1000000.0
  {
    FloorBounds(span, BucketUs(span), (span / BucketUs(span)).Floor);
  }

  /** There are at most 101 buckets. */
  lemma BucketsAreFew(span: real)
    ensures 1 <= BucketCount(span) <= 101
  {
    if span > 0.0 {
      var width := BucketUs(span);
      assert span / TargetBuckets <= width;
      Divide(span, TargetBuckets * width, width);
      WholeQuotient(TargetBuckets, width);
      FloorMonotone(span / width, TargetBuckets);
    }
  }

  /** All 101 buckets are there exactly for a span of 100 milliseconds or more. */
  lemma AllBucketsExactly(span: real)
    ensures BucketCount(span) == 101 <==> span >= MinBucketUs * TargetBuckets
  {
    if span >= MinBucketUs * TargetBuckets {
      HundredWidths(span);
    } else if span > 0.0 {
      assert BucketUs(span) == MinBucketUs;
      DivideStrict(span, TargetBuckets * MinBucketUs, MinBucketUs);
      WholeQuotient(TargetBuckets, MinBucketUs);
    }
  }

  /** The last of them only holds what happened in the very last microsecond: the hundred
      before it share the rest. */
  lemma LastBucketIsTheEnd(events: seq<Event>, e: Event)
    requires e in events && BucketCount(SpanUs(events)) == 101
    ensures BucketIndex(StartTs(events), BucketUs(SpanUs(events)), e) == 100 <==> e.ts == EndTs(events)
  {
    EventInSpan(events, e);
    LastBucketAt(StartTs(events), EndTs(events), SpanUs(events), e);
  }

  lemma LastBucketAt(start: int, end: int, span: real, e: Event)
    requires start <= e.ts <= end && span == (end - start) as real && BucketCount(span) == 101
    ensures BucketUs(span) > 0.0
    ensures BucketIndex(start, BucketUs(span), e) == 100 <==> e.ts == end
  {
    AllBucketsExactly(span);
    HundredWidths(span);
    BelowTheEnd((e.ts - start) as real, span, BucketUs(span));
  }

  lemma EventInSpan(events: seq<Event>, e: Event)
    requires e in events
    ensures StartTs(events) <= e.ts <= EndTs(events) && SpanUs(events) == (EndTs(events) - StartTs(events)) as real
  {
  }

  lemma BelowTheEnd(offset: real, span: real, width: real)
    requires 0.0 <= offset <= span && width > 0.0 && span / width == TargetBuckets
    ensures (offset / width).Floor == 100 <==> offset == span
  {
    if offset < span {
      DivideStrict(offset, span, width);
    }
  }

  lemma HundredWidths(span: real)
    requires span >= MinBucketUs * TargetBuckets
    ensures BucketUs(span) == span / TargetBuckets > 0.0 && span / BucketUs(span) == TargetBuckets
  {
    var width := span / TargetBuckets;
    assert span == TargetBuckets * width;
    assert width >= MinBucketUs;
    WholeQuotient(TargetBuckets, width);
  }

  lemma WholeQuotient(n: real, width: real)
    requires width > 0.0
    ensures n * width / width == n
  {
  }

  lemma DivideStrict(x: real, y: real, width: real)
    requires x < y && width > 0.0
    ensures x / width < y / width
  {
    var a, b := x / width, y / width;
    assert a * width == x && b * width == y;
    if a > b {
      Multiply(a, b, width);
    }
  }

  /** One more event counts in exactly one cell of its syscall's row. */
  lemma {:induction false} RowGrows(events: seq<Event>, e: Event, start: int, width: real, n: nat, syscall: string)
    requires width > 0.0
    ensures RowSum(events + [e], start, width, n, syscall) == RowSum(events, start, width, n, syscall)
              + if e.syscall == syscall && 0 <= BucketIndex(start, width, e) < n then 1 else 0
  {
    assert (events + [e])[..|events|] == events;
    if n > 0 {
      RowGrows(events, e, start, width, n - 1, syscall);
    }
  }

  lemma {:induction false} RowOfNone(start: int, width: real, n: nat, syscall: string)
    requires width > 0.0
    ensures RowSum([], start, width, n, syscall) == 0
  {
    if n > 0 {
      RowOfNone(start, width, n - 1, syscall);
    }
  }

  lemma {:induction false} RowSumIsTotal(events: seq<Event>, start: int, width: real, n: nat, syscall: string)
    requires width > 0.0
    requires forall e <- events :: 0 <= BucketIndex(start, width, e) < n
    ensures RowSum(events, start, width, n, syscall) == Total(events, syscall)
  {
    if events == [] {
      RowOfNone(start, width, n, syscall);
    } else {
      var before, e := events[..|events| - 1], events[|events| - 1];
      assert events == before + [e];
      RowSumIsTotal(before, start, width, n, syscall);
      RowGrows(before, e, start, width, n, syscall);
    }
  }

  /** The dense counts of a syscall add up to its events. */
  lemma CountsConserve(events: seq<Event>, syscall: string)
    requires events != []
    ensures BucketUs(SpanUs(events)) > 0.0 && BucketCount(SpanUs(events)) >= 0
    ensures RowSum(events, StartTs(events), BucketUs(SpanUs(events)), BucketCount(SpanUs(events)), syscall)
              == Total(events, syscall)
  {
    BucketsAreFew(SpanUs(events));
    forall e | e in events
      ensures 0 <= BucketIndex(StartTs(events), BucketUs(SpanUs(events)), e) < BucketCount(SpanUs(events))
    {
      EventHasItsBucket(events, e);
    }
    RowSumIsTotal(events, StartTs(events), BucketUs(SpanUs(events)), BucketCount(SpanUs(events)), syscall);
  }

  /** The rates of a row, each times the bucket width in seconds, summed over `n` buckets. */
  function RateSum(events: seq<Event>, start: int, width: real, n: nat, syscall: string): real
    requires width > 0.0
  {
    if n == 0 then 0.0
    else RateSum(events, start, width, n - 1, syscall)
         + Rate(Count(events, start, width, n - 1, syscall), width) * (width / 1000000.0)
  }

  lemma RateTimesWidth(count: nat, width: real)
    requires width > 0.0
    ensures Rate(count, width) * (width / 1000000.0) == count as real
  {
    var r, w := Rate(count, width), width / 1000000.0;
    assert r * width == count as real * 1000000.0;
    assert width == w * 1000000.0;
    Shuffle(r, w, count as real);
  }

  lemma Shuffle(r: real, w: real, c: real)
    requires r * (w * 1000000.0) == c * 1000000.0
    ensures r * w == c
  {
    assert r * (w * 1000000.0) == (r * w) * 1000000.0;
  }

  lemma {:induction false} RatesGiveCounts(events: seq<Event>, start: int, width: real, n: nat, syscall: string)
    requires width > 0.0
    ensures RateSum(events, start, width, n, syscall) == RowSum(events, start, width, n, syscall) as real
  {
    if n > 0 {
      RatesGiveCounts(events, start, width, n - 1, syscall);
      RateTimesWidth(Count(events, start, width, n - 1, syscall), width);
    }
  }

  /** The displayed rates, integrated over the displayed buckets, give back the events. */
  lemma RatesConserve(events: seq<Event>, syscall: string)
    requires events != []
    ensures BucketUs(SpanUs(events)) > 0.0 && BucketCount(SpanUs(events)) >= 0
    ensures RateSum(events, StartTs(events), BucketUs(SpanUs(events)), BucketCount(SpanUs(events)), syscall)
              == Total(events, syscall) as real
  {
    CountsConserve(events, syscall);
    RatesGiveCounts(events, StartTs(events), BucketUs(SpanUs(events)), BucketCount(SpanUs(events)), syscall);
  }
}
