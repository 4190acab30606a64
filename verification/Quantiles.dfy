// p50 and p95 time-to-match from a histogram of 5-second buckets
// (flink/sql/02_city_metrics.sql and postgres/init/02_flink_tables.sql).
module Quantiles {

  import opened Wrappers

  const OPEN_BUCKET: int := 60  // 300 seconds or more

  function BucketOf(seconds: real): int {
    var b := (seconds / 5.0).Floor;
    if b < OPEN_BUCKET then b else OPEN_BUCKET
  }

  /** Bucket and COUNT(*) of each group. */
  function Histogram(times: seq<real>): map<int, nat> {
    if times == [] then map[]
    else
      var h, b := Histogram(times[..|times| - 1]), BucketOf(times[|times| - 1]);
      h[b := (if b in h then h[b] else 0) + 1]
  }

  /** SUM(cnt) over the buckets up to `b`. */
  function CumCount(h: map<int, nat>, b: int): nat
    decreases b + 1
  {
    if b < 0 then 0 else CumCount(h, b - 1) + if b in h then h[b] else 0
  }

  function Ceil(x: real): int {
    -((-x).Floor)
  }

  function Rank(q: real, n: nat): int {
    Ceil(q * n as real)
  }

  /** MIN of the upper edges of the buckets whose cumulative count reaches the rank. */
  function LeastEdge(h: map<int, nat>, rank: int, b: nat): Option<real>
    requires b <= OPEN_BUCKET + 1
    decreases OPEN_BUCKET + 1 - b
  {
    if b == OPEN_BUCKET + 1 then None
    else if b in h && CumCount(h, b) >= rank then Some((b + 1) as real * 5.0)
    else LeastEdge(h, rank, b + 1)
  }

  /** The view's column for quantile `q`. */
  function Reported(h: map<int, nat>, q: real): Option<real> {
    LeastEdge(h, Rank(q, CumCount(h, OPEN_BUCKET)), 0)
  }

  // -------------------------------------------------- the exact order statistic

  function Insert(x: real, s: seq<real>): seq<real> {
    if s == [] || x <= s[0] then [x] + s else [s[0]] + Insert(x, s[1..])
  }

  function Sorted(times: seq<real>): seq<real> {
    if times == [] then [] else Insert(times[|times| - 1], Sorted(times[..|times| - 1]))
  }

  ghost predicate Ascending(s: seq<real>) {
    forall i, j :: 0 <= i <= j < |s| ==> s[i] <= s[j]
  }

  /** How many of the times are below `v`, and how many are not above it. */
  function Less(s: seq<real>, v: real): nat {
    if s == [] then 0 else Less(s[1..], v) + if s[0] < v then 1 else 0
  }

  function AtMost(s: seq<real>, v: real): nat {
    if s == [] then 0 else AtMost(s[1..], v) + if s[0] <= v then 1 else 0
  }

  lemma {:induction false} InsertCounts(x: real, s: seq<real>, v: real)
    ensures Less(Insert(x, s), v) == Less(s, v) + if x < v then 1 else 0
    ensures AtMost(Insert(x, s), v) == AtMost(s, v) + if x <= v then 1 else 0
    ensures |Insert(x, s)| == |s| + 1
  {
    if s != [] && s[0] < x {
      InsertCounts(x, s[1..], v);
      assert Insert(x, s)[1..] == Insert(x, s[1..]);
    } else {
      assert Insert(x, s)[1..] == s;
    }
  }

  lemma {:induction false} InsertAscends(x: real, s: seq<real>)
    requires Ascending(s)
    ensures Ascending(Insert(x, s))
    ensures forall y :: y in Insert(x, s) <==> y == x || y in s
  {
    if s != [] && s[0] < x {
      InsertAscends(x, s[1..]);
      var t := Insert(x, s[1..]);
      assert s == [s[0]] + s[1..];
      forall j | 0 <= j < |t| ensures s[0] <= t[j] {
        assert t[j] in t;
      }
    }
  }

  lemma {:induction false} CountsGrow(times: seq<real>, x: real, v: real)
    ensures Less(times + [x], v) == Less(times, v) + if x < v then 1 else 0
    ensures AtMost(times + [x], v) == AtMost(times, v) + if x <= v then 1 else 0
  {
    if times != [] {
      CountsGrow(times[1..], x, v);
      assert (times + [x])[1..] == times[1..] + [x];
    }
  }

  lemma {:induction false} SortedCounts(times: seq<real>, v: real)
    ensures Ascending(Sorted(times)) && |Sorted(times)| == |times|
    ensures Less(Sorted(times), v) == Less(times, v) && AtMost(Sorted(times), v) == AtMost(times, v)
    ensures forall y :: y in Sorted(times) <==> y in times
  {
    if times != [] {
      var front, x := times[..|times| - 1], times[|times| - 1];
      SortedCounts(front, v);
      InsertCounts(x, Sorted(front), v);
      InsertAscends(x, Sorted(front));
      CountsGrow(front, x, v);
      assert times == front + [x];
    }
  }

  lemma {:induction false} RankInSorted(s: seq<real>, k: nat)
    requires Ascending(s) && k < |s|
    ensures Less(s, s[k]) <= k < AtMost(s, s[k])
  {
    if k > 0 {
      RankInSorted(s[1..], k - 1);
    } else {
      NoneBelow(s, s[0]);
    }
  }

  lemma {:induction false} NoneBelow(s: seq<real>, v: real)
    requires forall y :: y in s ==> v <= y
    ensures Less(s, v) == 0
  {
    if s != [] {
      forall y | y in s[1..] ensures v <= y { assert y in s; }
      assert s[0] in s;
      NoneBelow(s[1..], v);
    }
  }

  /** The nearest-rank quantile: the k-th smallest for k the rank of `q`. */
  function Exact(times: seq<real>, q: real): real
    requires 0.0 < q <= 1.0 && times != []
  {
    RankInRange(q, |times|);
    SortedCounts(times, 0.0);
    Sorted(times)[Rank(q, |times|) - 1]
  }

  lemma RankInRange(q: real, n: nat)
    requires 0.0 < q <= 1.0 && n > 0
    ensures 1 <= Rank(q, n) <= n
  {
    var x := q * n as real;
    assert 0.0 < x <= n as real;
  }

  // ---------------------------------------------------------------- the bound

  /** How many times fall in buckets up to `b`. */
  function UpTo(times: seq<real>, b: int): nat {
    if times == [] then 0 else UpTo(times[..|times| - 1], b) + if BucketOf(times[|times| - 1]) <= b then 1 else 0
  }

  lemma {:induction false} AddToBucket(h: map<int, nat>, k: int, b: int)
    requires 0 <= k
    ensures CumCount(h[k := (if k in h then h[k] else 0) + 1], b) == CumCount(h, b) + if k <= b then 1 else 0
    decreases b + 1
  {
    if b >= 0 {
      AddToBucket(h, k, b - 1);
    }
  }

  lemma BucketInRange(t: real)
    requires t >= 0.0
    ensures 0 <= BucketOf(t) <= OPEN_BUCKET
  {
  }

  lemma {:induction false} CumulativeCounts(times: seq<real>, b: int)
    requires forall t :: t in times ==> t >= 0.0
    ensures CumCount(Histogram(times), b) == if b < 0 then 0 else UpTo(times, b)
    ensures forall k :: k in Histogram(times) <==> exists t :: t in times && BucketOf(t) == k
  {
    if times == [] {
      NothingCounted(b);
    } else {
      var front, x := times[..|times| - 1], times[|times| - 1];
      assert times == front + [x] && x in times;
      forall t | t in front ensures t >= 0.0 { assert t in times; }
      CumulativeCounts(front, b);
      BucketInRange(x);
      AddToBucket(Histogram(front), BucketOf(x), b);
    }
  }

  lemma {:induction false} NothingCounted(b: int)
    ensures CumCount(map[], b) == 0
    decreases b + 1
  {
    if b >= 0 {
      NothingCounted(b - 1);
    }
  }

  lemma BucketsAreMonotone(s: real, t: real)
    requires s <= t
    ensures BucketOf(s) <= BucketOf(t)
  {
    assert s / 5.0 <= t / 5.0;
  }

  /** Buckets below `v`'s hold only smaller times; up to `v`'s, all not above it. */
  lemma {:induction false} BucketsBracket(times: seq<real>, v: real, b: int)
    ensures b < BucketOf(v) ==> UpTo(times, b) <= Less(times, v)
    ensures b >= BucketOf(v) ==> UpTo(times, b) >= AtMost(times, v)
  {
    if times != [] {
      var front, x := times[..|times| - 1], times[|times| - 1];
      BucketsBracket(front, v, b);
      CountsGrow(front, x, v);
      assert times == front + [x];
      if x <= v { BucketsAreMonotone(x, v); } else { BucketsAreMonotone(v, x); }
    }
  }

  lemma {:induction false} EverythingIsUpToOpen(times: seq<real>)
    ensures UpTo(times, OPEN_BUCKET) == |times|
  {
    if times != [] {
      EverythingIsUpToOpen(times[..|times| - 1]);
    }
  }

  lemma {:induction false} FirstCrossingIs(h: map<int, nat>, rank: int, b: nat, at: nat)
    requires b <= at <= OPEN_BUCKET && at in h && CumCount(h, at) >= rank
    requires forall k :: b <= k < at ==> CumCount(h, k) < rank
    ensures LeastEdge(h, rank, b) == Some((at + 1) as real * 5.0)
    decreases at - b
  {
    if b < at {
      FirstCrossingIs(h, rank, b + 1, at);
    }
  }

  /** `v` is a time such that fewer than q of them are below it and at least q of them
      are not above it. */
  ghost predicate IsQuantile(times: seq<real>, q: real, v: real) {
    v in times && Less(times, v) as real < q * |times| as real <= AtMost(times, v) as real
  }

  /** The k-th smallest time, k the rank of `q`, is the one time of which that holds. */
  lemma ExactIsQuantile(times: seq<real>, q: real)
    requires times != [] && 0.0 < q <= 1.0
    ensures IsQuantile(times, q, Exact(times, q))
    ensures forall v :: IsQuantile(times, q, v) ==> v == Exact(times, q)
  {
    ExactIsRanked(times, q);
    var exact := Exact(times, q);
    hide Exact, Less, AtMost;
    forall v | IsQuantile(times, q, v) ensures v == exact {
      if v < exact { CountsOrdered(times, v, exact); }
      if exact < v { CountsOrdered(times, exact, v); }
    }
  }

  lemma {:induction false} CountsOrdered(times: seq<real>, low: real, high: real)
    requires low < high
    ensures AtMost(times, low) <= Less(times, high)
  {
    if times != [] {
      CountsOrdered(times[1..], low, high);
    }
  }

  /** The first crossing bucket is the bucket of the exact order statistic. Below
      the open-ended bucket the report exceeds it by more than 0 and at most 5
      seconds; in that bucket the report is 305 seconds, whatever the exact value. */
  lemma QuantileBound(times: seq<real>, q: real)
    requires times != [] && 0.0 < q <= 1.0 && forall t :: t in times ==> t >= 0.0
    ensures var exact := Exact(times, q);
            && IsQuantile(times, q, exact)
            && Reported(Histogram(times), q) == Some((BucketOf(exact) + 1) as real * 5.0)
            && (exact < 300.0 ==> exact < Reported(Histogram(times), q).value <= exact + 5.0)
            && (exact >= 300.0 <==> Reported(Histogram(times), q) == Some(305.0))
  {
    hide Exact, Reported, Rank, Histogram, Sorted;
    var v := Exact(times, q);
    ExactIsRanked(times, q);
    ExactIsQuantile(times, q);
    BucketInRange(v);
    ReportedEdge(times, q, v);
    BucketEdges(v);
  }

  /** What makes `v` the k-th smallest. */
  ghost predicate Ranked(times: seq<real>, v: real, k: int) {
    v in times && Less(times, v) < k <= AtMost(times, v)
  }

  lemma ExactIsRanked(times: seq<real>, q: real)
    requires times != [] && 0.0 < q <= 1.0
    ensures Ranked(times, Exact(times, q), Rank(q, |times|))
  {
    hide Rank, Sorted;
    RankInRange(q, |times|);
    SortedCounts(times, Exact(times, q));
    RankInSorted(Sorted(times), Rank(q, |times|) - 1);
  }

  lemma ReportedEdge(times: seq<real>, q: real, v: real)
    requires 0.0 < q <= 1.0 && Ranked(times, v, Rank(q, |times|)) && forall t :: t in times ==> t >= 0.0
    ensures Reported(Histogram(times), q) == Some((BucketOf(v) + 1) as real * 5.0)
  {
    hide Rank, Histogram, CumCount, Less, AtMost;
    var h, rank := Histogram(times), Rank(q, |times|);
    CumulativeCounts(times, OPEN_BUCKET);
    EverythingIsUpToOpen(times);
    BucketInRange(v);
    var at: nat := BucketOf(v);
    forall k | 0 <= k <= at ensures k < at ==> CumCount(h, k) < rank
      ensures k == at ==> CumCount(h, k) >= rank
    {
      CumulativeCounts(times, k);
      BucketsBracket(times, v, k);
    }
    FirstCrossingIs(h, rank, 0, at);
  }

  lemma BucketEdges(v: real)
    requires v >= 0.0
    ensures v < 300.0 ==> v < (BucketOf(v) + 1) as real * 5.0 <= v + 5.0
    ensures v >= 300.0 <==> BucketOf(v) == OPEN_BUCKET
  {
  }
}
