/** Histogram and summary metrics. */
module Metrics {
  import opened Wrappers
  import opened Sorting

  const IDENTITY: real -> real := (x: real) => x

  // ---- Counting -------------------------------------------------------------------------------

  function CountAtMost(s: seq<real>, v: real): nat {
    if s == [] then 0 else (if s[0] <= v then 1 else 0) + CountAtMost(s[1..], v)
  }

  function CountBelow(s: seq<real>, v: real): nat {
    if s == [] then 0 else (if s[0] < v then 1 else 0) + CountBelow(s[1..], v)
  }

  function Sum(s: seq<real>): real {
    if s == [] then 0.0 else Sum(s[..|s| - 1]) + s[|s| - 1]
  }

  lemma {:induction false} CountAppend(s: seq<real>, x: real, v: real)
    ensures CountAtMost(s + [x], v) == CountAtMost(s, v) + (if x <= v then 1 else 0)
  {
    if s == [] {
      assert s + [x] == [x];
    } else {
      assert (s + [x])[1..] == s[1..] + [x];
      CountAppend(s[1..], x, v);
    }
  }

  lemma {:induction false} CountBounds(s: seq<real>, v: real, w: real)
    requires v <= w
    ensures CountAtMost(s, v) <= CountAtMost(s, w) <= |s|
  {
    if s != [] {
      CountBounds(s[1..], v, w);
    }
  }

  // ---- Histogram ------------------------------------------------------------------------------

  class Histogram {
    const buckets: seq<real>
    const cumulative: array<int>
    var sum: real
    var count: int
    ghost var history: seq<real>

    ghost predicate Valid()
      reads this, cumulative
    {
      && SortedBy(IDENTITY, buckets)
      && cumulative.Length == |buckets|
      && (forall i :: 0 <= i < |buckets| ==> cumulative[i] == CountAtMost(history, buckets[i]))
      && sum == Sum(history) && count == |history|
    }

    constructor (bounds: seq<real>)
      ensures Valid() && fresh(cumulative) && history == []
      ensures buckets == SortBy(IDENTITY, bounds)
    {
      var sorted := SortBy(IDENTITY, bounds);
      SortByIsSortedPermutation(IDENTITY, bounds);
      buckets := sorted;
      cumulative := new int[|sorted|](_ => 0);
      sum, count, history := 0.0, 0, [];
    }

    /** Counts the observation into every bucket whose bound it does not exceed. */
    method Observe(val: real)
      requires Valid()
      modifies this, cumulative
      ensures Valid() && history == old(history) + [val]
    {
      sum := sum + val;
      count := count + 1;
      ghost var after := history + [val];
      assert after[..|history|] == history;
      var i := 0;
      while i < |buckets|
        invariant 0 <= i <= |buckets|
        invariant forall j :: 0 <= j < |buckets| ==>
          cumulative[j] == CountAtMost(if j < i then after else history, buckets[j])
        modifies cumulative
      {
        CountAppend(history, val, buckets[i]);
        if val <= buckets[i] {
          cumulative[i] := cumulative[i] + 1;
        }
        i := i + 1;
      }
      history := after;
    }

    /** Bucket counts never decrease from bound to bound and never exceed the total. */
    lemma BucketsAreCumulative()
      requires Valid()
      ensures forall i, j :: 0 <= i <= j < |buckets| ==> 0 <= cumulative[i] <= cumulative[j] <= count
    {
      forall i, j | 0 <= i <= j < |buckets| ensures 0 <= cumulative[i] <= cumulative[j] <= count {
        assert IDENTITY(buckets[i]) <= IDENTITY(buckets[j]);
        CountBounds(history, buckets[i], buckets[j]);
      }
    }
  }

  // ---- Summary --------------------------------------------------------------------------------

  const MAX_RETAINED := 10000
  const TRIMMED_TO := 1000

  function Ceil(x: real): int {
    if x.Floor as real == x then x.Floor else x.Floor + 1
  }

  /** `Math.ceil(quantile * n)`. */
  function Rank(q: real, n: nat): int {
    Ceil(q * n as real)
  }

  /** The entry at a rank, the index clamped to the list; zero if there is none. */
  function AtRank(sorted: seq<real>, rank: int): real {
    var capped := if rank - 1 > |sorted| - 1 then |sorted| - 1 else rank - 1;
    var at := if capped < 0 then 0 else capped;
    if at < |sorted| then sorted[at] else 0.0
  }

  /** The reported value of a quantile of the retained observations. */
  function Quantile(values: seq<real>, q: real): real {
    var sorted := SortBy(IDENTITY, values);
    AtRank(sorted, Rank(q, |sorted|))
  }

  function Retain(values: seq<real>, val: real): seq<real> {
    var all := values + [val];
    if |all| > MAX_RETAINED then JsSlice(all, -TRIMMED_TO) else all
  }

  /** All observations are kept up to ten thousand; one more leaves the last thousand. */
  lemma RetainedTail(values: seq<real>, val: real)
    requires |values| <= 10000
    ensures Retain(values, val) ==
      if |values| < 10000 then values + [val] else (values + [val])[|values| + 1 - 1000..]
  {
  }

  lemma SumOfNone()
    ensures Sum([]) == 0.0
  {
  }

  lemma SumOfMore(values: seq<real>, val: real)
    ensures Sum(values + [val]) == Sum(values) + val
  {
    assert (values + [val])[..|values|] == values;
  }

  class Summary {
    var values: seq<real>
    var sum: real
    var count: int
    var samples: seq<real>
    ghost var history: seq<real>

    /** The retained values are the latest observations, and the samples are their quantiles. */
    ghost predicate Valid()
      reads this
    {
      && |values| <= |history| && values == history[|history| - |values|..]
      && |values| <= MAX_RETAINED && (|values| < |history| ==> |values| >= TRIMMED_TO)
      && sum == Sum(history) && count == |history|
      && samples == [Quantile(values, 0.5), Quantile(values, 0.9), Quantile(values, 0.99), Quantile(values, 1.0)]
    }

    constructor ()
      ensures Valid() && history == []
    {
      values, sum, count, history := [], 0.0, 0, [];
      samples := [];
      new;
      hide Quantile, Sum;
      assert Sum(history) == 0.0 by { SumOfNone(); }
      Flush();
    }

    method Observe(val: real)
      requires Valid()
      modifies this
      ensures Valid() && history == old(history) + [val] && values == Retain(old(values), val)
      ensures values ==
        if |old(values)| < 10000 then old(values) + [val] else (old(values) + [val])[|old(values)| + 1 - 1000..]
    {
      hide Quantile, Sum;
      values := values + [val];
      sum := sum + val;
      count := count + 1;
      if |values| > MAX_RETAINED {
        values := JsSlice(values, -TRIMMED_TO);
      }
      history := history + [val];
      SumOfMore(old(history), val);
      RetainedTail(old(values), val);
      Flush();
    }

    method Flush()
      modifies this`samples
      ensures samples == [Quantile(values, 0.5), Quantile(values, 0.9), Quantile(values, 0.99), Quantile(values, 1.0)]
    {
      hide SortBy, Rank;
      var sorted := SortBy(IDENTITY, values);
      var quantiles := [0.5, 0.9, 0.99];
      samples := [];
      var i := 0;
      while i < |quantiles|
        invariant 0 <= i <= |quantiles| && |samples| == i
        invariant forall j :: 0 <= j < i ==> samples[j] == Quantile(values, quantiles[j])
      {
        var idx := Rank(quantiles[i], |sorted|) - 1;
        var capped := if idx > |sorted| - 1 then |sorted| - 1 else idx;
        var at := if capped < 0 then 0 else capped;
        samples := samples + [if at < |sorted| then sorted[at] else 0.0];
        i := i + 1;
      }
      FullRank(|sorted|);
      samples := samples + [if |sorted| > 0 then sorted[|sorted| - 1] else 0.0];
    }
  }

  // ---- What a quantile is ---------------------------------------------------------------------

  lemma {:induction false} InsertCounts(x: real, s: seq<real>, v: real)
    ensures CountAtMost(Insert(IDENTITY, x, s), v) == CountAtMost(s, v) + (if x <= v then 1 else 0)
    ensures CountBelow(Insert(IDENTITY, x, s), v) == CountBelow(s, v) + (if x < v then 1 else 0)
  {
    if s != [] && x > s[0] {
      InsertCounts(x, s[1..], v);
      assert ([s[0]] + Insert(IDENTITY, x, s[1..]))[1..] == Insert(IDENTITY, x, s[1..]);
    } else {
      assert ([x] + s)[1..] == s;
    }
  }

  lemma {:induction false} SortCounts(s: seq<real>, v: real)
    ensures CountAtMost(SortBy(IDENTITY, s), v) == CountAtMost(s, v)
    ensures CountBelow(SortBy(IDENTITY, s), v) == CountBelow(s, v)
  {
    if s != [] {
      SortCounts(s[1..], v);
      InsertCounts(s[0], SortBy(IDENTITY, s[1..]), v);
    }
  }

  lemma {:induction false} PrefixCounts(s: seq<real>, k: nat, v: real)
    requires k <= |s| && forall j :: 0 <= j < k ==> s[j] <= v
    ensures CountAtMost(s, v) >= k
  {
    if k > 0 {
      PrefixCounts(s[1..], k - 1, v);
    }
  }

  lemma {:induction false} SuffixCounts(s: seq<real>, k: nat, v: real)
    requires k <= |s| && forall j :: k <= j < |s| ==> v <= s[j]
    ensures CountBelow(s, v) <= k
  {
    if s != [] {
      SuffixCounts(s[1..], if k > 0 then k - 1 else 0, v);
    }
  }

  lemma FullRank(n: nat)
    ensures Rank(1.0, n) == n
  {
    assert 1.0 * n as real == n as real;
  }

  lemma RankInRange(q: real, n: nat)
    requires 0.0 < q <= 1.0 && n > 0
    ensures 1 <= Rank(q, n) <= n
  {
    var x := q * n as real;
    assert 0.0 < x <= n as real;
  }

  lemma RankIsMonotone(p: real, q: real, n: nat)
    requires p <= q
    ensures Rank(p, n) <= Rank(q, n)
  {
    assert (q - p) * n as real >= 0.0;
    assert (q - p) * n as real == q * n as real - p * n as real;
  }

  /** A rank is the least whole number that `q * n` does not exceed. */
  lemma RankIsShare(q: real, n: nat, most: nat, below: nat)
    requires most >= Rank(q, n) && below < Rank(q, n)
    ensures most as real >= q * n as real && (below as real) < q * n as real
  {
    var x := q * n as real;
    assert (Ceil(x) - 1) as real < x <= Ceil(x) as real;
  }

  lemma QuantileHasRank(values: seq<real>, q: real)
    requires values != [] && 0.0 < q <= 1.0
    ensures var rank, v := Rank(q, |values|), Quantile(values, q);
      && v in values && CountAtMost(values, v) >= rank && CountBelow(values, v) < rank
  {
    hide Rank, SortBy, CountAtMost, CountBelow;
    var sorted := SortBy(IDENTITY, values);
    SameElements(IDENTITY, values);
    SortByIsSortedPermutation(IDENTITY, values);
    RankInRange(q, |values|);
    var i, v := Rank(q, |values|) - 1, Quantile(values, q);
    assert v == sorted[i] && sorted[i] in sorted;
    assert forall j :: 0 <= j <= i ==> IDENTITY(sorted[j]) <= IDENTITY(sorted[i]);
    assert forall j :: i <= j < |sorted| ==> IDENTITY(sorted[i]) <= IDENTITY(sorted[j]);
    PrefixCounts(sorted, i + 1, v);
    SuffixCounts(sorted, i, v);
    SortCounts(values, v);
  }

  /**
   * A reported quantile is a nearest-rank value: it is a retained observation, at least the fraction `q` of the
   * retained observations are at most it, and less than that fraction are below it.
   */
  lemma QuantileIsNearestRank(values: seq<real>, q: real)
    requires values != [] && 0.0 < q <= 1.0
    ensures var share, v := q * |values| as real, Quantile(values, q);
      && v in values && CountAtMost(values, v) as real >= share && (CountBelow(values, v) as real) < share
  {
    hide Rank, Quantile, CountAtMost, CountBelow;
    QuantileHasRank(values, q);
    var v := Quantile(values, q);
    RankIsShare(q, |values|, CountAtMost(values, v), CountBelow(values, v));
  }

  /** Of nothing at all, every quantile is zero. */
  lemma NothingObserved(q: real)
    ensures Quantile([], q) == 0.0
  {
  }

  /** Larger quantiles report larger or equal values. */
  lemma QuantilesAreMonotone(values: seq<real>, p: real, q: real)
    requires 0.0 < p <= q <= 1.0
    ensures Quantile(values, p) <= Quantile(values, q)
  {
    hide Rank, SortBy;
    SameElements(IDENTITY, values);
    if values != [] {
      var sorted, n := SortBy(IDENTITY, values), |values|;
      SortByIsSortedPermutation(IDENTITY, values);
      RankInRange(p, n);
      RankInRange(q, n);
      RankIsMonotone(p, q, n);
      assert IDENTITY(sorted[Rank(p, n) - 1]) <= IDENTITY(sorted[Rank(q, n) - 1]);
    }
  }
}
