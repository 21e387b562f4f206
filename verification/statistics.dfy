/** Order statistics of the benchmark scripts
    (scripts/benchmarks/x11_shm_screenshot_runner.py), over the reals. */
module Statistics {
  import opened Outcomes

  // ---------------------------------------------------------------- sorting and counting

  function Insert(x: real, ys: seq<real>): seq<real> {
    if ys == [] then [x]
    else if x <= ys[0] then [x] + ys
    else [ys[0]] + Insert(x, ys[1..])
  }

  /** `sorted`. */
  function Sorted(xs: seq<real>): seq<real> {
    if xs == [] then [] else Insert(xs[0], Sorted(xs[1..]))
  }

  predicate Ascending(ys: seq<real>) {
    forall i, j :: 0 <= i < j < |ys| ==> ys[i] <= ys[j]
  }

  function CountOver(xs: seq<real>, t: real): nat {
    if xs == [] then 0 else (if xs[0] > t then 1 else 0) + CountOver(xs[1..], t)
  }

  function CountBelow(xs: seq<real>, t: real): nat {
    if xs == [] then 0 else (if xs[0] < t then 1 else 0) + CountBelow(xs[1..], t)
  }

  /** Counting is sample by sample: one for each that is over, or below. */
  lemma {:induction false} CountsAppend(xs: seq<real>, ys: seq<real>, t: real)
    ensures CountOver(xs + ys, t) == CountOver(xs, t) + CountOver(ys, t)
    ensures CountBelow(xs + ys, t) == CountBelow(xs, t) + CountBelow(ys, t)
    ensures forall x: real :: CountOver([x], t) == (if x > t then 1 else 0)
    ensures forall x: real :: CountBelow([x], t) == (if x < t then 1 else 0)
  {
    if xs == [] {
      assert xs + ys == ys;
    } else {
      assert (xs + ys)[1..] == xs[1..] + ys;
      CountsAppend(xs[1..], ys, t);
    }
  }

  lemma {:induction false} InsertKeeps(x: real, ys: seq<real>)
    ensures multiset(Insert(x, ys)) == multiset(ys) + multiset{x}
    ensures |Insert(x, ys)| == |ys| + 1
  {
    if ys != [] && x > ys[0] {
      InsertKeeps(x, ys[1..]);
      assert ys == [ys[0]] + ys[1..];
    }
  }

  lemma {:induction false} InsertIsOrdered(x: real, ys: seq<real>)
    requires Ascending(ys)
    ensures Ascending(Insert(x, ys))
  {
    if ys != [] && x > ys[0] {
      var rest := Insert(x, ys[1..]);
      InsertIsOrdered(x, ys[1..]);
      InsertKeeps(x, ys[1..]);
      forall k | 0 <= k < |rest| ensures ys[0] <= rest[k] {
        assert rest[k] in multiset(rest);
        assert rest[k] in ys[1..] || rest[k] == x;
      }
    }
  }

  /** Sorting orders the samples and keeps every one of them. */
  lemma {:induction false} SortedIsOrdered(xs: seq<real>)
    ensures Ascending(Sorted(xs)) && multiset(Sorted(xs)) == multiset(xs) && |Sorted(xs)| == |xs|
  {
    if xs != [] {
      SortedIsOrdered(xs[1..]);
      InsertIsOrdered(xs[0], Sorted(xs[1..]));
      InsertKeeps(xs[0], Sorted(xs[1..]));
      assert xs == [xs[0]] + xs[1..];
    }
  }

  lemma SortedMember(xs: seq<real>, k: nat)
    requires k < |xs|
    ensures |Sorted(xs)| == |xs| && Sorted(xs)[k] in xs
  {
    SortedIsOrdered(xs);
    var v := Sorted(xs)[k];
    assert v in multiset(Sorted(xs));
  }

  lemma {:induction false} InsertCounts(x: real, ys: seq<real>, t: real)
    ensures CountOver(Insert(x, ys), t) == CountOver([x] + ys, t)
    ensures CountBelow(Insert(x, ys), t) == CountBelow([x] + ys, t)
  {
    assert ([x] + ys)[1..] == ys;
    if ys != [] && x > ys[0] {
      InsertCounts(x, ys[1..], t);
      assert ([x] + ys[1..])[1..] == ys[1..];
      assert ([ys[0]] + Insert(x, ys[1..]))[1..] == Insert(x, ys[1..]);
    }
  }

  lemma {:induction false} SortedCounts(xs: seq<real>, t: real)
    ensures CountOver(Sorted(xs), t) == CountOver(xs, t) && CountBelow(Sorted(xs), t) == CountBelow(xs, t)
  {
    if xs != [] {
      SortedCounts(xs[1..], t);
      InsertCounts(xs[0], Sorted(xs[1..]), t);
      assert ([xs[0]] + Sorted(xs[1..]))[1..] == Sorted(xs[1..]);
    }
  }

  /** When the first `m` are at most `t`, only the others can be over it; when all from `m` on are at
      least `t`, only the first `m` can be below it. */
  lemma {:induction false} CountBounds(ys: seq<real>, m: nat, t: real)
    requires m <= |ys|
    ensures (forall i :: 0 <= i < m ==> ys[i] <= t) ==> CountOver(ys, t) <= |ys| - m
    ensures (forall i :: m <= i < |ys| ==> ys[i] >= t) ==> CountBelow(ys, t) <= m
  {
    if ys != [] {
      var k := if m == 0 then 0 else m - 1;
      CountBounds(ys[1..], k, t);
      assert forall i :: 0 <= i < |ys| - 1 ==> ys[1..][i] == ys[i + 1];
    }
  }

  /** Every sample at most `v` is below `w`. */
  lemma {:induction false} CountsApart(xs: seq<real>, v: real, w: real)
    requires v < w
    ensures |xs| - CountOver(xs, v) <= CountBelow(xs, w)
  {
    if xs != [] {
      CountsApart(xs[1..], v, w);
    }
  }

  lemma {:induction false} CountOverShrinks(xs: seq<real>, t: real, u: real)
    requires t <= u
    ensures CountOver(xs, u) <= CountOver(xs, t) <= |xs|
  {
    if xs != [] {
      CountOverShrinks(xs[1..], t, u);
    }
  }

  /** The order statistic: at most `k` samples below it and at most `n - 1 - k` above. */
  predicate IsOrderStatistic(xs: seq<real>, k: nat, v: real) {
    k < |xs| && v in xs && CountBelow(xs, v) <= k && CountOver(xs, v) <= |xs| - 1 - k
  }

  lemma SortedPosition(xs: seq<real>, k: nat)
    requires k < |xs|
    ensures |Sorted(xs)| == |xs| && IsOrderStatistic(xs, k, Sorted(xs)[k])
  {
    var ys := Sorted(xs);
    SortedIsOrdered(xs);
    SortedMember(xs, k);
    CountBounds(ys, k, ys[k]);
    CountBounds(ys, k + 1, ys[k]);
    SortedCounts(xs, ys[k]);
  }

  /** There is one only, so it does not depend on how the samples are sorted. */
  lemma OrderStatisticUnique(xs: seq<real>, k: nat, v: real, w: real)
    requires IsOrderStatistic(xs, k, v) && IsOrderStatistic(xs, k, w)
    ensures v == w
  {
    if v < w {
      CountsApart(xs, v, w);
    } else if w < v {
      CountsApart(xs, w, v);
    }
  }

  // ---------------------------------------------------------------- maximum

  function Larger(a: real, b: real): real {
    if a >= b then a else b
  }

  function Max(xs: seq<real>): (m: real)
    requires xs != []
    ensures m in xs && forall x :: x in xs ==> x <= m
  {
    if |xs| == 1 then xs[0]
    else
      assert xs == [xs[0]] + xs[1..];
      Larger(xs[0], Max(xs[1..]))
  }

  /** `max`. */
  function Maximum(xs: seq<real>): Outcome<real> {
    if xs == [] then Raises else Returns(Max(xs))
  }

  // ---------------------------------------------------------------- nearest rank

  /** The smallest index whose position reaches `percent` of `n`. */
  function RankIndex(n: nat, percent: nat): nat {
    var ceiling := (n * percent + 99) / 100;
    if ceiling == 0 then 0 else ceiling - 1
  }

  /** `percentile` of the scheduling script. */
  function NearestRank(xs: seq<real>, percent: nat): Outcome<real> {
    var index := RankIndex(|xs|, percent);
    var ordered := Sorted(xs);
    if index < |ordered| then Returns(ordered[index]) else Raises
  }

  lemma RankIndexBounds(n: nat, percent: nat)
    requires n > 0 && 1 <= percent <= 100
    ensures RankIndex(n, percent) < n
    ensures 100 * RankIndex(n, percent) < n * percent <= 100 * RankIndex(n, percent) + 100
  {
    assert 0 < n * percent <= n * 100;
  }

  /** At least `percent` of the samples do not exceed `v`, and less than `percent` lie strictly below. */
  predicate IsPercentile(xs: seq<real>, percent: nat, v: real) {
    v in xs && 100 * CountBelow(xs, v) < |xs| * percent <= 100 * (|xs| - CountOver(xs, v))
  }

  lemma NearestRankIsPercentile(xs: seq<real>, percent: nat)
    requires xs != [] && 1 <= percent <= 100
    ensures NearestRank(xs, percent).Returns? && IsPercentile(xs, percent, NearestRank(xs, percent).value)
  {
    RankIndexBounds(|xs|, percent);
    SortedPosition(xs, RankIndex(|xs|, percent));
  }

  lemma PercentilesAreOrdered(xs: seq<real>, p: nat, q: nat, v: real, w: real)
    requires p <= q && IsPercentile(xs, p, v) && IsPercentile(xs, q, w)
    ensures v <= w
  {
    if w < v {
      CountsApart(xs, w, v);
      MorePercent(|xs|, p, q);
    }
  }

  lemma MorePercent(n: nat, p: nat, q: nat)
    requires p <= q
    ensures n * p <= n * q
  {
  }

  /** The nearest rank is that value and no other, however the samples are sorted. */
  lemma NearestRankExactly(xs: seq<real>, percent: nat, v: real)
    requires xs != [] && 1 <= percent <= 100
    ensures NearestRank(xs, percent) == Returns(v) <==> IsPercentile(xs, percent, v)
  {
    NearestRankIsPercentile(xs, percent);
    var w := NearestRank(xs, percent).value;
    if IsPercentile(xs, percent, v) {
      PercentilesAreOrdered(xs, percent, percent, v, w);
      PercentilesAreOrdered(xs, percent, percent, w, v);
    }
  }

  lemma NearestRankMonotone(xs: seq<real>, p: nat, q: nat)
    requires xs != [] && 1 <= p <= q <= 100
    ensures NearestRank(xs, p).Returns? && NearestRank(xs, q).Returns?
    ensures NearestRank(xs, p).value <= NearestRank(xs, q).value <= Max(xs)
    ensures NearestRank(xs, p).value in xs
  {
    NearestRankIsPercentile(xs, p);
    NearestRankIsPercentile(xs, q);
    PercentilesAreOrdered(xs, p, q, NearestRank(xs, p).value, NearestRank(xs, q).value);
  }

  // ---------------------------------------------------------------- interpolation

  lemma ProductNotNegative(a: real, b: real)
    requires a >= 0.0 && b >= 0.0
    ensures a * b >= 0.0
  {
  }

  /** `fraction` of the way from `a` to `b`. */
  function Between(a: real, b: real, fraction: real): real {
    a + (b - a) * fraction
  }

  lemma BetweenIsMonotone(a: real, b: real, f: real, g: real)
    requires a <= b && 0.0 <= f <= g <= 1.0
    ensures a <= Between(a, b, f) <= Between(a, b, g) <= b
  {
    ProductNotNegative(b - a, f);
    ProductNotNegative(b - a, g - f);
    ProductNotNegative(b - a, 1.0 - g);
  }

  /** `percentile` of the daemon-local script. */
  function Interpolated(xs: seq<real>, q: real): Outcome<real>
    requires 0.0 <= q <= 1.0
  {
    if xs == [] then Raises
    else
      SortedIsOrdered(xs);
      RankIsMonotone(|xs|, q, 1.0);
      Returns(AtRank(Sorted(xs), Rank(|xs|, q)))
  }

  function Rank(n: nat, q: real): real {
    (n - 1) as real * q
  }

  lemma RankIsMonotone(n: nat, q: real, r: real)
    requires n > 0 && 0.0 <= q <= r <= 1.0
    ensures 0.0 <= Rank(n, q) <= Rank(n, r) <= (n - 1) as real
  {
    var m := (n - 1) as real;
    ProductNotNegative(m, q);
    ProductNotNegative(m, r - q);
    ProductNotNegative(m, 1.0 - r);
  }

  function AtRank(ordered: seq<real>, rank: real): real
    requires ordered != [] && 0.0 <= rank <= (|ordered| - 1) as real
  {
    var lower := rank.Floor;
    var upper := if lower + 1 <= |ordered| - 1 then lower + 1 else |ordered| - 1;
    Between(ordered[lower], ordered[upper], rank - lower as real)
  }

  lemma AtRankIsMonotone(ordered: seq<real>, r: real, s: real)
    requires Ascending(ordered) && ordered != [] && 0.0 <= r <= s <= (|ordered| - 1) as real
    ensures ordered[0] <= AtRank(ordered, r) <= AtRank(ordered, s) <= ordered[|ordered| - 1]
  {
    var n := |ordered|;
    var k, l := r.Floor, s.Floor;
    var k', l' := if k + 1 <= n - 1 then k + 1 else n - 1, if l + 1 <= n - 1 then l + 1 else n - 1;
    var f, g := r - k as real, s - l as real;
    assert ordered[0] <= ordered[k] <= ordered[k'] <= ordered[n - 1];
    assert ordered[l] <= ordered[l'] <= ordered[n - 1];
    if k == l {
      BetweenIsMonotone(ordered[k], ordered[k'], f, g);
    } else {
      BetweenIsMonotone(ordered[k], ordered[k'], f, f);
      BetweenIsMonotone(ordered[l], ordered[l'], g, g);
      assert ordered[k'] <= ordered[l];
    }
  }

  lemma SortedExtremes(xs: seq<real>)
    requires xs != []
    ensures var ys := Sorted(xs); |ys| == |xs| && Ascending(ys) && ys[0] in xs && ys[|ys| - 1] <= Max(xs)
  {
    SortedIsOrdered(xs);
    SortedMember(xs, 0);
    SortedMember(xs, |xs| - 1);
  }

  /** Interpolated percentiles never fall as the fraction grows, and lie between the extremes. */
  lemma InterpolatedMonotone(xs: seq<real>, q: real, r: real)
    requires xs != [] && 0.0 <= q <= r <= 1.0
    ensures Interpolated(xs, q).Returns? && Interpolated(xs, r).Returns?
    ensures Interpolated(xs, q).value <= Interpolated(xs, r).value <= Max(xs)
    ensures exists low :: low in xs && low <= Interpolated(xs, q).value
  {
    SortedExtremes(xs);
    RankIsMonotone(|xs|, q, r);
    AtRankIsMonotone(Sorted(xs), Rank(|xs|, q), Rank(|xs|, r));
  }

  lemma AtRankMeans(ordered: seq<real>, rank: real, k: nat, low: real, high: real)
    requires 0.0 <= rank <= (|ordered| - 1) as real && k == rank.Floor < |ordered|
    requires low == ordered[k] && high == ordered[if k == |ordered| - 1 then k else k + 1]
    ensures AtRank(ordered, rank) == low + (high - low) * (rank - k as real)
  {
  }

  /** The interpolated percentile, without sorting: between the order statistics at the whole numbers
      around (n - 1)·q, as far as (n - 1)·q lies between them. */
  lemma InterpolatedExactly(xs: seq<real>, q: real, rank: real, k: nat, low: real, high: real)
    requires xs != [] && 0.0 <= q <= 1.0 && rank == (|xs| - 1) as real * q && k == rank.Floor
    requires IsOrderStatistic(xs, k, low) && IsOrderStatistic(xs, if k == |xs| - 1 then k else k + 1, high)
    ensures Interpolated(xs, q) == Returns(low + (high - low) * (rank - k as real))
  {
    hide Sorted, IsOrderStatistic, Ascending, AtRank;
    var upper := if k == |xs| - 1 then k else k + 1;
    assert Rank(|xs|, q) == rank;
    hide Rank;
    RankIsMonotone(|xs|, q, q);
    SortedPosition(xs, k);
    SortedPosition(xs, upper);
    OrderStatisticUnique(xs, k, low, Sorted(xs)[k]);
    OrderStatisticUnique(xs, upper, high, Sorted(xs)[upper]);
    AtRankMeans(Sorted(xs), rank, k, low, high);
  }

  lemma AtWholeRank(ordered: seq<real>, k: nat)
    requires k < |ordered|
    ensures AtRank(ordered, k as real) == ordered[k]
  {
    assert (k as real).Floor == k;
    assert Between(ordered[k], ordered[if k + 1 <= |ordered| - 1 then k + 1 else |ordered| - 1], 0.0) == ordered[k];
  }

  /** At the fraction that belongs to a sample's position the result is that order statistic. */
  lemma InterpolatedAtSample(xs: seq<real>, k: nat, q: real)
    requires k < |xs| && 0.0 <= q <= 1.0 && (|xs| - 1) as real * q == k as real
    ensures Interpolated(xs, q).Returns? && IsOrderStatistic(xs, k, Interpolated(xs, q).value)
  {
    assert Rank(|xs|, q) == k as real;
    SortedPosition(xs, k);
    AtWholeRank(Sorted(xs), k);
  }
}
