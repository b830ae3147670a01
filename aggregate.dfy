/** The `$avg` accumulator of the store's aggregation pipeline over integer
    values, and the two-decimal rounding applied to a mean. A mean is kept
    exactly, as a total and a count; a rounded mean is kept in hundredths. */
module Aggregate {
  import opened Common

  function Sum(xs: seq<int>): int {
    if |xs| == 0 then 0 else Sum(xs[..|xs| - 1]) + xs[|xs| - 1]
  }

  /** `total / count`, with `count > 0`. */
  datatype Mean = Mean(total: int, count: nat)

  /** The mean of a group: None for an empty group, which yields no
      aggregation result at all. */
  function Average(xs: seq<int>): (r: Option<Mean>)
    ensures r.None? <==> xs == []
    ensures r.Some? ==> r.value.count == |xs| > 0 && r.value.total == Sum(xs)
  {
    if xs == [] then None else Some(Mean(Sum(xs), |xs|))
  }

  lemma SumAppend(xs: seq<int>, x: int)
    ensures Sum(xs + [x]) == Sum(xs) + x
  {
    assert (xs + [x])[..|xs|] == xs;
  }

  /** Values between `lo` and `hi` have a total between `lo` and `hi`
      times their number. */
  lemma {:induction false} SumBounds(xs: seq<int>, lo: int, hi: int)
    requires forall k :: 0 <= k < |xs| ==> lo <= xs[k] <= hi
    ensures lo * |xs| <= Sum(xs) <= hi * |xs|
  {
    if |xs| > 0 {
      var init := xs[..|xs| - 1];
      SumBounds(init, lo, hi);
      assert lo * |xs| == lo * |init| + lo;
      assert hi * |xs| == hi * |init| + hi;
    }
  }

  /** `Math.round(100 * total / count)`: the number of hundredths nearest to
      the mean, halves rounded up. */
  function RoundedHundredths(total: int, count: nat): (r: int)
    requires count > 0
    ensures 2 * count * r - count <= 200 * total < 2 * count * r + count
  {
    var d := 2 * count;
    var x := 200 * total + count;
    var r := x / d;
    assert d * r <= x < d * r + d;
    assert 2 * count * r == d * r;
    r
  }

  /** A multiple `c * a` of a positive `c` that is below `c` has `a < 1`. */
  lemma BelowFactor(c: int, a: int)
    requires c > 0 && c * a < c
    ensures a < 1
  {
  }

  /** The rounding is the only integer within half a hundredth of the mean
      (from below, inclusive). */
  lemma RoundedUnique(total: int, count: nat, r: int)
    requires count > 0
    requires 2 * count * r - count <= 200 * total < 2 * count * r + count
    ensures r == RoundedHundredths(total, count)
  {
    var q := RoundedHundredths(total, count);
    var c := 2 * count;
    assert c * (r - q) == 2 * count * r - 2 * count * q;
    assert c * (q - r) == 2 * count * q - 2 * count * r;
    BelowFactor(c, r - q);
    BelowFactor(c, q - r);
  }

  /** A mean between `lo` and `hi` rounds to between `100 * lo` and
      `100 * hi` hundredths. */
  lemma RoundedWithin(total: int, count: nat, lo: int, hi: int)
    requires count > 0
    requires lo * count <= total <= hi * count
    ensures 100 * lo <= RoundedHundredths(total, count) <= 100 * hi
  {
    var r := RoundedHundredths(total, count);
    var c := 2 * count;
    assert c * (r - 100 * hi) == 2 * count * r - 200 * (hi * count);
    assert c * (100 * lo - r) == 200 * (lo * count) - 2 * count * r;
    BelowFactor(c, r - 100 * hi);
    BelowFactor(c, 100 * lo - r);
  }
}
