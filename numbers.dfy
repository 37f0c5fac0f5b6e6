/** Integer arithmetic shared by the pages that show percentages. */
module Numbers {
  import opened Wrappers

  /** `r` is `num / den` rounded to the nearest integer, ties rounded up:
      `r - 1/2 <= num / den < r + 1/2`. */
  predicate RoundsTo(r: int, num: int, den: int) {
    (2 * r - 1) * den <= 2 * num < (2 * r + 1) * den
  }

  /** At most one integer is the rounded quotient. */
  lemma RoundsToUnique(r1: int, r2: int, num: int, den: int)
    requires den > 0 && RoundsTo(r1, num, den) && RoundsTo(r2, num, den)
    ensures r1 == r2
  {
    if r1 < r2 {
      assert (2 * r1 + 1) * den <= (2 * r2 - 1) * den by {
        assert 2 * r1 + 1 <= 2 * r2 - 1;
        MultiplyMonotone(2 * r1 + 1, 2 * r2 - 1, den);
      }
    } else if r2 < r1 {
      assert (2 * r2 + 1) * den <= (2 * r1 - 1) * den by {
        assert 2 * r2 + 1 <= 2 * r1 - 1;
        MultiplyMonotone(2 * r2 + 1, 2 * r1 - 1, den);
      }
    }
  }

  lemma MultiplyMonotone(a: int, b: int, d: int)
    requires d > 0 && a <= b
    ensures a * d <= b * d
  {
  }

  /** `Math.round(num / den)` on the exact rational: the nearest integer,
      ties rounded up. */
  function RoundHalfUp(num: int, den: int): (r: int)
    requires den > 0
    ensures RoundsTo(r, num, den)
  {
    var x, d := 2 * num + den, 2 * den;
    var q := x / d;
    assert q * d <= x < q * d + d;
    q
  }

  /** A rounded quotient stays between any integer bounds of the exact quotient. */
  lemma RoundHalfUpBetween(num: int, den: int, lo: int, hi: int)
    requires den > 0
    requires lo * den <= num <= hi * den
    ensures lo <= RoundHalfUp(num, den) <= hi
  {
    var r := RoundHalfUp(num, den);
    assert RoundsTo(r, num, den);
    assert (2 * r - 1) * den <= (2 * hi) * den;
    CancelFactor(2 * r - 1, 2 * hi, den);
    assert (2 * lo) * den < (2 * r + 1) * den;
    CancelFactorStrict(2 * lo, 2 * r + 1, den);
  }

  lemma CancelFactor(a: int, b: int, d: int)
    requires d > 0 && a * d <= b * d
    ensures a <= b
  {
  }

  lemma CancelFactorStrict(a: int, b: int, d: int)
    requires d > 0 && a * d < b * d
    ensures a < b
  {
  }

  /** An exact quotient is returned unchanged. */
  lemma RoundHalfUpExact(k: int, den: int)
    requires den > 0
    ensures RoundHalfUp(k * den, den) == k
  {
    RoundHalfUpBetween(k * den, den, k, k);
  }

  /** `Math.round(count / total * 100)`: a percentage in 0..100, 0 for none
      and 100 for all. */
  function Percent(count: nat, total: nat): (p: nat)
    requires count <= total && total > 0
    ensures p <= 100
    ensures count == 0 ==> p == 0
    ensures count == total ==> p == 100
    ensures RoundsTo(p, 100 * count, total)
  {
    RoundHalfUpBetween(100 * count, total, 0, 100);
    assert count == 0 ==> RoundHalfUp(100 * count, total) == 0 by {
      if count == 0 { RoundHalfUpExact(0, total); }
    }
    assert count == total ==> RoundHalfUp(100 * count, total) == 100 by {
      if count == total { RoundHalfUpExact(100, total); }
    }
    RoundHalfUp(100 * count, total)
  }

  function Sum(xs: seq<nat>): nat {
    if xs == [] then 0 else Sum(xs[..|xs| - 1]) + xs[|xs| - 1]
  }

  lemma {:induction false} SumBounds(xs: seq<nat>, lo: nat, hi: nat)
    requires forall i :: 0 <= i < |xs| ==> lo <= xs[i] <= hi
    ensures lo * |xs| <= Sum(xs) <= hi * |xs|
  {
    if xs != [] {
      var init := xs[..|xs| - 1];
      SumBounds(init, lo, hi);
      assert Sum(xs) == Sum(init) + xs[|xs| - 1];
      assert lo * |xs| == lo * |init| + lo;
      assert hi * |xs| == hi * |init| + hi;
    }
  }

  /** `x?.length || 0` for each list. */
  function Lengths<E>(lists: seq<Option<seq<E>>>): (r: seq<nat>)
    ensures |r| == |lists|
    ensures forall i :: 0 <= i < |lists| ==> r[i] == if lists[i].Some? then |lists[i].value| else 0
  {
    seq(|lists|, i requires 0 <= i < |lists| => if lists[i].Some? then |lists[i].value| else 0)
  }

  /** `list.reduce((acc, x) => acc + (x?.length || 0), 0)`: the total length,
      a missing list counting 0. */
  function SumLengths<E>(lists: seq<Option<seq<E>>>): (n: nat)
    ensures n == Sum(Lengths(lists))
    ensures lists == [] ==> n == 0
    ensures forall i :: 0 <= i < |lists| && lists[i].Some? ==> |lists[i].value| <= n
  {
    if lists == [] then 0
    else
      var init := lists[..|lists| - 1];
      var rest := SumLengths(init);
      assert forall i :: 0 <= i < |init| ==> init[i] == lists[i];
      assert Lengths(lists)[..|lists| - 1] == Lengths(init);
      rest + (match lists[|lists| - 1] case None => 0 case Some(l) => |l|)
  }

  /** `Math.round(sum / n)` of a list of percentages, 0 for an empty list:
      again a percentage, and a shared value when all agree. */
  function RoundedMean(xs: seq<nat>): (m: nat)
    requires forall i :: 0 <= i < |xs| ==> xs[i] <= 100
    ensures m <= 100
    ensures xs == [] ==> m == 0
    ensures xs != [] ==> RoundsTo(m, Sum(xs), |xs|)
    ensures xs != [] && (forall i :: 0 <= i < |xs| ==> xs[i] == xs[0]) ==> m == xs[0]
  {
    if xs == [] then 0
    else
      SumBounds(xs, 0, 100);
      RoundHalfUpBetween(Sum(xs), |xs|, 0, 100);
      assert (forall i :: 0 <= i < |xs| ==> xs[i] == xs[0]) ==> RoundHalfUp(Sum(xs), |xs|) == xs[0] by {
        if forall i :: 0 <= i < |xs| ==> xs[i] == xs[0] {
          SumBounds(xs, xs[0], xs[0]);
          RoundHalfUpExact(xs[0], |xs|);
        }
      }
      RoundHalfUp(Sum(xs), |xs|)
  }
}
