/** Swift's numeric conversions used by the core, written out over unbounded
    integers and reals. Floating-point rounding of the operations themselves is
    not modelled: a Swift `Double` is a `real` here. */
module Numeric {

  /** `Int(x)` for a `Double`: the integer part, truncating toward zero.
      (Swift traps on NaN, infinities and values outside `Int`; the model's
      reals have none of the first two and no bound.) */
  function TruncateToInt(x: real): (r: int)
    ensures 0.0 <= x ==> r as real <= x < r as real + 1.0
    ensures x < 0.0 ==> r as real - 1.0 < x <= r as real
  {
    if x >= 0.0 then x.Floor else -((-x).Floor)
  }

  /** `NSNumber.int16Value` of an integral number: the low 16 bits read as a
      two's-complement value. */
  function Int16Value(x: int): (r: int)
    ensures -0x8000 <= r < 0x8000
    ensures (x - r) % 0x1_0000 == 0
    ensures -0x8000 <= x < 0x8000 ==> r == x
  {
    (x + 0x8000) % 0x1_0000 - 0x8000
  }

  /** `x.rounded()`: to the nearest integer, halfway cases away from zero. */
  function RoundedHalfAway(x: real): (r: int)
    ensures x - 0.5 <= r as real <= x + 0.5
    ensures 0.0 <= x ==> r as real != x - 0.5
    ensures x < 0.0 ==> r as real != x + 0.5
  {
    if x >= 0.0 then (x + 0.5).Floor else -((-x + 0.5).Floor)
  }

  /** `xs.reduce(0, +)` */
  function Sum(xs: seq<real>): real {
    if xs == [] then 0.0 else xs[0] + Sum(xs[1..])
  }

  /** `xs.reduce(0, +) / Double(xs.count)` */
  function Mean(xs: seq<real>): real
    requires |xs| > 0
  {
    Sum(xs) / (|xs| as real)
  }

  lemma {:induction false} SumBounded(xs: seq<real>, lo: real, hi: real)
    requires forall i :: 0 <= i < |xs| ==> lo <= xs[i] <= hi
    ensures (|xs| as real) * lo <= Sum(xs) <= (|xs| as real) * hi
  {
    if xs != [] {
      SumBounded(xs[1..], lo, hi);
      assert (|xs| as real) * lo == lo + ((|xs| - 1) as real) * lo;
      assert (|xs| as real) * hi == hi + ((|xs| - 1) as real) * hi;
    }
  }

  /** A mean lies between the least and the greatest of the values averaged. */
  lemma MeanBounded(xs: seq<real>, lo: real, hi: real)
    requires |xs| > 0
    requires forall i :: 0 <= i < |xs| ==> lo <= xs[i] <= hi
    ensures lo <= Mean(xs) <= hi
  {
    SumBounded(xs, lo, hi);
    QuotientBounded(Sum(xs), |xs| as real, lo, hi);
  }

  lemma QuotientBounded(a: real, n: real, lo: real, hi: real)
    requires n > 0.0 && n * lo <= a <= n * hi
    ensures lo <= a / n <= hi
  {
    assert a / n * n == a;
  }

  /** The mean does not depend on the order of the values: Swift dictionaries
      give their values in no fixed order. */
  lemma {:induction false} SumOfPermutation(xs: seq<real>, ys: seq<real>)
    requires multiset(xs) == multiset(ys)
    ensures Sum(xs) == Sum(ys)
    decreases |xs|
  {
    if xs != [] {
      var x := xs[0];
      assert x in multiset(ys);
      var k :| 0 <= k < |ys| && ys[k] == x;
      var rest := ys[..k] + ys[k + 1..];
      RemoveAt(xs, ys, k);
      SumOfPermutation(xs[1..], rest);
      SumRemoveAt(ys, k);
    }
  }

  lemma RemoveAt(xs: seq<real>, ys: seq<real>, k: nat)
    requires xs != [] && k < |ys| && ys[k] == xs[0]
    requires multiset(xs) == multiset(ys)
    ensures multiset(xs[1..]) == multiset(ys[..k] + ys[k + 1..])
  {
    assert xs == [xs[0]] + xs[1..];
    assert ys == ys[..k] + [ys[k]] + ys[k + 1..];
    assert multiset(xs[1..]) == multiset(xs) - multiset{xs[0]};
    assert multiset(ys[..k] + ys[k + 1..]) == multiset(ys) - multiset{ys[k]};
  }

  lemma SumRemoveAt(ys: seq<real>, k: nat)
    requires k < |ys|
    ensures Sum(ys) == ys[k] + Sum(ys[..k] + ys[k + 1..])
  {
    assert ys == ys[..k] + ys[k..];
    SumSplit(ys[..k], ys[k..]);
    assert ys[k..][1..] == ys[k + 1..];
    assert Sum(ys[k..]) == ys[k] + Sum(ys[k + 1..]);
    SumSplit(ys[..k], ys[k + 1..]);
  }

  lemma {:induction false} SumSplit(xs: seq<real>, ys: seq<real>)
    ensures Sum(xs + ys) == Sum(xs) + Sum(ys)
  {
    if xs != [] {
      assert (xs + ys)[1..] == xs[1..] + ys;
      SumSplit(xs[1..], ys);
    } else {
      assert xs + ys == ys;
    }
  }
}
