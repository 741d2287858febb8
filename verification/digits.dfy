/**
 * Positional notation: the value of a sequence of digits (most significant first)
 * in a given base. The columns may hold values larger than a digit, which is how the
 * "Vedic" tricks write intermediate results before carrying.
 */
module Digits {

  function Pow(b: int, n: nat): int {
    if n == 0 then 1 else b * Pow(b, n - 1)
  }

  /** The value of the columns `ds`, most significant first. */
  function Value(ds: seq<int>, base: int): int {
    if ds == [] then 0 else Value(ds[..|ds| - 1], base) * base + ds[|ds| - 1]
  }

  predicate IsDigits(ds: seq<int>, base: int) {
    forall i :: 0 <= i < |ds| ==> 0 <= ds[i] < base
  }

  /** Column-wise sum of two rows of the same width. */
  function AddColumns(xs: seq<int>, ys: seq<int>): (r: seq<int>)
    requires |xs| == |ys|
    ensures |r| == |xs|
    ensures forall i :: 0 <= i < |r| ==> r[i] == xs[i] + ys[i]
  {
    seq(|xs|, i requires 0 <= i < |xs| => xs[i] + ys[i])
  }

  lemma {:induction false} PowPositive(b: int, n: nat)
    requires b >= 1
    ensures Pow(b, n) >= 1
  {
    if n > 0 {
      PowPositive(b, n - 1);
    }
  }

  /** Every row of n digits lies in [0, base^n). */
  lemma {:induction false} ValueBounds(ds: seq<int>, base: int)
    requires base >= 2 && IsDigits(ds, base)
    ensures 0 <= Value(ds, base) < Pow(base, |ds|)
  {
    if ds != [] {
      var init := ds[..|ds| - 1];
      assert IsDigits(init, base);
      ValueBounds(init, base);
      var v := Value(init, base);
      var p := Pow(base, |init|);
      MulBelow(v, p, base, ds[|ds| - 1]);
    }
  }

  /** From 0 <= v < p and 0 <= d < b follows 0 <= v * b + d < p * b. */
  lemma MulBelow(v: int, p: int, b: int, d: int)
    requires 0 <= v < p && 0 <= d < b
    ensures 0 <= v * b + d < b * p
  {
    assert v * b <= (p - 1) * b;
    assert (p - 1) * b == p * b - b;
  }

  /** Value is linear in the columns. */
  lemma {:induction false} ValueAddColumns(xs: seq<int>, ys: seq<int>, base: int)
    requires |xs| == |ys|
    ensures Value(AddColumns(xs, ys), base) == Value(xs, base) + Value(ys, base)
  {
    if xs != [] {
      var n := |xs| - 1;
      assert AddColumns(xs, ys)[..n] == AddColumns(xs[..n], ys[..n]);
      ValueAddColumns(xs[..n], ys[..n], base);
    }
  }

  /** Appending a zero column multiplies by the base. */
  lemma ValueShift(xs: seq<int>, base: int)
    ensures Value(xs + [0], base) == Value(xs, base) * base
  {
    assert (xs + [0])[..|xs|] == xs;
  }

  /** A leading zero column changes nothing. */
  lemma {:induction false} ValueLeadingZero(xs: seq<int>, base: int)
    ensures Value([0] + xs, base) == Value(xs, base)
  {
    if xs != [] {
      var n := |xs| - 1;
      assert ([0] + xs)[..n + 1] == [0] + xs[..n];
      ValueLeadingZero(xs[..n], base);
    }
  }
}
