/**
 * The array reductions the generator applies to a price or volume series
 * (minimum, maximum, sum and arithmetic mean), over exact reals.
 */
module Reductions {

  /** Smallest element of a non-empty series. */
  function Min(s: seq<real>): (m: real)
    requires |s| > 0
    ensures m in s
    ensures forall i :: 0 <= i < |s| ==> m <= s[i]
  {
    if |s| == 1 then s[0]
    else
      var rest := Min(s[1..]);
      if s[0] <= rest then s[0] else rest
  }

  /** Largest element of a non-empty series. */
  function Max(s: seq<real>): (m: real)
    requires |s| > 0
    ensures m in s
    ensures forall i :: 0 <= i < |s| ==> s[i] <= m
  {
    if |s| == 1 then s[0]
    else
      var rest := Max(s[1..]);
      if s[0] >= rest then s[0] else rest
  }

  function Sum(s: seq<real>): real
  {
    if s == [] then 0.0 else s[0] + Sum(s[1..])
  }

  /** A sum of terms that each lie in [lo, hi] lies between its length times lo and its length times hi. */
  lemma {:induction false} SumWithin(s: seq<real>, lo: real, hi: real)
    requires forall i :: 0 <= i < |s| ==> lo <= s[i] <= hi
    ensures |s| as real * lo <= Sum(s) <= |s| as real * hi
  {
    if s != [] {
      SumWithin(s[1..], lo, hi);
      assert |s| as real * lo == lo + (|s| - 1) as real * lo;
      assert |s| as real * hi == hi + (|s| - 1) as real * hi;
    }
  }

  lemma DivideWithin(x: real, n: real, lo: real, hi: real)
    requires n > 0.0 && n * lo <= x <= n * hi
    ensures lo <= x / n <= hi
  {
    assert x / n * n == x;
  }

  /** The average of a non-empty series whose terms each lie in [lo, hi] lies in [lo, hi] too. */
  lemma AverageWithin(s: seq<real>, lo: real, hi: real)
    requires |s| > 0
    requires forall i :: 0 <= i < |s| ==> lo <= s[i] <= hi
    ensures lo <= Sum(s) / |s| as real <= hi
  {
    SumWithin(s, lo, hi);
    DivideWithin(Sum(s), |s| as real, lo, hi);
  }

  /** Arithmetic mean of a non-empty series; it never leaves the series' range. */
  function Mean(s: seq<real>): (r: real)
    requires |s| > 0
    ensures Min(s) <= r <= Max(s)
  {
    AverageWithin(s, Min(s), Max(s));
    Sum(s) / |s| as real
  }
}
