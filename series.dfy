/** Sums, means and extrema of price series, and the 64-bit arithmetic the
    services use on volumes: the arithmetic every indicator is built from. */
module Series {

  /** The sum of the prices, added oldest first as the services' loops do. */
  function Sum(s: seq<real>): real
  {
    if |s| == 0 then 0.0 else Sum(s[..|s| - 1]) + s[|s| - 1]
  }

  /** The arithmetic mean of a non-empty window of prices. */
  function Mean(s: seq<real>): real
    requires |s| > 0
  {
    Sum(s) / (|s| as real)
  }

  /** Collections.max over a non-empty list: an element that no element exceeds. */
  function Max(s: seq<real>): (m: real)
    requires |s| > 0
    ensures m in s
    ensures forall i :: 0 <= i < |s| ==> s[i] <= m
  {
    if |s| == 1 then s[0]
    else
      var rest := Max(s[..|s| - 1]);
      assert rest in s[..|s| - 1];
      if s[|s| - 1] > rest then s[|s| - 1] else rest
  }

  /** Collections.min over a non-empty list: an element that exceeds no element. */
  function Min(s: seq<real>): (m: real)
    requires |s| > 0
    ensures m in s
    ensures forall i :: 0 <= i < |s| ==> m <= s[i]
  {
    if |s| == 1 then s[0]
    else
      var rest := Min(s[..|s| - 1]);
      assert rest in s[..|s| - 1];
      if s[|s| - 1] < rest then s[|s| - 1] else rest
  }

  /** Adding one more price to a running sum. */
  lemma SumSnoc(s: seq<real>, x: real)
    ensures Sum(s + [x]) == Sum(s) + x
  {
    assert (s + [x])[..|s|] == s;
  }

  /** A sum of prices that all lie in [lo, hi] lies between n * lo and n * hi. */
  lemma {:induction false} SumBounds(s: seq<real>, lo: real, hi: real)
    requires forall i :: 0 <= i < |s| ==> lo <= s[i] <= hi
    ensures (|s| as real) * lo <= Sum(s) <= (|s| as real) * hi
  {
    if |s| > 0 {
      SumBounds(s[..|s| - 1], lo, hi);
      assert (|s| as real) * lo == ((|s| - 1) as real) * lo + lo;
      assert (|s| as real) * hi == ((|s| - 1) as real) * hi + hi;
    }
  }

  /** The mean of a window lies between the window's minimum and maximum. */
  lemma {:induction false} MeanBounds(s: seq<real>)
    requires |s| > 0
    ensures Min(s) <= Mean(s) <= Max(s)
  {
    var n, lo, hi := |s| as real, Min(s), Max(s);
    SumBounds(s, lo, hi);
    DivisionBounds(Sum(s), n, lo, hi);
  }

  /** Dividing n * lo <= a <= n * hi by a positive n. */
  lemma DivisionBounds(a: real, n: real, lo: real, hi: real)
    requires n > 0.0
    requires n * lo <= a <= n * hi
    ensures lo <= a / n <= hi
  {
  }

  // ---------------------------------------------------------------------
  // Java `long` arithmetic on volumes

  const LongMin: int := -0x8000_0000_0000_0000
  const LongMax: int := 0x7FFF_FFFF_FFFF_FFFF

  /** A Java `long` value. */
  predicate IsLong(x: int) { LongMin <= x <= LongMax }

  /** Two's-complement wrap-around of an exact integer into the `long` range. */
  function WrapLong(x: int): (r: int)
    ensures IsLong(r)
    ensures IsLong(x) ==> r == x
    ensures (r - x) % 0x1_0000_0000_0000_0000 == 0
  {
    (x - LongMin) % 0x1_0000_0000_0000_0000 + LongMin
  }

  /** The exact sum of the volumes. */
  function IntSum(s: seq<int>): int
  {
    if |s| == 0 then 0 else IntSum(s[..|s| - 1]) + s[|s| - 1]
  }

  /** LongStream.sum: the volumes added oldest first, each addition wrapping. */
  function LongSum(s: seq<int>): (r: int)
    ensures IsLong(r)
  {
    if |s| == 0 then 0 else WrapLong(LongSum(s[..|s| - 1]) + s[|s| - 1])
  }

  /** Java's `/` on `long`: truncates toward zero (Dafny's `/` is Euclidean). */
  function JavaDivide(a: int, b: int): (q: int)
    requires b > 0
    ensures a >= 0 ==> q * b <= a < (q + 1) * b
    ensures a < 0 ==> (q - 1) * b < a <= q * b
  {
    if a >= 0 then a / b else -((-a) / b)
  }

  /** The sum of non-negative volumes is non-negative and bounds each prefix sum. */
  lemma {:induction false} IntSumNonNegative(s: seq<int>)
    requires forall i :: 0 <= i < |s| ==> s[i] >= 0
    ensures IntSum(s) >= 0
    ensures forall k :: 0 <= k <= |s| ==> IntSum(s[..k]) <= IntSum(s)
  {
    if |s| > 0 {
      var p := s[..|s| - 1];
      IntSumNonNegative(p);
      forall k | 0 <= k <= |s| ensures IntSum(s[..k]) <= IntSum(s) {
        if k < |s| {
          assert s[..k] == p[..k];
        } else {
          assert s[..k] == s;
        }
      }
    }
  }

  /** While the running total of non-negative volumes fits in a `long`,
      LongStream.sum never wraps and is the exact sum. */
  lemma {:induction false} LongSumIsExact(s: seq<int>)
    requires forall i :: 0 <= i < |s| ==> s[i] >= 0
    requires IntSum(s) <= LongMax
    ensures LongSum(s) == IntSum(s)
  {
    if |s| > 0 {
      var p := s[..|s| - 1];
      IntSumNonNegative(p);
      assert IntSum(p) <= IntSum(s);
      LongSumIsExact(p);
    }
  }
}
