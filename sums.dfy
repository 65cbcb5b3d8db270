// `sum` of the renderer and the facts about integer means that the centroid
// reduction relies on. Go's int is 64 bits wide; the sums here are bounded
// by width * height, far inside that range, so they are unbounded integers.

module Sums {

  /** Reference sum of a sequence, accumulated from the front. */
  function SeqSum(s: seq<int>): int
  {
    if |s| == 0 then 0 else SeqSum(s[..|s| - 1]) + s[|s| - 1]
  }

  /** sum: adds the elements in order. */
  method Sum(arr: seq<int>) returns (result: int)
    ensures result == SeqSum(arr)
  {
    result := 0;
    var i := 0;
    while i < |arr|
      invariant 0 <= i <= |arr|
      invariant result == SeqSum(arr[..i])
    {
      assert arr[..i + 1][..i] == arr[..i];
      result := result + arr[i];
      i := i + 1;
    }
    assert arr[..i] == arr;
  }

  /** Every element in [0, w) puts the sum in [0, (w - 1) * |s|]. */
  lemma {:induction false} SumBounds(s: seq<int>, w: int)
    requires forall i :: 0 <= i < |s| ==> 0 <= s[i] < w
    ensures 0 <= SeqSum(s) <= (w - 1) * |s|
  {
    if |s| > 0 {
      SumBounds(s[..|s| - 1], w);
      assert (w - 1) * |s| == (w - 1) * (|s| - 1) + (w - 1);
    }
  }

  /** A positive factor of at least one keeps a positive number at least as large. */
  lemma ScaleAtLeast(k: int, b: int)
    requires k >= 1 && b > 0
    ensures k * b >= b
  {
    assert k * b == (k - 1) * b + b;
    assert (k - 1) * b >= 0;
  }

  /** The quotient that brackets a by multiples of b is a / b. */
  lemma QuotientUnique(a: int, b: int, q: int)
    requires 0 < b && q * b <= a < q * b + b
    ensures a / b == q
  {
    var q', r' := a / b, a % b;
    assert a == q' * b + r' && 0 <= r' < b;
    if q' > q {
      ScaleAtLeast(q' - q, b);
    } else if q' < q {
      ScaleAtLeast(q - q', b);
    }
  }

  /** A quotient is at most any m with a <= m * b. */
  lemma QuotientAtMost(a: int, b: int, m: int)
    requires 0 < b && a <= m * b
    ensures a / b <= m
  {
    var q := a / b;
    assert q * b <= a;
    if q > m {
      ScaleAtLeast(q - m, b);
    }
  }

  /** Go's integer division by a positive divisor, which truncates toward zero. */
  function DivTrunc(a: int, n: int): int
    requires n > 0
  {
    if a >= 0 then a / n else -((-a) / n)
  }

  /** sum(s) / len(s) on a non-empty sequence. */
  function Mean(s: seq<int>): int
    requires |s| > 0
  {
    DivTrunc(SeqSum(s), |s|)
  }

  /** The integer mean of a non-empty sequence of values in [0, w) is in [0, w). */
  lemma MeanBounds(s: seq<int>, w: int)
    requires |s| > 0
    requires forall i :: 0 <= i < |s| ==> 0 <= s[i] < w
    ensures 0 <= Mean(s) < w
  {
    SumBounds(s, w);
    QuotientAtMost(SeqSum(s), |s|, w - 1);
  }

  /** n copies of c. */
  function Repeat(c: int, n: nat): (s: seq<int>)
    ensures |s| == n && forall i :: 0 <= i < n ==> s[i] == c
  {
    seq(n, _ => c)
  }

  /** The indices 0 .. h - 1. */
  function Indices(h: nat): (s: seq<int>)
    ensures |s| == h && forall i :: 0 <= i < h ==> s[i] == i
  {
    seq(h, i => i)
  }

  /** A sequence of n copies of c sums to c * n. */
  lemma {:induction false} ConstantSum(c: int, n: nat)
    ensures SeqSum(Repeat(c, n)) == c * n
  {
    if n > 0 {
      var s := Repeat(c, n);
      assert s[..n - 1] == Repeat(c, n - 1);
      ConstantSum(c, n - 1);
      assert c * n == c * (n - 1) + c;
    }
  }

  /** The integer mean of n > 0 copies of c is c. */
  lemma ConstantMean(c: int, n: nat)
    requires n > 0
    ensures Mean(Repeat(c, n)) == c
  {
    ConstantSum(c, n);
    if c >= 0 {
      QuotientUnique(c * n, n, c);
    } else {
      assert -(c * n) == (-c) * n;
      QuotientUnique((-c) * n, n, -c);
    }
  }

  /** The row indices 0 .. h - 1 sum to h * (h - 1) / 2. */
  lemma {:induction false} IndexSum(h: nat)
    ensures 2 * SeqSum(Indices(h)) == h * (h - 1)
  {
    if h > 0 {
      var s := Indices(h);
      assert s[..h - 1] == Indices(h - 1);
      IndexSum(h - 1);
      assert h * (h - 1) == (h - 1) * (h - 2) + 2 * (h - 1);
    }
  }

  /** h * (h - 1) for an even h = 2m, written around the multiple (m - 1) * h. */
  lemma EvenProduct(h: int, m: int)
    requires h == 2 * m && m >= 1
    ensures h * (h - 1) == 2 * ((m - 1) * h + m) && (m - 1) * h >= 0
  {
  }

  /** h * (h - 1) for an odd h = 2m + 1, written as a multiple of h. */
  lemma OddProduct(h: int, m: int)
    requires h == 2 * m + 1 && m >= 0
    ensures h * (h - 1) == 2 * (m * h) && m * h >= 0
  {
  }

  /** The integer mean of the row indices 0 .. h - 1 is (h - 1) / 2. */
  lemma MeanIndex(h: nat)
    requires h > 0
    ensures Mean(Indices(h)) == (h - 1) / 2
  {
    IndexSum(h);
    var t := SeqSum(Indices(h));
    var m := h / 2;
    if h % 2 == 0 {
      EvenProduct(h, m);
      QuotientUnique(t, h, m - 1);
    } else {
      OddProduct(h, m);
      QuotientUnique(t, h, m);
    }
  }
}
