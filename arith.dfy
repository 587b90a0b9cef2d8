/** Integer arithmetic used by the aggregation code: Math.abs, Math.min and
    Math.round applied to an exact quotient. Amounts are integer cents, so
    every "round(a / b * 100)" of the application becomes Round(100 * a, b). */
module Arith {

  function Abs(x: int): (r: nat)
    ensures r == x || r == -x
  {
    if x < 0 then -x else x
  }

  function Min(a: int, b: int): (r: int)
    ensures r <= a && r <= b
    ensures r == a || r == b
  {
    if a <= b then a else b
  }

  /** Math.round(n / d) for a positive denominator: the nearest integer,
      halves rounding towards +infinity, i.e. floor(n / d + 1/2). */
  function RoundPos(n: int, d: int): (r: int)
    requires d > 0
    ensures d * (2 * r - 1) <= 2 * n < d * (2 * r + 1)
  {
    var m := 2 * n + d;
    var q := m / (2 * d);
    assert m == (2 * d) * q + m % (2 * d);
    q
  }

  /** Math.round(n / d) for any non-zero denominator. */
  function Round(n: int, d: int): (r: int)
    requires d != 0
    ensures d > 0 ==> d * (2 * r - 1) <= 2 * n < d * (2 * r + 1)
    ensures d < 0 ==> -d * (2 * r - 1) <= -2 * n < -d * (2 * r + 1)
  {
    if d > 0 then RoundPos(n, d) else RoundPos(-n, -d)
  }

  lemma MulMono(d: int, a: int, b: int)
    requires d > 0 && a <= b
    ensures d * a <= d * b
  {
    assert d * b - d * a == d * (b - a);
  }

  lemma MulStrictMono(d: int, a: int, b: int)
    requires d > 0 && a < b
    ensures d * a < d * b
  {
    assert d * b - d * a == d * (b - a);
  }

  /** The rounding characterisation determines the result: any r within
      half a unit of n / d (halves up) is Round(n, d). */
  lemma RoundUnique(n: int, d: int, r: int)
    requires d > 0
    requires d * (2 * r - 1) <= 2 * n < d * (2 * r + 1)
    ensures Round(n, d) == r
  {
    var q := Round(n, d);
    if q < r {
      MulMono(d, 2 * q + 1, 2 * r - 1);
      assert false;
    } else if q > r {
      MulMono(d, 2 * r + 1, 2 * q - 1);
      assert false;
    }
  }

  /** If n / d <= k then the rounded quotient is at most k. */
  lemma RoundAtMost(n: int, d: int, k: int)
    requires d > 0 && n <= k * d
    ensures Round(n, d) <= k
  {
    var r := Round(n, d);
    if r > k {
      MulStrictMono(d, 2 * k, 2 * r - 1);
      assert false;
    }
  }

  /** If n / d >= k then the rounded quotient is at least k. */
  lemma RoundAtLeast(n: int, d: int, k: int)
    requires d > 0 && n >= k * d
    ensures Round(n, d) >= k
  {
    var r := Round(n, d);
    if r < k {
      MulStrictMono(d, 2 * r + 1, 2 * k);
      assert false;
    }
  }

  /** A positive rounded quotient comes from a positive numerator, a
      negative one from a negative numerator. */
  lemma RoundSign(n: int, d: int)
    requires d > 0
    ensures Round(n, d) > 0 ==> n > 0
    ensures Round(n, d) < 0 ==> n < 0
    ensures n == 0 ==> Round(n, d) == 0
  {
    var r := Round(n, d);
    if r > 0 {
      assert d * (2 * r - 1) >= d * 1 by {
        if 2 * r - 1 > 1 { MulStrictMono(d, 1, 2 * r - 1); }
      }
    }
    if r < 0 {
      assert d * (2 * r + 1) <= d * (-1) by {
        if 2 * r + 1 < -1 { MulStrictMono(d, 2 * r + 1, -1); }
      }
    }
    if n == 0 {
      RoundUnique(0, d, 0);
    }
  }

  lemma MulAdd(d: int, a: int, b: int)
    ensures d * (a + b) == d * a + d * b
  {
  }

  /** Quotient and remainder are determined by n == 12 * q + r, 0 <= r < 12. */
  lemma DivModUnique(n: int, q: int, r: int)
    requires 0 <= r < 12 && n == 12 * q + r
    ensures n / 12 == q && n % 12 == r
  {
  }
}
