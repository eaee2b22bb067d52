// Python's numeric built-ins on reals: abs, max, min, int() (truncation
// toward zero), round() to an integer (half to even), and the `_cap` clamp
// that several of the points models define.
module Arith {

  function Abs(x: real): (r: real)
    ensures r >= 0.0 && (r == x || r == -x)
  {
    if x < 0.0 then -x else x
  }

  function Max(a: real, b: real): (r: real)
    ensures r >= a && r >= b && (r == a || r == b)
  {
    if a >= b then a else b
  }

  function Min(a: real, b: real): (r: real)
    ensures r <= a && r <= b && (r == a || r == b)
  {
    if a <= b then a else b
  }

  lemma MinMonotone(a: real, b: real, c: real)
    requires a <= b
    ensures Min(a, c) <= Min(b, c)
  {
  }

  /** max(lo, min(hi, v)). */
  function Cap(v: real, lo: real, hi: real): (r: real)
    ensures lo <= hi ==> lo <= r <= hi
    ensures lo <= v <= hi ==> r == v
    ensures v < lo ==> r == lo
    ensures lo <= hi && hi < v ==> r == hi
  {
    Max(lo, Min(hi, v))
  }

  /** The same clamp on integers. */
  function CapInt(v: int, lo: int, hi: int): (r: int)
    ensures lo <= hi ==> lo <= r <= hi
    ensures lo <= v <= hi ==> r == v
    ensures v < lo ==> r == lo
    ensures lo <= hi && hi < v ==> r == hi
  {
    if v < lo then lo else if v > hi then (if lo > hi then lo else hi) else v
  }

  lemma CapMonotone(v: real, w: real, lo: real, hi: real)
    requires v <= w
    ensures Cap(v, lo, hi) <= Cap(w, lo, hi)
  {
  }

  /** int(x) for a float: truncation toward zero. */
  function Trunc(x: real): (n: int)
    ensures x >= 0.0 ==> 0 <= n && n as real <= x < n as real + 1.0
    ensures x < 0.0 ==> n <= 0 && n as real - 1.0 < x <= n as real
  {
    if x >= 0.0 then x.Floor else -((-x).Floor)
  }

  /** round(x) with no digits: the nearest integer, ties to the even one. */
  function RoundHalfEven(x: real): (n: int)
    ensures x - 0.5 <= n as real <= x + 0.5
    ensures n as real == x - 0.5 || n as real == x + 0.5 ==> n % 2 == 0
  {
    var f := x.Floor;
    var d := x - f as real;
    if d < 0.5 then f
    else if d > 0.5 then f + 1
    else if f % 2 == 0 then f else f + 1
  }

  lemma MulMonotone(d: real, a: real, b: real)
    requires d >= 0.0 && a <= b
    ensures d * a <= d * b
  {
    assert d * b - d * a == d * (b - a);
    assert d * (b - a) >= 0.0;
  }

  lemma MulPositive(a: real, b: real)
    requires a > 0.0 && b > 0.0
    ensures a * b > 0.0
  {
  }

  lemma MulNonNegative(a: real, b: real)
    requires a >= 0.0 && b >= 0.0
    ensures a * b >= 0.0
  {
  }

  /** A product with a non-negative pair of factors grows with its third factor. */
  lemma ProductMonotone(b: real, m: real, c: real, c': real)
    requires b >= 0.0 && m >= 0.0 && c <= c'
    ensures b * m * c <= b * m * c'
  {
    MulNonNegative(b, m);
    MulMonotone(b * m, c, c');
  }

  lemma MinuteScaleBounds(b: real, m: real)
    requires b >= 0.0 && 0.85 <= m <= 1.15
    ensures 0.85 * b <= b * m <= 1.15 * b
  {
    MulMonotone(b, 0.85, m);
    MulMonotone(b, m, 1.15);
  }

  lemma BumpBounds(b: real, c: real)
    requires b >= 0.0 && 0.8 <= c <= 1.2
    ensures 0.8 * b <= b * c <= 1.2 * b
  {
    MulMonotone(b, 0.8, c);
    MulMonotone(b, c, 1.2);
  }

  /** The product of a non-negative base with factors in [0.85, 1.15] and [0.8, 1.2]. */
  lemma ProductBounds(b: real, m: real, c: real)
    requires b >= 0.0 && 0.85 <= m <= 1.15 && 0.8 <= c <= 1.2
    ensures 0.68 * b <= b * m * c <= 1.38 * b
  {
    MinuteScaleBounds(b, m);
    BumpBounds(b * m, c);
  }

  /** A product of a factor in [0, 1] never grows in magnitude. */
  lemma MulUnitShrinks(x: real, d: real)
    requires 0.0 <= d <= 1.0
    ensures Abs(x * d) <= Abs(x)
  {
    var y := Abs(x);
    MulMonotone(y, d, 1.0);
    MulMonotone(y, 0.0, d);
    assert y * 1.0 == y && y * 0.0 == 0.0;
    assert x * d == y * d || x * d == -(y * d);
    calc {
      Abs(x * d);
      y * d;
    <= y;
    }
  }

  /** A factor in [0, 1) strictly shrinks a non-zero value toward 0, keeping its sign. */
  lemma MulBelowUnitShrinks(x: real, d: real)
    requires 0.0 <= d < 1.0 && x != 0.0
    ensures Abs(x * d) < Abs(x)
    ensures x > 0.0 ==> 0.0 <= x * d < x
    ensures x < 0.0 ==> x < x * d <= 0.0
  {
    if x > 0.0 {
      MulPositive(x, 1.0 - d);
      assert x - x * d == x * (1.0 - d);
      MulNonNegative(x, d);
      assert 0.0 <= x * d < x;
      assert Abs(x * d) == x * d && Abs(x) == x;
    } else {
      var y := -x;
      MulPositive(y, 1.0 - d);
      assert y - y * d == y * (1.0 - d);
      MulNonNegative(y, d);
      assert x * d == -(y * d);
      assert y * d < y;
      assert Abs(x * d) == y * d && Abs(x) == y;
    }
  }

  /** The relative gap (a - s) / s to a positive base has the sign of a - s. */
  lemma GapSign(a: real, s: real)
    requires s > 0.0
    ensures (a - s) / s > 0.0 <==> a > s
    ensures (a - s) / s < 0.0 <==> a < s
  {
    assert (a - s) / s * s == a - s;
  }

  /** The relative gap to a positive base grows with the value. */
  lemma GapMonotone(a: real, b: real, s: real)
    requires s > 0.0 && a <= b
    ensures (a - s) / s <= (b - s) / s
  {
    var ga := (a - s) / s;
    var gb := (b - s) / s;
    assert ga * s == a - s && gb * s == b - s;
    if ga > gb {
      MulMonotone(s, gb, ga);
      assert false;
    }
  }

  /** A count out of a positive total, as a percentage, lies in [0, 100]. */
  lemma PercentOf(count: real, total: real)
    requires 0.0 <= count <= total && total > 0.0
    ensures 0.0 <= count / total * 100.0 <= 100.0
    ensures count / total * 100.0 * total == count * 100.0
  {
    var f := count / total;
    assert f * total == count;
    if f > 1.0 {
      MulMonotone(total, 1.0, f);
      assert false;
    }
  }

  /** Multiplying back by a non-zero divisor restores the dividend. */
  lemma MulDivCancel(x: real, w: real)
    requires w != 0.0
    ensures w * (x / w) == x
  {
  }

  lemma DivSelf(x: real)
    requires x != 0.0
    ensures x / x == 1.0
  {
  }

  /** Dividing by `c`, multiplying by `s`, then undoing both gives the start value back. */
  lemma ScaleRoundTrip(a: real, c: real, s: real)
    requires c != 0.0 && s != 0.0
    ensures a / c * s / s * c == a
  {
    assert a / c * s / s == a / c;
    MulDivCancel(a, c);
  }

  /** Reciprocals reverse the order of positive numbers. */
  lemma ReciprocalAntitone(a: real, b: real)
    requires 0.0 < a <= b
    ensures 1.0 / b <= 1.0 / a
  {
    assert 1.0 / b * b == 1.0 && 1.0 / a * a == 1.0;
    if 1.0 / b > 1.0 / a {
      MulMonotone(b, 1.0 / a, 1.0 / b);
      MulMonotone(1.0 / a, a, b);
      assert false;
    }
  }

  /** A non-negative part of a larger positive whole is a share below one, at least half when the part is. */
  lemma ShareBounds(x: real, d: real)
    requires 0.0 <= x < d
    ensures 0.0 <= x / d < 1.0
    ensures 2.0 * x >= d ==> x / d >= 0.5
    ensures 2.0 * x <= d ==> x / d <= 0.5
  {
    var q := x / d;
    assert q * d == x && d * q == x;
    if q < 0.0 {
      MulMonotone(d, q, 0.0);
      assert false;
    }
    if q >= 1.0 {
      MulMonotone(d, 1.0, q);
      assert false;
    }
    HalfBound(x, d, q);
  }

  /** A product `d * q` with `d` positive lies on the same side of `d / 2` as `q` of one half. */
  lemma HalfBound(x: real, d: real, q: real)
    requires 0.0 < d && d * q == x
    ensures q < 0.5 ==> 2.0 * x < d
    ensures q > 0.5 ==> 2.0 * x > d
  {
    if q < 0.5 {
      MulPositive(d, 0.5 - q);
      assert d * (0.5 - q) == d * 0.5 - d * q;
    }
    if q > 0.5 {
      MulPositive(d, q - 0.5);
      assert d * (q - 0.5) == d * q - d * 0.5;
    }
  }

  /** A fixed non-negative amount shared among more is a smaller share. */
  lemma DivAntitone(n: real, a: real, b: real)
    requires n >= 0.0 && 0.0 < a <= b
    ensures n / b <= n / a
  {
    ReciprocalAntitone(a, b);
    assert n / b == n * (1.0 / b) && n / a == n * (1.0 / a);
    MulMonotone(n, 1.0 / b, 1.0 / a);
  }
}
