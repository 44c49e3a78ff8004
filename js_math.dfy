/**
 * The JavaScript number operations the whiteboard relies on, restricted to
 * integers: `Math.max`, `Math.min`, `Math.round(a / b)` and the remainder
 * operator `%`. Dafny's own `/` and `%` are Euclidean, so the rounding and
 * the truncating remainder are written out here.
 */
module JsMath {

  /** `Math.max(a, b)`. */
  function Max(a: int, b: int): (r: int)
    ensures r >= a && r >= b && (r == a || r == b)
  {
    if a >= b then a else b
  }

  /** `Math.min(a, b)`. */
  function Min(a: int, b: int): (r: int)
    ensures r <= a && r <= b && (r == a || r == b)
  {
    if a <= b then a else b
  }

  function Abs(a: int): (r: int)
    ensures r >= 0 && (r == a || r == -a)
  {
    if a >= 0 then a else -a
  }

  /** Division that rounds toward negative infinity, for a non-zero divisor. */
  function FloorDiv(a: int, b: int): (q: int)
    requires b != 0
    ensures b > 0 ==> q * b <= a < q * b + b
    ensures b < 0 ==> q * b + b < a <= q * b
  {
    if b > 0 then a / b else (-a) / (-b)
  }

  /**
   * `Math.round(num / den)`: the integer nearest to the quotient, a quotient
   * exactly halfway between two integers going to the larger one. In the
   * doubled form below, `k - 1/2 <= num / den < k + 1/2`.
   */
  function Round(num: int, den: int): (k: int)
    requires den != 0
    ensures den > 0 ==> 2 * k * den - den <= 2 * num < 2 * k * den + den
    ensures den < 0 ==> 2 * k * den + den < 2 * num <= 2 * k * den - den
  {
    FloorDiv(2 * num + den, 2 * den)
  }

  /** The quotient of JavaScript's `%`: `a / n` truncated toward zero. */
  function TruncDiv(a: int, n: int): int
    requires n != 0
  {
    var q := Abs(a) / Abs(n);
    if (a >= 0) == (n > 0) then q else -q
  }

  /**
   * The remainder operator `a % n` of JavaScript: the quotient is truncated
   * toward zero, so the result takes the sign of the dividend `a`.
   */
  function Rem(a: int, n: int): (r: int)
    requires n != 0
    ensures a == TruncDiv(a, n) * n + r
    ensures -Abs(n) < r < Abs(n)
    ensures a >= 0 ==> r >= 0
    ensures a <= 0 ==> r <= 0
  {
    if a >= 0 then a % Abs(n) else -((-a) % Abs(n))
  }

  /** The conditions on `Rem` determine it: no other value meets them. */
  lemma RemUnique(a: int, n: int, t: int, r: int)
    requires n != 0
    requires a == t * n + r
    requires -Abs(n) < r < Abs(n)
    requires a >= 0 ==> r >= 0
    requires a <= 0 ==> r <= 0
    ensures r == Rem(a, n)
  {
    var s, u := Rem(a, n), TruncDiv(a, n);
    assert r - s == (u - t) * n;
    SmallMultipleIsZero(u - t, n);
  }

  /** The only multiple of `n` strictly between `-|n|` and `|n|` is zero. */
  lemma SmallMultipleIsZero(t: int, n: int)
    requires n != 0
    requires -Abs(n) < t * n < Abs(n)
    ensures t == 0
  {
    if t != 0 {
      MultipleAtLeast(t, n);
      assert false;
    }
  }

  /** A non-zero multiple of `n` is at least `|n|` away from zero. */
  lemma MultipleAtLeast(t: int, n: int)
    requires t != 0 && n != 0
    ensures t * n >= Abs(n) || t * n <= -Abs(n)
  {
    var k, m := Abs(t), Abs(n);
    AtLeastOnce(k, m);
    assert t * n == k * m || t * n == -(k * m);
  }

  /** A positive number of copies of `m >= 0` adds up to at least `m`. */
  lemma {:induction false} AtLeastOnce(k: int, m: int)
    requires k >= 1 && m >= 0
    ensures k * m >= m
    decreases k
  {
    if k > 1 {
      AtLeastOnce(k - 1, m);
      assert k * m == (k - 1) * m + m;
    }
  }
}
