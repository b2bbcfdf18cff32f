/**
 * The transcendental part of JavaScript's `Math` object, which the game's
 * geometry and physics call: `Math.sqrt`, `Math.cos`, `Math.sin`,
 * `Math.atan2` and `Math.PI`.  Their values are not computed here: a caller
 * supplies them as an `Env`, and `Sound` states the facts about them that the
 * proofs rely on.  Numbers are mathematical reals (no IEEE rounding).
 */
module RealMath {

  datatype Env = Env(
    sqrt: real -> real,
    cos: real -> real,
    sin: real -> real,
    atan2: (real, real) -> real,
    pi: real)

  /** `x * x`.  Squares are written through this function throughout the model. */
  function Sq(x: real): real { x * x }

  /** `x*x + y*y`, the squared length of `(x, y)`. */
  function NormSq(x: real, y: real): real { Sq(x) + Sq(y) }

  /*
   * The facts every real implementation of `Math` satisfies and the proofs
   * need, one predicate per function so that each proof assumes only what it
   * uses.
   */

  /** `Math.PI` is more than 3. */
  ghost predicate PiSound(m: Env) {
    m.pi > 3.0
  }

  /** `Math.sqrt` of a non-negative number is its non-negative square root. */
  ghost predicate SqrtSound(m: Env) {
    forall x :: x >= 0.0 ==> m.sqrt(x) >= 0.0 && Sq(m.sqrt(x)) == x
  }

  /** `cos(a)^2 + sin(a)^2 = 1`. */
  ghost predicate TrigSound(m: Env) {
    forall a :: Sq(m.cos(a)) + Sq(m.sin(a)) == 1.0
  }

  /** `atan2(y, x)` is the direction of `(x, y)`. */
  ghost predicate Atan2Sound(m: Env) {
    forall y, x {:trigger m.atan2(y, x)} :: NormSq(x, y) > 0.0 ==>
      m.cos(m.atan2(y, x)) * m.sqrt(NormSq(x, y)) == x && m.sin(m.atan2(y, x)) * m.sqrt(NormSq(x, y)) == y
  }

  /** Two angles less than a full turn apart name two different points of the unit circle. */
  ghost predicate CircleSound(m: Env) {
    forall a, b {:trigger m.cos(a), m.cos(b)} ::
      a < b < a + 2.0 * m.pi ==> m.cos(a) != m.cos(b) || m.sin(a) != m.sin(b)
  }

  /** All of the above. */
  ghost predicate Sound(m: Env) {
    PiSound(m) && SqrtSound(m) && TrigSound(m) && Atan2Sound(m) && CircleSound(m)
  }

  function Min(a: real, b: real): real { if a <= b then a else b }

  function Max(a: real, b: real): real { if a >= b then a else b }

  function Abs(x: real): real { if x < 0.0 then -x else x }

  /** `Math.sqrt(x*x + y*y)`: the Euclidean length of `(x, y)`. */
  function Hypot(m: Env, x: real, y: real): real {
    m.sqrt(NormSq(x, y))
  }

  lemma MulNonNeg(a: real, b: real)
    requires a >= 0.0 && b >= 0.0
    ensures a * b >= 0.0
  {
  }

  lemma SqAtLeastOne(x: real)
    requires x >= 1.0
    ensures Sq(x) >= 1.0
  {
    assert x * x - 1.0 == (x - 1.0) * (x + 1.0);
    MulNonNeg(x - 1.0, x + 1.0);
  }

  lemma SqPositive(x: real)
    requires x > 0.0
    ensures Sq(x) > 0.0
  {
    if x >= 1.0 {
      SqAtLeastOne(x);
    } else {
      var k := 1.0 / x;
      assert k * x == 1.0;
      SqAtLeastOne(k);
      assert Sq(k) * Sq(x) == 1.0;
    }
  }

  lemma SqFacts(x: real)
    ensures Sq(x) >= 0.0
    ensures Sq(-x) == Sq(x)
    ensures x != 0.0 ==> Sq(x) > 0.0
  {
    assert (-x) * (-x) == x * x;
    if x > 0.0 {
      SqPositive(x);
    } else if x < 0.0 {
      SqPositive(-x);
    }
  }

  lemma NormSqFacts(x: real, y: real)
    ensures NormSq(x, y) >= 0.0
    ensures x != 0.0 || y != 0.0 ==> NormSq(x, y) > 0.0
  {
    SqFacts(x);
    SqFacts(y);
  }

  lemma SqrtFacts(m: Env, s: real)
    requires SqrtSound(m) && s >= 0.0
    ensures m.sqrt(s) >= 0.0 && Sq(m.sqrt(s)) == s
    ensures s > 0.0 ==> m.sqrt(s) > 0.0
  {
  }

  lemma HypotFacts(m: Env, x: real, y: real)
    requires SqrtSound(m)
    ensures Hypot(m, x, y) >= 0.0
    ensures Sq(Hypot(m, x, y)) == NormSq(x, y)
    ensures x != 0.0 || y != 0.0 ==> Hypot(m, x, y) > 0.0
  {
    NormSqFacts(x, y);
    SqrtFacts(m, NormSq(x, y));
  }

  lemma ScaleSq(x: real, s: real)
    ensures Sq(x * s) == Sq(s) * Sq(x)
  {
    assert (x * s) * (x * s) == (s * s) * (x * x);
  }

  lemma ScaleNormSq(x: real, y: real, s: real)
    ensures NormSq(x * s, y * s) == Sq(s) * NormSq(x, y)
  {
    ScaleSq(x, s);
    ScaleSq(y, s);
  }

  /** A vector divided by its length is a unit vector. */
  lemma UnitAfterScaling(a: real, b: real, len: real)
    requires len > 0.0 && Sq(len) == NormSq(a, b)
    ensures NormSq(a / len, b / len) == 1.0
  {
    var p := a / len;
    var q := b / len;
    assert p * len == a && q * len == b;
    assert Sq(p) * Sq(len) == Sq(a) by { assert (p * len) * (p * len) == p * p * (len * len); }
    assert Sq(q) * Sq(len) == Sq(b) by { assert (q * len) * (q * len) == q * q * (len * len); }
    var L := Sq(len);
    var X := Sq(p) + Sq(q);
    assert X * L == Sq(p) * L + Sq(q) * L;
    assert Sq(p) * L + Sq(q) * L == Sq(a) + Sq(b);
    assert Sq(a) + Sq(b) == NormSq(a, b) == L;
    SqFacts(len);
    assert L > 0.0;
    assert X == (X * L) / L;
    assert X == L / L == 1.0;
    assert NormSq(p, q) == X;
  }

  /** Division by a positive number: exact, and 0 and the divisor itself give 0 and 1. */
  lemma DivByPositive(k: real, n: real)
    requires n > 0.0
    ensures (k / n) * n == k
    ensures k == 0.0 ==> k / n == 0.0
    ensures k == n ==> k / n == 1.0
  {
    var q := k / n;
    assert q * n == k;
  }

  lemma DivMono(a: real, b: real, n: real)
    requires n > 0.0 && a < b
    ensures a / n < b / n
  {
    DivByPositive(a, n);
    DivByPositive(b, n);
    DivByPositive(b - a, n);
    assert (b - a) / n == b / n - a / n;
    MulPositive(b - a, 1.0 / n);
  }

  lemma MulPositive(a: real, b: real)
    requires a > 0.0 && b > 0.0
    ensures a * b > 0.0
  {
  }

  lemma MulDivCancel(c: real, n: real)
    requires n > 0.0
    ensures (c * n) / n == c
  {
    DivByPositive(c * n, n);
  }

  lemma MulStrictMono(c: real, a: real, b: real)
    requires c > 0.0 && a < b
    ensures c * a < c * b
  {
    MulPositive(c, b - a);
  }

  lemma SqStrictMono(a: real, b: real)
    requires 0.0 <= a < b
    ensures Sq(a) < Sq(b)
  {
    var d := b - a;
    assert b * b == a * a + a * d + d * b;
    assert a * d >= 0.0;
    assert d * b > 0.0;
  }

  /** Comparing a square root with a non-negative bound is comparing squares. */
  lemma SqrtCompare(m: Env, x: real, c: real)
    requires SqrtSound(m) && x >= 0.0 && c >= 0.0
    ensures m.sqrt(x) < c <==> x < Sq(c)
    ensures m.sqrt(x) <= c <==> x <= Sq(c)
  {
    var s := m.sqrt(x);
    assert s >= 0.0 && Sq(s) == x;
    if s < c {
      SqStrictMono(s, c);
    } else if s > c {
      SqStrictMono(c, s);
    }
  }
}
