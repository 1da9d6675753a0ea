/** Small numeric vocabulary shared by the posture pipeline: an Option type,
    the JavaScript Math operations the pipeline uses, and the contract that
    stands in for Math.sqrt. */
module Basics {

  datatype Option<+T> = None | Some(value: T)

  /** Math.abs */
  function Abs(x: real): (r: real)
    ensures 0.0 <= r
    ensures r == x || r == -x
  {
    if x < 0.0 then -x else x
  }

  /** Real product, with the sign facts the proofs rely on stated once. */
  function Mul(a: real, b: real): (r: real)
    ensures (0.0 < a && 0.0 < b) || (a < 0.0 && b < 0.0) ==> 0.0 < r
    ensures a == 0.0 || b == 0.0 ==> r == 0.0
  {
    a * b
  }

  lemma Distribute(m: real, a: real, b: real, sum: real)
    requires sum == a + b
    ensures Mul(m, a) + Mul(m, b) == Mul(m, sum)
  {
  }

  /** Math.pow(x, 2): never negative, and zero only at zero. */
  function Sq(x: real): (r: real)
    ensures 0.0 <= r
    ensures r == 0.0 <==> x == 0.0
  {
    Mul(x, x)
  }

  lemma SqOfProduct(k: real, a: real, ka: real)
    requires ka == k * a
    ensures Sq(ka) == Mul(k * k, Sq(a))
  {
    calc {
      Sq(ka);
      (k * a) * (k * a);
      k * k * (a * a);
    }
  }

  function Max(a: real, b: real): (r: real)
    ensures a <= r && b <= r
    ensures r == a || r == b
  {
    if a < b then b else a
  }

  /** Math.round: the nearest integer, halves rounded up. */
  function Round(x: real): (r: int)
    ensures r as real - 0.5 <= x < r as real + 0.5
  {
    (x + 0.5).Floor
  }

  /** Math.ceil: the least integer not below x. */
  function Ceil(x: real): (r: int)
    ensures x <= r as real < x + 1.0
  {
    -((-x).Floor)
  }

  /** What Math.sqrt is relied on for: on a non-negative argument it returns
      the non-negative square root. The platform's function is passed in as a
      parameter constrained by this predicate. */
  ghost predicate IsSqrt(sqrt: real -> real)
  {
    forall x: real :: 0.0 <= x ==> 0.0 <= sqrt(x) && Sq(sqrt(x)) == x
  }

  /** Two non-negative reals with the same square are equal. */
  lemma SquareInjective(a: real, b: real)
    requires 0.0 <= a && 0.0 <= b
    requires Sq(a) == Sq(b)
    ensures a == b
  {
  }

  /** The square root is zero exactly at zero. */
  lemma SqrtZero(sqrt: real -> real, x: real)
    requires IsSqrt(sqrt)
    requires 0.0 <= x
    ensures sqrt(x) == 0.0 <==> x == 0.0
  {
    assert Sq(sqrt(x)) == x;
  }

  /** Scaling the argument by k*k scales the square root by k, for k >= 0. */
  lemma SqrtScales(sqrt: real -> real, k: real, x: real, kkx: real)
    requires IsSqrt(sqrt)
    requires 0.0 <= k && 0.0 <= x
    requires kkx == Mul(k * k, x)
    ensures 0.0 <= kkx
    ensures sqrt(kkx) == Mul(k, sqrt(x))
  {
    var s := sqrt(x);
    assert 0.0 <= s && Sq(s) == x;
    assert 0.0 <= k * s;
    SqOfProduct(k, s, k * s);
    assert 0.0 <= Sq(k * s) == kkx;
    var t := sqrt(kkx);
    assert 0.0 <= t && Sq(t) == kkx;
    SquareInjective(t, k * s);
  }

  /** The square root is strictly increasing. */
  lemma SqrtStrictlyIncreasing(sqrt: real -> real, a: real, b: real)
    requires IsSqrt(sqrt)
    requires 0.0 <= a < b
    ensures sqrt(a) < sqrt(b)
  {
    var sa, sb := sqrt(a), sqrt(b);
    assert 0.0 <= sa && Sq(sa) == a;
    assert 0.0 <= sb && Sq(sb) == b;
  }
}
