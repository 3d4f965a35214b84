/**
 * Real arithmetic shared by the model: the transcendental functions the source takes from
 * numpy (exp, log, sqrt), described by their axioms, and sums and maxima of sequences.
 */
module Numerics {

  /** `x + y` as a function, so that an axiom can be triggered only where a proof names it. */
  function Add(x: real, y: real): real { x + y }

  /** `x * y` as a function, for the same reason as `Add`. */
  function Mul(x: real, y: real): real { x * y }

  function Max(x: real, y: real): real { if x < y then y else x }

  /** `x < y` as a predicate, so that the monotonicity axioms are triggered only where a proof names it. */
  predicate Below(x: real, y: real) { x < y }

  /**
   * The functions numpy supplies, as values. `Valid()` is what the model assumes of them:
   * the usual laws of the exponential, the natural logarithm and the square root.
   */
  datatype RealFns = RealFns(exp: real -> real, log: real -> real, sqrt: real -> real) {
    ghost predicate Valid() {
      && exp(0.0) == 1.0
      && (forall x :: exp(x) > 0.0)
      && (forall x, y {:trigger Below(x, y)} :: Below(x, y) ==> exp(x) < exp(y))
      && (forall x, y {:trigger Add(x, y)} :: exp(Add(x, y)) == exp(x) * exp(y))
      && (forall x :: log(exp(x)) == x)
      && (forall x, y {:trigger Mul(x, y)} :: 0.0 < x && 0.0 < y ==> log(Mul(x, y)) == log(x) + log(y))
      && (forall x, y {:trigger Below(x, y)} :: 0.0 < x && Below(x, y) ==> log(x) < log(y))
      && (forall v :: 0.0 < v ==> 0.0 < sqrt(v))
    }
  }

  lemma ExpOfSum(fns: RealFns, x: real, y: real)
    requires fns.Valid()
    ensures fns.exp(x + y) == fns.exp(x) * fns.exp(y)
  {
    assert fns.exp(Add(x, y)) == fns.exp(x) * fns.exp(y);
  }

  /** `exp(-x)` is the reciprocal of `exp(x)`. */
  lemma ExpNegInverse(fns: RealFns, x: real)
    requires fns.Valid()
    ensures fns.exp(x) * fns.exp(-x) == 1.0
  {
    assert fns.exp(Add(x, -x)) == fns.exp(x) * fns.exp(-x);
    assert Add(x, -x) == 0.0;
  }

  lemma LogOfProduct(fns: RealFns, x: real, y: real)
    requires fns.Valid() && 0.0 < x && 0.0 < y
    ensures fns.log(x * y) == fns.log(x) + fns.log(y)
  {
    assert fns.log(Mul(x, y)) == fns.log(x) + fns.log(y);
  }

  lemma ExpMonotone(fns: RealFns, x: real, y: real)
    requires fns.Valid() && x < y
    ensures fns.exp(x) < fns.exp(y)
  {
    assert Below(x, y);
  }

  lemma LogMonotone(fns: RealFns, x: real, y: real)
    requires fns.Valid() && 0.0 < x < y
    ensures fns.log(x) < fns.log(y)
  {
    assert Below(x, y);
  }

  /** The logarithm is positive above 1; in particular ln 2 > 0. */
  lemma LogPositive(fns: RealFns, x: real)
    requires fns.Valid() && 1.0 < x
    ensures fns.log(x) > 0.0
  {
    assert fns.log(fns.exp(0.0)) == 0.0;
    LogMonotone(fns, 1.0, x);
  }

  /** Sum of a sequence, from the front. */
  function Sum(s: seq<real>): real {
    if |s| == 0 then 0.0 else s[0] + Sum(s[1..])
  }

  /** Sum of squares, which is never negative. */
  function SumSquares(s: seq<real>): (r: real)
    ensures r >= 0.0
  {
    if |s| == 0 then 0.0 else s[0] * s[0] + SumSquares(s[1..])
  }

  /** Dot product of two vectors of one length. */
  function Dot(a: seq<real>, b: seq<real>): real
    requires |a| == |b|
  {
    if |a| == 0 then 0.0 else a[0] * b[0] + Dot(a[1..], b[1..])
  }

  /** The largest element of a non-empty sequence (numpy's `max()`). */
  function MaxOf(s: seq<real>): (r: real)
    requires |s| > 0
    ensures forall i :: 0 <= i < |s| ==> s[i] <= r
    ensures exists i :: 0 <= i < |s| && s[i] == r
  {
    if |s| == 1 then s[0]
    else
      var m := MaxOf(s[1..]);
      assert forall i :: 1 <= i < |s| ==> s[i] == s[1..][i - 1];
      if s[0] < m then m else s[0]
  }

  /** A value every element is at most, and that some element equals, is the maximum. */
  lemma MaxOfUnique(s: seq<real>, v: real)
    requires |s| > 0
    requires forall i :: 0 <= i < |s| ==> s[i] <= v
    requires exists i :: 0 <= i < |s| && s[i] == v
    ensures MaxOf(s) == v
  {
    var i :| 0 <= i < |s| && s[i] == v;
    assert s[i] <= MaxOf(s);
  }
}
