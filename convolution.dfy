/**
 * Exponential history kernels and the causal convolutions that apply them: over a whole
 * column (numpy's "full" convolution clipped to the input length) and restarted at every
 * session boundary.
 */
module Convolution {
  import opened Numerics

  /** `[exp(-i / tau) for i in range(len_factor * tau)]`; empty when the product is not positive. */
  function Kernel(tau: int, lenFactor: int, fns: RealFns): (k: seq<real>)
    ensures |k| == if lenFactor * tau <= 0 then 0 else lenFactor * tau
  {
    var n := lenFactor * tau;
    if n <= 0 then [] else
      assert tau != 0;
      seq(n, i requires 0 <= i < n => fns.exp(-(i as real) / (tau as real)))
  }

  /** `-i / tau` falls as `i` grows, for a positive `tau`, and is never positive. */
  lemma NegRatioDecreasing(i: nat, j: nat, tau: int)
    requires tau > 0 && i < j
    ensures -(j as real) / (tau as real) < -(i as real) / (tau as real) <= 0.0
  {
    var t := tau as real;
    assert (i as real) / t < (j as real) / t by {
      assert (j as real) / t - (i as real) / t == ((j - i) as real) / t;
    }
  }

  /** A kernel built from a positive `tau` starts at 1 and decays strictly, staying in (0, 1]. */
  lemma KernelShape(tau: int, lenFactor: int, fns: RealFns)
    requires fns.Valid() && tau > 0 && lenFactor > 0
    ensures |Kernel(tau, lenFactor, fns)| == lenFactor * tau
    ensures Kernel(tau, lenFactor, fns)[0] == 1.0
    ensures forall i :: 0 <= i < |Kernel(tau, lenFactor, fns)| ==>
              0.0 < Kernel(tau, lenFactor, fns)[i] <= 1.0
    ensures forall i, j :: 0 <= i < j < |Kernel(tau, lenFactor, fns)| ==>
              Kernel(tau, lenFactor, fns)[j] < Kernel(tau, lenFactor, fns)[i]
  {
    var k := Kernel(tau, lenFactor, fns);
    assert lenFactor * tau > 0 by {
      assert lenFactor >= 1 && tau >= 1;
      assert lenFactor * tau >= tau;
    }
    assert k[0] == fns.exp(-(0 as real) / (tau as real));
    assert -(0 as real) / (tau as real) == 0.0;
    forall i, j | 0 <= i < j < |k| ensures k[j] < k[i] {
      NegRatioDecreasing(i, j, tau);
      ExpMonotone(fns, -(j as real) / (tau as real), -(i as real) / (tau as real));
    }
    forall i | 0 <= i < |k| ensures 0.0 < k[i] <= 1.0 {
      if i > 0 {
        assert k[i] < k[0];
      }
    }
  }

  /** `k[0] * x[t] + k[1] * x[t - 1] + ... + k[n - 1] * x[t - (n - 1)]`. */
  function Lagged(x: seq<real>, k: seq<real>, t: nat, n: nat): real
    requires t < |x| && n <= |k| && n <= t + 1
  {
    if n == 0 then 0.0 else Lagged(x, k, t, n - 1) + k[n - 1] * x[t - (n - 1)]
  }

  /** How many kernel weights reach back from trial `t` without passing trial `start`. */
  function Window(k: seq<real>, t: nat, start: nat): nat
    requires start <= t
  {
    if |k| < t - start + 1 then |k| else t - start + 1
  }

  /** `np.convolve(x, k, mode="full")[:len(x)]`: at `t`, the sum of `k[i] * x[t - i]` for `i <= t`. */
  function Convolve(x: seq<real>, k: seq<real>): (r: seq<real>)
    ensures |r| == |x|
  {
    seq(|x|, t requires 0 <= t < |x| => Lagged(x, k, t, Window(k, t, 0)))
  }

  /** `Lagged` reads only `x[t - n + 1 .. t]`. */
  lemma {:induction false} LaggedReadsWindow(x: seq<real>, y: seq<real>, k: seq<real>, t: nat, n: nat)
    requires t < |x| && t < |y| && n <= |k| && n <= t + 1
    requires forall j :: t - n < j <= t ==> x[j] == y[j]
    ensures Lagged(x, k, t, n) == Lagged(y, k, t, n)
  {
    if n > 0 {
      LaggedReadsWindow(x, y, k, t, n - 1);
    }
  }

  /** The whole-column filter is causal: its value at `t` depends only on `x[0..t]`. */
  lemma ConvolveIsCausal(x: seq<real>, y: seq<real>, k: seq<real>, t: nat)
    requires t < |x| && t < |y| && x[..t + 1] == y[..t + 1]
    ensures Convolve(x, k)[t] == Convolve(y, k)[t]
  {
    forall j | t - Window(k, t, 0) < j <= t ensures x[j] == y[j] {
      assert x[j] == x[..t + 1][j] && y[j] == y[..t + 1][j];
    }
    LaggedReadsWindow(x, y, k, t, Window(k, t, 0));
  }

  lemma {:induction false} LaggedNonNegative(x: seq<real>, k: seq<real>, t: nat, n: nat)
    requires t < |x| && n <= |k| && n <= t + 1
    requires forall i :: 0 <= i < |x| ==> x[i] >= 0.0
    requires forall i :: 0 <= i < |k| ==> k[i] >= 0.0
    ensures Lagged(x, k, t, n) >= 0.0
  {
    if n > 0 {
      LaggedNonNegative(x, k, t, n - 1);
      assert k[n - 1] * x[t - (n - 1)] >= 0.0;
    }
  }

  /** With a non-negative source and kernel the filtered column is non-negative. */
  lemma ConvolveNonNegative(x: seq<real>, k: seq<real>)
    requires forall i :: 0 <= i < |x| ==> x[i] >= 0.0
    requires forall i :: 0 <= i < |k| ==> k[i] >= 0.0
    ensures forall t :: 0 <= t < |x| ==> Convolve(x, k)[t] >= 0.0
  {
    forall t | 0 <= t < |x| ensures Convolve(x, k)[t] >= 0.0 {
      LaggedNonNegative(x, k, t, Window(k, t, 0));
    }
  }

  lemma {:induction false} LaggedAtLeastFirst(x: seq<real>, k: seq<real>, t: nat, n: nat)
    requires t < |x| && 1 <= n <= |k| && n <= t + 1
    requires forall i :: 0 <= i < |x| ==> x[i] >= 0.0
    requires forall i :: 0 <= i < |k| ==> k[i] >= 0.0
    ensures Lagged(x, k, t, n) >= k[0] * x[t]
  {
    if n == 1 {
      assert Lagged(x, k, t, 1) == Lagged(x, k, t, 0) + k[0] * x[t - 0];
    } else {
      LaggedAtLeastFirst(x, k, t, n - 1);
      assert k[n - 1] * x[t - (n - 1)] >= 0.0;
    }
  }

  /**
   * A non-negative source with a positive value, filtered by a kernel from a positive `tau`,
   * has a positive maximum: scaling by it is defined.
   */
  lemma ConvolvePositiveMax(x: seq<real>, tau: int, lenFactor: int, fns: RealFns, t: nat)
    requires fns.Valid() && tau > 0 && lenFactor > 0
    requires forall i :: 0 <= i < |x| ==> x[i] >= 0.0
    requires t < |x| && x[t] > 0.0
    ensures MaxOf(Convolve(x, Kernel(tau, lenFactor, fns))) > 0.0
  {
    var k := Kernel(tau, lenFactor, fns);
    KernelShape(tau, lenFactor, fns);
    var c := Convolve(x, k);
    LaggedAtLeastFirst(x, k, t, Window(k, t, 0));
    assert k[0] * x[t] > 0.0;
    assert c[t] > 0.0;
  }

  /**
   * The whole-column filter is not reset at a session boundary: with sessions [1, 2] and an
   * event on trial 0 only, trial 1 (which starts session 2) still sees the event through k[1].
   */
  lemma ConvolveCrossesSessions(fns: RealFns)
    requires fns.Valid()
    ensures Convolve([1.0, 0.0], Kernel(1, 5, fns))[1] == fns.exp(-1.0) > 0.0
  {
    var k := Kernel(1, 5, fns);
    var x := [1.0, 0.0];
    KernelAt(1, 5, fns, 1);
    assert Window(k, 1, 0) == 2;
    assert Lagged(x, k, 1, 1) == 0.0 by {
      assert Lagged(x, k, 1, 1) == Lagged(x, k, 1, 0) + k[0] * x[1];
    }
    assert Lagged(x, k, 1, 2) == k[1] * x[0];
  }

  lemma KernelAt(tau: int, lenFactor: int, fns: RealFns, i: nat)
    requires i < lenFactor * tau
    ensures tau != 0 && Kernel(tau, lenFactor, fns)[i] == fns.exp(-(i as real) / (tau as real))
  {
  }

  /** The first trial of the session that trial `t` belongs to (sessions are runs of equal ids). */
  function SessionStart(session: seq<int>, t: nat): (s: nat)
    requires t < |session|
    ensures s <= t
    ensures s == 0 || session[s - 1] != session[s]
    ensures forall j :: s <= j <= t ==> session[j] == session[t]
  {
    if t == 0 || session[t] != session[t - 1] then t else SessionStart(session, t - 1)
  }

  /** The filter restarted at every session boundary, with no history carried over. */
  function SessionConvolve(x: seq<real>, session: seq<int>, k: seq<real>): (r: seq<real>)
    requires |session| == |x|
    ensures |r| == |x|
  {
    seq(|x|, t requires 0 <= t < |x| => Lagged(x, k, t, Window(k, t, SessionStart(session, t))))
  }

  /** The per-session filter at `t` depends only on the trials of t's session up to `t`. */
  lemma SessionConvolveStaysInSession(x: seq<real>, y: seq<real>, session: seq<int>, k: seq<real>, t: nat)
    requires |x| == |y| == |session| && t < |x|
    requires forall j :: SessionStart(session, t) <= j <= t ==> x[j] == y[j]
    ensures SessionConvolve(x, session, k)[t] == SessionConvolve(y, session, k)[t]
  {
    LaggedReadsWindow(x, y, k, t, Window(k, t, SessionStart(session, t)));
  }

  /** At the first trial of a session the per-session filter sees that trial alone. */
  lemma SessionConvolveAtStart(x: seq<real>, session: seq<int>, k: seq<real>, t: nat)
    requires |session| == |x| && t < |x| && |k| > 0
    requires t == 0 || session[t] != session[t - 1]
    ensures SessionConvolve(x, session, k)[t] == k[0] * x[t]
  {
    assert SessionStart(session, t) == t;
    assert Window(k, t, t) == 1;
    assert Lagged(x, k, t, 1) == Lagged(x, k, t, 0) + k[0] * x[t - 0];
  }

  /** `c / m` elementwise. */
  function Scale(c: seq<real>, m: real): (r: seq<real>)
    requires m != 0.0
    ensures |r| == |c|
  {
    seq(|c|, i requires 0 <= i < |c| => c[i] / m)
  }

  lemma DivAtMostOne(a: real, m: real)
    requires 0.0 < m && a <= m
    ensures a / m <= 1.0
  {
    var q := a / m;
    assert q * m == a;
  }

  lemma DivSelf(m: real)
    requires m != 0.0
    ensures m / m == 1.0
  {
  }

  lemma DivNonNegative(a: real, m: real)
    requires 0.0 < m && 0.0 <= a
    ensures 0.0 <= a / m
  {
  }

  /** Dividing by a positive maximum puts every value at most 1 and the maximum at exactly 1. */
  lemma ScaleByMax(c: seq<real>)
    requires |c| > 0 && MaxOf(c) > 0.0
    ensures forall i :: 0 <= i < |c| ==> Scale(c, MaxOf(c))[i] <= 1.0
    ensures MaxOf(Scale(c, MaxOf(c))) == 1.0
    ensures (forall i :: 0 <= i < |c| ==> c[i] >= 0.0) ==>
              forall i :: 0 <= i < |c| ==> Scale(c, MaxOf(c))[i] >= 0.0
  {
    var m := MaxOf(c);
    var s := Scale(c, m);
    forall i | 0 <= i < |c| ensures s[i] <= 1.0 {
      DivAtMostOne(c[i], m);
    }
    if forall i :: 0 <= i < |c| ==> c[i] >= 0.0 {
      forall i | 0 <= i < |c| ensures s[i] >= 0.0 {
        DivNonNegative(c[i], m);
      }
    }
    var j :| 0 <= j < |c| && c[j] == m;
    DivSelf(m);
    assert s[j] == c[j] / m;
    MaxOfUnique(s, 1.0);
  }
}
