/**
 * Binary logistic regression with an optional Gaussian prior on the weights
 * (src/models/binary_logistic_regression.py): the negative log-likelihood and its gradient
 * over mathematical reals, the numerically stable `log(1 + exp(a))`, and the fitted-weight
 * state of the model object. The optimizer and the random initial weights are parameters.
 */
module LogisticRegression {
  import opened Wrappers
  import opened Numerics

  /** A 2-D array: its rows, and the column count every row has (kept even when there are no rows). */
  datatype Matrix = Matrix(rows: seq<seq<real>>, cols: nat) {
    predicate Valid() {
      forall i :: 0 <= i < |rows| ==> |rows[i]| == cols
    }

    function N(): nat { |rows| }
  }

  /** `X @ w`: one logit per row. */
  function Logits(X: Matrix, w: seq<real>): (a: seq<real>)
    requires X.Valid() && |w| == X.cols
    ensures |a| == X.N()
    ensures forall i :: 0 <= i < |a| ==> a[i] == Dot(X.rows[i], w)
  {
    seq(X.N(), i requires 0 <= i < X.N() => Dot(X.rows[i], w))
  }

  /** Moving one weight by `h` moves a dot product by `h` times that weight's feature. */
  lemma {:induction false} DotStep(a: seq<real>, b: seq<real>, j: nat, h: real)
    requires |a| == |b| && j < |b|
    ensures Dot(a, b[j := b[j] + h]) == Dot(a, b) + a[j] * h
  {
    var b' := b[j := b[j] + h];
    if j == 0 {
      assert b'[1..] == b[1..];
      assert a[0] * b'[0] == a[0] * b[0] + a[0] * h;
    } else {
      assert b'[1..] == b[1..][j - 1 := b[1..][j - 1] + h];
      DotStep(a[1..], b[1..], j - 1, h);
    }
  }

  /**
   * The logits are linear in each weight: moving `w[j]` by `h` moves row i's logit by
   * `X[i][j] * h`, so on a column of ones (the bias) it shifts every logit by `h`.
   */
  lemma LogitsWeightStep(X: Matrix, w: seq<real>, j: nat, h: real)
    requires X.Valid() && |w| == X.cols && j < |w|
    ensures forall i :: 0 <= i < X.N() ==>
      Logits(X, w[j := w[j] + h])[i] == Logits(X, w)[i] + X.rows[i][j] * h
    ensures (forall i :: 0 <= i < X.N() ==> X.rows[i][j] == 1.0) ==>
      forall i :: 0 <= i < X.N() ==> Logits(X, w[j := w[j] + h])[i] == Logits(X, w)[i] + h
  {
    forall i | 0 <= i < X.N()
      ensures Logits(X, w[j := w[j] + h])[i] == Logits(X, w)[i] + X.rows[i][j] * h
    {
      DotStep(X.rows[i], w, j, h);
    }
  }

  /** `stable_log_one_plus_exp(a)`: `max(0, a) + log(exp(-max(0, a)) + exp(a - max(0, a)))`. */
  function StableLogOnePlusExp(a: real, fns: RealFns): real {
    var maxA := Max(0.0, a);
    maxA + fns.log(fns.exp(-maxA) + fns.exp(a - maxA))
  }

  /**
   * The stable form is `log(1 + exp(a))` exactly, and it lies strictly above `max(0, a)`:
   * the shift by `max(0, a)` changes how it is computed, not what it is.
   */
  lemma StableLogIsLogOnePlusExp(a: real, fns: RealFns)
    requires fns.Valid()
    ensures StableLogOnePlusExp(a, fns) == fns.log(1.0 + fns.exp(a))
    ensures StableLogOnePlusExp(a, fns) > Max(0.0, a)
  {
    if a <= 0.0 {
      StableLogNonPositive(a, fns);
    } else {
      StableLogPositive(a, fns);
    }
  }

  /** For `a <= 0` there is no shift: the stable form is `log(exp(0) + exp(a))`. */
  lemma StableLogNonPositive(a: real, fns: RealFns)
    requires fns.Valid() && a <= 0.0
    ensures StableLogOnePlusExp(a, fns) == fns.log(1.0 + fns.exp(a))
    ensures StableLogOnePlusExp(a, fns) > 0.0
  {
    assert StableLogOnePlusExp(a, fns) == fns.log(fns.exp(0.0) + fns.exp(a));
    assert fns.log(fns.exp(0.0)) == 0.0;
    LogMonotone(fns, 1.0, 1.0 + fns.exp(a));
  }

  /** `exp(a) * (exp(-a) + 1) == 1 + exp(a)`. */
  lemma ExpShift(fns: RealFns, a: real)
    requires fns.Valid()
    ensures Mul(fns.exp(a), fns.exp(-a) + 1.0) == 1.0 + fns.exp(a)
  {
    ExpNegInverse(fns, a);
    Distribute(fns.exp(a), fns.exp(-a));
  }

  lemma Distribute(e: real, f: real)
    requires e * f == 1.0
    ensures Mul(e, f + 1.0) == 1.0 + e
  {
  }

  /** `log(1 + exp(a)) == a + log(exp(-a) + 1)`: the shift by `a` leaves the value unchanged. */
  lemma LogShift(fns: RealFns, a: real)
    requires fns.Valid()
    ensures fns.log(1.0 + fns.exp(a)) == a + fns.log(fns.exp(-a) + 1.0)
  {
    assert fns.exp(-a) > 0.0;
    assert fns.log(Mul(fns.exp(a), fns.exp(-a) + 1.0)) == fns.log(fns.exp(a)) + fns.log(fns.exp(-a) + 1.0);
    assert fns.log(fns.exp(a)) == a;
    ExpShift(fns, a);
  }

  /** For `a > 0` the shift is `a`: the stable form is `a + log(exp(-a) + exp(0))`. */
  lemma StableLogPositive(a: real, fns: RealFns)
    requires fns.Valid() && a > 0.0
    ensures StableLogOnePlusExp(a, fns) == fns.log(1.0 + fns.exp(a))
    ensures StableLogOnePlusExp(a, fns) > a
  {
    assert Max(0.0, a) == a && a - a == 0.0;
    assert StableLogOnePlusExp(a, fns) == a + fns.log(fns.exp(-a) + fns.exp(0.0));
    assert fns.exp(0.0) == 1.0;
    LogShift(fns, a);
    assert fns.log(fns.exp(0.0)) == 0.0;
    LogMonotone(fns, 1.0, fns.exp(-a) + 1.0);
  }

  /** `p = exp(-log(1 + exp(-a)))`, the model's probability of a rightward (1) choice. */
  function Probability(a: real, fns: RealFns): real {
    fns.exp(-StableLogOnePlusExp(-a, fns))
  }

  /** Every probability lies strictly between 0 and 1. */
  lemma ProbabilityBounds(a: real, fns: RealFns)
    requires fns.Valid()
    ensures 0.0 < Probability(a, fns) < 1.0
  {
    StableLogIsLogOnePlusExp(-a, fns);
    ExpMonotone(fns, -StableLogOnePlusExp(-a, fns), 0.0);
  }

  /** Python truthiness of `sigma`: neither None nor 0. */
  predicate Truthy(sigma: Option<real>) {
    sigma.Some? && sigma.value != 0.0
  }

  /** The prior's scale `1 / (2 sigma ** 2)`, positive for every non-zero `sigma`. */
  function PriorScale(s: real): (c: real)
    requires s != 0.0
    ensures c > 0.0
  {
    (1.0 / (s * s)) / 2.0
  }

  /** The prior's cost term: `sum(w ** 2) / (2 sigma ** 2)` when `sigma` is truthy, else 0. */
  function Penalty(w: seq<real>, sigma: Option<real>): (r: real)
    ensures r >= 0.0
    ensures !Truthy(sigma) ==> r == 0.0
  {
    if Truthy(sigma) then PriorScale(sigma.value) * SumSquares(w) else 0.0
  }

  /** Replacing one weight changes the sum of squares by the difference of the squares. */
  lemma {:induction false} SumSquaresUpdate(w: seq<real>, j: nat, v: real)
    requires j < |w|
    ensures SumSquares(w[j := v]) == SumSquares(w) - w[j] * w[j] + v * v
  {
    if j == 0 {
      assert w[j := v][1..] == w[1..];
    } else {
      assert w[j := v][1..] == w[1..][j - 1 := v];
      SumSquaresUpdate(w[1..], j - 1, v);
    }
  }

  /** The cost penalty counts the bias: the bias weight adds its own square, scaled by the prior. */
  lemma PenaltyIncludesBias(w: seq<real>, sigma: Option<real>)
    requires Truthy(sigma) && |w| > 0
    ensures Penalty(w, sigma) == Penalty(w[0 := 0.0], sigma) + PriorScale(sigma.value) * (w[0] * w[0])
  {
    assert w[0 := 0.0][1..] == w[1..];
  }

  /** A sum of negative terms is negative. */
  lemma {:induction false} SumNegative(s: seq<real>)
    requires |s| > 0 && forall i :: 0 <= i < |s| ==> s[i] < 0.0
    ensures Sum(s) < 0.0
  {
    if |s| > 1 {
      assert forall i :: 0 <= i < |s[1..]| ==> s[1..][i] == s[i + 1];
      SumNegative(s[1..]);
    }
  }

  /** The per-trial log-likelihood terms `y * a - log(1 + exp(a))`. */
  function TrialLogLikelihoods(a: seq<real>, y: seq<real>, fns: RealFns): (r: seq<real>)
    requires |y| == |a|
    ensures |r| == |a|
  {
    seq(|a|, i requires 0 <= i < |a| => y[i] * a[i] - StableLogOnePlusExp(a[i], fns))
  }

  /** `cost(w, X, y, sigma)`: `-mean(y * a - log(1 + exp(a))) + penalty` with `a = X @ w`. */
  function Cost(w: seq<real>, X: Matrix, y: seq<real>, sigma: Option<real>, fns: RealFns): real
    requires X.Valid() && |w| == X.cols && |y| == X.N() && X.N() > 0
  {
    -(Sum(TrialLogLikelihoods(Logits(X, w), y, fns)) / X.N() as real) + Penalty(w, sigma)
  }

  /**
   * The prior only enters when `sigma` is truthy: a falsy `sigma` gives the plain negative
   * log-likelihood, a truthy one adds a non-negative penalty on top of it.
   */
  lemma CostRegularization(w: seq<real>, X: Matrix, y: seq<real>, sigma: Option<real>, fns: RealFns)
    requires X.Valid() && |w| == X.cols && |y| == X.N() && X.N() > 0
    ensures Cost(w, X, y, sigma, fns) == Cost(w, X, y, None, fns) + Penalty(w, sigma)
    ensures !Truthy(sigma) ==> Cost(w, X, y, sigma, fns) == Cost(w, X, y, None, fns)
    ensures Cost(w, X, y, sigma, fns) >= Cost(w, X, y, None, fns)
  {
  }

  /** A 0/1 label's log-likelihood `y * a - log(1 + exp(a))` is negative. */
  lemma TrialLogLikelihoodNegative(a: real, y: real, fns: RealFns)
    requires fns.Valid() && (y == 0.0 || y == 1.0)
    ensures y * a - StableLogOnePlusExp(a, fns) < 0.0
  {
    StableLogIsLogOnePlusExp(a, fns);
    if y == 0.0 {
      assert y * a == 0.0;
    } else {
      assert y * a == a;
    }
  }

  /** For 0/1 labels every trial's log-likelihood is negative, so the cost is positive. */
  lemma CostPositive(w: seq<real>, X: Matrix, y: seq<real>, sigma: Option<real>, fns: RealFns)
    requires fns.Valid() && X.Valid() && |w| == X.cols && |y| == X.N() && X.N() > 0
    requires forall i :: 0 <= i < |y| ==> y[i] == 0.0 || y[i] == 1.0
    ensures Cost(w, X, y, sigma, fns) > 0.0
  {
    var a := Logits(X, w);
    var terms := TrialLogLikelihoods(a, y, fns);
    forall i | 0 <= i < |terms| ensures terms[i] < 0.0 {
      TrialLogLikelihoodNegative(a[i], y[i], fns);
    }
    SumNegative(terms);
    NegativeMean(Sum(terms), X.N());
  }

  lemma NegativeMean(total: real, n: nat)
    requires total < 0.0 && n > 0
    ensures -(total / n as real) > 0.0
  {
  }

  /** The prior's gradient term: `w / sigma ** 2` with the bias entry set to 0, or 0 when `sigma` is falsy. */
  function PenaltyGradient(w: seq<real>, sigma: Option<real>): (g: seq<real>)
    ensures |g| == |w|
  {
    seq(|w|, j requires 0 <= j < |w| =>
      if Truthy(sigma) && j != 0 then w[j] / (sigma.value * sigma.value) else 0.0)
  }

  /** The likelihood part of the gradient, `X.T @ (p - y) / N`. */
  function DataGradient(w: seq<real>, X: Matrix, y: seq<real>, fns: RealFns): (g: seq<real>)
    requires X.Valid() && |w| == X.cols && |y| == X.N() && X.N() > 0
    ensures |g| == |w|
  {
    var a := Logits(X, w);
    seq(|w|, j requires 0 <= j < |w| =>
      Sum(seq(X.N(), i requires 0 <= i < X.N() => X.rows[i][j] * (Probability(a[i], fns) - y[i]))) / X.N() as real)
  }

  /** `_gradient(w, X, y, sigma)`: `X.T @ (p - y) / N` plus the prior's gradient term. */
  function Gradient(w: seq<real>, X: Matrix, y: seq<real>, sigma: Option<real>, fns: RealFns): (g: seq<real>)
    requires X.Valid() && |w| == X.cols && |y| == X.N() && X.N() > 0
    ensures |g| == |w|
  {
    var d := DataGradient(w, X, y, fns);
    var pg := PenaltyGradient(w, sigma);
    seq(|w|, j requires 0 <= j < |w| => d[j] + pg[j])
  }

  /**
   * The gradient is the unregularized one plus `w[j] / sigma ** 2` on every non-bias entry when
   * `sigma` is truthy; the bias entry never depends on `sigma`.
   */
  lemma GradientRegularization(w: seq<real>, X: Matrix, y: seq<real>, sigma: Option<real>, fns: RealFns, j: nat)
    requires X.Valid() && |w| == X.cols && |y| == X.N() && X.N() > 0 && j < |w|
    ensures j == 0 || !Truthy(sigma) ==> Gradient(w, X, y, sigma, fns)[j] == Gradient(w, X, y, None, fns)[j]
    ensures j != 0 && Truthy(sigma) ==>
      Gradient(w, X, y, sigma, fns)[j] == Gradient(w, X, y, None, fns)[j] + w[j] / (sigma.value * sigma.value)
  {
    var d := DataGradient(w, X, y, fns);
    assert Gradient(w, X, y, None, fns)[j] == d[j] + PenaltyGradient(w, None)[j];
    assert Gradient(w, X, y, sigma, fns)[j] == d[j] + PenaltyGradient(w, sigma)[j];
    var none: Option<real> := None;
    assert !Truthy(none);
    assert PenaltyGradient(w, sigma)[j] == if Truthy(sigma) && j != 0 then w[j] / (sigma.value * sigma.value) else 0.0;
  }

  /** The square of `wj + h` exceeds that of `wj` by `2 wj h + h ** 2`, scaled by the prior. */
  lemma QuadraticStep(s: real, wj: real, h: real)
    requires s != 0.0
    ensures PriorScale(s) * ((wj + h) * (wj + h) - wj * wj) == h * (wj / (s * s)) + h * h * PriorScale(s)
  {
    var c := PriorScale(s);
    var inv := 1.0 / (s * s);
    assert c == inv / 2.0;
    assert wj / (s * s) == wj * inv;
    assert (wj + h) * (wj + h) - wj * wj == 2.0 * wj * h + h * h;
    assert c * (2.0 * wj * h + h * h) == 2.0 * c * wj * h + c * h * h;
    assert 2.0 * c * wj * h == h * (wj * inv);
  }

  /**
   * Moving weight `j` by `h` moves the cost penalty by `h * w[j] / sigma ** 2 + h ** 2 / (2 sigma ** 2)`,
   * so `w[j] / sigma ** 2` is its derivative in `w[j]`, the bias included.
   */
  lemma PenaltyStep(w: seq<real>, sigma: Option<real>, j: nat, h: real)
    requires Truthy(sigma) && j < |w|
    ensures var s := sigma.value;
      Penalty(w[j := w[j] + h], sigma) - Penalty(w, sigma) == h * (w[j] / (s * s)) + h * h * PriorScale(s)
  {
    var s := sigma.value;
    var c := PriorScale(s);
    var wj := w[j];
    var before, after := SumSquares(w), SumSquares(w[j := wj + h]);
    SumSquaresUpdate(w, j, wj + h);
    assert Penalty(w, sigma) == c * before;
    assert Penalty(w[j := wj + h], sigma) == c * after;
    PenaltyArith(s, wj, h, before, after);
  }

  /** The step of the penalty on plain numbers: the sums of squares before and after the move. */
  lemma PenaltyArith(s: real, wj: real, h: real, before: real, after: real)
    requires s != 0.0 && after - before == (wj + h) * (wj + h) - wj * wj
    ensures PriorScale(s) * after - PriorScale(s) * before == h * (wj / (s * s)) + h * h * PriorScale(s)
  {
    ScaledDifference(PriorScale(s), before, after, (wj + h) * (wj + h) - wj * wj);
    QuadraticStep(s, wj, h);
  }

  lemma ScaledDifference(c: real, a: real, b: real, d: real)
    requires b - a == d
    ensures c * b - c * a == c * d
  {
  }

  /**
   * As written, the gradient's penalty term is not the derivative of the cost's penalty: cost
   * penalizes the bias, the gradient says its penalty term there is 0.
   */
  lemma PenaltyGradientMissesBias(w: seq<real>, sigma: Option<real>, h: real)
    requires Truthy(sigma) && |w| > 0 && w[0] != 0.0 && h != 0.0
    ensures Penalty(w[0 := w[0] + h], sigma) - Penalty(w, sigma)
      != h * PenaltyGradient(w, sigma)[0] + h * h * PriorScale(sigma.value)
  {
    PenaltyStep(w, sigma, 0, h);
    var s := sigma.value;
    assert s * s != 0.0;
    assert w[0] / (s * s) != 0.0;
    assert h * (w[0] / (s * s)) != 0.0;
  }

  /** The penalty the bias exemption intends: `sum(w[1:] ** 2) / (2 sigma ** 2)`, 0 when `sigma` is falsy. */
  function BiasFreePenalty(w: seq<real>, sigma: Option<real>): (r: real)
    ensures r >= 0.0
    ensures !Truthy(sigma) ==> r == 0.0
  {
    if |w| > 0 then Penalty(w[1..], sigma) else 0.0
  }

  /**
   * The bias-free penalty is the one whose derivative the gradient's penalty term is, in every
   * coordinate: moving `w[j]` by `h` moves it by `h * PenaltyGradient(w, sigma)[j]` plus a pure
   * second-order term, which is 0 for the bias.
   */
  lemma BiasFreePenaltyMatchesGradient(w: seq<real>, sigma: Option<real>, j: nat, h: real)
    requires Truthy(sigma) && j < |w|
    ensures BiasFreePenalty(w[j := w[j] + h], sigma) - BiasFreePenalty(w, sigma)
      == h * PenaltyGradient(w, sigma)[j] + (if j == 0 then 0.0 else h * h * PriorScale(sigma.value))
  {
    var v := w[j := w[j] + h];
    if j == 0 {
      assert v[1..] == w[1..];
    } else {
      assert v[1..] == w[1..][j - 1 := w[1..][j - 1] + h];
      PenaltyStep(w[1..], sigma, j - 1, h);
    }
  }

  /**
   * What `minimize` is handed besides the starting point: the data and the prior (the objective
   * is `Cost`, its Jacobian `Gradient`), the method name and the `disp` and `maxiter` options.
   */
  datatype Problem = Problem(X: Matrix, y: seq<real>, sigma: Option<real>, optimizerMethod: string, disp: bool, maxIter: nat)

  /** `fit` caps the optimizer at 10000 iterations. */
  const MaxIter: nat := 10000

  /** numpy's refusal of `X @ None`: matmul sees None as a 0-d operand. */
  const NotEnoughDimensions: Error := ValueError("matmul: Input operand 1 does not have enough dimensions")

  /** The model object: its prior and, once fitted, its weights. */
  class BinaryLogisticRegression {
    var w: Option<seq<real>>
    var sigma: Option<real>
    var optimizerMethod: string
    var disp: bool

    /** A new model has no weights. */
    constructor(sigma: Option<real>, optimizerMethod: string, disp: bool)
      ensures this.w == None && this.sigma == sigma && this.optimizerMethod == optimizerMethod && this.disp == disp
    {
      this.w := None;
      this.sigma := sigma;
      this.optimizerMethod := optimizerMethod;
      this.disp := disp;
    }

    /**
     * `fit(X, y)`: starts the optimizer from the random draw `initialW`, one weight per column
     * of X, and stores and returns its result; an optimizer that keeps the shape of its start
     * returns one weight per column.
     */
    method Fit(X: Matrix, y: seq<real>, initialW: seq<real>, minimize: (Problem, seq<real>) -> seq<real>)
      returns (r: seq<real>)
      requires X.Valid() && |initialW| == X.cols
      modifies this
      ensures r == minimize(Problem(X, y, old(sigma), old(optimizerMethod), old(disp), MaxIter), initialW)
      ensures w == Some(r)
      ensures sigma == old(sigma) && optimizerMethod == old(optimizerMethod) && disp == old(disp)
      ensures (forall p, v :: |minimize(p, v)| == |v|) ==> |r| == X.cols
    {
      w := Some(minimize(Problem(X, y, sigma, optimizerMethod, disp, MaxIter), initialW));
      r := w.value;
    }

    /**
     * `eval(X, y)`: the unregularized cost of the stored weights. Before `fit` the weights are
     * None, which numpy's matmul takes as a 0-d operand and refuses with a ValueError; it raises a
     * ValueError too when the shapes do not match, and an empty table has no mean.
     */
    function Eval(X: Matrix, y: seq<real>, fns: RealFns): (r: Result<real, Error>)
      reads this
      requires X.Valid()
      ensures r.Success? <==> w.Some? && |w.value| == X.cols && |y| == X.N() && X.N() > 0
      ensures w.None? ==> r == Failure(NotEnoughDimensions)
      ensures r.Success? ==> r.value + Penalty(w.value, sigma) == Cost(w.value, X, y, sigma, fns)
    {
      if w.None? then Failure(NotEnoughDimensions)
      else if |w.value| != X.cols then Failure(ValueError("matmul: mismatch in its core dimension"))
      else if |y| != X.N() then Failure(ValueError("operands could not be broadcast together"))
      else if X.N() == 0 then Failure(ValueError("mean of empty slice"))
      else Success(Cost(w.value, X, y, None, fns))
    }
  }
}
