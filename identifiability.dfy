/** The identifiability objective of `ProtocolOptimizer.objective`
    (`sabs_pkpd/optimize_protocol.py`), as functions of its inputs.

    The simulator, the numerical differentiator and the matrix inversion are
    foreign code; they enter as function parameters.  Reals stand for
    floats. */
module Identifiability {
  import opened Wrappers
  import opened RealSums

  /** `simulator(*model_params, protocol, times, x0)`: an output trace. */
  type Simulator = (seq<real>, real -> real, seq<real>, real) -> seq<real>

  /** `nd.Derivative(f, n=1, step=...)(x)`: first derivative of a
      vector-valued function of one real, given the step and the point. */
  type Differentiator = (real -> seq<real>, real, real) -> seq<real>

  /** `np.linalg.inv`: `None` stands for the exception it raises on a
      singular matrix. */
  type Inverter = seq<seq<real>> -> Option<seq<seq<real>>>

  /** The step handed to the differentiator. */
  const DerivativeStep: real := 0.01

  /** The known noise level of the data. */
  const TrueSigma: real := 0.1

  /** The factor 1 / sigma^2 in front of the Fisher information. */
  const FisherScale: real := 1.0 / (TrueSigma * TrueSigma)

  /** The diagonal used for the inverse when inversion fails. */
  const FallbackVariance: real := 10000000000.0

  /** Weight of the squared protocol parameters in the score. */
  const RegularisationWeight: real := 0.001

  // ---------------------------------------------------------------------
  // Perturbation and sensitivities

  /** The model parameters with coordinate `i` replaced by `x`: the list the
      i-th perturbation closure hands to the simulator. */
  function Perturb(mp: seq<real>, i: nat, x: real): (r: seq<real>)
    ensures |r| == |mp|
    ensures i < |mp| ==> r[i] == x
    ensures forall j :: 0 <= j < |mp| && j != i ==> r[j] == mp[j]
  {
    seq(|mp|, j requires 0 <= j < |mp| => if j != i then mp[j] else x)
  }

  /** The perturbation is the sequence update `mp[i := x]`. */
  lemma PerturbIsUpdate(mp: seq<real>, i: nat, x: real)
    requires i < |mp|
    ensures Perturb(mp, i, x) == mp[i := x]
  {
  }

  /** Perturbing a coordinate to its own value changes nothing. */
  lemma PerturbAtCurrentValue(mp: seq<real>, i: nat)
    requires i < |mp|
    ensures Perturb(mp, i, mp[i]) == mp
  {
  }

  /** The output as a function of parameter `i` alone.  The source's closure
      reads the loop variable `i` when it is called; the derivative loop
      rebinds `i` to the same index before calling closure `i`, so each
      closure sees its own index. */
  function Partial(sim: Simulator, mp: seq<real>, protocol: real -> real,
                   times: seq<real>, x0: real, i: nat): real -> seq<real>
  {
    x => sim(Perturb(mp, i, x), protocol, times, x0)
  }

  /** At the current parameter value the partial reproduces the plain
      simulation. */
  lemma PartialAtCurrentValue(sim: Simulator, mp: seq<real>, protocol: real -> real,
                              times: seq<real>, x0: real, i: nat)
    requires i < |mp|
    ensures Partial(sim, mp, protocol, times, x0, i)(mp[i]) == sim(mp, protocol, times, x0)
  {
    PerturbAtCurrentValue(mp, i);
  }

  /** The derivative vectors d_i, one per model parameter. */
  function Sensitivities(sim: Simulator, diff: Differentiator, mp: seq<real>,
                         protocol: real -> real, times: seq<real>, x0: real): (d: seq<seq<real>>)
    ensures |d| == |mp|
  {
    seq(|mp|, i requires 0 <= i < |mp| =>
      diff(Partial(sim, mp, protocol, times, x0, i), DerivativeStep, mp[i]))
  }

  /** The elementwise product `d1 * d2` needs vectors of one length. */
  predicate SameLength(d: seq<seq<real>>) {
    forall i, j :: 0 <= i < |d| && 0 <= j < |d| ==> |d[i]| == |d[j]|
  }

  // ---------------------------------------------------------------------
  // Fisher information

  /** J[i][j] = sum_t d_i[t] * d_j[t] / sigma^2. */
  function Fisher(d: seq<seq<real>>): (J: seq<seq<real>>)
    requires SameLength(d)
    ensures |J| == |d|
    ensures forall i :: 0 <= i < |J| ==> |J[i]| == |d|
  {
    seq(|d|, i requires 0 <= i < |d| =>
      seq(|d|, j requires 0 <= j < |d| => FisherScale * Dot(d[i], d[j])))
  }

  /** Fills `np.zeros((n, n))` entry by entry with `np.sum(d1 * d2)`, then
      scales the whole matrix by 1 / sigma^2. */
  method FisherMatrix(d: seq<seq<real>>) returns (J: array2<real>)
    requires SameLength(d)
    ensures fresh(J)
    ensures J.Length0 == |d| && J.Length1 == |d|
    ensures Rows(J) == Fisher(d)
  {
    var n := |d|;
    J := new real[n, n]((i, j) => 0.0);
    FillProducts(J, d);
    ScaleProducts(J, FisherScale);
    RowsMatch(J, d);
  }

  /** The first loop: entry (a, b) becomes d_a . d_b. */
  method FillProducts(J: array2<real>, d: seq<seq<real>>)
    requires SameLength(d) && J.Length0 == |d| && J.Length1 == |d|
    modifies J
    ensures forall a, b :: 0 <= a < |d| && 0 <= b < |d| ==> J[a, b] == Dot(d[a], d[b])
  {
    var i := 0;
    while i < |d|
      invariant 0 <= i <= |d|
      invariant forall a, b :: 0 <= a < i && 0 <= b < |d| ==> J[a, b] == Dot(d[a], d[b])
    {
      FillRow(J, d, i);
      i := i + 1;
    }
  }

  /** The second loop: every entry is multiplied by `c`, which is
      1 / sigma^2. */
  method ScaleProducts(J: array2<real>, c: real)
    modifies J
    ensures forall a, b :: 0 <= a < J.Length0 && 0 <= b < J.Length1 ==> J[a, b] == c * old(J[a, b])
  {
    var i := 0;
    while i < J.Length0
      invariant 0 <= i <= J.Length0
      invariant forall a, b :: 0 <= a < i && 0 <= b < J.Length1 ==> J[a, b] == c * old(J[a, b])
      invariant forall a, b :: i <= a < J.Length0 && 0 <= b < J.Length1 ==> J[a, b] == old(J[a, b])
    {
      ScaleRow(J, c, i);
      i := i + 1;
    }
  }

  lemma RowsMatch(J: array2<real>, d: seq<seq<real>>)
    requires SameLength(d) && J.Length0 == |d| && J.Length1 == |d|
    requires forall a, b :: 0 <= a < |d| && 0 <= b < |d| ==> J[a, b] == FisherScale * Dot(d[a], d[b])
    ensures Rows(J) == Fisher(d)
  {
    var R, F := Rows(J), Fisher(d);
    forall a | 0 <= a < |d| ensures R[a] == F[a] {
      assert |R[a]| == |F[a]|;
      forall b | 0 <= b < |d| ensures R[a][b] == F[a][b] {
        assert R[a][b] == J[a, b];
      }
    }
  }

  /** Writes row `i` of the products d_i . d_j; other rows are untouched. */
  method FillRow(J: array2<real>, d: seq<seq<real>>, i: nat)
    requires SameLength(d) && J.Length0 == |d| && J.Length1 == |d| && i < |d|
    modifies J
    ensures forall b :: 0 <= b < |d| ==> J[i, b] == Dot(d[i], d[b])
    ensures forall a, b :: 0 <= a < |d| && a != i && 0 <= b < |d| ==> J[a, b] == old(J[a, b])
  {
    var j := 0;
    while j < |d|
      invariant 0 <= j <= |d|
      invariant forall b :: 0 <= b < j ==> J[i, b] == Dot(d[i], d[b])
      invariant forall a, b :: 0 <= a < |d| && a != i && 0 <= b < |d| ==> J[a, b] == old(J[a, b])
    {
      J[i, j] := Dot(d[i], d[j]);
      j := j + 1;
    }
  }

  /** Multiplies row `i` by `c`; other rows are untouched. */
  method ScaleRow(J: array2<real>, c: real, i: nat)
    requires i < J.Length0
    modifies J
    ensures forall b :: 0 <= b < J.Length1 ==> J[i, b] == c * old(J[i, b])
    ensures forall a, b :: 0 <= a < J.Length0 && a != i && 0 <= b < J.Length1 ==> J[a, b] == old(J[a, b])
  {
    var j := 0;
    while j < J.Length1
      invariant 0 <= j <= J.Length1
      invariant forall b :: 0 <= b < j ==> J[i, b] == c * old(J[i, b])
      invariant forall b :: j <= b < J.Length1 ==> J[i, b] == old(J[i, b])
      invariant forall a, b :: 0 <= a < J.Length0 && a != i && 0 <= b < J.Length1 ==> J[a, b] == old(J[a, b])
    {
      J[i, j] := c * J[i, j];
      j := j + 1;
    }
  }

  /** Entry (i, j) of the Fisher matrix is 100 times the dot product of
      sensitivities i and j: 1 / 0.1^2 over the reals. */
  lemma FisherEntries(d: seq<seq<real>>)
    requires SameLength(d)
    ensures forall i, j :: 0 <= i < |d| && 0 <= j < |d| ==> Fisher(d)[i][j] == 100.0 * Dot(d[i], d[j])
  {
    assert FisherScale == 100.0;
  }

  /** The Fisher matrix is symmetric and has a non-negative diagonal. */
  lemma FisherSymmetric(d: seq<seq<real>>)
    requires SameLength(d)
    ensures forall i, j :: 0 <= i < |d| && 0 <= j < |d| ==> Fisher(d)[i][j] == Fisher(d)[j][i]
    ensures forall i :: 0 <= i < |d| ==> Fisher(d)[i][i] >= 0.0
  {
    forall i, j | 0 <= i < |d| && 0 <= j < |d|
      ensures Fisher(d)[i][j] == Fisher(d)[j][i]
    {
      DotSymmetric(d[i], d[j]);
    }
    forall i | 0 <= i < |d|
      ensures Fisher(d)[i][i] >= 0.0
    {
      SumOfSquaresZero(d[i]);
    }
  }

  /** A diagonal entry is zero exactly when that parameter has no effect on
      the output, i.e. its sensitivity vector is zero. */
  lemma FisherDiagonalZero(d: seq<seq<real>>, i: nat)
    requires SameLength(d) && i < |d|
    ensures Fisher(d)[i][i] == 0.0 <==> forall t :: 0 <= t < |d[i]| ==> d[i][t] == 0.0
  {
    SumOfSquaresZero(d[i]);
  }

  // ---------------------------------------------------------------------
  // Inversion with fallback, and the score

  /** The n x n matrix with `v` on the diagonal, `np.diag([v] * n)`. */
  function Diagonal(n: nat, v: real): (M: seq<seq<real>>)
    ensures |M| == n
    ensures forall i :: 0 <= i < n ==> |M[i]| == n
    ensures forall i, j :: 0 <= i < n && 0 <= j < n ==> M[i][j] == (if i == j then v else 0.0)
  {
    seq(n, i requires 0 <= i < n => seq(n, j requires 0 <= j < n => if i == j then v else 0.0))
  }

  predicate IsSquare(M: seq<seq<real>>, n: nat) {
    |M| == n && forall i :: 0 <= i < n ==> |M[i]| == n
  }

  /** The inverse of an n x n matrix is n x n, as numpy guarantees. */
  ghost predicate ShapePreserving(inv: Inverter) {
    forall M :: inv(M).Some? ==> IsSquare(inv(M).value, |M|)
  }

  /** `J_inv`: the inverse when it exists, otherwise diag(1e10) of size
      `n`, the number of model parameters. */
  function InverseOrFallback(inv: Inverter, J: seq<seq<real>>, n: nat): (r: seq<seq<real>>)
    requires ShapePreserving(inv) && |J| == n
    ensures IsSquare(r, n)
    ensures inv(J).Some? ==> r == inv(J).value
    ensures inv(J).None? ==> r == Diagonal(n, FallbackVariance)
  {
    match inv(J)
    case Some(Jinv) => Jinv
    case None => Diagonal(n, FallbackVariance)
  }

  predicate NonZero(mp: seq<real>) {
    forall i :: 0 <= i < |mp| ==> mp[i] != 0.0
  }

  /** The terms J_inv[i][i] / model_params[i] of the Cramer-Rao sum. */
  function CrlbTerms(Jinv: seq<seq<real>>, mp: seq<real>): (r: seq<real>)
    requires IsSquare(Jinv, |mp|) && NonZero(mp)
    ensures |r| == |mp|
    ensures forall i :: 0 <= i < |mp| ==> r[i] == Jinv[i][i] / mp[i]
  {
    seq(|mp|, i requires 0 <= i < |mp| => Jinv[i][i] / mp[i])
  }

  /** 0.001 * sum_k p_k^2. */
  function Regulariser(p: seq<real>): real {
    RegularisationWeight * SumOfSquares(p)
  }

  /** The score: the Cramer-Rao sum plus the regulariser. */
  function Score(Jinv: seq<seq<real>>, mp: seq<real>, p: seq<real>): real
    requires IsSquare(Jinv, |mp|) && NonZero(mp)
  {
    Sum(CrlbTerms(Jinv, mp)) + Regulariser(p)
  }

  /** The regulariser is never negative and vanishes exactly at the zero
      protocol. */
  lemma RegulariserZero(p: seq<real>)
    ensures Regulariser(p) >= 0.0
    ensures Regulariser(p) == 0.0 <==> forall k :: 0 <= k < |p| ==> p[k] == 0.0
  {
    SumOfSquaresZero(p);
  }

  /** The objective of one protocol, composed from the pieces above. */
  function ObjectiveValue(sim: Simulator, diff: Differentiator, inv: Inverter,
                          protocol: real -> real, mp: seq<real>, times: seq<real>,
                          x0: real, p: seq<real>): real
    requires ShapePreserving(inv) && NonZero(mp)
    requires SameLength(Sensitivities(sim, diff, mp, protocol, times, x0))
  {
    var d := Sensitivities(sim, diff, mp, protocol, times, x0);
    Score(InverseOrFallback(inv, Fisher(d), |mp|), mp, p)
  }

  /** The scoring half of `objective`: the Fisher matrix built in place,
      its inverse or the fallback, then the Cramer-Rao sum plus the
      regulariser. */
  method CrlbScore(d: seq<seq<real>>, mp: seq<real>, p: seq<real>, inv: Inverter) returns (F: real)
    requires ShapePreserving(inv) && NonZero(mp) && SameLength(d) && |d| == |mp|
    ensures F == Score(InverseOrFallback(inv, Fisher(d), |mp|), mp, p)
  {
    var J := FisherMatrix(d);
    var Jinv := InverseOrFallback(inv, Rows(J), |mp|);
    F := Sum(CrlbTerms(Jinv, mp));
    F := F + Regulariser(p);
  }

  /** When inversion fails the objective still yields a value: each
      parameter contributes 1e10 / model_params[i]. */
  lemma FallbackScore(sim: Simulator, diff: Differentiator, inv: Inverter,
                      protocol: real -> real, mp: seq<real>, times: seq<real>,
                      x0: real, p: seq<real>)
    requires ShapePreserving(inv) && NonZero(mp)
    requires SameLength(Sensitivities(sim, diff, mp, protocol, times, x0))
    requires inv(Fisher(Sensitivities(sim, diff, mp, protocol, times, x0))).None?
    ensures ObjectiveValue(sim, diff, inv, protocol, mp, times, x0, p)
         == Sum(seq(|mp|, i requires 0 <= i < |mp| => FallbackVariance / mp[i])) + Regulariser(p)
  {
    var d := Sensitivities(sim, diff, mp, protocol, times, x0);
    var Jinv := InverseOrFallback(inv, Fisher(d), |mp|);
    assert CrlbTerms(Jinv, mp) == seq(|mp|, i requires 0 <= i < |mp| => FallbackVariance / mp[i]);
  }

  /** With the fallback and positive parameters no larger than `bound`, the
      Cramer-Rao sum is at least n * 1e10 / bound: a singular protocol is
      heavily penalised, not rewarded. */
  lemma FallbackPenalty(mp: seq<real>, bound: real)
    requires bound > 0.0
    requires forall i :: 0 <= i < |mp| ==> 0.0 < mp[i] <= bound
    ensures Sum(CrlbTerms(Diagonal(|mp|, FallbackVariance), mp))
         >= (|mp| as real) * (FallbackVariance / bound)
  {
    var terms := CrlbTerms(Diagonal(|mp|, FallbackVariance), mp);
    forall i | 0 <= i < |mp| ensures terms[i] >= FallbackVariance / bound {
      DivideByLarger(FallbackVariance, mp[i], bound);
    }
    SumAtLeast(terms, FallbackVariance / bound);
  }

  lemma DivideByLarger(c: real, a: real, b: real)
    requires c >= 0.0 && 0.0 < a <= b
    ensures c / a >= c / b
  {
  }
}
