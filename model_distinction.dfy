/** Scoring a protocol by how far apart it drives several candidate models:
    each model's read-out is sampled, optionally min-max normalised, and the
    score is minus the sum of the logarithms of accumulated squared
    distances between the sampled responses. The simulator runs are an
    input (one sampled read-out per model) and the logarithm is a
    parameter. */
module ModelDistinction {
  import opened Wrappers
  import opened RealSums

  /** The exceptions raised. */
  datatype DistinctionError =
    | StepLengthMismatch  // ValueError: durations and amplitudes of different lengths
    | FrequencyOrder      // ValueError: not fewer low than high frequencies
    | EmptyReduction      // ValueError: the minimum of a row of no samples

  /** The score, or the NaN that a constant normalised row spreads. */
  datatype Score = Finite(value: real) | NotANumber

  /** Every row has `m` entries. */
  predicate RowsOfWidth(rows: seq<seq<real>>, m: nat) {
    forall i :: 0 <= i < |rows| ==> |rows[i]| == m
  }

  /** `(r - min(r)) / (max(r) - min(r))`; `None` for a constant row, where
      every entry is 0/0. */
  function Normalised(r: seq<real>): (n: Option<seq<real>>)
    requires |r| > 0
    ensures n.Some? ==> |n.value| == |r|
  {
    var lo, hi := Min(r), Max(r);
    if hi == lo then None
    else Some(seq(|r|, k requires 0 <= k < |r| => Unit(r[k], lo, hi)))
  }

  /** Where `x` falls between `lo` and `hi`, as a fraction of the gap. */
  function Unit(x: real, lo: real, hi: real): real
    requires lo != hi
  {
    (x - lo) / (hi - lo)
  }

  lemma UnitInterval(x: real, lo: real, hi: real)
    requires lo <= x <= hi && lo < hi
    ensures 0.0 <= Unit(x, lo, hi) <= 1.0
    ensures x == lo ==> Unit(x, lo, hi) == 0.0
    ensures x > lo ==> Unit(x, lo, hi) > 0.0
    ensures x == hi ==> Unit(x, lo, hi) == 1.0
    ensures x < hi ==> Unit(x, lo, hi) < 1.0
  {
    var d, u := hi - lo, Unit(x, lo, hi);
    assert u * d == x - lo;
    if u <= 0.0 {
      assert u * d <= 0.0;
    }
    if u >= 1.0 {
      assert (u - 1.0) * d >= 0.0;
    }
  }

  /** A row that is not constant is normalised into [0, 1]: its minimum goes
      to 0, its maximum to 1 and nothing else to either. */
  lemma NormalisedRange(r: seq<real>)
    requires |r| > 0 && Max(r) > Min(r)
    ensures Normalised(r).Some?
    ensures forall k :: 0 <= k < |r| ==> 0.0 <= Normalised(r).value[k] <= 1.0
    ensures forall k :: 0 <= k < |r| ==> (Normalised(r).value[k] == 0.0 <==> r[k] == Min(r))
    ensures forall k :: 0 <= k < |r| ==> (Normalised(r).value[k] == 1.0 <==> r[k] == Max(r))
  {
    var n := Normalised(r).value;
    forall k | 0 <= k < |r|
      ensures 0.0 <= n[k] <= 1.0 && (n[k] == 0.0 <==> r[k] == Min(r)) && (n[k] == 1.0 <==> r[k] == Max(r))
    {
      UnitInterval(r[k], Min(r), Max(r));
    }
  }

  /** `a * r + b`, entrywise. */
  function Affine(r: seq<real>, a: real, b: real): (s: seq<real>)
    ensures |s| == |r|
  {
    seq(|r|, k requires 0 <= k < |r| => Scaled(r[k], a, b))
  }

  function Scaled(x: real, a: real, b: real): real {
    a * x + b
  }

  /** A positive scale keeps the order of two values and tells them apart. */
  lemma ScaledOrder(x: real, y: real, a: real, b: real)
    requires a > 0.0
    ensures x <= y <==> Scaled(x, a, b) <= Scaled(y, a, b)
    ensures x == y <==> Scaled(x, a, b) == Scaled(y, a, b)
  {
    assert Scaled(y, a, b) - Scaled(x, a, b) == a * (y - x);
    if x < y {
      assert a * (y - x) > 0.0;
    } else if y < x {
      assert a * (x - y) > 0.0;
    }
  }

  lemma AffineExtremes(r: seq<real>, a: real, b: real)
    requires |r| > 0 && a > 0.0
    ensures Min(Affine(r, a, b)) == Scaled(Min(r), a, b)
    ensures Max(Affine(r, a, b)) == Scaled(Max(r), a, b)
  {
    AffineMin(r, a, b);
    AffineMax(r, a, b);
  }

  lemma AffineMin(r: seq<real>, a: real, b: real)
    requires |r| > 0 && a > 0.0
    ensures Min(Affine(r, a, b)) == Scaled(Min(r), a, b)
  {
    var s := Affine(r, a, b);
    var lo, mlo := Min(r), Min(s);
    var i :| 0 <= i < |r| && r[i] == lo;
    var j :| 0 <= j < |s| && s[j] == mlo;
    assert mlo <= s[i] == Scaled(lo, a, b);
    assert lo <= r[j];
    ScaledOrder(lo, r[j], a, b);
  }

  lemma AffineMax(r: seq<real>, a: real, b: real)
    requires |r| > 0 && a > 0.0
    ensures Max(Affine(r, a, b)) == Scaled(Max(r), a, b)
  {
    var s := Affine(r, a, b);
    var hi, mhi := Max(r), Max(s);
    var i :| 0 <= i < |r| && r[i] == hi;
    var j :| 0 <= j < |s| && s[j] == mhi;
    assert Scaled(hi, a, b) == s[i] <= mhi;
    assert r[j] <= hi;
    ScaledOrder(r[j], hi, a, b);
  }

  /** Scaling and shifting the value and both ends of the gap leaves the
      fraction unchanged. */
  lemma UnitScaled(x: real, lo: real, hi: real, a: real, b: real)
    requires a > 0.0 && lo != hi
    ensures Scaled(lo, a, b) != Scaled(hi, a, b)
    ensures Unit(Scaled(x, a, b), Scaled(lo, a, b), Scaled(hi, a, b)) == Unit(x, lo, hi)
  {
    ScaledOrder(lo, hi, a, b);
    var d := hi - lo;
    assert Scaled(x, a, b) - Scaled(lo, a, b) == a * (x - lo);
    assert Scaled(hi, a, b) - Scaled(lo, a, b) == a * d;
    assert (a * (x - lo)) / (a * d) * (a * d) == a * (x - lo);
    assert (x - lo) / d * (a * d) == a * (x - lo);
  }

  /** Normalisation forgets the units and the offset of the read-out: a
      response scaled by a positive factor and shifted normalises to the
      same row. */
  lemma NormalisedAffine(r: seq<real>, a: real, b: real)
    requires |r| > 0 && a > 0.0
    ensures Normalised(Affine(r, a, b)) == Normalised(r)
  {
    var s := Affine(r, a, b);
    AffineExtremes(r, a, b);
    var lo, hi := Min(r), Max(r);
    ScaledOrder(lo, hi, a, b);
    if hi != lo {
      var n, m := Normalised(s).value, Normalised(r).value;
      forall k | 0 <= k < |r| ensures n[k] == m[k] {
        UnitScaled(r[k], lo, hi, a, b);
        assert n[k] == Unit(s[k], Min(s), Max(s));
      }
      assert n == m;
    }
  }

  /** What row `i` of `response` holds after normalisation, or `None` if it
      became NaN. */
  function ResponseRow(r: seq<real>, normalise: bool): (row: Option<seq<real>>)
    requires normalise ==> |r| > 0
    ensures row.Some? ==> |row.value| == |r|
  {
    if normalise then Normalised(r) else Some(r)
  }

  /** Copies one simulated read-out into row `i` and, when asked,
      normalises it in place; reports whether the row was constant. */
  method FillRow(response: array2<real>, i: nat, r: seq<real>, normalise: bool) returns (flat: bool)
    requires i < response.Length0 && |r| == response.Length1 && (normalise ==> |r| > 0)
    modifies response
    ensures flat <==> ResponseRow(r, normalise).None?
    ensures !flat ==> forall j :: 0 <= j < |r| ==> response[i, j] == ResponseRow(r, normalise).value[j]
    ensures forall k, j :: 0 <= k < response.Length0 && k != i && 0 <= j < response.Length1 ==>
      response[k, j] == old(response[k, j])
  {
    var j := 0;
    while j < |r|
      invariant 0 <= j <= |r|
      invariant forall l :: 0 <= l < j ==> response[i, l] == r[l]
      invariant forall k, l :: 0 <= k < response.Length0 && k != i && 0 <= l < response.Length1 ==>
        response[k, l] == old(response[k, l])
    {
      response[i, j] := r[j];
      j := j + 1;
    }
    if !normalise {
      return false;
    }
    var lo, hi := Min(r), Max(r);
    if hi == lo {
      return true;
    }
    j := 0;
    while j < |r|
      invariant 0 <= j <= |r|
      invariant forall l :: 0 <= l < j ==> response[i, l] == (r[l] - lo) / (hi - lo)
      invariant forall l :: j <= l < |r| ==> response[i, l] == r[l]
      invariant forall k, l :: 0 <= k < response.Length0 && k != i && 0 <= l < response.Length1 ==>
        response[k, l] == old(response[k, l])
    {
      response[i, j] := (response[i, j] - lo) / (hi - lo);
      j := j + 1;
    }
    return false;
  }

  /** Fills the response matrix, one row per model and one column per
      sample, normalising each row when asked. */
  method FillResponse(simulated: seq<seq<real>>, m: nat, normalise: bool) returns (response: array2<real>, nan: bool)
    requires RowsOfWidth(simulated, m) && (normalise ==> m > 0)
    ensures fresh(response) && response.Length0 == |simulated| && response.Length1 == m
    ensures nan <==> exists i :: 0 <= i < |simulated| && ResponseRow(simulated[i], normalise).None?
    ensures forall i, j :: 0 <= i < |simulated| && 0 <= j < m && ResponseRow(simulated[i], normalise).Some? ==>
      response[i, j] == ResponseRow(simulated[i], normalise).value[j]
  {
    response := new real[|simulated|, m]((i, j) => 0.0);
    nan := false;
    var i := 0;
    while i < |simulated|
      invariant 0 <= i <= |simulated|
      invariant nan <==> exists k :: 0 <= k < i && ResponseRow(simulated[k], normalise).None?
      invariant forall k, j :: 0 <= k < i && 0 <= j < m && ResponseRow(simulated[k], normalise).Some? ==>
        response[k, j] == ResponseRow(simulated[k], normalise).value[j]
    {
      var flat := FillRow(response, i, simulated[i], normalise);
      nan := nan || flat;
      i := i + 1;
    }
  }

  /** `np.sum(np.square(a - b))`. */
  function SquaredDistance(a: seq<real>, b: seq<real>): real
    requires |a| == |b|
    decreases |a|
  {
    if |a| == 0 then 0.0 else Square(a[0] - b[0]) + SquaredDistance(a[1..], b[1..])
  }

  /** Each pairwise term is non-negative, vanishes exactly between equal
      responses, and does not depend on the order of the pair. */
  lemma {:induction false} SquaredDistanceProperties(a: seq<real>, b: seq<real>)
    requires |a| == |b|
    ensures SquaredDistance(a, b) >= 0.0
    ensures a == b ==> SquaredDistance(a, b) == 0.0
    ensures a != b ==> SquaredDistance(a, b) > 0.0
    ensures SquaredDistance(a, b) == SquaredDistance(b, a)
    decreases |a|
  {
    if |a| > 0 {
      SquaredDistanceProperties(a[1..], b[1..]);
      SquareSign(a[0] - b[0]);
      assert Square(a[0] - b[0]) == Square(b[0] - a[0]);
      assert a == [a[0]] + a[1..] && b == [b[0]] + b[1..];
      if a[0] == b[0] && a[1..] == b[1..] {
        assert a == b;
      }
    }
  }

  /** `x * y`, as a term of its own. */
  function Mul(x: real, y: real): real {
    x * y
  }

  lemma MulSign(x: real, y: real)
    requires x >= 0.0 && y >= 0.0
    ensures Mul(x, y) >= 0.0
    ensures x > 0.0 && y > 0.0 ==> Mul(x, y) > 0.0
  {
  }

  /** The square of one difference, `np.square`. */
  function Square(d: real): real {
    Mul(d, d)
  }

  lemma SquareSign(d: real)
    ensures Square(d) >= 0.0
    ensures d != 0.0 ==> Square(d) > 0.0
  {
    if d >= 0.0 {
      MulSign(d, d);
    } else {
      MulSign(-d, -d);
      assert Mul(-d, -d) == Mul(d, d);
    }
  }

  /** `score_model` after the first `count` models of the inner loop:
      the squared distances from model `i` to models `0 .. count - 1`. */
  function ModelSum(rows: seq<seq<real>>, m: nat, i: nat, count: nat): real
    requires RowsOfWidth(rows, m) && i < |rows| && count <= |rows|
  {
    if count == 0 then 0.0
    else ModelSum(rows, m, i, count - 1) + SquaredDistance(rows[i], rows[count - 1])
  }

  lemma {:induction false} ModelSumNonNegative(rows: seq<seq<real>>, m: nat, i: nat, count: nat)
    requires RowsOfWidth(rows, m) && i < |rows| && count <= |rows|
    ensures ModelSum(rows, m, i, count) >= 0.0
  {
    if count > 0 {
      ModelSumNonNegative(rows, m, i, count - 1);
      SquaredDistanceProperties(rows[i], rows[count - 1]);
    }
  }

  /** The score after `k` passes of the outer loop: pass `i` subtracts the
      logarithm of the distances from model `i` to the first `n - i`
      models. */
  function ScoreUpTo(rows: seq<seq<real>>, m: nat, log: real -> real, k: nat): real
    requires RowsOfWidth(rows, m) && k < |rows|
  {
    if k == 0 then 0.0
    else ScoreUpTo(rows, m, log, k - 1) - log(ModelSum(rows, m, k - 1, |rows| - (k - 1)))
  }

  /** The score of the responses: the outer loop runs over all models but
      the last. */
  function ScoreOf(rows: seq<seq<real>>, m: nat, log: real -> real): real
    requires RowsOfWidth(rows, m)
  {
    if |rows| < 2 then 0.0 else ScoreUpTo(rows, m, log, |rows| - 1)
  }

  /** With three models the loops compare model 0 with models 1 and 2 and
      model 1 with model 0 again: the distance between models 1 and 2 does
      not enter the score. */
  lemma ThreeModels(rows: seq<seq<real>>, m: nat, log: real -> real)
    requires RowsOfWidth(rows, m) && |rows| == 3
    ensures ScoreOf(rows, m, log)
         == -log(SquaredDistance(rows[0], rows[1]) + SquaredDistance(rows[0], rows[2]))
            - log(SquaredDistance(rows[1], rows[0]))
  {
    SquaredDistanceProperties(rows[0], rows[0]);
    SquaredDistanceProperties(rows[1], rows[1]);
    assert ModelSum(rows, m, 0, 1) == 0.0;
    assert ModelSum(rows, m, 0, 2) == SquaredDistance(rows[0], rows[1]);
    assert ModelSum(rows, m, 0, 3) == SquaredDistance(rows[0], rows[1]) + SquaredDistance(rows[0], rows[2]);
    assert ModelSum(rows, m, 1, 1) == SquaredDistance(rows[1], rows[0]);
    assert ModelSum(rows, m, 1, 2) == SquaredDistance(rows[1], rows[0]);
    assert ScoreUpTo(rows, m, log, 1) == -log(ModelSum(rows, m, 0, 3));
  }

  /** Every response is the same: each pass adds `-log(0)`. */
  lemma {:induction false} IdenticalModels(rows: seq<seq<real>>, m: nat, log: real -> real, k: nat)
    requires RowsOfWidth(rows, m) && k < |rows|
    requires forall i :: 0 <= i < |rows| ==> rows[i] == rows[0]
    ensures ScoreUpTo(rows, m, log, k) == -(k as real) * log(0.0)
  {
    if k > 0 {
      IdenticalModels(rows, m, log, k - 1);
      ModelSumZero(rows, m, k - 1, |rows| - (k - 1));
    }
  }

  lemma {:induction false} ModelSumZero(rows: seq<seq<real>>, m: nat, i: nat, count: nat)
    requires RowsOfWidth(rows, m) && i < |rows| && count <= |rows|
    requires forall i :: 0 <= i < |rows| ==> rows[i] == rows[0]
    ensures ModelSum(rows, m, i, count) == 0.0
  {
    if count > 0 {
      ModelSumZero(rows, m, i, count - 1);
      SquaredDistanceProperties(rows[i], rows[count - 1]);
    }
  }

  /** The nested accumulation of the score over the response matrix. */
  method PairwiseScore(response: array2<real>, log: real -> real) returns (score: real)
    ensures score == ScoreOf(Rows(response), response.Length1, log)
  {
    var n := response.Length0;
    var rows := Rows(response);
    score := 0.0;
    var i := 0;
    while i < n - 1
      invariant 0 <= i && (n > 0 ==> i <= n - 1)
      invariant n > 0 ==> score == ScoreUpTo(rows, response.Length1, log, i)
      invariant n == 0 ==> score == 0.0
    {
      var scoreModel := ModelScore(rows, response.Length1, i);
      score := score - log(scoreModel);
      i := i + 1;
    }
  }

  /** The inner loop: `score_model` for model `i`. */
  method ModelScore(rows: seq<seq<real>>, m: nat, i: nat) returns (scoreModel: real)
    requires RowsOfWidth(rows, m) && i < |rows|
    ensures scoreModel == ModelSum(rows, m, i, |rows| - i)
  {
    scoreModel := 0.0;
    var j := 0;
    while j < |rows| - i
      invariant 0 <= j <= |rows| - i
      invariant scoreModel == ModelSum(rows, m, i, j)
    {
      scoreModel := scoreModel + SquaredDistance(rows[i], rows[j]);
      j := j + 1;
    }
  }

  /** The rows the score is taken over. A NaN row is kept raw here; it only
      matters when there are fewer than two models, and then the score does
      not look at the rows. */
  function ResponseRows(simulated: seq<seq<real>>, m: nat, normalise: bool): (rows: seq<seq<real>>)
    requires RowsOfWidth(simulated, m) && (normalise && |simulated| > 0 ==> m > 0)
    ensures |rows| == |simulated| && RowsOfWidth(rows, m)
  {
    seq(|simulated|, i requires 0 <= i < |simulated| => ResponseRow(simulated[i], normalise).GetOr(simulated[i]))
  }

  /** Changing the units or the offset of the read-out does not change the
      normalised responses, and so does not change the score. */
  lemma ScoreUnitFree(simulated: seq<seq<real>>, m: nat, a: real, b: real, log: real -> real)
    requires RowsOfWidth(simulated, m) && m > 0 && a > 0.0
    requires forall i :: 0 <= i < |simulated| ==> Min(simulated[i]) < Max(simulated[i])
    ensures RowsOfWidth(seq(|simulated|, i requires 0 <= i < |simulated| => Affine(simulated[i], a, b)), m)
    ensures var scaled := seq(|simulated|, i requires 0 <= i < |simulated| => Affine(simulated[i], a, b));
      ResponseRows(scaled, m, true) == ResponseRows(simulated, m, true) &&
      ScoreOf(ResponseRows(scaled, m, true), m, log) == ScoreOf(ResponseRows(simulated, m, true), m, log)
  {
    var scaled := seq(|simulated|, i requires 0 <= i < |simulated| => Affine(simulated[i], a, b));
    forall i | 0 <= i < |simulated|
      ensures ResponseRows(scaled, m, true)[i] == ResponseRows(simulated, m, true)[i]
    {
      NormalisedAffine(simulated[i], a, b);
      assert Normalised(simulated[i]).Some?;
    }
  }

  /** The step-phase objective: one sampled read-out of `m` points per model,
      normalised when asked, scored pairwise. */
  method ObjectiveStepPhase(duration: seq<real>, amplitude: seq<real>, simulated: seq<seq<real>>, m: nat,
                            normalise: bool, log: real -> real)
    returns (r: Result<Score, DistinctionError>)
    requires RowsOfWidth(simulated, m)
    ensures r == Failure(StepLengthMismatch) <==> |duration| != |amplitude|
    ensures r == Failure(EmptyReduction) <==> |duration| == |amplitude| && normalise && m == 0 && |simulated| > 0
    ensures r.Failure? ==> r.error == StepLengthMismatch || r.error == EmptyReduction
    ensures r.Success? ==>
      var nan := normalise && exists i :: 0 <= i < |simulated| && Normalised(simulated[i]).None?;
      if nan && |simulated| >= 2 then r.value == NotANumber
      else r.value == Finite(ScoreOf(ResponseRows(simulated, m, normalise), m, log))
  {
    if |duration| != |amplitude| {
      return Failure(StepLengthMismatch);
    }
    if normalise && m == 0 && |simulated| > 0 {
      return Failure(EmptyReduction);
    }
    if |simulated| == 0 {
      return Success(Finite(0.0));
    }
    var response, nan := FillResponse(simulated, m, normalise);
    if nan && |simulated| >= 2 {
      return Success(NotANumber);
    }
    var score := PairwiseScore(response, log);
    if !nan {
      assert Rows(response) == ResponseRows(simulated, m, normalise) by {
        forall i | 0 <= i < |simulated| ensures Rows(response)[i] == ResponseRows(simulated, m, normalise)[i] {
          assert ResponseRow(simulated[i], normalise).Some?;
        }
      }
    }
    return Success(Finite(score));
  }

  /** The Fourier-phase objective: the frequency check, then the same
      response matrix; the score it computes is thrown away and `None` is
      returned. */
  method ObjectiveFourierPhase(lowFreq: seq<real>, highFreq: seq<real>, simulated: seq<seq<real>>, m: nat,
                               normalise: bool)
    returns (r: Result<(), DistinctionError>)
    requires RowsOfWidth(simulated, m)
    ensures r == Failure(FrequencyOrder) <==> |lowFreq| >= |highFreq|
    ensures r == Failure(EmptyReduction) <==> |lowFreq| < |highFreq| && normalise && m == 0 && |simulated| > 0
    ensures r.Failure? ==> r.error == FrequencyOrder || r.error == EmptyReduction
  {
    if |lowFreq| >= |highFreq| {
      return Failure(FrequencyOrder);
    }
    if normalise && m == 0 && |simulated| > 0 {
      return Failure(EmptyReduction);
    }
    return Success(());
  }
}
