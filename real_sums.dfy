/** Sums, inner products and extrema over sequences of reals, and the
    rows of a 2-D array.  Reals stand for the source's floating-point
    numbers. */
module RealSums {

  /** Sum of all entries (`np.sum`). */
  function Sum(s: seq<real>): real
    decreases |s|
  {
    if |s| == 0 then 0.0 else s[0] + Sum(s[1..])
  }

  /** Sum of the elementwise products (`np.sum(a * b)`). */
  function Dot(a: seq<real>, b: seq<real>): real
    requires |a| == |b|
    decreases |a|
  {
    if |a| == 0 then 0.0 else a[0] * b[0] + Dot(a[1..], b[1..])
  }

  /** Sum of squares (`np.sum(np.array(p) ** 2)`). */
  function SumOfSquares(s: seq<real>): real {
    Dot(s, s)
  }

  /** Smallest entry (`np.min`), characterised by its contract. */
  function Min(s: seq<real>): (m: real)
    requires |s| > 0
    ensures forall k :: 0 <= k < |s| ==> m <= s[k]
    ensures exists k :: 0 <= k < |s| && s[k] == m
    decreases |s|
  {
    if |s| == 1 then s[0]
    else
      var rest := Min(s[1..]);
      assert forall k :: 1 <= k < |s| ==> s[k] == s[1..][k - 1];
      if s[0] <= rest then s[0] else rest
  }

  /** Largest entry (`np.max`), characterised by its contract. */
  function Max(s: seq<real>): (m: real)
    requires |s| > 0
    ensures forall k :: 0 <= k < |s| ==> s[k] <= m
    ensures exists k :: 0 <= k < |s| && s[k] == m
    decreases |s|
  {
    if |s| == 1 then s[0]
    else
      var rest := Max(s[1..]);
      assert forall k :: 1 <= k < |s| ==> s[k] == s[1..][k - 1];
      if s[0] >= rest then s[0] else rest
  }

  lemma {:induction false} DotSymmetric(a: seq<real>, b: seq<real>)
    requires |a| == |b|
    ensures Dot(a, b) == Dot(b, a)
    decreases |a|
  {
    if |a| > 0 {
      DotSymmetric(a[1..], b[1..]);
    }
  }

  /** A sum of squares is never negative, and it is zero exactly when every
      entry is zero. */
  lemma SumOfSquaresZero(s: seq<real>)
    ensures SumOfSquares(s) >= 0.0
    ensures SumOfSquares(s) == 0.0 <==> forall k :: 0 <= k < |s| ==> s[k] == 0.0
  {
    SelfDotZero(s, s);
  }

  /** The same fact about `Dot(a, b)` for `a == b`; keeping two names for the
      one vector stops the solver from rewriting the products as squares,
      which its real arithmetic handles poorly. */
  lemma {:induction false} SelfDotZero(a: seq<real>, b: seq<real>)
    requires |a| == |b| && a == b
    ensures Dot(a, b) >= 0.0
    ensures Dot(a, b) == 0.0 <==> forall k :: 0 <= k < |a| ==> a[k] == 0.0
    decreases |a|
  {
    if |a| > 0 {
      var rest := Dot(a[1..], b[1..]);
      SelfDotZero(a[1..], b[1..]);
      ProductOfEqual(a[0], b[0]);
      assert Dot(a, b) == a[0] * b[0] + rest;
      if Dot(a, b) == 0.0 {
        assert a[0] * b[0] == 0.0 && rest == 0.0;
        assert a[0] == 0.0;
        assert forall k :: 1 <= k < |a| ==> a[k] == a[1..][k - 1];
      }
    }
  }

  /** The product of a number with itself is non-negative, and positive
      unless the number is zero. */
  lemma ProductOfEqual(x: real, y: real)
    requires x == y
    ensures x * y >= 0.0
    ensures x != 0.0 ==> x * y > 0.0
  {
    if x > 0.0 {
      ProductOfPositives(x, y);
    } else if x < 0.0 {
      ProductOfPositives(-x, -y);
    }
  }

  lemma ProductOfPositives(x: real, y: real)
    requires x > 0.0 && y > 0.0
    ensures x * y > 0.0
  {
  }

  /** A sum of entries each at least `c` is at least `|s|` times `c`. */
  lemma {:induction false} SumAtLeast(s: seq<real>, c: real)
    requires forall k :: 0 <= k < |s| ==> s[k] >= c
    ensures Sum(s) >= (|s| as real) * c
    decreases |s|
  {
    if |s| > 0 {
      assert forall k :: 0 <= k < |s[1..]| ==> s[1..][k] == s[k + 1];
      SumAtLeast(s[1..], c);
    }
  }

  /** Sum over a list of length one more than a prefix: peels the last entry. */
  lemma {:induction false} SumSnoc(s: seq<real>, x: real)
    ensures Sum(s + [x]) == Sum(s) + x
    decreases |s|
  {
    if |s| == 0 {
      assert [x][1..] == [];
    } else {
      assert (s + [x])[1..] == s[1..] + [x];
      SumSnoc(s[1..], x);
    }
  }

  /** The rows of a 2-D array as a matrix value. */
  function Rows(J: array2<real>): (M: seq<seq<real>>)
    reads J
    ensures |M| == J.Length0
    ensures forall i :: 0 <= i < J.Length0 ==> |M[i]| == J.Length1
    ensures forall i, j :: 0 <= i < J.Length0 && 0 <= j < J.Length1 ==> M[i][j] == J[i, j]
  {
    seq(J.Length0, i requires 0 <= i < J.Length0 reads J =>
      seq(J.Length1, j requires 0 <= j < J.Length1 reads J => J[i, j]))
  }
}
