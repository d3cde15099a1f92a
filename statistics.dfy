/** The median of a sample, as `np.median` computes it: sort, then take the
    middle element, or the mean of the two middle elements of an even-sized
    sample. */
module Statistics {
  import opened RealSums
  import opened StableSort

  function RealKey(x: real): Key {
    (x, 0.0)
  }

  predicate Ascending(s: seq<real>) {
    forall i, j :: 0 <= i < j < |s| ==> s[i] <= s[j]
  }

  /** The sample in ascending order. */
  function Sorted(s: seq<real>): (r: seq<real>)
    ensures multiset(r) == multiset(s)
    ensures Ascending(r)
  {
    var r := Sort(s, RealKey);
    SortSorted(s, RealKey);
    r
  }

  function Median(s: seq<real>): real
    requires |s| > 0
  {
    Middle(Sorted(s))
  }

  /** The median lies between the extremes of the sample. */
  lemma MedianBounds(s: seq<real>)
    requires |s| > 0
    ensures Min(s) <= Median(s) <= Max(s)
  {
    MiddleBetween(s, Sorted(s));
  }

  /** The middle element of `t`, or the mean of its two middle elements. */
  function Middle(t: seq<real>): real
    requires |t| > 0
  {
    var n := |t|;
    if n % 2 == 1 then t[n / 2] else (t[n / 2 - 1] + t[n / 2]) / 2.0
  }

  lemma MiddleBetween(s: seq<real>, t: seq<real>)
    requires |s| > 0 && multiset(t) == multiset(s) && |t| > 0
    ensures Min(s) <= Middle(t) <= Max(s)
  {
    var n := |t|;
    InSample(s, t, n / 2);
    if n % 2 == 0 {
      InSample(s, t, n / 2 - 1);
    }
  }

  /** Every element of a rearrangement of `s` lies between the extremes of
      `s`. */
  lemma InSample(s: seq<real>, t: seq<real>, k: nat)
    requires |s| > 0 && multiset(t) == multiset(s) && k < |t|
    ensures Min(s) <= t[k] <= Max(s)
  {
    assert t[k] in multiset(s);
    var j :| 0 <= j < |s| && s[j] == t[k];
  }

  /** Two ascending rearrangements of one sample are the same sequence. */
  lemma {:induction false} AscendingUnique(a: seq<real>, b: seq<real>)
    requires Ascending(a) && Ascending(b) && multiset(a) == multiset(b)
    ensures a == b
    decreases |a|
  {
    assert |a| == |multiset(a)| == |multiset(b)| == |b|;
    if |a| > 0 {
      SmallestFirst(a, b);
      TailMultiset(a);
      TailMultiset(b);
      AscendingTail(a);
      AscendingTail(b);
      AscendingUnique(a[1..], b[1..]);
      assert a == [a[0]] + a[1..] && b == [b[0]] + b[1..];
    }
  }

  /** Both start with the smallest element of the common sample. */
  lemma SmallestFirst(a: seq<real>, b: seq<real>)
    requires Ascending(a) && Ascending(b) && multiset(a) == multiset(b) && |a| > 0 && |b| > 0
    ensures a[0] == b[0]
  {
    assert a[0] in multiset(b);
    var j :| 0 <= j < |b| && b[j] == a[0];
    assert b[0] in multiset(a);
    var k :| 0 <= k < |a| && a[k] == b[0];
  }

  lemma TailMultiset(s: seq<real>)
    requires |s| > 0
    ensures multiset(s[1..]) == multiset(s) - multiset{s[0]}
  {
    assert s == [s[0]] + s[1..];
  }

  lemma AscendingTail(s: seq<real>)
    requires Ascending(s) && |s| > 0
    ensures Ascending(s[1..])
  {
    forall i, j | 0 <= i < j < |s[1..]| ensures s[1..][i] <= s[1..][j] {
      assert s[1..][i] == s[i + 1] && s[1..][j] == s[j + 1];
    }
  }

  /** The median depends on the sample only, not on the order in which the
      chain produced it. */
  lemma MedianOrderIndependent(s: seq<real>, s': seq<real>)
    requires |s| > 0 && multiset(s) == multiset(s')
    ensures |s'| > 0 && Median(s) == Median(s')
  {
    assert |s| == |multiset(s)| == |multiset(s')| == |s'|;
    var t, t' := Sorted(s), Sorted(s');
    AscendingUnique(t, t');
    assert Median(s) == Middle(t) && Median(s') == Middle(t');
  }

  /** On an already ascending sample the median is read off the middle. */
  lemma MedianOfAscending(s: seq<real>)
    requires |s| > 0 && Ascending(s)
    ensures |s| % 2 == 1 ==> Median(s) == s[|s| / 2]
    ensures |s| % 2 == 0 ==> Median(s) == (s[|s| / 2 - 1] + s[|s| / 2]) / 2.0
  {
    var t := Sorted(s);
    AscendingUnique(t, s);
    assert Median(s) == Middle(t);
  }
}
