/** The statistics over repetitions (src/statistics.cc): the median by partial selection, and
    the standard deviation by the sum of squares, over exact reals. */
module Statistics {
  import RS = RealSums
  import opened Arithmetic
  import opened Sorting

  // ----- Sorting, as the measure of what the median is

  predicate Ascending(s: seq<real>) {
    forall i, j :: 0 <= i < j < |s| ==> s[i] <= s[j]
  }

  function Sorted(v: seq<real>): (s: seq<real>)
    ensures |s| == |v|
  {
    StableSort(Identity(), v)
  }

  lemma SortedIsSort(v: seq<real>)
    ensures Ascending(Sorted(v)) && multiset(Sorted(v)) == multiset(v)
  {
    SortPermutes(Identity(), v);
    SortRefinesOrder(Identity(), Anything<real>(), v);
    forall i, j | 0 <= i < j < |Sorted(v)| ensures Sorted(v)[i] <= Sorted(v)[j] {
      assert Then(Identity(), Anything<real>())(Sorted(v)[i], Sorted(v)[j]);
    }
  }

  // ----- Ranks, by counting

  function Below(x: real): real -> real {
    y => if y < x then 1.0 else 0.0
  }

  function UpTo(x: real): real -> real {
    y => if y <= x then 1.0 else 0.0
  }

  lemma {:induction false} CountBounds(f: real -> real, s: seq<real>)
    requires forall y :: f(y) == 0.0 || f(y) == 1.0
    ensures 0.0 <= RS.Sum(f, s) <= |s| as real
    ensures (forall i :: 0 <= i < |s| ==> f(s[i]) == 0.0) ==> RS.Sum(f, s) == 0.0
    ensures (forall i :: 0 <= i < |s| ==> f(s[i]) == 1.0) ==> RS.Sum(f, s) == |s| as real
  {
    if s != [] {
      CountBounds(f, s[1..]);
    }
  }

  // x has rank k in s: at most k elements are smaller, and more than k are not larger.
  predicate HasRank(s: seq<real>, x: real, k: nat) {
    RS.Sum(Below(x), s) <= k as real && RS.Sum(UpTo(x), s) >= k as real + 1.0
  }

  lemma SplitCount(f: real -> real, s: seq<real>, k: nat)
    requires k <= |s| && forall y :: f(y) == 0.0 || f(y) == 1.0
    ensures RS.Sum(f, s) == RS.Sum(f, s[..k]) + RS.Sum(f, s[k..])
  {
    assert s == s[..k] + s[k..];
    RS.SumConcat(f, s[..k], s[k..]);
  }

  // What a partition around position k puts there has rank k.
  lemma RankOfSelected(a: seq<real>, k: nat)
    requires k < |a| && IsSelected(a, k)
    ensures HasRank(a, a[k], k)
  {
    SplitCount(Below(a[k]), a, k);
    CountBounds(Below(a[k]), a[..k]);
    CountBounds(Below(a[k]), a[k..]);
    SplitCount(UpTo(a[k]), a, k + 1);
    CountBounds(UpTo(a[k]), a[..k + 1]);
    CountBounds(UpTo(a[k]), a[k + 1..]);
  }

  predicate IsSelected(a: seq<real>, k: nat)
    requires k < |a|
  {
    (forall i :: 0 <= i < k ==> a[i] <= a[k]) && forall i :: k < i < |a| ==> a[k] <= a[i]
  }

  lemma RankInSorted(s: seq<real>, x: real, k: nat)
    requires k < |s| && Ascending(s) && HasRank(s, x, k)
    ensures s[k] == x
  {
    if s[k] < x {
      SplitCount(Below(x), s, k + 1);
      CountBounds(Below(x), s[..k + 1]);
      CountBounds(Below(x), s[k + 1..]);
    } else if s[k] > x {
      SplitCount(UpTo(x), s, k);
      CountBounds(UpTo(x), s[..k]);
      CountBounds(UpTo(x), s[k..]);
    }
  }

  lemma RankOfPermutation(a: seq<real>, b: seq<real>, x: real, k: nat)
    requires multiset(a) == multiset(b) && HasRank(a, x, k)
    ensures HasRank(b, x, k)
  {
    RS.SumPermutation(Below(x), a, b);
    RS.SumPermutation(UpTo(x), a, b);
  }

  // Selecting gives what sorting gives.
  lemma SelectedIsSorted(v: seq<real>, a: seq<real>, k: nat)
    requires multiset(a) == multiset(v) && |a| == |v| && k < |a| && IsSelected(a, k)
    ensures a[k] == Sorted(v)[k]
  {
    SortedIsSort(v);
    RankOfSelected(a, k);
    RankOfPermutation(a, Sorted(v), a[k], k);
    RankInSorted(Sorted(v), a[k], k);
  }

  // a with the element at j moved to k - 1.
  function MovedTo(a: seq<real>, j: nat, k: nat): (b: seq<real>)
    requires j < k <= |a|
    ensures |b| == |a| && b[k - 1] == a[j]
    ensures forall i :: 0 <= i < k - 1 ==> b[i] == if i < j then a[i] else a[i + 1]
    ensures forall i :: k <= i < |a| ==> b[i] == a[i]
  {
    a[..j] + a[j + 1..k] + [a[j]] + a[k..]
  }

  lemma MovedToPermutes(a: seq<real>, j: nat, k: nat)
    requires j < k <= |a|
    ensures multiset(MovedTo(a, j, k)) == multiset(a)
  {
    assert a == a[..j] + [a[j]] + a[j + 1..k] + a[k..];
  }

  lemma MovedIsSelected(a: seq<real>, j: nat, k: nat)
    requires j < k < |a| && IsSelected(a, k) && forall i :: 0 <= i < k ==> a[i] <= a[j]
    ensures IsSelected(MovedTo(a, j, k), k - 1)
  {
  }

  // The largest element before the selected position is its predecessor in the sorted order.
  lemma MaxBeforeIsSorted(v: seq<real>, a: seq<real>, k: nat, j: nat)
    requires multiset(a) == multiset(v) && |a| == |v| && j < k < |a| && IsSelected(a, k)
    requires forall i :: 0 <= i < k ==> a[i] <= a[j]
    ensures a[j] == Sorted(v)[k - 1]
  {
    var b := MovedTo(a, j, k);
    MovedToPermutes(a, j, k);
    MovedIsSelected(a, j, k);
    SelectedIsSorted(v, b, k - 1);
  }

  // ----- Mean and median

  function StatisticsMean(v: seq<real>): real {
    if v == [] then 0.0 else RS.Sum(Identity(), v) * (1.0 / |v| as real)
  }

  // The middle of the sorted sample, or the mean of the two middle ones.
  function Median(v: seq<real>): real {
    var n := |v|;
    if n == 0 then 0.0
    else if n % 2 == 1 then Sorted(v)[n / 2]
    else (Sorted(v)[n / 2 - 1] + Sorted(v)[n / 2]) / 2.0
  }

  // nth_element: a permutation in which position k holds what sorting would put there.
  method NthElement(a: array<real>, k: nat)
    requires k < a.Length
    modifies a
    ensures multiset(a[..]) == old(multiset(a[..])) && IsSelected(a[..], k)
  {
    var i := 0;
    while i <= k
      invariant 0 <= i <= k + 1
      invariant multiset(a[..]) == old(multiset(a[..]))
      invariant forall p, q :: 0 <= p < i && p < q < a.Length ==> a[p] <= a[q]
    {
      var m := MinElement(a, i);
      Swap(a, i, m);
      i := i + 1;
    }
  }

  method Swap(a: array<real>, i: nat, j: nat)
    requires i < a.Length && j < a.Length
    modifies a
    ensures multiset(a[..]) == old(multiset(a[..]))
    ensures a[i] == old(a[j]) && a[j] == old(a[i])
    ensures forall k :: 0 <= k < a.Length && k != i && k != j ==> a[k] == old(a[k])
  {
    a[i], a[j] := a[j], a[i];
  }

  method MinElement(a: array<real>, i: nat) returns (m: nat)
    requires i < a.Length
    ensures i <= m < a.Length && forall q :: i <= q < a.Length ==> a[m] <= a[q]
  {
    m := i;
    var j := i + 1;
    while j < a.Length
      invariant i <= m < a.Length && i < j <= a.Length
      invariant forall q :: i <= q < j ==> a[m] <= a[q]
    {
      if a[j] < a[m] {
        m := j;
      }
      j := j + 1;
    }
  }

  method MaxElement(a: array<real>, n: nat) returns (j: nat)
    requires 0 < n <= a.Length
    ensures j < n && forall i :: 0 <= i < n ==> a[i] <= a[j]
  {
    j := 0;
    var i := 1;
    while i < n
      invariant 1 <= i <= n && j < i && forall p :: 0 <= p < i ==> a[p] <= a[j]
    {
      if a[j] < a[i] {
        j := i;
      }
      i := i + 1;
    }
  }

  lemma SumOfFew(s: seq<real>)
    ensures |s| == 1 ==> RS.Sum(Identity(), s) == s[0]
    ensures |s| == 2 ==> RS.Sum(Identity(), s) == s[0] + s[1]
  {
    if |s| == 2 {
      assert RS.Sum(Identity(), s[1..]) == s[1];
    }
  }

  lemma MeanOfFew(v: seq<real>)
    requires |v| < 3
    ensures StatisticsMean(v) == Median(v)
  {
    SortedIsSort(v);
    SumOfFew(v);
    SumOfFew(Sorted(v));
    RS.SumPermutation(Identity(), v, Sorted(v));
    assert |v| == 1 ==> v[0] * (1.0 / 1.0) == v[0];
    assert |v| == 2 ==> (v[0] + v[1]) * (1.0 / 2.0) == (v[0] + v[1]) / 2.0;
  }

  // The middle of the sample, put in order.
  lemma MedianIsMiddle(v: seq<real>, s: seq<real>)
    requires v != [] && Ascending(s) && multiset(s) == multiset(v)
    ensures |s| == |v| && Median(v) == (s[(|v| - 1) / 2] + s[|v| / 2]) / 2.0
  {
    SortedIsSort(v);
    assert |multiset(s)| == |multiset(v)|;
    SortsAgree(Sorted(v), s);
  }

  method StatisticsMedian(v: seq<real>) returns (m: real)
    ensures m == Median(v)
  {
    if |v| < 3 {
      MeanOfFew(v);
      return StatisticsMean(v);
    }
    var copy := new real[|v|](i requires 0 <= i < |v| => v[i]);
    assert copy[..] == v;
    var center := |v| / 2;
    NthElement(copy, center);
    SelectedIsSorted(v, copy[..], center);
    if |v| % 2 == 1 {
      return copy[center];
    }
    var center2 := MaxElement(copy, center);
    MaxBeforeIsSorted(v, copy[..], center, center2);
    return (copy[center] + copy[center2]) / 2.0;
  }

  lemma {:induction false} SortsAgree(s: seq<real>, t: seq<real>)
    requires Ascending(s) && Ascending(t) && multiset(s) == multiset(t) && |s| == |t|
    ensures s == t
  {
    forall k | 0 <= k < |s| ensures s[k] == t[k] {
      RankOfSelected(s, k);
      RankOfPermutation(s, t, s[k], k);
      RankInSorted(t, s[k], k);
    }
  }

  lemma MedianOfPermutation(v: seq<real>, w: seq<real>)
    requires multiset(v) == multiset(w)
    ensures Median(v) == Median(w)
  {
    SortedIsSort(v);
    SortedIsSort(w);
    assert |multiset(v)| == |multiset(w)|;
    SortsAgree(Sorted(v), Sorted(w));
  }

  // ----- The standard deviation

  function SumSquares(v: seq<real>): real {
    RS.Sum(Square, v)
  }

  // The expression under the square root.
  function VarianceExpression(v: seq<real>): real
    requires |v| >= 2
  {
    var n := |v| as real;
    n / (n - 1.0) * (SumSquares(v) * (1.0 / n) - Square(StatisticsMean(v)))
  }

  // Sqrt guards against a negative argument.
  function Sqrt(sqrt: real -> real, x: real): real {
    if x < 0.0 then 0.0 else sqrt(x)
  }

  function StatisticsStdDev(sqrt: real -> real, v: seq<real>): real {
    if v == [] then StatisticsMean(v) else if |v| == 1 then 0.0 else Sqrt(sqrt, VarianceExpression(v))
  }

  function StatisticsCV(sqrt: real -> real, v: seq<real>): real {
    if |v| < 2 then 0.0
    else if StatisticsMean(v) == 0.0 then 0.0
    else StatisticsStdDev(sqrt, v) / StatisticsMean(v)
  }

  // The sum of the squared deviations from m.
  function Deviations(v: seq<real>, m: real): real {
    RS.Sum(Deviation(m), v)
  }

  function Deviation(m: real): real -> real {
    (x: real) => Square(x - m)
  }

  function Identity(): real -> real {
    (x: real) => x
  }

  function Expanded(q: real, s: real, n: real, m: real): real {
    q - 2.0 * m * s + n * Square(m)
  }

  lemma ExpandOne(q: real, s: real, n: real, m: real, x: real)
    ensures Square(x - m) + Expanded(q, s, n, m) == Expanded(Square(x) + q, x + s, n + 1.0, m)
  {
    assert Square(x - m) == Square(x) - 2.0 * m * x + Square(m);
    assert 2.0 * m * (x + s) == 2.0 * m * x + 2.0 * m * s;
  }

  lemma {:induction false} DeviationsExpanded(v: seq<real>, m: real)
    ensures Deviations(v, m) == Expanded(SumSquares(v), RS.Sum(Identity(), v), |v| as real, m)
  {
    if v != [] {
      DeviationsExpanded(v[1..], m);
      ExpandOne(SumSquares(v[1..]), RS.Sum(Identity(), v[1..]), |v[1..]| as real, m, v[0]);
      assert Deviation(m)(v[0]) == Square(v[0] - m);
      assert |v[1..]| as real + 1.0 == |v| as real;
    } else {
      assert Expanded(0.0, 0.0, 0.0, m) == 0.0;
    }
  }

  // n / (n - 1) * (q / n - m * m), where m is the mean.
  lemma Rearranged(q: real, s: real, n: real, m: real)
    requires n > 1.0 && m == s * (1.0 / n)
    ensures n / (n - 1.0) * (q * (1.0 / n) - Square(m)) == Expanded(q, s, n, m) / (n - 1.0)
  {
    assert n * m == s;
    assert m * s == n * Square(m);
    assert n * (q * (1.0 / n)) == q;
    assert n * (q * (1.0 / n) - Square(m)) == q - n * Square(m);
    ScaleQuotient(n, n - 1.0, q * (1.0 / n) - Square(m));
  }

  lemma ScaleQuotient(a: real, b: real, c: real)
    requires b > 0.0
    ensures a / b * c == (a * c) / b
  {
  }

  lemma {:induction false} DeviationsNonNegative(v: seq<real>, m: real)
    ensures Deviations(v, m) >= 0.0
    ensures Deviations(v, m) == 0.0 <==> forall i :: 0 <= i < |v| ==> v[i] == m
  {
    if v != [] {
      DeviationsNonNegative(v[1..], m);
      assert Deviation(m)(v[0]) == Square(v[0] - m);
      SquareIsZero(v[0] - m);
      if Deviations(v, m) == 0.0 {
        forall i | 0 <= i < |v| ensures v[i] == m {
          assert i > 0 ==> v[i] == v[1..][i - 1];
        }
      }
    }
  }

  lemma QuotientSign(a: real, b: real)
    requires a >= 0.0 && b > 0.0
    ensures a / b >= 0.0 && (a / b == 0.0 <==> a == 0.0)
  {
    assert a / b * b == a;
  }

  // n / (n - 1) * (average square - square of the mean) is the Bessel-corrected variance.
  lemma VarianceIsBesselCorrected(v: seq<real>)
    requires |v| >= 2
    ensures VarianceExpression(v) == Deviations(v, StatisticsMean(v)) / (|v| - 1) as real
    ensures VarianceExpression(v) >= 0.0
    ensures VarianceExpression(v) == 0.0 <==> forall i :: 0 <= i < |v| ==> v[i] == StatisticsMean(v)
  {
    var n, m := |v| as real, StatisticsMean(v);
    DeviationsExpanded(v, m);
    Rearranged(SumSquares(v), RS.Sum(Identity(), v), n, m);
    DeviationsNonNegative(v, m);
    QuotientSign(Deviations(v, m), n - 1.0);
  }

  // So the guard of the root never fires.
  lemma StdDevIsRootOfVariance(sqrt: real -> real, v: seq<real>)
    requires |v| >= 2
    ensures StatisticsStdDev(sqrt, v) == sqrt(Deviations(v, StatisticsMean(v)) / (|v| - 1) as real)
  {
    VarianceIsBesselCorrected(v);
  }

  // The coefficient of variation is the standard deviation relative to the mean, or 0.
  lemma CVIsRelativeDeviation(sqrt: real -> real, v: seq<real>)
    ensures StatisticsMean(v) * |v| as real == RS.Sum(Identity(), v)
    ensures |v| < 2 ==> StatisticsStdDev(sqrt, v) == 0.0
    ensures |v| < 2 || RS.Sum(Identity(), v) == 0.0 ==> StatisticsCV(sqrt, v) == 0.0
    ensures |v| >= 2 && RS.Sum(Identity(), v) != 0.0 ==>
      StatisticsCV(sqrt, v) * StatisticsMean(v) == sqrt(Deviations(v, StatisticsMean(v)) / (|v| - 1) as real)
  {
    if |v| >= 2 {
      StdDevIsRootOfVariance(sqrt, v);
    }
    MeanTimesCount(v);
    if StatisticsMean(v) != 0.0 {
      var d, m := StatisticsStdDev(sqrt, v), StatisticsMean(v);
      assert d / m * m == d;
    }
  }

  lemma MeanTimesCount(v: seq<real>)
    ensures StatisticsMean(v) * |v| as real == RS.Sum(Identity(), v)
    ensures v != [] ==> (StatisticsMean(v) == 0.0 <==> RS.Sum(Identity(), v) == 0.0)
  {
    if v != [] {
      var n, s := |v| as real, RS.Sum(Identity(), v);
      assert s * (1.0 / n) == s / n;
      assert s / n * n == s;
    }
  }

  // None of the statistics depends on the order of the repetitions.
  lemma OrderDoesNotMatter(sqrt: real -> real, v: seq<real>, w: seq<real>)
    requires multiset(v) == multiset(w)
    ensures StatisticsMean(w) == StatisticsMean(v) && Median(w) == Median(v)
    ensures StatisticsStdDev(sqrt, w) == StatisticsStdDev(sqrt, v) && StatisticsCV(sqrt, w) == StatisticsCV(sqrt, v)
  {
    assert |multiset(v)| == |multiset(w)|;
    MedianOfPermutation(v, w);
    MeanOfPermutation(v, w);
    if |v| >= 2 {
      VarianceOfPermutation(v, w);
    }
  }

  lemma MeanOfPermutation(v: seq<real>, w: seq<real>)
    requires multiset(v) == multiset(w) && |v| == |w|
    ensures StatisticsMean(w) == StatisticsMean(v)
  {
    RS.SumPermutation(Identity(), v, w);
  }

  lemma VarianceOfPermutation(v: seq<real>, w: seq<real>)
    requires multiset(v) == multiset(w) && |v| == |w| >= 2
    ensures VarianceExpression(w) == VarianceExpression(v)
  {
    MeanOfPermutation(v, w);
    RS.SumPermutation(Square, v, w);
    assert SumSquares(v) == SumSquares(w);
  }
}
