/** Benchmark::ArgsProduct and Benchmark::Ranges (src/benchmark_register.cc): the Cartesian
    product of argument lists, enumerated by an odometer over index digits. */
module ArgsProducts {
  import R = Ranges

  predicate AllNonEmpty(lists: seq<seq<int>>) {
    forall j :: 0 <= j < |lists| ==> lists[j] != []
  }

  // The number of combinations of the lists before j, and of those from j on.
  function Before(lists: seq<seq<int>>, j: nat): nat
    requires j <= |lists|
  {
    if j == 0 then 1 else Before(lists, j - 1) * |lists[j - 1]|
  }

  function From(lists: seq<seq<int>>, j: nat): nat
    requires j <= |lists|
    decreases |lists| - j
  {
    if j == |lists| then 1 else |lists[j]| * From(lists, j + 1)
  }

  // What is left of i once the digits before j are taken off, and the digit at j.
  function Quotient(lists: seq<seq<int>>, i: nat, j: nat): nat
    requires j <= |lists| && AllNonEmpty(lists)
  {
    if j == 0 then i else Quotient(lists, i, j - 1) / |lists[j - 1]|
  }

  function Digit(lists: seq<seq<int>>, i: nat, j: nat): (d: nat)
    requires j < |lists| && AllNonEmpty(lists)
    ensures d < |lists[j]|
  {
    Quotient(lists, i, j) % |lists[j]|
  }

  function Row(lists: seq<seq<int>>, i: nat): seq<int>
    requires AllNonEmpty(lists)
  {
    seq(|lists|, j requires 0 <= j < |lists| => lists[j][Digit(lists, i, j)])
  }

  function Rows(lists: seq<seq<int>>, n: nat): seq<seq<int>>
    requires AllNonEmpty(lists)
  {
    if n == 0 then [] else Rows(lists, n - 1) + [Row(lists, n - 1)]
  }

  function Product(lists: seq<seq<int>>): seq<seq<int>> {
    if AllNonEmpty(lists) then Rows(lists, Before(lists, |lists|)) else []
  }

  // ----- Arithmetic of one digit

  lemma DivStep(q: nat, s: nat)
    requires s >= 1
    ensures (q % s + 1) % s == (q + 1) % s
    ensures (q + 1) / s == q / s + (if (q + 1) % s == 0 then 1 else 0)
  {
    var d, r := q / s, q % s;
    assert q == s * d + r;
    if r + 1 == s {
      DivUnique(q + 1, s, d + 1, 0);
      DivUnique(r + 1, s, 1, 0);
      assert s * (d + 1) == s * d + s;
    } else {
      DivUnique(q + 1, s, d, r + 1);
      DivUnique(r + 1, s, 0, r + 1);
    }
  }

  lemma DivUnique(x: int, s: int, d: int, r: int)
    requires s >= 1 && x == s * d + r && 0 <= r < s
    ensures x / s == d && x % s == r
  {
    var d', r' := x / s, x % s;
    assert x == s * d' + r';
    assert s * (d' - d) == r - r';
    SmallMultiple(s, d' - d, r - r');
  }

  lemma SmallMultiple(s: int, m: int, t: int)
    requires s >= 1 && s * m == t && -s < t < s
    ensures m == 0
  {
  }

  // ----- The odometer

  // Counting from i to i + 1 carries into position j exactly when all digits before j of
  // i + 1 are zero.
  predicate ZeroBefore(lists: seq<seq<int>>, i: nat, j: nat)
    requires j <= |lists| && AllNonEmpty(lists)
  {
    forall k :: 0 <= k < j ==> Digit(lists, i, k) == 0
  }

  lemma ZeroOneFurther(lists: seq<seq<int>>, i: nat, j: nat)
    requires j < |lists| && AllNonEmpty(lists)
    ensures ZeroBefore(lists, i, j + 1) <==> ZeroBefore(lists, i, j) && Digit(lists, i, j) == 0
  {
  }

  lemma {:induction false} Carry(lists: seq<seq<int>>, i: nat, j: nat)
    requires j <= |lists| && AllNonEmpty(lists)
    ensures Quotient(lists, i + 1, j) == Quotient(lists, i, j) + (if ZeroBefore(lists, i + 1, j) then 1 else 0)
  {
    if j > 0 {
      Carry(lists, i, j - 1);
      ZeroOneFurther(lists, i + 1, j - 1);
      DivStep(Quotient(lists, i, j - 1), |lists[j - 1]|);
    }
  }

  // How the digit at j moves.
  lemma NextDigit(lists: seq<seq<int>>, i: nat, j: nat)
    requires j < |lists| && AllNonEmpty(lists)
    ensures Digit(lists, i + 1, j) ==
              if ZeroBefore(lists, i + 1, j) then (Digit(lists, i, j) + 1) % |lists[j]| else Digit(lists, i, j)
  {
    Carry(lists, i, j);
    DivStep(Quotient(lists, i, j), |lists[j]|);
  }

  class Benchmark {
    var args: seq<seq<int>>
    var threadCounts: seq<int>
    const argNames: seq<string>

    constructor (names: seq<string>)
      ensures args == [] && threadCounts == [] && argNames == names
    {
      args, threadCounts, argNames := [], [], names;
    }

    function ArgsCnt(): int
      reads this
    {
      if args == [] then (if argNames == [] then -1 else |argNames|) else |args[0]|
    }

    method Args(a: seq<int>)
      requires ArgsCnt() == -1 || ArgsCnt() == |a|
      modifies this`args
      ensures args == old(args) + [a]
    {
      args := args + [a];
    }

    // Appends one row per combination; with an empty list among them there is none.
    method ArgsProduct(lists: seq<seq<int>>)
      requires lists != []
      requires ArgsCnt() == -1 || ArgsCnt() == |lists|
      modifies this`args
      ensures args == old(args) + Product(lists)
    {
      var indices := new nat[|lists|](_ => 0);
      var total := 1;
      var n := 0;
      while n < |lists|
        invariant 0 <= n <= |lists| && total == Before(lists, n)
      {
        total := total * |lists[n]|;
        n := n + 1;
      }
      TotalIsZero(lists, |lists|);
      if total > 0 {
        StartDigits(lists);
      }
      var i := 0;
      while i < total
        invariant 0 <= i <= total && (total > 0 ==> AllNonEmpty(lists))
        invariant AllNonEmpty(lists) ==> args == old(args) + Rows(lists, i)
        invariant !AllNonEmpty(lists) ==> args == old(args)
        invariant fresh(indices) && indices.Length == |lists|
        invariant total > 0 ==> forall j :: 0 <= j < |lists| ==> indices[j] == Digit(lists, i, j)
      {
        var row: seq<int> := [];
        var arg := 0;
        while arg < |lists|
          invariant 0 <= arg <= |lists|
          invariant row == Row(lists, i)[..arg]
        {
          row := row + [lists[arg][indices[arg]]];
          arg := arg + 1;
        }
        assert row == Row(lists, i);
        args := args + [row];
        assert Rows(lists, i + 1) == Rows(lists, i) + [row];
        Advance(lists, indices, i);
        i := i + 1;
      }
    }
  }

  // The do-while loop that turns the odometer from row i to row i + 1.
  method Advance(lists: seq<seq<int>>, indices: array<nat>, i: nat)
    requires lists != [] && AllNonEmpty(lists) && indices.Length == |lists|
    requires forall j :: 0 <= j < |lists| ==> indices[j] == Digit(lists, i, j)
    modifies indices
    ensures forall j :: 0 <= j < |lists| ==> indices[j] == Digit(lists, i + 1, j)
  {
    var arg := 0;
    while true
      invariant 0 <= arg < |lists| && ZeroBefore(lists, i + 1, arg)
      invariant forall j :: 0 <= j < arg ==> indices[j] == Digit(lists, i + 1, j)
      invariant forall j :: arg <= j < |lists| ==> indices[j] == Digit(lists, i, j)
      decreases |lists| - arg
    {
      NextDigit(lists, i, arg);
      indices[arg] := (indices[arg] + 1) % |lists[arg]|;
      arg := arg + 1;
      if !(indices[arg - 1] == 0 && arg < |lists|) {
        break;
      }
    }
    forall j | arg <= j < |lists| ensures indices[j] == Digit(lists, i + 1, j) {
      NextDigit(lists, i, j);
    }
  }

  lemma {:induction false} TotalIsZero(lists: seq<seq<int>>, n: nat)
    requires n <= |lists|
    ensures Before(lists, n) > 0 <==> forall j :: 0 <= j < n ==> lists[j] != []
  {
    if n > 0 {
      TotalIsZero(lists, n - 1);
      if lists[n - 1] != [] && Before(lists, n - 1) > 0 {
        ProductPositive(Before(lists, n - 1), |lists[n - 1]|);
      }
    }
  }

  lemma ProductPositive(a: int, b: int)
    requires a > 0 && b > 0
    ensures a * b > 0
  {
  }

  lemma StartDigits(lists: seq<seq<int>>)
    requires AllNonEmpty(lists)
    ensures forall j :: 0 <= j < |lists| ==> Digit(lists, 0, j) == 0
  {
    forall j | 0 <= j < |lists| ensures Digit(lists, 0, j) == 0 {
      ZeroQuotient(lists, j);
    }
  }

  lemma {:induction false} ZeroQuotient(lists: seq<seq<int>>, j: nat)
    requires j <= |lists| && AllNonEmpty(lists)
    ensures Quotient(lists, 0, j) == 0
  {
    if j > 0 {
      ZeroQuotient(lists, j - 1);
    }
  }

  // ----- The enumeration is the Cartesian product, each combination once

  predicate IsChoice(lists: seq<seq<int>>, d: seq<nat>) {
    |d| == |lists| && forall j :: 0 <= j < |d| ==> d[j] < |lists[j]|
  }

  function Digits(lists: seq<seq<int>>, i: nat): (d: seq<nat>)
    requires AllNonEmpty(lists)
    ensures IsChoice(lists, d)
  {
    seq(|lists|, j requires 0 <= j < |lists| => Digit(lists, i, j))
  }

  // The row number at which a choice of indices comes up.
  function Encode(lists: seq<seq<int>>, d: seq<nat>, j: nat): nat
    requires IsChoice(lists, d) && j <= |lists|
    decreases |lists| - j
  {
    if j == |lists| then 0 else d[j] + |lists[j]| * Encode(lists, d, j + 1)
  }

  lemma {:induction false} EncodeInRange(lists: seq<seq<int>>, d: seq<nat>, j: nat)
    requires IsChoice(lists, d) && j <= |lists|
    ensures Encode(lists, d, j) < From(lists, j)
    decreases |lists| - j
  {
    if j < |lists| {
      EncodeInRange(lists, d, j + 1);
      BelowProduct(|lists[j]|, d[j], Encode(lists, d, j + 1), From(lists, j + 1));
    }
  }

  lemma BelowProduct(s: int, r: int, q: int, t: int)
    requires 0 <= r < s && q < t
    ensures r + s * q < s * t
  {
    ProductMonotone(s, t, q + 1);
    assert s * (q + 1) == s * q + s;
  }

  lemma {:induction false} QuotientOfEncode(lists: seq<seq<int>>, d: seq<nat>, j: nat)
    requires IsChoice(lists, d) && AllNonEmpty(lists) && j <= |lists|
    ensures Quotient(lists, Encode(lists, d, 0), j) == Encode(lists, d, j)
  {
    if j > 0 {
      QuotientOfEncode(lists, d, j - 1);
      DivUnique(Encode(lists, d, j - 1), |lists[j - 1]|, Encode(lists, d, j), d[j - 1]);
    }
  }

  lemma {:induction false} QuotientInRange(lists: seq<seq<int>>, i: nat, j: nat)
    requires AllNonEmpty(lists) && j <= |lists| && i < From(lists, 0)
    ensures Quotient(lists, i, j) < From(lists, j)
  {
    if j > 0 {
      QuotientInRange(lists, i, j - 1);
      DivBelow(Quotient(lists, i, j - 1), |lists[j - 1]|, From(lists, j));
    }
  }

  lemma DivBelow(q: int, s: int, t: int)
    requires s >= 1 && 0 <= q < s * t
    ensures q / s < t
  {
    var d := q / s;
    assert q == s * d + q % s;
    ProductMonotone(s, d, t);
  }

  lemma ProductMonotone(s: int, d: int, t: int)
    requires s >= 1
    ensures d >= t ==> s * d >= s * t
  {
    assert s * d - s * t == s * (d - t);
  }

  lemma {:induction false} EncodeOfDigits(lists: seq<seq<int>>, i: nat, j: nat)
    requires AllNonEmpty(lists) && j <= |lists| && i < From(lists, 0)
    ensures Encode(lists, Digits(lists, i), j) == Quotient(lists, i, j)
    decreases |lists| - j
  {
    if j < |lists| {
      EncodeOfDigits(lists, i, j + 1);
      DivisionBack(Quotient(lists, i, j), |lists[j]|);
    } else {
      QuotientInRange(lists, i, j);
    }
  }

  lemma DivisionBack(q: int, s: int)
    requires s >= 1
    ensures q == q % s + s * (q / s)
  {
  }

  lemma {:induction false} BeforeTimesFrom(lists: seq<seq<int>>, j: nat)
    requires j <= |lists|
    ensures Before(lists, j) * From(lists, j) == From(lists, 0)
  {
    if j > 0 {
      BeforeTimesFrom(lists, j - 1);
      Regroup(Before(lists, j - 1), |lists[j - 1]|, From(lists, j));
    }
  }

  lemma Regroup(a: int, b: int, c: int)
    ensures a * (b * c) == (a * b) * c
  {
  }

  lemma {:induction false} RowsAt(lists: seq<seq<int>>, n: nat, i: nat)
    requires AllNonEmpty(lists) && i < n
    ensures |Rows(lists, n)| == n && Rows(lists, n)[i] == Row(lists, i)
  {
    if n > 1 {
      RowsAt(lists, n - 1, if i < n - 1 then i else 0);
    }
  }

  // Row numbers and choices of indices correspond one to one: the odometer shows every
  // choice exactly once.
  lemma RowsAreChoices(lists: seq<seq<int>>, i: nat, d: seq<nat>)
    requires AllNonEmpty(lists) && IsChoice(lists, d)
    ensures Encode(lists, d, 0) < |Product(lists)|
    ensures Digits(lists, Encode(lists, d, 0)) == d
    ensures i < |Product(lists)| ==> Encode(lists, Digits(lists, i), 0) == i
  {
    BeforeTimesFrom(lists, |lists|);
    TotalIsZero(lists, |lists|);
    RowsAt(lists, Before(lists, |lists|), 0);
    EncodeInRange(lists, d, 0);
    forall j | 0 <= j < |lists| ensures Digit(lists, Encode(lists, d, 0), j) == d[j] {
      QuotientOfEncode(lists, d, j);
      DivUnique(Encode(lists, d, j), |lists[j]|, Encode(lists, d, j + 1), d[j]);
    }
    if i < |Product(lists)| {
      EncodeOfDigits(lists, i, 0);
    }
  }

  // The element that row i takes from list j.
  lemma ElementOfRow(lists: seq<seq<int>>, i: nat, j: nat)
    requires AllNonEmpty(lists) && i < |Product(lists)| && j < |lists|
    ensures Before(lists, j) >= 1
    ensures |Product(lists)[i]| == |lists|
    ensures Product(lists)[i][j] == lists[j][(i / Before(lists, j)) % |lists[j]|]
  {
    TotalIsZero(lists, |lists|);
    RowsAt(lists, Before(lists, |lists|), 0);
    RowsAt(lists, Before(lists, |lists|), i);
    QuotientIsDivision(lists, i, j);
  }

  lemma {:induction false} QuotientIsDivision(lists: seq<seq<int>>, i: nat, j: nat)
    requires AllNonEmpty(lists) && j <= |lists|
    ensures Before(lists, j) >= 1 && Quotient(lists, i, j) == i / Before(lists, j)
  {
    if j > 0 {
      QuotientIsDivision(lists, i, j - 1);
      DivTwice(i, Before(lists, j - 1), |lists[j - 1]|);
    }
  }

  lemma DivTwice(i: int, a: int, b: int)
    requires i >= 0 && a >= 1 && b >= 1
    ensures a * b >= 1 && (i / a) / b == i / (a * b)
  {
    var q := i / a;
    var d := q / b;
    assert i == a * q + i % a;
    assert q == b * d + q % b;
    ProductPositive(a, b);
    BelowProduct(a, i % a, q % b, b);
    assert a * (b * d + q % b) == a * (b * d) + a * (q % b);
    Regroup(a, b, d);
    DivUnique(i, a * b, d, i % a + a * (q % b));
  }

  // After the last row the odometer is back at all zeros.
  lemma OdometerReturns(lists: seq<seq<int>>, j: nat)
    requires AllNonEmpty(lists) && j < |lists|
    ensures Digit(lists, Before(lists, |lists|), j) == 0
  {
    BeforeTimesFrom(lists, |lists|);
    FullQuotient(lists, j);
    DivUnique(From(lists, j), |lists[j]|, From(lists, j + 1), 0);
  }

  lemma {:induction false} FullQuotient(lists: seq<seq<int>>, j: nat)
    requires AllNonEmpty(lists) && j <= |lists|
    ensures Quotient(lists, From(lists, 0), j) == From(lists, j)
  {
    if j > 0 {
      FullQuotient(lists, j - 1);
      DivUnique(From(lists, j - 1), |lists[j - 1]|, From(lists, j), 0);
    }
  }

  // ----- Benchmark::Ranges

  // The product of the ranges given by their ends.
  method MakeRanges(kmax: int, b: Benchmark, ranges: seq<(int, int)>, mult: int)
    requires R.IsTypeMax(kmax) && mult >= 2 && ranges != []
    requires forall j :: 0 <= j < |ranges| ==>
      R.Fits(kmax, ranges[j].0) && R.Fits(kmax, ranges[j].1) && ranges[j].0 <= ranges[j].1
    requires b.ArgsCnt() == -1 || b.ArgsCnt() == |ranges|
    modifies b`args
    ensures exists lists: seq<seq<int>> ::
      && |lists| == |ranges| && b.args == old(b.args) + Product(lists)
      && forall j :: 0 <= j < |lists| ==> R.ListsRange(lists[j], ranges[j].0, ranges[j].1, R.Marks(mult))
  {
    var lists: seq<seq<int>> := [];
    var i := 0;
    while i < |ranges|
      invariant 0 <= i <= |ranges| && |lists| == i && b.args == old(b.args)
      invariant forall j :: 0 <= j < i ==> R.ListsRange(lists[j], ranges[j].0, ranges[j].1, R.Marks(mult))
    {
      var list := new R.Vector();
      R.AddRange(kmax, list, ranges[i].0, ranges[i].1, mult);
      assert list.elems[0..] == list.elems;
      lists := lists + [list.elems];
      i := i + 1;
    }
    b.ArgsProduct(lists);
  }
}
