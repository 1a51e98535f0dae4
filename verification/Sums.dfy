// Sums of an integer-valued function over a sequence, with the few facts that the
// counting invariants of the other modules rest on.
module Sums {
  function Sum<T>(f: T -> int, s: seq<T>): int {
    if s == [] then 0 else f(s[0]) + Sum(f, s[1..])
  }

  // Replacing one element changes the sum by the difference of the two values.
  lemma {:induction false} SumUpdate<T>(f: T -> int, s: seq<T>, i: nat, v: T)
    requires i < |s|
    ensures Sum(f, s[i := v]) == Sum(f, s) - f(s[i]) + f(v)
  {
    if i == 0 {
      assert s[i := v][1..] == s[1..];
    } else {
      SumUpdate(f, s[1..], i - 1, v);
      assert s[i := v][1..] == s[1..][i - 1 := v];
    }
  }

  // Two sequences with pointwise equal values have equal sums.
  lemma {:induction false} SumPointwise<S, T>(f: S -> int, s: seq<S>, g: T -> int, t: seq<T>)
    requires |s| == |t|
    requires forall i :: 0 <= i < |s| ==> f(s[i]) == g(t[i])
    ensures Sum(f, s) == Sum(g, t)
  {
    if s != [] {
      SumPointwise(f, s[1..], g, t[1..]);
    }
  }

  lemma {:induction false} SumConstant<T>(s: seq<T>, c: int)
    ensures Sum((x: T) => c, s) == c * |s|
  {
    if s != [] {
      SumConstant(s[1..], c);
    }
  }

  lemma {:induction false} SumAtMost<T>(f: T -> int, s: seq<T>, bound: int)
    requires forall i :: 0 <= i < |s| ==> f(s[i]) <= bound
    ensures Sum(f, s) <= bound * |s|
  {
    if s != [] {
      SumAtMost(f, s[1..], bound);
    }
  }

  lemma {:induction false} SumNonNegative<T>(f: T -> int, s: seq<T>)
    requires forall i :: 0 <= i < |s| ==> 0 <= f(s[i])
    ensures 0 <= Sum(f, s)
    ensures forall i :: 0 <= i < |s| ==> f(s[i]) <= Sum(f, s)
  {
    if s != [] {
      SumNonNegative(f, s[1..]);
      forall i | 0 <= i < |s| ensures f(s[i]) <= Sum(f, s) {
        if i > 0 {
          assert s[i] == s[1..][i - 1];
        }
      }
    }
  }

  // A pointwise smaller function has a smaller sum, and equal sums force equal values.
  lemma {:induction false} SumDominated<T>(f: T -> int, g: T -> int, s: seq<T>)
    requires forall i :: 0 <= i < |s| ==> f(s[i]) <= g(s[i])
    ensures Sum(f, s) <= Sum(g, s)
    ensures Sum(f, s) == Sum(g, s) ==> forall i :: 0 <= i < |s| ==> f(s[i]) == g(s[i])
  {
    if s != [] {
      SumDominated(f, g, s[1..]);
      if Sum(f, s) == Sum(g, s) {
        forall i | 0 <= i < |s| ensures f(s[i]) == g(s[i]) {
          if i > 0 {
            assert s[i] == s[1..][i - 1];
          }
        }
      }
    }
  }

  lemma {:induction false} SumAppend<T>(f: T -> int, s: seq<T>, t: seq<T>)
    ensures Sum(f, s + t) == Sum(f, s) + Sum(f, t)
  {
    if s == [] {
      assert s + t == t;
    } else {
      SumAppend(f, s[1..], t);
      assert (s + t)[1..] == s[1..] + t;
    }
  }
}

/** Sums of reals over a sequence. */
module RealSums {
  function Sum<T>(f: T -> real, s: seq<T>): real {
    if s == [] then 0.0 else f(s[0]) + Sum(f, s[1..])
  }

  lemma {:induction false} SumConcat<T>(f: T -> real, s: seq<T>, t: seq<T>)
    ensures Sum(f, s + t) == Sum(f, s) + Sum(f, t)
  {
    if s == [] {
      assert s + t == t;
    } else {
      SumConcat(f, s[1..], t);
      assert (s + t)[1..] == s[1..] + t;
    }
  }

  lemma SumSnoc<T>(f: T -> real, s: seq<T>, x: T)
    ensures Sum(f, s + [x]) == Sum(f, s) + f(x)
  {
    SumConcat(f, s, [x]);
  }

  lemma TakeOut<T>(s: seq<T>, j: nat)
    requires j < |s|
    ensures multiset(s[..j] + s[j + 1..]) == multiset(s) - multiset{s[j]}
  {
    assert s == s[..j] + ([s[j]] + s[j + 1..]);
  }

  lemma TakeOutBoth<T>(s: seq<T>, t: seq<T>, j: nat)
    requires s != [] && multiset(s) == multiset(t) && j < |t| && t[j] == s[0]
    ensures multiset(s[1..]) == multiset(t[..j] + t[j + 1..])
  {
    TakeOut(t, j);
    assert s == [s[0]] + s[1..];
  }

  lemma SumTakeOut<T>(f: T -> real, s: seq<T>, j: nat)
    requires j < |s|
    ensures Sum(f, s) == f(s[j]) + Sum(f, s[..j] + s[j + 1..])
  {
    assert s == s[..j] + ([s[j]] + s[j + 1..]);
    SumConcat(f, s[..j], [s[j]] + s[j + 1..]);
    SumConcat(f, [s[j]], s[j + 1..]);
    SumConcat(f, s[..j], s[j + 1..]);
  }

  // The order of the terms does not matter.
  lemma {:induction false} SumPermutation<T>(f: T -> real, s: seq<T>, t: seq<T>)
    requires multiset(s) == multiset(t)
    ensures Sum(f, s) == Sum(f, t)
    decreases |s|
  {
    if s == [] {
      assert |multiset(t)| == 0;
    } else {
      assert s[0] in multiset(t);
      var j :| 0 <= j < |t| && t[j] == s[0];
      var rest, rest' := s[1..], t[..j] + t[j + 1..];
      TakeOutBoth(s, t, j);
      SumPermutation(f, rest, rest');
      SumTakeOut(f, t, j);
    }
  }

  // Two sequences with pointwise equal values have equal sums.
  lemma {:induction false} SumPointwise<S, T>(f: S -> real, s: seq<S>, g: T -> real, t: seq<T>)
    requires |s| == |t|
    requires forall i :: 0 <= i < |s| ==> f(s[i]) == g(t[i])
    ensures Sum(f, s) == Sum(g, t)
  {
    if s != [] {
      SumPointwise(f, s[1..], g, t[1..]);
    }
  }

  lemma {:induction false} SumMonotone<T>(f: T -> real, g: T -> real, s: seq<T>)
    requires forall i :: 0 <= i < |s| ==> f(s[i]) <= g(s[i])
    ensures Sum(f, s) <= Sum(g, s)
  {
    if s != [] {
      SumMonotone(f, g, s[1..]);
    }
  }
}
