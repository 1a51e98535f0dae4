/** AddPowers, AddNegatedPowers and AddRange (src/benchmark_register.h) over a bounded signed
    integer type. Every value the code computes goes through `Cast`, whose precondition is
    that the value fits the type. */
module Ranges {
  import opened Arithmetic

  // The largest value of a two's complement type of at least eight bits.
  predicate IsTypeMax(kmax: int) { kmax >= 127 }

  predicate Fits(kmax: int, x: int) { -kmax - 1 <= x <= kmax }

  // static_cast<T>, which must not change the value.
  function Cast(kmax: int, x: int): (r: int)
    requires Fits(kmax, x)
    ensures r == x
  {
    x
  }

  ghost predicate IsPower(mult: int, x: int) { exists k: nat :: Pow(mult, k) == x }

  predicate Increasing(s: seq<int>) { forall i, j :: 0 <= i < j < |s| ==> s[i] < s[j] }

  // s lists, in increasing order, the numbers of [lo, hi] that satisfy p.
  ghost predicate Lists(s: seq<int>, lo: int, hi: int, p: int -> bool) {
    Increasing(s) && forall x :: x in s <==> lo <= x <= hi && p(x)
  }

  ghost function Powers(mult: int): int -> bool { x => IsPower(mult, x) }

  ghost function NegatedPowers(mult: int): int -> bool { x => IsPower(mult, -x) }

  // What belongs strictly between the ends of a range.
  ghost function Marks(mult: int): int -> bool { x => x == 0 || IsPower(mult, x) || IsPower(mult, -x) }

  // s is the range from lo to hi: its ends, and every mark between them.
  ghost predicate ListsRange(s: seq<int>, lo: int, hi: int, p: int -> bool) {
    && s != [] && s[0] == lo && s[|s| - 1] == hi && Increasing(s)
    && forall x :: x in s <==> x == lo || x == hi || (lo < x < hi && p(x))
  }

  // ----- Powers

  lemma TimesAtLeast(b: int, p: int)
    requires b >= 2 && p >= 1
    ensures b * p >= 2 * p
  {
    assert (b - 2) * p >= 0;
  }

  lemma {:induction false} PowGrows(b: int, j: nat, k: nat)
    requires b >= 2 && j < k
    ensures b * Pow(b, j) <= Pow(b, k)
  {
    if j < k - 1 {
      PowGrows(b, j, k - 1);
      PowPositive(b, k - 1);
      TimesAtLeast(b, Pow(b, k - 1));
    }
  }

  // Nothing lies between one power and the next.
  lemma PowersAreApart(mult: int, k: nat, x: int)
    requires mult >= 2 && IsPower(mult, x)
    ensures x >= 1
    ensures x > Pow(mult, k) ==> x >= mult * Pow(mult, k)
  {
    var j: nat :| Pow(mult, j) == x;
    PowPositive(mult, j);
    if k < j {
      PowGrows(mult, k, j);
    } else if j < k {
      PowGrows(mult, j, k);
      TimesAtLeast(mult, Pow(mult, j));
    }
  }

  class Vector {
    var elems: seq<int>

    constructor ()
      ensures elems == []
    {
      elems := [];
    }
  }

  // One round of a loop that visits the candidates i < next in order.
  lemma ListStep(s: seq<int>, lo: int, hi: int, p: int -> bool, i: int, next: int)
    requires Lists(s, lo, i - 1, p) && p(i) && i < next && i <= hi
    requires forall x :: p(x) ==> x <= i || next <= x
    requires AllAtMost(s, hi)
    ensures AllAtMost(if i >= lo then s + [i] else s, hi)
    ensures Lists(if i >= lo then s + [i] else s, lo, next - 1, p)
  {
    assert forall j :: 0 <= j < |s| ==> s[j] in s;
    assert forall x :: x in s + [i] <==> x in s || x == i;
  }

  lemma ListEnd(s: seq<int>, lo: int, hi: int, p: int -> bool, next: int)
    requires Lists(s, lo, next - 1, p) && hi < next && AllAtMost(s, hi)
    ensures Lists(s, lo, hi, p)
  {
  }

  lemma NextPower(mult: int, k: nat)
    requires mult >= 2
    ensures Pow(mult, k) >= 1 && Powers(mult)(Pow(mult, k))
    ensures forall x :: Powers(mult)(x) ==> x >= 1 && (x <= Pow(mult, k) || mult * Pow(mult, k) <= x)
    ensures Pow(mult, k) < mult * Pow(mult, k) == Pow(mult, k + 1)
  {
    PowPositive(mult, k);
    TimesAtLeast(mult, Pow(mult, k));
    assert IsPower(mult, Pow(mult, k));
    forall x | Powers(mult)(x) ensures x >= 1 && (x <= Pow(mult, k) || mult * Pow(mult, k) <= x) {
      PowersAreApart(mult, k, x);
    }
  }

  // Appends the powers of mult in [lo, hi]; returns where they start.
  method AddPowers(kmax: int, dst: Vector, lo: int, hi: int, mult: int) returns (start: nat)
    requires IsTypeMax(kmax) && Fits(kmax, lo) && Fits(kmax, hi)
    requires 0 <= lo <= hi && mult >= 2
    modifies dst
    ensures start == |old(dst.elems)| <= |dst.elems| && dst.elems[..start] == old(dst.elems)
    ensures Lists(dst.elems[start..], lo, hi, Powers(mult))
  {
    start := |dst.elems|;
    ghost var added: seq<int> := [];
    var i := Cast(kmax, 1);
    ghost var k: nat := 0;
    NextPower(mult, 0);
    while i <= hi
      invariant i == Pow(mult, k) && 1 <= i <= kmax
      invariant dst.elems == old(dst.elems) + added
      invariant Lists(added, lo, i - 1, Powers(mult)) && AllAtMost(added, hi)
      decreases hi - i
    {
      NextPower(mult, k);
      ListStep(added, lo, hi, Powers(mult), i, Pow(mult, k + 1));
      if i >= lo {
        dst.elems := dst.elems + [i];
        added := added + [i];
      }
      k := k + 1;
      GuardIsExact(kmax, mult, i);
      if i > kmax / mult {
        break;
      }
      i := Cast(kmax, i * mult);
    }
    ListEnd(added, lo, hi, Powers(mult), Pow(mult, k));
    assert dst.elems[start..] == added;
  }

  predicate AllAtMost(s: seq<int>, hi: int) { forall x :: x in s ==> x <= hi }

  // The overflow guard lets exactly those products through that fit the type.
  lemma GuardIsExact(kmax: int, mult: int, i: int)
    requires mult >= 2 && kmax >= 0 && i >= 1
    ensures i > kmax / mult <==> mult * i > kmax
    ensures i < i * mult == mult * i
  {
    var q := kmax / mult;
    TimesAtLeast(mult, i);
    assert kmax == mult * q + kmax % mult;
    TimesMonotone(mult, i, q + 1);
    TimesMonotone(mult, q, i);
  }

  lemma TimesMonotone(m: int, a: int, b: int)
    requires m >= 1
    ensures a >= b ==> m * a >= m * b
    ensures m * (a + 1) == m * a + m && m * (b + 1) == m * b + m
  {
    assert m * a - m * b == m * (a - b);
  }

  // Appends the negated powers of mult in [lo, hi], by negating and reversing a suffix.
  method AddNegatedPowers(kmax: int, dst: Vector, lo: int, hi: int, mult: int)
    requires IsTypeMax(kmax) && Fits(kmax, lo) && Fits(kmax, hi)
    requires lo > -kmax - 1 && hi > -kmax - 1 && lo <= hi <= 0 && mult >= 2
    modifies dst
    ensures |old(dst.elems)| <= |dst.elems| && dst.elems[..|old(dst.elems)|] == old(dst.elems)
    ensures Lists(dst.elems[|old(dst.elems)|..], lo, hi, NegatedPowers(mult))
  {
    var loComplement := Cast(kmax, -lo);
    var hiComplement := Cast(kmax, -hi);
    var it := AddPowers(kmax, dst, hiComplement, loComplement, mult);
    ghost var powers := dst.elems[it..];
    NegateFrom(kmax, dst, it);
    ReverseFrom(dst, it);
    NegatedReverse(powers, dst.elems[it..], lo, hi, Powers(mult), NegatedPowers(mult));
  }

  // std::for_each over the suffix.
  method NegateFrom(kmax: int, dst: Vector, it: nat)
    requires it <= |dst.elems|
    requires forall x :: x in dst.elems[it..] ==> Fits(kmax, -x)
    modifies dst
    ensures |dst.elems| == |old(dst.elems)| && dst.elems[..it] == old(dst.elems)[..it]
    ensures forall j :: it <= j < |dst.elems| ==> dst.elems[j] == -old(dst.elems)[j]
  {
    var j := it;
    while j < |dst.elems|
      invariant it <= j <= |dst.elems| == |old(dst.elems)|
      invariant dst.elems[..it] == old(dst.elems)[..it]
      invariant forall k :: it <= k < j ==> dst.elems[k] == -old(dst.elems)[k]
      invariant forall k :: j <= k < |dst.elems| ==> dst.elems[k] == old(dst.elems)[k]
    {
      assert old(dst.elems)[j] in old(dst.elems)[it..];
      dst.elems := dst.elems[j := Cast(kmax, dst.elems[j] * -1)];
      j := j + 1;
    }
  }

  // std::reverse over the suffix.
  method ReverseFrom(dst: Vector, it: nat)
    requires it <= |dst.elems|
    modifies dst
    ensures |dst.elems| == |old(dst.elems)| && dst.elems[..it] == old(dst.elems)[..it]
    ensures forall j :: it <= j < |dst.elems| ==> dst.elems[j] == old(dst.elems)[it + |dst.elems| - 1 - j]
  {
    var i, j := it, |dst.elems|;
    while i + 1 < j
      invariant it <= i <= j <= |dst.elems| == |old(dst.elems)| && i + j == it + |dst.elems|
      invariant dst.elems[..it] == old(dst.elems)[..it]
      invariant forall k :: it <= k < i || j <= k < |dst.elems| ==> dst.elems[k] == old(dst.elems)[it + |dst.elems| - 1 - k]
      invariant forall k :: i <= k < j ==> dst.elems[k] == old(dst.elems)[k]
    {
      j := j - 1;
      dst.elems := dst.elems[i := dst.elems[j]][j := dst.elems[i]];
      i := i + 1;
    }
  }

  lemma NegatedReverse(s: seq<int>, t: seq<int>, lo: int, hi: int, p: int -> bool, n: int -> bool)
    requires Lists(s, -hi, -lo, p) && |t| == |s|
    requires forall j :: 0 <= j < |t| ==> t[j] == -s[|t| - 1 - j]
    requires forall x :: n(x) <==> p(-x)
    ensures Lists(t, lo, hi, n)
  {
    forall x ensures x in t <==> lo <= x <= hi && n(x) {
      assert -x in s <==> lo <= x <= hi && n(x);
      if -x in s {
        var j :| 0 <= j < |s| && s[j] == -x;
        assert t[|t| - 1 - j] == x;
      }
    }
  }

  lemma PowersHaveSigns(mult: int)
    requires mult >= 2
    ensures forall x :: Powers(mult)(x) ==> x >= 1
    ensures forall x :: NegatedPowers(mult)(x) ==> x <= -1
  {
    NextPower(mult, 0);
    forall x | NegatedPowers(mult)(x) ensures x <= -1 {
      assert Powers(mult)(-x);
    }
  }

  // The parts of a range: what AddNegatedPowers, the special case for 0, AddPowers and the
  // final push contribute.
  ghost predicate AreParts(
      lo: int, hi: int, negatives: seq<int>, zero: seq<int>, positives: seq<int>, p: int -> bool, n: int -> bool)
  {
    && lo + 1 < hi
    && (if lo + 1 < 0 then Lists(negatives, lo + 1, if hi - 1 < -1 then hi - 1 else -1, n) else negatives == [])
    && zero == (if lo < 0 && hi >= 0 then [0] else [])
    && (if hi - 1 > 0 then Lists(positives, if lo + 1 > 1 then lo + 1 else 1, hi - 1, p) else positives == [])
    && (forall x :: p(x) ==> x >= 1) && (forall x :: n(x) ==> x <= -1)
  }

  function Last(hi: int, zero: seq<int>): seq<int> {
    if zero == [0] && hi == 0 then [] else [hi]
  }

  // Which numbers the parts hold.
  lemma PartsHold(
      lo: int, hi: int, negatives: seq<int>, zero: seq<int>, positives: seq<int>, p: int -> bool, n: int -> bool, x: int)
    requires AreParts(lo, hi, negatives, zero, positives, p, n)
    ensures x in negatives <==> lo < x < hi && n(x)
    ensures x in positives <==> lo < x < hi && p(x)
    ensures x in zero + Last(hi, zero) <==> x == hi || (lo < x < hi && x == 0)
  {
  }

  lemma RangeFromParts(
      lo: int, hi: int, negatives: seq<int>, zero: seq<int>, positives: seq<int>,
      p: int -> bool, n: int -> bool, marks: int -> bool)
    requires AreParts(lo, hi, negatives, zero, positives, p, n)
    requires forall x :: marks(x) <==> x == 0 || p(x) || n(x)
    ensures ListsRange([lo] + negatives + zero + positives + Last(hi, zero), lo, hi, marks)
  {
    var s := [lo] + negatives + zero + positives + Last(hi, zero);
    forall x ensures x in s <==> x == lo || x == hi || (lo < x < hi && marks(x)) {
      assert x in s <==> x == lo || x in negatives || x in zero + Last(hi, zero) || x in positives;
      PartsHold(lo, hi, negatives, zero, positives, p, n, x);
    }
    PartsAreIncreasing(lo, hi, negatives, zero, positives, p, n);
  }

  predicate Within(s: seq<int>, lo: int, hi: int) { forall x :: x in s ==> lo <= x <= hi }

  // The largest value that the ends and the parts before zero, and up to zero, may hold.
  function MaxNegative(lo: int, hi: int): int { if lo >= 0 then lo else if hi - 1 < -1 then hi - 1 else -1 }

  function MaxZero(lo: int, hi: int): int { if lo < 0 && hi >= 0 then 0 else MaxNegative(lo, hi) }

  lemma PartBounds(
      lo: int, hi: int, negatives: seq<int>, zero: seq<int>, positives: seq<int>, p: int -> bool, n: int -> bool)
    requires AreParts(lo, hi, negatives, zero, positives, p, n)
    ensures Increasing(negatives) && Within(negatives, lo + 1, MaxNegative(lo, hi))
    ensures Increasing(positives) && Within(positives, (if lo < 0 then 0 else lo) + 1, hi - 1)
    ensures zero == (if lo < 0 && hi >= 0 then [0] else []) && (hi <= 0 ==> positives == [])
  {
  }

  lemma PartsAreIncreasing(
      lo: int, hi: int, negatives: seq<int>, zero: seq<int>, positives: seq<int>, p: int -> bool, n: int -> bool)
    requires AreParts(lo, hi, negatives, zero, positives, p, n)
    ensures var s := [lo] + negatives + zero + positives + Last(hi, zero);
      Increasing(s) && s[|s| - 1] == hi
  {
    PartBounds(lo, hi, negatives, zero, positives, p, n);
    var m1, m2 := MaxNegative(lo, hi), MaxZero(lo, hi);
    var m3 := if m2 > hi - 1 then m2 else hi - 1;
    var s1 := [lo] + negatives;
    Glue([lo], negatives, lo, lo, m1);
    Glue(s1, zero, lo, m1, m2);
    Glue(s1 + zero, positives, lo, m2, m3);
    Glue(s1 + zero + positives, Last(hi, zero), lo, m3, hi);
  }

  lemma Glue(a: seq<int>, b: seq<int>, lo: int, mid: int, hi: int)
    requires Increasing(a) && Within(a, lo, mid) && Increasing(b) && Within(b, mid + 1, hi) && lo <= mid + 1 && mid <= hi
    ensures Increasing(a + b) && Within(a + b, lo, hi)
  {
    forall i, j | 0 <= i < j < |a + b| ensures (a + b)[i] < (a + b)[j] {
      if i < |a| <= j {
        assert a[i] in a && b[j - |a|] in b;
      }
    }
  }

  // Appends the range from lo to hi; the elements already there stay as they are.
  method AddRange(kmax: int, dst: Vector, lo: int, hi: int, mult: int)
    requires IsTypeMax(kmax) && Fits(kmax, lo) && Fits(kmax, hi)
    requires lo <= hi && mult >= 2
    modifies dst
    ensures |old(dst.elems)| <= |dst.elems| && dst.elems[..|old(dst.elems)|] == old(dst.elems)
    ensures ListsRange(dst.elems[|old(dst.elems)|..], lo, hi, Marks(mult))
  {
    ghost var n := |dst.elems|;
    dst.elems := dst.elems + [lo];
    if lo == hi {
      return;
    }
    if Cast(kmax, lo + 1) == hi {
      dst.elems := dst.elems + [hi];
      return;
    }
    AddInterior(kmax, dst, lo, hi, mult);
    assert dst.elems[..n] == dst.elems[..n + 1][..n] == old(dst.elems);
    assert dst.elems[n] == dst.elems[..n + 1][n] == lo;
    assert dst.elems[n..] == [lo] + dst.elems[n + 1..];
  }

  // The part of AddRange after the two short cases.
  method AddInterior(kmax: int, dst: Vector, lo: int, hi: int, mult: int)
    requires IsTypeMax(kmax) && Fits(kmax, lo) && Fits(kmax, hi)
    requires lo + 1 < hi && mult >= 2 && dst.elems != [] && dst.elems[|dst.elems| - 1] == lo
    modifies dst
    ensures |old(dst.elems)| <= |dst.elems| && dst.elems[..|old(dst.elems)|] == old(dst.elems)
    ensures ListsRange([lo] + dst.elems[|old(dst.elems)|..], lo, hi, Marks(mult))
  {
    var loInner, hiInner := Cast(kmax, lo + 1), Cast(kmax, hi - 1);
    ghost var n := |dst.elems|;
    if loInner < 0 {
      AddNegatedPowers(kmax, dst, loInner, if hiInner < -1 then hiInner else -1, mult);
    }
    ghost var negatives := dst.elems[n..];
    assert dst.elems == old(dst.elems) + negatives;
    if lo < 0 && hi >= 0 {
      dst.elems := dst.elems + [0];
    }
    ghost var zero := if lo < 0 && hi >= 0 then [0] else [];
    assert dst.elems == old(dst.elems) + negatives + zero;
    ghost var positives: seq<int> := [];
    if hiInner > 0 {
      ghost var before := dst.elems;
      var start := AddPowers(kmax, dst, if loInner > 1 then loInner else 1, hiInner, mult);
      positives := dst.elems[start..];
      assert dst.elems == before + positives;
    }
    assert dst.elems == old(dst.elems) + negatives + zero + positives;
    PowersHaveSigns(mult);
    LastBeforeEnd(lo, hi, old(dst.elems), negatives, zero, positives, Powers(mult), NegatedPowers(mult));
    if hi != dst.elems[|dst.elems| - 1] {
      dst.elems := dst.elems + [hi];
    }
    PutTogether(lo, old(dst.elems), negatives, zero, positives, Last(hi, zero), dst.elems);
    RangeFromParts(lo, hi, negatives, zero, positives, Powers(mult), NegatedPowers(mult), Marks(mult));
  }

  lemma PutTogether(lo: int, old_: seq<int>, a: seq<int>, b: seq<int>, c: seq<int>, d: seq<int>, all: seq<int>)
    requires all == old_ + a + b + c + d
    ensures |old_| <= |all| && all[..|old_|] == old_
    ensures [lo] + all[|old_|..] == [lo] + a + b + c + d
  {
    assert all[|old_|..] == a + b + c + d;
  }

  // hi is the last element already exactly when it is the zero just pushed.
  lemma LastBeforeEnd(
      lo: int, hi: int, before: seq<int>, negatives: seq<int>, zero: seq<int>, positives: seq<int>,
      p: int -> bool, n: int -> bool)
    requires AreParts(lo, hi, negatives, zero, positives, p, n)
    requires before != [] && before[|before| - 1] == lo
    ensures var s := before + negatives + zero + positives;
            s[|s| - 1] == hi <==> zero == [0] && hi == 0
  {
    if positives != [] {
      PartsHold(lo, hi, negatives, zero, positives, p, n, positives[|positives| - 1]);
    } else if zero == [] && negatives != [] {
      PartsHold(lo, hi, negatives, zero, positives, p, n, negatives[|negatives| - 1]);
    }
  }

  // A range is determined by its ends and its multiplier.
  lemma {:induction false} IncreasingUnique(s: seq<int>, t: seq<int>)
    requires Increasing(s) && Increasing(t) && forall x :: x in s <==> x in t
    ensures s == t
    decreases |s|
  {
    assert s != [] ==> s[0] in s && s[0] in t;
    assert t != [] ==> t[0] in t && t[0] in s;
    if s != [] && t != [] {
      assert s[0] == t[0];
      forall x ensures x in s[1..] <==> x in t[1..] {
        assert x in s[1..] <==> x in s && x != s[0];
        assert x in t[1..] <==> x in t && x != t[0];
      }
      IncreasingUnique(s[1..], t[1..]);
    }
  }

  lemma RangeIsUnique(s: seq<int>, t: seq<int>, lo: int, hi: int, mult: int)
    requires ListsRange(s, lo, hi, Marks(mult)) && ListsRange(t, lo, hi, Marks(mult))
    ensures s == t
  {
    IncreasingUnique(s, t);
  }
}
