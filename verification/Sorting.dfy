/** Stable sorting by a key: what it orders, and what it keeps. */
module Sorting {
  import opened Sequences

  function Insert<T>(key: T -> real, x: T, s: seq<T>): (r: seq<T>)
    ensures |r| == |s| + 1
  {
    if s == [] || key(x) <= key(s[0]) then [x] + s else [s[0]] + Insert(key, x, s[1..])
  }

  function StableSort<T>(key: T -> real, s: seq<T>): (r: seq<T>)
    ensures |r| == |s|
  {
    if s == [] then [] else Insert(key, s[0], StableSort(key, s[1..]))
  }

  ghost predicate Ordered<T>(r: (T, T) -> bool, s: seq<T>) {
    forall i, j :: 0 <= i < j < |s| ==> r(s[i], s[j])
  }

  // By key first, and by r where the keys agree.
  function Then<T>(key: T -> real, r: (T, T) -> bool): (T, T) -> bool {
    (x: T, y: T) => key(x) < key(y) || (key(x) == key(y) && r(x, y))
  }

  function Anything<T>(): (T, T) -> bool {
    (x: T, y: T) => true
  }

  lemma {:induction false} InsertAdds<T>(key: T -> real, x: T, s: seq<T>)
    ensures multiset(Insert(key, x, s)) == multiset(s) + multiset{x}
  {
    if s != [] && key(x) > key(s[0]) {
      InsertAdds(key, x, s[1..]);
      assert s == [s[0]] + s[1..];
    }
  }

  lemma {:induction false} SortPermutes<T>(key: T -> real, s: seq<T>)
    ensures multiset(StableSort(key, s)) == multiset(s)
  {
    if s != [] {
      SortPermutes(key, s[1..]);
      InsertAdds(key, s[0], StableSort(key, s[1..]));
      assert s == [s[0]] + s[1..];
    }
  }

  lemma FirstOf<T>(r: (T, T) -> bool, x: T, s: seq<T>)
    requires Ordered(r, s) && forall y :: y in s ==> r(x, y)
    ensures Ordered(r, [x] + s)
  {
    var all := [x] + s;
    forall i, j | 0 <= i < j < |all| ensures r(all[i], all[j]) {
      assert all[j] == s[j - 1] && s[j - 1] in s;
    }
  }

  // Inserting x into what is ordered by the key and then by r, when x comes before all of it
  // by r.
  lemma {:induction false} InsertKeepsOrder<T>(key: T -> real, r: (T, T) -> bool, x: T, s: seq<T>)
    requires Ordered(Then(key, r), s) && forall y :: y in s ==> r(x, y)
    ensures Ordered(Then(key, r), Insert(key, x, s))
  {
    if s == [] || key(x) <= key(s[0]) {
      forall y | y in s ensures Then(key, r)(x, y) {
        var i :| 0 <= i < |s| && s[i] == y;
        assert i > 0 ==> Then(key, r)(s[0], s[i]);
      }
      FirstOf(Then(key, r), x, s);
    } else {
      InsertKeepsOrder(key, r, x, s[1..]);
      InsertAdds(key, x, s[1..]);
      forall y | y in Insert(key, x, s[1..]) ensures Then(key, r)(s[0], y) {
        assert y in multiset(Insert(key, x, s[1..]));
        if y != x {
          var i :| 1 <= i < |s| && s[i] == y;
        }
      }
      FirstOf(Then(key, r), s[0], Insert(key, x, s[1..]));
    }
  }

  // A stable sort refines the order that its input had.
  lemma {:induction false} SortRefinesOrder<T>(key: T -> real, r: (T, T) -> bool, s: seq<T>)
    requires Ordered(r, s)
    ensures Ordered(Then(key, r), StableSort(key, s))
  {
    if s != [] {
      SortRefinesOrder(key, r, s[1..]);
      SortPermutes(key, s[1..]);
      forall y | y in StableSort(key, s[1..]) ensures r(s[0], y) {
        assert y in multiset(s[1..]);
        var i :| 0 <= i < |s[1..]| && s[1..][i] == y;
        assert r(s[0], s[i + 1]);
      }
      InsertKeepsOrder(key, r, s[0], StableSort(key, s[1..]));
    }
  }

  // Elements that satisfy p all have the same key.
  ghost predicate SameKey<T(!new)>(key: T -> real, p: T -> bool) {
    forall x, y :: p(x) && p(y) ==> key(x) == key(y)
  }

  lemma {:induction false} InsertKeepsTies<T(!new)>(key: T -> real, p: T -> bool, x: T, s: seq<T>)
    requires SameKey(key, p)
    ensures Filter(p, Insert(key, x, s)) == Filter(p, [x] + s)
  {
    if s != [] && key(x) > key(s[0]) {
      InsertKeepsTies(key, p, x, s[1..]);
      FilterCons(p, s[0], Insert(key, x, s[1..]));
      FilterCons(p, x, s[1..]);
      FilterCons(p, x, s);
      FilterCons(p, s[0], s[1..]);
      assert s == [s[0]] + s[1..];
    }
  }

  lemma {:induction false} SortKeepsTies<T(!new)>(key: T -> real, p: T -> bool, s: seq<T>)
    requires SameKey(key, p)
    ensures Filter(p, StableSort(key, s)) == Filter(p, s)
  {
    if s != [] {
      SortKeepsTies(key, p, s[1..]);
      InsertKeepsTies(key, p, s[0], StableSort(key, s[1..]));
      FilterCons(p, s[0], StableSort(key, s[1..]));
      FilterCons(p, s[0], s[1..]);
      assert s == [s[0]] + s[1..];
    }
  }
}
