/** sort_benchmark_results (tools/gbench/util.py): four stable sorts, from the inner key to the
    outer one. */
module SortResults {
  import opened Options
  import opened Sequences
  import opened Sorting

  // A benchmark entry of the JSON report: the fields that sorting looks at, and the rest.
  datatype Entry = Entry(familyIndex: Option<int>, instanceIndex: Option<int>, runType: Option<string>,
                         repetitionIndex: Option<int>, rest: string)

  function Get(o: Option<int>): real {
    if o.Some? then o.value as real else -1.0
  }

  function RepetitionKey(e: Entry): real { Get(e.repetitionIndex) }

  function AggregateKey(e: Entry): real { if e.runType == Some("aggregate") then 1.0 else 0.0 }

  function InstanceKey(e: Entry): real { Get(e.instanceIndex) }

  function FamilyKey(e: Entry): real { Get(e.familyIndex) }

  function SortBenchmarkResults(entries: seq<Entry>): seq<Entry> {
    var byRepetition := StableSort(RepetitionKey, entries);
    var byAggregate := StableSort(AggregateKey, byRepetition);
    var byInstance := StableSort(InstanceKey, byAggregate);
    StableSort(FamilyKey, byInstance)
  }

  // ----- The four sorts together

  datatype Key = Key(family: real, instance: real, aggregate: real, repetition: real)

  function KeyOf(e: Entry): Key {
    Key(FamilyKey(e), InstanceKey(e), AggregateKey(e), RepetitionKey(e))
  }

  predicate KeyLess(a: Key, b: Key) {
    if a.family != b.family then a.family < b.family
    else if a.instance != b.instance then a.instance < b.instance
    else if a.aggregate != b.aggregate then a.aggregate < b.aggregate
    else a.repetition < b.repetition
  }

  function WithKey(k: Key): Entry -> bool {
    (e: Entry) => KeyOf(e) == k
  }

  // The result holds the same entries, in lexicographic order of family, instance, aggregate
  // flag and repetition.
  lemma SortedLexicographically(entries: seq<Entry>)
    ensures multiset(SortBenchmarkResults(entries)) == multiset(entries)
    ensures var out := SortBenchmarkResults(entries);
      forall i, j :: 0 <= i < j < |out| ==> !KeyLess(KeyOf(out[j]), KeyOf(out[i]))
  {
    var s1 := StableSort(RepetitionKey, entries);
    var s2 := StableSort(AggregateKey, s1);
    var s3 := StableSort(InstanceKey, s2);
    SortPermutes(RepetitionKey, entries);
    SortPermutes(AggregateKey, s1);
    SortPermutes(InstanceKey, s2);
    SortPermutes(FamilyKey, s3);
    var r1 := Then(RepetitionKey, Anything<Entry>());
    var r2 := Then(AggregateKey, r1);
    var r3 := Then(InstanceKey, r2);
    SortRefinesOrder(RepetitionKey, Anything<Entry>(), entries);
    SortRefinesOrder(AggregateKey, r1, s1);
    SortRefinesOrder(InstanceKey, r2, s2);
    SortRefinesOrder(FamilyKey, r3, s3);
  }

  // Entries that agree in all four stay in the order of the input.
  lemma TiesKeepInputOrder(entries: seq<Entry>, k: Key)
    ensures Filter(WithKey(k), SortBenchmarkResults(entries)) == Filter(WithKey(k), entries)
  {
    var p := WithKey(k);
    var s1 := StableSort(RepetitionKey, entries);
    var s2 := StableSort(AggregateKey, s1);
    SortKeepsTies(RepetitionKey, p, entries);
    SortKeepsTies(AggregateKey, p, s1);
    SortKeepsTies(InstanceKey, p, s2);
    SortKeepsTies(FamilyKey, p, StableSort(InstanceKey, s2));
  }

  // ----- The order, on the entries' own fields

  // A missing index counts as -1, so it comes before every index of 0 or more.
  predicate NotAfter(a: Option<int>, b: Option<int>) {
    if a.None? then b.None? || b.value >= -1
    else if b.None? then a.value <= -1
    else a.value <= b.value
  }

  predicate SameIndex(a: Option<int>, b: Option<int>) {
    NotAfter(a, b) && NotAfter(b, a)
  }

  predicate IsAggregate(e: Entry) { e.runType == Some("aggregate") }

  // By family, then by instance, then aggregates last, then by repetition.
  predicate InOrder(a: Entry, b: Entry) {
    && NotAfter(a.familyIndex, b.familyIndex)
    && (SameIndex(a.familyIndex, b.familyIndex) ==>
         && NotAfter(a.instanceIndex, b.instanceIndex)
         && (SameIndex(a.instanceIndex, b.instanceIndex) ==>
              && (IsAggregate(a) ==> IsAggregate(b))
              && ((IsAggregate(a) <==> IsAggregate(b)) ==> NotAfter(a.repetitionIndex, b.repetitionIndex))))
  }

  predicate SameFields(a: Entry, b: Entry) {
    && SameIndex(a.familyIndex, b.familyIndex) && SameIndex(a.instanceIndex, b.instanceIndex)
    && (IsAggregate(a) <==> IsAggregate(b)) && SameIndex(a.repetitionIndex, b.repetitionIndex)
  }

  function Like(e: Entry): Entry -> bool {
    (x: Entry) => SameFields(x, e)
  }

  lemma OrderOnFields(a: Entry, b: Entry)
    ensures InOrder(a, b) <==> !KeyLess(KeyOf(b), KeyOf(a))
    ensures SameFields(a, b) <==> KeyOf(a) == KeyOf(b)
  {
  }

  // The entries of the result are in order, and those that agree in all fields sorted by stay in
  // the order of the input. Nothing else is.
  lemma SortedByFields(entries: seq<Entry>, e: Entry)
    ensures var out := SortBenchmarkResults(entries);
      && multiset(out) == multiset(entries)
      && (forall i, j :: 0 <= i < j < |out| ==> InOrder(out[i], out[j]))
      && Filter(Like(e), out) == Filter(Like(e), entries)
  {
    var out := SortBenchmarkResults(entries);
    SortedLexicographically(entries);
    forall i, j | 0 <= i < j < |out| ensures InOrder(out[i], out[j]) {
      OrderOnFields(out[i], out[j]);
    }
    TiesKeepInputOrder(entries, KeyOf(e));
    LikeIsWithKey(e, out);
    LikeIsWithKey(e, entries);
  }

  lemma LikeIsWithKey(e: Entry, s: seq<Entry>)
    ensures Filter(Like(e), s) == Filter(WithKey(KeyOf(e)), s)
  {
    forall x ensures Like(e)(x) == WithKey(KeyOf(e))(x) {
      OrderOnFields(x, e);
    }
    FilterPointwise(Like(e), WithKey(KeyOf(e)), s);
  }

  // So a missing family comes before any of 0 or more, and families ascend; within one family the
  // same holds of instances; within one instance aggregates come last, and of the others, as of the
  // aggregates, the same holds of repetitions.
  lemma OrderOfReport(entries: seq<Entry>, i: nat, j: nat)
    requires i < j < |SortBenchmarkResults(entries)|
    ensures var a, b := SortBenchmarkResults(entries)[i], SortBenchmarkResults(entries)[j];
      && !(a.familyIndex.Some? && a.familyIndex.value >= 0 && b.familyIndex.None?)
      && (a.familyIndex.Some? && b.familyIndex.Some? ==> a.familyIndex.value <= b.familyIndex.value)
      && (a.familyIndex == b.familyIndex ==>
           && !(a.instanceIndex.Some? && a.instanceIndex.value >= 0 && b.instanceIndex.None?)
           && (a.instanceIndex.Some? && b.instanceIndex.Some? ==> a.instanceIndex.value <= b.instanceIndex.value))
      && (a.familyIndex == b.familyIndex && a.instanceIndex == b.instanceIndex ==>
           && (a.runType == Some("aggregate") ==> b.runType == Some("aggregate"))
           && (a.runType == b.runType ==>
                && !(a.repetitionIndex.Some? && a.repetitionIndex.value >= 0 && b.repetitionIndex.None?)
                && (a.repetitionIndex.Some? && b.repetitionIndex.Some? ==>
                     a.repetitionIndex.value <= b.repetitionIndex.value)))
  {
    SortedByFields(entries, SortBenchmarkResults(entries)[i]);
    assert InOrder(SortBenchmarkResults(entries)[i], SortBenchmarkResults(entries)[j]);
  }

  ghost predicate IsSortedBy(s: seq<Entry>) {
    forall i, j :: 0 <= i < j < |s| ==> !KeyLess(KeyOf(s[j]), KeyOf(s[i]))
  }

  lemma FirstWithItsKey(s: seq<Entry>)
    requires s != []
    ensures Filter(WithKey(KeyOf(s[0])), s) != [] && Filter(WithKey(KeyOf(s[0])), s)[0] == s[0]
  {
    assert s == [s[0]] + s[1..];
    FilterCons(WithKey(KeyOf(s[0])), s[0], s[1..]);
  }

  // The first key of one sequence is not less than the first key of the other.
  lemma FirstKeyOccurs(a: seq<Entry>, b: seq<Entry>)
    requires b != [] && IsSortedBy(a) && SameTies(a, b)
    ensures a != [] && !KeyLess(KeyOf(b[0]), KeyOf(a[0]))
  {
    FirstWithItsKey(b);
    InFilter(WithKey(KeyOf(b[0])), a, b[0]);
    assert b[0] in Filter(WithKey(KeyOf(b[0])), b);
    var i :| 0 <= i < |a| && a[i] == b[0];
  }

  ghost predicate SameTies(a: seq<Entry>, b: seq<Entry>) {
    forall k :: Filter(WithKey(k), a) == Filter(WithKey(k), b)
  }

  lemma SameFirst(a: seq<Entry>, b: seq<Entry>)
    requires IsSortedBy(a) && IsSortedBy(b) && SameTies(a, b) && a != [] && b != []
    ensures a[0] == b[0]
  {
    FirstKeyOccurs(b, a);
    FirstKeyOccurs(a, b);
    FirstWithItsKey(a);
    FirstWithItsKey(b);
  }

  lemma TailsHaveSameTies(a: seq<Entry>, b: seq<Entry>)
    requires SameTies(a, b) && a != [] && b != [] && a[0] == b[0]
    ensures SameTies(a[1..], b[1..])
  {
    forall k ensures Filter(WithKey(k), a[1..]) == Filter(WithKey(k), b[1..]) {
      assert Filter(WithKey(k), a) == Filter(WithKey(k), b);
      FilterTail(WithKey(k), a);
      FilterTail(WithKey(k), b);
    }
  }

  lemma FilterTail<T>(p: T -> bool, s: seq<T>)
    requires s != []
    ensures p(s[0]) ==> Filter(p, s) != []
    ensures Filter(p, s[1..]) == if p(s[0]) then Filter(p, s)[1..] else Filter(p, s)
  {
    assert s == [s[0]] + s[1..];
    FilterCons(p, s[0], s[1..]);
  }

  // Order and ties determine the result: whatever is sorted by the four keys and keeps ties in
  // the order of the input is what the four sorts return.
  lemma {:induction false} SortIsDetermined(a: seq<Entry>, b: seq<Entry>)
    requires IsSortedBy(a) && IsSortedBy(b) && SameTies(a, b)
    ensures a == b
  {
    if a == [] {
      if b != [] {
        FirstKeyOccurs(a, b);
      }
    } else {
      FirstKeyOccurs(b, a);
      SameFirst(a, b);
      TailsHaveSameTies(a, b);
      SortIsDetermined(a[1..], b[1..]);
    }
  }

  // Sorting a second time changes nothing.
  lemma SortIsIdempotent(entries: seq<Entry>)
    ensures SortBenchmarkResults(SortBenchmarkResults(entries)) == SortBenchmarkResults(entries)
  {
    var once := SortBenchmarkResults(entries);
    SortedLexicographically(entries);
    SortedLexicographically(once);
    forall k ensures Filter(WithKey(k), SortBenchmarkResults(once)) == Filter(WithKey(k), once) {
      TiesKeepInputOrder(once, k);
    }
    SortIsDetermined(SortBenchmarkResults(once), once);
  }
}
