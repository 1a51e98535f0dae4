/** BenchmarkFamilies::FindBenchmarks (src/benchmark_register.cc): which instances a filter
    selects, in which order, and how they are numbered. Names and the regular expression
    engine stay uninterpreted. */
module Families {
  import opened ArgsProducts
  import opened Options
  import opened Sequences

  // A registered family as a value.
  datatype Family = Deleted | Family(args: seq<seq<int>>, argNames: seq<string>, threads: seq<int>)

  // One combination of a family (by its position), arguments and a thread count.
  datatype Candidate = Candidate(family: nat, args: seq<int>, threads: int)

  datatype Instance = Instance(of: Candidate, familyIndex: nat, instanceIndex: nat)

  type Matcher = string -> bool

  const DISABLED_PREFIX := "DISABLED_"

  // ----- The candidates of a list of families, in family, arguments, threads order

  function ArgsOf(f: Family): seq<seq<int>>
    requires f.Family?
  {
    if f.args == [] && f.argNames == [] then [[]] else f.args
  }

  function ThreadsOf(f: Family): seq<int>
    requires f.Family?
  {
    if f.threads == [] then [1] else f.threads
  }

  function ByThreads(i: nat, args: seq<int>, threads: seq<int>): nat -> seq<Candidate> {
    (t: nat) => if t < |threads| then [Candidate(i, args, threads[t])] else []
  }

  function ByArgs(i: nat, args: seq<seq<int>>, threads: seq<int>): nat -> seq<Candidate> {
    (a: nat) => if a < |args| then Concat(ByThreads(i, args[a], threads), |threads|) else []
  }

  function ByFamily(fs: seq<Family>): nat -> seq<Candidate> {
    (i: nat) => if i < |fs| && fs[i].Family? then
           Concat(ByArgs(i, ArgsOf(fs[i]), ThreadsOf(fs[i])), |ArgsOf(fs[i])|)
         else []
  }

  function Candidates(fs: seq<Family>): seq<Candidate> {
    Concat(ByFamily(fs), |fs|)
  }

  predicate Disabled(name: string) {
    DISABLED_PREFIX <= name
  }

  // The filter without its leading '-', and whether it had one.
  function Pattern(spec: string): string {
    if Negative(spec) then spec[1..] else spec
  }

  predicate Negative(spec: string) {
    spec != "" && spec[0] == '-'
  }

  function Wanted(nameOf: Candidate -> string, matches: Matcher, negative: bool): Candidate -> bool {
    (c: Candidate) => !Disabled(nameOf(c)) && matches(nameOf(c)) != negative
  }

  function NotDisabled(nameOf: Candidate -> string): Candidate -> bool {
    (c: Candidate) => !Disabled(nameOf(c))
  }

  function Keys(found: seq<Instance>): (keys: seq<Candidate>)
    ensures |keys| == |found| && forall k :: 0 <= k < |found| ==> keys[k] == found[k].of
  {
    seq(|found|, k requires 0 <= k < |found| => found[k].of)
  }

  // Each instance continues the numbering of the one before it.
  predicate FollowsOn(found: seq<Instance>, k: nat)
    requires k < |found|
  {
    if k == 0 then
      found[k].familyIndex == 0 && found[k].instanceIndex == 0
    else if found[k].of.family == found[k - 1].of.family then
      found[k].familyIndex == found[k - 1].familyIndex && found[k].instanceIndex == found[k - 1].instanceIndex + 1
    else
      found[k].familyIndex == found[k - 1].familyIndex + 1 && found[k].instanceIndex == 0
  }

  predicate Numbered(found: seq<Instance>) {
    forall k :: 0 <= k < |found| ==> FollowsOn(found, k)
  }

  // The three counters of the search while it is in family i.
  predicate Counters(found: seq<Instance>, i: nat, familyIndex: nat, instanceIndex: nat, next: nat) {
    && (forall k :: 0 <= k < |found| ==> found[k].of.family <= i)
    && if found != [] && found[|found| - 1].of.family == i then
         var last := found[|found| - 1];
         last.familyIndex == familyIndex && last.instanceIndex + 1 == instanceIndex && next == familyIndex + 1
       else
         instanceIndex == 0 && next == familyIndex == NextFamily(found)
  }

  function NextFamily(found: seq<Instance>): nat {
    if found == [] then 0 else found[|found| - 1].familyIndex + 1
  }

  lemma CandidatesStep(fs: seq<Family>, i: nat)
    requires i < |fs|
    ensures fs[i].Deleted? ==> Concat(ByFamily(fs), i + 1) == Concat(ByFamily(fs), i)
    ensures fs[i].Family? ==>
      Concat(ByFamily(fs), i + 1) == Concat(ByFamily(fs), i) + Concat(ByArgs(i, ArgsOf(fs[i]), ThreadsOf(fs[i])), |ArgsOf(fs[i])|)
  {
  }

  // A family without arguments and argument names gets one empty argument list.
  function WithDefault(f: Family): Family {
    if f.Family? then f.(args := ArgsOf(f)) else f
  }

  function DefaultedBelow(fs: seq<Family>, n: nat): seq<Family> {
    seq(|fs|, i requires 0 <= i < |fs| => if i < n then WithDefault(fs[i]) else fs[i])
  }

  lemma OneDefaulted(fs: seq<Family>, i: nat)
    requires i < |fs|
    ensures DefaultedBelow(fs, i + 1) == DefaultedBelow(fs, i)[i := WithDefault(fs[i])]
    ensures fs[i].Deleted? ==> DefaultedBelow(fs, i + 1) == DefaultedBelow(fs, i)
  {
    assert DefaultedBelow(fs, i + 1) == DefaultedBelow(fs, i)[i := WithDefault(fs[i])];
  }

  function Defaulted(fs: seq<Family>): seq<Family> {
    DefaultedBelow(fs, |fs|)
  }

  // What the search has found once the given candidates are behind it.
  predicate Searched(found: seq<Instance>, wanted: Candidate -> bool, done: seq<Candidate>) {
    Keys(found) == Filter(wanted, done) && Numbered(found)
  }

  // The body of the innermost loop.
  method Consider(c: Candidate, re: Matcher, negative: bool, nameOf: Candidate -> string, before: seq<Instance>,
                  familyIndex: nat, instanceIndex: nat, next: nat, ghost done: seq<Candidate>)
    returns (found: seq<Instance>, instanceIndex': nat, next': nat)
    requires Searched(before, Wanted(nameOf, re, negative), done)
    requires Counters(before, c.family, familyIndex, instanceIndex, next)
    ensures Searched(found, Wanted(nameOf, re, negative), done + [c])
    ensures Counters(found, c.family, familyIndex, instanceIndex', next')
  {
    found, instanceIndex', next' := before, instanceIndex, next;
    FilterSnoc(Wanted(nameOf, re, negative), done, c);
    var name := nameOf(c);
    if !(DISABLED_PREFIX <= name) && ((re(name) && !negative) || (!re(name) && negative)) {
      AppendNumbered(found, Instance(c, familyIndex, instanceIndex), c.family, familyIndex, instanceIndex, next);
      found := found + [Instance(c, familyIndex, instanceIndex)];
      instanceIndex' := instanceIndex + 1;
      if next == familyIndex {
        next' := next + 1;
      }
    }
  }

  lemma ConcatStep<T>(done: seq<T>, part: nat -> seq<T>, n: nat, seen: seq<T>)
    requires seen == done + Concat(part, n)
    ensures done + Concat(part, n + 1) == seen + part(n)
  {
  }

  // The loop over thread counts.
  method FindForArgs(i: nat, args: seq<int>, threads: seq<int>, re: Matcher, negative: bool,
                     nameOf: Candidate -> string, before: seq<Instance>, familyIndex: nat, instanceIndex: nat,
                     next: nat, ghost done: seq<Candidate>)
    returns (found: seq<Instance>, instanceIndex': nat, next': nat)
    requires Searched(before, Wanted(nameOf, re, negative), done)
    requires Counters(before, i, familyIndex, instanceIndex, next)
    ensures Searched(found, Wanted(nameOf, re, negative), done + Concat(ByThreads(i, args, threads), |threads|))
    ensures Counters(found, i, familyIndex, instanceIndex', next')
  {
    found, instanceIndex', next' := before, instanceIndex, next;
    var t := 0;
    ghost var seen := done;
    while t < |threads|
      invariant 0 <= t <= |threads| && seen == done + Concat(ByThreads(i, args, threads), t)
      invariant Searched(found, Wanted(nameOf, re, negative), seen)
      invariant Counters(found, i, familyIndex, instanceIndex', next')
    {
      var c := Candidate(i, args, threads[t]);
      found, instanceIndex', next' := Consider(c, re, negative, nameOf, found, familyIndex, instanceIndex', next', seen);
      ConcatStep(done, ByThreads(i, args, threads), t, seen);
      seen := seen + [c];
      t := t + 1;
    }
  }

  ghost function ArgsStep(i: nat, args: seq<seq<int>>, threads: seq<int>, a: nat, done: seq<Candidate>,
                          seen: seq<Candidate>): (after: seq<Candidate>)
    requires a < |args| && seen == done + Concat(ByArgs(i, args, threads), a)
    ensures after == done + Concat(ByArgs(i, args, threads), a + 1)
  {
    ConcatStep(done, ByArgs(i, args, threads), a, seen);
    seen + Concat(ByThreads(i, args[a], threads), |threads|)
  }

  // The loop over argument lists: the instances of family i that match are appended, and
  // numbered.
  method FindInFamily(i: nat, args: seq<seq<int>>, threads: seq<int>, re: Matcher, negative: bool,
                      nameOf: Candidate -> string, before: seq<Instance>, nextFamilyIndex: nat, ghost done: seq<Candidate>)
    returns (found: seq<Instance>, next: nat)
    requires Searched(before, Wanted(nameOf, re, negative), done)
    requires nextFamilyIndex == NextFamily(before) && forall k :: 0 <= k < |before| ==> before[k].of.family < i
    ensures Searched(found, Wanted(nameOf, re, negative), done + Concat(ByArgs(i, args, threads), |args|))
    ensures forall k :: 0 <= k < |found| ==> found[k].of.family <= i
    ensures next == NextFamily(found)
  {
    found, next := before, nextFamilyIndex;
    var familyIndex, instanceIndex := next, 0;
    var a := 0;
    ghost var seen := done;
    while a < |args|
      invariant 0 <= a <= |args| && seen == done + Concat(ByArgs(i, args, threads), a)
      invariant Searched(found, Wanted(nameOf, re, negative), seen)
      invariant Counters(found, i, familyIndex, instanceIndex, next)
    {
      found, instanceIndex, next :=
        FindForArgs(i, args[a], threads, re, negative, nameOf, found, familyIndex, instanceIndex, next, seen);
      seen := ArgsStep(i, args, threads, a, done, seen);
      a := a + 1;
    }
  }

  lemma AppendNumbered(found: seq<Instance>, x: Instance, i: nat, familyIndex: nat, instanceIndex: nat, next: nat)
    requires Numbered(found) && Counters(found, i, familyIndex, instanceIndex, next)
    requires x.of.family == i && x.familyIndex == familyIndex && x.instanceIndex == instanceIndex
    ensures Keys(found + [x]) == Keys(found) + [x.of]
    ensures Numbered(found + [x])
    ensures Counters(found + [x], i, familyIndex, instanceIndex + 1, if next == familyIndex then next + 1 else next)
  {
    var all := found + [x];
    forall k | 0 <= k < |all| ensures FollowsOn(all, k) {
      if k < |found| {
        assert FollowsOn(found, k);
      }
    }
  }

  function ValueOf(family: Benchmark?): Family
    reads family
  {
    if family == null then Deleted else Family(family.args, family.argNames, family.threadCounts)
  }

  class BenchmarkFamilies {
    var families: seq<Benchmark?>

    constructor ()
      ensures families == []
    {
      families := [];
    }

    // Each family has one owner.
    predicate Valid()
      reads this
    {
      forall i, j :: 0 <= i < j < |families| && families[i] != null ==> families[i] != families[j]
    }

    // fs holds the families' present values.
    predicate Are(fs: seq<Family>)
      reads this, families
    {
      |fs| == |families| && forall i :: 0 <= i < |families| ==> ValueOf(families[i]) == fs[i]
    }

    // The body of the loop over the families.
    method VisitFamily(i: nat, re: Matcher, negative: bool, nameOf: Candidate -> string,
                       before: seq<Instance>, nextFamilyIndex: nat, ghost fs: seq<Family>)
      returns (found: seq<Instance>, next: nat)
      requires Valid() && i < |families| && Are(DefaultedBelow(fs, i))
      requires Searched(before, Wanted(nameOf, re, negative), Concat(ByFamily(fs), i))
      requires nextFamilyIndex == NextFamily(before) && forall k :: 0 <= k < |before| ==> before[k].of.family < i
      modifies families`args
      ensures families == old(families) && Valid() && Are(DefaultedBelow(fs, i + 1))
      ensures Searched(found, Wanted(nameOf, re, negative), Concat(ByFamily(fs), i + 1))
      ensures next == NextFamily(found) && forall k :: 0 <= k < |found| ==> found[k].of.family < i + 1
    {
      CandidatesStep(fs, i);
      OneDefaulted(fs, i);
      var family := families[i];
      assert ValueOf(family) == DefaultedBelow(fs, i)[i] == fs[i];
      if family == null {
        return before, nextFamilyIndex;
      }
      AddDefaultArgs(i, family, fs);
      var threadCounts := if family.threadCounts == [] then [1] else family.threadCounts;
      assert ValueOf(family) == DefaultedBelow(fs, i + 1)[i];
      found, next :=
        FindInFamily(i, family.args, threadCounts, re, negative, nameOf, before, nextFamilyIndex, Concat(ByFamily(fs), i));
    }

    // A family that was given no arguments gets the empty argument list.
    method AddDefaultArgs(i: nat, family: Benchmark, ghost fs: seq<Family>)
      requires Valid() && i < |families| && families[i] == family && Are(DefaultedBelow(fs, i))
      modifies family`args
      ensures Are(DefaultedBelow(fs, i + 1))
    {
      ghost var values := DefaultedBelow(fs, i);
      OneDefaulted(fs, i);
      assert ValueOf(family) == values[i] == fs[i];
      if family.ArgsCnt() == -1 {
        family.Args([]);
      }
      assert ValueOf(family) == WithDefault(fs[i]);
      assert forall j :: 0 <= j < |families| && j != i ==> ValueOf(families[j]) == values[j];
    }

    method FindBenchmarks(spec: string, compile: string -> Option<Matcher>, nameOf: Candidate -> string,
                          ghost fs: seq<Family>)
      returns (ok: bool, found: seq<Instance>)
      requires Valid() && Are(fs)
      modifies families`args
      ensures families == old(families) && Valid()
      ensures ok == compile(Pattern(spec)).Some?
      ensures !ok ==> found == [] && Are(fs)
      ensures ok ==> Searched(found, Wanted(nameOf, compile(Pattern(spec)).value, Negative(spec)), Candidates(fs))
      ensures ok ==> Are(Defaulted(fs))
    {
      found := [];
      var pattern, negative := spec, false;
      if spec != "" && spec[0] == '-' {
        pattern, negative := spec[1..], true;
      }
      var re := compile(pattern);
      if re.None? {
        return false, found;
      }
      found := FindMatching(re.value, negative, nameOf, fs);
      return true, found;
    }

    // The loop over the families.
    method FindMatching(re: Matcher, negative: bool, nameOf: Candidate -> string, ghost fs: seq<Family>)
      returns (found: seq<Instance>)
      requires Valid() && Are(fs)
      modifies families`args
      ensures families == old(families) && Valid() && Are(Defaulted(fs))
      ensures Searched(found, Wanted(nameOf, re, negative), Candidates(fs))
    {
      ghost var wanted := Wanted(nameOf, re, negative);
      found := [];
      var nextFamilyIndex := 0;
      var i := 0;
      assert DefaultedBelow(fs, 0) == fs;
      while i < |families|
        invariant 0 <= i <= |families|
        invariant Valid() && Are(DefaultedBelow(fs, i))
        invariant Searched(found, wanted, Concat(ByFamily(fs), i))
        invariant forall k :: 0 <= k < |found| ==> found[k].of.family < i
        invariant nextFamilyIndex == NextFamily(found)
      {
        found, nextFamilyIndex := VisitFamily(i, re, negative, nameOf, found, nextFamilyIndex, fs);
        i := i + 1;
      }
    }
  }

  // ----- What a search finds

  lemma {:induction false} InConcat<T>(part: nat -> seq<T>, n: nat, x: T)
    ensures x in Concat(part, n) <==> exists i :: 0 <= i < n && x in part(i)
  {
    if n > 0 {
      InConcat(part, n - 1, x);
    }
  }

  lemma InByArgs(i: nat, args: seq<seq<int>>, threads: seq<int>, a: nat, c: Candidate)
    ensures c in ByArgs(i, args, threads)(a) <==> a < |args| && c.family == i && c.args == args[a] && c.threads in threads
  {
    if a < |args| {
      InConcat(ByThreads(i, args[a], threads), |threads|, c);
      if c.family == i && c.args == args[a] && c.threads in threads {
        var t :| 0 <= t < |threads| && threads[t] == c.threads;
        assert c in ByThreads(i, args[a], threads)(t);
      }
    }
  }

  lemma InByFamily(fs: seq<Family>, i: nat, c: Candidate)
    ensures c in ByFamily(fs)(i) <==> c.family == i && IsCandidate(fs, c)
  {
    if i < |fs| && fs[i].Family? {
      var args, threads := ArgsOf(fs[i]), ThreadsOf(fs[i]);
      InConcat(ByArgs(i, args, threads), |args|, c);
      forall a: nat | a < |args|
        ensures c in ByArgs(i, args, threads)(a) <==> c.family == i && c.args == args[a] && c.threads in threads
      {
        InByArgs(i, args, threads, a, c);
      }
    }
  }

  // The arguments and the thread count are the family's own; without any, no arguments and one
  // thread.
  predicate IsCandidate(fs: seq<Family>, c: Candidate) {
    && c.family < |fs| && fs[c.family].Family?
    && var f := fs[c.family];
      && (if f.args == [] && f.argNames == [] then c.args == [] else c.args in f.args)
      && (if f.threads == [] then c.threads == 1 else c.threads in f.threads)
  }

  lemma InCandidates(fs: seq<Family>, c: Candidate)
    ensures c in Candidates(fs) <==> IsCandidate(fs, c)
  {
    InConcat(ByFamily(fs), |fs|, c);
    forall i: nat ensures c in ByFamily(fs)(i) <==> c.family == i && IsCandidate(fs, c) {
      InByFamily(fs, i, c);
    }
    if IsCandidate(fs, c) {
      assert c in ByFamily(fs)(c.family);
    }
  }

  lemma InSearched(found: seq<Instance>, wanted: Candidate -> bool, done: seq<Candidate>, c: Candidate)
    requires Searched(found, wanted, done)
    ensures (exists k :: 0 <= k < |found| && found[k].of == c) <==> c in done && wanted(c)
  {
    InFilter(wanted, done, c);
    assert c in Keys(found) <==> exists k :: 0 <= k < |found| && found[k].of == c;
  }

  // Number a * |threads| + t of a family's combinations has its a-th arguments and t-th thread count.
  lemma CandidateAt(i: nat, args: seq<seq<int>>, threads: seq<int>, a: nat, t: nat)
    requires a < |args| && t < |threads|
    ensures var all := Concat(ByArgs(i, args, threads), |args|);
      0 <= a * |threads| + t < |all| == |args| * |threads| && all[a * |threads| + t] == Candidate(i, args[a], threads[t])
  {
    forall b: nat | b < |args| ensures |ByArgs(i, args, threads)(b)| == |threads| {
      ThreadsAt(i, args[b], threads, |threads|);
    }
    ThreadsAt(i, args[a], threads, |threads|);
    ElementOfPart(ByArgs(i, args, threads), |threads|, |args|, a, t);
    OffsetIsProduct(a, |threads|);
    OffsetIsProduct(|args|, |threads|);
  }

  // Where the block of the a-th arguments begins.
  function Offset(a: nat, k: nat): nat {
    if a == 0 then 0 else Offset(a - 1, k) + k
  }

  lemma {:induction false} OffsetIsProduct(a: nat, k: nat)
    ensures Offset(a, k) == a * k
  {
    if a > 0 {
      OffsetIsProduct(a - 1, k);
    }
  }

  // The elements of parts that are all of the same length.
  lemma {:induction false} ElementOfPart<T>(part: nat -> seq<T>, k: nat, n: nat, a: nat, t: nat)
    requires t < k && forall b: nat :: b < n ==> |part(b)| == k
    ensures |Concat(part, n)| == Offset(n, k)
    ensures a < n ==> Offset(a, k) + t < Offset(n, k) && Concat(part, n)[Offset(a, k) + t] == part(a)[t]
  {
    if n > 0 {
      ElementOfPart(part, k, n - 1, a, t);
    }
  }

  lemma {:induction false} ThreadsAt(i: nat, args: seq<int>, threads: seq<int>, n: nat)
    requires n <= |threads|
    ensures |Concat(ByThreads(i, args, threads), n)| == n
    ensures forall t :: 0 <= t < n ==> Concat(ByThreads(i, args, threads), n)[t] == Candidate(i, args, threads[t])
  {
    if n > 0 {
      ThreadsAt(i, args, threads, n - 1);
    }
  }

  // The search finds a combination exactly when its family is still there, the arguments
  // and the thread count are the family's own or the defaults, and its name is enabled and
  // selected by the filter.
  lemma FindsExactlyTheWanted(found: seq<Instance>, nameOf: Candidate -> string, re: Matcher, negative: bool,
                              fs: seq<Family>, c: Candidate)
    requires Searched(found, Wanted(nameOf, re, negative), Candidates(fs))
    ensures (exists k :: 0 <= k < |found| && found[k].of == c) <==>
      IsCandidate(fs, c) && !(DISABLED_PREFIX <= nameOf(c)) && (re(nameOf(c)) <==> !negative)
  {
    InCandidates(fs, c);
    InSearched(found, Wanted(nameOf, re, negative), Candidates(fs), c);
  }

  // A filter and its '-' form compile alike, and split the enabled combinations in two.
  lemma {:induction false} NegativeFilterSplits(spec: string, compile: string -> Option<Matcher>, nameOf: Candidate -> string,
                             cs: seq<Candidate>)
    requires !Negative(spec) && compile(Pattern(spec)).Some?
    ensures compile(Pattern("-" + spec)) == compile(Pattern(spec))
    ensures var plain := Wanted(nameOf, compile(Pattern(spec)).value, Negative(spec));
      var negated := Wanted(nameOf, compile(Pattern("-" + spec)).value, Negative("-" + spec));
      multiset(Filter(plain, cs)) + multiset(Filter(negated, cs)) == multiset(Filter(NotDisabled(nameOf), cs))
  {
    assert Pattern("-" + spec) == spec;
    var re := compile(spec).value;
    FilterSplits(Wanted(nameOf, re, false), Wanted(nameOf, re, true), NotDisabled(nameOf), cs);
  }

  lemma {:induction false} ConcatPointwise<T>(f: nat -> seq<T>, g: nat -> seq<T>, n: nat)
    requires forall i: nat :: i < n ==> f(i) == g(i)
    ensures Concat(f, n) == Concat(g, n)
  {
    if n > 0 {
      ConcatPointwise(f, g, n - 1);
    }
  }

  // The default arguments a search leaves behind do not change what the next one finds.
  lemma SearchIsRepeatable(fs: seq<Family>, wanted: Candidate -> bool, first: seq<Instance>, second: seq<Instance>)
    requires Searched(first, wanted, Candidates(fs))
    requires Searched(second, wanted, Candidates(Defaulted(fs)))
    ensures first == second
  {
    ConcatPointwise(ByFamily(fs), ByFamily(Defaulted(fs)), |fs|);
    SameSearch(first, second, wanted, Candidates(fs));
  }

  lemma SameSearch(first: seq<Instance>, second: seq<Instance>, wanted: Candidate -> bool, done: seq<Candidate>)
    requires Searched(first, wanted, done) && Searched(second, wanted, done)
    ensures first == second
  {
    NumberingIsDetermined(first, second, |first|);
    assert first[..|first|] == first && second[..|second|] == second;
  }

  lemma {:induction false} NumberingIsDetermined(a: seq<Instance>, b: seq<Instance>, n: nat)
    requires Numbered(a) && Numbered(b) && Keys(a) == Keys(b) && n <= |a| == |b|
    ensures a[..n] == b[..n]
  {
    if n > 0 {
      NumberingIsDetermined(a, b, n - 1);
      assert FollowsOn(a, n - 1) && FollowsOn(b, n - 1);
      assert Keys(a)[n - 1] == Keys(b)[n - 1];
      if n > 1 {
        assert Keys(a)[n - 2] == Keys(b)[n - 2];
        assert a[..n - 1][n - 2] == b[..n - 1][n - 2];
      }
      assert a[n - 1] == b[n - 1];
    }
  }

  // ----- The numbering

  predicate Ascending(s: seq<Candidate>) {
    forall i, j :: 0 <= i < j < |s| ==> s[i].family <= s[j].family
  }

  lemma {:induction false} ConcatAscends(part: nat -> seq<Candidate>, n: nat)
    requires forall i: nat, c :: i < n && c in part(i) ==> c.family == i
    ensures Ascending(Concat(part, n)) && forall k :: 0 <= k < |Concat(part, n)| ==> Concat(part, n)[k].family < n
  {
    if n > 0 {
      ConcatAscends(part, n - 1);
      var last := part(n - 1);
      assert forall k :: 0 <= k < |last| ==> last[k] in last;
    }
  }

  lemma {:induction false} FilterAscends(p: Candidate -> bool, s: seq<Candidate>)
    requires Ascending(s)
    ensures Ascending(Filter(p, s))
  {
    if s != [] {
      var rest := s[..|s| - 1];
      FilterAscends(p, rest);
      forall k | 0 <= k < |Filter(p, rest)| ensures Filter(p, rest)[k].family <= s[|s| - 1].family {
        InFilter(p, rest, Filter(p, rest)[k]);
      }
    }
  }

  lemma {:induction false} FamilyIndexOrder(found: seq<Instance>, j: nat, k: nat)
    requires Numbered(found) && Ascending(Keys(found)) && j <= k < |found|
    ensures found[j].familyIndex <= found[k].familyIndex
    ensures found[j].familyIndex == found[k].familyIndex <==> found[j].of.family == found[k].of.family
  {
    if j < k {
      FamilyIndexOrder(found, j, k - 1);
      assert FollowsOn(found, k);
      assert Keys(found)[j].family <= Keys(found)[k - 1].family <= Keys(found)[k].family;
    }
  }

  lemma {:induction false} FamilyIndexOccurs(found: seq<Instance>, k: nat, f: nat)
    requires Numbered(found) && k < |found| && f <= found[k].familyIndex
    ensures exists j :: 0 <= j <= k && found[j].familyIndex == f
  {
    assert FollowsOn(found, k);
    if f < found[k].familyIndex {
      FamilyIndexOccurs(found, k - 1, f);
    }
  }

  // How many of the first n instances belong to a family.
  function CountOf(found: seq<Instance>, n: nat, family: nat): nat
    requires n <= |found|
  {
    if n == 0 then 0 else CountOf(found, n - 1, family) + if found[n - 1].of.family == family then 1 else 0
  }

  lemma {:induction false} NoneBefore(found: seq<Instance>, n: nat, family: nat)
    requires n <= |found| && forall j :: 0 <= j < n ==> found[j].of.family < family
    ensures CountOf(found, n, family) == 0
  {
    if n > 0 {
      NoneBefore(found, n - 1, family);
    }
  }

  lemma {:induction false} InstanceIndexCounts(found: seq<Instance>, k: nat)
    requires Numbered(found) && Ascending(Keys(found)) && k < |found|
    ensures found[k].instanceIndex == CountOf(found, k, found[k].of.family)
  {
    assert FollowsOn(found, k);
    if k > 0 {
      if found[k].of.family == found[k - 1].of.family {
        InstanceIndexCounts(found, k - 1);
      } else {
        forall j | 0 <= j < k ensures found[j].of.family < found[k].of.family {
          assert Keys(found)[j].family <= Keys(found)[k - 1].family <= Keys(found)[k].family;
        }
        NoneBefore(found, k, found[k].of.family);
      }
    }
  }

  predicate Occurs(found: seq<Instance>, f: nat) {
    exists k :: 0 <= k < |found| && found[k].familyIndex == f
  }

  // Family indices run from 0 without gaps, one for each family with an instance; within a
  // family the instances are counted from 0.
  lemma {:induction false} NumberingIsGapFree(found: seq<Instance>, wanted: Candidate -> bool, fs: seq<Family>)
    requires Searched(found, wanted, Candidates(fs))
    ensures forall j, k :: 0 <= j < |found| && 0 <= k < |found| ==>
      (found[j].familyIndex == found[k].familyIndex <==> found[j].of.family == found[k].of.family)
    ensures forall f: nat :: Occurs(found, f) <==> f < NextFamily(found)
    ensures forall k :: 0 <= k < |found| ==> found[k].instanceIndex == CountOf(found, k, found[k].of.family)
  {
    forall i: nat, c | c in ByFamily(fs)(i) ensures c.family == i {
      InByFamily(fs, i, c);
    }
    ConcatAscends(ByFamily(fs), |fs|);
    FilterAscends(wanted, Candidates(fs));
    IndicesOfAscending(found);
  }

  lemma OccursBelowNext(found: seq<Instance>, f: nat)
    requires Numbered(found) && Ascending(Keys(found))
    ensures Occurs(found, f) <==> f < NextFamily(found)
  {
    if f < NextFamily(found) {
      FamilyIndexOccurs(found, |found| - 1, f);
    }
    if Occurs(found, f) {
      var k :| 0 <= k < |found| && found[k].familyIndex == f;
      FamilyIndexOrder(found, k, |found| - 1);
    }
  }

  lemma IndicesOfAscending(found: seq<Instance>)
    requires Numbered(found) && Ascending(Keys(found))
    ensures forall j, k :: 0 <= j < |found| && 0 <= k < |found| ==>
      (found[j].familyIndex == found[k].familyIndex <==> found[j].of.family == found[k].of.family)
    ensures forall f: nat :: Occurs(found, f) <==> f < NextFamily(found)
    ensures forall k :: 0 <= k < |found| ==> found[k].instanceIndex == CountOf(found, k, found[k].of.family)
  {
    forall j, k | 0 <= j < |found| && 0 <= k < |found|
      ensures found[j].familyIndex == found[k].familyIndex <==> found[j].of.family == found[k].of.family
    {
      FamilyIndexOrder(found, if j < k then j else k, if j < k then k else j);
    }
    forall f: nat ensures Occurs(found, f) <==> f < NextFamily(found) {
      OccursBelowNext(found, f);
    }
    forall k | 0 <= k < |found| ensures found[k].instanceIndex == CountOf(found, k, found[k].of.family) {
      InstanceIndexCounts(found, k);
    }
  }
}
