/** The repetition scheduler of RunBenchmarks (src/benchmark.cc): every runner's index is
    entered once per repetition, the vector is shuffled, and the runners are stepped in that
    order. A runner is reported, and its complexity family fitted and erased, as soon as
    nothing of it remains. */
module Schedulers {
  import opened Sequences
  import RealSums

  // A benchmark instance; its family is fitted when `complexity` is set.
  datatype Instance = Instance(family: int, complexity: bool, repeats: nat)

  // The report of one repetition that was not skipped.
  datatype Run = Run(runner: nat, repetition: nat, familyIndex: int)

  datatype PerFamilyRunReports = PerFamilyRunReports(numRunsTotal: int, numRunsDone: int, runs: seq<Run>)

  datatype Event =
    | Stepped(runner: nat, repetition: nat)
    | Fitted(family: int, runs: seq<Run>)
    | Reported(runner: nat)

  // Which repetitions come out skipped.
  type Skips = (nat, nat) -> bool

  predicate InFamily(bs: seq<Instance>, r: nat, f: int) {
    r < |bs| && bs[r].complexity && bs[r].family == f
  }

  function Repeat(r: nat, n: nat): seq<nat> {
    seq(n, _ => r)
  }

  // The index vector before the shuffle.
  function Filled(bs: seq<Instance>, i: nat): seq<nat>
    requires i <= |bs|
  {
    if i == 0 then [] else Filled(bs, i - 1) + Repeat(i - 1, bs[i - 1].repeats)
  }

  // Any outcome of the shuffle.
  predicate IsShuffle(bs: seq<Instance>, order: seq<nat>) {
    multiset(order) == multiset(Filled(bs, |bs|))
  }

  // How often r, or a member of family f, occurs among the first k entries.
  function Seen(order: seq<nat>, k: nat, r: nat): nat
    requires k <= |order|
  {
    if k == 0 then 0 else Seen(order, k - 1, r) + (if order[k - 1] == r then 1 else 0)
  }

  function FamilySeen(bs: seq<Instance>, order: seq<nat>, k: nat, f: int): nat
    requires k <= |order|
  {
    if k == 0 then 0 else FamilySeen(bs, order, k - 1, f) + (if InFamily(bs, order[k - 1], f) then 1 else 0)
  }

  // The unskipped runs of a family among the first k steps, in the order they happen.
  function RunsOf(bs: seq<Instance>, order: seq<nat>, k: nat, skipped: Skips, f: int): seq<Run>
    requires k <= |order|
  {
    if k == 0 then []
    else
      var r, rep := order[k - 1], Seen(order, k - 1, order[k - 1]);
      RunsOf(bs, order, k - 1, skipped, f) +
      (if InFamily(bs, r, f) && !skipped(r, rep) then [Run(r, rep, f)] else [])
  }

  predicate ComesAgain(order: seq<nat>, k: nat, r: nat) {
    exists j :: k <= j < |order| && order[j] == r
  }

  predicate FamilyComesAgain(bs: seq<Instance>, order: seq<nat>, k: nat, f: int) {
    exists j :: k <= j < |order| && InFamily(bs, order[j], f)
  }

  function FamilyOf(bs: seq<Instance>, r: nat): int { if r < |bs| then bs[r].family else 0 }

  // Position k is the last of its family.
  predicate EndsFamily(bs: seq<Instance>, order: seq<nat>, k: nat)
    requires k < |order|
  {
    InFamily(bs, order[k], FamilyOf(bs, order[k])) && !FamilyComesAgain(bs, order, k + 1, FamilyOf(bs, order[k]))
  }

  // What position k of the order has to bring about, said without any counters: a runner is
  // reported where its index occurs last, a family is fitted where it occurs last.
  function EventsAt(bs: seq<Instance>, order: seq<nat>, skipped: Skips, k: nat): seq<Event> {
    if k >= |order| then []
    else
      var r, f := order[k], FamilyOf(bs, order[k]);
      [Stepped(r, Seen(order, k, r))]
      + (if EndsFamily(bs, order, k) then [Fitted(f, RunsOf(bs, order, |order|, skipped, f))] else [])
      + (if ComesAgain(order, k + 1, r) then [] else [Reported(r)])
  }

  function Chunks(bs: seq<Instance>, order: seq<nat>, skipped: Skips): nat -> seq<Event> {
    (k: nat) => EventsAt(bs, order, skipped, k)
  }

  // The events of the first k positions.
  function Log(bs: seq<Instance>, order: seq<nat>, skipped: Skips, k: nat): seq<Event> {
    Concat(Chunks(bs, order, skipped), k)
  }

  // Some instance among the first i is a complexity instance of family f.
  predicate Member(bs: seq<Instance>, i: nat, f: int) {
    exists r: nat :: r < i && InFamily(bs, r, f)
  }

  ghost predicate SomeRunCounts(bs: seq<Instance>, skipped: Skips, f: int) {
    exists r: nat, j: nat :: InFamily(bs, r, f) && j < bs[r].repeats && !skipped(r, j)
  }

  // No complexity family has all its runs skipped.
  ghost predicate EveryFamilyHasARun(bs: seq<Instance>, skipped: Skips) {
    forall f :: Member(bs, |bs|, f) ==> SomeRunCounts(bs, skipped, f)
  }

  // How many runs the members of f among the first i instances will make.
  function TotalRuns(bs: seq<Instance>, i: nat, f: int): nat
    requires i <= |bs|
  {
    if i == 0 then 0 else TotalRuns(bs, i - 1, f) + (if InFamily(bs, i - 1, f) then bs[i - 1].repeats else 0)
  }

  // ----- The shuffle keeps the counts

  lemma {:induction false} SeenIsCount(order: seq<nat>, k: nat, r: nat)
    requires k <= |order|
    ensures Seen(order, k, r) == multiset(order[..k])[r]
  {
    if k > 0 {
      SeenIsCount(order, k - 1, r);
      assert order[..k] == order[..k - 1] + [order[k - 1]];
    }
  }

  lemma {:induction false} RepeatCounts(r: nat, n: nat, q: nat)
    ensures multiset(Repeat(r, n))[q] == if q == r then n else 0
  {
    if n > 0 {
      RepeatCounts(r, n - 1, q);
      assert Repeat(r, n) == Repeat(r, n - 1) + [r];
    } else {
      assert Repeat(r, 0) == [];
    }
  }

  // The filled vector holds every index as often as its runner repeats.
  lemma {:induction false} FilledCounts(bs: seq<Instance>, i: nat, r: nat)
    requires i <= |bs|
    ensures multiset(Filled(bs, i))[r] == if r < i then bs[r].repeats else 0
  {
    if i > 0 {
      FilledCounts(bs, i - 1, r);
      RepeatCounts(i - 1, bs[i - 1].repeats, r);
    }
  }

  // So does every shuffle of it.
  lemma ShuffleCounts(bs: seq<Instance>, order: seq<nat>, r: nat)
    requires IsShuffle(bs, order)
    ensures Seen(order, |order|, r) == if r < |bs| then bs[r].repeats else 0
  {
    FilledCounts(bs, |bs|, r);
    SeenIsCount(order, |order|, r);
    assert order[..|order|] == order;
  }

  lemma ShuffleIndexes(bs: seq<Instance>, order: seq<nat>, k: nat)
    requires IsShuffle(bs, order) && k < |order|
    ensures order[k] < |bs|
  {
    FilledCounts(bs, |bs|, order[k]);
    assert order[k] in multiset(order);
  }

  function Indicator(bs: seq<Instance>, f: int): nat -> real {
    (r: nat) => if InFamily(bs, r, f) then 1.0 else 0.0
  }

  lemma {:induction false} FamilySeenIsSum(bs: seq<Instance>, order: seq<nat>, k: nat, f: int)
    requires k <= |order|
    ensures FamilySeen(bs, order, k, f) as real == RealSums.Sum(Indicator(bs, f), order[..k])
  {
    if k > 0 {
      FamilySeenIsSum(bs, order, k - 1, f);
      assert order[..k] == order[..k - 1] + [order[k - 1]];
      RealSums.SumSnoc(Indicator(bs, f), order[..k - 1], order[k - 1]);
    }
  }

  lemma {:induction false} RepeatSum(bs: seq<Instance>, r: nat, n: nat, f: int)
    ensures RealSums.Sum(Indicator(bs, f), Repeat(r, n)) == if InFamily(bs, r, f) then n as real else 0.0
  {
    if n > 0 {
      RepeatSum(bs, r, n - 1, f);
      assert Repeat(r, n) == Repeat(r, n - 1) + [r];
      RealSums.SumSnoc(Indicator(bs, f), Repeat(r, n - 1), r);
    } else {
      assert Repeat(r, 0) == [];
    }
  }

  lemma {:induction false} FilledSum(bs: seq<Instance>, i: nat, f: int)
    requires i <= |bs|
    ensures RealSums.Sum(Indicator(bs, f), Filled(bs, i)) == TotalRuns(bs, i, f) as real
  {
    if i > 0 {
      FilledSum(bs, i - 1, f);
      RepeatSum(bs, i - 1, bs[i - 1].repeats, f);
      FilledStep(bs, i, f);
      RealSums.SumConcat(Indicator(bs, f), Filled(bs, i - 1), Repeat(i - 1, bs[i - 1].repeats));
    }
  }

  lemma FilledStep(bs: seq<Instance>, i: nat, f: int)
    requires 0 < i <= |bs|
    ensures Filled(bs, i) == Filled(bs, i - 1) + Repeat(i - 1, bs[i - 1].repeats)
    ensures TotalRuns(bs, i, f) as real == TotalRuns(bs, i - 1, f) as real
      + if InFamily(bs, i - 1, f) then bs[i - 1].repeats as real else 0.0
  {
  }

  lemma ShuffleFamilyCounts(bs: seq<Instance>, order: seq<nat>, f: int)
    requires IsShuffle(bs, order)
    ensures FamilySeen(bs, order, |order|, f) == TotalRuns(bs, |bs|, f)
  {
    FamilySeenIsSum(bs, order, |order|, f);
    assert order[..|order|] == order;
    FilledSum(bs, |bs|, f);
    RealSums.SumPermutation(Indicator(bs, f), order, Filled(bs, |bs|));
  }

  // ----- An index comes again exactly when not all its occurrences lie in the prefix

  lemma {:induction false} SeenVersusComesAgain(order: seq<nat>, k: nat, n: nat, r: nat)
    requires k <= n <= |order|
    ensures Seen(order, k, r) <= Seen(order, n, r)
    ensures Seen(order, k, r) == Seen(order, n, r) <==> forall j :: k <= j < n ==> order[j] != r
  {
    if k < n {
      SeenVersusComesAgain(order, k, n - 1, r);
    }
  }

  lemma {:induction false} FamilySeenVersusComesAgain(bs: seq<Instance>, order: seq<nat>, k: nat, n: nat, f: int)
    requires k <= n <= |order|
    ensures FamilySeen(bs, order, k, f) <= FamilySeen(bs, order, n, f)
    ensures FamilySeen(bs, order, k, f) == FamilySeen(bs, order, n, f)
        <==> forall j :: k <= j < n ==> !InFamily(bs, order[j], f)
  {
    if k < n {
      FamilySeenVersusComesAgain(bs, order, k, n - 1, f);
    }
  }

  lemma ComesAgainStep(bs: seq<Instance>, order: seq<nat>, k: nat, r: nat, f: int)
    requires k < |order|
    ensures ComesAgain(order, k, r) <==> order[k] == r || ComesAgain(order, k + 1, r)
    ensures ComesAgain(order, k, r) ==> ComesAgain(order, 0, r)
    ensures ComesAgain(order, k + 1, r) <==> Seen(order, k + 1, r) != Seen(order, |order|, r)
    ensures FamilyComesAgain(bs, order, k, f) <==> InFamily(bs, order[k], f) || FamilyComesAgain(bs, order, k + 1, f)
    ensures FamilyComesAgain(bs, order, k, f) ==> FamilyComesAgain(bs, order, 0, f)
    ensures FamilyComesAgain(bs, order, k + 1, f) <==> FamilySeen(bs, order, k + 1, f) != FamilySeen(bs, order, |order|, f)
  {
    SeenVersusComesAgain(order, k + 1, |order|, r);
    FamilySeenVersusComesAgain(bs, order, k + 1, |order|, f);
  }

  // A runner's last step is the only one that can complete its family.
  lemma EndsFamilyIsLast(bs: seq<Instance>, order: seq<nat>, k: nat)
    requires k < |order| && EndsFamily(bs, order, k)
    ensures !ComesAgain(order, k + 1, order[k])
  {
  }

  // ----- The runs a family is fitted on

  // Exactly the unskipped repetitions that have happened.
  lemma {:induction false} RunsOfIsComplete(bs: seq<Instance>, order: seq<nat>, k: nat, skipped: Skips, f: int, run: Run)
    requires k <= |order|
    ensures run in RunsOf(bs, order, k, skipped, f) <==>
      && run.familyIndex == f && InFamily(bs, run.runner, f)
      && run.repetition < Seen(order, k, run.runner) && !skipped(run.runner, run.repetition)
  {
    if k > 0 {
      RunsOfIsComplete(bs, order, k - 1, skipped, f, run);
    }
  }

  // No repetition is fitted twice.
  lemma {:induction false} RunsOfIsDistinct(bs: seq<Instance>, order: seq<nat>, k: nat, skipped: Skips, f: int)
    requires k <= |order|
    ensures forall i, j :: 0 <= i < j < |RunsOf(bs, order, k, skipped, f)| ==>
              RunsOf(bs, order, k, skipped, f)[i] != RunsOf(bs, order, k, skipped, f)[j]
  {
    if k > 0 {
      var front := RunsOf(bs, order, k - 1, skipped, f);
      RunsOfIsDistinct(bs, order, k - 1, skipped, f);
      forall i | 0 <= i < |front|
        ensures front[i] != Run(order[k - 1], Seen(order, k - 1, order[k - 1]), f)
      {
        assert front[i] in front;
        RunsOfIsComplete(bs, order, k - 1, skipped, f, front[i]);
      }
    }
  }

  lemma {:induction false} RunsOfSettles(bs: seq<Instance>, order: seq<nat>, k: nat, n: nat, skipped: Skips, f: int)
    requires k <= n <= |order|
    requires forall j :: k <= j < n ==> !InFamily(bs, order[j], f)
    ensures RunsOf(bs, order, k, skipped, f) == RunsOf(bs, order, n, skipped, f)
  {
    if k < n {
      RunsOfSettles(bs, order, k, n - 1, skipped, f);
    }
  }

  lemma FamilyHasARun(bs: seq<Instance>, order: seq<nat>, skipped: Skips, f: int)
    requires IsShuffle(bs, order) && EveryFamilyHasARun(bs, skipped) && Member(bs, |bs|, f)
    ensures var runs := RunsOf(bs, order, |order|, skipped, f);
            runs != [] && runs[0].familyIndex == f
  {
    var r: nat, j: nat :| InFamily(bs, r, f) && j < bs[r].repeats && !skipped(r, j);
    ShuffleCounts(bs, order, r);
    RunsOfIsComplete(bs, order, |order|, skipped, f, Run(r, j, f));
    var runs := RunsOf(bs, order, |order|, skipped, f);
    RunsOfIsComplete(bs, order, |order|, skipped, f, runs[0]);
  }

  // ----- The scheduler

  // One record per complexity family, with the number of runs it will see.
  method CountRuns(bs: seq<Instance>) returns (perFamily: map<int, PerFamilyRunReports>)
    ensures forall f :: f in perFamily <==> Member(bs, |bs|, f)
    ensures forall f :: f in perFamily ==> perFamily[f] == PerFamilyRunReports(TotalRuns(bs, |bs|, f), 0, [])
  {
    perFamily := map[];
    var i := 0;
    while i < |bs|
      invariant 0 <= i <= |bs|
      invariant forall f :: f in perFamily <==> Member(bs, i, f)
      invariant forall f :: f !in perFamily ==> TotalRuns(bs, i, f) == 0
      invariant forall f :: f in perFamily ==> perFamily[f] == PerFamilyRunReports(TotalRuns(bs, i, f), 0, [])
    {
      var b := bs[i];
      if b.complexity {
        var record := if b.family in perFamily then perFamily[b.family] else PerFamilyRunReports(0, 0, []);
        perFamily := perFamily[b.family := record.(numRunsTotal := record.numRunsTotal + b.repeats)];
      }
      forall f ensures f in perFamily <==> Member(bs, i + 1, f) {
        if f in perFamily && !Member(bs, i, f) {
          assert InFamily(bs, i, f);
        }
      }
      i := i + 1;
    }
  }

  method FillIndices(bs: seq<Instance>) returns (indices: seq<nat>)
    ensures indices == Filled(bs, |bs|)
  {
    indices := [];
    var i := 0;
    while i < |bs|
      invariant 0 <= i <= |bs| && indices == Filled(bs, i)
    {
      indices := indices + Repeat(i, bs[i].repeats);
      i := i + 1;
    }
  }

  // The record of a family after the first k steps.
  function RecordAt(bs: seq<Instance>, order: seq<nat>, skipped: Skips, k: nat, f: int): PerFamilyRunReports
    requires k <= |order|
  {
    PerFamilyRunReports(
      FamilySeen(bs, order, |order|, f), FamilySeen(bs, order, k, f), RunsOf(bs, order, k, skipped, f))
  }

  // A record is there as long as its family has something left to do.
  predicate RecordKept(bs: seq<Instance>, order: seq<nat>, k: nat, f: int) {
    Member(bs, |bs|, f) && (FamilyComesAgain(bs, order, k, f) || !FamilyComesAgain(bs, order, 0, f))
  }

  // What the counters and records say after the first k steps.
  ghost predicate Bookkeeping(
      bs: seq<Instance>, order: seq<nat>, skipped: Skips, k: nat,
      done: seq<nat>, perFamily: map<int, PerFamilyRunReports>)
    requires k <= |order|
  {
    && |done| == |bs|
    && (forall r: nat :: r < |bs| ==> done[r] == Seen(order, k, r))
    && (forall f :: f in perFamily <==> RecordKept(bs, order, k, f))
    && (forall f :: f in perFamily ==> perFamily[f] == RecordAt(bs, order, skipped, k, f))
  }

  // DoOneRepetition on the record of the runner's family.
  function WithRun(record: PerFamilyRunReports, run: Run, isSkipped: bool): PerFamilyRunReports {
    record.(numRunsDone := record.numRunsDone + 1, runs := if isSkipped then record.runs else record.runs + [run])
  }

  // The record after the runner's repetition, and whether that completed the family.
  function NextRecord(bs: seq<Instance>, r: nat, done: seq<nat>, perFamily: map<int, PerFamilyRunReports>, skipped: Skips)
    : PerFamilyRunReports
    requires r < |bs| == |done| && bs[r].family in perFamily
  {
    WithRun(perFamily[bs[r].family], Run(r, done[r], bs[r].family), skipped(r, done[r]))
  }

  predicate CompletesFamily(bs: seq<Instance>, r: nat, done: seq<nat>, perFamily: map<int, PerFamilyRunReports>, skipped: Skips)
    requires r < |bs| == |done| && (bs[r].complexity ==> bs[r].family in perFamily)
  {
    bs[r].complexity && done[r] + 1 == bs[r].repeats &&
    var record := NextRecord(bs, r, done, perFamily, skipped);
    record.numRunsDone == record.numRunsTotal
  }

  // One round of the loop of RunBenchmarks.
  method StepRunner(
      bs: seq<Instance>, r: nat, done: seq<nat>, perFamily: map<int, PerFamilyRunReports>, skipped: Skips)
    returns (done': seq<nat>, perFamily': map<int, PerFamilyRunReports>, events: seq<Event>)
    requires r < |bs| == |done|
    requires done[r] < bs[r].repeats                        // HasRepeatsRemaining
    requires bs[r].complexity ==> bs[r].family in perFamily // the record has not been erased
    requires CompletesFamily(bs, r, done, perFamily, skipped) ==>
               var runs := NextRecord(bs, r, done, perFamily, skipped).runs;
               runs != [] && runs[0].familyIndex == bs[r].family
    ensures done' == done[r := done[r] + 1]
    ensures perFamily' ==
      if !bs[r].complexity then perFamily
      else if CompletesFamily(bs, r, done, perFamily, skipped) then perFamily - {bs[r].family}
      else perFamily[bs[r].family := NextRecord(bs, r, done, perFamily, skipped)]
    ensures events ==
      [Stepped(r, done[r])]
      + (if CompletesFamily(bs, r, done, perFamily, skipped)
         then [Fitted(bs[r].family, NextRecord(bs, r, done, perFamily, skipped).runs)] else [])
      + (if done[r] + 1 != bs[r].repeats then [] else [Reported(r)])
  {
    var f := bs[r].family;
    perFamily' := perFamily;
    // DoOneRepetition
    events := [Stepped(r, done[r])];
    if bs[r].complexity {
      perFamily' := perFamily[f := WithRun(perFamily[f], Run(r, done[r], f), skipped(r, done[r]))];
    }
    done' := done[r := done[r] + 1];
    if done'[r] != bs[r].repeats {
      return;
    }
    if bs[r].complexity {
      var record := perFamily'[f];
      if record.numRunsDone == record.numRunsTotal {
        events := events + [Fitted(f, record.runs)];
        perFamily' := perFamily' - {record.runs[0].familyIndex};
      }
    }
    events := events + [Reported(r)];
  }

  // The order is whatever the shuffle made of the filled vector. Every step finds a
  // repetition left to do and the record of its family still in place.
  method RunBenchmarks(bs: seq<Instance>, order: seq<nat>, skipped: Skips) returns (log: seq<Event>)
    requires IsShuffle(bs, order) && EveryFamilyHasARun(bs, skipped)
    ensures log == Log(bs, order, skipped, |order|)
  {
    var perFamily := CountRuns(bs);
    var indices := FillIndices(bs);
    assert multiset(order) == multiset(indices);
    var done: seq<nat> := seq(|bs|, _ => 0);
    log := [];
    StartBooks(bs, order, skipped, done, perFamily);
    var k := 0;
    while k < |order|
      invariant 0 <= k <= |order| && log == Log(bs, order, skipped, k)
      invariant Bookkeeping(bs, order, skipped, k, done, perFamily)
    {
      var events;
      done, perFamily, events := RunNext(bs, order, skipped, k, done, perFamily);
      log := log + events;
      k := k + 1;
    }
  }

  // The body of the loop over the shuffled indices.
  method RunNext(
      bs: seq<Instance>, order: seq<nat>, skipped: Skips, k: nat, done: seq<nat>, perFamily: map<int, PerFamilyRunReports>)
    returns (done': seq<nat>, perFamily': map<int, PerFamilyRunReports>, events: seq<Event>)
    requires IsShuffle(bs, order) && EveryFamilyHasARun(bs, skipped)
    requires k < |order| && Bookkeeping(bs, order, skipped, k, done, perFamily)
    ensures Bookkeeping(bs, order, skipped, k + 1, done', perFamily')
    ensures Log(bs, order, skipped, k + 1) == Log(bs, order, skipped, k) + events
  {
    ShuffleIndexes(bs, order, k);
    RunnerHasWork(bs, order, skipped, k, done, perFamily);
    StepMatches(bs, order, skipped, k, done, perFamily);
    done', perFamily', events := StepRunner(bs, order[k], done, perFamily, skipped);
    StepIsLogged(bs, order, skipped, k, done, perFamily, events);
    AdvanceBooks(bs, order, skipped, k, done, perFamily, done', perFamily');
  }

  lemma StartBooks(bs: seq<Instance>, order: seq<nat>, skipped: Skips, done: seq<nat>, perFamily: map<int, PerFamilyRunReports>)
    requires IsShuffle(bs, order) && done == seq(|bs|, _ => 0)
    requires forall f :: f in perFamily <==> Member(bs, |bs|, f)
    requires forall f :: f in perFamily ==> perFamily[f] == PerFamilyRunReports(TotalRuns(bs, |bs|, f), 0, [])
    ensures Bookkeeping(bs, order, skipped, 0, done, perFamily)
  {
    forall f | f in perFamily ensures perFamily[f] == RecordAt(bs, order, skipped, 0, f) {
      ShuffleFamilyCounts(bs, order, f);
    }
  }

  lemma RunnerHasWork(
      bs: seq<Instance>, order: seq<nat>, skipped: Skips, k: nat, done: seq<nat>, perFamily: map<int, PerFamilyRunReports>)
    requires k < |order| && IsShuffle(bs, order) && Bookkeeping(bs, order, skipped, k, done, perFamily)
    requires order[k] < |bs|
    ensures done[order[k]] < bs[order[k]].repeats
    ensures bs[order[k]].complexity ==> bs[order[k]].family in perFamily
    ensures ComesAgain(order, k + 1, order[k]) <==> done[order[k]] + 1 != bs[order[k]].repeats
  {
    var f := bs[order[k]].family;
    ShuffleCounts(bs, order, order[k]);
    SeenVersusComesAgain(order, k + 1, |order|, order[k]);
    ComesAgainStep(bs, order, k, order[k], f);
    if bs[order[k]].complexity {
      assert InFamily(bs, order[k], f) && Member(bs, |bs|, f);
      assert RecordKept(bs, order, k, f);
    }
  }

  lemma NextRecordAdvances(
      bs: seq<Instance>, order: seq<nat>, skipped: Skips, k: nat, done: seq<nat>, perFamily: map<int, PerFamilyRunReports>)
    requires k < |order| && Bookkeeping(bs, order, skipped, k, done, perFamily)
    requires order[k] < |bs| && bs[order[k]].complexity && bs[order[k]].family in perFamily
    ensures NextRecord(bs, order[k], done, perFamily, skipped) ==
              RecordAt(bs, order, skipped, k + 1, bs[order[k]].family)
  {
    assert InFamily(bs, order[k], bs[order[k]].family);
  }

  // When a family's count is complete its record holds all its unskipped runs.
  lemma CompleteRecord(bs: seq<Instance>, order: seq<nat>, skipped: Skips, k: nat)
    requires k < |order| && IsShuffle(bs, order) && EveryFamilyHasARun(bs, skipped)
    requires order[k] < |bs| && bs[order[k]].complexity
    ensures var f := bs[order[k]].family;
            var record := RecordAt(bs, order, skipped, k + 1, f);
            && (record.numRunsDone == record.numRunsTotal <==> EndsFamily(bs, order, k))
            && (EndsFamily(bs, order, k) ==>
                  && record.runs == RunsOf(bs, order, |order|, skipped, f)
                  && record.runs != [] && record.runs[0].familyIndex == f)
  {
    var f := bs[order[k]].family;
    ComesAgainStep(bs, order, k, order[k], f);
    if EndsFamily(bs, order, k) {
      RunsOfSettles(bs, order, k + 1, |order|, skipped, f);
      FamilyHasARun(bs, order, skipped, f);
    }
  }

  // What the counters decide at step k is what the order says about position k.
  lemma StepMatches(
      bs: seq<Instance>, order: seq<nat>, skipped: Skips, k: nat, done: seq<nat>, perFamily: map<int, PerFamilyRunReports>)
    requires k < |order| && Bookkeeping(bs, order, skipped, k, done, perFamily)
    requires IsShuffle(bs, order) && EveryFamilyHasARun(bs, skipped)
    requires order[k] < |bs|
    requires bs[order[k]].complexity ==> bs[order[k]].family in perFamily
    ensures var r := order[k];
            && done[r] == Seen(order, k, r)
            && (CompletesFamily(bs, r, done, perFamily, skipped) <==> EndsFamily(bs, order, k))
            && (EndsFamily(bs, order, k) ==>
                  var runs := NextRecord(bs, r, done, perFamily, skipped).runs;
                  && runs == RunsOf(bs, order, |order|, skipped, bs[r].family)
                  && runs != [] && runs[0].familyIndex == bs[r].family)
  {
    RunnerHasWork(bs, order, skipped, k, done, perFamily);
    if bs[order[k]].complexity {
      NextRecordAdvances(bs, order, skipped, k, done, perFamily);
      CompleteRecord(bs, order, skipped, k);
      if EndsFamily(bs, order, k) {
        EndsFamilyIsLast(bs, order, k);
      }
    }
  }

  // The events of the step are those of position k.
  lemma StepIsLogged(
      bs: seq<Instance>, order: seq<nat>, skipped: Skips, k: nat, done: seq<nat>, perFamily: map<int, PerFamilyRunReports>,
      events: seq<Event>)
    requires k < |order| && Bookkeeping(bs, order, skipped, k, done, perFamily)
    requires IsShuffle(bs, order) && EveryFamilyHasARun(bs, skipped)
    requires order[k] < |bs|
    requires bs[order[k]].complexity ==> bs[order[k]].family in perFamily
    requires var r := order[k];
      events == [Stepped(r, done[r])]
        + (if CompletesFamily(bs, r, done, perFamily, skipped)
           then [Fitted(bs[r].family, NextRecord(bs, r, done, perFamily, skipped).runs)] else [])
        + (if done[r] + 1 != bs[r].repeats then [] else [Reported(r)])
    ensures Log(bs, order, skipped, k + 1) == Log(bs, order, skipped, k) + events
  {
    RunnerHasWork(bs, order, skipped, k, done, perFamily);
    StepMatches(bs, order, skipped, k, done, perFamily);
  }

  lemma AdvanceBooks(
      bs: seq<Instance>, order: seq<nat>, skipped: Skips, k: nat,
      done: seq<nat>, perFamily: map<int, PerFamilyRunReports>,
      done': seq<nat>, perFamily': map<int, PerFamilyRunReports>)
    requires k < |order| && Bookkeeping(bs, order, skipped, k, done, perFamily)
    requires IsShuffle(bs, order) && EveryFamilyHasARun(bs, skipped)
    requires order[k] < |bs|
    requires done' == done[order[k] := done[order[k]] + 1]
    requires bs[order[k]].complexity ==> bs[order[k]].family in perFamily
    requires perFamily' ==
      if !bs[order[k]].complexity then perFamily
      else if CompletesFamily(bs, order[k], done, perFamily, skipped) then perFamily - {bs[order[k]].family}
      else perFamily[bs[order[k]].family := NextRecord(bs, order[k], done, perFamily, skipped)]
    ensures Bookkeeping(bs, order, skipped, k + 1, done', perFamily')
  {
    StepMatches(bs, order, skipped, k, done, perFamily);
    if bs[order[k]].complexity {
      NextRecordAdvances(bs, order, skipped, k, done, perFamily);
    }
    forall f
      ensures f in perFamily' <==> RecordKept(bs, order, k + 1, f)
      ensures f in perFamily' ==> perFamily'[f] == RecordAt(bs, order, skipped, k + 1, f)
    {
      ComesAgainStep(bs, order, k, order[k], f);
    }
  }

  // ----- What the log amounts to

  // How often the first k positions bring about each event.
  function ExpectedSoFar(bs: seq<Instance>, order: seq<nat>, skipped: Skips, k: nat, e: Event): nat
    requires k <= |order|
  {
    match e
    case Stepped(r, j) => if j < Seen(order, k, r) then 1 else 0
    case Reported(r) => if ComesAgain(order, 0, r) && !ComesAgain(order, k, r) then 1 else 0
    case Fitted(f, runs) =>
      if && FamilyComesAgain(bs, order, 0, f) && !FamilyComesAgain(bs, order, k, f)
         && runs == RunsOf(bs, order, |order|, skipped, f) then 1 else 0
  }

  lemma ExpectedStep(bs: seq<Instance>, order: seq<nat>, skipped: Skips, k: nat, e: Event)
    requires k < |order|
    ensures ExpectedSoFar(bs, order, skipped, k + 1, e) ==
              ExpectedSoFar(bs, order, skipped, k, e) + multiset(EventsAt(bs, order, skipped, k))[e]
  {
    var r, f := order[k], FamilyOf(bs, order[k]);
    match e
    case Stepped(_, _) =>
    case Reported(q) => ComesAgainStep(bs, order, k, q, 0);
    case Fitted(g, _) =>
      ComesAgainStep(bs, order, k, r, g);
  }

  // A multiplicity that grows with every chunk.
  lemma {:induction false} ConcatCounted<T>(chunk: nat -> seq<T>, k: nat, e: T, count: nat -> int)
    requires count(0) == 0
    requires forall i: nat :: i < k ==> count(i + 1) == count(i) + multiset(chunk(i))[e]
    ensures multiset(Concat(chunk, k))[e] == count(k)
  {
    if k > 0 {
      ConcatCounted(chunk, k - 1, e, count);
      assert count(k - 1 + 1) == count(k);
    }
  }

  function ExpectedCount(bs: seq<Instance>, order: seq<nat>, skipped: Skips, e: Event): nat -> int {
    (k: nat) => if k <= |order| then ExpectedSoFar(bs, order, skipped, k, e) else 0
  }

  lemma LogCounted(bs: seq<Instance>, order: seq<nat>, skipped: Skips, k: nat, e: Event)
    requires k <= |order|
    ensures multiset(Log(bs, order, skipped, k))[e] == ExpectedSoFar(bs, order, skipped, k, e)
  {
    var count := ExpectedCount(bs, order, skipped, e);
    var chunks := Chunks(bs, order, skipped);
    forall i: nat | i < k ensures count(i + 1) == count(i) + multiset(chunks(i))[e] {
      ChunkCounted(bs, order, skipped, i, e);
    }
    ConcatCounted(chunks, k, e, count);
  }

  lemma ChunkCounted(bs: seq<Instance>, order: seq<nat>, skipped: Skips, i: nat, e: Event)
    requires i < |order|
    ensures var count, chunk := ExpectedCount(bs, order, skipped, e), Chunks(bs, order, skipped)(i);
      count(i + 1) == count(i) + multiset(chunk)[e]
  {
    ExpectedStep(bs, order, skipped, i, e);
  }

  // What must not follow an event: an earlier repetition of the same runner, a step of a
  // runner already reported, a step of a member of a family already fitted.
  predicate MustNotFollow(bs: seq<Instance>, e: Event, later: Event) {
    later.Stepped? &&
    match e
    case Stepped(r, j) => later.runner == r && later.repetition <= j
    case Reported(r) => later.runner == r
    case Fitted(f, _) => InFamily(bs, later.runner, f)
  }

  // Nothing that happened in the first k positions forbids the step of position k.
  lemma StepMayFollow(bs: seq<Instance>, order: seq<nat>, skipped: Skips, k: nat, e: Event)
    requires k < |order| && e in Log(bs, order, skipped, k)
    ensures !MustNotFollow(bs, e, EventsAt(bs, order, skipped, k)[0])
  {
    assert e in multiset(Log(bs, order, skipped, k));
    LogCounted(bs, order, skipped, k, e);
    match e
    case Stepped(_, _) =>
    case Reported(r) => ComesAgainStep(bs, order, k, r, 0);
    case Fitted(f, _) => ComesAgainStep(bs, order, k, 0, f);
  }

  lemma {:induction false} LogIsOrdered(bs: seq<Instance>, order: seq<nat>, skipped: Skips, k: nat, i: nat, j: nat)
    requires k <= |order| && i < j < |Log(bs, order, skipped, k)|
    ensures !MustNotFollow(bs, Log(bs, order, skipped, k)[i], Log(bs, order, skipped, k)[j])
  {
    if k > 0 {
      var before := Log(bs, order, skipped, k - 1);
      if j < |before| {
        LogIsOrdered(bs, order, skipped, k - 1, i, j);
      } else if j == |before| {
        StepMayFollow(bs, order, skipped, k - 1, before[i]);
      }
    }
  }

  // An unskipped step of a member of the family.
  function RunsIn(bs: seq<Instance>, skipped: Skips, f: int): Event -> bool {
    (e: Event) => e.Stepped? && InFamily(bs, e.runner, f) && !skipped(e.runner, e.repetition)
  }

  function StepOf(run: Run): Event {
    Stepped(run.runner, run.repetition)
  }

  function StepsOf(runs: seq<Run>): (steps: seq<Event>)
    ensures |steps| == |runs| && forall i :: 0 <= i < |runs| ==> steps[i] == Stepped(runs[i].runner, runs[i].repetition)
  {
    seq(|runs|, i requires 0 <= i < |runs| => StepOf(runs[i]))
  }

  // A position brings about its step first, and no other.
  predicate BeginsWithStep(events: seq<Event>, r: nat, j: nat) {
    events != [] && events[0] == Stepped(r, j) && forall i :: 1 <= i < |events| ==> !events[i].Stepped?
  }

  // The runs of a family are the unskipped steps of its members in the log, in the order of the log.
  lemma RunsFollowLog(bs: seq<Instance>, order: seq<nat>, skipped: Skips, k: nat, f: int)
    requires k <= |order|
    ensures StepsOf(RunsOf(bs, order, k, skipped, f)) == Filter(RunsIn(bs, skipped, f), Log(bs, order, skipped, k))
  {
    var chunks := Chunks(bs, order, skipped);
    forall i: nat | i < k ensures BeginsWithStep(chunks(i), order[i], Seen(order, i, order[i])) {
      ChunkBegins(bs, order, skipped, i);
    }
    RunsFollowChunks(bs, order, skipped, k, f, chunks);
  }

  lemma ChunkBegins(bs: seq<Instance>, order: seq<nat>, skipped: Skips, k: nat)
    requires k < |order|
    ensures BeginsWithStep(Chunks(bs, order, skipped)(k), order[k], Seen(order, k, order[k]))
  {
  }

  lemma RunsFollowChunks(
      bs: seq<Instance>, order: seq<nat>, skipped: Skips, k: nat, f: int, chunk: nat -> seq<Event>)
    requires k <= |order| && forall i: nat :: i < k ==> BeginsWithStep(chunk(i), order[i], Seen(order, i, order[i]))
    ensures StepsOf(RunsOf(bs, order, k, skipped, f)) == Filter(RunsIn(bs, skipped, f), Concat(chunk, k))
  {
    var steps := StepsSoFar(bs, order, skipped, f);
    forall i: nat | i < k ensures steps(i + 1) == steps(i) + Filter(RunsIn(bs, skipped, f), chunk(i)) {
      ChunkSteps(bs, order, skipped, i, f, chunk(i));
    }
    FilteredParts(RunsIn(bs, skipped, f), chunk, k, steps);
  }

  function StepsSoFar(bs: seq<Instance>, order: seq<nat>, skipped: Skips, f: int): nat -> seq<Event> {
    (i: nat) => if i <= |order| then StepsOf(RunsOf(bs, order, i, skipped, f)) else []
  }

  lemma ChunkSteps(bs: seq<Instance>, order: seq<nat>, skipped: Skips, i: nat, f: int, events: seq<Event>)
    requires i < |order| && BeginsWithStep(events, order[i], Seen(order, i, order[i]))
    ensures StepsSoFar(bs, order, skipped, f)(i + 1)
         == StepsSoFar(bs, order, skipped, f)(i) + Filter(RunsIn(bs, skipped, f), events)
  {
    StepFiltered(bs, skipped, f, order[i], Seen(order, i, order[i]), events);
    RunsOfNext(bs, order, skipped, i, f);
  }

  // A list that grows by the filtered parts.
  lemma {:induction false} FilteredParts<T>(p: T -> bool, part: nat -> seq<T>, k: nat, list: nat -> seq<T>)
    requires list(0) == [] && forall i: nat :: i < k ==> list(i + 1) == list(i) + Filter(p, part(i))
    ensures list(k) == Filter(p, Concat(part, k))
  {
    if k > 0 {
      FilteredParts(p, part, k - 1, list);
      FilterAppend(p, Concat(part, k - 1), part(k - 1));
      assert list(k - 1 + 1) == list(k);
    }
  }

  lemma StepFiltered(bs: seq<Instance>, skipped: Skips, f: int, r: nat, j: nat, events: seq<Event>)
    requires BeginsWithStep(events, r, j)
    ensures Filter(RunsIn(bs, skipped, f), events) == if InFamily(bs, r, f) && !skipped(r, j) then [Stepped(r, j)] else []
  {
    FirstOnly(RunsIn(bs, skipped, f), events);
  }

  lemma RunsOfNext(bs: seq<Instance>, order: seq<nat>, skipped: Skips, k: nat, f: int)
    requires k < |order|
    ensures var r, j := order[k], Seen(order, k, order[k]);
      StepsOf(RunsOf(bs, order, k + 1, skipped, f)) == StepsOf(RunsOf(bs, order, k, skipped, f)) +
        if InFamily(bs, r, f) && !skipped(r, j) then [Stepped(r, j)] else []
  {
  }

  lemma FirstOnly<T>(p: T -> bool, s: seq<T>)
    requires s != [] && forall i :: 1 <= i < |s| ==> !p(s[i])
    ensures Filter(p, s) == if p(s[0]) then [s[0]] else []
  {
    assert s == [s[0]] + s[1..];
    FilterNone(p, s[1..]);
    FilterCons(p, s[0], s[1..]);
  }

  // A fit follows the step of a member of the family, and is followed by that runner's report.
  predicate FitsAreReported(bs: seq<Instance>, events: seq<Event>) {
    forall i :: 0 <= i < |events| && events[i].Fitted? ==>
      && 0 < i < |events| - 1
      && events[i - 1].Stepped? && InFamily(bs, events[i - 1].runner, events[i].family)
      && events[i + 1] == Reported(events[i - 1].runner)
  }

  // A family is fitted right after the step that completes it, and reported with that runner.
  lemma FitIsReported(bs: seq<Instance>, order: seq<nat>, skipped: Skips, k: nat)
    requires k <= |order|
    ensures FitsAreReported(bs, Log(bs, order, skipped, k))
  {
    forall i: nat | i < k ensures FitsAreReported(bs, Chunks(bs, order, skipped)(i)) {
      ChunkFit(bs, order, skipped, i);
    }
    FitsInChunks(bs, Chunks(bs, order, skipped), k);
  }

  lemma ChunkFit(bs: seq<Instance>, order: seq<nat>, skipped: Skips, k: nat)
    requires k < |order|
    ensures FitsAreReported(bs, Chunks(bs, order, skipped)(k))
  {
    if EndsFamily(bs, order, k) {
      EndsFamilyIsLast(bs, order, k);
    }
  }

  lemma {:induction false} FitsInChunks(bs: seq<Instance>, chunk: nat -> seq<Event>, k: nat)
    requires forall i: nat :: i < k ==> FitsAreReported(bs, chunk(i))
    ensures FitsAreReported(bs, Concat(chunk, k))
  {
    if k > 0 {
      FitsInChunks(bs, chunk, k - 1);
      var before, now := Concat(chunk, k - 1), chunk(k - 1);
      forall i | |before| <= i < |before + now| ensures (before + now)[i] == now[i - |before|] {
      }
    }
  }

  // Somebody in the family runs at all.
  ghost predicate FamilyRuns(bs: seq<Instance>, f: int) {
    exists q: nat :: InFamily(bs, q, f) && bs[q].repeats > 0
  }

  // How often an event is to happen in all, said without the order (but for the order in
  // which a family's runs are listed).
  ghost function Expected(bs: seq<Instance>, order: seq<nat>, skipped: Skips, e: Event): nat {
    match e
    case Stepped(r, j) => if r < |bs| && j < bs[r].repeats then 1 else 0
    case Reported(r) => if r < |bs| && bs[r].repeats > 0 then 1 else 0
    case Fitted(f, runs) => if FamilyRuns(bs, f) && runs == RunsOf(bs, order, |order|, skipped, f) then 1 else 0
  }

  // For every shuffle: each runner is stepped once for each of its repetitions, in order, and
  // no other time; it is reported once and never stepped again; each complexity family that
  // runs at all is fitted once, on all its unskipped runs, after the last step of its runners.
  lemma ScheduleIsRight(bs: seq<Instance>, order: seq<nat>, skipped: Skips, e: Event)
    requires IsShuffle(bs, order)
    ensures multiset(Log(bs, order, skipped, |order|))[e] == Expected(bs, order, skipped, e)
    ensures var log := Log(bs, order, skipped, |order|);
            forall i: nat, j: nat :: i < j < |log| ==> !MustNotFollow(bs, log[i], log[j])
  {
    LogCounted(bs, order, skipped, |order|, e);
    forall i: nat, j: nat | i < j < |Log(bs, order, skipped, |order|)|
      ensures !MustNotFollow(bs, Log(bs, order, skipped, |order|)[i], Log(bs, order, skipped, |order|)[j])
    {
      LogIsOrdered(bs, order, skipped, |order|, i, j);
    }
    match e
    case Stepped(r, _) => ShuffleCounts(bs, order, r);
    case Reported(r) =>
      ShuffleCounts(bs, order, r);
      SeenVersusComesAgain(order, 0, |order|, r);
    case Fitted(f, _) => FamilyRunsAtAll(bs, order, f);
  }

  lemma FamilyRunsAtAll(bs: seq<Instance>, order: seq<nat>, f: int)
    requires IsShuffle(bs, order)
    ensures FamilyComesAgain(bs, order, 0, f) <==> FamilyRuns(bs, f)
  {
    if j :| 0 <= j < |order| && InFamily(bs, order[j], f) {
      ShuffleCounts(bs, order, order[j]);
      SeenVersusComesAgain(order, 0, |order|, order[j]);
    }
    if q: nat :| InFamily(bs, q, f) && bs[q].repeats > 0 {
      ShuffleCounts(bs, order, q);
      SeenVersusComesAgain(order, 0, |order|, q);
    }
  }
}
