/** The runners under the scheduler (src/benchmark.cc, src/benchmark_runner.cc): what the
    scheduler takes as skipped repetitions is what the runners' own reports say. */
module Engines {
  import opened BenchmarkRunners
  import opened Runners
  import Loops
  import S = Schedulers

  predicate SkippedReport(report: Report) {
    report.outcome.results.skipped != Loops.NotSkipped
  }

  // The reports of runner r after n repetitions.
  type History = (nat, nat) -> seq<Report>

  // Starting from given states, with a step for each runner.
  function HistoryOf<T>(steps: seq<T -> T>, starts: seq<T>, reports: T -> seq<Report>): History {
    (r: nat, n: nat) => if r < |steps| && r < |starts| then reports(Iterate(steps[r], starts[r], n)) else []
  }

  // A repetition is skipped if the runner reports it so when it gets that far.
  ghost function SkipsOf(h: History): S.Skips {
    (r: nat, k: nat) => k < |h(r, k + 1)| && SkippedReport(h(r, k + 1)[k])
  }

  // Each repetition adds a report, and reports stay as they are.
  ghost predicate Grows(h: History, r: nat) {
    forall j: nat, k: nat :: j <= k ==> |h(r, j)| == j && |h(r, k)| == k && h(r, j) == h(r, k)[..j]
  }

  predicate OneLonger<R(==)>(a: seq<R>, b: seq<R>) {
    |b| == |a| + 1 && b[..|a|] == a
  }

  // A list that every step of an iteration extends by one.
  ghost predicate ExtendsByOne<T(!new), R>(f: T -> T, ok: T -> bool, list: T -> seq<R>) {
    forall a :: ok(a) ==> ok(f(a)) && OneLonger(list(a), list(f(a)))
  }

  lemma {:induction false} IterateCountsUp<T(!new), R>(f: T -> T, x: T, ok: T -> bool, list: T -> seq<R>, k: nat)
    requires ok(x) && list(x) == [] && ExtendsByOne(f, ok, list)
    ensures ok(Iterate(f, x, k)) && |list(Iterate(f, x, k))| == k
  {
    if k > 0 {
      IterateCountsUp(f, x, ok, list, k - 1);
    }
  }

  lemma {:induction false} IterateExtends<T(!new), R>(f: T -> T, x: T, ok: T -> bool, list: T -> seq<R>, j: nat, k: nat)
    requires ok(x) && list(x) == [] && j <= k && ExtendsByOne(f, ok, list)
    ensures |list(Iterate(f, x, k))| == k && list(Iterate(f, x, j)) == list(Iterate(f, x, k))[..j]
  {
    IterateCountsUp(f, x, ok, list, k);
    if j < k {
      IterateCountsUp(f, x, ok, list, k - 1);
      IterateExtends(f, x, ok, list, j, k - 1);
      var a, b := list(Iterate(f, x, k - 1)), list(Iterate(f, x, k));
      assert OneLonger(a, b);
      assert b[..j] == b[..|a|][..j];
    }
  }

  ghost function ReadyIn(env: Environment): Runner -> bool {
    (r: Runner) => Ready(r, env)
  }

  function ReportsOf(): Runner -> seq<Report> {
    (r: Runner) => r.reports
  }

  lemma RepetitionExtends(env: Environment)
    ensures ExtendsByOne(Repetition(env), ReadyIn(env), ReportsOf())
  {
    forall r | ReadyIn(env)(r)
      ensures ReadyIn(env)(Repetition(env)(r)) && OneLonger(ReportsOf()(r), ReportsOf()(Repetition(env)(r)))
    {
      OneMoreReport(r, env);
    }
  }

  // A list that every step extends by one keeps all its prefixes.
  lemma PrefixesStay<T(!new), R>(f: T -> T, x: T, ok: T -> bool, list: T -> seq<R>)
    requires ok(x) && list(x) == [] && ExtendsByOne(f, ok, list)
    ensures forall j: nat, k: nat :: j <= k ==>
      var a, b := list(Iterate(f, x, j)), list(Iterate(f, x, k)); |a| == j && |b| == k && a == b[..j]
  {
    forall j: nat, k: nat | j <= k
      ensures var a, b := list(Iterate(f, x, j)), list(Iterate(f, x, k)); |a| == j && |b| == k && a == b[..j]
    {
      IterateCountsUp(f, x, ok, list, j);
      IterateExtends(f, x, ok, list, j, k);
    }
  }

  lemma OneMoreReport(r: Runner, env: Environment)
    requires Ready(r, env)
    ensures Ready(Repetition(env)(r), env) && OneLonger(r.reports, Repetition(env)(r).reports)
  {
    RepetitionStaysReady(r, env);
  }

  lemma HistoryGrows<T(!new)>(steps: seq<T -> T>, starts: seq<T>, ok: T -> bool, reports: T -> seq<Report>, r: nat)
    requires r < |steps| && r < |starts| && ok(starts[r]) && reports(starts[r]) == []
    requires ExtendsByOne(steps[r], ok, reports)
    ensures Grows(HistoryOf(steps, starts, reports), r)
  {
    PrefixesStay(steps[r], starts[r], ok, reports);
  }

  // The runs that a complexity family is fitted on are exactly the unskipped reports which its
  // runners hold when all their repetitions are done.
  lemma FittedOnHistory(bs: seq<S.Instance>, order: seq<nat>, h: History, f: int, run: S.Run)
    requires S.IsShuffle(bs, order) && forall r: nat :: r < |bs| ==> Grows(h, r)
    ensures run in S.RunsOf(bs, order, |order|, SkipsOf(h), f) <==>
      && run.familyIndex == f && S.InFamily(bs, run.runner, f)
      && var reports := h(run.runner, bs[run.runner].repeats);
         run.repetition < |reports| == bs[run.runner].repeats && !SkippedReport(reports[run.repetition])
  {
    var r, k := run.runner, run.repetition;
    S.RunsOfIsComplete(bs, order, |order|, SkipsOf(h), f, run);
    S.ShuffleCounts(bs, order, r);
    if r < |bs| && k < bs[r].repeats {
      var all, upTo := h(r, bs[r].repeats), h(r, k + 1);
      assert Grows(h, r);
      assert upTo == all[..k + 1];
    }
  }

  ghost function Repetitions(envs: seq<Environment>): seq<Runner -> Runner> {
    seq(|envs|, r requires 0 <= r < |envs| => Repetition(envs[r]))
  }

  // So it is for every shuffle of any BenchmarkRunner objects.
  lemma FittedOnReports(
      bs: seq<S.Instance>, order: seq<nat>, starts: seq<Runner>, envs: seq<Environment>, f: int, run: S.Run)
    requires S.IsShuffle(bs, order) && |starts| == |envs| == |bs|
    requires forall r :: 0 <= r < |bs| ==> Ready(starts[r], envs[r]) && starts[r].reports == []
    ensures var h := HistoryOf(Repetitions(envs), starts, ReportsOf());
      run in S.RunsOf(bs, order, |order|, SkipsOf(h), f) <==>
        && run.familyIndex == f && S.InFamily(bs, run.runner, f)
        && var reports := h(run.runner, bs[run.runner].repeats);
           run.repetition < |reports| == bs[run.runner].repeats && !SkippedReport(reports[run.repetition])
  {
    var h := HistoryOf(Repetitions(envs), starts, ReportsOf());
    forall r: nat | r < |bs| ensures Grows(h, r) {
      RepetitionExtends(envs[r]);
      HistoryGrows(Repetitions(envs), starts, ReadyIn(envs[r]), ReportsOf(), r);
    }
    FittedOnHistory(bs, order, h, f, run);
  }

  // The history is that of the runners: after n repetitions it holds what AfterRepetitions says.
  lemma HistoryIsReports(starts: seq<Runner>, envs: seq<Environment>, r: nat, n: nat)
    requires r < |starts| == |envs|
    ensures HistoryOf(Repetitions(envs), starts, ReportsOf())(r, n) == AfterRepetitions(starts[r], envs[r], n).reports
  {
  }
}
