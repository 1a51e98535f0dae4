/** The BenchmarkRunner object: warm-up, repetitions, and what carries over between them. */
module BenchmarkRunners {
  import opened Runners
  import opened SearchEnds
  import opened ThreadManagers

  // One reported repetition.
  datatype Report = Report(outcome: IterationResults, repetitionIndex: int)

  // The value of a runner; `passes` is every call of DoNIterations so far.
  datatype Runner = Runner(
    cfg: Config, iters: int, warmupDone: bool, repetitionsDone: nat, passes: seq<Pass>, reports: seq<Report>)

  ghost predicate Ready(r: Runner, env: Environment) {
    Admissible(r.cfg, env) && r.iters >= 1
  }

  function Init(cfg: Config, explicitIters: int): Runner {
    Runner(cfg,
           if cfg.dryRun then 1 else if cfg.hasExplicitIterationCount then explicitIters else 1,
           cfg.dryRun || !(cfg.minWarmupTime > 0.0),
           0, [], [])
  }

  ghost function One(r: Runner, env: Environment): Pass
    requires Ready(r, env)
  {
    Pass(r.iters, Measured(r.cfg, Outcome(env(|r.passes|, r.iters))))
  }

  // The warm-up leaves nothing behind but its passes and the mark that it is done.
  ghost function AfterWarmUp(r: Runner, env: Environment): Runner
    requires Ready(r, env)
  {
    if r.warmupDone then r
    else r.(warmupDone := true,
            passes := r.passes + Search(r.cfg, r.cfg.minWarmupTime, env, |r.passes|, r.iters))
  }

  // The measured passes of one repetition: only the first repetition searches.
  ghost function Measurement(r: Runner, env: Environment): (passes: seq<Pass>)
    requires Ready(r, env)
    ensures |passes| >= 1
  {
    if r.repetitionsDone > 0 || r.cfg.hasExplicitIterationCount then [One(r, env)]
    else Search(r.cfg, r.cfg.minTime, env, |r.passes|, r.iters)
  }

  // BenchmarkRunner::DoOneRepetition
  ghost function AfterRepetition(r: Runner, env: Environment): (r': Runner)
    requires Ready(r, env)
  {
    var warm := AfterWarmUp(r, env);
    Concluded(warm, Measurement(warm, env))
  }

  function Concluded(warm: Runner, measured: seq<Pass>): Runner
    requires measured != []
  {
    var last := measured[|measured| - 1];
    warm.(iters := last.requested,
          repetitionsDone := warm.repetitionsDone + 1,
          passes := warm.passes + measured,
          reports := warm.reports + [Report(last.outcome, warm.repetitionsDone)])
  }

  // A warm-up, if one is due, searches with its own minimum time and changes nothing else.
  predicate WarmedUp(r: Runner, warm: Runner) {
    && r.passes <= warm.passes && warm == r.(warmupDone := true, passes := warm.passes)
    && (if r.warmupDone then warm.passes == r.passes
        else EndsAtFirst(r.cfg, r.cfg.minWarmupTime, warm.passes[|r.passes|..]))
  }

  lemma WarmUpRunsLongEnough(r: Runner, env: Environment)
    requires Ready(r, env)
    ensures WarmedUp(r, AfterWarmUp(r, env))
  {
    if !r.warmupDone {
      SearchEndsAtFirst(r.cfg, r.cfg.minWarmupTime, env, |r.passes|, r.iters);
      assert AfterWarmUp(r, env).passes[|r.passes|..] == Search(r.cfg, r.cfg.minWarmupTime, env, |r.passes|, r.iters);
    }
  }

  // A repetition reports the results of its last pass, under its own index. In the first repetition
  // without an explicit count those end the search.
  predicate ReportsLastPass(r: Runner, done: Runner) {
    && r.passes <= done.passes && |done.passes| > |r.passes|
    && var last := done.passes[|done.passes| - 1];
      && done.reports == r.reports + [Report(last.outcome, r.repetitionsDone)]
      && done.iters == last.requested && CountsPerThread(r.cfg, last.outcome)
      && (r.repetitionsDone == 0 && !r.cfg.hasExplicitIterationCount ==>
           EndsSearch(r.cfg, r.cfg.minTime, last.outcome.results))
  }

  lemma RepetitionReportsLastPass(r: Runner, env: Environment)
    requires Ready(r, env)
    ensures ReportsLastPass(r, AfterRepetition(r, env))
  {
    var warm := AfterWarmUp(r, env);
    SearchEndsAtFirst(r.cfg, r.cfg.minTime, env, |warm.passes|, warm.iters);
    MeasuredCountsPerThread(r.cfg, Outcome(env(|warm.passes|, warm.iters)));
    var done := AfterRepetition(r, env);
    assert done.passes[|done.passes| - 1] == Measurement(warm, env)[|Measurement(warm, env)| - 1];
  }

  // They are the first of the measured passes that do.
  lemma FirstRepetitionSearches(r: Runner, env: Environment)
    requires Ready(r, env) && r.repetitionsDone == 0 && !r.cfg.hasExplicitIterationCount
    ensures EndsAtFirst(r.cfg, r.cfg.minTime, AfterRepetition(r, env).passes[|AfterWarmUp(r, env).passes|..])
  {
    var warm := AfterWarmUp(r, env);
    SearchEndsAtFirst(r.cfg, r.cfg.minTime, env, |warm.passes|, warm.iters);
    assert AfterRepetition(r, env).passes[|warm.passes|..] == Measurement(warm, env);
  }

  // What a new runner does first: a dry run makes a single pass of one iteration; otherwise there is
  // a warm-up exactly if a time is set for it, then a single pass of the explicit count or a search
  // that begins with one iteration.
  lemma {:induction false} FirstPasses(cfg: Config, explicitIters: int, env: Environment)
    requires Ready(Init(cfg, explicitIters), env)
    ensures var w := |AfterWarmUp(Init(cfg, explicitIters), env).passes|;
      var measured := AfterRepetition(Init(cfg, explicitIters), env).passes[w..];
      && (w > 0 <==> !cfg.dryRun && cfg.minWarmupTime > 0.0)
      && (cfg.dryRun ==> |measured| == 1 && measured[0].requested == 1)
      && (!cfg.dryRun && cfg.hasExplicitIterationCount ==> |measured| == 1 && measured[0].requested == explicitIters)
      && (!cfg.dryRun && !cfg.hasExplicitIterationCount ==> measured != [] && measured[0].requested == 1)
  {
    var warm := AfterWarmUp(Init(cfg, explicitIters), env);
    assert AfterRepetition(Init(cfg, explicitIters), env).passes[|warm.passes|..] == Measurement(warm, env);
  }

  // One round of a search loop: `done` grows by a pass, and what is left to do shrinks.
  lemma SearchStep(cfg: Config, minTime: real, env: Environment, done: seq<Pass>, n: int, whole: seq<Pass>)
    requires Admissible(cfg, env) && n >= 1
    requires whole == done + Search(cfg, minTime, env, |done|, n)
    ensures var i := Measured(cfg, Outcome(env(|done|, n)));
            var done' := done + [Pass(n, i)];
            if ShouldReport(cfg, minTime, i) then whole == done'
            else
              && minTime > 0.0 && n <= i.iters < K_MAX_ITERATIONS
              && Predicted(minTime, i) > n
              && whole == done' + Search(cfg, minTime, env, |done'|, Predicted(minTime, i))
  {
    var i := Measured(cfg, Outcome(env(|done|, n)));
    PassReportsEnough(cfg, n, env(|done|, n));
    if !ShouldReport(cfg, minTime, i) {
      RejectedGrows(cfg, minTime, i);
      assert |done + [Pass(n, i)]| == |done| + 1;
      assert done + ([Pass(n, i)] + Search(cfg, minTime, env, |done| + 1, Predicted(minTime, i)))
          == (done + [Pass(n, i)]) + Search(cfg, minTime, env, |done| + 1, Predicted(minTime, i));
    }
  }

  class BenchmarkRunner {
    const cfg: Config
    const env: Environment       // what the threads of each pass do
    var iters: int
    var warmupDone: bool
    var numRepetitionsDone: nat
    var nonAggregates: seq<Report>
    var passes: seq<Pass>        // the history of DoNIterations

    ghost function View(): Runner
      reads this
    {
      Runner(cfg, iters, warmupDone, numRepetitionsDone, passes, nonAggregates)
    }

    ghost predicate Valid()
      reads this
    {
      Ready(View(), env)
    }

    // An explicit iteration count comes from the benchmark or from the command line.
    constructor (config: Config, environment: Environment, explicitIters: int)
      requires Admissible(config, environment)
      requires config.hasExplicitIterationCount && !config.dryRun ==> explicitIters >= 1
      ensures Valid() && View() == Init(config, explicitIters) && env == environment
    {
      cfg, env := config, environment;
      iters := if config.dryRun then 1 else if config.hasExplicitIterationCount then explicitIters else 1;
      warmupDone := config.dryRun || !(config.minWarmupTime > 0.0);
      numRepetitionsDone := 0;
      nonAggregates := [];
      passes := [];
    }

    // Runs all threads once; their critical sections act on a fresh shared record.
    method DoNIterations() returns (i: IterationResults)
      requires Valid()
      modifies this`passes
      ensures passes == old(passes) + [One(old(View()), env)] && i == One(old(View()), env).outcome
    {
      var manager := new ThreadManager(cfg.threads);
      var events := env(|passes|, iters);
      var k := 0;
      assert events[..0] == [];
      while k < |events|
        modifies manager
        invariant 0 <= k <= |events|
        invariant manager.results == Outcome(events[..k])
      {
        match events[k] {
          case Finish(c) => manager.AddThread(c);
          case Skip(kind, message) => manager.RecordSkip(kind, message);
        }
        assert events[..k + 1][..k] == events[..k];
        k := k + 1;
      }
      assert events[..k] == events;
      var results := manager.results;
      var seconds := results.cpuTime;
      if cfg.useManualTime {
        seconds := results.manualTime;
      } else if cfg.useRealTime {
        seconds := results.realTime;
      }
      i := IterationResults(results, results.iterations / cfg.threads, seconds);
      passes := passes + [Pass(iters, i)];
    }

    method RunWarmUp()
      requires Valid() && !warmupDone
      modifies this
      ensures View() == AfterWarmUp(old(View()), env)
      ensures WarmedUp(old(View()), View())
    {
      WarmUpRunsLongEnough(View(), env);
      var backup := iters;
      ghost var whole := passes + Search(cfg, cfg.minWarmupTime, env, |passes|, iters);
      while true
        invariant Valid() && View() == old(View()).(iters := iters, passes := passes)
        invariant whole == passes + Search(cfg, cfg.minWarmupTime, env, |passes|, iters)
        decreases if iters < K_MAX_ITERATIONS then K_MAX_ITERATIONS - iters else 0
      {
        SearchStep(cfg, cfg.minWarmupTime, env, passes, iters, whole);
        var i := DoNIterations();
        if ShouldReport(cfg, if warmupDone then cfg.minTime else cfg.minWarmupTime, i) {
          warmupDone := true;
          iters := backup;
          break;
        }
        iters := Predicted(cfg.minWarmupTime, i);
      }
    }

    // The loop of DoOneRepetition that measures until the results are significant.
    method MeasureUntilSignificant(first: bool) returns (i: IterationResults)
      requires Valid() && warmupDone && first == (numRepetitionsDone == 0)
      modifies this
      ensures Valid() && passes == old(passes) + Measurement(old(View()), env)
      ensures passes[|passes| - 1] == Pass(iters, i)
      ensures View() == old(View()).(iters := iters, passes := passes)
    {
      ghost var searching := first && !cfg.hasExplicitIterationCount;
      ghost var whole := passes + Measurement(View(), env);
      while true
        invariant Valid() && View() == old(View()).(iters := iters, passes := passes)
        invariant searching ==> whole == passes + Search(cfg, cfg.minTime, env, |passes|, iters)
        invariant !searching ==> View() == old(View())
        decreases if iters < K_MAX_ITERATIONS then K_MAX_ITERATIONS - iters else 0
      {
        if searching {
          SearchStep(cfg, cfg.minTime, env, passes, iters, whole);
        }
        i := DoNIterations();
        if !first || cfg.hasExplicitIterationCount || ShouldReport(cfg, cfg.minTime, i) {
          break;
        }
        iters := Predicted(cfg.minTime, i);
      }
    }

    method DoOneRepetition()
      requires Valid() && numRepetitionsDone != cfg.repeats
      modifies this
      ensures Valid() && View() == AfterRepetition(old(View()), env)
      ensures ReportsLastPass(old(View()), View())
    {
      ghost var before := View();
      var first := numRepetitionsDone == 0;
      if !warmupDone {
        RunWarmUp();
      }
      ghost var warm := View();
      assert warm == AfterWarmUp(old(View()), env);
      var i := MeasureUntilSignificant(first);
      ghost var measured := Measurement(warm, env);
      assert passes[|passes| - 1] == measured[|measured| - 1];
      nonAggregates := nonAggregates + [Report(i, numRepetitionsDone)];
      numRepetitionsDone := numRepetitionsDone + 1;
      assert View() == Concluded(warm, measured);
      RepetitionReportsLastPass(before, env);
    }
  }

  // ----- All repetitions of one runner

  lemma RepetitionStaysReady(r: Runner, env: Environment)
    requires Ready(r, env)
    ensures Ready(AfterRepetition(r, env), env)
  {
    var warm := AfterWarmUp(r, env);
    if !(warm.repetitionsDone > 0 || warm.cfg.hasExplicitIterationCount) {
      SearchIsChain(warm.cfg, warm.cfg.minTime, env, |warm.passes|, warm.iters);
    }
  }

  function Iterate<T>(f: T -> T, x: T, k: nat): T {
    if k == 0 then x else f(Iterate(f, x, k - 1))
  }

  // A relation that one step on both sides keeps holds after any number of steps.
  lemma {:induction false} IterateRelated<S(!new), T(!new)>(f: S -> S, x: S, g: T -> T, y: T, related: (S, T) -> bool, k: nat)
    requires related(x, y)
    requires forall a, b :: related(a, b) ==> related(f(a), g(b))
    ensures related(Iterate(f, x, k), Iterate(g, y, k))
  {
    if k > 0 {
      IterateRelated(f, x, g, y, related, k - 1);
    }
  }

  lemma {:induction false} IterateShifts<T>(f: T -> T, x: T, k: nat)
    ensures Iterate(f, f(x), k) == Iterate(f, x, k + 1)
  {
    if k > 0 {
      IterateShifts(f, x, k - 1);
    }
  }

  lemma {:induction false} IterateCounts(from: int, k: nat)
    ensures Iterate((n: int) => n + 1, from, k) == from + k
  {
    if k > 0 {
      IterateCounts(from, k - 1);
    }
  }

  ghost function Repetition(env: Environment): Runner -> Runner {
    (r: Runner) => if Ready(r, env) then AfterRepetition(r, env) else r
  }

  ghost function AfterRepetitions(r: Runner, env: Environment, k: nat): Runner {
    Iterate(Repetition(env), r, k)
  }

  // After the first repetition each further one is a single pass.
  lemma LaterRepetition(r: Runner, env: Environment)
    requires Ready(r, env) && r.warmupDone && r.repetitionsDone > 0
    ensures Ready(AfterRepetition(r, env), env)
    ensures AfterRepetition(r, env) ==
      r.(passes := r.passes + [One(r, env)], repetitionsDone := r.repetitionsDone + 1,
         reports := r.reports + [Report(One(r, env).outcome, r.repetitionsDone)])
  {
  }

  // n repetitions are done, all but the first with a single pass of the settled count, and each
  // reports its last pass.
  predicate Settled(one: Runner, all: Runner, n: int) {
    && |one.passes| >= 1
    && all.warmupDone && all.iters == one.iters && all.repetitionsDone == |all.reports| == n >= 1
    && |all.passes| == |one.passes| + n - 1 && one.passes <= all.passes
    && (forall j :: |one.passes| <= j < |all.passes| ==> all.passes[j].requested == one.iters)
    && (forall j :: 0 <= j < n ==> all.reports[j] == Report(all.passes[|one.passes| - 1 + j].outcome, j))
  }

  // The first repetition settles the iteration count: every later one makes a single pass
  // with that count and reports it under its own index.
  lemma LaterRepetitionsReuseCount(r: Runner, env: Environment, k: nat)
    requires Ready(r, env) && r.repetitionsDone == 0 && r.reports == [] && k >= 1
    ensures Settled(AfterRepetitions(r, env, 1), AfterRepetitions(r, env, k), k)
    ensures !r.cfg.hasExplicitIterationCount ==>
      EndsSearch(r.cfg, r.cfg.minTime, AfterRepetitions(r, env, k).reports[0].outcome.results)
  {
    FirstRepetition(r, env);
    RepetitionReportsLastPass(r, env);
    SettledFrom(AfterRepetition(r, env), env, k - 1);
    IterateShifts(Repetition(env), r, k - 1);
    assert Iterate(Repetition(env), r, 0) == r;
    assert AfterRepetitions(r, env, 1) == AfterRepetition(r, env);
  }

  lemma FirstRepetition(r: Runner, env: Environment)
    requires Ready(r, env) && r.repetitionsDone == 0 && r.reports == []
    ensures var one := AfterRepetition(r, env);
      Repetition(env)(r) == one && Ready(one, env) && Settled(one, one, 1)
  {
    RepetitionStaysReady(r, env);
    RepetitionReportsLastPass(r, env);
  }

  lemma SettledStep(one: Runner, all: Runner, env: Environment, n: int)
    requires Ready(all, env) && Settled(one, all, n)
    ensures Ready(Repetition(env)(all), env) && Settled(one, Repetition(env)(all), n + 1)
  {
    LaterRepetition(all, env);
  }

  lemma SettledFrom(one: Runner, env: Environment, k: nat)
    requires Ready(one, env) && Settled(one, one, 1)
    ensures Settled(one, Iterate(Repetition(env), one, k), k + 1)
  {
    var related := (all: Runner, n: int) => Ready(all, env) && Settled(one, all, n);
    forall all, n | related(all, n) ensures related(Repetition(env)(all), n + 1) {
      SettledStep(one, all, env, n);
    }
    IterateRelated(Repetition(env), one, (n: int) => n + 1, 1, related, k);
    IterateCounts(1, k);
  }

  // ----- The warm-up leaves no trace

  function Without(cfg: Config): Config { cfg.(minWarmupTime := 0.0) }

  ghost function Shifted(env: Environment, w: nat): Environment {
    (p: nat, n: int) => env(p + w, n)
  }

  lemma ShiftedIsAdmissible(cfg: Config, env: Environment, w: nat)
    requires Admissible(cfg, env)
    ensures Admissible(Without(cfg), Shifted(env, w))
  {
  }

  lemma FirstOfSearch(cfg: Config, minTime: real, env: Environment, p: nat, n: int, i: IterationResults)
    requires Admissible(cfg, env) && n >= 1 && i == Measured(cfg, Outcome(env(p, n)))
    ensures ShouldReport(cfg, minTime, i) ==> Search(cfg, minTime, env, p, n) == [Pass(n, i)]
    ensures !ShouldReport(cfg, minTime, i) ==>
      && minTime > 0.0 && 0 <= i.iters && n < Predicted(minTime, i) && n < K_MAX_ITERATIONS
      && Search(cfg, minTime, env, p, n) == [Pass(n, i)] + Search(cfg, minTime, env, p + 1, Predicted(minTime, i))
  {
    PassReportsEnough(cfg, n, env(p, n));
    if !ShouldReport(cfg, minTime, i) {
      RejectedGrows(cfg, minTime, i);
    }
  }

  lemma SameForAll(cfg: Config, minTime: real, events: seq<Event>, i: IterationResults)
    requires cfg.threads >= 1 && i == Measured(cfg, Outcome(events))
    ensures i == Measured(Without(cfg), Outcome(events))
    ensures ShouldReport(Without(cfg), minTime, i) <==> ShouldReport(cfg, minTime, i)
  {
  }

  lemma {:induction false} SearchShifts(
      cfg: Config, minTime: real, env: Environment, env': Environment, w: nat, p: nat, n: int)
    requires Admissible(cfg, env) && Admissible(Without(cfg), env') && n >= 1
    requires forall q: nat, m: int :: env'(q, m) == env(q + w, m)
    ensures Search(cfg, minTime, env, p + w, n) == Search(Without(cfg), minTime, env', p, n)
    decreases if n < K_MAX_ITERATIONS then K_MAX_ITERATIONS - n else 0
  {
    var i := Measured(cfg, Outcome(env(p + w, n)));
    SameForAll(cfg, minTime, env'(p, n), i);
    FirstOfSearch(cfg, minTime, env, p + w, n, i);
    FirstOfSearch(Without(cfg), minTime, env', p, n, i);
    if !ShouldReport(cfg, minTime, i) {
      SearchShifts(cfg, minTime, env, env', w, p + 1, Predicted(minTime, i));
      assert p + 1 + w == p + w + 1;
    }
  }

  // Two runners that differ only in an earlier warm-up of w passes.
  predicate SameButWarmUp(r: Runner, plain: Runner, w: nat) {
    && plain.cfg == Without(r.cfg) && r.warmupDone && plain.warmupDone
    && r.iters == plain.iters && r.repetitionsDone == plain.repetitionsDone && r.reports == plain.reports
    && |r.passes| == |plain.passes| + w && r.passes[w..] == plain.passes
  }

  lemma MeasurementShifts(r: Runner, plain: Runner, env: Environment, w: nat)
    requires Ready(r, env) && SameButWarmUp(r, plain, w) && Ready(plain, Shifted(env, w))
    ensures Measurement(r, env) == Measurement(plain, Shifted(env, w))
  {
    var env' := Shifted(env, w);
    SearchShifts(r.cfg, r.cfg.minTime, env, env', w, |plain.passes|, r.iters);
    assert env'(|plain.passes|, r.iters) == env(|r.passes|, r.iters);
  }

  lemma WarmRepetitionShifts(r: Runner, plain: Runner, env: Environment, w: nat)
    requires Ready(r, env) && SameButWarmUp(r, plain, w) && Ready(plain, Shifted(env, w))
    ensures SameButWarmUp(AfterRepetition(r, env), AfterRepetition(plain, Shifted(env, w)), w)
  {
    MeasurementShifts(r, plain, env, w);
    var m := Measurement(r, env);
    assert (r.passes + m)[w..] == r.passes[w..] + m;
  }

  // The warm-up belongs to the first repetition.
  lemma WarmUpComesFirst(r: Runner, env: Environment)
    requires Ready(r, env)
    ensures AfterRepetition(r, env) == AfterRepetition(AfterWarmUp(r, env), env)
  {
  }

  // After any number of repetitions a runner that warmed up has exactly the reports, the
  // iteration count and the measured passes of one that never did, in the same surroundings.
  lemma WarmUpLeavesNoTrace(cfg: Config, explicitIters: int, env: Environment, k: nat)
    requires Ready(Init(cfg, explicitIters), env) && k >= 1
    ensures var w := |AfterWarmUp(Init(cfg, explicitIters), env).passes|;
            Ready(Init(Without(cfg), explicitIters), Shifted(env, w)) &&
            SameButWarmUp(AfterRepetitions(Init(cfg, explicitIters), env, k),
                          AfterRepetitions(Init(Without(cfg), explicitIters), Shifted(env, w), k), w)
  {
    var r, plain := Init(cfg, explicitIters), Init(Without(cfg), explicitIters);
    var warm := AfterWarmUp(r, env);
    var w := |warm.passes|;
    var f, g := Repetition(env), Repetition(Shifted(env, w));
    ShiftedIsAdmissible(cfg, env, w);
    RepetitionsShift(warm, plain, env, w, k);
    assert f(r) == f(warm) by {
      WarmUpComesFirst(r, env);
    }
    IterateShifts(f, r, k - 1);
    IterateShifts(f, warm, k - 1);
  }

  lemma RepetitionsShift(r: Runner, plain: Runner, env: Environment, w: nat, k: nat)
    requires Ready(r, env) && SameButWarmUp(r, plain, w) && Ready(plain, Shifted(env, w))
    ensures SameButWarmUp(AfterRepetitions(r, env, k), AfterRepetitions(plain, Shifted(env, w), k), w)
  {
    var f, g := Repetition(env), Repetition(Shifted(env, w));
    var related := (a: Runner, b: Runner) => Ready(a, env) && Ready(b, Shifted(env, w)) && SameButWarmUp(a, b, w);
    forall a, b | related(a, b) ensures related(f(a), g(b)) {
      WarmRepetitionShifts(a, b, env, w);
      RepetitionStaysReady(a, env);
      RepetitionStaysReady(b, Shifted(env, w));
    }
    IterateRelated(f, r, g, plain, related, k);
  }
}
