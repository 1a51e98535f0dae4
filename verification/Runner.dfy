/** The adaptive iteration search of `BenchmarkRunner` (src/benchmark_runner.cc) over exact
    reals. What the threads of a run do to the shared record is an arbitrary well-behaved
    event sequence, chosen by an environment. */
module Runners {
  import opened ThreadManagers
  import Loops
  import RealSums
  import opened Arithmetic

  const K_MAX_ITERATIONS: int := 1_000_000_000_000

  // The least minimum time for which every rejected pass grows by a third: 55/56 ns.
  const THIRD_GROWTH_TIME: real := 0.000000055 / 56.0

  datatype Config = Config(
    threads: int, minTime: real, minWarmupTime: real, repeats: int,
    hasExplicitIterationCount: bool, dryRun: bool, useManualTime: bool, useRealTime: bool)

  datatype IterationResults = IterationResults(results: Result, iters: int, seconds: real)

  // One call of DoNIterations: the requested iteration count and what came back.
  datatype Pass = Pass(requested: int, outcome: IterationResults)

  // The outcome of the p-th call of DoNIterations when asked for n iterations.
  type Environment = (nat, int) -> seq<Event>

  ghost predicate Admissible(cfg: Config, env: Environment) {
    cfg.threads >= 1 && forall p: nat, n: int :: n >= 1 ==> WellBehaved(cfg.threads, n, env(p, n))
  }

  // BenchmarkRunner::DoNIterations, given the final shared record.
  function Measured(cfg: Config, results: Result): IterationResults
    requires cfg.threads >= 1
  {
    IterationResults(
      results,
      results.iterations / cfg.threads,
      if cfg.useManualTime then results.manualTime else if cfg.useRealTime then results.realTime else results.cpuTime)
  }

  // std::llround on a non-negative argument.
  function LlRound(x: real): int
    requires x >= 0.0
  {
    (x + 0.5).Floor
  }

  function Multiplier(minTime: real, seconds: real): real
    requires minTime > 0.0
  {
    if seconds / minTime > 0.1 then minTime * 1.4 / Max(seconds, 0.000000001) else 10.0
  }

  // The real number that gets rounded to the next request.
  function Wanted(minTime: real, i: IterationResults): real
    requires minTime > 0.0
  {
    Max(Multiplier(minTime, i.seconds) * i.iters as real, i.iters as real + 1.0)
  }

  // BenchmarkRunner::PredictNumItersNeeded
  function Predicted(minTime: real, i: IterationResults): int
    requires minTime > 0.0 && i.iters >= 0
  {
    var wanted := LlRound(Wanted(minTime, i));
    if wanted < K_MAX_ITERATIONS then wanted else K_MAX_ITERATIONS
  }

  // BenchmarkRunner::ShouldReportIterationResults
  predicate ShouldReport(cfg: Config, minTime: real, i: IterationResults) {
    || i.results.skipped != Loops.NotSkipped
    || cfg.dryRun
    || i.iters >= K_MAX_ITERATIONS
    || i.seconds >= minTime
    || (i.results.realTime >= 5.0 * minTime && !cfg.useManualTime)
  }

  // ----- One pass

  lemma {:induction false} SumOfAtLeast(cs: seq<Contribution>, least: int)
    requires forall i :: 0 <= i < |cs| ==> cs[i].iterations >= least
    ensures RealSums.Sum(IterationsOf(), cs) >= (least * |cs|) as real
  {
    if cs != [] {
      SumOfAtLeast(cs[1..], least);
      assert least * |cs| == least + least * |cs[1..]|;
    }
  }

  lemma {:induction false} SumsNonNegative(cs: seq<Contribution>)
    requires forall i :: 0 <= i < |cs| ==> NonNegative(cs[i])
    ensures RealSums.Sum(RealTimeOf(), cs) >= 0.0
    ensures RealSums.Sum(CpuTimeOf(), cs) >= 0.0
    ensures RealSums.Sum(ManualTimeOf(), cs) >= 0.0
  {
    if cs != [] {
      SumsNonNegative(cs[1..]);
    }
  }

  lemma QuotientAtLeast(total: int, least: int, threads: int)
    requires threads >= 1 && total >= least * threads
    ensures total / threads >= least
  {
    var q := total / threads;
    assert q * threads > total - threads;
    assert (q - least + 1) * threads == q * threads - least * threads + threads;
    PositiveFactor(q - least + 1, threads);
  }

  lemma PositiveFactor(a: int, b: int)
    requires b >= 1 && a * b > 0
    ensures a > 0
  {
  }

  // A pass in which nobody skipped reports, per thread, at least the requested iterations;
  // its measured time is not negative.
  lemma PassReportsEnough(cfg: Config, requested: int, events: seq<Event>)
    requires cfg.threads >= 1 && requested >= 1 && WellBehaved(cfg.threads, requested, events)
    ensures var i := Measured(cfg, Outcome(events));
            && i.seconds >= 0.0 && i.iters >= 0
            && (i.results.skipped == Loops.NotSkipped ==> i.iters >= requested)
  {
    Conservation(events, "");
    FirstSkipWins(events);
    var cs := Contributions(events);
    var least := if AnySkip(events) then 0 else requested;
    SumsNonNegative(cs);
    SumOfAtLeast(cs, least);
    QuotientAtLeast(Outcome(events).iterations, least, cfg.threads);
  }

  lemma RoundBetween(x: real, lo: int, hi: int)
    requires 0.0 <= x && lo as real <= x <= hi as real
    ensures lo <= LlRound(x) <= hi
    ensures LlRound(x) as real > x - 0.5
  {
  }

  lemma WantedBounds(minTime: real, i: IterationResults)
    requires 0.0 <= i.seconds < minTime && i.iters >= 1
    ensures i.iters as real + 1.0 <= Wanted(minTime, i) <= 14.0 * i.iters as real
    ensures minTime >= THIRD_GROWTH_TIME ==> Wanted(minTime, i) >= 1.375 * i.iters as real
  {
    MultiplierBounds(minTime, i.seconds);
    ScaledBounds(Multiplier(minTime, i.seconds), i.iters as real);
  }

  // A rejected pass leads to a strictly larger request within the cap, at most 14 times what
  // was just run.
  lemma RejectedGrows(cfg: Config, minTime: real, i: IterationResults)
    requires !ShouldReport(cfg, minTime, i) && i.seconds >= 0.0 && i.iters >= 1
    ensures minTime > 0.0
    ensures i.iters < Predicted(minTime, i) <= K_MAX_ITERATIONS
    ensures Predicted(minTime, i) <= 14 * i.iters
  {
    WantedBounds(minTime, i);
    RoundBetween(Wanted(minTime, i), i.iters + 1, 14 * i.iters);
  }

  lemma MultiplierBounds(minTime: real, seconds: real)
    requires 0.0 <= seconds < minTime
    ensures 0.0 < Multiplier(minTime, seconds) <= 14.0
    ensures minTime >= THIRD_GROWTH_TIME ==> Multiplier(minTime, seconds) >= 1.375
  {
    var d := Max(seconds, 0.000000001);
    if seconds / minTime > 0.1 {
      TenTimes(seconds, minTime);
      QuotientBounds(minTime * 1.4, d);
    }
  }

  lemma TenTimes(seconds: real, minTime: real)
    requires minTime > 0.0 && seconds / minTime > 0.1
    ensures 10.0 * seconds > minTime
  {
    var q := seconds / minTime;
    assert q * minTime == seconds;
    assert (q - 0.1) * minTime > 0.0;
  }

  lemma QuotientBounds(x: real, d: real)
    requires d > 0.0 && x > 0.0
    ensures 0.0 < x / d
    ensures x <= 14.0 * d ==> x / d <= 14.0
    ensures x >= 1.375 * d <==> x / d >= 1.375
  {
    QuotientVersus(x, d, 0.0);
    QuotientVersus(x, d, 14.0);
    QuotientVersus(x, d, 1.375);
  }

  lemma ScaledBounds(m: real, r: real)
    requires 0.0 < m <= 14.0 && r >= 1.0
    ensures 0.0 <= m * r && r + 1.0 <= Max(m * r, r + 1.0) <= 14.0 * r
    ensures m >= 1.375 ==> Max(m * r, r + 1.0) >= 1.375 * r
  {
    ProductNonNegative(m, r);
    ProductNonNegative(14.0 - m, r);
    assert (14.0 - m) * r == 14.0 * r - m * r;
    if m >= 1.375 {
      ProductNonNegative(m - 1.375, r);
      assert (m - 1.375) * r == m * r - 1.375 * r;
    }
  }

  lemma ProductNonNegative(a: real, b: real)
    requires a >= 0.0 && b >= 0.0
    ensures a * b >= 0.0
  {
  }

  predicate GrewByAThird(minTime: real, i: IterationResults)
    requires minTime > 0.0 && i.iters >= 0
  {
    Predicted(minTime, i) == K_MAX_ITERATIONS || 3 * Predicted(minTime, i) >= 4 * i.iters
  }

  // With a minimum time of at least 55/56 ns the request grows by a third or reaches the cap.
  lemma GrowsByAThird(cfg: Config, minTime: real, i: IterationResults)
    requires !ShouldReport(cfg, minTime, i) && i.seconds >= 0.0 && i.iters >= 1
    requires minTime >= THIRD_GROWTH_TIME
    ensures GrewByAThird(minTime, i)
  {
    WantedBounds(minTime, i);
    RoundBetween(Wanted(minTime, i), i.iters + 1, 14 * i.iters);
    ThirdAfterRounding(i.iters, LlRound(Wanted(minTime, i)));
  }

  // Rounding 1.375 n to the nearest integer, but at least n + 1, still gives 4n/3.
  lemma ThirdAfterRounding(n: int, rounded: int)
    requires n >= 1 && rounded >= n + 1 && rounded as real > 1.375 * n as real - 0.5
    ensures 3 * rounded >= 4 * n
  {
    assert 8.0 * rounded as real > 11.0 * n as real - 4.0;
    assert 8 * rounded > 11 * n - 4;
    if n <= 8 {
      assert n == 1 || n == 2 || n == 3 || n == 4 || n == 5 || n == 6 || n == 7 || n == 8;
    }
  }

  // What a pass may come back with when asked for some number of iterations.
  ghost predicate IsOutcome(cfg: Config, requested: int, i: IterationResults) {
    cfg.threads >= 1 &&
    exists events :: WellBehaved(cfg.threads, requested, events) && i == Measured(cfg, Outcome(events))
  }

  ghost predicate AlwaysGrowsByAThird(cfg: Config, minTime: real)
    requires minTime > 0.0
  {
    forall requested, i :: requested >= 1 && IsOutcome(cfg, requested, i) && !ShouldReport(cfg, minTime, i) ==>
      i.iters >= 1 && GrewByAThird(minTime, i)
  }

  // That is the exact condition, for every number of threads and choice of clock: below it, a
  // first pass in which every thread runs one batch of four iterations, in half the minimum time
  // altogether, is rejected and followed by a request for five.
  lemma ThirdGrowthBoundary(cfg: Config, minTime: real)
    requires minTime > 0.0 && !cfg.dryRun && cfg.threads >= 1
    ensures AlwaysGrowsByAThird(cfg, minTime) <==> minTime >= THIRD_GROWTH_TIME
  {
    if minTime >= THIRD_GROWTH_TIME {
      forall requested, i | requested >= 1 && IsOutcome(cfg, requested, i) && !ShouldReport(cfg, minTime, i)
        ensures i.iters >= 1 && GrewByAThird(minTime, i)
      {
        RejectedGrewByAThird(cfg, minTime, requested, i);
      }
    } else {
      var i := FourInHalfTheTime(cfg, minTime);
      assert !GrewByAThird(minTime, i);
    }
  }

  lemma RejectedGrewByAThird(cfg: Config, minTime: real, requested: int, i: IterationResults)
    requires minTime >= THIRD_GROWTH_TIME && requested >= 1
    requires IsOutcome(cfg, requested, i) && !ShouldReport(cfg, minTime, i)
    ensures i.iters >= 1 && GrewByAThird(minTime, i)
  {
    var events :| WellBehaved(cfg.threads, requested, events) && i == Measured(cfg, Outcome(events));
    PassReportsEnough(cfg, requested, events);
    GrowsByAThird(cfg, minTime, i);
  }

  // The events of n threads that all leave the same.
  function Alike(c: Contribution, n: nat): seq<Event> {
    if n == 0 then [] else Alike(c, n - 1) + [Finish(c)]
  }

  lemma {:induction false} AlikeAddUp(c: Contribution, n: nat)
    ensures |Contributions(Alike(c, n))| == n && forall k :: 0 <= k < n ==> Contributions(Alike(c, n))[k] == c
    ensures forall k :: 0 <= k < |Alike(c, n)| ==> Alike(c, n)[k] == Finish(c)
    ensures var res := Outcome(Alike(c, n));
      && res.skipped == Loops.NotSkipped && res.iterations == n * c.iterations
      && res.realTime == Multiple(n, c.realTime) && res.cpuTime == Multiple(n, c.cpuTime)
      && res.manualTime == Multiple(n, c.manualTime)
  {
    if n > 0 {
      AlikeAddUp(c, n - 1);
      ContributionsSnoc(Alike(c, n - 1), Finish(c));
      assert Alike(c, n)[..|Alike(c, n)| - 1] == Alike(c, n - 1);
      assert n * c.iterations == (n - 1) * c.iterations + c.iterations;
    }
  }

  lemma FourInHalfTheTime(cfg: Config, minTime: real) returns (i: IterationResults)
    requires 0.0 < minTime < THIRD_GROWTH_TIME && !cfg.dryRun && cfg.threads >= 1
    ensures IsOutcome(cfg, 1, i) && !ShouldReport(cfg, minTime, i) && i.iters == 4 && Predicted(minTime, i) == 5
  {
    var share := minTime / 2.0 / cfg.threads as real;
    var c := Contribution(4, share, share, share, 0, map[]);
    var events := Alike(c, cfg.threads);
    AlikeAddUp(c, cfg.threads);
    SharesAddUp(minTime / 2.0, cfg.threads);
    assert WellBehaved(cfg.threads, 1, events);
    i := Measured(cfg, Outcome(events));
    FourEach(cfg.threads);
    assert i.seconds == minTime / 2.0 && i.iters == 4;
    FourThenFive(minTime, i);
  }

  lemma SharesAddUp(total: real, n: nat)
    requires n >= 1 && total > 0.0
    ensures total / n as real >= 0.0 && Multiple(n, total / n as real) == total
  {
    MultipleIsProduct(n, total / n as real);
    QuotientVersus(total, n as real, 0.0);
  }

  lemma FourEach(n: nat)
    requires n >= 1
    ensures (n * 4) / n == 4
  {
  }

  lemma FourThenFive(minTime: real, i: IterationResults)
    requires 0.0 < minTime < THIRD_GROWTH_TIME && i.iters == 4 && i.seconds == minTime / 2.0
    ensures Predicted(minTime, i) == 5
  {
    assert i.seconds / minTime == 0.5;
    QuotientBounds(minTime * 1.4, 0.000000001);
    var m := Multiplier(minTime, i.seconds);
    assert m < 1.375;
    assert LlRound(Max(m * 4.0, 5.0)) == 5;
  }

  // A rejected pass after which the count grows by a single iteration: one thread that has run
  // 100 iterations in half of the minimum time of 0.1 ns.
  lemma SlowBelowANanosecond()
    ensures var cfg := Config(1, 0.0000000001, 0.0, 1, false, false, false, false);
            var events := [Finish(Contribution(100, 0.00000000005, 0.00000000005, 0.0, 0, map[]))];
            var i := Measured(cfg, Outcome(events));
            WellBehaved(1, 100, events) && !ShouldReport(cfg, cfg.minTime, i) && i.iters == 100
            && Predicted(cfg.minTime, i) == 101
  {
    var c := Contribution(100, 0.00000000005, 0.00000000005, 0.0, 0, map[]);
    AlikeAddUp(c, 1);
    assert Alike(c, 0) == [] && Alike(c, 1) == [Finish(c)];
    assert Multiple(1, c.cpuTime) == c.cpuTime && Multiple(1, c.realTime) == c.realTime;
    var m := Multiplier(0.0000000001, 0.00000000005);
    assert m == 0.14;
  }

  // ----- The search loop

  // The passes made by the loop of RunWarmUp or DoOneRepetition, from pass number p on.
  ghost function Search(cfg: Config, minTime: real, env: Environment, p: nat, requested: int): (passes: seq<Pass>)
    requires Admissible(cfg, env) && requested >= 1
    ensures |passes| >= 1
    decreases if requested < K_MAX_ITERATIONS then K_MAX_ITERATIONS - requested else 0
  {
    var i := Measured(cfg, Outcome(env(p, requested)));
    PassReportsEnough(cfg, requested, env(p, requested));
    if ShouldReport(cfg, minTime, i) then [Pass(requested, i)]
    else
      RejectedGrows(cfg, minTime, i);
      [Pass(requested, i)] + Search(cfg, minTime, env, p + 1, Predicted(minTime, i))
  }

  // The first pass is rejected and the second asks for the predicted count.
  predicate Follows(cfg: Config, minTime: real, first: Pass, second: Pass) {
    && !ShouldReport(cfg, minTime, first.outcome) && minTime > 0.0 && first.outcome.iters >= 0
    && second.requested == Predicted(minTime, first.outcome)
  }

  // What a sequence of passes looks like when it follows the rules of the loop.
  predicate Chain(cfg: Config, minTime: real, passes: seq<Pass>) {
    && |passes| >= 1
    && (forall j :: 0 <= j < |passes| ==> Sensible(passes[j]))
    && (forall j :: 0 < j < |passes| ==> Follows(cfg, minTime, passes[j - 1], passes[j]))
    && ShouldReport(cfg, minTime, passes[|passes| - 1].outcome)
  }

  // A pass whose outcome is sensible.
  predicate Sensible(pass: Pass) {
    && pass.outcome.seconds >= 0.0 && pass.requested >= 1 && pass.outcome.iters >= 0
    && (pass.outcome.results.skipped == Loops.NotSkipped ==> pass.outcome.iters >= pass.requested)
  }

  lemma ChainCons(cfg: Config, minTime: real, pass: Pass, rest: seq<Pass>)
    requires Chain(cfg, minTime, rest) && Sensible(pass) && Follows(cfg, minTime, pass, rest[0])
    ensures Chain(cfg, minTime, [pass] + rest)
  {
    var all := [pass] + rest;
    assert forall j :: 1 <= j < |all| ==> all[j] == rest[j - 1];
    forall j | 0 < j < |all| ensures Follows(cfg, minTime, all[j - 1], all[j]) {
      if j > 1 {
        assert Follows(cfg, minTime, rest[j - 2], rest[j - 1]);
      }
    }
  }

  lemma {:induction false} SearchIsChain(cfg: Config, minTime: real, env: Environment, p: nat, requested: int)
    requires Admissible(cfg, env) && requested >= 1
    ensures Chain(cfg, minTime, Search(cfg, minTime, env, p, requested))
    ensures Search(cfg, minTime, env, p, requested)[0].requested == requested
    decreases if requested < K_MAX_ITERATIONS then K_MAX_ITERATIONS - requested else 0
  {
    var i := Measured(cfg, Outcome(env(p, requested)));
    PassReportsEnough(cfg, requested, env(p, requested));
    if !ShouldReport(cfg, minTime, i) {
      RejectedGrows(cfg, minTime, i);
      SearchIsChain(cfg, minTime, env, p + 1, Predicted(minTime, i));
      var rest := Search(cfg, minTime, env, p + 1, Predicted(minTime, i));
      assert Search(cfg, minTime, env, p, requested) == [Pass(requested, i)] + rest;
      ChainCons(cfg, minTime, Pass(requested, i), rest);
    }
  }

  // Every request is larger than everything run before it, at most 14 times what was run
  // last, and never above the cap.
  lemma SearchGrows(cfg: Config, minTime: real, passes: seq<Pass>, j: nat)
    requires Chain(cfg, minTime, passes) && j + 1 < |passes|
    ensures passes[j].requested <= passes[j].outcome.iters < passes[j + 1].requested <= K_MAX_ITERATIONS
    ensures passes[j + 1].requested <= 14 * passes[j].outcome.iters
  {
    assert Follows(cfg, minTime, passes[j + 1 - 1], passes[j + 1]);
    RejectedGrows(cfg, minTime, passes[j].outcome);
  }

  // The j-th request of a search is at least (4/3)^j, as long as the search goes on from it.
  lemma {:induction false} RequestsArePowers(cfg: Config, minTime: real, passes: seq<Pass>, j: nat)
    requires Chain(cfg, minTime, passes) && minTime >= THIRD_GROWTH_TIME && j + 1 < |passes|
    ensures Pow(3, j) * passes[j].requested >= Pow(4, j)
    ensures passes[j].requested < K_MAX_ITERATIONS
  {
    SearchGrows(cfg, minTime, passes, j);
    if j > 0 {
      RequestsArePowers(cfg, minTime, passes, j - 1);
      SearchGrows(cfg, minTime, passes, j - 1);
      GrowsByAThird(cfg, minTime, passes[j - 1].outcome);
      PowPositive(3, j - 1);
      PowerStep(Pow(3, j - 1), Pow(4, j - 1), passes[j - 1].requested, passes[j].requested);
    }
  }

  lemma PowerStep(three: int, four: int, before: int, now: int)
    requires three >= 1 && three * before >= four && 3 * now >= 4 * before
    ensures (3 * three) * now >= 4 * four
  {
    assert three * (3 * now) >= three * (4 * before);
    assert three * (4 * before) == 4 * (three * before);
  }

  lemma {:induction false} PowAdd(b: int, d: nat, e: nat)
    ensures Pow(b, d + e) == Pow(b, d) * Pow(b, e)
  {
    if d > 0 {
      PowAdd(b, d - 1, e);
      assert b * (Pow(b, d - 1) * Pow(b, e)) == (b * Pow(b, d - 1)) * Pow(b, e);
    }
  }

  lemma FourThirdsTo97()
    ensures Pow(4, 97) > Pow(3, 97) * K_MAX_ITERATIONS
  {
    PowAdd(4, 12, 12);
    PowAdd(4, 24, 24);
    PowAdd(4, 48, 48);
    PowAdd(4, 96, 1);
    PowAdd(3, 12, 12);
    PowAdd(3, 24, 24);
    PowAdd(3, 48, 48);
    PowAdd(3, 96, 1);
  }

  // With a minimum time of at least 55/56 ns a search takes at most 98 passes.
  lemma SearchIsShort(cfg: Config, minTime: real, passes: seq<Pass>)
    requires Chain(cfg, minTime, passes) && minTime >= THIRD_GROWTH_TIME
    ensures |passes| <= 98
  {
    if |passes| > 98 {
      RequestsArePowers(cfg, minTime, passes, 97);
      FourThirdsTo97();
      PowPositive(3, 97);
      ProductsInOrder(Pow(3, 97), passes[97].requested, K_MAX_ITERATIONS);
      assert false;
    }
  }

  lemma ProductsInOrder(a: int, x: int, y: int)
    requires a >= 1 && x < y
    ensures a * x < a * y
  {
    assert a * (y - x) > 0;
  }
}
