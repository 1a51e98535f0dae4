/** What ends the search for an iteration count, said of the threads' merged results themselves,
    and how long the next pass takes (src/benchmark_runner.cc). */
module SearchEnds {
  import opened Runners
  import opened ThreadManagers
  import opened Arithmetic
  import Loops

  // What ends a search: somebody skipped, or it is a dry run, or the threads
  // have run the most iterations there may be, or the clock that counts has reached the minimum
  // time, or without manual times the real time is five times that.
  predicate EndsSearch(cfg: Config, minTime: real, results: Result) {
    || results.skipped != Loops.NotSkipped
    || cfg.dryRun
    || results.iterations >= 1_000_000_000_000 * cfg.threads
    || (cfg.useManualTime && results.manualTime >= minTime)
    || (!cfg.useManualTime && cfg.useRealTime && results.realTime >= minTime)
    || (!cfg.useManualTime && !cfg.useRealTime && results.cpuTime >= minTime)
    || (!cfg.useManualTime && results.realTime >= 5.0 * minTime)
  }

  // A pass came back with the threads' merged results: iterations for each thread, and the
  // seconds of the clock that the benchmark is measured by.
  predicate CountsPerThread(cfg: Config, i: IterationResults) {
    && i.iters * cfg.threads <= i.results.iterations < (i.iters + 1) * cfg.threads
    && (cfg.useManualTime ==> i.seconds == i.results.manualTime)
    && (!cfg.useManualTime && cfg.useRealTime ==> i.seconds == i.results.realTime)
    && (!cfg.useManualTime && !cfg.useRealTime ==> i.seconds == i.results.cpuTime)
  }

  lemma MeasuredCountsPerThread(cfg: Config, results: Result)
    requires cfg.threads >= 1
    ensures CountsPerThread(cfg, Measured(cfg, results))
  {
    var q := results.iterations / cfg.threads;
    assert results.iterations == q * cfg.threads + results.iterations % cfg.threads;
    assert (q + 1) * cfg.threads == q * cfg.threads + cfg.threads;
  }

  lemma PerThread(total: int, threads: int, least: int)
    requires threads >= 1
    ensures total / threads >= least <==> total >= least * threads
  {
    var q := total / threads;
    if total >= least * threads {
      QuotientAtLeast(total, least, threads);
    }
    if q >= least {
      TimesThreads(least, q, threads);
      assert q * threads <= total;
    }
  }

  lemma TimesThreads(x: int, y: int, threads: int)
    requires x <= y && threads >= 1
    ensures x * threads <= y * threads
  {
  }

  // A pass ends the search if and only if its results do.
  lemma EndsOnResults(cfg: Config, minTime: real, results: Result)
    requires cfg.threads >= 1
    ensures ShouldReport(cfg, minTime, Measured(cfg, results)) <==> EndsSearch(cfg, minTime, results)
  {
    PerThread(results.iterations, cfg.threads, K_MAX_ITERATIONS);
  }

  // A search goes on until the first pass that ends it.
  predicate EndsAtFirst(cfg: Config, minTime: real, passes: seq<Pass>) {
    && |passes| >= 1
    && EndsSearch(cfg, minTime, passes[|passes| - 1].outcome.results)
    && (forall j :: 0 <= j < |passes| - 1 ==> !EndsSearch(cfg, minTime, passes[j].outcome.results))
    && (forall j :: 0 <= j < |passes| ==> CountsPerThread(cfg, passes[j].outcome))
  }

  lemma {:induction false} SearchEndsAtFirst(cfg: Config, minTime: real, env: Environment, p: nat, requested: int)
    requires Admissible(cfg, env) && requested >= 1
    ensures EndsAtFirst(cfg, minTime, Search(cfg, minTime, env, p, requested))
    decreases if requested < K_MAX_ITERATIONS then K_MAX_ITERATIONS - requested else 0
  {
    var results := Outcome(env(p, requested));
    var i := Measured(cfg, results);
    EndsOnResults(cfg, minTime, results);
    MeasuredCountsPerThread(cfg, results);
    PassReportsEnough(cfg, requested, env(p, requested));
    if !ShouldReport(cfg, minTime, i) {
      RejectedGrows(cfg, minTime, i);
      var next := Predicted(minTime, i);
      SearchEndsAtFirst(cfg, minTime, env, p + 1, next);
      var rest := Search(cfg, minTime, env, p + 1, next);
      assert Search(cfg, minTime, env, p, requested) == [Pass(requested, i)] + rest;
    }
  }

  // ----- The next pass

  // After less than a tenth of the minimum time, ten times as many iterations are asked for.
  lemma TenfoldWhenShort(minTime: real, i: IterationResults)
    requires minTime > 0.0 && 10.0 * i.seconds <= minTime && i.iters >= 1
    ensures Predicted(minTime, i) == if 10 * i.iters < K_MAX_ITERATIONS then 10 * i.iters else K_MAX_ITERATIONS
  {
    QuotientVersus(i.seconds, minTime, 0.1);
  }

  // After more than that, enough are asked for: a next pass that is no faster and runs what it is
  // asked to ends the search.
  lemma EnoughAtConstantSpeed(cfg: Config, minTime: real, i: IterationResults, next: IterationResults)
    requires !ShouldReport(cfg, minTime, i) && i.iters >= 1
    requires 10.0 * i.seconds > minTime > 0.0 && i.seconds >= 0.000000001
    requires next.iters >= Predicted(minTime, i)
    requires Product(next.seconds, i.iters as real) >= Product(i.seconds, next.iters as real)
    ensures ShouldReport(cfg, minTime, next)
  {
    if next.iters < K_MAX_ITERATIONS {
      EnoughAsked(minTime, i);
      NoFaster(minTime, i.seconds, i.iters as real, Predicted(minTime, i) as real, next.seconds, next.iters as real);
    }
  }

  // n iterations take the minimum time at a speed of k in d seconds; so do more of them, no faster.
  lemma NoFaster(minTime: real, d: real, k: real, n: real, d': real, n': real)
    requires Product(n, d) >= Product(minTime, k) && d > 0.0 && k > 0.0
    requires n <= n' && Product(d', k) >= Product(d, n')
    ensures d' >= minTime
  {
    ProductsInOrder(n, n', d);
    ProductsInOrder(minTime, d', k);
  }

  lemma ProductsInOrder(x: real, y: real, d: real)
    requires d > 0.0
    ensures x <= y <==> Product(x, d) <= Product(y, d)
    ensures Product(x, d) == Product(d, x)
  {
    if x < y {
      ProductPositive(y - x, d);
    } else if y < x {
      ProductPositive(x - y, d);
    }
  }

  // The time that the iterations asked for take at the speed of the last pass.
  lemma EnoughAsked(minTime: real, i: IterationResults)
    requires 10.0 * i.seconds > minTime > i.seconds >= 0.000000001 && i.iters >= 1
    ensures Predicted(minTime, i) == K_MAX_ITERATIONS ||
      Product(Predicted(minTime, i) as real, i.seconds) >= Product(minTime, i.iters as real)
  {
    var q := minTime / i.seconds;
    MultiplierWhenLong(minTime, i.seconds);
    FortyPercentMore(minTime, i, q);
    EnoughOf(q, minTime, i.iters as real, i.seconds, LlRound(Wanted(minTime, i)) as real);
  }

  lemma MultiplierWhenLong(minTime: real, d: real)
    requires 10.0 * d > minTime > d >= 0.000000001
    ensures minTime / d > 1.0 && Product(minTime / d, d) == minTime
    ensures Multiplier(minTime, d) == 1.4 * (minTime / d)
  {
    QuotientVersus(d, minTime, 0.1);
    QuotientVersus(minTime, d, 1.0);
    FractionOf(minTime, d);
  }

  lemma EnoughOf(q: real, minTime: real, k: real, d: real, n: real)
    requires Product(q, d) == minTime && d > 0.0 && n >= Product(q, k)
    ensures Product(n, d) >= Product(minTime, k)
  {
    ProductsInOrder(Product(q, k), n, d);
    SpeedTimesCount(q, k, d);
  }

  // Rounding 1.4 q n to the nearest integer, but at least n + 1, still gives q n.
  lemma FortyPercentMore(minTime: real, i: IterationResults, q: real)
    requires minTime > 0.0 && Multiplier(minTime, i.seconds) == 1.4 * q && q > 1.0 && i.iters >= 1
    ensures Wanted(minTime, i) >= 0.0 && LlRound(Wanted(minTime, i)) as real >= Product(q, i.iters as real)
  {
    var x := Product(q, i.iters as real);
    ProductsInOrder(1.0, q, i.iters as real);
    ThreeFactors(q, i.iters as real);
    StillEnough(x, i.iters);
  }

  lemma ThreeFactors(q: real, k: real)
    ensures 1.4 * q * k == 1.4 * Product(q, k)
  {
  }

  lemma StillEnough(x: real, n: int)
    requires x >= n as real >= 1.0
    ensures LlRound(Max(1.4 * x, n as real + 1.0)) as real >= x
  {
    RoundedUp(Max(1.4 * x, n as real + 1.0), n);
  }

  lemma RoundedUp(wanted: real, n: int)
    requires wanted >= n as real + 1.0 && n >= 0
    ensures LlRound(wanted) as real > wanted - 0.5 && LlRound(wanted) >= n + 1
  {
  }

  lemma SpeedTimesCount(q: real, k: real, d: real)
    ensures Product(Product(q, k), d) == Product(Product(q, d), k)
  {
  }

  lemma FractionOf(x: real, d: real)
    requires d > 0.0
    ensures x * 1.4 / d == 1.4 * (x / d)
  {
    QuotientVersus(x * 1.4, d, 1.4 * (x / d));
  }
}
