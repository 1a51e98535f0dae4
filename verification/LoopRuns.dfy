/** What holds after every legal run of calls. */
module LoopRuns {
  import opened ThreadTimers
  import opened Loops

  // ----- Timer discipline and barrier calls

  predicate TimerInv(s: Loop) {
    && (s.timer.running ==> s.started && !s.finished && !IsSkipped(s))
    && s.timer.realUsed == WallTime(s.slices)
    && s.timer.cpuUsed == CpuTime(s.slices)
    && (!s.started ==> |s.arrivals| == 0 && !s.finished)
    && (s.started && !s.finished ==> |s.arrivals| == 1)
    && (s.finished && !IsSkipped(s) ==> |s.arrivals| == 2)
    && (s.finished ==> |s.arrivals| >= 2)
    && (forall k :: 0 <= k < |s.arrivals| ==> s.arrivals[k] == Arrival(true, k > 0, false))
  }

  lemma SliceAdds(s: Loop, now: Clock)
    requires s.timer.realUsed == WallTime(s.slices) && s.timer.cpuUsed == CpuTime(s.slices)
    ensures StopNow(s, now).timer.realUsed == WallTime(StopNow(s, now).slices)
    ensures StopNow(s, now).timer.cpuUsed == CpuTime(StopNow(s, now).slices)
  {
    var slices := StopNow(s, now).slices;
    assert slices[..|slices| - 1] == s.slices;
  }

  lemma SkipKeepsTimerInv(s: Loop, c: Call, now: Clock)
    requires c.Skip? && TimerInv(s) && Allowed(s, c)
    ensures TimerInv(AfterCall(s, c, now))
  {
    SliceAdds(s.(skip := c.kind, total := 0), now);
  }

  lemma StartKeepsTimerInv(s: Loop, now: Clock)
    requires TimerInv(s) && !s.started
    ensures TimerInv(AfterStart(s, now))
  {
  }

  lemma FinishKeepsTimerInv(s: Loop, now: Clock)
    requires TimerInv(s) && MayFinish(s)
    ensures TimerInv(AfterFinish(s, now))
  {
    SliceAdds(s, now);
  }

  lemma KeepKeepsTimerInv(s: Loop, c: Call, now: Clock)
    requires c.Keep? && TimerInv(s) && Allowed(s, c)
    ensures TimerInv(AfterCall(s, c, now))
  {
    var s' := s.(style := Keeping);
    var r := AfterKeep(s', c.n, c.isBatch, now).0;
    SameTimer(s, s');
    if s'.total >= c.n {
      SameTimer(s', r);
    } else if s.started {
      KeepStartedKeepsTimerInv(s', c.n, c.isBatch, now);
    } else {
      var t := AfterStart(s', now);
      StartKeepsTimerInv(s', now);
      if !IsSkipped(t) && t.total >= c.n {
        SameTimer(t, r);
      } else {
        KeepStartedKeepsTimerInv(t, c.n, c.isBatch, now);
      }
    }
  }

  lemma SameTimer(a: Loop, b: Loop)
    requires a.timer == b.timer && a.slices == b.slices && a.arrivals == b.arrivals
    requires a.started == b.started && a.finished == b.finished && a.skip == b.skip
    ensures TimerInv(a) <==> TimerInv(b)
  {
  }

  lemma KeepStartedKeepsTimerInv(s: Loop, n: int, isBatch: bool, now: Clock)
    requires TimerInv(s) && s.started && ((isBatch && s.total != 0) || MayFinish(s))
    ensures TimerInv(KeepStarted(s, n, isBatch, now).0)
  {
    if isBatch && s.total != 0 {
      SameTimer(s, KeepStarted(s, n, isBatch, now).0);
    } else {
      FinishKeepsTimerInv(s, now);
    }
  }

  lemma CallKeepsTimerInv(s: Loop, c: Call, now: Clock)
    requires TimerInv(s) && Allowed(s, c)
    ensures TimerInv(AfterCall(s, c, now))
  {
    if c.Skip? {
      SkipKeepsTimerInv(s, c, now);
    } else if c.Keep? {
      KeepKeepsTimerInv(s, c, now);
    } else {
      OtherKeepsTimerInv(s, c, now);
    }
  }

  lemma OtherKeepsTimerInv(s: Loop, c: Call, now: Clock)
    requires TimerInv(s) && Allowed(s, c) && !c.Skip? && !c.Keep?
    ensures TimerInv(AfterCall(s, c, now))
  {
    match c
    case Begin => SameTimer(s, AfterCall(s, c, now));
    case End => StartKeepsTimerInv(s, now);
    case NotEqual =>
      if s.style.cached != 0 {
        SameTimer(s, AfterCall(s, c, now));
      } else {
        FinishKeepsTimerInv(s, now);
      }
    case Advance => SameTimer(s, AfterCall(s, c, now));
    case Pause => SliceAdds(s, now);
    case Resume =>
    case SetTime(_) =>
  }

  lemma {:induction false} RunKeepsTimerInv(s: Loop, run: seq<Event>)
    requires TimerInv(s) && Legal(s, run)
    ensures TimerInv(After(s, run))
    decreases |run|
  {
    if run != [] {
      CallKeepsTimerInv(s, run[0].call, run[0].now);
      RunKeepsTimerInv(AfterCall(s, run[0].call, run[0].now), run[1..]);
    }
  }

  // The facts about times and barrier calls, for every legal run from a fresh State:
  //  - whenever the barrier is called the timer is stopped: the first time before it was ever
  //    started, later after the loop has been marked finished;
  //  - the timer runs only between the first barrier and the second, never after a skip;
  //  - the accumulated times are the sums of the start-stop slices;
  //  - an unskipped thread that finishes has called the barrier exactly twice.
  lemma TimerDiscipline(max: int, run: seq<Event>)
    requires Legal(Fresh(max), run)
    ensures var s := After(Fresh(max), run);
            && (forall k :: 0 <= k < |s.arrivals| ==> s.arrivals[k] == Arrival(true, k > 0, false))
            && (s.timer.running ==> s.started && !s.finished && !IsSkipped(s) && |s.arrivals| == 1)
            && s.timer.realUsed == WallTime(s.slices) && s.timer.cpuUsed == CpuTime(s.slices)
            && s.timer.cpuUsed >= 0.0
            && (s.finished && !IsSkipped(s) ==> |s.arrivals| == 2)
            && (!s.started <==> s.arrivals == [])
  {
    RunKeepsTimerInv(Fresh(max), run);
    CpuTimeNonNegative(After(Fresh(max), run).slices);
  }

  lemma {:induction false} CpuTimeNonNegative(slices: seq<Slice>)
    ensures CpuTime(slices) >= 0.0
  {
    if slices != [] {
      CpuTimeNonNegative(slices[..|slices| - 1]);
    }
  }

  // ----- Iteration accounting

  predicate KeepInv(s: Loop) {
    && (s.started <==> s.style.Keeping?)
    && (!s.started ==> s.total == s.leftover == s.accepted == 0)
    && (s.started ==> s.accepted == s.max - s.total + s.leftover)
    && (s.leftover > 0 ==> s.total == 0)
    && (s.started ==> s.accepted == 0 || s.leftover < s.lastBatch)
    && (s.finished ==> s.total == 0)
  }

  predicate RangeInv(s: Loop)
    requires s.style.Ranging?
  {
    && s.leftover == 0
    && s.style.cached >= 0 && (s.style.inBody ==> s.started && !s.finished && s.style.cached > 0)
    && s.bodies + s.style.cached == s.max + (if s.style.inBody then 1 else 0)
    && (s.finished ==> s.style.cached == 0 && s.total == 0)
    && (s.started && !s.finished ==> s.total == s.max)
  }

  predicate CountInv(s: Loop) {
    && s.max >= 1 && 0 <= s.total <= s.max && s.leftover >= 0
    && (IsSkipped(s) ==> s.total == 0)
    && (!s.started ==> s.total == 0 && s.leftover == 0 && !s.finished)
    && (s.style.Undecided? ==> !s.started && s.bodies == 0)
    && (!IsSkipped(s) ==> if s.style.Ranging? then RangeInv(s) else KeepInv(s))
  }

  lemma CallKeepsCountInv(s: Loop, c: Call, now: Clock)
    requires CountInv(s) && Allowed(s, c)
    ensures CountInv(AfterCall(s, c, now))
  {
  }

  lemma {:induction false} RunKeepsCountInv(s: Loop, run: seq<Event>)
    requires CountInv(s) && Legal(s, run)
    ensures CountInv(After(s, run)) && After(s, run).max == s.max
    decreases |run|
  {
    if run != [] {
      CallKeepsCountInv(s, run[0].call, run[0].now);
      RunKeepsCountInv(AfterCall(s, run[0].call, run[0].now), run[1..]);
    }
  }

  // At every point of an unskipped KeepRunning or KeepRunningBatch loop, iterations() is the
  // sum of the granted batches; when the loop is over that sum is the requested count plus
  // an overshoot smaller than the last batch.
  lemma KeepRunningAccounting(max: int, run: seq<Event>)
    requires max >= 1 && Legal(Fresh(max), run)
    ensures var s := After(Fresh(max), run);
            !IsSkipped(s) && s.style.Keeping? ==>
              && Iterations(s) == s.accepted
              && (s.finished ==> max <= s.accepted < max + s.lastBatch)
              && (s.finished && s.lastBatch == 1 ==> s.accepted == max)
  {
    RunKeepsCountInv(Fresh(max), run);
  }

  // An unskipped ranged-for loop runs its body exactly as often as requested, and reports
  // that count only once it is over.
  lemma RangedForAccounting(max: int, run: seq<Event>)
    requires max >= 1 && Legal(Fresh(max), run)
    ensures var s := After(Fresh(max), run);
            !IsSkipped(s) && s.style.Ranging? ==>
              && s.bodies <= max
              && (s.finished ==> s.bodies == max && Iterations(s) == max)
              && (!s.finished ==> Iterations(s) == 0)
  {
    RunKeepsCountInv(Fresh(max), run);
  }

  // ----- RunInThread, after the benchmark function has returned

  const DID_NOT_RUN: string :=
    "The benchmark didn't run, nor was it explicitly skipped. Please call 'SkipWithXXX` in your benchmark as appropriate."

  // A thread that neither skipped nor ran all its iterations is turned into an error.
  function Checked(s: Loop, now: Clock): Loop {
    if IsSkipped(s) || Iterations(s) >= s.max then s
    else AfterCall(s, Skip(SkippedWithError, DID_NOT_RUN), now)
  }

  // The one way to break the contract that goes unnoticed: leaving a KeepRunning loop
  // during its last granted batch, with the timer running.
  predicate LeftInLastBatch(s: Loop) {
    s.style.Keeping? && !s.finished && s.total == 0 && s.timer.running
  }

  // Whatever a benchmark function did before returning, its thread is afterwards marked
  // skipped or reports at least the requested iterations; the timer can be read without
  // failing its check unless the loop was left in its last batch, and then it cannot.
  lemma ThreadReport(max: int, run: seq<Event>, now: Clock)
    requires max >= 1 && Legal(Fresh(max), run)
    ensures var s := After(Fresh(max), run);
            && (IsSkipped(Checked(s, now)) || Iterations(Checked(s, now)) >= max)
            && (!IsSkipped(s) && Iterations(s) < max ==> Checked(s, now).skip == SkippedWithError)
            && Iterations(Checked(s, now)) >= 0
            && (Checked(s, now).timer.running <==> LeftInLastBatch(s))
            && (s.finished ==> Checked(s, now) == s)
  {
    RunKeepsCountInv(Fresh(max), run);
    RunKeepsTimerInv(Fresh(max), run);
  }

  // A concrete run that leaves in the last batch: one iteration requested, one granted.
  lemma LeavingInLastBatch(now: Clock)
    ensures Legal(Fresh(1), [Event(Keep(1, false), now)])
    ensures LeftInLastBatch(After(Fresh(1), [Event(Keep(1, false), now)]))
  {
    var s, run := Fresh(1), [Event(Keep(1, false), now)];
    var s' := AfterCall(s, run[0].call, now);
    assert Legal(s', run[1..]) && After(s', run[1..]) == s';
  }

  // ----- Wall time under a clock that does not run backwards

  predicate ClockInv(s: Loop, first: real, now: real) {
    && first <= now
    && (s.timer.running ==> first <= s.timer.start.wall <= now)
    && 0.0 <= s.timer.realUsed <= (if s.timer.running then s.timer.start.wall else now) - first
  }

  predicate Monotone(run: seq<Event>, from: real) {
    run == [] || (from <= run[0].now.wall && Monotone(run[1..], run[0].now.wall))
  }

  function LastReading(run: seq<Event>, from: real): real {
    if run == [] then from else LastReading(run[1..], run[0].now.wall)
  }

  lemma {:induction false} RunKeepsClockInv(s: Loop, run: seq<Event>, first: real, now: real)
    requires ClockInv(s, first, now) && TimerInv(s) && Legal(s, run) && Monotone(run, now)
    ensures ClockInv(After(s, run), first, LastReading(run, now))
    decreases |run|
  {
    if run != [] {
      var s' := AfterCall(s, run[0].call, run[0].now);
      CallKeepsTimerInv(s, run[0].call, run[0].now);
      assert ClockInv(s', first, run[0].now.wall);
      RunKeepsClockInv(s', run[1..], first, run[0].now.wall);
    }
  }

  // A thread never accounts for more wall time than passed during its run.
  lemma WallTimeBounded(max: int, run: seq<Event>, first: real)
    requires Legal(Fresh(max), run) && Monotone(run, first)
    ensures 0.0 <= After(Fresh(max), run).timer.realUsed <= LastReading(run, first) - first
  {
    RunKeepsClockInv(Fresh(max), run, first, first);
    RunKeepsTimerInv(Fresh(max), run);
  }
}
