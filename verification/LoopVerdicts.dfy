/** What the loop calls answer: the verdicts of KeepRunning, KeepRunningBatch and of the end test
    of the ranged for, and what a thread has to show for them when it is done. */
module LoopVerdicts {
  import opened ThreadTimers
  import opened Loops
  import opened LoopRuns

  predicate AsksToGoOn(c: Call) { c.Keep? || c.NotEqual? }

  // The answer of such a call: go on, or the loop is over.
  predicate GoesOn(s: Loop, c: Call, now: Clock) {
    match c
    case Keep(n, isBatch) => AfterKeep(s.(style := Keeping), n, isBatch, now).1
    case NotEqual => s.style.Ranging? && s.style.cached != 0
    case _ => false
  }

  // The iterations that the caller runs after the answer.
  function Granted(s: Loop, c: Call, now: Clock): int {
    if !GoesOn(s, c, now) then 0 else if c.Keep? then c.n else 1
  }

  function AllGranted(s: Loop, run: seq<Event>): int
    requires Legal(s, run)
    decreases |run|
  {
    if run == [] then 0 else
      Granted(s, run[0].call, run[0].now) + AllGranted(AfterCall(s, run[0].call, run[0].now), run[1..])
  }

  // ----- The iterations granted and the loop's own counters

  predicate GrantInv(s: Loop) {
    && CountInv(s)
    && (s.finished ==> s.total == 0)
    && (!s.style.Keeping? ==> s.accepted == 0 && s.leftover == 0)
    && (if s.leftover > 0 then s.accepted == s.max + s.leftover else s.accepted <= s.max)
    && (if s.style.Ranging? then RangeGrantInv(s) else s.bodies == 0)
  }

  predicate RangeGrantInv(s: Loop)
    requires s.style.Ranging?
  {
    && s.style.cached >= 0 && (s.style.inBody ==> s.style.cached > 0)
    && (s.finished ==> s.style.cached == 0)
    && s.bodies + s.style.cached <= s.max + (if s.style.inBody then 1 else 0)
  }

  lemma CallKeepsGrantInv(s: Loop, c: Call, now: Clock)
    requires GrantInv(s) && Allowed(s, c)
    ensures var s' := AfterCall(s, c, now);
      GrantInv(s') && s'.accepted + s'.bodies == s.accepted + s.bodies + Granted(s, c, now)
  {
    CallKeepsCountInv(s, c, now);
  }

  lemma {:induction false} RunKeepsGrantInv(s: Loop, run: seq<Event>)
    requires GrantInv(s) && Legal(s, run)
    ensures var s' := After(s, run);
      GrantInv(s') && s'.max == s.max && s'.accepted + s'.bodies == s.accepted + s.bodies + AllGranted(s, run)
    decreases |run|
  {
    if run != [] {
      CallKeepsGrantInv(s, run[0].call, run[0].now);
      RunKeepsGrantInv(AfterCall(s, run[0].call, run[0].now), run[1..]);
    }
  }

  // The answer is no exactly when the call has finished the loop.
  lemma VerdictEndsLoop(max: int, run: seq<Event>, c: Call, now: Clock)
    requires max >= 1 && Legal(Fresh(max), run) && Allowed(After(Fresh(max), run), c) && AsksToGoOn(c)
    ensures var s := After(Fresh(max), run);
      GoesOn(s, c, now) <==> !AfterCall(s, c, now).finished
  {
    RunKeepsGrantInv(Fresh(max), run);
  }

  // After a skip nothing more is granted, but for the bodies of a ranged for that has begun before.
  lemma NothingGrantedAfterSkip(max: int, run: seq<Event>, rest: seq<Event>)
    requires max >= 1 && Legal(Fresh(max), run) && Legal(After(Fresh(max), run), rest)
    requires IsSkipped(After(Fresh(max), run)) && !After(Fresh(max), run).style.Ranging?
    ensures AllGranted(After(Fresh(max), run), rest) == 0
  {
    RunKeepsCountInv(Fresh(max), run);
    SkippedGrantsNothing(After(Fresh(max), run), rest);
  }

  lemma {:induction false} SkippedGrantsNothing(s: Loop, rest: seq<Event>)
    requires Legal(s, rest) && CountInv(s) && IsSkipped(s) && (s.style.Ranging? ==> s.style.cached == 0)
    ensures AllGranted(s, rest) == 0
    decreases |rest|
  {
    if rest != [] {
      CallKeepsCountInv(s, rest[0].call, rest[0].now);
      SkippedGrantsNothing(AfterCall(s, rest[0].call, rest[0].now), rest[1..]);
    }
  }

  // In an unskipped loop iterations() is the sum of the batches that the calls answered yes to. At
  // the end of a ranged for, and of a loop of single iterations, that is the requested number.
  lemma VerdictsAddUp(max: int, run: seq<Event>)
    requires max >= 1 && Legal(Fresh(max), run)
    ensures var s, n := After(Fresh(max), run), AllGranted(Fresh(max), run);
      !IsSkipped(s) ==>
        && (s.style.Keeping? || s.finished ==> Iterations(s) == n)
        && (s.finished ==> n >= max)
        && (s.finished && s.style.Ranging? ==> n == max)
        && (s.finished && SingleIterations(run) ==> n == max)
  {
    RunKeepsGrantInv(Fresh(max), run);
    if SingleIterations(run) {
      SinglesLeaveNothingOver(Fresh(max), run);
    }
  }

  predicate SingleIterations(run: seq<Event>) {
    forall i :: 0 <= i < |run| && run[i].call.Keep? ==> run[i].call.n == 1
  }

  lemma {:induction false} SinglesLeaveNothingOver(s: Loop, run: seq<Event>)
    requires CountInv(s) && s.leftover == 0 && Legal(s, run) && SingleIterations(run)
    ensures After(s, run).leftover == 0
    decreases |run|
  {
    if run != [] {
      CallKeepsCountInv(s, run[0].call, run[0].now);
      RunKeepsCountInv(AfterCall(s, run[0].call, run[0].now), run[1..]);
      SinglesLeaveNothingOver(AfterCall(s, run[0].call, run[0].now), run[1..]);
    }
  }

  // ----- What a thread reports

  // The loop of the run has been started.
  predicate Starts(run: seq<Event>) {
    exists i :: 0 <= i < |run| && (run[i].call.Keep? || run[i].call.End?)
  }

  lemma {:induction false} StartedByCall(s: Loop, run: seq<Event>)
    requires CountInv(s) && Legal(s, run)
    ensures After(s, run).started <==> s.started || Starts(run)
    decreases |run|
  {
    if run != [] {
      var s' := AfterCall(s, run[0].call, run[0].now);
      CallKeepsCountInv(s, run[0].call, run[0].now);
      assert s'.started <==> s.started || run[0].call.Keep? || run[0].call.End?;
      StartedByCall(s', run[1..]);
      assert forall i :: 1 <= i < |run| ==> run[i] == run[1..][i - 1];
    }
  }

  // The iterations a thread reports: what it was granted. One that was skipped, or was marked so
  // because it left early, reports the requested number, unless it was granted more.
  function Reported(max: int, run: seq<Event>, skipped: bool): int
    requires Legal(Fresh(max), run)
  {
    var n := AllGranted(Fresh(max), run);
    if !Starts(run) then 0 else if skipped && n < max then max else n
  }

  lemma ThreadIterations(max: int, run: seq<Event>, end: Clock)
    requires max >= 1 && Legal(Fresh(max), run)
    ensures var s := Checked(After(Fresh(max), run), end);
      Iterations(s) == Reported(max, run, IsSkipped(s))
  {
    RunKeepsGrantInv(Fresh(max), run);
    StartedByCall(Fresh(max), run);
  }

  function ManualSeconds(run: seq<Event>): real {
    if run == [] then 0.0 else
      (match run[0].call case SetTime(seconds) => seconds case _ => 0.0) + ManualSeconds(run[1..])
  }

  lemma {:induction false} ManualTimeAddsUp(s: Loop, run: seq<Event>)
    requires Legal(s, run)
    ensures After(s, run).timer.manualUsed == s.timer.manualUsed + ManualSeconds(run)
    decreases |run|
  {
    if run != [] {
      ManualTimeAddsUp(AfterCall(s, run[0].call, run[0].now), run[1..]);
    }
  }

  // ----- When the timer runs

  // A clock.
  function Wall(): Clock -> real { (c: Clock) => c.wall }

  function Cpu(): Clock -> real { (c: Clock) => c.cpu }

  // The time that passes by a clock while the timer is running, from one call to the next and at
  // last to the end.
  function TimeRunning(read: Clock -> real, s: Loop, run: seq<Event>, last: Clock, end: Clock): real
    requires Legal(s, run)
    decreases |run|
  {
    var now := if run == [] then end else run[0].now;
    var passed := if s.timer.running then read(now) - read(last) else 0.0;
    if run == [] then passed else passed + TimeRunning(read, AfterCall(s, run[0].call, run[0].now), run[1..], now, end)
  }

  // The time used, counting the slice that is still open.
  function WallUntil(s: Loop, now: Clock): real {
    s.timer.realUsed + if s.timer.running then now.wall - s.timer.start.wall else 0.0
  }

  function CpuUntil(s: Loop, now: Clock): real {
    s.timer.cpuUsed + if s.timer.running then now.cpu - s.timer.start.cpu else 0.0
  }

  predicate CpuAscends(run: seq<Event>, last: Clock, end: Clock) {
    if run == [] then last.cpu <= end.cpu else last.cpu <= run[0].now.cpu && CpuAscends(run[1..], run[0].now, end)
  }

  lemma {:induction false} RunCountsWall(s: Loop, run: seq<Event>, last: Clock, end: Clock)
    requires TimerInv(s) && Legal(s, run)
    ensures WallUntil(After(s, run), end) == WallUntil(s, last) + TimeRunning(Wall(), s, run, last, end)
    decreases |run|
  {
    if run != [] {
      CallKeepsTimerInv(s, run[0].call, run[0].now);
      var s' := AfterCall(s, run[0].call, run[0].now);
      assert WallUntil(s', run[0].now) == WallUntil(s, run[0].now);
      RunCountsWall(s', run[1..], run[0].now, end);
    }
  }

  lemma CallCountsCpu(s: Loop, c: Call, now: Clock)
    requires TimerInv(s) && Allowed(s, c) && (s.timer.running ==> s.timer.start.cpu <= now.cpu)
    ensures CpuUntil(AfterCall(s, c, now), now) == CpuUntil(s, now)
    ensures AfterCall(s, c, now).timer.running ==> AfterCall(s, c, now).timer.start.cpu <= now.cpu
  {
  }

  lemma {:induction false} RunCountsCpu(s: Loop, run: seq<Event>, last: Clock, end: Clock)
    requires TimerInv(s) && Legal(s, run) && CpuAscends(run, last, end)
    requires s.timer.running ==> s.timer.start.cpu <= last.cpu
    ensures CpuUntil(After(s, run), end) == CpuUntil(s, last) + TimeRunning(Cpu(), s, run, last, end)
    ensures After(s, run).timer.running ==> After(s, run).timer.start.cpu <= end.cpu
    decreases |run|
  {
    if run != [] {
      CallKeepsTimerInv(s, run[0].call, run[0].now);
      CallCountsCpu(s, run[0].call, run[0].now);
      RunCountsCpu(AfterCall(s, run[0].call, run[0].now), run[1..], run[0].now, end);
    }
  }

  function Pauses(run: seq<Event>): int {
    if run == [] then 0 else
      (match run[0].call case Pause => 1 case Resume => -1 case _ => 0) + Pauses(run[1..])
  }

  predicate Looping(s: Loop) { s.started && !s.finished && !IsSkipped(s) }

  lemma {:induction false} PausesBalance(s: Loop, run: seq<Event>, open: int)
    requires TimerInv(s) && CountInv(s) && Legal(s, run)
    requires if Looping(s) then open == (if s.timer.running then 0 else 1) else (!s.started ==> open == 0)
    ensures var s' := After(s, run);
      Looping(s') ==> open + Pauses(run) == if s'.timer.running then 0 else 1
    decreases |run|
  {
    if run != [] {
      CallKeepsTimerInv(s, run[0].call, run[0].now);
      CallKeepsCountInv(s, run[0].call, run[0].now);
      var open' := open + Pauses([run[0]]);
      assert Pauses([run[0]]) == match run[0].call case Pause => 1 case Resume => -1 case _ => 0;
      PausesBalance(AfterCall(s, run[0].call, run[0].now), run[1..], open');
    }
  }

  // The timer runs from the start of the loop to its end or to a skip, but for the pauses; and the
  // real time of a thread is the wall time that passed while it ran, and with a CPU clock that does
  // not go back the CPU time is the CPU time that passed.
  lemma TimedWhileLooping(max: int, run: seq<Event>, first: Clock, end: Clock)
    requires max >= 1 && Legal(Fresh(max), run)
    ensures var s := After(Fresh(max), run);
      && (s.timer.running <==> Looping(s) && Pauses(run) == 0)
      && WallUntil(Checked(s, end), end) == TimeRunning(Wall(), Fresh(max), run, first, end)
      && (CpuAscends(run, first, end) ==>
           CpuUntil(Checked(s, end), end) == TimeRunning(Cpu(), Fresh(max), run, first, end))
  {
    RunKeepsTimerInv(Fresh(max), run);
    RunCountsWall(Fresh(max), run, first, end);
    PausesBalance(Fresh(max), run, 0);
    if CpuAscends(run, first, end) {
      RunCountsCpu(Fresh(max), run, first, end);
    }
  }
}
