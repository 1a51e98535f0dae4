/** RunInThread (src/benchmark_runner.cc): one thread of a benchmark, and what n of them
    leave behind in the shared record however their critical sections interleave. */
module ThreadRuns {
  import opened ThreadTimers
  import opened Loops
  import opened LoopRuns
  import opened LoopVerdicts
  import opened States
  import opened ThreadManagers
  import Barriers
  import Sums

  // Everything one thread does, as the benchmark function drives it: its calls on State,
  // the counters and complexity it sets, and the clock when the function returns.
  datatype Script = Script(run: seq<Loops.Event>, complexityN: int, counters: UserCounters, end: Clock)

  predicate LegalScript(max: int, script: Script) {
    Legal(Fresh(max), script.run)
  }

  function SkipsOf(run: seq<Loops.Event>): seq<ThreadManagers.Event> {
    if run == [] then []
    else SkipsOf(run[..|run| - 1]) +
         (match run[|run| - 1].call
          case Skip(kind, message) => [ThreadManagers.Skip(kind, message)]
          case _ => [])
  }

  function Left(s: Loop, script: Script): Contribution {
    Contribution(Iterations(s), s.timer.cpuUsed, s.timer.realUsed, s.timer.manualUsed,
                 script.complexityN, script.counters)
  }

  // The critical sections a thread runs on the shared record.
  function ThreadEvents(max: int, script: Script): seq<ThreadManagers.Event>
    requires LegalScript(max, script)
  {
    var s := After(Fresh(max), script.run);
    var s' := Checked(s, script.end);
    SkipsOf(script.run)
    + (if IsSkipped(s') && !IsSkipped(s) then [ThreadManagers.Skip(SkippedWithError, DID_NOT_RUN)] else [])
    + [Finish(Left(s', script))]
  }

  lemma {:induction false} LegalSnoc(s: Loop, run: seq<Loops.Event>, i: nat)
    requires i < |run| && Legal(s, run)
    ensures Legal(s, run[..i]) && Legal(s, run[..i + 1]) && Allowed(After(s, run[..i]), run[i].call)
    ensures After(s, run[..i + 1]) == AfterCall(After(s, run[..i]), run[i].call, run[i].now)
    decreases |run|
  {
    assert run[..i + 1][1..] == run[1..][..i];
    if i > 0 {
      var s' := AfterCall(s, run[0].call, run[0].now);
      assert run[..i][1..] == run[1..][..i - 1];
      LegalSnoc(s', run[1..], i - 1);
    } else {
      assert run[..1][1..] == [];
    }
  }

  lemma OutcomeSnoc(start: Result, events: seq<ThreadManagers.Event>, e: ThreadManagers.Event)
    ensures OutcomeFrom(start, events + [e]) == AfterEvent(OutcomeFrom(start, events), e)
  {
    var all := events + [e];
    assert all[..|all| - 1] == events;
  }

  // One call of the benchmark function, carried out on the State object.
  method Perform(st: State, it: StateIterator?, e: Loops.Event)
    returns (it': StateIterator?, goesOn: bool)
    requires Allowed(st.View(), e.call) && TimerInv(st.View())
    requires st.style.Ranging? ==> it != null && it.parent == st && it.Agrees()
    modifies st, st.timer, st.manager, it
    ensures st.View() == AfterCall(old(st.View()), e.call, e.now)
    ensures goesOn <==> GoesOn(old(st.View()), e.call, e.now)
    ensures st.style.Ranging? ==> it' != null && it'.parent == st && it'.Agrees()
    ensures it' == it || fresh(it')
    ensures st.manager.results ==
      match e.call
      case Skip(kind, message) => WithSkip(old(st.manager.results), kind, message)
      case _ => old(st.manager.results)
  {
    it', goesOn := it, false;
    match e.call {
      case Keep(n, isBatch) => goesOn := st.KeepRunningInternal(n, isBatch, e.now);
      case Begin => it' := st.Begin();
      case End => st.End(e.now);
      case NotEqual => goesOn := it.NotEqual(e.now);
      case Advance => it.Increment();
      case Pause => st.PauseTiming(e.now);
      case Resume => st.ResumeTiming(e.now);
      case Skip(kind, message) => st.SkipWith(kind, message, e.now);
      case SetTime(seconds) => st.SetIterationTime(seconds);
    }
  }

  // The first i calls of the run have led to this State and this shared record.
  predicate Replayed(max: int, run: seq<Loops.Event>, i: nat, before: Result, s: Loop, results: Result)
    requires i <= |run|
  {
    && Legal(Fresh(max), run[..i])
    && s == After(Fresh(max), run[..i])
    && results == OutcomeFrom(before, SkipsOf(run[..i]))
  }

  lemma ReplayStep(max: int, run: seq<Loops.Event>, i: nat, before: Result, s: Loop, results: Result)
    requires i < |run| && Legal(Fresh(max), run) && Replayed(max, run, i, before, s, results)
    ensures TimerInv(s) && Allowed(s, run[i].call)
    ensures Replayed(max, run, i + 1, before, AfterCall(s, run[i].call, run[i].now),
              match run[i].call
              case Skip(kind, message) => WithSkip(results, kind, message)
              case _ => results)
  {
    LegalSnoc(Fresh(max), run, i);
    RunKeepsTimerInv(Fresh(max), run[..i]);
    SkipsSnoc(run, i, before);
  }

  // benchmark_.Run(st): every call in turn.
  method RunFunction(st: State, run: seq<Loops.Event>)
    requires st.View() == Fresh(st.maxIterations) && Legal(Fresh(st.maxIterations), run)
    modifies st, st.timer, st.manager
    ensures st.View() == After(Fresh(st.maxIterations), run)
    ensures st.manager.results == OutcomeFrom(old(st.manager.results), SkipsOf(run))
  {
    ghost var before := st.manager.results;
    var it: StateIterator? := null;
    var i := 0;
    assert run[..0] == [];
    while i < |run|
      invariant 0 <= i <= |run|
      invariant it != null ==> fresh(it)
      invariant st.style.Ranging? ==> it != null && it.parent == st && it.Agrees()
      invariant Replayed(st.maxIterations, run, i, before, st.View(), st.manager.results)
    {
      ReplayStep(st.maxIterations, run, i, before, st.View(), st.manager.results);
      var it', _ := Perform(st, it, run[i]);
      it := it';
      i := i + 1;
    }
    assert run[..i] == run;
  }

  // A thread has added what it measured: the iterations it was granted, the wall and CPU time of
  // its timer slices, and the manual times it set.
  predicate Added(before: Result, max: int, script: Script, after: Result)
    requires LegalScript(max, script)
  {
    var s := Checked(After(Fresh(max), script.run), script.end);
    && after.iterations == before.iterations + Reported(max, script.run, IsSkipped(s))
    && after.realTime == before.realTime + WallTime(s.slices)
    && after.cpuTime == before.cpuTime + CpuTime(s.slices)
    && after.manualTime == before.manualTime + ManualSeconds(script.run)
    && after.complexityN == before.complexityN + script.complexityN
  }

  lemma {:induction false} SkipsAddNothing(start: Result, run: seq<Loops.Event>)
    ensures var after := OutcomeFrom(start, SkipsOf(run));
      after == start.(skipped := after.skipped, skipMessage := after.skipMessage)
  {
    if run != [] {
      var n := |run| - 1;
      SkipsAddNothing(start, run[..n]);
      assert run[..n + 1] == run;
      SkipsSnoc(run, n, start);
    }
  }

  // The thread's calls end up in the shared record as its events, provided the benchmark
  // function keeps to the contract and does not leave the loop in its last batch.
  method RunInThread(maxIters: int, script: Script, manager: ThreadManager)
    requires maxIters >= 1 && LegalScript(maxIters, script)
    requires !LeftInLastBatch(After(Fresh(maxIters), script.run))
    modifies manager, manager.barrier
    ensures manager.results == OutcomeFrom(old(manager.results), ThreadEvents(maxIters, script))
    ensures Added(old(manager.results), maxIters, script, manager.results)
    ensures manager.barrier.View() == Barriers.AfterRemove(old(manager.barrier.View())).0
  {
    ghost var before := manager.results;
    var timer := new ThreadTimer();
    var st := new State(maxIters, timer, manager);
    RunFunction(st, script.run);
    EventsInOrder(maxIters, script, before);
    SkipsAddNothing(before, script.run);
    LeftIsMeasured(maxIters, script, script.end);
    ThreadReport(maxIters, script.run, script.end);
    var iterations := st.GetIterations();
    if !(st.skipped != NotSkipped || iterations >= st.maxIterations) {
      st.SkipWith(SkippedWithError, DID_NOT_RUN, script.end);
    }
    assert st.View() == Checked(After(Fresh(maxIters), script.run), script.end);
    iterations := st.GetIterations();
    assert !timer.running;
    manager.AddThread(Contribution(iterations, timer.cpuTimeUsed, timer.realTimeUsed, timer.manualTimeUsed,
                                   script.complexityN, script.counters));
    var _ := manager.NotifyThreadComplete();
  }

  // The events of a thread, read from the last to the first.
  lemma EventsInOrder(max: int, script: Script, start: Result)
    requires LegalScript(max, script)
    ensures var s := After(Fresh(max), script.run);
            var s' := Checked(s, script.end);
            var called := OutcomeFrom(start, SkipsOf(script.run));
            OutcomeFrom(start, ThreadEvents(max, script)) ==
              Merged(if IsSkipped(s') && !IsSkipped(s) then WithSkip(called, SkippedWithError, DID_NOT_RUN) else called,
                     Left(s', script))
  {
    var s := After(Fresh(max), script.run);
    var s' := Checked(s, script.end);
    var skips := SkipsOf(script.run);
    var late := ThreadManagers.Skip(SkippedWithError, DID_NOT_RUN);
    if IsSkipped(s') && !IsSkipped(s) {
      OutcomeSnoc(start, skips, late);
      OutcomeSnoc(start, skips + [late], Finish(Left(s', script)));
    } else {
      assert skips + [] == skips;
      OutcomeSnoc(start, skips, Finish(Left(s', script)));
    }
  }

  lemma SkipsSnoc(run: seq<Loops.Event>, i: nat, start: Result)
    requires i < |run|
    ensures OutcomeFrom(start, SkipsOf(run[..i + 1])) ==
      match run[i].call
      case Skip(kind, message) => WithSkip(OutcomeFrom(start, SkipsOf(run[..i])), kind, message)
      case _ => OutcomeFrom(start, SkipsOf(run[..i]))
  {
    assert run[..i + 1][..i] == run[..i];
    match run[i].call
    case Skip(kind, message) => OutcomeSnoc(start, SkipsOf(run[..i]), ThreadManagers.Skip(kind, message));
    case _ => assert SkipsOf(run[..i]) + [] == SkipsOf(run[..i]);
  }

  // ----- n threads

  lemma {:induction false} SkipsAreSkips(run: seq<Loops.Event>)
    requires forall i :: 0 <= i < |run| && run[i].call.Skip? ==> run[i].call.kind != NotSkipped
    ensures forall i :: 0 <= i < |SkipsOf(run)| ==> SkipsOf(run)[i].Skip? && SkipsOf(run)[i].kind != NotSkipped
  {
    if run != [] {
      SkipsAreSkips(run[..|run| - 1]);
    }
  }

  lemma {:induction false} SkipsContributeNothing(run: seq<Loops.Event>)
    ensures Contributions(SkipsOf(run)) == []
  {
    if run != [] {
      var n := |run| - 1;
      SkipsContributeNothing(run[..n]);
      match run[n].call
      case Skip(kind, message) => ContributionsSnoc(SkipsOf(run[..n]), ThreadManagers.Skip(kind, message));
      case _ => assert SkipsOf(run) == SkipsOf(run[..n]);
    }
  }

  lemma {:induction false} LegalSkipsHaveKinds(s: Loop, run: seq<Loops.Event>)
    requires Legal(s, run)
    ensures forall i :: 0 <= i < |run| && run[i].call.Skip? ==> run[i].call.kind != NotSkipped
    decreases |run|
  {
    if run != [] {
      LegalSkipsHaveKinds(AfterCall(s, run[0].call, run[0].now), run[1..]);
      assert forall i :: 1 <= i < |run| ==> run[i] == run[1..][i - 1];
    }
  }

  lemma {:induction false} SkippedHasEvent(max: int, run: seq<Loops.Event>)
    requires Legal(Fresh(max), run)
    ensures IsSkipped(After(Fresh(max), run)) <==> SkipsOf(run) != []
    decreases |run|
  {
    if run != [] {
      var n := |run| - 1;
      LegalSnoc(Fresh(max), run, n);
      assert run[..n + 1] == run;
      SkippedHasEvent(max, run[..n]);
      OnlySkipSkips(After(Fresh(max), run[..n]), run[n].call, run[n].now);
    }
  }

  lemma OnlySkipSkips(s: Loop, c: Call, now: Clock)
    requires Allowed(s, c)
    ensures IsSkipped(AfterCall(s, c, now)) <==> IsSkipped(s) || c.Skip?
  {
  }

  // The contract under which times cannot be negative: clocks do not run backwards and
  // manual times are not negative.
  predicate SensibleTimes(script: Script, first: real) {
    && Monotone(script.run, first) && LastReading(script.run, first) <= script.end.wall
    && forall i :: 0 <= i < |script.run| && script.run[i].call.SetTime? ==> script.run[i].call.seconds >= 0.0
  }

  lemma {:induction false} ManualTimeNonNegative(s: Loop, run: seq<Loops.Event>)
    requires Legal(s, run) && s.timer.manualUsed >= 0.0
    requires forall i :: 0 <= i < |run| && run[i].call.SetTime? ==> run[i].call.seconds >= 0.0
    ensures After(s, run).timer.manualUsed >= 0.0
    decreases |run|
  {
    if run != [] {
      var s' := AfterCall(s, run[0].call, run[0].now);
      assert s'.timer.manualUsed >= 0.0;
      ManualTimeNonNegative(s', run[1..]);
    }
  }

  predicate Conforms(max: int, script: Script, first: real) {
    LegalScript(max, script) && SensibleTimes(script, first) && !LeftInLastBatch(After(Fresh(max), script.run))
  }

  function LeftBy(max: int, script: Script): Contribution
    requires LegalScript(max, script)
  {
    Left(Checked(After(Fresh(max), script.run), script.end), script)
  }

  // What a thread leaves is what it measured. Its real time is also the wall time that passed while
  // its timer was running, and its CPU time the CPU time, if that clock does not go back.
  lemma LeftIsMeasured(max: int, script: Script, first: Clock)
    requires max >= 1 && LegalScript(max, script)
    ensures var c, s := LeftBy(max, script), Checked(After(Fresh(max), script.run), script.end);
      && c.iterations == Reported(max, script.run, IsSkipped(s))
      && c.realTime == WallTime(s.slices) && c.cpuTime == CpuTime(s.slices)
      && c.manualTime == ManualSeconds(script.run)
      && c.complexityN == script.complexityN && c.counters == script.counters
      && (!s.timer.running ==> c.realTime == TimeRunning(Wall(), Fresh(max), script.run, first, script.end))
      && (!s.timer.running && CpuAscends(script.run, first, script.end) ==>
           c.cpuTime == TimeRunning(Cpu(), Fresh(max), script.run, first, script.end))
  {
    var s := After(Fresh(max), script.run);
    RunKeepsTimerInv(Fresh(max), script.run);
    CallKeepsTimerIfChecked(s, script.end);
    ThreadIterations(max, script.run, script.end);
    ManualTimeAddsUp(Fresh(max), script.run);
    TimedWhileLooping(max, script.run, first, script.end);
  }

  lemma EventsOfThread(max: int, script: Script)
    requires LegalScript(max, script)
    ensures Proper(ThreadEvents(max, script)) && Contributions(ThreadEvents(max, script)) == [LeftBy(max, script)]
    ensures IsSkipped(Checked(After(Fresh(max), script.run), script.end)) <==> AnySkip(ThreadEvents(max, script))
  {
    LegalSkipsHaveKinds(Fresh(max), script.run);
    SkipsAreSkips(script.run);
    SkipsContributeNothing(script.run);
    SkippedHasEvent(max, script.run);
    var s := After(Fresh(max), script.run);
    var late := IsSkipped(Checked(s, script.end)) && !IsSkipped(s);
    SkipsThenFinish(SkipsOf(script.run), late, LeftBy(max, script));
  }

  lemma SkipsThenFinish(skips: seq<ThreadManagers.Event>, late: bool, c: Contribution)
    requires forall i :: 0 <= i < |skips| ==> skips[i].Skip? && skips[i].kind != NotSkipped
    requires Contributions(skips) == []
    ensures var events := skips + (if late then [ThreadManagers.Skip(SkippedWithError, DID_NOT_RUN)] else []) + [Finish(c)];
            && Proper(events) && Contributions(events) == [c]
            && (skips != [] || late <==> AnySkip(events))
  {
    var skip := ThreadManagers.Skip(SkippedWithError, DID_NOT_RUN);
    var all := skips + (if late then [skip] else []);
    if late {
      ContributionsSnoc(skips, skip);
      assert (all + [Finish(c)])[|skips|].Skip?;
    } else {
      assert all == skips;
      assert skips != [] ==> (all + [Finish(c)])[0].Skip?;
    }
    ContributionsSnoc(all, Finish(c));
  }

  lemma AmountsOfThread(max: int, script: Script, first: real)
    requires max >= 1 && Conforms(max, script, first)
    ensures NonNegative(LeftBy(max, script))
    ensures !IsSkipped(Checked(After(Fresh(max), script.run), script.end)) ==> LeftBy(max, script).iterations >= max
  {
    var s := After(Fresh(max), script.run);
    ThreadReport(max, script.run, script.end);
    RunKeepsTimerInv(Fresh(max), script.run);
    CallKeepsTimerIfChecked(s, script.end);
    CpuTimeNonNegative(Checked(s, script.end).slices);
    RunKeepsClockInv(Fresh(max), script.run, first, first);
    ManualTimeNonNegative(Fresh(max), script.run);
  }

  // What one thread leaves behind: one contribution, and enough iterations unless it skipped.
  lemma ThreadLeaves(max: int, script: Script, first: real)
    requires max >= 1 && Conforms(max, script, first)
    ensures WellBehaved(1, max, ThreadEvents(max, script))
    ensures Contributions(ThreadEvents(max, script)) == [LeftBy(max, script)]
  {
    EventsOfThread(max, script);
    AmountsOfThread(max, script, first);
  }

  lemma CallKeepsTimerIfChecked(s: Loop, now: Clock)
    requires TimerInv(s)
    ensures TimerInv(Checked(s, now))
  {
    if !(IsSkipped(s) || Iterations(s) >= s.max) {
      CallKeepsTimerInv(s, Loops.Skip(SkippedWithError, DID_NOT_RUN), now);
    }
  }

  // The events of thread t, in the order they happened.
  function Project(events: seq<ThreadManagers.Event>, owners: seq<nat>, t: nat): seq<ThreadManagers.Event>
    requires |events| == |owners|
  {
    if events == [] then []
    else
      var n := |events| - 1;
      Project(events[..n], owners[..n], t) + (if owners[n] == t then [events[n]] else [])
  }

  function Parts(events: seq<ThreadManagers.Event>, owners: seq<nat>, n: nat): seq<seq<ThreadManagers.Event>>
    requires |events| == |owners|
  {
    seq(n, t requires 0 <= t < n => Project(events, owners, t))
  }

  // How often a contribution occurs in a list of events.
  function TimesLeft(c: Contribution): seq<ThreadManagers.Event> -> int {
    (events: seq<ThreadManagers.Event>) => multiset(Contributions(events))[c]
  }

  function Finishes(events: seq<ThreadManagers.Event>): int { |Contributions(events)| }

  ghost predicate Additive(count: seq<ThreadManagers.Event> -> int) {
    count([]) == 0 && forall es, e :: count(es + [e]) == count(es) + count([e])
  }

  // What counts contributions one by one may be counted thread by thread.
  lemma {:induction false} CountedByThread(
      count: seq<ThreadManagers.Event> -> int, events: seq<ThreadManagers.Event>, owners: seq<nat>, n: nat)
    requires |events| == |owners| && forall i :: 0 <= i < |owners| ==> owners[i] < n
    requires Additive(count)
    ensures count(events) == Sums.Sum(count, Parts(events, owners, n))
  {
    var parts := Parts(events, owners, n);
    if events == [] {
      Sums.SumPointwise(count, parts, (x: seq<ThreadManagers.Event>) => 0, parts);
      Sums.SumConstant(parts, 0);
    } else {
      var k := |events| - 1;
      var before := Parts(events[..k], owners[..k], n);
      CountedByThread(count, events[..k], owners[..k], n);
      var t := owners[k];
      forall u | 0 <= u < n ensures parts[u] == if u == t then before[u] + [events[k]] else before[u] {
        assert before[u] + [] == before[u];
      }
      assert parts == before[t := before[t] + [events[k]]];
      Sums.SumUpdate(count, before, t, before[t] + [events[k]]);
      assert events == events[..k] + [events[k]];
    }
  }

  // Splitting the events by thread loses no contribution.
  lemma ContributionsByThread(events: seq<ThreadManagers.Event>, owners: seq<nat>, n: nat)
    requires |events| == |owners| && forall i :: 0 <= i < |owners| ==> owners[i] < n
    ensures |Contributions(events)| == Sums.Sum(Finishes, Parts(events, owners, n))
    ensures forall c :: multiset(Contributions(events))[c] == Sums.Sum(TimesLeft(c), Parts(events, owners, n))
  {
    FinishesAdditive();
    CountedByThread(Finishes, events, owners, n);
    forall c ensures multiset(Contributions(events))[c] == Sums.Sum(TimesLeft(c), Parts(events, owners, n)) {
      TimesLeftAdditive(c);
      CountedByThread(TimesLeft(c), events, owners, n);
    }
  }

  lemma FinishesAdditive()
    ensures Additive(Finishes)
  {
    forall es, e ensures Finishes(es + [e]) == Finishes(es) + Finishes([e]) {
      ContributionsSnoc(es, e);
      ContributionsSnoc([], e);
      assert [] + [e] == [e];
    }
  }

  lemma TimesLeftAdditive(c: Contribution)
    ensures Additive(TimesLeft(c))
  {
    forall es, e ensures TimesLeft(c)(es + [e]) == TimesLeft(c)(es) + TimesLeft(c)([e]) {
      ContributionsSnoc(es, e);
      ContributionsSnoc([], e);
      assert [] + [e] == [e];
    }
  }

  // An event of the whole is an event of its owner, and a contribution of the whole is a
  // contribution of some thread.
  lemma {:induction false} EventOfOwner(events: seq<ThreadManagers.Event>, owners: seq<nat>, t: nat)
    requires |events| == |owners|
    ensures forall i :: 0 <= i < |events| && owners[i] == t ==> events[i] in Project(events, owners, t)
    ensures forall e :: e in Project(events, owners, t) ==> e in events
  {
    if events != [] {
      var n := |events| - 1;
      EventOfOwner(events[..n], owners[..n], t);
      forall i | 0 <= i < |events| && owners[i] == t ensures events[i] in Project(events, owners, t) {
        if i < n {
          assert events[i] == events[..n][i] && owners[i] == owners[..n][i];
        }
      }
    }
  }

  lemma {:induction false} ContributionIsEvent(events: seq<ThreadManagers.Event>)
    ensures forall c :: c in Contributions(events) <==> Finish(c) in events
  {
    if events != [] {
      var n := |events| - 1;
      ContributionIsEvent(events[..n]);
      assert events == events[..n] + [events[n]];
    }
  }

  // The events of all threads, interleaved in any way; `owners[i]` ran event i.
  predicate Interleaving(events: seq<ThreadManagers.Event>, owners: seq<nat>, max: int, scripts: seq<Script>) {
    && |events| == |owners| && (forall i :: 0 <= i < |owners| ==> owners[i] < |scripts|)
    && forall t :: 0 <= t < |scripts| ==>
         LegalScript(max, scripts[t]) && Project(events, owners, t) == ThreadEvents(max, scripts[t])
  }

  // What the threads leave, one after the other.
  function Leavings(max: int, scripts: seq<Script>): seq<Contribution>
    requires forall t :: 0 <= t < |scripts| ==> LegalScript(max, scripts[t])
  {
    seq(|scripts|, t requires 0 <= t < |scripts| => LeftBy(max, scripts[t]))
  }

  function Is(c: Contribution): Contribution -> int {
    (x: Contribution) => if x == c then 1 else 0
  }

  lemma {:induction false} Occurrences(c: Contribution, cs: seq<Contribution>)
    ensures multiset(cs)[c] == Sums.Sum(Is(c), cs)
  {
    if cs != [] {
      Occurrences(c, cs[1..]);
      assert cs == [cs[0]] + cs[1..];
    }
  }

  // However the threads interleave, the record receives from each what it leaves, and nothing else.
  lemma InterleavingLeaves(events: seq<ThreadManagers.Event>, owners: seq<nat>, max: int, scripts: seq<Script>)
    requires Interleaving(events, owners, max, scripts)
    ensures multiset(Contributions(events)) == multiset(Leavings(max, scripts))
  {
    var parts, leavings := Parts(events, owners, |scripts|), Leavings(max, scripts);
    ContributionsByThread(events, owners, |scripts|);
    forall c ensures multiset(Contributions(events))[c] == multiset(leavings)[c] {
      forall t | 0 <= t < |scripts| ensures TimesLeft(c)(parts[t]) == Is(c)(leavings[t]) {
        EventsOfThread(max, scripts[t]);
      }
      Sums.SumPointwise(TimesLeft(c), parts, Is(c), leavings);
      Occurrences(c, leavings);
    }
  }

  // A skip in the record is a skip of some thread.
  lemma InterleavingSkips(events: seq<ThreadManagers.Event>, owners: seq<nat>, max: int, scripts: seq<Script>)
    requires Interleaving(events, owners, max, scripts)
    ensures Proper(events)
    ensures AnySkip(events) <==> exists t :: 0 <= t < |scripts| && SkippedThread(max, scripts[t])
  {
    forall i | 0 <= i < |events| && events[i].Skip?
      ensures events[i].kind != NotSkipped && SkippedThread(max, scripts[owners[i]])
    {
      var mine := ThreadEvents(max, scripts[owners[i]]);
      EventOfOwner(events, owners, owners[i]);
      EventsOfThread(max, scripts[owners[i]]);
      var k :| 0 <= k < |mine| && mine[k] == events[i];
    }
    forall t | 0 <= t < |scripts| && SkippedThread(max, scripts[t]) ensures AnySkip(events) {
      EventsOfThread(max, scripts[t]);
      EventOfOwner(events, owners, t);
      var k :| 0 <= k < |ThreadEvents(max, scripts[t])| && ThreadEvents(max, scripts[t])[k].Skip?;
      assert ThreadEvents(max, scripts[t])[k] in events;
    }
  }

  // The thread skipped, or was marked so because it did not run.
  predicate SkippedThread(max: int, script: Script)
    requires LegalScript(max, script)
  {
    IsSkipped(Checked(After(Fresh(max), script.run), script.end))
  }

  // However the critical sections of n conforming threads interleave, the shared record
  // receives one contribution per thread, and full iteration counts unless somebody skipped.
  lemma InterleavingIsWellBehaved(
      events: seq<ThreadManagers.Event>, owners: seq<nat>, max: int, scripts: seq<Script>, first: real)
    requires max >= 1
    requires forall t :: 0 <= t < |scripts| ==> Conforms(max, scripts[t], first)
    requires Interleaving(events, owners, max, scripts)
    ensures WellBehaved(|scripts|, max, events)
  {
    var n := |scripts|;
    var parts := Parts(events, owners, n);
    ContributionsByThread(events, owners, n);
    forall t | 0 <= t < n ensures Finishes(parts[t]) == 1 {
      ThreadLeaves(max, scripts[t], first);
    }
    Sums.SumPointwise(Finishes, parts, (x: Script) => 1, scripts);
    Sums.SumConstant(scripts, 1);
    ContributionIsEvent(events);
    forall i | 0 <= i < |events| && events[i].Skip? ensures events[i].kind != NotSkipped {
      var t := owners[i];
      EventOfOwner(events, owners, t);
      ThreadLeaves(max, scripts[t], first);
    }
    forall i | 0 <= i < |Contributions(events)|
      ensures var c := Contributions(events)[i];
              NonNegative(c) && (!AnySkip(events) ==> c.iterations >= max)
    {
      ContributionOfThread(events, owners, max, scripts, first, Contributions(events)[i]);
    }
  }

  lemma ContributionOfThread(
      events: seq<ThreadManagers.Event>, owners: seq<nat>, max: int, scripts: seq<Script>, first: real, c: Contribution)
    requires max >= 1
    requires forall t :: 0 <= t < |scripts| ==> Conforms(max, scripts[t], first)
    requires Interleaving(events, owners, max, scripts) && c in Contributions(events)
    ensures NonNegative(c)
    ensures !AnySkip(events) ==> c.iterations >= max
  {
    var t := OwnerOf(events, owners, max, scripts, c);
    ThreadLeaves(max, scripts[t], first);
    var mine := ThreadEvents(max, scripts[t]);
    if k :| 0 <= k < |mine| && mine[k].Skip? {
      assert mine[k] in events;
    }
    assert c == Contributions(mine)[0];
  }

  lemma OwnerOf(
      events: seq<ThreadManagers.Event>, owners: seq<nat>, max: int, scripts: seq<Script>, c: Contribution) returns (t: nat)
    requires Interleaving(events, owners, max, scripts) && c in Contributions(events)
    ensures t < |scripts| && LegalScript(max, scripts[t]) && c in Contributions(ThreadEvents(max, scripts[t]))
    ensures forall e :: e in ThreadEvents(max, scripts[t]) ==> e in events
  {
    ContributionIsEvent(events);
    var j :| 0 <= j < |events| && events[j] == Finish(c);
    t := owners[j];
    EventOfOwner(events, owners, t);
    ContributionIsEvent(ThreadEvents(max, scripts[t]));
  }

  // One batch of four iterations where a single one was asked for, in the given time.
  function BatchOfFour(time: real): Script {
    Script([Loops.Event(Keep(4, true), Clock(0.0, 0.0)), Loops.Event(SetTime(time), Clock(time, time)),
            Loops.Event(Keep(4, true), Clock(time, time))],
           0, map[], Clock(time, time))
  }

  lemma BatchReadings(time: real)
    requires time >= 0.0
    ensures SensibleTimes(BatchOfFour(time), 0.0)
  {
    var run := BatchOfFour(time).run;
    var last := run[2..];
    assert last[1..] == [] && LastReading([], time) == time && Monotone([], time);
    assert LastReading(last, time) == LastReading(last[1..], time);
    assert run[1..][1..] == last;
    assert LastReading(run[1..], 0.0) == LastReading(last, time);
  }

  // A thread may leave four iterations and any time, whatever clock counts.
  lemma BatchOfFourLeaves(time: real)
    requires time >= 0.0
    ensures Conforms(1, BatchOfFour(time), 0.0)
    ensures ThreadEvents(1, BatchOfFour(time)) == [Finish(Contribution(4, time, time, time, 0, map[]))]
  {
    var run := BatchOfFour(time).run;
    var s1 := AfterCall(Fresh(1), run[0].call, run[0].now);
    var s2 := AfterCall(s1, run[1].call, run[1].now);
    var s3 := AfterCall(s2, run[2].call, run[2].now);
    assert run[1..][1..] == [run[2]] && run[1..][1..][1..] == [];
    assert Legal(s3, []) && After(s3, []) == s3;
    assert Legal(s2, [run[2]]) && After(s2, [run[2]]) == s3;
    assert Legal(s1, run[1..]) && After(s1, run[1..]) == s3;
    assert Legal(Fresh(1), run) && After(Fresh(1), run) == s3;
    BatchReadings(time);
    assert run[..2][..1] == [run[0]] && run[..2] == [run[0], run[1]] && [run[0]][..0] == [];
    assert SkipsOf([run[0]]) == [];
    assert SkipsOf(run[..2]) == [] && SkipsOf(run) == [];
  }
}
