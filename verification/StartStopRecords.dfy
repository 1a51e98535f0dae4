/** What complete runs of the threads leave in the shared record. */
module StartStopRecords {
  import opened Loops
  import opened LoopRuns
  import opened BarrierProtocol
  import opened LoopVerdicts
  import opened ThreadTimers
  import ThreadManagers
  import opened RealSums
  import opened ThreadRuns
  import opened StartStop
  import opened StartStopRuns
  import opened StartStopProgress

  // What a thread has put into the shared record.
  function RecordedBy(max: int, script: Script, w: Worker): seq<ThreadManagers.Event>
    requires LegalScript(max, script)
  {
    var end := Checked(After(Fresh(max), script.run), script.end);
    var late := !IsSkipped(After(Fresh(max), script.run)) && IsSkipped(end);
    match w.doing
    case Merging => SkipsOf(script.run) + if late then [ThreadManagers.Skip(SkippedWithError, DID_NOT_RUN)] else []
    case Leaving => ThreadEvents(max, script)
    case _ => if w.next <= |script.run| then SkipsOf(script.run[..w.next]) else []
  }

  predicate RecordInv(s: Joint)
    requires AllLegal(s.max, s.scripts)
  {
    && |s.workers| == |s.scripts|
    && |s.events| == |s.owners| && (forall i :: 0 <= i < |s.owners| ==> s.owners[i] < |s.scripts|)
    && forall t :: 0 <= t < |s.workers| ==>
         Project(s.events, s.owners, t) == RecordedBy(s.max, s.scripts[t], s.workers[t])
  }

  lemma WorkRecords(max: int, script: Script, w: Worker)
    requires LegalScript(max, script) && OnTrack(max, script, w) && CanWork(w, script.run)
    ensures |Records(w, script)| <= 1
    ensures RecordedBy(max, script, Worked(w, script)) == RecordedBy(max, script, w) + Records(w, script)
  {
    if w.doing.Ready? && w.next < |script.run| {
      CallRecords(script.run, w.next);
    } else if w.doing.Ready? {
      assert script.run[..w.next] == script.run;
    }
  }

  lemma CallRecords(run: seq<Event>, i: nat)
    requires i < |run|
    ensures SkipsOf(run[..i + 1]) == SkipsOf(run[..i]) + (match run[i].call
      case Skip(kind, message) => [ThreadManagers.Skip(kind, message)]
      case _ => [])
  {
    assert run[..i + 1][..i] == run[..i];
  }

  lemma ProjectAppend(
      events: seq<ThreadManagers.Event>, owners: seq<nat>, t: nat, more: seq<ThreadManagers.Event>, u: nat)
    requires |events| == |owners| && |more| <= 1
    ensures Project(events + more, owners + Repeated(t, |more|), u)
         == Project(events, owners, u) + if u == t then more else []
  {
    if more == [] {
      assert events + more == events && owners + Repeated(t, 0) == owners;
    } else {
      var all, of := events + more, owners + Repeated(t, 1);
      assert all[..|events|] == events && of[..|events|] == owners && more == [more[0]];
    }
  }

  lemma WorkKeepsRecord(s: Joint, t: nat)
    requires AllLegal(s.max, s.scripts) && RecordInv(s) && Possible(s, Work(t))
    requires OnTrack(s.max, s.scripts[t], s.workers[t])
    ensures RecordInv(Moved(s, Work(t)))
  {
    var s' := Moved(s, Work(t));
    var more := Records(s.workers[t], s.scripts[t]);
    WorkRecords(s.max, s.scripts[t], s.workers[t]);
    forall u | 0 <= u < |s.workers|
      ensures Project(s'.events, s'.owners, u) == RecordedBy(s.max, s.scripts[u], s'.workers[u])
    {
      ProjectAppend(s.events, s.owners, t, more, u);
    }
  }

  lemma {:induction false} PlayedRecord(s: Joint, moves: seq<Move>)
    requires JointInv(s) && RecordInv(s) && Playable(s, moves)
    ensures JointInv(Played(s, moves)) && RecordInv(Played(s, moves))
    decreases |moves|
  {
    if moves != [] {
      MoveKeepsInv(s, moves[0]);
      if moves[0].Work? {
        WorkKeepsRecord(s, moves[0].thread);
      } else {
        BarrierKeepsRecord(s, moves[0].step);
      }
      PlayedRecord(Moved(s, moves[0]), moves[1..]);
    }
  }

  lemma BarrierKeepsRecord(s: Joint, l: Label)
    requires AllLegal(s.max, s.scripts) && RecordInv(s) && Possible(s, OnBarrier(l))
    ensures RecordInv(Moved(s, OnBarrier(l)))
  {
  }

  lemma BegunRecord(max: int, scripts: seq<Script>)
    requires AllLegal(max, scripts)
    ensures RecordInv(Begun(max, scripts))
  {
    forall t | 0 <= t < |scripts| ensures SkipsOf(scripts[t].run[..0]) == [] {
      assert scripts[t].run[..0] == [];
    }
  }

  lemma ReachedRecord(s: Joint)
    requires Reachable(s)
    ensures JointInv(s) && RecordInv(s)
  {
    var moves :| Playable(Begun(s.max, s.scripts), moves) && s == Played(Begun(s.max, s.scripts), moves);
    BegunInv(s.max, s.scripts);
    BegunRecord(s.max, s.scripts);
    PlayedRecord(Begun(s.max, s.scripts), moves);
  }

  // A run that can go no further has led every thread to the end of its script, as if it had
  // run alone, and its shared record is an interleaving of what the threads leave.
  lemma CompleteJointRun(s: Joint)
    requires Reachable(s) && !CanMove(s)
    ensures forall t :: 0 <= t < |s.workers| ==>
      HasLeft(s, t) && s.workers[t].loop == Checked(After(Fresh(s.max), s.scripts[t].run), s.scripts[t].end)
    ensures Interleaving(s.events, s.owners, s.max, s.scripts)
  {
    NeverStuck(s);
    ReachedRecord(s);
    forall t | 0 <= t < |s.workers|
      ensures HasLeft(s, t) && s.workers[t].loop == Checked(After(Fresh(s.max), s.scripts[t].run), s.scripts[t].end)
      ensures Project(s.events, s.owners, t) == ThreadEvents(s.max, s.scripts[t])
    {
      assert OnTrack(s.max, s.scripts[t], s.workers[t]);
    }
  }

  // So what conforming threads leave, on every schedule, is what the iteration search relies on.
  lemma JointRunIsWellBehaved(s: Joint, first: real)
    requires Reachable(s) && !CanMove(s)
    requires s.max >= 1 && forall t :: 0 <= t < |s.scripts| ==> Conforms(s.max, s.scripts[t], first)
    ensures ThreadManagers.WellBehaved(|s.scripts|, s.max, s.events)
  {
    CompleteJointRun(s);
    InterleavingIsWellBehaved(s.events, s.owners, s.max, s.scripts, first);
  }

  // Conservation end to end: after a complete run the shared record holds the sums of what the
  // threads' own loops have counted, and it is skipped exactly when some thread is.
  lemma JointConservation(s: Joint, key: string)
    requires Reachable(s) && !CanMove(s)
    ensures multiset(ThreadManagers.Contributions(s.events)) == multiset(Leavings(s.max, s.scripts))
    ensures ThreadManagers.HoldsSums(ThreadManagers.Outcome(s.events), Leavings(s.max, s.scripts), key)
    ensures ThreadManagers.Outcome(s.events).skipped != NotSkipped <==>
      exists t :: 0 <= t < |s.scripts| && SkippedThread(s.max, s.scripts[t])
  {
    CompleteJointRun(s);
    InterleavingLeaves(s.events, s.owners, s.max, s.scripts);
    ThreadManagers.Conservation(s.events, key);
    ThreadManagers.SumsOfPermutation(
      ThreadManagers.Outcome(s.events), ThreadManagers.Contributions(s.events), Leavings(s.max, s.scripts), key);
    InterleavingSkips(s.events, s.owners, s.max, s.scripts);
    ThreadManagers.FirstSkipWins(s.events);
  }

  // When no benchmark function has skipped but some thread did not run its loop to the end, that is
  // reported as an error.
  lemma NotRunIsAnError(s: Joint)
    requires Reachable(s) && !CanMove(s)
    requires forall t, i :: 0 <= t < |s.scripts| && 0 <= i < |s.scripts[t].run| ==> !s.scripts[t].run[i].call.Skip?
    ensures var r := ThreadManagers.Outcome(s.events);
      if exists t :: 0 <= t < |s.scripts| && SkippedThread(s.max, s.scripts[t])
      then r.skipped == SkippedWithError && r.skipMessage == DID_NOT_RUN
      else r.skipped == NotSkipped
  {
    CompleteJointRun(s);
    InterleavingSkips(s.events, s.owners, s.max, s.scripts);
    ThreadManagers.FirstSkipWins(s.events);
    if i :| 0 <= i < |s.events| && s.events[i].Skip? {
      var k := FirstSkip(s.events, i);
      OnlyMarked(s.events, s.owners, s.max, s.scripts, k);
    }
  }

  lemma OnlyMarked(events: seq<ThreadManagers.Event>, owners: seq<nat>, max: int, scripts: seq<Script>, i: nat)
    requires Interleaving(events, owners, max, scripts) && i < |events| && events[i].Skip?
    requires forall k :: 0 <= k < |scripts[owners[i]].run| ==> !scripts[owners[i]].run[k].call.Skip?
    ensures events[i] == ThreadManagers.Skip(SkippedWithError, DID_NOT_RUN)
  {
    NothingSkipped(scripts[owners[i]].run);
    EventOfOwner(events, owners, owners[i]);
    assert events[i] in ThreadEvents(max, scripts[owners[i]]);
  }

  lemma {:induction false} NothingSkipped(run: seq<Event>)
    requires forall i :: 0 <= i < |run| ==> !run[i].call.Skip?
    ensures SkipsOf(run) == []
  {
    if run != [] {
      NothingSkipped(run[..|run| - 1]);
    }
  }

  lemma {:induction false} FirstSkip(events: seq<ThreadManagers.Event>, i: nat) returns (k: nat)
    requires i < |events| && events[i].Skip?
    ensures ThreadManagers.FirstSkipAt(events, k)
  {
    if j :| 0 <= j < i && events[j].Skip? {
      k := FirstSkip(events, j);
    } else {
      k := i;
    }
  }

  // ----- What the record says about the threads

  function WallOfSlices(): Worker -> real { (w: Worker) => WallTime(w.loop.slices) }

  function CpuOfSlices(): Worker -> real { (w: Worker) => CpuTime(w.loop.slices) }

  function ManualOfScript(): Script -> real { (x: Script) => ManualSeconds(x.run) }

  function ComplexityOfScript(): Script -> real { (x: Script) => x.complexityN as real }

  function CounterOfScript(key: string): Script -> real {
    (x: Script) => if key in x.counters then x.counters[key].value else 0.0
  }

  function ReportedBy(max: int): Script -> real {
    (x: Script) =>
      if LegalScript(max, x) then Reported(max, x.run, SkippedThread(max, x)) as real else 0.0
  }

  predicate HasCounter(scripts: seq<Script>, key: string) {
    exists t :: 0 <= t < |scripts| && key in scripts[t].counters
  }

  // After a complete run the record's real and CPU times are those of all the timer slices of all
  // threads, its manual time the seconds they set, its iterations those that their loops were
  // granted, and its counters the sums of those in the scripts.
  lemma RecordIsMeasured(s: Joint, key: string)
    requires Reachable(s) && !CanMove(s) && s.max >= 1
    ensures var r := ThreadManagers.Outcome(s.events);
      && r.realTime == Sum(WallOfSlices(), s.workers)
      && r.cpuTime == Sum(CpuOfSlices(), s.workers)
      && r.manualTime == Sum(ManualOfScript(), s.scripts)
      && r.iterations as real == Sum(ReportedBy(s.max), s.scripts)
      && r.complexityN as real == Sum(ComplexityOfScript(), s.scripts)
      && (key in r.counters <==> HasCounter(s.scripts, key))
      && (key in r.counters ==> r.counters[key].value == Sum(CounterOfScript(key), s.scripts))
  {
    CompleteJointRun(s);
    JointConservation(s, key);
    TimesMeasured(s);
    CountsMeasured(s.max, s.scripts, key);
  }

  lemma TimesMeasured(s: Joint)
    requires Reachable(s) && !CanMove(s) && s.max >= 1
    ensures AllLegal(s.max, s.scripts)
    ensures var left := Leavings(s.max, s.scripts);
      && Sum(ThreadManagers.RealTimeOf(), left) == Sum(WallOfSlices(), s.workers)
      && Sum(ThreadManagers.CpuTimeOf(), left) == Sum(CpuOfSlices(), s.workers)
  {
    CompleteJointRun(s);
    var left := Leavings(s.max, s.scripts);
    forall t | 0 <= t < |s.scripts|
      ensures left[t].realTime == WallTime(s.workers[t].loop.slices)
      ensures left[t].cpuTime == CpuTime(s.workers[t].loop.slices)
    {
      LeftIsMeasured(s.max, s.scripts[t], s.scripts[t].end);
    }
    SumPointwise(ThreadManagers.RealTimeOf(), left, WallOfSlices(), s.workers);
    SumPointwise(ThreadManagers.CpuTimeOf(), left, CpuOfSlices(), s.workers);
  }

  lemma CountsMeasured(max: int, scripts: seq<Script>, key: string)
    requires AllLegal(max, scripts) && max >= 1
    ensures var left := Leavings(max, scripts);
      && Sum(ThreadManagers.ManualTimeOf(), left) == Sum(ManualOfScript(), scripts)
      && Sum(ThreadManagers.IterationsOf(), left) == Sum(ReportedBy(max), scripts)
      && Sum(ThreadManagers.ComplexityOf(), left) == Sum(ComplexityOfScript(), scripts)
      && Sum(ThreadManagers.CounterShare(key), left) == Sum(CounterOfScript(key), scripts)
      && (ThreadManagers.SomeoneHolds(left, key) <==> HasCounter(scripts, key))
  {
    var left := Leavings(max, scripts);
    forall t | 0 <= t < |scripts|
      ensures left[t].manualTime == ManualSeconds(scripts[t].run)
      ensures left[t].iterations as real == ReportedBy(max)(scripts[t])
      ensures left[t].complexityN == scripts[t].complexityN && left[t].counters == scripts[t].counters
    {
      LeftIsMeasured(max, scripts[t], scripts[t].end);
    }
    SumPointwise(ThreadManagers.ManualTimeOf(), left, ManualOfScript(), scripts);
    SumPointwise(ThreadManagers.IterationsOf(), left, ReportedBy(max), scripts);
    SumPointwise(ThreadManagers.ComplexityOf(), left, ComplexityOfScript(), scripts);
    SumPointwise(ThreadManagers.CounterShare(key), left, CounterOfScript(key), scripts);
  }
}
