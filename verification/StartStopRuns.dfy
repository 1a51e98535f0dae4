/** The start/stop promise over every schedule. */
module StartStopRuns {
  import opened Loops
  import opened LoopRuns
  import opened BarrierProtocol
  import BarrierRuns
  import opened ThreadRuns
  import opened StartStop

  // ----- One thread

  // The loop once the call that is under way will have returned.
  function Pending(w: Worker, run: seq<Event>): Loop {
    match w.doing
    case AtStart(entered) =>
      if 1 <= w.next <= |run| then LastPart(SecondPart(if entered then w.loop else Arrive(w.loop), run[w.next - 1]))
      else w.loop
    case AtFinish(entered) => if entered then w.loop else Arrive(w.loop)
    case _ => w.loop
  }

  // A thread is where its script has led it.
  predicate OnScript(max: int, script: Script, w: Worker)
    requires LegalScript(max, script)
  {
    && w.next <= |script.run| && Legal(Fresh(max), script.run[..w.next])
    && (if w.doing.Merging? || w.doing.Leaving? then
          w.next == |script.run| && w.loop == Checked(After(Fresh(max), script.run), script.end)
        else Pending(w, script.run) == After(Fresh(max), script.run[..w.next]))
    && (w.doing.AtStart? ==> w.next >= 1)
  }

  // At the barrier the timer is stopped; the first call of the barrier is the one of the start.
  predicate InOrder(w: Worker) {
    match w.doing
    case AtStart(entered) =>
      w.loop.started && !w.loop.finished && !w.loop.timer.running && |w.loop.arrivals| == (if entered then 1 else 0)
    case AtFinish(entered) =>
      w.loop.started && w.loop.finished && !w.loop.timer.running && |w.loop.arrivals| >= (if entered then 2 else 1)
    case _ => TimerInv(w.loop)
  }

  // The first part of a call leaves the thread in order.
  lemma FirstPartInOrder(s: Loop, e: Event)
    requires TimerInv(s) && Allowed(s, e.call)
    ensures var (loop, stop) := FirstPart(s, e); InOrder(Worker(loop, 1, DoingAt(stop)))
  {
    CallKeepsTimerInv(s, e.call, e.now);
    PartsMakeCall(s, e);
  }

  lemma SecondPartInOrder(s: Loop, e: Event)
    requires s.started && !s.finished && !s.timer.running && |s.arrivals| == 1
    requires TimerInv(LastPart(SecondPart(s, e)))
    ensures var (loop, stop) := SecondPart(s, e); !stop.StartBarrier? && InOrder(Worker(loop, 1, DoingAt(stop)))
  {
  }

  predicate OnTrack(max: int, script: Script, w: Worker)
    requires LegalScript(max, script)
  {
    OnScript(max, script, w) && InOrder(w)
  }

  lemma NextCallKeepsThread(max: int, script: Script, w: Worker)
    requires LegalScript(max, script) && OnTrack(max, script, w) && CanWork(w, script.run)
    requires w.doing.Ready? && w.next < |script.run|
    ensures OnTrack(max, script, Worked(w, script)) && Worked(w, script).loop.arrivals == w.loop.arrivals
  {
    var e := script.run[w.next];
    LegalSnoc(Fresh(max), script.run, w.next);
    FirstPartInOrder(w.loop, e);
    PartsMakeCall(w.loop, e);
    PartKeepsArrivals(w.loop, e);
    var w' := Worked(w, script);
    assert Pending(w', script.run) == AfterCall(w.loop, e.call, e.now);
  }

  lemma PartKeepsArrivals(s: Loop, e: Event)
    ensures Allowed(s, e.call) ==> FirstPart(s, e).0.arrivals == s.arrivals
    ensures SecondPart(s, e).0.arrivals == s.arrivals
  {
  }

  lemma EndKeepsThread(max: int, script: Script, w: Worker)
    requires LegalScript(max, script) && OnTrack(max, script, w)
    requires w.doing.Ready? && w.next == |script.run|
    ensures OnTrack(max, script, Worked(w, script)) && Worked(w, script).loop.arrivals == w.loop.arrivals
  {
    assert script.run[..w.next] == script.run;
    CallKeepsTimerIfChecked(w.loop, script.end);
  }

  // Going on after the barrier of StartKeepRunning.
  lemma SecondPartContinues(s: Loop, e: Event, next: nat, run: seq<Event>)
    requires s.started && !s.finished && !s.timer.running && |s.arrivals| == 1
    requires TimerInv(LastPart(SecondPart(s, e)))
    ensures var p := SecondPart(s, e); var w := Worker(p.0, next, DoingAt(p.1));
      InOrder(w) && !w.doing.AtStart? && Pending(w, run) == LastPart(p) && w.loop.arrivals == s.arrivals
  {
    SecondPartInOrder(s, e);
    PartKeepsArrivals(s, e);
  }

  lemma ReleaseKeepsThread(max: int, script: Script, w: Worker)
    requires LegalScript(max, script) && OnTrack(max, script, w) && CanWork(w, script.run) && w.doing.AtStart?
    ensures OnTrack(max, script, Worked(w, script)) && Worked(w, script).loop.arrivals == w.loop.arrivals
  {
    var run, e := script.run, script.run[w.next - 1];
    RunKeepsTimerInv(Fresh(max), run[..w.next]);
    assert Pending(w, run) == LastPart(SecondPart(w.loop, e));
    SecondPartContinues(w.loop, e, w.next, run);
    ReleasedOnScript(max, script, w, Worked(w, script));
  }

  lemma ReleasedOnScript(max: int, script: Script, w: Worker, w': Worker)
    requires LegalScript(max, script) && OnScript(max, script, w) && w.doing.AtStart?
    requires w'.next == w.next && (w'.doing.Ready? || w'.doing.AtFinish?) && Pending(w', script.run) == Pending(w, script.run)
    ensures OnScript(max, script, w')
  {
  }

  lemma ReturnKeepsThread(max: int, script: Script, w: Worker)
    requires LegalScript(max, script) && OnTrack(max, script, w) && CanWork(w, script.run)
    requires w.doing.AtFinish? || w.doing.Merging?
    ensures OnTrack(max, script, Worked(w, script)) && Worked(w, script).loop.arrivals == w.loop.arrivals
  {
    RunKeepsTimerInv(Fresh(max), script.run[..w.next]);
  }

  lemma WorkKeepsThread(max: int, script: Script, w: Worker)
    requires LegalScript(max, script) && OnTrack(max, script, w) && CanWork(w, script.run)
    ensures OnTrack(max, script, Worked(w, script)) && Worked(w, script).loop.arrivals == w.loop.arrivals
  {
    match w.doing
    case Ready =>
      if w.next < |script.run| {
        NextCallKeepsThread(max, script, w);
      } else {
        EndKeepsThread(max, script, w);
      }
    case AtStart(_) => ReleaseKeepsThread(max, script, w);
    case AtFinish(_) => ReturnKeepsThread(max, script, w);
    case Merging => ReturnKeepsThread(max, script, w);
  }

  lemma EnterKeepsThread(max: int, script: Script, w: Worker)
    requires LegalScript(max, script) && OnTrack(max, script, w) && AtBarrier(w.doing, false)
    ensures OnTrack(max, script, Entered(w)) && |Entered(w).loop.arrivals| == |w.loop.arrivals| + 1
  {
  }

  // The arrivals only grow along a script.
  lemma {:induction false} ArrivalsGrow(s: Loop, run: seq<Event>, i: nat)
    requires i <= |run| && Legal(s, run)
    ensures Legal(s, run[..i]) && |After(s, run[..i]).arrivals| <= |After(s, run).arrivals|
    decreases |run| - i
  {
    if i < |run| {
      LegalSnoc(s, run, i);
      ArrivalsGrow(s, run, i + 1);
      CallKeepsArrivals(After(s, run[..i]), run[i]);
    } else {
      assert run[..i] == run;
    }
  }

  lemma CallKeepsArrivals(s: Loop, e: Event)
    requires Allowed(s, e.call)
    ensures |s.arrivals| <= |AfterCall(s, e.call, e.now).arrivals|
  {
  }

  // Calls of the barrier still to come.
  lemma WaitsToCome(max: int, script: Script, w: Worker)
    requires LegalScript(max, script) && OnTrack(max, script, w)
    ensures |w.loop.arrivals| + (if AtBarrier(w.doing, false) then 1 else 0) <= Waits(max, script)
    ensures w.doing.Merging? || w.doing.Leaving? ==> |w.loop.arrivals| == Waits(max, script)
  {
    ArrivalsGrow(Fresh(max), script.run, w.next);
    if w.doing.AtStart? {
      var e := script.run[w.next - 1];
      PartKeepsArrivals(if w.doing.entered then w.loop else Arrive(w.loop), e);
    }
  }

  // ----- All threads

  // A thread and its place in the barrier protocol.
  predicate Coupled(th: Thread, w: Worker, waits: nat) {
    && th.begun == |w.loop.arrivals| && th.begun + th.plan == waits
    && (th.at.Gone? ==> w.doing.Leaving?)
    && (th.at.InWait? || th.at.OwesNotify? ==> AtBarrier(w.doing, true))
  }

  predicate JointInv(s: Joint) {
    && AllLegal(s.max, s.scripts) && |s.workers| == |s.scripts| == |s.barrier.threads|
    && Inv(s.barrier)
    && forall t :: 0 <= t < |s.workers| ==>
         && OnTrack(s.max, s.scripts[t], s.workers[t])
         && Coupled(s.barrier.threads[t], s.workers[t], Waits(s.max, s.scripts[t]))
  }

  lemma BegunInv(max: int, scripts: seq<Script>)
    requires AllLegal(max, scripts)
    ensures JointInv(Begun(max, scripts))
  {
    InitInv(Plans(max, scripts));
    forall t | 0 <= t < |scripts| ensures OnTrack(max, scripts[t], Worker(Fresh(max), 0, Ready)) {
      assert scripts[t].run[..0] == [];
    }
  }

  // A step of the barrier leaves the other threads' programs alone.
  lemma OthersOnlyWake(s: System, l: Label, u: nat)
    requires Enabled(s, l) && u < |s.threads| && u != l.thread
    ensures Step(s, l).threads[u] == s.threads[u] || Step(s, l).threads[u] == Wake(s.threads[u])
  {
  }

  lemma BarrierStepKeepsCoupling(s: System, l: Label, w: Worker, waits: nat)
    requires Enabled(s, l) && Coupled(s.threads[l.thread], w, waits)
    requires l.action.CallWait? ==> AtBarrier(w.doing, false)
    requires l.action.CallRemove? ==> w.doing.Leaving?
    ensures Coupled(Step(s, l).threads[l.thread], if l.action.CallWait? then Entered(w) else w, waits)
  {
  }

  lemma BarrierMoveKeepsInv(s: Joint, l: Label)
    requires JointInv(s) && Possible(s, OnBarrier(l))
    ensures JointInv(Moved(s, OnBarrier(l)))
  {
    var s' := Moved(s, OnBarrier(l));
    BarrierRuns.StepKeepsInv(s.barrier, l);
    forall t | 0 <= t < |s.workers|
      ensures OnTrack(s.max, s.scripts[t], s'.workers[t])
      ensures Coupled(s'.barrier.threads[t], s'.workers[t], Waits(s.max, s.scripts[t]))
    {
      if t == l.thread {
        BarrierStepKeepsCoupling(s.barrier, l, s.workers[t], Waits(s.max, s.scripts[t]));
        if l.action.CallWait? {
          EnterKeepsThread(s.max, s.scripts[t], s.workers[t]);
        }
      } else {
        OthersOnlyWake(s.barrier, l, t);
      }
    }
  }

  lemma WorkMoveKeepsInv(s: Joint, t: nat)
    requires JointInv(s) && Possible(s, Work(t))
    ensures JointInv(Moved(s, Work(t)))
  {
    WorkKeepsThread(s.max, s.scripts[t], s.workers[t]);
  }

  lemma {:induction false} PlayedInv(s: Joint, moves: seq<Move>)
    requires JointInv(s) && Playable(s, moves)
    ensures JointInv(Played(s, moves))
    decreases |moves|
  {
    if moves != [] {
      MoveKeepsInv(s, moves[0]);
      PlayedInv(Moved(s, moves[0]), moves[1..]);
    }
  }

  lemma MoveKeepsInv(s: Joint, m: Move)
    requires JointInv(s) && Possible(s, m)
    ensures JointInv(Moved(s, m))
  {
    match m
    case Work(t) => WorkMoveKeepsInv(s, t);
    case OnBarrier(l) => BarrierMoveKeepsInv(s, l);
  }

  // Some schedule from the beginning leads to s. (That the lists have the same length follows.)
  ghost predicate Reachable(s: Joint) {
    && |s.workers| == |s.scripts| == |s.barrier.threads| && AllLegal(s.max, s.scripts)
    && exists moves :: Playable(Begun(s.max, s.scripts), moves) && s == Played(Begun(s.max, s.scripts), moves)
  }

  lemma ReachedInv(s: Joint)
    requires Reachable(s)
    ensures JointInv(s)
  {
    var moves :| Playable(Begun(s.max, s.scripts), moves) && s == Played(Begun(s.max, s.scripts), moves);
    BegunInv(s.max, s.scripts);
    PlayedInv(Begun(s.max, s.scripts), moves);
  }

  // ----- The start/stop promise

  predicate HasLeft(s: Joint, t: nat)
    requires t < |s.barrier.threads|
  {
    s.barrier.threads[t].at.Gone?
  }

  // The thread is past the barrier of StartKeepRunning, and past that of FinishKeepRunning.
  predicate PastTheStart(w: Worker) {
    w.loop.started && !w.doing.AtStart?
  }

  predicate PastTheEnd(w: Worker) {
    w.loop.finished && !w.doing.AtFinish?
  }

  // Who is past a barrier has seen the phase completed, so all others have come to it.
  lemma PhaseBehind(s: Joint, t: nat)
    requires JointInv(s) && t < |s.workers|
    ensures PastTheStart(s.workers[t]) ==> s.barrier.shared.phase >= 1
    ensures PastTheEnd(s.workers[t]) ==> s.barrier.shared.phase >= 2
    ensures s.workers[t].loop.timer.running ==> PastTheStart(s.workers[t])
  {
    assert OnTrack(s.max, s.scripts[t], s.workers[t]);
    assert InStep(s.barrier.threads[t], s.barrier.shared.phase);
  }

  lemma PhaseAhead(s: Joint, u: nat)
    requires JointInv(s) && u < |s.workers| && !HasLeft(s, u)
    ensures |s.workers[u].loop.arrivals| >= s.barrier.shared.phase
    ensures s.barrier.shared.phase >= 2 ==> s.workers[u].loop.finished && !s.workers[u].loop.timer.running
  {
    assert OnTrack(s.max, s.scripts[u], s.workers[u]);
    assert InStep(s.barrier.threads[u], s.barrier.shared.phase);
  }

  // No thread starts the timed loop before all reach it: while the timer of one thread runs,
  // and ever after it has passed the start, every other thread has come to its start or left.
  lemma StartTogether(s: Joint, t: nat, u: nat)
    requires Reachable(s) && t < |s.workers| && u < |s.workers|
    ensures s.workers[t].loop.timer.running ==> PastTheStart(s.workers[t])
    ensures PastTheStart(s.workers[t]) ==>
      HasLeft(s, u) || (s.workers[u].loop.started && s.workers[u].loop.arrivals != [])
  {
    ReachedInv(s);
    PhaseBehind(s, t);
    if PastTheStart(s.workers[t]) && !HasLeft(s, u) {
      PhaseAhead(s, u);
      ArrivedIsStarted(s, u);
    }
  }

  lemma ArrivedIsStarted(s: Joint, u: nat)
    requires JointInv(s) && u < |s.workers| && s.workers[u].loop.arrivals != []
    ensures s.workers[u].loop.started
  {
    assert OnTrack(s.max, s.scripts[u], s.workers[u]);
  }

  // None passes the end of the loop before all finish: when one thread has, every other has
  // finished its loop or left, and no timer runs any more but that of a thread whose function
  // returned in the last batch.
  lemma FinishTogether(s: Joint, t: nat, u: nat)
    requires Reachable(s) && t < |s.workers| && u < |s.workers| && s.max >= 1
    ensures PastTheEnd(s.workers[t]) ==>
      && (HasLeft(s, u) || s.workers[u].loop.finished)
      && (s.workers[u].loop.timer.running ==> HasLeft(s, u) && LeftInLastBatch(After(Fresh(s.max), s.scripts[u].run)))
  {
    ReachedInv(s);
    PhaseBehind(s, t);
    if HasLeft(s, u) {
      TimerOfLeaver(s, u);
    } else if PastTheEnd(s.workers[t]) {
      PhaseAhead(s, u);
    }
  }

  lemma TimerOfLeaver(s: Joint, u: nat)
    requires JointInv(s) && u < |s.workers| && HasLeft(s, u) && s.max >= 1
    ensures s.workers[u].loop.timer.running ==> LeftInLastBatch(After(Fresh(s.max), s.scripts[u].run))
  {
    var script := s.scripts[u];
    assert OnTrack(s.max, script, s.workers[u]);
    ThreadReport(s.max, script.run, script.end);
  }
}
