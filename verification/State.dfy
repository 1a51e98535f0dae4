/** The State class and its ranged-for iterator, tied method by method to the model. */
module States {
  import opened ThreadTimers
  import opened Loops
  import opened LoopVerdicts
  import ThreadManagers

  class State {
    const maxIterations: int
    const timer: ThreadTimer
    const manager: ThreadManagers.ThreadManager
    var totalIterations: int
    var batchLeftover: int
    var started: bool
    var finished: bool
    var skipped: Skipped
    ghost var style: Style
    ghost var accepted: int
    ghost var lastBatch: int
    ghost var bodies: int
    ghost var slices: seq<Slice>
    ghost var arrivals: seq<Arrival>

    ghost function View(): Loop
      reads this, timer
    {
      Loop(maxIterations, totalIterations, batchLeftover, started, finished, skipped, style,
           timer.View(), accepted, lastBatch, bodies, slices, arrivals)
    }

    // The source checks max_iters != 0.
    constructor (maxIters: int, t: ThreadTimer, m: ThreadManagers.ThreadManager)
      requires maxIters != 0 && t.View() == STOPPED
      ensures View() == Fresh(maxIters) && timer == t && manager == m
    {
      maxIterations, timer, manager := maxIters, t, m;
      totalIterations, batchLeftover := 0, 0;
      started, finished, skipped := false, false, NotSkipped;
      style, accepted, lastBatch, bodies, slices, arrivals := Undecided, 0, 0, 0, [], [];
    }

    method GetIterations() returns (n: int)
      ensures n == Iterations(View())
    {
      if !started {
        return 0;
      }
      n := maxIterations - totalIterations + batchLeftover;
    }

    method PauseTiming(now: Clock)
      requires Allowed(View(), Pause)
      modifies this, timer
      ensures View() == AfterCall(old(View()), Pause, now)
    {
      slices := slices + [Slice(timer.start, now)];
      timer.StopTimer(now);
    }

    method ResumeTiming(now: Clock)
      requires Allowed(View(), Resume)
      modifies timer
      ensures View() == AfterCall(old(View()), Resume, now)
    {
      timer.StartTimer(now);
    }

    method SkipWith(kind: Skipped, message: string, now: Clock)
      requires Allowed(View(), Skip(kind, message))
      modifies this, timer, manager
      ensures View() == AfterCall(old(View()), Skip(kind, message), now)
      ensures manager.results == ThreadManagers.WithSkip(old(manager.results), kind, message)
    {
      skipped := kind;
      manager.RecordSkip(kind, message);
      totalIterations := 0;
      if timer.running {
        slices := slices + [Slice(timer.start, now)];
        timer.StopTimer(now);
      }
    }

    method SetIterationTime(seconds: real)
      modifies timer
      ensures View() == old(View()).(timer := old(timer.View()).(manualUsed := old(timer.manualTimeUsed) + seconds))
    {
      timer.SetIterationTime(seconds);
    }

    // manager_->StartStopBarrier(): what the thread has done by then goes into the history; the
    // waiting itself is the subject of BarrierProtocol and StartStop.
    method ArriveAtBarrier()
      modifies this`arrivals
      ensures View() == Arrive(old(View()))
    {
      arrivals := arrivals + [Arrival(started, finished, timer.running)];
    }

    method StartKeepRunning(now: Clock)
      requires !started && !finished && !timer.running
      modifies this, timer
      ensures View() == AfterStart(old(View()), now)
    {
      started := true;
      totalIterations := if skipped != NotSkipped then 0 else maxIterations;
      ArriveAtBarrier();
      if skipped == NotSkipped {
        ResumeTiming(now);
      }
    }

    method FinishKeepRunning(now: Clock)
      requires MayFinish(View())
      modifies this, timer
      ensures View() == AfterFinish(old(View()), now)
    {
      if skipped == NotSkipped {
        PauseTiming(now);
      }
      totalIterations := 0;
      finished := true;
      ArriveAtBarrier();
    }

    method KeepRunningInternal(n: int, isBatch: bool, now: Clock) returns (more: bool)
      requires Allowed(View(), Keep(n, isBatch))
      requires !started ==> !finished && !timer.running
      modifies this, timer
      ensures (View(), more) == AfterKeep(old(View()).(style := Keeping), n, isBatch, now)
      ensures View() == AfterCall(old(View()), Keep(n, isBatch), now)
      ensures old(GrantInv(View())) ==> (more <==> !finished)
    {
      style := Keeping;
      if totalIterations >= n {
        totalIterations := totalIterations - n;
        accepted, lastBatch := accepted + n, n;
        return true;
      }
      if !started {
        StartKeepRunning(now);
        if skipped == NotSkipped && totalIterations >= n {
          totalIterations := totalIterations - n;
          accepted, lastBatch := accepted + n, n;
          return true;
        }
      }
      more := FinishBatch(n, isBatch, now);
    }

    // The end of KeepRunningInternal: a last batch that is larger than what is left, or the end
    // of the loop.
    method FinishBatch(n: int, isBatch: bool, now: Clock) returns (more: bool)
      requires (isBatch && totalIterations != 0) || MayFinish(View())
      modifies this, timer
      ensures (View(), more) == KeepStarted(old(View()), n, isBatch, now)
      ensures old(finished ==> totalIterations == 0) ==> (more <==> !finished)
    {
      if isBatch && totalIterations != 0 {
        batchLeftover := n - totalIterations;
        totalIterations := 0;
        accepted, lastBatch := accepted + n, n;
        return true;
      }
      FinishKeepRunning(now);
      more := false;
    }

    method KeepRunning(now: Clock) returns (more: bool)
      requires Allowed(View(), Keep(1, false))
      requires !started ==> !finished && !timer.running
      modifies this, timer
      ensures (View(), more) == AfterKeep(old(View()).(style := Keeping), 1, false, now)
      ensures old(GrantInv(View())) ==> (more <==> !finished)
    {
      more := KeepRunningInternal(1, false, now);
    }

    // `begin` is evaluated before `end`, so the iterator caches the count before the barrier.
    method Begin() returns (it: StateIterator)
      requires Allowed(View(), Loops.Begin)
      modifies this
      ensures forall now :: View() == AfterCall(old(View()), Loops.Begin, now)
      ensures fresh(it) && it.parent == this && it.Agrees()
    {
      it := new StateIterator(this);
      style := Ranging(it.cached, false);
    }

    method End(now: Clock)
      requires Allowed(View(), Loops.End) && !finished && !timer.running
      modifies this, timer
      ensures View() == AfterCall(old(View()), Loops.End, now)
    {
      StartKeepRunning(now);
    }
  }

  class StateIterator {
    var cached: int
    const parent: State

    ghost predicate Agrees()
      reads this, parent
    {
      parent.style.Ranging? && parent.style.cached == cached
    }

    constructor (st: State)
      ensures parent == st
      ensures cached == if IsSkipped(st.View()) then 0 else st.maxIterations
    {
      parent := st;
      cached := if st.skipped != NotSkipped then 0 else st.maxIterations;
    }

    method Increment()
      requires Agrees() && Allowed(parent.View(), Loops.Advance)
      modifies this, parent
      ensures Agrees()
      ensures forall now :: parent.View() == AfterCall(old(parent.View()), Loops.Advance, now)
    {
      cached := cached - 1;
      parent.style := Ranging(cached, false);
    }

    method NotEqual(now: Clock) returns (more: bool)
      requires Agrees() && Allowed(parent.View(), Loops.NotEqual)
      modifies parent, parent.timer
      ensures Agrees()
      ensures more == (cached != 0)
      ensures old(GrantInv(parent.View())) ==> (more <==> !parent.finished)
      ensures parent.View() == AfterCall(old(parent.View()), Loops.NotEqual, now)
    {
      if cached != 0 {
        parent.style := Ranging(cached, true);
        parent.bodies := parent.bodies + 1;
        return true;
      }
      parent.FinishKeepRunning(now);
      more := false;
    }
  }
}
