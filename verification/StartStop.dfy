/** Threads that run benchmark loops over one barrier: the start/stop promise of the library.

    Each thread carries out a script of calls on its own State. A call that reaches
    StartStopBarrier stops there: the thread enters the protocol of BarrierProtocol and goes on
    with the rest of the call when its wait has returned. At the end of its script a thread
    checks itself, merges its results into the shared record and leaves the barrier. */
module StartStop {
  import opened Loops
  import opened LoopRuns
  import opened ThreadTimers
  import opened BarrierProtocol
  import ThreadManagers
  import opened ThreadRuns

  // Where a call has got to: done, or about to call the barrier.
  datatype Stop = Done | StartBarrier | FinishBarrier

  function KeepRest(s: Loop, n: int, isBatch: bool, now: Clock): (Loop, Stop) {
    if isBatch && s.total != 0 then (Grant(s, n).(leftover := n - s.total, total := 0), Done)
    else (ToFinish(s, now), FinishBarrier)
  }

  // A call up to its first barrier, or to its end.
  function FirstPart(s: Loop, e: Event): (Loop, Stop)
    requires Allowed(s, e.call)
  {
    match e.call
    case Keep(n, isBatch) =>
      var s' := s.(style := Keeping);
      if s'.total >= n then (Grant(s', n).(total := s'.total - n), Done)
      else if !s'.started then (ToStart(s'), StartBarrier)
      else KeepRest(s', n, isBatch, e.now)
    case End => (ToStart(s), StartBarrier)
    case NotEqual =>
      if s.style.cached != 0 then (AfterCall(s, e.call, e.now), Done) else (ToFinish(s, e.now), FinishBarrier)
    case _ => (AfterCall(s, e.call, e.now), Done)
  }

  // What follows the barrier of StartKeepRunning within the same call.
  function SecondPart(s: Loop, e: Event): (Loop, Stop) {
    var s' := Released(s, e.now);
    match e.call
    case Keep(n, isBatch) =>
      if !IsSkipped(s') && s'.total >= n then (Grant(s', n).(total := s'.total - n), Done)
      else KeepRest(s', n, isBatch, e.now)
    case _ => (s', Done)
  }

  function LastPart(p: (Loop, Stop)): Loop {
    if p.1.Done? then p.0 else Arrive(p.0)
  }

  // The parts with their barrier calls make up the call.
  lemma PartsMakeCall(s: Loop, e: Event)
    requires Allowed(s, e.call)
    ensures var p := FirstPart(s, e);
      AfterCall(s, e.call, e.now) ==
        if p.1.StartBarrier? then LastPart(SecondPart(Arrive(p.0), e)) else LastPart(p)
  {
  }

  // ----- The system

  datatype Doing =
    | Ready                       // between calls
    | AtStart(entered: bool)      // in StartKeepRunning, before or in its barrier call
    | AtFinish(entered: bool)     // in FinishKeepRunning, before or in its barrier call
    | Merging                     // checked, about to add to the shared record
    | Leaving                     // done but for leaving the barrier

  // `next` calls of the script have been begun.
  datatype Worker = Worker(loop: Loop, next: nat, doing: Doing)

  // The shared record is the list of its events, with the thread that caused each.
  datatype Joint = Joint(
    max: int, scripts: seq<Script>,
    barrier: System, workers: seq<Worker>,
    events: seq<ThreadManagers.Event>, owners: seq<nat>)

  datatype Move = Work(thread: nat) | OnBarrier(step: Label)

  function DoingAt(stop: Stop): Doing {
    match stop
    case Done => Ready
    case StartBarrier => AtStart(false)
    case FinishBarrier => AtFinish(false)
  }

  predicate AtBarrier(d: Doing, entered: bool) {
    d == AtStart(entered) || d == AtFinish(entered)
  }

  // A thread outside the barrier can go on, unless its next step is to call it or to leave it.
  predicate CanWork(w: Worker, run: seq<Event>) {
    match w.doing
    case Ready => w.next <= |run| && (w.next < |run| ==> Allowed(w.loop, run[w.next].call))
    case AtStart(entered) => entered && 1 <= w.next <= |run|
    case AtFinish(entered) => entered
    case Merging => true
    case Leaving => false
  }

  function Worked(w: Worker, script: Script): Worker
    requires CanWork(w, script.run)
  {
    match w.doing
    case Ready =>
      if w.next < |script.run| then
        var (loop, stop) := FirstPart(w.loop, script.run[w.next]);
        Worker(loop, w.next + 1, DoingAt(stop))
      else w.(loop := Checked(w.loop, script.end), doing := Merging)
    case AtStart(_) =>
      var (loop, stop) := SecondPart(w.loop, script.run[w.next - 1]);
      Worker(loop, w.next, DoingAt(stop))
    case AtFinish(_) => w.(doing := Ready)
    case Merging => w.(doing := Leaving)
    case Leaving => w
  }

  // What the step does to the shared record.
  function Records(w: Worker, script: Script): seq<ThreadManagers.Event>
    requires CanWork(w, script.run)
  {
    match w.doing
    case Ready =>
      if w.next < |script.run| then
        match script.run[w.next].call
        case Skip(kind, message) => [ThreadManagers.Skip(kind, message)]
        case _ => []
      else if !IsSkipped(w.loop) && IsSkipped(Checked(w.loop, script.end)) then
        [ThreadManagers.Skip(SkippedWithError, DID_NOT_RUN)]
      else []
    case Merging => [ThreadManagers.Finish(Left(w.loop, script))]
    case _ => []
  }

  predicate Possible(s: Joint, m: Move) {
    |s.workers| == |s.scripts| == |s.barrier.threads| &&
    match m
    case Work(t) =>
      t < |s.workers| && s.barrier.threads[t].at.Outside? && CanWork(s.workers[t], s.scripts[t].run)
    case OnBarrier(l) =>
      && Enabled(s.barrier, l)
      && (l.action.CallWait? ==> AtBarrier(s.workers[l.thread].doing, false))
      && (l.action.CallRemove? ==> s.workers[l.thread].doing.Leaving?)
  }

  function Entered(w: Worker): Worker {
    Worker(Arrive(w.loop), w.next, if w.doing.AtStart? then AtStart(true) else AtFinish(true))
  }

  function Repeated(t: nat, n: nat): seq<nat> {
    seq(n, i => t)
  }

  function Moved(s: Joint, m: Move): (s': Joint)
    requires Possible(s, m)
    ensures s'.max == s.max && s'.scripts == s.scripts && |s'.workers| == |s.workers|
  {
    match m
    case Work(t) =>
      var more := Records(s.workers[t], s.scripts[t]);
      s.(workers := s.workers[t := Worked(s.workers[t], s.scripts[t])],
         events := s.events + more, owners := s.owners + Repeated(t, |more|))
    case OnBarrier(l) =>
      s.(barrier := Step(s.barrier, l),
         workers := if l.action.CallWait? then s.workers[l.thread := Entered(s.workers[l.thread])] else s.workers)
  }

  // A thread will wait as often as its script makes it.
  function Waits(max: int, script: Script): nat
    requires LegalScript(max, script)
  {
    |After(Fresh(max), script.run).arrivals|
  }

  predicate AllLegal(max: int, scripts: seq<Script>) {
    forall t :: 0 <= t < |scripts| ==> LegalScript(max, scripts[t])
  }

  function Plans(max: int, scripts: seq<Script>): seq<nat>
    requires AllLegal(max, scripts)
  {
    seq(|scripts|, t requires 0 <= t < |scripts| => Waits(max, scripts[t]))
  }

  function Begun(max: int, scripts: seq<Script>): Joint
    requires AllLegal(max, scripts)
  {
    Joint(max, scripts, Init(Plans(max, scripts)), seq(|scripts|, t => Worker(Fresh(max), 0, Ready)), [], [])
  }

  predicate Playable(s: Joint, moves: seq<Move>)
    decreases |moves|
  {
    moves == [] || (Possible(s, moves[0]) && Playable(Moved(s, moves[0]), moves[1..]))
  }

  function Played(s: Joint, moves: seq<Move>): (s': Joint)
    requires Playable(s, moves)
    ensures s'.max == s.max && s'.scripts == s.scripts
    decreases |moves|
  {
    if moves == [] then s else Played(Moved(s, moves[0]), moves[1..])
  }
}
