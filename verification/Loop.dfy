/** The iteration machine of `State` (include/benchmark/benchmark.h, src/benchmark.cc):
    KeepRunning, KeepRunningBatch, the ranged-for iterator, the two Skip calls and
    Pause/ResumeTiming.

    `Loop` is the value of a State together with its timer, its ranged-for iterator and a
    history of what happened (accepted batches, timer slices, arrivals at the barrier). */
module Loops {
  import opened ThreadTimers

  datatype Skipped = NotSkipped | SkippedWithMessage | SkippedWithError

  // Which of the two loop styles the benchmark function uses.
  datatype Style = Undecided | Keeping | Ranging(cached: int, inBody: bool)

  // What a thread had done when it called the barrier.
  datatype Arrival = Arrival(started: bool, finished: bool, timerRunning: bool)

  datatype Loop = Loop(
    max: int, total: int, leftover: int,
    started: bool, finished: bool, skip: Skipped,
    style: Style, timer: Timer,
    accepted: int,          // iterations granted to the caller so far
    lastBatch: int,         // size of the last granted batch
    bodies: int,            // ranged-for bodies entered
    slices: seq<Slice>,     // completed timer slices
    arrivals: seq<Arrival>) // what the State was at each call of StartStopBarrier

  datatype Call =
    | Keep(n: int, isBatch: bool)
    | Begin | End | NotEqual | Advance
    | Pause | Resume
    | Skip(kind: Skipped, message: string)
    | SetTime(seconds: real)

  function Fresh(max: int): Loop {
    Loop(max, 0, 0, false, false, NotSkipped, Undecided, STOPPED, 0, 0, 0, [], [])
  }

  predicate IsSkipped(s: Loop) { s.skip != NotSkipped }

  // State::iterations
  function Iterations(s: Loop): int {
    if !s.started then 0 else s.max - s.total + s.leftover
  }

  function StopNow(s: Loop, now: Clock): Loop {
    s.(timer := Halted(s.timer, now), slices := s.slices + [Slice(s.timer.start, now)])
  }

  // StartStopBarrier, as far as the calling thread's State goes.
  function Arrive(s: Loop): Loop {
    s.(arrivals := s.arrivals + [Arrival(s.started, s.finished, s.timer.running)])
  }

  // StartKeepRunning up to the barrier, and from there.
  function ToStart(s: Loop): Loop {
    s.(started := true, total := if IsSkipped(s) then 0 else s.max)
  }

  function Released(s: Loop, now: Clock): Loop {
    if IsSkipped(s) then s else s.(timer := Started(s.timer, now))
  }

  function AfterStart(s: Loop, now: Clock): Loop {
    Released(Arrive(ToStart(s)), now)
  }

  // FinishKeepRunning up to the barrier, which is its last step.
  function ToFinish(s: Loop, now: Clock): Loop {
    (if IsSkipped(s) then s else StopNow(s, now)).(total := 0, finished := true)
  }

  function AfterFinish(s: Loop, now: Clock): Loop {
    Arrive(ToFinish(s, now))
  }

  predicate MayFinish(s: Loop) {
    s.started && (IsSkipped(s) || (!s.finished && s.timer.running))
  }

  function Grant(s: Loop, n: int): Loop {
    s.(accepted := s.accepted + n, lastBatch := n)
  }

  // KeepRunningInternal once the loop has been started (or was about to be).
  function KeepStarted(s: Loop, n: int, isBatch: bool, now: Clock): (Loop, bool) {
    if isBatch && s.total != 0 then (Grant(s, n).(leftover := n - s.total, total := 0), true)
    else (AfterFinish(s, now), false)
  }

  function AfterKeep(s: Loop, n: int, isBatch: bool, now: Clock): (Loop, bool) {
    if s.total >= n then (Grant(s, n).(total := s.total - n), true)
    else if !s.started then
      var s' := AfterStart(s, now);
      if !IsSkipped(s') && s'.total >= n then (Grant(s', n).(total := s'.total - n), true)
      else KeepStarted(s', n, isBatch, now)
    else KeepStarted(s, n, isBatch, now)
  }

  // No check of the source fails, and the documented contract of the call holds.
  predicate Allowed(s: Loop, c: Call) {
    match c
    case Keep(n, isBatch) =>
      && n > 0 && (isBatch || n == 1) && !s.style.Ranging?
      && (s.total >= n || !s.started || (isBatch && s.total != 0) || MayFinish(s))
    case Begin => s.style.Undecided? && !s.started
    case End => s.style.Ranging? && !s.started
    case NotEqual => s.style.Ranging? && s.started && !s.style.inBody && (s.style.cached != 0 || MayFinish(s))
    case Advance => s.style.Ranging? && s.style.inBody && s.style.cached > 0
    case Pause => s.started && !s.finished && !IsSkipped(s) && s.timer.running
    case Resume => s.started && !s.finished && !IsSkipped(s) && !s.timer.running
    case Skip(kind, _) => kind != NotSkipped && !IsSkipped(s)
    case SetTime(_) => true
  }

  function AfterCall(s: Loop, c: Call, now: Clock): Loop
    requires Allowed(s, c)
  {
    match c
    case Keep(n, isBatch) => AfterKeep(s.(style := Keeping), n, isBatch, now).0
    case Begin => s.(style := Ranging(if IsSkipped(s) then 0 else s.max, false))
    case End => AfterStart(s, now)
    case NotEqual =>
      if s.style.cached != 0 then s.(style := s.style.(inBody := true), bodies := s.bodies + 1)
      else AfterFinish(s, now)
    case Advance => s.(style := Ranging(s.style.cached - 1, false))
    case Pause => StopNow(s, now)
    case Resume => s.(timer := Started(s.timer, now))
    case Skip(kind, _) =>
      var s' := s.(skip := kind, total := 0);
      if s.timer.running then StopNow(s', now) else s'
    case SetTime(seconds) => s.(timer := s.timer.(manualUsed := s.timer.manualUsed + seconds))
  }

  // A run of the benchmark function: the calls it makes, with the clock reading each one sees.
  datatype Event = Event(call: Call, now: Clock)

  predicate Legal(s: Loop, run: seq<Event>)
    decreases |run|
  {
    run == [] || (Allowed(s, run[0].call) && Legal(AfterCall(s, run[0].call, run[0].now), run[1..]))
  }

  function After(s: Loop, run: seq<Event>): Loop
    requires Legal(s, run)
    decreases |run|
  {
    if run == [] then s else After(AfterCall(s, run[0].call, run[0].now), run[1..])
  }
}
