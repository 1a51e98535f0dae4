/** The start/stop barrier of src/mutex.h.

    `Barrier` is the class itself. A thread that waits on a condition variable gives the
    lock back, so `createBarrier` is two critical sections: `Enter` runs from taking the
    lock to falling asleep (or to opening the barrier), `Recheck` runs each time a
    sleeping thread is woken and holds the lock again. Every method is tied to a function
    on `Shared`, the value of the three guarded integers; the protocol in BarrierProtocol
    is built from the same functions. */
module Barriers {
  // The integers guarded by lock_.
  datatype Shared = Shared(running: int, phase: int, entered: int)

  // What a critical section of `wait` ends in.
  datatype Verdict =
    | Sleep          // the wait predicate is false: block in the condition variable
    | ReturnFalse    // somebody else opened the barrier
    | ReturnTrue     // this thread opened the barrier and owes a notify_all

  function Open(s: Shared): Shared {
    s.(phase := s.phase + 1, entered := 0)
  }

  function AfterEnter(s: Shared): (Shared, Verdict) {
    var s' := s.(entered := s.entered + 1);
    if s'.entered < s'.running then (s', Sleep) else (Open(s'), ReturnTrue)
  }

  // The predicate passed to phase_condition_.wait.
  predicate MayProceed(s: Shared, savedPhase: int) {
    s.phase > savedPhase || s.entered == s.running
  }

  function AfterRecheck(s: Shared, savedPhase: int): (Shared, Verdict) {
    if !MayProceed(s, savedPhase) then (s, Sleep)
    else if s.phase > savedPhase then (s, ReturnFalse)
    else (Open(s), ReturnTrue)
  }

  function AfterRemove(s: Shared): (Shared, bool) {
    (s.(running := s.running - 1), s.entered != 0)
  }

  class Barrier {
    var runningThreads: int
    var phaseNumber: int
    var entered: int

    ghost function View(): Shared
      reads this
    {
      Shared(runningThreads, phaseNumber, entered)
    }

    constructor (numThreads: int)
      ensures View() == Shared(numThreads, 0, 0)
    {
      runningThreads, phaseNumber, entered := numThreads, 0, 0;
    }

    // The source aborts when the check `entered_ < running_threads_` fails.
    method Enter() returns (savedPhase: int, verdict: Verdict)
      requires entered < runningThreads
      modifies this
      ensures (View(), verdict) == AfterEnter(old(View()))
      ensures savedPhase == old(phaseNumber)
    {
      savedPhase := phaseNumber;
      entered := entered + 1;
      if entered < runningThreads {
        verdict := Sleep;
      } else {
        phaseNumber := phaseNumber + 1;
        entered := 0;
        verdict := ReturnTrue;
      }
    }

    method Recheck(savedPhase: int) returns (verdict: Verdict)
      modifies this
      ensures (View(), verdict) == AfterRecheck(old(View()), savedPhase)
    {
      if !(phaseNumber > savedPhase || entered == runningThreads) {
        return Sleep;
      }
      if phaseNumber > savedPhase {
        return ReturnFalse;
      }
      phaseNumber := phaseNumber + 1;
      entered := 0;
      verdict := ReturnTrue;
    }

    method RemoveThread() returns (notifyAll: bool)
      modifies this
      ensures (View(), notifyAll) == AfterRemove(old(View()))
    {
      runningThreads := runningThreads - 1;
      notifyAll := entered != 0;
    }
  }
}

/** All interleavings of n threads over one barrier. A thread's program is some number of
    waits (its `plan`) followed by one removeThread; different threads may have different
    plans. Critical sections are atomic, a notify_all issued outside the lock is a step of
    its own, and a sleeping thread may wake up spuriously at any time. */
module BarrierProtocol {
  import opened Barriers
  import opened Sums

  datatype Point =
    | Outside                                   // between barrier calls
    | InWait(savedPhase: int, woken: bool)      // blocked in, or woken from, the condition variable
    | OwesNotify                                // opened the barrier, notify_all still to come
    | Gone                                      // has called removeThread

  // `begun` counts the waits begun; `outcomes` holds the results decided so far.
  datatype Thread = Thread(at: Point, plan: nat, begun: nat, outcomes: seq<bool>)

  // `openers[p]` is the thread whose wait returned true in phase p.
  datatype System = System(shared: Shared, threads: seq<Thread>, openers: seq<nat>)

  datatype Action = CallWait | SpuriousWake | RecheckPredicate | NotifyAll | CallRemove

  datatype Label = Label(thread: nat, action: Action)

  function Wake(th: Thread): Thread {
    if th.at.InWait? then th.(at := th.at.(woken := true)) else th
  }

  function WakeAll(ts: seq<Thread>): (r: seq<Thread>)
    ensures |r| == |ts| && forall i :: 0 <= i < |ts| ==> r[i] == Wake(ts[i])
  {
    seq(|ts|, i requires 0 <= i < |ts| => Wake(ts[i]))
  }

  predicate Enabled(s: System, l: Label) {
    l.thread < |s.threads| &&
    var th := s.threads[l.thread];
    match l.action
    case CallWait => th.at.Outside? && th.plan > 0
    case SpuriousWake => th.at.InWait? && !th.at.woken
    case RecheckPredicate => th.at.InWait? && th.at.woken
    case NotifyAll => th.at.OwesNotify?
    case CallRemove => th.at.Outside? && th.plan == 0
  }

  // The thread `t`, now `th`, leaves a critical section of `wait` with the given verdict.
  function Settle(s: System, shared: Shared, t: nat, th: Thread, savedPhase: int, v: Verdict): System
    requires t < |s.threads|
  {
    match v
    case Sleep =>
      s.(shared := shared, threads := s.threads[t := th.(at := InWait(savedPhase, false))])
    case ReturnFalse =>
      s.(shared := shared,
         threads := s.threads[t := th.(at := Outside, outcomes := th.outcomes + [false])])
    case ReturnTrue =>
      s.(shared := shared,
         threads := s.threads[t := th.(at := OwesNotify, outcomes := th.outcomes + [true])],
         openers := s.openers + [t])
  }

  function Step(s: System, l: Label): (s': System)
    requires Enabled(s, l)
    ensures |s'.threads| == |s.threads|
  {
    var t, th := l.thread, s.threads[l.thread];
    match l.action
    case CallWait =>
      var (shared, v) := AfterEnter(s.shared);
      Settle(s, shared, t, th.(plan := th.plan - 1, begun := th.begun + 1), s.shared.phase, v)
    case SpuriousWake =>
      s.(threads := s.threads[t := Wake(th)])
    case RecheckPredicate =>
      var (shared, v) := AfterRecheck(s.shared, th.at.savedPhase);
      Settle(s, shared, t, th, th.at.savedPhase, v)
    case NotifyAll =>
      s.(threads := WakeAll(s.threads[t := th.(at := Outside)]))
    case CallRemove =>
      var (shared, notify) := AfterRemove(s.shared);
      var ts := s.threads[t := th.(at := Gone)];
      s.(shared := shared, threads := if notify then WakeAll(ts) else ts)
  }

  function Init(plans: seq<nat>): System {
    System(Shared(|plans|, 0, 0),
           seq(|plans|, i requires 0 <= i < |plans| => Thread(Outside, plans[i], 0, [])),
           [])
  }

  predicate Schedulable(s: System, run: seq<Label>)
    decreases |run|
  {
    run == [] || (Enabled(s, run[0]) && Schedulable(Step(s, run[0]), run[1..]))
  }

  function Final(s: System, run: seq<Label>): (s': System)
    requires Schedulable(s, run)
    ensures |s'.threads| == |s.threads|
    decreases |run|
  {
    if run == [] then s else Final(Step(s, run[0]), run[1..])
  }

  // ----- The inductive invariant

  function Live(th: Thread): int { if th.at.Gone? then 0 else 1 }

  predicate WaitsIn(th: Thread, phase: int) { th.at.InWait? && th.at.savedPhase == phase }

  function WaitingIn(phase: int): Thread -> int {
    (th: Thread) => if WaitsIn(th, phase) then 1 else 0
  }

  predicate Asleep(th: Thread) { th.at.InWait? && !th.at.woken }

  predicate SomebodyOwes(ts: seq<Thread>) {
    exists u :: 0 <= u < |ts| && ts[u].at.OwesNotify?
  }

  // The counters mean what their names say.
  predicate Counting(s: System) {
    && s.shared.running == Sum(Live, s.threads)
    && s.shared.entered == Sum(WaitingIn(s.shared.phase), s.threads)
    && s.shared.phase == |s.openers|
  }

  // A live thread has taken part in every completed phase, and a waiter is at most one behind.
  predicate InStep(th: Thread, phase: int) {
    match th.at
    case Outside => th.begun == |th.outcomes| == phase
    case OwesNotify => th.begun == |th.outcomes| == phase
    case InWait(saved, _) =>
      th.begun == saved + 1 && |th.outcomes| == saved && saved <= phase <= saved + 1
    case Gone => th.begun == |th.outcomes| <= phase
  }

  // A wait returned true exactly when its thread is the recorded opener of that phase.
  predicate OutcomesMatch(s: System) {
    && (forall t, p :: 0 <= t < |s.threads| && 0 <= p < |s.threads[t].outcomes| && p < |s.openers| ==>
          (s.threads[t].outcomes[p] <==> s.openers[p] == t))
    && (forall p :: 0 <= p < |s.openers| ==>
          s.openers[p] < |s.threads| && p < |s.threads[s.openers[p]].outcomes|)
  }

  // A sleeper whose predicate holds still has a notify_all coming.
  predicate NoLostWakeUp(s: System) {
    forall t :: 0 <= t < |s.threads| && Asleep(s.threads[t]) ==>
      && s.shared.entered != s.shared.running
      && (s.shared.phase > s.threads[t].at.savedPhase ==> SomebodyOwes(s.threads))
  }

  predicate Inv(s: System) {
    && Counting(s)
    && (forall t :: 0 <= t < |s.threads| ==> InStep(s.threads[t], s.shared.phase))
    && OutcomesMatch(s)
    && NoLostWakeUp(s)
  }

  // entered_ never exceeds running_threads_; a live thread that is not waiting in the
  // current phase keeps it strictly below; when the two are equal every live thread waits.
  lemma EnteredVersusRunning(s: System)
    requires Counting(s)
    ensures 0 <= s.shared.entered <= s.shared.running
    ensures s.shared.entered == s.shared.running ==>
              forall t :: 0 <= t < |s.threads| && !s.threads[t].at.Gone? ==> WaitsIn(s.threads[t], s.shared.phase)
  {
    var f := WaitingIn(s.shared.phase);
    SumNonNegative(f, s.threads);
    SumDominated(f, Live, s.threads);
    if s.shared.entered == s.shared.running {
      forall t | 0 <= t < |s.threads| && !s.threads[t].at.Gone?
        ensures WaitsIn(s.threads[t], s.shared.phase)
      {
        assert f(s.threads[t]) == Live(s.threads[t]);
      }
    }
  }

  lemma InitInv(plans: seq<nat>)
    ensures Inv(Init(plans))
  {
    NothingBegunInv(Init(plans));
  }

  lemma NothingBegunInv(s: System)
    requires s.shared == Shared(|s.threads|, 0, 0) && s.openers == []
    requires forall t :: 0 <= t < |s.threads| ==>
      s.threads[t].at == Outside && s.threads[t].begun == 0 && s.threads[t].outcomes == []
    ensures Inv(s)
  {
    AllOutside(s.threads);
    NobodyWaits(s.threads, 0);
  }

  lemma NobodyWaits(ts: seq<Thread>, phase: int)
    requires forall i :: 0 <= i < |ts| ==> !WaitsIn(ts[i], phase)
    ensures Sum(WaitingIn(phase), ts) == 0
  {
    SumPointwise(WaitingIn(phase), ts, (x: Thread) => 0, ts);
    SumConstant(ts, 0);
  }

  lemma AllOutside(ts: seq<Thread>)
    requires forall i :: 0 <= i < |ts| ==> ts[i].at.Outside?
    ensures Sum(Live, ts) == |ts|
  {
    SumPointwise(Live, ts, (x: Thread) => 1, ts);
    SumConstant(ts, 1);
  }

  // Waking threads touches nothing but the `woken` flags.
  lemma WakeAllKeepsSums(ts: seq<Thread>, phase: int)
    ensures Sum(Live, WakeAll(ts)) == Sum(Live, ts)
    ensures Sum(WaitingIn(phase), WakeAll(ts)) == Sum(WaitingIn(phase), ts)
    ensures Sum(Work, WakeAll(ts)) == Sum(Work, ts)
  {
    SumPointwise(Live, WakeAll(ts), Live, ts);
    SumPointwise(WaitingIn(phase), WakeAll(ts), WaitingIn(phase), ts);
    SumPointwise(Work, WakeAll(ts), Work, ts);
  }

  // ----- Termination measure

  // An upper bound on the steps a thread still has to take, not counting wake-ups that
  // find the predicate false.
  function Work(th: Thread): int {
    3 * th.plan + (match th.at case Outside => 1 case InWait(_, _) => 3 case OwesNotify => 2 case Gone => 0)
  }

  function Woken(th: Thread): int { if th.at.InWait? && th.at.woken then 1 else 0 }

  // Each step of work can wake every thread at most once.
  function Rank(s: System): int {
    (|s.threads| + 1) * Sum(Work, s.threads) + Sum(Woken, s.threads)
  }
}
