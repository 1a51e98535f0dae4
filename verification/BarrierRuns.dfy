/** Safety, progress and termination of the barrier protocol over every run. */
module BarrierRuns {
  import opened Barriers
  import opened BarrierProtocol
  import opened Sums

  // ----- Every step keeps the invariant

  // A thread falls asleep in the current phase, leaving the barrier not yet full.
  lemma EnterAndSleepKeepsInv(s: System, l: Label)
    requires Inv(s) && Enabled(s, l) && l.action.CallWait? && AfterEnter(s.shared).1.Sleep?
    ensures Inv(Step(s, l))
  {
    var s', t := Step(s, l), l.thread;
    SumUpdate(Live, s.threads, t, s'.threads[t]);
    SumUpdate(WaitingIn(s.shared.phase), s.threads, t, s'.threads[t]);
    if u :| 0 <= u < |s.threads| && s.threads[u].at.OwesNotify? {
      assert s'.threads[u].at.OwesNotify?;
    }
    EnteredVersusRunning(s);
  }

  // Opening the barrier, by the last arrival or by a waiter after a removal: everybody
  // else is waiting in the phase that ends here.
  lemma OpenKeepsInv(s: System, t: nat, th: Thread, s': System)
    requires Inv(s) && t < |s.threads|
    requires th.at == s.threads[t].at && th.outcomes == s.threads[t].outcomes
    requires |th.outcomes| == s.shared.phase && th.begun == s.shared.phase + 1
    requires forall u :: 0 <= u < |s.threads| && u != t && !s.threads[u].at.Gone? ==> WaitsIn(s.threads[u], s.shared.phase)
    requires !th.at.Gone?
    requires s' == Settle(s, Open(s.shared), t, th, s.shared.phase, ReturnTrue)
    ensures Inv(s')
  {
    assert forall u :: 0 <= u < |s.threads| ==> InStep(s.threads[u], s.shared.phase);
    OpenKeepsCounting(s, t, th, s');
    OpenerIsRecorded(s, t, th, s');
    assert s'.threads[t].at.OwesNotify?;
  }

  lemma OpenKeepsCounting(s: System, t: nat, th: Thread, s': System)
    requires Counting(s) && t < |s.threads| && th.at == s.threads[t].at && !th.at.Gone?
    requires forall u :: 0 <= u < |s.threads| ==> InStep(s.threads[u], s.shared.phase)
    requires s' == Settle(s, Open(s.shared), t, th, s.shared.phase, ReturnTrue)
    ensures Counting(s') && s'.shared.entered < s'.shared.running
  {
    SumUpdate(Live, s.threads, t, s'.threads[t]);
    NobodyWaits(s'.threads, s'.shared.phase);
    SumNonNegative(Live, s'.threads);
    assert Live(s'.threads[t]) == 1;
  }

  lemma OpenerIsRecorded(s: System, t: nat, th: Thread, s': System)
    requires OutcomesMatch(s) && s.shared.phase == |s.openers| && t < |s.threads|
    requires th.outcomes == s.threads[t].outcomes && |th.outcomes| == s.shared.phase
    requires forall u :: 0 <= u < |s.threads| ==> |s.threads[u].outcomes| <= s.shared.phase
    requires s' == Settle(s, Open(s.shared), t, th, s.shared.phase, ReturnTrue)
    ensures OutcomesMatch(s')
  {
    forall u, p | 0 <= u < |s'.threads| && 0 <= p < |s'.threads[u].outcomes| && p < |s'.openers|
      ensures s'.threads[u].outcomes[p] <==> s'.openers[p] == u
    {
      assert u != t ==> s'.threads[u].outcomes == s.threads[u].outcomes;
    }
    forall p | 0 <= p < |s'.openers|
      ensures s'.openers[p] < |s'.threads| && p < |s'.threads[s'.openers[p]].outcomes|
    {
      if p < |s.openers| {
        assert s'.openers[p] == s.openers[p];
      }
    }
  }

  lemma CallWaitKeepsInv(s: System, l: Label)
    requires Inv(s) && Enabled(s, l) && l.action.CallWait?
    ensures Inv(Step(s, l))
  {
    if AfterEnter(s.shared).1.Sleep? {
      EnterAndSleepKeepsInv(s, l);
    } else {
      var t := l.thread;
      EnteredVersusRunning(s);
      LastArrival(s, t);
      var th := s.threads[t].(plan := s.threads[t].plan - 1, begun := s.threads[t].begun + 1);
      OpenKeepsInv(s, t, th, Step(s, l));
    }
  }

  // When all but one of the live threads wait, the remaining one is the caller itself.
  lemma LastArrival(s: System, t: nat)
    requires Counting(s) && t < |s.threads| && s.threads[t].at.Outside?
    requires s.shared.entered + 1 >= s.shared.running
    ensures forall u :: 0 <= u < |s.threads| && u != t && !s.threads[u].at.Gone? ==> WaitsIn(s.threads[u], s.shared.phase)
  {
    var ts := s.threads[t := s.threads[t].(at := Gone)];
    SumUpdate(Live, s.threads, t, ts[t]);
    SumUpdate(WaitingIn(s.shared.phase), s.threads, t, ts[t]);
    var without := System(s.shared.(running := s.shared.running - 1), ts, s.openers);
    EnteredVersusRunning(without);
    forall u | 0 <= u < |s.threads| && u != t && !s.threads[u].at.Gone?
      ensures WaitsIn(s.threads[u], s.shared.phase)
    {
      assert ts[u] == s.threads[u];
    }
  }

  lemma RecheckKeepsInv(s: System, l: Label)
    requires Inv(s) && Enabled(s, l) && l.action.RecheckPredicate?
    ensures Inv(Step(s, l))
  {
    var s', t, th := Step(s, l), l.thread, s.threads[l.thread];
    EnteredVersusRunning(s);
    if AfterRecheck(s.shared, th.at.savedPhase).1.ReturnTrue? {
      OpenKeepsInv(s, t, th, s');
    } else {
      RecheckWithoutOpening(s, l);
    }
  }

  // A woken thread goes back to sleep, or finds that somebody else has opened the barrier.
  lemma RecheckWithoutOpening(s: System, l: Label)
    requires Inv(s) && Enabled(s, l) && l.action.RecheckPredicate?
    requires !AfterRecheck(s.shared, s.threads[l.thread].at.savedPhase).1.ReturnTrue?
    ensures Inv(Step(s, l))
  {
    if AfterRecheck(s.shared, s.threads[l.thread].at.savedPhase).1.Sleep? {
      RecheckAndSleep(s, l);
    } else {
      RecheckAndReturn(s, l);
    }
  }

  lemma RecheckAndSleep(s: System, l: Label)
    requires Inv(s) && Enabled(s, l) && l.action.RecheckPredicate?
    requires AfterRecheck(s.shared, s.threads[l.thread].at.savedPhase).1.Sleep?
    ensures Inv(Step(s, l))
  {
    var s', t := Step(s, l), l.thread;
    SumUpdate(Live, s.threads, t, s'.threads[t]);
    SumUpdate(WaitingIn(s.shared.phase), s.threads, t, s'.threads[t]);
    OwersKept(s, s', t);
    SameOutcomes(s, s');
  }

  lemma RecheckAndReturn(s: System, l: Label)
    requires Inv(s) && Enabled(s, l) && l.action.RecheckPredicate?
    requires AfterRecheck(s.shared, s.threads[l.thread].at.savedPhase).1.ReturnFalse?
    ensures Inv(Step(s, l))
  {
    var s', t := Step(s, l), l.thread;
    SumUpdate(Live, s.threads, t, s'.threads[t]);
    SumUpdate(WaitingIn(s.shared.phase), s.threads, t, s'.threads[t]);
    OwersKept(s, s', t);
    assert InStep(s.threads[t], s.shared.phase);
  }

  lemma OwersKept(s: System, s': System, t: nat)
    requires t < |s.threads| == |s'.threads|
    requires forall u :: 0 <= u < |s.threads| && u != t ==> s'.threads[u] == s.threads[u]
    requires !s.threads[t].at.OwesNotify?
    ensures SomebodyOwes(s.threads) ==> SomebodyOwes(s'.threads)
  {
    if u :| 0 <= u < |s.threads| && s.threads[u].at.OwesNotify? {
      assert s'.threads[u].at.OwesNotify?;
    }
  }

  lemma SpuriousWakeKeepsInv(s: System, l: Label)
    requires Inv(s) && Enabled(s, l) && l.action.SpuriousWake?
    ensures Inv(Step(s, l))
  {
    var s', t := Step(s, l), l.thread;
    SumUpdate(Live, s.threads, t, s'.threads[t]);
    SumUpdate(WaitingIn(s.shared.phase), s.threads, t, s'.threads[t]);
    OwersKept(s, s', t);
  }

  lemma NotifyAllKeepsInv(s: System, l: Label)
    requires Inv(s) && Enabled(s, l) && l.action.NotifyAll?
    ensures Inv(Step(s, l))
  {
    var s', t := Step(s, l), l.thread;
    var ts := s.threads[t := s.threads[t].(at := Outside)];
    assert s'.threads == WakeAll(ts);
    assert Counting(s') by {
      SumUpdate(Live, s.threads, t, ts[t]);
      SumUpdate(WaitingIn(s.shared.phase), s.threads, t, ts[t]);
      WakeAllKeepsSums(ts, s.shared.phase);
    }
    SameOutcomes(s, s');
  }

  lemma SameOutcomes(s: System, s': System)
    requires OutcomesMatch(s) && s'.openers == s.openers && |s'.threads| == |s.threads|
    requires forall u :: 0 <= u < |s.threads| ==> s'.threads[u].outcomes == s.threads[u].outcomes
    ensures OutcomesMatch(s')
  {
  }

  // The effect of a removal on the counters, before anybody is woken.
  lemma RemovalKeepsCounting(s: System, t: nat)
    requires Counting(s) && t < |s.threads| && s.threads[t].at.Outside?
    ensures Counting(s.(shared := AfterRemove(s.shared).0, threads := s.threads[t := s.threads[t].(at := Gone)]))
  {
    var ts := s.threads[t := s.threads[t].(at := Gone)];
    SumUpdate(Live, s.threads, t, ts[t]);
    SumUpdate(WaitingIn(s.shared.phase), s.threads, t, ts[t]);
  }

  // Somebody waits in the current phase: everybody is woken.
  lemma NoisyRemoveKeepsInv(s: System, l: Label)
    requires Inv(s) && Enabled(s, l) && l.action.CallRemove? && s.shared.entered != 0
    ensures Inv(Step(s, l))
  {
    var s', t := Step(s, l), l.thread;
    var ts := s.threads[t := s.threads[t].(at := Gone)];
    assert s'.threads == WakeAll(ts);
    assert Counting(s') by {
      RemovalKeepsCounting(s, t);
      WakeAllKeepsSums(ts, s.shared.phase);
    }
    SameOutcomes(s, s');
  }

  // Nobody waits in the current phase: sleepers of the previous one have an opener to wake them.
  lemma QuietRemoveKeepsInv(s: System, l: Label)
    requires Inv(s) && Enabled(s, l) && l.action.CallRemove? && s.shared.entered == 0
    ensures Inv(Step(s, l))
  {
    var s', t := Step(s, l), l.thread;
    RemovalKeepsCounting(s, t);
    OwersKept(s, s', t);
    SumNonNegative(Live, s'.threads);
    forall u | 0 <= u < |s'.threads| && Asleep(s'.threads[u])
      ensures s'.shared.entered != s'.shared.running
    {
      assert Live(s'.threads[u]) == 1;
    }
  }

  lemma CallRemoveKeepsInv(s: System, l: Label)
    requires Inv(s) && Enabled(s, l) && l.action.CallRemove?
    ensures Inv(Step(s, l))
  {
    if s.shared.entered != 0 {
      NoisyRemoveKeepsInv(s, l);
    } else {
      QuietRemoveKeepsInv(s, l);
    }
  }

  lemma StepKeepsInv(s: System, l: Label)
    requires Inv(s) && Enabled(s, l)
    ensures Inv(Step(s, l))
  {
    match l.action
    case CallWait => CallWaitKeepsInv(s, l);
    case SpuriousWake => SpuriousWakeKeepsInv(s, l);
    case RecheckPredicate => RecheckKeepsInv(s, l);
    case NotifyAll => NotifyAllKeepsInv(s, l);
    case CallRemove => CallRemoveKeepsInv(s, l);
  }

  lemma {:induction false} RunKeepsInv(s: System, run: seq<Label>)
    requires Inv(s) && Schedulable(s, run)
    ensures Inv(Final(s, run))
    decreases |run|
  {
    if run != [] {
      StepKeepsInv(s, run[0]);
      RunKeepsInv(Step(s, run[0]), run[1..]);
    }
  }

  lemma ReachableInv(plans: seq<nat>, run: seq<Label>)
    requires Schedulable(Init(plans), run)
    ensures Inv(Final(Init(plans), run))
  {
    InitInv(plans);
    RunKeepsInv(Init(plans), run);
  }

  // ----- Safety

  // The waits a thread has returned from; an opener that still owes its notify_all is
  // inside its last wait.
  function Returned(th: Thread): int {
    |th.outcomes| - (if th.at.OwesNotify? then 1 else 0)
  }

  predicate HasLeft(th: Thread) { th.at.Gone? }

  // No thread returns from its k-th wait until every thread has begun its own k-th wait
  // or has been removed.
  lemma BarrierSafety(plans: seq<nat>, run: seq<Label>, t: nat, k: int)
    requires Schedulable(Init(plans), run) && t < |plans|
    requires k <= Returned(Final(Init(plans), run).threads[t])
    ensures forall u :: 0 <= u < |plans| ==>
              var th := Final(Init(plans), run).threads[u];
              HasLeft(th) || k <= th.begun
  {
    ReachableInv(plans, run);
    var s := Final(Init(plans), run);
    assert InStep(s.threads[t], s.shared.phase);
    forall u | 0 <= u < |plans| ensures HasLeft(s.threads[u]) || k <= s.threads[u].begun {
      assert InStep(s.threads[u], s.shared.phase);
    }
  }

  // The check `entered_ < running_threads_` at the head of createBarrier never fails.
  lemma EntryCheckHolds(plans: seq<nat>, run: seq<Label>, l: Label)
    requires Schedulable(Init(plans), run) && Enabled(Final(Init(plans), run), l) && l.action.CallWait?
    ensures var shared := Final(Init(plans), run).shared; 0 <= shared.entered < shared.running
  {
    ReachableInv(plans, run);
    var s := Final(Init(plans), run);
    EnteredVersusRunning(s);
    assert !WaitsIn(s.threads[l.thread], s.shared.phase);
  }

  // The guarded integers count what they are named after.
  lemma CountersAreExact(plans: seq<nat>, run: seq<Label>)
    requires Schedulable(Init(plans), run)
    ensures var s := Final(Init(plans), run);
            && s.shared.running == |set t | 0 <= t < |s.threads| && !s.threads[t].at.Gone?|
            && s.shared.entered == |set t | 0 <= t < |s.threads| && WaitsIn(s.threads[t], s.shared.phase)|
  {
    ReachableInv(plans, run);
    var s := Final(Init(plans), run);
    LiveThreads(s.threads);
    WaitingThreads(s.threads, s.shared.phase);
  }

  lemma LiveThreads(ts: seq<Thread>)
    ensures Sum(Live, ts) == |set t | 0 <= t < |ts| && !ts[t].at.Gone?|
  {
    SumIsCount(Live, ts);
    assert (set t | 0 <= t < |ts| && !ts[t].at.Gone?) == Ones(Live, ts);
  }

  lemma WaitingThreads(ts: seq<Thread>, phase: int)
    ensures Sum(WaitingIn(phase), ts) == |set t | 0 <= t < |ts| && WaitsIn(ts[t], phase)|
  {
    SumIsCount(WaitingIn(phase), ts);
    assert (set t | 0 <= t < |ts| && WaitsIn(ts[t], phase)) == Ones(WaitingIn(phase), ts);
  }

  function Ones<T>(f: T -> int, s: seq<T>): set<int> {
    set i | 0 <= i < |s| && f(s[i]) == 1
  }

  lemma {:induction false} SumIsCount<T>(f: T -> int, s: seq<T>)
    requires forall i :: 0 <= i < |s| ==> f(s[i]) == 0 || f(s[i]) == 1
    ensures Sum(f, s) == |Ones(f, s)|
  {
    if s != [] {
      var n := |s| - 1;
      assert s == s[..n] + [s[n]];
      SumAppend(f, s[..n], [s[n]]);
      SumIsCount(f, s[..n]);
      OnesSnoc(f, s[..n], s[n]);
    }
  }

  lemma OnesSnoc<T>(f: T -> int, s: seq<T>, x: T)
    ensures |Ones(f, s + [x])| == |Ones(f, s)| + (if f(x) == 1 then 1 else 0)
  {
    assert Ones(f, s + [x]) == if f(x) == 1 then Ones(f, s) + {|s|} else Ones(f, s);
    assert |s| !in Ones(f, s);
  }

  // Every completed phase has exactly one wait that returned true, however it was opened.
  lemma OneOpenerPerPhase(plans: seq<nat>, run: seq<Label>, p: nat)
    requires Schedulable(Init(plans), run) && p < Final(Init(plans), run).shared.phase
    ensures var ts := Final(Init(plans), run).threads;
            exists t :: 0 <= t < |ts| && p < |ts[t].outcomes| && ts[t].outcomes[p] &&
              forall u :: 0 <= u < |ts| && u != t && p < |ts[u].outcomes| ==> !ts[u].outcomes[p]
  {
    ReachableInv(plans, run);
    var s := Final(Init(plans), run);
    var t := s.openers[p];
    assert p < |s.threads[t].outcomes| && s.threads[t].outcomes[p];
  }

  // ----- Progress

  predicate Finished(s: System) {
    forall t :: 0 <= t < |s.threads| ==> s.threads[t].at.Gone?
  }

  // A step other than a spurious wake-up is enabled.
  ghost predicate CanProceed(s: System) {
    exists l :: Enabled(s, l) && !l.action.SpuriousWake?
  }

  // No deadlock and no lost wake-up: some step is enabled, without any help from spurious
  // wake-ups, exactly as long as some thread has not left.
  lemma Progress(plans: seq<nat>, run: seq<Label>)
    requires Schedulable(Init(plans), run)
    ensures CanProceed(Final(Init(plans), run)) <==> !Finished(Final(Init(plans), run))
  {
    ReachableInv(plans, run);
    var s := Final(Init(plans), run);
    if !Finished(s) {
      InvImpliesProgress(s);
    }
  }

  // The step, other than a spurious wake-up, that a thread would take next.
  function NextAction(th: Thread): Action {
    match th.at
    case Outside => if th.plan > 0 then CallWait else CallRemove
    case InWait(_, _) => RecheckPredicate
    case OwesNotify => NotifyAll
    case Gone => CallRemove
  }

  lemma InvImpliesProgress(s: System)
    requires Inv(s) && !Finished(s)
    ensures CanProceed(s)
  {
    SomebodyIsAwake(s);
    var t :| 0 <= t < |s.threads| && !s.threads[t].at.Gone? && !Asleep(s.threads[t]);
    assert Enabled(s, Label(t, NextAction(s.threads[t])));
  }

  lemma SomebodyIsAwake(s: System)
    requires Inv(s) && !Finished(s)
    ensures exists t :: 0 <= t < |s.threads| && !s.threads[t].at.Gone? && !Asleep(s.threads[t])
  {
    if forall t :: 0 <= t < |s.threads| ==> s.threads[t].at.Gone? || Asleep(s.threads[t]) {
      var t :| 0 <= t < |s.threads| && !s.threads[t].at.Gone?;
      assert Asleep(s.threads[t]);
      AllAsleep(s);
    }
  }

  // If nobody is awake then everybody still here waits in the current phase.
  lemma AllAsleep(s: System)
    requires Inv(s)
    requires forall t :: 0 <= t < |s.threads| ==> s.threads[t].at.Gone? || Asleep(s.threads[t])
    ensures s.shared.entered == s.shared.running
  {
    assert !SomebodyOwes(s.threads);
    forall t | 0 <= t < |s.threads|
      ensures Live(s.threads[t]) == WaitingIn(s.shared.phase)(s.threads[t])
    {
      assert InStep(s.threads[t], s.shared.phase);
    }
    SumPointwise(Live, s.threads, WaitingIn(s.shared.phase), s.threads);
  }

  // ----- Termination

  function Spurious(run: seq<Label>): int {
    if run == [] then 0 else (if run[0].action.SpuriousWake? then 1 else 0) + Spurious(run[1..])
  }

  lemma WokenBounds(ts: seq<Thread>)
    ensures 0 <= Sum(Woken, ts) <= |ts|
  {
    SumNonNegative(Woken, ts);
    SumAtMost(Woken, ts, 1);
  }

  lemma {:induction false} ProductGrows(n: int, d: int)
    requires 0 < n && 0 < d
    ensures n <= n * d
    decreases d
  {
    if d > 1 {
      ProductGrows(n, d - 1);
      assert n * d == n * (d - 1) + n;
    }
  }

  lemma ProductDrops(n: int, w: int, w': int)
    requires 0 < n && w' < w
    ensures n * w' + n <= n * w
  {
    var d := w - w';
    ProductGrows(n, d);
    assert n * (w' + d) == n * w' + n * d;
  }

  lemma RankFromWork(s: System, s': System)
    requires |s'.threads| == |s.threads| && Sum(Work, s'.threads) < Sum(Work, s.threads)
    ensures Rank(s') < Rank(s)
  {
    WokenBounds(s.threads);
    WokenBounds(s'.threads);
    ProductDrops(|s.threads| + 1, Sum(Work, s.threads), Sum(Work, s'.threads));
  }

  // A spurious wake-up costs one; every other step pays at least one.
  lemma StepLowersRank(s: System, l: Label)
    requires Enabled(s, l)
    ensures Rank(Step(s, l)) <= Rank(s) + (if l.action.SpuriousWake? then 1 else -1)
  {
    var s', t, th := Step(s, l), l.thread, s.threads[l.thread];
    match l.action
    case CallWait =>
      SumUpdate(Work, s.threads, t, s'.threads[t]);
      RankFromWork(s, s');
    case SpuriousWake =>
      SumUpdate(Work, s.threads, t, s'.threads[t]);
      SumUpdate(Woken, s.threads, t, s'.threads[t]);
    case RecheckPredicate =>
      SumUpdate(Work, s.threads, t, s'.threads[t]);
      SumUpdate(Woken, s.threads, t, s'.threads[t]);
      if !AfterRecheck(s.shared, th.at.savedPhase).1.Sleep? {
        RankFromWork(s, s');
      }
    case NotifyAll =>
      var ts := s.threads[t := th.(at := Outside)];
      SumUpdate(Work, s.threads, t, ts[t]);
      WakeAllKeepsSums(ts, 0);
      RankFromWork(s, s');
    case CallRemove =>
      var ts := s.threads[t := th.(at := Gone)];
      SumUpdate(Work, s.threads, t, ts[t]);
      WakeAllKeepsSums(ts, 0);
      RankFromWork(s, s');
  }

  lemma {:induction false} RunLowersRank(s: System, run: seq<Label>)
    requires Schedulable(s, run)
    ensures |run| + Rank(Final(s, run)) <= Rank(s) + 2 * Spurious(run)
    decreases |run|
  {
    if run != [] {
      StepLowersRank(s, run[0]);
      RunLowersRank(Step(s, run[0]), run[1..]);
    }
  }

  lemma RankNonNegative(s: System)
    ensures 0 <= Rank(s)
  {
    WokenBounds(s.threads);
    SumNonNegative(Work, s.threads);
    assert 0 <= (|s.threads| + 1) * Sum(Work, s.threads);
  }

  function Total(plans: seq<nat>): int { Sum((p: nat) => 3 * p + 1, plans) }

  // Every run is finite: its length is bounded by the plans and by twice its number of
  // spurious wake-ups.
  lemma BarrierTermination(plans: seq<nat>, run: seq<Label>)
    requires Schedulable(Init(plans), run)
    ensures |run| <= (|plans| + 1) * Total(plans) + 2 * Spurious(run)
  {
    var s := Init(plans);
    SumPointwise(Work, s.threads, (p: nat) => 3 * p + 1, plans);
    SumPointwise(Woken, s.threads, (p: nat) => 0, plans);
    SumConstant(plans, 0);
    RunLowersRank(s, run);
    RankNonNegative(Final(s, run));
  }

  // ----- What a complete run has done

  predicate Planned(s: System, plans: seq<nat>) {
    |s.threads| == |plans| &&
    forall t :: 0 <= t < |plans| ==>
      s.threads[t].begun + s.threads[t].plan == plans[t] &&
      (s.threads[t].at.Gone? ==> s.threads[t].plan == 0)
  }

  lemma {:induction false} RunKeepsPlans(s: System, run: seq<Label>, plans: seq<nat>)
    requires Planned(s, plans) && Schedulable(s, run)
    ensures Planned(Final(s, run), plans)
    decreases |run|
  {
    if run != [] {
      RunKeepsPlans(Step(s, run[0]), run[1..], plans);
    }
  }

  lemma FinishedCounts(s: System, plans: seq<nat>)
    requires Inv(s) && Planned(s, plans) && Finished(s)
    ensures forall t :: 0 <= t < |plans| ==> Returned(s.threads[t]) == plans[t] <= s.shared.phase
    ensures s.shared.phase > 0 ==> exists t :: 0 <= t < |plans| && plans[t] == s.shared.phase
  {
    assert forall t :: 0 <= t < |plans| ==> InStep(s.threads[t], s.shared.phase);
    if s.shared.phase > 0 {
      var t := s.openers[s.shared.phase - 1];
      assert plans[t] == s.shared.phase;
    }
  }

  lemma FinishedIsEmpty(s: System)
    requires Inv(s) && Finished(s)
    ensures s.shared.running == s.shared.entered == 0
  {
    SumPointwise(Live, s.threads, (th: Thread) => 0, s.threads);
    SumConstant(s.threads, 0);
    EnteredVersusRunning(s);
  }

  // Everybody has left after carrying out its whole plan; the phases are as many as the longest
  // plan has waits; nobody is counted any more.
  predicate Complete(s: System, plans: seq<nat>) {
    && Finished(s) && |s.threads| == |plans|
    && (forall t :: 0 <= t < |plans| ==> Returned(s.threads[t]) == plans[t] <= s.shared.phase)
    && (s.shared.phase > 0 ==> exists t :: 0 <= t < |plans| && plans[t] == s.shared.phase)
    && s.shared.running == s.shared.entered == 0
  }

  lemma FinishedIsComplete(s: System, plans: seq<nat>)
    requires Inv(s) && Planned(s, plans) && Finished(s)
    ensures Complete(s, plans)
  {
    FinishedCounts(s, plans);
    FinishedIsEmpty(s);
  }

  // A run that cannot proceed has let every thread carry out its whole plan, and the
  // number of phases is the longest plan.
  lemma CompleteRun(plans: seq<nat>, run: seq<Label>)
    requires Schedulable(Init(plans), run) && !CanProceed(Final(Init(plans), run))
    ensures Complete(Final(Init(plans), run), plans)
  {
    ReachableInv(plans, run);
    Progress(plans, run);
    RunKeepsPlans(Init(plans), run, plans);
    FinishedIsComplete(Final(Init(plans), run), plans);
  }
}
