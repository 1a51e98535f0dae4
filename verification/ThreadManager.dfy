/** The record all threads of one run add into (src/thread_manager.h), the merge of user
    counters (src/counter.cc) and the rule that only the first skip is kept
    (src/benchmark.cc). Everything here happens under benchmark_mutex_, so a run is a
    sequence of events in lock order. */
module ThreadManagers {
  import opened Loops
  import opened RealSums
  import Barriers

  // A user counter; flags and oneK are carried along, never computed with.
  datatype Counter = Counter(value: real, flags: int, oneK: int)

  type UserCounters = map<string, Counter>

  // What one thread adds at the end of RunInThread.
  datatype Contribution = Contribution(
    iterations: int, cpuTime: real, realTime: real, manualTime: real, complexityN: int, counters: UserCounters)

  datatype Result = Result(
    iterations: int, realTime: real, cpuTime: real, manualTime: real, complexityN: int,
    skipMessage: string, skipped: Skipped, counters: UserCounters)

  const NO_RESULT: Result := Result(0, 0.0, 0.0, 0.0, 0, "", NotSkipped, map[])

  // counter.cc, Increment: values add up, flags stay those of the left operand.
  function Incremented(l: UserCounters, r: UserCounters): (m: UserCounters)
    ensures m.Keys == l.Keys + r.Keys
  {
    map k | k in l.Keys + r.Keys ::
      if k in l && k in r then l[k].(value := l[k].value + r[k].value)
      else if k in l then l[k]
      else r[k]
  }

  function Merged(res: Result, c: Contribution): Result {
    res.(iterations := res.iterations + c.iterations,
         cpuTime := res.cpuTime + c.cpuTime,
         realTime := res.realTime + c.realTime,
         manualTime := res.manualTime + c.manualTime,
         complexityN := res.complexityN + c.complexityN,
         counters := Incremented(res.counters, c.counters))
  }

  function WithSkip(res: Result, kind: Skipped, message: string): Result {
    if res.skipped == NotSkipped then res.(skipMessage := message, skipped := kind) else res
  }

  // Merges two counter maps in place, as the two loops of Increment do.
  method Increment(l: UserCounters, r: UserCounters) returns (m: UserCounters)
    ensures m == Incremented(l, r)
  {
    m := l;
    var todo := l.Keys;
    while todo != {}
      invariant todo <= l.Keys && m.Keys == l.Keys
      invariant forall k :: k in l ==>
        m[k] == if k !in todo && k in r then l[k].(value := l[k].value + r[k].value) else l[k]
      decreases todo
    {
      var k :| k in todo;
      if k in r {
        m := m[k := m[k].(value := m[k].value + r[k].value)];
      }
      todo := todo - {k};
    }
    todo := r.Keys;
    while todo != {}
      invariant todo <= r.Keys && l.Keys <= m.Keys <= l.Keys + r.Keys
      invariant forall k :: k in r && k !in todo ==> k in m
      invariant forall k :: k in m ==> m[k] == Incremented(l, r)[k]
      decreases todo
    {
      var k :| k in todo;
      if k !in m {
        m := m[k := r[k]];
      }
      todo := todo - {k};
    }
  }

  class ThreadManager {
    var results: Result
    const barrier: Barriers.Barrier

    constructor (numThreads: int)
      ensures results == NO_RESULT
      ensures fresh(barrier) && barrier.View() == Barriers.Shared(numThreads, 0, 0)
    {
      results := NO_RESULT;
      barrier := new Barriers.Barrier(numThreads);
    }

    // The thread leaves the barrier; it notifies the others if somebody is inside.
    method NotifyThreadComplete() returns (notifyAll: bool)
      modifies barrier
      ensures (barrier.View(), notifyAll) == Barriers.AfterRemove(old(barrier.View()))
    {
      notifyAll := barrier.RemoveThread();
    }

    // The locked block of RunInThread.
    method AddThread(c: Contribution)
      modifies this
      ensures results == Merged(old(results), c)
    {
      var counters := Increment(results.counters, c.counters);
      results := results.(iterations := results.iterations + c.iterations);
      results := results.(cpuTime := results.cpuTime + c.cpuTime);
      results := results.(realTime := results.realTime + c.realTime);
      results := results.(manualTime := results.manualTime + c.manualTime);
      results := results.(complexityN := results.complexityN + c.complexityN);
      results := results.(counters := counters);
    }

    // The locked block of SkipWithMessage and SkipWithError.
    method RecordSkip(kind: Skipped, message: string)
      modifies this
      ensures results == WithSkip(old(results), kind, message)
    {
      if results.skipped == NotSkipped {
        results := results.(skipMessage := message);
        results := results.(skipped := kind);
      }
    }
  }

  // ----- Runs: events in the order the lock was taken

  datatype Event = Finish(c: Contribution) | Skip(kind: Skipped, message: string)

  predicate Proper(events: seq<Event>) {
    forall i :: 0 <= i < |events| && events[i].Skip? ==> events[i].kind != NotSkipped
  }

  function AfterEvent(res: Result, e: Event): Result {
    match e
    case Finish(c) => Merged(res, c)
    case Skip(kind, message) => WithSkip(res, kind, message)
  }

  function OutcomeFrom(start: Result, events: seq<Event>): Result {
    if events == [] then start
    else AfterEvent(OutcomeFrom(start, events[..|events| - 1]), events[|events| - 1])
  }

  function Outcome(events: seq<Event>): Result { OutcomeFrom(NO_RESULT, events) }

  // The contributions, in lock order.
  function Contributions(events: seq<Event>): seq<Contribution> {
    if events == [] then []
    else Contributions(events[..|events| - 1]) +
         (match events[|events| - 1] case Finish(c) => [c] case Skip(_, _) => [])
  }

  function CounterShare(key: string): Contribution -> real {
    (c: Contribution) => if key in c.counters then c.counters[key].value else 0.0
  }

  predicate Holds(c: Contribution, key: string) { key in c.counters }

  predicate SomeoneHolds(cs: seq<Contribution>, key: string) {
    exists i :: 0 <= i < |cs| && Holds(cs[i], key)
  }

  function IterationsOf(): Contribution -> real { (c: Contribution) => c.iterations as real }

  function ComplexityOf(): Contribution -> real { (c: Contribution) => c.complexityN as real }

  function RealTimeOf(): Contribution -> real { (c: Contribution) => c.realTime }

  function CpuTimeOf(): Contribution -> real { (c: Contribution) => c.cpuTime }

  function ManualTimeOf(): Contribution -> real { (c: Contribution) => c.manualTime }

  // The record holds the sums over the contributions, and the counter for the key if some
  // contribution has it, with the sum as its value.
  predicate HoldsSums(res: Result, cs: seq<Contribution>, key: string) {
    && res.iterations as real == Sum(IterationsOf(), cs)
    && res.complexityN as real == Sum(ComplexityOf(), cs)
    && res.realTime == Sum(RealTimeOf(), cs)
    && res.cpuTime == Sum(CpuTimeOf(), cs)
    && res.manualTime == Sum(ManualTimeOf(), cs)
    && (key in res.counters <==> SomeoneHolds(cs, key))
    && (key in res.counters ==> res.counters[key].value == Sum(CounterShare(key), cs))
    && (key !in res.counters ==> Sum(CounterShare(key), cs) == 0.0)
  }

  // The final record holds the sums over the threads, whatever the lock order.
  lemma {:induction false} Conservation(events: seq<Event>, key: string)
    ensures HoldsSums(Outcome(events), Contributions(events), key)
  {
    if events != [] {
      var n := |events| - 1;
      Conservation(events[..n], key);
      var cs := Contributions(events[..n]);
      match events[n]
      case Skip(_, _) =>
        assert Contributions(events) == cs;
      case Finish(c) =>
        MergedHoldsSums(Outcome(events[..n]), cs, c, key);
    }
  }

  lemma MergedHoldsSums(res: Result, cs: seq<Contribution>, c: Contribution, key: string)
    requires HoldsSums(res, cs, key)
    ensures HoldsSums(Merged(res, c), cs + [c], key)
  {
    SumSnoc(IterationsOf(), cs, c);
    SumSnoc(ComplexityOf(), cs, c);
    SumSnoc(RealTimeOf(), cs, c);
    SumSnoc(CpuTimeOf(), cs, c);
    SumSnoc(ManualTimeOf(), cs, c);
    SumSnoc(CounterShare(key), cs, c);
    if SomeoneHolds(cs, key) {
      var i :| 0 <= i < |cs| && Holds(cs[i], key);
      assert Holds((cs + [c])[i], key);
    }
    if Holds(c, key) {
      assert Holds((cs + [c])[|cs|], key);
    }
  }

  // The sums do not depend on the order of the contributions.
  lemma SumsOfPermutation(res: Result, cs: seq<Contribution>, cs': seq<Contribution>, key: string)
    requires HoldsSums(res, cs, key) && multiset(cs) == multiset(cs')
    ensures HoldsSums(res, cs', key)
  {
    SumPermutation(IterationsOf(), cs, cs');
    SumPermutation(ComplexityOf(), cs, cs');
    SumPermutation(RealTimeOf(), cs, cs');
    SumPermutation(CpuTimeOf(), cs, cs');
    SumPermutation(ManualTimeOf(), cs, cs');
    SumPermutation(CounterShare(key), cs, cs');
    HoldersPermute(cs, cs', key);
    HoldersPermute(cs', cs, key);
  }

  // Two lock orders of the same contributions leave the same sums.
  lemma OrderDoesNotMatter(one: seq<Event>, other: seq<Event>, key: string)
    requires multiset(Contributions(one)) == multiset(Contributions(other))
    ensures var r, r' := Outcome(one), Outcome(other);
            && r.iterations == r'.iterations && r.complexityN == r'.complexityN
            && r.realTime == r'.realTime && r.cpuTime == r'.cpuTime && r.manualTime == r'.manualTime
            && (key in r.counters <==> key in r'.counters)
            && (key in r.counters ==> r.counters[key].value == r'.counters[key].value)
  {
    Conservation(one, key);
    Conservation(other, key);
    SumsOfPermutation(Outcome(one), Contributions(one), Contributions(other), key);
  }

  lemma HoldersPermute(cs: seq<Contribution>, cs': seq<Contribution>, key: string)
    requires multiset(cs) == multiset(cs')
    ensures SomeoneHolds(cs, key) ==> SomeoneHolds(cs', key)
  {
    if i :| 0 <= i < |cs| && Holds(cs[i], key) {
      assert cs[i] in multiset(cs');
      var j :| 0 <= j < |cs'| && cs'[j] == cs[i];
      assert Holds(cs'[j], key);
    }
  }

  predicate FirstSkipAt(events: seq<Event>, i: nat) {
    i < |events| && events[i].Skip? && forall j :: 0 <= j < i ==> events[j].Finish?
  }

  // The merged result is skipped exactly when some thread skipped, and then carries the
  // kind and the message of the first skip.
  lemma {:induction false} FirstSkipWins(events: seq<Event>)
    requires Proper(events)
    ensures Outcome(events).skipped != NotSkipped <==> exists i :: 0 <= i < |events| && events[i].Skip?
    ensures forall i: nat :: FirstSkipAt(events, i) ==>
              Outcome(events).skipped == events[i].kind && Outcome(events).skipMessage == events[i].message
  {
    if events != [] {
      var n := |events| - 1;
      var front := events[..n];
      FirstSkipWins(front);
      assert forall i :: 0 <= i < n ==> front[i] == events[i];
      forall i: nat | FirstSkipAt(events, i)
        ensures Outcome(events).skipped == events[i].kind && Outcome(events).skipMessage == events[i].message
      {
        if i < n {
          assert FirstSkipAt(front, i);
        }
      }
    }
  }

  lemma ContributionsSnoc(events: seq<Event>, e: Event)
    ensures Contributions(events + [e]) == Contributions(events) + (match e case Finish(c) => [c] case Skip(_, _) => [])
  {
    var all := events + [e];
    assert all[..|all| - 1] == events;
  }

  predicate AnySkip(events: seq<Event>) {
    exists i :: 0 <= i < |events| && events[i].Skip?
  }

  predicate NonNegative(c: Contribution) {
    c.iterations >= 0 && c.cpuTime >= 0.0 && c.realTime >= 0.0 && c.manualTime >= 0.0
  }

  // What one run of `threads` threads for `iters` iterations may leave: one contribution per
  // thread, no negative amounts, and at least `iters` iterations each unless somebody skipped.
  predicate WellBehaved(threads: int, iters: int, events: seq<Event>) {
    && Proper(events)
    && |Contributions(events)| == threads
    && forall i :: 0 <= i < |Contributions(events)| ==>
         var c := Contributions(events)[i];
         NonNegative(c) && (!AnySkip(events) ==> c.iterations >= iters)
  }
}
