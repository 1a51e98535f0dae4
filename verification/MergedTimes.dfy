/** The times in the shared record (src/benchmark_runner.cc) are sums; when are they the largest
    of the threads' times, as the documentation of State has it? */
module MergedTimes {
  import opened ThreadManagers
  import opened RealSums
  import opened Arithmetic

  function Largest(f: Contribution -> real, cs: seq<Contribution>): real
    requires cs != []
  {
    if |cs| == 1 then f(cs[0]) else Max(f(cs[0]), Largest(f, cs[1..]))
  }

  predicate AtMostOnePositive(f: Contribution -> real, cs: seq<Contribution>) {
    forall i, j :: 0 <= i < j < |cs| ==> f(cs[i]) <= 0.0 || f(cs[j]) <= 0.0
  }

  // A sum of amounts that are not negative is their maximum exactly when at most one is positive.
  lemma {:induction false} SumVersusLargest(f: Contribution -> real, cs: seq<Contribution>)
    requires cs != [] && forall i :: 0 <= i < |cs| ==> f(cs[i]) >= 0.0
    ensures Sum(f, cs) >= Largest(f, cs) >= 0.0
    ensures Largest(f, cs) == 0.0 <==> forall i :: 0 <= i < |cs| ==> f(cs[i]) == 0.0
    ensures Sum(f, cs) == Largest(f, cs) <==> AtMostOnePositive(f, cs)
  {
    if |cs| > 1 {
      var rest := cs[1..];
      SumVersusLargest(f, rest);
      assert forall i :: 1 <= i < |cs| ==> cs[i] == rest[i - 1];
      if AtMostOnePositive(f, cs) {
        forall i, j | 0 <= i < j < |rest| ensures f(rest[i]) <= 0.0 || f(rest[j]) <= 0.0 {
          assert rest[i] == cs[i + 1] && rest[j] == cs[j + 1];
        }
      }
      if AtMostOnePositive(f, rest) && (f(cs[0]) == 0.0 || Largest(f, rest) == 0.0) {
        forall i, j | 0 <= i < j < |cs| ensures f(cs[i]) <= 0.0 || f(cs[j]) <= 0.0 {
          assert cs[j] == rest[j - 1];
        }
      }
    } else {
      assert cs[1..] == [];
    }
  }

  // The documentation promises the largest of the threads' real and manual times. The merged
  // record holds it exactly when at most one thread has a positive one.
  lemma LargestTimeIsMerged(events: seq<Event>)
    requires Contributions(events) != []
    requires forall i :: 0 <= i < |Contributions(events)| ==> NonNegative(Contributions(events)[i])
    ensures var res, cs := Outcome(events), Contributions(events);
      && (res.realTime == Largest(RealTimeOf(), cs) <==> AtMostOnePositive(RealTimeOf(), cs))
      && (res.manualTime == Largest(ManualTimeOf(), cs) <==> AtMostOnePositive(ManualTimeOf(), cs))
  {
    var cs := Contributions(events);
    Conservation(events, "");
    SumVersusLargest(RealTimeOf(), cs);
    SumVersusLargest(ManualTimeOf(), cs);
  }

  // Two threads that ran for one second and for two are merged into three seconds.
  lemma TwoThreadsAddUp()
    ensures var one := Contribution(1, 0.0, 1.0, 1.0, 0, map[]);
            var two := Contribution(1, 0.0, 2.0, 2.0, 0, map[]);
            var res := Outcome([Finish(one), Finish(two)]);
            res.realTime == res.manualTime == 3.0 && Largest(RealTimeOf(), [one, two]) == 2.0
  {
    var one := Contribution(1, 0.0, 1.0, 1.0, 0, map[]);
    var two := Contribution(1, 0.0, 2.0, 2.0, 0, map[]);
    TwoContributions(one, two);
    Conservation([Finish(one), Finish(two)], "");
    SumOfTwo(RealTimeOf(), one, two);
    SumOfTwo(ManualTimeOf(), one, two);
    assert [one, two][1..] == [two];
  }

  lemma TwoContributions(one: Contribution, two: Contribution)
    ensures Contributions([Finish(one), Finish(two)]) == [one, two]
  {
    ContributionsSnoc([], Finish(one));
    ContributionsSnoc([Finish(one)], Finish(two));
    assert [] + [Finish(one)] == [Finish(one)] && [Finish(one)] + [Finish(two)] == [Finish(one), Finish(two)];
  }

  lemma SumOfTwo(f: Contribution -> real, one: Contribution, two: Contribution)
    ensures Sum(f, [one, two]) == f(one) + f(two)
  {
    assert [one, two][1..] == [two];
    assert Sum(f, [two]) == f(two);
  }

  // ----- Times per iteration

  predicate AllEqual(f: Contribution -> real, cs: seq<Contribution>) {
    forall i, j :: 0 <= i < |cs| && 0 <= j < |cs| ==> f(cs[i]) == f(cs[j])
  }

  function PerIteration(f: Contribution -> real): Contribution -> real {
    (c: Contribution) => if c.iterations >= 1 then f(c) / c.iterations as real else 0.0
  }

  function Share(m: real): Contribution -> real {
    (c: Contribution) => m * c.iterations as real
  }

  lemma {:induction false} LargestIsBound(f: Contribution -> real, cs: seq<Contribution>)
    requires cs != []
    ensures forall i :: 0 <= i < |cs| ==> f(cs[i]) <= Largest(f, cs)
    ensures exists i :: 0 <= i < |cs| && f(cs[i]) == Largest(f, cs)
  {
    if |cs| > 1 {
      LargestIsBound(f, cs[1..]);
      assert forall i :: 1 <= i < |cs| ==> cs[i] == cs[1..][i - 1];
      var j :| 0 <= j < |cs[1..]| && f(cs[1..][j]) == Largest(f, cs[1..]);
      assert f(cs[j + 1]) == Largest(f, cs[1..]);
      assert f(cs[0]) == Largest(f, cs) || f(cs[j + 1]) == Largest(f, cs);
    } else {
      assert f(cs[0]) == Largest(f, cs);
    }
  }

  lemma {:induction false} SharesAddUp(m: real, cs: seq<Contribution>)
    ensures Sum(Share(m), cs) == m * Sum(IterationsOf(), cs)
  {
    if cs != [] {
      SharesAddUp(m, cs[1..]);
      Distribute(m, IterationsOf()(cs[0]), Sum(IterationsOf(), cs[1..]));
    }
  }

  lemma Distribute(m: real, x: real, y: real)
    ensures m * (x + y) == m * x + m * y
  {
  }

  // A sum of smaller terms is smaller, and equal only if all terms are.
  lemma {:induction false} SumsCompare(f: Contribution -> real, g: Contribution -> real, cs: seq<Contribution>)
    requires forall i :: 0 <= i < |cs| ==> f(cs[i]) <= g(cs[i])
    ensures Sum(f, cs) <= Sum(g, cs)
    ensures Sum(f, cs) == Sum(g, cs) <==> forall i :: 0 <= i < |cs| ==> f(cs[i]) == g(cs[i])
  {
    if cs != [] {
      var rest := cs[1..];
      assert forall i :: 1 <= i < |cs| ==> cs[i] == rest[i - 1];
      assert forall i :: 0 <= i < |rest| ==> rest[i] == cs[i + 1];
      SumsCompare(f, g, rest);
    }
  }

  // A contribution's amount against its share of m per iteration.
  lemma AmountVersusShare(f: Contribution -> real, c: Contribution, m: real)
    requires c.iterations >= 1
    ensures PerIteration(f)(c) <= m <==> f(c) <= Share(m)(c)
    ensures PerIteration(f)(c) == m <==> f(c) == Share(m)(c)
  {
    QuotientVersus(f(c), c.iterations as real, m);
  }

  lemma {:induction false} IterationsPositive(cs: seq<Contribution>)
    requires cs != [] && forall i :: 0 <= i < |cs| ==> cs[i].iterations >= 1
    ensures Sum(IterationsOf(), cs) >= 1.0
  {
    if |cs| > 1 {
      IterationsPositive(cs[1..]);
    } else {
      assert cs[1..] == [];
    }
  }

  // The mean over all iterations is the largest mean of a thread exactly when all threads have
  // the same.
  lemma MeanIsLargest(f: Contribution -> real, cs: seq<Contribution>)
    requires cs != [] && forall i :: 0 <= i < |cs| ==> cs[i].iterations >= 1
    ensures Sum(IterationsOf(), cs) >= 1.0
    ensures Sum(f, cs) / Sum(IterationsOf(), cs) == Largest(PerIteration(f), cs) <==> AllEqual(PerIteration(f), cs)
  {
    var m := Largest(PerIteration(f), cs);
    IterationsPositive(cs);
    LargestIsBound(PerIteration(f), cs);
    SumVersusShares(f, cs, m);
    MeanVersusShares(f, cs, m);
  }

  lemma MeanVersusShares(f: Contribution -> real, cs: seq<Contribution>, m: real)
    requires Sum(IterationsOf(), cs) >= 1.0
    ensures Sum(f, cs) / Sum(IterationsOf(), cs) == m <==> Sum(f, cs) == Sum(Share(m), cs)
  {
    SharesAddUp(m, cs);
    QuotientVersus(Sum(f, cs), Sum(IterationsOf(), cs), m);
  }

  lemma SumVersusShares(f: Contribution -> real, cs: seq<Contribution>, m: real)
    requires forall i :: 0 <= i < |cs| ==> cs[i].iterations >= 1 && PerIteration(f)(cs[i]) <= m
    ensures Sum(f, cs) == Sum(Share(m), cs) <==> forall i :: 0 <= i < |cs| ==> PerIteration(f)(cs[i]) == m
  {
    forall i | 0 <= i < |cs|
      ensures f(cs[i]) <= Share(m)(cs[i]) && (f(cs[i]) == Share(m)(cs[i]) <==> PerIteration(f)(cs[i]) == m)
    {
      AmountVersusShare(f, cs[i], m);
    }
    SumsCompare(f, Share(m), cs);
  }

  // What is printed is the merged time divided by the iterations of all threads. It is the
  // largest of the threads' times per iteration exactly when these are all the same, whatever
  // the counts of the threads are.
  lemma PrintedTimeIsLargest(events: seq<Event>)
    requires Contributions(events) != []
    requires forall i :: 0 <= i < |Contributions(events)| ==> Contributions(events)[i].iterations >= 1
    ensures var res, cs := Outcome(events), Contributions(events);
      && res.iterations >= 1
      && (res.realTime / res.iterations as real == Largest(PerIteration(RealTimeOf()), cs)
          <==> AllEqual(PerIteration(RealTimeOf()), cs))
      && (res.manualTime / res.iterations as real == Largest(PerIteration(ManualTimeOf()), cs)
          <==> AllEqual(PerIteration(ManualTimeOf()), cs))
  {
    Conservation(events, "");
    MeanIsLargest(RealTimeOf(), Contributions(events));
    MeanIsLargest(ManualTimeOf(), Contributions(events));
  }
}
