/** The flags of merged user counters (src/counter.cc): values add up, but flags stay those of the
    first thread that has the counter. */
module MergedCounters {
  import opened ThreadManagers
  import RealSums

  // What is carried along with a counter's value.
  datatype Style = Style(flags: int, oneK: int)

  function StyleOf(x: Counter): Style {
    Style(x.flags, x.oneK)
  }

  // All threads that have a counter give it the same flags.
  ghost predicate HoldersAgree(cs: seq<Contribution>) {
    forall key, i, j :: 0 <= i < |cs| && 0 <= j < |cs| && Holds(cs[i], key) && Holds(cs[j], key) ==>
      StyleOf(cs[i].counters[key]) == StyleOf(cs[j].counters[key])
  }

  // Every lock order of the same contributions leaves the same counters.
  ghost predicate SameInEveryOrder(events: seq<Event>) {
    forall other :: multiset(Contributions(other)) == multiset(Contributions(events)) ==>
      Outcome(other).counters == Outcome(events).counters
  }

  predicate IsFirstHolder(cs: seq<Contribution>, key: string, i: nat) {
    i < |cs| && Holds(cs[i], key) && forall j :: 0 <= j < i ==> !Holds(cs[j], key)
  }

  lemma {:induction false} StyleOfFirstHolder(events: seq<Event>, key: string, i: nat)
    requires IsFirstHolder(Contributions(events), key, i)
    ensures key in Outcome(events).counters
    ensures StyleOf(Outcome(events).counters[key]) == StyleOf(Contributions(events)[i].counters[key])
  {
    var n := |events| - 1;
    var cs := Contributions(events[..n]);
    Conservation(events[..n], key);
    match events[n]
    case Skip(_, _) =>
      assert Contributions(events) == cs;
      StyleOfFirstHolder(events[..n], key, i);
    case Finish(c) =>
      assert Contributions(events) == cs + [c];
      assert forall j :: 0 <= j < |cs| ==> Contributions(events)[j] == cs[j];
      if i < |cs| {
        StyleOfFirstHolder(events[..n], key, i);
      }
  }

  lemma {:induction false} FirstHolder(cs: seq<Contribution>, key: string, n: nat) returns (i: nat)
    requires n <= |cs| && exists j :: 0 <= j < n && Holds(cs[j], key)
    ensures IsFirstHolder(cs, key, i)
  {
    if j :| 0 <= j < n - 1 && Holds(cs[j], key) {
      i := FirstHolder(cs, key, n - 1);
    } else {
      i := n - 1;
    }
  }

  // A list of contributions, merged in its order.
  function Finishes(cs: seq<Contribution>): seq<Event> {
    if cs == [] then [] else Finishes(cs[..|cs| - 1]) + [Finish(cs[|cs| - 1])]
  }

  lemma {:induction false} FinishesContribute(cs: seq<Contribution>)
    ensures Contributions(Finishes(cs)) == cs
  {
    if cs != [] {
      FinishesContribute(cs[..|cs| - 1]);
      ContributionsSnoc(Finishes(cs[..|cs| - 1]), Finish(cs[|cs| - 1]));
    }
  }

  // An order in which thread i comes first.
  function FirstThen(cs: seq<Contribution>, i: nat): seq<Event>
    requires i < |cs|
  {
    Finishes([cs[i]] + (cs[..i] + cs[i + 1..]))
  }

  lemma FirstThenDecides(cs: seq<Contribution>, i: nat, key: string)
    requires i < |cs| && Holds(cs[i], key)
    ensures multiset(Contributions(FirstThen(cs, i))) == multiset(cs)
    ensures key in Outcome(FirstThen(cs, i)).counters
    ensures StyleOf(Outcome(FirstThen(cs, i)).counters[key]) == StyleOf(cs[i].counters[key])
  {
    var order := [cs[i]] + (cs[..i] + cs[i + 1..]);
    RealSums.TakeOut(cs, i);
    FinishesContribute(order);
    StyleOfFirst(order, key);
  }

  lemma AgreeingHoldersMerge(events: seq<Event>, other: seq<Event>)
    requires HoldersAgree(Contributions(events)) && multiset(Contributions(other)) == multiset(Contributions(events))
    ensures Outcome(other).counters == Outcome(events).counters
  {
    var a, b := Outcome(events).counters, Outcome(other).counters;
    forall key ensures key in a <==> key in b {
      OrderDoesNotMatter(events, other, key);
    }
    forall key | key in a ensures a[key] == b[key] {
      OrderDoesNotMatter(events, other, key);
      SameStyle(events, other, key);
    }
  }

  lemma SameStyle(events: seq<Event>, other: seq<Event>, key: string)
    requires HoldersAgree(Contributions(events)) && multiset(Contributions(other)) == multiset(Contributions(events))
    requires key in Outcome(events).counters && key in Outcome(other).counters
    ensures StyleOf(Outcome(events).counters[key]) == StyleOf(Outcome(other).counters[key])
  {
    var cs, cs' := Contributions(events), Contributions(other);
    Conservation(events, key);
    Conservation(other, key);
    var i := FirstHolder(cs, key, |cs|);
    var j := FirstHolder(cs', key, |cs'|);
    StyleOfFirstHolder(events, key, i);
    StyleOfFirstHolder(other, key, j);
    assert cs'[j] in multiset(cs);
    var k :| 0 <= k < |cs| && cs[k] == cs'[j];
    assert Holds(cs[i], key) && Holds(cs[k], key);
  }

  // The merged counters are the same in every lock order if and only if, for each counter, all
  // threads that have it give it the same flags.
  lemma FlagsNeedAgreement(events: seq<Event>)
    ensures SameInEveryOrder(events) <==> HoldersAgree(Contributions(events))
  {
    var cs := Contributions(events);
    if HoldersAgree(cs) {
      forall other | multiset(Contributions(other)) == multiset(cs)
        ensures Outcome(other).counters == Outcome(events).counters
      {
        AgreeingHoldersMerge(events, other);
      }
    } else {
      var key, i: nat, j: nat :| i < |cs| && j < |cs| && Holds(cs[i], key) && Holds(cs[j], key)
        && StyleOf(cs[i].counters[key]) != StyleOf(cs[j].counters[key]);
      FirstThenDecides(cs, i, key);
      FirstThenDecides(cs, j, key);
      assert Outcome(FirstThen(cs, i)).counters != Outcome(FirstThen(cs, j)).counters;
    }
  }

  // Two threads with flags 0 and 7: the merged counter has those of the first.
  lemma FlagsDependOnOrder()
    ensures var zero := Contribution(1, 0.0, 0.0, 0.0, 0, map["k" := Counter(1.0, 0, 1000)]);
            var seven := Contribution(1, 0.0, 0.0, 0.0, 0, map["k" := Counter(1.0, 7, 1000)]);
            var a, b := Outcome(Finishes([zero, seven])).counters, Outcome(Finishes([seven, zero])).counters;
            "k" in a && "k" in b && a["k"].flags == 0 && b["k"].flags == 7
  {
    var zero := Contribution(1, 0.0, 0.0, 0.0, 0, map["k" := Counter(1.0, 0, 1000)]);
    var seven := Contribution(1, 0.0, 0.0, 0.0, 0, map["k" := Counter(1.0, 7, 1000)]);
    StyleOfFirst([zero, seven], "k");
    StyleOfFirst([seven, zero], "k");
  }

  lemma StyleOfFirst(cs: seq<Contribution>, key: string)
    requires cs != [] && Holds(cs[0], key)
    ensures key in Outcome(Finishes(cs)).counters
    ensures StyleOf(Outcome(Finishes(cs)).counters[key]) == StyleOf(cs[0].counters[key])
  {
    FinishesContribute(cs);
    StyleOfFirstHolder(Finishes(cs), key, 0);
  }
}
