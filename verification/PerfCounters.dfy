/** PerfCounters::Create and PerfCounterValues::Read (src/perf_counters.cc): grouping hardware
    counters under leaders while the kernel may refuse any of them, and gathering the groups'
    values in one buffer. The kernel is an oracle. */
module PerfCounting {
  import opened Sequences

  const MAX_COUNTERS: nat := 32
  const BUFFER_WORDS: nat := 34
  const SYSCALL_RETRIES: nat := 5

  // What one perf_event_open call answers.
  datatype Answer = Granted | Interrupted | Refused

  // The attributes that Create computes: opened stopped, and pinned to the hardware.
  datatype Attributes = Attributes(disabled: bool, pinned: bool)

  // An open counter: the event it counts, and the leader of the group it was attached to
  // (itself for a leader).
  datatype Attached = Attached(event: string, fd: int, leader: int, attr: Attributes)

  // What the machine answers: which names it can encode, its answer to the n-th call and the
  // descriptor that it hands out then, which leaders can be started, and which read calls succeed.
  datatype Machine = Machine(
    known: string -> bool, answers: nat -> Answer, descriptor: (nat, seq<Attached>) -> nat,
    starts: int -> bool, readable: nat -> bool)

  datatype Counters = Counters(names: seq<string>, ids: seq<int>, leaders: seq<int>)

  const NO_COUNTERS := Counters([], [], [])

  // A descriptor is not handed out while it is open; once closed it may come again.
  ghost predicate HandsOutUnused(m: Machine) {
    forall c: nat, open: seq<Attached> :: m.descriptor(c, open) !in Ids(open)
  }

  // ----- What the loops of Create obtain

  // The descriptor (or -1), and the number of the next call.
  datatype Attempt = Attempt(id: int, calls: nat)

  // Interrupted calls are repeated, up to a bound.
  function Round(m: Machine, open: seq<Attached>, c: nat, tries: nat): Attempt
    decreases tries
  {
    if tries == 0 then Attempt(-1, c)
    else match m.answers(c)
      case Granted => Attempt(m.descriptor(c, open), c + 1)
      case Refused => Attempt(-1, c + 1)
      case Interrupted => Round(m, open, c + 1, tries - 1)
  }

  // A counter that cannot join the current group is tried once more as the leader of a new one.
  function Acquire(m: Machine, open: seq<Attached>, c: nat, group: int): (Attempt, int) {
    var first := Round(m, open, c, SYSCALL_RETRIES);
    if first.id >= 0 || group < 0 then (first, group) else (Round(m, open, first.calls, SYSCALL_RETRIES), -1)
  }

  datatype Progress = Progress(got: Counters, group: int, calls: nat, attached: seq<Attached>)

  // The attributes of the first counter of a group, and of the others. They are computed before
  // the counter is tried.
  function FirstAttributes(isFirst: bool): Attributes {
    Attributes(isFirst, isFirst)
  }

  // `before` is what was open already.
  function AfterName(m: Machine, before: seq<Attached>, name: string, p: Progress): Progress {
    if name == "" || !m.known(name) then p else
      var (attempt, group) := Acquire(m, before + p.attached, p.calls, p.group);
      if attempt.id < 0 then p.(group := group, calls := attempt.calls) else
        var leader := if group < 0 then attempt.id else group;
        Progress(
          Counters(p.got.names + [name], p.got.ids + [attempt.id],
                   if group < 0 then p.got.leaders + [attempt.id] else p.got.leaders),
          leader, attempt.calls, p.attached + [Attached(name, attempt.id, leader, FirstAttributes(p.group < 0))])
  }

  // Folding a step over the first n names.
  function Fold<P>(step: (string, P) -> P, start: P, names: seq<string>, n: nat): P
    requires n <= |names|
  {
    if n == 0 then start else step(names[n - 1], Fold(step, start, names, n - 1))
  }

  function Stepping(m: Machine, before: seq<Attached>): (string, Progress) -> Progress {
    (name: string, p: Progress) => Step(m, before, name, p)
  }

  function AfterNames(m: Machine, before: seq<Attached>, c: nat, names: seq<string>, n: nat): Progress
    requires n <= |names|
  {
    Fold(Stepping(m, before), Progress(NO_COUNTERS, -1, c, []), names, n)
  }

  function Step(m: Machine, before: seq<Attached>, name: string, p: Progress): Progress {
    if |p.got.names| == MAX_COUNTERS then p else AfterName(m, before, name, p)
  }

  // ----- Groups

  // The counters of one group, in the order in which they were attached.
  function Members(attached: seq<Attached>, lead: int): seq<Attached> {
    Filter(LedBy(lead), attached)
  }

  function LedBy(lead: int): Attached -> bool {
    (e: Attached) => e.leader == lead
  }

  // The groups one after the other, in the order of their leaders.
  function Gathered(attached: seq<Attached>, leaders: seq<int>, n: nat): seq<Attached>
    requires n <= |leaders|
  {
    if n == 0 then [] else Gathered(attached, leaders, n - 1) + Members(attached, leaders[n - 1])
  }

  function Ids(attached: seq<Attached>): (ids: seq<int>)
    ensures |ids| == |attached| && forall i :: 0 <= i < |ids| ==> ids[i] == attached[i].fd
  {
    seq(|attached|, i requires 0 <= i < |attached| => attached[i].fd)
  }

  function Events(attached: seq<Attached>): (events: seq<string>)
    ensures |events| == |attached| && forall i :: 0 <= i < |events| ==> events[i] == attached[i].event
  {
    seq(|attached|, i requires 0 <= i < |attached| => attached[i].event)
  }

  // A new counter either leads a new group or joins the newest one.
  predicate Grouped(attached: seq<Attached>, leaders: seq<int>) {
    if attached == [] then leaders == [] else
      var e := attached[|attached| - 1];
      var rest := attached[..|attached| - 1];
      && leaders != [] && e.leader == leaders[|leaders| - 1]
      && if e.fd == e.leader then e.fd !in leaders[..|leaders| - 1] && Grouped(rest, leaders[..|leaders| - 1])
         else Grouped(rest, leaders) && e.attr == Attributes(false, false)
  }

  lemma {:induction false} GroupedLeaders(attached: seq<Attached>, leaders: seq<int>)
    requires Grouped(attached, leaders)
    ensures forall e :: e in attached ==> e.leader in leaders
    ensures forall i, j :: 0 <= i < j < |leaders| ==> leaders[i] != leaders[j]
  {
    if attached != [] {
      var e, rest := attached[|attached| - 1], attached[..|attached| - 1];
      assert attached == rest + [e];
      if e.fd == e.leader {
        GroupedLeaders(rest, leaders[..|leaders| - 1]);
      } else {
        GroupedLeaders(rest, leaders);
      }
    }
  }

  lemma {:induction false} GatheredWithout(attached: seq<Attached>, e: Attached, leaders: seq<int>, n: nat)
    requires n <= |leaders| && e.leader !in leaders[..n]
    ensures Gathered(attached + [e], leaders, n) == Gathered(attached, leaders, n)
  {
    if n > 0 {
      assert leaders[..n][n - 1] == leaders[n - 1];
      assert forall l :: l in leaders[..n - 1] ==> l in leaders[..n];
      GatheredWithout(attached, e, leaders, n - 1);
      FilterAppend(LedBy(leaders[n - 1]), attached, [e]);
      FilterNone(LedBy(leaders[n - 1]), [e]);
    }
  }

  lemma {:induction false} GatheredPrefix(attached: seq<Attached>, leaders: seq<int>, m: nat, n: nat)
    requires n <= m <= |leaders|
    ensures Gathered(attached, leaders[..m], n) == Gathered(attached, leaders, n)
  {
    if n > 0 {
      GatheredPrefix(attached, leaders, m, n - 1);
    }
  }

  // The groups follow each other in the order of their leaders: gathering them group by group
  // gives the counters in the order in which they were created.
  lemma {:induction false} GroupsAreContiguous(attached: seq<Attached>, leaders: seq<int>)
    requires Grouped(attached, leaders)
    ensures Gathered(attached, leaders, |leaders|) == attached
  {
    if attached != [] {
      var e, rest := attached[|attached| - 1], attached[..|attached| - 1];
      var n := |leaders| - 1;
      assert attached == rest + [e];
      GroupedLeaders(attached, leaders);
      GatheredWithout(rest, e, leaders, n);
      FilterAppend(LedBy(leaders[n]), rest, [e]);
      FilterAll(LedBy(e.leader), [e]);
      if e.fd == e.leader {
        GroupsAreContiguous(rest, leaders[..n]);
        GatheredPrefix(rest, leaders, n, n);
        GroupedLeaders(rest, leaders[..n]);
        FilterNone(LedBy(leaders[n]), rest);
      } else {
        GroupsAreContiguous(rest, leaders);
      }
    }
  }

  // Every group starts with its leader, and only leaders may have been opened stopped.
  lemma {:induction false} GroupStartsWithLeader(attached: seq<Attached>, leaders: seq<int>, g: nat)
    requires Grouped(attached, leaders) && g < |leaders|
    ensures var members := Members(attached, leaders[g]);
      members != [] && members[0].fd == leaders[g] && forall i :: 1 <= i < |members| ==> members[i].attr == Attributes(false, false)
  {
    var e, rest := attached[|attached| - 1], attached[..|attached| - 1];
    GroupedLeaders(attached, leaders);
    if e.fd != e.leader {
      GroupStartsWithLeader(rest, leaders, g);
    } else if g < |leaders| - 1 {
      GroupStartsWithLeader(rest, leaders[..|leaders| - 1], g);
    } else {
      GroupedLeaders(rest, leaders[..|leaders| - 1]);
      FilterNone(LedBy(leaders[g]), rest);
    }
  }

  // ----- What Create maintains

  lemma {:induction false} RoundFacts(m: Machine, open: seq<Attached>, c: nat, tries: nat)
    ensures var a := Round(m, open, c, tries);
      && c <= a.calls <= c + tries && a.id >= -1
      && (a.id >= 0 ==> c < a.calls && m.answers(a.calls - 1).Granted? && a.id == m.descriptor(a.calls - 1, open))
      && forall j: nat :: c <= j < a.calls && (a.id < 0 || j < a.calls - 1) ==> !m.answers(j).Granted?
    decreases tries
  {
    if tries > 0 && m.answers(c).Interrupted? {
      RoundFacts(m, open, c + 1, tries - 1);
    }
  }

  // An interrupted call is repeated until it is answered, but not more than five times in all.
  lemma InterruptedCallsAreRepeated(m: Machine, open: seq<Attached>, c: nat, k: nat)
    requires k <= 5 && (forall j :: c <= j < c + k ==> m.answers(j).Interrupted?)
    requires k < 5 ==> !m.answers(c + k).Interrupted?
    ensures Round(m, open, c, SYSCALL_RETRIES) ==
      if k == 5 then Attempt(-1, c + 5)
      else if m.answers(c + k).Granted? then Attempt(m.descriptor(c + k, open), c + k + 1)
      else Attempt(-1, c + k + 1)
  {
    RoundFrom(m, open, c, k, SYSCALL_RETRIES);
  }

  lemma {:induction false} RoundFrom(m: Machine, open: seq<Attached>, c: nat, k: nat, tries: nat)
    requires k <= tries && (forall j :: c <= j < c + k ==> m.answers(j).Interrupted?)
    requires k < tries ==> !m.answers(c + k).Interrupted?
    ensures Round(m, open, c, tries) ==
      if k == tries then Attempt(-1, c + k)
      else if m.answers(c + k).Granted? then Attempt(m.descriptor(c + k, open), c + k + 1)
      else Attempt(-1, c + k + 1)
    decreases tries
  {
    if k > 0 {
      RoundFrom(m, open, c + 1, k - 1, tries - 1);
    }
  }

  // Names and descriptors correspond, and the groups are contiguous.
  predicate Shaped(p: Progress) {
    && |p.got.names| == |p.got.ids| <= MAX_COUNTERS && Ids(p.attached) == p.got.ids && Events(p.attached) == p.got.names
    && Grouped(p.attached, p.got.leaders)
    && p.group >= -1 && (p.group >= 0 ==> p.got.leaders != [] && p.group == p.got.leaders[|p.got.leaders| - 1])
    && (forall l :: l in p.got.leaders ==> l in p.got.ids)
  }

  // The descriptors are different, and none was open before.
  predicate Fresh(before: seq<Attached>, c: nat, p: Progress) {
    && c <= p.calls
    && (forall fd :: fd in p.got.ids ==> fd !in Ids(before))
    && (forall i, j :: 0 <= i < j < |p.got.ids| ==> p.got.ids[i] != p.got.ids[j])
  }

  lemma AcquireFacts(m: Machine, open: seq<Attached>, c: nat, group: int)
    requires HandsOutUnused(m)
    ensures var (a, g) := Acquire(m, open, c, group);
      && c <= a.calls <= c + 2 * SYSCALL_RETRIES && a.id >= -1 && (g == group || g == -1)
      && (a.id >= 0 ==> a.id !in Ids(open))
  {
    RoundFacts(m, open, c, SYSCALL_RETRIES);
    RoundFacts(m, open, Round(m, open, c, SYSCALL_RETRIES).calls, SYSCALL_RETRIES);
  }

  lemma InIds(before: seq<Attached>, after: seq<Attached>, fd: int)
    ensures fd in Ids(before + after) <==> fd in Ids(before) || fd in Ids(after)
  {
    assert Ids(before + after) == Ids(before) + Ids(after);
  }

  lemma NameKeepsFresh(m: Machine, before: seq<Attached>, c: nat, name: string, p: Progress)
    requires HandsOutUnused(m) && Fresh(before, c, p) && Ids(p.attached) == p.got.ids
    ensures Fresh(before, c, AfterName(m, before, name, p))
    ensures p.calls <= AfterName(m, before, name, p).calls <= p.calls + 2 * SYSCALL_RETRIES
    ensures |AfterName(m, before, name, p).got.ids| > |p.got.ids| ==>
      var ids := AfterName(m, before, name, p).got.ids; ids[|ids| - 1] >= 0 && ids[|ids| - 1] !in p.got.ids
  {
    AcquireFacts(m, before + p.attached, p.calls, p.group);
    InIds(before, p.attached, Acquire(m, before + p.attached, p.calls, p.group).0.id);
  }

  lemma AppendKeepsShape(p: Progress, name: string, id: int, calls: nat, leads: bool, attr: Attributes)
    requires Shaped(p) && |p.got.names| < MAX_COUNTERS && id >= 0 && id !in p.got.ids
    requires !leads ==> p.group >= 0 && attr == Attributes(false, false)
    ensures var leader := if leads then id else p.group;
      Shaped(Progress(
        Counters(p.got.names + [name], p.got.ids + [id], if leads then p.got.leaders + [id] else p.got.leaders),
        leader, calls, p.attached + [Attached(name, id, leader, attr)]))
  {
    var e := Attached(name, id, if leads then id else p.group, attr);
    var all := p.attached + [e];
    assert all[..|all| - 1] == p.attached;
    assert Ids(all) == Ids(p.attached) + [id] && Events(all) == Events(p.attached) + [name];
    if leads {
      var leaders := p.got.leaders + [id];
      assert leaders[..|leaders| - 1] == p.got.leaders;
    } else {
      assert p.group in p.got.leaders;
    }
  }

  lemma NameKeepsShape(m: Machine, before: seq<Attached>, c: nat, name: string, p: Progress)
    requires HandsOutUnused(m) && Fresh(before, c, p) && Shaped(p) && |p.got.names| < MAX_COUNTERS
    ensures Shaped(AfterName(m, before, name, p))
  {
    AcquireFacts(m, before + p.attached, p.calls, p.group);
    NameKeepsFresh(m, before, c, name, p);
    var (a, group) := Acquire(m, before + p.attached, p.calls, p.group);
    if a.id >= 0 && name != "" && m.known(name) {
      assert AfterName(m, before, name, p).got.ids == p.got.ids + [a.id];
      AppendKeepsShape(p, name, a.id, a.calls, group < 0, FirstAttributes(p.group < 0));
    }
  }

  lemma {:induction false} FoldKeeps<P(!new)>(step: (string, P) -> P, start: P, names: seq<string>, n: nat, inv: (nat, P) -> bool)
    requires n <= |names| && inv(0, start)
    requires forall i: nat, name, p :: inv(i, p) ==> inv(i + 1, step(name, p))
    ensures inv(n, Fold(step, start, names, n))
  {
    if n > 0 {
      FoldKeeps(step, start, names, n - 1, inv);
    }
  }

  predicate Sound(before: seq<Attached>, c: nat, n: nat, p: Progress) {
    Shaped(p) && Fresh(before, c, p) && p.calls <= c + 2 * SYSCALL_RETRIES * n
  }

  // Whatever the kernel answers: names and descriptors correspond, at most 32 of each, all
  // different and new; they form contiguous groups; at most ten calls are made for a name.
  lemma CreateIsSound(m: Machine, before: seq<Attached>, c: nat, names: seq<string>, n: nat)
    requires HandsOutUnused(m) && n <= |names|
    ensures Shaped(AfterNames(m, before, c, names, n)) && Fresh(before, c, AfterNames(m, before, c, names, n))
    ensures AfterNames(m, before, c, names, n).calls <= c + 2 * SYSCALL_RETRIES * n
  {
    SoundAfter(m, before, c, names, n);
  }

  lemma SoundAfter(m: Machine, before: seq<Attached>, c: nat, names: seq<string>, n: nat)
    requires HandsOutUnused(m) && n <= |names|
    ensures Sound(before, c, n, AfterNames(m, before, c, names, n))
  {
    var inv := (i: nat, p: Progress) => Sound(before, c, i, p);
    forall i: nat, name, p | inv(i, p) ensures inv(i + 1, Stepping(m, before)(name, p)) {
      StepKeepsSound(m, before, c, name, i, p);
    }
    FoldKeeps(Stepping(m, before), Progress(NO_COUNTERS, -1, c, []), names, n, inv);
  }

  lemma StepKeepsSound(m: Machine, before: seq<Attached>, c: nat, name: string, i: nat, p: Progress)
    requires HandsOutUnused(m) && Sound(before, c, i, p)
    ensures Sound(before, c, i + 1, Step(m, before, name, p))
  {
    StepIsSound(m, before, c, name, p);
  }

  lemma StepIsSound(m: Machine, before: seq<Attached>, c: nat, name: string, p: Progress)
    requires HandsOutUnused(m) && Shaped(p) && Fresh(before, c, p)
    ensures Shaped(Step(m, before, name, p)) && Fresh(before, c, Step(m, before, name, p))
    ensures Step(m, before, name, p).calls <= p.calls + 2 * SYSCALL_RETRIES
  {
    if |p.got.names| < MAX_COUNTERS {
      NameKeepsFresh(m, before, c, name, p);
      NameKeepsShape(m, before, c, name, p);
    }
  }

  // ----- Which leaders are opened stopped

  // The group is full: the counter is refused in it and granted as the leader of a new one.
  predicate Overflows(m: Machine, before: seq<Attached>, name: string, p: Progress) {
    var first := Round(m, before + p.attached, p.calls, SYSCALL_RETRIES);
    && |p.got.names| < MAX_COUNTERS && name != "" && m.known(name)
    && p.group >= 0 && first.id < 0 && Round(m, before + p.attached, first.calls, SYSCALL_RETRIES).id >= 0
  }

  // Every group leader is opened stopped and pinned.
  predicate LeadersAreFirst(attached: seq<Attached>) {
    forall e :: e in attached && e.fd == e.leader ==> e.attr == Attributes(true, true)
  }

  lemma StepKeepsLeadersFirst(m: Machine, before: seq<Attached>, c: nat, name: string, p: Progress)
    requires HandsOutUnused(m) && Shaped(p) && Fresh(before, c, p)
    ensures LeadersAreFirst(Step(m, before, name, p).attached) <==>
      LeadersAreFirst(p.attached) && !Overflows(m, before, name, p)
  {
    var open, q := before + p.attached, Step(m, before, name, p);
    AcquireFacts(m, open, p.calls, p.group);
    RoundFacts(m, open, p.calls, SYSCALL_RETRIES);
    InIds(before, p.attached, Acquire(m, open, p.calls, p.group).0.id);
    if q.attached != p.attached {
      var e := q.attached[|p.attached|];
      assert q.attached == p.attached + [e];
      assert p.group in p.got.ids || p.group < 0;
    }
  }

  // The group is full when name number i comes up.
  predicate OverflowsAt(m: Machine, before: seq<Attached>, c: nat, names: seq<string>, i: nat)
    requires i < |names|
  {
    Overflows(m, before, names[i], AfterNames(m, before, c, names, i))
  }

  predicate LeadersFirstAfter(m: Machine, before: seq<Attached>, c: nat, names: seq<string>, n: nat)
    requires n <= |names|
  {
    LeadersAreFirst(AfterNames(m, before, c, names, n).attached)
  }

  lemma NextKeepsLeadersFirst(m: Machine, before: seq<Attached>, c: nat, names: seq<string>, n: nat)
    requires HandsOutUnused(m) && n < |names|
    ensures LeadersFirstAfter(m, before, c, names, n + 1) <==>
      LeadersFirstAfter(m, before, c, names, n) && !OverflowsAt(m, before, c, names, n)
  {
    CreateIsSound(m, before, c, names, n);
    StepKeepsLeadersFirst(m, before, c, names[n], AfterNames(m, before, c, names, n));
  }

  // What holds at first and is lost exactly at a bad step holds as long as there is none.
  lemma {:induction false} HoldsUntilBad(good: nat -> bool, bad: nat -> bool, n: nat)
    requires good(0) && forall i: nat :: i < n ==> (good(i + 1) <==> good(i) && !bad(i))
    ensures good(n) <==> forall i: nat :: i < n ==> !bad(i)
  {
    if n > 0 {
      HoldsUntilBad(good, bad, n - 1);
    }
  }

  // Every leader is opened stopped and pinned, as the source has it for the first counter of a
  // group, if and only if no group ever overflows.
  lemma LeadersAreFirstUnlessOverflow(m: Machine, before: seq<Attached>, c: nat, names: seq<string>, n: nat)
    requires HandsOutUnused(m) && n <= |names|
    ensures LeadersFirstAfter(m, before, c, names, n) <==>
      forall i: nat :: i < n ==> !OverflowsAt(m, before, c, names, i)
  {
    var good := (i: nat) => i <= |names| && LeadersFirstAfter(m, before, c, names, i);
    var bad := (i: nat) => i < |names| && OverflowsAt(m, before, c, names, i);
    forall i: nat | i < n ensures good(i + 1) <==> good(i) && !bad(i) {
      NextKeepsLeadersFirst(m, before, c, names, i);
    }
    NoLeadersYet(m, before, c, names);
    HoldsUntilBad(good, bad, n);
    assert forall i: nat :: i < n ==> (bad(i) <==> OverflowsAt(m, before, c, names, i));
  }

  lemma NoLeadersYet(m: Machine, before: seq<Attached>, c: nat, names: seq<string>)
    ensures LeadersFirstAfter(m, before, c, names, 0)
  {
  }

  // Two names: the first is granted, the second is refused in its group and then granted as a
  // leader, which is opened running and not pinned.
  lemma PromotedLeaderRuns(m: Machine)
    requires HandsOutUnused(m) && m.known("a") && m.known("b")
    requires m.answers(0).Granted? && m.answers(1).Refused? && m.answers(2).Granted?
    ensures var p := AfterNames(m, [], 0, ["a", "b"], 2);
      && |p.got.leaders| == |p.attached| == 2
      && p.attached[0].attr == Attributes(true, true)
      && p.attached[1].fd == p.attached[1].leader && p.attached[1].attr == Attributes(false, false)
  {
    var names := ["a", "b"];
    var start := Progress(NO_COUNTERS, -1, 0, []);
    var one := AfterNames(m, [], 0, names, 1);
    assert AfterNames(m, [], 0, names, 0) == start;
    assert one == Step(m, [], "a", start);
    assert AfterNames(m, [], 0, names, 2) == Step(m, [], "b", one);
    assert Round(m, [] + one.attached, 1, SYSCALL_RETRIES) == Attempt(-1, 2);
    assert Round(m, [] + one.attached, 2, SYSCALL_RETRIES).id >= 0;
  }

  // a is b with some elements left out.
  predicate IsSubsequence(a: seq<string>, b: seq<string>) {
    if a == [] then true else if b == [] then false else
      || IsSubsequence(a, b[..|b| - 1])
      || (a[|a| - 1] == b[|b| - 1] && IsSubsequence(a[..|a| - 1], b[..|b| - 1]))
  }

  // The counted names are requested ones, in the order of the request.
  lemma {:induction false} NamesInOrder(m: Machine, before: seq<Attached>, c: nat, names: seq<string>, n: nat)
    requires n <= |names|
    ensures IsSubsequence(AfterNames(m, before, c, names, n).got.names, names[..n])
  {
    if n > 0 {
      NamesInOrder(m, before, c, names, n - 1);
      var p, q := AfterNames(m, before, c, names, n - 1), AfterNames(m, before, c, names, n);
      assert names[..n][..|names[..n]| - 1] == names[..n - 1];
      assert q.got.names == p.got.names || q.got.names == p.got.names + [names[n - 1]];
      assert q.got.names != p.got.names ==> q.got.names[..|q.got.names| - 1] == p.got.names;
    }
  }

  // A known name is dropped only when a round of calls failed although it asked for a group
  // of its own.
  lemma DroppedOnlyWhenRefused(m: Machine, before: seq<Attached>, name: string, p: Progress)
    requires name != "" && m.known(name) && AfterName(m, before, name, p).got == p.got
    ensures var q := AfterName(m, before, name, p);
      && q.group < 0
      && exists c: nat :: p.calls <= c && Round(m, before + p.attached, c, SYSCALL_RETRIES) == Attempt(-1, q.calls)
  {
    var open := before + p.attached;
    RoundFacts(m, open, p.calls, SYSCALL_RETRIES);
    var first := Round(m, open, p.calls, SYSCALL_RETRIES);
    RoundFacts(m, open, first.calls, SYSCALL_RETRIES);
    var (attempt, group) := Acquire(m, open, p.calls, p.group);
    assert attempt.id >= 0 ==> |AfterName(m, before, name, p).got.names| == |p.got.names| + 1;
    assert AfterName(m, before, name, p) == p.(group := group, calls := attempt.calls);
    if p.group < 0 {
      assert Round(m, open, p.calls, SYSCALL_RETRIES) == Attempt(-1, attempt.calls);
    } else {
      assert Round(m, open, first.calls, SYSCALL_RETRIES) == Attempt(-1, attempt.calls);
    }
  }

  // It is dropped exactly when it was refused in the current group, if there is one, and as the
  // leader of a new one.
  lemma DroppedIffRefused(m: Machine, before: seq<Attached>, name: string, p: Progress)
    requires name != "" && m.known(name)
    ensures var first := Round(m, before + p.attached, p.calls, SYSCALL_RETRIES);
      AfterName(m, before, name, p).got.names == p.got.names <==>
        first.id < 0 && (p.group >= 0 ==> Round(m, before + p.attached, first.calls, SYSCALL_RETRIES).id < 0)
  {
    var (attempt, _) := Acquire(m, before + p.attached, p.calls, p.group);
    assert attempt.id >= 0 ==> |AfterName(m, before, name, p).got.names| == |p.got.names| + 1;
  }

  // The names that can be counted, up to the maximum.
  function Countable(m: Machine, names: seq<string>, n: nat): seq<string>
    requires n <= |names|
  {
    if n == 0 then [] else
      var before := Countable(m, names, n - 1);
      if |before| == MAX_COUNTERS || names[n - 1] == "" || !m.known(names[n - 1]) then before else before + [names[n - 1]]
  }

  // When the kernel refuses nothing, every countable name gets its counter, all in one group.
  lemma {:induction false} NothingRefused(m: Machine, before: seq<Attached>, c: nat, names: seq<string>, n: nat)
    requires n <= |names| && forall j: nat :: c <= j ==> m.answers(j).Granted?
    ensures var p := AfterNames(m, before, c, names, n);
      && p.got.names == Countable(m, names, n) && c <= p.calls
      && |p.got.leaders| == (if p.got.names == [] then 0 else 1) && (p.group < 0 <==> p.got.names == [])
  {
    if n > 0 {
      NothingRefused(m, before, c, names, n - 1);
      var p := AfterNames(m, before, c, names, n - 1);
      RoundFacts(m, before + p.attached, p.calls, SYSCALL_RETRIES);
      assert m.answers(p.calls).Granted?;
    }
  }

  // ----- The kernel

  function Counted(count: int -> int, members: seq<Attached>): (values: seq<int>)
    ensures |values| == |members| && forall i :: 0 <= i < |members| ==> values[i] == count(members[i].fd)
  {
    seq(|members|, i requires 0 <= i < |members| => count(members[i].fd))
  }

  function Without(attached: seq<Attached>, fd: int): seq<Attached> {
    Filter(OtherThan(fd), attached)
  }

  function OtherThan(fd: int): Attached -> bool {
    (e: Attached) => e.fd != fd
  }

  function NotAmong(ids: seq<int>): Attached -> bool {
    (e: Attached) => e.fd !in ids
  }

  // The leader of every open counter is open.
  predicate Coherent(attached: seq<Attached>) {
    forall e :: e in attached ==> e.leader in Ids(attached)
  }

  // What is added keeps apart from what was open.
  lemma KeptApart(before: seq<Attached>, c: nat, p: Progress)
    requires Coherent(before) && Shaped(p) && Fresh(before, c, p)
    ensures Coherent(before + p.attached)
    ensures forall e :: e in before ==> e.fd !in p.got.ids && e.leader !in p.got.leaders
    ensures Filter(NotAmong(p.got.ids), before + p.attached) == before
  {
    GroupedLeaders(p.attached, p.got.leaders);
    forall e | e in before + p.attached ensures e.leader in Ids(before + p.attached) {
      InIds(before, p.attached, e.leader);
    }
    forall e | e in before ensures e.fd in Ids(before) {
    }
    forall e | e in p.attached ensures e.fd in Ids(p.attached) {
    }
    FilterAppend(NotAmong(p.got.ids), before, p.attached);
    FilterAll(NotAmong(p.got.ids), before);
    FilterNone(NotAmong(p.got.ids), p.attached);
  }

  class Kernel {
    const machine: Machine
    var calls: nat
    var readCalls: nat
    var attached: seq<Attached>
    var started: set<int>
    var count: int -> int

    constructor (m: Machine, initial: int -> int)
      ensures machine == m && calls == readCalls == 0 && attached == [] && started == {} && count == initial
    {
      machine, calls, readCalls, attached, started, count := m, 0, 0, [], {}, initial;
    }

    ghost predicate Valid()
      reads this
    {
      HandsOutUnused(machine) && Coherent(attached)
    }

    // perf_event_open with a group leader, or with -1 for a new group.
    method Open(event: string, group: int, attr: Attributes) returns (id: int, interrupted: bool)
      modifies this`calls, this`attached
      ensures calls == old(calls) + 1
      ensures interrupted == machine.answers(old(calls)).Interrupted?
      ensures id == if machine.answers(old(calls)).Granted? then machine.descriptor(old(calls), old(attached)) else -1
      ensures attached == old(attached)
        + if id < 0 then [] else [Attached(event, id, if group < 0 then id else group, attr)]
    {
      id, interrupted := -1, false;
      match machine.answers(calls) {
        case Granted =>
          id := machine.descriptor(calls, attached);
          attached := attached + [Attached(event, id, if group < 0 then id else group, attr)];
        case Interrupted => interrupted := true;
        case Refused =>
      }
      calls := calls + 1;
    }

    method Start(lead: int) returns (ok: bool)
      modifies this`started
      ensures ok == machine.starts(lead) && started == if ok then old(started) + {lead} else old(started)
    {
      ok := machine.starts(lead);
      if ok {
        started := started + {lead};
      }
    }

    // read on a group leader: a word with the number of values, then the values, or nothing
    // at all when they do not fit.
    method ReadGroup(lead: int, buf: array<int>, at: nat, size: nat) returns (words: int)
      requires at + size <= buf.Length
      modifies this`readCalls, buf
      ensures readCalls == old(readCalls) + 1
      ensures var members := Members(attached, lead);
        words == if machine.readable(old(readCalls)) && 1 + |members| <= size then 1 + |members| else -1
      ensures words >= 0 ==> buf[at] == words - 1 && buf[at + 1..at + words] == Counted(count, Members(attached, lead))
      ensures forall i :: 0 <= i < buf.Length && (i < at || at + words <= i) ==> buf[i] == old(buf[i])
    {
      var values := Counted(count, Members(attached, lead));
      words := -1;
      if machine.readable(readCalls) && 1 + |values| <= size {
        words := 1 + |values|;
        buf[at] := |values|;
        var i := 0;
        while i < |values|
          invariant 0 <= i <= |values| && readCalls == old(readCalls)
          invariant buf[at] == |values| && forall j :: 0 <= j < i ==> buf[at + 1 + j] == values[j]
          invariant forall j :: 0 <= j < buf.Length && (j < at || at + 1 + i <= j) ==> buf[j] == old(buf[j])
        {
          buf[at + 1 + i] := values[i];
          i := i + 1;
        }
      }
      readCalls := readCalls + 1;
    }

    method Stop(lead: int)
      modifies this`started
      ensures started == old(started) - {lead}
    {
      started := started - {lead};
    }

    method Close(fd: int)
      modifies this`attached
      ensures attached == Without(old(attached), fd)
    {
      attached := Without(attached, fd);
    }
  }

  // ----- PerfCounters::Create

  lemma CanBeUndone(m: Machine, before: seq<Attached>, c: nat, names: seq<string>, p: Progress)
    requires HandsOutUnused(m) && Coherent(before) && p == AfterNames(m, before, c, names, |names|)
    ensures p.calls <= c + 2 * SYSCALL_RETRIES * |names|
    ensures Coherent(before + p.attached)
    ensures Filter(NotAmong(p.got.ids), before + p.attached) == before
  {
    CreateIsSound(m, before, c, names, |names|);
    KeptApart(before, c, p);
  }

  // The loop that repeats an interrupted call.
  method OpenRound(k: Kernel, name: string, group: int, attr: Attributes) returns (id: int)
    modifies k`calls, k`attached
    ensures Attempt(id, k.calls) == Round(k.machine, old(k.attached), old(k.calls), SYSCALL_RETRIES)
    ensures k.attached == old(k.attached)
      + if id < 0 then [] else [Attached(name, id, if group < 0 then id else group, attr)]
  {
    id := -1;
    var retries := 0;
    while retries < SYSCALL_RETRIES
      invariant 0 <= retries <= SYSCALL_RETRIES
      invariant id == -1 && k.attached == old(k.attached)
      invariant Round(k.machine, k.attached, k.calls, SYSCALL_RETRIES - retries)
             == Round(k.machine, old(k.attached), old(k.calls), SYSCALL_RETRIES)
    {
      var interrupted;
      id, interrupted := k.Open(name, group, attr);
      if id >= 0 || !interrupted {
        return;
      }
      retries := retries + 1;
    }
  }

  // The loop around it: at most one more round, for a new group.
  method OpenCounter(k: Kernel, name: string, group: int, attr: Attributes) returns (id: int, group': int)
    modifies k`calls, k`attached
    ensures (Attempt(id, k.calls), group') == Acquire(k.machine, old(k.attached), old(k.calls), group)
    ensures k.attached == old(k.attached)
      + if id < 0 then [] else [Attached(name, id, if group' < 0 then id else group', attr)]
  {
    id, group' := -1, group;
    while id < 0
      invariant id >= 0 ==> (Attempt(id, k.calls), group') == Acquire(k.machine, old(k.attached), old(k.calls), group)
      invariant id < 0 ==> k.attached == old(k.attached)
      invariant id < 0 ==>
        Acquire(k.machine, k.attached, k.calls, group') == Acquire(k.machine, old(k.attached), old(k.calls), group)
      invariant id >= 0 ==> k.attached == old(k.attached) + [Attached(name, id, if group' < 0 then id else group', attr)]
      decreases id < 0, group' >= 0
    {
      RoundFacts(k.machine, k.attached, k.calls, SYSCALL_RETRIES);
      id := OpenRound(k, name, group', attr);
      if id < 0 {
        if group' >= 0 {
          group' := -1;
        } else {
          break;
        }
      }
    }
  }

  method Create(k: Kernel, names: seq<string>) returns (r: Counters)
    requires k.Valid()
    modifies k`calls, k`attached, k`started
    ensures k.Valid() && k.calls <= old(k.calls) + 2 * SYSCALL_RETRIES * |names|
    ensures var p := AfterNames(k.machine, old(k.attached), old(k.calls), names, |names|);
      if AllStart(k.machine, p.got.leaders) then
        && r == p.got && k.attached == old(k.attached) + p.attached
        && k.started == old(k.started) + (set l | l in r.leaders)
      else
        r == NO_COUNTERS && k.attached == old(k.attached)
  {
    ghost var p := AfterNames(k.machine, k.attached, k.calls, names, |names|);
    CanBeUndone(k.machine, k.attached, k.calls, names, p);
    r := OpenAll(k, names);
    var ok := StartAll(k, r.leaders);
    if !ok {
      CloseAll(k, r.ids);
      r := NO_COUNTERS;
    }
  }

  predicate AllStart(m: Machine, leaders: seq<int>) {
    forall l :: l in leaders ==> m.starts(l)
  }

  // The loop over the leaders, which gives up at the first that cannot be started.
  method StartAll(k: Kernel, leaders: seq<int>) returns (ok: bool)
    modifies k`started
    ensures ok <==> AllStart(k.machine, leaders)
    ensures ok ==> k.started == old(k.started) + set l | l in leaders
  {
    var i := 0;
    while i < |leaders|
      invariant 0 <= i <= |leaders|
      invariant forall j :: 0 <= j < i ==> k.machine.starts(leaders[j])
      invariant k.started == old(k.started) + set j | 0 <= j < i :: leaders[j]
    {
      ok := k.Start(leaders[i]);
      if !ok {
        return;
      }
      i := i + 1;
    }
    ok := true;
  }

  // The body of the loop over the requested names, below the maximum.
  method AddCounter(k: Kernel, name: string, got: Counters, group: int, ghost base: seq<Attached>,
                    ghost p: Progress) returns (got': Counters, group': int)
    requires p.got == got && p.group == group && p.calls == k.calls && k.attached == base + p.attached
    requires |got.names| < MAX_COUNTERS
    modifies k`calls, k`attached
    ensures var q := Step(k.machine, base, name, p);
      q.got == got' && q.group == group' && q.calls == k.calls && k.attached == base + q.attached
    ensures |got'.names| <= MAX_COUNTERS
  {
    got', group' := got, group;
    if name == "" {
      return;
    }
    var isFirst := group < 0;
    if !k.machine.known(name) {
      return;
    }
    var id;
    id, group' := OpenCounter(k, name, group, Attributes(isFirst, isFirst));
    if id < 0 {
      return;
    }
    var leaders := got.leaders;
    if group' < 0 {
      leaders := leaders + [id];
      group' := id;
    }
    got' := Counters(got.names + [name], got.ids + [id], leaders);
  }

  // The loop over the requested names.
  method OpenAll(k: Kernel, names: seq<string>) returns (r: Counters)
    modifies k`calls, k`attached
    ensures var p := AfterNames(k.machine, old(k.attached), old(k.calls), names, |names|);
      r == p.got && k.calls == p.calls && k.attached == old(k.attached) + p.attached
  {
    ghost var m, before, c := k.machine, k.attached, k.calls;
    ghost var p := AfterNames(m, before, c, names, 0);
    r := NO_COUNTERS;
    var groupId := -1;
    var i := 0;
    while i < |names|
      invariant 0 <= i <= |names| && p == AfterNames(m, before, c, names, i)
      invariant |r.names| <= MAX_COUNTERS && r == p.got && groupId == p.group
      invariant k.calls == p.calls && k.attached == before + p.attached
    {
      if |r.names| == MAX_COUNTERS {
        FullStays(m, before, c, names, i);
        break;
      }
      NextName(m, before, c, names, i);
      r, groupId := AddCounter(k, names[i], r, groupId, before, p);
      p := Step(m, before, names[i], p);
      i := i + 1;
    }
  }

  lemma NextName(m: Machine, before: seq<Attached>, c: nat, names: seq<string>, i: nat)
    requires i < |names|
    ensures AfterNames(m, before, c, names, i + 1) == Step(m, before, names[i], AfterNames(m, before, c, names, i))
  {
  }

  lemma FullStays(m: Machine, before: seq<Attached>, c: nat, names: seq<string>, i: nat)
    requires i <= |names| && |AfterNames(m, before, c, names, i).got.names| == MAX_COUNTERS
    ensures AfterNames(m, before, c, names, |names|) == AfterNames(m, before, c, names, i)
  {
    FoldStays(Stepping(m, before), Progress(NO_COUNTERS, -1, c, []), names, i, |names|);
  }

  lemma {:induction false} FoldStays<P>(step: (string, P) -> P, start: P, names: seq<string>, i: nat, n: nat)
    requires i <= n <= |names|
    requires forall name :: step(name, Fold(step, start, names, i)) == Fold(step, start, names, i)
    ensures Fold(step, start, names, n) == Fold(step, start, names, i)
  {
    if i < n {
      FoldStays(step, start, names, i, n - 1);
    }
  }

  // Closing counters, which leaves all others open.
  method CloseAll(k: Kernel, ids: seq<int>)
    modifies k`attached
    ensures k.attached == Filter(NotAmong(ids), old(k.attached))
  {
    var i := 0;
    FilterAll(NotAmong([]), k.attached);
    while i < |ids|
      invariant 0 <= i <= |ids| && k.attached == Filter(NotAmong(ids[..i]), old(k.attached))
    {
      assert ids[..i + 1] == ids[..i] + [ids[i]];
      FilterTwice(NotAmong(ids[..i]), OtherThan(ids[i]), NotAmong(ids[..i + 1]), old(k.attached));
      k.Close(ids[i]);
      i := i + 1;
    }
    assert ids[..i] == ids;
  }

  // The destructor: the groups are stopped and their counters closed.
  method CloseCounters(k: Kernel, c: Counters)
    modifies k`attached, k`started
    ensures k.attached == Filter(NotAmong(c.ids), old(k.attached))
    ensures c.ids != [] ==> k.started == old(k.started) - set l | l in c.leaders
  {
    if |c.ids| == 0 {
      FilterAll(NotAmong([]), k.attached);
      return;
    }
    var i := 0;
    while i < |c.leaders|
      invariant 0 <= i <= |c.leaders| && k.attached == old(k.attached)
      invariant k.started == old(k.started) - set j | 0 <= j < i :: c.leaders[j]
    {
      k.Stop(c.leaders[i]);
      i := i + 1;
    }
    CloseAll(k, c.ids);
  }

  // Creating counters and destroying them leaves the kernel with what it had open before.
  method CreateAndClose(k: Kernel, names: seq<string>)
    requires k.Valid()
    modifies k`calls, k`attached, k`started
    ensures k.Valid() && k.attached == old(k.attached)
  {
    ghost var p := AfterNames(k.machine, k.attached, k.calls, names, |names|);
    CanBeUndone(k.machine, k.attached, k.calls, names, p);
    FilterAll(NotAmong([]), k.attached);
    var c := Create(k, names);
    CloseCounters(k, c);
  }

  // ----- PerfCounterValues::Read

  // memmove towards the front of a buffer.
  method MoveDown(buf: array<int>, to: nat, from: nat, n: nat)
    requires to <= from && from + n <= buf.Length
    modifies buf
    ensures buf[to..to + n] == old(buf[from..from + n])
    ensures forall i :: 0 <= i < to || to + n <= i < buf.Length ==> buf[i] == old(buf[i])
  {
    var i := 0;
    while i < n
      invariant 0 <= i <= n
      invariant forall j :: to <= j < to + i ==> buf[j] == old(buf[j - to + from])
      invariant forall j :: 0 <= j < to || to + i <= j < buf.Length ==> buf[j] == old(buf[j])
    {
      buf[to + i] := buf[from + i];
      i := i + 1;
    }
    ghost var moved, source := buf[to..to + n], old(buf[from..from + n]);
    forall j | 0 <= j < n ensures moved[j] == source[j] {
      assert buf[to + j] == old(buf[to + j - to + from]);
    }
  }

  lemma {:induction false} GatheredGrows(attached: seq<Attached>, leaders: seq<int>, m: nat, n: nat)
    requires m <= n <= |leaders|
    ensures |Gathered(attached, leaders, m)| <= |Gathered(attached, leaders, n)|
  {
    if m < n {
      GatheredGrows(attached, leaders, m, n - 1);
    }
  }

  lemma CountedTogether(count: int -> int, a: seq<Attached>, b: seq<Attached>)
    ensures Counted(count, a + b) == Counted(count, a) + Counted(count, b)
  {
  }

  class PerfCounterValues {
    const values: array<int>

    constructor ()
      ensures values.Length == BUFFER_WORDS && fresh(values)
    {
      values := new int[BUFFER_WORDS];
    }

    // The body of the loop over the leaders: the values of one group follow those already
    // gathered.
    method ReadOne(k: Kernel, lead: int, ptr: nat, size: nat) returns (data: int)
      requires ptr + size == values.Length
      modifies values, k`readCalls
      ensures k.readCalls == old(k.readCalls) + 1
      ensures var members := Members(k.attached, lead);
        data == if k.machine.readable(old(k.readCalls)) && 1 + |members| <= size then |members| else -1
      ensures data >= 0 ==> values[..ptr + data] == old(values[..ptr]) + Counted(k.count, Members(k.attached, lead))
    {
      var words := k.ReadGroup(lead, values, ptr, size);
      if words < 1 {
        return -1;
      }
      data := words - 1;
      MoveDown(values, ptr, ptr + 1, data);
      assert values[..ptr] == old(values[..ptr]);
      assert values[..ptr + data] == values[..ptr] + values[ptr..ptr + data];
    }

    // Gathers the groups' values at the front of the buffer, without the count words; any
    // failure gives 0. With at most 33 values there is always room for the next group.
    method Read(k: Kernel, leaders: seq<int>) returns (n: nat)
      requires values.Length == BUFFER_WORDS
      modifies values, k`readCalls
      ensures n <= BUFFER_WORDS
      ensures var all := Gathered(k.attached, leaders, |leaders|);
        && (n == |all| || n == 0)
        && (n > 0 ==> values[..n] == Counted(k.count, all))
        && (|all| < BUFFER_WORDS && (forall c :: old(k.readCalls) <= c < old(k.readCalls) + |leaders| ==> k.machine.readable(c))
            ==> n == |all|)
    {
      var ptr: nat, size: nat := 0, BUFFER_WORDS;
      ghost var done: seq<Attached> := [];
      var i := 0;
      while i < |leaders|
        invariant 0 <= i <= |leaders| && k.readCalls == old(k.readCalls) + i
        invariant done == Gathered(k.attached, leaders, i)
        invariant ptr + size == BUFFER_WORDS && ptr == |done| && values[..ptr] == Counted(k.count, done)
      {
        GatheredGrows(k.attached, leaders, i + 1, |leaders|);
        ghost var members := Members(k.attached, leaders[i]);
        CountedTogether(k.count, done, members);
        var data := ReadOne(k, leaders[i], ptr, size);
        if data < 0 {
          return 0;
        }
        ptr, size, done := ptr + data, size - data, done + members;
        i := i + 1;
      }
      n := BUFFER_WORDS - size;
    }
  }

  // ----- PerfCounters::Snapshot

  // The counters are those that the kernel has open under these leaders.
  predicate InStep(k: Kernel, c: Counters)
    reads k
  {
    |c.names| == |c.ids| <= MAX_COUNTERS && Ids(Gathered(k.attached, c.leaders, |c.leaders|)) == c.ids
    && Events(Gathered(k.attached, c.leaders, |c.leaders|)) == c.names
  }

  // Value i is the value of counter i, and a snapshot succeeds whenever the reads do.
  method Snapshot(k: Kernel, c: Counters, into: PerfCounterValues) returns (ok: bool)
    requires InStep(k, c) && into.values.Length == BUFFER_WORDS
    modifies into.values, k`readCalls
    ensures InStep(k, c)
    ensures ok ==> forall i :: 0 <= i < |c.names| ==> into.values[i] == k.count(c.ids[i])
    ensures (forall n :: old(k.readCalls) <= n < old(k.readCalls) + |c.leaders| ==> k.machine.readable(n)) ==> ok
  {
    var n := into.Read(k, c.leaders);
    ok := n == |c.ids|;
  }

  // What Create returns is in step with the kernel, whatever else is open.
  lemma CreatedInStep(m: Machine, c: nat, names: seq<string>, before: seq<Attached>, p: Progress)
    requires HandsOutUnused(m) && Coherent(before) && p == AfterNames(m, before, c, names, |names|)
    ensures Gathered(before + p.attached, p.got.leaders, |p.got.leaders|) == p.attached
    ensures |p.got.names| == |p.got.ids| <= MAX_COUNTERS && Ids(p.attached) == p.got.ids && Events(p.attached) == p.got.names
  {
    CreateIsSound(m, before, c, names, |names|);
    KeptApart(before, c, p);
    GatheredAfter(before, p.attached, p.got.leaders, |p.got.leaders|);
    GroupsAreContiguous(p.attached, p.got.leaders);
  }

  lemma {:induction false} GatheredAfter(before: seq<Attached>, attached: seq<Attached>, leaders: seq<int>, n: nat)
    requires n <= |leaders| && forall e :: e in before ==> e.leader !in leaders
    ensures Gathered(before + attached, leaders, n) == Gathered(attached, leaders, n)
  {
    if n > 0 {
      GatheredAfter(before, attached, leaders, n - 1);
      FilterAppend(LedBy(leaders[n - 1]), before, attached);
      FilterNone(LedBy(leaders[n - 1]), before);
    }
  }

  // ----- PerfCountersMeasurement

  class PerfCountersMeasurement {
    const counters: Counters
    const startValues: PerfCounterValues
    const endValues: PerfCounterValues
    var validRead: bool
    ghost var first: int -> int

    predicate Valid(k: Kernel)
      reads this, k
    {
      InStep(k, counters) && startValues.values.Length == endValues.values.Length == BUFFER_WORDS
      && startValues.values != endValues.values
    }

    constructor (k: Kernel, names: seq<string>)
      requires k.Valid() && |names| <= MAX_COUNTERS
      modifies k`calls, k`attached, k`started
      ensures Valid(k) && validRead && fresh(startValues.values) && fresh(endValues.values)
    {
      ghost var before, c := k.attached, k.calls;
      CreatedInStep(k.machine, c, names, before, AfterNames(k.machine, before, c, names, |names|));
      var created := Create(k, names);
      counters := created;
      startValues := new PerfCounterValues();
      endValues := new PerfCounterValues();
      validRead := true;
    }

    method Start(k: Kernel) returns (ok: bool)
      requires Valid(k)
      modifies this`validRead, this`first, startValues.values, k`readCalls
      ensures Valid(k) && (ok <==> counters.names == [] || validRead)
      ensures validRead ==> old(validRead)
      ensures validRead ==> Started()
    {
      first := k.count;
      if |counters.names| == 0 {
        return true;
      }
      var snapped := Snapshot(k, counters, startValues);
      validRead := validRead && snapped;
      ok := validRead;
    }

    // The start buffer holds the values that the counters had at the last Start.
    ghost predicate Started()
      reads this, startValues.values
      requires |counters.names| <= startValues.values.Length && |counters.names| == |counters.ids|
    {
      forall i :: 0 <= i < |counters.names| ==> startValues.values[i] == first(counters.ids[i])
    }

    // Measurement i is named after counter i, and is what it counted since Start.
    method Stop(k: Kernel, measurements: seq<(string, int)>) returns (ok: bool, after: seq<(string, int)>)
      requires Valid(k) && (validRead ==> Started())
      modifies this`validRead, endValues.values, k`readCalls
      ensures Valid(k) && (ok <==> counters.names == [] || validRead) && (validRead ==> old(validRead))
      ensures |after| == |measurements| + |counters.names| && after[..|measurements|] == measurements
      ensures forall i :: 0 <= i < |counters.names| ==> after[|measurements| + i].0 == counters.names[i]
      ensures ok ==> forall i :: 0 <= i < |counters.names| ==>
        after[|measurements| + i].1 == k.count(counters.ids[i]) - first(counters.ids[i])
    {
      after := measurements;
      if |counters.names| == 0 {
        return true, after;
      }
      var snapped := Snapshot(k, counters, endValues);
      validRead := validRead && snapped;
      var i := 0;
      while i < |counters.names|
        invariant 0 <= i <= |counters.names| && |after| == |measurements| + i
        invariant after[..|measurements|] == measurements
        invariant forall j :: 0 <= j < i ==>
          after[|measurements| + j] == (counters.names[j], endValues.values[j] - startValues.values[j])
      {
        after := after + [(counters.names[i], endValues.values[i] - startValues.values[i])];
        i := i + 1;
      }
      ok := validRead;
    }
  }
}
