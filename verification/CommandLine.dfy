/** The loop of ParseCommandLineFlags (src/benchmark.cc): the library's own flags are taken out
    of argv in place, and the rest is left for the program. Parsing one flag is uninterpreted. */
module CommandLine {
  import opened Sequences

  function Other(recognised: string -> bool): string -> bool {
    (arg: string) => !recognised(arg)
  }

  // The inner loop: the arguments after i move down by one.
  method RemoveArgument(argc: nat, argv: array<string>, i: nat)
    requires i < argc <= argv.Length
    modifies argv
    ensures argv[..argc - 1] == old(argv[..argc])[..i] + old(argv[..argc])[i + 1..]
    ensures forall k :: argc - 1 <= k < argv.Length ==> argv[k] == old(argv[k])
  {
    var j := i;
    while j != argc - 1
      invariant i <= j < argc
      invariant forall k :: 0 <= k < i || j <= k < argv.Length ==> argv[k] == old(argv[k])
      invariant forall k :: i <= k < j ==> argv[k] == old(argv[k + 1])
      decreases argc - j
    {
      argv[j] := argv[j + 1];
      j := j + 1;
    }
  }

  // Recognised flags are applied and removed in order, the others keep their order, and the
  // program's name stays; the usage text ends the program at the first --help.
  method ParseCommandLineFlags(argc: nat, argv: array<string>, recognised: string -> bool, isHelp: string -> bool)
    returns (argc': nat, applied: seq<string>, exits: bool)
    requires argc <= argv.Length
    modifies argv
    ensures exits <==> argc > 0 && HasHelp(old(argv[1..argc]), recognised, isHelp)
    ensures argc' <= argc
    ensures !exits && argc > 0 ==>
      && argv[..argc'] == [old(argv[0])] + Filter(Other(recognised), old(argv[1..argc]))
      && applied == Filter(recognised, old(argv[1..argc]))
    ensures argc == 0 ==> argc' == 0 && applied == []
    ensures forall k :: argc <= k < argv.Length ==> argv[k] == old(argv[k])
  {
    argc', applied, exits := argc, [], false;
    if argc == 0 {
      return;
    }
    ghost var args := argv[1..argc];
    ghost var scan := Scan([argv[0]], [], args);
    var i := 1;
    assert argv[..argc] == [argv[0]] + args;
    while i < argc'
      invariant argc' <= argc && i == |scan.kept| && argv[..argc'] == scan.kept + scan.rest
      invariant Scanned(scan, old(argv[0]), args, recognised, isHelp) && applied == Filter(recognised, scan.done)
      invariant forall k :: argc <= k < argv.Length ==> argv[k] == old(argv[k])
      decreases argc' - i
    {
      var arg := argv[i];
      ghost var now := argv[..argc'];
      Advance(scan, now, old(argv[0]), args, recognised, isHelp);
      if recognised(arg) {
        applied := applied + [arg];
        RemoveArgument(argc', argv, i);
        argc' := argc' - 1;
        assert argv[..argc'] == now[..i] + now[i + 1..];
      } else if isHelp(arg) {
        exits := true;
        return;
      } else {
        i := i + 1;
      }
      scan := Next(scan, recognised);
    }
    Finished(scan, argv[..argc'], old(argv[0]), args, recognised, isHelp);
  }

  lemma Finished(s: Scan, now: seq<string>, program: string, args: seq<string>, recognised: string -> bool,
                 isHelp: string -> bool)
    requires Scanned(s, program, args, recognised, isHelp) && now == s.kept + s.rest && |now| <= |s.kept|
    ensures s.done == args && now == [program] + Filter(Other(recognised), args)
    ensures !HasHelp(args, recognised, isHelp)
  {
    assert s.rest == [] && s.done == args;
  }

  predicate HasHelp(args: seq<string>, recognised: string -> bool, isHelp: string -> bool) {
    exists k :: 0 <= k < |args| && !recognised(args[k]) && isHelp(args[k])
  }

  // What the loop has kept, what it has looked at, and what is still to come.
  datatype Scan = Scan(kept: seq<string>, done: seq<string>, rest: seq<string>)

  predicate Scanned(s: Scan, program: string, args: seq<string>, recognised: string -> bool, isHelp: string -> bool) {
    && args == s.done + s.rest && s.kept == [program] + Filter(Other(recognised), s.done)
    && forall arg :: arg in s.done ==> recognised(arg) || !isHelp(arg)
  }

  function Next(s: Scan, recognised: string -> bool): Scan {
    if s.rest == [] then s else
      Scan(if recognised(s.rest[0]) then s.kept else s.kept + [s.rest[0]], s.done + [s.rest[0]], s.rest[1..])
  }

  // The argument under the loop index is the first that has not been looked at.
  lemma Advance(s: Scan, now: seq<string>, program: string, args: seq<string>, recognised: string -> bool,
                isHelp: string -> bool)
    requires Scanned(s, program, args, recognised, isHelp) && now == s.kept + s.rest && |s.kept| < |now|
    ensures s.rest != [] && now[|s.kept|] == s.rest[0]
    ensures var arg, next := s.rest[0], Next(s, recognised);
      && (recognised(arg) || !isHelp(arg) ==> Scanned(next, program, args, recognised, isHelp))
      && (if recognised(arg) then now[..|s.kept|] + now[|s.kept| + 1..] else now) == next.kept + next.rest
      && Filter(recognised, next.done) == Filter(recognised, s.done) + (if recognised(arg) then [arg] else [])
    ensures !recognised(s.rest[0]) && isHelp(s.rest[0]) ==> HasHelp(args, recognised, isHelp)
  {
    Split(s.kept, s.rest, now);
    Split(s.done, s.rest, args);
    FilterSnoc(Other(recognised), s.done, s.rest[0]);
    FilterSnoc(recognised, s.done, s.rest[0]);
  }

  lemma Split(a: seq<string>, b: seq<string>, all: seq<string>)
    requires all == a + b && b != []
    ensures all[|a|] == b[0] && all[..|a|] == a && all[|a| + 1..] == b[1..] && all == (a + [b[0]]) + b[1..]
  {
  }
}
