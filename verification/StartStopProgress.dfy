/** No deadlock, no lost wake-up and no endless run of threads over one barrier. */
module StartStopProgress {
  import opened Loops
  import opened BarrierProtocol
  import BarrierRuns
  import opened ThreadRuns
  import opened StartStop
  import opened StartStopRuns

  ghost predicate CanMove(s: Joint) {
    exists m :: Possible(s, m) && !(m.OnBarrier? && m.step.action.SpuriousWake?)
  }

  // What an awake thread does next.
  function NextMove(s: Joint, t: nat): Move
    requires t < |s.workers| == |s.barrier.threads|
  {
    match s.barrier.threads[t].at
    case InWait(_, _) => OnBarrier(Label(t, RecheckPredicate))
    case OwesNotify => OnBarrier(Label(t, NotifyAll))
    case _ =>
      if AtBarrier(s.workers[t].doing, false) then OnBarrier(Label(t, CallWait))
      else if s.workers[t].doing.Leaving? then OnBarrier(Label(t, CallRemove))
      else Work(t)
  }

  lemma AwakeCanMove(s: Joint, t: nat)
    requires JointInv(s) && t < |s.workers| && !HasLeft(s, t) && !Asleep(s.barrier.threads[t])
    ensures Possible(s, NextMove(s, t)) && !(NextMove(s, t).OnBarrier? && NextMove(s, t).step.action.SpuriousWake?)
  {
    var script, w := s.scripts[t], s.workers[t];
    assert OnTrack(s.max, script, w);
    WaitsToCome(s.max, script, w);
    if w.doing.Ready? && w.next < |script.run| {
      LegalSnoc(Fresh(s.max), script.run, w.next);
    }
  }

  // Some thread can go on, without spurious wake-ups, exactly as long as one has not left.
  lemma NeverStuck(s: Joint)
    requires Reachable(s)
    ensures CanMove(s) <==> !BarrierRuns.Finished(s.barrier)
  {
    ReachedInv(s);
    if BarrierRuns.Finished(s.barrier) {
      NobodyCanMove(s);
    } else {
      SomebodyCanMove(s);
    }
  }

  lemma NobodyCanMove(s: Joint)
    requires BarrierRuns.Finished(s.barrier)
    ensures !CanMove(s)
  {
    forall m ensures !Possible(s, m) {
    }
  }

  lemma SomebodyCanMove(s: Joint)
    requires JointInv(s) && !BarrierRuns.Finished(s.barrier)
    ensures CanMove(s)
  {
    if t: nat :| t < |s.workers| && !HasLeft(s, t) && !Asleep(s.barrier.threads[t]) {
      AwakeCanMove(s, t);
    } else {
      BarrierRuns.SomebodyIsAwake(s.barrier);
      assert false;
    }
  }

  // ----- Termination

  // At most how many steps outside the barrier a thread still takes.
  function Effort(w: Worker, script: Script): int {
    4 * (|script.run| - w.next)
    + match w.doing case Ready => 2 case AtStart(_) => 4 case AtFinish(_) => 3 case Merging => 1 case Leaving => 0
  }

  function Efforts(ws: seq<Worker>, scripts: seq<Script>): int
    requires |ws| == |scripts|
  {
    if ws == [] then 0 else Effort(ws[0], scripts[0]) + Efforts(ws[1..], scripts[1..])
  }

  lemma {:induction false} EffortsUpdate(ws: seq<Worker>, scripts: seq<Script>, t: nat, w: Worker)
    requires |ws| == |scripts| && t < |ws|
    ensures Efforts(ws[t := w], scripts) == Efforts(ws, scripts) - Effort(ws[t], scripts[t]) + Effort(w, scripts[t])
  {
    if t == 0 {
      assert ws[t := w][1..] == ws[1..];
    } else {
      assert ws[t := w][1..] == ws[1..][t - 1 := w];
      EffortsUpdate(ws[1..], scripts[1..], t - 1, w);
    }
  }

  lemma {:induction false} EffortsNonNegative(ws: seq<Worker>, scripts: seq<Script>)
    requires |ws| == |scripts| && forall t :: 0 <= t < |ws| ==> ws[t].next <= |scripts[t].run|
    ensures Efforts(ws, scripts) >= 0
  {
    if ws != [] {
      EffortsNonNegative(ws[1..], scripts[1..]);
    }
  }

  function SpuriousMoves(moves: seq<Move>): int {
    if moves == [] then 0
    else (if moves[0].OnBarrier? && moves[0].step.action.SpuriousWake? then 1 else 0) + SpuriousMoves(moves[1..])
  }

  function JointRank(s: Joint): int
    requires |s.workers| == |s.scripts|
  {
    Rank(s.barrier) + Efforts(s.workers, s.scripts)
  }

  lemma MoveLowersRank(s: Joint, m: Move)
    requires Possible(s, m)
    ensures JointRank(Moved(s, m)) <= JointRank(s) + SpuriousMoves([m]) * 2 - 1
  {
    assert [m][1..] == [];
    match m
    case Work(t) =>
      EffortsUpdate(s.workers, s.scripts, t, Worked(s.workers[t], s.scripts[t]));
    case OnBarrier(l) =>
      BarrierRuns.StepLowersRank(s.barrier, l);
      if l.action.CallWait? {
        EffortsUpdate(s.workers, s.scripts, l.thread, Entered(s.workers[l.thread]));
      }
  }

  lemma {:induction false} MovesLowerRank(s: Joint, moves: seq<Move>)
    requires |s.workers| == |s.scripts| && Playable(s, moves)
    ensures |Played(s, moves).workers| == |s.workers|
    ensures |moves| + JointRank(Played(s, moves)) <= JointRank(s) + 2 * SpuriousMoves(moves)
    decreases |moves|
  {
    if moves != [] {
      MoveLowersRank(s, moves[0]);
      MovesLowerRank(Moved(s, moves[0]), moves[1..]);
      assert [moves[0]][1..] == [];
    }
  }

  // Every run ends: its length is bounded by the scripts and by twice its spurious wake-ups.
  lemma JointTermination(max: int, scripts: seq<Script>, moves: seq<Move>)
    requires AllLegal(max, scripts) && Playable(Begun(max, scripts), moves)
    ensures |moves| <= JointRank(Begun(max, scripts)) + 2 * SpuriousMoves(moves)
  {
    MovesLowerRank(Begun(max, scripts), moves);
    var s := Played(Begun(max, scripts), moves);
    BegunInv(max, scripts);
    PlayedInv(Begun(max, scripts), moves);
    BarrierRuns.RankNonNegative(s.barrier);
    forall t | 0 <= t < |s.workers| ensures s.workers[t].next <= |s.scripts[t].run| {
      assert OnTrack(s.max, s.scripts[t], s.workers[t]);
    }
    EffortsNonNegative(s.workers, s.scripts);
  }
}
