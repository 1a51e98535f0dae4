/** The per-thread stopwatch of src/thread_timer.h. Clock readings are arguments. */
module ThreadTimers {
  import opened Arithmetic

  // One reading of the wall clock and of the chosen CPU clock, in seconds.
  datatype Clock = Clock(wall: real, cpu: real)

  // A closed interval during which the timer ran.
  datatype Slice = Slice(start: Clock, stop: Clock)

  datatype Timer = Timer(running: bool, start: Clock, realUsed: real, cpuUsed: real, manualUsed: real)

  const STOPPED: Timer := Timer(false, Clock(0.0, 0.0), 0.0, 0.0, 0.0)

  function Started(t: Timer, now: Clock): Timer {
    t.(running := true, start := now)
  }

  function Halted(t: Timer, now: Clock): Timer {
    t.(running := false,
       realUsed := t.realUsed + (now.wall - t.start.wall),
       cpuUsed := t.cpuUsed + Max(now.cpu - t.start.cpu, 0.0))
  }

  // Wall and CPU time of a list of slices; a CPU slice never counts as negative.
  function WallTime(slices: seq<Slice>): real {
    if slices == [] then 0.0
    else WallTime(slices[..|slices| - 1]) + (slices[|slices| - 1].stop.wall - slices[|slices| - 1].start.wall)
  }

  function CpuTime(slices: seq<Slice>): real {
    if slices == [] then 0.0
    else CpuTime(slices[..|slices| - 1]) + Max(slices[|slices| - 1].stop.cpu - slices[|slices| - 1].start.cpu, 0.0)
  }

  class ThreadTimer {
    var running: bool
    var start: Clock
    var realTimeUsed: real
    var cpuTimeUsed: real
    var manualTimeUsed: real

    ghost function View(): Timer
      reads this
    {
      Timer(running, start, realTimeUsed, cpuTimeUsed, manualTimeUsed)
    }

    constructor ()
      ensures View() == STOPPED
    {
      running, start := false, Clock(0.0, 0.0);
      realTimeUsed, cpuTimeUsed, manualTimeUsed := 0.0, 0.0, 0.0;
    }

    method StartTimer(now: Clock)
      modifies this
      ensures View() == Started(old(View()), now)
    {
      running := true;
      start := now;
    }

    // The source aborts unless the timer is running.
    method StopTimer(now: Clock)
      requires running
      modifies this
      ensures View() == Halted(old(View()), now)
    {
      running := false;
      realTimeUsed := realTimeUsed + (now.wall - start.wall);
      var elapsed := now.cpu - start.cpu;
      cpuTimeUsed := cpuTimeUsed + (if elapsed < 0.0 then 0.0 else elapsed);
    }

    method SetIterationTime(seconds: real)
      modifies this
      ensures View() == old(View()).(manualUsed := old(manualTimeUsed) + seconds)
    {
      manualTimeUsed := manualTimeUsed + seconds;
    }
  }
}
