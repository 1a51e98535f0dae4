# Google Benchmark's run engine, modelled and verified in Dafny

The project models the parts of Google Benchmark that decide how benchmarks are run and what is
reported: the start/stop barrier between the threads of one run, the iteration loop and its timer,
the merging of the threads' results, the adaptive search for an iteration count, the scheduler of
repetitions, the generation of arguments and instances, the grouping of hardware counters, the
fitting of complexity curves, the statistics over repetitions, the final sorting of reports, and
the removal of the library's flags from the command line.

`dafny verify dfyconfig.toml` checks everything.

## How the model is built

Code that changes objects step by step is modelled by classes and methods with loops
(`Barrier`, `State`, `StateIterator`, `ThreadTimer`, `ThreadManager`, `BenchmarkRunner`,
`Benchmark`, `BenchmarkFamilies`, `Vector`, `Kernel`, `PerfCounterValues`,
`PerfCountersMeasurement`). Each method is proved to do exactly what a function on values says, and
the properties are lemmas about runs of those functions.

- `Barrier.dfy`, `BarrierRuns.dfy`: the barrier. Any number of threads, each with any number of
  waits before it leaves, in every interleaving, with spurious wake-ups. The three critical sections
  are the atomic steps; `notify_all` outside the lock is a step of its own, so a thread may be delayed
  between opening the barrier and notifying.
- `ThreadTimer.dfy`, `Loop.dfy`, `LoopRuns.dfy`, `LoopVerdicts.dfy`, `State.dfy`: the timer and the iteration
  machine. A run is any sequence of `KeepRunning`, `KeepRunningBatch`, ranged-for, skip, pause and resume
  calls that passes the checks of the source, with arbitrary clock readings. `LoopVerdicts` is about what
  those calls answer and what a thread has to show for it.
- `ThreadManager.dfy`, `MergedTimes.dfy`, `MergedCounters.dfy`, `ThreadRun.dfy`: merging the results of the
  threads in any lock order, what the merged times and counters mean, and what one thread leaves there.
- `StartStop.dfy`, `StartStopRuns.dfy`, `StartStopProgress.dfy`, `StartStopRecords.dfy`: barrier, loops and
  results together. Each thread carries out its own script of calls; a call that reaches the barrier stops
  there, enters the barrier protocol, and goes on when its wait has returned. Over every schedule: no
  thread starts the timed loop before all reach it, none passes its end before all finish, some thread can
  always go on, every run ends, what it leaves in the shared record is what the threads have measured
  (`StartStopRecords.RecordIsMeasured`) and what the iteration search relies on
  (`StartStopRecords.JointRunIsWellBehaved`).
- `Runner.dfy`, `SearchEnds.dfy`, `RunnerClass.dfy`: the search for the iteration count, the warm-up, and
  repetitions. Elapsed times are whatever well-behaved threads report.
- `Scheduler.dfy`, `Engine.dfy`: `RunBenchmarks`, for every shuffle of the repetitions, and the runners
  under it.
- `Ranges.dfy`, `ArgsProduct.dfy`, `Families.dfy`: ranges over a bounded signed type, argument
  products, and the selection and numbering of instances by a filter.
- `PerfCounters.dfy`: hardware counters. The kernel may refuse or interrupt any call.
- `LeastSquares.dfy`, `Statistics.dfy`: numeric kernels over exact reals. `log2` is any function;
  of the square root only that it is 0 at 0, increasing and not negative is used, and often nothing.
- `SortResults.dfy`, `CommandLine.dfy`: the four stable sorts of the comparison tool, and the
  compaction of `argv`.
- `Sums.dfy`, `Sequences.dfy`, `Sorting.dfy`, `Arithmetic.dfy`, `Options.dfy`: sums, filters, stable
  sorting, powers and squares, optional values.

## Where the code and its documentation part

- The documentation of `PauseTiming` and `SetIterationTime` (include/benchmark/benchmark.h:807-808 and
  880-881) says that the largest per-thread time is reported. The code adds the threads' times up. The
  merged time is the largest exactly when at most one thread has a positive one
  (`MergedTimes.LargestTimeIsMerged`; `MergedTimes.TwoThreadsAddUp` has one second and two merged
  into three). What is printed is the sum divided by the iterations of all threads, which is the largest of
  the threads' times per iteration exactly when these are all the same
  (`MergedTimes.PrintedTimeIsLargest`).
- The comments on `MinimalLeastSq` (src/complexity.cc:75-76 and 121-122) speak of the sum of squares of
  relative errors. The coefficient minimises the plain sum of squared residuals. It minimises the relative
  one as well exactly when the two quotients of sums agree (`LeastSquares.WhenRelativeErrorIsLeast`), which
  they do for equal times and for an exact fit; for the linear curve, sizes 1 and 2 and times 1 and 4 they
  do not (`LeastSquares.RelativeErrorNotLeast`).
- A benchmark function that leaves a `KeepRunning` loop during its last granted batch goes unnoticed by
  the check in `RunInThread` (src/benchmark_runner.cc:145), because all iterations have been granted; its
  timer is still running, and reading it fails. `LoopRuns.ThreadReport` shows that this is the only such
  case, and `LoopRuns.LeavingInLastBatch` gives one.
- Every rejected pass makes the iteration count grow, by at most 14 times. That it always grows by at least
  a third, or to the maximum, holds exactly for minimum times of 55/56 of a nanosecond or more, whatever the
  number of threads and the clock (`Runners.ThirdGrowthBoundary`). Below it a first pass in which every thread
  runs one batch of four iterations may be followed by a request for five; `ThreadRuns.BatchOfFourLeaves`
  has the calls of such a thread, and `Runners.SlowBelowANanosecond` has 100 iterations followed by 101.
- The source calls the first counter of a group its leader, and opens it stopped and pinned
  (src/perf_counters.cc:127-128 and 150-152). These attributes are computed before the counter is tried. A
  counter that is refused in the current group and granted as the leader of a new one is opened running and
  not pinned (`PerfCounting.PromotedLeaderRuns`). All leaders are opened stopped and pinned if and only if
  that never happens (`PerfCounting.LeadersAreFirstUnlessOverflow`).
- The comments on the merge of counters (src/counter.cc:54 and 61) speak of adding counters; flags are not
  added but stay those of the first thread that has the counter. The merged counters are the same in every
  lock order if and only if, for each counter, all threads that have it give it the same flags
  (`MergedCounters.FlagsNeedAgreement`; `MergedCounters.FlagsDependOnOrder` has two threads that do not).

## Model

| member | source | states |
|---|---|---|
| `Barriers.Barrier.constructor` | src/mutex.h:101-127 | A new barrier counts the given threads, in phase 0, with nobody inside. |
| `Barriers.Barrier.Enter` | src/mutex.h:132-150 | The first critical section of `wait`: the whole new state and whether the thread sleeps in its phase or opens the barrier. |
| `Barriers.Barrier.Recheck` | src/mutex.h:137-149 | What a woken thread does: sleeps on, returns false after a phase change, or opens the barrier itself when everybody left inside has entered. |
| `Barriers.Barrier.RemoveThread` | src/mutex.h:114-118 | A leaving thread lowers the count and notifies exactly when somebody is inside. |
| `BarrierRuns.StepKeepsInv` | src/mutex.h:114-150 | The inductive invariant: exact counters, no waiter more than one phase behind, one opener per phase, no lost wake-up. |
| `BarrierRuns.ReachableInv` | src/mutex.h:99-151 | The invariant holds after every schedule of any number of threads with any numbers of waits. |
| `BarrierRuns.BarrierSafety` | src/mutex.h:99-150 | No thread returns from its k-th wait before every thread has begun its k-th wait or left. |
| `BarrierRuns.EntryCheckHolds` | src/mutex.h:133-133 | The check at the entry of the barrier never fails. |
| `BarrierRuns.CountersAreExact` | src/mutex.h:123-127 | `running_threads_` is the number of threads that have not left, `entered_` the number that wait in the current phase. |
| `BarrierRuns.OneOpenerPerPhase` | src/mutex.h:110-150 | For each completed phase exactly one wait returned true, however the phase was opened. |
| `BarrierRuns.Progress` | src/mutex.h:104-149 | A step other than a spurious wake-up is possible exactly as long as some thread has not left: no wake-up is lost. |
| `BarrierRuns.BarrierTermination` | src/mutex.h:104-149 | A schedule is bounded by the planned waits and twice the spurious wake-ups. |
| `BarrierRuns.CompleteRun` | src/mutex.h:99-150 | When nothing can happen any more, every thread has returned from all its waits, and the phases are as many as the most waits of a thread. |
| `ThreadTimers.ThreadTimer.constructor` | src/thread_timer.h:11-20 | A new timer is stopped and has used nothing. |
| `ThreadTimers.ThreadTimer.StartTimer` | src/thread_timer.h:23-27 | Starting records the clock readings and changes nothing else. |
| `ThreadTimers.ThreadTimer.StopTimer` | src/thread_timer.h:30-38 | Stopping adds one slice of real time, and of CPU time if that is positive. |
| `ThreadTimers.ThreadTimer.SetIterationTime` | src/thread_timer.h:41-41 | Manual times accumulate. |
| `States.State.constructor` | src/benchmark.cc:180-199 | A new State is fresh. |
| `States.State.GetIterations` | include/benchmark/benchmark.h:969-975 | The iteration count is that of the model, for which the accounting lemmas hold. |
| `States.State.PauseTiming` | src/benchmark.cc:253-270 | Pausing closes one timer slice. |
| `States.State.ResumeTiming` | src/benchmark.cc:272-278 | Resuming starts the timer. |
| `States.State.SkipWith` | src/benchmark.cc:280-308 | A skip ends the iterations, stops a running timer, and is recorded for all threads unless another came first. |
| `States.State.SetIterationTime` | src/benchmark.cc:310-312 | The manual time goes to the timer. |
| `States.State.StartKeepRunning` | src/benchmark.cc:319-330 | At the call of the barrier the loop is marked started and the timer has not been touched; the timer is started after it, unless skipped. |
| `States.State.FinishKeepRunning` | src/benchmark.cc:332-344 | At the call of the barrier the timer is stopped, its last slice counted, and the loop marked finished; nothing happens after it. |
| `States.State.ArriveAtBarrier` | src/benchmark.cc:326-340 | The history records what the thread had done when it called the barrier. |
| `States.State.KeepRunningInternal` | include/benchmark/benchmark.h:1046-1072 | Each call grants a batch or finishes the loop as the model says, for every batch size, and answers true exactly when the loop is not over. |
| `States.State.FinishBatch` | include/benchmark/benchmark.h:1064-1071 | The end of `KeepRunningInternal`: true with the last batch and its leftover, or false at the end of the loop. |
| `States.State.KeepRunning` | include/benchmark/benchmark.h:1038-1040 | A batch of one; true exactly when the loop is not over. |
| `States.State.Begin` | include/benchmark/benchmark.h:1114-1116 | A new iterator over this State; the loop has not started yet. |
| `States.State.End` | include/benchmark/benchmark.h:1117-1120 | The end of the range starts the loop. |
| `States.StateIterator.constructor` | include/benchmark/benchmark.h:1087-1089 | The iterator caches the requested count, or 0 after a skip. |
| `States.StateIterator.Increment` | include/benchmark/benchmark.h:1096-1100 | One iteration less to go. |
| `States.StateIterator.NotEqual` | include/benchmark/benchmark.h:1103-1107 | The range is over exactly when the cached count is 0, and then the loop is finished. |
| `LoopRuns.TimerDiscipline` | src/benchmark.cc:253-344 | After every legal run: at each barrier call the timer was stopped, the first time before the loop, later after it was marked finished; the timer runs only between the two and never after a skip; its times are the sums of the slices; an unskipped finished thread has called the barrier exactly twice. |
| `LoopRuns.WallTimeBounded` | src/thread_timer.h:23-38 | With a clock that does not go back, the real time is between 0 and the length of the run. |
| `LoopRuns.KeepRunningAccounting` | include/benchmark/benchmark.h:970-1072 | `iterations()` is always the sum of the granted batches; at the end the overshoot is smaller than the last batch, and with batches of one there is none. |
| `LoopRuns.RangedForAccounting` | include/benchmark/benchmark.h:1087-1120 | An unskipped ranged-for loop runs its body exactly as often as requested. |
| `LoopRuns.ThreadReport` | src/benchmark_runner.cc:143-156 | After `RunInThread`'s check a thread is skipped or has the requested iterations; its timer is running exactly when the loop was left in its last batch. |
| `LoopRuns.LeavingInLastBatch` | src/benchmark_runner.cc:145-156 | A concrete run that ends with the timer running. |
| `LoopVerdicts.VerdictEndsLoop` | include/benchmark/benchmark.h:1046-1107 | After every run of calls, the next loop call answers no exactly when it has finished the loop. |
| `LoopVerdicts.VerdictsAddUp` | include/benchmark/benchmark.h:969-1107 | In an unskipped loop `iterations()` is the sum of the batches that were answered yes; at its end they are at least the requested number, and for single iterations and the ranged for exactly that. |
| `LoopVerdicts.NothingGrantedAfterSkip` | src/benchmark.cc:280-308 | After a skip no call grants anything, unless a ranged for had begun before it. |
| `LoopVerdicts.ThreadIterations` | src/benchmark_runner.cc:143-153 | The iterations a thread reports, from the answers it got: those granted, none if the loop was never started, and at least the requested number if it was skipped. |
| `LoopVerdicts.TimedWhileLooping` | src/thread_timer.h:23-38 | The timer runs from the start of the loop to its end or a skip, but for the pauses; the times are what passed by the two clocks while it ran. |
| `ThreadManagers.Increment` | src/counter.cc:53-68 | Merged counters: the sum where both sides have a key, otherwise the one that is there. |
| `ThreadManagers.ThreadManager.constructor` | src/thread_manager.h:14-39 | Results start empty, and the barrier counts the given threads. |
| `ThreadManagers.ThreadManager.NotifyThreadComplete` | src/thread_manager.h:22-22 | The thread leaves the barrier. |
| `ThreadManagers.ThreadManager.AddThread` | src/benchmark_runner.cc:150-159 | A thread adds its iterations, times, complexity number and counters to the shared record. |
| `ThreadManagers.ThreadManager.RecordSkip` | src/benchmark.cc:282-288 | Only the first skip is recorded. |
| `ThreadManagers.Conservation` | src/benchmark_runner.cc:150-159 | In every lock order, the final amounts and the value of every counter are the sums over the threads, and the counters are those that some thread has. |
| `ThreadManagers.OrderDoesNotMatter` | src/benchmark_runner.cc:150-159 | Two lock orders of the same contributions leave the same sums. |
| `MergedTimes.LargestTimeIsMerged` | include/benchmark/benchmark.h:807-808 | The merged real and manual times are the largest of the threads' exactly when at most one is positive. |
| `MergedTimes.PrintedTimeIsLargest` | include/benchmark/benchmark.h:807-808 | For any counts, the merged time per iteration, real or manual, is the largest of the threads' exactly when these are all the same. |
| `MergedTimes.TwoThreadsAddUp` | src/benchmark_runner.cc:155-156 | Two threads whose merged time is not the largest. |
| `MergedCounters.FlagsNeedAgreement` | src/counter.cc:53-68 | The merged counters are the same in every lock order if and only if, for each counter, all threads that have it give it the same flags. |
| `MergedCounters.FlagsDependOnOrder` | src/counter.cc:53-68 | Two threads with flags 0 and 7: the merged counter has flags 0 in one order and 7 in the other. |
| `MergedCounters.StyleOfFirstHolder` | src/counter.cc:53-68 | A merged counter has the flags of the first thread that has it. |
| `ThreadManagers.FirstSkipWins` | src/benchmark.cc:280-308 | The merged result is skipped exactly when some thread skipped, with the kind and message of the first. |
| `ThreadRuns.Perform` | src/benchmark.cc:253-344 | One call of a benchmark function moves State, timer, iterator and shared results together as the model says. |
| `ThreadRuns.RunFunction` | src/benchmark_runner.cc:143-144 | Running a whole benchmark function does what its calls do one after the other. |
| `ThreadRuns.RunInThread` | src/benchmark_runner.cc:134-161 | The shared record afterwards is the one before with exactly the thread's skips and its contribution merged in: to each amount the thread's own is added, the wall time of its timer slices to the real time, their CPU time to the CPU time, the seconds it set to the manual time, the iterations it was granted to the iterations. The thread has left the barrier. |
| `ThreadRuns.ThreadLeaves` | src/benchmark_runner.cc:134-161 | What a thread that keeps the contract leaves is well-behaved: one contribution, no negative amounts, enough iterations unless skipped. |
| `ThreadRuns.LeftIsMeasured` | src/benchmark_runner.cc:152-158 | A thread leaves the times of its slices, which are the times that passed while its timer ran, the seconds it set, the iterations it was granted, and its counters. |
| `ThreadRuns.InterleavingIsWellBehaved` | src/benchmark_runner.cc:150-160 | So is every interleaving of such threads, which is what the search relies on. |
| `ThreadRuns.InterleavingLeaves` | src/benchmark_runner.cc:150-159 | However the threads interleave, the record receives from each exactly what its loop has counted. |
| `ThreadRuns.InterleavingSkips` | src/benchmark_runner.cc:145-149 | There is a skip in the record exactly when some thread skipped or was marked so. |
| `ThreadRuns.BatchOfFourLeaves` | include/benchmark/benchmark.h:1065-1069 | A conforming thread that was asked for one iteration and leaves four, in any time. |
| `StartStop.PartsMakeCall` | src/benchmark.cc:319-344 | The parts of a call before and after its barriers make up the call. |
| `StartStopRuns.StartTogether` | include/benchmark/benchmark.h:138-141 | While a thread's timer runs, and ever after it has passed the barrier of the start, every other thread has started its loop and come to the barrier, or left. |
| `StartStopRuns.FinishTogether` | include/benchmark/benchmark.h:138-141 | Once a thread has passed the barrier of the end, every other thread has finished its loop or left, and no timer runs but that of a thread that returned in its last batch. |
| `StartStopRuns.MoveKeepsInv` | src/benchmark.cc:319-344 | Every step keeps every thread on its script and in its place in the barrier protocol. |
| `StartStopProgress.NeverStuck` | src/mutex.h:104-149 | Some thread can go on, without spurious wake-ups, exactly as long as one has not left. |
| `StartStopProgress.JointTermination` | src/mutex.h:104-149 | Every run ends: its length is bounded by the scripts and its spurious wake-ups. |
| `StartStopRecords.CompleteJointRun` | src/benchmark_runner.cc:134-161 | A complete run has led every thread where it would have got alone, and its shared record is an interleaving of what the threads leave. |
| `StartStopRecords.JointConservation` | src/benchmark_runner.cc:134-161 | After a complete run on any schedule the record has received from each thread what it leaves, and is skipped exactly when some thread is. |
| `StartStopRecords.RecordIsMeasured` | src/benchmark_runner.cc:134-161 | Its real and CPU times are those of all timer slices of all threads, its manual time the seconds they set, its iterations those they were granted, its counters the sums of theirs. |
| `StartStopRecords.NotRunIsAnError` | src/benchmark_runner.cc:145-149 | If no function skips, the record is an error with the message of `RunInThread` when some thread did not run its loop to the end, and not skipped otherwise. |
| `StartStopRecords.JointRunIsWellBehaved` | src/benchmark_runner.cc:134-161 | What conforming threads leave, on every schedule, is what the iteration search relies on. |
| `Runners.PassReportsEnough` | src/benchmark_runner.cc:347-357 | If nobody skipped, the per-thread quotient is at least the requested count. |
| `Runners.RejectedGrows` | src/benchmark_runner.cc:362-400 | A rejected pass is followed by a strictly larger count, capped at the maximum, at most 14 times larger. |
| `Runners.GrowsByAThird` | src/benchmark_runner.cc:366-383 | From a minimum time of 55/56 ns on, the next count is at least 4/3 of the last, or the maximum. |
| `Runners.ThirdGrowthBoundary` | src/benchmark_runner.cc:362-400 | For every number of threads and choice of clock: every outcome of a pass that is rejected is followed by such a count if and only if the minimum time is at least 55/56 ns. |
| `Runners.SlowBelowANanosecond` | src/benchmark_runner.cc:366-378 | A pass of one thread that is rejected at a minimum time of 0.1 ns: 100 iterations followed by 101. |
| `Runners.Search` | src/benchmark_runner.cc:501-526 | The search ends: it is a function of the answers alone, and makes at least one pass. |
| `Runners.SearchIsChain` | src/benchmark_runner.cc:501-526 | Every pass but the last was rejected and determines the request of the next; the last was accepted. |
| `Runners.SearchGrows` | src/benchmark_runner.cc:522-525 | The source's assertion that the next count exceeds the last one holds at every pass. |
| `Runners.RequestsArePowers` | src/benchmark_runner.cc:366-383 | The j-th request is at least (4/3)^j, for minimum times of 55/56 ns or more. |
| `Runners.SearchIsShort` | src/benchmark_runner.cc:362-400 | A search makes at most 98 passes for minimum times of 55/56 ns or more. |
| `SearchEnds.EndsOnResults` | src/benchmark_runner.cc:386-400 | A pass ends a search if and only if somebody skipped, or it is a dry run, or the threads have run the maximum, or the clock that counts has reached the minimum time, or without manual times the real time five times that. |
| `SearchEnds.SearchEndsAtFirst` | src/benchmark_runner.cc:501-526 | A search ends with the first pass whose merged results are such; each pass reports the threads' average iterations and the seconds of the clock that counts. |
| `SearchEnds.TenfoldWhenShort` | src/benchmark_runner.cc:362-383 | After at most a tenth of the minimum time, ten times as many iterations are asked for, or the maximum. |
| `SearchEnds.EnoughAtConstantSpeed` | src/benchmark_runner.cc:362-400 | After more than that, and at least a nanosecond, a next pass that is no faster and runs what it is asked to ends the search. |
| `BenchmarkRunners.BenchmarkRunner.constructor` | src/benchmark_runner.cc:273-304 | A new runner has done nothing, and is warmed up if no warm-up time is set. |
| `BenchmarkRunners.BenchmarkRunner.DoNIterations` | src/benchmark_runner.cc:323-360 | One pass: the threads' merged outcome, the per-thread count, and the seconds of the chosen clock. |
| `BenchmarkRunners.BenchmarkRunner.RunWarmUp` | src/benchmark_runner.cc:416-450 | The warm-up searches with its own minimum time, ends with its first pass that was long enough for that, and leaves everything but its passes as it was. |
| `BenchmarkRunners.BenchmarkRunner.MeasureUntilSignificant` | src/benchmark_runner.cc:501-526 | The measuring loop makes exactly the passes of the search, or a single one. |
| `BenchmarkRunners.BenchmarkRunner.DoOneRepetition` | src/benchmark_runner.cc:480-560 | One repetition: warm-up if needed, measurement, and one report, of the last pass; in the first repetition without explicit count that pass ends the search. |
| `BenchmarkRunners.RepetitionReportsLastPass` | src/benchmark_runner.cc:501-558 | The report is that of the last pass, in seconds of the clock that counts, and the count found is the one that pass was asked for. |
| `BenchmarkRunners.FirstRepetitionSearches` | src/benchmark_runner.cc:501-526 | No measured pass before it would have ended the search. |
| `BenchmarkRunners.WarmUpRunsLongEnough` | src/benchmark_runner.cc:416-450 | A warm-up that is due makes at least one pass and goes on until one is long enough. |
| `BenchmarkRunners.FirstPasses` | src/benchmark_runner.cc:273-304 | A dry run makes one pass of one iteration and no warm-up; an explicit count is run once; every other search begins with one iteration. |
| `BenchmarkRunners.SearchStep` | src/benchmark_runner.cc:506-525 | What one iteration of the loop does to the rest of the search. |
| `BenchmarkRunners.LaterRepetitionsReuseCount` | src/benchmark_runner.cc:498-513 | Only the first repetition searches; every later one makes one pass with the count found; report j is that of the pass of repetition j, and the first ends the search. |
| `BenchmarkRunners.WarmUpLeavesNoTrace` | src/benchmark_runner.cc:485-492 | A runner with a warm-up reports, repetition by repetition, what one without it would report of the passes after the warm-up. |
| `Schedulers.CountRuns` | src/benchmark.cc:438-451 | The planned runs of a complexity family are the repetitions of all its instances. |
| `Schedulers.FillIndices` | src/benchmark.cc:465-474 | Every runner's index, as often as it repeats. |
| `Schedulers.StepRunner` | src/benchmark.cc:482-512 | One turn of the loop: what is run, reported, fitted and erased. |
| `Schedulers.RunBenchmarks` | src/benchmark.cc:438-514 | The events of a whole run are those of the specification, for every shuffle; no runner is stepped with nothing left or touches an erased record. |
| `Schedulers.ScheduleIsRight` | src/benchmark.cc:482-513 | Every runner is stepped exactly as often as it repeats and reported once; every complexity family with runs is fitted once. |
| `Schedulers.LogIsOrdered` | src/benchmark.cc:482-513 | Nothing is reported before its last repetition or fitted before all runs of its family, and nothing of a family happens after its record is gone. |
| `Schedulers.LogCounted` | src/benchmark.cc:482-513 | How often each event happens in any prefix of the run. |
| `Schedulers.RunsOfIsComplete` | src/benchmark_runner.cc:550-555 | A fit sees exactly the unskipped runs of its family. |
| `Schedulers.RunsOfIsDistinct` | src/benchmark_runner.cc:550-555 | It sees no run twice. |
| `Schedulers.RunsFollowLog` | src/benchmark_runner.cc:550-555 | The runs of a family are the unskipped steps of its members in the order in which they happened. |
| `Schedulers.FitIsReported` | src/benchmark.cc:491-512 | A family is fitted right after the step that completes it, and before that runner is reported. |
| `Engines.FittedOnReports` | src/benchmark_runner.cc:545-555 | For every shuffle and any runners, a family is fitted on exactly the unskipped reports that its BenchmarkRunner objects hold when they are done. |
| `Schedulers.ShuffleCounts` | src/benchmark.cc:465-480 | A shuffle holds each runner as often as it repeats. |
| `Ranges.AddPowers` | src/benchmark_register.h:13-37 | Appends exactly the powers in the interval, in increasing order; no product leaves the type. |
| `Ranges.GuardIsExact` | src/benchmark_register.h:31-33 | The loop is left exactly when the next product would leave the type. |
| `Ranges.AddNegatedPowers` | src/benchmark_register.h:39-57 | Appends exactly the negated powers in the interval, in increasing order. |
| `Ranges.NegateFrom` | src/benchmark_register.h:55-55 | Negates a suffix, and leaves the rest. |
| `Ranges.ReverseFrom` | src/benchmark_register.h:56-56 | Reverses a suffix, and leaves the rest. |
| `Ranges.AddRange` | src/benchmark_register.h:59-104 | Appends a strictly increasing list from lo to hi whose interior is exactly the powers, their negations and 0 strictly between; what was there stays; nothing overflows. |
| `Ranges.RangeIsUnique` | src/benchmark_register.h:59-104 | That determines the list. |
| `ArgsProducts.Benchmark.ArgsProduct` | src/benchmark_register.cc:278-304 | Appends the product of the lists, and nothing if one of them is empty. |
| `ArgsProducts.Advance` | src/benchmark_register.cc:297-300 | One turn of the odometer goes from the digits of a row to those of the next. |
| `ArgsProducts.ElementOfRow` | src/benchmark_register.cc:278-304 | Row i takes from list j the element at (i / the sizes before j) modulo the size of j. |
| `ArgsProducts.RowsAreChoices` | src/benchmark_register.cc:278-304 | Rows and choices of one index per list correspond one to one. |
| `ArgsProducts.OdometerReturns` | src/benchmark_register.cc:297-300 | After the last row the odometer is back at zero. |
| `ArgsProducts.MakeRanges` | src/benchmark_register.cc:264-276 | `Ranges` appends the product of the ranges. |
| `ArgsProducts.Benchmark.Args` | src/benchmark_register.cc:327-331 | Appends one argument list. |
| `Families.BenchmarkFamilies.FindBenchmarks` | src/benchmark_register.cc:114-192 | Finds the wanted combinations in family, arguments, threads order, numbered consecutively; a pattern that does not compile changes nothing. |
| `Families.BenchmarkFamilies.FindMatching` | src/benchmark_register.cc:140-190 | The loop over the families, deleted ones included. |
| `Families.BenchmarkFamilies.AddDefaultArgs` | src/benchmark_register.cc:147-149 | A family without arguments and argument names gets one empty list. |
| `Families.Consider` | src/benchmark_register.cc:167-187 | One combination: appended and numbered exactly if it is wanted. |
| `Families.FindsExactlyTheWanted` | src/benchmark_register.cc:140-190 | A combination is found exactly when its family is there, the arguments and threads are its own or, without any, no arguments and one thread, and its name is enabled and selected. |
| `Families.CandidateAt` | src/benchmark_register.cc:167-168 | The combinations of a family go through its arguments, and for each through its thread counts. |
| `Families.NumberingIsGapFree` | src/benchmark_register.cc:138-187 | Family indices cover an initial segment, one for each family with an instance; instances count from 0 in each. |
| `Families.NegativeFilterSplits` | src/benchmark_register.cc:124-178 | A filter and its '-' form compile alike and split the enabled combinations in two, duplicates included. |
| `Families.SearchIsRepeatable` | src/benchmark_register.cc:147-149 | The default arguments left behind do not change what the same search finds next. |
| `PerfCounting.Create` | src/perf_counters.cc:82-232 | The counters obtained for any answers of the kernel, at most ten calls for a name; if a group cannot be started, everything opened is closed again. |
| `PerfCounting.CloseCounters` | src/perf_counters.cc:234-244 | The groups are stopped and their counters closed; all others stay open. |
| `PerfCounting.CreateAndClose` | src/perf_counters.h:96-96 | Creating and destroying leaves open what was open before, so descriptors may be handed out again. |
| `PerfCounting.OpenRound` | src/perf_counters.cc:163-171 | An interrupted call is repeated up to five times. |
| `PerfCounting.InterruptedCallsAreRepeated` | src/perf_counters.cc:163-171 | The first answer that is not an interruption decides, if it is among the first five. |
| `PerfCounting.OpenCounter` | src/perf_counters.cc:161-184 | The retry loop takes at most two rounds, the second for a new group. |
| `PerfCounting.CreateIsSound` | src/perf_counters.cc:90-205 | For every pattern of refusals: names, descriptors and opened events correspond, at most 32, all different; groups are contiguous under their leaders. |
| `PerfCounting.GroupsAreContiguous` | src/perf_counters.cc:197-205 | Going through the groups in leader order gives the counters in the order of their names. |
| `PerfCounting.GroupStartsWithLeader` | src/perf_counters.cc:146-171 | Every group starts with its leader, and the others are opened running and not pinned. |
| `PerfCounting.LeadersAreFirstUnlessOverflow` | src/perf_counters.cc:127-184 | All leaders are opened stopped and pinned if and only if no counter is refused in its group and granted as the leader of a new one. |
| `PerfCounting.PromotedLeaderRuns` | src/perf_counters.cc:150-184 | Two names for which the second leader is opened running and not pinned. |
| `PerfCounting.NamesInOrder` | src/perf_counters.cc:106-205 | The counted names are requested ones in the order of the request. |
| `PerfCounting.DroppedOnlyWhenRefused` | src/perf_counters.cc:172-196 | A known name is dropped only after a failed round in which it asked for a group of its own. |
| `PerfCounting.DroppedIffRefused` | src/perf_counters.cc:161-196 | It is dropped if and only if the calls failed both in the current group and for a new one. |
| `PerfCounting.NothingRefused` | src/perf_counters.cc:106-205 | If nothing is refused, all countable names up to 32 are counted, in one group. |
| `PerfCounting.PerfCounterValues.Read` | src/perf_counters.cc:31-55 | The values of all groups lie at the front of the 34-word buffer without the count words, and their number is returned; 0 exactly when that fails. |
| `PerfCounting.PerfCounterValues.ReadOne` | src/perf_counters.cc:36-52 | The values of one group follow those already gathered. |
| `PerfCounting.MoveDown` | src/perf_counters.cc:43-43 | The move of overlapping words keeps their values. |
| `PerfCounting.Snapshot` | src/perf_counters.h:118-129 | Value i is the value of counter i, and a snapshot succeeds whenever the reads do. |
| `PerfCounting.CreatedInStep` | src/perf_counters.h:118-120 | What `Create` returns meets the index contract, whatever other counters are open. |
| `PerfCounting.PerfCountersMeasurement.constructor` | src/perf_counters.cc:262-272 | What it creates meets the index contract, and its reads count as valid so far. |
| `PerfCounting.PerfCountersMeasurement.Start` | src/perf_counters.h:157-166 | A successful start holds the counters' values. |
| `PerfCounting.PerfCountersMeasurement.Stop` | src/perf_counters.h:168-184 | Measurement i has the name of counter i and what it counted since the start. |
| `LeastSquares.MinimalLeastSq` | src/complexity.cc:86-119 | The coefficient leaves the least sum of squared residuals of all real coefficients, and is the only one; it is not a number exactly when the curve is zero at all sizes. |
| `LeastSquares.CoefficientIsOptimal` | src/complexity.cc:101-105 | The quotient of the sums is the unique minimiser. |
| `LeastSquares.WhenRelativeErrorIsLeast` | src/complexity.cc:75-76 | The coefficient minimises the sum of squared relative errors if and only if two quotients of sums agree. |
| `LeastSquares.EqualTimesMinimiseBoth` | src/complexity.cc:75-76 | It does when all times are equal. |
| `LeastSquares.ExactFitMinimisesBoth` | src/complexity.cc:75-76 | It does when the curve fits exactly. |
| `LeastSquares.RelativeErrorNotLeast` | src/complexity.cc:75-76 | Two measurements for which it does not. |
| `LeastSquares.BestFit` | src/complexity.cc:137-151 | The loop over the curves ends with the earliest of the six fits with the least error. |
| `LeastSquares.MinimalLeastSqAmong` | src/complexity.cc:128-158 | Automatic choice gives the earliest of the six fits with the least error; a named complexity is used as it is, and times that are a multiple of its curve, written out for each name, give back the factor without error. |
| `LeastSquares.ChosenCurveIsClosest` | src/complexity.cc:137-151 | With a positive mean time, no multiple of any of the six curves has a smaller sum of squared residuals than the chosen fit. |
| `LeastSquares.ChosenCurveIsExact` | src/complexity.cc:137-151 | When the times are a multiple of one of the six curves, the automatic choice is a curve that they are a multiple of, with error 0. |
| `LeastSquares.PowerIsChosen` | src/complexity.cc:137-151 | Times that are a multiple of a power of the size, for two different positive sizes, are reported with that power and factor, unless a logarithmic curve fits exactly as well. |
| `LeastSquares.RmsSquared` | src/complexity.cc:107-117 | With a square root, the error reported is that of the mean squared residual relative to the mean time. |
| `LeastSquares.LessErrorLessRms` | src/complexity.cc:107-117 | Comparing the relative errors compares the sums of squared residuals. |
| `LeastSquares.ComputeBigO` | src/complexity.cc:162-207 | Fewer than two runs give nothing; otherwise the runs' CPU and real times for one iteration are fitted by the same curve of their sizes, chosen for the time that the benchmark is measured in. |
| `Statistics.StatisticsMedian` | src/statistics.cc:40-59 | Partial selection gives the median of the sorted sample, for every length. |
| `Statistics.MedianIsMiddle` | src/statistics.cc:40-59 | The median is the mean of the elements at (n - 1) / 2 and n / 2 of the sample put in order in whatever way. |
| `Statistics.NthElement` | src/statistics.cc:47-47 | A permutation around the element at the given position. |
| `Statistics.SelectedIsSorted` | src/statistics.cc:46-55 | Every partition puts at its position what sorting puts there. |
| `Statistics.MaxBeforeIsSorted` | src/statistics.cc:57-58 | The largest element before it is its predecessor in sorted order. |
| `Statistics.VarianceIsBesselCorrected` | src/statistics.cc:86-90 | The expression under the root is the Bessel-corrected variance, never negative, and 0 exactly when all values are equal. |
| `Statistics.StdDevIsRootOfVariance` | src/statistics.cc:67-91 | The guard of the root never fires. |
| `Statistics.CVIsRelativeDeviation` | src/statistics.cc:67-106 | The coefficient of variation times the mean is the standard deviation, which is 0 below two values; it is 0 there and for a mean of 0. |
| `Statistics.OrderDoesNotMatter` | src/statistics.cc:32-106 | Mean, median, standard deviation and coefficient of variation do not depend on the order of the repetitions. |
| `Sorting.SortRefinesOrder` | tools/gbench/util.py:161-178 | A stable sort by a key refines the order that its input had. |
| `Sorting.SortKeepsTies` | tools/gbench/util.py:161-178 | A stable sort keeps the input order among elements with the same key. |
| `SortResults.SortedLexicographically` | tools/gbench/util.py:157-181 | The same entries, in lexicographic order of family, instance, aggregate flag and repetition. |
| `SortResults.SortedByFields` | tools/gbench/util.py:157-181 | The same entries, ordered by the fields family_index, per_family_instance_index, being an aggregate, and repetition_index, where a missing index counts as -1; entries that agree in these stay in input order. |
| `SortResults.OrderOfReport` | tools/gbench/util.py:157-181 | A missing index comes before any of 0 or more; families ascend, then instances, then aggregates come last, then repetitions ascend. |
| `SortResults.TiesKeepInputOrder` | tools/gbench/util.py:157-181 | Entries that agree in all four keep the order of the input. |
| `SortResults.SortIsDetermined` | tools/gbench/util.py:157-181 | Order and ties determine the result. |
| `SortResults.SortIsIdempotent` | tools/gbench/util.py:157-181 | Sorting twice is sorting once. |
| `CommandLine.ParseCommandLineFlags` | src/benchmark.cc:752-797 | The library's flags are applied and removed in order, the other arguments keep theirs, and the program ends exactly if one of those asks for help. |
| `CommandLine.RemoveArgument` | src/benchmark.cc:787-789 | The arguments behind the removed one move down by one. |

## Left out

- ThreadRuns.RunInThread: the method runs one thread to its end; its waits, and the other threads meanwhile, are the subject of `StartStop`.
- Barriers.Barrier.Enter: a critical section is one step; the mutex itself and the C++ memory model are not modelled.
- States.State.constructor: at least one iteration is requested, as the source checks; names, ranges and thread indices are not modelled.
- States.State.PauseTiming: hardware counters are not read at pause and resume; `PerfCounting.PerfCountersMeasurement` models them separately.
- States.State.ResumeTiming: hardware counters are not started at resume, for the same reason.
- States.State.StartKeepRunning: the barrier call is a point in the thread's history here; what all threads do at it is the subject of `StartStop`. The profiler callback is left out.
- States.State.FinishKeepRunning: as for the start.
- LoopRuns.TimerDiscipline: the thread alone; the discipline across threads is in `StartStopRuns`.
- States.State.KeepRunningInternal: iteration counts are unbounded integers, so wrap-around near 2^63 is not modelled.
- Runners.Search: doubles are reals; rounding, infinities and the overflow of `llround` are not modelled.
- BenchmarkRunners.BenchmarkRunner.constructor: minimum times, repetitions and the explicit count are given; how they follow from flags and benchmark settings is left out.
- BenchmarkRunners.BenchmarkRunner.DoOneRepetition: memory and profiler managers, setup and teardown callbacks and the fields of a report are left out; the family record is kept by `Schedulers.StepRunner`.
- BenchmarkRunners.BenchmarkRunner.DoNIterations: the threads run in any interleaving given by an oracle; starting and joining them is not modelled.
- Schedulers.RunBenchmarks: every complexity family is taken to have a run that was not skipped, since the source reads the first run of a complete family; `std::shuffle` is any permutation.
- Ranges.AddRange: the promotion of small types to `int` inside expressions is not modelled; every value is required to fit the type itself, which is stricter.
- ArgsProducts.Benchmark.ArgsProduct: the overflow of the number of rows beyond the size type is not modelled, and at least one list is required, as the loop needs one.
- Families.BenchmarkFamilies.FindBenchmarks: the regular expression engine and the composition of names are arbitrary functions; the warning about large families and reserved capacity are left out, and the result starts empty as in its only caller.
- PerfCounting.Create: libpfm is an arbitrary predicate on names.
- PerfCounting.PerfCounterValues.Read: the buffer is counted in 8-byte words, which is what the kernel transfers, and the kernel's answer for a group is its members' values in the order in which they were attached.
- PerfCounting.PerfCountersMeasurement.constructor: at most 32 names are requested, as the source checks for its value buffers, so the truncation in `Create` is reached only by calling `Create` directly.
- LeastSquares.ComputeBigO: the copying of fields into the two reports and the division of the error by the time unit are left out.
- Statistics.NthElement: the selection algorithm of the standard library is replaced by a simple one with the same contract, and only the contract is used.
- CommandLine.ParseCommandLineFlags: parsing a flag is an arbitrary predicate on the argument; the final checks of the output formats, the colour and the time unit are left out.
- `ComputeStats` copies fields and groups counters by name; `Finish` of counters is a chain of independent factors: easy members.
- Reporters, terminal colours, JSON and CSV output, timers, system information, regular expressions, parsing of numbers: formatting, system calls and library code.
- `SetLabel`, `SetComplexityN` and the setters of `Benchmark`: they would add only easy members.
