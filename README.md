# A verified model of the benchmark runner

This project models the core of a small JavaScript benchmarking library. It covers three parts.

- **Test** (module `Measure`). A single benchmark test. Its first `run` calibrates: it runs warm-up passes of 1, 2, 4, … calls of the operation until their summed pass times reach the duration. Every later `run` makes one measured pass. That pass's size comes from the previous estimate: the latest speed, or the running average once more than ten measurements exist. The pass is folded into an online mean of the measured speeds.
- **TestRunner** (module `Runner`). The round-robin driver. Each round it runs, for every registered test in order, the init hook, `test.run` with a slice of 250 ms / number of tests, and a yield. The round then ends with one `report(runs++)`. Rounds continue while `running` holds and the `runs` bound is not reached. `stop` only clears `running`.
- **NodeTestRunner** (module `Terminal`). The console runner, in three pieces:
  - Keypress commands: `q` or Ctrl-C stop the run; `m` toggles average mode.
  - Report decisions. On a terminal, report 0 prints a warm-up line. Without a terminal, the first 25 reports are silent, and the next one renders and stops the run; `run` also forces average mode there.
  - The table arithmetic: title column width, bar column width, fastest speed, percentages and bar lengths.

Modelling choices:

- Speeds, iteration counts and times are `real`s.
- The clock is an oracle. `clock(k)` is the elapsed time of the k-th timed pass of one `Test.Run`, and `Ticks(clock, tick)` says every pass takes at least `tick > 0` ms.
- The operation is a total function `(nat, real) -> T`. `Test.CallLoop` returns the ghost record of the calls it made.
- `report` is abstract in the runner. The runner's `Run` takes `reportStops: nat -> bool`, which says whether `report(r)` calls `stop`; that is its only effect on the runner's state.
- The await points (`await sleep()` after each test, `await this.report(…)`) are points at which an environment `env: Point -> seq<Command>` may issue `Stop` or `ToggleAverage` commands.
- The runner's `ghost var events` records the init hooks, test runs and reports of the latest `Run`. The pure functions `Sweep` and `Trace` state what that record must be.
- Each test logs every `run` call it received: `ghost var durations` holds the durations and `ghost var timers` the clock and tick of each call (`Timer`). The test's invariant `Valid` requires its measured state (speed, measurements, averageSpeed, lastResult) to be `Replay` of those two logs: what that sequence of calls makes of a fresh test, one `AfterRun` at a time. So only `Test.Run` can change the measured state. The runner's methods keep every test valid and state how each test object's duration log grows, once for every place that object holds in the test list, so a test added twice runs twice per round.
- Name lengths are counted as JavaScript's `.length` counts them, in UTF-16 code units (`Utf16Length`): a character above U+FFFF counts twice.
- `NodeTestRunner` holds a `TestRunner` (`runner`) and supplies its report. Whether standard output is a terminal is the constant `tty`, and the keys pressed at each point are a parameter of `Run`.

## Model

| member | source | states |
|---|---|---|
| Measure.Test.constructor | src/main/Test.ts:29-44 | the name and operation are stored; speed, measurements and averageSpeed are 0 and lastResult is absent; no sample recorded and no call logged, so the state is that of a fresh test |
| Measure.Test.CallLoop | src/main/Test.ts:89-94 | the loop makes exactly the calls `PassCalls(iterations)` and returns the last call's result (`LastResult`) |
| Measure.LoopCount | src/main/Test.ts:92 | `for (i = 0; i < n; i++)` with a real `n` runs ⌈n⌉ times (0 for n ≤ 0): the least natural not below `n` |
| Measure.PassCallsShape | src/main/Test.ts:92-94 | call j of a pass of n iterations has arguments (j, n), with j < n; the first argument counts up 0, 1, 2, … and at least n calls are made |
| Measure.LastResult | src/main/Test.ts:89-94 | the pass's result is absent exactly when n ≤ 0, so no call is made; otherwise it is op(⌈n⌉-1, n), the last call's value |
| Measure.UpdatedMean | src/main/Test.ts:99 | the average update `(averageSpeed · measurements + speed) / (measurements + 1)` (a definition; `OnlineMean` proves it is the mean of all samples) |
| Measure.PassCalls | src/main/Test.ts:92-93 | the calls of one pass of n iterations, `op(0, n)`, `op(1, n)`, … in order (a definition; `PassCallsShape` states their arguments and number, and `Test.CallLoop` is proved to make exactly these calls) |
| Measure.OnlineMean | src/main/Test.ts:99 | the incremental average update from `count` samples with mean `average` equals the arithmetic mean of the samples plus the new one |
| Measure.Test.RunLoop | src/main/Test.ts:88-104 | with runTime > 0, the new state is `AfterPass`: speed = iterations·1000/runTime; a non-warm-up pass adds one measurement, updates the average and records the speed as a sample; a warm-up pass keeps both; lastResult is the pass's result; the pass time is returned |
| Measure.Elapsed | src/main/Test.ts:115-120 | the summed `time` of the first k calibration passes, each timed by the clock (a definition; `Test.Calibrate` keeps `time` equal to it, and `CalibrationPasses` and `CalibrationPassesUnique` state where the loop stops) |
| Measure.CalibrationPasses | src/main/Test.ts:114-120 | the do-while makes K ≥ 1 passes, where K is the first pass count whose summed times reach the duration: all earlier counts stay below it |
| Measure.CalibrationFrom | src/main/Test.ts:117-120 | the search from pass k onward ends at the first K ≥ k whose summed pass times reach the duration |
| Measure.CalibrationPassesUnique | src/main/Test.ts:117-120 | any pass count that reaches the duration while all earlier ones stay below is the calibration's pass count |
| Measure.CalibrationContinues | src/main/Test.ts:120 | while the first k summed pass times stay below the duration, the loop goes on past pass k |
| Measure.CalibrationSizes | src/main/Test.ts:114-119 | the passes of a K-pass calibration have sizes 1, 2, 4, …, 2^(K-1) |
| Measure.Test.Calibrate | src/main/Test.ts:112-120 | the calibration makes exactly `CalibrationPasses` warm-up passes of sizes 1, 2, 4, …; the state is that of the last, warm-up pass; the samples are unchanged |
| Measure.Test.CalibrationPass | src/main/Test.ts:117-119 | pass k runs 2^k warm-up iterations, adds clock(k) to the summed time, and doubles the iteration count |
| Measure.Test.Run | src/main/Test.ts:111-125 | the new state is `AfterRun`: calibration when speed is 0, else one measured pass of `SteadyIterations`; a sample is recorded exactly when the speed was known, and averageSpeed stays the mean of all measured samples; the passes made are listed; the duration log gains the duration and the timer log the call's clock and tick; the test stays valid, so its state is still the replay of its logged calls; with a positive duration the speed is positive afterwards |
| Measure.Test.Valid | src/main/Test.ts:97-124 | the test's invariant: measurements counts the steady samples and averageSpeed is their mean; the two call logs have equal length and every logged clock reports at least its tick; the measured state is `Replay` of the logged calls (a definition; `Test.Run` keeps it) |
| Measure.Replay | src/main/Test.ts:111-125 | the measured state after a sequence of `run` calls on a fresh test, call k with duration k and timer k (a definition; `ReplayAppend` and `ReplayIsRuns` state its properties) |
| Measure.ReplayAppend | src/main/Test.ts:111-125 | one more `run` call applies `AfterRun` to the replay of the calls before it, and keeps every logged clock at least its tick |
| Measure.Runs | src/main/Test.ts:111-125 | the state after runs with the given durations from a start state, run j timed by clock j (a definition; `AverageIsMeanOfSteadyRuns`, `OnlyFirstRunCalibrates` and `ReplayIsRuns` state its properties) |
| Measure.ReplayIsRuns | src/main/Test.ts:111-125 | calls that share one tick replay exactly as `Runs` from a fresh test, so what is proved of `Runs` holds of every valid test's state |
| Measure.Speed | src/main/Test.ts:97 | speed = iterations·1000 / runTime: at that speed the pass's iterations take exactly runTime, and a positive count gives a positive speed |
| Measure.AfterPass | src/main/Test.ts:97-102 | one `runLoop` pass: the speed times runTime is iterations·1000 and lastResult is the pass's last call; a warm-up pass keeps measurements and averageSpeed; a measured pass adds one measurement and folds the speed into the average by `UpdatedMean`, which `OnlineMean` proves is the arithmetic mean |
| Measure.SteadyIterations | src/main/Test.ts:123 | a pass of that many iterations lasting exactly `duration` runs at the estimate: averageSpeed once more than 10 measurements exist, else speed |
| Measure.AfterRun | src/main/Test.ts:111-124 | `run(duration)` is the calibration when speed is 0, else one measured pass of `SteadyIterations`; it adds a measurement exactly when the speed was known |
| Measure.CalibrationIsWarmup | src/main/Test.ts:98-120 | a calibrating run keeps measurements and averageSpeed; the speed is that of the last pass, 2^(K-1) iterations, and is positive; lastResult is that pass's last call |
| Measure.SteadyRunMeasuresOnce | src/main/Test.ts:121-124 | a run with a known speed makes exactly one measured pass of `(measurements > 10 ? averageSpeed : speed) · duration / 1000` iterations and adds exactly one measurement |
| Measure.RunKeepsSane | src/main/Test.ts:97-123 | with a positive duration and positive pass times, every run leaves a positive speed (so calibration does not happen again) and a non-negative average |
| Measure.RunKeepsMean | src/main/Test.ts:98-101 | one run keeps measurements equal to the steady sample count and averageSpeed equal to their mean; a calibrating run adds no sample |
| Measure.AverageIsMeanOfSteadyRuns | src/main/Test.ts:99-100 | after any sequence of runs of a fresh test, averageSpeed is the arithmetic mean of the steady-state pass speeds and measurements is their number |
| Measure.OnlyFirstRunCalibrates | src/main/Test.ts:111-124 | with positive durations, of N ≥ 1 runs of a fresh test exactly N-1 are steady-state passes, and the speed is positive after each |
| Runner.TestRunner.constructor | src/main/TestRunner.ts:44-48 | an absent option takes its default: no init hook, unbounded runs, showAverage false; not running, no tests |
| Runner.TestRunner.AddTest | src/main/TestRunner.ts:55-58 | the test is appended after the existing ones, which keep their order, and the runner itself is returned |
| Runner.TestRunner.Stop | src/main/TestRunner.ts:89-91 | running is false afterwards and nothing else changes |
| Runner.StopIdempotent | src/main/TestRunner.ts:89-91 | a second `stop` changes nothing, whatever commands follow |
| Runner.Below | src/main/TestRunner.ts:76 | the loop-head test `runs < this.runs`, true for every round when runs is Infinity; `RoundCountBounded` proves the rounds stay within a finite bound (a definition without a contract of its own) |
| Runner.Exec | src/main/TestRunner.ts:89-91 | one command at an await point: `Stop` clears running, as `stop` does, and `ToggleAverage` flips showAverage, as the key `m` does (a definition; `StopIdempotent` states its properties) |
| Runner.Apply | src/main/TestRunner.ts:80-82 | the commands issued at one await point, carried out in order (a definition; `ApplyKeepsStopped`, `ApplyWithStop` and `ApplyWithoutStop` state its properties) |
| Runner.AfterRound | src/main/TestRunner.ts:77-82 | the flags after round r: the yields after its tests, then the report's own `stop` if it calls it, then the commands issued while the report is awaited (a definition; `StopMidRound` states what a stop does) |
| Runner.FlagsBefore | src/main/TestRunner.ts:76-83 | the flags at the loop head before round r, round after round from the flags at the start (a definition; `StoppedStaysStopped` and `AlwaysRunning` state its properties) |
| Runner.RoundCount | src/main/TestRunner.ts:76 | R is the number of rounds: the loop condition held before rounds 0 … R-1 and fails before round R (a definition; `RoundCountBounded` proves R unique and within a finite bound) |
| Runner.ApplyKeepsStopped | src/main/TestRunner.ts:89-91 | once stopped, any further commands keep the runner stopped; toggles still act on showAverage |
| Runner.ApplyWithStop | src/main/TestRunner.ts:89-91 | a `Stop` among the commands at an await point leaves the runner stopped |
| Runner.ApplyWithoutStop | src/main/TestRunner.ts:89-91 | commands without a `Stop` leave `running` as it was |
| Runner.TestRunner.Perform | src/main/TestRunner.ts:80-82 | at an await point the environment's commands are carried out in order (`Apply`) |
| Runner.Slice | src/main/TestRunner.ts:71-72 | with n > 0 tests the slice is positive and n slices make up the 250 ms round budget |
| Runner.TestRunner.RunOne | src/main/TestRunner.ts:78-79 | the init hook, if any, then `test.run(duration)` for test i: its new state is `AfterRun` with that duration, it records a sample exactly when its speed was known, its duration log gains the duration and its timer log the clock and tick; every test stays valid, sane ones stay sane and test i's speed becomes positive; the logs advance by one turn; the events grow by `Step` |
| Runner.TestRunner.RunTestAt | src/main/TestRunner.ts:79 | `test.run(duration)` on the test at index i: its new state is `AfterRun` with the slice, it records a sample exactly when its speed was known, its duration log gains the slice and its timer log the clock and tick, the other test objects are untouched, and the logs advance by one turn |
| Runner.TestRunner.OnlyOneRan | src/main/TestRunner.ts:77-79 | when only the test object at index i changed: if it is valid, every test is (and if it is sane with a positive speed, the tests up to i are too); if its log gained one slice, the logs advance by one turn |
| Runner.TestRunner.RunStep | src/main/TestRunner.ts:77-81 | one iteration of the round's loop: test i runs with the slice, then the commands of the await after it act; every test stays valid, so each measured state is the replay of its logged calls; the duration logs advance by test i's turn, and flags and events by one step of `YieldsUpTo` and `Sweep` |
| Runner.TestRunner.RunRound | src/main/TestRunner.ts:77-81 | one round runs every test in order with the slice and awaits after each: every test stays valid, so each measured state is the replay of its logged calls; each test object's duration log gains the slice once for every place it holds in the list (`Logs` of round r+1); the flags are `YieldsUpTo` of all tests; the events grow by `Sweep` |
| Runner.TestRunner.ReportAndAwait | src/main/TestRunner.ts:82 | `report(r)` is recorded with the display mode at that moment; it may stop the run; then the commands issued while the report is awaited act |
| Runner.TestRunner.RunRoundAndReport | src/main/TestRunner.ts:76-83 | one pass of the while loop: the state after r rounds (`Progress`: valid tests, duration logs, flags and events) becomes the state after r+1 rounds; the test list is unchanged |
| Runner.TestRunner.RunRounds | src/main/TestRunner.ts:76-83 | the while loop makes exactly the `RoundCount` rounds; the final flags are `FlagsBefore`, the events are `Trace` and the duration logs are `Logs` of those rounds; every test stays valid, so each measured state is the replay of its logged calls |
| Runner.TestRunner.Run | src/main/TestRunner.ts:70-84 | `run` starts from running = true whatever came before; it makes exactly the rounds that `RoundCount` determines, ends with the flags and events of the model, keeps the test list and its validity, so each test's measured state is the replay of its logged calls, and leaves every sane test with a positive speed once a round ran; each test object's duration log grows by the slice 250 / tests.length exactly rounds × (its number of places in the list) times |
| Runner.StoppedStaysStopped | src/main/TestRunner.ts:76 | once the loop head sees the runner stopped, it stays stopped at every later round |
| Runner.StopMidRound | src/main/TestRunner.ts:75-83 | a `stop` during round r, after any of its tests, lets that round and its report finish, and no further round starts |
| Runner.AlwaysRunning | src/main/TestRunner.ts:75-76 | if nothing ever calls `stop`, the runner is running before every round |
| Runner.RoundsWithoutStop | src/main/TestRunner.ts:76-82 | if `stop` is never called, exactly `runs` rounds happen; `runs = 0` gives none |
| Runner.RoundCountBounded | src/main/TestRunner.ts:76 | the number of rounds never exceeds a finite `runs`, and it is unique |
| Runner.StepShape | src/main/TestRunner.ts:78-79 | one test of a round runs exactly that test and makes no report |
| Runner.SweepOrder | src/main/TestRunner.ts:77-81 | a round runs the tests 0, 1, …, n-1 in registration order, each once, and reports nothing before its end |
| Runner.SweepAt | src/main/TestRunner.ts:77-81 | with an init hook, the round's events alternate hook and test run, the hook immediately before each run; without one they are the runs alone; every run gets the same slice |
| Runner.TraceReports | src/main/TestRunner.ts:82 | over R rounds, `report` is called exactly once per round, with 0, 1, …, R-1 in order |
| Runner.TraceTests | src/main/TestRunner.ts:76-81 | over R rounds, the tests run as R repetitions of 0, 1, …, n-1 |
| Runner.ReportsAppend | src/main/TestRunner.ts:82 | the reports of two consecutive stretches of a run are those of the first followed by those of the second |
| Runner.YieldsUpTo | src/main/TestRunner.ts:80 | the flags after the `await sleep()` that follow tests 0 … i-1 of a round, each carrying out the commands issued there (a definition; `YieldsKeepStopped`, `StoppedAfterYield`, `YieldsRunning` and `StopMidRound` state its properties) |
| Runner.Step | src/main/TestRunner.ts:78-79 | the events of one test of a round: the init hook, if any, then the test's run with the slice (a definition; `StepShape` states its properties) |
| Runner.Sweep | src/main/TestRunner.ts:77-81 | the events of tests 0 … i-1 of one round, in order (a definition; `SweepOrder` and `SweepAt` state its properties) |
| Runner.Trace | src/main/TestRunner.ts:76-82 | the events of the first R rounds: each round's sweep, then its report with the display mode of that moment (a definition; `TraceReports` and `TraceTests` state its properties) |
| Runner.Occurrences | src/main/TestRunner.ts:77 | the number of places among the first i of the test list that hold the object t, at most i |
| Runner.OccurrencesIsMultiplicity | src/main/TestRunner.ts:77 | that number is the multiplicity of t in the multiset of the first i tests |
| Runner.Slices | src/main/TestRunner.ts:72 | k runs with slice d log exactly k entries, each d |
| Runner.Logs | src/main/TestRunner.ts:76-81 | the duration logs after r rounds and i tests of round r: one per test, each its start log followed by the slice once per turn that object had |
| Runner.LogsAt | src/main/TestRunner.ts:76-81 | test j's log is its start log followed by one slice for each of its turns |
| Runner.TurnsRoundEnd | src/main/TestRunner.ts:77-81 | the turns an object has had at the end of round r are those at the start of round r+1 |
| Runner.SlicesStep | src/main/TestRunner.ts:79 | when the object at index i logs one more slice and no other object changes, the logs after i tests of a round become the logs after i+1 tests |
| Runner.SlicesRoundEnd | src/main/TestRunner.ts:77-81 | the logs at the end of round r are the logs at the start of round r+1 |
| Runner.TestRunner.SlicesRunStart | src/main/TestRunner.ts:70-75 | before the first round every test's log is where it started |
| Runner.TestRunner.SlicesRunDone | src/main/TestRunner.ts:76-83 | after R whole rounds each test's log has gained the slice R times for every place it holds in the list |
| Runner.TestsRunAppend | src/main/TestRunner.ts:79 | the tests run in two consecutive stretches are those of the first followed by those of the second |
| Terminal.IsStopKey | src/main/NodeTestRunner.ts:70 | `q`, or `c` with Ctrl held (a definition; `StopKeyStops` and `StopKeyIssuesStop` state its properties) |
| Terminal.KeyCommands | src/main/NodeTestRunner.ts:69-75 | the commands a batch of keys issues, in order, keys without a command skipped (a definition; `StopKeyIssuesStop`, `OtherKeysInert` and `PressAllIsApply` state its properties) |
| Terminal.PressAll | src/main/NodeTestRunner.ts:69-75 | the listener run on each key of a batch in turn (a definition; `PressAllIsApply` and `OtherKeysInert` state its properties) |
| Terminal.KeyCommand | src/main/NodeTestRunner.ts:69-75 | `q` or Ctrl-C issue `Stop`, `m` issues `ToggleAverage`, and any other key issues nothing, each in both directions |
| Terminal.Press | src/main/NodeTestRunner.ts:69-75 | a keypress has the effect of the runner carrying out that key's command (`Apply` of its `KeyCommands`) |
| Terminal.StopKeyStops | src/main/NodeTestRunner.ts:70-71 | a stop key stops the run and keeps the display mode |
| Terminal.ToggleTwiceRestores | src/main/NodeTestRunner.ts:72-73 | pressing `m` twice restores the flags |
| Terminal.OtherKeysInert | src/main/NodeTestRunner.ts:69-75 | keys other than `q`, Ctrl-C and `m` issue no command and change nothing, however many are pressed |
| Terminal.PressAllIsApply | src/main/NodeTestRunner.ts:69-75 | pressing keys one at a time has the effect of the runner carrying out their commands in order |
| Terminal.StopKeyIssuesStop | src/main/NodeTestRunner.ts:70-71 | a batch of keys issues `Stop` exactly when one of them is a stop key |
| Terminal.NodeTestRunner.OnKeypress | src/main/NodeTestRunner.ts:69-75 | the listener changes the two flags as `Press` says |
| Terminal.Decide | src/main/NodeTestRunner.ts:29-61 | warm-up line exactly for report 0 on a terminal; silent exactly for reports below 25 without one; a table otherwise; it stops the run exactly without a terminal from report 25 on; the cursor-up count is 2 for report 1 and numTests + 6 after |
| Terminal.ReportStops | src/main/NodeTestRunner.ts:56-61 | `report(r)` calls `stop` exactly without a terminal from report 25 on |
| Terminal.TerminalReportsNeverStop | src/main/NodeTestRunner.ts:56-57 | on a terminal `report` never calls `stop` |
| Terminal.QuietSessionFlags | src/main/NodeTestRunner.ts:35-37 | without a terminal and keys, the runner is running before rounds 0 … 25, stopped after round 25, and the display mode never changes |
| Terminal.QuietRounds | src/main/NodeTestRunner.ts:35-61 | a session without a terminal makes at most 26 rounds, and exactly `runs` when `runs` ≤ 26 |
| Terminal.QuietSessionRounds | src/main/NodeTestRunner.ts:35-61 | without a terminal the session makes exactly `QuietRounds(runs)` rounds and always ends, even with unbounded runs |
| Terminal.Utf16Length | src/main/NodeTestRunner.ts:39 | a name's `.length`: its UTF-16 code units, at least its number of characters and at most twice that |
| Terminal.Utf16LengthIsSize | src/main/NodeTestRunner.ts:39 | `.length` equals the number of characters exactly when no character lies above U+FFFF |
| Terminal.LongestFrom | src/main/NodeTestRunner.ts:39 | the `reduce` yields the largest of the start value and the names' `.length` (UTF-16 code units) |
| Terminal.TitleLen | src/main/NodeTestRunner.ts:39 | the title column is the longest name length clamped into [4, 30]; it is 30 only when some name is at least 30 long |
| Terminal.MaxBarLen | src/main/NodeTestRunner.ts:42 | the bar column is 80 - titleLen - 17, which lies in [33, 59] |
| Terminal.FastestFrom | src/main/NodeTestRunner.ts:40 | the `reduce` yields the largest of the start value and the speeds |
| Terminal.Fastest | src/main/NodeTestRunner.ts:40 | `fastest` is at least 0 and every displayed speed, and is 0 or one of them |
| Terminal.Percent | src/main/NodeTestRunner.ts:48 | the percentage is undefined (JavaScript's NaN) exactly when fastest is 0; it is at most 100, and it is 100·speed/fastest ≥ 0 for a speed within [0, fastest] |
| Terminal.RoundHalfUp | src/main/NodeTestRunner.ts:50 | `Math.round` gives the integer within half a unit of x, halves rounded up |
| Terminal.BarLen | src/main/NodeTestRunner.ts:49-51 | the rounded bar length is at most maxBarLen, within half a unit of maxBarLen·percent/100, and empty for an undefined percentage |
| Terminal.DisplayedSpeed | src/main/NodeTestRunner.ts:47 | the speed a row shows is the average in average mode, else the latest speed; it is non-negative for a sane test |
| Terminal.RowFor | src/main/NodeTestRunner.ts:47-51 | a row keeps the test's name; its percentage is undefined exactly when fastest is 0, else within [0, 100]; its bar fits the bar column |
| Terminal.RowsUpTo | src/main/NodeTestRunner.ts:46-53 | the first j rows are one per test |
| Terminal.RowsUpToAt | src/main/NodeTestRunner.ts:46-53 | row k holds test k's name, percentage and bar, in registration order |
| Terminal.Rows | src/main/NodeTestRunner.ts:46-53 | the table has one row per test |
| Terminal.ReportOutput | src/main/NodeTestRunner.ts:25-63 | `report(runs)` prints the warm-up line exactly for report 0 on a terminal, nothing exactly for reports below 25 without one, and otherwise a table in the current display mode that moves the cursor only on a terminal |
| Terminal.TableBounds | src/main/NodeTestRunner.ts:39-53 | a rendered table has titleLen in [4, 30] and fastest ≥ every displayed speed; it has one row per test, with the test's name; each percentage is in [0, 100] and undefined only when fastest is 0; each bar fits the bar column |
| Terminal.NamesOf | src/main/NodeTestRunner.ts:52 | the names are the tests' names in order |
| Terminal.SpeedsOf | src/main/NodeTestRunner.ts:40-47 | the displayed speeds are the tests' averages in average mode, else their latest speeds, in order; they are non-negative for sane tests |
| Terminal.TableRows | src/main/NodeTestRunner.ts:46-53 | the `for` loop produces exactly the rows `Rows` specifies for the tests' names and displayed speeds |
| Terminal.NodeTestRunner.constructor | src/main/TestRunner.ts:44-48 | the inner runner is built with the options' defaults |
| Terminal.NodeTestRunner.Layout | src/main/NodeTestRunner.ts:25-55 | what `report(runs)` prints is `ReportOutput` of the tests' current names and displayed speeds |
| Terminal.NodeTestRunner.Report | src/main/NodeTestRunner.ts:25-63 | prints as `Layout`; running becomes false exactly when the report stops the run (`ReportStops`), and stays as it was otherwise |
| Terminal.NodeTestRunner.Run | src/main/NodeTestRunner.ts:87-101 | on a terminal the keys drive the runner's loop; without one average mode is forced before the loop, no key acts, and the session makes exactly `QuietRounds(runs)` rounds; the test list and its validity are kept, so each test's measured state is the replay of its logged calls; the events are the model's `Trace`; each test's duration log grows by the slice once per round and place in the list |

## Left out

- src/main/serve.ts, src/main/BrowserTestRunner.ts, src/main/script.ts, src/main/env.ts, src/main/benchmark.ts and src/main/index.ts are not part of this model. They hold an HTTP server, DOM rendering, browser event glue, host detection and re-exports.
- src/main/sleep.ts is not part of this model: `await sleep()` is an await point at which the environment may act, with no timer.
- Console output: ANSI escapes, box-drawing strings, number formatting, padding, `toFixed` and `console.log` are not modelled. `Layout` returns the decision and the numbers the table is drawn from (`Output`).
- Terminal.NodeTestRunner.Run: keys may arrive at the report's await point (`AtReport`) too. Node's `report` returns `void`, so that `await` only waits for a microtask, and no keypress can be handled there. Allowing keys at that point admits more sessions than Node can produce, so every property proved of them still holds of a real session.
- Terminal.NodeTestRunner.Run: the `--web` branch (which serves the browser runner) and readline's raw-mode setup and teardown are left out. Keys arrive only at the runner's await points, as the environment.
- Real time and IEEE floating point: speeds and times are exact reals.
  - Every pass time is positive, at least `tick` (`Ticks`). A zero pass time, which gives JavaScript `Infinity` speed, is not modelled.
  - `NaN` appears only as the `None` percentage when fastest is 0.
- Measure.Test.Calibrate: the calibration's start time is taken as 0, because only the differences to `performance.now()` matter.
- Measure.Speed: requires a positive run time, for the reason above.
- Runner.TestRunner.Run: requires `Ends` with unbounded `runs`: some round must end with the runner stopped. An unbounded session that is never stopped does not terminate, and is not modelled.
- Runner.TestRunner.Run does not call `report` itself. It takes the report's decision to call `stop` as `reportStops`. What a console report prints is modelled separately by `Terminal.NodeTestRunner.Report` and `Layout`.
- Runner: the `runs` option is a natural number or `Infinity`; negative or fractional values are not modelled.
- Runner.Slice: with no tests JavaScript computes `250 / 0 = Infinity`. That value is never used, because no test runs; the model gives 0. The code reports no error for an empty test list, and `run` still makes its rounds of reports; the model follows the code.
- Runner.TestRunner.RunStep: states that test i's measured state is the replay of its logged calls, but not which timer its new call logged. `RunOne` states that it is the clock of round r and place i; passing that up to the round-level invariant made the proofs too expensive.
- Runner.TestRunner.RunRound: states each test's duration log by round and place, but not its timer log. The new timers are known only to report at least their tick.
- Runner.TestRunner.RunRoundAndReport: the same; the timers a round logs are not stated.
- Runner.TestRunner.RunRounds: the same; the timers the rounds log are not stated.
- Runner.TestRunner.Run: each test's measured state is `Replay` of its logged durations, which are stated, and its logged timers, which are not. They are the clocks `clocks(r, p)` of the rounds and places the test ran at, but the model does not promise which clock went with which call.
- Terminal.NodeTestRunner.Run: the same as `Runner.TestRunner.Run`; the timers a session logs are not stated.
- Measure.Test: the object does not store the calls of its passes. The sequence of calls of a pass is stated by `CallLoop`'s ghost result only.
- Operations that throw are not modelled: the operation is a total function.
- Terminal.BarLen: requires a percentage within [0, 100]. A negative speed would give a negative percentage, for which JavaScript's `repeat` throws; speeds are non-negative for sane tests, so `Layout` and `Report` require `AllSane`.
- Terminal.NodeTestRunner: composes a `TestRunner` instead of extending it, and `tty` is a constant of the object.
