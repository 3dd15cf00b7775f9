/** One benchmark test (src/main/Test.ts): a calibrating first run, steady-state runs sized from
    the previous estimate, and an online mean of the steady-state speeds.

    Speeds, iteration counts and times are reals. The clock is an oracle: `clock(k)` is the elapsed
    time, in milliseconds, of the k-th timed pass of one `Run` call, and `tick > 0` is a lower bound
    on every elapsed time (the resolution of the timer). */
module Measure {
  import opened Wrappers

  // ---------------------------------------------------------------------------------------------
  // Sums and means

  function Sum(s: seq<real>): real
  {
    if s == [] then 0.0 else s[0] + Sum(s[1..])
  }

  lemma {:induction false} SumAppend(s: seq<real>, x: real)
    ensures Sum(s + [x]) == Sum(s) + x
  {
    if s != [] {
      assert (s + [x])[1..] == s[1..] + [x];
      SumAppend(s[1..], x);
    }
  }

  /** Arithmetic mean; 0 for no samples. */
  function Mean(s: seq<real>): real
  {
    if s == [] then 0.0 else Sum(s) / |s| as real
  }

  /** The average of `count` measurements whose mean is `average` and one more measurement `x`. */
  function UpdatedMean(count: nat, average: real, x: real): real
  {
    (count as real * average + x) / (count as real + 1.0)
  }

  /** The incremental update of `averageSpeed` from `count` measurements with mean `average` is
      exactly the mean of the samples seen so far. */
  lemma OnlineMean(s: seq<real>, count: nat, average: real, x: real)
    requires count == |s| && average == Mean(s)
    ensures UpdatedMean(count, average, x) == Mean(s + [x])
  {
    SumAppend(s, x);
    if s != [] {
      assert |s| as real * Mean(s) == Sum(s);
    }
  }

  // ---------------------------------------------------------------------------------------------
  // Iteration counts

  function Pow2(k: nat): (r: nat)
    ensures r >= 1
  {
    if k == 0 then 1 else 2 * Pow2(k - 1)
  }

  /** How often `for (let i = 0; i < n; i++)` runs its body for a real bound `n`: the least
      natural number that is not below `n`. */
  function LoopCount(n: real): (c: nat)
    ensures c as real >= n
    ensures c == 0 || ((c - 1) as real) < n
  {
    if n <= 0.0 then 0 else if n.Floor as real == n then n.Floor else n.Floor + 1
  }

  /** The arguments of one operation call. */
  datatype Call = Call(iteration: nat, iterations: real)

  /** The first `i` calls of a pass of `n` iterations, in order. */
  function CallsBelow(i: nat, n: real): seq<Call>
  {
    if i == 0 then [] else CallsBelow(i - 1, n) + [Call(i - 1, n)]
  }

  /** The calls made by one timed pass of `n` iterations, in order. */
  function PassCalls(n: real): seq<Call>
  {
    CallsBelow(LoopCount(n), n)
  }

  lemma {:induction false} CallsBelowShape(i: nat, n: real)
    ensures |CallsBelow(i, n)| == i
    ensures forall j :: 0 <= j < i ==> CallsBelow(i, n)[j] == Call(j, n)
  {
    if i > 0 {
      CallsBelowShape(i - 1, n);
    }
  }

  /** Within one pass the first argument counts up from 0 through every natural number below
      `n`, one step at a time, and the second argument is always `n`. */
  lemma PassCallsShape(n: real)
    ensures forall j :: 0 <= j < |PassCalls(n)| ==>
      PassCalls(n)[j] == Call(j, n) && (j as real) < n
    ensures |PassCalls(n)| as real >= n
  {
    var c := LoopCount(n);
    CallsBelowShape(c, n);
    assert PassCalls(n) == CallsBelow(c, n);
    assert forall j :: 0 <= j < c ==> CallsBelow(c, n)[j] == Call(j, n) && (j as real) <= (c - 1) as real;
  }

  /** The value the last operation call of a pass of `n` iterations returns; nothing when the
      pass makes no call. */
  function LastResult<T>(op: (nat, real) -> T, n: real): (r: Option<T>)
    ensures r.None? <==> n <= 0.0
  {
    var c := LoopCount(n);
    if c == 0 then None else Some(op(c - 1, n))
  }

  // ---------------------------------------------------------------------------------------------
  // The clock and the calibration search

  /** Summed elapsed time of the first `k` passes. */
  function Elapsed(clock: nat -> real, k: nat): real
  {
    if k == 0 then 0.0 else Elapsed(clock, k - 1) + clock(k - 1)
  }

  ghost predicate Ticks(clock: nat -> real, tick: real)
  {
    tick > 0.0 && forall k :: clock(k) >= tick
  }

  lemma {:induction false} ElapsedAtLeast(clock: nat -> real, tick: real, k: nat)
    requires Ticks(clock, tick)
    ensures Elapsed(clock, k) >= k as real * tick
  {
    if k > 0 {
      ElapsedAtLeast(clock, tick, k - 1);
    }
  }

  lemma BelowQuotient(k: real, tick: real, duration: real)
    requires tick > 0.0 && k * tick < duration
    ensures k < duration / tick
  {
    var q := duration / tick;
    assert q * tick == duration;
    assert (q - k) * tick > 0.0;
  }

  /** The first pass count `K >= k` whose summed elapsed time reaches `duration`. */
  function CalibrationFrom(clock: nat -> real, tick: real, duration: real, k: nat): (K: nat)
    requires Ticks(clock, tick) && k >= 1
    requires forall j :: 1 <= j < k ==> Elapsed(clock, j) < duration
    ensures K >= k && Elapsed(clock, K) >= duration
    ensures forall j :: 1 <= j < K ==> Elapsed(clock, j) < duration
    decreases LoopCount(duration / tick) - k
  {
    if Elapsed(clock, k) >= duration then k
    else
      ElapsedAtLeast(clock, tick, k);
      BelowQuotient(k as real, tick, duration);
      CalibrationFrom(clock, tick, duration, k + 1)
  }

  /** The number of passes of a calibration: the first `K >= 1` whose summed pass times reach
      `duration`. At least one pass is always made. */
  function CalibrationPasses(clock: nat -> real, tick: real, duration: real): (K: nat)
    requires Ticks(clock, tick)
    ensures K >= 1 && Elapsed(clock, K) >= duration
    ensures forall j :: 1 <= j < K ==> Elapsed(clock, j) < duration
  {
    CalibrationFrom(clock, tick, duration, 1)
  }

  /** A calibration whose first `k` passes all stay below `duration` makes another pass. */
  lemma CalibrationContinues(clock: nat -> real, tick: real, duration: real, k: nat)
    requires Ticks(clock, tick) && k >= 1
    requires forall j :: 1 <= j <= k ==> Elapsed(clock, j) < duration
    ensures k < CalibrationPasses(clock, tick, duration)
  {
  }

  /** The first pass count that reaches `duration` is unique. */
  lemma CalibrationPassesUnique(clock: nat -> real, tick: real, duration: real, k: nat)
    requires Ticks(clock, tick)
    requires k >= 1 && Elapsed(clock, k) >= duration
    requires forall j :: 1 <= j < k ==> Elapsed(clock, j) < duration
    ensures k == CalibrationPasses(clock, tick, duration)
  {
  }

  /** Iteration counts of the passes of a calibration of `K` passes: 1, 2, 4, ... */
  function CalibrationSizes(K: nat): (sizes: seq<real>)
    ensures |sizes| == K
    ensures forall k :: 0 <= k < K ==> sizes[k] == Pow2(k) as real
  {
    seq(K, k requires 0 <= k => Pow2(k) as real)
  }

  // ---------------------------------------------------------------------------------------------
  // The measured state of a test and how runs change it

  /** The four mutable fields of a test. */
  datatype Stats<T> = Stats(speed: real, measurements: nat, averageSpeed: real, lastResult: Option<T>)

  /** Operations per second of `n` calls that took `runTime` milliseconds: at that speed the `n`
      calls take exactly `runTime`. */
  function Speed(n: real, runTime: real): (v: real)
    requires runTime > 0.0
    ensures v * runTime == n * 1000.0
    ensures n > 0.0 ==> v > 0.0
  {
    n * 1000.0 / runTime
  }

  /** Effect of one timed pass of `n` iterations that took `runTime` (runLoop). */
  function AfterPass<T>(s: Stats<T>, op: (nat, real) -> T, n: real, runTime: real, warmup: bool): (t: Stats<T>)
    requires runTime > 0.0
    ensures t.speed * runTime == n * 1000.0 && t.lastResult == LastResult(op, n)
    ensures warmup ==> t.measurements == s.measurements && t.averageSpeed == s.averageSpeed
    ensures !warmup ==> t.measurements == s.measurements + 1 && t.averageSpeed == UpdatedMean(s.measurements, s.averageSpeed, t.speed)
  {
    var speed := Speed(n, runTime);
    if warmup then s.(speed := speed, lastResult := LastResult(op, n))
    else Stats(speed, s.measurements + 1,
               UpdatedMean(s.measurements, s.averageSpeed, speed),
               LastResult(op, n))
  }

  /** Iteration count of a steady-state pass: the estimate (the average once more than ten
      measurements exist, else the last speed) times the duration in seconds. */
  function SteadyIterations<T>(s: Stats<T>, duration: real): (n: real)
    ensures duration > 0.0 ==> Speed(n, duration) == if s.measurements > 10 then s.averageSpeed else s.speed
  {
    (if s.measurements > 10 then s.averageSpeed else s.speed) * duration / 1000.0
  }

  /** Effect of `run(duration)`. */
  function AfterRun<T>(s: Stats<T>, op: (nat, real) -> T, duration: real, clock: nat -> real, tick: real): (t: Stats<T>)
    requires Ticks(clock, tick)
    ensures t.measurements == if s.speed == 0.0 then s.measurements else s.measurements + 1
  {
    if s.speed == 0.0 then
      var K := CalibrationPasses(clock, tick, duration);
      AfterPass(s, op, Pow2(K - 1) as real, clock(K - 1), true)
    else
      AfterPass(s, op, SteadyIterations(s, duration), clock(0), false)
  }

  /** A calibration is a warm-up: it leaves the measurement count and the average alone, yields a
      positive speed from the last (largest) pass, and keeps that pass's last result. */
  lemma CalibrationIsWarmup<T>(s: Stats<T>, op: (nat, real) -> T, duration: real, clock: nat -> real, tick: real)
    requires Ticks(clock, tick) && s.speed == 0.0
    ensures var K := CalibrationPasses(clock, tick, duration);
      var r := AfterRun(s, op, duration, clock, tick);
      && r.measurements == s.measurements
      && r.averageSpeed == s.averageSpeed
      && r.speed == Speed(Pow2(K - 1) as real, clock(K - 1))
      && r.speed > 0.0
      && r.lastResult == Some(op(Pow2(K - 1) - 1, Pow2(K - 1) as real))
  {
    var K := CalibrationPasses(clock, tick, duration);
    var n := Pow2(K - 1);
    assert LoopCount(n as real) == n;
    assert clock(K - 1) > 0.0;
  }

  /** A steady-state run is one measured pass of `SteadyIterations` iterations: it adds exactly
      one measurement. */
  lemma SteadyRunMeasuresOnce<T>(s: Stats<T>, op: (nat, real) -> T, duration: real, clock: nat -> real, tick: real)
    requires Ticks(clock, tick) && s.speed != 0.0
    ensures var r := AfterRun(s, op, duration, clock, tick);
      && r.measurements == s.measurements + 1
      && r.speed == Speed(SteadyIterations(s, duration), clock(0))
      && r.lastResult == LastResult(op, SteadyIterations(s, duration))
  {
  }

  /** Non-negative speeds, and a positive average once anything was measured. */
  ghost predicate Sane<T>(s: Stats<T>)
  {
    s.speed >= 0.0 && s.averageSpeed >= 0.0 && (s.measurements > 0 ==> s.averageSpeed > 0.0)
  }

  /** With a positive duration every run leaves a positive speed, so only the first run of a
      test calibrates. */
  lemma RunKeepsSane<T>(s: Stats<T>, op: (nat, real) -> T, duration: real, clock: nat -> real, tick: real)
    requires Ticks(clock, tick) && duration > 0.0 && Sane(s)
    ensures var r := AfterRun(s, op, duration, clock, tick);
      Sane(r) && r.speed > 0.0
  {
    if s.speed == 0.0 {
      CalibrationIsWarmup(s, op, duration, clock, tick);
    } else {
      var base := if s.measurements > 10 then s.averageSpeed else s.speed;
      assert base > 0.0;
      var n := SteadyIterations(s, duration);
      assert n > 0.0;
      assert clock(0) > 0.0;
      var sp := Speed(n, clock(0));
      assert sp > 0.0;
      var m := s.measurements as real;
      assert m * s.averageSpeed >= 0.0;
      assert UpdatedMean(s.measurements, s.averageSpeed, sp) > 0.0;
    }
  }

  /** One run keeps `averageSpeed` equal to the mean of the steady-state speeds. */
  lemma RunKeepsMean<T>(s: Stats<T>, op: (nat, real) -> T, duration: real, clock: nat -> real, tick: real, h: seq<real>)
    requires Ticks(clock, tick)
    requires s.measurements == |h| && s.averageSpeed == Mean(h)
    ensures var r := AfterRun(s, op, duration, clock, tick);
      var h' := if s.speed == 0.0 then h else h + [r.speed];
      r.measurements == |h'| && r.averageSpeed == Mean(h')
  {
    if s.speed != 0.0 {
      var r := AfterRun(s, op, duration, clock, tick);
      OnlineMean(h, s.measurements, s.averageSpeed, r.speed);
    }
  }

  // ---------------------------------------------------------------------------------------------
  // Many runs

  /** The state after the runs with the given durations; run `j` reads the clock `clocks(j)`. */
  function Runs<T>(s: Stats<T>, op: (nat, real) -> T, ds: seq<real>, clocks: nat -> nat -> real, tick: real): Stats<T>
    requires tick > 0.0 && forall j, k :: clocks(j)(k) >= tick
    decreases |ds|
  {
    if ds == [] then s
    else
      var j := |ds| - 1;
      AfterRun(Runs(s, op, ds[..j], clocks, tick), op, ds[j], clocks(j), tick)
  }

  /** The speeds of those runs that were steady-state passes, in order. */
  function SteadySpeeds<T>(s: Stats<T>, op: (nat, real) -> T, ds: seq<real>, clocks: nat -> nat -> real, tick: real): seq<real>
    requires tick > 0.0 && forall j, k :: clocks(j)(k) >= tick
    decreases |ds|
  {
    if ds == [] then []
    else
      var j := |ds| - 1;
      var before := Runs(s, op, ds[..j], clocks, tick);
      SteadySpeeds(s, op, ds[..j], clocks, tick)
        + (if before.speed == 0.0 then [] else [AfterRun(before, op, ds[j], clocks(j), tick).speed])
  }

  /** After any sequence of runs of a fresh test, `averageSpeed` is the arithmetic mean of the
      steady-state speeds and `measurements` is their number. */
  lemma {:induction false} AverageIsMeanOfSteadyRuns<T>(s: Stats<T>, op: (nat, real) -> T, ds: seq<real>, clocks: nat -> nat -> real, tick: real)
    requires tick > 0.0 && forall j, k :: clocks(j)(k) >= tick
    requires s.measurements == 0 && s.averageSpeed == 0.0
    ensures var r := Runs(s, op, ds, clocks, tick);
      var h := SteadySpeeds(s, op, ds, clocks, tick);
      r.measurements == |h| && r.averageSpeed == Mean(h)
    decreases |ds|
  {
    if ds != [] {
      var j := |ds| - 1;
      AverageIsMeanOfSteadyRuns(s, op, ds[..j], clocks, tick);
      var before := Runs(s, op, ds[..j], clocks, tick);
      var h := SteadySpeeds(s, op, ds[..j], clocks, tick);
      var step := AfterRun(before, op, ds[j], clocks(j), tick);
      var h' := if before.speed == 0.0 then h else h + [step.speed];
      RunKeepsMean(before, op, ds[j], clocks(j), tick, h);
      assert step.measurements == |h'| && step.averageSpeed == Mean(h');
      assert Runs(s, op, ds, clocks, tick) == step;
      assert SteadySpeeds(s, op, ds, clocks, tick) == h';
    }
  }

  /** With positive durations only the first run of a fresh test calibrates: every later run is a
      steady-state pass, and every speed is positive. */
  lemma {:induction false} OnlyFirstRunCalibrates<T>(s: Stats<T>, op: (nat, real) -> T, ds: seq<real>, clocks: nat -> nat -> real, tick: real)
    requires tick > 0.0 && forall j, k :: clocks(j)(k) >= tick
    requires s == Stats(0.0, 0, 0.0, None)
    requires forall j :: 0 <= j < |ds| ==> ds[j] > 0.0
    ensures ds != [] ==> |SteadySpeeds(s, op, ds, clocks, tick)| == |ds| - 1
    ensures ds != [] ==> Runs(s, op, ds, clocks, tick).speed > 0.0
    ensures Sane(Runs(s, op, ds, clocks, tick))
    decreases |ds|
  {
    if ds != [] {
      var j := |ds| - 1;
      OnlyFirstRunCalibrates(s, op, ds[..j], clocks, tick);
      var before := Runs(s, op, ds[..j], clocks, tick);
      RunKeepsSane(before, op, ds[j], clocks(j), tick);
    }
  }

  /** The clock that one `run` call times its passes with, and the tick that clock reports at
      least. */
  datatype Timer = Timer(clock: nat -> real, tick: real)

  /** Every timer's clock reports at least its tick. */
  ghost predicate AllTimed(ts: seq<Timer>)
  {
    forall k :: 0 <= k < |ts| ==> Ticks(ts[k].clock, ts[k].tick)
  }

  /** The state of a fresh test after `run` calls with the durations `ds`, call `k` timed by
      `ts[k]`. */
  ghost function Replay<T>(op: (nat, real) -> T, ds: seq<real>, ts: seq<Timer>): Stats<T>
    requires |ds| == |ts| && AllTimed(ts)
    decreases |ds|, 1
  {
    if ds == [] then Stats(0.0, 0, 0.0, None) else ReplayLast(op, ds, ts)
  }

  /** The last call applied to the replay of the calls before it. */
  ghost function ReplayLast<T>(op: (nat, real) -> T, ds: seq<real>, ts: seq<Timer>): Stats<T>
    requires |ds| == |ts| && AllTimed(ts) && ds != []
    decreases |ds|, 0
  {
    var j := |ds| - 1;
    AfterRun(Replay(op, ds[..j], ts[..j]), op, ds[j], ts[j].clock, ts[j].tick)
  }

  /** A call made after the calls `ds`, `ts` is replayed on their state. */
  lemma ReplayAppend<T>(op: (nat, real) -> T, ds: seq<real>, ts: seq<Timer>, d: real, t: Timer)
    requires |ds| == |ts| && AllTimed(ts) && Ticks(t.clock, t.tick)
    ensures AllTimed(ts + [t])
    ensures Replay(op, ds + [d], ts + [t]) == AfterRun(Replay(op, ds, ts), op, d, t.clock, t.tick)
  {
    assert (ds + [d])[..|ds|] == ds;
    assert (ts + [t])[..|ts|] == ts;
    assert Replay(op, ds + [d], ts + [t]) == ReplayLast(op, ds + [d], ts + [t]);
  }

  /** Calls that share one tick replay as `Runs` from a fresh test, with run `j` timed by the
      clock of call `j`. */
  lemma {:induction false} ReplayIsRuns<T>(op: (nat, real) -> T, ds: seq<real>, ts: seq<Timer>, clocks: nat -> nat -> real, tick: real)
    requires |ds| == |ts| && AllTimed(ts)
    requires tick > 0.0 && forall j, k :: clocks(j)(k) >= tick
    requires forall j :: 0 <= j < |ts| ==> ts[j] == Timer(clocks(j), tick)
    ensures Replay(op, ds, ts) == Runs(Stats(0.0, 0, 0.0, None), op, ds, clocks, tick)
    decreases |ds|
  {
    if ds != [] {
      var j := |ds| - 1;
      assert AllTimed(ts[..j]);
      ReplayIsRuns(op, ds[..j], ts[..j], clocks, tick);
      assert Replay(op, ds, ts) == ReplayLast(op, ds, ts);
    }
  }

  // ---------------------------------------------------------------------------------------------
  // The test object

  class Test<T> {
    const name: string
    const operation: (nat, real) -> T
    var speed: real
    var measurements: nat
    var averageSpeed: real
    var lastResult: Option<T>

    /** Speeds of all steady-state passes so far. */
    ghost var samples: seq<real>
    /** Iteration counts of the passes of the most recent `Run`. */
    ghost var passes: seq<real>
    /** The durations of all `Run` calls so far, in order. */
    ghost var durations: seq<real>
    /** Their timers, in the same order. */
    ghost var timers: seq<Timer>

    /** `averageSpeed` is the mean of the steady-state speeds, and the measured state is what
        the calls so far made of a fresh test, one `AfterRun` at a time. */
    ghost predicate Valid()
      reads this
    {
      && measurements == |samples| && averageSpeed == Mean(samples)
      && |durations| == |timers| && AllTimed(timers) && State() == Replay(operation, durations, timers)
    }

    function State(): Stats<T>
      reads this
    {
      Stats(speed, measurements, averageSpeed, lastResult)
    }

    constructor (name: string, operation: (nat, real) -> T)
      ensures Valid()
      ensures this.name == name && this.operation == operation
      ensures State() == Stats(0.0, 0, 0.0, None)
      ensures samples == [] && passes == [] && durations == [] && timers == []
    {
      this.name := name;
      this.operation := operation;
      speed := 0.0;
      measurements := 0;
      averageSpeed := 0.0;
      lastResult := None;
      samples := [];
      passes := [];
      durations := [];
      timers := [];
    }

    /** The `for` loop of a pass: the operation called with `i` and `iterations` for every `i`
        below `iterations`, keeping the last result. */
    method CallLoop(iterations: real) returns (result: Option<T>, ghost made: seq<Call>)
      ensures result == LastResult(operation, iterations)
      ensures made == PassCalls(iterations)
    {
      result := None;
      made := [];
      var i: nat := 0;
      while (i as real) < iterations
        invariant i <= LoopCount(iterations)
        invariant made == CallsBelow(i, iterations)
        invariant result == if i == 0 then None else Some(operation(i - 1, iterations))
        decreases LoopCount(iterations) - i
      {
        result := Some(operation(i, iterations));
        made := made + [Call(i, iterations)];
        i := i + 1;
      }
      assert i == LoopCount(iterations);
    }

    /** One timed pass of `iterations` operation calls; `runTime` is what the clock reports for
        it, and is returned. */
    method RunLoop(iterations: real, warmup: bool, runTime: real) returns (elapsed: real)
      requires runTime > 0.0
      modifies this`speed, this`measurements, this`averageSpeed, this`lastResult, this`samples, this`passes
      ensures State() == AfterPass(old(State()), operation, iterations, runTime, warmup)
      ensures samples == if warmup then old(samples) else old(samples) + [speed]
      ensures passes == old(passes) + [iterations]
      ensures elapsed == runTime
    {
      var result, made := CallLoop(iterations);
      speed := Speed(iterations, runTime);
      if !warmup {
        averageSpeed := UpdatedMean(measurements, averageSpeed, speed);
        measurements := measurements + 1;
        samples := samples + [speed];
      }
      lastResult := result;
      passes := passes + [iterations];
      elapsed := runTime;
    }

    /** `run(duration)`: a calibration of passes of 1, 2, 4, ... iterations while the speed is
        still 0, else one measured pass sized from the previous estimate. */
    method Run(duration: real, clock: nat -> real, tick: real)
      requires Valid() && Ticks(clock, tick)
      modifies this
      ensures Valid()
      ensures State() == AfterRun(old(State()), operation, duration, clock, tick)
      ensures samples == if old(speed) == 0.0 then old(samples) else old(samples) + [speed]
      ensures old(speed) == 0.0 ==> passes == CalibrationSizes(CalibrationPasses(clock, tick, duration))
      ensures old(speed) != 0.0 ==> passes == [SteadyIterations(old(State()), duration)]
      ensures passes != []
      ensures durations == old(durations) + [duration] && timers == old(timers) + [Timer(clock, tick)]
      ensures duration > 0.0 && old(Sane(State())) ==> Sane(State()) && speed > 0.0
    {
      if duration > 0.0 && Sane(State()) {
        RunKeepsSane(State(), operation, duration, clock, tick);
      }
      RunKeepsMean(State(), operation, duration, clock, tick, samples);
      ReplayAppend(operation, durations, timers, duration, Timer(clock, tick));
      durations := durations + [duration];
      timers := timers + [Timer(clock, tick)];
      passes := [];
      if speed == 0.0 {
        Calibrate(duration, clock, tick);
      } else {
        var _ := RunLoop(SteadyIterations(State(), duration), false, clock(0));
      }
    }

    /** The `do ... while` of the first `run`: warm-up passes of 1, 2, 4, ... iterations until
        their summed times reach `duration`. */
    method Calibrate(duration: real, clock: nat -> real, tick: real)
      requires Ticks(clock, tick) && passes == []
      modifies this`speed, this`measurements, this`averageSpeed, this`lastResult, this`samples, this`passes
      ensures unchanged(this`samples)
      ensures var K := CalibrationPasses(clock, tick, duration);
        && State() == AfterPass(old(State()), operation, Pow2(K - 1) as real, clock(K - 1), true)
        && passes == CalibrationSizes(K)
    {
      ghost var s0 := State();
      ghost var K := CalibrationPasses(clock, tick, duration);
      var iterations := 1.0;
      var time := 0.0;
      var stopTime := time + duration;
      iterations, time := CalibrationPass(0, iterations, time, clock, tick, s0);
      var k: nat := 1;
      while time < stopTime
        invariant 1 <= k <= K
        invariant iterations == Pow2(k) as real
        invariant time == Elapsed(clock, k) && stopTime == duration
        invariant forall j :: 1 <= j < k ==> Elapsed(clock, j) < duration
        invariant unchanged(this`samples)
        invariant State() == AfterPass(s0, operation, Pow2(k - 1) as real, clock(k - 1), true)
        invariant passes == CalibrationSizes(k)
        decreases K - k
      {
        CalibrationContinues(clock, tick, duration, k);
        iterations, time := CalibrationPass(k, iterations, time, clock, tick, s0);
        k := k + 1;
      }
      CalibrationPassesUnique(clock, tick, duration, k);
    }

    /** The body of the calibration loop for pass `k`: a warm-up pass of `iterations` = 2^k
        calls whose time is added to `time`, the summed time of the passes before it; then the
        iteration count doubles. `s0` is the state before the calibration, whose measurement
        count and average a warm-up pass keeps. */
    method CalibrationPass(k: nat, iterations: real, time: real, clock: nat -> real, tick: real, ghost s0: Stats<T>)
      returns (nextIterations: real, nextTime: real)
      requires Ticks(clock, tick) && iterations == Pow2(k) as real && time == Elapsed(clock, k)
      requires measurements == s0.measurements && averageSpeed == s0.averageSpeed
      requires passes == CalibrationSizes(k)
      modifies this`speed, this`measurements, this`averageSpeed, this`lastResult, this`samples, this`passes
      ensures unchanged(this`samples)
      ensures State() == AfterPass(s0, operation, Pow2(k) as real, clock(k), true)
      ensures passes == CalibrationSizes(k + 1)
      ensures nextIterations == Pow2(k + 1) as real && nextTime == Elapsed(clock, k + 1)
    {
      var elapsed := RunLoop(iterations, true, clock(k));
      assert passes == CalibrationSizes(k + 1);
      nextTime := time + elapsed;
      nextIterations := iterations * 2.0;
    }
  }
}
