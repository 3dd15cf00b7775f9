/** The console runner (src/main/NodeTestRunner.ts): keypress commands, when a report renders and
    when it stops the run, and the arithmetic of the result table.

    A `NodeTestRunner` holds a `TestRunner` and supplies its `report`; whether standard output is a
    terminal is the constant `tty`. Keys arrive only while the runner is suspended; the keys
    pressed at point `p` are `keys(p)`. */
module Terminal {
  import opened Wrappers
  import opened Measure
  import opened Runner

  /** Width of the rendered table in characters. */
  const TableWidth: int := 80
  /** Bounds of the title column. */
  const MinTitleLen: nat := 4
  const MaxTitleLen: nat := 30
  /** Without a terminal the first reports (rounds 0 .. 24) print nothing. */
  const QuietReports: nat := 25

  // ---------------------------------------------------------------------------------------------
  // Keypresses

  /** A key as readline reports it: its name and whether Ctrl was held. */
  datatype Key = Key(name: string, ctrl: bool)

  predicate IsStopKey(k: Key)
  {
    k.name == "q" || (k.ctrl && k.name == "c")
  }

  /** The command a key issues, if any: `q` or Ctrl-C stop, `m` toggles the speed display. */
  function KeyCommand(k: Key): (c: Option<Command>)
    ensures c == Some(Stop) <==> k.name == "q" || (k.ctrl && k.name == "c")
    ensures c == Some(ToggleAverage) <==> k.name == "m"
    ensures c == None <==> k.name != "q" && k.name != "m" && !(k.ctrl && k.name == "c")
  {
    if IsStopKey(k) then Some(Stop) else if k.name == "m" then Some(ToggleAverage) else None
  }

  /** The commands issued by the keys `ks`, in order. */
  function KeyCommands(ks: seq<Key>): seq<Command>
  {
    if ks == [] then []
    else (match KeyCommand(ks[0]) case Some(c) => [c] case None => []) + KeyCommands(ks[1..])
  }

  /** The environment of a terminal session: the commands of the keys pressed at each point. */
  function KeyEnv(keys: Point -> seq<Key>): Point -> seq<Command>
  {
    p => KeyCommands(keys(p))
  }

  /** The environment of a session without a terminal: nothing ever happens from outside. */
  function NoKeys(): Point -> seq<Command>
  {
    p => []
  }

  /** The keypress listener's effect on the two flags: the runner carries out the key's command. */
  function Press(f: Flags, k: Key): (g: Flags)
    ensures g == Apply(f, KeyCommands([k]))
  {
    if IsStopKey(k) then f.(running := false)
    else if k.name == "m" then f.(showAverage := !f.showAverage)
    else f
  }

  /** The listener applied to each key in turn. */
  function PressAll(f: Flags, ks: seq<Key>): Flags
    decreases |ks|
  {
    if ks == [] then f else PressAll(Press(f, ks[0]), ks[1..])
  }

  /** A stop key stops the run and leaves the display mode alone. */
  lemma StopKeyStops(f: Flags, k: Key)
    requires IsStopKey(k)
    ensures Press(f, k) == Flags(false, f.showAverage)
  {
  }

  /** Pressing `m` twice restores the display mode. */
  lemma ToggleTwiceRestores(f: Flags, k: Key)
    requires k.name == "m"
    ensures PressAll(f, [k, k]) == f
  {
    assert !IsStopKey(k) by {
      assert k.name[0] == 'm';
    }
    assert [k, k][1..] == [k];
    assert PressAll(f, [k, k]) == PressAll(Press(f, k), [k]);
    assert [k][1..] == [];
    assert PressAll(Press(f, k), [k]) == Press(Press(f, k), k);
  }

  /** Keys other than `q`, Ctrl-C and `m` change nothing, however many are pressed. */
  lemma {:induction false} OtherKeysInert(f: Flags, ks: seq<Key>)
    requires forall j :: 0 <= j < |ks| ==> KeyCommand(ks[j]) == None
    ensures KeyCommands(ks) == [] && PressAll(f, ks) == f
  {
    if ks != [] {
      OtherKeysInert(f, ks[1..]);
    }
  }

  /** Pressing keys one at a time is the same as the runner carrying out their commands. */
  lemma {:induction false} PressAllIsApply(f: Flags, ks: seq<Key>)
    ensures PressAll(f, ks) == Apply(f, KeyCommands(ks))
    decreases |ks|
  {
    if ks != [] {
      PressAllIsApply(Press(f, ks[0]), ks[1..]);
      var rest := KeyCommands(ks[1..]);
      match KeyCommand(ks[0]) {
        case Some(c) =>
          assert KeyCommands(ks) == [c] + rest;
          assert ([c] + rest)[1..] == rest;
        case None =>
          assert KeyCommands(ks) == rest;
      }
    }
  }

  /** The keys stop the run exactly when one of them is a stop key. */
  lemma {:induction false} StopKeyIssuesStop(ks: seq<Key>)
    ensures Stop in KeyCommands(ks) <==> exists j :: 0 <= j < |ks| && IsStopKey(ks[j])
  {
    if ks != [] {
      StopKeyIssuesStop(ks[1..]);
      var first := match KeyCommand(ks[0]) case Some(c) => [c] case None => [];
      assert KeyCommands(ks) == first + KeyCommands(ks[1..]);
      assert forall j :: 0 < j < |ks| ==> ks[j] == ks[1..][j - 1];
      if exists j :: 0 < j < |ks| && IsStopKey(ks[j]) {
        var j :| 0 < j < |ks| && IsStopKey(ks[j]);
        assert IsStopKey(ks[1..][j - 1]);
      }
    }
  }

  // ---------------------------------------------------------------------------------------------
  // When a report renders and when it stops

  /** What one `report(runs)` call does: print the warm-up line, print nothing, or render the
      table (first moving the cursor up over the previous one on a terminal), then possibly stop. */
  datatype Decision = WarmUp | Quiet | Render(cursorUp: Option<nat>, stops: bool)

  function Decide(tty: bool, runs: nat, numTests: nat): (d: Decision)
    ensures d == WarmUp <==> tty && runs == 0
    ensures d == Quiet <==> !tty && runs < QuietReports
    ensures d.Render? && d.stops <==> !tty && runs >= QuietReports
    ensures d.Render? ==> (d.cursorUp.Some? <==> tty)
    ensures d.Render? && tty ==> d.cursorUp.value == if runs == 1 then 2 else numTests + 6
  {
    if tty && runs == 0 then WarmUp
    else if tty then Render(Some(if runs == 1 then 2 else numTests + 6), false)
    else if runs < QuietReports then Quiet
    else Render(None, true)
  }

  /** Whether `report(r)` calls `stop`: exactly without a terminal, from report 25 on. */
  function ReportStops(tty: bool, numTests: nat): (stops: nat -> bool)
    ensures forall r: nat :: stops(r) <==> !tty && r >= QuietReports
  {
    (r: nat) => Decide(tty, r, numTests).Render? && Decide(tty, r, numTests).stops
  }

  /** On a terminal a report never stops the run: only the user does. */
  lemma TerminalReportsNeverStop(numTests: nat, r: nat)
    ensures !ReportStops(true, numTests)(r)
  {
  }

  lemma {:induction false} NoKeysYieldNothing(f: Flags, r: nat, i: nat)
    ensures YieldsUpTo(f, NoKeys(), r, i) == f
  {
    if i > 0 {
      NoKeysYieldNothing(f, r, i - 1);
    }
  }

  /** Without a terminal, the runner is running before rounds 0 .. 25 and stopped after round 25,
      whatever `runs` allows; the display mode never changes. */
  lemma {:induction false} QuietSessionFlags(f0: Flags, n: nat, r: nat)
    ensures FlagsBefore(f0, NoKeys(), ReportStops(false, n), n, r)
      == if r <= QuietReports then f0 else f0.(running := false)
  {
    if r > 0 {
      QuietSessionFlags(f0, n, r - 1);
      var f := FlagsBefore(f0, NoKeys(), ReportStops(false, n), n, r - 1);
      NoKeysYieldNothing(f, r - 1, n);
      assert NoKeys()(AtReport(r - 1)) == [];
    }
  }

  /** The number of rounds of a session without a terminal: `runs`, but at most 26. */
  function QuietRounds(runs: Runs): (R: nat)
    ensures R <= QuietReports + 1
    ensures runs.Finite? && runs.count <= QuietReports + 1 ==> R == runs.count
  {
    match runs
    case Finite(count) => if count < QuietReports + 1 then count else QuietReports + 1
    case Infinity => QuietReports + 1
  }

  /** Without a terminal a session makes `QuietRounds(runs)` rounds; in particular an unbounded
      one ends after round 25. */
  lemma QuietSessionRounds(runs: Runs, show: bool, n: nat)
    ensures RoundCount(runs, Flags(true, show), NoKeys(), ReportStops(false, n), n, QuietRounds(runs))
    ensures Ends(runs, Flags(true, show), NoKeys(), ReportStops(false, n), n)
  {
    var f0 := Flags(true, show);
    var R := QuietRounds(runs);
    forall r: nat | r < R
      ensures Below(r, runs) && FlagsBefore(f0, NoKeys(), ReportStops(false, n), n, r).running
    {
      QuietSessionFlags(f0, n, r);
    }
    QuietSessionFlags(f0, n, R);
    QuietSessionFlags(f0, n, QuietReports + 1);
  }

  // ---------------------------------------------------------------------------------------------
  // The table

  function Max(a: real, b: real): real
  {
    if a < b then b else a
  }

  /** JavaScript's `length` of a string: its UTF-16 code units, two for a character beyond U+FFFF. */
  function Utf16Length(s: string): (n: nat)
    ensures |s| <= n <= 2 * |s|
  {
    if s == [] then 0 else Utf16Length(s[..|s| - 1]) + (if s[|s| - 1] as int > 0xFFFF then 2 else 1)
  }

  /** The UTF-16 length is the number of characters exactly when none lies beyond U+FFFF. */
  lemma {:induction false} Utf16LengthIsSize(s: string)
    ensures Utf16Length(s) == |s| <==> forall k :: 0 <= k < |s| ==> s[k] as int <= 0xFFFF
  {
    if s != [] {
      var p := s[..|s| - 1];
      Utf16LengthIsSize(p);
      assert forall k :: 0 <= k < |p| ==> p[k] == s[k];
    }
  }

  /** `reduce` over the names, keeping the longest length seen, starting from `acc`. */
  function LongestFrom(names: seq<string>, acc: nat): (m: nat)
    ensures m >= acc && forall j :: 0 <= j < |names| ==> Utf16Length(names[j]) <= m
    ensures m == acc || exists j :: 0 <= j < |names| && Utf16Length(names[j]) == m
  {
    if names == [] then acc
    else
      var len := Utf16Length(names[0]);
      var m := LongestFrom(names[1..], if len < acc then acc else len);
      assert forall j :: 1 <= j < |names| ==> names[j] == names[1..][j - 1];
      m
  }

  /** The title column: the longest name, but at least 4 and at most 30. */
  function TitleLen(names: seq<string>): (t: nat)
    ensures MinTitleLen <= t <= MaxTitleLen
    ensures forall j :: 0 <= j < |names| ==> Utf16Length(names[j]) <= t || t == MaxTitleLen
    ensures t == MinTitleLen || t == MaxTitleLen || exists j :: 0 <= j < |names| && Utf16Length(names[j]) == t
    ensures t == MaxTitleLen ==> exists j :: 0 <= j < |names| && Utf16Length(names[j]) >= MaxTitleLen
  {
    var longest := LongestFrom(names, MinTitleLen);
    if longest < MaxTitleLen then longest else MaxTitleLen
  }

  /** Room for the bar: the table width less the title column and the fixed columns. */
  function MaxBarLen(names: seq<string>): (m: nat)
    ensures 33 <= m <= 59
    ensures m + TitleLen(names) + 17 == TableWidth
  {
    TableWidth - TitleLen(names) - 17
  }

  /** `reduce` over the speeds, keeping the largest seen, starting from `acc`. */
  function FastestFrom(speeds: seq<real>, acc: real): (f: real)
    ensures f >= acc && forall j :: 0 <= j < |speeds| ==> speeds[j] <= f
    ensures f == acc || exists j :: 0 <= j < |speeds| && speeds[j] == f
  {
    if speeds == [] then acc
    else
      var f := FastestFrom(speeds[1..], Max(acc, speeds[0]));
      assert forall j :: 1 <= j < |speeds| ==> speeds[j] == speeds[1..][j - 1];
      f
  }

  /** The fastest displayed speed, and 0 when no speed is positive. */
  function Fastest(speeds: seq<real>): (f: real)
    ensures f >= 0.0 && forall j :: 0 <= j < |speeds| ==> speeds[j] <= f
    ensures f == 0.0 || exists j :: 0 <= j < |speeds| && speeds[j] == f
  {
    FastestFrom(speeds, 0.0)
  }

  /** `Math.min(100, 100 * speed / fastest)`; `None` where JavaScript computes `NaN` (a zero
      `fastest`). */
  function Percent(speed: real, fastest: real): (p: Option<real>)
    ensures p.None? <==> fastest == 0.0
    ensures p.Some? ==> p.value <= 100.0
    ensures 0.0 <= speed <= fastest && fastest != 0.0 ==> p == Some(100.0 * speed / fastest) && p.value >= 0.0
  {
    if fastest == 0.0 then None
    else
      var q := 100.0 * speed / fastest;
      assert 0.0 <= speed <= fastest ==> 0.0 <= q <= 100.0 by {
        if 0.0 <= speed <= fastest {
          assert q * fastest == 100.0 * speed <= 100.0 * fastest;
        }
      }
      Some(if q < 100.0 then q else 100.0)
  }

  /** `Math.round`: the nearest integer, halves rounded up. */
  function RoundHalfUp(x: real): (n: int)
    ensures n as real - 0.5 <= x < n as real + 0.5
  {
    (x + 0.5).Floor
  }

  /** The rounded bar length for a percentage; `repeat` of `NaN` gives an empty bar. */
  function BarLen(maxBarLen: nat, percent: Option<real>): (b: nat)
    requires percent.Some? ==> 0.0 <= percent.value <= 100.0
    ensures b <= maxBarLen
    ensures percent.None? ==> b == 0
    ensures percent.Some? ==>
      b as real - 0.5 <= maxBarLen as real * percent.value / 100.0 < b as real + 0.5
  {
    match percent
    case None => 0
    case Some(p) =>
      var len := maxBarLen as real * p / 100.0;
      assert 0.0 <= len <= maxBarLen as real by {
        var m := maxBarLen as real;
        assert m * (100.0 - p) >= 0.0 && m * p >= 0.0;
        assert len * 100.0 == m * p;
      }
      RoundHalfUp(len)
  }

  /** One line of the table: a test's name, its percentage of the fastest and its bar. */
  datatype Row = Row(name: string, percent: Option<real>, bar: nat)

  function RowFor(name: string, speed: real, fastest: real, maxBarLen: nat): (row: Row)
    requires 0.0 <= speed <= fastest
    ensures row.name == name && row.bar <= maxBarLen
    ensures row.percent.None? <==> fastest == 0.0
    ensures row.percent.Some? ==> 0.0 <= row.percent.value <= 100.0
  {
    var p := Percent(speed, fastest);
    Row(name, p, BarLen(maxBarLen, p))
  }

  /** The rows of the first `j` tests. */
  function RowsUpTo(names: seq<string>, speeds: seq<real>, fastest: real, maxBarLen: nat, j: nat): (rows: seq<Row>)
    requires j <= |names| == |speeds| && forall k :: 0 <= k < |speeds| ==> 0.0 <= speeds[k] <= fastest
    ensures |rows| == j
  {
    if j == 0 then [] else RowsUpTo(names, speeds, fastest, maxBarLen, j - 1) + [RowFor(names[j - 1], speeds[j - 1], fastest, maxBarLen)]
  }

  lemma {:induction false} RowsUpToAt(names: seq<string>, speeds: seq<real>, fastest: real, maxBarLen: nat, j: nat, k: nat)
    requires j <= |names| == |speeds| && forall k :: 0 <= k < |speeds| ==> 0.0 <= speeds[k] <= fastest
    requires k < j
    ensures RowsUpTo(names, speeds, fastest, maxBarLen, j)[k] == RowFor(names[k], speeds[k], fastest, maxBarLen)
  {
    if k < j - 1 {
      RowsUpToAt(names, speeds, fastest, maxBarLen, j - 1, k);
    }
  }

  /** The table's rows, one per test, in registration order. */
  function Rows(names: seq<string>, speeds: seq<real>): (rows: seq<Row>)
    requires |names| == |speeds| && forall j :: 0 <= j < |speeds| ==> speeds[j] >= 0.0
    ensures |rows| == |names|
  {
    RowsUpTo(names, speeds, Fastest(speeds), MaxBarLen(names), |names|)
  }

  /** What a report puts on the console. */
  datatype Output =
    | Silent
    | WarmingUp(numTests: nat)
    | Table(cursorUp: Option<nat>, titleLen: nat, average: bool, fastest: real, rows: seq<Row>)

  /** What `report(runs)` prints: the warm-up line only for report 0 on a terminal, nothing for
      the first 25 reports without one, and otherwise a table in the given display mode. */
  function ReportOutput(tty: bool, runs: nat, show: bool, names: seq<string>, speeds: seq<real>): (out: Output)
    requires |names| == |speeds| && forall j :: 0 <= j < |speeds| ==> speeds[j] >= 0.0
    ensures out.WarmingUp? <==> tty && runs == 0
    ensures out.Silent? <==> !tty && runs < QuietReports
    ensures out.Table? ==> out.average == show && (out.cursorUp.Some? <==> tty)
  {
    match Decide(tty, runs, |names|)
    case WarmUp => WarmingUp(|names|)
    case Quiet => Silent
    case Render(up, _) => Table(up, TitleLen(names), show, Fastest(speeds), Rows(names, speeds))
  }

  /** A rendered table is well-formed: the title column lies in [4, 30], `fastest` is at least
      every displayed speed, each row keeps its test's name, each percentage lies in [0, 100] and
      is undefined only when every speed is 0, and each bar fits the column. */
  lemma TableBounds(tty: bool, runs: nat, show: bool, names: seq<string>, speeds: seq<real>)
    requires |names| == |speeds| && forall j :: 0 <= j < |speeds| ==> speeds[j] >= 0.0
    requires ReportOutput(tty, runs, show, names, speeds).Table?
    ensures var out := ReportOutput(tty, runs, show, names, speeds);
      && MinTitleLen <= out.titleLen <= MaxTitleLen
      && |out.rows| == |names|
      && (forall j :: 0 <= j < |speeds| ==> 0.0 <= speeds[j] <= out.fastest)
      && (forall j :: 0 <= j < |names| ==> out.rows[j].name == names[j])
      && (forall j :: 0 <= j < |names| ==>
            (out.rows[j].percent.None? <==> out.fastest == 0.0)
            && (out.rows[j].percent.Some? ==> 0.0 <= out.rows[j].percent.value <= 100.0)
            && out.rows[j].bar <= TableWidth - out.titleLen - 17)
  {
    var out := ReportOutput(tty, runs, show, names, speeds);
    var fastest := Fastest(speeds);
    forall j | 0 <= j < |names|
      ensures out.rows[j] == RowFor(names[j], speeds[j], fastest, MaxBarLen(names))
    {
      RowsUpToAt(names, speeds, fastest, MaxBarLen(names), |names|, j);
    }
  }

  /** The speed a report shows for a test: its average in average mode, else its latest. */
  function DisplayedSpeed<T>(show: bool, s: Stats<T>): (v: real)
    ensures Sane(s) ==> v >= 0.0
  {
    if show then s.averageSpeed else s.speed
  }

  function NamesOf<T>(ts: seq<Test<T>>): (names: seq<string>)
    ensures |names| == |ts| && forall j :: 0 <= j < |ts| ==> names[j] == ts[j].name
  {
    seq(|ts|, j requires 0 <= j < |ts| => ts[j].name)
  }

  function SpeedsOf<T>(ts: seq<Test<T>>, show: bool): (speeds: seq<real>)
    reads ts
    ensures |speeds| == |ts| && forall j :: 0 <= j < |ts| ==> speeds[j] == DisplayedSpeed(show, ts[j].State())
    ensures (forall j :: 0 <= j < |ts| ==> Sane(ts[j].State())) ==> forall j :: 0 <= j < |ts| ==> speeds[j] >= 0.0
  {
    if ts == [] then [] else [DisplayedSpeed(show, ts[0].State())] + SpeedsOf(ts[1..], show)
  }

  /** The `for` loop of `report` that prints one row per test. */
  method TableRows<T>(tests: seq<Test<T>>, show: bool, fastest: real, maxBarLen: nat) returns (rows: seq<Row>)
    requires forall j :: 0 <= j < |tests| ==> Sane(tests[j].State())
    requires fastest == Fastest(SpeedsOf(tests, show)) && maxBarLen == MaxBarLen(NamesOf(tests))
    ensures rows == Rows(NamesOf(tests), SpeedsOf(tests, show))
  {
    ghost var names := NamesOf(tests);
    ghost var speeds := SpeedsOf(tests, show);
    assert bounded: forall k :: 0 <= k < |tests| ==> 0.0 <= speeds[k] <= fastest;
    rows := [];
    for j := 0 to |tests|
      invariant rows == RowsUpTo(names, speeds, fastest, maxBarLen, j)
    {
      var test := tests[j];
      var speed := if show then test.averageSpeed else test.speed;
      assert speed == speeds[j] && 0.0 <= speed <= fastest;
      var percent := Percent(speed, fastest);
      var row := Row(test.name, percent, BarLen(maxBarLen, percent));
      assert row == RowFor(names[j], speeds[j], fastest, maxBarLen);
      rows := rows + [row];
    }
  }

  // ---------------------------------------------------------------------------------------------
  // The runner object

  class NodeTestRunner<T> {
    const runner: TestRunner<T>
    /** Whether standard output is a terminal. */
    const tty: bool

    constructor (options: Options, tty: bool)
      ensures fresh(runner) && this.tty == tty
      ensures runner.init == options.init && runner.runs == options.runs.GetOr(Infinity)
      ensures runner.showAverage == options.showAverage.GetOr(false)
      ensures !runner.running && runner.tests == [] && runner.events == []
    {
      runner := new TestRunner(options);
      this.tty := tty;
    }

    /** The keypress listener. */
    method OnKeypress(key: Key)
      modifies runner`running, runner`showAverage
      ensures runner.CurrentFlags() == Press(old(runner.CurrentFlags()), key)
    {
      if key.name == "q" || (key.ctrl && key.name == "c") {
        runner.Stop();
      } else if key.name == "m" {
        runner.showAverage := !runner.showAverage;
      }
    }

    /** What `report(runs)` prints, from the tests' current speeds. */
    method Layout(runs: nat) returns (out: Output)
      requires runner.AllSane()
      ensures out == ReportOutput(tty, runs, runner.showAverage, NamesOf(runner.tests), SpeedsOf(runner.tests, runner.showAverage))
    {
      var tests := runner.tests;
      var numTests := |tests|;
      ghost var names := NamesOf(tests);
      ghost var speeds := SpeedsOf(tests, runner.showAverage);
      assert forall j :: 0 <= j < |speeds| ==> speeds[j] >= 0.0 by {
        assert forall j :: 0 <= j < |tests| ==> Sane(tests[j].State());
      }
      ghost var decision := Decide(tty, runs, numTests);
      if tty && runs == 0 {
        out := WarmingUp(numTests);
        assert decision == WarmUp;
        return;
      }
      var cursorUp: Option<nat> := None;
      if tty {
        cursorUp := Some(if runs == 1 then 2 else numTests + 6);
      } else if runs < QuietReports {
        out := Silent;
        assert decision == Quiet;
        return;
      }
      assert decision == Render(cursorUp, !tty);
      var titleLen := TitleLen(NamesOf(tests));
      var fastest := Fastest(SpeedsOf(tests, runner.showAverage));
      var maxBarLen := MaxBarLen(NamesOf(tests));
      var rows := TableRows(tests, runner.showAverage, fastest, maxBarLen);
      out := Table(cursorUp, titleLen, runner.showAverage, fastest, rows);
      assert out == Table(cursorUp, TitleLen(names), runner.showAverage, Fastest(speeds), Rows(names, speeds));
    }

    /** `report(runs)`: prints as `Layout` says; without a terminal, a rendered report then stops
        the run. */
    method Report(runs: nat) returns (out: Output)
      requires runner.AllSane()
      modifies runner`running
      ensures out == old(ReportOutput(tty, runs, runner.showAverage, NamesOf(runner.tests), SpeedsOf(runner.tests, runner.showAverage)))
      ensures runner.running == (old(runner.running) && !ReportStops(tty, |runner.tests|)(runs))
    {
      out := Layout(runs);
      if !tty && runs >= QuietReports {
        runner.Stop();
      }
    }

    /** `run`: on a terminal, the runner's loop with the keypress listener active; otherwise
        average mode is forced and, with no listener, the session makes `QuietRounds(runs)`
        rounds. */
    method Run(keys: Point -> seq<Key>, clocks: (nat, nat) -> nat -> real, tick: real)
      returns (ghost rounds: nat)
      requires runner.Valid()
      requires AllTick(clocks, tick)
      requires tty ==> Ends(runner.runs, Flags(true, runner.showAverage), KeyEnv(keys), ReportStops(true, |runner.tests|), |runner.tests|)
      modifies runner`running, runner`showAverage, runner`events, runner.tests
      ensures runner.tests == old(runner.tests) && runner.Valid()
      ensures tty ==> RoundCount(runner.runs, Flags(true, old(runner.showAverage)), KeyEnv(keys), ReportStops(true, |runner.tests|), |runner.tests|, rounds)
      ensures tty ==> runner.CurrentFlags() == FlagsBefore(Flags(true, old(runner.showAverage)), KeyEnv(keys), ReportStops(true, |runner.tests|), |runner.tests|, rounds)
      ensures !tty ==> rounds == QuietRounds(runner.runs) && runner.showAverage
      ensures runner.events == Trace(runner.init.Some?, Slice(|runner.tests|),
        Flags(true, if tty then old(runner.showAverage) else true),
        if tty then KeyEnv(keys) else NoKeys(), ReportStops(tty, |runner.tests|), |runner.tests|, rounds)
      ensures forall j :: 0 <= j < |runner.tests| ==>
        runner.tests[j].durations ==
          old(runner.tests[j].durations) + Slices(Slice(|runner.tests|), rounds * Occurrences(runner.tests, runner.tests[j], |runner.tests|))
    {
      var n := |runner.tests|;
      if tty {
        rounds := runner.Run(KeyEnv(keys), ReportStops(true, n), clocks, tick);
      } else {
        runner.showAverage := true;
        QuietSessionRounds(runner.runs, true, n);
        rounds := runner.Run(NoKeys(), ReportStops(false, n), clocks, tick);
        RoundCountBounded(runner.runs, Flags(true, true), NoKeys(), ReportStops(false, n), n, rounds, QuietRounds(runner.runs));
        QuietSessionFlags(Flags(true, true), n, rounds);
      }
    }
  }
}
