/** The `ConsoleLogger` of src/Logger.ts: log lines go to standard error, and a
    one-line spinner, redrawn by an interval timer, goes to standard output. The
    timer itself is not run: its callback is the explicit `Tick`, and the handle
    `setInterval` returns is a parameter of `StartSpinner`. */
module ConsoleLog {
  import opened Effects
  import opened JsText

  /** `ConsoleLogger.spinnerChars`: fourteen braille frames. */
  const SpinnerChars: string := "\U{2804}\U{2806}\U{2807}\U{280B}\U{2819}\U{2838}\U{2830}\U{2820}\U{2830}\U{2838}\U{2819}\U{280B}\U{2807}\U{2806}"

  /** The check mark and space that open the line of a finished spinner. */
  const CheckMark: string := "\U{2714}\U{FE0E} "

  const DefaultSpinnerDelay: int := 250

  /** `os.EOL` on a POSIX system. */
  const EOL: string := "\n"

  /** What the logger does to standard output: `readline.clearLine(stdout, 0)`,
      `readline.cursorTo(stdout, 0)` and `stdout.write(text)`. */
  datatype TermOp = ClearLine | CursorToStart | Write(text: string)

  /** A timer function: the global ones, or the `setInterval` a container supplies. */
  datatype TimerFn = GlobalSetInterval | GlobalClearInterval | Supplied(name: string)

  /** A call of a timer function: scheduling the spinner, or cancelling a handle. */
  datatype TimerCall = Schedule(fn: TimerFn, delay: int) | Cancel(fn: TimerFn, handle: nat)

  /** The parts of the constructor's `container` the model keeps. */
  datatype Container = Container(setInterval: Option<string>, spinnerDelay: Option<int>)

  /** What the constructor fixes: the two timer functions and the delay. */
  datatype Config = Config(setFn: TimerFn, clearFn: TimerFn, delay: int)

  /** Everything the logger changes: the two output streams, the timer calls, the
      spinner handle (`None` is `null`), the title (`None` before the first start,
      where JavaScript has `undefined`) and the frame index of the live timer. */
  datatype State = State(
    stdout: seq<TermOp>, stderr: seq<string>, timers: seq<TimerCall>,
    handle: Option<nat>, title: Option<string>, index: nat)

  /** The constructor: each part of the container wins over its default, and the
      container's `setInterval` also becomes `clearInterval`. */
  function ConfigOf(container: Container): (c: Config)
    ensures container.setInterval.Some? ==> c.setFn == c.clearFn == Supplied(container.setInterval.value)
    ensures container.setInterval.None? ==> c.setFn == GlobalSetInterval && c.clearFn == GlobalClearInterval
    ensures c.delay == if container.spinnerDelay.Some? then container.spinnerDelay.value else DefaultSpinnerDelay
  {
    match container.setInterval
    case Some(f) => Config(Supplied(f), Supplied(f), container.spinnerDelay.GetOr(DefaultSpinnerDelay))
    case None => Config(GlobalSetInterval, GlobalClearInterval, container.spinnerDelay.GetOr(DefaultSpinnerDelay))
  }

  const Initial: State := State([], [], [], None, None, 0)

  /** The title as string concatenation shows it. */
  function Shown(title: Option<string>): string {
    match title
    case Some(t) => t
    case None => "undefined"
  }

  /** The frame index stays within `spinnerChars`. */
  predicate Valid(s: State) {
    s.index < |SpinnerChars|
  }

  /** One redraw of the spinner. */
  function Frame(index: nat, title: Option<string>): seq<TermOp>
    requires index < |SpinnerChars|
  {
    [ClearLine, CursorToStart, Write([SpinnerChars[index]] + " " + Shown(title))]
  }

  /** The line `stopSpinner` writes for a finished spinner. */
  function DoneLine(title: Option<string>): string {
    CheckMark + Shown(title) + EOL
  }

  /** `stopSpinnerNoMessage`: cancel and erase a live spinner, and say whether there was one. */
  function StopNoMessage(c: Config, s: State): (r: (State, bool))
    ensures r.1 <==> s.handle.Some?
    ensures r.0.handle.None?
    ensures r.0.stderr == s.stderr && r.0.title == s.title && r.0.index == s.index
  {
    match s.handle
    case Some(h) =>
      (s.(timers := s.timers + [Cancel(c.clearFn, h)], handle := None, stdout := s.stdout + [ClearLine, CursorToStart]), true)
    case None => (s, false)
  }

  /** `stopSpinner`: as `stopSpinnerNoMessage`, then the done line if a spinner was live. */
  function Stop(c: Config, s: State): State {
    var (t, wasLive) := StopNoMessage(c, s);
    if wasLive then t.(stdout := t.stdout + [Write(DoneLine(t.title))]) else t
  }

  /** The interval callback: redraw, then step the index modulo the number of frames. */
  function Tick(s: State): (t: State)
    requires Valid(s)
    ensures Valid(t)
  {
    s.(stdout := s.stdout + Frame(s.index, s.title), index := (s.index + 1) % |SpinnerChars|)
  }

  /** `startSpinner(line)` with the handle the timer hands back. */
  function Start(c: Config, s: State, title: Option<string>, handle: nat): (t: State)
    ensures Valid(t)
  {
    var stopped := if s.handle.Some? then Stop(c, s) else s;
    var started := stopped.(index := 0, title := title, handle := Some(handle),
                            timers := stopped.timers + [Schedule(c.setFn, c.delay)]);
    Tick(started)
  }

  /** `info`, `warning` and `error`: stop the spinner, then write one line to stderr. */
  function Say(c: Config, s: State, line: string): State {
    var t := Stop(c, s);
    t.(stderr := t.stderr + [line + EOL])
  }

  function InfoLine(args: seq<string>): string {
    Join(args, " ")
  }

  /** `chalk.yellow("warning:", text)` joins its two arguments with a space. */
  function WarningLine(args: seq<string>): string {
    "warning: " + Join(args, " ")
  }

  function ErrorLine(args: seq<string>): string {
    "error: " + Join(args, " ")
  }

  /** `stopSpinnerNoMessage` erases and cancels exactly when a spinner is live. */
  lemma StopNoMessageEffects(c: Config, s: State)
    ensures var (t, wasLive) := StopNoMessage(c, s);
      && t.stdout == s.stdout + (if wasLive then [ClearLine, CursorToStart] else [])
      && t.timers == s.timers + (if wasLive then [Cancel(c.clearFn, s.handle.value)] else [])
  {
  }

  /** `stopSpinner` writes the done line, with the title of the spinner, only when
      a spinner was live; nothing else reaches the output. */
  lemma StopOutput(c: Config, s: State)
    ensures Stop(c, s).stdout
         == s.stdout + (if s.handle.Some? then [ClearLine, CursorToStart, Write(DoneLine(s.title))] else [])
    ensures Stop(c, s).handle.None? && Stop(c, s).stderr == s.stderr
    ensures Stop(c, s).title == s.title && Stop(c, s).index == s.index
  {
  }

  /** A second `stopSpinner` right after the first does nothing. */
  lemma StopIdempotent(c: Config, s: State)
    ensures Stop(c, Stop(c, s)) == Stop(c, s)
  {
  }

  /** Starting a spinner finishes a live one, with its old title, before taking the
      new title; then one frame is drawn and the handle is held. */
  lemma StartEffects(c: Config, s: State, line: string, handle: nat)
    ensures var t := Start(c, s, Some(line), handle);
      && t.stdout == Stop(c, s).stdout + Frame(0, Some(line))
      && t.handle == Some(handle) && t.title == Some(line) && t.index == 1
      && t.timers == Stop(c, s).timers + [Schedule(c.setFn, c.delay)]
      && t.stderr == s.stderr
  {
    StopOutput(c, s);
  }

  /** `n` firings of the interval timer. */
  function Ticks(s: State, n: nat): (t: State)
    requires Valid(s)
    ensures Valid(t)
    decreases n
  {
    if n == 0 then s else Ticks(Tick(s), n - 1)
  }

  /** The frames `n` firings draw from index `i`. */
  function Frames(i: nat, n: nat, title: Option<string>): seq<TermOp>
    requires i < |SpinnerChars|
    decreases n
  {
    if n == 0 then [] else Frame(i, title) + Frames((i + 1) % |SpinnerChars|, n - 1, title)
  }

  lemma NextIndex(i: nat)
    requires i < |SpinnerChars|
    ensures (i + 1) % |SpinnerChars| == if i + 1 < |SpinnerChars| then i + 1 else 0
  {
  }

  lemma PeriodicIndex(k: nat)
    ensures (k + |SpinnerChars|) % |SpinnerChars| == k % |SpinnerChars|
  {
  }

  /** The frames cycle: after `n` firings the index has moved `n` places modulo the
      number of frames, and the frames drawn are those from the old index on. */
  lemma {:induction false} TicksCycle(s: State, n: nat)
    requires Valid(s)
    ensures Ticks(s, n).index == (s.index + n) % |SpinnerChars|
    ensures Ticks(s, n).stdout == s.stdout + Frames(s.index, n, s.title)
    ensures Ticks(s, n).title == s.title && Ticks(s, n).handle == s.handle
    decreases n
  {
    if n > 0 {
      var t := Tick(s);
      TicksCycle(t, n - 1);
      NextIndex(s.index);
      if s.index + 1 < |SpinnerChars| {
        assert t.index + (n - 1) == s.index + n;
      } else {
        PeriodicIndex(n - 1);
        assert t.index == 0 && (n - 1) + |SpinnerChars| == s.index + n;
      }
      var rest := Frames(t.index, n - 1, s.title);
      assert Frames(s.index, n, s.title) == Frame(s.index, s.title) + rest;
      assert (s.stdout + Frame(s.index, s.title)) + rest == s.stdout + (Frame(s.index, s.title) + rest);
    }
  }

  /** Each log call writes exactly one line to stderr, after stopping the spinner. */
  lemma SayEffects(c: Config, s: State, line: string)
    ensures Say(c, s, line).stderr == s.stderr + [line + EOL]
    ensures Say(c, s, line).stdout == Stop(c, s).stdout && Say(c, s, line).handle.None?
  {
  }

  /** The logger object; its fields are the parts of `State`. */
  class ConsoleLogger {
    const config: Config
    var stdout: seq<TermOp>
    var stderr: seq<string>
    var timers: seq<TimerCall>
    var spinnerHandle: Option<nat>
    var spinnerTitle: Option<string>
    var index: nat

    function Current(): State
      reads this
    {
      State(stdout, stderr, timers, spinnerHandle, spinnerTitle, index)
    }

    constructor(container: Container)
      ensures config == ConfigOf(container) && Current() == Initial
    {
      match container.setInterval {
        case Some(f) =>
          config := Config(Supplied(f), Supplied(f), container.spinnerDelay.GetOr(DefaultSpinnerDelay));
        case None =>
          config := Config(GlobalSetInterval, GlobalClearInterval, container.spinnerDelay.GetOr(DefaultSpinnerDelay));
      }
      stdout, stderr, timers := [], [], [];
      spinnerHandle, spinnerTitle, index := None, None, 0;
    }

    method StopSpinnerNoMessage() returns (wasLive: bool)
      modifies this
      ensures (Current(), wasLive) == StopNoMessage(config, old(Current()))
    {
      if spinnerHandle.Some? {
        timers := timers + [Cancel(config.clearFn, spinnerHandle.value)];
        spinnerHandle := None;
        stdout := stdout + [ClearLine, CursorToStart];
        wasLive := true;
      } else {
        wasLive := false;
      }
    }

    method StopSpinner()
      modifies this
      ensures Current() == Stop(config, old(Current()))
    {
      var wasLive := StopSpinnerNoMessage();
      if wasLive {
        stdout := stdout + [Write(CheckMark + Shown(spinnerTitle) + EOL)];
      }
    }

    /** The interval callback, while the spinner is live. */
    method SpinnerTick()
      requires Valid(Current()) && spinnerHandle.Some?
      modifies this
      ensures Current() == Tick(old(Current()))
    {
      stdout := stdout + [ClearLine, CursorToStart, Write([SpinnerChars[index]] + " " + Shown(spinnerTitle))];
      index := (index + 1) % |SpinnerChars|;
    }

    method StartWith(title: Option<string>, handle: nat)
      modifies this
      ensures Current() == Start(config, old(Current()), title, handle)
    {
      if spinnerHandle.Some? {
        StopSpinner();
      }
      index := 0;
      spinnerTitle := title;
      timers := timers + [Schedule(config.setFn, config.delay)];
      spinnerHandle := Some(handle);
      SpinnerTick();
    }

    method StartSpinner(line: string, handle: nat)
      modifies this
      ensures Current() == Start(config, old(Current()), Some(line), handle)
    {
      StartWith(Some(line), handle);
    }

    /** Starts again with the stored title. */
    method RestartSpinner(handle: nat)
      modifies this
      ensures Current() == Start(config, old(Current()), old(spinnerTitle), handle)
    {
      StartWith(spinnerTitle, handle);
    }

    method Info(args: seq<string>)
      modifies this
      ensures Current() == Say(config, old(Current()), InfoLine(args))
    {
      StopSpinner();
      stderr := stderr + [Join(args, " ") + EOL];
    }

    method Warning(args: seq<string>)
      modifies this
      ensures Current() == Say(config, old(Current()), WarningLine(args))
    {
      StopSpinner();
      stderr := stderr + ["warning: " + Join(args, " ") + EOL];
    }

    method Error(args: seq<string>)
      modifies this
      ensures Current() == Say(config, old(Current()), ErrorLine(args))
    {
      StopSpinner();
      stderr := stderr + ["error: " + Join(args, " ") + EOL];
    }
  }
}
