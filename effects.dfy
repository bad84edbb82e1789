/** Values that stand in for what the tools do to the outside world: calls on the
    logger, browser opens, git commands, file removals, and what they throw. */
module Effects {

  datatype Option<T> = None | Some(value: T) {
    function GetOr(default: T): T {
      if Some? then value else default
    }
  }

  /** What a `throw`, or a rejected promise, carries. */
  datatype Failure =
    | Thrown(message: string)           // `throw new Error(message)`
    | NotInstalled                      // the rejection of `commandExists` for a missing command
    | ReferenceError(identifier: string) // reading a variable that is not in scope
    | TypeError(message: string)
    | ScriptError(message: string)      // an error of the customization script, propagated as it is

  datatype Result<T> = Ok(value: T) | Err(failure: Failure)

  /** One call on the `Logger` interface (src/Logger.ts:5-13). */
  datatype LogCall =
    | Info(text: string)
    | Warning(text: string)
    | Error(text: string)
    | StartSpinner(title: string)
    | StopSpinner
    | StopSpinnerNoMessage
    | RestartSpinner

  /** An effect outside the logger. `RemoveIn(dir, entry)` and `ReadIn(dir, entry)` act on
      `path.join(dir, entry)`. */
  datatype Effect =
    | Open(url: string)
    | Exec(command: string, cwd: Option<string>)
    | RemovePath(path: string)
    | RemoveIn(dir: string, entry: string)
    | ReadIn(dir: string, entry: string)
    | ReadPath(path: string)
    | WritePath(path: string, contents: string)
    | MovePath(from: string, to: string)
    | EnsureFilePath(path: string)
    | MakeDirs(path: string)
    | Inspect(fields: seq<(string, string)>)   // `console.log` of a plain object
    | ConsoleLine(text: string)                // `console.log` of a string
    | Prompt(names: seq<string>)               // one `prompts` dialogue, by question name

  datatype Event = Log(call: LogCall) | Do(effect: Effect)

  datatype Completion = Returned | Threw(failure: Failure)

  /** The ordered trace of one operation and how it ended. */
  datatype Outcome = Outcome(trace: seq<Event>, completion: Completion)

  /** The process exit status `run` resolves to, or the rejection it ends with. */
  datatype Exit = ExitCode(code: int) | Rejected(failure: Failure)

  function Logged(call: LogCall): Outcome {
    Outcome([Log(call)], Returned)
  }

  function Failed(f: Failure): Outcome {
    Outcome([], Threw(f))
  }

  /** Run `first`, then `second` unless `first` threw. */
  function Then(first: Outcome, second: Outcome): Outcome {
    if first.completion.Threw? then first else Outcome(first.trace + second.trace, second.completion)
  }

  /** The URLs a trace opens, in order. */
  function OpenedUrls(trace: seq<Event>): (urls: seq<string>)
    ensures |urls| <= |trace|
  {
    if trace == [] then []
    else (if trace[0].Do? && trace[0].effect.Open? then [trace[0].effect.url] else []) + OpenedUrls(trace[1..])
  }

  /** Announcing and opening a URL opens just that URL. */
  lemma OpensAnnounced(call: LogCall, url: string)
    ensures OpenedUrls([Log(call), Do(Open(url))]) == [url]
  {
    var t := [Log(call), Do(Open(url))];
    assert t[1..] == [Do(Open(url))];
    assert t[1..][1..] == [];
  }
}
