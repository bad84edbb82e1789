/** The argument record the tools receive from `minimist`, and the decisions every
    `run` makes on it before it picks a command: `--version` first, the command
    word lower-cased or "help", and per-command usage only without a subcommand. */
module CliArgs {
  import opened Effects
  import opened JsText

  /** A positional argument as `minimist` leaves it: a word that reads as a number
      becomes a number. */
  datatype Positional = Word(text: string) | Number(value: int)

  /** The parsed arguments, for every option some tool declares: `args._`, the
      booleans, and the string options with their defaults already applied. */
  datatype Args = Args(
    positionals: seq<Positional>,
    help: bool, version: bool, debug: bool, overwrite: bool, upstream: bool,
    remote: string, toRemote: string)

  /** `args._[i]`, `undefined` past the end. */
  function At(args: Args, i: nat): Option<Positional> {
    if i < |args.positionals| then Some(args.positionals[i]) else None
  }

  /** JavaScript truthiness of a positional: `undefined`, `""` and `0` are falsy. */
  predicate Truthy(p: Option<Positional>) {
    match p
    case None => false
    case Some(Word(t)) => t != ""
    case Some(Number(n)) => n != 0
  }

  /** `command = command ? command.toLowerCase() : "help"`. A number has no
      `toLowerCase`, so calling it throws. */
  function CommandOf(args: Args): (r: Result<string>)
    ensures !Truthy(At(args, 0)) ==> r == Ok("help")
    ensures Truthy(At(args, 0)) && At(args, 0).value.Word? ==> r == Ok(Lower(At(args, 0).value.text))
    ensures r.Err? <==> Truthy(At(args, 0)) && At(args, 0).value.Number?
  {
    match At(args, 0)
    case Some(Word(t)) => if t != "" then Ok(Lower(t)) else Ok("help")
    case Some(Number(n)) => if n != 0 then Err(TypeError("command.toLowerCase is not a function")) else Ok("help")
    case None => Ok("help")
  }

  /** `args.help && !subCommand`: the usage of a command is shown only when no
      second positional follows it. */
  predicate WantsUsage(args: Args) {
    args.help && !Truthy(At(args, 1))
  }

  /** The line `--version` logs. */
  function VersionLine(fullVersion: string): (line: string)
    ensures StartsWith(line, "v") && line[1..] == fullVersion
  {
    "v" + fullVersion
  }
}
