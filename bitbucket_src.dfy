/** `BitbucketTool.run` of src/BitbucketTool.js: a dispatch over the parsed
    arguments that only logs and always resolves to 0. */
module BitbucketSrc {
  import opened Effects
  import opened JsText
  import opened CliArgs

  function PullRequestUsage(toolName: string): string {
    "Usage: " + toolName + " pull-request <options>\n\nDescription:\n\nCreate, modify, list or remove pull requests.\n"
  }

  /** The general help, whose global options start with `--help`. */
  function GeneralHelp(toolName: string): string {
    "\nBitBucket Tool\n\nUsage: " + toolName + " <command> ...\n\nProvides command line BitBucket integration.\n\n"
    + "Commands:\n  pull-request     Create, modify, list or remove pull requests\n\nGlobal Options:\n"
    + "--help" + "      Displays this help\n--version   Displays tool version\n--debug     Show debug output\n"
  }

  /** What `run` logs and how it ends. */
  function Run(toolName: string, fullVersion: string, args: Args): Outcome {
    if args.version then Logged(Info(VersionLine(fullVersion)))
    else match CommandOf(args)
      case Err(f) => Failed(f)
      case Ok(command) =>
        if command == "pull-request" || command == "prq" then
          if WantsUsage(args) then Logged(Info(PullRequestUsage(toolName))) else Outcome([], Returned)
        else Logged(Info(GeneralHelp(toolName)))
  }

  /** What the promise `run` returns settles to: the `return 0` after the version;
      the rejection when the command word cannot be lower-cased; otherwise one of
      the `return 0` after the usage, after the general help, and after the
      `switch` that `break` reaches. */
  function RunExit(toolName: string, fullVersion: string, args: Args): Exit {
    if args.version then ExitCode(0)
    else match CommandOf(args)
      case Err(f) => Rejected(f)
      case Ok(_) => ExitCode(0)
  }

  /** `--version` logs the version line and nothing else, whatever the command. */
  lemma VersionFirst(toolName: string, fullVersion: string, args: Args)
    requires args.version
    ensures Run(toolName, fullVersion, args) == Outcome([Log(Info("v" + fullVersion))], Returned)
    ensures RunExit(toolName, fullVersion, args) == ExitCode(0)
  {
  }

  /** `run` resolves exactly when its body does not throw, and then to 0; it
      rejects with what the body threw. The only throw is a numeric command word,
      which has no `toLowerCase`. */
  lemma ExitIsZero(toolName: string, fullVersion: string, args: Args)
    ensures var e := RunExit(toolName, fullVersion, args); var o := Run(toolName, fullVersion, args);
      && (e.ExitCode? <==> o.completion.Returned?)
      && (e.ExitCode? ==> e.code == 0)
      && (e.Rejected? ==> e.failure == o.completion.failure && e.failure.TypeError?)
    ensures Run(toolName, fullVersion, args).completion.Returned? <==> args.version || CommandOf(args).Ok?
  {
  }

  /** `pull-request` (or `prq`) without `--help`, or with a subcommand, logs nothing. */
  lemma PullRequestSilent(toolName: string, fullVersion: string, args: Args)
    requires !args.version && CommandOf(args) in {Ok("pull-request"), Ok("prq")} && !WantsUsage(args)
    ensures Run(toolName, fullVersion, args) == Outcome([], Returned)
  {
  }

  /** `pull-request --help` with no subcommand logs the usage of `pull-request`. */
  lemma PullRequestUsageShown(toolName: string, fullVersion: string, args: Args)
    requires !args.version && CommandOf(args) in {Ok("pull-request"), Ok("prq")} && WantsUsage(args)
    ensures Run(toolName, fullVersion, args) == Logged(Info(PullRequestUsage(toolName)))
  {
  }

  /** Any other command, "help" and a missing one included, logs the general help,
      which mentions `--help`. */
  lemma OtherCommandsHelp(toolName: string, fullVersion: string, args: Args)
    requires !args.version && CommandOf(args).Ok? && CommandOf(args).value !in {"pull-request", "prq"}
    ensures Run(toolName, fullVersion, args) == Logged(Info(GeneralHelp(toolName)))
    ensures Contains(GeneralHelp(toolName), "--help")
  {
    ContainsInfix("\nBitBucket Tool\n\nUsage: " + toolName + " <command> ...\n\nProvides command line BitBucket integration.\n\n"
      + "Commands:\n  pull-request     Create, modify, list or remove pull requests\n\nGlobal Options:\n",
      "--help", "      Displays this help\n--version   Displays tool version\n--debug     Show debug output\n");
  }
}
