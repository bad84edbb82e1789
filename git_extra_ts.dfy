/** `GitExtraTool` of src/GitExtraTool.ts: remotes parsed by hosted-git-info,
    branch lookup, `browse`, `pullRequest`, `quickStart` and the `run` dispatch.
    The shell commands' outputs, the installed commands and the hosted-git-info
    parser are given by a `Machine`. */
module GitExtraTs {
  import opened Effects
  import opened JsText
  import opened CliArgs
  import opened Commands
  import opened HostedRemotes
  import opened QuickStart

  /** What the tool observes: the installed commands, the output of
      `git remote -vv` and of `git rev-parse --abbrev-ref HEAD`, hosted-git-info's
      `fromUrl` and `browse("")`, and the disk `quickStart` works on. */
  datatype Machine = Machine(
    installed: set<string>,
    remoteOutput: string,
    branchOutput: string,
    fromUrl: string -> Option<HostedInfo>,
    browseUrl: HostedInfo -> string,
    disk: Disk)

  const ListRemotes := "git remote -vv"
  const CurrentBranch := "git rev-parse --abbrev-ref HEAD"

  /** `getBranch`: the trimmed output, with a detached `HEAD` read as "master". */
  function Branch(output: string): string {
    var branch := Trim(output);
    if branch == "HEAD" then "master" else branch
  }

  /** The branch name git prints, whatever whitespace surrounds it; `HEAD` becomes
      "master". */
  lemma BranchOfPadded(before: string, name: string, after: string)
    requires AllJsSpace(before) && AllJsSpace(after)
    requires name == [] || (!IsJsSpace(name[0]) && !IsJsSpace(name[|name| - 1]))
    ensures Branch(before + name + after) == if name == "HEAD" then "master" else name
  {
    TrimPadded(before, name, after);
  }

  /** The branch is never "HEAD", and reading it again changes nothing. */
  lemma BranchSettled(output: string)
    ensures Branch(output) != "HEAD"
    ensures Branch(Branch(output)) == Branch(output)
  {
    TrimIdempotent(output);
    var m := "master";
    assert m[0] == 'm' && m[|m| - 1] == 'r';
    TrimPadded([], m, []);
    assert [] + m + [] == m;
  }

  /** `browse(remoteName)` once remotes and branch are known. A missing or
      unrecognised remote warns, naming the value looked up, which is always
      `undefined`. Otherwise the remote's `committish` is set to the branch and
      hosted-git-info's browse URL opened. */
  function BrowseOutcome(remotes: map<string, Option<HostedInfo>>, branch: string, browseUrl: HostedInfo -> string, remoteName: string): Outcome {
    match Lookup(remotes, remoteName)
    case None => Logged(Warning("No git remote 'undefined' was found"))
    case Some(remote) =>
      var url := browseUrl(remote.(committish := branch));
      Outcome([Log(Info("Opening '" + url + "'...")), Do(Open(url))], Returned)
  }

  /** `browse` opens a URL exactly when the name maps to a recognised remote, and
      then exactly one: the browse URL of that remote on the current branch. */
  lemma BrowseOpens(remotes: map<string, Option<HostedInfo>>, branch: string, browseUrl: HostedInfo -> string, remoteName: string)
    ensures var o := BrowseOutcome(remotes, branch, browseUrl, remoteName);
      && o.completion.Returned?
      && (Lookup(remotes, remoteName).None? ==> OpenedUrls(o.trace) == [] && o.trace == [Log(Warning("No git remote 'undefined' was found"))])
      && (Lookup(remotes, remoteName).Some? ==>
            OpenedUrls(o.trace) == [browseUrl(Lookup(remotes, remoteName).value.(committish := branch))])
  {
    if Lookup(remotes, remoteName).Some? {
      var url := browseUrl(Lookup(remotes, remoteName).value.(committish := branch));
      OpensAnnounced(Info("Opening '" + url + "'..."), url);
    }
  }

  /** The URL a pull request starts at. GitHub compares on the target; elsewhere
      a pull request is created from the source. */
  function PullRequestUrl(origin: HostedInfo, upstream: HostedInfo, branch: string): string {
    if origin.domain == "github.com" then
      "https://" + upstream.domain + "/" + upstream.user + "/" + upstream.project + "/compare/" + branch + "..." + origin.user + ":" + branch
    else
      "https://" + origin.domain + "/" + origin.user + "/" + origin.project + "/pull-request/new"
  }

  /** Only the source's domain picks the template: off GitHub the target plays no
      part, on GitHub the URL is the target's compare page for the branch. */
  lemma PullRequestUrlShape(origin: HostedInfo, upstream: HostedInfo, other: HostedInfo, branch: string)
    ensures origin.domain != "github.com" ==> PullRequestUrl(origin, upstream, branch) == PullRequestUrl(origin, other, branch)
    ensures origin.domain != "github.com" ==> EndsWith(PullRequestUrl(origin, upstream, branch), "/pull-request/new")
    ensures origin.domain == "github.com" ==>
      StartsWith(PullRequestUrl(origin, upstream, branch), "https://" + upstream.domain + "/" + upstream.user + "/" + upstream.project + "/compare/")
  {
    var u := PullRequestUrl(origin, upstream, branch);
    if origin.domain != "github.com" {
      var front := "https://" + origin.domain + "/" + origin.user + "/" + origin.project;
      assert u == front + "/pull-request/new";
    } else {
      var front := "https://" + upstream.domain + "/" + upstream.user + "/" + upstream.project + "/compare/";
      assert u == front + (branch + "..." + origin.user + ":" + branch);
    }
  }

  /** `pullRequest` once remotes and branch are known: the source is checked
      before the target, and a missing one throws. */
  function PullRequestOutcome(remotes: map<string, Option<HostedInfo>>, branch: string, remoteName: string, upstreamName: string): Outcome {
    match Lookup(remotes, remoteName)
    case None => Failed(Thrown("Remote '" + remoteName + "' was not found"))
    case Some(origin) =>
      match Lookup(remotes, upstreamName)
      case None => Failed(Thrown("Target remote '" + upstreamName + "' was not found"))
      case Some(upstream) =>
        var url := PullRequestUrl(origin, upstream, branch);
        Outcome([Log(Info("Opening '" + url + "'...")), Do(Open(url))], Returned)
  }

  /** The error order of `pullRequest`, and that it opens the URL only when both
      remotes are found. */
  lemma PullRequestErrors(remotes: map<string, Option<HostedInfo>>, branch: string, remoteName: string, upstreamName: string)
    ensures var o := PullRequestOutcome(remotes, branch, remoteName, upstreamName);
      && (Lookup(remotes, remoteName).None? ==> o == Failed(Thrown("Remote '" + remoteName + "' was not found")))
      && (Lookup(remotes, remoteName).Some? && Lookup(remotes, upstreamName).None? ==>
            o == Failed(Thrown("Target remote '" + upstreamName + "' was not found")))
      && (o.completion.Returned? <==> Lookup(remotes, remoteName).Some? && Lookup(remotes, upstreamName).Some?)
      && (o.completion.Returned? ==>
            OpenedUrls(o.trace) == [PullRequestUrl(Lookup(remotes, remoteName).value, Lookup(remotes, upstreamName).value, branch)])
  {
    if Lookup(remotes, remoteName).Some? && Lookup(remotes, upstreamName).Some? {
      var url := PullRequestUrl(Lookup(remotes, remoteName).value, Lookup(remotes, upstreamName).value, branch);
      OpensAnnounced(Info("Opening '" + url + "'..."), url);
    }
  }

  /** An operation that first runs `ensureCommands(cmds)`: the known set after it,
      and the operation's outcome unless a command was missing. */
  function Gated(known: set<string>, installed: set<string>, cmds: seq<string>, after: Outcome): (r: (set<string>, Outcome))
    ensures r.1.completion == Threw(NotInstalled) || r.1 == after
    ensures r.1 == after <== forall c <- cmds :: c in known || c in installed
  {
    var (k, c) := Ensured(known, installed, cmds);
    (k, if c.Threw? then Outcome([], c) else after)
  }

  /** What reading the remotes and the branch shows in the trace. */
  const Inquiries := [Do(Exec(ListRemotes, None)), Do(Exec(CurrentBranch, None))]

  function BrowseFlow(known: set<string>, m: Machine, remoteName: string): (set<string>, Outcome) {
    Gated(known, m.installed, ["git"],
      Then(Outcome(Inquiries, Returned),
           BrowseOutcome(ParseRemotes(m.fromUrl, m.remoteOutput), Branch(m.branchOutput), m.browseUrl, remoteName)))
  }

  function PullRequestFlow(known: set<string>, m: Machine, remoteName: string, upstreamName: string): (set<string>, Outcome) {
    Gated(known, m.installed, ["git"],
      Then(Outcome(Inquiries, Returned),
           PullRequestOutcome(ParseRemotes(m.fromUrl, m.remoteOutput), Branch(m.branchOutput), remoteName, upstreamName)))
  }

  function QuickStartFlow(known: set<string>, m: Machine, debug: bool, opts: Options): (set<string>, Outcome) {
    Gated(known, m.installed, ["git", "node"], Flow(m.fromUrl, m.disk, debug, opts))
  }

  /** First lines of the usage texts; the rest of each text is left out. */
  function PullRequestUsage(toolName: string): string {
    "Usage: " + toolName + " pull-request [<options>]\n"
  }

  function BrowseUsage(toolName: string): string {
    "Usage: " + toolName + " browse [<options>]\n"
  }

  function QuickStartUsage(toolName: string): string {
    "Usage: " + toolName + " quick-start [<options>] <repo> [<directory>]\n"
  }

  /** The general help, reduced to its title and its `--help` option. */
  function GeneralHelp(toolName: string): string {
    "\nGit Extra Tool\n\nUsage: " + toolName + " <command> ...\n\nGlobal Options:\n  " + "--help" + "                  Displays this help\n"
  }

  lemma GeneralHelpMentionsHelp(toolName: string)
    ensures Contains(GeneralHelp(toolName), "--help")
  {
    ContainsInfix("\nGit Extra Tool\n\nUsage: " + toolName + " <command> ...\n\nGlobal Options:\n  ", "--help", "                  Displays this help\n");
  }

  /** A positional as a string option: `undefined` and the other falsy values read
      as `""`, which every use treats as missing. */
  function TextOf(p: Option<Positional>): (t: string)
    ensures t == "" <==> !Truthy(p)
  {
    match p
    case None => ""
    case Some(Word(t)) => t
    case Some(Number(n)) => if n == 0 then "" else Decimal(n)
  }

  /** The decimal spelling of an integer. */
  function Decimal(n: int): (s: string)
    ensures s != ""
    decreases if n < 0 then 1 - n else n
  {
    if n < 0 then "-" + Decimal(-n)
    else if n < 10 then ["0123456789"[n]]
    else Decimal(n / 10) + ["0123456789"[n % 10]]
  }

  /** The options `quickStart` receives: positionals 1 and 2 and `--overwrite`. */
  function QuickStartOptions(args: Args): Options {
    Options(TextOf(At(args, 1)), TextOf(At(args, 2)), args.overwrite)
  }

  /** What `run` decides to do with the parsed arguments. */
  datatype Action =
    | Show(text: string)
    | Reject(failure: Failure)
    | PullRequestFrom(remoteName: string, upstreamName: string)
    | BrowseRemote(remoteName: string)
    | StartProject(debug: bool, opts: Options)

  /** The `run` dispatch: `--version` first, then the `switch` on the lower-cased
      command word; a usage text only without a subcommand. `this.debug` is set
      from `--debug` before anything else, and `quickStart` reads it. */
  function Decide(toolName: string, fullVersion: string, args: Args): Action {
    if args.version then Show(VersionLine(fullVersion))
    else match CommandOf(args)
      case Err(f) => Reject(f)
      case Ok(command) => Choose(toolName, args, command)
  }

  function Choose(toolName: string, args: Args, command: string): Action {
    if command == "pull-request" || command == "prq" then
      if WantsUsage(args) then Show(PullRequestUsage(toolName)) else PullRequestFrom(args.remote, args.toRemote)
    else if command == "browse" || command == "brw" then
      if WantsUsage(args) then Show(BrowseUsage(toolName)) else BrowseRemote(args.remote)
    else if command == "qst" || command == "quick-start" then
      if WantsUsage(args) then Show(QuickStartUsage(toolName)) else StartProject(args.debug, QuickStartOptions(args))
    else Show(GeneralHelp(toolName))
  }

  /** The commands a decision asks `ensureCommands` for. */
  function Needs(a: Action): seq<string> {
    match a
    case PullRequestFrom(_, _) => ["git"]
    case BrowseRemote(_) => ["git"]
    case StartProject(_, _) => ["git", "node"]
    case _ => []
  }

  /** Carrying out a decision: the known commands after it and its outcome. */
  function Execute(known: set<string>, m: Machine, a: Action): (set<string>, Outcome) {
    match a
    case Show(text) => (known, Logged(Info(text)))
    case Reject(f) => (known, Failed(f))
    case PullRequestFrom(remoteName, upstreamName) => PullRequestFlow(known, m, remoteName, upstreamName)
    case BrowseRemote(remoteName) => BrowseFlow(known, m, remoteName)
    case StartProject(debug, opts) => QuickStartFlow(known, m, debug, opts)
  }

  /** `run`: the known commands after it and its outcome. */
  function RunOutcome(toolName: string, fullVersion: string, known: set<string>, m: Machine, args: Args): (set<string>, Outcome) {
    Execute(known, m, Decide(toolName, fullVersion, args))
  }

  /** `--version` logs the version and does nothing else. */
  lemma RunVersionFirst(toolName: string, fullVersion: string, args: Args)
    requires args.version
    ensures Decide(toolName, fullVersion, args) == Show(VersionLine(fullVersion))
  {
  }

  /** The switch reads the positionals after the command word only. */
  lemma ChooseIgnoresWord(toolName: string, args: Args, w: Positional, command: string)
    requires |args.positionals| > 0
    ensures Choose(toolName, args, command) == Choose(toolName, args.(positionals := [w] + args.positionals[1..]), command)
  {
    var args' := args.(positionals := [w] + args.positionals[1..]);
    assert At(args', 1) == At(args, 1) && At(args', 2) == At(args, 2);
  }

  /** Upper case and the short aliases select the same command: `run` depends on
      the command word only through its lower-cased form, and `prq`, `brw` and
      `qst` act as `pull-request`, `browse` and `quick-start`. */
  lemma RunSameCommand(toolName: string, fullVersion: string, args: Args, word: string, other: string)
    requires |args.positionals| > 0 && args.positionals[0] == Word(word)
    requires Lower(word) == Lower(other)
      || (Lower(word), Lower(other)) in {("prq", "pull-request"), ("brw", "browse"), ("qst", "quick-start")}
    ensures Decide(toolName, fullVersion, args)
         == Decide(toolName, fullVersion, args.(positionals := [Word(other)] + args.positionals[1..]))
  {
    var args' := args.(positionals := [Word(other)] + args.positionals[1..]);
    ChooseIgnoresWord(toolName, args, Word(other), Lower(word));
    if Lower(word) != Lower(other) {
      assert |word| > 0 && |other| > 0;
      assert CommandOf(args) == Ok(Lower(word)) && CommandOf(args') == Ok(Lower(other));
    } else if word == "" {
      assert other == "";
    } else {
      assert other != "";
    }
  }

  /** Any other word, and no word at all, shows the general help. */
  lemma RunOtherHelp(toolName: string, fullVersion: string, args: Args)
    requires !args.version && CommandOf(args).Ok?
    requires CommandOf(args).value !in {"pull-request", "prq", "browse", "brw", "qst", "quick-start"}
    ensures Decide(toolName, fullVersion, args) == Show(GeneralHelp(toolName))
    ensures Contains(GeneralHelp(toolName), "--help")
  {
    GeneralHelpMentionsHelp(toolName);
  }

  /** The commands and the options they receive; usage only without a
      subcommand. */
  lemma RunCommands(toolName: string, fullVersion: string, args: Args)
    requires !args.version && CommandOf(args).Ok?
    ensures var c := CommandOf(args).value; var a := Decide(toolName, fullVersion, args);
      && (c in {"pull-request", "prq"} ==>
            a == if WantsUsage(args) then Show(PullRequestUsage(toolName)) else PullRequestFrom(args.remote, args.toRemote))
      && (c in {"browse", "brw"} ==>
            a == if WantsUsage(args) then Show(BrowseUsage(toolName)) else BrowseRemote(args.remote))
      && (c in {"qst", "quick-start"} ==>
            a == if WantsUsage(args) then Show(QuickStartUsage(toolName))
                 else StartProject(args.debug, Options(TextOf(At(args, 1)), TextOf(At(args, 2)), args.overwrite)))
  {
  }

  /** What the promise `run` returns settles to once `a` is carried out with
      outcome `o`: the `return 0` after the version, each usage and the general
      help; the rejection when the command word cannot be lower-cased; and for a
      command, the rejection with what it threw or the `return 0` after the
      `switch` that its `break` reaches. */
  function ExitAfter(a: Action, o: Outcome): Exit {
    match a
    case Show(_) => ExitCode(0)
    case Reject(f) => Rejected(f)
    case _ => if o.completion.Threw? then Rejected(o.completion.failure) else ExitCode(0)
  }

  /** `run` resolves exactly when its body does not throw, and then to 0; it
      rejects with what the body threw. Showing a text or rejecting never queries
      a command, and no path forgets one. */
  lemma ExecuteExit(known: set<string>, m: Machine, a: Action)
    ensures var (k, o) := Execute(known, m, a); var e := ExitAfter(a, o);
      && (e.ExitCode? <==> o.completion.Returned?)
      && (e.ExitCode? ==> e.code == 0)
      && (e.Rejected? ==> e.failure == o.completion.failure)
      && known <= k && k == Ensured(known, m.installed, Needs(a)).0
      && (a.Show? || a.Reject? ==> k == known)
      && (a.Show? ==> o == Logged(Info(a.text)))
  {
    match a
    case PullRequestFrom(_, _) => var _ := Ensured(known, m.installed, ["git"]);
    case BrowseRemote(_) => var _ := Ensured(known, m.installed, ["git"]);
    case StartProject(_, _) => var _ := Ensured(known, m.installed, ["git", "node"]);
    case _ =>
  }

  /** The tool object: its `debug` flag and its `ensureCommands` cache. */
  class Tool {
    const toolName: string
    var debug: bool
    const commands: CommandCache

    constructor(toolName: string, debug: bool)
      ensures this.toolName == toolName && this.debug == debug
      ensures fresh(commands) && commands.known == {} && commands.queried == []
    {
      this.toolName := toolName;
      this.debug := debug;
      commands := new CommandCache();
    }

    /** `getRemotes`: the `while re.exec` loop over the listing. */
    method GetRemotes(m: Machine) returns (remotes: map<string, Option<HostedInfo>>)
      ensures remotes == ParseRemotes(m.fromUrl, m.remoteOutput)
    {
      remotes := CollectRemotes(m.fromUrl, m.remoteOutput);
    }

    method Browse(m: Machine, remoteName: string) returns (o: Outcome)
      modifies commands
      ensures (commands.known, o) == Execute(old(commands.known), m, BrowseRemote(remoteName))
      ensures commands.queried == old(commands.queried) + Unknown(old(commands.known), ["git"])
    {
      var c := commands.Ensure(["git"], m.installed);
      if c.Threw? {
        return Outcome([], c);
      }
      var remotes := GetRemotes(m);
      o := Then(Outcome(Inquiries, Returned), BrowseOutcome(remotes, Branch(m.branchOutput), m.browseUrl, remoteName));
    }

    method PullRequest(m: Machine, remoteName: string, upstreamName: string) returns (o: Outcome)
      modifies commands
      ensures (commands.known, o) == Execute(old(commands.known), m, PullRequestFrom(remoteName, upstreamName))
      ensures commands.queried == old(commands.queried) + Unknown(old(commands.known), ["git"])
    {
      var c := commands.Ensure(["git"], m.installed);
      if c.Threw? {
        return Outcome([], c);
      }
      var remotes := GetRemotes(m);
      o := Then(Outcome(Inquiries, Returned), PullRequestOutcome(remotes, Branch(m.branchOutput), remoteName, upstreamName));
    }

    method QuickStart(m: Machine, opts: Options) returns (o: Outcome)
      modifies commands
      ensures (commands.known, o) == Execute(old(commands.known), m, StartProject(debug, opts))
      ensures commands.queried == old(commands.queried) + Unknown(old(commands.known), ["git", "node"])
    {
      var c := commands.Ensure(["git", "node"], m.installed);
      if c.Threw? {
        return Outcome([], c);
      }
      o := Flow(m.fromUrl, m.disk, debug, opts);
    }

    /** Carry out a decision of the dispatch. */
    method Carry(m: Machine, a: Action) returns (o: Outcome)
      requires a.StartProject? ==> a.debug == debug
      modifies commands
      ensures (commands.known, o) == Execute(old(commands.known), m, a)
      ensures commands.queried == old(commands.queried) + Unknown(old(commands.known), Needs(a))
    {
      match a {
        case Show(text) => o := Logged(Info(text));
        case Reject(f) => o := Failed(f);
        case PullRequestFrom(remoteName, upstreamName) => o := PullRequest(m, remoteName, upstreamName);
        case BrowseRemote(remoteName) => o := Browse(m, remoteName);
        case StartProject(_, opts) => o := QuickStart(m, opts);
      }
    }

    /** `run`: sets `debug`, then carries out what the dispatch decides. */
    method Run(m: Machine, fullVersion: string, args: Args) returns (o: Outcome, exit: Exit)
      modifies this, commands
      ensures debug == args.debug
      ensures (commands.known, o) == RunOutcome(toolName, fullVersion, old(commands.known), m, args)
      ensures commands.queried == old(commands.queried) + Unknown(old(commands.known), Needs(Decide(toolName, fullVersion, args)))
      ensures exit == ExitAfter(Decide(toolName, fullVersion, args), o)
    {
      debug := args.debug;
      var a := Decide(toolName, fullVersion, args);
      o := Carry(m, a);
      exit := ExitAfter(a, o);
    }
  }
}
