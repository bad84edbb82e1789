/** `GitExtraTool` of src/GitExtraTool.js: SSH remotes in listing order, a branch
    lookup that cannot read a detached `HEAD`, `browse` by the first remote of a
    name, a `pullRequest` that logs its errors, and the `run` dispatch. */
module GitExtraJs {
  import opened Effects
  import opened JsText
  import opened CliArgs
  import opened Commands
  import opened SshRemotes
  import Ts = GitExtraTs

  /** What the tool observes: the installed commands and the outputs of
      `git remote -vv` and `git rev-parse --abbrev-ref HEAD`. */
  datatype Machine = Machine(installed: set<string>, remoteOutput: string, branchOutput: string)

  /** `getBranch`. Its `branch` is a `const`, so the assignment that would turn a
      detached `HEAD` into "master" throws instead. */
  function GetBranch(output: string): (r: Result<string>)
    ensures r.Err? <==> Trim(output) == "HEAD"
    ensures r.Err? ==> r.failure.TypeError?
    ensures r.Ok? ==> r.value == Trim(output) && r.value != "HEAD"
  {
    var branch := Trim(output);
    if branch == "HEAD" then Err(TypeError("Assignment to constant variable.")) else Ok(branch)
  }

  /** A branch git prints with whitespace around it reads as the bare name. */
  lemma GetBranchPadded(before: string, name: string, after: string)
    requires AllJsSpace(before) && AllJsSpace(after)
    requires name == [] || (!IsJsSpace(name[0]) && !IsJsSpace(name[|name| - 1]))
    ensures GetBranch(before + name + after) == if name == "HEAD" then Err(TypeError("Assignment to constant variable.")) else Ok(name)
  {
    TrimPadded(before, name, after);
  }

  /** The page of a remote's branch: GitHub's tree view, Bitbucket's source view. */
  function BrowseUrl(r: SshRemote, branch: string): (url: string)
    ensures StartsWith(url, "https://" + r.site + "/" + r.user + "/" + r.slug + "/")
    ensures r.site == "github.com" ==> EndsWith(url, "/tree/" + branch)
    ensures r.site != "github.com" ==> EndsWith(url, "/src?at=" + branch)
  {
    var front := "https://" + r.site + "/" + r.user + "/" + r.slug + "/";
    var view := if r.site == "github.com" then "tree/" else "src?at=";
    assert (front + (view + branch))[..|front|] == front;
    assert front + view + branch == front + (view + branch);
    assert (front + view + branch)[|front| - 1 + |view| + 1..] == branch;
    assert (front + view + branch)[|front| - 1..] == "/" + view + branch;
    front + view + branch
  }

  /** The branch is the tail of the page after the page of the empty branch, so
      different branches of one remote open different pages. */
  lemma BrowseUrlReadsBack(r: SshRemote, branch: string)
    ensures var base := BrowseUrl(r, "");
      StartsWith(BrowseUrl(r, branch), base) && BrowseUrl(r, branch)[|base|..] == branch
  {
  }

  lemma BrowseUrlInjective(r: SshRemote, b1: string, b2: string)
    requires BrowseUrl(r, b1) == BrowseUrl(r, b2)
    ensures b1 == b2
  {
    BrowseUrlReadsBack(r, b1);
    BrowseUrlReadsBack(r, b2);
  }

  /** `browse` once the remotes and the branch are known: the first remote of the
      name is opened. Without one, the warning reads `remote`, which is not in
      scope after the loop, so its template throws. */
  function BrowseOutcome(remotes: seq<SshRemote>, branch: string, remoteName: string): Outcome {
    match FirstNamed(remotes, remoteName)
    case None => Failed(ReferenceError("remote"))
    case Some(i) =>
      var url := BrowseUrl(remotes[i], branch);
      Outcome([Log(Info("Opening '" + url + "'...")), Do(Open(url))], Returned)
  }

  /** `browse` opens exactly the page of the first remote of that name, or throws
      when there is none. */
  lemma BrowseOpensFirst(remotes: seq<SshRemote>, branch: string, remoteName: string, i: nat)
    requires i < |remotes| && remotes[i].name == remoteName
    requires forall k :: 0 <= k < i ==> remotes[k].name != remoteName
    ensures var o := BrowseOutcome(remotes, branch, remoteName);
      o.completion.Returned? && OpenedUrls(o.trace) == [BrowseUrl(remotes[i], branch)]
  {
    var url := BrowseUrl(remotes[i], branch);
    OpensAnnounced(Info("Opening '" + url + "'..."), url);
  }

  lemma BrowseMissingThrows(remotes: seq<SshRemote>, branch: string, remoteName: string)
    requires forall k :: 0 <= k < |remotes| ==> remotes[k].name != remoteName
    ensures BrowseOutcome(remotes, branch, remoteName) == Failed(ReferenceError("remote"))
  {
  }

  /** The pull request URL, over `site`, `user` and `slug`. */
  function PullRequestUrl(origin: SshRemote, upstream: SshRemote, branch: string): string {
    if origin.site == "github.com" then
      "https://" + upstream.site + "/" + upstream.user + "/" + upstream.slug + "/compare/" + branch + "..." + origin.user + ":" + branch
    else
      "https://" + origin.site + "/" + origin.user + "/" + origin.slug + "/pull-request/new"
  }

  /** The same URL as the typed tool builds, for the same host, names and branch. */
  lemma PullRequestUrlAgrees(origin: SshRemote, upstream: SshRemote, branch: string, o: Ts.HostedRemotes.HostedInfo, u: Ts.HostedRemotes.HostedInfo)
    requires o.domain == origin.site && o.user == origin.user && o.project == origin.slug
    requires u.domain == upstream.site && u.user == upstream.user && u.project == upstream.slug
    ensures PullRequestUrl(origin, upstream, branch) == Ts.PullRequestUrl(o, u, branch)
  {
  }

  /** `pullRequest` once the remotes and the branch are known: a missing source,
      then a missing target, is logged as an error, and nothing is opened. */
  function PullRequestOutcome(remotes: seq<SshRemote>, branch: string, remoteName: string, upstreamName: string): (o: Outcome)
    ensures o.completion.Returned?
  {
    match FirstNamed(remotes, remoteName)
    case None => Logged(Error("Remote '" + remoteName + "' was not found"))
    case Some(i) =>
      match FirstNamed(remotes, upstreamName)
      case None => Logged(Error("Target remote '" + upstreamName + "' was not found"))
      case Some(j) =>
        var url := PullRequestUrl(remotes[i], remotes[j], branch);
        Outcome([Log(Info("Opening '" + url + "'...")), Do(Open(url))], Returned)
  }

  /** The source is looked for first; the URL is built from the first remote of
      each name. */
  lemma PullRequestOrder(remotes: seq<SshRemote>, branch: string, remoteName: string, upstreamName: string)
    ensures var o := PullRequestOutcome(remotes, branch, remoteName, upstreamName);
      && ((forall k :: 0 <= k < |remotes| ==> remotes[k].name != remoteName) ==>
            o == Logged(Error("Remote '" + remoteName + "' was not found")))
      && (FirstNamed(remotes, remoteName).Some? && FirstNamed(remotes, upstreamName).None? ==>
            o == Logged(Error("Target remote '" + upstreamName + "' was not found")))
      && (OpenedUrls(o.trace) != [] <==> FirstNamed(remotes, remoteName).Some? && FirstNamed(remotes, upstreamName).Some?)
      && (FirstNamed(remotes, remoteName).Some? && FirstNamed(remotes, upstreamName).Some? ==>
            OpenedUrls(o.trace) == [PullRequestUrl(remotes[FirstNamed(remotes, remoteName).value],
                                                   remotes[FirstNamed(remotes, upstreamName).value], branch)])
  {
    var o := PullRequestOutcome(remotes, branch, remoteName, upstreamName);
    match FirstNamed(remotes, remoteName)
    case None =>
      assert OpenedUrls(o.trace[1..]) == [];
    case Some(i) =>
      match FirstNamed(remotes, upstreamName)
      case None =>
        assert OpenedUrls(o.trace[1..]) == [];
      case Some(j) =>
        var url := PullRequestUrl(remotes[i], remotes[j], branch);
        OpensAnnounced(Info("Opening '" + url + "'..."), url);
  }

  /** `step` on the branch, unless reading it threw. */
  function OnBranch(branch: Result<string>, step: Outcome): Outcome {
    if branch.Err? then Failed(branch.failure) else step
  }

  function BrowseFlow(known: set<string>, m: Machine, remoteName: string): (set<string>, Outcome) {
    var branch := GetBranch(m.branchOutput);
    Ts.Gated(known, m.installed, ["git"],
      Then(Outcome(Ts.Inquiries, Returned),
           OnBranch(branch, BrowseOutcome(ParseRemotes(m.remoteOutput), Trim(m.branchOutput), remoteName))))
  }

  function PullRequestFlow(known: set<string>, m: Machine, remoteName: string, upstreamName: string): (set<string>, Outcome) {
    var branch := GetBranch(m.branchOutput);
    Ts.Gated(known, m.installed, ["git"],
      Then(Outcome(Ts.Inquiries, Returned),
           OnBranch(branch, PullRequestOutcome(ParseRemotes(m.remoteOutput), Trim(m.branchOutput), remoteName, upstreamName))))
  }

  /** A detached `HEAD` makes `browse` and `pullRequest` throw once `git` is known. */
  lemma DetachedHeadThrows(known: set<string>, m: Machine, remoteName: string, upstreamName: string)
    requires "git" in known || "git" in m.installed
    requires Trim(m.branchOutput) == "HEAD"
    ensures BrowseFlow(known, m, remoteName).1 == Outcome(Ts.Inquiries, Threw(TypeError("Assignment to constant variable.")))
    ensures PullRequestFlow(known, m, remoteName, upstreamName).1 == Outcome(Ts.Inquiries, Threw(TypeError("Assignment to constant variable.")))
  {
  }

  /** What `run` decides to do with the parsed arguments. */
  datatype Action =
    | Show(text: string)
    | Reject(failure: Failure)
    | PullRequestFrom(remoteName: string, upstreamName: string)
    | BrowseRemote(remoteName: string)
    | StartProject

  /** The `run` dispatch; `quick-start` has no short alias here. */
  function Decide(toolName: string, fullVersion: string, args: Args): Action {
    if args.version then Show(VersionLine(fullVersion))
    else match CommandOf(args)
      case Err(f) => Reject(f)
      case Ok(command) => Choose(toolName, args, command)
  }

  function Choose(toolName: string, args: Args, command: string): Action {
    if command == "pull-request" || command == "prq" then
      if WantsUsage(args) then Show(Ts.PullRequestUsage(toolName)) else PullRequestFrom(args.remote, args.toRemote)
    else if command == "browse" || command == "brw" then
      if WantsUsage(args) then Show(Ts.BrowseUsage(toolName)) else BrowseRemote(args.remote)
    else if command == "quick-start" then
      if WantsUsage(args) then Show(Ts.QuickStartUsage(toolName)) else StartProject
    else Show(Ts.GeneralHelp(toolName))
  }

  /** The commands a decision asks `ensureCommands` for; `quickStart` asks for none. */
  function Needs(a: Action): seq<string> {
    match a
    case PullRequestFrom(_, _) => ["git"]
    case BrowseRemote(_) => ["git"]
    case _ => []
  }

  /** `quickStart` has an empty body here. */
  function Execute(known: set<string>, m: Machine, a: Action): (set<string>, Outcome) {
    match a
    case Show(text) => (known, Logged(Info(text)))
    case Reject(f) => (known, Failed(f))
    case PullRequestFrom(remoteName, upstreamName) => PullRequestFlow(known, m, remoteName, upstreamName)
    case BrowseRemote(remoteName) => BrowseFlow(known, m, remoteName)
    case StartProject => (known, Outcome([], Returned))
  }

  function RunOutcome(toolName: string, fullVersion: string, known: set<string>, m: Machine, args: Args): (set<string>, Outcome) {
    Execute(known, m, Decide(toolName, fullVersion, args))
  }

  lemma RunVersionFirst(toolName: string, fullVersion: string, args: Args)
    requires args.version
    ensures Decide(toolName, fullVersion, args) == Show(VersionLine(fullVersion))
  {
  }

  /** `qst` is not a command here: it shows the general help. */
  lemma NoQuickStartAlias(toolName: string, fullVersion: string, args: Args)
    requires !args.version && CommandOf(args) == Ok("qst")
    ensures Decide(toolName, fullVersion, args) == Show(Ts.GeneralHelp(toolName))
    ensures Contains(Ts.GeneralHelp(toolName), "--help")
  {
    Ts.GeneralHelpMentionsHelp(toolName);
  }

  /** The commands and what they receive. */
  lemma RunCommands(toolName: string, fullVersion: string, args: Args)
    requires !args.version && CommandOf(args).Ok?
    ensures var c := CommandOf(args).value; var a := Decide(toolName, fullVersion, args);
      && (c in {"pull-request", "prq"} ==>
            a == if WantsUsage(args) then Show(Ts.PullRequestUsage(toolName)) else PullRequestFrom(args.remote, args.toRemote))
      && (c in {"browse", "brw"} ==>
            a == if WantsUsage(args) then Show(Ts.BrowseUsage(toolName)) else BrowseRemote(args.remote))
      && (c == "quick-start" ==> a == if WantsUsage(args) then Show(Ts.QuickStartUsage(toolName)) else StartProject)
      && (c !in {"pull-request", "prq", "browse", "brw", "quick-start"} ==> a == Show(Ts.GeneralHelp(toolName)))
  {
  }

  /** What the promise `run` returns settles to once `a` is carried out with
      outcome `o`: the `return 0` after the version, each usage and the general
      help; the rejection when the command word cannot be lower-cased; and for a
      command, the rejection with what it threw or the `return 0` after the
      `switch` that its `break` reaches. */
  function ExitAfter(a: Action, o: Outcome): Exit {
    match a
    case Show(_) => ExitCode(0)
    case Reject(f) => Rejected(f)
    case _ => if o.completion.Threw? then Rejected(o.completion.failure) else ExitCode(0)
  }

  /** `run` resolves exactly when its body does not throw, and then to 0; it
      rejects with what the body threw. `pullRequest` never throws once `git` is
      known and the branch is not a detached `HEAD`. */
  lemma ExecuteExit(known: set<string>, m: Machine, a: Action)
    ensures var (k, o) := Execute(known, m, a); var e := ExitAfter(a, o);
      && (e.ExitCode? <==> o.completion.Returned?)
      && (e.ExitCode? ==> e.code == 0)
      && (e.Rejected? ==> e.failure == o.completion.failure)
      && known <= k && k == Ensured(known, m.installed, Needs(a)).0
      && (a.PullRequestFrom? && ("git" in known || "git" in m.installed) && Trim(m.branchOutput) != "HEAD" ==> o.completion.Returned?)
  {
    match a
    case PullRequestFrom(_, _) => var _ := Ensured(known, m.installed, ["git"]);
    case BrowseRemote(_) => var _ := Ensured(known, m.installed, ["git"]);
    case _ =>
  }

  /** The tool object with its `ensureCommands` cache. */
  class Tool {
    const toolName: string
    var debug: bool
    const commands: CommandCache

    constructor(toolName: string, debug: bool)
      ensures this.toolName == toolName && this.debug == debug
      ensures fresh(commands) && commands.known == {} && commands.queried == []
    {
      this.toolName := toolName;
      this.debug := debug;
      commands := new CommandCache();
    }

    /** The `for ... of` loop of `browse`, which returns at the first remote of the
        name. */
    method OpenFirst(remotes: seq<SshRemote>, branch: string, remoteName: string) returns (o: Outcome)
      ensures o == BrowseOutcome(remotes, branch, remoteName)
    {
      var i := 0;
      while i < |remotes|
        invariant 0 <= i <= |remotes|
        invariant forall k :: 0 <= k < i ==> remotes[k].name != remoteName
      {
        if remotes[i].name == remoteName {
          var url := BrowseUrl(remotes[i], branch);
          return Outcome([Log(Info("Opening '" + url + "'...")), Do(Open(url))], Returned);
        }
        i := i + 1;
      }
      o := Failed(ReferenceError("remote"));
    }

    method Browse(m: Machine, remoteName: string) returns (o: Outcome)
      modifies commands
      ensures (commands.known, o) == Execute(old(commands.known), m, BrowseRemote(remoteName))
      ensures commands.queried == old(commands.queried) + Unknown(old(commands.known), ["git"])
    {
      var c := commands.Ensure(["git"], m.installed);
      if c.Threw? {
        return Outcome([], c);
      }
      var remotes := CollectRemotes(m.remoteOutput);
      var branch := GetBranch(m.branchOutput);
      if branch.Err? {
        assert Ts.Inquiries + [] == Ts.Inquiries;
        return Outcome(Ts.Inquiries, Threw(branch.failure));
      }
      var shown := OpenFirst(remotes, branch.value, remoteName);
      o := Then(Outcome(Ts.Inquiries, Returned), shown);
    }

    method PullRequest(m: Machine, remoteName: string, upstreamName: string) returns (o: Outcome)
      modifies commands
      ensures (commands.known, o) == Execute(old(commands.known), m, PullRequestFrom(remoteName, upstreamName))
      ensures commands.queried == old(commands.queried) + Unknown(old(commands.known), ["git"])
    {
      var c := commands.Ensure(["git"], m.installed);
      if c.Threw? {
        return Outcome([], c);
      }
      var remotes := CollectRemotes(m.remoteOutput);
      var branch := GetBranch(m.branchOutput);
      if branch.Err? {
        assert Ts.Inquiries + [] == Ts.Inquiries;
        return Outcome(Ts.Inquiries, Threw(branch.failure));
      }
      o := Then(Outcome(Ts.Inquiries, Returned), PullRequestOutcome(remotes, branch.value, remoteName, upstreamName));
    }

    method Carry(m: Machine, a: Action) returns (o: Outcome)
      modifies commands
      ensures (commands.known, o) == Execute(old(commands.known), m, a)
      ensures commands.queried == old(commands.queried) + Unknown(old(commands.known), Needs(a))
    {
      match a {
        case Show(text) => o := Logged(Info(text));
        case Reject(f) => o := Failed(f);
        case PullRequestFrom(remoteName, upstreamName) => o := PullRequest(m, remoteName, upstreamName);
        case BrowseRemote(remoteName) => o := Browse(m, remoteName);
        case StartProject => o := Outcome([], Returned);
      }
    }

    /** `run`: sets `debug`, then carries out what the dispatch decides. */
    method Run(m: Machine, fullVersion: string, args: Args) returns (o: Outcome, exit: Exit)
      modifies this, commands
      ensures debug == args.debug
      ensures (commands.known, o) == RunOutcome(toolName, fullVersion, old(commands.known), m, args)
      ensures commands.queried == old(commands.queried) + Unknown(old(commands.known), Needs(Decide(toolName, fullVersion, args)))
      ensures exit == ExitAfter(Decide(toolName, fullVersion, args), o)
    {
      debug := args.debug;
      var a := Decide(toolName, fullVersion, args);
      o := Carry(m, a);
      exit := ExitAfter(a, o);
    }
  }
}
