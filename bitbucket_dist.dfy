/** `BitbucketTool` of dist/BitbucketTool.js: the SSH remotes of `git remote -vv`,
    `browse` of the origin or of an upstream found by name, a `pullRequest` that
    prints each remote it passes and opens the origin's pull request page, and the
    `run` dispatch. */
module BitbucketDist {
  import opened Effects
  import opened JsText
  import opened CliArgs
  import opened Commands
  import opened SshRemotes
  import Ts = GitExtraTs

  /** What the tool observes: the installed commands and the output of
      `git remote -vv`. */
  datatype Machine = Machine(installed: set<string>, remoteOutput: string)

  /** The remote `browse` looks for: with `--upstream`, one whose name contains
      "upstream", "official" or "parent" anywhere; otherwise the one named exactly
      "origin". */
  predicate Selects(upstream: bool, name: string) {
    if upstream then Contains(name, "upstream") || Contains(name, "official") || Contains(name, "parent")
    else name == "origin"
  }

  /** The search is unanchored: any name with one of the words inside it is an
      upstream. */
  lemma UpstreamAnywhere(before: string, word: string, after: string)
    requires word in {"upstream", "official", "parent"}
    ensures Selects(true, before + word + after)
  {
    ContainsInfix(before, word, after);
  }

  /** "origin" itself is never taken for an upstream. */
  lemma OriginIsNotUpstream()
    ensures !Selects(true, "origin")
  {
    ContainsShorter("origin", "upstream");
    ContainsShorter("origin", "official");
    ContainsSameLength("origin", "parent");
  }

  /** The index of the first remote `browse` takes. */
  function FirstSelected(rs: seq<SshRemote>, upstream: bool): (i: Option<nat>)
    ensures i.Some? ==> i.value < |rs| && Selects(upstream, rs[i.value].name)
    ensures i.Some? ==> forall k :: 0 <= k < i.value ==> !Selects(upstream, rs[k].name)
    ensures i.None? ==> forall k :: 0 <= k < |rs| ==> !Selects(upstream, rs[k].name)
  {
    if rs == [] then None
    else if Selects(upstream, rs[0].name) then Some(0)
    else match FirstSelected(rs[1..], upstream)
      case Some(j) => Some(j + 1)
      case None => None
  }

  /** The repository's page, the same for both hosts. */
  function RepoUrl(r: SshRemote): string {
    "https://" + r.site + "/" + r.user + "/" + r.slug
  }

  function Announce(url: string): seq<Event> {
    [Log(Info("Opening " + url + "...")), Do(Open(url))]
  }

  /** `browse(upstream)` once the remotes are known. */
  function BrowseOutcome(rs: seq<SshRemote>, upstream: bool): (o: Outcome)
    ensures o.completion.Returned?
  {
    match FirstSelected(rs, upstream)
    case None => Logged(Warning("No appropriate git remote was found"))
    case Some(i) => Outcome(Announce(RepoUrl(rs[i])), Returned)
  }

  /** `browse` opens the page of the first remote it selects, and nothing when it
      selects none. */
  lemma BrowseOpens(rs: seq<SshRemote>, upstream: bool)
    ensures var o := BrowseOutcome(rs, upstream);
      && (FirstSelected(rs, upstream).None? ==> OpenedUrls(o.trace) == [])
      && (FirstSelected(rs, upstream).Some? ==> OpenedUrls(o.trace) == [RepoUrl(rs[FirstSelected(rs, upstream).value])])
  {
    var o := BrowseOutcome(rs, upstream);
    if FirstSelected(rs, upstream).Some? {
      var url := RepoUrl(rs[FirstSelected(rs, upstream).value]);
      OpensAnnounced(Info("Opening " + url + "..."), url);
    } else {
      assert OpenedUrls(o.trace[1..]) == [];
    }
  }

  /** `console.log(remote)` of one record. */
  function Fields(r: SshRemote): seq<(string, string)> {
    [("name", r.name), ("site", r.site), ("user", r.user), ("slug", r.slug)]
  }

  function Inspections(rs: seq<SshRemote>): (t: seq<Event>)
    ensures |t| == |rs|
    ensures forall k :: 0 <= k < |rs| ==> t[k] == Do(Inspect(Fields(rs[k])))
  {
    seq(|rs|, k requires 0 <= k < |rs| => Do(Inspect(Fields(rs[k]))))
  }

  /** The `for ... of` loop of `pullRequest`: print each remote, and open the pull
      request page of the first one named "origin". */
  function PullRequestTrace(rs: seq<SshRemote>): seq<Event>
    decreases |rs|
  {
    if rs == [] then [Log(Warning("No appropriate git origin repository was found"))]
    else
      var next := if rs[0].name == "origin" then Announce(RepoUrl(rs[0]) + "/pull-request/new") else PullRequestTrace(rs[1..]);
      [Do(Inspect(Fields(rs[0])))] + next
  }

  /** The remotes up to the first origin are printed, then its page opened;
      without an origin every remote is printed and the warning follows. */
  lemma {:induction false} PullRequestStopsAtOrigin(rs: seq<SshRemote>)
    ensures FirstNamed(rs, "origin").None? ==>
      PullRequestTrace(rs) == Inspections(rs) + [Log(Warning("No appropriate git origin repository was found"))]
    ensures FirstNamed(rs, "origin").Some? ==>
      var i := FirstNamed(rs, "origin").value;
      PullRequestTrace(rs) == Inspections(rs[..i + 1]) + Announce(RepoUrl(rs[i]) + "/pull-request/new")
    decreases |rs|
  {
    if rs != [] && rs[0].name != "origin" {
      PullRequestStopsAtOrigin(rs[1..]);
      match FirstNamed(rs[1..], "origin")
      case None =>
        assert Inspections(rs) == [Do(Inspect(Fields(rs[0])))] + Inspections(rs[1..]);
      case Some(j) =>
        assert rs[1..][..j + 1] == rs[1..j + 2];
        assert Inspections(rs[..j + 2]) == [Do(Inspect(Fields(rs[0])))] + Inspections(rs[1..j + 2]);
    } else if rs != [] {
      assert Inspections(rs[..1]) == [Do(Inspect(Fields(rs[0])))];
    }
  }

  function BrowseFlow(known: set<string>, m: Machine, upstream: bool): (set<string>, Outcome) {
    Ts.Gated(known, m.installed, ["git"],
      Outcome([Do(Exec(Ts.ListRemotes, None))] + BrowseOutcome(ParseRemotes(m.remoteOutput), upstream).trace, Returned))
  }

  function PullRequestFlow(known: set<string>, m: Machine): (set<string>, Outcome) {
    Ts.Gated(known, m.installed, ["git"],
      Outcome([Do(Exec(Ts.ListRemotes, None))] + PullRequestTrace(ParseRemotes(m.remoteOutput)), Returned))
  }

  /** First lines of the usage texts; the rest of each text is left out. */
  function PullRequestUsage(toolName: string): string {
    "Usage: " + toolName + " pull-request <options>\n"
  }

  function BrowseUsage(toolName: string): string {
    "Usage: " + toolName + " browse <options>\n"
  }

  /** The general help, reduced to its title and its `--help` option. */
  function GeneralHelp(toolName: string): string {
    "\nBitbucket Tool\n\nUsage: " + toolName + " <command> ...\n\nGlobal Options:\n  " + "--help" + "      Displays this help\n"
  }

  datatype Action =
    | Show(text: string)
    | Reject(failure: Failure)
    | OpenPullRequest
    | BrowseRepo(upstream: bool)

  /** The `run` dispatch: `browse` takes the `--upstream` flag, `pull-request`
      nothing. */
  function Decide(toolName: string, fullVersion: string, args: Args): Action {
    if args.version then Show(VersionLine(fullVersion))
    else match CommandOf(args)
      case Err(f) => Reject(f)
      case Ok(command) =>
        if command == "pull-request" || command == "prq" then
          if WantsUsage(args) then Show(PullRequestUsage(toolName)) else OpenPullRequest
        else if command == "browse" || command == "brw" then
          if WantsUsage(args) then Show(BrowseUsage(toolName)) else BrowseRepo(args.upstream)
        else Show(GeneralHelp(toolName))
  }

  /** The commands a decision asks `ensureCommands` for. */
  function Needs(a: Action): seq<string> {
    match a
    case OpenPullRequest => ["git"]
    case BrowseRepo(_) => ["git"]
    case _ => []
  }

  function Execute(known: set<string>, m: Machine, a: Action): (set<string>, Outcome) {
    match a
    case Show(text) => (known, Logged(Info(text)))
    case Reject(f) => (known, Failed(f))
    case OpenPullRequest => PullRequestFlow(known, m)
    case BrowseRepo(upstream) => BrowseFlow(known, m, upstream)
  }

  function RunOutcome(toolName: string, fullVersion: string, known: set<string>, m: Machine, args: Args): (set<string>, Outcome) {
    Execute(known, m, Decide(toolName, fullVersion, args))
  }

  /** `--version` first; then the aliases, `--upstream` for `browse`, and help for
      everything else, which mentions `--help`. */
  lemma RunCommands(toolName: string, fullVersion: string, args: Args)
    ensures args.version ==> Decide(toolName, fullVersion, args) == Show(VersionLine(fullVersion))
    ensures !args.version && CommandOf(args).Ok? ==>
      var c := CommandOf(args).value; var a := Decide(toolName, fullVersion, args);
      && (c in {"pull-request", "prq"} ==> a == if WantsUsage(args) then Show(PullRequestUsage(toolName)) else OpenPullRequest)
      && (c in {"browse", "brw"} ==> a == if WantsUsage(args) then Show(BrowseUsage(toolName)) else BrowseRepo(args.upstream))
      && (c !in {"pull-request", "prq", "browse", "brw"} ==> a == Show(GeneralHelp(toolName)))
    ensures Contains(GeneralHelp(toolName), "--help")
  {
    ContainsInfix("\nBitbucket Tool\n\nUsage: " + toolName + " <command> ...\n\nGlobal Options:\n  ", "--help", "      Displays this help\n");
  }

  /** What the promise `run` returns settles to once `a` is carried out with
      outcome `o`: the `return 0` after the version, each usage and the general
      help; the rejection when the command word cannot be lower-cased; and for a
      command, the rejection with what it threw or the `return 0` after the
      `switch` that its `break` reaches. */
  function ExitAfter(a: Action, o: Outcome): Exit {
    match a
    case Show(_) => ExitCode(0)
    case Reject(f) => Rejected(f)
    case _ => if o.completion.Threw? then Rejected(o.completion.failure) else ExitCode(0)
  }

  /** `run` resolves exactly when its body does not throw, and then to 0; it
      rejects with what the body threw. Only a missing `git` or a numeric command
      word makes it throw. */
  lemma ExecuteExit(known: set<string>, m: Machine, a: Action)
    ensures var (k, o) := Execute(known, m, a); var e := ExitAfter(a, o);
      && (e.ExitCode? <==> o.completion.Returned?)
      && (e.ExitCode? ==> e.code == 0)
      && (e.Rejected? ==> e.failure == o.completion.failure)
      && known <= k && k == Ensured(known, m.installed, Needs(a)).0
      && (o.completion.Threw? ==> a.Reject? || o.completion.failure == NotInstalled)
  {
    match a
    case OpenPullRequest => var _ := Ensured(known, m.installed, ["git"]);
    case BrowseRepo(_) => var _ := Ensured(known, m.installed, ["git"]);
    case _ =>
  }

  /** The tool object with its `ensureCommands` cache. */
  class Tool {
    const toolName: string
    const commands: CommandCache

    constructor(toolName: string)
      ensures this.toolName == toolName
      ensures fresh(commands) && commands.known == {} && commands.queried == []
    {
      this.toolName := toolName;
      commands := new CommandCache();
    }

    /** The loop of `browse`, which returns at the first remote it selects. */
    method OpenSelected(rs: seq<SshRemote>, upstream: bool) returns (o: Outcome)
      ensures o == BrowseOutcome(rs, upstream)
    {
      var i := 0;
      while i < |rs|
        invariant 0 <= i <= |rs|
        invariant forall k :: 0 <= k < i ==> !Selects(upstream, rs[k].name)
      {
        if Selects(upstream, rs[i].name) {
          return Outcome(Announce(RepoUrl(rs[i])), Returned);
        }
        i := i + 1;
      }
      o := Logged(Warning("No appropriate git remote was found"));
    }

    /** The loop of `pullRequest`. */
    method PrintUntilOrigin(rs: seq<SshRemote>) returns (trace: seq<Event>)
      ensures trace == PullRequestTrace(rs)
    {
      trace := [];
      var i := 0;
      while i < |rs|
        invariant 0 <= i <= |rs|
        invariant trace + PullRequestTrace(rs[i..]) == PullRequestTrace(rs)
      {
        ghost var rest := rs[i..];
        assert rest[0] == rs[i] && rest[1..] == rs[i + 1..];
        trace := trace + [Do(Inspect(Fields(rs[i])))];
        if rs[i].name == "origin" {
          trace := trace + Announce(RepoUrl(rs[i]) + "/pull-request/new");
          return;
        }
        i := i + 1;
      }
      trace := trace + [Log(Warning("No appropriate git origin repository was found"))];
    }

    method Browse(m: Machine, upstream: bool) returns (o: Outcome)
      modifies commands
      ensures (commands.known, o) == Execute(old(commands.known), m, BrowseRepo(upstream))
      ensures commands.queried == old(commands.queried) + Unknown(old(commands.known), ["git"])
    {
      var c := commands.Ensure(["git"], m.installed);
      if c.Threw? {
        return Outcome([], c);
      }
      var remotes := CollectRemotes(m.remoteOutput);
      var shown := OpenSelected(remotes, upstream);
      o := Outcome([Do(Exec(Ts.ListRemotes, None))] + shown.trace, Returned);
    }

    method PullRequest(m: Machine) returns (o: Outcome)
      modifies commands
      ensures (commands.known, o) == Execute(old(commands.known), m, OpenPullRequest)
      ensures commands.queried == old(commands.queried) + Unknown(old(commands.known), ["git"])
    {
      var c := commands.Ensure(["git"], m.installed);
      if c.Threw? {
        return Outcome([], c);
      }
      var remotes := CollectRemotes(m.remoteOutput);
      var trace := PrintUntilOrigin(remotes);
      o := Outcome([Do(Exec(Ts.ListRemotes, None))] + trace, Returned);
    }

    /** `run`: carries out what the dispatch decides. */
    method Run(m: Machine, fullVersion: string, args: Args) returns (o: Outcome, exit: Exit)
      modifies commands
      ensures (commands.known, o) == RunOutcome(toolName, fullVersion, old(commands.known), m, args)
      ensures commands.queried == old(commands.queried) + Unknown(old(commands.known), Needs(Decide(toolName, fullVersion, args)))
      ensures exit == ExitAfter(Decide(toolName, fullVersion, args), o)
    {
      var a := Decide(toolName, fullVersion, args);
      match a {
        case Show(text) => o := Logged(Info(text));
        case Reject(f) => o := Failed(f);
        case OpenPullRequest => o := PullRequest(m);
        case BrowseRepo(upstream) => o := Browse(m, upstream);
      }
      exit := ExitAfter(a, o);
    }
  }
}
