/** The decisions of `quickStart` in src/GitExtraTool.ts: which repository and
    directory are used, the overwrite guard, the clone and history reset, and the
    customization script, whose every file capability goes through `qualifyPath`.
    The file system is a parameter: the spellings that exist, the working
    directory, and what the customization script does once it runs. */
module QuickStart {
  import opened Effects
  import opened JsText
  import opened PosixPath
  import opened HostedRemotes

  /** The options `run` passes: `url` is positional 1, `dirName` positional 2
      (`""` stands for a missing one), and the `--overwrite` flag. */
  datatype Options = Options(url: string, dirName: string, overwrite: bool)

  /** One call the customization script makes on its context, in the order it
      awaits them. `Raise` is the script throwing an error of its own. */
  datatype Call =
    | ReadFile(path: string)
    | WriteFile(path: string, contents: string)
    | RemoveFile(path: string)
    | Move(from: string, to: string)
    | EnsureFile(path: string)
    | Mkdir(path: string)
    | ForceAdd(path: string)
    | ConsoleLog(message: string)
    | Prompts(names: seq<string>)
    | Raise(message: string)

  /** `git-extra-customize.js` in the clone: unreadable (with the message of the
      read error), or a script. */
  datatype ScriptFile = Unreadable(message: string) | Script(calls: seq<Call>)

  /** The machine `quickStart` runs on: the working directory as names, the
      spellings `fs.existsSync` finds, and the clone's customization script. */
  datatype Disk = Disk(cwd: seq<string>, existing: set<string>, script: ScriptFile)

  const ScriptName := "git-extra-customize.js"
  const NoUrl := "A repository URL or directory must be given"

  /** `qualifyPath(p)` for the directory whose resolved names are `dir` and whose
      spelling is `dirName`: the resolved path when its spelling starts with the
      directory's spelling, an error otherwise. The test is on strings. */
  function Qualify(dir: seq<string>, dirName: string, p: string): (r: Result<string>)
    ensures r.Ok? <==> StartsWith(Render(Resolve(dir, p)), Render(dir))
    ensures r.Ok? ==> r.value == Render(Resolve(dir, p))
    ensures r.Err? ==> r.failure == Thrown("Path " + p + " not under " + dirName)
  {
    var full := Render(Resolve(dir, p));
    if StartsWith(full, Render(dir)) then Ok(full) else Err(Thrown("Path " + p + " not under " + dirName))
  }

  /** Every path that resolves below the directory, name by name, is accepted. */
  lemma QualifyAcceptsDescendants(dir: seq<string>, dirName: string, p: string, below: seq<string>)
    requires Resolve(dir, p) == dir + below
    ensures Qualify(dir, dirName, p) == Ok(Render(dir + below))
  {
    RenderPrefix(dir, below);
  }

  /** In particular a relative path without `..` is always accepted. */
  lemma QualifyAcceptsPlainRelative(dir: seq<string>, dirName: string, p: string)
    requires !IsAbsolute(p)
    requires forall k :: 0 <= k < |Split(p)| ==> Split(p)[k] != ".."
    ensures Qualify(dir, dirName, p).Ok?
  {
    WalkDescends(dir, Split(p));
    var r := Resolve(dir, p);
    assert r == dir + r[|dir|..];
    QualifyAcceptsDescendants(dir, dirName, p, r[|dir|..]);
  }

  /** The parent of the project directory is refused. */
  lemma QualifyRejectsParent()
    ensures Qualify(["proj"], "proj", "..") == Err(Thrown("Path .. not under proj"))
  {
    assert Split("..") == [".."];
    assert Resolve(["proj"], "..") == [];
    assert Render([]) == "/";
  }

  /** An absolute path elsewhere is refused. */
  lemma QualifyRejectsElsewhere()
    ensures Qualify(["proj"], "proj", "/etc").Err?
  {
    assert Split("/etc") == ["", "etc"] by {
      assert NextSlash("/etc", 0) == 0;
      assert Split("etc") == ["etc"];
    }
    assert Resolve(["proj"], "/etc") == ["etc"];
    assert Render(["etc"]) == "/etc";
    assert Render(["proj"]) == "/proj";
  }

  /** Because the test is textual, a sibling whose name extends the project's name
      is accepted although it is not inside the project. */
  lemma QualifyAcceptsSibling()
    ensures Qualify(["proj"], "proj", "../proj2") == Ok("/proj2")
  {
    SplitSibling();
    assert Resolve(["proj"], "../proj2") == ["proj2"];
    assert Render(["proj2"]) == "/proj2";
    assert Render(["proj"]) == "/proj";
  }

  lemma SplitSibling()
    ensures Split("../proj2") == ["..", "proj2"]
  {
    assert NextSlash("../proj2", 2) == 2;
    assert NextSlash("../proj2", 0) == 2;
    assert "../proj2"[..2] == ".." && "../proj2"[3..] == "proj2";
    assert NextSlash("proj2", 5) == 5;
    assert NextSlash("proj2", 0) == 5;
  }

  /** The message of an error the script ends with. */
  function MessageOf(f: Failure): string {
    match f
    case Thrown(m) => m
    case ScriptError(m) => m
    case TypeError(m) => m
    case ReferenceError(id) => id + " is not defined"
    case NotInstalled => ""
  }

  /** A `qualifyPath`: the qualified path of every path the script names, or the
      error it throws. */
  type Qualifier = string -> Result<string>

  /** The `qualifyPath` of the project directory with names `dir`, spelled `dirName`. */
  function QualifierOf(dir: seq<string>, dirName: string): Qualifier {
    p => Qualify(dir, dirName, p)
  }

  /** The qualifier accepts only paths spelled with `full` in front. */
  ghost predicate KeepsUnder(qualify: Qualifier, full: string) {
    forall p :: qualify(p).Ok? ==> StartsWith(qualify(p).value, full)
  }

  lemma QualifierKeepsUnder(dir: seq<string>, dirName: string)
    ensures KeepsUnder(QualifierOf(dir, dirName), Render(dir))
  {
  }

  /** One awaited call of the script. File capabilities qualify their paths first
      (`move` both, source first); prompting pauses the spinner. */
  function Perform(qualify: Qualifier, dirName: string, c: Call): (o: Outcome)
    ensures o.completion.Threw? ==> o.trace == []
  {
    match c
    case ReadFile(p) => Checked(qualify(p), q => ReadPath(q))
    case WriteFile(p, contents) => Checked(qualify(p), q => WritePath(q, contents))
    case RemoveFile(p) => Checked(qualify(p), q => RemovePath(q))
    case EnsureFile(p) => Checked(qualify(p), q => EnsureFilePath(q))
    case Mkdir(p) => Checked(qualify(p), q => MakeDirs(q))
    case ForceAdd(p) => Checked(qualify(p), q => Exec("git add -f " + q, Some(dirName)))
    case Move(a, b) =>
      (match qualify(a)
       case Err(f) => Failed(f)
       case Ok(qa) => Checked(qualify(b), qb => MovePath(qa, qb)))
    case ConsoleLog(m) => Outcome([Do(ConsoleLine(m))], Returned)
    case Prompts(names) => Outcome([Log(StopSpinnerNoMessage), Do(Prompt(names)), Log(RestartSpinner)], Returned)
    case Raise(m) => Failed(ScriptError(m))
  }

  /** The effect `act` on the qualified path, or the qualifier's error. */
  function Checked(q: Result<string>, act: string -> Effect): (o: Outcome)
    ensures o.completion.Returned? <==> q.Ok?
    ensures o.completion.Returned? ==> o.trace == [Do(act(q.value))]
    ensures o.completion.Threw? ==> o.trace == [] && o.completion.failure == q.failure
  {
    match q
    case Ok(path) => Outcome([Do(act(path))], Returned)
    case Err(f) => Failed(f)
  }

  /** A script error is the qualifier's error or the script's own. */
  lemma PerformFailure(dir: seq<string>, dirName: string, c: Call)
    ensures var o := Perform(QualifierOf(dir, dirName), dirName, c);
      o.completion.Threw? ==> o.completion.failure.Thrown? || o.completion.failure.ScriptError?
  {
  }

  /** `move` checks its source and then its target; it moves only when both are
      accepted. */
  lemma MoveChecksBoth(qualify: Qualifier, dirName: string, a: string, b: string)
    ensures var o := Perform(qualify, dirName, Move(a, b));
      && (o.completion.Returned? <==> qualify(a).Ok? && qualify(b).Ok?)
      && (qualify(a).Err? ==> o == Failed(qualify(a).failure))
      && (qualify(a).Ok? && qualify(b).Err? ==> o == Failed(qualify(b).failure))
      && (o.completion.Returned? ==> o.trace == [Do(MovePath(qualify(a).value, qualify(b).value))])
  {
  }

  /** The script's calls, in order, until one throws. */
  function RunScript(qualify: Qualifier, dirName: string, calls: seq<Call>): Outcome
    decreases |calls|
  {
    if calls == [] then Outcome([], Returned)
    else Then(Perform(qualify, dirName, calls[0]), RunScript(qualify, dirName, calls[1..]))
  }

  /** The project's script fails only with a path error or an error of its own. */
  lemma {:induction false} ScriptFailure(dir: seq<string>, dirName: string, calls: seq<Call>)
    ensures var o := RunScript(QualifierOf(dir, dirName), dirName, calls);
      o.completion.Threw? ==> o.completion.failure.Thrown? || o.completion.failure.ScriptError?
    decreases |calls|
  {
    if calls != [] {
      PerformFailure(dir, dirName, calls[0]);
      ScriptFailure(dir, dirName, calls[1..]);
    }
  }

  /** The file paths an event touches; a forced add touches the path it names. */
  function Touched(e: Event): seq<string> {
    match e
    case Do(ReadPath(p)) => [p]
    case Do(WritePath(p, _)) => [p]
    case Do(RemovePath(p)) => [p]
    case Do(EnsureFilePath(p)) => [p]
    case Do(MakeDirs(p)) => [p]
    case Do(MovePath(a, b)) => [a, b]
    case Do(Exec(cmd, _)) => if StartsWith(cmd, "git add -f ") then [cmd[11..]] else []
    case _ => []
  }

  ghost predicate Confined(full: string, trace: seq<Event>) {
    forall k, q :: 0 <= k < |trace| && q in Touched(trace[k]) ==> StartsWith(q, full)
  }

  lemma ForceAddTouches(q: string, dirName: string)
    ensures Touched(Do(Exec("git add -f " + q, Some(dirName)))) == [q]
  {
    assert ("git add -f " + q)[11..] == q;
  }

  lemma PerformConfined(qualify: Qualifier, full: string, dirName: string, c: Call)
    requires KeepsUnder(qualify, full)
    ensures Confined(full, Perform(qualify, dirName, c).trace)
  {
    if c.ForceAdd? && qualify(c.path).Ok? {
      ForceAddTouches(qualify(c.path).value, dirName);
    }
  }

  /** Whatever the script does, every path it reads, writes, removes, moves,
      creates or force-adds is spelled with the project directory in front. */
  lemma {:induction false} ScriptConfined(qualify: Qualifier, full: string, dirName: string, calls: seq<Call>)
    requires KeepsUnder(qualify, full)
    ensures Confined(full, RunScript(qualify, dirName, calls).trace)
    decreases |calls|
  {
    if calls != [] {
      var first := Perform(qualify, dirName, calls[0]);
      PerformConfined(qualify, full, dirName, calls[0]);
      ScriptConfined(qualify, full, dirName, calls[1..]);
      if first.completion.Returned? {
        var rest := RunScript(qualify, dirName, calls[1..]);
        var t := first.trace + rest.trace;
        forall k, q | 0 <= k < |t| && q in Touched(t[k])
          ensures StartsWith(q, full)
        {
          if k >= |first.trace| {
            assert t[k] == rest.trace[k - |first.trace|];
          }
        }
      }
    }
  }

  /** The project's script stays in the project, in the textual sense of `qualifyPath`. */
  lemma ProjectScriptConfined(dir: seq<string>, dirName: string, calls: seq<Call>)
    ensures Confined(Render(dir), RunScript(QualifierOf(dir, dirName), dirName, calls).trace)
  {
    QualifierKeepsUnder(dir, dirName);
    ScriptConfined(QualifierOf(dir, dirName), Render(dir), dirName, calls);
  }

  /** The directory the clone goes into: the given name, else the project of a
      recognised URL, else the last component of the URL. Only the given name
      can contain a `/`. */
  function DirName(fromUrl: string -> Option<HostedInfo>, opts: Options): (d: string)
    ensures opts.dirName != "" ==> d == opts.dirName
    ensures opts.dirName == "" && fromUrl(opts.url).Some? ==> d == fromUrl(opts.url).value.project
    ensures opts.dirName == "" && fromUrl(opts.url).None? ==> d == Basename(opts.url) && '/' !in d
  {
    if opts.dirName != "" then opts.dirName
    else match fromUrl(opts.url)
      case Some(remote) => remote.project
      case None => Basename(opts.url)
  }

  /** What is cloned: the normalised form of a recognised URL, else the URL itself. */
  function RepoLocation(fromUrl: string -> Option<HostedInfo>, url: string): string {
    match fromUrl(url)
    case Some(remote) => remote.text
    case None => url
  }

  function AlreadyExists(full: string): string {
    "Directory '" + full + "' already exists; use --overwrite flag to replace"
  }

  /** The overwrite guard on the directory as spelled. */
  function Guard(disk: Disk, dirName: string, overwrite: bool): (o: Outcome)
    ensures o.completion.Threw? <==> dirName in disk.existing && !overwrite
    ensures o.completion.Threw? ==> o == Failed(Thrown(AlreadyExists(Render(Resolve(disk.cwd, dirName)))))
    ensures o.completion.Returned? ==> o.trace == (if dirName in disk.existing then [Do(RemovePath(dirName))] else [])
  {
    if dirName !in disk.existing then Outcome([], Returned)
    else if overwrite then Outcome([Do(RemovePath(dirName))], Returned)
    else Failed(Thrown(AlreadyExists(Render(Resolve(disk.cwd, dirName)))))
  }

  /** Cloning, then replacing the history by one initial commit. */
  function Reset(repo: string, dirName: string): seq<Event> {
    [ Log(StartSpinner("Cloning " + repo + " into " + dirName)),
      Do(Exec("git clone " + repo + " " + dirName, None)),
      Log(StopSpinner),
      Log(StartSpinner("Resetting repository history")),
      Do(RemoveIn(dirName, ".git")),
      Do(Exec("git init", Some(dirName))),
      Do(Exec("git add -A :/", Some(dirName))),
      Do(Exec("git commit -m 'Initial commit'", Some(dirName))),
      Log(StopSpinner) ]
  }

  /** After a successful script: the script is deleted and the result committed. */
  function Finish(dirName: string): seq<Event> {
    [ Do(RemoveIn(dirName, ScriptName)),
      Do(Exec("git add -A :/", Some(dirName))),
      Do(Exec("git commit -m 'After customization'", Some(dirName))),
      Log(StopSpinner) ]
  }

  /** Reading and running the customization script. An unreadable script logs
      the read error and ends normally; a failing script stops the spinner and
      its error is rethrown as it is in debug mode, wrapped otherwise. */
  function Customize(qualify: Qualifier, dirName: string, script: ScriptFile, debug: bool): Outcome {
    var read := [Do(ReadIn(dirName, ScriptName))];
    match script
    case Unreadable(message) => Outcome(read + [Log(Error(message))], Returned)
    case Script(calls) =>
      var ran := RunScript(qualify, dirName, calls);
      var shown := read + [Log(StartSpinner("Customizing project"))] + ran.trace;
      match ran.completion
      case Threw(f) =>
        Outcome(shown + [Log(StopSpinnerNoMessage)],
                Threw(if debug then f else Thrown("Customization script error. " + MessageOf(f))))
      case Returned => Outcome(shown + Finish(dirName), Returned)
  }

  /** `quickStart` once `git` and `node` are known to be installed. `qualifyPath`
      works on the names of `path.resolve(dirName)`. */
  function Flow(fromUrl: string -> Option<HostedInfo>, disk: Disk, debug: bool, opts: Options): Outcome {
    if opts.url == "" then Failed(Thrown(NoUrl))
    else
      var dirName := DirName(fromUrl, opts);
      Then(Guard(disk, dirName, opts.overwrite),
           Then(Outcome(Reset(RepoLocation(fromUrl, opts.url), dirName), Returned),
                Customize(QualifierOf(Resolve(disk.cwd, dirName), dirName), dirName, disk.script, debug)))
  }

  /** Without a URL nothing happens but the error. */
  lemma NoUrlRejected(fromUrl: string -> Option<HostedInfo>, disk: Disk, debug: bool, opts: Options)
    requires opts.url == ""
    ensures Flow(fromUrl, disk, debug, opts) == Failed(Thrown(NoUrl))
  {
  }

  /** An existing directory without `--overwrite` is refused with its full path,
      before anything is cloned. */
  lemma ExistingRefused(fromUrl: string -> Option<HostedInfo>, disk: Disk, debug: bool, opts: Options)
    requires opts.url != "" && DirName(fromUrl, opts) in disk.existing && !opts.overwrite
    ensures Flow(fromUrl, disk, debug, opts)
         == Failed(Thrown(AlreadyExists(Render(Resolve(disk.cwd, DirName(fromUrl, opts))))))
  {
  }

  /** With `--overwrite` the existing directory is removed, and then cloned into. */
  lemma OverwriteRemovesFirst(fromUrl: string -> Option<HostedInfo>, disk: Disk, debug: bool, opts: Options)
    requires opts.url != "" && DirName(fromUrl, opts) in disk.existing && opts.overwrite
    ensures var t := Flow(fromUrl, disk, debug, opts).trace;
      |t| >= 10 && t[0] == Do(RemovePath(DirName(fromUrl, opts)))
      && t[1..10] == Reset(RepoLocation(fromUrl, opts.url), DirName(fromUrl, opts))
  {
    var d := DirName(fromUrl, opts);
    var c := Customize(QualifierOf(Resolve(disk.cwd, d), d), d, disk.script, debug);
    var r := Reset(RepoLocation(fromUrl, opts.url), d);
    assert Flow(fromUrl, disk, debug, opts).trace == [Do(RemovePath(d))] + (r + c.trace);
  }

  /** When the directory can be used: the clone and history reset come first. */
  lemma ClonedFirst(fromUrl: string -> Option<HostedInfo>, disk: Disk, debug: bool, opts: Options)
    requires opts.url != "" && DirName(fromUrl, opts) !in disk.existing
    ensures var t := Flow(fromUrl, disk, debug, opts).trace;
      |t| >= 9 && t[..9] == Reset(RepoLocation(fromUrl, opts.url), DirName(fromUrl, opts))
  {
  }

  /** Without a readable script the read error is logged and `quickStart` returns. */
  lemma UnreadableScriptReturns(fromUrl: string -> Option<HostedInfo>, disk: Disk, debug: bool, opts: Options)
    requires opts.url != "" && (DirName(fromUrl, opts) !in disk.existing || opts.overwrite)
    requires disk.script.Unreadable?
    ensures var o := Flow(fromUrl, disk, debug, opts);
      o.completion == Returned && |o.trace| > 0 && o.trace[|o.trace| - 1] == Log(Error(disk.script.message))
  {
  }

  /** A failing script stops the spinner without a message and is rethrown as it is
      in debug mode, or wrapped; nothing is committed after it. */
  lemma ScriptFailureReported(fromUrl: string -> Option<HostedInfo>, disk: Disk, debug: bool, opts: Options)
    requires opts.url != "" && (DirName(fromUrl, opts) !in disk.existing || opts.overwrite)
    requires disk.script.Script?
    requires RunScript(QualifierOf(Resolve(disk.cwd, DirName(fromUrl, opts)), DirName(fromUrl, opts)), DirName(fromUrl, opts), disk.script.calls).completion.Threw?
    ensures var f := RunScript(QualifierOf(Resolve(disk.cwd, DirName(fromUrl, opts)), DirName(fromUrl, opts)), DirName(fromUrl, opts), disk.script.calls).completion.failure;
      var o := Flow(fromUrl, disk, debug, opts);
      && o.completion == Threw(if debug then f else Thrown("Customization script error. " + MessageOf(f)))
      && |o.trace| > 0 && o.trace[|o.trace| - 1] == Log(StopSpinnerNoMessage)
  {
  }

  /** A script that completes is deleted and its changes committed; the spinner is
      stopped last. */
  lemma ScriptSuccessCommitted(fromUrl: string -> Option<HostedInfo>, disk: Disk, debug: bool, opts: Options)
    requires opts.url != "" && (DirName(fromUrl, opts) !in disk.existing || opts.overwrite)
    requires disk.script.Script?
    requires RunScript(QualifierOf(Resolve(disk.cwd, DirName(fromUrl, opts)), DirName(fromUrl, opts)), DirName(fromUrl, opts), disk.script.calls).completion.Returned?
    ensures var o := Flow(fromUrl, disk, debug, opts);
      o.completion == Returned && |o.trace| >= 4 && o.trace[|o.trace| - 4..] == Finish(DirName(fromUrl, opts))
  {
  }
}
