# git-extra in Dafny

A model of the command-line tools of git-extra, with proofs about them.

- **`git-extra`**:
  - the typed tool, src/GitExtraTool.ts: `browse`, `pull-request`, `quick-start`;
  - its untyped predecessor, src/GitExtraTool.js.
- **`bitbucket`**, in two versions:
  - the compiled tool dist/BitbucketTool.js, with `browse` and `pull-request`;
  - the early src/BitbucketTool.js, which only dispatches.
- **The console logger of src/Logger.ts**, with its spinner.

Every tool `run`:

1. reads parsed options;
2. answers `--version` first;
3. lower-cases the command word, which defaults to `help`;
4. shows a command's usage only for `--help` without a subcommand.

Commands check that `git` (and `node`) are installed through a per-object cache (`ensureCommands`). They read the output of `git remote -vv` with a regular expression and open a browser URL.

`quick-start` does the following:

1. clones a repository;
2. replaces its history with one commit;
3. runs the repository's `git-extra-customize.js` script.

The script's file capabilities go through `qualifyPath`, which refuses paths outside the new directory.

What a tool does to the outside world is an ordered trace of events (`Effects.Outcome`): logger calls, opened URLs, executed git commands, file operations, `console.log`. The trace comes with how the call ended: it returned, or it threw a given error.

Each tool is built the same way:

- The things it observes are given as a `Machine` value:
  - installed commands;
  - command outputs;
  - the hosted-git-info parser;
  - the disk.
- Each `run` is a pure decision, `Decide`, followed by its execution, `Execute`.
- A `class Tool` per tool holds the `ensureCommands` cache, `Commands.CommandCache`, and updates it in place.
- The tool's methods are proved equal to those functions.

The `while (re.exec(...))` and `for ... of` loops of the source are methods with loop invariants.

Modules:

| module | models |
|---|---|
| `Effects` | events, failures, outcomes, exit codes |
| `JsText` | `trim`, `toLowerCase`, the `gm` line view, `[a-zA-Z0-9-]` and `\s`, unanchored search |
| `PosixPath` | `path.resolve` and `path.basename` |
| `CliArgs` | the option record, command word, `--help` rule and version line |
| `Commands` | `ensureCommands` |
| `HostedRemotes` | the remote pattern of the typed tool: a dictionary of hosted-git-info records |
| `SshRemotes` | the SSH remote pattern of the untyped tools: a list of records |
| `QuickStart` | `quickStart` and the customization script |
| `GitExtraTs` | src/GitExtraTool.ts |
| `GitExtraJs` | src/GitExtraTool.js |
| `BitbucketDist` | dist/BitbucketTool.js |
| `BitbucketSrc` | src/BitbucketTool.js |
| `ConsoleLog` | src/Logger.ts |

Where the two `GitExtraTool` versions differ, each model follows its own code:

- **Branch.** In the `.js` version `getBranch` assigns to a `const`. A detached `HEAD` therefore throws a `TypeError` instead of becoming `master`.
- **Missing remote in `browse`.** The `.js` warning names `remote`, which is not in scope there, so it throws a `ReferenceError`.
- **Missing remote in `pullRequest`.** The `.js` version logs an error; the `.ts` version throws.
- **Missing remote warning in `.ts`.** The `.ts` warning prints the looked-up value, which is always `undefined`.
- **`quick-start` in `.js`.** It has no `qst` alias and does nothing.

## Model

| member | source | states |
|---|---|---|
| Effects.OpensAnnounced | src/GitExtraTool.ts:114-116 | logging the announcement and then opening a URL opens exactly that one URL |
| JsText.Trim | src/GitExtraTool.ts:89 | `trim` leaves no `\s` at either end of what it returns |
| JsText.TrimStart | src/GitExtraTool.ts:89 | the leading part removed is all whitespace; what is left is a suffix that starts with a non-space |
| JsText.TrimEnd | src/GitExtraTool.ts:89 | the trailing part removed is all whitespace; what is left is a prefix that ends with a non-space |
| JsText.TrimPadded | src/GitExtraTool.ts:89 | text without surrounding whitespace comes back unchanged from any whitespace padding |
| JsText.TrimIdempotent | src/GitExtraTool.ts:89 | trimming twice is trimming once |
| JsText.Lower | src/GitExtraTool.ts:320 | `toLowerCase` keeps the length and lowers each ASCII capital by 32, leaving other characters as they are |
| JsText.LowerChar | src/GitExtraTool.ts:320 | one character: capitals move by 32, everything else stays |
| JsText.LowerIdempotent | src/GitExtraTool.ts:320 | lower-casing twice is lower-casing once |
| JsText.LineSpaceIsJsSpace | src/GitExtraTool.ts:72 | the `\s` that can match inside one line is `\s` minus the line terminators |
| JsText.LineSpaceIsNotWordChar | src/GitExtraTool.ts:72 | no space is in `[a-zA-Z0-9-]`, so a name never runs into its separator |
| JsText.WordRun | src/GitExtraTool.ts:72 | greedy `[a-zA-Z0-9-]+`: every character up to the end is a word character and the next is not |
| JsText.SpaceRun | src/GitExtraTool.ts:72 | greedy `\s+` within a line: every character up to the end is a space and the next is not |
| JsText.WordRunExact | src/GitExtraTool.ts:72 | any run of word characters that stops at a non-word character is the one the greedy run finds |
| JsText.SpaceRunCovers | src/GitExtraTool.ts:72 | the greedy space run reaches at least as far as any run of spaces |
| JsText.WordRunAt | src/GitExtraTool.js:73 | a word laid down at a position, followed by a non-word character, is the greedy run there |
| JsText.SpaceRunAt | src/GitExtraTool.js:73 | a run of spaces laid down at a position, followed by a non-space, is the greedy run there |
| JsText.LineEnd | src/GitExtraTool.ts:71-74 | the first line terminator at or after a position, with no terminator before it |
| JsText.Lines | src/GitExtraTool.ts:71-74 | with the `m` flag `^` and `$` cut the output at every line terminator: there is always at least one line |
| JsText.LinesAreSingle | src/GitExtraTool.ts:71-74 | no line of the `m`-flag view holds a line terminator |
| JsText.LinesOfOneLine | src/GitExtraTool.ts:71-74 | text without a terminator is a single line |
| JsText.LinesCons | src/GitExtraTool.ts:71-74 | a terminated first line splits off, and the rest splits on its own |
| JsText.ContainsAt | dist/BitbucketTool.js:101 | an occurrence at any position makes the unanchored search succeed |
| JsText.ContainsWitness | dist/BitbucketTool.js:101 | a successful unanchored search has an occurrence at some position |
| JsText.ContainsInfix | dist/BitbucketTool.js:101 | a string contains anything spliced into its middle |
| JsText.ContainsShorter | dist/BitbucketTool.js:101 | nothing longer than a string occurs in it |
| JsText.ContainsSameLength | dist/BitbucketTool.js:101 | of the strings of its own length, a string contains only itself |
| PosixPath.NextSlash | src/GitExtraTool.ts:209 | the first `/` at or after a position, with none before it |
| PosixPath.Split | src/GitExtraTool.ts:209 | splitting on `/` always gives at least one component |
| PosixPath.SplitJoin | src/GitExtraTool.ts:209 | joining the components with `/` gives the path back |
| PosixPath.WalkNames | src/GitExtraTool.ts:168 | resolving keeps a normalised path normalised: no empty, `.` or `..` names |
| PosixPath.WalkDescends | src/GitExtraTool.ts:209 | without `..` resolution only descends: the base stays in front |
| PosixPath.Render | src/GitExtraTool.ts:168 | `path.resolve` spells an absolute path |
| PosixPath.RenderPrefix | src/GitExtraTool.ts:211 | a path below a directory is spelled with the directory's spelling in front |
| PosixPath.JoinAppend | src/GitExtraTool.ts:209 | joining two non-empty name lists inserts one `/` between them |
| PosixPath.Basename | src/GitExtraTool.ts:165 | `path.basename` never contains a `/` |
| PosixPath.LastNameIsComponent | src/GitExtraTool.ts:165 | the basename is one of the components, or empty |
| PosixPath.SplitHasNoSlash | src/GitExtraTool.ts:165 | no component of a split contains `/` |
| PosixPath.BasenameIsComponent | src/GitExtraTool.ts:165 | the last non-empty component has no `/` |
| CliArgs.CommandOf | src/GitExtraTool.ts:318-320 | a falsy command word becomes `help`, a word is lower-cased, and only a numeric word throws, since numbers have no `toLowerCase` |
| CliArgs.VersionLine | src/GitExtraTool.ts:313-316 | the version line is `v` followed by the full version |
| Commands.Unknown | src/GitExtraTool.ts:56 | exactly the given commands not yet known are queried, and no others |
| Commands.Ensured | src/GitExtraTool.ts:53-66 | the known set only grows; the call returns iff every command is known or installed, and then all are known; a missing one rejects and adds nothing; nothing outside the call is added |
| Commands.EnsureTwiceQueriesNothing | src/GitExtraTool.ts:53-66 | after a successful call, the same call queries no command |
| Commands.NothingUnknown | src/GitExtraTool.ts:56 | when every command is known, nothing is queried |
| Commands.CommandCache.constructor | src/GitExtraTool.ts:54 | the cache starts empty |
| Commands.CommandCache.Ensure | src/GitExtraTool.ts:53-66 | the loop adding commands one by one leaves the state `Ensured` describes, having queried exactly the unknown commands |
| HostedRemotes.CutOf | src/GitExtraTool.ts:71-74 | the positions of a match, in order and within the line |
| HostedRemotes.CutIsParse | src/GitExtraTool.ts:71-74 | what the matcher finds is a match of `^name\s+url\s+\(fetch\)$` |
| HostedRemotes.CutIsFirst | src/GitExtraTool.ts:71-74 | every match of the line is dominated by the one found: same name, and the URL starts later, or at the same place and ends no earlier. The matcher succeeds on every matching line and takes the match backtracking tries first |
| HostedRemotes.MatchLineSound | src/GitExtraTool.ts:71-74 | the name of each entry is a word that starts its line, and the line ends in `(fetch)` |
| HostedRemotes.KeysAreNames | src/GitExtraTool.ts:78-82 | a name is a key of `remotes` exactly when some line matched with that name |
| HostedRemotes.LastLineWins | src/GitExtraTool.ts:78-82 | the value of a name is hosted-git-info's record of the URL on the last line with that name |
| HostedRemotes.FillRemotes | src/GitExtraTool.ts:75-84 | the `while (re.exec(...))` loop builds the dictionary `RemoteMap` defines |
| HostedRemotes.CollectRemotes | src/GitExtraTool.ts:68-85 | `getRemotes` returns the dictionary `ParseRemotes` defines for the listing |
| SshRemotes.SiteAt | src/GitExtraTool.js:73 | the alternation `bitbucket\.org\|github\.com` matches exactly when one of the two sites is there, and gives that site |
| SshRemotes.SlugEnd | src/GitExtraTool.js:73 | the slug, after giving characters back, ends inside the greedy word run |
| SshRemotes.SlugEndGreedy | src/GitExtraTool.js:73 | the slug ends where `.git\s+\(fetch\)$` matches and is the longest such slug; with no such end, the tail matches nowhere |
| SshRemotes.HeadOf | src/GitExtraTool.js:73 | the head match ends after a non-empty name |
| SshRemotes.HeadOfSound | src/GitExtraTool.js:73 | the name is a word and the site one of the two hosts |
| SshRemotes.PathSpans | src/GitExtraTool.js:73 | the user and slug spans lie after the colon, in order, within the line |
| SshRemotes.PathSpansSound | src/GitExtraTool.js:73 | the user and slug are words and the line ends in `(fetch)` |
| SshRemotes.MatchSpans | src/GitExtraTool.js:73 | the spans of a match lie within the line |
| SshRemotes.MatchSpansSound | src/GitExtraTool.js:73 | every span of a match has the pattern's character class |
| SshRemotes.MatchLineSound | src/GitExtraTool.js:73 | each record has word name, user and slug and a known site; its name starts the line; the line ends in `(fetch)` |
| SshRemotes.Collect | src/GitExtraTool.js:80-84 | at most one record per line |
| SshRemotes.CollectWellFormed | src/GitExtraTool.js:80-84 | every record read from a listing satisfies the pattern's character classes |
| SshRemotes.CollectEach | src/GitExtraTool.js:77-86 | the `while (re.exec(...))` loop pushes the records `Collect` defines, in line order |
| SshRemotes.CollectRemotes | src/GitExtraTool.js:66-87 | `getRemotes` returns the records `ParseRemotes` defines |
| SshRemotes.FirstNamed | src/GitExtraTool.js:127-130 | `find` by name gives the first record of the name, or none when no record has it |
| SshRemotes.FetchLineMatches | src/GitExtraTool.js:73 | a well-formed record read back from its own fetch line is itself, for any separators |
| SshRemotes.LaidOutMatches | src/GitExtraTool.js:73 | a line whose pieces are those of a record, in order, with any character but a line end in the place of the unescaped `.`, yields that record; the greedy slug gives back exactly the characters after the record's slug |
| SshRemotes.AnyDotFetchLineMatches | src/GitExtraTool.js:73 | a fetch line with any character but a line end before `git`, such as `repoXgit`, still yields the record whose slug stops before that character |
| SshRemotes.PushLineIgnored | src/GitExtraTool.js:73 | a `(push)` line never yields a record |
| SshRemotes.ParseListing | src/GitExtraTool.js:66-87 | the usual listing, a fetch line and a push line per remote, gives back each remote once, in order |
| SshRemotes.DuplicatesKept | src/GitExtraTool.js:80-84 | the same fetch line twice gives the record twice, since a list keeps duplicates |
| QuickStart.Qualify | src/GitExtraTool.ts:208-216 | `qualifyPath` accepts exactly the paths whose resolved spelling starts with the directory's spelling, and returns that spelling; otherwise it throws `Path p not under dirName` |
| QuickStart.QualifyAcceptsDescendants | src/GitExtraTool.ts:208-216 | every path that resolves below the directory is accepted |
| QuickStart.QualifyAcceptsPlainRelative | src/GitExtraTool.ts:208-216 | every relative path without `..` is accepted |
| QuickStart.QualifyRejectsParent | src/GitExtraTool.ts:208-216 | the directory's parent is refused, with its message |
| QuickStart.QualifyRejectsElsewhere | src/GitExtraTool.ts:208-216 | an absolute path elsewhere is refused |
| QuickStart.QualifyAcceptsSibling | src/GitExtraTool.ts:211 | the test is textual: `../proj2` from `/proj` is accepted although it is not inside it |
| QuickStart.QualifierKeepsUnder | src/GitExtraTool.ts:208-216 | every path the project's `qualifyPath` returns is spelled with the directory in front |
| QuickStart.Perform | src/GitExtraTool.ts:226-270 | a context call that throws has done nothing |
| QuickStart.Checked | src/GitExtraTool.ts:248-258 | a file capability acts iff its path is accepted, and then on the qualified path; otherwise it throws the qualifier's error |
| QuickStart.PerformFailure | src/GitExtraTool.ts:248-270 | a context call fails only with a path error or an error of the script |
| QuickStart.MoveChecksBoth | src/GitExtraTool.ts:254-255 | `move` qualifies its source and then its target, and moves only when both are accepted |
| QuickStart.ScriptFailure | src/GitExtraTool.ts:273-276 | the script fails only with a path error or an error of its own |
| QuickStart.ForceAddTouches | src/GitExtraTool.ts:265-269 | `git.forceAdd` touches exactly the qualified path |
| QuickStart.PerformConfined | src/GitExtraTool.ts:248-270 | each context call touches only paths under the directory's spelling |
| QuickStart.ScriptConfined | src/GitExtraTool.ts:220-276 | whatever the script does, it only reads, writes, removes, moves, creates or force-adds paths spelled with the accepted prefix |
| QuickStart.ProjectScriptConfined | src/GitExtraTool.ts:206-276 | the customization script stays in the project directory, in the textual sense of `qualifyPath` |
| QuickStart.DirName | src/GitExtraTool.ts:156-166 | the given directory wins, else the project of a recognised URL, else the URL's basename, which has no `/` |
| QuickStart.Guard | src/GitExtraTool.ts:168-178 | it throws iff the directory exists and `--overwrite` is off, naming the resolved path; otherwise it removes the directory only if it exists |
| QuickStart.NoUrlRejected | src/GitExtraTool.ts:152-154 | without a URL `quickStart` throws before doing anything |
| QuickStart.ExistingRefused | src/GitExtraTool.ts:170-178 | an existing directory without `--overwrite` is refused with its full path and nothing is cloned |
| QuickStart.OverwriteRemovesFirst | src/GitExtraTool.ts:170-189 | with `--overwrite` an existing directory is removed first, then cloned into and its history reset |
| QuickStart.ClonedFirst | src/GitExtraTool.ts:180-189 | the clone and history reset open the trace when the directory is free |
| QuickStart.UnreadableScriptReturns | src/GitExtraTool.ts:191-204 | an unreadable script logs the read error last and returns normally |
| QuickStart.ScriptFailureReported | src/GitExtraTool.ts:273-284 | a failing script stops the spinner silently; its error is rethrown as it is in debug mode and wrapped as `Customization script error. ...` otherwise; nothing is committed |
| QuickStart.ScriptSuccessCommitted | src/GitExtraTool.ts:286-292 | after a script that completes, the script is deleted, the result committed and the spinner stopped last |
| GitExtraTs.BranchOfPadded | src/GitExtraTool.ts:87-96 | the branch git prints, whatever whitespace surrounds it, is read as is, and `HEAD` becomes `master` |
| GitExtraTs.BranchSettled | src/GitExtraTool.ts:87-96 | the branch is never `HEAD`, and reading it again changes nothing |
| GitExtraTs.BrowseOpens | src/GitExtraTool.ts:98-117 | `browse` always returns. It opens a URL exactly when the name maps to a recognised remote, and then just the browse URL of that remote on the current branch; otherwise it only warns |
| GitExtraTs.PullRequestUrlShape | src/GitExtraTool.ts:135-143 | only the source's domain picks the template: off GitHub the target plays no part and the URL ends in `/pull-request/new`; on GitHub it is the target's compare page |
| GitExtraTs.PullRequestErrors | src/GitExtraTool.ts:119-147 | a missing source throws first, then a missing target; it returns iff both are found, and then opens exactly the pull request URL |
| GitExtraTs.Gated | src/GitExtraTool.ts:99 | an operation after `ensureCommands` either rejects as not installed or is the operation itself, and it is the operation whenever the commands are known or installed |
| GitExtraTs.GeneralHelpMentionsHelp | src/GitExtraTool.ts:388-407 | the general help lists `--help` |
| GitExtraTs.TextOf | src/GitExtraTool.ts:381-385 | a positional reads as missing exactly when it is falsy |
| GitExtraTs.Decimal | src/GitExtraTool.ts:381-385 | a number's spelling is never empty |
| GitExtraTs.RunVersionFirst | src/GitExtraTool.ts:313-316 | `--version` shows the version line and does nothing else |
| GitExtraTs.ChooseIgnoresWord | src/GitExtraTool.ts:322-386 | the switch reads the positionals after the command word only |
| GitExtraTs.RunSameCommand | src/GitExtraTool.ts:318-326 | upper-case spellings and the aliases `prq`, `brw`, `qst` select the same action as `pull-request`, `browse`, `quick-start` |
| GitExtraTs.RunOtherHelp | src/GitExtraTool.ts:388-407 | any other command word, and none, shows the general help, which lists `--help` |
| GitExtraTs.RunCommands | src/GitExtraTool.ts:324-386 | each command gets its options (`--remote`, `--to-remote`, positionals 1-2, `--overwrite`), or its usage with `--help` and no subcommand |
| GitExtraTs.ExecuteExit | src/GitExtraTool.ts:294-411 | the value `run` settles to, taken path by path from its `return 0` and `break` sites, is 0 exactly when the body did not throw, and otherwise the thrown failure; the commands known afterwards are those `ensureCommands` leaves for what the action needs; showing a text or rejecting queries no command |
| GitExtraTs.Tool.constructor | src/GitExtraTool.ts:47-51 | the tool keeps its name and debug flag; its command cache starts empty |
| GitExtraTs.Tool.GetRemotes | src/GitExtraTool.ts:68-85 | `getRemotes` returns the dictionary `ParseRemotes` defines |
| GitExtraTs.Tool.Browse | src/GitExtraTool.ts:98-117 | `browse` updates the cache and ends as `Execute` describes; the commands it needs that were not yet known are appended to those asked of the system |
| GitExtraTs.Tool.PullRequest | src/GitExtraTool.ts:119-147 | `pullRequest` updates the cache and ends as `Execute` describes; the commands it needs that were not yet known are appended to those asked of the system |
| GitExtraTs.Tool.QuickStart | src/GitExtraTool.ts:149-293 | `quickStart` checks `git` and `node`, reads the tool's debug flag and ends as `Execute` describes; the commands it needs that were not yet known are appended to those asked of the system |
| GitExtraTs.Tool.Carry | src/GitExtraTool.ts:324-408 | each action of the switch is carried out as `Execute` describes; the commands it needs that were not yet known are appended to those asked of the system |
| GitExtraTs.Tool.Run | src/GitExtraTool.ts:295-411 | `run` sets `debug` from `--debug`, then updates the cache and ends as `RunOutcome` describes; the commands it needs that were not yet known are appended to those asked of the system, and returns the value `ExecuteExit` is about |
| GitExtraJs.GetBranch | src/GitExtraTool.js:89-98 | `getBranch` throws a `TypeError` exactly on a detached `HEAD`, since `branch` is a `const`; otherwise it gives the trimmed output |
| GitExtraJs.GetBranchPadded | src/GitExtraTool.js:89-98 | a padded branch name reads as the bare name, and `HEAD` throws |
| GitExtraJs.BrowseUrl | src/GitExtraTool.js:106-113 | the page starts with the remote's site, user and slug, and ends in `/tree/` and the branch on GitHub, `/src?at=` and the branch elsewhere |
| GitExtraJs.BrowseUrlReadsBack | src/GitExtraTool.js:106-113 | the branch is what follows the page of the empty branch |
| GitExtraJs.BrowseUrlInjective | src/GitExtraTool.js:106-113 | different branches of one remote open different pages |
| GitExtraJs.BrowseOpensFirst | src/GitExtraTool.js:100-119 | `browse` opens exactly the page of the first remote with the name |
| GitExtraJs.BrowseMissingThrows | src/GitExtraTool.js:121 | without a remote of the name, the warning's reference to `remote` throws a `ReferenceError` |
| GitExtraJs.PullRequestUrlAgrees | src/GitExtraTool.js:142-150 | the URL is the one the typed tool builds for the same host, names and branch |
| GitExtraJs.PullRequestOutcome | src/GitExtraTool.js:132-140 | `pullRequest` never throws once the remotes and branch are known; it logs its errors |
| GitExtraJs.PullRequestOrder | src/GitExtraTool.js:124-154 | a missing source is reported first, then a missing target. It opens a URL iff both are found, and then only the URL built from the first remote of each name |
| GitExtraJs.DetachedHeadThrows | src/GitExtraTool.js:89-98 | a detached `HEAD` makes `browse` and `pullRequest` throw once `git` is known |
| GitExtraJs.RunVersionFirst | src/GitExtraTool.js:182-185 | `--version` shows the version line and does nothing else |
| GitExtraJs.NoQuickStartAlias | src/GitExtraTool.js:235-253 | `qst` is not a command here: it shows the general help |
| GitExtraJs.RunCommands | src/GitExtraTool.js:193-272 | each command and alias gets its options or usage; every other word gets the general help |
| GitExtraJs.ExecuteExit | src/GitExtraTool.js:164-275 | the value `run` settles to, taken path by path from its `return 0` and `break` sites, is 0 exactly when the body did not throw, and otherwise the thrown failure; the commands known afterwards are those `ensureCommands` leaves for what the action needs; `pullRequest` never throws once `git` is known and the branch is not a detached `HEAD` |
| GitExtraJs.Tool.constructor | src/GitExtraTool.js:38-49 | the tool keeps its name and debug flag; its command cache starts empty |
| GitExtraJs.Tool.OpenFirst | src/GitExtraTool.js:104-121 | the `for ... of` loop opens the first remote of the name, as `BrowseOutcome` describes |
| GitExtraJs.Tool.Browse | src/GitExtraTool.js:100-122 | `browse` updates the cache and ends as `Execute` describes; the commands it needs that were not yet known are appended to those asked of the system |
| GitExtraJs.Tool.PullRequest | src/GitExtraTool.js:124-154 | `pullRequest` updates the cache and ends as `Execute` describes; the commands it needs that were not yet known are appended to those asked of the system |
| GitExtraJs.Tool.Carry | src/GitExtraTool.js:193-272 | each action of the switch is carried out as `Execute` describes; the commands it needs that were not yet known are appended to those asked of the system |
| GitExtraJs.Tool.Run | src/GitExtraTool.js:164-275 | `run` sets `debug`, then updates the cache and ends as `RunOutcome` describes; the commands it needs that were not yet known are appended to those asked of the system, and returns the value `ExecuteExit` is about |
| BitbucketDist.UpstreamAnywhere | dist/BitbucketTool.js:101 | with `--upstream`, any name with `upstream`, `official` or `parent` anywhere inside is selected |
| BitbucketDist.OriginIsNotUpstream | dist/BitbucketTool.js:101 | `origin` is never taken for an upstream |
| BitbucketDist.FirstSelected | dist/BitbucketTool.js:100-109 | the first remote the test selects, or none when no remote passes it |
| BitbucketDist.BrowseOutcome | dist/BitbucketTool.js:97-112 | `browse` never throws once the remotes are known |
| BitbucketDist.BrowseOpens | dist/BitbucketTool.js:97-112 | `browse` opens the page of the first remote it selects, and nothing when it selects none |
| BitbucketDist.Inspections | dist/BitbucketTool.js:119 | one `console.log` record per remote, in order, with its four fields |
| BitbucketDist.PullRequestStopsAtOrigin | dist/BitbucketTool.js:114-132 | the remotes up to and including the first `origin` are printed, then its pull request page opened; without an origin every remote is printed and the warning follows |
| BitbucketDist.RunCommands | dist/BitbucketTool.js:134-216 | `--version` first; the aliases; `--upstream` reaches `browse`; every other word gets the general help, which lists `--help` |
| BitbucketDist.ExecuteExit | dist/BitbucketTool.js:134-216 | the value `run` settles to, taken path by path from its `return 0` and `break` sites, is 0 exactly when the body did not throw, and otherwise the thrown failure; only a missing `git` or a numeric command word throws; the commands known afterwards are those `ensureCommands` leaves for what the action needs |
| BitbucketDist.Tool.constructor | dist/BitbucketTool.js:53-56 | the tool keeps its name; its command cache starts empty |
| BitbucketDist.Tool.OpenSelected | dist/BitbucketTool.js:100-111 | the loop opens the first selected remote, as `BrowseOutcome` describes |
| BitbucketDist.Tool.PrintUntilOrigin | dist/BitbucketTool.js:118-131 | the loop's trace is `PullRequestTrace` |
| BitbucketDist.Tool.Browse | dist/BitbucketTool.js:97-112 | `browse` updates the cache and ends as `Execute` describes; the commands it needs that were not yet known are appended to those asked of the system |
| BitbucketDist.Tool.PullRequest | dist/BitbucketTool.js:114-132 | `pullRequest` updates the cache and ends as `Execute` describes; the commands it needs that were not yet known are appended to those asked of the system |
| BitbucketDist.Tool.Run | dist/BitbucketTool.js:134-216 | `run` updates the cache and ends as `RunOutcome` describes; the commands it needs that were not yet known are appended to those asked of the system, and returns the value `ExecuteExit` is about |
| BitbucketSrc.VersionFirst | src/BitbucketTool.js:26-29 | `--version` logs the version line, does nothing else and resolves to 0 |
| BitbucketSrc.ExitIsZero | src/BitbucketTool.js:16-72 | the value `run` settles to, taken from its `return 0` sites, is 0 exactly when the body did not throw, and otherwise the thrown failure, a `TypeError`; the body throws exactly when `--version` is absent and the command word is a number |
| BitbucketSrc.PullRequestSilent | src/BitbucketTool.js:36-49 | `pull-request` or `prq` without `--help`, or with a subcommand, logs nothing |
| BitbucketSrc.PullRequestUsageShown | src/BitbucketTool.js:38-47 | `pull-request --help` without a subcommand logs the command's usage |
| BitbucketSrc.OtherCommandsHelp | src/BitbucketTool.js:51-68 | every other command word, and none, logs the general help, which lists `--help` |
| ConsoleLog.ConfigOf | src/Logger.ts:26-34 | each container part wins over its default; a container's `setInterval` also becomes `clearInterval`; the delay defaults to 250 |
| ConsoleLog.StopNoMessage | src/Logger.ts:78-88 | `stopSpinnerNoMessage` answers whether a spinner was live, leaves none live, and touches neither stderr nor the title |
| ConsoleLog.StopNoMessageEffects | src/Logger.ts:78-88 | it erases the line and cancels the timer exactly when a spinner was live |
| ConsoleLog.StopOutput | src/Logger.ts:90-94 | `stopSpinner` writes the check-mark line with the spinner's title only when one was live, and nothing else reaches the output |
| ConsoleLog.StopIdempotent | src/Logger.ts:90-94 | a second `stopSpinner` does nothing |
| ConsoleLog.Tick | src/Logger.ts:58-66 | each redraw keeps the frame index within the fourteen frames |
| ConsoleLog.Start | src/Logger.ts:51-72 | starting keeps the frame index within the frames |
| ConsoleLog.StartEffects | src/Logger.ts:51-72 | a live spinner is finished with its old title first. Then the new title is taken, the timer scheduled with the configured delay, one frame drawn and the handle held |
| ConsoleLog.Ticks | src/Logger.ts:58-66 | any number of redraws keeps the index within the frames |
| ConsoleLog.TicksCycle | src/Logger.ts:58-66 | after `n` redraws the index has moved `n` places modulo fourteen and the frames drawn are those from the old index on |
| ConsoleLog.SayEffects | src/Logger.ts:36-49 | each log call stops the spinner and then writes exactly one line to stderr |
| ConsoleLog.ConsoleLogger.constructor | src/Logger.ts:26-34 | the logger takes its configuration from the container and starts with no spinner and empty output |
| ConsoleLog.ConsoleLogger.StopSpinnerNoMessage | src/Logger.ts:78-88 | the object changes as `StopNoMessage` describes and answers whether a spinner was live |
| ConsoleLog.ConsoleLogger.StopSpinner | src/Logger.ts:90-94 | the object changes as `Stop` describes |
| ConsoleLog.ConsoleLogger.SpinnerTick | src/Logger.ts:58-66 | the timer callback changes the object as `Tick` describes |
| ConsoleLog.ConsoleLogger.StartWith | src/Logger.ts:51-72 | starting with a title changes the object as `Start` describes |
| ConsoleLog.ConsoleLogger.StartSpinner | src/Logger.ts:51-72 | `startSpinner(line)` changes the object as `Start` with that title |
| ConsoleLog.ConsoleLogger.RestartSpinner | src/Logger.ts:74-76 | `restartSpinner` starts again with the stored title |
| ConsoleLog.ConsoleLogger.Info | src/Logger.ts:36-39 | `info` stops the spinner and writes the arguments joined by spaces |
| ConsoleLog.ConsoleLogger.Warning | src/Logger.ts:41-44 | `warning` stops the spinner and writes `warning:` and the arguments |
| ConsoleLog.ConsoleLogger.Error | src/Logger.ts:46-49 | `error` stops the spinner and writes `error:` and the arguments |

## Left out

- **The regular expressions across lines.** They are modelled one line at a time. With the `m` flag, `\s+` could also match across a line break; those matches spanning two lines are not modelled.
- **`toLowerCase`.** Modelled on ASCII letters only.
- **Option parsing.** `minimist` is not modelled. Its result is the `CliArgs.Args` record with defaults applied, and a positional is a word or a number. One consequence: minimist stores `--to-remote` under `to-remote`, while the tools read `toRemote`, which keeps its default. The model takes `toRemote` as given.
- GitExtraTs.TextOf: a numeric positional given to `quick-start` is read by its decimal spelling. Node's `path` functions would reject a number with a `TypeError`.
- **Object-prototype keys.** In the typed tool's `remotes[...]` lookup, inherited keys such as `constructor` are not modelled; a missing key reads as `undefined`.
- **Timers.** The logger's timers are not run: `setInterval` scheduling and the callback's timing are left out. A redraw is the explicit `Tick`, and the handle `setInterval` returns is a parameter.
- **Colours.** `chalk` is taken at colour level 0, so coloured text is the plain text. `os.EOL` is `"\n"`.
- **The outside world.** Process execution, browser opening and file system operations are modelled as events that succeed. Their own failures, and everything about concurrency and `await` timing, are left out. The outputs of git commands are parameters.
- **hosted-git-info.** `fromUrl`, `toString` and `browse("")` are parameters: its URL grammar is not modelled.
- **Paths.** `fs.existsSync` is tested on the directory's spelling, against a given set of spellings. `path.resolve` works on a normalised working directory given as its names, on POSIX.
- **Help texts.** Usage and help texts, except the early `BitbucketTool` ones, are reduced to their first line. The general help is reduced to its title and the `--help` line.
- **The `exists[cmd]` branch of `ensureCommands`.** It indexes an array by name, so it is never taken, and its error message can never be thrown. A missing command rejects inside `command-exists` instead, which is `NotInstalled`.
- **The customization script.** This part is not modelled:
  - its JavaScript itself, represented by the calls it makes on its context, in order;
  - `name.pascal` and the `path.*` helpers, which touch no file;
  - `args.projectName` and `args.userName`, which use `os.userInfo`;
  - question validation in `ui.prompts`, and the answers it returns;
  - a script that catches an error of `qualifyPath` and goes on: the model stops the script at its first error.
- **The readline module injected through the logger's container.** Not modelled; the terminal operations are events.
- Entry-point scripts (src/git-extra.ts, src/git-extra.js, src/bit.js, dist/bucket.js), src/Log.js and the other compiled copies under dist/ are not part of this model.
