/** The remote grammar of src/GitExtraTool.ts: each line of `git remote -vv`
    output that matches
      ^(?<name>[a-zA-Z0-9-]+)\s+(?<url>.*)\s+\(fetch\)$
    maps its name to what `hostedGitInfo.fromUrl(url)` gives; a later line with
    the same name replaces an earlier one. `fromUrl` is an oracle. */
module HostedRemotes {
  import opened Effects
  import opened JsText

  /** The parts of a hosted-git-info record the tool reads: the host's domain, the
      user and project, the `committish` a browse URL is built with, and what
      `toString()` gives. */
  datatype HostedInfo = HostedInfo(domain: string, user: string, project: string, committish: string, text: string)

  /** Where the groups of one match lie: the name is `l[..nameEnd]` and the URL
      `l[urlStart..urlEnd]`. */
  datatype Cut = Cut(nameEnd: nat, urlStart: nat, urlEnd: nat)

  predicate AllSpaces(l: string, a: nat, b: nat)
    requires a <= b <= |l|
  {
    forall k :: a <= k < b ==> IsLineSpace(l[k])
  }

  /** One way the pattern can match `l`: a name up to `n`, spaces up to `w`, the URL
      up to `e`, then spaces and `(fetch)` at the end of the line. */
  predicate IsParse(l: string, c: Cut) {
    && 0 < c.nameEnd < c.urlStart <= c.urlEnd && c.urlEnd + 8 <= |l|
    && (forall k :: 0 <= k < c.nameEnd ==> IsWordChar(l[k]))
    && AllSpaces(l, c.nameEnd, c.urlStart) && AllSpaces(l, c.urlEnd, |l| - 7)
    && HasAt(l, |l| - 7, "(fetch)")
  }

  /** The match backtracking finds. The name is the whole run of word characters.
      `\s+` first takes every space after it and `.*` the rest of the line; `.*`
      gives back characters until one space and `(fetch)` remain, and `\s+` gives
      back spaces only when it has swallowed that last space itself. */
  function CutOf(l: string): (c: Option<Cut>)
    ensures c.Some? ==> c.value.nameEnd <= c.value.urlStart <= c.value.urlEnd <= |l|
  {
    var n := WordRun(l, 0);
    var s := SpaceRun(l, n);
    if n == 0 || s == n || |l| < n + 9 || !HasAt(l, |l| - 7, "(fetch)") || !IsLineSpace(l[|l| - 8]) then None
    else
      var t := |l| - 8;
      Some(Cut(n, if s <= t then s else t, t))
  }

  /** What `CutOf` finds is a match. */
  lemma CutIsParse(l: string)
    ensures CutOf(l).Some? ==> IsParse(l, CutOf(l).value)
  {
  }

  /** Every match is dominated by the one `CutOf` finds: same name, and the URL
      starts no earlier, or at the same place and ends no earlier. So a line
      matches if and only if `CutOf` finds something, and then it finds the match
      the backtracking order of the greedy quantifiers tries first. */
  lemma CutIsFirst(l: string, c: Cut)
    requires IsParse(l, c)
    ensures CutOf(l).Some?
    ensures var d := CutOf(l).value;
      d.nameEnd == c.nameEnd && (d.urlStart > c.urlStart || (d.urlStart == c.urlStart && d.urlEnd >= c.urlEnd))
  {
    var n := c.nameEnd;
    LineSpaceIsNotWordChar(l[n]);
    WordRunExact(l, 0, n);
    SpaceRunCovers(l, n, c.urlStart);
    assert IsLineSpace(l[|l| - 8]);
  }

  datatype Entry = Entry(name: string, url: string)

  /** The groups of the match of one line, if it matches. */
  function MatchLine(l: string): Option<Entry> {
    match CutOf(l)
    case Some(c) => Some(Entry(l[..c.nameEnd], l[c.urlStart..c.urlEnd]))
    case None => None
  }

  /** The name of every entry is a word that starts its line, and its line ends in
      `(fetch)`; push lines never match. */
  lemma MatchLineSound(l: string)
    ensures MatchLine(l).Some? ==> IsWord(MatchLine(l).value.name) && StartsWith(l, MatchLine(l).value.name)
    ensures MatchLine(l).Some? ==> EndsWith(l, "(fetch)")
  {
    if CutOf(l).Some? {
      var c := CutOf(l).value;
      assert l[|l| - 7..] == "(fetch)" by {
        HasAtSlice(l, |l| - 7, "(fetch)");
      }
    }
  }

  /** `remotes[name]`: a missing key reads as `undefined`. */
  function Lookup(remotes: map<string, Option<HostedInfo>>, name: string): Option<HostedInfo> {
    if name in remotes then remotes[name] else None
  }

  /** The dictionary after the lines `lines`, in order. */
  function RemoteMap(m: string -> Option<Entry>, fromUrl: string -> Option<HostedInfo>, lines: seq<string>): map<string, Option<HostedInfo>>
    decreases |lines|
  {
    if lines == [] then map[]
    else
      var before := RemoteMap(m, fromUrl, lines[..|lines| - 1]);
      match m(lines[|lines| - 1])
      case None => before
      case Some(e) => before[e.name := fromUrl(e.url)]
  }

  /** A name is a key exactly when some line matched with that name. */
  lemma {:induction false} KeysAreNames(m: string -> Option<Entry>, fromUrl: string -> Option<HostedInfo>, lines: seq<string>, name: string)
    ensures name in RemoteMap(m, fromUrl, lines)
        <==> exists k :: 0 <= k < |lines| && m(lines[k]).Some? && m(lines[k]).value.name == name
    decreases |lines|
  {
    if lines != [] {
      var init := lines[..|lines| - 1];
      KeysAreNames(m, fromUrl, init, name);
      if exists k :: 0 <= k < |init| && m(init[k]).Some? && m(init[k]).value.name == name {
        var k :| 0 <= k < |init| && m(init[k]).Some? && m(init[k]).value.name == name;
        assert lines[k] == init[k];
      }
      if exists k :: 0 <= k < |lines| && m(lines[k]).Some? && m(lines[k]).value.name == name {
        var k :| 0 <= k < |lines| && m(lines[k]).Some? && m(lines[k]).value.name == name;
        if k < |init| {
          assert init[k] == lines[k];
        }
      }
    }
  }

  /** The value of a name comes from the last line that matched with that name. */
  lemma {:induction false} LastLineWins(m: string -> Option<Entry>, fromUrl: string -> Option<HostedInfo>, lines: seq<string>, k: nat)
    requires k < |lines| && m(lines[k]).Some?
    requires forall j :: k < j < |lines| && m(lines[j]).Some? ==> m(lines[j]).value.name != m(lines[k]).value.name
    ensures var e := m(lines[k]).value;
      e.name in RemoteMap(m, fromUrl, lines) && RemoteMap(m, fromUrl, lines)[e.name] == fromUrl(e.url)
    decreases |lines|
  {
    var init := lines[..|lines| - 1];
    if k < |lines| - 1 {
      assert init[k] == lines[k];
      forall j | k < j < |init| && m(init[j]).Some?
        ensures m(init[j]).value.name != m(init[k]).value.name
      {
        assert init[j] == lines[j];
      }
      LastLineWins(m, fromUrl, init, k);
    }
  }

  /** What `getRemotes` returns for the output of `git remote -vv`. */
  function ParseRemotes(fromUrl: string -> Option<HostedInfo>, output: string): map<string, Option<HostedInfo>> {
    RemoteMap(MatchLine, fromUrl, Lines(output))
  }

  /** The `while ((arr = re.exec(output)) !== null) remotes[name] = ...` loop, for
      any line matcher. */
  method FillRemotes(m: string -> Option<Entry>, fromUrl: string -> Option<HostedInfo>, lines: seq<string>)
    returns (remotes: map<string, Option<HostedInfo>>)
    ensures remotes == RemoteMap(m, fromUrl, lines)
  {
    remotes := map[];
    var i := 0;
    while i < |lines|
      invariant 0 <= i <= |lines|
      invariant remotes == RemoteMap(m, fromUrl, lines[..i])
    {
      assert lines[..i + 1][..i] == lines[..i];
      match m(lines[i]) {
        case Some(e) => remotes := remotes[e.name := fromUrl(e.url)];
        case None =>
      }
      i := i + 1;
    }
    assert lines[..|lines|] == lines;
  }

  /** `getRemotes`, after the command has run. */
  method CollectRemotes(fromUrl: string -> Option<HostedInfo>, output: string) returns (remotes: map<string, Option<HostedInfo>>)
    ensures remotes == ParseRemotes(fromUrl, output)
  {
    remotes := FillRemotes(MatchLine, fromUrl, Lines(output));
  }
}
