/** The SSH-only remote grammar of src/GitExtraTool.js and dist/BitbucketTool.js:
    each line of `git remote -vv` output that matches
      ^(?<name>[a-zA-Z0-9-]+)\s+git@(?<site>bitbucket\.org|github\.com):(?<user>[a-zA-Z0-9-]+)/(?<slug>[a-zA-Z0-9-]+).git\s+\(fetch\)$
    gives one record, in output order. The `.` before `git` is not escaped, so it
    matches any character; the greedy slug gives characters back until the rest of
    the pattern matches. Positions are offsets into one line. */
module SshRemotes {
  import opened Effects
  import opened JsText

  datatype SshRemote = SshRemote(name: string, site: string, user: string, slug: string)

  predicate IsKnownSite(site: string) {
    site == "bitbucket.org" || site == "github.com"
  }

  predicate WellFormed(r: SshRemote) {
    IsWord(r.name) && IsKnownSite(r.site) && IsWord(r.user) && IsWord(r.slug)
  }

  /** The alternation `(bitbucket\.org|github\.com)` at position `p`, left alternative first. */
  function SiteAt(l: string, p: nat): (site: Option<string>)
    ensures site.Some? <==> HasAt(l, p, "bitbucket.org") || HasAt(l, p, "github.com")
    ensures site.Some? ==> IsKnownSite(site.value) && HasAt(l, p, site.value)
  {
    if HasAt(l, p, "bitbucket.org") then Some("bitbucket.org")
    else if HasAt(l, p, "github.com") then Some("github.com")
    else None
  }

  /** `.git\s+\(fetch\)$` with its `.` at position `j`: any character but a line end. */
  predicate FetchTailAt(l: string, j: nat) {
    && j + 4 <= |l|
    && !IsLineTerminator(l[j])
    && HasAt(l, j + 1, "git")
    && var w := SpaceRun(l, j + 4); w > j + 4 && |l| == w + 7 && HasAt(l, w, "(fetch)")
  }

  /** The end of the slug: the greedy `[a-zA-Z0-9-]+` tries its ends from `j` down to
      `start + 1` and keeps the first one after which the tail matches. */
  function SlugEnd(l: string, start: nat, j: nat): (e: Option<nat>)
    requires start < j <= |l|
    ensures e.Some? ==> start < e.value <= j
    decreases j
  {
    if FetchTailAt(l, j) then Some(j)
    else if j - 1 > start then SlugEnd(l, start, j - 1)
    else None
  }

  /** The slug ends where the tail matches, and gives back as few characters as it
      can: no longer slug lets the tail match. */
  lemma {:induction false} SlugEndGreedy(l: string, start: nat, j: nat)
    requires start < j <= |l|
    ensures SlugEnd(l, start, j).Some? ==> FetchTailAt(l, SlugEnd(l, start, j).value)
    ensures SlugEnd(l, start, j).Some? ==> forall k :: SlugEnd(l, start, j).value < k <= j ==> !FetchTailAt(l, k)
    ensures SlugEnd(l, start, j).None? ==> forall k :: start < k <= j ==> !FetchTailAt(l, k)
    decreases j
  {
    if !FetchTailAt(l, j) && j - 1 > start {
      SlugEndGreedy(l, start, j - 1);
    }
  }

  /** Where the capture groups of one match lie: the name is `l[..nameEnd]`, the user
      `l[userStart..userEnd]` and the slug `l[userEnd + 1..slugEnd]`. */
  datatype Spans = Spans(nameEnd: nat, site: string, userStart: nat, userEnd: nat, slugEnd: nat)

  predicate InBounds(l: string, sp: Spans) {
    sp.nameEnd <= |l| && sp.userStart <= sp.userEnd < sp.slugEnd <= |l|
  }

  /** `l[a..b]` is a nonempty run of `[a-zA-Z0-9-]`. */
  predicate WordSpan(l: string, a: nat, b: nat) {
    a < b <= |l| && forall k :: a <= k < b ==> IsWordChar(l[k])
  }

  /** What every match guarantees about its spans. */
  predicate ValidSpans(l: string, sp: Spans) {
    && WordSpan(l, 0, sp.nameEnd) && IsKnownSite(sp.site)
    && WordSpan(l, sp.userStart, sp.userEnd) && WordSpan(l, sp.userEnd + 1, sp.slugEnd)
    && |l| >= 7 && HasAt(l, |l| - 7, "(fetch)")
  }

  /** Where the head of a match, `^(?<name>...)\s+git@(?<site>...)`, ends: the name
      at `nameEnd` and the site just before `colon`. */
  datatype Head = Head(nameEnd: nat, site: string, colon: nat)

  /** The head of the match of one line. The name and the run of spaces after it are
      taken whole: giving characters back cannot help, since the next element of the
      pattern cannot match them. */
  function HeadOf(l: string): (h: Option<Head>)
    ensures h.Some? ==> 0 < h.value.nameEnd <= |l|
  {
    var n := WordRun(l, 0);
    var w := SpaceRun(l, n);
    if n == 0 || w == n || !HasAt(l, w, "git@") then None
    else match SiteAt(l, w + 4)
      case None => None
      case Some(site) => Some(Head(n, site, w + 4 + |site|))
  }

  lemma HeadOfSound(l: string)
    ensures HeadOf(l).Some? ==> WordSpan(l, 0, HeadOf(l).value.nameEnd) && IsKnownSite(HeadOf(l).value.site)
  {
  }

  /** `:(?<user>...)/(?<slug>...).git\s+\(fetch\)$` from position `q`. */
  function PathSpans(l: string, n: nat, site: string, q: nat): (sp: Option<Spans>)
    ensures sp.Some? ==> sp.value.nameEnd == n && sp.value.site == site
    ensures sp.Some? ==> q < sp.value.userStart <= sp.value.userEnd < sp.value.slugEnd <= |l|
  {
    if q >= |l| || l[q] != ':' then None
    else
      var u := WordRun(l, q + 1);
      if u == q + 1 || u >= |l| || l[u] != '/' then None
      else
        var e := WordRun(l, u + 1);
        if e == u + 1 then None
        else match SlugEnd(l, u + 1, e)
          case None => None
          case Some(j) => Some(Spans(n, site, q + 1, u, j))
  }

  lemma PathSpansSound(l: string, n: nat, site: string, q: nat)
    requires WordSpan(l, 0, n) && IsKnownSite(site)
    ensures PathSpans(l, n, site, q).Some? ==> ValidSpans(l, PathSpans(l, n, site, q).value)
  {
    if q < |l| && l[q] == ':' {
      var u := WordRun(l, q + 1);
      if u != q + 1 && u < |l| && l[u] == '/' {
        var e := WordRun(l, u + 1);
        if e != u + 1 {
          SlugEndGreedy(l, u + 1, e);
        }
      }
    }
  }

  /** The spans of the match of one line, if the line matches. */
  function MatchSpans(l: string): (sp: Option<Spans>)
    ensures sp.Some? ==> InBounds(l, sp.value)
  {
    match HeadOf(l)
    case None => None
    case Some(h) => PathSpans(l, h.nameEnd, h.site, h.colon)
  }

  lemma MatchSpansSound(l: string)
    ensures MatchSpans(l).Some? ==> ValidSpans(l, MatchSpans(l).value)
  {
    HeadOfSound(l);
    if HeadOf(l).Some? {
      var h := HeadOf(l).value;
      PathSpansSound(l, h.nameEnd, h.site, h.colon);
    }
  }

  /** The named groups of a match. */
  function Groups(l: string, sp: Spans): SshRemote
    requires InBounds(l, sp)
  {
    SshRemote(l[..sp.nameEnd], sp.site, l[sp.userStart..sp.userEnd], l[sp.userEnd + 1..sp.slugEnd])
  }

  /** The record one line yields, if the line matches. */
  function MatchLine(l: string): Option<SshRemote> {
    match MatchSpans(l)
    case Some(sp) => Some(Groups(l, sp))
    case None => None
  }

  /** A record read from a line has the pattern's character classes, starts the line,
      and comes from a line that ends in `(fetch)`. */
  lemma MatchLineSound(l: string)
    ensures MatchLine(l).Some? ==> WellFormed(MatchLine(l).value) && StartsWith(l, MatchLine(l).value.name)
    ensures MatchLine(l).Some? ==> |l| >= 7 && HasAt(l, |l| - 7, "(fetch)")
  {
    MatchSpansSound(l);
  }

  function Hit(o: Option<SshRemote>): seq<SshRemote> {
    match o
    case Some(r) => [r]
    case None => []
  }

  /** The records a line matcher `m` reads from `lines`, in order, duplicates kept. */
  function Collect(m: string -> Option<SshRemote>, lines: seq<string>): (rs: seq<SshRemote>)
    ensures |rs| <= |lines|
  {
    if lines == [] then [] else Hit(m(lines[0])) + Collect(m, lines[1..])
  }

  /** Every record read from a listing satisfies the pattern's character classes. */
  lemma {:induction false} CollectWellFormed(lines: seq<string>)
    ensures forall k :: 0 <= k < |Collect(MatchLine, lines)| ==> WellFormed(Collect(MatchLine, lines)[k])
  {
    if lines != [] {
      MatchLineSound(lines[0]);
      CollectWellFormed(lines[1..]);
    }
  }

  /** What `getRemotes` returns for the output of `git remote -vv`. */
  function ParseRemotes(output: string): seq<SshRemote> {
    Collect(MatchLine, Lines(output))
  }

  lemma CollectStep(m: string -> Option<SshRemote>, lines: seq<string>, i: nat)
    requires i < |lines|
    ensures Collect(m, lines[i..]) == Hit(m(lines[i])) + Collect(m, lines[i + 1..])
  {
    assert lines[i..][1..] == lines[i + 1..];
  }

  /** The `while ((arr = re.exec(output)) !== null) remotes.push(...)` loop, for
      any line matcher. */
  method CollectEach(m: string -> Option<SshRemote>, lines: seq<string>) returns (remotes: seq<SshRemote>)
    ensures remotes == Collect(m, lines)
  {
    remotes := [];
    var i := 0;
    while i < |lines|
      invariant 0 <= i <= |lines|
      invariant remotes + Collect(m, lines[i..]) == Collect(m, lines)
    {
      var found := Hit(m(lines[i]));
      CollectStep(m, lines, i);
      assert remotes + Collect(m, lines[i..]) == (remotes + found) + Collect(m, lines[i + 1..]);
      remotes := remotes + found;
      i := i + 1;
    }
    assert lines[|lines|..] == [];
  }

  /** `getRemotes`: the loop over the lines of the output with the SSH pattern. */
  method CollectRemotes(output: string) returns (remotes: seq<SshRemote>)
    ensures remotes == ParseRemotes(output)
  {
    remotes := CollectEach(MatchLine, Lines(output));
  }

  /** The index of the first record named `name`: JavaScript's `find`, and the
      `for ... of` loop that returns at its first hit. */
  function FirstNamed(rs: seq<SshRemote>, name: string): (i: Option<nat>)
    ensures i.Some? ==> i.value < |rs| && rs[i.value].name == name
    ensures i.Some? ==> forall k :: 0 <= k < i.value ==> rs[k].name != name
    ensures i.None? ==> forall k :: 0 <= k < |rs| ==> rs[k].name != name
  {
    if rs == [] then None
    else if rs[0].name == name then Some(0)
    else match FirstNamed(rs[1..], name)
      case Some(j) => Some(j + 1)
      case None => None
  }

  /** A fetch line as git prints it, with the separators given. */
  function FetchLine(r: SshRemote, sep1: string, sep2: string): string {
    r.name + sep1 + "git@" + r.site + ":" + r.user + "/" + r.slug + ".git" + sep2 + "(fetch)"
  }

  function PushLine(r: SshRemote, sep1: string, sep2: string): string {
    r.name + sep1 + "git@" + r.site + ":" + r.user + "/" + r.slug + ".git" + sep2 + "(push)"
  }

  /** The tail matches where a character other than a line end, `git`, the spaces
      and `(fetch)` sit at the end of the line. */
  lemma TailAtEnd(l: string, e: nat, sep2: string)
    requires IsLineSpaces(sep2) && e < |l| && !IsLineTerminator(l[e]) && HasAt(l, e + 1, "git")
    requires HasAt(l, e + 4, sep2) && HasAt(l, e + 4 + |sep2|, "(fetch)") && |l| == e + 4 + |sep2| + 7
    ensures FetchTailAt(l, e)
  {
    assert l[e + 4 + |sep2|] == "(fetch)"[0];
    SpaceRunAt(l, e + 4, sep2);
  }

  /** No end after `e` lets the tail match when `git` and then spaces follow `e`:
      the character after each such end is not the `g` of `git`. */
  lemma NoLaterTail(l: string, e: nat, sep2: string)
    requires IsLineSpaces(sep2) && HasAt(l, e + 1, "git") && HasAt(l, e + 4, sep2)
    requires HasAt(l, e + 4 + |sep2|, "(fetch)")
    ensures forall k :: e < k <= e + 4 ==> !FetchTailAt(l, k)
  {
    assert l[e + 2] == "git"[1] && l[e + 3] == "git"[2] && l[e + 4] == sep2[0];
    if |sep2| > 1 {
      assert l[e + 5] == sep2[1];
    } else {
      assert l[e + 5] == "(fetch)"[0];
    }
    assert "git"[0] == 'g';
  }

  /** The head of the pattern, up to the site, matched at those positions. */
  lemma HeadAt(l: string, n: nat, w: nat, site: string)
    requires 0 < n < w && WordRun(l, 0) == n && SpaceRun(l, n) == w
    requires HasAt(l, w, "git@") && SiteAt(l, w + 4) == Some(site)
    ensures HeadOf(l) == Some(Head(n, site, w + 4 + |site|))
  {
  }

  /** The rest of the pattern, from the `:` on, matched at those positions. */
  lemma PathSpansAt(l: string, n: nat, site: string, q: nat, u: nat, e: nat)
    requires q + 1 < u < |l| && l[q] == ':' && WordRun(l, q + 1) == u && l[u] == '/'
    requires u + 1 < WordRun(l, u + 1) && SlugEnd(l, u + 1, WordRun(l, u + 1)) == Some(e)
    ensures PathSpans(l, n, site, q) == Some(Spans(n, site, q + 1, u, e))
  {
  }

  /** The pieces of a fetch line for `r` sit in `l` one after the other; in the place
      of the pattern's `.` stands any character but a line end. */
  predicate LaidOut(l: string, r: SshRemote, sep1: string, sep2: string) {
    var n := |r.name|;
      var w := n + |sep1|;
      var q := w + 4 + |r.site|;
      var u := q + 1 + |r.user|;
      var e := u + 1 + |r.slug|;
      && |l| == e + 4 + |sep2| + 7
      && HasAt(l, 0, r.name) && HasAt(l, n, sep1) && HasAt(l, w, "git@") && HasAt(l, w + 4, r.site)
      && HasAt(l, q, ":") && HasAt(l, q + 1, r.user) && HasAt(l, u, "/") && HasAt(l, u + 1, r.slug)
      && !IsLineTerminator(l[e]) && HasAt(l, e + 1, "git")
      && HasAt(l, e + 4, sep2) && HasAt(l, e + 4 + |sep2|, "(fetch)")
  }

  /** The pieces of the head of a line sit one after the other. */
  lemma HeadPieces(l: string, name: string, sep1: string, site: string)
    requires HasAt(l, 0, name + sep1 + "git@" + site + ":")
    ensures var w := |name| + |sep1|;
      && HasAt(l, 0, name) && HasAt(l, |name|, sep1) && HasAt(l, w, "git@")
      && HasAt(l, w + 4, site) && HasAt(l, w + 4 + |site|, ":")
  {
    var a1 := name + sep1;
    var a2 := a1 + "git@";
    var a3 := a2 + site;
    HasAtSplit(l, 0, a3, ":");
    HasAtSplit(l, 0, a2, site);
    HasAtSplit(l, 0, a1, "git@");
    HasAtSplit(l, 0, name, sep1);
  }

  /** The pieces after a prefix `p` of a line sit one after the other. */
  lemma PathPieces(l: string, p: string, user: string, slug: string, dotGit: string, sep2: string)
    requires HasAt(l, 0, p + user + "/" + slug + dotGit + sep2 + "(fetch)")
    ensures var u := |p| + |user|;
      var e := u + 1 + |slug|;
      && HasAt(l, 0, p) && HasAt(l, |p|, user) && HasAt(l, u, "/") && HasAt(l, u + 1, slug)
      && HasAt(l, e, dotGit) && HasAt(l, e + |dotGit|, sep2) && HasAt(l, e + |dotGit| + |sep2|, "(fetch)")
  {
    var a1 := p + user;
    var a2 := a1 + "/";
    var a3 := a2 + slug;
    var a4 := a3 + dotGit;
    var a5 := a4 + sep2;
    HasAtSplit(l, 0, a5, "(fetch)");
    HasAtSplit(l, 0, a4, sep2);
    HasAtSplit(l, 0, a3, dotGit);
    HasAtSplit(l, 0, a2, slug);
    HasAtSplit(l, 0, a1, "/");
    HasAtSplit(l, 0, p, user);
  }

  lemma DotGitPieces(l: string, e: nat, dot: char)
    requires HasAt(l, e, [dot] + "git")
    ensures e < |l| && l[e] == dot && HasAt(l, e + 1, "git")
  {
    HasAtSplit(l, e, [dot], "git");
    assert l[e] == [dot][0];
  }

  /** A fetch line with any character but a line end where `.git` has its `.`. */
  function AnyDotFetchLine(r: SshRemote, dot: char, sep1: string, sep2: string): string {
    r.name + sep1 + "git@" + r.site + ":" + r.user + "/" + r.slug + ([dot] + "git") + sep2 + "(fetch)"
  }

  lemma AnyDotFetchLinePieces(r: SshRemote, dot: char, sep1: string, sep2: string)
    requires !IsLineTerminator(dot)
    ensures LaidOut(AnyDotFetchLine(r, dot, sep1, sep2), r, sep1, sep2)
  {
    var l := AnyDotFetchLine(r, dot, sep1, sep2);
    var p := r.name + sep1 + "git@" + r.site + ":";
    HasAtWhole(l);
    PathPieces(l, p, r.user, r.slug, [dot] + "git", sep2);
    HeadPieces(l, r.name, sep1, r.site);
    DotGitPieces(l, |p| + |r.user| + 1 + |r.slug|, dot);
  }

  /** The usual fetch line is the one with `.` in that place. */
  lemma FetchLinePieces(r: SshRemote, sep1: string, sep2: string)
    ensures LaidOut(FetchLine(r, sep1, sep2), r, sep1, sep2)
  {
    assert ".git" == ['.'] + "git";
    assert FetchLine(r, sep1, sep2) == AnyDotFetchLine(r, '.', sep1, sep2);
    AnyDotFetchLinePieces(r, '.', sep1, sep2);
  }

  /** The name is taken whole when spaces follow it. */
  lemma NameAt(l: string, name: string, sep1: string)
    requires IsWord(name) && IsLineSpaces(sep1) && HasAt(l, 0, name) && HasAt(l, |name|, sep1)
    ensures WordRun(l, 0) == |name| && WordSpan(l, 0, |name|)
  {
    assert l[|name|] == sep1[0];
    LineSpaceIsNotWordChar(l[|name|]);
    WordRunAt(l, 0, name);
  }

  /** The head matches where the spaces, `git@` and a known site follow the name. */
  lemma HeadAtPieces(l: string, n: nat, sep1: string, site: string)
    requires 0 < n && WordRun(l, 0) == n && IsLineSpaces(sep1) && IsKnownSite(site)
    requires HasAt(l, n, sep1) && HasAt(l, n + |sep1|, "git@") && HasAt(l, n + |sep1| + 4, site)
    ensures HeadOf(l) == Some(Head(n, site, n + |sep1| + 4 + |site|))
  {
    var w := n + |sep1|;
    assert l[w] == "git@"[0];
    SpaceRunAt(l, n, sep1);
    if site == "github.com" {
      assert l[w + 4] == site[0] == 'g';
      assert "bitbucket.org"[0] == 'b';
    }
    HeadAt(l, n, w, site);
  }

  /** Where `:`, a user and `/` follow each other from `q`. */
  lemma UserAt(l: string, q: nat, user: string)
    requires IsWord(user) && HasAt(l, q, ":") && HasAt(l, q + 1, user) && HasAt(l, q + 1 + |user|, "/")
    ensures l[q] == ':' && WordRun(l, q + 1) == q + 1 + |user| && l[q + 1 + |user|] == '/'
  {
    assert l[q] == ":"[0];
    assert l[q + 1 + |user|] == "/"[0];
    WordRunAt(l, q + 1, user);
  }

  /** The run of word characters from the slug's start stops after the slug, or,
      when the character after the slug is itself a word character, after `git`. */
  lemma SlugRun(l: string, u: nat, slug: string, sep2: string)
    requires IsWord(slug) && IsLineSpaces(sep2) && HasAt(l, u + 1, slug)
    requires var e := u + 1 + |slug|; e < |l| && HasAt(l, e + 1, "git") && HasAt(l, e + 4, sep2)
    ensures var e := u + 1 + |slug|; WordRun(l, u + 1) == if IsWordChar(l[e]) then e + 4 else e
  {
    var e := u + 1 + |slug|;
    if IsWordChar(l[e]) {
      assert l[e + 1] == "git"[0] && l[e + 2] == "git"[1] && l[e + 3] == "git"[2];
      assert l[e + 4] == sep2[0];
      LineSpaceIsNotWordChar(l[e + 4]);
      forall k | u + 1 <= k < e + 4
        ensures IsWordChar(l[k])
      {
        if k < e {
          assert slug[k - (u + 1)] == l[u + 1 + (k - (u + 1))];
        }
      }
      WordRunExact(l, u + 1, e + 4);
    } else {
      WordRunAt(l, u + 1, slug);
    }
  }

  /** Where the slug, one more character, `git`, the spaces and `(fetch)` end the
      line, the greedy slug gives back exactly the characters after it. */
  lemma SlugTailAt(l: string, u: nat, slug: string, sep2: string)
    requires IsWord(slug) && IsLineSpaces(sep2) && HasAt(l, u + 1, slug)
    requires var e := u + 1 + |slug|;
      && |l| == e + 4 + |sep2| + 7 && !IsLineTerminator(l[e])
      && HasAt(l, e + 1, "git") && HasAt(l, e + 4, sep2) && HasAt(l, e + 4 + |sep2|, "(fetch)")
    ensures u + 1 < WordRun(l, u + 1) && SlugEnd(l, u + 1, WordRun(l, u + 1)) == Some(u + 1 + |slug|)
  {
    var e := u + 1 + |slug|;
    SlugRun(l, u, slug, sep2);
    TailAtEnd(l, e, sep2);
    NoLaterTail(l, e, sep2);
    SlugEndGreedy(l, u + 1, WordRun(l, u + 1));
  }

  /** The head of a laid-out line ends where its site does. */
  lemma LaidOutHead(l: string, r: SshRemote, sep1: string, sep2: string)
    requires WellFormed(r) && IsLineSpaces(sep1)
    requires LaidOut(l, r, sep1, sep2)
    ensures HeadOf(l) == Some(Head(|r.name|, r.site, |r.name| + |sep1| + 4 + |r.site|))
  {
    NameAt(l, r.name, sep1);
    HeadAtPieces(l, |r.name|, sep1, r.site);
  }

  /** The path of a laid-out line is cut where its pieces are. */
  lemma LaidOutPath(l: string, r: SshRemote, sep1: string, sep2: string)
    requires WellFormed(r) && IsLineSpaces(sep2)
    requires LaidOut(l, r, sep1, sep2)
    ensures var q := |r.name| + |sep1| + 4 + |r.site|;
      PathSpans(l, |r.name|, r.site, q) == Some(Spans(|r.name|, r.site, q + 1, q + 1 + |r.user|, q + 2 + |r.user| + |r.slug|))
  {
    var q := |r.name| + |sep1| + 4 + |r.site|;
    var u := q + 1 + |r.user|;
    UserAt(l, q, r.user);
    SlugTailAt(l, u, r.slug, sep2);
    PathSpansAt(l, |r.name|, r.site, q, u, u + 1 + |r.slug|);
  }

  /** The spans of a laid-out line are where its pieces are. */
  lemma LaidOutSpans(l: string, r: SshRemote, sep1: string, sep2: string)
    requires WellFormed(r) && IsLineSpaces(sep1) && IsLineSpaces(sep2)
    requires LaidOut(l, r, sep1, sep2)
    ensures var q := |r.name| + |sep1| + 4 + |r.site|;
      MatchSpans(l) == Some(Spans(|r.name|, r.site, q + 1, q + 1 + |r.user|, q + 2 + |r.user| + |r.slug|))
  {
    LaidOutHead(l, r, sep1, sep2);
    LaidOutPath(l, r, sep1, sep2);
  }

  /** Spans over the pieces of a record cut out that record. */
  lemma GroupsAt(l: string, sp: Spans, r: SshRemote)
    requires InBounds(l, sp) && sp.site == r.site
    requires sp.nameEnd == |r.name| && HasAt(l, 0, r.name)
    requires sp.userEnd == sp.userStart + |r.user| && HasAt(l, sp.userStart, r.user)
    requires sp.slugEnd == sp.userEnd + 1 + |r.slug| && HasAt(l, sp.userEnd + 1, r.slug)
    ensures Groups(l, sp) == r
  {
    HasAtSlice(l, 0, r.name);
    HasAtSlice(l, sp.userStart, r.user);
    HasAtSlice(l, sp.userEnd + 1, r.slug);
  }

  lemma LaidOutMatches(l: string, r: SshRemote, sep1: string, sep2: string)
    requires WellFormed(r) && IsLineSpaces(sep1) && IsLineSpaces(sep2)
    requires LaidOut(l, r, sep1, sep2)
    ensures MatchLine(l) == Some(r)
  {
    var q := |r.name| + |sep1| + 4 + |r.site|;
    LaidOutSpans(l, r, sep1, sep2);
    GroupsAt(l, Spans(|r.name|, r.site, q + 1, q + 1 + |r.user|, q + 2 + |r.user| + |r.slug|), r);
  }

  /** Every well-formed record read back from its own fetch line is itself. */
  lemma FetchLineMatches(r: SshRemote, sep1: string, sep2: string)
    requires WellFormed(r) && IsLineSpaces(sep1) && IsLineSpaces(sep2)
    ensures MatchLine(FetchLine(r, sep1, sep2)) == Some(r)
  {
    FetchLinePieces(r, sep1, sep2);
    LaidOutMatches(FetchLine(r, sep1, sep2), r, sep1, sep2);
  }

  /** The unescaped `.` lets any character but a line end stand before `git`, and the
      record read back is still the one whose slug stops before that character. */
  lemma AnyDotFetchLineMatches(r: SshRemote, dot: char, sep1: string, sep2: string)
    requires WellFormed(r) && IsLineSpaces(sep1) && IsLineSpaces(sep2) && !IsLineTerminator(dot)
    ensures MatchLine(AnyDotFetchLine(r, dot, sep1, sep2)) == Some(r)
  {
    AnyDotFetchLinePieces(r, dot, sep1, sep2);
    LaidOutMatches(AnyDotFetchLine(r, dot, sep1, sep2), r, sep1, sep2);
  }

  /** A push line never yields a record. */
  lemma PushLineIgnored(l: string)
    requires EndsWith(l, "(push)")
    ensures MatchLine(l) == None
  {
    MatchLineSound(l);
    assert l[|l| - 3] == "(push)"[3] == 's';
    if |l| >= 7 {
      assert !HasAt(l, |l| - 7, "(fetch)") by {
        assert "(fetch)"[4] == 'c';
      }
    }
  }

  /** What a fetch line and a push line of `r` share: all but the last word. */
  lemma CommonPartIsSingle(r: SshRemote, sep1: string, sep2: string)
    requires WellFormed(r) && IsLineSpaces(sep1) && IsLineSpaces(sep2)
    ensures IsSingleLine(r.name + sep1 + "git@" + r.site + ":" + r.user + "/" + r.slug + ".git" + sep2)
  {
    var a1 := r.name + sep1;
    SingleLineAppend(r.name, sep1);
    var a2 := a1 + "git@";
    SingleLineAppend(a1, "git@");
    var a3 := a2 + r.site;
    SingleLineAppend(a2, r.site);
    var a4 := a3 + ":";
    SingleLineAppend(a3, ":");
    var a5 := a4 + r.user;
    SingleLineAppend(a4, r.user);
    var a6 := a5 + "/";
    SingleLineAppend(a5, "/");
    var a7 := a6 + r.slug;
    SingleLineAppend(a6, r.slug);
    var a8 := a7 + ".git";
    SingleLineAppend(a7, ".git");
    SingleLineAppend(a8, sep2);
  }

  lemma FormattedLinesAreSingle(r: SshRemote, sep1: string, sep2: string)
    requires WellFormed(r) && IsLineSpaces(sep1) && IsLineSpaces(sep2)
    ensures IsSingleLine(FetchLine(r, sep1, sep2)) && IsSingleLine(PushLine(r, sep1, sep2))
  {
    var common := r.name + sep1 + "git@" + r.site + ":" + r.user + "/" + r.slug + ".git" + sep2;
    CommonPartIsSingle(r, sep1, sep2);
    SingleLineAppend(common, "(fetch)");
    SingleLineAppend(common, "(push)");
  }

  /** Lines are read independently: a first line contributes its record, if any,
      ahead of the records of the rest. */
  lemma ParseRemotesCons(line: string, t: char, rest: string)
    requires IsSingleLine(line) && IsLineTerminator(t)
    ensures ParseRemotes(line + [t] + rest) == Hit(MatchLine(line)) + ParseRemotes(rest)
  {
    LinesCons(line, t, rest);
    assert ([line] + Lines(rest))[1..] == Lines(rest);
  }

  function Listing(rs: seq<SshRemote>, sep1: string, sep2: string): string {
    if rs == [] then ""
    else FetchLine(rs[0], sep1, sep2) + "\n" + (PushLine(rs[0], sep1, sep2) + "\n" + Listing(rs[1..], sep1, sep2))
  }

  lemma CollectCons(m: string -> Option<SshRemote>, line: string, lines: seq<string>)
    ensures Collect(m, [line] + lines) == Hit(m(line)) + Collect(m, lines)
  {
    assert ([line] + lines)[1..] == lines;
  }

  /** A line the matcher accepts and a line it rejects, ahead of the rest of the
      output, contribute the one record. */
  lemma CollectPair(m: string -> Option<SshRemote>, accepted: string, rejected: string, rest: string, r: SshRemote)
    requires IsSingleLine(accepted) && IsSingleLine(rejected)
    requires m(accepted) == Some(r) && m(rejected) == None
    ensures Collect(m, Lines(accepted + "\n" + (rejected + "\n" + rest))) == [r] + Collect(m, Lines(rest))
  {
    LinesCons(accepted, '\n', rejected + "\n" + rest);
    LinesCons(rejected, '\n', rest);
    CollectCons(m, accepted, Lines(rejected + "\n" + rest));
    CollectCons(m, rejected, Lines(rest));
  }

  /** A fetch line and a push line for a remote, ahead of the rest of a listing,
      contribute that remote once. */
  lemma ListingStep(r: SshRemote, sep1: string, sep2: string, rest: string)
    requires WellFormed(r) && IsLineSpaces(sep1) && IsLineSpaces(sep2)
    ensures ParseRemotes(FetchLine(r, sep1, sep2) + "\n" + (PushLine(r, sep1, sep2) + "\n" + rest))
         == [r] + ParseRemotes(rest)
  {
    var push := PushLine(r, sep1, sep2);
    FormattedLinesAreSingle(r, sep1, sep2);
    FetchLineMatches(r, sep1, sep2);
    assert EndsWith(push, "(push)");
    PushLineIgnored(push);
    CollectPair(MatchLine, FetchLine(r, sep1, sep2), push, rest, r);
  }

  /** The usual listing, a fetch line and a push line per remote, yields each remote
      once, in order. */
  lemma {:induction false} ParseListing(rs: seq<SshRemote>, sep1: string, sep2: string)
    requires forall k :: 0 <= k < |rs| ==> WellFormed(rs[k])
    requires IsLineSpaces(sep1) && IsLineSpaces(sep2)
    ensures ParseRemotes(Listing(rs, sep1, sep2)) == rs
  {
    if rs == [] {
      assert Lines("") == [""];
    } else {
      ListingStep(rs[0], sep1, sep2, Listing(rs[1..], sep1, sep2));
      ParseListing(rs[1..], sep1, sep2);
    }
  }

  /** The same fetch line twice gives the record twice. */
  lemma DuplicatesKept(r: SshRemote, sep1: string, sep2: string)
    requires WellFormed(r) && IsLineSpaces(sep1) && IsLineSpaces(sep2)
    ensures ParseRemotes(FetchLine(r, sep1, sep2) + "\n" + FetchLine(r, sep1, sep2)) == [r, r]
  {
    var l := FetchLine(r, sep1, sep2);
    FormattedLinesAreSingle(r, sep1, sep2);
    FetchLineMatches(r, sep1, sep2);
    assert l + "\n" + l == l + ['\n'] + l;
    ParseRemotesCons(l, '\n', l);
    LinesOfOneLine(l);
  }

}
