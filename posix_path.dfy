/** The POSIX behaviour of Node's `path.resolve` and `path.basename` that
    `quickStart` relies on. An absolute, normalised path is the sequence of its
    names; `Render` spells it. */
module PosixPath {
  import opened JsText

  /** A normalised path component: not empty, not `.` or `..`, without `/`. */
  predicate IsName(s: string) {
    s != "" && s != "." && s != ".." && '/' !in s
  }

  predicate IsAbsolute(p: string) {
    |p| > 0 && p[0] == '/'
  }

  /** The first `/` at or after `i`, or the end. */
  function NextSlash(p: string, i: nat): (j: nat)
    requires i <= |p|
    ensures i <= j <= |p|
    ensures forall k :: i <= k < j ==> p[k] != '/'
    ensures j < |p| ==> p[j] == '/'
    decreases |p| - i
  {
    if i < |p| && p[i] != '/' then NextSlash(p, i + 1) else i
  }

  /** `p.split("/")`. */
  function Split(p: string): (parts: seq<string>)
    ensures |parts| >= 1
    decreases |p|
  {
    var j := NextSlash(p, 0);
    if j == |p| then [p] else [p[..j]] + Split(p[j + 1..])
  }

  /** Splitting on `/` and joining with `/` gives the path back. */
  lemma {:induction false} SplitJoin(p: string)
    ensures Join(Split(p), "/") == p
    decreases |p|
  {
    var j := NextSlash(p, 0);
    if j < |p| {
      SplitJoin(p[j + 1..]);
      var rest := Split(p[j + 1..]);
      assert Split(p) == [p[..j]] + rest;
      assert Join(Split(p), "/") == p[..j] + "/" + Join(rest, "/");
      assert p == p[..j] + "/" + p[j + 1..];
    }
  }

  /** One component applied to a stack of names: `""` and `.` stay, `..` climbs but
      never above the root, anything else descends. */
  function Step(base: seq<string>, part: string): seq<string> {
    if part == "" || part == "." then base
    else if part == ".." then (if base == [] then [] else base[..|base| - 1])
    else base + [part]
  }

  function Walk(base: seq<string>, parts: seq<string>): (r: seq<string>)
    decreases |parts|
  {
    if parts == [] then base else Walk(Step(base, parts[0]), parts[1..])
  }

  /** Walking keeps a stack of names a stack of names. */
  lemma {:induction false} WalkNames(base: seq<string>, parts: seq<string>)
    requires forall k :: 0 <= k < |base| ==> IsName(base[k])
    requires forall k :: 0 <= k < |parts| ==> '/' !in parts[k]
    ensures forall k :: 0 <= k < |Walk(base, parts)| ==> IsName(Walk(base, parts)[k])
    decreases |parts|
  {
    if parts != [] {
      WalkNames(Step(base, parts[0]), parts[1..]);
    }
  }

  /** `path.resolve(base, p)` for an absolute normalised `base`. */
  function Resolve(base: seq<string>, p: string): seq<string> {
    Walk(if IsAbsolute(p) then [] else base, Split(p))
  }

  /** The string form of an absolute normalised path. */
  function Render(names: seq<string>): (s: string)
    ensures IsAbsolute(s)
  {
    "/" + Join(names, "/")
  }

  lemma {:induction false} JoinAppend(a: seq<string>, b: seq<string>)
    requires a != [] && b != []
    ensures Join(a + b, "/") == Join(a, "/") + "/" + Join(b, "/")
    decreases |a|
  {
    if |a| == 1 {
      assert (a + b)[1..] == b;
    } else {
      assert (a + b)[1..] == a[1..] + b;
      JoinAppend(a[1..], b);
    }
  }

  /** A path below a directory is spelled with the directory's spelling in front. */
  lemma RenderPrefix(a: seq<string>, b: seq<string>)
    ensures StartsWith(Render(a + b), Render(a))
  {
    if a != [] && b != [] {
      JoinAppend(a, b);
      assert Render(a + b) == Render(a) + ("/" + Join(b, "/"));
    } else if b == [] {
      assert a + b == a;
    }
  }

  /** Without `..`, walking only descends: the base stays in front. */
  lemma {:induction false} WalkDescends(base: seq<string>, parts: seq<string>)
    requires forall k :: 0 <= k < |parts| ==> parts[k] != ".."
    ensures |base| <= |Walk(base, parts)| && Walk(base, parts)[..|base|] == base
    decreases |parts|
  {
    if parts != [] {
      var next := Step(base, parts[0]);
      WalkDescends(next, parts[1..]);
      assert next[..|base|] == base;
    }
  }

  /** The last non-empty component. */
  function LastName(parts: seq<string>): string
    decreases |parts|
  {
    if parts == [] then ""
    else if parts[|parts| - 1] != "" then parts[|parts| - 1]
    else LastName(parts[..|parts| - 1])
  }

  /** `path.basename(p)`: the last component, trailing slashes ignored. */
  function Basename(p: string): (b: string)
    ensures '/' !in b
  {
    BasenameIsComponent(Split(p), p);
    LastName(Split(p))
  }

  lemma {:induction false} LastNameIsComponent(parts: seq<string>)
    ensures LastName(parts) == "" || LastName(parts) in parts
    decreases |parts|
  {
    if parts != [] && parts[|parts| - 1] == "" {
      LastNameIsComponent(parts[..|parts| - 1]);
    }
  }

  lemma {:induction false} SplitHasNoSlash(p: string)
    ensures forall k :: 0 <= k < |Split(p)| ==> '/' !in Split(p)[k]
    decreases |p|
  {
    var j := NextSlash(p, 0);
    if j < |p| {
      SplitHasNoSlash(p[j + 1..]);
    }
  }

  lemma BasenameIsComponent(parts: seq<string>, p: string)
    requires parts == Split(p)
    ensures '/' !in LastName(parts)
  {
    LastNameIsComponent(parts);
    SplitHasNoSlash(p);
  }
}
