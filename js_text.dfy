/** The JavaScript string operations the tools rely on: the regular expression
    character classes `\s`, `.` and `[a-zA-Z0-9-]`, the line structure that the `m`
    flag gives to `^` and `$`, `String.prototype.trim`, `toLowerCase`, `startsWith`,
    substring search and `Array.prototype.join`. */
module JsText {

  /** The characters that end a line for `^`, `$` and `.`. */
  predicate IsLineTerminator(c: char) {
    c == '\n' || c == '\r' || c == '\U{2028}' || c == '\U{2029}'
  }

  /** The class `\s`, which is also the set `trim` removes. */
  predicate IsJsSpace(c: char) {
    c == '\t' || c == '\n' || c == '\U{000B}' || c == '\U{000C}' || c == '\r' || c == ' ' ||
    c == '\U{00A0}' || c == '\U{1680}' || ('\U{2000}' <= c <= '\U{200A}') ||
    c == '\U{2028}' || c == '\U{2029}' || c == '\U{202F}' || c == '\U{205F}' ||
    c == '\U{3000}' || c == '\U{FEFF}'
  }

  /** `\s` restricted to one line: the class without the line terminators. */
  predicate IsLineSpace(c: char) {
    c == '\t' || c == '\U{000B}' || c == '\U{000C}' || c == ' ' ||
    c == '\U{00A0}' || c == '\U{1680}' || ('\U{2000}' <= c <= '\U{200A}') ||
    c == '\U{202F}' || c == '\U{205F}' || c == '\U{3000}' || c == '\U{FEFF}'
  }

  lemma LineSpaceIsJsSpace(c: char)
    ensures IsLineSpace(c) <==> IsJsSpace(c) && !IsLineTerminator(c)
  {
  }

  /** The class `[a-zA-Z0-9-]`. */
  predicate IsWordChar(c: char) {
    ('a' <= c <= 'z') || ('A' <= c <= 'Z') || ('0' <= c <= '9') || c == '-'
  }

  lemma LineSpaceIsNotWordChar(c: char)
    requires IsLineSpace(c)
    ensures !IsWordChar(c)
  {
  }

  /** A match of `[a-zA-Z0-9-]+`. */
  predicate IsWord(s: string) {
    |s| > 0 && forall i :: 0 <= i < |s| ==> IsWordChar(s[i])
  }

  /** A match of `\s+` inside one line. */
  predicate IsLineSpaces(s: string) {
    |s| > 0 && forall i :: 0 <= i < |s| ==> IsLineSpace(s[i])
  }

  predicate IsSingleLine(s: string) {
    forall i :: 0 <= i < |s| ==> !IsLineTerminator(s[i])
  }

  /** The end of the longest run of `[a-zA-Z0-9-]` that starts at `i`. */
  function WordRun(s: string, i: nat): (j: nat)
    requires i <= |s|
    ensures i <= j <= |s|
    ensures forall k {:trigger IsWordChar(s[k])} :: i <= k < j ==> IsWordChar(s[k])
    ensures j < |s| ==> !IsWordChar(s[j])
    decreases |s| - i
  {
    if i < |s| && IsWordChar(s[i]) then WordRun(s, i + 1) else i
  }

  /** The end of the longest run of `\s` inside the line that starts at `i`. */
  function SpaceRun(s: string, i: nat): (j: nat)
    requires i <= |s|
    ensures i <= j <= |s|
    ensures forall k {:trigger IsLineSpace(s[k])} :: i <= k < j ==> IsLineSpace(s[k])
    ensures j < |s| ==> !IsLineSpace(s[j])
    decreases |s| - i
  {
    if i < |s| && IsLineSpace(s[i]) then SpaceRun(s, i + 1) else i
  }

  /** `x` occurs in `s` starting at position `i`. */
  predicate HasAt(s: string, i: nat, x: string) {
    i + |x| <= |s| && forall k {:trigger x[k]} :: 0 <= k < |x| ==> s[i + k] == x[k]
  }

  lemma HasAtWhole(s: string)
    ensures HasAt(s, 0, s)
  {
  }

  lemma HasAtSplit(s: string, i: nat, a: string, b: string)
    requires HasAt(s, i, a + b)
    ensures HasAt(s, i, a) && HasAt(s, i + |a|, b)
  {
    assert forall k :: 0 <= k < |a| ==> (a + b)[k] == a[k];
    assert forall k :: 0 <= k < |b| ==> (a + b)[|a| + k] == b[k];
  }

  lemma HasAtSlice(s: string, i: nat, x: string)
    requires HasAt(s, i, x)
    ensures s[i..i + |x|] == x
  {
    assert forall k :: 0 <= k < |x| ==> s[i..i + |x|][k] == x[k];
  }

  lemma WordRunAt(s: string, i: nat, w: string)
    requires HasAt(s, i, w) && IsWord(w)
    requires i + |w| < |s| ==> !IsWordChar(s[i + |w|])
    ensures WordRun(s, i) == i + |w|
  {
    forall k | i <= k < i + |w|
      ensures IsWordChar(s[k])
    {
      assert w[k - i] == s[i + (k - i)];
    }
  }

  lemma SpaceRunAt(s: string, i: nat, w: string)
    requires HasAt(s, i, w) && IsLineSpaces(w)
    requires i + |w| < |s| ==> !IsLineSpace(s[i + |w|])
    ensures SpaceRun(s, i) == i + |w|
  {
    forall k | i <= k < i + |w|
      ensures IsLineSpace(s[k])
    {
      assert w[k - i] == s[i + (k - i)];
    }
  }

  /** A run of word characters that ends at `j` is the run `WordRun` finds. */
  lemma {:induction false} WordRunExact(s: string, i: nat, j: nat)
    requires i <= j <= |s| && forall k :: i <= k < j ==> IsWordChar(s[k])
    requires j < |s| ==> !IsWordChar(s[j])
    ensures WordRun(s, i) == j
    decreases j - i
  {
    if i < j {
      WordRunExact(s, i + 1, j);
    }
  }

  /** `SpaceRun` reaches at least as far as any run of spaces from `i`. */
  lemma {:induction false} SpaceRunCovers(s: string, i: nat, j: nat)
    requires i <= j <= |s| && forall k :: i <= k < j ==> IsLineSpace(s[k])
    ensures j <= SpaceRun(s, i)
    decreases j - i
  {
    if i < j {
      SpaceRunCovers(s, i + 1, j);
    }
  }

  lemma SingleLineAppend(a: string, b: string)
    requires IsSingleLine(a) && IsSingleLine(b)
    ensures IsSingleLine(a + b)
  {
    assert forall k :: 0 <= k < |a + b| ==> (a + b)[k] == (if k < |a| then a[k] else b[k - |a|]);
  }

  /** The position of the first line terminator at or after `i`, or the end of `s`. */
  function LineEnd(s: string, i: nat): (j: nat)
    requires i <= |s|
    ensures i <= j <= |s|
    ensures forall k {:trigger IsLineTerminator(s[k])} :: i <= k < j ==> !IsLineTerminator(s[k])
    ensures j < |s| ==> IsLineTerminator(s[j])
    decreases |s| - i
  {
    if i < |s| && !IsLineTerminator(s[i]) then LineEnd(s, i + 1) else i
  }

  /** The lines of `s`: the pieces between line terminators, as `^` and `$` see them
      under the `m` flag. */
  function Lines(s: string): (ls: seq<string>)
    ensures |ls| >= 1
    decreases |s|
  {
    var e := LineEnd(s, 0);
    if e == |s| then [s] else [s[..e]] + Lines(s[e + 1..])
  }

  /** No line contains a line terminator. */
  lemma {:induction false} LinesAreSingle(s: string)
    ensures forall k :: 0 <= k < |Lines(s)| ==> IsSingleLine(Lines(s)[k])
    decreases |s|
  {
    var e := LineEnd(s, 0);
    if e < |s| {
      LinesAreSingle(s[e + 1..]);
    }
  }

  lemma LinesOfOneLine(line: string)
    requires IsSingleLine(line)
    ensures Lines(line) == [line]
  {
    assert LineEnd(line, 0) == |line|;
  }

  /** A terminated first line is split off and the rest is split on its own. */
  lemma {:induction false} LinesCons(line: string, t: char, rest: string)
    requires IsSingleLine(line) && IsLineTerminator(t)
    ensures Lines(line + [t] + rest) == [line] + Lines(rest)
  {
    var s := line + [t] + rest;
    var e := LineEnd(s, 0);
    assert s[|line|] == t;
    assert forall k :: 0 <= k < |line| ==> s[k] == line[k];
    assert e == |line|;
    assert s[..e] == line;
    assert s[e + 1..] == rest;
  }

  /** `s` with its leading `\s` removed. */
  function TrimStart(s: string): (r: string)
    ensures |r| <= |s| && r == s[|s| - |r|..]
    ensures r == [] || !IsJsSpace(r[0])
    ensures forall i :: 0 <= i < |s| - |r| ==> IsJsSpace(s[i])
  {
    if |s| > 0 && IsJsSpace(s[0]) then TrimStart(s[1..]) else s
  }

  /** `s` with its trailing `\s` removed. */
  function TrimEnd(s: string): (r: string)
    ensures |r| <= |s| && r == s[..|r|]
    ensures r == [] || !IsJsSpace(r[|r| - 1])
    ensures forall i :: |r| <= i < |s| ==> IsJsSpace(s[i])
  {
    if |s| > 0 && IsJsSpace(s[|s| - 1]) then TrimEnd(s[..|s| - 1]) else s
  }

  /** `String.prototype.trim`. */
  function Trim(s: string): (r: string)
    ensures |r| <= |s|
    ensures r == [] || (!IsJsSpace(r[0]) && !IsJsSpace(r[|r| - 1]))
  {
    TrimEnd(TrimStart(s))
  }

  predicate AllJsSpace(s: string) {
    forall i :: 0 <= i < |s| ==> IsJsSpace(s[i])
  }

  lemma TrimStartPadded(before: string, t: string)
    requires AllJsSpace(before)
    requires t == [] || !IsJsSpace(t[0])
    ensures TrimStart(before + t) == t
  {
    var whole := before + t;
    var r := TrimStart(whole);
    assert forall k :: 0 <= k < |before| ==> whole[k] == before[k];
    if t != [] {
      assert whole[|before|] == t[0];
    }
    assert |r| == |t|;
  }

  lemma TrimEndPadded(t: string, after: string)
    requires AllJsSpace(after)
    requires t == [] || !IsJsSpace(t[|t| - 1])
    ensures TrimEnd(t + after) == t
  {
    var whole := t + after;
    var r := TrimEnd(whole);
    assert forall k :: |t| <= k < |whole| ==> whole[k] == after[k - |t|];
    if t != [] {
      assert whole[|t| - 1] == t[|t| - 1];
    }
    assert |r| == |t|;
  }

  /** Text without surrounding whitespace survives any padding. */
  lemma TrimPadded(before: string, s: string, after: string)
    requires AllJsSpace(before) && AllJsSpace(after)
    requires s == [] || (!IsJsSpace(s[0]) && !IsJsSpace(s[|s| - 1]))
    ensures Trim(before + s + after) == s
  {
    if s == [] {
      assert before + s + after == before + after;
      assert AllJsSpace(before + after);
      TrimStartPadded(before + after, []);
      assert before + after + [] == before + after;
    } else {
      assert before + s + after == before + (s + after);
      TrimStartPadded(before, s + after);
      TrimEndPadded(s, after);
    }
  }

  lemma TrimIdempotent(s: string)
    ensures Trim(Trim(s)) == Trim(s)
  {
    TrimPadded([], Trim(s), []);
    assert [] + Trim(s) + [] == Trim(s);
  }

  function LowerChar(c: char): (d: char)
    ensures 'A' <= c <= 'Z' ==> d as int == c as int + 32
    ensures !('A' <= c <= 'Z') ==> d == c
  {
    if 'A' <= c <= 'Z' then (c as int + 32) as char else c
  }

  /** `toLowerCase` on the ASCII letters. */
  function Lower(s: string): (r: string)
    ensures |r| == |s|
    ensures forall i :: 0 <= i < |s| ==> r[i] == LowerChar(s[i])
  {
    if s == [] then [] else [LowerChar(s[0])] + Lower(s[1..])
  }

  lemma LowerIdempotent(s: string)
    ensures Lower(Lower(s)) == Lower(s)
  {
    var l := Lower(s);
    assert forall i :: 0 <= i < |l| ==> LowerChar(l[i]) == l[i];
  }

  predicate StartsWith(s: string, prefix: string) {
    |prefix| <= |s| && s[..|prefix|] == prefix
  }

  predicate EndsWith(s: string, suffix: string) {
    |suffix| <= |s| && s[|s| - |suffix|..] == suffix
  }

  /** `s` contains `t` somewhere: an unanchored search for `t`. */
  predicate Contains(s: string, t: string)
    decreases |s|
  {
    StartsWith(s, t) || (|s| > 0 && Contains(s[1..], t))
  }

  lemma {:induction false} ContainsAt(s: string, t: string, i: nat)
    requires i + |t| <= |s| && s[i..i + |t|] == t
    ensures Contains(s, t)
    decreases i
  {
    if i > 0 {
      assert s[1..][i - 1..i - 1 + |t|] == s[i..i + |t|];
      ContainsAt(s[1..], t, i - 1);
    } else {
      assert s[..|t|] == t;
    }
  }

  lemma {:induction false} ContainsWitness(s: string, t: string) returns (i: nat)
    requires Contains(s, t)
    ensures i + |t| <= |s| && s[i..i + |t|] == t
    decreases |s|
  {
    if StartsWith(s, t) {
      i := 0;
    } else {
      var j := ContainsWitness(s[1..], t);
      i := j + 1;
      assert s[i..i + |t|] == s[1..][j..j + |t|];
    }
  }

  /** A string does not contain anything longer than itself. */
  lemma {:induction false} ContainsShorter(s: string, t: string)
    requires |s| < |t|
    ensures !Contains(s, t)
    decreases |s|
  {
    if |s| > 0 {
      ContainsShorter(s[1..], t);
    }
  }

  /** Of the strings of its own length, a string contains only itself. */
  lemma ContainsSameLength(s: string, t: string)
    requires |s| == |t| && s != t
    ensures !Contains(s, t)
  {
    assert s[..|t|] == s;
    if |s| > 0 {
      ContainsShorter(s[1..], t);
    }
  }

  lemma ContainsInfix(a: string, t: string, b: string)
    ensures Contains(a + t + b, t)
  {
    var s := a + t + b;
    assert s[|a|..|a| + |t|] == t;
    ContainsAt(s, t, |a|);
  }

  /** `parts.join(sep)`. */
  function Join(parts: seq<string>, sep: string): string {
    if |parts| == 0 then ""
    else if |parts| == 1 then parts[0]
    else parts[0] + sep + Join(parts[1..], sep)
  }
}
