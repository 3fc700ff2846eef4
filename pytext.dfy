/**
 * The parts of Python's `str`, text-file and `os.path` behaviour that the deployment
 * tools rely on, written out over `string` (a `seq<char>`).
 *
 * Case mapping (`upper`, `lower`) is ASCII-only here; Python maps all of Unicode.
 */
module PyText {
  import opened Wrappers

  /** Appending is associative; stated for the proofs that regroup logs and texts */
  lemma AppendAssoc<T>(a: seq<T>, b: seq<T>, c: seq<T>)
    ensures a + (b + c) == (a + b) + c
  {
  }

  // ---------------------------------------------------------------------------
  // Prefixes, suffixes and substrings
  // ---------------------------------------------------------------------------

  /** `s.startswith(p)` */
  predicate StartsWith(s: string, p: string) {
    |p| <= |s| && s[..|p|] == p
  }

  /** `s.endswith(q)` */
  predicate EndsWith(s: string, q: string) {
    |q| <= |s| && s[|s| - |q|..] == q
  }

  lemma EndsWithAppend(a: string, b: string)
    ensures EndsWith(a + b, b)
  {
    assert (a + b)[|a|..] == b;
  }

  /** `t` occurs in `s` at index `k` */
  predicate OccursAt(s: string, t: string, k: int) {
    0 <= k && k + |t| <= |s| && s[k..k + |t|] == t
  }

  /** Python's `t in s` on strings */
  predicate Contains(s: string, t: string) {
    exists k | 0 <= k <= |s| - |t| :: OccursAt(s, t, k)
  }

  lemma OccursAtShift(s: string, t: string, j: nat)
    requires s != []
    ensures OccursAt(s, t, j + 1) <==> OccursAt(s[1..], t, j)
  {
    if j + 1 + |t| <= |s| {
      assert s[1..][j..j + |t|] == s[j + 1..j + 1 + |t|];
    }
  }

  /** `s.find(t)`: the least index at which `t` occurs in `s`, or None where Python gives -1 */
  function Find(s: string, t: string): (r: Option<nat>)
    ensures r.Some? ==> OccursAt(s, t, r.value)
    ensures r.Some? ==> forall j :: 0 <= j < r.value ==> !OccursAt(s, t, j)
    ensures r.None? <==> !Contains(s, t)
    decreases |s|
  {
    if |s| < |t| then None
    else if s[..|t|] == t then Some(0)
    else
      match Find(s[1..], t)
      case None =>
        assert forall k | 0 <= k <= |s| - |t| :: !OccursAt(s, t, k) by {
          forall k | 0 <= k <= |s| - |t| ensures !OccursAt(s, t, k) {
            if k > 0 { OccursAtShift(s, t, k - 1); }
          }
        }
        None
      case Some(i) =>
        OccursAtShift(s, t, i);
        assert forall j :: 0 <= j < i + 1 ==> !OccursAt(s, t, j) by {
          forall j | 0 <= j < i + 1 ensures !OccursAt(s, t, j) {
            if j > 0 { OccursAtShift(s, t, j - 1); }
          }
        }
        Some(i + 1)
  }

  /** The first occurrence of a character splits the text around it. */
  lemma FindCharSplit(s: string, c: char, i: nat)
    requires Find(s, [c]) == Some(i)
    ensures i < |s| && s[i] == c && c !in s[..i]
  {
    OccursAtChar(s, c, i);
    var pre := s[..i];
    forall j | 0 <= j < i ensures pre[j] != c { OccursAtChar(s, c, j); }
  }

  /** In `a + [c] + b` with no `c` in `a`, the first `c` is the one after `a`. */
  lemma FindCharAt(a: string, c: char, b: string)
    requires c !in a
    ensures Find(a + [c] + b, [c]) == Some(|a|)
  {
    var s := a + [c] + b;
    OccursAtChar(s, c, |a|);
    forall j | 0 <= j < |a| ensures !OccursAt(s, [c], j) { OccursAtChar(s, c, j); }
    assert Contains(s, [c]);
  }

  /** A one-character string occurs exactly where that character stands. */
  lemma OccursAtChar(s: string, c: char, k: int)
    ensures OccursAt(s, [c], k) <==> 0 <= k < |s| && s[k] == c
  {
    if 0 <= k < |s| { assert s[k..k + 1] == [s[k]]; }
  }

  /** Occurrences inside the left operand of a concatenation are occurrences in it alone. */
  lemma OccursInLeft(a: string, b: string, q: string, k: int)
    requires 0 <= k && k + |q| <= |a|
    ensures OccursAt(a + b, q, k) <==> OccursAt(a, q, k)
  {
    assert (a + b)[k..k + |q|] == a[k..k + |q|];
  }

  /** Occurrences past the left operand of a concatenation are occurrences in the right one. */
  lemma OccursInRight(a: string, b: string, q: string, k: int)
    requires 0 <= k
    ensures OccursAt(a + b, q, |a| + k) <==> OccursAt(b, q, k)
  {
    if k + |q| <= |b| {
      assert (a + b)[|a| + k..|a| + k + |q|] == b[k..k + |q|];
    }
  }

  /** `x` and `y` agree on their common length: one is a prefix of the other. */
  predicate Compatible(x: string, y: string) {
    StartsWith(x, y) || StartsWith(y, x)
  }

  /**
   * No occurrence of `q` can overlap an inserted copy of `r`: no proper suffix of `r` and
   * no suffix of `q` lines up with the other string.
   */
  ghost predicate NoOverlap(q: string, r: string) {
    && (forall m :: 0 <= m < |q| ==> !Compatible(q[m..], r))
    && (forall o :: 0 < o < |r| ==> !Compatible(r[o..], q))
  }

  /** A prefix of `r + x` is compatible with `r`. */
  lemma PrefixOfConcat(r: string, x: string, y: string)
    ensures StartsWith(r + x, y) ==> Compatible(y, r)
  {
    if StartsWith(r + x, y) {
      if |y| <= |r| {
        assert (r + x)[..|y|] == r[..|y|];
      } else {
        assert y[..|r|] == (r + x)[..|r|] == r;
      }
    }
  }

  /** A prefix agrees with the string at every index it covers. */
  lemma PrefixAgrees(x: string, y: string)
    ensures StartsWith(x, y) ==> forall k :: 0 <= k < |y| ==> x[k] == y[k]
  {
    if StartsWith(x, y) {
      forall k | 0 <= k < |y| ensures x[k] == y[k] { assert x[..|y|][k] == x[k]; }
    }
  }

  /** A string that differs from another at a common index is compatible with it in neither order. */
  lemma DifferAt(x: string, y: string, k: nat)
    requires k < |x| && k < |y| && x[k] != y[k]
    ensures !Compatible(x, y)
  {
    PrefixAgrees(x, y);
    PrefixAgrees(y, x);
  }

  /** `t` occurs at `o` exactly when the text from `o` on starts with `t`. */
  lemma OccursAtStartsWith(b: string, t: string, o: nat)
    requires o <= |b|
    ensures OccursAt(b, t, o) <==> StartsWith(b[o..], t)
  {
    if o + |t| <= |b| {
      assert b[o..][..|t|] == b[o..o + |t|];
    }
  }

  /** An occurrence that starts in `a` and ends in `b` leaves its tail as a prefix of `b`. */
  lemma Straddle(a: string, b: string, q: string, k: nat)
    requires k < |a| < k + |q|
    ensures OccursAt(a + b, q, k) ==> StartsWith(b, q[|a| - k..])
  {
    if OccursAt(a + b, q, k) {
      var m := |a| - k;
      assert (a + b)[|a|..k + |q|] == b[..|q| - m];
      assert (a + b)[|a|..k + |q|] == (a + b)[k..k + |q|][m..];
    }
  }

  /** An occurrence in a suffix of `s` is an occurrence in `s`. */
  lemma ContainsInSuffix(s: string, j: nat, q: string)
    requires j <= |s|
    ensures Contains(s[j..], q) ==> Contains(s, q)
  {
    if Contains(s[j..], q) {
      var k :| 0 <= k <= |s[j..]| - |q| && OccursAt(s[j..], q, k);
      assert s == s[..j] + s[j..];
      OccursInRight(s[..j], s[j..], q, k);
    }
  }

  /** The first character of an occurrence */
  lemma OccursAtHead(s: string, t: string, k: int)
    requires t != []
    ensures OccursAt(s, t, k) ==> s[k] == t[0]
  {
    if OccursAt(s, t, k) { assert s[k..k + |t|][0] == s[k]; }
  }

  /** `s.replace(p, r)`: each occurrence of `p`, found left to right without overlap, becomes `r` */
  function ReplaceAll(s: string, p: string, r: string): string
    requires p != []
    decreases |s|
  {
    match Find(s, p)
    case None => s
    case Some(i) => s[..i] + r + ReplaceAll(s[i + |p|..], p, r)
  }

  /** No occurrence of `q` lies wholly within `a` */
  predicate NoneWithin(a: string, q: string) {
    forall k :: 0 <= k && k + |q| <= |a| ==> !OccursAt(a, q, k)
  }

  /**
   * Text `a`, then an inserted `r`, then a tail: when `q` does not occur within `a` or within
   * the tail and cannot overlap `r`, it does not occur in the whole.
   */
  lemma ConcatNoOccurrence(a: string, r: string, tail: string, q: string)
    requires q != [] && NoOverlap(q, r)
    requires NoneWithin(a, q)
    requires !Contains(tail, q)
    ensures !Contains(a + r + tail, q)
  {
    var b := r + tail;
    assert a + r + tail == a + b;
    forall k | 0 <= k <= |a + b| - |q| ensures !OccursAt(a + b, q, k) {
      if k + |q| <= |a| {
        OccursInLeft(a, b, q, k);
      } else if k < |a| {
        Straddle(a, b, q, k);
        PrefixOfConcat(r, tail, q[|a| - k..]);
      } else {
        var o := k - |a|;
        OccursInRight(a, b, q, o);
        if o < |r| {
          OccursAtStartsWith(b, q, o);
          assert b[o..] == r[o..] + tail;
          PrefixOfConcat(r[o..], tail, q);
          assert q[0..] == q;
        } else {
          OccursInRight(r, tail, q, o - |r|);
        }
      }
    }
  }

  /** Before the first occurrence of `p`, neither `p` nor a string absent from `s` occurs. */
  lemma NoOccurrenceBefore(s: string, p: string, q: string, i: nat)
    requires p != [] && Find(s, p) == Some(i)
    requires q == p || !Contains(s, q)
    ensures NoneWithin(s[..i], q)
  {
    var a := s[..i];
    forall k | 0 <= k && k + |q| <= |a| ensures !OccursAt(a, q, k) {
      assert s == a + s[i..];
      OccursInLeft(a, s[i..], q, k);
    }
  }

  /** One step of `replace`: no occurrence before the match, none in `r` or across it, none in the replaced rest */
  lemma ReplaceStepLeavesNoOccurrence(s: string, p: string, r: string, q: string, i: nat)
    requires p != [] && q != [] && NoOverlap(q, r)
    requires Find(s, p) == Some(i)
    requires q == p || !Contains(s, q)
    requires !Contains(ReplaceAll(s[i + |p|..], p, r), q)
    ensures !Contains(ReplaceAll(s, p, r), q)
  {
    var tail := ReplaceAll(s[i + |p|..], p, r);
    ReplaceAllAt(s, p, r, i);
    NoOccurrenceBefore(s, p, q, i);
    ConcatNoOccurrence(s[..i], r, tail, q);
  }

  /** `replace` keeps the text before the first match, puts `r` in its place and goes on after it. */
  lemma ReplaceAllAt(s: string, p: string, r: string, i: nat)
    requires p != [] && Find(s, p) == Some(i)
    ensures ReplaceAll(s, p, r) == s[..i] + r + ReplaceAll(s[i + |p|..], p, r)
  {
  }

  /**
   * After `s.replace(p, r)` the string `q` does not occur, when `q` cannot overlap `r` and
   * either `q` is the replaced pattern itself or `q` did not occur in `s` to begin with.
   */
  lemma {:induction false} ReplaceAllLeavesNoOccurrence(s: string, p: string, r: string, q: string)
    requires p != [] && q != []
    requires NoOverlap(q, r)
    requires q == p || !Contains(s, q)
    ensures !Contains(ReplaceAll(s, p, r), q)
    decreases |s|
  {
    match Find(s, p)
    case None =>
    case Some(i) =>
      ContainsInSuffix(s, i + |p|, q);
      ReplaceAllLeavesNoOccurrence(s[i + |p|..], p, r, q);
      ReplaceStepLeavesNoOccurrence(s, p, r, q, i);
  }

  /** Prepending text that lacks the first character of `q` creates no occurrence of `q`. */
  lemma PrependLeavesNoOccurrence(x: string, s: string, q: string)
    requires q != [] && !Contains(s, q)
    requires forall k :: 0 <= k < |x| ==> x[k] != q[0]
    ensures !Contains(x + s, q)
  {
    forall k | 0 <= k <= |x + s| - |q| ensures !OccursAt(x + s, q, k) {
      if k < |x| {
        assert (x + s)[k] == x[k];
        OccursAtHead(x + s, q, k);
      } else {
        OccursInRight(x, s, q, k - |x|);
      }
    }
  }

  /** An occurrence in either part of a concatenation is an occurrence in the whole. */
  lemma ContainsConcat(a: string, b: string, t: string)
    requires Contains(a, t) || Contains(b, t)
    ensures Contains(a + b, t)
  {
    if Contains(a, t) {
      var k :| 0 <= k <= |a| - |t| && OccursAt(a, t, k);
      OccursInLeft(a, b, t, k);
    } else {
      var k :| 0 <= k <= |b| - |t| && OccursAt(b, t, k);
      OccursInRight(a, b, t, k);
    }
  }

  /** Text found in the right operand is found in the concatenation. */
  lemma ContainsRight(a: string, b: string, t: string)
    ensures Contains(b, t) ==> Contains(a + b, t)
  {
    if Contains(b, t) { ContainsConcat(a, b, t); }
  }

  // ---------------------------------------------------------------------------
  // Whitespace and case
  // ---------------------------------------------------------------------------

  /** Python's `str.isspace()` for one character */
  predicate IsSpace(c: char) {
    || '\t' <= c <= '\r' || '\U{1c}' <= c <= '\U{1f}' || c == ' '
    || c == '\U{85}' || c == '\U{a0}' || c == '\U{1680}'
    || '\U{2000}' <= c <= '\U{200a}' || c == '\U{2028}' || c == '\U{2029}'
    || c == '\U{202f}' || c == '\U{205f}' || c == '\U{3000}'
  }

  /** The number of leading whitespace characters */
  function SpanSpaces(s: string): (k: nat)
    ensures k <= |s| && (k == |s| || !IsSpace(s[k]))
    ensures forall j :: 0 <= j < k ==> IsSpace(s[j])
  {
    if s != [] && IsSpace(s[0]) then 1 + SpanSpaces(s[1..]) else 0
  }

  /** The length left once trailing whitespace is dropped */
  function BackSpanSpaces(s: string): (k: nat)
    ensures k <= |s| && (k == 0 || !IsSpace(s[k - 1]))
    ensures forall j :: k <= j < |s| ==> IsSpace(s[j])
  {
    if s != [] && IsSpace(s[|s| - 1]) then BackSpanSpaces(s[..|s| - 1]) else |s|
  }

  /** `s.lstrip()` */
  function StripLeft(s: string): string {
    s[SpanSpaces(s)..]
  }

  /** `s.rstrip()` */
  function StripRight(s: string): string {
    s[..BackSpanSpaces(s)]
  }

  /**
   * `s.strip()`: what is left of `s` once its leading and its trailing whitespace are
   * removed, which neither starts nor ends with whitespace
   */
  function Strip(s: string): (r: string)
    ensures r == [] || (!IsSpace(r[0]) && !IsSpace(r[|r| - 1]))
    ensures SpanSpaces(s) + |r| <= |s| && r == s[SpanSpaces(s)..SpanSpaces(s) + |r|]
    ensures forall j :: SpanSpaces(s) + |r| <= j < |s| ==> IsSpace(s[j])
  {
    var l := StripLeft(s);
    assert forall j :: SpanSpaces(s) <= j < |s| ==> s[j] == l[j - SpanSpaces(s)];
    StripRight(l)
  }

  /** A string that neither starts nor ends with whitespace is its own `strip()`. */
  lemma StripUnchanged(s: string)
    requires s == [] || (!IsSpace(s[0]) && !IsSpace(s[|s| - 1]))
    ensures Strip(s) == s
  {
    assert StripLeft(s) == s;
  }

  /** A string is empty after `strip()` exactly when it is all whitespace. */
  lemma StripEmpty(s: string)
    ensures Strip(s) == [] <==> forall j :: 0 <= j < |s| ==> IsSpace(s[j])
  {
    var lo := SpanSpaces(s);
    var l := s[lo..];
    var hi := BackSpanSpaces(l);
    assert forall j :: lo <= j < |s| ==> s[j] == l[j - lo];
  }

  /** A line whose text neither starts nor ends with whitespace strips back to that text. */
  lemma StripLine(body: string)
    requires body != [] && !IsSpace(body[0]) && !IsSpace(body[|body| - 1])
    ensures Strip(body + "\n") == body
  {
    var s := body + "\n";
    assert s[0] == body[0];
    assert SpanSpaces(s) == 0;
    assert StripLeft(s) == s;
    assert s[|body|] == '\n' && s[|body| - 1] == body[|body| - 1];
    assert BackSpanSpaces(s) == |body|;
    assert s[..|body|] == body;
  }

  function UpperChar(c: char): char {
    if 'a' <= c <= 'z' then (c as int - 32) as char else c
  }

  function LowerChar(c: char): char {
    if 'A' <= c <= 'Z' then (c as int + 32) as char else c
  }

  /** `s.upper()` on ASCII letters */
  function Upper(s: string): (r: string)
    ensures |r| == |s| && forall i :: 0 <= i < |s| ==> r[i] == UpperChar(s[i])
  {
    seq(|s|, i requires 0 <= i < |s| => UpperChar(s[i]))
  }

  /** `s.lower()` on ASCII letters */
  function Lower(s: string): (r: string)
    ensures |r| == |s| && forall i :: 0 <= i < |s| ==> r[i] == LowerChar(s[i])
  {
    seq(|s|, i requires 0 <= i < |s| => LowerChar(s[i]))
  }

  /** `upper()` changes letters only: any other character keeps its places. */
  lemma UpperKeeps(s: string, c: char)
    requires !('a' <= c <= 'z') && !('A' <= c <= 'Z')
    ensures c in Upper(s) <==> c in s
  {
    if c in Upper(s) {
      var i :| 0 <= i < |s| && Upper(s)[i] == c;
      assert s[i] == c;
    }
    if c in s {
      var i :| 0 <= i < |s| && s[i] == c;
      assert Upper(s)[i] == c;
    }
  }

  /** A string without upper-case ASCII letters comes back from `upper()` then `lower()`. */
  lemma LowerOfUpper(s: string)
    requires Lower(s) == s
    ensures Lower(Upper(s)) == s
  {
    forall i | 0 <= i < |s| ensures Lower(Upper(s))[i] == s[i] {
      assert LowerChar(s[i]) == s[i];
    }
  }

  /** `lower()` leaves a lower-cased string as it is. */
  lemma LowerLower(s: string)
    ensures Lower(Lower(s)) == Lower(s)
  {
    forall i | 0 <= i < |s| ensures Lower(Lower(s))[i] == Lower(s)[i] {
      assert LowerChar(LowerChar(s[i])) == LowerChar(s[i]);
    }
  }

  // ---------------------------------------------------------------------------
  // Lines, joins and numbers
  // ---------------------------------------------------------------------------

  /** The concatenation of a sequence of strings */
  function Concat(parts: seq<string>): string {
    if parts == [] then [] else parts[0] + Concat(parts[1..])
  }

  lemma ConcatAppend(a: seq<string>, b: seq<string>)
    ensures Concat(a + b) == Concat(a) + Concat(b)
  {
    if a != [] {
      assert (a + b)[1..] == a[1..] + b;
      ConcatAppend(a[1..], b);
    } else {
      assert a + b == b;
    }
  }

  /** A character none of the parts holds is not in their concatenation. */
  lemma {:induction false} ConcatExcludes(parts: seq<string>, c: char)
    requires forall i :: 0 <= i < |parts| ==> c !in parts[i]
    ensures c !in Concat(parts)
  {
    if parts != [] {
      ConcatExcludes(parts[1..], c);
    }
  }

  /** `sep.join(parts)` */
  function JoinWith(parts: seq<string>, sep: string): string {
    if parts == [] then []
    else if |parts| == 1 then parts[0]
    else parts[0] + sep + JoinWith(parts[1..], sep)
  }

  /** The lines `readlines()` gives: non-empty, all but the last ending in "\n", no "\n" inside one */
  ghost predicate LinesShaped(lines: seq<string>) {
    && (forall i :: 0 <= i < |lines| ==> lines[i] != [])
    && (forall i :: 0 <= i < |lines| - 1 ==> EndsWith(lines[i], "\n"))
    && (forall i, j :: 0 <= i < |lines| && 0 <= j < |lines[i]| - 1 ==> lines[i][j] != '\n')
  }

  /** A line ending at the first "\n" put in front of shaped lines keeps them shaped. */
  lemma ConsLine(line: string, rest: seq<string>)
    requires line != [] && line[|line| - 1] == '\n'
    requires forall j :: 0 <= j < |line| - 1 ==> line[j] != '\n'
    requires LinesShaped(rest)
    ensures LinesShaped([line] + rest)
    ensures Concat([line] + rest) == line + Concat(rest)
  {
    var r := [line] + rest;
    assert r[1..] == rest;
    assert EndsWith(line, "\n") by {
      assert line[|line| - 1..] == [line[|line| - 1]];
    }
    forall i | 1 <= i < |r| ensures r[i] == rest[i - 1] { }
  }

  /** The text up to and including the first "\n" holds no other "\n". */
  lemma FirstLine(s: string, i: nat)
    requires Find(s, "\n") == Some(i)
    ensures i < |s| && s[i] == '\n'
    ensures forall j :: 0 <= j < i ==> s[j] != '\n'
  {
    FindCharSplit(s, '\n', i);
    forall j | 0 <= j < i ensures s[j] != '\n' {
      assert s[..i][j] == s[j];
    }
  }

  /** A non-empty text without "\n" is one line. */
  lemma LastLine(s: string)
    requires s != [] && Find(s, "\n") == None
    ensures LinesShaped([s]) && Concat([s]) == s
  {
    forall j | 0 <= j < |s| ensures s[j] != '\n' {
      OccursAtChar(s, '\n', j);
    }
    assert Concat([s]) == s + Concat([]);
  }

  /**
   * The lines of a text file as `readlines()` and `for line in f` give them: each line
   * keeps its terminating "\n"; a last line without one is kept as it is. The text is the
   * one Python reads after its newline translation.
   */
  function ReadLines(s: string): (lines: seq<string>)
    ensures Concat(lines) == s
    ensures LinesShaped(lines)
    decreases |s|
  {
    if s == [] then []
    else
      match Find(s, "\n")
      case None =>
        LastLine(s);
        [s]
      case Some(i) =>
        FirstLine(s, i);
        var line := s[..i + 1];
        var rest := ReadLines(s[i + 1..]);
        ConsLine(line, rest);
        assert s == line + s[i + 1..];
        [line] + rest
  }

  /** The text of lines joined in order: `"".join(lines)` */
  lemma ReadLinesOfConcatLine(line: string, rest: string)
    requires EndsWith(line, "\n")
    requires forall j :: 0 <= j < |line| - 1 ==> line[j] != '\n'
    ensures ReadLines(line + rest) == [line] + ReadLines(rest)
  {
    var s := line + rest;
    var i := |line| - 1;
    assert OccursAt(s, "\n", i) by { assert s[i..i + 1] == line[i..]; }
    forall j | 0 <= j < i ensures !OccursAt(s, "\n", j) {
      assert s[j] == line[j];
    }
    assert Find(s, "\n") == Some(i);
    assert s[..i + 1] == line;
    assert s[i + 1..] == rest;
  }

  /** Text made of whole lines reads back as exactly those lines. */
  lemma {:induction false} ReadLinesOfConcat(ls: seq<string>)
    requires forall i :: 0 <= i < |ls| ==> EndsWith(ls[i], "\n")
    requires forall i, j :: 0 <= i < |ls| && 0 <= j < |ls[i]| - 1 ==> ls[i][j] != '\n'
    ensures ReadLines(Concat(ls)) == ls
  {
    if ls != [] {
      ReadLinesOfConcat(ls[1..]);
      ReadLinesOfConcatLine(ls[0], Concat(ls[1..]));
    }
  }

  /**
   * Python's reading in text mode with universal newlines: "\r\n" and a lone "\r" both
   * become "\n".
   */
  function TranslateNewlines(s: string): (r: string)
    ensures '\r' !in r
  {
    if s == [] then []
    else if s[0] == '\r' then
      if |s| > 1 && s[1] == '\n' then "\n" + TranslateNewlines(s[2..]) else "\n" + TranslateNewlines(s[1..])
    else [s[0]] + TranslateNewlines(s[1..])
  }

  /** Text without carriage returns reads back unchanged. */
  lemma {:induction false} TranslateNewlinesUnchanged(s: string)
    requires forall i :: 0 <= i < |s| ==> s[i] != '\r'
    ensures TranslateNewlines(s) == s
  {
    if s != [] {
      TranslateNewlinesUnchanged(s[1..]);
      assert s == [s[0]] + s[1..];
    }
  }

  /** The lines of a text file as Python reads it in text mode */
  function TextLines(s: string): seq<string> {
    ReadLines(TranslateNewlines(s))
  }

  function DigitChar(d: nat): char
    requires d < 10
  {
    ('0' as int + d) as char
  }

  /** `str(n)` for a natural number */
  function NatToString(n: nat): (r: string)
    ensures r != []
    ensures forall i :: 0 <= i < |r| ==> '0' <= r[i] <= '9'
  {
    if n < 10 then [DigitChar(n)] else NatToString(n / 10) + [DigitChar(n % 10)]
  }

  // ---------------------------------------------------------------------------
  // os.path and pathlib
  // ---------------------------------------------------------------------------

  /** The greatest index holding `c`, or None where `str.rfind` gives -1 */
  function LastIndexOf(s: string, c: char): (r: Option<nat>)
    ensures r.Some? ==> r.value < |s| && s[r.value] == c && forall j :: r.value < j < |s| ==> s[j] != c
    ensures r.None? ==> forall j :: 0 <= j < |s| ==> s[j] != c
  {
    if s == [] then None
    else if s[|s| - 1] == c then Some(|s| - 1)
    else LastIndexOf(s[..|s| - 1], c)
  }

  /** `s.find(c)` for one character: the least index holding `c`, or None where it gives -1 */
  function IndexOfChar(s: string, c: char): (r: Option<nat>)
    ensures r.Some? ==> r.value < |s| && s[r.value] == c && forall j :: 0 <= j < r.value ==> s[j] != c
    ensures r.None? ==> forall j :: 0 <= j < |s| ==> s[j] != c
  {
    if s == [] then None
    else if s[0] == c then Some(0)
    else match IndexOfChar(s[1..], c)
      case None => None
      case Some(i) => Some(i + 1)
  }

  /** The last `c` is at `i` when `c` stands at `i` and nowhere after it. */
  lemma LastIndexOfAt(s: string, c: char, i: nat)
    requires i < |s| && s[i] == c && forall j :: i < j < |s| ==> s[j] != c
    ensures LastIndexOf(s, c) == Some(i)
  {
  }

  /** A string does not end with `t` when their last characters differ. */
  lemma NotEndsWithByLast(s: string, t: string)
    requires t != [] && (s == [] || s[|s| - 1] != t[|t| - 1])
    ensures !EndsWith(s, t)
  {
    if |t| <= |s| { assert s[|s| - |t|..][|t| - 1] == s[|s| - 1]; }
  }

  /** `os.path.join(a, b)` for two parts */
  function JoinPath(a: string, b: string): string {
    if StartsWith(b, "/") then b
    else if a == [] || EndsWith(a, "/") then a + b
    else a + "/" + b
  }

  /** `os.path.basename(p)`: the text after the last "/", all of `p` when it has none */
  function Basename(p: string): (r: string)
    ensures '/' !in r && EndsWith(p, r)
    ensures |r| == |p| || p[|p| - |r| - 1] == '/'
  {
    match LastIndexOf(p, '/')
    case None => p
    case Some(i) => p[i + 1..]
  }

  /** The base name of a path that ends in "/" + `name` (or is `name`) is `name`. */
  lemma BasenameAfterSlash(x: string, name: string)
    requires '/' !in name
    requires x == [] || x[|x| - 1] == '/'
    ensures Basename(x + name) == name
  {
    var p := x + name;
    if x == [] {
      assert p == name;
      assert forall j :: 0 <= j < |p| ==> p[j] != '/' by {
        forall j | 0 <= j < |p| ensures p[j] != '/' { assert p[j] in name; }
      }
    } else {
      assert p[|x| - 1] == '/';
      assert forall j :: |x| - 1 < j < |p| ==> p[j] != '/' by {
        forall j | |x| - 1 < j < |p| ensures p[j] != '/' { assert p[j] == name[j - |x|]; }
      }
      assert p[|x|..] == name;
    }
  }

  /** The base name of a joined path is the name joined on, when that name holds no "/". */
  lemma BasenameOfJoin(a: string, name: string)
    requires '/' !in name
    ensures Basename(JoinPath(a, name)) == name
  {
    if name != [] { assert name[0] != '/'; }
    if a == [] {
      BasenameAfterSlash(a, name);
    } else if EndsWith(a, "/") {
      assert a[|a| - 1] == a[|a| - 1..][0];
      BasenameAfterSlash(a, name);
    } else {
      BasenameAfterSlash(a + "/", name);
      assert a + "/" + name == (a + "/") + name;
    }
  }

  /** Two different names joined to the same directory give different paths. */
  lemma JoinPathInjective(a: string, x: string, y: string)
    requires '/' !in x && '/' !in y && x != y
    ensures JoinPath(a, x) != JoinPath(a, y)
  {
    BasenameOfJoin(a, x);
    BasenameOfJoin(a, y);
  }

  /**
   * `pathlib.PurePath(name).suffix`: from the last "." of the name, when that "." is
   * neither its first nor its last character; otherwise empty.
   */
  function Suffix(name: string): (r: string)
    ensures r != [] ==> 2 <= |r| < |name| && r[0] == '.' && EndsWith(name, r) && '.' !in r[1..]
    ensures r == [] ==> forall k :: 0 < k < |name| - 1 && name[k] == '.' ==> '.' in name[k + 1..]
  {
    match LastIndexOf(name, '.')
    case None => []
    case Some(i) => if 0 < i < |name| - 1 then name[i..] else []
  }
}
