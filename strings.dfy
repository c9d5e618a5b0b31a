/**
 * The Python `str` operations the pipeline relies on, over `seq<char>`:
 * `startswith`, `endswith`, `in`, `lstrip`/`rstrip`/`strip` with one
 * character, `replace`, `split` and the code-point order that `sorted` uses.
 */
module Strings {
  import opened Wrappers

  predicate StartsWith(s: string, p: string) {
    |p| <= |s| && s[..|p|] == p
  }

  lemma ConcatAssoc(a: string, b: string, c: string)
    ensures a + (b + c) == (a + b) + c
  {
  }

  predicate EndsWith(s: string, p: string) {
    |p| <= |s| && s[|s| - |p|..] == p
  }

  /** `p` occurs in `s` starting at index `i`. */
  predicate OccursAt(s: string, p: string, i: nat) {
    i + |p| <= |s| && s[i..i + |p|] == p
  }

  lemma OccursShift(s: string, p: string, j: nat)
    requires s != [] && j >= 1
    ensures OccursAt(s, p, j) <==> OccursAt(s[1..], p, j - 1)
  {
    if j + |p| <= |s| {
      assert s[j..j + |p|] == s[1..][j - 1..j - 1 + |p|];
    }
  }

  /** Python's `p in s`: some position of `s` starts an occurrence of `p`. */
  predicate Contains(s: string, p: string)
  {
    if StartsWith(s, p) then true
    else if s == [] then false
    else Contains(s[1..], p)
  }

  lemma {:induction false} ContainsAt(s: string, p: string, i: nat)
    requires OccursAt(s, p, i)
    ensures Contains(s, p)
  {
    if i > 0 {
      assert s[1..][i - 1..i - 1 + |p|] == p;
      ContainsAt(s[1..], p, i - 1);
    }
  }

  lemma {:induction false} ContainsWitness(s: string, p: string) returns (i: nat)
    requires Contains(s, p)
    ensures OccursAt(s, p, i)
  {
    if StartsWith(s, p) {
      i := 0;
    } else {
      var j := ContainsWitness(s[1..], p);
      i := j + 1;
      assert s[i..i + |p|] == s[1..][j..j + |p|];
    }
  }

  /** `p in s` holds exactly when `p` occurs at some index of `s`. */
  lemma ContainsIff(s: string, p: string)
    ensures Contains(s, p) <==> exists i: nat :: OccursAt(s, p, i)
  {
    if Contains(s, p) {
      var i := ContainsWitness(s, p);
    }
    if i: nat :| OccursAt(s, p, i) {
      ContainsAt(s, p, i);
    }
  }

  /** `s.lstrip(c)`: the longest suffix of `s` that does not start with `c`. */
  function LStrip(s: string, c: char): (r: string)
    ensures |r| <= |s| && r == s[|s| - |r|..]
    ensures forall i :: 0 <= i < |s| - |r| ==> s[i] == c
    ensures r == [] || r[0] != c
  {
    if s != [] && s[0] == c then LStrip(s[1..], c) else s
  }

  /** `s.rstrip(c)`: the longest prefix of `s` that does not end with `c`. */
  function RStrip(s: string, c: char): (r: string)
    ensures |r| <= |s| && r == s[..|r|]
    ensures forall i :: |r| <= i < |s| ==> s[i] == c
    ensures r == [] || r[|r| - 1] != c
  {
    if s != [] && s[|s| - 1] == c then RStrip(s[..|s| - 1], c) else s
  }

  /** `s.strip(c)`: both ends. */
  function Strip(s: string, c: char): string {
    RStrip(LStrip(s, c), c)
  }

  lemma {:induction false} LStripNoLead(s: string, c: char)
    requires s == [] || s[0] != c
    ensures LStrip(s, c) == s
  {
  }

  lemma {:induction false} LStripLead(s: string, c: char)
    requires s != [] && s[0] == c
    ensures LStrip(s, c) == LStrip(s[1..], c)
  {
  }

  lemma {:induction false} RStripNoTrail(s: string, c: char)
    requires s == [] || s[|s| - 1] != c
    ensures RStrip(s, c) == s
  {
  }

  lemma {:induction false} RStripTrail(s: string, c: char)
    requires s != [] && s[|s| - 1] == c
    ensures RStrip(s, c) == RStrip(s[..|s| - 1], c)
  {
  }

  /**
   * `s.replace(target, repl)`: every occurrence of `target`, scanning left to right
   * and never overlapping, becomes `repl`. Text taken from `repl` is not
   * scanned again.
   */
  function ReplaceAll(s: string, target: string, repl: string): (r: string)
    requires target != []
    ensures !Contains(s, target) ==> r == s
    decreases |s|
  {
    if |s| < |target| then s
    else if StartsWith(s, target) then repl + ReplaceAll(s[|target|..], target, repl)
    else [s[0]] + ReplaceAll(s[1..], target, repl)
  }

  /** Replacing a string by itself leaves every text unchanged. */
  lemma {:induction false} ReplaceAllSelf(s: string, target: string)
    requires target != []
    ensures ReplaceAll(s, target, target) == s
    decreases |s|
  {
    if |s| < |target| {
    } else if StartsWith(s, target) {
      ReplaceAllSelf(s[|target|..], target);
      assert s == s[..|target|] + s[|target|..];
    } else {
      ReplaceAllSelf(s[1..], target);
      assert s == [s[0]] + s[1..];
    }
  }

  /** A text that is exactly `target` becomes exactly `repl`. */
  lemma ReplaceAllWhole(target: string, repl: string)
    requires target != []
    ensures ReplaceAll(target, target, repl) == repl
  {
    assert target[|target|..] == [];
    assert StartsWith(target, target);
  }

  /** Python's `s.split('\n')`: the pieces between newlines, always at least one. */
  function SplitLines(s: string): (r: seq<string>)
    ensures |r| >= 1
    ensures StartsWith(s, r[0]) && (|r[0]| == |s| || s[|r[0]|] == '\n')
    ensures forall j :: 0 <= j < |r| ==> '\n' !in r[j]
  {
    if s == [] then [""]
    else
      var rest := SplitLines(s[1..]);
      if s[0] == '\n' then [""] + rest
      else [[s[0]] + rest[0]] + rest[1..]
  }

  /**
   * A pattern without a newline starts the text exactly when it starts the
   * text's first line.
   */
  lemma {:induction false} StartsWithFirstLine(s: string, line: string, p: string)
    requires StartsWith(s, line) && (|line| == |s| || s[|line|] == '\n')
    requires '\n' !in p
    ensures StartsWith(s, p) <==> StartsWith(line, p)
  {
    if |p| <= |line| {
      assert s[..|p|] == line[..|p|];
    } else if |line| < |s| && |p| <= |s| {
      assert s[..|p|][|line|] == '\n';
    }
  }

  /**
   * A pattern without a newline occurs in a text exactly when it occurs in
   * one of the text's lines.
   */
  lemma EmptyPatternEverywhere(s: string, t: string)
    ensures Contains(s, "") && Contains(t, "")
  {
    assert StartsWith(s, "") && StartsWith(t, "");
  }

  /** Some line of `lines` contains `p`. */
  predicate AnyLineContains(lines: seq<string>, p: string) {
    lines != [] && (Contains(lines[0], p) || AnyLineContains(lines[1..], p))
  }

  lemma {:induction false} ContainsByLines(s: string, p: string)
    requires '\n' !in p
    ensures Contains(s, p) <==> AnyLineContains(SplitLines(s), p)
  {
    var lines := SplitLines(s);
    if s == [] {
      assert lines == [s];
    } else if p == [] {
      EmptyPatternEverywhere(s, lines[0]);
    } else {
      var rest := SplitLines(s[1..]);
      ContainsByLines(s[1..], p);
      if s[0] == '\n' {
        assert !StartsWith(s, p) by { assert p[0] != '\n'; }
        assert lines == [""] + rest;
        assert lines[1..] == rest;
        assert !Contains("", p);
      } else {
        var first := [s[0]] + rest[0];
        assert lines == [first] + rest[1..];
        assert lines[1..] == rest[1..];
        StartsWithFirstLine(s, first, p);
        assert first[1..] == rest[0];
      }
    }
  }

  /** First index at which `p` occurs in `s` (Python's `str.find`, with `None` for -1). */
  function IndexOf(s: string, p: string): (r: Option<nat>)
    ensures r.Some? ==> OccursAt(s, p, r.value)
    ensures r.Some? ==> forall j: nat :: j < r.value ==> !OccursAt(s, p, j)
    ensures r.None? <==> !Contains(s, p)
  {
    if StartsWith(s, p) then Some(0)
    else if s == [] then None
    else
      match IndexOf(s[1..], p)
      case None => None
      case Some(i) =>
        OccursShift(s, p, i + 1);
        forall j: nat | 1 <= j <= i ensures !OccursAt(s, p, j) {
          OccursShift(s, p, j);
        }
        Some(i + 1)
  }

  /**
   * `s.split(sep)[1]`: the text between the first and the second occurrence
   * of `sep`; `None` where Python raises IndexError (no occurrence at all).
   */
  function SecondPiece(s: string, sep: string): (r: Option<string>)
    requires sep != []
    ensures r.None? <==> !Contains(s, sep)
    ensures r.Some? ==> !Contains(r.value, sep)
  {
    match IndexOf(s, sep)
    case None => None
    case Some(i) =>
      var rest := s[i + |sep|..];
      match IndexOf(rest, sep)
      case None => Some(rest)
      case Some(j) =>
        NoOccurrenceBefore(rest, sep, j);
        Some(rest[..j])
  }

  lemma {:induction false} NoOccurrenceBefore(s: string, p: string, j: nat)
    requires p != [] && j <= |s|
    requires forall k: nat :: k < j ==> !OccursAt(s, p, k)
    ensures !Contains(s[..j], p)
  {
    forall k: nat | OccursAt(s[..j], p, k)
      ensures OccursAt(s, p, k)
    {
      assert s[..j][k..k + |p|] == s[k..k + |p|];
    }
    ContainsIff(s[..j], p);
  }

  /** `s.split(c)[-1]`: the text after the last `c`, or `s` when there is none. */
  function LastPiece(s: string, c: char): (r: string)
    ensures EndsWith(s, r) && c !in r
    ensures |r| < |s| ==> s[|s| - |r| - 1] == c
  {
    if s == [] then []
    else if s[|s| - 1] == c then []
    else LastPiece(s[..|s| - 1], c) + [s[|s| - 1]]
  }

  /** ASCII `str.upper()`. */
  function Upper(s: string): (r: string)
    ensures |r| == |s|
  {
    if s == [] then []
    else [if 'a' <= s[0] <= 'z' then (s[0] as int - 32) as char else s[0]] + Upper(s[1..])
  }

  /** Python's string order: code point by code point, a proper prefix first. */
  predicate LessEq(a: string, b: string)
  {
    if a == [] then true
    else if b == [] then false
    else a[0] < b[0] || (a[0] == b[0] && LessEq(a[1..], b[1..]))
  }

  lemma {:induction false} LessEqTotal(a: string, b: string)
    ensures LessEq(a, b) || LessEq(b, a)
  {
    if a != [] && b != [] && a[0] == b[0] {
      LessEqTotal(a[1..], b[1..]);
    }
  }

  predicate Sorted(s: seq<string>) {
    forall i :: 0 < i < |s| ==> LessEq(s[i - 1], s[i])
  }

  function Insert(x: string, s: seq<string>): (r: seq<string>)
    requires Sorted(s)
    ensures Sorted(r) && multiset(r) == multiset(s) + multiset{x}
    ensures |r| > 0 && (r[0] == x || (s != [] && r[0] == s[0]))
  {
    if s == [] || LessEq(x, s[0]) then [x] + s
    else
      LessEqTotal(x, s[0]);
      var tail := Insert(x, s[1..]);
      assert s == [s[0]] + s[1..];
      [s[0]] + tail
  }

  /** `sorted(xs)`: the same strings, in ascending order. */
  function Sort(xs: seq<string>): (r: seq<string>)
    ensures Sorted(r) && multiset(r) == multiset(xs)
  {
    if xs == [] then []
    else
      assert xs == [xs[0]] + xs[1..];
      Insert(xs[0], Sort(xs[1..]))
  }
}
