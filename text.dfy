/** The string operations the scripts apply to paths and to tool output:
    `str.split`, `str.strip`, `str.splitlines`, `str.lower`, slicing the tail
    of a string and the digit filter of the score reader. Characters are
    restricted to what the scripts meet: ASCII letters, digits and
    whitespace (see README, "Left out"). */
module Text {

  // ---------------------------------------------------------------------------
  // split and join on one separator character

  /** `s.split(c)`: the pieces of `s` between occurrences of `c`. */
  function SplitOn(s: string, c: char): (r: seq<string>)
    ensures |r| >= 1
    ensures forall i :: 0 <= i < |r| ==> c !in r[i]
  {
    if s == [] then [[]]
    else
      var rest := SplitOn(s[1..], c);
      if s[0] == c then [[]] + rest else [[s[0]] + rest[0]] + rest[1..]
  }

  /** `c.join(parts)`. */
  function JoinWith(parts: seq<string>, c: char): string {
    if parts == [] then []
    else if |parts| == 1 then parts[0]
    else parts[0] + [c] + JoinWith(parts[1..], c)
  }

  /** Splitting and joining again gives back the original string. */
  lemma {:induction false} JoinSplit(s: string, c: char)
    ensures JoinWith(SplitOn(s, c), c) == s
  {
    if s != [] {
      var rest := SplitOn(s[1..], c);
      JoinSplit(s[1..], c);
      if s[0] == c {
        assert SplitOn(s, c) == [[]] + rest;
      } else if |rest| == 1 {
        assert SplitOn(s, c) == [[s[0]] + rest[0]];
      } else {
        var r := SplitOn(s, c);
        assert r == [[s[0]] + rest[0]] + rest[1..];
        assert r[1..] == rest[1..];
        assert JoinWith(rest, c) == rest[0] + [c] + JoinWith(rest[1..], c);
      }
    }
  }

  lemma {:induction false} SplitNoSeparator(a: string, c: char)
    requires c !in a
    ensures SplitOn(a, c) == [a]
  {
    if a != [] {
      SplitNoSeparator(a[1..], c);
      assert [a[0]] + a[1..] == a;
    }
  }

  lemma {:induction false} SplitAfterPiece(a: string, c: char, b: string)
    requires c !in a
    ensures SplitOn(a + [c] + b, c) == [a] + SplitOn(b, c)
  {
    if a == [] {
      assert a + [c] + b == [c] + b;
      assert ([c] + b)[1..] == b;
    } else {
      assert (a + [c] + b)[1..] == a[1..] + [c] + b;
      SplitAfterPiece(a[1..], c, b);
      assert [a[0]] + a[1..] == a;
    }
  }

  /** Joining pieces that do not contain the separator and splitting again
      gives back the pieces. */
  lemma {:induction false} SplitJoin(parts: seq<string>, c: char)
    requires |parts| >= 1
    requires forall i :: 0 <= i < |parts| ==> c !in parts[i]
    ensures SplitOn(JoinWith(parts, c), c) == parts
  {
    if |parts| == 1 {
      SplitNoSeparator(parts[0], c);
    } else {
      SplitJoin(parts[1..], c);
      SplitAfterPiece(parts[0], c, JoinWith(parts[1..], c));
      assert [parts[0]] + parts[1..] == parts;
    }
  }

  /** Joining one more piece at the end adds the separator and the piece. */
  lemma {:induction false} JoinWithSnoc(parts: seq<string>, x: string, c: char)
    requires |parts| >= 1
    ensures JoinWith(parts + [x], c) == JoinWith(parts, c) + [c] + x
  {
    if |parts| > 1 {
      assert (parts + [x])[1..] == parts[1..] + [x];
      JoinWithSnoc(parts[1..], x, c);
    }
  }

  /** `s.split(c)[-1]`: the text after the last `c`, or all of `s`. */
  function LastPiece(s: string, c: char): (r: string)
    ensures c !in r
    ensures |r| <= |s| && r == s[|s| - |r|..]
    ensures |r| == |s| || s[|s| - |r| - 1] == c
  {
    var parts := SplitOn(s, c);
    LastPieceIsSuffix(s, c);
    parts[|parts| - 1]
  }

  lemma {:induction false} LastPieceIsSuffix(s: string, c: char)
    ensures var parts := SplitOn(s, c); var r := parts[|parts| - 1];
      |r| <= |s| && r == s[|s| - |r|..] && (|r| == |s| || s[|s| - |r| - 1] == c)
  {
    if s != [] {
      var rest := SplitOn(s[1..], c);
      LastPieceIsSuffix(s[1..], c);
      var parts := SplitOn(s, c);
      if s[0] == c {
        assert parts == [[]] + rest;
      } else if |rest| == 1 {
        JoinSplit(s[1..], c);
        assert parts == [[s[0]] + rest[0]];
        assert [s[0]] + s[1..] == s;
      } else {
        if c !in s[1..] {
          SplitNoSeparator(s[1..], c);
        }
        assert parts == [[s[0]] + rest[0]] + rest[1..];
        assert parts[|parts| - 1] == rest[|rest| - 1];
      }
    }
  }

  /** The text after the last `c` is determined: it is the one suffix without
      `c` that is either all of `s` or preceded by `c`. */
  lemma LastPieceUnique(s: string, c: char, x: string)
    requires c !in x && |x| <= |s| && x == s[|s| - |x|..]
    requires |x| == |s| || s[|s| - |x| - 1] == c
    ensures LastPiece(s, c) == x
  {
  }

  // ---------------------------------------------------------------------------
  // whitespace

  /** The ASCII characters for which Python's `str.isspace` holds. */
  predicate IsSpace(ch: char) {
    ch == ' ' || ch == '\t' || ch == '\n' || ch == '\r' || ch == '\U{B}' || ch == '\U{C}'
    || ('\U{1C}' <= ch <= '\U{1F}')
  }

  /** `s.lstrip()`. */
  function StripLeft(s: string): (r: string)
    ensures |r| <= |s| && r == s[|s| - |r|..]
    ensures forall k :: 0 <= k < |s| - |r| ==> IsSpace(s[k])
    ensures r == [] || !IsSpace(r[0])
  {
    if s != [] && IsSpace(s[0]) then StripLeft(s[1..]) else s
  }

  /** `s.rstrip()`. */
  function StripRight(s: string): (r: string)
    ensures |r| <= |s| && r == s[..|r|]
    ensures forall k :: |r| <= k < |s| ==> IsSpace(s[k])
    ensures r == [] || !IsSpace(r[|r| - 1])
  {
    if s != [] && IsSpace(s[|s| - 1]) then StripRight(s[..|s| - 1]) else s
  }

  /** `s.strip()`: `s` without its leading and trailing whitespace. */
  function Strip(s: string): string {
    StripRight(StripLeft(s))
  }

  /** `r` is the slice of `s` that starts at `a`, with only whitespace
      before and after it, and neither starts nor ends with whitespace. */
  predicate StrippedAt(s: string, r: string, a: int) {
    && 0 <= a <= a + |r| <= |s|
    && (forall k :: 0 <= k < |r| ==> r[k] == s[a + k])
    && (forall k :: 0 <= k < a ==> IsSpace(s[k]))
    && (forall k :: a + |r| <= k < |s| ==> IsSpace(s[k]))
    && (r == [] || (!IsSpace(r[0]) && !IsSpace(r[|r| - 1])))
  }

  /** `strip()` removes exactly the whitespace at both ends. */
  lemma StripSpec(s: string)
    ensures exists a :: StrippedAt(s, Strip(s), a)
  {
    var l := StripLeft(s);
    var r := StripRight(l);
    StripBothEnds(s, l, r);
    assert StrippedAt(s, Strip(s), |s| - |l|);
  }

  /** Removing leading whitespace and then trailing whitespace leaves a
      slice with only whitespace around it. */
  lemma StripBothEnds(s: string, l: string, r: string)
    requires |l| <= |s| && l == s[|s| - |l|..]
    requires forall k :: 0 <= k < |s| - |l| ==> IsSpace(s[k])
    requires l == [] || !IsSpace(l[0])
    requires |r| <= |l| && r == l[..|r|]
    requires forall k :: |r| <= k < |l| ==> IsSpace(l[k])
    requires r == [] || !IsSpace(r[|r| - 1])
    ensures StrippedAt(s, r, |s| - |l|)
  {
    var a := |s| - |l|;
    forall k | 0 <= k < |r| ensures r[k] == s[a + k] {
      assert r[k] == l[k];
    }
    forall k | a + |r| <= k < |s| ensures IsSpace(s[k]) {
      assert s[k] == l[k - a];
    }
    if r != [] {
      assert r[0] == l[0];
    }
  }

  /** Text that neither starts nor ends with whitespace is its own strip. */
  lemma StripClean(s: string)
    requires s != [] && !IsSpace(s[0]) && !IsSpace(s[|s| - 1])
    ensures Strip(s) == s
  {
  }

  // ---------------------------------------------------------------------------
  // lines

  /** The characters at which Python's `str.splitlines` ends a line. */
  predicate IsLineBreak(ch: char) {
    ch == '\n' || ch == '\r' || ch == '\U{B}' || ch == '\U{C}' || ('\U{1C}' <= ch <= '\U{1E}')
    || ch == '\U{85}' || ch == '\U{2028}' || ch == '\U{2029}'
  }

  /** `s.splitlines()`: the lines of `s` without their line boundaries; a
      trailing boundary does not start an empty last line, and `\r\n` is one
      boundary. */
  function SplitLines(s: string): seq<string> {
    LinesFrom(s, [])
  }

  /** The lines of `cur + s`, where `cur` is the unfinished current line. */
  function LinesFrom(s: string, cur: string): (r: seq<string>)
    ensures r == [] <==> s == [] && cur == []
    decreases |s|
  {
    if s == [] then (if cur == [] then [] else [cur])
    else if s[0] == '\r' && |s| > 1 && s[1] == '\n' then [cur] + LinesFrom(s[2..], [])
    else if IsLineBreak(s[0]) then [cur] + LinesFrom(s[1..], [])
    else LinesFrom(s[1..], cur + [s[0]])
  }

  /** No line contains a line boundary. */
  predicate NoBreaks(lines: seq<string>) {
    forall i, k :: 0 <= i < |lines| && 0 <= k < |lines[i]| ==> !IsLineBreak(lines[i][k])
  }

  lemma SplitLinesSpec(s: string)
    ensures NoBreaks(SplitLines(s))
  {
    LinesFromSpec(s, []);
  }

  lemma {:induction false} LinesFromSpec(s: string, cur: string)
    requires forall k :: 0 <= k < |cur| ==> !IsLineBreak(cur[k])
    ensures NoBreaks(LinesFrom(s, cur))
    decreases |s|
  {
    if s == [] {
    } else if s[0] == '\r' && |s| > 1 && s[1] == '\n' {
      LinesFromSpec(s[2..], []);
      LinesCons(cur, LinesFrom(s[2..], []));
    } else if IsLineBreak(s[0]) {
      LinesFromSpec(s[1..], []);
      LinesCons(cur, LinesFrom(s[1..], []));
    } else {
      LinesFromSpec(s[1..], cur + [s[0]]);
    }
  }

  lemma LinesCons(cur: string, rest: seq<string>)
    requires forall k :: 0 <= k < |cur| ==> !IsLineBreak(cur[k])
    requires NoBreaks(rest)
    ensures NoBreaks([cur] + rest)
  {
    var r := [cur] + rest;
    forall i, k | 0 <= i < |r| && 0 <= k < |r[i]| ensures !IsLineBreak(r[i][k]) {
      if i > 0 {
        assert r[i] == rest[i - 1];
      }
    }
  }

  /** A line without boundaries that is not empty, or follows an unfinished
      line, is one line. */
  lemma {:induction false} LinesOfOne(x: string, cur: string)
    requires forall k :: 0 <= k < |x| ==> !IsLineBreak(x[k])
    requires cur + x != []
    ensures LinesFrom(x, cur) == [cur + x]
    decreases |x|
  {
    if x == [] {
      assert cur + x == cur;
    } else {
      LinesOfOne(x[1..], cur + [x[0]]);
      assert (cur + [x[0]]) + x[1..] == cur + x;
    }
  }

  /** A line without boundaries followed by `\n` ends the current line. */
  lemma {:induction false} LinesAfterBreak(x: string, rest: string, cur: string)
    requires forall k :: 0 <= k < |x| ==> !IsLineBreak(x[k])
    ensures LinesFrom(x + ['\n'] + rest, cur) == [cur + x] + LinesFrom(rest, [])
    decreases |x|
  {
    var t := x + ['\n'] + rest;
    if x == [] {
      assert t == ['\n'] + rest && t[1..] == rest;
      assert cur + x == cur;
    } else {
      assert t[0] == x[0] && t[1..] == x[1..] + ['\n'] + rest;
      LinesAfterBreak(x[1..], rest, cur + [x[0]]);
      assert (cur + [x[0]]) + x[1..] == cur + x;
    }
  }

  /** Joining lines without boundaries by `\n` and splitting again gives
      back the lines, when the last one is not empty (a trailing boundary
      starts no line). */
  lemma {:induction false} SplitLinesJoin(lines: seq<string>)
    requires |lines| >= 1 && lines[|lines| - 1] != []
    requires NoBreaks(lines)
    ensures SplitLines(JoinWith(lines, '\n')) == lines
  {
    LinesFromJoin(lines);
  }

  lemma {:induction false} LinesFromJoin(lines: seq<string>)
    requires |lines| >= 1 && lines[|lines| - 1] != []
    requires NoBreaks(lines)
    ensures LinesFrom(JoinWith(lines, '\n'), []) == lines
  {
    assert forall k :: 0 <= k < |lines[0]| ==> !IsLineBreak(lines[0][k]);
    if |lines| == 1 {
      LinesOfOne(lines[0], []);
      assert [] + lines[0] == lines[0];
    } else {
      var rest := lines[1..];
      assert forall i :: 0 <= i < |rest| ==> rest[i] == lines[i + 1];
      LinesFromJoin(rest);
      LinesAfterBreak(lines[0], JoinWith(rest, '\n'), []);
      assert [] + lines[0] == lines[0];
      assert [lines[0]] + rest == lines;
    }
  }

  /** Whatever comes before it, a non-empty line without boundaries after
      the last `\n` is the last of the lines. */
  lemma SplitLinesLast(prefix: string, x: string)
    requires x != [] && forall k :: 0 <= k < |x| ==> !IsLineBreak(x[k])
    ensures var lines := SplitLines(prefix + "\n" + x);
      |lines| >= 2 && lines[|lines| - 1] == x
  {
    LinesLast(prefix, [], x);
  }

  lemma {:induction false} LinesLast(s: string, cur: string, x: string)
    requires x != [] && forall k :: 0 <= k < |x| ==> !IsLineBreak(x[k])
    ensures var lines := LinesFrom(s + ['\n'] + x, cur);
      |lines| >= 2 && lines[|lines| - 1] == x
    decreases |s|
  {
    var t := s + ['\n'] + x;
    LinesOfOne(x, []);
    assert [] + x == x;
    if s == [] {
      assert t == ['\n'] + x && t[1..] == x;
    } else if s[0] == '\r' && |s| == 1 {
      assert t[0] == '\r' && t[1] == '\n' && t[2..] == x;
    } else if s[0] == '\r' && s[1] == '\n' {
      assert t[0] == '\r' && t[1] == '\n' && t[2..] == s[2..] + ['\n'] + x;
      assert LinesFrom(t, cur) == [cur] + LinesFrom(t[2..], []);
      LinesLast(s[2..], [], x);
    } else if IsLineBreak(s[0]) {
      assert t[0] == s[0] && t[1..] == s[1..] + ['\n'] + x;
      assert !(t[0] == '\r' && |t| > 1 && t[1] == '\n');
      assert LinesFrom(t, cur) == [cur] + LinesFrom(t[1..], []);
      LinesLast(s[1..], [], x);
    } else {
      assert t[0] == s[0] && t[1..] == s[1..] + ['\n'] + x;
      assert LinesFrom(t, cur) == LinesFrom(t[1..], cur + [s[0]]);
      LinesLast(s[1..], cur + [s[0]], x);
    }
  }

  // ---------------------------------------------------------------------------
  // case, tails, character filters

  function LowerChar(ch: char): char {
    if 'A' <= ch <= 'Z' then (ch as int + 32) as char else ch
  }

  /** `s.lower()` on ASCII letters. */
  function Lower(s: string): (r: string)
    ensures |r| == |s|
    ensures forall i :: 0 <= i < |s| ==> r[i] == LowerChar(s[i])
  {
    if s == [] then [] else [LowerChar(s[0])] + Lower(s[1..])
  }

  function Min(a: int, b: int): int { if a <= b then a else b }

  /** `s[-n:]` for `n > 0`: the last `min(n, |s|)` characters of `s`. */
  function Tail(s: string, n: nat): (r: string)
    requires n > 0
    ensures |r| == Min(n, |s|)
    ensures r == s[|s| - |r|..]
  {
    s[|s| - Min(n, |s|)..]
  }

  /** `s.lstrip(ch)`: `s` without its leading run of `ch`. */
  function LStripChar(s: string, ch: char): (r: string)
    ensures |r| <= |s| && r == s[|s| - |r|..]
    ensures forall k :: 0 <= k < |s| - |r| ==> s[k] == ch
    ensures r == [] || r[0] != ch
  {
    if s != [] && s[0] == ch then LStripChar(s[1..], ch) else s
  }

  /** `s.replace(ch, '')`: `s` with every `ch` deleted. */
  function Remove(s: string, ch: char): (r: string)
    ensures ch !in r
    ensures |r| <= |s|
  {
    if s == [] then []
    else if s[0] == ch then Remove(s[1..], ch)
    else [s[0]] + Remove(s[1..], ch)
  }

  predicate IsDigit(ch: char) { '0' <= ch <= '9' }

  /** `s.isdigit()` on ASCII: non-empty and made of digits only. */
  predicate IsDigits(s: string) {
    |s| > 0 && forall k :: 0 <= k < |s| ==> IsDigit(s[k])
  }

  /** `sub in s`: `sub` occurs in `s` as a contiguous substring. */
  predicate Contains(s: string, sub: string) {
    (|sub| <= |s| && s[..|sub|] == sub) || (s != [] && Contains(s[1..], sub))
  }

  /** `sub` occurs in `s` starting at index `i`. */
  predicate OccursAt(s: string, sub: string, i: int) {
    0 <= i <= |s| - |sub| && s[i..i + |sub|] == sub
  }

  /** `sub in s` holds exactly when `sub` occurs in `s` at some index. */
  lemma {:induction false} ContainsAt(s: string, sub: string)
    ensures Contains(s, sub) <==> exists i :: OccursAt(s, sub, i)
    decreases |s|
  {
    if |sub| <= |s| && s[..|sub|] == sub {
      assert OccursAt(s, sub, 0);
    }
    if s != [] {
      ContainsAt(s[1..], sub);
      if Contains(s[1..], sub) {
        var j :| OccursAt(s[1..], sub, j);
        assert s[1..][j..j + |sub|] == s[j + 1..j + 1 + |sub|];
        assert OccursAt(s, sub, j + 1);
      }
      if exists i :: OccursAt(s, sub, i) {
        var i :| OccursAt(s, sub, i);
        if i > 0 {
          assert s[1..][i - 1..i - 1 + |sub|] == s[i..i + |sub|];
          assert OccursAt(s[1..], sub, i - 1);
        } else {
          assert s[..|sub|] == s[0..|sub|];
        }
      }
    } else if exists i :: OccursAt(s, sub, i) {
      var i :| OccursAt(s, sub, i);
      assert i == 0 && |sub| == 0;
      assert s[..|sub|] == sub;
    }
  }

  /** Text spliced between two strings occurs in the result. */
  lemma ContainsMiddle(a: string, x: string, b: string)
    ensures Contains(a + x + b, x)
  {
    var s := a + x + b;
    assert s[|a|..|a| + |x|] == x;
    assert OccursAt(s, x, |a|);
    ContainsAt(s, x);
  }
}
