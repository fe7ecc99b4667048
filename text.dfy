/**
 * String primitives shared by the renderers, the URL builders and the
 * formatters: the JavaScript notions of a line terminator and of white
 * space, `trim`, `split`, `join`, literal `replace(/pat/g, rep)`, and the
 * decimal rendering of integers used by template strings.
 */
module Text {

  /** The characters JavaScript's regular expressions treat as line ends:
      `.` never matches them and `^`/`$` (flag `m`) match next to them. */
  predicate IsLineTerminator(c: char) {
    c == '\n' || c == '\r' || c == '\U{2028}' || c == '\U{2029}'
  }

  /** The characters `String.prototype.trim` removes: white space,
      the space separators and the line terminators. */
  predicate IsJsWhitespace(c: char) {
    c == '\t' || c == '\U{000B}' || c == '\U{000C}' || c == ' ' || c == '\U{00A0}' ||
    c == '\U{FEFF}' || c == '\U{1680}' || ('\U{2000}' <= c <= '\U{200A}') ||
    c == '\U{202F}' || c == '\U{205F}' || c == '\U{3000}' || IsLineTerminator(c)
  }

  predicate NoLineTerminator(s: string) {
    forall i :: 0 <= i < |s| ==> !IsLineTerminator(s[i])
  }

  lemma NoLineTerminatorConcat(a: string, b: string)
    requires NoLineTerminator(a) && NoLineTerminator(b)
    ensures NoLineTerminator(a + b)
  {
    forall i | 0 <= i < |a + b|
      ensures !IsLineTerminator((a + b)[i])
    {
      if i >= |a| {
        assert (a + b)[i] == b[i - |a|];
      }
    }
  }

  /** Concatenation regroups freely. */
  lemma AppendAssoc(x: string, y: string, z: string)
    ensures x + (y + z) == (x + y) + z
  {
  }

  lemma AppendEmpty(x: string)
    ensures x + [] == x
  {
  }

  /** Index of the first line terminator at or after `from`, or `|s|`. */
  function LineEnd(s: string, from: nat): (r: nat)
    requires from <= |s|
    ensures from <= r <= |s|
    ensures r < |s| ==> IsLineTerminator(s[r])
    decreases |s| - from
  {
    if from == |s| || IsLineTerminator(s[from]) then from else LineEnd(s, from + 1)
  }

  /** No line terminator lies between `from` and `LineEnd(s, from)`. */
  lemma {:induction false} LineEndClean(s: string, from: nat)
    requires from <= |s|
    ensures forall i :: from <= i < LineEnd(s, from) ==> !IsLineTerminator(s[i])
    decreases |s| - from
  {
    if from < |s| && !IsLineTerminator(s[from]) {
      LineEndClean(s, from + 1);
    }
  }

  /** `LineEnd` is the first terminator at or after `from`. */
  lemma {:induction false} LineEndIs(s: string, from: nat, n: nat)
    requires from <= n <= |s|
    requires forall i :: from <= i < n ==> !IsLineTerminator(s[i])
    requires n < |s| ==> IsLineTerminator(s[n])
    ensures LineEnd(s, from) == n
    decreases n - from
  {
    if from < n {
      LineEndIs(s, from + 1, n);
    }
  }

  /** `pat` occurs in `s` at index `i`. */
  predicate OccursAt(s: string, pat: string, i: nat) {
    i + |pat| <= |s| && s[i..i + |pat|] == pat
  }

  lemma OccursAtTail(s: string, pat: string)
    requires |s| > 0
    ensures forall j: nat :: 0 < j ==> (OccursAt(s, pat, j) <==> OccursAt(s[1..], pat, j - 1))
  {
    forall j: nat | 0 < j
      ensures OccursAt(s, pat, j) <==> OccursAt(s[1..], pat, j - 1)
    {
      if j + |pat| <= |s| {
        assert s[1..][j - 1..j - 1 + |pat|] == s[j..j + |pat|];
      }
    }
  }

  lemma LineEndTail(s: string)
    requires |s| > 0 && !IsLineTerminator(s[0])
    ensures LineEnd(s, 0) == LineEnd(s[1..], 0) + 1
  {
    var t := s[1..];
    var n := LineEnd(t, 0);
    LineEndClean(t, 0);
    forall i | 0 <= i < n + 1
      ensures !IsLineTerminator(s[i])
    {
      if i > 0 {
        assert s[i] == t[i - 1];
      }
    }
    LineEndIs(s, 0, n + 1);
  }

  /** `pat` occurs somewhere in `s`. */
  ghost predicate Occurs(s: string, pat: string) {
    exists i: nat :: OccursAt(s, pat, i)
  }

  lemma NotOccursTail(s: string, pat: string)
    requires |s| > 0 && !Occurs(s, pat)
    ensures !Occurs(s[1..], pat)
  {
    if Occurs(s[1..], pat) {
      var i: nat :| OccursAt(s[1..], pat, i);
      assert s[i + 1..i + 1 + |pat|] == s[1..][i..i + |pat|];
      assert OccursAt(s, pat, i + 1);
    }
  }

  /** `s.replace(/pat/g, rep)` for a pattern without metacharacters:
      left-to-right, non-overlapping, and the replacement is never rescanned. */
  function ReplaceAll(s: string, pat: string, rep: string): (r: string)
    requires |pat| > 0
    decreases |s|
  {
    if |s| == 0 then ""
    else if pat <= s then rep + ReplaceAll(s[|pat|..], pat, rep)
    else [s[0]] + ReplaceAll(s[1..], pat, rep)
  }

  /** A text in which the pattern does not occur comes back unchanged. */
  lemma {:induction false} ReplaceAllAbsent(s: string, pat: string, rep: string)
    requires |pat| > 0 && !Occurs(s, pat)
    ensures ReplaceAll(s, pat, rep) == s
    decreases |s|
  {
    if |s| > 0 {
      assert !OccursAt(s, pat, 0);
      NotOccursTail(s, pat);
      ReplaceAllAbsent(s[1..], pat, rep);
    }
  }

  /** Every `c` in `s` is followed, inside `s`, by a character other
      than `next`: no match of a pattern starting `c`,`next` can start in
      `s`, whatever follows it. */
  predicate NeverFollowedBy(s: string, c: char, next: char) {
    forall i :: 0 <= i < |s| && s[i] == c ==> i + 1 < |s| && s[i + 1] != next
  }

  lemma NeverFollowedByConcat(a: string, b: string, c: char, next: char)
    requires NeverFollowedBy(a, c, next) && NeverFollowedBy(b, c, next)
    ensures NeverFollowedBy(a + b, c, next)
  {
    forall i | 0 <= i < |a + b| && (a + b)[i] == c
      ensures i + 1 < |a + b| && (a + b)[i + 1] != next
    {
      if i < |a| {
        assert a[i] == c;
      } else {
        assert b[i - |a|] == c;
      }
    }
  }

  /** Text before which a pattern cannot start is copied, and the scan
      goes on after it. */
  lemma {:induction false} ReplaceAllPrefix(a: string, t: string, pat: string, rep: string)
    requires |pat| >= 2 && NeverFollowedBy(a, pat[0], pat[1])
    ensures ReplaceAll(a + t, pat, rep) == a + ReplaceAll(t, pat, rep)
    decreases |a|
  {
    if a == [] {
      assert a + t == t;
    } else {
      assert !(pat <= a + t) by {
        if (a + t)[0] == pat[0] {
          assert a[0] == pat[0] && (a + t)[1] == a[1];
        }
      }
      assert (a + t)[1..] == a[1..] + t;
      assert NeverFollowedBy(a[1..], pat[0], pat[1]) by {
        forall i | 0 <= i < |a[1..]| && a[1..][i] == pat[0]
          ensures i + 1 < |a[1..]| && a[1..][i + 1] != pat[1]
        {
          assert a[i + 1] == pat[0];
        }
      }
      ReplaceAllPrefix(a[1..], t, pat, rep);
      AppendAssoc([a[0]], a[1..], ReplaceAll(t, pat, rep));
      assert [a[0]] + a[1..] == a;
    }
  }

  /** One step of the scan at a match, with the remainder named. */
  lemma ReplaceAllAt(s: string, pat: string, rep: string, rest: string)
    requires |pat| > 0 && pat <= s && s[|pat|..] == rest
    ensures ReplaceAll(s, pat, rep) == rep + ReplaceAll(rest, pat, rep)
  {
  }

  /** One step of the scan where no match starts. */
  lemma ReplaceAllCopy(s: string, pat: string, rep: string, rest: string)
    requires |pat| > 0 && s != [] && !(pat <= s) && rest == s[1..]
    ensures ReplaceAll(s, pat, rep) == [s[0]] + ReplaceAll(rest, pat, rep)
  {
  }

  /** A text without the pattern's first character comes back unchanged. */
  lemma ReplaceAllWithout(s: string, pat: string, rep: string)
    requires |pat| >= 1 && pat[0] !in s
    ensures ReplaceAll(s, pat, rep) == s
  {
    forall i: nat | i + |pat| <= |s|
      ensures !OccursAt(s, pat, i)
    {
      assert s[i..i + |pat|][0] == s[i];
    }
    ReplaceAllAbsent(s, pat, rep);
  }

  /** Text without the pattern's first character is copied, and the scan
      goes on after it. */
  lemma {:induction false} ReplaceAllSkip(a: string, t: string, pat: string, rep: string)
    requires |pat| >= 1 && pat[0] !in a
    ensures ReplaceAll(a + t, pat, rep) == a + ReplaceAll(t, pat, rep)
    decreases |a|
  {
    if a == [] {
      assert a + t == t;
    } else {
      assert (a + t)[0] == a[0];
      ReplaceAllCopy(a + t, pat, rep, a[1..] + t);
      ReplaceAllSkip(a[1..], t, pat, rep);
      AppendAssoc([a[0]], a[1..], ReplaceAll(t, pat, rep));
      assert [a[0]] + a[1..] == a;
    }
  }

  /** Two lines with a blank line between them: the blank line is the one
      match of `\n\n`. */
  lemma ReplaceBlankLine(x: string, y: string, rep: string)
    requires NoLineTerminator(x) && NoLineTerminator(y)
    ensures ReplaceAll(x + "\n\n" + y, "\n\n", rep) == x + rep + y
  {
    assert '\n' !in x by {
      forall i | 0 <= i < |x| ensures x[i] != '\n' { assert !IsLineTerminator(x[i]); }
    }
    assert '\n' !in y by {
      forall i | 0 <= i < |y| ensures y[i] != '\n' { assert !IsLineTerminator(y[i]); }
    }
    AppendAssoc(x, "\n\n", y);
    ReplaceAllSkip(x, "\n\n" + y, "\n\n", rep);
    ReplaceAllAt("\n\n" + y, "\n\n", rep, y);
    ReplaceAllWithout(y, "\n\n", rep);
    AppendAssoc(x, rep, y);
  }

  /** Replacing a one-character pattern by text without that character
      removes every occurrence of the character. */
  lemma {:induction false} ReplaceAllRemoves(s: string, c: char, rep: string)
    requires c !in rep
    ensures c !in ReplaceAll(s, [c], rep)
    decreases |s|
  {
    if |s| > 0 {
      if [c] <= s {
        ReplaceAllRemoves(s[1..], c, rep);
      } else {
        assert s[0] != c by { assert [s[0]] == s[..1]; }
        ReplaceAllRemoves(s[1..], c, rep);
      }
    }
  }

  /** Replacing a pattern by itself changes nothing. */
  lemma {:induction false} ReplaceAllSelf(s: string, pat: string)
    requires |pat| > 0
    ensures ReplaceAll(s, pat, pat) == s
    decreases |s|
  {
    if |s| > 0 {
      if pat <= s {
        var t := s[|pat|..];
        assert ReplaceAll(s, pat, pat) == pat + ReplaceAll(t, pat, pat);
        ReplaceAllSelf(t, pat);
        assert s == pat + t;
      } else {
        var t := s[1..];
        assert ReplaceAll(s, pat, pat) == [s[0]] + ReplaceAll(t, pat, pat);
        ReplaceAllSelf(t, pat);
        assert s == [s[0]] + t;
      }
    }
  }

  /** `s.trimStart()`: `TrimStartCuts` states what it removes. */
  function TrimStart(s: string): string
    decreases |s|
  {
    if s != [] && IsJsWhitespace(s[0]) then TrimStart(s[1..]) else s
  }

  /** `s.trimEnd()`: `TrimEndCuts` states what it removes. */
  function TrimEnd(s: string): string
    decreases |s|
  {
    if s != [] && IsJsWhitespace(s[|s| - 1]) then TrimEnd(s[..|s| - 1]) else s
  }

  /** `s.trim()`. */
  function Trim(s: string): string {
    TrimEnd(TrimStart(s))
  }

  /** `trimStart` removes the longest prefix of white space. */
  lemma {:induction false} TrimStartCuts(s: string)
    ensures |TrimStart(s)| <= |s| && TrimStart(s) == s[|s| - |TrimStart(s)|..]
    ensures forall i :: 0 <= i < |s| - |TrimStart(s)| ==> IsJsWhitespace(s[i])
    ensures TrimStart(s) != [] ==> !IsJsWhitespace(TrimStart(s)[0])
    decreases |s|
  {
    if s != [] && IsJsWhitespace(s[0]) {
      TrimStartCuts(s[1..]);
    }
  }

  /** `trimEnd` removes the longest suffix of white space. */
  lemma {:induction false} TrimEndCuts(s: string)
    ensures |TrimEnd(s)| <= |s| && TrimEnd(s) == s[..|TrimEnd(s)|]
    ensures forall i :: |TrimEnd(s)| <= i < |s| ==> IsJsWhitespace(s[i])
    ensures TrimEnd(s) != [] ==> !IsJsWhitespace(TrimEnd(s)[|TrimEnd(s)| - 1])
    decreases |s|
  {
    if s != [] && IsJsWhitespace(s[|s| - 1]) {
      TrimEndCuts(s[..|s| - 1]);
    }
  }

  /** `trim` cuts the text at two points: everything outside the cut is
      white space, and the cut neither starts nor ends with white space. */
  lemma TrimCuts(s: string)
    ensures exists i, j ::
      && 0 <= i <= j <= |s| && Trim(s) == s[i..j]
      && (forall k :: 0 <= k < i ==> IsJsWhitespace(s[k]))
      && (forall k :: j <= k < |s| ==> IsJsWhitespace(s[k]))
    ensures Trim(s) != [] ==> !IsJsWhitespace(Trim(s)[0]) && !IsJsWhitespace(Trim(s)[|Trim(s)| - 1])
  {
    var a := TrimStart(s);
    TrimStartCuts(s);
    TrimEndCuts(a);
    var i := |s| - |a|;
    var j := i + |Trim(s)|;
    assert Trim(s) == s[i..j];
    forall k | j <= k < |s|
      ensures IsJsWhitespace(s[k])
    {
      assert s[k] == a[k - i];
    }
  }

  /** `trim` leaves nothing exactly when the text is all white space. */
  lemma TrimEmpty(s: string)
    ensures Trim(s) == [] <==> forall i :: 0 <= i < |s| ==> IsJsWhitespace(s[i])
  {
    var a := TrimStart(s);
    TrimStartCuts(s);
    TrimEndCuts(a);
    if a != [] {
      var k := |s| - |a|;
      assert a[0] == s[k] && !IsJsWhitespace(s[k]);
    }
  }

  /** A text that neither starts nor ends with white space is its own trim. */
  lemma TrimNoEdges(s: string)
    requires s != [] ==> !IsJsWhitespace(s[0]) && !IsJsWhitespace(s[|s| - 1])
    ensures Trim(s) == s
  {
  }

  /** `s.split(sep)` for a one-character separator: the pieces between the
      separators, in order; a text without the separator is one piece
      (`SplitNone`), and the pieces join back to the text (`JoinSplit`). */
  function Split(s: string, sep: char): (r: seq<string>)
    ensures |r| >= 1
    decreases |s|
  {
    if s == [] then [""]
    else
      var rest := Split(s[1..], sep);
      if s[0] == sep then [""] + rest else [[s[0]] + rest[0]] + rest[1..]
  }

  /** `parts.join(sep)`. */
  function Join(parts: seq<string>, sep: string): (r: string)
    decreases |parts|
  {
    if |parts| == 0 then ""
    else if |parts| == 1 then parts[0]
    else parts[0] + sep + Join(parts[1..], sep)
  }

  /** A text without the separator is a single piece. */
  lemma {:induction false} SplitNone(s: string, sep: char)
    requires sep !in s
    ensures Split(s, sep) == [s]
    decreases |s|
  {
    if s != [] {
      assert s[0] != sep;
      assert sep !in s[1..];
      SplitNone(s[1..], sep);
      assert s == [s[0]] + s[1..];
    }
  }

  /** Splitting at a separator splits the two sides independently. */
  lemma {:induction false} SplitConcat(a: string, b: string, sep: char)
    ensures Split(a + [sep] + b, sep) == Split(a, sep) + Split(b, sep)
    decreases |a|
  {
    var s := a + [sep] + b;
    if a == [] {
      assert s[0] == sep && s[1..] == b;
    } else {
      var t := a[1..] + [sep] + b;
      assert s[0] == a[0] && s[1..] == t;
      SplitConcat(a[1..], b, sep);
      SplitStep(s, Split(a[1..], sep), Split(b, sep), sep);
    }
  }

  /** The step of `SplitConcat`: the first character of `s` joins the
      first piece of the rest, or starts a new piece if it is the
      separator. */
  lemma SplitStep(s: string, p: seq<string>, q: seq<string>, sep: char)
    requires s != [] && |p| >= 1 && Split(s[1..], sep) == p + q
    ensures Split(s, sep) == (if s[0] == sep then [""] + p else [[s[0]] + p[0]] + p[1..]) + q
  {
    if s[0] != sep {
      assert (p + q)[0] == p[0];
      assert (p + q)[1..] == p[1..] + q;
    }
  }

  /** Joining the pieces of a split with the separator gives back the text. */
  lemma {:induction false} JoinSplit(s: string, sep: char)
    ensures Join(Split(s, sep), [sep]) == s
    decreases |s|
  {
    if s != [] {
      var rest := Split(s[1..], sep);
      JoinSplit(s[1..], sep);
      if s[0] == sep {
        assert ([""] + rest)[1..] == rest;
      } else {
        var parts := [[s[0]] + rest[0]] + rest[1..];
        if |rest| > 1 {
          assert parts[1..] == rest[1..];
          assert Join(rest, [sep]) == rest[0] + [sep] + Join(rest[1..], [sep]);
        }
      }
    }
  }

  /** Splitting a join of separator-free pieces gives back the pieces. */
  lemma {:induction false} SplitJoin(parts: seq<string>, sep: char)
    requires |parts| >= 1
    requires forall k :: 0 <= k < |parts| ==> sep !in parts[k]
    ensures Split(Join(parts, [sep]), sep) == parts
    decreases |parts|
  {
    SplitNone(parts[0], sep);
    if |parts| > 1 {
      SplitConcat(parts[0], Join(parts[1..], [sep]), sep);
      SplitJoin(parts[1..], sep);
    }
  }

  predicate IsDigit(c: char) { '0' <= c <= '9' }

  function DigitValue(c: char): (d: nat)
    requires IsDigit(c)
    ensures d < 10
  {
    (c as int) - ('0' as int)
  }

  function DigitChar(d: nat): (c: char)
    requires d < 10
    ensures IsDigit(c) && DigitValue(c) == d
  {
    ['0', '1', '2', '3', '4', '5', '6', '7', '8', '9'][d]
  }

  /** Decimal rendering of a natural number, as `String(n)` gives it. */
  function NatToString(n: nat): (r: string)
    ensures |r| >= 1
    ensures forall i :: 0 <= i < |r| ==> IsDigit(r[i])
    ensures |r| > 1 ==> r[0] != '0'
    decreases n
  {
    if n < 10 then [DigitChar(n)] else NatToString(n / 10) + [DigitChar(n % 10)]
  }

  /** Decimal rendering of an integer: a minus sign before negative values. */
  function IntToString(i: int): (r: string)
    ensures |r| >= 1
    ensures (r[0] == '-') <==> i < 0
  {
    if i < 0 then "-" + NatToString(-i) else NatToString(i)
  }

  /** Reads back a string of decimal digits. */
  function DigitsValue(s: string): nat
    requires forall i :: 0 <= i < |s| ==> IsDigit(s[i])
    decreases |s|
  {
    if s == [] then 0
    else DigitsValue(s[..|s| - 1]) * 10 + DigitValue(s[|s| - 1])
  }

  /** The decimal rendering reads back as the number it renders. */
  lemma {:induction false} NatToStringReadsBack(n: nat)
    ensures DigitsValue(NatToString(n)) == n
    decreases n
  {
    if n >= 10 {
      var s := NatToString(n);
      NatToStringReadsBack(n / 10);
      assert s[..|s| - 1] == NatToString(n / 10);
    }
  }

  /** Distinct numbers render differently. */
  lemma NatToStringInjective(m: nat, n: nat)
    requires NatToString(m) == NatToString(n)
    ensures m == n
  {
    NatToStringReadsBack(m);
    NatToStringReadsBack(n);
  }

  /** `s.padStart(width, fill)` for a one-character fill. */
  function PadStart(s: string, width: nat, fill: char): (r: string)
    ensures |r| == if |s| >= width then |s| else width
    ensures r[|r| - |s|..] == s
    ensures forall i :: 0 <= i < |r| - |s| ==> r[i] == fill
  {
    if |s| >= width then s else seq(width - |s|, _ => fill) + s
  }
}
