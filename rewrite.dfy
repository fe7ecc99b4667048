/**
 * The regular-expression rewrites the two markdown renderers are chained
 * from, each written as the string function its JavaScript
 * `text.replace(regex, replacement)` computes:
 *  - line rules `/^…$/gm` (headings, list items, paragraphs), applied to
 *    every line, a line being delimited by the regex line terminators;
 *  - inline spans `/D(.*?)D/g` (bold, italic, code): the shortest match
 *    on one line, scanned left to right;
 *  - the list wrapper `/(<li>.*<\/li>\n?)+/g`;
 *  - the pipe-table rewrite `/\|(.+)\|\n\|[-| ]+\|\n((\|.+\|\n?)+)/g`.
 * Each scanning function follows the regex engine: try a match at the
 * current index, on success emit the replacement and continue after the
 * match, otherwise copy one character and try at the next index.
 */
module Rewrite {
  import opened Text
  import opened Wrappers

  // ---------------------------------------------------------------------
  // Line rules
  // ---------------------------------------------------------------------

  /** A rewrite applied to each line:
      `Prefix(m, o, c)` is `/^m(.*$)/gm -> o$1c`,
      `Numbered(o, c)` is `/^(\d+)\. (.*$)/gm -> o$2c`,
      `Paragraph` is `/^(?!<[hultop])(.+)$/gm -> <p>$1</p>`. */
  datatype LineRule =
    | Prefix(marker: string, open: string, close: string)
    | Numbered(open: string, close: string)
    | Paragraph

  /** Length of the run of ASCII digits (`\d`) that starts `s`. */
  function DigitRun(s: string): (n: nat)
    ensures n <= |s|
    ensures forall i :: 0 <= i < n ==> IsDigit(s[i])
    ensures n < |s| ==> !IsDigit(s[n])
    decreases |s|
  {
    if s != [] && IsDigit(s[0]) then 1 + DigitRun(s[1..]) else 0
  }

  /** The digit run stops where the digits do. */
  lemma {:induction false} DigitRunOver(digits: string, rest: string)
    requires forall i :: 0 <= i < |digits| ==> IsDigit(digits[i])
    requires rest == [] || !IsDigit(rest[0])
    ensures DigitRun(digits + rest) == |digits|
    decreases |digits|
  {
    if digits == [] {
      assert digits + rest == rest;
    } else {
      assert (digits + rest)[1..] == digits[1..] + rest;
      DigitRunOver(digits[1..], rest);
    }
  }

  /** The negative look-ahead `(?!<[hultop])` fails on this line. */
  predicate OpensBlockTag(line: string) {
    |line| >= 2 && line[0] == '<' && line[1] in "hultop"
  }

  function ApplyRule(rule: LineRule, line: string): string {
    match rule
    case Prefix(marker, open, close) =>
      if marker <= line then open + line[|marker|..] + close else line
    case Numbered(open, close) =>
      var n := DigitRun(line);
      if n > 0 && ". " <= line[n..] then open + line[n + 2..] + close else line
    case Paragraph =>
      if line != [] && !OpensBlockTag(line) then "<p>" + line + "</p>" else line
  }

  /** A prefix rule rewrites a line that starts with its marker. */
  lemma PrefixApplies(marker: string, open: string, close: string, x: string)
    ensures ApplyRule(Prefix(marker, open, close), marker + x) == open + x + close
  {
    assert (marker + x)[|marker|..] == x;
  }

  /** A prefix rule leaves a line alone that differs from its marker at
      index `k`. */
  lemma PrefixMisses(marker: string, open: string, close: string, line: string, k: nat)
    requires k < |marker| && k < |line| && marker[k] != line[k]
    ensures ApplyRule(Prefix(marker, open, close), line) == line
  {
  }

  /** The numbered rule leaves a line alone that does not start with a
      digit. */
  lemma NumberedMisses(open: string, close: string, line: string)
    requires line != [] && !IsDigit(line[0])
    ensures ApplyRule(Numbered(open, close), line) == line
  {
  }

  /** The numbered rule drops the number and the `. ` after it. */
  lemma NumberedApplies(open: string, close: string, d: string, x: string)
    requires d != [] && forall i :: 0 <= i < |d| ==> IsDigit(d[i])
    ensures ApplyRule(Numbered(open, close), d + ". " + x) == open + x + close
  {
    AppendAssoc(d, ". ", x);
    DigitRunOver(d, ". " + x);
    assert (d + (". " + x))[|d|..] == ". " + x;
    assert (d + (". " + x))[|d| + 2..] == x;
  }

  /** The rule applied to every line of `s`; the terminators are kept. */
  function MapLines(s: string, rule: LineRule): (r: string)
    decreases |s|
  {
    var k := LineEnd(s, 0);
    if k == |s| then ApplyRule(rule, s)
    else ApplyRule(rule, s[..k]) + [s[k]] + MapLines(s[k + 1..], rule)
  }

  /** The rule applied to each line of a list of lines. */
  function ApplyEach(rule: LineRule, lines: seq<string>): (r: seq<string>)
    ensures |r| == |lines|
    ensures forall i :: 0 <= i < |lines| ==> r[i] == ApplyRule(rule, lines[i])
  {
    seq(|lines|, i requires 0 <= i < |lines| => ApplyRule(rule, lines[i]))
  }

  lemma MapLinesOneLine(s: string, rule: LineRule)
    requires NoLineTerminator(s)
    ensures MapLines(s, rule) == ApplyRule(rule, s)
  {
    LineEndIs(s, 0, |s|);
  }

  lemma MapLinesStep(a: string, c: char, b: string, rule: LineRule)
    requires NoLineTerminator(a) && IsLineTerminator(c)
    ensures MapLines(a + [c] + b, rule) == ApplyRule(rule, a) + [c] + MapLines(b, rule)
  {
    var s := a + [c] + b;
    LineEndIs(s, 0, |a|);
    assert s[..|a|] == a && s[|a| + 1..] == b;
  }

  /** A line rule rewrites each line on its own: on a text of
      newline-separated lines the result is those lines, each rewritten,
      joined by the same newlines. */
  lemma {:induction false} MapLinesJoin(lines: seq<string>, rule: LineRule)
    requires |lines| >= 1
    requires forall i :: 0 <= i < |lines| ==> NoLineTerminator(lines[i])
    ensures MapLines(Join(lines, "\n"), rule) == Join(ApplyEach(rule, lines), "\n")
    decreases |lines|
  {
    if |lines| == 1 {
      MapLinesOneLine(lines[0], rule);
    } else {
      MapLinesStep(lines[0], '\n', Join(lines[1..], "\n"), rule);
      MapLinesJoin(lines[1..], rule);
      assert ApplyEach(rule, lines)[1..] == ApplyEach(rule, lines[1..]);
    }
  }

  // ---------------------------------------------------------------------
  // Inline spans
  // ---------------------------------------------------------------------

  /** Where the lazy `(.*?)D` that follows an opening delimiter stops: an
      occurrence of `d` before the end of the first line (`FindCloseFound`),
      the first one (`FindCloseFirst`). */
  function FindClose(t: string, d: string): (r: Option<nat>)
    requires |d| > 0
    ensures r.Some? ==> r.value + |d| <= |t|
    decreases |t|
  {
    if d <= t then Some(0)
    else if t == [] || IsLineTerminator(t[0]) then None
    else
      match FindClose(t[1..], d)
      case None => None
      case Some(j) => Some(j + 1)
  }

  /** What `FindClose` finds is an occurrence of the delimiter that starts
      on the first line. */
  lemma {:induction false} FindCloseFound(t: string, d: string)
    requires |d| > 0
    ensures FindClose(t, d).Some? ==> OccursAt(t, d, FindClose(t, d).value)
    ensures FindClose(t, d).Some? ==> FindClose(t, d).value <= LineEnd(t, 0)
    decreases |t|
  {
    if d <= t {
      assert OccursAt(t, d, 0);
    } else if t != [] && !IsLineTerminator(t[0]) {
      LineEndTail(t);
      FindCloseFound(t[1..], d);
      OccursAtTail(t, d);
    }
  }

  /** `FindClose` finds the earliest occurrence, and finds none only when
      every occurrence lies beyond the end of the line. */
  lemma {:induction false} FindCloseFirst(t: string, d: string)
    requires |d| > 0
    ensures FindClose(t, d).Some? ==> forall j: nat :: j < FindClose(t, d).value ==> !OccursAt(t, d, j)
    ensures FindClose(t, d).None? ==> forall j: nat :: OccursAt(t, d, j) ==> LineEnd(t, 0) < j
    decreases |t|
  {
    if !(d <= t) && t != [] && !IsLineTerminator(t[0]) {
      assert !OccursAt(t, d, 0);
      OccursAtTail(t, d);
      LineEndTail(t);
      FindCloseFirst(t[1..], d);
    } else if !(d <= t) && t != [] {
      assert LineEnd(t, 0) == 0;
      assert !OccursAt(t, d, 0);
    }
  }

  /** `s.replace(/D(.*?)D/g, open + "$1" + close)` for the delimiter `d`. */
  function ReplaceSpans(s: string, d: string, open: string, close: string): (r: string)
    requires |d| > 0
    decreases |s|
  {
    if s == [] then []
    else if d <= s then
      match FindClose(s[|d|..], d)
      case Some(j) =>
        open + s[|d|..|d| + j] + close + ReplaceSpans(s[|d| + j + |d|..], d, open, close)
      case None => [s[0]] + ReplaceSpans(s[1..], d, open, close)
    else [s[0]] + ReplaceSpans(s[1..], d, open, close)
  }

  /** A text without the delimiter's first character has no span. */
  lemma {:induction false} SpansAbsent(s: string, d: string, open: string, close: string)
    requires |d| > 0 && d[0] !in s
    ensures ReplaceSpans(s, d, open, close) == s
    decreases |s|
  {
    if s != [] {
      assert s[0] != d[0];
      SpansAbsent(s[1..], d, open, close);
    }
  }

  /** Text in which the delimiter cannot start is copied by the span scan. */
  lemma {:induction false} SpansPrefix(a: string, t: string, d: string, open: string, close: string)
    requires |d| >= 2 && NeverFollowedBy(a, d[0], d[1])
    ensures ReplaceSpans(a + t, d, open, close) == a + ReplaceSpans(t, d, open, close)
    decreases |a|
  {
    if a == [] {
      assert a + t == t;
    } else {
      assert !(d <= a + t) by {
        if (a + t)[0] == d[0] {
          assert a[0] == d[0] && (a + t)[1] == a[1];
        }
      }
      SpanCopy(a + t, a[1..] + t, d, open, close);
      assert NeverFollowedBy(a[1..], d[0], d[1]) by {
        forall i | 0 <= i < |a[1..]| && a[1..][i] == d[0]
          ensures i + 1 < |a[1..]| && a[1..][i + 1] != d[1]
        {
          assert a[i + 1] == d[0];
        }
      }
      SpansPrefix(a[1..], t, d, open, close);
      AppendAssoc([a[0]], a[1..], ReplaceSpans(t, d, open, close));
      assert [a[0]] + a[1..] == a;
    }
  }

  lemma SpanCopy(s: string, rest: string, d: string, open: string, close: string)
    requires |d| > 0 && s != [] && !(d <= s) && rest == s[1..]
    ensures ReplaceSpans(s, d, open, close) == [s[0]] + ReplaceSpans(rest, d, open, close)
  {
  }

  /** The search for the closing delimiter passes over a stretch of one
      line that cannot start it. */
  lemma {:induction false} FindCloseSkips(x: string, t: string, d: string)
    requires |d| > 0 && d[0] !in x && NoLineTerminator(x)
    ensures FindClose(x + t, d) == match FindClose(t, d)
                                   case Some(j) => Some(j + |x|)
                                   case None => None
    decreases |x|
  {
    if x != [] {
      var s := x + t;
      assert s[0] == x[0] != d[0];
      assert !(d <= s);
      assert !IsLineTerminator(s[0]);
      assert s[1..] == x[1..] + t;
      FindCloseSkips(x[1..], t, d);
    } else {
      assert x + t == t;
    }
  }

  /** The match is lazy: a span closes at the first delimiter after the
      opening one, and the scan resumes right after it. */
  lemma SpanCloses(x: string, y: string, d: string, open: string, close: string)
    requires |d| > 0 && d[0] !in x && NoLineTerminator(x)
    ensures ReplaceSpans(d + x + d + y, d, open, close)
            == open + x + close + ReplaceSpans(y, d, open, close)
  {
    var s := d + x + d + y;
    FindCloseAfter(x, y, d);
    assert s == d + (x + (d + y));
    assert s[|d|..|d| + |x|] == x;
    assert s[|d| + |x| + |d|..] == y;
    SpanRewrite(s, x, y, d, open, close);
  }

  /** A whole text that is one span. */
  lemma SpanWhole(x: string, d: string, open: string, close: string)
    requires |d| > 0 && d[0] !in x && NoLineTerminator(x)
    ensures ReplaceSpans(d + x + d, d, open, close) == open + x + close
  {
    SpanCloses(x, [], d, open, close);
    AppendEmpty(d + x + d);
    AppendEmpty(open + x + close);
    assert ReplaceSpans([], d, open, close) == [];
  }

  /** One step of the span scan at a span, with its text and the
      remainder named. */
  lemma SpanRewrite(s: string, x: string, y: string, d: string, open: string, close: string)
    requires |d| > 0 && d <= s && FindClose(s[|d|..], d) == Some(|x|)
    requires |d| + |x| + |d| <= |s|
    requires s[|d|..|d| + |x|] == x && s[|d| + |x| + |d|..] == y
    ensures ReplaceSpans(s, d, open, close) == open + x + close + ReplaceSpans(y, d, open, close)
  {
  }

  /** The closing delimiter right after a stretch that cannot start it is
      where the span closes. */
  lemma FindCloseAfter(x: string, y: string, d: string)
    requires |d| > 0 && d[0] !in x && NoLineTerminator(x)
    ensures (d + (x + (d + y)))[|d|..] == x + (d + y)
    ensures FindClose(x + (d + y), d) == Some(|x|)
  {
    assert d <= d + y;
    FindCloseSkips(x, d + y, d);
  }

  // ---------------------------------------------------------------------
  // The list wrapper
  // ---------------------------------------------------------------------

  const ListOpenTag := "<ul class=\"list-disc pl-4 space-y-1\">"

  /** The last index at which `pat` occurs in `t` (greedy `.*` backtracking
      to the latest possible match; see `LastOccurrenceLatest`). */
  function LastOccurrence(t: string, pat: string): (r: Option<nat>)
    requires |pat| > 0
    ensures r.Some? ==> r.value + |pat| <= |t|
    decreases |t|
  {
    if |t| < |pat| then None
    else
      match LastOccurrence(t[1..], pat)
      case Some(j) => Some(j + 1)
      case None => if pat <= t then Some(0) else None
  }

  /** `LastOccurrence` finds an occurrence with none after it, and finds
      none only when there is none. */
  lemma {:induction false} LastOccurrenceLatest(t: string, pat: string)
    requires |pat| > 0
    ensures LastOccurrence(t, pat).Some? ==> OccursAt(t, pat, LastOccurrence(t, pat).value)
    ensures LastOccurrence(t, pat).Some? ==> forall j: nat :: LastOccurrence(t, pat).value < j ==> !OccursAt(t, pat, j)
    ensures LastOccurrence(t, pat).None? ==> forall j: nat :: !OccursAt(t, pat, j)
    decreases |t|
  {
    if |t| >= |pat| {
      LastOccurrenceLatest(t[1..], pat);
      OccursAtTail(t, pat);
      if pat <= t {
        assert OccursAt(t, pat, 0);
      } else {
        assert !OccursAt(t, pat, 0);
      }
    }
  }

  /** An occurrence with none after it is the one `LastOccurrence` finds. */
  lemma {:induction false} LastOccurrenceIs(t: string, pat: string, k: nat)
    requires |pat| > 0 && OccursAt(t, pat, k)
    requires forall j: nat :: k < j ==> !OccursAt(t, pat, j)
    ensures LastOccurrence(t, pat) == Some(k)
    decreases |t|
  {
    OccursAtTail(t, pat);
    if k == 0 {
      LastOccurrenceLatest(t[1..], pat);
      assert forall j: nat :: !OccursAt(t[1..], pat, j) by {
        forall j: nat ensures !OccursAt(t[1..], pat, j) {
          assert !OccursAt(t, pat, j + 1);
        }
      }
      assert pat <= t by { assert t[..|pat|] == t[0..0 + |pat|]; }
    } else {
      forall j: nat | k - 1 < j ensures !OccursAt(t[1..], pat, j) {
        assert !OccursAt(t, pat, j + 1);
      }
      LastOccurrenceIs(t[1..], pat, k - 1);
    }
  }

  /** An occurrence that ends the text is the last one. */
  lemma LastOccurrenceAtEnd(t: string, pat: string)
    requires 0 < |pat| <= |t| && t[|t| - |pat|..] == pat
    ensures LastOccurrence(t, pat) == Some(|t| - |pat|)
  {
    LastOccurrenceIs(t, pat, |t| - |pat|);
  }

  /** Length of one iteration of `<li>.*<\/li>\n?` at the start of `s`. */
  function ListItem(s: string): (r: Option<nat>)
    ensures r.Some? ==> 9 <= r.value <= |s|
  {
    if !("<li>" <= s) then None
    else
      var lineEnd := LineEnd(s, 4);
      match LastOccurrence(s[4..lineEnd], "</li>")
      case None => None
      case Some(p) =>
        var e := 4 + p + 5;
        Some(if e < |s| && s[e] == '\n' then e + 1 else e)
  }

  /** Length of the further iterations of the group after the first. */
  function ListRunRest(s: string): (n: nat)
    ensures n <= |s|
    decreases |s|
  {
    match ListItem(s)
    case None => 0
    case Some(e) => e + ListRunRest(s[e..])
  }

  /** `s.replace(/(<li>.*<\/li>\n?)+/g, ListOpenTag + "$&</ul>")`. */
  function WrapLists(s: string): (r: string)
    decreases |s|
  {
    if s == [] then []
    else
      match ListRun(s)
      case Some(n) => ListOpenTag + s[..n] + "</ul>" + WrapLists(s[n..])
      case None => [s[0]] + WrapLists(s[1..])
  }

  /** Length of the match of `(<li>.*<\/li>\n?)+` at the start of `s`. */
  function ListRun(s: string): (r: Option<nat>)
    ensures r.Some? ==> 9 <= r.value <= |s|
  {
    match ListItem(s)
    case None => None
    case Some(e) => Some(e + ListRunRest(s[e..]))
  }

  /** A run of list-item lines, each ended by a newline. */
  function ItemLines(items: seq<string>): string
    decreases |items|
  {
    if items == [] then "" else "<li>" + items[0] + "</li>\n" + ItemLines(items[1..])
  }

  lemma ListItemLine(x: string, rest: string)
    requires NoLineTerminator(x)
    ensures ListItem("<li>" + x + "</li>\n" + rest) == Some(|x| + 10)
  {
    var s := "<li>" + x + "</li>\n" + rest;
    assert "<li>" <= s;
    assert LineEnd(s, 4) == |x| + 9 by {
      assert s[|x| + 9] == '\n';
      forall i | 4 <= i < |x| + 9
        ensures !IsLineTerminator(s[i])
      {
        if i < |x| + 4 { assert s[i] == x[i - 4]; }
      }
      LineEndIs(s, 4, |x| + 9);
    }
    var u := s[4..|x| + 9];
    assert u[|u| - 5..] == "</li>";
    LastOccurrenceAtEnd(u, "</li>");
  }

  /** A list item alone on the last line, without a newline after it. */
  lemma ListItemAlone(x: string)
    requires NoLineTerminator(x)
    ensures ListItem("<li>" + x + "</li>") == Some(|x| + 9)
  {
    var s := "<li>" + x + "</li>";
    assert "<li>" <= s;
    assert LineEnd(s, 4) == |x| + 9 by {
      forall i | 4 <= i < |x| + 9
        ensures !IsLineTerminator(s[i])
      {
        if i < |x| + 4 { assert s[i] == x[i - 4]; }
      }
      LineEndIs(s, 4, |x| + 9);
    }
    assert s[4..|x| + 9][|x|..] == "</li>";
    LastOccurrenceAtEnd(s[4..|x| + 9], "</li>");
  }

  /** A single list item is wrapped in one list. */
  lemma WrapSingleItem(x: string)
    requires NoLineTerminator(x)
    ensures WrapLists("<li>" + x + "</li>") == ListOpenTag + "<li>" + x + "</li>" + "</ul>"
  {
    ListItemAlone(x);
    assert ("<li>" + x + "</li>")[|x| + 9..] == [];
    assert ListRunRest([]) == 0;
    RunOfItem("<li>" + x + "</li>", |x| + 9, [], 0);
    assert ("<li>" + x + "</li>")[..|x| + 9] == "<li>" + x + "</li>";
    RunAt("<li>" + x + "</li>", |x| + 9, "<li>" + x + "</li>", []);
    assert WrapLists([]) == [];
    AppendEmpty(ListOpenTag + "<li>" + x + "</li>" + "</ul>");
  }

  /** One step of the list wrapper at a run, with the run and the
      remainder named. */
  lemma RunAt(s: string, n: nat, run: string, rest: string)
    requires ListRun(s) == Some(n) && s[..n] == run && s[n..] == rest
    ensures WrapLists(s) == ListOpenTag + run + "</ul>" + WrapLists(rest)
  {
  }

  lemma RunOfItem(s: string, e: nat, rest: string, k: nat)
    requires ListItem(s) == Some(e) && e <= |s| && s[e..] == rest && ListRunRest(rest) == k
    ensures ListRun(s) == Some(e + k)
  {
  }

  /** Text in which no `<li>` can start is copied by the list wrapper. */
  lemma {:induction false} WrapListsPrefix(a: string, t: string)
    requires NeverFollowedBy(a, '<', 'l')
    ensures WrapLists(a + t) == a + WrapLists(t)
    decreases |a|
  {
    if a == [] {
      assert a + t == t;
    } else {
      assert !("<li>" <= a + t) by {
        if (a + t)[0] == '<' {
          assert a[0] == '<' && (a + t)[1] == a[1];
        }
      }
      WrapListsCopy(a + t, a[1..] + t);
      assert NeverFollowedBy(a[1..], '<', 'l') by {
        forall i | 0 <= i < |a[1..]| && a[1..][i] == '<'
          ensures i + 1 < |a[1..]| && a[1..][i + 1] != 'l'
        {
          assert a[i + 1] == '<';
        }
      }
      WrapListsPrefix(a[1..], t);
      AppendAssoc([a[0]], a[1..], WrapLists(t));
      assert [a[0]] + a[1..] == a;
    }
  }

  lemma WrapListsCopy(s: string, rest: string)
    requires s != [] && !("<li>" <= s) && rest == s[1..]
    ensures WrapLists(s) == [s[0]] + WrapLists(rest)
  {
  }

  lemma {:induction false} ListRunRestItems(items: seq<string>, rest: string)
    requires forall i :: 0 <= i < |items| ==> NoLineTerminator(items[i])
    requires !("<li>" <= rest)
    ensures ListRunRest(ItemLines(items) + rest) == |ItemLines(items)|
    decreases |items|
  {
    if items == [] {
      assert ItemLines(items) + rest == rest;
    } else {
      var tail := ItemLines(items[1..]) + rest;
      var s := ItemLines(items) + rest;
      assert s == "<li>" + items[0] + "</li>\n" + tail;
      ListItemLine(items[0], tail);
      assert s[|items[0]| + 10..] == tail;
      ListRunRestItems(items[1..], rest);
    }
  }

  /** A maximal run of list-item lines is wrapped in exactly one list
      element, which closes right after the run's last newline. */
  lemma ListRunWrapped(items: seq<string>, rest: string)
    requires |items| >= 1
    requires forall i :: 0 <= i < |items| ==> NoLineTerminator(items[i])
    requires !("<li>" <= rest)
    ensures WrapLists(ItemLines(items) + rest)
            == ListOpenTag + ItemLines(items) + "</ul>" + WrapLists(rest)
  {
    assert ItemLines(items) + rest == "<li>" + items[0] + "</li>\n" + (ItemLines(items[1..]) + rest);
    ListItemLine(items[0], ItemLines(items[1..]) + rest);
    assert (ItemLines(items) + rest)[|items[0]| + 10..] == ItemLines(items[1..]) + rest;
    ListRunRestItems(items[1..], rest);
    assert (ItemLines(items) + rest)[..|ItemLines(items)|] == ItemLines(items);
    assert (ItemLines(items) + rest)[|ItemLines(items)|..] == rest;
  }


  /** A text without an `<li>` tag is left alone. */
  lemma {:induction false} WrapListsAbsent(s: string)
    requires !Occurs(s, "<li>")
    ensures WrapLists(s) == s
    decreases |s|
  {
    if s != [] {
      assert !OccursAt(s, "<li>", 0);
      NotOccursTail(s, "<li>");
      WrapListsAbsent(s[1..]);
    }
  }

  // ---------------------------------------------------------------------
  // Pipe tables
  // ---------------------------------------------------------------------

  predicate IsSeparatorChar(c: char) { c == '-' || c == '|' || c == ' ' }

  /** End of the run of `[-| ]` characters that starts at `from`. */
  function SeparatorRunEnd(s: string, from: nat): (r: nat)
    requires from <= |s|
    ensures from <= r <= |s|
    ensures r < |s| ==> !IsSeparatorChar(s[r])
    decreases |s| - from
  {
    if from == |s| || !IsSeparatorChar(s[from]) then from else SeparatorRunEnd(s, from + 1)
  }

  /** `\|[-| ]+\|\n` matches at index `k`; the result is the index after it. */
  function SeparatorEnd(s: string, k: nat): (r: Option<nat>)
    ensures r.Some? ==> k + 4 <= r.value <= |s|
  {
    if k < |s| && s[k] == '|' then
      var m := SeparatorRunEnd(s, k + 1);
      if m < |s| && s[m] == '\n' && m >= k + 3 && s[m - 1] == '|' then Some(m + 1) else None
    else None
  }

  /** Length of one iteration of `\|.+\|\n?` at the start of `t`. */
  function TableRow(t: string): (r: Option<nat>)
    ensures r.Some? ==> 3 <= r.value <= |t|
  {
    if t == [] || t[0] != '|' then None
    else
      var lineEnd := LineEnd(t, 1);
      if lineEnd < 2 then None
      else
        match LastOccurrence(t[2..lineEnd], "|")
        case None => None
        case Some(p) =>
          var e := 2 + p + 1;
          Some(if e < |t| && t[e] == '\n' then e + 1 else e)
  }

  /** Length of the rows matched after the first one. */
  function TableRowsRest(t: string): (n: nat)
    ensures n <= |t|
    decreases |t|
  {
    match TableRow(t)
    case None => 0
    case Some(e) => e + TableRowsRest(t[e..])
  }

  /** Length of the match of `(\|.+\|\n?)+` at the start of `t`. */
  function BodyRows(t: string): (r: Option<nat>)
    ensures r.Some? ==> 3 <= r.value <= |t|
  {
    match TableRow(t)
    case None => None
    case Some(e) => Some(e + TableRowsRest(t[e..]))
  }

  /** A match of the table pattern at the start of `s`. */
  datatype TableMatch = TableMatch(header: string, body: string, end: nat)

  /** `\|(.+)\|\n` matches at the start of `s`: the index of its newline. */
  function HeaderEnd(s: string): (r: Option<nat>)
    ensures r.Some? ==> 3 <= r.value < |s|
  {
    if s == [] || s[0] != '|' then None
    else
      var lineEnd := LineEnd(s, 1);
      if lineEnd < |s| && s[lineEnd] == '\n' && lineEnd >= 3 && s[lineEnd - 1] == '|' then Some(lineEnd)
      else None
  }

  function MatchTable(s: string): (r: Option<TableMatch>)
    ensures r.Some? ==> 0 < r.value.end <= |s|
  {
    match HeaderEnd(s)
    case None => None
    case Some(lineEnd) => MatchAfterHeader(s, lineEnd)
  }

  /** The rest of the pattern once the header line ends at `lineEnd`. */
  function MatchAfterHeader(s: string, lineEnd: nat): (r: Option<TableMatch>)
    requires 3 <= lineEnd < |s|
    ensures r.Some? ==> 0 < r.value.end <= |s|
  {
    match SeparatorEnd(s, lineEnd + 1)
    case None => None
    case Some(b) => MatchBody(s, lineEnd, b)
  }

  /** The body rows once the separator line ends before `b`. */
  function MatchBody(s: string, lineEnd: nat, b: nat): (r: Option<TableMatch>)
    requires 3 <= lineEnd < |s| && b <= |s|
    ensures r.Some? ==> 0 < r.value.end <= |s|
  {
    match BodyRows(s[b..])
    case None => None
    case Some(n) => Some(TableMatch(s[1..lineEnd - 1], s[b..b + n], b + n))
  }

  /** `frags.filter(Boolean).map(f => "<tag>" + f.trim() + "</tag>").join("")`. */
  function Cells(frags: seq<string>, tag: string): string
    decreases |frags|
  {
    if frags == [] then "" else Cell(frags[0], tag) + Cells(frags[1..], tag)
  }

  /** The markup of one fragment: nothing for an empty one (`filter(Boolean)`),
      otherwise the trimmed text inside the tag. */
  function Cell(frag: string, tag: string): string {
    if frag == "" then "" else "<" + tag + ">" + Trim(frag) + "</" + tag + ">"
  }

  /** One `<tr>` of `<td>` cells per body line. */
  function Rows(lines: seq<string>): string
    decreases |lines|
  {
    if lines == [] then ""
    else "<tr>" + Cells(Split(lines[0], '|'), "td") + "</tr>" + Rows(lines[1..])
  }

  /** The replacement the table callback builds from the two captures. */
  function TableHtml(header: string, body: string): string {
    "<table class=\"w-full border-collapse\"><thead><tr>" + Cells(Split(header, '|'), "th")
    + "</tr></thead><tbody>" + Rows(Split(Trim(body), '\n')) + "</tbody></table>"
  }

  /** `s.replace(/\|(.+)\|\n\|[-| ]+\|\n((\|.+\|\n?)+)/g, callback)`. */
  function Tables(s: string): (r: string)
    decreases |s|
  {
    if s == [] then []
    else
      match MatchTable(s)
      case Some(m) => TableHtml(m.header, m.body) + Tables(s[m.end..])
      case None => [s[0]] + Tables(s[1..])
  }

  // ---------------------------------------------------------------------
  // What the table rewrite does
  // ---------------------------------------------------------------------

  /** The body rows `|r0|\n|r1|\n…|rn|` of a table (the last newline is
      not included). */
  function Framed(rows: seq<string>): string
    requires |rows| >= 1
    decreases |rows|
  {
    "|" + rows[0] + "|" + (if |rows| == 1 then "" else "\n" + Framed(rows[1..]))
  }

  /** The markup of the body: one `<tr>` of `<td>` cells per row, the cells
      being the trimmed non-empty `|`-fragments of the row. */
  function BodyCells(rows: seq<string>): string
    decreases |rows|
  {
    if rows == [] then ""
    else "<tr>" + Cells(Split(rows[0], '|'), "td") + "</tr>" + BodyCells(rows[1..])
  }

  /** A well-formed pipe table: header line, separator line, body rows,
      each row ended by a newline. */
  function TableText(header: string, separator: string, rows: seq<string>): string
    requires |rows| >= 1
  {
    HeaderLine(header) + HeaderLine(separator) + Framed(rows) + "\n"
  }

  /** A header or separator line: the text between two bars, then a newline. */
  function HeaderLine(cells: string): string {
    "|" + cells + "|\n"
  }

  lemma {:induction false} CellsConcat(a: seq<string>, b: seq<string>, tag: string)
    ensures Cells(a + b, tag) == Cells(a, tag) + Cells(b, tag)
    decreases |a|
  {
    if a != [] {
      assert (a + b)[1..] == a[1..] + b;
      CellsConcat(a[1..], b, tag);
      AppendAssoc(Cell(a[0], tag), Cells(a[1..], tag), Cells(b, tag));
    } else {
      assert a + b == b;
    }
  }

  lemma FramedCells(r: string, tag: string)
    ensures Cells(Split("|" + r + "|", '|'), tag) == Cells(Split(r, '|'), tag)
  {
    SplitConcat(r, "", '|');
    assert r + "|" == r + ['|'] + "";
    SplitConcat("", r + "|", '|');
    assert "|" + r + "|" == "" + ['|'] + (r + "|");
    assert Split("", '|') == [""];
    assert Split("|" + r + "|", '|') == [""] + Split(r, '|') + [""];
    CellsConcat([""], Split(r, '|') + [""], tag);
    CellsConcat(Split(r, '|'), [""], tag);
  }

  lemma {:induction false} FramedRows(rows: seq<string>)
    requires |rows| >= 1
    requires forall i :: 0 <= i < |rows| ==> '\n' !in rows[i]
    ensures Rows(Split(Framed(rows), '\n')) == BodyCells(rows)
    decreases |rows|
  {
    var line := "|" + rows[0] + "|";
    assert '\n' !in line;
    FramedCells(rows[0], "td");
    SplitNone(line, '\n');
    if |rows| == 1 {
      assert Framed(rows) == line;
    } else {
      assert Framed(rows) == line + ['\n'] + Framed(rows[1..]);
      SplitConcat(line, Framed(rows[1..]), '\n');
      FramedRows(rows[1..]);
      assert ([line] + Split(Framed(rows[1..]), '\n'))[1..] == Split(Framed(rows[1..]), '\n');
    }
  }

  lemma FramedEdges(rows: seq<string>)
    requires |rows| >= 1
    ensures |Framed(rows)| >= 2
    ensures Framed(rows)[0] == '|' && Framed(rows)[|Framed(rows)| - 1] == '|'
    decreases |rows|
  {
    if |rows| > 1 {
      FramedEdges(rows[1..]);
    }
  }

  /** The trim in the callback only drops the newline after the last row. */
  lemma TrimBody(rows: seq<string>)
    requires |rows| >= 1
    ensures Trim(Framed(rows) + "\n") == Framed(rows)
  {
    var x := Framed(rows);
    FramedEdges(rows);
    var s := x + "\n";
    assert TrimStart(s) == s;
    assert s[..|s| - 1] == x;
    assert TrimEnd(s) == TrimEnd(x);
    TrimNoEdges(x);
  }

  /** One body row `|r|` followed by a newline is one iteration of the
      row group. */
  lemma TableRowLine(r: string, more: string)
    requires |r| >= 1 && NoLineTerminator(r)
    ensures TableRow("|" + r + "|\n" + more) == Some(|r| + 3)
  {
    var t := "|" + r + "|\n" + more;
    assert t[0] == '|' && t[|r| + 2] == '\n';
    assert LineEnd(t, 1) == |r| + 2 by {
      forall i | 1 <= i < |r| + 2
        ensures !IsLineTerminator(t[i])
      {
        if i <= |r| { assert t[i] == r[i - 1]; }
      }
      LineEndIs(t, 1, |r| + 2);
    }
    var u := t[2..|r| + 2];
    assert u[|u| - 1..] == "|";
    LastOccurrenceAtEnd(u, "|");
  }

  lemma {:induction false} RowsSpan(rows: seq<string>, rest: string)
    requires |rows| >= 1
    requires forall i :: 0 <= i < |rows| ==> |rows[i]| >= 1 && NoLineTerminator(rows[i])
    requires rest == [] || rest[0] != '|'
    ensures TableRow(Framed(rows) + "\n" + rest) == Some(|rows[0]| + 3)
    ensures TableRowsRest(Framed(rows) + "\n" + rest) == |Framed(rows)| + 1
    decreases |rows|
  {
    var x := Framed(rows) + "\n" + rest;
    var more := if |rows| == 1 then rest else Framed(rows[1..]) + "\n" + rest;
    assert x == "|" + rows[0] + "|\n" + more;
    TableRowLine(rows[0], more);
    assert x[|rows[0]| + 3..] == more;
    RowsRestCons(x, |rows[0]| + 3, more);
    if |rows| == 1 {
      assert TableRowsRest(rest) == 0 by { assert TableRow(rest) == None; }
    } else {
      RowsSpan(rows[1..], rest);
    }
  }

  lemma RowsRestCons(t: string, e: nat, more: string)
    requires TableRow(t) == Some(e) && t[e..] == more
    ensures TableRowsRest(t) == e + TableRowsRest(more)
  {
  }

  /** The body capture is the whole run of rows once the first one matches. */
  lemma BodyRowsIs(t: string, e: nat, n: nat)
    requires TableRow(t) == Some(e) && TableRowsRest(t) == n
    ensures BodyRows(t) == Some(n)
  {
  }

  lemma {:induction false} SeparatorRunEndIs(s: string, from: nat, n: nat)
    requires from <= n <= |s|
    requires forall i :: from <= i < n ==> IsSeparatorChar(s[i])
    requires n < |s| ==> !IsSeparatorChar(s[n])
    ensures SeparatorRunEnd(s, from) == n
    decreases n - from
  {
    if from < n {
      SeparatorRunEndIs(s, from + 1, n);
    }
  }

  lemma HeaderOfTable(header: string, more: string)
    requires |header| >= 1 && NoLineTerminator(header)
    ensures HeaderEnd(HeaderLine(header) + more) == Some(|header| + 2)
  {
    var s := HeaderLine(header) + more;
    var h := |header|;
    assert s[0] == '|' && s[h + 1] == '|' && s[h + 2] == '\n';
    forall i | 1 <= i < h + 2
      ensures !IsLineTerminator(s[i])
    {
      if i <= h { assert s[i] == header[i - 1]; }
    }
    LineEndIs(s, 1, h + 2);
  }

  lemma SeparatorOfTable(pre: string, separator: string, more: string)
    requires |separator| >= 1 && forall i :: 0 <= i < |separator| ==> IsSeparatorChar(separator[i])
    ensures SeparatorEnd(pre + (HeaderLine(separator) + more), |pre|) == Some(|pre| + |separator| + 3)
  {
    var s := pre + (HeaderLine(separator) + more);
    var k := |pre|;
    var b := k + |separator| + 3;
    assert s[k] == '|' && s[b - 2] == '|' && s[b - 1] == '\n';
    forall i | k + 1 <= i < b - 1
      ensures IsSeparatorChar(s[i])
    {
      if i < b - 2 { assert s[i] == separator[i - k - 1]; }
    }
    SeparatorRunEndIs(s, k + 1, b - 1);
  }

  /** The table pattern matches a header line, a separator line and the
      rows that follow: the header capture is the header line between its
      outer bars and the body capture is every row line. */
  lemma TableMatched(header: string, separator: string, x: string, n: nat)
    requires |header| >= 1 && NoLineTerminator(header)
    requires |separator| >= 1 && forall i :: 0 <= i < |separator| ==> IsSeparatorChar(separator[i])
    requires BodyRows(x) == Some(n)
    ensures MatchTable(HeaderLine(header) + (HeaderLine(separator) + x))
            == Some(TableMatch(header, x[..n], |header| + |separator| + 6 + n))
  {
    var s := HeaderLine(header) + (HeaderLine(separator) + x);
    var b := |header| + |separator| + 6;
    TableParts(header, separator, x);
    assert s[b..b + n] == x[..n] by { TailAfter(HeaderLine(header) + HeaderLine(separator), x, n); }
    MatchTableAt(s, header, x[..n], |header| + 2, b, n);
  }

  /** Where the header and separator lines of a table end. */
  lemma TableParts(header: string, separator: string, more: string)
    requires |header| >= 1 && NoLineTerminator(header)
    requires |separator| >= 1 && forall i :: 0 <= i < |separator| ==> IsSeparatorChar(separator[i])
    ensures var s := HeaderLine(header) + (HeaderLine(separator) + more);
      && HeaderEnd(s) == Some(|header| + 2)
      && SeparatorEnd(s, |header| + 3) == Some(|header| + |separator| + 6)
      && |s| >= |header| + |separator| + 6
      && s[1..|header| + 1] == header
      && s[|header| + |separator| + 6..] == more
  {
    var a := HeaderLine(header);
    var s := a + (HeaderLine(separator) + more);
    HeaderOfTable(header, HeaderLine(separator) + more);
    SeparatorOfTable(a, separator, more);
    HeaderSlice(header, HeaderLine(separator) + more);
    assert s == (a + HeaderLine(separator)) + more;
  }

  lemma TailAfter(p: string, x: string, n: nat)
    requires n <= |x|
    ensures (p + x)[|p|..] == x && (p + x)[|p|..|p| + n] == x[..n]
  {
  }

  /** `MatchTableIs` with the captured header and body named. */
  lemma MatchTableAt(s: string, header: string, body: string, le: nat, b: nat, n: nat)
    requires HeaderEnd(s) == Some(le) && SeparatorEnd(s, le + 1) == Some(b)
    requires BodyRows(s[b..]) == Some(n)
    requires 2 <= le && b + n <= |s| && s[1..le - 1] == header && s[b..b + n] == body
    ensures MatchTable(s) == Some(TableMatch(header, body, b + n))
  {
    MatchTableIs(s, le, b, n);
  }

  lemma HeaderSlice(header: string, more: string)
    ensures |HeaderLine(header) + more| >= |header| + 1
    ensures (HeaderLine(header) + more)[1..|header| + 1] == header
  {
  }

  lemma MatchTableIs(s: string, le: nat, b: nat, n: nat)
    requires HeaderEnd(s) == Some(le) && SeparatorEnd(s, le + 1) == Some(b)
    requires BodyRows(s[b..]) == Some(n)
    ensures b + n <= |s|
    ensures MatchTable(s) == Some(TableMatch(s[1..le - 1], s[b..b + n], b + n))
  {
    MatchHeaderStep(s, le);
    MatchSeparatorStep(s, le, b);
    MatchBodyStep(s, le, b, n);
  }

  lemma MatchHeaderStep(s: string, le: nat)
    requires HeaderEnd(s) == Some(le)
    ensures 3 <= le < |s| && MatchTable(s) == MatchAfterHeader(s, le)
  {
  }

  lemma MatchSeparatorStep(s: string, le: nat, b: nat)
    requires 3 <= le < |s| && SeparatorEnd(s, le + 1) == Some(b)
    ensures b <= |s| && MatchAfterHeader(s, le) == MatchBody(s, le, b)
  {
  }

  lemma MatchBodyStep(s: string, le: nat, b: nat, n: nat)
    requires 3 <= le < |s| && b <= |s| && BodyRows(s[b..]) == Some(n)
    ensures b + n <= |s| && MatchBody(s, le, b) == Some(TableMatch(s[1..le - 1], s[b..b + n], b + n))
  {
  }

  lemma TablesAt(s: string, m: TableMatch, rest: string)
    requires MatchTable(s) == Some(m) && m.end <= |s| && s[m.end..] == rest
    ensures Tables(s) == TableHtml(m.header, m.body) + Tables(rest)
  {
  }

  /** A well-formed pipe table becomes one `<table>`: a `<th>` per
      non-empty `|`-fragment of the header, trimmed, and a `<tr>` per body
      row with its trimmed `<td>` cells; the scan resumes after the last
      row. */
  lemma TableRendered(header: string, separator: string, rows: seq<string>, rest: string)
    requires |header| >= 1 && NoLineTerminator(header)
    requires |separator| >= 1 && forall i :: 0 <= i < |separator| ==> IsSeparatorChar(separator[i])
    requires |rows| >= 1
    requires forall i :: 0 <= i < |rows| ==> |rows[i]| >= 1 && NoLineTerminator(rows[i])
    requires rest == [] || rest[0] != '|'
    ensures Tables(TableText(header, separator, rows) + rest)
            == "<table class=\"w-full border-collapse\"><thead><tr>" + Cells(Split(header, '|'), "th")
               + "</tr></thead><tbody>" + BodyCells(rows) + "</tbody></table>" + Tables(rest)
  {
    var x := Framed(rows) + "\n" + rest;
    var n := |Framed(rows)| + 1;
    TableTextSplit(header, separator, rows, rest);
    RowsSpan(rows, rest);
    BodyRowsIs(x, |rows[0]| + 3, n);
    TableScanned(header, separator, x, n);
    assert x[..n] == Framed(rows) + "\n" && x[n..] == rest;
    TableHtmlOf(header, rows);
  }

  lemma TableScanned(header: string, separator: string, x: string, n: nat)
    requires |header| >= 1 && NoLineTerminator(header)
    requires |separator| >= 1 && forall i :: 0 <= i < |separator| ==> IsSeparatorChar(separator[i])
    requires BodyRows(x) == Some(n)
    ensures Tables(HeaderLine(header) + (HeaderLine(separator) + x))
            == TableHtml(header, x[..n]) + Tables(x[n..])
  {
    TableMatched(header, separator, x, n);
    DropLines(header, separator, x, n);
    TablesAt(HeaderLine(header) + (HeaderLine(separator) + x),
             TableMatch(header, x[..n], |header| + |separator| + 6 + n), x[n..]);
  }

  lemma DropLines(header: string, separator: string, x: string, n: nat)
    requires n <= |x|
    ensures (HeaderLine(header) + (HeaderLine(separator) + x))[|header| + |separator| + 6 + n..] == x[n..]
  {
    var s := HeaderLine(header) + (HeaderLine(separator) + x);
    assert |HeaderLine(header)| == |header| + 3 && |HeaderLine(separator)| == |separator| + 3;
    assert s[|header| + |separator| + 6..] == x;
  }

  lemma TableTextSplit(header: string, separator: string, rows: seq<string>, rest: string)
    requires |rows| >= 1
    ensures TableText(header, separator, rows) + rest
            == HeaderLine(header) + (HeaderLine(separator) + (Framed(rows) + "\n" + rest))
    ensures |TableText(header, separator, rows)| == |header| + |separator| + 6 + |Framed(rows)| + 1
  {
  }

  lemma TableHtmlOf(header: string, rows: seq<string>)
    requires |rows| >= 1
    requires forall i :: 0 <= i < |rows| ==> NoLineTerminator(rows[i])
    ensures TableHtml(header, Framed(rows) + "\n")
            == "<table class=\"w-full border-collapse\"><thead><tr>" + Cells(Split(header, '|'), "th")
               + "</tr></thead><tbody>" + BodyCells(rows) + "</tbody></table>"
  {
    TrimBody(rows);
    forall i | 0 <= i < |rows| ensures '\n' !in rows[i] {
      assert forall j :: 0 <= j < |rows[i]| ==> rows[i][j] != '\n';
    }
    FramedRows(rows);
  }

  /** A separator line `|[-| ]+|\n` starts at index `k`, just after a
      newline. */
  predicate SeparatorLineAt(s: string, k: nat) {
    0 < k <= |s| && s[k - 1] == '\n' && SeparatorEnd(s, k).Some?
  }

  lemma {:induction false} SeparatorRunEndTail(s: string, from: nat)
    requires 1 <= from <= |s|
    ensures SeparatorRunEnd(s[1..], from - 1) + 1 == SeparatorRunEnd(s, from)
    decreases |s| - from
  {
    if from < |s| && IsSeparatorChar(s[from]) {
      SeparatorRunEndTail(s, from + 1);
    }
  }

  /** Without a separator line no table is produced and the text is
      unchanged. */
  lemma {:induction false} TablesAbsent(s: string)
    requires forall k: nat :: !SeparatorLineAt(s, k)
    ensures Tables(s) == s
    decreases |s|
  {
    if s != [] {
      NoTableAt(s);
      SeparatorLinesTail(s);
      TablesAbsent(s[1..]);
      TablesSkip(s, s[1..]);
    }
  }

  /** Without a separator line there is no table match at the start. */
  lemma NoTableAt(s: string)
    requires s != [] && forall k: nat :: !SeparatorLineAt(s, k)
    ensures MatchTable(s) == None
  {
    if s[0] == '|' {
      var le := LineEnd(s, 1);
      if le < |s| && s[le] == '\n' {
        assert !SeparatorLineAt(s, le + 1);
      }
    }
  }

  lemma SeparatorLinesTail(s: string)
    requires s != [] && forall k: nat :: !SeparatorLineAt(s, k)
    ensures forall k: nat :: !SeparatorLineAt(s[1..], k)
  {
    forall k: nat ensures !SeparatorLineAt(s[1..], k) {
      if k < |s| - 1 && s[1..][k] == '|' {
        SeparatorRunEndTail(s, k + 2);
      }
      assert !SeparatorLineAt(s, k + 1);
    }
  }

  /** A text without `|` holds no table. */
  lemma TablesWithoutPipe(s: string)
    requires '|' !in s
    ensures Tables(s) == s
  {
    forall k: nat ensures !SeparatorLineAt(s, k) {
      if k < |s| {
        assert s[k] != '|';
      }
    }
    TablesAbsent(s);
  }

  /** Where no table starts, the first character is copied. */
  lemma TablesSkip(s: string, rest: string)
    requires s != [] && MatchTable(s) == None && rest == s[1..] && Tables(rest) == rest
    ensures Tables(s) == s
  {
  }

  /** Text that no stage of either formatter reacts to in the middle of a
      line: one line, without emphasis marks, tags or table pipes. */
  predicate Inert(x: string) {
    NoLineTerminator(x) && '*' !in x && '`' !in x && '<' !in x && '|' !in x
  }

  /** A line of ordinary prose: inert, not empty, and not starting like a
      heading, a bullet or a numbered item. */
  predicate Prose(x: string) {
    Inert(x) && x != [] && x[0] != '#' && x[0] != '-' && !IsDigit(x[0])
  }

  /** A character no stage reacts to in the middle of a line. */
  predicate PlainChar(c: char) {
    !IsLineTerminator(c) && c != '*' && c != '`' && c != '|'
  }

  /** A string made of plain characters only. */
  predicate Plain(s: string) {
    forall i :: 0 <= i < |s| ==> PlainChar(s[i])
  }

  lemma PlainConcat(a: string, b: string)
    requires Plain(a) && Plain(b)
    ensures Plain(a + b)
  {
    forall i | 0 <= i < |a + b|
      ensures PlainChar((a + b)[i])
    {
      if i >= |a| {
        assert (a + b)[i] == b[i - |a|];
      }
    }
  }

  lemma PlainChars(s: string)
    requires Plain(s)
    ensures NoLineTerminator(s) && '*' !in s && '`' !in s && '|' !in s && '\n' !in s
  {
  }

  lemma InertPlain(x: string)
    requires Inert(x)
    ensures Plain(x) && '<' !in x
  {
    forall i | 0 <= i < |x|
      ensures PlainChar(x[i])
    {
      assert x[i] in x;
    }
  }

  /** A line rule that leaves two lines and the empty line between them
      alone leaves the whole text alone. */
  lemma TwoLinesKeep(x: string, y: string, rule: LineRule)
    requires NoLineTerminator(x) && NoLineTerminator(y)
    requires ApplyRule(rule, x) == x && ApplyRule(rule, y) == y && ApplyRule(rule, []) == []
    ensures MapLines(x + "\n\n" + y, rule) == x + "\n\n" + y
  {
    NewlineStep(x, "\n" + y, rule);
    NewlineStep([], y, rule);
    MapLinesOneLine(y, rule);
    BlankLineBetween(x, y);
  }


  lemma NewlineStep(a: string, b: string, rule: LineRule)
    requires NoLineTerminator(a)
    ensures MapLines(a + "\n" + b, rule) == ApplyRule(rule, a) + "\n" + MapLines(b, rule)
  {
    MapLinesStep(a, '\n', b, rule);
  }


  lemma BlankLineBetween(x: string, y: string)
    ensures x + "\n" + ("\n" + y) == x + "\n\n" + y
    ensures [] + "\n" + y == "\n" + y
  {
    AppendAssoc(x, "\n", "\n" + y);
    AppendAssoc(x + "\n", "\n", y);
  }
}
