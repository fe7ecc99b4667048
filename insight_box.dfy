/**
 * The collapsible AI insight panel and the markdown-to-HTML formatter it
 * renders its content with.  The formatter is a fixed chain of
 * regular-expression rewrites (headings, emphasis, list items, list
 * wrapping, pipe tables, paragraphs); each stage is one of the `Rewrite`
 * functions.  The lemmas follow small documents through the whole chain.
 */
module InsightBox {
  import opened Text
  import opened Wrappers
  import opened Rewrite

  // ---------------------------------------------------------------------
  // The panel
  // ---------------------------------------------------------------------

  /** The widths, in percent, of the four loading bars. */
  function SkeletonWidths(): (w: seq<nat>)
    ensures |w| == 4 && w[0] == 85
    ensures forall i :: 0 < i < |w| ==> w[i] + 15 == w[i - 1]
    ensures forall i :: 0 <= i < |w| ==> 0 < w[i] <= 100
  {
    seq(4, i requires 0 <= i < 4 => 85 - i * 15)
  }

  const ErrorText := "Failed to load AI insight."

  /** The body under the header: loading bars while loading, the error
      line when there is an error, and the formatted content once there
      is content and nothing is loading; the three are independent. */
  datatype Body = Body(skeleton: seq<nat>, errorText: Option<string>, html: Option<string>)

  /** The header (whose chevron turns over when open) and, when open, the
      body. */
  datatype Panel = Panel(title: string, chevronTurned: bool, body: Option<Body>)

  /** An AI insight panel; the properties come from the page, only the
      open/closed state is its own. */
  class InsightPanel {
    var expanded: bool

    constructor(defaultExpanded: bool := false)
      ensures expanded == defaultExpanded
    {
      expanded := defaultExpanded;
    }

    /** A click on the header. */
    method Toggle()
      modifies this
      ensures expanded == !old(expanded)
    {
      expanded := !expanded;
    }

    /** The panel for the page's `title`, `content`, `isLoading` and
        `error`; `None` content is the absent one. */
    function View(title: string, content: Option<string>, isLoading: bool, error: bool): (p: Panel)
      reads this
      ensures p.title == title
      ensures p.chevronTurned <==> expanded
      ensures p.body.Some? <==> expanded
      ensures p.body.Some? ==> (p.body.value.skeleton != [] <==> isLoading)
      ensures p.body.Some? && isLoading ==> p.body.value.skeleton == SkeletonWidths()
      ensures p.body.Some? ==> (p.body.value.errorText.Some? <==> error)
      ensures p.body.Some? && error ==> p.body.value.errorText == Some(ErrorText)
      ensures p.body.Some? ==>
        (p.body.value.html.Some? <==> content.Some? && content.value != [] && !isLoading)
      ensures p.body.Some? && p.body.value.html.Some? ==>
        p.body.value.html.value == FormatMarkdown(content.value)
    {
      var body := Body(
        if isLoading then SkeletonWidths() else [],
        if error then Some(ErrorText) else None,
        if content.Some? && content.value != [] && !isLoading then Some(FormatMarkdown(content.value)) else None);
      Panel(title, expanded, if expanded then Some(body) else None)
    }
  }

  // ---------------------------------------------------------------------
  // The formatter
  // ---------------------------------------------------------------------

  const H3Open := "<h3 class=\"text-base\">"
  const H2Open := "<h2 class=\"text-lg\">"
  const H1Open := "<h1 class=\"text-xl\">"
  const H3Rule := Prefix("### ", H3Open, "</h3>")
  const H2Rule := Prefix("## ", H2Open, "</h2>")
  const H1Rule := Prefix("# ", H1Open, "</h1>")
  const BulletRule := Prefix("- ", "<li>", "</li>")
  const OrdinalRule := Numbered("<li>", "</li>")

  /** The three heading rules, deepest first. */
  function Headings(text: string): string {
    MapLines(MapLines(MapLines(text, H3Rule), H2Rule), H1Rule)
  }

  /** Bold, then italic, then inline code. */
  function Emphasis(s: string): string {
    ReplaceSpans(
      ReplaceSpans(ReplaceSpans(s, "**", "<strong>", "</strong>"), "*", "<em>", "</em>"),
      "`", "<code>", "</code>")
  }

  /** Bullet items, then numbered items, both become `<li>` lines. */
  function ListItems(s: string): string {
    MapLines(MapLines(s, BulletRule), OrdinalRule)
  }

  /** Blank lines become paragraph breaks, every line not opening a block
      tag is wrapped in a paragraph, and empty paragraphs are dropped. */
  function Paragraphs(s: string): string {
    ReplaceAll(MapLines(ReplaceAll(s, "\n\n", "</p><p>"), Paragraph), "<p></p>", "")
  }

  /** The stages after the emphasis. */
  function AfterEmphasis(s: string): string {
    Paragraphs(Tables(WrapLists(ListItems(s))))
  }

  /** The stages after the headings. */
  function AfterHeadings(s: string): string {
    AfterEmphasis(Emphasis(s))
  }

  /** `formatMarkdown(text)`. */
  function FormatMarkdown(text: string): string {
    AfterHeadings(Headings(text))
  }

  /** Markup that the later stages copy: one line, no emphasis marks, no
      table pipes, and no `<p` that an empty paragraph could start with. */
  predicate Markup(s: string) {
    Plain(s) && NeverFollowedBy(s, '<', 'p')
  }

  lemma MarkupConcat(a: string, b: string)
    requires Markup(a) && Markup(b)
    ensures Markup(a + b)
  {
    NeverFollowedByConcat(a, b, '<', 'p');
    PlainConcat(a, b);
  }

  lemma MarkupChars(s: string)
    requires Markup(s)
    ensures NoLineTerminator(s) && '*' !in s && '`' !in s && '|' !in s && '\n' !in s
  {
  }

  lemma InertMarkup(x: string)
    requires Inert(x)
    ensures Markup(x) && NeverFollowedBy(x, '<', 'l') && NeverFollowedBy(x, '<', 'p')
  {
    forall i | 0 <= i < |x|
      ensures PlainChar(x[i]) && x[i] != '<'
    {
      assert x[i] in x;
    }
  }

  // The tags the formatter writes are markup.

  lemma HeadingTags()
    ensures Markup(H3Open) && Markup(H2Open) && Markup(H1Open)
    ensures NeverFollowedBy(H3Open, '<', 'l') && NeverFollowedBy(H2Open, '<', 'l') && NeverFollowedBy(H1Open, '<', 'l')
  {
    H3Tag();
    H2Tag();
    H1Tag();
  }

  lemma H3Tag()
    ensures Markup(H3Open) && NeverFollowedBy(H3Open, '<', 'l')
  {
  }

  lemma H2Tag()
    ensures Markup(H2Open) && NeverFollowedBy(H2Open, '<', 'l')
  {
  }

  lemma H1Tag()
    ensures Markup(H1Open) && NeverFollowedBy(H1Open, '<', 'l')
  {
  }

  lemma CloseTags()
    ensures Markup("</h3>") && Markup("</h2>") && Markup("</h1>")
    ensures NeverFollowedBy("</h3>", '<', 'l') && NeverFollowedBy("</h2>", '<', 'l')
    ensures NeverFollowedBy("</h1>", '<', 'l')
  {
  }

  lemma StrongTags()
    ensures Markup("<strong>") && Markup("</strong>")
    ensures NeverFollowedBy("<strong>", '<', 'l') && NeverFollowedBy("</strong>", '<', 'l')
  {
  }

  lemma EmTags()
    ensures Markup("<em>") && Markup("</em>")
    ensures NeverFollowedBy("<em>", '<', 'l') && NeverFollowedBy("</em>", '<', 'l')
  {
  }

  lemma CodeTags()
    ensures Markup("<code>") && Markup("</code>")
    ensures NeverFollowedBy("<code>", '<', 'l') && NeverFollowedBy("</code>", '<', 'l')
  {
  }

  lemma ListTags()
    ensures Markup(ListOpenTag) && Markup("<li>") && Markup("</li>") && Markup("</ul>")
  {
    ListOpenChars();
    ListOpenNoParagraph();
  }

  lemma ListOpenChars()
    ensures forall i :: 0 <= i < |ListOpenTag| ==> PlainChar(ListOpenTag[i])
  {
  }

  lemma ListOpenNoParagraph()
    ensures NeverFollowedBy(ListOpenTag, '<', 'p')
  {
  }

  // ---------------------------------------------------------------------
  // Stage by stage
  // ---------------------------------------------------------------------

  /** A line not starting with `#` is no heading. */
  lemma HeadingsKeep(line: string)
    requires NoLineTerminator(line) && (line == [] || line[0] != '#')
    ensures Headings(line) == line
  {
    MapLinesOneLine(line, H3Rule);
    MapLinesOneLine(line, H2Rule);
    MapLinesOneLine(line, H1Rule);
  }

  lemma EmphasisKeeps(s: string)
    requires '*' !in s && '`' !in s
    ensures Emphasis(s) == s
  {
    SpansAbsent(s, "**", "<strong>", "</strong>");
    SpansAbsent(s, "*", "<em>", "</em>");
    SpansAbsent(s, "`", "<code>", "</code>");
  }

  /** A line starting neither with `-` nor with a digit is no list item. */
  lemma ListItemsKeep(line: string)
    requires NoLineTerminator(line) && (line == [] || (line[0] != '-' && !IsDigit(line[0])))
    ensures ListItems(line) == line
  {
    MapLinesOneLine(line, BulletRule);
    MapLinesOneLine(line, OrdinalRule);
  }

  /** Without `<li>` and `|` the list and table stages copy the text. */
  lemma BlocksKeep(s: string)
    requires NeverFollowedBy(s, '<', 'l') && '|' !in s
    ensures Tables(WrapLists(s)) == s
  {
    WrapListsPrefix(s, []);
    AppendEmpty(s);
    assert WrapLists([]) == [];
    TablesWithoutPipe(s);
  }

  /** A line opening a block tag passes the paragraph stage unchanged. */
  lemma ParagraphKeeps(line: string)
    requires Markup(line) && OpensBlockTag(line)
    ensures Paragraphs(line) == line
  {
    MarkupChars(line);
    ReplaceAllWithout(line, "\n\n", "</p><p>");
    MapLinesOneLine(line, Paragraph);
    ReplaceAllPrefix(line, [], "<p></p>", "");
    AppendEmpty(line);
    assert ReplaceAll([], "<p></p>", "") == [];
  }

  /** A one-line text not opening a block tag becomes one paragraph. */
  lemma ParagraphWraps(y: string)
    requires Markup(y) && y != [] && !OpensBlockTag(y) && !("</" <= y)
    ensures Paragraphs(y) == "<p>" + y + "</p>"
  {
    MarkupChars(y);
    ReplaceAllWithout(y, "\n\n", "</p><p>");
    MapLinesOneLine(y, Paragraph);
    ParagraphSurvives(y, "");
    AppendEmpty("<p>" + y + "</p>");
  }

  /** An opened paragraph whose text does not close it at once is kept by
      the removal of empty paragraphs. */
  lemma ParagraphSurvives(y: string, more: string)
    requires y != [] && !("</" <= y) && NeverFollowedBy(y, '<', 'p')
    requires ReplaceAll(more, "<p></p>", "") == more
    ensures ReplaceAll("<p>" + y + "</p>" + more, "<p></p>", "") == "<p>" + y + "</p>" + more
  {
    NoCloseAhead(y, "</p>" + more);
    OpenParagraph(y + ("</p>" + more));
    NeverFollowedByConcat("p>", y, '<', 'p');
    ReplaceAllPrefix("p>" + y, "</p>" + more, "<p></p>", "");
    ReplaceAllPrefix("</p>", more, "<p></p>", "");
    Regroup(y, more);
  }

  lemma Regroup(y: string, more: string)
    ensures "<p>" + y + "</p>" + more == "<p>" + (y + ("</p>" + more))
    ensures "p>" + (y + ("</p>" + more)) == ("p>" + y) + ("</p>" + more)
    ensures "<" + (("p>" + y) + ("</p>" + more)) == "<p>" + y + "</p>" + more
  {
    AppendAssoc("p>", y, "</p>" + more);
    AppendAssoc("<p>", y, "</p>" + more);
    AppendAssoc("<p>" + y, "</p>", more);
    AppendAssoc("<", "p>" + y, "</p>" + more);
    AppendAssoc("<", "p>", y);
  }

  lemma NoCloseAhead(y: string, t: string)
    requires y != [] && !("</" <= y) && (t == [] || t[0] != '/')
    ensures y + t != [] && !("</" <= y + t)
  {
    if |y| >= 2 {
      assert (y + t)[..2] == y[..2];
    } else {
      assert (y + t)[0] == y[0];
      if t != [] { assert (y + t)[1] == t[0]; }
    }
  }

  /** The removal of empty paragraphs steps over `<p>` when the text after
      it does not start with `</`. */
  lemma OpenParagraph(u: string)
    requires u != [] && !("</" <= u)
    ensures ReplaceAll("<p>" + u, "<p></p>", "") == "<" + ReplaceAll("p>" + u, "<p></p>", "")
  {
    assert !("<p></p>" <= "<p>" + u) by {
      if |u| >= 2 {
        assert ("<p>" + u)[3] == u[0] && ("<p>" + u)[4] == u[1];
        assert u[0] != '<' || u[1] != '/';
      }
    }
    assert ("<p>" + u)[1..] == "p>" + u;
    ReplaceAllCopy("<p>" + u, "<p></p>", "", "p>" + u);
  }

  /** A line opening a block tag passes every stage after the headings
      unchanged. */
  lemma BlockLineSettles(h: string)
    requires Markup(h) && NeverFollowedBy(h, '<', 'l') && OpensBlockTag(h)
    ensures AfterEmphasis(h) == h && AfterHeadings(h) == h
  {
    MarkupChars(h);
    EmphasisKeeps(h);
    ListItemsKeep(h);
    BlocksKeep(h);
    ParagraphKeeps(h);
  }

  /** Any other line of markup becomes one paragraph. */
  lemma InlineLineWraps(h: string)
    requires Markup(h) && NeverFollowedBy(h, '<', 'l')
    requires h != [] && !OpensBlockTag(h) && !("</" <= h)
    requires h[0] != '-' && !IsDigit(h[0])
    ensures AfterEmphasis(h) == "<p>" + h + "</p>" && AfterHeadings(h) == "<p>" + h + "</p>"
  {
    MarkupChars(h);
    EmphasisKeeps(h);
    ListItemsKeep(h);
    BlocksKeep(h);
    ParagraphWraps(h);
  }

  // ---------------------------------------------------------------------
  // What the formatter makes of small documents
  // ---------------------------------------------------------------------

  /** Empty content formats to nothing. */
  lemma FormatEmpty()
    ensures FormatMarkdown("") == ""
  {
    HeadingsKeep("");
    EmphasisKeeps("");
    ListItemsKeep("");
    assert WrapLists("") == "";
    TablesWithoutPipe("");
    ReplaceAllWithout("", "\n\n", "</p><p>");
    MapLinesOneLine("", Paragraph);
    ReplaceAllWithout("", "<p></p>", "");
  }

  /** A line of prose becomes one paragraph. */
  lemma FormatProse(x: string)
    requires Prose(x)
    ensures FormatMarkdown(x) == "<p>" + x + "</p>"
  {
    InertMarkup(x);
    HeadingsKeep(x);
    assert x[0] in x;
    InlineLineWraps(x);
  }

  /** `### x` becomes a third-level heading and nothing else. */
  lemma FormatHeading3(x: string)
    requires Inert(x)
    ensures FormatMarkdown("### " + x) == H3Open + x + "</h3>"
  {
    H3Tag();
    CloseTags();
    HeadingLine(H3Open, x, "</h3>");
    Heading3Line(x);
    FormatVia("### " + x, H3Open + x + "</h3>", H3Open + x + "</h3>");
  }

  lemma Heading3Line(x: string)
    requires Inert(x) && NoLineTerminator(H3Open + x + "</h3>") && (H3Open + x + "</h3>")[0] == '<'
    ensures Headings("### " + x) == H3Open + x + "</h3>"
  {
    MarkedLine("### ", x);
    MapLinesOneLine("### " + x, H3Rule);
    PrefixApplies("### ", H3Open, "</h3>", x);
    LaterHeadingsKeep(H3Open + x + "</h3>");
  }

  /** `## x` becomes a second-level heading. */
  lemma FormatHeading2(x: string)
    requires Inert(x)
    ensures FormatMarkdown("## " + x) == H2Open + x + "</h2>"
  {
    H2Tag();
    CloseTags();
    HeadingLine(H2Open, x, "</h2>");
    Heading2Line(x);
    FormatVia("## " + x, H2Open + x + "</h2>", H2Open + x + "</h2>");
  }

  lemma Heading2Line(x: string)
    requires Inert(x) && NoLineTerminator(H2Open + x + "</h2>") && (H2Open + x + "</h2>")[0] == '<'
    ensures Headings("## " + x) == H2Open + x + "</h2>"
  {
    MarkedLine("## ", x);
    MapLinesOneLine("## " + x, H3Rule);
    assert ("## " + x)[2] == ' ';
    PrefixMisses("### ", H3Open, "</h3>", "## " + x, 2);
    MapLinesOneLine("## " + x, H2Rule);
    PrefixApplies("## ", H2Open, "</h2>", x);
    MapLinesOneLine(H2Open + x + "</h2>", H1Rule);
    PrefixMisses("# ", H1Open, "</h1>", H2Open + x + "</h2>", 0);
  }

  /** `# x` becomes a first-level heading. */
  lemma FormatHeading1(x: string)
    requires Inert(x)
    ensures FormatMarkdown("# " + x) == H1Open + x + "</h1>"
  {
    H1Tag();
    CloseTags();
    HeadingLine(H1Open, x, "</h1>");
    Heading1Line(x);
    FormatVia("# " + x, H1Open + x + "</h1>", H1Open + x + "</h1>");
  }

  lemma Heading1Line(x: string)
    requires Inert(x)
    ensures Headings("# " + x) == H1Open + x + "</h1>"
  {
    MarkedLine("# ", x);
    assert ("# " + x)[1] == ' ';
    MapLinesOneLine("# " + x, H3Rule);
    PrefixMisses("### ", H3Open, "</h3>", "# " + x, 1);
    MapLinesOneLine("# " + x, H2Rule);
    PrefixMisses("## ", H2Open, "</h2>", "# " + x, 1);
    MapLinesOneLine("# " + x, H1Rule);
    PrefixApplies("# ", H1Open, "</h1>", x);
  }

  /** The formatter's result through the result of its heading stage. */
  lemma FormatVia(text: string, h: string, out: string)
    requires Headings(text) == h && AfterHeadings(h) == out
    ensures FormatMarkdown(text) == out
  {
  }

  /** A line starting with a marker, followed by inert text. */
  lemma MarkedLine(marker: string, x: string)
    requires NoLineTerminator(marker) && Inert(x)
    ensures NoLineTerminator(marker + x)
  {
    NoLineTerminatorConcat(marker, x);
  }

  /** The second- and first-level rules leave a line starting with `<`
      alone. */
  lemma LaterHeadingsKeep(line: string)
    requires NoLineTerminator(line) && line != [] && line[0] == '<'
    ensures MapLines(MapLines(line, H2Rule), H1Rule) == line
  {
    MapLinesOneLine(line, H2Rule);
    PrefixMisses("## ", H2Open, "</h2>", line, 0);
    MapLinesOneLine(line, H1Rule);
    PrefixMisses("# ", H1Open, "</h1>", line, 0);
  }

  /** A heading line is markup opening a block tag. */
  lemma HeadingLine(open: string, x: string, close: string)
    requires Inert(x) && Markup(open) && Markup(close) && OpensBlockTag(open)
    requires NeverFollowedBy(open, '<', 'l') && NeverFollowedBy(close, '<', 'l')
    ensures NoLineTerminator(open + x + close) && (open + x + close)[0] == '<'
    ensures AfterHeadings(open + x + close) == open + x + close
  {
    TaggedMarkup(open, x, close);
    assert (open + x + close)[..2] == open[..2];
    BlockLineSettles(open + x + close);
    MarkupChars(open + x + close);
  }

  lemma TaggedMarkup(open: string, x: string, close: string)
    requires Inert(x) && Markup(open) && Markup(close)
    requires NeverFollowedBy(open, '<', 'l') && NeverFollowedBy(close, '<', 'l')
    ensures Markup(open + x + close) && NeverFollowedBy(open + x + close, '<', 'l')
  {
    InertMarkup(x);
    MarkupConcat(open, x);
    MarkupConcat(open + x, close);
    NeverFollowedByConcat(open, x, '<', 'l');
    NeverFollowedByConcat(open + x, close, '<', 'l');
  }

  /** The heading stage's result through the result of the emphasis stage. */
  lemma EmphasisVia(s: string, e: string, out: string)
    requires Emphasis(s) == e && AfterEmphasis(e) == out
    ensures AfterHeadings(s) == out
  {
  }

  /** `**x**` becomes a paragraph holding strong text. */
  lemma FormatBold(x: string)
    requires Inert(x)
    ensures FormatMarkdown("**" + x + "**") == "<p>" + ("<strong>" + x + "</strong>") + "</p>"
  {
    InlineLine("**", x, "**");
    StrongTags();
    BoldSpan(x);
    InlineTagged("<strong>", x, "</strong>");
    EmphasisVia("**" + x + "**", "<strong>" + x + "</strong>", "<p>" + ("<strong>" + x + "</strong>") + "</p>");
    FormatVia("**" + x + "**", "**" + x + "**", "<p>" + ("<strong>" + x + "</strong>") + "</p>");
  }

  /** `*x*` becomes a paragraph holding emphasised text. */
  lemma FormatItalic(x: string)
    requires Inert(x) && x != []
    ensures FormatMarkdown("*" + x + "*") == "<p>" + ("<em>" + x + "</em>") + "</p>"
  {
    InlineLine("*", x, "*");
    EmTags();
    ItalicSpan(x);
    InlineTagged("<em>", x, "</em>");
    EmphasisVia("*" + x + "*", "<em>" + x + "</em>", "<p>" + ("<em>" + x + "</em>") + "</p>");
    FormatVia("*" + x + "*", "*" + x + "*", "<p>" + ("<em>" + x + "</em>") + "</p>");
  }

  /** `` `x` `` becomes a paragraph holding code. */
  lemma FormatCode(x: string)
    requires Inert(x)
    ensures FormatMarkdown("`" + x + "`") == "<p>" + ("<code>" + x + "</code>") + "</p>"
  {
    InlineLine("`", x, "`");
    CodeTags();
    CodeSpan(x);
    InlineTagged("<code>", x, "</code>");
    EmphasisVia("`" + x + "`", "<code>" + x + "</code>", "<p>" + ("<code>" + x + "</code>") + "</p>");
    FormatVia("`" + x + "`", "`" + x + "`", "<p>" + ("<code>" + x + "</code>") + "</p>");
  }

  /** A line of inline markup is no heading. */
  lemma InlineLine(d: string, x: string, d': string)
    requires Inert(x) && NoLineTerminator(d) && NoLineTerminator(d') && d != [] && d[0] != '#'
    ensures Headings(d + x + d') == d + x + d'
  {
    NoLineTerminatorConcat(d, x);
    NoLineTerminatorConcat(d + x, d');
    HeadingsKeep(d + x + d');
  }

  /** Inert text between inline tags becomes one paragraph. */
  lemma InlineTagged(open: string, x: string, close: string)
    requires Inert(x) && Markup(open) && Markup(close)
    requires NeverFollowedBy(open, '<', 'l') && NeverFollowedBy(close, '<', 'l')
    requires |open| >= 2 && open[0] == '<' && open[1] != '/' && !OpensBlockTag(open)
    ensures AfterEmphasis(open + x + close) == "<p>" + (open + x + close) + "</p>"
  {
    TaggedMarkup(open, x, close);
    assert (open + x + close)[0] == open[0] && (open + x + close)[1] == open[1];
    InlineLineWraps(open + x + close);
  }

  /** The three emphasis rewrites, stage by stage. */
  lemma EmphasisSteps(s: string, a: string, b: string, c: string)
    requires ReplaceSpans(s, "**", "<strong>", "</strong>") == a
    requires ReplaceSpans(a, "*", "<em>", "</em>") == b
    requires ReplaceSpans(b, "`", "<code>", "</code>") == c
    ensures Emphasis(s) == c
  {
  }

  lemma BoldSpan(x: string)
    requires Inert(x) && Markup("<strong>") && Markup("</strong>")
    ensures Emphasis("**" + x + "**") == "<strong>" + x + "</strong>"
  {
    SpanWhole(x, "**", "<strong>", "</strong>");
    InertMarkup(x);
    MarkupConcat("<strong>", x);
    MarkupConcat("<strong>" + x, "</strong>");
    MarkupChars("<strong>" + x + "</strong>");
    SpansAbsent("<strong>" + x + "</strong>", "*", "<em>", "</em>");
    SpansAbsent("<strong>" + x + "</strong>", "`", "<code>", "</code>");
    EmphasisSteps("**" + x + "**", "<strong>" + x + "</strong>", "<strong>" + x + "</strong>", "<strong>" + x + "</strong>");
  }

  lemma ItalicSpan(x: string)
    requires Inert(x) && x != [] && Markup("<em>") && Markup("</em>")
    ensures Emphasis("*" + x + "*") == "<em>" + x + "</em>"
  {
    ItalicNotBold(x);
    SpanWhole(x, "*", "<em>", "</em>");
    InertMarkup(x);
    MarkupConcat("<em>", x);
    MarkupConcat("<em>" + x, "</em>");
    MarkupChars("<em>" + x + "</em>");
    SpansAbsent("<em>" + x + "</em>", "`", "<code>", "</code>");
    EmphasisSteps("*" + x + "*", "*" + x + "*", "<em>" + x + "</em>", "<em>" + x + "</em>");
  }

  /** Single stars around text without stars are no bold span. */
  lemma ItalicNotBold(x: string)
    requires Inert(x) && x != []
    ensures ReplaceSpans("*" + x + "*", "**", "<strong>", "</strong>") == "*" + x + "*"
  {
    assert NeverFollowedBy("*" + x, '*', '*') by {
      assert ("*" + x)[1] == x[0];
      forall i | 1 <= i < |"*" + x|
        ensures ("*" + x)[i] != '*'
      {
        assert ("*" + x)[i] == x[i - 1];
      }
    }
    SpansPrefix("*" + x, "*", "**", "<strong>", "</strong>");
    SpanCopy("*", [], "**", "<strong>", "</strong>");
    assert ReplaceSpans([], "**", "<strong>", "</strong>") == [];
  }

  lemma CodeSpan(x: string)
    requires Inert(x) && Markup("<code>") && Markup("</code>")
    ensures Emphasis("`" + x + "`") == "<code>" + x + "</code>"
  {
    SpansAbsent("`" + x + "`", "**", "<strong>", "</strong>");
    SpansAbsent("`" + x + "`", "*", "<em>", "</em>");
    SpanWhole(x, "`", "<code>", "</code>");
    EmphasisSteps("`" + x + "`", "`" + x + "`", "`" + x + "`", "<code>" + x + "</code>");
  }

  /** The stages after the emphasis, through the results of the list-item
      stage and of the list and table stages. */
  lemma StagesVia(s: string, l: string, w: string, out: string)
    requires ListItems(s) == l && Tables(WrapLists(l)) == w && Paragraphs(w) == out
    ensures AfterEmphasis(s) == out
  {
  }

  /** A list-item line is wrapped in a one-item list that the later stages
      keep. */
  lemma ListBlock(x: string)
    requires Inert(x)
    ensures Tables(WrapLists("<li>" + x + "</li>")) == ListOpenTag + "<li>" + x + "</li>" + "</ul>"
    ensures Paragraphs(ListOpenTag + "<li>" + x + "</li>" + "</ul>") == ListOpenTag + "<li>" + x + "</li>" + "</ul>"
  {
    InertMarkup(x);
    WrapSingleItem(x);
    ListMarkup(x);
    MarkupChars(ListOpenTag + "<li>" + x + "</li>" + "</ul>");
    TablesWithoutPipe(ListOpenTag + "<li>" + x + "</li>" + "</ul>");
    ParagraphKeeps(ListOpenTag + "<li>" + x + "</li>" + "</ul>");
  }

  lemma ListMarkup(x: string)
    requires Inert(x)
    ensures Markup(ListOpenTag + "<li>" + x + "</li>" + "</ul>")
    ensures OpensBlockTag(ListOpenTag + "<li>" + x + "</li>" + "</ul>")
  {
    ListTags();
    InertMarkup(x);
    MarkupConcat(ListOpenTag, "<li>");
    MarkupConcat(ListOpenTag + "<li>", x);
    MarkupConcat(ListOpenTag + "<li>" + x, "</li>");
    MarkupConcat(ListOpenTag + "<li>" + x + "</li>", "</ul>");
    assert (ListOpenTag + "<li>" + x + "</li>" + "</ul>")[..2] == ListOpenTag[..2];
  }

  /** The ordinal rule leaves a list-item line alone. */
  lemma ItemKept(x: string)
    requires Inert(x)
    ensures MapLines("<li>" + x + "</li>", OrdinalRule) == "<li>" + x + "</li>"
  {
    NoLineTerminatorConcat("<li>", x);
    NoLineTerminatorConcat("<li>" + x, "</li>");
    MapLinesOneLine("<li>" + x + "</li>", OrdinalRule);
    NumberedMisses("<li>", "</li>", "<li>" + x + "</li>");
  }

  /** `- x` becomes a one-item bulleted list. */
  lemma FormatBullet(x: string)
    requires Inert(x)
    ensures FormatMarkdown("- " + x) == ListOpenTag + "<li>" + x + "</li>" + "</ul>"
  {
    MarkedLine("- ", x);
    HeadingsKeep("- " + x);
    EmphasisKeeps("- " + x);
    MapLinesOneLine("- " + x, BulletRule);
    PrefixApplies("- ", "<li>", "</li>", x);
    ItemKept(x);
    ListBlock(x);
    StagesVia("- " + x, "<li>" + x + "</li>",
      ListOpenTag + "<li>" + x + "</li>" + "</ul>", ListOpenTag + "<li>" + x + "</li>" + "</ul>");
    EmphasisVia("- " + x, "- " + x, ListOpenTag + "<li>" + x + "</li>" + "</ul>");
    FormatVia("- " + x, "- " + x, ListOpenTag + "<li>" + x + "</li>" + "</ul>");
  }

  /** `n. x` becomes a one-item list as well: the number is dropped. */
  lemma FormatNumbered(n: nat, x: string)
    requires Inert(x)
    ensures FormatMarkdown(NatToString(n) + ". " + x) == ListOpenTag + "<li>" + x + "</li>" + "</ul>"
  {
    NumberedLine(NatToString(n), x);
    MapLinesOneLine(NatToString(n) + ". " + x, OrdinalRule);
    NumberedApplies("<li>", "</li>", NatToString(n), x);
    ItemKept(x);
    ListBlock(x);
    StagesVia(NatToString(n) + ". " + x, "<li>" + x + "</li>",
      ListOpenTag + "<li>" + x + "</li>" + "</ul>", ListOpenTag + "<li>" + x + "</li>" + "</ul>");
    EmphasisVia(NatToString(n) + ". " + x, NatToString(n) + ". " + x,
      ListOpenTag + "<li>" + x + "</li>" + "</ul>");
    FormatVia(NatToString(n) + ". " + x, NatToString(n) + ". " + x,
      ListOpenTag + "<li>" + x + "</li>" + "</ul>");
  }

  /** A numbered line is no heading, has no emphasis and is no bullet. */
  lemma NumberedLine(d: string, x: string)
    requires Inert(x) && d != [] && forall i :: 0 <= i < |d| ==> IsDigit(d[i])
    ensures NoLineTerminator(d + ". " + x)
    ensures Headings(d + ". " + x) == d + ". " + x
    ensures Emphasis(d + ". " + x) == d + ". " + x
    ensures MapLines(d + ". " + x, BulletRule) == d + ". " + x
  {
    assert NoLineTerminator(d) && '*' !in d && '`' !in d;
    NoLineTerminatorConcat(d, ". ");
    NoLineTerminatorConcat(d + ". ", x);
    assert (d + ". " + x)[0] == d[0];
    HeadingsKeep(d + ". " + x);
    EmphasisKeeps(d + ". " + x);
    MapLinesOneLine(d + ". " + x, BulletRule);
    PrefixMisses("- ", "<li>", "</li>", d + ". " + x, 0);
  }

  /** Two lines of prose separated by a blank line become two paragraphs. */
  lemma FormatParagraphs(x: string, y: string)
    requires Prose(x) && Prose(y)
    ensures FormatMarkdown(x + "\n\n" + y) == "<p>" + x + "</p><p>" + y + "</p>"
  {
    ProseLinesKept(x, y);
    BreakBetween(x, y);
    StagesVia(x + "\n\n" + y, x + "\n\n" + y, x + "\n\n" + y, "<p>" + x + "</p><p>" + y + "</p>");
    EmphasisVia(x + "\n\n" + y, x + "\n\n" + y, "<p>" + x + "</p><p>" + y + "</p>");
    FormatVia(x + "\n\n" + y, x + "\n\n" + y, "<p>" + x + "</p><p>" + y + "</p>");
  }

  /** No line rule, emphasis, list or table applies to two prose lines. */
  lemma ProseLinesKept(x: string, y: string)
    requires Prose(x) && Prose(y)
    ensures Headings(x + "\n\n" + y) == x + "\n\n" + y
    ensures Emphasis(x + "\n\n" + y) == x + "\n\n" + y
    ensures ListItems(x + "\n\n" + y) == x + "\n\n" + y
    ensures Tables(WrapLists(x + "\n\n" + y)) == x + "\n\n" + y
  {
    PrefixMisses("### ", H3Open, "</h3>", x, 0);
    PrefixMisses("### ", H3Open, "</h3>", y, 0);
    TwoLinesKeep(x, y, H3Rule);
    PrefixMisses("## ", H2Open, "</h2>", x, 0);
    PrefixMisses("## ", H2Open, "</h2>", y, 0);
    TwoLinesKeep(x, y, H2Rule);
    PrefixMisses("# ", H1Open, "</h1>", x, 0);
    PrefixMisses("# ", H1Open, "</h1>", y, 0);
    TwoLinesKeep(x, y, H1Rule);
    EmphasisKeeps(x + "\n\n" + y);
    PrefixMisses("- ", "<li>", "</li>", x, 0);
    PrefixMisses("- ", "<li>", "</li>", y, 0);
    TwoLinesKeep(x, y, BulletRule);
    NumberedMisses("<li>", "</li>", x);
    NumberedMisses("<li>", "</li>", y);
    TwoLinesKeep(x, y, OrdinalRule);
    InertMarkup(x);
    InertMarkup(y);
    NeverFollowedByConcat(x, "\n\n", '<', 'l');
    NeverFollowedByConcat(x + "\n\n", y, '<', 'l');
    BlocksKeep(x + "\n\n" + y);
  }

  /** The blank line between two prose lines becomes a paragraph break. */
  lemma BreakBetween(x: string, y: string)
    requires Prose(x) && Prose(y)
    ensures Paragraphs(x + "\n\n" + y) == "<p>" + x + "</p><p>" + y + "</p>"
  {
    ReplaceBlankLine(x, y, "</p><p>");
    NoLineTerminatorConcat(x, "</p><p>");
    NoLineTerminatorConcat(x + "</p><p>", y);
    MapLinesOneLine(x + "</p><p>" + y, Paragraph);
    assert (x + "</p><p>" + y)[0] == x[0] && x[0] in x;
    SecondParagraph(x, y);
    ParagraphsVia(x + "\n\n" + y, x + "</p><p>" + y, "<p>" + (x + "</p><p>" + y) + "</p>",
      "<p>" + x + "</p><p>" + y + "</p>");
  }

  /** The paragraph stage through the results of its three rewrites. */
  lemma ParagraphsVia(s: string, r: string, m: string, out: string)
    requires ReplaceAll(s, "\n\n", "</p><p>") == r
    requires MapLines(r, Paragraph) == m
    requires ReplaceAll(m, "<p></p>", "") == out
    ensures Paragraphs(s) == out
  {
  }

  lemma SecondParagraph(x: string, y: string)
    requires Prose(x) && Prose(y)
    ensures ReplaceAll("<p>" + (x + "</p><p>" + y) + "</p>", "<p></p>", "")
            == "<p>" + x + "</p><p>" + y + "</p>"
  {
    InertMarkup(y);
    InertMarkup(x);
    assert x[0] in x && y[0] in y;
    ParagraphSurvives(y, "");
    AppendEmpty("<p>" + y + "</p>");
    ParagraphSurvives(x, "<p>" + y + "</p>");
    TwoParagraphs(x, y);
  }

  lemma TwoParagraphs(x: string, y: string)
    ensures "<p>" + (x + "</p><p>" + y) + "</p>" == "<p>" + x + "</p>" + ("<p>" + y + "</p>")
    ensures "<p>" + x + "</p><p>" + y + "</p>" == "<p>" + x + "</p>" + ("<p>" + y + "</p>")
  {
  }
}
