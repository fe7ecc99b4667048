/**
 * The Ask AI chat page: the conversation it keeps (the messages, the
 * input box and the loading flag), the send handler that moves it from
 * one state to the next, and the lighter markdown formatter that renders
 * the assistant's answers.
 */
module AskPage {
  import opened Text
  import opened Wrappers
  import opened Rewrite

  // ---------------------------------------------------------------------
  // The chat formatter
  // ---------------------------------------------------------------------

  /** The classes shared by both chat headings. The tag strings are put
      together from short pieces so that each piece's characters can be
      checked on its own. */
  const HeadingStyle := " font-semibold" + " text-indigo-200" + " mt-3 mb-1"
  const ChatH3Open := "<h3 class=\"text-base" + HeadingStyle + "\">"
  const ChatH2Open := "<h2 class=\"text-lg" + HeadingStyle + "\">"
  const ChatCodeOpen := "<code class=\"bg-slate-700/50" + " px-1 rounded" + " text-indigo-300\">"
  const ChatItemOpen := "<li class=\"ml-4\">"
  const ChatH3Rule := Prefix("### ", ChatH3Open, "</h3>")
  const ChatH2Rule := Prefix("## ", ChatH2Open, "</h2>")
  const ChatBulletRule := Prefix("- ", ChatItemOpen, "</li>")
  const ChatOrdinalRule := Numbered(ChatItemOpen, "</li>")

  /** Third- and second-level headings; there is no first-level rule. */
  function ChatHeadings(text: string): string {
    MapLines(MapLines(text, ChatH3Rule), ChatH2Rule)
  }

  /** Bold, then italic, then inline code with its own classes. */
  function ChatEmphasis(s: string): string {
    ReplaceSpans(
      ReplaceSpans(ReplaceSpans(s, "**", "<strong>", "</strong>"), "*", "<em>", "</em>"),
      "`", ChatCodeOpen, "</code>")
  }

  /** Bullet and numbered lines become items; no list is wrapped round them. */
  function ChatListItems(s: string): string {
    MapLines(MapLines(s, ChatBulletRule), ChatOrdinalRule)
  }

  /** Blank lines become two breaks, the remaining newlines one. */
  function LineBreaks(s: string): string {
    ReplaceAll(ReplaceAll(s, "\n\n", "<br/><br/>"), "\n", "<br/>")
  }

  /** The stages after the headings. */
  function ChatAfterHeadings(s: string): string {
    LineBreaks(ChatListItems(ChatEmphasis(s)))
  }

  /** `formatSimpleMarkdown(text)`. */
  function FormatSimpleMarkdown(text: string): string {
    ChatAfterHeadings(ChatHeadings(text))
  }

  /** The rendered answer is one line: every `\n` became a break. */
  lemma ChatNoNewline(text: string)
    ensures '\n' !in FormatSimpleMarkdown(text)
  {
    LineBreaksOneLine(ChatListItems(ChatEmphasis(ChatHeadings(text))));
  }

  lemma LineBreaksOneLine(s: string)
    ensures '\n' !in LineBreaks(s)
  {
    ReplaceAllRemoves(ReplaceAll(s, "\n\n", "<br/><br/>"), '\n', "<br/>");
  }

  // The tags the chat formatter writes are plain.

  lemma HeadingStylePlain()
    ensures Plain(HeadingStyle)
  {
    StylePieceA();
    StylePieceB();
    StylePieceC();
    PlainConcat(" font-semibold", " text-indigo-200");
    PlainConcat(" font-semibold" + " text-indigo-200", " mt-3 mb-1");
  }

  lemma StylePieceA()
    ensures Plain(" font-semibold")
  {
  }

  lemma StylePieceB()
    ensures Plain(" text-indigo-200")
  {
  }

  lemma StylePieceC()
    ensures Plain(" mt-3 mb-1")
  {
  }

  lemma ChatHeadingTags()
    ensures Plain(ChatH3Open) && ChatH3Open[0] == '<'
    ensures Plain(ChatH2Open) && ChatH2Open[0] == '<'
    ensures Plain("</h3>") && Plain("</h2>")
  {
    HeadingStylePlain();
    H3Start();
    H2Start();
    QuoteEnd();
    PlainConcat("<h3 class=\"text-base", HeadingStyle);
    PlainConcat("<h3 class=\"text-base" + HeadingStyle, "\">");
    PlainConcat("<h2 class=\"text-lg", HeadingStyle);
    PlainConcat("<h2 class=\"text-lg" + HeadingStyle, "\">");
  }

  lemma H3Start()
    ensures Plain("<h3 class=\"text-base") && "<h3 class=\"text-base"[0] == '<'
  {
  }

  lemma H2Start()
    ensures Plain("<h2 class=\"text-lg") && "<h2 class=\"text-lg"[0] == '<'
  {
  }

  lemma QuoteEnd()
    ensures Plain("\">") && Plain("</h3>") && Plain("</h2>")
  {
  }

  lemma ChatCodeTags()
    ensures Plain(ChatCodeOpen) && Plain("</code>")
  {
    CodeStart();
    CodeEnd();
    PlainConcat("<code class=\"bg-slate-700/50", " px-1 rounded");
    PlainConcat("<code class=\"bg-slate-700/50" + " px-1 rounded", " text-indigo-300\">");
  }

  lemma CodeStart()
    ensures Plain("<code class=\"bg-slate-700/50") && Plain(" px-1 rounded")
  {
  }

  lemma CodeEnd()
    ensures Plain(" text-indigo-300\">") && Plain("</code>")
  {
  }

  lemma ChatInlineTags()
    ensures Plain("<strong>") && Plain("</strong>") && Plain("<em>") && Plain("</em>")
  {
  }

  lemma ChatItemTags()
    ensures Plain(ChatItemOpen) && ChatItemOpen[0] == '<' && Plain("</li>")
  {
  }

  lemma BreakTags()
    ensures '\n' !in "<br/>" && '\n' !in "<br/><br/>"
  {
  }

  // ---------------------------------------------------------------------
  // Stage by stage
  // ---------------------------------------------------------------------

  /** A line not starting with `#` is no heading. */
  lemma ChatHeadingsKeep(line: string)
    requires NoLineTerminator(line) && (line == [] || line[0] != '#')
    ensures ChatHeadings(line) == line
  {
    MapLinesOneLine(line, ChatH3Rule);
    MapLinesOneLine(line, ChatH2Rule);
  }

  lemma ChatEmphasisKeeps(s: string)
    requires '*' !in s && '`' !in s
    ensures ChatEmphasis(s) == s
  {
    SpansAbsent(s, "**", "<strong>", "</strong>");
    SpansAbsent(s, "*", "<em>", "</em>");
    SpansAbsent(s, "`", ChatCodeOpen, "</code>");
  }

  /** A line starting neither with `-` nor with a digit is no list item. */
  lemma ChatListItemsKeep(line: string)
    requires NoLineTerminator(line) && (line == [] || (line[0] != '-' && !IsDigit(line[0])))
    ensures ChatListItems(line) == line
  {
    MapLinesOneLine(line, ChatBulletRule);
    MapLinesOneLine(line, ChatOrdinalRule);
  }

  lemma LineBreaksKeep(s: string)
    requires '\n' !in s
    ensures LineBreaks(s) == s
  {
    ReplaceAllWithout(s, "\n\n", "<br/><br/>");
    ReplaceAllWithout(s, "\n", "<br/>");
  }

  /** A plain line starting with a tag passes the stages after the
      headings unchanged. */
  lemma TagLineSettles(h: string)
    requires Plain(h) && h != [] && h[0] == '<'
    ensures ChatAfterHeadings(h) == h
  {
    PlainChars(h);
    ChatEmphasisKeeps(h);
    ChatListItemsKeep(h);
    LineBreaksKeep(h);
  }

  /** The formatter's result through the result of its heading stage. */
  lemma ChatVia(text: string, h: string, out: string)
    requires ChatHeadings(text) == h && ChatAfterHeadings(h) == out
    ensures FormatSimpleMarkdown(text) == out
  {
  }

  /** The stages after the headings through the results of the emphasis
      and list-item stages. */
  lemma ChatStagesVia(s: string, e: string, l: string, out: string)
    requires ChatEmphasis(s) == e && ChatListItems(e) == l && LineBreaks(l) == out
    ensures ChatAfterHeadings(s) == out
  {
  }

  /** Inert text between two plain tags is a plain line. */
  lemma ChatTagged(open: string, x: string, close: string)
    requires Inert(x) && Plain(open) && Plain(close)
    ensures Plain(open + x + close)
  {
    InertPlain(x);
    PlainConcat(open, x);
    PlainConcat(open + x, close);
  }

  // ---------------------------------------------------------------------
  // Small documents
  // ---------------------------------------------------------------------

  /** `### x` becomes a third-level heading with the chat classes. */
  lemma ChatHeading3(x: string)
    requires Inert(x)
    ensures FormatSimpleMarkdown("### " + x) == ChatH3Open + x + "</h3>"
  {
    ChatHeadingTags();
    ChatTagged(ChatH3Open, x, "</h3>");
    PlainChars(ChatH3Open + x + "</h3>");
    assert (ChatH3Open + x + "</h3>")[0] == ChatH3Open[0];
    NoLineTerminatorConcat("### ", x);
    MapLinesOneLine("### " + x, ChatH3Rule);
    PrefixApplies("### ", ChatH3Open, "</h3>", x);
    MapLinesOneLine(ChatH3Open + x + "</h3>", ChatH2Rule);
    PrefixMisses("## ", ChatH2Open, "</h2>", ChatH3Open + x + "</h3>", 0);
    TagLineSettles(ChatH3Open + x + "</h3>");
    ChatVia("### " + x, ChatH3Open + x + "</h3>", ChatH3Open + x + "</h3>");
  }

  /** `## x` becomes a second-level heading with the chat classes. */
  lemma ChatHeading2(x: string)
    requires Inert(x)
    ensures FormatSimpleMarkdown("## " + x) == ChatH2Open + x + "</h2>"
  {
    ChatHeadingTags();
    ChatTagged(ChatH2Open, x, "</h2>");
    PlainChars(ChatH2Open + x + "</h2>");
    assert (ChatH2Open + x + "</h2>")[0] == ChatH2Open[0];
    NoLineTerminatorConcat("## ", x);
    MapLinesOneLine("## " + x, ChatH3Rule);
    assert ("## " + x)[2] == ' ';
    PrefixMisses("### ", ChatH3Open, "</h3>", "## " + x, 2);
    MapLinesOneLine("## " + x, ChatH2Rule);
    PrefixApplies("## ", ChatH2Open, "</h2>", x);
    TagLineSettles(ChatH2Open + x + "</h2>");
    ChatVia("## " + x, ChatH2Open + x + "</h2>", ChatH2Open + x + "</h2>");
  }

  /** Unlike the insight formatter, the chat formatter has no first-level
      heading: `# x` is shown as written. */
  lemma ChatHeading1Kept(x: string)
    requires Inert(x)
    ensures FormatSimpleMarkdown("# " + x) == "# " + x
  {
    InertPlain(x);
    PlainConcat("# ", x);
    PlainChars("# " + x);
    assert ("# " + x)[1] == ' ';
    MapLinesOneLine("# " + x, ChatH3Rule);
    PrefixMisses("### ", ChatH3Open, "</h3>", "# " + x, 1);
    MapLinesOneLine("# " + x, ChatH2Rule);
    PrefixMisses("## ", ChatH2Open, "</h2>", "# " + x, 1);
    ChatEmphasisKeeps("# " + x);
    ChatListItemsKeep("# " + x);
    LineBreaksKeep("# " + x);
    ChatStagesVia("# " + x, "# " + x, "# " + x, "# " + x);
    ChatVia("# " + x, "# " + x, "# " + x);
  }

  /** `**x**` becomes strong text, not wrapped in a paragraph. */
  lemma ChatBold(x: string)
    requires Inert(x)
    ensures FormatSimpleMarkdown("**" + x + "**") == "<strong>" + x + "</strong>"
  {
    ChatInlineTags();
    ChatTagged("<strong>", x, "</strong>");
    PlainChars("<strong>" + x + "</strong>");
    InlineChatLine("**", x, "**");
    SpanWhole(x, "**", "<strong>", "</strong>");
    SpansAbsent("<strong>" + x + "</strong>", "*", "<em>", "</em>");
    SpansAbsent("<strong>" + x + "</strong>", "`", ChatCodeOpen, "</code>");
    assert ("<strong>" + x + "</strong>")[0] == '<';
    InlineSettles("**" + x + "**", "<strong>" + x + "</strong>");
  }

  /** `` `x` `` becomes code with the chat classes. */
  lemma ChatCode(x: string)
    requires Inert(x)
    ensures FormatSimpleMarkdown("`" + x + "`") == ChatCodeOpen + x + "</code>"
  {
    ChatCodeTags();
    ChatTagged(ChatCodeOpen, x, "</code>");
    PlainChars(ChatCodeOpen + x + "</code>");
    InlineChatLine("`", x, "`");
    InertPlain(x);
    PlainChars(x);
    SpansAbsent("`" + x + "`", "**", "<strong>", "</strong>");
    SpansAbsent("`" + x + "`", "*", "<em>", "</em>");
    SpanWhole(x, "`", ChatCodeOpen, "</code>");
    assert (ChatCodeOpen + x + "</code>")[0] == ChatCodeOpen[0] == '<';
    InlineSettles("`" + x + "`", ChatCodeOpen + x + "</code>");
  }

  /** A line of inline markup is no heading. */
  lemma InlineChatLine(d: string, x: string, d': string)
    requires Inert(x) && NoLineTerminator(d) && NoLineTerminator(d') && d != [] && d[0] != '#'
    ensures ChatHeadings(d + x + d') == d + x + d'
  {
    NoLineTerminatorConcat(d, x);
    NoLineTerminatorConcat(d + x, d');
    ChatHeadingsKeep(d + x + d');
  }

  /** A heading-free line whose emphasis stage yields a plain tag line
      comes out as that tag line. */
  lemma InlineSettles(s: string, e: string)
    requires ChatHeadings(s) == s && ChatEmphasis(s) == e
    requires Plain(e) && e != [] && e[0] == '<'
    ensures FormatSimpleMarkdown(s) == e
  {
    PlainChars(e);
    ChatListItemsKeep(e);
    LineBreaksKeep(e);
    ChatStagesVia(s, e, e, e);
    ChatVia(s, s, e);
  }

  /** `- x` becomes a list item with the chat classes and no list around
      it. */
  lemma ChatBullet(x: string)
    requires Inert(x)
    ensures FormatSimpleMarkdown("- " + x) == ChatItemOpen + x + "</li>"
  {
    ChatItemTags();
    ChatTagged(ChatItemOpen, x, "</li>");
    PlainChars(ChatItemOpen + x + "</li>");
    InertPlain(x);
    PlainConcat("- ", x);
    PlainChars("- " + x);
    ChatHeadingsKeep("- " + x);
    ChatEmphasisKeeps("- " + x);
    MapLinesOneLine("- " + x, ChatBulletRule);
    PrefixApplies("- ", ChatItemOpen, "</li>", x);
    ChatItemKept(x);
    LineBreaksKeep(ChatItemOpen + x + "</li>");
    ChatStagesVia("- " + x, "- " + x, ChatItemOpen + x + "</li>", ChatItemOpen + x + "</li>");
    ChatVia("- " + x, "- " + x, ChatItemOpen + x + "</li>");
  }

  /** The numbered rule leaves a chat item alone. */
  lemma ChatItemKept(x: string)
    requires Inert(x) && Plain(ChatItemOpen + x + "</li>")
    requires ChatItemOpen[0] == '<'
    ensures MapLines(ChatItemOpen + x + "</li>", ChatOrdinalRule) == ChatItemOpen + x + "</li>"
  {
    PlainChars(ChatItemOpen + x + "</li>");
    MapLinesOneLine(ChatItemOpen + x + "</li>", ChatOrdinalRule);
    assert (ChatItemOpen + x + "</li>")[0] == '<';
    NumberedMisses(ChatItemOpen, "</li>", ChatItemOpen + x + "</li>");
  }

  /** `n. x` becomes a chat item too: the number is dropped. */
  lemma ChatNumbered(n: nat, x: string)
    requires Inert(x)
    ensures FormatSimpleMarkdown(NatToString(n) + ". " + x) == ChatItemOpen + x + "</li>"
  {
    var d := NatToString(n);
    ChatItemTags();
    ChatTagged(ChatItemOpen, x, "</li>");
    PlainChars(ChatItemOpen + x + "</li>");
    assert Plain(d) && Plain(". ");
    InertPlain(x);
    PlainConcat(d, ". ");
    PlainConcat(d + ". ", x);
    PlainChars(d + ". " + x);
    assert (d + ". " + x)[0] == d[0];
    ChatHeadingsKeep(d + ". " + x);
    ChatEmphasisKeeps(d + ". " + x);
    MapLinesOneLine(d + ". " + x, ChatBulletRule);
    PrefixMisses("- ", ChatItemOpen, "</li>", d + ". " + x, 0);
    MapLinesOneLine(d + ". " + x, ChatOrdinalRule);
    NumberedApplies(ChatItemOpen, "</li>", d, x);
    LineBreaksKeep(ChatItemOpen + x + "</li>");
    ChatStagesVia(d + ". " + x, d + ". " + x, ChatItemOpen + x + "</li>", ChatItemOpen + x + "</li>");
    ChatVia(d + ". " + x, d + ". " + x, ChatItemOpen + x + "</li>");
  }

  /** A blank line between two lines of prose becomes two breaks. */
  lemma ChatParagraphs(x: string, y: string)
    requires Prose(x) && Prose(y)
    ensures FormatSimpleMarkdown(x + "\n\n" + y) == x + "<br/><br/>" + y
  {
    ChatProseKept(x, y);
    BlankLineBreaks(x, y);
    ChatStagesVia(x + "\n\n" + y, x + "\n\n" + y, x + "\n\n" + y, x + "<br/><br/>" + y);
    ChatVia(x + "\n\n" + y, x + "\n\n" + y, x + "<br/><br/>" + y);
  }

  /** The break stage turns the blank line between two prose lines into
      two breaks. */
  lemma BlankLineBreaks(x: string, y: string)
    requires NoLineTerminator(x) && NoLineTerminator(y)
    ensures LineBreaks(x + "\n\n" + y) == x + "<br/><br/>" + y
  {
    ReplaceBlankLine(x, y, "<br/><br/>");
    BreaksPlain(x, "<br/><br/>", y);
    ReplaceAllWithout(x + "<br/><br/>" + y, "\n", "<br/>");
  }

  /** No heading, emphasis or item rule applies to two prose lines. */
  lemma ChatProseKept(x: string, y: string)
    requires Prose(x) && Prose(y)
    ensures ChatHeadings(x + "\n\n" + y) == x + "\n\n" + y
    ensures ChatEmphasis(x + "\n\n" + y) == x + "\n\n" + y
    ensures ChatListItems(x + "\n\n" + y) == x + "\n\n" + y
  {
    PrefixMisses("### ", ChatH3Open, "</h3>", x, 0);
    PrefixMisses("### ", ChatH3Open, "</h3>", y, 0);
    TwoLinesKeep(x, y, ChatH3Rule);
    PrefixMisses("## ", ChatH2Open, "</h2>", x, 0);
    PrefixMisses("## ", ChatH2Open, "</h2>", y, 0);
    TwoLinesKeep(x, y, ChatH2Rule);
    ChatEmphasisKeeps(x + "\n\n" + y);
    PrefixMisses("- ", ChatItemOpen, "</li>", x, 0);
    PrefixMisses("- ", ChatItemOpen, "</li>", y, 0);
    TwoLinesKeep(x, y, ChatBulletRule);
    NumberedMisses(ChatItemOpen, "</li>", x);
    NumberedMisses(ChatItemOpen, "</li>", y);
    TwoLinesKeep(x, y, ChatOrdinalRule);
  }

  /** Two lines around a break hold no newline. */
  lemma BreaksPlain(x: string, br: string, y: string)
    requires NoLineTerminator(x) && NoLineTerminator(y) && '\n' !in br
    ensures '\n' !in x + br + y
  {
    assert '\n' !in x by {
      forall i | 0 <= i < |x| ensures x[i] != '\n' { assert !IsLineTerminator(x[i]); }
    }
    assert '\n' !in y by {
      forall i | 0 <= i < |y| ensures y[i] != '\n' { assert !IsLineTerminator(y[i]); }
    }
  }

  /** A single newline between two lines of prose becomes one break. */
  lemma ChatLineBreak(x: string, y: string)
    requires Prose(x) && Prose(y)
    ensures FormatSimpleMarkdown(x + "\n" + y) == x + "<br/>" + y
  {
    ChatOneNewlineKept(x, y);
    SingleNewline(x, y);
    ChatStagesVia(x + "\n" + y, x + "\n" + y, x + "\n" + y, x + "<br/>" + y);
    ChatVia(x + "\n" + y, x + "\n" + y, x + "<br/>" + y);
  }

  /** No heading, emphasis or item rule applies to two adjacent prose
      lines. */
  lemma ChatOneNewlineKept(x: string, y: string)
    requires Prose(x) && Prose(y)
    ensures ChatHeadings(x + "\n" + y) == x + "\n" + y
    ensures ChatEmphasis(x + "\n" + y) == x + "\n" + y
    ensures ChatListItems(x + "\n" + y) == x + "\n" + y
  {
    NewlineStep(x, y, ChatH3Rule);
    MapLinesOneLine(y, ChatH3Rule);
    PrefixMisses("### ", ChatH3Open, "</h3>", x, 0);
    PrefixMisses("### ", ChatH3Open, "</h3>", y, 0);
    NewlineStep(x, y, ChatH2Rule);
    MapLinesOneLine(y, ChatH2Rule);
    PrefixMisses("## ", ChatH2Open, "</h2>", x, 0);
    PrefixMisses("## ", ChatH2Open, "</h2>", y, 0);
    ChatEmphasisKeeps(x + "\n" + y);
    NewlineStep(x, y, ChatBulletRule);
    MapLinesOneLine(y, ChatBulletRule);
    PrefixMisses("- ", ChatItemOpen, "</li>", x, 0);
    PrefixMisses("- ", ChatItemOpen, "</li>", y, 0);
    NewlineStep(x, y, ChatOrdinalRule);
    MapLinesOneLine(y, ChatOrdinalRule);
    NumberedMisses(ChatItemOpen, "</li>", x);
    NumberedMisses(ChatItemOpen, "</li>", y);
  }

  /** A lone newline is no blank line, and becomes one break. */
  lemma SingleNewline(x: string, y: string)
    requires Prose(x) && Prose(y)
    ensures LineBreaks(x + "\n" + y) == x + "<br/>" + y
  {
    InertPlain(x);
    InertPlain(y);
    PlainChars(x);
    PlainChars(y);
    AppendAssoc(x, "\n", y);
    ReplaceAllSkip(x, "\n" + y, "\n\n", "<br/><br/>");
    assert ("\n" + y)[1] == y[0] != '\n';
    ReplaceAllCopy("\n" + y, "\n\n", "<br/><br/>", y);
    ReplaceAllWithout(y, "\n\n", "<br/><br/>");
    assert x + ("\n" + y) == x + "\n" + y;
    ReplaceAllSkip(x, "\n" + y, "\n", "<br/>");
    ReplaceAllAt("\n" + y, "\n", "<br/>", y);
    ReplaceAllWithout(y, "\n", "<br/>");
    AppendAssoc(x, "<br/>", y);
  }

  // ---------------------------------------------------------------------
  // The conversation
  // ---------------------------------------------------------------------

  datatype Role = User | Assistant

  datatype Message = Message(role: Role, content: string)

  /** The assistant's message when the question could not be answered. */
  const Fallback := "Sorry, I couldn't process that question. Please try again."

  /** The buttons offered while the conversation is empty. */
  const SuggestedQuestions: seq<string> := [
    "What's our biggest weakness against ZetaFlow?",
    "Which industries should we stop pursuing?",
    "What's our ideal deal size and why?",
    "How can we improve our outbound win rate?",
    "What objections do we handle worst?",
    "Which buyer persona converts best?"
  ]

  /** The question `handleSend` asks: the argument if it is a non-empty
      string, otherwise the input box without surrounding white space. */
  function Question(question: Option<string>, input: string): (q: string)
    ensures q == [] <==>
      (question.None? || question.value == []) && forall i :: 0 <= i < |input| ==> IsJsWhitespace(input[i])
    ensures question.Some? && question.value != [] ==> q == question.value
    ensures (question.None? || question.value == []) ==> exists i, j ::
      && 0 <= i <= j <= |input| && q == input[i..j]
      && (forall k :: 0 <= k < i ==> IsJsWhitespace(input[k]))
      && (forall k :: j <= k < |input| ==> IsJsWhitespace(input[k]))
    ensures q != [] && (question.None? || question.value == []) ==>
      !IsJsWhitespace(q[0]) && !IsJsWhitespace(q[|q| - 1])
  {
    TrimEmpty(input);
    TrimCuts(input);
    if question.Some? && question.value != [] then question.value else Trim(input)
  }

  /** The question that gets sent, if `handleSend` goes ahead: it returns
      early on an empty question and while an answer is pending. */
  function Accepted(question: Option<string>, input: string, isLoading: bool): (r: Option<string>)
    ensures r.Some? <==> !isLoading && Question(question, input) != []
    ensures r.Some? ==> r.value == Question(question, input) && r.value != []
  {
    var q := Question(question, input);
    if q == [] || isLoading then None else Some(q)
  }

  /** Each suggested question is sent as written whenever no answer is
      pending, whatever the input box holds. */
  lemma SuggestionSent(i: nat, input: string)
    requires i < |SuggestedQuestions|
    ensures Accepted(Some(SuggestedQuestions[i]), input, false) == Some(SuggestedQuestions[i])
  {
    assert |SuggestedQuestions[i]| > 0;
  }

  /** How one message is shown: the user's on the right as text, the
      assistant's on the left as formatted HTML. */
  datatype Bubble = Bubble(alignEnd: bool, text: Option<string>, html: Option<string>)

  function BubbleOf(m: Message): (b: Bubble)
    ensures b.alignEnd <==> m.role == User
    ensures b.text.Some? <==> m.role == User
    ensures b.html.Some? <==> m.role == Assistant
    ensures b.text.Some? ==> b.text.value == m.content
    ensures b.html.Some? ==> b.html.value == FormatSimpleMarkdown(m.content) && '\n' !in b.html.value
  {
    ChatNoNewline(m.content);
    match m.role
    case User => Bubble(true, Some(m.content), None)
    case Assistant => Bubble(false, None, Some(FormatSimpleMarkdown(m.content)))
  }

  /** What the page shows. */
  datatype ChatView = ChatView(
    suggestions: seq<string>, bubbles: seq<Bubble>, typing: bool,
    inputEnabled: bool, sendEnabled: bool)

  /** The chat page's state: the messages so far, the input box and
      whether an answer is pending. */
  class Conversation {
    var messages: seq<Message>
    var input: string
    var isLoading: bool

    /** Messages alternate, starting with the user's, and an answer is
        pending exactly when the last message is a question. */
    predicate Valid()
      reads this
    {
      (forall i :: 0 <= i < |messages| ==> messages[i].role == (if i % 2 == 0 then User else Assistant))
      && (isLoading <==> |messages| % 2 == 1)
    }

    constructor()
      ensures messages == [] && input == [] && !isLoading
      ensures Valid()
    {
      messages := [];
      input := [];
      isLoading := false;
    }

    /** Typing into the box; the box is disabled while an answer is
        pending. */
    method Type(text: string)
      modifies this
      ensures input == (if old(isLoading) then old(input) else text)
      ensures messages == old(messages) && isLoading == old(isLoading)
    {
      if !isLoading {
        input := text;
      }
    }

    /** The synchronous half of `handleSend`: either nothing happens, or
        the input box is cleared, the question is appended and the answer
        becomes pending. */
    method Send(question: Option<string>) returns (sent: Option<string>)
      requires Valid()
      modifies this
      ensures Valid()
      ensures sent == Accepted(question, old(input), old(isLoading))
      ensures sent.None? ==> messages == old(messages) && input == old(input) && isLoading == old(isLoading)
      ensures sent.Some? ==> messages == old(messages) + [Message(User, sent.value)] && input == [] && isLoading
    {
      sent := Accepted(question, input, isLoading);
      if sent.Some? {
        input := [];
        messages := messages + [Message(User, sent.value)];
        isLoading := true;
      }
    }

    /** The rest of `handleSend`, once `askAI` settles: `Some(answer)` when
        it answered, `None` when it failed.  The answer or the apology is
        appended and nothing is pending any more. */
    method Settle(reply: Option<string>)
      requires Valid() && isLoading
      modifies this
      ensures Valid()
      ensures messages == old(messages) + [Message(Assistant, reply.GetOr(Fallback))]
      ensures input == old(input) && !isLoading
    {
      messages := messages + [Message(Assistant, reply.GetOr(Fallback))];
      isLoading := false;
    }

    /** A whole `handleSend` whose request settles with `reply`: either
        nothing changes, or one question and its answer are appended. */
    method HandleSend(question: Option<string>, reply: Option<string>) returns (sent: Option<string>)
      requires Valid()
      modifies this
      ensures Valid() && isLoading == old(isLoading)
      ensures sent == Accepted(question, old(input), old(isLoading))
      ensures sent.None? ==> messages == old(messages) && input == old(input)
      ensures sent.Some? ==>
        messages == old(messages) + [Message(User, sent.value), Message(Assistant, reply.GetOr(Fallback))]
        && input == []
    {
      sent := Send(question);
      if sent.Some? {
        Settle(reply);
      }
    }

    /** The page for the current state. */
    function View(): (v: ChatView)
      reads this
      ensures v.suggestions == (if messages == [] then SuggestedQuestions else [])
      ensures |v.bubbles| == |messages|
      ensures forall i :: 0 <= i < |messages| ==> v.bubbles[i] == BubbleOf(messages[i])
      ensures v.typing <==> isLoading
      ensures v.inputEnabled <==> !isLoading
      ensures v.sendEnabled <==> Accepted(None, input, isLoading).Some?
    {
      TrimEmpty(input);
      ChatView(
        if messages == [] then SuggestedQuestions else [],
        seq(|messages|, i requires 0 <= i < |messages| reads this => BubbleOf(messages[i])),
        isLoading,
        !isLoading,
        !(isLoading || Trim(input) == []))
    }
  }
}
