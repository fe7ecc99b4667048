# Win/loss dashboard front end: a Dafny model of its logic

The dashboard is a browser application that shows CRM deal analytics
(wins, losses, competitors, objections, call transcripts) fetched from a
back-end API, and overlays AI-written narrative on the same data. Most of
it is presentation. This project models the parts that carry logic:

- **The markdown-lite renderers.** `formatMarkdown` renders AI insight
  panels. `formatSimpleMarkdown` renders chat answers. Each is a fixed
  chain of regular-expression rewrites. Here each rewrite is a line-level or
  inline function, applied in the code's order (`Rewrite`, `InsightBox`,
  `AskPage`). The line-level rules follow JavaScript's `^`/`$` in
  multi-line mode, which split at every line terminator. The inline rules
  follow the non-greedy `.*?`, which closes a span at the first closing
  delimiter on the same line.
- **The REST client and the data hooks** (`Api`, `Hooks`). A request URL is
  the fixed base followed by a path. Query strings are built one `set` call
  at a time on a model of `URLSearchParams`. A response that is not ok
  becomes one uniform error. Each hook is the key and options it hands to
  the caching library.
- **Small state machines.** These are the Ask-AI conversation, the
  sidebar's loading path, the competitor selection, the transcripts page's
  deal picker, the win/loss page's dimension and stage filter, and the
  expand/collapse toggles. Each is a class whose methods update its fields.
- **The views' aggregation and classification.** This covers loss-reason
  counting and the top six, the threat and heat thresholds, the sorted
  copy of the breakdown table, the 50-row cut, the top three industries
  with a `+N` count, colour cycling, and `m:ss` durations.

The network is a parameter: a `Response` value (ok flag, status, status
text, parsed body) stands for what `fetch` returned. The chat's `askAI`
call is its outcome: an answer, or `None` for a rejection. Win rates and
amounts are `real`, because the views only compare and subtract them.

Three behaviours one might expect that the code does not have, and the
model follows the code in each:

- Query keys are not sorted into a canonical order. The code sets
  parameters in the fixed order stage, industry, source (and
  participant_email, contact_id, limit), and the model keeps that order.
- Not every header row followed by a separator row becomes a table.
  `Header1|Header2\n---|---\nA|B` stays literal text, because the code's
  pattern needs each table line to start and end with `|`.
- The API client does not tell transport failures apart from status
  failures. `fetchAPI` only checks `res.ok`; anything `fetch` itself
  throws propagates unchanged.

## Model

| member | source | states |
|---|---|---|
| `InsightBox.InsightPanel.constructor` | src/components/AIInsightBox.tsx:18-20 | The panel starts expanded exactly when `defaultExpanded` is given as true; it defaults to false. |
| `InsightBox.InsightPanel.Toggle` | src/components/AIInsightBox.tsx:25 | A header click flips `expanded`. |
| `InsightBox.InsightPanel.View` | src/components/AIInsightBox.tsx:32-82 | The body is present iff expanded. Loading bars show iff loading. The error line shows iff there is an error. Rendered HTML shows iff content is non-empty and nothing is loading, and it equals `formatMarkdown(content)`. |
| `InsightBox.SkeletonWidths` | src/components/AIInsightBox.tsx:53-58 | Four loading bars, 85% wide first, each 15 points narrower than the one before, all within 0-100%. |
| `InsightBox.FormatEmpty` | src/components/AIInsightBox.tsx:121-123 | The empty text renders as the empty string: no stray paragraph survives. |
| `InsightBox.FormatProse` | src/components/AIInsightBox.tsx:122 | A line with no markdown, `x`, renders as exactly `<p>x</p>`. |
| `InsightBox.FormatHeading3` | src/components/AIInsightBox.tsx:89 | `### x` renders as `<h3 class="text-base">x</h3>`, marker removed, no paragraph around it. |
| `InsightBox.FormatHeading2` | src/components/AIInsightBox.tsx:90 | `## x` renders as `<h2 class="text-lg">x</h2>`; the `###` rule does not touch it. |
| `InsightBox.FormatHeading1` | src/components/AIInsightBox.tsx:91 | `# x` renders as `<h1 class="text-xl">x</h1>`. |
| `InsightBox.FormatBold` | src/components/AIInsightBox.tsx:92 | `**x**` renders as `<p><strong>x</strong></p>`: bold is taken before italics, so no `<em>` is nested inside. |
| `InsightBox.ItalicNotBold` | src/components/AIInsightBox.tsx:92-93 | The bold rule leaves a single-asterisk span `*x*` untouched, so only the italic rule rewrites it. |
| `InsightBox.FormatItalic` | src/components/AIInsightBox.tsx:93 | `*x*` (x non-empty) renders as `<p><em>x</em></p>`. |
| `InsightBox.FormatCode` | src/components/AIInsightBox.tsx:94 | `` `x` `` renders as `<p><code>x</code></p>`. |
| `InsightBox.FormatBullet` | src/components/AIInsightBox.tsx:95-97 | `- x` renders as one `<li>x</li>` inside one `<ul ...>`, marker dropped, no paragraph. |
| `InsightBox.FormatNumbered` | src/components/AIInsightBox.tsx:96-97 | `N. x` for any number N renders as one `<li>x</li>` inside one `<ul ...>`, ordinal dropped. |
| `InsightBox.ListBlock` | src/components/AIInsightBox.tsx:97-123 | A wrapped list passes through the table and paragraph stages unchanged: the paragraph rule does not wrap a line starting with `<u`. |
| `InsightBox.FormatParagraphs` | src/components/AIInsightBox.tsx:121-123 | Two plain lines separated by a blank line render as `<p>x</p><p>y</p>`. |
| `Rewrite.PrefixApplies` | src/components/AIInsightBox.tsx:89-95 | A line starting with a rule's marker becomes the opening tag, the rest of the line, and the closing tag. |
| `Rewrite.PrefixMisses` | src/components/AIInsightBox.tsx:89-95 | A line that differs from the marker at some position is left as it is. |
| `Rewrite.NumberedApplies` | src/components/AIInsightBox.tsx:96 | A line of one or more digits, `. ` and x becomes an item holding exactly x. |
| `Rewrite.NumberedMisses` | src/components/AIInsightBox.tsx:96 | A line that does not start with a digit is left as it is. |
| `Rewrite.DigitRun` | src/components/AIInsightBox.tsx:96 | `\d+` takes the longest run of leading digits: all of them are digits and the next character is not. |
| `Rewrite.MapLinesJoin` | src/components/AIInsightBox.tsx:89 | A multi-line `^...$` rule rewrites every line on its own and keeps the line breaks: mapping the joined lines is joining the mapped lines. |
| `Rewrite.ApplyEach` | src/components/AIInsightBox.tsx:89-96 | Each line's result is the rule applied to that line; the number of lines is unchanged. |
| `Rewrite.FindCloseFound` | src/components/AIInsightBox.tsx:92-94 | The closing delimiter found for a span occurs there and lies on the span's own line. |
| `Rewrite.FindCloseFirst` | src/components/AIInsightBox.tsx:92-94 | Non-greedy matching: the closing delimiter chosen is the first one. When none is found, none occurs before the end of the line. |
| `Rewrite.SpanCloses` | src/components/AIInsightBox.tsx:92-94 | `d x d y` becomes open-tag, x, close-tag, then the rest rewritten. The span ends at the first delimiter. |
| `Rewrite.SpansAbsent` | src/components/AIInsightBox.tsx:92-94 | Text without the delimiter's first character is unchanged. |
| `Rewrite.WrapSingleItem` | src/components/AIInsightBox.tsx:97 | One `<li>` line is wrapped in exactly one `<ul ...>`. |
| `Rewrite.ListRunWrapped` | src/components/AIInsightBox.tsx:97 | A maximal run of consecutive `<li>` lines is wrapped in exactly one `<ul ...>...</ul>`, and scanning resumes after it. |
| `Rewrite.WrapListsAbsent` | src/components/AIInsightBox.tsx:97 | Text with no `<li>` is unchanged by list wrapping. |
| `Rewrite.TableRendered` | src/components/AIInsightBox.tsx:98-120 | A `|header|` line, a separator line of `-`, `|` and spaces, and `|row|` lines become one table. It has a `<th>` per non-empty header fragment, trimmed, and a `<tr>` of trimmed `<td>` cells per row. The text after it is scanned again. |
| `Rewrite.FramedRows` | src/components/AIInsightBox.tsx:106-117 | The table body, trimmed and split at newlines, gives exactly one `<tr>` per row line, with that row's cells. |
| `Rewrite.CellsConcat` | src/components/AIInsightBox.tsx:101-105 | The cells of concatenated fragment lists are the cells of each list in turn; empty fragments make no cell. |
| `Rewrite.TablesAbsent` | src/components/AIInsightBox.tsx:99 | Without a separator line after a line break, no table is produced and the text passes through unchanged. |
| `Rewrite.TablesWithoutPipe` | src/components/AIInsightBox.tsx:99 | Text without `|` passes through the table stage unchanged. |
| `AskPage.ChatHeading3` | src/app/ask/page.tsx:150 | `### x` renders as the chat's `<h3 ...>x</h3>`. |
| `AskPage.ChatHeading2` | src/app/ask/page.tsx:151 | `## x` renders as the chat's `<h2 ...>x</h2>`. |
| `AskPage.ChatHeading1Kept` | src/app/ask/page.tsx:150-151 | There is no `# ` rule: `# x` is returned literally. |
| `AskPage.ChatBold` | src/app/ask/page.tsx:152-153 | `**x**` renders as `<strong>x</strong>`. |
| `AskPage.ChatCode` | src/app/ask/page.tsx:154 | `` `x` `` renders as the chat's `<code ...>x</code>`. |
| `AskPage.ChatBullet` | src/app/ask/page.tsx:155 | `- x` renders as `<li class="ml-4">x</li>` with no `<ul>` around it. |
| `AskPage.ChatNumbered` | src/app/ask/page.tsx:156 | `N. x` renders as `<li class="ml-4">x</li>` with no `<ul>`. |
| `AskPage.ChatParagraphs` | src/app/ask/page.tsx:157 | Two plain lines separated by a blank line render as `x<br/><br/>y`. |
| `AskPage.ChatLineBreak` | src/app/ask/page.tsx:158 | Two plain lines separated by one newline render as `x<br/>y`. |
| `AskPage.ChatNoNewline` | src/app/ask/page.tsx:157-158 | The chat output never contains a newline character. |
| `AskPage.Question` | src/app/ask/page.tsx:27 | The question is the argument when it is non-empty, otherwise a cut of the input with only white space outside it and none at either end, which is `input.trim()`. It is empty exactly when there is no argument and the input is all white space. |
| `AskPage.Accepted` | src/app/ask/page.tsx:27-28 | A send goes ahead iff the question is non-empty and no answer is pending, and it sends that question. |
| `AskPage.SuggestionSent` | src/app/ask/page.tsx:7-28 | A suggested question is sent exactly as written whenever nothing is pending, whatever the input holds. |
| `AskPage.BubbleOf` | src/app/ask/page.tsx:82-101 | A user message is right-aligned plain text. An assistant message is left-aligned, rendered by `formatSimpleMarkdown`, and free of newlines. |
| `AskPage.Conversation.constructor` | src/app/ask/page.tsx:17-19 | The conversation starts with no messages, an empty input and nothing loading. |
| `AskPage.Conversation.Type` | src/app/ask/page.tsx:126-133 | Typing replaces the input unless an answer is pending, when the box is disabled. |
| `AskPage.Conversation.Send` | src/app/ask/page.tsx:26-32 | A rejected send changes nothing. An accepted send clears the input, appends the user's message and sets loading. Messages keep alternating user and assistant. |
| `AskPage.Conversation.Settle` | src/app/ask/page.tsx:34-44 | Exactly one assistant message is appended: the answer on success, or the fixed apology on failure. Loading is then false. |
| `AskPage.Conversation.HandleSend` | src/app/ask/page.tsx:26-45 | A completed send either changes nothing or appends exactly the user's question and then one assistant reply. Earlier messages are kept and loading ends as it began. |
| `AskPage.Conversation.View` | src/app/ask/page.tsx:58-137 | Suggestions show iff there are no messages. There is one bubble per message. The typing indicator shows iff loading. The input is enabled iff not loading. Send is enabled iff a send would be accepted. |
| `Api.RequestFor` | src/lib/api.ts:1-7 | The URL is exactly the base followed by the path. With no options the headers are the JSON content type. A caller's `headers` replaces the default headers whole; the method and body are the caller's. |
| `Api.Outcome` | src/lib/api.ts:8-11 | An ok response yields its parsed body. Any other response yields the error `API error: <status> <statusText>`. |
| `Api.ErrorMessageInjective` | src/lib/api.ts:9 | Two failures with the same message had the same status and status text. |
| `Api.SetParam` | src/lib/api.ts:25-27 | `set` on a name not yet present appends the pair; the pair is always present afterwards. |
| `Api.WithoutKeeps` | src/lib/api.ts:25-27 | Dropping a name's pairs keeps exactly the pairs with other names. |
| `Api.SetParamReplaces` | src/lib/api.ts:25-27 | `set` on a name already present: the first pair with that name takes the new value in place, the pairs before it stay, and later pairs with that name are dropped. |
| `Api.SetParamOnce` | src/lib/api.ts:25-27 | After `set`, the name occurs once, with the new value. |
| `Api.Serialize` | src/lib/api.ts:28 | The query string is empty exactly when there are no parameters. |
| `Api.WithQuery` | src/lib/api.ts:29 | `?qs` is appended only when `qs` is non-empty. |
| `Api.DealParams` | src/lib/api.ts:23-27 | Only truthy fields become parameters, always in the order stage, industry, source. |
| `Api.GetDeals` | src/lib/api.ts:23-30 | Setting the parameters one at a time requests the base plus the deals path for the filter. |
| `Api.DealsUnfiltered` | src/lib/api.ts:23-30 | No filter, or one with every field absent or empty, requests exactly `/deals`. |
| `Api.DealsFullQuery` | src/lib/api.ts:25-29 | With all three fields set, the path is `/deals?stage=..&industry=..&source=..`. |
| `Api.DealsIgnoresEmpty` | src/lib/api.ts:25-27 | An empty field is treated as an absent one. |
| `Api.DealsStageDistinguishes` | src/lib/api.ts:25-29 | Filters that differ only in a non-empty stage request different paths. |
| `Api.RecentDealsPath` | src/lib/api.ts:32-33 | The path is `/deals/recent?limit=` followed by the limit. |
| `Api.RecentDealsDefault` | src/lib/api.ts:32-33 | With no argument the limit is 10: `/deals/recent?limit=10`. |
| `Api.GetAIInsight` | src/lib/api.ts:36-40 | The insight request is the base plus the insight path for the kind and parameters. |
| `Api.InsightPathShape` | src/lib/api.ts:36-40 | With no or empty parameters the path is exactly `/insights/<type>`. Otherwise it carries them after `?`. |
| `Api.AskRequest` | src/lib/api.ts:42-46 | `askAI(q)` is a POST to the base plus `/insights/ask` with the JSON content type. Its body reads back as the question q. |
| `Api.AskBodyReadsBack` | src/lib/api.ts:45 | The JSON body `{"question":"..."}` decodes back to the exact question. |
| `Api.UnescapeEscape` | src/lib/api.ts:45 | JSON string escaping is undone by unescaping, for every string. |
| `Hooks.TranscriptParams` | src/hooks/useAPI.ts:84-87 | Only a truthy e-mail, a truthy contact and a non-zero limit become parameters, in that order. |
| `Hooks.HookPath` | src/hooks/useAPI.ts:19-92 | A hook has no path, and so no fetch, exactly when it is a deal-transcripts or transcript hook whose id is null or empty. Each hook's path is given: `/analytics/overview`, `/analytics/breakdown/<dimension>`, `/analytics/competitors`, `/analytics/objections`, `/analytics/icp`, the deals, recent-deals and insight paths of the client, `/transcripts/deal/<id>`, `/transcripts/<id>`, and `/transcripts` with its query. |
| `Hooks.Call` | src/hooks/useAPI.ts:15-92 | Every key is the base followed by the hook's path, and null when there is no path. Only the insight hook passes `revalidateOnFocus: false`; the others leave the library default. |
| `Hooks.UseDeals` | src/hooks/useAPI.ts:42-53 | Building the query one `set` at a time gives the deals hook's key. |
| `Hooks.UseAIInsight` | src/hooks/useAPI.ts:59-67 | The insight hook's key, with revalidation on focus turned off. |
| `Hooks.UseTranscripts` | src/hooks/useAPI.ts:83-92 | Building the query one `set` at a time gives the transcripts hook's key. |
| `Hooks.HooksMatchClient` | src/hooks/useAPI.ts:15-20 | A hook's key is the same URL the REST client requests for that path. |
| `Hooks.RecentDealsDefaultKey` | src/hooks/useAPI.ts:55-57 | `useRecentDeals()` keys on `.../deals/recent?limit=10`. |
| `Hooks.DealTranscriptKeysDistinct` | src/hooks/useAPI.ts:69-74 | Different deal ids give different keys. |
| `Hooks.TranscriptKeysDistinct` | src/hooks/useAPI.ts:76-81 | Different transcript ids give different keys. |
| `Hooks.TranscriptsZeroLimit` | src/hooks/useAPI.ts:87 | A zero limit gives the same key as no limit. |
| `Hooks.TranscriptsFullQuery` | src/hooks/useAPI.ts:83-92 | With all three set, the parameters appear in the order participant_email, contact_id, limit. |
| `Hooks.HookFetcher` | src/hooks/useAPI.ts:17 | The hooks' fetcher returns the body whatever the status. |
| `Hooks.HookFetcherHidesErrors` | src/hooks/useAPI.ts:17 | A 500 response with a JSON body reaches the hook as data. The client's fetcher reports it as `API error: 500 Internal Server Error`. |
| `Hooks.ClientFetcher` | src/lib/api.ts:8-10 | The status check of `fetchAPI` alone succeeds exactly on ok responses, and its errors carry the `API error: ` prefix. |
| `Hooks.FetchersAgree` | src/hooks/useAPI.ts:17 | The two fetchers agree exactly on ok responses. |
| `Overview.Lost` | src/app/page.tsx:45 | The filter keeps exactly the deals that are `closedlost` with a non-empty loss reason, and no more than the lost deals. |
| `Overview.TallyLost` | src/app/page.tsx:45-49 | Counting a reason over the filtered deals gives the reference count of lost deals with that reason. |
| `Overview.CountReasons` | src/app/page.tsx:46-49 | The dictionary built one deal at a time holds every reason with a non-zero count, and each value is that count. The first-seen order lists each reason once. |
| `Overview.InsertDescSorted` | src/app/page.tsx:52 | Inserting into a list sorted largest first keeps it sorted. |
| `Overview.SortDesc` | src/app/page.tsx:52 | The sort is a permutation of its input. |
| `Overview.SortDescSorted` | src/app/page.tsx:52 | The sorted entries are non-increasing in value. |
| `Overview.SortDescDistinct` | src/app/page.tsx:51-52 | Sorting keeps the reason names distinct. |
| `Overview.SumTallies` | src/app/page.tsx:46-49 | Distinct reasons count disjoint sets of deals, so their counts add up to the deals with any of those reasons. |
| `Overview.SumBound` | src/app/page.tsx:45-49 | The slice values never add up to more than the lost deals in the input. |
| `Overview.TopSixComplete` | src/app/page.tsx:53 | A reason cut off by `slice(0, 6)` comes after six entries and counts no more than the sixth. |
| `Overview.LossReasons` | src/app/page.tsx:42-54 | With no data the result is empty. It has at most six entries, each a reason with its exact count. Names are distinct, values are non-increasing, and a reason left out counts no more than the smallest shown. The values add up to at most the lost deals. |
| `Overview.SliceColor` | src/app/page.tsx:25 | Slice i is coloured from the six-colour palette. |
| `Overview.SliceColorsDistinct` | src/app/page.tsx:162-163 | The at most six slices all get different colours. |
| `Overview.WinRateTrend` | src/app/page.tsx:82 | The win-rate trend is up iff the win rate is strictly above 45, down otherwise. |
| `Overview.TrendMonotone` | src/app/page.tsx:82 | A higher win rate never turns the arrow from up to down. |
| `Overview.RecentDealKeysDistinct` | src/app/page.tsx:38-41 | The 8-deal and 50-deal lists are cached under different keys. |
| `Competitors.HeatColor` | src/app/competitors/page.tsx:7-19 | For `win_rate`: emerald for at least 50, yellow for 35 up to 50, red below 35. For `deals_faced`: red for at least 35, yellow for 25 up to 35, slate below 25. Any other metric gets slate. |
| `Competitors.ThreatLevel` | src/app/competitors/page.tsx:21-25 | HIGH iff below 35, MEDIUM iff from 35 up to 50, LOW iff at least 50. |
| `Competitors.HeatMatchesThreat` | src/app/competitors/page.tsx:7-25 | The win-rate cell is emerald exactly at LOW threat, yellow at MEDIUM and red at HIGH. |
| `Competitors.ThreatMonotone` | src/app/competitors/page.tsx:21-25 | A higher win rate never raises the threat. |
| `Competitors.Clicked` | src/app/competitors/page.tsx:75-81 | Clicking the selected row clears the selection; clicking any other row selects it. |
| `Competitors.ClickTwice` | src/app/competitors/page.tsx:75-81 | Two clicks on a row restore the selection exactly when that row, or nothing, was selected. |
| `Competitors.Selection.constructor` | src/app/competitors/page.tsx:29 | Nothing is selected at first. |
| `Competitors.Selection.Click` | src/app/competitors/page.tsx:75-81 | The click handler moves the selection as `Clicked` says. |
| `Competitors.Selection.DetailCard` | src/app/competitors/page.tsx:149-153 | The card is rendered iff a non-empty name is selected and the data has loaded. It describes the competitor `find` returns for that name, and rendering throws exactly when the list holds no competitor of that name. |
| `Competitors.Find` | src/app/competitors/page.tsx:151 | `find` succeeds iff some competitor has the name, and returns the first competitor of that name in the list. |
| `Competitors.HighlightOne` | src/app/competitors/page.tsx:70-81 | At most one row is highlighted. A click selects its row exactly when that row was not highlighted. |
| `Competitors.SelectedRowHasCard` | src/app/competitors/page.tsx:149-153 | With a listed competitor selected, the card describes that competitor. |
| `Competitors.StaleSelectionThrows` | src/app/competitors/page.tsx:149-153 | A row selected earlier whose name a refetched list no longer holds makes the card throw. |
| `Competitors.WinLoseSplit` | src/app/competitors/page.tsx:182-183 | The two bar widths are the win rate and `100 - win rate`, adding up to 100. |
| `TranscriptViewer.JsRem` | src/components/TranscriptViewer.tsx:15 | JavaScript's `%`: equal to Dafny's on non-negative numbers, and always strictly between minus and plus the divisor. |
| `TranscriptViewer.FormatDuration` | src/components/TranscriptViewer.tsx:13-17 | Every duration text has at least four characters, `m:ss` at the shortest. |
| `TranscriptViewer.SecondsField` | src/components/TranscriptViewer.tsx:16 | Seconds below 60 are padded to exactly two digits that read back as those seconds. |
| `TranscriptViewer.DurationRoundTrip` | src/components/TranscriptViewer.tsx:13-17 | For s at least 0, the text is `floor(s/60)`, `:` and two digits holding `s % 60`, and it reads back as s. |
| `TranscriptViewer.HourIsSixtyMinutes` | src/components/TranscriptViewer.tsx:14 | Minutes do not roll over into hours: 3600 gives `60:00`. |
| `TranscriptViewer.TimeAgreesOnIntegers` | src/components/TranscriptViewer.tsx:19-23 | On whole numbers, including negative ones, `formatTime` equals `formatDuration`. |
| `TranscriptViewer.TimeDropsFraction` | src/components/TranscriptViewer.tsx:19-23 | On a non-negative timestamp, `formatTime` floors the seconds and formats the result as a duration. |
| `TranscriptViewer.Section` | src/components/TranscriptViewer.tsx:78-110 | A summary section is rendered iff its list is non-empty, and it shows that list. |
| `TranscriptViewer.Viewer.constructor` | src/components/TranscriptViewer.tsx:11 | The full transcript starts hidden. |
| `TranscriptViewer.Viewer.ToggleFull` | src/components/TranscriptViewer.tsx:130 | Each click flips whether the full transcript is shown. |
| `TranscriptViewer.Viewer.Render` | src/components/TranscriptViewer.tsx:45-175 | The view shows the formatted duration and the non-empty sections. The toggle reads Hide or Show with the line count. The lines, one per sentence with its `formatTime` stamp, show iff revealed. The link shows iff a URL is set. |
| `WinLoss.FindCaption` | src/app/win-loss/page.tsx:73 | `find(...)?.label` gives the caption of the first dimension with the key, and nothing iff no dimension has it. |
| `WinLoss.TabCaptions` | src/app/win-loss/page.tsx:26-32 | Every tab's key finds that tab's own caption. |
| `WinLoss.StageCaption` | src/app/win-loss/page.tsx:181 | `""` reads All, `closedwon` reads Won, anything else reads Lost. |
| `WinLoss.Page.constructor` | src/app/win-loss/page.tsx:35-36 | The page starts on the industry dimension with no stage filter. |
| `WinLoss.Page.SelectDimension` | src/app/win-loss/page.tsx:57 | A tab sets the dimension and leaves the filter. |
| `WinLoss.Page.SelectStage` | src/app/win-loss/page.tsx:174 | A stage button sets the filter and leaves the dimension. |
| `WinLoss.Page.DealsFilter` | src/app/win-loss/page.tsx:38 | Filter `""` passes no parameters; any other value passes `{stage}`. |
| `WinLoss.Page.DealsKey` | src/app/win-loss/page.tsx:38 | The deal table keys on `.../deals` under All, and on `.../deals?stage=<filter>` otherwise. |
| `WinLoss.OneStageActive` | src/app/win-loss/page.tsx:171-176 | Exactly the chosen stage button is highlighted. |
| `WinLoss.SortByWinRate` | src/app/win-loss/page.tsx:126 | The sort in place leaves the rows in non-increasing win-rate order, as a permutation of the rows it was given. |
| `WinLoss.SortedCopy` | src/app/win-loss/page.tsx:125-126 | The table gets a fresh array sorted by win rate, holding the same rows. The chart's data is not changed, and no data gives an empty table. |
| `WinLoss.NeighbourBarsDiffer` | src/app/win-loss/page.tsx:99-100 | Bar i takes `COLORS[i % 6]`, the overview's palette, and any six neighbouring bars have six different colours. |
| `WinLoss.OrDash` | src/app/win-loss/page.tsx:220-222 | A missing or empty value shows as a dash. |
| `WinLoss.Status` | src/app/win-loss/page.tsx:216 | The badge reads Won iff the stage is `closedwon`, Lost otherwise. |
| `WinLoss.DealRows` | src/app/win-loss/page.tsx:200-223 | The table lists the first `min(50, n)` deals in order, one row each. No data gives no rows. |
| `WinLoss.RowsCapped` | src/app/win-loss/page.tsx:200 | Deals after the fiftieth never change the table. |
| `Objections.WinRateBand` | src/app/objections/page.tsx:90-96 | The bar is teal iff above 40, amber iff above 25 and at most 40, rose iff at most 25. |
| `Objections.BandMonotone` | src/app/objections/page.tsx:90-96 | A better win rate never gets a worse colour. |
| `Objections.IndustryCell` | src/app/objections/page.tsx:107-116 | At most the first three industries are chips. A `+N` label appears iff there are more than three, with N the length minus 3. |
| `Objections.ChipsAddUp` | src/app/objections/page.tsx:107-116 | The chips plus the number in the `+N` label always equal the number of industries. |
| `Objections.BarColor` | src/app/objections/page.tsx:16 | Bar i gets a colour from the ten-colour palette. |
| `Objections.BarColorCycles` | src/app/objections/page.tsx:57-58 | The colours repeat every ten bars. |
| `Objections.PaletteExtendsOverview` | src/app/objections/page.tsx:16 | The first six colours are the overview palette. |
| `Objections.Rows` | src/app/objections/page.tsx:82-120 | One row per objection, in order, with its band and industry cell. |
| `Sidebar.Nav.constructor` | src/components/Sidebar.tsx:74-80 | On mount nothing is loading. |
| `Sidebar.Nav.HandleNavClick` | src/components/Sidebar.tsx:82-86 | A link to another page sets the loading path to its href. The current page's link leaves it unchanged. |
| `Sidebar.Nav.PathChanged` | src/components/Sidebar.tsx:78-80 | A pathname change resets the loading path to null. |
| `Sidebar.Nav.Items` | src/components/Sidebar.tsx:97-99 | An item is active iff the pathname equals its href, and loading iff the loading path equals its href. |
| `Sidebar.HrefsDistinct` | src/components/Sidebar.tsx:7-71 | No two navigation items share an href. |
| `Sidebar.OneActiveOneLoading` | src/components/Sidebar.tsx:98-99 | At most one item is active and at most one shows a spinner. Once the pathname effect has run, they are never the same item. |
| `Sidebar.ClickThenArrive` | src/components/Sidebar.tsx:78-86 | Clicking another page's link and arriving there leaves that link active and no spinner anywhere. |
| `Transcripts.Selection` | src/app/transcripts/page.tsx:33 | The empty option selects nothing; any other option selects its id. |
| `Transcripts.PickerValue` | src/app/transcripts/page.tsx:32 | The picker shows the selected id, or the empty option. |
| `Transcripts.PickerRoundTrip` | src/app/transcripts/page.tsx:32-33 | The picker shows what was chosen, and choosing the shown option changes nothing. |
| `Transcripts.OptionValues` | src/app/transcripts/page.tsx:36-42 | The options are the empty one followed by each deal's id, in order. |
| `Transcripts.CountLabel` | src/app/transcripts/page.tsx:66-67 | The label is the count and ` transcript`, plus `s` iff the count is not 1. |
| `Transcripts.CountLabelPlural` | src/app/transcripts/page.tsx:66-67 | The label ends in `s` iff the count is not 1. |
| `Transcripts.Page.constructor` | src/app/transcripts/page.tsx:8 | No deal is selected at first. |
| `Transcripts.Page.Choose` | src/app/transcripts/page.tsx:33 | The change handler stores the selection. |
| `Transcripts.Page.TranscriptsCall` | src/app/transcripts/page.tsx:10 | With no deal selected no fetch is keyed; otherwise the key is `.../transcripts/deal/<id>`. |
| `Transcripts.Page.Display` | src/app/transcripts/page.tsx:48-104 | Placeholder iff no deal is selected. Skeleton iff a deal is selected and loading. Listing iff data is present with a positive count. "No transcripts found" otherwise once loading ends. |
| `Text.TrimCuts` | src/app/ask/page.tsx:27 | `trim` removes only white space: the result is a cut of the text with nothing but white space before and after it, and with no white space at either end. |
| `Text.JoinSplit` | src/components/AIInsightBox.tsx:102-117 | Joining the parts of a split with the separator gives back the text. |
| `Text.NatToStringReadsBack` | src/components/TranscriptViewer.tsx:16 | A number's decimal text is all digits and reads back as the number. |

## Left out

- Network transport is left out. `fetch`, `res.json()` and the timing of the asynchronous `askAI` call are outcome values (`Response`, or `Option` for the chat).
- The caching library's request de-duplication, cache storage, stale-while-error and revalidation are foreign code that is not shown. Only the key and the option record handed to it are modelled.
- The analytics hooks and getters (`useOverview`, `useBreakdown`, `useCompetitors`, `useObjections`, `useICP`, and the `get...` functions of the client) are paths under `Hooks.HookPath`. `Hooks.HooksMatchClient` ties them to the client's URL. The client getters have no members of their own.
- Competitors.Selection.DetailCard: when a refetch drops the selected competitor from the list, `find` gives `undefined` and `CompetitorDetailCard` throws a TypeError on `competitor.win_rate`. The model returns `Throws` there; what React does with the error is not modelled.
- Sidebar.OneActiveOneLoading: the model takes a pathname change and the effect that clears the loading path as one step. The page renders once in between, with the new link both active and spinning.
- Hooks.HookFetcher, Hooks.HookFetcherHidesErrors: the body is always taken as parsed. When a body fails to parse as JSON (a plain-text error page, say), `r.json()` rejects and the caching library reports an error to the hook. The model does not show this case.
- Percent-encoding by `URLSearchParams` is not modelled: parameter values are taken to be already safe.
- Float and locale formatting (`toFixed`, `toLocaleString`, dates, the `/1000` and `/1e6` amounts) is not modelled. Neither is `toString` of a fractional transcript limit.
- Overview.CountReasons, Overview.LossReasons: the accumulator in the code is a plain `{}`, so it inherits the names of `Object.prototype`. The model counts every reason as an ordinary key. For a loss reason such as `constructor`, `toString`, `valueOf` or `hasOwnProperty`, the code reads the inherited function, so the slice gets a string value rather than a count, and the sort comparator yields NaN for it. A `__proto__` reason is dropped by the code. The exact-count contracts hold only for reasons that are not such names.
- WinLoss.SortByWinRate, WinLoss.SortedCopy: stability is not stated. `Array.prototype.sort` keeps rows with equal win rates in their original order, and the insertion sort does so too, but no contract says it. Only order by win rate and the permutation are proved.
- The tie order of the loss-reason sort is not proved. `Object.entries` lists integer-like keys first; only the non-increasing values are proved.
- Regular expressions in general are not modelled, only these patterns. Line terminators are `\n`, `\r`, U+2028 and U+2029, as JavaScript's `.`, `^` and `$` use them.
- InsightBox.FormatBold, ItalicNotBold, ListBlock, FormatItalic, FormatCode, FormatHeading1, FormatHeading2, FormatHeading3, FormatBullet, FormatNumbered, FormatProse and FormatParagraphs are proved for contents without `*`, `` ` ``, `<`, `|` or line terminators. Mixed documents are covered stage by stage through the `Rewrite` lemmas.
- AskPage.ChatBold, ChatHeading1Kept, ChatCode, ChatBullet, ChatNumbered, ChatHeading3, ChatHeading2, ChatParagraphs and ChatLineBreak have the same restriction on their contents.
- WinLoss.DealRows carries the name, status, competitor and loss reason of each row. The amount, source and cycle-day cells are not modelled.
- Rendering is left out: JSX markup, recharts charts, `scrollIntoView` and `dangerouslySetInnerHTML`. So are the style-only components (metric cards, skeletons, signal cards), the timed page-loading overlay and the configuration files.

## Findings

| source | as written | input that shows it | evidently intended | confidence | as-written member | corrected member |
|---|---|---|---|---|---|---|
| src/hooks/useAPI.ts:17 | The hooks' fetcher is `fetch(url).then(r => r.json())`. It never checks `r.ok`, so when an error response has a JSON body, that body becomes the hook's `data` and `error` stays unset. | A response with status 500, status text "Internal Server Error" and the JSON body `{"detail": "..."}` | Check `r.ok` as `fetchAPI` does (src/lib/api.ts:8-10), so that the view's error indicator shows | not executed; medium | `Hooks.HookFetcherHidesErrors` | `Hooks.ClientFetcher` |
