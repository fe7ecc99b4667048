/**
 * The REST client: every request goes to a fixed base URL followed by a
 * path, with a JSON content type unless the caller passes headers of its
 * own, and a response whose status is not ok becomes one uniform error.
 * Query strings are built step by step in a `SearchParams` object, the
 * model of `URLSearchParams`.  The network itself is a parameter: a
 * `Response` value stands for what `fetch` returned.
 */
module Api {
  import opened Text
  import opened Wrappers

  const ApiBase := "http://localhost:8000/api"

  type Header = (string, string)

  const DefaultHeaders: seq<Header> := [("Content-Type", "application/json")]

  /** The subset of `RequestInit` the client uses; `None` is an absent
      property. */
  datatype Options = Options(verb: Option<string>, headers: Option<seq<Header>>, body: Option<string>)

  /** What is handed to `fetch`; an absent verb means GET. */
  datatype Request = Request(url: string, verb: Option<string>, headers: seq<Header>, body: Option<string>)

  /** What `fetch` resolved to, with the body already parsed. */
  datatype Response<T> = Response(ok: bool, status: nat, statusText: string, body: T)

  /** The request `fetchAPI(path, options)` makes: the caller's options are
      spread over the default headers, so headers of the caller's replace
      the default ones as a whole. */
  function RequestFor(path: string, options: Option<Options>): (r: Request)
    ensures |r.url| == |ApiBase| + |path| && r.url[..|ApiBase|] == ApiBase && r.url[|ApiBase|..] == path
    ensures options.None? ==> r.headers == DefaultHeaders && r.verb.None? && r.body.None?
    ensures options.Some? ==> r.verb == options.value.verb && r.body == options.value.body
    ensures options.Some? ==> r.headers == options.value.headers.GetOr(DefaultHeaders)
  {
    match options
    case None => Request(ApiBase + path, None, DefaultHeaders, None)
    case Some(o) => Request(ApiBase + path, o.verb, o.headers.GetOr(DefaultHeaders), o.body)
  }

  /** The error `fetchAPI` throws for a response that is not ok. */
  function ErrorMessage(status: nat, statusText: string): (m: string)
    ensures "API error: " <= m
  {
    "API error: " + NatToString(status) + " " + statusText
  }

  /** The outcome of `fetchAPI`: the parsed body when the response is ok,
      otherwise the error. */
  function Outcome<T>(res: Response<T>): (r: Result<T, string>)
    ensures r.Ok? <==> res.ok
    ensures r.Ok? ==> r.value == res.body
    ensures r.Err? ==> r.error == ErrorMessage(res.status, res.statusText)
  {
    if !res.ok then Err(ErrorMessage(res.status, res.statusText)) else Ok(res.body)
  }

  /** The error message names the status and the status text: two failures
      with the same message had the same status and status text. */
  lemma ErrorMessageInjective(s1: nat, t1: string, s2: nat, t2: string)
    requires ErrorMessage(s1, t1) == ErrorMessage(s2, t2)
    ensures s1 == s2 && t1 == t2
  {
    var p := "API error: ";
    var a, b := NatToString(s1), NatToString(s2);
    assert p + a + " " + t1 == p + (a + " " + t1);
    assert p + b + " " + t2 == p + (b + " " + t2);
    assert a + " " + t1 == b + " " + t2 by {
      assert (p + (a + " " + t1))[|p|..] == a + " " + t1;
      assert (p + (b + " " + t2))[|p|..] == b + " " + t2;
    }
    DigitsThenSpace(a, t1, b, t2);
    NatToStringInjective(s1, s2);
  }

  /** Digits followed by a space split at that space. */
  lemma DigitsThenSpace(a: string, t1: string, b: string, t2: string)
    requires forall i :: 0 <= i < |a| ==> IsDigit(a[i])
    requires forall i :: 0 <= i < |b| ==> IsDigit(b[i])
    requires a + " " + t1 == b + " " + t2
    ensures a == b && t1 == t2
  {
    var s := a + " " + t1;
    if |a| < |b| {
      SpaceAfter(a, t1, b, " " + t2);
      assert false;
    } else if |b| < |a| {
      SpaceAfter(b, t2, a, " " + t1);
      assert false;
    }
    assert a == s[..|a|] == b;
    assert t1 == s[|a| + 1..] == t2;
  }

  /** The character after `a` in `a + " " + t`, read through another
      splitting of the same text. */
  lemma SpaceAfter(a: string, t: string, b: string, u: string)
    ensures |a| < |b| && a + " " + t == b + u ==> b[|a|] == ' '
  {
    if |a| < |b| && a + " " + t == b + u {
      assert (a + " " + t)[|a|] == ' ';
      assert (b + u)[|a|] == b[|a|];
    }
  }

  // ---------------------------------------------------------------------
  // Query strings
  // ---------------------------------------------------------------------

  type Param = (string, string)

  /** The names of the parameters, in order. */
  function Names(ps: seq<Param>): (r: seq<string>)
    ensures |r| == |ps| && forall i :: 0 <= i < |ps| ==> r[i] == ps[i].0
  {
    seq(|ps|, i requires 0 <= i < |ps| => ps[i].0)
  }

  /** `URLSearchParams.set`: the first parameter with that name takes the
      value and later ones with that name go; without one, the parameter
      is appended. */
  function SetParam(ps: seq<Param>, name: string, value: string): (r: seq<Param>)
    ensures name !in Names(ps) ==> r == ps + [(name, value)]
    ensures (name, value) in r
    decreases |ps|
  {
    if ps == [] then [(name, value)]
    else if ps[0].0 == name then [(name, value)] + Without(ps[1..], name)
    else
      assert Names(ps[1..]) == Names(ps)[1..];
      [ps[0]] + SetParam(ps[1..], name, value)
  }

  /** `set` on a name already present: the first pair with that name takes
      the value in place, the pairs before it stay, and the later pairs with
      that name are dropped. */
  lemma {:induction false} SetParamReplaces(ps: seq<Param>, name: string, value: string, k: nat)
    requires k < |ps| && ps[k].0 == name
    requires forall m :: 0 <= m < k ==> ps[m].0 != name
    ensures SetParam(ps, name, value) == ps[..k] + [(name, value)] + Without(ps[k + 1..], name)
    decreases k
  {
    if k == 0 {
      assert ps[..0] == [];
    } else {
      var t := ps[1..];
      assert ps[0].0 != name;
      assert SetParam(ps, name, value) == [ps[0]] + SetParam(t, name, value);
      assert forall m :: 0 <= m < k - 1 ==> t[m] == ps[m + 1];
      assert ps[k + 1..] == t[k..];
      SetParamReplaces(t, name, value, k - 1);
      ShiftPrefix(ps, k, (name, value), Without(t[k..], name));
    }
  }

  /** Putting the head back in front of a prefix of the tail. */
  lemma ShiftPrefix(ps: seq<Param>, k: nat, x: Param, u: seq<Param>)
    requires 0 < k <= |ps|
    ensures [ps[0]] + (ps[1..][..k - 1] + [x] + u) == ps[..k] + [x] + u
  {
    assert ps[..k] == [ps[0]] + ps[1..][..k - 1];
  }

  /** The parameters without any named `name`. */
  function Without(ps: seq<Param>, name: string): (r: seq<Param>)
    ensures name !in Names(r)
    ensures forall p :: p in r ==> p in ps
    decreases |ps|
  {
    if ps == [] then []
    else if ps[0].0 == name then Without(ps[1..], name)
    else
      var r := [ps[0]] + Without(ps[1..], name);
      assert Names(r) == [ps[0].0] + Names(Without(ps[1..], name));
      r
  }

  /** `Without` keeps exactly the pairs with other names. */
  lemma {:induction false} WithoutKeeps(ps: seq<Param>, name: string, p: Param)
    ensures p in Without(ps, name) <==> p in ps && p.0 != name
    decreases |ps|
  {
    if ps != [] {
      WithoutKeeps(ps[1..], name, p);
      assert ps == [ps[0]] + ps[1..];
    }
  }

  /** After `set`, the name occurs once, with the new value. */
  lemma {:induction false} SetParamOnce(ps: seq<Param>, name: string, value: string)
    ensures forall i :: 0 <= i < |SetParam(ps, name, value)| && SetParam(ps, name, value)[i].0 == name
              ==> SetParam(ps, name, value)[i].1 == value
    ensures forall i, j :: 0 <= i < j < |SetParam(ps, name, value)|
              ==> SetParam(ps, name, value)[i].0 != name || SetParam(ps, name, value)[j].0 != name
    decreases |ps|
  {
    var r := SetParam(ps, name, value);
    if ps != [] && ps[0].0 == name {
      var w := Without(ps[1..], name);
      forall i | 1 <= i < |r|
        ensures r[i].0 != name
      {
        assert r[i] == w[i - 1];
        assert Names(w)[i - 1] == w[i - 1].0;
      }
    } else if ps != [] {
      var t := SetParam(ps[1..], name, value);
      SetParamOnce(ps[1..], name, value);
      assert forall i :: 1 <= i < |r| ==> r[i] == t[i - 1];
    }
  }

  function Pair(p: Param): string {
    p.0 + "=" + p.1
  }

  /** `URLSearchParams.toString()`: the pairs `name=value` joined by `&`;
      the values are taken to need no percent-encoding. */
  function Serialize(ps: seq<Param>): (r: string)
    ensures r == [] <==> ps == []
    decreases |ps|
  {
    if ps == [] then ""
    else if |ps| == 1 then Pair(ps[0])
    else Pair(ps[0]) + "&" + Serialize(ps[1..])
  }

  /** A path with its query: `?qs` is added only for a non-empty `qs`. */
  function WithQuery(path: string, qs: string): (r: string)
    ensures |r| >= |path| && r[..|path|] == path
    ensures qs == [] <==> r == path
    ensures qs != [] ==> r[|path|..] == "?" + qs
  {
    if qs == [] then path else path + "?" + qs
  }

  /** A `URLSearchParams` object. */
  class SearchParams {
    var entries: seq<Param>

    /** `new URLSearchParams(init)`, with a record's entries in order. */
    constructor(init: seq<Param>)
      ensures entries == init
    {
      entries := init;
    }

    method Set(name: string, value: string)
      modifies this
      ensures entries == SetParam(old(entries), name, value)
    {
      entries := SetParam(entries, name, value);
    }

    function Query(): (qs: string)
      reads this
      ensures qs == [] <==> entries == []
    {
      Serialize(entries)
    }
  }

  // ---------------------------------------------------------------------
  // The endpoints
  // ---------------------------------------------------------------------

  /** JavaScript truthiness of an optional string: present and not empty. */
  predicate Truthy(s: Option<string>) {
    s.Some? && s.value != []
  }

  /** The optional deal filter. */
  datatype DealFilter = DealFilter(stage: Option<string>, industry: Option<string>, source: Option<string>)

  /** The deal filter's parameters: each truthy field, in the fixed order
      stage, industry, source. */
  function DealParams(filter: Option<DealFilter>): (r: seq<Param>)
    ensures |r| <= 3
    ensures filter.None? ==> r == []
    ensures filter.Some? ==>
      Names(r) == (if Truthy(filter.value.stage) then ["stage"] else [])
                  + (if Truthy(filter.value.industry) then ["industry"] else [])
                  + (if Truthy(filter.value.source) then ["source"] else [])
    ensures forall i :: 0 <= i < |r| ==> r[i].1 != []
  {
    match filter
    case None => []
    case Some(f) =>
      (if Truthy(f.stage) then [("stage", f.stage.value)] else [])
      + (if Truthy(f.industry) then [("industry", f.industry.value)] else [])
      + (if Truthy(f.source) then [("source", f.source.value)] else [])
  }

  /** The path `getDeals(filter)` requests. */
  function DealsPath(filter: Option<DealFilter>): string {
    WithQuery("/deals", Serialize(DealParams(filter)))
  }

  /** `getDeals(params)`: the parameters are set one at a time. */
  method GetDeals(filter: Option<DealFilter>) returns (req: Request)
    ensures req == RequestFor(DealsPath(filter), None)
  {
    var sp := new SearchParams([]);
    if filter.Some? && Truthy(filter.value.stage) {
      sp.Set("stage", filter.value.stage.value);
    }
    if filter.Some? && Truthy(filter.value.industry) {
      assert "industry" !in Names(sp.entries);
      sp.Set("industry", filter.value.industry.value);
    }
    if filter.Some? && Truthy(filter.value.source) {
      assert "source" !in Names(sp.entries);
      sp.Set("source", filter.value.source.value);
    }
    assert sp.entries == DealParams(filter);
    req := RequestFor(WithQuery("/deals", sp.Query()), None);
  }

  /** No filter, or one whose fields are all absent or empty, is the bare
      list of deals. */
  lemma DealsUnfiltered(f: DealFilter)
    requires !Truthy(f.stage) && !Truthy(f.industry) && !Truthy(f.source)
    ensures DealsPath(Some(f)) == DealsPath(None) == "/deals"
  {
  }

  /** With every field set, the query names them in the fixed order. */
  lemma DealsFullQuery(stage: string, industry: string, source: string)
    requires stage != [] && industry != [] && source != []
    ensures DealsPath(Some(DealFilter(Some(stage), Some(industry), Some(source))))
            == "/deals?" + ("stage=" + stage) + "&" + ("industry=" + industry) + "&" + ("source=" + source)
  {
    assert DealParams(Some(DealFilter(Some(stage), Some(industry), Some(source))))
        == [("stage", stage), ("industry", industry), ("source", source)];
    SerializeThree(("stage", stage), ("industry", industry), ("source", source));
  }

  /** A set stage comes first. */
  lemma DealParamsStage(stage: string, industry: Option<string>, source: Option<string>)
    requires stage != []
    ensures DealParams(Some(DealFilter(Some(stage), industry, source)))
            == [("stage", stage)] + DealParams(Some(DealFilter(None, industry, source)))
  {
  }

  lemma SerializeThree(p: Param, q: Param, r: Param)
    ensures Serialize([p, q, r]) == Pair(p) + "&" + Pair(q) + "&" + Pair(r)
  {
    SerializeCons(r, []);
    SerializeCons(q, [r]);
    assert [p, q, r] == [p] + [q, r];
    SerializeCons(p, [q, r]);
  }

  lemma SerializeCons(p: Param, rest: seq<Param>)
    ensures Serialize([p] + rest) == Pair(p) + (if rest == [] then "" else "&" + Serialize(rest))
  {
    assert ([p] + rest)[1..] == rest;
    if rest == [] {
      assert [p] + rest == [p];
    }
  }

  /** An empty field counts as no field. */
  lemma DealsIgnoresEmpty(f: DealFilter)
    ensures DealsPath(Some(f)) == DealsPath(Some(Normalized(f)))
  {
  }

  /** The filter with its empty fields dropped. */
  function Normalized(f: DealFilter): (g: DealFilter)
    ensures Truthy(g.stage) == Truthy(f.stage) && Truthy(g.industry) == Truthy(f.industry)
    ensures Truthy(g.source) == Truthy(f.source)
    ensures !Truthy(g.stage) ==> g.stage.None?
    ensures !Truthy(g.industry) ==> g.industry.None?
    ensures !Truthy(g.source) ==> g.source.None?
  {
    DealFilter(
      if Truthy(f.stage) then f.stage else None,
      if Truthy(f.industry) then f.industry else None,
      if Truthy(f.source) then f.source else None)
  }

  /** Filters that differ only in their stage ask for different paths. */
  lemma DealsStageDistinguishes(s1: string, s2: string, industry: Option<string>, source: Option<string>)
    requires s1 != [] && s2 != [] && s1 != s2
    ensures DealsPath(Some(DealFilter(Some(s1), industry, source)))
            != DealsPath(Some(DealFilter(Some(s2), industry, source)))
  {
    var rest := DealParams(Some(DealFilter(None, industry, source)));
    var tail := if rest == [] then "" else "&" + Serialize(rest);
    StageFirst(s1, industry, source, rest, tail);
    StageFirst(s2, industry, source, rest, tail);
    if DealsPath(Some(DealFilter(Some(s1), industry, source))) == DealsPath(Some(DealFilter(Some(s2), industry, source))) {
      var w := DealsPath(Some(DealFilter(Some(s1), industry, source)));
      assert "stage=" + (s1 + tail) == w[7..] == "stage=" + (s2 + tail);
      assert s1 + tail == ("stage=" + (s1 + tail))[6..];
      assert s2 + tail == ("stage=" + (s2 + tail))[6..];
      AppendCancel(s1, s2, tail);
    }
  }

  /** With a stage set, the query starts with it. */
  lemma StageFirst(stage: string, industry: Option<string>, source: Option<string>, rest: seq<Param>, tail: string)
    requires stage != []
    requires rest == DealParams(Some(DealFilter(None, industry, source)))
    requires tail == if rest == [] then "" else "&" + Serialize(rest)
    ensures DealsPath(Some(DealFilter(Some(stage), industry, source))) == "/deals?" + ("stage=" + (stage + tail))
  {
    DealParamsStage(stage, industry, source);
    SerializeCons(("stage", stage), rest);
    AppendAssoc("stage=", stage, tail);
  }

  lemma AppendCancel(a: string, b: string, c: string)
    requires a + c == b + c
    ensures a == b
  {
    assert |a| == |b|;
    assert a == (a + c)[..|a|];
    assert b == (b + c)[..|b|];
  }

  /** `getRecentDeals(limit)`; the limit defaults to 10. */
  function RecentDealsPath(limit: nat := 10): (path: string)
    ensures path == "/deals/recent?limit=" + NatToString(limit)
  {
    WithQuery("/deals/recent", "limit=" + NatToString(limit))
  }

  lemma RecentDealsDefault()
    ensures RecentDealsPath() == "/deals/recent?limit=10"
  {
    assert NatToString(10) == "10";
  }

  /** The path `getAIInsight(kind, params)` requests; the parameters are a
      record's entries in order. */
  function InsightPath(kind: string, params: Option<seq<Param>>): (path: string) {
    WithQuery("/insights/" + kind, Serialize(params.GetOr([])))
  }

  /** `getAIInsight(kind, params)`. */
  method GetAIInsight(kind: string, params: Option<seq<Param>>) returns (req: Request)
    ensures req == RequestFor(InsightPath(kind, params), None)
  {
    var sp := new SearchParams(params.GetOr([]));
    req := RequestFor(WithQuery("/insights/" + kind, sp.Query()), None);
  }

  /** Without parameters the insight path is the bare kind; with them it
      carries them all. */
  lemma InsightPathShape(kind: string, params: Option<seq<Param>>)
    ensures params.None? || params.value == [] <==> InsightPath(kind, params) == "/insights/" + kind
    ensures params.Some? && params.value != [] ==>
      InsightPath(kind, params) == "/insights/" + kind + "?" + Serialize(params.value)
  {
  }

  // ---------------------------------------------------------------------
  // Asking a question
  // ---------------------------------------------------------------------

  const AskPrefix := "{\"question\":\""
  const AskSuffix := "\"}"

  /** `askAI(question)`: a POST of `{"question": question}`; no headers are
      passed, so the JSON content type stays. */
  function AskRequest(question: string): (r: Request)
    ensures r.url == ApiBase + "/insights/ask" && r.verb == Some("POST")
    ensures r.headers == DefaultHeaders
    ensures r.body.Some? && QuestionOf(r.body.value) == Some(question)
  {
    AskBodyReadsBack(question);
    RequestFor("/insights/ask", Some(Options(Some("POST"), None, Some(AskBody(question)))))
  }

  /** `JSON.stringify({ question })`. */
  function AskBody(question: string): string {
    AskPrefix + Escape(question) + AskSuffix
  }

  /** Reads the question back out of a request body. */
  function QuestionOf(body: string): Option<string> {
    if |body| >= |AskPrefix| + |AskSuffix| && body[..|AskPrefix|] == AskPrefix
       && body[|body| - |AskSuffix|..] == AskSuffix
    then Unescape(body[|AskPrefix|..|body| - |AskSuffix|])
    else None
  }

  lemma AskBodyReadsBack(question: string)
    ensures QuestionOf(AskBody(question)) == Some(question)
  {
    var e := Escape(question);
    var b := AskPrefix + e + AskSuffix;
    assert b[..|AskPrefix|] == AskPrefix;
    assert b[|b| - |AskSuffix|..] == AskSuffix;
    assert b[|AskPrefix|..|b| - |AskSuffix|] == e;
    UnescapeEscape(question);
  }

  // JSON string escaping, as `JSON.stringify` does it.

  function HexDigit(n: nat): (c: char)
    requires n < 16
  {
    "0123456789abcdef"[n]
  }

  function HexValue(c: char): (r: Option<nat>)
    ensures r.Some? ==> r.value < 16
  {
    if '0' <= c <= '9' then Some(c as int - '0' as int)
    else if 'a' <= c <= 'f' then Some(c as int - 'a' as int + 10)
    else if 'A' <= c <= 'F' then Some(c as int - 'A' as int + 10)
    else None
  }

  lemma HexRoundTrip(n: nat)
    requires n < 16
    ensures HexValue(HexDigit(n)) == Some(n)
  {
  }

  const Backspace: char := '\U{0008}'
  const FormFeed: char := '\U{000C}'

  /** The escape `JSON.stringify` writes for one character. */
  function EscapeChar(c: char): (r: string)
    ensures r != []
  {
    if c == '"' then "\\\""
    else if c == '\\' then "\\\\"
    else if c == Backspace then "\\b"
    else if c == '\t' then "\\t"
    else if c == '\n' then "\\n"
    else if c == FormFeed then "\\f"
    else if c == '\r' then "\\r"
    else if c < ' ' then "\\u00" + [HexDigit(c as int / 16), HexDigit(c as int % 16)]
    else [c]
  }

  function Escape(s: string): (r: string)
    decreases |s|
  {
    if s == [] then [] else EscapeChar(s[0]) + Escape(s[1..])
  }

  /** The character a short escape `\c` stands for. */
  function ShortEscape(c: char): Option<char> {
    if c == '"' then Some('"')
    else if c == '\\' then Some('\\')
    else if c == '/' then Some('/')
    else if c == 'b' then Some(Backspace)
    else if c == 't' then Some('\t')
    else if c == 'n' then Some('\n')
    else if c == 'f' then Some(FormFeed)
    else if c == 'r' then Some('\r')
    else None
  }

  /** The value of four hexadecimal digits. */
  function Hex4(t: string): (r: Option<nat>)
    requires |t| == 4
    ensures r.Some? ==> r.value < 0x10000
  {
    match (HexValue(t[0]), HexValue(t[1]), HexValue(t[2]), HexValue(t[3]))
    case (Some(a), Some(b), Some(c), Some(d)) => Some(((a * 16 + b) * 16 + c) * 16 + d)
    case _ => None
  }

  /** Reads the inside of a JSON string back; `None` for text that is not
      the inside of one (surrogate pairs are not read). */
  function Unescape(t: string): Option<string>
    decreases |t|
  {
    if t == [] then Some([])
    else if t[0] == '\\' then
      match Escaped(t)
      case Some((c, n)) => Prepend(c, Unescape(t[n..]))
      case None => None
    else if t[0] == '"' || t[0] < ' ' then None
    else Prepend(t[0], Unescape(t[1..]))
  }

  /** The character an escape at the start of `t` stands for, and the
      escape's length. */
  function Escaped(t: string): (r: Option<(char, nat)>)
    requires t != [] && t[0] == '\\'
    ensures r.Some? ==> 2 <= r.value.1 <= |t|
  {
    if |t| >= 6 && t[1] == 'u' then
      match Hex4(t[2..6])
      case Some(v) => if v < 0xD800 || 0xE000 <= v then Some((v as char, 6)) else None
      case None => None
    else if |t| >= 2 && ShortEscape(t[1]).Some? then Some((ShortEscape(t[1]).value, 2))
    else None
  }

  function Prepend(c: char, r: Option<string>): Option<string> {
    match r
    case Some(s) => Some([c] + s)
    case None => None
  }

  /** Reading an escaped text back gives the text. */
  lemma {:induction false} UnescapeEscape(s: string)
    ensures Unescape(Escape(s)) == Some(s)
    decreases |s|
  {
    if s != [] {
      UnescapeEscape(s[1..]);
      UnescapeChar(s[0], Escape(s[1..]));
      assert [s[0]] + s[1..] == s;
    }
  }

  lemma UnescapeChar(c: char, rest: string)
    ensures Unescape(EscapeChar(c) + rest) == Prepend(c, Unescape(rest))
  {
    var t := EscapeChar(c) + rest;
    if c == '"' || c == '\\' || c == Backspace || c == '\t' || c == '\n' || c == FormFeed || c == '\r' {
      assert t[0] == '\\' && t[2..] == rest;
    } else if c < ' ' {
      ControlEscape(c, rest);
    } else {
      assert t[0] == c && t[1..] == rest;
    }
  }

  lemma ControlEscape(c: char, rest: string)
    requires c < ' ' && c != Backspace && c != '\t' && c != '\n' && c != FormFeed && c != '\r'
    ensures Unescape(EscapeChar(c) + rest) == Prepend(c, Unescape(rest))
  {
    var hi, lo := c as int / 16, c as int % 16;
    var t := "\\u00" + [HexDigit(hi), HexDigit(lo)] + rest;
    assert EscapeChar(c) + rest == t;
    assert t[0] == '\\' && t[1] == 'u' && t[6..] == rest;
    assert t[2..6] == ['0', '0', HexDigit(hi), HexDigit(lo)];
    HexRoundTrip(hi);
    HexRoundTrip(lo);
    assert Hex4(t[2..6]) == Some(c as int);
  }
}
