/**
 * The data hooks: each one hands the caching library a key (the full URL
 * to fetch, or no key to fetch nothing) and, for one hook, an option.
 * The library itself is not modelled; a hook is the call it makes.
 */
module Hooks {
  import opened Text
  import opened Wrappers
  import opened Api

  const HooksBase := "http://localhost:8000/api"

  /** The arguments the library receives: the key and the
      `revalidateOnFocus` option, `None` when the library default stays. */
  datatype SwrCall = SwrCall(key: Option<string>, revalidateOnFocus: Option<bool>)

  datatype TranscriptFilter = TranscriptFilter(participantEmail: Option<string>, contactId: Option<string>, limit: Option<int>)

  /** The hooks and their arguments. */
  datatype Hook =
    | Overview
    | Breakdown(dimension: string)
    | Competitors
    | Objections
    | Icp
    | Deals(filter: Option<DealFilter>)
    | RecentDeals(limit: nat)
    | AIInsight(kind: string, params: Option<seq<Param>>)
    | DealTranscripts(dealId: Option<string>)
    | TranscriptById(transcriptId: Option<string>)
    | Transcripts(tfilter: Option<TranscriptFilter>)

  /** The transcript filter's parameters: the e-mail, the contact and a
      non-zero limit, in that order. */
  function TranscriptParams(filter: Option<TranscriptFilter>): (r: seq<Param>)
    ensures |r| <= 3
    ensures filter.None? ==> r == []
    ensures filter.Some? ==>
      Names(r) == (if Truthy(filter.value.participantEmail) then ["participant_email"] else [])
                  + (if Truthy(filter.value.contactId) then ["contact_id"] else [])
                  + (if filter.value.limit.Some? && filter.value.limit.value != 0 then ["limit"] else [])
  {
    match filter
    case None => []
    case Some(f) =>
      (if Truthy(f.participantEmail) then [("participant_email", f.participantEmail.value)] else [])
      + (if Truthy(f.contactId) then [("contact_id", f.contactId.value)] else [])
      + (if f.limit.Some? && f.limit.value != 0 then [("limit", IntToString(f.limit.value))] else [])
  }

  /** The path a hook fetches, `None` for no fetch. */
  function HookPath(h: Hook): (p: Option<string>)
    ensures p.None? <==> (h.DealTranscripts? && !Truthy(h.dealId)) || (h.TranscriptById? && !Truthy(h.transcriptId))
    ensures h.Overview? ==> p == Some("/analytics/overview")
    ensures h.Breakdown? ==> p == Some("/analytics/breakdown/" + h.dimension)
    ensures h.Competitors? ==> p == Some("/analytics/competitors")
    ensures h.Objections? ==> p == Some("/analytics/objections")
    ensures h.Icp? ==> p == Some("/analytics/icp")
    ensures h.Deals? ==> p == Some(DealsPath(h.filter))
    ensures h.RecentDeals? ==> p == Some(RecentDealsPath(h.limit))
    ensures h.AIInsight? ==> p == Some(InsightPath(h.kind, h.params))
    ensures p.Some? && h.DealTranscripts? ==> p.value == "/transcripts/deal/" + h.dealId.value
    ensures p.Some? && h.TranscriptById? ==> p.value == "/transcripts/" + h.transcriptId.value
    ensures h.Transcripts? ==> p == Some(WithQuery("/transcripts", Serialize(TranscriptParams(h.tfilter))))
  {
    match h
    case Overview => Some("/analytics/overview")
    case Breakdown(dimension) => Some("/analytics/breakdown/" + dimension)
    case Competitors => Some("/analytics/competitors")
    case Objections => Some("/analytics/objections")
    case Icp => Some("/analytics/icp")
    case Deals(filter) => Some(DealsPath(filter))
    case RecentDeals(limit) => Some(RecentDealsPath(limit))
    case AIInsight(kind, params) => Some(InsightPath(kind, params))
    case DealTranscripts(id) => if Truthy(id) then Some("/transcripts/deal/" + id.value) else None
    case TranscriptById(id) => if Truthy(id) then Some("/transcripts/" + id.value) else None
    case Transcripts(filter) => Some(WithQuery("/transcripts", Serialize(TranscriptParams(filter))))
  }

  /** The call a hook makes: the key is the base followed by the path, and
      only the insight hook turns revalidation on focus off. */
  function Call(h: Hook): (c: SwrCall)
    ensures c.key.Some? <==> HookPath(h).Some?
    ensures c.key.Some? ==> |c.key.value| >= |HooksBase| && c.key.value[..|HooksBase|] == HooksBase
    ensures c.key.Some? ==> c.key.value[|HooksBase|..] == HookPath(h).value
    ensures c.revalidateOnFocus.Some? <==> h.AIInsight?
    ensures c.revalidateOnFocus.Some? ==> !c.revalidateOnFocus.value
  {
    SwrCall(
      match HookPath(h) case Some(p) => Some(HooksBase + p) case None => None,
      if h.AIInsight? then Some(false) else None)
  }

  /** `useDeals(params)`: the query is built one parameter at a time. */
  method UseDeals(filter: Option<DealFilter>) returns (c: SwrCall)
    ensures c == Call(Deals(filter))
  {
    var sp := new SearchParams([]);
    if filter.Some? && Truthy(filter.value.stage) {
      sp.Set("stage", filter.value.stage.value);
    }
    if filter.Some? && Truthy(filter.value.industry) {
      assert "industry" !in Names(sp.entries);
      sp.Set("industry", filter.value.industry.value);
    }
    if filter.Some? && Truthy(filter.value.source) {
      assert "source" !in Names(sp.entries);
      sp.Set("source", filter.value.source.value);
    }
    assert sp.entries == DealParams(filter);
    c := SwrCall(Some(HooksBase + WithQuery("/deals", sp.Query())), None);
  }

  /** `useAIInsight(kind, params)`. */
  method UseAIInsight(kind: string, params: Option<seq<Param>>) returns (c: SwrCall)
    ensures c == Call(AIInsight(kind, params))
  {
    var sp := new SearchParams(params.GetOr([]));
    c := SwrCall(Some(HooksBase + WithQuery("/insights/" + kind, sp.Query())), Some(false));
  }

  /** `useTranscripts(params)`. */
  method UseTranscripts(filter: Option<TranscriptFilter>) returns (c: SwrCall)
    ensures c == Call(Transcripts(filter))
  {
    var sp := new SearchParams([]);
    if filter.Some? && Truthy(filter.value.participantEmail) {
      sp.Set("participant_email", filter.value.participantEmail.value);
    }
    if filter.Some? && Truthy(filter.value.contactId) {
      assert "contact_id" !in Names(sp.entries);
      sp.Set("contact_id", filter.value.contactId.value);
    }
    if filter.Some? && filter.value.limit.Some? && filter.value.limit.value != 0 {
      assert "limit" !in Names(sp.entries);
      sp.Set("limit", IntToString(filter.value.limit.value));
    }
    assert sp.entries == TranscriptParams(filter);
    c := SwrCall(Some(HooksBase + WithQuery("/transcripts", sp.Query())), None);
  }

  /** The hooks and the REST client name the same URL for the same
      endpoint. */
  lemma HooksMatchClient(h: Hook)
    requires HookPath(h).Some?
    ensures Call(h).key == Some(RequestFor(HookPath(h).value, None).url)
  {
  }

  /** `useRecentDeals()` asks for ten deals. */
  lemma RecentDealsDefaultKey()
    ensures Call(RecentDeals(10)).key == Some(HooksBase + "/deals/recent?limit=10")
  {
    RecentDealsDefault();
  }

  /** Different deal ids are different keys, so they are cached apart. */
  lemma DealTranscriptKeysDistinct(a: string, b: string)
    requires a != [] && b != [] && a != b
    ensures Call(DealTranscripts(Some(a))).key != Call(DealTranscripts(Some(b))).key
  {
    var p := HooksBase + "/transcripts/deal/";
    assert HooksBase + ("/transcripts/deal/" + a) == p + a;
    assert HooksBase + ("/transcripts/deal/" + b) == p + b;
    assert (p + a)[|p|..] == a && (p + b)[|p|..] == b;
  }

  /** Different transcript ids are different keys. */
  lemma TranscriptKeysDistinct(a: string, b: string)
    requires a != [] && b != [] && a != b
    ensures Call(TranscriptById(Some(a))).key != Call(TranscriptById(Some(b))).key
  {
    var p := HooksBase + "/transcripts/";
    assert HooksBase + ("/transcripts/" + a) == p + a;
    assert HooksBase + ("/transcripts/" + b) == p + b;
    assert (p + a)[|p|..] == a && (p + b)[|p|..] == b;
  }

  /** A zero limit is left out like an absent one. */
  lemma TranscriptsZeroLimit(email: Option<string>, contact: Option<string>)
    ensures Call(Transcripts(Some(TranscriptFilter(email, contact, Some(0)))))
            == Call(Transcripts(Some(TranscriptFilter(email, contact, None))))
  {
  }

  /** With all three set, the parameters come in their fixed order. */
  lemma TranscriptsFullQuery(email: string, contact: string, limit: int)
    requires email != [] && contact != [] && limit != 0
    ensures HookPath(Transcripts(Some(TranscriptFilter(Some(email), Some(contact), Some(limit)))))
            == Some("/transcripts" + "?" + (("participant_email=" + email) + "&" + ("contact_id=" + contact)
                    + "&" + ("limit=" + IntToString(limit))))
  {
    var l := IntToString(limit);
    assert TranscriptParams(Some(TranscriptFilter(Some(email), Some(contact), Some(limit))))
        == [("participant_email", email), ("contact_id", contact), ("limit", l)];
    SerializeThree(("participant_email", email), ("contact_id", contact), ("limit", l));
    var qs := Serialize([("participant_email", email), ("contact_id", contact), ("limit", l)]);
    assert qs != [];
    assert HookPath(Transcripts(Some(TranscriptFilter(Some(email), Some(contact), Some(limit)))))
        == Some(WithQuery("/transcripts", qs));
    assert WithQuery("/transcripts", qs) == "/transcripts" + "?" + qs;
    assert Pair(("participant_email", email)) == "participant_email=" + email;
    assert Pair(("contact_id", contact)) == "contact_id=" + contact;
    assert Pair(("limit", l)) == "limit=" + l;
  }

  // ---------------------------------------------------------------------
  // The fetcher
  // ---------------------------------------------------------------------

  /** The hooks' own fetcher, `fetch(url).then(r => r.json())`: the body
      is returned whatever the status. */
  function HookFetcher<T>(res: Response<T>): (r: Result<T, string>)
    ensures r.Ok? && r.value == res.body
  {
    Ok(res.body)
  }

  /** The corrected behaviour: the status check of `fetchAPI`, and no
      more. The client's exported `fetcher` puts the base in front of its
      argument again, so it is not meant for the hooks' full-URL keys. */
  function ClientFetcher<T>(res: Response<T>): (r: Result<T, string>)
    ensures r.Ok? <==> res.ok
    ensures r.Err? ==> "API error: " <= r.error
  {
    Outcome(res)
  }

  /** A failed response whose body is JSON (say `{"detail": ...}`) reaches
      a hook's data as if it were the answer, where the client's fetcher
      reports it as an error. */
  lemma HookFetcherHidesErrors(body: int)
    ensures HookFetcher(Response(false, 500, "Internal Server Error", body)).Ok?
    ensures ClientFetcher(Response(false, 500, "Internal Server Error", body))
            == Err("API error: " + "500" + " " + "Internal Server Error")
  {
    assert NatToString(500) == "500" by {
      assert NatToString(5) == "5";
      assert NatToString(50) == "50";
    }
  }

  /** The two fetchers agree exactly on the responses that are ok. */
  lemma FetchersAgree<T>(res: Response<T>)
    ensures HookFetcher(res) == ClientFetcher(res) <==> res.ok
  {
  }
}
