/**
 * The transcripts page: a deal picker whose empty option means no deal,
 * the transcript request keyed on the chosen deal, and the panel shown
 * below the picker.
 */
module Transcripts {
  import opened Wrappers
  import opened Text
  import opened Types
  import Api
  import Hooks
  import TranscriptViewer

  /** What the deal-transcripts request returns. */
  datatype DealTranscripts = DealTranscripts(
    dealName: string,
    transcriptCount: int,
    transcripts: seq<TranscriptViewer.Transcript>)

  /** `e.target.value || null`. */
  function Selection(value: string): (s: Option<string>)
    ensures s.None? <==> value == ""
    ensures s.Some? ==> s.value == value
  {
    if value == "" then None else Some(value)
  }

  /** `selectedDealId || ""`: what the picker shows. */
  function PickerValue(selected: Option<string>): (v: string)
    ensures selected.Some? ==> v == selected.value
    ensures selected.None? ==> v == ""
  {
    if Api.Truthy(selected) then selected.value else ""
  }

  /** The picker shows the option that was chosen, and choosing the shown
      option changes nothing. */
  lemma PickerRoundTrip(value: string, selected: Option<string>)
    ensures PickerValue(Selection(value)) == value
    ensures selected != Some("") ==> Selection(PickerValue(selected)) == selected
  {
  }

  /** The picker's options: the empty one, then one per deal by its id. */
  function OptionValues(deals: Option<seq<Deal>>): (vs: seq<string>)
    ensures |vs| == 1 + (if deals.Some? then |deals.value| else 0)
    ensures vs[0] == ""
    ensures deals.Some? ==> forall i :: 0 <= i < |deals.value| ==> vs[i + 1] == deals.value[i].id
  {
    [""] + match deals
           case None => []
           case Some(ds) => seq(|ds|, i requires 0 <= i < |ds| => ds[i].id)
  }

  /** The panel below the picker. */
  datatype Panel =
    | Placeholder
    | Loading
    | Listing(dealName: string, countLabel: string, transcripts: seq<TranscriptViewer.Transcript>)
    | NoTranscripts

  /** `{count} transcript{count !== 1 ? "s" : ""}`. */
  function CountLabel(count: int): (t: string)
    ensures var n := |IntToString(count) + " transcript"|;
      && |t| >= n && t[..n] == IntToString(count) + " transcript"
      && (|t| == n + 1 <==> count != 1) && (|t| == n <==> count == 1)
  {
    IntToString(count) + " transcript" + (if count != 1 then "s" else "")
  }

  /** The label says "transcripts" for every count but one. */
  lemma CountLabelPlural(count: int)
    ensures CountLabel(count)[|CountLabel(count)| - 1] == 's' <==> count != 1
  {
    var t := IntToString(count) + " transcript";
    assert t[|t| - 1] == 't';
  }

  /** The page's one piece of state: the chosen deal, `null` at first. */
  class Page {
    var selectedDealId: Option<string>

    /** The picker never holds the empty string as a choice. */
    predicate Valid()
      reads this
    {
      selectedDealId != Some("")
    }

    constructor()
      ensures selectedDealId.None? && Valid()
    {
      selectedDealId := None;
    }

    /** The picker's change handler. */
    method Choose(value: string)
      modifies this
      ensures selectedDealId == Selection(value)
      ensures Valid()
    {
      selectedDealId := if value == "" then None else Some(value);
    }

    /** `useDealTranscripts(selectedDealId)`: no request without a deal. */
    function TranscriptsCall(): (c: Hooks.SwrCall)
      reads this
      ensures c.key.None? <==> !Api.Truthy(selectedDealId)
      ensures c.key.Some? ==> c.key.value == Hooks.HooksBase + "/transcripts/deal/" + selectedDealId.value
    {
      Hooks.Call(Hooks.DealTranscripts(selectedDealId))
    }

    /** The panel: the placeholder without a deal, the skeleton while
        loading, the list when there are transcripts, and otherwise the
        "No transcripts found" message. */
    function Display(loading: bool, data: Option<DealTranscripts>): (p: Panel)
      reads this
      ensures p.Placeholder? <==> !Api.Truthy(selectedDealId)
      ensures p.Loading? <==> Api.Truthy(selectedDealId) && loading
      ensures p.Listing? <==> Api.Truthy(selectedDealId) && !loading && data.Some? && data.value.transcriptCount > 0
      ensures p.Listing? ==> p == Listing(data.value.dealName, CountLabel(data.value.transcriptCount), data.value.transcripts)
      ensures p.NoTranscripts? <==> Api.Truthy(selectedDealId) && !loading && (data.None? || data.value.transcriptCount <= 0)
    {
      if !Api.Truthy(selectedDealId) then Placeholder
      else if loading then Loading
      else if data.Some? && data.value.transcriptCount > 0 then
        Listing(data.value.dealName, CountLabel(data.value.transcriptCount), data.value.transcripts)
      else NoTranscripts
    }
  }
}
