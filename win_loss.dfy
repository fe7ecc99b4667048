/**
 * The win/loss page: the dimension tabs and stage filter, the breakdown
 * table sorted by win rate on a copy of the data, the bar colours, and
 * the deal table cut at fifty rows.
 */
module WinLoss {
  import opened Wrappers
  import opened Types
  import Api
  import Hooks
  import Overview

  // ---------------------------------------------------------------------
  // Dimensions and the stage filter
  // ---------------------------------------------------------------------

  datatype Dimension = Dimension(key: string, caption: string)

  const Dimensions: seq<Dimension> := [
    Dimension("industry", "Industry"),
    Dimension("deal_size", "Deal Size"),
    Dimension("source", "Source"),
    Dimension("company_size", "Company Size"),
    Dimension("buyer_title", "Buyer Title")]

  /** `ds.find(d => d.key === key)?.label`: the caption of the first
      dimension with that key. */
  function FindCaption(ds: seq<Dimension>, key: string): (c: Option<string>)
    ensures c.Some? <==> exists i :: 0 <= i < |ds| && ds[i].key == key
    ensures c.Some? ==> exists i :: 0 <= i < |ds| && ds[i] == Dimension(key, c.value)
                          && forall j :: 0 <= j < i ==> ds[j].key != key
  {
    if ds == [] then None
    else if ds[0].key == key then Some(ds[0].caption)
    else
      var c := FindCaption(ds[1..], key);
      assert forall i :: 1 <= i < |ds| ==> ds[i] == ds[1..][i - 1];
      if c.Some? then
        var i :| 0 <= i < |ds[1..]| && ds[1..][i] == Dimension(key, c.value)
                 && forall j :: 0 <= j < i ==> ds[1..][j].key != key;
        assert ds[i + 1] == Dimension(key, c.value);
        c
      else c
  }

  /** The caption in the chart's title. */
  function DimensionCaption(key: string): (c: Option<string>)
    ensures c.Some? <==> exists i :: 0 <= i < |Dimensions| && Dimensions[i].key == key
  {
    FindCaption(Dimensions, key)
  }

  /** Every tab's key finds that tab's caption. */
  lemma TabCaptions(i: nat)
    requires i < |Dimensions|
    ensures DimensionCaption(Dimensions[i].key) == Some(Dimensions[i].caption)
  {
    var c := DimensionCaption(Dimensions[i].key);
    var k :| 0 <= k < |Dimensions| && Dimensions[k] == Dimension(Dimensions[i].key, c.value)
             && forall j :: 0 <= j < k ==> Dimensions[j].key != Dimensions[i].key;
    KeysDistinct(i, k);
  }

  /** No two tabs share a key: their first letters already differ. */
  lemma KeysDistinct(i: nat, k: nat)
    requires i < |Dimensions| && k < |Dimensions| && Dimensions[i].key == Dimensions[k].key
    ensures i == k
  {
    assert Dimensions[0].key[0] == 'i' && Dimensions[1].key[0] == 'd' && Dimensions[2].key[0] == 's';
    assert Dimensions[3].key[0] == 'c' && Dimensions[4].key[0] == 'b';
    assert Dimensions[i].key[0] == Dimensions[k].key[0];
  }

  /** The three stage buttons, in order. */
  const StageOptions: seq<string> := ["", "closedwon", "closedlost"]

  /** A stage button's caption. */
  function StageCaption(stage: string): (c: string)
    ensures c == "All" <==> stage == ""
    ensures c == "Won" <==> stage == "closedwon"
    ensures c == "Lost" <==> stage != "" && stage != "closedwon"
  {
    if stage == "" then "All" else if stage == "closedwon" then "Won" else "Lost"
  }

  /** The three buttons read All, Won and Lost. */
  lemma StageCaptions()
    ensures seq(3, i requires 0 <= i < 3 => StageCaption(StageOptions[i])) == ["All", "Won", "Lost"]
  {
  }

  /** The page's two pieces of state: the dimension and the stage filter. */
  class Page {
    var dimension: string
    var stageFilter: string

    constructor()
      ensures dimension == "industry" && stageFilter == ""
    {
      dimension := "industry";
      stageFilter := "";
    }

    /** A dimension tab. */
    method SelectDimension(key: string)
      modifies this
      ensures dimension == key && stageFilter == old(stageFilter)
    {
      dimension := key;
    }

    /** A stage button. */
    method SelectStage(stage: string)
      modifies this
      ensures stageFilter == stage && dimension == old(dimension)
    {
      stageFilter := stage;
    }

    /** `stageFilter ? { stage: stageFilter } : undefined`. */
    function DealsFilter(): (f: Option<Api.DealFilter>)
      reads this
      ensures f.None? <==> stageFilter == ""
      ensures f.Some? ==> f.value == Api.DealFilter(Some(stageFilter), None, None)
    {
      if stageFilter != "" then Some(Api.DealFilter(Some(stageFilter), None, None)) else None
    }

    /** The deals the table asks for: every deal under "All", one stage
        otherwise. */
    function DealsKey(): (c: Hooks.SwrCall)
      reads this
      ensures stageFilter == "" ==> c.key == Some(Hooks.HooksBase + "/deals")
      ensures stageFilter != "" ==> c.key == Some(Hooks.HooksBase + "/deals?stage=" + stageFilter)
    {
      var c := Hooks.Call(Hooks.Deals(DealsFilter()));
      if stageFilter == "" then
        c
      else
        Api.DealParamsStage(stageFilter, None, None);
        assert Api.Pair(("stage", stageFilter)) == "stage=" + stageFilter;
        assert Hooks.HooksBase + ("/deals" + "?" + ("stage=" + stageFilter)) == Hooks.HooksBase + "/deals?stage=" + stageFilter;
        c
    }

    /** Which tab and which stage button are highlighted. */
    predicate TabActive(key: string)
      reads this
    {
      dimension == key
    }

    predicate StageActive(stage: string)
      reads this
    {
      stageFilter == stage
    }
  }

  /** Exactly one stage button is highlighted once one has been clicked. */
  lemma OneStageActive(p: Page, stage: string)
    requires stage in StageOptions && p.stageFilter == stage
    ensures forall k :: 0 <= k < |StageOptions| ==> (p.StageActive(StageOptions[k]) <==> StageOptions[k] == stage)
  {
  }

  // ---------------------------------------------------------------------
  // The breakdown table: a sorted copy
  // ---------------------------------------------------------------------

  predicate SortedByWinRate(s: seq<BreakdownItem>) {
    forall i, j :: 0 <= i < j < |s| ==> s[i].winRate >= s[j].winRate
  }

  /** Exchanges two neighbouring rows. */
  method Swap(a: array<BreakdownItem>, i: nat)
    requires i + 1 < a.Length
    modifies a
    ensures a[i] == old(a[i + 1]) && a[i + 1] == old(a[i])
    ensures forall k :: 0 <= k < a.Length && k != i && k != i + 1 ==> a[k] == old(a[k])
    ensures multiset(a[..]) == multiset(old(a[..]))
  {
    a[i], a[i + 1] := a[i + 1], a[i];
  }

  /** `.sort((a, b) => b.win_rate - a.win_rate)` on the copy: insertion
      sort, moving each row up past the rows with a lower win rate. */
  method SortByWinRate(a: array<BreakdownItem>)
    modifies a
    ensures SortedByWinRate(a[..])
    ensures multiset(a[..]) == multiset(old(a[..]))
  {
    for i := 0 to a.Length
      invariant forall k, l :: 0 <= k < l < i ==> a[k].winRate >= a[l].winRate
      invariant multiset(a[..]) == multiset(old(a[..]))
    {
      var j := i;
      while j > 0 && a[j - 1].winRate < a[j].winRate
        invariant 0 <= j <= i
        invariant forall k, l :: 0 <= k < l <= i && k != j && l != j ==> a[k].winRate >= a[l].winRate
        invariant forall l :: j < l <= i ==> a[j].winRate > a[l].winRate
        invariant multiset(a[..]) == multiset(old(a[..]))
      {
        Swap(a, j - 1);
        j := j - 1;
      }
    }
  }

  /** `[...(breakdown || [])].sort(...)`: a fresh array holding the rows
      largest win rate first; the rows the chart draws stay in the order
      they came in. */
  method SortedCopy(breakdown: array?<BreakdownItem>) returns (rows: array<BreakdownItem>)
    ensures fresh(rows)
    ensures breakdown == null ==> rows.Length == 0
    ensures breakdown != null ==> multiset(rows[..]) == multiset(breakdown[..])
    ensures SortedByWinRate(rows[..])
    ensures breakdown != null ==> breakdown[..] == old(breakdown[..])
  {
    if breakdown == null {
      rows := new BreakdownItem[0];
      return;
    }
    rows := new BreakdownItem[breakdown.Length](i reads breakdown requires 0 <= i < breakdown.Length => breakdown[i]);
    assert rows[..] == breakdown[..];
    SortByWinRate(rows);
  }

  // The page's own `COLORS` holds the overview's six colours in the same
  // order, so bar `i` takes `Overview.SliceColor(i)`.

  /** Any six neighbouring bars have six different colours. */
  lemma NeighbourBarsDiffer(i: nat, j: nat)
    requires i < j < i + 6
    ensures Overview.SliceColor(i) != Overview.SliceColor(j)
  {
    ModSixDiffers(i, j - i);
    var a, b := i % 6, j % 6;
    if a < b { Overview.ColorsDistinct(a, b); } else { Overview.ColorsDistinct(b, a); }
  }

  lemma ModSixDiffers(i: nat, d: nat)
    requires 0 < d < 6
    ensures (i + d) % 6 != i % 6
  {
    var q, r := i / 6, i % 6;
    if r + d < 6 {
      assert i + d == 6 * q + (r + d);
    } else {
      assert i + d == 6 * (q + 1) + (r + d - 6);
    }
  }

  // ---------------------------------------------------------------------
  // The deal table
  // ---------------------------------------------------------------------

  /** A row of the deal table: name, status badge, competitor and loss
      reason (a dash when missing). */
  datatype DealRow = DealRow(name: string, status: string, competitor: string, lossReason: string)

  const Dash := "—"

  /** `value || "—"`. */
  function OrDash(value: Option<string>): (s: string)
    ensures Api.Truthy(value) ==> s == value.value
    ensures !Api.Truthy(value) ==> s == Dash
  {
    if Api.Truthy(value) then value.value else Dash
  }

  /** The status badge. */
  function Status(d: Deal): (s: string)
    ensures s == "Won" <==> d.stage == "closedwon"
    ensures s == "Lost" <==> d.stage != "closedwon"
  {
    if d.stage == "closedwon" then "Won" else "Lost"
  }

  /** `deals?.slice(0, 50).map(...)`: the first fifty deals, in order. */
  function DealRows(deals: Option<seq<Deal>>): (rows: seq<DealRow>)
    ensures deals.None? ==> rows == []
    ensures deals.Some? ==> |rows| == if |deals.value| < 50 then |deals.value| else 50
    ensures forall i :: 0 <= i < |rows| ==>
      rows[i] == DealRow(deals.value[i].name, Status(deals.value[i]),
                         OrDash(deals.value[i].competitor), OrDash(deals.value[i].lossReason))
  {
    match deals
    case None => []
    case Some(ds) =>
      var shown := if |ds| < 50 then ds else ds[..50];
      seq(|shown|, i requires 0 <= i < |shown| =>
        DealRow(shown[i].name, Status(shown[i]), OrDash(shown[i].competitor), OrDash(shown[i].lossReason)))
  }

  /** More deals than fifty never show more rows; fewer all show. */
  lemma RowsCapped(ds: seq<Deal>, extra: seq<Deal>)
    requires |ds| >= 50
    ensures DealRows(Some(ds + extra)) == DealRows(Some(ds))
  {
    assert (ds + extra)[..50] == ds[..50];
  }
}
