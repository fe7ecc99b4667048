/**
 * The competitors page: the heat colours of the table cells, the threat
 * badge, the row selection that opens the detail card, and the card's
 * win/loss bar.
 */
module Competitors {
  import opened Wrappers
  import opened Types
  import Api

  // ---------------------------------------------------------------------
  // Heat colours and threat levels
  // ---------------------------------------------------------------------

  const HeatGood := "bg-emerald-500/30 text-emerald-300"
  const HeatFair := "bg-yellow-500/30 text-yellow-300"
  const HeatPoor := "bg-red-500/30 text-red-300"
  const HeatBusy := "bg-red-500/20 text-red-300"
  const HeatSome := "bg-yellow-500/20 text-yellow-300"
  const HeatNone := "bg-slate-500/20 text-slate-300"

  /** `getHeatColor(value, metric)`: green-to-red for our win rate, red for
      competitors met often, slate for anything else. */
  function HeatColor(value: real, metric: string): (c: string)
    ensures metric == "win_rate" ==>
      && (c == HeatGood <==> value >= 50.0)
      && (c == HeatFair <==> 35.0 <= value < 50.0)
      && (c == HeatPoor <==> value < 35.0)
    ensures metric == "deals_faced" ==>
      && (c == HeatBusy <==> value >= 35.0)
      && (c == HeatSome <==> 25.0 <= value < 35.0)
      && (c == HeatNone <==> value < 25.0)
    ensures metric != "win_rate" && metric != "deals_faced" ==> c == HeatNone
  {
    if metric == "win_rate" then
      if value >= 50.0 then HeatGood
      else if value >= 35.0 then HeatFair
      else HeatPoor
    else if metric == "deals_faced" then
      if value >= 35.0 then HeatBusy
      else if value >= 25.0 then HeatSome
      else HeatNone
    else HeatNone
  }

  /** The badge: its label text and its colour classes. */
  datatype Threat = Threat(text: string, color: string)

  const ThreatHigh := Threat("HIGH", "bg-red-500/20 text-red-400")
  const ThreatMedium := Threat("MEDIUM", "bg-yellow-500/20 text-yellow-400")
  const ThreatLow := Threat("LOW", "bg-emerald-500/20 text-emerald-400")

  /** `getThreatLevel(winRate)`: the less often we win against a
      competitor, the higher the threat. */
  function ThreatLevel(winRate: real): (t: Threat)
    ensures t == ThreatHigh <==> winRate < 35.0
    ensures t == ThreatMedium <==> 35.0 <= winRate < 50.0
    ensures t == ThreatLow <==> winRate >= 50.0
  {
    if winRate < 35.0 then ThreatHigh
    else if winRate < 50.0 then ThreatMedium
    else ThreatLow
  }

  /** The win-rate cell and the threat badge use the same thresholds:
      green exactly when the threat is low, yellow when medium, red when
      high. */
  lemma HeatMatchesThreat(winRate: real)
    ensures HeatColor(winRate, "win_rate") == HeatGood <==> ThreatLevel(winRate) == ThreatLow
    ensures HeatColor(winRate, "win_rate") == HeatFair <==> ThreatLevel(winRate) == ThreatMedium
    ensures HeatColor(winRate, "win_rate") == HeatPoor <==> ThreatLevel(winRate) == ThreatHigh
  {
  }

  /** A higher win rate never raises the threat. */
  lemma ThreatMonotone(a: real, b: real)
    requires a <= b
    ensures ThreatLevel(a) == ThreatLow ==> ThreatLevel(b) == ThreatLow
    ensures ThreatLevel(b) == ThreatHigh ==> ThreatLevel(a) == ThreatHigh
  {
  }

  // ---------------------------------------------------------------------
  // Selection and the detail card
  // ---------------------------------------------------------------------

  /** What a click on the row of `name` leaves selected. */
  function Clicked(selected: Option<string>, name: string): (s: Option<string>)
    ensures s == Some(name) <==> selected != Some(name)
    ensures s.Some? ==> s.value == name
  {
    if selected == Some(name) then None else Some(name)
  }

  /** A second click on the same row undoes the first exactly when that row
      was selected, or nothing was. */
  lemma ClickTwice(selected: Option<string>, name: string)
    ensures Clicked(Clicked(selected, name), name) == selected
            <==> selected.None? || selected == Some(name)
  {
  }

  /** What the detail-card slot holds: nothing, the card of a competitor,
      or the TypeError that `CompetitorDetailCard` throws when `find` gave
      `undefined` and the card reads `competitor.win_rate`. */
  datatype Card = Hidden | Shown(metrics: CompetitorMetrics) | Throws

  /** The selected competitor, `null` at first. */
  class Selection {
    var selected: Option<string>

    constructor()
      ensures selected.None?
    {
      selected := None;
    }

    /** The row's click handler. */
    method Click(name: string)
      modifies this
      ensures selected == Clicked(old(selected), name)
    {
      selected := if selected == Some(name) then None else Some(name);
    }

    /** A row is highlighted when its competitor is the selected one. */
    predicate Highlighted(name: string)
      reads this
    {
      selected == Some(name)
    }

    /** The detail card: rendered when a name is selected (a non-empty
        string) and the list has loaded. It describes the first competitor
        of that name; when the list holds none, the `!` after `find` does
        nothing at run time and rendering the card throws. */
    function DetailCard(competitors: Option<seq<CompetitorMetrics>>): (card: Card)
      reads this
      ensures card.Hidden? <==> !(Api.Truthy(selected) && competitors.Some?)
      ensures card.Shown? ==> Find(competitors.value, selected.value) == Some(card.metrics)
      ensures card.Shown? ==> card.metrics in competitors.value && card.metrics.competitor == selected.value
      ensures card.Throws? <==> Api.Truthy(selected) && competitors.Some?
                                && forall i :: 0 <= i < |competitors.value| ==> competitors.value[i].competitor != selected.value
    {
      if Api.Truthy(selected) && competitors.Some? then
        match Find(competitors.value, selected.value)
        case Some(c) => Shown(c)
        case None => Throws
      else Hidden
    }
  }

  /** `competitors.find(c => c.competitor === name)`: the first competitor
      of that name. */
  function Find(cs: seq<CompetitorMetrics>, name: string): (r: Option<CompetitorMetrics>)
    ensures r.Some? <==> exists i :: 0 <= i < |cs| && cs[i].competitor == name
    ensures r.Some? ==> r.value in cs && r.value.competitor == name
    ensures r.Some? ==> exists i :: 0 <= i < |cs| && cs[i] == r.value && forall j :: 0 <= j < i ==> cs[j].competitor != name
  {
    if cs == [] then None
    else if cs[0].competitor == name then Some(cs[0])
    else
      var r := Find(cs[1..], name);
      assert forall i :: 1 <= i < |cs| ==> cs[i] == cs[1..][i - 1];
      r
  }

  /** At most one row is highlighted, since the selection is one value;
      a click highlights its own row exactly when it was not highlighted. */
  lemma HighlightOne(sel: Selection, a: string, b: string)
    requires a != b
    ensures !(sel.Highlighted(a) && sel.Highlighted(b))
    ensures Clicked(sel.selected, a) == Some(a) <==> !sel.Highlighted(a)
  {
  }

  /** With the row of a named competitor selected, the card describes that
      very competitor. */
  lemma SelectedRowHasCard(sel: Selection, cs: seq<CompetitorMetrics>, i: nat)
    requires i < |cs| && cs[i].competitor != []
    requires sel.selected == Some(cs[i].competitor)
    ensures sel.DetailCard(Some(cs)).Shown?
    ensures sel.DetailCard(Some(cs)).metrics.competitor == cs[i].competitor
  {
  }

  /** A row clicked while an earlier list was shown, followed by a refetch
      whose list no longer names that competitor, makes the card throw. */
  lemma StaleSelectionThrows(sel: Selection, before: Option<string>, name: string, cs: seq<CompetitorMetrics>)
    requires name != [] && before != Some(name)
    requires sel.selected == Clicked(before, name)
    requires forall i :: 0 <= i < |cs| ==> cs[i].competitor != name
    ensures sel.DetailCard(Some(cs)) == Throws
  {
  }

  // ---------------------------------------------------------------------
  // The win/loss bar
  // ---------------------------------------------------------------------

  /** The two widths of the head-to-head bar: the win rate and the rest. */
  function WinLoseSplit(winRate: real): (split: (real, real))
    ensures split.0 + split.1 == 100.0
    ensures split.0 == winRate
    ensures 0.0 <= winRate <= 100.0 ==> 0.0 <= split.1 <= 100.0
  {
    (winRate, 100.0 - winRate)
  }
}
