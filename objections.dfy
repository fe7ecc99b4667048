/**
 * The objections page: the colour band of the win-rate bar, the first
 * three industry chips with a `+N` count for the rest, and the bar
 * colours of the frequency chart.
 */
module Objections {
  import opened Wrappers
  import opened Text
  import opened Types
  import Overview

  /** The colour of the win-rate bar. */
  datatype Band = Teal | Amber | Rose

  /** Above 40 per cent teal, above 25 amber, otherwise rose. */
  function WinRateBand(winRate: real): (b: Band)
    ensures b == Teal <==> winRate > 40.0
    ensures b == Amber <==> 25.0 < winRate <= 40.0
    ensures b == Rose <==> winRate <= 25.0
  {
    if winRate > 40.0 then Teal else if winRate > 25.0 then Amber else Rose
  }

  function BandClass(b: Band): string {
    match b
    case Teal => "bg-teal-500"
    case Amber => "bg-amber-500"
    case Rose => "bg-rose-500"
  }

  /** A better win rate never gets a worse colour. */
  lemma BandMonotone(a: real, b: real)
    requires a <= b
    ensures WinRateBand(a) == Teal ==> WinRateBand(b) == Teal
    ensures WinRateBand(b) == Rose ==> WinRateBand(a) == Rose
  {
  }

  /** The industries cell: at most three chips, then `+N` for the rest. */
  datatype Industries = Industries(chips: seq<string>, overflow: Option<string>)

  function IndustryCell(industries: seq<string>): (cell: Industries)
    ensures |cell.chips| == if |industries| < 3 then |industries| else 3
    ensures cell.chips == industries[..|cell.chips|]
    ensures cell.overflow.Some? <==> |industries| > 3
    ensures cell.overflow.Some? ==> cell.overflow.value == "+" + NatToString(|industries| - 3)
  {
    Industries(
      if |industries| <= 3 then industries else industries[..3],
      if |industries| > 3 then Some("+" + NatToString(|industries| - 3)) else None)
  }

  /** The number after `+`, zero when there is none. */
  function Hidden(cell: Industries): nat {
    match cell.overflow
    case None => 0
    case Some(text) =>
      if |text| >= 1 then DigitsOf(text[1..]) else 0
  }

  function DigitsOf(s: string): nat {
    if forall i :: 0 <= i < |s| ==> IsDigit(s[i]) then DigitsValue(s) else 0
  }

  /** The chips and the `+N` count together account for every industry,
      and every industry is either a chip or counted. */
  lemma ChipsAddUp(industries: seq<string>)
    ensures |IndustryCell(industries).chips| + Hidden(IndustryCell(industries)) == |industries|
    ensures |industries| <= 3 ==> IndustryCell(industries).chips == industries
  {
    var cell := IndustryCell(industries);
    if |industries| > 3 {
      var d := NatToString(|industries| - 3);
      var text := "+" + d;
      assert text[1..] == d;
      NatToStringReadsBack(|industries| - 3);
    } else {
      assert industries[..|industries|] == industries;
    }
  }

  const Colors: seq<string> := ["#0D9488", "#2563EB", "#D946EF", "#F59E0B", "#6366F1", "#EC4899", "#F97316", "#8B5CF6", "#06B6D4", "#10B981"]

  /** `COLORS[i % COLORS.length]` over ten colours. */
  function BarColor(i: nat): (c: string)
    ensures c in Colors
  {
    Colors[i % |Colors|]
  }

  /** The first six bars are coloured as the overview's pie slices are. */
  lemma PaletteExtendsOverview(i: nat)
    requires i < 6
    ensures BarColor(i) == Overview.SliceColor(i)
  {
    assert i % 10 == i && i % 6 == i;
  }

  /** The colours repeat every ten bars. */
  lemma BarColorCycles(i: nat)
    ensures BarColor(i + 10) == BarColor(i)
  {
    assert (i + 10) % 10 == i % 10;
  }

  /** One row of the impact table. */
  datatype Row = Row(objection: string, frequency: nat, band: Band, industries: Industries)

  /** `objections?.map(...)`. */
  function Rows(objections: Option<seq<ObjectionTheme>>): (rows: seq<Row>)
    ensures objections.None? ==> rows == []
    ensures objections.Some? ==> |rows| == |objections.value|
    ensures forall i :: 0 <= i < |rows| ==>
      rows[i] == Row(objections.value[i].objection, objections.value[i].frequency,
                     WinRateBand(objections.value[i].winRateWhenRaised),
                     IndustryCell(objections.value[i].industries))
  {
    match objections
    case None => []
    case Some(os) =>
      seq(|os|, i requires 0 <= i < |os| =>
        Row(os[i].objection, os[i].frequency, WinRateBand(os[i].winRateWhenRaised), IndustryCell(os[i].industries)))
  }
}
