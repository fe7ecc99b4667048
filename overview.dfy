/**
 * The overview page: the top loss reasons drawn from the fifty most
 * recent deals, their pie colours, and the trend arrow on the win-rate
 * card.
 */
module Overview {
  import opened Wrappers
  import opened Types
  import Api
  import Hooks
  import Text

  // ---------------------------------------------------------------------
  // Counting loss reasons
  // ---------------------------------------------------------------------

  /** A loss-reason slice: a reason and how many deals were lost to it. */
  datatype Entry = Entry(name: string, value: nat)

  /** The filter: a lost deal whose loss reason is set and non-empty. */
  predicate Counted(d: Deal) {
    d.stage == "closedlost" && Api.Truthy(d.lossReason)
  }

  /** The deals whose stage is `closedlost`, with or without a reason. */
  function LostCount(deals: seq<Deal>): (n: nat)
    ensures n <= |deals|
    decreases |deals|
  {
    if deals == [] then 0
    else LostCount(deals[..|deals| - 1]) + (if deals[|deals| - 1].stage == "closedlost" then 1 else 0)
  }

  /** `deals.filter(d => d.stage === "closedlost" && d.loss_reason)`. */
  function Lost(deals: seq<Deal>): (f: seq<Deal>)
    ensures forall d :: d in f <==> d in deals && Counted(d)
    ensures |f| <= LostCount(deals)
    decreases |deals|
  {
    if deals == [] then []
    else
      var init := deals[..|deals| - 1];
      var d := deals[|deals| - 1];
      assert deals == init + [d];
      Lost(init) + (if Counted(d) then [d] else [])
  }

  /** How many of the deals in `s` name `reason` as their loss reason. */
  function Tally(s: seq<Deal>, reason: string): (n: nat)
    ensures n <= |s|
    decreases |s|
  {
    if s == [] then 0
    else Tally(s[..|s| - 1], reason) + (if s[|s| - 1].lossReason == Some(reason) then 1 else 0)
  }

  /** The reference count: the deals lost to `reason`, read straight off
      the input. */
  function Count(deals: seq<Deal>, reason: string): nat
    decreases |deals|
  {
    if deals == [] then 0
    else
      var d := deals[|deals| - 1];
      Count(deals[..|deals| - 1], reason)
        + (if d.stage == "closedlost" && reason != [] && d.lossReason == Some(reason) then 1 else 0)
  }

  /** Counting over the filtered list gives the reference count. */
  lemma {:induction false} TallyLost(deals: seq<Deal>, reason: string)
    ensures Tally(Lost(deals), reason) == Count(deals, reason)
    decreases |deals|
  {
    if deals != [] {
      var init := deals[..|deals| - 1];
      var d := deals[|deals| - 1];
      TallyLost(init, reason);
      TallyAppend(Lost(init), if Counted(d) then [d] else [], reason);
    }
  }

  lemma {:induction false} TallyAppend(a: seq<Deal>, b: seq<Deal>, reason: string)
    requires |b| <= 1
    ensures Tally(a + b, reason) == Tally(a, reason) + Tally(b, reason)
  {
    if b != [] {
      assert (a + b)[..|a + b| - 1] == a;
      assert b[..0] == [];
    } else {
      assert a + b == a;
    }
  }

  /** One more deal in the prefix. */
  lemma TallyStep(s: seq<Deal>, i: nat, reason: string)
    requires i < |s|
    ensures Tally(s[..i + 1], reason) == Tally(s[..i], reason) + (if s[i].lossReason == Some(reason) then 1 else 0)
  {
    assert s[..i + 1][..i] == s[..i];
  }

  /** `reduce`: the counts of the filtered deals, in a dictionary that is
      updated one deal at a time, with the reasons in the order they were
      first seen (the order `Object.entries` lists string keys in). */
  method CountReasons(lost: seq<Deal>) returns (acc: map<string, nat>, order: seq<string>)
    ensures forall r :: r in acc <==> Tally(lost, r) > 0
    ensures forall r :: r in acc ==> acc[r] == Tally(lost, r)
    ensures forall r :: r in order <==> r in acc
    ensures forall i, j :: 0 <= i < j < |order| ==> order[i] != order[j]
  {
    acc := map[];
    order := [];
    for i := 0 to |lost|
      invariant forall r :: r in acc <==> Tally(lost[..i], r) > 0
      invariant forall r :: r in acc ==> acc[r] == Tally(lost[..i], r)
      invariant forall r :: r in order <==> r in acc
      invariant forall a, b :: 0 <= a < b < |order| ==> order[a] != order[b]
    {
      forall r {
        TallyStep(lost, i, r);
      }
      match lost[i].lossReason {
        case Some(reason) =>
          if reason !in acc {
            order := order + [reason];
          }
          acc := acc[reason := (if reason in acc then acc[reason] else 0) + 1];
        case None =>
      }
    }
    assert lost[..|lost|] == lost;
  }

  // ---------------------------------------------------------------------
  // Sorting by value
  // ---------------------------------------------------------------------

  predicate NonIncreasing(s: seq<Entry>) {
    forall i, j :: 0 <= i < j < |s| ==> s[i].value >= s[j].value
  }

  predicate DistinctNames(s: seq<Entry>) {
    forall i, j :: 0 <= i < j < |s| ==> s[i].name != s[j].name
  }

  /** Puts `e` before the first entry of `t` it is not smaller than, so
      equal values keep their order. */
  function InsertDesc(e: Entry, t: seq<Entry>): (r: seq<Entry>)
    ensures |r| == |t| + 1
    ensures multiset(r) == multiset(t) + multiset{e}
  {
    if t == [] || e.value >= t[0].value then [e] + t
    else
      assert t == [t[0]] + t[1..];
      [t[0]] + InsertDesc(e, t[1..])
  }

  /** Inserting into a list sorted largest first keeps it sorted. */
  lemma {:induction false} InsertDescSorted(e: Entry, t: seq<Entry>)
    requires NonIncreasing(t)
    ensures NonIncreasing(InsertDesc(e, t))
  {
    if t != [] && e.value < t[0].value {
      var rest := InsertDesc(e, t[1..]);
      InsertDescSorted(e, t[1..]);
      forall k | 0 <= k < |rest| ensures t[0].value >= rest[k].value {
        assert rest[k] in multiset(rest);
        if rest[k] != e {
          assert rest[k] in t[1..];
        }
      }
    }
  }

  /** Inserting an entry under a new name keeps the names distinct. */
  lemma {:induction false} InsertDescDistinct(e: Entry, t: seq<Entry>)
    requires DistinctNames(t)
    requires forall k :: 0 <= k < |t| ==> t[k].name != e.name
    ensures DistinctNames(InsertDesc(e, t))
  {
    if t != [] && e.value < t[0].value {
      var rest := InsertDesc(e, t[1..]);
      InsertDescDistinct(e, t[1..]);
      forall k | 0 <= k < |rest| ensures t[0].name != rest[k].name {
        assert rest[k] in multiset(rest);
        if rest[k] != e {
          assert rest[k] in t[1..];
        }
      }
    }
  }

  /** `sort((a, b) => b.value - a.value)`: a stable sort, largest first. */
  function SortDesc(s: seq<Entry>): (r: seq<Entry>)
    ensures |r| == |s|
    ensures multiset(r) == multiset(s)
  {
    if s == [] then []
    else
      assert s == [s[0]] + s[1..];
      InsertDesc(s[0], SortDesc(s[1..]))
  }

  /** The sort leaves its result largest first. */
  lemma {:induction false} SortDescSorted(s: seq<Entry>)
    ensures NonIncreasing(SortDesc(s))
  {
    if s != [] {
      SortDescSorted(s[1..]);
      InsertDescSorted(s[0], SortDesc(s[1..]));
    }
  }

  /** The sort never puts one name in two entries. */
  lemma {:induction false} SortDescDistinct(s: seq<Entry>)
    requires DistinctNames(s)
    ensures DistinctNames(SortDesc(s))
  {
    if s != [] {
      var rest := SortDesc(s[1..]);
      SortDescDistinct(s[1..]);
      forall k | 0 <= k < |rest| ensures rest[k].name != s[0].name {
        assert rest[k] in multiset(rest);
        var j :| 0 <= j < |s[1..]| && s[1..][j] == rest[k];
        assert s[j + 1] == rest[k];
      }
      InsertDescDistinct(s[0], rest);
    }
  }

  // ---------------------------------------------------------------------
  // The top six
  // ---------------------------------------------------------------------

  function SumValues(s: seq<Entry>): nat {
    if s == [] then 0 else s[0].value + SumValues(s[1..])
  }

  function NameSet(s: seq<Entry>): set<string> {
    set i | 0 <= i < |s| :: s[i].name
  }

  /** How many deals in `s` have a loss reason in `names`. */
  function TallyIn(s: seq<Deal>, names: set<string>): (n: nat)
    ensures n <= |s|
    decreases |s|
  {
    if s == [] then 0
    else
      var d := s[|s| - 1];
      TallyIn(s[..|s| - 1], names) + (if d.lossReason.Some? && d.lossReason.value in names then 1 else 0)
  }

  lemma {:induction false} TallyInSplit(s: seq<Deal>, a: string, names: set<string>)
    requires a !in names
    ensures TallyIn(s, names + {a}) == Tally(s, a) + TallyIn(s, names)
    decreases |s|
  {
    if s != [] {
      TallyInSplit(s[..|s| - 1], a, names);
    }
  }

  /** Distinct reasons count disjoint sets of deals, so their counts add
      up to at most the number of deals counted. */
  lemma {:induction false} SumTallies(lost: seq<Deal>, es: seq<Entry>)
    requires DistinctNames(es)
    requires forall i :: 0 <= i < |es| ==> es[i].value == Tally(lost, es[i].name)
    ensures SumValues(es) == TallyIn(lost, NameSet(es))
  {
    if es == [] {
      assert NameSet(es) == {};
      TallyInNone(lost);
    } else {
      var rest := es[1..];
      SumTallies(lost, rest);
      assert NameSet(es) == NameSet(rest) + {es[0].name} by {
        forall n | n in NameSet(es) ensures n in NameSet(rest) + {es[0].name} {
          var i :| 0 <= i < |es| && es[i].name == n;
          if i > 0 { assert rest[i - 1].name == n; }
        }
        forall n | n in NameSet(rest) ensures n in NameSet(es) {
          var i :| 0 <= i < |rest| && rest[i].name == n;
          assert es[i + 1].name == n;
        }
        assert es[0].name in NameSet(es);
      }
      forall n | n in NameSet(rest) ensures n != es[0].name {
        var i :| 0 <= i < |rest| && rest[i].name == n;
        assert rest[i] == es[i + 1];
      }
      TallyInSplit(lost, es[0].name, NameSet(rest));
    }
  }

  lemma {:induction false} TallyInNone(s: seq<Deal>)
    ensures TallyIn(s, {}) == 0
    decreases |s|
  {
    if s != [] {
      TallyInNone(s[..|s| - 1]);
    }
  }

  function Min(a: nat, b: nat): nat {
    if a <= b then a else b
  }

  /** `Object.entries(counts).map(([name, value]) => ({ name, value }))`. */
  function EntriesOf(acc: map<string, nat>, order: seq<string>): (es: seq<Entry>)
    requires forall r :: r in order ==> r in acc
    ensures |es| == |order|
    ensures forall i :: 0 <= i < |es| ==> es[i].name == order[i] && es[i].value == acc[order[i]]
  {
    seq(|order|, i requires 0 <= i < |order| => Entry(order[i], acc[order[i]]))
  }

  /** Cutting a sorted list after six keeps everything not smaller than
      the sixth entry: whatever is left out comes after it. */
  lemma TopSixComplete(sorted: seq<Entry>, x: Entry)
    requires NonIncreasing(sorted) && x in sorted
    requires x.name !in NameSet(sorted[..Min(6, |sorted|)])
    ensures |sorted| > 6 && x.value <= sorted[5].value
  {
    var j :| 0 <= j < |sorted| && sorted[j] == x;
  }

  /** What the count dictionary holds once every deal is counted. */
  ghost predicate CountsOf(deals: seq<Deal>, acc: map<string, nat>, order: seq<string>) {
    && (forall x :: x in acc <==> Count(deals, x) > 0)
    && (forall x :: x in acc ==> acc[x] == Count(deals, x))
    && (forall x :: x in order <==> x in acc)
    && (forall i, j :: 0 <= i < j < |order| ==> order[i] != order[j])
  }

  /** The dictionary built from the filtered deals holds the reference
      counts. */
  lemma CountedAll(deals: seq<Deal>, acc: map<string, nat>, order: seq<string>)
    requires forall r :: r in acc <==> Tally(Lost(deals), r) > 0
    requires forall r :: r in acc ==> acc[r] == Tally(Lost(deals), r)
    requires forall r :: r in order <==> r in acc
    requires forall i, j :: 0 <= i < j < |order| ==> order[i] != order[j]
    ensures CountsOf(deals, acc, order)
  {
    forall x ensures Tally(Lost(deals), x) == Count(deals, x) {
      TallyLost(deals, x);
    }
  }

  /** Slices under distinct names with exact counts add up to no more than
      the lost deals. */
  lemma SumBound(deals: seq<Deal>, es: seq<Entry>)
    requires DistinctNames(es)
    requires forall i :: 0 <= i < |es| ==> es[i].value == Count(deals, es[i].name)
    ensures SumValues(es) <= LostCount(deals)
  {
    forall i | 0 <= i < |es| ensures es[i].value == Tally(Lost(deals), es[i].name) {
      TallyLost(deals, es[i].name);
    }
    SumTallies(Lost(deals), es);
  }

  /** The slices cut from the sorted entries carry exact counts, distinct
      names, largest first. */
  lemma SlicesExact(deals: seq<Deal>, acc: map<string, nat>, order: seq<string>, sorted: seq<Entry>)
    requires CountsOf(deals, acc, order)
    requires sorted == SortDesc(EntriesOf(acc, order))
    ensures forall i :: 0 <= i < |sorted| ==> sorted[i].value == Count(deals, sorted[i].name) > 0
    ensures DistinctNames(sorted) && NonIncreasing(sorted)
  {
    var entries := EntriesOf(acc, order);
    SortDescSorted(entries);
    SortDescDistinct(entries);
    forall i | 0 <= i < |sorted| ensures sorted[i].value == Count(deals, sorted[i].name) > 0 {
      assert sorted[i] in multiset(sorted);
    }
  }

  /** No reason with a count is missing from the sorted entries. */
  lemma SlicesCover(deals: seq<Deal>, acc: map<string, nat>, order: seq<string>, sorted: seq<Entry>, x: string)
    requires CountsOf(deals, acc, order)
    requires sorted == SortDesc(EntriesOf(acc, order))
    requires Count(deals, x) > 0
    ensures Entry(x, Count(deals, x)) in sorted
  {
    var entries := EntriesOf(acc, order);
    var k :| 0 <= k < |order| && order[k] == x;
    assert entries[k] == Entry(x, Count(deals, x));
    assert entries[k] in multiset(sorted);
  }

  /** A prefix of the sorted entries keeps their properties. */
  lemma PrefixKeeps(deals: seq<Deal>, sorted: seq<Entry>, r: seq<Entry>)
    requires forall i :: 0 <= i < |sorted| ==> sorted[i].value == Count(deals, sorted[i].name) > 0
    requires DistinctNames(sorted) && NonIncreasing(sorted)
    requires |r| <= |sorted| && r == sorted[..|r|]
    ensures forall i :: 0 <= i < |r| ==> r[i].value == Count(deals, r[i].name) > 0
    ensures DistinctNames(r) && NonIncreasing(r)
  {
    assert forall i :: 0 <= i < |r| ==> r[i] == sorted[i];
  }

  /** Whatever the first six leave out counts no more than the sixth. */
  lemma TopSixCovers(deals: seq<Deal>, sorted: seq<Entry>, r: seq<Entry>)
    requires NonIncreasing(sorted)
    requires forall x :: Count(deals, x) > 0 ==> Entry(x, Count(deals, x)) in sorted
    requires r == sorted[..Min(6, |sorted|)]
    ensures forall x :: Count(deals, x) > 0 && x !in NameSet(r) ==> |r| == 6 && Count(deals, x) <= r[5].value
  {
    forall x | Count(deals, x) > 0 && x !in NameSet(r)
      ensures |r| == 6 && Count(deals, x) <= r[5].value
    {
      TopSixComplete(sorted, Entry(x, Count(deals, x)));
    }
  }

  /** The pie data: `Object.entries(counts).map(...).sort(...).slice(0, 6)`
      when the deals have arrived, nothing before. Every slice is a reason
      with its exact count, no reason twice, largest first; any reason left
      out lost no more deals than the smallest slice shown. */
  method LossReasons(allDeals: Option<seq<Deal>>) returns (r: seq<Entry>)
    ensures allDeals.None? ==> r == []
    ensures |r| <= 6
    ensures forall i :: 0 <= i < |r| ==> r[i].value == Count(allDeals.value, r[i].name) > 0
    ensures DistinctNames(r)
    ensures NonIncreasing(r)
    ensures allDeals.Some? ==> forall x :: Count(allDeals.value, x) > 0 && x !in NameSet(r) ==>
              |r| == 6 && Count(allDeals.value, x) <= r[5].value
    ensures allDeals.Some? ==> SumValues(r) <= LostCount(allDeals.value)
  {
    if allDeals.None? {
      return [];
    }
    var deals := allDeals.value;
    var lost := Lost(deals);
    var acc, order := CountReasons(lost);
    CountedAll(deals, acc, order);
    var sorted := SortDesc(EntriesOf(acc, order));
    SlicesExact(deals, acc, order, sorted);
    forall x | Count(deals, x) > 0 ensures Entry(x, Count(deals, x)) in sorted {
      SlicesCover(deals, acc, order, sorted, x);
    }
    r := sorted[..Min(6, |sorted|)];
    PrefixKeeps(deals, sorted, r);
    TopSixCovers(deals, sorted, r);
    SumBound(deals, r);
  }

  // ---------------------------------------------------------------------
  // Colours and the trend arrow
  // ---------------------------------------------------------------------

  const Colors: seq<string> := ["#0D9488", "#2563EB", "#D946EF", "#F59E0B", "#6366F1", "#EC4899"]

  /** `COLORS[i % COLORS.length]`: the colours repeat every six slices. */
  function SliceColor(i: nat): (c: string)
    ensures c in Colors
  {
    Colors[i % |Colors|]
  }

  /** The colours repeat every six slices. */
  lemma SliceColorCycles(i: nat)
    ensures SliceColor(i + |Colors|) == SliceColor(i)
  {
  }

  /** The six colours differ: their second characters already do. */
  lemma ColorsDistinct(a: nat, b: nat)
    requires a < b < |Colors|
    ensures Colors[a] != Colors[b]
  {
    assert Colors[0][1] == '0' && Colors[1][1] == '2' && Colors[2][1] == 'D';
    assert Colors[3][1] == 'F' && Colors[4][1] == '6' && Colors[5][1] == 'E';
    assert Colors[a][1] != Colors[b][1];
  }

  /** At most six slices are drawn, so no two share a colour. */
  lemma SliceColorsDistinct(i: nat, j: nat)
    requires i < j < 6
    ensures SliceColor(i) != SliceColor(j)
  {
    assert i % 6 == i && j % 6 == j;
    ColorsDistinct(i, j);
  }

  datatype Trend = Up | Down

  /** The win-rate card points up above 45 per cent, down at 45 and
      below. */
  function WinRateTrend(winRate: real): (t: Trend)
    ensures t == Up <==> winRate > 45.0
  {
    if winRate > 45.0 then Up else Down
  }

  /** A higher win rate never turns the arrow from up to down. */
  lemma TrendMonotone(a: real, b: real)
    requires a <= b && WinRateTrend(a) == Up
    ensures WinRateTrend(b) == Up
  {
  }

  /** The page reads two lists of recent deals, eight for the table and
      fifty for the loss reasons, under different cache keys. */
  lemma RecentDealKeysDistinct()
    ensures Hooks.Call(Hooks.RecentDeals(8)).key != Hooks.Call(Hooks.RecentDeals(50)).key
  {
    var k8 := Hooks.Call(Hooks.RecentDeals(8)).key.value;
    var k50 := Hooks.Call(Hooks.RecentDeals(50)).key.value;
    assert |Text.NatToString(50)| == 2 by {
      assert Text.NatToString(5) == "5";
    }
    assert |Text.NatToString(8)| == 1;
    assert |k8| != |k50|;
  }
}
