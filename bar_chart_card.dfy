/**
 * The bar chart card (`components/charts/BarChartCard.tsx`): the bars sorted
 * by value in a copy of the data, their total, their colours and the
 * shortened axis labels.
 */
module BarChartCard {
  import opened Wrappers
  import opened Seqs

  datatype BarDataItem = BarDataItem(name: string, value: int, color: Option<string>)

  function Value(item: BarDataItem): int
  {
    item.value
  }

  /** The six fallback colours, used in turn. */
  const DefaultColors: seq<string> := [
    "hsl(220, 90%, 56%)",
    "hsl(142, 71%, 45%)",
    "hsl(38, 92%, 50%)",
    "hsl(4, 90%, 58%)",
    "hsl(262, 83%, 58%)",
    "hsl(333, 71%, 51%)"]

  /** Largest value first. */
  ghost predicate NonIncreasing(s: seq<BarDataItem>)
  {
    forall i, j :: 0 <= i < j < |s| ==> s[i].value >= s[j].value
  }

  /**
   * One step of the stable sort `sort((a, b) => b.value - a.value)`: `x`
   * goes after every larger value and before the rest.
   */
  function Insert(x: BarDataItem, s: seq<BarDataItem>): (r: seq<BarDataItem>)
    ensures multiset(r) == multiset(s) + multiset{x}
    ensures |r| == |s| + 1
    ensures SumBy(r, Value) == x.value + SumBy(s, Value)
    ensures r[0] == x || (s != [] && r[0] == s[0])
  {
    if s == [] then [x]
    else if s[0].value <= x.value then [x] + s
    else
      var rest := Insert(x, s[1..]);
      assert s == [s[0]] + s[1..];
      [s[0]] + rest
  }

  /** A bound on `x` and on every item of `s` bounds every item after inserting. */
  lemma {:induction false} InsertBounded(x: BarDataItem, s: seq<BarDataItem>, b: int)
    requires x.value <= b
    requires forall k :: 0 <= k < |s| ==> s[k].value <= b
    ensures forall k :: 0 <= k < |Insert(x, s)| ==> Insert(x, s)[k].value <= b
  {
    if s != [] && s[0].value > x.value {
      InsertBounded(x, s[1..], b);
    }
  }

  /** Inserting into a sorted list keeps it sorted. */
  lemma {:induction false} InsertKeepsOrder(x: BarDataItem, s: seq<BarDataItem>)
    requires NonIncreasing(s)
    ensures NonIncreasing(Insert(x, s))
  {
    if s != [] && s[0].value > x.value {
      InsertKeepsOrder(x, s[1..]);
      InsertBounded(x, s[1..], s[0].value);
      var rest := Insert(x, s[1..]);
      assert Insert(x, s) == [s[0]] + rest;
    }
  }

  /** `[...data].sort(...)`: a copy in non-increasing order with the same items. */
  function SortedData(data: seq<BarDataItem>): (r: seq<BarDataItem>)
    ensures multiset(r) == multiset(data)
    ensures |r| == |data|
    ensures NonIncreasing(r)
    ensures SumBy(r, Value) == SumBy(data, Value)
  {
    if data == [] then []
    else
      var r := Insert(data[0], SortedData(data[1..]));
      InsertKeepsOrder(data[0], SortedData(data[1..]));
      assert data == [data[0]] + data[1..];
      r
  }

  /** `total`, summed over the sorted copy: it is the sum over the data as given. */
  function Total(data: seq<BarDataItem>): (t: int)
    ensures t == SumBy(data, Value)
  {
    SumBy(SortedData(data), Value)
  }

  /** A bar's colour: its own when set and non-empty, else the palette entry for its position. */
  function BarColor(item: BarDataItem, index: nat): (c: string)
    ensures item.color.Some? && item.color.value != "" ==> c == item.color.value
    ensures item.color.None? || item.color.value == "" ==> c == DefaultColors[index % 6]
  {
    if item.color.Some? && item.color.value != "" then item.color.value else DefaultColors[index % |DefaultColors|]
  }

  /** The chart's three parallel lists: labels, values and colours, in sorted order. */
  datatype ChartData = ChartData(labels: seq<string>, values: seq<int>, colors: seq<string>)

  function Chart(data: seq<BarDataItem>): (c: ChartData)
    ensures |c.labels| == |data| && |c.values| == |data| && |c.colors| == |data|
    ensures forall i :: 0 <= i < |data| ==>
      c.labels[i] == SortedData(data)[i].name && c.values[i] == SortedData(data)[i].value
      && c.colors[i] == BarColor(SortedData(data)[i], i)
    ensures forall i, j :: 0 <= i < j < |data| ==> c.values[i] >= c.values[j]
  {
    var sorted := SortedData(data);
    ChartData(
      seq(|sorted|, i requires 0 <= i < |sorted| => sorted[i].name),
      seq(|sorted|, i requires 0 <= i < |sorted| => sorted[i].value),
      seq(|sorted|, i requires 0 <= i < |sorted| => BarColor(sorted[i], i)))
  }

  /** Bars without a colour of their own are coloured in turn, repeating after six. */
  lemma PaletteRepeats(data: seq<BarDataItem>, i: nat)
    requires i + 6 < |data|
    requires SortedData(data)[i].color.None? && SortedData(data)[i + 6].color.None?
    ensures Chart(data).colors[i] == Chart(data).colors[i + 6]
  {
    var c := Chart(data);
    var sorted := SortedData(data);
    assert c.colors[i] == BarColor(sorted[i], i);
    assert c.colors[i + 6] == BarColor(sorted[i + 6], i + 6);
    SixApart(i);
  }

  lemma SixApart(i: nat)
    ensures (i + 6) % 6 == i % 6
  {
  }

  /** The x-axis label: at most fifteen characters, with "..." after a cut. */
  function TickLabel(name: string): (text: string)
    ensures |name| <= 15 ==> text == name
    ensures |name| > 15 ==> |text| == 18 && text[..15] == name[..15] && text[15..] == "..."
  {
    if |name| > 15 then name[..15] + "..." else name
  }

  /** No label is longer than eighteen characters, and each starts like its name. */
  lemma TickLabelShort(name: string)
    ensures |TickLabel(name)| <= 18
    ensures |name| > 15 ==> name[..15] <= TickLabel(name)
    ensures |name| <= 15 ==> name <= TickLabel(name)
  {
  }

  /** The "no data" placeholder is shown exactly when the data is empty. */
  function ShowsNoData(data: seq<BarDataItem>): (empty: bool)
    ensures empty <==> data == []
  {
    |SortedData(data)| == 0
  }

  /** Sorting a sorted copy again changes nothing. */
  lemma {:induction false} SortedDataIdempotent(data: seq<BarDataItem>)
    requires NonIncreasing(data)
    ensures SortedData(data) == data
  {
    if data != [] {
      SortedDataIdempotent(data[1..]);
      assert data == [data[0]] + data[1..];
    }
  }
}
