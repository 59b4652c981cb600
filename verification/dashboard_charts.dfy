/** The aggregation behind the dashboard charts: from the current analysis's
    segments it builds the chart configuration, one bar per segment, the
    scatter points and the total customer count. The scatter coordinates are
    random jitter in the source and are not modelled; a point keeps only its
    cluster name and colour. */
module DashboardCharts {
  import opened Wrappers
  import opened Entities

  /** Number of chart colours in the theme, `--chart-1` to `--chart-5`. */
  const PaletteSize: nat := 5

  const ChartColorPrefix: string := "hsl(var(--chart-"

  /** The theme's colour variable number `k`, as an HSL colour. */
  function ChartColor(k: nat): string
    requires 1 <= k <= PaletteSize
  {
    ChartColorPrefix + [('0' as int + k) as char] + "))"
  }

  /** Where the colour number sits in a `ChartColor` string. */
  const ColorDigitPosition: nat := |ChartColorPrefix|

  /** The palette index of the segment at position `i`; the palette is reused
      cyclically. */
  function ColorIndex(i: nat): nat {
    i % PaletteSize + 1
  }

  function SegmentColor(i: nat): string {
    ChartColor(ColorIndex(i))
  }

  lemma ColorIndexInPalette(i: nat)
    ensures 1 <= ColorIndex(i) <= PaletteSize
  {
  }

  /** Colours repeat with period five and differ between positions in
      different residue classes. */
  lemma {:induction false} SegmentColorPeriodic(i: nat, j: nat)
    ensures SegmentColor(i) == SegmentColor(i + PaletteSize)
    ensures SegmentColor(i) == SegmentColor(j) <==> i % PaletteSize == j % PaletteSize
  {
    if SegmentColor(i) == SegmentColor(j) {
      assert SegmentColor(i)[ColorDigitPosition] == SegmentColor(j)[ColorDigitPosition];
    }
  }

  /** A `ChartConfig` entry; its `label` is `caption` here; the "size" entry has a caption but no colour. */
  datatype ConfigEntry = ConfigEntry(caption: string, color: Option<string>)

  datatype BarEntry = BarEntry(name: string, size: int, fill: string)

  /** One scatter point, without its random coordinates. */
  datatype ScatterPoint = ScatterPoint(cluster: string, fill: Option<string>)

  datatype ChartData = ChartData(
    config: map<string, ConfigEntry>,
    bars: seq<BarEntry>,
    scatter: seq<ScatterPoint>,
    totalCustomers: int)

  const SizeKey: string := "size"
  const SizeEntry: ConfigEntry := ConfigEntry("Size", None)

  // ---------------------------------------------------------------------------
  // Reference definitions of what the aggregation produces

  function SumSizes(segs: seq<Segment>): int {
    if segs == [] then 0 else SumSizes(segs[..|segs| - 1]) + segs[|segs| - 1].size
  }

  /** The number of points the inner loop adds for a segment: its size, or
      none when the size is negative. */
  function PointCount(size: int): nat {
    if size < 0 then 0 else size
  }

  function SumPointCounts(segs: seq<Segment>): nat {
    if segs == [] then 0 else SumPointCounts(segs[..|segs| - 1]) + PointCount(segs[|segs| - 1].size)
  }

  /** Index in the scatter list of the first point of segment `i`. */
  function PointsBefore(segs: seq<Segment>, i: nat): nat
    requires i <= |segs|
  {
    SumPointCounts(segs[..i])
  }

  /** Segment `i`'s points end where segment `i + 1`'s begin, inside the list. */
  lemma {:induction false} PointsBeforeStep(segs: seq<Segment>, i: nat)
    requires i < |segs|
    ensures PointsBefore(segs, i + 1) == PointsBefore(segs, i) + PointCount(segs[i].size)
    ensures PointsBefore(segs, i + 1) <= SumPointCounts(segs)
  {
    assert segs[..i + 1][..i] == segs[..i];
    SumPointCountsMonotone(segs, i + 1, |segs|);
    assert segs[..|segs|] == segs;
  }

  function BarFor(seg: Segment, i: nat): BarEntry {
    BarEntry(seg.name, seg.size, SegmentColor(i))
  }

  function PointFor(seg: Segment, i: nat): ScatterPoint {
    ScatterPoint(seg.name, Some(SegmentColor(i)))
  }

  function Repeat<T>(x: T, n: nat): (r: seq<T>)
    ensures |r| == n && forall k | 0 <= k < n :: r[k] == x
  {
    seq(n, _ => x)
  }

  function ScatterOf(segs: seq<Segment>): seq<ScatterPoint> {
    if segs == [] then []
    else
      var i := |segs| - 1;
      ScatterOf(segs[..i]) + Repeat(PointFor(segs[i], i), PointCount(segs[i].size))
  }

  function ConfigOf(segs: seq<Segment>): map<string, ConfigEntry> {
    if segs == [] then map[SizeKey := SizeEntry]
    else
      var i := |segs| - 1;
      ConfigOf(segs[..i])[segs[i].name := ConfigEntry(segs[i].name, Some(SegmentColor(i)))]
  }

  function NameSet(segs: seq<Segment>): set<string> {
    set seg | seg in segs :: seg.name
  }

  /** The position of the last segment called `n`. */
  function LastIndex(segs: seq<Segment>, n: string): (k: nat)
    requires n in NameSet(segs)
    ensures k < |segs| && segs[k].name == n
    ensures forall j | k < j < |segs| :: segs[j].name != n
  {
    var i := |segs| - 1;
    if segs[i].name == n then i
    else
      assert n in NameSet(segs[..i]) by {
        var seg :| seg in segs && seg.name == n;
        var m :| 0 <= m < |segs| && segs[m] == seg;
        assert segs[..i][m] == seg;
      }
      LastIndex(segs[..i], n)
  }

  /** What the chart data built from `segs` is: one bar per segment in order,
      the sum of the sizes, `max(0, size)` points per segment in order, and a
      config entry per name holding the colour of the name's last occurrence. */
  predicate IsSegmentChart(segs: seq<Segment>, d: ChartData) {
    && |d.bars| == |segs|
    && (forall i | 0 <= i < |segs| :: d.bars[i] == BarFor(segs[i], i))
    && d.totalCustomers == SumSizes(segs)
    && |d.scatter| == SumPointCounts(segs)
    && (forall i | 0 <= i < |segs| ::
          && PointsBefore(segs, i) + PointCount(segs[i].size) <= |d.scatter|
          && d.scatter[PointsBefore(segs, i)..PointsBefore(segs, i) + PointCount(segs[i].size)]
               == Repeat(PointFor(segs[i], i), PointCount(segs[i].size)))
    && d.config.Keys == {SizeKey} + NameSet(segs)
    && (forall n | n in NameSet(segs) ::
          d.config[n] == ConfigEntry(n, Some(SegmentColor(LastIndex(segs, n)))))
    && (SizeKey !in NameSet(segs) ==> d.config[SizeKey] == SizeEntry)
  }

  // ---------------------------------------------------------------------------
  // Lemmas about the reference definitions

  lemma {:induction false} ScatterLength(segs: seq<Segment>)
    ensures |ScatterOf(segs)| == SumPointCounts(segs)
  {
    if segs != [] {
      ScatterLength(segs[..|segs| - 1]);
    }
  }

  lemma {:induction false} SumPointCountsMonotone(segs: seq<Segment>, i: nat, j: nat)
    requires i <= j <= |segs|
    ensures SumPointCounts(segs[..i]) <= SumPointCounts(segs[..j])
    decreases j
  {
    if i < j {
      assert segs[..j][..j - 1] == segs[..j - 1];
      SumPointCountsMonotone(segs, i, j - 1);
    }
  }

  /** Segment `i`'s points are the block of the scatter list that starts after
      the points of the segments before it. */
  lemma {:induction false} ScatterBlock(segs: seq<Segment>, i: nat)
    requires i < |segs|
    ensures PointsBefore(segs, i) + PointCount(segs[i].size) <= |ScatterOf(segs)|
    ensures ScatterOf(segs)[PointsBefore(segs, i)..PointsBefore(segs, i) + PointCount(segs[i].size)]
         == Repeat(PointFor(segs[i], i), PointCount(segs[i].size))
  {
    var last := |segs| - 1;
    var init := segs[..last];
    ScatterLength(segs);
    ScatterLength(init);
    PointsBeforeStep(segs, i);
    if i == last {
      assert segs[..i] == init;
    } else {
      assert init[..i] == segs[..i] && init[i] == segs[i];
      ScatterBlock(init, i);
    }
  }

  lemma NameSetSnoc(segs: seq<Segment>)
    requires segs != []
    ensures NameSet(segs) == NameSet(segs[..|segs| - 1]) + {segs[|segs| - 1].name}
  {
    assert segs == segs[..|segs| - 1] + [segs[|segs| - 1]];
  }

  lemma {:induction false} ConfigKeys(segs: seq<Segment>)
    ensures ConfigOf(segs).Keys == {SizeKey} + NameSet(segs)
  {
    if segs != [] {
      ConfigKeys(segs[..|segs| - 1]);
      NameSetSnoc(segs);
    }
  }

  lemma {:induction false} ConfigEntryOf(segs: seq<Segment>, n: string)
    requires n in NameSet(segs)
    ensures n in ConfigOf(segs)
    ensures ConfigOf(segs)[n] == ConfigEntry(n, Some(SegmentColor(LastIndex(segs, n))))
  {
    var i := |segs| - 1;
    if segs[i].name != n {
      NameSetSnoc(segs);
      ConfigEntryOf(segs[..i], n);
    }
  }

  lemma {:induction false} ConfigSizeEntry(segs: seq<Segment>)
    requires SizeKey !in NameSet(segs)
    ensures SizeKey in ConfigOf(segs) && ConfigOf(segs)[SizeKey] == SizeEntry
  {
    if segs != [] {
      NameSetSnoc(segs);
      ConfigSizeEntry(segs[..|segs| - 1]);
    }
  }

  lemma ConfigShape(segs: seq<Segment>)
    ensures ConfigOf(segs).Keys == {SizeKey} + NameSet(segs)
    ensures forall n | n in NameSet(segs) ::
      ConfigOf(segs)[n] == ConfigEntry(n, Some(SegmentColor(LastIndex(segs, n))))
    ensures SizeKey !in NameSet(segs) ==> ConfigOf(segs)[SizeKey] == SizeEntry
  {
    ConfigKeys(segs);
    forall n | n in NameSet(segs) {
      ConfigEntryOf(segs, n);
    }
    if SizeKey !in NameSet(segs) {
      ConfigSizeEntry(segs);
    }
  }

  /** With no negative sizes, there is one scatter point per customer. */
  lemma {:induction false} PointsMatchCustomers(segs: seq<Segment>)
    requires forall i | 0 <= i < |segs| :: segs[i].size >= 0
    ensures SumPointCounts(segs) == SumSizes(segs)
  {
    if segs != [] {
      PointsMatchCustomers(segs[..|segs| - 1]);
    }
  }

  // ---------------------------------------------------------------------------
  // The aggregation

  lemma RepeatSnoc<T>(x: T, n: nat)
    ensures Repeat(x, n + 1) == Repeat(x, n) + [x]
  {
  }

  /** The bars of the reference chart: one per segment, in order. */
  function BarsOf(segs: seq<Segment>): seq<BarEntry> {
    seq(|segs|, k requires 0 <= k < |segs| => BarFor(segs[k], k))
  }

  /** The chart the aggregation builds, as a fold over the segments. */
  function ChartOf(segs: seq<Segment>): ChartData {
    ChartData(ConfigOf(segs), BarsOf(segs), ScatterOf(segs), SumSizes(segs))
  }

  /** The reference chart has every property `IsSegmentChart` asks for. */
  lemma ChartOfIsSegmentChart(segs: seq<Segment>)
    ensures IsSegmentChart(segs, ChartOf(segs))
  {
    ScatterLength(segs);
    ConfigShape(segs);
    forall k: nat | k < |segs| {
      ScatterBlock(segs, k);
    }
  }

  /** The `forEach` over the segments, with its inner point-generating loop. */
  method AggregateSegments(segs: seq<Segment>) returns (d: ChartData)
    ensures d == ChartOf(segs)
  {
    var config := map[SizeKey := SizeEntry];
    var bars: seq<BarEntry> := [];
    var scatter: seq<ScatterPoint> := [];
    var total := 0;
    var i := 0;
    while i < |segs|
      invariant 0 <= i <= |segs|
      invariant config == ConfigOf(segs[..i])
      invariant |bars| == i && forall k | 0 <= k < i :: bars[k] == BarFor(segs[k], k)
      invariant scatter == ScatterOf(segs[..i])
      invariant total == SumSizes(segs[..i])
    {
      var segment := segs[i];
      var color := SegmentColor(i);
      assert segs[..i + 1][..i] == segs[..i] && segs[..i + 1][i] == segment;
      config := config[segment.name := ConfigEntry(segment.name, Some(color))];
      bars := bars + [BarEntry(segment.name, segment.size, color)];
      total := total + segment.size;
      var j := 0;
      while j < segment.size
        invariant 0 <= j <= PointCount(segment.size)
        invariant scatter == ScatterOf(segs[..i]) + Repeat(PointFor(segment, i), j)
      {
        RepeatSnoc(PointFor(segment, i), j);
        scatter := scatter + [ScatterPoint(segment.name, Some(color))];
        j := j + 1;
      }
      i := i + 1;
    }
    assert segs[..|segs|] == segs;
    d := ChartData(config, bars, scatter, total);
  }

  // ---------------------------------------------------------------------------
  // The placeholder charts shown before any analysis exists

  /** The palette's base config, keyed by the placeholder segment names. */
  const ChartConfigBase: map<string, ConfigEntry> := map[
    SizeKey := SizeEntry,
    "High-Value" := ConfigEntry("High-Value", Some(ChartColor(1))),
    "New Shoppers" := ConfigEntry("New Shoppers", Some(ChartColor(2))),
    "Budget Spenders" := ConfigEntry("Budget Spenders", Some(ChartColor(3))),
    "At-Risk" := ConfigEntry("At-Risk", Some(ChartColor(4))),
    "Segment 5" := ConfigEntry("Segment 5", Some(ChartColor(5)))
  ]

  const MockBarChartData: seq<BarEntry> := [
    BarEntry("Alto Valor", 120, ChartColor(1)),
    BarEntry("Novos Clientes", 450, ChartColor(2)),
    BarEntry("Econômicos", 280, ChartColor(3)),
    BarEntry("Em Risco", 50, ChartColor(4))
  ]

  const MockScatterData: seq<ScatterPoint> :=
    Repeat(ScatterPoint("Alto Valor", None), 120)
    + Repeat(ScatterPoint("Novos Clientes", None), 450)
    + Repeat(ScatterPoint("Clientes Econômicos", None), 280)
    + Repeat(ScatterPoint("Em Risco", None), 50)

  /** The placeholder customer total: the sum of the placeholder bar sizes. */
  function SumBarSizes(bars: seq<BarEntry>): int {
    if bars == [] then 0 else bars[0].size + SumBarSizes(bars[1..])
  }

  function MockChartData(): ChartData {
    ChartData(ChartConfigBase, MockBarChartData, MockScatterData, SumBarSizes(MockBarChartData))
  }

  predicate HasSegments(analysis: Option<Analysis>) {
    analysis.Some? && |analysis.value.segments| > 0
  }

  /** The whole `useMemo`: placeholder data without segments, the aggregation otherwise. */
  method DashboardData(analysis: Option<Analysis>) returns (d: ChartData)
    ensures !HasSegments(analysis) ==> d == MockChartData()
    ensures !HasSegments(analysis) ==> d.totalCustomers == 900 && |d.scatter| == 900
    ensures HasSegments(analysis) ==> d == ChartOf(analysis.value.segments)
  {
    if !HasSegments(analysis) {
      d := MockChartData();
      assert MockBarChartData[1..][1..][1..][1..] == [];
    } else {
      d := AggregateSegments(analysis.value.segments);
    }
  }

  /** The placeholder bars use the same colour rule as real segments. */
  lemma MockBarsFollowPalette()
    ensures forall i | 0 <= i < |MockBarChartData| :: MockBarChartData[i].fill == SegmentColor(i)
  {
  }
}
