/** The data shaping inside the `Pie` chart component, taken out of its React and Plotly
    rendering: which group-by and aggregation entries are used, whether the empty
    placeholder is shown, the comma-joined legend labels built from several group-by
    columns, the placement of each pie in a three-column grid, and the tooltip and
    chart-type defaults. */
module PieChart {
  import opened JsValues

  /** A group-by or aggregation entry of the data configuration. `itemLabel` is the
      entry's `label` (a missing label is `""`: both are falsy and are filtered alike);
      `name` is the queried field's name. */
  datatype ConfigItem = ConfigItem(itemLabel: string, name: string)

  /** One entry of `chartStyles.mode`. */
  datatype ModeEntry = ModeEntry(modeId: Option<string>)

  datatype ChartStyles = ChartStyles(mode: Option<seq<ModeEntry>>)

  datatype TooltipOptions = TooltipOptions(tooltipMode: Option<string>, tooltipText: Option<string>)

  /** The user's data configuration; every part may be missing. A missing `dataConfig`
      is `NoDataConfig`, the `{}` default. */
  datatype DataConfig = DataConfig(
    groupBy: Option<seq<ConfigItem>>,
    aggregations: Option<seq<ConfigItem>>,
    chartStyles: Option<ChartStyles>,
    tooltipOptions: Option<TooltipOptions>)

  const NoDataConfig: DataConfig := DataConfig(None, None, None, None)

  /** The queried data: one column of values per field label, each value in the text
      form that `join(',')` gives it. */
  type VizData = map<string, seq<string>>

  // ---------------------------------------------------------------------------
  // Axis entries

  /** `filter((item) => item.label)`: the entries with a truthy label, in order. */
  function WithLabel(items: seq<ConfigItem>): (r: seq<ConfigItem>)
    ensures |r| <= |items|
    ensures forall x :: x in r <==> x in items && x.itemLabel != ""
  {
    if items == [] then []
    else if items[0].itemLabel != "" then [items[0]] + WithLabel(items[1..])
    else WithLabel(items[1..])
  }

  /** Filtering a concatenation filters each part and keeps their order. */
  lemma {:induction false} WithLabelAppend(a: seq<ConfigItem>, b: seq<ConfigItem>)
    ensures WithLabel(a + b) == WithLabel(a) + WithLabel(b)
  {
    if a == [] {
      assert a + b == b;
    } else {
      assert (a + b)[0] == a[0];
      assert (a + b)[1..] == a[1..] + b;
      WithLabelAppend(a[1..], b);
    }
  }

  /** A list whose entries all have labels passes through unchanged. */
  lemma {:induction false} WithLabelKeepsLabelled(items: seq<ConfigItem>)
    requires forall i :: 0 <= i < |items| ==> items[i].itemLabel != ""
    ensures WithLabel(items) == items
  {
    if items != [] {
      WithLabelKeepsLabelled(items[1..]);
    }
  }

  /** `dataConfig[KEY] ? dataConfig[KEY].filter(...) : []`: a missing list gives no
      entries; a present one (even an empty array is truthy) is filtered. */
  function AxisItems(list: Option<seq<ConfigItem>>): (r: seq<ConfigItem>)
    ensures list.None? ==> r == []
    ensures forall x :: x in r <==> list.Some? && x in list.value && x.itemLabel != ""
  {
    match list
    case None => []
    case Some(items) => WithLabel(items)
  }

  /** `xaxis`: the labelled group-by entries. */
  function XAxis(cfg: DataConfig): (r: seq<ConfigItem>)
    ensures cfg.groupBy.None? ==> r == []
    ensures forall x :: x in r <==> cfg.groupBy.Some? && x in cfg.groupBy.value && x.itemLabel != ""
  {
    AxisItems(cfg.groupBy)
  }

  /** `yaxis`: the labelled aggregation entries. */
  function YAxis(cfg: DataConfig): (r: seq<ConfigItem>)
    ensures cfg.aggregations.None? ==> r == []
    ensures forall x :: x in r <==> cfg.aggregations.Some? && x in cfg.aggregations.value && x.itemLabel != ""
  {
    AxisItems(cfg.aggregations)
  }

  /** The early return: a placeholder (`None`) unless both axes have entries, and then
      the value series, a copy of `yaxis`. The `defaultAxes` fallback after it is
      unreachable and is not modelled. */
  function ValueSeries(xaxis: seq<ConfigItem>, yaxis: seq<ConfigItem>): (r: Option<seq<ConfigItem>>)
    ensures r.None? <==> xaxis == [] || yaxis == []
    ensures r.Some? ==> r.value == yaxis
  {
    if xaxis == [] || yaxis == [] then None else Some(yaxis)
  }

  // ---------------------------------------------------------------------------
  // Chart type and tooltips

  /** `chartStyles.mode ? mode[0]?.modeId : 'pie'`: `None` is `undefined`, reached when
      the mode list is present but empty or its first entry has no id. */
  function ChartType(cfg: DataConfig): (t: Option<string>)
    ensures cfg.chartStyles.None? || cfg.chartStyles.value.mode.None? ==> t == Some("pie")
    ensures cfg.chartStyles.Some? && cfg.chartStyles.value.mode == Some([]) ==> t.None?
    ensures cfg.chartStyles.Some? && cfg.chartStyles.value.mode.Some? && cfg.chartStyles.value.mode.value != [] ==>
      t == cfg.chartStyles.value.mode.value[0].modeId
  {
    if cfg.chartStyles.Some? && cfg.chartStyles.value.mode.Some? then
      var modes := cfg.chartStyles.value.mode.value;
      if modes == [] then None else modes[0].modeId
    else Some("pie")
  }

  /** The `hole` of a trace: none (0) for a plain pie, the donut value (0.5) otherwise. */
  datatype Hole = NoHole | Donut

  function HoleFor(chartType: Option<string>): (h: Hole)
    ensures h == NoHole <==> chartType == Some("pie")
  {
    if chartType == Some("pie") then NoHole else Donut
  }

  /** With no mode configured the chart is a plain pie. */
  lemma DefaultIsPlainPie(cfg: DataConfig)
    requires cfg.chartStyles.None? || cfg.chartStyles.value.mode.None?
    ensures HoleFor(ChartType(cfg)) == NoHole
  {
  }

  /** A present but empty mode list reads an undefined mode id, which is not `'pie'`,
      so the chart becomes a donut. */
  lemma EmptyModeListIsDonut(cfg: DataConfig)
    requires cfg.chartStyles == Some(ChartStyles(Some([])))
    ensures HoleFor(ChartType(cfg)) == Donut
  {
  }

  /** `tooltipOptions?.tooltipMode`, defaulting to `'show'` only when undefined. */
  function TooltipMode(cfg: DataConfig): (m: string)
    ensures cfg.tooltipOptions.None? ==> m == "show"
    ensures cfg.tooltipOptions.Some? ==> m == cfg.tooltipOptions.value.tooltipMode.GetOr("show")
  {
    match cfg.tooltipOptions
    case None => "show"
    case Some(opts) => opts.tooltipMode.GetOr("show")
  }

  /** `tooltipOptions?.tooltipText`, defaulting to `'all'` only when undefined. */
  function TooltipText(cfg: DataConfig): (t: string)
    ensures cfg.tooltipOptions.None? ==> t == "all"
    ensures cfg.tooltipOptions.Some? ==> t == cfg.tooltipOptions.value.tooltipText.GetOr("all")
  {
    match cfg.tooltipOptions
    case None => "all"
    case Some(opts) => opts.tooltipText.GetOr("all")
  }

  /** A trace's `hoverinfo`: `'none'` when tooltips are hidden, otherwise the text. */
  function HoverInfo(mode: string, text: string): (h: string)
    ensures h == "none" <==> mode == "hidden" || text == "none"
    ensures mode != "hidden" ==> h == text
  {
    if mode == "hidden" then "none" else text
  }

  /** Without tooltip options every hover shows all information. */
  lemma HoverInfoDefault(cfg: DataConfig)
    requires cfg.tooltipOptions.None? || cfg.tooltipOptions.value == TooltipOptions(None, None)
    ensures HoverInfo(TooltipMode(cfg), TooltipText(cfg)) == "all"
  {
  }

  /** With no data configuration at all (`dataConfig = {}`) both axes are empty, so the
      placeholder is shown; the chart type and tooltips take their defaults. */
  lemma MissingDataConfig()
    ensures XAxis(NoDataConfig) == [] && YAxis(NoDataConfig) == []
    ensures ValueSeries(XAxis(NoDataConfig), YAxis(NoDataConfig)).None?
    ensures ChartType(NoDataConfig) == Some("pie")
    ensures HoverInfo(TooltipMode(NoDataConfig), TooltipText(NoDataConfig)) == "all"
  {
  }

  // ---------------------------------------------------------------------------
  // Legend labels

  /** The total length of some strings. */
  function TotalLength(parts: seq<string>): (n: nat)
  {
    if parts == [] then 0 else |parts[0]| + TotalLength(parts[1..])
  }

  /** `parts.join(',')`. */
  function JoinComma(parts: seq<string>): (r: string)
    requires |parts| > 0
    ensures parts[0] <= r
    ensures |r| == TotalLength(parts) + |parts| - 1
  {
    if |parts| == 1 then parts[0] else parts[0] + "," + JoinComma(parts[1..])
  }

  function Reverse(s: seq<string>): (r: seq<string>)
    ensures |r| == |s|
    ensures forall i :: 0 <= i < |s| ==> r[i] == s[|s| - 1 - i]
  {
    if s == [] then [] else [s[|s| - 1]] + Reverse(s[..|s| - 1])
  }

  /** `xs[j]` as `join` renders it: an index past the end is `undefined`, written `""`. */
  function LabelAt(xs: seq<string>, j: nat): (r: string)
    ensures j < |xs| ==> r == xs[j]
    ensures j >= |xs| ==> r == ""
  {
    if j < |xs| then xs[j] else ""
  }

  /** `createLegendLabels(dimLabels, xaxisLables)`: entry `j` is
      `[xaxisLables[j], dimLabels[j]].join(',')`. */
  function CreateLegendLabels(dimLabels: seq<string>, xaxisLabels: seq<string>): (r: seq<string>)
    ensures |r| == |dimLabels|
    ensures forall j :: 0 <= j < |dimLabels| ==> r[j] == LabelAt(xaxisLabels, j) + "," + dimLabels[j]
  {
    JoinPair();
    seq(|dimLabels|, j requires 0 <= j < |dimLabels| => JoinComma([LabelAt(xaxisLabels, j), dimLabels[j]]))
  }

  /** `[a, b].join(',')` is `a + "," + b`. */
  lemma JoinPair()
    ensures forall a, b :: JoinComma([a, b]) == a + "," + b
  {
    forall a, b ensures JoinComma([a, b]) == a + "," + b {
      assert [a, b][1..] == [b];
    }
  }

  /** The value of `labelsOfXAxis`: an array of labels, `undefined`, or the `TypeError`
      thrown when `map` or an index is applied to `undefined`. */
  datatype Legend = Labels(labels: seq<string>) | Undefined | TypeError

  /** `queriedVizData[key]`. */
  function Column(data: VizData, key: string): (r: Option<seq<string>>)
    ensures r.Some? <==> key in data
    ensures r.Some? ==> r.value == data[key]
  {
    if key in data then Some(data[key]) else None
  }

  /** The data column of each group-by entry, in order. */
  function Columns(xaxis: seq<ConfigItem>, data: VizData): (cols: seq<Option<seq<string>>>)
    ensures |cols| == |xaxis|
    ensures forall i :: 0 <= i < |xaxis| ==> cols[i] == Column(data, xaxis[i].itemLabel)
  {
    seq(|xaxis|, i requires 0 <= i < |xaxis| => Column(data, xaxis[i].itemLabel))
  }

  /** A column as the legend value it is when assigned to `dimLabelsArray`. */
  function AsLegend(col: Option<seq<string>>): (r: Legend)
  {
    match col
    case None => Undefined
    case Some(c) => Labels(c)
  }

  /** One loop step, `createLegendLabels(dimLabelsArray, next)`: `undefined.map` throws;
      `next[index]` throws when `next` is undefined and `map` calls its callback. */
  function Step(dim: Legend, next: Option<seq<string>>): (r: Legend)
    ensures !r.Undefined?
    ensures r.TypeError? <==> !dim.Labels? || (next.None? && dim.labels != [])
    ensures r.Labels? ==> dim.Labels? && |r.labels| == |dim.labels|
    ensures r.Labels? ==> forall j :: 0 <= j < |r.labels| ==>
      r.labels[j] == LabelAt(next.GetOr([]), j) + "," + dim.labels[j]
  {
    match dim
    case Labels(d) => if next.None? && d != [] then TypeError else Labels(CreateLegendLabels(d, next.GetOr([])))
    case Undefined => TypeError
    case TypeError => TypeError
  }

  /** The legend after the first `k` group-by columns have been combined. */
  function LegendAfter(cols: seq<Option<seq<string>>>, k: nat): (r: Legend)
    requires 1 <= k <= |cols|
    ensures r.Undefined? <==> k == 1 && cols[0].None?
    ensures r.Labels? ==> cols[0].Some? && |r.labels| == |cols[0].value|
    decreases k
  {
    if k == 1 then AsLegend(cols[0]) else Step(LegendAfter(cols, k - 1), cols[k - 1])
  }

  /** Once thrown, the exception is what the legend computation yields. */
  lemma {:induction false} ThrownPropagates(cols: seq<Option<seq<string>>>, k: nat, m: nat)
    requires 1 <= k <= m <= |cols|
    requires LegendAfter(cols, k) == TypeError
    ensures LegendAfter(cols, m) == TypeError
    decreases m
  {
    if m > k {
      ThrownPropagates(cols, k, m - 1);
    }
  }

  /** The value `labelsOfXAxis` computes for the given group-by entries and data. */
  function XAxisLegend(xaxis: seq<ConfigItem>, data: VizData): (r: Legend)
    requires xaxis != []
    ensures r.Undefined? <==> |xaxis| == 1 && xaxis[0].itemLabel !in data
    ensures r.TypeError? <==>
      (|xaxis| >= 2 && (xaxis[0].itemLabel !in data ||
        (|data[xaxis[0].itemLabel]| > 0 && exists i :: 1 <= i < |xaxis| && xaxis[i].itemLabel !in data)))
    ensures r.Labels? ==> xaxis[0].itemLabel in data && |r.labels| == |data[xaxis[0].itemLabel]|
  {
    var cols := Columns(xaxis, data);
    LegendThrows(cols, |xaxis|);
    assert (exists i :: 1 <= i < |xaxis| && cols[i].None?) <==>
      (exists i :: 1 <= i < |xaxis| && xaxis[i].itemLabel !in data);
    LegendAfter(cols, |xaxis|)
  }

  /** The `labelsOfXAxis` loop over the (non-empty) group-by entries. A `TypeError`
      thrown inside `createLegendLabels` ends the loop and is the result. */
  method LabelsOfXAxis(xaxis: seq<ConfigItem>, data: VizData) returns (legend: Legend)
    requires xaxis != []
    ensures legend == XAxisLegend(xaxis, data)
    ensures (forall i :: 0 <= i < |xaxis| ==> xaxis[i].itemLabel in data) ==>
      legend.Labels? && |legend.labels| == |data[xaxis[0].itemLabel]|
  {
    ghost var cols := Columns(xaxis, data);
    var dimLabelsArray := Column(data, xaxis[0].itemLabel);
    var thrown := false;
    var i := 0;
    while i < |xaxis| - 1 && !thrown
      invariant 0 <= i <= |xaxis| - 1
      invariant !thrown ==> AsLegend(dimLabelsArray) == LegendAfter(cols, i + 1)
      invariant thrown ==> LegendAfter(cols, |xaxis|) == TypeError
      decreases |xaxis| - i, if thrown then 0 else 1
    {
      var next := Column(data, xaxis[i + 1].itemLabel);
      if dimLabelsArray.None? || (next.None? && dimLabelsArray.value != []) {
        ThrownPropagates(cols, i + 2, |xaxis|);
        thrown := true;
      } else {
        dimLabelsArray := Some(CreateLegendLabels(dimLabelsArray.value, next.GetOr([])));
        i := i + 1;
      }
    }
    legend := if thrown then TypeError else AsLegend(dimLabelsArray);
  }

  /** The computation throws exactly when a second column is combined with a missing
      first column, or when some later column is missing and the first is not empty. */
  lemma {:induction false} LegendThrows(cols: seq<Option<seq<string>>>, k: nat)
    requires 1 <= k <= |cols|
    ensures LegendAfter(cols, k).TypeError? <==>
      k >= 2 && (cols[0].None? || (|cols[0].value| > 0 && exists i :: 1 <= i < k && cols[i].None?))
    decreases k
  {
    if k > 2 {
      LegendThrows(cols, k - 1);
      var prev := LegendAfter(cols, k - 1);
      if cols[0].Some? && |cols[0].value| > 0 && (exists i :: 1 <= i < k && cols[i].None?) {
        var i :| 1 <= i < k && cols[i].None?;
        assert i == k - 1 && !prev.TypeError? ==> prev.Labels?;
      }
    }
  }

  /** Cell `j` of column `col` as `join` writes it. */
  function CellText(col: Option<seq<string>>, j: nat): (r: string)
  {
    if col.Some? then LabelAt(col.value, j) else ""
  }

  /** Entry `j` of the first `k` columns. */
  function Row(cols: seq<Option<seq<string>>>, k: nat, j: nat): (r: seq<string>)
    requires k <= |cols|
    ensures |r| == k
  {
    seq(k, i requires 0 <= i < k => CellText(cols[i], j))
  }

  lemma JoinReversedStep(row: seq<string>)
    requires |row| >= 2
    ensures JoinComma(Reverse(row)) == row[|row| - 1] + "," + JoinComma(Reverse(row[..|row| - 1]))
  {
    var r := Reverse(row);
    assert r[1..] == Reverse(row[..|row| - 1]);
  }

  /** Legend label `j` joins entry `j` of every group-by column with commas, later columns
      first: `ck[j],...,c1[j],c0[j]`. */
  lemma {:induction false} LegendEntry(cols: seq<Option<seq<string>>>, k: nat, j: nat)
    requires 1 <= k <= |cols|
    requires LegendAfter(cols, k).Labels? && j < |LegendAfter(cols, k).labels|
    ensures LegendAfter(cols, k).labels[j] == JoinComma(Reverse(Row(cols, k, j)))
    decreases k
  {
    var row := Row(cols, k, j);
    if k == 1 {
      assert Reverse(row) == [row[0]];
    } else {
      var prev := LegendAfter(cols, k - 1);
      assert prev.Labels?;
      LegendEntry(cols, k - 1, j);
      assert row[..k - 1] == Row(cols, k - 1, j);
      JoinReversedStep(row);
    }
  }

  /** With every group-by column present and all of equal length `n`, there are `n`
      legend labels and label `j` is `c(k-1)[j],...,c1[j],c0[j]`. */
  lemma LegendOfEqualColumns(cols: seq<Option<seq<string>>>, n: nat)
    requires 1 <= |cols|
    requires forall i :: 0 <= i < |cols| ==> cols[i].Some? && |cols[i].value| == n
    ensures LegendAfter(cols, |cols|).Labels?
    ensures |LegendAfter(cols, |cols|).labels| == n
    ensures forall j :: 0 <= j < n ==>
      LegendAfter(cols, |cols|).labels[j] == JoinComma(Reverse(seq(|cols|, i requires 0 <= i < |cols| => cols[i].value[j])))
  {
    LegendThrows(cols, |cols|);
    forall j | 0 <= j < n
      ensures LegendAfter(cols, |cols|).labels[j] == JoinComma(Reverse(seq(|cols|, i requires 0 <= i < |cols| => cols[i].value[j])))
    {
      LegendEntry(cols, |cols|, j);
      assert Row(cols, |cols|, j) == seq(|cols|, i requires 0 <= i < |cols| => cols[i].value[j]);
    }
  }

  // ---------------------------------------------------------------------------
  // Layout of the pies

  /** A pie's `domain`: its cell in the grid. */
  datatype Cell = Cell(row: nat, column: nat)

  /** Pie `index` goes to row `floor(index / 3)`, column `index % 3`. */
  function Domain(index: nat): (c: Cell)
    ensures 3 * c.row + c.column == index && c.column < 3
  {
    Cell(index / 3, index % 3)
  }

  datatype GridSize = GridSize(rows: nat, columns: nat)

  /** The layout grid for `n` pies: `floor(n / 3) + 1` rows, three columns once there is
      a full row and `n` columns before. */
  function Grid(n: nat): (g: GridSize)
    ensures g.rows >= 1 && 3 * (g.rows - 1) <= n < 3 * g.rows
    ensures g.columns == if n >= 3 then 3 else n
  {
    var isAtLeastOneFullRow := n / 3 > 0;
    GridSize(n / 3 + 1, if isAtLeastOneFullRow then 3 else n)
  }

  /** Every pie's cell lies inside the grid. */
  lemma PieInsideGrid(n: nat, i: nat)
    requires i < n
    ensures Domain(i).row < Grid(n).rows && Domain(i).column < Grid(n).columns
  {
    var c, g := Domain(i), Grid(n);
    assert 3 * c.row <= i < n < 3 * g.rows;
  }

  /** The last grid row stays empty exactly when the number of pies is a multiple of
      three (including none at all). */
  lemma LastRowEmpty(n: nat)
    ensures (forall i: nat :: i < n ==> Domain(i).row < Grid(n).rows - 1) <==> n % 3 == 0
  {
    var g := Grid(n);
    if n % 3 == 0 {
      forall i: nat | i < n ensures Domain(i).row < g.rows - 1 {
        var c := Domain(i);
        assert 3 * c.row <= i < n == 3 * (g.rows - 1);
      }
    } else {
      var c := Domain(n - 1);
      assert 3 * c.row + c.column == n - 1;
      assert 3 * (g.rows - 1) + n % 3 == n;
      assert c.row == g.rows - 1;
    }
  }

  // ---------------------------------------------------------------------------
  // Traces and the rendered chart

  /** The data-bearing part of one Plotly pie trace. Its `name` (from an external
      helper), colour marker and label font size are not part of this model. */
  datatype Trace = Trace(
    labels: Option<seq<string>>,
    values: Option<seq<string>>,
    traceType: string,
    text: string,
    textinfo: string,
    hole: Hole,
    hoverinfo: string,
    automargin: bool,
    textposition: string,
    domain: Cell)

  /** The trace of value series entry `field` at position `index`. */
  function MakeTrace(field: ConfigItem, index: nat, labels: Option<seq<string>>, data: VizData,
                     hole: Hole, hoverinfo: string): (r: Trace)
    ensures r.labels == labels && r.values == Column(data, field.itemLabel) && r.text == field.name
    ensures r.traceType == "pie" && r.textinfo == "percent" && r.automargin && r.textposition == "outside"
    ensures r.hole == hole && r.hoverinfo == hoverinfo && r.domain == Domain(index)
  {
    Trace(labels, Column(data, field.itemLabel), "pie", field.name, "percent", hole, hoverinfo,
          true, "outside", Domain(index))
  }

  /** What the component renders: the empty placeholder, a plot, or a thrown error. */
  datatype Chart = EmptyPlaceholder | Plot(traces: seq<Trace>, grid: GridSize) | Thrown

  /** The `labels` a trace receives from the legend. */
  function TraceLabels(legend: Legend): (r: Option<seq<string>>)
  {
    if legend.Labels? then Some(legend.labels) else None
  }

  /** The component's data pipeline from configuration and data to what it renders. */
  method Render(cfg: DataConfig, data: VizData) returns (chart: Chart)
    ensures chart.EmptyPlaceholder? <==> XAxis(cfg) == [] || YAxis(cfg) == []
    ensures chart.Thrown? <==>
      XAxis(cfg) != [] && YAxis(cfg) != [] && XAxisLegend(XAxis(cfg), data).TypeError?
    ensures chart.Plot? ==> |chart.traces| == |YAxis(cfg)| && chart.grid == Grid(|YAxis(cfg)|)
    ensures chart.Plot? ==> forall i :: 0 <= i < |chart.traces| ==>
      && chart.traces[i].labels == TraceLabels(XAxisLegend(XAxis(cfg), data))
      && chart.traces[i].values == Column(data, YAxis(cfg)[i].itemLabel)
      && chart.traces[i].text == YAxis(cfg)[i].name
      && chart.traces[i].traceType == "pie" && chart.traces[i].textinfo == "percent"
      && chart.traces[i].automargin && chart.traces[i].textposition == "outside"
      && chart.traces[i].hole == HoleFor(ChartType(cfg))
      && chart.traces[i].hoverinfo == HoverInfo(TooltipMode(cfg), TooltipText(cfg))
      && chart.traces[i].domain == Domain(i)
      && chart.traces[i].domain.row < chart.grid.rows
      && chart.traces[i].domain.column < chart.grid.columns
  {
    var xaxis := XAxis(cfg);
    var yaxis := YAxis(cfg);
    var chartType := ChartType(cfg);
    var tooltipMode := TooltipMode(cfg);
    var tooltipText := TooltipText(cfg);
    var valueSeries := ValueSeries(xaxis, yaxis);
    if valueSeries.None? {
      return EmptyPlaceholder;
    }
    var legend := LabelsOfXAxis(xaxis, data);
    if legend.TypeError? {
      return Thrown;
    }
    var series := valueSeries.value;
    var labels := TraceLabels(legend);
    var hole := HoleFor(chartType);
    var hoverinfo := HoverInfo(tooltipMode, tooltipText);
    var pies := seq(|series|, i requires 0 <= i < |series| => MakeTrace(series[i], i, labels, data, hole, hoverinfo));
    var grid := Grid(|series|);
    forall i | 0 <= i < |series|
      ensures Domain(i).row < grid.rows && Domain(i).column < grid.columns
    {
      PieInsideGrid(|series|, i);
    }
    chart := Plot(pies, grid);
  }
}
