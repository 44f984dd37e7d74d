/** The chart list of the visualisation page: the chart configurations the
    user edits (`charts`), the charts last generated from them
    (`generatedCharts`), and the loaded file's rows.  Loading a file sets a
    default chart, `addNewChart` appends one with a fresh id, `removeChart`
    never removes the last chart, and `generateAllCharts` keeps, in order,
    every configuration the engine draws. */
module ChartBoard {
  import opened Common
  import opened JsCoercion
  import opened Cells
  import opened ChartTypes
  import opened ChartEngine

  /** One entry of `charts`. */
  datatype ChartItem = ChartItem(id: int, chartType: string, title: string, fields: seq<Field>)

  /** The properties an update object may carry; `None` is an absent key. */
  datatype ChartUpdate = ChartUpdate(chartType: Option<string>, title: Option<string>, fields: Option<seq<Field>>)

  /** `{...c, ...updates}`: each property the update carries replaces the
      chart's, and the id is never replaced. */
  function Merge(c: ChartItem, u: ChartUpdate): (r: ChartItem)
    ensures r.id == c.id
    ensures r.chartType == (if u.chartType.Some? then u.chartType.value else c.chartType)
    ensures r.title == (if u.title.Some? then u.title.value else c.title)
    ensures r.fields == (if u.fields.Some? then u.fields.value else c.fields)
  {
    ChartItem(c.id, if u.chartType.Some? then u.chartType.value else c.chartType,
              if u.title.Some? then u.title.value else c.title,
              if u.fields.Some? then u.fields.value else c.fields)
  }

  /** An entry of `generatedCharts`. */
  datatype GeneratedChart = GeneratedChart(id: int, chartType: string, title: string, chart: Chart,
                                           config: ChartItem, backendId: Option<string>)

  predicate DistinctIds(charts: seq<ChartItem>) {
    forall i, j :: 0 <= i < j < |charts| ==> charts[i].id != charts[j].id
  }

  const DefaultColor := "#4361ee"

  /** The chart a freshly loaded file starts with, from the column names of
      its first row. */
  function DefaultChart(columns: seq<string>): (r: Option<ChartItem>)
    ensures r.Some? <==> columns != []
    ensures r.Some? ==> r.value.id == 1 && r.value.chartType == "auto" && r.value.title == "Chart 1"
    ensures |columns| >= 2 ==> r.value.fields == [Field(columns[0], columns[1], Some(DefaultColor))]
    ensures |columns| == 1 ==> r.value.fields == [Field(columns[0], columns[0], Some(DefaultColor))]
  {
    if |columns| >= 2 then Some(ChartItem(1, "auto", "Chart 1", [Field(columns[0], columns[1], Some(DefaultColor))]))
    else if |columns| == 1 then Some(ChartItem(1, "auto", "Chart 1", [Field(columns[0], columns[0], Some(DefaultColor))]))
    else None
  }

  function SampleRow(month: string, sales: real, profit: real, customers: real): Row {
    map["month" := Str(month), "sales" := Num(sales), "profit" := Num(profit), "customers" := Num(customers)]
  }

  /** The fixed sample shown when a file cannot be read. */
  function SampleRows(): (r: seq<Row>)
    ensures |r| == 6
  {
    [SampleRow("Jan", 1200.0, 800.0, 150.0), SampleRow("Feb", 1400.0, 950.0, 180.0),
     SampleRow("Mar", 1100.0, 700.0, 120.0), SampleRow("Apr", 1600.0, 1100.0, 200.0),
     SampleRow("May", 1800.0, 1300.0, 250.0), SampleRow("Jun", 2000.0, 1500.0, 300.0)]
  }

  /** `Object.keys(sampleData[0])`. */
  const SampleColumns: seq<string> := ["month", "sales", "profit", "customers"]

  /** `hsl(h, 70%, 60%)`. */
  function Hsl(h: nat): string {
    "hsl(" + NatText(h) + ", 70%, 60%)"
  }

  /** `Math.max(...charts.map(c => c.id), 0)`. */
  function MaxId(charts: seq<ChartItem>): (m: int)
    ensures m >= 0
    ensures forall c :: c in charts ==> c.id <= m
    ensures m == 0 || exists c :: c in charts && c.id == m
  {
    if charts == [] then 0
    else
      var rest := MaxId(charts[1..]);
      assert forall c :: c in charts ==> c == charts[0] || c in charts[1..];
      if charts[0].id > rest then charts[0].id else rest
  }

  /** The chart `addNewChart` appends, given the columns it offers. */
  function NewChart(id: nat, columns: seq<string>): (c: ChartItem)
    ensures c.id == id && c.chartType == "auto" && c.title == "Chart " + NatText(id) && |c.fields| == 1
    ensures c.fields[0].color == Some(Hsl((id * 60) % 360))
  {
    var color := Some(Hsl((id * 60) % 360));
    var fields := if |columns| >= 2 then [Field(columns[0], columns[1], color)]
                  else if |columns| == 1 then [Field(columns[0], columns[0], color)]
                  else [Field("field1", "field2", color)];
    ChartItem(id, "auto", "Chart " + NatText(id), fields)
  }

  /** `charts.filter(c => c.id !== id)`. */
  function WithoutId(charts: seq<ChartItem>, id: int): (r: seq<ChartItem>)
    ensures |r| <= |charts|
  {
    if charts == [] then []
    else (if charts[0].id != id then [charts[0]] else []) + WithoutId(charts[1..], id)
  }

  /** The charts kept are exactly those with another id. */
  lemma {:induction false} WithoutIdMembers(charts: seq<ChartItem>, id: int)
    ensures forall c :: c in WithoutId(charts, id) <==> c in charts && c.id != id
  {
    if charts != [] {
      WithoutIdMembers(charts[1..], id);
      assert forall c :: c in charts <==> c == charts[0] || c in charts[1..];
    }
  }

  /** Removing an id keeps the ids distinct and, since ids are distinct,
      drops at most one chart. */
  lemma {:induction false} WithoutIdDistinct(charts: seq<ChartItem>, id: int)
    requires DistinctIds(charts)
    ensures DistinctIds(WithoutId(charts, id))
    ensures |WithoutId(charts, id)| >= |charts| - 1
  {
    if charts != [] {
      var rest := charts[1..];
      WithoutIdDistinct(rest, id);
      var r := WithoutId(charts, id);
      if charts[0].id == id {
        forall c | c in rest
          ensures c.id != id
        {
          var k :| 0 <= k < |rest| && rest[k] == c;
          assert charts[k + 1] == c;
        }
        WithoutIdAbsent(rest, id);
      } else {
        WithoutIdMembers(rest, id);
        forall j | 1 <= j < |r|
          ensures r[0].id != r[j].id
        {
          assert r[j] in WithoutId(rest, id);
          var k :| 0 <= k < |rest| && rest[k] == r[j];
          assert charts[k + 1] == r[j];
        }
      }
    }
  }

  lemma {:induction false} WithoutIdAbsent(charts: seq<ChartItem>, id: int)
    requires forall c :: c in charts ==> c.id != id
    ensures WithoutId(charts, id) == charts
  {
    if charts != [] {
      assert charts[0] in charts;
      assert forall c :: c in charts[1..] ==> c in charts;
      WithoutIdAbsent(charts[1..], id);
    }
  }

  /** `generatedCharts.filter(c => c.id !== id)`. */
  function WithoutGenerated(gs: seq<GeneratedChart>, id: int): (r: seq<GeneratedChart>)
    ensures |r| <= |gs|
    ensures forall g :: g in r <==> g in gs && g.id != id
  {
    if gs == [] then []
    else (if gs[0].id != id then [gs[0]] else []) + WithoutGenerated(gs[1..], id)
  }

  /** `charts.map(c => c.id === id ? {...c, ...updates} : c)`. */
  function UpdatedCharts(charts: seq<ChartItem>, id: int, u: ChartUpdate): (r: seq<ChartItem>)
    ensures |r| == |charts|
    ensures forall i :: 0 <= i < |charts| ==> r[i] == if charts[i].id == id then Merge(charts[i], u) else charts[i]
  {
    seq(|charts|, i requires 0 <= i < |charts| => if charts[i].id == id then Merge(charts[i], u) else charts[i])
  }

  /** An update leaves every id in place. */
  lemma UpdatedKeepsIds(charts: seq<ChartItem>, id: int, u: ChartUpdate)
    ensures forall i :: 0 <= i < |charts| ==> UpdatedCharts(charts, id, u)[i].id == charts[i].id
    ensures DistinctIds(charts) ==> DistinctIds(UpdatedCharts(charts, id, u))
  {
  }

  /** The engine configuration of a chart entry. */
  function ConfigOf(c: ChartItem): ChartConfig {
    ChartConfig(c.chartType, c.fields)
  }

  /** `response.data.chart._id` of the tracking call for configuration `i`,
      or `None` when that call failed. */
  function TrackedAt(tracked: seq<Option<string>>, i: nat): Option<string> {
    if i < |tracked| then tracked[i] else None
  }

  function Generated(c: ChartItem, chart: Chart, backendId: Option<string>): GeneratedChart {
    GeneratedChart(c.id, if chart.chartType != "" then chart.chartType else c.chartType, c.title, chart, c, backendId)
  }

  /** `generateChartData` on one configuration over the loaded rows. */
  function Drawer(rows: seq<Row>): ChartItem -> Outcome {
    c => GenerateChartData(ConfigOf(c), rows)
  }

  /** The configurations the engine draws, in order. */
  function DrawnConfigs(items: seq<ChartItem>, rows: seq<Row>): (r: seq<ChartItem>)
    ensures |r| <= |items|
  {
    DrawnBy(items, Drawer(rows))
  }

  /** The configurations `draw` builds a chart for, in order. */
  function DrawnBy(items: seq<ChartItem>, draw: ChartItem -> Outcome): (r: seq<ChartItem>)
    ensures |r| <= |items|
  {
    if items == [] then []
    else (if draw(items[0]).Built? then [items[0]] else []) + DrawnBy(items[1..], draw)
  }

  /** The drawn configurations are exactly those the engine builds a chart
      for. */
  lemma DrawnConfigsMembers(items: seq<ChartItem>, rows: seq<Row>)
    ensures forall c :: c in DrawnConfigs(items, rows) <==> c in items && GenerateChartData(ConfigOf(c), rows).Built?
  {
    DrawnByMembers(items, Drawer(rows));
  }

  lemma {:induction false} DrawnByMembers(items: seq<ChartItem>, draw: ChartItem -> Outcome)
    ensures forall c :: c in DrawnBy(items, draw) <==> c in items && draw(c).Built?
  {
    if items != [] {
      DrawnByMembers(items[1..], draw);
      assert forall c :: c in items <==> c == items[0] || c in items[1..];
    }
  }

  /** The list the generation loop builds from configuration `offset` on,
      or `None` when the engine throws, which abandons the loop. */
  function GenerateFrom(items: seq<ChartItem>, rows: seq<Row>, tracked: seq<Option<string>>, offset: nat)
    : Option<seq<GeneratedChart>>
  {
    GenerateBy(items, Drawer(rows), tracked, offset)
  }

  /** The same, for any engine `draw`. */
  function GenerateBy(items: seq<ChartItem>, draw: ChartItem -> Outcome, tracked: seq<Option<string>>, offset: nat)
    : Option<seq<GeneratedChart>>
    decreases |items|
  {
    if items == [] then Some([])
    else
      var rest := GenerateBy(items[1..], draw, tracked, offset + 1);
      match draw(items[0])
      case Crash => None
      case NoChart => rest
      case Built(chart) => if rest.None? then None else Some([Generated(items[0], chart, TrackedAt(tracked, offset))] + rest.value)
  }

  function ConfigsOf(gs: seq<GeneratedChart>): (r: seq<ChartItem>)
    ensures |r| == |gs|
    ensures forall i :: 0 <= i < |gs| ==> r[i] == gs[i].config
  {
    seq(|gs|, i requires 0 <= i < |gs| => gs[i].config)
  }

  /** The generated list holds exactly the drawn configurations, in order,
      whether or not they were tracked. */
  lemma GenerateFromDrawn(items: seq<ChartItem>, rows: seq<Row>, tracked: seq<Option<string>>, offset: nat)
    requires GenerateFrom(items, rows, tracked, offset).Some?
    ensures ConfigsOf(GenerateFrom(items, rows, tracked, offset).value) == DrawnConfigs(items, rows)
  {
    GenerateByDrawn(items, Drawer(rows), tracked, offset);
  }

  lemma {:induction false} GenerateByDrawn(items: seq<ChartItem>, draw: ChartItem -> Outcome, tracked: seq<Option<string>>, offset: nat)
    requires GenerateBy(items, draw, tracked, offset).Some?
    ensures ConfigsOf(GenerateBy(items, draw, tracked, offset).value) == DrawnBy(items, draw)
    decreases |items|
  {
    if items != [] {
      GenerateByDrawn(items[1..], draw, tracked, offset + 1);
      var rest := GenerateBy(items[1..], draw, tracked, offset + 1).value;
      var gs := GenerateBy(items, draw, tracked, offset).value;
      var out := draw(items[0]);
      if out.Built? {
        assert gs == [Generated(items[0], out.chart, TrackedAt(tracked, offset))] + rest;
        assert ConfigsOf(gs) == [items[0]] + ConfigsOf(rest);
      }
    }
  }

  /** Each generated entry carries the chart the engine built for its
      configuration, under that configuration's id. */
  lemma GenerateFromCharts(items: seq<ChartItem>, rows: seq<Row>, tracked: seq<Option<string>>, offset: nat)
    requires GenerateFrom(items, rows, tracked, offset).Some?
    ensures forall g :: g in GenerateFrom(items, rows, tracked, offset).value ==>
      GenerateChartData(ConfigOf(g.config), rows) == Built(g.chart) && g.id == g.config.id
  {
    GenerateByCharts(items, Drawer(rows), tracked, offset);
  }

  lemma {:induction false} GenerateByCharts(items: seq<ChartItem>, draw: ChartItem -> Outcome, tracked: seq<Option<string>>, offset: nat)
    requires GenerateBy(items, draw, tracked, offset).Some?
    ensures forall g :: g in GenerateBy(items, draw, tracked, offset).value ==>
      draw(g.config) == Built(g.chart) && g.id == g.config.id
    decreases |items|
  {
    if items != [] {
      GenerateByCharts(items[1..], draw, tracked, offset + 1);
      var rest := GenerateBy(items[1..], draw, tracked, offset + 1).value;
      var gs := GenerateBy(items, draw, tracked, offset).value;
      var out := draw(items[0]);
      if out.Built? {
        assert gs == [Generated(items[0], out.chart, TrackedAt(tracked, offset))] + rest;
      }
    }
  }

  /** The engine throws only for a bar, line or automatic chart with no
      field, so a list in which every chart has a field never abandons the
      loop. */
  lemma GenerateNeverThrows(items: seq<ChartItem>, rows: seq<Row>, tracked: seq<Option<string>>, offset: nat)
    requires forall c :: c in items ==> c.fields != []
    ensures GenerateFrom(items, rows, tracked, offset).Some?
  {
    forall c | c in items
      ensures !Drawer(rows)(c).Crash?
    {
      assert c.fields != [];
    }
    GenerateByNeverCrashes(items, Drawer(rows), tracked, offset);
  }

  lemma {:induction false} GenerateByNeverCrashes(items: seq<ChartItem>, draw: ChartItem -> Outcome, tracked: seq<Option<string>>, offset: nat)
    requires forall c :: c in items ==> !draw(c).Crash?
    ensures GenerateBy(items, draw, tracked, offset).Some?
    decreases |items|
  {
    if items != [] {
      assert items[0] in items;
      assert forall c :: c in items[1..] ==> c in items;
      GenerateByNeverCrashes(items[1..], draw, tracked, offset + 1);
    }
  }

  /** What was loaded for the selected file: its rows and the keys of its
      first row, or a failure to read it. */
  datatype Loaded = Loaded(rows: seq<Row>, columns: seq<string>) | LoadFailed

  /** The state of `DataVisualization`. */
  class ChartBoard {
    var fileData: Option<seq<Row>>
    /** `Object.keys(fileData[0])`, in the key order of that row. */
    var columns: seq<string>
    var charts: seq<ChartItem>
    var generated: seq<GeneratedChart>

    /** Chart ids are distinct and every chart has a field. */
    ghost predicate Valid()
      reads this
    {
      DistinctIds(charts) && forall c :: c in charts ==> c.fields != []
    }

    constructor()
      ensures fileData.None? && charts == [] && generated == [] && Valid()
    {
      fileData := None;
      columns := [];
      charts := [];
      generated := [];
    }

    /** `loadFileData`: the rows and, for a non-empty file with columns, a
        single default chart; on failure the sample and its chart. */
    method LoadFileData(source: Loaded)
      modifies this
      ensures source.Loaded? ==> fileData == Some(source.rows) && columns == source.columns
      ensures source.Loaded? && source.rows != [] && source.columns != [] ==>
        charts == [DefaultChart(source.columns).value]
      ensures source.Loaded? && (source.rows == [] || source.columns == []) ==> charts == old(charts)
      ensures source.LoadFailed? ==> (fileData == Some(SampleRows()) && columns == SampleColumns
                                     && charts == [ChartItem(1, "auto", "Chart 1", [Field("month", "sales", Some(DefaultColor))])])
      ensures generated == old(generated)
      ensures old(Valid()) ==> Valid()
    {
      match source
      case Loaded(rows, cols) =>
        fileData := Some(rows);
        columns := cols;
        if |rows| > 0 {
          var d := DefaultChart(cols);
          if d.Some? {
            charts := [d.value];
          }
        }
      case LoadFailed =>
        fileData := Some(SampleRows());
        columns := SampleColumns;
        charts := [DefaultChart(SampleColumns).value];
    }

    /** `addNewChart`: a chart with an id above every existing one, at the
        end.  With an empty file `fileData[0]` is missing and reading its
        keys throws, so nothing changes. */
    method AddNewChart()
      modifies this
      ensures fileData == Some([]) ==> charts == old(charts)
      ensures fileData != Some([]) ==>
        var columns' := if fileData.None? then ["field1", "field2"] else columns;
        charts == old(charts) + [NewChart(MaxId(old(charts)) + 1, columns')]
      ensures forall c :: c in old(charts) ==> c.id < charts[|charts| - 1].id || fileData == Some([])
      ensures fileData == old(fileData) && columns == old(columns) && generated == old(generated)
      ensures old(Valid()) ==> Valid()
    {
      if fileData == Some([]) {
        return;
      }
      var newId := MaxId(charts) + 1;
      var offered := if fileData.None? then ["field1", "field2"] else columns;
      var c := NewChart(newId, offered);
      NewIdIsFresh(charts, c);
      charts := charts + [c];
    }

    /** `removeChart`: with more than one chart, that id leaves both lists. */
    method RemoveChart(id: int)
      modifies this
      ensures |old(charts)| > 1 ==> charts == WithoutId(old(charts), id) && generated == WithoutGenerated(old(generated), id)
      ensures |old(charts)| <= 1 ==> charts == old(charts) && generated == old(generated)
      ensures fileData == old(fileData) && columns == old(columns)
      ensures old(Valid()) ==> Valid() && (old(charts) != [] ==> charts != [])
    {
      if |charts| > 1 {
        if Valid() {
          WithoutIdDistinct(charts, id);
          WithoutIdMembers(charts, id);
        }
        charts := WithoutId(charts, id);
        generated := WithoutGenerated(generated, id);
      }
    }

    /** `updateChart`: the update merged into the chart of that id. */
    method UpdateChart(id: int, u: ChartUpdate)
      modifies this
      ensures charts == UpdatedCharts(old(charts), id, u)
      ensures fileData == old(fileData) && columns == old(columns) && generated == old(generated)
      ensures old(Valid()) && (u.fields.Some? ==> u.fields.value != []) ==> Valid()
    {
      UpdatedKeepsIds(charts, id, u);
      charts := UpdatedCharts(charts, id, u);
    }

    /** `generateAllCharts`: nothing without data, charts or a token;
        otherwise every configuration in turn, keeping the drawn ones.  A
        throw inside the loop is caught outside it, before the list is
        set. */
    method GenerateAllCharts(hasToken: bool, tracked: seq<Option<string>>)
      modifies this
      ensures fileData.None? || old(charts) == [] || !hasToken ==> generated == old(generated)
      ensures fileData.Some? && old(charts) != [] && hasToken ==>
        var r := GenerateFrom(charts, fileData.value, tracked, 0);
        generated == if r.Some? then r.value else old(generated)
      ensures fileData == old(fileData) && columns == old(columns) && charts == old(charts)
    {
      if fileData.None? || |charts| == 0 || !hasToken {
        return;
      }
      var rows := fileData.value;
      var list := [];
      var i := 0;
      assert charts[0..] == charts;
      PrependEmpty(GenerateFrom(charts, rows, tracked, 0));
      while i < |charts|
        invariant 0 <= i <= |charts|
        invariant GenerateFrom(charts, rows, tracked, 0) == Prepend(list, GenerateFrom(charts[i..], rows, tracked, i))
        invariant fileData == old(fileData) && columns == old(columns) && charts == old(charts) && generated == old(generated)
      {
        var config := charts[i];
        var out := GenerateChartData(ConfigOf(config), rows);
        GenerateStep(charts, rows, tracked, i, out);
        if out.Crash? {
          return;
        }
        if out.Built? {
          PrependAppend(list, Generated(config, out.chart, TrackedAt(tracked, i)), GenerateFrom(charts[i + 1..], rows, tracked, i + 1));
          list := list + [Generated(config, out.chart, TrackedAt(tracked, i))];
        }
        i := i + 1;
      }
      assert charts[i..] == [];
      generated := list;
    }
  }

  /** The id `addNewChart` picks is above every id in use. */
  lemma NewIdIsFresh(charts: seq<ChartItem>, c: ChartItem)
    requires c.id == MaxId(charts) + 1
    ensures forall d :: d in charts ==> d.id < c.id
    ensures DistinctIds(charts) ==> DistinctIds(charts + [c])
  {
    if DistinctIds(charts) {
      forall i, j | 0 <= i < j < |charts + [c]|
        ensures (charts + [c])[i].id != (charts + [c])[j].id
      {
        if j == |charts| {
          assert charts[i] in charts;
        }
      }
    }
  }

  /** `list` in front of what the rest of the loop yields. */
  function Prepend(list: seq<GeneratedChart>, rest: Option<seq<GeneratedChart>>): Option<seq<GeneratedChart>> {
    if rest.None? then None else Some(list + rest.value)
  }

  lemma PrependEmpty(rest: Option<seq<GeneratedChart>>)
    ensures Prepend([], rest) == rest
  {
    if rest.Some? {
      assert [] + rest.value == rest.value;
    }
  }

  lemma PrependAppend(list: seq<GeneratedChart>, g: GeneratedChart, rest: Option<seq<GeneratedChart>>)
    ensures Prepend(list, Prepend([g], rest)) == Prepend(list + [g], rest)
  {
    if rest.Some? {
      assert list + ([g] + rest.value) == (list + [g]) + rest.value;
    }
  }

  /** One pass of the generation loop, given what the engine made of
      configuration `i`. */
  lemma GenerateStep(items: seq<ChartItem>, rows: seq<Row>, tracked: seq<Option<string>>, i: nat, out: Outcome)
    requires i < |items|
    requires out == GenerateChartData(ConfigOf(items[i]), rows)
    ensures out.Crash? ==> GenerateFrom(items[i..], rows, tracked, i).None?
    ensures out.NoChart? ==> GenerateFrom(items[i..], rows, tracked, i) == GenerateFrom(items[i + 1..], rows, tracked, i + 1)
    ensures out.Built? ==> (GenerateFrom(items[i..], rows, tracked, i) ==
      Prepend([Generated(items[i], out.chart, TrackedAt(tracked, i))], GenerateFrom(items[i + 1..], rows, tracked, i + 1)))
  {
    assert items[i..][0] == items[i];
    assert items[i..][1..] == items[i + 1..];
  }
}
