/** The per-chart editor: adding and removing fields, switching the chart
    type, and replacing one field.  Each handler either asks the chart list
    for an update of one chart (`onUpdateChart(id, updates)`), modelled as
    the returned `ChartUpdate`, or does nothing (`None`). */
module ChartConfiguration {
  import opened Common
  import opened ChartTypes
  import opened ChartEngine
  import opened ChartBoard

  /** `["pie", "doughnut"].includes(t)`. */
  predicate IsCircular(t: string) {
    t == "pie" || t == "doughnut"
  }

  /** `charts.find(c => c.id === id)`: the first chart with that id. */
  function Find(charts: seq<ChartItem>, id: int): (r: Option<ChartItem>)
    ensures r.None? <==> forall c :: c in charts ==> c.id != id
    ensures r.Some? ==> r.value in charts && r.value.id == id
    ensures r.Some? ==> exists k :: 0 <= k < |charts| && charts[k] == r.value && forall j :: 0 <= j < k ==> charts[j].id != id
  {
    if charts == [] then None
    else if charts[0].id == id then Some(charts[0])
    else
      var rest := Find(charts[1..], id);
      assert forall c :: c in charts ==> c == charts[0] || c in charts[1..];
      if rest.Some? then
        var k :| 0 <= k < |charts[1..]| && charts[1..][k] == rest.value && forall j :: 0 <= j < k ==> charts[1..][j].id != id;
        assert charts[k + 1] == rest.value;
        Some(rest.value)
      else None
  }

  /** `s || fallback` on a string. */
  function OrElse(s: string, fallback: string): string {
    if s != "" then s else fallback
  }

  /** `addField`: outside pie and doughnut charts, one more field, built from
      the first two columns of the file and coloured by its position.
      `columns` is `None` when the file has no first row, where reading its
      keys throws before any update. */
  function AddField(charts: seq<ChartItem>, columns: Option<seq<string>>, id: int): (r: Option<ChartUpdate>)
    ensures r.Some? <==> Find(charts, id).Some? && !IsCircular(Find(charts, id).value.chartType) && columns.Some?
    ensures r.Some? ==> var c := Find(charts, id).value; var cols := columns.value;
      r.value.chartType.None? && r.value.title.None? && r.value.fields.Some?
      && r.value.fields.value == c.fields + [Field(OrElse(if |cols| > 0 then cols[0] else "", "field1"),
                                                   OrElse(if |cols| > 1 then cols[1] else "", "field2"),
                                                   Some(Hsl((|c.fields| * 60) % 360)))]
  {
    var chart := Find(charts, id);
    if chart.Some? && !IsCircular(chart.value.chartType) && columns.Some? then
      var cols := columns.value;
      var labelKey := OrElse(if |cols| > 0 then cols[0] else "", "field1");
      var value := OrElse(if |cols| > 1 then cols[1] else "", "field2");
      var newField := Field(labelKey, value, Some(Hsl((|chart.value.fields| * 60) % 360)));
      Some(ChartUpdate(None, None, Some(chart.value.fields + [newField])))
    else None
  }

  /** `fields.filter((_, index) => index !== i)`. */
  function RemoveIndex(fields: seq<Field>, i: int): (r: seq<Field>)
    ensures 0 <= i < |fields| ==> (|r| == |fields| - 1
      && forall k :: 0 <= k < |r| ==> r[k] == if k < i then fields[k] else fields[k + 1])
    ensures !(0 <= i < |fields|) ==> r == fields
  {
    if 0 <= i < |fields| then fields[..i] + fields[i + 1..] else fields
  }

  /** `removeField`: only a chart with more than one field loses one, so a
      chart never ends up without a field. */
  function RemoveField(charts: seq<ChartItem>, id: int, i: int): (r: Option<ChartUpdate>)
    ensures r.Some? <==> Find(charts, id).Some? && |Find(charts, id).value.fields| > 1
    ensures r.Some? ==> r.value.chartType.None? && r.value.title.None? && r.value.fields == Some(RemoveIndex(Find(charts, id).value.fields, i))
    ensures r.Some? ==> r.value.fields.value != []
  {
    var chart := Find(charts, id);
    if chart.Some? && |chart.value.fields| > 1 then
      Some(ChartUpdate(None, None, Some(RemoveIndex(chart.value.fields, i))))
    else None
  }

  /** The key a pie or doughnut chart keeps: `field.value || field.label`. */
  function CircularKey(f: Field): string {
    OrElse(f.valueKey, f.labelKey)
  }

  /** The type selector's `onChange`: the new type, and on a switch to pie or
      doughnut a single field whose label and value are both the first
      field's key. */
  function ChangeType(c: ChartItem, t: string): (u: ChartUpdate)
    ensures u.chartType == Some(t) && u.title.None?
    ensures !IsCircular(t) || c.fields == [] ==> u.fields.None?
    ensures IsCircular(t) && c.fields != [] ==>
      u.fields == Some([Field(CircularKey(c.fields[0]), CircularKey(c.fields[0]), c.fields[0].color)])
  {
    if IsCircular(t) && |c.fields| > 0 then
      var f := c.fields[0];
      var key := CircularKey(f);
      ChartUpdate(Some(t), None, Some([Field(key, key, f.color)]))
    else ChartUpdate(Some(t), None, None)
  }

  /** After switching a chart with fields to pie or doughnut it has exactly
      the one field the engine needs to draw it. */
  lemma CircularSwitchLeavesOneField(c: ChartItem, t: string)
    requires IsCircular(t) && c.fields != []
    ensures var c' := Merge(c, ChangeType(c, t));
      c'.chartType == t && |c'.fields| == 1 && c'.fields[0].labelKey == c'.fields[0].valueKey
      && c'.id == c.id && c'.title == c.title
  {
  }

  /** The title box's `onChange`: the typed text as the new title. */
  function Retitle(text: string): (u: ChartUpdate)
    ensures u.title == Some(text) && u.chartType.None? && u.fields.None?
  {
    ChartUpdate(None, Some(text), None)
  }

  /** Retitling changes the title and nothing else, and the last text typed
      wins. */
  lemma RetitleOnlyTitle(c: ChartItem, text: string, later: string)
    ensures Merge(c, Retitle(text)) == c.(title := text)
    ensures Merge(Merge(c, Retitle(text)), Retitle(later)) == Merge(c, Retitle(later))
  {
  }

  /** `FieldSelector`'s `onFieldUpdate`: field `i` replaced, the others
      kept.  The index always comes from rendering that field. */
  function UpdateFieldAt(c: ChartItem, i: nat, f: Field): (u: ChartUpdate)
    requires i < |c.fields|
    ensures u.chartType.None? && u.title.None? && u.fields.Some?
    ensures |u.fields.value| == |c.fields| && u.fields.value[i] == f
    ensures forall k :: 0 <= k < |c.fields| && k != i ==> u.fields.value[k] == c.fields[k]
  {
    ChartUpdate(None, None, Some(c.fields[i := f]))
  }

  /** A chart the editor changes keeps at least one field, so with the
      other handlers it never reaches the engine's no-field throw. */
  lemma EditsKeepAField(charts: seq<ChartItem>, columns: Option<seq<string>>, id: int, i: int, t: string)
    requires forall c :: c in charts ==> c.fields != []
    ensures var u := AddField(charts, columns, id); u.Some? ==> u.value.fields.value != []
    ensures var u := RemoveField(charts, id, i); u.Some? ==> u.value.fields.value != []
    ensures forall c :: c in charts ==> var u := ChangeType(c, t); u.fields.Some? ==> u.fields.value != []
  {
  }
}
