/** `generateChartData` and the builders it dispatches to: the automatic
    chart selector, the circular (pie and doughnut) chart, and the bar,
    line and scatter charts.  Every builder ends in a chart, in `null`, or
    in the TypeError that reading a field of a missing first field throws. */
module ChartEngine {
  import opened Common
  import opened Cells
  import opened Tally
  import opened Classifier
  import opened Aggregators
  import opened Binning
  import opened ChartTypes
  import opened SeriesValues

  /** A chart configuration: its `chartType` and `selectedFields`. */
  datatype ChartConfig = ChartConfig(chartType: string, fields: seq<Field>)

  function KeyLabels(keys: seq<string>): (r: seq<Label>)
    ensures |r| == |keys|
    ensures forall i :: 0 <= i < |keys| ==> r[i] == Key(keys[i])
  {
    seq(|keys|, i requires 0 <= i < |keys| => Key(keys[i]))
  }

  function RawLabels(cells: seq<Cell>): (r: seq<Label>)
    ensures |r| == |cells|
    ensures forall i :: 0 <= i < |cells| ==> r[i] == Raw(cells[i])
  {
    seq(|cells|, i requires 0 <= i < |cells| => Raw(cells[i]))
  }

  /** `Object.keys` and `Object.values` of a filled counter. */
  datatype Aggregate = Aggregate(labels: seq<Label>, data: seq<nat>)

  function CategoricalAggregate(values: seq<Cell>): (a: Aggregate)
    ensures |a.labels| == |a.data| && Sum(a.data) == |values|
  {
    CategoricalTotal(values);
    var d := CategoricalCounts(values);
    Aggregate(KeyLabels(d.keys), Values(d))
  }

  function BooleanAggregate(values: seq<Cell>): (a: Aggregate)
    ensures a.labels == [Key("True"), Key("False")] && Sum(a.data) == |values|
  {
    BooleanTotal(values);
    BooleanShape(values);
    var d := BooleanCounts(values);
    Aggregate(KeyLabels(d.keys), Values(d))
  }

  /** `Number(v)` of every value, or `None` when one of them is NaN. */
  function CoerceAll(values: seq<Cell>): (r: Option<seq<real>>)
    ensures r.Some? <==> forall i :: 0 <= i < |values| ==> Coerce(values[i]).Some?
    ensures r.Some? ==> |r.value| == |values|
    ensures r.Some? ==> forall i :: 0 <= i < |values| ==> r.value[i] == Coerce(values[i]).value
  {
    if values == [] then Some([])
    else
      var head := Coerce(values[0]);
      var tail := CoerceAll(values[1..]);
      if head.Some? && tail.Some? then Some([head.value] + tail.value) else None
  }

  /** The bins of a numeric column.  A NaN makes `Math.min` and `Math.max`
      NaN, so every bin is labelled `NaN-NaN` and no value is counted.  The
      bins are half-open, so the copies of the maximum are counted in none. */
  function NumericAggregate(values: seq<Cell>): (a: Aggregate)
    requires values != []
    ensures |a.labels| == |a.data|
    ensures CoerceAll(values).Some? ==> Sum(a.data) == HalfOpenCount(CoerceAll(values).value)
    ensures CoerceAll(values).None? ==> Sum(a.data) == 0
  {
    match CoerceAll(values)
    case Some(xs) =>
      HalfOpenCounted(xs);
      var d := BinTally(xs, false);
      Aggregate(d.keys, Values(d))
    case None => Aggregate([NaNRange], [0])
  }

  /** Repaired: the bins of a numeric column with the last bin closed, so
      every value is counted when none is NaN. */
  function NumericAggregateClosed(values: seq<Cell>): (a: Aggregate)
    requires values != []
    ensures |a.labels| == |a.data|
    ensures Sum(a.data) == if CoerceAll(values).Some? then |values| else 0
  {
    match CoerceAll(values)
    case Some(xs) =>
      ClosedTotal(xs);
      var d := BinTally(xs, true);
      Aggregate(d.keys, Values(d))
    case None => Aggregate([NaNRange], [0])
  }

  /** `generateCircularChart`: one dataset of counts, a colour per label,
      and the total, which is never 0. */
  function CircularChart(rows: seq<Row>, fields: seq<Field>, chartType: string): (r: Outcome)
    ensures r == Crash <==> fields == []
    ensures r.Built? ==> r.chart.chartType == chartType && |r.chart.datasets| == 1
    ensures r.Built? ==> var d := r.chart.datasets[0];
      d.data.Counts? && |d.data.counts| == |r.chart.labels|
      && d.paint == PerLabel(IndexColors(|r.chart.labels|))
      && r.chart.total == Some(Sum(d.data.counts)) && Sum(d.data.counts) > 0
      && r.chart.axes.None?
  {
    if fields == [] then Crash
    else
      var f := fields[0];
      var key := if f.valueKey != "" then f.valueKey else f.labelKey;
      CircularOfColumn(chartType, key, NonNull(Column(rows, key)))
  }

  /** The circular chart of the non-null values of column `key`. */
  function CircularOfColumn(chartType: string, key: string, values: seq<Cell>): (r: Outcome)
    ensures r != Crash
    ensures r.Built? ==> r.chart.chartType == chartType && |r.chart.datasets| == 1
    ensures r.Built? ==> var d := r.chart.datasets[0];
      d.name == key && d.data.Counts? && |d.data.counts| == |r.chart.labels|
      && d.paint == PerLabel(IndexColors(|r.chart.labels|))
      && r.chart.total == Some(Sum(d.data.counts)) && Sum(d.data.counts) > 0
      && r.chart.axes.None?
  {
    if values == [] then NoChart else CircularOfType(chartType, key, values, GetDataType(values))
  }

  /** The circular chart of a non-empty column of type `t`. */
  function CircularOfType(chartType: string, key: string, values: seq<Cell>, t: DataType): (r: Outcome)
    requires values != []
    ensures r != Crash
    ensures r.Built? ==> r.chart.chartType == chartType && |r.chart.datasets| == 1
    ensures r.Built? ==> var d := r.chart.datasets[0];
      d.name == key && d.data.Counts? && |d.data.counts| == |r.chart.labels|
      && d.paint == PerLabel(IndexColors(|r.chart.labels|))
      && r.chart.total == Some(Sum(d.data.counts)) && Sum(d.data.counts) > 0
      && r.chart.axes.None?
    ensures r == NoChart <==> t == StringData || Sum(CircularAggregate(values, t).data) == 0
    ensures r.Built? ==> r.chart.total == Some(Sum(CircularAggregate(values, t).data))
  {
    if t == StringData then NoChart
    else
      var a := CircularAggregate(values, t);
      SumNonNegative(a.data);
      if Sum(a.data) == 0 then NoChart else Built(CircularOf(chartType, key, a))
  }

  /** The counter a circular chart fills for a column of type `t`. */
  function CircularAggregate(values: seq<Cell>, t: DataType): (a: Aggregate)
    requires values != []
    ensures |a.labels| == |a.data|
    ensures t == BooleanData || t == CategoricalData ==> Sum(a.data) == |values|
    ensures t != BooleanData && t != CategoricalData ==>
      Sum(a.data) == if CoerceAll(values).Some? then HalfOpenCount(CoerceAll(values).value) else 0
  {
    if t == BooleanData then BooleanAggregate(values)
    else if t == CategoricalData then CategoricalAggregate(values)
    else NumericAggregate(values)
  }

  /** The chart object of a filled circular counter. */
  function CircularOf(chartType: string, key: string, a: Aggregate): (c: Chart)
    requires |a.labels| == |a.data|
    ensures c.chartType == chartType && c.labels == a.labels && c.total == Some(Sum(a.data)) && c.axes.None?
    ensures c.datasets == [Dataset(key, Counts(a.data), PerLabel(IndexColors(|a.labels|)))]
  {
    Chart(chartType, a.labels, [Dataset(key, Counts(a.data), PerLabel(IndexColors(|a.labels|)))], Some(Sum(a.data)), None)
  }

  /** The single-field bar chart: counts, with the boolean counter for a
      boolean column and the categorical counter for every other one. */
  function SingleFieldBar(rows: seq<Row>, f: Field): (c: Chart)
    ensures c.chartType == "bar" && |c.datasets| == 1
    ensures var d := c.datasets[0];
      d.name == "Count of " + f.valueKey && d.data.Counts? && |d.data.counts| == |c.labels|
      && Sum(d.data.counts) == |NonNull(Column(rows, f.valueKey))|
      && d.paint == PerLabel(IndexColors(|c.labels|))
  {
    var values := NonNull(Column(rows, f.valueKey));
    var a := if GetDataType(values) == BooleanData then BooleanAggregate(values) else CategoricalAggregate(values);
    Chart("bar", a.labels, [Dataset("Count of " + f.valueKey, Counts(a.data), PerLabel(IndexColors(|a.labels|)))],
          None, None)
  }

  /** Value field `index` of a multi-field bar chart: the means by label when
      the label column is categorical, else the column's numbers. */
  function BarDataset(rows: seq<Row>, labels: seq<Cell>, f: Field, index: nat): Dataset {
    var values := NonNull(Column(rows, f.valueKey));
    var data := if GetDataType(labels) == CategoricalData then GroupedMeans(labels, values) else NumericValues(values);
    Dataset(f.valueKey, Numbers(data), Uniform(FieldColor(f, index)))
  }

  /** A dataset of `Number`s of each value field, for line charts. */
  function LineDataset(rows: seq<Row>, f: Field, index: nat): Dataset {
    Dataset(f.valueKey, Numbers(NumericValues(NonNull(Column(rows, f.valueKey)))), Uniform(FieldColor(f, index)))
  }

  function DataLength(s: Series): nat {
    match s
    case Counts(c) => |c|
    case Numbers(n) => |n|
    case Points(p) => |p|
  }

  /** `finalLabels` as written: the label column cut to the first dataset's
      length. */
  function LabelsAsWritten(labels: seq<Cell>, datasets: seq<Dataset>): (r: seq<Label>)
    ensures |r| <= |labels|
    ensures datasets != [] ==> |r| == Min(|labels|, DataLength(datasets[0].data))
  {
    if datasets != [] then RawLabels(labels[..Min(|labels|, DataLength(datasets[0].data))]) else RawLabels(labels)
  }

  /** A circular chart is drawn unless the column is empty, holds nothing
      but empty cells, or is numeric with a value `Number` makes NaN of or
      with all its values equal.  When drawn, its total is the number of
      values, less the copies of the maximum in a numeric column. */
  lemma CircularOutcome(chartType: string, key: string, values: seq<Cell>)
    ensures var t := GetDataType(values);
      CircularOfColumn(chartType, key, values) == NoChart <==>
        values == [] || t == StringData
        || (t == NumericData && (CoerceAll(values).None? || SeqMin(CoerceAll(values).value) == SeqMax(CoerceAll(values).value)))
    ensures var t := GetDataType(values);
      CircularOfColumn(chartType, key, values).Built? ==>
        CircularOfColumn(chartType, key, values).chart.total
          == Some(if t == NumericData then |values| - multiset(CoerceAll(values).value)[SeqMax(CoerceAll(values).value)]
                  else |values|)
  {
    if values != [] {
      TypedOutcome(chartType, key, values, GetDataType(values));
    }
  }

  lemma TypedOutcome(chartType: string, key: string, values: seq<Cell>, t: DataType)
    requires values != []
    ensures CircularOfType(chartType, key, values, t) == NoChart <==>
      t == StringData
      || (t == NumericData && (CoerceAll(values).None? || SeqMin(CoerceAll(values).value) == SeqMax(CoerceAll(values).value)))
    ensures CircularOfType(chartType, key, values, t).Built? ==>
      CircularOfType(chartType, key, values, t).chart.total
        == Some(if t == NumericData then |values| - multiset(CoerceAll(values).value)[SeqMax(CoerceAll(values).value)]
                else |values|)
  {
    if t == NumericData {
      NumericTyped(chartType, key, values);
    } else if t != StringData {
      assert Sum(CircularAggregate(values, t).data) == |values|;
    }
  }

  lemma NumericTyped(chartType: string, key: string, values: seq<Cell>)
    requires values != []
    ensures CircularOfType(chartType, key, values, NumericData) == NoChart <==>
      CoerceAll(values).None? || SeqMin(CoerceAll(values).value) == SeqMax(CoerceAll(values).value)
    ensures CircularOfType(chartType, key, values, NumericData).Built? ==>
      CircularOfType(chartType, key, values, NumericData).chart.total
        == Some(|values| - multiset(CoerceAll(values).value)[SeqMax(CoerceAll(values).value)])
  {
    NumericCounted(values);
    assert Sum(CircularAggregate(values, NumericData).data) == Sum(NumericAggregate(values).data);
  }

  /** The numeric counter counts something exactly when no value is NaN and
      the values are not all equal, and then misses the copies of the
      maximum. */
  lemma NumericCounted(values: seq<Cell>)
    requires values != []
    ensures var a := NumericAggregate(values);
      Sum(a.data) > 0 <==> CoerceAll(values).Some? && SeqMin(CoerceAll(values).value) < SeqMax(CoerceAll(values).value)
    ensures var a := NumericAggregate(values);
      Sum(a.data) > 0 ==> Sum(a.data) == |values| - multiset(CoerceAll(values).value)[SeqMax(CoerceAll(values).value)]
  {
    if CoerceAll(values).Some? {
      var xs := CoerceAll(values).value;
      if SeqMin(xs) < SeqMax(xs) {
        SeqBounds(xs);
        MultiplicityBelow(xs, SeqMin(xs), SeqMax(xs));
      }
    }
  }

  /** A value other than `b` in `xs` leaves fewer than `|xs|` copies of `b`. */
  lemma {:induction false} MultiplicityBelow(xs: seq<real>, a: real, b: real)
    requires a in xs && a != b
    ensures multiset(xs)[b] < |xs|
  {
    assert xs == [xs[0]] + xs[1..];
    if xs[0] == a {
      MultiplicityAtMost(xs[1..], b);
    } else {
      MultiplicityBelow(xs[1..], a, b);
    }
  }

  lemma {:induction false} MultiplicityAtMost(xs: seq<real>, b: real)
    ensures multiset(xs)[b] <= |xs|
  {
    if xs != [] {
      assert xs == [xs[0]] + xs[1..];
      MultiplicityAtMost(xs[1..], b);
    }
  }

  /** A column of plain numbers makes a circular chart exactly when they
      are not all equal, and its total leaves out the copies of the
      maximum. */
  lemma NumbersMakeCircularChart(chartType: string, key: string, values: seq<Cell>)
    requires values != [] && forall i :: 0 <= i < |values| ==> values[i].Num?
    ensures CoerceAll(values).Some?
    ensures var xs := CoerceAll(values).value;
      CircularOfColumn(chartType, key, values).Built? <==> SeqMin(xs) < SeqMax(xs)
    ensures var xs := CoerceAll(values).value;
      CircularOfColumn(chartType, key, values).Built? ==>
        CircularOfColumn(chartType, key, values).chart.total == Some(|values| - multiset(xs)[SeqMax(xs)])
  {
    assert values[0] in values && Present(values[0]);
    NumbersAreNumeric(values);
    assert forall i :: 0 <= i < |values| ==> Coerce(values[i]).Some?;
    SeqBounds(CoerceAll(values).value);
    CircularOutcome(chartType, key, values);
  }

  /** `generateBarChart`.  With no field and some rows, reading the missing
      label field throws. */
  function BarChart(rows: seq<Row>, fields: seq<Field>): (r: Outcome)
    ensures r != NoChart
    ensures r == Crash <==> fields == [] && rows != []
    ensures r.Built? ==> r.chart.chartType == "bar" && r.chart.total.None? && r.chart.axes.None?
    ensures r.Built? && |fields| >= 2 ==> |r.chart.datasets| == |fields| - 1
  {
    if |fields| == 1 then Built(SingleFieldBar(rows, fields[0]))
    else if fields == [] then (if rows == [] then Built(Chart("bar", [], [], None, None)) else Crash)
    else
      var labels := NonNull(Column(rows, fields[0].labelKey));
      var valueFields := fields[1..];
      var datasets := seq(|valueFields|, i requires 0 <= i < |valueFields| => BarDataset(rows, labels, valueFields[i], i));
      Built(Chart("bar", LabelsAsWritten(labels, datasets), datasets, None, None))
  }

  /** Value field `k + 1` of a multi-field bar chart becomes dataset `k`:
      under a categorical label column it holds one mean per group key,
      otherwise the column's numbers.  Either way the labels are the raw
      label column cut to the first dataset's length, so bar `i` carries
      the `i`-th raw label whether or not it is the mean of that label's
      group. */
  lemma MultiBarShape(rows: seq<Row>, fields: seq<Field>, k: nat)
    requires |fields| >= 2 && k < |fields| - 1
    ensures BarChart(rows, fields).Built?
    ensures var c := BarChart(rows, fields).chart;
      var labels := NonNull(Column(rows, fields[0].labelKey));
      var values := NonNull(Column(rows, fields[k + 1].valueKey));
      var d := c.datasets[k];
      d.name == fields[k + 1].valueKey && d.paint == Uniform(FieldColor(fields[k + 1], k))
      && (GetDataType(labels) == CategoricalData ==> d.data == Numbers(GroupedMeans(labels, values)))
      && (GetDataType(labels) != CategoricalData ==> d.data == Numbers(NumericValues(values)))
      && c.labels == LabelsAsWritten(labels, c.datasets)
      && |c.labels| == Min(|labels|, DataLength(c.datasets[0].data))
      && forall i :: 0 <= i < |c.labels| ==> c.labels[i] == Raw(labels[i])
  {
  }

  /** Repaired: the labels of a grouped bar chart are the group keys. */
  function GroupLabels(labels: seq<Cell>): seq<Label> {
    KeyLabels(GroupOrder(labels))
  }

  /** Repaired: there is one group-key label per mean, each key is
      labelled once, and bar `i` is the mean of the numbers of the rows
      whose label has key `i`. */
  lemma GroupLabelsMatchMeans(labels: seq<Cell>, values: seq<Cell>)
    ensures |GroupLabels(labels)| == |GroupedMeans(labels, values)|
    ensures Distinct(GroupLabels(labels))
    ensures forall i :: 0 <= i < |GroupLabels(labels)| ==>
      var k := GroupOrder(labels)[i];
      GroupLabels(labels)[i] == Key(k)
      && GroupedMeans(labels, values)[i] == Mean(Pushed(labels, values, k, |labels|))
      && exists j :: 0 <= j < |labels| && GroupKey(labels[j]) == k
  {
    var order := GroupOrder(labels);
    GroupOrderKeys(labels, "");
    forall i | 0 <= i < |order|
      ensures exists j :: 0 <= j < |labels| && GroupKey(labels[j]) == order[i]
    {
      GroupOrderKeys(labels, order[i]);
    }
  }

  /** The label column `A, A, B` with values `10, 20, 5`: the bars are the
      means 15 and 5 of the groups `A` and `B`, but the labels as written
      are the first two raw labels, `A` and `A`; the group keys are `A`
      and `B`. */
  lemma GroupedBarLabelsAsWritten(labels: seq<Cell>, values: seq<Cell>, ds: seq<Dataset>)
    requires labels == [Str("A"), Str("A"), Str("B")] && values == [Num(10.0), Num(20.0), Num(5.0)]
    requires ds == [Dataset("v", Numbers(GroupedMeans(labels, values)), Uniform(Hue(0.0)))]
    ensures GroupedMeans(labels, values) == [15.0, 5.0]
    ensures LabelsAsWritten(labels, ds) == [Raw(Str("A")), Raw(Str("A"))]
    ensures GroupLabels(labels) == [Key("A"), Key("B")]
  {
    ExampleGroupLabels(labels);
    ExampleMeans(labels, values);
    assert DataLength(ds[0].data) == 2;
    assert labels[..2] == [Str("A"), Str("A")];
  }

  /** Repaired, on the label column `A, A, B`: the labels are `A` and `B`. */
  lemma ExampleGroupLabels(labels: seq<Cell>)
    requires labels == [Str("A"), Str("A"), Str("B")]
    ensures GroupOrder(labels) == ["A", "B"]
    ensures GroupLabels(labels) == [Key("A"), Key("B")]
  {
    var ks := GroupKeys(labels);
    assert ks[0] == "A" && ks[1] == "A" && ks[2] == "B";
    assert ks == ["A", "A", "B"];
    ExampleTally(ks);
    var r := GroupLabels(labels);
    assert |r| == 2 && r[0] == Key("A") && r[1] == Key("B");
  }

  lemma ExampleTally(ks: seq<string>)
    requires ks == ["A", "A", "B"]
    ensures TallyFrom(Empty(), ks).keys == ["A", "B"]
  {
    var t1 := Bump(Empty(), "A");
    assert t1.keys == ["A"];
    var t2 := Bump(t1, "A");
    assert t2.keys == ["A"];
    var t3 := Bump(t2, "B");
    assert t3.keys == ["A", "B"];
    assert ks[1..] == ["A", "B"] && ks[1..][1..] == ["B"] && ks[1..][1..][1..] == [];
    calc {
      TallyFrom(Empty(), ks);
      TallyFrom(t1, ["A", "B"]);
      TallyFrom(t2, ["B"]);
      TallyFrom(t3, []);
    }
  }

  /** `A, A, B` with `10, 20, 5`: the group means are 15 and 5. */
  lemma ExampleMeans(labels: seq<Cell>, values: seq<Cell>)
    requires labels == [Str("A"), Str("A"), Str("B")] && values == [Num(10.0), Num(20.0), Num(5.0)]
    requires GroupOrder(labels) == ["A", "B"]
    ensures GroupedMeans(labels, values) == [15.0, 5.0]
  {
    ExamplePushed(labels, values);
    var r := GroupedMeans(labels, values);
    assert r[0] == Mean([10.0, 20.0]);
    assert r[1] == Mean([5.0]);
    assert RealSum([10.0, 20.0]) == 30.0;
  }

  lemma ExamplePushed(labels: seq<Cell>, values: seq<Cell>)
    requires labels == [Str("A"), Str("A"), Str("B")] && values == [Num(10.0), Num(20.0), Num(5.0)]
    ensures Pushed(labels, values, "A", 3) == [10.0, 20.0] && Pushed(labels, values, "B", 3) == [5.0]
  {
    assert IsNumeric(values[0]) && IsNumeric(values[1]) && IsNumeric(values[2]);
    assert Paired(values, 0) == [10.0] && Paired(values, 1) == [20.0] && Paired(values, 2) == [5.0];
    assert GroupKey(labels[0]) == "A" && GroupKey(labels[1]) == "A" && GroupKey(labels[2]) == "B";
    assert Pushed(labels, values, "A", 1) == [10.0];
    assert Pushed(labels, values, "A", 2) == [10.0, 20.0];
    assert Pushed(labels, values, "A", 3) == [10.0, 20.0];
    assert Pushed(labels, values, "B", 1) == [];
    assert Pushed(labels, values, "B", 2) == [];
    assert Pushed(labels, values, "B", 3) == [5.0];
  }

  /** `generateLineChart`: the numbers of each value field, under the label
      column cut to the first dataset's length. */
  function LineChart(rows: seq<Row>, fields: seq<Field>): (r: Outcome)
    ensures r != NoChart
    ensures r == Crash <==> fields == [] && rows != []
    ensures r.Built? ==> r.chart.chartType == "line" && r.chart.total.None? && r.chart.axes.None?
    ensures r.Built? && fields != [] ==> |r.chart.datasets| == |fields| - 1
    ensures r.Built? && |fields| >= 2 ==>
      |r.chart.labels| == Min(|NonNull(Column(rows, fields[0].labelKey))|, DataLength(r.chart.datasets[0].data))
    ensures r.Built? && |fields| == 1 ==> r.chart.labels == RawLabels(NonNull(Column(rows, fields[0].labelKey)))
  {
    if fields == [] then (if rows == [] then Built(Chart("line", [], [], None, None)) else Crash)
    else
      var labels := NonNull(Column(rows, fields[0].labelKey));
      var valueFields := fields[1..];
      var datasets := seq(|valueFields|, i requires 0 <= i < |valueFields| => LineDataset(rows, valueFields[i], i));
      Built(Chart("line", LabelsAsWritten(labels, datasets), datasets, None, None))
  }

  function ValueNames(fields: seq<Field>): (r: seq<string>)
    ensures |r| == |fields|
    ensures forall i :: 0 <= i < |fields| ==> r[i] == fields[i].valueKey
  {
    seq(|fields|, i requires 0 <= i < |fields| => fields[i].valueKey)
  }

  /** One scatter dataset: points pairing positions with the column's
      numbers. */
  function ScatterDataset(rows: seq<Row>, labelCount: nat, f: Field, index: nat): Dataset {
    var values := NumericValues(Column(rows, f.valueKey));
    Dataset(f.valueKey, Points(PointsOf(labelCount, values)), Uniform(FieldColor(f, index)))
  }

  /** `generateScatterChart`: every dataset's points are numbered from 0
      and there are no more of them than labels. */
  function ScatterChart(rows: seq<Row>, fields: seq<Field>): (r: Outcome)
    ensures r != Crash
    ensures r == NoChart <==> |fields| < 2
    ensures r.Built? ==> r.chart.chartType == "scatter" && |r.chart.datasets| == |fields| - 1
    ensures r.Built? ==> r.chart.labels == RawLabels(NonNull(Column(rows, fields[0].labelKey)))
    ensures r.Built? ==> r.chart.axes == Some((fields[0].labelKey, Join(ValueNames(fields[1..]), ", ")))
    ensures r.Built? ==> forall k :: 0 <= k < |r.chart.datasets| ==>
      var d := r.chart.datasets[k];
      d.name == fields[k + 1].valueKey && d.paint == Uniform(FieldColor(fields[k + 1], k))
      && d.data.Points? && |d.data.points| <= |r.chart.labels|
      && forall i :: 0 <= i < |d.data.points| ==> d.data.points[i].x == i
  {
    if |fields| < 2 then NoChart
    else
      var labels := NonNull(Column(rows, fields[0].labelKey));
      var valueFields := fields[1..];
      var datasets := seq(|valueFields|, i requires 0 <= i < |valueFields| => ScatterDataset(rows, |labels|, valueFields[i], i));
      Built(Chart("scatter", RawLabels(labels), datasets, None,
                  Some((fields[0].labelKey, Join(ValueNames(valueFields), ", ")))))
  }

  /** `generateAutoChart`: never an `auto` chart.  One field makes a pie of a
      categorical or boolean column and a bar chart otherwise; two fields
      make a bar chart of a categorical label column with numeric values, a
      line chart of other numeric values, and a bar chart otherwise; any
      other number of fields makes a bar chart.  Only a pie can be `null`. */
  function AutoChart(rows: seq<Row>, fields: seq<Field>): (r: Outcome)
    ensures r == Crash <==> fields == [] && rows != []
    ensures r.Built? ==> r.chart.chartType in {"pie", "bar", "line"}
    ensures |fields| == 1 && r.Built? ==>
      var t := GetDataType(NonNull(Column(rows, fields[0].valueKey)));
      r.chart.chartType == if t == CategoricalData || t == BooleanData then "pie" else "bar"
    ensures |fields| == 2 && r.Built? ==>
      var labelType := GetDataType(Column(rows, fields[0].labelKey));
      var valueType := GetDataType(Column(rows, fields[1].valueKey));
      r.chart.chartType == if labelType == CategoricalData && valueType == NumericData then "bar"
                           else if valueType == NumericData then "line" else "bar"
    ensures |fields| != 1 && |fields| != 2 && r.Built? ==> r.chart.chartType == "bar"
    ensures r == NoChart ==>
      |fields| == 1 && GetDataType(NonNull(Column(rows, fields[0].valueKey))) in {CategoricalData, BooleanData}
  {
    if |fields| == 1 then
      var t := GetDataType(NonNull(Column(rows, fields[0].valueKey)));
      if t == CategoricalData || t == BooleanData then CircularChart(rows, fields, "pie")
      else BarChart(rows, fields)
    else if |fields| == 2 then
      var labelType := GetDataType(Column(rows, fields[0].labelKey));
      var valueType := GetDataType(Column(rows, fields[1].valueKey));
      if labelType == CategoricalData && valueType == NumericData then BarChart(rows, fields)
      else if valueType == NumericData then LineChart(rows, fields)
      else BarChart(rows, fields)
    else BarChart(rows, fields)
  }

  /** `generateChartData`: `null` for no rows, an unknown type, or a pie or
      doughnut without exactly one field; a thrown TypeError exactly when a
      bar, line or automatic chart has no field. */
  function GenerateChartData(config: ChartConfig, rows: seq<Row>): (r: Outcome)
    ensures rows == [] ==> r == NoChart
    ensures config.chartType !in {"auto", "pie", "doughnut", "bar", "line", "scatter"} ==> r == NoChart
    ensures config.chartType in {"pie", "doughnut"} && |config.fields| != 1 ==> r == NoChart
    ensures r == Crash <==> rows != [] && config.fields == [] && config.chartType in {"auto", "bar", "line"}
    ensures r.Built? && config.chartType != "auto" ==> r.chart.chartType == config.chartType
    ensures r.Built? ==> r.chart.chartType != "auto"
  {
    if rows == [] then NoChart
    else if config.chartType == "auto" then AutoChart(rows, config.fields)
    else if config.chartType == "pie" || config.chartType == "doughnut" then
      if |config.fields| != 1 then NoChart else CircularChart(rows, config.fields, config.chartType)
    else if config.chartType == "bar" then BarChart(rows, config.fields)
    else if config.chartType == "line" then LineChart(rows, config.fields)
    else if config.chartType == "scatter" then ScatterChart(rows, config.fields)
    else NoChart
  }
}
