/** The values the chart engine takes and produces: selected fields, chart
    labels, colours, datasets and the chart object itself. */
module ChartTypes {
  import opened Common
  import opened Cells

  /** One entry of `selectedFields`: its `label` and `value` column names
      and an optional colour. */
  datatype Field = Field(labelKey: string, valueKey: string, color: Option<string>)

  /** A chart label: a category key, the bounds of a numeric bin, the bin a
      NaN bound produces, or a raw cell of the label column. */
  datatype Label = Key(name: string) | Range(lo: real, hi: real) | NaNRange | Raw(cell: Cell)

  /** A colour: one given by the field, or `hsl(h, 70%, 60%)` with hue `h`. */
  datatype Color = Given(css: string) | Hue(degrees: real)

  datatype Series = Counts(counts: seq<nat>) | Numbers(numbers: seq<real>) | Points(points: seq<Point>)

  /** A scatter point `{x, y}`. */
  datatype Point = Point(x: nat, y: real)

  /** Background colours: one per label, or one for the whole dataset. */
  datatype Paint = PerLabel(colors: seq<Color>) | Uniform(color: Color)

  /** A dataset; `name` is its `label`. */
  datatype Dataset = Dataset(name: string, data: Series, paint: Paint)

  /** The chart object.  `total` is set for pie and doughnut charts, `axes`
      (`xLabel`, `yLabel`) for scatter charts. */
  datatype Chart = Chart(chartType: string, labels: seq<Label>, datasets: seq<Dataset>,
                         total: Option<int>, axes: Option<(string, string)>)

  /** What a chart builder ends in: a chart, `null`, or a thrown TypeError. */
  datatype Outcome = Built(chart: Chart) | NoChart | Crash

  /** `(i * 137.5) % 360`, computed exactly as a multiple of one half. */
  function GoldenHue(i: nat): (h: real)
    ensures 0.0 <= h < 360.0
  {
    ((i * 275) % 720) as real / 2.0
  }

  /** The colour of label `i`. */
  function IndexColors(n: nat): (r: seq<Color>)
    ensures |r| == n
    ensures forall i :: 0 <= i < n ==> r[i] == Hue(GoldenHue(i))
  {
    seq(n, i requires 0 <= i < n => Hue(GoldenHue(i)))
  }

  /** `valueField.color || hsl(...)` for the value field at position `index`. */
  function FieldColor(f: Field, index: nat): (c: Color)
    ensures f.color.Some? && f.color.value != "" ==> c == Given(f.color.value)
    ensures f.color.None? || f.color.value == "" ==> c == Hue(GoldenHue(index))
  {
    if f.color.Some? && f.color.value != "" then Given(f.color.value) else Hue(GoldenHue(index))
  }

  /** The hue is `i * 137.5` reduced by a whole number of turns. */
  lemma GoldenHueIsReduced(i: nat)
    ensures GoldenHue(i) == i as real * 137.5 - 360.0 * ((i * 275) / 720) as real
  {
    var q := (i * 275) / 720;
    assert i * 275 == q * 720 + (i * 275) % 720;
  }

  /** The palette repeats after 144 colours and depends on nothing but the
      position. */
  lemma GoldenHuePeriod(i: nat)
    ensures GoldenHue(i + 144) == GoldenHue(i)
  {
    var a := i * 275;
    assert (i + 144) * 275 == a + 39600;
    assert (a + 39600) % 720 == a % 720 by {
      assert a + 39600 == (a / 720 + 55) * 720 + a % 720;
    }
  }
}
