/** One field's editor: a column picker and a colour picker.  On a pie or
    doughnut chart the picker sets both keys of the field; otherwise the
    first field's picker sets its label key and every other field's picker
    its value key. */
module FieldSelector {
  import opened Common
  import opened ChartTypes
  import opened ChartConfiguration

  /** The column the picker shows as selected. */
  function Shown(f: Field, i: nat, chartType: string): (s: string)
    ensures IsCircular(chartType) ==> s == CircularKey(f)
    ensures !IsCircular(chartType) && i == 0 ==> s == f.labelKey
    ensures !IsCircular(chartType) && i != 0 ==> s == f.valueKey
  {
    if IsCircular(chartType) then CircularKey(f)
    else if i == 0 then f.labelKey
    else f.valueKey
  }

  /** The picker's `onChange`: the field with `column` in the keys the
      picker edits, and its colour kept. */
  function OnSelect(f: Field, i: nat, chartType: string, column: string): (r: Field)
    ensures r.color == f.color
    ensures IsCircular(chartType) ==> r.labelKey == column && r.valueKey == column
    ensures !IsCircular(chartType) && i == 0 ==> r.labelKey == column && r.valueKey == f.valueKey
    ensures !IsCircular(chartType) && i != 0 ==> r.labelKey == f.labelKey && r.valueKey == column
  {
    if IsCircular(chartType) then Field(column, column, f.color)
    else if i == 0 then Field(column, f.valueKey, f.color)
    else Field(f.labelKey, column, f.color)
  }

  /** The colour picker's `onChange`: only the colour changes. */
  function OnColor(f: Field, color: string): (r: Field)
    ensures r.labelKey == f.labelKey && r.valueKey == f.valueKey && r.color == Some(color)
  {
    Field(f.labelKey, f.valueKey, Some(color))
  }

  /** The picker then shows the column just chosen. */
  lemma SelectThenShown(f: Field, i: nat, chartType: string, column: string)
    ensures Shown(OnSelect(f, i, chartType, column), i, chartType) == column
  {
  }

  /** Choosing the column already shown changes nothing outside pie and
      doughnut charts; on those it makes both keys that column. */
  lemma SelectShownIsStable(f: Field, i: nat, chartType: string)
    ensures !IsCircular(chartType) ==> OnSelect(f, i, chartType, Shown(f, i, chartType)) == f
    ensures IsCircular(chartType) ==> OnSelect(f, i, chartType, Shown(f, i, chartType)) == Field(CircularKey(f), CircularKey(f), f.color)
  {
  }

  /** A colour change is invisible to the column picker. */
  lemma ColorKeepsShown(f: Field, i: nat, chartType: string, color: string)
    ensures Shown(OnColor(f, color), i, chartType) == Shown(f, i, chartType)
  {
  }
}
