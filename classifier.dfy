/** `getDataType`: the kind of a column, decided by a plurality vote of its
    present cells. */
module Classifier {
  import opened Common
  import opened Cells

  datatype DataType = NumericData | BooleanData | CategoricalData | StringData

  /** Not null, undefined or the empty string. */
  predicate Present(c: Cell) {
    c != Null && c != Str("")
  }

  function PresentCells(values: seq<Cell>): (r: seq<Cell>)
    ensures forall c :: c in r <==> c in values && Present(c)
  {
    FilterMembers(values, Present);
    Filter(values, Present)
  }

  /** Present cells that are neither numeric nor boolean; cells that are
      both are subtracted twice, so this can be negative. */
  function StringCount(present: seq<Cell>): int {
    |present| - CountWhere(present, IsNumeric) - CountWhere(present, IsBoolean)
  }

  function GetDataType(values: seq<Cell>): DataType {
    var present := PresentCells(values);
    if present == [] then StringData
    else
      var numeric := CountWhere(present, IsNumeric);
      var boolean := CountWhere(present, IsBoolean);
      var strings := StringCount(present);
      if numeric > strings && numeric > boolean then NumericData
      else if boolean > strings then BooleanData
      else CategoricalData
  }

  // ---------------------------------------------------------------------------
  // What the vote decides

  /** `'string'` comes out exactly when no cell is present. */
  lemma StringIffNothingPresent(values: seq<Cell>)
    ensures GetDataType(values) == StringData <==> forall c :: c in values ==> !Present(c)
  {
    var present := PresentCells(values);
    if present != [] {
      assert present[0] in present;
    }
  }

  /** Absent cells cast no vote: filtering them out first changes nothing. */
  lemma {:induction false} AbsentCellsIgnored(values: seq<Cell>)
    ensures GetDataType(NonNull(values)) == GetDataType(values)
  {
    NonNullPresent(values);
  }

  lemma NonNullPresent(values: seq<Cell>)
    ensures PresentCells(NonNull(values)) == PresentCells(values)
  {
    FilterOfFilter(values, c => c != Null, Present);
  }

  /** A column of numbers (at least one present) is numeric. */
  lemma NumbersAreNumeric(values: seq<Cell>)
    requires exists c :: c in values && Present(c)
    requires forall c :: c in values && Present(c) ==> c.Num?
    ensures GetDataType(values) == NumericData
  {
    var present := PresentCells(values);
    var c :| c in values && Present(c);
    assert c in present;
    FilterKeepsAll(present, IsNumeric);
    FilterKeepsNone(present, IsBoolean);
  }

  /** A column of native booleans is boolean, although every such cell is
      numeric too. */
  lemma NativeBooleansAreBoolean(values: seq<Cell>)
    requires exists c :: c in values && Present(c)
    requires forall c :: c in values && Present(c) ==> c.Bool?
    ensures GetDataType(values) == BooleanData
  {
    var present := PresentCells(values);
    var c :| c in values && Present(c);
    assert c in present;
    FilterKeepsAll(present, IsNumeric);
    FilterKeepsAll(present, IsBoolean);
  }

  /** A column with no numeric and no boolean cell (and some present cell)
      is categorical. */
  lemma TextIsCategorical(values: seq<Cell>)
    requires exists c :: c in values && Present(c)
    requires forall c :: c in values ==> !IsNumeric(c) && !IsBoolean(c)
    ensures GetDataType(values) == CategoricalData
  {
    var present := PresentCells(values);
    var c :| c in values && Present(c);
    assert c in present;
    FilterKeepsNone(present, IsNumeric);
    FilterKeepsNone(present, IsBoolean);
  }

  /** The string count goes negative on a column of "0"/"1" words. */
  lemma StringCountCanBeNegative()
    ensures StringCount(PresentCells([Str("1")])) == -1
    ensures GetDataType([Str("1")]) == BooleanData
  {
    DigitWordsAreBoth();
    assert PresentCells([Str("1")]) == [Str("1")];
    assert Filter([Str("1")], IsNumeric) == [Str("1")];
    assert Filter([Str("1")], IsBoolean) == [Str("1")];
  }
}
