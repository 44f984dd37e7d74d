/** The preview of a loaded file: an error view for data that is not a
    non-empty list of rows or whose first row looks like raw XML or a zip
    archive, otherwise the first ten rows, the number left over, and a
    Number/Text guess per column from the first five rows. */
module DataPreview {
  import opened Common
  import opened Cells

  /** `fileData` as the component receives it. */
  datatype Data = Missing | NotArray | Rows(rows: seq<Row>)

  /** What the component renders. */
  datatype View =
    | Nothing
    | InvalidFormat
    | XmlDetected(firstRow: Row)
    | Table(shown: seq<Row>, more: nat, columnTypes: seq<ColumnType>)

  datatype ColumnType = ColumnType(header: string, numeric: bool)

  /** How many rows the table shows. */
  const PreviewRows: nat := 10

  /** How many rows the column-type guess looks at. */
  const SampleRows: nat := 5

  /** The markers of raw XML or of a zip archive in a string cell. */
  predicate Suspicious(s: string) {
    Contains(s, "<?xml") || Contains(s, "<") || Contains(s, "PK") || Contains(s, "Content_Types")
  }

  /** `'<?xml'` contains `'<'`, so the first marker adds nothing. */
  lemma XmlMarkerRedundant(s: string)
    ensures Suspicious(s) <==> Contains(s, "<") || Contains(s, "PK") || Contains(s, "Content_Types")
  {
    if Contains(s, "<?xml") {
      var i :| 0 <= i <= |s| && OccursAt(s, "<?xml", i);
      assert s[i..i + 5] == "<?xml";
      assert s[i] == s[i..i + 5][0] == '<';
      assert s[i..i + 1] == [s[i]] == "<";
      assert OccursAt(s, "<", i);
    }
  }

  /** `Object.values(firstRow).some(...)`: some string value is suspicious. */
  predicate HasXmlContent(row: Row) {
    exists k :: k in row && row[k].Str? && Suspicious(row[k].s)
  }

  /** `fileData.slice(0, 5).some(row => typeof row[header] === 'number')`. */
  function IsNumberColumn(rows: seq<Row>, header: string): (b: bool)
    ensures b <==> exists i :: 0 <= i < |rows| && i < SampleRows && Get(rows[i], header).Num?
  {
    var sample := rows[..Min(|rows|, SampleRows)];
    assert forall i :: 0 <= i < |sample| ==> sample[i] == rows[i];
    exists r :: r in sample && Get(r, header).Num?
  }

  /** The preview for the selected file; `columns` is
      `Object.keys(fileData[0])`, in that row's key order. */
  function Preview(data: Data, selected: bool, columns: seq<string>): (v: View)
    ensures v == Nothing <==> data == Missing || !selected
    ensures v == InvalidFormat <==> selected && (data == NotArray || data == Rows([]))
    ensures v.XmlDetected? <==> selected && data.Rows? && data.rows != [] && HasXmlContent(data.rows[0])
    ensures v.XmlDetected? ==> v.firstRow == data.rows[0]
    ensures v.Table? ==> (|v.shown| == Min(|data.rows|, PreviewRows)
                          && v.shown == data.rows[..|v.shown|]
                          && v.more == (if |data.rows| > PreviewRows then |data.rows| - PreviewRows else 0)
                          && |v.columnTypes| == |columns|
                          && forall j :: 0 <= j < |columns| ==>
                               v.columnTypes[j] == ColumnType(columns[j], IsNumberColumn(data.rows, columns[j])))
  {
    if data == Missing || !selected then Nothing
    else if data == NotArray || data.rows == [] then InvalidFormat
    else if HasXmlContent(data.rows[0]) then XmlDetected(data.rows[0])
    else
      var rows := data.rows;
      Table(rows[..Min(|rows|, PreviewRows)],
            if |rows| > PreviewRows then |rows| - PreviewRows else 0,
            seq(|columns|, j requires 0 <= j < |columns| => ColumnType(columns[j], IsNumberColumn(rows, columns[j]))))
  }

  /** Only the first row is inspected for XML: any rows may follow it. */
  lemma OnlyFirstRowInspected(first: Row, rest: seq<Row>, rest': seq<Row>, columns: seq<string>)
    ensures Preview(Rows([first] + rest), true, columns).XmlDetected?
        <==> Preview(Rows([first] + rest'), true, columns).XmlDetected?
  {
    assert ([first] + rest)[0] == first;
    assert ([first] + rest')[0] == first;
  }

  /** Rows past the fifth never change a column's type. */
  lemma TypeIgnoresLaterRows(rows: seq<Row>, more: seq<Row>, header: string)
    requires |rows| >= SampleRows
    ensures IsNumberColumn(rows + more, header) == IsNumberColumn(rows, header)
  {
    if IsNumberColumn(rows + more, header) {
      var i :| 0 <= i < |rows + more| && i < SampleRows && Get((rows + more)[i], header).Num?;
      assert (rows + more)[i] == rows[i];
    }
    if IsNumberColumn(rows, header) {
      var i :| 0 <= i < |rows| && i < SampleRows && Get(rows[i], header).Num?;
      assert (rows + more)[i] == rows[i];
    }
  }

  /** Shown and left-over rows together account for every row. */
  lemma ShownPlusMore(data: Data, columns: seq<string>)
    requires Preview(data, true, columns).Table?
    ensures var v := Preview(data, true, columns); |v.shown| + v.more == |data.rows| && |v.shown| <= PreviewRows
  {
  }
}
