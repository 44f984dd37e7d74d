/** `parseCSV`: text split into lines, blank lines dropped, the first line
    read as the header and every later line with as many fields as the
    header turned into a row.  The line splitter `parseCSVLine` walks the
    characters once: a double quote flips the in-quotes flag and is never
    kept, a comma outside quotes ends a field, and every field is trimmed.
    Unlike section 2 of RFC 4180, a doubled quote inside a quoted field
    yields no quote character, and a field cannot span lines. */
module Csv {
  import opened Common
  import opened JsCoercion
  import opened Cells

  // ---------------------------------------------------------------------------
  // Lines

  /** `s.split(sep)`: the pieces between the separators, in order; there is
      always at least one piece. */
  function Split(s: string, sep: char): (r: seq<string>)
    ensures |r| >= 1
    ensures forall i :: 0 <= i < |r| ==> sep !in r[i]
  {
    if s == [] then [""]
    else if s[0] == sep then [""] + Split(s[1..], sep)
    else
      var rest := Split(s[1..], sep);
      [[s[0]] + rest[0]] + rest[1..]
  }

  lemma JoinHead(a: string, parts: seq<string>, sep: string)
    requires parts != []
    ensures Join([a + parts[0]] + parts[1..], sep) == a + Join(parts, sep)
  {
    var p := [a + parts[0]] + parts[1..];
    if |parts| > 1 {
      assert p[1..] == parts[1..];
    }
  }

  /** Joining the pieces with the separator gives back the text. */
  lemma {:induction false} SplitJoin(s: string, sep: char)
    ensures Join(Split(s, sep), [sep]) == s
  {
    if s != [] {
      var rest := Split(s[1..], sep);
      SplitJoin(s[1..], sep);
      if s[0] == sep {
        assert Split(s, sep) == [""] + rest;
        assert ([""] + rest)[1..] == rest;
      } else {
        JoinHead([s[0]], rest, [sep]);
      }
    }
  }

  /** A text without the separator is one piece. */
  lemma {:induction false} SplitNone(s: string, sep: char)
    requires sep !in s
    ensures Split(s, sep) == [s]
  {
    if s != [] {
      SplitNone(s[1..], sep);
      assert s[0] != sep;
      assert [s[0]] + s[1..] == s;
    }
  }

  predicate NotBlank(line: string) {
    Trim(line) != ""
  }

  /** `content.split('\n').filter(line => line.trim())`. */
  function Lines(content: string): (r: seq<string>)
    ensures forall l :: l in r ==> NotBlank(l) && '\n' !in l
  {
    FilterMembers(Split(content, '\n'), NotBlank);
    Filter(Split(content, '\n'), NotBlank)
  }

  // ---------------------------------------------------------------------------
  // The line splitter

  /** The fields the splitter produces from the rest of a line, starting in
      the given quote state with the given pending field text. */
  function Fields(line: string, inQuotes: bool, current: string): (r: seq<string>)
    ensures r != []
    decreases |line|
  {
    if line == [] then [Trim(current)]
    else if line[0] == '"' then Fields(line[1..], !inQuotes, current)
    else if line[0] == ',' && !inQuotes then [Trim(current)] + Fields(line[1..], false, "")
    else Fields(line[1..], inQuotes, current + [line[0]])
  }

  /** The number of commas outside quotes, where every double quote flips
      between inside and outside. */
  function Separators(line: string, inQuotes: bool): nat
    decreases |line|
  {
    if line == [] then 0
    else (if line[0] == ',' && !inQuotes then 1 else 0)
         + Separators(line[1..], if line[0] == '"' then !inQuotes else inQuotes)
  }

  /** One field more than separating commas. */
  lemma {:induction false} FieldCount(line: string, inQuotes: bool, current: string)
    ensures |Fields(line, inQuotes, current)| == Separators(line, inQuotes) + 1
    decreases |line|
  {
    if line != [] {
      if line[0] == '"' {
        FieldCount(line[1..], !inQuotes, current);
      } else if line[0] == ',' && !inQuotes {
        FieldCount(line[1..], false, "");
      } else {
        FieldCount(line[1..], inQuotes, current + [line[0]]);
      }
    }
  }

  /** Trimming keeps only characters of the text. */
  lemma TrimKeeps(s: string, c: char)
    requires c in Trim(s)
    ensures c in s
  {
    var a := TrimStart(s);
    var t := TrimEnd(a);
    TrimStartShape(s);
    TrimEndShape(a);
    var i :| 0 <= i < |t| && t[i] == c;
    assert a[i] == c;
    assert s[|s| - |a| + i] == c;
  }

  /** No field holds a double quote, and every field is trimmed. */
  lemma {:induction false} FieldsClean(line: string, inQuotes: bool, current: string, f: string)
    requires '"' !in current
    requires f in Fields(line, inQuotes, current)
    ensures '"' !in f && Trim(f) == f
    decreases |line|
  {
    if line == [] {
      if '"' in f {
        TrimKeeps(current, '"');
      }
      TrimIdempotent(current);
    } else if line[0] == '"' {
      FieldsClean(line[1..], !inQuotes, current, f);
    } else if line[0] == ',' && !inQuotes {
      if f == Trim(current) {
        if '"' in f {
          TrimKeeps(current, '"');
        }
        TrimIdempotent(current);
      } else {
        FieldsClean(line[1..], false, "", f);
      }
    } else {
      FieldsClean(line[1..], inQuotes, current + [line[0]], f);
    }
  }

  /** `value.replace(/^"|"$/g, '')`: one quote dropped at each end. */
  function StripOuterQuotes(v: string): (r: string)
    ensures '"' !in v ==> r == v
    ensures |r| <= |v|
  {
    var a := if v != [] && v[0] == '"' then v[1..] else v;
    if a != [] && a[|a| - 1] == '"' then a[..|a| - 1] else a
  }

  /** `parseCSVLine(line)`. */
  function CsvFields(line: string): (r: seq<string>)
    ensures |r| == |Fields(line, false, "")|
  {
    var fs := Fields(line, false, "");
    seq(|fs|, k requires 0 <= k < |fs| => StripOuterQuotes(fs[k]))
  }

  /** The outer-quote removal never changes a field: the splitter already
      dropped every quote. */
  lemma CsvFieldsAreFields(line: string)
    ensures CsvFields(line) == Fields(line, false, "")
  {
    var fs := Fields(line, false, "");
    forall k | 0 <= k < |fs|
      ensures StripOuterQuotes(fs[k]) == fs[k]
    {
      FieldsClean(line, false, "", fs[k]);
    }
  }

  /** What `parseCSVLine` promises: one field more than the commas outside
      quotes, each trimmed and free of double quotes. */
  lemma CsvFieldsShape(line: string)
    ensures |CsvFields(line)| == Separators(line, false) + 1
    ensures forall f :: f in CsvFields(line) ==> '"' !in f && Trim(f) == f
  {
    FieldCount(line, false, "");
    CsvFieldsAreFields(line);
    forall f | f in CsvFields(line)
      ensures '"' !in f && Trim(f) == f
    {
      FieldsClean(line, false, "", f);
    }
  }

  /** Inside quotes every character but a quote is kept, commas
      included, until the closing quote. */
  lemma {:induction false} InsideQuotes(u: string, w: string, current: string)
    requires '"' !in u
    ensures Fields(u + ['"'] + w, true, current) == Fields(w, false, current + u)
    decreases |u|
  {
    var line := u + ['"'] + w;
    if u == [] {
      assert line == ['"'] + w;
      assert line[1..] == w;
      assert current + u == current;
    } else {
      assert line[0] == u[0] && line[1..] == u[1..] + ['"'] + w;
      InsideQuotes(u[1..], w, current + [u[0]]);
      assert current + [u[0]] + u[1..] == current + u;
    }
  }

  /** Two quotes in a row change nothing, wherever they stand: a doubled
      quote yields no character, where section 2 of RFC 4180 reads it as
      one quote. */
  lemma {:induction false} DoubledQuoteVanishes(u: string, w: string, inQuotes: bool, current: string)
    ensures Fields(u + ['"', '"'] + w, inQuotes, current) == Fields(u + w, inQuotes, current)
    decreases |u|
  {
    var line := u + ['"', '"'] + w;
    if u == [] {
      assert line[1..] == ['"'] + w;
      assert line[1..][1..] == w;
      assert u + w == w;
    } else {
      assert line[0] == u[0] && line[1..] == u[1..] + ['"', '"'] + w;
      assert (u + w)[0] == u[0] && (u + w)[1..] == u[1..] + w;
      if u[0] == '"' {
        DoubledQuoteVanishes(u[1..], w, !inQuotes, current);
      } else if u[0] == ',' && !inQuotes {
        DoubledQuoteVanishes(u[1..], w, false, "");
      } else {
        DoubledQuoteVanishes(u[1..], w, inQuotes, current + [u[0]]);
      }
    }
  }

  /** One character of the loop: how the fields of the rest of the line
      depend on the fields after that character. */
  lemma FieldsStep(line: string, i: nat, inQuotes: bool, current: string)
    requires i < |line|
    ensures line[i] == '"' ==> Fields(line[i..], inQuotes, current) == Fields(line[i + 1..], !inQuotes, current)
    ensures line[i] == ',' && !inQuotes ==>
      Fields(line[i..], inQuotes, current) == [Trim(current)] + Fields(line[i + 1..], false, "")
    ensures line[i] != '"' && (line[i] != ',' || inQuotes) ==>
      Fields(line[i..], inQuotes, current) == Fields(line[i + 1..], inQuotes, current + [line[i]])
  {
    assert line[i..][0] == line[i];
    assert line[i..][1..] == line[i + 1..];
  }

  /** The character loop of `parseCSVLine`. */
  method ParseCsvLine(line: string) returns (result: seq<string>)
    ensures result == CsvFields(line)
  {
    var pieces: seq<string> := [];
    var current := "";
    var inQuotes := false;
    var i := 0;
    while i < |line|
      invariant 0 <= i <= |line|
      invariant pieces + Fields(line[i..], inQuotes, current) == Fields(line, false, "")
    {
      var c := line[i];
      FieldsStep(line, i, inQuotes, current);
      if c == '"' {
        inQuotes := !inQuotes;
      } else if c == ',' && !inQuotes {
        pieces := pieces + [Trim(current)];
        current := "";
      } else {
        current := current + [c];
      }
      i := i + 1;
    }
    assert Fields(line[i..], inQuotes, current) == [Trim(current)];
    pieces := pieces + [Trim(current)];
    result := seq(|pieces|, k requires 0 <= k < |pieces| => StripOuterQuotes(pieces[k]));
  }

  // ---------------------------------------------------------------------------
  // Rows

  /** `isNaN(parseFloat(value)) || value === '' ? value : parseFloat(value)`. */
  function CsvValue(v: string): (c: Cell)
    ensures c.Num? <==> v != "" && ParseFloat(v).Some?
    ensures c.Num? ==> c.n == ParseFloat(v).value
    ensures !c.Num? ==> c == Str(v)
  {
    var n := ParseFloat(v);
    if n.None? || v == "" then Str(v) else Num(n.value)
  }

  /** `headers.forEach((header, index) => row[header] = vals[index])`: a
      later duplicate header overwrites an earlier one. */
  function RowOf<V>(headers: seq<string>, vals: seq<V>): map<string, V>
    requires |headers| == |vals|
  {
    if headers == [] then map[]
    else
      var n := |headers| - 1;
      RowOf(headers[..n], vals[..n])[headers[n] := vals[n]]
  }

  /** The converted values of a data line. */
  function CsvValues(values: seq<string>): (r: seq<Cell>)
    ensures |r| == |values|
    ensures forall i :: 0 <= i < |values| ==> r[i] == CsvValue(values[i])
  {
    seq(|values|, i requires 0 <= i < |values| => CsvValue(values[i]))
  }

  /** The row of a data line. */
  function BuildRow(headers: seq<string>, values: seq<string>): Row
    requires |headers| == |values|
  {
    RowOf(headers, CsvValues(values))
  }

  /** A row has exactly the header names as keys. */
  lemma {:induction false} RowKeys<V>(headers: seq<string>, vals: seq<V>, k: string)
    requires |headers| == |vals|
    ensures k in RowOf(headers, vals) <==> k in headers
  {
    if headers != [] {
      var n := |headers| - 1;
      RowKeys(headers[..n], vals[..n], k);
      assert headers == headers[..n] + [headers[n]];
    }
  }

  /** Each key holds the value of the last column with that name. */
  lemma {:induction false} RowValue<V>(headers: seq<string>, vals: seq<V>, j: nat)
    requires |headers| == |vals| && j < |headers|
    requires forall j' :: j < j' < |headers| ==> headers[j'] != headers[j]
    ensures headers[j] in RowOf(headers, vals)
    ensures RowOf(headers, vals)[headers[j]] == vals[j]
  {
    var n := |headers| - 1;
    if j < n {
      assert headers[..n][j] == headers[j] && vals[..n][j] == vals[j];
      assert forall j' :: j < j' < n ==> headers[..n][j'] != headers[..n][j];
      RowValue(headers[..n], vals[..n], j);
      assert headers[n] != headers[j];
    }
  }

  /** In a parsed row, column `j`'s value sits under its header unless a
      later column has the same header. */
  lemma BuildRowValue(headers: seq<string>, values: seq<string>, j: nat)
    requires |headers| == |values| && j < |headers|
    requires forall j' :: j < j' < |headers| ==> headers[j'] != headers[j]
    ensures headers[j] in BuildRow(headers, values)
    ensures BuildRow(headers, values)[headers[j]] == CsvValue(values[j])
  {
    RowValue(headers, CsvValues(values), j);
  }

  /** The inner loop of `parseCSV`: one entry per header. */
  method BuildRowLoop(headers: seq<string>, values: seq<string>) returns (row: Row)
    requires |headers| == |values|
    ensures row == BuildRow(headers, values)
  {
    ghost var cells := CsvValues(values);
    row := map[];
    var index := 0;
    while index < |headers|
      invariant 0 <= index <= |headers|
      invariant row == RowOf(headers[..index], cells[..index])
    {
      RowStep(headers, cells, index);
      var value := CsvValue(values[index]);
      assert value == cells[index];
      row := row[headers[index] := value];
      index := index + 1;
    }
    assert headers[..index] == headers && cells[..index] == cells;
  }

  lemma RowStep<V>(headers: seq<string>, vals: seq<V>, index: nat)
    requires |headers| == |vals| && index < |headers|
    ensures RowOf(headers[..index + 1], vals[..index + 1])
      == RowOf(headers[..index], vals[..index])[headers[index] := vals[index]]
  {
    assert headers[..index + 1][..index] == headers[..index];
    assert vals[..index + 1][..index] == vals[..index];
  }

  /** The fields of each data line. */
  function FieldLists(lines: seq<string>): (r: seq<seq<string>>)
    ensures |r| == |lines|
    ensures forall i :: 0 <= i < |lines| ==> r[i] == CsvFields(lines[i])
  {
    seq(|lines|, i requires 0 <= i < |lines| => CsvFields(lines[i]))
  }

  /** The rows of the data lines whose field count matches the header. */
  function DataRows(headers: seq<string>, lists: seq<seq<string>>): (r: seq<Row>)
    ensures |r| <= |lists|
  {
    if lists == [] then []
    else
      (if |lists[0]| == |headers| then [BuildRow(headers, lists[0])] else []) + DataRows(headers, lists[1..])
  }

  /** Dropping mismatched lines keeps the others in order: the rows of two
      runs of lines are the rows of each, one after the other. */
  lemma {:induction false} DataRowsAppend(headers: seq<string>, a: seq<seq<string>>, b: seq<seq<string>>)
    ensures DataRows(headers, a + b) == DataRows(headers, a) + DataRows(headers, b)
  {
    if a != [] {
      assert (a + b)[1..] == a[1..] + b;
      assert (a + b)[0] == a[0];
      DataRowsAppend(headers, a[1..], b);
    } else {
      assert a + b == b;
    }
  }

  /** Every emitted row has exactly the header names as keys. */
  lemma {:induction false} DataRowKeys(headers: seq<string>, lists: seq<seq<string>>, r: Row, k: string)
    requires r in DataRows(headers, lists)
    ensures k in r <==> k in headers
  {
    if |lists[0]| == |headers| && r == BuildRow(headers, lists[0]) {
      RowKeys(headers, CsvValues(lists[0]), k);
    } else {
      DataRowKeys(headers, lists[1..], r, k);
    }
  }

  /** `parseCSV(content)`. */
  function ParsedCsv(content: string): (r: seq<Row>)
    ensures |Lines(content)| < 2 ==> r == []
    ensures r != [] ==> |r| < |Lines(content)|
  {
    var lines := Lines(content);
    if |lines| < 2 then [] else DataRows(CsvFields(lines[0]), FieldLists(lines[1..]))
  }

  /** A text with no line break yields no rows. */
  lemma OneLineNoRows(content: string)
    requires '\n' !in content
    ensures ParsedCsv(content) == []
  {
    SplitNone(content, '\n');
  }

  /** The line loop of `parseCSV`. */
  method ParseCsv(content: string) returns (data: seq<Row>)
    ensures data == ParsedCsv(content)
  {
    var lines := Filter(Split(content, '\n'), NotBlank);
    assert lines == Lines(content);
    if |lines| < 2 {
      return [];
    }
    var headers := ParseCsvLine(lines[0]);
    data := DataRowsLoop(headers, lines[1..]);
  }

  /** The rows loop: `for (let i = 1; i < lines.length; i++)`. */
  method DataRowsLoop(headers: seq<string>, lines: seq<string>) returns (data: seq<Row>)
    ensures data == DataRows(headers, FieldLists(lines))
  {
    data := [];
    var i := 0;
    while i < |lines|
      invariant 0 <= i <= |lines|
      invariant data + DataRows(headers, FieldLists(lines[i..])) == DataRows(headers, FieldLists(lines))
    {
      var values := ParseCsvLine(lines[i]);
      RowsStep(headers, lines, i, values);
      if |values| == |headers| {
        var row := BuildRowLoop(headers, values);
        data := data + [row];
      }
      i := i + 1;
    }
    assert lines[i..] == [];
  }

  lemma RowsStep(headers: seq<string>, lines: seq<string>, i: nat, values: seq<string>)
    requires i < |lines| && values == CsvFields(lines[i])
    ensures DataRows(headers, FieldLists(lines[i..]))
      == (if |values| == |headers| then [BuildRow(headers, values)] else []) + DataRows(headers, FieldLists(lines[i + 1..]))
  {
    var l := FieldLists(lines[i..]);
    assert l[0] == values;
    assert l[1..] == FieldLists(lines[i + 1..]);
  }
}
