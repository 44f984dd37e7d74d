/** Spreadsheet cells as the chart engine sees them: the untyped values of
    a parsed row, with JavaScript's coercions of them (`isNaN`, `Number`,
    `toString`) and the engine's cell predicates `isNumeric`, `isBoolean`
    and `normalizeBoolean`. */
module Cells {
  import opened Common
  import opened JsCoercion

  /** A cell value.  `Null` stands for both `null` and `undefined`. */
  datatype Cell = Num(n: real) | Str(s: string) | Bool(b: bool) | Null

  /** A data row; a column the row lacks reads as `Null`. */
  type Row = map<string, Cell>

  function Get(row: Row, key: string): (c: Cell)
    ensures key !in row ==> c == Null
  {
    if key in row then row[key] else Null
  }

  /** `fileData.map(item => item[key])`. */
  function Column(rows: seq<Row>, key: string): (r: seq<Cell>)
    ensures |r| == |rows|
    ensures forall i :: 0 <= i < |rows| ==> r[i] == Get(rows[i], key)
  {
    if rows == [] then [] else [Get(rows[0], key)] + Column(rows[1..], key)
  }

  /** `.filter(v => v !== null && v !== undefined)`. */
  function NonNull(cs: seq<Cell>): (r: seq<Cell>)
    ensures forall c :: c in r <==> c in cs && c != Null
  {
    FilterMembers(cs, c => c != Null);
    Filter(cs, c => c != Null)
  }

  /** The number JavaScript's `Number(v)` makes of a present cell; `None`
      is NaN.  (`Number(null)` is 0.) */
  function Coerce(c: Cell): (r: Option<real>)
    ensures c.Num? ==> r == Some(c.n)
    ensures c.Bool? ==> r == Some(if c.b then 1.0 else 0.0)
  {
    match c
    case Num(n) => Some(n)
    case Bool(b) => Some(if b then 1.0 else 0.0)
    case Str(s) => ToNumber(s)
    case Null => Some(0.0)
  }

  /** `isNumeric`: not NaN, not null or undefined, not the empty string. */
  predicate IsNumeric(c: Cell) {
    c != Null && c != Str("") && Coerce(c).Some?
  }

  /** `Number(v)` for a cell `isNumeric` accepts. */
  function NumberOf(c: Cell): real
    requires IsNumeric(c)
  {
    Coerce(c).value
  }

  predicate IsBooleanWord(w: string) {
    w == "true" || w == "false" || w == "yes" || w == "no" || w == "1" || w == "0"
  }

  /** `isBoolean`: a native boolean, or one of six words in any case. */
  predicate IsBoolean(c: Cell) {
    match c
    case Bool(_) => true
    case Str(s) => IsBooleanWord(Lower(s))
    case _ => false
  }

  /** `normalizeBoolean`: native `true`, or "true", "yes" or "1" in any case. */
  function NormalizeBoolean(c: Cell): (r: bool)
    ensures r ==> IsBoolean(c)
    ensures c.Bool? ==> r == c.b
    ensures c.Num? || c.Null? ==> !r
  {
    match c
    case Bool(b) => b
    case Str(s) => var w := Lower(s); w == "true" || w == "yes" || w == "1"
    case _ => false
  }

  /** `v?.toString()`: `None` for null and undefined. */
  function CellText(c: Cell): (r: Option<string>)
    ensures r.None? <==> c.Null?
    ensures c.Str? ==> r == Some(c.s)
  {
    match c
    case Num(n) => Some(NumText(n))
    case Str(s) => Some(s)
    case Bool(b) => Some(if b then "true" else "false")
    case Null => None
  }

  /** A word that starts with a letter and is not one of the boolean words
      is text: neither numeric nor boolean. */
  lemma LetterWordIsText(s: string)
    requires s != [] && ('A' <= s[0] <= 'Z' || 'a' <= s[0] <= 'z')
    requires !IsBooleanWord(Lower(s))
    ensures !IsNumeric(Str(s)) && !IsBoolean(Str(s))
  {
    LetterIsNaN(s);
  }

  /** The number 1 is numeric but is not a boolean, so it normalises to false. */
  lemma NumberOneIsNotTrue()
    ensures IsNumeric(Num(1.0)) && !IsBoolean(Num(1.0)) && !NormalizeBoolean(Num(1.0))
  {
  }

  /** The strings "0" and "1" are at once numeric and boolean. */
  lemma DigitWordsAreBoth()
    ensures IsNumeric(Str("0")) && IsBoolean(Str("0"))
    ensures IsNumeric(Str("1")) && IsBoolean(Str("1"))
  {
    assert AllDigits("0"[0..]) && AllDigits("1"[0..]);
    SignedNumeralValue("0", 0);
    SignedNumeralValue("1", 0);
    assert Lower("0") == "0" && Lower("1") == "1";
  }

  /** Native booleans are both numeric and boolean. */
  lemma NativeBooleansAreBoth(b: bool)
    ensures IsNumeric(Bool(b)) && IsBoolean(Bool(b))
  {
  }
}
