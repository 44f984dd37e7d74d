/** The JavaScript conversions between strings and numbers that the application
    relies on: `String.prototype.trim`, `Number(s)` (with `isNaN`),
    `parseFloat`, `parseInt` and a number's `toString`.  Numbers are exact
    reals; NaN is `None`.  Only decimal notation is covered: exponents, hex
    literals and the words Infinity/NaN are not recognised. */
module JsCoercion {
  import opened Common

  // ---------------------------------------------------------------------------
  // Whitespace and trim

  /** The white-space and line-terminator characters `trim`, `Number` and
      `parseFloat` skip: tab, vertical tab, form feed, the BOM, every space
      separator (space, no-break space, ogham space mark, the spaces from en
      quad to hair space, narrow no-break space, medium mathematical space,
      ideographic space) and the four line terminators. */
  predicate IsSpace(c: char) {
    c == ' ' || c == '\t' || c == '\n' || c == '\r' || c == '\U{000B}' || c == '\U{000C}'
    || c == '\U{00A0}' || c == '\U{1680}' || ('\U{2000}' <= c <= '\U{200A}')
    || c == '\U{2028}' || c == '\U{2029}' || c == '\U{202F}' || c == '\U{205F}'
    || c == '\U{3000}' || c == '\U{FEFF}'
  }

  predicate AllSpace(s: string) {
    forall i :: 0 <= i < |s| ==> IsSpace(s[i])
  }

  /** `trimStart`: the suffix left after dropping leading white space. */
  function TrimStart(s: string): (r: string)
    ensures |r| <= |s|
  {
    if s != [] && IsSpace(s[0]) then TrimStart(s[1..]) else s
  }

  /** What `trimStart` leaves is a suffix, what it drops is white space,
      and what it leaves does not start with white space. */
  lemma {:induction false} TrimStartShape(s: string)
    ensures var r := TrimStart(s);
      r == s[|s| - |r|..] && AllSpace(s[..|s| - |r|]) && (r == [] || !IsSpace(r[0]))
  {
    if s != [] && IsSpace(s[0]) {
      var t := s[1..];
      TrimStartShape(t);
      var r := TrimStart(t);
      assert t[|t| - |r|..] == s[|s| - |r|..];
      assert s[..|s| - |r|] == [s[0]] + t[..|t| - |r|];
    } else {
      assert s[..0] == [];
    }
  }

  /** `trimEnd`: the prefix left after dropping trailing white space. */
  function TrimEnd(s: string): (r: string)
    ensures |r| <= |s|
  {
    if s != [] && IsSpace(s[|s| - 1]) then TrimEnd(s[..|s| - 1]) else s
  }

  /** What `trimEnd` leaves is a prefix, what it drops is white space, and
      what it leaves does not end with white space. */
  lemma {:induction false} TrimEndShape(s: string)
    ensures var r := TrimEnd(s);
      r == s[..|r|] && AllSpace(s[|r|..]) && (r == [] || !IsSpace(r[|r| - 1]))
  {
    if s != [] && IsSpace(s[|s| - 1]) {
      var t := s[..|s| - 1];
      TrimEndShape(t);
      var r := TrimEnd(t);
      assert t[..|r|] == s[..|r|];
      assert s[|r|..] == t[|r|..] + [s[|s| - 1]];
    } else {
      assert s[|s|..] == [];
    }
  }

  function Trim(s: string): string {
    TrimEnd(TrimStart(s))
  }

  lemma TrimShape(s: string)
    ensures var t := Trim(s);
      t == [] || (!IsSpace(t[0]) && !IsSpace(t[|t| - 1]))
  {
    var a := TrimStart(s);
    TrimStartShape(s);
    TrimEndShape(a);
    var t := TrimEnd(a);
    if t != [] {
      assert t[0] == a[0];
    }
  }

  /** Trimming twice is trimming once (every CSV field is already trimmed). */
  lemma TrimIdempotent(s: string)
    ensures Trim(Trim(s)) == Trim(s)
  {
    var t := Trim(s);
    TrimShape(s);
    if t != [] {
      assert TrimStart(t) == t;
      assert TrimEnd(t) == t;
    }
  }

  /** `s.trim()` is truthy exactly when `s` has a non-space character. */
  lemma {:induction false} TrimEmptyIffAllSpace(s: string)
    ensures Trim(s) == [] <==> AllSpace(s)
  {
    var a := TrimStart(s);
    var b := TrimEnd(a);
    TrimStartShape(s);
    TrimEndShape(a);
    if b == [] {
      assert AllSpace(a[|b|..]);
      assert a[|b|..] == a;
      assert a == [];
      assert s[..|s|] == s;
    } else {
      assert !IsSpace(b[0]);
      assert b[0] == a[0];
      assert a[0] == s[|s| - |a|];
    }
  }

  // ---------------------------------------------------------------------------
  // Decimal numerals

  predicate IsDigit(c: char) { '0' <= c <= '9' }

  /** The value of a digit character (only ever applied to digits). */
  function DigitValue(c: char): nat {
    if IsDigit(c) then c as int - '0' as int else 0
  }

  function DigitChar(d: nat): (c: char)
    requires d < 10
    ensures IsDigit(c) && DigitValue(c) == d
  {
    ('0' as int + d) as char
  }

  predicate AllDigits(s: string) {
    forall i :: 0 <= i < |s| ==> IsDigit(s[i])
  }

  /** The value of a run of decimal digits. */
  function DigitsValue(s: string): nat {
    if s == [] then 0 else DigitsValue(s[..|s| - 1]) * 10 + DigitValue(s[|s| - 1])
  }

  function Pow10(k: nat): (p: nat)
    ensures p >= 1
  {
    if k == 0 then 1 else 10 * Pow10(k - 1)
  }

  /** Length of the run of digits starting at index `i`. */
  function DigitRun(s: string, i: nat): (n: nat)
    requires i <= |s|
    ensures i + n <= |s|
    ensures i + n == |s| || !IsDigit(s[i + n])
    decreases |s| - i
  {
    if i < |s| && IsDigit(s[i]) then 1 + DigitRun(s, i + 1) else 0
  }

  /** The run is made of digits only. */
  lemma {:induction false} DigitRunDigits(s: string, i: nat)
    requires i <= |s|
    ensures AllDigits(s[i..i + DigitRun(s, i)])
    decreases |s| - i
  {
    if i < |s| && IsDigit(s[i]) {
      DigitRunDigits(s, i + 1);
      var n := DigitRun(s, i);
      assert s[i..i + n] == [s[i]] + s[i + 1..i + n];
    }
  }

  /** 1 when `s` starts with a sign character, else 0. */
  function SignLength(s: string): (n: nat)
    ensures n <= |s|
  {
    if s != [] && (s[0] == '+' || s[0] == '-') then 1 else 0
  }

  /** Length of a point and the fraction digits after it, starting at `j`
      (0 when there is no point there). */
  function FractionLength(s: string, j: nat): (n: nat)
    requires j <= |s|
    ensures j + n <= |s|
    ensures n > 0 ==> s[j] == '.'
  {
    if j < |s| && s[j] == '.' then 1 + DigitRun(s, j + 1) else 0
  }

  /** A decimal numeral as read: its sign, its whole digits, its fraction
      digits and the index just past it. */
  datatype Numeral = Numeral(negative: bool, whole: string, frac: string, end: nat)

  /** The value of a numeral: whole digits plus fraction digits over a power of ten. */
  function NumeralValue(n: Numeral): real {
    var v := DigitsValue(n.whole) as real + DigitsValue(n.frac) as real / Pow10(|n.frac|) as real;
    if n.negative then -v else v
  }

  /** The decimal numeral at the start of `s`: an optional sign, digits, an
      optional point and fraction digits, with at least one digit in all. */
  function DecimalPrefix(s: string): (r: Option<Numeral>)
    ensures r.Some? ==> 0 < r.value.end <= |s| && |r.value.whole| + |r.value.frac| > 0
  {
    var i := SignLength(s);
    var j := i + DigitRun(s, i);
    var k := j + FractionLength(s, j);
    if j == i && k <= j + 1 then None
    else Some(Numeral(i == 1 && s[0] == '-', s[i..j], if k > j then s[j + 1..k] else [], k))
  }

  /** `Number(s)`: the trimmed string must be a numeral in full; a blank
      string converts to 0.  `None` stands for NaN. */
  function ToNumber(s: string): Option<real> {
    var t := Trim(s);
    if t == [] then Some(0.0)
    else match DecimalPrefix(t)
      case Some(n) => if n.end == |t| then Some(NumeralValue(n)) else None
      case None => None
  }

  /** `parseFloat(s)`: leading white space is skipped, then the longest
      numeral prefix is read; trailing text is ignored. */
  function ParseFloat(s: string): Option<real> {
    match DecimalPrefix(TrimStart(s))
    case Some(n) => Some(NumeralValue(n))
    case None => None
  }

  /** `parseInt(s)` in radix 10: leading white space, an optional sign and a
      run of digits; anything after is ignored. */
  function ParseInt(s: string): Option<int> {
    var t := TrimStart(s);
    var i := if t != [] && (t[0] == '+' || t[0] == '-') then 1 else 0;
    var n := DigitRun(t, i);
    if n == 0 then None
    else
      var v := DigitsValue(t[i..i + n]);
      Some(if i == 1 && t[0] == '-' then -(v as int) else v)
  }

  /** A numeral read from a string has digits only, in both parts. */
  lemma DecimalPrefixDigits(s: string)
    requires DecimalPrefix(s).Some?
    ensures AllDigits(DecimalPrefix(s).value.whole) && AllDigits(DecimalPrefix(s).value.frac)
  {
    var i := SignLength(s);
    var j := i + DigitRun(s, i);
    var k := j + FractionLength(s, j);
    DecimalPrefixParts(s, i, j, k);
    DigitRunDigits(s, i);
    if k > j {
      DigitRunDigits(s, j + 1);
    }
  }

  lemma {:induction false} DigitRunExtend(u: string, w: string, i: nat)
    requires i <= |u|
    requires w == [] || !IsDigit(w[0])
    ensures DigitRun(u + w, i) == DigitRun(u, i)
    decreases |u| - i
  {
    if i < |u| {
      assert (u + w)[i] == u[i];
      if IsDigit(u[i]) {
        DigitRunExtend(u, w, i + 1);
      }
    } else if w != [] {
      assert (u + w)[i] == w[0];
    }
  }

  lemma FractionLengthExtend(u: string, w: string, j: nat)
    requires j <= |u|
    requires j + FractionLength(u, j) == |u|
    requires w == [] || (!IsDigit(w[0]) && w[0] != '.')
    ensures FractionLength(u + w, j) == FractionLength(u, j)
  {
    if j < |u| {
      assert (u + w)[j] == u[j];
      if u[j] == '.' {
        DigitRunExtend(u, w, j + 1);
      }
    } else if w != [] {
      assert (u + w)[j] == w[0];
    }
  }

  /** Appending white space after a complete numeral does not change what is
      read from it. */
  lemma DecimalPrefixExtend(u: string, w: string)
    requires DecimalPrefix(u).Some? && DecimalPrefix(u).value.end == |u|
    requires w == [] || IsSpace(w[0])
    ensures DecimalPrefix(u + w) == DecimalPrefix(u)
  {
    var s := u + w;
    var i := SignLength(u);
    var j := i + DigitRun(u, i);
    var k := j + FractionLength(u, j);
    DecimalPrefixParts(u, i, j, k);
    assert k == |u|;
    SignLengthExtend(u, w);
    DigitRunExtend(u, w, i);
    FractionLengthExtend(u, w, j);
    assert s[..k] == u;
    DecimalPrefixSameStart(u, s, k);
  }

  /** Two strings that agree on the numeral's extent read the same numeral. */
  lemma DecimalPrefixSameStart(u: string, s: string, k: nat)
    requires k <= |u| && k <= |s| && u[..k] == s[..k]
    requires SignLength(u) == SignLength(s)
    requires DigitRun(u, SignLength(u)) == DigitRun(s, SignLength(s))
    requires var j := SignLength(u) + DigitRun(u, SignLength(u));
      FractionLength(u, j) == FractionLength(s, j) && j + FractionLength(u, j) == k
    ensures DecimalPrefix(u) == DecimalPrefix(s)
  {
    var i := SignLength(u);
    var j := i + DigitRun(u, i);
    DecimalPrefixParts(u, i, j, k);
    DecimalPrefixParts(s, i, j, k);
    SliceOfPrefix(u, s, k, i, j);
    if k > j {
      SliceOfPrefix(u, s, k, j + 1, k);
    }
    if i == 1 {
      assert u[0] == u[..k][0] == s[..k][0] == s[0];
    }
  }

  lemma SliceOfPrefix(u: string, s: string, k: nat, a: nat, b: nat)
    requires k <= |u| && k <= |s| && u[..k] == s[..k] && a <= b <= k
    ensures u[a..b] == s[a..b]
  {
    forall t | 0 <= t < b - a ensures u[a..b][t] == s[a..b][t] {
      assert u[a..b][t] == u[..k][a + t];
      assert s[a..b][t] == s[..k][a + t];
    }
  }

  lemma SignLengthExtend(u: string, w: string)
    requires u != []
    ensures SignLength(u + w) == SignLength(u)
  {
    assert (u + w)[0] == u[0];
  }

  lemma DecimalPrefixParts(s: string, i: nat, j: nat, k: nat)
    requires i == SignLength(s) && j == i + DigitRun(s, i) && k == j + FractionLength(s, j)
    ensures DecimalPrefix(s) == if j == i && k <= j + 1 then None
      else Some(Numeral(i == 1 && s[0] == '-', s[i..j], if k > j then s[j + 1..k] else [], k))
  {
  }

  /** A string that starts with a letter is NaN to both `Number` and
      `parseFloat`. */
  lemma LetterIsNaN(s: string)
    requires s != [] && ('A' <= s[0] <= 'Z' || 'a' <= s[0] <= 'z')
    ensures ToNumber(s) == None && ParseFloat(s) == None
  {
    assert TrimStart(s) == s;
    var t := TrimEnd(s);
    TrimEndKeepsStart(s);
    NoNumeralAtLetter(t);
    NoNumeralAtLetter(s);
  }

  /** Trailing white space never reaches a first character that is not
      white space. */
  lemma {:induction false} TrimEndKeepsStart(s: string)
    requires s != [] && !IsSpace(s[0])
    ensures TrimEnd(s) != [] && TrimEnd(s)[0] == s[0]
    decreases |s|
  {
    if IsSpace(s[|s| - 1]) {
      var p := s[..|s| - 1];
      assert p[0] == s[0];
      TrimEndKeepsStart(p);
    }
  }

  lemma NoNumeralAtLetter(s: string)
    requires s != [] && ('A' <= s[0] <= 'Z' || 'a' <= s[0] <= 'z')
    ensures DecimalPrefix(s) == None
  {
    assert SignLength(s) == 0;
    assert DigitRun(s, 0) == 0;
    assert FractionLength(s, 0) == 0;
    DecimalPrefixParts(s, 0, 0, 0);
  }

  /** A string that `Number` accepts (and that is not blank) is read to the
      same value by `parseFloat`. */
  lemma ParseFloatAgreesWithNumber(s: string)
    requires Trim(s) != [] && ToNumber(s).Some?
    ensures ParseFloat(s) == ToNumber(s)
  {
    var a := TrimStart(s);
    var t := Trim(s);
    var w := a[|t|..];
    TrimStartSplit(s);
    DecimalPrefixExtend(t, w);
  }

  /** After leading white space is gone, what is left is the trimmed string
      followed by white space. */
  lemma TrimStartSplit(s: string)
    ensures var a := TrimStart(s); var t := Trim(s);
      |t| <= |a| && a == t + a[|t|..] && (a[|t|..] == [] || IsSpace(a[|t|..][0]))
  {
    var a := TrimStart(s);
    var t := TrimEnd(a);
    TrimEndShape(a);
    assert a == a[..|t|] + a[|t|..];
    assert AllSpace(a[|t|..]);
  }

  /** Hence a trimmed, non-empty field that `parseFloat` rejects is also not a
      number to `isNaN`. */
  lemma ParseFloatRejectsThenNaN(s: string)
    requires Trim(s) == s && s != []
    requires ParseFloat(s).None?
    ensures ToNumber(s).None?
  {
    if ToNumber(s).Some? {
      ParseFloatAgreesWithNumber(s);
    }
  }

  // ---------------------------------------------------------------------------
  // Number to string

  /** The decimal digits of a natural number. */
  function NatText(n: nat): (r: string)
    ensures r != [] && AllDigits(r)
  {
    if n < 10 then [DigitChar(n)] else NatText(n / 10) + [DigitChar(n % 10)]
  }

  lemma {:induction false} NatTextValue(n: nat)
    ensures DigitsValue(NatText(n)) == n
  {
    if n >= 10 {
      NatTextValue(n / 10);
      var r := NatText(n);
      assert r[..|r| - 1] == NatText(n / 10);
    }
  }

  /** Up to `fuel` fraction digits of `f`, stopping once the rest is zero. */
  function FractionText(f: real, fuel: nat): (r: string)
    requires 0.0 <= f < 1.0
    ensures AllDigits(r)
    decreases fuel
  {
    if f == 0.0 || fuel == 0 then []
    else
      var d := (f * 10.0).Floor;
      [DigitChar(d)] + FractionText(f * 10.0 - d as real, fuel - 1)
  }

  /** `Number.prototype.toString`: whole numbers print without a point;
      other values print their decimal expansion, cut at 20 digits. */
  function NumText(r: real): (t: string)
    ensures t != []
  {
    var a := if r < 0.0 then -r else r;
    var whole := a.Floor;
    var frac := FractionText(a - whole as real, 20);
    var body := NatText(whole) + (if frac == [] then [] else "." + frac);
    if r < 0.0 then "-" + body else body
  }

  /** Round trip: the text of a whole number is read back by `Number` as
      that number. */
  lemma IntTextRoundTrip(k: int)
    ensures ToNumber(NumText(k as real)) == Some(k as real)
  {
    var a: nat := if k < 0 then -k else k;
    var d := NatText(a);
    var t := NumText(k as real);
    WholeNumText(k);
    NatTextValue(a);
    var i := if k < 0 then 1 else 0;
    assert t[i..] == d;
    SignedNumeralValue(t, i);
  }

  /** A whole number prints as its digits, after a minus sign when it is
      negative. */
  lemma WholeNumText(k: int)
    ensures var a: nat := if k < 0 then -k else k;
      NumText(k as real) == if k < 0 then "-" + NatText(a) else NatText(a)
  {
    var a: nat := if k < 0 then -k else k;
    var r := k as real;
    var m := if r < 0.0 then -r else r;
    assert m == a as real;
    assert m.Floor == a;
    assert m - a as real == 0.0;
    assert FractionText(0.0, 20) == [];
  }

  /** A sign (or none) followed by digits only is a complete numeral. */
  lemma SignedNumeralValue(t: string, i: nat)
    requires i <= 1 && i < |t| && AllDigits(t[i..])
    requires i == 1 <==> t[0] == '-'
    ensures ToNumber(t) == Some(if i == 1 then -(DigitsValue(t[i..]) as real) else DigitsValue(t[i..]) as real)
  {
    assert !IsSpace(t[0]);
    assert TrimStart(t) == t;
    assert t[|t| - 1] == t[i..][|t| - 1 - i];
    assert !IsSpace(t[|t| - 1]);
    assert TrimEnd(t) == t;
    assert Trim(t) == t;
    assert SignLength(t) == i;
    DigitRunAll(t, i);
    assert t[i..|t|] == t[i..];
    assert FractionLength(t, |t|) == 0;
  }

  lemma {:induction false} DigitRunAll(s: string, i: nat)
    requires i <= |s| && AllDigits(s[i..])
    ensures DigitRun(s, i) == |s| - i
    decreases |s| - i
  {
    if i < |s| {
      assert s[i] == s[i..][0];
      assert s[i + 1..] == s[i..][1..];
      DigitRunAll(s, i + 1);
    }
  }
}
