/** The numeric binner behind pie and doughnut charts of a numeric column:
    `binCount = min(5, ceil(sqrt(n)))` equal-width bins between the smallest
    and the largest value, each value counted in the first bin whose
    half-open range `[start, end)` holds it.  The largest value itself lies
    in no such range; `closedLast` makes the last bin `[start, end]` instead,
    which is the repaired behaviour the chart engine uses. */
module Binning {
  import opened Common
  import opened Tally
  import opened ChartTypes

  // ---------------------------------------------------------------------------
  // How many bins

  /** The least `r >= k` with `r * r >= n`. */
  function CeilSqrtFrom(n: nat, k: nat): (r: nat)
    requires k == 0 || (k - 1) * (k - 1) < n
    ensures r >= k
    decreases n - k
  {
    if k * k >= n then k
    else
      assert k <= k * k || k == 0;
      CeilSqrtFrom(n, k + 1)
  }

  lemma {:induction false} CeilSqrtFromShape(n: nat, k: nat)
    requires k == 0 || (k - 1) * (k - 1) < n
    ensures var r := CeilSqrtFrom(n, k); r * r >= n && (r == 0 || (r - 1) * (r - 1) < n)
    decreases n - k
  {
    if k * k < n {
      assert k <= k * k || k == 0;
      CeilSqrtFromShape(n, k + 1);
    }
  }

  /** `Math.ceil(Math.sqrt(n))`. */
  function CeilSqrt(n: nat): (r: nat)
    ensures n >= 1 ==> r >= 1
  {
    CeilSqrtFrom(n, 0)
  }

  /** The ceiling of the square root is the least `r` with `r * r >= n`. */
  lemma CeilSqrtShape(n: nat)
    ensures var r := CeilSqrtFrom(n, 0); r * r >= n && (r == 0 || (r - 1) * (r - 1) < n)
  {
    CeilSqrtFromShape(n, 0);
  }

  /** `Math.min(5, Math.ceil(Math.sqrt(n)))`, written out by the ranges of
      `n` it takes each value on (see `BinCountIsCeilSqrt`). */
  function BinCount(n: nat): (c: nat)
    ensures n >= 1 ==> 1 <= c <= 5
  {
    if n <= 1 then n
    else if n <= 4 then 2
    else if n <= 9 then 3
    else if n <= 16 then 4
    else 5
  }

  /** The table is `Math.min(5, Math.ceil(Math.sqrt(n)))`. */
  lemma BinCountIsCeilSqrt(n: nat)
    ensures BinCount(n) == Min(5, CeilSqrt(n))
  {
    var r := CeilSqrt(n);
    CeilSqrtShape(n);
    if r >= 5 {
      SquareMono(4, r - 1);
    } else if r >= 1 {
      RangeBySquare(n, r);
    }
  }

  /** `n` lies in `((r - 1)^2, r^2]`, for `r` from 1 to 4. */
  lemma RangeBySquare(n: nat, r: nat)
    requires 1 <= r <= 4 && r * r >= n && (r - 1) * (r - 1) < n
    ensures BinCount(n) == r
  {
    if r == 1 {
    } else if r == 2 {
      assert (r - 1) * (r - 1) == 1 && r * r == 4;
    } else if r == 3 {
      assert (r - 1) * (r - 1) == 4 && r * r == 9;
    } else {
      assert (r - 1) * (r - 1) == 9 && r * r == 16;
    }
  }

  /** Five bins are used exactly when there are more than 16 values. */
  lemma BinCountFive(n: nat)
    requires n >= 1
    ensures Min(5, CeilSqrt(n)) == 5 <==> n > 16
  {
    BinCountIsCeilSqrt(n);
  }

  lemma SquareMono(a: nat, b: nat)
    requires a <= b
    ensures a * a <= b * b
  {
    assert a * a <= a * b;
    assert a * b <= b * b;
  }

  // ---------------------------------------------------------------------------
  // Which bin

  function BinStart(lo: real, size: real, i: nat): real {
    lo + i as real * size
  }

  /** `value >= binStart && value < binEnd`, with the end of the last bin
      included when `closedLast`. */
  predicate InBin(v: real, lo: real, size: real, count: nat, i: nat, closedLast: bool) {
    BinStart(lo, size, i) <= v
    && (v < BinStart(lo, size, i + 1) || (closedLast && i + 1 == count && v == BinStart(lo, size, i + 1)))
  }

  /** The first bin at or after `i` that holds `v`. */
  function FirstBinFrom(v: real, lo: real, size: real, count: nat, i: nat, closedLast: bool): (r: Option<nat>)
    ensures r.Some? ==> i <= r.value < count
    decreases count - i
  {
    if i >= count then None
    else if InBin(v, lo, size, count, i, closedLast) then Some(i)
    else FirstBinFrom(v, lo, size, count, i + 1, closedLast)
  }

  /** The scan finds the first bin from `i` on that holds `v`, and finds
      none exactly when no such bin exists. */
  lemma {:induction false} FirstBinFromShape(v: real, lo: real, size: real, count: nat, i: nat, closedLast: bool)
    ensures var r := FirstBinFrom(v, lo, size, count, i, closedLast);
      (r.Some? ==> InBin(v, lo, size, count, r.value, closedLast)
                   && forall j :: i <= j < r.value ==> !InBin(v, lo, size, count, j, closedLast))
      && (r.None? ==> forall j :: i <= j < count ==> !InBin(v, lo, size, count, j, closedLast))
    decreases count - i
  {
    if i < count && !InBin(v, lo, size, count, i, closedLast) {
      FirstBinFromShape(v, lo, size, count, i + 1, closedLast);
    }
  }

  /** The bin the inner loop's `break` stops at, if any. */
  function FirstBin(v: real, lo: real, size: real, count: nat, closedLast: bool): Option<nat> {
    FirstBinFrom(v, lo, size, count, 0, closedLast)
  }

  /** A bin's label: its bounds (the text `start.toFixed(1)-end.toFixed(1)`
      is not modelled). */
  function BinLabel(lo: real, size: real, i: nat): Label {
    Range(BinStart(lo, size, i), BinStart(lo, size, i + 1))
  }

  function BinLabels(lo: real, size: real, count: nat): (r: seq<Label>)
    ensures |r| == count
    ensures forall i :: 0 <= i < count ==> r[i] == BinLabel(lo, size, i)
  {
    seq(count, i requires 0 <= i < count => BinLabel(lo, size, i))
  }

  /** `aggregatedData[binLabel] = 0` for each label in turn. */
  function SeedBins(d: Dict<Label>, labels: seq<Label>): Dict<Label>
    decreases |labels|
  {
    if labels == [] then d else SeedBins(Put(d, labels[0], 0), labels[1..])
  }

  /** Counting one value: `aggregatedData[bin]++` for the first bin that
      holds it, nothing when no bin does. */
  function CountOne(bins: Dict<Label>, v: real, lo: real, size: real, count: nat, closedLast: bool): Dict<Label> {
    match FirstBin(v, lo, size, count, closedLast)
    case Some(j) => Bump(bins, BinLabel(lo, size, j))
    case None => bins
  }

  /** The labels of the bins the values land in, in order; values that land
      nowhere are skipped. */
  function Landed(values: seq<real>, lo: real, size: real, count: nat, closedLast: bool): (r: seq<Label>)
    ensures |r| <= |values|
  {
    if values == [] then []
    else
      (match FirstBin(values[0], lo, size, count, closedLast)
       case Some(j) => [BinLabel(lo, size, j)]
       case None => [])
      + Landed(values[1..], lo, size, count, closedLast)
  }

  /** `Math.min(...values)`. */
  function SeqMin(s: seq<real>): real
    requires s != []
  {
    if |s| == 1 then s[0]
    else
      var m := SeqMin(s[1..]);
      if s[0] <= m then s[0] else m
  }

  /** `Math.max(...values)`. */
  function SeqMax(s: seq<real>): real
    requires s != []
  {
    if |s| == 1 then s[0]
    else
      var m := SeqMax(s[1..]);
      if s[0] >= m then s[0] else m
  }

  /** The smallest and the largest value are values of the list, and bound
      every value of it. */
  lemma {:induction false} SeqBounds(s: seq<real>)
    requires s != []
    ensures SeqMin(s) in s && SeqMax(s) in s
    ensures forall x :: x in s ==> SeqMin(s) <= x <= SeqMax(s)
  {
    if |s| > 1 {
      SeqBounds(s[1..]);
      assert forall x :: x in s ==> x == s[0] || x in s[1..];
    }
  }

  /** `(max - min) / binCount`. */
  function BinSize(values: seq<real>): real
    requires values != []
  {
    (SeqMax(values) - SeqMin(values)) / BinCount(|values|) as real
  }

  /** The bins together span the values: `binCount * binSize == max - min`. */
  lemma BinSizeSpan(values: seq<real>)
    requires values != []
    ensures BinCount(|values|) as real * BinSize(values) == SeqMax(values) - SeqMin(values)
    ensures BinSize(values) >= 0.0
  {
    var c := BinCount(|values|) as real;
    SeqBounds(values);
    var span := SeqMax(values) - SeqMin(values);
    assert BinSize(values) == span / c;
    DivTimes(span, c);
  }

  lemma DivTimes(a: real, c: real)
    requires c > 0.0 && a >= 0.0
    ensures c * (a / c) == a && a / c >= 0.0
  {
  }

  /** The filled `aggregatedData` object for a list of numbers. */
  function BinTally(values: seq<real>, closedLast: bool): (d: Dict<Label>)
    requires values != []
    ensures Valid(d)
  {
    var lo := SeqMin(values);
    var size := BinSize(values);
    var count := BinCount(|values|);
    SeedZero(Empty(), BinLabels(lo, size, count));
    TallyValid(SeedBins(Empty(), BinLabels(lo, size, count)), Landed(values, lo, size, count, closedLast));
    TallyFrom(SeedBins(Empty(), BinLabels(lo, size, count)), Landed(values, lo, size, count, closedLast))
  }

  /** The binning loops: create every bin at 0, then for each value count it
      in the first bin that holds it. */
  method BinNumericValues(values: seq<real>, closedLast: bool) returns (bins: Dict<Label>)
    requires values != []
    ensures bins == BinTally(values, closedLast)
  {
    var lo := SeqMin(values);
    var hi := SeqMax(values);
    var count := BinCount(|values|);
    var size := (hi - lo) / count as real;
    bins := SeedBinLabels(lo, size, count);
    bins := CountValues(bins, values, lo, size, count, closedLast);
  }

  /** The outer loop over the values, counting each in turn. */
  method CountValues(seed: Dict<Label>, values: seq<real>, lo: real, size: real, count: nat, closedLast: bool)
    returns (bins: Dict<Label>)
    ensures bins == TallyFrom(seed, Landed(values, lo, size, count, closedLast))
  {
    bins := seed;
    var k := 0;
    assert values[k..] == values;
    while k < |values|
      invariant 0 <= k <= |values|
      invariant TallyFrom(bins, Landed(values[k..], lo, size, count, closedLast))
        == TallyFrom(seed, Landed(values, lo, size, count, closedLast))
    {
      LandedAt(bins, values, k, lo, size, count, closedLast);
      bins := CountInFirstBin(bins, values[k], lo, size, count, closedLast);
      k := k + 1;
    }
    assert values[k..] == [];
  }

  /** Counting the landed labels from value `k` on is counting value `k`,
      then the landed labels of the values after it. */
  lemma LandedAt(bins: Dict<Label>, values: seq<real>, k: nat, lo: real, size: real, count: nat, closedLast: bool)
    requires k < |values|
    ensures TallyFrom(bins, Landed(values[k..], lo, size, count, closedLast))
      == TallyFrom(CountOne(bins, values[k], lo, size, count, closedLast), Landed(values[k + 1..], lo, size, count, closedLast))
  {
    var vs := values[k..];
    assert vs[0] == values[k] && vs[1..] == values[k + 1..];
    var rest := Landed(vs[1..], lo, size, count, closedLast);
    match FirstBin(vs[0], lo, size, count, closedLast)
    case Some(j) =>
      var l := Landed(vs, lo, size, count, closedLast);
      assert l == [BinLabel(lo, size, j)] + rest;
      assert l[0] == BinLabel(lo, size, j) && l[1..] == rest;
    case None =>
      assert Landed(vs, lo, size, count, closedLast) == rest;
  }

  /** The first loop: `aggregatedData[binLabel] = 0` for each bin. */
  method SeedBinLabels(lo: real, size: real, count: nat) returns (bins: Dict<Label>)
    ensures bins == SeedBins(Empty(), BinLabels(lo, size, count))
  {
    ghost var labels := BinLabels(lo, size, count);
    bins := Dict([], map[]);
    for i := 0 to count
      invariant SeedBins(bins, labels[i..]) == SeedBins(Empty(), labels)
    {
      assert labels[i..] == [BinLabel(lo, size, i)] + labels[i + 1..];
      bins := Put(bins, BinLabel(lo, size, i), 0);
    }
    assert labels[count..] == [];
  }

  /** The inner loop for one value: count it in the first bin that holds it
      and stop. */
  method CountInFirstBin(bins: Dict<Label>, v: real, lo: real, size: real, count: nat, closedLast: bool)
    returns (r: Dict<Label>)
    ensures r == CountOne(bins, v, lo, size, count, closedLast)
  {
    r := bins;
    var j := 0;
    while j < count
      invariant 0 <= j <= count
      invariant r == bins
      invariant FirstBinFrom(v, lo, size, count, j, closedLast) == FirstBin(v, lo, size, count, closedLast)
    {
      var binStart := lo + j as real * size;
      var binEnd := lo + (j + 1) as real * size;
      assert binStart == BinStart(lo, size, j) && binEnd == BinStart(lo, size, j + 1);
      if v >= binStart && (v < binEnd || (closedLast && j + 1 == count && v == binEnd)) {
        PutIncrement(r, BinLabel(lo, size, j));
        r := Put(r, BinLabel(lo, size, j), Lookup(r, BinLabel(lo, size, j)) + 1);
        return;
      }
      j := j + 1;
    }
  }

  // ---------------------------------------------------------------------------
  // What the bins hold

  lemma MulLe(a: real, b: real, s: real)
    requires a <= b && s >= 0.0
    ensures a * s <= b * s
  {
    assert (b - a) * s >= 0.0;
  }

  lemma MulLt(a: real, b: real, s: real)
    requires a < b && s > 0.0
    ensures a * s < b * s
  {
    assert (b - a) * s > 0.0;
  }

  lemma MulCancelLt(a: real, b: real, s: real)
    requires s > 0.0 && a * s < b * s
    ensures a < b
  {
    if a >= b {
      MulLe(b, a, s);
    }
  }

  /** The bins' ranges tile `[lo, lo + count * size)`: a value in that range
      lies in bin `floor((v - lo) / size)`. */
  lemma InSomeBin(v: real, lo: real, size: real, count: nat)
    requires size > 0.0 && count >= 1
    requires lo <= v < lo + count as real * size
    ensures var j := ((v - lo) / size).Floor;
      0 <= j < count && InBin(v, lo, size, count, j, false)
  {
    var t := (v - lo) / size;
    assert t * size == v - lo;
    assert 0.0 <= t;
    MulCancelLt(t, count as real, size);
    var j := t.Floor;
    assert j as real <= t < j as real + 1.0;
    MulLe(j as real, t, size);
    assert (j + 1) as real == j as real + 1.0;
    MulLt(t, (j + 1) as real, size);
    assert v < lo + (j + 1) as real * size;
    assert v < BinStart(lo, size, j + 1);
  }

  lemma BinStartMono(lo: real, size: real, a: nat, b: nat)
    requires a <= b && size >= 0.0
    ensures BinStart(lo, size, a) <= BinStart(lo, size, b)
  {
    MulLe(a as real, b as real, size);
  }

  /** Bins are disjoint: no value lies in two of them. */
  lemma BinsDisjoint(v: real, lo: real, size: real, count: nat, i: nat, j: nat, closedLast: bool)
    requires size > 0.0 && i < count && j < count
    requires InBin(v, lo, size, count, i, closedLast) && InBin(v, lo, size, count, j, closedLast)
    ensures i == j
  {
    if i < j {
      BinStartMono(lo, size, i + 1, j);
    } else if j < i {
      BinStartMono(lo, size, j + 1, i);
    }
  }

  /** As written: the largest value is in no bin, because every bin ends at
      or before it and bins exclude their end. */
  lemma MaxInNoBin(lo: real, hi: real, count: nat, size: real)
    requires lo <= hi && count >= 1 && size >= 0.0 && count as real * size == hi - lo
    ensures FirstBin(hi, lo, size, count, false).None?
  {
    FirstBinFromShape(hi, lo, size, count, 0, false);
    forall j: nat | j < count
      ensures !InBin(hi, lo, size, count, j, false)
    {
      BinStartMono(lo, size, j + 1, count);
      assert BinStart(lo, size, count) == hi;
    }
  }

  /** When every value is equal the bins are empty ranges: as written,
      nothing is counted. */
  lemma EqualValuesInNoHalfOpenBin(v: real, lo: real, count: nat)
    ensures FirstBin(v, lo, 0.0, count, false).None?
  {
    FirstBinFromShape(v, lo, 0.0, count, 0, false);
  }

  /** Repaired: with the last bin closed, every value between the bounds
      lies in a bin. */
  lemma ClosedBinsCover(v: real, lo: real, hi: real, count: nat, size: real)
    requires lo <= v <= hi && count >= 1 && size >= 0.0 && count as real * size == hi - lo
    ensures FirstBin(v, lo, size, count, true).Some?
  {
    FirstBinFromShape(v, lo, size, count, 0, true);
    var j: nat;
    if v < hi {
      InSomeBin(v, lo, size, count);
      j := ((v - lo) / size).Floor;
    } else {
      j := count - 1;
      assert (j + 1) as real == count as real;
      MulLe(j as real, count as real, size);
    }
    assert InBin(v, lo, size, count, j, true);
  }

  /** As written, on values between the bounds with `lo < hi`: a value is in
      a bin exactly when it is not the largest. */
  lemma HalfOpenBinIffBelowMax(v: real, lo: real, hi: real, count: nat, size: real)
    requires lo <= v <= hi && lo < hi && count >= 1 && size >= 0.0 && count as real * size == hi - lo
    ensures FirstBin(v, lo, size, count, false).Some? <==> v != hi
  {
    FirstBinFromShape(v, lo, size, count, 0, false);
    if v < hi {
      InSomeBin(v, lo, size, count);
      var j := ((v - lo) / size).Floor;
      assert InBin(v, lo, size, count, j, false);
    } else {
      MaxInNoBin(lo, hi, count, size);
    }
  }

  /** As written, a value between the bounds with `lo < hi` fails to land
      exactly when it is the largest. */
  lemma {:induction false} LandedHalfOpen(values: seq<real>, lo: real, hi: real, count: nat, size: real)
    requires lo < hi && count >= 1 && size >= 0.0 && count as real * size == hi - lo
    requires forall v :: v in values ==> lo <= v <= hi
    ensures |Landed(values, lo, size, count, false)| == |values| - multiset(values)[hi]
  {
    if values != [] {
      assert values[0] in values && forall v :: v in values[1..] ==> v in values;
      LandedHalfOpen(values[1..], lo, hi, count, size);
      HalfOpenBinIffBelowMax(values[0], lo, hi, count, size);
      assert values == [values[0]] + values[1..];
    }
  }

  /** Repaired, every value between the bounds lands. */
  lemma {:induction false} LandedClosed(values: seq<real>, lo: real, hi: real, count: nat, size: real)
    requires lo <= hi && count >= 1 && size >= 0.0 && count as real * size == hi - lo
    requires forall v :: v in values ==> lo <= v <= hi
    ensures |Landed(values, lo, size, count, true)| == |values|
  {
    if values != [] {
      assert values[0] in values && forall v :: v in values[1..] ==> v in values;
      LandedClosed(values[1..], lo, hi, count, size);
      ClosedBinsCover(values[0], lo, hi, count, size);
    }
  }

  /** As written, with bins of no width nothing lands. */
  lemma {:induction false} LandedZeroWidth(values: seq<real>, lo: real, count: nat)
    ensures Landed(values, lo, 0.0, count, false) == []
  {
    if values != [] {
      LandedZeroWidth(values[1..], lo, count);
      EqualValuesInNoHalfOpenBin(values[0], lo, count);
    }
  }

  lemma {:induction false} LandedInLabels(values: seq<real>, lo: real, size: real, count: nat, closedLast: bool)
    ensures forall l :: l in Landed(values, lo, size, count, closedLast) ==> l in BinLabels(lo, size, count)
  {
    if values != [] {
      LandedInLabels(values[1..], lo, size, count, closedLast);
      match FirstBin(values[0], lo, size, count, closedLast)
      case Some(j) => assert BinLabels(lo, size, count)[j] == BinLabel(lo, size, j);
      case None =>
    }
  }

  /** Seeding creates every label at count 0. */
  lemma {:induction false} SeedZero(d: Dict<Label>, labels: seq<Label>)
    requires Valid(d) && forall k :: k in d.counts ==> d.counts[k] == 0
    ensures var r := SeedBins(d, labels);
      Valid(r) && (forall k :: k in r.counts ==> r.counts[k] == 0)
      && (forall k :: k in d.counts ==> k in r.counts)
      && (forall k :: k in labels ==> k in r.counts)
    decreases |labels|
  {
    if labels != [] {
      SeedZero(Put(d, labels[0], 0), labels[1..]);
    }
  }

  /** Distinct new labels are listed in order after the old keys. */
  lemma {:induction false} SeedKeys(d: Dict<Label>, labels: seq<Label>)
    requires Distinct(labels) && forall l :: l in labels ==> l !in d.counts
    ensures SeedBins(d, labels).keys == d.keys + labels
    decreases |labels|
  {
    if labels != [] {
      var d' := Put(d, labels[0], 0);
      assert d'.keys == d.keys + [labels[0]];
      SeedTailFresh(d, labels);
      SeedKeys(d', labels[1..]);
      assert d.keys + labels == (d.keys + [labels[0]]) + labels[1..];
    }
  }

  /** After seeding the first of distinct fresh labels, the rest are still
      distinct and fresh. */
  lemma SeedTailFresh(d: Dict<Label>, labels: seq<Label>)
    requires labels != [] && Distinct(labels) && forall l :: l in labels ==> l !in d.counts
    ensures Distinct(labels[1..])
    ensures forall l :: l in labels[1..] ==> l !in Put(d, labels[0], 0).counts
  {
    var d' := Put(d, labels[0], 0);
    forall i, j | 0 <= i < j < |labels[1..]|
      ensures labels[1..][i] != labels[1..][j]
    {
      assert labels[i + 1] != labels[j + 1];
    }
    forall l | l in labels[1..]
      ensures l !in d'.counts
    {
      var i :| 0 <= i < |labels[1..]| && labels[1..][i] == l;
      assert labels[0] != labels[i + 1];
    }
  }

  lemma {:induction false} ZeroSum(keys: seq<Label>, m: map<Label, nat>)
    requires forall k :: k in keys ==> k in m && m[k] == 0
    ensures Sum(ValuesOf(keys, m)) == 0
  {
    if keys != [] {
      ZeroSum(keys[1..], m);
    }
  }

  /** The bin labels are distinct when the bins have width. */
  lemma BinLabelsDistinct(lo: real, size: real, count: nat)
    requires size > 0.0
    ensures Distinct(BinLabels(lo, size, count))
  {
    forall i, j | 0 <= i < j < count
      ensures BinLabel(lo, size, i) != BinLabel(lo, size, j)
    {
      assert i as real * size < j as real * size;
    }
  }

  /** The counts of the filled bins add up to the number of values that
      landed in a bin. */
  lemma BinTallyTotal(values: seq<real>, closedLast: bool)
    requires values != []
    ensures Valid(BinTally(values, closedLast))
    ensures Sum(Values(BinTally(values, closedLast)))
      == |Landed(values, SeqMin(values), BinSize(values), BinCount(|values|), closedLast)|
  {
    var lo := SeqMin(values);
    var size := BinSize(values);
    var count := BinCount(|values|);
    var seed := SeedBins(Empty(), BinLabels(lo, size, count));
    var landed := Landed(values, lo, size, count, closedLast);
    assert BinTally(values, closedLast) == TallyFrom(seed, landed);
    SeedZero(Empty(), BinLabels(lo, size, count));
    ZeroSum(seed.keys, seed.counts);
    TallyTotal(seed, landed);
  }

  /** The labels of the filled bins are the bins' ranges in order, when the
      values are not all equal. */
  lemma BinTallyLabels(values: seq<real>, closedLast: bool)
    requires values != [] && SeqMin(values) < SeqMax(values)
    ensures BinTally(values, closedLast).keys == BinLabels(SeqMin(values), BinSize(values), BinCount(|values|))
  {
    var lo, hi, count, size := BinParams(values);
    assert BinTally(values, closedLast)
      == TallyFrom(SeedBins(Empty(), BinLabels(lo, size, count)), Landed(values, lo, size, count, closedLast));
    SeededTallyKeys(values, lo, size, count, closedLast);
  }

  /** With bins of positive width, counting into the seeded bins keeps
      exactly the bins' labels, in order. */
  lemma SeededTallyKeys(values: seq<real>, lo: real, size: real, count: nat, closedLast: bool)
    requires size > 0.0
    ensures TallyFrom(SeedBins(Empty(), BinLabels(lo, size, count)), Landed(values, lo, size, count, closedLast)).keys
      == BinLabels(lo, size, count)
  {
    var labels := BinLabels(lo, size, count);
    var seed := SeedBins(Empty(), labels);
    var landed := Landed(values, lo, size, count, closedLast);
    BinLabelsDistinct(lo, size, count);
    SeedKeys(Empty(), labels);
    assert seed.keys == labels;
    SeedZero(Empty(), labels);
    LandedInLabels(values, lo, size, count, closedLast);
    TallySeededKeys(seed, landed);
  }


  /** As written, with values not all equal, the counted total misses
      exactly the values equal to the maximum. */
  lemma HalfOpenTotal(values: seq<real>)
    requires values != [] && SeqMin(values) < SeqMax(values)
    ensures Valid(BinTally(values, false))
    ensures Sum(Values(BinTally(values, false))) == |values| - multiset(values)[SeqMax(values)]
  {
    BinTallyTotal(values, false);
    HalfOpenLanded(values);
  }

  lemma HalfOpenLanded(values: seq<real>)
    requires values != [] && SeqMin(values) < SeqMax(values)
    ensures |Landed(values, SeqMin(values), BinSize(values), BinCount(|values|), false)|
      == |values| - multiset(values)[SeqMax(values)]
  {
    var lo, hi, count, size := BinParams(values);
    LandedHalfOpen(values, lo, hi, count, size);
  }

  /** Repaired: every value is counted. */
  lemma ClosedTotal(values: seq<real>)
    requires values != []
    ensures Valid(BinTally(values, true))
    ensures Sum(Values(BinTally(values, true))) == |values|
  {
    BinTallyTotal(values, true);
    ClosedLanded(values);
  }

  /** The bounds, the bin count and the bin size of the values, with the
      facts the bin lemmas need about them. */
  lemma BinParams(values: seq<real>) returns (lo: real, hi: real, count: nat, size: real)
    requires values != []
    ensures lo == SeqMin(values) && hi == SeqMax(values) && count == BinCount(|values|) && size == BinSize(values)
    ensures count >= 1 && size >= 0.0 && count as real * size == hi - lo
    ensures size == 0.0 <==> lo == hi
    ensures forall v :: v in values ==> lo <= v <= hi
  {
    lo, hi, count, size := SeqMin(values), SeqMax(values), BinCount(|values|), BinSize(values);
    BinSizeSpan(values);
    SeqBounds(values);
    if lo == hi {
      assert size == 0.0 / count as real;
    }
  }

  lemma ClosedLanded(values: seq<real>)
    requires values != []
    ensures |Landed(values, SeqMin(values), BinSize(values), BinCount(|values|), true)| == |values|
  {
    var lo, hi, count, size := BinParams(values);
    LandedClosed(values, lo, hi, count, size);
  }


  /** As written, when all values are equal nothing is counted. */
  lemma EqualValuesTotal(values: seq<real>)
    requires values != [] && SeqMin(values) == SeqMax(values)
    ensures Valid(BinTally(values, false))
    ensures Sum(Values(BinTally(values, false))) == 0
  {
    BinTallyTotal(values, false);
    var lo, hi, count, size := BinParams(values);
    assert size == 0.0;
    LandedZeroWidth(values, lo, count);
  }

  /** How many of the numbers `xs` the written bins count: every value
      below the maximum, and none at all when the values are all equal. */
  function HalfOpenCount(xs: seq<real>): int
    requires xs != []
  {
    if SeqMin(xs) < SeqMax(xs) then |xs| - multiset(xs)[SeqMax(xs)] else 0
  }

  /** As written, the bins count exactly `HalfOpenCount(values)` values. */
  lemma HalfOpenCounted(values: seq<real>)
    requires values != []
    ensures Valid(BinTally(values, false))
    ensures Sum(Values(BinTally(values, false))) == HalfOpenCount(values)
  {
    if SeqMin(values) < SeqMax(values) {
      HalfOpenTotal(values);
    } else {
      EqualValuesTotal(values);
    }
  }

  /** The values 1 and 2 make two bins, [1, 1.5) and [1.5, 2); as written, 2
      is counted nowhere and the chart shows one value out of two. */
  lemma OneTwoAsWritten()
    ensures Valid(BinTally([1.0, 2.0], false)) && Values(BinTally([1.0, 2.0], false)) == [1, 0]
    ensures Valid(BinTally([1.0, 2.0], true)) && Values(BinTally([1.0, 2.0], true)) == [1, 1]
  {
    OneTwoBins();
    OneTwoLanded();
    OneTwoCounts();
  }

  lemma OneTwoLanded()
    ensures Landed([1.0, 2.0], 1.0, 0.5, 2, false) == [Range(1.0, 1.5)]
    ensures Landed([1.0, 2.0], 1.0, 0.5, 2, true) == [Range(1.0, 1.5), Range(1.5, 2.0)]
  {
    assert FirstBin(1.0, 1.0, 0.5, 2, false) == Some(0);
    assert FirstBin(2.0, 1.0, 0.5, 2, false) == None;
    assert FirstBin(1.0, 1.0, 0.5, 2, true) == Some(0);
    assert FirstBin(2.0, 1.0, 0.5, 2, true) == Some(1);
    assert [1.0, 2.0][1..] == [2.0];
  }

  lemma OneTwoCounts()
    ensures var b0, b1 := Range(1.0, 1.5), Range(1.5, 2.0);
      var seed := Dict([b0, b1], map[b0 := 0, b1 := 0]);
      Valid(TallyFrom(seed, [b0])) && Values(TallyFrom(seed, [b0])) == [1, 0]
      && Valid(TallyFrom(seed, [b0, b1])) && Values(TallyFrom(seed, [b0, b1])) == [1, 1]
  {
    var b0, b1 := Range(1.0, 1.5), Range(1.5, 2.0);
    var seed := Dict([b0, b1], map[b0 := 0, b1 := 0]);
    var open := Dict([b0, b1], map[b0 := 1, b1 := 0]);
    OneTwoFirst(b0, b1, seed, open);
    OneTwoSecond(b0, b1, open, Dict([b0, b1], map[b0 := 1, b1 := 1]));
    assert [b0, b1][1..] == [b1];
    assert TallyFrom(seed, [b0, b1]) == TallyFrom(open, [b1]);
  }

  lemma OneTwoFirst(b0: Label, b1: Label, seed: Dict<Label>, open: Dict<Label>)
    requires b0 == Range(1.0, 1.5) && b1 == Range(1.5, 2.0)
    requires seed == Dict([b0, b1], map[b0 := 0, b1 := 0]) && open == Dict([b0, b1], map[b0 := 1, b1 := 0])
    ensures TallyFrom(seed, [b0]) == open && Valid(open) && Values(open) == [1, 0]
  {
    assert open.counts == seed.counts[b0 := 1];
    assert [b0][1..] == [];
    assert Values(open) == [open.counts[b0], open.counts[b1]];
  }

  lemma OneTwoSecond(b0: Label, b1: Label, open: Dict<Label>, closed: Dict<Label>)
    requires b0 == Range(1.0, 1.5) && b1 == Range(1.5, 2.0)
    requires open == Dict([b0, b1], map[b0 := 1, b1 := 0]) && closed == Dict([b0, b1], map[b0 := 1, b1 := 1])
    ensures TallyFrom(open, [b1]) == closed && Valid(closed) && Values(closed) == [1, 1]
  {
    assert closed.counts == open.counts[b1 := 1];
    assert [b1][1..] == [];
    assert Values(closed) == [closed.counts[b0], closed.counts[b1]];
  }

  /** The bounds, the bin count, the width and the seeded bins for 1 and 2. */
  lemma OneTwoBins()
    ensures SeqMin([1.0, 2.0]) == 1.0 && SeqMax([1.0, 2.0]) == 2.0
    ensures BinCount(2) == 2 && BinSize([1.0, 2.0]) == 0.5
    ensures SeedBins(Empty(), BinLabels(1.0, 0.5, 2))
      == Dict([Range(1.0, 1.5), Range(1.5, 2.0)], map[Range(1.0, 1.5) := 0, Range(1.5, 2.0) := 0])
  {
    assert BinCount(2) == 2;
    var labels := BinLabels(1.0, 0.5, 2);
    assert labels == [Range(1.0, 1.5), Range(1.5, 2.0)];
  }
}
