/** The series the bar, line and scatter builders put in their datasets: a
    value column's numbers, the per-label means of the grouped bar chart,
    and the index-numbered points of the scatter chart. */
module SeriesValues {
  import opened Common
  import opened Cells
  import opened Tally
  import opened ChartTypes

  // ---------------------------------------------------------------------------
  // Numbers of a column

  /** `values.filter(isNumeric).map(Number)`. */
  function NumericValues(values: seq<Cell>): (r: seq<real>)
    ensures |r| == CountWhere(values, IsNumeric)
  {
    if values == [] then []
    else (if IsNumeric(values[0]) then [NumberOf(values[0])] else []) + NumericValues(values[1..])
  }

  /** Every number comes from a numeric cell, and in order: the `i`-th
      number is the `i`-th numeric cell's value. */
  lemma {:induction false} NumericValuesFrom(values: seq<Cell>, y: real)
    ensures y in NumericValues(values) <==> exists c :: c in values && IsNumeric(c) && NumberOf(c) == y
  {
    if values != [] {
      NumericValuesFrom(values[1..], y);
      var c := values[0];
      if IsNumeric(c) && NumberOf(c) == y {
        assert c in values;
      }
      assert forall d :: d in values <==> d == c || d in values[1..];
    }
  }

  /** A column of plain numbers keeps every number. */
  lemma {:induction false} NumbersKept(values: seq<Cell>)
    requires forall i :: 0 <= i < |values| ==> values[i].Num?
    ensures |NumericValues(values)| == |values|
    ensures forall i :: 0 <= i < |values| ==> NumericValues(values)[i] == values[i].n
  {
    if values != [] {
      NumbersKept(values[1..]);
      assert IsNumeric(values[0]);
    }
  }

  // ---------------------------------------------------------------------------
  // Means by label

  function RealSum(xs: seq<real>): real {
    if xs == [] then 0.0 else xs[0] + RealSum(xs[1..])
  }

  /** `vals.length > 0 ? sum / length : 0`. */
  function Mean(xs: seq<real>): real {
    if |xs| > 0 then RealSum(xs) / |xs| as real else 0.0
  }

  lemma {:induction false} SumBounds(xs: seq<real>, lo: real, hi: real)
    requires forall i :: 0 <= i < |xs| ==> lo <= xs[i] <= hi
    ensures |xs| as real * lo <= RealSum(xs) <= |xs| as real * hi
  {
    if xs != [] {
      SumBounds(xs[1..], lo, hi);
      assert |xs| as real == |xs[1..]| as real + 1.0;
    }
  }

  /** A mean lies between any bounds of its numbers. */
  lemma MeanBounds(xs: seq<real>, lo: real, hi: real)
    requires xs != []
    requires forall i :: 0 <= i < |xs| ==> lo <= xs[i] <= hi
    ensures lo <= Mean(xs) <= hi
  {
    SumBounds(xs, lo, hi);
    var n := |xs| as real;
    var m := Mean(xs);
    assert m * n == RealSum(xs);
    if m < lo {
      MulLtRight(m, lo, n);
    }
    if m > hi {
      MulLtRight(hi, m, n);
    }
  }

  lemma MulLtRight(a: real, b: real, n: real)
    requires a < b && n > 0.0
    ensures a * n < b * n
  {
    assert (b - a) * n > 0.0;
  }

  /** `label?.toString() || 'Unknown'`: the grouping key, with no gender
      folding. */
  function GroupKey(c: Cell): (k: string)
    ensures k != ""
    ensures c.Str? && c.s != "" ==> k == c.s
    ensures c == Null || c == Str("") ==> k == "Unknown"
  {
    var t := CellText(c);
    if t.None? || t.value == "" then "Unknown" else t.value
  }

  function GroupKeys(labels: seq<Cell>): (r: seq<string>)
    ensures |r| == |labels|
    ensures forall i :: 0 <= i < |labels| ==> r[i] == GroupKey(labels[i])
  {
    seq(|labels|, i requires 0 <= i < |labels| => GroupKey(labels[i]))
  }

  /** `values[idx]`: `undefined` past the end. */
  function ValueAt(values: seq<Cell>, i: nat): (c: Cell)
    ensures i >= |values| ==> c == Null
  {
    if i < |values| then values[i] else Null
  }

  /** The numbers pushed onto key `k`'s list by the first `n` labels: the
      value paired with each label of that key, when it is numeric. */
  function Pushed(labels: seq<Cell>, values: seq<Cell>, k: string, n: nat): seq<real>
    requires n <= |labels|
  {
    if n == 0 then []
    else Pushed(labels, values, k, n - 1) + (if GroupKey(labels[n - 1]) == k then Paired(values, n - 1) else [])
  }

  /** `Number(c)` when `isNumeric(c)` holds. */
  function NumericValue(c: Cell): (r: Option<real>)
    ensures r.Some? <==> IsNumeric(c)
    ensures r.Some? ==> r.value == NumberOf(c)
  {
    if IsNumeric(c) then Some(NumberOf(c)) else None
  }

  /** The number pushed, if any, as a list of at most one. */
  function Listed(o: Option<real>): (r: seq<real>)
    ensures |r| <= 1 && (r == [] <==> o.None?)
  {
    if o.Some? then [o.value] else []
  }

  /** What label `i` pushes: `Number(values[i])` when `isNumeric` holds. */
  function Paired(values: seq<Cell>, i: nat): (r: seq<real>)
    ensures |r| <= 1
    ensures r != [] ==> i < |values| && IsNumeric(values[i]) && r == [NumberOf(values[i])]
    ensures r == [] ==> i >= |values| || !IsNumeric(values[i])
  {
    Listed(NumericValue(ValueAt(values, i)))
  }

  /** `Object.keys(groupedData)`: the keys in order of first occurrence. */
  function GroupOrder(labels: seq<Cell>): seq<string> {
    TallyFrom(Empty(), GroupKeys(labels)).keys
  }

  /** The dataset of a grouped bar chart: the mean of each key's numbers, in
      key order. */
  function GroupedMeans(labels: seq<Cell>, values: seq<Cell>): (r: seq<real>)
    ensures |r| == |GroupOrder(labels)|
  {
    var order := GroupOrder(labels);
    seq(|order|, i requires 0 <= i < |order| => Mean(Pushed(labels, values, order[i], |labels|)))
  }

  /** `groupedData`: the keys met so far, each with its list of numbers. */
  datatype Groups = Groups(order: seq<string>, lists: map<string, seq<real>>)

  /** `groupedData` after the first `n` labels: the keys in first-occurrence
      order, each with the numbers its labels pushed. */
  ghost predicate GroupedAfter(g: Groups, labels: seq<Cell>, values: seq<Cell>, n: nat)
    requires n <= |labels|
  {
    g.order == TallyFrom(Empty(), GroupKeys(labels)[..n]).keys
    && (forall k :: k in g.lists <==> k in g.order)
    && (forall k :: k in g.lists ==> g.lists[k] == Pushed(labels, values, k, n))
  }

  /** One pass of the grouping loop's body for the label's key and its
      paired value. */
  function GroupStep(g: Groups, key: string, pushed: seq<real>): Groups {
    var g1 := if key in g.lists then g else Groups(g.order + [key], g.lists[key := []]);
    g1.(lists := g1.lists[key := g1.lists[key] + pushed])
  }

  /** The grouping loop: `labels.forEach((label, idx) => ...)`. */
  method GroupNumbers(labels: seq<Cell>, values: seq<Cell>) returns (g: Groups)
    ensures g == GroupsAfter(labels, values, |labels|)
  {
    g := GroupBy(labels, values, GroupKey, NumericValue);
  }

  /** The loop itself, for any key and any reading of the paired value. */
  method GroupBy(labels: seq<Cell>, values: seq<Cell>, key: Cell -> string, number: Cell -> Option<real>)
    returns (g: Groups)
    ensures g == GroupsBy(labels, values, key, number, |labels|)
  {
    g := Groups([], map[]);
    var idx := 0;
    while idx < |labels|
      invariant 0 <= idx <= |labels|
      invariant g == GroupsBy(labels, values, key, number, idx)
    {
      GroupsByStep(labels, values, key, number, idx);
      g := AddLabel(g, key(labels[idx]), number(ValueAt(values, idx)));
      idx := idx + 1;
    }
  }

  /** The `forEach` body: the key gets an empty list when new, then the
      value's number when there is one. */
  method AddLabel(g: Groups, key: string, n: Option<real>) returns (r: Groups)
    ensures r == GroupStep(g, key, Listed(n))
  {
    r := g;
    if key !in r.lists {
      r := Groups(r.order + [key], r.lists[key := []]);
    }
    if n.Some? {
      r := r.(lists := r.lists[key := r.lists[key] + [n.value]]);
    } else {
      assert key in r.lists && r.lists[key] + [] == r.lists[key];
      assert r.lists[key := r.lists[key] + []] == r.lists;
    }
  }

  /** `groupedData` once the loop has visited the first `n` labels. */
  function GroupsBy(labels: seq<Cell>, values: seq<Cell>, key: Cell -> string, number: Cell -> Option<real>, n: nat): Groups
    requires n <= |labels|
  {
    if n == 0 then Groups([], map[])
    else GroupStep(GroupsBy(labels, values, key, number, n - 1), key(labels[n - 1]), Listed(number(ValueAt(values, n - 1))))
  }

  lemma GroupsByStep(labels: seq<Cell>, values: seq<Cell>, key: Cell -> string, number: Cell -> Option<real>, n: nat)
    requires n < |labels|
    ensures GroupsBy(labels, values, key, number, n + 1)
      == GroupStep(GroupsBy(labels, values, key, number, n), key(labels[n]), Listed(number(ValueAt(values, n))))
  {
  }

  /** The grouped bar chart's groups after the first `n` labels. */
  function GroupsAfter(labels: seq<Cell>, values: seq<Cell>, n: nat): Groups
    requires n <= |labels|
  {
    GroupsBy(labels, values, GroupKey, NumericValue, n)
  }

  /** After `n` labels the groups hold the keys met so far, in order, each
      with the numbers pushed for it. */
  lemma {:induction false} GroupsAfterGrouped(labels: seq<Cell>, values: seq<Cell>, n: nat)
    requires n <= |labels|
    ensures GroupedAfter(GroupsAfter(labels, values, n), labels, values, n)
  {
    if n == 0 {
      assert GroupKeys(labels)[..0] == [];
    } else {
      GroupsAfterGrouped(labels, values, n - 1);
      GroupStepKeeps(labels, values, n - 1);
    }
  }

  /** The groups after every label: the keys in first-occurrence order,
      each with all the numbers its labels pushed. */
  lemma GroupsComplete(labels: seq<Cell>, values: seq<Cell>)
    ensures var g := GroupsAfter(labels, values, |labels|);
      g.order == GroupOrder(labels)
      && (forall k :: k in g.lists <==> k in g.order)
      && (forall k :: k in g.lists ==> g.lists[k] == Pushed(labels, values, k, |labels|))
  {
    GroupsAfterGrouped(labels, values, |labels|);
    assert GroupKeys(labels)[..|labels|] == GroupKeys(labels);
  }

  /** The loop body keeps the grouping invariant. */
  lemma GroupStepKeeps(labels: seq<Cell>, values: seq<Cell>, idx: nat)
    requires idx < |labels| && GroupedAfter(GroupsAfter(labels, values, idx), labels, values, idx)
    ensures GroupedAfter(GroupsAfter(labels, values, idx + 1), labels, values, idx + 1)
  {
    var g := GroupsAfter(labels, values, idx);
    GroupsByStep(labels, values, GroupKey, NumericValue, idx);
    assert Listed(NumericValue(ValueAt(values, idx))) == Paired(values, idx);
    var key := GroupKey(labels[idx]);
    var g1 := if key in g.lists then g else Groups(g.order + [key], g.lists[key := []]);
    NewKeyStep(g, labels, values, idx);
    ListsStep(g1, labels, values, idx);
    assert GroupStep(g, key, Paired(values, idx)) == g1.(lists := g1.lists[key := g1.lists[key] + Paired(values, idx)]);
  }

  /** Adding the key when it is new keeps the key order and the lists. */
  lemma NewKeyStep(g: Groups, labels: seq<Cell>, values: seq<Cell>, idx: nat)
    requires idx < |labels| && GroupedAfter(g, labels, values, idx)
    ensures var key := GroupKey(labels[idx]);
      var g1 := if key in g.lists then g else Groups(g.order + [key], g.lists[key := []]);
      g1.order == TallyFrom(Empty(), GroupKeys(labels)[..idx + 1]).keys
      && (forall k :: k in g1.lists <==> k in g1.order)
      && key in g1.lists
      && (forall k :: k in g1.lists ==> g1.lists[k] == Pushed(labels, values, k, idx))
  {
    var keys := GroupKeys(labels);
    var key := keys[idx];
    OrderStep(keys, idx, g.order);
    if key !in g.lists {
      PushedAbsent(labels, values, key, idx);
    }
  }

  /** Pushing the paired value, when numeric, extends the lists by one label. */
  lemma ListsStep(g1: Groups, labels: seq<Cell>, values: seq<Cell>, idx: nat)
    requires idx < |labels|
    requires g1.order == TallyFrom(Empty(), GroupKeys(labels)[..idx + 1]).keys
    requires forall k :: k in g1.lists <==> k in g1.order
    requires GroupKey(labels[idx]) in g1.lists
    requires forall k :: k in g1.lists ==> g1.lists[k] == Pushed(labels, values, k, idx)
    ensures var key := GroupKey(labels[idx]);
      GroupedAfter(g1.(lists := g1.lists[key := g1.lists[key] + Paired(values, idx)]), labels, values, idx + 1)
  {
    ListsExtend(g1.lists, labels, values, idx);
  }

  lemma ListsExtend(lists: map<string, seq<real>>, labels: seq<Cell>, values: seq<Cell>, idx: nat)
    requires idx < |labels|
    requires GroupKey(labels[idx]) in lists
    requires forall k :: k in lists ==> lists[k] == Pushed(labels, values, k, idx)
    ensures var key := GroupKey(labels[idx]);
      var lists' := lists[key := lists[key] + Paired(values, idx)];
      forall k :: k in lists' ==> lists'[k] == Pushed(labels, values, k, idx + 1)
  {
    var key := GroupKey(labels[idx]);
    var lists' := lists[key := lists[key] + Paired(values, idx)];
    forall k | k in lists'
      ensures lists'[k] == Pushed(labels, values, k, idx + 1)
    {
      PushedStep(labels, values, k, idx);
    }
  }

  lemma PushedStep(labels: seq<Cell>, values: seq<Cell>, k: string, idx: nat)
    requires idx < |labels|
    ensures Pushed(labels, values, k, idx + 1)
      == Pushed(labels, values, k, idx) + (if GroupKey(labels[idx]) == k then Paired(values, idx) else [])
  {
  }

  /** One step of the grouping keeps its key order the counting order. */
  lemma OrderStep(keys: seq<string>, idx: nat, order: seq<string>)
    requires idx < |keys| && order == TallyFrom(Empty(), keys[..idx]).keys
    ensures keys[idx] in order <==> keys[idx] in keys[..idx]
    ensures TallyFrom(Empty(), keys[..idx + 1]).keys
      == if keys[idx] in order then order else order + [keys[idx]]
  {
    TallyValid(Empty(), keys[..idx]);
    TallyKeys(Empty(), keys[..idx], keys[idx]);
    assert keys[..idx + 1] == keys[..idx] + [keys[idx]];
    TallySnoc(Empty(), keys[..idx], keys[idx]);
  }

  /** A key that none of the first `n` labels has has pushed nothing. */
  lemma {:induction false} PushedAbsent(labels: seq<Cell>, values: seq<Cell>, k: string, n: nat)
    requires n <= |labels|
    requires k !in GroupKeys(labels)[..n]
    ensures Pushed(labels, values, k, n) == []
  {
    if n > 0 {
      assert GroupKeys(labels)[..n - 1] == GroupKeys(labels)[..n][..n - 1];
      assert GroupKeys(labels)[n - 1] in GroupKeys(labels)[..n];
      PushedAbsent(labels, values, k, n - 1);
    }
  }

  /** `aggregatedLabels.map(label => mean of groupedData[label])`. */
  method GroupedMeansData(labels: seq<Cell>, values: seq<Cell>) returns (data: seq<real>)
    ensures data == GroupedMeans(labels, values)
  {
    var g := GroupNumbers(labels, values);
    GroupsComplete(labels, values);
    data := seq(|g.order|, i requires 0 <= i < |g.order| => Mean(g.lists[g.order[i]]));
  }

  /** The keys of the grouped chart are the labels' keys, each listed once. */
  lemma GroupOrderKeys(labels: seq<Cell>, k: string)
    ensures Distinct(GroupOrder(labels))
    ensures k in GroupOrder(labels) <==> exists i :: 0 <= i < |labels| && GroupKey(labels[i]) == k
  {
    var ks := GroupKeys(labels);
    TallyValid(Empty(), ks);
    TallyKeys(Empty(), ks, k);
    if k in ks {
      var i :| 0 <= i < |ks| && ks[i] == k;
      assert GroupKey(labels[i]) == k;
    }
  }

  /** Every number in a key's list is the numeric value paired with a label
      of that key. */
  lemma {:induction false} PushedFrom(labels: seq<Cell>, values: seq<Cell>, k: string, n: nat, y: real)
    requires n <= |labels|
    requires y in Pushed(labels, values, k, n)
    ensures exists i :: (0 <= i < n && i < |values| && GroupKey(labels[i]) == k
                         && IsNumeric(values[i]) && NumberOf(values[i]) == y)
  {
    assert n > 0;
    var m := n - 1;
    PushedStep(labels, values, k, m);
    if y in Pushed(labels, values, k, m) {
      PushedFrom(labels, values, k, m, y);
      var i :| 0 <= i < m && i < |values| && GroupKey(labels[i]) == k
        && IsNumeric(values[i]) && NumberOf(values[i]) == y;
      assert 0 <= i < n;
    } else {
      var p := Paired(values, m);
      assert GroupKey(labels[m]) == k && y in p;
      assert m < |values| && IsNumeric(values[m]) && NumberOf(values[m]) == y;
    }
  }

  /** Each group's bar lies between the smallest and the largest number of
      that group, and a group with no numbers shows 0. */
  lemma GroupMeanBounds(labels: seq<Cell>, values: seq<Cell>, j: nat, lo: real, hi: real)
    requires j < |GroupOrder(labels)|
    requires forall i :: 0 <= i < |values| && IsNumeric(values[i]) ==> lo <= NumberOf(values[i]) <= hi
    ensures var xs := Pushed(labels, values, GroupOrder(labels)[j], |labels|);
      (xs == [] ==> GroupedMeans(labels, values)[j] == 0.0)
      && (xs != [] ==> lo <= GroupedMeans(labels, values)[j] <= hi)
  {
    var k := GroupOrder(labels)[j];
    var xs := Pushed(labels, values, k, |labels|);
    if xs != [] {
      forall m | 0 <= m < |xs|
        ensures lo <= xs[m] <= hi
      {
        PushedFrom(labels, values, k, |labels|, xs[m]);
      }
      MeanBounds(xs, lo, hi);
    }
  }

  // ---------------------------------------------------------------------------
  // Scatter points

  /** The points of one scatter dataset: one per label while numbers last;
      the x values are the positions and the y values are the leading
      numbers, in order. */
  function PointsOf(labelCount: nat, values: seq<real>): (r: seq<Point>)
    ensures |r| <= labelCount && |r| <= |values|
    ensures |r| == labelCount || |r| == |values|
    ensures forall i :: 0 <= i < |r| ==> r[i].x == i
    ensures Ys(r) == values[..|r|]
  {
    seq(Min(labelCount, |values|), i requires 0 <= i < Min(labelCount, |values|) => Point(i, values[i]))
  }

  /** The point loop of `generateScatterChart`. */
  method ScatterPoints(labelCount: nat, values: seq<real>) returns (points: seq<Point>)
    ensures points == PointsOf(labelCount, values)
  {
    points := [];
    var i := 0;
    var n := if labelCount <= |values| then labelCount else |values|;
    while i < n
      invariant 0 <= i <= n
      invariant |points| == i
      invariant forall j :: 0 <= j < i ==> points[j] == Point(j, values[j])
    {
      points := points + [Point(i, values[i])];
      i := i + 1;
    }
  }

  function Ys(points: seq<Point>): (r: seq<real>)
    ensures |r| == |points|
    ensures forall i :: 0 <= i < |points| ==> r[i] == points[i].y
  {
    seq(|points|, i requires 0 <= i < |points| => points[i].y)
  }
}
