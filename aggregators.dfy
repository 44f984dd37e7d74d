/** The count aggregators of the chart engine: `aggregateCategoricalData`
    (with its gender folding) and `aggregateBooleanData`.  Each walks the
    values once and fills a counter object. */
module Aggregators {
  import opened Common
  import opened Cells
  import opened Tally

  // ---------------------------------------------------------------------------
  // Categorical counts

  /** The gender spellings folded onto one label, case-insensitively. */
  function FoldGender(key: string): string {
    var l := Lower(key);
    if l == "m" || l == "male" then "Male"
    else if l == "f" || l == "female" then "Female"
    else if l == "other" || l == "o" then "Other"
    else key
  }

  /** Each spelling folds onto its label; any other key stays as it is. */
  lemma FoldGenderCases(key: string)
    ensures Lower(key) == "m" || Lower(key) == "male" ==> FoldGender(key) == "Male"
    ensures Lower(key) == "f" || Lower(key) == "female" ==> FoldGender(key) == "Female"
    ensures Lower(key) == "o" || Lower(key) == "other" ==> FoldGender(key) == "Other"
    ensures !(Lower(key) in {"m", "male", "f", "female", "o", "other"}) ==> FoldGender(key) == key
  {
  }

  /** `value?.toString() || 'Unknown'`, then gender folding. */
  function CategoryKey(c: Cell): string {
    var t := CellText(c);
    FoldGender(if t.None? || t.value == "" then "Unknown" else t.value)
  }

  /** A missing value is counted as "Unknown", and no key is empty. */
  lemma CategoryKeyShape(c: Cell)
    ensures c == Null || c == Str("") ==> CategoryKey(c) == "Unknown"
    ensures CategoryKey(c) != ""
  {
    UnknownStays();
  }

  /** The keys of the values, in order. */
  function CategoryKeys(values: seq<Cell>): (r: seq<string>)
    ensures |r| == |values|
  {
    MapAll(values, CategoryKey)
  }

  /** What `aggregateCategoricalData` returns. */
  function CategoricalCounts(values: seq<Cell>): Dict<string> {
    TallyFrom(Empty(), CategoryKeys(values))
  }

  /** `aggregateCategoricalData`: one pass over the values, counting each
      value's key. */
  method AggregateCategoricalData(values: seq<Cell>) returns (counts: Dict<string>)
    ensures counts == CategoricalCounts(values)
  {
    counts := CountInto(values, CategoryKey, Dict([], map[]));
  }

  /** Folding is idempotent: a folded label folds to itself. */
  lemma FoldGenderIdempotent(key: string)
    ensures FoldGender(FoldGender(key)) == FoldGender(key)
  {
    MaleStays();
    FemaleStays();
    OtherStays();
  }

  // The three labels, and "Unknown", are fixed points of the folding.

  lemma MaleStays()
    ensures FoldGender("Male") == "Male"
  {
    assert Lower("Male") == "male";
  }

  lemma FemaleStays()
    ensures FoldGender("Female") == "Female"
  {
    assert Lower("Female") == "female";
  }

  lemma OtherStays()
    ensures FoldGender("Other") == "Other"
  {
    assert Lower("Other") == "other";
  }

  lemma UnknownStays()
    ensures FoldGender("Unknown") == "Unknown"
  {
    assert Lower("Unknown") == "unknown";
  }

  /** The counts add up to the number of values. */
  lemma CategoricalTotal(values: seq<Cell>)
    ensures Valid(CategoricalCounts(values))
    ensures Sum(Values(CategoricalCounts(values))) == |values|
  {
    TallyTotal(Empty(), CategoryKeys(values));
  }

  /** The labels are exactly the keys of the values, each listed once, and
      each label's count is the number of values with that key, so at least 1. */
  lemma CategoricalLabels(values: seq<Cell>, k: string)
    ensures Valid(CategoricalCounts(values))
    ensures k in CategoricalCounts(values).keys <==> exists i :: 0 <= i < |values| && CategoryKey(values[i]) == k
    ensures Lookup(CategoricalCounts(values), k) == multiset(CategoryKeys(values))[k]
    ensures k in CategoricalCounts(values).keys ==> CategoricalCounts(values).counts[k] >= 1
  {
    var ks := CategoryKeys(values);
    TallyValid(Empty(), ks);
    TallyKeys(Empty(), ks, k);
    TallyLookup(Empty(), ks, k);
    if k in ks {
      var i :| 0 <= i < |ks| && ks[i] == k;
      MapAllAt(values, CategoryKey, i);
    }
    if exists i :: 0 <= i < |values| && CategoryKey(values[i]) == k {
      var i :| 0 <= i < |values| && CategoryKey(values[i]) == k;
      MapAllAt(values, CategoryKey, i);
    }
  }

  /** Labels appear in the order of their first occurrence. */
  lemma CategoricalOrder(values: seq<Cell>, i: nat, j: nat)
    requires i < j < |values|
    requires CategoryKey(values[j]) !in CategoryKeys(values)[..j]
    ensures var ks := CategoricalCounts(values).keys;
      exists p, q :: 0 <= p < q < |ks| && ks[p] == CategoryKey(values[i]) && ks[q] == CategoryKey(values[j])
  {
    MapAllAt(values, CategoryKey, i);
    MapAllAt(values, CategoryKey, j);
    TallyKeyOrder(Empty(), CategoryKeys(values), i, j);
  }

  // ---------------------------------------------------------------------------
  // Boolean counts

  /** `{ 'True': 0, 'False': 0 }`. */
  function BooleanSeed(): (d: Dict<string>)
    ensures Valid(d)
  {
    Dict(["True", "False"], map["True" := 0, "False" := 0])
  }

  predicate CountsAsFalse(c: Cell) {
    !NormalizeBoolean(c)
  }

  function BooleanKey(c: Cell): string {
    if NormalizeBoolean(c) then "True" else "False"
  }

  function BooleanKeys(values: seq<Cell>): (r: seq<string>)
    ensures |r| == |values|
  {
    MapAll(values, BooleanKey)
  }

  /** What `aggregateBooleanData` returns. */
  function BooleanCounts(values: seq<Cell>): Dict<string> {
    TallyFrom(BooleanSeed(), BooleanKeys(values))
  }

  /** `aggregateBooleanData`: from the seed, one pass counting each value
      under True or False. */
  method AggregateBooleanData(values: seq<Cell>) returns (counts: Dict<string>)
    ensures counts == BooleanCounts(values)
  {
    counts := CountInto(values, BooleanKey, BooleanSeed());
  }

  /** The boolean counter always has exactly the labels True and False, in
      that order, and their counts are the numbers of values that do and do
      not normalise to true. */
  lemma BooleanShape(values: seq<Cell>)
    ensures BooleanCounts(values).keys == ["True", "False"]
    ensures Valid(BooleanCounts(values))
    ensures Values(BooleanCounts(values)) == [CountWhere(values, NormalizeBoolean), CountWhere(values, CountsAsFalse)]
  {
    var ks := BooleanKeys(values);
    BooleanKeysIn(values);
    TallySeededKeys(BooleanSeed(), ks);
    TallyValid(BooleanSeed(), ks);
    BooleanLookups(values);
    var d := BooleanCounts(values);
    assert "True" in d.keys && "False" in d.keys;
    var v := Values(d);
    assert v[0] == d.counts["True"] && v[1] == d.counts["False"];
  }

  lemma BooleanLookups(values: seq<Cell>)
    ensures Lookup(BooleanCounts(values), "True") == CountWhere(values, NormalizeBoolean)
    ensures Lookup(BooleanCounts(values), "False") == CountWhere(values, CountsAsFalse)
  {
    var ks := BooleanKeys(values);
    TallyLookup(BooleanSeed(), ks, "True");
    TallyLookup(BooleanSeed(), ks, "False");
    TrueCount(values);
  }

  lemma {:induction false} BooleanKeysIn(values: seq<Cell>)
    ensures forall x :: x in BooleanKeys(values) ==> x == "True" || x == "False"
  {
    if values != [] {
      BooleanKeysIn(values[1..]);
      assert BooleanKeys(values) == [BooleanKey(values[0])] + BooleanKeys(values[1..]);
    }
  }

  lemma {:induction false} TrueCount(values: seq<Cell>)
    ensures multiset(BooleanKeys(values))["True"] == CountWhere(values, NormalizeBoolean)
    ensures multiset(BooleanKeys(values))["False"] == CountWhere(values, CountsAsFalse)
  {
    if values != [] {
      TrueCount(values[1..]);
      assert BooleanKeys(values) == [BooleanKey(values[0])] + BooleanKeys(values[1..]);
    }
  }

  /** Hence the two counts add up to the number of values. */
  lemma BooleanTotal(values: seq<Cell>)
    ensures Valid(BooleanCounts(values))
    ensures Sum(Values(BooleanCounts(values))) == |values|
  {
    TallyTotal(BooleanSeed(), BooleanKeys(values));
    assert Values(BooleanSeed()) == [0, 0];
  }
}
