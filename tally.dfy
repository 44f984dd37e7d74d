/** The plain JavaScript object the chart engine fills as a counter
    (`counts[key] = (counts[key] || 0) + 1`, `aggregatedData[label]++`):
    a map from keys to counts whose `Object.keys` are in insertion order. */
module Tally {
  import opened Common

  datatype Dict<K(==)> = Dict(keys: seq<K>, counts: map<K, nat>)

  function Empty<K(==,!new)>(): (d: Dict<K>)
    ensures Valid(d) && d.keys == []
  {
    Dict([], map[])
  }

  predicate Distinct<K(==,!new)>(s: seq<K>) {
    forall i, j :: 0 <= i < j < |s| ==> s[i] != s[j]
  }

  /** The keys are listed once each and are exactly the keys with a count. */
  predicate Valid<K(==,!new)>(d: Dict<K>) {
    Distinct(d.keys) && (forall k :: k in d.counts ==> k in d.keys) && (forall k :: k in d.keys ==> k in d.counts)
  }

  /** `d[k] || 0`. */
  function Lookup<K(==,!new)>(d: Dict<K>, k: K): nat {
    if k in d.counts then d.counts[k] else 0
  }

  /** `d[k] = (d[k] || 0) + 1`: a new key goes last. */
  function Bump<K(==,!new)>(d: Dict<K>, k: K): (r: Dict<K>)
    ensures Valid(d) ==> Valid(r)
    ensures Lookup(r, k) == Lookup(d, k) + 1
    ensures forall k' :: k' != k ==> Lookup(r, k') == Lookup(d, k')
  {
    if k in d.counts then Dict(d.keys, d.counts[k := d.counts[k] + 1])
    else
      var r := Dict(d.keys + [k], d.counts[k := 1]);
      assert Valid(d) ==> Distinct(r.keys) by {
        if Valid(d) {
          forall i, j | 0 <= i < j < |r.keys| ensures r.keys[i] != r.keys[j] {
            if j == |d.keys| {
              assert r.keys[i] in d.keys;
            }
          }
        }
      }
      r
  }

  /** `d[k] = v`: a new key goes last, an existing one keeps its place. */
  function Put<K(==,!new)>(d: Dict<K>, k: K, v: nat): (r: Dict<K>)
    ensures Valid(d) ==> Valid(r)
    ensures Lookup(r, k) == v
    ensures forall k' :: k' != k ==> Lookup(r, k') == Lookup(d, k')
    ensures k in d.counts ==> r.keys == d.keys
    ensures k !in d.counts ==> r.keys == d.keys + [k]
  {
    if k in d.counts then Dict(d.keys, d.counts[k := v])
    else
      var r := Dict(d.keys + [k], d.counts[k := v]);
      assert Valid(d) ==> Distinct(r.keys) by {
        if Valid(d) {
          forall i, j | 0 <= i < j < |r.keys| ensures r.keys[i] != r.keys[j] {
            if j == |d.keys| {
              assert r.keys[i] in d.keys;
            }
          }
        }
      }
      r
  }

  /** `d[k] = (d[k] || 0) + 1` written out is the same as `Bump`. */
  lemma PutIncrement<K(!new)>(d: Dict<K>, k: K)
    ensures Put(d, k, Lookup(d, k) + 1) == Bump(d, k)
  {
  }

  /** One step of a counting loop over `xs`: `d[x] = (d[x] || 0) + 1` for
      its next element `x`. */
  lemma TallyStep<K(!new)>(d: Dict<K>, xs: seq<K>, i: nat, x: K)
    requires i < |xs| && xs[i] == x
    ensures TallyFrom(d, xs[i..]) == TallyFrom(Put(d, x, Lookup(d, x) + 1), xs[i + 1..])
  {
    assert xs[i..] == [x] + xs[i + 1..];
    TallyCons(d, x, xs[i + 1..]);
  }

  /** Counting `x` first, then the rest. */
  lemma TallyCons<K(!new)>(d: Dict<K>, x: K, rest: seq<K>)
    ensures TallyFrom(d, [x] + rest) == TallyFrom(Put(d, x, Lookup(d, x) + 1), rest)
  {
    assert ([x] + rest)[0] == x;
    assert ([x] + rest)[1..] == rest;
    PutIncrement(d, x);
  }

  /** The counting loop `values.forEach(v => { counts[key(v)] =
      (counts[key(v)] || 0) + 1 })`, starting from `seed`. */
  method CountInto<T, K(==,!new)>(values: seq<T>, key: T -> K, seed: Dict<K>) returns (counts: Dict<K>)
    ensures counts == TallyFrom(seed, MapAll(values, key))
  {
    counts := seed;
    var i := 0;
    assert values[i..] == values;
    while i < |values|
      invariant 0 <= i <= |values|
      invariant TallyFrom(counts, MapAll(values[i..], key)) == TallyFrom(seed, MapAll(values, key))
    {
      var k := key(values[i]);
      assert values[i..][1..] == values[i + 1..];
      TallyCons(counts, k, MapAll(values[i + 1..], key));
      counts := Put(counts, k, Lookup(counts, k) + 1);
      i := i + 1;
    }
  }

  /** Counting every element of `xs`, in order, into `d`. */
  function TallyFrom<K(==,!new)>(d: Dict<K>, xs: seq<K>): Dict<K>
    decreases |xs|
  {
    if xs == [] then d else TallyFrom(Bump(d, xs[0]), xs[1..])
  }

  /** `Object.values(d)`: the counts in key order. */
  function Values<K(==,!new)>(d: Dict<K>): (r: seq<nat>)
    requires Valid(d)
    ensures |r| == |d.keys|
  {
    ValuesOf(d.keys, d.counts)
  }

  function ValuesOf<K(==,!new)>(keys: seq<K>, m: map<K, nat>): (r: seq<nat>)
    requires forall k :: k in keys ==> k in m
    ensures |r| == |keys|
    ensures forall i :: 0 <= i < |keys| ==> r[i] == m[keys[i]]
  {
    if keys == [] then [] else [m[keys[0]]] + ValuesOf(keys[1..], m)
  }

  // ---------------------------------------------------------------------------
  // What counting produces

  lemma {:induction false} TallyValid<K(!new)>(d: Dict<K>, xs: seq<K>)
    requires Valid(d)
    ensures Valid(TallyFrom(d, xs))
    decreases |xs|
  {
    if xs != [] {
      TallyValid(Bump(d, xs[0]), xs[1..]);
    }
  }

  /** Counting one more element at the end is one more `Bump`. */
  lemma {:induction false} TallySnoc<K(!new)>(d: Dict<K>, xs: seq<K>, x: K)
    ensures TallyFrom(d, xs + [x]) == Bump(TallyFrom(d, xs), x)
    decreases |xs|
  {
    if xs == [] {
      assert [x][1..] == [];
    } else {
      assert (xs + [x])[1..] == xs[1..] + [x];
      TallySnoc(Bump(d, xs[0]), xs[1..], x);
    }
  }

  /** Each key's count grows by the number of times it occurs. */
  lemma {:induction false} TallyLookup<K(!new)>(d: Dict<K>, xs: seq<K>, k: K)
    ensures Lookup(TallyFrom(d, xs), k) == Lookup(d, k) + multiset(xs)[k]
    decreases |xs|
  {
    if xs != [] {
      TallyLookup(Bump(d, xs[0]), xs[1..], k);
      assert xs == [xs[0]] + xs[1..];
      assert multiset(xs) == multiset{xs[0]} + multiset(xs[1..]);
    }
  }

  /** The keys afterwards are the old keys and the counted elements. */
  lemma {:induction false} TallyKeys<K(!new)>(d: Dict<K>, xs: seq<K>, k: K)
    requires Valid(d)
    ensures k in TallyFrom(d, xs).keys <==> k in d.keys || k in xs
    decreases |xs|
  {
    if xs != [] {
      TallyKeys(Bump(d, xs[0]), xs[1..], k);
      assert xs == [xs[0]] + xs[1..];
    }
  }

  /** Counting never reorders or drops keys already present. */
  lemma {:induction false} TallyKeepsKeys<K(!new)>(d: Dict<K>, xs: seq<K>)
    ensures |d.keys| <= |TallyFrom(d, xs).keys|
    ensures TallyFrom(d, xs).keys[..|d.keys|] == d.keys
    decreases |xs|
  {
    if xs != [] {
      var b := Bump(d, xs[0]);
      TallyKeepsKeys(b, xs[1..]);
      assert b.keys[..|d.keys|] == d.keys;
    }
  }

  /** When every element already has a key, the keys do not change. */
  lemma {:induction false} TallySeededKeys<K(!new)>(d: Dict<K>, xs: seq<K>)
    requires forall x :: x in xs ==> x in d.counts
    ensures TallyFrom(d, xs).keys == d.keys
    decreases |xs|
  {
    if xs != [] {
      TallySeededKeys(Bump(d, xs[0]), xs[1..]);
    }
  }

  /** The counts add up to the old total plus the number of elements. */
  lemma {:induction false} TallyTotal<K(!new)>(d: Dict<K>, xs: seq<K>)
    requires Valid(d)
    ensures Valid(TallyFrom(d, xs))
    ensures Sum(Values(TallyFrom(d, xs))) == Sum(Values(d)) + |xs|
    decreases |xs|
  {
    TallyValid(d, xs);
    if xs != [] {
      BumpTotal(d, xs[0]);
      TallyTotal(Bump(d, xs[0]), xs[1..]);
    }
  }

  /** The first-occurrence order of keys: a key met earlier in `xs` is listed
      before one met later, after the keys `d` already had. */
  lemma {:induction false} TallyKeyOrder<K(!new)>(d: Dict<K>, xs: seq<K>, i: nat, j: nat)
    requires Valid(d)
    requires i < j < |xs| && xs[i] !in d.keys && xs[j] !in d.keys && xs[j] !in xs[..j]
    ensures var ks := TallyFrom(d, xs).keys;
      exists p, q :: |d.keys| <= p < q < |ks| && ks[p] == xs[i] && ks[q] == xs[j]
    decreases |xs|
  {
    assert xs[i] != xs[j] by { assert xs[i] == xs[..j][i]; }
    var b := Bump(d, xs[0]);
    assert TallyFrom(d, xs) == TallyFrom(b, xs[1..]);
    assert xs[1..][j - 1] == xs[j];
    if xs[i] == xs[0] {
      KeyOrderHead(d, xs, j);
    } else {
      assert xs[1..][i - 1] == xs[i];
      assert xs[0] != xs[j] by { assert xs[0] == xs[..j][0]; }
      assert xs[i] !in b.keys && xs[j] !in b.keys;
      assert xs[j] !in xs[1..][..j - 1] by {
        assert xs[1..][..j - 1] == xs[..j][1..];
      }
      TallyKeyOrder(b, xs[1..], i - 1, j - 1);
      var ks := TallyFrom(b, xs[1..]).keys;
      var p, q :| |b.keys| <= p < q < |ks| && ks[p] == xs[1..][i - 1] && ks[q] == xs[1..][j - 1];
      assert |d.keys| <= p < q < |ks| && ks[p] == xs[i] && ks[q] == xs[j];
      assert TallyFrom(d, xs).keys == ks;
    }
  }

  lemma KeyOrderHead<K(!new)>(d: Dict<K>, xs: seq<K>, j: nat)
    requires Valid(d)
    requires 0 < j < |xs| && xs[0] !in d.keys && xs[j] !in d.keys && xs[j] != xs[0]
    ensures var ks := TallyFrom(d, xs).keys;
      exists p, q :: |d.keys| <= p < q < |ks| && ks[p] == xs[0] && ks[q] == xs[j]
  {
    var b := Bump(d, xs[0]);
    assert TallyFrom(d, xs) == TallyFrom(b, xs[1..]);
    TallyKeepsKeys(b, xs[1..]);
    var ks := TallyFrom(b, xs[1..]).keys;
    assert b.keys == d.keys + [xs[0]];
    var p := |d.keys|;
    assert ks[p] == b.keys[p] == xs[0];
    assert xs[1..][j - 1] == xs[j];
    TallyKeys(b, xs[1..], xs[j]);
    var q :| 0 <= q < |ks| && ks[q] == xs[j];
    forall q' | 0 <= q' <= p
      ensures ks[q'] != xs[j]
    {
      assert ks[q'] == b.keys[q'];
    }
    assert |d.keys| <= p < q < |ks| && ks[p] == xs[0] && ks[q] == xs[j];
  }

  lemma BumpTotal<K(!new)>(d: Dict<K>, k: K)
    requires Valid(d)
    ensures Sum(Values(Bump(d, k))) == Sum(Values(d)) + 1
  {
    if k in d.counts {
      assert k in d.keys;
      BumpOld(d, k);
      SumUpdate(d.keys, d.counts, k, d.counts[k] + 1);
    } else {
      BumpNewTotal(d, k);
    }
  }

  lemma BumpOld<K(!new)>(d: Dict<K>, k: K)
    requires k in d.counts
    ensures Bump(d, k).keys == d.keys && Bump(d, k).counts == d.counts[k := d.counts[k] + 1]
  {
  }

  lemma BumpNewTotal<K(!new)>(d: Dict<K>, k: K)
    requires Valid(d) && k !in d.counts
    ensures Sum(Values(Bump(d, k))) == Sum(Values(d)) + 1
  {
    var m := d.counts[k := 1];
    ValuesOfUpdateAbsent(d.keys, d.counts, k, 1);
    ValuesOfAppend(d.keys, m, k);
    SumAppend(ValuesOf(d.keys, m), [1]);
  }

  lemma {:induction false} ValuesOfAppend<K(!new)>(keys: seq<K>, m: map<K, nat>, k: K)
    requires forall x :: x in keys ==> x in m
    requires k in m
    ensures ValuesOf(keys + [k], m) == ValuesOf(keys, m) + [m[k]]
  {
  }

  lemma {:induction false} ValuesOfUpdateAbsent<K(!new)>(keys: seq<K>, m: map<K, nat>, k: K, v: nat)
    requires forall x :: x in keys ==> x in m
    requires k !in keys
    ensures ValuesOf(keys, m[k := v]) == ValuesOf(keys, m)
  {
  }

  lemma {:induction false} SumUpdate<K(!new)>(keys: seq<K>, m: map<K, nat>, k: K, v: nat)
    requires forall x :: x in keys ==> x in m
    requires Distinct(keys) && k in keys
    ensures Sum(ValuesOf(keys, m[k := v])) == Sum(ValuesOf(keys, m)) - m[k] + v
  {
    if keys[0] == k {
      assert forall j :: 0 <= j < |keys[1..]| ==> keys[1..][j] == keys[j + 1];
      ValuesOfUpdateAbsent(keys[1..], m, k, v);
    } else {
      assert Distinct(keys[1..]) by {
        forall i, j | 0 <= i < j < |keys[1..]| ensures keys[1..][i] != keys[1..][j] {
          assert keys[i + 1] != keys[j + 1];
        }
      }
      SumUpdate(keys[1..], m, k, v);
    }
  }
}
