/** The category dataset of the chart view: Kotlin's `mutableMapOf<String, Int>()`,
    a LinkedHashMap whose iteration order is the order in which keys were first
    inserted. `putAll` is the merge that `updateData` performs on the view's own
    map; `Sum` is the total the view shows in its centre. */
module Dataset {

  /** An insertion-ordered map: `keys` is the iteration order, `vals` the mapping. */
  datatype OrderedMap = OrderedMap(keys: seq<string>, vals: map<string, int>)
  {
    /** Every key occurs once in the order, and the order lists exactly the mapped keys. */
    predicate Valid() {
      Distinct(keys)
      && (forall k :: k in vals ==> k in keys)
      && (forall k :: k in keys ==> k in vals)
    }
  }

  /** No key occurs twice. */
  predicate Distinct(ks: seq<string>) {
    forall i, j :: 0 <= i < j < |ks| ==> ks[i] != ks[j]
  }

  /** The empty map a freshly constructed view starts with. */
  const Empty: OrderedMap := OrderedMap([], map[])

  /** Amounts are never negative (the view has no guard against them). */
  predicate NonNegative(m: OrderedMap) {
    forall k :: k in m.vals ==> m.vals[k] >= 0
  }

  /** A dataset `updateData` can take: well formed, no negative amount, and a
      positive total unless it is empty (the view divides by the total). */
  predicate Admissible(m: OrderedMap) {
    m.Valid() && NonNegative(m) && (m.keys != [] ==> Sum(m) > 0)
  }

  /** The keys of `ks` that `present` does not map yet, in the order of `ks`. */
  function NewKeys(ks: seq<string>, present: map<string, int>): seq<string> {
    if ks == [] then []
    else (if ks[0] in present then [] else [ks[0]]) + NewKeys(ks[1..], present)
  }

  /** LinkedHashMap.put: a key already present keeps its place and takes the new
      value; a new key is appended at the end of the iteration order. */
  function Put(m: OrderedMap, k: string, v: int): OrderedMap {
    if k in m.vals then OrderedMap(m.keys, m.vals[k := v])
    else OrderedMap(m.keys + [k], m.vals[k := v])
  }

  /** `put` of each listed key of `src`, one after the other. */
  function PutKeys(m: OrderedMap, ks: seq<string>, src: map<string, int>): OrderedMap
    requires forall k :: k in ks ==> k in src
    decreases |ks|
  {
    if ks == [] then m else PutKeys(Put(m, ks[0], src[ks[0]]), ks[1..], src)
  }

  /** LinkedHashMap.putAll: `put` of every entry of `arg`, in `arg`'s iteration order. */
  function PutAll(m: OrderedMap, arg: OrderedMap): OrderedMap
    requires arg.Valid()
  {
    PutKeys(m, arg.keys, arg.vals)
  }

  /** Sum of the amounts of the listed keys. */
  function SumOf(ks: seq<string>, vals: map<string, int>): int
    requires forall k :: k in ks ==> k in vals
  {
    if ks == [] then 0 else vals[ks[0]] + SumOf(ks[1..], vals)
  }

  /** `map { it.value }.sum()`: the total of all amounts. */
  function Sum(m: OrderedMap): int
    requires m.Valid()
  {
    SumOf(m.keys, m.vals)
  }

  lemma {:induction false} NewKeysIgnores(ks: seq<string>, present: map<string, int>, k: string, v: int)
    requires k !in ks
    ensures NewKeys(ks, present[k := v]) == NewKeys(ks, present)
  {
    if ks != [] {
      NewKeysIgnores(ks[1..], present, k, v);
    }
  }

  /** NewKeys keeps exactly the keys not yet present, each once when `ks` has no repeats. */
  lemma {:induction false} NewKeysMembers(ks: seq<string>, present: map<string, int>)
    requires Distinct(ks)
    ensures forall k :: k in NewKeys(ks, present) <==> k in ks && k !in present
    ensures Distinct(NewKeys(ks, present))
  {
    if ks != [] {
      NewKeysMembers(ks[1..], present);
      assert forall k :: k in ks <==> k == ks[0] || k in ks[1..];
    }
  }

  /** When every key is already present nothing is appended. */
  lemma {:induction false} NewKeysAllPresent(ks: seq<string>, present: map<string, int>)
    requires forall k :: k in ks ==> k in present
    ensures NewKeys(ks, present) == []
  {
    if ks != [] {
      NewKeysAllPresent(ks[1..], present);
    }
  }

  /** Into an empty map every key is new. */
  lemma {:induction false} NewKeysNonePresent(ks: seq<string>)
    ensures NewKeys(ks, map[]) == ks
  {
    if ks != [] {
      NewKeysNonePresent(ks[1..]);
    }
  }

  /** A put keeps the map well formed. */
  lemma PutValid(m: OrderedMap, k: string, v: int)
    requires m.Valid()
    ensures Put(m, k, v).Valid()
  {
    if k !in m.vals {
      var ks := m.keys + [k];
      forall i, j | 0 <= i < j < |ks|
        ensures ks[i] != ks[j]
      {
        if j == |m.keys| {
          assert ks[i] in m.keys;
        }
      }
    }
  }

  lemma {:induction false} PutKeysValid(m: OrderedMap, ks: seq<string>, src: map<string, int>)
    requires m.Valid()
    requires forall k :: k in ks ==> k in src
    ensures PutKeys(m, ks, src).Valid()
    decreases |ks|
  {
    if ks != [] {
      PutValid(m, ks[0], src[ks[0]]);
      PutKeysValid(Put(m, ks[0], src[ks[0]]), ks[1..], src);
    }
  }

  /** The order after a sequence of puts: old keys first, then the new keys in
      the order they were put. */
  lemma {:induction false} PutKeysOrder(m: OrderedMap, ks: seq<string>, src: map<string, int>)
    requires Distinct(ks)
    requires forall k :: k in ks ==> k in src
    ensures PutKeys(m, ks, src).keys == m.keys + NewKeys(ks, m.vals)
    decreases |ks|
  {
    if ks != [] {
      var k0 := ks[0];
      var m' := Put(m, k0, src[k0]);
      assert Distinct(ks[1..]);
      PutKeysOrder(m', ks[1..], src);
      assert k0 !in ks[1..];
      NewKeysIgnores(ks[1..], m.vals, k0, src[k0]);
      if k0 in m.vals {
        assert NewKeys(ks, m.vals) == NewKeys(ks[1..], m.vals);
      } else {
        assert NewKeys(ks, m.vals) == [k0] + NewKeys(ks[1..], m.vals);
        assert m'.keys + NewKeys(ks[1..], m'.vals) == m.keys + NewKeys(ks, m.vals);
      }
    }
  }

  /** The values after a sequence of puts: the put keys take the values of
      `src`, every other key keeps its own. */
  lemma {:induction false} PutKeysValues(m: OrderedMap, ks: seq<string>, src: map<string, int>)
    requires forall k :: k in ks ==> k in src
    ensures forall k :: k in PutKeys(m, ks, src).vals <==> k in m.vals || k in ks
    ensures forall k :: k in ks ==> PutKeys(m, ks, src).vals[k] == src[k]
    ensures forall k :: k in m.vals && k !in ks ==> PutKeys(m, ks, src).vals[k] == m.vals[k]
    decreases |ks|
  {
    if ks != [] {
      var k0 := ks[0];
      var m' := Put(m, k0, src[k0]);
      PutKeysValues(m', ks[1..], src);
      assert forall k :: k in ks <==> k == k0 || k in ks[1..];
    }
  }

  /** `putAll` merges: the argument's keys take the argument's values, every
      other key keeps its value and its place, and the argument's new keys are
      appended in the argument's iteration order. */
  lemma PutAllMerges(m: OrderedMap, arg: OrderedMap)
    requires m.Valid() && arg.Valid()
    ensures PutAll(m, arg).Valid()
    ensures PutAll(m, arg).vals == m.vals + arg.vals
    ensures forall k :: k in arg.vals ==> PutAll(m, arg).vals[k] == arg.vals[k]
    ensures forall k :: k in m.vals && k !in arg.vals ==> PutAll(m, arg).vals[k] == m.vals[k]
    ensures PutAll(m, arg).keys == m.keys + NewKeys(arg.keys, m.vals)
    ensures forall k :: k in NewKeys(arg.keys, m.vals) <==> k in arg.keys && k !in m.vals
  {
    PutKeysValid(m, arg.keys, arg.vals);
    NewKeysMembers(arg.keys, m.vals);
    PutKeysOrder(m, arg.keys, arg.vals);
    PutAllValues(m, arg);
  }

  /** The values part of the merge: a map union in which the argument wins. */
  lemma PutAllValues(m: OrderedMap, arg: OrderedMap)
    requires arg.Valid()
    ensures PutAll(m, arg).vals == m.vals + arg.vals
  {
    var r := PutAll(m, arg).vals;
    var u := m.vals + arg.vals;
    PutKeysValues(m, arg.keys, arg.vals);
    assert forall k :: k in r <==> k in u;
    forall k | k in u
      ensures r[k] == u[k]
    {
      if k in arg.vals {
        assert k in arg.keys;
      }
    }
    assert r == u;
  }

  /** Restoring a snapshot into a fresh view reproduces the snapshot exactly. */
  lemma PutAllIntoEmpty(m: OrderedMap)
    requires m.Valid()
    ensures PutAll(Empty, m) == m
  {
    PutKeysOrder(Empty, m.keys, m.vals);
    NewKeysNonePresent(m.keys);
    PutAllValues(Empty, m);
    assert map[] + m.vals == m.vals;
  }

  /** Merging the same argument twice is the same as merging it once. */
  lemma PutAllIdempotent(m: OrderedMap, arg: OrderedMap)
    requires arg.Valid()
    ensures PutAll(PutAll(m, arg), arg) == PutAll(m, arg)
  {
    var r := PutAll(m, arg);
    PutAllValues(m, arg);
    PutAllValues(r, arg);
    PutKeysOrder(r, arg.keys, arg.vals);
    NewKeysAllPresent(arg.keys, r.vals);
    assert r.vals + arg.vals == r.vals;
  }

  lemma {:induction false} SumOfNonNegative(ks: seq<string>, vals: map<string, int>)
    requires forall k :: k in ks ==> k in vals && vals[k] >= 0
    ensures SumOf(ks, vals) >= 0
  {
    if ks != [] {
      SumOfNonNegative(ks[1..], vals);
    }
  }

  /** With non-negative amounts each amount is at most the total. */
  lemma {:induction false} SumOfBoundsEntry(ks: seq<string>, vals: map<string, int>, k: string)
    requires forall j :: j in ks ==> j in vals && vals[j] >= 0
    requires k in ks
    ensures vals[k] <= SumOf(ks, vals)
  {
    SumOfNonNegative(ks[1..], vals);
    if ks[0] != k {
      SumOfBoundsEntry(ks[1..], vals, k);
    }
  }

  /** A positive total has a positive amount behind it. */
  lemma {:induction false} PositiveSumOfHasPositiveEntry(ks: seq<string>, vals: map<string, int>) returns (k: string)
    requires forall j :: j in ks ==> j in vals
    requires SumOf(ks, vals) > 0
    ensures k in ks && vals[k] > 0
  {
    if vals[ks[0]] > 0 {
      k := ks[0];
    } else {
      k := PositiveSumOfHasPositiveEntry(ks[1..], vals);
    }
  }

  /** The merge keeps a view's dataset admissible, so that a snapshot of it can
      be replayed through `updateData`. */
  lemma PutAllKeepsAdmissible(m: OrderedMap, arg: OrderedMap)
    requires Admissible(m) && Admissible(arg)
    ensures Admissible(PutAll(m, arg))
  {
    var r := PutAll(m, arg);
    PutAllMerges(m, arg);
    if arg.keys == [] {
      PutKeysOrder(m, arg.keys, arg.vals);
      assert r == m;
    } else {
      var k := PositiveSumOfHasPositiveEntry(arg.keys, arg.vals);
      SumOfBoundsEntry(r.keys, r.vals, k);
    }
  }
}
