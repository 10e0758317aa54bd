/**
 * A Python dict with string keys, kept as its (key, value) pairs in
 * insertion order, which is the order `dict.items()` iterates in.
 */
module OrderedDicts {
  import opened Wrappers

  type Dict<V> = seq<(string, V)>

  predicate DistinctKeys<V>(d: Dict<V>)
  {
    forall i, j :: 0 <= i < j < |d| ==> d[i].0 != d[j].0
  }

  /** The keys, in iteration order. */
  function KeysInOrder<V>(d: Dict<V>): (ks: seq<string>)
    ensures |ks| == |d| && forall i :: 0 <= i < |d| ==> ks[i] == d[i].0
  {
    seq(|d|, i requires 0 <= i < |d| => d[i].0)
  }

  /** The set of keys. */
  function Keys<V>(d: Dict<V>): set<string>
  {
    set i | 0 <= i < |d| :: d[i].0
  }

  /** The position of key k, or -1 when k is absent. */
  function Find<V>(d: Dict<V>, k: string): (r: int)
    ensures -1 <= r < |d|
    ensures r >= 0 ==> d[r].0 == k
    ensures forall i :: 0 <= i < |d| && (r < 0 || i < r) ==> d[i].0 != k
  {
    if d == [] then -1
    else if d[0].0 == k then 0
    else
      var r := Find(d[1..], k);
      if r < 0 then -1 else r + 1
  }

  /** `d.get(k)`. */
  function Get<V>(d: Dict<V>, k: string): (r: Option<V>)
    ensures r.Some? <==> k in Keys(d)
  {
    var i := Find(d, k);
    if i < 0 then None else Some(d[i].1)
  }

  /**
   * `d[k] = v`: a new key is appended; an existing key keeps its position
   * and takes the new value.
   */
  function Put<V>(d: Dict<V>, k: string, v: V): Dict<V>
  {
    var i := Find(d, k);
    if i < 0 then d + [(k, v)] else d[i := (k, v)]
  }

  /**
   * After `d[k] = v`, k maps to v, every other key keeps its value, the keys
   * stay distinct, and the key order only grows by k at the end when k was
   * new.
   */
  lemma PutSemantics<V>(d: Dict<V>, k: string, v: V, other: string)
    requires DistinctKeys(d)
    ensures DistinctKeys(Put(d, k, v))
    ensures Get(Put(d, k, v), k) == Some(v)
    ensures other != k ==> Get(Put(d, k, v), other) == Get(d, other)
    ensures KeysInOrder(Put(d, k, v)) ==
      if k in Keys(d) then KeysInOrder(d) else KeysInOrder(d) + [k]
    ensures Keys(Put(d, k, v)) == Keys(d) + {k}
  {
    var r := Put(d, k, v);
    var i := Find(d, k);
    if i >= 0 {
      assert KeysInOrder(r) == KeysInOrder(d);
      FindInDistinct(r, k, i);
      if other != k {
        SameOtherKeys(d, r, other, i);
      }
      assert Keys(r) == Keys(d) by {
        forall j | 0 <= j < |r| ensures r[j].0 == d[j].0 {
        }
      }
    } else {
      assert k !in Keys(d);
      assert KeysInOrder(r) == KeysInOrder(d) + [k];
      FindInDistinct(r, k, |d|);
      if other != k {
        AppendOtherKey(d, k, v, other);
      }
      assert Keys(r) == Keys(d) + {k} by {
        assert r[|d|].0 == k;
        forall j | 0 <= j < |d| ensures r[j].0 == d[j].0 {
        }
      }
    }
  }

  lemma FindInDistinct<V>(d: Dict<V>, k: string, i: nat)
    requires DistinctKeys(d) && i < |d| && d[i].0 == k
    ensures Find(d, k) == i
  {
  }

  lemma SameOtherKeys<V>(d: Dict<V>, r: Dict<V>, other: string, i: nat)
    requires |r| == |d| && i < |d| && r[i].0 == d[i].0 && d[i].0 != other
    requires forall j :: 0 <= j < |d| && j != i ==> r[j] == d[j]
    ensures Get(r, other) == Get(d, other)
  {
    FindAgrees(d, r, other);
    var a := Find(d, other);
    if a >= 0 {
      assert r[a] == d[a];
    }
  }

  /** Two dicts with the key at the same positions find it at the same position. */
  lemma {:induction false} FindAgrees<V>(d: Dict<V>, r: Dict<V>, k: string)
    requires |r| == |d|
    requires forall j :: 0 <= j < |d| ==> (d[j].0 == k <==> r[j].0 == k)
    ensures Find(d, k) == Find(r, k)
  {
    if d != [] {
      FindAgrees(d[1..], r[1..], k);
    }
  }

  lemma AppendOtherKey<V>(d: Dict<V>, k: string, v: V, other: string)
    requires other != k
    ensures Get(d + [(k, v)], other) == Get(d, other)
  {
    FindAppend(d, (k, v), other);
    var a := Find(d, other);
    if a >= 0 {
      assert (d + [(k, v)])[a] == d[a];
    }
  }

  /** Appending a pair with another key does not move the key. */
  lemma {:induction false} FindAppend<V>(d: Dict<V>, p: (string, V), k: string)
    requires p.0 != k
    ensures Find(d + [p], k) == Find(d, k)
  {
    if d != [] {
      assert (d + [p])[1..] == d[1..] + [p];
      FindAppend(d[1..], p, k);
    }
  }
}
