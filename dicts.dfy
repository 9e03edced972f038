/**
  A Python `dict` as the sequence of its entries in insertion order.

  Python dicts iterate in insertion order (a guarantee from Python 3.7 on), `d[k] = v` on a
  present key keeps the key's position, and `update` applies `d[k] = v` for each entry of
  its argument in turn.  The codec depends on all three: the dispatch of `toDict` is the
  first match in the serializer dict's iteration order, and the envelopes it builds list
  `"@type"` before `"@value"`.
 */
module Dicts {
  import opened Wrappers

  /** The keys of `d`. */
  function Keys<K, V>(d: seq<(K, V)>): set<K>
  {
    set i | 0 <= i < |d| :: d[i].0
  }

  /** No key occurs twice, as in every dict Python builds. */
  predicate DistinctKeys<K(==,!new), V>(d: seq<(K, V)>)
  {
    forall i, j :: 0 <= i < j < |d| ==> d[i].0 != d[j].0
  }

  /** The position of key `k` in `d`, or `|d|` when `k` is absent. */
  function IndexOf<K(==,!new), V>(d: seq<(K, V)>, k: K): (i: nat)
    ensures i <= |d|
    ensures i < |d| ==> d[i].0 == k
    ensures forall j :: 0 <= j < i ==> d[j].0 != k
    ensures i < |d| <==> k in Keys(d)
  {
    if d == [] then 0
    else if d[0].0 == k then 0
    else
      var i := IndexOf(d[1..], k);
      assert forall j :: 0 < j <= i ==> d[j] == d[1..][j - 1];
      assert k in Keys(d[1..]) ==> k in Keys(d) by {
        if k in Keys(d[1..]) {
          var j :| 0 <= j < |d[1..]| && d[1..][j].0 == k;
          assert d[j + 1].0 == k;
        }
      }
      1 + i
  }

  /** `d.get(k)`: the value stored under `k`, if any. */
  function Get<K(==,!new), V>(d: seq<(K, V)>, k: K): (r: Option<V>)
    ensures r.Some? <==> k in Keys(d)
  {
    var i := IndexOf(d, k);
    if i < |d| then Some(d[i].1) else None
  }

  /** `d[k] = v`: a present key keeps its position, a new key goes to the end. */
  function Put<K(==,!new), V>(d: seq<(K, V)>, k: K, v: V): (r: seq<(K, V)>)
    ensures |r| == if k in Keys(d) then |d| else |d| + 1
    ensures forall i :: 0 <= i < |d| ==> r[i].0 == d[i].0
    ensures k !in Keys(d) ==> r == d + [(k, v)]
    ensures Get(r, k) == Some(v)
  {
    var i := IndexOf(d, k);
    var r := if i < |d| then d[i := (k, v)] else d + [(k, v)];
    assert IndexOf(r, k) == i by { IndexOfUnique(r, k, i); }
    r
  }

  /** The index of a key is determined by the keys at the positions before it. */
  lemma IndexOfUnique<K(!new), V>(d: seq<(K, V)>, k: K, i: nat)
    requires i <= |d|
    requires i < |d| ==> d[i].0 == k
    requires forall j :: 0 <= j < i ==> d[j].0 != k
    requires i == |d| ==> k !in Keys(d)
    ensures IndexOf(d, k) == i
  {
  }

  /** `d[k] = v` for a key `d` does not hold adds the entry at the end. */
  lemma PutFresh<K(!new), V>(d: seq<(K, V)>, k: K, v: V)
    requires forall i :: 0 <= i < |d| ==> d[i].0 != k
    ensures Put(d, k, v) == d + [(k, v)]
  {
    assert k !in Keys(d);
  }

  /** `d[k] = v` for a key `d` holds at position `i` replaces the entry there. */
  lemma PutPresent<K(!new), V>(d: seq<(K, V)>, k: K, v: V, i: nat)
    requires i < |d| && d[i].0 == k
    requires forall j :: 0 <= j < i ==> d[j].0 != k
    ensures Put(d, k, v) == d[i := (k, v)]
  {
    IndexOfUnique(d, k, i);
  }

  /** In a dict without repeated keys, each entry is what its key maps to. */
  lemma GetOfDistinct<K(!new), V>(d: seq<(K, V)>, i: nat)
    requires DistinctKeys(d) && i < |d|
    ensures Get(d, d[i].0) == Some(d[i].1)
  {
    IndexOfUnique(d, d[i].0, i);
  }

  lemma KeysOfPut<K(!new), V>(d: seq<(K, V)>, k: K, v: V)
    ensures Keys(Put(d, k, v)) == Keys(d) + {k}
  {
    var r := Put(d, k, v);
    forall x | x in Keys(r) ensures x in Keys(d) + {k} {
      var i :| 0 <= i < |r| && r[i].0 == x;
      if i < |d| { assert d[i].0 == x; }
    }
    forall x | x in Keys(d) + {k} ensures x in Keys(r) {
      if x == k { assert r[IndexOf(r, k)].0 == k; }
      else { var i :| 0 <= i < |d| && d[i].0 == x; assert r[i].0 == x; }
    }
  }

  /** `d[k] = v` leaves what every other key maps to. */
  lemma {:induction false} GetOfPut<K(!new), V>(d: seq<(K, V)>, k: K, v: V, k': K)
    requires k' != k
    ensures Get(Put(d, k, v), k') == Get(d, k')
  {
    var r := Put(d, k, v);
    var i := IndexOf(d, k');
    if i < |d| {
      assert r[i] == d[i];
      IndexOfUnique(r, k', i);
    } else {
      assert k' !in Keys(r) by { KeysOfPut(d, k, v); }
    }
  }

  lemma DistinctKeysOfPut<K(!new), V>(d: seq<(K, V)>, k: K, v: V)
    requires DistinctKeys(d)
    ensures DistinctKeys(Put(d, k, v))
  {
  }

  /** `d.update(m)`: `d[k] = v` for each entry `(k, v)` of `m`, in order. */
  function Update<K(==,!new), V>(d: seq<(K, V)>, m: seq<(K, V)>): (r: seq<(K, V)>)
    ensures |r| >= |d|
    ensures forall i :: 0 <= i < |d| ==> r[i].0 == d[i].0
  {
    if m == [] then d
    else
      var n := |m| - 1;
      Put(Update(d, m[..n]), m[n].0, m[n].1)
  }

  lemma KeysOfLast<K(!new), V>(m: seq<(K, V)>)
    requires m != []
    ensures Keys(m) == Keys(m[..|m| - 1]) + {m[|m| - 1].0}
  {
    var n := |m| - 1;
    forall x | x in Keys(m) ensures x in Keys(m[..n]) + {m[n].0} {
      var i :| 0 <= i < |m| && m[i].0 == x;
      if i < n { assert m[..n][i].0 == x; }
    }
    forall x | x in Keys(m[..n]) ensures x in Keys(m) {
      var i :| 0 <= i < n && m[..n][i].0 == x;
      assert m[i].0 == x;
    }
  }

  lemma {:induction false} KeysOfUpdate<K(!new), V>(d: seq<(K, V)>, m: seq<(K, V)>)
    ensures Keys(Update(d, m)) == Keys(d) + Keys(m)
  {
    if m != [] {
      var n := |m| - 1;
      KeysOfUpdate(d, m[..n]);
      KeysOfPut(Update(d, m[..n]), m[n].0, m[n].1);
      KeysOfLast(m);
    }
  }

  /** `d.update(m)` leaves every key that `m` does not mention. */
  lemma {:induction false} UpdateKeeps<K(!new), V>(d: seq<(K, V)>, m: seq<(K, V)>, k: K)
    requires k !in Keys(m)
    ensures Get(Update(d, m), k) == Get(d, k)
  {
    if m != [] {
      var n := |m| - 1;
      KeysOfLast(m);
      UpdateKeeps(d, m[..n], k);
      GetOfPut(Update(d, m[..n]), m[n].0, m[n].1, k);
    }
  }

  /** After `d.update(m)` every key of the dict `m` holds the value `m` gives it. */
  lemma {:induction false} UpdateOverrides<K(!new), V>(d: seq<(K, V)>, m: seq<(K, V)>, k: K)
    requires DistinctKeys(m)
    requires k in Keys(m)
    ensures Get(Update(d, m), k) == Get(m, k)
    decreases |m|
  {
    var rest := m[1..];
    assert Update(d, m) == Update(Put(d, m[0].0, m[0].1), rest) by {
      assert m == [(m[0].0, m[0].1)] + rest;
      UpdateCons(d, m[0].0, m[0].1, rest);
    }
    if m[0].0 == k {
      HeadOfDistinct(m);
      UpdateKeeps(Put(d, m[0].0, m[0].1), rest, k);
    } else {
      GetOfTail(m, k);
      UpdateOverrides(Put(d, m[0].0, m[0].1), rest, k);
    }
  }

  /** The first key of a dict is not among the others. */
  lemma HeadOfDistinct<K(!new), V>(m: seq<(K, V)>)
    requires DistinctKeys(m) && m != []
    ensures m[0].0 !in Keys(m[1..]) && DistinctKeys(m[1..])
    ensures Get(m, m[0].0) == Some(m[0].1)
  {
    var rest := m[1..];
    forall i | 0 <= i < |rest| ensures rest[i].0 != m[0].0 { assert rest[i] == m[i + 1]; }
    IndexOfUnique(m, m[0].0, 0);
  }

  /** Looking up a key other than the first one skips the first entry. */
  lemma GetOfTail<K(!new), V>(m: seq<(K, V)>, k: K)
    requires DistinctKeys(m) && m != [] && m[0].0 != k && k in Keys(m)
    ensures k in Keys(m[1..]) && Get(m[1..], k) == Get(m, k) && DistinctKeys(m[1..])
  {
    var rest := m[1..];
    var j := IndexOf(m, k);
    assert rest[j - 1] == m[j];
    IndexOfUnique(rest, k, j - 1);
    forall a, b | 0 <= a < b < |rest| ensures rest[a].0 != rest[b].0 { assert rest[a] == m[a + 1] && rest[b] == m[b + 1]; }
  }

  /** `d.update(m)` is `d[k] = v` for the first entry of `m`, then the update with the rest. */
  lemma {:induction false} UpdateCons<K(!new), V>(d: seq<(K, V)>, k: K, v: V, m: seq<(K, V)>)
    ensures Update(d, [(k, v)] + m) == Update(Put(d, k, v), m)
    decreases |m|
  {
    var m' := [(k, v)] + m;
    if m == [] {
      assert m'[..0] == [];
    } else {
      var n := |m| - 1;
      assert m'[..|m'| - 1] == [(k, v)] + m[..n];
      UpdateCons(d, k, v, m[..n]);
    }
  }

  /** Updating with a dict none of whose keys is present appends its entries. */
  lemma {:induction false} UpdateFresh<K(!new), V>(d: seq<(K, V)>, m: seq<(K, V)>)
    requires DistinctKeys(m)
    requires forall i :: 0 <= i < |m| ==> m[i].0 !in Keys(d)
    ensures Update(d, m) == d + m
  {
    if m != [] {
      var n := |m| - 1;
      UpdateFresh(d, m[..n]);
      assert d + m[..n] + [m[n]] == d + m;
    }
  }

  /** `UpdateCons` at position `i` of `m`. */
  lemma UpdateFrom<K(!new), V>(d: seq<(K, V)>, m: seq<(K, V)>, i: nat)
    requires i < |m|
    ensures Update(d, m[i..]) == Update(Put(d, m[i].0, m[i].1), m[i + 1..])
  {
    assert m[i..] == [(m[i].0, m[i].1)] + m[i + 1..];
    UpdateCons(d, m[i].0, m[i].1, m[i + 1..]);
  }
}
