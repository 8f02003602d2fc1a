/**
 * Python's dict as the core uses it: a finite map that also remembers the order in
 * which its keys were first inserted (what iteration, keys() and getall() enumerate).
 * Assigning to a present key keeps its position; deleting a key drops it from the order.
 */
module Dicts {
  import opened Wrappers

  datatype Table<V> = Table(order: seq<string>, entries: map<string, V>)

  predicate Distinct(s: seq<string>)
  {
    forall i, j :: 0 <= i < j < |s| ==> s[i] != s[j]
  }

  /** The order lists every key exactly once. */
  ghost predicate WellFormed<V>(t: Table<V>)
  {
    Distinct(t.order) && forall k :: k in t.order <==> k in t.entries
  }

  function Empty<V>(): (r: Table<V>)
    ensures WellFormed(r) && r.entries == map[]
  {
    Table([], map[])
  }

  /** d.get(k), with None for an absent key. */
  function Lookup<V>(t: Table<V>, k: string): Option<V>
  {
    if k in t.entries then Some(t.entries[k]) else None
  }

  /** d[k] = v */
  function Put<V>(t: Table<V>, k: string, v: V): (r: Table<V>)
    requires WellFormed(t)
    ensures WellFormed(r)
    ensures r.entries == t.entries[k := v]
  {
    if k in t.entries then Table(t.order, t.entries[k := v])
    else Table(t.order + [k], t.entries[k := v])
  }

  /** The order with every occurrence of k dropped. */
  function Without(s: seq<string>, k: string): (r: seq<string>)
    ensures forall x :: x in r <==> x in s && x != k
    ensures |r| <= |s|
  {
    if s == [] then []
    else if s[0] == k then Without(s[1..], k)
    else [s[0]] + Without(s[1..], k)
  }

  lemma {:induction false} WithoutDistinct(s: seq<string>, k: string)
    requires Distinct(s)
    ensures Distinct(Without(s, k))
  {
    if s != [] {
      WithoutDistinct(s[1..], k);
      assert s[0] !in s[1..] by {
        forall j | 0 <= j < |s[1..]| ensures s[1..][j] != s[0] {
          assert s[1..][j] == s[j + 1];
        }
      }
    }
  }

  /** When k occurs, Without keeps the keys before and after it, in order. */
  lemma {:induction false} WithoutSplits(s: seq<string>, k: string, i: nat)
    requires Distinct(s) && i < |s| && s[i] == k
    ensures Without(s, k) == s[..i] + s[i + 1..]
  {
    if i == 0 {
      WithoutAbsent(s[1..], k);
    } else {
      WithoutSplits(s[1..], k, i - 1);
      assert s[..i] == [s[0]] + s[1..][..i - 1];
      assert s[i + 1..] == s[1..][i..];
    }
  }

  lemma {:induction false} WithoutAbsent(s: seq<string>, k: string)
    requires k !in s
    ensures Without(s, k) == s
  {
    if s != [] {
      WithoutAbsent(s[1..], k);
    }
  }

  /** del d[k] (the caller has checked that k is present, or accepts a no-op). */
  function Remove<V>(t: Table<V>, k: string): (r: Table<V>)
    requires WellFormed(t)
    ensures WellFormed(r)
    ensures r.entries.Keys == t.entries.Keys - {k}
  {
    WithoutDistinct(t.order, k);
    Table(Without(t.order, k), t.entries - {k})
  }

  /** Reading back a key just assigned gives the assigned value; other keys read as before. */
  lemma PutLookup<V>(t: Table<V>, k: string, v: V, x: string)
    requires WellFormed(t)
    ensures Lookup(Put(t, k, v), x) == if x == k then Some(v) else Lookup(t, x)
  {
  }

  /** Assigning a key that is present does not move it and adds no key. */
  lemma PutPresent<V>(t: Table<V>, k: string, v: V)
    requires WellFormed(t) && k in t.entries
    ensures Put(t, k, v).order == t.order
    ensures |Put(t, k, v).entries| == |t.entries|
  {
  }

  /** After del d[k], k is gone and every other key reads as before, in the same relative order. */
  lemma RemoveLookup<V>(t: Table<V>, k: string, x: string)
    requires WellFormed(t)
    ensures Lookup(Remove(t, k), x) == if x == k then None else Lookup(t, x)
  {
  }

  /** Removing an absent key changes nothing. */
  lemma RemoveAbsent<V>(t: Table<V>, k: string)
    requires WellFormed(t) && k !in t.entries
    ensures Remove(t, k) == t
  {
    WithoutAbsent(t.order, k);
  }

  /** for k in u: d[k] = u[k]  (dict.update, written as the loop the source uses) */
  function PutAll<V>(t: Table<V>, u: Table<V>, n: nat): (r: Table<V>)
    requires WellFormed(t) && WellFormed(u) && n <= |u.order|
    ensures WellFormed(r)
  {
    if n == 0 then t
    else
      var k := u.order[n - 1];
      Put(PutAll(t, u, n - 1), k, u.entries[k])
  }

  /** After updating t with the first n keys of u, those keys hold u's values. */
  lemma {:induction false} PutAllUpdated<V>(t: Table<V>, u: Table<V>, n: nat, i: nat)
    requires WellFormed(t) && WellFormed(u) && i < n <= |u.order|
    ensures u.order[i] in u.entries && u.order[i] in PutAll(t, u, n).entries
    ensures PutAll(t, u, n).entries[u.order[i]] == u.entries[u.order[i]]
  {
    var k := u.order[n - 1];
    var p := PutAll(t, u, n - 1);
    var r := Put(p, k, u.entries[k]);
    assert PutAll(t, u, n) == r;
    if i < n - 1 {
      PutAllUpdated(t, u, n - 1, i);
      var x := u.order[i];
      assert x != k;
      assert r.entries == p.entries[k := u.entries[k]];
    }
  }

  /** Keys that u does not mention (among its first n) read as they did in t. */
  lemma {:induction false} PutAllUntouched<V>(t: Table<V>, u: Table<V>, n: nat, x: string)
    requires WellFormed(t) && WellFormed(u) && n <= |u.order|
    requires x !in u.order[..n]
    ensures Lookup(PutAll(t, u, n), x) == Lookup(t, x)
  {
    if n > 0 {
      var k := u.order[n - 1];
      assert u.order[..n] == u.order[..n - 1] + [k];
      PutAllUntouched(t, u, n - 1, x);
      PutLookup(PutAll(t, u, n - 1), k, u.entries[k], x);
    }
  }

  /** Keys t already had keep their positions, at the front of the order. */
  lemma {:induction false} PutAllKeepsOrder<V>(t: Table<V>, u: Table<V>, n: nat)
    requires WellFormed(t) && WellFormed(u) && n <= |u.order|
    ensures |t.order| <= |PutAll(t, u, n).order|
    ensures PutAll(t, u, n).order[..|t.order|] == t.order
  {
    if n > 0 {
      PutAllKeepsOrder(t, u, n - 1);
      var p := PutAll(t, u, n - 1);
      var k := u.order[n - 1];
      if k !in p.entries {
        assert (p.order + [k])[..|t.order|] == p.order[..|t.order|];
      }
    }
  }

  /** {k: v for k in keys}: later duplicates land on the same entry. */
  function FromKeys<V>(keys: seq<string>, v: V): (r: Table<V>)
    ensures WellFormed(r)
  {
    if keys == [] then Empty()
    else Put(FromKeys(keys[..|keys| - 1], v), keys[|keys| - 1], v)
  }

  lemma {:induction false} FromKeysSpec<V>(keys: seq<string>, v: V)
    ensures forall x :: x in FromKeys(keys, v).entries <==> x in keys
    ensures forall x :: x in FromKeys(keys, v).entries ==> FromKeys(keys, v).entries[x] == v
  {
    if keys != [] {
      FromKeysSpec(keys[..|keys| - 1], v);
      assert keys == keys[..|keys| - 1] + [keys[|keys| - 1]];
    }
  }
}
