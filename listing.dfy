/** The `find(filter).sort({ createdAt: -1 })` queries of the controllers: the
    records of a collection that pass a filter, newest first. A collection is a
    map from id to record; a listing is a sequence of ids. */
module Listing {

  /** No id occurs twice. */
  predicate Distinct<K(==)>(ks: seq<K>)
  {
    forall i, j :: 0 <= i < j < |ks| ==> ks[i] != ks[j]
  }

  /** Every id is in the collection. */
  predicate AllIn<K(==), T>(ks: seq<K>, m: map<K, T>)
  {
    forall i :: 0 <= i < |ks| ==> ks[i] in m
  }

  /** The records of the ids, in order, have non-increasing times. */
  predicate NewestFirst<K(==), T>(ks: seq<K>, m: map<K, T>, at: T -> int)
  {
    AllIn(ks, m) && forall i, j :: 0 <= i < j < |ks| ==> at(m[ks[i]]) >= at(m[ks[j]])
  }

  /** Where a record of time t goes: after every record at least as new. */
  function Slot<K(==), T>(ks: seq<K>, m: map<K, T>, at: T -> int, t: int): (i: nat)
    requires NewestFirst(ks, m, at)
    ensures i <= |ks|
    ensures forall j :: 0 <= j < i ==> at(m[ks[j]]) >= t
    ensures forall j :: i <= j < |ks| ==> at(m[ks[j]]) < t
  {
    if |ks| == 0 || at(m[ks[0]]) < t then 0
    else
      assert forall j :: 1 <= j < |ks| ==> ks[1..][j - 1] == ks[j];
      1 + Slot(ks[1..], m, at, t)
  }

  /** The listing with id k put at its slot. */
  function Insert<K(==), T>(ks: seq<K>, m: map<K, T>, at: T -> int, k: K): (r: seq<K>)
    requires NewestFirst(ks, m, at) && k in m
    ensures |r| == |ks| + 1
    ensures var i := Slot(ks, m, at, at(m[k]));
      && r[i] == k
      && (forall j :: 0 <= j < i ==> r[j] == ks[j])
      && (forall j :: i < j < |r| ==> r[j] == ks[j - 1])
  {
    var i := Slot(ks, m, at, at(m[k]));
    ks[..i] + [k] + ks[i..]
  }

  /** Insert keeps the listing newest first. */
  lemma {:induction false} InsertSorted<K, T>(ks: seq<K>, m: map<K, T>, at: T -> int, k: K)
    requires NewestFirst(ks, m, at) && k in m
    ensures NewestFirst(Insert(ks, m, at, k), m, at)
  {
    var r := Insert(ks, m, at, k);
    var i := Slot(ks, m, at, at(m[k]));
    forall a, b | 0 <= a < b < |r| ensures at(m[r[a]]) >= at(m[r[b]]) {
      if b < i {
      } else if b == i {
      } else if a < i {
      } else if a == i {
      } else {
        assert r[a] == ks[a - 1] && r[b] == ks[b - 1];
      }
    }
  }

  /** Insert adds k and nothing else. */
  lemma {:induction false} InsertMembers<K, T>(ks: seq<K>, m: map<K, T>, at: T -> int, k: K)
    requires NewestFirst(ks, m, at) && k in m
    ensures forall x :: x in Insert(ks, m, at, k) <==> x in ks || x == k
  {
    var r := Insert(ks, m, at, k);
    var i := Slot(ks, m, at, at(m[k]));
    forall x | x in ks ensures x in r {
      var j :| 0 <= j < |ks| && ks[j] == x;
      if j < i { assert r[j] == x; } else { assert r[j + 1] == x; }
    }
  }

  /** Inserting a new id keeps the ids distinct. */
  lemma {:induction false} InsertDistinct<K, T>(ks: seq<K>, m: map<K, T>, at: T -> int, k: K)
    requires NewestFirst(ks, m, at) && k in m
    requires Distinct(ks) && k !in ks
    ensures Distinct(Insert(ks, m, at, k))
  {
    var r := Insert(ks, m, at, k);
    var i := Slot(ks, m, at, at(m[k]));
    forall a, b | 0 <= a < b < |r| ensures r[a] != r[b] {
      if b < i {
      } else if b == i {
        assert r[a] == ks[a];
      } else if a < i {
        assert r[a] == ks[a] && r[b] == ks[b - 1];
      } else if a == i {
        assert r[b] == ks[b - 1];
      } else {
        assert r[a] == ks[a - 1] && r[b] == ks[b - 1];
      }
    }
  }

  /** The ids of the records of `m` that `keep` selects, newest first. */
  method NewestKeys<K(==), T>(m: map<K, T>, at: T -> int, keep: T -> bool) returns (ks: seq<K>)
    ensures forall k :: k in ks <==> k in m && keep(m[k])
    ensures Distinct(ks)
    ensures NewestFirst(ks, m, at)
  {
    ks := [];
    var rest := m.Keys;
    while rest != {}
      invariant rest <= m.Keys
      invariant forall k :: k in ks <==> k in m && k !in rest && keep(m[k])
      invariant Distinct(ks)
      invariant NewestFirst(ks, m, at)
      decreases |rest|
    {
      var k :| k in rest;
      if keep(m[k]) {
        InsertSorted(ks, m, at, k);
        InsertMembers(ks, m, at, k);
        InsertDistinct(ks, m, at, k);
        ks := Insert(ks, m, at, k);
      }
      rest := rest - {k};
    }
  }

  /** The ids of a list of records, in order. */
  function IdsOf<K, T>(rs: seq<T>, id: T -> K): (ks: seq<K>)
    ensures |ks| == |rs|
    ensures forall i :: 0 <= i < |rs| ==> ks[i] == id(rs[i])
  {
    if rs == [] then [] else [id(rs[0])] + IdsOf(rs[1..], id)
  }

  /** The records of the listed ids, in the same order. */
  function RecordsOf<K(==), T>(ks: seq<K>, m: map<K, T>): (r: seq<T>)
    requires AllIn(ks, m)
    ensures |r| == |ks|
    ensures forall i :: 0 <= i < |ks| ==> r[i] == m[ks[i]]
  {
    if ks == [] then [] else [m[ks[0]]] + RecordsOf(ks[1..], m)
  }
}
