/**
 Insertion-ordered maps, the model of `java.util.LinkedHashMap`: a key sequence that
 remembers the order of first insertion, next to a map holding the current values.
 */
module LinkedMaps {
  import opened Wrappers

  ghost predicate NoDuplicates<K>(s: seq<K>) {
    forall i, j :: 0 <= i < j < |s| ==> s[i] != s[j]
  }

  /** `order` lists every key of `entries` exactly once, oldest first. */
  datatype LinkedMap<K(!new), V> = LinkedMap(order: seq<K>, entries: map<K, V>) {
    ghost predicate Valid() {
      && NoDuplicates(order)
      && (forall k :: k in entries <==> k in order)
    }
  }

  function Empty<K(!new), V>(): LinkedMap<K, V> {
    LinkedMap([], map[])
  }

  /** Position of the first occurrence of `k` in `s`. */
  function FirstIndex<K(==)>(s: seq<K>, k: K): (i: nat)
    requires k in s
    ensures i < |s| && s[i] == k
    ensures forall j :: 0 <= j < i ==> s[j] != k
  {
    if s[0] == k then 0 else 1 + FirstIndex(s[1..], k)
  }

  /**
   Reference definition of the key order a linked map reaches from `order` after
   inserting the keys `ks` one by one: a key is appended when it is new and keeps
   its place when it is already there.
   */
  function InsertionOrder<K(==)>(order: seq<K>, ks: seq<K>): seq<K>
    decreases |ks|
  {
    if |ks| == 0 then order
    else
      var prior := InsertionOrder(order, ks[..|ks| - 1]);
      if ks[|ks| - 1] in prior then prior else prior + [ks[|ks| - 1]]
  }

  /**
   `LinkedHashMap.put`: the value of `k` becomes `v`; a new key goes to the end of the
   iteration order, an existing key keeps its original position.
   */
  function Put<K(==,!new), V>(m: LinkedMap<K, V>, k: K, v: V): (r: LinkedMap<K, V>)
    requires m.Valid()
    ensures r.Valid()
    ensures r.entries == m.entries[k := v]
    ensures m.order <= r.order
    ensures k in m.entries ==> r.order == m.order
    ensures r.order == InsertionOrder(m.order, [k])
  {
    assert [k][..0] == [];
    if k in m.entries then m.(entries := m.entries[k := v])
    else LinkedMap(m.order + [k], m.entries[k := v])
  }

  /** `LinkedHashMap.get`: the value stored under `k`, or null. */
  function Get<K(==,!new), V>(m: LinkedMap<K, V>, k: K): (r: Option<V>)
    requires m.Valid()
    ensures r.Some? <==> k in m.order
    ensures r.Some? ==> r.value == m.entries[k]
  {
    if k in m.entries then Some(m.entries[k]) else None
  }

  lemma FirstIndexUnique<K>(s: seq<K>, k: K, i: nat)
    requires i < |s| && s[i] == k
    requires forall j :: 0 <= j < i ==> s[j] != k
    ensures FirstIndex(s, k) == i
  {
  }

  /** Appending an element does not move the first occurrence of an element already present. */
  lemma FirstIndexAppend<K>(s: seq<K>, k: K, x: K)
    requires x in s
    ensures FirstIndex(s + [k], x) == FirstIndex(s, x)
  {
    var i := FirstIndex(s, x);
    assert (s + [k])[i] == x;
    FirstIndexUnique(s + [k], x, i);
  }

  /**
   The order `InsertionOrder` produces is the order of first occurrence in the whole
   insertion history `order + ks`: no key twice, every inserted key present, the old
   order kept as a prefix, and keys sorted by where they first appear.
   */
  lemma {:induction false} InsertionOrderByFirstOccurrence<K>(order: seq<K>, ks: seq<K>)
    requires NoDuplicates(order)
    ensures order <= InsertionOrder(order, ks)
    ensures NoDuplicates(InsertionOrder(order, ks))
    ensures forall k :: k in InsertionOrder(order, ks) <==> k in order + ks
    ensures var r := InsertionOrder(order, ks);
      forall i, j :: 0 <= i < j < |r| ==> FirstIndex(order + ks, r[i]) < FirstIndex(order + ks, r[j])
    decreases |ks|
  {
    if |ks| == 0 {
      assert order + ks == order;
      forall i | 0 <= i < |order|
        ensures FirstIndex(order, order[i]) == i
      {
        FirstIndexUnique(order, order[i], i);
      }
    } else {
      var init := ks[..|ks| - 1];
      var k := ks[|ks| - 1];
      InsertionOrderByFirstOccurrence(order, init);
      var prior := InsertionOrder(order, init);
      assert order + ks == (order + init) + [k];
      forall x | x in order + init
        ensures FirstIndex(order + ks, x) == FirstIndex(order + init, x)
      {
        FirstIndexAppend(order + init, k, x);
      }
      if k !in prior {
        assert k !in order + init;
        assert (order + ks)[|order + init|] == k;
        FirstIndexUnique(order + ks, k, |order + init|);
      }
    }
  }
}
