/** A list of keyed entries beside a lookup table of its nodes, as both statistics lists of the service
    keep them: std::list nodes are stable objects that the table refers to. */
module KeyedList {
  import opened Common
  import opened Recency

  datatype Entry<K, V> = Entry(key: K, value: V)

  // ----- lists of entries

  function Keys<K, V>(list: seq<Entry<K, V>>): (r: seq<K>)
    ensures |r| == |list| && forall i :: 0 <= i < |list| ==> r[i] == list[i].key
  {
    seq(|list|, i requires 0 <= i < |list| => list[i].key)
  }

  /** The first position from n on that holds k, or the length. */
  function Find<K(==)>(keys: seq<K>, k: K, n: nat): (i: nat)
    requires n <= |keys|
    ensures n <= i <= |keys|
    ensures i < |keys| ==> keys[i] == k
    ensures forall j :: n <= j < i ==> keys[j] != k
    decreases |keys| - n
  {
    if n == |keys| || keys[n] == k then n else Find(keys, k, n + 1)
  }

  function Position<K(==), V>(list: seq<Entry<K, V>>, k: K): (i: nat)
    ensures i <= |list|
    ensures i < |list| <==> k in Keys(list)
    ensures i < |list| ==> list[i].key == k
  {
    Find(Keys(list), k, 0)
  }

  /** A listed entry with a new value, moved to the front. */
  function Hit<K, V>(list: seq<Entry<K, V>>, i: nat, value: V): (r: seq<Entry<K, V>>)
    requires i < |list|
    ensures |r| == |list|
  {
    seq(|list|, j requires 0 <= j < |list| =>
      if j == 0 then Entry(list[i].key, value) else list[if j - 1 < i then j - 1 else j])
  }

  /** How many of n + 1 entries fit. */
  function Fitting(n: nat, capacity: nat): nat {
    if n < capacity then n + 1 else capacity
  }

  /** A new entry at the front; what exceeds the capacity at the back goes. */
  function Miss<K, V>(list: seq<Entry<K, V>>, k: K, value: V, capacity: nat): (r: seq<Entry<K, V>>)
    ensures |r| == Fitting(|list|, capacity)
  {
    seq(Fitting(|list|, capacity), j requires 0 <= j < Fitting(|list|, capacity) =>
      if j == 0 then Entry(k, value) else list[j - 1])
  }

  lemma HitIs<K, V>(list: seq<Entry<K, V>>, i: nat, value: V)
    requires i < |list|
    ensures Hit(list, i, value) == [Entry(list[i].key, value)] + RemoveAt(list, i)
  {
  }

  lemma MissIs<K, V>(list: seq<Entry<K, V>>, k: K, value: V, capacity: nat)
    ensures Miss(list, k, value, capacity) == Cut([Entry(k, value)] + list, capacity)
  {
  }

  /** Evicting first comes to the same. */
  lemma MissAfterEviction<K, V>(list: seq<Entry<K, V>>, k: K, value: V, capacity: nat)
    requires capacity >= 1
    ensures Miss(list, k, value, capacity) == [Entry(k, value)] + Cut(list, capacity - 1)
  {
  }

  lemma KeysOfRemoved<K, V>(list: seq<Entry<K, V>>, i: nat)
    requires i < |list|
    ensures Keys(RemoveAt(list, i)) == RemoveAt(Keys(list), i)
  {
  }

  lemma KeysOfCons<K, V>(e: Entry<K, V>, list: seq<Entry<K, V>>)
    ensures Keys([e] + list) == [e.key] + Keys(list)
  {
  }

  lemma KeysOfCut<K, V>(list: seq<Entry<K, V>>, n: nat)
    ensures Keys(Cut(list, n)) == Cut(Keys(list), n)
  {
  }

  lemma KeysOfHit<K, V>(list: seq<Entry<K, V>>, i: nat, value: V)
    requires i < |list| && Distinct(Keys(list))
    ensures Keys(Hit(list, i, value)) == Front(Keys(list), list[i].key)
  {
    WithoutAt(Keys(list), i);
    KeysOfRemoved(list, i);
    KeysOfCons(Entry(list[i].key, value), RemoveAt(list, i));
    HitIs(list, i, value);
  }

  lemma KeysOfMiss<K, V>(list: seq<Entry<K, V>>, k: K, value: V, capacity: nat)
    ensures Keys(Miss(list, k, value, capacity)) == Cut([k] + Keys(list), capacity)
  {
    KeysOfCons(Entry(k, value), list);
    KeysOfCut([Entry(k, value)] + list, capacity);
    MissIs(list, k, value, capacity);
  }

  lemma PositionAt<K, V>(list: seq<Entry<K, V>>, j: nat)
    requires Distinct(Keys(list)) && j < |list|
    ensures Position(list, list[j].key) == j
  {
    assert Keys(list)[j] == list[j].key;
    assert Keys(list)[Position(list, list[j].key)] == Keys(list)[j];
  }

  /** Where an entry of a list after a hit was before. */
  lemma HitEntry<K, V>(list: seq<Entry<K, V>>, n: nat, value: V, i: nat) returns (j: nat)
    requires Distinct(Keys(list)) && n < |list| && i < |list|
    ensures j < |list| && Hit(list, n, value)[i] == (if j == n then Entry(list[n].key, value) else list[j])
    ensures j == Position(list, Hit(list, n, value)[i].key)
    ensures j != n ==> list[j].key != list[n].key
  {
    j := if i == 0 then n else if i - 1 >= n then i else i - 1;
    PositionAt(list, j);
    assert j != n ==> Keys(list)[j] != Keys(list)[n];
  }

  /** Where an entry of a list after a miss was before. */
  lemma MissEntry<K, V>(list: seq<Entry<K, V>>, k: K, value: V, capacity: nat, i: nat) returns (j: nat)
    requires Distinct(Keys(list)) && k !in Keys(list) && i < |Miss(list, k, value, capacity)|
    ensures j <= |list| && Miss(list, k, value, capacity)[i] == (if j == |list| then Entry(k, value) else list[j])
    ensures j == Position(list, Miss(list, k, value, capacity)[i].key)
    ensures j < |list| ==> list[j].key != k
  {
    j := if i == 0 then |list| else i - 1;
    if i > 0 {
      assert Miss(list, k, value, capacity)[i] == list[j];
      PositionAt(list, j);
      assert Keys(list)[j] != k;
    }
  }

  // ----- nodes and the lookup table

  class Node<K, V> {
    const key: K
    var value: V

    constructor (key: K, value: V)
      ensures this.key == key && this.value == value
    {
      this.key := key;
      this.value := value;
    }
  }

  function NodeKeys<K, V>(nodes: seq<Node<K, V>>): (r: seq<K>)
    ensures |r| == |nodes| && forall i :: 0 <= i < |nodes| ==> r[i] == nodes[i].key
  {
    seq(|nodes|, i requires 0 <= i < |nodes| => nodes[i].key)
  }

  ghost function Entries<K, V>(nodes: seq<Node<K, V>>): (r: seq<Entry<K, V>>)
    reads nodes
    ensures |r| == |nodes| && forall i :: 0 <= i < |nodes| ==> r[i] == Entry(nodes[i].key, nodes[i].value)
    ensures Keys(r) == NodeKeys(nodes)
  {
    seq(|nodes|, i requires 0 <= i < |nodes| reads nodes => Entry(nodes[i].key, nodes[i].value))
  }

  /** List and lookup table agree one to one. */
  ghost predicate OneToOne<K, V>(nodes: seq<Node<K, V>>, table: map<K, Node<K, V>>) {
    && Distinct(NodeKeys(nodes))
    && (forall i :: 0 <= i < |nodes| ==> nodes[i].key in table && table[nodes[i].key] == nodes[i])
    && (forall k :: k in table ==> table[k] in nodes && table[k].key == k)
  }

  /** The list without one node. */
  function Erased<K, V>(nodes: seq<Node<K, V>>, node: Node<K, V>): seq<Node<K, V>> {
    if nodes == [] then []
    else if nodes[0] == node then nodes[1..]
    else [nodes[0]] + Erased(nodes[1..], node)
  }

  lemma {:induction false} ErasedAt<K, V>(nodes: seq<Node<K, V>>, i: nat)
    requires i < |nodes| && Distinct(NodeKeys(nodes))
    ensures Erased(nodes, nodes[i]) == RemoveAt(nodes, i)
  {
    if i == 0 {
      assert RemoveAt(nodes, 0) == nodes[1..];
    } else {
      assert NodeKeys(nodes)[0] != NodeKeys(nodes)[i];
      assert NodeKeys(nodes[1..]) == NodeKeys(nodes)[1..];
      ErasedAt(nodes[1..], i - 1);
      assert [nodes[0]] + RemoveAt(nodes[1..], i - 1) == RemoveAt(nodes, i);
    }
  }

  lemma DistinctErased<K>(keys: seq<K>, i: nat)
    requires Distinct(keys) && i < |keys|
    ensures Distinct(RemoveAt(keys, i)) && keys[i] !in RemoveAt(keys, i)
  {
  }

  lemma DistinctInserted<K>(keys: seq<K>, k: K)
    requires Distinct(keys) && k !in keys
    ensures Distinct([k] + keys)
  {
  }

  lemma StillListed<T>(nodes: seq<T>, i: nat, node: T)
    requires i < |nodes| && node in nodes && node != nodes[i]
    ensures node in RemoveAt(nodes, i)
  {
    var j :| 0 <= j < |nodes| && nodes[j] == node;
    assert RemoveAt(nodes, i)[if j < i then j else j - 1] == node;
  }

  lemma OneToOneErased<K, V>(nodes: seq<Node<K, V>>, table: map<K, Node<K, V>>, i: nat)
    requires OneToOne(nodes, table) && i < |nodes|
    ensures OneToOne(RemoveAt(nodes, i), table - {nodes[i].key})
  {
    var rest, key := RemoveAt(nodes, i), nodes[i].key;
    assert NodeKeys(rest) == RemoveAt(NodeKeys(nodes), i);
    DistinctErased(NodeKeys(nodes), i);
    forall j | 0 <= j < |rest|
      ensures rest[j].key != key && rest[j] in nodes
    {
      assert NodeKeys(rest)[j] == rest[j].key;
    }
    forall k | k in table && k != key
      ensures table[k] in rest
    {
      StillListed(nodes, i, table[k]);
    }
  }

  lemma OneToOneInserted<K, V>(nodes: seq<Node<K, V>>, table: map<K, Node<K, V>>, node: Node<K, V>)
    requires OneToOne(nodes, table) && node.key !in table
    ensures OneToOne([node] + nodes, table[node.key := node])
  {
    var more := [node] + nodes;
    assert NodeKeys(more) == [node.key] + NodeKeys(nodes);
    forall i | 0 <= i < |nodes| ensures NodeKeys(nodes)[i] != node.key {
      assert NodeKeys(nodes)[i] == nodes[i].key;
    }
    DistinctInserted(NodeKeys(nodes), node.key);
    forall k | k in table ensures table[k] in more {
      var j :| 0 <= j < |nodes| && nodes[j] == table[k];
      assert more[j + 1] == table[k];
    }
    assert more[0] == node;
  }

  /** The table finds a key exactly where the list holds it. */
  lemma TableFinds<K, V>(nodes: seq<Node<K, V>>, table: map<K, Node<K, V>>, k: K)
    requires OneToOne(nodes, table)
    ensures var i := Position(Entries(nodes), k);
            (k in table <==> i < |nodes|) && (k in table ==> nodes[i] == table[k])
  {
    var i := Position(Entries(nodes), k);
    if k in table {
      var j :| 0 <= j < |nodes| && nodes[j] == table[k];
      PositionAt(Entries(nodes), j);
    } else {
      assert forall j :: 0 <= j < |nodes| ==> Keys(Entries(nodes))[j] == nodes[j].key;
    }
  }
}
