/** The bounded list of wakeup reasons with their counts (WakeupList). */
module WakeupList {
  import opened Common
  import opened Recency
  import opened KeyedList
  import R = WakeupReasons

  /** A WakeupInfo: the joined reasons and how often they were seen. */
  type Wakeup = Entry<string, nat>

  /** One update: a listed key is counted, a new one comes in with count 1; both go to the front. */
  function Updated(list: seq<Wakeup>, key: string, capacity: nat): seq<Wakeup> {
    var i := Position(list, key);
    if i < |list| then Hit(list, i, list[i].value + 1) else Miss(list, key, 1, capacity)
  }

  /** The list after a history of joined keys. */
  function Replay(h: seq<string>, capacity: nat): seq<Wakeup> {
    if h == [] then [] else Updated(Replay(h[..|h| - 1], capacity), h[|h| - 1], capacity)
  }

  lemma FrontOfUpdated(list: seq<Wakeup>, key: string, capacity: nat)
    ensures capacity > 0 && |list| <= capacity ==>
              Updated(list, key, capacity) != [] && Updated(list, key, capacity)[0].key == key
  {
    var i := Position(list, key);
    if i < |list| { HitIs(list, i, list[i].value + 1); } else { MissIs(list, key, 1, capacity); }
  }

  lemma ReplayMore(h: seq<string>, key: string, capacity: nat)
    ensures Replay(h + [key], capacity) == Updated(Replay(h, capacity), key, capacity)
  {
    assert (h + [key])[..|h|] == h;
  }

  // ----- the service's list

  class List {
    const capacity: nat
    var wakeups: seq<Node<string, nat>>
    var lookupTable: map<string, Node<string, nat>>
    ghost var history: seq<string>

    ghost function Contents(): seq<Wakeup>
      reads this, wakeups
    {
      Entries(wakeups)
    }

    ghost predicate Valid()
      reads this, wakeups
    {
      OneToOne(wakeups, lookupTable) && |wakeups| <= capacity && Contents() == Replay(history, capacity)
    }

    constructor (capacity: nat)
      ensures Valid() && this.capacity == capacity && history == []
    {
      this.capacity := capacity;
      this.wakeups := [];
      this.lookupTable := map[];
      this.history := [];
    }

    method Insert(key: string, count: nat)
      requires OneToOne(wakeups, lookupTable) && key !in lookupTable
      modifies this`wakeups, this`lookupTable
      ensures OneToOne(wakeups, lookupTable)
      ensures Contents() == [Entry(key, count)] + old(Contents())
    {
      var node := new Node(key, count);
      OneToOneInserted(wakeups, lookupTable, node);
      wakeups := [node] + wakeups;
      lookupTable := lookupTable[key := node];
    }

    /** Erases an entry by its iterator; i is where that points. */
    method Erase(entry: Node<string, nat>, ghost i: nat)
      requires OneToOne(wakeups, lookupTable) && i < |wakeups| && wakeups[i] == entry
      modifies this`wakeups, this`lookupTable
      ensures OneToOne(wakeups, lookupTable) && entry.key !in lookupTable
      ensures Contents() == RemoveAt(old(Contents()), i)
    {
      OneToOneErased(wakeups, lookupTable, i);
      ErasedAt(wakeups, i);
      lookupTable := lookupTable - {entry.key};
      wakeups := Erased(wakeups, entry);
    }

    method Evict()
      requires OneToOne(wakeups, lookupTable) && |wakeups| <= capacity + 1
      modifies this`wakeups, this`lookupTable
      ensures OneToOne(wakeups, lookupTable) && Contents() == Cut(old(Contents()), capacity)
    {
      if |wakeups| > capacity {
        Erase(wakeups[|wakeups| - 1], |wakeups| - 1);
        assert Contents() == old(Contents())[..capacity];
      }
    }

    /** The branch of an update that creates an entry. */
    method Create(key: string)
      requires OneToOne(wakeups, lookupTable) && |wakeups| <= capacity && key !in lookupTable
      modifies this`wakeups, this`lookupTable
      ensures OneToOne(wakeups, lookupTable) && Contents() == Miss(old(Contents()), key, 1, capacity)
    {
      MissIs(Contents(), key, 1, capacity);
      Insert(key, 1);
      Evict();
    }

    /** The branch of an update that finds one. */
    method Increment(key: string)
      requires OneToOne(wakeups, lookupTable) && key in lookupTable
      modifies this`wakeups, this`lookupTable
      ensures OneToOne(wakeups, lookupTable)
      ensures var list := old(Contents());
              var i := Position(list, key);
              i < |list| && Contents() == Hit(list, i, list[i].value + 1)
    {
      ghost var list := Contents();
      ghost var i := Position(list, key);
      TableFinds(wakeups, lookupTable, key);
      HitIs(list, i, list[i].value + 1);
      var stale := lookupTable[key];
      var count := stale.value;
      Erase(stale, i);
      Insert(key, count + 1);
    }

    method UpdateKey(key: string)
      requires OneToOne(wakeups, lookupTable) && |wakeups| <= capacity
      modifies this`wakeups, this`lookupTable
      ensures OneToOne(wakeups, lookupTable) && |wakeups| <= capacity
      ensures Contents() == Updated(old(Contents()), key, capacity)
    {
      TableFinds(wakeups, lookupTable, key);
      ghost var list := Contents();
      if key !in lookupTable {
        Create(key);
        assert Contents() == Updated(list, key, capacity);
      } else {
        Increment(key);
        assert Contents() == Updated(list, key, capacity);
      }
    }

    method Update(reasons: seq<string>)
      requires Valid()
      modifies this
      ensures Valid()
      ensures history == if reasons == [] then old(history) else old(history) + [R.Join(reasons, ';')]
      ensures reasons != [] ==>
                |history| == |old(history)| + 1 && R.Joined(history[|old(history)|], reasons, ';') &&
                (capacity > 0 ==> Contents() != [] && Contents()[0].key == history[|old(history)|])
      ensures Contents() ==
              if reasons == [] then old(Contents()) else Updated(old(Contents()), R.Join(reasons, ';'), capacity)
    {
      if reasons != [] {
        var key := R.Join(reasons, ';');
        R.JoinIsJoined(reasons, ';');
        FrontOfUpdated(Contents(), key, capacity);
        UpdateKey(key);
        ReplayMore(history, key, capacity);
        history := history + [key];
      }
    }
  }

  // ----- which keys, in which order

  lemma KeysOfUpdated(list: seq<Wakeup>, key: string, capacity: nat)
    requires Distinct(Keys(list))
    ensures Keys(Updated(list, key, capacity)) == Touched(Keys(list), key, capacity)
  {
    var i := Position(list, key);
    if i < |list| { KeysOfHit(list, i, list[i].value + 1); } else { KeysOfMiss(list, key, 1, capacity); }
  }

  /** After any history the list holds, in order, the keys most recently updated, up to capacity. */
  lemma {:induction false} KeysAreMostRecent(h: seq<string>, capacity: nat)
    ensures Keys(Replay(h, capacity)) == Kept(h, capacity)
  {
    if h != [] {
      var p, key := h[..|h| - 1], h[|h| - 1];
      KeysAreMostRecent(p, capacity);
      KeptDistinct(p, capacity);
      KeysOfUpdated(Replay(p, capacity), key, capacity);
      TouchedIsKept(p, key, capacity);
      assert p + [key] == h;
    }
  }

  // ----- counts

  function Occurrences(h: seq<string>, k: string): nat {
    if h == [] then 0 else Occurrences(h[..|h| - 1], k) + (if h[|h| - 1] == k then 1 else 0)
  }

  lemma OneMoreOccurrence(h: seq<string>, start: nat, k: string)
    requires start < |h|
    ensures Occurrences(h[start..], k) == Occurrences(h[start..|h| - 1], k) + (if h[|h| - 1] == k then 1 else 0)
  {
    assert h[start..][..|h| - 1 - start] == h[start..|h| - 1];
  }

  /** Whether k is listed after a history. */
  ghost function Listing(k: string, capacity: nat): seq<string> -> bool {
    h => k in Kept(h, capacity)
  }

  /** An update adds one to the count of its key and leaves the other listed counts alone. */
  lemma CountOfUpdated(list: seq<Wakeup>, key: string, capacity: nat, i: nat) returns (j: nat)
    requires Distinct(Keys(list)) && i < |Updated(list, key, capacity)|
    ensures var e := Updated(list, key, capacity)[i];
            j == Position(list, e.key) && (j == |list| ==> e.key == key) &&
            e.value == (if j < |list| then list[j].value else 0) + (if e.key == key then 1 else 0)
  {
    var n := Position(list, key);
    if n < |list| { j := HitEntry(list, n, list[n].value + 1, i); } else { j := MissEntry(list, key, 1, capacity, i); }
  }

  lemma ListedByKey(h: seq<string>, capacity: nat, k: string)
    ensures Listing(k, capacity)(h) <==> Position(Replay(h, capacity), k) < |Replay(h, capacity)|
    ensures Distinct(Keys(Replay(h, capacity)))
  {
    KeysAreMostRecent(h, capacity);
    KeptDistinct(h, capacity);
  }

  /** Each count is the number of updates of that key since it was last inserted: update number
      start was of that key and found it absent, and it has been listed ever since. */
  lemma {:induction false} CountIsSinceInsertion(h: seq<string>, capacity: nat, i: nat) returns (start: nat)
    requires i < |Replay(h, capacity)|
    ensures var e := Replay(h, capacity)[i];
            Since(Listing(e.key, capacity), h, start) && h[start] == e.key &&
            e.value == Occurrences(h[start..], e.key)
  {
    var p, key := h[..|h| - 1], h[|h| - 1];
    var list, e := Replay(p, capacity), Replay(h, capacity)[i];
    ListedByKey(h, capacity, e.key);
    ListedByKey(p, capacity, e.key);
    PositionAt(Replay(h, capacity), i);
    var j := CountOfUpdated(list, key, capacity, i);
    if j < |list| {
      start := CountIsSinceInsertion(p, capacity, j);
      SinceExtends(Listing(e.key, capacity), h, start);
      OneMoreOccurrence(h, start, e.key);
      assert h[start..|h| - 1] == p[start..];
    } else {
      start := |h| - 1;
      SinceLast(Listing(e.key, capacity), h);
      OneMoreOccurrence(h, start, key);
      assert h[start..|h| - 1] == [];
    }
  }

  // ----- conservation

  /** The sum of the first n counts. */
  function SumTo(list: seq<Wakeup>, n: nat): nat
    requires n <= |list|
  {
    if n == 0 then 0 else SumTo(list, n - 1) + list[n - 1].value
  }

  function Total(list: seq<Wakeup>): nat {
    SumTo(list, |list|)
  }

  lemma {:induction false} SumAgrees(a: seq<Wakeup>, b: seq<Wakeup>, n: nat)
    requires n <= |a| && n <= |b| && forall j :: 0 <= j < n ==> a[j] == b[j]
    ensures SumTo(a, n) == SumTo(b, n)
  {
    if n > 0 { SumAgrees(a, b, n - 1); }
  }

  lemma {:induction false} SumRemoved(list: seq<Wakeup>, i: nat, n: nat)
    requires i < n <= |list|
    ensures SumTo(list, n) == SumTo(RemoveAt(list, i), n - 1) + list[i].value
  {
    if n == i + 1 { SumAgrees(list, RemoveAt(list, i), i); } else { SumRemoved(list, i, n - 1); }
  }

  lemma {:induction false} SumFront(x: Wakeup, list: seq<Wakeup>, n: nat)
    requires n <= |list|
    ensures SumTo([x] + list, n + 1) == x.value + SumTo(list, n)
  {
    if n > 0 { SumFront(x, list, n - 1); }
  }

  lemma TotalCut(list: seq<Wakeup>, capacity: nat)
    requires |list| <= capacity + 1
    ensures Total(Cut(list, capacity)) + (if |list| <= capacity then 0 else list[capacity].value) == Total(list)
  {
    if |list| > capacity { SumAgrees(list, Cut(list, capacity), capacity); }
  }

  /** The count of the entry an update evicts, if any. */
  function EvictedBy(list: seq<Wakeup>, key: string, capacity: nat): nat {
    if key in Keys(list) || |list| < capacity then 0
    else if list == [] then 1 else list[|list| - 1].value
  }

  function Evicted(h: seq<string>, capacity: nat): nat {
    if h == [] then 0
    else Evicted(h[..|h| - 1], capacity) + EvictedBy(Replay(h[..|h| - 1], capacity), h[|h| - 1], capacity)
  }

  lemma TotalOfHit(list: seq<Wakeup>, i: nat)
    requires i < |list|
    ensures Total(Hit(list, i, list[i].value + 1)) == Total(list) + 1
  {
    SumRemoved(list, i, |list|);
    SumFront(Entry(list[i].key, list[i].value + 1), RemoveAt(list, i), |list| - 1);
    HitIs(list, i, list[i].value + 1);
  }

  lemma TotalOfMiss(list: seq<Wakeup>, key: string, capacity: nat)
    requires |list| <= capacity
    ensures Total(Miss(list, key, 1, capacity)) +
            (if |list| < capacity then 0 else if list == [] then 1 else list[|list| - 1].value) == Total(list) + 1
  {
    SumFront(Entry(key, 1), list, |list|);
    TotalCut([Entry(key, 1)] + list, capacity);
    MissIs(list, key, 1, capacity);
  }

  lemma TotalOfUpdated(list: seq<Wakeup>, key: string, capacity: nat)
    requires |list| <= capacity
    ensures Total(Updated(list, key, capacity)) + EvictedBy(list, key, capacity) == Total(list) + 1
  {
    var i := Position(list, key);
    if i < |list| { TotalOfHit(list, i); } else { TotalOfMiss(list, key, capacity); }
  }

  /** No update is lost: listed and evicted counts add up to the number of updates. */
  lemma {:induction false} UpdatesAreConserved(h: seq<string>, capacity: nat)
    ensures Total(Replay(h, capacity)) + Evicted(h, capacity) == |h|
  {
    if h != [] {
      UpdatesAreConserved(h[..|h| - 1], capacity);
      KeysAreMostRecent(h[..|h| - 1], capacity);
      KeptDistinct(h[..|h| - 1], capacity);
      TotalOfUpdated(Replay(h[..|h| - 1], capacity), h[|h| - 1], capacity);
    }
  }
}
