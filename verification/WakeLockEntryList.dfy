/** The bounded list of wake-lock statistics (WakeLockEntryList). */
module WakeLockEntryList {
  import opened Common
  import opened Recency
  import opened KeyedList

  datatype Key = Key(name: string, pid: int)

  /** The fields of a native WakeLockInfo that change; times in milliseconds. */
  datatype Stats = Stats(
    activeCount: nat,
    lastChange: int,
    maxTime: int,
    totalTime: int,
    isActive: bool,
    activeTime: int)

  type Info = Entry<Key, Stats>

  function Max(a: int, b: int): int {
    if a >= b then a else b
  }

  // ----- one entry

  /** createNativeEntry. */
  function Created(now: int): Stats {
    Stats(1, now, 0, 0, true, 0)
  }

  function OnAcquire(s: Stats, now: int): Stats {
    s.(isActive := true, activeTime := 0, activeCount := s.activeCount + 1, lastChange := now)
  }

  function OnRelease(s: Stats, now: int): Stats {
    var delta := now - s.lastChange;
    s.(isActive := false, maxTime := Max(s.maxTime, s.activeTime + delta), activeTime := 0,
       totalTime := s.totalTime + delta, lastChange := now)
  }

  function OnNow(s: Stats, now: int): Stats {
    if !s.isActive then s
    else
      var delta := now - s.lastChange;
      s.(activeTime := s.activeTime + delta, maxTime := Max(s.maxTime, s.activeTime + delta),
         totalTime := s.totalTime + delta, lastChange := now)
  }

  // ----- the list

  function Acquired(list: seq<Info>, k: Key, now: int, capacity: nat): seq<Info> {
    var i := Position(list, k);
    if i < |list| then Hit(list, i, OnAcquire(list[i].value, now)) else Miss(list, k, Created(now), capacity)
  }

  /** A release whose entry has been evicted changes nothing. */
  function Released(list: seq<Info>, k: Key, now: int): seq<Info> {
    var i := Position(list, k);
    if i < |list| then Hit(list, i, OnRelease(list[i].value, now)) else list
  }

  function Refreshed(list: seq<Info>, now: int): (r: seq<Info>)
    ensures |r| == |list|
  {
    seq(|list|, i requires 0 <= i < |list| => Entry(list[i].key, OnNow(list[i].value, now)))
  }

  datatype Event = Acquire(k: Key, at: int) | Release(k: Key, at: int) | Now(at: int)

  function Apply(list: seq<Info>, e: Event, capacity: nat): seq<Info> {
    match e
    case Acquire(k, at) => Acquired(list, k, at, capacity)
    case Release(k, at) => Released(list, k, at)
    case Now(at) => Refreshed(list, at)
  }

  /** The list after a history of events. */
  function Replay(es: seq<Event>, capacity: nat): seq<Info> {
    if es == [] then [] else Apply(Replay(es[..|es| - 1], capacity), es[|es| - 1], capacity)
  }

  lemma ReplayMore(es: seq<Event>, e: Event, capacity: nat)
    ensures Replay(es + [e], capacity) == Apply(Replay(es, capacity), e, capacity)
  {
    assert (es + [e])[..|es|] == es;
  }

  // ----- the service's list

  class List {
    const capacity: nat
    var stats: seq<Node<Key, Stats>>
    var lookupTable: map<Key, Node<Key, Stats>>
    ghost var history: seq<Event>

    ghost function Contents(): seq<Info>
      reads this, stats
    {
      Entries(stats)
    }

    ghost predicate Valid()
      reads this, stats
    {
      OneToOne(stats, lookupTable) && |stats| <= capacity && Contents() == Replay(history, capacity)
    }

    constructor (capacity: nat)
      ensures Valid() && this.capacity == capacity && history == []
    {
      this.capacity := capacity;
      this.stats := [];
      this.lookupTable := map[];
      this.history := [];
    }

    method InsertEntry(key: Key, value: Stats)
      requires OneToOne(stats, lookupTable) && key !in lookupTable
      modifies this`stats, this`lookupTable
      ensures OneToOne(stats, lookupTable)
      ensures Contents() == [Entry(key, value)] + old(Contents())
    {
      var node := new Node(key, value);
      OneToOneInserted(stats, lookupTable, node);
      stats := [node] + stats;
      lookupTable := lookupTable[key := node];
    }

    /** Deletes an entry by its iterator; i is where that points. */
    method DeleteEntry(entry: Node<Key, Stats>, ghost i: nat)
      requires OneToOne(stats, lookupTable) && i < |stats| && stats[i] == entry
      modifies this`stats, this`lookupTable
      ensures OneToOne(stats, lookupTable) && entry.key !in lookupTable
      ensures lookupTable.Keys <= old(lookupTable.Keys)
      ensures Contents() == RemoveAt(old(Contents()), i)
    {
      OneToOneErased(stats, lookupTable, i);
      ErasedAt(stats, i);
      lookupTable := lookupTable - {entry.key};
      stats := Erased(stats, entry);
    }

    /** At capacity 0 this would step back from the end of an empty list. */
    method EvictIfFull()
      requires OneToOne(stats, lookupTable) && 1 <= capacity && |stats| <= capacity
      modifies this`stats, this`lookupTable
      ensures OneToOne(stats, lookupTable) && lookupTable.Keys <= old(lookupTable.Keys)
      ensures Contents() == Cut(old(Contents()), capacity - 1)
    {
      if |stats| == capacity {
        DeleteEntry(stats[|stats| - 1], |stats| - 1);
        assert Contents() == old(Contents())[..capacity - 1];
      }
    }

    /** The branch that creates an entry. */
    method Create(key: Key, now: int)
      requires OneToOne(stats, lookupTable) && 1 <= capacity && |stats| <= capacity && key !in lookupTable
      modifies this`stats, this`lookupTable
      ensures OneToOne(stats, lookupTable) && Contents() == Miss(old(Contents()), key, Created(now), capacity)
    {
      MissAfterEviction(Contents(), key, Created(now), capacity);
      EvictIfFull();
      InsertEntry(key, Created(now));
    }

    /** The branches that replace one: the stale node is deleted, its copy inserted in front. */
    method Replace(stale: Node<Key, Stats>, value: Stats)
      requires OneToOne(stats, lookupTable) && stale.key in lookupTable && lookupTable[stale.key] == stale
      modifies this`stats, this`lookupTable
      ensures OneToOne(stats, lookupTable)
      ensures var list := old(Contents());
              var i := Position(list, stale.key);
              i < |list| && list[i].value == old(stale.value) && Contents() == Hit(list, i, value)
    {
      ghost var list := Contents();
      ghost var i := Position(list, stale.key);
      TableFinds(stats, lookupTable, stale.key);
      HitIs(list, i, value);
      DeleteEntry(stale, i);
      InsertEntry(stale.key, value);
    }

    method AcquireKey(key: Key, now: int)
      requires OneToOne(stats, lookupTable) && 1 <= capacity && |stats| <= capacity
      modifies this`stats, this`lookupTable
      ensures OneToOne(stats, lookupTable) && Contents() == Acquired(old(Contents()), key, now, capacity)
    {
      TableFinds(stats, lookupTable, key);
      if key !in lookupTable {
        Create(key, now);
      } else {
        var stale := lookupTable[key];
        Replace(stale, OnAcquire(stale.value, now));
      }
    }

    method UpdateOnAcquire(name: string, pid: int, now: int)
      requires Valid() && capacity >= 1
      modifies this
      ensures Valid() && history == old(history) + [Acquire(Key(name, pid), now)]
      ensures Contents() == Acquired(old(Contents()), Key(name, pid), now, capacity)
    {
      var key := Key(name, pid);
      AcquireKey(key, now);
      ReplayMore(history, Acquire(key, now), capacity);
      history := history + [Acquire(key, now)];
    }

    method ReleaseKey(key: Key, now: int)
      requires OneToOne(stats, lookupTable)
      modifies this`stats, this`lookupTable
      ensures OneToOne(stats, lookupTable) && Contents() == Released(old(Contents()), key, now)
    {
      TableFinds(stats, lookupTable, key);
      if key in lookupTable {
        var stale := lookupTable[key];
        Replace(stale, OnRelease(stale.value, now));
      }
    }

    method UpdateOnRelease(name: string, pid: int, now: int)
      requires Valid()
      modifies this
      ensures Valid() && history == old(history) + [Release(Key(name, pid), now)]
      ensures Contents() == Released(old(Contents()), Key(name, pid), now)
    {
      var key := Key(name, pid);
      ReleaseKey(key, now);
      ReplayMore(history, Release(key, now), capacity);
      history := history + [Release(key, now)];
    }

    /** Refreshes the active entries where they are. */
    method Refresh(now: int)
      requires OneToOne(stats, lookupTable)
      modifies stats
      ensures Contents() == Refreshed(old(Contents()), now)
    {
      ghost var list := Contents();
      for i := 0 to |stats|
        invariant forall j :: 0 <= j < i ==> stats[j].value == OnNow(list[j].value, now)
        invariant forall j :: i <= j < |stats| ==> stats[j].value == list[j].value
      {
        var node := stats[i];
        assert forall j :: 0 <= j < |stats| && j != i ==> NodeKeys(stats)[j] != NodeKeys(stats)[i];
        if node.value.isActive {
          var delta := now - node.value.lastChange;
          var activeTime := node.value.activeTime + delta;
          node.value := node.value.(activeTime := activeTime, maxTime := Max(node.value.maxTime, activeTime),
                                    totalTime := node.value.totalTime + delta, lastChange := now);
        }
      }
    }

    method UpdateNow(now: int)
      requires Valid()
      modifies this, stats
      ensures Valid() && history == old(history) + [Now(now)]
      ensures Contents() == Refreshed(old(Contents()), now)
    {
      Refresh(now);
      ReplayMore(history, Now(now), capacity);
      history := history + [Now(now)];
    }
  }

  // ----- which keys, in which order

  /** The touches of a history: acquires, and releases that find their entry. */
  function Touches(es: seq<Event>, capacity: nat): seq<Key> {
    if es == [] then []
    else
      var before := Touches(es[..|es| - 1], capacity);
      match es[|es| - 1]
      case Acquire(k, _) => before + [k]
      case Release(k, _) => if k in Kept(before, capacity) then before + [k] else before
      case Now(_) => before
  }

  lemma KeysOfAcquired(list: seq<Info>, k: Key, now: int, capacity: nat)
    requires Distinct(Keys(list))
    ensures Keys(Acquired(list, k, now, capacity)) == Touched(Keys(list), k, capacity)
  {
    var i := Position(list, k);
    if i < |list| {
      KeysOfHit(list, i, OnAcquire(list[i].value, now));
    } else {
      KeysOfMiss(list, k, Created(now), capacity);
    }
  }

  lemma KeysOfReleased(list: seq<Info>, k: Key, now: int, capacity: nat)
    requires Distinct(Keys(list))
    ensures Keys(Released(list, k, now)) == if k in Keys(list) then Touched(Keys(list), k, capacity) else Keys(list)
  {
    var i := Position(list, k);
    if i < |list| { KeysOfHit(list, i, OnRelease(list[i].value, now)); }
  }

  lemma KeysOfRefreshed(list: seq<Info>, now: int)
    ensures Keys(Refreshed(list, now)) == Keys(list)
  {
  }

  /** After any history the list holds, in order, the keys most recently touched, up to capacity. */
  lemma {:induction false} KeysAreMostRecent(es: seq<Event>, capacity: nat)
    ensures Keys(Replay(es, capacity)) == Kept(Touches(es, capacity), capacity)
  {
    if es != [] {
      var p := es[..|es| - 1];
      var list, touches := Replay(p, capacity), Touches(p, capacity);
      KeysAreMostRecent(p, capacity);
      KeptDistinct(touches, capacity);
      match es[|es| - 1]
      case Acquire(k, at) =>
        KeysOfAcquired(list, k, at, capacity);
        TouchedIsKept(touches, k, capacity);
      case Release(k, at) =>
        KeysOfReleased(list, k, at, capacity);
        TouchedIsKept(touches, k, capacity);
      case Now(at) => KeysOfRefreshed(list, at);
    }
  }

  lemma ListBounded(es: seq<Event>, capacity: nat)
    ensures Distinct(Keys(Replay(es, capacity))) && |Replay(es, capacity)| <= capacity
  {
    KeysAreMostRecent(es, capacity);
    KeptDistinct(Touches(es, capacity), capacity);
  }

  // ----- the life of an entry

  /** What an event does to the entry of k. */
  function Step(s: Stats, k: Key, e: Event): Stats {
    match e
    case Acquire(k', at) => if k' == k then OnAcquire(s, at) else s
    case Release(k', at) => if k' == k then OnRelease(s, at) else s
    case Now(at) => OnNow(s, at)
  }

  /** The entry of k after the event that created it and those that followed. */
  function Life(k: Key, es: seq<Event>): Stats
    requires es != []
  {
    if |es| == 1 then Created(es[0].at) else Step(Life(k, es[..|es| - 1]), k, es[|es| - 1])
  }

  /** Whether k is listed after a history. */
  ghost function Listing(k: Key, capacity: nat): seq<Event> -> bool {
    es => k in Keys(Replay(es, capacity))
  }

  /** Every event acts on each entry that stays listed as on that entry alone. */
  lemma EntryAfter(list: seq<Info>, e: Event, capacity: nat, i: nat) returns (j: nat)
    requires Distinct(Keys(list)) && i < |Apply(list, e, capacity)|
    ensures var x := Apply(list, e, capacity)[i];
            j == Position(list, x.key) &&
            (if j < |list| then x.value == Step(list[j].value, x.key, e)
             else e.Acquire? && e.k == x.key && x.value == Created(e.at))
  {
    match e
    case Acquire(k, at) =>
      var n := Position(list, k);
      if n < |list| {
        j := HitEntry(list, n, OnAcquire(list[n].value, at), i);
      } else {
        j := MissEntry(list, k, Created(at), capacity, i);
      }
    case Release(k, at) =>
      var n := Position(list, k);
      if n < |list| {
        j := HitEntry(list, n, OnRelease(list[n].value, at), i);
      } else {
        PositionAt(list, i);
        assert Keys(list)[i] != k;
        j := i;
      }
    case Now(at) =>
      PositionAt(list, i);
      j := i;
  }

  lemma LifeMore(k: Key, es: seq<Event>, start: nat)
    requires start < |es|
    ensures start < |es| - 1 ==> Life(k, es[start..]) == Step(Life(k, es[start..|es| - 1]), k, es[|es| - 1])
    ensures start == |es| - 1 ==> Life(k, es[start..]) == Created(es[start].at)
  {
    assert start < |es| - 1 ==> es[start..][..|es| - 1 - start] == es[start..|es| - 1];
  }

  /** Each entry was created by the acquire number start, which found its key absent, has been listed
      ever since, and has lived through the events since. */
  lemma {:induction false} EntryIsItsLife(es: seq<Event>, capacity: nat, i: nat) returns (start: nat)
    requires i < |Replay(es, capacity)|
    ensures var x := Replay(es, capacity)[i];
            Since(Listing(x.key, capacity), es, start) &&
            es[start].Acquire? && es[start].k == x.key && x.value == Life(x.key, es[start..])
  {
    var p, e := es[..|es| - 1], es[|es| - 1];
    var list, x := Replay(p, capacity), Replay(es, capacity)[i];
    ListBounded(p, capacity);
    ListBounded(es, capacity);
    PositionAt(Replay(es, capacity), i);
    var j := EntryAfter(list, e, capacity, i);
    if j < |list| {
      start := EntryIsItsLife(p, capacity, j);
      SinceExtends(Listing(x.key, capacity), es, start);
      LifeMore(x.key, es, start);
      assert es[start..|es| - 1] == p[start..];
    } else {
      start := |es| - 1;
      SinceLast(Listing(x.key, capacity), es);
      LifeMore(x.key, es, start);
    }
  }

  function Acquires(k: Key, es: seq<Event>): nat {
    if es == [] then 0
    else
      var e := es[|es| - 1];
      Acquires(k, es[..|es| - 1]) + (if e.Acquire? && e.k == k then 1 else 0)
  }

  /** activeCount is the number of acquires since insertion. */
  lemma {:induction false} ActiveCountIsAcquires(k: Key, es: seq<Event>)
    requires es != [] && es[0].Acquire? && es[0].k == k
    ensures Life(k, es).activeCount == Acquires(k, es)
  {
    if |es| == 1 {
      assert es[..0] == [];
    } else {
      ActiveCountIsAcquires(k, es[..|es| - 1]);
    }
  }

  // ----- time

  /** Timestamps do not decrease. */
  predicate Ordered(es: seq<Event>) {
    forall i, j :: 0 <= i <= j < |es| ==> es[i].at <= es[j].at
  }

  /** For any history in time order, overlapping locks included. */
  lemma {:induction false} TimesAreBounded(k: Key, es: seq<Event>)
    requires es != [] && Ordered(es)
    ensures var s := Life(k, es);
            0 <= s.activeTime <= s.maxTime <= s.totalTime <= s.lastChange - es[0].at
            && s.lastChange <= es[|es| - 1].at && (!s.isActive ==> s.activeTime == 0)
  {
    if |es| > 1 {
      TimesAreBounded(k, es[..|es| - 1]);
    }
  }

  /** e is an acquire or release of k. */
  predicate Of(k: Key, e: Event) {
    !e.Now? && e.k == k
  }

  /** Whether the last acquire or release of k was an acquire. */
  function Held(k: Key, es: seq<Event>): bool {
    if es == [] then false
    else if Of(k, es[|es| - 1]) then es[|es| - 1].Acquire?
    else Held(k, es[..|es| - 1])
  }

  /** Acquires and releases of k alternate. */
  predicate Alternates(k: Key, es: seq<Event>) {
    forall n :: 0 <= n < |es| && Of(k, es[n]) ==> es[n].Acquire? == !Held(k, es[..n])
  }

  /** When the last acquire of k was. */
  function HeldFrom(k: Key, es: seq<Event>): int
    requires es != []
  {
    var e := es[|es| - 1];
    if |es| == 1 || (Of(k, e) && e.Acquire?) then e.at else HeldFrom(k, es[..|es| - 1])
  }

  /** The durations of the completed holds of k, from acquires and releases alone. */
  function Holds(k: Key, es: seq<Event>): seq<int>
    requires es != []
  {
    if |es| == 1 then []
    else
      var p, e := es[..|es| - 1], es[|es| - 1];
      Holds(k, p) + (if Of(k, e) && e.Release? then [e.at - HeldFrom(k, p)] else [])
  }

  function Sum(s: seq<int>): int {
    if s == [] then 0 else Sum(s[..|s| - 1]) + s[|s| - 1]
  }

  /** The largest of s, or 0. */
  function Largest(s: seq<int>): int {
    if s == [] then 0 else Max(Largest(s[..|s| - 1]), s[|s| - 1])
  }

  lemma OneMore(s: seq<int>, x: int)
    ensures Sum(s + [x]) == Sum(s) + x && Largest(s + [x]) == Max(Largest(s), x)
  {
    assert (s + [x])[..|s|] == s;
  }

  lemma AlternatesPrefix(k: Key, es: seq<Event>)
    requires es != [] && Alternates(k, es)
    ensures Alternates(k, es[..|es| - 1])
    ensures Of(k, es[|es| - 1]) ==> es[|es| - 1].Acquire? == !Held(k, es[..|es| - 1])
  {
    var p := es[..|es| - 1];
    forall n | 0 <= n < |p| ensures p[..n] == es[..n] { }
  }

  /** What the entry knows of its holds, active or not. */
  predicate TimesExact(k: Key, es: seq<Event>, s: Stats)
    requires es != []
  {
    var holds, from := Holds(k, es), HeldFrom(k, es);
    && s.isActive == Held(k, es)
    && s.lastChange <= es[|es| - 1].at
    && (if s.isActive then
          s.activeTime == s.lastChange - from && s.activeTime >= 0 &&
          s.totalTime == Sum(holds) + s.activeTime && s.maxTime == Max(Largest(holds), s.activeTime)
        else
          s.activeTime == 0 && s.totalTime == Sum(holds) && s.maxTime == Largest(holds))
  }

  lemma TimesStep(k: Key, es: seq<Event>, s: Stats)
    requires |es| > 1 && Ordered(es) && Alternates(k, es) && TimesExact(k, es[..|es| - 1], s)
    ensures TimesExact(k, es, Step(s, k, es[|es| - 1]))
  {
    var p, e := es[..|es| - 1], es[|es| - 1];
    AlternatesPrefix(k, es);
    assert p[|p| - 1].at <= e.at;
    if Of(k, e) && e.Release? {
      OneMore(Holds(k, p), e.at - HeldFrom(k, p));
    } else {
      assert Holds(k, es) == Holds(k, p);
    }
    LargestNonNegative(Holds(k, p));
  }

  lemma LargestNonNegative(s: seq<int>)
    ensures Largest(s) >= 0
  {
  }

  /** With alternating acquires and releases, totalTime and maxTime are the sum and the maximum of the
      completed holds, plus the running one as of the last refresh - wherever updateNow ran. */
  lemma {:induction false} TimesAreExact(k: Key, es: seq<Event>)
    requires es != [] && es[0].Acquire? && es[0].k == k && Ordered(es) && Alternates(k, es)
    ensures TimesExact(k, es, Life(k, es))
  {
    if |es| == 1 {
      assert Holds(k, es) == [];
    } else {
      var p := es[..|es| - 1];
      AlternatesPrefix(k, es);
      TimesAreExact(k, p);
      TimesStep(k, es, Life(k, p));
    }
  }

  // ----- whole histories

  lemma {:induction false} HeldSuffix(k: Key, es: seq<Event>, start: nat, n: nat)
    requires start < n <= |es| && Of(k, es[start])
    ensures Held(k, es[start..n]) == Held(k, es[..n])
  {
    assert es[start..n][..n - start - 1] == es[start..n - 1];
    assert es[..n][..n - 1] == es[..n - 1];
    if n > start + 1 { HeldSuffix(k, es, start, n - 1); }
  }

  lemma AlternatesSuffix(k: Key, es: seq<Event>, start: nat)
    requires start < |es| && Alternates(k, es) && es[start].Acquire? && es[start].k == k
    ensures Alternates(k, es[start..])
  {
    var q := es[start..];
    forall n | 0 <= n < |q| && Of(k, q[n])
      ensures q[n].Acquire? == !Held(k, q[..n])
    {
      assert q[n] == es[start + n] && q[..n] == es[start..start + n];
      if n > 0 { HeldSuffix(k, es, start, start + n); }
    }
  }

  lemma OrderedSuffix(es: seq<Event>, start: nat)
    requires start <= |es| && Ordered(es)
    ensures Ordered(es[start..])
  {
  }

  /** After a whole history in time order the times of every listed entry are bounded by its age, and an
      inactive one has no running time. */
  lemma EntryIsBounded(es: seq<Event>, capacity: nat, i: nat) returns (start: nat)
    requires i < |Replay(es, capacity)| && Ordered(es)
    ensures var x := Replay(es, capacity)[i];
            var s := x.value;
            Since(Listing(x.key, capacity), es, start) && es[start].Acquire? && es[start].k == x.key &&
            0 <= s.activeTime <= s.maxTime <= s.totalTime <= s.lastChange - es[start].at &&
            s.lastChange <= es[|es| - 1].at && (!s.isActive ==> s.activeTime == 0)
  {
    start := EntryIsItsLife(es, capacity, i);
    OrderedSuffix(es, start);
    TimesAreBounded(Replay(es, capacity)[i].key, es[start..]);
  }

  /** After a whole history in time order, an entry whose key's acquires and releases alternated has
      exact times for its holds since insertion, and an exact count of acquires. */
  lemma EntryIsExact(es: seq<Event>, capacity: nat, i: nat) returns (start: nat)
    requires i < |Replay(es, capacity)| && Ordered(es) && Alternates(Replay(es, capacity)[i].key, es)
    ensures var x := Replay(es, capacity)[i];
            Since(Listing(x.key, capacity), es, start) && es[start].Acquire? && es[start].k == x.key &&
            TimesExact(x.key, es[start..], x.value) && x.value.activeCount == Acquires(x.key, es[start..])
  {
    var x := Replay(es, capacity)[i];
    start := EntryIsItsLife(es, capacity, i);
    AlternatesSuffix(x.key, es, start);
    TimesAreExact(x.key, es[start..]);
    ActiveCountIsAcquires(x.key, es[start..]);
  }
}
