/** What clients see of a wake-lock entry after a refresh, and after whole histories with eviction: the
    longest hold, the running time, and all fields together. */
module WakeLockReports {
  import opened Common
  import opened Recency
  import opened KeyedList
  import opened WakeLockEntryList
  import opened WakeLockTimes

  // ----- maxTime

  /** When k was last acquired or released. */
  function LastOwn(k: Key, es: seq<Event>): int
    requires es != []
  {
    var p, e := es[..|es| - 1], es[|es| - 1];
    if p == [] || Of(k, e) then e.at else LastOwn(k, p)
  }

  /** e adds the running time to the entry: a release of k, or a refresh while the flag is set. */
  predicate Shows(k: Key, p: seq<Event>, e: Event) {
    (Of(k, e) && e.Release?) || (e.Now? && Held(k, p))
  }

  /** The longest span from an acquire or release of k to the next release, or to a refresh before it. */
  function LongestSpan(k: Key, es: seq<Event>): int
    requires es != []
  {
    if |es| == 1 then 0
    else
      var p, e := es[..|es| - 1], es[|es| - 1];
      Max(LongestSpan(k, p), if Shows(k, p, e) then e.at - LastOwn(k, p) else 0)
  }

  /** For every history maxTime is the longest of those spans, and activeTime the running one. */
  lemma {:induction false} MaxTimeLaw(k: Key, es: seq<Event>)
    requires Begins(k, es)
    ensures Life(k, es).maxTime == LongestSpan(k, es)
    ensures Life(k, es).activeTime == if Held(k, es) then LastChange(k, es) - LastOwn(k, es) else 0
    ensures LongestSpan(k, es) >= 0 && (!Held(k, es) ==> LastChange(k, es) == LastOwn(k, es))
  {
    if |es| > 1 {
      var p := es[..|es| - 1];
      MaxTimeLaw(k, p);
      ActiveIffHeld(k, p);
    }
  }

  /** Since when k has been held without interruption. */
  function HoldStart(k: Key, es: seq<Event>, open: nat): int
    requires es != []
  {
    var p, e := es[..|es| - 1], es[|es| - 1];
    if p == [] || (Of(k, e) && e.Acquire? && Locks(k, p, open) == 0) then e.at else HoldStart(k, p, open)
  }

  /** The longest time k has been held without interruption. */
  function LongestHold(k: Key, es: seq<Event>, open: nat): int
    requires es != []
  {
    if |es| == 1 then 0
    else
      var p, e := es[..|es| - 1], es[|es| - 1];
      Max(LongestHold(k, p, open), if Locks(k, p, open) > 0 then e.at - HoldStart(k, p, open) else 0)
  }

  /** However wake locks nest, maxTime never exceeds the longest uninterrupted hold. */
  lemma {:induction false} MaxTimeWithinLongestHold(k: Key, es: seq<Event>, open: nat)
    requires Begins(k, es) && Ordered(es) && Covered(k, es, open)
    ensures Life(k, es).maxTime <= LongestHold(k, es, open)
    ensures Locks(k, es, open) > 0 ==>
              0 <= Life(k, es).activeTime <= LastChange(k, es) - HoldStart(k, es, open)
  {
    if |es| > 1 {
      var p := es[..|es| - 1];
      CoveredPrefix(k, es, open);
      MaxTimeWithinLongestHold(k, p, open);
      ActiveIffHeld(k, p);
      HeldMeansLocked(k, p, open);
      ChangedBefore(k, p);
      TimesAreBounded(k, p);
    }
  }

  lemma SnocHold(k: Key, p: seq<Event>, e: Event)
    requires p != []
    ensures HoldStart(k, p + [e], 0) ==
            if Of(k, e) && e.Acquire? && Locks(k, p, 0) == 0 then e.at else HoldStart(k, p, 0)
    ensures LongestHold(k, p + [e], 0) ==
            Max(LongestHold(k, p, 0), if Locks(k, p, 0) > 0 then e.at - HoldStart(k, p, 0) else 0)
  {
    assert (p + [e])[..|p|] == p;
  }

  /** Two wake locks acquired t milliseconds apart and both released after u: held for u milliseconds
      without interruption, but maxTime is u - t. */
  lemma OverlapCutsMaxTime(k: Key, t: int, u: int)
    requires 0 <= t <= u
    ensures var es := [Acquire(k, 0)] + [Acquire(k, t)] + [Release(k, u)] + [Release(k, u)];
            LongestHold(k, es, 0) == u && Life(k, es).maxTime == u - t
  {
    var p := [Acquire(k, 0)];
    One(k);
    assert HoldStart(k, p, 0) == 0 && LongestHold(k, p, 0) == 0;
    Snoc(k, p, Acquire(k, t));
    SnocHold(k, p, Acquire(k, t));
    Snoc(k, p + [Acquire(k, t)], Release(k, u));
    SnocHold(k, p + [Acquire(k, t)], Release(k, u));
    Snoc(k, p + [Acquire(k, t)] + [Release(k, u)], Release(k, u));
    SnocHold(k, p + [Acquire(k, t)] + [Release(k, u)], Release(k, u));
  }

  lemma {:induction false} StartsBeforeOwn(k: Key, es: seq<Event>, open: nat)
    requires Begins(k, es) && Ordered(es)
    ensures HoldStart(k, es, open) <= LastOwn(k, es) <= es[|es| - 1].at
  {
    if |es| > 1 { StartsBeforeOwn(k, es[..|es| - 1], open); }
  }

  /** No span shown and no hold is longer than the longest. */
  lemma {:induction false} AreLongest(k: Key, es: seq<Event>, open: nat, n: nat)
    requires 0 < n < |es|
    ensures Shows(k, es[..n], es[n]) ==> es[n].at - LastOwn(k, es[..n]) <= LongestSpan(k, es)
    ensures Locks(k, es[..n], open) > 0 ==> es[n].at - HoldStart(k, es[..n], open) <= LongestHold(k, es, open)
  {
    var p := es[..|es| - 1];
    if n < |es| - 1 {
      assert p[..n] == es[..n];
      AreLongest(k, p, open, n);
    }
  }

  /** Some event shows the longest span, unless it is 0. */
  lemma {:induction false} LongestIsShown(k: Key, es: seq<Event>) returns (n: nat)
    requires es != [] && LongestSpan(k, es) != 0
    ensures 0 < n < |es| && Shows(k, es[..n], es[n]) && es[n].at - LastOwn(k, es[..n]) == LongestSpan(k, es)
  {
    var p := es[..|es| - 1];
    if LongestSpan(k, es) == LongestSpan(k, p) {
      n := LongestIsShown(k, p);
      assert p[..n] == es[..n];
    } else {
      n := |es| - 1;
    }
  }

  /** Event n shows a hold that is among the longest, and that no acquire or release of k has cut at a
      later instant than its start. */
  predicate ShowsWhole(k: Key, es: seq<Event>, open: nat, n: nat) {
    0 < n < |es| && Shows(k, es[..n], es[n]) && LastOwn(k, es[..n]) == HoldStart(k, es[..n], open) &&
    es[n].at - HoldStart(k, es[..n], open) == LongestHold(k, es, open)
  }

  lemma ShownIsHeld(k: Key, es: seq<Event>, open: nat, n: nat)
    requires Covered(k, es, open) && n < |es| && Shows(k, es[..n], es[n])
    ensures Locks(k, es[..n], open) > 0
  {
    HeldMeansLocked(k, es[..n], open);
    assert !Stray(k, es[..n], es[n], open);
  }

  lemma LongestSpanIsWhole(k: Key, es: seq<Event>, open: nat) returns (n: nat)
    requires Begins(k, es) && Ordered(es) && Covered(k, es, open)
    requires LongestSpan(k, es) == LongestHold(k, es, open) != 0
    ensures ShowsWhole(k, es, open, n)
  {
    n := LongestIsShown(k, es);
    ShownIsHeld(k, es, open, n);
    AreLongest(k, es, open, n);
    StartsBeforeOwn(k, es[..n], open);
  }

  /** maxTime is the longest uninterrupted hold if and only if some hold of that length is shown whole:
      from its first acquire to a release or refresh with no acquire or release in between, except at
      its first instant. */
  lemma MaxTimeExactIff(k: Key, es: seq<Event>, open: nat)
    requires Begins(k, es) && Ordered(es) && Covered(k, es, open)
    ensures Life(k, es).maxTime == LongestHold(k, es, open) <==>
            LongestHold(k, es, open) == 0 || exists n :: ShowsWhole(k, es, open, n)
  {
    MaxTimeLaw(k, es);
    MaxTimeWithinLongestHold(k, es, open);
    if n :| ShowsWhole(k, es, open, n) { AreLongest(k, es, open, n); }
    if LongestSpan(k, es) == LongestHold(k, es, open) != 0 {
      var n := LongestSpanIsWhole(k, es, open);
    }
  }

  /** After a refresh, activeTime is the time since the lock was activated, or 0 if it is not active, if
      and only if the lock is not active, or the flag is set and k has not been acquired again since, or
      all of it happened at this instant. */
  lemma ActiveTimeAfterRefresh(k: Key, es: seq<Event>, open: nat)
    requires Begins(k, es) && es[|es| - 1].Now?
    ensures Life(k, es).activeTime ==
            (if Locks(k, es, open) > 0 then es[|es| - 1].at - HoldStart(k, es, open) else 0) <==>
            (Locks(k, es, open) > 0 ==>
               HoldStart(k, es, open) == if Held(k, es) then LastOwn(k, es) else es[|es| - 1].at)
  {
    MaxTimeLaw(k, es);
    HeldMeansLocked(k, es, open);
    NothingPassedOver(k, es);
  }

  // ----- whole histories

  lemma {:induction false} LocksCompose(k: Key, es: seq<Event>, start: nat, n: nat)
    requires start <= n <= |es|
    ensures Locks(k, es[start..n], Locks(k, es[..start], 0)) == Locks(k, es[..n], 0)
  {
    if n > start {
      assert es[start..n][..n - start - 1] == es[start..n - 1];
      assert es[..n][..n - 1] == es[..n - 1];
      LocksCompose(k, es, start, n - 1);
    }
  }

  lemma CoveredSuffix(k: Key, es: seq<Event>, start: nat)
    requires start <= |es| && Covered(k, es, 0)
    ensures Covered(k, es[start..], Locks(k, es[..start], 0))
  {
    var q, open := es[start..], Locks(k, es[..start], 0);
    forall n | 0 <= n < |q| ensures !Stray(k, q[..n], q[n], open) {
      assert q[..n] == es[start..start + n];
      LocksCompose(k, es, start, start + n);
      assert !Stray(k, es[..start + n], es[start + n], 0);
    }
  }

  /** The life of an entry listed after a whole history. */
  lemma LifeOf(es: seq<Event>, capacity: nat, i: nat) returns (start: nat)
    requires i < |Replay(es, capacity)| && Ordered(es) && Covered(Replay(es, capacity)[i].key, es, 0)
    ensures var x := Replay(es, capacity)[i];
            Since(Listing(x.key, capacity), es, start) && Begins(x.key, es[start..]) && Ordered(es[start..]) &&
            Covered(x.key, es[start..], Locks(x.key, es[..start], 0)) && x.value == Life(x.key, es[start..])
  {
    start := EntryIsItsLife(es, capacity, i);
    OrderedSuffix(es, start);
    CoveredSuffix(Replay(es, capacity)[i].key, es, start);
  }

  /** What is exact, and exactly when, of an entry s of k after its life es ending in a refresh. */
  ghost predicate ReportIs(k: Key, s: Stats, es: seq<Event>, open: nat)
    requires es != []
  {
    var now, held := es[|es| - 1].at, Locks(k, es, open) > 0;
    && s.totalTime <= HeldTime(k, es, open) && s.maxTime <= LongestHold(k, es, open)
    && (s.totalTime == HeldTime(k, es, open) <==>
        AtOnce(k, es, Overlapping(k, open)) && (held ==> Held(k, es) || now == LastChange(k, es)))
    && (s.maxTime == LongestHold(k, es, open) <==>
        LongestHold(k, es, open) == 0 || exists n :: ShowsWhole(k, es, open, n))
    && (s.isActive == held <==> (held ==> Held(k, es)))
    && (s.activeTime == (if held then now - HoldStart(k, es, open) else 0) <==>
        (held ==> HoldStart(k, es, open) == if Held(k, es) then LastOwn(k, es) else now))
  }

  lemma ReportOfLife(k: Key, es: seq<Event>, open: nat)
    requires Begins(k, es) && Ordered(es) && Covered(k, es, open) && es[|es| - 1].Now?
    ensures ReportIs(k, Life(k, es), es, open)
  {
    TotalTimeAfterRefresh(k, es, open);
    MaxTimeWithinLongestHold(k, es, open);
    MaxTimeExactIff(k, es, open);
    ActiveIffHeld(k, es);
    HeldMeansLocked(k, es, open);
    ActiveTimeAfterRefresh(k, es, open);
  }

  /** What clients see: after a whole history in time order that ends in a refresh, in which wake locks
      of its key are released after they are acquired, each field of a listed entry is what it is
      documented to be, for the wake locks of its key since it was inserted, exactly as said. */
  lemma ReportedEntryIff(es: seq<Event>, capacity: nat, i: nat) returns (start: nat)
    requires i < |Replay(es, capacity)| && Ordered(es) && Covered(Replay(es, capacity)[i].key, es, 0)
    requires es != [] && es[|es| - 1].Now?
    ensures var x := Replay(es, capacity)[i];
            Since(Listing(x.key, capacity), es, start) && Begins(x.key, es[start..]) &&
            ReportIs(x.key, x.value, es[start..], Locks(x.key, es[..start], 0))
  {
    start := LifeOf(es, capacity, i);
    var k := Replay(es, capacity)[i].key;
    ReportOfLife(k, es[start..], Locks(k, es[..start], 0));
  }

  /** totalTime of a listed entry at any moment, against the time its key was held since its insertion. */
  predicate TotalIs(k: Key, s: Stats, es: seq<Event>, open: nat)
    requires es != []
  {
    var held := HeldTime(k, es, open) - Pending(k, es, open);
    s.totalTime <= held &&
    (s.totalTime == held <==> AtOnce(k, es, Overlapping(k, open)) && !PassedBy(k, es, open))
  }

  /** After a whole history in time order in which wake locks of its key are released after they are
      acquired, a listed entry never reports more than the key was held since it was inserted, and
      reports exactly that iff no acquire since of the held key came later than the last change and no
      refresh has passed it by. */
  lemma EntryTotalTimeIff(es: seq<Event>, capacity: nat, i: nat) returns (start: nat)
    requires i < |Replay(es, capacity)| && Ordered(es) && Covered(Replay(es, capacity)[i].key, es, 0)
    ensures var x := Replay(es, capacity)[i];
            Since(Listing(x.key, capacity), es, start) && Begins(x.key, es[start..]) &&
            TotalIs(x.key, x.value, es[start..], Locks(x.key, es[..start], 0))
  {
    start := LifeOf(es, capacity, i);
    var k := Replay(es, capacity)[i].key;
    TotalTimeExactIff(k, es[start..], Locks(k, es[..start], 0));
  }
}
