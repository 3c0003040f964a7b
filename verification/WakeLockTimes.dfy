/** What totalTime and isActive of a wake-lock entry say when several wake locks share one name and
    process.  Everything they are compared with is computed from the events alone. */
module WakeLockTimes {
  import opened Common
  import opened Recency
  import opened KeyedList
  import opened WakeLockEntryList

  /** es is the life of an entry of k: it begins with the acquire that created it. */
  predicate Begins(k: Key, es: seq<Event>) {
    es != [] && es[0].Acquire? && es[0].k == k
  }

  // ----- measures

  /** How many wake locks of k are held after es, of which `open` were held before it.  A release that
      finds none leaves none. */
  function Locks(k: Key, es: seq<Event>, open: nat): nat {
    if es == [] then open
    else
      var n, e := Locks(k, es[..|es| - 1], open), es[|es| - 1];
      if !Of(k, e) then n else if e.Acquire? then n + 1 else if n > 0 then n - 1 else 0
  }

  /** How long some wake lock of k was held during es: the gaps between events that find one held. */
  function HeldTime(k: Key, es: seq<Event>, open: nat): int
    requires es != []
  {
    if |es| == 1 then 0
    else
      var p, e := es[..|es| - 1], es[|es| - 1];
      HeldTime(k, p, open) + (if Locks(k, p, open) > 0 then e.at - p[|p| - 1].at else 0)
  }

  /** When the entry last changed: at an acquire or release of k, or a refresh after an acquire. */
  function LastChange(k: Key, es: seq<Event>): int
    requires es != []
  {
    var p, e := es[..|es| - 1], es[|es| - 1];
    if p == [] || Of(k, e) || (e.Now? && Held(k, p)) then e.at else LastChange(k, p)
  }

  /** The held time since then. */
  function Unshown(k: Key, es: seq<Event>, open: nat): int
    requires es != []
  {
    if Locks(k, es, open) > 0 then es[|es| - 1].at - LastChange(k, es) else 0
  }

  /** e is an occasion to bring the entry of k up to date: an acquire or release of k, or a refresh. */
  predicate Due(k: Key, e: Event) {
    Of(k, e) || e.Now?
  }

  /** When the last such occasion was. */
  function LastDue(k: Key, es: seq<Event>): int
    requires es != []
  {
    var p, e := es[..|es| - 1], es[|es| - 1];
    if p == [] || Due(k, e) then e.at else LastDue(k, p)
  }

  /** The held time since the last occasion, which the entry cannot show yet. */
  function Pending(k: Key, es: seq<Event>, open: nat): int
    requires es != []
  {
    if Locks(k, es, open) > 0 then es[|es| - 1].at - LastDue(k, es) else 0
  }

  /** The held time before it that refreshes passed over, because the last release cleared the flag
      while other wake locks of k stayed held. */
  function PassedOver(k: Key, es: seq<Event>, open: nat): int
    requires es != []
  {
    if Locks(k, es, open) > 0 then LastDue(k, es) - LastChange(k, es) else 0
  }

  /** e acquires k while a wake lock of k is held. */
  predicate Overlaps(k: Key, p: seq<Event>, e: Event, open: nat) {
    Of(k, e) && e.Acquire? && Locks(k, p, open) > 0
  }

  /** e releases k while none is. */
  predicate Stray(k: Key, p: seq<Event>, e: Event, open: nat) {
    Of(k, e) && e.Release? && Locks(k, p, open) == 0
  }

  /** e refreshes while a wake lock of k is held and the last release has cleared the flag. */
  predicate Skips(k: Key, p: seq<Event>, e: Event, open: nat) {
    e.Now? && !Held(k, p) && Locks(k, p, open) > 0
  }

  /** What the events satisfying one of these add up to, each its distance from the last change. */
  function Gaps(k: Key, es: seq<Event>, picks: (seq<Event>, Event) -> bool): int
    requires es != []
  {
    if |es| == 1 then 0
    else
      var p, e := es[..|es| - 1], es[|es| - 1];
      Gaps(k, p, picks) + (if picks(p, e) then e.at - LastChange(k, p) else 0)
  }

  function Overlapping(k: Key, open: nat): (seq<Event>, Event) -> bool {
    (p, e) => Overlaps(k, p, e, open)
  }

  function Straying(k: Key, open: nat): (seq<Event>, Event) -> bool {
    (p, e) => Stray(k, p, e, open)
  }

  function Skipping(k: Key, open: nat): (seq<Event>, Event) -> bool {
    (p, e) => Skips(k, p, e, open)
  }

  /** Every event picked falls at the instant of the last change. */
  predicate AtOnce(k: Key, es: seq<Event>, picks: (seq<Event>, Event) -> bool) {
    forall n :: 0 < n < |es| && picks(es[..n], es[n]) ==> es[n].at == LastChange(k, es[..n])
  }

  /** Every release is of a wake lock acquired before. */
  predicate Covered(k: Key, es: seq<Event>, open: nat) {
    forall n :: 0 <= n < |es| ==> !Stray(k, es[..n], es[n], open)
  }

  // ----- flag, last change and count, from the events

  lemma {:induction false} ActiveIffHeld(k: Key, es: seq<Event>)
    requires Begins(k, es)
    ensures Life(k, es).isActive == Held(k, es)
    ensures Life(k, es).lastChange == LastChange(k, es)
  {
    if |es| > 1 { ActiveIffHeld(k, es[..|es| - 1]); }
  }

  lemma {:induction false} HeldMeansLocked(k: Key, es: seq<Event>, open: nat)
    ensures Held(k, es) ==> Locks(k, es, open) > 0
  {
    if es != [] { HeldMeansLocked(k, es[..|es| - 1], open); }
  }

  function Releases(k: Key, es: seq<Event>): nat {
    if es == [] then 0
    else Releases(k, es[..|es| - 1]) + (if Of(k, es[|es| - 1]) && es[|es| - 1].Release? then 1 else 0)
  }

  lemma CoveredPrefix(k: Key, es: seq<Event>, open: nat)
    requires es != [] && Covered(k, es, open)
    ensures Covered(k, es[..|es| - 1], open) && !Stray(k, es[..|es| - 1], es[|es| - 1], open)
  {
    var p := es[..|es| - 1];
    forall n | 0 <= n < |p| ensures !Stray(k, p[..n], p[n], open) { assert p[..n] == es[..n]; }
  }

  /** With every release covered the locks held are acquires less releases. */
  lemma {:induction false} LocksAreDifference(k: Key, es: seq<Event>, open: nat)
    requires Covered(k, es, open)
    ensures Locks(k, es, open) == open + Acquires(k, es) - Releases(k, es)
  {
    if es != [] {
      CoveredPrefix(k, es, open);
      LocksAreDifference(k, es[..|es| - 1], open);
    }
  }

  // ----- totalTime

  /** What one event adds to both sides of the law. */
  lemma TotalTimeStep(k: Key, p: seq<Event>, e: Event, open: nat)
    requires Begins(k, p)
    ensures var es := p + [e];
            var gap := e.at - LastChange(k, p);
            Life(k, es).totalTime - Life(k, p).totalTime ==
            (HeldTime(k, es, open) - Unshown(k, es, open)) - (HeldTime(k, p, open) - Unshown(k, p, open))
            - (if Overlaps(k, p, e, open) then gap else 0) + (if Stray(k, p, e, open) then gap else 0)
  {
    assert (p + [e])[..|p|] == p;
    ActiveIffHeld(k, p);
    HeldMeansLocked(k, p, open);
  }

  /** For every history: totalTime is the time k was held, except for what is pending, less what
      refreshes have passed over since the last change, less what acquires of a held key drop, plus what
      releases of a key not held charge. */
  lemma {:induction false} TotalTimeLaw(k: Key, es: seq<Event>, open: nat)
    requires Begins(k, es)
    ensures Life(k, es).totalTime ==
            HeldTime(k, es, open) - Pending(k, es, open) - PassedOver(k, es, open)
            - Gaps(k, es, Overlapping(k, open)) + Gaps(k, es, Straying(k, open))
  {
    if |es| > 1 {
      var p, e := es[..|es| - 1], es[|es| - 1];
      TotalTimeLaw(k, p, open);
      TotalTimeStep(k, p, e, open);
      assert p + [e] == es;
    }
  }

  /** After an acquire or release of k or a refresh nothing is pending. */
  lemma NothingPending(k: Key, es: seq<Event>, open: nat)
    requires es != [] && Due(k, es[|es| - 1])
    ensures Pending(k, es, open) == 0 && LastDue(k, es) == es[|es| - 1].at
  {
  }

  /** While the flag is set, and right after an acquire or release of k, nothing is passed over. */
  lemma {:induction false} NothingPassedOver(k: Key, es: seq<Event>)
    requires Begins(k, es)
    ensures Held(k, es) || Of(k, es[|es| - 1]) ==> LastDue(k, es) == LastChange(k, es)
  {
    if |es| > 1 { NothingPassedOver(k, es[..|es| - 1]); }
  }

  lemma {:induction false} ChangedBefore(k: Key, es: seq<Event>)
    requires es != [] && Ordered(es)
    ensures es[0].at <= LastChange(k, es) <= es[|es| - 1].at
  {
    if |es| > 1 { ChangedBefore(k, es[..|es| - 1]); }
  }

  lemma {:induction false} ChangedBeforeDue(k: Key, es: seq<Event>)
    requires es != [] && Ordered(es)
    ensures LastChange(k, es) <= LastDue(k, es) <= es[|es| - 1].at
  {
    if |es| > 1 {
      ChangedBeforeDue(k, es[..|es| - 1]);
      ChangedBefore(k, es[..|es| - 1]);
    }
  }

  lemma AtOncePrefix(k: Key, es: seq<Event>, picks: (seq<Event>, Event) -> bool)
    requires |es| > 1
    ensures var p, e := es[..|es| - 1], es[|es| - 1];
            AtOnce(k, es, picks) <==> AtOnce(k, p, picks) && (picks(p, e) ==> e.at == LastChange(k, p))
  {
    var p := es[..|es| - 1];
    forall n | 0 < n < |p| ensures p[..n] == es[..n] { }
  }

  /** In time order the gaps are not negative, so that they vanish together. */
  lemma {:induction false} GapsVanishIff(k: Key, es: seq<Event>, picks: (seq<Event>, Event) -> bool)
    requires es != [] && Ordered(es)
    ensures Gaps(k, es, picks) >= 0
    ensures Gaps(k, es, picks) == 0 <==> AtOnce(k, es, picks)
  {
    if |es| > 1 {
      var p := es[..|es| - 1];
      GapsVanishIff(k, p, picks);
      ChangedBefore(k, p);
      AtOncePrefix(k, es, picks);
    }
  }

  lemma {:induction false} CoveredIsFree(k: Key, es: seq<Event>, open: nat)
    requires es != [] && Covered(k, es, open)
    ensures Gaps(k, es, Straying(k, open)) == 0
  {
    if |es| > 1 {
      CoveredPrefix(k, es, open);
      CoveredIsFree(k, es[..|es| - 1], open);
    }
  }

  /** A refresh has come after the last change and passed over the entry: a wake lock of k is held, but
      the last release has cleared the flag. */
  predicate PassedBy(k: Key, es: seq<Event>, open: nat)
    requires es != []
  {
    Locks(k, es, open) > 0 && !Held(k, es) && LastDue(k, es) != LastChange(k, es)
  }

  /** In time order, with wake locks released after they are acquired and nested in any way: totalTime
      never exceeds the time held, and equals it, but for what is pending, if and only if no acquire of
      the held key came later than the last change and the entry is not passed by. */
  lemma TotalTimeExactIff(k: Key, es: seq<Event>, open: nat)
    requires Begins(k, es) && Ordered(es) && Covered(k, es, open)
    ensures var held := HeldTime(k, es, open) - Pending(k, es, open);
            Life(k, es).totalTime <= held &&
            (Life(k, es).totalTime == held <==>
             AtOnce(k, es, Overlapping(k, open)) && !PassedBy(k, es, open))
  {
    TotalTimeLaw(k, es, open);
    CoveredIsFree(k, es, open);
    GapsVanishIff(k, es, Overlapping(k, open));
    ChangedBeforeDue(k, es);
    NothingPassedOver(k, es);
  }

  /** After an acquire or release of k nothing is pending or passed over. */
  lemma TotalTimeAfterOwnEvent(k: Key, es: seq<Event>, open: nat)
    requires Begins(k, es) && Ordered(es) && Covered(k, es, open) && Of(k, es[|es| - 1])
    ensures Life(k, es).totalTime <= HeldTime(k, es, open)
    ensures Life(k, es).totalTime == HeldTime(k, es, open) <==> AtOnce(k, es, Overlapping(k, open))
  {
    TotalTimeExactIff(k, es, open);
    NothingPending(k, es, open);
    NothingPassedOver(k, es);
  }

  /** After a refresh, which is what every reader of the statistics sees, it is so unless the refresh
      finds a wake lock of k held whose flag an earlier release has cleared, later than the last change. */
  lemma TotalTimeAfterRefresh(k: Key, es: seq<Event>, open: nat)
    requires Begins(k, es) && Ordered(es) && Covered(k, es, open) && es[|es| - 1].Now?
    ensures Life(k, es).totalTime <= HeldTime(k, es, open)
    ensures Life(k, es).totalTime == HeldTime(k, es, open) <==>
            AtOnce(k, es, Overlapping(k, open)) &&
            (Locks(k, es, open) > 0 ==> Held(k, es) || es[|es| - 1].at == LastChange(k, es))
  {
    TotalTimeExactIff(k, es, open);
    NothingPending(k, es, open);
  }

  /** totalTime is the time held, but for what is pending. */
  predicate TotalExact(k: Key, es: seq<Event>, open: nat)
    requires es != []
  {
    Life(k, es).totalTime == HeldTime(k, es, open) - Pending(k, es, open)
  }

  /** If no refresh skips the entry later than its last change, none has passed it over. */
  lemma {:induction false} SkippedAtOnce(k: Key, es: seq<Event>, open: nat)
    requires Begins(k, es) && AtOnce(k, es, Skipping(k, open))
    ensures PassedOver(k, es, open) == 0
  {
    if |es| > 1 {
      AtOncePrefix(k, es, Skipping(k, open));
      SkippedAtOnce(k, es[..|es| - 1], open);
    }
  }

  /** Nothing amiss: no acquire of a held key, no release of one not held and no refresh that skips a
      held one comes at another instant than that of the last change. */
  predicate Timely(k: Key, es: seq<Event>, open: nat) {
    AtOnce(k, es, Overlapping(k, open)) && AtOnce(k, es, Straying(k, open)) && AtOnce(k, es, Skipping(k, open))
  }

  lemma TimelyPrefix(k: Key, es: seq<Event>, open: nat)
    requires |es| > 1
    ensures var p, e := es[..|es| - 1], es[|es| - 1];
            Timely(k, es, open) <==>
            Timely(k, p, open) &&
            (Overlaps(k, p, e, open) || Stray(k, p, e, open) || Skips(k, p, e, open) ==> e.at == LastChange(k, p))
  {
    AtOncePrefix(k, es, Overlapping(k, open));
    AtOncePrefix(k, es, Straying(k, open));
    AtOncePrefix(k, es, Skipping(k, open));
  }

  /** From an exact entry, one event leads to an exact one iff nothing is amiss with it. */
  lemma ExactStep(k: Key, p: seq<Event>, e: Event, open: nat)
    requires Begins(k, p) && TotalExact(k, p, open) && PassedOver(k, p, open) == 0
    ensures TotalExact(k, p + [e], open) <==>
            (Overlaps(k, p, e, open) || Stray(k, p, e, open) || Skips(k, p, e, open) ==> e.at == LastChange(k, p))
  {
    TotalTimeStep(k, p, e, open);
    HeldMeansLocked(k, p, open);
    assert (p + [e])[..|p|] == p;
  }

  /** Without any assumption on times and releases, totalTime is exact throughout a history iff nothing
      is amiss in it. */
  lemma {:induction false} TotalTimeExactThroughoutIff(k: Key, es: seq<Event>, open: nat)
    requires Begins(k, es)
    ensures (forall n :: 0 < n <= |es| ==> TotalExact(k, es[..n], open)) <==> Timely(k, es, open)
  {
    assert es[..|es|] == es;
    if |es| > 1 {
      var p, e := es[..|es| - 1], es[|es| - 1];
      assert p + [e] == es;
      forall n | 0 < n <= |p| ensures p[..n] == es[..n] { }
      assert p[..|p|] == p;
      TotalTimeExactThroughoutIff(k, p, open);
      TimelyPrefix(k, es, open);
      if Timely(k, p, open) {
        SkippedAtOnce(k, p, open);
        ExactStep(k, p, e, open);
      }
    }
  }

  // ----- isActive

  /** The flag says whether a wake lock of k is held. */
  predicate FlagExact(k: Key, es: seq<Event>, open: nat)
    requires es != []
  {
    Life(k, es).isActive <==> Locks(k, es, open) > 0
  }

  /** Every release finds at most one wake lock of k held. */
  predicate Unnested(k: Key, es: seq<Event>, open: nat) {
    forall n :: 0 < n < |es| && Of(k, es[n]) && es[n].Release? ==> Locks(k, es[..n], open) <= 1
  }

  /** isActive is the status of the lock throughout a history iff every release finds at most one wake
      lock held; overlapping acquires alone do it no harm. */
  lemma {:induction false} FlagExactThroughoutIff(k: Key, es: seq<Event>, open: nat)
    requires Begins(k, es)
    ensures (forall n :: 0 < n <= |es| ==> FlagExact(k, es[..n], open)) <==> Unnested(k, es, open)
  {
    assert es[..|es|] == es;
    ActiveIffHeld(k, es);
    if |es| > 1 {
      var p := es[..|es| - 1];
      forall n | 0 <= n <= |p| ensures p[..n] == es[..n] { }
      assert p[..|p|] == p;
      ActiveIffHeld(k, p);
      FlagExactThroughoutIff(k, p, open);
    }
  }

  lemma {:induction false} AlternationCount(k: Key, es: seq<Event>)
    requires Alternates(k, es)
    ensures Locks(k, es, 0) == if Held(k, es) then 1 else 0
  {
    if es != [] {
      AlternatesPrefix(k, es);
      AlternationCount(k, es[..|es| - 1]);
    }
  }

  lemma AlternationAt(k: Key, es: seq<Event>, n: nat)
    requires Alternates(k, es) && n < |es|
    ensures Locks(k, es[..n], 0) == if Held(k, es[..n]) then 1 else 0
    ensures Of(k, es[n]) ==> es[n].Acquire? == !Held(k, es[..n])
  {
    var p := es[..n];
    forall m | 0 <= m < n ensures p[..m] == es[..m] { }
    AlternationCount(k, p);
  }

  /** With alternating acquires and releases at most one wake lock is held and nothing is amiss. */
  lemma AlternationIsEnough(k: Key, es: seq<Event>)
    requires Alternates(k, es)
    ensures Locks(k, es, 0) == if Held(k, es) then 1 else 0
    ensures Covered(k, es, 0) && Timely(k, es, 0) && Unnested(k, es, 0)
  {
    AlternationCount(k, es);
    forall n | 0 <= n < |es|
      ensures !Overlaps(k, es[..n], es[n], 0) && !Stray(k, es[..n], es[n], 0) && !Skips(k, es[..n], es[n], 0)
      ensures Locks(k, es[..n], 0) <= 1
    {
      AlternationAt(k, es, n);
    }
  }

  lemma Snoc(k: Key, p: seq<Event>, e: Event)
    requires p != []
    ensures Life(k, p + [e]) == Step(Life(k, p), k, e)
    ensures Locks(k, p + [e], 0) ==
            var n := Locks(k, p, 0);
            if !Of(k, e) then n else if e.Acquire? then n + 1 else if n > 0 then n - 1 else 0
    ensures HeldTime(k, p + [e], 0) ==
            HeldTime(k, p, 0) + (if Locks(k, p, 0) > 0 then e.at - p[|p| - 1].at else 0)
  {
    assert (p + [e])[..|p|] == p;
  }

  lemma One(k: Key)
    ensures Life(k, [Acquire(k, 0)]) == Created(0) && Locks(k, [Acquire(k, 0)], 0) == 1
    ensures HeldTime(k, [Acquire(k, 0)], 0) == 0
  {
    assert [Acquire(k, 0)][..0] == [];
  }

  /** Two wake locks, the second acquired after t milliseconds and released at once, the first after u:
      held for u milliseconds, of which the first t are not in totalTime. */
  lemma OverlapLosesTime(k: Key, t: int, u: int)
    ensures var es := [Acquire(k, 0)] + [Acquire(k, t)] + [Release(k, t)] + [Release(k, u)];
            HeldTime(k, es, 0) == u && Life(k, es).totalTime == u - t
  {
    var p := [Acquire(k, 0)];
    One(k);
    Snoc(k, p, Acquire(k, t));
    Snoc(k, p + [Acquire(k, t)], Release(k, t));
    Snoc(k, p + [Acquire(k, t)] + [Release(k, t)], Release(k, u));
  }

  /** Two wake locks acquired together, one released after t milliseconds, and a refresh after u: one is
      still held, for u milliseconds, but the entry says inactive, shows t and no running time. */
  lemma RefreshPassesOver(k: Key, t: int, u: int)
    ensures var es := [Acquire(k, 0)] + [Acquire(k, 0)] + [Release(k, t)] + [Now(u)];
            HeldTime(k, es, 0) == u && Locks(k, es, 0) == 1 &&
            Life(k, es).totalTime == t && !Life(k, es).isActive && Life(k, es).activeTime == 0
  {
    var p := [Acquire(k, 0)];
    One(k);
    Snoc(k, p, Acquire(k, 0));
    Snoc(k, p + [Acquire(k, 0)], Release(k, t));
    Snoc(k, p + [Acquire(k, 0)] + [Release(k, t)], Now(u));
  }
}
