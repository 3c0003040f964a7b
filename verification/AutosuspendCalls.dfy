/** The steps of client calls keep the invariant, and what they may change under other agents. */
module AutosuspendCalls {
  import opened Common
  import opened Autosuspend
  import opened AutosuspendLocks
  import opened AutosuspendInvariant
  import opened AutosuspendThread

  // ----- the set of counted wake locks

  lemma CountedSame(w: map<LockId, WakeLock>, l: LockId, x: WakeLock)
    requires l in w ==> x.incs == w[l].incs && x.decs == w[l].decs
    requires l !in w ==> x.incs == x.decs
    ensures CountedLocks(w[l := x]) == CountedLocks(w)
  {
  }

  lemma CountedMore(w: map<LockId, WakeLock>, l: LockId, x: WakeLock)
    requires l in w && w[l].incs == w[l].decs && x.incs > x.decs
    ensures CountedLocks(w[l := x]) == CountedLocks(w) + {l} && |CountedLocks(w[l := x])| == |CountedLocks(w)| + 1
  {
    assert CountedLocks(w[l := x]) == CountedLocks(w) + {l};
    assert l !in CountedLocks(w);
  }

  lemma CountedLess(w: map<LockId, WakeLock>, l: LockId, x: WakeLock)
    requires l in w && w[l].incs > w[l].decs && x.incs == x.decs
    ensures CountedLocks(w[l := x]) == CountedLocks(w) - {l} && |CountedLocks(w[l := x])| == |CountedLocks(w)| - 1
  {
    assert CountedLocks(w[l := x]) == CountedLocks(w) - {l};
    assert l in CountedLocks(w);
  }

  /** Unsigned increment and decrement follow the count modulo 2^32. */
  lemma ModularStep(n: nat, k: nat)
    requires n == k % COUNTER_MODULUS
    ensures (n + 1) % COUNTER_MODULUS == (k + 1) % COUNTER_MODULUS
    ensures k > 0 ==> (n + COUNTER_MODULUS - 1) % COUNTER_MODULUS == (k - 1) % COUNTER_MODULUS
  {
  }

  // ----- what a call may change

  ghost predicate Logged(log: seq<Event>, log': seq<Event>, a: AgentId) {
    log' == log || exists e: Event :: e.who == a && !ThreadEvent(e) && log' == log + [e]
  }

  /** How a step of agent a may change the wake locks. */
  ghost predicate Evolves(w: map<LockId, WakeLock>, w': map<LockId, WakeLock>, a: AgentId) {
    && (forall l :: l in w ==> l in w' && LockEvolves(w[l], w'[l], a))
    && (forall l :: l in w' && l !in w ==> w'[l].once == NotRun)
  }

  predicate LockEvolves(x: WakeLock, y: WakeLock, a: AgentId) {
    && y.creator == x.creator
    && (y.incs == x.incs || (x.creator == a && x.incs == 0 && y.incs == 1))
    && (y.decs == x.decs || x.once == Running(a))
    && (x.published ==> y.published)
    && (y.once == x.once || (x.once == NotRun && y.once == Running(a)) || (x.once == Running(a) && y.once == Ran))
  }

  /** What stays the same under any call's step. */
  predicate Untouched(d: Shared, d': Shared) {
    && d'.sleeper == d.sleeper && d'.now == d.now && d'.outcomes == d.outcomes
    && d'.recorded == d.recorded && d'.rounds == d.rounds && d'.writes == d.writes && d'.waited == d.waited
  }

  predicate SameFlags(d: Shared, d': Shared) {
    d'.tokens == d.tokens && d'.enabled == d.enabled && d'.created == d.created &&
    d'.counter == d.counter && d'.waiters == d.waiters
  }

  /** No waiter is left un-notified whose reason to wait went away. */
  ghost predicate WaitersKept(d: Shared, d': Shared) {
    d'.waiters <= d.waiters &&
    (d'.waiters != {} ==> (d.enabled ==> d'.enabled) &&
                          (CountedLocks(d.wakeLocks) != {} ==> CountedLocks(d'.wakeLocks) != {}))
  }

  ghost predicate AtMostOneWaiter(d: Shared) {
    forall x, y :: x in d.waiters && y in d.waiters ==> x == y
  }

  /** What other agents can rely on when a call at p takes a step. */
  ghost predicate CallFrame(d: Shared, a: AgentId, p: CallPc, k: Change) {
    && Untouched(d, k.d) && Logged(d.log, k.d.log, a)
    && Evolves(d.wakeLocks, k.d.wakeLocks, a)
    && WaitersKept(d, k.d)
    && (SameFlags(d, k.d) || CallHeld(p).autosuspend)
    && (k.d.tokens == d.tokens || CallHeld(p).tokens)
    && (k.d.created == (d.created || k.spawn.Some?)) && (k.spawn.Some? ==> !d.created)
    && (k.next.Some? ==> k.next.value.Call?)
  }

  /** The call's own view after its step. */
  ghost predicate CallAfter(d: Shared, a: AgentId, k: Change) {
    && FlagInv(k.d) && CountInv(k.d) && OnceAt(k.d.wakeLocks, a, k.next)
    && (k.next.Some? && k.next.value.Call? ==> CallAt(k.d.wakeLocks, a, k.next.value.p))
  }

  ghost predicate CallBefore(d: Shared, a: AgentId, p: CallPc) {
    && FlagInv(d) && CountInv(d) && OnceAt(d.wakeLocks, a, Some(Call(p))) && CallAt(d.wakeLocks, a, p)
    && AtMostOneWaiter(d)
  }

  /** Noting what a step did changes nothing for others. */
  lemma NotedStep(d: Shared, a: AgentId, p: CallPc, k: Change, e: Event)
    requires CallAfter(d, a, k) && CallFrame(d, a, p, k)
    requires k.d.log == d.log && e.who == a && !ThreadEvent(e)
    ensures CallAfter(d, a, k.(d := Note(k.d, e))) && CallFrame(d, a, p, k.(d := Note(k.d, e)))
  {
    assert Logged(d.log, d.log + [e], a);
  }

  lemma EnableStep(d: Shared, a: AgentId, token: Token, ch: Choice, k: Change)
    requires RunEnable(d, token, ch) == Some(k) && CallBefore(d, a, Enable(token))
    ensures CallAfter(d, a, k) && CallFrame(d, a, Enable(token), k) && k.d.log == d.log
  {
  }

  lemma DisableStep(d: Shared, a: AgentId, ch: Choice, k: Change)
    requires RunControl(d, a, Disable, ch) == Some(k) && CallBefore(d, a, Disable)
    ensures CallAfter(d, a, k) && CallFrame(d, a, Disable, k)
  {
    var k0 := GoTo(Call(DropBoth), DisableLocked(d)).value;
    NotedStep(d, a, Disable, k0, DisabledBy(a));
  }

  /** Steps that change nothing but the log. */
  predicate OnlyLogs(d: Shared, a: AgentId, k: Change) {
    k.d == d.(log := k.d.log) && k.spawn == None && (k.next.Some? ==> k.next.value.Call?)
  }

  lemma LoggingFrame(d: Shared, a: AgentId, p: CallPc, k: Change)
    requires OnlyLogs(d, a, k) && Logged(d.log, k.d.log, a)
    ensures CallFrame(d, a, p, k)
  {
  }

  lemma Appended(d: Shared, a: AgentId, e: Event)
    requires e.who == a && !ThreadEvent(e)
    ensures Logged(d.log, Note(d, e).log, a)
  {
    assert Note(d, e).log == d.log + [e];
  }

  lemma DropControlFrame(d: Shared, a: AgentId, p: CallPc, ch: Choice, k: Change)
    requires RunControl(d, a, p, ch) == Some(k) && !p.Enable? && !p.Disable?
    ensures CallFrame(d, a, p, k)
  {
    Appended(d, a, Unlocked(a));
    Appended(d, a, Returned(a));
    Appended(d, a, Forced(a, ch.ok));
    LoggingFrame(d, a, p, k);
  }

  lemma DropControl(d: Shared, a: AgentId, p: CallPc, ch: Choice, k: Change)
    requires RunControl(d, a, p, ch) == Some(k) && CallBefore(d, a, p) && !p.Enable? && !p.Disable?
    ensures CallAfter(d, a, k) && CallFrame(d, a, p, k)
  {
    DropControlFrame(d, a, p, ch, k);
    assert k.d.wakeLocks == d.wakeLocks;
  }

  lemma ControlStep(d: Shared, a: AgentId, p: CallPc, ch: Choice, k: Change)
    requires RunControl(d, a, p, ch) == Some(k) && CallBefore(d, a, p)
    ensures CallAfter(d, a, k) && CallFrame(d, a, p, k)
  {
    match p
    case Enable(token) =>
      var k0 := RunEnable(d, token, ch).value;
      EnableStep(d, a, token, ch, k0);
      NotedStep(d, a, p, k0, EnabledBy(a, token));
    case Disable => DisableStep(d, a, ch, k);
    case _ => DropControl(d, a, p, ch, k);
  }

  lemma AcquireAfter(d: Shared, a: AgentId, l: LockId, k: Change)
    requires RunAcquire(d, l) == Some(k) && CallBefore(d, a, Acquire(l))
    ensures CallAfter(d, a, k) && CountedLocks(k.d.wakeLocks) == CountedLocks(d.wakeLocks) + {l}
  {
    var w := d.wakeLocks;
    CountedMore(w, l, w[l].(incs := w[l].incs + 1));
    ModularStep(d.counter, |CountedLocks(w)|);
  }

  lemma AcquireFrame(d: Shared, a: AgentId, l: LockId, k: Change)
    requires RunAcquire(d, l) == Some(k) && CallAt(d.wakeLocks, a, Acquire(l))
    requires CountedLocks(k.d.wakeLocks) == CountedLocks(d.wakeLocks) + {l}
    ensures CallFrame(d, a, Acquire(l), k)
  {
  }

  lemma AcquireStep(d: Shared, a: AgentId, l: LockId, k: Change)
    requires RunAcquire(d, l) == Some(k) && CallBefore(d, a, Acquire(l))
    ensures CallAfter(d, a, k) && CallFrame(d, a, Acquire(l), k)
  {
    AcquireAfter(d, a, l, k);
    AcquireFrame(d, a, l, k);
  }

  lemma ReleaseEnterAfter(d: Shared, a: AgentId, l: LockId, k: Change)
    requires RunReleaseEnter(d, a, l) == Some(k) && CallBefore(d, a, ReleaseEnter(l))
    ensures CallAfter(d, a, k) && CountedLocks(k.d.wakeLocks) == CountedLocks(d.wakeLocks)
  {
    CountedSame(d.wakeLocks, l, d.wakeLocks[l].(once := Running(a)));
  }

  lemma ReleaseEnterFrame(d: Shared, a: AgentId, l: LockId, k: Change)
    requires RunReleaseEnter(d, a, l) == Some(k) && CountedLocks(k.d.wakeLocks) == CountedLocks(d.wakeLocks)
    ensures CallFrame(d, a, ReleaseEnter(l), k)
  {
  }

  lemma ReleaseEnterStep(d: Shared, a: AgentId, l: LockId, k: Change)
    requires RunReleaseEnter(d, a, l) == Some(k) && CallBefore(d, a, ReleaseEnter(l))
    ensures CallAfter(d, a, k) && CallFrame(d, a, ReleaseEnter(l), k)
  {
    ReleaseEnterAfter(d, a, l, k);
    ReleaseEnterFrame(d, a, l, k);
  }

  lemma ReleaseAfter(d: Shared, a: AgentId, l: LockId, ch: Choice, k: Change)
    requires RunRelease(d, l, ch) == Some(k) && CallBefore(d, a, Release(l))
    ensures CallAfter(d, a, k) && CountedLocks(k.d.wakeLocks) == CountedLocks(d.wakeLocks) - {l}
  {
    var w := d.wakeLocks;
    assert Sane(w[l]);
    CountedLess(w, l, w[l].(decs := w[l].decs + 1));
    ModularStep(d.counter, |CountedLocks(w)|);
  }

  /** Reaching zero notifies the one waiter there can be. */
  lemma ReleaseNotifies(d: Shared, l: LockId, ch: Choice, k: Change)
    requires RunRelease(d, l, ch) == Some(k) && AtMostOneWaiter(d) && CountInv(k.d)
    ensures WaitersKept(d, k.d)
  {
    if CountedLocks(k.d.wakeLocks) == {} {
      assert k.d.counter == 0;
      if d.waiters != {} {
        assert k.d.waiters == d.waiters - {ch.agent};
        assert forall x :: x in d.waiters ==> x == ch.agent;
        assert k.d.waiters == {};
      }
    }
  }

  lemma ReleaseFrame(d: Shared, a: AgentId, l: LockId, ch: Choice, k: Change)
    requires RunRelease(d, l, ch) == Some(k) && CallAt(d.wakeLocks, a, Release(l)) && WaitersKept(d, k.d)
    ensures CallFrame(d, a, Release(l), k)
  {
    assert k.d.wakeLocks == d.wakeLocks[l := d.wakeLocks[l].(decs := d.wakeLocks[l].decs + 1)];
    assert LockEvolves(d.wakeLocks[l], k.d.wakeLocks[l], a);
  }

  lemma ReleaseStep(d: Shared, a: AgentId, l: LockId, ch: Choice, k: Change)
    requires RunRelease(d, l, ch) == Some(k) && CallBefore(d, a, Release(l))
    ensures CallAfter(d, a, k) && CallFrame(d, a, Release(l), k)
  {
    ReleaseAfter(d, a, l, ch, k);
    ReleaseNotifies(d, l, ch, k);
    ReleaseFrame(d, a, l, ch, k);
  }

  /** Between the counter and the notification. */
  predicate Passing(p: CallPc) {
    p.DropAcquire? || p.AcquireStat? || p.DropRelease? || p.ReleaseStat?
  }

  lemma PassingAfter(d: Shared, a: AgentId, p: CallPc, ch: Choice, k: Change)
    requires RunWakeLock(d, a, p, ch) == Some(k) && CallBefore(d, a, p) && Passing(p)
    ensures CallAfter(d, a, k)
  {
    assert k.d.wakeLocks == d.wakeLocks;
  }

  lemma PassingFrame(d: Shared, a: AgentId, p: CallPc, ch: Choice, k: Change)
    requires RunWakeLock(d, a, p, ch) == Some(k) && Passing(p)
    ensures CallFrame(d, a, p, k)
  {
    Appended(d, a, Unlocked(a));
    if p.AcquireStat? { Appended(d, a, Recorded(a, p.l, true)); }
    if p.ReleaseStat? { Appended(d, a, Recorded(a, p.l, false)); }
    LoggingFrame(d, a, p, k);
  }

  lemma NotedAcquire(d: Shared, a: AgentId, l: LockId, k: Change)
    requires RunAcquire(d, l) == Some(k) && CallBefore(d, a, Acquire(l))
    ensures var k' := k.(d := Note(k.d, Counted(a, l))); CallAfter(d, a, k') && CallFrame(d, a, Acquire(l), k')
  {
    AcquireStep(d, a, l, k);
    NotedStep(d, a, Acquire(l), k, Counted(a, l));
  }

  lemma NotedReleaseEnter(d: Shared, a: AgentId, l: LockId, ran: bool, k: Change)
    requires RunReleaseEnter(d, a, l) == Some(k) && CallBefore(d, a, ReleaseEnter(l))
    ensures var k' := k.(d := Note(k.d, OnceSeen(a, l, ran)));
            CallAfter(d, a, k') && CallFrame(d, a, ReleaseEnter(l), k')
  {
    ReleaseEnterStep(d, a, l, k);
    NotedStep(d, a, ReleaseEnter(l), k, OnceSeen(a, l, ran));
  }

  lemma NotedRelease(d: Shared, a: AgentId, l: LockId, ch: Choice, k: Change)
    requires RunRelease(d, l, ch) == Some(k) && CallBefore(d, a, Release(l))
    ensures var k' := k.(d := Note(k.d, Uncounted(a, l))); CallAfter(d, a, k') && CallFrame(d, a, Release(l), k')
  {
    ReleaseStep(d, a, l, ch, k);
    NotedStep(d, a, Release(l), k, Uncounted(a, l));
  }

  lemma WakeLockStep(d: Shared, a: AgentId, p: CallPc, ch: Choice, k: Change)
    requires RunWakeLock(d, a, p, ch) == Some(k) && CallBefore(d, a, p)
    ensures CallAfter(d, a, k) && CallFrame(d, a, p, k)
  {
    match p
    case Acquire(l) => NotedAcquire(d, a, l, RunAcquire(d, l).value);
    case ReleaseEnter(l) =>
      NotedReleaseEnter(d, a, l, l in d.wakeLocks && d.wakeLocks[l].once == Ran, RunReleaseEnter(d, a, l).value);
    case Release(l) => NotedRelease(d, a, l, ch, RunRelease(d, l, ch).value);
    case _ => PassingAfter(d, a, p, ch, k); PassingFrame(d, a, p, ch, k);
  }

  lemma PublishStep(d: Shared, a: AgentId, l: LockId, k: Change)
    requires Finish(d, Publish(l)) == Some(k) && CallBefore(d, a, NotifyInvoke(Publish(l), 0))
    ensures CallAfter(d, a, k) && CallFrame(d, a, NotifyInvoke(Publish(l), 0), k)
  {
    assert Sane(d.wakeLocks[l]);
    CountedSame(d.wakeLocks, l, d.wakeLocks[l].(published := true));
  }

  lemma FinishOnceStep(d: Shared, a: AgentId, l: LockId, k: Change)
    requires Finish(d, FinishOnce(l)) == Some(k) && CallBefore(d, a, NotifyInvoke(FinishOnce(l), 0))
    ensures CallAfter(d, a, k) && CallFrame(d, a, NotifyInvoke(FinishOnce(l), 0), k)
  {
    assert Sane(d.wakeLocks[l]);
    CountedSame(d.wakeLocks, l, d.wakeLocks[l].(once := Ran));
  }

  lemma FinishStep(d: Shared, a: AgentId, after: After, k: Change)
    requires Finish(d, after) == Some(k) && CallBefore(d, a, NotifyInvoke(after, 0))
    ensures CallAfter(d, a, k) && CallFrame(d, a, NotifyInvoke(after, 0), k)
  {
    match after
    case Publish(l) => PublishStep(d, a, l, k);
    case FinishOnce(l) => FinishOnceStep(d, a, l, k);
  }

  lemma CallbackFrame(d: Shared, a: AgentId, p: CallPc, ch: Choice, k: Change)
    requires RunCallbacks(d, a, p, ch) == Some(k) && !(p.NotifyInvoke? && p.left == 0)
    ensures CallFrame(d, a, p, k)
  {
    Appended(d, a, WakelockCopied(a, ch.copies));
    Appended(d, a, WakelockInvoked(a));
    Appended(d, a, RegistryChanged(a));
    LoggingFrame(d, a, p, k);
  }

  lemma CallbackAfter(d: Shared, a: AgentId, p: CallPc, ch: Choice, k: Change)
    requires RunCallbacks(d, a, p, ch) == Some(k) && CallBefore(d, a, p) && !(p.NotifyInvoke? && p.left == 0)
    ensures CallAfter(d, a, k)
  {
    assert k.d.wakeLocks == d.wakeLocks;
  }

  lemma CallbacksStep(d: Shared, a: AgentId, p: CallPc, ch: Choice, k: Change)
    requires RunCallbacks(d, a, p, ch) == Some(k) && CallBefore(d, a, p)
    ensures CallAfter(d, a, k) && CallFrame(d, a, p, k)
  {
    if p.NotifyInvoke? && p.left == 0 {
      FinishStep(d, a, p.after, k);
    } else {
      CallbackAfter(d, a, p, ch, k);
      CallbackFrame(d, a, p, ch, k);
    }
  }

  lemma CallStep(d: Shared, a: AgentId, p: CallPc, ch: Choice, k: Change)
    requires RunCall(d, a, p, ch) == Some(k) && CallBefore(d, a, p)
    ensures CallAfter(d, a, k) && CallFrame(d, a, p, k)
  {
    if RunControl(d, a, p, ch) == Some(k) { ControlStep(d, a, p, ch, k); }
    else if RunWakeLock(d, a, p, ch) == Some(k) { WakeLockStep(d, a, p, ch, k); }
    else { CallbacksStep(d, a, p, ch, k); }
  }

  lemma EnterAcquireStep(d: Shared, a: AgentId, kind: Kind, l: LockId, k: Change)
    requires StartOf(d, a, EnterAcquire(kind, l)) == Some(k)
    requires FlagInv(d) && CountInv(d) && OnceAt(d.wakeLocks, a, None)
    ensures CallAfter(d, a, k) && k.next.Some? && CallFrame(d, a, DisableLock, k)
  {
    CountedSame(d.wakeLocks, l, WakeLock(a, 0, 0, false, NotRun));
  }

  lemma StartStep(d: Shared, a: AgentId, entry: Entry, k: Change)
    requires StartOf(d, a, entry) == Some(k)
    requires FlagInv(d) && CountInv(d) && OnceAt(d.wakeLocks, a, None)
    ensures CallAfter(d, a, k) && k.next.Some? && CallFrame(d, a, DisableLock, k) && k.d.log == d.log
  {
    if entry.EnterAcquire? { EnterAcquireStep(d, a, entry.kind, entry.l, k); }
  }

  lemma EntryStep(d: Shared, a: AgentId, entry: Entry, k: Change)
    requires RunEntry(d, a, entry) == Some(k)
    requires FlagInv(d) && CountInv(d) && OnceAt(d.wakeLocks, a, None)
    ensures CallAfter(d, a, k) && k.next.Some? && CallFrame(d, a, DisableLock, k)
  {
    var k0 := StartOf(d, a, entry).value;
    StartStep(d, a, entry, k0);
    NotedStep(d, a, DisableLock, k0, Entered(a, entry));
  }
}
