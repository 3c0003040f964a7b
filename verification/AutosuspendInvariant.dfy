/** What holds at each program point of the autosuspend protocol, and of the shared data throughout.
    Every assertion speaks about the shared data and one agent, so that a step has to be checked only
    against its own agent and against one other. */
module AutosuspendInvariant {
  import opened Common
  import opened Autosuspend
  import opened AutosuspendLocks
  import B = Backoff

  // ----- flags and tokens

  /** Enabled exactly while a client token is registered, and then a thread has been created. */
  ghost predicate FlagInv(d: Shared) {
    Distinct(d.tokens) && (d.enabled <==> d.tokens != []) && (d.enabled ==> d.created)
  }

  predicate FlagAt(d: Shared, t: ThreadPc) {
    d.created == !t.Exiting?
  }

  /** What the thread has established about counter, tokens and wakeup count. */
  predicate CheckAt(d: Shared, t: ThreadPc) {
    match t
    case CounterCheck(count) => count != ""
    case CounterWait(count) => count != ""
    case CounterLock(count) => count != ""
    case TokensLock(count) => count != ""
    case BothLock(count) => count != ""
    case FinalCheck(count) => count != ""
    case WriteCount(count) => count != "" && d.counter == 0 && d.tokens != []
    case WriteMem(count) => count != "" && d.counter == 0 && d.tokens != []
    case _ => true
  }

  // ----- wake locks

  /** The wake locks that have incremented the counter and not decremented it. */
  function CountedLocks(w: map<LockId, WakeLock>): set<LockId> {
    set l | l in w && w[l].incs > w[l].decs
  }

  predicate Sane(w: WakeLock) {
    && w.decs <= w.incs <= 1
    && (w.once == NotRun ==> w.decs == 0)
    && (w.once == Ran ==> w.decs == 1)
    && (w.published ==> w.incs == 1)
    && (w.once != NotRun ==> w.published)
  }

  ghost predicate CountInv(d: Shared) {
    && d.counter == |CountedLocks(d.wakeLocks)| % COUNTER_MODULUS
    && (forall l :: l in d.wakeLocks ==> Sane(d.wakeLocks[l]))
  }

  /** The call runs the release body of l. */
  predicate Releasing(p: CallPc, l: LockId) {
    p in {ReleaseLock(l), Release(l), DropRelease(l), ReleaseStat(l)} ||
    ((p.NotifyLock? || p.NotifyCopy? || p.NotifyInvoke?) && p.after == FinishOnce(l))
  }

  predicate AfterAt(w: map<LockId, WakeLock>, a: AgentId, after: After) {
    match after
    case Publish(l) => l in w && w[l].incs == 1
    case FinishOnce(l) => l in w && w[l].once == Running(a) && w[l].decs == 1
  }

  /** What a wake-lock call knows about its lock. */
  predicate CallAt(w: map<LockId, WakeLock>, a: AgentId, p: CallPc) {
    match p
    case AcquireLock(l) => l in w && w[l].creator == a && w[l].incs == 0
    case Acquire(l) => l in w && w[l].creator == a && w[l].incs == 0
    case DropAcquire(l) => AfterAt(w, a, Publish(l))
    case AcquireStat(l) => AfterAt(w, a, Publish(l))
    case ReleaseEnter(l) => l in w && w[l].published
    case ReleaseLock(l) => l in w && w[l].once == Running(a) && w[l].decs == 0
    case Release(l) => l in w && w[l].once == Running(a) && w[l].decs == 0
    case DropRelease(l) => AfterAt(w, a, FinishOnce(l))
    case ReleaseStat(l) => AfterAt(w, a, FinishOnce(l))
    case NotifyLock(after) => AfterAt(w, a, after)
    case NotifyCopy(after) => AfterAt(w, a, after)
    case NotifyInvoke(after, _) => AfterAt(w, a, after)
    case _ => true
  }

  /** A once flag that runs is run by an agent inside the body. */
  ghost predicate OnceAt(w: map<LockId, WakeLock>, a: AgentId, o: Option<Pc>) {
    forall l :: l in w && w[l].once == Running(a) ==> o.Some? && o.value.Call? && Releasing(o.value.p, l)
  }

  // ----- the condition variable

  /** An agent waits un-notified only with a reason to wait. */
  ghost predicate WaitAt(d: Shared, a: AgentId, o: Option<Pc>) {
    a in d.waiters ==>
      && o.Some? && o.value.Thread? && d.enabled
      && (o.value.t.Sleeping? || (o.value.t.CounterWait? && CountedLocks(d.wakeLocks) != {}))
  }

  // ----- time

  predicate Ready(d: Shared) {
    d.writes == [] || d.now >= d.writes[|d.writes| - 1].at + d.sleeper.sleepTime
  }

  predicate Due(d: Shared, deadline: int, span: int) {
    span == d.sleeper.sleepTime &&
    (d.writes == [] || deadline >= d.writes[|d.writes| - 1].at + d.sleeper.sleepTime)
  }

  /** Points the thread reaches only after a full timed wait since the last write of "mem". */
  predicate Rests(d: Shared, t: ThreadPc) {
    match t
    case Head(shouldSleep) => !shouldSleep
    case SleepLock(_, _, timedOut) => timedOut
    case SleepCheck(_, _, timedOut) => timedOut
    case ReadCount(_) | CountLock(_, _) | CountCheck(_, _) | CounterCheck(_) | CounterWait(_)
       | CounterLock(_) | TokensLock(_) | BothLock(_) | FinalCheck(_) | WriteCount(_) | WriteMem(_) => true
    case _ => false
  }

  predicate RestAt(d: Shared, t: ThreadPc) {
    && (Rests(d, t) ==> Ready(d))
    && (t.Sleeping? || t.SleepLock? || t.SleepCheck? ==> Due(d, t.deadline, t.span))
  }

  /** Consecutive writes of "mem" are at least the later one's sleep time apart. */
  predicate Spaced(writes: seq<Write>) {
    forall i :: 0 < i < |writes| ==> writes[i].at >= writes[i - 1].at + writes[i].sleepTime
  }

  predicate RestInv(d: Shared) {
    Spaced(d.writes) && (d.writes != [] ==> d.writes[|d.writes| - 1].at <= d.now)
  }

  /** Points before the statistics of a completed wait are recorded. */
  predicate Owes(d: Shared, t: ThreadPc) {
    (Rests(d, t) && !t.SleepLock? && !t.SleepCheck?) || t.Wrote? || t.DropTokens? || t.UpdateSleep?
  }

  predicate OweAt(d: Shared, t: ThreadPc) {
    && (Owes(d, t) ==> d.sleeper.info.sleepMillis + d.sleeper.sleepTime <= d.waited)
    && (t.Sleeping? || t.SleepLock? || t.SleepCheck? ==>
          t.span == d.sleeper.sleepTime && (t.span >= 0 ==> d.waited + t.span <= t.deadline))
    && ((t.SleepLock? || t.SleepCheck?) && t.timedOut ==> d.now >= t.deadline)
  }

  predicate OweInv(d: Shared) {
    d.sleeper.info.sleepMillis <= d.waited <= d.now
  }

  // ----- counts of attempts

  function One(b: bool): nat {
    if b then 1 else 0
  }

  predicate StatAt(d: Shared, t: ThreadPc) {
    && |d.writes| == |d.outcomes| + One(t.Wrote? || t.DropTokens? || t.UpdateSleep?)
    && |d.outcomes| == |d.recorded| + One(t.RecordWakeup?)
    && |d.recorded| == d.rounds + One(t.WakeupLock? || t.WakeupCopy? || t.WakeupInvoke?)
  }

  predicate Settled(d: Shared) {
    |d.writes| == |d.outcomes| == |d.recorded| == d.rounds
  }

  /** The sleeper after a history of outcomes. */
  function Replayed(c: Service, h: seq<B.Outcome>): B.Sleeper {
    if h == [] then c.initial else c.update(Replayed(c, h[..|h| - 1]), h[|h| - 1])
  }

  ghost predicate StatInv(c: Service, d: Shared) {
    && (!d.created ==> Settled(d))
    && |d.writes| <= |d.outcomes| + 1
    && d.sleeper == Replayed(c, d.outcomes)
    && (forall i :: 0 <= i < |d.writes| ==> d.writes[i].sleepTime == Replayed(c, d.outcomes[..i]).sleepTime)
  }

  // ----- the log

  /** a is at the loop head, or reads the wakeup count. */
  predicate Rereads(e: Event, a: AgentId) {
    e.who == a && (e.Stopped? || e.WaitBegun? || e.NoWait? || e.CountRead?)
  }

  /** a has read count in this iteration of its loop. */
  ghost predicate ReadSince(log: seq<Event>, a: AgentId, count: string) {
    exists j :: 0 <= j < |log| && log[j] == CountRead(a, count) &&
                forall k :: j < k < |log| ==> !Rereads(log[k], a)
  }

  /** a has written count, read in the same iteration, and not left mAutosuspendLock since. */
  ghost predicate WrittenSince(log: seq<Event>, a: AgentId, count: string) {
    exists j :: 0 <= j < |log| && log[j] == CountWritten(a, count, true) && ReadSince(log[..j], a, count) &&
                forall k :: j < k < |log| ==> log[k] != Unlocked(a)
  }

  /** Every write of "mem" by the thread follows, in one hold of the mutex, a write of the nonempty
      wakeup count read in the same iteration. */
  ghost predicate LogInv(log: seq<Event>) {
    forall i :: 0 <= i < |log| && log[i].MemWritten? ==>
      exists count: string :: count != "" && WrittenSince(log[..i], log[i].who, count)
  }

  ghost predicate LogAt(log: seq<Event>, a: AgentId, t: ThreadPc) {
    match t
    case CountLock(_, count) => ReadSince(log, a, count)
    case CountCheck(_, count) => ReadSince(log, a, count)
    case CounterCheck(count) => ReadSince(log, a, count)
    case CounterWait(count) => ReadSince(log, a, count)
    case CounterLock(count) => ReadSince(log, a, count)
    case TokensLock(count) => ReadSince(log, a, count)
    case BothLock(count) => ReadSince(log, a, count)
    case FinalCheck(count) => ReadSince(log, a, count)
    case WriteCount(count) => ReadSince(log, a, count)
    case WriteMem(count) => WrittenSince(log, a, count)
    case _ => true
  }

  // ----- all of it

  /** The shared data, at every moment. */
  ghost predicate SharedInv(c: Service, d: Shared) {
    FlagInv(d) && CountInv(d) && RestInv(d) && OweInv(d) && StatInv(c, d) && LogInv(d.log)
  }

  /** The shared data, seen from the thread. */
  ghost predicate ThreadAt(d: Shared, a: AgentId, t: ThreadPc) {
    FlagAt(d, t) && CheckAt(d, t) && RestAt(d, t) && OweAt(d, t) && StatAt(d, t) && LogAt(d.log, a, t)
  }

  /** The shared data, seen from an agent id, in use or not. */
  ghost predicate AgentAt(d: Shared, a: AgentId, o: Option<Pc>) {
    && OnceAt(d.wakeLocks, a, o) && WaitAt(d, a, o)
    && (o.Some? && o.value.Thread? ==> ThreadAt(d, a, o.value.t))
    && (o.Some? && o.value.Call? ==> CallAt(d.wakeLocks, a, o.value.p))
  }

  function PcOf(s: State, a: AgentId): Option<Pc> {
    if a in s.agents then Some(s.agents[a]) else None
  }

  /** At most one thread is live, and one not about to return exists exactly while created. */
  ghost predicate ThreadInv(s: State) {
    && (forall a, b :: a in s.agents && b in s.agents && s.agents[a].Thread? && s.agents[b].Thread? ==> a == b)
    && (s.d.created ==> exists a :: a in s.agents && s.agents[a].Thread? && !s.agents[a].t.Exiting?)
  }

  ghost predicate Inv(c: Service, s: State) {
    && LockInv(s)
    && ThreadInv(s)
    && SharedInv(c, s.d)
    && (forall a: AgentId :: AgentAt(s.d, a, PcOf(s, a)))
  }

  /** What the protocol needs of its two computations. */
  ghost predicate Fits(c: Service) {
    && c.initial.info.sleepMillis == 0
    && (forall s: B.Sleeper, o: B.Outcome :: c.update(s, o).info.sleepMillis == s.info.sleepMillis + s.sleepTime)
    && (forall x :: c.parse(x) != [])
  }
}
