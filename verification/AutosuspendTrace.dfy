/** Every run follows the script, and the shared data is what its events tell. */
module AutosuspendTrace {
  import opened Common
  import opened Autosuspend
  import opened AutosuspendLocks
  import opened AutosuspendInvariant
  import opened AutosuspendProof
  import opened AutosuspendScript
  import B = Backoff

  // ----- program points and phases

  function PhaseOf(t: ThreadPc): Phase {
    match t
    case Start | Exiting | HeadLock => Top(true)
    case Head(sleep) => Top(sleep)
    case Sleeping(deadline, _) => Waiting(deadline)
    case SleepLock(deadline, _, _) => Waiting(deadline)
    case SleepCheck(deadline, _, _) => Waiting(deadline)
    case ReadCount(sleep) => Reading(sleep)
    case CountLock(sleep, count) => if count == "" then Top(sleep) else Checking(count)
    case CountCheck(sleep, count) => if count == "" then Top(sleep) else Checking(count)
    case CounterCheck(count) => Checking(count)
    case CounterWait(count) => Checking(count)
    case CounterLock(count) => Checking(count)
    case TokensLock(count) => Looking(count)
    case BothLock(count) => Looking(count)
    case FinalCheck(count) => Looking(count)
    case WriteCount(count) => Writing(count)
    case WriteMem(_) => Suspending
    case Wrote(_) | DropTokens(_) | UpdateSleep(_) => Timing
    case RecordWakeup(_) => Explaining
    case WakeupLock | WakeupCopy => Copying
    case WakeupInvoke(left) => if left == 0 then Top(true) else Telling(left)
  }

  function DutyAt(p: CallPc): Duty {
    match p
    case EnableLock(token) => OwesEnable(token)
    case EnableBothLock(token) => OwesEnable(token)
    case Enable(token) => OwesEnable(token)
    case DisableLock | DisableBothLock | Disable => OwesDisable
    case ForceLock | Force => OwesForce
    case AcquireLock(l) => OwesCount(l)
    case Acquire(l) => OwesCount(l)
    case DropAcquire(l) => OwesRecord(l, true)
    case AcquireStat(l) => OwesRecord(l, true)
    case ReleaseEnter(l) => OwesOnce(l)
    case ReleaseLock(l) => OwesUncount(l)
    case Release(l) => OwesUncount(l)
    case DropRelease(l) => OwesRecord(l, false)
    case ReleaseStat(l) => OwesRecord(l, false)
    case NotifyLock(_) | NotifyCopy(_) => OwesCopy
    case NotifyInvoke(_, left) => if left == 0 then OwesReturn else OwesTell(left)
    case RegisterLock | Register | RegisterWakelockLock | RegisterWakelock => OwesRegistry
    case DeathLock | DeathBothLock | Death => OwesRegistry
    case DropBoth | DropLast | DropForce | DeathDrop | Return => OwesReturn
  }

  // ----- the script over a longer run

  lemma FoldMore<S(!new)>(log: seq<Event>, start: S, step: (S, Event) -> S, e: Event)
    ensures Fold(log + [e], start, step) == step(Fold(log, start, step), e)
  {
    assert (log + [e])[..|log|] == log;
  }

  /** Once astray, always astray: that nobody is astray now means nobody ever was. */
  lemma {:induction false} StaysAstray(log: seq<Event>, n: nat, a: AgentId)
    requires n <= |log|
    ensures DutyAfter(log[..n], a) == Astray ==> DutyAfter(log, a) == Astray
    ensures PhaseAfter(log[..n]) == Lost ==> PhaseAfter(log) == Lost
  {
    if n == |log| {
      assert log[..n] == log;
    } else {
      var p, e := log[..|log| - 1], log[|log| - 1];
      assert p[..n] == log[..n];
      assert p + [e] == log;
      StaysAstray(p, n, a);
      FoldMore(p, Idle, Performing(a), e);
      FoldMore(p, Top(true), Follow, e);
    }
  }

  /** What was done since the last unlocking is in the log, with no unlocking after it. */
  lemma {:induction false} DoneSince(log: seq<Event>, a: AgentId, e: Event) returns (j: nat)
    requires e in SinceUnlock(log, a)
    ensures j < |log| && log[j] == e && e.who == a && forall k :: j < k < |log| ==> log[k] != Unlocked(a)
  {
    var p, f := log[..|log| - 1], log[|log| - 1];
    if f.who == a && f == e {
      j := |log| - 1;
    } else {
      j := DoneSince(p, a, e);
    }
  }

  // ----- what a step tells

  /** The event a step of the thread tells, if any, apart from leaving mAutosuspendLock. */
  function ThreadSays(d: Shared, a: AgentId, t: ThreadPc, ch: Choice): Option<Event> {
    match t
    case Head(sleep) =>
      Some(if !d.enabled then Stopped(a) else if sleep then WaitBegun(a, d.now, d.sleeper.sleepTime) else NoWait(a))
    case SleepCheck(_, _, timedOut) => if d.enabled && !timedOut then None else Some(WaitOver(a, d.now, d.enabled))
    case ReadCount(_) => Some(CountRead(a, ch.text))
    case CounterCheck(_) => Some(CounterSeen(a, d.enabled, d.counter))
    case FinalCheck(_) => Some(TokensSeen(a, d.tokens != [], d.counter))
    case WriteCount(count) => Some(CountWritten(a, count, ch.ok))
    case WriteMem(_) => Some(MemWritten(a, d.now, ch.ok))
    case UpdateSleep(_) => Some(TimesRead(a, ch.suspendTime, ch.overhead))
    case RecordWakeup(_) => Some(ReasonsRead(a, ch.reasons))
    case WakeupCopy => Some(WakeupCopied(a, ch.copies))
    case WakeupInvoke(left) => if left > 0 then Some(WakeupInvoked(a)) else None
    case _ => None
  }

  function CallSays(d: Shared, a: AgentId, p: CallPc, ch: Choice): Option<Event> {
    match p
    case Enable(token) => Some(EnabledBy(a, token))
    case Disable => Some(DisabledBy(a))
    case Force => Some(Forced(a, ch.ok))
    case Acquire(l) => Some(Counted(a, l))
    case AcquireStat(l) => Some(Recorded(a, l, true))
    case ReleaseEnter(l) => Some(OnceSeen(a, l, l in d.wakeLocks && d.wakeLocks[l].once == Ran))
    case Release(l) => Some(Uncounted(a, l))
    case ReleaseStat(l) => Some(Recorded(a, l, false))
    case NotifyCopy(_) => Some(WakelockCopied(a, ch.copies))
    case NotifyInvoke(_, left) => if left > 0 then Some(WakelockInvoked(a)) else None
    case Register | RegisterWakelock | Death => Some(RegistryChanged(a))
    case Return => Some(Returned(a))
    case _ => None
  }

  function With(log: seq<Event>, o: Option<Event>): seq<Event> {
    if o.Some? then log + [o.value] else log
  }

  /** The log has grown by what was said, and perhaps by leaving mAutosuspendLock. */
  predicate Grows(log: seq<Event>, log': seq<Event>, o: Option<Event>, a: AgentId) {
    log' == With(log, o) || log' == With(log, o) + [Unlocked(a)]
  }

  /** It has, exactly if the step leaves that mutex. */
  predicate Speaks(d: Shared, k: Change, o: Option<Event>, a: AgentId) {
    k.d.log == With(d.log, o) + (if k.drop == Some(AutosuspendMutex) then [Unlocked(a)] else [])
  }

  lemma SpeakingGrows(d: Shared, k: Change, o: Option<Event>, a: AgentId)
    requires Speaks(d, k, o, a)
    ensures Grows(d.log, k.d.log, o, a)
  {
    assert With(d.log, o) + [] == With(d.log, o);
  }

  lemma FoldGrows<S(!new)>(log: seq<Event>, log': seq<Event>, o: Option<Event>, a: AgentId,
                           start: S, step: (S, Event) -> S)
    requires Grows(log, log', o, a) && forall s: S :: step(s, Unlocked(a)) == s
    ensures Fold(log', start, step) == if o.Some? then step(Fold(log, start, step), o.value) else Fold(log, start, step)
  {
    if o.Some? { FoldMore(log, start, step, o.value); }
    FoldMore(With(log, o), start, step, Unlocked(a));
  }

  lemma SleepSays(d: Shared, a: AgentId, t: ThreadPc, ch: Choice, k: Change)
    requires RunSleep(d, a, t) == Some(k)
    ensures Speaks(d, k, ThreadSays(d, a, t, ch), a)
  {
  }

  lemma CountSays(d: Shared, a: AgentId, t: ThreadPc, ch: Choice, k: Change)
    requires RunCount(d, a, t, ch) == Some(k)
    ensures Speaks(d, k, ThreadSays(d, a, t, ch), a)
  {
  }

  lemma WriteSays(d: Shared, a: AgentId, t: ThreadPc, ch: Choice, k: Change)
    requires RunWrite(d, a, t, ch) == Some(k)
    ensures Speaks(d, k, ThreadSays(d, a, t, ch), a)
  {
  }

  lemma ReportSays(c: Service, d: Shared, a: AgentId, t: ThreadPc, ch: Choice, k: Change)
    requires RunReport(c, d, a, t, ch) == Some(k)
    ensures Speaks(d, k, ThreadSays(d, a, t, ch), a)
  {
  }

  lemma ThreadSpeaks(c: Service, d: Shared, a: AgentId, t: ThreadPc, ch: Choice, k: Change)
    requires RunThread(c, d, a, t, ch) == Some(k)
    ensures Speaks(d, k, ThreadSays(d, a, t, ch), a)
  {
    if RunSleep(d, a, t) == Some(k) { SleepSays(d, a, t, ch, k); }
    else if RunCount(d, a, t, ch) == Some(k) { CountSays(d, a, t, ch, k); }
    else if RunWrite(d, a, t, ch) == Some(k) { WriteSays(d, a, t, ch, k); }
    else { ReportSays(c, d, a, t, ch, k); }
  }

  lemma ControlSays(d: Shared, a: AgentId, p: CallPc, ch: Choice, k: Change)
    requires RunControl(d, a, p, ch) == Some(k)
    ensures Speaks(d, k, CallSays(d, a, p, ch), a)
  {
  }

  lemma WakeLockSays(d: Shared, a: AgentId, p: CallPc, ch: Choice, k: Change)
    requires RunWakeLock(d, a, p, ch) == Some(k)
    ensures Speaks(d, k, CallSays(d, a, p, ch), a)
  {
  }

  lemma CallbacksSays(d: Shared, a: AgentId, p: CallPc, ch: Choice, k: Change)
    requires RunCallbacks(d, a, p, ch) == Some(k)
    ensures Speaks(d, k, CallSays(d, a, p, ch), a)
  {
  }

  lemma CallSpeaks(d: Shared, a: AgentId, p: CallPc, ch: Choice, k: Change)
    requires RunCall(d, a, p, ch) == Some(k)
    ensures Speaks(d, k, CallSays(d, a, p, ch), a)
  {
    if RunControl(d, a, p, ch) == Some(k) { ControlSays(d, a, p, ch, k); }
    else if RunWakeLock(d, a, p, ch) == Some(k) { WakeLockSays(d, a, p, ch, k); }
    else { CallbacksSays(d, a, p, ch, k); }
  }

  lemma EntrySays(d: Shared, a: AgentId, entry: Entry, k: Change)
    requires RunEntry(d, a, entry) == Some(k)
    ensures Speaks(d, k, Some(Entered(a, entry)), a)
  {
  }

  // ----- what is said is what the script asks for

  function Followed(p: Phase, o: Option<Event>): Phase {
    if o.Some? then Follow(p, o.value) else p
  }

  /** A wait that timed out has lasted. */
  predicate Lasted(d: Shared, t: ThreadPc) {
    (t.SleepLock? || t.SleepCheck?) && t.timedOut ==> d.now >= t.deadline
  }

  /** Where the thread is after a step. */
  function PhaseNext(k: Change): Phase {
    if k.next.Some? && k.next.value.Thread? then PhaseOf(k.next.value.t) else Top(true)
  }

  predicate LastedNext(k: Change) {
    k.next.Some? && k.next.value.Thread? ==> Lasted(k.d, k.next.value.t)
  }

  lemma HeadFollows(d: Shared, a: AgentId, t: ThreadPc, ch: Choice, k: Change)
    requires RunSleep(d, a, t) == Some(k) && t.Head?
    ensures PhaseNext(k) == Followed(PhaseOf(t), ThreadSays(d, a, t, ch)) && LastedNext(k)
  {
  }

  lemma SleepFollows(d: Shared, a: AgentId, t: ThreadPc, ch: Choice, k: Change)
    requires RunSleep(d, a, t) == Some(k) && Lasted(d, t)
    ensures PhaseNext(k) == Followed(PhaseOf(t), ThreadSays(d, a, t, ch)) && LastedNext(k)
  {
    if t.Head? { HeadFollows(d, a, t, ch, k); }
  }

  lemma CountFollows(d: Shared, a: AgentId, t: ThreadPc, ch: Choice, k: Change)
    requires RunCount(d, a, t, ch) == Some(k)
    ensures PhaseNext(k) == Followed(PhaseOf(t), ThreadSays(d, a, t, ch)) && LastedNext(k)
  {
  }

  lemma WriteFollows(d: Shared, a: AgentId, t: ThreadPc, ch: Choice, k: Change)
    requires RunWrite(d, a, t, ch) == Some(k)
    ensures PhaseNext(k) == Followed(PhaseOf(t), ThreadSays(d, a, t, ch)) && LastedNext(k)
  {
  }

  lemma TellingFollows(c: Service, d: Shared, a: AgentId, t: ThreadPc, ch: Choice, k: Change)
    requires RunReport(c, d, a, t, ch) == Some(k) && (t.WakeupCopy? || t.WakeupInvoke?)
    ensures PhaseNext(k) == Followed(PhaseOf(t), ThreadSays(d, a, t, ch)) && LastedNext(k)
  {
  }

  lemma ReportFollows(c: Service, d: Shared, a: AgentId, t: ThreadPc, ch: Choice, k: Change)
    requires RunReport(c, d, a, t, ch) == Some(k)
    ensures PhaseNext(k) == Followed(PhaseOf(t), ThreadSays(d, a, t, ch)) && LastedNext(k)
  {
    if t.WakeupCopy? || t.WakeupInvoke? { TellingFollows(c, d, a, t, ch, k); }
  }

  lemma ThreadFollows(c: Service, d: Shared, a: AgentId, t: ThreadPc, ch: Choice, k: Change)
    requires RunThread(c, d, a, t, ch) == Some(k) && Lasted(d, t)
    ensures PhaseNext(k) == Followed(PhaseOf(t), ThreadSays(d, a, t, ch)) && LastedNext(k)
  {
    if RunSleep(d, a, t) == Some(k) { SleepFollows(d, a, t, ch, k); }
    else if RunCount(d, a, t, ch) == Some(k) { CountFollows(d, a, t, ch, k); }
    else if RunWrite(d, a, t, ch) == Some(k) { WriteFollows(d, a, t, ch, k); }
    else { ReportFollows(c, d, a, t, ch, k); }
  }

  function Performed(p: Duty, o: Option<Event>): Duty {
    if o.Some? then Perform(p, o.value) else p
  }

  function DutyNext(k: Change): Duty {
    if k.next.Some? && k.next.value.Call? then DutyAt(k.next.value.p) else Idle
  }

  lemma ControlPerforms(d: Shared, a: AgentId, p: CallPc, ch: Choice, k: Change)
    requires RunControl(d, a, p, ch) == Some(k)
    ensures DutyNext(k) == Performed(DutyAt(p), CallSays(d, a, p, ch))
  {
  }

  lemma OnceSeenPerforms(d: Shared, a: AgentId, l: LockId, ch: Choice, k: Change)
    requires RunWakeLock(d, a, ReleaseEnter(l), ch) == Some(k)
    ensures DutyNext(k) == Performed(DutyAt(ReleaseEnter(l)), CallSays(d, a, ReleaseEnter(l), ch))
  {
  }

  lemma CountPerforms(d: Shared, a: AgentId, p: CallPc, ch: Choice, k: Change)
    requires RunWakeLock(d, a, p, ch) == Some(k) && (p.Acquire? || p.Release?)
    ensures DutyNext(k) == Performed(DutyAt(p), CallSays(d, a, p, ch))
  {
  }

  lemma WakeLockPerforms(d: Shared, a: AgentId, p: CallPc, ch: Choice, k: Change)
    requires RunWakeLock(d, a, p, ch) == Some(k)
    ensures DutyNext(k) == Performed(DutyAt(p), CallSays(d, a, p, ch))
  {
    if p.ReleaseEnter? { OnceSeenPerforms(d, a, p.l, ch, k); }
    else if p.Acquire? || p.Release? { CountPerforms(d, a, p, ch, k); }
  }

  lemma CallbacksPerforms(d: Shared, a: AgentId, p: CallPc, ch: Choice, k: Change)
    requires RunCallbacks(d, a, p, ch) == Some(k)
    ensures DutyNext(k) == Performed(DutyAt(p), CallSays(d, a, p, ch))
  {
  }

  lemma CallPerforms(d: Shared, a: AgentId, p: CallPc, ch: Choice, k: Change)
    requires RunCall(d, a, p, ch) == Some(k)
    ensures DutyNext(k) == Performed(DutyAt(p), CallSays(d, a, p, ch))
  {
    if RunControl(d, a, p, ch) == Some(k) { ControlPerforms(d, a, p, ch, k); }
    else if RunWakeLock(d, a, p, ch) == Some(k) { WakeLockPerforms(d, a, p, ch, k); }
    else { CallbacksPerforms(d, a, p, ch, k); }
  }

  lemma EntryPerforms(d: Shared, a: AgentId, entry: Entry, k: Change)
    requires RunEntry(d, a, entry) == Some(k)
    ensures DutyNext(k) == Perform(Idle, Entered(a, entry))
  {
  }

  // ----- what is said is what the data shows

  predicate FlagsAre(d: Shared, tokens: seq<Token>, count: int) {
    d.tokens == tokens && d.counter == count % COUNTER_MODULUS
  }

  /** Writes and outcomes are made of the kernel's answers. */
  predicate AttemptsAre(d: Shared, mems: seq<Mem>, times: seq<Times>) {
    && |d.writes| == |mems| && |d.outcomes| == |times| <= |mems|
    && (forall i :: 0 <= i < |mems| ==> d.writes[i].at == mems[i].at)
    && (forall i :: 0 <= i < |times| ==>
          d.outcomes[i] == B.Outcome(mems[i].ok, times[i].suspendTime, times[i].overhead))
  }

  predicate WakeupsAre(c: Service, d: Shared, contents: seq<Option<string>>) {
    |d.recorded| == |contents| && forall i :: 0 <= i < |contents| ==> d.recorded[i] == c.parse(contents[i])
  }

  /** Until it has been recorded, the thread has the answer to its last write. */
  predicate Remembers(mems: seq<Mem>, times: seq<Times>, t: ThreadPc) {
    t.Wrote? || t.DropTokens? || t.UpdateSleep? ==> |mems| == |times| + 1 && mems[|times|].ok == t.success
  }

  function Stepped<S>(step: (S, Event) -> S, s: S, o: Option<Event>): S {
    if o.Some? then step(s, o.value) else s
  }

  predicate SameData(d: Shared, d': Shared) {
    d'.tokens == d.tokens && d'.counter == d.counter && d'.writes == d.writes && d'.outcomes == d.outcomes &&
    d'.recorded == d.recorded
  }

  /** The event tells nothing of flags, answers and wakeups. */
  predicate Plain(o: Option<Event>) {
    o.Some? ==>
      && !o.value.EnabledBy? && !o.value.DisabledBy? && !o.value.Counted? && !o.value.Uncounted?
      && !o.value.MemWritten? && !o.value.TimesRead? && !o.value.ReasonsRead?
  }

  lemma SleepIsPlain(d: Shared, a: AgentId, t: ThreadPc, ch: Choice, k: Change)
    requires RunSleep(d, a, t) == Some(k)
    ensures SameData(d, k.d) && Plain(ThreadSays(d, a, t, ch))
  {
  }

  lemma CountIsPlain(d: Shared, a: AgentId, t: ThreadPc, ch: Choice, k: Change)
    requires RunCount(d, a, t, ch) == Some(k)
    ensures SameData(d, k.d) && Plain(ThreadSays(d, a, t, ch))
  {
  }

  lemma WriteIsPlain(d: Shared, a: AgentId, t: ThreadPc, ch: Choice, k: Change)
    requires RunWrite(d, a, t, ch) == Some(k) && !t.WriteMem?
    ensures SameData(d, k.d) && Plain(ThreadSays(d, a, t, ch))
  {
  }

  lemma ReportIsPlain(c: Service, d: Shared, a: AgentId, t: ThreadPc, ch: Choice, k: Change)
    requires RunReport(c, d, a, t, ch) == Some(k) && !t.UpdateSleep? && !t.RecordWakeup?
    ensures SameData(d, k.d) && Plain(ThreadSays(d, a, t, ch))
  {
  }

  /** The three points at which the thread touches such data. */
  predicate Telltale(t: ThreadPc) {
    t.WriteMem? || t.UpdateSleep? || t.RecordWakeup?
  }

  lemma ThreadIsPlain(c: Service, d: Shared, a: AgentId, t: ThreadPc, ch: Choice, k: Change)
    requires RunThread(c, d, a, t, ch) == Some(k) && !Telltale(t)
    ensures SameData(d, k.d) && Plain(ThreadSays(d, a, t, ch))
  {
    if RunSleep(d, a, t) == Some(k) { SleepIsPlain(d, a, t, ch, k); }
    else if RunCount(d, a, t, ch) == Some(k) { CountIsPlain(d, a, t, ch, k); }
    else if RunWrite(d, a, t, ch) == Some(k) { WriteIsPlain(d, a, t, ch, k); }
    else { ReportIsPlain(c, d, a, t, ch, k); }
  }

  /** The waits completed so far, and the one the thread is in. */
  predicate WaitsAre(d: Shared, s: Slept) {
    d.waited == s.total
  }

  predicate InWait(s: Slept, t: ThreadPc) {
    t.Sleeping? || t.SleepLock? || t.SleepCheck? ==> s.span == t.span
  }

  predicate InWaitNext(s: Slept, k: Change) {
    k.next.Some? && k.next.value.Thread? ==> InWait(s, k.next.value.t)
  }

  lemma SleepWaits(d: Shared, a: AgentId, t: ThreadPc, ch: Choice, k: Change, s: Slept)
    requires RunSleep(d, a, t) == Some(k) && WaitsAre(d, s) && InWait(s, t)
    ensures var s' := Stepped(Sleeps, s, ThreadSays(d, a, t, ch)); WaitsAre(k.d, s') && InWaitNext(s', k)
  {
  }

  lemma CountWaits(d: Shared, a: AgentId, t: ThreadPc, ch: Choice, k: Change, s: Slept)
    requires RunCount(d, a, t, ch) == Some(k) && WaitsAre(d, s)
    ensures var s' := Stepped(Sleeps, s, ThreadSays(d, a, t, ch)); WaitsAre(k.d, s') && InWaitNext(s', k)
  {
  }

  lemma WriteWaits(d: Shared, a: AgentId, t: ThreadPc, ch: Choice, k: Change, s: Slept)
    requires RunWrite(d, a, t, ch) == Some(k) && WaitsAre(d, s)
    ensures var s' := Stepped(Sleeps, s, ThreadSays(d, a, t, ch)); WaitsAre(k.d, s') && InWaitNext(s', k)
  {
  }

  lemma ReportWaits(c: Service, d: Shared, a: AgentId, t: ThreadPc, ch: Choice, k: Change, s: Slept)
    requires RunReport(c, d, a, t, ch) == Some(k) && WaitsAre(d, s)
    ensures var s' := Stepped(Sleeps, s, ThreadSays(d, a, t, ch)); WaitsAre(k.d, s') && InWaitNext(s', k)
  {
  }

  lemma ThreadWaits(c: Service, d: Shared, a: AgentId, t: ThreadPc, ch: Choice, k: Change, s: Slept)
    requires RunThread(c, d, a, t, ch) == Some(k) && WaitsAre(d, s) && InWait(s, t)
    ensures var s' := Stepped(Sleeps, s, ThreadSays(d, a, t, ch)); WaitsAre(k.d, s') && InWaitNext(s', k)
  {
    if RunSleep(d, a, t) == Some(k) { SleepWaits(d, a, t, ch, k, s); }
    else if RunCount(d, a, t, ch) == Some(k) { CountWaits(d, a, t, ch, k, s); }
    else if RunWrite(d, a, t, ch) == Some(k) { WriteWaits(d, a, t, ch, k, s); }
    else { ReportWaits(c, d, a, t, ch, k, s); }
  }

  /** Where the thread is blocked in the condition variable. */
  predicate Blocked(t: ThreadPc) {
    t.Sleeping? || t.CounterWait?
  }

  predicate BlocksWaiting(a: AgentId, k: Change) {
    k.next.Some? && k.next.value.Thread? && Blocked(k.next.value.t) ==> a in k.d.waiters
  }

  lemma SleepBlocks(d: Shared, a: AgentId, t: ThreadPc, k: Change)
    requires RunSleep(d, a, t) == Some(k)
    ensures BlocksWaiting(a, k)
  {
  }

  lemma CountBlocks(d: Shared, a: AgentId, t: ThreadPc, ch: Choice, k: Change)
    requires RunCount(d, a, t, ch) == Some(k)
    ensures BlocksWaiting(a, k)
  {
  }

  lemma WriteBlocks(d: Shared, a: AgentId, t: ThreadPc, ch: Choice, k: Change)
    requires RunWrite(d, a, t, ch) == Some(k)
    ensures BlocksWaiting(a, k)
  {
  }

  lemma ReportBlocks(c: Service, d: Shared, a: AgentId, t: ThreadPc, ch: Choice, k: Change)
    requires RunReport(c, d, a, t, ch) == Some(k)
    ensures BlocksWaiting(a, k)
  {
  }

  /** A thread that blocks is a waiter. */
  lemma ThreadBlocks(c: Service, d: Shared, a: AgentId, t: ThreadPc, ch: Choice, k: Change)
    requires RunThread(c, d, a, t, ch) == Some(k)
    ensures BlocksWaiting(a, k)
  {
    if RunSleep(d, a, t) == Some(k) { SleepBlocks(d, a, t, k); }
    else if RunCount(d, a, t, ch) == Some(k) { CountBlocks(d, a, t, ch, k); }
    else if RunWrite(d, a, t, ch) == Some(k) { WriteBlocks(d, a, t, ch, k); }
    else { ReportBlocks(c, d, a, t, ch, k); }
  }

  /** A call notifies waiters only when it disables or uncounts. */
  predicate Rouses(d: Shared, d': Shared, o: Option<Event>) {
    d.waiters <= d'.waiters || (o.Some? && (o.value.DisabledBy? || o.value.Uncounted?))
  }

  lemma ControlRouses(d: Shared, a: AgentId, p: CallPc, ch: Choice, k: Change)
    requires RunControl(d, a, p, ch) == Some(k)
    ensures Rouses(d, k.d, CallSays(d, a, p, ch))
  {
  }

  lemma WakeLockRouses(d: Shared, a: AgentId, p: CallPc, ch: Choice, k: Change)
    requires RunWakeLock(d, a, p, ch) == Some(k)
    ensures Rouses(d, k.d, CallSays(d, a, p, ch))
  {
  }

  lemma CallbacksRouse(d: Shared, a: AgentId, p: CallPc, ch: Choice, k: Change)
    requires RunCallbacks(d, a, p, ch) == Some(k)
    ensures Rouses(d, k.d, CallSays(d, a, p, ch))
  {
  }

  lemma CallRouses(d: Shared, a: AgentId, p: CallPc, ch: Choice, k: Change)
    requires RunCall(d, a, p, ch) == Some(k)
    ensures Rouses(d, k.d, CallSays(d, a, p, ch))
  {
    if RunControl(d, a, p, ch) == Some(k) { ControlRouses(d, a, p, ch, k); }
    else if RunWakeLock(d, a, p, ch) == Some(k) { WakeLockRouses(d, a, p, ch, k); }
    else { CallbacksRouse(d, a, p, ch, k); }
  }

  /** Everything at once. */
  ghost predicate DataIs(c: Service, d: Shared, tokens: seq<Token>, count: int, mems: seq<Mem>, times: seq<Times>,
                         contents: seq<Option<string>>) {
    FlagsAre(d, tokens, count) && AttemptsAre(d, mems, times) && WakeupsAre(c, d, contents)
  }

  /** The same after one more event. */
  ghost predicate DataFollows(c: Service, d: Shared, o: Option<Event>, tokens: seq<Token>, count: int, mems: seq<Mem>,
                              times: seq<Times>, contents: seq<Option<string>>) {
    DataIs(c, d, Stepped(Registering, tokens, o), Stepped(Counting, count, o), Stepped(Suspends, mems, o),
           Stepped(Measures, times, o), Stepped(Explanations, contents, o))
  }

  lemma PlainFollows(c: Service, d: Shared, d': Shared, o: Option<Event>, tokens: seq<Token>, count: int,
                     mems: seq<Mem>, times: seq<Times>, contents: seq<Option<string>>)
    requires DataIs(c, d, tokens, count, mems, times, contents) && SameData(d, d') && Plain(o)
    ensures DataFollows(c, d', o, tokens, count, mems, times, contents)
    ensures Stepped(Suspends, mems, o) == mems && Stepped(Measures, times, o) == times
  {
  }

  lemma MemFollows(c: Service, d: Shared, a: AgentId, t: ThreadPc, ch: Choice, k: Change, tokens: seq<Token>,
                   count: int, mems: seq<Mem>, times: seq<Times>, contents: seq<Option<string>>)
    requires RunWrite(d, a, t, ch) == Some(k) && t.WriteMem? && |d.writes| == |d.outcomes|
    requires DataIs(c, d, tokens, count, mems, times, contents)
    ensures var o := ThreadSays(d, a, t, ch);
            DataFollows(c, k.d, o, tokens, count, mems, times, contents) && k.next == Some(Thread(Wrote(ch.ok))) &&
            Remembers(Stepped(Suspends, mems, o), Stepped(Measures, times, o), Wrote(ch.ok))
  {
  }

  lemma OutcomeFollows(c: Service, d: Shared, a: AgentId, t: ThreadPc, ch: Choice, k: Change, tokens: seq<Token>,
                       count: int, mems: seq<Mem>, times: seq<Times>, contents: seq<Option<string>>)
    requires RunReport(c, d, a, t, ch) == Some(k) && t.UpdateSleep? && Remembers(mems, times, t)
    requires DataIs(c, d, tokens, count, mems, times, contents)
    ensures DataFollows(c, k.d, ThreadSays(d, a, t, ch), tokens, count, mems, times, contents)
    ensures k.next == Some(Thread(RecordWakeup(t.success)))
  {
  }

  lemma ReasonsFollow(c: Service, d: Shared, a: AgentId, t: ThreadPc, ch: Choice, k: Change, tokens: seq<Token>,
                      count: int, mems: seq<Mem>, times: seq<Times>, contents: seq<Option<string>>)
    requires RunReport(c, d, a, t, ch) == Some(k) && t.RecordWakeup? && Fits(c)
    requires DataIs(c, d, tokens, count, mems, times, contents)
    ensures DataFollows(c, k.d, ThreadSays(d, a, t, ch), tokens, count, mems, times, contents)
    ensures k.next == Some(Thread(WakeupLock))
  {
  }

  /** A thread that has the answer keeps it. */
  predicate Carries(t: ThreadPc, k: Change) {
    k.next.Some? && k.next.value.Thread? ==>
      var n := k.next.value.t;
      n.Wrote? || n.DropTokens? || n.UpdateSleep? ==>
        (t.Wrote? || t.DropTokens? || t.UpdateSleep?) && n.success == t.success
  }

  lemma SleepCarries(d: Shared, a: AgentId, t: ThreadPc, k: Change)
    requires RunSleep(d, a, t) == Some(k)
    ensures Carries(t, k)
  {
  }

  lemma CountCarries(d: Shared, a: AgentId, t: ThreadPc, ch: Choice, k: Change)
    requires RunCount(d, a, t, ch) == Some(k)
    ensures Carries(t, k)
  {
  }

  lemma WriteCarries(d: Shared, a: AgentId, t: ThreadPc, ch: Choice, k: Change)
    requires RunWrite(d, a, t, ch) == Some(k) && !t.WriteMem?
    ensures Carries(t, k)
  {
  }

  lemma ReportCarries(c: Service, d: Shared, a: AgentId, t: ThreadPc, ch: Choice, k: Change)
    requires RunReport(c, d, a, t, ch) == Some(k)
    ensures Carries(t, k)
  {
  }

  lemma ThreadCarries(c: Service, d: Shared, a: AgentId, t: ThreadPc, ch: Choice, k: Change)
    requires RunThread(c, d, a, t, ch) == Some(k) && !t.WriteMem?
    ensures Carries(t, k)
  {
    if RunSleep(d, a, t) == Some(k) { SleepCarries(d, a, t, k); }
    else if RunCount(d, a, t, ch) == Some(k) { CountCarries(d, a, t, ch, k); }
    else if RunWrite(d, a, t, ch) == Some(k) { WriteCarries(d, a, t, ch, k); }
    else { ReportCarries(c, d, a, t, ch, k); }
  }

  predicate RemembersNext(mems: seq<Mem>, times: seq<Times>, k: Change) {
    k.next.Some? && k.next.value.Thread? ==> Remembers(mems, times, k.next.value.t)
  }

  lemma ThreadData(c: Service, d: Shared, a: AgentId, t: ThreadPc, ch: Choice, k: Change, tokens: seq<Token>,
                   count: int, mems: seq<Mem>, times: seq<Times>, contents: seq<Option<string>>)
    requires RunThread(c, d, a, t, ch) == Some(k) && Fits(c) && (t.WriteMem? ==> |d.writes| == |d.outcomes|)
    requires DataIs(c, d, tokens, count, mems, times, contents) && Remembers(mems, times, t)
    ensures var o := ThreadSays(d, a, t, ch);
            DataFollows(c, k.d, o, tokens, count, mems, times, contents) &&
            RemembersNext(Stepped(Suspends, mems, o), Stepped(Measures, times, o), k)
  {
    match t
    case WriteMem(_) => MemFollows(c, d, a, t, ch, k, tokens, count, mems, times, contents);
    case UpdateSleep(_) => OutcomeFollows(c, d, a, t, ch, k, tokens, count, mems, times, contents);
    case RecordWakeup(_) => ReasonsFollow(c, d, a, t, ch, k, tokens, count, mems, times, contents);
    case _ =>
      ThreadIsPlain(c, d, a, t, ch, k);
      ThreadCarries(c, d, a, t, ch, k);
      PlainFollows(c, d, k.d, ThreadSays(d, a, t, ch), tokens, count, mems, times, contents);
  }

  // ----- and of the calls

  predicate CallTelltale(p: CallPc) {
    p.Enable? || p.Disable? || p.Acquire? || p.Release?
  }

  lemma ControlIsPlain(d: Shared, a: AgentId, p: CallPc, ch: Choice, k: Change)
    requires RunControl(d, a, p, ch) == Some(k) && !CallTelltale(p)
    ensures SameData(d, k.d) && Plain(CallSays(d, a, p, ch))
  {
  }

  lemma WakeLockIsPlain(d: Shared, a: AgentId, p: CallPc, ch: Choice, k: Change)
    requires RunWakeLock(d, a, p, ch) == Some(k) && !CallTelltale(p)
    ensures SameData(d, k.d) && Plain(CallSays(d, a, p, ch))
  {
  }

  lemma CallbacksArePlain(d: Shared, a: AgentId, p: CallPc, ch: Choice, k: Change)
    requires RunCallbacks(d, a, p, ch) == Some(k)
    ensures SameData(d, k.d) && Plain(CallSays(d, a, p, ch))
  {
  }

  lemma CallIsPlain(d: Shared, a: AgentId, p: CallPc, ch: Choice, k: Change)
    requires RunCall(d, a, p, ch) == Some(k) && !CallTelltale(p)
    ensures SameData(d, k.d) && Plain(CallSays(d, a, p, ch))
  {
    if RunControl(d, a, p, ch) == Some(k) { ControlIsPlain(d, a, p, ch, k); }
    else if RunWakeLock(d, a, p, ch) == Some(k) { WakeLockIsPlain(d, a, p, ch, k); }
    else { CallbacksArePlain(d, a, p, ch, k); }
  }

  /** What a call never touches. */
  predicate SameHistory(d: Shared, d': Shared) {
    d'.writes == d.writes && d'.outcomes == d.outcomes && d'.recorded == d.recorded
  }

  lemma EnableFlags(d: Shared, token: Token, ch: Choice, k: Change, a: AgentId, tokens: seq<Token>, count: int)
    requires RunEnable(d, token, ch) == Some(k) && FlagsAre(d, tokens, count)
    ensures FlagsAre(k.d, Registering(tokens, EnabledBy(a, token)), count) && SameHistory(d, k.d)
  {
  }

  lemma AcquireFlags(d: Shared, l: LockId, k: Change, tokens: seq<Token>, count: int)
    requires RunAcquire(d, l) == Some(k) && FlagsAre(d, tokens, count)
    ensures FlagsAre(k.d, tokens, count + 1) && SameHistory(d, k.d)
  {
  }

  lemma ReleaseFlags(d: Shared, l: LockId, ch: Choice, k: Change, tokens: seq<Token>, count: int)
    requires RunRelease(d, l, ch) == Some(k) && FlagsAre(d, tokens, count)
    ensures FlagsAre(k.d, tokens, count - 1) && SameHistory(d, k.d)
  {
  }

  lemma TelltaleFlags(d: Shared, a: AgentId, p: CallPc, ch: Choice, k: Change, tokens: seq<Token>, count: int)
    requires RunCall(d, a, p, ch) == Some(k) && CallTelltale(p) && FlagsAre(d, tokens, count)
    ensures var o := CallSays(d, a, p, ch);
            FlagsAre(k.d, Stepped(Registering, tokens, o), Stepped(Counting, count, o)) && SameHistory(d, k.d)
  {
    match p
    case Enable(token) => EnableFlags(d, token, ch, RunEnable(d, token, ch).value, a, tokens, count);
    case Acquire(l) => AcquireFlags(d, l, RunAcquire(d, l).value, tokens, count);
    case Release(l) => ReleaseFlags(d, l, ch, RunRelease(d, l, ch).value, tokens, count);
    case _ =>
  }

  lemma CallData(c: Service, d: Shared, a: AgentId, p: CallPc, ch: Choice, k: Change, tokens: seq<Token>, count: int,
                 mems: seq<Mem>, times: seq<Times>, contents: seq<Option<string>>)
    requires RunCall(d, a, p, ch) == Some(k) && DataIs(c, d, tokens, count, mems, times, contents)
    ensures DataFollows(c, k.d, CallSays(d, a, p, ch), tokens, count, mems, times, contents)
    ensures Stepped(Suspends, mems, CallSays(d, a, p, ch)) == mems
    ensures Stepped(Measures, times, CallSays(d, a, p, ch)) == times
  {
    if CallTelltale(p) {
      TelltaleFlags(d, a, p, ch, k, tokens, count);
    } else {
      CallIsPlain(d, a, p, ch, k);
      PlainFollows(c, d, k.d, CallSays(d, a, p, ch), tokens, count, mems, times, contents);
    }
  }
}
