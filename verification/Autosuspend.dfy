/** The autosuspend protocol of SystemSuspend as a step system: the autosuspend thread, any number
    of client calls, four mutexes, one condition variable and a clock.

    A step is what one agent does between two points where another agent can interfere: taking a
    mutex, leaving one, a kernel read or write, or a stretch of code under a mutex.  What the
    kernel answers, which waiter notify_one picks and how many callbacks are registered are
    choices of the step.  A step is written as the change it makes: where its agent goes next, the
    mutex it leaves, the thread it starts, and the shared data.  Mutexes taken and left again around a
    few assignments, with no call out in between (mSuspendInfoLock, mStatsLock, WakeupList::mLock),
    are part of their step. */
module Autosuspend {
  import opened Common
  import B = Backoff
  import R = WakeupReasons

  type AgentId = nat
  type LockId = nat
  type Token = nat

  /** mSuspendCounter is a uint32_t. */
  const COUNTER_MODULUS: nat := 0x1_0000_0000

  datatype Mutex = TokensMutex | AutosuspendMutex | CallbackMutex | WakelockCallbackMutex

  /** The two computations the thread makes after an attempt, kept apart from the protocol: the
      sleep-time update and the wakeup-reason parser. */
  datatype Service = Service(
    initial: B.Sleeper,
    update: (B.Sleeper, B.Outcome) -> B.Sleeper,
    parse: Option<string> -> seq<string>)

  /** The service as configured. */
  function Configured(config: B.Config): Service {
    Service(B.Initial(config), (s, o) => B.Update(config, s, o), R.Reasons)
  }

  // ----- program counters

  /** Where the autosuspend thread is.  Names ending in Lock wait for a mutex. */
  datatype ThreadPc =
    | Start
    | Head(shouldSleep: bool)
    | Sleeping(deadline: int, span: int)
    | SleepLock(deadline: int, span: int, timedOut: bool)
    | SleepCheck(deadline: int, span: int, timedOut: bool)
    | ReadCount(shouldSleep: bool)
    | CountLock(shouldSleep: bool, count: string)
    | CountCheck(shouldSleep: bool, count: string)
    | CounterCheck(count: string)
    | CounterWait(count: string)
    | CounterLock(count: string)
    | TokensLock(count: string)
    | BothLock(count: string)
    | FinalCheck(count: string)
    | WriteCount(count: string)
    | WriteMem(count: string)
    | Wrote(success: bool)
    | DropTokens(success: bool)
    | UpdateSleep(success: bool)
    | RecordWakeup(success: bool)
    | WakeupLock
    | WakeupCopy
    | WakeupInvoke(left: nat)
    | HeadLock
    | Exiting

  /** What a wake-lock call does after its clients have been notified. */
  datatype After = Publish(created: LockId) | FinishOnce(released: LockId)

  /** Where a client call is. */
  datatype CallPc =
    | EnableLock(token: Token)
    | EnableBothLock(token: Token)
    | Enable(token: Token)
    | DisableLock
    | DisableBothLock
    | Disable
    | DropBoth
    | DropLast
    | ForceLock
    | Force
    | DropForce
    | AcquireLock(l: LockId)
    | Acquire(l: LockId)
    | DropAcquire(l: LockId)
    | AcquireStat(l: LockId)
    | ReleaseEnter(l: LockId)
    | ReleaseLock(l: LockId)
    | Release(l: LockId)
    | DropRelease(l: LockId)
    | ReleaseStat(l: LockId)
    | NotifyLock(after: After)
    | NotifyCopy(after: After)
    | NotifyInvoke(after: After, left: nat)
    | RegisterLock
    | Register
    | RegisterWakelockLock
    | RegisterWakelock
    | DeathLock
    | DeathBothLock
    | Death
    | DeathDrop
    | Return

  datatype Pc = Thread(t: ThreadPc) | Call(p: CallPc)

  /** The mutex an agent is blocked on. */
  function Wants(pc: Pc): Option<Mutex> {
    match pc
    case Thread(t) =>
      (match t
       case Start | SleepLock(_, _, _) | CountLock(_, _) | CounterLock(_) | BothLock(_) | HeadLock =>
         Some(AutosuspendMutex)
       case TokensLock(_) => Some(TokensMutex)
       case WakeupLock => Some(CallbackMutex)
       case _ => None)
    case Call(p) =>
      (match p
       case EnableLock(_) | DisableLock => Some(TokensMutex)
       case EnableBothLock(_) | DisableBothLock | ForceLock | AcquireLock(_) | ReleaseLock(_) =>
         Some(AutosuspendMutex)
       case RegisterLock | DeathLock => Some(CallbackMutex)
       case NotifyLock(_) | RegisterWakelockLock | DeathBothLock => Some(WakelockCallbackMutex)
       case _ => None)
  }

  /** Where an agent goes on after it got the mutex it wants. */
  function Locked(pc: Pc): Pc {
    match pc
    case Thread(t) => Thread(
      match t
      case Start => Head(true)
      case SleepLock(d, n, timedOut) => SleepCheck(d, n, timedOut)
      case CountLock(b, count) => CountCheck(b, count)
      case CounterLock(count) => CounterCheck(count)
      case TokensLock(count) => BothLock(count)
      case BothLock(count) => FinalCheck(count)
      case WakeupLock => WakeupCopy
      case HeadLock => Head(true)
      case _ => t)
    case Call(p) => Call(
      match p
      case EnableLock(token) => EnableBothLock(token)
      case EnableBothLock(token) => Enable(token)
      case DisableLock => DisableBothLock
      case DisableBothLock => Disable
      case ForceLock => Force
      case AcquireLock(l) => Acquire(l)
      case ReleaseLock(l) => Release(l)
      case NotifyLock(after) => NotifyCopy(after)
      case RegisterLock => Register
      case RegisterWakelockLock => RegisterWakelock
      case DeathLock => DeathBothLock
      case DeathBothLock => Death
      case _ => p)
  }

  // ----- state

  /** The std::once_flag of a wake lock. */
  datatype Once = NotRun | Running(who: AgentId) | Ran

  /** AIDL and HIDL wake locks differ only in where the acquire statistics are called from. */
  datatype Kind = Aidl | Hidl

  /** A wake lock object, with how often it has incremented and decremented the suspend counter. */
  datatype WakeLock = WakeLock(
    creator: AgentId,
    incs: nat,
    decs: nat,
    published: bool,
    once: Once)

  /** A write of "mem" by the autosuspend thread, with the sleep time then in effect. */
  datatype Write = Write(at: int, sleepTime: int)

  /** What an agent observes, is answered, and does, in the order it happens. */
  datatype Event =
    // the thread at the loop head
    | Stopped(who: AgentId)
    | WaitBegun(who: AgentId, at: int, span: int)
    | NoWait(who: AgentId)
    // and in the loop
    | WaitOver(who: AgentId, at: int, enabled: bool)
    | CountRead(who: AgentId, count: string)
    | CounterSeen(who: AgentId, enabled: bool, counter: nat)
    | TokensSeen(who: AgentId, some: bool, counter: nat)
    | CountWritten(who: AgentId, count: string, ok: bool)
    | MemWritten(who: AgentId, at: int, ok: bool)
    | TimesRead(who: AgentId, suspendTime: int, overhead: int)
    | ReasonsRead(who: AgentId, content: Option<string>)
    | WakeupCopied(who: AgentId, copies: nat)
    | WakeupInvoked(who: AgentId)
    // client calls
    | Entered(who: AgentId, entry: Entry)
    | EnabledBy(who: AgentId, token: Token)
    | DisabledBy(who: AgentId)
    | Forced(who: AgentId, ok: bool)
    | Counted(who: AgentId, l: LockId)
    | OnceSeen(who: AgentId, l: LockId, ran: bool)
    | Uncounted(who: AgentId, l: LockId)
    | Recorded(who: AgentId, l: LockId, acquired: bool)
    | WakelockCopied(who: AgentId, copies: nat)
    | WakelockInvoked(who: AgentId)
    | RegistryChanged(who: AgentId)
    | Returned(who: AgentId)
    // anyone who leaves mAutosuspendLock
    | Unlocked(who: AgentId)

  /** The fields of the service, and what has happened so far. */
  datatype Shared = Shared(
    tokens: seq<Token>,
    enabled: bool,
    created: bool,
    counter: nat,
    sleeper: B.Sleeper,
    wakeLocks: map<LockId, WakeLock>,
    waiters: set<AgentId>,  // blocked in mAutosuspendCondVar and not notified yet
    now: int,
    // history
    outcomes: seq<B.Outcome>,
    recorded: seq<seq<string>>,
    rounds: nat,
    writes: seq<Write>,
    waited: int,
    log: seq<Event>)

  datatype State = State(owner: map<Mutex, AgentId>, agents: map<AgentId, Pc>, d: Shared)

  function Init(c: Service): State {
    State(map[], map[], Shared([], false, false, 0, c.initial, map[], {}, 0, [], [], 0, [], 0, []))
  }

  /** The autosuspend thread's own events. */
  predicate ThreadEvent(e: Event) {
    e.Stopped? || e.WaitBegun? || e.NoWait? || e.WaitOver? || e.CountRead? || e.CounterSeen? || e.TokensSeen? ||
    e.CountWritten? || e.MemWritten? || e.TimesRead? || e.ReasonsRead? || e.WakeupCopied? || e.WakeupInvoked?
  }

  // ----- actions

  /** Calls a client can make. */
  datatype Entry =
    | EnterEnable(token: Token)
    | EnterDisable
    | EnterForce
    | EnterAcquire(kind: Kind, l: LockId)
    | EnterRelease(l: LockId)
    | EnterRegister
    | EnterRegisterWakelock
    | EnterDeath

  /** Everything a step does not decide itself. */
  datatype Choice = Choice(
    ok: bool,
    text: string,
    reasons: Option<string>,
    suspendTime: int,
    overhead: int,
    copies: nat,
    agent: AgentId)

  datatype Action =
    | Tick(time: nat)
    | Arrive(a: AgentId, entry: Entry)
    | Take(a: AgentId)
    | Wake(a: AgentId)
    | TimeOut(a: AgentId)
    | Run(a: AgentId, ch: Choice)

  /** What a step does: its agent goes to `next` or is gone, leaves `drop`, starts the autosuspend
      thread `spawn`, and changes the shared data to `d`. */
  datatype Change = Change(next: Option<Pc>, drop: Option<Mutex>, spawn: Option<AgentId>, d: Shared)

  function GoTo(pc: Pc, d: Shared): Option<Change> {
    Some(Change(Some(pc), None, None, d))
  }

  function Leave(pc: Pc, m: Mutex, d: Shared): Option<Change> {
    Some(Change(Some(pc), Some(m), None, d))
  }

  function Note(d: Shared, e: Event): Shared {
    d.(log := d.log + [e])
  }

  function Noted(o: Option<Change>, e: Event): Option<Change> {
    match o
    case None => None
    case Some(k) => Some(k.(d := Note(k.d, e)))
  }

  /** Leaving mAutosuspendLock. */
  function Unlock(pc: Pc, d: Shared, a: AgentId): Option<Change> {
    Leave(pc, AutosuspendMutex, Note(d, Unlocked(a)))
  }

  /** Leaving mAutosuspendLock to block in the condition variable. */
  function Block(pc: Pc, d: Shared, a: AgentId): Option<Change> {
    Unlock(pc, d.(waiters := d.waiters + {a}), a)
  }

  /** disableAutosuspendLocked. */
  function DisableLocked(d: Shared): Shared {
    if d.enabled then d.(tokens := [], enabled := false, waiters := {}) else d.(tokens := [])
  }

  function WithToken(d: Shared, token: Token): Shared {
    if token in d.tokens then d else d.(tokens := d.tokens + [token])
  }

  /** A wait for a negative time is over at once. */
  function Elapsed(span: int): nat {
    if span >= 0 then span else 0
  }

  // ----- the thread

  /** Lines 307-325: the top of the loop and the timed wait. */
  function RunSleep(d: Shared, a: AgentId, t: ThreadPc): Option<Change> {
    match t
    case Head(shouldSleep) =>
      var span := d.sleeper.sleepTime;
      if !d.enabled then GoTo(Thread(Exiting), Note(d, Stopped(a)).(created := false))
      else if shouldSleep then
        Block(Thread(Sleeping(d.now + span, span)), Note(d, WaitBegun(a, d.now, span)), a)
      else Unlock(Thread(ReadCount(false)), Note(d, NoWait(a)), a)
    case SleepCheck(deadline, span, timedOut) =>
      if !d.enabled then GoTo(Thread(Head(true)), Note(d, WaitOver(a, d.now, false)))
      else if timedOut then
        Unlock(Thread(ReadCount(true)), Note(d, WaitOver(a, d.now, true)).(waited := d.waited + Elapsed(span)), a)
      else Block(Thread(Sleeping(deadline, span)), d, a)
    case Exiting => Some(Change(None, Some(AutosuspendMutex), None, Note(d, Unlocked(a))))
    case _ => None
  }

  /** Lines 327-347: reading the wakeup count and waiting for the suspend counter. */
  function RunCount(d: Shared, a: AgentId, t: ThreadPc, ch: Choice): Option<Change> {
    match t
    case ReadCount(shouldSleep) =>
      GoTo(Thread(CountLock(shouldSleep, ch.text)), Note(d, CountRead(a, ch.text)))
    case CountCheck(shouldSleep, count) =>
      GoTo(Thread(if count == "" then Head(shouldSleep) else CounterCheck(count)), d)
    case CounterCheck(count) =>
      var d1 := Note(d, CounterSeen(a, d.enabled, d.counter));
      if !d.enabled then GoTo(Thread(Head(false)), d1)
      else if d.counter == 0 then Unlock(Thread(TokensLock(count)), d1, a)
      else Block(Thread(CounterWait(count)), d1, a)
    case _ => None
  }

  /** Lines 349-380: the last checks and the two writes. */
  function RunWrite(d: Shared, a: AgentId, t: ThreadPc, ch: Choice): Option<Change> {
    match t
    case FinalCheck(count) =>
      var d1 := Note(d, TokensSeen(a, d.tokens != [], d.counter));
      if d.tokens == [] then Leave(Thread(Head(false)), TokensMutex, DisableLocked(d1))
      else if d.counter > 0 then Leave(Thread(Head(false)), TokensMutex, d1)
      else GoTo(Thread(WriteCount(count)), d1)
    case WriteCount(count) =>
      var d1 := Note(d, CountWritten(a, count, ch.ok));
      if !ch.ok then Leave(Thread(Head(false)), TokensMutex, d1) else GoTo(Thread(WriteMem(count)), d1)
    case WriteMem(_) =>
      GoTo(Thread(Wrote(ch.ok)),
           Note(d, MemWritten(a, d.now, ch.ok)).(writes := d.writes + [Write(d.now, d.sleeper.sleepTime)]))
    case Wrote(success) => Unlock(Thread(DropTokens(success)), d, a)
    case DropTokens(success) => Leave(Thread(UpdateSleep(success)), TokensMutex, d)
    case _ => None
  }

  /** Lines 386-401: statistics, wakeup reasons and notification. */
  function RunReport(c: Service, d: Shared, a: AgentId, t: ThreadPc, ch: Choice): Option<Change> {
    match t
    case UpdateSleep(success) =>
      var o := B.Outcome(success, ch.suspendTime, ch.overhead);
      GoTo(Thread(RecordWakeup(success)),
           Note(d, TimesRead(a, ch.suspendTime, ch.overhead))
           .(sleeper := c.update(d.sleeper, o), outcomes := d.outcomes + [o]))
    case RecordWakeup(_) =>
      var reasons := c.parse(ch.reasons);
      var d1 := Note(d, ReasonsRead(a, ch.reasons));
      GoTo(Thread(WakeupLock), if reasons == [] then d1 else d1.(recorded := d.recorded + [reasons]))
    case WakeupCopy => Leave(Thread(WakeupInvoke(ch.copies)), CallbackMutex, Note(d, WakeupCopied(a, ch.copies)))
    case WakeupInvoke(left) =>
      if left > 0 then GoTo(Thread(WakeupInvoke(left - 1)), Note(d, WakeupInvoked(a)))
      else GoTo(Thread(HeadLock), d.(rounds := d.rounds + 1))
    case _ => None
  }

  function RunThread(c: Service, d: Shared, a: AgentId, t: ThreadPc, ch: Choice): Option<Change> {
    match t
    case Head(_) | SleepCheck(_, _, _) | Exiting => RunSleep(d, a, t)
    case ReadCount(_) | CountCheck(_, _) | CounterCheck(_) => RunCount(d, a, t, ch)
    case FinalCheck(_) | WriteCount(_) | WriteMem(_) | Wrote(_) | DropTokens(_) => RunWrite(d, a, t, ch)
    case UpdateSleep(_) | RecordWakeup(_) | WakeupCopy | WakeupInvoke(_) => RunReport(c, d, a, t, ch)
    case _ => None
  }

  // ----- client calls

  /** enableAutosuspend under its two mutexes; ch.agent names the thread it may start. */
  function RunEnable(d: Shared, token: Token, ch: Choice): Option<Change> {
    var d1 := WithToken(d, token);
    if d.enabled then GoTo(Call(DropBoth), d1)
    else if d.created then GoTo(Call(DropBoth), d1.(enabled := true))
    else Some(Change(Some(Call(DropBoth)), None, Some(ch.agent), d1.(enabled := true, created := true)))
  }

  /** incSuspendCounter in a wake lock's constructor. */
  function RunAcquire(d: Shared, l: LockId): Option<Change> {
    if l !in d.wakeLocks then None
    else
      var w := d.wakeLocks[l];
      GoTo(Call(DropAcquire(l)),
           d.(counter := (d.counter + 1) % COUNTER_MODULUS,
              wakeLocks := d.wakeLocks[l := w.(incs := w.incs + 1)]))
  }

  /** std::call_once: the first caller runs the body, later ones return once it has run. */
  function RunReleaseEnter(d: Shared, a: AgentId, l: LockId): Option<Change> {
    if l !in d.wakeLocks then None
    else
      var w := d.wakeLocks[l];
      match w.once
      case NotRun => GoTo(Call(ReleaseLock(l)), d.(wakeLocks := d.wakeLocks[l := w.(once := Running(a))]))
      case Running(_) => None
      case Ran => GoTo(Call(Return), d)
  }

  /** decSuspendCounter; at zero, notify_one wakes ch.agent if anyone waits. */
  function RunRelease(d: Shared, l: LockId, ch: Choice): Option<Change> {
    if l !in d.wakeLocks then None
    else
      var w := d.wakeLocks[l];
      var d1 := d.(counter := (d.counter + COUNTER_MODULUS - 1) % COUNTER_MODULUS,
                   wakeLocks := d.wakeLocks[l := w.(decs := w.decs + 1)]);
      if d1.counter != 0 || d.waiters == {} then GoTo(Call(DropRelease(l)), d1)
      else if ch.agent in d.waiters then
        GoTo(Call(DropRelease(l)), d1.(waiters := d.waiters - {ch.agent}))
      else None
  }

  function Finish(d: Shared, after: After): Option<Change> {
    match after
    case Publish(l) =>
      if l !in d.wakeLocks then None
      else GoTo(Call(Return), d.(wakeLocks := d.wakeLocks[l := d.wakeLocks[l].(published := true)]))
    case FinishOnce(l) =>
      if l !in d.wakeLocks then None
      else GoTo(Call(Return), d.(wakeLocks := d.wakeLocks[l := d.wakeLocks[l].(once := Ran)]))
  }

  /** enableAutosuspend, disableAutosuspend and forceSuspend. */
  function RunControl(d: Shared, a: AgentId, p: CallPc, ch: Choice): Option<Change> {
    match p
    case Enable(token) => Noted(RunEnable(d, token, ch), EnabledBy(a, token))
    case Disable => GoTo(Call(DropBoth), Note(DisableLocked(d), DisabledBy(a)))
    case DropBoth => Unlock(Call(DropLast), d, a)
    case DropLast => Leave(Call(Return), TokensMutex, d)
    case Force => GoTo(Call(DropForce), Note(d, Forced(a, ch.ok)))
    case DropForce => Unlock(Call(Return), d, a)
    case Return => Some(Change(None, None, None, Note(d, Returned(a))))
    case _ => None
  }

  /** Creating and releasing wake locks. */
  function RunWakeLock(d: Shared, a: AgentId, p: CallPc, ch: Choice): Option<Change> {
    match p
    case Acquire(l) => Noted(RunAcquire(d, l), Counted(a, l))
    case DropAcquire(l) => Unlock(Call(AcquireStat(l)), d, a)
    case AcquireStat(l) => GoTo(Call(NotifyLock(Publish(l))), Note(d, Recorded(a, l, true)))
    case ReleaseEnter(l) =>
      Noted(RunReleaseEnter(d, a, l), OnceSeen(a, l, l in d.wakeLocks && d.wakeLocks[l].once == Ran))
    case Release(l) => Noted(RunRelease(d, l, ch), Uncounted(a, l))
    case DropRelease(l) => Unlock(Call(ReleaseStat(l)), d, a)
    case ReleaseStat(l) => GoTo(Call(NotifyLock(FinishOnce(l))), Note(d, Recorded(a, l, false)))
    case _ => None
  }

  /** The callback registry's mutexes, and invoking wake-lock callbacks. */
  function RunCallbacks(d: Shared, a: AgentId, p: CallPc, ch: Choice): Option<Change> {
    match p
    case NotifyCopy(after) =>
      Leave(Call(NotifyInvoke(after, ch.copies)), WakelockCallbackMutex, Note(d, WakelockCopied(a, ch.copies)))
    case NotifyInvoke(after, left) =>
      if left > 0 then GoTo(Call(NotifyInvoke(after, left - 1)), Note(d, WakelockInvoked(a)))
      else Finish(d, after)
    case Register => Leave(Call(Return), CallbackMutex, Note(d, RegistryChanged(a)))
    case RegisterWakelock => Leave(Call(Return), WakelockCallbackMutex, Note(d, RegistryChanged(a)))
    case Death => Leave(Call(DeathDrop), WakelockCallbackMutex, Note(d, RegistryChanged(a)))
    case DeathDrop => Leave(Call(Return), CallbackMutex, d)
    case _ => None
  }

  function RunCall(d: Shared, a: AgentId, p: CallPc, ch: Choice): Option<Change> {
    match p
    case Enable(_) | Disable | DropBoth | DropLast | Force | DropForce | Return => RunControl(d, a, p, ch)
    case Acquire(_) | DropAcquire(_) | AcquireStat(_) | ReleaseEnter(_) | Release(_) | DropRelease(_)
       | ReleaseStat(_) => RunWakeLock(d, a, p, ch)
    case _ => RunCallbacks(d, a, p, ch)
  }

  function RunEntry(d: Shared, a: AgentId, entry: Entry): Option<Change> {
    Noted(StartOf(d, a, entry), Entered(a, entry))
  }

  /** Where a call starts; acquireWakeLock makes the wake lock. */
  function StartOf(d: Shared, a: AgentId, entry: Entry): Option<Change> {
    match entry
    case EnterEnable(token) => GoTo(Call(EnableLock(token)), d)
    case EnterDisable => GoTo(Call(DisableLock), d)
    case EnterForce => GoTo(Call(ForceLock), d)
    case EnterAcquire(_, l) =>
      if l in d.wakeLocks then None
      else GoTo(Call(AcquireLock(l)),
                d.(wakeLocks := d.wakeLocks[l := WakeLock(a, 0, 0, false, NotRun)]))
    case EnterRelease(l) =>
      if l in d.wakeLocks && d.wakeLocks[l].published then GoTo(Call(ReleaseEnter(l)), d) else None
    case EnterRegister => GoTo(Call(RegisterLock), d)
    case EnterRegisterWakelock => GoTo(Call(RegisterWakelockLock), d)
    case EnterDeath => GoTo(Call(DeathLock), d)
  }

  /** A blocked waiter wakes up, notified or spuriously, and goes for the mutex again. */
  function RunWake(d: Shared, a: AgentId, pc: Pc): Option<Change> {
    match pc
    case Thread(Sleeping(deadline, span)) =>
      GoTo(Thread(SleepLock(deadline, span, false)), d.(waiters := d.waiters - {a}))
    case Thread(CounterWait(count)) =>
      GoTo(Thread(CounterLock(count)), d.(waiters := d.waiters - {a}))
    case _ => None
  }

  /** A timed wait ends once its deadline has passed. */
  function RunTimeOut(d: Shared, a: AgentId, pc: Pc): Option<Change> {
    match pc
    case Thread(Sleeping(deadline, span)) =>
      if d.now < deadline then None
      else GoTo(Thread(SleepLock(deadline, span, true)),
                d.(waiters := d.waiters - {a}))
    case _ => None
  }

  // ----- the system

  /** The change an action of agent a makes, other than taking a mutex. */
  function ChangeOf(c: Service, d: Shared, pc: Pc, act: Action): Option<Change> {
    match act
    case Run(a, ch) =>
      (match pc
       case Thread(t) => RunThread(c, d, a, t, ch)
       case Call(p) => RunCall(d, a, p, ch))
    case Wake(a) => RunWake(d, a, pc)
    case TimeOut(a) => RunTimeOut(d, a, pc)
    case _ => None
  }

  function Agents(agents: map<AgentId, Pc>, a: AgentId, k: Change): map<AgentId, Pc> {
    var g := if k.next.Some? then agents[a := k.next.value] else agents - {a};
    if k.spawn.Some? then g[k.spawn.value := Thread(Start)] else g
  }

  function Owners(owner: map<Mutex, AgentId>, k: Change): map<Mutex, AgentId> {
    if k.drop.Some? then owner - {k.drop.value} else owner
  }

  function Apply(s: State, a: AgentId, k: Change): State {
    State(Owners(s.owner, k), Agents(s.agents, a, k), k.d)
  }

  /** Agent a gets the mutex it is blocked on, if that is free. */
  function TakeMutex(s: State, a: AgentId): Option<State>
    requires a in s.agents
  {
    match Wants(s.agents[a])
    case None => None
    case Some(m) =>
      if m in s.owner then None
      else Some(State(s.owner[m := a], s.agents[a := Locked(s.agents[a])], s.d))
  }

  /** One step of the whole system; None when the action is not possible. */
  function Next(c: Service, s: State, act: Action): Option<State> {
    match act
    case Tick(time) => Some(s.(d := s.d.(now := s.d.now + time)))
    case Arrive(a, entry) =>
      if a in s.agents then None
      else
        (match RunEntry(s.d, a, entry)
         case None => None
         case Some(k) => Some(Apply(s, a, k)))
    case Take(a) => if a !in s.agents then None else TakeMutex(s, a)
    case _ =>
      if act.a !in s.agents then None
      else
        (match ChangeOf(c, s.d, s.agents[act.a], act)
         case None => None
         case Some(k) =>
           if k.spawn.Some? && k.spawn.value in s.agents then None else Some(Apply(s, act.a, k)))
  }

  /** The state after a sequence of actions, if all of them were possible in turn. */
  function Exec(c: Service, acts: seq<Action>): Option<State> {
    if acts == [] then Some(Init(c))
    else
      match Exec(c, acts[..|acts| - 1])
      case None => None
      case Some(s) => Next(c, s, acts[|acts| - 1])
  }
}
