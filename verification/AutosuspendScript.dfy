/** What the autosuspend thread and the client calls are to do, as one would write it down without
    concurrency: from what each has done so far, what it does next.  Nothing here speaks of program
    points, mutexes or steps, only of the events of a run. */
module AutosuspendScript {
  import opened Common
  import opened Autosuspend

  // ----- the thread

  /** What the thread is about to do. */
  datatype Phase =
    | Top(sleep: bool)         // look at the enabled flag, and wait if due
    | Waiting(until: int)
    | Reading(sleep: bool)     // read the wakeup count
    | Checking(count: string)  // look at the enabled flag and the suspend counter
    | Looking(count: string)   // look at tokens and counter once more
    | Writing(count: string)   // write the wakeup count back
    | Suspending               // write "mem"
    | Timing                   // read the suspend time
    | Explaining               // read the wakeup reasons
    | Copying                  // copy the callbacks
    | Telling(left: nat)       // invoke them
    | Lost                     // it did something else

  /** The loop.  It starts with a wait; after an attempt or an unreadable count it waits again, after
      anything else that keeps it from an attempt it does not.  Only a disabling cuts a wait short. */
  function Follow(p: Phase, e: Event): Phase {
    if !ThreadEvent(e) then p
    else
      match p
      case Top(sleep) =>
        (match e
         case Stopped(_) => Top(true)
         case WaitBegun(_, at, span) => if sleep then Waiting(at + span) else Lost
         case NoWait(_) => if sleep then Lost else Reading(false)
         case _ => Lost)
      case Waiting(until) =>
        (match e
         case WaitOver(_, at, enabled) => if !enabled then Top(true) else if at >= until then Reading(true) else Lost
         case _ => Lost)
      case Reading(sleep) =>
        (match e
         case CountRead(_, count) => if count == "" then Top(sleep) else Checking(count)
         case _ => Lost)
      case Checking(count) =>
        (match e
         case CounterSeen(_, enabled, counter) =>
           if !enabled then Top(false) else if counter == 0 then Looking(count) else Checking(count)
         case _ => Lost)
      case Looking(count) =>
        (match e
         case TokensSeen(_, some, counter) => if some && counter == 0 then Writing(count) else Top(false)
         case _ => Lost)
      case Writing(count) =>
        (match e
         case CountWritten(_, written, ok) => if written != count then Lost else if ok then Suspending else Top(false)
         case _ => Lost)
      case Suspending => if e.MemWritten? then Timing else Lost
      case Timing => if e.TimesRead? then Explaining else Lost
      case Explaining => if e.ReasonsRead? then Copying else Lost
      case Copying =>
        (match e
         case WakeupCopied(_, copies) => if copies == 0 then Top(true) else Telling(copies)
         case _ => Lost)
      case Telling(left) => if !e.WakeupInvoked? then Lost else if left <= 1 then Top(true) else Telling(left - 1)
      case Lost => Lost
  }

  // ----- client calls

  /** What a client call is about to do. */
  datatype Duty =
    | Idle                     // there is no call
    | OwesEnable(token: Token)
    | OwesDisable
    | OwesForce
    | OwesCount(l: LockId)
    | OwesOnce(l: LockId)
    | OwesUncount(l: LockId)
    | OwesRecord(l: LockId, acquired: bool)
    | OwesCopy
    | OwesTell(left: nat)
    | OwesRegistry
    | OwesReturn
    | Astray                   // it did something else

  function Assigned(entry: Entry): Duty {
    match entry
    case EnterEnable(token) => OwesEnable(token)
    case EnterDisable => OwesDisable
    case EnterForce => OwesForce
    case EnterAcquire(_, l) => OwesCount(l)
    case EnterRelease(l) => OwesOnce(l)
    case EnterRegister | EnterRegisterWakelock | EnterDeath => OwesRegistry
  }

  /** A call's own events; leaving a mutex tells nothing. */
  predicate CallEvent(e: Event) {
    !ThreadEvent(e) && !e.Unlocked?
  }

  /** An acquire counts its lock, records it, tells the callbacks and returns; the first release of a
      lock does the same downwards, and a later one returns at once. */
  function Perform(p: Duty, e: Event): Duty {
    match p
    case Idle => if e.Entered? then Assigned(e.entry) else Astray
    case OwesEnable(token) => if e.EnabledBy? && e.token == token then OwesReturn else Astray
    case OwesDisable => if e.DisabledBy? then OwesReturn else Astray
    case OwesForce => if e.Forced? then OwesReturn else Astray
    case OwesCount(l) => if e.Counted? && e.l == l then OwesRecord(l, true) else Astray
    case OwesOnce(l) =>
      (match e
       case OnceSeen(_, seen, ran) => if seen != l then Astray else if ran then OwesReturn else OwesUncount(l)
       case _ => Astray)
    case OwesUncount(l) => if e.Uncounted? && e.l == l then OwesRecord(l, false) else Astray
    case OwesRecord(l, acquired) =>
      if e.Recorded? && e.l == l && e.acquired == acquired then OwesCopy else Astray
    case OwesCopy =>
      (match e
       case WakelockCopied(_, copies) => if copies == 0 then OwesReturn else OwesTell(copies)
       case _ => Astray)
    case OwesTell(left) =>
      if !e.WakelockInvoked? then Astray else if left <= 1 then OwesReturn else OwesTell(left - 1)
    case OwesRegistry => if e.RegistryChanged? then OwesReturn else Astray
    case OwesReturn => if e.Returned? then Idle else Astray
    case Astray => Astray
  }

  // ----- what a run tells

  /** What step makes of the events of a run, one after the other. */
  function Fold<S>(log: seq<Event>, start: S, step: (S, Event) -> S): S {
    if log == [] then start else step(Fold(log[..|log| - 1], start, step), log[|log| - 1])
  }

  /** What the thread is about to do. */
  function PhaseAfter(log: seq<Event>): Phase {
    Fold(log, Top(true), Follow)
  }

  /** What agent a owes. */
  function DutyAfter(log: seq<Event>, a: AgentId): Duty {
    Fold(log, Idle, Performing(a))
  }

  function Performing(a: AgentId): (Duty, Event) -> Duty {
    (p: Duty, e: Event) => if e.who == a && CallEvent(e) then Perform(p, e) else p
  }

  /** Who has enabled autosuspend since it was last disabled, each once, in that order. */
  function TokensAfter(log: seq<Event>): seq<Token> {
    Fold(log, [], Registering)
  }

  function Registering(tokens: seq<Token>, e: Event): seq<Token> {
    match e
    case EnabledBy(_, token) => if token in tokens then tokens else tokens + [token]
    case DisabledBy(_) => []
    case _ => tokens
  }

  /** How many wake locks have been counted and not uncounted. */
  function CountAfter(log: seq<Event>): int {
    Fold(log, 0, Counting)
  }

  function Counting(n: int, e: Event): int {
    if e.Counted? then n + 1 else if e.Uncounted? then n - 1 else n
  }

  /** The span of the last wait begun, and of all that were completed. */
  datatype Slept = Slept(span: int, total: int)

  function SleptAfter(log: seq<Event>): Slept {
    Fold(log, Slept(0, 0), Sleeps)
  }

  function Sleeps(s: Slept, e: Event): Slept {
    match e
    case WaitBegun(_, _, span) => s.(span := span)
    case WaitOver(_, _, enabled) => if enabled && s.span > 0 then s.(total := s.total + s.span) else s
    case _ => s
  }

  /** Whether anything has happened since the thread last began to wait that it may be waiting for. */
  function NewsAfter(log: seq<Event>): bool {
    Fold(log, false, Stirs)
  }

  function Stirs(news: bool, e: Event): bool {
    if e.WaitBegun? || e.CounterSeen? then false else news || e.DisabledBy? || e.Uncounted?
  }

  /** A write of "mem": when, and whether the kernel took it. */
  datatype Mem = Mem(at: int, ok: bool)

  function MemsAfter(log: seq<Event>): seq<Mem> {
    Fold(log, [], Suspends)
  }

  function Suspends(mems: seq<Mem>, e: Event): seq<Mem> {
    match e
    case MemWritten(_, at, ok) => mems + [Mem(at, ok)]
    case _ => mems
  }

  datatype Times = Times(suspendTime: int, overhead: int)

  function TimesAfter(log: seq<Event>): seq<Times> {
    Fold(log, [], Measures)
  }

  function Measures(times: seq<Times>, e: Event): seq<Times> {
    match e
    case TimesRead(_, suspendTime, overhead) => times + [Times(suspendTime, overhead)]
    case _ => times
  }

  function ContentsAfter(log: seq<Event>): seq<Option<string>> {
    Fold(log, [], Explanations)
  }

  function Explanations(contents: seq<Option<string>>, e: Event): seq<Option<string>> {
    match e
    case ReasonsRead(_, content) => contents + [content]
    case _ => contents
  }

  /** What agent a has done since it last left mAutosuspendLock. */
  function SinceUnlock(log: seq<Event>, a: AgentId): seq<Event> {
    Fold(log, [], Holding(a))
  }

  function Holding(a: AgentId): (seq<Event>, Event) -> seq<Event> {
    (done: seq<Event>, e: Event) => if e.who != a then done else if e.Unlocked? then [] else done + [e]
  }
}
