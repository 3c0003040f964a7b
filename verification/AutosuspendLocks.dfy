/** Mutex ownership in the autosuspend protocol: who holds what where, no cyclic wait, nothing held
    across a client callback, and the GUARDED_BY annotations. */
module AutosuspendLocks {
  import opened Common
  import opened Autosuspend

  datatype Hold = Hold(tokens: bool, autosuspend: bool, callbacks: bool, wakelockCallbacks: bool)

  const NOTHING := Hold(false, false, false, false)
  const TOKENS := Hold(true, false, false, false)
  const AUTOSUSPEND := Hold(false, true, false, false)
  const BOTH := Hold(true, true, false, false)
  const CALLBACKS := Hold(false, false, true, false)
  const WAKELOCKS := Hold(false, false, false, true)

  /** The mutexes the thread holds at each program point. */
  function ThreadHeld(t: ThreadPc): Hold {
    match t
    case Head(_) | SleepCheck(_, _, _) | CountCheck(_, _) | CounterCheck(_) | Exiting => AUTOSUSPEND
    case BothLock(_) | DropTokens(_) => TOKENS
    case FinalCheck(_) | WriteCount(_) | WriteMem(_) | Wrote(_) => BOTH
    case WakeupCopy => CALLBACKS
    case _ => NOTHING
  }

  /** The mutexes a client call holds at each program point. */
  function CallHeld(p: CallPc): Hold {
    match p
    case EnableBothLock(_) | DisableBothLock | DropLast => TOKENS
    case Enable(_) | Disable | DropBoth => BOTH
    case Force | DropForce | Acquire(_) | DropAcquire(_) | Release(_) | DropRelease(_) => AUTOSUSPEND
    case NotifyCopy(_) | RegisterWakelock => WAKELOCKS
    case Register | DeathBothLock | DeathDrop => CALLBACKS
    case Death => Hold(false, false, true, true)
    case _ => NOTHING
  }

  function Held(pc: Pc): Hold {
    match pc
    case Thread(t) => ThreadHeld(t)
    case Call(p) => CallHeld(p)
  }

  predicate Has(h: Hold, m: Mutex) {
    match m
    case TokensMutex => h.tokens
    case AutosuspendMutex => h.autosuspend
    case CallbackMutex => h.callbacks
    case WakelockCallbackMutex => h.wakelockCallbacks
  }

  function Without(h: Hold, m: Option<Mutex>): Hold {
    match m
    case None => h
    case Some(TokensMutex) => h.(tokens := false)
    case Some(AutosuspendMutex) => h.(autosuspend := false)
    case Some(CallbackMutex) => h.(callbacks := false)
    case Some(WakelockCallbackMutex) => h.(wakelockCallbacks := false)
  }

  predicate Holds(pc: Pc, m: Mutex) {
    Has(Held(pc), m)
  }

  /** The recorded owners are exactly the agents whose program point holds the mutex. */
  ghost predicate Owned(h: (Pc, Mutex) -> bool, agents: map<AgentId, Pc>, owner: map<Mutex, AgentId>) {
    && (forall m :: m in owner ==> owner[m] in agents && h(agents[owner[m]], m))
    && (forall a, m :: a in agents && h(agents[a], m) ==> m in owner && owner[m] == a)
  }

  ghost predicate LockInv(s: State) {
    Owned(Holds, s.agents, s.owner)
  }

  /** Agent a goes to pc or is gone, leaving at most one mutex and taking none. */
  lemma OwnedAfterChange(h: (Pc, Mutex) -> bool, agents: map<AgentId, Pc>, owner: map<Mutex, AgentId>,
                         a: AgentId, k: Change)
    requires Owned(h, agents, owner) && a in agents
    requires k.drop.Some? ==> h(agents[a], k.drop.value)
    requires forall m :: (k.next.Some? && h(k.next.value, m)) <==> (h(agents[a], m) && k.drop != Some(m))
    requires k.spawn.Some? ==> k.spawn.value !in agents && forall m :: !h(Thread(Start), m)
    ensures Owned(h, Agents(agents, a, k), Owners(owner, k))
  {
    var g, o := Agents(agents, a, k), Owners(owner, k);
    forall m | m in o
      ensures o[m] in g && h(g[o[m]], m)
    {
      assert m in owner && owner[m] == o[m];
    }
    forall b, m | b in g && h(g[b], m)
      ensures m in o && o[m] == b
    {
      if b != a { assert b in agents && g[b] == agents[b]; }
      assert h(agents[b], m);
      assert m in owner && owner[m] == b;
    }
  }

  lemma OwnedAfterTake(h: (Pc, Mutex) -> bool, agents: map<AgentId, Pc>, owner: map<Mutex, AgentId>,
                       a: AgentId, pc: Pc, n: Mutex)
    requires Owned(h, agents, owner) && a in agents && n !in owner
    requires forall m :: h(pc, m) == (h(agents[a], m) || m == n)
    ensures Owned(h, agents[a := pc], owner[n := a])
  {
  }

  lemma OwnedAfterArrival(h: (Pc, Mutex) -> bool, agents: map<AgentId, Pc>, owner: map<Mutex, AgentId>,
                          a: AgentId, pc: Pc)
    requires Owned(h, agents, owner) && a !in agents
    requires forall m :: !h(pc, m)
    ensures Owned(h, agents[a := pc], owner)
  {
  }

  // ----- what each step leaves

  /** The mutexes held after a step are those held before, less the one it leaves. */
  predicate Accounts(pc: Pc, k: Change) {
    && (k.drop.Some? ==> Has(Held(pc), k.drop.value))
    && (if k.next.Some? then Held(k.next.value) else NOTHING) == Without(Held(pc), k.drop)
  }

  lemma AccountsFor(pc: Pc, k: Change, m: Mutex)
    requires Accounts(pc, k)
    ensures (k.next.Some? && Holds(k.next.value, m)) <==> (Holds(pc, m) && k.drop != Some(m))
  {
  }

  lemma SleepAccounts(d: Shared, a: AgentId, t: ThreadPc, k: Change)
    requires RunSleep(d, a, t) == Some(k)
    ensures Accounts(Thread(t), k) && k.spawn == None
  {
  }

  lemma CountAccounts(d: Shared, a: AgentId, t: ThreadPc, ch: Choice, k: Change)
    requires RunCount(d, a, t, ch) == Some(k)
    ensures Accounts(Thread(t), k) && k.spawn == None
  {
  }

  lemma WriteAccounts(d: Shared, a: AgentId, t: ThreadPc, ch: Choice, k: Change)
    requires RunWrite(d, a, t, ch) == Some(k)
    ensures Accounts(Thread(t), k) && k.spawn == None
  {
  }

  lemma ReportAccounts(c: Service, d: Shared, a: AgentId, t: ThreadPc, ch: Choice, k: Change)
    requires RunReport(c, d, a, t, ch) == Some(k)
    ensures Accounts(Thread(t), k) && k.spawn == None
  {
  }

  lemma ThreadAccounts(c: Service, d: Shared, a: AgentId, t: ThreadPc, ch: Choice, k: Change)
    requires RunThread(c, d, a, t, ch) == Some(k)
    ensures Accounts(Thread(t), k) && k.spawn == None
  {
    if RunSleep(d, a, t) == Some(k) { SleepAccounts(d, a, t, k); }
    else if RunCount(d, a, t, ch) == Some(k) { CountAccounts(d, a, t, ch, k); }
    else if RunWrite(d, a, t, ch) == Some(k) { WriteAccounts(d, a, t, ch, k); }
    else { ReportAccounts(c, d, a, t, ch, k); }
  }

  lemma ControlAccounts(d: Shared, a: AgentId, p: CallPc, ch: Choice, k: Change)
    requires RunControl(d, a, p, ch) == Some(k)
    ensures Accounts(Call(p), k)
    ensures k.spawn.Some? ==> p.Enable?
  {
  }

  lemma ReleaseAccounts(d: Shared, a: AgentId, p: CallPc, ch: Choice, k: Change)
    requires RunWakeLock(d, a, p, ch) == Some(k) && (p.Release? || p.ReleaseEnter?)
    ensures Accounts(Call(p), k) && k.spawn == None
  {
  }

  lemma WakeLockAccounts(d: Shared, a: AgentId, p: CallPc, ch: Choice, k: Change)
    requires RunWakeLock(d, a, p, ch) == Some(k)
    ensures Accounts(Call(p), k) && k.spawn == None
  {
    if p.Release? || p.ReleaseEnter? { ReleaseAccounts(d, a, p, ch, k); }
  }

  lemma CallbacksAccounts(d: Shared, a: AgentId, p: CallPc, ch: Choice, k: Change)
    requires RunCallbacks(d, a, p, ch) == Some(k)
    ensures Accounts(Call(p), k) && k.spawn == None
  {
  }

  lemma CallAccounts(d: Shared, a: AgentId, p: CallPc, ch: Choice, k: Change)
    requires RunCall(d, a, p, ch) == Some(k)
    ensures Accounts(Call(p), k)
    ensures k.spawn.Some? ==> p.Enable?
  {
    if RunControl(d, a, p, ch) == Some(k) { ControlAccounts(d, a, p, ch, k); }
    else if RunWakeLock(d, a, p, ch) == Some(k) { WakeLockAccounts(d, a, p, ch, k); }
    else { CallbacksAccounts(d, a, p, ch, k); }
  }

  lemma ChangeAccounts(c: Service, d: Shared, pc: Pc, act: Action, k: Change)
    requires ChangeOf(c, d, pc, act) == Some(k)
    ensures Accounts(pc, k)
    ensures k.spawn.Some? ==> pc.Call? && pc.p.Enable?
  {
    match act
    case Run(a, ch) =>
      if pc.Thread? { ThreadAccounts(c, d, a, pc.t, ch, k); } else { CallAccounts(d, a, pc.p, ch, k); }
    case _ =>
  }

  lemma TakeAccounts(pc: Pc, n: Mutex, m: Mutex)
    requires Wants(pc) == Some(n)
    ensures Holds(Locked(pc), m) <==> (Holds(pc, m) || m == n)
  {
  }

  lemma ArrivalHoldsNothing(d: Shared, a: AgentId, entry: Entry, k: Change)
    requires RunEntry(d, a, entry) == Some(k)
    ensures k.drop == None && k.spawn == None && k.next.Some? && Held(k.next.value) == NOTHING && k.next.value.Call?
  {
  }

  // ----- the ownership invariant

  lemma LockInvInit(c: Service)
    ensures LockInv(Init(c))
  {
  }

  /** Every step keeps owners and program points in agreement. */
  lemma LockInvNext(c: Service, s: State, act: Action)
    requires LockInv(s) && Next(c, s, act).Some?
    ensures LockInv(Next(c, s, act).value)
  {
    match act
    case Tick(_) =>
    case Arrive(a, entry) =>
      var k := RunEntry(s.d, a, entry).value;
      ArrivalHoldsNothing(s.d, a, entry, k);
      OwnedAfterArrival(Holds, s.agents, s.owner, a, k.next.value);
    case Take(a) => LockInvTake(s, a);
    case _ =>
      var k := ChangeOf(c, s.d, s.agents[act.a], act).value;
      LockInvChange(c, s, act, k);
  }

  lemma LockInvTake(s: State, a: AgentId)
    requires LockInv(s) && a in s.agents && TakeMutex(s, a).Some?
    ensures LockInv(TakeMutex(s, a).value)
  {
    var pc := s.agents[a];
    var n := Wants(pc).value;
    forall m ensures Holds(Locked(pc), m) == (Holds(pc, m) || m == n) { TakeAccounts(pc, n, m); }
    OwnedAfterTake(Holds, s.agents, s.owner, a, Locked(pc), n);
  }

  lemma LockInvChange(c: Service, s: State, act: Action, k: Change)
    requires LockInv(s) && (act.Run? || act.Wake? || act.TimeOut?) && act.a in s.agents
    requires ChangeOf(c, s.d, s.agents[act.a], act) == Some(k)
    requires k.spawn.Some? ==> k.spawn.value !in s.agents
    ensures LockInv(Apply(s, act.a, k))
  {
    var pc := s.agents[act.a];
    ChangeAccounts(c, s.d, pc, act, k);
    forall m ensures (k.next.Some? && Holds(k.next.value, m)) <==> (Holds(pc, m) && k.drop != Some(m)) {
      AccountsFor(pc, k, m);
    }
    OwnedAfterChange(Holds, s.agents, s.owner, act.a, k);
  }

  lemma OneOwner(h: (Pc, Mutex) -> bool, agents: map<AgentId, Pc>, owner: map<Mutex, AgentId>,
                 a: AgentId, b: AgentId, m: Mutex)
    requires Owned(h, agents, owner) && a in agents && b in agents && a != b
    ensures !(h(agents[a], m) && h(agents[b], m))
  {
    assert h(agents[a], m) ==> m in owner && owner[m] == a;
    assert h(agents[b], m) ==> m in owner && owner[m] == b;
  }

  predicate Disjoint(x: Hold, y: Hold) {
    !(x.tokens && y.tokens) && !(x.autosuspend && y.autosuspend) &&
    !(x.callbacks && y.callbacks) && !(x.wakelockCallbacks && y.wakelockCallbacks)
  }

  /** Two agents never hold the same mutex. */
  lemma Exclusive(s: State, a: AgentId, b: AgentId)
    requires LockInv(s) && a in s.agents && b in s.agents && a != b
    ensures Disjoint(Held(s.agents[a]), Held(s.agents[b]))
  {
    OneOwner(Holds, s.agents, s.owner, a, b, TokensMutex);
    OneOwner(Holds, s.agents, s.owner, a, b, AutosuspendMutex);
    OneOwner(Holds, s.agents, s.owner, a, b, CallbackMutex);
    OneOwner(Holds, s.agents, s.owner, a, b, WakelockCallbackMutex);
  }

  lemma {:induction false} LockInvReachable(c: Service, acts: seq<Action>)
    requires Exec(c, acts).Some?
    ensures LockInv(Exec(c, acts).value)
  {
    if acts == [] {
      LockInvInit(c);
    } else {
      LockInvReachable(c, acts[..|acts| - 1]);
      LockInvNext(c, Exec(c, acts[..|acts| - 1]).value, acts[|acts| - 1]);
    }
  }
}
