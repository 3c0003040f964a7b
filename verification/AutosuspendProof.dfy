/** Interference between agents, and the invariant over every run. */
module AutosuspendProof {
  import opened Common
  import opened Autosuspend
  import opened AutosuspendLocks
  import opened AutosuspendInvariant
  import opened AutosuspendThread
  import opened AutosuspendCalls

  // ----- a call's step, seen from the thread

  lemma LogAtKept(log: seq<Event>, log': seq<Event>, a: AgentId, b: AgentId, t: ThreadPc)
    requires Logged(log, log', a) && a != b && LogAt(log, b, t)
    ensures LogAt(log', b, t)
  {
    if log' != log {
      var e: Event :| e.who == a && !ThreadEvent(e) && log' == log + [e];
      match t
      case CountLock(_, count) => ReadSinceAppend(log, b, count, e);
      case CountCheck(_, count) => ReadSinceAppend(log, b, count, e);
      case CounterCheck(count) => ReadSinceAppend(log, b, count, e);
      case CounterWait(count) => ReadSinceAppend(log, b, count, e);
      case CounterLock(count) => ReadSinceAppend(log, b, count, e);
      case TokensLock(count) => ReadSinceAppend(log, b, count, e);
      case BothLock(count) => ReadSinceAppend(log, b, count, e);
      case FinalCheck(count) => ReadSinceAppend(log, b, count, e);
      case WriteCount(count) => ReadSinceAppend(log, b, count, e);
      case WriteMem(count) => WrittenSinceAppend(log, b, count, e);
      case _ =>
    }
  }

  lemma LogInvKept(log: seq<Event>, log': seq<Event>, a: AgentId)
    requires Logged(log, log', a) && LogInv(log)
    ensures LogInv(log')
  {
    if log' != log {
      var e: Event :| e.who == a && !ThreadEvent(e) && log' == log + [e];
      LogInvAppend(log, e);
    }
  }

  lemma ThreadAtKept(d: Shared, a: AgentId, p: CallPc, k: Change, b: AgentId, t: ThreadPc)
    requires CallFrame(d, a, p, k) && a != b && Disjoint(CallHeld(p), ThreadHeld(t)) && ThreadAt(d, b, t)
    ensures ThreadAt(k.d, b, t)
  {
    LogAtKept(d.log, k.d.log, a, b, t);
    ThreadAtKeptBut(d, k.d, t, CallHeld(p).autosuspend, k.spawn.Some?);
  }

  lemma ThreadAtKeptBut(d: Shared, d': Shared, t: ThreadPc, held: bool, spawned: bool)
    requires Untouched(d, d') && (SameFlags(d, d') || held) && (held ==> !ThreadHeld(t).autosuspend)
    requires d'.created == (d.created || spawned) && (spawned ==> held)
    requires FlagAt(d, t) && CheckAt(d, t) && RestAt(d, t) && OweAt(d, t) && StatAt(d, t)
    ensures FlagAt(d', t) && CheckAt(d', t) && RestAt(d', t) && OweAt(d', t) && StatAt(d', t)
  {
  }

  lemma WaitAtKept(d: Shared, d': Shared, b: AgentId, o: Option<Pc>)
    requires WaitersKept(d, d') && WaitAt(d, b, o)
    ensures WaitAt(d', b, o)
  {
  }

  lemma OnceAtKept(w: map<LockId, WakeLock>, w': map<LockId, WakeLock>, a: AgentId, b: AgentId, o: Option<Pc>)
    requires Evolves(w, w', a) && a != b && OnceAt(w, b, o)
    ensures OnceAt(w', b, o)
  {
  }

  lemma CallAtKept(w: map<LockId, WakeLock>, w': map<LockId, WakeLock>, a: AgentId, b: AgentId, q: CallPc)
    requires Evolves(w, w', a) && a != b && CallAt(w, b, q)
    ensures CallAt(w', b, q)
  {
  }

  /** No agent's assertion is disturbed by another agent's call. */
  lemma CallInterference(d: Shared, a: AgentId, p: CallPc, k: Change, b: AgentId, o: Option<Pc>)
    requires CallFrame(d, a, p, k) && a != b && AgentAt(d, b, o)
    requires o.Some? ==> Disjoint(CallHeld(p), Held(o.value))
    ensures AgentAt(k.d, b, o)
  {
    WaitAtKept(d, k.d, b, o);
    OnceAtKept(d.wakeLocks, k.d.wakeLocks, a, b, o);
    if o.Some? && o.value.Thread? { ThreadAtKept(d, a, p, k, b, o.value.t); }
    if o.Some? && o.value.Call? { CallAtKept(d.wakeLocks, k.d.wakeLocks, a, b, o.value.p); }
  }

  /** Nor by the thread's steps; there is no second thread. */
  lemma ThreadInterference(d: Shared, a: AgentId, k: Change, b: AgentId, o: Option<Pc>)
    requires BasicsAfter(d, a, k) && a != b && AgentAt(d, b, o)
    requires o.Some? ==> o.value.Call?
    ensures AgentAt(k.d, b, o)
  {
  }

  lemma SharedKept(c: Service, d: Shared, a: AgentId, p: CallPc, k: Change)
    requires SharedInv(c, d) && CallFrame(d, a, p, k) && CallAfter(d, a, k)
    ensures SharedInv(c, k.d)
  {
    LogInvKept(d.log, k.d.log, a);
  }

  lemma TickKeepsShared(c: Service, d: Shared, time: nat)
    requires SharedInv(c, d)
    ensures SharedInv(c, d.(now := d.now + time))
  {
  }

  lemma TickKeepsAgent(d: Shared, time: nat, b: AgentId, o: Option<Pc>)
    requires AgentAt(d, b, o)
    ensures AgentAt(d.(now := d.now + time), b, o)
  {
  }

  lemma ThreadTakes(d: Shared, a: AgentId, t: ThreadPc)
    requires Wants(Thread(t)).Some? && ThreadAt(d, a, t) && WaitAt(d, a, Some(Thread(t)))
    ensures ThreadAt(d, a, Locked(Thread(t)).t) && a !in d.waiters && !Locked(Thread(t)).t.Exiting?
  {
  }

  lemma CallTakes(d: Shared, a: AgentId, p: CallPc)
    requires Wants(Call(p)).Some? && CallAt(d.wakeLocks, a, p) && OnceAt(d.wakeLocks, a, Some(Call(p)))
    ensures CallAt(d.wakeLocks, a, Locked(Call(p)).p) && OnceAt(d.wakeLocks, a, Some(Locked(Call(p))))
  {
  }

  lemma TakeKeeps(d: Shared, a: AgentId, pc: Pc)
    requires Wants(pc).Some? && AgentAt(d, a, Some(pc))
    ensures AgentAt(d, a, Some(Locked(pc))) && pc.Thread? == Locked(pc).Thread?
    ensures pc.Thread? ==> !Locked(pc).t.Exiting?
  {
    if pc.Thread? { ThreadTakes(d, a, pc.t); } else { CallTakes(d, a, pc.p); }
  }

  lemma SpawnOk(c: Service, d: Shared, a: AgentId, p: CallPc, k: Change, n: AgentId)
    requires CallFrame(d, a, p, k) && k.spawn == Some(n) && StatInv(c, d) && AgentAt(k.d, n, None)
    ensures AgentAt(k.d, n, Some(Thread(Start)))
  {
  }

  // ----- every step keeps the invariant

  lemma OneWaiter(c: Service, s: State)
    requires Inv(c, s)
    ensures AtMostOneWaiter(s.d)
  {
    forall x, y | x in s.d.waiters && y in s.d.waiters
      ensures x == y
    {
      assert AgentAt(s.d, x, PcOf(s, x)) && AgentAt(s.d, y, PcOf(s, y));
    }
  }

  /** A thread can be started only when none is left. */
  lemma NoThreadAtSpawn(c: Service, s: State, a: AgentId, b: AgentId)
    requires Inv(c, s) && a in s.agents && Held(s.agents[a]).autosuspend && !s.d.created
    requires b in s.agents && b != a
    ensures !s.agents[b].Thread?
  {
    assert AgentAt(s.d, b, PcOf(s, b));
    Exclusive(s, a, b);
  }

  lemma CallOthers(c: Service, s: State, a: AgentId, p: CallPc, k: Change, b: AgentId)
    requires Inv(c, s) && a in s.agents && s.agents[a] == Call(p) && CallFrame(s.d, a, p, k) && b != a
    ensures AgentAt(k.d, b, PcOf(s, b))
  {
    assert AgentAt(s.d, b, PcOf(s, b));
    if b in s.agents { Exclusive(s, a, b); }
    CallInterference(s.d, a, p, k, b, PcOf(s, b));
  }

  lemma CallAgents(c: Service, s: State, a: AgentId, p: CallPc, k: Change, b: AgentId)
    requires Inv(c, s) && a in s.agents && s.agents[a] == Call(p)
    requires CallFrame(s.d, a, p, k) && CallAfter(s.d, a, k)
    requires k.spawn.Some? ==> k.spawn.value !in s.agents
    ensures AgentAt(k.d, b, PcOf(Apply(s, a, k), b))
  {
    if b == a {
      assert AgentAt(s.d, a, PcOf(s, a));
    } else {
      CallOthers(c, s, a, p, k, b);
      if k.spawn == Some(b) { SpawnOk(c, s.d, a, p, k, b); }
    }
  }

  lemma CallThreads(c: Service, s: State, a: AgentId, p: CallPc, k: Change)
    requires Inv(c, s) && a in s.agents && s.agents[a] == Call(p)
    requires CallFrame(s.d, a, p, k)
    requires k.spawn.Some? ==> k.spawn.value !in s.agents && CallHeld(p).autosuspend
    ensures ThreadInv(Apply(s, a, k))
  {
    var s' := Apply(s, a, k);
    if k.spawn.Some? {
      forall b | b in s'.agents && s'.agents[b].Thread?
        ensures b == k.spawn.value
      {
        if b != k.spawn.value {
          assert b != a && b in s.agents;
          NoThreadAtSpawn(c, s, a, b);
        }
      }
      assert s'.agents[k.spawn.value] == Thread(Start);
    } else {
      forall b | b in s'.agents && s'.agents[b].Thread?
        ensures b in s.agents && s'.agents[b] == s.agents[b]
      {
      }
      if s'.d.created {
        var b :| b in s.agents && s.agents[b].Thread? && !s.agents[b].t.Exiting?;
        assert s'.agents[b] == s.agents[b];
      }
    }
  }

  lemma InvCall(c: Service, s: State, a: AgentId, ch: Choice, k: Change)
    requires Inv(c, s) && a in s.agents && s.agents[a].Call?
    requires RunCall(s.d, a, s.agents[a].p, ch) == Some(k)
    requires k.spawn.Some? ==> k.spawn.value !in s.agents
    ensures Inv(c, Apply(s, a, k))
  {
    var p := s.agents[a].p;
    assert AgentAt(s.d, a, PcOf(s, a));
    OneWaiter(c, s);
    CallStep(s.d, a, p, ch, k);
    CallAccounts(s.d, a, p, ch, k);
    SharedKept(c, s.d, a, p, k);
    LockInvChange(c, s, Run(a, ch), k);
    CallThreads(c, s, a, p, k);
    forall b: AgentId ensures AgentAt(k.d, b, PcOf(Apply(s, a, k), b)) {
      CallAgents(c, s, a, p, k, b);
    }
  }

  lemma ArrivalAgents(c: Service, s: State, a: AgentId, k: Change, b: AgentId)
    requires Inv(c, s) && a !in s.agents && k.next.Some? && k.next.value.Call? && k.spawn == None
    requires CallFrame(s.d, a, DisableLock, k) && CallAfter(s.d, a, k) && AgentAt(k.d, a, k.next)
    ensures AgentAt(k.d, b, PcOf(Apply(s, a, k), b))
  {
    assert AgentAt(s.d, b, PcOf(s, b));
    if b != a {
      CallInterference(s.d, a, DisableLock, k, b, PcOf(s, b));
      assert PcOf(Apply(s, a, k), b) == PcOf(s, b);
    } else {
      assert PcOf(Apply(s, a, k), a) == k.next;
    }
  }

  /** An arriving call is no thread. */
  lemma ArrivalThreads(s: State, a: AgentId, k: Change)
    requires ThreadInv(s) && a !in s.agents && k.next.Some? && k.next.value.Call? && k.spawn == None
    requires k.d.created == s.d.created
    ensures ThreadInv(Apply(s, a, k))
  {
    var s' := Apply(s, a, k);
    if s'.d.created {
      var b :| b in s.agents && s.agents[b].Thread? && !s.agents[b].t.Exiting?;
      assert s'.agents[b] == s.agents[b];
    }
  }

  /** The arriving call's own view. */
  lemma ArrivalView(c: Service, s: State, a: AgentId, entry: Entry, k: Change)
    requires Inv(c, s) && a !in s.agents && RunEntry(s.d, a, entry) == Some(k)
    ensures k.next.Some? && k.next.value.Call? && k.spawn == None && k.d.created == s.d.created
    ensures CallFrame(s.d, a, DisableLock, k) && CallAfter(s.d, a, k) && AgentAt(k.d, a, k.next)
  {
    assert AgentAt(s.d, a, PcOf(s, a));
    EntryStep(s.d, a, entry, k);
    ArrivalHoldsNothing(s.d, a, entry, k);
  }

  lemma InvArrive(c: Service, s: State, a: AgentId, entry: Entry, k: Change)
    requires Inv(c, s) && a !in s.agents && RunEntry(s.d, a, entry) == Some(k)
    ensures Inv(c, Apply(s, a, k))
  {
    ArrivalView(c, s, a, entry, k);
    ArrivalHoldsNothing(s.d, a, entry, k);
    SharedKept(c, s.d, a, DisableLock, k);
    OwnedAfterArrival(Holds, s.agents, s.owner, a, k.next.value);
    ArrivalThreads(s, a, k);
    forall b: AgentId ensures AgentAt(k.d, b, PcOf(Apply(s, a, k), b)) {
      ArrivalAgents(c, s, a, k, b);
    }
  }

  lemma ThreadAgents(c: Service, s: State, a: AgentId, k: Change, b: AgentId)
    requires Inv(c, s) && a in s.agents && s.agents[a].Thread? && k.spawn == None
    requires AgentAt(k.d, a, k.next) && BasicsAfter(s.d, a, k)
    ensures AgentAt(k.d, b, PcOf(Apply(s, a, k), b))
  {
    assert AgentAt(s.d, b, PcOf(s, b));
    if b != a {
      assert PcOf(Apply(s, a, k), b) == PcOf(s, b);
      ThreadInterference(s.d, a, k, b, PcOf(s, b));
    } else {
      assert PcOf(Apply(s, a, k), a) == k.next;
    }
  }

  lemma InvThread(c: Service, s: State, act: Action, k: Change)
    requires Inv(c, s) && (act.Run? || act.Wake? || act.TimeOut?)
    requires act.a in s.agents && s.agents[act.a].Thread?
    requires ChangeOf(c, s.d, s.agents[act.a], act) == Some(k) && k.spawn == None
    requires SharedInv(c, k.d) && AgentAt(k.d, act.a, k.next) && BasicsAfter(s.d, act.a, k)
    ensures Inv(c, Apply(s, act.a, k))
  {
    var a := act.a;
    var s' := Apply(s, a, k);
    LockInvChange(c, s, act, k);
    forall b: AgentId ensures AgentAt(s'.d, b, PcOf(s', b)) {
      ThreadAgents(c, s, a, k, b);
    }
    if s'.d.created {
      assert k.next.Some? && FlagAt(k.d, k.next.value.t);
      assert s'.agents[a] == k.next.value;
    }
  }

  lemma TakeThreads(s: State, a: AgentId, pc: Pc, owner: map<Mutex, AgentId>)
    requires ThreadInv(s) && a in s.agents && pc.Thread? == s.agents[a].Thread?
    requires pc.Thread? ==> !pc.t.Exiting?
    ensures ThreadInv(State(owner, s.agents[a := pc], s.d))
  {
    var g := s.agents[a := pc];
    if s.d.created {
      var b :| b in s.agents && s.agents[b].Thread? && !s.agents[b].t.Exiting?;
      assert b in g && g[b].Thread? && !g[b].t.Exiting?;
    }
  }

  lemma InvTake(c: Service, s: State, a: AgentId)
    requires Inv(c, s) && a in s.agents && TakeMutex(s, a).Some?
    ensures Inv(c, TakeMutex(s, a).value)
  {
    var s' := TakeMutex(s, a).value;
    var pc := s.agents[a];
    assert AgentAt(s.d, a, PcOf(s, a));
    TakeKeeps(s.d, a, pc);
    LockInvTake(s, a);
    TakeThreads(s, a, Locked(pc), s'.owner);
    forall b: AgentId ensures AgentAt(s'.d, b, PcOf(s', b)) {
      assert AgentAt(s.d, b, PcOf(s, b));
      if b != a { assert PcOf(s', b) == PcOf(s, b); } else { assert PcOf(s', b) == Some(Locked(pc)); }
    }
  }

  function Later(s: State, time: nat): State {
    s.(d := s.d.(now := s.d.now + time))
  }

  lemma TickKeepsThreads(s: State, time: nat)
    requires LockInv(s) && ThreadInv(s)
    ensures LockInv(Later(s, time)) && ThreadInv(Later(s, time))
  {
  }

  lemma TickAgents(c: Service, s: State, time: nat, b: AgentId)
    requires Inv(c, s)
    ensures AgentAt(Later(s, time).d, b, PcOf(Later(s, time), b))
  {
    assert AgentAt(s.d, b, PcOf(s, b));
    TickKeepsAgent(s.d, time, b, PcOf(s, b));
  }

  lemma InvTick(c: Service, s: State, time: nat)
    requires Inv(c, s)
    ensures Inv(c, Later(s, time))
  {
    TickKeepsThreads(s, time);
    TickKeepsShared(c, s.d, time);
    forall b: AgentId ensures AgentAt(Later(s, time).d, b, PcOf(Later(s, time), b)) {
      TickAgents(c, s, time, b);
    }
  }

  lemma InvRun(c: Service, s: State, a: AgentId, ch: Choice, k: Change)
    requires Fits(c) && Inv(c, s) && a in s.agents && ChangeOf(c, s.d, s.agents[a], Run(a, ch)) == Some(k)
    requires k.spawn.Some? ==> k.spawn.value !in s.agents
    ensures Inv(c, Apply(s, a, k))
  {
    var pc := s.agents[a];
    if pc.Call? {
      InvCall(c, s, a, ch, k);
    } else {
      assert AgentAt(s.d, a, PcOf(s, a));
      ThreadStep(c, s.d, a, pc.t, ch, k);
      ThreadAccounts(c, s.d, a, pc.t, ch, k);
      InvThread(c, s, Run(a, ch), k);
    }
  }

  lemma InvWake(c: Service, s: State, act: Action, k: Change)
    requires Inv(c, s) && (act.Wake? || act.TimeOut?) && act.a in s.agents
    requires ChangeOf(c, s.d, s.agents[act.a], act) == Some(k)
    ensures Inv(c, Apply(s, act.a, k)) && k.spawn == None
  {
    var a, pc := act.a, s.agents[act.a];
    assert AgentAt(s.d, a, PcOf(s, a));
    if act.Wake? { WakeStep(c, s.d, a, pc, k); } else { TimeOutStep(c, s.d, a, pc, k); }
    InvThread(c, s, act, k);
  }

  /** Every step of the system keeps the invariant. */
  lemma InvNext(c: Service, s: State, act: Action)
    requires Fits(c) && Inv(c, s) && Next(c, s, act).Some?
    ensures Inv(c, Next(c, s, act).value)
  {
    match act
    case Tick(time) => InvTick(c, s, time);
    case Arrive(a, entry) => InvArrive(c, s, a, entry, RunEntry(s.d, a, entry).value);
    case Take(a) => InvTake(c, s, a);
    case Run(a, ch) => InvRun(c, s, a, ch, ChangeOf(c, s.d, s.agents[a], act).value);
    case Wake(a) => InvWake(c, s, act, ChangeOf(c, s.d, s.agents[a], act).value);
    case TimeOut(a) => InvWake(c, s, act, ChangeOf(c, s.d, s.agents[a], act).value);
  }

  lemma InvInit(c: Service)
    requires Fits(c)
    ensures Inv(c, Init(c))
  {
    LockInvInit(c);
    assert CountedLocks(map[]) == {};
  }

  /** The invariant holds after every run. */
  lemma {:induction false} InvReachable(c: Service, acts: seq<Action>)
    requires Fits(c) && Exec(c, acts).Some?
    ensures Inv(c, Exec(c, acts).value)
  {
    if acts == [] {
      InvInit(c);
    } else {
      InvReachable(c, acts[..|acts| - 1]);
      InvNext(c, Exec(c, acts[..|acts| - 1]).value, acts[|acts| - 1]);
    }
  }
}
