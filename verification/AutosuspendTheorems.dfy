/** What holds of the autosuspend service in every run, whatever the interleaving, the kernel's
    answers and the configuration. */
module AutosuspendTheorems {
  import opened Common
  import opened Autosuspend
  import opened AutosuspendLocks
  import opened AutosuspendInvariant
  import opened AutosuspendThread
  import opened AutosuspendCalls
  import opened AutosuspendProof
  import opened AutosuspendScript
  import opened AutosuspendTrace
  import opened AutosuspendHistory
  import opened AutosuspendEvents
  import B = Backoff
  import R = WakeupReasons

  lemma ServiceFits(config: B.Config)
    ensures Fits(Configured(config))
  {
    var c := Configured(config);
    forall x ensures c.parse(x) != [] {
      R.ReasonsAreClean(x);
    }
  }

  lemma {:induction false} ReplayedIsReplay(config: B.Config, h: seq<B.Outcome>)
    ensures Replayed(Configured(config), h) == B.Replay(config, h)
  {
    if h != [] { ReplayedIsReplay(config, h[..|h| - 1]); }
  }

  /** s is the state after some run. */
  ghost predicate Reached(config: B.Config, acts: seq<Action>, s: State) {
    Exec(Configured(config), acts) == Some(s)
  }

  lemma ReachedInv(config: B.Config, acts: seq<Action>, s: State)
    requires Reached(config, acts, s)
    ensures Inv(Configured(config), s)
  {
    ServiceFits(config);
    InvReachable(Configured(config), acts);
  }

  lemma ReachedHistory(config: B.Config, acts: seq<Action>, s: State)
    requires Reached(config, acts, s)
    ensures HistoryInv(Configured(config), s)
  {
    ServiceFits(config);
    HistoryReachable(Configured(config), acts);
  }

  // ----- suspending only when allowed

  lemma MultipleOfModulus(n: nat)
    requires n % COUNTER_MODULUS == 0
    ensures n == 0 <==> n < COUNTER_MODULUS
  {
  }

  /** About to write "mem" the thread owns both mutexes of the service proper. */
  lemma MemWriteOwns(config: B.Config, acts: seq<Action>, s: State, a: AgentId, count: string)
    requires Reached(config, acts, s) && a in s.agents && s.agents[a] == Thread(WriteMem(count))
    ensures AutosuspendMutex in s.owner && s.owner[AutosuspendMutex] == a
    ensures TokensMutex in s.owner && s.owner[TokensMutex] == a
  {
    ReachedInv(config, acts, s);
    assert Holds(s.agents[a], AutosuspendMutex) && Holds(s.agents[a], TokensMutex);
  }

  /** Whenever the thread is about to write "mem": it holds both mutexes, autosuspend is enabled with
      a token registered, the wakeup count is nonempty and was written in this hold of the mutex, and
      no wake lock is counted - unless the number of counted wake locks wraps the 32-bit counter. */
  lemma MemWriteIsSafe(config: B.Config, acts: seq<Action>, s: State, a: AgentId, count: string)
    requires Reached(config, acts, s) && a in s.agents && s.agents[a] == Thread(WriteMem(count))
    ensures AutosuspendMutex in s.owner && s.owner[AutosuspendMutex] == a
    ensures TokensMutex in s.owner && s.owner[TokensMutex] == a
    ensures s.d.enabled && s.d.tokens != []
    ensures count != "" && WrittenSince(s.d.log, a, count)
    ensures CountedLocks(s.d.wakeLocks) == {} <==> |CountedLocks(s.d.wakeLocks)| < COUNTER_MODULUS
  {
    ReachedInv(config, acts, s);
    assert AgentAt(s.d, a, PcOf(s, a));
    MemWriteOwns(config, acts, s, a, count);
    MultipleOfModulus(|CountedLocks(s.d.wakeLocks)|);
  }

  /** Every write of "mem" in the log of a run was preceded so. */
  lemma EveryMemWriteJustified(config: B.Config, acts: seq<Action>, s: State, i: nat)
    requires Reached(config, acts, s) && i < |s.d.log| && s.d.log[i].MemWritten?
    ensures exists count: string :: count != "" && WrittenSince(s.d.log[..i], s.d.log[i].who, count)
  {
    ReachedInv(config, acts, s);
  }

  // ----- the thread and the flags

  /** There is never a second thread; enabled means a token is registered and a thread is running
      that will see it; and while mAutosuspendLock is free, created means a thread exists. */
  lemma ThreadMatchesFlags(config: B.Config, acts: seq<Action>, s: State)
    requires Reached(config, acts, s)
    ensures forall a, b :: a in s.agents && b in s.agents && s.agents[a].Thread? && s.agents[b].Thread? ==> a == b
    ensures s.d.enabled <==> s.d.tokens != []
    ensures Distinct(s.d.tokens)
    ensures s.d.enabled ==> exists a :: a in s.agents && s.agents[a].Thread? && !s.agents[a].t.Exiting?
    ensures AutosuspendMutex !in s.owner ==>
              (s.d.created <==> exists a :: a in s.agents && s.agents[a].Thread?)
  {
    ReachedInv(config, acts, s);
    forall a | a in s.agents && s.agents[a].Thread?
      ensures s.d.created || AutosuspendMutex in s.owner
    {
      assert AgentAt(s.d, a, PcOf(s, a));
      assert s.agents[a].t.Exiting? ==> Holds(s.agents[a], AutosuspendMutex);
    }
  }

  /** An agent blocked un-notified in the condition variable has a reason to be: autosuspend is
      enabled, and in the counter wait some wake lock is counted. */
  lemma NoLostWakeup(config: B.Config, acts: seq<Action>, s: State, a: AgentId)
    requires Reached(config, acts, s) && a in s.d.waiters
    ensures a in s.agents && s.agents[a].Thread? && (s.agents[a].t.Sleeping? || s.agents[a].t.CounterWait?)
    ensures s.d.enabled
    ensures s.agents[a].t.CounterWait? ==>
              CountedLocks(s.d.wakeLocks) != {} &&
              (s.d.counter > 0 <==> |CountedLocks(s.d.wakeLocks)| % COUNTER_MODULUS != 0)
  {
    ReachedInv(config, acts, s);
    assert AgentAt(s.d, a, PcOf(s, a));
  }

  /** And it is notified only if, since it began to wait, autosuspend was disabled or a wake lock was
      released. */
  lemma NotifiedWithReason(config: B.Config, acts: seq<Action>, s: State, a: AgentId)
    requires Reached(config, acts, s) && a in s.agents && s.agents[a].Thread? && Blocked(s.agents[a].t)
    ensures a in s.d.waiters || NewsAfter(s.d.log)
  {
    ReachedHistory(config, acts, s);
  }

  // ----- the suspend counter

  /** The counter is the number of wake locks that have incremented and not decremented it, modulo
      2^32; a lock decrements at most once, and exactly once when a release call has returned. */
  lemma CounterConservation(config: B.Config, acts: seq<Action>, s: State)
    requires Reached(config, acts, s)
    ensures s.d.counter == |CountedLocks(s.d.wakeLocks)| % COUNTER_MODULUS
    ensures |CountedLocks(s.d.wakeLocks)| < COUNTER_MODULUS ==> s.d.counter == |CountedLocks(s.d.wakeLocks)|
    ensures forall l :: l in s.d.wakeLocks ==>
              var w := s.d.wakeLocks[l];
              w.decs <= w.incs <= 1 && (w.once == Ran ==> w.decs == 1) && (w.once == NotRun ==> w.decs == 0)
  {
    ReachedInv(config, acts, s);
    forall l | l in s.d.wakeLocks ensures Sane(s.d.wakeLocks[l]) {
    }
  }

  /** A decrement never underflows, as long as fewer than 2^32 wake locks are counted. */
  lemma NoUnderflow(config: B.Config, acts: seq<Action>, s: State, a: AgentId, l: LockId)
    requires Reached(config, acts, s) && a in s.agents && s.agents[a] == Call(Release(l))
    requires |CountedLocks(s.d.wakeLocks)| < COUNTER_MODULUS
    ensures s.d.counter > 0 && l in CountedLocks(s.d.wakeLocks)
  {
    ReachedInv(config, acts, s);
    assert AgentAt(s.d, a, PcOf(s, a));
    assert Sane(s.d.wakeLocks[l]);
    assert l in CountedLocks(s.d.wakeLocks);
  }

  // ----- time

  /** Two consecutive writes of "mem" are at least the sleep time apart that the attempts before the
      second one call for, by what the kernel answered them, across any disabling, thread exit and
      re-enabling in between. */
  lemma RateLimit(config: B.Config, acts: seq<Action>, s: State, i: nat)
    requires Reached(config, acts, s) && 0 < i < |MemsAfter(s.d.log)|
    ensures i <= |AttemptsAfter(s.d.log)|
    ensures MemsAfter(s.d.log)[i].at - MemsAfter(s.d.log)[i - 1].at
            >= B.Replay(config, AttemptsAfter(s.d.log)[..i]).sleepTime
  {
    ReachedInv(config, acts, s);
    ReachedHistory(config, acts, s);
    OutcomesAreAttempts(Configured(config), s.d);
    ReplayedIsReplay(config, s.d.outcomes[..i]);
  }

  /** For a whole scale factor that is the commented formula of the number of bad attempts in a row. */
  lemma RateLimitFormula(config: B.Config, scale: nat, acts: seq<Action>, s: State, i: nat)
    requires Reached(config, acts, s) && 0 < i < |MemsAfter(s.d.log)|
    requires scale >= 1 && config.scale == scale as real
    ensures i <= |AttemptsAfter(s.d.log)|
    ensures (MemsAfter(s.d.log)[i].at - MemsAfter(s.d.log)[i - 1].at) as real
            >= B.ClosedForm(config, B.BadSuffix(config, AttemptsAfter(s.d.log)[..i]))
  {
    RateLimit(config, acts, s, i);
    B.ExactBackoff(config, scale, AttemptsAfter(s.d.log)[..i]);
  }

  /** Every timed wait, past or present, is for exactly the sleep time that the attempts before it call
      for. */
  lemma WaitsAreExact(config: B.Config, acts: seq<Action>, s: State, i: nat)
    requires Reached(config, acts, s) && i < |s.d.log| && s.d.log[i].WaitBegun?
    ensures s.d.log[i].span == B.Replay(config, AttemptsAfter(s.d.log[..i])).sleepTime
  {
    ServiceFits(config);
    WaitsReachable(Configured(config), acts);
    ReplayedIsReplay(config, AttemptsAfter(s.d.log[..i]));
  }

  /** A thread blocked in a timed wait is let go as soon as it is over, and not before. */
  lemma WaitEndsOnTime(config: B.Config, acts: seq<Action>, s: State, a: AgentId)
    requires Reached(config, acts, s) && a in s.agents && s.agents[a].Thread? && s.agents[a].t.Sleeping?
    ensures PhaseAfter(s.d.log).Waiting?
    ensures Next(Configured(config), s, TimeOut(a)).Some? <==> s.d.now >= PhaseAfter(s.d.log).until
  {
    ReachedHistory(config, acts, s);
  }

  /** The recorded sleep time never exceeds the timed waits completed, nor these the time that has passed. */
  lemma SleepIsAccounted(config: B.Config, acts: seq<Action>, s: State)
    requires Reached(config, acts, s)
    ensures s.d.sleeper.info.sleepMillis <= SleptAfter(s.d.log).total <= s.d.now
  {
    ReachedInv(config, acts, s);
    ReachedHistory(config, acts, s);
  }

  // ----- attempts

  /** The thread is between its write of "mem" and the next loop head. */
  predicate Reporting(t: ThreadPc) {
    t.Wrote? || t.DropTokens? || t.UpdateSleep? || t.RecordWakeup? ||
    t.WakeupLock? || t.WakeupCopy? || t.WakeupInvoke?
  }

  /** Outside that stretch, writes of "mem", recorded attempts, recorded wakeups and notification
      rounds are equal in number. */
  lemma AttemptsAgree(config: B.Config, acts: seq<Action>, s: State)
    requires Reached(config, acts, s)
    requires forall a :: a in s.agents && s.agents[a].Thread? ==> !Reporting(s.agents[a].t)
    ensures |s.d.writes| == s.d.sleeper.info.attempts == |s.d.recorded| == s.d.rounds
  {
    ReachedInv(config, acts, s);
    ReplayedIsReplay(config, s.d.outcomes);
    B.AttemptsSplit(config, s.d.outcomes);
    if s.d.created {
      var a :| a in s.agents && s.agents[a].Thread? && !s.agents[a].t.Exiting?;
      assert AgentAt(s.d, a, PcOf(s, a));
    }
  }

  // ----- lock discipline

  /** Every path back to the loop head holds mAutosuspendLock, and nothing else. */
  lemma LoopHeadHoldsOneMutex(config: B.Config, acts: seq<Action>, s: State, a: AgentId, shouldSleep: bool, m: Mutex)
    requires Reached(config, acts, s) && a in s.agents && s.agents[a] == Thread(Head(shouldSleep))
    ensures (m in s.owner && s.owner[m] == a) <==> m == AutosuspendMutex
  {
    LockInvReachable(Configured(config), acts);
    OwnsWhatItHolds(Holds, s.agents, s.owner, a, m);
  }

  /** The agent is in a loop that invokes client callbacks. */
  predicate Invoking(pc: Pc) {
    match pc
    case Thread(t) => t.WakeupInvoke?
    case Call(p) => p.NotifyInvoke?
  }

  lemma InvokingHolds(pc: Pc, m: Mutex)
    requires Invoking(pc)
    ensures !Holds(pc, m)
  {
  }

  /** While a client callback is invoked, its caller holds no mutex of the service. */
  lemma CallbacksHoldNothing(config: B.Config, acts: seq<Action>, s: State, a: AgentId, m: Mutex)
    requires Reached(config, acts, s) && a in s.agents && Invoking(s.agents[a])
    ensures m in s.owner ==> s.owner[m] != a
  {
    LockInvReachable(Configured(config), acts);
    OwnsWhatItHolds(Holds, s.agents, s.owner, a, m);
    InvokingHolds(s.agents[a], m);
  }

  lemma OwnsWhatItHolds(h: (Pc, Mutex) -> bool, agents: map<AgentId, Pc>, owner: map<Mutex, AgentId>,
                        a: AgentId, m: Mutex)
    requires Owned(h, agents, owner) && a in agents
    ensures (m in owner && owner[m] == a) <==> h(agents[a], m)
  {
  }

  /** A step that changes the counter or the flags is taken by the owner of mAutosuspendLock, and one
      that changes the tokens by the owner of both mutexes. */
  lemma GuardedData(config: B.Config, acts: seq<Action>, s: State, a: AgentId, ch: Choice, s': State)
    requires Reached(config, acts, s) && Next(Configured(config), s, Run(a, ch)) == Some(s')
    ensures s'.d.counter != s.d.counter || s'.d.enabled != s.d.enabled || s'.d.created != s.d.created ==>
              AutosuspendMutex in s.owner && s.owner[AutosuspendMutex] == a
    ensures s'.d.tokens != s.d.tokens ==> TokensMutex in s.owner && s.owner[TokensMutex] == a
  {
    ReachedInv(config, acts, s);
    var pc := s.agents[a];
    var k := ChangeOf(Configured(config), s.d, pc, Run(a, ch)).value;
    assert AgentAt(s.d, a, PcOf(s, a));
    OwnsWhatItHolds(Holds, s.agents, s.owner, a, AutosuspendMutex);
    OwnsWhatItHolds(Holds, s.agents, s.owner, a, TokensMutex);
    if pc.Thread? {
      ThreadGuarded(Configured(config), s.d, a, pc.t, ch, k);
    } else {
      OneWaiter(Configured(config), s);
      CallStep(s.d, a, pc.p, ch, k);
    }
  }

  /** The event is a write to a kernel file that decides about suspending. */
  predicate KernelWrite(e: Event) {
    e.CountWritten? || e.MemWritten? || e.Forced?
  }

  /** The wake locks and the suspend counter. */
  function Counts(d: Shared): (nat, map<LockId, WakeLock>) {
    (d.counter, d.wakeLocks)
  }

  lemma ThreadWrites(c: Service, d: Shared, a: AgentId, t: ThreadPc, ch: Choice, k: Change, e: Event)
    requires RunThread(c, d, a, t, ch) == Some(k) && ThreadSays(d, a, t, ch) == Some(e) && KernelWrite(e)
    ensures (t.WriteCount? || t.WriteMem?) && Counts(k.d) == Counts(d)
  {
    assert t.WriteCount? || t.WriteMem?;
    assert RunWrite(d, a, t, ch) == Some(k);
  }

  lemma CallWrites(d: Shared, a: AgentId, p: CallPc, ch: Choice, k: Change, e: Event)
    requires RunCall(d, a, p, ch) == Some(k) && CallSays(d, a, p, ch) == Some(e) && KernelWrite(e)
    ensures p == Force && Counts(k.d) == Counts(d)
  {
    assert p == Force;
  }

  /** The event a step adds, if it is a write, is what the step says. */
  lemma WriteIsSaid(log: seq<Event>, log': seq<Event>, o: Option<Event>, left: bool, a: AgentId, e: Event)
    requires Gains(log, log', o, left, a) && log' == log + [e] && KernelWrite(e)
    ensures o == Some(e)
  {
    assert log'[|log|] == e;
    if o.Some? { assert log'[|log|] == o.value; }
  }

  /** Whoever writes the wakeup count or "mem", the thread or forceSuspend, owns mAutosuspendLock,
      and leaves every wake lock and the counter as they were. */
  lemma KernelWritesAreGuarded(config: B.Config, acts: seq<Action>, s: State, a: AgentId, ch: Choice,
                               s': State, e: Event)
    requires Reached(config, acts, s) && Next(Configured(config), s, Run(a, ch)) == Some(s')
    requires s'.d.log == s.d.log + [e] && KernelWrite(e)
    ensures AutosuspendMutex in s.owner && s.owner[AutosuspendMutex] == a
    ensures s'.d.counter == s.d.counter && s'.d.wakeLocks == s.d.wakeLocks
  {
    ReachedInv(config, acts, s);
    var c, pc := Configured(config), s.agents[a];
    var k := ChangeOf(c, s.d, pc, Run(a, ch)).value;
    OwnsWhatItHolds(Holds, s.agents, s.owner, a, AutosuspendMutex);
    StepGains(c, s, Run(a, ch), s');
    WriteIsSaid(s.d.log, s'.d.log, StepSays(s, Run(a, ch)), LeftBy(s, s'), a, e);
    match pc
    case Thread(t) => ThreadWrites(c, s.d, a, t, ch, k, e);
    case Call(p) => CallWrites(s.d, a, p, ch, k, e);
  }

  /** a cannot go on before b: b owns the mutex a wants, or runs the once flag a is at. */
  ghost predicate BlockedBy(s: State, a: AgentId, b: AgentId) {
    a in s.agents &&
    match Wants(s.agents[a])
    case Some(m) => m in s.owner && s.owner[m] == b
    case None =>
      s.agents[a].Call? && s.agents[a].p.ReleaseEnter? && s.agents[a].p.l in s.d.wakeLocks &&
      s.d.wakeLocks[s.agents[a].p.l].once == Running(b)
  }

  function Level(pc: Pc): (n: nat)
    ensures n <= 2
  {
    match Wants(pc)
    case None => 0
    case Some(TokensMutex) => 1
    case Some(AutosuspendMutex) => 2
    case Some(CallbackMutex) => 1
    case Some(WakelockCallbackMutex) => 2
  }

  /** An agent that holds a mutex and waits, waits for one of a higher level. */
  lemma LevelsRise(pc: Pc, m: Mutex)
    requires Holds(pc, m)
    ensures Wants(pc).Some? ==> Level(pc) == 2 && m in {TokensMutex, CallbackMutex}
    ensures !(pc.Call? && pc.p.ReleaseEnter?)
  {
  }

  lemma BlockerIsAhead(config: B.Config, acts: seq<Action>, s: State, a: AgentId, b: AgentId, e: AgentId)
    requires Reached(config, acts, s) && BlockedBy(s, a, b) && BlockedBy(s, b, e)
    ensures Level(s.agents[b]) > Level(s.agents[a])
  {
    ReachedInv(config, acts, s);
    var pc := s.agents[a];
    assert AgentAt(s.d, b, PcOf(s, b));
    if Wants(pc).Some? {
      OwnerHolds(Holds, s.agents, s.owner, Wants(pc).value);
      LevelsRise(s.agents[b], Wants(pc).value);
    } else {
      assert Releasing(s.agents[b].p, pc.p.l);
    }
  }

  lemma OwnerHolds(h: (Pc, Mutex) -> bool, agents: map<AgentId, Pc>, owner: map<Mutex, AgentId>, m: Mutex)
    requires Owned(h, agents, owner) && m in owner
    ensures owner[m] in agents && h(agents[owner[m]], m)
  {
  }

  /** A relation along which a level up to 2 rises has no set that is stuck on itself. */
  lemma RisingIsAcyclic(stuck: set<AgentId>, r: (AgentId, AgentId) -> bool, level: AgentId -> nat)
    requires stuck != {}
    requires forall a, b, e :: r(a, b) && r(b, e) ==> level(a) < level(b) <= 2
    ensures exists a :: a in stuck && forall b :: b in stuck ==> !r(a, b)
  {
    var a0 :| a0 in stuck;
    if a1 :| a1 in stuck && r(a0, a1) {
      if a2 :| a2 in stuck && r(a1, a2) {
        if a3 :| a3 in stuck && r(a2, a3) {
          if a4 :| a4 in stuck && r(a3, a4) {
            assert false;
          }
        }
      }
    }
  }

  /** No set of agents is stuck on itself: among any of them one is blocked by none of them. */
  lemma NoCyclicWait(config: B.Config, acts: seq<Action>, s: State, stuck: set<AgentId>)
    requires Reached(config, acts, s) && stuck != {}
    ensures exists a :: a in stuck && forall b :: b in stuck ==> !BlockedBy(s, a, b)
  {
    var r := (a: AgentId, b: AgentId) => BlockedBy(s, a, b);
    var level := (a: AgentId) => if a in s.agents then Level(s.agents[a]) else 0;
    forall a: AgentId, b: AgentId, e: AgentId | r(a, b) && r(b, e)
      ensures level(a) < level(b) <= 2
    {
      BlockerIsAhead(config, acts, s, a, b, e);
    }
    RisingIsAcyclic(stuck, r, level);
    var a :| a in stuck && forall b :: b in stuck ==> !r(a, b);
    forall b | b in stuck ensures !BlockedBy(s, a, b) {
      assert !r(a, b);
    }
  }

  // ----- events

  /** What was observed, answered and done is what the log of a run says. */
  lemma EventsAreHonest(config: B.Config, acts: seq<Action>, s: State, act: Action, s': State)
    requires Reached(config, acts, s) && Next(Configured(config), s, act) == Some(s')
    ensures s.d.log <= s'.d.log
    ensures forall i :: |s.d.log| <= i < |s'.d.log| ==> Honest(s, act, s'.d.log[i])
    ensures LeftBy(s, s') ==> s'.d.log != s.d.log && s'.d.log[|s'.d.log| - 1] == Unlocked(s.owner[AutosuspendMutex])
  {
    ReachedInv(config, acts, s);
    StepIsHonest(Configured(config), s, act, s');
  }

  lemma ThreadIsSomewhere(config: B.Config, acts: seq<Action>, s: State)
    requires Reached(config, acts, s)
    ensures PhaseAfter(s.d.log) != Lost
  {
    ReachedInv(config, acts, s);
    ReachedHistory(config, acts, s);
    if s.d.created {
      var a :| a in s.agents && s.agents[a].Thread? && !s.agents[a].t.Exiting?;
      assert ThreadTold(s.d, s.agents[a].t);
    }
  }

  /** At every moment of every run the thread has done just what its loop asks for, and every client call
      what it owes, whatever the others did in between. */
  lemma FollowsScript(config: B.Config, acts: seq<Action>, s: State, n: nat, a: AgentId)
    requires Reached(config, acts, s) && n <= |s.d.log|
    ensures PhaseAfter(s.d.log[..n]) != Lost && DutyAfter(s.d.log[..n], a) != Astray
  {
    ThreadIsSomewhere(config, acts, s);
    ReachedHistory(config, acts, s);
    assert CallTold(s.d.log, a, PcOf(s, a));
    StaysAstray(s.d.log, n, a);
  }

  /** A call that is over owes nothing, and one that is not owes what is left of it. */
  lemma NobodyOwesUnseen(config: B.Config, acts: seq<Action>, s: State, a: AgentId)
    requires Reached(config, acts, s)
    ensures DutyAfter(s.d.log, a) == Idle <==> !(a in s.agents && s.agents[a].Call?)
  {
    ReachedHistory(config, acts, s);
    assert CallTold(s.d.log, a, PcOf(s, a));
  }

  /** Autosuspend is enabled exactly for the tokens given since it was last disabled; the suspend counter
      is the number of wake locks counted less those uncounted, on 32 bits. */
  lemma FlagsAreTold(config: B.Config, acts: seq<Action>, s: State)
    requires Reached(config, acts, s)
    ensures s.d.tokens == TokensAfter(s.d.log)
    ensures s.d.enabled <==> TokensAfter(s.d.log) != []
    ensures s.d.counter == CountAfter(s.d.log) % COUNTER_MODULUS
  {
    ReachedInv(config, acts, s);
    ReachedHistory(config, acts, s);
  }

  /** Each recorded outcome is the kernel's answer to the write of "mem" of that number, with the times
      read after it; each recorded wakeup is the parse of the reasons read; and the sleep time and
      statistics are those of these outcomes. */
  lemma AttemptsAreAnswers(config: B.Config, acts: seq<Action>, s: State, i: nat)
    requires Reached(config, acts, s)
    ensures |TimesAfter(s.d.log)| <= |MemsAfter(s.d.log)| == |s.d.writes|
    ensures |s.d.outcomes| == |TimesAfter(s.d.log)| && |s.d.recorded| == |ContentsAfter(s.d.log)|
    ensures i < |s.d.outcomes| ==>
              s.d.outcomes[i].success == MemsAfter(s.d.log)[i].ok &&
              s.d.outcomes[i].suspendTime == TimesAfter(s.d.log)[i].suspendTime &&
              s.d.outcomes[i].overhead == TimesAfter(s.d.log)[i].overhead
    ensures i < |s.d.recorded| ==> s.d.recorded[i] == R.Reasons(ContentsAfter(s.d.log)[i])
    ensures s.d.sleeper == B.Replay(config, AttemptsAfter(s.d.log))
  {
    ReachedInv(config, acts, s);
    ReachedHistory(config, acts, s);
    OutcomesAreAttempts(Configured(config), s.d);
    ReplayedIsReplay(config, s.d.outcomes);
  }

  /** A client about to leave forceSuspend has written "mem", in one hold of the mutex, whatever wake
      locks are held. */
  lemma ForceWrites(config: B.Config, acts: seq<Action>, s: State, a: AgentId) returns (j: nat)
    requires Reached(config, acts, s) && a in s.agents && s.agents[a] == Call(DropForce)
    ensures j < |s.d.log| && s.d.log[j].Forced? && s.d.log[j].who == a
    ensures forall i :: j < i < |s.d.log| ==> s.d.log[i] != Unlocked(a)
  {
    ReachedHistory(config, acts, s);
    assert CallTold(s.d.log, a, PcOf(s, a));
    var ok: bool :| Forced(a, ok) in SinceUnlock(s.d.log, a);
    j := DoneSince(s.d.log, a, Forced(a, ok));
  }

  /** A client about to leave disableAutosuspend, both mutexes still its own, finds autosuspend off. */
  lemma DisableDisables(config: B.Config, acts: seq<Action>, s: State, a: AgentId, ch: Choice, s': State)
    requires Reached(config, acts, s) && a in s.agents && s.agents[a] == Call(Disable)
    requires Next(Configured(config), s, Run(a, ch)) == Some(s')
    ensures s'.agents[a] == Call(DropBoth) && !s'.d.enabled && s'.d.tokens == [] && s'.d.waiters == {}
  {
    ReachedInv(config, acts, s);
    OneWaiter(Configured(config), s);
    assert forall x :: x in s.d.waiters ==> WaitAt(s.d, x, PcOf(s, x));
  }
}
