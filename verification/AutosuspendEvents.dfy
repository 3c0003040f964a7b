/** The events of a run are honest: what they say was observed, answered or done at that step. */
module AutosuspendEvents {
  import opened Common
  import opened Autosuspend
  import opened AutosuspendLocks
  import opened AutosuspendInvariant
  import opened AutosuspendProof
  import opened AutosuspendScript
  import opened AutosuspendTrace
  import opened AutosuspendHistory
  import B = Backoff

  /** Event e of an action in state s says what is the case. */
  predicate Honest(s: State, act: Action, e: Event) {
    !act.Tick? && e.who == act.a &&
    match e
    case Stopped(_) => !s.d.enabled
    case WaitBegun(_, at, span) => s.d.enabled && at == s.d.now && span == s.d.sleeper.sleepTime
    case NoWait(_) => s.d.enabled
    case WaitOver(_, at, enabled) => at == s.d.now && enabled == s.d.enabled
    case CountRead(_, count) => act.Run? && count == act.ch.text
    case CounterSeen(_, enabled, counter) => enabled == s.d.enabled && counter == s.d.counter
    case TokensSeen(_, some, counter) => some == (s.d.tokens != []) && counter == s.d.counter
    case CountWritten(_, _, ok) => act.Run? && ok == act.ch.ok
    case MemWritten(_, at, ok) => act.Run? && at == s.d.now && ok == act.ch.ok
    case TimesRead(_, suspendTime, overhead) =>
      act.Run? && suspendTime == act.ch.suspendTime && overhead == act.ch.overhead
    case ReasonsRead(_, content) => act.Run? && content == act.ch.reasons
    case WakeupCopied(_, copies) => act.Run? && copies == act.ch.copies
    case WakelockCopied(_, copies) => act.Run? && copies == act.ch.copies
    case Forced(_, ok) => act.Run? && ok == act.ch.ok
    case OnceSeen(_, l, ran) => l in s.d.wakeLocks && ran == (s.d.wakeLocks[l].once == Ran)
    case Entered(a, entry) => act == Arrive(a, entry)
    case Unlocked(_) => AutosuspendMutex in s.owner && s.owner[AutosuspendMutex] == act.a
    case _ => act.Run?
  }

  /** What an action tells. */
  function StepSays(s: State, act: Action): Option<Event> {
    match act
    case Arrive(a, entry) => Some(Entered(a, entry))
    case Run(a, ch) =>
      if a !in s.agents then None
      else
        (match s.agents[a]
         case Thread(t) => ThreadSays(s.d, a, t, ch)
         case Call(p) => CallSays(s.d, a, p, ch))
    case _ => None
  }

  lemma ThreadSaysHonest(s: State, a: AgentId, t: ThreadPc, ch: Choice)
    requires ThreadSays(s.d, a, t, ch).Some?
    ensures Honest(s, Run(a, ch), ThreadSays(s.d, a, t, ch).value)
  {
  }

  lemma CallSaysHonest(s: State, a: AgentId, p: CallPc, ch: Choice)
    requires CallSays(s.d, a, p, ch).Some? && CallAt(s.d.wakeLocks, a, p)
    ensures Honest(s, Run(a, ch), CallSays(s.d, a, p, ch).value)
  {
  }

  lemma StepSaysHonest(c: Service, s: State, act: Action)
    requires Inv(c, s) && StepSays(s, act).Some?
    ensures Honest(s, act, StepSays(s, act).value)
  {
    if act.Run? {
      assert AgentAt(s.d, act.a, PcOf(s, act.a));
      match s.agents[act.a]
      case Thread(t) => ThreadSaysHonest(s, act.a, t, act.ch);
      case Call(p) => CallSaysHonest(s, act.a, p, act.ch);
    }
  }

  /** What a log gains: what is said, and then leaving the mutex, if the step does. */
  predicate Gains(log: seq<Event>, log': seq<Event>, o: Option<Event>, left: bool, a: AgentId) {
    log' == With(log, o) + (if left then [Unlocked(a)] else [])
  }

  lemma RunGains(c: Service, s: State, a: AgentId, ch: Choice, k: Change)
    requires a in s.agents && ChangeOf(c, s.d, s.agents[a], Run(a, ch)) == Some(k)
    ensures Gains(s.d.log, k.d.log, StepSays(s, Run(a, ch)), k.drop == Some(AutosuspendMutex), a)
  {
    match s.agents[a]
    case Thread(t) => ThreadSpeaks(c, s.d, a, t, ch, k);
    case Call(p) => CallSpeaks(s.d, a, p, ch, k);
  }

  lemma WakeGains(d: Shared, a: AgentId, pc: Pc, k: Change)
    requires RunWake(d, a, pc) == Some(k) || RunTimeOut(d, a, pc) == Some(k)
    ensures k.d.log == d.log && k.drop == None
  {
  }

  lemma ArriveGains(d: Shared, a: AgentId, entry: Entry, k: Change)
    requires RunEntry(d, a, entry) == Some(k)
    ensures Gains(d.log, k.d.log, Some(Entered(a, entry)), false, a) && k.drop == None
  {
    EntrySays(d, a, entry, k);
    ArrivalHoldsNothing(d, a, entry, k);
  }

  /** Whether the step leaves mAutosuspendLock. */
  predicate LeftBy(s: State, s': State) {
    AutosuspendMutex in s.owner && AutosuspendMutex !in s'.owner
  }

  lemma DropsOwn(h: (Pc, Mutex) -> bool, s: State, a: AgentId, k: Change)
    requires Owned(h, s.agents, s.owner) && a in s.agents && (k.drop.Some? ==> h(s.agents[a], k.drop.value))
    ensures LeftBy(s, Apply(s, a, k)) <==> k.drop == Some(AutosuspendMutex)
    ensures k.drop == Some(AutosuspendMutex) ==> s.owner[AutosuspendMutex] == a
  {
  }

  lemma ChangeGains(c: Service, s: State, act: Action, k: Change)
    requires (act.Run? || act.Wake? || act.TimeOut?) && act.a in s.agents && LockInv(s)
    requires ChangeOf(c, s.d, s.agents[act.a], act) == Some(k)
    ensures var s' := Apply(s, act.a, k);
            Gains(s.d.log, s'.d.log, StepSays(s, act), LeftBy(s, s'), act.a) &&
            (LeftBy(s, s') ==> s.owner[AutosuspendMutex] == act.a)
  {
    if act.Run? {
      RunGains(c, s, act.a, act.ch, k);
      ChangeAccounts(c, s.d, s.agents[act.a], act, k);
    } else {
      WakeGains(s.d, act.a, s.agents[act.a], k);
    }
    DropsOwn(Holds, s, act.a, k);
  }

  /** The log of a run only grows, by what the step says and by leaving mAutosuspendLock. */
  lemma StepGains(c: Service, s: State, act: Action, s': State)
    requires Inv(c, s) && Next(c, s, act) == Some(s') && !act.Tick?
    ensures Gains(s.d.log, s'.d.log, StepSays(s, act), LeftBy(s, s'), act.a)
    ensures LeftBy(s, s') ==> s.owner[AutosuspendMutex] == act.a
  {
    NextIs(c, s, act);
    if act.Arrive? {
      ArriveGains(s.d, act.a, act.entry, RunEntry(s.d, act.a, act.entry).value);
    } else if !act.Take? {
      ChangeGains(c, s, act, ChangeOf(c, s.d, s.agents[act.a], act).value);
    }
  }

  lemma GainsAreHonest(h: Event -> bool, log: seq<Event>, log': seq<Event>, o: Option<Event>, left: bool, a: AgentId)
    requires Gains(log, log', o, left, a) && (o.Some? ==> h(o.value)) && (left ==> h(Unlocked(a)))
    ensures log <= log' && forall i :: |log| <= i < |log'| ==> h(log'[i])
    ensures left ==> log' != log && log'[|log'| - 1] == Unlocked(a)
  {
  }

  lemma UnlockIsHonest(c: Service, s: State, act: Action, s': State)
    requires Inv(c, s) && Next(c, s, act) == Some(s') && !act.Tick? && LeftBy(s, s')
    ensures Honest(s, act, Unlocked(act.a))
  {
    StepGains(c, s, act, s');
  }

  lemma ActionIsHonest(c: Service, s: State, act: Action, s': State, h: Event -> bool)
    requires Inv(c, s) && Next(c, s, act) == Some(s') && !act.Tick?
    requires StepSays(s, act).Some? ==> h(StepSays(s, act).value)
    requires LeftBy(s, s') ==> h(Unlocked(act.a))
    ensures s.d.log <= s'.d.log && forall i :: |s.d.log| <= i < |s'.d.log| ==> h(s'.d.log[i])
    ensures LeftBy(s, s') ==> s'.d.log != s.d.log && s'.d.log[|s'.d.log| - 1] == Unlocked(s.owner[AutosuspendMutex])
  {
    StepGains(c, s, act, s');
    GainsAreHonest(h, s.d.log, s'.d.log, StepSays(s, act), LeftBy(s, s'), act.a);
  }

  /** Every event a step adds is honest, and leaving mAutosuspendLock is told. */
  lemma StepIsHonest(c: Service, s: State, act: Action, s': State)
    requires Inv(c, s) && Next(c, s, act) == Some(s')
    ensures s.d.log <= s'.d.log
    ensures forall i :: |s.d.log| <= i < |s'.d.log| ==> Honest(s, act, s'.d.log[i])
    ensures LeftBy(s, s') ==> s'.d.log != s.d.log && s'.d.log[|s'.d.log| - 1] == Unlocked(s.owner[AutosuspendMutex])
  {
    if act.Tick? {
      NextIs(c, s, act);
    } else {
      var h := (e: Event) => Honest(s, act, e);
      if StepSays(s, act).Some? { StepSaysHonest(c, s, act); }
      if LeftBy(s, s') { UnlockIsHonest(c, s, act, s'); }
      ActionIsHonest(c, s, act, s', h);
      assert forall i :: |s.d.log| <= i < |s'.d.log| ==> h(s'.d.log[i]);
    }
  }

  // ----- waits

  /** The attempts a run tells: what the kernel answered, and the times it reported. */
  function AttemptsAfter(log: seq<Event>): seq<B.Outcome> {
    var mems, times := MemsAfter(log), TimesAfter(log);
    seq(if |times| <= |mems| then |times| else 0, i requires 0 <= i < |times| && |times| <= |mems| =>
      B.Outcome(mems[i].ok, times[i].suspendTime, times[i].overhead))
  }

  lemma OutcomesAreAttempts(c: Service, d: Shared)
    requires Chronicle(c, d)
    ensures d.outcomes == AttemptsAfter(d.log)
  {
  }

  /** Every timed wait is for the sleep time that the attempts before it call for. */
  ghost predicate WaitsTold(c: Service, log: seq<Event>) {
    forall i :: 0 <= i < |log| && log[i].WaitBegun? ==>
                  log[i].span == Replayed(c, AttemptsAfter(log[..i])).sleepTime
  }

  lemma WaitsGain(c: Service, log: seq<Event>, log': seq<Event>, o: Option<Event>, left: bool, a: AgentId)
    requires WaitsTold(c, log) && Gains(log, log', o, left, a)
    requires o.Some? && o.value.WaitBegun? ==> o.value.span == Replayed(c, AttemptsAfter(log)).sleepTime
    ensures WaitsTold(c, log')
  {
    forall i | 0 <= i < |log'| && log'[i].WaitBegun?
      ensures log'[i].span == Replayed(c, AttemptsAfter(log'[..i])).sleepTime
    {
      if i < |log| {
        assert log'[i] == log[i] && log'[..i] == log[..i];
      } else {
        assert o.Some? && log'[i] == o.value && log'[..i] == log;
      }
    }
  }

  lemma WaitsNext(c: Service, s: State, act: Action, s': State)
    requires Inv(c, s) && HistoryInv(c, s) && Next(c, s, act) == Some(s') && WaitsTold(c, s.d.log)
    ensures WaitsTold(c, s'.d.log)
  {
    if act.Tick? {
      NextIs(c, s, act);
    } else {
      StepGains(c, s, act, s');
      OutcomesAreAttempts(c, s.d);
      if StepSays(s, act).Some? { StepSaysHonest(c, s, act); }
      WaitsGain(c, s.d.log, s'.d.log, StepSays(s, act), LeftBy(s, s'), act.a);
    }
  }

  lemma {:induction false} WaitsReachable(c: Service, acts: seq<Action>)
    requires Fits(c) && Exec(c, acts).Some?
    ensures WaitsTold(c, Exec(c, acts).value.d.log)
  {
    if acts != [] {
      var p := acts[..|acts| - 1];
      InvReachable(c, p);
      HistoryReachable(c, p);
      WaitsReachable(c, p);
      WaitsNext(c, Exec(c, p).value, acts[|acts| - 1], Exec(c, acts).value);
    }
  }
}
