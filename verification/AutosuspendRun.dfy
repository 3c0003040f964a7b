/** Runs that suspend: the safety theorems are about something that happens, their exception included. */
module AutosuspendRun {
  import opened Common
  import opened Autosuspend
  import opened AutosuspendInvariant
  import opened AutosuspendCalls
  import opened AutosuspendTheorems
  import B = Backoff

  const CLIENT: AgentId := 1
  const THREAD: AgentId := 2

  function Pick(text: string): Choice {
    Choice(true, text, None, 0, 0, 0, THREAD)
  }

  /** Some run ends in s. */
  ghost predicate Possible(c: Service, s: State) {
    exists acts: seq<Action> :: Exec(c, acts) == Some(s)
  }

  lemma ExecMore(c: Service, acts: seq<Action>, s: State, act: Action)
    requires Exec(c, acts) == Some(s)
    ensures Exec(c, acts + [act]) == Next(c, s, act)
  {
    assert (acts + [act])[..|acts|] == acts;
  }

  lemma Then(c: Service, s: State, act: Action) returns (s': State)
    requires Possible(c, s) && Next(c, s, act).Some?
    ensures Possible(c, s') && Next(c, s, act) == Some(s')
  {
    s' := Next(c, s, act).value;
    var acts :| Exec(c, acts) == Some(s);
    ExecMore(c, acts, s, act);
  }

  type Locks = map<LockId, WakeLock>

  /** Neither agent is there, the mutexes are free and autosuspend has not been enabled; the wake locks
      are w. */
  ghost predicate Quiet(c: Service, s: State, w: Locks) {
    && Possible(c, s) && CLIENT !in s.agents && THREAD !in s.agents
    && TokensMutex !in s.owner && AutosuspendMutex !in s.owner && WakelockCallbackMutex !in s.owner
    && !s.d.enabled && !s.d.created && s.d.wakeLocks == w
  }

  /** The thread is at t and the mutexes are taken as said. */
  ghost predicate Running(c: Service, s: State, w: Locks, t: ThreadPc, tokens: bool, autosuspend: bool) {
    && Possible(c, s) && THREAD in s.agents && s.agents[THREAD] == Thread(t)
    && (TokensMutex in s.owner <==> tokens) && (AutosuspendMutex in s.owner <==> autosuspend)
    && s.d.enabled && s.d.tokens != [] && s.d.counter == 0 && s.d.wakeLocks == w
  }

  ghost predicate Calling(c: Service, s: State, w: Locks, p: CallPc, tokens: bool, autosuspend: bool) {
    && Possible(c, s) && CLIENT in s.agents && s.agents[CLIENT] == Call(p)
    && (TokensMutex in s.owner <==> tokens) && (AutosuspendMutex in s.owner <==> autosuspend)
    && s.d.counter == 0 && s.d.wakeLocks == w
  }

  lemma ToEnable(c: Service, s0: State, w: Locks) returns (s: State)
    requires Quiet(c, s0, w) && s0.d.counter == 0
    ensures Calling(c, s, w, Enable(7), true, true) && THREAD !in s.agents && !s.d.enabled && !s.d.created
  {
    s := Then(c, s0, Arrive(CLIENT, EnterEnable(7)));
    s := Then(c, s, Take(CLIENT));
    s := Then(c, s, Take(CLIENT));
  }

  /** The thread has been started and the client is about to leave. */
  lemma ToEnabled(c: Service, s0: State, w: Locks) returns (s: State)
    requires Quiet(c, s0, w) && s0.d.counter == 0
    ensures Running(c, s, w, Start, true, true) && CLIENT in s.agents && s.agents[CLIENT] == Call(DropBoth)
  {
    s := ToEnable(c, s0, w);
    s := Then(c, s, Run(CLIENT, Pick("")));
  }

  lemma ToSpawned(c: Service, s0: State, w: Locks) returns (s: State)
    requires Quiet(c, s0, w) && s0.d.counter == 0
    ensures Running(c, s, w, Start, false, false)
  {
    s := ToEnabled(c, s0, w);
    s := Then(c, s, Run(CLIENT, Pick("")));
    s := Then(c, s, Run(CLIENT, Pick("")));
  }

  lemma ToHead(c: Service, s0: State, w: Locks) returns (s: State)
    requires Quiet(c, s0, w) && s0.d.counter == 0
    ensures Running(c, s, w, Head(true), false, true)
  {
    s := ToSpawned(c, s0, w);
    s := Then(c, s, Take(THREAD));
  }

  lemma ToSleeping(c: Service, s0: State, w: Locks) returns (s: State, deadline: int, span: int)
    requires Quiet(c, s0, w) && s0.d.counter == 0
    ensures Running(c, s, w, Sleeping(deadline, span), false, false)
  {
    s := ToHead(c, s0, w);
    deadline, span := s.d.now + s.d.sleeper.sleepTime, s.d.sleeper.sleepTime;
    s := Then(c, s, Run(THREAD, Pick("")));
  }

  lemma ToTimedOut(c: Service, s0: State, w: Locks) returns (s: State, deadline: int, span: int)
    requires Quiet(c, s0, w) && s0.d.counter == 0
    ensures Running(c, s, w, SleepLock(deadline, span, true), false, false)
  {
    s, deadline, span := ToSleeping(c, s0, w);
    s := Then(c, s, Tick(if deadline > s.d.now then deadline - s.d.now else 0));
    s := Then(c, s, TimeOut(THREAD));
  }

  lemma ToCountRead(c: Service, s0: State, w: Locks) returns (s: State)
    requires Quiet(c, s0, w) && s0.d.counter == 0
    ensures Running(c, s, w, CountLock(true, "1"), false, false)
  {
    var deadline, span;
    s, deadline, span := ToTimedOut(c, s0, w);
    s := Then(c, s, Take(THREAD));
    s := Then(c, s, Run(THREAD, Pick("")));
    s := Then(c, s, Run(THREAD, Pick("1")));
  }

  lemma ToCounterCheck(c: Service, s0: State, w: Locks) returns (s: State)
    requires Quiet(c, s0, w) && s0.d.counter == 0
    ensures Running(c, s, w, CounterCheck("1"), false, true)
  {
    s := ToCountRead(c, s0, w);
    s := Then(c, s, Take(THREAD));
    s := Then(c, s, Run(THREAD, Pick("")));
  }

  lemma ToTokensLock(c: Service, s0: State, w: Locks) returns (s: State)
    requires Quiet(c, s0, w) && s0.d.counter == 0
    ensures Running(c, s, w, TokensLock("1"), false, false)
  {
    s := ToCounterCheck(c, s0, w);
    s := Then(c, s, Run(THREAD, Pick("")));
  }

  lemma ToFinalCheck(c: Service, s0: State, w: Locks) returns (s: State)
    requires Quiet(c, s0, w) && s0.d.counter == 0
    ensures Running(c, s, w, FinalCheck("1"), true, true)
  {
    s := ToTokensLock(c, s0, w);
    s := Then(c, s, Take(THREAD));
    s := Then(c, s, Take(THREAD));
  }

  lemma ToWriteCount(c: Service, s0: State, w: Locks) returns (s: State)
    requires Quiet(c, s0, w) && s0.d.counter == 0
    ensures Running(c, s, w, WriteCount("1"), true, true)
  {
    s := ToFinalCheck(c, s0, w);
    s := Then(c, s, Run(THREAD, Pick("")));
  }

  lemma ToWriteMem(c: Service, s0: State, w: Locks) returns (s: State)
    requires Quiet(c, s0, w) && s0.d.counter == 0
    ensures Running(c, s, w, WriteMem("1"), true, true)
  {
    s := ToWriteCount(c, s0, w);
    s := Then(c, s, Run(THREAD, Pick("")));
  }

  /** With any configuration there is a run in which the thread gets to write "mem". */
  lemma SuspendIsPossible(c: Service)
    ensures exists acts: seq<Action>, s: State ::
              Exec(c, acts) == Some(s) && THREAD in s.agents && s.agents[THREAD] == Thread(WriteMem("1"))
  {
    assert Exec(c, []) == Some(Init(c));
    var s := ToWriteMem(c, Init(c), map[]);
    assert s.agents[THREAD] == Thread(WriteMem("1"));
  }

  // ----- the counter wraps

  const HELD := WakeLock(CLIENT, 1, 0, true, NotRun)

  /** n wake locks, all of them held. */
  function Held(n: nat): (w: Locks)
    ensures forall l: LockId :: l in w <==> l < n
  {
    if n == 0 then map[] else Held(n - 1)[n - 1 := HELD]
  }

  /** The client is at p, holding mAutosuspendLock or nothing; the wake locks are w and the counter is n. */
  ghost predicate Acquiring(c: Service, s: State, w: Locks, n: nat, p: CallPc, autosuspend: bool) {
    && Possible(c, s) && CLIENT in s.agents && s.agents[CLIENT] == Call(p) && THREAD !in s.agents
    && TokensMutex !in s.owner && WakelockCallbackMutex !in s.owner && (AutosuspendMutex in s.owner <==> autosuspend)
    && !s.d.enabled && !s.d.created && s.d.wakeLocks == w && s.d.counter == n
  }

  lemma ToAcquire(c: Service, s0: State, w: Locks, l: LockId) returns (s: State)
    requires Quiet(c, s0, w) && l !in w
    ensures Acquiring(c, s, w[l := HELD.(incs := 0, published := false)], s0.d.counter, Acquire(l), true)
  {
    s := Then(c, s0, Arrive(CLIENT, EnterAcquire(Aidl, l)));
    s := Then(c, s, Take(CLIENT));
  }

  lemma ToCounted(c: Service, s0: State, w: Locks, l: LockId) returns (s: State)
    requires Quiet(c, s0, w) && l !in w
    ensures Acquiring(c, s, w[l := HELD.(published := false)], (s0.d.counter + 1) % COUNTER_MODULUS,
                      DropAcquire(l), true)
  {
    s := ToAcquire(c, s0, w, l);
    s := Then(c, s, Run(CLIENT, Pick("")));
  }

  lemma ToStat(c: Service, s0: State, w: Locks, l: LockId) returns (s: State)
    requires Quiet(c, s0, w) && l !in w
    ensures Acquiring(c, s, w[l := HELD.(published := false)], (s0.d.counter + 1) % COUNTER_MODULUS,
                      AcquireStat(l), false)
  {
    s := ToCounted(c, s0, w, l);
    s := Then(c, s, Run(CLIENT, Pick("")));
  }

  lemma ToNotify(c: Service, s0: State, w: Locks, l: LockId) returns (s: State)
    requires Quiet(c, s0, w) && l !in w
    ensures Acquiring(c, s, w[l := HELD.(published := false)], (s0.d.counter + 1) % COUNTER_MODULUS,
                      NotifyLock(Publish(l)), false)
  {
    s := ToStat(c, s0, w, l);
    s := Then(c, s, Run(CLIENT, Pick("")));
  }

  /** The client holds the wake-lock callback mutex. */
  ghost predicate Copying(c: Service, s: State, w: Locks, n: nat, p: CallPc) {
    && Possible(c, s) && CLIENT in s.agents && s.agents[CLIENT] == Call(p) && THREAD !in s.agents
    && TokensMutex !in s.owner && AutosuspendMutex !in s.owner
    && !s.d.enabled && !s.d.created && s.d.wakeLocks == w && s.d.counter == n
  }

  lemma ToCopy(c: Service, s0: State, w: Locks, l: LockId) returns (s: State)
    requires Quiet(c, s0, w) && l !in w
    ensures Copying(c, s, w[l := HELD.(published := false)], (s0.d.counter + 1) % COUNTER_MODULUS,
                    NotifyCopy(Publish(l)))
  {
    s := ToNotify(c, s0, w, l);
    s := Then(c, s, Take(CLIENT));
  }

  lemma ToNotified(c: Service, s0: State, w: Locks, l: LockId) returns (s: State)
    requires Quiet(c, s0, w) && l !in w
    ensures Acquiring(c, s, w[l := HELD.(published := false)], (s0.d.counter + 1) % COUNTER_MODULUS,
                      NotifyInvoke(Publish(l), 0), false)
  {
    s := ToCopy(c, s0, w, l);
    s := Then(c, s, Run(CLIENT, Pick("")));
  }

  lemma ToReturn(c: Service, s0: State, w: Locks, l: LockId) returns (s: State)
    requires Quiet(c, s0, w) && l !in w
    ensures Acquiring(c, s, w[l := HELD], (s0.d.counter + 1) % COUNTER_MODULUS, Return, false)
  {
    s := ToNotified(c, s0, w, l);
    s := Then(c, s, Run(CLIENT, Pick("")));
  }

  /** One wake lock is acquired and its call returns. */
  lemma OneMore(c: Service, s0: State, w: Locks, l: LockId) returns (s: State)
    requires Quiet(c, s0, w) && l !in w
    ensures Quiet(c, s, w[l := HELD]) && s.d.counter == (s0.d.counter + 1) % COUNTER_MODULUS
  {
    s := ToReturn(c, s0, w, l);
    s := Then(c, s, Run(CLIENT, Pick("")));
  }

  lemma {:induction false} ManyMore(c: Service, n: nat) returns (s: State)
    ensures Quiet(c, s, Held(n)) && s.d.counter == n % COUNTER_MODULUS
  {
    if n == 0 {
      s := Init(c);
      assert Exec(c, []) == Some(s);
    } else {
      s := ManyMore(c, n - 1);
      ModularStep(s.d.counter, n - 1);
      s := OneMore(c, s, Held(n - 1), n - 1);
    }
  }

  lemma {:induction false} AllCounted(n: nat)
    ensures |CountedLocks(Held(n))| == n
  {
    if n == 0 {
      assert CountedLocks(Held(0)) == {};
    } else {
      AllCounted(n - 1);
      assert CountedLocks(Held(n)) == CountedLocks(Held(n - 1)) + {n - 1};
    }
  }

  /** With any configuration there is a run in which the thread gets to write "mem" while 2^32 wake
      locks are held. */
  lemma WrapIsPossible(config: B.Config)
    ensures exists acts: seq<Action>, s: State ::
              Reached(config, acts, s) && THREAD in s.agents && s.agents[THREAD] == Thread(WriteMem("1")) &&
              |CountedLocks(s.d.wakeLocks)| == COUNTER_MODULUS
  {
    var c := Configured(config);
    var s := ManyMore(c, COUNTER_MODULUS);
    s := ToWriteMem(c, s, Held(COUNTER_MODULUS));
    AllCounted(COUNTER_MODULUS);
    var acts :| Exec(c, acts) == Some(s);
    assert Reached(config, acts, s);
  }

  // ----- forcing

  lemma ToForce(c: Service, s0: State, w: Locks) returns (s: State)
    requires Quiet(c, s0, w)
    ensures Acquiring(c, s, w, s0.d.counter, Force, true)
  {
    s := Then(c, s0, Arrive(CLIENT, EnterForce));
    s := Then(c, s, Take(CLIENT));
  }

  lemma ToForced(c: Service, s0: State, w: Locks) returns (s: State)
    requires Quiet(c, s0, w)
    ensures Acquiring(c, s, w, s0.d.counter, DropForce, true) && s.d.log != [] &&
            s.d.log[|s.d.log| - 1] == Forced(CLIENT, true)
  {
    s := ToForce(c, s0, w);
    s := Then(c, s, Run(CLIENT, Pick("")));
  }

  /** With any configuration there is a run in which a client writes "mem" while a wake lock is held. */
  lemma ForceIgnoresWakeLocks(config: B.Config)
    ensures exists acts: seq<Action>, s: State ::
              Reached(config, acts, s) && s.d.counter == 1 && |CountedLocks(s.d.wakeLocks)| == 1 &&
              s.d.log != [] && s.d.log[|s.d.log| - 1] == Forced(CLIENT, true)
  {
    var c := Configured(config);
    var s := ManyMore(c, 1);
    s := ToForced(c, s, Held(1));
    AllCounted(1);
    var acts :| Exec(c, acts) == Some(s);
    assert Reached(config, acts, s);
  }
}
