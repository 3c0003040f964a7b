/** Every run follows the script, and the shared data is what the events of the run tell. */
module AutosuspendHistory {
  import opened Common
  import opened Autosuspend
  import opened AutosuspendLocks
  import opened AutosuspendInvariant
  import opened AutosuspendThread
  import opened AutosuspendCalls
  import opened AutosuspendProof
  import opened AutosuspendScript
  import opened AutosuspendTrace
  import B = Backoff

  // ----- the invariant

  ghost predicate Chronicle(c: Service, d: Shared) {
    && DataIs(c, d, TokensAfter(d.log), CountAfter(d.log), MemsAfter(d.log), TimesAfter(d.log), ContentsAfter(d.log))
    && WaitsAre(d, SleptAfter(d.log)) && (!d.created ==> PhaseAfter(d.log) == Top(true))
  }

  ghost predicate ThreadTold(d: Shared, t: ThreadPc) {
    PhaseAfter(d.log) == PhaseOf(t) && Lasted(d, t) && Remembers(MemsAfter(d.log), TimesAfter(d.log), t) &&
    InWait(SleptAfter(d.log), t)
  }

  /** A blocked thread has been notified only if there was something to tell it. */
  ghost predicate Roused(d: Shared, a: AgentId, t: ThreadPc) {
    Blocked(t) && a !in d.waiters ==> NewsAfter(d.log)
  }

  function DutyOfPc(o: Option<Pc>): Duty {
    if o.Some? && o.value.Call? then DutyAt(o.value.p) else Idle
  }

  /** a has forced a suspend and not left mAutosuspendLock since. */
  ghost predicate HasForced(log: seq<Event>, a: AgentId) {
    exists ok: bool :: Forced(a, ok) in SinceUnlock(log, a)
  }

  ghost predicate CallTold(log: seq<Event>, a: AgentId, o: Option<Pc>) {
    DutyAfter(log, a) == DutyOfPc(o) && (o == Some(Call(DropForce)) ==> HasForced(log, a))
  }

  ghost predicate HistoryInv(c: Service, s: State) {
    && Chronicle(c, s.d)
    && (forall a :: a in s.agents && s.agents[a].Thread? ==>
          ThreadTold(s.d, s.agents[a].t) && Roused(s.d, a, s.agents[a].t))
    && (forall a: AgentId :: CallTold(s.d.log, a, PcOf(s, a)))
  }

  // ----- one more event

  lemma FoldsGrow(log: seq<Event>, log': seq<Event>, o: Option<Event>, a: AgentId)
    requires Grows(log, log', o, a)
    ensures PhaseAfter(log') == Followed(PhaseAfter(log), o)
    ensures TokensAfter(log') == Stepped(Registering, TokensAfter(log), o)
    ensures CountAfter(log') == Stepped(Counting, CountAfter(log), o)
    ensures MemsAfter(log') == Stepped(Suspends, MemsAfter(log), o)
    ensures TimesAfter(log') == Stepped(Measures, TimesAfter(log), o)
    ensures ContentsAfter(log') == Stepped(Explanations, ContentsAfter(log), o)
    ensures SleptAfter(log') == Stepped(Sleeps, SleptAfter(log), o)
  {
    FoldGrows(log, log', o, a, Slept(0, 0), Sleeps);
    FoldGrows(log, log', o, a, Top(true), Follow);
    FoldGrows(log, log', o, a, [], Registering);
    FoldGrows(log, log', o, a, 0, Counting);
    FoldGrows(log, log', o, a, [], Suspends);
    FoldGrows(log, log', o, a, [], Measures);
    FoldGrows(log, log', o, a, [], Explanations);
  }

  lemma DutyGrows(log: seq<Event>, log': seq<Event>, o: Option<Event>, a: AgentId, b: AgentId)
    requires Grows(log, log', o, a) && (o.Some? ==> o.value.who == a)
    ensures DutyAfter(log', b) ==
            if a == b && o.Some? && CallEvent(o.value) then Perform(DutyAfter(log, b), o.value) else DutyAfter(log, b)
    ensures a != b ==> SinceUnlock(log', b) == SinceUnlock(log, b)
  {
    FoldGrows(log, log', o, a, Idle, Performing(b));
    if a != b { FoldGrows(log, log', o, a, [], Holding(b)); }
  }

  lemma OthersKeep(log: seq<Event>, log': seq<Event>, o: Option<Event>, a: AgentId, b: AgentId, q: Option<Pc>)
    requires Grows(log, log', o, a) && (o.Some? ==> o.value.who == a) && a != b && CallTold(log, b, q)
    ensures CallTold(log', b, q)
  {
    DutyGrows(log, log', o, a, b);
  }

  // ----- the thread

  lemma ThreadSaysOwn(d: Shared, a: AgentId, t: ThreadPc, ch: Choice)
    ensures var o := ThreadSays(d, a, t, ch); o.Some? ==> o.value.who == a && ThreadEvent(o.value)
  {
  }

  lemma CallSaysOwn(d: Shared, a: AgentId, p: CallPc, ch: Choice)
    ensures var o := CallSays(d, a, p, ch); o.Some? ==> o.value.who == a && CallEvent(o.value)
  {
  }

  /** What the log tells after the step. */
  lemma ThreadTells(c: Service, d: Shared, a: AgentId, t: ThreadPc, ch: Choice, k: Change)
    requires RunThread(c, d, a, t, ch) == Some(k)
    ensures var o := ThreadSays(d, a, t, ch);
            && PhaseAfter(k.d.log) == Followed(PhaseAfter(d.log), o)
            && TokensAfter(k.d.log) == Stepped(Registering, TokensAfter(d.log), o)
            && CountAfter(k.d.log) == Stepped(Counting, CountAfter(d.log), o)
            && MemsAfter(k.d.log) == Stepped(Suspends, MemsAfter(d.log), o)
            && TimesAfter(k.d.log) == Stepped(Measures, TimesAfter(d.log), o)
            && ContentsAfter(k.d.log) == Stepped(Explanations, ContentsAfter(d.log), o)
            && SleptAfter(k.d.log) == Stepped(Sleeps, SleptAfter(d.log), o)
  {
    var o := ThreadSays(d, a, t, ch);
    ThreadSpeaks(c, d, a, t, ch, k);
    SpeakingGrows(d, k, o, a);
    FoldsGrow(d.log, k.d.log, o, a);
  }

  /** Where the thread's created flag is cleared it is at the top of its loop. */
  lemma ThreadChronicle(c: Service, d: Shared, a: AgentId, t: ThreadPc, ch: Choice, k: Change)
    requires RunThread(c, d, a, t, ch) == Some(k) && Fits(c) && (t.WriteMem? ==> |d.writes| == |d.outcomes|)
    requires Chronicle(c, d) && ThreadTold(d, t)
    requires k.next.Some? ==> k.next.value.Thread? && FlagAt(k.d, k.next.value.t)
    ensures Chronicle(c, k.d) && (k.next.Some? ==> ThreadTold(k.d, k.next.value.t))
  {
    ThreadTells(c, d, a, t, ch, k);
    ThreadFollows(c, d, a, t, ch, k);
    ThreadWaits(c, d, a, t, ch, k, SleptAfter(d.log));
    ThreadData(c, d, a, t, ch, k, TokensAfter(d.log), CountAfter(d.log), MemsAfter(d.log), TimesAfter(d.log),
               ContentsAfter(d.log));
  }

  lemma ThreadDuties(c: Service, d: Shared, a: AgentId, t: ThreadPc, ch: Choice, k: Change, b: AgentId, q: Option<Pc>)
    requires RunThread(c, d, a, t, ch) == Some(k) && CallTold(d.log, b, q) && (a == b ==> q == Some(Thread(t)))
    requires k.next.Some? ==> k.next.value.Thread?
    ensures CallTold(k.d.log, b, if a == b then k.next else q)
  {
    var o := ThreadSays(d, a, t, ch);
    ThreadSpeaks(c, d, a, t, ch, k);
    SpeakingGrows(d, k, o, a);
    ThreadSaysOwn(d, a, t, ch);
    DutyGrows(d.log, k.d.log, o, a, b);
  }

  // ----- the calls

  lemma CallChronicle(c: Service, d: Shared, a: AgentId, p: CallPc, ch: Choice, k: Change)
    requires RunCall(d, a, p, ch) == Some(k) && Chronicle(c, d) && (d.created ==> k.d.created)
    requires k.d.waited == d.waited
    ensures Chronicle(c, k.d) && PhaseAfter(k.d.log) == PhaseAfter(d.log) && SleptAfter(k.d.log) == SleptAfter(d.log)
    ensures MemsAfter(k.d.log) == MemsAfter(d.log) && TimesAfter(k.d.log) == TimesAfter(d.log)
  {
    var o := CallSays(d, a, p, ch);
    CallSpeaks(d, a, p, ch, k);
    SpeakingGrows(d, k, o, a);
    CallSaysOwn(d, a, p, ch);
    FoldsGrow(d.log, k.d.log, o, a);
    CallData(c, d, a, p, ch, k, TokensAfter(d.log), CountAfter(d.log), MemsAfter(d.log), TimesAfter(d.log),
             ContentsAfter(d.log));
  }

  /** A forced suspend is noted before the mutex is left. */
  lemma ForceTold(d: Shared, a: AgentId, p: CallPc, ch: Choice, k: Change)
    requires RunCall(d, a, p, ch) == Some(k) && k.next == Some(Call(DropForce))
    ensures HasForced(k.d.log, a)
  {
    assert p == Force && k.d.log == d.log + [Forced(a, ch.ok)];
    FoldMore(d.log, [], Holding(a), Forced(a, ch.ok));
    assert Forced(a, ch.ok) in SinceUnlock(k.d.log, a);
  }

  lemma CallDuties(d: Shared, a: AgentId, p: CallPc, ch: Choice, k: Change, b: AgentId, q: Option<Pc>)
    requires RunCall(d, a, p, ch) == Some(k) && CallTold(d.log, b, q) && (a == b ==> q == Some(Call(p)))
    requires k.next.Some? ==> k.next.value.Call?
    ensures CallTold(k.d.log, b, if a == b then k.next else q)
  {
    var o := CallSays(d, a, p, ch);
    CallSpeaks(d, a, p, ch, k);
    SpeakingGrows(d, k, o, a);
    CallSaysOwn(d, a, p, ch);
    DutyGrows(d.log, k.d.log, o, a, b);
    if a == b {
      CallPerforms(d, a, p, ch, k);
      if k.next == Some(Call(DropForce)) { ForceTold(d, a, p, ch, k); }
    }
  }

  // ----- every step

  lemma ThreadRunAgents(c: Service, s: State, a: AgentId, ch: Choice, k: Change, b: AgentId)
    requires HistoryInv(c, s) && a in s.agents && s.agents[a].Thread? && k.spawn == None
    requires RunThread(c, s.d, a, s.agents[a].t, ch) == Some(k) && (k.next.Some? ==> k.next.value.Thread?)
    ensures CallTold(k.d.log, b, PcOf(Apply(s, a, k), b))
  {
    assert CallTold(s.d.log, b, PcOf(s, b));
    ThreadDuties(c, s.d, a, s.agents[a].t, ch, k, b, PcOf(s, b));
    assert PcOf(Apply(s, a, k), b) == if a == b then k.next else PcOf(s, b);
  }

  /** What the invariants say at the thread's point. */
  lemma AtThread(c: Service, s: State, a: AgentId, ch: Choice, k: Change)
    requires Fits(c) && Inv(c, s) && HistoryInv(c, s) && a in s.agents && s.agents[a].Thread?
    requires RunThread(c, s.d, a, s.agents[a].t, ch) == Some(k)
    ensures Chronicle(c, k.d) && (k.next.Some? ==> k.next.value.Thread? && ThreadTold(k.d, k.next.value.t))
  {
    var t := s.agents[a].t;
    assert AgentAt(s.d, a, PcOf(s, a));
    ThreadStep(c, s.d, a, t, ch, k);
    ThreadChronicle(c, s.d, a, t, ch, k);
  }

  lemma ThreadRun(c: Service, s: State, a: AgentId, ch: Choice, k: Change)
    requires Fits(c) && Inv(c, s) && HistoryInv(c, s) && a in s.agents && s.agents[a].Thread?
    requires RunThread(c, s.d, a, s.agents[a].t, ch) == Some(k) && k.spawn == None
    ensures HistoryInv(c, Apply(s, a, k))
  {
    AtThread(c, s, a, ch, k);
    ThreadBlocks(c, s.d, a, s.agents[a].t, ch, k);
    forall b: AgentId ensures CallTold(k.d.log, b, PcOf(Apply(s, a, k), b)) {
      ThreadRunAgents(c, s, a, ch, k, b);
    }
  }

  /** What a call's step leaves of what the thread knows. */
  lemma ThreadToldKept(d: Shared, d': Shared, t: ThreadPc)
    requires ThreadTold(d, t) && PhaseAfter(d'.log) == PhaseAfter(d.log) && d'.now >= d.now
    requires MemsAfter(d'.log) == MemsAfter(d.log) && TimesAfter(d'.log) == TimesAfter(d.log)
    requires SleptAfter(d'.log) == SleptAfter(d.log)
    ensures ThreadTold(d', t)
  {
  }

  lemma CallRunAgents(c: Service, s: State, a: AgentId, ch: Choice, k: Change, b: AgentId)
    requires Inv(c, s) && HistoryInv(c, s) && a in s.agents && s.agents[a].Call?
    requires RunCall(s.d, a, s.agents[a].p, ch) == Some(k) && (k.next.Some? ==> k.next.value.Call?)
    requires k.spawn.Some? ==> k.spawn.value !in s.agents
    ensures CallTold(k.d.log, b, PcOf(Apply(s, a, k), b))
  {
    assert CallTold(s.d.log, b, PcOf(s, b));
    CallDuties(s.d, a, s.agents[a].p, ch, k, b, PcOf(s, b));
    var q := if a == b then k.next else PcOf(s, b);
    assert PcOf(Apply(s, a, k), b) == if k.spawn == Some(b) then Some(Thread(Start)) else q;
  }

  /** What the thread knows after a call's step. */
  lemma CallRunThreads(c: Service, s: State, a: AgentId, k: Change, b: AgentId)
    requires HistoryInv(c, s) && a in s.agents && (k.next.Some? ==> k.next.value.Call?)
    requires PhaseAfter(k.d.log) == PhaseAfter(s.d.log) && k.d.now == s.d.now
    requires MemsAfter(k.d.log) == MemsAfter(s.d.log) && TimesAfter(k.d.log) == TimesAfter(s.d.log)
    requires SleptAfter(k.d.log) == SleptAfter(s.d.log)
    requires k.spawn.Some? ==> !s.d.created
    requires s.d.waiters <= k.d.waiters && NewsAfter(s.d.log) ==> NewsAfter(k.d.log)
    requires s.d.waiters <= k.d.waiters || NewsAfter(k.d.log)
    requires b in Apply(s, a, k).agents && Apply(s, a, k).agents[b].Thread?
    ensures ThreadTold(k.d, Apply(s, a, k).agents[b].t) && Roused(k.d, b, Apply(s, a, k).agents[b].t)
  {
    if k.spawn == Some(b) {
      assert Apply(s, a, k).agents[b] == Thread(Start);
    } else {
      assert b in s.agents && Apply(s, a, k).agents[b] == s.agents[b];
      ThreadToldKept(s.d, k.d, s.agents[b].t);
    }
  }

  lemma CallNews(d: Shared, a: AgentId, p: CallPc, ch: Choice, k: Change)
    requires RunCall(d, a, p, ch) == Some(k)
    ensures NewsAfter(d.log) ==> NewsAfter(k.d.log)
    ensures d.waiters <= k.d.waiters || NewsAfter(k.d.log)
  {
    var o := CallSays(d, a, p, ch);
    CallSpeaks(d, a, p, ch, k);
    SpeakingGrows(d, k, o, a);
    CallSaysOwn(d, a, p, ch);
    FoldGrows(d.log, k.d.log, o, a, false, Stirs);
    CallRouses(d, a, p, ch, k);
  }

  lemma CallRun(c: Service, s: State, a: AgentId, ch: Choice, k: Change)
    requires Inv(c, s) && HistoryInv(c, s) && a in s.agents && s.agents[a].Call?
    requires RunCall(s.d, a, s.agents[a].p, ch) == Some(k)
    requires k.spawn.Some? ==> k.spawn.value !in s.agents
    ensures HistoryInv(c, Apply(s, a, k))
  {
    var p := s.agents[a].p;
    var s' := Apply(s, a, k);
    assert AgentAt(s.d, a, PcOf(s, a));
    OneWaiter(c, s);
    CallStep(s.d, a, p, ch, k);
    CallChronicle(c, s.d, a, p, ch, k);
    CallNews(s.d, a, p, ch, k);
    forall b: AgentId ensures CallTold(s'.d.log, b, PcOf(s', b)) {
      CallRunAgents(c, s, a, ch, k, b);
    }
    forall b | b in s'.agents && s'.agents[b].Thread?
      ensures ThreadTold(s'.d, s'.agents[b].t) && Roused(s'.d, b, s'.agents[b].t)
    {
      CallRunThreads(c, s, a, k, b);
    }
  }

  lemma ArriveAgents(c: Service, s: State, a: AgentId, entry: Entry, k: Change, b: AgentId)
    requires HistoryInv(c, s) && a !in s.agents && RunEntry(s.d, a, entry) == Some(k)
    ensures CallTold(k.d.log, b, PcOf(Apply(s, a, k), b))
  {
    var e := Some(Entered(a, entry));
    ArrivalHoldsNothing(s.d, a, entry, k);
    EntrySays(s.d, a, entry, k);
    SpeakingGrows(s.d, k, e, a);
    EntryPerforms(s.d, a, entry, k);
    EntryData(s.d, a, entry, k);
    assert CallTold(s.d.log, b, PcOf(s, b));
    DutyGrows(s.d.log, k.d.log, e, a, b);
    assert PcOf(Apply(s, a, k), b) == if a == b then k.next else PcOf(s, b);
  }

  lemma ArriveData(c: Service, d: Shared, a: AgentId, entry: Entry, k: Change)
    requires Chronicle(c, d) && RunEntry(d, a, entry) == Some(k)
    ensures Chronicle(c, k.d) && PhaseAfter(k.d.log) == PhaseAfter(d.log) && k.d.waiters == d.waiters
    ensures MemsAfter(k.d.log) == MemsAfter(d.log) && TimesAfter(k.d.log) == TimesAfter(d.log)
    ensures SleptAfter(k.d.log) == SleptAfter(d.log) && NewsAfter(k.d.log) == NewsAfter(d.log)
  {
    var e := Some(Entered(a, entry));
    EntrySays(d, a, entry, k);
    SpeakingGrows(d, k, e, a);
    EntryData(d, a, entry, k);
    FoldsGrow(d.log, k.d.log, e, a);
    FoldGrows(d.log, k.d.log, e, a, false, Stirs);
  }

  lemma ArriveRun(c: Service, s: State, a: AgentId, entry: Entry, k: Change)
    requires Inv(c, s) && HistoryInv(c, s) && a !in s.agents && RunEntry(s.d, a, entry) == Some(k)
    ensures HistoryInv(c, Apply(s, a, k))
  {
    var s' := Apply(s, a, k);
    ArrivalHoldsNothing(s.d, a, entry, k);
    ArriveData(c, s.d, a, entry, k);
    EntryData(s.d, a, entry, k);
    forall b: AgentId ensures CallTold(s'.d.log, b, PcOf(s', b)) {
      ArriveAgents(c, s, a, entry, k, b);
    }
    forall b | b in s'.agents && s'.agents[b].Thread?
      ensures ThreadTold(s'.d, s'.agents[b].t) && Roused(s'.d, b, s'.agents[b].t)
    {
      assert b in s.agents && s'.agents[b] == s.agents[b];
      ThreadToldKept(s.d, k.d, s.agents[b].t);
    }
  }

  lemma EntryData(d: Shared, a: AgentId, entry: Entry, k: Change)
    requires RunEntry(d, a, entry) == Some(k)
    ensures SameData(d, k.d) && k.d.created == d.created && k.d.now == d.now && k.d.waited == d.waited
    ensures k.d.waiters == d.waiters
    ensures k.next.Some? && k.next != Some(Call(DropForce))
  {
  }

  lemma WakeTold(d: Shared, a: AgentId, pc: Pc, k: Change)
    requires RunWake(d, a, pc) == Some(k) && pc.Thread? && ThreadTold(d, pc.t)
    ensures k.next.Some? && k.next.value.Thread? && ThreadTold(k.d, k.next.value.t)
    ensures k.d.log == d.log && SameData(d, k.d) && k.d.created == d.created && k.spawn == None
    ensures k.d.waited == d.waited && !Blocked(k.next.value.t)
  {
  }

  lemma TimeOutTold(d: Shared, a: AgentId, pc: Pc, k: Change)
    requires RunTimeOut(d, a, pc) == Some(k) && pc.Thread? && ThreadTold(d, pc.t)
    ensures k.next.Some? && k.next.value.Thread? && ThreadTold(k.d, k.next.value.t)
    ensures k.d.log == d.log && SameData(d, k.d) && k.d.created == d.created && k.spawn == None
    ensures k.d.waited == d.waited && !Blocked(k.next.value.t)
  {
  }

  lemma WakeRun(c: Service, s: State, a: AgentId, k: Change)
    requires Inv(c, s) && HistoryInv(c, s) && a in s.agents && s.agents[a].Thread?
    requires k.next.Some? && k.next.value.Thread? && ThreadTold(k.d, k.next.value.t)
    requires k.d.log == s.d.log && SameData(s.d, k.d) && k.d.created == s.d.created && k.spawn == None
    requires k.d.waited == s.d.waited && !Blocked(k.next.value.t)
    ensures HistoryInv(c, Apply(s, a, k))
  {
    var s' := Apply(s, a, k);
    forall b: AgentId ensures CallTold(s'.d.log, b, PcOf(s', b)) {
      assert CallTold(s.d.log, b, PcOf(s, b));
      assert PcOf(s', b) == if a == b then k.next else PcOf(s, b);
    }
  }

  lemma TakeTold(pc: Pc)
    requires Wants(pc).Some?
    ensures pc.Thread? ==> Locked(pc).Thread? && PhaseOf(Locked(pc).t) == PhaseOf(pc.t)
    ensures pc.Call? ==> Locked(pc).Call? && DutyAt(Locked(pc).p) == DutyAt(pc.p) && Locked(pc).p != DropForce
  {
  }

  lemma TakeThreadTold(d: Shared, t: ThreadPc)
    requires Wants(Thread(t)).Some? && ThreadTold(d, t)
    ensures ThreadTold(d, Locked(Thread(t)).t) && !Blocked(Locked(Thread(t)).t)
  {
    TakeTold(Thread(t));
  }

  lemma TakeRun(c: Service, s: State, a: AgentId)
    requires Inv(c, s) && HistoryInv(c, s) && a in s.agents && TakeMutex(s, a).Some?
    ensures HistoryInv(c, TakeMutex(s, a).value)
  {
    var s' := TakeMutex(s, a).value;
    var pc := s.agents[a];
    TakeTold(pc);
    if pc.Thread? { TakeThreadTold(s.d, pc.t); }
    assert s'.d == s.d;
    forall b: AgentId ensures CallTold(s'.d.log, b, PcOf(s', b)) {
      assert CallTold(s.d.log, b, PcOf(s, b));
      assert PcOf(s', b) == if a == b then Some(Locked(pc)) else PcOf(s, b);
    }
  }

  lemma TickRun(c: Service, s: State, time: nat)
    requires HistoryInv(c, s)
    ensures HistoryInv(c, Later(s, time))
  {
    var s' := Later(s, time);
    forall b: AgentId ensures CallTold(s'.d.log, b, PcOf(s', b)) {
      assert CallTold(s.d.log, b, PcOf(s, b));
    }
    forall b | b in s'.agents && s'.agents[b].Thread?
      ensures ThreadTold(s'.d, s'.agents[b].t) && Roused(s'.d, b, s'.agents[b].t)
    {
      ThreadToldKept(s.d, s'.d, s.agents[b].t);
    }
  }

  lemma RunRun(c: Service, s: State, a: AgentId, ch: Choice, k: Change)
    requires Fits(c) && Inv(c, s) && HistoryInv(c, s) && a in s.agents
    requires ChangeOf(c, s.d, s.agents[a], Run(a, ch)) == Some(k)
    requires k.spawn.Some? ==> k.spawn.value !in s.agents
    ensures HistoryInv(c, Apply(s, a, k))
  {
    match s.agents[a]
    case Thread(t) =>
      ThreadAccounts(c, s.d, a, t, ch, k);
      ThreadRun(c, s, a, ch, k);
    case Call(p) => CallRun(c, s, a, ch, k);
  }

  lemma WakeUpRun(c: Service, s: State, act: Action, k: Change)
    requires Inv(c, s) && HistoryInv(c, s) && (act.Wake? || act.TimeOut?) && act.a in s.agents
    requires ChangeOf(c, s.d, s.agents[act.a], act) == Some(k)
    ensures HistoryInv(c, Apply(s, act.a, k))
  {
    var pc := s.agents[act.a];
    if act.Wake? { WakeTold(s.d, act.a, pc, k); } else { TimeOutTold(s.d, act.a, pc, k); }
    WakeRun(c, s, act.a, k);
  }

  lemma ChangeRun(c: Service, s: State, act: Action, k: Change)
    requires Fits(c) && Inv(c, s) && HistoryInv(c, s) && (act.Run? || act.Wake? || act.TimeOut?) && act.a in s.agents
    requires ChangeOf(c, s.d, s.agents[act.a], act) == Some(k)
    requires k.spawn.Some? ==> k.spawn.value !in s.agents
    ensures HistoryInv(c, Apply(s, act.a, k))
  {
    if act.Run? { RunRun(c, s, act.a, act.ch, k); } else { WakeUpRun(c, s, act, k); }
  }

  /** The state after a step, by what kind of step it is. */
  lemma NextIs(c: Service, s: State, act: Action)
    requires Next(c, s, act).Some?
    ensures match act
            case Tick(time) => Next(c, s, act).value == Later(s, time)
            case Arrive(a, entry) =>
              a !in s.agents && RunEntry(s.d, a, entry).Some? &&
              Next(c, s, act).value == Apply(s, a, RunEntry(s.d, a, entry).value)
            case Take(a) => a in s.agents && TakeMutex(s, a) == Next(c, s, act)
            case _ =>
              act.a in s.agents && ChangeOf(c, s.d, s.agents[act.a], act).Some? &&
              var k := ChangeOf(c, s.d, s.agents[act.a], act).value;
              (k.spawn.Some? ==> k.spawn.value !in s.agents) && Next(c, s, act).value == Apply(s, act.a, k)
  {
  }

  /** Every step of the system keeps it. */
  lemma HistoryNext(c: Service, s: State, act: Action)
    requires Fits(c) && Inv(c, s) && HistoryInv(c, s) && Next(c, s, act).Some?
    ensures HistoryInv(c, Next(c, s, act).value)
  {
    NextIs(c, s, act);
    match act
    case Tick(time) => TickRun(c, s, time);
    case Arrive(a, entry) => ArriveRun(c, s, a, entry, RunEntry(s.d, a, entry).value);
    case Take(a) => TakeRun(c, s, a);
    case _ => ChangeRun(c, s, act, ChangeOf(c, s.d, s.agents[act.a], act).value);
  }

  lemma HistoryInit(c: Service)
    ensures HistoryInv(c, Init(c))
  {
  }

  lemma {:induction false} HistoryReachable(c: Service, acts: seq<Action>)
    requires Fits(c) && Exec(c, acts).Some?
    ensures HistoryInv(c, Exec(c, acts).value)
  {
    if acts == [] {
      HistoryInit(c);
    } else {
      InvReachable(c, acts[..|acts| - 1]);
      HistoryReachable(c, acts[..|acts| - 1]);
      HistoryNext(c, Exec(c, acts[..|acts| - 1]).value, acts[|acts| - 1]);
    }
  }
}
