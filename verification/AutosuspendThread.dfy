/** The autosuspend thread's own steps keep the invariant. */
module AutosuspendThread {
  import opened Common
  import opened Autosuspend
  import opened AutosuspendLocks
  import opened AutosuspendInvariant
  import B = Backoff

  /** A step of the thread leads to another of its points, or ends it. */
  predicate Stays(k: Change) {
    k.next.Some? ==> k.next.value.Thread?
  }

  // ----- flags, checks, waiting

  ghost predicate Basics(d: Shared, a: AgentId, t: ThreadPc) {
    FlagInv(d) && FlagAt(d, t) && CheckAt(d, t) && WaitAt(d, a, Some(Thread(t)))
  }

  ghost predicate BasicsAfter(d: Shared, a: AgentId, k: Change) {
    && Stays(k) && k.d.wakeLocks == d.wakeLocks && k.d.counter == d.counter && k.d.waiters <= d.waiters + {a}
    && FlagInv(k.d) && WaitAt(k.d, a, k.next)
    && (k.next.Some? ==> FlagAt(k.d, k.next.value.t) && CheckAt(k.d, k.next.value.t))
    && (k.next.None? ==> !k.d.created)
  }

  lemma SleepBasics(d: Shared, a: AgentId, t: ThreadPc, k: Change)
    requires RunSleep(d, a, t) == Some(k) && Basics(d, a, t)
    ensures BasicsAfter(d, a, k)
  {
  }

  lemma CountBasics(d: Shared, a: AgentId, t: ThreadPc, ch: Choice, k: Change)
    requires RunCount(d, a, t, ch) == Some(k) && Basics(d, a, t) && CountInv(d)
    ensures BasicsAfter(d, a, k)
  {
  }

  lemma WriteBasics(d: Shared, a: AgentId, t: ThreadPc, ch: Choice, k: Change)
    requires RunWrite(d, a, t, ch) == Some(k) && Basics(d, a, t)
    ensures BasicsAfter(d, a, k)
  {
  }

  lemma ReportBasics(c: Service, d: Shared, a: AgentId, t: ThreadPc, ch: Choice, k: Change)
    requires RunReport(c, d, a, t, ch) == Some(k) && Basics(d, a, t)
    ensures BasicsAfter(d, a, k)
  {
  }

  // ----- time

  ghost predicate Timely(d: Shared, t: ThreadPc) {
    RestInv(d) && OweInv(d) && RestAt(d, t) && OweAt(d, t)
  }

  ghost predicate TimelyAfter(k: Change) {
    RestInv(k.d) && OweInv(k.d) &&
    (k.next.Some? && k.next.value.Thread? ==> RestAt(k.d, k.next.value.t) && OweAt(k.d, k.next.value.t))
  }

  lemma SleepTimely(d: Shared, a: AgentId, t: ThreadPc, k: Change)
    requires RunSleep(d, a, t) == Some(k) && Timely(d, t)
    ensures TimelyAfter(k)
  {
  }

  lemma CountTimely(d: Shared, a: AgentId, t: ThreadPc, ch: Choice, k: Change)
    requires RunCount(d, a, t, ch) == Some(k) && Timely(d, t)
    ensures TimelyAfter(k)
  {
  }

  lemma WriteTimely(d: Shared, a: AgentId, t: ThreadPc, ch: Choice, k: Change)
    requires RunWrite(d, a, t, ch) == Some(k) && Timely(d, t)
    ensures TimelyAfter(k)
  {
  }

  lemma UpdateTimely(c: Service, d: Shared, a: AgentId, t: ThreadPc, ch: Choice, k: Change)
    requires RunReport(c, d, a, t, ch) == Some(k) && Timely(d, t) && Fits(c) && t.UpdateSleep?
    ensures TimelyAfter(k)
  {
  }

  lemma ReportTimely(c: Service, d: Shared, a: AgentId, t: ThreadPc, ch: Choice, k: Change)
    requires RunReport(c, d, a, t, ch) == Some(k) && Timely(d, t) && Fits(c)
    ensures TimelyAfter(k)
  {
    if t.UpdateSleep? { UpdateTimely(c, d, a, t, ch, k); }
  }

  // ----- counts of attempts

  ghost predicate Tallied(c: Service, d: Shared, t: ThreadPc) {
    StatInv(c, d) && StatAt(d, t) && FlagAt(d, t)
  }

  ghost predicate TalliedAfter(c: Service, k: Change) {
    StatInv(c, k.d) && (k.next.Some? && k.next.value.Thread? ==> StatAt(k.d, k.next.value.t))
  }

  lemma SleepTallied(c: Service, d: Shared, a: AgentId, t: ThreadPc, k: Change)
    requires RunSleep(d, a, t) == Some(k) && Tallied(c, d, t)
    ensures TalliedAfter(c, k)
  {
  }

  lemma CountTallied(c: Service, d: Shared, a: AgentId, t: ThreadPc, ch: Choice, k: Change)
    requires RunCount(d, a, t, ch) == Some(k) && Tallied(c, d, t)
    ensures TalliedAfter(c, k)
  {
  }

  lemma WriteRecorded(c: Service, d: Shared, now: int)
    requires StatInv(c, d) && |d.writes| == |d.outcomes| && d.created
    ensures StatInv(c, d.(writes := d.writes + [Write(now, d.sleeper.sleepTime)]))
  {
    assert d.outcomes[..|d.outcomes|] == d.outcomes;
  }

  lemma OthersTallied(c: Service, d: Shared, a: AgentId, t: ThreadPc, ch: Choice, k: Change)
    requires RunWrite(d, a, t, ch) == Some(k) && Tallied(c, d, t) && !t.WriteMem?
    ensures TalliedAfter(c, k)
  {
  }

  lemma WriteTallied(c: Service, d: Shared, a: AgentId, t: ThreadPc, ch: Choice, k: Change)
    requires RunWrite(d, a, t, ch) == Some(k) && Tallied(c, d, t)
    ensures TalliedAfter(c, k)
  {
    if t.WriteMem? {
      WriteRecorded(c, d, d.now);
      assert k.d.writes == d.writes + [Write(d.now, d.sleeper.sleepTime)];
    } else {
      OthersTallied(c, d, a, t, ch, k);
    }
  }

  /** One more outcome advances the sleeper and leaves the earlier prefixes alone. */
  lemma ReplayedAppend(c: Service, h: seq<B.Outcome>, o: B.Outcome)
    ensures Replayed(c, h + [o]) == c.update(Replayed(c, h), o)
    ensures forall i :: 0 <= i <= |h| ==> (h + [o])[..i] == h[..i]
  {
    assert (h + [o])[..|h|] == h;
  }

  lemma OutcomeTallied(c: Service, d: Shared, o: B.Outcome)
    requires StatInv(c, d) && |d.writes| == |d.outcomes| + 1 && d.created
    ensures StatInv(c, d.(sleeper := c.update(d.sleeper, o), outcomes := d.outcomes + [o]))
  {
    ReplayedAppend(c, d.outcomes, o);
  }

  lemma ReportTallied(c: Service, d: Shared, a: AgentId, t: ThreadPc, ch: Choice, k: Change)
    requires RunReport(c, d, a, t, ch) == Some(k) && Tallied(c, d, t) && Fits(c)
    ensures TalliedAfter(c, k)
  {
    if t.UpdateSleep? {
      OutcomeTallied(c, d, B.Outcome(t.success, ch.suspendTime, ch.overhead));
    }
  }

  // ----- the log

  lemma ReadSinceAppend(log: seq<Event>, a: AgentId, count: string, e: Event)
    requires ReadSince(log, a, count)
    requires !Rereads(e, a)
    ensures ReadSince(log + [e], a, count)
  {
    var j :| 0 <= j < |log| && log[j] == CountRead(a, count) &&
             forall k :: j < k < |log| ==> !Rereads(log[k], a);
    assert (log + [e])[j] == CountRead(a, count);
  }

  lemma WrittenSinceAppend(log: seq<Event>, a: AgentId, count: string, e: Event)
    requires WrittenSince(log, a, count) && e != Unlocked(a)
    ensures WrittenSince(log + [e], a, count)
  {
    var j :| 0 <= j < |log| && log[j] == CountWritten(a, count, true) && ReadSince(log[..j], a, count) &&
             forall k :: j < k < |log| ==> log[k] != Unlocked(a);
    assert (log + [e])[j] == CountWritten(a, count, true) && (log + [e])[..j] == log[..j];
  }

  lemma LogInvAppend(log: seq<Event>, e: Event)
    requires LogInv(log)
    requires e.MemWritten? ==> exists count: string :: count != "" && WrittenSince(log, e.who, count)
    ensures LogInv(log + [e])
  {
    var log' := log + [e];
    forall i | 0 <= i < |log'| && log'[i].MemWritten?
      ensures exists count: string :: count != "" && WrittenSince(log'[..i], log'[i].who, count)
    {
      if i < |log| {
        assert log'[..i] == log[..i] && log'[i] == log[i];
      } else {
        assert log'[..i] == log;
      }
    }
  }

  lemma JustRead(log: seq<Event>, a: AgentId, count: string)
    ensures ReadSince(log + [CountRead(a, count)], a, count)
  {
    assert (log + [CountRead(a, count)])[|log|] == CountRead(a, count);
  }

  lemma JustWritten(log: seq<Event>, a: AgentId, count: string)
    requires ReadSince(log, a, count)
    ensures WrittenSince(log + [CountWritten(a, count, true)], a, count)
  {
    var log' := log + [CountWritten(a, count, true)];
    assert log'[|log|] == CountWritten(a, count, true) && log'[..|log|] == log;
  }

  ghost predicate LoggedAfter(a: AgentId, k: Change) {
    LogInv(k.d.log) && (k.next.Some? && k.next.value.Thread? ==> LogAt(k.d.log, a, k.next.value.t))
  }

  /** An event that is no write of "mem", and one more. */
  lemma LogInvTwice(log: seq<Event>, e: Event, f: Event)
    requires LogInv(log) && !e.MemWritten? && !f.MemWritten?
    ensures LogInv(log + [e]) && LogInv(log + [e] + [f])
  {
    LogInvAppend(log, e);
    LogInvAppend(log + [e], f);
  }

  lemma SleepLogged(d: Shared, a: AgentId, t: ThreadPc, k: Change)
    requires RunSleep(d, a, t) == Some(k) && LogInv(d.log)
    ensures LoggedAfter(a, k)
  {
    LogInvTwice(d.log, Stopped(a), Unlocked(a));
    LogInvTwice(d.log, WaitBegun(a, d.now, d.sleeper.sleepTime), Unlocked(a));
    LogInvTwice(d.log, NoWait(a), Unlocked(a));
    LogInvTwice(d.log, WaitOver(a, d.now, d.enabled), Unlocked(a));
    LogInvAppend(d.log, Unlocked(a));
  }

  lemma CountLogged(d: Shared, a: AgentId, t: ThreadPc, ch: Choice, k: Change)
    requires RunCount(d, a, t, ch) == Some(k) && LogInv(d.log) && LogAt(d.log, a, t)
    ensures LoggedAfter(a, k)
  {
    if t.ReadCount? {
      LogInvAppend(d.log, CountRead(a, ch.text));
      JustRead(d.log, a, ch.text);
    } else if t.CounterCheck? {
      var e := CounterSeen(a, d.enabled, d.counter);
      LogInvTwice(d.log, e, Unlocked(a));
      ReadSinceAppend(d.log, a, t.count, e);
      ReadSinceAppend(d.log + [e], a, t.count, Unlocked(a));
    }
  }

  lemma FinalLogged(d: Shared, a: AgentId, t: ThreadPc, ch: Choice, k: Change)
    requires RunWrite(d, a, t, ch) == Some(k) && LogInv(d.log) && LogAt(d.log, a, t) && t.FinalCheck?
    ensures LoggedAfter(a, k)
  {
    var e := TokensSeen(a, d.tokens != [], d.counter);
    LogInvAppend(d.log, e);
    ReadSinceAppend(d.log, a, t.count, e);
  }

  lemma CountWriteLogged(d: Shared, a: AgentId, t: ThreadPc, ch: Choice, k: Change)
    requires RunWrite(d, a, t, ch) == Some(k) && LogInv(d.log) && LogAt(d.log, a, t) && t.WriteCount?
    ensures LoggedAfter(a, k)
  {
    LogInvAppend(d.log, CountWritten(a, t.count, ch.ok));
    JustWritten(d.log, a, t.count);
  }

  lemma MemLogged(d: Shared, a: AgentId, t: ThreadPc, ch: Choice, k: Change)
    requires RunWrite(d, a, t, ch) == Some(k) && LogInv(d.log) && LogAt(d.log, a, t) && t.WriteMem? && t.count != ""
    ensures LoggedAfter(a, k)
  {
    LogInvAppend(d.log, MemWritten(a, d.now, ch.ok));
  }

  lemma WriteLogged(d: Shared, a: AgentId, t: ThreadPc, ch: Choice, k: Change)
    requires RunWrite(d, a, t, ch) == Some(k) && LogInv(d.log) && LogAt(d.log, a, t) && CheckAt(d, t)
    ensures LoggedAfter(a, k)
  {
    if t.FinalCheck? { FinalLogged(d, a, t, ch, k); }
    else if t.WriteCount? { CountWriteLogged(d, a, t, ch, k); }
    else if t.WriteMem? { MemLogged(d, a, t, ch, k); }
    else { LogInvAppend(d.log, Unlocked(a)); }
  }

  lemma ReportLogged(c: Service, d: Shared, a: AgentId, t: ThreadPc, ch: Choice, k: Change)
    requires RunReport(c, d, a, t, ch) == Some(k) && LogInv(d.log)
    ensures LoggedAfter(a, k)
  {
    match t
    case UpdateSleep(_) => LogInvAppend(d.log, TimesRead(a, ch.suspendTime, ch.overhead));
    case RecordWakeup(_) => LogInvAppend(d.log, ReasonsRead(a, ch.reasons));
    case WakeupCopy => LogInvAppend(d.log, WakeupCopied(a, ch.copies));
    case WakeupInvoke(_) => LogInvAppend(d.log, WakeupInvoked(a));
    case _ =>
  }

  // ----- guarded data

  /** The thread changes guarded data only under the mutex that guards it. */
  predicate ThreadGuards(d: Shared, t: ThreadPc, k: Change) {
    && ((k.d.enabled == d.enabled && k.d.created == d.created) || ThreadHeld(t).autosuspend)
    && (k.d.tokens == d.tokens || (ThreadHeld(t).tokens && ThreadHeld(t).autosuspend))
    && k.d.counter == d.counter
  }

  lemma SleepGuards(d: Shared, a: AgentId, t: ThreadPc, k: Change)
    requires RunSleep(d, a, t) == Some(k)
    ensures ThreadGuards(d, t, k)
  {
  }

  lemma CountGuards(d: Shared, a: AgentId, t: ThreadPc, ch: Choice, k: Change)
    requires RunCount(d, a, t, ch) == Some(k)
    ensures ThreadGuards(d, t, k)
  {
  }

  lemma WriteGuards(d: Shared, a: AgentId, t: ThreadPc, ch: Choice, k: Change)
    requires RunWrite(d, a, t, ch) == Some(k)
    ensures ThreadGuards(d, t, k)
  {
  }

  lemma ReportGuards(c: Service, d: Shared, a: AgentId, t: ThreadPc, ch: Choice, k: Change)
    requires RunReport(c, d, a, t, ch) == Some(k)
    ensures ThreadGuards(d, t, k)
  {
  }

  lemma ThreadGuarded(c: Service, d: Shared, a: AgentId, t: ThreadPc, ch: Choice, k: Change)
    requires RunThread(c, d, a, t, ch) == Some(k)
    ensures ThreadGuards(d, t, k)
  {
    if RunSleep(d, a, t) == Some(k) { SleepGuards(d, a, t, k); }
    else if RunCount(d, a, t, ch) == Some(k) { CountGuards(d, a, t, ch, k); }
    else if RunWrite(d, a, t, ch) == Some(k) { WriteGuards(d, a, t, ch, k); }
    else { ReportGuards(c, d, a, t, ch, k); }
  }

  // ----- together

  lemma SleepStep(c: Service, d: Shared, a: AgentId, t: ThreadPc, k: Change)
    requires RunSleep(d, a, t) == Some(k) && SharedInv(c, d) && AgentAt(d, a, Some(Thread(t)))
    ensures SharedInv(c, k.d) && AgentAt(k.d, a, k.next) && BasicsAfter(d, a, k)
  {
    SleepBasics(d, a, t, k);
    SleepTimely(d, a, t, k);
    SleepTallied(c, d, a, t, k);
    SleepLogged(d, a, t, k);
  }

  lemma CountStep(c: Service, d: Shared, a: AgentId, t: ThreadPc, ch: Choice, k: Change)
    requires RunCount(d, a, t, ch) == Some(k) && SharedInv(c, d) && AgentAt(d, a, Some(Thread(t)))
    ensures SharedInv(c, k.d) && AgentAt(k.d, a, k.next) && BasicsAfter(d, a, k)
  {
    CountBasics(d, a, t, ch, k);
    CountTimely(d, a, t, ch, k);
    CountTallied(c, d, a, t, ch, k);
    CountLogged(d, a, t, ch, k);
  }

  lemma WriteStep(c: Service, d: Shared, a: AgentId, t: ThreadPc, ch: Choice, k: Change)
    requires RunWrite(d, a, t, ch) == Some(k) && SharedInv(c, d) && AgentAt(d, a, Some(Thread(t)))
    ensures SharedInv(c, k.d) && AgentAt(k.d, a, k.next) && BasicsAfter(d, a, k)
  {
    WriteBasics(d, a, t, ch, k);
    WriteTimely(d, a, t, ch, k);
    WriteTallied(c, d, a, t, ch, k);
    WriteLogged(d, a, t, ch, k);
  }

  lemma ReportStep(c: Service, d: Shared, a: AgentId, t: ThreadPc, ch: Choice, k: Change)
    requires RunReport(c, d, a, t, ch) == Some(k) && SharedInv(c, d) && AgentAt(d, a, Some(Thread(t))) && Fits(c)
    ensures SharedInv(c, k.d) && AgentAt(k.d, a, k.next) && BasicsAfter(d, a, k)
  {
    ReportBasics(c, d, a, t, ch, k);
    ReportTimely(c, d, a, t, ch, k);
    ReportTallied(c, d, a, t, ch, k);
    ReportLogged(c, d, a, t, ch, k);
  }

  /** A step of the thread keeps the shared invariant and establishes its next point's assertion. */
  lemma ThreadStep(c: Service, d: Shared, a: AgentId, t: ThreadPc, ch: Choice, k: Change)
    requires RunThread(c, d, a, t, ch) == Some(k) && SharedInv(c, d) && AgentAt(d, a, Some(Thread(t))) && Fits(c)
    ensures SharedInv(c, k.d) && AgentAt(k.d, a, k.next) && BasicsAfter(d, a, k)
  {
    if RunSleep(d, a, t) == Some(k) { SleepStep(c, d, a, t, k); }
    else if RunCount(d, a, t, ch) == Some(k) { CountStep(c, d, a, t, ch, k); }
    else if RunWrite(d, a, t, ch) == Some(k) { WriteStep(c, d, a, t, ch, k); }
    else { ReportStep(c, d, a, t, ch, k); }
  }

  lemma WakeBasics(d: Shared, a: AgentId, pc: Pc, k: Change)
    requires RunWake(d, a, pc) == Some(k) && pc.Thread? && Basics(d, a, pc.t)
    ensures BasicsAfter(d, a, k)
  {
  }

  lemma WakeRest(c: Service, d: Shared, a: AgentId, pc: Pc, k: Change)
    requires RunWake(d, a, pc) == Some(k) && pc.Thread? && StatInv(c, d) && LogInv(d.log)
    requires Timely(d, pc.t) && StatAt(d, pc.t) && LogAt(d.log, a, pc.t)
    ensures TimelyAfter(k) && TalliedAfter(c, k) && LoggedAfter(a, k)
  {
  }

  /** Waking up, notified or spuriously. */
  lemma WakeStep(c: Service, d: Shared, a: AgentId, pc: Pc, k: Change)
    requires RunWake(d, a, pc) == Some(k) && SharedInv(c, d) && AgentAt(d, a, Some(pc))
    ensures SharedInv(c, k.d) && AgentAt(k.d, a, k.next) && BasicsAfter(d, a, k) && pc.Thread? && !pc.t.Exiting?
  {
    WakeBasics(d, a, pc, k);
    WakeRest(c, d, a, pc, k);
  }

  /** The end of a full timed wait. */
  lemma TimeOutStep(c: Service, d: Shared, a: AgentId, pc: Pc, k: Change)
    requires RunTimeOut(d, a, pc) == Some(k) && SharedInv(c, d) && AgentAt(d, a, Some(pc))
    ensures SharedInv(c, k.d) && AgentAt(k.d, a, k.next) && BasicsAfter(d, a, k) && pc.Thread? && !pc.t.Exiting?
  {
  }
}
