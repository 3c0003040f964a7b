/** No step of the autosuspend protocol is missing, and the service never hangs. */
module AutosuspendProgress {
  import opened Common
  import opened Autosuspend
  import opened AutosuspendLocks
  import opened AutosuspendInvariant
  import opened AutosuspendTheorems
  import B = Backoff

  /** The agent runs: it waits for no mutex, is not blocked in the condition variable, and not at a once
      flag that another call runs. */
  ghost predicate CanRun(s: State, a: AgentId) {
    a in s.agents && Wants(s.agents[a]).None? &&
    match s.agents[a]
    case Thread(t) => !t.Sleeping? && !t.CounterWait?
    case Call(p) => p.ReleaseEnter? && p.l in s.d.wakeLocks ==> !s.d.wakeLocks[p.l].once.Running?
  }

  lemma {:induction false} FreshAgent(ids: set<AgentId>) returns (n: AgentId)
    ensures forall a :: a in ids ==> a < n
    decreases |ids|
  {
    if ids == {} {
      n := 0;
    } else {
      var a :| a in ids;
      n := FreshAgent(ids - {a});
      if n <= a { n := a + 1; }
      assert forall b :: b in ids ==> b == a || b in ids - {a};
    }
  }

  const CHOICE := Choice(true, "", None, 0, 0, 0, 0)

  lemma ThreadGoesOn(c: Service, d: Shared, a: AgentId, t: ThreadPc)
    requires Wants(Thread(t)).None? && !t.Sleeping? && !t.CounterWait?
    ensures RunThread(c, d, a, t, CHOICE).Some?
  {
  }

  lemma CallGoesOn(d: Shared, a: AgentId, p: CallPc, n: AgentId) returns (ch: Choice)
    requires Wants(Call(p)).None? && CallAt(d.wakeLocks, a, p)
    requires p.ReleaseEnter? ==> !d.wakeLocks[p.l].once.Running?
    ensures RunCall(d, a, p, ch).Some?
    ensures RunCall(d, a, p, ch).value.spawn.Some? ==> RunCall(d, a, p, ch).value.spawn.value == n
  {
    ch := CHOICE.(agent := n);
    if p.Release? && d.waiters != {} {
      var w :| w in d.waiters;
      ch := CHOICE.(agent := w);
    }
  }

  /** No step is missing: in every reachable state an agent that runs has a next step. */
  lemma RunningGoesOn(config: B.Config, acts: seq<Action>, s: State, a: AgentId) returns (ch: Choice)
    requires Reached(config, acts, s) && CanRun(s, a)
    ensures Next(Configured(config), s, Run(a, ch)).Some?
  {
    ReachedInv(config, acts, s);
    var n := FreshAgent(s.agents.Keys);
    assert AgentAt(s.d, a, PcOf(s, a));
    match s.agents[a]
    case Thread(t) =>
      ch := CHOICE;
      ThreadGoesOn(Configured(config), s.d, a, t);
      ThreadAccounts(Configured(config), s.d, a, t, ch, RunThread(Configured(config), s.d, a, t, ch).value);
    case Call(p) =>
      ch := CallGoesOn(s.d, a, p, n);
  }

  lemma MutexIsFree(config: B.Config, acts: seq<Action>, s: State, a: AgentId)
    requires Reached(config, acts, s) && a in s.agents && Wants(s.agents[a]).Some?
    requires forall b :: b in s.agents && b !in s.d.waiters ==> !BlockedBy(s, a, b)
    ensures Wants(s.agents[a]).value !in s.owner
  {
    var m := Wants(s.agents[a]).value;
    if m in s.owner {
      ReachedInv(config, acts, s);
      var b := s.owner[m];
      OwnerHolds(Holds, s.agents, s.owner, m);
      assert AgentAt(s.d, b, PcOf(s, b));
      assert BlockedBy(s, a, b);
    }
  }

  lemma OnceIsFree(config: B.Config, acts: seq<Action>, s: State, a: AgentId)
    requires Reached(config, acts, s) && a in s.agents && Wants(s.agents[a]).None?
    requires forall b :: b in s.agents && b !in s.d.waiters ==> !BlockedBy(s, a, b)
    ensures s.agents[a].Thread? || CanRun(s, a)
  {
    if !s.agents[a].Thread? && !CanRun(s, a) {
      ReachedInv(config, acts, s);
      var b := s.d.wakeLocks[s.agents[a].p.l].once.who;
      assert AgentAt(s.d, b, PcOf(s, b));
      assert BlockedBy(s, a, b);
    }
  }

  /** An agent blocked by none of those not waiting for a notification can take a step. */
  lemma UnblockedGoesOn(config: B.Config, acts: seq<Action>, s: State, a: AgentId) returns (act: Action)
    requires Reached(config, acts, s) && a in s.agents && a !in s.d.waiters
    requires forall b :: b in s.agents && b !in s.d.waiters ==> !BlockedBy(s, a, b)
    ensures act.Take? || act.Wake? || act.Run?
    ensures act.a == a && Next(Configured(config), s, act).Some?
  {
    if CanRun(s, a) {
      var ch := RunningGoesOn(config, acts, s, a);
      act := Run(a, ch);
    } else if Wants(s.agents[a]).Some? {
      act := Take(a);
      MutexIsFree(config, acts, s, a);
    } else {
      act := Wake(a);
      OnceIsFree(config, acts, s, a);
    }
  }

  /** The service never hangs: in every reachable state with an agent that is not waiting for a
      notification, some such agent can take a mutex, wake up notified, or run. */
  lemma NeverStuck(config: B.Config, acts: seq<Action>, s: State)
    requires Reached(config, acts, s) && exists a :: a in s.agents && a !in s.d.waiters
    ensures exists act: Action ::
              (act.Take? || act.Wake? || act.Run?) && act.a in s.agents && act.a !in s.d.waiters &&
              Next(Configured(config), s, act).Some?
  {
    var stuck := s.agents.Keys - s.d.waiters;
    var first :| first in s.agents && first !in s.d.waiters;
    assert first in stuck;
    NoCyclicWait(config, acts, s, stuck);
    var a :| a in stuck && forall b :: b in stuck ==> !BlockedBy(s, a, b);
    forall b | b in s.agents && b !in s.d.waiters ensures !BlockedBy(s, a, b) {
      assert b in stuck;
    }
    var act := UnblockedGoesOn(config, acts, s, a);
    assert act.a in s.agents;
  }
}
