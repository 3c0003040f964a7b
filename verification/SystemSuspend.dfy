/** The calls of SystemSuspend and of its wake locks as they are written, each run under its mutexes
    without interruption, and shown to make the changes of the protocol's steps. */
module SystemSuspend {
  import opened Common
  import opened Autosuspend

  /** The guarded fields, with the un-notified waiters of mAutosuspendCondVar. */
  class Fields {
    var tokens: seq<Token>
    var enabled: bool
    var created: bool
    var counter: nat
    var waiters: set<AgentId>

    /** The fields hold the shared data d of the protocol. */
    ghost predicate Shows(d: Shared)
      reads this
    {
      tokens == d.tokens && enabled == d.enabled && created == d.created && counter == d.counter && waiters == d.waiters
    }

    constructor ()
      ensures tokens == [] && !enabled && !created && counter == 0 && waiters == {}
    {
      tokens := [];
      enabled := false;
      created := false;
      counter := 0;
      waiters := {};
    }

    /** Returns whether autosuspend was off, and whether a thread was started. */
    method EnableAutosuspend(token: Token, ghost d: Shared, ghost ch: Choice) returns (ok: bool, started: bool)
      requires Shows(d)
      modifies this
      ensures var k := RunEnable(d, token, ch).value; Shows(k.d) && started == k.spawn.Some?
      ensures ok == !old(enabled) && enabled && token in tokens
    {
      started := false;
      if token !in tokens {
        tokens := tokens + [token];
      }
      if enabled {
        return false, started;
      }
      enabled := true;
      if !created {
        started := true;
        created := true;
      }
      ok := true;
    }

    method DisableAutosuspend(ghost d: Shared)
      requires Shows(d)
      modifies this
      ensures Shows(DisableLocked(d)) && !enabled && tokens == []
    {
      tokens := [];
      if enabled {
        enabled := false;
        waiters := {};
      }
    }

    method IncSuspendCounter(ghost d: Shared, ghost l: LockId)
      requires Shows(d) && l in d.wakeLocks
      modifies this`counter
      ensures Shows(RunAcquire(d, l).value.d)
    {
      counter := (counter + 1) % COUNTER_MODULUS;
    }

    /** Returns the waiter that notify_one picked. */
    method DecSuspendCounter(ghost d: Shared, ghost l: LockId, ghost ch: Choice) returns (notified: Option<AgentId>)
      requires Shows(d) && l in d.wakeLocks
      modifies this`counter, this`waiters
      ensures notified.Some? ==> RunRelease(d, l, ch.(agent := notified.value)).Some? &&
                                 Shows(RunRelease(d, l, ch.(agent := notified.value)).value.d)
      ensures notified.None? ==> RunRelease(d, l, ch).Some? && Shows(RunRelease(d, l, ch).value.d)
      ensures notified.Some? <==> counter == 0 && old(waiters) != {}
      ensures counter == (old(counter) + COUNTER_MODULUS - 1) % COUNTER_MODULUS
    {
      notified := None;
      counter := (counter + COUNTER_MODULUS - 1) % COUNTER_MODULUS;
      if counter == 0 {
        if waiters != {} {
          var w: AgentId :| w in waiters;
          waiters := waiters - {w};
          notified := Some(w);
        }
      }
    }
  }

  /** The wake lock's end of it: std::call_once around one decrement. */
  class WakeLockObject {
    var released: bool
    const service: Fields

    constructor (service: Fields, ghost d: Shared, ghost l: LockId)
      requires service.Shows(d) && l in d.wakeLocks
      modifies service`counter
      ensures this.service == service && !released
      ensures service.Shows(RunAcquire(d, l).value.d)
    {
      this.service := service;
      released := false;
      new;
      service.IncSuspendCounter(d, l);
    }

    /** The first release is a release step of the protocol, whichever waiter it notifies; later ones
        change nothing. */
    method ReleaseOnce(ghost d: Shared, ghost l: LockId, ghost ch: Choice) returns (ghost d': Shared)
      requires service.Shows(d) && l in d.wakeLocks
      modifies this`released, service`counter, service`waiters
      ensures released && service.Shows(d')
      ensures old(released) ==> d' == d
      ensures !old(released) ==> exists pick: Choice :: Releases(d, l, pick, d')
    {
      d' := d;
      if !released {
        released := true;
        var notified := service.DecSuspendCounter(d, l, ch);
        ghost var pick := if notified.Some? then ch.(agent := notified.value) else ch;
        d' := RunRelease(d, l, pick).value.d;
        assert Releases(d, l, pick, d');
      }
    }
  }

  /** The release step of lock l, with the choices of pick, leads from d to d'. */
  ghost predicate Releases(d: Shared, l: LockId, pick: Choice, d': Shared) {
    RunRelease(d, l, pick).Some? && RunRelease(d, l, pick).value.d == d'
  }

  /** A wake lock constructed and released any number of times leaves the counter as it was, having
      taken one acquire and one release step of the protocol. */
  method AcquireAndRelease(service: Fields, times: nat, ghost d: Shared, ghost l: LockId, ghost ch: Choice)
      returns (ghost d': Shared)
    requires service.Shows(d) && l in d.wakeLocks && times >= 1 && d.counter < COUNTER_MODULUS
    modifies service`counter, service`waiters
    ensures service.Shows(d') && service.counter == old(service.counter)
    ensures exists pick: Choice :: Releases(RunAcquire(d, l).value.d, l, pick, d')
  {
    var lock := new WakeLockObject(service, d, l);
    d' := lock.ReleaseOnce(RunAcquire(d, l).value.d, l, ch);
    ghost var pick :| Releases(RunAcquire(d, l).value.d, l, pick, d');
    assert d'.counter == d.counter && l in d'.wakeLocks;
    ghost var after := d';
    for i := 1 to times
      invariant lock.released && fresh(lock) && lock.service == service
      invariant d' == after && service.Shows(d')
    {
      d' := lock.ReleaseOnce(d', l, ch);
    }
  }
}
