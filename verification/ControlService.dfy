/** The callback registries of SuspendControlService, and their clean-up when clients die. */
module ControlService {
  import opened Common

  /** A callback is known by its binder. */
  type Binder = nat

  type Wakelocks = map<string, seq<Binder>>

  // ----- what the operations compute

  function Remove(s: seq<Binder>, who: Binder): (r: seq<Binder>)
    ensures forall b :: b in r <==> b in s && b != who
    ensures multiset(r) == multiset(s)[who := 0]
  {
    if s == [] then []
    else
      assert s == s[..|s| - 1] + [s[|s| - 1]];
      Remove(s[..|s| - 1], who) + (if s[|s| - 1] == who then [] else [s[|s| - 1]])
  }

  /** r is what stands at those positions of s that hold another binder than who, in order. */
  predicate Left(s: seq<Binder>, r: seq<Binder>, who: Binder, at: seq<nat>) {
    && |at| == |r| && Positions(at, |s|)
    && (forall i :: 0 <= i < |at| ==> r[i] == s[at[i]])
    && (forall j :: 0 <= j < |s| ==> (s[j] != who <==> j in at))
  }

  /** r is s without who: every other registration stays, repeats included, and where it was. */
  ghost predicate Removes(s: seq<Binder>, r: seq<Binder>, who: Binder) {
    multiset(r) == multiset(s)[who := 0] && exists at: seq<nat> :: Left(s, r, who, at)
  }

  lemma LeftStep(s: seq<Binder>, r: seq<Binder>, who: Binder, at: seq<nat>, b: Binder)
    requires Left(s, r, who, at)
    ensures b == who ==> Left(s + [b], r, who, at)
    ensures b != who ==> Left(s + [b], r + [b], who, at + [|s|])
  {
    if b != who {
      forall j | 0 <= j <= |s| && (s + [b])[j] != who ensures j in at + [|s|] {
        if j < |s| { assert j in at; }
      }
    }
  }

  lemma {:induction false} RemoveLeaves(s: seq<Binder>, who: Binder) returns (at: seq<nat>)
    ensures Left(s, Remove(s, who), who, at)
  {
    at := [];
    if s != [] {
      var p, b := s[..|s| - 1], s[|s| - 1];
      at := RemoveLeaves(p, who);
      LeftStep(p, Remove(p, who), who, at, b);
      assert p + [b] == s;
      if b != who { at := at + [|p|]; }
    }
  }

  lemma RemoveRemoves(s: seq<Binder>, who: Binder)
    ensures Removes(s, Remove(s, who), who)
  {
    var at := RemoveLeaves(s, who);
  }

  lemma {:induction false} RemoveKeepsDistinct(s: seq<Binder>, who: Binder)
    requires Distinct(s)
    ensures Distinct(Remove(s, who))
  {
    if s != [] {
      var p, x := s[..|s| - 1], s[|s| - 1];
      RemoveKeepsDistinct(p, who);
      assert x !in p;
      assert x !in Remove(p, who);
    }
  }

  /** The callbacks for a name; operator[] makes an empty vector where there was none. */
  function At(w: Wakelocks, name: string): seq<Binder> {
    if name in w then w[name] else []
  }

  /** who is gone from every vector, and vectors that are empty are gone. */
  function Purged(w: Wakelocks, who: Binder): Wakelocks {
    map n | n in w && Remove(w[n], who) != [] :: Remove(w[n], who)
  }

  /** Every vector has lost who and nothing else; those that had nothing else are gone. */
  ghost predicate RemovesAll(w: Wakelocks, w': Wakelocks, who: Binder) {
    && (forall n :: n in w' <==> n in w && exists b :: b in w[n] && b != who)
    && (forall n :: n in w' ==> Removes(w[n], w'[n], who))
  }

  lemma PurgedRemoves(w: Wakelocks, who: Binder)
    ensures RemovesAll(w, Purged(w, who), who)
  {
    forall n | n in w
      ensures n in Purged(w, who) <==> exists b :: b in w[n] && b != who
      ensures Removes(w[n], Remove(w[n], who), who)
    {
      RemoveRemoves(w[n], who);
      var r := Remove(w[n], who);
      if r != [] { assert r[0] in w[n] && r[0] != who; }
    }
  }

  /** Purged except for some names not visited yet. */
  function PurgedBut(w: Wakelocks, who: Binder, names: set<string>): Wakelocks {
    map n | n in w && (n in names || Remove(w[n], who) != []) :: if n in names then w[n] else Remove(w[n], who)
  }

  lemma PurgedEnds(w: Wakelocks, who: Binder)
    ensures PurgedBut(w, who, w.Keys) == w && PurgedBut(w, who, {}) == Purged(w, who)
  {
  }

  lemma PurgedStep(w: Wakelocks, who: Binder, names: set<string>, n: string)
    requires names <= w.Keys && n in names
    ensures var p := PurgedBut(w, who, names);
            n in p && p[n] == w[n] &&
            PurgedBut(w, who, names - {n}) ==
            if Remove(w[n], who) == [] then p - {n} else p[n := Remove(w[n], who)]
  {
  }

  predicate InWakelocks(w: Wakelocks, b: Binder) {
    exists n :: n in w && b in w[n]
  }

  // ----- the service

  /** A call into a client. */
  datatype Invocation =
    | NotifyAcquired(b: Binder)
    | NotifyReleased(b: Binder)
    | NotifyWokenUp(b: Binder, success: bool, reasons: seq<string>)

  class Service {
    var callbacks: seq<Binder>
    var wakelockCallbacks: Wakelocks

    constructor ()
      ensures callbacks == [] && wakelockCallbacks == map[]
    {
      callbacks := [];
      wakelockCallbacks := map[];
    }

    /** callback is null for None; linkOk is what linkToDeath would answer. */
    method RegisterCallback(callback: Option<Binder>, remote: bool, linkOk: bool) returns (ok: bool, linked: bool)
      modifies this`callbacks
      ensures callback.None? ==> !ok && !linked
      ensures callback.Some? ==>
                var b := callback.value;
                var links := remote && b !in old(callbacks);
                ok == (!links || linkOk) && linked == (links && linkOk)
      ensures callbacks == if ok then old(callbacks) + [callback.value] else old(callbacks)
    {
      if callback.None? {
        return false, false;
      }
      var b := callback.value;
      linked := false;
      if remote {
        if b !in callbacks {
          if !linkOk {
            return false, false;
          }
          linked := true;
        }
      }
      callbacks := callbacks + [b];
      ok := true;
    }

    method RegisterWakelockCallback(callback: Option<Binder>, name: string, remote: bool, linkOk: bool)
        returns (ok: bool, linked: bool)
      modifies this`wakelockCallbacks
      ensures ok == (callback.Some? && name != "" && callback.value !in At(old(wakelockCallbacks), name) &&
                     (!remote || linkOk))
      ensures linked == (ok && remote)
      ensures wakelockCallbacks ==
              if callback.None? || name == "" then old(wakelockCallbacks)
              else old(wakelockCallbacks)[name :=
                     At(old(wakelockCallbacks), name) + (if ok then [callback.value] else [])]
    {
      if callback.None? || name == "" {
        return false, false;
      }
      var b := callback.value;
      wakelockCallbacks := wakelockCallbacks[name := At(wakelockCallbacks, name)];
      assert At(old(wakelockCallbacks), name) + [] == At(old(wakelockCallbacks), name);
      if b in wakelockCallbacks[name] {
        return false, false;
      }
      if remote && !linkOk {
        return false, false;
      }
      wakelockCallbacks := wakelockCallbacks[name := wakelockCallbacks[name] + [b]];
      return true, remote;
    }

    method BinderDied(who: Binder)
      modifies this
      ensures Removes(old(callbacks), callbacks, who)
      ensures RemovesAll(old(wakelockCallbacks), wakelockCallbacks, who)
      ensures callbacks == Remove(old(callbacks), who)
      ensures wakelockCallbacks == Purged(old(wakelockCallbacks), who)
    {
      RemoveRemoves(callbacks, who);
      PurgedRemoves(wakelockCallbacks, who);
      callbacks := Remove(callbacks, who);
      var names := wakelockCallbacks.Keys;
      ghost var w := wakelockCallbacks;
      PurgedEnds(w, who);
      while names != {}
        invariant names <= w.Keys
        invariant wakelockCallbacks == PurgedBut(w, who, names)
        invariant callbacks == Remove(old(callbacks), who)
        decreases names
      {
        var n :| n in names;
        PurgedStep(w, who, names, n);
        names := names - {n};
        var left := Remove(wakelockCallbacks[n], who);
        if left == [] {
          wakelockCallbacks := wakelockCallbacks - {n};
        } else {
          wakelockCallbacks := wakelockCallbacks[n := left];
        }
      }
    }

    /** The invocations, in order; the registry is copied and left first. */
    method NotifyWakelock(name: string, isAcquired: bool) returns (invoked: seq<Invocation>)
      ensures |invoked| == |At(wakelockCallbacks, name)|
      ensures forall i :: 0 <= i < |invoked| ==>
                invoked[i].b == At(wakelockCallbacks, name)[i] &&
                (if isAcquired then invoked[i].NotifyAcquired? else invoked[i].NotifyReleased?)
    {
      invoked := [];
      if name !in wakelockCallbacks {
        return;
      }
      var copy := wakelockCallbacks[name];
      for i := 0 to |copy|
        invariant |invoked| == i
        invariant forall j :: 0 <= j < i ==>
                    invoked[j].b == copy[j] &&
                    (if isAcquired then invoked[j].NotifyAcquired? else invoked[j].NotifyReleased?)
      {
        if isAcquired {
          invoked := invoked + [NotifyAcquired(copy[i])];
        } else {
          invoked := invoked + [NotifyReleased(copy[i])];
        }
      }
    }

    method NotifyWakeup(success: bool, reasons: seq<string>) returns (invoked: seq<Invocation>)
      ensures |invoked| == |callbacks|
      ensures forall i :: 0 <= i < |invoked| ==> invoked[i] == NotifyWokenUp(callbacks[i], success, reasons)
    {
      invoked := [];
      var copy := callbacks;
      for i := 0 to |copy|
        invariant |invoked| == i
        invariant forall j :: 0 <= j < i ==> invoked[j] == NotifyWokenUp(copy[j], success, reasons)
      {
        invoked := invoked + [NotifyWokenUp(copy[i], success, reasons)];
      }
    }
  }

  lemma PurgedElements(w: Wakelocks, who: Binder, b: Binder)
    ensures InWakelocks(Purged(w, who), b) <==> InWakelocks(w, b) && b != who
  {
    if InWakelocks(w, b) && b != who {
      var n :| n in w && b in w[n];
      assert b in Remove(w[n], who);
      assert n in Purged(w, who);
    }
  }

  // ----- clients that die

  /** What holds mCallbackLock: nothing, a registration that has linked and will push, or binderDied
      between its two halves. */
  datatype CallbackOp = Free | Pushing(b: Binder) | Dying(who: Binder)

  datatype WakelockOp = Idle | PushingFor(b: Binder, name: string)

  /** links: death links of living binders; pending: death notifications not delivered yet. */
  datatype State = State(
    callbacks: seq<Binder>,
    wakelocks: Wakelocks,
    dead: set<Binder>,
    links: multiset<Binder>,
    pending: multiset<Binder>,
    cOp: CallbackOp,
    wOp: WakelockOp)

  const INITIAL := State([], map[], {}, multiset{}, multiset{}, Free, Idle)

  datatype Action =
    | Register(b: Binder, linkOk: bool)
    | Push
    | RegisterWakelock(b: Binder, name: string, linkOk: bool)
    | PushWakelock
    | Die(b: Binder)
    | Deliver(b: Binder)
    | FinishDeath

  /** linkToDeath succeeds only on a living binder. */
  predicate Links(s: State, b: Binder, linkOk: bool) {
    linkOk && b !in s.dead
  }

  /** One step; binders in `remote` live in other processes and can be linked and die. */
  function Next(remote: set<Binder>, s: State, act: Action): Option<State> {
    match act
    case Register(b, linkOk) =>
      if s.cOp != Free then None
      else if b !in remote || b in s.callbacks then Some(s.(cOp := Pushing(b)))
      else if Links(s, b, linkOk) then Some(s.(cOp := Pushing(b), links := s.links + multiset{b}))
      else Some(s)
    case Push =>
      if !s.cOp.Pushing? then None else Some(s.(cOp := Free, callbacks := s.callbacks + [s.cOp.b]))
    case RegisterWakelock(b, name, linkOk) =>
      if s.wOp != Idle || name == "" then None
      else
        var s1 := s.(wakelocks := s.wakelocks[name := At(s.wakelocks, name)]);
        if b in At(s.wakelocks, name) then Some(s1)
        else if b !in remote then Some(s1.(wOp := PushingFor(b, name)))
        else if Links(s, b, linkOk) then Some(s1.(wOp := PushingFor(b, name), links := s.links + multiset{b}))
        else Some(s1)
    case PushWakelock =>
      if s.wOp == Idle then None
      else Some(s.(wOp := Idle, wakelocks := s.wakelocks[s.wOp.name := At(s.wakelocks, s.wOp.name) + [s.wOp.b]]))
    case Die(b) =>
      if b !in remote || b in s.dead then None
      else Some(s.(dead := s.dead + {b}, links := s.links[b := 0],
                   pending := s.pending[b := s.pending[b] + s.links[b]]))
    case Deliver(b) =>
      if s.cOp != Free || b !in s.pending then None
      else Some(s.(callbacks := Remove(s.callbacks, b), pending := s.pending - multiset{b}, cOp := Dying(b)))
    case FinishDeath =>
      if !s.cOp.Dying? || s.wOp != Idle then None
      else Some(s.(wakelocks := Purged(s.wakelocks, s.cOp.who), cOp := Free))
  }

  // ----- the steps of one call, uninterrupted, are the service's method

  lemma RegistrationSteps(remote: set<Binder>, s: State, b: Binder, linkOk: bool)
    requires s.cOp == Free
    ensures var links := b in remote && b !in s.callbacks;
            var s1 := Next(remote, s, Register(b, linkOk)).value;
            if !links || Links(s, b, linkOk) then
              Next(remote, s1, Push).value == s.(callbacks := s.callbacks + [b],
                                                 links := if links then s.links + multiset{b} else s.links)
            else s1 == s
  {
  }

  lemma WakelockRegistrationSteps(remote: set<Binder>, s: State, b: Binder, name: string, linkOk: bool)
    requires s.wOp == Idle && name != ""
    ensures var ok := b !in At(s.wakelocks, name) && (b !in remote || Links(s, b, linkOk));
            var s1 := Next(remote, s, RegisterWakelock(b, name, linkOk)).value;
            var s2 := if ok then Next(remote, s1, PushWakelock).value else s1;
            s2.wOp == Idle &&
            s2.wakelocks == s.wakelocks[name := At(s.wakelocks, name) + (if ok then [b] else [])]
  {
    assert At(s.wakelocks, name) + [] == At(s.wakelocks, name);
  }

  lemma DeathIs(remote: set<Binder>, s: State, b: Binder)
    requires s.cOp == Free && s.wOp == Idle && b in s.pending
    ensures var s2 := Next(remote, Next(remote, s, Deliver(b)).value, FinishDeath).value;
            s2.callbacks == Remove(s.callbacks, b) && s2.wakelocks == Purged(s.wakelocks, b) && s2.cOp == Free
  {
  }

  lemma DeathSteps(remote: set<Binder>, s: State, b: Binder)
    requires s.cOp == Free && s.wOp == Idle && b in s.pending
    ensures var s2 := Next(remote, Next(remote, s, Deliver(b)).value, FinishDeath).value;
            Removes(s.callbacks, s2.callbacks, b) && RemovesAll(s.wakelocks, s2.wakelocks, b) && s2.cOp == Free
  {
    DeathIs(remote, s, b);
    RemoveRemoves(s.callbacks, b);
    PurgedRemoves(s.wakelocks, b);
  }

  function Exec(remote: set<Binder>, acts: seq<Action>): Option<State> {
    if acts == [] then Some(INITIAL)
    else
      match Exec(remote, acts[..|acts| - 1])
      case None => None
      case Some(s) => Next(remote, s, acts[|acts| - 1])
  }

  /** b is in a registry, or about to be put into one. */
  predicate InCallbacks(s: State, b: Binder) {
    b in s.callbacks || s.cOp == Pushing(b)
  }

  predicate ForWakelocks(s: State, b: Binder) {
    InWakelocks(s.wakelocks, b) || (s.wOp.PushingFor? && s.wOp.b == b)
  }

  /** Living remote binders are linked, dead ones are about to be removed. */
  ghost predicate Tracked(s: State, b: Binder) {
    if b in s.dead then
      && (InCallbacks(s, b) ==> b in s.pending)
      && (ForWakelocks(s, b) ==> b in s.pending || s.cOp == Dying(b))
    else
      InCallbacks(s, b) || ForWakelocks(s, b) ==> b in s.links
  }

  ghost predicate Inv(remote: set<Binder>, s: State) {
    && s.dead <= remote
    && (forall b :: b in remote ==> Tracked(s, b))
    && (forall n :: n in s.wakelocks ==> Distinct(s.wakelocks[n]))
    && (s.wOp.PushingFor? ==> s.wOp.b !in At(s.wakelocks, s.wOp.name))
    && (s.cOp.Dying? ==> s.cOp.who !in s.callbacks)
  }

  /** Adding to one vector adds its binder and nothing else. */
  lemma ExtendedElements(w: Wakelocks, name: string, more: seq<Binder>, b: Binder)
    ensures InWakelocks(w[name := At(w, name) + more], b) <==> InWakelocks(w, b) || b in more
  {
    var w' := w[name := At(w, name) + more];
    if InWakelocks(w, b) {
      var n :| n in w && b in w[n];
      assert n in w' && b in w'[n];
    } else if b in more {
      assert name in w' && b in w'[name];
    }
  }

  lemma TrackedCallbacks(remote: set<Binder>, s: State, s': State, act: Action, b: Binder)
    requires (act.Register? || act.Push? || act.Deliver?) && Next(remote, s, act) == Some(s')
    requires Tracked(s, b) && b in remote
    ensures Tracked(s', b)
  {
    assert InWakelocks(s'.wakelocks, b) == InWakelocks(s.wakelocks, b);
  }

  /** Death turns every link into a pending notification. */
  lemma TrackedDeath(remote: set<Binder>, s: State, s': State, who: Binder, b: Binder)
    requires Next(remote, s, Die(who)) == Some(s') && Tracked(s, b)
    ensures Tracked(s', b)
  {
    assert InWakelocks(s'.wakelocks, b) == InWakelocks(s.wakelocks, b);
  }

  lemma TrackedWakelocks(remote: set<Binder>, s: State, s': State, act: Action, b: Binder)
    requires (act.RegisterWakelock? || act.PushWakelock?) && Next(remote, s, act) == Some(s')
    requires Tracked(s, b) && b in remote
    ensures Tracked(s', b)
  {
    if act.RegisterWakelock? {
      assert At(s.wakelocks, act.name) + [] == At(s.wakelocks, act.name);
      ExtendedElements(s.wakelocks, act.name, [], b);
    } else {
      ExtendedElements(s.wakelocks, s.wOp.name, [s.wOp.b], b);
    }
  }

  lemma TrackedFinish(remote: set<Binder>, s: State, s': State, b: Binder)
    requires Next(remote, s, FinishDeath) == Some(s') && Tracked(s, b)
    ensures Tracked(s', b)
  {
    PurgedElements(s.wakelocks, s.cOp.who, b);
  }

  lemma TrackedNext(remote: set<Binder>, s: State, act: Action, b: Binder)
    requires Next(remote, s, act).Some? && Tracked(s, b) && b in remote
    ensures Tracked(Next(remote, s, act).value, b)
  {
    var s' := Next(remote, s, act).value;
    if act.FinishDeath? { TrackedFinish(remote, s, s', b); }
    else if act.RegisterWakelock? || act.PushWakelock? { TrackedWakelocks(remote, s, s', act, b); }
    else if act.Die? { TrackedDeath(remote, s, s', act.b, b); }
    else { TrackedCallbacks(remote, s, s', act, b); }
  }

  lemma DistinctNext(remote: set<Binder>, s: State, act: Action, n: string)
    requires Inv(remote, s) && Next(remote, s, act).Some? && n in Next(remote, s, act).value.wakelocks
    ensures Distinct(Next(remote, s, act).value.wakelocks[n])
  {
    if act.FinishDeath? {
      RemoveKeepsDistinct(s.wakelocks[n], s.cOp.who);
    }
  }

  lemma InvNext(remote: set<Binder>, s: State, act: Action)
    requires Inv(remote, s) && Next(remote, s, act).Some?
    ensures Inv(remote, Next(remote, s, act).value)
  {
    var s' := Next(remote, s, act).value;
    forall b | b in remote ensures Tracked(s', b) { TrackedNext(remote, s, act, b); }
    forall n | n in s'.wakelocks ensures Distinct(s'.wakelocks[n]) { DistinctNext(remote, s, act, n); }
  }

  lemma {:induction false} InvReachable(remote: set<Binder>, acts: seq<Action>)
    requires Exec(remote, acts).Some?
    ensures Inv(remote, Exec(remote, acts).value)
  {
    if acts != [] {
      InvReachable(remote, acts[..|acts| - 1]);
      InvNext(remote, Exec(remote, acts[..|acts| - 1]).value, acts[|acts| - 1]);
    }
  }

  /** In every run a dead client that is still registered has a death notification pending, or being
      processed; no callback is registered twice under one wake-lock name. */
  lemma DeadAreNotForgotten(remote: set<Binder>, acts: seq<Action>, s: State, b: Binder)
    requires Exec(remote, acts) == Some(s)
    ensures b in s.dead && b in s.callbacks ==> b in s.pending
    ensures b in s.dead && InWakelocks(s.wakelocks, b) ==> b in s.pending || s.cOp == Dying(b)
    ensures forall n :: n in s.wakelocks ==> Distinct(s.wakelocks[n])
  {
    InvReachable(remote, acts);
    if b in s.dead { assert Tracked(s, b); }
  }

  lemma DeliveryIs(remote: set<Binder>, s: State, s': State, who: Binder)
    requires Next(remote, s, Deliver(who)) == Some(s')
    ensures s'.callbacks == Remove(s.callbacks, who) && s'.wakelocks == s.wakelocks && s'.cOp == Dying(who)
  {
  }

  /** Taking up a notification removes its binder from the one registry, ... */
  lemma DeathBegins(remote: set<Binder>, s: State, s': State, who: Binder)
    requires Next(remote, s, Deliver(who)) == Some(s')
    ensures Removes(s.callbacks, s'.callbacks, who) && s'.wakelocks == s.wakelocks && s'.cOp == Dying(who)
  {
    DeliveryIs(remote, s, s', who);
    RemoveRemoves(s.callbacks, who);
  }

  /** ... and finishing it from every vector of the other; nobody else loses a registration. */
  lemma DeathCleansUp(remote: set<Binder>, acts: seq<Action>, s: State, s': State, who: Binder)
    requires Exec(remote, acts) == Some(s) && s.cOp == Dying(who) && Next(remote, s, FinishDeath) == Some(s')
    ensures who !in s'.callbacks && !InWakelocks(s'.wakelocks, who)
    ensures s'.callbacks == s.callbacks && RemovesAll(s.wakelocks, s'.wakelocks, who)
  {
    PurgedRemoves(s.wakelocks, who);
    InvReachable(remote, acts);
    forall b ensures InWakelocks(s'.wakelocks, b) <==> InWakelocks(s.wakelocks, b) && b != who {
      PurgedElements(s.wakelocks, who, b);
    }
  }

  /** Once all notifications are processed, no dead client is registered anywhere. */
  lemma QuietMeansClean(remote: set<Binder>, acts: seq<Action>, s: State, b: Binder)
    requires Exec(remote, acts) == Some(s) && s.pending == multiset{} && s.cOp == Free && b in s.dead
    ensures b !in s.callbacks && !InWakelocks(s.wakelocks, b)
  {
    DeadAreNotForgotten(remote, acts, s, b);
  }
}
