/** Who holds a port (internal/runtime/ports.go and link_manager.go): an open probe, or a Link resource from the handoff
    until its interface is really gone. Every run keeps leases exclusive and none is lost. */
module LinkResources {
  import opened Common

  type Alias = nat

  datatype Lease = Lease(port: int, id: nat)

  datatype Probe = Probe(lease: Lease, handed: bool, closed: bool)

  /** `cleanup` is a deletion that failed and waits for another try. */
  datatype Resource = Resource(lease: Option<Lease>, cleanup: bool)

  datatype State = State(leases: map<int, nat>, nextId: nat, probes: map<nat, Probe>, resources: map<Alias, Resource>)

  datatype Event =
    | Reserve(port: int)
    | CloseProbe(id: nat)
    | Handoff(id: nat, alias: Alias)
    | Acquire(port: int, alias: Alias)
    | OwnWithoutPort(alias: Alias)
    | Removed(alias: Alias, ok: bool)
    | Retry(alias: Alias, ok: bool)

  const START := State(map[], 0, map[], map[])

  function Release(s: State, lease: Option<Lease>): State {
    if lease.Some? && lease.value.port in s.leases && s.leases[lease.value.port] == lease.value.id
    then s.(leases := s.leases - {lease.value.port}) else s
  }

  predicate CanLease(vfpPort: int, s: State, port: int) {
    1 <= port <= 65535 && port != vfpPort && port !in s.leases
  }

  function Own(s: State, alias: Alias, lease: Option<Lease>): State {
    s.(resources := s.resources[alias := Resource(lease, false)])
  }

  /** Owning may only begin an entry, or repeat one that has no port or this very one. */
  predicate MayOwn(s: State, alias: Alias, lease: Option<Lease>) {
    alias in s.resources && s.resources[alias].lease.Some? ==> s.resources[alias].lease == lease
  }

  function Remove(s: State, alias: Alias, ok: bool): State {
    if alias !in s.resources then s
    else if !ok then s.(resources := s.resources[alias := s.resources[alias].(cleanup := true)])
    else Release(s, s.resources[alias].lease).(resources := s.resources - {alias})
  }

  function Step(vfpPort: int, s: State, e: Event): State {
    match e
    case Reserve(port) =>
      if !CanLease(vfpPort, s, port) then s
      else
        State(s.leases[port := s.nextId], s.nextId + 1,
              s.probes[s.nextId := Probe(Lease(port, s.nextId), false, false)], s.resources)
    case CloseProbe(id) =>
      if id !in s.probes then s
      else
        var p := s.probes[id];
        var freed := if p.handed then s else Release(s, Some(p.lease));
        freed.(probes := s.probes[id := p.(closed := true)])
    case Handoff(id, alias) =>
      if id !in s.probes || s.probes[id].closed || s.probes[id].handed
          || !MayOwn(s, alias, Some(s.probes[id].lease)) then s
      else Own(s.(probes := s.probes[id := s.probes[id].(handed := true)]), alias, Some(s.probes[id].lease))
    case Acquire(port, alias) =>
      if !CanLease(vfpPort, s, port) || !MayOwn(s, alias, None) then s
      else
        Own(State(s.leases[port := s.nextId], s.nextId + 1, s.probes, s.resources), alias, Some(Lease(port, s.nextId)))
    case OwnWithoutPort(alias) => if MayOwn(s, alias, None) then Own(s, alias, None) else s
    case Removed(alias, ok) => Remove(s, alias, ok)
    case Retry(alias, ok) => if alias in s.resources && s.resources[alias].cleanup then Remove(s, alias, ok) else s
  }

  function Run(vfpPort: int, events: seq<Event>): State {
    if events == [] then START else Step(vfpPort, Run(vfpPort, events[..|events| - 1]), events[|events| - 1])
  }

  // ---------------------------------------------------------------- holders

  predicate ProbeHolds(s: State, id: nat, lease: Lease) {
    id in s.probes && s.probes[id].lease == lease && !s.probes[id].handed && !s.probes[id].closed
  }

  predicate LinkHolds(s: State, alias: Alias, lease: Lease) {
    alias in s.resources && s.resources[alias].lease == Some(lease)
  }

  predicate Leased(s: State, lease: Lease) {
    lease.port in s.leases && s.leases[lease.port] == lease.id
  }

  /** Identities are older than the next one, and no lease is on a forbidden port. */
  ghost predicate Dated(vfpPort: int, s: State) {
    && (forall id | id in s.probes :: s.probes[id].lease.id == id && id < s.nextId)
    && (forall a | a in s.resources && s.resources[a].lease.Some? :: s.resources[a].lease.value.id < s.nextId)
    && (forall p | p in s.leases :: s.leases[p] < s.nextId && 1 <= p <= 65535 && p != vfpPort)
  }

  /** What a probe or a Link holds is really leased to it. */
  ghost predicate Backed(s: State) {
    && (forall id | id in s.probes && !s.probes[id].handed && !s.probes[id].closed :: Leased(s, s.probes[id].lease))
    && (forall a | a in s.resources && s.resources[a].lease.Some? :: Leased(s, s.resources[a].lease.value))
  }

  /** Two Links never share a lease, and a Link's lease has left its probe. */
  ghost predicate Apart(s: State) {
    && (forall a | a in s.resources && s.resources[a].lease.Some? && s.resources[a].lease.value.id in s.probes ::
          s.probes[s.resources[a].lease.value.id].handed)
    && (forall a, b | a in s.resources && b in s.resources && s.resources[a].lease.Some? && a != b ::
          s.resources[b].lease != s.resources[a].lease)
  }

  ghost predicate AllHeld(s: State) {
    forall p | p in s.leases :: HeldBySome(s, Lease(p, s.leases[p]))
  }

  ghost predicate Inv(vfpPort: int, s: State) {
    Dated(vfpPort, s) && Backed(s) && Apart(s) && AllHeld(s)
  }

  ghost predicate HeldBySome(s: State, lease: Lease) {
    ProbeHolds(s, lease.id, lease) || exists a :: LinkHolds(s, a, lease)
  }

  lemma OwnKeepsHeld(s: State, alias: Alias, lease: Option<Lease>, held: Lease)
    requires MayOwn(s, alias, lease) && HeldBySome(s, held)
    ensures HeldBySome(Own(s, alias, lease), held)
  {
    if !ProbeHolds(s, held.id, held) {
      var a :| LinkHolds(s, a, held);
      assert LinkHolds(Own(s, alias, lease), a, held);
    }
  }

  /** Nothing but its own release lets a holder go. */
  lemma StillHeld(s: State, next: State, lease: Lease)
    requires HeldBySome(s, lease)
    requires ProbeHolds(s, lease.id, lease) ==> ProbeHolds(next, lease.id, lease)
    requires forall a :: LinkHolds(s, a, lease) ==> LinkHolds(next, a, lease)
    ensures HeldBySome(next, lease)
  {
    if !ProbeHolds(s, lease.id, lease) {
      var a :| LinkHolds(s, a, lease);
      assert LinkHolds(next, a, lease);
    }
  }

  lemma ReserveKeeps(vfpPort: int, s: State, port: int)
    requires Inv(vfpPort, s) && CanLease(vfpPort, s, port)
    ensures Inv(vfpPort, Step(vfpPort, s, Reserve(port)))
  {
    var next := Step(vfpPort, s, Reserve(port));
    ReserveHolds(vfpPort, s, port);
    assert Backed(next) by {
      forall a | a in next.resources && next.resources[a].lease.Some?
        ensures Leased(next, next.resources[a].lease.value) {
        assert Leased(s, s.resources[a].lease.value);
      }
    }
  }

  lemma ReserveHolds(vfpPort: int, s: State, port: int)
    requires Inv(vfpPort, s) && CanLease(vfpPort, s, port)
    ensures AllHeld(Step(vfpPort, s, Reserve(port)))
  {
    var next := Step(vfpPort, s, Reserve(port));
    forall p | p in next.leases ensures HeldBySome(next, Lease(p, next.leases[p])) {
      if p == port {
        assert ProbeHolds(next, s.nextId, Lease(port, s.nextId));
      } else {
        StillHeld(s, next, Lease(p, s.leases[p]));
      }
    }
  }

  /** Closing a probe frees its own port and no other. */
  lemma CloseBacks(vfpPort: int, s: State, id: nat)
    requires Inv(vfpPort, s) && id in s.probes
    ensures Backed(Step(vfpPort, s, CloseProbe(id)))
  {
    var next := Step(vfpPort, s, CloseProbe(id));
    forall a | a in next.resources && next.resources[a].lease.Some?
      ensures Leased(next, next.resources[a].lease.value) {
      assert Leased(s, s.resources[a].lease.value);
      assert s.probes[id].handed || s.resources[a].lease.value.id != id;
    }
    forall i | i in next.probes && !next.probes[i].handed && !next.probes[i].closed
      ensures Leased(next, next.probes[i].lease) {
      assert i != id && Leased(s, s.probes[i].lease);
    }
  }

  lemma CloseHolds(vfpPort: int, s: State, id: nat)
    requires Inv(vfpPort, s) && id in s.probes
    ensures AllHeld(Step(vfpPort, s, CloseProbe(id)))
  {
    var next := Step(vfpPort, s, CloseProbe(id));
    forall p | p in next.leases ensures HeldBySome(next, Lease(p, next.leases[p])) {
      assert HeldBySome(s, Lease(p, s.leases[p]));
      StillHeld(s, next, Lease(p, s.leases[p]));
    }
  }

  lemma CloseKeeps(vfpPort: int, s: State, id: nat)
    requires Inv(vfpPort, s) && id in s.probes
    ensures Inv(vfpPort, Step(vfpPort, s, CloseProbe(id)))
  {
    CloseBacks(vfpPort, s, id);
    CloseHolds(vfpPort, s, id);
  }

  lemma HandoffKeeps(vfpPort: int, s: State, id: nat, alias: Alias)
    requires Inv(vfpPort, s)
    ensures Inv(vfpPort, Step(vfpPort, s, Handoff(id, alias)))
  {
    var next := Step(vfpPort, s, Handoff(id, alias));
    if next != s {
      var lease := s.probes[id].lease;
      forall p | p in next.leases ensures HeldBySome(next, Lease(p, next.leases[p])) {
        if Lease(p, s.leases[p]) == lease {
          assert LinkHolds(next, alias, lease);
        } else {
          assert HeldBySome(s, Lease(p, s.leases[p]));
          StillHeld(s, next, Lease(p, s.leases[p]));
        }
      }
    }
  }

  lemma AcquireHolds(vfpPort: int, s: State, port: int, alias: Alias)
    requires Inv(vfpPort, s) && CanLease(vfpPort, s, port) && MayOwn(s, alias, None)
    ensures AllHeld(Step(vfpPort, s, Acquire(port, alias)))
  {
    var next := Step(vfpPort, s, Acquire(port, alias));
    forall p | p in next.leases ensures HeldBySome(next, Lease(p, next.leases[p])) {
      if p == port {
        assert LinkHolds(next, alias, Lease(port, s.nextId));
      } else {
        assert HeldBySome(s, Lease(p, s.leases[p]));
        StillHeld(s, next, Lease(p, s.leases[p]));
      }
    }
  }

  lemma AcquireBacks(vfpPort: int, s: State, port: int, alias: Alias)
    requires Inv(vfpPort, s) && CanLease(vfpPort, s, port) && MayOwn(s, alias, None)
    ensures Backed(Step(vfpPort, s, Acquire(port, alias)))
  {
    var next := Step(vfpPort, s, Acquire(port, alias));
    forall i | i in next.probes && !next.probes[i].handed && !next.probes[i].closed
      ensures Leased(next, next.probes[i].lease) {
      assert Leased(s, s.probes[i].lease);
    }
    forall a | a in next.resources && next.resources[a].lease.Some?
      ensures Leased(next, next.resources[a].lease.value) {
      assert a != alias ==> Leased(s, s.resources[a].lease.value);
    }
  }

  lemma AcquireKeeps(vfpPort: int, s: State, port: int, alias: Alias)
    requires Inv(vfpPort, s)
    ensures Inv(vfpPort, Step(vfpPort, s, Acquire(port, alias)))
  {
    if CanLease(vfpPort, s, port) && MayOwn(s, alias, None) {
      AcquireBacks(vfpPort, s, port, alias);
      AcquireHolds(vfpPort, s, port, alias);
    }
  }

  lemma FailedRemovalKeeps(vfpPort: int, s: State, alias: Alias)
    requires Inv(vfpPort, s) && alias in s.resources
    ensures Inv(vfpPort, Remove(s, alias, false))
  {
    var next := Remove(s, alias, false);
    forall p | p in next.leases ensures HeldBySome(next, Lease(p, next.leases[p])) {
      assert HeldBySome(s, Lease(p, s.leases[p]));
      StillHeld(s, next, Lease(p, s.leases[p]));
    }
  }

  lemma RemovalKeeps(vfpPort: int, s: State, alias: Alias)
    requires Inv(vfpPort, s) && alias in s.resources
    ensures Inv(vfpPort, Remove(s, alias, true))
  {
    var next := Remove(s, alias, true);
    var lease := s.resources[alias].lease;
    forall a | a in next.resources && next.resources[a].lease.Some?
      ensures Leased(next, next.resources[a].lease.value) {
      assert Leased(s, s.resources[a].lease.value) && s.resources[a].lease != lease;
    }
    forall id | id in next.probes && !next.probes[id].handed && !next.probes[id].closed
      ensures Leased(next, next.probes[id].lease) {
      assert Leased(s, s.probes[id].lease);
    }
    forall p | p in next.leases ensures HeldBySome(next, Lease(p, next.leases[p])) {
      assert HeldBySome(s, Lease(p, s.leases[p]));
      assert lease != Some(Lease(p, s.leases[p]));
      StillHeld(s, next, Lease(p, s.leases[p]));
    }
  }

  lemma RemoveKeeps(vfpPort: int, s: State, alias: Alias, ok: bool)
    requires Inv(vfpPort, s)
    ensures Inv(vfpPort, Remove(s, alias, ok))
  {
    if alias in s.resources && ok {
      RemovalKeeps(vfpPort, s, alias);
    } else if alias in s.resources {
      FailedRemovalKeeps(vfpPort, s, alias);
    }
  }

  lemma OwnKeeps(vfpPort: int, s: State, alias: Alias)
    requires Inv(vfpPort, s) && MayOwn(s, alias, None)
    ensures Inv(vfpPort, Own(s, alias, None))
  {
    var next := Own(s, alias, None);
    forall p | p in next.leases ensures HeldBySome(next, Lease(p, next.leases[p])) {
      assert HeldBySome(s, Lease(p, s.leases[p]));
      OwnKeepsHeld(s, alias, None, Lease(p, s.leases[p]));
    }
  }

  lemma StepKeeps(vfpPort: int, s: State, e: Event)
    requires Inv(vfpPort, s)
    ensures Inv(vfpPort, Step(vfpPort, s, e))
  {
    match e {
      case Reserve(port) =>
        if CanLease(vfpPort, s, port) {
          ReserveKeeps(vfpPort, s, port);
        }
      case CloseProbe(id) =>
        if id in s.probes {
          CloseKeeps(vfpPort, s, id);
        }
      case Handoff(id, alias) => HandoffKeeps(vfpPort, s, id, alias);
      case Acquire(port, alias) => AcquireKeeps(vfpPort, s, port, alias);
      case OwnWithoutPort(alias) =>
        if MayOwn(s, alias, None) {
          OwnKeeps(vfpPort, s, alias);
        }
      case Removed(alias, ok) => RemoveKeeps(vfpPort, s, alias, ok);
      case Retry(alias, ok) => RemoveKeeps(vfpPort, s, alias, ok);
    }
  }

  lemma {:induction false} RunKeeps(vfpPort: int, events: seq<Event>)
    ensures Inv(vfpPort, Run(vfpPort, events))
  {
    if events != [] {
      RunKeeps(vfpPort, events[..|events| - 1]);
      StepKeeps(vfpPort, Run(vfpPort, events[..|events| - 1]), events[|events| - 1]);
    }
  }

  // ---------------------------------------------------------------- results

  /** No port is held twice, by probes, by Links, or by one of each; the VFP port is never held. */
  lemma LeasesAreExclusive(vfpPort: int, events: seq<Event>, x: Lease, y: Lease)
    requires HeldBySome(Run(vfpPort, events), x) && HeldBySome(Run(vfpPort, events), y) && x.port == y.port
    ensures x == y && x.port != vfpPort
    ensures
      var s := Run(vfpPort, events);
      && (forall a, b :: LinkHolds(s, a, x) && LinkHolds(s, b, x) ==> a == b)
      && (forall a :: LinkHolds(s, a, x) ==> !ProbeHolds(s, x.id, x))
  {
    RunKeeps(vfpPort, events);
  }

  /** A port stays leased while its Link resource exists, whatever probes are closed late and however often its deletion
      fails; and every lease has a holder that can still give it back. */
  lemma PortsAreConserved(vfpPort: int, events: seq<Event>)
    ensures
      var s := Run(vfpPort, events);
      && (forall a | a in s.resources && s.resources[a].lease.Some? :: Leased(s, s.resources[a].lease.value))
      && (forall p | p in s.leases :: HeldBySome(s, Lease(p, s.leases[p])))
  {
    RunKeeps(vfpPort, events);
  }

  /** One more event lets a Link's port go only if it is that Link's own deletion, and it succeeded. */
  lemma OnlyRemovalFrees(vfpPort: int, events: seq<Event>, e: Event, alias: Alias)
    requires alias in Run(vfpPort, events).resources && Run(vfpPort, events).resources[alias].lease.Some?
    ensures
      var s := Run(vfpPort, events);
      var lease := s.resources[alias].lease.value;
      Leased(Run(vfpPort, events + [e]), lease)
      <==> !((e.Removed? || (e.Retry? && s.resources[alias].cleanup)) && e.alias == alias && e.ok)
  {
    var s := Run(vfpPort, events);
    assert (events + [e])[..|events|] == events;
    RunKeeps(vfpPort, events);
    StepKeeps(vfpPort, s, e);
    var next := Step(vfpPort, s, e);
    assert Run(vfpPort, events + [e]) == next;
    if (e.Removed? || (e.Retry? && s.resources[alias].cleanup)) && e.alias == alias && e.ok {
      assert Leased(s, s.resources[alias].lease.value);
    } else {
      assert alias in next.resources && next.resources[alias].lease == s.resources[alias].lease;
    }
  }
}
