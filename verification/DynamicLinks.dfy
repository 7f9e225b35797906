/** The per-peer attempts of one node that upgrades routed paths to direct Links: proposing, arbitration of crossing
    proposals, deferred cleanup and reuse of a reserved interface (internal/runtime/dynamic_negotiation.go,
    dynamic_engine.go and dynamic_lifecycle.go). */
module DynamicLinks {
  import opened Common
  import opened Net

  type Uuid = nat
  type OperationId = nat
  type SessionId = nat

  const MAX_DYNAMIC_LINKS: nat := 128

  /** One generation of the interface to a peer: the kernel carries the owner, the name depends on the peer alone. */
  datatype Alias = Alias(remote: Uuid, generation: OperationId)

  /** What one end tells the other so that it can be probed; key 0 is a missing probe key. */
  datatype Offer = Offer(endpoint: Endpoint, key: nat, publicKey: nat)

  datatype State = Preparing | Proposing | Probing | Attempting | Up | Recovering

  /** `plan` is the interface this attempt has reserved, `peer` the remote offer once configured. */
  datatype Attempt = Attempt(
    remote: Uuid,
    operation: OperationId,
    localProposal: bool,
    session: SessionId,
    state: State,
    plan: Option<Alias>,
    offer: Option<Offer>,
    peer: Option<Offer>)

  /** `resources` is what the Link manager owns, true when its removal failed and must be retried; `kernel` is the
      interface that exists under each peer's name. */
  datatype Engine = Engine(
    attempts: map<Uuid, Attempt>,
    pending: map<Uuid, Alias>,
    resources: map<Alias, bool>,
    kernel: map<Uuid, Alias>,
    closed: set<SessionId>)

  datatype Message =
    | Propose(operation: OperationId, offer: Offer)
    | Accept(operation: OperationId, offer: Offer)
    | Decline(operation: OperationId)

  /** How far preparing an attempt gets; a failed interface may or may not be left behind. */
  datatype Preparation = Prepared | NoBaseline | NoSocket | LinkFailed(left: bool) | NoCandidate

  /** What the rest of the node answers during one step. */
  datatype Env = Env(
    stopped: bool,
    active: bool,
    allowsInbound: bool,
    peerDenies: bool,
    durable: bool,
    directLink: bool,
    hasEvidence: bool,
    candidateAllowed: bool,
    preparation: Preparation,
    offer: Offer,
    removeOk: bool,
    sendOk: bool)

  const EMPTY := Engine(map[], map[], map[], map[], {})

  // ---------------------------------------------------------------- interfaces

  function ResourceCount(e: Engine): nat {
    |e.attempts| + |e.pending| + |set a | a in e.resources && e.resources[a]|
  }

  /** removeInterface: deletes the interface only if this generation owns it; a failure is left for a retry. */
  function Remove(e: Engine, plan: Alias, ok: bool): Engine {
    if ok && (plan.remote in e.kernel ==> e.kernel[plan.remote] == plan) then
      e.(kernel := e.kernel - {plan.remote}, resources := e.resources - {plan})
    else if plan in e.resources then e.(resources := e.resources[plan := true])
    else e
  }

  function RemoveAny(e: Engine, plan: Option<Alias>, ok: bool): Engine {
    if plan.Some? then Remove(e, plan.value, ok) else e
  }

  /** discard the attempt and say which interface it leaves behind. */
  function Fallback(e: Engine, remote: Uuid): (Engine, Option<Alias>)
    requires remote in e.attempts
  {
    var a := e.attempts[remote];
    (e.(attempts := e.attempts - {remote},
        closed := if a.localProposal then e.closed + {a.session} else e.closed), a.plan)
  }

  function FallbackAndRemove(e: Engine, remote: Uuid, ok: bool): Engine
    requires remote in e.attempts
  {
    var (dropped, plan) := Fallback(e, remote);
    RemoveAny(dropped, plan, ok)
  }

  // ---------------------------------------------------------------- preparing and configuring

  function With(e: Engine, remote: Uuid, a: Attempt): Engine {
    e.(attempts := e.attempts[remote := a])
  }

  /** Reserves a socket and an interface, or takes over the reserved one; on failure the attempt stays for Fallback. */
  function PrepareAttempt(e: Engine, session: SessionId, remote: Uuid, operation: OperationId, local: bool,
    reserved: Option<Alias>, env: Env): (Engine, bool)
  {
    var a := Attempt(remote, operation, local, session, Preparing, reserved, None, None);
    if env.preparation.NoBaseline? || env.preparation.NoSocket? then (With(e, remote, a), false)
    else
      var (made, ok) := if reserved.Some? then (With(e, remote, a), true)
                        else MakeInterface(With(e, remote, a), a.(plan := Some(Alias(remote, operation))), env);
      if !ok || env.preparation.NoCandidate? then (made, false)
      else (With(made, remote, made.attempts[remote].(offer := Some(env.offer))), true)
  }

  /** Owned before the kernel is asked; a name held by another generation cannot be taken. */
  function MakeInterface(e: Engine, a: Attempt, env: Env): (Engine, bool)
    requires a.plan.Some? && a.remote in e.attempts
  {
    var plan := a.plan.value;
    var owned := With(e, a.remote, a).(resources := e.resources[plan := false]);
    if a.remote in e.kernel && e.kernel[a.remote] != plan then (owned, false)
    else if env.preparation.LinkFailed? then
      (if env.preparation.left then owned.(kernel := owned.kernel[a.remote := plan])
       else owned.(kernel := owned.kernel - {a.remote}), false)
    else (owned.(kernel := owned.kernel[a.remote := plan]), true)
  }

  function Configure(e: Engine, remote: Uuid, value: Offer, env: Env): (Engine, bool)
    requires remote in e.attempts
  {
    if !env.candidateAllowed || value.key == 0 || value.publicKey == env.offer.publicKey then (e, false)
    else (With(e, remote, e.attempts[remote].(peer := Some(value), state := Probing)), true)
  }

  // ---------------------------------------------------------------- messages

  /** startOutbound on a session this node opened. */
  function Outbound(e: Engine, session: SessionId, remote: Uuid, operation: OperationId,
      env: Env): (Engine, Option<Message>)
  {
    if env.stopped then (e, None)
    else if !env.active || env.peerDenies || env.durable || env.directLink || remote in e.attempts
            || ResourceCount(e) >= MAX_DYNAMIC_LINKS || !env.hasEvidence then
      (e.(closed := e.closed + {session}), None)
    else
      var (prepared, ok) := PrepareAttempt(e, session, remote, operation, true, None, env);
      if !ok then (FallbackAndRemove(prepared, remote, env.removeOk), None)
      else
        var proposing := With(prepared, remote, prepared.attempts[remote].(state := Proposing));
        if !env.sendOk then (FallbackAndRemove(proposing, remote, env.removeOk), None)
        else (proposing, Some(Propose(operation, env.offer)))
  }

  predicate Admits(e: Engine, remote: Uuid, env: Env) {
    && !env.stopped && env.allowsInbound && !env.durable && env.candidateAllowed && !env.directLink && env.hasEvidence
    && (remote in e.attempts || remote in e.pending || ResourceCount(e) < MAX_DYNAMIC_LINKS)
  }

  /** Only a fresh and complete proposal replaces a Link that is recovering. */
  predicate Replaces(a: Attempt, operation: OperationId, value: Offer, env: Env) {
    operation != a.operation && value.key != 0 && value.publicKey != env.offer.publicKey
  }

  /** The state in which an admitted proposal may be prepared, with the interface it takes over; None declines. */
  function MakeRoom(own: Uuid, e: Engine, session: SessionId, remote: Uuid, operation: OperationId, value: Offer,
      env: Env)
    : (Engine, Option<Option<Alias>>)
  {
    if remote in e.attempts && e.attempts[remote].state.Recovering? then
      var a := e.attempts[remote];
      if !Replaces(a, operation, value, env) then (e, None)
      else
        var removed := RemoveAny(e.(attempts := e.attempts - {remote}), a.plan, env.removeOk);
        if a.plan.Some? && a.plan.value in removed.resources then (removed, None)
        else (removed, Some(Reserved(removed, remote)))
    else if remote in e.attempts then
      var a := e.attempts[remote];
      if !a.state.Proposing? || !a.localProposal || own < remote then (e, None)
      else
        var freed := e.(attempts := e.attempts - {remote},
                        closed := if a.session != session then e.closed + {a.session} else e.closed);
        (freed, Some(if a.plan.Some? then a.plan else Reserved(freed, remote)))
    else
      (e, Some(Reserved(e, remote)))
  }

  function Reserved(e: Engine, remote: Uuid): Option<Alias> {
    if remote in e.pending then Some(e.pending[remote]) else None
  }

  function Inbound(own: Uuid, e: Engine, session: SessionId, remote: Uuid, operation: OperationId, value: Offer,
      env: Env)
    : (Engine, Option<Message>)
  {
    var (e1, accepted) := PrepareInbound(own, e, session, remote, operation, value, env);
    if !accepted then (e1, if env.sendOk then Some(Decline(operation)) else None)
    else if !env.sendOk then (FallbackAndRemove(e1, remote, env.removeOk), None)
    else (e1, Some(Accept(operation, env.offer)))
  }

  function PrepareInbound(own: Uuid, e: Engine, session: SessionId, remote: Uuid, operation: OperationId, value: Offer,
      env: Env)
    : (r: (Engine, bool))
    ensures r.1 ==> remote in r.0.attempts
  {
    if !Admits(e, remote, env) then (e, false)
    else
      var (room, reserved) := MakeRoom(own, e, session, remote, operation, value, env);
      if reserved.None? then (room, false)
      else
        Enter(room.(pending := room.pending - {remote}), session, remote, operation, reserved.value, value, env)
  }

  /** Prepare and configure the attempt that answers a proposal. */
  function Enter(e: Engine, session: SessionId, remote: Uuid, operation: OperationId, reserved: Option<Alias>,
      value: Offer,
    env: Env): (r: (Engine, bool))
    ensures r.1 ==> remote in r.0.attempts
  {
    var (prepared, ok) := PrepareAttempt(e, session, remote, operation, false, reserved, env);
    if !ok then (FallbackAndRemove(prepared, remote, env.removeOk), false)
    else
      var (configured, good) := Configure(prepared, remote, value, env);
      if good then (configured, true) else (FallbackAndRemove(prepared, remote, env.removeOk), false)
  }

  predicate AwaitsAnswer(e: Engine, session: SessionId, remote: Uuid, operation: OperationId) {
    && remote in e.attempts && e.attempts[remote].session == session
    && e.attempts[remote].operation == operation && e.attempts[remote].state.Proposing?
  }

  function OnAccept(e: Engine, session: SessionId, remote: Uuid, operation: OperationId, value: Offer,
      env: Env): Engine
  {
    if !AwaitsAnswer(e, session, remote, operation) then e
    else
      var (configured, good) := Configure(e, remote, value, env);
      if good then configured else FallbackAndRemove(e, remote, env.removeOk)
  }

  /** The interface outlives a declined proposal for a while, for a crossing winner to reuse. */
  function OnDecline(e: Engine, session: SessionId, remote: Uuid, operation: OperationId): Engine {
    if !AwaitsAnswer(e, session, remote, operation) then e
    else
      var (dropped, plan) := Fallback(e, remote);
      if plan.None? then dropped else dropped.(pending := dropped.pending[remote := plan.value])
  }

  // ---------------------------------------------------------------- time, loss and completion

  /** The deferred cleanup of this plan fires; a cancelled or replaced one does nothing. */
  function CleanupDue(e: Engine, remote: Uuid, plan: Alias, ok: bool): Engine {
    if remote !in e.pending || e.pending[remote] != plan then e
    else
      var due := e.(pending := e.pending - {remote});
      if remote in due.attempts && due.attempts[remote].plan.Some? then due else Remove(due, plan, ok)
  }

  /** failAttempt for the attempt of this operation, if it is current and in an allowed state. */
  function Fail(e: Engine, remote: Uuid, operation: OperationId, allowed: set<State>, ok: bool): Engine {
    if remote in e.attempts && e.attempts[remote].operation == operation && e.attempts[remote].state in allowed
    then FallbackAndRemove(e, remote, ok) else e
  }

  function SessionClosed(e: Engine, session: SessionId, remote: Uuid, ok: bool): Engine {
    if remote in e.attempts && e.attempts[remote].session == session
       && (e.attempts[remote].state.Proposing? || e.attempts[remote].state.Probing?)
    then FallbackAndRemove(e, remote, ok) else e
  }

  /** Probing found a path: the attempt moves on to its WireGuard handshake. */
  function HandedOff(e: Engine, remote: Uuid, operation: OperationId): Engine {
    if remote in e.attempts && e.attempts[remote].operation == operation && e.attempts[remote].state.Probing?
    then With(e, remote, e.attempts[remote].(state := Attempting)) else e
  }

  function Commit(e: Engine, remote: Uuid, operation: OperationId, failed: bool, ok: bool): Engine {
    if remote !in e.attempts || e.attempts[remote].operation != operation
       || !(e.attempts[remote].state.Attempting? || e.attempts[remote].state.Recovering?) then e
    else if failed then FallbackAndRemove(e, remote, ok)
    else
      var a := e.attempts[remote];
      With(e, remote, a.(state := Up)).(closed := if a.localProposal then e.closed + {a.session} else e.closed)
  }

  function PongLost(e: Engine, remote: Uuid, operation: OperationId): Engine {
    if remote in e.attempts && e.attempts[remote].operation == operation && e.attempts[remote].state.Up?
    then With(e, remote, e.attempts[remote].(state := Recovering)) else e
  }

  function Retry(e: Engine, plan: Alias, ok: bool): Engine {
    if plan in e.resources && e.resources[plan] then Remove(e, plan, ok) else e
  }

  // ---------------------------------------------------------------- the object

  class DynamicLinkEngine {
    const own: Uuid
    var attempts: map<Uuid, Attempt>
    var pending: map<Uuid, Alias>
    var resources: map<Alias, bool>
    var kernel: map<Uuid, Alias>
    var closed: set<SessionId>

    constructor (own: Uuid)
      ensures this.own == own && Value() == EMPTY
    {
      this.own := own;
      attempts, pending, resources, kernel, closed := map[], map[], map[], map[], {};
    }

    function Value(): Engine
      reads this
    {
      Engine(attempts, pending, resources, kernel, closed)
    }

    method CountResources() returns (count: nat)
      ensures count == ResourceCount(Value())
    {
      count := |attempts| + |pending|;
      var left := resources.Keys;
      ghost var flagged: set<Alias> := {};
      while left != {}
        invariant left <= resources.Keys && flagged <= resources.Keys && left !! flagged
        invariant count == |attempts| + |pending| + |flagged|
        invariant forall a :: a in resources && a !in left ==> (a in flagged <==> resources[a])
        decreases |left|
      {
        var a :| a in left;
        left := left - {a};
        if resources[a] {
          count, flagged := count + 1, flagged + {a};
        }
      }
      assert flagged == set a | a in resources && resources[a];
    }

    method RemoveInterface(plan: Option<Alias>, ok: bool)
      modifies this`kernel, this`resources
      ensures Value() == RemoveAny(old(Value()), plan, ok)
    {
      if plan.None? {
        return;
      }
      var p := plan.value;
      if ok && !(p.remote in kernel && kernel[p.remote] != p) {
        kernel, resources := kernel - {p.remote}, resources - {p};
      } else if p in resources {
        resources := resources[p := true];
      }
    }

    method Discard(remote: Uuid) returns (plan: Option<Alias>)
      requires remote in attempts
      modifies this`attempts, this`closed
      ensures (Value(), plan) == Fallback(old(Value()), remote)
    {
      var a := attempts[remote];
      attempts := attempts - {remote};
      if a.localProposal {
        closed := closed + {a.session};
      }
      return a.plan;
    }

    method DiscardAndRemove(remote: Uuid, ok: bool)
      requires remote in attempts
      modifies this`attempts, this`closed, this`kernel, this`resources
      ensures Value() == FallbackAndRemove(old(Value()), remote, ok)
    {
      var plan := Discard(remote);
      RemoveInterface(plan, ok);
    }

    method Prepare(session: SessionId, remote: Uuid, operation: OperationId, local: bool, reserved: Option<Alias>,
        env: Env)
      returns (ok: bool)
      modifies this`attempts, this`kernel, this`resources
      ensures (Value(), ok) == PrepareAttempt(old(Value()), session, remote, operation, local, reserved, env)
      ensures remote in attempts
    {
      var a := Attempt(remote, operation, local, session, Preparing, reserved, None, None);
      attempts := attempts[remote := a];
      if env.preparation.NoBaseline? || env.preparation.NoSocket? {
        return false;
      }
      if reserved.None? {
        var plan := Alias(remote, operation);
        a := a.(plan := Some(plan));
        attempts, resources := attempts[remote := a], resources[plan := false];
        if remote in kernel && kernel[remote] != plan {
          return false;
        }
        if env.preparation.LinkFailed? {
          kernel := if env.preparation.left then kernel[remote := plan] else kernel - {remote};
          return false;
        }
        kernel := kernel[remote := plan];
      }
      if env.preparation.NoCandidate? {
        return false;
      }
      attempts := attempts[remote := a.(offer := Some(env.offer))];
      return true;
    }

    method ConfigureAttempt(remote: Uuid, value: Offer, env: Env) returns (ok: bool)
      requires remote in attempts
      modifies this`attempts
      ensures (Value(), ok) == Configure(old(Value()), remote, value, env)
      ensures remote in attempts
    {
      if !env.candidateAllowed || value.key == 0 || value.publicKey == env.offer.publicKey {
        return false;
      }
      attempts := attempts[remote := attempts[remote].(peer := Some(value), state := Probing)];
      return true;
    }

    method StartOutbound(session: SessionId, remote: Uuid, operation: OperationId, env: Env)
      returns (out: Option<Message>)
      modifies this
      ensures (Value(), out) == Outbound(old(Value()), session, remote, operation, env)
    {
      if env.stopped {
        return None;
      }
      var count := CountResources();
      if !env.active || env.peerDenies || env.durable || env.directLink || remote in attempts
         || count >= MAX_DYNAMIC_LINKS || !env.hasEvidence {
        closed := closed + {session};
        return None;
      }
      var ok := Prepare(session, remote, operation, true, None, env);
      if !ok {
        DiscardAndRemove(remote, env.removeOk);
        return None;
      }
      attempts := attempts[remote := attempts[remote].(state := Proposing)];
      if !env.sendOk {
        DiscardAndRemove(remote, env.removeOk);
        return None;
      }
      return Some(Propose(operation, env.offer));
    }

    method HandleProposal(session: SessionId, remote: Uuid, operation: OperationId, value: Offer, env: Env)
      returns (out: Option<Message>)
      modifies this
      ensures (Value(), out) == Inbound(own, old(Value()), session, remote, operation, value, env)
    {
      var accepted := AdmitInbound(session, remote, operation, value, env);
      if !accepted {
        return if env.sendOk then Some(Decline(operation)) else None;
      }
      if !env.sendOk {
        DiscardAndRemove(remote, env.removeOk);
        return None;
      }
      return Some(Accept(operation, env.offer));
    }

    method AdmitInbound(session: SessionId, remote: Uuid, operation: OperationId, value: Offer, env: Env)
      returns (accepted: bool)
      modifies this
      ensures (Value(), accepted) == PrepareInbound(own, old(Value()), session, remote, operation, value, env)
      ensures accepted ==> remote in attempts
    {
      if env.stopped || !env.allowsInbound || env.durable || !env.candidateAllowed || env.directLink {
        return false;
      }
      var count := CountResources();
      if (remote !in attempts && remote !in pending && count >= MAX_DYNAMIC_LINKS) || !env.hasEvidence {
        return false;
      }
      var room := ClearTheWay(session, remote, operation, value, env);
      if room.None? {
        return false;
      }
      pending := pending - {remote};
      var ok := Prepare(session, remote, operation, false, room.value, env);
      if ok {
        ok := ConfigureAttempt(remote, value, env);
      }
      if !ok {
        DiscardAndRemove(remote, env.removeOk);
      }
      return ok;
    }

    method ClearTheWay(session: SessionId, remote: Uuid, operation: OperationId, value: Offer, env: Env)
      returns (room: Option<Option<Alias>>)
      modifies this
      ensures (Value(), room) == MakeRoom(own, old(Value()), session, remote, operation, value, env)
    {
      if remote in attempts && attempts[remote].state.Recovering? {
        var a := attempts[remote];
        if !Replaces(a, operation, value, env) {
          return None;
        }
        attempts := attempts - {remote};
        RemoveInterface(a.plan, env.removeOk);
        if a.plan.Some? && a.plan.value in resources {
          return None;
        }
      } else if remote in attempts {
        var a := attempts[remote];
        if !a.state.Proposing? || !a.localProposal || own < remote {
          return None;
        }
        attempts := attempts - {remote};
        if a.session != session {
          closed := closed + {a.session};
        }
        if a.plan.Some? {
          return Some(a.plan);
        }
      }
      return Some(if remote in pending then Some(pending[remote]) else None);
    }

    method HandleAccept(session: SessionId, remote: Uuid, operation: OperationId, value: Offer, env: Env)
      modifies this
      ensures Value() == OnAccept(old(Value()), session, remote, operation, value, env)
    {
      if !AwaitsAnswer(Value(), session, remote, operation) {
        return;
      }
      var ok := ConfigureAttempt(remote, value, env);
      if !ok {
        DiscardAndRemove(remote, env.removeOk);
      }
    }

    method HandleDecline(session: SessionId, remote: Uuid, operation: OperationId)
      modifies this
      ensures Value() == OnDecline(old(Value()), session, remote, operation)
    {
      if !AwaitsAnswer(Value(), session, remote, operation) {
        return;
      }
      var plan := Discard(remote);
      if plan.Some? {
        pending := pending[remote := plan.value];
      }
    }

    method CleanupTimer(remote: Uuid, plan: Alias, ok: bool)
      modifies this
      ensures Value() == CleanupDue(old(Value()), remote, plan, ok)
    {
      if remote !in pending || pending[remote] != plan {
        return;
      }
      pending := pending - {remote};
      if remote in attempts && attempts[remote].plan.Some? {
        return;
      }
      RemoveInterface(Some(plan), ok);
    }

    method FailAttempt(remote: Uuid, operation: OperationId, allowed: set<State>, ok: bool)
      modifies this
      ensures Value() == Fail(old(Value()), remote, operation, allowed, ok)
    {
      if remote in attempts && attempts[remote].operation == operation && attempts[remote].state in allowed {
        DiscardAndRemove(remote, ok);
      }
    }
  }
}
