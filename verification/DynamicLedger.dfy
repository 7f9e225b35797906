/** Interfaces are conserved: in every run of one node, with any peers, timeouts, losses and failures, each interface it
    has made is held by the current attempt of its peer, by a pending cleanup, or marked for another removal. */
module DynamicLedger {
  import opened Common
  import opened Net
  import opened DynamicLinks

  datatype Event =
    | Proposed(session: SessionId, remote: Uuid, operation: OperationId, env: Env)
    | GotProposal(session: SessionId, remote: Uuid, operation: OperationId, offer: Offer, env: Env)
    | GotAccept(session: SessionId, remote: Uuid, operation: OperationId, offer: Offer, env: Env)
    | GotDecline(session: SessionId, remote: Uuid, operation: OperationId)
    | Cleanup(remote: Uuid, plan: Alias, removeOk: bool)
    | Failing(remote: Uuid, operation: OperationId, allowed: set<State>, removeOk: bool)
    | Closed(session: SessionId, remote: Uuid, removeOk: bool)
    | Handoff(remote: Uuid, operation: OperationId)
    | Committing(remote: Uuid, operation: OperationId, failed: bool, removeOk: bool)
    | Losing(remote: Uuid, operation: OperationId)
    | Retrying(plan: Alias, removeOk: bool)

  /** A node opens no session to a peer whose cleanup is pending (dynamic_discovery.go, reserveDial). */
  function Step(own: Uuid, e: Engine, v: Event): Engine {
    match v
    case Proposed(session, remote, operation, env) =>
      if remote in e.pending then e else Outbound(e, session, remote, operation, env).0
    case GotProposal(session, remote, operation, offer, env) =>
        Inbound(own, e, session, remote, operation, offer, env).0
    case GotAccept(session, remote, operation, offer, env) => OnAccept(e, session, remote, operation, offer, env)
    case GotDecline(session, remote, operation) => OnDecline(e, session, remote, operation)
    case Cleanup(remote, plan, ok) => CleanupDue(e, remote, plan, ok)
    case Failing(remote, operation, allowed, ok) => Fail(e, remote, operation, allowed, ok)
    case Closed(session, remote, ok) => SessionClosed(e, session, remote, ok)
    case Handoff(remote, operation) => HandedOff(e, remote, operation)
    case Committing(remote, operation, failed, ok) => Commit(e, remote, operation, failed, ok)
    case Losing(remote, operation) => PongLost(e, remote, operation)
    case Retrying(plan, ok) => Retry(e, plan, ok)
  }

  function Run(own: Uuid, events: seq<Event>): Engine {
    if events == [] then EMPTY else Step(own, Run(own, events[..|events| - 1]), events[|events| - 1])
  }

  // ---------------------------------------------------------------- the ledger

  /** Owned by the Link manager and not marked for removal. */
  predicate Live(e: Engine, a: Alias) {
    a in e.resources && !e.resources[a]
  }

  predicate Held(e: Engine, a: Alias) {
    || (a.remote in e.attempts && e.attempts[a.remote].plan == Some(a))
    || (a.remote in e.pending && e.pending[a.remote] == a)
  }

  /** Everything is accounted for except, perhaps, one interface that the current step has in hand. */
  predicate Balanced(e: Engine, inHand: Option<Alias>) {
    && (forall r | r in e.attempts && e.attempts[r].plan.Some? ::
          e.attempts[r].plan.value.remote == r && Live(e, e.attempts[r].plan.value))
    && (forall r | r in e.pending :: r !in e.attempts && e.pending[r].remote == r && Live(e, e.pending[r]))
    && (forall a | a in e.resources && !e.resources[a] :: Held(e, a) || inHand == Some(a))
    && (forall r | r in e.kernel :: e.kernel[r].remote == r && e.kernel[r] in e.resources)
    && (inHand.Some? ==> Live(e, inHand.value) && !Held(e, inHand.value))
  }

  predicate Ledger(e: Engine) {
    Balanced(e, None)
  }

  lemma RemoveBalances(e: Engine, plan: Option<Alias>, ok: bool)
    requires Balanced(e, plan)
    ensures Ledger(RemoveAny(e, plan, ok))
    ensures RemoveAny(e, plan, ok).attempts == e.attempts && RemoveAny(e, plan, ok).pending == e.pending
  {
  }

  lemma DropTakesInHand(e: Engine, remote: Uuid, closed: set<SessionId>)
    requires Ledger(e) && remote in e.attempts
    ensures Balanced(e.(attempts := e.attempts - {remote}, closed := closed), e.attempts[remote].plan)
  {
    var next := e.(attempts := e.attempts - {remote}, closed := closed);
    forall a | a in next.resources && !next.resources[a] ensures Held(next, a) || e.attempts[remote].plan == Some(a) {
      assert Held(e, a);
    }
  }

  lemma FallbackBalances(e: Engine, remote: Uuid, ok: bool)
    requires Ledger(e) && remote in e.attempts
    ensures Ledger(FallbackAndRemove(e, remote, ok))
  {
    var (dropped, plan) := Fallback(e, remote);
    DropTakesInHand(e, remote, dropped.closed);
    RemoveBalances(dropped, plan, ok);
  }

  lemma SameHoldings(e: Engine, next: Engine)
    requires Ledger(e) && next.pending == e.pending && next.resources == e.resources && next.kernel == e.kernel
    requires next.attempts.Keys == e.attempts.Keys
    requires forall r | r in e.attempts :: next.attempts[r].plan == e.attempts[r].plan
    ensures Ledger(next)
  {
    forall a | a in next.resources && !next.resources[a] ensures Held(next, a) {
      assert Held(e, a);
    }
  }

  lemma TakeBalances(e: Engine, remote: Uuid, a: Attempt)
    requires Balanced(e, a.plan) && remote !in e.attempts && remote !in e.pending
    requires a.plan.Some? ==> a.plan.value.remote == remote
    ensures Ledger(With(e, remote, a))
  {
    var taken := With(e, remote, a);
    forall b | b in taken.resources && !taken.resources[b] ensures Held(taken, b) {
      assert Held(e, b) || a.plan == Some(b);
    }
  }

  lemma OwnBalances(e: Engine, remote: Uuid, a: Attempt)
    requires Ledger(e) && remote in e.attempts && e.attempts[remote].plan.None? && remote !in e.pending
    requires a.plan.Some? && a.plan.value.remote == remote
    ensures Ledger(With(e, remote, a).(resources := e.resources[a.plan.value := false]))
  {
    var owned := With(e, remote, a).(resources := e.resources[a.plan.value := false]);
    forall b | b in owned.resources && !owned.resources[b] ensures Held(owned, b) {
      assert b == a.plan.value || Held(e, b);
    }
  }

  lemma KernelBalances(e: Engine, kernel: map<Uuid, Alias>)
    requires Ledger(e) && forall r | r in kernel :: kernel[r].remote == r && kernel[r] in e.resources
    ensures Ledger(e.(kernel := kernel))
  {
    var next := e.(kernel := kernel);
    forall a | a in next.resources && !next.resources[a] ensures Held(next, a) {
      assert Held(e, a);
    }
  }

  lemma MakeBalances(e: Engine, a: Attempt, env: Env)
    requires Ledger(e) && a.remote in e.attempts && e.attempts[a.remote].plan.None? && a.remote !in e.pending
    requires a.plan.Some? && a.plan.value.remote == a.remote
    ensures Ledger(MakeInterface(e, a, env).0) && a.remote in MakeInterface(e, a, env).0.attempts
  {
    var plan, next := a.plan.value, MakeInterface(e, a, env).0;
    var owned := With(e, a.remote, a).(resources := e.resources[plan := false]);
    OwnBalances(e, a.remote, a);
    forall r | r in next.kernel ensures next.kernel[r].remote == r && next.kernel[r] in owned.resources {
      assert r == a.remote || r in e.kernel;
    }
    KernelBalances(owned, next.kernel);
    assert next == owned.(kernel := next.kernel);
  }

  /** The new attempt takes what was in hand, or makes its own interface. */
  lemma PrepareBalances(e: Engine, session: SessionId, remote: Uuid, operation: OperationId, local: bool,
    reserved: Option<Alias>, env: Env)
    requires Balanced(e, reserved) && remote !in e.attempts && remote !in e.pending
    requires reserved.Some? ==> reserved.value.remote == remote
    ensures
      var (next, ok) := PrepareAttempt(e, session, remote, operation, local, reserved, env);
      remote in next.attempts && Ledger(next)
  {
    var a := Attempt(remote, operation, local, session, Preparing, reserved, None, None);
    var taken := With(e, remote, a);
    TakeBalances(e, remote, a);
    var made := taken;
    if reserved.None? {
      MakeBalances(taken, a.(plan := Some(Alias(remote, operation))), env);
      made := MakeInterface(taken, a.(plan := Some(Alias(remote, operation))), env).0;
    }
    SameHoldings(made, With(made, remote, made.attempts[remote].(offer := Some(env.offer))));
  }

  lemma OutboundBalances(e: Engine, session: SessionId, remote: Uuid, operation: OperationId, env: Env)
    requires Ledger(e) && remote !in e.pending
    ensures Ledger(Outbound(e, session, remote, operation, env).0)
  {
    if remote !in e.attempts {
      PrepareBalances(e, session, remote, operation, true, None, env);
      var (prepared, ok) := PrepareAttempt(e, session, remote, operation, true, None, env);
      FallbackBalances(prepared, remote, env.removeOk);
      if ok {
        var proposing := With(prepared, remote, prepared.attempts[remote].(state := Proposing));
        SameHoldings(prepared, proposing);
        FallbackBalances(proposing, remote, env.removeOk);
      }
    }
    SameHoldings(e, e.(closed := e.closed + {session}));
  }

  lemma RoomBalances(own: Uuid, e: Engine, session: SessionId, remote: Uuid, operation: OperationId, value: Offer,
      env: Env)
    requires Ledger(e)
    ensures
      var (room, reserved) := MakeRoom(own, e, session, remote, operation, value, env);
      match reserved
      case None => Ledger(room)
      case Some(r) =>
        && remote !in room.attempts && (r.Some? ==> r.value.remote == remote)
        && Balanced(room.(pending := room.pending - {remote}), r)
  {
    if remote in e.attempts {
      var a := e.attempts[remote];
      if a.state.Recovering? {
        var dropped := e.(attempts := e.attempts - {remote});
        DropTakesInHand(e, remote, e.closed);
        assert dropped == e.(attempts := e.attempts - {remote}, closed := e.closed);
        RemoveBalances(dropped, a.plan, env.removeOk);
      } else {
        var closed := if a.session != session then e.closed + {a.session} else e.closed;
        DropTakesInHand(e, remote, closed);
        assert remote !in e.pending;
        assert e.pending - {remote} == e.pending;
      }
    } else if remote in e.pending {
      var next := e.(pending := e.pending - {remote});
      forall b | b in next.resources && !next.resources[b] ensures Held(next, b) || Some(e.pending[remote]) == Some(b) {
        assert Held(e, b);
      }
    } else {
      assert e.pending - {remote} == e.pending;
    }
    var (room, reserved) := MakeRoom(own, e, session, remote, operation, value, env);
    if remote in e.attempts && reserved.Some? {
      assert remote !in room.pending && room.pending - {remote} == room.pending;
    }
  }

  lemma EnterBalances(e: Engine, session: SessionId, remote: Uuid, operation: OperationId, reserved: Option<Alias>,
    value: Offer, env: Env)
    requires Balanced(e, reserved) && remote !in e.attempts && remote !in e.pending
    requires reserved.Some? ==> reserved.value.remote == remote
    ensures Ledger(Enter(e, session, remote, operation, reserved, value, env).0)
  {
    PrepareBalances(e, session, remote, operation, false, reserved, env);
    var prepared := PrepareAttempt(e, session, remote, operation, false, reserved, env).0;
    FallbackBalances(prepared, remote, env.removeOk);
    SameHoldings(prepared, Configure(prepared, remote, value, env).0);
  }

  lemma AdmissionBalances(own: Uuid, e: Engine, session: SessionId, remote: Uuid, operation: OperationId, value: Offer,
      env: Env)
    requires Ledger(e)
    ensures Ledger(PrepareInbound(own, e, session, remote, operation, value, env).0)
  {
    RoomBalances(own, e, session, remote, operation, value, env);
    var (room, reserved) := MakeRoom(own, e, session, remote, operation, value, env);
    if reserved.Some? {
      EnterBalances(room.(pending := room.pending - {remote}), session, remote, operation, reserved.value, value, env);
    }
  }

  lemma InboundBalances(own: Uuid, e: Engine, session: SessionId, remote: Uuid, operation: OperationId, value: Offer,
      env: Env)
    requires Ledger(e)
    ensures Ledger(Inbound(own, e, session, remote, operation, value, env).0)
  {
    AdmissionBalances(own, e, session, remote, operation, value, env);
    var (next, accepted) := PrepareInbound(own, e, session, remote, operation, value, env);
    if accepted {
      FallbackBalances(next, remote, env.removeOk);
    }
  }

  lemma DeclineBalances(e: Engine, session: SessionId, remote: Uuid, operation: OperationId)
    requires Ledger(e)
    ensures Ledger(OnDecline(e, session, remote, operation))
  {
    if AwaitsAnswer(e, session, remote, operation) {
      var (dropped, plan) := Fallback(e, remote);
      DropTakesInHand(e, remote, dropped.closed);
      if plan.Some? {
        var kept := dropped.(pending := dropped.pending[remote := plan.value]);
        forall b | b in kept.resources && !kept.resources[b] ensures Held(kept, b) {
          assert Held(dropped, b) || plan == Some(b);
          assert remote in dropped.pending ==> false by {
            assert remote in e.attempts;
          }
        }
      }
    }
  }

  lemma CleanupBalances(e: Engine, remote: Uuid, plan: Alias, ok: bool)
    requires Ledger(e)
    ensures Ledger(CleanupDue(e, remote, plan, ok))
  {
    if remote in e.pending && e.pending[remote] == plan {
      var due := e.(pending := e.pending - {remote});
      forall b | b in due.resources && !due.resources[b] ensures Held(due, b) || Some(plan) == Some(b) {
        assert Held(e, b);
      }
      RemoveBalances(due, Some(plan), ok);
    }
  }

  lemma RetryBalances(e: Engine, plan: Alias, ok: bool)
    requires Ledger(e)
    ensures Ledger(Retry(e, plan, ok))
  {
    var next := Retry(e, plan, ok);
    forall b | b in next.resources && !next.resources[b] ensures Held(next, b) {
      assert Held(e, b);
    }
  }

  lemma AcceptBalances(e: Engine, session: SessionId, remote: Uuid, operation: OperationId, value: Offer, env: Env)
    requires Ledger(e)
    ensures Ledger(OnAccept(e, session, remote, operation, value, env))
  {
    if AwaitsAnswer(e, session, remote, operation) {
      FallbackBalances(e, remote, env.removeOk);
      SameHoldings(e, Configure(e, remote, value, env).0);
    }
  }

  lemma CommitBalances(e: Engine, remote: Uuid, operation: OperationId, failed: bool, ok: bool)
    requires Ledger(e)
    ensures Ledger(Commit(e, remote, operation, failed, ok))
  {
    if remote in e.attempts {
      FallbackBalances(e, remote, ok);
      var a := e.attempts[remote];
      SameHoldings(e, With(e, remote,
                           a.(state := Up)).(closed := if a.localProposal then e.closed + {a.session} else e.closed));
    }
  }

  lemma StepBalances(own: Uuid, e: Engine, v: Event)
    requires Ledger(e)
    ensures Ledger(Step(own, e, v))
  {
    match v {
      case Proposed(session, remote, operation, env) =>
        if remote !in e.pending {
          OutboundBalances(e, session, remote, operation, env);
        }
      case GotProposal(session, remote, operation, offer, env) =>
          InboundBalances(own, e, session, remote, operation, offer, env);
      case GotAccept(session, remote, operation, offer, env) =>
          AcceptBalances(e, session, remote, operation, offer, env);
      case GotDecline(session, remote, operation) => DeclineBalances(e, session, remote, operation);
      case Cleanup(remote, plan, ok) => CleanupBalances(e, remote, plan, ok);
      case Failing(remote, _, _, ok) =>
        if remote in e.attempts {
          FallbackBalances(e, remote, ok);
        }
      case Closed(_, remote, ok) =>
        if remote in e.attempts {
          FallbackBalances(e, remote, ok);
        }
      case Handoff(remote, operation) => SameHoldings(e, HandedOff(e, remote, operation));
      case Committing(remote, operation, failed, ok) => CommitBalances(e, remote, operation, failed, ok);
      case Losing(remote, operation) => SameHoldings(e, PongLost(e, remote, operation));
      case Retrying(plan, ok) => RetryBalances(e, plan, ok);
    }
  }

  lemma {:induction false} RunBalances(own: Uuid, events: seq<Event>)
    ensures Ledger(Run(own, events))
  {
    if events != [] {
      RunBalances(own, events[..|events| - 1]);
      StepBalances(own, Run(own, events[..|events| - 1]), events[|events| - 1]);
    }
  }

  /** No interface leaks and none is held twice: what exists in the kernel is owned by the Link manager, and each owned
      generation is marked for another removal, or held by exactly one of its peer's attempt and its pending cleanup. */
  lemma InterfacesAreConserved(own: Uuid, events: seq<Event>, a: Alias)
    requires a in Run(own, events).resources
        || (a.remote in Run(own, events).kernel && Run(own, events).kernel[a.remote] == a)
    ensures
      var e := Run(own, events);
      var byAttempt := a.remote in e.attempts && e.attempts[a.remote].plan == Some(a);
      var byCleanup := a.remote in e.pending && e.pending[a.remote] == a;
      && a in e.resources
      && (e.resources[a] <==> !byAttempt && !byCleanup)
      && !(byAttempt && byCleanup)
  {
    RunBalances(own, events);
  }

  /** A retried removal never touches an interface that an attempt or a pending cleanup holds. */
  lemma RetrySparesHeld(own: Uuid, events: seq<Event>, plan: Alias, ok: bool, r: Uuid)
    requires r in Run(own, events).attempts && Run(own, events).attempts[r].plan.Some?
    ensures
      var e := Run(own, events);
      var next := Retry(e, plan, ok);
      && r in next.attempts && next.attempts[r] == e.attempts[r]
      && Live(next, e.attempts[r].plan.value)
      && (r in e.kernel && e.kernel[r] == e.attempts[r].plan.value ==>
          r in next.kernel && next.kernel[r] == e.kernel[r])
  {
    RunBalances(own, events);
  }
}
