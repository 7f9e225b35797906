/** Two nodes that propose a direct Link to each other at the same time settle on the smaller UUID's proposal in every
    delivery order, and the larger one puts the interface it had reserved under it. */
module DynamicCrossing {
  import opened Common
  import opened Net
  import opened DynamicLinks

  datatype Side = Small | Large

  /** Each node may open one session of its own and propose on it; keys are the nodes' WireGuard public keys. */
  datatype Setup = Setup(
    small: Uuid, large: Uuid,
    smallOperation: OperationId, largeOperation: OperationId,
    smallSession: SessionId, largeSession: SessionId,
    smallKey: nat, largeKey: nat)

  /** `out` is what the node that opened the session has sent on it, `back` what the other has. */
  datatype Channel = Channel(out: seq<Message>, back: seq<Message>)

  datatype Pair = Pair(s: Engine, l: Engine, onS: Channel, onL: Channel, sentS: bool, sentL: bool)

  /** Lose drops a message of a session that its opener has closed, Notice is that closing seen by either node. */
  datatype Event =
    | Start(side: Side, env: Env)
    | Deliver(session: Side, reader: Side, env: Env)
    | Lose(session: Side, reader: Side)
    | Notice(node: Side, session: Side, removeOk: bool)

  const START := Pair(EMPTY, EMPTY, Channel([], []), Channel([], []), false, false)

  predicate Distinct(u: Setup) {
    u.small < u.large && u.smallOperation != u.largeOperation && u.smallSession != u.largeSession
        && u.smallKey != u.largeKey
  }

  function KeyOf(u: Setup, side: Side): nat {
    if side.Small? then u.smallKey else u.largeKey
  }

  /** No refusal, failure or timeout. */
  predicate Good(u: Setup, side: Side, env: Env) {
    && !env.stopped && env.active && env.allowsInbound && !env.peerDenies && !env.durable && !env.directLink
    && env.hasEvidence && env.candidateAllowed && env.preparation.Prepared? && env.sendOk
    && OfferFrom(u, side, env.offer)
  }

  predicate OfferFrom(u: Setup, side: Side, o: Offer) {
    o.key != 0 && o.publicKey == KeyOf(u, side)
  }

  function Waiting(p: Pair, session: Side, reader: Side): seq<Message> {
    var c := if session.Small? then p.onS else p.onL;
    if reader == session then c.back else c.out
  }

  function WithChannel(p: Pair, session: Side, c: Channel): Pair {
    if session.Small? then p.(onS := c) else p.(onL := c)
  }

  function Took(p: Pair, session: Side, reader: Side, answer: seq<Message>): Pair
    requires Waiting(p, session, reader) != []
  {
    var c := if session.Small? then p.onS else p.onL;
    WithChannel(p, session, if reader == session then Channel(c.out + answer, c.back[1..])
                else Channel(c.out[1..], c.back + answer))
  }

  function SessionOf(u: Setup, session: Side): SessionId {
    if session.Small? then u.smallSession else u.largeSession
  }

  function Handle(own: Uuid, remote: Uuid, e: Engine, session: SessionId, m: Message,
      env: Env): (Engine, seq<Message>)
  {
    match m
    case Propose(operation, offer) =>
      var (next, answer) := Inbound(own, e, session, remote, operation, offer, env);
      (next, if answer.Some? then [answer.value] else [])
    case Accept(operation, offer) => (OnAccept(e, session, remote, operation, offer, env), [])
    case Decline(operation) => (OnDecline(e, session, remote, operation), [])
  }

  function Step(u: Setup, p: Pair, v: Event): Pair {
    match v
    case Start(Small, env) =>
      if p.sentS || u.large in p.s.pending then p
      else
        var (next, first) := Outbound(p.s, u.smallSession, u.large, u.smallOperation, env);
        p.(s := next, onS := if first.Some? then Channel([first.value], []) else p.onS, sentS := first.Some?)
    case Start(Large, env) =>
      if p.sentL || u.small in p.l.pending then p
      else
        var (next, first) := Outbound(p.l, u.largeSession, u.small, u.largeOperation, env);
        p.(l := next, onL := if first.Some? then Channel([first.value], []) else p.onL, sentL := first.Some?)
    case Deliver(session, reader, env) =>
      var inbox := Waiting(p, session, reader);
      if inbox == [] then p
      else if reader.Small? then
        var (next, answer) := Handle(u.small, u.large, p.s, SessionOf(u, session), inbox[0], env);
        Took(p.(s := next), session, reader, answer)
      else
        var (next, answer) := Handle(u.large, u.small, p.l, SessionOf(u, session), inbox[0], env);
        Took(p.(l := next), session, reader, answer)
    case Lose(session, reader) =>
      if Waiting(p, session, reader) == [] || !IsClosed(u, p, session) then p else Took(p, session, reader, [])
    case Notice(node, session, ok) =>
      if !IsClosed(u, p, session) then p
      else if node.Small? then p.(s := SessionClosed(p.s, SessionOf(u, session), u.large, ok))
      else p.(l := SessionClosed(p.l, SessionOf(u, session), u.small, ok))
  }

  /** The node that opened the session has closed it. */
  predicate IsClosed(u: Setup, p: Pair, session: Side) {
    if session.Small? then u.smallSession in p.s.closed else u.largeSession in p.l.closed
  }

  function Run(u: Setup, events: seq<Event>): Pair {
    if events == [] then START else Step(u, Run(u, events[..|events| - 1]), events[|events| - 1])
  }

  predicate Undisturbed(u: Setup, v: Event) {
    match v
    case Start(side, env) => Good(u, side, env)
    case Deliver(_, reader, env) => Good(u, reader, env)
    case _ => true
  }

  // ---------------------------------------------------------------- one node

  /** The node has exactly this attempt, and exactly its interface exists. */
  predicate Has(e: Engine, a: Attempt) {
    && e.attempts == map[a.remote := a] && e.pending == map[]
    && a.plan.Some? && a.plan.value.remote == a.remote
    && e.resources == map[a.plan.value := false] && e.kernel == map[a.remote := a.plan.value]
  }

  predicate Bare(e: Engine) {
    e.attempts == map[] && e.pending == map[] && e.resources == map[] && e.kernel == map[]
  }

  /** No attempt, but the interface of a declined one is kept for a while. */
  predicate Parked(e: Engine, plan: Alias) {
    && e.attempts == map[] && e.pending == map[plan.remote := plan]
    && e.resources == map[plan := false] && e.kernel == map[plan.remote := plan]
  }

  function Proposal(remote: Uuid, operation: OperationId, session: SessionId, offer: Offer): Attempt {
    Attempt(remote, operation, true, session, Proposing, Some(Alias(remote, operation)), Some(offer), None)
  }

  function Answer(remote: Uuid, operation: OperationId, session: SessionId, plan: Alias, offer: Offer,
      peer: Offer): Attempt
  {
    Attempt(remote, operation, false, session, Probing, Some(plan), Some(offer), Some(peer))
  }

  lemma CountsFlagged(e: Engine)
    requires forall a | a in e.resources :: !e.resources[a]
    ensures ResourceCount(e) == |e.attempts| + |e.pending|
  {
    assert (set a | a in e.resources && e.resources[a]) == {};
  }

  lemma ProposeFresh(u: Setup, side: Side, e: Engine, session: SessionId, remote: Uuid, operation: OperationId,
      env: Env)
    requires Bare(e) && Good(u, side, env)
    ensures
      var (next, out) := Outbound(e, session, remote, operation, env);
      && Has(next, Proposal(remote, operation, session, env.offer)) && out == Some(Propose(operation, env.offer))
      && next.closed == e.closed
  {
    CountsFlagged(e);
  }

  lemma ProposeBusy(e: Engine, a: Attempt, session: SessionId, operation: OperationId, env: Env)
    requires Has(e, a) && !env.stopped
    ensures Outbound(e, session, a.remote, operation, env) == (e.(closed := e.closed + {session}), None)
  {
  }

  lemma AcceptFresh(u: Setup, side: Side, own: Uuid, e: Engine, session: SessionId, remote: Uuid,
      operation: OperationId, value: Offer, env: Env)
    requires Bare(e) && Good(u, side, env) && value.key != 0 && value.publicKey != env.offer.publicKey
    ensures
      var (next, out) := Inbound(own, e, session, remote, operation, value, env);
      && Has(next, Answer(remote, operation, session, Alias(remote, operation), env.offer, value))
      && out == Some(Accept(operation, env.offer)) && next.closed == e.closed
  {
    CountsFlagged(e);
    assert MakeRoom(own, e, session, remote, operation, value, env) == (e, Some(None));
    assert e.(pending := e.pending - {remote}) == e;
  }

  lemma AcceptParked(u: Setup, side: Side, own: Uuid, e: Engine, session: SessionId, plan: Alias,
      operation: OperationId, value: Offer, env: Env)
    requires Parked(e, plan) && Good(u, side, env) && value.key != 0 && value.publicKey != env.offer.publicKey
    ensures
      var (next, out) := Inbound(own, e, session, plan.remote, operation, value, env);
      && Has(next, Answer(plan.remote, operation, session, plan, env.offer, value))
      && out == Some(Accept(operation, env.offer)) && next.closed == e.closed
  {
    assert MakeRoom(own, e, session, plan.remote, operation, value, env) == (e, Some(Some(plan)));
  }

  /** The larger node drops its own proposal and puts its interface under the smaller one's. */
  lemma AcceptYields(u: Setup, side: Side, own: Uuid, e: Engine, a: Attempt, session: SessionId,
      operation: OperationId, value: Offer, env: Env)
    requires Has(e, a) && a.state.Proposing? && a.localProposal && a.remote < own && a.session != session
    requires Good(u, side, env) && value.key != 0 && value.publicKey != env.offer.publicKey
    ensures
      var (next, out) := Inbound(own, e, session, a.remote, operation, value, env);
      && Has(next, Answer(a.remote, operation, session, a.plan.value, env.offer, value))
      && out == Some(Accept(operation, env.offer)) && next.closed == e.closed + {a.session}
  {
    var freed := e.(attempts := e.attempts - {a.remote}, closed := e.closed + {a.session});
    assert MakeRoom(own, e, session, a.remote, operation, value, env) == (freed, Some(a.plan));
    assert freed.(pending := freed.pending - {a.remote}) == freed;
  }

  lemma DeclineOther(u: Setup, side: Side, own: Uuid, e: Engine, a: Attempt, session: SessionId,
      operation: OperationId, value: Offer, env: Env)
    requires Has(e, a) && !a.state.Recovering? && (!a.state.Proposing? || !a.localProposal || own < a.remote)
    requires Good(u, side, env)
    ensures Inbound(own, e, session, a.remote, operation, value, env) == (e, Some(Decline(operation)))
  {
  }

  // ---------------------------------------------------------------- the phases of a crossing

  /** What may still be moving on the larger node's own session once it no longer matters. */
  predicate Leftover(u: Setup, c: Channel) {
    || c == Channel([], []) || c == Channel([], [Decline(u.largeOperation)])
    || (|c.out| == 1 && c.back == [] && c.out[0].Propose? && c.out[0].operation == u.largeOperation)
  }

  ghost predicate Nothing(u: Setup, p: Pair) {
    Bare(p.s) && Bare(p.l) && p.onS == Channel([], []) && p.onL == Channel([], []) && !p.sentS && !p.sentL
  }

  ghost predicate SmallProposing(u: Setup, p: Pair, o: Offer) {
    OfferFrom(u, Small, o) && p.sentS && Has(p.s, Proposal(u.large, u.smallOperation, u.smallSession, o))
  }

  ghost predicate LargeProposing(u: Setup, p: Pair, o: Offer) {
    OfferFrom(u, Large, o) && p.sentL && Has(p.l, Proposal(u.small, u.largeOperation, u.largeSession, o))
  }

  ghost predicate SmallAlone(u: Setup, p: Pair, o: Offer) {
    && SmallProposing(u, p, o) && Bare(p.l) && !p.sentL
    && p.onS == Channel([Propose(u.smallOperation, o)], []) && p.onL == Channel([], [])
  }

  ghost predicate LargeAlone(u: Setup, p: Pair, o: Offer) {
    && LargeProposing(u, p, o) && Bare(p.s) && !p.sentS
    && p.onS == Channel([], []) && p.onL == Channel([Propose(u.largeOperation, o)], [])
  }

  ghost predicate Crossed(u: Setup, p: Pair, o: Offer, q: Offer) {
    && SmallProposing(u, p, o) && LargeProposing(u, p, q)
    && p.onS == Channel([Propose(u.smallOperation, o)], [])
    && (p.onL == Channel([Propose(u.largeOperation, q)], []) || p.onL == Channel([], [Decline(u.largeOperation)]))
  }

  ghost predicate Declined(u: Setup, p: Pair, o: Offer) {
    && SmallProposing(u, p, o) && p.sentL && Parked(p.l, Alias(u.small, u.largeOperation))
    && p.onS == Channel([Propose(u.smallOperation, o)], []) && p.onL == Channel([], [])
  }

  /** The larger node probes the smaller one's operation, on the interface it reserved for its own if it had one. */
  ghost predicate LargeAnswers(u: Setup, p: Pair, o: Offer, q: Offer) {
    && OfferFrom(u, Large, q)
    && Has(p.l, Answer(u.small, u.smallOperation, u.smallSession,
                       Alias(u.small, if p.sentL then u.largeOperation else u.smallOperation), q, o))
    && p.sentS && Leftover(u, p.onL) && (!p.sentL ==> p.onL == Channel([], []))
  }

  ghost predicate Answered(u: Setup, p: Pair, o: Offer, q: Offer) {
    SmallProposing(u, p, o) && LargeAnswers(u, p, o, q) && p.onS == Channel([], [Accept(u.smallOperation, q)])
  }

  /** Both probe the smaller node's operation, each with the other's offer. */
  ghost predicate SmallWon(u: Setup, p: Pair, o: Offer, q: Offer) {
    && OfferFrom(u, Small, o)
    && Has(p.s, Proposal(u.large, u.smallOperation, u.smallSession, o).(state := Probing, peer := Some(q)))
    && LargeAnswers(u, p, o, q) && p.onS == Channel([], [])
  }

  ghost predicate SmallAnswers(u: Setup, p: Pair, o: Offer, q: Offer) {
    && OfferFrom(u, Small, o) && p.sentL && !p.sentS
    && Has(p.s, Answer(u.large, u.largeOperation, u.largeSession, Alias(u.large, u.largeOperation), o, q))
    && p.onS == Channel([], [])
  }

  ghost predicate LargeAnswered(u: Setup, p: Pair, o: Offer, q: Offer) {
    && SmallAnswers(u, p, o, q) && LargeProposing(u, p, q) && p.onL == Channel([], [Accept(u.largeOperation, o)])
  }

  ghost predicate LargeWon(u: Setup, p: Pair, o: Offer, q: Offer) {
    && SmallAnswers(u, p, o, q) && OfferFrom(u, Large, q)
    && Has(p.l, Proposal(u.small, u.largeOperation, u.largeSession, q).(state := Probing, peer := Some(o)))
    && p.onL == Channel([], [])
  }

  /** A closed session no longer carries the attempt of the node that opened it. */
  ghost predicate Sessions(u: Setup, p: Pair) {
    && (u.smallSession in p.s.closed ==> !p.sentS && u.large in p.s.attempts)
    && (u.largeSession in p.l.closed ==>
          u.small in p.l.pending || (u.small in p.l.attempts && p.l.attempts[u.small].session != u.largeSession))
  }

  ghost predicate Phase(u: Setup, p: Pair) {
    || Nothing(u, p)
    || (exists o :: SmallAlone(u, p, o))
    || (exists o :: LargeAlone(u, p, o))
    || (exists o, q :: Crossed(u, p, o, q))
    || (exists o :: Declined(u, p, o))
    || (exists o, q :: Answered(u, p, o, q))
    || (exists o, q :: SmallWon(u, p, o, q))
    || (exists o, q :: LargeAnswered(u, p, o, q))
    || (exists o, q :: LargeWon(u, p, o, q))
  }

  ghost predicate Inv(u: Setup, p: Pair) {
    Phase(u, p) && Sessions(u, p)
  }

  // ---------------------------------------------------------------- every event keeps to the phases

  /** The kinds of event that can matter in a phase; everything else leaves the pair as it is. */
  predicate Idle(u: Setup, p: Pair, v: Event) {
    match v
    case Start(Small, _) => p.sentS
    case Start(Large, _) => p.sentL || u.small in p.l.pending
    case Deliver(session, reader, _) => Waiting(p, session, reader) == []
    case Lose(session, reader) => Waiting(p, session, reader) == [] || !IsClosed(u, p, session)
    case Notice(_, _, _) => false
  }

  lemma IdleStep(u: Setup, p: Pair, v: Event)
    requires Idle(u, p, v)
    ensures Step(u, p, v) == p
  {
  }

  lemma NoticeStep(u: Setup, p: Pair, v: Event)
    requires Distinct(u) && Inv(u, p) && v.Notice?
    ensures Step(u, p, v) == p
  {
    if IsClosed(u, p, v.session) {
      if v.session.Small? {
        assert !p.sentS && u.large in p.s.attempts;
      }
    }
  }

  lemma FromNothing(u: Setup, p: Pair, v: Event)
    requires Distinct(u) && Nothing(u, p) && Sessions(u, p) && Undisturbed(u, v) && !v.Notice?
    ensures Inv(u, Step(u, p, v))
  {
    var next := Step(u, p, v);
    if v.Start? && v.side.Small? {
      ProposeFresh(u, Small, p.s, u.smallSession, u.large, u.smallOperation, v.env);
      assert SmallAlone(u, next, v.env.offer);
    } else if v.Start? {
      ProposeFresh(u, Large, p.l, u.largeSession, u.small, u.largeOperation, v.env);
      assert LargeAlone(u, next, v.env.offer);
    } else {
      IdleStep(u, p, v);
    }
  }

  lemma FromSmallAlone(u: Setup, p: Pair, o: Offer, v: Event)
    requires Distinct(u) && SmallAlone(u, p, o) && Sessions(u, p) && Undisturbed(u, v) && !v.Notice?
    ensures Inv(u, Step(u, p, v))
  {
    var next := Step(u, p, v);
    if v.Start? && v.side.Large? {
      ProposeFresh(u, Large, p.l, u.largeSession, u.small, u.largeOperation, v.env);
      assert Crossed(u, next, o, v.env.offer);
    } else if v.Deliver? && v.session.Small? && v.reader.Large? {
      AcceptFresh(u, Large, u.large, p.l, u.smallSession, u.small, u.smallOperation, o, v.env);
      assert Answered(u, next, o, v.env.offer);
    } else {
      IdleStep(u, p, v);
    }
  }

  lemma FromLargeAlone(u: Setup, p: Pair, o: Offer, v: Event)
    requires Distinct(u) && LargeAlone(u, p, o) && Sessions(u, p) && Undisturbed(u, v) && !v.Notice?
    ensures Inv(u, Step(u, p, v))
  {
    var next := Step(u, p, v);
    if v.Start? && v.side.Small? {
      ProposeFresh(u, Small, p.s, u.smallSession, u.large, u.smallOperation, v.env);
      assert Crossed(u, next, v.env.offer, o);
    } else if v.Deliver? && v.session.Large? && v.reader.Small? {
      AcceptFresh(u, Small, u.small, p.s, u.largeSession, u.large, u.largeOperation, o, v.env);
      assert LargeAnswered(u, next, v.env.offer, o);
    } else {
      IdleStep(u, p, v);
    }
  }

  lemma FromCrossed(u: Setup, p: Pair, o: Offer, q: Offer, v: Event)
    requires Distinct(u) && Crossed(u, p, o, q) && Sessions(u, p) && Undisturbed(u, v) && !v.Notice?
    ensures Inv(u, Step(u, p, v))
  {
    var next := Step(u, p, v);
    if v.Deliver? && v.session.Small? && v.reader.Large? {
      AcceptYields(u, Large, u.large, p.l, p.l.attempts[u.small], u.smallSession, u.smallOperation, o, v.env);
      assert Answered(u, next, o, v.env.offer);
    } else if v.Deliver? && v.session.Large? && v.reader.Small? && p.onL.out != [] {
      DeclineOther(u, Small, u.small, p.s, p.s.attempts[u.large], u.largeSession, u.largeOperation, q, v.env);
      assert Crossed(u, next, o, q);
    } else if v.Deliver? && v.session.Large? && v.reader.Large? && p.onL.back != [] {
      assert Declined(u, next, o);
    } else {
      IdleStep(u, p, v);
    }
  }

  lemma FromDeclined(u: Setup, p: Pair, o: Offer, v: Event)
    requires Distinct(u) && Declined(u, p, o) && Sessions(u, p) && Undisturbed(u, v) && !v.Notice?
    ensures Inv(u, Step(u, p, v))
  {
    var next := Step(u, p, v);
    if v.Deliver? && v.session.Small? && v.reader.Large? {
      AcceptParked(u, Large, u.large, p.l, u.smallSession, Alias(u.small, u.largeOperation), u.smallOperation,
                   o, v.env);
      assert Answered(u, next, o, v.env.offer);
    } else {
      IdleStep(u, p, v);
    }
  }

  /** A late message of the larger node's own session changes nothing but that session. */
  lemma LeftoverStep(u: Setup, p: Pair, o: Offer, q: Offer, v: Event)
    requires Distinct(u) && LargeAnswers(u, p, o, q) && Sessions(u, p) && Undisturbed(u, v)
    requires exists a ::
        Has(p.s, a) && a.remote == u.large && a.session == u.smallSession && a.localProposal && !a.state.Recovering?
    requires (v.Deliver? && v.session.Large?) || v.Lose?
    ensures
      var next := Step(u, p, v);
      next == p.(onL := next.onL) && Leftover(u, next.onL) && (!p.sentL ==> next.onL == Channel([], []))
  {
    if v.Deliver? && v.reader.Small? && p.onL.out != [] {
      DeclineOther(u, Small, u.small, p.s, p.s.attempts[u.large], u.largeSession, u.largeOperation,
                   p.onL.out[0].offer, v.env);
    }
  }

  lemma FromAnswered(u: Setup, p: Pair, o: Offer, q: Offer, v: Event)
    requires Distinct(u) && Answered(u, p, o, q) && Sessions(u, p) && Undisturbed(u, v) && !v.Notice?
    ensures Inv(u, Step(u, p, v))
  {
    var next := Step(u, p, v);
    if (v.Deliver? && v.session.Large?) || v.Lose? {
      assert Has(p.s, p.s.attempts[u.large]);
      LeftoverStep(u, p, o, q, v);
      assert Answered(u, next, o, q);
    } else if v.Deliver? && v.reader.Small? {
      assert SmallWon(u, next, o, q);
    } else if v.Start? && v.side.Large? && !p.sentL {
      ProposeBusy(p.l, p.l.attempts[u.small], u.largeSession, u.largeOperation, v.env);
      assert Answered(u, next, o, q);
    } else {
      IdleStep(u, p, v);
    }
  }

  lemma FromSmallWon(u: Setup, p: Pair, o: Offer, q: Offer, v: Event)
    requires Distinct(u) && SmallWon(u, p, o, q) && Sessions(u, p) && Undisturbed(u, v) && !v.Notice?
    ensures Inv(u, Step(u, p, v))
  {
    var next := Step(u, p, v);
    if (v.Deliver? && v.session.Large?) || v.Lose? {
      assert Has(p.s, p.s.attempts[u.large]);
      LeftoverStep(u, p, o, q, v);
      assert SmallWon(u, next, o, q);
    } else if v.Start? && v.side.Large? && !p.sentL {
      ProposeBusy(p.l, p.l.attempts[u.small], u.largeSession, u.largeOperation, v.env);
      assert SmallWon(u, next, o, q);
    } else {
      IdleStep(u, p, v);
    }
  }

  lemma FromLargeAnswered(u: Setup, p: Pair, o: Offer, q: Offer, v: Event)
    requires Distinct(u) && LargeAnswered(u, p, o, q) && Sessions(u, p) && Undisturbed(u, v) && !v.Notice?
    ensures Inv(u, Step(u, p, v))
  {
    var next := Step(u, p, v);
    if v.Deliver? && v.session.Large? && v.reader.Large? {
      assert LargeWon(u, next, o, q);
    } else if v.Start? && v.side.Small? {
      ProposeBusy(p.s, p.s.attempts[u.large], u.smallSession, u.smallOperation, v.env);
      assert LargeAnswered(u, next, o, q);
    } else {
      IdleStep(u, p, v);
    }
  }

  lemma FromLargeWon(u: Setup, p: Pair, o: Offer, q: Offer, v: Event)
    requires Distinct(u) && LargeWon(u, p, o, q) && Sessions(u, p) && Undisturbed(u, v) && !v.Notice?
    ensures Inv(u, Step(u, p, v))
  {
    var next := Step(u, p, v);
    if v.Start? && v.side.Small? {
      ProposeBusy(p.s, p.s.attempts[u.large], u.smallSession, u.smallOperation, v.env);
      assert LargeWon(u, next, o, q);
    } else {
      IdleStep(u, p, v);
    }
  }

  lemma StepKeepsInv(u: Setup, p: Pair, v: Event)
    requires Distinct(u) && Inv(u, p) && Undisturbed(u, v)
    ensures Inv(u, Step(u, p, v))
  {
    if v.Notice? {
      NoticeStep(u, p, v);
    } else if Nothing(u, p) {
      FromNothing(u, p, v);
    } else if o :| SmallAlone(u, p, o) {
      FromSmallAlone(u, p, o, v);
    } else if o :| LargeAlone(u, p, o) {
      FromLargeAlone(u, p, o, v);
    } else if o, q :| Crossed(u, p, o, q) {
      FromCrossed(u, p, o, q, v);
    } else if o :| Declined(u, p, o) {
      FromDeclined(u, p, o, v);
    } else if o, q :| Answered(u, p, o, q) {
      FromAnswered(u, p, o, q, v);
    } else if o, q :| SmallWon(u, p, o, q) {
      FromSmallWon(u, p, o, q, v);
    } else if o, q :| LargeAnswered(u, p, o, q) {
      FromLargeAnswered(u, p, o, q, v);
    } else {
      var o, q :| LargeWon(u, p, o, q);
      FromLargeWon(u, p, o, q, v);
    }
  }

  ghost predicate AllUndisturbed(u: Setup, events: seq<Event>) {
    forall v :: v in events ==> Undisturbed(u, v)
  }

  lemma {:induction false} RunKeepsInv(u: Setup, events: seq<Event>)
    requires Distinct(u) && AllUndisturbed(u, events)
    ensures Inv(u, Run(u, events))
  {
    if events != [] {
      RunKeepsInv(u, events[..|events| - 1]);
      StepKeepsInv(u, Run(u, events[..|events| - 1]), events[|events| - 1]);
    }
  }

  // ---------------------------------------------------------------- what every order ends with

  /** No message that could still decide anything is on its way. */
  predicate Quiet(p: Pair) {
    p.onS == Channel([], []) && p.onL == Channel([], [])
  }

  /** Both ends probe this operation, each with the other's offer. */
  predicate Probe(u: Setup, p: Pair, operation: OperationId) {
    && p.s.attempts.Keys == {u.large} && p.l.attempts.Keys == {u.small}
    && var a, b := p.s.attempts[u.large], p.l.attempts[u.small];
    && a.operation == b.operation == operation && a.state.Probing? && b.state.Probing?
    && a.peer.Some? && a.peer == b.offer && b.peer.Some? && b.peer == a.offer
  }

  /** Once both proposals, the answers and any closing have been delivered in any order, both nodes probe the smaller
      UUID's operation if it was proposed at all, and the larger one's otherwise. */
  lemma CrossingIsConfluent(u: Setup, events: seq<Event>)
    requires Distinct(u) && AllUndisturbed(u, events) && Quiet(Run(u, events))
    ensures
      var p := Run(u, events);
      && (p.sentS ==> Probe(u, p, u.smallOperation))
      && (!p.sentS && p.sentL ==> Probe(u, p, u.largeOperation))
  {
    RunKeepsInv(u, events);
  }

  /** At every moment the larger node has at most one interface, and one it made for its own proposal is the one under
      the proposal it yields to: nothing is prepared twice. */
  lemma ReservationIsReused(u: Setup, events: seq<Event>)
    requires Distinct(u) && AllUndisturbed(u, events)
    ensures
      var p := Run(u, events);
      && (p.sentL ==> p.l.resources == map[Alias(u.small, u.largeOperation) := false])
      && (u.small in p.l.attempts ==>
            p.l.attempts[u.small].plan == Some(Alias(u.small, if p.sentL then u.largeOperation else u.smallOperation)))
      && (p.sentS ==> p.s.resources == map[Alias(u.large, u.smallOperation) := false])
      && |p.s.resources| <= 1 && |p.l.resources| <= 1
  {
    RunKeepsInv(u, events);
  }

  // ---------------------------------------------------------------- the exchange is short

  predicate Reads(p: Pair, v: Event) {
    v.Deliver? && Waiting(p, v.session, v.reader) != []
  }

  function Count(u: Setup, events: seq<Event>): nat {
    if events == [] then 0
    else Count(u, events[..|events| - 1]) + if Reads(Run(u, events[..|events| - 1]), events[|events| - 1]) then 1 else 0
  }

  /** What is still to be read, counting the answer that each waiting proposal can get. */
  function Ahead(ms: seq<Message>): nat {
    if ms == [] then 0 else (if ms[0].Propose? then 2 else 1) + Ahead(ms[1..])
  }

  function AheadOf(p: Pair): nat {
    Ahead(p.onS.out) + Ahead(p.onS.back) + Ahead(p.onL.out) + Ahead(p.onL.back)
      + (if p.sentS then 0 else 2) + (if p.sentL then 0 else 2)
  }

  lemma {:induction false} AheadAppends(ms: seq<Message>, m: Message)
    ensures Ahead(ms + [m]) == Ahead(ms) + if m.Propose? then 2 else 1
  {
    if ms == [] {
      assert [m][1..] == [];
    } else {
      assert (ms + [m])[1..] == ms[1..] + [m];
      AheadAppends(ms[1..], m);
    }
  }

  lemma AnswersAreShort(own: Uuid, remote: Uuid, e: Engine, session: SessionId, m: Message, env: Env)
    ensures
      var answer := Handle(own, remote, e, session, m, env).1;
      && |answer| <= 1 && (answer != [] ==> m.Propose? && !answer[0].Propose?)
  {
  }

  lemma {:induction false} EmptyUntilSent(u: Setup, events: seq<Event>)
    ensures
      var p := Run(u, events);
      && (!p.sentS ==> p.onS == Channel([], [])) && (!p.sentL ==> p.onL == Channel([], []))
  {
    if events != [] {
      EmptyUntilSent(u, events[..|events| - 1]);
    }
  }

  /** Taking one message leaves less to be read, its answer included. */
  lemma ReadAhead(u: Setup, p: Pair, v: Event)
    requires Reads(p, v)
    ensures AheadOf(Step(u, p, v)) <= AheadOf(p) - 1
  {
    var inbox := Waiting(p, v.session, v.reader);
    var c := if v.session.Small? then p.onS else p.onL;
    if v.reader.Small? {
      AnswersAreShort(u.small, u.large, p.s, SessionOf(u, v.session), inbox[0], v.env);
      var answer := Handle(u.small, u.large, p.s, SessionOf(u, v.session), inbox[0], v.env).1;
      Appended(if v.reader == v.session then c.out else c.back, answer);
    } else {
      AnswersAreShort(u.large, u.small, p.l, SessionOf(u, v.session), inbox[0], v.env);
      var answer := Handle(u.large, u.small, p.l, SessionOf(u, v.session), inbox[0], v.env).1;
      Appended(if v.reader == v.session then c.out else c.back, answer);
    }
  }

  lemma LoseAhead(u: Setup, p: Pair, v: Event)
    requires v.Lose?
    ensures AheadOf(Step(u, p, v)) <= AheadOf(p)
  {
    if Waiting(p, v.session, v.reader) != [] {
      var c := if v.session.Small? then p.onS else p.onL;
      Appended(if v.reader == v.session then c.out else c.back, []);
    }
  }

  /** Whatever fails or refuses, the two proposals lead to at most four deliveries. */
  lemma {:induction false} ExchangeEnds(u: Setup, events: seq<Event>)
    ensures Count(u, events) + AheadOf(Run(u, events)) <= 4
  {
    if events != [] {
      var before, v := events[..|events| - 1], events[|events| - 1];
      ExchangeEnds(u, before);
      EmptyUntilSent(u, before);
      var p := Run(u, before);
      if Reads(p, v) {
        ReadAhead(u, p, v);
      } else if v.Lose? {
        LoseAhead(u, p, v);
      } else if v.Start? {
        StartAhead(u, p, v);
      }
    }
  }

  lemma StartAhead(u: Setup, p: Pair, v: Event)
    requires v.Start?
    requires (!p.sentS ==> p.onS == Channel([], [])) && (!p.sentL ==> p.onL == Channel([], []))
    ensures AheadOf(Step(u, p, v)) == AheadOf(p)
  {
    var first := if v.side.Small? then Outbound(p.s, u.smallSession, u.large, u.smallOperation, v.env).1
                 else Outbound(p.l, u.largeSession, u.small, u.largeOperation, v.env).1;
    if first.Some? {
      AheadAppends([], first.value);
      assert [] + [first.value] == [first.value];
    }
  }

  lemma Appended(ms: seq<Message>, answer: seq<Message>)
    requires |answer| <= 1 && (answer != [] ==> !answer[0].Propose?)
    ensures Ahead(ms + answer) == Ahead(ms) + |answer|
  {
    if answer == [] {
      assert ms + answer == ms;
    } else {
      assert answer == [answer[0]];
      AheadAppends(ms, answer[0]);
    }
  }
}
