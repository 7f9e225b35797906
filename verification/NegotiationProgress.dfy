/** Negotiation ends, and ends in a commit exactly when some derived proposal suits both ends. */
module NegotiationProgress {
  import opened Common
  import opened Net
  import opened Negotiation
  import opened NegotiationPair

  // ---------------------------------------------------------------- bounded effort

  function Attempts(n: Node): nat {
    if n.session.link.None? then 0 else n.session.link.value.attempt
  }

  ghost predicate NodeOk(cfg: Config, n: Node) {
    && NothingPending(n)
    && Attempts(n) <= MAX_COUNTERPROPOSALS
    && n.proposals <= Attempts(n)
    && (n.session.link.Some? ==> cfg.context.LinkBound? && n.session.hasOpen && n.session.stateReceived)
    && (n.committed.Some? ==> !n.status.Running?)
    && (n.status.Running? && n.session.link.Some? && n.session.link.value.waitingForProposal ==> Attempts(n) == 0)
  }

  /** How many more frames an end can still write. */
  function Budget(n: Node): nat
    requires Attempts(n) <= MAX_COUNTERPROPOSALS
  {
    (if n.session.hasOpen then 0 else 1) + (if n.session.stateReceived then 0 else 1)
    + (MAX_COUNTERPROPOSALS - Attempts(n)) + (if n.committed.Some? then 0 else 1)
  }

  lemma HandshakeBudget(cfg: Config, n: Node, m: Message, env: Env)
    requires NodeOk(cfg, n) && !(n.session.hasOpen && n.session.stateReceived)
    ensures
      var (next, out) := Receive(cfg, n, m, env);
      NodeOk(cfg, next) && |Written(out)| + Budget(next) <= Budget(n)
  {
    if n.status.Running? && !n.session.operational && n.session.hasOpen {
      var (s, reply) := HandleNodeState(cfg, n.session, m, env.accept);
      assert Handle(cfg, n.session, m, env.accept) == (s, reply);
      NextProposalFinds(cfg, NewLink(n.session.remoteUid), env.accept);
      if reply.Send? {
        assert TakeCommit(s) == (s, None);
      }
    }
  }

  lemma ProposalBudget(cfg: Config, n: Node, p: Proposal, env: Env)
    requires NodeOk(cfg, n) && n.session.hasOpen && n.session.stateReceived
    requires n.status.Running? && !n.session.operational && n.session.link.Some?
    requires n.session.link.value.waitingForProposal || n.session.link.value.waitingForResponse
    ensures
      var (next, out) := Receive(cfg, n, LinkPropose(p), env);
      NodeOk(cfg, next) && |Written(out)| + Budget(next) <= Budget(n)
  {
    var link := n.session.link.value;
    var noted := link.(seen := link.seen + {p});
    var (after, reply) := HandleProposal(cfg, link, p, env.accept);
    var s := n.session.(link := Some(after));
    assert HandleLink(cfg, link, LinkPropose(p), env.accept) == (after, reply);
    assert Handle(cfg, n.session, LinkPropose(p), env.accept) == (s, reply);
    if WithinPools(cfg, p) && p !in link.seen {
      if env.accept(p) {
        AcceptingBudget(cfg, n.(session := s), p, env);
      } else {
        NextProposalFinds(cfg, noted, env.accept);
        if reply.Send? {
          PlainBudget(cfg, n.(session := s), reply.message, env);
        }
      }
    }
  }

  lemma AcceptingBudget(cfg: Config, n: Node, p: Proposal, env: Env)
    requires n.session.link.Some? && n.session.link.value.pendingCommit == Some(p)
    requires cfg.context.LinkBound? && n.session.hasOpen && n.session.stateReceived
    requires !n.session.link.value.waitingForProposal && n.committed.None?
    requires n.proposals <= Attempts(n) <= MAX_COUNTERPROPOSALS
    ensures
      var (next, out) := Deliver(cfg, n, Some(LinkAccept), env);
      NodeOk(cfg, next) && |Written(out)| + Budget(next) <= Budget(n)
  {
    assert TakeCommit(n.session).1 == Some(p);
  }

  lemma PlainBudget(cfg: Config, n: Node, out: Option<Message>, env: Env)
    requires n.session.link.Some? && n.session.link.value.pendingCommit.None?
    requires cfg.context.LinkBound? && n.session.hasOpen && n.session.stateReceived
    requires !n.session.link.value.waitingForProposal && n.committed.None?
    requires n.proposals + |Written(out)| <= Attempts(n) <= MAX_COUNTERPROPOSALS
    ensures
      var (next, sent) := Deliver(cfg, n, out, env);
      && NodeOk(cfg, next) && Budget(next) == Budget(n) && |Written(sent)| <= |Written(out)|
  {
    assert TakeCommit(n.session) == (n.session, None);
  }

  lemma LinkBudget(cfg: Config, n: Node, m: Message, env: Env)
    requires NodeOk(cfg, n) && n.session.hasOpen && n.session.stateReceived
    ensures
      var (next, out) := Receive(cfg, n, m, env);
      NodeOk(cfg, next) && |Written(out)| + Budget(next) <= Budget(n)
  {
    if n.status.Running? && !n.session.operational && n.session.link.Some? {
      var link := n.session.link.value;
      if m.LinkPropose? && (link.waitingForProposal || link.waitingForResponse) {
        ProposalBudget(cfg, n, m.proposal, env);
      } else {
        QuietFrameBudget(cfg, n, m, env);
      }
    }
  }

  lemma QuietFrameBudget(cfg: Config, n: Node, m: Message, env: Env)
    requires NodeOk(cfg, n) && n.session.hasOpen && n.session.stateReceived
    requires n.status.Running? && !n.session.operational && n.session.link.Some?
    requires m.LinkPropose? ==> !n.session.link.value.waitingForProposal && !n.session.link.value.waitingForResponse
    ensures
      var (next, out) := Receive(cfg, n, m, env);
      NodeOk(cfg, next) && |Written(out)| + Budget(next) <= Budget(n)
  {
    var (s, reply) := Handle(cfg, n.session, m, env.accept);
    if m.LinkAccept? && reply.Send? {
      assert TakeCommit(s).1 == Some(n.session.link.value.outstanding);
    } else if reply.Send? {
      assert TakeCommit(s) == (s, None);
    }
  }

  /** Reading one frame writes at most what it takes off the budget. */
  lemma FrameBudget(cfg: Config, n: Node, m: Message, env: Env)
    requires NodeOk(cfg, n)
    ensures
      var (next, out) := Receive(cfg, n, m, env);
      NodeOk(cfg, next) && |Written(out)| + Budget(next) <= Budget(n)
  {
    if n.session.hasOpen && n.session.stateReceived {
      LinkBudget(cfg, n, m, env);
    } else {
      HandshakeBudget(cfg, n, m, env);
    }
  }

  lemma {:induction false} NodeStaysOk(cfg: Config, inputs: seq<Input>)
    ensures NodeOk(cfg, ProcessAll(cfg, FRESH_NODE, inputs).0)
  {
    if inputs != [] {
      var (before, _) := ProcessAll(cfg, FRESH_NODE, inputs[..|inputs| - 1]);
      NodeStaysOk(cfg, inputs[..|inputs| - 1]);
      var last := inputs[|inputs| - 1];
      if last.Frame? {
        FrameBudget(cfg, before, last.message, last.env);
      }
    }
  }

  /** No peer, however it behaves, makes this end send more than 64 proposals. */
  lemma BoundedProposals(cfg: Config, inputs: seq<Input>)
    ensures ProcessAll(cfg, FRESH_NODE, inputs).0.proposals <= MAX_COUNTERPROPOSALS
  {
    NodeStaysOk(cfg, inputs);
  }

  function Measure(p: Pair): nat
    requires Attempts(p.a) <= MAX_COUNTERPROPOSALS && Attempts(p.b) <= MAX_COUNTERPROPOSALS
  {
    |p.toA| + |p.toB| + Budget(p.a) + Budget(p.b)
  }

  predicate Consumes(p: Pair, e: Event) {
    e.Read? && (if e.side.Initiator? then p.toA != [] else p.toB != [])
  }

  /** The frames actually read in a run. */
  function FramesRead(cfgA: Config, cfgB: Config, events: seq<Event>): nat {
    if events == [] then 0
    else
      var before := events[..|events| - 1];
      FramesRead(cfgA, cfgB, before)
      + if Consumes(Run(cfgA, cfgB, before), events[|events| - 1]) then 1 else 0
  }

  lemma {:induction false} ReadsAreBounded(cfgA: Config, cfgB: Config, events: seq<Event>)
    ensures
      var p := Run(cfgA, cfgB, events);
      && NodeOk(cfgA, p.a) && NodeOk(cfgB, p.b)
      && FramesRead(cfgA, cfgB, events) + Measure(p) <= Measure(Start(cfgA, cfgB))
  {
    if events != [] {
      var before, e := events[..|events| - 1], events[|events| - 1];
      ReadsAreBounded(cfgA, cfgB, before);
      var p := Run(cfgA, cfgB, before);
      if Consumes(p, e) {
        if e.side.Initiator? {
          FrameBudget(cfgA, p.a, p.toA[0], e.env);
        } else {
          FrameBudget(cfgB, p.b, p.toB[0], e.env);
        }
      }
    }
  }

  /** Every run, with any peers, any acceptance and any failures, reads at most 136 frames. */
  lemma NegotiationTerminates(cfgA: Config, cfgB: Config, events: seq<Event>)
    ensures FramesRead(cfgA, cfgB, events) <= 136
  {
    ReadsAreBounded(cfgA, cfgB, events);
  }

  // ---------------------------------------------------------------- completeness

  /** Both ends of a real Link: one derived sequence inside shared pools, fixed acceptance. */
  datatype Setup = Setup(a: Config, b: Config, acceptA: Proposal -> bool, acceptB: Proposal -> bool)

  ghost predicate Honest(u: Setup) {
    && u.a.initiator && !u.b.initiator
    && u.a.context.LinkBound? && u.b.context.LinkBound?
    && u.a.firstMessage.None?
    && u.a.localUid != u.b.localUid
    && LoopbackAllowed(u.a, u.b.localLoopback) && LoopbackAllowed(u.b, u.a.localLoopback)
    && (forall k: nat :: k < MAX_COUNTERPROPOSALS ==>
          var d := u.a.derive(u.b.localUid, k);
          && u.b.derive(u.a.localUid, k) == d && d.Some?
          && WithinPools(u.a, d.value) && WithinPools(u.b, d.value))
  }

  function Derived(u: Setup, k: nat): Proposal
    requires Honest(u) && k < MAX_COUNTERPROPOSALS
  {
    u.a.derive(u.b.localUid, k).value
  }

  predicate Mutual(u: Setup, p: Proposal) {
    u.acceptA(p) && u.acceptB(p)
  }

  ghost predicate Suits(u: Setup, k: nat)
    requires Honest(u)
  {
    k < MAX_COUNTERPROPOSALS && Mutual(u, Derived(u, k))
  }

  /** One of the first 64 derived proposals suits both ends. */
  ghost predicate SomeMutual(u: Setup)
    requires Honest(u)
  {
    exists k: nat :: Suits(u, k)
  }

  function Accepts(u: Setup, side: Side): Proposal -> bool {
    if side.Initiator? then u.acceptA else u.acceptB
  }

  function ConfigOf(u: Setup, side: Side): Config {
    if side.Initiator? then u.a else u.b
  }

  /** A schedule only says which end reads next: nothing fails. */
  function Smooth(u: Setup, schedule: seq<Side>): seq<Event> {
    if schedule == [] then []
    else
      var last := schedule[|schedule| - 1];
      Smooth(u, schedule[..|schedule| - 1]) + [Read(last, Env(Accepts(u, last), true, true))]
  }

  function SmoothRun(u: Setup, schedule: seq<Side>): Pair {
    Run(u.a, u.b, Smooth(u, schedule))
  }

  function ToSide(p: Pair, side: Side): seq<Message> {
    if side.Initiator? then p.toA else p.toB
  }

  /** The handshake frames that reader has still to read from writer. */
  function Unread(cfg: Config, writer: Node, reader: Node): seq<Message> {
    (if reader.session.hasOpen then [] else [Open(Some(cfg.localUid))])
    + (if writer.session.hasOpen && !reader.session.stateReceived then [NodeState(cfg.localLoopback)] else [])
  }

  /** What a running end knows: its peer, and that every derived proposal passed over is useless. */
  ghost predicate Explored(u: Setup, side: Side, n: Node)
    requires Honest(u)
  {
    && n.status.Running? && n.committed.None? && !n.session.operational
    && (n.session.hasOpen ==> n.session.remoteUid == ConfigOf(u, Peer(side)).localUid)
    && (n.session.stateReceived ==> n.session.hasOpen)
    && (n.session.stateReceived <==> n.session.link.Some?)
    && (n.session.link.Some? ==>
          var link := n.session.link.value;
          && link.remoteUid == ConfigOf(u, Peer(side)).localUid
          && link.pendingCommit.None?
          && (link.waitingForProposal || link.waitingForResponse)
          && link.attempt <= MAX_COUNTERPROPOSALS
          && (forall j: nat :: j < link.attempt ==>
                Derived(u, j) in link.seen || !Accepts(u, side)(Derived(u, j))))
  }

  ghost predicate Useless(u: Setup, ps: set<Proposal>) {
    forall q :: q in ps ==> !Mutual(u, q)
  }

  /** p is in flight to `side`; everything seen before it is useless. */
  ghost predicate OfferPhase(u: Setup, p: Pair, side: Side, q: Proposal)
    requires Honest(u)
  {
    var x, y := At(p, side), At(p, Peer(side));
    && ToSide(p, side) == Unread(ConfigOf(u, Peer(side)), y, x) + [LinkPropose(q)]
    && ToSide(p, Peer(side)) == Unread(ConfigOf(u, side), x, y)
    && Explored(u, Initiator, p.a) && Explored(u, Responder, p.b)
    && Awaits(y, q) && Accepts(u, Peer(side))(q)
    && (exists k: nat :: k < MAX_COUNTERPROPOSALS && Derived(u, k) == q)
    && q !in Seen(x) && Seen(y) == Seen(x) + {q} && Useless(u, Seen(x))
    && x.session.hasOpen
  }

  ghost predicate AcceptPhase(u: Setup, p: Pair, side: Side, q: Proposal)
    requires Honest(u)
  {
    && ToSide(p, side) == [LinkAccept] && ToSide(p, Peer(side)) == []
    && Explored(u, side, At(p, side)) && Awaits(At(p, side), q)
    && At(p, Peer(side)).status == Closed(None) && At(p, Peer(side)).committed == Some(q)
    && Mutual(u, q) && (exists k: nat :: k < MAX_COUNTERPROPOSALS && Derived(u, k) == q)
  }

  ghost predicate DonePhase(u: Setup, p: Pair, q: Proposal)
    requires Honest(u)
  {
    && p.toA == [] && p.toB == []
    && p.a.committed == Some(q) && p.b.committed == Some(q)
    && p.a.status == Closed(None) && p.b.status == Closed(None)
    && Mutual(u, q) && (exists k: nat :: k < MAX_COUNTERPROPOSALS && Derived(u, k) == q)
  }

  /** One end ran out of proposals: then none of the 64 suits both. */
  ghost predicate FailedPhase(u: Setup, p: Pair)
    requires Honest(u)
  {
    && !SomeMutual(u)
    && NoLink(p.toA) && NoLink(p.toB)
    && p.a.committed.None? && p.b.committed.None?
    && p.a.session.stateReceived && p.a.session.hasOpen
  }

  ghost predicate ShakePhase(u: Setup, p: Pair)
    requires Honest(u)
  {
    && p.toA == Unread(u.b, p.b, p.a) && p.toB == Unread(u.a, p.a, p.b)
    && Explored(u, Initiator, p.a) && Explored(u, Responder, p.b)
    && !p.a.session.stateReceived
    && Seen(p.b) == {}
    && (p.b.session.stateReceived ==> p.a.session.hasOpen)
  }

  ghost predicate Live(u: Setup, p: Pair)
    requires Honest(u)
  {
    && Inv(p)
    && (|| ShakePhase(u, p)
        || (exists side, q :: OfferPhase(u, p, side, q))
        || (exists side, q :: AcceptPhase(u, p, side, q))
        || (exists q :: DonePhase(u, p, q))
        || FailedPhase(u, p))
  }

  // ---------------------------------------------------------------- each phase leads to the next

  lemma ReadOpen(u: Setup, p: Pair, side: Side)
    requires Honest(u) && Explored(u, side, At(p, side)) && !At(p, side).session.hasOpen
    ensures
      var cfg, n := ConfigOf(u, side), At(p, side);
      var (next, out) := Receive(cfg, n, Open(Some(ConfigOf(u, Peer(side)).localUid)),
                                 Env(Accepts(u, side), true, true));
      && out == Some(NodeState(cfg.localLoopback))
      && Explored(u, side, next) && next.session.hasOpen && !next.session.stateReceived && Seen(next) == Seen(n)
  {
  }

  /** The responder enters the Link phase; the initiator also makes the first offer, or has none to make. */
  lemma ReadState(u: Setup, p: Pair, side: Side)
    requires Honest(u) && Explored(u, side, At(p, side))
    requires At(p, side).session.hasOpen && !At(p, side).session.stateReceived
    ensures
      var cfg, n := ConfigOf(u, side), At(p, side);
      var (next, out) := Receive(cfg, n, NodeState(ConfigOf(u, Peer(side)).localLoopback),
                                 Env(Accepts(u, side), true, true));
      && next.session.hasOpen && next.session.stateReceived && next.committed.None?
      && (side.Responder? ==> out.None? && Explored(u, side, next) && Seen(next) == {})
      && (side.Initiator? ==>
            match out
            case Some(LinkPropose(q)) =>
              && Explored(u, side, next) && Awaits(next, q) && Accepts(u, side)(q) && Seen(next) == {q}
              && (exists k: nat :: k < MAX_COUNTERPROPOSALS && Derived(u, k) == q)
            case None => !SomeMutual(u)
            case _ => false)
  {
    var cfg, n := ConfigOf(u, side), At(p, side);
    var env := Env(Accepts(u, side), true, true);
    var m := NodeState(ConfigOf(u, Peer(side)).localLoopback);
    var blank := NewLink(n.session.remoteUid);
    if side.Initiator? {
      NextProposalFinds(cfg, blank, env.accept);
      var (link, found) := NextProposal(cfg, blank, env.accept);
      var (s, reply) := Handle(cfg, n.session, m, env.accept);
      if found.Ok? {
        assert TakeCommit(s) == (s, None);
        assert Derived(u, link.attempt - 1) == found.value;
      } else {
        assert forall k: nat :: k < MAX_COUNTERPROPOSALS ==> cfg.derive(blank.remoteUid, k) == Some(Derived(u, k));
      }
    }
  }

  lemma ShakeStep(u: Setup, p: Pair, side: Side)
    requires Honest(u) && Live(u, p) && ShakePhase(u, p) && ToSide(p, side) != []
    ensures
      var q := Step(u.a, u.b, p, Read(side, Env(Accepts(u, side), true, true)));
      ShakePhase(u, q) || (exists side', x :: OfferPhase(u, q, side', x)) || FailedPhase(u, q)
  {
    var env := Env(Accepts(u, side), true, true);
    var q := Step(u.a, u.b, p, Read(side, env));
    if !At(p, side).session.hasOpen {
      ReadOpen(u, p, side);
      assert ShakePhase(u, q);
    } else {
      ReadState(u, p, side);
      var (next, out) := Receive(ConfigOf(u, side), At(p, side), ToSide(p, side)[0], env);
      if side.Responder? {
        assert ShakePhase(u, q);
      } else if out.Some? {
        assert OfferPhase(u, q, Responder, out.value.proposal);
      } else {
        assert FailedPhase(u, q);
      }
    }
  }

  ghost predicate Indexed(u: Setup, q: Proposal)
    requires Honest(u)
  {
    exists k: nat :: k < MAX_COUNTERPROPOSALS && Derived(u, k) == q
  }

  /** What reading a fresh offer q does to a reader that has come this far. */
  ghost predicate OfferOutcome(u: Setup, side: Side, n: Node, q: Proposal, next: Node, out: Option<Message>)
    requires Honest(u)
  {
    && next.session.hasOpen && next.session.stateReceived
    && (match out
        case Some(LinkAccept) =>
          next.status == Closed(None) && next.committed == Some(q) && Mutual(u, q)
        case Some(LinkPropose(c)) =>
          && Explored(u, side, next) && Awaits(next, c) && Accepts(u, side)(c) && Indexed(u, c)
          && c !in Seen(n) + {q} && Seen(next) == Seen(n) + {q} + {c} && Useless(u, Seen(n) + {q})
        case None => !SomeMutual(u) && next.committed.None?
        case _ => false)
  }

  /** The search starting after a rejected q either offers a new candidate or has ruled out all 64. */
  lemma CounterSearch(u: Setup, side: Side, link: Link, q: Proposal)
    requires Honest(u) && link.remoteUid == ConfigOf(u, Peer(side)).localUid
    requires link.attempt <= MAX_COUNTERPROPOSALS && q !in link.seen
    requires forall j: nat :: j < link.attempt ==> Derived(u, j) in link.seen || !Accepts(u, side)(Derived(u, j))
    requires Useless(u, link.seen) && !Accepts(u, side)(q)
    ensures
      var (next, found) := NextProposal(ConfigOf(u, side), link.(seen := link.seen + {q}), Accepts(u, side));
      && next == link.(attempt := next.attempt, seen := next.seen) && next.attempt <= MAX_COUNTERPROPOSALS
      && (match found
          case Ok(c) =>
            && c !in link.seen + {q} && next.seen == link.seen + {q} + {c} && Accepts(u, side)(c) && Indexed(u, c)
            && (forall j: nat :: j < next.attempt ==> Derived(u, j) in next.seen || !Accepts(u, side)(Derived(u, j)))
          case Err(_) => !SomeMutual(u))
  {
    var cfg, accept := ConfigOf(u, side), Accepts(u, side);
    var noted := link.(seen := link.seen + {q});
    assert forall k: nat :: k < MAX_COUNTERPROPOSALS ==> cfg.derive(link.remoteUid, k) == Some(Derived(u, k));
    NextProposalFinds(cfg, noted, accept);
    var (next, found) := NextProposal(cfg, noted, accept);
    if found.Ok? {
      assert Derived(u, next.attempt - 1) == found.value;
    } else {
      forall k: nat | k < MAX_COUNTERPROPOSALS ensures !Mutual(u, Derived(u, k)) {
        if k >= link.attempt {
          assert cfg.derive(link.remoteUid, k).Some?;
        }
      }
    }
  }

  /** A reader that has come this far accepts q, offers another candidate, or proves that none suits both. */
  lemma ReadOffer(u: Setup, p: Pair, side: Side, q: Proposal)
    requires Honest(u) && Explored(u, side, At(p, side)) && At(p, side).session.stateReceived
    requires q !in Seen(At(p, side)) && Useless(u, Seen(At(p, side))) && Indexed(u, q) && Accepts(u, Peer(side))(q)
    ensures
      var (next, out) := Receive(ConfigOf(u, side), At(p, side), LinkPropose(q), Env(Accepts(u, side), true, true));
      OfferOutcome(u, side, At(p, side), q, next, out)
  {
    var cfg, n := ConfigOf(u, side), At(p, side);
    var accept, link := Accepts(u, side), n.session.link.value;
    var (after, reply) := HandleProposal(cfg, link, q, accept);
    var s := n.session.(link := Some(after));
    assert HandleLink(cfg, link, LinkPropose(q), accept) == (after, reply);
    assert Handle(cfg, n.session, LinkPropose(q), accept) == (s, reply);
    if accept(q) {
      assert TakeCommit(s).1 == Some(q);
    } else {
      CounterSearch(u, side, link, q);
      if reply.Send? {
        assert TakeCommit(s) == (s, None);
      }
    }
  }

  lemma OfferStep(u: Setup, p: Pair, side: Side, q: Proposal, reader: Side)
    requires Honest(u) && Live(u, p) && OfferPhase(u, p, side, q) && ToSide(p, reader) != []
    ensures
      var r := Step(u.a, u.b, p, Read(reader, Env(Accepts(u, reader), true, true)));
      || (exists side', x :: OfferPhase(u, r, side', x))
      || (exists side', x :: AcceptPhase(u, r, side', x))
      || FailedPhase(u, r)
  {
    var env := Env(Accepts(u, side), true, true);
    var r := Step(u.a, u.b, p, Read(side, env));
    assert reader == side;
    var n := At(p, side);
    if !n.session.stateReceived {
      ReadState(u, p, side);
      assert side.Responder?;
      assert OfferPhase(u, r, side, q);
    } else {
      ReadOffer(u, p, side, q);
      var (next, out) := Receive(ConfigOf(u, side), n, LinkPropose(q), env);
      match out {
        case Some(LinkAccept) => assert AcceptPhase(u, r, Peer(side), q);
        case Some(LinkPropose(c)) => assert OfferPhase(u, r, Peer(side), c);
        case None => assert FailedPhase(u, r);
      }
    }
  }

  lemma AcceptStep(u: Setup, p: Pair, side: Side, q: Proposal, reader: Side)
    requires Honest(u) && AcceptPhase(u, p, side, q) && ToSide(p, reader) != []
    ensures DonePhase(u, Step(u.a, u.b, p, Read(reader, Env(Accepts(u, reader), true, true))), q)
  {
    assert reader == side;
    var cfg, n := ConfigOf(u, side), At(p, side);
    var (s, reply) := Handle(cfg, n.session, LinkAccept, Accepts(u, side));
    assert TakeCommit(s).1 == Some(q);
  }

  lemma FailedStep(u: Setup, p: Pair, reader: Side)
    requires Honest(u) && Inv(p) && FailedPhase(u, p) && ToSide(p, reader) != []
    ensures FailedPhase(u, Step(u.a, u.b, p, Read(reader, Env(Accepts(u, reader), true, true))))
  {
    var from := ToSide(p, reader);
    OtherFrame(ConfigOf(u, reader), At(p, reader), from[0], Env(Accepts(u, reader), true, true));
  }

  lemma LiveStep(u: Setup, p: Pair, reader: Side)
    requires Honest(u) && Live(u, p)
    ensures Live(u, Step(u.a, u.b, p, Read(reader, Env(Accepts(u, reader), true, true))))
  {
    StepKeepsInv(u.a, u.b, p, Read(reader, Env(Accepts(u, reader), true, true)));
    if ToSide(p, reader) != [] {
      if ShakePhase(u, p) {
        ShakeStep(u, p, reader);
      } else if side, q :| OfferPhase(u, p, side, q) {
        OfferStep(u, p, side, q, reader);
      } else if side, q :| AcceptPhase(u, p, side, q) {
        AcceptStep(u, p, side, q, reader);
      } else if FailedPhase(u, p) {
        FailedStep(u, p, reader);
      }
    }
  }

  lemma {:induction false} SmoothRunIsLive(u: Setup, schedule: seq<Side>)
    requires Honest(u)
    ensures Live(u, SmoothRun(u, schedule))
  {
    if schedule == [] {
      RunKeepsInv(u.a, u.b, []);
      assert ShakePhase(u, Start(u.a, u.b));
    } else {
      var before, last := schedule[..|schedule| - 1], schedule[|schedule| - 1];
      SmoothRunIsLive(u, before);
      var e := Read(last, Env(Accepts(u, last), true, true));
      assert Smooth(u, schedule)[..|Smooth(u, before)|] == Smooth(u, before);
      assert SmoothRun(u, schedule) == Step(u.a, u.b, SmoothRun(u, before), e);
      LiveStep(u, SmoothRun(u, before), last);
    }
  }

  /** Nothing left to read: the negotiation is over. */
  predicate Settled(p: Pair) {
    p.toA == [] && p.toB == []
  }

  /** A settled run committed one proposal, good for both ends, at both ends exactly when some
      of the first 64 derived proposals suits both; otherwise nobody committed. */
  lemma NegotiationIsComplete(u: Setup, schedule: seq<Side>)
    requires Honest(u) && Settled(SmoothRun(u, schedule))
    ensures
      var p := SmoothRun(u, schedule);
      if SomeMutual(u) then
        exists q :: p.a.committed == Some(q) && p.b.committed == Some(q) && Mutual(u, q) && Indexed(u, q)
      else
        p.a.committed.None? && p.b.committed.None?
  {
    SmoothRunIsLive(u, schedule);
    var p := SmoothRun(u, schedule);
    if q :| DonePhase(u, p, q) {
      var k: nat :| k < MAX_COUNTERPROPOSALS && Derived(u, k) == q;
      assert Suits(u, k);
    } else {
      assert FailedPhase(u, p);
    }
  }

  /** Unread frames can always be read, so together with NegotiationTerminates every fair run settles. */
  lemma UnsettledRunAdvances(u: Setup, schedule: seq<Side>)
    requires Honest(u) && !Settled(SmoothRun(u, schedule))
    ensures
      exists side :: FramesRead(u.a, u.b, Smooth(u, schedule + [side])) == FramesRead(u.a, u.b, Smooth(u, schedule)) + 1
  {
    var p := SmoothRun(u, schedule);
    var side := if p.toA != [] then Initiator else Responder;
    assert (schedule + [side])[..|schedule|] == schedule;
    var longer := Smooth(u, schedule + [side]);
    assert longer[..|longer| - 1] == Smooth(u, schedule);
    assert FramesRead(u.a, u.b, longer) == FramesRead(u.a, u.b, Smooth(u, schedule)) + 1;
  }
}
