/** Two ends of one link-bound session over a pair of FIFO byte streams: every run, with
    either end allowed to fail at any moment. */
module NegotiationPair {
  import opened Common
  import opened Net
  import opened Negotiation

  datatype Side = Initiator | Responder

  datatype Role = Acceptor | Proposer

  datatype Commit = Commit(side: Side, role: Role, proposal: Proposal)

  /** Both ends, the frames not yet read by each, and every commit in the order made. */
  datatype Pair = Pair(
    a: Node,
    b: Node,
    toA: seq<Message>,
    toB: seq<Message>,
    log: seq<Commit>)

  datatype Event = Read(side: Side, env: Env) | Fail(side: Side)

  function Start(cfgA: Config, cfgB: Config): Pair {
    Pair(FRESH_NODE, FRESH_NODE, [Open(Some(cfgB.localUid))], [Open(Some(cfgA.localUid))], [])
  }

  function Abort(n: Node): Node {
    if n.status.Running? then n.(status := Closed(Some(Cancelled))) else n
  }

  function Entry(side: Side, m: Message, before: Node, after: Node): seq<Commit> {
    if before.committed == after.committed || after.committed.None? then []
    else [Commit(side, if m.LinkAccept? then Proposer else Acceptor, after.committed.value)]
  }

  function Written(out: Option<Message>): seq<Message> {
    if out.Some? then [out.value] else []
  }

  /** One event; reading from an empty stream does nothing. */
  function Step(cfgA: Config, cfgB: Config, p: Pair, e: Event): Pair {
    match e
    case Fail(Initiator) => p.(a := Abort(p.a))
    case Fail(Responder) => p.(b := Abort(p.b))
    case Read(Initiator, env) =>
      if p.toA == [] then p
      else
        var (next, out) := Receive(cfgA, p.a, p.toA[0], env);
        Pair(next, p.b, p.toA[1..], p.toB + Written(out), p.log + Entry(Initiator, p.toA[0], p.a, next))
    case Read(Responder, env) =>
      if p.toB == [] then p
      else
        var (next, out) := Receive(cfgB, p.b, p.toB[0], env);
        Pair(p.a, next, p.toA + Written(out), p.toB[1..], p.log + Entry(Responder, p.toB[0], p.b, next))
  }

  function Run(cfgA: Config, cfgB: Config, events: seq<Event>): Pair {
    if events == [] then Start(cfgA, cfgB)
    else Step(cfgA, cfgB, Run(cfgA, cfgB, events[..|events| - 1]), events[|events| - 1])
  }

  // ---------------------------------------------------------------- the invariant

  predicate IsLink(m: Message) {
    m.LinkPropose? || m.LinkAccept?
  }

  ghost predicate NoLink(ms: seq<Message>) {
    forall m :: m in ms ==> !IsLink(m)
  }

  /** Handshake frames followed by exactly the Link message m. */
  ghost predicate EndsWith(ms: seq<Message>, m: Message) {
    |ms| > 0 && ms[|ms| - 1] == m && NoLink(ms[..|ms| - 1])
  }

  function Seen(n: Node): set<Proposal> {
    if n.session.link.None? then {} else n.session.link.value.seen
  }

  ghost predicate Awaits(n: Node, p: Proposal) {
    && n.session.link.Some?
    && n.session.stateReceived
    && n.session.hasOpen
    && !n.session.link.value.waitingForProposal
    && n.session.link.value.waitingForResponse
    && n.session.link.value.outstanding == p
    && n.committed.None?
  }

  /** y's proposal is the only Link message in flight and x has not seen it. */
  ghost predicate Offered(x: Node, y: Node, toX: seq<Message>, toY: seq<Message>, log: seq<Commit>, p: Proposal) {
    && EndsWith(toX, LinkPropose(p)) && NoLink(toY)
    && log == []
    && Awaits(y, p)
    && x.committed.None?
    && p !in Seen(x) && Seen(y) == Seen(x) + {p}
  }

  /** y accepted x's outstanding proposal, has committed it, and its LINK_ACCEPT is in flight. */
  ghost predicate Accepted(x: Node, y: Node, toX: seq<Message>, toY: seq<Message>, log: seq<Commit>, who: Side,
      p: Proposal)
  {
    && EndsWith(toX, LinkAccept) && NoLink(toY)
    && log == [Commit(who, Acceptor, p)]
    && Awaits(x, p)
    && y.committed == Some(p) && y.session.hasOpen && y.session.stateReceived
  }

  function Peer(side: Side): Side {
    if side.Initiator? then Responder else Initiator
  }

  function At(p: Pair, side: Side): Node {
    if side.Initiator? then p.a else p.b
  }

  /** The three possible commit histories: none, the acceptor alone, the acceptor and then the proposer. */
  ghost predicate LogShape(p: Pair) {
    || (p.log == [] && p.a.committed.None? && p.b.committed.None?)
    || (exists side, q ::
          && p.log == [Commit(side, Acceptor, q)]
          && At(p, side).committed == Some(q) && At(p, Peer(side)).committed.None?)
    || (exists side, q ::
          && p.log == [Commit(side, Acceptor, q), Commit(Peer(side), Proposer, q)]
          && p.a.committed == Some(q) && p.b.committed == Some(q))
  }

  ghost predicate Quiet(p: Pair) {
    NoLink(p.toA) && NoLink(p.toB) && LogShape(p)
  }

  /** Before the initiator has seen the peer's state nothing about Links has happened anywhere. */
  ghost predicate Handshake(p: Pair) {
    && (!p.a.session.stateReceived ==>
          && Quiet(p) && p.log == [] && p.a.session.link.None?
          && Seen(p.b) == {}
          && (p.b.session.link.Some? ==> p.b.session.link.value.waitingForProposal))
    && (p.a.session.stateReceived ==> p.a.session.hasOpen)
    && (p.b.session.stateReceived ==> p.b.session.hasOpen)
    && (!p.b.session.stateReceived ==> p.b.session.link.None?)
    && (p.b.session.link.Some? && p.b.session.link.value.waitingForProposal ==> Seen(p.b) == {} || !p.b.status.Running?)
    && (p.a.session.link.Some? ==> !p.a.session.link.value.waitingForProposal)
    && NothingPending(p.a) && NothingPending(p.b)
  }

  /** A pending commit never outlives the frame that caused it. */
  ghost predicate NothingPending(n: Node) {
    n.session.link.Some? ==> n.session.link.value.pendingCommit.None?
  }

  /** Never closed for a reason that only a misbehaving peer can cause. */
  ghost predicate PeerBehaved(n: Node) {
    n.status != Closed(Some(RepeatedProposal)) && n.status != Closed(Some(NoDistinctCounter))
  }

  ghost predicate Turn(p: Pair) {
    || Quiet(p)
    || (exists q :: Offered(p.a, p.b, p.toA, p.toB, p.log, q))
    || (exists q :: Offered(p.b, p.a, p.toB, p.toA, p.log, q))
    || (exists q :: Accepted(p.a, p.b, p.toA, p.toB, p.log, Responder, q))
    || (exists q :: Accepted(p.b, p.a, p.toB, p.toA, p.log, Initiator, q))
  }

  ghost predicate Inv(p: Pair) {
    Handshake(p) && Turn(p) && PeerBehaved(p.a) && PeerBehaved(p.b)
  }

  // ---------------------------------------------------------------- one frame

  /** Handshake and foreign frames commit nothing; only the initiator's first NODE_STATE starts an offer. */
  ghost predicate OtherOutcome(cfg: Config, n: Node, next: Node, out: Option<Message>) {
    && next.committed == n.committed && NothingPending(next)
    && (PeerBehaved(n) ==> PeerBehaved(next))
    && (n.session.stateReceived ==> next.session.stateReceived)
    && (n.session.hasOpen ==> next.session.hasOpen)
    && (!next.session.stateReceived ==> next.session.link.None?)
    && (!n.session.stateReceived && next.session.stateReceived ==> n.session.hasOpen)
    && (n.session.hasOpen && n.session.stateReceived ==> out.None?)
    && (out.Some? && IsLink(out.value) ==>
          && cfg.initiator && !n.session.stateReceived
          && out.value.LinkPropose?
          && Seen(next) == {out.value.proposal}
          && (n.committed.None? ==> Awaits(next, out.value.proposal)))
    && (n.session.link.Some? ==>
          || next.session.link == n.session.link
          || (next.session.link.None? && n.session.link.value.waitingForProposal && !cfg.initiator))
    && (n.session.link.None? && next.session.link.Some? ==>
          && !n.session.stateReceived && next.session.stateReceived && next.session.hasOpen
          && (if cfg.initiator then !next.session.link.value.waitingForProposal
              else next.session.link.value.waitingForProposal && Seen(next) == {}))
  }

  lemma OpenFrame(cfg: Config, n: Node, m: Message, env: Env)
    requires NothingPending(n) && !n.session.hasOpen
    requires !n.session.stateReceived ==> n.session.link.None?
    ensures var (next, out) := Receive(cfg, n, m, env); OtherOutcome(cfg, n, next, out)
  {
  }

  lemma StateFrame(cfg: Config, n: Node, m: Message, env: Env)
    requires NothingPending(n) && n.session.hasOpen && !n.session.stateReceived && n.session.link.None?
    ensures var (next, out) := Receive(cfg, n, m, env); OtherOutcome(cfg, n, next, out)
  {
    if n.status.Running? && !n.session.operational {
      var (s, reply) := HandleNodeState(cfg, n.session, m, env.accept);
      assert Handle(cfg, n.session, m, env.accept) == (s, reply);
      NextProposalFinds(cfg, NewLink(n.session.remoteUid), env.accept);
      if reply.Send? {
        assert TakeCommit(s) == (s, None);
        var (next, out) := Deliver(cfg, n.(session := s), reply.message, env);
        assert next.session == s && next.committed == n.committed;
      }
    }
  }

  lemma LinkPhaseFrame(cfg: Config, n: Node, m: Message, env: Env)
    requires NothingPending(n) && n.session.hasOpen && n.session.stateReceived && !IsLink(m)
    ensures var (next, out) := Receive(cfg, n, m, env); OtherOutcome(cfg, n, next, out)
  {
  }

  lemma OtherFrame(cfg: Config, n: Node, m: Message, env: Env)
    requires !IsLink(m) && NothingPending(n)
    requires !n.session.stateReceived ==> n.session.link.None?
    ensures var (next, out) := Receive(cfg, n, m, env); OtherOutcome(cfg, n, next, out)
  {
    if !n.session.hasOpen {
      OpenFrame(cfg, n, m, env);
    } else if !n.session.stateReceived {
      StateFrame(cfg, n, m, env);
    } else {
      LinkPhaseFrame(cfg, n, m, env);
    }
  }

  /** A proposal new to its reader is committed, countered with another new one, or dropped. */
  ghost predicate ProposalOutcome(n: Node, p: Proposal, next: Node, out: Option<Message>) {
    && NothingPending(next)
    && next.session.stateReceived == n.session.stateReceived
    && (n.session.hasOpen ==> next.session.hasOpen)
    && (PeerBehaved(n) ==> PeerBehaved(next))
    && (next.session.link.Some? <==> n.session.link.Some?)
    && (next.session.link.Some? && next.session.link.value.waitingForProposal ==>
          n.session.link.value.waitingForProposal && (!next.status.Running? || Seen(next) == Seen(n)))
    && (match out
        case None => next.committed.None? || next.committed == Some(p)
        case Some(LinkAccept) => next.committed == Some(p) && n.session.hasOpen && n.session.stateReceived
        case Some(LinkPropose(q)) =>
          && next.committed.None?
          && q !in Seen(n) + {p} && Seen(next) == Seen(n) + {p} + {q}
          && Awaits(next, q)
        case _ => false)
  }

  lemma ProposalInLink(cfg: Config, n: Node, p: Proposal, env: Env)
    requires n.session.link.Some? && n.session.hasOpen && n.session.stateReceived
    requires n.status.Running? && !n.session.operational
    requires NothingPending(n) && n.committed.None? && p !in Seen(n)
    ensures var (next, out) := Receive(cfg, n, LinkPropose(p), env); ProposalOutcome(n, p, next, out)
  {
    var link := n.session.link.value;
    var (after, reply) := HandleProposal(cfg, link, p, env.accept);
    NextProposalFinds(cfg, link.(seen := Seen(n) + {p}), env.accept);
    if link.waitingForProposal || link.waitingForResponse {
      assert HandleLink(cfg, link, LinkPropose(p), env.accept) == (after, reply);
      var s := n.session.(link := Some(after));
      assert Handle(cfg, n.session, LinkPropose(p), env.accept) == (s, reply);
      if reply.Send? {
        if reply.message == Some(LinkAccept) {
          assert TakeCommit(s).1 == Some(p);
        } else {
          assert TakeCommit(s) == (s, None);
        }
      }
    }
  }

  lemma ProposalFrame(cfg: Config, n: Node, p: Proposal, env: Env)
    requires NothingPending(n) && n.committed.None? && p !in Seen(n)
    requires !n.session.stateReceived ==> n.session.link.None?
    requires n.session.stateReceived ==> n.session.hasOpen
    ensures var (next, out) := Receive(cfg, n, LinkPropose(p), env); ProposalOutcome(n, p, next, out)
  {
    if n.session.link.Some? && n.status.Running? && !n.session.operational {
      ProposalInLink(cfg, n, p, env);
    }
  }

  /** An acceptance commits exactly the outstanding proposal. */
  lemma AcceptFrame(cfg: Config, n: Node, p: Proposal, env: Env)
    requires NothingPending(n) && Awaits(n, p)
    ensures
      var (next, out) := Receive(cfg, n, LinkAccept, env);
      && out.None? && NothingPending(next)
      && next.session.stateReceived && next.session.hasOpen
      && (PeerBehaved(n) ==> PeerBehaved(next))
      && next.session.link.Some? && !next.session.link.value.waitingForProposal
      && (next.committed.None? || next.committed == Some(p))
  {
  }

  // ---------------------------------------------------------------- preservation

  lemma TailOfNoLink(ms: seq<Message>)
    requires ms != [] && NoLink(ms)
    ensures !IsLink(ms[0]) && NoLink(ms[1..])
  {
  }

  lemma TailOfEndsWith(ms: seq<Message>, m: Message)
    requires EndsWith(ms, m)
    ensures |ms| == 1 ==> ms[0] == m && NoLink(ms[1..])
    ensures |ms| > 1 ==> !IsLink(ms[0]) && EndsWith(ms[1..], m)
  {
    if |ms| > 1 {
      assert ms[..|ms| - 1][0] == ms[0];
      assert ms[1..][..|ms| - 2] == ms[..|ms| - 1][1..];
    }
  }

  lemma Append(ms: seq<Message>, m: Message)
    requires NoLink(ms)
    ensures IsLink(m) ==> EndsWith(ms + [m], m)
    ensures !IsLink(m) ==> NoLink(ms + [m])
  {
    assert (ms + [m])[..|ms|] == ms;
  }

  lemma FailKeepsInv(cfgA: Config, cfgB: Config, p: Pair, side: Side)
    requires Inv(p)
    ensures Inv(Step(cfgA, cfgB, p, Fail(side)))
  {
    var q := Step(cfgA, cfgB, p, Fail(side));
    if Quiet(p) {
      assert Quiet(q);
    } else if x :| Offered(p.a, p.b, p.toA, p.toB, p.log, x) {
      assert Offered(q.a, q.b, q.toA, q.toB, q.log, x);
    } else if x :| Offered(p.b, p.a, p.toB, p.toA, p.log, x) {
      assert Offered(q.b, q.a, q.toB, q.toA, q.log, x);
    } else if x :| Accepted(p.a, p.b, p.toA, p.toB, p.log, Responder, x) {
      assert Accepted(q.a, q.b, q.toA, q.toB, q.log, Responder, x);
    } else {
      var x :| Accepted(p.b, p.a, p.toB, p.toA, p.log, Initiator, x);
      assert Accepted(q.b, q.a, q.toB, q.toA, q.log, Initiator, x);
    }
  }

  lemma OtherFromQuiet(cfgA: Config, cfgB: Config, p: Pair, side: Side, env: Env)
    requires Quiet(p)
    requires cfgA.initiator && !cfgB.initiator && Inv(p)
    requires side.Initiator? ==> p.toA != [] && !IsLink(p.toA[0])
    requires side.Responder? ==> p.toB != [] && !IsLink(p.toB[0])
    ensures Turn(Step(cfgA, cfgB, p, Read(side, env)))
  {
    var q := Step(cfgA, cfgB, p, Read(side, env));
    var cfg, n, m, from, to :=
      if side.Initiator? then cfgA else cfgB, At(p, side),
      if side.Initiator? then p.toA[0] else p.toB[0],
      if side.Initiator? then p.toA else p.toB,
      if side.Initiator? then p.toB else p.toA;
    OtherFrame(cfg, n, m, env);
    var (next, out) := Receive(cfg, n, m, env);
    TailOfNoLink(from);
    if out.Some? {
      Append(to, out.value);
    }
    if out.Some? && IsLink(out.value) {
      assert Offered(q.b, q.a, q.toB, q.toA, q.log, out.value.proposal);
    } else {
      assert Quiet(q);
    }
  }

  lemma OtherKeepsHandshake(cfgA: Config, cfgB: Config, p: Pair, side: Side, env: Env)
    requires cfgA.initiator && !cfgB.initiator && Inv(p)
    requires side.Initiator? ==> p.toA != [] && !IsLink(p.toA[0])
    requires side.Responder? ==> p.toB != [] && !IsLink(p.toB[0])
    ensures
      var q := Step(cfgA, cfgB, p, Read(side, env));
      Handshake(q) && PeerBehaved(q.a) && PeerBehaved(q.b)
  {
    var cfg := if side.Initiator? then cfgA else cfgB;
    OtherFrame(cfg, At(p, side), if side.Initiator? then p.toA[0] else p.toB[0], env);
  }

  /** Reading a frame that is not about Links. */
  lemma OtherKeepsInv(cfgA: Config, cfgB: Config, p: Pair, side: Side, env: Env)
    requires cfgA.initiator && !cfgB.initiator && Inv(p)
    requires side.Initiator? ==> p.toA != [] && !IsLink(p.toA[0])
    requires side.Responder? ==> p.toB != [] && !IsLink(p.toB[0])
    ensures Inv(Step(cfgA, cfgB, p, Read(side, env)))
  {
    OtherKeepsHandshake(cfgA, cfgB, p, side, env);
    if Quiet(p) {
      OtherFromQuiet(cfgA, cfgB, p, side, env);
    } else {
      OtherKeepsOffer(cfgA, cfgB, p, side, env);
    }
  }

  /** A Link message in flight stays the only one while handshake frames move. */
  lemma OtherKeepsOffer(cfgA: Config, cfgB: Config, p: Pair, side: Side, env: Env)
    requires cfgA.initiator && !cfgB.initiator && Inv(p) && !Quiet(p)
    requires side.Initiator? ==> p.toA != [] && !IsLink(p.toA[0])
    requires side.Responder? ==> p.toB != [] && !IsLink(p.toB[0])
    ensures Turn(Step(cfgA, cfgB, p, Read(side, env)))
  {
    var q := Step(cfgA, cfgB, p, Read(side, env));
    var cfg, n, m, to := if side.Initiator? then cfgA else cfgB, At(p, side),
      if side.Initiator? then p.toA[0] else p.toB[0], if side.Initiator? then p.toB else p.toA;
    OtherFrame(cfg, n, m, env);
    var (next, out) := Receive(cfg, n, m, env);
    if x :| Offered(p.a, p.b, p.toA, p.toB, p.log, x) {
      KeepInFlight(p.toA, p.toB, side.Initiator?, LinkPropose(x), out);
      assert Offered(q.a, q.b, q.toA, q.toB, q.log, x);
    } else if x :| Offered(p.b, p.a, p.toB, p.toA, p.log, x) {
      KeepInFlight(p.toB, p.toA, side.Responder?, LinkPropose(x), out);
      assert Offered(q.b, q.a, q.toB, q.toA, q.log, x);
    } else if x :| Accepted(p.a, p.b, p.toA, p.toB, p.log, Responder, x) {
      KeepInFlight(p.toA, p.toB, side.Initiator?, LinkAccept, out);
      assert Accepted(q.a, q.b, q.toA, q.toB, q.log, Responder, x);
    } else {
      var x :| Accepted(p.b, p.a, p.toB, p.toA, p.log, Initiator, x);
      KeepInFlight(p.toB, p.toA, side.Responder?, LinkAccept, out);
      assert Accepted(q.b, q.a, q.toB, q.toA, q.log, Initiator, x);
    }
  }

  lemma KeepInFlight(ends: seq<Message>, rest: seq<Message>, fromEnds: bool, m: Message, out: Option<Message>)
    requires EndsWith(ends, m) && IsLink(m) && NoLink(rest)
    requires fromEnds ==> !IsLink(ends[0])
    requires !fromEnds ==> rest != []
    requires out.Some? ==> fromEnds && !IsLink(out.value)
    ensures fromEnds ==> EndsWith(ends[1..], m) && NoLink(rest + Written(out))
    ensures !fromEnds ==> NoLink(rest[1..]) && ends + Written(out) == ends
  {
    TailOfEndsWith(ends, m);
  }

  lemma HeadIsLink(ms: seq<Message>, m: Message)
    requires EndsWith(ms, m) && IsLink(ms[0])
    ensures ms == [m]
  {
    if |ms| > 1 {
      TailOfEndsWith(ms, m);
    }
  }

  /** The initiator reads the proposal that is in flight to it. */
  lemma InitiatorReadsProposal(cfgA: Config, cfgB: Config, p: Pair, env: Env, x: Proposal)
    requires Inv(p) && p.toA != [] && IsLink(p.toA[0]) && Offered(p.a, p.b, p.toA, p.toB, p.log, x)
    ensures Inv(Step(cfgA, cfgB, p, Read(Initiator, env)))
  {
    var q := Step(cfgA, cfgB, p, Read(Initiator, env));
    var (next, out) := Receive(cfgA, p.a, p.toA[0], env);
    HeadIsLink(p.toA, LinkPropose(x));
    ProposalFrame(cfgA, p.a, x, env);
    if out.Some? {
      Append(p.toB, out.value);
    }
    match out {
      case Some(LinkPropose(y)) => assert Offered(q.b, q.a, q.toB, q.toA, q.log, y);
      case Some(LinkAccept) => assert Accepted(q.b, q.a, q.toB, q.toA, q.log, Initiator, x);
      case None => QuietAfterCommit(q, Initiator, x);
    }
  }

  /** The initiator reads the acceptance that is in flight to it. */
  lemma InitiatorReadsAccept(cfgA: Config, cfgB: Config, p: Pair, env: Env, x: Proposal)
    requires Inv(p) && p.toA != [] && IsLink(p.toA[0])
    requires Accepted(p.a, p.b, p.toA, p.toB, p.log, Responder, x)
    ensures Inv(Step(cfgA, cfgB, p, Read(Initiator, env)))
  {
    var q := Step(cfgA, cfgB, p, Read(Initiator, env));
    var (next, out) := Receive(cfgA, p.a, p.toA[0], env);
    HeadIsLink(p.toA, LinkAccept);
    AcceptFrame(cfgA, p.a, x, env);
    assert q.log == [Commit(Responder, Acceptor, x)]
        + (if next.committed.None? then [] else [Commit(Initiator, Proposer, x)]);
    QuietAfterAccept(q, Responder, x);
  }

  lemma InitiatorLinkFrame(cfgA: Config, cfgB: Config, p: Pair, env: Env)
    requires Inv(p) && p.toA != [] && IsLink(p.toA[0])
    ensures Inv(Step(cfgA, cfgB, p, Read(Initiator, env)))
  {
    if x :| Offered(p.a, p.b, p.toA, p.toB, p.log, x) {
      InitiatorReadsProposal(cfgA, cfgB, p, env, x);
    } else {
      var x :| Accepted(p.a, p.b, p.toA, p.toB, p.log, Responder, x);
      InitiatorReadsAccept(cfgA, cfgB, p, env, x);
    }
  }

  /** The responder reads the proposal that is in flight to it. */
  lemma ResponderReadsProposal(cfgA: Config, cfgB: Config, p: Pair, env: Env, x: Proposal)
    requires Inv(p) && p.toB != [] && IsLink(p.toB[0]) && Offered(p.b, p.a, p.toB, p.toA, p.log, x)
    ensures Inv(Step(cfgA, cfgB, p, Read(Responder, env)))
  {
    var q := Step(cfgA, cfgB, p, Read(Responder, env));
    var (next, out) := Receive(cfgB, p.b, p.toB[0], env);
    HeadIsLink(p.toB, LinkPropose(x));
    assert p.a.session.stateReceived;
    ProposalFrame(cfgB, p.b, x, env);
    if out.Some? {
      Append(p.toA, out.value);
    }
    match out {
      case Some(LinkPropose(y)) => assert Offered(q.a, q.b, q.toA, q.toB, q.log, y);
      case Some(LinkAccept) => assert Accepted(q.a, q.b, q.toA, q.toB, q.log, Responder, x);
      case None => QuietAfterCommit(q, Responder, x);
    }
  }

  /** The responder reads the acceptance that is in flight to it. */
  lemma ResponderReadsAccept(cfgA: Config, cfgB: Config, p: Pair, env: Env, x: Proposal)
    requires Inv(p) && p.toB != [] && IsLink(p.toB[0])
    requires Accepted(p.b, p.a, p.toB, p.toA, p.log, Initiator, x)
    ensures Inv(Step(cfgA, cfgB, p, Read(Responder, env)))
  {
    var q := Step(cfgA, cfgB, p, Read(Responder, env));
    var (next, out) := Receive(cfgB, p.b, p.toB[0], env);
    HeadIsLink(p.toB, LinkAccept);
    AcceptFrame(cfgB, p.b, x, env);
    assert q.log == [Commit(Initiator, Acceptor, x)]
        + (if next.committed.None? then [] else [Commit(Responder, Proposer, x)]);
    QuietAfterAccept(q, Initiator, x);
  }

  lemma ResponderLinkFrame(cfgA: Config, cfgB: Config, p: Pair, env: Env)
    requires Inv(p) && p.toB != [] && IsLink(p.toB[0])
    ensures Inv(Step(cfgA, cfgB, p, Read(Responder, env)))
  {
    if x :| Offered(p.b, p.a, p.toB, p.toA, p.log, x) {
      ResponderReadsProposal(cfgA, cfgB, p, env, x);
    } else {
      var x :| Accepted(p.b, p.a, p.toB, p.toA, p.log, Initiator, x);
      ResponderReadsAccept(cfgA, cfgB, p, env, x);
    }
  }

  lemma QuietAfterCommit(q: Pair, side: Side, x: Proposal)
    requires NoLink(q.toA) && NoLink(q.toB)
    requires At(q, Peer(side)).committed.None?
    requires
      || (At(q, side).committed == None && q.log == [])
      || (At(q, side).committed == Some(x) && q.log == [Commit(side, Acceptor, x)])
    ensures Quiet(q)
  {
  }

  lemma QuietAfterAccept(q: Pair, side: Side, x: Proposal)
    requires NoLink(q.toA) && NoLink(q.toB)
    requires At(q, side).committed == Some(x)
    requires
      || (At(q, Peer(side)).committed == None && q.log == [Commit(side, Acceptor, x)])
      || (At(q, Peer(side)).committed == Some(x)
          && q.log == [Commit(side, Acceptor, x), Commit(Peer(side), Proposer, x)])
    ensures Quiet(q)
  {
  }

  lemma StepKeepsInv(cfgA: Config, cfgB: Config, p: Pair, e: Event)
    requires cfgA.initiator && !cfgB.initiator && Inv(p)
    ensures Inv(Step(cfgA, cfgB, p, e))
  {
    match e {
      case Fail(side) => FailKeepsInv(cfgA, cfgB, p, side);
      case Read(Initiator, env) =>
        if p.toA != [] {
          if IsLink(p.toA[0]) {
            InitiatorLinkFrame(cfgA, cfgB, p, env);
          } else {
            OtherKeepsInv(cfgA, cfgB, p, Initiator, env);
          }
        }
      case Read(Responder, env) =>
        if p.toB != [] {
          if IsLink(p.toB[0]) {
            ResponderLinkFrame(cfgA, cfgB, p, env);
          } else {
            OtherKeepsInv(cfgA, cfgB, p, Responder, env);
          }
        }
    }
  }

  lemma {:induction false} RunKeepsInv(cfgA: Config, cfgB: Config, events: seq<Event>)
    requires cfgA.initiator && !cfgB.initiator
    ensures Inv(Run(cfgA, cfgB, events))
  {
    if events == [] {
      assert Quiet(Start(cfgA, cfgB));
    } else {
      RunKeepsInv(cfgA, cfgB, events[..|events| - 1]);
      StepKeepsInv(cfgA, cfgB, Run(cfgA, cfgB, events[..|events| - 1]), events[|events| - 1]);
    }
  }

  // ---------------------------------------------------------------- agreement over every run

  /** Whatever the two ends derive, accept, fail to commit or fail to send: the commits of a run
      are none, the acceptor's alone, or the acceptor's followed by the proposer's of the same proposal. */
  lemma CommitsAgree(cfgA: Config, cfgB: Config, events: seq<Event>)
    requires cfgA.initiator && !cfgB.initiator
    ensures LogShape(Run(cfgA, cfgB, events))
    ensures
      var p := Run(cfgA, cfgB, events);
      p.a.committed.Some? && p.b.committed.Some? ==> p.a.committed == p.b.committed
  {
    RunKeepsInv(cfgA, cfgB, events);
    var p := Run(cfgA, cfgB, events);
    if x :| Accepted(p.a, p.b, p.toA, p.toB, p.log, Responder, x) {
    } else if x :| Accepted(p.b, p.a, p.toB, p.toA, p.log, Initiator, x) {
    }
  }

  /** Two ends running this code never close on "peer repeated" or "no distinct counterproposal". */
  lemma PeersNeverRepeat(cfgA: Config, cfgB: Config, events: seq<Event>)
    requires cfgA.initiator && !cfgB.initiator
    ensures var p := Run(cfgA, cfgB, events); PeerBehaved(p.a) && PeerBehaved(p.b)
  {
    RunKeepsInv(cfgA, cfgB, events);
  }
}
