/** One end of a link-bound VFP session: the session and Link state machines of
    internal/vfp/engine/engine.go, as a class updated in place and as the
    functions it is proved against. */
module Negotiation {
  import opened Common
  import opened Net

  const MAX_COUNTERPROPOSALS: nat := 64

  type Uuid = nat

  datatype Proposal = Proposal(v4: Option<Prefix>, v6: Option<Prefix>)

  datatype Context = LinkBound | Routed

  datatype Message =
    | Open(uid: Option<Uuid>)
    | NodeState(loopback: Option<Address>)
    | LinkPropose(proposal: Proposal)
    | LinkAccept
    | DurablePropose
    | Other

  datatype Error =
    | NotOpen
    | SameUuid
    | ExpectedNodeState
    | LoopbackOutsidePool
    | LoopbackMismatch
    | BadFirstMessage
    | ExpectedProposal
    | ExpectedResponse
    | NoActiveTransition
    | OutsidePool
    | RepeatedProposal
    | NoDistinctCounter
    | NoAcceptableCounter
    | DeriveFailed
    | CommitFailed
    | SendFailed
    | Cancelled

  /** derive(remote, attempt) stands for DeriveProposal with this end's keys, pools and overrides. */
  datatype Config = Config(
    initiator: bool,
    context: Context,
    localUid: Uuid,
    localLoopback: Option<Address>,
    expectedLoopback: Option<Address>,
    poolV4: Option<Prefix>,
    poolV6: Option<Prefix>,
    loopbackPool: Option<Prefix>,
    firstMessage: Option<Message>,
    derive: (Uuid, nat) -> Option<Proposal>)

  datatype Link = Link(
    remoteUid: Uuid,
    waitingForProposal: bool,
    waitingForResponse: bool,
    outstanding: Proposal,
    attempt: nat,
    seen: set<Proposal>,
    pendingCommit: Option<Proposal>,
    established: bool)

  datatype Session = Session(
    hasOpen: bool,
    stateReceived: bool,
    remoteUid: Uuid,
    remoteLoopback: Option<Address>,
    link: Option<Link>,
    operational: bool)

  /** What a transition asks the event loop to do: send, drop the frame, or close. */
  datatype Reply = Send(message: Option<Message>) | Discard(error: Error) | Close(error: Error)

  const EMPTY_SESSION := Session(false, false, 0, None, None, false)

  function NewLink(remote: Uuid): Link {
    Link(remote, false, false, Proposal(None, None), 0, {}, None, false)
  }

  // ---------------------------------------------------------------- pools

  predicate WithinPool(prefix: Option<Prefix>, pool: Option<Prefix>) {
    prefix.None? || (pool.Some? && Within(prefix.value, pool.value))
  }

  predicate WithinPools(cfg: Config, p: Proposal) {
    WithinPool(p.v4, cfg.poolV4) && WithinPool(p.v6, cfg.poolV6)
  }

  predicate LoopbackAllowed(cfg: Config, loopback: Option<Address>) {
    loopback.None? || (cfg.loopbackPool.Some? && Contains(cfg.loopbackPool.value, loopback.value))
  }

  // ---------------------------------------------------------------- transitions

  /** The next derived proposal that is neither known to this session nor unacceptable here. */
  function NextProposal(cfg: Config, link: Link, accept: Proposal -> bool): (Link, Result<Proposal, Error>)
    decreases MAX_COUNTERPROPOSALS - link.attempt
  {
    if link.attempt >= MAX_COUNTERPROPOSALS then
      (link, Err(NoAcceptableCounter))
    else
      var next := link.(attempt := link.attempt + 1);
      match cfg.derive(link.remoteUid, link.attempt)
      case None => (next, Err(DeriveFailed))
      case Some(p) =>
        if p in link.seen || !accept(p) then NextProposal(cfg, next, accept)
        else (next.(seen := link.seen + {p}), Ok(p))
  }

  function HandleProposal(cfg: Config, link: Link, p: Proposal, accept: Proposal -> bool): (Link, Reply) {
    if !WithinPools(cfg, p) then
      (link, Discard(OutsidePool))
    else if p in link.seen then
      (link, Close(RepeatedProposal))
    else
      var noted := link.(seen := link.seen + {p});
      if accept(p) then
        (noted.(pendingCommit := Some(p), waitingForProposal := false, waitingForResponse := false),
         Send(Some(LinkAccept)))
      else
        var (next, counter) := NextProposal(cfg, noted, accept);
        match counter
        case Err(e) => (next, Close(e))
        case Ok(c) =>
          if c == p then (next, Close(NoDistinctCounter))
          else (next.(outstanding := c, waitingForProposal := false, waitingForResponse := true),
                Send(Some(LinkPropose(c))))
  }

  function HandleLink(cfg: Config, link: Link, m: Message, accept: Proposal -> bool): (Link, Reply) {
    if link.waitingForProposal then
      if m.LinkPropose? then HandleProposal(cfg, link, m.proposal, accept)
      else (link, Discard(ExpectedProposal))
    else if link.waitingForResponse then
      match m
      case LinkAccept =>
        (link.(pendingCommit := Some(link.outstanding), waitingForResponse := false), Send(None))
      case LinkPropose(p) => HandleProposal(cfg, link, p, accept)
      case _ => (link, Discard(ExpectedResponse))
    else
      (link, Discard(NoActiveTransition))
  }

  function StartLink(cfg: Config, link: Link, accept: Proposal -> bool): (Link, Reply) {
    if cfg.initiator then
      var (next, first) := NextProposal(cfg, link, accept);
      match first
      case Err(e) => (next, Close(e))
      case Ok(p) => (next.(outstanding := p, waitingForResponse := true), Send(Some(LinkPropose(p))))
    else
      (link.(waitingForProposal := true), Send(None))
  }

  function HandleOpen(cfg: Config, s: Session, m: Message): (Session, Reply) {
    if !m.Open? || m.uid.None? then
      (s, Close(NotOpen))
    else if m.uid.value == cfg.localUid then
      (s, Close(SameUuid))
    else
      (s.(remoteUid := m.uid.value, hasOpen := true), Send(Some(NodeState(cfg.localLoopback))))
  }

  function HandleNodeState(cfg: Config, s: Session, m: Message, accept: Proposal -> bool): (Session, Reply) {
    if !m.NodeState? then
      (s, Discard(ExpectedNodeState))
    else if !LoopbackAllowed(cfg, m.loopback) then
      (s, Discard(LoopbackOutsidePool))
    else
      var known := s.(stateReceived := true, remoteLoopback := m.loopback);
      if cfg.context.Routed? then
        if cfg.expectedLoopback.Some? && m.loopback != cfg.expectedLoopback then (known, Close(LoopbackMismatch))
        else (known.(operational := true), Send(None))
      else if cfg.initiator && cfg.firstMessage.Some? then
        if !cfg.firstMessage.value.DurablePropose? then (known, Close(BadFirstMessage))
        else (known.(operational := true), Send(cfg.firstMessage))
      else
        var (link, reply) := StartLink(cfg, NewLink(s.remoteUid), accept);
        (known.(link := Some(link)), reply)
  }

  function Handle(cfg: Config, s: Session, m: Message, accept: Proposal -> bool): (Session, Reply) {
    if !s.hasOpen then
      HandleOpen(cfg, s, m)
    else if !s.stateReceived then
      HandleNodeState(cfg, s, m, accept)
    else if s.link.None? then
      (s, Discard(NoActiveTransition))
    else if !cfg.initiator && s.link.value.waitingForProposal && m.DurablePropose? then
      (s.(link := None, operational := true), Send(None))
    else
      var (link, reply) := HandleLink(cfg, s.link.value, m, accept);
      (s.(link := Some(link)), reply)
  }

  // ---------------------------------------------------------------- facts about one transition

  /** What the search for a counterproposal promises, in both outcomes. */
  lemma {:induction false} NextProposalFinds(cfg: Config, link: Link, accept: Proposal -> bool)
    ensures
      var (next, found) := NextProposal(cfg, link, accept);
      && next == link.(attempt := next.attempt, seen := next.seen)
      && link.attempt <= next.attempt
      && (link.attempt <= MAX_COUNTERPROPOSALS ==> next.attempt <= MAX_COUNTERPROPOSALS)
      && (match found
          case Ok(p) =>
            && p !in link.seen && accept(p) && next.seen == link.seen + {p}
            && link.attempt < next.attempt <= MAX_COUNTERPROPOSALS
            && cfg.derive(link.remoteUid, next.attempt - 1) == Some(p)
            && Skipped(cfg, link, accept, link.attempt, next.attempt - 1)
          case Err(e) =>
            && next.seen == link.seen
            && (e == NoAcceptableCounter ==>
                  next.attempt >= MAX_COUNTERPROPOSALS && Skipped(cfg, link, accept, link.attempt, next.attempt))
            && (e == DeriveFailed ==>
                  exists k :: link.attempt <= k < MAX_COUNTERPROPOSALS && cfg.derive(link.remoteUid, k) == None)
            && (e == NoAcceptableCounter || e == DeriveFailed))
    decreases MAX_COUNTERPROPOSALS - link.attempt
  {
    if link.attempt < MAX_COUNTERPROPOSALS {
      var d := cfg.derive(link.remoteUid, link.attempt);
      if d.Some? && (d.value in link.seen || !accept(d.value)) {
        NextProposalFinds(cfg, link.(attempt := link.attempt + 1), accept);
      }
    }
  }

  /** Every derived proposal of the range was already seen or is unacceptable here. */
  ghost predicate Skipped(cfg: Config, link: Link, accept: Proposal -> bool, low: nat, high: nat) {
    forall j :: low <= j < high ==>
      var d := cfg.derive(link.remoteUid, j);
      d.Some? && (d.value in link.seen || !accept(d.value))
  }

  /** A counterproposal always differs from what it answers: "no distinct counterproposal" is dead code. */
  lemma CounterIsDistinct(cfg: Config, link: Link, p: Proposal, accept: Proposal -> bool)
    ensures HandleProposal(cfg, link, p, accept).1 != Close(NoDistinctCounter)
  {
    NextProposalFinds(cfg, link.(seen := link.seen + {p}), accept);
  }

  // ---------------------------------------------------------------- the event loop

  datatype Status = Running | Closed(error: Option<Error>)

  /** What the loop has done so far: `committed` is the proposal passed to Commit, `proposals`
      counts the LINK_PROPOSE messages sent, `discards` lists the frames dropped. */
  datatype Node = Node(
    session: Session,
    status: Status,
    committed: Option<Proposal>,
    proposals: nat,
    discards: seq<Error>)

  const FRESH_NODE := Node(EMPTY_SESSION, Running, None, 0, [])

  /** The outcome of the callbacks and of the write while one frame is handled. */
  datatype Env = Env(accept: Proposal -> bool, commitOk: bool, sendOk: bool)

  /** One event from the reader goroutine. */
  datatype Input = Frame(message: Message, env: Env) | InvalidFrame | ReadFailed

  function Receive(cfg: Config, n: Node, m: Message, env: Env): (Node, Option<Message>) {
    if !n.status.Running? || n.session.operational then
      (n, None)
    else
      var (s, reply) := Handle(cfg, n.session, m, env.accept);
      match reply
      case Close(e) => (n.(session := s, status := Closed(Some(e))), None)
      case Discard(e) => (n.(session := s, discards := n.discards + [e]), None)
      case Send(out) => Deliver(cfg, n.(session := s), out, env)
  }

  /** Commit first, then send, then leave a finished link-bound session. */
  function Deliver(cfg: Config, n: Node, out: Option<Message>, env: Env): (Node, Option<Message>) {
    var (taken, commit) := TakeCommit(n.session);
    if commit.Some? && !env.commitOk then
      (n.(session := taken, status := Closed(Some(CommitFailed))), None)
    else
      var done := if commit.None? then n.(session := taken)
                  else n.(session := MarkEstablished(taken), committed := commit);
      if out.Some? && !env.sendOk then
        (done.(status := Closed(Some(SendFailed))), None)
      else
        var sent := done.(proposals := done.proposals + if out.Some? && out.value.LinkPropose? then 1 else 0);
        var s := sent.session;
        if s.operational && cfg.context.LinkBound? && s.link.Some? && s.link.value.established then
          (sent.(status := Closed(None)), out)
        else
          (sent, out)
  }

  function TakeCommit(s: Session): (Session, Option<Proposal>) {
    if s.link.None? || s.link.value.pendingCommit.None? then (s, None)
    else (s.(link := Some(s.link.value.(pendingCommit := None))), s.link.value.pendingCommit)
  }

  function MarkEstablished(s: Session): Session
  {
    if s.link.None? then s
    else s.(link := Some(s.link.value.(established := true)), operational := true)
  }

  function Process(cfg: Config, n: Node, input: Input): (Node, seq<Message>) {
    match input
    case Frame(m, env) =>
      var (next, out) := Receive(cfg, n, m, env);
      (next, if out.Some? then [out.value] else [])
    case InvalidFrame =>
      if n.status.Running? && !n.session.hasOpen then (n.(status := Closed(Some(NotOpen))), []) else (n, [])
    case ReadFailed =>
      if n.status.Running? then (n.(status := Closed(Some(Cancelled))), []) else (n, [])
  }

  /** The node and the messages written after a whole sequence of events. */
  function ProcessAll(cfg: Config, n: Node, inputs: seq<Input>): (Node, seq<Message>) {
    if inputs == [] then (n, [])
    else
      var (before, sent) := ProcessAll(cfg, n, inputs[..|inputs| - 1]);
      var (after, more) := Process(cfg, before, inputs[|inputs| - 1]);
      (after, sent + more)
  }

  // ---------------------------------------------------------------- the objects the session updates

  class StaticLink {
    const config: Config
    const remoteUid: Uuid
    var waitingForProposal: bool
    var waitingForResponse: bool
    var outstanding: Proposal
    var attempt: nat
    var seen: set<Proposal>
    var pendingCommit: Option<Proposal>
    var established: bool

    constructor (config: Config, remoteUid: Uuid)
      ensures this.config == config && State() == NewLink(remoteUid)
    {
      this.config, this.remoteUid := config, remoteUid;
      waitingForProposal, waitingForResponse := false, false;
      outstanding, attempt, seen := Proposal(None, None), 0, {};
      pendingCommit, established := None, false;
    }

    function State(): Link
      reads this
    {
      Link(remoteUid, waitingForProposal, waitingForResponse, outstanding, attempt, seen, pendingCommit, established)
    }

    method FindProposal(accept: Proposal -> bool) returns (r: Result<Proposal, Error>)
      modifies this
      ensures (State(), r) == NextProposal(config, old(State()), accept)
    {
      ghost var before := State();
      while attempt < MAX_COUNTERPROPOSALS
        invariant NextProposal(config, State(), accept) == NextProposal(config, before, accept)
        decreases MAX_COUNTERPROPOSALS - attempt
      {
        var derived := config.derive(remoteUid, attempt);
        attempt := attempt + 1;
        if derived.None? {
          return Err(DeriveFailed);
        }
        var p := derived.value;
        if p in seen || !accept(p) {
          continue;
        }
        seen := seen + {p};
        return Ok(p);
      }
      return Err(NoAcceptableCounter);
    }

    method Start(accept: Proposal -> bool) returns (reply: Reply)
      modifies this
      ensures (State(), reply) == StartLink(config, old(State()), accept)
    {
      if config.initiator {
        var first := FindProposal(accept);
        if first.Err? {
          return Close(first.error);
        }
        outstanding, waitingForResponse := first.value, true;
        return Send(Some(LinkPropose(first.value)));
      }
      waitingForProposal := true;
      return Send(None);
    }

    method OnProposal(p: Proposal, accept: Proposal -> bool) returns (reply: Reply)
      modifies this
      ensures (State(), reply) == HandleProposal(config, old(State()), p, accept)
    {
      if !WithinPools(config, p) {
        return Discard(OutsidePool);
      }
      if p in seen {
        return Close(RepeatedProposal);
      }
      seen := seen + {p};
      if accept(p) {
        pendingCommit := Some(p);
        waitingForProposal, waitingForResponse := false, false;
        return Send(Some(LinkAccept));
      }
      var counter := FindProposal(accept);
      if counter.Err? {
        return Close(counter.error);
      }
      if counter.value == p {
        return Close(NoDistinctCounter);
      }
      outstanding, waitingForProposal, waitingForResponse := counter.value, false, true;
      return Send(Some(LinkPropose(counter.value)));
    }

    method OnMessage(m: Message, accept: Proposal -> bool) returns (reply: Reply)
      modifies this
      ensures (State(), reply) == HandleLink(config, old(State()), m, accept)
    {
      if waitingForProposal {
        if !m.LinkPropose? {
          return Discard(ExpectedProposal);
        }
        reply := OnProposal(m.proposal, accept);
      } else if waitingForResponse {
        match m {
          case LinkAccept =>
            pendingCommit := Some(outstanding);
            waitingForResponse := false;
            return Send(None);
          case LinkPropose(p) =>
            reply := OnProposal(p, accept);
          case _ =>
            return Discard(ExpectedResponse);
        }
      } else {
        return Discard(NoActiveTransition);
      }
    }
  }

  class SessionFsm {
    const config: Config
    var hasOpen: bool
    var stateReceived: bool
    var remoteUid: Uuid
    var remoteLoopback: Option<Address>
    var link: StaticLink?
    var operational: bool

    constructor (config: Config)
      ensures this.config == config && link == null && State() == EMPTY_SESSION
    {
      this.config := config;
      hasOpen, stateReceived, remoteUid, remoteLoopback := false, false, 0, None;
      link, operational := null, false;
    }

    ghost predicate Valid()
      reads this
    {
      link != null ==> link.config == config
    }

    function State(): Session
      reads this, link
    {
      Session(hasOpen, stateReceived, remoteUid, remoteLoopback,
              if link == null then None else Some(link.State()), operational)
    }

    method OnOpen(m: Message) returns (reply: Reply)
      requires Valid()
      modifies this
      ensures Valid() && link == old(link)
      ensures (State(), reply) == HandleOpen(config, old(State()), m)
    {
      if !m.Open? || m.uid.None? {
        return Close(NotOpen);
      }
      if m.uid.value == config.localUid {
        return Close(SameUuid);
      }
      remoteUid, hasOpen := m.uid.value, true;
      return Send(Some(NodeState(config.localLoopback)));
    }

    method OnNodeState(m: Message, accept: Proposal -> bool) returns (reply: Reply)
      requires Valid()
      modifies this
      ensures Valid() && (link == old(link) || fresh(link))
      ensures (State(), reply) == HandleNodeState(config, old(State()), m, accept)
    {
      if !m.NodeState? {
        return Discard(ExpectedNodeState);
      }
      if !LoopbackAllowed(config, m.loopback) {
        return Discard(LoopbackOutsidePool);
      }
      stateReceived, remoteLoopback := true, m.loopback;
      if config.context.Routed? {
        if config.expectedLoopback.Some? && m.loopback != config.expectedLoopback {
          return Close(LoopbackMismatch);
        }
        operational := true;
        return Send(None);
      }
      if config.initiator && config.firstMessage.Some? {
        if !config.firstMessage.value.DurablePropose? {
          return Close(BadFirstMessage);
        }
        operational := true;
        return Send(config.firstMessage);
      }
      link := new StaticLink(config, remoteUid);
      reply := link.Start(accept);
    }

    method OnMessage(m: Message, accept: Proposal -> bool) returns (reply: Reply)
      requires Valid()
      modifies this, link
      ensures Valid() && (link == null || link == old(link) || fresh(link))
      ensures (State(), reply) == Handle(config, old(State()), m, accept)
    {
      if !hasOpen {
        reply := OnOpen(m);
      } else if !stateReceived {
        reply := OnNodeState(m, accept);
      } else if link == null {
        reply := Discard(NoActiveTransition);
      } else if !config.initiator && link.waitingForProposal && m.DurablePropose? {
        link, operational := null, true;
        reply := Send(None);
      } else {
        reply := link.OnMessage(m, accept);
      }
    }
  }

  /** The Run loop: it owns the session and acts on each read event in turn. */
  class Engine {
    const config: Config
    const fsm: SessionFsm
    var status: Status
    var committed: Option<Proposal>
    var proposals: nat
    var discards: seq<Error>

    constructor (config: Config)
      ensures this.config == config && fresh(fsm) && Valid() && fsm.link == null && State() == FRESH_NODE
    {
      this.config := config;
      fsm := new SessionFsm(config);
      status, committed, proposals, discards := Running, None, 0, [];
    }

    ghost predicate Valid()
      reads this, fsm
    {
      fsm.config == config && fsm.Valid()
    }

    function State(): Node
      reads this, fsm, fsm.link
    {
      Node(fsm.State(), status, committed, proposals, discards)
    }

    method OnFrame(m: Message, env: Env) returns (out: Option<Message>)
      requires Valid()
      modifies this, fsm, fsm.link
      ensures Valid() && (fsm.link == null || fsm.link == old(fsm.link) || fresh(fsm.link))
      ensures (State(), out) == Receive(config, old(State()), m, env)
    {
      if !status.Running? || fsm.operational {
        return None;
      }
      var reply := fsm.OnMessage(m, env.accept);
      match reply {
        case Close(e) =>
          status := Closed(Some(e));
          return None;
        case Discard(e) =>
          discards := discards + [e];
          return None;
        case Send(message) =>
          out := Act(message, env);
      }
    }

    /** Commit before sending: the peer sees an acceptance only after it is installed here. */
    method Act(message: Option<Message>, env: Env) returns (out: Option<Message>)
      requires Valid()
      modifies this, fsm, fsm.link
      ensures Valid() && fsm.link == old(fsm.link)
      ensures (State(), out) == Deliver(config, old(State()), message, env)
    {
      var commit := None;
      if fsm.link != null && fsm.link.pendingCommit.Some? {
        commit := fsm.link.pendingCommit;
        fsm.link.pendingCommit := None;
        if !env.commitOk {
          status := Closed(Some(CommitFailed));
          return None;
        }
        committed := commit;
        fsm.link.established, fsm.operational := true, true;
      }
      out := message;
      if out.Some? {
        if !env.sendOk {
          status := Closed(Some(SendFailed));
          return None;
        }
        if out.value.LinkPropose? {
          proposals := proposals + 1;
        }
      }
      if fsm.operational && config.context.LinkBound? && fsm.link != null && fsm.link.established {
        status := Closed(None);
      }
    }

    method Run(inputs: seq<Input>) returns (sent: seq<Message>)
      requires Valid()
      modifies this, fsm, fsm.link
      ensures Valid() && (State(), sent) == ProcessAll(config, old(State()), inputs)
    {
      sent := [];
      assert inputs[..0] == [];
      for i := 0 to |inputs|
        invariant Valid() && (fsm.link == null || fsm.link == old(fsm.link) || fresh(fsm.link))
        invariant (State(), sent) == ProcessAll(config, old(State()), inputs[..i])
      {
        assert inputs[..i + 1][..i] == inputs[..i];
        assert sent + [] == sent;
        match inputs[i] {
          case Frame(m, env) =>
            var out := OnFrame(m, env);
            sent := sent + if out.Some? then [out.value] else [];
          case InvalidFrame =>
            if status.Running? && !fsm.hasOpen {
              status := Closed(Some(NotOpen));
            }
          case ReadFailed =>
            if status.Running? {
              status := Closed(Some(Cancelled));
            }
        }
      }
      assert inputs[..|inputs|] == inputs;
    }
  }
}
