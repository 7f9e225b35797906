/** Two nodes that hold, or may take, one unfinished agreement: every order in which they start, connect and read. An
    exchange is finished at both ends unless each end was drawn away from its own by the other's. */
module DurableResume {
  import opened Common
  import opened Net
  import opened DurableTimers
  import opened Durable
  import DurableRuns

  // ---------------------------------------------------------------- the two ends

  datatype Side = Left | Right

  function Other(side: Side): Side {
    if side.Left? then Right else Left
  }

  /** One node with its Link to the other, the session it would open, and its state before anything happens. */
  datatype Party = Party(cfg: Config, link: LinkState, plan: Plan, session: SessionId, start: Manager)

  /** The agreement and the span of time in which everything happens. */
  datatype Setup = Setup(left: Party, right: Party, id: Id, fixed: seq<Fixed>, from: Time, until: Time)

  function Of(u: Setup, side: Side): Party {
    if side.Left? then u.left else u.right
  }

  function Peer(u: Setup, side: Side): Uuid {
    Of(u, Other(side)).cfg.own
  }

  /** A node, the first message of a session it is opening, and what is unread on its own session: `out` sent by it,
      `back` by the other. `sent` once its proposal is out, `answered` once it has read a SAVED on its own session, and
      `drawn` if it read the other's proposal between the two. */
  datatype Half = Half(
    m: Manager, dial: Option<Message>, out: seq<Message>, back: seq<Message>, sent: bool, answered: bool, drawn: bool)

  datatype Pair = Pair(left: Half, right: Half)

  function At(p: Pair, side: Side): Half {
    if side.Left? then p.left else p.right
  }

  function With(p: Pair, side: Side, h: Half): Pair {
    if side.Left? then p.(left := h) else p.(right := h)
  }

  datatype Event =
    | Tick(side: Side, env: Env)
    | Connect(side: Side, loopback: Option<Address>)
    | Read(session: Side, reader: Side, loopback: Option<Address>, env: Env)

  function Begin(u: Setup): Pair {
    Pair(Half(u.left.start, None, [], [], false, false, false), Half(u.right.start, None, [], [], false, false, false))
  }

  function Ticked(a: Party, h: Half, env: Env): Half {
    var (next, first) := TickLink(a.cfg, h.m, a.link, env);
    h.(m := next, dial := if first.Some? then first else h.dial)
  }

  /** The session is open; an operation that has been replaced meanwhile refuses it. */
  function Connected(a: Party, h: Half, loopback: Option<Address>): Half {
    if h.dial.None? then h
    else if h.dial.value.Propose? && a.link.remote in h.m.operations && h.m.operations[a.link.remote].outgoing
         && h.m.operations[a.link.remote].session.None?
         && h.m.operations[a.link.remote].record.id == h.dial.value.id then
      h.(m := DurableRuns.Opened(h.m, DurableRuns.Dial(a.cfg.own, a.link.remote, h.dial.value), a.session, loopback),
         dial := None, out := h.out + [h.dial.value], sent := true)
    else h.(dial := None)
  }

  /** The next message for the reader on the session that one end opened. */
  function Inbox(h: Half, own: bool): seq<Message> {
    if own then h.back else h.out
  }

  /** The reader after a message on its own session or the other's. */
  function Learned(h: Half, own: bool, message: Message, m: Manager): Half {
    h.(m := m, answered := h.answered || (own && message.Saved?),
       drawn := h.drawn || (!own && message.Propose? && h.sent && !h.answered))
  }

  /** The session after its reader took one message and perhaps answered. */
  function Advanced(h: Half, own: bool, answer: Option<Message>): Half
    requires Inbox(h, own) != []
  {
    var more := if answer.Some? then [answer.value] else [];
    if own then h.(back := h.back[1..], out := h.out + more) else h.(out := h.out[1..], back := h.back + more)
  }

  function Handled(u: Setup, p: Pair, e: Event): Outcome
    requires e.Read? && Inbox(At(p, e.session), e.session == e.reader) != []
  {
    var a := Of(u, e.reader);
    HandleLink(a.cfg, At(p, e.reader).m, a.plan, a.link.remote, Of(u, e.session).session, e.loopback,
               Inbox(At(p, e.session), e.session == e.reader)[0], e.env)
  }

  function Step(u: Setup, p: Pair, e: Event): Pair {
    match e
    case Tick(side, env) => With(p, side, Ticked(Of(u, side), At(p, side), env))
    case Connect(side, loopback) => With(p, side, Connected(Of(u, side), At(p, side), loopback))
    case Read(session, reader, _, _) =>
      var own := session == reader;
      if Inbox(At(p, session), own) == [] then p
      else
        var o := Handled(u, p, e);
        var heard := With(p, reader, Learned(At(p, reader), own, Inbox(At(p, session), own)[0], o.m));
        With(heard, session, Advanced(At(heard, session), own, o.out))
  }

  function Run(u: Setup, events: seq<Event>): Pair {
    if events == [] then Begin(u) else Step(u, Run(u, events[..|events| - 1]), events[|events| - 1])
  }

  // ---------------------------------------------------------------- what is assumed

  /** The Link really uses every endpoint the agreement fixed, as this node sees it. */
  predicate Unmoved(cfg: Config, fixed: seq<Fixed>, peer: Uuid, o: Observation) {
    forall f | f in fixed ::
      if f.uuid == cfg.own then FixedFor(fixed, cfg.own) == Some(f.endpoint) && f.endpoint == o.local
          && f.endpoint.port == o.port
      else f.uuid == peer && f.endpoint == o.remote
  }

  /** Every callback, write and send works. */
  predicate Working(env: Env) {
    && env.linkCurrent && env.allowsInbound && env.firstWrite.Stored? && env.secondWrite.Stored?
    && env.healthyAfterSave && env.healthyAtEnd && env.sendOk
  }

  predicate InTime(u: Setup, now: Time) {
    u.from <= now < u.until
  }

  function OthersReserving(m: Manager, peer: Uuid): set<Uuid> {
    set p | p in m.operations && p !in m.records && p != peer
  }

  /** A node without the agreement has room for it and would add no endpoint of its own. */
  predicate Admits(u: Setup, side: Side, o: Observation) {
    var a := Of(u, side);
    && |a.start.records| < MAX_DYNAMIC_LINKS
    && |a.start.records| + |OthersReserving(a.start, Peer(u, side))| < a.cfg.softLimit
    && (if FixedFor(u.fixed, a.cfg.own).Some? then u.from - o.since >= a.cfg.stable && o.local.port == o.port
        else u.until - o.since <= a.cfg.stable || o.local.port != o.port)
  }

  /** The node holds the agreement, confirmed or not, or may take it; its Link is healthy all the while and no earlier
      operation with the peer is alive. */
  predicate PartyReady(u: Setup, side: Side) {
    var a, peer := Of(u, side), Peer(u, side);
    var m, i := a.start, a.link.interface;
    && a.link.remote == peer && a.plan.interface == i && a.link.dynamic && a.link.active
    && !m.closed && (peer in m.cooldown ==> m.cooldown[peer] <= u.from)
    && (peer in m.operations ==> m.operations[peer].until <= u.from)
    && i in m.observations && m.observations[i].control.Some?
    && m.observations[i].seen <= u.from && u.until - m.observations[i].seen <= LINK_FAILURE_TIMEOUT
    && Unmoved(a.cfg, u.fixed, peer, m.observations[i])
    && (if peer in m.records then
          && m.records[peer].peer == peer && m.records[peer].id == u.id && m.records[peer].fixed == u.fixed
          && peer in m.disk && m.disk[peer] == m.records[peer]
        else Admits(u, side, m.observations[i]))
  }

  predicate BothReady(u: Setup) {
    && u.left.cfg.own != u.right.cfg.own && u.left.session != u.right.session
    && u.until <= u.from + OPERATION_TIMEOUT
    && PartyReady(u, Left) && PartyReady(u, Right)
  }

  predicate HoldsAtStart(u: Setup, side: Side) {
    Peer(u, side) in Of(u, side).start.records
  }

  /** Everything works and happens in time; an end that has nothing does not propose something else meanwhile. */
  predicate Undisturbed(u: Setup, e: Event) {
    match e
    case Tick(side, env) => Working(env) && InTime(u, env.now) && (HoldsAtStart(u, side) || !env.active)
    case Connect(_, _) => true
    case Read(_, _, _, env) => Working(env) && InTime(u, env.now)
  }

  ghost predicate AllUndisturbed(u: Setup, events: seq<Event>) {
    forall e :: e in events ==> Undisturbed(u, e)
  }

  /** Nothing is unread and no session is being opened. */
  predicate Settled(p: Pair) {
    && p.left.out == p.left.back == p.right.out == p.right.back == []
    && p.left.dial.None? && p.right.dial.None?
  }

  predicate ConfirmedHere(m: Manager, peer: Uuid, id: Id) {
    && Resumes(m, peer, id) && m.records[peer].confirmed
    && peer in m.disk && m.disk[peer].id == id && m.disk[peer].confirmed
  }

  // ---------------------------------------------------------------- what matters about one end

  /** Where the operation with the peer is: not alive, being dialled, on the node's own session, or on the other's. */
  datatype Spot = Free | Dialled | Own | Taken

  /** How far the exchange on a node's own session has come. */
  datatype Stage = Unsent | Asked | Told | Echoed | Over

  datatype View = View(spot: Spot, dial: bool, held: bool, confirmed: bool, stage: Stage, answered: bool, drawn: bool)

  predicate IsProposal(u: Setup, message: Message) {
    message.Propose? && message.id == u.id && message.fixed == u.fixed
  }

  /** Nothing about other peers has changed, nor what is known of the Link. */
  predicate Framed(u: Setup, side: Side, m: Manager) {
    var start, peer := Of(u, side).start, Peer(u, side);
    && !m.closed && m.cooldown == start.cooldown && m.observations == start.observations
    && (forall p | p in m.operations && p != peer :: p in start.operations)
  }

  predicate RecordSeen(u: Setup, side: Side, m: Manager, v: View) {
    var peer := Peer(u, side);
    if v.held then
      && peer in m.records && m.records[peer].peer == peer && m.records[peer].id == u.id
      && m.records[peer].fixed == u.fixed
      && m.records[peer].confirmed == v.confirmed && peer in m.disk && m.disk[peer] == m.records[peer]
    else !HoldsAtStart(u, side) && m.records == Of(u, side).start.records && !v.confirmed && v.spot.Free?
  }

  predicate SpotSeen(u: Setup, side: Side, m: Manager, spot: Spot) {
    var peer := Peer(u, side);
    if spot.Free? then peer in m.operations ==> m.operations[peer].until <= u.from
    else
      && peer in m.operations
      && var op := m.operations[peer];
      && op.until >= u.until && op.record.peer == peer && op.record.id == u.id && op.record.fixed == u.fixed
      && (match spot
          case Dialled => op.outgoing && op.session.None? && !op.saved
          case Own => op.outgoing && op.session == Some(Of(u, side).session) && !op.saved
          case _ => !op.outgoing && op.session == Some(Of(u, Other(side)).session) && op.saved)
  }

  predicate StageSeen(u: Setup, h: Half, stage: Stage) {
    match stage
    case Unsent => h.out == h.back == []
    case Asked => |h.out| == 1 && IsProposal(u, h.out[0]) && h.back == []
    case Told => h.out == [] && h.back == [Saved(u.id)]
    case Echoed => h.out == [Saved(u.id)] && h.back == []
    case Over => h.out == h.back == []
  }

  predicate Sees(u: Setup, side: Side, h: Half, v: View) {
    && Framed(u, side, h.m) && RecordSeen(u, side, h.m, v) && SpotSeen(u, side, h.m, v.spot) && StageSeen(u, h, v.stage)
    && (h.dial.Some? <==> v.dial) && (h.dial.Some? ==> IsProposal(u, h.dial.value))
    && (v.dial && v.spot.Free? ==> Peer(u, side) !in h.m.operations)
    && (h.sent <==> !v.stage.Unsent?) && h.answered == v.answered && h.drawn == v.drawn
  }

  // ---------------------------------------------------------------- one step of one end

  lemma {:induction false} FewerReserve(m: Manager, start: Manager, peer: Uuid, now: Time)
    requires m.records == start.records && (forall p | p in m.operations && p != peer :: p in start.operations)
    requires LiveOperation(m, peer, now).None?
    ensures |Reserving(m, now)| <= |OthersReserving(start, peer)|
  {
    SubsetIsSmaller(Reserving(m, now), OthersReserving(start, peer));
  }

  lemma {:induction false} SubsetIsSmaller(a: set<Uuid>, b: set<Uuid>)
    requires a <= b
    ensures |a| <= |b|
  {
    if a != {} {
      var x :| x in a;
      SubsetIsSmaller(a - {x}, b - {x});
    }
  }

  function TickView(v: View): View {
    if v.spot.Free? && v.held && !v.confirmed then v.(spot := Dialled, dial := true) else v
  }

  lemma TickSeen(u: Setup, side: Side, h: Half, v: View, env: Env)
    requires BothReady(u) && PartyReady(u, side) && Sees(u, side, h, v) && Undisturbed(u, Tick(side, env))
    ensures Sees(u, side, Ticked(Of(u, side), h, env), TickView(v))
  {
  }

  function ConnectView(v: View): View {
    if !v.dial then v
    else if v.spot.Dialled? then v.(spot := Own, stage := Asked, dial := false)
    else v.(dial := false)
  }

  lemma ConnectSeen(u: Setup, side: Side, h: Half, v: View, loopback: Option<Address>)
    requires PartyReady(u, side) && Sees(u, side, h, v) && (v.spot.Dialled? ==> v.dial && v.stage.Unsent?)
    ensures Sees(u, side, Connected(Of(u, side), h, loopback), ConnectView(v))
  {
  }

  /** The other's proposal is always taken: saved, with any confirmation kept, and answered. */
  lemma ProposalTaken(u: Setup, side: Side, h: Half, v: View, message: Message, loopback: Option<Address>, env: Env)
    requires BothReady(u) && PartyReady(u, side) && Sees(u, side, h, v) && Working(env) && InTime(u, env.now)
    requires IsProposal(u, message)
    ensures
      var a := Of(u, side);
      var o := HandleLink(a.cfg, h.m, a.plan, a.link.remote, Of(u, Other(side)).session, loopback, message, env);
      && o.out == Some(Saved(u.id)) && Framed(u, side, o.m)
      && RecordSeen(u, side, o.m, v.(held := true, spot := Taken)) && SpotSeen(u, side, o.m, Taken)
  {
    var a, peer := Of(u, side), Peer(u, side);
    ProposalAccepted(u, side, h, v, message, loopback, env);
  }

  lemma ProposalAccepted(u: Setup, side: Side, h: Half, v: View, message: Message, loopback: Option<Address>, env: Env)
    requires BothReady(u) && PartyReady(u, side) && Sees(u, side, h, v) && Working(env) && InTime(u, env.now)
    requires IsProposal(u, message)
    ensures
      var a, peer := Of(u, side), Peer(u, side);
      && Acceptable(a.cfg, h.m, a.plan, peer, Of(u, Other(side)).session, message, env)
      && !Counters(a.cfg, h.m, a.plan, peer, message, env.now)
  {
    var a, peer := Of(u, side), Peer(u, side);
    var o := h.m.observations[a.plan.interface];
    if !v.held {
      FewerReserve(h.m, a.start, peer, env.now);
    }
    forall f | f in message.fixed ensures EndpointAllowed(a.cfg, h.m, a.plan, peer, o, env.now, f) {
      if f.uuid == a.cfg.own && !v.held {
        assert FixedFor(u.fixed, a.cfg.own).Some?;
      }
    }
  }

  /** A SAVED on the session that the operation is on confirms, in memory and on disk; on an unsaved operation it is
      answered. */
  lemma SavedConfirms(u: Setup, side: Side, h: Half, v: View, loopback: Option<Address>, env: Env)
    requires BothReady(u) && PartyReady(u, side) && Sees(u, side, h, v) && Working(env) && InTime(u, env.now)
    requires v.spot.Own? || v.spot.Taken?
    ensures
      var a, session := Of(u, side), Of(u, if v.spot.Own? then side else Other(side)).session;
      var o := HandleLink(a.cfg, h.m, a.plan, a.link.remote, session, loopback, Saved(u.id), env);
      && o.out == (if v.spot.Own? then Some(Saved(u.id)) else None) && Framed(u, side, o.m)
      && RecordSeen(u, side, o.m, v.(held := true, confirmed := true, spot := Free)) && Peer(u, side) !in o.m.operations
  {
  }

  /** On any other session it is stale and changes nothing. */
  lemma SavedIsStale(u: Setup, side: Side, h: Half, v: View, session: Side, loopback: Option<Address>, env: Env)
    requires BothReady(u) && PartyReady(u, side) && Sees(u, side, h, v) && Working(env) && InTime(u, env.now)
    requires if session == side then !v.spot.Own? else !v.spot.Taken?
    ensures
      var a := Of(u, side);
      HandleLink(a.cfg, h.m, a.plan, a.link.remote, Of(u, session).session, loopback, Saved(u.id), env)
      == Outcome(h.m, None, Failed(StaleConfirmation))
  {
  }
}
