/** Any number of nodes keeping durable agreements, over every run: messages lost, repeated and reordered, sessions
    dropped, writes failing half-way, crashes, deletions and replacement proposals. */
module DurableRuns {
  import opened Common
  import opened Net
  import opened DurableTimers
  import opened Durable

  /** A message on a session between two nodes. Once sent it may arrive at any time, any number of times, or never. */
  datatype Packet = Packet(session: SessionId, from: Uuid, to: Uuid, message: Message)

  /** A session that tick has begun to open, with the first message it will carry. */
  datatype Dial = Dial(from: Uuid, to: Uuid, first: Message)

  /** At some time `node` had on disk an agreement with `peer`. */
  datatype Fact = Fact(node: Uuid, peer: Uuid, id: Id, fixed: seq<Fixed>)

  /** `minted` gives every agreement identifier ever made and the endpoints it was made for, `persisted` all that was
      ever on disk, `noted` what each current failure timer has been told. */
  datatype World = World(
    nodes: map<Uuid, Manager>,
    sent: set<Packet>,
    dials: set<Dial>,
    minted: map<Id, seq<Fixed>>,
    persisted: set<Fact>,
    noted: map<(Uuid, Uuid), seq<CheckEvent>>)

  /** Ended is the end of the worker that asked a query, Forget any other reason to delete a record, and Lost a crash
      and restart that keeps the records in `kept`. */
  datatype Event =
    | Deliver(packet: Packet, plan: Plan, loopback: Option<Address>, env: Env)
    | Ticked(node: Uuid, link: LinkState, env: Env)
    | Connected(dial: Dial, session: SessionId, loopback: Option<Address>)
    | Watched(node: Uuid, interface: Interface, remote: Uuid, sample: Sample, clock: Time, current: bool,
        write: Write, interfaces: set<Interface>)
    | Checked(node: Uuid, record: Record, found: Found, write: Write, interfaces: set<Interface>)
    | Replied(node: Uuid, record: Record, query: nat, answered: nat, agreement: Id, status: Status, now: Time,
        directLink: bool, write: Write, interfaces: set<Interface>)
    | Ended(node: Uuid, peer: Uuid, query: nat)
    | Forget(node: Uuid, peer: Uuid, now: Time, write: Write, interfaces: set<Interface>)
    | Refreshed(node: Uuid, peer: Uuid, loopback: Option<Address>, port: int, write: Write)
    | Lost(node: Uuid, kept: set<Uuid>)
    | Stopping(node: Uuid)

  function Start(configs: map<Uuid, Config>): World {
    World(map x | x in configs :: EMPTY, {}, {}, map[], {}, map[])
  }

  function Actor(e: Event): Uuid {
    match e
    case Deliver(p, _, _, _) => p.to
    case Connected(d, _, _) => d.from
    case _ => e.node
  }

  predicate Fresh(w: World, env: Env) {
    env.freshId.Some? ==> env.freshId.value !in w.minted
  }

  /** The event can happen: its message was sent, its identifier is new. */
  predicate Enabled(w: World, e: Event) {
    && Actor(e) in w.nodes
    && (match e
        case Deliver(p, _, _, env) => p in w.sent && Fresh(w, env)
        case Ticked(_, _, env) => Fresh(w, env)
        case Connected(d, _, _) =>
          && d in w.dials && d.to in w.nodes[d.from].operations
          && var op := w.nodes[d.from].operations[d.to];
          op.outgoing && op.session.None? && op.record.id == d.first.id
        case _ => true)
  }

  function Opened(m: Manager, d: Dial, session: SessionId, loopback: Option<Address>): Manager
    requires d.to in m.operations
  {
    var op := m.operations[d.to];
    m.(operations := m.operations[d.to :=
                                  op.(session := Some(session), record := op.record.(lastLoopback := loopback))])
  }

  /** The acting node after the event. */
  function Next(cfg: Config, w: World, e: Event): Manager
    requires Enabled(w, e)
  {
    var m := w.nodes[Actor(e)];
    match e
    case Deliver(p, plan, loopback, env) => HandleLink(cfg, m, plan, p.from, p.session, loopback, p.message, env).m
    case Ticked(_, link, env) => TickLink(cfg, m, link, env).0
    case Connected(d, session, loopback) => Opened(m, d, session, loopback)
    case Watched(_, interface, remote, sample, clock, current, write, interfaces) =>
      Observe(cfg, m, interface, remote, sample, clock, current, write, interfaces).0
    case Checked(_, record, found, write, interfaces) => CheckRecord(cfg, m, record, found, write, interfaces).0
    case Replied(_, record, query, answered, agreement, status, now, directLink, write, interfaces) =>
      AcceptStatus(cfg, m, record, query, answered, agreement, status, now, directLink, write, interfaces).0
    case Ended(_, peer, query) => CheckDone(m, peer, query)
    case Forget(_, peer, now, write, interfaces) => Delete(cfg, m, peer, now, write, interfaces).0
    case Refreshed(_, peer, loopback, port, write) => Refresh(m, peer, loopback, port, write).0
    case Lost(_, kept) => Reopen(m, kept)
    case Stopping(_) => m.(closed := true)
  }

  function Sending(cfg: Config, w: World, e: Event): set<Packet>
    requires Enabled(w, e)
  {
    match e
    case Deliver(p, plan, loopback, env) =>
      var out := HandleLink(cfg, w.nodes[p.to], plan, p.from, p.session, loopback, p.message, env).out;
      if out.Some? then {Packet(p.session, p.to, p.from, out.value)} else {}
    case Connected(d, session, _) => {Packet(session, d.from, d.to, d.first)}
    case _ => {}
  }

  function Dialling(cfg: Config, w: World, e: Event): set<Dial>
    requires Enabled(w, e)
  {
    if e.Ticked? then
      var first := TickLink(cfg, w.nodes[e.node], e.link, e.env).1;
      if first.Some? then {Dial(e.node, e.link.remote, first.value)} else {}
    else {}
  }

  function Recorded(node: Uuid, records: map<Uuid, Record>): set<Fact> {
    set p | p in records :: Fact(node, p, records[p].id, records[p].fixed)
  }

  /** The peer whose operation the event may have started. */
  function Partner(e: Event): Uuid {
    match e
    case Deliver(p, _, _, _) => p.from
    case Ticked(_, link, _) => link.remote
    case _ => 0
  }

  function Mint(minted: map<Id, seq<Fixed>>, m: Manager, peer: Uuid): map<Id, seq<Fixed>> {
    if peer in m.operations && m.operations[peer].record.id !in minted
    then minted[m.operations[peer].record.id := m.operations[peer].record.fixed]
    else minted
  }

  function NotedOf(w: World, node: Uuid, peer: Uuid): seq<CheckEvent>
    requires node in w.nodes
  {
    if peer in w.nodes[node].checks && (node, peer) in w.noted then w.noted[(node, peer)] else []
  }

  function Noting(w: World, e: Event): map<(Uuid, Uuid), seq<CheckEvent>>
    requires Enabled(w, e)
  {
    match e
    case Checked(x, r, f, _, _) =>
      var heard := NotedOf(w, x, r.peer);
      w.noted[(x, r.peer) := if Resumes(w.nodes[x], r.peer, r.id)
                             then heard + [Evaluate(f.now, f.localReady, f.connected)] else heard]
    case Replied(x, r, query, answered, agreement, status, now, _, _, _) =>
      if !Answers(w.nodes[x], r, query, answered, agreement) || status.Absent? then w.noted
      else
        w.noted[(x, r.peer) := NotedOf(w, x, r.peer) + [if status.Ready? then PeerReady(now) else PeerNotReady]]
    case _ => w.noted
  }

  function Step(configs: map<Uuid, Config>, w: World, e: Event): World {
    if !Enabled(w, e) || Actor(e) !in configs then w
    else
      var cfg := configs[Actor(e)];
      var next := Next(cfg, w, e);
      World(w.nodes[Actor(e) := next], w.sent + Sending(cfg, w, e), w.dials + Dialling(cfg, w, e),
            if e.Deliver? || e.Ticked? then Mint(w.minted, next, Partner(e)) else w.minted,
            w.persisted + Recorded(Actor(e), next.records) + Recorded(Actor(e), next.disk), Noting(w, e))
  }

  function Run(configs: map<Uuid, Config>, events: seq<Event>): World {
    if events == [] then Start(configs)
    else Step(configs, Run(configs, events[..|events| - 1]), events[|events| - 1])
  }

  // ---------------------------------------------------------------- the invariant

  predicate Made(minted: map<Id, seq<Fixed>>, r: Record) {
    r.id in minted && minted[r.id] == r.fixed
  }

  /** A record that a node may hold for peer p. */
  predicate Sound(x: Uuid, p: Uuid, r: Record, minted: map<Id, seq<Fixed>>, persisted: set<Fact>) {
    && r.peer == p && Made(minted, r)
    && (r.confirmed ==> Fact(p, x, r.id, r.fixed) in persisted)
  }

  predicate AllSound(x: Uuid, records: map<Uuid, Record>, minted: map<Id, seq<Fixed>>, persisted: set<Fact>) {
    forall p | p in records :: Sound(x, p, records[p], minted, persisted)
  }

  /** An operation that has not saved yet cannot undo a confirmation, and neither can the file. */
  predicate Sticky(m: Manager) {
    && (forall p | p in m.operations && !m.operations[p].saved && Resumes(m, p, m.operations[p].record.id) ::
          !m.records[p].confirmed)
    && (forall p | p in m.operations && !m.operations[p].saved :: !m.operations[p].record.confirmed)
    && (forall p | p in m.disk && Resumes(m, p, m.disk[p].id) && m.records[p].confirmed :: m.disk[p].confirmed)
  }

  predicate NodeOk(x: Uuid, m: Manager, minted: map<Id, seq<Fixed>>, persisted: set<Fact>) {
    && AllSound(x, m.records, minted, persisted) && AllSound(x, m.disk, minted, persisted)
    && (forall p | p in m.operations :: Sound(x, p, m.operations[p].record, minted, persisted))
    && Sticky(m)
  }

  predicate True(p: Packet, minted: map<Id, seq<Fixed>>, persisted: set<Fact>) {
    match p.message
    case Propose(id, fixed, _) => id in minted && minted[id] == fixed
    case Saved(id) => id in minted && Fact(p.from, p.to, id, minted[id]) in persisted
    case Decline(_) => true
  }

  predicate TimersTold(w: World) {
    forall x, p | x in w.nodes && p in w.nodes[x].checks ::
      w.nodes[x].checks[p].timer == After(NotedOf(w, x, p)).0
  }

  ghost predicate Inv(w: World) {
    && (forall x | x in w.nodes :: NodeOk(x, w.nodes[x], w.minted, w.persisted))
    && (forall p | p in w.sent :: True(p, w.minted, w.persisted))
    && (forall d | d in w.dials :: d.first.Propose? && d.first.id in w.minted && w.minted[d.first.id] == d.first.fixed)
  }

  predicate Extends(minted: map<Id, seq<Fixed>>, later: map<Id, seq<Fixed>>) {
    forall id | id in minted :: id in later && later[id] == minted[id]
  }

  // ---------------------------------------------------------------- one node

  /** Saving a record that is itself sound and does not take a confirmation back. */
  lemma SaveIsOk(x: Uuid, m: Manager, r: Record, write: Write, minted: map<Id, seq<Fixed>>, persisted: set<Fact>)
    requires NodeOk(x, m, minted, persisted) && Sound(x, r.peer, r, minted, persisted)
    requires Resumes(m, r.peer, r.id) && m.records[r.peer].confirmed ==> r.confirmed
    requires r.peer in m.operations && !m.operations[r.peer].saved && m.operations[r.peer].record.id == r.id ==>
        !r.confirmed
    ensures NodeOk(x, Save(m, r, write).0, minted, persisted)
    ensures Save(m, r, write).1 ==> Save(m, r, write).0.records == Save(m, r, write).0.disk == m.records[r.peer := r]
  {
  }

  lemma DeleteIsOk(cfg: Config, x: Uuid, m: Manager, peer: Uuid, now: Time, write: Write, interfaces: set<Interface>,
    minted: map<Id, seq<Fixed>>, persisted: set<Fact>)
    requires NodeOk(x, m, minted, persisted)
    ensures NodeOk(x, Delete(cfg, m, peer, now, write, interfaces).0, minted, persisted)
  {
  }

  lemma OperationIsOk(x: Uuid, m: Manager, p: Uuid, op: Operation, minted: map<Id, seq<Fixed>>, persisted: set<Fact>)
    requires NodeOk(x, m, minted, persisted) && Sound(x, p, op.record, minted, persisted)
    requires !op.saved ==> !op.record.confirmed && (Resumes(m, p, op.record.id) ==> !m.records[p].confirmed)
    ensures NodeOk(x, m.(operations := m.operations[p := op]), minted, persisted)
  {
  }

  lemma Later(x: Uuid, m: Manager, minted: map<Id, seq<Fixed>>, persisted: set<Fact>,
    laterMinted: map<Id, seq<Fixed>>, laterPersisted: set<Fact>)
    requires NodeOk(x, m, minted, persisted) && Extends(minted, laterMinted) && persisted <= laterPersisted
    ensures NodeOk(x, m, laterMinted, laterPersisted)
  {
  }

  /** After handling a message the node is sound; it proposes only what is minted and confirms only what it has
      saved. */
  predicate AnswerOk(x: Uuid, peer: Uuid, o: Outcome, minted: map<Id, seq<Fixed>>, persisted: set<Fact>) {
    var now := Mint(minted, o.m, peer);
    && Extends(minted, now) && NodeOk(x, o.m, now, persisted)
    && (o.out.Some? ==>
          match o.out.value
          case Propose(id, fixed, _) => id in now && now[id] == fixed
          case Saved(id) => Backed(o.m, peer, id)
          case Decline(_) => true)
  }

  /** Our own proposal in answer has a new identifier, minted with its endpoints. */
  lemma CounterIsOk(x: Uuid, m: Manager, peer: Uuid, session: SessionId, record: Record, own: Fixed, env: Env,
    minted: map<Id, seq<Fixed>>, persisted: set<Fact>)
    requires NodeOk(x, m, minted, persisted) && record.peer == peer && !record.confirmed
    requires env.freshId.Some? ==> env.freshId.value !in minted
    ensures AnswerOk(x, peer, CounterProposal(m, peer, session, record, own, env), minted, persisted)
  {
    if env.freshId.None? {
      NothingMinted(x, m, peer, minted, persisted);
    } else {
      var counter := record.(id := env.freshId.value, fixed := SortFixed(record.fixed + [own]));
      var now := minted[counter.id := counter.fixed];
      var op := Operation(counter, Some(session), false, false, false, env.now + OPERATION_TIMEOUT);
      var next := m.(operations := m.operations[peer := op]);
      assert CounterProposal(m, peer, session, record, own, env).m == next && Mint(minted, next, peer) == now;
      Later(x, m, minted, persisted, now, persisted);
      assert !Resumes(m, peer, counter.id);
      OperationIsOk(x, m, peer, op, now, persisted);
    }
  }

  lemma ProposeIsOk(cfg: Config, x: Uuid, m: Manager, plan: Plan, peer: Uuid, session: SessionId,
    loopback: Option<Address>, p: Message, env: Env, minted: map<Id, seq<Fixed>>, persisted: set<Fact>)
    requires p.Propose? && NodeOk(x, m, minted, persisted) && p.id in minted && minted[p.id] == p.fixed
    requires env.freshId.Some? ==> env.freshId.value !in minted
    ensures AnswerOk(x, peer, OnPropose(cfg, m, plan, peer, session, loopback, p, env), minted, persisted)
  {
    var o := OnPropose(cfg, m, plan, peer, session, loopback, p, env);
    if Acceptable(cfg, m, plan, peer, session, p, env) {
      var record := RecordOf(m, plan, peer, loopback, p);
      if Counters(cfg, m, plan, peer, p, env.now) {
        CounterIsOk(x, m, peer, session, record, Eligible(cfg, m, plan.interface, env.now).value, env, minted,
                    persisted);
      } else {
        AcceptSaves(x, m, peer, session, record, env, minted, persisted);
        NothingMinted(x, o.m, peer, minted, persisted);
      }
    }
  }

  /** The disk and the memory of a node hold agreement id with this peer. */
  predicate Backed(m: Manager, peer: Uuid, id: Id) {
    Resumes(m, peer, id) && peer in m.disk && m.disk[peer].id == id
  }

  lemma AcceptSaves(x: Uuid, m: Manager, peer: Uuid, session: SessionId, record: Record, env: Env,
    minted: map<Id, seq<Fixed>>, persisted: set<Fact>)
    requires NodeOk(x, m, minted, persisted) && Sound(x, peer, record, minted, persisted)
    requires Resumes(m, peer, record.id) && m.records[peer].confirmed ==> record.confirmed
    requires peer in m.operations && !m.operations[peer].saved && m.operations[peer].record.id == record.id ==>
        !record.confirmed
    ensures
      var o := AcceptProposal(m, peer, session, record, env);
      && NodeOk(x, o.m, minted, persisted)
      && (o.out.Some? ==> o.out.value == Saved(record.id) && Backed(o.m, peer, record.id))
  {
    SaveIsOk(x, m, record, env.firstWrite, minted, persisted);
    var (saved, ok) := Save(m, record, env.firstWrite);
    if ok {
      var op := Operation(record, Some(session), false, true, false, env.now + OPERATION_TIMEOUT);
      OperationIsOk(x, saved, peer, op, minted, persisted);
    }
  }

  lemma ConfirmIsOk(x: Uuid, m: Manager, peer: Uuid, op: Operation, out: Option<Message>, env: Env,
    minted: map<Id, seq<Fixed>>, persisted: set<Fact>)
    requires NodeOk(x, m, minted, persisted) && peer in m.operations && m.operations[peer] == op && op.saved
    requires Fact(peer, x, op.record.id, op.record.fixed) in persisted
    ensures NodeOk(x, Confirm(m, peer, op, out, env).m, minted, persisted)
  {
    if env.healthyAtEnd {
      var told := m.(operations := m.operations[peer := op.(peerSaved := true)]);
      OperationIsOk(x, m, peer, op.(peerSaved := true), minted, persisted);
      SaveIsOk(x, told, op.record.(confirmed := true), env.secondWrite, minted, persisted);
      var (saved, ok) := Save(told, op.record.(confirmed := true), env.secondWrite);
      SettledIsOk(x, saved, peer, minted, persisted);
    }
  }

  lemma SettledIsOk(x: Uuid, m: Manager, peer: Uuid, minted: map<Id, seq<Fixed>>, persisted: set<Fact>)
    requires NodeOk(x, m, minted, persisted)
    ensures NodeOk(x, m.(operations := m.operations - {peer}), minted, persisted)
  {
  }

  lemma ConfirmAnswers(m: Manager, peer: Uuid, op: Operation, out: Option<Message>, env: Env)
    requires peer in m.operations && m.operations[peer] == op
    requires out.Some? ==> out.value.Saved? && Backed(m, peer, out.value.id) && out.value.id == op.record.id
    ensures
      var o := Confirm(m, peer, op, out, env);
      o.out == out && (out.Some? ==> Backed(o.m, peer, out.value.id))
  {
  }

  lemma NothingMinted(x: Uuid, m: Manager, peer: Uuid, minted: map<Id, seq<Fixed>>, persisted: set<Fact>)
    requires NodeOk(x, m, minted, persisted)
    ensures Mint(minted, m, peer) == minted
  {
  }

  lemma SavedIsOk(x: Uuid, m: Manager, peer: Uuid, session: SessionId, id: Id, env: Env,
    minted: map<Id, seq<Fixed>>, persisted: set<Fact>)
    requires NodeOk(x, m, minted, persisted)
    requires id in minted && Fact(peer, x, id, minted[id]) in persisted
    ensures AnswerOk(x, peer, OnSaved(m, peer, session, id, env), minted, persisted)
  {
    var op := LiveOperation(m, peer, env.now);
    if !m.closed && op.Some? && op.value.record.id == id && op.value.session == Some(session) {
      if op.value.saved {
        ConfirmIsOk(x, m, peer, op.value, None, env, minted, persisted);
        ConfirmAnswers(m, peer, op.value, None, env);
      } else {
        SaveIsOk(x, m, op.value.record, env.firstWrite, minted, persisted);
        var (saved, ok) := Save(m, op.value.record, env.firstWrite);
        if ok {
          var done := op.value.(saved := true);
          var waiting := saved.(operations := saved.operations[peer := done]);
          OperationIsOk(x, saved, peer, done, minted, persisted);
          ConfirmIsOk(x, waiting, peer, done, Some(Saved(id)), env, minted, persisted);
          ConfirmAnswers(waiting, peer, done, Some(Saved(id)), env);
        }
      }
    }
    NothingMinted(x, OnSaved(m, peer, session, id, env).m, peer, minted, persisted);
  }

  /** A node answers SAVED only with the agreement in its memory and on its disk. */
  lemma LinkIsOk(cfg: Config, w: World, p: Packet, plan: Plan, loopback: Option<Address>, env: Env)
    requires Inv(w) && p in w.sent && p.to in w.nodes && Fresh(w, env)
    ensures AnswerOk(p.to, p.from, HandleLink(cfg, w.nodes[p.to], plan, p.from, p.session, loopback, p.message, env),
                     w.minted, w.persisted)
  {
    var m := w.nodes[p.to];
    assert True(p, w.minted, w.persisted);
    if env.linkCurrent {
      match p.message {
        case Propose(_, _, _) =>
          ProposeIsOk(cfg, p.to, m, plan, p.from, p.session, loopback, p.message, env, w.minted, w.persisted);
        case Saved(id) => SavedIsOk(p.to, m, p.from, p.session, id, env, w.minted, w.persisted);
        case Decline(id) => DeclineIsOk(p.to, m, p.from, p.session, id, env.now, w.minted, w.persisted);
      }
    }
  }

  lemma DeclineIsOk(x: Uuid, m: Manager, peer: Uuid, session: SessionId, id: Id, now: Time,
    minted: map<Id, seq<Fixed>>, persisted: set<Fact>)
    requires NodeOk(x, m, minted, persisted)
    ensures AnswerOk(x, peer, OnDecline(m, peer, session, id, now), minted, persisted)
  {
    if peer in m.operations {
      OperationIsOk(x, m, peer, m.operations[peer].(until := now + DECLINE_PAUSE), minted, persisted);
    }
  }

  lemma TickIsOk(cfg: Config, x: Uuid, m: Manager, l: LinkState, env: Env, minted: map<Id, seq<Fixed>>,
      persisted: set<Fact>)
    requires NodeOk(x, m, minted, persisted) && (env.freshId.Some? ==> env.freshId.value !in minted)
    ensures
      var (next, first) := TickLink(cfg, m, l, env);
      var now := Mint(minted, next, l.remote);
      && Extends(minted, now) && NodeOk(x, next, now, persisted)
      && (first.Some? ==> first.value.Propose? && first.value.id in now && now[first.value.id] == first.value.fixed)
  {
    var (next, first) := TickLink(cfg, m, l, env);
    var now := Mint(minted, next, l.remote);
    if first.Some? {
      Later(x, m, minted, persisted, now, persisted);
      OperationIsOk(x, m, l.remote, next.operations[l.remote], now, persisted);
    }
  }

  lemma SameCoreIsOk(x: Uuid, m: Manager, next: Manager, minted: map<Id, seq<Fixed>>, persisted: set<Fact>)
    requires NodeOk(x, m, minted, persisted)
    requires next.records == m.records && next.disk == m.disk && next.operations == m.operations
    ensures NodeOk(x, next, minted, persisted)
  {
  }

  lemma WatchIsOk(cfg: Config, x: Uuid, m: Manager, e: Event, minted: map<Id, seq<Fixed>>, persisted: set<Fact>)
    requires NodeOk(x, m, minted, persisted) && e.Watched?
    ensures NodeOk(x, Observe(cfg, m, e.interface, e.remote, e.sample, e.clock, e.current, e.write, e.interfaces).0,
                   minted, persisted)
  {
    var noted := m.(observations := m.observations[e.interface := Observed(ObservationOf(m, e.interface), e.sample)]);
    SameCoreIsOk(x, m, noted, minted, persisted);
    DeleteIsOk(cfg, x, noted, e.remote, e.clock, e.write, e.interfaces, minted, persisted);
  }

  lemma CheckIsOk(cfg: Config, x: Uuid, m: Manager, r: Record, f: Found, write: Write, interfaces: set<Interface>,
    minted: map<Id, seq<Fixed>>, persisted: set<Fact>)
    requires NodeOk(x, m, minted, persisted)
    ensures NodeOk(x, CheckRecord(cfg, m, r, f, write, interfaces).0, minted, persisted)
  {
    var next := WithCheck(m, r.peer, CheckAfter(m, r, f));
    SameCoreIsOk(x, m, next, minted, persisted);
    DeleteIsOk(cfg, x, next, r.peer, f.now, write, interfaces, minted, persisted);
  }

  lemma ReplyIsOk(cfg: Config, x: Uuid, m: Manager, e: Event, minted: map<Id, seq<Fixed>>, persisted: set<Fact>)
    requires NodeOk(x, m, minted, persisted) && e.Replied?
    ensures
      NodeOk(x, AcceptStatus(cfg, m, e.record, e.query, e.answered, e.agreement, e.status, e.now, e.directLink, e.write,
                             e.interfaces).0,
             minted, persisted)
  {
    var next := AcceptStatus(cfg, m, e.record, e.query, e.answered, e.agreement, e.status, e.now, e.directLink, e.write,
                             e.interfaces).0;
    if e.status.Absent? {
      DeleteIsOk(cfg, x, m, e.record.peer, e.now, e.write, e.interfaces, minted, persisted);
    } else {
      SameCoreIsOk(x, m, next, minted, persisted);
    }
  }

  lemma QuietIsOk(configs: map<Uuid, Config>, w: World, e: Event)
    requires Inv(w) && Enabled(w, e) && Actor(e) in configs && !e.Deliver? && !e.Ticked?
    ensures NodeOk(Actor(e), Next(configs[Actor(e)], w, e), w.minted, w.persisted)
  {
    var cfg, x := configs[Actor(e)], Actor(e);
    var m := w.nodes[x];
    match e {
      case Connected(d, session, loopback) =>
        var op := Opened(m, d, session, loopback).operations[d.to];
        OperationIsOk(x, m, d.to, op, w.minted, w.persisted);
      case Watched(_, _, _, _, _, _, _, _) => WatchIsOk(cfg, x, m, e, w.minted, w.persisted);
      case Checked(_, record, found, write, interfaces) =>
          CheckIsOk(cfg, x, m, record, found, write, interfaces, w.minted, w.persisted);
      case Replied(_, _, _, _, _, _, _, _, _, _) => ReplyIsOk(cfg, x, m, e, w.minted, w.persisted);
      case Ended(_, peer, query) => SameCoreIsOk(x, m, CheckDone(m, peer, query), w.minted, w.persisted);
      case Forget(_, peer, now, write, interfaces) =>
          DeleteIsOk(cfg, x, m, peer, now, write, interfaces, w.minted, w.persisted);
      case Refreshed(_, peer, loopback, port, write) =>
        if peer in m.records {
          SaveIsOk(x, m, m.records[peer].(lastLoopback := loopback, localPort := port), write, w.minted, w.persisted);
        }
      case Lost(_, kept) =>
      case Stopping(_) => SameCoreIsOk(x, m, m.(closed := true), w.minted, w.persisted);
    }
  }

  // ---------------------------------------------------------------- every run

  lemma PacketsStayTrue(w: World, later: World)
    requires Inv(w) && Extends(w.minted, later.minted) && w.persisted <= later.persisted
    ensures forall p | p in w.sent :: True(p, later.minted, later.persisted)
  {
  }

  lemma ActorIsOk(configs: map<Uuid, Config>, w: World, e: Event)
    requires Inv(w) && Enabled(w, e) && Actor(e) in configs
    ensures
      var after, next := Step(configs, w, e), Next(configs[Actor(e)], w, e);
      Extends(w.minted, after.minted) && NodeOk(Actor(e), next, after.minted, w.persisted)
  {
    var cfg, x := configs[Actor(e)], Actor(e);
    if e.Deliver? {
      LinkIsOk(cfg, w, e.packet, e.plan, e.loopback, e.env);
    } else if e.Ticked? {
      TickIsOk(cfg, x, w.nodes[x], e.link, e.env, w.minted, w.persisted);
    } else {
      QuietIsOk(configs, w, e);
    }
  }

  lemma BackedIsTrue(w: World, x: Uuid, next: Manager, p: Packet, minted: map<Id, seq<Fixed>>, persisted: set<Fact>)
    requires NodeOk(x, next, minted, w.persisted) && Recorded(x, next.records) <= persisted
    requires p.from == x && p.message.Saved? && Backed(next, p.to, p.message.id)
    ensures True(p, minted, persisted)
  {
    var r := next.records[p.to];
    assert Fact(x, p.to, r.id, r.fixed) in Recorded(x, next.records);
    assert Sound(x, p.to, r, minted, w.persisted);
  }

  lemma SendingIsTrue(configs: map<Uuid, Config>, w: World, e: Event)
    requires Inv(w) && Enabled(w, e) && Actor(e) in configs
    requires NodeOk(Actor(e), Next(configs[Actor(e)], w, e), Step(configs, w, e).minted, w.persisted)
    ensures forall p | p in Sending(configs[Actor(e)], w, e) ::
        True(p, Step(configs, w, e).minted, Step(configs, w, e).persisted)
    ensures forall d | d in Dialling(configs[Actor(e)], w, e) ::
              d.first.Propose? && d.first.id in Step(configs, w, e).minted
                  && Step(configs, w, e).minted[d.first.id] == d.first.fixed
  {
    var cfg, x := configs[Actor(e)], Actor(e);
    var after, next := Step(configs, w, e), Next(cfg, w, e);
    if e.Deliver? {
      LinkIsOk(cfg, w, e.packet, e.plan, e.loopback, e.env);
      var o := HandleLink(cfg, w.nodes[x], e.plan, e.packet.from, e.packet.session, e.loopback,
                          e.packet.message, e.env);
      assert next == o.m;
      if o.out.Some? && o.out.value.Saved? {
        BackedIsTrue(w, x, next, Packet(e.packet.session, x, e.packet.from, o.out.value), after.minted,
                     after.persisted);
      }
    } else if e.Ticked? {
      TickIsOk(cfg, x, w.nodes[x], e.link, e.env, w.minted, w.persisted);
    }
  }

  lemma StepKeepsInv(configs: map<Uuid, Config>, w: World, e: Event)
    requires Inv(w)
    ensures Inv(Step(configs, w, e))
    ensures Extends(w.minted, Step(configs, w, e).minted) && w.persisted <= Step(configs, w, e).persisted
  {
    if Enabled(w, e) && Actor(e) in configs {
      var x, after, next := Actor(e), Step(configs, w, e), Next(configs[Actor(e)], w, e);
      ActorIsOk(configs, w, e);
      SendingIsTrue(configs, w, e);
      assert after.nodes == w.nodes[x := next];
      assert w.persisted <= after.persisted;
      forall y | y in after.nodes ensures NodeOk(y, after.nodes[y], after.minted, after.persisted) {
        if y == x {
          Later(x, next, after.minted, w.persisted, after.minted, after.persisted);
        } else {
          Later(y, w.nodes[y], w.minted, w.persisted, after.minted, after.persisted);
        }
      }
      PacketsStayTrue(w, after);
    }
  }

  lemma {:induction false} RunKeepsInv(configs: map<Uuid, Config>, events: seq<Event>)
    ensures Inv(Run(configs, events))
  {
    if events != [] {
      RunKeepsInv(configs, events[..|events| - 1]);
      StepKeepsInv(configs, Run(configs, events[..|events| - 1]), events[|events| - 1]);
    }
  }

  /** SAVED is sent only for an agreement that its sender had put on disk, with the endpoints it was made for. */
  lemma SavedIsWriteAhead(configs: map<Uuid, Config>, events: seq<Event>, p: Packet)
    requires p in Run(configs, events).sent && p.message.Saved?
    ensures
      var w := Run(configs, events);
      p.message.id in w.minted && Fact(p.from, p.to, p.message.id, w.minted[p.message.id]) in w.persisted
  {
    RunKeepsInv(configs, events);
  }

  /** A node that holds a confirmed agreement, in memory or on disk, has a peer that once put the same agreement, with
      the same fixed endpoints, on its own disk. */
  lemma ConfirmedMeansPeerSaved(configs: map<Uuid, Config>, events: seq<Event>, x: Uuid, p: Uuid)
    requires x in Run(configs, events).nodes
    ensures
      var w := Run(configs, events);
      var m := w.nodes[x];
      && (p in m.records && m.records[p].confirmed ==> Fact(p, x, m.records[p].id, m.records[p].fixed) in w.persisted)
      && (p in m.disk && m.disk[p].confirmed ==> Fact(p, x, m.disk[p].id, m.disk[p].fixed) in w.persisted)
  {
    RunKeepsInv(configs, events);
  }

  /** One identifier never names two agreements, anywhere, ever. */
  lemma OneAgreementPerId(configs: map<Uuid, Config>, events: seq<Event>, x: Uuid, p: Uuid, y: Uuid, q: Uuid)
    requires x in Run(configs, events).nodes && y in Run(configs, events).nodes
    requires p in Run(configs, events).nodes[x].records && q in Run(configs, events).nodes[y].records
    requires Run(configs, events).nodes[x].records[p].id == Run(configs, events).nodes[y].records[q].id
    ensures Run(configs, events).nodes[x].records[p].fixed == Run(configs, events).nodes[y].records[q].fixed
  {
    RunKeepsInv(configs, events);
  }
}
