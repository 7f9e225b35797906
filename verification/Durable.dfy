/** One node's durable agreements: the write-ahead save and confirm exchange of internal/runtime/durable.go, as
    functions on the manager's state and as the object that holds it. */
module Durable {
  import opened Common
  import opened Net
  import opened DurableTimers

  type Uuid = nat
  type Id = nat
  type Interface = nat
  type SessionId = nat

  const MAX_DYNAMIC_LINKS: nat := 128
  const OPERATION_TIMEOUT: Time := 30 * SECOND
  const DECLINE_PAUSE: Time := 60 * SECOND
  const CHECK_INTERVAL: Time := 10 * SECOND

  /** A recovery endpoint by the node it belongs to; display names are not part of an agreement. */
  datatype Fixed = Fixed(uuid: Uuid, endpoint: Endpoint)

  datatype Record = Record(
    id: Id,
    peer: Uuid,
    lastLoopback: Option<Address>,
    publicKey: nat,
    localPort: int,
    fixed: seq<Fixed>,
    confirmed: bool)

  datatype Operation = Operation(
    record: Record,
    session: Option<SessionId>,
    outgoing: bool,
    saved: bool,
    peerSaved: bool,
    until: Time)

  datatype Check = Check(agreement: Id, query: Option<nat>, timer: Failure, busy: bool, next: Time, restoreAfter: Time)

  /** `disk` is what a restart would load. */
  datatype Manager = Manager(
    closed: bool,
    records: map<Uuid, Record>,
    disk: map<Uuid, Record>,
    operations: map<Uuid, Operation>,
    observations: map<Interface, Observation>,
    cooldown: map<Uuid, Time>,
    checks: map<Uuid, Check>)

  datatype Config = Config(own: Uuid, stable: Time, softLimit: nat)

  datatype Message =
    | Propose(id: Id, fixed: seq<Fixed>, noDurable: bool)
    | Saved(id: Id)
    | Decline(id: Id)

  /** Persisting either completes, does nothing, or replaces the file and then fails to sync its directory. */
  datatype Write = Stored | Unwritten | Unsynced

  datatype Error =
    | NotCurrentLink
    | SaveFailed
    | LinkChanged
    | StaleConfirmation
    | SendFailed
    | NoIdentifier

  datatype End = Continue | Complete | Failed(error: Error)

  datatype Outcome = Outcome(m: Manager, out: Option<Message>, end: End)

  /** What the rest of the node answers while one message is handled. */
  datatype Env = Env(
    now: Time,
    allowsInbound: bool,
    active: bool,
    linkCurrent: bool,
    freshId: Option<Id>,
    firstWrite: Write,
    secondWrite: Write,
    healthyAfterSave: bool,
    healthyAtEnd: bool,
    sendOk: bool)

  /** The Link the session runs on. */
  datatype Plan = Plan(interface: Interface, publicKey: nat)

  const EMPTY := Manager(false, map[], map[], map[], map[], map[], map[])

  // ---------------------------------------------------------------- records

  function FixedFor(fixed: seq<Fixed>, id: Uuid): Option<Endpoint> {
    if fixed == [] then None
    else if fixed[0].uuid == id then Some(fixed[0].endpoint)
    else FixedFor(fixed[1..], id)
  }

  function InsertFixed(fixed: seq<Fixed>, f: Fixed): seq<Fixed> {
    if fixed == [] || f.uuid < fixed[0].uuid then [f] + fixed else [fixed[0]] + InsertFixed(fixed[1..], f)
  }

  function SortFixed(fixed: seq<Fixed>): seq<Fixed> {
    if fixed == [] then [] else InsertFixed(SortFixed(fixed[..|fixed| - 1]), fixed[|fixed| - 1])
  }

  function Save(m: Manager, r: Record, write: Write): (Manager, bool) {
    var next := m.records[r.peer := r];
    match write
    case Stored =>
      var replaced := r.peer in m.records && m.records[r.peer].id != r.id;
      (m.(records := next, disk := next, checks := if replaced then m.checks - {r.peer} else m.checks), true)
    case Unwritten => (m, false)
    case Unsynced => (m.(disk := next), false)
  }

  function Delete(cfg: Config, m: Manager, remote: Uuid, now: Time, write: Write,
      interfaces: set<Interface>): (Manager, bool)
  {
    if remote !in m.records then (m, true)
    else
      match write
      case Stored =>
        (m.(records := m.records - {remote}, disk := m.records - {remote},
            cooldown := m.cooldown[remote := now + cfg.stable],
            operations := m.operations - {remote}, checks := m.checks - {remote},
            observations := m.observations - interfaces), true)
      case Unwritten => (m, false)
      case Unsynced => (m.(disk := m.records - {remote}), false)
  }

  // ---------------------------------------------------------------- capacity and eligibility

  function Reserving(m: Manager, now: Time): set<Uuid> {
    set p | p in m.operations && p !in m.records && now < m.operations[p].until
  }

  function ConfirmedPeers(m: Manager): set<Uuid> {
    set p | p in m.records && m.records[p].confirmed
  }

  function ObservationOf(m: Manager, interface: Interface): Option<Observation> {
    if interface in m.observations then Some(m.observations[interface]) else None
  }

  function Eligible(cfg: Config, m: Manager, interface: Interface, now: Time): Option<Fixed> {
    var o := ObservationOf(m, interface);
    if EligibleObservation(o, now, cfg.stable) then Some(Fixed(cfg.own, o.value.local)) else None
  }

  function LiveOperation(m: Manager, peer: Uuid, now: Time): Option<Operation> {
    if peer in m.operations && now < m.operations[peer].until then Some(m.operations[peer]) else None
  }

  /** Another operation with this peer is under way and has precedence. */
  predicate Busy(cfg: Config, m: Manager, peer: Uuid, session: SessionId, id: Id, now: Time) {
    var current := LiveOperation(m, peer, now);
    && current.Some? && current.value.session != Some(session) && current.value.record.id != id
    && (!current.value.outgoing || cfg.own < peer)
  }

  predicate Full(cfg: Config, m: Manager, peer: Uuid, noDurable: bool, now: Time) {
    var reserved := |Reserving(m, now)| - if LiveOperation(m, peer, now).Some? then 1 else 0;
    && peer !in m.records
    && (|m.records| >= MAX_DYNAMIC_LINKS || (|m.records| + reserved >= cfg.softLimit && !noDurable))
  }

  /** An endpoint of the proposal is the one this Link really uses, and our own is stable or already agreed. */
  predicate EndpointAllowed(cfg: Config, m: Manager, plan: Plan, peer: Uuid, o: Observation, now: Time, f: Fixed) {
    if f.uuid == cfg.own then
      && ((peer in m.records && FixedFor(m.records[peer].fixed, cfg.own) == Some(f.endpoint))
          || Eligible(cfg, m, plan.interface, now).Some?)
      && f.endpoint == o.local && f.endpoint.port == o.port
    else
      f.uuid == peer && f.endpoint == o.remote
  }

  predicate Acceptable(cfg: Config, m: Manager, plan: Plan, peer: Uuid, session: SessionId, p: Message, env: Env)
    requires p.Propose?
  {
    && !m.closed && (peer in m.cooldown ==> m.cooldown[peer] <= env.now) && env.allowsInbound
    && !Busy(cfg, m, peer, session, p.id, env.now)
    && !Full(cfg, m, peer, p.noDurable, env.now)
    && var o := ObservationOf(m, plan.interface);
    && o.Some? && env.now - o.value.seen < LINK_FAILURE_TIMEOUT
    && (forall f | f in p.fixed :: EndpointAllowed(cfg, m, plan, peer, o.value, env.now, f))
    && (Resumes(m, peer, p.id) ==> m.records[peer].fixed == p.fixed)
  }

  predicate Resumes(m: Manager, peer: Uuid, id: Id) {
    peer in m.records && m.records[peer].id == id
  }

  // ---------------------------------------------------------------- messages

  function Say(m: Manager, message: Message, env: Env, end: End): Outcome {
    if env.sendOk then Outcome(m, Some(message), end) else Outcome(m, None, Failed(SendFailed))
  }

  function RecordOf(m: Manager, plan: Plan, peer: Uuid, loopback: Option<Address>, p: Message): Record
    requires p.Propose?
  {
    Record(p.id, peer, loopback, plan.publicKey,
           if plan.interface in m.observations then m.observations[plan.interface].port else 0,
           p.fixed, Resumes(m, peer, p.id) && m.records[peer].confirmed)
  }

  /** A stable endpoint of ours that the proposal lacks makes it a new proposal of ours. */
  predicate Counters(cfg: Config, m: Manager, plan: Plan, peer: Uuid, p: Message, now: Time)
    requires p.Propose?
  {
    !Resumes(m, peer, p.id) && Eligible(cfg, m, plan.interface, now).Some? && FixedFor(p.fixed, cfg.own).None?
  }

  function OnPropose(cfg: Config, m: Manager, plan: Plan, peer: Uuid, session: SessionId, loopback: Option<Address>,
    p: Message, env: Env): Outcome
    requires p.Propose?
  {
    if !Acceptable(cfg, m, plan, peer, session, p, env) then
      Say(m, Decline(p.id), env, Complete)
    else
      var record := RecordOf(m, plan, peer, loopback, p);
      if Counters(cfg, m, plan, peer, p, env.now) then
        CounterProposal(m, peer, session, record, Eligible(cfg, m, plan.interface, env.now).value, env)
      else AcceptProposal(m, peer, session, record, env)
  }

  /** A proposal of ours in answer, with our own endpoint added to the peer's. */
  function CounterProposal(m: Manager, peer: Uuid, session: SessionId, record: Record, own: Fixed, env: Env): Outcome {
    if env.freshId.None? then Outcome(m, None, Failed(NoIdentifier))
    else
      var counter := record.(id := env.freshId.value, fixed := SortFixed(record.fixed + [own]));
      var op := Operation(counter, Some(session), false, false, false, env.now + OPERATION_TIMEOUT);
      Say(m.(operations := m.operations[peer := op]), Propose(counter.id, counter.fixed, false), env, Continue)
  }

  /** A proposal taken as it is: saved before it is confirmed to the peer. */
  function AcceptProposal(m: Manager, peer: Uuid, session: SessionId, record: Record, env: Env): Outcome {
    var (saved, ok) := Save(m, record, env.firstWrite);
    if !ok then Outcome(saved, None, Failed(SaveFailed))
    else
      var op := Operation(record, Some(session), false, true, false, env.now + OPERATION_TIMEOUT);
      var waiting := saved.(operations := saved.operations[peer := op]);
      if !env.healthyAfterSave then Outcome(waiting, None, Failed(LinkChanged))
      else Say(waiting, Saved(record.id), env, Continue)
  }

  /** The peer has saved: save too if not yet done, tell it, and confirm. */
  function OnSaved(m: Manager, peer: Uuid, session: SessionId, id: Id, env: Env): Outcome {
    var op := LiveOperation(m, peer, env.now);
    if m.closed || op.None? || op.value.record.id != id || op.value.session != Some(session) then
      Outcome(m, None, Failed(StaleConfirmation))
    else if op.value.saved then
      Confirm(m, peer, op.value, None, env)
    else
      var (saved, ok) := Save(m, op.value.record, env.firstWrite);
      if !ok then Outcome(saved, None, Failed(SaveFailed))
      else
        var done := op.value.(saved := true);
        var waiting := saved.(operations := saved.operations[peer := done]);
        if !env.healthyAfterSave then Outcome(waiting, None, Failed(LinkChanged))
        else if !env.sendOk then Outcome(waiting, None, Failed(SendFailed))
        else Confirm(waiting, peer, done, Some(Saved(id)), env)
  }

  function Confirm(m: Manager, peer: Uuid, op: Operation, out: Option<Message>, env: Env): Outcome {
    if !env.healthyAtEnd then Outcome(m, out, Failed(LinkChanged))
    else
      var told := m.(operations := m.operations[peer := op.(peerSaved := true)]);
      var (saved, ok) := Save(told, op.record.(confirmed := true), env.secondWrite);
      if !ok then Outcome(saved, out, Failed(SaveFailed))
      else Outcome(saved.(operations := saved.operations - {peer}), out, Complete)
  }

  function OnDecline(m: Manager, peer: Uuid, session: SessionId, id: Id, now: Time): Outcome {
    var mine := peer in m.operations && m.operations[peer].session == Some(session)
        && m.operations[peer].record.id == id;
    if !mine then Outcome(m, None, Complete)
    else
      var paused := m.operations[peer].(until := now + DECLINE_PAUSE);
      Outcome(m.(operations := m.operations[peer := paused]), None, Complete)
  }

  function HandleLink(cfg: Config, m: Manager, plan: Plan, peer: Uuid, session: SessionId, loopback: Option<Address>,
    message: Message, env: Env): Outcome
  {
    if !env.linkCurrent then Outcome(m, None, Failed(NotCurrentLink))
    else
      match message
      case Propose(_, _, _) => OnPropose(cfg, m, plan, peer, session, loopback, message, env)
      case Saved(id) => OnSaved(m, peer, session, id, env)
      case Decline(id) => OnDecline(m, peer, session, id, env.now)
  }

  // ---------------------------------------------------------------- proposing

  /** A materialised automatic Link as tick sees it. */
  datatype LinkState = LinkState(
    interface: Interface, remote: Uuid, dynamic: bool, active: bool, publicKey: nat, firstPeer: Option<Address>)

  /** The operation tick starts for one Link, if any, and the first message it will carry. */
  function TickLink(cfg: Config, m: Manager, l: LinkState, env: Env): (Manager, Option<Message>) {
    var record := if l.remote in m.records then Some(m.records[l.remote]) else None;
    var o := ObservationOf(m, l.interface);
    if !l.dynamic || !l.active || LiveOperation(m, l.remote, env.now).Some? then (m, None)
    else if record.Some? && record.value.confirmed then (m, None)
    else if o.None? || o.value.control.None? || env.now - o.value.seen >= LINK_FAILURE_TIMEOUT then (m, None)
    else if record.Some? then StartOperation(m, l.remote, record.value, env.now)
    else
      var own := Eligible(cfg, m, l.interface, env.now);
      if !env.active || own.None? || |m.records| + |Reserving(m, env.now)| >= cfg.softLimit
          || env.freshId.None? then (m, None)
      else
        StartOperation(m, l.remote,
          Record(env.freshId.value, l.remote, l.firstPeer, l.publicKey, o.value.port, [own.value], false), env.now)
  }

  function StartOperation(m: Manager, remote: Uuid, record: Record, now: Time): (Manager, Option<Message>) {
    (m.(operations := m.operations[remote := Operation(record, None, true, false, false, now + OPERATION_TIMEOUT)]),
     Some(Propose(record.id, record.fixed, ConfirmedPeers(m) == {})))
  }

  // ---------------------------------------------------------------- observations

  /** An accepted sample updates the entry; a Link that moved off an agreed endpoint ends the agreement. */
  function Observe(cfg: Config, m: Manager, interface: Interface, remote: Uuid, s: Sample, clock: Time, current: bool,
    write: Write, interfaces: set<Interface>): (Manager, bool)
  {
    var previous := ObservationOf(m, interface);
    if !current || clock - s.at >= LINK_FAILURE_TIMEOUT || (previous.Some? && s.at < previous.value.seen) then (m, true)
    else
      var noted := m.(observations := m.observations[interface := Observed(previous, s)]);
      if Moved(cfg, noted, remote, s) then Delete(cfg, noted, remote, clock, write, interfaces) else (noted, true)
  }

  predicate Moved(cfg: Config, m: Manager, remote: Uuid, s: Sample) {
    && remote in m.records
    && var own, peer := FixedFor(m.records[remote].fixed, cfg.own), FixedFor(m.records[remote].fixed, remote);
    || (own.Some? && (own.value != s.local || own.value.port != s.port))
    || (peer.Some? && peer.value != s.remote)
  }

  // ---------------------------------------------------------------- checking an agreement

  datatype Status = Absent | NotReady | Ready

  datatype Action = Superseded | Idle | Dropped | Ask(query: nat)

  function NewCheck(id: Id): Check {
    Check(id, None, NO_FAILURE, false, 0, 0)
  }

  function CheckOf(m: Manager, r: Record): Check {
    if r.peer in m.checks then m.checks[r.peer] else NewCheck(r.id)
  }

  /** What the rest of the node finds while one agreement is checked; `connected` is after any attempt to restore. */
  datatype Found = Found(now: Time, connected: bool, localReady: bool, freshQuery: Option<nat>)

  /** The check of this record after its timer was told what one evaluation found, and whether it ran out. */
  function Evaluated(m: Manager, r: Record, f: Found): (Check, bool) {
    var c := CheckOf(m, r);
    var (timer, failed) := DurableTimers.Note(c.timer, Evaluate(f.now, f.localReady, f.connected));
    (Inspected(c, f.now).(timer := timer), failed)
  }

  function Inspected(c: Check, now: Time): Check {
    if now >= c.restoreAfter then c.(restoreAfter := now + CHECK_INTERVAL) else c
  }

  function WithCheck(m: Manager, peer: Uuid, c: Check): Manager {
    m.(checks := m.checks[peer := c])
  }

  function ActionFor(m: Manager, r: Record, f: Found): Action {
    var (c, failed) := Evaluated(m, r, f);
    if !Resumes(m, r.peer, r.id) then Superseded
    else if failed then Dropped
    else if f.connected || c.busy || f.now < c.next || f.freshQuery.None? then Idle
    else Ask(f.freshQuery.value)
  }

  /** The check as this evaluation leaves it. */
  function CheckAfter(m: Manager, r: Record, f: Found): Check {
    var (c, failed) := Evaluated(m, r, f);
    match ActionFor(m, r, f)
    case Superseded => Inspected(CheckOf(m, r), f.now)
    case Dropped => c
    case Idle => c
    case Ask(query) => c.(query := Some(query), busy := true, next := f.now + CHECK_INTERVAL)
  }

  /** restoreAndCheck for one record of its snapshot. */
  function CheckRecord(cfg: Config, m: Manager, r: Record, f: Found, write: Write,
      interfaces: set<Interface>): (Manager, Action)
  {
    var next, action := WithCheck(m, r.peer, CheckAfter(m, r, f)), ActionFor(m, r, f);
    (if action.Dropped? then Delete(cfg, next, r.peer, f.now, write, interfaces).0 else next, action)
  }

  /** A reply counts only for this record, this check and the query it asked. */
  predicate Answers(m: Manager, r: Record, query: nat, answered: nat, agreement: Id) {
    && answered == query && agreement == r.id && Resumes(m, r.peer, r.id)
    && r.peer in m.checks && m.checks[r.peer].query == Some(query)
  }

  function AcceptStatus(cfg: Config, m: Manager, r: Record, query: nat, answered: nat, agreement: Id, status: Status,
    now: Time, directLink: bool, write: Write, interfaces: set<Interface>): (Manager, bool)
  {
    if !Answers(m, r, query, answered, agreement) then (m, true)
    else
      match status
      case Ready => (WithTimer(m, r.peer, PeerReady(now)), true)
      case NotReady => (WithTimer(m, r.peer, PeerNotReady), true)
      case Absent =>
        if m.records[r.peer].confirmed || !directLink then Delete(cfg, m, r.peer, now, write, interfaces) else (m, true)
  }

  function WithTimer(m: Manager, peer: Uuid, e: CheckEvent): Manager
    requires peer in m.checks
  {
    m.(checks := m.checks[peer := m.checks[peer].(timer := DurableTimers.Note(m.checks[peer].timer, e).0)])
  }

  /** The worker that asked this query has ended; a check that has been replaced meanwhile asks another. */
  function CheckDone(m: Manager, peer: Uuid, query: nat): Manager {
    if peer in m.checks && m.checks[peer].query == Some(query)
        then WithCheck(m, peer, m.checks[peer].(busy := false)) else m
  }

  // ---------------------------------------------------------------- metadata and restarts

  /** Names, loopbacks and the port of a record without its own endpoint may change; the agreement does not. */
  function Refresh(m: Manager, peer: Uuid, loopback: Option<Address>, port: int, write: Write): (Manager, bool) {
    if peer !in m.records then (m, true)
    else Save(m, m.records[peer].(lastLoopback := loopback, localPort := port), write)
  }

  /** Opening loads the file and drops what the configuration no longer allows; nothing else survives. */
  function Reopen(m: Manager, kept: set<Uuid>): Manager {
    var records := map p | p in m.disk && p in kept :: m.disk[p];
    EMPTY.(records := records, disk := records)
  }

  // ---------------------------------------------------------------- the object

  class DurableManager {
    const config: Config
    var closed: bool
    var records: map<Uuid, Record>
    var disk: map<Uuid, Record>
    var operations: map<Uuid, Operation>
    var observations: map<Interface, Observation>
    var cooldown: map<Uuid, Time>
    var checks: map<Uuid, Check>

    constructor (config: Config, loaded: map<Uuid, Record>)
      ensures this.config == config && State() == EMPTY.(records := loaded, disk := loaded)
    {
      this.config := config;
      closed, records, disk, operations := false, loaded, loaded, map[];
      observations, cooldown, checks := map[], map[], map[];
    }

    function State(): Manager
      reads this
    {
      Manager(closed, records, disk, operations, observations, cooldown, checks)
    }

    method SaveRecord(r: Record, write: Write) returns (ok: bool)
      modifies this`records, this`disk, this`checks
      ensures (State(), ok) == Save(old(State()), r, write)
    {
      var next := records[r.peer := r];
      match write {
        case Unwritten => return false;
        case Unsynced =>
          disk := next;
          return false;
        case Stored =>
          disk := next;
          if r.peer in records && records[r.peer].id != r.id {
            checks := checks - {r.peer};
          }
          records := next;
          return true;
      }
    }

    method DeleteRecord(remote: Uuid, now: Time, write: Write, interfaces: set<Interface>) returns (ok: bool)
      modifies this
      ensures (State(), ok) == Delete(config, old(State()), remote, now, write, interfaces)
    {
      if remote !in records {
        return true;
      }
      var next := records - {remote};
      match write {
        case Unwritten => return false;
        case Unsynced =>
          disk := next;
          return false;
        case Stored =>
          records, disk := next, next;
          cooldown := cooldown[remote := now + config.stable];
          operations, checks := operations - {remote}, checks - {remote};
          observations := observations - interfaces;
          return true;
      }
    }

    /** Operations that hold a capacity slot although nothing is saved for their peer yet. */
    method Reservations(now: Time) returns (n: nat)
      ensures n == |Reserving(State(), now)|
    {
      n := 0;
      var left := operations.Keys;
      ghost var counted: set<Uuid> := {};
      while left != {}
        invariant left <= operations.Keys && left !! counted
        invariant n == |counted|
        invariant forall p :: p in operations && p !in left ==>
            (p in counted <==> p !in records && now < operations[p].until)
        invariant counted <= operations.Keys
        decreases |left|
      {
        var p :| p in left;
        left := left - {p};
        if p !in records && now < operations[p].until {
          n, counted := n + 1, counted + {p};
        }
      }
      assert counted == Reserving(State(), now);
    }

    method FixedIn(fixed: seq<Fixed>, id: Uuid) returns (r: Option<Endpoint>)
      ensures r == FixedFor(fixed, id)
    {
      for i := 0 to |fixed|
        invariant FixedFor(fixed, id) == FixedFor(fixed[i..], id)
      {
        if fixed[i].uuid == id {
          return Some(fixed[i].endpoint);
        }
        assert fixed[i..][1..] == fixed[i + 1..];
      }
      return None;
    }

    method ProposalAllowed(plan: Plan, peer: Uuid, session: SessionId, p: Message, env: Env) returns (ok: bool)
      requires p.Propose?
      ensures ok == Acceptable(config, State(), plan, peer, session, p, env)
    {
      if closed || (peer in cooldown && env.now < cooldown[peer]) || !env.allowsInbound {
        return false;
      }
      var live := peer in operations && env.now < operations[peer].until;
      if live && operations[peer].session != Some(session) && operations[peer].record.id != p.id {
        if !operations[peer].outgoing || config.own < peer {
          return false;
        }
      }
      var stored := peer in records;
      var reserved: int := Reservations(env.now);
      if live && !stored {
        reserved := reserved - 1;
      }
      if !stored && (|records| >= MAX_DYNAMIC_LINKS || (|records| + reserved >= config.softLimit && !p.noDurable)) {
        return false;
      }
      if plan.interface !in observations || env.now - observations[plan.interface].seen >= LINK_FAILURE_TIMEOUT {
        return false;
      }
      var o := observations[plan.interface];
      var allowed := EndpointsAllowed(plan, peer, o, p.fixed, env.now);
      if !allowed {
        return false;
      }
      return !(stored && records[peer].id == p.id && records[peer].fixed != p.fixed);
    }

    /** Our own endpoint only as agreed before or stable now, and as the Link really uses it; the peer's as observed. */
    method EndpointsAllowed(plan: Plan, peer: Uuid, o: Observation, fixed: seq<Fixed>, now: Time) returns (ok: bool)
      ensures ok <==> forall f | f in fixed :: EndpointAllowed(config, State(), plan, peer, o, now, f)
    {
      for i := 0 to |fixed|
        invariant forall f | f in fixed[..i] :: EndpointAllowed(config, State(), plan, peer, o, now, f)
      {
        var f := fixed[i];
        assert f in fixed;
        if f.uuid == config.own {
          var known := None;
          if peer in records {
            known := FixedIn(records[peer].fixed, config.own);
          }
          if known != Some(f.endpoint) && Eligible(config, State(), plan.interface, now).None? {
            return false;
          }
          if f.endpoint != o.local || f.endpoint.port != o.port {
            return false;
          }
        } else if f.uuid != peer || f.endpoint != o.remote {
          return false;
        }
      }
      return true;
    }

    method AnswerPropose(plan: Plan, peer: Uuid, session: SessionId, loopback: Option<Address>, p: Message, env: Env)
      returns (out: Option<Message>, end: End)
      requires p.Propose?
      modifies this
      ensures Outcome(State(), out, end) == OnPropose(config, old(State()), plan, peer, session, loopback, p, env)
    {
      var allowed := ProposalAllowed(plan, peer, session, p, env);
      if !allowed {
        out, end := Reply(Decline(p.id), env, Complete);
        return;
      }
      var record := RecordOf(State(), plan, peer, loopback, p);
      var own := Eligible(config, State(), plan.interface, env.now);
      var known := FixedIn(p.fixed, config.own);
      if !(peer in records && records[peer].id == p.id) && own.Some? && known.None? {
        if env.freshId.None? {
          return None, Failed(NoIdentifier);
        }
        record := record.(id := env.freshId.value, fixed := SortFixed(record.fixed + [own.value]));
        operations := operations[peer :=
                                 Operation(record, Some(session), false, false, false, env.now + OPERATION_TIMEOUT)];
        out, end := Reply(Propose(record.id, record.fixed, false), env, Continue);
        return;
      }
      var ok := SaveRecord(record, env.firstWrite);
      if !ok {
        return None, Failed(SaveFailed);
      }
      operations := operations[peer :=
                               Operation(record, Some(session), false, true, false, env.now + OPERATION_TIMEOUT)];
      if !env.healthyAfterSave {
        return None, Failed(LinkChanged);
      }
      out, end := Reply(Saved(record.id), env, Continue);
    }

    method Reply(message: Message, env: Env, end: End) returns (out: Option<Message>, result: End)
      ensures Outcome(State(), out, result) == Say(State(), message, env, end)
    {
      if env.sendOk {
        return Some(message), end;
      }
      return None, Failed(SendFailed);
    }

    method AnswerSaved(peer: Uuid, session: SessionId, id: Id, env: Env) returns (out: Option<Message>, end: End)
      modifies this
      ensures Outcome(State(), out, end) == OnSaved(old(State()), peer, session, id, env)
    {
      out := None;
      if closed || peer !in operations || env.now >= operations[peer].until
         || operations[peer].record.id != id || operations[peer].session != Some(session) {
        return None, Failed(StaleConfirmation);
      }
      var op := operations[peer];
      if !op.saved {
        var ok := SaveRecord(op.record, env.firstWrite);
        if !ok {
          return None, Failed(SaveFailed);
        }
        op := op.(saved := true);
        operations := operations[peer := op];
        if !env.healthyAfterSave {
          return None, Failed(LinkChanged);
        }
        if !env.sendOk {
          return None, Failed(SendFailed);
        }
        out := Some(Saved(id));
      }
      if !env.healthyAtEnd {
        return out, Failed(LinkChanged);
      }
      operations := operations[peer := op.(peerSaved := true)];
      var confirmed := SaveRecord(op.record.(confirmed := true), env.secondWrite);
      if !confirmed {
        return out, Failed(SaveFailed);
      }
      operations := operations - {peer};
      return out, Complete;
    }

    method OnMessage(plan: Plan, peer: Uuid, session: SessionId, loopback: Option<Address>, message: Message, env: Env)
      returns (out: Option<Message>, end: End)
      modifies this
      ensures Outcome(State(), out, end)
          == HandleLink(config, old(State()), plan, peer, session, loopback, message, env)
    {
      if !env.linkCurrent {
        return None, Failed(NotCurrentLink);
      }
      match message {
        case Propose(_, _, _) => out, end := AnswerPropose(plan, peer, session, loopback, message, env);
        case Saved(id) => out, end := AnswerSaved(peer, session, id, env);
        case Decline(id) =>
          if peer in operations && operations[peer].session == Some(session) && operations[peer].record.id == id {
            operations := operations[peer := operations[peer].(until := env.now + DECLINE_PAUSE)];
          }
          return None, Complete;
      }
    }

    method Tick(l: LinkState, env: Env) returns (first: Option<Message>)
      modifies this`operations
      ensures (State(), first) == TickLink(config, old(State()), l, env)
    {
      if !l.dynamic || !l.active || (l.remote in operations && env.now < operations[l.remote].until) {
        return None;
      }
      var stored := l.remote in records;
      if stored && records[l.remote].confirmed {
        return None;
      }
      if l.interface !in observations {
        return None;
      }
      var o := observations[l.interface];
      if o.control.None? || env.now - o.seen >= LINK_FAILURE_TIMEOUT {
        return None;
      }
      var record;
      if stored {
        record := records[l.remote];
      } else {
        var own := Eligible(config, State(), l.interface, env.now);
        var reserved := Reservations(env.now);
        if !env.active || own.None? || |records| + reserved >= config.softLimit || env.freshId.None? {
          return None;
        }
        record := Record(env.freshId.value, l.remote, l.firstPeer, l.publicKey, o.port, [own.value], false);
      }
      first := Some(Propose(record.id, record.fixed, ConfirmedPeers(State()) == {}));
      operations := operations[l.remote := Operation(record, None, true, false, false, env.now + OPERATION_TIMEOUT)];
    }

    method OnObservation(interface: Interface, remote: Uuid, s: Sample, clock: Time, current: bool, write: Write,
      interfaces: set<Interface>) returns (ok: bool)
      modifies this
      ensures (State(), ok) == Observe(config, old(State()), interface, remote, s, clock, current, write, interfaces)
    {
      if !current || clock - s.at >= LINK_FAILURE_TIMEOUT {
        return true;
      }
      var previous := ObservationOf(State(), interface);
      if previous.Some? && s.at < previous.value.seen {
        return true;
      }
      var since := if previous.None? || previous.value.local != s.local || previous.value.port != s.port
                      || s.at - previous.value.seen >= LINK_FAILURE_TIMEOUT then s.at else previous.value.since;
      observations := observations[interface := Observation(s.local, s.remote, s.control, s.port, since, s.at)];
      if remote in records {
        var own := FixedIn(records[remote].fixed, config.own);
        var peer := FixedIn(records[remote].fixed, remote);
        if (own.Some? && (own.value != s.local || own.value.port != s.port)) || (peer.Some? && peer.value != s.remote) {
          ok := DeleteRecord(remote, clock, write, interfaces);
          return;
        }
      }
      return true;
    }

    method CheckOne(r: Record, f: Found, write: Write, interfaces: set<Interface>) returns (action: Action)
      modifies this
      ensures (State(), action) == CheckRecord(config, old(State()), r, f, write, interfaces)
    {
      var peer := r.peer;
      var c := if peer in checks then checks[peer] else NewCheck(r.id);
      var timing := DurableTimers.Note(c.timer, Evaluate(f.now, f.localReady, f.connected));
      if f.now >= c.restoreAfter {
        c := c.(restoreAfter := f.now + CHECK_INTERVAL);
      }
      if peer !in records || records[peer].id != r.id {
        checks := checks[peer := c];
        return Superseded;
      }
      c := c.(timer := timing.0);
      if timing.1 {
        checks := checks[peer := c];
        var ok := DeleteRecord(peer, f.now, write, interfaces);
        return Dropped;
      }
      if f.connected || c.busy || f.now < c.next || f.freshQuery.None? {
        checks := checks[peer := c];
        return Idle;
      }
      c := c.(query := f.freshQuery, busy := true, next := f.now + CHECK_INTERVAL);
      checks := checks[peer := c];
      return Ask(f.freshQuery.value);
    }

    method CheckEnded(peer: Uuid, query: nat)
      modifies this`checks
      ensures State() == CheckDone(old(State()), peer, query)
    {
      if peer in checks && checks[peer].query == Some(query) {
        checks := checks[peer := checks[peer].(busy := false)];
      }
    }

    method OnStatus(r: Record, query: nat, answered: nat, agreement: Id, status: Status, now: Time, directLink: bool,
      write: Write, interfaces: set<Interface>) returns (ok: bool)
      modifies this
      ensures (State(), ok)
           == AcceptStatus(config, old(State()), r, query, answered, agreement, status, now, directLink, write,
                           interfaces)
    {
      if answered != query || agreement != r.id {
        return true;
      }
      if r.peer !in records || records[r.peer].id != r.id || r.peer !in checks || checks[r.peer].query != Some(query) {
        return true;
      }
      match status {
        case Ready =>
          var timer := checks[r.peer].timer.(readyUntil := Some(now + READY_FRESHNESS));
          checks := checks[r.peer := checks[r.peer].(timer := timer)];
        case NotReady =>
          checks := checks[r.peer := checks[r.peer].(timer := NO_FAILURE)];
        case Absent =>
          if records[r.peer].confirmed || !directLink {
            ok := DeleteRecord(r.peer, now, write, interfaces);
            return;
          }
      }
      return true;
    }
  }
}
