/** What a node's own history guarantees in every run of the durable exchange: a confirmation is never taken back while
    its agreement stays, and an agreement is dropped for failure only after an unbroken half hour. */
module DurableHistory {
  import opened Common
  import opened Net
  import opened DurableTimers
  import opened Durable
  import opened DurableRuns

  // ---------------------------------------------------------------- confirmations stay

  predicate Keeps(m: Manager, next: Manager) {
    forall p | p in m.records && m.records[p].confirmed && Resumes(next, p, m.records[p].id) ::
        next.records[p].confirmed
  }

  /** No check is added or changed. */
  predicate ChecksStay(m: Manager, next: Manager) {
    forall p | p in next.checks :: p in m.checks && next.checks[p] == m.checks[p]
  }

  predicate Alike(m: Manager, next: Manager) {
    next.records == m.records && next.checks == m.checks
  }

  /** No confirmation is taken back and no check is touched. */
  predicate Calm(m: Manager, next: Manager) {
    Keeps(m, next) && ChecksStay(m, next)
  }

  lemma SaveIsCalm(m: Manager, r: Record, write: Write)
    requires Resumes(m, r.peer, r.id) && m.records[r.peer].confirmed ==> r.confirmed
    ensures Calm(m, Save(m, r, write).0)
  {
  }

  lemma DeleteIsCalm(cfg: Config, m: Manager, peer: Uuid, now: Time, write: Write, interfaces: set<Interface>)
    ensures Calm(m, Delete(cfg, m, peer, now, write, interfaces).0)
    ensures var next := Delete(cfg, m, peer, now, write, interfaces).0;
            forall p | p in next.records :: p in m.records && next.records[p] == m.records[p]
  {
  }

  lemma AcceptShape(m: Manager, peer: Uuid, session: SessionId, record: Record, env: Env)
    ensures Alike(Save(m, record, env.firstWrite).0, AcceptProposal(m, peer, session, record, env).m)
  {
  }

  lemma CounterShape(m: Manager, peer: Uuid, session: SessionId, record: Record, own: Fixed, env: Env)
    ensures Alike(m, CounterProposal(m, peer, session, record, own, env).m)
  {
  }

  lemma ProposeShape(cfg: Config, m: Manager, plan: Plan, peer: Uuid, session: SessionId, loopback: Option<Address>,
    p: Message, env: Env)
    requires p.Propose?
    ensures
      var next := OnPropose(cfg, m, plan, peer, session, loopback, p, env).m;
      Alike(m, next) || Alike(Save(m, RecordOf(m, plan, peer, loopback, p), env.firstWrite).0, next)
  {
    AcceptShape(m, peer, session, RecordOf(m, plan, peer, loopback, p), env);
    if Eligible(cfg, m, plan.interface, env.now).Some? {
      CounterShape(m, peer, session, RecordOf(m, plan, peer, loopback, p),
                   Eligible(cfg, m, plan.interface, env.now).value, env);
    }
  }

  lemma ProposeIsCalm(cfg: Config, m: Manager, plan: Plan, peer: Uuid, session: SessionId, loopback: Option<Address>,
    p: Message, env: Env)
    requires p.Propose?
    ensures Calm(m, OnPropose(cfg, m, plan, peer, session, loopback, p, env).m)
  {
    ProposeShape(cfg, m, plan, peer, session, loopback, p, env);
    SaveIsCalm(m, RecordOf(m, plan, peer, loopback, p), env.firstWrite);
  }

  lemma ConfirmShape(m: Manager, peer: Uuid, op: Operation, out: Option<Message>, env: Env)
    ensures
      var next := Confirm(m, peer, op, out, env).m;
      Alike(m, next) || Alike(Save(m, op.record.(confirmed := true), Stored).0, next)
  {
    var record, next := op.record.(confirmed := true), Confirm(m, peer, op, out, env).m;
    if env.healthyAtEnd && env.secondWrite.Stored? {
      assert next.records == m.records[record.peer := record];
    } else {
      assert next.records == m.records && next.checks == m.checks;
    }
  }

  lemma ConfirmIsCalm(m: Manager, peer: Uuid, op: Operation, out: Option<Message>, env: Env)
    ensures Calm(m, Confirm(m, peer, op, out, env).m)
  {
    ConfirmShape(m, peer, op, out, env);
    SaveIsCalm(m, op.record.(confirmed := true), Stored);
  }

  lemma SavedIsCalm(m: Manager, peer: Uuid, session: SessionId, id: Id, env: Env)
    requires Sticky(m) && peer in m.operations && m.operations[peer].record.peer == peer
    ensures Calm(m, OnSaved(m, peer, session, id, env).m)
  {
    var op := m.operations[peer];
    if op.saved {
      ConfirmIsCalm(m, peer, op, None, env);
    } else {
      var (saved, ok) := Save(m, op.record, env.firstWrite);
      SaveIsCalm(m, op.record, env.firstWrite);
      if ok {
        var done := op.(saved := true);
        var waiting := saved.(operations := saved.operations[peer := done]);
        ConfirmShape(waiting, peer, done, Some(Saved(id)), env);
        SaveIsCalm(saved, op.record.(confirmed := true), Stored);
        TwoSaves(m, op.record);
      }
    }
  }

  lemma TwoSaves(m: Manager, r: Record)
    requires Resumes(m, r.peer, r.id) ==> !m.records[r.peer].confirmed
    ensures Calm(m, Save(Save(m, r, Stored).0, r.(confirmed := true), Stored).0)
  {
  }

  lemma WatchIsCalm(cfg: Config, m: Manager, e: Event)
    requires e.Watched?
    ensures Calm(m, Observe(cfg, m, e.interface, e.remote, e.sample, e.clock, e.current, e.write, e.interfaces).0)
  {
    var noted := m.(observations := m.observations[e.interface := Observed(ObservationOf(m, e.interface), e.sample)]);
    DeleteIsCalm(cfg, noted, e.remote, e.clock, e.write, e.interfaces);
  }

  lemma CheckKeeps(cfg: Config, m: Manager, r: Record, f: Found, write: Write, interfaces: set<Interface>)
    ensures Keeps(m, CheckRecord(cfg, m, r, f, write, interfaces).0)
  {
    DeleteIsCalm(cfg, WithCheck(m, r.peer, CheckAfter(m, r, f)), r.peer, f.now, write, interfaces);
  }

  lemma ReplyKeeps(cfg: Config, m: Manager, e: Event)
    requires e.Replied?
    ensures
      var next := AcceptStatus(cfg, m, e.record, e.query, e.answered, e.agreement, e.status, e.now, e.directLink,
                               e.write, e.interfaces).0;
      Keeps(m, next) && (e.status.Absent? ==> ChecksStay(m, next))
  {
    DeleteIsCalm(cfg, m, e.record.peer, e.now, e.write, e.interfaces);
  }

  lemma LinkIsCalm(cfg: Config, m: Manager, e: Event)
    requires e.Deliver? && Sticky(m) && forall p | p in m.operations :: m.operations[p].record.peer == p
    ensures
      var p := e.packet;
      Calm(m, HandleLink(cfg, m, e.plan, p.from, p.session, e.loopback, p.message, e.env).m)
  {
    var p := e.packet;
    match p.message {
      case Propose(_, _, _) => ProposeIsCalm(cfg, m, e.plan, p.from, p.session, e.loopback, p.message, e.env);
      case Saved(id) =>
        if p.from in m.operations {
          SavedIsCalm(m, p.from, p.session, id, e.env);
        }
      case Decline(_) =>
    }
  }

  lemma TickIsCalm(cfg: Config, m: Manager, l: LinkState, env: Env)
    ensures Alike(m, TickLink(cfg, m, l, env).0)
  {
  }

  lemma LocalIsCalm(configs: map<Uuid, Config>, w: World, e: Event)
    requires Inv(w) && Enabled(w, e) && Actor(e) in configs
    requires e.Connected? || e.Forget? || e.Refreshed? || e.Lost? || e.Stopping?
    ensures Calm(w.nodes[Actor(e)], Next(configs[Actor(e)], w, e))
  {
    var cfg, m := configs[Actor(e)], w.nodes[Actor(e)];
    assert NodeOk(Actor(e), m, w.minted, w.persisted);
    if e.Forget? {
      DeleteIsCalm(cfg, m, e.peer, e.now, e.write, e.interfaces);
    } else if e.Refreshed? && e.peer in m.records {
      SaveIsCalm(m, m.records[e.peer].(lastLoopback := e.loopback, localPort := e.port), e.write);
    }
  }

  /** Everything but a check, the end of its worker and a READY or NOT_READY reply leaves every check alone; nothing
      takes a confirmation back. */
  lemma NextIsCalm(configs: map<Uuid, Config>, w: World, e: Event)
    requires Inv(w) && Enabled(w, e) && Actor(e) in configs
    ensures Keeps(w.nodes[Actor(e)], Next(configs[Actor(e)], w, e))
    ensures !e.Checked? && !e.Ended? && !(e.Replied? && !e.status.Absent?) ==>
              ChecksStay(w.nodes[Actor(e)], Next(configs[Actor(e)], w, e))
  {
    var cfg, m, next := configs[Actor(e)], w.nodes[Actor(e)], Next(configs[Actor(e)], w, e);
    assert NodeOk(Actor(e), m, w.minted, w.persisted);
    match e {
      case Deliver(p, plan, loopback, env) =>
        assert next == HandleLink(cfg, m, plan, p.from, p.session, loopback, p.message, env).m;
        LinkIsCalm(cfg, m, e);
      case Watched(_, interface, remote, sample, clock, current, write, interfaces) =>
        assert next == Observe(cfg, m, interface, remote, sample, clock, current, write, interfaces).0;
        WatchIsCalm(cfg, m, e);
      case Checked(_, r, f, write, interfaces) =>
        assert next == CheckRecord(cfg, m, r, f, write, interfaces).0;
        CheckKeeps(cfg, m, r, f, write, interfaces);
      case Replied(_, r, query, answered, agreement, status, now, directLink, write, interfaces) =>
        assert next == AcceptStatus(cfg, m, r, query, answered, agreement, status, now, directLink, write,
                                    interfaces).0;
        ReplyKeeps(cfg, m, e);
      case Ticked(_, link, env) =>
        assert next == TickLink(cfg, m, link, env).0;
        TickIsCalm(cfg, m, link, env);
      case Ended(_, peer, query) =>
        assert next == CheckDone(m, peer, query);
      case _ => LocalIsCalm(configs, w, e);
    }
  }

  /** While a node keeps the same agreement with a peer, no event of any run, a crash and restart included, takes its
      confirmation back. */
  lemma ConfirmationSticks(configs: map<Uuid, Config>, events: seq<Event>, e: Event, x: Uuid, p: Uuid)
    requires x in Run(configs, events).nodes && p in Run(configs, events).nodes[x].records
    requires Run(configs, events).nodes[x].records[p].confirmed
    ensures
      var before, after := Run(configs, events), Run(configs, events + [e]);
      && x in after.nodes
      && (Resumes(after.nodes[x], p, before.nodes[x].records[p].id) ==> after.nodes[x].records[p].confirmed)
  {
    var w := Run(configs, events);
    assert (events + [e])[..|events|] == events;
    RunKeepsInv(configs, events);
    if Enabled(w, e) && Actor(e) in configs && Actor(e) == x {
      NextIsCalm(configs, w, e);
    }
  }

  // ---------------------------------------------------------------- half an hour without a break

  lemma CheckTellsTimer(cfg: Config, m: Manager, r: Record, f: Found, write: Write, interfaces: set<Interface>)
    ensures
      var next := CheckRecord(cfg, m, r, f, write, interfaces).0;
      && (forall p | p in next.checks && p != r.peer :: p in m.checks && next.checks[p].timer == m.checks[p].timer)
      && (r.peer in next.checks ==>
            next.checks[r.peer].timer
            == if Resumes(m, r.peer, r.id)
               then DurableTimers.Note(CheckOf(m, r).timer, Evaluate(f.now, f.localReady, f.connected)).0
               else CheckOf(m, r).timer)
  {
    var next := WithCheck(m, r.peer, CheckAfter(m, r, f));
    DeleteIsCalm(cfg, next, r.peer, f.now, write, interfaces);
    CheckTimer(m, r, f);
  }

  lemma CheckTimer(m: Manager, r: Record, f: Found)
    ensures
      CheckAfter(m, r, f).timer
      == if Resumes(m, r.peer, r.id)
         then DurableTimers.Note(CheckOf(m, r).timer, Evaluate(f.now, f.localReady, f.connected)).0
         else CheckOf(m, r).timer
  {
  }

  lemma ReplyTellsTimer(cfg: Config, m: Manager, e: Event)
    requires e.Replied? && !e.status.Absent?
    ensures
      var next := AcceptStatus(cfg, m, e.record, e.query, e.answered, e.agreement, e.status, e.now, e.directLink,
                               e.write, e.interfaces).0;
      if !Answers(m, e.record, e.query, e.answered, e.agreement) then next == m
      else next == WithTimer(m, e.record.peer, if e.status.Ready? then PeerReady(e.now) else PeerNotReady)
  {
  }

  /** The peer whose timer the event may tell something, and what it tells. */
  function Told(e: Event): Uuid {
    match e
    case Checked(_, r, _, _, _) => r.peer
    case Replied(_, r, _, _, _, _, _, _, _, _) => r.peer
    case _ => 0
  }

  function Heard(m: Manager, e: Event, p: Uuid): seq<CheckEvent> {
    if p != Told(e) then []
    else
      match e
      case Checked(_, r, f, _, _) =>
        if Resumes(m, r.peer, r.id) then [Evaluate(f.now, f.localReady, f.connected)] else []
      case Replied(_, r, query, answered, agreement, status, now, _, _, _) =>
        if !Answers(m, r, query, answered, agreement) || status.Absent? then []
        else [if status.Ready? then PeerReady(now) else PeerNotReady]
      case _ => []
  }

  function TimerOf(m: Manager, p: Uuid): Failure {
    if p in m.checks then m.checks[p].timer else NO_FAILURE
  }

  function Then(timer: Failure, heard: seq<CheckEvent>): Failure {
    if heard == [] then timer else DurableTimers.Note(timer, heard[0]).0
  }

  /** Only a check starts a timer, and a timer moves only by what its event tells. */
  predicate Follows(m: Manager, next: Manager, e: Event) {
    forall p | p in next.checks ::
      && next.checks[p].timer == Then(TimerOf(m, p), Heard(m, e, p))
      && (p in m.checks || (e.Checked? && p == Told(e)))
  }

  lemma NextFollows(configs: map<Uuid, Config>, w: World, e: Event)
    requires Inv(w) && Enabled(w, e) && Actor(e) in configs
    ensures Follows(w.nodes[Actor(e)], Next(configs[Actor(e)], w, e), e)
  {
    var cfg, m := configs[Actor(e)], w.nodes[Actor(e)];
    if e.Checked? {
      CheckTellsTimer(cfg, m, e.record, e.found, e.write, e.interfaces);
    } else if e.Replied? && !e.status.Absent? {
      ReplyTellsTimer(cfg, m, e);
    } else if e.Ended? {
      EndedFollows(m, e);
    } else {
      NextIsCalm(configs, w, e);
      CalmFollows(m, Next(cfg, w, e), e);
    }
  }

  lemma EndedFollows(m: Manager, e: Event)
    requires e.Ended?
    ensures Follows(m, CheckDone(m, e.peer, e.query), e)
  {
  }

  lemma CalmFollows(m: Manager, next: Manager, e: Event)
    requires ChecksStay(m, next) && !e.Checked? && !e.Ended? && !(e.Replied? && !e.status.Absent?)
    ensures Follows(m, next, e)
  {
  }

  /** The log of what each timer was told grows by what the event tells. */
  lemma NotesGrow(w: World, e: Event, after: World, y: Uuid, p: Uuid)
    requires Enabled(w, e) && after.noted == Noting(w, e)
    requires y in w.nodes && y in after.nodes && p in after.nodes[y].checks
    requires p in w.nodes[y].checks || (e.Checked? && y == Actor(e) && p == Told(e))
    ensures NotedOf(after, y, p) == NotedOf(w, y, p) + if y == Actor(e) then Heard(w.nodes[y], e, p) else []
  {
  }

  lemma StepTellsTimers(configs: map<Uuid, Config>, w: World, e: Event)
    requires Inv(w) && TimersTold(w)
    ensures TimersTold(Step(configs, w, e))
  {
    if Enabled(w, e) && Actor(e) in configs {
      var x, after := Actor(e), Step(configs, w, e);
      var next := Next(configs[x], w, e);
      NextFollows(configs, w, e);
      assert after.nodes == w.nodes[x := next] && after.noted == Noting(w, e);
      forall y, p | y in after.nodes && p in after.nodes[y].checks
        ensures after.nodes[y].checks[p].timer == After(NotedOf(after, y, p)).0
      {
        var heard := if y == x then Heard(w.nodes[y], e, p) else [];
        NotesGrow(w, e, after, y, p);
        assert after.nodes[y].checks[p].timer == Then(TimerOf(w.nodes[y], p), heard);
        AfterThen(w, y, p, heard);
      }
    }
  }

  lemma AfterThen(w: World, y: Uuid, p: Uuid, heard: seq<CheckEvent>)
    requires TimersTold(w) && y in w.nodes && |heard| <= 1
    ensures After(NotedOf(w, y, p) + heard).0 == Then(TimerOf(w.nodes[y], p), heard)
  {
    assert After([]) == (NO_FAILURE, false);
    assert TimerOf(w.nodes[y], p) == After(NotedOf(w, y, p)).0;
    if heard == [] {
      assert NotedOf(w, y, p) + heard == NotedOf(w, y, p);
    } else {
      assert heard == [heard[0]];
      AfterOne(NotedOf(w, y, p), heard[0]);
    }
  }

  lemma AfterOne(heard: seq<CheckEvent>, e: CheckEvent)
    ensures After(heard + [e]) == DurableTimers.Note(After(heard).0, e)
  {
    assert (heard + [e])[..|heard|] == heard;
  }

  lemma {:induction false} RunTellsTimers(configs: map<Uuid, Config>, events: seq<Event>)
    ensures TimersTold(Run(configs, events))
  {
    if events != [] {
      RunTellsTimers(configs, events[..|events| - 1]);
      RunKeepsInv(configs, events[..|events| - 1]);
      StepTellsTimers(configs, Run(configs, events[..|events| - 1]), events[|events| - 1]);
    }
  }

  /** In every run, a check of the current agreement drops it exactly when the evaluations that found no direct Link,
      local readiness and fresh peer READY have run unbroken, with no NOT_READY between, for thirty minutes or more. */
  lemma DropNeedsUnbrokenFailure(configs: map<Uuid, Config>, events: seq<Event>, x: Uuid, r: Record, f: Found,
    write: Write, interfaces: set<Interface>)
    requires x in Run(configs, events).nodes && x in configs && Resumes(Run(configs, events).nodes[x], r.peer, r.id)
    ensures
      var w := Run(configs, events);
      var history := NotedOf(w, x, r.peer) + [Evaluate(f.now, f.localReady, f.connected)];
      CheckRecord(configs[x], w.nodes[x], r, f, write, interfaces).1.Dropped?
      <==> exists i: nat :: StreakStart(history, i) && f.now - history[i].now >= FAILURE_TIMEOUT
  {
    var w := Run(configs, events);
    RunTellsTimers(configs, events);
    var heard := NotedOf(w, x, r.peer);
    var history := heard + [Evaluate(f.now, f.localReady, f.connected)];
    AfterOne(heard, Evaluate(f.now, f.localReady, f.connected));
    DroppedIffUnbroken(history);
    assert CheckOf(w.nodes[x], r).timer == After(heard).0;
  }

  // ---------------------------------------------------------------- one query at a time

  /** The check of this peer waits for the end of the worker that asked `query`. */
  predicate Awaiting(m: Manager, peer: Uuid, query: nat) {
    peer in m.checks && m.checks[peer].busy && m.checks[peer].query == Some(query)
  }

  lemma CheckAwaits(cfg: Config, m: Manager, r: Record, f: Found, write: Write, interfaces: set<Interface>, peer: Uuid,
      query: nat)
    requires Awaiting(m, peer, query)
    ensures
      var (next, action) := CheckRecord(cfg, m, r, f, write, interfaces);
      && (peer in next.checks ==> Awaiting(next, peer, query))
      && (r.peer == peer ==> !action.Ask?)
  {
    DeleteIsCalm(cfg, WithCheck(m, r.peer, CheckAfter(m, r, f)), r.peer, f.now, write, interfaces);
  }

  lemma ReplyAwaits(cfg: Config, m: Manager, e: Event, peer: Uuid, query: nat)
    requires e.Replied? && Awaiting(m, peer, query)
    ensures
      var next := AcceptStatus(cfg, m, e.record, e.query, e.answered, e.agreement, e.status, e.now, e.directLink,
                               e.write, e.interfaces).0;
      peer in next.checks ==> Awaiting(next, peer, query)
  {
    DeleteIsCalm(cfg, m, e.record.peer, e.now, e.write, e.interfaces);
  }

  /** After asking a query a node asks its peer nothing more until the worker that asked it has ended or the check is
      gone. */
  lemma OneQueryAtATime(configs: map<Uuid, Config>, events: seq<Event>, e: Event, x: Uuid, peer: Uuid, query: nat)
    requires x in Run(configs, events).nodes && x in configs && Awaiting(Run(configs, events).nodes[x], peer, query)
    ensures
      var m, next := Run(configs, events).nodes[x], Run(configs, events + [e]).nodes[x];
      && (peer in next.checks && e != Ended(x, peer, query) ==> Awaiting(next, peer, query))
      && (e == Ended(x, peer, query) ==> peer in next.checks && !next.checks[peer].busy)
      && (e.Checked? && e.node == x && e.record.peer == peer ==>
            !CheckRecord(configs[x], m, e.record, e.found, e.write, e.interfaces).1.Ask?)
  {
    var w := Run(configs, events);
    assert (events + [e])[..|events|] == events;
    RunKeepsInv(configs, events);
    if Enabled(w, e) && Actor(e) == x {
      var cfg, m := configs[x], w.nodes[x];
      if e.Checked? {
        CheckAwaits(cfg, m, e.record, e.found, e.write, e.interfaces, peer, query);
      } else if e.Replied? {
        ReplyAwaits(cfg, m, e, peer, query);
      } else if !e.Ended? {
        NextIsCalm(configs, w, e);
      }
    }
  }
}
