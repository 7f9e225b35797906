/** One history of two new nodes that leads to the exchange nobody finishes: the session of their first exchange drops
    as its last SAVED is sent, both hold the agreement unconfirmed, and both start again at once. */
module DurableStall {
  import opened Common
  import opened Net
  import opened DurableTimers
  import opened Durable
  import DurableRuns
  import opened DurableResume
  import opened DurableCrossing

  const CONFIGS: map<Uuid, Config> := map[1 := Config(1, 20 * SECOND, 4), 2 := Config(2, 20 * SECOND, 4)]

  /** 192.0.2.1. */
  const HOST := Address(IPv4, [
    true, true, false, false, false, false, false, false,
    false, false, false, false, false, false, false, false,
    false, false, false, false, false, false, true, false,
    false, false, false, false, false, false, false, true])
  const HOME := Endpoint(HOST, 51820)
  const AWAY := Endpoint(HOST, 51821)
  const FIRST_MESSAGE := Propose(7, [Fixed(1, HOME)], true)

  function Near(node: Uuid): Endpoint {
    if node == 1 then HOME else AWAY
  }

  function Far(node: Uuid): Endpoint {
    if node == 1 then AWAY else HOME
  }

  function Seen(node: Uuid, at: Time): DurableRuns.Event
    requires node == 1 || node == 2
  {
    DurableRuns.Watched(node, 1, 3 - node, Sample(Near(node), Far(node), Some(HOST), Near(node).port, at),
                        at, true, Stored, {})
  }

  function Link(peer: Uuid): LinkState {
    LinkState(1, peer, true, true, 0, None)
  }

  function Arrives(from: Uuid, to: Uuid, message: Message, sendOk: bool): DurableRuns.Event {
    DurableRuns.Deliver(DurableRuns.Packet(10, from, to, message), Plan(1, 0), None,
                        Calm(20 * SECOND).(sendOk := sendOk))
  }

  /** Only node 1 has been stable for long enough to propose; its last message is not sent. */
  const STORY: seq<DurableRuns.Event> := [
    Seen(1, 0), Seen(1, 20 * SECOND), Seen(2, 20 * SECOND),
    DurableRuns.Ticked(1, Link(2), Calm(20 * SECOND).(active := true, freshId := Some(7))),
    DurableRuns.Connected(DurableRuns.Dial(1, 2, FIRST_MESSAGE), 10, None),
    Arrives(1, 2, FIRST_MESSAGE, true), Arrives(2, 1, Saved(7), false),
    Seen(1, 60 * SECOND), Seen(2, 60 * SECOND)]

  // ---------------------------------------------------------------- how the two nodes stand after each event

  const RECORD_1 := Record(7, 2, None, 0, 51820, [Fixed(1, HOME)], false)
  const RECORD_2 := Record(7, 1, None, 0, 51821, [Fixed(1, HOME)], false)

  function Watching(m: Manager, node: Uuid, since: Time, seen: Time): Manager {
    m.(observations := map[1 := Observation(Near(node), Far(node), Some(HOST), Near(node).port, since, seen)])
  }

  const WATCHING_1 := Watching(EMPTY, 1, 0, 20 * SECOND)
  const WATCHING_2 := Watching(EMPTY, 2, 20 * SECOND, 20 * SECOND)
  const DIALLED_1 := Operation(RECORD_1, None, true, false, false, 50 * SECOND)
  const SAVED_1 := DIALLED_1.(session := Some(10), saved := true)
  const SAVED_2 := Operation(RECORD_2, Some(10), false, true, false, 50 * SECOND)
  const HOLDING_1 := EMPTY.(records := map[2 := RECORD_1], disk := map[2 := RECORD_1], operations := map[2 := SAVED_1])
  const HOLDING_2 := EMPTY.(records := map[1 := RECORD_2], disk := map[1 := RECORD_2], operations := map[1 := SAVED_2])
  const LEFT := Watching(HOLDING_1, 1, 60 * SECOND, 60 * SECOND)
  const RIGHT := Watching(HOLDING_2, 2, 60 * SECOND, 60 * SECOND)

  ghost function World(k: nat): DurableRuns.World
    requires k <= |STORY|
  {
    DurableRuns.Run(CONFIGS, STORY[..k])
  }

  lemma Further(k: nat)
    requires k < |STORY|
    ensures World(k + 1) == DurableRuns.Step(CONFIGS, World(k), STORY[k])
  {
    assert STORY[..k + 1][..k] == STORY[..k];
  }

  lemma ActsAlone(configs: map<Uuid, Config>, w: DurableRuns.World, e: DurableRuns.Event)
    requires DurableRuns.Enabled(w, e) && DurableRuns.Actor(e) in configs
    ensures
      var cfg, next := configs[DurableRuns.Actor(e)], DurableRuns.Step(configs, w, e);
      && next.nodes == w.nodes[DurableRuns.Actor(e) := DurableRuns.Next(cfg, w, e)]
      && next.sent == w.sent + DurableRuns.Sending(cfg, w, e) && next.dials == w.dials + DurableRuns.Dialling(cfg, w, e)
  {
  }

  lemma OneActs(w: DurableRuns.World, e: DurableRuns.Event, a: Manager, b: Manager, next: Manager)
    requires w.nodes == map[1 := a, 2 := b] && DurableRuns.Enabled(w, e)
    requires next == DurableRuns.Next(Config(DurableRuns.Actor(e), 20 * SECOND, 4), w, e)
    ensures DurableRuns.Step(CONFIGS, w, e).nodes
         == if DurableRuns.Actor(e) == 1 then map[1 := next, 2 := b] else map[1 := a, 2 := next]
    ensures w.sent + DurableRuns.Sending(Config(DurableRuns.Actor(e), 20 * SECOND, 4), w, e)
         == DurableRuns.Step(CONFIGS, w, e).sent
    ensures w.dials + DurableRuns.Dialling(Config(DurableRuns.Actor(e), 20 * SECOND, 4), w, e)
         == DurableRuns.Step(CONFIGS, w, e).dials
  {
    var x := DurableRuns.Actor(e);
    assert x in w.nodes && (x == 1 || x == 2);
    assert x in CONFIGS && CONFIGS[x] == Config(x, 20 * SECOND, 4);
    ActsAlone(CONFIGS, w, e);
    assert w.nodes[x := next] == if x == 1 then map[1 := next, 2 := b] else map[1 := a, 2 := next];
  }

  lemma WatchedAgain(m: Manager, node: Uuid, since: Time, at: Time)
    requires node == 1 || node == 2
    requires m.observations.Keys <= {1}
    requires forall p | p in m.records :: p == 3 - node && m.records[p].fixed == [Fixed(1, HOME)]
    requires var previous := ObservationOf(m, 1);
             if previous.None? then since == at
             else
               && previous.value.local == Near(node) && previous.value.port == Near(node).port
               && previous.value.seen <= at
               && since == if at - previous.value.seen >= LINK_FAILURE_TIMEOUT then at else previous.value.since
    ensures Observe(Config(node, 20 * SECOND, 4), m, 1, 3 - node, Seen(node, at).sample, at, true, Stored, {}).0
         == Watching(m, node, since, at)
  {
    var noted := m.observations[1 := Observation(Near(node), Far(node), Some(HOST), Near(node).port, since, at)];
    assert noted == Watching(m, node, since, at).observations;
    OnlyFirst();
  }

  lemma OnlyFirst()
    ensures FixedFor([Fixed(1, HOME)], 1) == Some(HOME) && FixedFor([Fixed(1, HOME)], 2) == None
  {
    assert [Fixed(1, HOME)][1..] == [];
  }

  lemma OneWatches(w: DurableRuns.World, node: Uuid, a: Manager, b: Manager, next: Manager, at: Time)
    requires w.nodes == map[1 := a, 2 := b] && (node == 1 || node == 2)
    requires next == Observe(Config(node, 20 * SECOND, 4), if node == 1 then a else b, 1, 3 - node,
                             Seen(node, at).sample, at, true, Stored, {}).0
    ensures DurableRuns.Step(CONFIGS, w, Seen(node, at)).nodes
         == if node == 1 then map[1 := next, 2 := b] else map[1 := a, 2 := next]
    ensures DurableRuns.Step(CONFIGS, w, Seen(node, at)).minted == w.minted
  {
    OneActs(w, Seen(node, at), a, b, next);
  }

  lemma BothAreWatched()
    ensures World(3).nodes == map[1 := WATCHING_1, 2 := WATCHING_2] && World(3).minted == map[]
  {
    assert World(0) == DurableRuns.Start(CONFIGS);
    assert World(0).nodes == map[1 := EMPTY, 2 := EMPTY];
    Further(0);
    WatchedAgain(EMPTY, 1, 0, 0);
    OneWatches(World(0), 1, EMPTY, EMPTY, Watching(EMPTY, 1, 0, 0), 0);
    Further(1);
    WatchedAgain(Watching(EMPTY, 1, 0, 0), 1, 0, 20 * SECOND);
    OneWatches(World(1), 1, Watching(EMPTY, 1, 0, 0), EMPTY, WATCHING_1, 20 * SECOND);
    Further(2);
    WatchedAgain(EMPTY, 2, 20 * SECOND, 20 * SECOND);
    OneWatches(World(2), 2, WATCHING_1, EMPTY, WATCHING_2, 20 * SECOND);
  }

  lemma FirstProposes()
    ensures World(4).nodes == map[1 := WATCHING_1.(operations := map[2 := DIALLED_1]), 2 := WATCHING_2]
    ensures DurableRuns.Dial(1, 2, FIRST_MESSAGE) in World(4).dials
  {
    BothAreWatched();
    Further(3);
    FirstTicks(World(3));
  }

  lemma FirstTicks(w: DurableRuns.World)
    requires w.nodes == map[1 := WATCHING_1, 2 := WATCHING_2] && w.minted == map[]
    ensures
      var e := DurableRuns.Ticked(1, Link(2), Calm(20 * SECOND).(active := true, freshId := Some(7)));
      && DurableRuns.Step(CONFIGS, w, e).nodes
          == map[1 := WATCHING_1.(operations := map[2 := DIALLED_1]), 2 := WATCHING_2]
      && DurableRuns.Dial(1, 2, FIRST_MESSAGE) in DurableRuns.Step(CONFIGS, w, e).dials
  {
    TickProposes();
    var e := DurableRuns.Ticked(1, Link(2), Calm(20 * SECOND).(active := true, freshId := Some(7)));
    assert w.nodes[1] == WATCHING_1;
    OneActs(w, e, WATCHING_1, WATCHING_2, WATCHING_1.(operations := map[2 := DIALLED_1]));
  }

  lemma TickProposes()
    ensures TickLink(Config(1, 20 * SECOND, 4), WATCHING_1, Link(2),
                     Calm(20 * SECOND).(active := true, freshId := Some(7)))
         == (WATCHING_1.(operations := map[2 := DIALLED_1]), Some(FIRST_MESSAGE))
  {
    assert Reserving(WATCHING_1, 20 * SECOND) == {};
  }

  lemma FirstConnects()
    ensures World(5).nodes == map[1 := WATCHING_1.(operations := map[2 := DIALLED_1.(session := Some(10))]),
                                  2 := WATCHING_2]
    ensures DurableRuns.Packet(10, 1, 2, FIRST_MESSAGE) in World(5).sent
  {
    FirstProposes();
    Further(4);
    FirstDials(World(4));
  }

  lemma FirstDials(w: DurableRuns.World)
    requires w.nodes == map[1 := WATCHING_1.(operations := map[2 := DIALLED_1]), 2 := WATCHING_2]
    requires DurableRuns.Dial(1, 2, FIRST_MESSAGE) in w.dials
    ensures
      var next := DurableRuns.Step(CONFIGS, w, DurableRuns.Connected(DurableRuns.Dial(1, 2, FIRST_MESSAGE), 10, None));
      && next.nodes == map[1 := WATCHING_1.(operations := map[2 := DIALLED_1.(session := Some(10))]), 2 := WATCHING_2]
      && DurableRuns.Packet(10, 1, 2, FIRST_MESSAGE) in next.sent
  {
    var a, d := WATCHING_1.(operations := map[2 := DIALLED_1]), DurableRuns.Dial(1, 2, FIRST_MESSAGE);
    var next := WATCHING_1.(operations := map[2 := DIALLED_1.(session := Some(10))]);
    assert DurableRuns.Opened(a, d, 10, None) == next;
    assert w.nodes[1] == a && a.operations[2] == DIALLED_1;
    OneActs(w, DurableRuns.Connected(d, 10, None), a, WATCHING_2, next);
  }

  lemma SecondAccepts()
    ensures HandleLink(Config(2, 20 * SECOND, 4), WATCHING_2, Plan(1, 0), 1, 10, None, FIRST_MESSAGE, Calm(20 * SECOND))
         == Outcome(Watching(HOLDING_2, 2, 20 * SECOND, 20 * SECOND), Some(Saved(7)), Continue)
  {
    assert Reserving(WATCHING_2, 20 * SECOND) == {};
  }

  lemma SecondSaves()
    ensures World(6).nodes == map[1 := WATCHING_1.(operations := map[2 := DIALLED_1.(session := Some(10))]),
                                  2 := Watching(HOLDING_2, 2, 20 * SECOND, 20 * SECOND)]
    ensures DurableRuns.Packet(10, 2, 1, Saved(7)) in World(6).sent
  {
    FirstConnects();
    Further(5);
    SecondReads(World(5), WATCHING_1.(operations := map[2 := DIALLED_1.(session := Some(10))]));
  }

  lemma SecondReads(w: DurableRuns.World, a: Manager)
    requires w.nodes == map[1 := a, 2 := WATCHING_2] && DurableRuns.Packet(10, 1, 2, FIRST_MESSAGE) in w.sent
    ensures
      var next := DurableRuns.Step(CONFIGS, w, Arrives(1, 2, FIRST_MESSAGE, true));
      && next.nodes == map[1 := a, 2 := Watching(HOLDING_2, 2, 20 * SECOND, 20 * SECOND)]
      && DurableRuns.Packet(10, 2, 1, Saved(7)) in next.sent
  {
    SecondAccepts();
    var e, b := Arrives(1, 2, FIRST_MESSAGE, true), Watching(HOLDING_2, 2, 20 * SECOND, 20 * SECOND);
    assert w.nodes[2] == WATCHING_2 && e.env == Calm(20 * SECOND);
    assert DurableRuns.Next(Config(2, 20 * SECOND, 4), w, e) == b;
    OneActs(w, e, a, WATCHING_2, b);
  }

  lemma FirstIsCutOff()
    ensures HandleLink(Config(1, 20 * SECOND, 4), WATCHING_1.(operations := map[2 := DIALLED_1.(session := Some(10))]),
                       Plan(1, 0), 2, 10, None, Saved(7), Calm(20 * SECOND).(sendOk := false))
         == Outcome(Watching(HOLDING_1, 1, 0, 20 * SECOND), None, Failed(SendFailed))
  {
  }

  lemma FirstSavesInVain()
    ensures World(7).nodes == map[1 := Watching(HOLDING_1, 1, 0, 20 * SECOND),
                                  2 := Watching(HOLDING_2, 2, 20 * SECOND, 20 * SECOND)]
  {
    SecondSaves();
    Further(6);
    FirstReads(World(6), Watching(HOLDING_2, 2, 20 * SECOND, 20 * SECOND));
  }

  lemma FirstReads(w: DurableRuns.World, b: Manager)
    requires w.nodes == map[1 := WATCHING_1.(operations := map[2 := DIALLED_1.(session := Some(10))]), 2 := b]
    requires DurableRuns.Packet(10, 2, 1, Saved(7)) in w.sent
    ensures DurableRuns.Step(CONFIGS, w, Arrives(2, 1, Saved(7), false)).nodes
         == map[1 := Watching(HOLDING_1, 1, 0, 20 * SECOND), 2 := b]
  {
    FirstIsCutOff();
    var e, a := Arrives(2, 1, Saved(7), false), WATCHING_1.(operations := map[2 := DIALLED_1.(session := Some(10))]);
    var next := Watching(HOLDING_1, 1, 0, 20 * SECOND);
    assert w.nodes[1] == a && e.env == Calm(20 * SECOND).(sendOk := false);
    assert DurableRuns.Next(Config(1, 20 * SECOND, 4), w, e) == next;
    OneActs(w, e, a, b, next);
  }

  lemma BothHold()
    ensures World(9).nodes == map[1 := LEFT, 2 := RIGHT]
  {
    FirstSavesInVain();
    Further(7);
    var b := Watching(HOLDING_2, 2, 20 * SECOND, 20 * SECOND);
    WatchedAgain(Watching(HOLDING_1, 1, 0, 20 * SECOND), 1, 60 * SECOND, 60 * SECOND);
    OneWatches(World(7), 1, Watching(HOLDING_1, 1, 0, 20 * SECOND), b, LEFT, 60 * SECOND);
    Further(8);
    WatchedAgain(b, 2, 60 * SECOND, 60 * SECOND);
    OneWatches(World(8), 2, LEFT, b, RIGHT, 60 * SECOND);
  }

  // ---------------------------------------------------------------- and what follows

  const EXAMPLE := Setup(
    Party(Config(1, 20 * SECOND, 4), Link(2), Plan(1, 0), 11, LEFT),
    Party(Config(2, 20 * SECOND, 4), Link(1), Plan(1, 0), 12, RIGHT),
    7, [Fixed(1, HOME)], 60 * SECOND, 80 * SECOND)

  /** A run of two new nodes reaches this state; from it one undisturbed order of the next exchange leaves the agreement
      unconfirmed at both ends with nothing unread, and another confirms it at both. */
  lemma StallIsReached()
    ensures
      && DurableRuns.Run(CONFIGS, STORY).nodes == map[1 := EXAMPLE.left.start, 2 := EXAMPLE.right.start]
      && EXAMPLE.left.cfg == CONFIGS[1] && EXAMPLE.right.cfg == CONFIGS[2] && BothReady(EXAMPLE)
      && AllUndisturbed(EXAMPLE, StallingOrder(EXAMPLE)) && Settled(Run(EXAMPLE, StallingOrder(EXAMPLE)))
      && BothUnconfirmed(EXAMPLE, Run(EXAMPLE, StallingOrder(EXAMPLE)))
      && AllUndisturbed(EXAMPLE, FinishingOrder(EXAMPLE)) && Settled(Run(EXAMPLE, FinishingOrder(EXAMPLE)))
      && BothConfirmed(EXAMPLE, Run(EXAMPLE, FinishingOrder(EXAMPLE)))
  {
    BothHold();
    assert STORY[..9] == STORY;
    BothOutcomesHappen(EXAMPLE);
  }
}
