/** Two nodes running discovery against each other over one routed control session: FIFO in
    each direction, probe reports interleaved anywhere, either node able to stop at any step. */
module DiscoveryPair {
  import opened Common
  import opened Net
  import opened Discovery

  // ---------------------------------------------------------------- one node

  datatype Control =
    | Candidates(round: nat, changed: bool, endpoints: seq<Endpoint>)
    | ProbeReport(round: nat, sequence: nat, seen: Endpoint)
    | RoundDone(round: nat, path: Option<Path>)
    | WGReady
    | DiscoveryEnd

  datatype Phase =
    | Starting
    | AwaitCandidates
    | Probing
    | AwaitDone
    | Surveying
    | Configuring
    | AwaitReady
    | Attempting
    | Stopped

  datatype StopError =
    | UnexpectedPending
    | UnexpectedPhase
    | DuplicateBarrier
    | UnexpectedControl
    | PeerEnded
    | OverBudget
    | Cancelled

  /** `before` is the store size when the round began; `result` is set once RunPeer has returned
      without error. `offers` and `paths` hold what this node published, one entry a round, and
      `answers` what it was told in the rounds it completed. */
  datatype Node = Node(
    phase: Phase,
    round: nat,
    changed: bool,
    samples: seq<Observation>,
    before: nat,
    added: int,
    batch: Batch,
    window: (seq<Observation>, seq<Arrival>),
    path: Option<Path>,
    other: Option<Path>,
    pending: Option<Control>,
    result: Option<PeerResult>,
    error: Option<StopError>,
    offers: seq<bool>,
    paths: seq<Option<Path>>,
    answers: seq<Answers>)

  datatype Params = Params(text: Endpoint -> string, limits: Limits)

  const NEW_NODE :=
    Node(Starting, 1, true, [], 0, 0, Batch([], false), ([], []), None, None, None, None, None, [], [], [])

  function Stop(n: Node, e: StopError): Node {
    n.(phase := Stopped, error := Some(e))
  }

  /** wait: the barrier message this phase is after. */
  predicate Expected(n: Node, c: Control) {
    match n.phase
    case AwaitCandidates => c.Candidates? && c.round == n.round
    case AwaitDone => c.RoundDone? && c.round == n.round
    case AwaitReady => c.WGReady?
    case _ => false
  }

  predicate Waits(n: Node) {
    n.phase.AwaitCandidates? || n.phase.AwaitDone? || n.phase.AwaitReady?
  }

  function Finish(n: Node, reason: Reason): Node {
    n.(phase := Stopped,
       result := Some(NO_RESULT.(rounds := n.round, observations := n.added, reason := reason)))
  }

  function Told(n: Node, told: Answers): Node {
    n.(answers := n.answers + [told])
  }

  /** The next round, if the budget has one. */
  function NextRound(params: Params, n: Node): Node {
    if n.round + 1 > params.limits.maxIterations then Finish(n, BudgetExhausted)
    else n.(phase := Starting, round := n.round + 1, changed := |n.samples| > n.before)
  }

  /** The expected barrier has arrived: what RunPeer does next. */
  function Proceed(params: Params, local: Endpoint, n: Node, c: Control): Node {
    match n.phase
    case AwaitCandidates =>
      if !c.Candidates? then n
      else
        var met := n.(batch := Batch(c.endpoints, c.changed));
        if |c.endpoints| > params.limits.candidates then Stop(met, OverBudget)
        else if Exhausted(n.changed, met.batch) then
          Finish(Told(met, Answers(Some(met.batch), None, None, None)), NoProgress)
        else met.(phase := Probing, before := |n.samples|)
    case AwaitDone =>
      if !c.RoundDone? then n
      else
        var met := n.(other := c.path);
        var told := Answers(Some(n.batch), Some(n.window), Some(c.path), None);
        if Matched(n.path, c.path) then
          Told(met, told).(
            phase := Configuring,
            result := Some(PeerResult(Some(local), Some(n.path.value.remote), Some(n.path.value.seen),
                                      n.round, n.added, Connected)))
        else if |n.samples| != n.before then NextRound(params, Told(met, told))
        else met.(phase := Surveying)
    case AwaitReady => n.(phase := Attempting)
    case _ => n
  }

  /** One control message taken from the inbox by a node that is reading it. */
  function Take(params: Params, local: Endpoint, n: Node, c: Control): Node {
    if n.phase.Probing? then
      if c.DiscoveryEnd? then Stop(n, PeerEnded)
      else if c.RoundDone? && c.round == n.round then
        if n.pending.Some? then Stop(n, DuplicateBarrier) else n.(pending := Some(c))
      else if !c.ProbeReport? then Stop(n, UnexpectedControl)
      else n
    else if Waits(n) then
      if c.DiscoveryEnd? then Stop(n, PeerEnded)
      else if Expected(n, c) then Proceed(params, local, n, c)
      else if c.ProbeReport? then n
      else Stop(n, UnexpectedPhase)
    else n
  }

  /** A waiting node that holds a barrier from its probing window uses that instead of reading. */
  function Resume(params: Params, local: Endpoint, n: Node): Node {
    if !Waits(n) || n.pending.None? then n
    else
      var c := n.pending.value;
      var freed := n.(pending := None);
      if Expected(n, c) then Proceed(params, local, freed, c) else Stop(freed, UnexpectedPending)
  }

  /** What the node's own work brings: inferred candidates, a probing window, a survey. */
  datatype Work = Work(candidates: seq<Endpoint>, observations: seq<Observation>, arrivals: seq<Arrival>)

  function Offered(n: Node): Node {
    n.(phase := AwaitCandidates, offers := n.offers + [n.changed])
  }

  function Probed(params: Params, local: Endpoint, n: Node, w: Work): Node {
    var tried := AddAll(n.samples, w.observations);
    var path := Pick(params.text, PathList(w.observations, w.arrivals, local));
    n.(phase := AwaitDone, samples := tried, added := n.added + |tried| - |n.samples|,
       window := (w.observations, w.arrivals), path := path, paths := n.paths + [path])
  }

  function Surveyed(n: Node, w: Work): Node {
    var surveyed := AddAll(n.samples, w.observations);
    Told(n, Answers(Some(n.batch), Some(n.window), Some(n.other), Some(w.observations)))
      .(samples := surveyed, added := n.added + |surveyed| - |n.samples|)
  }

  /** A local step, and what it publishes. Publishing comes before waiting. */
  function Act(params: Params, local: Endpoint, n: Node, w: Work): (Node, seq<Control>) {
    match n.phase
    case Starting => (Resume(params, local, Offered(n)), [Candidates(n.round, n.changed, w.candidates)])
    case Probing =>
      var probed := Probed(params, local, n, w);
      (Resume(params, local, probed), [RoundDone(n.round, probed.path)])
    case Surveying => (NextRound(params, Surveyed(n, w)), [])
    case Configuring => (Resume(params, local, n.(phase := AwaitReady)), [WGReady])
    case _ => (n, [])
  }

  // ---------------------------------------------------------------- the pair

  datatype Side = Left | Right

  function Peer(side: Side): Side {
    if side.Left? then Right else Left
  }

  datatype System = System(a: Node, b: Node, toA: seq<Control>, toB: seq<Control>)

  /** Run is a step of RunPeer or of the handoff, Report a probe report sent by the receiver,
      Read one message taken from the inbox, End the DISCOVERY_END of a failed task, Fail a
      cancellation, overflow, rejection or socket error. */
  datatype Event =
    | Run(side: Side, work: Work)
    | Report(side: Side, round: nat, sequence: nat, seen: Endpoint)
    | Read(side: Side)
    | Fail(side: Side)
    | End(side: Side)

  const INITIAL := System(NEW_NODE, NEW_NODE, [], [])

  function At(s: System, side: Side): Node {
    if side.Left? then s.a else s.b
  }

  function Inbox(s: System, side: Side): seq<Control> {
    if side.Left? then s.toA else s.toB
  }

  function With(s: System, side: Side, n: Node, inbox: seq<Control>, sent: seq<Control>): System {
    if side.Left? then System(n, s.b, inbox, s.toB + sent) else System(s.a, n, s.toA + sent, inbox)
  }

  function LocalOf(localA: Endpoint, localB: Endpoint, side: Side): Endpoint {
    if side.Left? then localA else localB
  }

  function Step(params: Params, localA: Endpoint, localB: Endpoint, s: System, e: Event): System {
    var n, inbox := At(s, e.side), Inbox(s, e.side);
    match e
    case Run(side, work) =>
      var (next, sent) := Act(params, LocalOf(localA, localB, side), n, work);
      With(s, side, next, inbox, sent)
    case Report(side, round, sequence, seen) =>
      With(s, side, n, inbox, [ProbeReport(round, sequence, seen)])
    case Read(side) =>
      if inbox == [] || !Reading(n) then s
      else With(s, side, Take(params, LocalOf(localA, localB, side), n, inbox[0]), inbox[1..], [])
    case Fail(side) =>
      if n.phase.Stopped? || n.phase.Attempting? then s else With(s, side, Stop(n, Cancelled), inbox, [])
    case End(side) =>
      if n.phase.Stopped? then With(s, side, n, inbox, [DiscoveryEnd]) else s
  }

  /** Only a probing or waiting task takes from its inbox. */
  predicate Reading(n: Node) {
    n.phase.Probing? || Waits(n)
  }

  function Execute(params: Params, localA: Endpoint, localB: Endpoint, events: seq<Event>): System {
    if events == [] then INITIAL
    else
      Step(params, localA, localB, Execute(params, localA, localB, events[..|events| - 1]), events[|events| - 1])
  }
}
