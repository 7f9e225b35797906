/** Without cancellations the barrier messages keep the two nodes in step: no phase error can
    occur, at most two barriers are unread per direction, nobody is stuck, and the search ends. */
module DiscoveryProgress {
  import opened Common
  import opened Net
  import opened Discovery
  import opened DiscoveryPair
  import opened DiscoveryAgreement

  // ---------------------------------------------------------------- barrier positions

  datatype Barrier = OfferOf(round: nat) | DoneOf(round: nat) | Ready

  predicate IsBarrier(c: Control) {
    c.Candidates? || c.RoundDone? || c.WGReady?
  }

  function BarrierOf(c: Control): Barrier
    requires IsBarrier(c)
  {
    match c
    case Candidates(r, _, _) => OfferOf(r)
    case RoundDone(r, _) => DoneOf(r)
    case WGReady => Ready
  }

  function BarriersIn(c: Control): seq<Barrier> {
    if IsBarrier(c) then [BarrierOf(c)] else []
  }

  /** The barriers of an inbox in order; probe reports may stand anywhere between them. */
  function Barriers(cs: seq<Control>): seq<Barrier> {
    if cs == [] then [] else BarriersIn(cs[0]) + Barriers(cs[1..])
  }

  lemma BarriersSplit(c: Control, cs: seq<Control>)
    ensures Barriers([c] + cs) == BarriersIn(c) + Barriers(cs)
  {
    assert ([c] + cs)[1..] == cs;
  }

  lemma {:induction false} BarriersConcat(xs: seq<Control>, ys: seq<Control>)
    ensures Barriers(xs + ys) == Barriers(xs) + Barriers(ys)
  {
    if xs == [] {
      assert [] + ys == ys;
      assert Barriers(xs) == [];
    } else {
      var c, rest := xs[0], xs[1..];
      BarriersConcat(rest, ys);
      BarriersSplit(c, rest + ys);
      BarriersSplit(c, rest);
      Associative(BarriersIn(c), Barriers(rest), Barriers(ys));
      assert xs == [c] + rest;
      Associative([c], rest, ys);
    }
  }

  predicate ReasonIs(n: Node, reason: Reason) {
    n.result.Some? && n.result.value.reason == reason
  }

  /** Barrier messages published so far. */
  function Sent(n: Node): int {
    match n.phase
    case Starting => 2 * n.round - 2
    case AwaitCandidates => 2 * n.round - 1
    case Probing => 2 * n.round - 1
    case AwaitDone => 2 * n.round
    case Surveying => 2 * n.round
    case Configuring => 2 * n.round
    case AwaitReady => 2 * n.round + 1
    case Attempting => 2 * n.round + 1
    case Stopped => if ReasonIs(n, NoProgress) then 2 * n.round - 1 else 2 * n.round
  }

  /** Barrier messages of the peer taken so far, the one set aside while probing included. */
  function Taken(n: Node): int {
    match n.phase
    case Starting => 2 * n.round - 2
    case AwaitCandidates => 2 * n.round - 2
    case Probing => 2 * n.round - 1 + if n.pending.Some? then 1 else 0
    case AwaitDone => 2 * n.round - 1
    case Surveying => 2 * n.round
    case Configuring => 2 * n.round
    case AwaitReady => 2 * n.round
    case Attempting => 2 * n.round + 1
    case Stopped => if ReasonIs(n, NoProgress) then 2 * n.round - 1 else 2 * n.round
  }

  /** The k-th barrier a node publishes. */
  function BarrierAt(n: Node, k: nat): Barrier {
    if HandingOff(n) && k == 2 * n.round then Ready
    else if k % 2 == 0 then OfferOf(k / 2 + 1)
    else DoneOf(k / 2 + 1)
  }

  /** Every barrier a node has published, in order. */
  function Published(n: Node): seq<Barrier> {
    seq(if n.round == 0 then 0 else Sent(n), (k: nat) => BarrierAt(n, k))
  }

  /** A node that has met no error. */
  ghost predicate Healthy(n: Node) {
    && n.error.None? && n.round >= 1
    && (n.pending.Some? ==> n.phase.Probing? && n.pending.value.RoundDone? && n.pending.value.round == n.round)
    && (n.phase.Stopped? ==> ReasonIs(n, NoProgress) || ReasonIs(n, BudgetExhausted))
  }

  /** What waits unread is what the peer has published since the last barrier taken. */
  ghost predicate InStep(params: Params, me: Node, peer: Node, toMe: seq<Control>) {
    && Healthy(me)
    && 0 <= Taken(me) <= |Published(peer)| && Barriers(toMe) == Published(peer)[Taken(me)..]
    && (forall c :: c in toMe ==> !c.DiscoveryEnd?)
    && (forall c :: c in toMe && c.Candidates? ==> |c.endpoints| <= params.limits.candidates)
  }

  ghost predicate Lockstep(params: Params, localA: Endpoint, localB: Endpoint, s: System) {
    Agreed(params, localA, localB, s) && InStep(params, s.a, s.b, s.toA) && InStep(params, s.b, s.a, s.toB)
  }

  /** Nobody cancels, overflows, ends or is over its candidate budget. */
  predicate Smooth(params: Params, e: Event) {
    match e
    case Run(_, work) => |work.candidates| <= params.limits.candidates
    case Report(_, _, _, _) => true
    case Read(_) => true
    case _ => false
  }

  // ---------------------------------------------------------------- what follows from being in step

  /** At most two barrier messages wait unread in each direction. */
  lemma FewUnread(params: Params, localA: Endpoint, localB: Endpoint, s: System, side: Side)
    requires Lockstep(params, localA, localB, s)
    ensures |Barriers(Inbox(s, side))| <= 2
  {
  }

  /** The barrier a reading node is after. */
  function WantedBy(n: Node): Barrier {
    if n.phase.AwaitCandidates? then OfferOf(n.round)
    else if n.phase.AwaitReady? then Ready
    else DoneOf(n.round)
  }

  /** No node goes on to a round after the one in which its peer connected. */
  lemma HandoffIsLast(params: Params, localA: Endpoint, localB: Endpoint, me: Node, peer: Node, toMe: seq<Control>,
      toPeer: seq<Control>)
    requires Half(params, localA, me, peer, toMe) && Half(params, localB, peer, me, toPeer)
    ensures HandingOff(peer) ==> me.round <= peer.round
  {
    if HandingOff(peer) && me.round > peer.round {
      var unmatched := Unmatched(me.paths, peer.paths, peer.round);
    }
  }

  lemma NextBarrier(me: Node, peer: Node)
    requires Healthy(me) && Healthy(peer) && Reading(me)
    requires 0 <= Taken(me) < Sent(peer) && Taken(peer) <= Sent(me)
    requires HandingOff(peer) ==> me.round <= peer.round
    requires HandingOff(me) ==> peer.round <= me.round
    ensures BarrierAt(peer, Taken(me)) == WantedBy(me) && (me.phase.Probing? ==> me.pending.None?)
  {
  }

  /** The next barrier in the inbox of a reading node is the one it is after. */
  lemma NextIsExpected(params: Params, localA: Endpoint, localB: Endpoint, me: Node, peer: Node, toMe: seq<Control>,
      toPeer: seq<Control>)
    requires Half(params, localA, me, peer, toMe) && Half(params, localB, peer, me, toPeer)
    requires InStep(params, me, peer, toMe) && InStep(params, peer, me, toPeer)
    requires Barriers(toMe) != [] && Reading(me)
    ensures Barriers(toMe)[0] == WantedBy(me) && (me.phase.Probing? ==> me.pending.None?)
  {
    HandoffIsLast(params, localA, localB, me, peer, toMe, toPeer);
    HandoffIsLast(params, localB, localA, peer, me, toPeer, toMe);
    PublishedSize(peer);
    PublishedSize(me);
    assert Barriers(toMe)[0] == Published(peer)[Taken(me)] == BarrierAt(peer, Taken(me));
    NextBarrier(me, peer);
  }

  lemma PublishedSize(n: Node)
    requires n.round >= 1
    ensures |Published(n)| == Sent(n)
  {
  }

  // ---------------------------------------------------------------- steps keep the nodes in step

  lemma BarriersOne(c: Control)
    ensures Barriers([c]) == if IsBarrier(c) then [BarrierOf(c)] else []
  {
    assert [c][1..] == [];
  }

  /** A node that acts publishes at most the next barrier of its order and takes none. */
  ghost predicate Publishes(before: Node, after: Node, sent: seq<Control>) {
    && Published(after) == Published(before) + Barriers(sent) && Taken(after) == Taken(before)
    && (forall c :: c in sent ==> IsBarrier(c))
  }

  lemma Beyond<T>(xs: seq<T>, from: nat, ys: seq<T>)
    requires from <= |xs|
    ensures (xs + ys)[from..] == xs[from..] + ys
  {
  }

  lemma PeerPublishes(params: Params, me: Node, peer: Node, toMe: seq<Control>, after: Node, sent: seq<Control>)
    requires InStep(params, me, peer, toMe) && Publishes(peer, after, sent)
    requires forall c :: c in sent && c.Candidates? ==> |c.endpoints| <= params.limits.candidates
    ensures InStep(params, me, after, toMe + sent)
  {
    BarriersConcat(toMe, sent);
    Beyond(Published(peer), Taken(me), Barriers(sent));
  }

  lemma SamePublished(before: Node, after: Node)
    requires before.round >= 1 && after.round >= 1 && Sent(after) == Sent(before)
    requires forall k: nat :: k < Sent(before) ==> BarrierAt(after, k) == BarrierAt(before, k)
    ensures Published(after) == Published(before)
  {
  }

  lemma OneMorePublished(before: Node, after: Node, c: Control)
    requires before.round >= 1 && after.round >= 1 && Sent(after) == Sent(before) + 1
    requires forall k: nat :: k < Sent(before) ==> BarrierAt(after, k) == BarrierAt(before, k)
    requires IsBarrier(c) && BarrierOf(c) == BarrierAt(after, Sent(before))
    ensures Published(after) == Published(before) + Barriers([c])
  {
    BarriersOne(c);
    assert Published(after) == Published(before) + [BarrierOf(c)];
  }

  lemma ResumeKeepsStep(params: Params, local: Endpoint, n: Node)
    requires n.phase.AwaitDone? && n.pending.Some? && n.pending.value.RoundDone? && n.pending.value.round == n.round
    requires n.error.None? && n.round >= 1 && n.result.None?
    ensures
      var after := Resume(params, local, n);
      Healthy(after) && Published(after) == Published(n) && Taken(after) == Taken(n) + 1
  {
    SamePublished(n, Resume(params, local, n));
  }

  lemma ActPublishes(params: Params, local: Endpoint, n: Node, w: Work)
    requires Healthy(n) && (n.result.Some? ==> HandingOff(n) || n.phase.Stopped?)
    ensures
      var (after, sent) := Act(params, local, n, w);
      Healthy(after) && Publishes(n, after, sent)
  {
    var (after, sent) := Act(params, local, n, w);
    if n.phase.Probing? && n.pending.Some? {
      ResumeKeepsStep(params, local, Probed(params, local, n, w));
    }
    if sent == [] {
      SamePublished(n, after);
    } else {
      assert sent == [sent[0]];
      OneMorePublished(n, after, sent[0]);
    }
  }

  /** Both directions after one end has moved, given that the pair still agrees. */
  lemma Assemble(params: Params, localA: Endpoint, localB: Endpoint, s: System, side: Side,
    after: Node, inbox: seq<Control>, sent: seq<Control>)
    requires Agreed(params, localA, localB, With(s, side, after, inbox, sent))
    requires InStep(params, after, At(s, Peer(side)), inbox)
    requires InStep(params, At(s, Peer(side)), after, Inbox(s, Peer(side)) + sent)
    ensures Lockstep(params, localA, localB, With(s, side, after, inbox, sent))
  {
  }

  lemma InStepFacts(params: Params, localA: Endpoint, localB: Endpoint, s: System, side: Side)
    requires Lockstep(params, localA, localB, s)
    ensures InStep(params, At(s, side), At(s, Peer(side)), Inbox(s, side))
    ensures InStep(params, At(s, Peer(side)), At(s, side), Inbox(s, Peer(side)))
    ensures Half(params, LocalOf(localA, localB, side), At(s, side), At(s, Peer(side)), Inbox(s, side))
    ensures Half(params, LocalOf(localA, localB, Peer(side)), At(s, Peer(side)), At(s, side), Inbox(s, Peer(side)))
  {
  }

  lemma RunInStep(params: Params, local: Endpoint, n: Node, peer: Node, inbox: seq<Control>, toPeer: seq<Control>,
      w: Work)
    requires InStep(params, n, peer, inbox) && InStep(params, peer, n, toPeer)
    requires n.result.Some? ==> HandingOff(n) || n.phase.Stopped?
    requires |w.candidates| <= params.limits.candidates
    ensures
      var (after, sent) := Act(params, local, n, w);
      InStep(params, after, peer, inbox) && InStep(params, peer, after, toPeer + sent)
  {
    var (after, sent) := Act(params, local, n, w);
    ActPublishes(params, local, n, w);
    PeerPublishes(params, peer, n, toPeer, after, sent);
  }

  lemma RunKeepsStep(params: Params, localA: Endpoint, localB: Endpoint, s: System, side: Side, w: Work)
    requires Lockstep(params, localA, localB, s) && |w.candidates| <= params.limits.candidates
    requires Agreed(params, localA, localB, Step(params, localA, localB, s, Run(side, w)))
    ensures Lockstep(params, localA, localB, Step(params, localA, localB, s, Run(side, w)))
  {
    var n, local := At(s, side), LocalOf(localA, localB, side);
    InStepFacts(params, localA, localB, s, side);
    RunInStep(params, local, n, At(s, Peer(side)), Inbox(s, side), Inbox(s, Peer(side)), w);
    var (after, sent) := Act(params, local, n, w);
    assert Step(params, localA, localB, s, Run(side, w)) == With(s, side, after, Inbox(s, side), sent);
    Assemble(params, localA, localB, s, side, after, Inbox(s, side), sent);
  }

  lemma PeerReports(params: Params, me: Node, peer: Node, toMe: seq<Control>, report: Control)
    requires InStep(params, me, peer, toMe) && report.ProbeReport?
    ensures InStep(params, me, peer, toMe + [report])
  {
    BarriersConcat(toMe, [report]);
    BarriersOne(report);
    assert Barriers(toMe + [report]) == Barriers(toMe);
  }

  lemma ReportKeepsStep(params: Params, localA: Endpoint, localB: Endpoint, s: System, side: Side, report: Control)
    requires Lockstep(params, localA, localB, s) && report.ProbeReport?
    requires Agreed(params, localA, localB, With(s, side, At(s, side), Inbox(s, side), [report]))
    ensures Lockstep(params, localA, localB, With(s, side, At(s, side), Inbox(s, side), [report]))
  {
    InStepFacts(params, localA, localB, s, side);
    PeerReports(params, At(s, Peer(side)), At(s, side), Inbox(s, Peer(side)), report);
    Assemble(params, localA, localB, s, side, At(s, side), Inbox(s, side), [report]);
  }

  /** Taking the expected barrier moves the reader on by exactly one and changes nothing it has published. */
  ghost predicate TakesOne(before: Node, after: Node) {
    Healthy(after) && Published(after) == Published(before) && Taken(after) == Taken(before) + 1
  }

  lemma TakeBarrier(params: Params, local: Endpoint, n: Node, c: Control)
    requires Healthy(n) && Reading(n) && (n.result.Some? ==> HandingOff(n))
    requires IsBarrier(c) && (c.Candidates? ==> |c.endpoints| <= params.limits.candidates)
    requires BarrierOf(c) == WantedBy(n) && (n.phase.Probing? ==> n.pending.None?)
    ensures TakesOne(n, Take(params, local, n, c))
  {
    SamePublished(n, Take(params, local, n, c));
  }

  lemma BarriersTail(cs: seq<Control>)
    requires cs != []
    ensures Barriers(cs[1..]) == if IsBarrier(cs[0]) then Barriers(cs)[1..] else Barriers(cs)
    ensures IsBarrier(cs[0]) ==> Barriers(cs) != [] && Barriers(cs)[0] == BarrierOf(cs[0])
  {
    assert Barriers(cs) == BarriersIn(cs[0]) + Barriers(cs[1..]);
  }

  lemma TailInStep(params: Params, me: Node, peer: Node, toMe: seq<Control>, after: Node)
    requires InStep(params, me, peer, toMe) && toMe != []
    requires if IsBarrier(toMe[0]) then TakesOne(me, after) else after == me
    ensures InStep(params, after, peer, toMe[1..])
  {
    BarriersTail(toMe);
    if IsBarrier(toMe[0]) {
      assert Published(peer)[Taken(me)..][1..] == Published(peer)[Taken(me) + 1..];
    }
    assert forall c :: c in toMe[1..] ==> c in toMe;
  }

  /** A node that reads takes the barrier it is after, or passes over a probe report. */
  lemma ReadTakesOne(params: Params, localA: Endpoint, localB: Endpoint, me: Node, peer: Node, toMe: seq<Control>,
      toPeer: seq<Control>)
    requires Half(params, localA, me, peer, toMe) && Half(params, localB, peer, me, toPeer)
    requires InStep(params, me, peer, toMe) && InStep(params, peer, me, toPeer)
    requires toMe != [] && Reading(me)
    ensures
      var after := Take(params, localA, me, toMe[0]);
      if IsBarrier(toMe[0]) then TakesOne(me, after) else after == me
  {
    var c := toMe[0];
    assert c in toMe;
    if IsBarrier(c) {
      BarriersTail(toMe);
      NextIsExpected(params, localA, localB, me, peer, toMe, toPeer);
      TakeBarrier(params, localA, me, c);
    } else {
      TakeReport(params, localA, me, c);
    }
  }

  lemma TakeReport(params: Params, local: Endpoint, n: Node, c: Control)
    requires Reading(n) && c.ProbeReport?
    ensures Take(params, local, n, c) == n
  {
  }

  lemma OthersView(params: Params, me: Node, peer: Node, toMe: seq<Control>, after: Node)
    requires InStep(params, me, peer, toMe)
    requires after == peer || TakesOne(peer, after)
    ensures InStep(params, me, after, toMe)
  {
  }

  lemma ReadInStep(params: Params, localA: Endpoint, localB: Endpoint, me: Node, peer: Node, toMe: seq<Control>,
      toPeer: seq<Control>)
    requires Half(params, localA, me, peer, toMe) && Half(params, localB, peer, me, toPeer)
    requires InStep(params, me, peer, toMe) && InStep(params, peer, me, toPeer)
    requires toMe != [] && Reading(me)
    ensures
      var after := Take(params, localA, me, toMe[0]);
      InStep(params, after, peer, toMe[1..]) && InStep(params, peer, after, toPeer + [])
  {
    var after := Take(params, localA, me, toMe[0]);
    ReadTakesOne(params, localA, localB, me, peer, toMe, toPeer);
    TailInStep(params, me, peer, toMe, after);
    OthersView(params, peer, me, toPeer, after);
    assert toPeer + [] == toPeer;
  }

  lemma ReadKeepsStep(params: Params, localA: Endpoint, localB: Endpoint, s: System, e: Event)
    requires Lockstep(params, localA, localB, s) && e.Read? && Inbox(s, e.side) != [] && Reading(At(s, e.side))
    requires Agreed(params, localA, localB, Step(params, localA, localB, s, e))
    ensures Lockstep(params, localA, localB, Step(params, localA, localB, s, e))
  {
    var side, local := e.side, LocalOf(localA, localB, e.side);
    var me, peer, inbox := At(s, side), At(s, Peer(side)), Inbox(s, side);
    var after := Take(params, local, me, inbox[0]);
    InStepFacts(params, localA, localB, s, side);
    ReadInStep(params, local, LocalOf(localA, localB, Peer(side)), me, peer, inbox, Inbox(s, Peer(side)));
    assert Step(params, localA, localB, s, e) == With(s, side, after, inbox[1..], []);
    Assemble(params, localA, localB, s, side, after, inbox[1..], []);
  }

  lemma SmoothKeepsStep(params: Params, localA: Endpoint, localB: Endpoint, s: System, e: Event)
    requires Lockstep(params, localA, localB, s) && Smooth(params, e)
    ensures Lockstep(params, localA, localB, Step(params, localA, localB, s, e))
  {
    StepKeepsAgreed(params, localA, localB, s, e);
    match e {
      case Run(side, work) => RunKeepsStep(params, localA, localB, s, side, work);
      case Report(side, round, sequence, seen) =>
        ReportKeepsStep(params, localA, localB, s, side, ProbeReport(round, sequence, seen));
      case Read(_) =>
        if Inbox(s, e.side) != [] && Reading(At(s, e.side)) {
          ReadKeepsStep(params, localA, localB, s, e);
        }
    }
  }

  ghost predicate AllSmooth(params: Params, events: seq<Event>) {
    forall e :: e in events ==> Smooth(params, e)
  }

  lemma {:induction false} SmoothRunIsInStep(params: Params, localA: Endpoint, localB: Endpoint, events: seq<Event>)
    requires ValidLimits(params.limits) && AllSmooth(params, events)
    ensures Lockstep(params, localA, localB, Execute(params, localA, localB, events))
  {
    if events != [] {
      var before := events[..|events| - 1];
      SmoothRunIsInStep(params, localA, localB, before);
      SmoothKeepsStep(params, localA, localB, Execute(params, localA, localB, before), events[|events| - 1]);
    }
  }

  // ---------------------------------------------------------------- results

  /** No "unexpected pending phase", "unexpected discovery phase", "duplicate round barrier", "unexpected
      control" or candidate budget error occurs, and at most two barriers are unread per direction. */
  lemma NoPhaseErrors(params: Params, localA: Endpoint, localB: Endpoint, events: seq<Event>, side: Side)
    requires ValidLimits(params.limits) && AllSmooth(params, events)
    ensures
      var s := Execute(params, localA, localB, events);
      At(s, side).error.None? && |Barriers(Inbox(s, side))| <= 2
  {
    SmoothRunIsInStep(params, localA, localB, events);
    FewUnread(params, localA, localB, Execute(params, localA, localB, events), side);
  }

  predicate Terminal(n: Node) {
    n.phase.Attempting? || n.phase.Stopped?
  }

  /** This end can only wait for a message that is not there. */
  predicate Blocked(s: System, side: Side) {
    Waits(At(s, side)) && Inbox(s, side) == []
  }

  /** With nothing left to read, a waiting end is exactly one barrier behind what its peer still owes. */
  lemma WaitingOwes(params: Params, localA: Endpoint, localB: Endpoint, me: Node, peer: Node, toPeer: seq<Control>)
    requires Half(params, localA, me, peer, []) && Half(params, localB, peer, me, toPeer)
    requires InStep(params, me, peer, []) && InStep(params, peer, me, toPeer)
    requires Waits(me)
    ensures Sent(peer) == Taken(me) == Sent(me) - 1
    ensures !(Waits(peer) && toPeer == [])
  {
  }

  lemma FinishedPeerOwesNothing(params: Params, localA: Endpoint, localB: Endpoint, me: Node, peer: Node,
      toPeer: seq<Control>)
    requires Half(params, localA, me, peer, []) && Half(params, localB, peer, me, toPeer)
    requires Healthy(me) && Healthy(peer) && Waits(me) && Sent(peer) == Taken(me)
    ensures !Terminal(peer)
  {
    if peer.phase.Attempting? {
      var unmatched := Unmatched(me.paths, peer.paths, peer.round);
    } else if peer.phase.Stopped? && ReasonIs(peer, NoProgress) {
      var open := OpenRound(me.offers, peer.offers, me.round);
    } else if peer.phase.Stopped? {
      var matched := Connects(me.paths, peer.paths, me.round);
    }
  }

  /** The two ends are never both waiting for each other, and an end whose peer has finished is never left waiting. */
  lemma NeverStuck(params: Params, localA: Endpoint, localB: Endpoint, events: seq<Event>, side: Side)
    requires ValidLimits(params.limits) && AllSmooth(params, events)
    ensures
      var s := Execute(params, localA, localB, events);
      Blocked(s, side) ==> !Blocked(s, Peer(side)) && !Terminal(At(s, Peer(side)))
  {
    SmoothRunIsInStep(params, localA, localB, events);
    var s := Execute(params, localA, localB, events);
    var me, peer, toPeer := At(s, side), At(s, Peer(side)), Inbox(s, Peer(side));
    var mine, theirs := LocalOf(localA, localB, side), LocalOf(localA, localB, Peer(side));
    if Blocked(s, side) {
      WaitingOwes(params, mine, theirs, me, peer, toPeer);
      FinishedPeerOwesNothing(params, mine, theirs, me, peer, toPeer);
    }
  }

  lemma FinishedHasResult(params: Params, localA: Endpoint, localB: Endpoint, events: seq<Event>, side: Side)
    requires ValidLimits(params.limits) && AllSmooth(params, events)
    requires Terminal(At(Execute(params, localA, localB, events), side))
    ensures
      var n := At(Execute(params, localA, localB, events), side);
      n.result.Some? && (n.phase.Attempting? <==> n.result.value.reason.Connected?)
  {
    SmoothRunIsInStep(params, localA, localB, events);
    InStepFacts(params, localA, localB, Execute(params, localA, localB, events), side);
  }

  /** When neither end can move, both have finished and their results agree. */
  lemma QuietRunIsFinished(params: Params, localA: Endpoint, localB: Endpoint, events: seq<Event>)
    requires ValidLimits(params.limits) && AllSmooth(params, events)
    requires forall side ::
      var s := Execute(params, localA, localB, events); Blocked(s, side) || Terminal(At(s, side))
    ensures
      var s := Execute(params, localA, localB, events);
      && Terminal(s.a) && Terminal(s.b) && s.a.result.Some? && s.b.result.Some?
      && s.a.result.value.reason == s.b.result.value.reason
      && s.a.result.value.rounds == s.b.result.value.rounds
      && (s.a.result.value.reason.Connected? ==>
            && s.a.phase.Attempting? && s.b.phase.Attempting?
            && s.a.result.value.seen == s.b.result.value.endpoint
            && s.a.result.value.endpoint == s.b.result.value.seen)
  {
    var s := Execute(params, localA, localB, events);
    assert Blocked(s, Left) || Terminal(At(s, Left));
    assert Blocked(s, Right) || Terminal(At(s, Right));
    NeverStuck(params, localA, localB, events, Left);
    NeverStuck(params, localA, localB, events, Right);
    FinishedHasResult(params, localA, localB, events, Left);
    FinishedHasResult(params, localA, localB, events, Right);
    OutcomesAgree(params, localA, localB, events);
  }

  // ---------------------------------------------------------------- termination

  function Progress(n: Node): int {
    2 * (Sent(n) + Taken(n)) + if n.phase.Surveying? then 0 else 1
  }

  lemma RunAdvances(params: Params, local: Endpoint, n: Node, w: Work)
    requires Healthy(n) && (n.result.Some? ==> HandingOff(n) || n.phase.Stopped?)
    ensures
      var after := Act(params, local, n, w).0;
      after == n || Progress(after) > Progress(n)
  {
    ActPublishes(params, local, n, w);
    if n.phase.Probing? && n.pending.Some? {
      ResumeKeepsStep(params, local, Probed(params, local, n, w));
    }
  }

  lemma TakingAdvances(n: Node, after: Node)
    requires TakesOne(n, after)
    ensures Progress(after) > Progress(n)
  {
  }

  /** Every step of a node other than passing over a probe report moves it forward. */
  lemma StepAdvances(params: Params, localA: Endpoint, localB: Endpoint, s: System, e: Event)
    requires Lockstep(params, localA, localB, s) && Smooth(params, e)
    ensures
      var n, after := At(s, e.side), At(Step(params, localA, localB, s, e), e.side);
      after == n || Progress(after) > Progress(n)
  {
    var side, local := e.side, LocalOf(localA, localB, e.side);
    InStepFacts(params, localA, localB, s, side);
    if e.Run? {
      RunAdvances(params, local, At(s, side), e.work);
    } else if e.Read? && Inbox(s, side) != [] && Reading(At(s, side)) {
      ReadTakesOne(params, local, LocalOf(localA, localB, Peer(side)), At(s, side), At(s, Peer(side)),
                   Inbox(s, side), Inbox(s, Peer(side)));
      if IsBarrier(Inbox(s, side)[0]) {
        TakingAdvances(At(s, side), Take(params, local, At(s, side), Inbox(s, side)[0]));
      }
    }
  }

  /** How many events of a run changed the node that acted. */
  function Moves(params: Params, localA: Endpoint, localB: Endpoint, events: seq<Event>): nat {
    if events == [] then 0
    else
      var before, e := events[..|events| - 1], events[|events| - 1];
      var s := Execute(params, localA, localB, before);
      Moves(params, localA, localB, before)
      + if At(Step(params, localA, localB, s, e), e.side) == At(s, e.side) then 0 else 1
  }

  lemma {:induction false} MovesAreProgress(params: Params, localA: Endpoint, localB: Endpoint, events: seq<Event>)
    requires ValidLimits(params.limits) && AllSmooth(params, events)
    ensures
      var s := Execute(params, localA, localB, events);
      Moves(params, localA, localB, events) + 2 <= Progress(s.a) + Progress(s.b)
  {
    if events != [] {
      var before, e := events[..|events| - 1], events[|events| - 1];
      MovesAreProgress(params, localA, localB, before);
      SmoothRunIsInStep(params, localA, localB, before);
      StepAdvances(params, localA, localB, Execute(params, localA, localB, before), e);
    }
  }

  lemma ProgressIsBounded(n: Node, most: int)
    requires Healthy(n) && n.round <= most
    ensures Progress(n) <= 8 * most + 5
  {
  }

  lemma InStepRounds(params: Params, localA: Endpoint, localB: Endpoint, s: System)
    requires Lockstep(params, localA, localB, s)
    ensures Healthy(s.a) && Healthy(s.b)
    ensures s.a.round <= params.limits.maxIterations && s.b.round <= params.limits.maxIterations
  {
  }

  /** Probe reports aside, an undisturbed run makes at most 16 moves a round and 8 more. */
  lemma DiscoveryTerminates(params: Params, localA: Endpoint, localB: Endpoint, events: seq<Event>)
    requires ValidLimits(params.limits) && AllSmooth(params, events)
    ensures Moves(params, localA, localB, events) <= 16 * params.limits.maxIterations + 8
  {
    var s := Execute(params, localA, localB, events);
    MovesAreProgress(params, localA, localB, events);
    SmoothRunIsInStep(params, localA, localB, events);
    InStepRounds(params, localA, localB, s);
    ProgressIsBounded(s.a, params.limits.maxIterations);
    ProgressIsBounded(s.b, params.limits.maxIterations);
  }
}
