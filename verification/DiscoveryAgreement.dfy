/** In every interleaving, with failures anywhere, the two ends of a discovery agree. */
module DiscoveryAgreement {
  import opened Common
  import opened Net
  import opened Discovery
  import opened DiscoveryPair

  // ---------------------------------------------------------------- what a node has published

  /** How many barriers a node has published, from where it is in the loop. */
  ghost predicate Shape(n: Node) {
    && n.round >= 1
    && (match n.phase
        case Starting => |n.offers| == n.round - 1 && |n.paths| == n.round - 1
        case AwaitCandidates => |n.offers| == n.round && |n.paths| == n.round - 1 && n.changed == n.offers[n.round - 1]
        case Probing => |n.offers| == n.round && |n.paths| == n.round - 1
        case AwaitDone => |n.offers| == n.round && |n.paths| == n.round && n.path == n.paths[n.round - 1]
        case Surveying => |n.offers| == n.round && |n.paths| == n.round
        case Configuring => |n.offers| == n.round && |n.paths| == n.round
        case AwaitReady => |n.offers| == n.round && |n.paths| == n.round
        case Attempting => |n.offers| == n.round && |n.paths| == n.round
        case Stopped => true)
  }

  /** The round was open: one of the two had new evidence. */
  ghost predicate OpenRound(mine: seq<bool>, theirs: seq<bool>, r: nat) {
    1 <= r <= |mine| && r <= |theirs| && (mine[r - 1] || theirs[r - 1])
  }

  ghost predicate Unmatched(mine: seq<Option<Path>>, theirs: seq<Option<Path>>, r: nat) {
    1 <= r <= |mine| && r <= |theirs| && !Matched(mine[r - 1], theirs[r - 1])
  }

  ghost predicate Connects(mine: seq<Option<Path>>, theirs: seq<Option<Path>>, r: nat) {
    1 <= r <= |mine| && r <= |theirs| && Matched(mine[r - 1], theirs[r - 1])
  }

  predicate HandingOff(n: Node) {
    n.phase.Configuring? || n.phase.AwaitReady? || n.phase.Attempting?
  }

  /** A result says what both nodes published in its last round. */
  ghost predicate ResultFacts(params: Params, local: Endpoint, me: Node, peer: Node) {
    me.result.Some? ==>
      var r := me.result.value;
      && r.rounds == me.round
      && (match r.reason
          case NoProgress =>
            && 1 <= me.round <= |me.offers| && me.round <= |peer.offers|
            && !me.offers[me.round - 1] && !peer.offers[me.round - 1]
          case Connected =>
            && OpenRound(me.offers, peer.offers, me.round) && Connects(me.paths, peer.paths, me.round)
            && r.local == Some(local)
            && r.seen == Some(me.paths[me.round - 1].value.seen)
            && r.endpoint == Some(me.paths[me.round - 1].value.remote)
          case BudgetExhausted =>
            me.round == params.limits.maxIterations && OpenRound(me.offers, peer.offers, me.round)
                && Unmatched(me.paths, peer.paths, me.round)
          case Unset => false)
  }

  ghost predicate Facts(params: Params, local: Endpoint, me: Node, peer: Node) {
    && (forall r :: 1 <= r < me.round ==> OpenRound(me.offers, peer.offers, r) && Unmatched(me.paths, peer.paths, r))
    && (me.phase.Probing? || me.phase.AwaitDone? || me.phase.Surveying? || HandingOff(me) ==>
          OpenRound(me.offers, peer.offers, me.round))
    && (me.phase.Surveying? ==> Unmatched(me.paths, peer.paths, me.round))
    && (HandingOff(me) ==> me.result.Some? && me.result.value.reason.Connected?)
    && (me.result.Some? ==> HandingOff(me) || me.phase.Stopped?)
    && (me.phase.Attempting? ==> PeerReady(peer))
    && me.round <= params.limits.maxIterations
    && ResultFacts(params, local, me, peer)
  }

  /** The peer has bound its receive side to the path it agreed to. */
  ghost predicate PeerReady(peer: Node) {
    peer.result.Some? && peer.result.value.reason.Connected?
  }

  /** A barrier message repeats what its sender published. */
  ghost predicate Truth(sender: Node, c: Control) {
    match c
    case Candidates(r, changed, _) => 1 <= r <= |sender.offers| && sender.offers[r - 1] == changed
    case RoundDone(r, path) => 1 <= r <= |sender.paths| && sender.paths[r - 1] == path
    case WGReady => PeerReady(sender)
    case _ => true
  }

  ghost predicate Half(params: Params, local: Endpoint, me: Node, peer: Node, toMe: seq<Control>) {
    && Shape(me) && Facts(params, local, me, peer)
    && (forall c :: c in toMe ==> Truth(peer, c))
    && (me.pending.Some? ==> me.pending.value.RoundDone? && Truth(peer, me.pending.value))
  }

  ghost predicate Agreed(params: Params, localA: Endpoint, localB: Endpoint, s: System) {
    Half(params, localA, s.a, s.b, s.toA) && Half(params, localB, s.b, s.a, s.toB)
  }

  // ---------------------------------------------------------------- steps

  /** Publications only grow and results stay. */
  ghost predicate Grows(before: Node, after: Node) {
    && before.offers <= after.offers && before.paths <= after.paths
    && (before.result.Some? ==> after.result == before.result)
  }

  lemma GrowthKeepsHalf(params: Params, local: Endpoint, me: Node, peer: Node, after: Node, toMe: seq<Control>,
      sent: seq<Control>)
    requires Half(params, local, me, peer, toMe) && Grows(peer, after)
    requires forall c :: c in sent ==> Truth(after, c)
    ensures Half(params, local, me, after, toMe + sent)
  {
    forall c | c in toMe ensures Truth(after, c) {
      assert Truth(peer, c);
    }
    forall r | 1 <= r < me.round ensures OpenRound(me.offers, after.offers, r) && Unmatched(me.paths, after.paths, r) {
      assert OpenRound(me.offers, peer.offers, r) && Unmatched(me.paths, peer.paths, r);
    }
  }

  /** A round both ends took part in and that did not connect. */
  ghost predicate RoundOver(params: Params, local: Endpoint, me: Node, peer: Node) {
    && me.round >= 1 && |me.offers| == me.round && |me.paths| == me.round && me.result.None?
    && (forall r :: 1 <= r <= me.round ==> OpenRound(me.offers, peer.offers, r) && Unmatched(me.paths, peer.paths, r))
    && me.round <= params.limits.maxIterations
  }

  lemma NextRoundKeepsFacts(params: Params, local: Endpoint, me: Node, peer: Node)
    requires RoundOver(params, local, me, peer)
    ensures
      var next := NextRound(params, me);
      && Shape(next) && Facts(params, local, next, peer)
      && next.offers == me.offers && next.paths == me.paths && next.pending == me.pending
  {
  }

  lemma CandidatesKeepHalf(params: Params, local: Endpoint, me: Node, peer: Node, toMe: seq<Control>, c: Control)
    requires Half(params, local, me, peer, toMe) && Truth(peer, c) && Expected(me, c) && me.phase.AwaitCandidates?
    ensures Half(params, local, Proceed(params, local, me, c), peer, toMe)
    ensures Grows(me, Proceed(params, local, me, c))
  {
  }

  lemma DoneKeepsHalf(params: Params, local: Endpoint, me: Node, peer: Node, toMe: seq<Control>, c: Control)
    requires Half(params, local, me, peer, toMe) && Truth(peer, c) && Expected(me, c) && me.phase.AwaitDone?
    ensures Half(params, local, Proceed(params, local, me, c), peer, toMe)
    ensures Grows(me, Proceed(params, local, me, c))
  {
    if !Matched(me.path, c.path) && |me.samples| != me.before {
      var told := Told(me.(other := c.path), Answers(Some(me.batch), Some(me.window), Some(c.path), None));
      NextRoundKeepsFacts(params, local, told, peer);
    }
  }

  lemma ProceedKeepsHalf(params: Params, local: Endpoint, me: Node, peer: Node, toMe: seq<Control>, c: Control)
    requires Half(params, local, me, peer, toMe) && Truth(peer, c) && Expected(me, c)
    ensures Half(params, local, Proceed(params, local, me, c), peer, toMe)
    ensures Grows(me, Proceed(params, local, me, c))
  {
    if me.phase.AwaitCandidates? {
      CandidatesKeepHalf(params, local, me, peer, toMe, c);
    } else if me.phase.AwaitDone? {
      DoneKeepsHalf(params, local, me, peer, toMe, c);
    }
  }

  lemma ResumeKeepsHalf(params: Params, local: Endpoint, me: Node, peer: Node, toMe: seq<Control>)
    requires Half(params, local, me, peer, toMe)
    ensures Half(params, local, Resume(params, local, me), peer, toMe)
    ensures Grows(me, Resume(params, local, me))
  {
    if Waits(me) && me.pending.Some? && Expected(me, me.pending.value) {
      ProceedKeepsHalf(params, local, me.(pending := None), peer, toMe, me.pending.value);
    }
  }

  lemma TakeKeepsHalf(params: Params, local: Endpoint, me: Node, peer: Node, toMe: seq<Control>, c: Control)
    requires Half(params, local, me, peer, toMe) && Truth(peer, c)
    ensures Half(params, local, Take(params, local, me, c), peer, toMe)
    ensures Grows(me, Take(params, local, me, c))
  {
    if Waits(me) && Expected(me, c) {
      ProceedKeepsHalf(params, local, me, peer, toMe, c);
    }
  }

  /** What a local step must keep. */
  ghost predicate ActOutcome(params: Params, local: Endpoint, me: Node, peer: Node, toMe: seq<Control>, next: Node,
      sent: seq<Control>) {
    Half(params, local, next, peer, toMe) && Grows(me, next) && (forall c :: c in sent ==> Truth(next, c))
  }

  lemma HistoryGrows(mine: seq<bool>, theirs: seq<bool>, myPaths: seq<Option<Path>>, theirPaths: seq<Option<Path>>,
    nowMine: seq<bool>, nowPaths: seq<Option<Path>>, round: nat)
    requires mine <= nowMine && myPaths <= nowPaths
    requires forall r :: 1 <= r < round ==> OpenRound(mine, theirs, r) && Unmatched(myPaths, theirPaths, r)
    ensures forall r :: 1 <= r < round ==> OpenRound(nowMine, theirs, r) && Unmatched(nowPaths, theirPaths, r)
    ensures forall r :: OpenRound(mine, theirs, r) ==> OpenRound(nowMine, theirs, r)
  {
    forall r | 1 <= r < round ensures OpenRound(nowMine, theirs, r) && Unmatched(nowPaths, theirPaths, r) {
      assert OpenRound(mine, theirs, r) && Unmatched(myPaths, theirPaths, r);
    }
  }

  lemma OfferKeepsHalf(params: Params, local: Endpoint, me: Node, peer: Node, toMe: seq<Control>, w: Work)
    requires Half(params, local, me, peer, toMe) && me.phase.Starting?
    ensures var (next, sent) := Act(params, local, me, w); ActOutcome(params, local, me, peer, toMe, next, sent)
  {
    var waiting := Offered(me);
    HistoryGrows(me.offers, peer.offers, me.paths, peer.paths, waiting.offers, me.paths, me.round);
    assert Half(params, local, waiting, peer, toMe);
    ResumeKeepsHalf(params, local, waiting, peer, toMe);
    assert Truth(waiting, Candidates(me.round, me.changed, w.candidates));
  }

  lemma PublishedPath(params: Params, local: Endpoint, me: Node, peer: Node, toMe: seq<Control>, waiting: Node,
      path: Option<Path>)
    requires Half(params, local, me, peer, toMe) && me.phase.Probing?
    requires waiting == me.(phase := AwaitDone, samples := waiting.samples, added := waiting.added,
                            window := waiting.window, path := path, paths := me.paths + [path])
    ensures Half(params, local, waiting, peer, toMe) && Grows(me, waiting)
    ensures Truth(waiting, RoundDone(me.round, path))
  {
    HistoryGrows(me.offers, peer.offers, me.paths, peer.paths, me.offers, waiting.paths, me.round);
  }

  lemma WindowKeepsHalf(params: Params, local: Endpoint, me: Node, peer: Node, toMe: seq<Control>, w: Work)
    requires Half(params, local, me, peer, toMe) && me.phase.Probing?
    ensures var (next, sent) := Act(params, local, me, w); ActOutcome(params, local, me, peer, toMe, next, sent)
  {
    var waiting := Probed(params, local, me, w);
    PublishedPath(params, local, me, peer, toMe, waiting, waiting.path);
    ResumeKeepsHalf(params, local, waiting, peer, toMe);
    assert Truth(Resume(params, local, waiting), RoundDone(me.round, waiting.path));
  }

  lemma SurveyKeepsHalf(params: Params, local: Endpoint, me: Node, peer: Node, toMe: seq<Control>, w: Work)
    requires Half(params, local, me, peer, toMe) && me.phase.Surveying?
    ensures var (next, sent) := Act(params, local, me, w); ActOutcome(params, local, me, peer, toMe, next, sent)
  {
    NextRoundKeepsFacts(params, local, Surveyed(me, w), peer);
  }

  lemma ActKeepsHalf(params: Params, local: Endpoint, me: Node, peer: Node, toMe: seq<Control>, w: Work)
    requires Half(params, local, me, peer, toMe)
    ensures var (next, sent) := Act(params, local, me, w); ActOutcome(params, local, me, peer, toMe, next, sent)
  {
    match me.phase {
      case Starting => OfferKeepsHalf(params, local, me, peer, toMe, w);
      case Probing => WindowKeepsHalf(params, local, me, peer, toMe, w);
      case Surveying => SurveyKeepsHalf(params, local, me, peer, toMe, w);
      case Configuring => ResumeKeepsHalf(params, local, me.(phase := AwaitReady), peer, toMe);
      case _ =>
    }
  }

  // ---------------------------------------------------------------- every run

  /** One end moves to `after` having read or not, and sends `sent`. */
  lemma SideKeepsAgreed(params: Params, localA: Endpoint, localB: Endpoint, s: System, side: Side,
    after: Node, inbox: seq<Control>, sent: seq<Control>)
    requires Agreed(params, localA, localB, s)
    requires forall c :: c in inbox ==> c in Inbox(s, side)
    requires ActOutcome(params, LocalOf(localA, localB, side), At(s, side), At(s, Peer(side)), Inbox(s, side),
                        after, sent)
    ensures Agreed(params, localA, localB, With(s, side, after, inbox, sent))
  {
    GrowthKeepsHalf(params, LocalOf(localA, localB, Peer(side)), At(s, Peer(side)), At(s, side), after,
                    Inbox(s, Peer(side)), sent);
  }

  lemma StepKeepsAgreed(params: Params, localA: Endpoint, localB: Endpoint, s: System, e: Event)
    requires Agreed(params, localA, localB, s)
    ensures Agreed(params, localA, localB, Step(params, localA, localB, s, e))
  {
    var side := e.side;
    var local, n, peer, inbox := LocalOf(localA, localB, side), At(s, side), At(s, Peer(side)), Inbox(s, side);
    match e {
      case Run(_, work) =>
        ActKeepsHalf(params, local, n, peer, inbox, work);
        var (next, sent) := Act(params, local, n, work);
        SideKeepsAgreed(params, localA, localB, s, side, next, inbox, sent);
      case Report(_, round, sequence, seen) =>
        SideKeepsAgreed(params, localA, localB, s, side, n, inbox, [ProbeReport(round, sequence, seen)]);
      case Read(_) =>
        if inbox != [] && Reading(n) {
          TakeKeepsHalf(params, local, n, peer, inbox, inbox[0]);
          SideKeepsAgreed(params, localA, localB, s, side, Take(params, local, n, inbox[0]), inbox[1..], []);
        }
      case Fail(_) =>
        if !n.phase.Stopped? && !n.phase.Attempting? {
          SideKeepsAgreed(params, localA, localB, s, side, Stop(n, Cancelled), inbox, []);
        }
      case End(_) =>
        SideKeepsAgreed(params, localA, localB, s, side, n, inbox, [DiscoveryEnd]);
    }
  }

  lemma {:induction false} RunKeepsAgreed(params: Params, localA: Endpoint, localB: Endpoint, events: seq<Event>)
    requires ValidLimits(params.limits)
    ensures Agreed(params, localA, localB, Execute(params, localA, localB, events))
  {
    if events != [] {
      var before := events[..|events| - 1];
      RunKeepsAgreed(params, localA, localB, before);
      StepKeepsAgreed(params, localA, localB, Execute(params, localA, localB, before), events[|events| - 1]);
    }
  }

  /** A node that went on past a round proves that the other could not have ended there. */
  lemma NoEarlierEnd(params: Params, localA: Endpoint, localB: Endpoint, s: System)
    requires Agreed(params, localA, localB, s) && s.a.result.Some? && s.b.result.Some?
    ensures s.b.round <= s.a.round
  {
    if s.a.round < s.b.round {
      var open := OpenRound(s.b.offers, s.a.offers, s.a.round);
      var unmatched := Unmatched(s.b.paths, s.a.paths, s.a.round);
    }
  }

  /** If RunPeer returned without error at both ends, it gave the same reason in the same round, and two
      connected results name one pair of endpoints, each as its own end sees it. */
  lemma OutcomesAgree(params: Params, localA: Endpoint, localB: Endpoint, events: seq<Event>)
    requires ValidLimits(params.limits)
    requires Execute(params, localA, localB, events).a.result.Some?
    requires Execute(params, localA, localB, events).b.result.Some?
    ensures
      var s := Execute(params, localA, localB, events);
      var a, b := s.a.result.value, s.b.result.value;
      && a.reason == b.reason && a.rounds == b.rounds
      && (a.reason.Connected? ==> a.seen == b.endpoint && a.endpoint == b.seen && a.seen.Some? && a.endpoint.Some?)
  {
    RunKeepsAgreed(params, localA, localB, events);
    var s := Execute(params, localA, localB, events);
    var a, b := s.a.result.value, s.b.result.value;
    NoEarlierEnd(params, localA, localB, s);
    NoEarlierEnd(params, localB, localA, System(s.b, s.a, s.toB, s.toA));
  }

  /** An end opens its outbound side only after the other has connected to the mirrored pair and bound
      its receive side. */
  lemma AttemptingNeedsReadyPeer(params: Params, localA: Endpoint, localB: Endpoint, events: seq<Event>, side: Side)
    requires ValidLimits(params.limits)
    requires At(Execute(params, localA, localB, events), side).phase.Attempting?
    ensures
      var s := Execute(params, localA, localB, events);
      var me, peer := At(s, side), At(s, Peer(side));
      && me.result.Some? && peer.result.Some?
      && me.result.value.reason.Connected? && peer.result.value.reason.Connected?
      && me.result.value.seen == peer.result.value.endpoint && me.result.value.endpoint == peer.result.value.seen
  {
    RunKeepsAgreed(params, localA, localB, events);
    OutcomesAgree(params, localA, localB, events);
  }
}
