/** The asynchronous node refines the sequential loop: whatever the interleaving, a node's result is what
    RunPeer returns on the answers that node was given. */
module DiscoveryReplay {
  import opened Common
  import opened Net
  import opened Discovery
  import opened DiscoveryPair

  /** The network answered round r of the loop as it answered the node. */
  ghost predicate Follows(script: nat -> Answers, told: seq<Answers>) {
    forall r: nat :: 1 <= r <= |told| ==> script(r) == told[r - 1]
  }

  ghost function Whole(params: Params, local: Endpoint,
      script: nat -> Answers): (PeerResult, Option<Failure>, seq<Observation>)
  {
    Rounds(params.text, local, params.limits, script, [], 0, true, 1)
  }

  /** The loop, entered at this node's round with the evidence it held when the round began. */
  ghost predicate Resumes(params: Params, local: Endpoint, n: Node, script: nat -> Answers, samples: seq<Observation>,
      added: int)
  {
    && n.round >= 1
    && Whole(params, local, script)
        == Rounds(params.text, local, params.limits, script, samples, added, n.changed, n.round)
  }

  /** The window of the round has been stored on top of what the node held. */
  ghost predicate Tried(params: Params, local: Endpoint, n: Node) {
    && 0 <= n.before <= |n.samples|
    && n.samples == AddAll(n.samples[..n.before], n.window.0)
    && n.path == Pick(params.text, PathList(n.window.0, n.window.1, local))
  }

  ghost predicate InWindow(params: Params, local: Endpoint, n: Node, script: nat -> Answers) {
    && Tried(params, local, n)
    && Resumes(params, local, n, script, n.samples[..n.before], n.added - (|n.samples| - n.before))
    && BeforeProbes(params.limits, Answers(Some(n.batch), Some(n.window), None, None), n.changed).None?
  }

  ghost predicate Replays(params: Params, local: Endpoint, n: Node, script: nat -> Answers) {
    if n.result.Some? then
      && |n.answers| == n.round && !n.phase.Probing? && !n.phase.AwaitDone? && !n.phase.Surveying?
      && !n.phase.Starting? && !n.phase.AwaitCandidates?
      && Whole(params, local, script) == (n.result.value, None, n.samples)
    else
      match n.phase
      case Starting => |n.answers| == n.round - 1 && Resumes(params, local, n, script, n.samples, n.added)
      case AwaitCandidates => |n.answers| == n.round - 1 && Resumes(params, local, n, script, n.samples, n.added)
      case Probing =>
        && |n.answers| == n.round - 1 && Resumes(params, local, n, script, n.samples, n.added)
        && n.before == |n.samples|
        && |n.batch.endpoints| <= params.limits.candidates && !Exhausted(n.changed, n.batch)
      case AwaitDone => |n.answers| == n.round - 1 && InWindow(params, local, n, script)
      case Surveying =>
        && |n.answers| == n.round - 1 && InWindow(params, local, n, script)
        && !Matched(n.path, n.other) && |n.samples| == n.before
      case Stopped => true
      case _ => false
  }

  lemma {:induction false} StoreOnlyGrows(samples: seq<Observation>, more: seq<Observation>)
    ensures samples <= AddAll(samples, more)
  {
    if more != [] {
      StoreOnlyGrows(samples, more[..|more| - 1]);
    }
  }

  /** The loop goes on with this evidence after round n.round. */
  ghost predicate GoesOn(params: Params, local: Endpoint, n: Node, script: nat -> Answers) {
    && n.round >= 1
    && Whole(params, local, script)
       == Rounds(params.text, local, params.limits, script, n.samples, n.added, |n.samples| > n.before, n.round + 1)
  }

  lemma LoopEnds(params: Params, local: Endpoint, n: Node, script: nat -> Answers)
    requires GoesOn(params, local, n, script) && n.round == params.limits.maxIterations
    ensures Whole(params, local, script)
         == (NO_RESULT.(rounds := n.round, observations := n.added, reason := BudgetExhausted), None, n.samples)
  {
  }

  lemma LoopResumes(params: Params, local: Endpoint, n: Node, script: nat -> Answers)
    requires GoesOn(params, local, n, script) && n.round < params.limits.maxIterations
    ensures Resumes(params, local, NextRound(params, n), script, n.samples, n.added)
  {
  }

  /** One turn of the loop, when the round neither connects nor fails. */
  lemma TurnOver(params: Params, local: Endpoint, n: Node, script: nat -> Answers)
    requires GoesOn(params, local, n, script) && n.round <= params.limits.maxIterations
    requires |n.answers| == n.round && n.result.None?
    ensures Replays(params, local, NextRound(params, n), script)
  {
    if n.round == params.limits.maxIterations {
      LoopEnds(params, local, n, script);
    } else {
      LoopResumes(params, local, n, script);
    }
  }

  lemma CandidatesReplay(params: Params, local: Endpoint, n: Node, c: Control, script: nat -> Answers)
    requires Replays(params, local, n, script) && n.phase.AwaitCandidates? && c.Candidates? && n.result.None?
    requires n.round <= params.limits.maxIterations
    requires Follows(script, Proceed(params, local, n, c).answers)
    ensures Replays(params, local, Proceed(params, local, n, c), script)
  {
    var met := Batch(c.endpoints, c.changed);
    if |c.endpoints| <= params.limits.candidates && Exhausted(n.changed, met) {
      assert script(n.round) == Answers(Some(met), None, None, None);
    }
  }

  /** What the script says of a round that has just been added to what the node was told. */
  lemma ToldLast(n: Node, told: Answers, script: nat -> Answers)
    requires n.round >= 1 && |n.answers| == n.round - 1 && Follows(script, n.answers + [told])
    ensures script(n.round) == told
  {
    assert (n.answers + [told])[n.round - 1] == told;
  }

  lemma ConnectReplays(params: Params, local: Endpoint, n: Node, c: Control, script: nat -> Answers)
    requires InWindow(params, local, n, script) && c.RoundDone? && Matched(n.path, c.path)
    requires n.round <= params.limits.maxIterations
    requires script(n.round) == Answers(Some(n.batch), Some(n.window), Some(c.path), None)
    ensures
      var result := PeerResult(Some(local), Some(n.path.value.remote), Some(n.path.value.seen), n.round, n.added,
                               Connected);
      Whole(params, local, script) == (result, None, n.samples)
  {
  }

  /** A window that taught something and did not match goes on to the next round. */
  lemma LearnReplays(params: Params, local: Endpoint, n: Node, c: Control, script: nat -> Answers)
    requires InWindow(params, local, n, script) && c.RoundDone? && !Matched(n.path, c.path) && |n.samples| != n.before
    requires n.round <= params.limits.maxIterations
    requires script(n.round) == Answers(Some(n.batch), Some(n.window), Some(c.path), None)
    ensures GoesOn(params, local, n, script)
  {
  }

  lemma DoneReplays(params: Params, local: Endpoint, n: Node, c: Control, script: nat -> Answers)
    requires Replays(params, local, n, script) && n.phase.AwaitDone? && c.RoundDone? && n.result.None?
    requires n.round <= params.limits.maxIterations
    requires Follows(script, Proceed(params, local, n, c).answers)
    ensures Replays(params, local, Proceed(params, local, n, c), script)
  {
    var told := Answers(Some(n.batch), Some(n.window), Some(c.path), None);
    if Matched(n.path, c.path) {
      ToldLast(n, told, script);
      ConnectReplays(params, local, n, c, script);
    } else if |n.samples| != n.before {
      var met := Told(n.(other := c.path), told);
      assert Proceed(params, local, n, c) == NextRound(params, met);
      assert Follows(script, met.answers);
      ToldLast(n, told, script);
      LearnReplays(params, local, n, c, script);
      TurnOver(params, local, met, script);
    }
  }

  lemma ProceedReplays(params: Params, local: Endpoint, n: Node, c: Control, script: nat -> Answers)
    requires Replays(params, local, n, script) && Expected(n, c) && n.round <= params.limits.maxIterations
    requires Follows(script, Proceed(params, local, n, c).answers)
    ensures Replays(params, local, Proceed(params, local, n, c), script)
  {
    if n.phase.AwaitCandidates? {
      CandidatesReplay(params, local, n, c, script);
    } else if n.phase.AwaitDone? {
      DoneReplays(params, local, n, c, script);
    }
  }

  lemma FreedReplays(params: Params, local: Endpoint, n: Node, script: nat -> Answers)
    requires Replays(params, local, n, script)
    ensures Replays(params, local, n.(pending := None), script)
  {
  }

  lemma StoppedReplays(params: Params, local: Endpoint, n: Node, script: nat -> Answers, error: StopError)
    requires Replays(params, local, n, script)
    ensures Replays(params, local, Stop(n, error), script)
  {
  }

  lemma ResumeReplays(params: Params, local: Endpoint, n: Node, script: nat -> Answers)
    requires Replays(params, local, n, script) && n.round <= params.limits.maxIterations
    requires Follows(script, Resume(params, local, n).answers)
    ensures Replays(params, local, Resume(params, local, n), script)
  {
    if Waits(n) && n.pending.Some? {
      var freed := n.(pending := None);
      FreedReplays(params, local, n, script);
      if Expected(n, n.pending.value) {
        ProceedReplays(params, local, freed, n.pending.value, script);
      } else {
        StoppedReplays(params, local, freed, script, UnexpectedPending);
      }
    }
  }

  lemma WindowReplays(params: Params, local: Endpoint, n: Node, w: Work, script: nat -> Answers)
    requires Replays(params, local, n, script) && n.phase.Probing? && n.result.None?
    ensures Replays(params, local, Probed(params, local, n, w), script)
  {
    StoreOnlyGrows(n.samples, w.observations);
    var probed := Probed(params, local, n, w);
    assert probed.samples[..n.before] == n.samples;
  }

  /** A round that learns only from its survey goes on to the next. */
  lemma SurveyContinues(params: Params, local: Endpoint, n: Node, w: Work, script: nat -> Answers)
    requires InWindow(params, local, n, script) && !Matched(n.path, n.other) && |n.samples| == n.before
    requires n.round <= params.limits.maxIterations
    requires script(n.round) == Answers(Some(n.batch), Some(n.window), Some(n.other), Some(w.observations))
    ensures GoesOn(params, local, Surveyed(n, w), script)
  {
    assert n.samples[..n.before] == n.samples;
  }

  lemma SurveyReplays(params: Params, local: Endpoint, n: Node, w: Work, script: nat -> Answers)
    requires Replays(params, local, n, script) && n.phase.Surveying? && n.result.None?
    requires n.round <= params.limits.maxIterations
    requires Follows(script, Surveyed(n, w).answers)
    ensures Replays(params, local, NextRound(params, Surveyed(n, w)), script)
  {
    ToldLast(n, Answers(Some(n.batch), Some(n.window), Some(n.other), Some(w.observations)), script);
    SurveyContinues(params, local, n, w, script);
    TurnOver(params, local, Surveyed(n, w), script);
  }

  lemma ActReplays(params: Params, local: Endpoint, n: Node, w: Work, script: nat -> Answers)
    requires Replays(params, local, n, script) && n.round <= params.limits.maxIterations
    requires Follows(script, Act(params, local, n, w).0.answers)
    ensures Replays(params, local, Act(params, local, n, w).0, script)
  {
    match n.phase {
      case Starting => ResumeReplays(params, local, Offered(n), script);
      case Probing =>
        WindowReplays(params, local, n, w, script);
        ResumeReplays(params, local, Probed(params, local, n, w), script);
      case Surveying => SurveyReplays(params, local, n, w, script);
      case Configuring => ResumeReplays(params, local, n.(phase := AwaitReady), script);
      case _ =>
    }
  }

  /** A node only adds to what it was told, and never leaves the round budget. */
  ghost predicate Remembers(params: Params, n: Node, next: Node) {
    n.answers <= next.answers && (n.round <= params.limits.maxIterations ==> next.round <= params.limits.maxIterations)
  }

  lemma ProceedRemembers(params: Params, local: Endpoint, n: Node, c: Control)
    ensures Remembers(params, n, Proceed(params, local, n, c))
  {
  }

  lemma TakeRemembers(params: Params, local: Endpoint, n: Node, c: Control)
    ensures Remembers(params, n, Take(params, local, n, c))
  {
    ProceedRemembers(params, local, n, c);
  }

  lemma ActRemembers(params: Params, local: Endpoint, n: Node, w: Work)
    ensures Remembers(params, n, Act(params, local, n, w).0)
  {
    var waiting := if n.phase.Starting? then Offered(n)
                   else if n.phase.Probing? then Probed(params, local, n, w)
                   else n.(phase := AwaitReady);
    if waiting.pending.Some? {
      ProceedRemembers(params, local, waiting.(pending := None), waiting.pending.value);
    }
  }

  lemma StepRemembers(params: Params, localA: Endpoint, localB: Endpoint, s: System, e: Event, side: Side)
    ensures Remembers(params, At(s, side), At(Step(params, localA, localB, s, e), side))
  {
    if e.side == side {
      var n, local, inbox := At(s, side), LocalOf(localA, localB, side), Inbox(s, side);
      match e {
        case Run(_, work) => ActRemembers(params, local, n, work);
        case Read(_) =>
          if inbox != [] {
            TakeRemembers(params, local, n, inbox[0]);
          }
        case _ =>
      }
    }
  }

  lemma TakeReplays(params: Params, local: Endpoint, n: Node, c: Control, script: nat -> Answers)
    requires Replays(params, local, n, script) && n.round <= params.limits.maxIterations
    requires Follows(script, Take(params, local, n, c).answers)
    ensures Replays(params, local, Take(params, local, n, c), script)
  {
    if Waits(n) && !c.DiscoveryEnd? && Expected(n, c) {
      ProceedReplays(params, local, n, c, script);
    }
  }

  lemma StepReplays(params: Params, localA: Endpoint, localB: Endpoint, s: System, e: Event, side: Side,
      script: nat -> Answers)
    requires At(s, side).round <= params.limits.maxIterations
    requires Replays(params, LocalOf(localA, localB, side), At(s, side), script)
    requires Follows(script, At(Step(params, localA, localB, s, e), side).answers)
    ensures Replays(params, LocalOf(localA, localB, side), At(Step(params, localA, localB, s, e), side), script)
  {
    var n, local, inbox := At(s, side), LocalOf(localA, localB, side), Inbox(s, side);
    var next := At(Step(params, localA, localB, s, e), side);
    if e.side == side && e.Run? {
      assert next == Act(params, local, n, e.work).0;
      ActReplays(params, local, n, e.work, script);
    } else if e.side == side && e.Read? && inbox != [] && Reading(n) {
      assert next == Take(params, local, n, inbox[0]);
      TakeReplays(params, local, n, inbox[0], script);
    } else {
      assert next == n || next == Stop(n, Cancelled);
    }
  }

  lemma {:induction false} RunReplays(params: Params, localA: Endpoint, localB: Endpoint, events: seq<Event>,
      side: Side, script: nat -> Answers)
    requires ValidLimits(params.limits)
    requires Follows(script, At(Execute(params, localA, localB, events), side).answers)
    ensures At(Execute(params, localA, localB, events), side).round <= params.limits.maxIterations
    ensures Replays(params, LocalOf(localA, localB, side), At(Execute(params, localA, localB, events), side), script)
  {
    if events != [] {
      var before, e := events[..|events| - 1], events[|events| - 1];
      var s := Execute(params, localA, localB, before);
      StepRemembers(params, localA, localB, s, e, side);
      RunReplays(params, localA, localB, before, side, script);
      StepReplays(params, localA, localB, s, e, side, script);
    }
  }

  /** Whatever the interleaving and the failures of the other end: if a node's discovery returned without error, it
      returned the result, and left the evidence, of the sequential loop on the answers this node was given. */
  lemma AsyncRunIsRunPeer(params: Params, localA: Endpoint, localB: Endpoint, events: seq<Event>, side: Side,
      script: nat -> Answers)
    requires ValidLimits(params.limits)
    requires Follows(script, At(Execute(params, localA, localB, events), side).answers)
    requires At(Execute(params, localA, localB, events), side).result.Some?
    ensures
      var n := At(Execute(params, localA, localB, events), side);
      Rounds(params.text, LocalOf(localA, localB, side), params.limits, script, [], 0, true, 1)
      == (n.result.value, None, n.samples)
  {
    RunReplays(params, localA, localB, events, side, script);
  }
}
