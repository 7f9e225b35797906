/** One node of the two-party discovery: the round loop and path choice of
    internal/linkdiscovery/peer.go and the waiting rules of its VFP adapter in
    internal/runtime/dynamic_probe.go. */
module Discovery {
  import opened Common
  import opened Net
  import opened Strings

  // ---------------------------------------------------------------- evidence

  datatype Observation = Observation(local: Endpoint, remote: Endpoint, seen: Endpoint)

  datatype Arrival = Arrival(destination: Endpoint, source: Endpoint)

  predicate ValidObservation(o: Observation) {
    && UsableEndpoint(o.local) && UsableEndpoint(o.remote) && UsableEndpoint(o.seen)
    && o.local.address.family == o.remote.address.family == o.seen.address.family
  }

  /** Re-delivering a sample is not new information. */
  function AddTo(samples: seq<Observation>, o: Observation): seq<Observation> {
    if !ValidObservation(o) || o in samples then samples else samples + [o]
  }

  function AddAll(samples: seq<Observation>, more: seq<Observation>): seq<Observation> {
    if more == [] then samples else AddTo(AddAll(samples, more[..|more| - 1]), more[|more| - 1])
  }

  class Store {
    var observations: seq<Observation>

    constructor ()
      ensures observations == []
    {
      observations := [];
    }

    method Add(o: Observation) returns (added: bool)
      modifies this
      ensures observations == AddTo(old(observations), o)
      ensures added == (|observations| > |old(observations)|)
    {
      if !ValidObservation(o) || o in observations {
        return false;
      }
      observations := observations + [o];
      return true;
    }

    method AddEach(more: seq<Observation>) returns (added: nat)
      modifies this
      ensures observations == AddAll(old(observations), more)
      ensures added == |observations| - |old(observations)|
    {
      added := 0;
      for i := 0 to |more|
        invariant observations == AddAll(old(observations), more[..i])
        invariant added == |observations| - |old(observations)|
      {
        assert more[..i + 1][..i] == more[..i];
        var isNew := Add(more[i]);
        added := added + if isNew then 1 else 0;
      }
      assert more[..|more|] == more;
    }
  }

  /** A store never loses or repeats a sample, and holds only valid ones. */
  lemma {:induction false} AddAllKeepsDistinct(samples: seq<Observation>, more: seq<Observation>)
    requires forall i, j :: 0 <= i < j < |samples| ==> samples[i] != samples[j]
    requires forall o :: o in samples ==> ValidObservation(o)
    ensures
      var all := AddAll(samples, more);
      && samples <= all
      && (forall i, j :: 0 <= i < j < |all| ==> all[i] != all[j])
      && (forall o :: o in all <==> o in samples || (o in more && ValidObservation(o)))
  {
    if more != [] {
      AddAllKeepsDistinct(samples, more[..|more| - 1]);
      assert more == more[..|more| - 1] + [more[|more| - 1]];
    }
  }

  // ---------------------------------------------------------------- the reciprocal path

  /** Our public endpoint as the peer saw it, and the peer's endpoint that we reached. */
  datatype Path = Path(seen: Endpoint, remote: Endpoint)

  function Mirror(p: Path): Path {
    Path(p.remote, p.seen)
  }

  predicate Supports(o: Observation, a: Arrival, local: Endpoint, p: Path) {
    o.local == local && o.seen == a.destination && o.remote == a.source && p == Path(o.seen, o.remote)
  }

  /** The round trips proved by one window: a probe of ours that was seen, and one of the peer's that arrived. */
  ghost predicate IsPath(observations: seq<Observation>, arrivals: seq<Arrival>, local: Endpoint, p: Path) {
    exists o, a :: o in observations && a in arrivals && Supports(o, a, local, p)
  }

  /** Both ends order a pair by the same text, whichever way round they hold it. */
  function SortKey(text: Endpoint -> string, p: Path): string {
    var a, b := text(p.seen), text(p.remote);
    if Less(b, a) then b + "/" + a else a + "/" + b
  }

  /** A path of this window that no other precedes in the sorted order. */
  ghost predicate IsChoice(text: Endpoint -> string, observations: seq<Observation>, arrivals: seq<Arrival>,
    local: Endpoint, p: Path)
  {
    && IsPath(observations, arrivals, local, p)
    && forall q :: IsPath(observations, arrivals, local, q) ==> !Less(SortKey(text, q), SortKey(text, p))
  }

  function PathsOf(o: Observation, arrivals: seq<Arrival>, local: Endpoint): seq<Path> {
    if arrivals == [] then []
    else
      var a := arrivals[|arrivals| - 1];
      PathsOf(o, arrivals[..|arrivals| - 1], local)
      + if o.seen == a.destination && o.remote == a.source then [Path(o.seen, o.remote)] else []
  }

  /** Every path of the window, in the order the nested loops find them. */
  function PathList(observations: seq<Observation>, arrivals: seq<Arrival>, local: Endpoint): seq<Path> {
    if observations == [] then []
    else
      var o := observations[|observations| - 1];
      PathList(observations[..|observations| - 1], arrivals, local)
      + if o.local == local then PathsOf(o, arrivals, local) else []
  }

  /** The head of the sorted list. */
  function Pick(text: Endpoint -> string, paths: seq<Path>): Option<Path> {
    if paths == [] then None
    else
      var best, last := Pick(text, paths[..|paths| - 1]), paths[|paths| - 1];
      if best.None? || Less(SortKey(text, last), SortKey(text, best.value)) then Some(last) else best
  }

  lemma {:induction false} PathsOfMeaning(o: Observation, arrivals: seq<Arrival>, local: Endpoint, p: Path)
    requires o.local == local
    ensures p in PathsOf(o, arrivals, local) <==> exists a :: a in arrivals && Supports(o, a, local, p)
  {
    if arrivals != [] {
      PathsOfMeaning(o, arrivals[..|arrivals| - 1], local, p);
      assert arrivals == arrivals[..|arrivals| - 1] + [arrivals[|arrivals| - 1]];
      if Supports(o, arrivals[|arrivals| - 1], local, p) {
        assert arrivals[|arrivals| - 1] in arrivals;
      }
    }
  }

  lemma {:induction false} PathListMeaning(observations: seq<Observation>, arrivals: seq<Arrival>, local: Endpoint,
      p: Path)
    ensures p in PathList(observations, arrivals, local) <==> IsPath(observations, arrivals, local, p)
  {
    if observations != [] {
      var o := observations[|observations| - 1];
      PathListMeaning(observations[..|observations| - 1], arrivals, local, p);
      assert observations == observations[..|observations| - 1] + [o];
      if o.local == local {
        PathsOfMeaning(o, arrivals, local, p);
        if p in PathsOf(o, arrivals, local) {
          var a :| a in arrivals && Supports(o, a, local, p);
          assert o in observations;
        }
      }
    }
  }

  lemma {:induction false} PickIsFirst(text: Endpoint -> string, paths: seq<Path>)
    ensures Pick(text, paths).None? <==> paths == []
    ensures paths != [] ==>
              && Pick(text, paths).value in paths
              && forall q :: q in paths ==> !Less(SortKey(text, q), SortKey(text, Pick(text, paths).value))
  {
    if paths != [] {
      var init, last := paths[..|paths| - 1], paths[|paths| - 1];
      PickIsFirst(text, init);
      assert paths == init + [last];
      LessIrreflexive(SortKey(text, last));
      if init != [] {
        forall q | q in init ensures !Less(SortKey(text, q), SortKey(text, Pick(text, paths).value)) {
          NotLessTransitive(SortKey(text, Pick(text, paths).value), SortKey(text, Pick(text, init).value),
                            SortKey(text, q))
            by {
              if Less(SortKey(text, last), SortKey(text, Pick(text, init).value)) {
                if Less(SortKey(text, Pick(text, init).value), SortKey(text, last)) {
                  LessTransitive(SortKey(text, last), SortKey(text, Pick(text, init).value), SortKey(text, last));
                }
              } else {
                LessIrreflexive(SortKey(text, Pick(text, init).value));
              }
            }
        }
      }
    }
  }

  /** What the window's chosen path is, whatever the order of its observations and arrivals. */
  lemma PickIsChoice(text: Endpoint -> string, observations: seq<Observation>, arrivals: seq<Arrival>, local: Endpoint)
    ensures
      match Pick(text, PathList(observations, arrivals, local))
      case None => forall p :: !IsPath(observations, arrivals, local, p)
      case Some(p) => IsChoice(text, observations, arrivals, local, p)
  {
    var paths := PathList(observations, arrivals, local);
    PickIsFirst(text, paths);
    forall p ensures p in paths <==> IsPath(observations, arrivals, local, p) {
      PathListMeaning(observations, arrivals, local, p);
    }
  }

  method Reciprocal(text: Endpoint -> string, observations: seq<Observation>, arrivals: seq<Arrival>, local: Endpoint)
    returns (chosen: Option<Path>)
    ensures chosen == Pick(text, PathList(observations, arrivals, local))
  {
    var paths: seq<Path> := [];
    for i := 0 to |observations|
      invariant paths == PathList(observations[..i], arrivals, local)
    {
      var o := observations[i];
      ghost var before := paths;
      assert observations[..i + 1][..i] == observations[..i];
      if o.local == local {
        for j := 0 to |arrivals|
          invariant paths == before + PathsOf(o, arrivals[..j], local)
        {
          assert arrivals[..j + 1][..j] == arrivals[..j];
          if o.seen == arrivals[j].destination && o.remote == arrivals[j].source {
            paths := paths + [Path(o.seen, o.remote)];
          }
        }
        assert arrivals[..|arrivals|] == arrivals;
      }
    }
    assert observations[..|observations|] == observations;
    chosen := None;
    for k := 0 to |paths|
      invariant chosen == Pick(text, paths[..k])
    {
      assert paths[..k + 1][..k] == paths[..k];
      if chosen.None? || Less(SortKey(text, paths[k]), SortKey(text, chosen.value)) {
        chosen := Some(paths[k]);
      }
    }
    assert paths[..|paths|] == paths;
  }

  // ---------------------------------------------------------------- both ends choose the same path

  /** What one end holds after a window. */
  datatype Window = Window(observations: seq<Observation>, arrivals: seq<Arrival>, local: Endpoint)

  ghost predicate HasPath(w: Window, p: Path) {
    IsPath(w.observations, w.arrivals, w.local, p)
  }

  ghost predicate Chooses(text: Endpoint -> string, w: Window, p: Path) {
    IsChoice(text, w.observations, w.arrivals, w.local, p)
  }

  /** Every probe of x that reached y was reported back to x, and nothing else was. */
  ghost predicate Reported(x: Window, y: Window) {
    forall d, s :: Arrival(d, s) in y.arrivals <==> Observation(x.local, d, s) in x.observations
  }

  lemma ReportsMirror(x: Window, y: Window, p: Path)
    requires Reported(x, y) && Reported(y, x) && HasPath(x, p)
    ensures HasPath(y, Mirror(p))
  {
    var o, a :| o in x.observations && a in x.arrivals && Supports(o, a, x.local, p);
    assert o == Observation(x.local, p.remote, p.seen);
    assert a == Arrival(p.seen, p.remote);
    assert Arrival(p.remote, p.seen) in y.arrivals;
    assert Observation(y.local, p.seen, p.remote) in y.observations;
    assert Supports(Observation(y.local, p.seen, p.remote), Arrival(p.remote, p.seen), y.local, Mirror(p));
  }

  /** An endpoint's text names it and contains no '/'. */
  ghost predicate Faithful(text: Endpoint -> string) {
    (forall e, f :: text(e) == text(f) ==> e == f) && (forall e :: '/' !in text(e))
  }

  lemma KeyIsMirrored(text: Endpoint -> string, p: Path)
    ensures SortKey(text, Mirror(p)) == SortKey(text, p)
  {
    LessTotal(text(p.seen), text(p.remote));
    if Less(text(p.seen), text(p.remote)) && Less(text(p.remote), text(p.seen)) {
      LessTransitive(text(p.seen), text(p.remote), text(p.seen));
      LessIrreflexive(text(p.seen));
    }
  }

  lemma KeyNamesThePair(text: Endpoint -> string, p: Path, q: Path)
    requires Faithful(text) && SortKey(text, p) == SortKey(text, q)
    ensures p == q || p == Mirror(q)
  {
    var a, b := if Less(text(p.remote), text(p.seen)) then p.remote else p.seen,
                if Less(text(p.remote), text(p.seen)) then p.seen else p.remote;
    var c, d := if Less(text(q.remote), text(q.seen)) then q.remote else q.seen,
                if Less(text(q.remote), text(q.seen)) then q.seen else q.remote;
    assert SortKey(text, p) == text(a) + ['/'] + text(b);
    assert SortKey(text, q) == text(c) + ['/'] + text(d);
    JoinInjective(text(a), text(b), text(c), text(d), '/');
  }

  lemma ChoiceMirrors(text: Endpoint -> string, x: Window, y: Window, p: Path)
    requires Reported(x, y) && Reported(y, x) && Chooses(text, x, p)
    ensures Chooses(text, y, Mirror(p))
  {
    ReportsMirror(x, y, p);
    forall q | HasPath(y, q) ensures !Less(SortKey(text, q), SortKey(text, Mirror(p))) {
      ReportsMirror(y, x, q);
      KeyIsMirrored(text, q);
      KeyIsMirrored(text, p);
    }
  }

  /** Both ends always pick the two halves of one path exactly when no best path also occurs the other
      way round; then the order in which reports came in does not matter. */
  lemma ChoiceIsSymmetricIff(text: Endpoint -> string, x: Window, y: Window)
    requires Faithful(text) && Reported(x, y) && Reported(y, x)
    ensures
      (forall p, q :: Chooses(text, x, p) && Chooses(text, y, q) ==> q == Mirror(p))
      <==> (forall p :: Chooses(text, x, p) && HasPath(x, Mirror(p)) ==> Mirror(p) == p)
  {
    if forall p :: Chooses(text, x, p) && HasPath(x, Mirror(p)) ==> Mirror(p) == p {
      forall p, q | Chooses(text, x, p) && Chooses(text, y, q) ensures q == Mirror(p) {
        ChoiceMirrors(text, y, x, q);
        NotLessBothWays(SortKey(text, p), SortKey(text, Mirror(q)));
        KeyNamesThePair(text, p, Mirror(q));
      }
    }
    if forall p, q :: Chooses(text, x, p) && Chooses(text, y, q) ==> q == Mirror(p) {
      forall p | Chooses(text, x, p) && HasPath(x, Mirror(p)) ensures Mirror(p) == p {
        KeyIsMirrored(text, p);
        assert Chooses(text, x, Mirror(p));
        ChoiceMirrors(text, x, y, Mirror(p));
        assert Chooses(text, y, Mirror(Mirror(p)));
      }
    }
  }

  /** So when every probe that arrived was reported, some path works and no best path also occurs reversed, the two
      ends' own choices meet the condition on which both loops return "connected". */
  lemma MirroredWindowsMatch(text: Endpoint -> string, x: Window, y: Window, p: Path)
    requires Faithful(text) && Reported(x, y) && Reported(y, x) && HasPath(x, p)
    requires forall q :: Chooses(text, x, q) && HasPath(x, Mirror(q)) ==> Mirror(q) == q
    ensures
      var mine, theirs := Pick(text, PathList(x.observations, x.arrivals, x.local)),
                          Pick(text, PathList(y.observations, y.arrivals, y.local));
      Matched(mine, theirs) && Matched(theirs, mine)
  {
    PickIsChoice(text, x.observations, x.arrivals, x.local);
    PickIsChoice(text, y.observations, y.arrivals, y.local);
    ReportsMirror(x, y, p);
    ChoiceIsSymmetricIff(text, x, y);
    var mine, theirs := Pick(text, PathList(x.observations, x.arrivals, x.local)),
                        Pick(text, PathList(y.observations, y.arrivals, y.local));
    assert HasPath(x, p) && HasPath(y, Mirror(p));
    assert Chooses(text, x, mine.value) && Chooses(text, y, theirs.value);
  }

  // ---------------------------------------------------------------- the round loop

  datatype Batch = Batch(endpoints: seq<Endpoint>, changed: bool)

  datatype Reason = Unset | Connected | NoProgress | BudgetExhausted

  datatype Failure = InvalidConfiguration | NetworkFailed | CandidateBudget

  datatype PeerResult = PeerResult(
    local: Option<Endpoint>, endpoint: Option<Endpoint>, seen: Option<Endpoint>,
    rounds: nat, observations: int, reason: Reason)

  datatype Limits = Limits(timeout: int, candidates: int, maxIterations: int)

  /** What the network answers in one round; None is an error. */
  datatype Answers = Answers(
    exchange: Option<Batch>,
    window: Option<(seq<Observation>, seq<Arrival>)>,
    agree: Option<Option<Path>>,
    observe: Option<seq<Observation>>)

  predicate ValidLimits(limits: Limits) {
    1 <= limits.maxIterations <= 16 && limits.timeout > 0 && 1 <= limits.candidates <= 32
  }

  const NO_RESULT := PeerResult(None, None, None, 0, 0, Unset)

  /** Each end reports the pair from its own side. */
  predicate Matched(path: Option<Path>, other: Option<Path>) {
    path.Some? && other.Some? && path.value.seen == other.value.remote && path.value.remote == other.value.seen
  }

  /** Nobody has anything new: the condition that ends both loops in the same round. */
  predicate Exhausted(changed: bool, batch: Batch) {
    !changed && !batch.changed
  }

  /** How one round leaves the loop: with a result, with an error, or going on with what it knows. */
  datatype RoundOutcome =
    | Return(result: PeerResult, failure: Option<Failure>, samples: seq<Observation>)
    | Continue(samples: seq<Observation>, added: int, changed: bool)

  function BeforeProbes(limits: Limits, a: Answers, changed: bool): Option<(Reason, Option<Failure>)> {
    if a.exchange.None? then Some((Unset, Some(NetworkFailed)))
    else if |a.exchange.value.endpoints| > limits.candidates then Some((Unset, Some(CandidateBudget)))
    else if Exhausted(changed, a.exchange.value) then Some((NoProgress, None))
    else if a.window.None? then Some((Unset, Some(NetworkFailed)))
    else None
  }

  function OneRound(text: Endpoint -> string, local: Endpoint, limits: Limits, a: Answers,
    samples: seq<Observation>, added: int, changed: bool, round: nat): RoundOutcome
  {
    var here, ended := NO_RESULT.(rounds := round, observations := added), BeforeProbes(limits, a, changed);
    if ended.Some? then Return(here.(reason := ended.value.0), ended.value.1, samples)
    else
      var tried := AddAll(samples, a.window.value.0);
      var met := here.(observations := added + |tried| - |samples|);
      var path := Pick(text, PathList(a.window.value.0, a.window.value.1, local));
      if a.agree.None? then Return(met, Some(NetworkFailed), tried)
      else if Matched(path, a.agree.value) then
        Return(met.(local := Some(local), seen := Some(path.value.seen), endpoint := Some(path.value.remote),
                    reason := Connected), None, tried)
      else AfterRound(met, samples, tried, a.observe)
  }

  /** A window that taught nothing is followed by a survey. */
  function AfterRound(met: PeerResult, samples: seq<Observation>, tried: seq<Observation>,
    observe: Option<seq<Observation>>): RoundOutcome
  {
    if |tried| != |samples| then Continue(tried, met.observations, |tried| > |samples|)
    else if observe.None? then Return(met, Some(NetworkFailed), tried)
    else
      var surveyed := AddAll(tried, observe.value);
      Continue(surveyed, met.observations + |surveyed| - |tried|, |surveyed| > |samples|)
  }

  /** The loop from one round on, with the evidence held and counted so far. */
  function Rounds(text: Endpoint -> string, local: Endpoint, limits: Limits, script: nat -> Answers,
    samples: seq<Observation>, added: int, changed: bool, round: nat)
    : (PeerResult, Option<Failure>, seq<Observation>)
    requires 1 <= round
    decreases limits.maxIterations - round
  {
    if round > limits.maxIterations then
      (NO_RESULT.(rounds := round - 1, observations := added, reason := BudgetExhausted), None, samples)
    else
      match OneRound(text, local, limits, script(round), samples, added, changed, round)
      case Return(result, failure, left) => (result, failure, left)
      case Continue(next, count, grew) => Rounds(text, local, limits, script, next, count, grew, round + 1)
  }

  method RunRound(text: Endpoint -> string, store: Store, local: Endpoint, limits: Limits, a: Answers,
    added: int, changed: bool, round: nat)
    returns (outcome: RoundOutcome)
    modifies store
    ensures outcome == OneRound(text, local, limits, a, old(store.observations), added, changed, round)
    ensures outcome.samples == store.observations
  {
    var out := NO_RESULT.(rounds := round, observations := added);
    if a.exchange.None? {
      return Return(out, Some(NetworkFailed), store.observations);
    }
    if |a.exchange.value.endpoints| > limits.candidates {
      return Return(out, Some(CandidateBudget), store.observations);
    }
    if Exhausted(changed, a.exchange.value) {
      return Return(out.(reason := NoProgress), None, store.observations);
    }
    if a.window.None? {
      return Return(out, Some(NetworkFailed), store.observations);
    }
    var before := |store.observations|;
    var count := store.AddEach(a.window.value.0);
    out := out.(observations := added + count);
    var path := Reciprocal(text, a.window.value.0, a.window.value.1, local);
    if a.agree.None? {
      return Return(out, Some(NetworkFailed), store.observations);
    }
    if Matched(path, a.agree.value) {
      out := out.(local := Some(local), seen := Some(path.value.seen), endpoint := Some(path.value.remote));
      return Return(out.(reason := Connected), None, store.observations);
    }
    if |store.observations| == before {
      if a.observe.None? {
        return Return(out, Some(NetworkFailed), store.observations);
      }
      count := store.AddEach(a.observe.value);
      out := out.(observations := out.observations + count);
    }
    return Continue(store.observations, out.observations, |store.observations| > before);
  }

  method RunPeer(text: Endpoint -> string, store: Store, local: Endpoint, target: Endpoint, limits: Limits,
    script: nat -> Answers)
    returns (out: PeerResult, failure: Option<Failure>)
    modifies store
    ensures
      (out, failure, store.observations)
      == if UsableEndpoint(local) && UsableEndpoint(target) && ValidLimits(limits)
         then Rounds(text, local, limits, script, old(store.observations), 0, true, 1)
         else (NO_RESULT, Some(InvalidConfiguration), old(store.observations))
  {
    if !(UsableEndpoint(local) && UsableEndpoint(target) && ValidLimits(limits)) {
      return NO_RESULT, Some(InvalidConfiguration);
    }
    var added, changed, round := 0, true, 1;
    while round <= limits.maxIterations
      invariant 1 <= round
      invariant Rounds(text, local, limits, script, old(store.observations), 0, true, 1)
             == Rounds(text, local, limits, script, store.observations, added, changed, round)
      decreases limits.maxIterations - round
    {
      var outcome := RunRound(text, store, local, limits, script(round), added, changed, round);
      match outcome {
        case Return(result, failed, _) =>
          return result, failed;
        case Continue(_, count, grew) =>
          added, changed, round := count, grew, round + 1;
      }
    }
    return NO_RESULT.(rounds := round - 1, observations := added, reason := BudgetExhausted), None;
  }
}
