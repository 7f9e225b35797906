/** The two intervals of a durable agreement that must not be interrupted: continuous failure while both ends are
    ready (internal/runtime/durable_recovery.go), and a stable local endpoint before promotion
    (internal/runtime/durable.go). */
module DurableTimers {
  import opened Common
  import opened Net

  /** Nanoseconds. */
  type Time = int

  const SECOND: Time := 1_000_000_000
  const READY_FRESHNESS: Time := 30 * SECOND
  const FAILURE_TIMEOUT: Time := 1800 * SECOND
  const LINK_FAILURE_TIMEOUT: Time := 30 * SECOND

  // ---------------------------------------------------------------- failure while both ends are ready

  /** None is Go's zero time. */
  datatype Failure = Failure(readyUntil: Option<Time>, failedSince: Option<Time>)

  datatype CheckEvent =
    | Evaluate(now: Time, localReady: bool, connected: bool)
    | PeerReady(now: Time)
    | PeerNotReady

  const NO_FAILURE := Failure(None, None)

  function Note(f: Failure, e: CheckEvent): (Failure, bool) {
    match e
    case Evaluate(now, localReady, connected) =>
      if connected || !localReady || f.readyUntil.None? || f.readyUntil.value <= now then
        (f.(failedSince := None), false)
      else
        var since := f.failedSince.GetOr(now);
        (f.(failedSince := Some(since)), now - since >= FAILURE_TIMEOUT)
    case PeerReady(now) => (f.(readyUntil := Some(now + READY_FRESHNESS)), false)
    case PeerNotReady => (NO_FAILURE, false)
  }

  class CheckTimer {
    var readyUntil: Option<Time>
    var failedSince: Option<Time>

    constructor ()
      ensures State() == NO_FAILURE
    {
      readyUntil, failedSince := None, None;
    }

    function State(): Failure
      reads this
    {
      Failure(readyUntil, failedSince)
    }

    method Failed(now: Time, localReady: bool, connected: bool) returns (failed: bool)
      modifies this
      ensures (State(), failed) == Note(old(State()), Evaluate(now, localReady, connected))
    {
      if connected || !localReady || readyUntil.None? || readyUntil.value <= now {
        failedSince := None;
        return false;
      }
      if failedSince.None? {
        failedSince := Some(now);
      }
      return now - failedSince.value >= FAILURE_TIMEOUT;
    }

    method AcceptReady(now: Time)
      modifies this
      ensures State() == Note(old(State()), PeerReady(now)).0
    {
      readyUntil := Some(now + READY_FRESHNESS);
    }

    method AcceptNotReady()
      modifies this
      ensures State() == Note(old(State()), PeerNotReady).0
    {
      readyUntil, failedSince := None, None;
    }
  }

  /** The timer after a history, and whether its last event asked for the agreement to be dropped. */
  function After(history: seq<CheckEvent>): (Failure, bool) {
    if history == [] then (NO_FAILURE, false)
    else Note(After(history[..|history| - 1]).0, history[|history| - 1])
  }

  /** The last word from the peer before event i was READY, less than its freshness ago. */
  ghost predicate PeerFresh(history: seq<CheckEvent>, i: nat)
    requires i < |history| && history[i].Evaluate?
  {
    exists j: nat :: j < i && ReadyAt(history, j, i) && history[i].now < history[j].now + READY_FRESHNESS
  }

  ghost predicate ReadyAt(history: seq<CheckEvent>, j: nat, i: nat)
    requires j < i <= |history|
  {
    history[j].PeerReady? && forall k :: j < k < i ==> history[k].Evaluate?
  }

  ghost predicate Bad(history: seq<CheckEvent>, i: nat) {
    && i < |history| && history[i].Evaluate?
    && !history[i].connected && history[i].localReady && PeerFresh(history, i)
  }

  /** From evaluation i on every evaluation was bad and the peer never said NOT_READY. */
  ghost predicate Streak(history: seq<CheckEvent>, i: nat) {
    && Bad(history, i)
    && forall k :: i <= k < |history| ==> !history[k].PeerNotReady? && (history[k].Evaluate? ==> Bad(history, k))
  }

  ghost predicate StreakStart(history: seq<CheckEvent>, i: nat) {
    Streak(history, i) && forall k: nat :: k < i ==> !Streak(history, k)
  }

  lemma PeerFreshStays(history: seq<CheckEvent>, e: CheckEvent, i: nat)
    requires i < |history|
    ensures Bad(history + [e], i) <==> Bad(history, i)
  {
    if history[i].Evaluate? {
      forall j: nat | j < i ensures ReadyAt(history + [e], j, i) <==> ReadyAt(history, j, i) {
        assert forall k :: j <= k < i ==> (history + [e])[k] == history[k];
      }
    }
  }

  /** readyUntil is the freshness of the peer's last word. */
  lemma {:induction false} FreshnessIsLastWord(history: seq<CheckEvent>)
    ensures
      match After(history).0.readyUntil
      case Some(until) => exists j: nat ::
          j < |history| && ReadyAt(history, j, |history|) && until == history[j].now + READY_FRESHNESS
      case None => forall j: nat :: j < |history| ==> !ReadyAt(history, j, |history|)
  {
    if history != [] {
      var before, e := history[..|history| - 1], history[|history| - 1];
      FreshnessIsLastWord(before);
      assert history == before + [e];
      forall j: nat | j < |before|
        ensures ReadyAt(history, j, |history|) <==> ReadyAt(before, j, |before|) && e.Evaluate?
      {
        assert history[|history| - 1] == e;
        assert forall k :: j <= k < |before| ==> history[k] == before[k];
      }
      if e.PeerReady? {
        assert ReadyAt(history, |before|, |history|);
      }
    }
  }

  lemma OneLastWord(history: seq<CheckEvent>, j: nat, k: nat, i: nat)
    requires j < i <= |history| && k < i && ReadyAt(history, j, i) && ReadyAt(history, k, i)
    ensures j == k
  {
  }

  lemma BadIsFresh(before: seq<CheckEvent>, e: CheckEvent)
    requires e.Evaluate?
    ensures
      var until := After(before).0.readyUntil;
      Bad(before + [e], |before|) <==> !e.connected && e.localReady && until.Some? && e.now < until.value
  {
    FreshnessIsLastWord(before);
    var history, n := before + [e], |before|;
    forall j: nat | j < n ensures ReadyAt(history, j, n) <==> ReadyAt(before, j, n) {
      assert forall k :: j <= k < n ==> history[k] == before[k];
    }
    var until := After(before).0.readyUntil;
    if until.Some? {
      var j: nat :| j < n && ReadyAt(before, j, n) && until.value == before[j].now + READY_FRESHNESS;
      assert ReadyAt(history, j, n) && history[j] == before[j];
      forall k: nat | k < n && ReadyAt(history, k, n) ensures k == j {
        OneLastWord(history, j, k, n);
      }
    }
  }

  lemma StreakGrows(before: seq<CheckEvent>, e: CheckEvent)
    ensures forall i: nat :: i < |before| ==>
              (Streak(before + [e], i) <==>
                Streak(before, i) && !e.PeerNotReady? && (e.Evaluate? ==> Bad(before + [e], |before|)))
    ensures Streak(before + [e], |before|) <==> Bad(before + [e], |before|)
  {
    var history := before + [e];
    forall k: nat | k < |before| ensures history[k] == before[k] && (Bad(history, k) <==> Bad(before, k)) {
      PeerFreshStays(before, e, k);
    }
    assert history[|before|] == e;
  }

  lemma {:induction false} FailedSinceIsStreakStart(history: seq<CheckEvent>)
    ensures
      match After(history).0.failedSince
      case Some(since) => exists i: nat :: StreakStart(history, i) && history[i].now == since
      case None => forall i: nat :: !Streak(history, i)
  {
    if history != [] {
      var before, e := history[..|history| - 1], history[|history| - 1];
      FailedSinceIsStreakStart(before);
      assert history == before + [e];
      StreakGrows(before, e);
      if e.Evaluate? {
        BadIsFresh(before, e);
      }
      if After(history).0.failedSince.Some? {
        if After(before).0.failedSince.Some? {
          var i: nat :| StreakStart(before, i) && before[i].now == After(before).0.failedSince.value;
          assert StreakStart(history, i);
        } else {
          assert StreakStart(history, |before|);
        }
      }
    }
  }

  /** An agreement is dropped for failure exactly when the unbroken run of evaluations that found no direct Link,
      local readiness and fresh peer READY began at least thirty minutes before. */
  lemma DroppedIffUnbroken(history: seq<CheckEvent>)
    requires history != [] && history[|history| - 1].Evaluate?
    ensures After(history).1
       <==> exists i: nat :: StreakStart(history, i) && history[|history| - 1].now - history[i].now >= FAILURE_TIMEOUT
  {
    var before, e := history[..|history| - 1], history[|history| - 1];
    assert history == before + [e];
    FailedSinceIsStreakStart(history);
    StreakGrows(before, e);
    BadIsFresh(before, e);
    if After(history).0.failedSince.Some? {
      var i: nat :| StreakStart(history, i) && history[i].now == After(history).0.failedSince.value;
      forall k: nat | StreakStart(history, k) ensures k == i {
        assert Streak(history, k) && Streak(history, i);
      }
    }
  }

  // ---------------------------------------------------------------- a stable local endpoint

  datatype Sample = Sample(local: Endpoint, remote: Endpoint, control: Option<Address>, port: int, at: Time)

  datatype Observation = Observation(
    local: Endpoint, remote: Endpoint, control: Option<Address>, port: int, since: Time, seen: Time)

  /** The entry after a sample; an older sample than the last is ignored. */
  function Observed(previous: Option<Observation>, s: Sample): Observation {
    if previous.Some? && s.at < previous.value.seen then previous.value
    else
      var restarts := previous.None? || previous.value.local != s.local || previous.value.port != s.port
                    || s.at - previous.value.seen >= LINK_FAILURE_TIMEOUT;
      Observation(s.local, s.remote, s.control, s.port, if restarts then s.at else previous.value.since, s.at)
  }

  /** Recent, unchanged for the stable interval, and on the port WireGuard really listens on. */
  predicate EligibleObservation(o: Option<Observation>, now: Time, stable: Time) {
    && o.Some?
    && now - o.value.seen < LINK_FAILURE_TIMEOUT
    && now - o.value.since >= stable
    && o.value.local.port == o.value.port
  }

  function ObservedAll(samples: seq<Sample>): Option<Observation> {
    if samples == [] then None
    else Some(Observed(ObservedAll(samples[..|samples| - 1]), samples[|samples| - 1]))
  }

  /** The samples that were not ignored. */
  function Kept(samples: seq<Sample>): seq<Sample> {
    if samples == [] then [] else KeptWith(Kept(samples[..|samples| - 1]), samples[|samples| - 1])
  }

  function KeptWith(before: seq<Sample>, s: Sample): seq<Sample> {
    if before != [] && s.at < before[|before| - 1].at then before else before + [s]
  }

  predicate Continues(p: Sample, q: Sample) {
    p.local == q.local && p.port == q.port && 0 <= q.at - p.at < LINK_FAILURE_TIMEOUT
  }

  /** From sample i on the endpoint and port stayed and no gap reached thirty seconds. */
  ghost predicate Unbroken(kept: seq<Sample>, i: nat) {
    i < |kept| && forall k :: i < k < |kept| ==> Continues(kept[k - 1], kept[k])
  }

  ghost predicate UnbrokenFrom(kept: seq<Sample>, i: nat) {
    Unbroken(kept, i) && (i == 0 || !Continues(kept[i - 1], kept[i]))
  }

  ghost predicate Ascending(kept: seq<Sample>) {
    forall k :: 0 < k < |kept| ==> kept[k - 1].at <= kept[k].at
  }

  predicate IsLast(o: Observation, last: Sample) {
    o.local == last.local && o.port == last.port && o.seen == last.at && o.remote == last.remote
        && o.control == last.control
  }

  /** The entry repeats the last sample that counted and dates from the start of its unbroken run. */
  ghost predicate TellsLastRun(o: Option<Observation>, kept: seq<Sample>) {
    && (o.None? <==> kept == [])
    && (o.Some? ==>
          && IsLast(o.value, kept[|kept| - 1])
          && exists i: nat :: UnbrokenFrom(kept, i) && o.value.since == kept[i].at)
  }

  lemma RunGoesOn(kept: seq<Sample>, s: Sample, i: nat)
    requires UnbrokenFrom(kept, i) && Continues(kept[|kept| - 1], s)
    ensures UnbrokenFrom(kept + [s], i) && (kept + [s])[i] == kept[i]
  {
    var longer := kept + [s];
    forall k | i < k < |longer| ensures Continues(longer[k - 1], longer[k]) {
      if k < |kept| {
        assert Continues(kept[k - 1], kept[k]);
      }
    }
  }

  lemma RunBegins(kept: seq<Sample>, s: Sample)
    requires kept == [] || !Continues(kept[|kept| - 1], s)
    ensures UnbrokenFrom(kept + [s], |kept|) && (kept + [s])[|kept|] == s
  {
  }

  lemma StillAscending(kept: seq<Sample>, s: Sample)
    requires Ascending(kept)
    ensures Ascending(KeptWith(kept, s))
  {
  }

  lemma OneMoreSample(o: Option<Observation>, kept: seq<Sample>, s: Sample)
    requires Ascending(kept) && TellsLastRun(o, kept)
    ensures TellsLastRun(Some(Observed(o, s)), KeptWith(kept, s))
  {
    if kept == [] {
      RunBegins(kept, s);
    } else if s.at >= kept[|kept| - 1].at {
      var i: nat :| UnbrokenFrom(kept, i) && o.value.since == kept[i].at;
      if Continues(kept[|kept| - 1], s) {
        RunGoesOn(kept, s, i);
      } else {
        RunBegins(kept, s);
      }
    }
  }

  lemma {:induction false} ObservationIsLastRun(samples: seq<Sample>)
    ensures Ascending(Kept(samples)) && TellsLastRun(ObservedAll(samples), Kept(samples))
  {
    if samples != [] {
      var before, s := samples[..|samples| - 1], samples[|samples| - 1];
      ObservationIsLastRun(before);
      StillAscending(Kept(before), s);
      OneMoreSample(ObservedAll(before), Kept(before), s);
    }
  }

  lemma {:induction false} RunsAscend(kept: seq<Sample>, i: nat, k: nat)
    requires i <= k < |kept| && Ascending(kept)
    ensures kept[i].at <= kept[k].at
  {
    if i < k {
      RunsAscend(kept, i, k - 1);
    }
  }

  lemma FirstOfRun(kept: seq<Sample>, i: nat, k: nat)
    requires Ascending(kept) && UnbrokenFrom(kept, i) && Unbroken(kept, k)
    ensures kept[i].at <= kept[k].at
  {
    if i <= k {
      RunsAscend(kept, i, k);
    }
  }

  /** One local endpoint and port without a gap of thirty seconds for at least the stable interval. */
  ghost predicate StableFrom(kept: seq<Sample>, i: nat, now: Time, stable: Time) {
    Unbroken(kept, i) && now - kept[i].at >= stable
  }

  lemma StableSince(kept: seq<Sample>, since: Time, now: Time, stable: Time)
    requires Ascending(kept) && exists i: nat :: UnbrokenFrom(kept, i) && since == kept[i].at
    ensures now - since >= stable <==> exists i: nat :: StableFrom(kept, i, now, stable)
  {
    var i: nat :| UnbrokenFrom(kept, i) && since == kept[i].at;
    if now - since >= stable {
      assert StableFrom(kept, i, now, stable);
    }
    forall k: nat | StableFrom(kept, k, now, stable) ensures now - since >= stable {
      FirstOfRun(kept, i, k);
    }
  }

  /** Promotion is allowed exactly when the samples that counted cover at least the stable interval with one local
      endpoint and port, no two of them thirty seconds apart, the last of them recent. */
  lemma EligibleIffStable(samples: seq<Sample>, now: Time, stable: Time)
    ensures
      var kept := Kept(samples);
      EligibleObservation(ObservedAll(samples), now, stable)
      <==>
      && (exists i: nat :: StableFrom(kept, i, now, stable))
      && now - kept[|kept| - 1].at < LINK_FAILURE_TIMEOUT
      && kept[|kept| - 1].local.port == kept[|kept| - 1].port
  {
    ObservationIsLastRun(samples);
    var kept, o := Kept(samples), ObservedAll(samples);
    if o.Some? {
      StableSince(kept, o.value.since, now, stable);
    }
  }
}
