/** The failure episode of a service across restarts (internal/recovery/recovery.go). Its record is replaced as one
    step; a missing time is None. */
module Recovery {
  import opened Common

  type Time = int
  type NodeId = nat
  type Namespace = nat

  datatype State = State(
    node: Option<NodeId>,
    namespace: Namespace,
    tables: set<int>,
    running: bool,
    retired: bool,
    failureSince: Option<Time>,
    healthySince: Option<Time>,
    lastProgress: Option<Time>,
    window: int,
    stable: int)

  const EMPTY := State(None, 0, {}, false, false, None, None, None, 0, 0)

  /** The tracker's settings and who asks: the node, its namespace, and the tables it uses. */
  datatype Config = Config(node: NodeId, namespace: Namespace, window: int, stable: int, tables: set<int>)

  datatype Event =
    | Begin(now: Time)
    | Progress(now: Time, healthy: bool)
    | Stop
    | Failure(now: Time)
    | Check(now: Time, retireOk: bool)
    | UpdateDesired(tables: set<int>)

  /** An episode without a start begins at the last sign of progress, or now. */
  function Started(s: State, now: Time): State {
    if s.failureSince.Some? then s
    else s.(failureSince := Some(s.lastProgress.GetOr(now)))
  }

  predicate Fresh(cfg: Config, s: State) {
    s.node != Some(cfg.node) || s.namespace != cfg.namespace || s.retired || !s.running
  }

  function OnBegin(cfg: Config, s: State, now: Time): State {
    var base := Started(if Fresh(cfg, s) then EMPTY.(failureSince := Some(now)) else s, now);
    base.(node := Some(cfg.node), namespace := cfg.namespace, running := true, healthySince := None,
          lastProgress := Some(now), window := cfg.window, stable := cfg.stable, tables := base.tables + cfg.tables)
  }

  function OnProgress(s: State, now: Time, healthy: bool): State {
    if !s.running || s.retired then s
    else if !healthy then s.(healthySince := None)
    else
      var since := s.healthySince.GetOr(now);
      s.(lastProgress := Some(now), healthySince := Some(since),
         failureSince := if now - since >= s.stable then None else s.failureSince)
  }

  function OnStop(s: State): State {
    s.(running := false, failureSince := None, healthySince := None)
  }

  function OnFailure(s: State, now: Time): State {
    if s.node.None? || s.retired then s
    else s.(failureSince := Some(s.failureSince.GetOr(now)), running := true, healthySince := None)
  }

  predicate Watched(cfg: Config, s: State) {
    s.running && !s.retired && s.namespace == cfg.namespace
  }

  /** Whether the check calls for retirement. */
  predicate Due(cfg: Config, s: State, now: Time) {
    Watched(cfg, s) && s.window > 0 && now - Started(s, now).failureSince.value >= s.window
  }

  /** A failed retirement leaves the record as it was. */
  function OnCheck(cfg: Config, s: State, now: Time, retireOk: bool): State {
    if !Watched(cfg, s) then s
    else if !Due(cfg, s, now) then Started(s, now)
    else if retireOk then Started(s, now).(retired := true, running := false)
    else s
  }

  function Step(cfg: Config, s: State, e: Event): State {
    match e
    case Begin(now) => OnBegin(cfg, s, now)
    case Progress(now, healthy) => OnProgress(s, now, healthy)
    case Stop => OnStop(s)
    case Failure(now) => OnFailure(s, now)
    case Check(now, ok) => OnCheck(cfg, s, now, ok)
    case UpdateDesired(tables) => if s.node == Some(cfg.node) then s.(tables := s.tables + tables) else s
  }

  function Run(cfg: Config, s: State, events: seq<Event>): State {
    if events == [] then s else Step(cfg, Run(cfg, s, events[..|events| - 1]), events[|events| - 1])
  }

  /** How often retirement was called for. */
  function Retirements(cfg: Config, s: State, events: seq<Event>): nat {
    if events == [] then 0
    else
      var before, e := events[..|events| - 1], events[|events| - 1];
      Retirements(cfg, s, before) + if e.Check? && Due(cfg, Run(cfg, s, before), e.now) then 1 else 0
  }

  class Tracker {
    const config: Config
    var state: State

    constructor (config: Config)
      ensures this.config == config && state == EMPTY
    {
      this.config, state := config, EMPTY;
    }

    method Begin(now: Time)
      modifies this
      ensures state == OnBegin(config, old(state), now)
    {
      if state.node != Some(config.node) || state.namespace != config.namespace || state.retired || !state.running {
        state := EMPTY.(failureSince := Some(now));
      }
      if state.failureSince.None? {
        state := state.(failureSince := state.lastProgress);
        if state.failureSince.None? {
          state := state.(failureSince := Some(now));
        }
      }
      state := state.(node := Some(config.node), namespace := config.namespace, running := true);
      state := state.(healthySince := None, lastProgress := Some(now));
      state := state.(window := config.window, stable := config.stable);
      state := state.(tables := state.tables + config.tables);
    }

    method Progress(now: Time, healthy: bool)
      modifies this
      ensures state == OnProgress(old(state), now, healthy)
    {
      if !state.running || state.retired {
        return;
      }
      if !healthy {
        state := state.(healthySince := None);
        return;
      }
      state := state.(lastProgress := Some(now));
      if state.healthySince.None? {
        state := state.(healthySince := Some(now));
      }
      if now - state.healthySince.value >= state.stable {
        state := state.(failureSince := None);
      }
    }

    method Stop()
      modifies this
      ensures state == OnStop(old(state))
    {
      state := state.(running := false);
      state := state.(failureSince := None, healthySince := None);
    }

    method Failure(now: Time)
      modifies this
      ensures state == OnFailure(old(state), now)
    {
      if state.node.None? || state.retired {
        return;
      }
      if state.failureSince.None? {
        state := state.(failureSince := Some(now));
      }
      state := state.(running := true, healthySince := None);
    }

    /** `retireOk` is what the cleanup returns if it is called. */
    method Check(now: Time, retireOk: bool) returns (called: bool)
      modifies this
      ensures state == OnCheck(config, old(state), now, retireOk)
      ensures called == Due(config, old(state), now)
    {
      if !state.running || state.retired || state.namespace != config.namespace {
        return false;
      }
      var s := state;
      if s.failureSince.None? {
        s := s.(failureSince := s.lastProgress);
        if s.failureSince.None? {
          s := s.(failureSince := Some(now));
        }
      }
      if s.window <= 0 || now - s.failureSince.value < s.window {
        state := s;
        return false;
      }
      if retireOk {
        state := s.(retired := true, running := false);
      }
      return true;
    }
  }

  // ---------------------------------------------------------------- the deadline

  /** Events that may happen while a healthy run goes on. */
  predicate KeepsRun(e: Event) {
    (e.Progress? && e.healthy) || e.Check? || e.UpdateDesired?
  }

  /** From report i to report j every report was healthy, nothing failed or restarted, and they are `stable` apart. */
  ghost predicate StableRun(events: seq<Event>, stable: int, i: nat, j: nat) {
    && i <= j < |events| && events[i].Progress? && events[j].Progress?
    && (forall k | i <= k <= j :: KeepsRun(events[k]))
    && events[j].now - events[i].now >= stable
  }

  ghost predicate NoStableRun(events: seq<Event>, stable: int) {
    forall i: nat, j: nat :: !StableRun(events, stable, i, j)
  }

  /** An episode of this node that began at `first` and is neither over nor retired. */
  predicate InEpisode(cfg: Config, s: State, first: Time) {
    && s.node == Some(cfg.node) && s.namespace == cfg.namespace && s.running && !s.retired
    && s.window == cfg.window && s.stable == cfg.stable && s.failureSince == Some(first)
  }

  /** Neither an intentional stop nor a successful check after the window. */
  predicate Undisturbed(cfg: Config, first: Time, e: Event) {
    !e.Stop? && (e.Check? ==> !e.retireOk || cfg.window <= 0 || e.now - first < cfg.window)
  }

  /** The healthy run the record remembers is one of the history's. */
  ghost predicate RunIsReal(events: seq<Event>, s: State) {
    s.healthySince.Some? ==>
      exists i: nat :: i < |events| && events[i].Progress? && events[i].now == s.healthySince.value
                 && forall k | i <= k < |events| :: KeepsRun(events[k])
  }

  lemma RunGrows(cfg: Config, before: seq<Event>, e: Event, s: State, first: Time)
    requires RunIsReal(before, s) && InEpisode(cfg, s, first) && Undisturbed(cfg, first, e)
    requires NoStableRun(before + [e], cfg.stable)
    ensures RunIsReal(before + [e], Step(cfg, s, e)) && InEpisode(cfg, Step(cfg, s, e), first)
  {
    var events, next := before + [e], Step(cfg, s, e);
    if next.healthySince.Some? {
      if s.healthySince.Some? {
        var i: nat :| i < |before| && before[i].Progress? && before[i].now == s.healthySince.value
                 && forall k | i <= k < |before| :: KeepsRun(before[k]);
        assert events[i] == before[i];
        assert forall k | i <= k < |events| :: KeepsRun(events[k]);
        assert !StableRun(events, cfg.stable, i, |before|);
      } else {
        assert events[|before|] == e && KeepsRun(e);
        assert !StableRun(events, cfg.stable, |before|, |before|);
      }
    }
  }

  /** Restarts, progress reports, failures and failed or early checks keep the time the episode began, as long as there
      is no intentional stop and no healthy run of the stable length. */
  lemma {:induction false} EpisodeIsKept(cfg: Config, s: State, first: Time, events: seq<Event>)
    requires InEpisode(cfg, s, first) && s.healthySince.None?
    requires forall e :: e in events ==> Undisturbed(cfg, first, e)
    requires NoStableRun(events, cfg.stable)
    ensures InEpisode(cfg, Run(cfg, s, events), first) && RunIsReal(events, Run(cfg, s, events))
  {
    if events != [] {
      var before, e := events[..|events| - 1], events[|events| - 1];
      assert events == before + [e];
      forall i: nat, j: nat ensures !StableRun(before, cfg.stable, i, j) {
        assert StableRun(before, cfg.stable, i, j) ==> StableRun(events, cfg.stable, i, j);
      }
      EpisodeIsKept(cfg, s, first, before);
      RunGrows(cfg, before, e, Run(cfg, s, before), first);
    }
  }

  /** So the first check at or after the window calls for retirement and none before it does, counted from the first
      failure however often the service restarted in between. */
  lemma RetiresAtDeadline(cfg: Config, s: State, first: Time, events: seq<Event>, now: Time, retireOk: bool)
    requires InEpisode(cfg, s, first) && s.healthySince.None? && cfg.window > 0
    requires forall e :: e in events ==> Undisturbed(cfg, first, e)
    requires NoStableRun(events, cfg.stable)
    ensures
      var before := Run(cfg, s, events);
      && (Due(cfg, before, now) <==> now - first >= cfg.window)
      && (OnCheck(cfg, before, now, retireOk).retired <==> now - first >= cfg.window && retireOk)
  {
    EpisodeIsKept(cfg, s, first, events);
  }

  /** Once retired, nothing is retired again until a new start. */
  lemma {:induction false} RetiresOnce(cfg: Config, s: State, events: seq<Event>)
    requires s.retired && forall e :: e in events ==> !e.Begin?
    ensures Run(cfg, s, events).retired && Retirements(cfg, s, events) == 0
  {
    if events != [] {
      RetiresOnce(cfg, s, events[..|events| - 1]);
    }
  }

  /** A new start of the same node in the same namespace joins the episode that runs, or dates one from the last sign of
      progress if none does; any other start begins one of its own. */
  lemma BeginJoinsOrStarts(cfg: Config, s: State, now: Time)
    ensures
      var next := OnBegin(cfg, s, now);
      && next.healthySince.None? && next.failureSince.Some?
      && InEpisode(cfg, next, next.failureSince.value)
      && (Fresh(cfg, s) ==> next.failureSince == Some(now) && next.tables == cfg.tables)
      && (!Fresh(cfg, s) && s.failureSince.Some? ==> next.failureSince == s.failureSince && s.tables <= next.tables)
      && (!Fresh(cfg, s) && s.failureSince.None? ==>
            next.failureSince == Some(s.lastProgress.GetOr(now)) && s.tables <= next.tables)
  {
  }

  // ---------------------------------------------------------------- the end of an episode

  ghost predicate ClocksAscend(events: seq<Event>) {
    forall i, j :: 0 <= i < j < |events| && events[i].Progress? && events[j].Progress? ==>
        events[i].now <= events[j].now
  }

  /** A healthy report after which nothing has broken the run. */
  predicate Opens(events: seq<Event>, i: nat) {
    i < |events| && events[i].Progress? && forall k | i <= k < |events| :: KeepsRun(events[k])
  }

  /** The remembered run began no later than any report that it could have begun with. */
  ghost predicate RunIsFirst(events: seq<Event>, s: State) {
    forall i: nat :: Opens(events, i) ==> s.healthySince.Some? && s.healthySince.value <= events[i].now
  }

  lemma FirstGrows(cfg: Config, before: seq<Event>, e: Event, s: State, first: Time)
    requires RunIsReal(before, s) && RunIsFirst(before, s) && InEpisode(cfg, s, first) && Undisturbed(cfg, first, e)
    requires ClocksAscend(before + [e])
    ensures RunIsFirst(before + [e], Step(cfg, s, e))
  {
    var events, next := before + [e], Step(cfg, s, e);
    forall i: nat | Opens(events, i) ensures next.healthySince.Some? && next.healthySince.value <= events[i].now {
      assert KeepsRun(events[|before|]);
      if i < |before| {
        assert forall k | i <= k < |before| :: KeepsRun(events[k]) && events[k] == before[k];
        assert Opens(before, i);
      } else if s.healthySince.Some? {
        var n: nat :| n < |before| && before[n].Progress? && before[n].now == s.healthySince.value
                 && forall k | n <= k < |before| :: KeepsRun(before[k]);
        assert events[n] == before[n];
      }
    }
  }

  lemma {:induction false} RunIsKept(cfg: Config, s: State, first: Time, events: seq<Event>)
    requires InEpisode(cfg, s, first) && s.healthySince.None?
    requires forall e :: e in events ==> Undisturbed(cfg, first, e)
    requires ClocksAscend(events) && NoStableRun(events, cfg.stable)
    ensures RunIsFirst(events, Run(cfg, s, events))
  {
    if events != [] {
      var before, e := events[..|events| - 1], events[|events| - 1];
      assert events == before + [e];
      forall i: nat, j: nat ensures !StableRun(before, cfg.stable, i, j) {
        assert StableRun(before, cfg.stable, i, j) ==> StableRun(events, cfg.stable, i, j);
      }
      EpisodeIsKept(cfg, s, first, before);
      RunIsKept(cfg, s, first, before);
      FirstGrows(cfg, before, e, Run(cfg, s, before), first);
    }
  }

  /** The next event ends the episode if and only if it is the report that completes a healthy run. */
  lemma NextEnds(cfg: Config, before: seq<Event>, e: Event, s: State, first: Time)
    requires RunIsReal(before, s) && RunIsFirst(before, s) && InEpisode(cfg, s, first) && Undisturbed(cfg, first, e)
    requires ClocksAscend(before + [e])
    ensures Step(cfg, s, e).failureSince.None? <==> exists i: nat :: StableRun(before + [e], cfg.stable, i, |before|)
  {
    var events, next := before + [e], Step(cfg, s, e);
    assert events[|before|] == e;
    if next.failureSince.None? {
      assert e.Progress? && e.healthy;
      if s.healthySince.Some? {
        var n: nat :| n < |before| && before[n].Progress? && before[n].now == s.healthySince.value
                 && forall k | n <= k < |before| :: KeepsRun(before[k]);
        assert forall k | n <= k < |before| :: KeepsRun(events[k]) && events[k] == before[k];
        assert StableRun(events, cfg.stable, n, |before|);
      } else {
        assert StableRun(events, cfg.stable, |before|, |before|);
      }
    }
    if i: nat :| StableRun(events, cfg.stable, i, |before|) {
      FirstGrows(cfg, before, e, s, first);
      assert KeepsRun(events[|before|]);
      assert Opens(events, i);
    }
  }

  /** The first report that completes a healthy run of the stable length ends the episode, and nothing before it
      does. */
  lemma StableRunEnds(cfg: Config, s: State, first: Time, events: seq<Event>, j: nat)
    requires InEpisode(cfg, s, first) && s.healthySince.None?
    requires forall e :: e in events ==> Undisturbed(cfg, first, e)
    requires ClocksAscend(events) && j < |events| && NoStableRun(events[..j], cfg.stable)
    ensures InEpisode(cfg, Run(cfg, s, events[..j]), first)
    ensures Run(cfg, s, events[..j + 1]).failureSince.None? <==> exists i: nat :: StableRun(events, cfg.stable, i, j)
  {
    var before, e := events[..j], events[j];
    assert events[..j + 1] == before + [e];
    assert (before + [e])[..j] == before;
    EpisodeIsKept(cfg, s, first, before);
    RunIsKept(cfg, s, first, before);
    NextEnds(cfg, before, e, Run(cfg, s, before), first);
    forall i: nat ensures StableRun(before + [e], cfg.stable, i, j) <==> StableRun(events, cfg.stable, i, j) {
    }
  }

  ghost predicate EndsWithin(cfg: Config, s: State, events: seq<Event>) {
    exists n: nat :: n <= |events| && Run(cfg, s, events[..n]).failureSince.None?
  }

  /** So an episode ends within a history if and only if the history holds a healthy run of the stable length. */
  lemma EpisodeEndsIff(cfg: Config, s: State, first: Time, events: seq<Event>)
    requires InEpisode(cfg, s, first) && s.healthySince.None?
    requires forall e :: e in events ==> Undisturbed(cfg, first, e)
    requires ClocksAscend(events)
    ensures EndsWithin(cfg, s, events) <==> !NoStableRun(events, cfg.stable)
  {
    if NoStableRun(events, cfg.stable) {
      forall n: nat | n <= |events| ensures Run(cfg, s, events[..n]).failureSince.Some? {
        forall i: nat, j: nat ensures !StableRun(events[..n], cfg.stable, i, j) {
          assert StableRun(events[..n], cfg.stable, i, j) ==> StableRun(events, cfg.stable, i, j);
        }
        EpisodeIsKept(cfg, s, first, events[..n]);
      }
    } else {
      var j := FirstEnd(events, cfg.stable, |events|);
      StableRunEnds(cfg, s, first, events, j);
    }
  }

  /** The first report that completes a stable run, of those before n. */
  lemma {:induction false} FirstEnd(events: seq<Event>, stable: int, n: nat) returns (j: nat)
    requires n <= |events| && exists i: nat, k: nat :: k < n && StableRun(events, stable, i, k)
    ensures j < n && NoStableRun(events[..j], stable) && exists i: nat :: StableRun(events, stable, i, j)
  {
    var i: nat, k: nat :| k < n && StableRun(events, stable, i, k);
    if exists x: nat, y: nat :: y < k && StableRun(events, stable, x, y) {
      j := FirstEnd(events, stable, k);
    } else {
      j := k;
      forall x: nat, y: nat ensures !StableRun(events[..j], stable, x, y) {
        assert StableRun(events[..j], stable, x, y) ==> StableRun(events, stable, x, y);
      }
    }
  }
}
