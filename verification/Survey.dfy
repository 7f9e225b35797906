/** What the centralized search measures and tries next: the survey plan and the allocation range of
    internal/inference/survey.go and the bounded choice of candidates of internal/linkdiscovery/search.go. */
module Survey {
  import opened Common
  import opened Net
  import opened Discovery

  datatype Observer = Observer(bootstrap: bool, endpoints: seq<Endpoint>)

  datatype Measurement = Measurement(local: Endpoint, remote: Endpoint)

  datatype Group = Group(bootstrap: bool, steps: seq<Measurement>)

  datatype Input = Input(local: Endpoint, observers: seq<Observer>)

  // ---------------------------------------------------------------- what may be measured

  function MeasuredBy(samples: seq<Observation>): set<Measurement> {
    set o | o in samples :: Measurement(o.local, o.remote)
  }

  /** Valid samples taken on this node's address. */
  predicate IsRelevant(local: Endpoint, o: Observation) {
    ValidObservation(o) && o.local.address == local.address
  }

  function RelevantTo(local: Endpoint, samples: seq<Observation>): seq<Observation> {
    if samples == [] then []
    else
      var o := samples[|samples| - 1];
      RelevantTo(local, samples[..|samples| - 1]) + if IsRelevant(local, o) then [o] else []
  }

  lemma {:induction false} RelevantAre(local: Endpoint, samples: seq<Observation>, o: Observation)
    ensures o in RelevantTo(local, samples) <==> o in samples && IsRelevant(local, o)
  {
    if samples != [] {
      RelevantAre(local, samples[..|samples| - 1], o);
      assert samples == samples[..|samples| - 1] + [samples[|samples| - 1]];
    }
  }

  function Beside(local: Endpoint, offset: nat): Endpoint
    requires offset <= 2 && UsableEndpoint(local)
  {
    local.(port := if local.port + offset > 65535 then local.port - offset else local.port + offset)
  }

  /** The final socket and two auxiliary ones. */
  function Locals(local: Endpoint): seq<Endpoint>
    requires UsableEndpoint(local)
  {
    [local, Beside(local, 1), Beside(local, 2)]
  }

  lemma LocalsAreUsable(local: Endpoint)
    requires UsableEndpoint(local)
    ensures forall i | 0 <= i < 3 :: UsableEndpoint(Locals(local)[i]) && Locals(local)[i].address == local.address
    ensures forall i, j | 0 <= i < j < 3 :: Locals(local)[i] != Locals(local)[j]
  {
  }

  function OfKind(observers: seq<Observer>, bootstrap: bool): seq<Observer> {
    if observers == [] then []
    else
      var o := observers[|observers| - 1];
      OfKind(observers[..|observers| - 1], bootstrap) + if o.bootstrap == bootstrap then [o] else []
  }

  /** Sorted stably, bootstrap observers first. */
  function BootstrapFirst(observers: seq<Observer>): seq<Observer> {
    OfKind(observers, true) + OfKind(observers, false)
  }

  lemma {:induction false} OfKindMembers(observers: seq<Observer>, bootstrap: bool, o: Observer)
    ensures o in OfKind(observers, bootstrap) <==> o in observers && o.bootstrap == bootstrap
  {
    if observers != [] {
      OfKindMembers(observers[..|observers| - 1], bootstrap, o);
      assert observers == observers[..|observers| - 1] + [observers[|observers| - 1]];
    }
  }

  function FirstTwo(endpoints: seq<Endpoint>): seq<Endpoint> {
    if |endpoints| > 2 then endpoints[..2] else endpoints
  }

  predicate Measurable(m: Measurement) {
    UsableEndpoint(m.remote) && m.local.address.family == m.remote.address.family
  }

  // ---------------------------------------------------------------- the plan

  /** The steps from one socket, new ones only, added to those already chosen for the observer. */
  function AddSteps(chosen: seq<Measurement>, seen: set<Measurement>, local: Endpoint,
      remotes: seq<Endpoint>): seq<Measurement>
  {
    if remotes == [] then chosen
    else
      var before := AddSteps(chosen, seen, local, remotes[..|remotes| - 1]);
      var m := Measurement(local, remotes[|remotes| - 1]);
      if Measurable(m) && m !in seen && m !in before then before + [m] else before
  }

  function StepsOf(seen: set<Measurement>, locals: seq<Endpoint>, remotes: seq<Endpoint>): seq<Measurement> {
    if locals == [] then []
    else AddSteps(StepsOf(seen, locals[..|locals| - 1], remotes), seen, locals[|locals| - 1], remotes)
  }

  function Steps(plan: seq<Group>): seq<Measurement> {
    if plan == [] then [] else Steps(plan[..|plan| - 1]) + plan[|plan| - 1].steps
  }

  function Taken(steps: seq<Measurement>): set<Measurement> {
    set m | m in steps
  }

  function PlanFor(seen: set<Measurement>, locals: seq<Endpoint>, observers: seq<Observer>): seq<Group> {
    if observers == [] then []
    else
      var before, o := PlanFor(seen, locals, observers[..|observers| - 1]), observers[|observers| - 1];
      var steps := StepsOf(seen + Taken(Steps(before)), locals, FirstTwo(o.endpoints));
      if steps == [] then before else before + [Group(o.bootstrap, steps)]
  }

  function SurveyPlan(samples: seq<Observation>, input: Input): seq<Group>
    requires UsableEndpoint(input.local)
  {
    PlanFor(MeasuredBy(samples), Locals(input.local), BootstrapFirst(input.observers))
  }

  ghost predicate Distinct<T(!new)>(xs: seq<T>) {
    forall i, j :: 0 <= i < j < |xs| ==> xs[i] != xs[j]
  }

  lemma {:induction false} AddedSteps(chosen: seq<Measurement>, seen: set<Measurement>, local: Endpoint,
      remotes: seq<Endpoint>)
    requires Distinct(chosen)
    ensures Distinct(AddSteps(chosen, seen, local, remotes))
    ensures forall m :: m in AddSteps(chosen, seen, local, remotes) <==>
              m in chosen || (m.local == local && m.remote in remotes && Measurable(m) && m !in seen)
  {
    if remotes != [] {
      AddedSteps(chosen, seen, local, remotes[..|remotes| - 1]);
      assert remotes == remotes[..|remotes| - 1] + [remotes[|remotes| - 1]];
    }
  }

  lemma {:induction false} StepsOfOne(seen: set<Measurement>, locals: seq<Endpoint>, remotes: seq<Endpoint>)
    ensures Distinct(StepsOf(seen, locals, remotes))
    ensures forall m :: m in StepsOf(seen, locals, remotes) <==>
              m.local in locals && m.remote in remotes && Measurable(m) && m !in seen
  {
    if locals != [] {
      StepsOfOne(seen, locals[..|locals| - 1], remotes);
      AddedSteps(StepsOf(seen, locals[..|locals| - 1], remotes), seen, locals[|locals| - 1], remotes);
      assert locals == locals[..|locals| - 1] + [locals[|locals| - 1]];
    }
  }

  /** A step that some observer of the list makes possible. */
  ghost predicate Offered(locals: seq<Endpoint>, observers: seq<Observer>, m: Measurement) {
    m.local in locals && Measurable(m) && exists o :: o in observers && m.remote in FirstTwo(o.endpoints)
  }

  lemma {:induction false} PlannedAre(seen: set<Measurement>, locals: seq<Endpoint>, observers: seq<Observer>)
    ensures Distinct(Steps(PlanFor(seen, locals, observers)))
    ensures forall m :: m in Steps(PlanFor(seen, locals, observers)) <==> Offered(locals, observers, m) && m !in seen
    ensures forall g :: g in PlanFor(seen, locals, observers) ==> g.steps != []
  {
    if observers != [] {
      var init, o := observers[..|observers| - 1], observers[|observers| - 1];
      PlannedAre(seen, locals, init);
      var before := PlanFor(seen, locals, init);
      var steps := StepsOf(seen + Taken(Steps(before)), locals, FirstTwo(o.endpoints));
      StepsOfOne(seen + Taken(Steps(before)), locals, FirstTwo(o.endpoints));
      assert observers == init + [o];
      assert Steps(PlanFor(seen, locals, observers)) == Steps(before) + steps by {
        if steps != [] {
          assert (before + [Group(o.bootstrap, steps)])[..|before|] == before;
        }
      }
      forall m ensures Offered(locals, observers, m) <==> Offered(locals, init, m) || Makes(locals, o, m) {
        OfferedByOneMore(locals, init, o, m);
      }
    }
  }

  predicate Makes(locals: seq<Endpoint>, o: Observer, m: Measurement) {
    m.local in locals && Measurable(m) && m.remote in FirstTwo(o.endpoints)
  }

  lemma OfferedByOneMore(locals: seq<Endpoint>, init: seq<Observer>, o: Observer, m: Measurement)
    ensures Offered(locals, init + [o], m) <==> Offered(locals, init, m) || Makes(locals, o, m)
  {
    if Offered(locals, init, m) {
      var p :| p in init && m.remote in FirstTwo(p.endpoints);
      assert p in init + [o];
    }
    if Makes(locals, o, m) {
      assert o in init + [o];
    }
  }

  /** The plan is every possible step that has not been sampled, each once and none in an empty group. */
  lemma PlanIsWhatIsLeft(samples: seq<Observation>, input: Input)
    requires UsableEndpoint(input.local)
    ensures
      var plan := SurveyPlan(samples, input);
      && Distinct(Steps(plan)) && (forall g :: g in plan ==> g.steps != [])
      && (forall m ::
            m in Steps(plan) <==> Offered(Locals(input.local), input.observers, m) && m !in MeasuredBy(samples))
  {
    PlannedAre(MeasuredBy(samples), Locals(input.local), BootstrapFirst(input.observers));
    forall o ensures o in BootstrapFirst(input.observers) <==> o in input.observers {
      OfKindMembers(input.observers, true, o);
      OfKindMembers(input.observers, false, o);
    }
    forall m ensures Offered(Locals(input.local), BootstrapFirst(input.observers), m)
        <==> Offered(Locals(input.local), input.observers, m) {
    }
  }

  /** Every step has a sample later on that the first plan asked for. */
  ghost predicate Sampled(plan: seq<Group>, later: seq<Observation>) {
    forall m :: m in Steps(plan) ==> exists o ::
        o in later && ValidObservation(o) && m == Measurement(o.local, o.remote)
  }

  lemma OfferedIsSampled(samples: seq<Observation>, input: Input, later: seq<Observation>, m: Measurement)
    requires UsableEndpoint(input.local) && forall o :: o in samples ==> o in later
    requires Sampled(SurveyPlan(RelevantTo(input.local, samples), input), later)
    requires Offered(Locals(input.local), input.observers, m)
    ensures m in MeasuredBy(RelevantTo(input.local, later))
  {
    PlanIsWhatIsLeft(RelevantTo(input.local, samples), input);
    LocalsAreUsable(input.local);
    if m in Steps(SurveyPlan(RelevantTo(input.local, samples), input)) {
      var o :| o in later && ValidObservation(o) && m == Measurement(o.local, o.remote);
      RelevantAre(input.local, later, o);
    } else {
      var o :| o in RelevantTo(input.local, samples) && m == Measurement(o.local, o.remote);
      RelevantAre(input.local, samples, o);
      RelevantAre(input.local, later, o);
    }
  }

  /** Once every step of a plan has a valid sample, whatever else was sampled, the next plan is empty. */
  lemma NextPlanIsEmpty(samples: seq<Observation>, input: Input, later: seq<Observation>)
    requires UsableEndpoint(input.local) && forall o :: o in samples ==> o in later
    requires Sampled(SurveyPlan(RelevantTo(input.local, samples), input), later)
    ensures SurveyPlan(RelevantTo(input.local, later), input) == []
  {
    var next := SurveyPlan(RelevantTo(input.local, later), input);
    PlanIsWhatIsLeft(RelevantTo(input.local, later), input);
    if next != [] {
      var m := next[|next| - 1].steps[0];
      assert m in Steps(next);
      OfferedIsSampled(samples, input, later, m);
    }
  }

  /** The loops over observers, sockets and offered endpoints, with the set of steps already seen. */
  method PlanSurvey(samples: seq<Observation>, input: Input) returns (plan: seq<Group>)
    requires UsableEndpoint(input.local)
    ensures plan == SurveyPlan(samples, input)
  {
    var observers := BootstrapFirst(input.observers);
    var locals := ListLocals(input.local);
    var seen := MeasuredBy(samples);
    plan := [];
    for i := 0 to |observers|
      invariant plan == PlanFor(MeasuredBy(samples), locals, observers[..i])
      invariant seen == MeasuredBy(samples) + Taken(Steps(plan))
    {
      var o := observers[i];
      var steps := CollectSteps(o, locals, seen);
      PlanStep(MeasuredBy(samples), locals, observers, i, plan, steps);
      if steps != [] {
        plan := plan + [Group(o.bootstrap, steps)];
        seen := seen + Taken(steps);
      }
    }
    assert observers[..|observers|] == observers;
  }

  lemma PlanStep(seen: set<Measurement>, locals: seq<Endpoint>, observers: seq<Observer>, i: nat, plan: seq<Group>,
      steps: seq<Measurement>)
    requires i < |observers| && plan == PlanFor(seen, locals, observers[..i])
    requires steps == StepsOf(seen + Taken(Steps(plan)), locals, FirstTwo(observers[i].endpoints))
    ensures
      var next := plan + [Group(observers[i].bootstrap, steps)];
      if steps == [] then PlanFor(seen, locals, observers[..i + 1]) == plan
      else
        && PlanFor(seen, locals, observers[..i + 1]) == next
        && seen + Taken(Steps(next)) == seen + Taken(Steps(plan)) + Taken(steps)
  {
    PlanGrows(seen, locals, observers, i);
    StepsGrow(plan, Group(observers[i].bootstrap, steps));
  }

  lemma PlanGrows(seen: set<Measurement>, locals: seq<Endpoint>, observers: seq<Observer>, i: nat)
    requires i < |observers|
    ensures
      var before := PlanFor(seen, locals, observers[..i]);
      var steps := StepsOf(seen + Taken(Steps(before)), locals, FirstTwo(observers[i].endpoints));
      PlanFor(seen, locals, observers[..i + 1]) == if steps == [] then before
          else before + [Group(observers[i].bootstrap, steps)]
  {
    assert observers[..i + 1][..i] == observers[..i];
  }

  lemma StepsGrow(plan: seq<Group>, g: Group)
    ensures Steps(plan + [g]) == Steps(plan) + g.steps
    ensures Taken(Steps(plan + [g])) == Taken(Steps(plan)) + Taken(g.steps)
  {
    assert (plan + [g])[..|plan|] == plan;
  }

  method ListLocals(local: Endpoint) returns (locals: seq<Endpoint>)
    requires UsableEndpoint(local)
    ensures locals == Locals(local)
  {
    locals := [local];
    for offset := 1 to 3
      invariant locals == Locals(local)[..offset]
    {
      var port := local.port + offset;
      if port > 65535 {
        port := local.port - offset;
      }
      locals := locals + [local.(port := port)];
    }
  }

  lemma NextRemote(chosen: seq<Measurement>, known: set<Measurement>, local: Endpoint, remotes: seq<Endpoint>, j: nat)
    requires j < |remotes|
    ensures
      var before, m := AddSteps(chosen, known, local, remotes[..j]), Measurement(local, remotes[j]);
      AddSteps(chosen, known, local, remotes[..j + 1])
      == if Measurable(m) && m !in known + Taken(before) then before + [m] else before
  {
    assert remotes[..j + 1][..j] == remotes[..j];
  }

  lemma OneMoreTaken(known: set<Measurement>, steps: seq<Measurement>, m: Measurement)
    ensures known + Taken(steps + [m]) == known + Taken(steps) + {m}
  {
  }

  method CollectSteps(o: Observer, locals: seq<Endpoint>, known: set<Measurement>) returns (steps: seq<Measurement>)
    ensures steps == StepsOf(known, locals, FirstTwo(o.endpoints))
  {
    var remotes := FirstTwo(o.endpoints);
    var seen := known;
    steps := [];
    for i := 0 to |locals|
      invariant steps == StepsOf(known, locals[..i], remotes)
      invariant seen == known + Taken(steps)
    {
      assert locals[..i + 1][..i] == locals[..i];
      ghost var chosen := steps;
      for j := 0 to |remotes|
        invariant steps == AddSteps(chosen, known, locals[i], remotes[..j])
        invariant seen == known + Taken(steps)
      {
        NextRemote(chosen, known, locals[i], remotes, j);
        var step := Measurement(locals[i], remotes[j]);
        if UsableEndpoint(remotes[j]) && locals[i].address.family == remotes[j].address.family && step !in seen {
          OneMoreTaken(known, steps, step);
          steps := steps + [step];
          seen := seen + {step};
        }
      }
      assert remotes[..|remotes|] == remotes;
    }
    assert locals[..|locals|] == locals;
  }

  // ---------------------------------------------------------------- the next port of an allocation sequence

  datatype Range = Range(address: Address, first: nat, last: nat)

  /** The ports that one public address was seen with, in the order first seen. */
  function SeenPorts(samples: seq<Observation>, address: Address): seq<nat> {
    if samples == [] then []
    else
      var before, seen := SeenPorts(samples[..|samples| - 1], address), samples[|samples| - 1].seen;
      if seen.address == address && seen.port !in before then before + [seen.port] else before
  }

  /** A small stride between the last three ports gives a bounded neighbourhood. */
  function AllocationRange(address: Address, ports: seq<nat>): Option<Range> {
    if |ports| < 3 then None
    else
      var n := |ports|;
      var a: int, b: int, c: int := ports[n - 3], ports[n - 2], ports[n - 1];
      if 0 < c - b <= 8 && c - b == b - a then
        var low, high := a - 4, c + (c - b) + 4;
        Some(Range(address, if low < 1 then 1 else low, if high > 65535 then 65535 else high))
      else None
  }

  lemma {:induction false} SeenPortsAreReal(samples: seq<Observation>, address: Address)
    requires forall o | o in samples :: ValidObservation(o)
    ensures forall i | 0 <= i < |SeenPorts(samples, address)| :: 1 <= SeenPorts(samples, address)[i] <= 65535
  {
    if samples != [] {
      assert ValidObservation(samples[|samples| - 1]);
      SeenPortsAreReal(samples[..|samples| - 1], address);
    }
  }

  /** With stride d the range has at most 3d + 9 ports, all of them real, and holds the last three ports seen and the
      next. */
  lemma AllocationRangeIsSmall(local: Endpoint, samples: seq<Observation>, address: Address)
    ensures
      var ports := SeenPorts(RelevantTo(local, samples), address);
      match AllocationRange(address, ports)
      case None => true
      case Some(r) =>
        var d := ports[|ports| - 1] - ports[|ports| - 2];
        && r.address == address && 1 <= r.first <= r.last <= 65535 && r.last - r.first + 1 <= 3 * d + 9 <= 33
        && (forall i | |ports| - 3 <= i < |ports| :: r.first <= ports[i] <= r.last)
        && (ports[|ports| - 1] + d <= 65535 ==> r.first <= ports[|ports| - 1] + d <= r.last)
  {
    forall o | o in RelevantTo(local, samples) ensures ValidObservation(o) {
      RelevantAre(local, samples, o);
    }
    SeenPortsAreReal(RelevantTo(local, samples), address);
  }

  // ---------------------------------------------------------------- choosing candidates

  function Count(r: Range): nat {
    if r.first == 0 || r.last < r.first then 0 else r.last - r.first + 1
  }

  function Total(ranges: seq<Range>): nat {
    if ranges == [] then 0 else Total(ranges[..|ranges| - 1]) + Count(ranges[|ranges| - 1])
  }

  lemma {:induction false} TotalGrows(ranges: seq<Range>, i: nat)
    requires i <= |ranges|
    ensures Total(ranges[..i]) <= Total(ranges)
  {
    if i == |ranges| {
      assert ranges[..i] == ranges;
    } else {
      TotalGrows(ranges[..|ranges| - 1], i);
      assert ranges[..|ranges| - 1][..i] == ranges[..i];
    }
  }

  function PickOne(selected: seq<Endpoint>, limit: nat, e: Endpoint): seq<Endpoint> {
    if e !in selected && |selected| < limit then selected + [e] else selected
  }

  /** The first n ports of a range, one after the other. */
  function PickPorts(selected: seq<Endpoint>, limit: nat, r: Range, n: nat): seq<Endpoint> {
    if n == 0 then selected else PickOne(PickPorts(selected, limit, r, n - 1), limit,
                                         Endpoint(r.address, r.first + n - 1))
  }

  function PickRanges(selected: seq<Endpoint>, limit: nat, ranges: seq<Range>): seq<Endpoint> {
    if ranges == [] then selected
    else
      var r := ranges[|ranges| - 1];
      PickPorts(PickRanges(selected, limit, ranges[..|ranges| - 1]), limit, r, Count(r))
  }

  /** Batches larger than the limit are passed over whole. */
  function Select(batches: seq<seq<Range>>, limit: nat): seq<Endpoint> {
    if batches == [] then []
    else
      var before, batch := Select(batches[..|batches| - 1], limit), batches[|batches| - 1];
      if Total(batch) > limit then before else PickRanges(before, limit, batch)
  }

  predicate InRanges(ranges: seq<Range>, e: Endpoint) {
    exists i | 0 <= i < |ranges| :: InOne(ranges[i], e)
  }

  predicate InOne(r: Range, e: Endpoint) {
    Count(r) > 0 && e.address == r.address && r.first <= e.port <= r.last
  }

  /** Growing a list without repeats up to the limit, from a set of endpoints, and leaving one out only when full. */
  ghost predicate Grown(before: seq<Endpoint>, after: seq<Endpoint>, limit: nat, from: iset<Endpoint>) {
    && Distinct(after) && |after| <= limit && before <= after
    && (forall e :: e in after ==> e in before || e in from)
    && (forall e :: e in from ==> e in after || |after| == limit)
  }

  lemma GrownTwice(a: seq<Endpoint>, b: seq<Endpoint>, c: seq<Endpoint>, limit: nat, from: iset<Endpoint>,
      more: iset<Endpoint>)
    requires Grown(a, b, limit, from) && Grown(b, c, limit, more)
    ensures Grown(a, c, limit, from + more)
  {
    forall e | e in from ensures e in c || |c| == limit {
      if e in b {
        var i :| 0 <= i < |b| && b[i] == e;
        assert c[i] == e;
      }
    }
  }

  ghost function PortsOf(r: Range, n: nat): iset<Endpoint> {
    iset e: Endpoint | e.address == r.address && r.first <= e.port < r.first + n
  }

  ghost function EndpointsOf(ranges: seq<Range>): iset<Endpoint> {
    iset e: Endpoint | InRanges(ranges, e)
  }

  lemma {:induction false} PortsPicked(selected: seq<Endpoint>, limit: nat, r: Range, n: nat)
    requires Distinct(selected) && |selected| <= limit
    ensures Grown(selected, PickPorts(selected, limit, r, n), limit, PortsOf(r, n))
  {
    if n > 0 {
      PortsPicked(selected, limit, r, n - 1);
      var last := Endpoint(r.address, r.first + n - 1);
      assert Grown(PickPorts(selected, limit, r, n - 1), PickPorts(selected, limit, r, n), limit, iset{last});
      GrownTwice(selected, PickPorts(selected, limit, r, n - 1), PickPorts(selected, limit, r, n), limit,
                 PortsOf(r, n - 1), iset{last});
      assert PortsOf(r, n) == PortsOf(r, n - 1) + iset{last};
    }
  }

  lemma OneMoreRange(init: seq<Range>, r: Range)
    ensures EndpointsOf(init + [r]) == EndpointsOf(init) + PortsOf(r, Count(r))
  {
    var ranges := init + [r];
    forall e: Endpoint ensures InRanges(ranges, e) <==> InRanges(init, e) || InOne(r, e) {
      if InOne(r, e) {
        assert InOne(ranges[|init|], e);
      }
      if InRanges(init, e) {
        var i :| 0 <= i < |init| && InOne(init[i], e);
        assert InOne(ranges[i], e);
      }
    }
  }

  lemma {:induction false} RangesPicked(selected: seq<Endpoint>, limit: nat, ranges: seq<Range>)
    requires Distinct(selected) && |selected| <= limit
    ensures Grown(selected, PickRanges(selected, limit, ranges), limit, EndpointsOf(ranges))
  {
    if ranges != [] {
      var init, r := ranges[..|ranges| - 1], ranges[|ranges| - 1];
      RangesPicked(selected, limit, init);
      PortsPicked(PickRanges(selected, limit, init), limit, r, Count(r));
      GrownTwice(selected, PickRanges(selected, limit, init), PickRanges(selected, limit, ranges), limit,
                 EndpointsOf(init), PortsOf(r, Count(r)));
      assert ranges == init + [r];
      OneMoreRange(init, r);
    }
  }

  /** In one of the batches that fit the limit whole. */
  ghost predicate InFitting(batches: seq<seq<Range>>, limit: nat, e: Endpoint) {
    exists k: nat :: k < |batches| && Total(batches[k]) <= limit && InRanges(batches[k], e)
  }

  ghost function Fitting(batches: seq<seq<Range>>, limit: nat): iset<Endpoint> {
    iset e: Endpoint | InFitting(batches, limit, e)
  }

  lemma OneMoreBatch(init: seq<seq<Range>>, batch: seq<Range>, limit: nat)
    ensures Fitting(init + [batch], limit)
         == if Total(batch) <= limit then Fitting(init, limit) + EndpointsOf(batch) else Fitting(init, limit)
  {
    var batches := init + [batch];
    forall e: Endpoint ensures InFitting(batches, limit, e)
                          <==> InFitting(init, limit, e) || (Total(batch) <= limit && InRanges(batch, e)) {
      if InFitting(init, limit, e) {
        var k: nat :| k < |init| && Total(init[k]) <= limit && InRanges(init[k], e);
        assert batches[k] == init[k];
      }
      if Total(batch) <= limit && InRanges(batch, e) {
        assert batches[|init|] == batch;
      }
    }
  }

  /** Candidates are distinct, within the limit, only from batches that fit it whole, and an endpoint of such a batch is
      left out only when the limit is reached. */
  lemma {:induction false} SelectionIsBounded(batches: seq<seq<Range>>, limit: nat)
    ensures Grown([], Select(batches, limit), limit, Fitting(batches, limit))
  {
    if batches != [] {
      var init, batch := batches[..|batches| - 1], batches[|batches| - 1];
      SelectionIsBounded(init, limit);
      assert batches == init + [batch];
      OneMoreBatch(init, batch, limit);
      if Total(batch) <= limit {
        RangesPicked(Select(init, limit), limit, batch);
        GrownTwice([], Select(init, limit), Select(batches, limit), limit, Fitting(init, limit), EndpointsOf(batch));
      }
    }
  }

  /** Earlier batches come first. */
  lemma {:induction false} EarlierBatchesLead(batches: seq<seq<Range>>, limit: nat, k: nat)
    requires k <= |batches|
    ensures Select(batches[..k], limit) <= Select(batches, limit)
  {
    if k == |batches| {
      assert batches[..k] == batches;
    } else {
      var init := batches[..|batches| - 1];
      EarlierBatchesLead(init, limit, k);
      assert init[..k] == batches[..k];
      SelectionIsBounded(init, limit);
      RangesPicked(Select(init, limit), limit, batches[|batches| - 1]);
    }
  }
}
