/** The centralized search (internal/linkdiscovery/search.go): one task opens sockets for both peers, probes candidate
    pairs, samples mappings, and ends with a path, without progress, or at a budget. */
module Search {
  import opened Common
  import opened Net
  import opened Ascending
  import opened Discovery
  import opened Survey

  type Time = int

  datatype Side = A | B

  datatype Socket = Socket(side: Side, local: Endpoint)

  datatype Probe = Probe(id: nat, side: Side, local: Endpoint, remote: Endpoint)

  datatype Report = Report(id: nat, seen: Endpoint)

  datatype Budgets = Budgets(packets: int, measurements: int, candidates: int, pairs: int, repeats: int,
      iterations: int)

  /** What the network, the clock and the context say when they are asked for the n-th time. */
  datatype Answer = Answer(now: Time, cancelled: bool, ok: bool, reports: seq<Report>)

  datatype Prediction = Prediction(batches: seq<seq<Range>>, plan: seq<Group>)

  datatype Error = ContextDone | OutOfBudget | NetworkError

  /** The retained sockets and the public endpoints found for them. */
  datatype Route = Route(localA: Endpoint, localB: Endpoint, endpointA: Endpoint, endpointB: Endpoint)

  datatype Ending =
    | Connected
    | NoProgress
    | BudgetExhausted
    | Cancelled
    | ExecutionError
    | ResourceError
    | Misconfigured

  predicate AllPositive(limits: Budgets) {
    && limits.packets > 0 && limits.measurements > 0 && limits.candidates > 0 && limits.pairs > 0
    && limits.repeats > 0 && limits.iterations > 0
  }

  datatype Setup = Setup(localA: Endpoint, targetA: Endpoint, localB: Endpoint, targetB: Endpoint, limits: Budgets,
      timeout: Time, interval: Time)

  predicate ValidSetup(u: Setup) {
    && UsableEndpoint(u.localA) && UsableEndpoint(u.localB) && UsableEndpoint(u.targetA) && UsableEndpoint(u.targetB)
    && u.localA.address.family == u.localB.address.family == u.targetA.address.family == u.targetB.address.family
    && AllPositive(u.limits) && u.timeout > 0 && u.interval > 0
  }

  /** How one round leaves the loop. */
  datatype Turn = Found(path: Route) | Stuck | Broken(error: Error) | Again

  // ---------------------------------------------------------------- evidence

  /** One probing window: the probes sent in it and the answers given during it. */
  datatype Span = Span(firstProbe: nat, endProbe: nat, firstTick: nat, endTick: nat)

  ghost predicate ReportOn(world: nat -> Answer, sent: seq<Probe>, w: Span, side: Side, o: Observation, k: nat,
      tick: nat)
  {
    && w.firstProbe <= k < w.endProbe <= |sent| && w.firstTick <= tick < w.endTick
    && sent[k].side == side && sent[k].local == o.local && sent[k].remote == o.remote
    && Report(sent[k].id, o.seen) in world(tick).reports
  }

  /** o is what a report given during this window says about a probe sent in this window. */
  ghost predicate Witnessed(world: nat -> Answer, sent: seq<Probe>, w: Span, side: Side, o: Observation) {
    ValidObservation(o) && exists k: nat, tick: nat :: ReportOn(world, sent, w, side, o, k, tick)
  }

  lemma StillReported(world: nat -> Answer, sent: seq<Probe>, later: seq<Probe>, w: Span, side: Side, o: Observation)
    requires Witnessed(world, sent, w, side, o) && sent <= later
    ensures Witnessed(world, later, w, side, o)
  {
    var k: nat, tick: nat :| ReportOn(world, sent, w, side, o, k, tick);
    assert ReportOn(world, later, w, side, o, k, tick);
  }

  ghost predicate Proven(world: nat -> Answer, sent: seq<Probe>, windows: seq<Span>, side: Side, o: Observation) {
    exists w :: w in windows && Witnessed(world, sent, w, side, o)
  }

  lemma StillProven(world: nat -> Answer, sent: seq<Probe>, windows: seq<Span>, later: seq<Probe>, more: seq<Span>,
      side: Side, o: Observation)
    requires Proven(world, sent, windows, side, o) && sent <= later && windows <= more
    ensures Proven(world, later, more, side, o)
  {
    var w :| w in windows && Witnessed(world, sent, w, side, o);
    StillReported(world, sent, later, w, side, o);
    var i :| 0 <= i < |windows| && windows[i] == w;
    assert more[i] == w;
  }

  /** A store holds what it began with and what the windows have shown. */
  ghost predicate Justified(world: nat -> Answer, sent: seq<Probe>, windows: seq<Span>, side: Side,
      initial: seq<Observation>,
    store: seq<Observation>)
  {
    forall o :: o in store ==> o in initial || Proven(world, sent, windows, side, o)
  }

  lemma StillJustified(world: nat -> Answer, sent: seq<Probe>, windows: seq<Span>, later: seq<Probe>, more: seq<Span>,
      side: Side,
    initial: seq<Observation>, store: seq<Observation>)
    requires Justified(world, sent, windows, side, initial, store) && sent <= later && windows <= more
    ensures Justified(world, later, more, side, initial, store)
  {
    forall o | o in store && o !in initial ensures Proven(world, later, more, side, o) {
      StillProven(world, sent, windows, later, more, side, o);
    }
  }

  /** Each end was seen where the other probed. */
  predicate Matching(localA: Endpoint, localB: Endpoint, a: Observation, b: Observation) {
    a.local == localA && b.local == localB && a.remote == b.seen && b.remote == a.seen
  }

  function Forget(samples: seq<Observation>, local: Endpoint): seq<Observation> {
    if samples == [] then []
    else
      var o := samples[|samples| - 1];
      Forget(samples[..|samples| - 1], local) + if o.local == local then [] else [o]
  }

  lemma {:induction false} ForgetMembers(samples: seq<Observation>, local: Endpoint, o: Observation)
    ensures o in Forget(samples, local) <==> o in samples && o.local != local
  {
    if samples != [] {
      ForgetMembers(samples[..|samples| - 1], local, o);
      assert samples == samples[..|samples| - 1] + [samples[|samples| - 1]];
    }
  }

  ghost predicate GivenBetween(world: nat -> Answer, start: nat, end: nat, r: Report) {
    exists t: nat :: start <= t < end && r in world(t).reports
  }

  /** Every report kept is one given since `start` on a probe sent since `first`, and makes a valid observation. */
  ghost predicate KeptAt(world: nat -> Answer, sent: seq<Probe>, tick: nat, probes: map<nat, Probe>,
      reports: map<nat, Endpoint>,
    first: nat, start: nat)
  {
    && (forall id :: id in probes ==> first < id <= |sent| && sent[id - 1] == probes[id])
    && (forall id :: id in reports ==>
          && id in probes && ValidObservation(Observation(probes[id].local, probes[id].remote, reports[id]))
          && GivenBetween(world, start, tick, Report(id, reports[id])))
  }

  lemma KeptLater(world: nat -> Answer, sent: seq<Probe>, tick: nat, probes: map<nat, Probe>,
      reports: map<nat, Endpoint>,
    first: nat, start: nat, later: nat)
    requires KeptAt(world, sent, tick, probes, reports, first, start) && tick <= later
    ensures KeptAt(world, sent, later, probes, reports, first, start)
  {
    forall id | id in reports ensures GivenBetween(world, start, later, Report(id, reports[id])) {
      assert GivenBetween(world, start, tick, Report(id, reports[id]));
    }
  }

  lemma KeptWithProbe(world: nat -> Answer, sent: seq<Probe>, tick: nat, probes: map<nat, Probe>,
      reports: map<nat, Endpoint>,
    first: nat, start: nat, p: Probe)
    requires KeptAt(world, sent, tick, probes, reports, first, start) && first <= |sent| && p.id == |sent| + 1
    ensures KeptAt(world, sent + [p], tick, probes[p.id := p], reports, first, start)
  {
  }

  lemma KeptWithReport(world: nat -> Answer, sent: seq<Probe>, tick: nat, probes: map<nat, Probe>,
      reports: map<nat, Endpoint>,
    first: nat, start: nat, at: nat, r: Report)
    requires KeptAt(world, sent, tick, probes, reports, first, start) && start <= at < tick && r in world(at).reports
    requires r.id in probes && ValidObservation(Observation(probes[r.id].local, probes[r.id].remote, r.seen))
    ensures KeptAt(world, sent, tick, probes, reports[r.id := r.seen], first, start)
  {
    assert GivenBetween(world, start, tick, Report(r.id, r.seen));
  }

  /** The windows follow one another: no probe and no answer belongs to two of them. */
  ghost predicate InTurn(windows: seq<Span>, probes: nat, tick: nat) {
    && (forall w :: w in windows ==> w.firstProbe <= w.endProbe <= probes && w.firstTick <= w.endTick <= tick)
    && (forall i, j :: 0 <= i < j < |windows| ==>
          windows[i].endProbe <= windows[j].firstProbe && windows[i].endTick <= windows[j].firstTick)
  }

  lemma OneMoreWindow(windows: seq<Span>, probes: nat, tick: nat, w: Span)
    requires InTurn(windows, probes, tick) && w.firstProbe == probes <= w.endProbe && tick <= w.firstTick <= w.endTick
    ensures InTurn(windows + [w], w.endProbe, w.endTick)
  {
    var more := windows + [w];
    forall i, j | 0 <= i < j < |more|
      ensures more[i].endProbe <= more[j].firstProbe && more[i].endTick <= more[j].firstTick {
      assert more[i] in windows;
    }
  }

  function ErrorOf(a: Answer): Error {
    if a.cancelled then ContextDone else NetworkError
  }

  // ---------------------------------------------------------------- the task

  class SearchEngine {
    const localA: Endpoint
    const localB: Endpoint
    const limits: Budgets
    const until: Time
    const world: nat -> Answer
    const initialA: seq<Observation>
    const initialB: seq<Observation>
    var tick: nat
    var iterations: nat
    var packets: nat
    var measurements: nat
    var added: nat
    var rejected: nat
    var bootstrapBranches: nat
    var otherBranches: nat
    var nextId: nat
    var sockets: seq<Socket>
    var tried: set<(Endpoint, Endpoint)>
    var measured: set<(Side, Measurement)>
    var storeA: seq<Observation>
    var storeB: seq<Observation>
    ghost var live: set<Socket>
    ghost var sent: seq<Probe>
    ghost var windows: seq<Span>
    ghost var triedLog: seq<(Endpoint, Endpoint)>
    ghost var measuredLog: seq<(Side, Measurement)>

    constructor (localA: Endpoint, localB: Endpoint, limits: Budgets, until: Time, world: nat -> Answer,
      storeA: seq<Observation>, storeB: seq<Observation>)
      requires AllPositive(limits)
      ensures this.localA == localA && this.localB == localB && this.limits == limits && this.until == until
          && this.world == world
      ensures initialA == this.storeA == storeA && initialB == this.storeB == storeB
      ensures Valid() && sockets == [] && iterations == 0
    {
      this.localA, this.localB, this.limits, this.until, this.world := localA, localB, limits, until, world;
      initialA, initialB, this.storeA, this.storeB := storeA, storeB, storeA, storeB;
      tick, iterations, packets, measurements, added, rejected := 0, 0, 0, 0, 0, 0;
      bootstrapBranches, otherBranches, nextId := 0, 0, 0;
      sockets, tried, measured := [], {}, {};
      live, sent, windows, triedLog, measuredLog := {}, [], [], [], [];
    }

    predicate Positive() {
      AllPositive(limits)
    }

    function Local(side: Side): Endpoint {
      if side.A? then localA else localB
    }

    /** Exactly the sockets acquired are open, each acquired once. */
    ghost predicate Holding()
      reads this`sockets, this`live
    {
      Distinct(sockets) && forall s :: s in sockets <==> s in live
    }

    /** No candidate pair has been tried twice. */
    ghost predicate TriedOnce()
      reads this`tried, this`triedLog
    {
      Distinct(triedLog) && forall p :: p in triedLog <==> p in tried
    }

    /** No measurement has been taken twice, and each was paid for. */
    ghost predicate MeasuredOnce()
      reads this`measured, this`measuredLog, this`measurements
    {
      && Distinct(measuredLog) && (forall m :: m in measuredLog <==> m in measured)
      && |measuredLog| == measurements <= limits.measurements
    }

    ghost predicate Numbered()
      reads this`sent
    {
      forall k :: 0 <= k < |sent| ==> sent[k].id == k + 1
    }

    /** Every probe has its own number and was paid for. */
    ghost predicate Sending()
      reads this`sent, this`windows, this`tick, this`packets, this`nextId
    {
      && |sent| == packets == nextId && packets <= limits.packets && Numbered()
      && InTurn(windows, |sent|, tick)
    }

    ghost predicate Truthful()
      reads this`sent, this`windows, this`storeA, this`storeB
    {
      && Justified(world, sent, windows, A, initialA, storeA)
      && Justified(world, sent, windows, B, initialB, storeB)
    }

    ghost predicate Valid()
      reads this`iterations, this`sockets, this`live, this`tried, this`triedLog, this`measured, this`measuredLog,
          this`measurements
      reads this`sent, this`windows, this`tick, this`packets, this`nextId, this`storeA, this`storeB
    {
      Positive() && Holding() && TriedOnce() && MeasuredOnce() && Sending() && Truthful()
          && iterations <= limits.iterations
    }

    /** The context, the clock and the packet budget, asked before every step. */
    method Check() returns (error: Option<Error>)
      requires Sending()
      modifies this`tick
      ensures Sending() && tick == old(tick) + 1
      ensures error.None? ==> packets < limits.packets
    {
      var a := world(tick);
      tick := tick + 1;
      if a.cancelled {
        return Some(ContextDone);
      }
      if a.now >= until || packets >= limits.packets {
        return Some(OutOfBudget);
      }
      return None;
    }

    method Open(side: Side, local: Endpoint) returns (error: Option<Error>)
      requires Holding() && Sending()
      modifies this`tick, this`sockets, this`live
      ensures Holding() && Sending() && tick >= old(tick)
      ensures error.None? ==> Socket(side, local) in sockets
      ensures sockets == old(sockets) || (error.None? && sockets == old(sockets) + [Socket(side, local)])
    {
      error := Check();
      if error.Some? {
        return;
      }
      var resource := Socket(side, local);
      if resource in sockets {
        return None;
      }
      var a := world(tick);
      tick := tick + 1;
      if !a.ok {
        return Some(ErrorOf(a));
      }
      sockets := sockets + [resource];
      live := live + {resource};
      return None;
    }

    /** The batches that fit the limit whole, in order; the others are counted. */
    method SelectCandidates(batches: seq<seq<Range>>) returns (selected: seq<Endpoint>)
      requires Positive()
      modifies this`rejected
      ensures selected == Select(batches, limits.candidates)
    {
      selected := [];
      for k := 0 to |batches|
        invariant selected == Select(batches[..k], limits.candidates)
      {
        assert batches[..k + 1][..k] == batches[..k];
        var large := ExceedsLimit(batches[k]);
        if large {
          rejected := rejected + 1;
        } else {
          selected := AddBatch(selected, batches[k]);
        }
      }
      assert batches[..|batches|] == batches;
    }

    method ExceedsLimit(batch: seq<Range>) returns (large: bool)
      requires Positive()
      ensures large <==> Total(batch) > limits.candidates
    {
      var count := 0;
      for i := 0 to |batch|
        invariant count == Total(batch[..i]) <= Total(batch)
      {
        assert batch[..i + 1][..i] == batch[..i];
        TotalGrows(batch, i + 1);
        count := count + Count(batch[i]);
        if count > limits.candidates {
          return true;
        }
      }
      assert batch[..|batch|] == batch;
      return count > limits.candidates;
    }

    method AddBatch(before: seq<Endpoint>, batch: seq<Range>) returns (selected: seq<Endpoint>)
      requires Positive()
      ensures selected == PickRanges(before, limits.candidates, batch)
    {
      selected := before;
      for i := 0 to |batch|
        invariant selected == PickRanges(before, limits.candidates, batch[..i])
      {
        assert batch[..i + 1][..i] == batch[..i];
        var r := batch[i];
        ghost var start := selected;
        for n := 0 to Count(r)
          invariant selected == PickPorts(start, limits.candidates, r, n)
        {
          var e := Endpoint(r.address, r.first + n);
          if e !in selected && |selected| < limits.candidates {
            selected := selected + [e];
          }
        }
      }
      assert batch[..|batch|] == batch;
    }

    /** A probe for a pair that was not tried before this round. */
    ghost predicate Wanted(before: set<(Endpoint, Endpoint)>, p: Probe)
      reads this`tried
    {
      exists key :: key in tried && key !in before
          && (p == Probe(0, A, localA, key.1) || p == Probe(0, B, localB, key.0))
    }

    /** One pair marked: the same destination is not probed again for another guess of our own port. */
    method MarkPair(key: (Endpoint, Endpoint), before: seq<Probe>, ghost start: set<(Endpoint, Endpoint)>)
      returns (probes: seq<Probe>)
      requires TriedOnce() && key !in tried && start <= tried
      requires Distinct(before) && forall p :: p in before <==> Wanted(start, p)
      modifies this`tried, this`triedLog
      ensures TriedOnce() && tried == old(tried) + {key} && triedLog == old(triedLog) + [key]
      ensures Distinct(probes) && forall p :: p in probes <==> Wanted(start, p)
    {
      tried, triedLog := tried + {key}, triedLog + [key];
      var toB, toA := Probe(0, A, localA, key.1), Probe(0, B, localB, key.0);
      probes := if toB in before then before else before + [toB];
      probes := if toA in probes then probes else probes + [toA];
      forall p ensures p in probes <==> Wanted(start, p) {
        if Wanted(start, p) {
          var k :| k in tried && k !in start && (p == Probe(0, A, localA, k.1) || p == Probe(0, B, localB, k.0));
          assert k != key ==> k in old(tried);
        }
        if p == toA || p == toB {
          assert key in tried && key !in start;
        } else if p in before {
          var k :| k in old(tried) && k !in start && (p == Probe(0, A, localA, k.1) || p == Probe(0, B, localB, k.0));
          assert k in tried;
        }
      }
    }

    /** Marks the new pairs up to the round's limit and says what is to be sent for them. */
    method MarkPairs(candidatesA: seq<Endpoint>, candidatesB: seq<Endpoint>) returns (probes: seq<Probe>)
      requires Positive() && TriedOnce()
      modifies this`tried, this`triedLog
      ensures TriedOnce() && old(triedLog) <= triedLog && old(tried) <= tried
          && |triedLog| <= |old(triedLog)| + limits.pairs
      ensures forall p :: p in tried ==> p in old(tried) || (p.0 in candidatesA && p.1 in candidatesB)
      ensures |triedLog| < |old(triedLog)| + limits.pairs ==> forall a, b :: a in candidatesA && b in candidatesB ==>
          (a, b) in tried
      ensures Distinct(probes) && forall p :: p in probes <==> Wanted(old(tried), p)
    {
      probes := [];
      var pairs := 0;
      for i := 0 to |candidatesA|
        invariant TriedOnce() && old(triedLog) <= triedLog && old(tried) <= tried
        invariant |triedLog| == |old(triedLog)| + pairs && pairs <= limits.pairs
        invariant forall p :: p in tried ==> p in old(tried) || (p.0 in candidatesA && p.1 in candidatesB)
        invariant pairs < limits.pairs ==> forall x, b :: 0 <= x < i && b in candidatesB ==>
            (candidatesA[x], b) in tried
        invariant Distinct(probes) && forall p :: p in probes <==> Wanted(old(tried), p)
      {
        for j := 0 to |candidatesB|
          invariant TriedOnce() && old(triedLog) <= triedLog && old(tried) <= tried
          invariant |triedLog| == |old(triedLog)| + pairs && pairs <= limits.pairs
          invariant forall p :: p in tried ==> p in old(tried) || (p.0 in candidatesA && p.1 in candidatesB)
          invariant pairs < limits.pairs ==> forall x, b :: 0 <= x < i && b in candidatesB ==>
              (candidatesA[x], b) in tried
          invariant pairs < limits.pairs ==> forall y :: 0 <= y < j ==> (candidatesA[i], candidatesB[y]) in tried
          invariant Distinct(probes) && forall p :: p in probes <==> Wanted(old(tried), p)
        {
          var key := (candidatesA[i], candidatesB[j]);
          if key in tried || pairs >= limits.pairs {
            continue;
          }
          probes := MarkPair(key, probes, old(tried));
          pairs := pairs + 1;
        }
      }
    }

    // -------------------------------------------------------------- a probing window

    predicate Alike(p: Probe, q: Probe) {
      p.side == q.side && p.local == q.local && p.remote == q.remote
    }

    /** The probes of one pass, as far as it got. */
    predicate Follow(templates: seq<Probe>, probes: seq<Probe>) {
      |probes| <= |templates| && forall j | 0 <= j < |probes| :: Alike(probes[j], templates[j])
    }

    ghost predicate Kept(probes: map<nat, Probe>, reports: map<nat, Endpoint>, first: nat, start: nat)
      reads this`sent, this`tick
    {
      KeptAt(world, sent, tick, probes, reports, first, start)
    }

    /** One probe; it counts even if sending it fails. */
    method SendOne(template: Probe, before: map<nat, Probe>, ghost reports: map<nat, Endpoint>, ghost first: nat,
        ghost start: nat)
      returns (probes: map<nat, Probe>, error: Option<Error>)
      requires Sending() && first <= |sent| && Kept(before, reports, first, start)
      modifies this`tick, this`packets, this`nextId, this`sent
      ensures Sending() && tick >= old(tick) && Kept(probes, reports, first, start)
      ensures sent == old(sent) || (|sent| == |old(sent)| + 1 && sent[..|old(sent)|] == old(sent)
                                    && Alike(sent[|old(sent)|], template))
      ensures error.None? ==> |sent| == |old(sent)| + 1
    {
      probes := before;
      ghost var so, since := sent, tick;
      error := Check();
      KeptLater(world, so, since, before, reports, first, start, tick);
      if error.Some? {
        return;
      }
      nextId := nextId + 1;
      var probe := template.(id := nextId);
      probes := probes[nextId := probe];
      packets := packets + 1;
      sent := sent + [probe];
      var a := world(tick);
      tick := tick + 1;
      KeptLater(world, so, since, before, reports, first, start, tick);
      KeptWithProbe(world, so, tick, before, reports, first, start, probe);
      error := if a.ok then None else Some(ErrorOf(a));
    }

    /** One pass over the templates. */
    method SendPass(templates: seq<Probe>, before: map<nat, Probe>, ghost reports: map<nat, Endpoint>,
        ghost first: nat, ghost start: nat)
      returns (probes: map<nat, Probe>, error: Option<Error>)
      requires Sending() && first <= |sent| && Kept(before, reports, first, start)
      modifies this`tick, this`packets, this`nextId, this`sent
      ensures Sending() && tick >= old(tick) && Kept(probes, reports, first, start)
      ensures old(sent) <= sent && Follow(templates, sent[|old(sent)|..])
      ensures error.None? ==> |sent| == |old(sent)| + |templates|
    {
      probes := before;
      for j := 0 to |templates|
        invariant Sending() && tick >= old(tick) && Kept(probes, reports, first, start)
        invariant old(sent) <= sent && |sent| == |old(sent)| + j && Follow(templates, sent[|old(sent)|..])
      {
        ghost var so := sent;
        probes, error := SendOne(templates[j], probes, reports, first, start);
        assert sent == so || sent == so + [sent[|so|]];
        if error.Some? {
          return;
        }
      }
      return probes, None;
    }

    /** What comes in after a pass: a report on an unknown probe, a second one, or an invalid one is passed over. */
    method TakeReports(probes: map<nat, Probe>, before: map<nat, Endpoint>, ghost first: nat, ghost start: nat)
      returns (reports: map<nat, Endpoint>, error: Option<Error>)
      requires Sending() && start <= tick && Kept(probes, before, first, start)
      modifies this`tick
      ensures Sending() && tick >= old(tick) && Kept(probes, reports, first, start)
      ensures forall id :: id in before ==> id in reports && reports[id] == before[id]
    {
      reports := before;
      var waited, now, given := world(tick), world(tick + 1), world(tick + 2);
      tick := tick + 3;
      KeptLater(world, sent, old(tick), probes, before, first, start, tick);
      if !waited.ok {
        return reports, Some(ErrorOf(waited));
      }
      if now.now >= until {
        return reports, Some(OutOfBudget);
      }
      if !given.ok {
        return reports, Some(ErrorOf(given));
      }
      reports := KeepReports(probes, before, given.reports, old(tick) + 2, first, start);
      return reports, None;
    }

    method KeepReports(probes: map<nat, Probe>, before: map<nat, Endpoint>, received: seq<Report>, ghost at: nat,
        ghost first: nat,
      ghost start: nat)
      returns (reports: map<nat, Endpoint>)
      requires Kept(probes, before, first, start) && start <= at < tick && received == world(at).reports
      ensures Kept(probes, reports, first, start)
      ensures forall id :: id in before ==> id in reports && reports[id] == before[id]
    {
      reports := before;
      for i := 0 to |received|
        invariant Kept(probes, reports, first, start)
        invariant forall id :: id in before ==> id in reports && reports[id] == before[id]
      {
        var report := received[i];
        if report.id in probes && report.id !in reports {
          var probe := probes[report.id];
          if ValidObservation(Observation(probe.local, probe.remote, report.seen)) {
            KeptWithReport(world, sent, tick, probes, reports, first, start, at, report);
            reports := reports[report.id := report.seen];
          }
        }
      }
    }

    predicate FromTemplates(templates: seq<Probe>, p: Probe) {
      exists j | 0 <= j < |templates| :: Alike(p, templates[j])
    }

    /** Only what the templates ask for is sent, and all of it at least once unless something failed. */
    ghost predicate Covers(templates: seq<Probe>, probes: seq<Probe>, complete: bool) {
      && (forall k | 0 <= k < |probes| :: FromTemplates(templates, probes[k]))
      && (complete ==> forall j | 0 <= j < |templates| :: SentFor(templates[j], probes))
    }

    predicate SentFor(template: Probe, probes: seq<Probe>) {
      exists k | 0 <= k < |probes| :: Alike(probes[k], template)
    }

    lemma PassCovers(templates: seq<Probe>, before: seq<Probe>, pass: seq<Probe>, done: bool, complete: bool)
      requires Covers(templates, before, done) && Follow(templates, pass) && (complete ==> |pass| == |templates|)
      ensures Covers(templates, before + pass, done || complete)
    {
      var both := before + pass;
      forall k | 0 <= k < |both| ensures FromTemplates(templates, both[k]) {
        if k >= |before| {
          assert Alike(pass[k - |before|], templates[k - |before|]);
        }
      }
      if done || complete {
        forall j | 0 <= j < |templates| ensures SentFor(templates[j], both) {
          if done {
            assert SentFor(templates[j], before);
            var k :| 0 <= k < |before| && Alike(before[k], templates[j]);
            assert Alike(both[k], templates[j]);
          } else {
            assert Alike(both[|before| + j], templates[j]);
          }
        }
      }
    }

    /** One pass and what comes in after it; `pass` is what it sent. */
    method Pass(templates: seq<Probe>, knownProbes: map<nat, Probe>, knownReports: map<nat, Endpoint>,
        ghost first: nat, ghost start: nat)
      returns (probes: map<nat, Probe>, reports: map<nat, Endpoint>, error: Option<Error>, ghost pass: seq<Probe>)
      requires Sending() && first <= |sent| && start <= tick && Kept(knownProbes, knownReports, first, start)
      modifies this`tick, this`packets, this`nextId, this`sent
      ensures Sending() && tick >= old(tick) && Kept(probes, reports, first, start)
      ensures sent == old(sent) + pass && Follow(templates, pass)
      ensures error.None? ==> |pass| == |templates|
    {
      reports := knownReports;
      probes, error := SendPass(templates, knownProbes, knownReports, first, start);
      pass := sent[|old(sent)|..];
      if error.None? {
        reports, error := TakeReports(probes, reports, first, start);
      }
    }

    /** The passes of one window and the reports that come in between; `mine` is what it sent. */
    method RunWindow(templates: seq<Probe>)
      returns (probes: map<nat, Probe>, reports: map<nat, Endpoint>, error: Option<Error>, ghost mine: seq<Probe>)
      requires Positive() && Sending()
      modifies this`tick, this`packets, this`nextId, this`sent
      ensures Sending() && tick >= old(tick) && Kept(probes, reports, |old(sent)|, old(tick))
      ensures sent == old(sent) + mine && Covers(templates, mine, error.None?)
    {
      probes, reports, error, mine := map[], map[], None, [];
      assert old(sent) + [] == old(sent);
      if templates == [] {
        return;
      }
      for pass := 0 to limits.repeats
        invariant Sending() && tick >= old(tick) && Kept(probes, reports, |old(sent)|, old(tick))
        invariant sent == old(sent) + mine && error.None? && Covers(templates, mine, pass > 0)
      {
        ghost var more;
        probes, reports, error, more := Pass(templates, probes, reports, |old(sent)|, old(tick));
        PassCovers(templates, mine, more, pass > 0, error.None?);
        Associative(old(sent), mine, more);
        mine := mine + more;
        if error.Some? {
          WeakerCover(templates, mine, pass > 0 || error.None?);
          return;
        }
      }
    }

    lemma WeakerCover(templates: seq<Probe>, probes: seq<Probe>, complete: bool)
      requires Covers(templates, probes, complete)
      ensures Covers(templates, probes, false)
    {
    }

    /** o is about the probe sent at this place, and a report of the window says so. */
    ghost predicate IsEntry(side: Side, w: Span, o: Observation, place: nat)
      reads this`sent
    {
      && w.firstProbe <= place < |sent|
      && sent[place].side == side && sent[place].local == o.local && sent[place].remote == o.remote
      && Witnessed(world, sent, w, side, o)
    }

    /** The observations of one side: at most one for a probe, in the order sent. */
    ghost predicate InSendOrder(side: Side, w: Span, seen: seq<Observation>, places: seq<nat>)
      reads this`sent
    {
      && |places| == |seen| && Increasing(places)
      && (forall i :: 0 <= i < |seen| ==> IsEntry(side, w, seen[i], places[i]))
    }

    method Window(templates: seq<Probe>)
      returns (seenA: seq<Observation>, seenB: seq<Observation>, error: Option<Error>, ghost placesA: seq<nat>,
        ghost placesB: seq<nat>)
      requires Positive() && Sending()
      modifies this`tick, this`packets, this`nextId, this`sent, this`windows
      ensures Sending() && old(sent) <= sent && tick >= old(tick)
      ensures windows == old(windows) + [Span(|old(sent)|, |sent|, old(tick), tick)]
      ensures Covers(templates, sent[|old(sent)|..], error.None?)
      ensures InSendOrder(A, windows[|old(windows)|], seenA, placesA)
          && InSendOrder(B, windows[|old(windows)|], seenB, placesB)
    {
      var probes, reports;
      ghost var mine;
      probes, reports, error, mine := RunWindow(templates);
      assert sent[|old(sent)|..] == mine;
      ghost var w := Span(|old(sent)|, |sent|, old(tick), tick);
      OneMoreWindow(windows, |old(sent)|, old(tick), w);
      windows := windows + [w];
      seenA, seenB, placesA, placesB := Normalize(probes, reports, w);
    }

    /** Reports in the order their probes were sent, whatever the order of the map. */
    method Normalize(probes: map<nat, Probe>, reports: map<nat, Endpoint>, ghost w: Span)
      returns (seenA: seq<Observation>, seenB: seq<Observation>, ghost placesA: seq<nat>, ghost placesB: seq<nat>)
      requires Numbered() && Kept(probes, reports, w.firstProbe, w.firstTick) && w.endProbe == |sent|
          && w.endTick == tick
      ensures InSendOrder(A, w, seenA, placesA) && InSendOrder(B, w, seenB, placesB)
    {
      var ids := InOrder(reports.Keys);
      seenA, seenB, placesA, placesB := [], [], [], [];
      ghost var last: nat := 0;
      assert |ids| > 0 ==> ids[0] > 0 by {
        if |ids| > 0 {
          assert ids[0] in ids && ids[0] in reports;
        }
      }
      for i := 0 to |ids|
        invariant BothInOrder(w, seenA, seenB, placesA, placesB, last)
        invariant i < |ids| ==> last < ids[i]
      {
        var id := ids[i];
        assert id in reports by {
          assert id in ids;
        }
        var probe := probes[id];
        var o := Observation(probe.local, probe.remote, reports[id]);
        SeenGrows(probes, reports, w, id, seenA, seenB, placesA, placesB, last);
        if probe.side.A? {
          seenA, placesA := seenA + [o], placesA + [id - 1];
        } else {
          seenB, placesB := seenB + [o], placesB + [id - 1];
        }
        last := id;
        assert i + 1 < |ids| ==> ids[i] < ids[i + 1];
      }
    }

    /** Both lists so far, all their probes numbered up to `last`. */
    ghost predicate BothInOrder(w: Span, seenA: seq<Observation>, seenB: seq<Observation>, placesA: seq<nat>,
        placesB: seq<nat>, last: nat)
      reads this`sent
    {
      && InSendOrder(A, w, seenA, placesA) && InSendOrder(B, w, seenB, placesB)
      && (forall i :: 0 <= i < |placesA| ==> placesA[i] < last)
      && (forall i :: 0 <= i < |placesB| ==> placesB[i] < last)
    }

    lemma SeenGrows(probes: map<nat, Probe>, reports: map<nat, Endpoint>, w: Span, id: nat,
      seenA: seq<Observation>, seenB: seq<Observation>, placesA: seq<nat>, placesB: seq<nat>, last: nat)
      requires Numbered() && Kept(probes, reports, w.firstProbe, w.firstTick) && w.endProbe == |sent|
          && w.endTick == tick
      requires id in reports && last < id && BothInOrder(w, seenA, seenB, placesA, placesB, last)
      ensures
        var o := Observation(probes[id].local, probes[id].remote, reports[id]);
        if probes[id].side.A? then BothInOrder(w, seenA + [o], seenB, placesA + [id - 1], placesB, id)
        else BothInOrder(w, seenA, seenB + [o], placesA, placesB + [id - 1], id)
    {
      ReportKept(probes, reports, w, id);
      BothGrow(w, probes[id].side, Observation(probes[id].local, probes[id].remote, reports[id]), id - 1,
               seenA, seenB, placesA, placesB, last);
    }

    lemma BothGrow(w: Span, side: Side, o: Observation, place: nat,
      seenA: seq<Observation>, seenB: seq<Observation>, placesA: seq<nat>, placesB: seq<nat>, last: nat)
      requires IsEntry(side, w, o, place) && last <= place && BothInOrder(w, seenA, seenB, placesA, placesB, last)
      ensures
        if side.A? then BothInOrder(w, seenA + [o], seenB, placesA + [place], placesB, place + 1)
        else BothInOrder(w, seenA, seenB + [o], placesA, placesB + [place], place + 1)
    {
      if side.A? {
        OneMoreSeen(A, w, seenA, placesA, o, place);
      } else {
        OneMoreSeen(B, w, seenB, placesB, o, place);
      }
    }

    lemma OneMoreSeen(side: Side, w: Span, seen: seq<Observation>, places: seq<nat>, o: Observation, place: nat)
      requires InSendOrder(side, w, seen, places) && forall i :: 0 <= i < |places| ==> places[i] < place
      requires IsEntry(side, w, o, place)
      ensures InSendOrder(side, w, seen + [o], places + [place])
    {
    }

    lemma ReportKept(probes: map<nat, Probe>, reports: map<nat, Endpoint>, w: Span, id: nat)
      requires Numbered() && Kept(probes, reports, w.firstProbe, w.firstTick) && w.endProbe == |sent|
          && w.endTick == tick
      requires id in reports
      ensures id > 0 && IsEntry(probes[id].side, w,
                                Observation(probes[id].local, probes[id].remote, reports[id]), id - 1)
    {
      assert GivenBetween(world, w.firstTick, tick, Report(id, reports[id]));
      var t: nat :| w.firstTick <= t < tick && Report(id, reports[id]) in world(t).reports;
      assert ReportOn(world, sent, w, probes[id].side, Observation(probes[id].local, probes[id].remote, reports[id]),
                      id - 1, t);
    }

    // -------------------------------------------------------------- what a window teaches

    /** Samples of the last window. */
    ghost predicate AllWitnessed(side: Side, seen: seq<Observation>)
      reads this`sent, this`windows
    {
      windows != [] && forall o :: o in seen ==> Witnessed(world, sent, windows[|windows| - 1], side, o)
    }

    /** The samples of the last window are stored; only new ones count. */
    method Ingest(seenA: seq<Observation>, seenB: seq<Observation>)
      requires Truthful() && windows != []
      requires AllWitnessed(A, seenA)
      requires AllWitnessed(B, seenB)
      modifies this`storeA, this`storeB, this`added
      ensures Truthful() && storeA == AddAll(old(storeA), seenA) && storeB == AddAll(old(storeB), seenB)
      ensures added == old(added) + |storeA| - |old(storeA)| + |storeB| - |old(storeB)|
      ensures old(storeA) <= storeA && old(storeB) <= storeB
    {
      var moreA, moreB;
      storeA, moreA := Stored(storeA, seenA);
      storeB, moreB := Stored(storeB, seenB);
      added := added + moreA + moreB;
      assert Truthful() by {
        JustifiedByMore(A, initialA, old(storeA), seenA);
        JustifiedByMore(B, initialB, old(storeB), seenB);
      }
    }

    method Stored(store: seq<Observation>, seen: seq<Observation>) returns (after: seq<Observation>, more: nat)
      ensures after == AddAll(store, seen) && store <= after && more == |after| - |store|
    {
      after, more := store, 0;
      for i := 0 to |seen|
        invariant after == AddAll(store, seen[..i]) && store <= after && more == |after| - |store|
      {
        assert seen[..i + 1][..i] == seen[..i];
        if ValidObservation(seen[i]) && seen[i] !in after {
          after, more := after + [seen[i]], more + 1;
        }
      }
      assert seen[..|seen|] == seen;
    }

    lemma JustifiedByMore(side: Side, initial: seq<Observation>, store: seq<Observation>, seen: seq<Observation>)
      requires Justified(world, sent, windows, side, initial, store) && windows != []
      requires AllWitnessed(side, seen)
      ensures Justified(world, sent, windows, side, initial, AddAll(store, seen))
    {
      AddedAre(store, seen);
    }

    /** The first pair of observations that mirror each other. */
    method MatchedPath(seenA: seq<Observation>, seenB: seq<Observation>) returns (path: Option<Route>)
      ensures path.None? <==> forall a, b :: a in seenA && b in seenB ==> !Matching(localA, localB, a, b)
      ensures path.Some? ==> NamedBy(path.value, seenA, seenB)
    {
      for i := 0 to |seenA|
        invariant forall x, b :: 0 <= x < i && b in seenB ==> !Matching(localA, localB, seenA[x], b)
      {
        var a := seenA[i];
        if a.local != localA {
          continue;
        }
        for j := 0 to |seenB|
          invariant forall y :: 0 <= y < j ==> !Matching(localA, localB, a, seenB[y])
        {
          var b := seenB[j];
          if b.local == localB && a.remote == b.seen && b.remote == a.seen {
            assert Matching(localA, localB, a, b) && a in seenA && b in seenB;
            path := Some(Route(a.local, b.local, a.seen, b.seen));
            assert Names(path.value, a, b);
            return;
          }
        }
      }
      return None;
    }

    // -------------------------------------------------------------- one round

    /** A window, with what it showed kept as evidence. */
    method Probing(templates: seq<Probe>)
      returns (seenA: seq<Observation>, seenB: seq<Observation>, error: Option<Error>, ghost placesA: seq<nat>,
        ghost placesB: seq<nat>)
      requires Valid()
      modifies this`tick, this`packets, this`nextId, this`sent, this`windows
      ensures Valid() && old(sent) <= sent && windows == old(windows) + [Span(|old(sent)|, |sent|, old(tick), tick)]
      ensures Covers(templates, sent[|old(sent)|..], error.None?)
      ensures InSendOrder(A, windows[|old(windows)|], seenA, placesA)
          && InSendOrder(B, windows[|old(windows)|], seenB, placesB)
    {
      ghost var so, wo := sent, windows;
      seenA, seenB, error, placesA, placesB := Window(templates);
      StillJustified(world, so, wo, sent, windows, A, initialA, storeA);
      StillJustified(world, so, wo, sent, windows, B, initialB, storeB);
    }

    /** Probes each new pair of candidates from both sides at once. */
    method Try(candidatesA: seq<Endpoint>, candidatesB: seq<Endpoint>)
      returns (seenA: seq<Observation>, seenB: seq<Observation>, error: Option<Error>)
      requires Valid()
      modifies this`tick, this`packets, this`nextId, this`sent, this`windows, this`tried, this`triedLog
      ensures Valid() && old(sent) <= sent && old(windows) < windows && old(triedLog) <= triedLog && old(tried) <= tried
      ensures |triedLog| <= |old(triedLog)| + limits.pairs
      ensures forall p :: p in tried ==> p in old(tried) || (p.0 in candidatesA && p.1 in candidatesB)
      ensures |triedLog| < |old(triedLog)| + limits.pairs ==> forall a, b :: a in candidatesA && b in candidatesB ==>
          (a, b) in tried
      ensures error.None? ==> forall p :: p in tried && p !in old(tried) ==>
                && SentFor(Probe(0, A, localA, p.1), sent[|old(sent)|..])
                && SentFor(Probe(0, B, localB, p.0), sent[|old(sent)|..])
      ensures AllWitnessed(A, seenA)
      ensures AllWitnessed(B, seenB)
    {
      var probes := MarkPairs(candidatesA, candidatesB);
      ghost var placesA, placesB;
      seenA, seenB, error, placesA, placesB := Probing(probes);
      if error.None? {
        forall p | p in tried && p !in old(tried)
          ensures SentFor(Probe(0, A, localA, p.1), sent[|old(sent)|..])
              && SentFor(Probe(0, B, localB, p.0), sent[|old(sent)|..])
        {
          assert Wanted(old(tried), Probe(0, A, localA, p.1)) && Wanted(old(tried), Probe(0, B, localB, p.0));
          assert Probe(0, A, localA, p.1) in probes && Probe(0, B, localB, p.0) in probes;
        }
      }
    }

    method MarkMeasured(side: Side, step: Measurement)
      requires MeasuredOnce() && (side, step) !in measured && measurements < limits.measurements
      modifies this`measured, this`measuredLog, this`measurements
      ensures MeasuredOnce() && measuredLog == old(measuredLog) + [(side, step)]
    {
      measured, measuredLog := measured + {(side, step)}, measuredLog + [(side, step)];
      measurements := measurements + 1;
    }

    /** One measurement: paid for, on its own socket, once. */
    method Measure(side: Side, step: Measurement) returns (error: Option<Error>)
      requires Valid() && (side, step) !in measured && measurements < limits.measurements
      modifies this`tick, this`packets, this`nextId, this`sent, this`windows, this`measured, this`measuredLog,
          this`measurements
      modifies this`sockets, this`live, this`storeA, this`storeB, this`added
      ensures Valid() && measuredLog == old(measuredLog) + [(side, step)] && old(sockets) <= sockets
      ensures old(storeA) <= storeA && old(storeB) <= storeB
              && added == old(added) + |storeA| - |old(storeA)| + |storeB| - |old(storeB)|
    {
      MarkMeasured(side, step);
      error := Open(side, step.local);
      if error.None? {
        error := ProbeAndStore([Probe(0, side, step.local, step.remote)]);
      }
    }

    method ProbeAndStore(templates: seq<Probe>) returns (error: Option<Error>)
      requires Valid()
      modifies this`tick, this`packets, this`nextId, this`sent, this`windows, this`storeA, this`storeB, this`added
      ensures Valid() && old(storeA) <= storeA && old(storeB) <= storeB
      ensures added == old(added) + |storeA| - |old(storeA)| + |storeB| - |old(storeB)|
    {
      var seenA, seenB;
      ghost var placesA, placesB;
      seenA, seenB, error, placesA, placesB := Probing(templates);
      Ingest(seenA, seenB);
    }

    /** One observer's branch: every step not measured before, until the budget or a failure stops it. */
    method ObserveGroup(side: Side, group: Group) returns (error: Option<Error>)
      requires Valid()
      modifies this`tick, this`packets, this`nextId, this`sent, this`windows, this`measured, this`measuredLog,
          this`measurements
      modifies this`sockets, this`live, this`storeA, this`storeB, this`added, this`bootstrapBranches, this`otherBranches
      ensures Valid() && old(measuredLog) <= measuredLog && old(sockets) <= sockets && old(storeA) <= storeA
          && old(storeB) <= storeB
      ensures added == old(added) + |storeA| - |old(storeA)| + |storeB| - |old(storeB)|
      ensures error.None? ==> forall m :: m in group.steps ==> (side, m) in measuredLog
    {
      var entered := false;
      for i := 0 to |group.steps|
        invariant Valid() && old(measuredLog) <= measuredLog && old(sockets) <= sockets && old(storeA) <= storeA
                  && old(storeB) <= storeB
        invariant added == old(added) + |storeA| - |old(storeA)| + |storeB| - |old(storeB)|
        invariant forall j :: 0 <= j < i ==> (side, group.steps[j]) in measuredLog
      {
        if (side, group.steps[i]) !in measured {
          if measurements >= limits.measurements {
            return Some(OutOfBudget);
          }
          if !entered {
            entered := true;
            CountBranch(group.bootstrap);
          }
          ghost var log := measuredLog;
          error := Measure(side, group.steps[i]);
          assert measuredLog == log + [(side, group.steps[i])];
          if error.Some? {
            return;
          }
        }
      }
      return None;
    }

    method CountBranch(bootstrap: bool)
      modifies this`bootstrapBranches, this`otherBranches
      ensures bootstrapBranches == old(bootstrapBranches) + (if bootstrap then 1 else 0)
      ensures otherBranches == old(otherBranches) + (if bootstrap then 0 else 1)
    {
      if bootstrap {
        bootstrapBranches := bootstrapBranches + 1;
      } else {
        otherBranches := otherBranches + 1;
      }
    }

    /** Branch after branch until one of them teaches something. */
    method Observe(side: Side, groups: seq<Group>) returns (error: Option<Error>)
      requires Valid()
      modifies this`tick, this`packets, this`nextId, this`sent, this`windows, this`measured, this`measuredLog,
          this`measurements
      modifies this`sockets, this`live, this`storeA, this`storeB, this`added, this`bootstrapBranches, this`otherBranches
      ensures Valid() && old(measuredLog) <= measuredLog && old(sockets) <= sockets && old(storeA) <= storeA
          && old(storeB) <= storeB
      ensures added == old(added) + |storeA| - |old(storeA)| + |storeB| - |old(storeB)|
      ensures error.None? && added == old(added) ==> forall g, m :: g in groups && m in g.steps ==>
          (side, m) in measuredLog
    {
      var before := added;
      for i := 0 to |groups|
        invariant Valid() && old(measuredLog) <= measuredLog && old(sockets) <= sockets && old(storeA) <= storeA
                  && old(storeB) <= storeB
        invariant added == old(added) == old(added) + |storeA| - |old(storeA)| + |storeB| - |old(storeB)|
        invariant forall j, m :: 0 <= j < i && m in groups[j].steps ==> (side, m) in measuredLog
      {
        error := ObserveGroup(side, groups[i]);
        if error.Some? {
          return;
        }
        if added > before {
          return None;
        }
      }
      return None;
    }

    // -------------------------------------------------------------- the end of the task

    predicate Keeps(keep: bool, s: Socket) {
      keep && s.local == Local(s.side)
    }

    /** A socket of the task with this local endpoint is let go. */
    ghost predicate LetGo(keep: bool, side: Side, local: Endpoint)
      reads this`sockets
    {
      Socket(side, local) in sockets && !Keeps(keep, Socket(side, local))
    }

    /** Closes what the task acquired, the primaries of a path excepted; a closed socket's samples are forgotten. */
    method Release(keep: bool) returns (failed: bool, ghost refused: set<Socket>)
      requires Holding()
      modifies this`tick, this`live, this`storeA, this`storeB
      ensures tick >= old(tick) && forall s :: s in refused ==> s in sockets
      ensures forall s :: s in live <==> s in sockets && (Keeps(keep, s) || s in refused)
      ensures failed <==> refused != {}
      ensures (forall t: nat :: world(t).ok) ==> !failed
      ensures forall o :: o in storeA <==> o in old(storeA) && !LetGo(keep, A, o.local)
      ensures forall o :: o in storeB <==> o in old(storeB) && !LetGo(keep, B, o.local)
    {
      failed, refused := false, {};
      for i := 0 to |sockets|
        invariant tick >= old(tick)
        invariant forall s :: s in live <==> s in sockets && (Keeps(keep, s) || s in refused || s in sockets[i..])
        invariant failed <==> refused != {}
        invariant (forall t: nat :: world(t).ok) ==> !failed
        invariant forall s :: s in refused ==> s in sockets[..i]
        invariant forall o ::
            o in storeA
            <==> o in old(storeA) && !(Socket(A, o.local) in sockets[..i] && !Keeps(keep, Socket(A, o.local)))
        invariant forall o ::
            o in storeB
            <==> o in old(storeB) && !(Socket(B, o.local) in sockets[..i] && !Keeps(keep, Socket(B, o.local)))
      {
        var resource := sockets[i];
        assert sockets[..i + 1] == sockets[..i] + [resource] && sockets[i..] == [resource] + sockets[i + 1..];
        if keep && resource.local == Local(resource.side) {
          continue;
        }
        var a := world(tick);
        tick := tick + 1;
        if a.ok {
          live := live - {resource};
        } else {
          failed, refused := true, refused + {resource};
        }
        ForgetAll(storeA, resource.local);
        ForgetAll(storeB, resource.local);
        if resource.side.A? {
          storeA := Forget(storeA, resource.local);
        } else {
          storeB := Forget(storeB, resource.local);
        }
      }
      assert sockets[..|sockets|] == sockets;
    }

    ghost predicate AllMeasured(side: Side, plan: seq<Group>)
      reads this`measuredLog
    {
      forall g, m :: g in plan && m in g.steps ==> (side, m) in measuredLog
    }

    /** The path is what two samples say, both of them witnessed by a window and both still held. */
    ghost predicate Backed(path: Route)
      reads this`sent, this`windows, this`storeA, this`storeB
    {
      exists a, b ::
        && Names(path, a, b) && a in storeA && b in storeB
        && Proven(world, sent, windows, A, a) && Proven(world, sent, windows, B, b)
    }

    lemma PathIsBacked(path: Route, seenA: seq<Observation>, seenB: seq<Observation>, beforeA: seq<Observation>,
        beforeB: seq<Observation>)
      requires windows != [] && storeA == AddAll(beforeA, seenA) && storeB == AddAll(beforeB, seenB)
      requires AllWitnessed(A, seenA)
      requires AllWitnessed(B, seenB)
      requires NamedBy(path, seenA, seenB)
      ensures Backed(path)
    {
      var a, b :| a in seenA && b in seenB && Names(path, a, b);
      ValidIsAdded(beforeA, seenA, a);
      ValidIsAdded(beforeB, seenB, b);
      assert windows[|windows| - 1] in windows;
    }

    /** A window over candidate pairs, and what it showed stored. */
    method TryAndStore(candidatesA: seq<Endpoint>, candidatesB: seq<Endpoint>)
      returns (seenA: seq<Observation>, seenB: seq<Observation>, error: Option<Error>)
      requires Valid()
      modifies this`tick, this`packets, this`nextId, this`sent, this`windows, this`tried, this`triedLog
      modifies this`storeA, this`storeB, this`added
      ensures Valid() && windows != [] && storeA == AddAll(old(storeA), seenA) && storeB == AddAll(old(storeB), seenB)
      ensures old(storeA) <= storeA && old(storeB) <= storeB
      ensures added == old(added) + |storeA| - |old(storeA)| + |storeB| - |old(storeB)|
      ensures AllWitnessed(A, seenA)
      ensures AllWitnessed(B, seenB)
    {
      seenA, seenB, error := Try(candidatesA, candidatesB);
      Ingest(seenA, seenB);
    }

    /** The candidates of both predictions are tried, and what comes back is stored and searched for a path. */
    method TryRound(predictionA: Prediction, predictionB: Prediction)
      returns (path: Option<Route>, error: Option<Error>)
      requires Valid()
      modifies this`tick, this`packets, this`nextId, this`sent, this`windows, this`tried, this`triedLog
      modifies this`storeA, this`storeB, this`added, this`rejected
      ensures Valid() && old(storeA) <= storeA && old(storeB) <= storeB
      ensures added == old(added) + |storeA| - |old(storeA)| + |storeB| - |old(storeB)|
      ensures path.Some? ==> error.None? && Backed(path.value)
    {
      var candidatesA := SelectCandidates(predictionA.batches);
      var candidatesB := SelectCandidates(predictionB.batches);
      var seenA, seenB;
      ghost var heldA, heldB := storeA, storeB;
      seenA, seenB, error := TryAndStore(candidatesA, candidatesB);
      path := None;
      if error.None? {
        path := FindPath(seenA, seenB, heldA, heldB);
      }
    }

    method FindPath(seenA: seq<Observation>, seenB: seq<Observation>, ghost heldA: seq<Observation>,
        ghost heldB: seq<Observation>)
      returns (path: Option<Route>)
      requires windows != [] && storeA == AddAll(heldA, seenA) && storeB == AddAll(heldB, seenB)
      requires AllWitnessed(A, seenA)
      requires AllWitnessed(B, seenB)
      ensures path.Some? ==> Backed(path.value)
    {
      path := MatchedPath(seenA, seenB);
      if path.Some? {
        PathIsBacked(path.value, seenA, seenB, heldA, heldB);
      }
    }

    method SurveyRound(planA: seq<Group>, planB: seq<Group>) returns (error: Option<Error>)
      requires Valid()
      modifies this`tick, this`packets, this`nextId, this`sent, this`windows, this`measured, this`measuredLog,
          this`measurements
      modifies this`sockets, this`live, this`storeA, this`storeB, this`added, this`bootstrapBranches, this`otherBranches
      ensures Valid() && old(sockets) <= sockets && old(storeA) <= storeA && old(storeB) <= storeB
      ensures added == old(added) + |storeA| - |old(storeA)| + |storeB| - |old(storeB)|
      ensures error.None? && added == old(added) ==> AllMeasured(A, planA) && AllMeasured(B, planB)
    {
      error := Observe(A, planA);
      if error.None? {
        ghost var log := measuredLog;
        assert added == old(added) ==> AllMeasured(A, planA);
        error := Observe(B, planB);
        assert log <= measuredLog;
      }
    }

    method BeginRound() returns (error: Option<Error>)
      requires Valid() && iterations < limits.iterations
      modifies this`tick, this`iterations
      ensures Valid() && iterations == old(iterations) + if error.None? then 1 else 0
    {
      error := Check();
      if error.None? {
        iterations := iterations + 1;
      }
    }

    /** Try new pairs; failing that learn from what came back, or measure by plans that are not stale. */
    method Round(infer: (Side, seq<Observation>) -> Prediction) returns (turn: Turn)
      requires Valid() && iterations < limits.iterations
      modifies this
      ensures Valid() && old(sockets) <= sockets && old(iterations) <= iterations
      ensures !turn.Broken? ==> iterations == old(iterations) + 1
      ensures turn.Found? ==> Backed(turn.path)
      ensures turn.Stuck? ==>
                && storeA == old(storeA) && storeB == old(storeB)
                && AllMeasured(A, infer(A, storeA).plan) && AllMeasured(B, infer(B, storeB).plan)
    {
      var error := BeginRound();
      if error.Some? {
        return Broken(error.value);
      }
      var before := added;
      var predictionA, predictionB := infer(A, storeA), infer(B, storeB);
      var path;
      path, error := TryRound(predictionA, predictionB);
      if error.Some? {
        return Broken(error.value);
      }
      if path.Some? {
        return Found(path.value);
      }
      if added > before {
        return Again;
      }
      error := SurveyRound(predictionA.plan, predictionB.plan);
      if error.Some? {
        return Broken(error.value);
      }
      return if added == before then Stuck else Again;
    }

    // -------------------------------------------------------------- the whole run

    function EndingOf(error: Error): Ending {
      match error
      case OutOfBudget => Ending.BudgetExhausted
      case ContextDone => Cancelled
      case NetworkError => ExecutionError
    }

    method OpenPrimaries() returns (error: Option<Error>)
      requires Valid() && sockets == []
      modifies this`tick, this`sockets, this`live
      ensures Valid()
      ensures error.None? ==> Socket(A, localA) in sockets && Socket(B, localB) in sockets
    {
      error := Open(A, localA);
      if error.None? {
        error := Open(B, localB);
      }
    }

    method Rounds(infer: (Side, seq<Observation>) -> Prediction) returns (path: Option<Route>, ending: Ending)
      requires Valid()
      modifies this
      ensures Valid() && old(sockets) <= sockets
      ensures (path.Some? <==> ending.Connected?) && (path.Some? ==> Backed(path.value)) && !ending.Misconfigured?
      ensures ending.NoProgress? ==> AllMeasured(A, infer(A, storeA).plan) && AllMeasured(B, infer(B, storeB).plan)
    {
      while iterations < limits.iterations
        invariant Valid() && old(sockets) <= sockets
        decreases limits.iterations - iterations
      {
        var turn := Round(infer);
        match turn {
          case Found(found) => return Some(found), Ending.Connected;
          case Stuck => return None, Ending.NoProgress;
          case Broken(error) => return None, EndingOf(error);
          case Again =>
        }
      }
      return None, Ending.BudgetExhausted;
    }

    /** The search as a whole. With `refused` the sockets whose closing failed: what stays open is the two primaries of
        a path and nothing else; no budget is exceeded; no pair or measurement was taken twice; the stores have gained
        only samples witnessed in their own window and hold none of a closed socket; a path is what two such samples
        say; and without progress both plans have been measured to the end. */
    method Run(infer: (Side, seq<Observation>) -> Prediction)
      returns (path: Option<Route>, ending: Ending, failed: bool, ghost refused: set<Socket>,
        ghost lastA: seq<Observation>, ghost lastB: seq<Observation>)
      requires Valid() && sockets == [] && iterations == 0
      modifies this
      ensures (path.Some? <==> ending.Connected?) && !ending.Misconfigured?
      ensures live == (if path.Some? then {Socket(A, localA), Socket(B, localB)} else {}) + refused
      ensures (failed <==> refused != {}) && ((forall t: nat :: world(t).ok) ==> !failed)
      ensures Sending() && MeasuredOnce() && TriedOnce() && iterations <= limits.iterations
      ensures Truthful()
      ensures forall o :: o in storeA ==> !LetGo(path.Some?, A, o.local)
      ensures forall o :: o in storeB ==> !LetGo(path.Some?, B, o.local)
      ensures path.Some? ==> Backed(path.value)
      ensures ending.NoProgress? ==> AllMeasured(A, infer(A, lastA).plan) && AllMeasured(B, infer(B, lastB).plan)
    {
      path := None;
      var error := OpenPrimaries();
      if error.Some? {
        ending := if error.value.ContextDone? then Cancelled else ResourceError;
      } else {
        path, ending := Rounds(infer);
      }
      lastA, lastB := storeA, storeB;
      failed, refused := Finish(path);
    }

    method Finish(path: Option<Route>) returns (failed: bool, ghost refused: set<Socket>)
      requires Valid()
      requires path.Some? ==> Socket(A, localA) in sockets && Socket(B, localB) in sockets && Backed(path.value)
      modifies this`tick, this`live, this`storeA, this`storeB
      ensures live == (if path.Some? then {Socket(A, localA), Socket(B, localB)} else {}) + refused
      ensures (failed <==> refused != {}) && ((forall t: nat :: world(t).ok) ==> !failed)
      ensures Sending() && Truthful() && (path.Some? ==> Backed(path.value))
      ensures forall o :: o in storeA ==> !LetGo(path.Some?, A, o.local)
      ensures forall o :: o in storeB ==> !LetGo(path.Some?, B, o.local)
    {
      ghost var heldA, heldB := storeA, storeB;
      failed, refused := Release(path.Some?);
      if path.Some? {
        StillBacked(path.value, heldA, heldB);
      }
      StillOpen(path.Some?, refused);
    }

    lemma StillOpen(keep: bool, refused: set<Socket>)
      requires keep ==> Socket(A, localA) in sockets && Socket(B, localB) in sockets
      requires forall s :: s in refused ==> s in sockets
      requires forall s :: s in live <==> s in sockets && (Keeps(keep, s) || s in refused)
      ensures live == (if keep then {Socket(A, localA), Socket(B, localB)} else {}) + refused
    {
      forall s ensures s in live <==> s in (if keep then {Socket(A, localA), Socket(B, localB)} else {}) + refused {
        assert Keeps(keep, s) ==> s == Socket(s.side, Local(s.side));
      }
    }

    lemma StillBacked(path: Route, heldA: seq<Observation>, heldB: seq<Observation>)
      requires exists a, b ::
                 && Names(path, a, b) && a in heldA && b in heldB
                 && Proven(world, sent, windows, A, a) && Proven(world, sent, windows, B, b)
      requires forall o :: o in heldA && o.local == localA ==> o in storeA
      requires forall o :: o in heldB && o.local == localB ==> o in storeB
      ensures Backed(path)
    {
      var a, b :| Names(path, a, b) && a in heldA && b in heldB
                  && Proven(world, sent, windows, A, a) && Proven(world, sent, windows, B, b);
      assert a.local == localA && b.local == localB;
    }

    ghost predicate NamedBy(path: Route, seenA: seq<Observation>, seenB: seq<Observation>) {
      exists a, b :: a in seenA && b in seenB && Names(path, a, b)
    }

    predicate Names(path: Route, a: Observation, b: Observation) {
      Matching(localA, localB, a, b) && path == Route(localA, localB, a.seen, b.seen)
    }
  }

  /** A search from its configuration: refused if that is invalid, else run until its deadline. */
  method RunSearch(u: Setup, start: Time, world: nat -> Answer, storeA: seq<Observation>, storeB: seq<Observation>,
    infer: (Side, seq<Observation>) -> Prediction)
    returns (engine: SearchEngine?, path: Option<Route>, ending: Ending)
    ensures engine == null <==> !ValidSetup(u)
    ensures ending.Misconfigured? <==> !ValidSetup(u)
    ensures path.Some? <==> ending.Connected?
    ensures engine != null ==>
              && fresh(engine) && engine.limits == u.limits && engine.until == start + u.timeout
              && engine.world == world
              && engine.packets <= u.limits.packets && engine.measurements <= u.limits.measurements
              && engine.iterations <= u.limits.iterations
              && ((forall t: nat :: world(t).ok) ==>
                    engine.live == if path.Some? then {Socket(A, u.localA), Socket(B, u.localB)} else {})
              && Justified(world, engine.sent, engine.windows, A, storeA, engine.storeA)
              && Justified(world, engine.sent, engine.windows, B, storeB, engine.storeB)
  {
    if !ValidSetup(u) {
      return null, None, Misconfigured;
    }
    engine := new SearchEngine(u.localA, u.localB, u.limits, start + u.timeout, world, storeA, storeB);
    var failed;
    ghost var refused, lastA, lastB;
    path, ending, failed, refused, lastA, lastB := engine.Run(infer);
  }

  lemma ForgetAll(samples: seq<Observation>, local: Endpoint)
    ensures forall o :: o in Forget(samples, local) <==> o in samples && o.local != local
  {
    forall o ensures o in Forget(samples, local) <==> o in samples && o.local != local {
      ForgetMembers(samples, local, o);
    }
  }

  lemma {:induction false} ValidIsAdded(store: seq<Observation>, seen: seq<Observation>, o: Observation)
    requires o in seen && ValidObservation(o)
    ensures o in AddAll(store, seen)
  {
    var init, last := seen[..|seen| - 1], seen[|seen| - 1];
    assert seen == init + [last];
    if o in init {
      ValidIsAdded(store, init, o);
    }
  }

  lemma {:induction false} AddedAre(store: seq<Observation>, seen: seq<Observation>)
    ensures forall o :: o in AddAll(store, seen) ==> o in store || o in seen
  {
    if seen != [] {
      AddedAre(store, seen[..|seen| - 1]);
      assert seen == seen[..|seen| - 1] + [seen[|seen| - 1]];
    }
  }
}
