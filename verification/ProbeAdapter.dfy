/** The UDP attempt that drives one node's discovery over a routed session: waiting for a barrier, the probing
    window, and what its reports prove (internal/runtime/dynamic_probe.go). */
module ProbeAdapter {
  import opened Ascending
  import opened Common
  import opened Net
  import opened Discovery
  import opened DiscoveryPair

  const MAX_PACKETS: nat := 12000
  const REPEATS: nat := 5

  /** What a select of the probing window may yield before its timer does. */
  datatype Happening =
    | Arrived(round: nat, destination: Endpoint, source: Endpoint)
    | Controlled(control: Control)
    | ContextDone

  datatype Outcome = Going | Elapsed | Failed(error: StopError) | BudgetSpent | SendRefused

  // ---------------------------------------------------------------- waiting for a barrier

  datatype Barrier = OffersOf(round: nat) | PathOf(round: nat) | ReadyToReceive

  predicate Matches(after: Barrier, c: Control) {
    match after
    case OffersOf(r) => c.Candidates? && c.round == r
    case PathOf(r) => c.RoundDone? && c.round == r
    case ReadyToReceive => c.WGReady?
  }

  /** The message waited for and how many were read to get it; a finished context is a cancellation. */
  function WaitFor(after: Barrier, pending: Option<Control>,
      inbox: seq<Control>): (r: (Result<Control, StopError>, nat))
    ensures r.1 <= |inbox|
  {
    match pending
    case Some(c) => (if Matches(after, c) then Ok(c) else Err(UnexpectedPending), 0)
    case None =>
      if inbox == [] then (Err(Cancelled), 0)
      else if inbox[0].DiscoveryEnd? then (Err(PeerEnded), 1)
      else if Matches(after, inbox[0]) then (Ok(inbox[0]), 1)
      else if !inbox[0].ProbeReport? then (Err(UnexpectedPhase), 1)
      else var (r, used) := WaitFor(after, None, inbox[1..]); (r, used + 1)
  }

  function TakeEach(params: Params, local: Endpoint, n: Node, cs: seq<Control>): Node
    decreases |cs|
  {
    if cs == [] then n else TakeEach(params, local, Take(params, local, n, cs[0]), cs[1..])
  }

  /** The barrier a waiting node of the pair model is after. */
  function AfterOf(n: Node): Barrier
    requires Waits(n)
  {
    match n.phase
    case AwaitCandidates => OffersOf(n.round)
    case AwaitDone => PathOf(n.round)
    case AwaitReady => ReadyToReceive
  }

  /** Waiting as the code does it is what a waiting node of the pair model does with the same messages. */
  lemma {:induction false} WaitIsTake(params: Params, local: Endpoint, n: Node, inbox: seq<Control>)
    requires Waits(n)
    ensures
      var (r, used) := WaitFor(AfterOf(n), n.pending, inbox);
      var free := n.(pending := None);
      && used <= |inbox|
      && (match r
          case Ok(c) =>
            Proceed(params, local, free, c)
            == if n.pending.Some? then Resume(params, local, n) else TakeEach(params, local, n, inbox[..used])
          case Err(Cancelled) => TakeEach(params, local, n, inbox[..used]) == n && used == |inbox| && n.pending.None?
          case Err(e) =>
            Stop(free, e)
            == if n.pending.Some? then Resume(params, local, n) else TakeEach(params, local, n, inbox[..used]))
  {
    if n.pending.None? {
      assert n.(pending := None) == n;
      if inbox != [] {
        var used := WaitFor(AfterOf(n), n.pending, inbox).1;
        assert used >= 1;
        assert inbox[..used][0] == inbox[0] && inbox[..used][1..] == inbox[1..used];
        if !inbox[0].DiscoveryEnd? && !Matches(AfterOf(n), inbox[0]) && inbox[0].ProbeReport? {
          WaitIsTake(params, local, n, inbox[1..]);
          assert inbox[1..][..used - 1] == inbox[1..used];
          assert Take(params, local, n, inbox[0]) == n;
        } else {
          assert used == 1 && inbox[1..used] == [];
          assert TakeEach(params, local, n, inbox[..1]) == Take(params, local, n, inbox[0]);
        }
      }
    }
  }

  // ---------------------------------------------------------------- one collection

  /** The barrier set aside, the reports by sequence number and the probes that came in. */
  datatype Collected = Collected(pending: Option<Control>, received: map<nat, Endpoint>, incoming: seq<Arrival>)

  /** `sent` gives the destination of each probe of this window by sequence number. */
  predicate HasReturn(sent: map<nat, Endpoint>, w: Collected) {
    exists id | id in w.received && id in sent ::
      Arrival(w.received[id], sent[id]) in w.incoming
  }

  function Note(round: nat, sent: map<nat, Endpoint>, w: Collected, h: Happening): (Collected, Outcome) {
    match h
    case ContextDone => (w, Failed(Cancelled))
    case Arrived(r, destination, source) =>
      (if r == round then w.(incoming := w.incoming + [Arrival(destination, source)]) else w, Going)
    case Controlled(c) =>
      if c.DiscoveryEnd? then (w, Failed(PeerEnded))
      else if c.RoundDone? && c.round == round then
        if w.pending.Some? then (w, Failed(DuplicateBarrier)) else (w.(pending := Some(c)), Going)
      else if !c.ProbeReport? then (w, Failed(UnexpectedControl))
      else if c.sequence in sent && c.round == round then
        (w.(received := w.received[c.sequence := c.seen]), Going)
      else (w, Going)
  }

  /** Collect until a path is known (if asked), an error, or the end of the events, where the timer fires. */
  function Collect(round: nat, sent: map<nat, Endpoint>, w: Collected, events: seq<Happening>, stopOnPath: bool)
    : (r: (Collected, Outcome, nat))
    ensures r.2 <= |events|
    decreases |events|
  {
    if (stopOnPath && HasReturn(sent, w)) || events == [] then (w, Elapsed, 0)
    else
      var (next, outcome) := Note(round, sent, w, events[0]);
      if outcome.Going? then
        var (last, end, used) := Collect(round, sent, next, events[1..], stopOnPath);
        (last, end, used + 1)
      else (next, outcome, 1)
  }

  function Controls(events: seq<Happening>): seq<Control> {
    if events == [] then []
    else (if events[0].Controlled? then [events[0].control] else []) + Controls(events[1..])
  }

  /** A node of the pair model that read `cs` while probing ends up where the window says. */
  ghost predicate TookThem(params: Params, local: Endpoint, n: Node, cs: seq<Control>, pending: Option<Control>,
      outcome: Outcome)
  {
    TakeEach(params, local, n, cs)
    == match outcome
       case Failed(e) => if e.Cancelled? then n.(pending := pending) else Stop(n.(pending := pending), e)
       case _ => n.(pending := pending)
  }

  lemma NoteIsTake(params: Params, local: Endpoint, n: Node, sent: map<nat, Endpoint>, w: Collected, h: Happening)
    requires n.phase.Probing? && n.pending == w.pending
    ensures
      var (next, outcome) := Note(n.round, sent, w, h);
      && (outcome.Going? || outcome.Failed?)
      && TookThem(params, local, n, Controls([h]), next.pending, outcome)
  {
    assert n.(pending := w.pending) == n;
    assert Controls([h]) == if h.Controlled? then [h.control] else [];
    if h.Controlled? {
      assert TakeEach(params, local, n, [h.control]) == Take(params, local, n, h.control);
    }
  }

  lemma {:induction false} TakeEachConcat(params: Params, local: Endpoint, n: Node, cs: seq<Control>, ds: seq<Control>)
    ensures TakeEach(params, local, n, cs + ds) == TakeEach(params, local, TakeEach(params, local, n, cs), ds)
    decreases |cs|
  {
    if cs == [] {
      assert cs + ds == ds;
    } else {
      assert (cs + ds)[1..] == cs[1..] + ds;
      TakeEachConcat(params, local, Take(params, local, n, cs[0]), cs[1..], ds);
    }
  }

  lemma ControlsFirst(events: seq<Happening>)
    requires events != []
    ensures Controls(events) == Controls([events[0]]) + Controls(events[1..])
  {
  }

  /** The window's handling of control messages is what a probing node of the pair model does with them. */
  lemma {:induction false} CollectIsTake(params: Params, local: Endpoint, n: Node, sent: map<nat, Endpoint>,
      w: Collected,
    events: seq<Happening>, stopOnPath: bool)
    requires n.phase.Probing? && n.pending == w.pending
    ensures
      var (last, end, used) := Collect(n.round, sent, w, events, stopOnPath);
      && (end.Elapsed? || end.Failed?)
      && TookThem(params, local, n, Controls(events[..used]), last.pending, end)
    decreases |events|
  {
    var (last, end, used) := Collect(n.round, sent, w, events, stopOnPath);
    if used == 0 {
      assert events[..0] == [] && n.(pending := last.pending) == n;
    } else {
      var (next, outcome) := Note(n.round, sent, w, events[0]);
      NoteIsTake(params, local, n, sent, w, events[0]);
      ControlsFirst(events[..used]);
      if outcome.Going? {
        CollectIsTake(params, local, n.(pending := next.pending), sent, next, events[1..], stopOnPath);
        assert events[..used][1..] == events[1..][..used - 1];
        TakeEachConcat(params, local, n, Controls([events[0]]), Controls(events[1..][..used - 1]));
      } else {
        assert events[..used] == [events[0]];
      }
    }
  }

  /** A report counts only for a probe of this window and round, an arrival only for this round. */
  ghost predicate Evidence(round: nat, sent: map<nat, Endpoint>, events: seq<Happening>, w: Collected) {
    && (forall id :: id in w.received ==>
          id in sent && Controlled(ProbeReport(round, id, w.received[id])) in events)
    && (forall a :: a in w.incoming ==> Arrived(round, a.destination, a.source) in events)
  }

  lemma NoteIsEvidence(round: nat, sent: map<nat, Endpoint>, w: Collected, seen: seq<Happening>, h: Happening)
    requires Evidence(round, sent, seen, w)
    ensures Evidence(round, sent, seen + [h], Note(round, sent, w, h).0)
  {
  }

  lemma {:induction false} CollectIsEvidence(round: nat, sent: map<nat, Endpoint>, w: Collected, seen: seq<Happening>,
    events: seq<Happening>, stopOnPath: bool)
    requires Evidence(round, sent, seen, w)
    ensures Evidence(round, sent, seen + events, Collect(round, sent, w, events, stopOnPath).0)
    decreases |events|
  {
    if !((stopOnPath && HasReturn(sent, w)) || events == []) {
      var (next, outcome) := Note(round, sent, w, events[0]);
      NoteIsEvidence(round, sent, w, seen, events[0]);
      if outcome.Going? {
        CollectIsEvidence(round, sent, next, seen + [events[0]], events[1..], stopOnPath);
        assert seen + [events[0]] + events[1..] == seen + events;
      }
    }
  }

  // ---------------------------------------------------------------- reports in sequence order

  function ObservationsOf(local: Endpoint, sent: map<nat, Endpoint>, received: map<nat, Endpoint>,
      ids: seq<nat>): seq<Observation>
  {
    if ids == [] then []
    else
      var id := ids[|ids| - 1];
      var before := ObservationsOf(local, sent, received, ids[..|ids| - 1]);
      if id !in sent || id !in received || !ValidObservation(Observation(local, sent[id], received[id])) then before
      else before + [Observation(local, sent[id], received[id])]
  }

  lemma {:induction false} ObservationsAre(local: Endpoint, sent: map<nat, Endpoint>, received: map<nat, Endpoint>,
      ids: seq<nat>, o: Observation)
    ensures o in ObservationsOf(local, sent, received, ids)
       <==> ValidObservation(o) && exists id ::
           id in ids && id in sent && id in received && o == Observation(local, sent[id], received[id])
  {
    if ids != [] {
      ObservationsAre(local, sent, received, ids[..|ids| - 1], o);
      assert ids == ids[..|ids| - 1] + [ids[|ids| - 1]];
      if o in ObservationsOf(local, sent, received, ids)
          && o !in ObservationsOf(local, sent, received, ids[..|ids| - 1]) {
        assert ids[|ids| - 1] in ids;
      }
    }
  }

  /** The valid observations of the reported probes, in the order they were sent; the map's own order does not
      matter. */
  method NormalizeReports(local: Endpoint, sent: map<nat, Endpoint>, received: map<nat, Endpoint>)
    returns (out: seq<Observation>)
    ensures forall ids :: Increasing(ids) && (forall k :: k in ids <==> k in received) ==>
              out == ObservationsOf(local, sent, received, ids)
    ensures forall o :: o in out <==>
              ValidObservation(o) && exists id ::
                  id in sent && id in received && o == Observation(local, sent[id], received[id])
  {
    var ids := InOrder(received.Keys);
    out := [];
    for i := 0 to |ids|
      invariant out == ObservationsOf(local, sent, received, ids[..i])
    {
      assert ids[..i + 1][..i] == ids[..i];
      var id := ids[i];
      assert id in ids;
      if id in sent {
        var o := Observation(local, sent[id], received[id]);
        if ValidObservation(o) {
          out := out + [o];
        }
      }
    }
    assert ids[..|ids|] == ids;
    forall other | Increasing(other) && (forall k :: k in other <==> k in received)
      ensures out == ObservationsOf(local, sent, received, other)
    {
      OneAscendingOrder(ids, other);
    }
    forall o
      ensures o in out <==>
        ValidObservation(o) && exists id ::
            id in sent && id in received && o == Observation(local, sent[id], received[id])
    {
      ObservationsAre(local, sent, received, ids, o);
    }
  }

  // ---------------------------------------------------------------- the attempt

  class UdpAttempt {
    const primary: Endpoint
    var sequence: nat
    var pending: Option<Control>

    constructor (primary: Endpoint)
      ensures this.primary == primary && sequence == 0 && pending.None?
    {
      this.primary, sequence, pending := primary, 0, None;
    }

    method Wait(after: Barrier, inbox: seq<Control>) returns (r: Result<Control, StopError>, used: nat)
      modifies this`pending
      ensures (r, used) == WaitFor(after, old(pending), inbox)
      ensures pending.None?
    {
      if pending.Some? {
        var c := pending.value;
        pending := None;
        return if Matches(after, c) then Ok(c) else Err(UnexpectedPending), 0;
      }
      used := 0;
      while used < |inbox|
        invariant used <= |inbox| && pending.None?
        invariant WaitFor(after, None, inbox)
               == var (last, count) := WaitFor(after, None, inbox[used..]); (last, count + used)
      {
        var c := inbox[used];
        assert inbox[used..][0] == c && inbox[used..][1..] == inbox[used + 1..];
        used := used + 1;
        if c.DiscoveryEnd? {
          return Err(PeerEnded), used;
        }
        if Matches(after, c) {
          return Ok(c), used;
        }
        if !c.ProbeReport? {
          return Err(UnexpectedPhase), used;
        }
      }
      return Err(Cancelled), used;
    }

    method CollectRound(round: nat, sent: map<nat, Endpoint>, received: map<nat, Endpoint>, incoming: seq<Arrival>,
      events: seq<Happening>, stopOnPath: bool)
      returns (w: Collected, outcome: Outcome)
      modifies this`pending
      ensures (w, outcome) == (var (last, end, _) :=
                               Collect(round, sent, Collected(old(pending), received, incoming), events, stopOnPath);
                               (last, end))
      ensures pending == w.pending
      ensures outcome.Elapsed? || outcome.Failed?
    {
      w := Collected(pending, received, incoming);
      ghost var start := w;
      var i := 0;
      while i < |events|
        invariant i <= |events| && pending == w.pending
        invariant var (last, end, _) := Collect(round, sent, start, events, stopOnPath);
                  var (later, same, _) := Collect(round, sent, w, events[i..], stopOnPath);
                  last == later && end == same
      {
        if stopOnPath && HasReturn(sent, w) {
          return w, Elapsed;
        }
        assert events[i..][0] == events[i] && events[i..][1..] == events[i + 1..];
        w, outcome := Note(round, sent, w, events[i]).0, Note(round, sent, w, events[i]).1;
        pending := w.pending;
        if !outcome.Going? {
          return;
        }
        i := i + 1;
      }
      return w, Elapsed;
    }

    /** One pass over the candidates; each probe gets the next sequence number. */
    method SendPass(endpoints: seq<Endpoint>, ghost start: nat, ghost pass: nat, before: map<nat, Endpoint>,
        sendOk: nat -> bool)
      returns (sent: map<nat, Endpoint>, outcome: Outcome)
      requires sequence == start + pass * |endpoints| <= MAX_PACKETS
      requires Numbered(endpoints, start, sequence, before)
      modifies this`sequence
      ensures outcome.Going? || outcome.BudgetSpent? || outcome.SendRefused?
      ensures outcome.Going? ==>
                sequence == old(sequence) + |endpoints| <= MAX_PACKETS && Numbered(endpoints, start, sequence, sent)
      ensures outcome.BudgetSpent? ==> old(sequence) + |endpoints| > MAX_PACKETS
      ensures old(sequence) <= sequence <= MAX_PACKETS + 1
    {
      sent := before;
      for j := 0 to |endpoints|
        invariant sequence == start + pass * |endpoints| + j <= MAX_PACKETS
        invariant Numbered(endpoints, start, sequence, sent)
      {
        sequence := sequence + 1;
        if sequence > MAX_PACKETS {
          return sent, BudgetSpent;
        }
        if !sendOk(sequence) {
          return sent, SendRefused;
        }
        assert Slot(endpoints, start, sequence, pass, j);
        sent := sent[sequence := endpoints[j]];
      }
      return sent, Going;
    }

    /** One probing window: five passes over the candidates, then a wait for late reports. `windows(k)` is what
        happens during the k-th collection and `sendOk(s)` whether sealing and sending probe s works. An observation
        returned is a report of this round on a probe that this window sent to that very candidate; an arrival
        returned came in during this window. */
    method Try(round: nat, endpoints: seq<Endpoint>, windows: nat -> seq<Happening>, sendOk: nat -> bool)
      returns (observations: seq<Observation>, incoming: seq<Arrival>, outcome: Outcome)
      requires sequence <= MAX_PACKETS
      modifies this
      ensures outcome.Elapsed? || outcome.Failed? || outcome.BudgetSpent? || outcome.SendRefused?
      ensures outcome.Elapsed? ==> sequence == old(sequence) + REPEATS * |endpoints| <= MAX_PACKETS
      ensures outcome.BudgetSpent? ==> old(sequence) + REPEATS * |endpoints| > MAX_PACKETS
      ensures old(sequence) <= sequence <= MAX_PACKETS + 1
      ensures outcome.Elapsed? ==> forall o :: o in observations ==>
                ValidObservation(o) && o.local == primary
                    && Proven(round, endpoints, old(sequence), sequence, windows, o)
      ensures outcome.Elapsed? ==> forall a :: a in incoming ==>
                exists k: nat :: k <= REPEATS && Arrived(round, a.destination, a.source) in windows(k)
      ensures !outcome.Elapsed? ==> observations == [] && incoming == []
    {
      var sent: map<nat, Endpoint> := map[];
      var w := Collected(pending, map[], []);
      observations, incoming, outcome := [], [], Going;
      ghost var start, past := sequence, [];
      for repeat := 0 to REPEATS
        invariant sequence == start + repeat * |endpoints| <= MAX_PACKETS && pending == w.pending
        invariant Numbered(endpoints, start, sequence, sent)
        invariant Evidence(round, sent, past, w) && During(windows, repeat, past)
      {
        var now, sending := SendPass(endpoints, start, repeat, sent, sendOk);
        if !sending.Going? {
          PassesFit(repeat, |endpoints|);
          return [], [], sending;
        }
        assert Evidence(round, now, past, w);
        sent := now;
        CollectIsEvidence(round, sent, w, past, windows(repeat), false);
        w, outcome := CollectRound(round, sent, w.received, w.incoming, windows(repeat), false);
        if !outcome.Elapsed? {
          return [], [], outcome;
        }
        past := past + windows(repeat);
      }
      outcome := Elapsed;
      if sent != map[] {
        CollectIsEvidence(round, sent, w, past, windows(REPEATS), true);
        w, outcome := CollectRound(round, sent, w.received, w.incoming, windows(REPEATS), true);
        if !outcome.Elapsed? {
          return [], [], outcome;
        }
        past := past + windows(REPEATS);
      }
      observations := NormalizeReports(primary, sent, w.received);
      incoming := w.incoming;
      forall o | o in observations ensures Proven(round, endpoints, start, sequence, windows, o) {
        var id :| id in sent && id in w.received && o == Observation(primary, sent[id], w.received[id]);
        assert Controlled(ProbeReport(round, id, o.seen)) in past;
        assert ReportedOn(round, endpoints, start, windows, o, id);
      }
    }
  }

  /** Probe `id` of the window is the j-th of its pass. */
  ghost predicate Slot(endpoints: seq<Endpoint>, start: nat, id: nat, pass: nat, j: nat) {
    j < |endpoints| && id == start + pass * |endpoints| + j + 1
  }

  ghost predicate SentTo(endpoints: seq<Endpoint>, start: nat, id: nat, destination: Endpoint) {
    exists pass: nat, j: nat :: Slot(endpoints, start, id, pass, j) && endpoints[j] == destination
  }

  /** The probes of this window are numbered start + 1 to last, each sent to the candidate of its place in a pass. */
  ghost predicate Numbered(endpoints: seq<Endpoint>, start: nat, last: nat, sent: map<nat, Endpoint>) {
    && (forall id :: id in sent <==> start < id <= last)
    && (forall id :: id in sent ==> SentTo(endpoints, start, id, sent[id]))
  }

  ghost predicate During(windows: nat -> seq<Happening>, passes: nat, past: seq<Happening>) {
    forall h :: h in past ==> exists k: nat :: k < passes && h in windows(k)
  }

  ghost predicate ReportedOn(round: nat, endpoints: seq<Endpoint>, start: nat, windows: nat -> seq<Happening>,
      o: Observation, id: nat) {
    && SentTo(endpoints, start, id, o.remote)
    && exists k: nat :: k <= REPEATS && Controlled(ProbeReport(round, id, o.seen)) in windows(k)
  }

  ghost predicate Proven(round: nat, endpoints: seq<Endpoint>, start: nat, last: nat, windows: nat -> seq<Happening>,
      o: Observation) {
    exists id: nat :: start < id <= last && ReportedOn(round, endpoints, start, windows, o, id)
  }

  lemma PassesFit(pass: nat, n: nat)
    requires pass < REPEATS
    ensures (pass + 1) * n == pass * n + n <= REPEATS * n
  {
    assert (REPEATS - pass) * n >= n;
  }
}
