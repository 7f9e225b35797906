/** What comes of an unfinished agreement in every order of starting, connecting and reading: it ends confirmed at both
    nodes unless each was drawn away from its own exchange, and then at neither. */
module DurableCrossing {
  import opened Common
  import opened Net
  import opened DurableTimers
  import opened Durable
  import opened DurableResume

  // ---------------------------------------------------------------- both ends at once

  datatype Views = Views(left: View, right: View)

  function ViewAt(s: Views, side: Side): View {
    if side.Left? then s.left else s.right
  }

  function WithView(s: Views, side: Side, v: View): Views {
    if side.Left? then s.(left := v) else s.(right := v)
  }

  function FirstView(u: Setup, side: Side): View {
    var m, peer := Of(u, side).start, Peer(u, side);
    View(Free, false, peer in m.records, peer in m.records && m.records[peer].confirmed, Unsent, false, false)
  }

  /** A node reads what the other sent on the other's session. */
  function ReadOther(reader: View, opener: View): (View, View) {
    match opener.stage
    case Asked =>
      (reader.(spot := Taken, held := true, drawn := reader.drawn || (!reader.stage.Unsent? && !reader.answered)),
       opener.(stage := Told))
    case Echoed =>
      (if reader.spot.Taken? then reader.(spot := Free, confirmed := true) else reader, opener.(stage := Over))
    case _ => (reader, opener)
  }

  /** A node reads the SAVED on its own session. */
  function ReadOwn(v: View): View {
    if !v.stage.Told? then v
    else if v.spot.Own? then v.(spot := Free, confirmed := true, stage := Echoed, answered := true)
    else v.(stage := Over, answered := true)
  }

  function StepViews(s: Views, e: Event): Views {
    match e
    case Tick(side, _) => WithView(s, side, TickView(ViewAt(s, side)))
    case Connect(side, _) => WithView(s, side, ConnectView(ViewAt(s, side)))
    case Read(session, reader, _, _) =>
      if session == reader then WithView(s, reader, ReadOwn(ViewAt(s, reader)))
      else
        var (v, w) := ReadOther(ViewAt(s, reader), ViewAt(s, session));
        WithView(WithView(s, reader, v), session, w)
  }

  function RunViews(u: Setup, events: seq<Event>): Views {
    if events == [] then Views(FirstView(u, Left), FirstView(u, Right))
    else StepViews(RunViews(u, events[..|events| - 1]), events[|events| - 1])
  }

  // ---------------------------------------------------------------- what every order keeps

  /** The exchange on its own session was not abandoned by this end. */
  predicate Won(v: View) {
    v.answered && !v.drawn
  }

  predicate Coherent(v: View, w: View) {
    && (v.spot.Dialled? ==> v.dial) && (v.dial ==> v.stage.Unsent?)
    && (v.stage.Unsent? ==> !v.answered && !v.drawn)
    && (v.stage.Asked? || v.stage.Told? ==> !v.answered && (v.drawn || v.spot.Own?))
    && (v.stage.Echoed? || v.stage.Over? ==> v.answered)
    && (v.spot.Own? ==> (v.stage.Asked? || v.stage.Told?) && !v.drawn)
    && (v.spot.Taken? ==> w.stage.Told? || w.stage.Echoed? || w.stage.Over?)
    && (w.stage.Told? || w.stage.Echoed? ==> v.spot.Taken?)
    && (v.drawn ==> !w.stage.Unsent? && !w.stage.Asked?)
    && (v.spot.Dialled? || v.spot.Own? || v.spot.Taken? || !v.stage.Unsent? || v.dial ==> v.held)
    && (v.stage.Echoed? ==> v.confirmed && !v.drawn)
    && (v.stage.Over? && !v.drawn ==> v.confirmed && w.confirmed)
    && ((!v.stage.Unsent? || v.dial) && v.confirmed ==> Won(v) || Won(w))
    && (v.confirmed ==> v.held) && (v.spot.Free? && (!v.stage.Unsent? || v.dial) ==> v.confirmed)
  }

  predicate BothCoherent(s: Views) {
    Coherent(s.left, s.right) && Coherent(s.right, s.left)
  }

  lemma TickCoherent(v: View, w: View)
    requires Coherent(v, w) && Coherent(w, v)
    ensures Coherent(TickView(v), w) && Coherent(w, TickView(v))
  {
  }

  lemma ConnectCoherent(v: View, w: View)
    requires Coherent(v, w) && Coherent(w, v)
    ensures Coherent(ConnectView(v), w) && Coherent(w, ConnectView(v))
  {
  }

  lemma ReadOwnCoherent(v: View, w: View)
    requires Coherent(v, w) && Coherent(w, v)
    ensures Coherent(ReadOwn(v), w) && Coherent(w, ReadOwn(v))
  {
  }

  lemma ReadOtherCoherent(v: View, w: View)
    requires Coherent(v, w) && Coherent(w, v)
    ensures var (r, o) := ReadOther(v, w); Coherent(r, o) && Coherent(o, r)
  {
  }

  lemma StepCoherent(s: Views, e: Event)
    requires BothCoherent(s)
    ensures BothCoherent(StepViews(s, e))
  {
    match e {
      case Tick(side, _) => TickCoherent(ViewAt(s, side), ViewAt(s, Other(side)));
      case Connect(side, _) => ConnectCoherent(ViewAt(s, side), ViewAt(s, Other(side)));
      case Read(session, reader, _, _) =>
        if session == reader {
          ReadOwnCoherent(ViewAt(s, reader), ViewAt(s, Other(reader)));
        } else {
          ReadOtherCoherent(ViewAt(s, reader), ViewAt(s, session));
        }
    }
  }

  // ---------------------------------------------------------------- the nodes really do that

  ghost predicate SeesBoth(u: Setup, p: Pair, s: Views) {
    Sees(u, Left, p.left, s.left) && Sees(u, Right, p.right, s.right)
  }

  /** One end reads its own session and answers on it. */
  lemma HalfReadsOwn(u: Setup, side: Side, h: Half, v: View, loopback: Option<Address>, env: Env)
    requires BothReady(u) && PartyReady(u, side) && Sees(u, side, h, v) && Working(env) && InTime(u, env.now)
    requires v.stage.Told? && (v.drawn || v.spot.Own?)
    ensures
      var a := Of(u, side);
      var o := HandleLink(a.cfg, h.m, a.plan, a.link.remote, a.session, loopback, h.back[0], env);
      Sees(u, side, Advanced(Learned(h, true, h.back[0], o.m), true, o.out), ReadOwn(v))
  {
    if v.spot.Own? {
      SavedConfirms(u, side, h, v, loopback, env);
    } else {
      SavedIsStale(u, side, h, v, side, loopback, env);
    }
  }

  lemma ReadOwnSeen(u: Setup, p: Pair, s: Views, e: Event)
    requires BothReady(u) && SeesBoth(u, p, s) && BothCoherent(s) && e.Read? && e.session == e.reader
        && Undisturbed(u, e)
    ensures SeesBoth(u, Step(u, p, e), StepViews(s, e))
  {
    var side, a := e.reader, Of(u, e.reader);
    var h, v := At(p, side), ViewAt(s, side);
    assert Sees(u, side, h, v) && PartyReady(u, side);
    if h.back == [] {
      assert Step(u, p, e) == p && StepViews(s, e) == s;
    } else {
      assert v.stage.Told?;
      HalfReadsOwn(u, side, h, v, e.loopback, e.env);
      var o := HandleLink(a.cfg, h.m, a.plan, a.link.remote, a.session, e.loopback, h.back[0], e.env);
      assert Step(u, p, e) == With(p, side, Advanced(Learned(h, true, h.back[0], o.m), true, o.out));
    }
  }

  /** One end reads the other's session. */
  lemma HalfReadsOther(u: Setup, side: Side, h: Half, v: View, opener: View, message: Message,
      loopback: Option<Address>, env: Env)
    requires BothReady(u) && PartyReady(u, side) && Sees(u, side, h, v) && Working(env) && InTime(u, env.now)
    requires (opener.stage.Asked? && IsProposal(u, message))
        || (opener.stage.Echoed? && message == Saved(u.id) && v.spot.Taken?)
    ensures
      var a := Of(u, side);
      var o := HandleLink(a.cfg, h.m, a.plan, a.link.remote, Of(u, Other(side)).session, loopback, message, env);
      && Sees(u, side, Learned(h, false, message, o.m), ReadOther(v, opener).0)
      && o.out == if opener.stage.Asked? then Some(Saved(u.id)) else None
  {
    if opener.stage.Asked? {
      ProposalTaken(u, side, h, v, message, loopback, env);
    } else {
      SavedConfirms(u, side, h, v, loopback, env);
    }
  }

  /** The session it read from moves on. */
  lemma OpenerMoves(u: Setup, side: Side, h: Half, v: View, reader: View, answer: Option<Message>)
    requires Sees(u, side, h, v) && (v.stage.Asked? || v.stage.Echoed?)
    requires answer == if v.stage.Asked? then Some(Saved(u.id)) else None
    ensures Sees(u, side, Advanced(h, false, answer), ReadOther(reader, v).1)
  {
  }

  lemma ReadOtherSeen(u: Setup, p: Pair, s: Views, e: Event)
    requires BothReady(u) && SeesBoth(u, p, s) && BothCoherent(s) && e.Read? && e.session != e.reader
        && Undisturbed(u, e)
    ensures SeesBoth(u, Step(u, p, e), StepViews(s, e))
  {
    var side, a, session := e.reader, Of(u, e.reader), e.session;
    var h, v, g, w := At(p, side), ViewAt(s, side), At(p, session), ViewAt(s, session);
    assert session == Other(side) && Sees(u, side, h, v) && Sees(u, session, g, w) && PartyReady(u, side);
    assert Coherent(v, w);
    if g.out == [] {
      assert Step(u, p, e) == p && StepViews(s, e) == s;
    } else {
      HalfReadsOther(u, side, h, v, w, g.out[0], e.loopback, e.env);
      var o := HandleLink(a.cfg, h.m, a.plan, a.link.remote, Of(u, session).session, e.loopback, g.out[0], e.env);
      OpenerMoves(u, session, g, w, v, o.out);
      assert Step(u, p, e) == With(With(p, side, Learned(h, false, g.out[0], o.m)), session, Advanced(g, false, o.out));
    }
  }

  /** A step of one end leaves the other as it is seen. */
  lemma OneSideSeen(u: Setup, p: Pair, s: Views, side: Side, h: Half, v: View)
    requires SeesBoth(u, p, s) && Sees(u, side, h, v)
    ensures SeesBoth(u, With(p, side, h), WithView(s, side, v))
  {
  }

  lemma SideFacts(u: Setup, p: Pair, s: Views, side: Side)
    requires BothReady(u) && SeesBoth(u, p, s) && BothCoherent(s)
    ensures PartyReady(u, side) && Sees(u, side, At(p, side), ViewAt(s, side))
    ensures ViewAt(s, side).spot.Dialled? ==> ViewAt(s, side).dial && ViewAt(s, side).stage.Unsent?
  {
  }

  lemma TickStepSeen(u: Setup, p: Pair, s: Views, side: Side, env: Env)
    requires BothReady(u) && SeesBoth(u, p, s) && BothCoherent(s) && Undisturbed(u, Tick(side, env))
    ensures SeesBoth(u, Step(u, p, Tick(side, env)), StepViews(s, Tick(side, env)))
  {
    SideFacts(u, p, s, side);
    TickSeen(u, side, At(p, side), ViewAt(s, side), env);
    OneSideSeen(u, p, s, side, Ticked(Of(u, side), At(p, side), env), TickView(ViewAt(s, side)));
  }

  lemma ConnectStepSeen(u: Setup, p: Pair, s: Views, side: Side, loopback: Option<Address>)
    requires BothReady(u) && SeesBoth(u, p, s) && BothCoherent(s)
    ensures SeesBoth(u, Step(u, p, Connect(side, loopback)), StepViews(s, Connect(side, loopback)))
  {
    SideFacts(u, p, s, side);
    ConnectSeen(u, side, At(p, side), ViewAt(s, side), loopback);
    OneSideSeen(u, p, s, side, Connected(Of(u, side), At(p, side), loopback), ConnectView(ViewAt(s, side)));
  }

  lemma StepSeen(u: Setup, p: Pair, s: Views, e: Event)
    requires BothReady(u) && SeesBoth(u, p, s) && BothCoherent(s) && Undisturbed(u, e)
    ensures SeesBoth(u, Step(u, p, e), StepViews(s, e))
  {
    match e {
      case Tick(side, env) => TickStepSeen(u, p, s, side, env);
      case Connect(side, loopback) => ConnectStepSeen(u, p, s, side, loopback);
      case Read(session, reader, _, _) =>
        if session == reader {
          ReadOwnSeen(u, p, s, e);
        } else {
          ReadOtherSeen(u, p, s, e);
        }
    }
  }

  /** Every run of the two nodes goes as the views say. */
  lemma {:induction false} RunSeen(u: Setup, events: seq<Event>)
    requires BothReady(u) && AllUndisturbed(u, events)
    ensures SeesBoth(u, Run(u, events), RunViews(u, events)) && BothCoherent(RunViews(u, events))
  {
    if events != [] {
      var before, e := events[..|events| - 1], events[|events| - 1];
      RunSeen(u, before);
      StepSeen(u, Run(u, before), RunViews(u, before), e);
      StepCoherent(RunViews(u, before), e);
    }
  }

  // ---------------------------------------------------------------- results

  ghost predicate BothConfirmed(u: Setup, p: Pair) {
    ConfirmedHere(p.left.m, Peer(u, Left), u.id) && ConfirmedHere(p.right.m, Peer(u, Right), u.id)
  }

  ghost predicate BothUnconfirmed(u: Setup, p: Pair) {
    && Resumes(p.left.m, Peer(u, Left), u.id) && !p.left.m.records[Peer(u, Left)].confirmed
    && Resumes(p.right.m, Peer(u, Right), u.id) && !p.right.m.records[Peer(u, Right)].confirmed
  }

  /** Once everything sent has been read, in any order, the agreement is confirmed at both ends, in memory and on disk,
      if and only if not both ends read the other's proposal before the SAVED that answers their own; if both did, both
      still hold it and neither has confirmed it. */
  lemma CrossingStallsIff(u: Setup, events: seq<Event>)
    requires BothReady(u) && AllUndisturbed(u, events) && Settled(Run(u, events))
    requires Run(u, events).left.sent || Run(u, events).right.sent
    ensures
      var p := Run(u, events);
      && (BothConfirmed(u, p) <==> !(p.left.drawn && p.right.drawn))
      && (p.left.drawn && p.right.drawn ==> BothUnconfirmed(u, p))
  {
    RunSeen(u, events);
    var p, s := Run(u, events), RunViews(u, events);
    Settles(u, p, s);
  }

  lemma Settles(u: Setup, p: Pair, s: Views)
    requires SeesBoth(u, p, s) && BothCoherent(s) && Settled(p) && (p.left.sent || p.right.sent)
    ensures BothConfirmed(u, p) <==> !(p.left.drawn && p.right.drawn)
    ensures p.left.drawn && p.right.drawn ==> BothUnconfirmed(u, p)
  {
    assert s.left.stage.Unsent? || s.left.stage.Over?;
    assert s.right.stage.Unsent? || s.right.stage.Over?;
  }

  /** So an exchange that only one end starts, whether the other holds the agreement or has never heard of it, confirms
      it at both. */
  lemma ResumeCompletes(u: Setup, events: seq<Event>, side: Side)
    requires BothReady(u) && AllUndisturbed(u, events) && Settled(Run(u, events))
    requires At(Run(u, events), side).sent && !At(Run(u, events), Other(side)).sent
    ensures BothConfirmed(u, Run(u, events))
  {
    RunSeen(u, events);
    CrossingStallsIff(u, events);
  }

  // ---------------------------------------------------------------- both outcomes happen

  function Calm(now: Time): Env {
    Env(now, true, false, true, None, Stored, Stored, true, true, true)
  }

  /** Both ends start and connect. */
  function Opening(u: Setup): seq<Event> {
    [Tick(Left, Calm(u.from)), Tick(Right, Calm(u.from)), Connect(Left, None), Connect(Right, None)]
  }

  function Reading(u: Setup, session: Side, reader: Side): Event {
    Read(session, reader, None, Calm(u.from))
  }

  /** Each end reads the other's proposal first. */
  function StallingOrder(u: Setup): seq<Event> {
    Opening(u) + [Reading(u, Right, Left), Reading(u, Left, Right), Reading(u, Left, Left), Reading(u, Right, Right)]
  }

  /** The right end reads the SAVED that answers its own proposal before the left end's proposal. */
  function FinishingOrder(u: Setup): seq<Event> {
    Opening(u) + [Reading(u, Right, Left), Reading(u, Right, Right), Reading(u, Right, Left), Reading(u, Left, Right),
                  Reading(u, Left, Left)]
  }

  ghost predicate BothHoldUnconfirmed(u: Setup) {
    && BothReady(u) && u.from < u.until && HoldsAtStart(u, Left) && HoldsAtStart(u, Right)
    && !u.left.start.records[Peer(u, Left)].confirmed && !u.right.start.records[Peer(u, Right)].confirmed
  }

  lemma Further(u: Setup, events: seq<Event>, k: nat)
    requires k < |events|
    ensures RunViews(u, events[..k + 1]) == StepViews(RunViews(u, events[..k]), events[k])
  {
    assert events[..k + 1][..k] == events[..k];
  }

  const OPENED := View(Own, false, true, false, Asked, false, false)

  lemma OpeningViews(u: Setup)
    requires BothHoldUnconfirmed(u)
    ensures RunViews(u, Opening(u)) == Views(OPENED, OPENED)
  {
    var es := Opening(u);
    var idle := View(Free, false, true, false, Unsent, false, false);
    var dialled := idle.(spot := Dialled, dial := true);
    assert RunViews(u, es[..0]) == Views(idle, idle);
    Further(u, es, 0);
    assert RunViews(u, es[..1]) == Views(dialled, idle);
    Further(u, es, 1);
    assert RunViews(u, es[..2]) == Views(dialled, dialled);
    Further(u, es, 2);
    assert RunViews(u, es[..3]) == Views(OPENED, dialled);
    Further(u, es, 3);
    assert es[..4] == es;
  }

  const STUCK := View(Taken, false, true, false, Over, true, true)

  lemma StallingViews(u: Setup)
    requires BothHoldUnconfirmed(u)
    ensures RunViews(u, StallingOrder(u)) == Views(STUCK, STUCK)
  {
    OpeningViews(u);
    var es := StallingOrder(u);
    var drawn := OPENED.(spot := Taken, drawn := true);
    assert es[..4] == Opening(u);
    Further(u, es, 4);
    assert RunViews(u, es[..5]) == Views(drawn, OPENED.(stage := Told));
    Further(u, es, 5);
    assert RunViews(u, es[..6]) == Views(drawn.(stage := Told), drawn.(stage := Told));
    Further(u, es, 6);
    assert RunViews(u, es[..7]) == Views(STUCK, drawn.(stage := Told));
    Further(u, es, 7);
    assert es[..8] == es;
  }

  const WON := View(Free, false, true, true, Echoed, true, false)

  lemma FinishingViews(u: Setup)
    requires BothHoldUnconfirmed(u)
    ensures RunViews(u, FinishingOrder(u))
         == Views(View(Free, false, true, true, Over, true, true), WON.(stage := Over, spot := Taken))
  {
    OpeningViews(u);
    var es := FinishingOrder(u);
    var drawn := OPENED.(spot := Taken, drawn := true);
    var done := View(Free, false, true, true, Asked, false, true);
    assert es[..4] == Opening(u);
    Further(u, es, 4);
    assert RunViews(u, es[..5]) == Views(drawn, OPENED.(stage := Told));
    Further(u, es, 5);
    assert RunViews(u, es[..6]) == Views(drawn, WON);
    Further(u, es, 6);
    assert RunViews(u, es[..7]) == Views(done, WON.(stage := Over));
    Further(u, es, 7);
    assert RunViews(u, es[..8]) == Views(done.(stage := Told), WON.(stage := Over, spot := Taken));
    Further(u, es, 8);
    assert es[..9] == es;
  }

  /** Whenever both ends hold the agreement unconfirmed there is an order in which they stall and one in which they
      finish, in each of which both start before either has read anything. */
  lemma BothOutcomesHappen(u: Setup)
    requires BothHoldUnconfirmed(u)
    ensures
      && AllUndisturbed(u, StallingOrder(u)) && Settled(Run(u, StallingOrder(u)))
      && BothUnconfirmed(u, Run(u, StallingOrder(u)))
      && AllUndisturbed(u, FinishingOrder(u)) && Settled(Run(u, FinishingOrder(u)))
      && BothConfirmed(u, Run(u, FinishingOrder(u)))
  {
    StallingViews(u);
    FinishingViews(u);
    RunSeen(u, StallingOrder(u));
    RunSeen(u, FinishingOrder(u));
    CrossingStallsIff(u, StallingOrder(u));
    CrossingStallsIff(u, FinishingOrder(u));
  }

  // ---------------------------------------------------------------- it ends

  /** Messages still to be read, with the answers they can get. */
  function Ahead(v: View): nat {
    match v.stage
    case Unsent => 3
    case Asked => 3
    case Told => 2
    case Echoed => 1
    case Over => 0
  }

  predicate Takes(p: Pair, e: Event) {
    e.Read? && Inbox(At(p, e.session), e.session == e.reader) != []
  }

  function Taking(u: Setup, events: seq<Event>): nat {
    if events == [] then 0
    else Taking(u, events[..|events| - 1]) + if Takes(Run(u, events[..|events| - 1]), events[|events| - 1])
        then 1 else 0
  }

  /** Whether the view has a message for that reader on its session. */
  predicate HasMail(v: View, own: bool) {
    if own then v.stage.Told? else v.stage.Asked? || v.stage.Echoed?
  }

  lemma MailSeen(u: Setup, side: Side, h: Half, v: View, own: bool)
    requires Sees(u, side, h, v)
    ensures Inbox(h, own) != [] <==> HasMail(v, own)
  {
  }

  lemma TakingShortens(s: Views, e: Event)
    requires BothCoherent(s)
    ensures
      var takes := e.Read? && HasMail(ViewAt(s, e.session), e.session == e.reader);
      Ahead(StepViews(s, e).left) + Ahead(StepViews(s, e).right) + (if takes then 1 else 0)
          <= Ahead(s.left) + Ahead(s.right)
  {
  }

  /** At most three messages are read on each session. */
  lemma {:induction false} ExchangeIsShort(u: Setup, events: seq<Event>)
    requires BothReady(u) && AllUndisturbed(u, events)
    ensures Taking(u, events) + Ahead(RunViews(u, events).left) + Ahead(RunViews(u, events).right) <= 6
  {
    if events != [] {
      var before, e := events[..|events| - 1], events[|events| - 1];
      ExchangeIsShort(u, before);
      RunSeen(u, before);
      if e.Read? {
        SideFacts(u, Run(u, before), RunViews(u, before), e.session);
        MailSeen(u, e.session, At(Run(u, before), e.session), ViewAt(RunViews(u, before), e.session),
                 e.session == e.reader);
      }
      TakingShortens(RunViews(u, before), e);
    }
  }
}
