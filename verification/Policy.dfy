/** Admission policies of peers and the one worker that sends them (internal/runtime/dynamic_policy.go): the stored
    decision, the budgets that packets cannot move, and the round-robin of the sender. */
module Policy {
  import opened Common
  import opened Ascending

  /** Addresses by their order. */
  type Addr = nat
  type Uuid = nat
  type Time = int

  const SECOND: Time := 1_000_000_000
  const RETRY_BASE: Time := 10 * SECOND
  const RETRY_MAX: Time := 300 * SECOND
  const QUERY_INTERVAL: Time := 300 * SECOND
  const UPDATE_INTERVAL: Time := 5 * SECOND
  const MAX_SENDS: nat := 16
  const MAX_TARGETS: nat := 4096

  datatype Decision = Decision(revision: nat, accept: bool)

  datatype Target = Target(
    uid: Option<Uuid>,
    bound: bool,
    failures: nat,
    nextAttempt: Time,
    nextQuery: Time,
    nextUpdate: Time,
    policy: Option<Decision>,
    pendingUpdate: bool,
    pendingQuery: bool,
    reachable: bool,
    lastSeen: Time)

  function NewTarget(now: Time): Target {
    Target(None, false, 0, 0, 0, 0, None, false, false, false, now)
  }

  // ---------------------------------------------------------------- the stored decision

  function Merge(t: Target, p: Option<Decision>): Target {
    if p.None? || p.value.revision == 0 || (t.policy.Some? && p.value.revision <= t.policy.value.revision) then t
    else t.(policy := p, pendingQuery := false)
  }

  function MergeAll(t: Target, ps: seq<Decision>): Target {
    if ps == [] then t else Merge(MergeAll(t, ps[..|ps| - 1]), Some(ps[|ps| - 1]))
  }

  /** The decision is one that was received or held, and nothing received is newer. */
  lemma {:induction false} HighestRevisionWins(t: Target, ps: seq<Decision>)
    ensures
      var last := MergeAll(t, ps).policy;
      && (last == t.policy || (last.Some? && last.value in ps && last.value.revision > 0))
      && (t.policy.Some? ==> last.Some? && last.value.revision >= t.policy.value.revision)
      && (forall p :: p in ps && p.revision > 0 ==> last.Some? && last.value.revision >= p.revision)
  {
    if ps != [] {
      HighestRevisionWins(t, ps[..|ps| - 1]);
      assert ps == ps[..|ps| - 1] + [ps[|ps| - 1]];
    }
  }

  /** A publisher says one thing per revision. */
  ghost predicate OneMeaning(t: Target, ps: seq<Decision>) {
    && (forall p, q :: p in ps && q in ps && p.revision == q.revision ==> p == q)
    && (forall p :: p in ps && t.policy.Some? && p.revision == t.policy.value.revision ==> t.policy.value == p)
  }

  /** However a publisher's decisions are reordered or repeated on the way, the same one ends up stored. */
  lemma ConvergesInAnyOrder(t: Target, ps: seq<Decision>, qs: seq<Decision>)
    requires OneMeaning(t, ps) && forall p :: p in ps <==> p in qs
    ensures MergeAll(t, ps).policy == MergeAll(t, qs).policy
  {
    HighestRevisionWins(t, ps);
    HighestRevisionWins(t, qs);
  }

  /** What a target may spend: the times before which nothing is sent or dialled again. */
  function Budgets(t: Target): (nat, Time, Time, Time) {
    (t.failures, t.nextAttempt, t.nextQuery, t.nextUpdate)
  }

  lemma {:induction false} MergeKeepsBudgets(t: Target, ps: seq<Decision>)
    ensures Budgets(MergeAll(t, ps)) == Budgets(t) && MergeAll(t, ps).pendingUpdate == t.pendingUpdate
  {
    if ps != [] {
      MergeKeepsBudgets(t, ps[..|ps| - 1]);
    }
  }

  // ---------------------------------------------------------------- packets

  datatype Packet = Update(uid: Option<Uuid>, policy: Option<Decision>) | Query(uid: Option<Uuid>)

  datatype Settings = Settings(own: Uuid, stopped: bool, allowsInbound: bool)

  predicate KnownElsewhere(targets: map<Addr, Target>, source: Addr, uid: Uuid) {
    exists a | a in targets :: a != source && targets[a].uid == Some(uid)
  }

  /** From a usable identity that does not contradict what is known of it. */
  predicate Credible(s: Settings, targets: map<Addr, Target>, source: Addr, p: Packet) {
    && p.uid.Some? && p.uid.value != s.own && !s.stopped
    && (source in targets && targets[source].uid.Some? ==> targets[source].uid == p.uid)
    && !KnownElsewhere(targets, source, p.uid.value)
  }

  function Receive(s: Settings, targets: map<Addr, Target>, source: Addr, p: Packet, now: Time): map<Addr, Target> {
    if !Credible(s, targets, source, p) then targets
    else
      match p
      case Update(uid, policy) =>
        if source !in targets || !targets[source].bound || targets[source].uid != uid then targets
        else targets[source := Merge(targets[source], policy)]
      case Query(uid) =>
        if !s.allowsInbound || (source !in targets && |targets| >= MAX_TARGETS) then targets
        else
          var t := if source in targets then targets[source] else NewTarget(now);
          targets[source := t.(uid := uid, lastSeen := now, reachable := true, pendingUpdate := true)]
  }

  ghost predicate UidsAreUnique(targets: map<Addr, Target>) {
    forall a, b :: a in targets && b in targets && a != b && targets[a].uid.Some? ==> targets[a].uid != targets[b].uid
  }

  /** No packet, genuine or not, moves a budget of a known target, takes its identity, or gives two targets one UUID. */
  lemma PacketsAreHarmless(s: Settings, targets: map<Addr, Target>, source: Addr, p: Packet, now: Time)
    requires UidsAreUnique(targets)
    ensures
      var next := Receive(s, targets, source, p, now);
      && UidsAreUnique(next) && targets.Keys <= next.Keys
      && (forall a :: a in targets ==>
            && Budgets(next[a]) == Budgets(targets[a])
            && (targets[a].uid.Some? ==> next[a].uid == targets[a].uid)
            && (a != source ==> next[a] == targets[a]))
  {
  }

  // ---------------------------------------------------------------- the sender

  datatype Sent = SendUpdate(to: Addr, decision: Decision) | SendQuery(to: Addr)

  /** What one tick works with; `jitter(a)` is the random part of the next query time of a. */
  datatype Tick = Tick(now: Time, revision: nat, accept: bool, jitter: Addr -> nat)

  predicate UpdateDue(t: Target, k: Tick) {
    t.pendingUpdate && t.reachable && t.nextUpdate <= k.now && k.revision != 0
  }

  predicate QueryDue(t: Target, k: Tick) {
    t.pendingQuery && t.nextQuery <= k.now && t.bound && t.policy.Some? && !t.policy.value.accept
  }

  /** One visit of the round: an update if one is due, else a query, else nothing. */
  function Visit(a: Addr, t: Target, k: Tick): (Target, Option<Sent>) {
    if UpdateDue(t, k) then
      (t.(pendingUpdate := false, nextUpdate := k.now + UPDATE_INTERVAL),
       Some(SendUpdate(a, Decision(k.revision, k.accept))))
    else if QueryDue(t, k) then
      (t.(pendingQuery := false, nextQuery := k.now + QUERY_INTERVAL + k.jitter(a)), Some(SendQuery(a)))
    else (t, None)
  }

  datatype Round = Round(cursor: nat, targets: map<Addr, Target>, sends: seq<Sent>, visited: nat)

  function Ahead(cursor: nat, n: nat): nat
    requires n > 0
  {
    (cursor % n + 1) % n
  }

  function Continue(keys: seq<Addr>, r: Round, k: Tick): Round
    requires forall i | 0 <= i < |keys| :: keys[i] in r.targets
    decreases |keys| - r.visited
  {
    if r.visited >= |keys| || |r.sends| >= MAX_SENDS then r
    else
      var index := r.cursor % |keys|;
      var (t, sent) := Visit(keys[index], r.targets[keys[index]], k);
      Continue(keys, Round(Ahead(r.cursor, |keys|), r.targets[keys[index] := t],
                           r.sends + if sent.Some? then [sent.value] else [], r.visited + 1), k)
  }

  function Flush(keys: seq<Addr>, cursor: nat, targets: map<Addr, Target>, k: Tick): Round
    requires forall i | 0 <= i < |keys| :: keys[i] in targets
  {
    Continue(keys, Round(cursor, targets, [], 0), k)
  }

  class PolicySender {
    const settings: Settings
    var targets: map<Addr, Target>
    var cursor: nat

    constructor (settings: Settings)
      ensures this.settings == settings && targets == map[] && cursor == 0
    {
      this.settings, targets, cursor := settings, map[], 0;
    }

    method MergePolicy(a: Addr, p: Option<Decision>)
      modifies this`targets
      ensures targets == if a in old(targets) then old(targets)[a := Merge(old(targets)[a], p)] else old(targets)
    {
      if a !in targets || p.None? || p.value.revision == 0 {
        assert a in targets ==> targets == targets[a := targets[a]];
        return;
      }
      var t := targets[a];
      if t.policy.Some? && p.value.revision <= t.policy.value.revision {
        assert targets == targets[a := targets[a]];
        return;
      }
      targets := targets[a := t.(policy := p, pendingQuery := false)];
    }

    method ReceivePolicy(source: Addr, p: Packet, now: Time)
      modifies this`targets
      ensures targets == Receive(settings, old(targets), source, p, now)
    {
      if p.uid.None? || p.uid.value == settings.own || settings.stopped {
        return;
      }
      if source in targets && targets[source].uid.Some? && targets[source].uid != p.uid {
        return;
      }
      if KnownElsewhere(targets, source, p.uid.value) {
        return;
      }
      match p {
        case Update(uid, policy) =>
          if source !in targets || !targets[source].bound || targets[source].uid != uid {
            return;
          }
          MergePolicy(source, policy);
        case Query(uid) =>
          if !settings.allowsInbound {
            return;
          }
          if source !in targets {
            if |targets| >= MAX_TARGETS {
              return;
            }
            targets := targets[source := NewTarget(now)];
          }
          targets := targets[source := targets[source].(uid := uid, lastSeen := now, reachable := true,
                                                        pendingUpdate := true)];
      }
    }

    /** One tick of the single worker over the targets in ascending order. */
    method FlushPolicy(k: Tick) returns (ghost keys: seq<Addr>, sends: seq<Sent>)
      modifies this`targets, this`cursor
      ensures Increasing(keys) && (forall a :: a in keys <==> a in old(targets))
      ensures forall i | 0 <= i < |keys| :: keys[i] in old(targets)
      ensures
        var r := Flush(keys, old(cursor), old(targets), k);
        sends == r.sends && targets == r.targets && cursor == r.cursor
    {
      var order := InOrder(targets.Keys);
      keys := order;
      forall i | 0 <= i < |keys| ensures keys[i] in targets {
        assert keys[i] in keys;
      }
      sends := [];
      var visited := 0;
      ghost var start := Round(cursor, targets, [], 0);
      while visited < |order| && |sends| < MAX_SENDS
        invariant visited <= |order|
        invariant forall i | 0 <= i < |keys| :: keys[i] in targets
        invariant Continue(keys, start, k) == Continue(keys, Round(cursor, targets, sends, visited), k)
        decreases |order| - visited
      {
        var index := cursor % |order|;
        cursor := (index + 1) % |order|;
        var a := order[index];
        var (t, sent) := Visit(a, targets[a], k);
        targets := targets[a := t];
        sends := sends + if sent.Some? then [sent.value] else [];
        visited := visited + 1;
      }
    }
  }

  // ---------------------------------------------------------------- fairness

  /** How far the cursor is from place x of n. */
  function Distance(cursor: nat, x: nat, n: nat): nat
    requires cursor < n && x < n
  {
    if x >= cursor then x - cursor else x + n - cursor
  }

  function After(cursor: nat, n: nat): nat
    requires cursor < n
  {
    if cursor + 1 == n then 0 else cursor + 1
  }

  lemma StepRound(cursor: nat, n: nat)
    requires cursor < n
    ensures cursor % n == cursor && Ahead(cursor, n) == After(cursor, n)
  {
  }

  lemma CloserByOne(cursor: nat, x: nat, n: nat)
    requires cursor < n && x < n && cursor != x
    ensures Distance(After(cursor, n), x, n) == Distance(cursor, x, n) - 1
  {
  }

  /** The round after the visit at the cursor. */
  function Visited(keys: seq<Addr>, r: Round, k: Tick): Round
    requires r.cursor < |keys| && keys[r.cursor] in r.targets
  {
    var a := keys[r.cursor];
    var (t, sent) := Visit(a, r.targets[a], k);
    Round(After(r.cursor, |keys|), r.targets[a := t], r.sends + if sent.Some? then [sent.value] else [], r.visited + 1)
  }

  lemma ContinueOnce(keys: seq<Addr>, r: Round, k: Tick)
    requires forall i | 0 <= i < |keys| :: keys[i] in r.targets
    requires r.cursor < |keys| && r.visited < |keys| && |r.sends| < MAX_SENDS
    ensures forall i | 0 <= i < |keys| :: keys[i] in Visited(keys, r, k).targets
    ensures Continue(keys, r, k) == Continue(keys, Visited(keys, r, k), k)
  {
    StepRound(r.cursor, |keys|);
  }

  /** A tick sends at most sixteen messages, never more than it visits, and leaves a cursor inside the list. */
  lemma {:induction false} RoundIsBounded(keys: seq<Addr>, r: Round, k: Tick)
    requires forall i | 0 <= i < |keys| :: keys[i] in r.targets
    requires |r.sends| <= MAX_SENDS && |r.sends| <= r.visited <= |keys| && r.cursor < |keys|
    ensures
      var last := Continue(keys, r, k);
      && |last.sends| <= MAX_SENDS && |last.sends| <= last.visited <= |keys| && last.cursor < |keys|
      && r.sends <= last.sends && r.visited <= last.visited
      && (last.visited == |keys| || |last.sends| == MAX_SENDS)
      && last.targets.Keys == r.targets.Keys
    decreases |keys| - r.visited
  {
    if !(r.visited >= |keys| || |r.sends| >= MAX_SENDS) {
      ContinueOnce(keys, r, k);
      RoundIsBounded(keys, Visited(keys, r, k), k);
    }
  }

  lemma DueIsSent(keys: seq<Addr>, r: Round, k: Tick)
    requires r.cursor < |keys| && keys[r.cursor] in r.targets && UpdateDue(r.targets[keys[r.cursor]], k)
    ensures SendUpdate(keys[r.cursor], Decision(k.revision, k.accept)) in Visited(keys, r, k).sends
  {
  }

  lemma OthersUntouched(keys: seq<Addr>, r: Round, k: Tick, x: nat)
    requires Increasing(keys) && x < |keys| && r.cursor < |keys| && x != r.cursor
    requires keys[r.cursor] in r.targets && keys[x] in r.targets
    ensures keys[x] in Visited(keys, r, k).targets && Visited(keys, r, k).targets[keys[x]] == r.targets[keys[x]]
  {
  }

  /** A due update is sent when the cursor gets to it; until then every tick brings the cursor closer by what it
      visits. */
  lemma {:induction false} VisitedOrCloser(keys: seq<Addr>, r: Round, k: Tick, x: nat)
    requires Increasing(keys) && x < |keys| && r.cursor < |keys|
    requires forall i | 0 <= i < |keys| :: keys[i] in r.targets
    requires |r.sends| <= MAX_SENDS && |r.sends| <= r.visited <= |keys|
    requires UpdateDue(r.targets[keys[x]], k)
    requires Distance(r.cursor, x, |keys|) < |keys| - r.visited
    ensures
      var last := Continue(keys, r, k);
      || SendUpdate(keys[x], Decision(k.revision, k.accept)) in last.sends
      || (last.cursor < |keys| && |last.sends| == MAX_SENDS
          && Distance(last.cursor, x, |keys|) == Distance(r.cursor, x, |keys|) - (last.visited - r.visited))
    decreases |keys| - r.visited
  {
    if !(r.visited >= |keys| || |r.sends| >= MAX_SENDS) {
      var next := Visited(keys, r, k);
      ContinueOnce(keys, r, k);
      if r.cursor == x {
        DueIsSent(keys, r, k);
        RoundIsBounded(keys, next, k);
        PrefixMember(next.sends, Continue(keys, next, k).sends, SendUpdate(keys[x], Decision(k.revision, k.accept)));
      } else {
        OthersUntouched(keys, r, k, x);
        CloserByOne(r.cursor, x, |keys|);
        VisitedOrCloser(keys, next, k, x);
      }
    }
  }

  lemma PrefixMember(xs: seq<Sent>, ys: seq<Sent>, m: Sent)
    requires xs <= ys && m in xs
    ensures m in ys
  {
    var i :| 0 <= i < |xs| && xs[i] == m;
    assert ys[i] == m;
  }

  /** The cursor before each tick, when the set of targets stays the same; everything else may change between ticks. */
  function CursorAt(keys: seq<Addr>, cursor: nat, states: nat -> map<Addr, Target>, ticks: nat -> Tick, n: nat): nat
    requires forall j: nat, i | j < n && 0 <= i < |keys| :: keys[i] in states(j)
  {
    if n == 0 then cursor
    else Flush(keys, CursorAt(keys, cursor, states, ticks, n - 1), states(n - 1), ticks(n - 1)).cursor
  }

  function SendsAt(keys: seq<Addr>, cursor: nat, states: nat -> map<Addr, Target>, ticks: nat -> Tick,
      n: nat): seq<Sent>
    requires forall j: nat, i | j <= n && 0 <= i < |keys| :: keys[i] in states(j)
  {
    Flush(keys, CursorAt(keys, cursor, states, ticks, n), states(n), ticks(n)).sends
  }

  /** The update of place x goes out in tick j. */
  ghost predicate GoesOut(keys: seq<Addr>, cursor: nat, states: nat -> map<Addr, Target>, ticks: nat -> Tick,
      x: nat, j: nat)
    requires x < |keys| && forall i: nat, y | i <= j && 0 <= y < |keys| :: keys[y] in states(i)
  {
    SendUpdate(keys[x], Decision(ticks(j).revision, ticks(j).accept)) in SendsAt(keys, cursor, states, ticks, j)
  }

  lemma {:induction false} CloserEachTick(keys: seq<Addr>, cursor: nat, states: nat -> map<Addr, Target>,
      ticks: nat -> Tick, x: nat, n: nat)
    requires Increasing(keys) && x < |keys| && cursor < |keys|
    requires forall j: nat, i | j < n && 0 <= i < |keys| :: keys[i] in states(j)
    requires forall j: nat | j < n :: UpdateDue(states(j)[keys[x]], ticks(j))
    requires forall j: nat | j < n :: !GoesOut(keys, cursor, states, ticks, x, j)
    ensures CursorAt(keys, cursor, states, ticks, n) < |keys|
    ensures Distance(CursorAt(keys, cursor, states, ticks, n), x, |keys|) + MAX_SENDS * n <= Distance(cursor, x, |keys|)
  {
    if n > 0 {
      CloserEachTick(keys, cursor, states, ticks, x, n - 1);
      var c, k := CursorAt(keys, cursor, states, ticks, n - 1), ticks(n - 1);
      var r := Round(c, states(n - 1), [], 0);
      RoundIsBounded(keys, r, k);
      VisitedOrCloser(keys, r, k, x);
      assert !GoesOut(keys, cursor, states, ticks, x, n - 1);
    }
  }

  /** A cursor left behind by a longer list is taken round. */
  lemma CursorIsTakenRound(keys: seq<Addr>, cursor: nat, targets: map<Addr, Target>, k: Tick)
    requires keys != [] && forall i | 0 <= i < |keys| :: keys[i] in targets
    ensures Flush(keys, cursor, targets, k) == Flush(keys, cursor % |keys|, targets, k)
  {
    var c := cursor % |keys|;
    assert c % |keys| == c;
    assert Ahead(cursor, |keys|) == Ahead(c, |keys|);
  }

  lemma {:induction false} SameCursors(keys: seq<Addr>, cursor: nat, states: nat -> map<Addr, Target>,
      ticks: nat -> Tick, n: nat)
    requires keys != [] && forall j: nat, i | j < n && 0 <= i < |keys| :: keys[i] in states(j)
    ensures n > 0 ==> CursorAt(keys, cursor, states, ticks, n) == CursorAt(keys, cursor % |keys|, states, ticks, n)
  {
    if n > 0 {
      SameCursors(keys, cursor, states, ticks, n - 1);
      if n == 1 {
        CursorIsTakenRound(keys, cursor, states(0), ticks(0));
      }
    }
  }

  /** With a fixed set of N targets an update that stays due is sent within the next ceil(N/16) ticks, whatever the
      other targets do. */
  lemma UpdatesAreFair(keys: seq<Addr>, cursor: nat, states: nat -> map<Addr, Target>, ticks: nat -> Tick,
      x: nat, n: nat)
    requires Increasing(keys) && x < |keys| && |keys| <= MAX_SENDS * n
    requires forall j: nat, i | j < n && 0 <= i < |keys| :: keys[i] in states(j)
    requires forall j: nat | j < n :: UpdateDue(states(j)[keys[x]], ticks(j))
    ensures exists j: nat :: j < n && GoesOut(keys, cursor, states, ticks, x, j)
  {
    var start := cursor % |keys|;
    if forall j: nat | j < n :: !GoesOut(keys, start, states, ticks, x, j) {
      CloserEachTick(keys, start, states, ticks, x, n);
    }
    var j: nat :| j < n && GoesOut(keys, start, states, ticks, x, j);
    SameCursors(keys, cursor, states, ticks, j);
    CursorIsTakenRound(keys, cursor, states(j), ticks(j));
    assert GoesOut(keys, cursor, states, ticks, x, j);
  }

  /** No tick sends more than sixteen messages. */
  lemma TickIsBounded(keys: seq<Addr>, cursor: nat, targets: map<Addr, Target>, k: Tick)
    requires forall i | 0 <= i < |keys| :: keys[i] in targets
    ensures |Flush(keys, cursor, targets, k).sends| <= MAX_SENDS
  {
    if keys != [] {
      CursorIsTakenRound(keys, cursor, targets, k);
      RoundIsBounded(keys, Round(cursor % |keys|, targets, [], 0), k);
    }
  }

  // ---------------------------------------------------------------- backing off

  function Shifted(n: nat): nat {
    if n == 0 then 1 else 2 * Shifted(n - 1)
  }

  /** `random` is drawn from 0 to a quarter of the base. */
  function RetryDelay(failures: nat, random: nat -> nat): Time {
    var capped := if failures < 6 then failures else 6;
    var base := RETRY_BASE * Shifted(if capped > 0 then capped - 1 else 0);
    var bounded := if base < RETRY_MAX then base else RETRY_MAX;
    bounded + random(bounded / 4)
  }

  /** The pause doubles with each failure from ten seconds to five minutes, and jitter adds at most a quarter. */
  lemma RetryDelayDoubles(failures: nat, random: nat -> nat)
    requires forall limit :: random(limit) <= limit
    ensures
      var base := if failures <= 1 then 10 else if failures == 2 then 20 else if failures == 3 then 40
                  else if failures == 4 then 80 else if failures == 5 then 160 else 300;
      base * SECOND <= RetryDelay(failures, random) <= base * SECOND + base * SECOND / 4
  {
    assert Shifted(1) == 2 && Shifted(2) == 4 && Shifted(3) == 8;
    assert Shifted(4) == 16 && Shifted(5) == 32;
  }
}
