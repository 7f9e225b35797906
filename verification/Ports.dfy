/** UDP port leases (internal/runtime/ports.go): the candidates of a choice, the bounded search for one that binds, and
    leases as identities that a late release cannot confuse. */
module Ports {
  import opened Common

  /** First == 0 is no range, port == 0 no fixed port. */
  datatype PortChoice = PortChoice(first: int, last: int, port: int)

  datatype Outcome = Leased(port: int) | Invalid | Exhausted

  const EPHEMERAL_TRIES: nat := 16

  predicate IsRange(choice: PortChoice) {
    choice.first != 0
  }

  predicate ValidChoice(choice: PortChoice) {
    IsRange(choice) ==> 1 <= choice.first <= choice.last <= 65535
  }

  /** The i-th port of a walk over the range that begins at a random place and goes round. */
  function Walk(choice: PortChoice, start: nat, i: nat): int
    requires ValidChoice(choice) && IsRange(choice)
  {
    choice.first + (start + i) % (choice.last - choice.first + 1)
  }

  function WalkFrom(choice: PortChoice, sticky: int, start: nat, i: nat, n: nat): seq<int>
    requires ValidChoice(choice) && IsRange(choice) && i <= n
    decreases n - i
  {
    if i == n then []
    else
      var port := Walk(choice, start, i);
      (if port != sticky then [port] else []) + WalkFrom(choice, sticky, start, i + 1, n)
  }

  /** The ports to try in order; 0 asks the kernel to choose. */
  function Candidates(choice: PortChoice, sticky: int, start: nat): seq<int>
    requires ValidChoice(choice)
  {
    if IsRange(choice) then
      var n := choice.last - choice.first + 1;
      (if choice.first <= sticky <= choice.last then [sticky] else []) + WalkFrom(choice, sticky, start, 0, n)
    else if choice.port != 0 then [choice.port]
    else (if sticky != 0 then [sticky] else []) + seq(EPHEMERAL_TRIES, _ => 0)
  }

  /** Skipped without asking the kernel. */
  predicate Barred(taken: set<int>, vfpPort: int, port: int) {
    (port != 0 && port == vfpPort) || port in taken
  }

  /** `answer(k)` is what binding the k-th candidate gives: the port bound, or None. */
  function Search(taken: set<int>, vfpPort: int, candidates: seq<int>, k: nat, answer: nat -> Option<int>): Outcome
    requires k <= |candidates|
    decreases |candidates| - k
  {
    if k == |candidates| then Exhausted
    else
      var port := candidates[k];
      if Barred(taken, vfpPort, port) || answer(k).None? then Search(taken, vfpPort, candidates, k + 1, answer)
      else
        var actual := answer(k).value;
        if (port != 0 && actual != port) || actual < 1 || actual > 65535 then Invalid
        else if actual == vfpPort || actual in taken then Search(taken, vfpPort, candidates, k + 1, answer)
        else Leased(actual)
  }

  /** The candidates for which the kernel is asked. */
  function Asked(taken: set<int>, vfpPort: int, candidates: seq<int>): seq<int> {
    if candidates == [] then []
    else
      (if Barred(taken, vfpPort, candidates[0]) then [] else [candidates[0]]) + Asked(taken, vfpPort, candidates[1..])
  }

  // ---------------------------------------------------------------- what a search promises

  lemma {:induction false} LeasedIsFree(taken: set<int>, vfpPort: int, candidates: seq<int>, k: nat,
      answer: nat -> Option<int>)
    requires k <= |candidates|
    ensures
      match Search(taken, vfpPort, candidates, k, answer)
      case Leased(port) =>
        && 1 <= port <= 65535 && port != vfpPort && port !in taken
        && exists i: nat ::
             k <= i < |candidates| && answer(i) == Some(port) && (candidates[i] == port || candidates[i] == 0)
      case _ => true
    decreases |candidates| - k
  {
    if k < |candidates| {
      LeasedIsFree(taken, vfpPort, candidates, k + 1, answer);
    }
  }

  /** Binding gives the port it was asked for, or fails. */
  predicate Faithful(candidates: seq<int>, answer: nat -> Option<int>) {
    forall k: nat | k < |candidates| :: answer(k).Some? ==> answer(k).value == candidates[k]
  }

  /** With a faithful kernel a search fails only after every free candidate was asked for and refused. */
  lemma {:induction false} FailsAfterAll(taken: set<int>, vfpPort: int, candidates: seq<int>, k: nat,
      answer: nat -> Option<int>)
    requires k <= |candidates| && Faithful(candidates, answer) && 0 !in candidates
    requires forall i | 0 <= i < |candidates| :: 1 <= candidates[i] <= 65535
    ensures !Search(taken, vfpPort, candidates, k, answer).Invalid?
    ensures Search(taken, vfpPort, candidates, k, answer).Exhausted? <==>
              forall i: nat | k <= i < |candidates| :: Barred(taken, vfpPort, candidates[i]) || answer(i).None?
    decreases |candidates| - k
  {
    if k < |candidates| {
      FailsAfterAll(taken, vfpPort, candidates, k + 1, answer);
      assert candidates[k] in candidates;
    }
  }

  predicate InRange(choice: PortChoice, port: int) {
    choice.first <= port <= choice.last
  }

  lemma {:induction false} WalkMembers(choice: PortChoice, sticky: int, start: nat, i: nat, n: nat, port: int)
    requires ValidChoice(choice) && IsRange(choice) && i <= n
    ensures port in WalkFrom(choice, sticky, start, i, n)
       <==> port != sticky && exists k: nat :: i <= k < n && Walk(choice, start, k) == port
    decreases n - i
  {
    if i < n {
      WalkMembers(choice, sticky, start, i + 1, n, port);
    }
  }

  lemma AtLeast(q: nat, size: nat, times: nat)
    requires q >= times
    ensures q * size >= times * size
  {
  }

  /** Going round once is taking the size away once. */
  lemma OnceRound(x: nat, size: nat)
    requires x < 2 * size
    ensures x % size == if x < size then x else x - size
  {
    var q, r := x / size, x % size;
    assert x == q * size + r;
    if q >= 2 {
      AtLeast(q, size, 2);
    }
  }

  /** Every place of the range is met within one round. */
  lemma RoundIsComplete(size: nat, start: nat, target: nat) returns (k: nat)
    requires start < size && target < size
    ensures k < size && (start + k) % size == target
  {
    k := if target >= start then target - start else target + size - start;
    OnceRound(start + k, size);
  }

  lemma SameStepSamePlace(size: nat, start: nat, i: nat, j: nat)
    requires start < size && i < size && j < size && (start + i) % size == (start + j) % size
    ensures i == j
  {
    OnceRound(start + i, size);
    OnceRound(start + j, size);
  }

  lemma {:induction false} WalkIsDistinct(choice: PortChoice, sticky: int, start: nat, i: nat, n: nat)
    requires ValidChoice(choice) && IsRange(choice) && i <= n <= choice.last - choice.first + 1
        && start <= choice.last - choice.first
    ensures
      var w := WalkFrom(choice, sticky, start, i, n);
      forall x, y | 0 <= x < y < |w| :: w[x] != w[y]
    decreases n - i
  {
    if i < n {
      WalkIsDistinct(choice, sticky, start, i + 1, n);
      var port, rest := Walk(choice, start, i), WalkFrom(choice, sticky, start, i + 1, n);
      WalkMembers(choice, sticky, start, i + 1, n, port);
      if port in rest {
        var k: nat :| i + 1 <= k < n && Walk(choice, start, k) == port;
        SameStepSamePlace(choice.last - choice.first + 1, start, i, k);
      }
      var w := WalkFrom(choice, sticky, start, i, n);
      forall x, y | 0 <= x < y < |w| ensures w[x] != w[y] {
        if port != sticky {
          assert w[y] == rest[y - 1] && rest[y - 1] in rest;
          if x > 0 {
            assert w[x] == rest[x - 1];
          }
        } else {
          assert w == rest;
        }
      }
    }
  }

  lemma WalkCovers(choice: PortChoice, sticky: int, start: nat, port: int)
    requires ValidChoice(choice) && IsRange(choice) && start <= choice.last - choice.first
    ensures port in WalkFrom(choice, sticky, start, 0, choice.last - choice.first + 1)
        <==> InRange(choice, port) && port != sticky
  {
    var size := choice.last - choice.first + 1;
    WalkMembers(choice, sticky, start, 0, size, port);
    if InRange(choice, port) {
      var k := RoundIsComplete(size, start, port - choice.first);
      assert Walk(choice, start, k) == port;
    }
    forall k: nat | k < size ensures InRange(choice, Walk(choice, start, k)) {
      OnceRound(start + k, size);
    }
  }

  /** A range choice lists every port of the range exactly once, the sticky one first. */
  lemma RangeIsCovered(choice: PortChoice, sticky: int, start: nat)
    requires ValidChoice(choice) && IsRange(choice) && start <= choice.last - choice.first
    ensures
      var c := Candidates(choice, sticky, start);
      && (forall port :: port in c <==> InRange(choice, port))
      && (forall x, y | 0 <= x < y < |c| :: c[x] != c[y])
      && (InRange(choice, sticky) ==> c[0] == sticky)
  {
    var size := choice.last - choice.first + 1;
    var w, c := WalkFrom(choice, sticky, start, 0, size), Candidates(choice, sticky, start);
    WalkIsDistinct(choice, sticky, start, 0, size);
    forall port ensures port in w <==> InRange(choice, port) && port != sticky {
      WalkCovers(choice, sticky, start, port);
    }
    if InRange(choice, sticky) {
      assert c == [sticky] + w;
      forall x, y | 0 <= x < y < |c| ensures c[x] != c[y] {
        assert c[y] == w[y - 1] && w[y - 1] in w;
        if x > 0 {
          assert c[x] == w[x - 1];
        }
      }
    } else {
      assert c == w;
    }
  }

  lemma {:induction false} AskedAre(taken: set<int>, vfpPort: int, candidates: seq<int>)
    requires forall x, y | 0 <= x < y < |candidates| :: candidates[x] != candidates[y]
    ensures
      var a := Asked(taken, vfpPort, candidates);
      && (forall port :: port in a <==> port in candidates && !Barred(taken, vfpPort, port))
      && (forall x, y | 0 <= x < y < |a| :: a[x] != a[y])
  {
    if candidates != [] {
      AskedAre(taken, vfpPort, candidates[1..]);
      var rest := Asked(taken, vfpPort, candidates[1..]);
      var a := Asked(taken, vfpPort, candidates);
      assert candidates == [candidates[0]] + candidates[1..];
      assert candidates[0] !in candidates[1..];
      forall x, y | 0 <= x < y < |a| ensures a[x] != a[y] {
        if !Barred(taken, vfpPort, candidates[0]) {
          assert a[y] == rest[y - 1] && rest[y - 1] in rest;
          if x > 0 {
            assert a[x] == rest[x - 1];
          }
        } else {
          assert a == rest;
        }
      }
    }
  }

  /** With a kernel that binds what it is asked for or refuses, a range choice fails exactly when every free port of the
      range was refused, each having been asked for once. */
  lemma RangeTriesEveryFreePort(choice: PortChoice, sticky: int, start: nat, taken: set<int>, vfpPort: int,
      answer: nat -> Option<int>)
    requires ValidChoice(choice) && IsRange(choice) && start <= choice.last - choice.first
    requires Faithful(Candidates(choice, sticky, start), answer)
    ensures
      var c := Candidates(choice, sticky, start);
      var asked := Asked(taken, vfpPort, c);
      && (forall port :: port in asked <==> InRange(choice, port) && port != vfpPort && port !in taken)
      && (forall x, y | 0 <= x < y < |asked| :: asked[x] != asked[y])
      && !Search(taken, vfpPort, c, 0, answer).Invalid?
      && (Search(taken, vfpPort, c, 0, answer).Exhausted? <==>
            forall i: nat | i < |c| && c[i] in asked :: answer(i).None?)
  {
    var c := Candidates(choice, sticky, start);
    RangeIsCovered(choice, sticky, start);
    AskedAre(taken, vfpPort, c);
    forall i | 0 <= i < |c| ensures 1 <= c[i] <= 65535 {
      assert c[i] in c;
    }
    FailsAfterAll(taken, vfpPort, c, 0, answer);
    var asked := Asked(taken, vfpPort, c);
    forall i: nat | i < |c| ensures c[i] in asked <==> !Barred(taken, vfpPort, c[i]) {
      assert c[i] in c;
    }
  }

  // ---------------------------------------------------------------- the pool and its leases

  class PortLease {
    const port: int

    constructor (port: int)
      ensures this.port == port
    {
      this.port := port;
    }
  }

  class PortPool {
    const vfpPort: int
    var leases: map<int, PortLease>

    constructor (vfpPort: int)
      ensures this.vfpPort == vfpPort && leases == map[]
    {
      this.vfpPort, leases := vfpPort, map[];
    }

    ghost predicate Valid()
      reads this
    {
      && vfpPort !in leases
      && forall p :: p in leases ==> leases[p].port == p && 1 <= p <= 65535
    }

    /** Leases the first candidate that binds. The new lease is a new identity on a port nobody held. */
    method Bind(choice: PortChoice, sticky: int, start: nat, answer: nat -> Option<int>) returns (lease: PortLease?)
      requires Valid() && ValidChoice(choice)
      modifies this
      ensures Valid()
      ensures
        match Search(old(leases).Keys, vfpPort, Candidates(choice, sticky, start), 0, answer)
        case Leased(port) =>
          lease != null && fresh(lease) && lease.port == port && port !in old(leases)
              && leases == old(leases)[port := lease]
        case _ => lease == null && leases == old(leases)
    {
      var candidates := ListCandidates(choice, sticky, start);
      LeasedIsFree(leases.Keys, vfpPort, candidates, 0, answer);
      for k := 0 to |candidates|
        invariant leases == old(leases)
        invariant Search(leases.Keys, vfpPort, candidates, 0, answer)
            == Search(leases.Keys, vfpPort, candidates, k, answer)
      {
        var port := candidates[k];
        if (port != 0 && port == vfpPort) || port in leases {
          continue;
        }
        var bound := answer(k);
        if bound.None? {
          continue;
        }
        var actual := bound.value;
        if (port != 0 && actual != port) || actual < 1 || actual > 65535 {
          return null;
        }
        if actual == vfpPort || actual in leases {
          continue;
        }
        lease := new PortLease(actual);
        leases := leases[actual := lease];
        return lease;
      }
      return null;
    }

    method ListCandidates(choice: PortChoice, sticky: int, start: nat) returns (c: seq<int>)
      requires ValidChoice(choice)
      ensures c == Candidates(choice, sticky, start)
    {
      c := [];
      if choice.first != 0 {
        c := ListRange(choice, sticky, start);
      } else if choice.port != 0 {
        c := [choice.port];
      } else {
        if sticky != 0 {
          c := [sticky];
        }
        c := c + seq(EPHEMERAL_TRIES, _ => 0);
      }
    }

    method ListRange(choice: PortChoice, sticky: int, start: nat) returns (c: seq<int>)
      requires ValidChoice(choice) && IsRange(choice)
      ensures c == Candidates(choice, sticky, start)
    {
      c := [];
      if choice.first <= sticky <= choice.last {
        c := [sticky];
      }
      var n: nat := choice.last - choice.first + 1;
      for i := 0 to n
        invariant Candidates(choice, sticky, start) == c + WalkFrom(choice, sticky, start, i, n)
      {
        var port := choice.first + (start + i) % n;
        var tried: seq<int> := if port != sticky then [port] else [];
        ghost var rest := WalkFrom(choice, sticky, start, i + 1, n);
        assert WalkFrom(choice, sticky, start, i, n) == tried + rest;
        Associative(c, tried, rest);
        c := c + tried;
      }
    }

    /** Only the lease that holds the port frees it: a second or late release changes nothing. */
    method Release(lease: PortLease?)
      requires Valid()
      modifies this
      ensures Valid()
      ensures leases == if lease != null && lease.port in old(leases) && old(leases)[lease.port] == lease
                        then old(leases) - {lease.port} else old(leases)
    {
      if lease != null && lease.port in leases && leases[lease.port] == lease {
        leases := leases - {lease.port};
      }
    }
  }
}
