/** The discovery control record (internal/vfp/message/control.go): fixed 45 octets, then length-prefixed endpoints.
    Records that encode and byte strings that decode correspond one to one. */
module VfpControl {
  import opened Common
  import opened Bytes
  import opened Net
  import opened VfpValues

  const CANDIDATES: nat := 1
  const PROBE_REPORT: nat := 2
  const ROUND_DONE: nat := 3
  const WG_READY: nat := 4
  const DISCOVERY_END: nat := 5
  const OBSERVE_OPEN: nat := 6
  const OBSERVE_READY: nat := 7

  datatype Control = Control(
    code: nat, round: nat, sequence: nat, changed: bool, key: seq<Byte>, endpoints: seq<Endpoint>)

  /** The ranges of the record's machine types. */
  predicate SizedControl(c: Control) {
    && c.code < 256 && c.round < 0x1_0000 && c.sequence < REVISIONS && |c.key| == 32
    && forall i | 0 <= i < |c.endpoints| :: SizedEndpoint(c.endpoints[i])
  }

  /** What each code allows in the other fields. */
  predicate Allowed(c: Control) {
    var count, keyZero := |c.endpoints|, AllZero(c.key);
    match c.code
    case CANDIDATES => 1 <= c.round <= 16 && c.sequence == 0 && keyZero
    case PROBE_REPORT => c.round <= 16 && 0 < c.sequence <= 12000 && count == 1 && !c.changed && keyZero
    case ROUND_DONE => 1 <= c.round <= 16 && c.sequence == 0 && (count == 0 || count == 2) && !c.changed && keyZero
    case WG_READY => c.round == 0 && c.sequence == 0 && count == 0 && !c.changed && keyZero
    case DISCOVERY_END => c.round == 0 && c.sequence == 0 && count == 0 && !c.changed && keyZero
    case OBSERVE_OPEN => c.round == 0 && c.sequence == 0 && count == 1 && !c.changed && keyZero
    case OBSERVE_READY => c.round == 0 && c.sequence == 0 && 1 <= count <= 2 && !c.changed && !keyZero
    case _ => false
  }

  /** One endpoint after the octet that gives its length. */
  function PutOne(e: Endpoint): Option<seq<Byte>>
    requires SizedEndpoint(e)
  {
    match EncodeEndpoint(e)
    case None => None
    case Some(v) => Some([|v| % 256] + v)
  }

  function PutEndpoints(es: seq<Endpoint>): Option<seq<Byte>>
    requires forall i | 0 <= i < |es| :: SizedEndpoint(es[i])
  {
    if es == [] then Some([])
    else
      Cons(PutOne(es[0]), PutEndpoints(es[1..]))
  }

  function TakeOne(b: seq<Byte>): (r: Option<(Endpoint, seq<Byte>)>)
    ensures r.Some? ==> SizedEndpoint(r.value.0)
  {
    if b == [] then None
    else
      var n: nat := b[0];
      if |b| - 1 < n then None
      else
        match ParseEndpoint(b[1..n + 1])
        case None => None
        case Some(e) => Some((e, b[n + 1..]))
  }

  /** `count` endpoints from the front of b, and what follows them. */
  function ParseEndpoints(b: seq<Byte>, count: nat): (r: Option<(seq<Endpoint>, seq<Byte>)>)
    ensures r.Some? ==> |r.value.0| == count && forall i | 0 <= i < count :: SizedEndpoint(r.value.0[i])
  {
    if count == 0 then Some(([], b))
    else
      match TakeOne(b)
      case None => None
      case Some((e, left)) => Before(e, ParseEndpoints(left, count - 1))
  }

  function Before(e: Endpoint, r: Option<(seq<Endpoint>, seq<Byte>)>): Option<(seq<Endpoint>, seq<Byte>)> {
    if r.None? then None else Some(([e] + r.value.0, r.value.1))
  }

  function Head(c: Control): (b: seq<Byte>)
    requires SizedControl(c) && |c.endpoints| <= 32
    ensures |b| == 45
  {
    [c.code] + PutUint(c.round, 2) + PutUint(c.sequence, 8) + [if c.changed then 1 else 0] + c.key + [|c.endpoints|]
  }

  function EncodeControl(c: Control): Option<seq<Byte>>
    requires SizedControl(c)
  {
    if |c.endpoints| > 32 then None
    else
      match PutEndpoints(c.endpoints)
      case None => None
      case Some(tail) => if DecodeControl(Head(c) + tail).None? then None else Some(Head(c) + tail)
  }

  function DecodeControl(b: seq<Byte>): (r: Option<Control>)
  {
    if |b| < 45 || b[11] > 1 || b[44] > 32 then None
    else
      match ParseEndpoints(b[45..], b[44])
      case None => None
      case Some((es, rest)) =>
        var c := Control(b[0], Uint(b[1..3]), Uint(b[3..11]), b[11] == 1, b[12..44], es);
        if rest != [] || !Allowed(c) then None else Some(c)
  }

  // ---------------------------------------------------------------- the two directions

  lemma OneRead(e: Endpoint, rest: seq<Byte>)
    requires SizedEndpoint(e) && PutOne(e).Some?
    ensures TakeOne(PutOne(e).value + rest) == Some((e, rest))
  {
    var v := EncodeEndpoint(e).value;
    EndpointInverse(e, v);
    var b := PutOne(e).value + rest;
    assert b[1..|v| + 1] == v && b[|v| + 1..] == rest;
  }

  lemma OneWritten(b: seq<Byte>)
    requires TakeOne(b).Some?
    ensures PutOne(TakeOne(b).value.0).Some? && b == PutOne(TakeOne(b).value.0).value + TakeOne(b).value.1
  {
    var n: nat := b[0];
    EndpointInverse(TakeOne(b).value.0, b[1..n + 1]);
    assert b == [b[0]] + b[1..n + 1] + b[n + 1..];
  }

  lemma {:induction false} EndpointsRead(es: seq<Endpoint>, rest: seq<Byte>)
    requires forall i | 0 <= i < |es| :: SizedEndpoint(es[i])
    requires PutEndpoints(es).Some?
    ensures ParseEndpoints(PutEndpoints(es).value + rest, |es|) == Some((es, rest))
  {
    if es == [] {
      assert [] + rest == rest;
    } else {
      var first, tail := PutOne(es[0]).value, PutEndpoints(es[1..]).value;
      Regroup(first, tail, rest);
      OneRead(es[0], tail + rest);
      EndpointsRead(es[1..], rest);
      assert ParseEndpoints(first + (tail + rest), |es|) == Before(es[0], Some((es[1..], rest)));
      assert [es[0]] + es[1..] == es;
    }
  }

  lemma {:induction false} EndpointsWritten(b: seq<Byte>, count: nat)
    requires ParseEndpoints(b, count).Some?
    ensures
      var (es, rest) := ParseEndpoints(b, count).value;
      PutEndpoints(es).Some? && b == PutEndpoints(es).value + rest
  {
    if count == 0 {
      assert [] + b == b;
    } else {
      OneWritten(b);
      var (e, left) := TakeOne(b).value;
      EndpointsWritten(left, count - 1);
      var es := ParseEndpoints(b, count).value.0;
      assert es[0] == e && es[1..] == ParseEndpoints(left, count - 1).value.0;
    }
  }

  lemma HeadReads(c: Control, tail: seq<Byte>)
    requires SizedControl(c) && |c.endpoints| <= 32
    ensures
      var b := Head(c) + tail;
      && b[0] == c.code && Uint(b[1..3]) == c.round && Uint(b[3..11]) == c.sequence
      && b[11] == (if c.changed then 1 else 0) && b[12..44] == c.key && b[44] == |c.endpoints| && b[45..] == tail
  {
    var b := Head(c) + tail;
    assert b[1..3] == PutUint(c.round, 2) && b[3..11] == PutUint(c.sequence, 8);
    ShortRoundTrip(c.round);
    EightOctets();
    UintOfPut(c.sequence, 8);
  }

  lemma HeadWritten(b: seq<Byte>, c: Control)
    requires DecodeControl(b) == Some(c)
    ensures SizedControl(c) && |c.endpoints| <= 32 && Head(c) == b[..45]
  {
    PutOfUint(b[1..3]);
    PutOfUint(b[3..11]);
    PortFits(b[1..3]);
    EightOctets();
    assert b[..45] == [b[0]] + b[1..3] + b[3..11] + [b[11]] + b[12..44] + [b[44]];
  }

  /** Control records are in one-to-one correspondence with their accepted byte strings. */
  lemma ControlInverse(c: Control, b: seq<Byte>)
    requires SizedControl(c)
    ensures EncodeControl(c) == Some(b) <==> DecodeControl(b) == Some(c)
  {
    if EncodeControl(c) == Some(b) {
      var tail := PutEndpoints(c.endpoints).value;
      HeadReads(c, tail);
      EndpointsRead(c.endpoints, []);
      assert tail + [] == tail;
    }
    if DecodeControl(b) == Some(c) {
      HeadWritten(b, c);
      EndpointsWritten(b[45..], b[44]);
      var tail := PutEndpoints(c.endpoints).value;
      assert tail + [] == tail;
      assert b == b[..45] + b[45..];
    }
  }

  /** A record encodes exactly when its code allows its fields and each endpoint is valid. */
  lemma EncodesIff(c: Control)
    requires SizedControl(c)
    ensures EncodeControl(c).Some? <==>
              |c.endpoints| <= 32 && Allowed(c) && forall i | 0 <= i < |c.endpoints| :: AllowedEndpoint(c.endpoints[i])
  {
    EndpointsEncodeIff(c.endpoints);
    if |c.endpoints| <= 32 && PutEndpoints(c.endpoints).Some? {
      var tail := PutEndpoints(c.endpoints).value;
      HeadReads(c, tail);
      EndpointsRead(c.endpoints, []);
      assert tail + [] == tail;
      var b := Head(c) + tail;
      assert DecodeControl(b) == if Allowed(c) then Some(c) else None;
    }
  }

  lemma {:induction false} EndpointsEncodeIff(es: seq<Endpoint>)
    requires forall i | 0 <= i < |es| :: SizedEndpoint(es[i])
    ensures PutEndpoints(es).Some? <==> forall i | 0 <= i < |es| :: AllowedEndpoint(es[i])
  {
    if es != [] {
      EndpointsEncodeIff(es[1..]);
      assert forall i | 0 < i < |es| :: es[i] == es[1..][i - 1];
    }
  }

  /** What is decoded always fits its machine types. */
  lemma DecodedIsSized(b: seq<Byte>)
    ensures DecodeControl(b).Some? ==>
        SizedControl(DecodeControl(b).value) && EncodeControl(DecodeControl(b).value) == Some(b)
  {
    if DecodeControl(b).Some? {
      HeadWritten(b, DecodeControl(b).value);
      ControlInverse(DecodeControl(b).value, b);
    }
  }

  // ---------------------------------------------------------------- the buffer and the slice

  /** The fixed part, written into a buffer of 45 octets in place. */
  method WriteHead(c: Control) returns (b: seq<Byte>)
    requires SizedControl(c) && |c.endpoints| <= 32
    ensures b == Head(c)
  {
    var head := new Byte[45](_ => 0);
    assert head[..] == Zeros(45);
    head[0] := c.code;
    Put(head, 1, PutUint(c.round, 2));
    assert head[..] == [c.code] + PutUint(c.round, 2) + Zeros(42);
    Put(head, 3, PutUint(c.sequence, 8));
    assert head[..] == [c.code] + PutUint(c.round, 2) + PutUint(c.sequence, 8) + Zeros(34);
    if c.changed {
      head[11] := 1;
    }
    Put(head, 12, c.key);
    head[44] := |c.endpoints|;
    b := head[..];
    assert b[..11] == [c.code] + PutUint(c.round, 2) + PutUint(c.sequence, 8);
    assert b == b[..11] + [b[11]] + b[12..44] + [b[44]];
  }

  /** Overwrites the octets at an offset. */
  method Put(b: array<Byte>, at: nat, value: seq<Byte>)
    requires at + |value| <= b.Length
    modifies b
    ensures b[..] == old(b[..at]) + value + old(b[at + |value|..])
  {
    for i := 0 to |value|
      invariant b[..at + i] == old(b[..at]) + value[..i] && b[at + i..] == old(b[at + i..])
    {
      b[at + i] := value[i];
      assert b[..at + i + 1] == b[..at + i] + [value[i]];
      assert value[..i + 1] == value[..i] + [value[i]];
    }
    assert b[..] == b[..at + |value|] + b[at + |value|..];
  }

  function Joined(b: seq<Byte>, tail: Option<seq<Byte>>): Option<seq<Byte>> {
    if tail.None? then None else Some(b + tail.value)
  }

  function Cons(first: Option<seq<Byte>>, rest: Option<seq<Byte>>): Option<seq<Byte>> {
    if first.None? || rest.None? then None else Some(first.value + rest.value)
  }

  lemma JoinedCons(b: seq<Byte>, first: Option<seq<Byte>>, rest: Option<seq<Byte>>)
    ensures Joined(b, Cons(first, rest)) == if first.None? then None else Joined(b + first.value, rest)
  {
    if first.Some? && rest.Some? {
      assert b + (first.value + rest.value) == b + first.value + rest.value;
    }
  }

  method WriteEndpoints(head: seq<Byte>, es: seq<Endpoint>) returns (r: Option<seq<Byte>>)
    requires forall i | 0 <= i < |es| :: SizedEndpoint(es[i])
    ensures r == Joined(head, PutEndpoints(es))
  {
    var b := head;
    for i := 0 to |es|
      invariant Joined(head, PutEndpoints(es)) == Joined(b, PutEndpoints(es[i..]))
    {
      assert es[i..][1..] == es[i + 1..];
      JoinedCons(b, PutOne(es[i]), PutEndpoints(es[i + 1..]));
      var v := EncodeEndpoint(es[i]);
      if v.None? {
        return None;
      }
      var length: Byte := |v.value| % 256;
      assert b + ([length] + v.value) == b + [length] + v.value;
      b := b + [length] + v.value;
    }
    assert b + [] == b;
    return Some(b);
  }

  method Write(c: Control) returns (r: Option<seq<Byte>>)
    requires SizedControl(c)
    ensures r == EncodeControl(c)
  {
    if |c.endpoints| > 32 {
      return None;
    }
    var head := WriteHead(c);
    r := WriteEndpoints(head, c.endpoints);
    if r.Some? && DecodeControl(r.value).None? {
      return None;
    }
  }

  method ReadEndpoints(data: seq<Byte>, count: nat) returns (r: Option<(seq<Endpoint>, seq<Byte>)>)
    ensures r == ParseEndpoints(data, count)
  {
    var es: seq<Endpoint>, b := [], data;
    JoinNothing(ParseEndpoints(data, count));
    for i := 0 to count
      invariant ParseEndpoints(data, count) == Join(es, ParseEndpoints(b, count - i))
    {
      var one := TakeOne(b);
      if one.None? {
        return None;
      }
      var (e, left) := one.value;
      JoinOne(es, e, ParseEndpoints(left, count - i - 1));
      es, b := es + [e], left;
    }
    assert es + [] == es;
    return Some((es, b));
  }

  method ReadControl(data: seq<Byte>) returns (r: Option<Control>)
    ensures r == DecodeControl(data)
  {
    if |data| < 45 || data[11] > 1 || data[44] > 32 {
      return None;
    }
    var parsed := ReadEndpoints(data[45..], data[44]);
    if parsed.None? {
      return None;
    }
    var c := Control(data[0], Uint(data[1..3]), Uint(data[3..11]), data[11] == 1, data[12..44], parsed.value.0);
    if parsed.value.1 != [] || !Allowed(c) {
      return None;
    }
    return Some(c);
  }

  function Join(es: seq<Endpoint>, r: Option<(seq<Endpoint>, seq<Byte>)>): Option<(seq<Endpoint>, seq<Byte>)> {
    if r.None? then None else Some((es + r.value.0, r.value.1))
  }

  lemma JoinOne(es: seq<Endpoint>, e: Endpoint, r: Option<(seq<Endpoint>, seq<Byte>)>)
    ensures Join(es, Before(e, r)) == Join(es + [e], r)
  {
    if r.Some? {
      assert es + ([e] + r.value.0) == es + [e] + r.value.0;
    }
  }

  lemma JoinNothing(r: Option<(seq<Endpoint>, seq<Byte>)>)
    ensures Join([], r) == r
  {
    if r.Some? {
      assert [] + r.value.0 == r.value.0;
    }
  }
}
