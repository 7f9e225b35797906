/** Type-length-value bodies (internal/tlv/tlv.go): the cursor that walks one, the writer that appends to one, and why
    bodies and lists of values are the same thing. */
module Tlv {
  import opened Common
  import opened Bytes

  type Kind = n: nat | n < 0x1_0000

  datatype View = View(kind: Kind, value: seq<Byte>)

  /** The value fits its length field. */
  predicate ValidView(v: View) {
    |v.value| < 0x1_0000
  }

  /** Two octets hold a type code. */
  function KindOf(b: seq<Byte>): Kind
    requires |b| == 2
  {
    PutOfUint(b);
    assert Capacity(2) == 256 * Capacity(1);
    Uint(b)
  }

  /** One TLV as bytes; a longer value would wrap its length field. */
  function EncodeTlv(v: View): (b: seq<Byte>)
    ensures |b| == 4 + |v.value|
  {
    PutUint(v.kind, 2) + PutUint(|v.value| % 0x1_0000, 2) + v.value
  }

  function Serialize(vs: seq<View>): seq<Byte> {
    if vs == [] then [] else EncodeTlv(vs[0]) + Serialize(vs[1..])
  }

  /** The first TLV and the rest; None is a malformed body. */
  function Split(body: seq<Byte>): (r: Option<(View, seq<Byte>)>)
    requires body != []
    ensures r.Some? ==> |r.value.1| < |body|
  {
    if |body| < 4 || Uint(body[2..4]) > |body| - 4 then None
    else
      var end := 4 + Uint(body[2..4]);
      Some((View(KindOf(body[..2]), body[4..end]), body[end..]))
  }

  function Parse(body: seq<Byte>): Option<seq<View>>
    decreases |body|
  {
    if body == [] then Some([])
    else
      match Split(body)
      case None => None
      case Some((v, rest)) =>
        match Parse(rest)
        case None => None
        case Some(vs) => Some([v] + vs)
  }

  // ---------------------------------------------------------------- one TLV

  lemma TwoOctets(n: nat)
    requires n < 0x1_0000
    ensures Uint(PutUint(n, 2)) == n
  {
    assert Capacity(2) == 0x1_0000 by {
      assert Capacity(1) == 256;
    }
    UintOfPut(n, 2);
  }

  lemma SplitOfEncode(v: View, rest: seq<Byte>)
    requires ValidView(v)
    ensures Split(EncodeTlv(v) + rest) == Some((v, rest))
  {
    var b := EncodeTlv(v) + rest;
    TwoOctets(v.kind);
    TwoOctets(|v.value|);
    assert b[..2] == PutUint(v.kind, 2);
    assert b[2..4] == PutUint(|v.value|, 2);
    assert b[4..4 + |v.value|] == v.value;
    assert b[4 + |v.value|..] == rest;
  }

  lemma EncodeOfSplit(body: seq<Byte>)
    requires body != [] && Split(body).Some?
    ensures ValidView(Split(body).value.0)
    ensures EncodeTlv(Split(body).value.0) + Split(body).value.1 == body
  {
    var (v, rest) := Split(body).value;
    assert Capacity(2) == 0x1_0000 by {
      assert Capacity(1) == 256;
    }
    PutOfUint(body[..2]);
    PutOfUint(body[2..4]);
    assert body == body[..2] + body[2..4] + body[4..4 + |v.value|] + rest;
  }

  // ---------------------------------------------------------------- whole bodies

  function Front(v: View, vs: Option<seq<View>>): Option<seq<View>> {
    if vs.None? then None else Some([v] + vs.value)
  }

  lemma ParseFirst(v: View, rest: seq<Byte>)
    requires ValidView(v)
    ensures Parse(EncodeTlv(v) + rest) == Front(v, Parse(rest))
  {
    SplitOfEncode(v, rest);
  }

  function After(vs: seq<View>, rest: Option<seq<View>>): Option<seq<View>> {
    if rest.None? then None else Some(vs + rest.value)
  }

  lemma {:induction false} ParseOfSerialize(vs: seq<View>, rest: seq<Byte>)
    requires forall v :: v in vs ==> ValidView(v)
    ensures Parse(Serialize(vs) + rest) == After(vs, Parse(rest))
  {
    if vs == [] {
      assert [] + rest == rest;
      assert forall tail: seq<View> :: [] + tail == tail;
    } else {
      assert Serialize(vs) + rest == EncodeTlv(vs[0]) + (Serialize(vs[1..]) + rest);
      ParseFirst(vs[0], Serialize(vs[1..]) + rest);
      ParseOfSerialize(vs[1..], rest);
      assert forall tail: seq<View> :: [vs[0]] + (vs[1..] + tail) == vs + tail;
    }
  }

  lemma {:induction false} SerializeOfParse(body: seq<Byte>)
    requires Parse(body).Some?
    ensures Serialize(Parse(body).value) == body
    ensures forall v :: v in Parse(body).value ==> ValidView(v)
    decreases |body|
  {
    if body != [] {
      EncodeOfSplit(body);
      var (v, rest) := Split(body).value;
      SerializeOfParse(rest);
      assert Parse(body).value[1..] == Parse(rest).value;
    }
  }

  /** A well-formed body is the serialisation of exactly one list of TLVs. */
  lemma ParseIsInverse(body: seq<Byte>, vs: seq<View>)
    requires forall v :: v in vs ==> ValidView(v)
    ensures Parse(body) == Some(vs) <==> body == Serialize(vs)
  {
    if Parse(body) == Some(vs) {
      SerializeOfParse(body);
    }
    ParseOfSerialize(vs, []);
    assert Serialize(vs) + [] == Serialize(vs);
    assert vs + [] == vs;
  }

  lemma {:induction false} SerializeConcat(xs: seq<View>, ys: seq<View>)
    ensures Serialize(xs + ys) == Serialize(xs) + Serialize(ys)
  {
    if xs == [] {
      assert xs + ys == ys;
    } else {
      assert (xs + ys)[1..] == xs[1..] + ys;
      SerializeConcat(xs[1..], ys);
    }
  }

  // ---------------------------------------------------------------- the cursor and the writer

  class Cursor {
    const body: seq<Byte>
    var off: nat

    constructor (body: seq<Byte>)
      ensures this.body == body && off == 0
    {
      this.body := body;
      off := 0;
    }

    /** The next TLV: None inside Ok is the end, Err a malformed body, after which nothing has moved. */
    method Next() returns (r: Result<Option<View>, ()>)
      requires off <= |body|
      modifies this
      ensures off <= |body|
      ensures
        if old(off) == |body| then r == Ok(None) && off == old(off)
        else
          match Split(body[old(off)..])
          case None => r.Err? && off == old(off)
          case Some((v, rest)) => r == Ok(Some(v)) && body[off..] == rest && off > old(off)
    {
      if off == |body| {
        return Ok(None);
      }
      if |body| - off < 4 {
        return Err(());
      }
      var start := off;
      ghost var left := body[start..];
      assert left[..2] == body[start..start + 2] && left[2..4] == body[start + 2..start + 4];
      var kind := KindOf(body[start..start + 2]);
      var length := Uint(body[start + 2..start + 4]);
      if length > |body| - (start + 4) {
        return Err(());
      }
      off := start + 4 + length;
      assert left[4..4 + length] == body[start + 4..off] && left[4 + length..] == body[off..];
      return Ok(Some(View(kind, body[start + 4..off])));
    }
  }

  method Append(dst: seq<Byte>, kind: Kind, value: seq<Byte>) returns (b: seq<Byte>)
    ensures b == dst + EncodeTlv(View(kind, value))
  {
    b := dst + PutUint(kind, 2) + PutUint(|value| % 0x1_0000, 2);
    b := b + value;
  }
}
