/** The loops that read and write VFP frames: collecting TLVs with a cursor, appending them to a body, and moving whole
    frames over a byte stream. */
module VfpStream {
  import opened Common
  import opened Bytes
  import opened Tlv
  import opened VfpMessage
  import opened VfpRoundTrip

  /** The values collected so far are the fields of the TLVs walked so far. */
  ghost predicate Collected(kind: nat, walked: seq<View>, fields: map<Kind, seq<seq<Byte>>>) {
    forall tlv: Kind :: Field(kind, walked, tlv) == if tlv in fields then fields[tlv] else []
  }

  /** Walks a body once, keeping up to the limit of values for each type the message reads; None if it is malformed. */
  method CollectFields(kind: nat, body: seq<Byte>) returns (fields: Option<map<Kind, seq<seq<Byte>>>>)
    ensures fields.None? <==> Parse(body).None?
    ensures fields.Some? ==> Collected(kind, Parse(body).value, fields.value)
  {
    var cursor := new Cursor(body);
    var kept: map<Kind, seq<seq<Byte>>> := map[];
    ghost var walked: seq<View> := [];
    AfterNothing(Parse(body));
    assert body[0..] == body;
    while cursor.off < |body|
      invariant cursor.off <= |body| && cursor.body == body && fresh(cursor)
      invariant Parse(body) == After(walked, Parse(body[cursor.off..]))
      invariant Collected(kind, walked, kept)
      decreases |body| - cursor.off
    {
      ghost var left := body[cursor.off..];
      var next := cursor.Next();
      if next.Err? {
        return None;
      }
      var v := next.value.value;
      AfterOne(walked, v, Parse(body[cursor.off..]));
      forall tlv: Kind ensures Field(kind, walked + [v], tlv) == Push(kind, Field(kind, walked, tlv), v, tlv) {
        FieldPush(kind, walked, v, tlv);
      }
      var already := if v.kind in kept then kept[v.kind] else [];
      if |already| < Limit(kind, v.kind) {
        kept := kept[v.kind := already + [v.value]];
      }
      walked := walked + [v];
    }
    assert body[cursor.off..] == [];
    assert walked + [] == walked;
    return Some(kept);
  }

  lemma AfterNothing(r: Option<seq<View>>)
    ensures After([], r) == r
  {
    if r.Some? {
      assert [] + r.value == r.value;
    }
  }

  lemma AfterOne(walked: seq<View>, v: View, r: Option<seq<View>>)
    ensures After(walked, Front(v, r)) == After(walked + [v], r)
  {
    if r.Some? {
      assert walked + ([v] + r.value) == walked + [v] + r.value;
    }
  }

  method DecodeFrame(frame: seq<Byte>) returns (m: Option<Message>)
    ensures m == Decode(frame)
  {
    var length := FrameLength(frame);
    if length != Some(|frame|) {
      return None;
    }
    var kind := frame[5];
    if !Known(kind) {
      return None;
    }
    var fields := CollectFields(kind, frame[HEADER_LENGTH..]);
    if fields.None? {
      return None;
    }
    var kept := fields.value;
    var f := (tlv: nat) => if tlv < 0x1_0000 && tlv in kept then kept[tlv] else [];
    ghost var vs := Parse(frame[HEADER_LENGTH..]).value;
    forall tlv: nat ensures f(tlv) == Field(kind, vs, tlv) {
      if tlv >= 0x1_0000 {
        NoSuchField(kind, vs, tlv);
      }
    }
    ghost var g := (tlv: nat) => Field(kind, vs, tlv);
    if IsDurable(kind) {
      SameDurable(kind, f, g);
      return DecodeDurable(kind, f);
    } else {
      SamePlain(kind, f, g);
      return DecodePlain(kind, f);
    }
  }

  lemma {:induction false} NoSuchField(kind: nat, vs: seq<View>, tlv: nat)
    requires tlv >= 0x1_0000
    ensures Field(kind, vs, tlv) == []
  {
    if vs != [] {
      NoSuchField(kind, vs[..|vs| - 1], tlv);
    }
  }

  method EncodeFrame(m: Message) returns (frame: Option<seq<Byte>>)
    requires SizedMessage(m)
    ensures frame == Encode(m)
  {
    var vs := Views(m);
    if vs.None? {
      return None;
    }
    var body: seq<Byte> := [];
    for i := 0 to |vs.value|
      invariant Serialize(vs.value) == body + Serialize(vs.value[i..])
    {
      assert vs.value[i..][1..] == vs.value[i + 1..];
      Regroup(body, EncodeTlv(vs.value[i]), Serialize(vs.value[i + 1..]));
      body := Append(body, vs.value[i].kind, vs.value[i].value);
    }
    assert body + [] == body;
    if HEADER_LENGTH + |body| > MAX_FRAME_LENGTH {
      return None;
    }
    return Some(Header(m.kind, HEADER_LENGTH + |body|) + body);
  }

  /** A byte stream: what has been written to it, and how much of that has been read. */
  class Stream {
    var content: seq<Byte>
    var position: nat

    constructor ()
      ensures Valid() && Unread() == []
    {
      content, position := [], 0;
    }

    predicate Valid()
      reads this
    {
      position <= |content|
    }

    function Unread(): seq<Byte>
      reads this
      requires Valid()
    {
      content[position..]
    }

    /** Appends a whole frame, however the connection splits the writes; `room(k)` octets are taken at the k-th
        write. */
    method Send(frame: seq<Byte>, room: nat -> nat)
      requires Valid() && forall k: nat :: room(k) > 0
      modifies this`content
      ensures Valid() && Unread() == old(Unread()) + frame
    {
      var sent, k := 0, 0;
      ghost var before := Unread();
      while sent < |frame|
        invariant sent <= |frame| && Valid()
        invariant Unread() == before + frame[..sent]
      {
        var n := if room(k) < |frame| - sent then room(k) else |frame| - sent;
        assert frame[..sent + n] == frame[..sent] + frame[sent..sent + n];
        content := content + frame[sent..sent + n];
        sent, k := sent + n, k + 1;
      }
      assert frame[..sent] == frame;
    }

    method Write(m: Message, room: nat -> nat) returns (ok: bool)
      requires Valid() && SizedMessage(m) && forall k: nat :: room(k) > 0
      modifies this`content
      ensures Valid() && ok == Written(m).Some?
      ensures Unread() == old(Unread()) + if ok then Written(m).value else []
    {
      if !OverTcp(m.kind) {
        return false;
      }
      var frame := EncodeFrame(m);
      if frame.None? {
        return false;
      }
      Send(frame.value, room);
      return true;
    }

    /** Takes one frame; a short or foreign header, or a short body, ends the connection. */
    method Read() returns (frame: Option<seq<Byte>>)
      requires Valid()
      modifies this`position
      ensures Valid()
      ensures
        match ReadFrame(old(Unread()))
        case None => frame.None?
        case Some((taken, rest)) => frame == Some(taken) && Unread() == rest
    {
      ghost var before := Unread();
      if |content| - position < HEADER_LENGTH {
        return None;
      }
      var header := content[position..position + HEADER_LENGTH];
      assert header == before[..HEADER_LENGTH];
      var length := FrameLength(header);
      if length.None? || |content| - position < length.value {
        return None;
      }
      assert before[..length.value] == content[position..position + length.value];
      assert before[length.value..] == content[position + length.value..];
      frame := Some(content[position..position + length.value]);
      position := position + length.value;
    }
  }
}
