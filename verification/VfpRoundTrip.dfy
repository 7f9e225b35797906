/** Every message that encodes decodes from its own frame to itself, restricted to the fields its type uses, exactly
    when its addresses pass the receiver's check; and TLVs that a message does not read change nothing. */
module VfpRoundTrip {
  import opened Common
  import opened Bytes
  import opened Net
  import opened Tlv
  import opened VfpValues
  import opened VfpControl
  import opened VfpMessage

  // ---------------------------------------------------------------- the fields of short lists

  function Push(kind: nat, f: seq<seq<Byte>>, v: View, tlv: nat): seq<seq<Byte>> {
    if v.kind == tlv && |f| < Limit(kind, tlv) then f + [v.value] else f
  }

  lemma FieldPush(kind: nat, vs: seq<View>, v: View, tlv: nat)
    ensures Field(kind, vs + [v], tlv) == Push(kind, Field(kind, vs, tlv), v, tlv)
  {
    assert (vs + [v])[..|vs|] == vs;
  }

  lemma FieldOf1(kind: nat, a: View, tlv: nat)
    ensures Field(kind, [a], tlv) == Push(kind, [], a, tlv)
  {
    FieldPush(kind, [], a, tlv);
    assert [] + [a] == [a];
  }

  lemma FieldOf2(kind: nat, a: View, b: View, tlv: nat)
    ensures Field(kind, [a, b], tlv) == Push(kind, Push(kind, [], a, tlv), b, tlv)
  {
    FieldOf1(kind, a, tlv);
    FieldPush(kind, [a], b, tlv);
    assert [a] + [b] == [a, b];
  }

  lemma FieldOf3(kind: nat, a: View, b: View, c: View, tlv: nat)
    ensures Field(kind, [a, b, c], tlv) == Push(kind, Push(kind, Push(kind, [], a, tlv), b, tlv), c, tlv)
  {
    FieldOf2(kind, a, b, tlv);
    FieldPush(kind, [a, b], c, tlv);
    assert [a, b] + [c] == [a, b, c];
  }

  lemma FieldOf4(kind: nat, a: View, b: View, c: View, d: View, tlv: nat)
    ensures Field(kind, [a, b, c, d], tlv)
         == Push(kind, Push(kind, Push(kind, Push(kind, [], a, tlv), b, tlv), c, tlv), d, tlv)
  {
    FieldOf3(kind, a, b, c, tlv);
    FieldPush(kind, [a, b, c], d, tlv);
    assert [a, b, c] + [d] == [a, b, c, d];
  }

  // ---------------------------------------------------------------- bodies of the plain types

  /** What decoding the message's own TLVs gives. */
  ghost predicate Returns(m: Message)
    requires SizedMessage(m)
  {
    Views(m).Some? ==>
      DecodeBody(m.kind, Views(m).value) == if AddressesAllowed(m) then Some(Restrict(m)) else None
  }

  lemma IdentityReturns(m: Message)
    requires SizedMessage(m) && (m.kind == OPEN || m.kind == POLICY_QUERY)
    ensures Returns(m)
  {
    if Views(m).Some? {
      var vs := Views(m).value;
      var uid := if IsPolicy(m.kind) then m.uid.value.(name := []) else m.uid.value;
      var b := EncodeUid(uid).value;
      assert vs == [View(NODE_UID_TLV, b)];
      FieldOf1(m.kind, vs[0], NODE_UID_TLV);
      UidInverse(uid, b);
    }
  }

  lemma UpdateReturns(m: Message)
    requires SizedMessage(m) && m.kind == POLICY_UPDATE
    ensures Returns(m)
  {
    if Views(m).Some? {
      var vs := Views(m).value;
      var uid := m.uid.value.(name := []);
      var b, p := EncodeUid(uid).value, EncodePolicy(m.policy).value;
      assert vs == [View(NODE_UID_TLV, b), View(DYNAMIC_LINK_POLICY_TLV, p)];
      FieldOf2(m.kind, vs[0], vs[1], NODE_UID_TLV);
      FieldOf2(m.kind, vs[0], vs[1], DYNAMIC_LINK_POLICY_TLV);
      UidInverse(uid, b);
      PolicyInverse(m.policy.value, p);
    }
  }

  lemma StateReturns(m: Message)
    requires SizedMessage(m) && m.kind == NODE_STATE
    ensures Returns(m)
  {
    if Views(m).Some? {
      var vs, a := Views(m).value, m.loopback.value;
      FieldOf1(m.kind, vs[0], LOOPBACK_V6_TLV);
      AddressInverse(a, IPv6, AddressOctets(a));
    }
  }

  /** A prefix survives exactly when its address is allowed. */
  lemma PrefixReturns(c: Cidr, family: Family)
    requires SizedCidr(c) && c.length == LinkBits(family) && Masked(c) && (family.IPv4? ==> c.address.family.IPv4?)
    ensures ParsePrefix(AddressOctets(c.address), family) == if AllowedAddress(c.address) then Some(c) else None
  {
    assert c.address.family == family;
    AddressInverse(c.address, family, AddressOctets(c.address));
  }

  lemma PrefixFields(m: Message, vs: seq<View>, v4: Option<View>, v6: Option<View>)
    requires m.kind == LINK_PROPOSE
    requires v4.Some? ==> v4.value.kind == LINK_PREFIX_V4_TLV
    requires v6.Some? ==> v6.value.kind == LINK_PREFIX_V6_TLV
    requires vs == (if v4.None? then [] else [v4.value]) + (if v6.None? then [] else [v6.value])
    ensures Field(m.kind, vs, LINK_PREFIX_V4_TLV) == if v4.None? then [] else [v4.value.value]
    ensures Field(m.kind, vs, LINK_PREFIX_V6_TLV) == if v6.None? then [] else [v6.value.value]
  {
    if v4.Some? && v6.Some? {
      assert vs == [v4.value, v6.value];
      FieldOf2(m.kind, v4.value, v6.value, LINK_PREFIX_V4_TLV);
      FieldOf2(m.kind, v4.value, v6.value, LINK_PREFIX_V6_TLV);
    } else if v4.Some? || v6.Some? {
      var v := if v4.Some? then v4.value else v6.value;
      assert vs == [v];
      FieldOf1(m.kind, v, LINK_PREFIX_V4_TLV);
      FieldOf1(m.kind, v, LINK_PREFIX_V6_TLV);
    }
  }

  lemma PrefixesDecode(m: Message, f: nat -> seq<seq<Byte>>)
    requires SizedMessage(m) && m.kind == LINK_PROPOSE
    requires PrefixViews(m.prefixV4, IPv4, LINK_PREFIX_V4_TLV).Some?
        && PrefixViews(m.prefixV6, IPv6, LINK_PREFIX_V6_TLV).Some?
    requires f(LINK_PREFIX_V4_TLV) == if m.prefixV4.None? then [] else [AddressOctets(m.prefixV4.value.address)]
    requires f(LINK_PREFIX_V6_TLV) == if m.prefixV6.None? then [] else [AddressOctets(m.prefixV6.value.address)]
    ensures DecodePrefixes(Blank(m.kind), f) == if AddressesAllowed(m) then Some(Restrict(m)) else None
  {
    if m.prefixV4.Some? {
      PrefixReturns(m.prefixV4.value, IPv4);
    }
    if m.prefixV6.Some? {
      PrefixReturns(m.prefixV6.value, IPv6);
    }
  }

  /** The TLVs of a proposal hold its prefixes, each under its own type. */
  lemma PrefixesCarried(m: Message)
    requires SizedMessage(m) && m.kind == LINK_PROPOSE && Views(m).Some?
    ensures PrefixViews(m.prefixV4, IPv4, LINK_PREFIX_V4_TLV).Some?
        && PrefixViews(m.prefixV6, IPv6, LINK_PREFIX_V6_TLV).Some?
    ensures Field(m.kind, Views(m).value, LINK_PREFIX_V4_TLV)
         == if m.prefixV4.None? then [] else [AddressOctets(m.prefixV4.value.address)]
    ensures Field(m.kind, Views(m).value, LINK_PREFIX_V6_TLV)
         == if m.prefixV6.None? then [] else [AddressOctets(m.prefixV6.value.address)]
  {
    var v4s, v6s := PrefixViews(m.prefixV4, IPv4, LINK_PREFIX_V4_TLV),
        PrefixViews(m.prefixV6, IPv6, LINK_PREFIX_V6_TLV);
    assert Views(m) == Both(v4s, v6s);
    PrefixFields(m, v4s.value + v6s.value,
                 if v4s.value == [] then None else Some(v4s.value[0]), if v6s.value == [] then None
                 else Some(v6s.value[0]));
  }

  lemma ProposalReturns(m: Message)
    requires SizedMessage(m) && m.kind == LINK_PROPOSE
    ensures Returns(m)
  {
    if Views(m).Some? {
      var f := (tlv: nat) => Field(m.kind, Views(m).value, tlv);
      PrefixesCarried(m);
      PrefixesDecode(m, f);
      assert DecodeBody(m.kind, Views(m).value) == DecodePrefixes(Blank(m.kind), f);
    }
  }

  lemma ProbeFields(kind: nat, id: View, e: Option<View>, vs: seq<View>)
    requires (kind == LINK_PING && e.None?) || kind == LINK_PONG
    requires id.kind == OPERATION_ID_TLV && (e.Some? ==> e.value.kind == WG_ENDPOINT_TLV)
    requires vs == [id] + if e.None? then [] else [e.value]
    ensures Field(kind, vs, OPERATION_ID_TLV) == [id.value]
    ensures Field(kind, vs, WG_ENDPOINT_TLV) == if e.None? then [] else [e.value.value]
  {
    if e.Some? {
      assert vs == [id, e.value];
      FieldOf2(kind, id, e.value, OPERATION_ID_TLV);
      FieldOf2(kind, id, e.value, WG_ENDPOINT_TLV);
    } else {
      assert vs == [id];
      FieldOf1(kind, id, OPERATION_ID_TLV);
      FieldOf1(kind, id, WG_ENDPOINT_TLV);
    }
  }

  function CarriedEndpoint(m: Message): Option<View>
    requires SizedMessage(m)
  {
    if m.kind == LINK_PONG && m.endpoint.Some? && EncodeEndpoint(m.endpoint.value).Some?
    then Some(View(WG_ENDPOINT_TLV, EncodeEndpoint(m.endpoint.value).value)) else None
  }

  lemma ProbeDecodes(m: Message, f: nat -> seq<seq<Byte>>)
    requires SizedMessage(m) && (m.kind == LINK_PING || m.kind == LINK_PONG) && ProbeViews(m).Some?
    requires f(OPERATION_ID_TLV) == [m.operation]
    requires f(WG_ENDPOINT_TLV) == if CarriedEndpoint(m).None? then [] else [CarriedEndpoint(m).value.value]
    ensures DecodeProbe(Blank(m.kind), f) == Some(Restrict(m))
  {
    if CarriedEndpoint(m).Some? {
      EndpointInverse(m.endpoint.value, CarriedEndpoint(m).value.value);
    }
  }

  lemma ProbeReturns(m: Message)
    requires SizedMessage(m) && (m.kind == LINK_PING || m.kind == LINK_PONG)
    ensures Returns(m)
  {
    assert Views(m) == ProbeViews(m);
    if ProbeViews(m).Some? {
      var vs := ProbeViews(m).value;
      ProbeFields(m.kind, Id(m.operation), CarriedEndpoint(m), vs);
      ProbeDecodes(m, (tlv: nat) => Field(m.kind, vs, tlv));
    }
  }

  lemma OfferDecodes(m: Message, f: nat -> seq<seq<Byte>>)
    requires SizedMessage(m) && (m.kind == DYNAMIC_LINK_PROPOSE || m.kind == DYNAMIC_LINK_ACCEPT) && OfferViews(m).Some?
    requires f(OPERATION_ID_TLV) == [m.operation] && f(WG_PUBLIC_KEY_TLV) == [m.publicKey]
        && f(PROBE_KEY_TLV) == [m.probeKey]
    requires f(WG_ENDPOINT_TLV) == [EncodeEndpoint(m.endpoint.value).value]
    ensures DecodeOffer(Blank(m.kind), f) == Some(Restrict(m))
  {
    EndpointInverse(m.endpoint.value, EncodeEndpoint(m.endpoint.value).value);
  }

  lemma OfferReturns(m: Message)
    requires SizedMessage(m) && (m.kind == DYNAMIC_LINK_PROPOSE || m.kind == DYNAMIC_LINK_ACCEPT)
    ensures Returns(m)
  {
    assert Views(m) == OfferViews(m);
    if OfferViews(m).Some? {
      var vs := OfferViews(m).value;
      OfferFields(m.kind, vs[0], vs[1], vs[2], vs[3]);
      assert vs == [vs[0], vs[1], vs[2], vs[3]];
      OfferDecodes(m, (tlv: nat) => Field(m.kind, vs, tlv));
    }
  }

  lemma OfferFields(kind: nat, a: View, b: View, c: View, d: View)
    requires kind == DYNAMIC_LINK_PROPOSE || kind == DYNAMIC_LINK_ACCEPT
    requires a.kind == OPERATION_ID_TLV && b.kind == WG_PUBLIC_KEY_TLV && c.kind == WG_ENDPOINT_TLV
        && d.kind == PROBE_KEY_TLV
    ensures Field(kind, [a, b, c, d], OPERATION_ID_TLV) == [a.value]
    ensures Field(kind, [a, b, c, d], WG_PUBLIC_KEY_TLV) == [b.value]
    ensures Field(kind, [a, b, c, d], WG_ENDPOINT_TLV) == [c.value]
    ensures Field(kind, [a, b, c, d], PROBE_KEY_TLV) == [d.value]
  {
    FieldOf4(kind, a, b, c, d, OPERATION_ID_TLV);
    FieldOf4(kind, a, b, c, d, WG_PUBLIC_KEY_TLV);
    FieldOf4(kind, a, b, c, d, WG_ENDPOINT_TLV);
    FieldOf4(kind, a, b, c, d, PROBE_KEY_TLV);
  }

  lemma ControlReturns(m: Message)
    requires SizedMessage(m) && m.kind == DISCOVERY_CONTROL
    ensures Returns(m)
  {
    var a, b := Id(m.operation), View(DISCOVERY_DATA_TLV, m.data);
    FieldOf2(m.kind, a, b, OPERATION_ID_TLV);
    FieldOf2(m.kind, a, b, DISCOVERY_DATA_TLV);
  }

  lemma SealedReturns(m: Message)
    requires SizedMessage(m) && m.kind == PUBLIC_PROBE
    ensures Returns(m)
  {
    FieldOf1(m.kind, View(SEALED_PROBE_TLV, m.data), SEALED_PROBE_TLV);
  }

  /** A refusal's reason and policy come back from their fields. */
  lemma RefusalReturns(m: Message, blank: Message, f: nat -> seq<seq<Byte>>)
    requires SizedMessage(m) && RefusalOk(m) && PolicyViews(m.policy).Some?
    requires f(DECLINE_REASON_TLV) == [[m.reason]]
    requires f(DYNAMIC_LINK_POLICY_TLV) == if m.policy.None? then [] else [EncodePolicy(m.policy).value]
    ensures DecodeDecline(blank, f) == Some(blank.(reason := m.reason, policy := m.policy))
  {
    if m.policy.Some? {
      PolicyInverse(m.policy.value, EncodePolicy(m.policy).value);
    }
  }

  lemma DeclineReturns(m: Message)
    requires SizedMessage(m) && m.kind == DYNAMIC_LINK_DECLINE
    ensures Returns(m)
  {
    if Views(m).Some? {
      var vs := Views(m).value;
      DeclineFields(m, vs);
      var f := (tlv: nat) => Field(m.kind, vs, tlv);
      RefusalReturns(m, Blank(m.kind), f);
    }
  }

  /** The TLVs of a refusal, plain or durable, are read as its fields. */
  lemma DeclineFields(m: Message, vs: seq<View>)
    requires SizedMessage(m) && (m.kind == DYNAMIC_LINK_DECLINE || m.kind == DURABLE_DECLINE)
        && PolicyViews(m.policy).Some?
    requires vs == [Id(m.operation), View(DECLINE_REASON_TLV, [m.reason])] + PolicyViews(m.policy).value
    ensures Field(m.kind, vs, OPERATION_ID_TLV) == [m.operation]
    ensures Field(m.kind, vs, DECLINE_REASON_TLV) == [[m.reason]]
    ensures Field(m.kind, vs, DYNAMIC_LINK_POLICY_TLV) == if m.policy.None? then [] else [EncodePolicy(m.policy).value]
  {
    var a, b := Id(m.operation), View(DECLINE_REASON_TLV, [m.reason]);
    if m.policy.None? {
      assert vs == [a, b];
      FieldOf2(m.kind, a, b, OPERATION_ID_TLV);
      FieldOf2(m.kind, a, b, DECLINE_REASON_TLV);
      FieldOf2(m.kind, a, b, DYNAMIC_LINK_POLICY_TLV);
    } else {
      var c := View(DYNAMIC_LINK_POLICY_TLV, EncodePolicy(m.policy).value);
      assert vs == [a, b, c];
      FieldOf3(m.kind, a, b, c, OPERATION_ID_TLV);
      FieldOf3(m.kind, a, b, c, DECLINE_REASON_TLV);
      FieldOf3(m.kind, a, b, c, DYNAMIC_LINK_POLICY_TLV);
    }
  }

  // ---------------------------------------------------------------- bodies of the durable types

  lemma SavedReturns(m: Message)
    requires SizedMessage(m) && m.kind == DURABLE_SAVED
    ensures Returns(m)
  {
    FieldOf1(m.kind, Id(m.operation), OPERATION_ID_TLV);
  }

  lemma CheckReturns(m: Message)
    requires SizedMessage(m) && m.kind == DURABLE_CHECK
    ensures Returns(m)
  {
    FieldOf2(m.kind, Id(m.operation), Id(m.agreement), OPERATION_ID_TLV);
  }

  lemma StatusFields(kind: nat, a: View, b: View, c: View)
    requires kind == DURABLE_STATUS && a.kind == b.kind == OPERATION_ID_TLV && c.kind == STATUS_TLV
    ensures Field(kind, [a, b, c], OPERATION_ID_TLV) == [a.value, b.value]
    ensures Field(kind, [a, b, c], STATUS_TLV) == [c.value]
  {
    FieldOf3(kind, a, b, c, OPERATION_ID_TLV);
    FieldOf3(kind, a, b, c, STATUS_TLV);
  }

  lemma StatusRead(m: Message, f: nat -> seq<seq<Byte>>)
    requires SizedMessage(m) && m.kind == DURABLE_STATUS && DecodeDurable(DURABLE_STATUS, f).Some?
    requires f(OPERATION_ID_TLV) == [m.operation, m.agreement] && f(STATUS_TLV) == [[m.status]]
    ensures DecodeDurable(DURABLE_STATUS, f) == Some(Restrict(m))
  {
  }

  lemma StatusReturns(m: Message)
    requires SizedMessage(m) && m.kind == DURABLE_STATUS
    ensures Returns(m)
  {
    if Views(m).Some? {
      var a, b, c := Id(m.operation), Id(m.agreement), View(STATUS_TLV, [m.status]);
      var vs := Views(m).value;
      assert vs == [a, b, c];
      StatusFields(m.kind, a, b, c);
      StatusRead(m, (tlv: nat) => Field(DURABLE_STATUS, vs, tlv));
    }
  }

  lemma DurableDeclineReturns(m: Message)
    requires SizedMessage(m) && m.kind == DURABLE_DECLINE
    ensures Returns(m)
  {
    if Views(m).Some? {
      var vs := DurableViews(m).value;
      assert vs == [Id(m.operation), View(DECLINE_REASON_TLV, [m.reason])] + PolicyViews(m.policy).value;
      DeclineFields(m, vs);
      var f := (tlv: nat) => Field(m.kind, vs, tlv);
      var blank := Blank(m.kind).(operation := m.operation, agreement := Zeros(16));
      assert DecodeBody(m.kind, vs) == DecodeDecline(blank, f);
      RefusalIsOk(m, blank, f);
      RefusalReturns(m, blank, f);
    }
  }

  /** A refusal that is accepted was allowed to be sent. */
  lemma RefusalIsOk(m: Message, blank: Message, f: nat -> seq<seq<Byte>>)
    requires SizedMessage(m) && PolicyViews(m.policy).Some? && DecodeDecline(blank, f).Some?
    requires f(DECLINE_REASON_TLV) == [[m.reason]]
    requires f(DYNAMIC_LINK_POLICY_TLV) == if m.policy.None? then [] else [EncodePolicy(m.policy).value]
    ensures RefusalOk(m)
  {
    if m.policy.Some? {
      PolicyInverse(m.policy.value, EncodePolicy(m.policy).value);
    }
  }

  /** The owners and the endpoints of a proposal as they stand in its TLVs. */
  function Uids(fixed: seq<FixedEndpoint>): (r: seq<seq<Byte>>)
    ensures |r| == |fixed|
  {
    if fixed == [] then []
    else Uids(fixed[..|fixed| - 1]) + [EncodeUid(fixed[|fixed| - 1].uid).GetOr([])]
  }

  function Ends(fixed: seq<FixedEndpoint>): (r: seq<seq<Byte>>)
    requires AllSized(fixed)
    ensures |r| == |fixed|
  {
    if fixed == [] then []
    else Ends(fixed[..|fixed| - 1]) + [EndpointOctets(fixed[|fixed| - 1].endpoint).GetOr([])]
  }

  predicate SizedFixed(f: FixedEndpoint) {
    SizedUid(f.uid) && (f.endpoint.Some? ==> SizedEndpoint(f.endpoint.value))
  }

  predicate AllSized(fixed: seq<FixedEndpoint>) {
    forall i | 0 <= i < |fixed| :: SizedFixed(fixed[i])
  }

  lemma FieldPush2(kind: nat, vs: seq<View>, a: View, b: View, tlv: nat)
    ensures Field(kind, vs + [a, b], tlv) == Push(kind, Push(kind, Field(kind, vs, tlv), a, tlv), b, tlv)
  {
    FieldPush(kind, vs, a, tlv);
    FieldPush(kind, vs + [a], b, tlv);
    assert vs + [a] + [b] == vs + [a, b];
  }

  lemma {:induction false} FixedFields(id: View, fixed: seq<FixedEndpoint>)
    requires id.kind == OPERATION_ID_TLV && AllSized(fixed) && |fixed| <= 2 && FixedViews(fixed).Some?
    ensures |Uids(fixed)| == |Ends(fixed)| == |fixed|
    ensures Field(DURABLE_PROPOSE, [id] + FixedViews(fixed).value, OPERATION_ID_TLV) == [id.value]
    ensures Field(DURABLE_PROPOSE, [id] + FixedViews(fixed).value, NODE_UID_TLV) == Uids(fixed)
    ensures Field(DURABLE_PROPOSE, [id] + FixedViews(fixed).value, WG_ENDPOINT_TLV) == Ends(fixed)
    ensures Field(DURABLE_PROPOSE, [id] + FixedViews(fixed).value, FLAGS_TLV) == []
  {
    if fixed == [] {
      assert [id] + [] == [id];
      FieldOf1(DURABLE_PROPOSE, id, OPERATION_ID_TLV);
      FieldOf1(DURABLE_PROPOSE, id, NODE_UID_TLV);
      FieldOf1(DURABLE_PROPOSE, id, WG_ENDPOINT_TLV);
      FieldOf1(DURABLE_PROPOSE, id, FLAGS_TLV);
    } else {
      var before, last := fixed[..|fixed| - 1], fixed[|fixed| - 1];
      FixedFields(id, before);
      var a, b := View(NODE_UID_TLV, EncodeUid(last.uid).value),
          View(WG_ENDPOINT_TLV, EndpointOctets(last.endpoint).value);
      var vs := [id] + FixedViews(before).value;
      assert [id] + FixedViews(fixed).value == vs + [a, b];
      FieldPush2(DURABLE_PROPOSE, vs, a, b, OPERATION_ID_TLV);
      FieldPush2(DURABLE_PROPOSE, vs, a, b, NODE_UID_TLV);
      FieldPush2(DURABLE_PROPOSE, vs, a, b, WG_ENDPOINT_TLV);
      FieldPush2(DURABLE_PROPOSE, vs, a, b, FLAGS_TLV);
    }
  }

  predicate Encodes(f: FixedEndpoint) {
    SizedFixed(f) && EncodeUid(f.uid).Some? && EndpointOctets(f.endpoint).Some?
  }

  predicate AllEncode(fixed: seq<FixedEndpoint>) {
    forall i | 0 <= i < |fixed| :: Encodes(fixed[i])
  }

  lemma {:induction false} ViewsEncode(fixed: seq<FixedEndpoint>)
    requires AllSized(fixed) && FixedViews(fixed).Some?
    ensures AllEncode(fixed)
  {
    if fixed != [] {
      ViewsEncode(fixed[..|fixed| - 1]);
      assert SizedFixed(fixed[|fixed| - 1]);
    }
  }

  /** These octets parse as this entry. */
  predicate Parses(owner: seq<Byte>, value: seq<Byte>, f: FixedEndpoint) {
    ParseUid(owner) == Some(f.uid) && ParseEndpoint(value) == f.endpoint && f.endpoint.Some?
  }

  lemma EncodedParses(f: FixedEndpoint)
    requires Encodes(f)
    ensures Parses(EncodeUid(f.uid).value, EndpointOctets(f.endpoint).value, f)
  {
    UidInverse(f.uid, EncodeUid(f.uid).value);
    EndpointInverse(f.endpoint.value, EncodeEndpoint(f.endpoint.value).value);
  }

  lemma {:induction false} ListsParse(fixed: seq<FixedEndpoint>, i: nat)
    requires AllSized(fixed) && AllEncode(fixed) && i < |fixed|
    ensures Parses(Uids(fixed)[i], Ends(fixed)[i], fixed[i])
  {
    var last := |fixed| - 1;
    if i == last {
      EncodedParses(fixed[i]);
    } else {
      ListsParse(fixed[..last], i);
    }
  }

  lemma AddParsed(before: Option<seq<FixedEndpoint>>, owner: seq<Byte>, value: seq<Byte>, f: FixedEndpoint)
    requires Parses(owner, value, f)
    ensures AddFixed(before, owner, value).Some? ==>
        before.Some? && AddFixed(before, owner, value).value == before.value + [f]
  {
  }

  lemma {:induction false} ParsedReturn(uids: seq<seq<Byte>>, ends: seq<seq<Byte>>, fixed: seq<FixedEndpoint>)
    requires |uids| == |ends| == |fixed|
    requires forall i: nat :: i < |fixed| ==> Parses(uids[i], ends[i], fixed[i])
    ensures DecodeFixed(uids, ends).Some? ==> DecodeFixed(uids, ends).value == fixed
  {
    if fixed != [] {
      var last := |fixed| - 1;
      ParsedReturn(uids[..last], ends[..last], fixed[..last]);
      AddParsed(DecodeFixed(uids[..last], ends[..last]), uids[last], ends[last], fixed[last]);
      assert fixed[..last] + [fixed[last]] == fixed;
    }
  }

  /** Flags are sent only when set, after everything else. */
  lemma FlagFields(m: Message, plain: seq<View>, vs: seq<View>)
    requires SizedMessage(m) && m.kind == DURABLE_PROPOSE
    requires vs == plain + if m.flags != 0 then [View(FLAGS_TLV, PutUint(m.flags, 4))] else []
    requires Field(m.kind, plain, FLAGS_TLV) == []
    ensures Field(m.kind, vs, OPERATION_ID_TLV) == Field(m.kind, plain, OPERATION_ID_TLV)
    ensures Field(m.kind, vs, NODE_UID_TLV) == Field(m.kind, plain, NODE_UID_TLV)
    ensures Field(m.kind, vs, WG_ENDPOINT_TLV) == Field(m.kind, plain, WG_ENDPOINT_TLV)
    ensures Field(m.kind, vs, FLAGS_TLV) == if m.flags != 0 then [PutUint(m.flags, 4)] else []
    ensures Uint(PutUint(m.flags, 4)) == m.flags
  {
    if m.flags != 0 {
      var flags := View(FLAGS_TLV, PutUint(m.flags, 4));
      FieldPush(m.kind, plain, flags, OPERATION_ID_TLV);
      FieldPush(m.kind, plain, flags, NODE_UID_TLV);
      FieldPush(m.kind, plain, flags, WG_ENDPOINT_TLV);
      FieldPush(m.kind, plain, flags, FLAGS_TLV);
    } else {
      assert vs == plain;
    }
    assert Capacity(4) == 0x1_0000_0000 by {
      assert Capacity(2) == 0x1_0000;
    }
    UintOfPut(m.flags, 4);
  }

  lemma ProposalDecodes(m: Message, blank: Message, f: nat -> seq<seq<Byte>>)
    requires AllSized(m.fixed) && FixedViews(m.fixed).Some? && |Uids(m.fixed)| == |Ends(m.fixed)| == |m.fixed|
    requires f(NODE_UID_TLV) == Uids(m.fixed) && f(WG_ENDPOINT_TLV) == Ends(m.fixed)
    requires f(FLAGS_TLV) == if m.flags != 0 then [PutUint(m.flags, 4)] else []
    requires Uint(PutUint(m.flags, 4)) == m.flags && blank.flags == 0
    ensures DecodeProposal(blank, f).Some? ==>
        DecodeProposal(blank, f).value == blank.(fixed := m.fixed, flags := m.flags)
  {
    ViewsEncode(m.fixed);
    forall i: nat | i < |m.fixed| ensures Parses(Uids(m.fixed)[i], Ends(m.fixed)[i], m.fixed[i]) {
      ListsParse(m.fixed, i);
    }
    ParsedReturn(Uids(m.fixed), Ends(m.fixed), m.fixed);
  }

  lemma ProposalHasOneId(f: nat -> seq<seq<Byte>>, id: seq<Byte>)
    requires f(OPERATION_ID_TLV) == [id]
    ensures DecodeDurable(DURABLE_PROPOSE, f).Some? ==>
              DecodeDurable(DURABLE_PROPOSE, f)
              == DecodeProposal(Blank(DURABLE_PROPOSE).(operation := id, agreement := Zeros(16)), f)
  {
  }

  /** The TLVs of a durable proposal, read as its fields. */
  ghost predicate CarriesProposal(m: Message, f: nat -> seq<seq<Byte>>)
    requires SizedMessage(m)
  {
    && f(OPERATION_ID_TLV) == [m.operation] && f(NODE_UID_TLV) == Uids(m.fixed) && f(WG_ENDPOINT_TLV) == Ends(m.fixed)
    && f(FLAGS_TLV) == (if m.flags != 0 then [PutUint(m.flags, 4)] else [])
    && |Uids(m.fixed)| == |Ends(m.fixed)| == |m.fixed| && Uint(PutUint(m.flags, 4)) == m.flags
  }

  lemma ProposalCarried(m: Message, vs: seq<View>)
    requires SizedMessage(m) && m.kind == DURABLE_PROPOSE && DurableViews(m) == Some(vs)
    ensures CarriesProposal(m, (tlv: nat) => Field(DURABLE_PROPOSE, vs, tlv))
  {
    var id := Id(m.operation);
    FixedFields(id, m.fixed);
    FlagFields(m, [id] + FixedViews(m.fixed).value, vs);
  }

  lemma ProposalRestricts(m: Message)
    requires SizedMessage(m) && m.kind == DURABLE_PROPOSE
    ensures Restrict(m)
         == Blank(DURABLE_PROPOSE).(operation := m.operation, agreement := Zeros(16)).(fixed := m.fixed,
             flags := m.flags)
  {
  }

  lemma ProposalRead(m: Message, f: nat -> seq<seq<Byte>>)
    requires SizedMessage(m) && m.kind == DURABLE_PROPOSE && FixedViews(m.fixed).Some? && CarriesProposal(m, f)
    requires DecodeDurable(DURABLE_PROPOSE, f).Some?
    ensures DecodeDurable(DURABLE_PROPOSE, f) == Some(Restrict(m))
  {
    var blank := Blank(DURABLE_PROPOSE).(operation := m.operation, agreement := Zeros(16));
    ProposalHasOneId(f, m.operation);
    ProposalDecodes(m, blank, f);
    ProposalRestricts(m);
    assert DecodeDurable(DURABLE_PROPOSE, f) == DecodeProposal(blank, f)
        == Some(blank.(fixed := m.fixed, flags := m.flags));
  }

  lemma DurableProposalReturns(m: Message)
    requires SizedMessage(m) && m.kind == DURABLE_PROPOSE
    ensures Returns(m)
  {
    if Views(m).Some? {
      var vs := Views(m).value;
      ProposalCarried(m, vs);
      ProposalRead(m, (tlv: nat) => Field(DURABLE_PROPOSE, vs, tlv));
    }
  }

  lemma BodyReturns(m: Message)
    requires SizedMessage(m)
    ensures Returns(m)
  {
    if m.kind == OPEN || m.kind == POLICY_QUERY {
      IdentityReturns(m);
    } else if m.kind == POLICY_UPDATE {
      UpdateReturns(m);
    } else if m.kind == NODE_STATE {
      StateReturns(m);
    } else if m.kind == LINK_PROPOSE {
      ProposalReturns(m);
    } else if m.kind == LINK_PING || m.kind == LINK_PONG {
      ProbeReturns(m);
    } else if m.kind == DYNAMIC_LINK_PROPOSE || m.kind == DYNAMIC_LINK_ACCEPT {
      OfferReturns(m);
    } else if m.kind == DISCOVERY_CONTROL {
      ControlReturns(m);
    } else if m.kind == PUBLIC_PROBE {
      SealedReturns(m);
    } else if m.kind == DYNAMIC_LINK_DECLINE {
      DeclineReturns(m);
    } else if m.kind == DURABLE_PROPOSE {
      DurableProposalReturns(m);
    } else if m.kind == DURABLE_DECLINE {
      DurableDeclineReturns(m);
    } else if m.kind == DURABLE_SAVED {
      SavedReturns(m);
    } else if m.kind == DURABLE_CHECK {
      CheckReturns(m);
    } else if m.kind == DURABLE_STATUS {
      StatusReturns(m);
    }
  }

  // ---------------------------------------------------------------- frames

  lemma {:induction false} ViewsFit(vs: seq<View>)
    requires |Serialize(vs)| < 0x1_0000
    ensures forall v :: v in vs ==> ValidView(v)
  {
    if vs != [] {
      ViewsFit(vs[1..]);
    }
  }

  lemma FourOctets()
    ensures Capacity(4) == 0x1_0000_0000
  {
    assert Capacity(2) == 0x1_0000;
  }

  lemma HeaderReads(kind: nat, body: seq<Byte>, rest: seq<Byte>)
    requires kind < 256 && HEADER_LENGTH + |body| <= MAX_FRAME_LENGTH
    ensures
      var b := Frame(kind, body) + rest;
      && FrameLength(b) == Some(HEADER_LENGTH + |body|) && b[5] == kind
      && b[..HEADER_LENGTH + |body|] == Frame(kind, body) && b[HEADER_LENGTH + |body|..] == rest
      && Frame(kind, body)[HEADER_LENGTH..] == body
  {
    var b, length := Frame(kind, body) + rest, HEADER_LENGTH + |body|;
    FourOctets();
    UintOfPut(MAGIC, 4);
    ShortRoundTrip(length);
    assert b[..4] == PutUint(MAGIC, 4) && b[6..8] == PutUint(length, 2);
  }

  lemma FrameDecodes(kind: nat, vs: seq<View>)
    requires Known(kind) && HEADER_LENGTH + |Serialize(vs)| <= MAX_FRAME_LENGTH
    ensures Decode(Frame(kind, Serialize(vs))) == DecodeBody(kind, vs)
  {
    var body := Serialize(vs);
    HeaderReads(kind, body, []);
    assert Frame(kind, body) + [] == Frame(kind, body);
    ViewsFit(vs);
    ParseIsInverse(body, vs);
  }

  /** Every message that encodes decodes from its own frame to itself restricted to the fields its type uses, if its
      addresses pass the receiver's check, and is refused otherwise. */
  lemma RoundTrip(m: Message)
    requires SizedMessage(m) && Encode(m).Some?
    ensures Decode(Encode(m).value) == if AddressesAllowed(m) then Some(Restrict(m)) else None
  {
    BodyReturns(m);
    FrameDecodes(m.kind, Views(m).value);
  }

  /** ff00::. */
  const GROUP := AddressOf(IPv6, [0xff] + Zeros(15))

  lemma {:induction false} TopBitIsLarge(bits: seq<bool>)
    requires bits != [] && bits[0]
    ensures BitsValue(bits) >= Power(|bits| - 1)
  {
    if |bits| > 1 {
      TopBitIsLarge(bits[..|bits| - 1]);
    } else {
      assert bits[..0] == [];
    }
  }

  lemma {:induction false} PowerGrows(n: nat, m: nat)
    requires n <= m
    ensures Power(n) <= Power(m)
  {
    if n < m {
      PowerGrows(n, m - 1);
    }
  }

  lemma SixteenBits()
    ensures Power(7) == 128 && Power(16) == 65536
  {
    assert Power(4) == 16;
    assert Power(7) == 128;
    assert Power(10) == 1024;
    assert Power(13) == 8192;
  }

  lemma HighIsMulticast(a: Address)
    requires a.family.IPv6? && ValidAddress(a) && a.bits[0] && BitsValue(a.bits[..8]) == 0xff
    ensures !AllowedAddress(a)
  {
    TopBitIsLarge(a.bits[..96]);
    PowerGrows(16, 95);
    SixteenBits();
  }

  lemma GroupIsMulticast()
    ensures ValidAddress(GROUP) && !AllowedAddress(GROUP)
  {
    EightBits();
    ByteOfItsBits(0xff, 8);
    var top := BitsOfByte(0xff, 8);
    assert GROUP.bits == top + Bits(([0xff] + Zeros(15))[1..]);
    assert GROUP.bits[..8] == top;
    if !top[0] {
      FirstBit(top);
    }
    HighIsMulticast(GROUP);
  }

  lemma FirstBit(bits: seq<bool>)
    requires |bits| == 8 && !bits[0]
    ensures BitsValue(bits) < 128
  {
    var rest := bits[1..];
    BitsOfTheirByte(rest);
    LeadingZero(bits);
    SixteenBits();
  }

  lemma {:induction false} LeadingZero(bits: seq<bool>)
    requires bits != [] && !bits[0]
    ensures BitsValue(bits) == BitsValue(bits[1..])
  {
    if |bits| > 1 {
      LeadingZero(bits[..|bits| - 1]);
      assert bits[1..][..|bits| - 2] == bits[..|bits| - 1][1..];
    }
  }

  /** A node state with that loopback is sent, and whoever reads it refuses it. */
  lemma GroupLoopbackIsRefused()
    ensures
      var m := Blank(NODE_STATE).(loopback := Some(GROUP));
      SizedMessage(m) && Encode(m).Some? && Decode(Encode(m).value) == None
  {
    GroupIsMulticast();
    var m := Blank(NODE_STATE).(loopback := Some(GROUP));
    var vs := Views(m).value;
    assert |vs[0].value| == 16;
    assert Encode(m).Some? by {
      assert vs[..0] == [];
      assert |Serialize(vs)| < 4000;
    }
    RoundTrip(m);
  }

  // ---------------------------------------------------------------- extensions

  lemma {:induction false} FieldConcat(kind: nat, pre: seq<View>, post: seq<View>, other: seq<View>, tlv: nat)
    requires Field(kind, pre, tlv) == Field(kind, other, tlv)
    ensures Field(kind, pre + post, tlv) == Field(kind, other + post, tlv)
  {
    if post == [] {
      assert pre + post == pre && other + post == other;
    } else {
      var init, last := post[..|post| - 1], post[|post| - 1];
      var a, b := pre + init, other + init;
      FieldConcat(kind, pre, init, other, tlv);
      FieldPush(kind, a, last, tlv);
      FieldPush(kind, b, last, tlv);
      assert pre + post == a + [last];
      assert other + post == b + [last];
    }
  }

  /** The TLV is of a type the message does not read, or comes after as many of its type as the message reads. */
  predicate Ignored(kind: nat, pre: seq<View>, v: View) {
    |Field(kind, pre, v.kind)| >= Limit(kind, v.kind)
  }

  lemma IgnoredFields(kind: nat, pre: seq<View>, v: View, post: seq<View>, tlv: nat)
    requires Ignored(kind, pre, v)
    ensures Field(kind, pre + [v] + post, tlv) == Field(kind, pre + post, tlv)
  {
    FieldPush(kind, pre, v, tlv);
    FieldConcat(kind, pre + [v], post, pre, tlv);
  }

  /** What a frame decodes to depends only on the fields its type reads. */
  lemma SameFieldsSameMessage(kind: nat, vs: seq<View>, ws: seq<View>)
    requires forall tlv: nat :: Field(kind, vs, tlv) == Field(kind, ws, tlv)
    ensures DecodeBody(kind, vs) == DecodeBody(kind, ws)
  {
    var f, g := (tlv: nat) => Field(kind, vs, tlv), (tlv: nat) => Field(kind, ws, tlv);
    assert f(NODE_UID_TLV) == g(NODE_UID_TLV) && f(LOOPBACK_V6_TLV) == g(LOOPBACK_V6_TLV);
    assert f(LINK_PREFIX_V4_TLV) == g(LINK_PREFIX_V4_TLV) && f(LINK_PREFIX_V6_TLV) == g(LINK_PREFIX_V6_TLV);
    assert f(OPERATION_ID_TLV) == g(OPERATION_ID_TLV) && f(WG_PUBLIC_KEY_TLV) == g(WG_PUBLIC_KEY_TLV);
    assert f(WG_ENDPOINT_TLV) == g(WG_ENDPOINT_TLV) && f(PROBE_KEY_TLV) == g(PROBE_KEY_TLV);
    assert f(DISCOVERY_DATA_TLV) == g(DISCOVERY_DATA_TLV) && f(SEALED_PROBE_TLV) == g(SEALED_PROBE_TLV);
    assert f(DECLINE_REASON_TLV) == g(DECLINE_REASON_TLV) && f(DYNAMIC_LINK_POLICY_TLV) == g(DYNAMIC_LINK_POLICY_TLV);
    assert f(FLAGS_TLV) == g(FLAGS_TLV) && f(STATUS_TLV) == g(STATUS_TLV);
    if IsDurable(kind) {
      SameDurable(kind, f, g);
    } else {
      SamePlain(kind, f, g);
    }
  }

  lemma SamePlain(kind: nat, f: nat -> seq<seq<Byte>>, g: nat -> seq<seq<Byte>>)
    requires forall tlv: nat :: f(tlv) == g(tlv)
    ensures DecodePlain(kind, f) == DecodePlain(kind, g)
  {
  }

  lemma SameDurable(kind: nat, f: nat -> seq<seq<Byte>>, g: nat -> seq<seq<Byte>>)
    requires forall tlv: nat :: f(tlv) == g(tlv)
    ensures DecodeDurable(kind, f) == DecodeDurable(kind, g)
  {
  }

  /** Inserting, at any TLV boundary, a TLV of a type the message does not use, or one already at its occurrence limit,
      never changes what the frame decodes to. */
  lemma ExtensionsAreIgnored(kind: nat, pre: seq<View>, v: View, post: seq<View>)
    requires Known(kind) && Ignored(kind, pre, v)
    requires HEADER_LENGTH + |Serialize(pre + [v] + post)| <= MAX_FRAME_LENGTH
    ensures Decode(Frame(kind, Serialize(pre + [v] + post))) == Decode(Frame(kind, Serialize(pre + post)))
  {
    SerializeConcat(pre + [v], post);
    SerializeConcat(pre, [v]);
    SerializeConcat(pre, post);
    FrameDecodes(kind, pre + [v] + post);
    FrameDecodes(kind, pre + post);
    forall tlv: nat ensures Field(kind, pre + [v] + post, tlv) == Field(kind, pre + post, tlv) {
      IgnoredFields(kind, pre, v, post, tlv);
    }
    SameFieldsSameMessage(kind, pre + [v] + post, pre + post);
  }

  // ---------------------------------------------------------------- streams

  predicate OverTcp(kind: nat) {
    && kind != DISCOVERY_HELLO && kind != DISCOVERY_HELLO_ACK && kind != LINK_PING && kind != LINK_PONG
    && !IsPolicy(kind) && kind != PUBLIC_PROBE
  }

  /** What Write puts on a stream; None refuses the message. */
  function Written(m: Message): Option<seq<Byte>>
    requires SizedMessage(m)
  {
    if OverTcp(m.kind) then Encode(m) else None
  }

  /** Read: one frame off the front of a stream. */
  function ReadFrame(stream: seq<Byte>): Option<(seq<Byte>, seq<Byte>)> {
    if |stream| < HEADER_LENGTH then None
    else
      match FrameLength(stream[..HEADER_LENGTH])
      case None => None
      case Some(length) => if |stream| < length then None else Some((stream[..length], stream[length..]))
  }

  /** The messages of a stream of whole frames. */
  function ReadAll(stream: seq<Byte>): Option<seq<Message>>
    decreases |stream|
  {
    if stream == [] then Some([])
    else
      match ReadFrame(stream)
      case None => None
      case Some((frame, rest)) =>
        var m, ms := Decode(frame), if |rest| < |stream| then ReadAll(rest) else None;
        if m.None? || ms.None? then None else Some([m.value] + ms.value)
  }

  function WriteAll(ms: seq<Message>): seq<Byte>
    requires forall i | 0 <= i < |ms| :: SizedMessage(ms[i]) && Written(ms[i]).Some?
  {
    if ms == [] then [] else Written(ms[0]).value + WriteAll(ms[1..])
  }

  function RestrictAll(ms: seq<Message>): seq<Message> {
    if ms == [] then [] else [Restrict(ms[0])] + RestrictAll(ms[1..])
  }

  lemma ReadsBack(m: Message, rest: seq<Byte>)
    requires SizedMessage(m) && Encode(m).Some?
    ensures ReadFrame(Encode(m).value + rest) == Some((Encode(m).value, rest))
    ensures Encode(m).value != []
  {
    var body := Serialize(Views(m).value);
    HeaderReads(m.kind, body, rest);
    HeaderReads(m.kind, body, []);
    var b := Frame(m.kind, body) + rest;
    assert b[..HEADER_LENGTH][..4] == b[..4] && b[..HEADER_LENGTH][6..8] == b[6..8];
  }

  /** A stream of written frames reads back as exactly the messages written, in order, each restricted to its fields. */
  lemma {:induction false} StreamRoundTrip(ms: seq<Message>)
    requires forall i | 0 <= i < |ms| :: SizedMessage(ms[i]) && Written(ms[i]).Some? && AddressesAllowed(ms[i])
    ensures ReadAll(WriteAll(ms)) == Some(RestrictAll(ms))
  {
    if ms != [] {
      var rest := WriteAll(ms[1..]);
      ReadsBack(ms[0], rest);
      RoundTrip(ms[0]);
      StreamRoundTrip(ms[1..]);
    }
  }
}
