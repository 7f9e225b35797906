/** VFP frames and messages (internal/vfp/message/message.go and durable.go): which TLVs each message type uses, how a
    frame is read and written, and the loops that do it. */
module VfpMessage {
  import opened Common
  import opened Bytes
  import opened Net
  import opened Tlv
  import opened VfpValues
  import opened VfpControl

  const MAGIC: nat := 0x56465000
  const VERSION: nat := 1
  const HEADER_LENGTH: nat := 8
  const MAX_FRAME_LENGTH: nat := 4096

  const OPEN: nat := 0x01
  const NODE_STATE: nat := 0x02
  const LINK_PROPOSE: nat := 0x03
  const LINK_ACCEPT: nat := 0x04
  const DYNAMIC_LINK_PROPOSE: nat := 0x06
  const DYNAMIC_LINK_ACCEPT: nat := 0x07
  const DYNAMIC_LINK_DECLINE: nat := 0x08
  const DISCOVERY_HELLO: nat := 0x09
  const DISCOVERY_HELLO_ACK: nat := 0x0a
  const DISCOVERY_CONTROL: nat := 0x0b
  const PUBLIC_PROBE: nat := 0x0c
  const LINK_PING: nat := 0x0d
  const LINK_PONG: nat := 0x0e
  const POLICY_QUERY: nat := 0x0f
  const POLICY_UPDATE: nat := 0x10
  const DURABLE_PROPOSE: nat := 0x11
  const DURABLE_SAVED: nat := 0x12
  const DURABLE_DECLINE: nat := 0x13
  const DURABLE_CHECK: nat := 0x14
  const DURABLE_STATUS: nat := 0x15

  const NODE_UID_TLV: Kind := 0x0001
  const LOOPBACK_V6_TLV: Kind := 0x0003
  const LINK_PREFIX_V4_TLV: Kind := 0x0004
  const LINK_PREFIX_V6_TLV: Kind := 0x0005
  const OPERATION_ID_TLV: Kind := 0x0006
  const WG_PUBLIC_KEY_TLV: Kind := 0x0007
  const WG_ENDPOINT_TLV: Kind := 0x0008
  const PROBE_KEY_TLV: Kind := 0x0009
  const DISCOVERY_DATA_TLV: Kind := 0x000a
  const SEALED_PROBE_TLV: Kind := 0x000b
  const DECLINE_REASON_TLV: Kind := 0x000c
  const DYNAMIC_LINK_POLICY_TLV: Kind := 0x000d
  const FLAGS_TLV: Kind := 0x000e
  const STATUS_TLV: Kind := 0x000f

  const DECLINE_POLICY: nat := 1
  const ABSENT: nat := 2

  datatype FixedEndpoint = FixedEndpoint(uid: Uid, endpoint: Option<Endpoint>)

  datatype Message = Message(
    kind: nat,
    uid: Option<Uid>,
    loopback: Option<Address>,
    prefixV4: Option<Cidr>,
    prefixV6: Option<Cidr>,
    operation: seq<Byte>,
    agreement: seq<Byte>,
    publicKey: seq<Byte>,
    probeKey: seq<Byte>,
    endpoint: Option<Endpoint>,
    data: seq<Byte>,
    reason: nat,
    policy: Option<Policy>,
    fixed: seq<FixedEndpoint>,
    flags: nat,
    status: nat)

  /** Go's zero Message of a type. */
  function Blank(kind: nat): Message {
    Message(kind, None, None, None, None, Zeros(16), Zeros(16), Zeros(32), Zeros(32), None, [], 0, None, [], 0, 0)
  }

  predicate SizedUid(u: Uid) {
    |u.uuid| == 16
  }

  predicate SizedCidr(c: Cidr) {
    ValidAddress(c.address) && c.length <= Width(c.address.family)
  }

  /** The ranges of Go's field types; the IPv4 prefix field holds IPv4 only, since its address is taken as four
      octets. */
  predicate SizedMessage(m: Message) {
    && m.kind < 256 && |m.operation| == 16 && |m.agreement| == 16 && |m.publicKey| == 32 && |m.probeKey| == 32
    && (m.uid.Some? ==> SizedUid(m.uid.value))
    && (m.loopback.Some? ==> ValidAddress(m.loopback.value))
    && (m.prefixV4.Some? ==> SizedCidr(m.prefixV4.value) && m.prefixV4.value.address.family.IPv4?)
    && (m.prefixV6.Some? ==> SizedCidr(m.prefixV6.value))
    && (m.endpoint.Some? ==> SizedEndpoint(m.endpoint.value))
    && m.reason < 256 && m.status < 256 && m.flags < 0x1_0000_0000
    && (m.policy.Some? ==> m.policy.value.revision < REVISIONS)
    && (forall i | 0 <= i < |m.fixed| ::
          SizedUid(m.fixed[i].uid) && (m.fixed[i].endpoint.Some? ==> SizedEndpoint(m.fixed[i].endpoint.value)))
  }

  // ---------------------------------------------------------------- which TLVs count

  predicate IsPolicy(kind: nat) {
    kind == POLICY_QUERY || kind == POLICY_UPDATE
  }

  predicate IsDurable(kind: nat) {
    DURABLE_PROPOSE <= kind <= DURABLE_STATUS
  }

  predicate Known(kind: nat) {
    OPEN <= kind <= DURABLE_STATUS && kind != 0x05
  }

  predicate UsedBy(kind: nat, tlv: nat) {
    if kind == OPEN || kind == POLICY_QUERY then tlv == NODE_UID_TLV
    else if kind == POLICY_UPDATE then tlv == NODE_UID_TLV || tlv == DYNAMIC_LINK_POLICY_TLV
    else if kind == NODE_STATE then tlv == LOOPBACK_V6_TLV
    else if kind == LINK_PROPOSE then tlv == LINK_PREFIX_V4_TLV || tlv == LINK_PREFIX_V6_TLV
    else if kind == LINK_PING then tlv == OPERATION_ID_TLV
    else if kind == LINK_PONG then tlv == OPERATION_ID_TLV || tlv == WG_ENDPOINT_TLV
    else if kind == DYNAMIC_LINK_PROPOSE || kind == DYNAMIC_LINK_ACCEPT then
      tlv == OPERATION_ID_TLV || tlv == WG_PUBLIC_KEY_TLV || tlv == WG_ENDPOINT_TLV || tlv == PROBE_KEY_TLV
    else if kind == DISCOVERY_CONTROL then tlv == OPERATION_ID_TLV || tlv == DISCOVERY_DATA_TLV
    else if kind == PUBLIC_PROBE then tlv == SEALED_PROBE_TLV
    else if kind == DYNAMIC_LINK_DECLINE then
      tlv == OPERATION_ID_TLV || tlv == DECLINE_REASON_TLV || tlv == DYNAMIC_LINK_POLICY_TLV
    else false
  }

  function DurableOccurrences(kind: nat, tlv: nat): nat {
    if tlv == OPERATION_ID_TLV then (if kind == DURABLE_CHECK || kind == DURABLE_STATUS then 2 else 1)
    else if (tlv == NODE_UID_TLV || tlv == WG_ENDPOINT_TLV) && kind == DURABLE_PROPOSE then 2
    else if tlv == FLAGS_TLV && kind == DURABLE_PROPOSE then 1
    else if tlv == STATUS_TLV && kind == DURABLE_STATUS then 1
    else if (tlv == DECLINE_REASON_TLV || tlv == DYNAMIC_LINK_POLICY_TLV) && kind == DURABLE_DECLINE then 1
    else 0
  }

  /** How many TLVs of one type a message of a kind reads. */
  function Limit(kind: nat, tlv: nat): nat {
    if IsDurable(kind) then DurableOccurrences(kind, tlv) else if UsedBy(kind, tlv) then 1 else 0
  }

  /** The values of the first `Limit` TLVs of one type. */
  function Field(kind: nat, vs: seq<View>, tlv: nat): seq<seq<Byte>> {
    if vs == [] then []
    else
      var before, v := Field(kind, vs[..|vs| - 1], tlv), vs[|vs| - 1];
      if v.kind == tlv && |before| < Limit(kind, tlv) then before + [v.value] else before
  }

  // ---------------------------------------------------------------- decoding a body

  /** A missing value reads as an empty one where its length is checked next. */
  function OrEmpty(f: seq<seq<Byte>>): seq<Byte> {
    if f == [] then [] else f[0]
  }

  function Optional<T>(present: bool, r: Option<T>): Option<Option<T>> {
    if !present then Some(None) else if r.None? then None else Some(r)
  }

  function DecodeIdentity(m: Message, f: nat -> seq<seq<Byte>>): Option<Message> {
    match ParseUid(OrEmpty(f(NODE_UID_TLV)))
    case None => None
    case Some(uid) =>
      var named := m.(uid := Some(if IsPolicy(m.kind) then uid.(name := []) else uid));
      if m.kind != POLICY_UPDATE then Some(named)
      else
        match ParsePolicy(OrEmpty(f(DYNAMIC_LINK_POLICY_TLV)))
        case None => None
        case Some(p) => Some(named.(policy := Some(p)))
  }

  function DecodeState(m: Message, f: nat -> seq<seq<Byte>>): Option<Message> {
    match ParseAddress(OrEmpty(f(LOOPBACK_V6_TLV)), IPv6)
    case None => None
    case Some(a) => Some(m.(loopback := Some(a)))
  }

  function DecodePrefixes(m: Message, f: nat -> seq<seq<Byte>>): Option<Message> {
    var v4 := Optional(f(LINK_PREFIX_V4_TLV) != [], ParsePrefix(OrEmpty(f(LINK_PREFIX_V4_TLV)), IPv4));
    var v6 := Optional(f(LINK_PREFIX_V6_TLV) != [], ParsePrefix(OrEmpty(f(LINK_PREFIX_V6_TLV)), IPv6));
    if v4.None? || v6.None? then None else Some(m.(prefixV4 := v4.value, prefixV6 := v6.value))
  }

  function DecodeProbe(m: Message, f: nat -> seq<seq<Byte>>): Option<Message> {
    var id := OrEmpty(f(OPERATION_ID_TLV));
    var e := Optional(m.kind == LINK_PONG && f(WG_ENDPOINT_TLV) != [], ParseEndpoint(OrEmpty(f(WG_ENDPOINT_TLV))));
    if |id| != 16 || AllZero(id) || e.None? then None else Some(m.(operation := id, endpoint := e.value))
  }

  function DecodeOffer(m: Message, f: nat -> seq<seq<Byte>>): Option<Message> {
    var id, key, probe := OrEmpty(f(OPERATION_ID_TLV)), OrEmpty(f(WG_PUBLIC_KEY_TLV)), OrEmpty(f(PROBE_KEY_TLV));
    var e := ParseEndpoint(OrEmpty(f(WG_ENDPOINT_TLV)));
    if |probe| != 32 || |id| != 16 || |key| != 32 || AllZero(key) || e.None? then None
    else Some(m.(probeKey := probe, operation := id, publicKey := key, endpoint := e))
  }

  function DecodeData(m: Message, f: nat -> seq<seq<Byte>>): Option<Message> {
    if m.kind == DISCOVERY_CONTROL then
      var id, data := OrEmpty(f(OPERATION_ID_TLV)), OrEmpty(f(DISCOVERY_DATA_TLV));
      if |id| != 16 || DecodeControl(data).None? then None else Some(m.(operation := id, data := data))
    else
      var data := OrEmpty(f(SEALED_PROBE_TLV));
      if |data| != 50 && |data| != 62 then None else Some(m.(data := data))
  }

  function DecodePlain(kind: nat, f: nat -> seq<seq<Byte>>): Option<Message> {
    var m := Blank(kind);
    if kind == OPEN || IsPolicy(kind) then DecodeIdentity(m, f)
    else if kind == NODE_STATE then DecodeState(m, f)
    else if kind == LINK_PROPOSE then DecodePrefixes(m, f)
    else if kind == LINK_PING || kind == LINK_PONG then DecodeProbe(m, f)
    else if kind == DYNAMIC_LINK_PROPOSE || kind == DYNAMIC_LINK_ACCEPT then DecodeOffer(m, f)
    else if kind == DISCOVERY_CONTROL || kind == PUBLIC_PROBE then DecodeData(m, f)
    else if kind == DYNAMIC_LINK_DECLINE then
      var id := OrEmpty(f(OPERATION_ID_TLV));
      match DecodeDecline(m, f)
      case None => None
      case Some(declined) => if |id| != 16 then None else Some(declined.(operation := id))
    else if kind == LINK_ACCEPT || kind == DISCOVERY_HELLO || kind == DISCOVERY_HELLO_ACK then Some(m)
    else None
  }

  /** The reason and policy of a refusal: a policy refusal carries the policy that refuses. */
  function DecodeDecline(m: Message, f: nat -> seq<seq<Byte>>): Option<Message> {
    var reason := OrEmpty(f(DECLINE_REASON_TLV));
    var p := Optional(f(DYNAMIC_LINK_POLICY_TLV) != [], ParsePolicy(OrEmpty(f(DYNAMIC_LINK_POLICY_TLV))));
    if |reason| != 1 || reason[0] > DECLINE_POLICY || p.None? then None
    else if reason[0] == DECLINE_POLICY && (p.value.None? || p.value.value.accept) then None
    else Some(m.(reason := reason[0], policy := p.value))
  }

  predicate Ascending(a: seq<Byte>, b: seq<Byte>) {
    a != [] && b != [] && (a[0] < b[0] || (a[0] == b[0] && Ascending(a[1..], b[1..])))
  }

  /** The endpoints of a durable proposal, their owners in ascending order. */
  function DecodeFixed(uids: seq<seq<Byte>>, endpoints: seq<seq<Byte>>): Option<seq<FixedEndpoint>>
    requires |uids| == |endpoints|
  {
    if uids == [] then Some([])
    else
      var last := |uids| - 1;
      AddFixed(DecodeFixed(uids[..last], endpoints[..last]), uids[last], endpoints[last])
  }

  function AddFixed(before: Option<seq<FixedEndpoint>>, owner: seq<Byte>,
      value: seq<Byte>): Option<seq<FixedEndpoint>>
  {
    var uid, e := ParseUid(owner), ParseEndpoint(value);
    if before.None? || uid.None? || e.None? then None
    else if before.value != [] && !Ascending(before.value[|before.value| - 1].uid.uuid, uid.value.uuid) then None
    else Some(before.value + [FixedEndpoint(uid.value, e)])
  }

  function DecodeDurable(kind: nat, f: nat -> seq<seq<Byte>>): Option<Message> {
    var ids := f(OPERATION_ID_TLV);
    if |ids| != DurableOccurrences(kind, OPERATION_ID_TLV) || |ids| == 0 || |ids[0]| != 16 || AllZero(ids[0]) then None
    else if |ids| == 2 && (|ids[1]| != 16 || AllZero(ids[1])) then None
    else
      var m := Blank(kind).(operation := ids[0], agreement := if |ids| == 2 then ids[1] else Zeros(16));
      if kind == DURABLE_PROPOSE then DecodeProposal(m, f)
      else if kind == DURABLE_STATUS then
        var status := f(STATUS_TLV);
        if |status| != 1 || |status[0]| != 1 || status[0][0] > ABSENT then None else Some(m.(status := status[0][0]))
      else if kind == DURABLE_DECLINE then DecodeDecline(m, f)
      else Some(m)
  }

  function DecodeProposal(m: Message, f: nat -> seq<seq<Byte>>): Option<Message> {
    var uids, endpoints, flags := f(NODE_UID_TLV), f(WG_ENDPOINT_TLV), f(FLAGS_TLV);
    if |uids| == 0 || |uids| != |endpoints| then None
    else
      match DecodeFixed(uids, endpoints)
      case None => None
      case Some(fixed) =>
        if flags == [] then Some(m.(fixed := fixed))
        else if |flags[0]| != 4 then None
        else Some(m.(fixed := fixed, flags := Uint(flags[0])))
  }

  function DecodeBody(kind: nat, vs: seq<View>): Option<Message> {
    var f := (tlv: nat) => Field(kind, vs, tlv);
    if IsDurable(kind) then DecodeDurable(kind, f) else DecodePlain(kind, f)
  }

  // ---------------------------------------------------------------- frames

  function Header(kind: nat, length: nat): seq<Byte>
    requires kind < 256
  {
    PutUint(MAGIC, 4) + [VERSION, kind] + PutUint(length % 0x1_0000, 2)
  }

  /** The declared length, checked before anything of the body is read. */
  function FrameLength(frame: seq<Byte>): (r: Option<nat>)
    ensures r.Some? ==> HEADER_LENGTH <= r.value <= MAX_FRAME_LENGTH
  {
    if |frame| < HEADER_LENGTH || Uint(frame[..4]) != MAGIC || frame[4] != VERSION then None
    else
      var length := Uint(frame[6..8]);
      if length < HEADER_LENGTH || length > MAX_FRAME_LENGTH then None else Some(length)
  }

  function Decode(frame: seq<Byte>): Option<Message> {
    if FrameLength(frame) != Some(|frame|) || !Known(frame[5]) then None
    else
      match Parse(frame[HEADER_LENGTH..])
      case None => None
      case Some(vs) => DecodeBody(frame[5], vs)
  }

  // ---------------------------------------------------------------- encoding

  function Id(b: seq<Byte>): View {
    View(OPERATION_ID_TLV, b)
  }

  function Single(tlv: Kind, value: Option<seq<Byte>>): Option<seq<View>> {
    if value.None? then None else Some([View(tlv, value.value)])
  }

  function Both(a: Option<seq<View>>, b: Option<seq<View>>): Option<seq<View>> {
    if a.None? || b.None? then None else Some(a.value + b.value)
  }

  function EndpointOctets(e: Option<Endpoint>): Option<seq<Byte>>
    requires e.Some? ==> SizedEndpoint(e.value)
  {
    if e.None? then None else EncodeEndpoint(e.value)
  }

  function PrefixViews(c: Option<Cidr>, family: Family, tlv: Kind): Option<seq<View>>
    requires c.Some? ==> SizedCidr(c.value) && (family.IPv4? ==> c.value.address.family.IPv4?)
  {
    if c.None? then Some([])
    else if c.value.length != LinkBits(family) || !Masked(c.value) then None
    else Some([View(tlv, AddressOctets(c.value.address))])
  }

  predicate RefusalOk(m: Message) {
    m.reason <= DECLINE_POLICY && (m.reason == DECLINE_POLICY ==> m.policy.Some? && !m.policy.value.accept)
  }

  function PolicyViews(p: Option<Policy>): Option<seq<View>> {
    if p.None? then Some([]) else Single(DYNAMIC_LINK_POLICY_TLV, EncodePolicy(p))
  }

  function FixedViews(fixed: seq<FixedEndpoint>): Option<seq<View>>
    requires forall i | 0 <= i < |fixed| :: fixed[i].endpoint.Some? ==> SizedEndpoint(fixed[i].endpoint.value)
  {
    if fixed == [] then Some([])
    else
      var last := fixed[|fixed| - 1];
      Both(FixedViews(fixed[..|fixed| - 1]),
           Both(Single(NODE_UID_TLV, EncodeUid(last.uid)), Single(WG_ENDPOINT_TLV, EndpointOctets(last.endpoint))))
  }

  function DurableViews(m: Message): Option<seq<View>>
    requires SizedMessage(m)
  {
    var ids := if m.kind == DURABLE_CHECK
        || m.kind == DURABLE_STATUS then [Id(m.operation), Id(m.agreement)] else [Id(m.operation)];
    if m.kind == DURABLE_PROPOSE then
      if |m.fixed| < 1 || |m.fixed| > 2 then None
      else
        Both(Both(Some(ids), FixedViews(m.fixed)),
             Some(if m.flags != 0 then [View(FLAGS_TLV, PutUint(m.flags, 4))] else []))
    else if m.kind == DURABLE_STATUS then Some(ids + [View(STATUS_TLV, [m.status])])
    else if m.kind == DURABLE_DECLINE
        then Both(Some(ids + [View(DECLINE_REASON_TLV, [m.reason])]), PolicyViews(m.policy))
    else Some(ids)
  }

  function IdentityViews(m: Message): Option<seq<View>>
    requires SizedMessage(m)
  {
    if m.uid.None? then None
    else
      Both(Single(NODE_UID_TLV, EncodeUid(if IsPolicy(m.kind) then m.uid.value.(name := []) else m.uid.value)),
           if m.kind == POLICY_UPDATE then Single(DYNAMIC_LINK_POLICY_TLV, EncodePolicy(m.policy)) else Some([]))
  }

  function StateViews(m: Message): Option<seq<View>>
    requires SizedMessage(m)
  {
    if m.loopback.None? || m.loopback.value.family.IPv4? then None
    else Some([View(LOOPBACK_V6_TLV, AddressOctets(m.loopback.value))])
  }

  function ProbeViews(m: Message): Option<seq<View>>
    requires SizedMessage(m)
  {
    if AllZero(m.operation) then None
    else
      Both(Some([Id(m.operation)]),
           if m.kind == LINK_PONG && m.endpoint.Some? then Single(WG_ENDPOINT_TLV, EndpointOctets(m.endpoint))
           else Some([]))
  }

  function OfferViews(m: Message): Option<seq<View>>
    requires SizedMessage(m)
  {
    var e := EndpointOctets(m.endpoint);
    if AllZero(m.publicKey) || e.None? then None
    else
      Some([Id(m.operation), View(WG_PUBLIC_KEY_TLV, m.publicKey), View(WG_ENDPOINT_TLV, e.value),
            View(PROBE_KEY_TLV, m.probeKey)])
  }

  function DataViews(m: Message): Option<seq<View>> {
    if m.kind == DISCOVERY_CONTROL then
      if DecodeControl(m.data).None? then None else Some([Id(m.operation), View(DISCOVERY_DATA_TLV, m.data)])
    else if |m.data| != 50 && |m.data| != 62 then None
    else Some([View(SEALED_PROBE_TLV, m.data)])
  }

  /** The TLVs of a message; None is an encoding error. */
  function Views(m: Message): Option<seq<View>>
    requires SizedMessage(m)
  {
    if IsDurable(m.kind) then
      match DurableViews(m)
      case None => None
      case Some(vs) => if DecodeBody(m.kind, vs).None? then None else Some(vs)
    else if m.kind == OPEN || IsPolicy(m.kind) then IdentityViews(m)
    else if m.kind == NODE_STATE then StateViews(m)
    else if m.kind == LINK_PROPOSE then
      Both(PrefixViews(m.prefixV4, IPv4, LINK_PREFIX_V4_TLV), PrefixViews(m.prefixV6, IPv6, LINK_PREFIX_V6_TLV))
    else if m.kind == LINK_ACCEPT || m.kind == DISCOVERY_HELLO || m.kind == DISCOVERY_HELLO_ACK then Some([])
    else if m.kind == LINK_PING || m.kind == LINK_PONG then ProbeViews(m)
    else if m.kind == DYNAMIC_LINK_PROPOSE || m.kind == DYNAMIC_LINK_ACCEPT then OfferViews(m)
    else if m.kind == DISCOVERY_CONTROL || m.kind == PUBLIC_PROBE then DataViews(m)
    else if m.kind == DYNAMIC_LINK_DECLINE then
      if !RefusalOk(m) then None
      else Both(Some([Id(m.operation), View(DECLINE_REASON_TLV, [m.reason])]), PolicyViews(m.policy))
    else None
  }

  function Frame(kind: nat, body: seq<Byte>): seq<Byte>
    requires kind < 256
  {
    Header(kind, HEADER_LENGTH + |body|) + body
  }

  function Encode(m: Message): Option<seq<Byte>>
    requires SizedMessage(m)
  {
    match Views(m)
    case None => None
    case Some(vs) =>
      var body := Serialize(vs);
      if HEADER_LENGTH + |body| > MAX_FRAME_LENGTH then None else Some(Frame(m.kind, body))
  }

  /** Only the fields that the type of a message uses. */
  function Restrict(m: Message): Message {
    var b := Blank(m.kind);
    if m.kind == OPEN then b.(uid := m.uid)
    else if IsPolicy(m.kind) then
      b.(uid := if m.uid.None? then None else Some(m.uid.value.(name := [])),
         policy := if m.kind == POLICY_UPDATE then m.policy else None)
    else if m.kind == NODE_STATE then b.(loopback := m.loopback)
    else if m.kind == LINK_PROPOSE then b.(prefixV4 := m.prefixV4, prefixV6 := m.prefixV6)
    else if m.kind == LINK_PING then b.(operation := m.operation)
    else if m.kind == LINK_PONG then b.(operation := m.operation, endpoint := m.endpoint)
    else if m.kind == DYNAMIC_LINK_PROPOSE || m.kind == DYNAMIC_LINK_ACCEPT then
      b.(operation := m.operation, publicKey := m.publicKey, endpoint := m.endpoint, probeKey := m.probeKey)
    else if m.kind == DISCOVERY_CONTROL then b.(operation := m.operation, data := m.data)
    else if m.kind == PUBLIC_PROBE then b.(data := m.data)
    else if m.kind == DYNAMIC_LINK_DECLINE || m.kind == DURABLE_DECLINE then
      b.(operation := m.operation, reason := m.reason, policy := m.policy)
    else if m.kind == DURABLE_PROPOSE then b.(operation := m.operation, fixed := m.fixed, flags := m.flags)
    else if m.kind == DURABLE_SAVED then b.(operation := m.operation)
    else if m.kind == DURABLE_CHECK then b.(operation := m.operation, agreement := m.agreement)
    else if m.kind == DURABLE_STATUS then b.(operation := m.operation, agreement := m.agreement, status := m.status)
    else b
  }

  /** The addresses of a message pass the receiver's check, which the sender does not make for these types. */
  predicate AddressesAllowed(m: Message) {
    && (m.kind == NODE_STATE ==> m.loopback.Some? ==> AllowedAddress(m.loopback.value))
    && (m.kind == LINK_PROPOSE ==>
          && (m.prefixV4.Some? ==> AllowedAddress(m.prefixV4.value.address))
          && (m.prefixV6.Some? ==> AllowedAddress(m.prefixV6.value.address)))
  }
}
