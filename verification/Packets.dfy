/** Control packets and how they are laid out (minimq/src/packets.rs, minimq/src/ser/mod.rs). */
module Packets {
  import opened Bytes
  import opened Wire
  import opened Properties
  import Varint

  predicate KnownReason(b: Byte) {
    || b in {0x00, 0x01, 0x02, 0x04, 0x10, 0x11, 0x18, 0x19}
    || 0x80 <= b <= 0x89
    || 0x8C <= b <= 0xA2
  }

  /** `ReasonCode`: a documented code, or the catch-all 0xFF. */
  type ReasonCode = b: Byte | KnownReason(b) || b == 0xFF

  const SUCCESS: ReasonCode := 0x00
  const PACKET_ID_IN_USE: ReasonCode := 0x91
  const PACKET_ID_NOT_FOUND: ReasonCode := 0x92
  const RECEIVE_MAX_EXCEEDED: ReasonCode := 0x93

  /** `ReasonCode::from`: undocumented bytes collapse to the catch-all. */
  function ReasonOf(b: Byte): ReasonCode {
    if KnownReason(b) then b else 0xFF
  }

  predicate Success(code: ReasonCode) {
    code < 0x80
  }

  /** The optional reason code and property block that end an acknowledgement or a DISCONNECT. */
  datatype Reason = Absent | Reason(code: ReasonCode, properties: Option<Block>) {
    function Code(): ReasonCode {
      if Absent? then SUCCESS else code
    }
  }

  datatype Packet =
    | ConnAck(sessionPresent: bool, code: ReasonCode, properties: Block)
    | Publish(topic: Text, packetId: Option<U16>, properties: Block, payload: seq<Byte>,
              retain: bool, qos: QoS, dup: bool)
    | PubAck(id: U16, reason: Reason)
    | PubRec(id: U16, reason: Reason)
    | PubRel(id: U16, reason: Reason)
    | PubComp(id: U16, reason: Reason)
    | SubAck(id: U16, properties: Block, codes: seq<Byte>)
    | UnsubAck(id: U16, properties: Block, codes: seq<Byte>)
    | Disconnect(reason: Reason)
    | PingResp

  /** The packets a client both sends and can receive. */
  predicate TwoWay(p: Packet) {
    p.Publish? || p.PubAck? || p.PubRec? || p.PubRel? || p.PubComp? || p.Disconnect?
  }

  function HeaderOf(p: Packet): Byte
    requires TwoWay(p)
  {
    match p
    case Publish(_, _, _, _, retain, qos, dup) => PublishHeader(qos, retain, dup)
    case PubAck(_, _) => ControlHeader(MessageType.PubAck)
    case PubRec(_, _) => ControlHeader(MessageType.PubRec)
    case PubRel(_, _) => ControlHeader(MessageType.PubRel)
    case PubComp(_, _) => ControlHeader(MessageType.PubComp)
    case Disconnect(_) => ControlHeader(MessageType.Disconnect)
  }

  function ReasonFields(r: Reason): Fields {
    match r
    case Absent => Whole([])
    case Reason(code, None) => Whole([code])
    case Reason(code, Some(block)) => Whole([code]).Then(BlockFields(block))
  }

  function IdField(id: Option<U16>): Fields {
    if id.None? then Whole([]) else Whole(Be16(id.value))
  }

  /** The variable header of a PUBLISH; the payload follows it. */
  function PublishFields(topic: Text, id: Option<U16>, properties: Block): Fields {
    LengthPrefixed(topic).Then(IdField(id).Then(BlockFields(properties)))
  }

  function AckFields(id: U16, reason: Reason): Fields {
    Whole(Be16(id)).Then(ReasonFields(reason))
  }

  function BodyFields(p: Packet): Fields
    requires TwoWay(p)
  {
    match p
    case Publish(topic, id, properties, payload, _, _, _) =>
      PublishFields(topic, id, properties).Then(Whole(payload))
    case PubAck(id, reason) => AckFields(id, reason)
    case PubRec(id, reason) => AckFields(id, reason)
    case PubRel(id, reason) => AckFields(id, reason)
    case PubComp(id, reason) => AckFields(id, reason)
    case Disconnect(reason) => ReasonFields(reason)
  }

  function TopicFields(topics: seq<(Text, Byte)>): Fields {
    if topics == [] then Whole([])
    else LengthPrefixed(topics[0].0).Then(Whole([topics[0].1])).Then(TopicFields(topics[1..]))
  }

  /** SUBSCRIBE: identifier, properties, then each filter with its options byte. */
  function SubscribeFields(id: U16, properties: Block, topics: seq<(Text, Byte)>): Fields {
    Whole(Be16(id)).Then(BlockFields(properties)).Then(TopicFields(topics))
  }

  function FilterFields(filters: seq<Text>): Fields {
    if filters == [] then Whole([]) else LengthPrefixed(filters[0]).Then(FilterFields(filters[1..]))
  }

  /** UNSUBSCRIBE: identifier, properties, then each filter. */
  function UnsubscribeFields(id: U16, properties: Block, filters: seq<Text>): Fields {
    Whole(Be16(id)).Then(BlockFields(properties)).Then(FilterFields(filters))
  }

  datatype Will = Will(topic: Text, data: seq<Byte>, qos: QoS, retained: bool, properties: seq<Property>)
  datatype Auth = Auth(userName: Text, password: seq<Byte>)

  const PROTOCOL_NAME: seq<Byte> := [0x4D, 0x51, 0x54, 0x54]

  /** `Connect::flags`. */
  function ConnectFlags(cleanStart: bool, will: Option<Will>, auth: Option<Auth>): Byte {
    (if cleanStart then 0x02 else 0)
    + (if will.Some? then 0x04 + will.value.qos.Code() * 8 + (if will.value.retained then 0x20 else 0) else 0)
    + (if auth.Some? then 0xC0 else 0)
  }

  function WillFields(will: Option<Will>): Fields {
    match will
    case None => Whole([])
    case Some(w) => BlockFields(Slice(w.properties)).Then(LengthPrefixed(w.topic)).Then(LengthPrefixed(w.data))
  }

  function AuthFields(auth: Option<Auth>): Fields {
    match auth
    case None => Whole([])
    case Some(a) => LengthPrefixed(a.userName).Then(LengthPrefixed(a.password))
  }

  /** CONNECT. */
  function ConnectFields(cleanStart: bool, keepalive: U16, properties: Block, clientId: Text,
                         will: Option<Will>, auth: Option<Auth>): Fields {
    LengthPrefixed(PROTOCOL_NAME)
      .Then(Whole([5, ConnectFlags(cleanStart, will, auth)]))
      .Then(Whole(Be16(keepalive)))
      .Then(BlockFields(properties))
      .Then(LengthPrefixed(clientId))
      .Then(WillFields(will))
      .Then(AuthFields(auth))
  }

  /** A control packet on the wire: header byte, remaining length cast to 32 bits, body. */
  function Frame(header: Byte, body: seq<Byte>): (f: seq<Byte>)
    ensures |f| >= 2
  {
    [header] + Varint.Encode(TruncateU32(|body|)) + body
  }

  function Encode(p: Packet): seq<Byte>
    requires TwoWay(p)
  {
    Frame(HeaderOf(p), BodyFields(p).bytes)
  }

  /** Every field fits its length prefix, and a PUBLISH carries an identifier exactly above QoS 0. */
  predicate Sendable(p: Packet) {
    && TwoWay(p)
    && BodyFields(p).complete
    && |BodyFields(p).bytes| <= Varint.MAX
    && (p.Publish? ==> (p.qos.AtMostOnce? <==> p.packetId.None?))
  }

  // --------------------------------------------------------- encoding limits

  const MAX_FIXED_HEADER_SIZE: nat := 5

  datatype SerError = InsufficientMemory | Custom

  function Room(capacity: nat, used: nat): nat {
    if used <= capacity then capacity - used else 0
  }

  /** `finalize`: backfill the fixed header in front of a body that already fits. */
  function Finalize(capacity: nat, header: Byte, body: seq<Byte>): Result<seq<Byte>, SerError> {
    if TruncateU32(|body|) > Varint.MAX then Err(InsufficientMemory)
    else if capacity < MAX_FIXED_HEADER_SIZE then Err(InsufficientMemory)
    else Ok(Frame(header, body))
  }

  /** `encode_with_offset` into a buffer of `capacity` bytes. */
  function EncodeInto(capacity: nat, header: Byte, fields: Fields): Result<seq<Byte>, SerError> {
    if |fields.bytes| > Room(capacity, MAX_FIXED_HEADER_SIZE) then Err(InsufficientMemory)
    else if !fields.complete then Err(Custom)
    else Finalize(capacity, header, fields.bytes)
  }

  /** What a `ToPayload` value does when offered a given amount of space. */
  datatype PayloadOutcome = Written(bytes: seq<Byte>) | Failed
  type Payload = nat -> PayloadOutcome

  datatype PublishError = Encoding(error: SerError) | PayloadFailed

  /** `encode_publish_with_offset`: the payload is written straight into what the header leaves free. */
  function EncodePublishInto(capacity: nat, header: Byte, fields: Fields, payload: Payload)
    : Result<seq<Byte>, PublishError>
  {
    if |fields.bytes| > Room(capacity, MAX_FIXED_HEADER_SIZE) then Err(Encoding(InsufficientMemory))
    else if !fields.complete then Err(Encoding(Custom))
    else
      var room := Room(capacity, MAX_FIXED_HEADER_SIZE + |fields.bytes|);
      match payload(room)
      case Failed => Err(PayloadFailed)
      case Written(bytes) =>
        if |bytes| > room then Err(Encoding(InsufficientMemory))
        else match Finalize(capacity, header, fields.bytes + bytes)
          case Err(e) => Err(Encoding(e))
          case Ok(packet) => Ok(packet)
  }

  // ------------------------------------------------------------ whole frames

  /** What the first bytes of a stream say about its first packet. */
  datatype Cut = Packet(len: nat) | More | Malformed

  /** `probe_fixed_header` on the bytes received so far. */
  function FirstPacket(s: seq<Byte>): (c: Cut)
    ensures c.Packet? ==> c.len >= 2
  {
    if |s| < 2 then More
    else match Varint.Read(s[1..])
      case Incomplete => More
      case Invalid(_) => Malformed
      case Done(v, n) => Packet(1 + n + v)
  }

  /** A byte sequence that is exactly one control packet as far as framing goes. */
  ghost predicate IsFrame(s: seq<Byte>) {
    FirstPacket(s) == Packet(|s|)
  }

  lemma FirstPacketOfFrame(header: Byte, body: seq<Byte>, rest: seq<Byte>)
    requires TruncateU32(|body|) <= Varint.MAX
    ensures FirstPacket(Frame(header, body) + rest) ==
            Packet(|Frame(header, body)| - |body| + TruncateU32(|body|))
  {
    var s := Frame(header, body) + rest;
    var v := TruncateU32(|body|);
    assert s[1..] == Varint.Encode(v) + (body + rest);
    Varint.RoundTrip(v, body + rest);
  }

  /**
    * The remaining length written by `finalize` describes the packet exactly when the body is
    * within the MQTT limit: a longer body whose length wraps in the 32-bit cast is misframed.
    */
  lemma FrameIffWithinLimit(header: Byte, body: seq<Byte>)
    requires TruncateU32(|body|) <= Varint.MAX
    ensures IsFrame(Frame(header, body)) <==> |body| <= Varint.MAX
  {
    FirstPacketOfFrame(header, body, []);
    assert Frame(header, body) + [] == Frame(header, body);
    if |body| <= Varint.MAX {
      assert TruncateU32(|body|) == |body|;
    }
  }

  /** A body of 4 GiB is encoded without an error, with a remaining length of zero. */
  lemma LongBodyMisframed(header: Byte) returns (body: seq<Byte>)
    ensures |body| == 0x1_0000_0000
    ensures Finalize(|body| + MAX_FIXED_HEADER_SIZE, header, body).Ok?
    ensures !IsFrame(Finalize(|body| + MAX_FIXED_HEADER_SIZE, header, body).value)
  {
    body := seq(0x1_0000_0000, _ => 0);
    FrameIffWithinLimit(header, body);
  }

  lemma {:induction false} ReadStable(s: seq<Byte>, rest: seq<Byte>, room: nat)
    requires !Varint.Read(s, room).Incomplete?
    ensures Varint.Read(s + rest, room) == Varint.Read(s, room)
    decreases room
  {
    if room > 0 && s != [] && s[0] >= 0x80 {
      assert (s + rest)[1..] == s[1..] + rest;
      ReadStable(s[1..], rest, room - 1);
    }
  }

  /** More input never changes the answer once there is one. */
  lemma FirstPacketStable(s: seq<Byte>, rest: seq<Byte>)
    requires !FirstPacket(s).More?
    ensures FirstPacket(s + rest) == FirstPacket(s)
  {
    assert (s + rest)[1..] == s[1..] + rest;
    ReadStable(s[1..], rest, Varint.MAX_BYTES);
  }

  /** No packet is a proper prefix of another. */
  lemma FramesPrefixFree(s: seq<Byte>, t: seq<Byte>)
    requires IsFrame(s) && IsFrame(t) && s <= t
    ensures s == t
  {
    assert t == s + t[|s|..];
    FirstPacketStable(s, t[|s|..]);
  }

  /** Changing only the header byte keeps a frame a frame. */
  lemma ReheadedFrame(s: seq<Byte>, header: Byte)
    requires IsFrame(s)
    ensures IsFrame(s[0 := header])
  {
    assert s[0 := header][1..] == s[1..];
  }

  /** Within a 32-bit address space, what the encoder produces is always one whole packet that fits. */
  lemma FinalizedIsFrame(capacity: nat, header: Byte, body: seq<Byte>)
    requires |body| + MAX_FIXED_HEADER_SIZE <= capacity < 0x1_0000_0000 && Finalize(capacity, header, body).Ok?
    ensures var p := Finalize(capacity, header, body).value;
            IsFrame(p) && |p| <= capacity && p[0] == header
  {
    FrameIffWithinLimit(header, body);
    Varint.FitsFourBytes(|body|);
  }

  lemma EncodedIntoIsFrame(capacity: nat, header: Byte, fields: Fields)
    requires capacity < 0x1_0000_0000 && EncodeInto(capacity, header, fields).Ok?
    ensures var p := EncodeInto(capacity, header, fields).value;
            IsFrame(p) && |p| <= capacity && p[0] == header
  {
    FinalizedIsFrame(capacity, header, fields.bytes);
  }

  lemma EncodedPublishIsFrame(capacity: nat, header: Byte, fields: Fields, payload: Payload)
    requires capacity < 0x1_0000_0000 && EncodePublishInto(capacity, header, fields, payload).Ok?
    ensures var p := EncodePublishInto(capacity, header, fields, payload).value;
            IsFrame(p) && |p| <= capacity && p[0] == header
  {
    var room := Room(capacity, MAX_FIXED_HEADER_SIZE + |fields.bytes|);
    FinalizedIsFrame(capacity, header, fields.bytes + payload(room).bytes);
  }
}
