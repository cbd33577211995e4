/** The inbound packet parser (minimq/src/de/received_packet.rs) and its agreement with the encoder. */
module Received {
  import opened Bytes
  import opened Wire
  import opened Properties
  import opened Packets
  import opened Deserializer
  import Varint

  datatype ProtocolError = MalformedPacket | Deserialization(error: DeError)

  /** Optional trailing fields: absent exactly when no bytes remain. */
  function TakeReason(s: seq<Byte>): (p: Parse<Reason>)
    ensures Within(p, s)
  {
    if s == [] then Got(Absent, 0)
    else if |s| == 1 then Got(Reason(ReasonOf(s[0]), None), 1)
    else match TakeBlock(s[1..])
      case Bad(e, n) => Bad(e, 1 + n)
      case Got(block, n) => Got(Reason(ReasonOf(s[0]), Some(Encoded(block))), 1 + n)
  }

  /** An identifier followed by an optional reason. */
  function TakeAck(s: seq<Byte>): (p: Parse<(U16, Reason)>)
    ensures Within(p, s)
  {
    match TakeU16(s)
    case Bad(e, n) => Bad(e, n)
    case Got(id, n) =>
      match TakeReason(s[n..])
      case Bad(e, m) => Bad(e, n + m)
      case Got(reason, m) => Got((id, reason), n + m)
  }

  /** An identifier followed by a property block: SUBACK and UNSUBACK up to their codes. */
  function TakeSubAck(s: seq<Byte>): (p: Parse<(U16, seq<Byte>)>)
    ensures Within(p, s)
  {
    match TakeU16(s)
    case Bad(e, n) => Bad(e, n)
    case Got(id, n) =>
      match TakeBlock(s[n..])
      case Bad(e, m) => Bad(e, n + m)
      case Got(block, m) => Got((id, block), n + m)
  }

  function TakeConnAck(s: seq<Byte>): (p: Parse<Packet>)
    ensures Within(p, s)
  {
    match TakeBool(s)
    case Bad(e, n) => Bad(e, n)
    case Got(present, n) =>
      match TakeByte(s[n..])
      case Bad(e, m) => Bad(e, n + m)
      case Got(code, m) =>
        match TakeBlock(s[n + m..])
        case Bad(e, k) => Bad(e, n + m + k)
        case Got(block, k) => Got(Packet.ConnAck(present, ReasonOf(code), Encoded(block)), n + m + k)
  }

  function TakeId(qos: QoS, s: seq<Byte>): (p: Parse<Option<U16>>)
    ensures Within(p, s)
  {
    if qos.AtMostOnce? then Got(None, 0) else MapParse(TakeU16(s), (id: U16) => Some(id))
  }

  /** The part of a PUBLISH variable header after the topic. */
  function TakeIdAndBlock(qos: QoS, s: seq<Byte>): (p: Parse<(Option<U16>, seq<Byte>)>)
    ensures Within(p, s)
  {
    match TakeId(qos, s)
    case Bad(e, n) => Bad(e, n)
    case Got(id, n) =>
      match TakeBlock(s[n..])
      case Bad(e, m) => Bad(e, n + m)
      case Got(block, m) => Got((id, block), n + m)
  }

  /** Topic, identifier above QoS 0, properties; the payload is what remains. */
  function TakePublish(header: Byte, s: seq<Byte>): (p: Parse<Packet>)
    ensures Within(p, s)
  {
    match PublishQos(header)
    case None => Bad(DeError.Custom, 0)
    case Some(qos) =>
      match TakeText(s)
      case Bad(e, n) => Bad(e, n)
      case Got(topic, n) =>
        match TakeIdAndBlock(qos, s[n..])
        case Bad(e, m) => Bad(e, n + m)
        case Got(tail, m) =>
          Got(Packet.Publish(topic, tail.0, Encoded(tail.1), [], PublishRetain(header), qos,
                             PublishDuplicate(header)),
              n + m)
  }

  /** The packet body after the fixed header. */
  function TakeBody(header: Byte, s: seq<Byte>): (p: Parse<Packet>)
    ensures Within(p, s)
  {
    match MessageTypeOf(header)
    case Some(ConnAck) => TakeConnAck(s)
    case Some(Publish) => TakePublish(header, s)
    case Some(PubAck) => MapParse(TakeAck(s), (a: (U16, Reason)) => Packet.PubAck(a.0, a.1))
    case Some(PubRec) => MapParse(TakeAck(s), (a: (U16, Reason)) => Packet.PubRec(a.0, a.1))
    case Some(PubRel) => MapParse(TakeAck(s), (a: (U16, Reason)) => Packet.PubRel(a.0, a.1))
    case Some(PubComp) => MapParse(TakeAck(s), (a: (U16, Reason)) => Packet.PubComp(a.0, a.1))
    case Some(SubAck) => MapParse(TakeSubAck(s), (a: (U16, seq<Byte>)) => Packet.SubAck(a.0, Encoded(a.1), []))
    case Some(UnsubAck) => MapParse(TakeSubAck(s), (a: (U16, seq<Byte>)) => Packet.UnsubAck(a.0, Encoded(a.1), []))
    case Some(PingResp) => Got(Packet.PingResp, 0)
    case Some(Disconnect) => MapParse(TakeReason(s), (r: Reason) => Packet.Disconnect(r))
    case _ => Bad(DeError.Custom, 0)
  }

  /** `ControlPacketVisitor::visit_seq`. */
  function TakePacket(s: seq<Byte>): (p: Parse<Packet>)
    ensures Within(p, s)
  {
    match TakeByte(s)
    case Bad(e, n) => Bad(e, n)
    case Got(header, n) =>
      match TakeVarint(s[n..], DeError.Custom)
      case Bad(e, m) => Bad(e, n + m)
      case Got(_, m) =>
        if !FlagsValid(header) then Bad(DeError.Custom, n + m)
        else match TakeBody(header, s[n + m..])
          case Bad(e, k) => Bad(e, n + m + k)
          case Got(packet, k) => Got(packet, n + m + k)
  }

  /** Bytes left over belong to a payload or to return codes, and to nothing else. */
  function AttachRemainder(p: Packet, rest: seq<Byte>): Result<Packet, ProtocolError> {
    if rest == [] then Ok(p)
    else match p
      case Publish(topic, id, b, _, retain, qos, dup) => Ok(Packet.Publish(topic, id, b, rest, retain, qos, dup))
      case SubAck(id, b, _) => Ok(Packet.SubAck(id, b, rest))
      case UnsubAck(id, b, _) => Ok(Packet.UnsubAck(id, b, rest))
      case _ => Err(MalformedPacket)
  }

  /** `ReceivedPacket::from_buffer`. */
  function FromBuffer(s: seq<Byte>): Result<Packet, ProtocolError> {
    match TakePacket(s)
    case Bad(e, _) => Err(Deserialization(e))
    case Got(p, n) => AttachRemainder(p, s[n..])
  }

  // ---------------------------------------------------------- round trip

  /** The undecoded form in which a received packet holds a property block. */
  function NormalBlock(b: Block): Block {
    Encoded(ContentFields(b).bytes)
  }

  function NormalReason(r: Reason): Reason {
    match r
    case Absent => Absent
    case Reason(_, None) => r
    case Reason(code, Some(b)) => Reason(code, Some(NormalBlock(b)))
  }

  /** The same packet with its property block undecoded. */
  function Normal(p: Packet): Packet {
    match p
    case Publish(topic, id, b, payload, retain, qos, dup) =>
      Packet.Publish(topic, id, NormalBlock(b), payload, retain, qos, dup)
    case PubAck(id, r) => Packet.PubAck(id, NormalReason(r))
    case PubRec(id, r) => Packet.PubRec(id, NormalReason(r))
    case PubRel(id, r) => Packet.PubRel(id, NormalReason(r))
    case PubComp(id, r) => Packet.PubComp(id, NormalReason(r))
    case Disconnect(r) => Packet.Disconnect(NormalReason(r))
    case _ => p
  }

  /** A received PUBLISH before its payload is attached. */
  function WithoutPayload(p: Packet): Packet
    requires p.Publish?
  {
    Packet.Publish(p.topic, p.packetId, NormalBlock(p.properties), [], p.retain, p.qos, p.dup)
  }

  lemma BlockWithin(b: Block)
    requires BlockFields(b).complete
    ensures BlockSize(b) <= |BlockFields(b).bytes|
  {
    BlockSizeIsLength(b);
  }

  lemma ReasonReads(r: Reason)
    requires ReasonFields(r).complete && |ReasonFields(r).bytes| <= Varint.MAX
    ensures TakeReason(ReasonFields(r).bytes) == Got(NormalReason(r), |ReasonFields(r).bytes|)
  {
    if r.Reason? && r.properties.Some? {
      var b := r.properties.value;
      BlockWithin(b);
      BlockRoundTrip(b, []);
      var s := ReasonFields(r).bytes;
      assert s == [r.code] + BlockFields(b).bytes;
      assert s[1..] == BlockFields(b).bytes + [];
    }
  }

  lemma AckReads(id: U16, r: Reason)
    requires AckFields(id, r).complete && |AckFields(id, r).bytes| <= Varint.MAX
    ensures TakeAck(AckFields(id, r).bytes) == Got((id, NormalReason(r)), |AckFields(id, r).bytes|)
  {
    var tail := ReasonFields(r).bytes;
    assert AckFields(id, r).bytes == Be16(id) + tail;
    TakeU16Encoded(id, tail);
    assert AckFields(id, r).bytes[2..] == tail;
    ReasonReads(r);
  }

  lemma IdReads(qos: QoS, id: Option<U16>, rest: seq<Byte>)
    requires qos.AtMostOnce? <==> id.None?
    ensures TakeId(qos, IdField(id).bytes + rest) == Got(id, |IdField(id).bytes|)
  {
    if id.Some? {
      TakeU16Encoded(id.value, rest);
    }
  }

  lemma IdAndBlockRead(qos: QoS, id: Option<U16>, b: Block, payload: seq<Byte>)
    requires BlockFields(b).complete && BlockSize(b) <= Varint.MAX
    requires qos.AtMostOnce? <==> id.None?
    ensures TakeIdAndBlock(qos, IdField(id).bytes + (BlockFields(b).bytes + payload)) ==
            Got((id, ContentFields(b).bytes), |IdField(id).bytes| + |BlockFields(b).bytes|)
  {
    var i := IdField(id).bytes;
    var rest := BlockFields(b).bytes + payload;
    IdReads(qos, id, rest);
    DropConcat(i, rest);
    BlockRoundTrip(b, payload);
  }

  /** The PUBLISH variable header followed by any payload parses back to its fields. */
  lemma PublishFieldsRead(topic: Text, id: Option<U16>, b: Block, payload: seq<Byte>, header: Byte, qos: QoS)
    requires PublishFields(topic, id, b).complete && BlockSize(b) <= Varint.MAX
    requires PublishQos(header) == Some(qos) && (qos.AtMostOnce? <==> id.None?)
    ensures TakePublish(header, PublishFields(topic, id, b).bytes + payload) ==
            Got(Packet.Publish(topic, id, NormalBlock(b), [], PublishRetain(header), qos, PublishDuplicate(header)),
                |PublishFields(topic, id, b).bytes|)
  {
    hide TakeText, TakeIdAndBlock, IsUtf8, PublishQos, BlockFields;
    var t := LengthPrefixed(topic).bytes;
    var rest := IdField(id).bytes + (BlockFields(b).bytes + payload);
    var s := PublishFields(topic, id, b).bytes + payload;
    assert s == t + rest;
    TakeTextEncoded(topic, rest);
    DropConcat(t, rest);
    IdAndBlockRead(qos, id, b, payload);
  }

  lemma PublishReads(p: Packet)
    requires p.Publish? && Sendable(p)
    ensures TakePublish(HeaderOf(p), BodyFields(p).bytes) ==
            Got(WithoutPayload(p), |BodyFields(p).bytes| - |p.payload|)
  {
    PublishHeaderRoundTrip(p.qos, p.retain, p.dup);
    BlockWithin(p.properties);
    PublishFieldsRead(p.topic, p.packetId, p.properties, p.payload, HeaderOf(p), p.qos);
  }

  /** A body of an acknowledgement is read as its identifier and reason, under any acknowledgement header. */
  lemma AckBodyReads(p: Packet)
    requires p.PubAck? || p.PubRec? || p.PubRel? || p.PubComp?
    requires Sendable(p)
    ensures TakeBody(HeaderOf(p), BodyFields(p).bytes) == Got(Normal(p), |BodyFields(p).bytes|)
  {
    hide TakeAck, AckFields, NormalReason, MessageTypeOf, Header;
    AckReads(p.id, p.reason);
    assert BodyFields(p) == AckFields(p.id, p.reason);
    match p {
      case PubAck(_, _) => HeaderRoundTrip(MessageType.PubAck, 0);
      case PubRec(_, _) => HeaderRoundTrip(MessageType.PubRec, 0);
      case PubRel(_, _) => HeaderRoundTrip(MessageType.PubRel, 2);
      case PubComp(_, _) => HeaderRoundTrip(MessageType.PubComp, 0);
    }
  }

  lemma DisconnectBodyReads(p: Packet)
    requires p.Disconnect? && Sendable(p)
    ensures TakeBody(HeaderOf(p), BodyFields(p).bytes) == Got(Normal(p), |BodyFields(p).bytes|)
  {
    ReasonReads(p.reason);
    HeaderRoundTrip(MessageType.Disconnect, 0);
  }

  lemma FlagsOfPacket(p: Packet)
    requires TwoWay(p)
    ensures FlagsValid(HeaderOf(p))
  {
    if p.Publish? {
      PublishHeaderRoundTrip(p.qos, p.retain, p.dup);
    }
  }

  lemma PacketReads(p: Packet)
    requires Sendable(p)
    ensures TakeBody(HeaderOf(p), BodyFields(p).bytes) ==
            if p.Publish? then Got(WithoutPayload(p), |BodyFields(p).bytes| - |p.payload|)
            else Got(Normal(p), |BodyFields(p).bytes|)
  {
    if p.Publish? {
      PublishHeaderRoundTrip(p.qos, p.retain, p.dup);
      PublishReads(p);
    } else if p.Disconnect? {
      DisconnectBodyReads(p);
    } else {
      AckBodyReads(p);
    }
  }

  /** The parser reaches the body of a frame, with the cursor just after the fixed header. */
  lemma FrameReads(header: Byte, body: seq<Byte>, p: Packet, used: nat)
    requires |body| <= Varint.MAX && FlagsValid(header)
    requires TakeBody(header, body) == Got(p, used)
    ensures FromBuffer(Frame(header, body)) == AttachRemainder(p, body[used..])
  {
    hide TakeBody;
    var s := Frame(header, body);
    var prefix := Varint.Encode(|body|);
    assert s[1..] == prefix + body;
    TakeVarintEncoded(|body|, body, DeError.Custom);
    assert s[1 + |prefix|..] == body;
    assert s[1 + |prefix| + used..] == body[used..];
  }

  /**
    * Parsing an encoded packet gives the packet back: every field, the payload, and a property block
    * that iterates to the same properties.
    */
  lemma PacketRoundTrip(p: Packet)
    requires Sendable(p)
    ensures FromBuffer(Encode(p)) == Ok(Normal(p))
  {
    var header, body := HeaderOf(p), BodyFields(p).bytes;
    FlagsOfPacket(p);
    PacketReads(p);
    if p.Publish? {
      var used := |body| - |p.payload|;
      FrameReads(header, body, WithoutPayload(p), used);
      assert body[used..] == p.payload;
    } else {
      FrameReads(header, body, Normal(p), |body|);
      assert body[|body|..] == [];
    }
  }

  lemma NormalKeepsItems(b: Block)
    requires ContentFields(b).complete
    ensures Items(NormalBlock(b)) == Items(b)
  {
    ContentRoundTrip(b);
  }
}
