/**
  * What a packet on the wire says to the broker about QoS 1 and QoS 2 delivery, read from its bytes, and what the
  * client means by each packet it sends.
  */
module Meaning {
  import opened Bytes
  import opened Deserializer
  import opened Outbound
  import opened Packets
  import opened Properties
  import opened Received
  import Wire

  datatype Meaning = Publication(qos: Wire.QoS, id: U16) | Release(id: U16) | Neither

  /** What the bytes say: a PUBLISH under an identifier, a PUBREL, or something else. */
  function Meant(bytes: seq<Byte>): Meaning {
    match FromBuffer(bytes)
    case Ok(Publish(_, Some(id), _, _, _, qos, _)) => Publication(qos, id)
    case Ok(PubRel(id, _)) => Meaning.Release(id)
    case _ => Neither
  }

  /** What the client keeps the packet as. */
  function Intended(m: Message): Meaning {
    match m
    case RetainedMessage(PublishExactlyOnce, id, _) => Publication(Wire.ExactlyOnce, id)
    case RetainedMessage(PublishAtLeastOnce, id, _) => Publication(Wire.AtLeastOnce, id)
    case ReleaseMessage(id, _) => Meaning.Release(id)
    case _ => Neither
  }

  /** One whole packet that says what the client means by it. */
  ghost predicate Genuine(m: Message) {
    IsFrame(BytesOf(m)) && Meant(BytesOf(m)) == Intended(m)
  }

  ghost predicate AllGenuine(ms: seq<Message>) {
    forall i | 0 <= i < |ms| :: Genuine(ms[i])
  }

  /** The message type and the QoS of a parsed packet stand in its first byte. */
  lemma ParsedHeader(s: seq<Byte>)
    requires FromBuffer(s).Ok?
    ensures s != []
    ensures FromBuffer(s).value.Publish? ==>
              && Wire.MessageTypeOf(s[0]) == Some(Wire.Publish)
              && Wire.PublishQos(s[0]) == Some(FromBuffer(s).value.qos)
              && (FromBuffer(s).value.qos.AtMostOnce? ==> FromBuffer(s).value.packetId.None?)
    ensures FromBuffer(s).value.PubRel? ==> Wire.MessageTypeOf(s[0]) == Some(Wire.PubRel)
  {
    hide TakeAck, TakeSubAck, TakeConnAck, TakeReason, TakeVarint, TakeText, TakeIdAndBlock, Wire.MessageTypeOf,
         Wire.FlagsValid, Wire.PublishQos;
    if s != [] && TakeVarint(s[1..], DeError.Custom).Got? {
      var m := TakeVarint(s[1..], DeError.Custom).used;
      assert s[1..][m..] == s[1 + m..];
      BodyHeader(s[0], s[1 + m..]);
    }
  }

  lemma BodyHeader(header: Byte, s: seq<Byte>)
    requires TakeBody(header, s).Got?
    ensures TakeBody(header, s).value.Publish? ==>
              && Wire.MessageTypeOf(header) == Some(Wire.Publish)
              && Wire.PublishQos(header) == Some(TakeBody(header, s).value.qos)
              && (TakeBody(header, s).value.qos.AtMostOnce? ==> TakeBody(header, s).value.packetId.None?)
    ensures TakeBody(header, s).value.PubRel? ==> Wire.MessageTypeOf(header) == Some(Wire.PubRel)
  {
    hide TakeAck, TakeSubAck, TakeReason, TakeText, TakeBlock, TakeU16, Wire.MessageTypeOf, Wire.PublishQos;
  }

  /** A packet the broker need not remember: a QoS 0 PUBLISH, or of a type that is neither PUBLISH nor PUBREL. */
  predicate Plain(header: Byte) {
    match Wire.MessageTypeOf(header)
    case Some(Publish) => Wire.PublishQos(header) == Some(Wire.AtMostOnce)
    case Some(PubRel) => false
    case _ => true
  }

  lemma PlainMeansNeither(s: seq<Byte>)
    requires s != [] ==> Plain(s[0])
    ensures Meant(s) == Neither
  {
    hide FromBuffer;
    if FromBuffer(s).Ok? {
      ParsedHeader(s);
    }
  }

  lemma PlainControl(t: Wire.MessageType)
    requires !t.Publish? && !t.PubRel?
    ensures Plain(Wire.ControlHeader(t))
  {
    Wire.HeaderRoundTrip(t, t.RequiredFlags());
  }

  lemma PlainPublish(retain: bool)
    ensures Plain(Wire.PublishHeader(Wire.AtMostOnce, retain, false))
  {
    Wire.PublishHeaderRoundTrip(Wire.AtMostOnce, retain, false);
  }

  // ----------------------------------------------------------- what is sent

  lemma ControlGenuine(a: ControlAction)
    ensures Genuine(ControlMessage(a))
  {
    hide FromBuffer;
    ControlBytesFrame(a);
    match a {
      case AckPublish(_, _) => PlainControl(Wire.PubAck);
      case RecPublish(_, _) => PlainControl(Wire.PubRec);
      case CompPublish(_, _) => PlainControl(Wire.PubComp);
      case Ping => PlainControl(Wire.PingReq);
    }
    PlainMeansNeither(ControlBytes(a));
  }

  lemma ReleaseGenuine(id: U16, reason: ReasonCode)
    ensures Genuine(ReleaseMessage(id, reason))
  {
    hide FromBuffer;
    ReleaseBytesFrame(id, reason);
    PacketRoundTrip(Packet.PubRel(id, Reason(reason, None)));
  }

  lemma DirectGenuine(packet: seq<Byte>)
    requires IsFrame(packet) && Plain(packet[0])
    ensures Genuine(DirectMessage(packet))
  {
    PlainMeansNeither(packet);
  }

  /** What admission encodes above QoS 0 reads back as that PUBLISH, with its identifier. */
  lemma EncodedPublishReads(capacity: nat, topic: Wire.Text, id: U16, b: Block, qos: Wire.QoS, retain: bool,
                            payload: Payload)
    requires capacity < 0x1_0000_0000 && !qos.AtMostOnce?
    requires EncodePublishInto(capacity, Wire.PublishHeader(qos, retain, false), PublishFields(topic, Some(id), b), payload).Ok?
    ensures var fields := PublishFields(topic, Some(id), b);
            var data := payload(Room(capacity, MAX_FIXED_HEADER_SIZE + |fields.bytes|));
            && data.Written?
            && FromBuffer(EncodePublishInto(capacity, Wire.PublishHeader(qos, retain, false), fields, payload).value)
               == Ok(Packet.Publish(topic, Some(id), NormalBlock(b), data.bytes, retain, qos, false))
  {
    hide FromBuffer, TakePublish, TakeBody, Wire.PublishHeader, Wire.FlagsValid, Wire.PublishQos, Wire.PublishRetain,
         Wire.PublishDuplicate;
    var fields := PublishFields(topic, Some(id), b);
    var data := payload(Room(capacity, MAX_FIXED_HEADER_SIZE + |fields.bytes|)).bytes;
    var p := Packet.Publish(topic, Some(id), b, data, retain, qos, false);
    assert BodyFields(p) == Wire.Fields(fields.bytes + data, true);
    PacketRoundTrip(p);
  }

  /** A QoS 0 publication reads back as that PUBLISH, without an identifier. */
  lemma EncodedDirectReads(capacity: nat, topic: Wire.Text, b: Block, retain: bool, payload: Payload)
    requires capacity < 0x1_0000_0000
    requires EncodePublishInto(capacity, Wire.PublishHeader(Wire.AtMostOnce, retain, false), PublishFields(topic, None, b), payload).Ok?
    ensures var fields := PublishFields(topic, None, b);
            var data := payload(Room(capacity, MAX_FIXED_HEADER_SIZE + |fields.bytes|));
            && data.Written?
            && FromBuffer(EncodePublishInto(capacity, Wire.PublishHeader(Wire.AtMostOnce, retain, false), fields, payload).value)
               == Ok(Packet.Publish(topic, None, NormalBlock(b), data.bytes, retain, Wire.AtMostOnce, false))
  {
    hide FromBuffer, TakePublish, TakeBody, Wire.PublishHeader, Wire.FlagsValid, Wire.PublishQos, Wire.PublishRetain,
         Wire.PublishDuplicate;
    var fields := PublishFields(topic, None, b);
    var data := payload(Room(capacity, MAX_FIXED_HEADER_SIZE + |fields.bytes|)).bytes;
    var p := Packet.Publish(topic, None, b, data, retain, Wire.AtMostOnce, false);
    assert BodyFields(p) == Wire.Fields(fields.bytes + data, true);
    PacketRoundTrip(p);
  }

  lemma PublishGenuine(capacity: nat, topic: Wire.Text, id: U16, b: Block, qos: Wire.QoS, retain: bool, payload: Payload)
    requires capacity < 0x1_0000_0000 && !qos.AtMostOnce?
    requires EncodePublishInto(capacity, Wire.PublishHeader(qos, retain, false), PublishFields(topic, Some(id), b), payload).Ok?
    ensures var kind := if qos.ExactlyOnce? then PublishExactlyOnce else PublishAtLeastOnce;
            Genuine(RetainedMessage(kind, id,
              EncodePublishInto(capacity, Wire.PublishHeader(qos, retain, false), PublishFields(topic, Some(id), b), payload).value))
  {
    hide FromBuffer, EncodePublishInto, IsFrame, PublishFields;
    EncodedPublishIsFrame(capacity, Wire.PublishHeader(qos, retain, false), PublishFields(topic, Some(id), b), payload);
    EncodedPublishReads(capacity, topic, id, b, qos, retain, payload);
  }

  lemma FiltersGenuine(kind: OpKind, id: U16, packet: seq<Byte>)
    requires !kind.IsPublish() && IsFrame(packet)
    requires packet[0] == Wire.ControlHeader(if kind == OpKind.Subscribe then Wire.Subscribe else Wire.Unsubscribe)
    ensures Genuine(RetainedMessage(kind, id, packet))
  {
    PlainControl(if kind == OpKind.Subscribe then Wire.Subscribe else Wire.Unsubscribe);
    PlainMeansNeither(packet);
  }

  // ------------------------------------------------------------------ replay

  lemma DuplicateBody(header: Byte, s: seq<Byte>)
    requires Wire.MessageTypeOf(header) == Some(Wire.Publish) && TakeBody(header, s).Got?
    ensures var h := Wire.MarkDuplicate(header);
            && Wire.FlagsValid(h) && TakeBody(header, s).value.Publish?
            && TakeBody(h, s) == Got(TakeBody(header, s).value.(dup := true), TakeBody(header, s).used)
  {
    hide TakeText, TakeIdAndBlock, Wire.MessageTypeOf, Wire.PublishQos, Wire.PublishRetain, Wire.PublishDuplicate,
         Wire.MarkDuplicate;
    DuplicateHeader(header);
  }

  lemma DuplicatePacket(s: seq<Byte>)
    requires s != [] && Wire.MessageTypeOf(s[0]) == Some(Wire.Publish) && TakePacket(s).Got?
    ensures TakePacket(s).value.Publish?
    ensures TakePacket(s[0 := Wire.MarkDuplicate(s[0])])
            == Got(TakePacket(s).value.(dup := true), TakePacket(s).used)
  {
    hide TakeBody, TakeVarint, Wire.MessageTypeOf, Wire.MarkDuplicate, Wire.FlagsValid;
    var t := s[0 := Wire.MarkDuplicate(s[0])];
    assert t[1..] == s[1..];
    var m := TakeVarint(s[1..], DeError.Custom).used;
    assert t[1 + m..] == s[1 + m..];
    DuplicateBody(s[0], s[1 + m..]);
  }

  /** Setting the DUP flag of a parsed PUBLISH changes nothing else about it. */
  lemma DuplicateReads(s: seq<Byte>)
    requires FromBuffer(s).Ok? && FromBuffer(s).value.Publish?
    ensures s != []
    ensures FromBuffer(s[0 := Wire.MarkDuplicate(s[0])]) == Ok(FromBuffer(s).value.(dup := true))
  {
    ParsedHeader(s);
    DuplicatePacket(s);
    hide TakePacket, Wire.MessageTypeOf, Wire.MarkDuplicate;
    var n := TakePacket(s).used;
    assert n >= 1 && s[0 := Wire.MarkDuplicate(s[0])][n..] == s[n..] by { UsedHeader(s); }
  }

  lemma UsedHeader(s: seq<Byte>)
    requires TakePacket(s).Got?
    ensures TakePacket(s).used >= 1
  {
    hide TakeBody, TakeVarint;
  }

  lemma DuplicateHeader(header: Byte)
    requires Wire.MessageTypeOf(header) == Some(Wire.Publish)
    ensures var h := Wire.MarkDuplicate(header);
            && Wire.MessageTypeOf(h) == Some(Wire.Publish) && Wire.PublishQos(h) == Wire.PublishQos(header)
            && Wire.PublishRetain(h) == Wire.PublishRetain(header) && Wire.PublishDuplicate(h)
  {
    assert header / 16 == 3;
  }

  lemma MarkDupGenuine(r: Retained)
    requires Genuine(RetainedMessage(r.kind, r.id, r.bytes))
    ensures Genuine(RetainedMessage(r.kind, r.id, MarkDup(r).bytes))
  {
    hide FromBuffer;
    if r.kind.IsPublish() && r.bytes != [] {
      ReheadedFrame(r.bytes, Wire.MarkDuplicate(r.bytes[0]));
      DuplicateReads(r.bytes);
    }
  }
}
