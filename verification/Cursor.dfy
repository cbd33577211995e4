/**
  * The field reader as the object it is: a cursor over the received bytes (minimq/src/de/deserializer.rs), the
  * lazy property iterator on top of it (minimq/src/properties.rs) and the packet visitor
  * (minimq/src/de/received_packet.rs), each against the functions of `Deserializer` and `Received`.
  */
module Cursor {
  import opened Bytes
  import opened Deserializer
  import opened Packets
  import opened Properties
  import opened Wire
  import Received
  import Varint

  lemma DropDrop(s: seq<Byte>, i: nat, n: nat)
    requires i + n <= |s|
    ensures s[i + n..] == s[i..][n..]
  {
  }

  /** Reading the fixed header on its own. */
  function HeaderPart(s: seq<Byte>): (p: Parse<Byte>)
    ensures Within(p, s)
  {
    match TakeByte(s)
    case Bad(e, n) => Bad(e, n)
    case Got(header, n) =>
      match TakeVarint(s[n..], DeError.Custom)
      case Bad(e, m) => Bad(e, n + m)
      case Got(_, m) => Got(header, n + m)
  }

  lemma PacketByHeader(s: seq<Byte>)
    ensures Received.TakePacket(s) ==
            match HeaderPart(s)
            case Bad(e, n) => Bad(e, n)
            case Got(header, n) =>
              if !FlagsValid(header) then Bad(DeError.Custom, n)
              else match Received.TakeBody(header, s[n..])
                case Bad(e, k) => Bad(e, n + k)
                case Got(packet, k) => Got(packet, n + k)
  {
    hide TakeByte, TakeVarint, FlagsValid, Received.TakeBody;
  }

  /** The part of a CONNACK after its flags. */
  function CodeAndBlock(s: seq<Byte>): (p: Parse<(Byte, seq<Byte>)>)
    ensures Within(p, s)
  {
    match TakeByte(s)
    case Bad(e, n) => Bad(e, n)
    case Got(code, n) =>
      match TakeBlock(s[n..])
      case Bad(e, m) => Bad(e, n + m)
      case Got(block, m) => Got((code, block), n + m)
  }

  lemma ConnAckByParts(s: seq<Byte>)
    ensures Received.TakeConnAck(s) ==
            match TakeBool(s)
            case Bad(e, n) => Bad(e, n)
            case Got(present, n) =>
              match CodeAndBlock(s[n..])
              case Bad(e, m) => Bad(e, n + m)
              case Got(tail, m) => Got(Packet.ConnAck(present, ReasonOf(tail.0), Encoded(tail.1)), n + m)
  {
    hide TakeBool, TakeByte, TakeBlock, ReasonOf;
    if TakeBool(s).Got? {
      var n := TakeBool(s).used;
      var m := TakeByte(s[n..]).used;
      assert s[n..][m..] == s[n + m..];
    }
  }

  // Property identifiers by the kind of value they take.

  function ByteProperty(id: nat, v: Byte): Property {
    match id
    case 0x01 => PayloadFormatIndicator(v)
    case 0x17 => RequestProblemInformation(v)
    case 0x19 => RequestResponseInformation(v)
    case 0x24 => MaximumQoS(v)
    case 0x25 => RetainAvailable(v)
    case 0x28 => WildcardSubscriptionAvailable(v)
    case 0x29 => SubscriptionIdentifierAvailable(v)
    case _ => SharedSubscriptionAvailable(v)
  }

  function HalfProperty(id: nat, v: U16): Property {
    match id
    case 0x13 => ServerKeepAlive(v)
    case 0x21 => ReceiveMaximum(v)
    case 0x22 => TopicAliasMaximum(v)
    case _ => TopicAlias(v)
  }

  function WordProperty(id: nat, v: U32): Property {
    match id
    case 0x02 => MessageExpiryInterval(v)
    case 0x11 => SessionExpiryInterval(v)
    case 0x18 => WillDelayInterval(v)
    case _ => MaximumPacketSize(v)
  }

  function TextProperty(id: nat, v: Text): Property {
    match id
    case 0x03 => ContentType(v)
    case 0x08 => ResponseTopic(v)
    case 0x12 => AssignedClientIdentifier(v)
    case 0x15 => AuthenticationMethod(v)
    case 0x1A => ResponseInformation(v)
    case 0x1C => ServerReference(v)
    case _ => ReasonString(v)
  }

  function DataProperty(id: nat, v: seq<Byte>): Property {
    if id == 0x09 then CorrelationData(v) else AuthenticationData(v)
  }

  lemma ByteValue(id: nat, s: seq<Byte>)
    requires id in {0x01, 0x17, 0x19, 0x24, 0x25, 0x28, 0x29, 0x2A}
    ensures TakeValue(id, s) == MapParse(TakeByte(s), v => ByteProperty(id, v))
  {
    hide TakeByte;
  }

  lemma HalfValue(id: nat, s: seq<Byte>)
    requires id in {0x13, 0x21, 0x22, 0x23}
    ensures TakeValue(id, s) == MapParse(TakeU16(s), v => HalfProperty(id, v))
  {
    hide TakeU16;
  }

  lemma WordValue(id: nat, s: seq<Byte>)
    requires id in {0x02, 0x11, 0x18, 0x27}
    ensures TakeValue(id, s) == MapParse(TakeU32(s), v => WordProperty(id, v))
  {
    hide TakeU32;
  }

  lemma TextValue(id: nat, s: seq<Byte>)
    requires id in {0x03, 0x08, 0x12, 0x15, 0x1A, 0x1C, 0x1F}
    ensures TakeValue(id, s) == MapParse(TakeText(s), v => TextProperty(id, v))
  {
    hide TakeText, IsUtf8;
  }

  lemma SubscriptionValue(id: nat, s: seq<Byte>)
    requires id == 0x0B
    ensures TakeValue(id, s) == MapParse(TakeVarint(s, DeError.Custom), v => SubscriptionIdentifier(v))
  {
    hide TakeVarint;
  }

  lemma UserValue(id: nat, s: seq<Byte>)
    requires id == 0x26
    ensures TakeValue(id, s) == MapParse(TakePair(s), (v: (Text, Text)) => UserProperty(v.0, v.1))
  {
    hide TakePair, IsUtf8;
  }

  lemma DataValue(id: nat, s: seq<Byte>)
    requires id in {0x09, 0x16}
    ensures TakeValue(id, s) == MapParse(TakeBinary(s), v => DataProperty(id, v))
  {
    hide TakeBinary;
  }

  class MqttDeserializer {
    const buf: seq<Byte>
    var index: nat
    var nextBytesLen: Option<nat>

    ghost predicate Valid()
      reads this
    {
      index <= |buf|
    }

    /** What is left to read. */
    function Rest(): seq<Byte>
      requires Valid()
      reads this
    {
      buf[index..]
    }

    constructor (buf: seq<Byte>)
      ensures Valid() && this.buf == buf && index == 0 && nextBytesLen.None?
    {
      this.buf, index, nextBytesLen := buf, 0, None;
    }

    method Pop() returns (r: Result<Byte, DeError>)
      requires Valid()
      modifies this`index
      ensures var p := TakeByte(old(Rest())); Valid() && r == p.ToResult() && index == old(index) + p.used
    {
      if index == |buf| {
        return Err(InsufficientData);
      }
      index := index + 1;
      return Ok(buf[index - 1]);
    }

    method TryTakeN(n: nat) returns (r: Result<seq<Byte>, DeError>)
      requires Valid()
      modifies this`index
      ensures var p := TakeN(old(Rest()), n); Valid() && r == p.ToResult() && index == old(index) + p.used
    {
      if |buf| - index < n {
        return Err(InsufficientData);
      }
      r := Ok(buf[index..index + n]);
      assert buf[index..index + n] == buf[index..][..n];
      index := index + n;
    }

    method ReadU16() returns (r: Result<U16, DeError>)
      requires Valid()
      modifies this`index
      ensures var p := TakeU16(old(Rest())); Valid() && r == p.ToResult() && index == old(index) + p.used
    {
      var bytes := TryTakeN(2);
      return if bytes.Ok? then Ok(FromBe16(bytes.value)) else Err(bytes.error);
    }

    method ReadU32() returns (r: Result<U32, DeError>)
      requires Valid()
      modifies this`index
      ensures var p := TakeU32(old(Rest())); Valid() && r == p.ToResult() && index == old(index) + p.used
    {
      var bytes := TryTakeN(4);
      return if bytes.Ok? then Ok(FromBe32(bytes.value)) else Err(bytes.error);
    }

    method ReadBool() returns (r: Result<bool, DeError>)
      requires Valid()
      modifies this`index
      ensures var p := TakeBool(old(Rest())); Valid() && r == p.ToResult() && index == old(index) + p.used
    {
      var b := Pop();
      return match b
        case Err(e) => Err(e)
        case Ok(0) => Ok(false)
        case Ok(1) => Ok(true)
        case Ok(_) => Err(BadBool);
    }

    /** `read_mqtt_u32_varint` over this cursor; `invalid` is the error for a refused encoding. */
    method ReadVarint(invalid: DeError) returns (r: Result<U32, DeError>)
      requires Valid()
      modifies this`index
      ensures var p := TakeVarint(old(Rest()), invalid); Valid() && r == p.ToResult() && index == old(index) + p.used
    {
      hide Varint.Read;
      var scan := Varint.Probe(buf[index..]);
      match scan {
        case Incomplete =>
          index := |buf|;
          return Err(InsufficientData);
        case Invalid(n) =>
          index := index + n;
          return Err(invalid);
        case Done(v, n) =>
          Varint.Canonical(buf[index..], v, n);
          index := index + n;
          return Ok(v);
      }
    }

    /** `deserialize_bytes`: a length announced by an enclosing sequence, or else a two-byte prefix. */
    method ReadBytes() returns (r: Result<seq<Byte>, DeError>)
      requires Valid()
      modifies this
      ensures var p := if old(nextBytesLen).Some? then TakeN(old(Rest()), old(nextBytesLen).value) else TakeBinary(old(Rest()));
              Valid() && nextBytesLen.None? && r == p.ToResult() && index == old(index) + p.used
    {
      var length := nextBytesLen;
      nextBytesLen := None;
      if length.None? {
        var prefix := ReadU16();
        if prefix.Err? {
          return Err(prefix.error);
        }
        length := Some(prefix.value);
      }
      r := TryTakeN(length.value);
    }

    method ReadBinary() returns (r: Result<seq<Byte>, DeError>)
      requires Valid() && nextBytesLen.None?
      modifies this
      ensures var p := TakeBinary(old(Rest()));
              Valid() && nextBytesLen.None? && r == p.ToResult() && index == old(index) + p.used
    {
      r := ReadBytes();
    }

    method ReadAnnounced() returns (r: Result<seq<Byte>, DeError>)
      requires Valid() && nextBytesLen.Some?
      modifies this
      ensures var p := TakeN(old(Rest()), old(nextBytesLen).value);
              Valid() && nextBytesLen.None? && r == p.ToResult() && index == old(index) + p.used
    {
      r := ReadBytes();
    }

    /** `deserialize_str`. */
    method ReadText() returns (r: Result<Text, DeError>)
      requires Valid()
      modifies this`index
      ensures var p := TakeText(old(Rest())); Valid() && r == p.ToResult() && index == old(index) + p.used
    {
      hide IsUtf8;
      var length := ReadU16();
      if length.Err? {
        return Err(length.error);
      }
      var bytes := TryTakeN(length.value);
      if bytes.Err? {
        return Err(bytes.error);
      }
      return if IsUtf8(bytes.value) then Ok(bytes.value) else Err(BadString);
    }

    method ReadPair() returns (r: Result<(Text, Text), DeError>)
      requires Valid()
      modifies this`index
      ensures var p := TakePair(old(Rest())); Valid() && r == p.ToResult() && index == old(index) + p.used
    {
      hide TakeText;
      var k := ReadText();
      DropDrop(buf, old(index), index - old(index));
      if k.Err? {
        return Err(k.error);
      }
      var v := ReadText();
      return if v.Ok? then Ok((k.value, v.value)) else Err(v.error);
    }

    /**
      * `deserialize_seq` read as one undecoded block: the announced length replaces the usual prefix. An empty sequence
      * has no element to read, so its length stays announced.
      */
    method ReadBlock() returns (r: Result<seq<Byte>, DeError>)
      requires Valid() && nextBytesLen.None?
      modifies this
      ensures var p := TakeBlock(old(Rest()));
              && Valid() && r == p.ToResult() && index == old(index) + p.used
              && nextBytesLen == if r == Ok([]) then Some(0) else None
    {
      hide TakeVarint;
      var length := ReadVarint(BadVarint);
      DropDrop(buf, old(index), index - old(index));
      if length.Err? {
        return Err(length.error);
      }
      nextBytesLen := Some(length.value);
      if length.value == 0 {
        return Ok([]);
      }
      r := ReadAnnounced();
    }

    /** No length is announced, or that of an empty block, which nothing has taken. */
    ghost predicate Spent()
      reads this
    {
      nextBytesLen.None? || nextBytesLen == Some(0)
    }

    // ------------------------------------------------------------- properties

    method ReadByteValue(id: nat) returns (r: Result<Property, DeError>)
      requires Valid() && id in {0x01, 0x17, 0x19, 0x24, 0x25, 0x28, 0x29, 0x2A}
      modifies this`index
      ensures var p := TakeValue(id, old(Rest())); Valid() && r == p.ToResult() && index == old(index) + p.used
    {
      hide TakeByte, TakeValue, ByteProperty;
      ByteValue(id, Rest());
      var v := Pop();
      return if v.Ok? then Ok(ByteProperty(id, v.value)) else Err(v.error);
    }

    method ReadHalfValue(id: nat) returns (r: Result<Property, DeError>)
      requires Valid() && id in {0x13, 0x21, 0x22, 0x23}
      modifies this`index
      ensures var p := TakeValue(id, old(Rest())); Valid() && r == p.ToResult() && index == old(index) + p.used
    {
      hide TakeU16, TakeValue, HalfProperty;
      HalfValue(id, Rest());
      var v := ReadU16();
      return if v.Ok? then Ok(HalfProperty(id, v.value)) else Err(v.error);
    }

    method ReadWordValue(id: nat) returns (r: Result<Property, DeError>)
      requires Valid() && id in {0x02, 0x11, 0x18, 0x27}
      modifies this`index
      ensures var p := TakeValue(id, old(Rest())); Valid() && r == p.ToResult() && index == old(index) + p.used
    {
      hide TakeU32, TakeValue, WordProperty;
      WordValue(id, Rest());
      var v := ReadU32();
      return if v.Ok? then Ok(WordProperty(id, v.value)) else Err(v.error);
    }

    method ReadSubscriptionValue(id: nat) returns (r: Result<Property, DeError>)
      requires Valid() && id == 0x0B
      modifies this`index
      ensures var p := TakeValue(id, old(Rest())); Valid() && r == p.ToResult() && index == old(index) + p.used
    {
      hide TakeVarint, TakeValue;
      SubscriptionValue(id, Rest());
      var v := ReadVarint(DeError.Custom);
      return if v.Ok? then Ok(SubscriptionIdentifier(v.value)) else Err(v.error);
    }

    method ReadTextValue(id: nat) returns (r: Result<Property, DeError>)
      requires Valid() && id in {0x03, 0x08, 0x12, 0x15, 0x1A, 0x1C, 0x1F}
      modifies this`index
      ensures var p := TakeValue(id, old(Rest())); Valid() && r == p.ToResult() && index == old(index) + p.used
    {
      hide TakeText, TakeValue, TextProperty, IsUtf8;
      TextValue(id, Rest());
      var v := ReadText();
      return if v.Ok? then Ok(TextProperty(id, v.value)) else Err(v.error);
    }

    method ReadUserValue(id: nat) returns (r: Result<Property, DeError>)
      requires Valid() && id == 0x26
      modifies this`index
      ensures var p := TakeValue(id, old(Rest())); Valid() && r == p.ToResult() && index == old(index) + p.used
    {
      hide TakePair, TakeValue, IsUtf8;
      UserValue(id, Rest());
      var pair := ReadPair();
      return if pair.Ok? then Ok(UserProperty(pair.value.0, pair.value.1)) else Err(pair.error);
    }

    method ReadDataValue(id: nat) returns (r: Result<Property, DeError>)
      requires Valid() && nextBytesLen.None? && id in {0x09, 0x16}
      modifies this
      ensures var p := TakeValue(id, old(Rest()));
              Valid() && nextBytesLen.None? && r == p.ToResult() && index == old(index) + p.used
    {
      hide TakeBinary, TakeValue, DataProperty;
      DataValue(id, Rest());
      var v := ReadBinary();
      return if v.Ok? then Ok(DataProperty(id, v.value)) else Err(v.error);
    }

    /** `PropertyVisitor::visit_enum` after the identifier. */
    method ReadValue(id: nat) returns (r: Result<Property, DeError>)
      requires Valid() && nextBytesLen.None?
      modifies this
      ensures var p := TakeValue(id, old(Rest()));
              Valid() && nextBytesLen.None? && r == p.ToResult() && index == old(index) + p.used
    {
      hide TakeValue;
      if id in {0x01, 0x17, 0x19, 0x24, 0x25, 0x28, 0x29, 0x2A} {
        r := ReadByteValue(id);
      } else if id in {0x13, 0x21, 0x22, 0x23} {
        r := ReadHalfValue(id);
      } else if id in {0x02, 0x11, 0x18, 0x27} {
        r := ReadWordValue(id);
      } else if id == 0x0B {
        r := ReadSubscriptionValue(id);
      } else if id in {0x03, 0x08, 0x12, 0x15, 0x1A, 0x1C, 0x1F} {
        r := ReadTextValue(id);
      } else if id == 0x26 {
        r := ReadUserValue(id);
      } else if id in {0x09, 0x16} {
        r := ReadDataValue(id);
      } else {
        UnknownIdentifier(id, Rest());
        r := Err(DeError.Custom);
      }
    }

    /** `Deserialize for Property`. */
    method ReadProperty() returns (r: Result<Property, DeError>)
      requires Valid() && nextBytesLen.None?
      modifies this
      ensures var p := TakeProperty(old(Rest()));
              Valid() && nextBytesLen.None? && r == p.ToResult() && index == old(index) + p.used
    {
      hide TakeVarint, TakeValue;
      var id := ReadVarint(BadVarint);
      DropDrop(buf, old(index), index - old(index));
      if id.Err? {
        return Err(id.error);
      }
      r := ReadValue(id.value);
    }

    // ---------------------------------------------------------------- packets

    /** Optional trailing fields, present while bytes remain. */
    method ReadReason() returns (r: Result<Reason, DeError>)
      requires Valid() && nextBytesLen.None?
      modifies this
      ensures var p := Received.TakeReason(old(Rest()));
              Valid() && Spent() && r == p.ToResult() && index == old(index) + p.used
    {
      hide TakeBlock, ReasonOf;
      if index == |buf| {
        return Ok(Absent);
      }
      var code := Pop();
      DropDrop(buf, old(index), index - old(index));
      if index == |buf| {
        return Ok(Reason(ReasonOf(code.value), None));
      }
      var block := ReadBlock();
      return if block.Ok? then Ok(Reason(ReasonOf(code.value), Some(Encoded(block.value)))) else Err(block.error);
    }

    method ReadAck() returns (r: Result<(U16, Reason), DeError>)
      requires Valid() && nextBytesLen.None?
      modifies this
      ensures var p := Received.TakeAck(old(Rest()));
              Valid() && Spent() && r == p.ToResult() && index == old(index) + p.used
    {
      hide TakeU16, Received.TakeReason;
      var id := ReadU16();
      DropDrop(buf, old(index), index - old(index));
      if id.Err? {
        return Err(id.error);
      }
      var reason := ReadReason();
      return if reason.Ok? then Ok((id.value, reason.value)) else Err(reason.error);
    }

    /** SUBACK and UNSUBACK up to their codes. */
    method ReadSubAck() returns (r: Result<(U16, seq<Byte>), DeError>)
      requires Valid() && nextBytesLen.None?
      modifies this
      ensures var p := Received.TakeSubAck(old(Rest()));
              Valid() && Spent() && r == p.ToResult() && index == old(index) + p.used
    {
      hide TakeU16, TakeBlock;
      var id := ReadU16();
      DropDrop(buf, old(index), index - old(index));
      if id.Err? {
        return Err(id.error);
      }
      var block := ReadBlock();
      return if block.Ok? then Ok((id.value, block.value)) else Err(block.error);
    }

    method ReadConnAck() returns (r: Result<Packet, DeError>)
      requires Valid() && nextBytesLen.None?
      modifies this
      ensures var p := Received.TakeConnAck(old(Rest()));
              Valid() && Spent() && r == p.ToResult() && index == old(index) + p.used
    {
      hide TakeBool, CodeAndBlock, Received.TakeConnAck, ReasonOf;
      ConnAckByParts(Rest());
      var present := ReadBool();
      DropDrop(buf, old(index), index - old(index));
      if present.Err? {
        return Err(present.error);
      }
      var tail := ReadCodeAndBlock();
      return if tail.Ok? then Ok(Packet.ConnAck(present.value, ReasonOf(tail.value.0), Encoded(tail.value.1))) else Err(tail.error);
    }

    method ReadCodeAndBlock() returns (r: Result<(Byte, seq<Byte>), DeError>)
      requires Valid() && nextBytesLen.None?
      modifies this
      ensures var p := CodeAndBlock(old(Rest()));
              Valid() && Spent() && r == p.ToResult() && index == old(index) + p.used
    {
      hide TakeByte, TakeBlock;
      var code := Pop();
      DropDrop(buf, old(index), index - old(index));
      if code.Err? {
        return Err(code.error);
      }
      var block := ReadBlock();
      return if block.Ok? then Ok((code.value, block.value)) else Err(block.error);
    }

    method ReadIdAndBlock(qos: QoS) returns (r: Result<(Option<U16>, seq<Byte>), DeError>)
      requires Valid() && nextBytesLen.None?
      modifies this
      ensures var p := Received.TakeIdAndBlock(qos, old(Rest()));
              Valid() && Spent() && r == p.ToResult() && index == old(index) + p.used
    {
      hide TakeU16, TakeBlock;
      var id: Option<U16> := None;
      if !qos.AtMostOnce? {
        var some := ReadU16();
        if some.Err? {
          return Err(some.error);
        }
        id := Some(some.value);
      }
      DropDrop(buf, old(index), index - old(index));
      var block := ReadBlock();
      return if block.Ok? then Ok((id, block.value)) else Err(block.error);
    }

    method ReadPublish(header: Byte) returns (r: Result<Packet, DeError>)
      requires Valid() && nextBytesLen.None?
      modifies this
      ensures var p := Received.TakePublish(header, old(Rest()));
              Valid() && Spent() && r == p.ToResult() && index == old(index) + p.used
    {
      hide TakeText, Received.TakeIdAndBlock, PublishQos, IsUtf8;
      var qos := PublishQos(header);
      if qos.None? {
        return Err(DeError.Custom);
      }
      var topic := ReadText();
      DropDrop(buf, old(index), index - old(index));
      if topic.Err? {
        return Err(topic.error);
      }
      var tail := ReadIdAndBlock(qos.value);
      if tail.Err? {
        return Err(tail.error);
      }
      return Ok(Packet.Publish(topic.value, tail.value.0, Encoded(tail.value.1), [], PublishRetain(header), qos.value,
                               PublishDuplicate(header)));
    }

    method ReadBody(header: Byte) returns (r: Result<Packet, DeError>)
      requires Valid() && nextBytesLen.None?
      modifies this
      ensures var p := Received.TakeBody(header, old(Rest()));
              Valid() && Spent() && r == p.ToResult() && index == old(index) + p.used
    {
      hide Received.TakeConnAck, Received.TakePublish, Received.TakeAck, Received.TakeSubAck, Received.TakeReason,
           MessageTypeOf;
      match MessageTypeOf(header) {
        case Some(ConnAck) => r := ReadConnAck();
        case Some(Publish) => r := ReadPublish(header);
        case Some(PubAck) =>
          var a := ReadAck();
          r := if a.Ok? then Ok(Packet.PubAck(a.value.0, a.value.1)) else Err(a.error);
        case Some(PubRec) =>
          var a := ReadAck();
          r := if a.Ok? then Ok(Packet.PubRec(a.value.0, a.value.1)) else Err(a.error);
        case Some(PubRel) =>
          var a := ReadAck();
          r := if a.Ok? then Ok(Packet.PubRel(a.value.0, a.value.1)) else Err(a.error);
        case Some(PubComp) =>
          var a := ReadAck();
          r := if a.Ok? then Ok(Packet.PubComp(a.value.0, a.value.1)) else Err(a.error);
        case Some(SubAck) =>
          var a := ReadSubAck();
          r := if a.Ok? then Ok(Packet.SubAck(a.value.0, Encoded(a.value.1), [])) else Err(a.error);
        case Some(UnsubAck) =>
          var a := ReadSubAck();
          r := if a.Ok? then Ok(Packet.UnsubAck(a.value.0, Encoded(a.value.1), [])) else Err(a.error);
        case Some(PingResp) => r := Ok(Packet.PingResp);
        case Some(Disconnect) =>
          var reason := ReadReason();
          r := if reason.Ok? then Ok(Packet.Disconnect(reason.value)) else Err(reason.error);
        case _ => r := Err(DeError.Custom);
      }
    }

    /** Fixed header: the header byte and the remaining length, which is not used further. */
    method ReadHeader() returns (r: Result<Byte, DeError>)
      requires Valid()
      modifies this`index
      ensures var p := HeaderPart(old(Rest())); Valid() && r == p.ToResult() && index == old(index) + p.used
    {
      hide TakeByte, TakeVarint;
      var header := Pop();
      DropDrop(buf, old(index), index - old(index));
      if header.Err? {
        return Err(header.error);
      }
      var length := ReadVarint(DeError.Custom);
      return if length.Ok? then header else Err(length.error);
    }

    /** `ControlPacketVisitor::visit_seq`. */
    method ReadPacket() returns (r: Result<Packet, DeError>)
      requires Valid() && nextBytesLen.None?
      modifies this
      ensures var p := Received.TakePacket(old(Rest()));
              Valid() && Spent() && r == p.ToResult() && index == old(index) + p.used
    {
      hide HeaderPart, FlagsValid, Received.TakeBody, Received.TakePacket;
      PacketByHeader(Rest());
      var header := ReadHeader();
      DropDrop(buf, old(index), index - old(index));
      if header.Err? {
        return Err(header.error);
      }
      if !FlagsValid(header.value) {
        return Err(DeError.Custom);
      }
      r := ReadBody(header.value);
    }
  }

  lemma UnknownIdentifier(id: nat, s: seq<Byte>)
    requires id !in {0x01, 0x17, 0x19, 0x24, 0x25, 0x28, 0x29, 0x2A, 0x13, 0x21, 0x22, 0x23, 0x02, 0x11, 0x18, 0x27, 0x0B}
    requires id !in {0x03, 0x08, 0x12, 0x15, 0x1A, 0x1C, 0x1F, 0x26, 0x09, 0x16}
    ensures TakeValue(id, s) == Bad(DeError.Custom, 0)
  {
  }

  /** `PropertiesIter::next` with bytes left: one item, and at least one byte further on. */
  method NextItem(block: seq<Byte>, index: nat) returns (item: Option<Property>, next: nat)
    requires index < |block|
    ensures var p := TakeProperty(block[index..]);
            item == (if p.Got? then Some(p.value) else None) && next == index + p.used
    ensures index < next <= |block|
  {
    hide TakeProperty;
    var cursor := new MqttDeserializer(block[index..]);
    var property := cursor.ReadProperty();
    assert cursor.index == TakeProperty(block[index..]).used;
    return if property.Ok? then Some(property.value) else None, index + cursor.index;
  }

  /** The iterator run to the end: it ends on any input, with at most one item a byte. */
  method Iterate(block: seq<Byte>) returns (items: seq<Option<Property>>)
    ensures items == Decode(block) && |items| <= |block|
  {
    hide TakeProperty, Decode;
    items := [];
    var index := 0;
    assert block[0..] == block && [] + Decode(block) == Decode(block);
    while index < |block|
      invariant index <= |block| && |items| <= index
      invariant items + Decode(block[index..]) == Decode(block)
    {
      var item, next := NextItem(block, index);
      DecodeStep(block[index..]);
      DropDrop(block, index, next - index);
      AppendItem(items, item, Decode(block[next..]));
      items := items + [item];
      index := next;
    }
    assert block[|block|..] == [];
    NothingDecodes();
    assert items + [] == items;
  }

  lemma AppendItem(items: seq<Option<Property>>, item: Option<Property>, rest: seq<Option<Property>>)
    ensures items + ([item] + rest) == (items + [item]) + rest
  {
  }

  lemma NothingDecodes()
    ensures Decode([]) == []
  {
  }

  lemma DecodeStep(s: seq<Byte>)
    requires s != []
    ensures Decode(s) == [if TakeProperty(s).Got? then Some(TakeProperty(s).value) else None] + Decode(s[TakeProperty(s).used..])
  {
  }

  /** `ReceivedPacket::from_buffer`: read the packet, then attach what is left as payload or codes. */
  method ParsePacket(bytes: seq<Byte>) returns (r: Result<Packet, Received.ProtocolError>)
    ensures r == Received.FromBuffer(bytes)
  {
    hide Received.TakePacket, Received.AttachRemainder;
    var cursor := new MqttDeserializer(bytes);
    var packet := cursor.ReadPacket();
    if packet.Err? {
      return Err(Received.Deserialization(packet.error));
    }
    return Received.AttachRemainder(packet.value, cursor.Rest());
  }
}
