/**
  * The packets only a server sends, by their layout in sections 3.2, 3.9, 3.11 and 3.13 of MQTT Version 5.0, and how
  * far the parser determines the bytes it accepts.
  */
module ServerPackets {
  import opened Bytes
  import opened Deserializer
  import opened Packets
  import opened Properties
  import opened Received
  import Varint
  import Wire

  /** The packets only a server sends. */
  predicate FromServer(p: Packet) {
    p.ConnAck? || p.SubAck? || p.UnsubAck? || p.PingResp?
  }

  function ServerHeader(p: Packet): Byte
    requires FromServer(p)
  {
    match p
    case ConnAck(_, _, _) => 0x20
    case SubAck(_, _, _) => 0x90
    case UnsubAck(_, _, _) => 0xB0
    case PingResp => 0xD0
  }

  function ServerFields(p: Packet): Wire.Fields
    requires FromServer(p)
  {
    match p
    case ConnAck(present, code, b) => Wire.Whole([if present then 1 else 0, code]).Then(BlockFields(b))
    case SubAck(id, b, codes) => Wire.Whole(Be16(id)).Then(BlockFields(b)).Then(Wire.Whole(codes))
    case UnsubAck(id, b, codes) => Wire.Whole(Be16(id)).Then(BlockFields(b)).Then(Wire.Whole(codes))
    case PingResp => Wire.Whole([])
  }

  predicate Deliverable(p: Packet) {
    FromServer(p) && ServerFields(p).complete && |ServerFields(p).bytes| <= Varint.MAX
  }

  /** Any packet the client can receive, on the wire. */
  function Transmitted(p: Packet): seq<Byte> {
    if FromServer(p) then Frame(ServerHeader(p), ServerFields(p).bytes) else Encode(p)
  }

  /** Every field fits its length prefix and the packet is within the MQTT limit. */
  predicate Receivable(p: Packet) {
    if FromServer(p) then Deliverable(p) else Sendable(p)
  }

  /** The packet as the parser gives it back, with its property block undecoded. */
  function AsReceived(p: Packet): Packet {
    match p
    case ConnAck(present, code, b) => Packet.ConnAck(present, code, NormalBlock(b))
    case SubAck(id, b, codes) => Packet.SubAck(id, NormalBlock(b), codes)
    case UnsubAck(id, b, codes) => Packet.UnsubAck(id, NormalBlock(b), codes)
    case PingResp => p
    case _ => Normal(p)
  }

  // ------------------------------------------------------------- round trip

  lemma ConnAckReads(present: bool, code: ReasonCode, b: Block)
    requires Deliverable(Packet.ConnAck(present, code, b))
    ensures var body := ServerFields(Packet.ConnAck(present, code, b)).bytes;
            TakeConnAck(body) == Got(Packet.ConnAck(present, code, NormalBlock(b)), |body|)
  {
    hide BlockFields, ContentFields;
    BlockWithin(b);
    ConnAckBytes(present, code, b);
  }

  lemma ConnAckBytes(present: bool, code: ReasonCode, b: Block)
    requires BlockFields(b).complete && BlockSize(b) <= Varint.MAX
    ensures var body := [if present then 1 else 0, code] + BlockFields(b).bytes;
            TakeConnAck(body) == Got(Packet.ConnAck(present, code, NormalBlock(b)), |body|)
  {
    hide BlockFields, TakeBlock, ContentFields, BlockSize;
    var block := BlockFields(b).bytes;
    BlockRoundTrip(b, []);
    assert block + [] == block;
    var body := [if present then 1 else 0, code] + block;
    assert body[1..] == [code] + block && body[2..] == block;
  }

  lemma SubAckReads(id: U16, b: Block, codes: seq<Byte>)
    requires BlockFields(b).complete && BlockSize(b) <= Varint.MAX
    ensures TakeSubAck(Be16(id) + (BlockFields(b).bytes + codes))
            == Got((id, ContentFields(b).bytes), 2 + |BlockFields(b).bytes|)
  {
    hide BlockFields, TakeBlock;
    var tail := BlockFields(b).bytes + codes;
    TakeU16Encoded(id, tail);
    DropConcat(Be16(id), tail);
    BlockRoundTrip(b, codes);
  }

  lemma ListAckReads(p: Packet)
    requires Deliverable(p) && (p.SubAck? || p.UnsubAck?)
    ensures var used := |ServerFields(p).bytes| - |p.codes|;
            && used >= 0 && ServerFields(p).bytes[used..] == p.codes
            && TakeSubAck(ServerFields(p).bytes) == Got((p.id, ContentFields(p.properties).bytes), used)
  {
    hide BlockFields, TakeSubAck;
    var block := BlockFields(p.properties).bytes;
    BlockWithin(p.properties);
    SubAckReads(p.id, p.properties, p.codes);
    assert ServerFields(p).bytes == Be16(p.id) + (block + p.codes);
    assert ServerFields(p).bytes == (Be16(p.id) + block) + p.codes;
  }

  /** Each of the four is parsed as itself: flag, code, identifier, properties and every return code. */
  lemma ServerRoundTrip(p: Packet)
    requires Deliverable(p)
    ensures FromBuffer(Frame(ServerHeader(p), ServerFields(p).bytes)) == Ok(AsReceived(p))
  {
    hide FromBuffer, TakeConnAck, TakeSubAck, ContentFields, BlockFields;
    var header, body := ServerHeader(p), ServerFields(p).bytes;
    match p {
      case ConnAck(present, code, b) =>
        ConnAckReads(present, code, b);
        FrameReads(header, body, AsReceived(p), |body|);
        assert body[|body|..] == [];
      case SubAck(id, b, codes) =>
        ListAckReads(p);
        FrameReads(header, body, Packet.SubAck(id, NormalBlock(b), []), |body| - |codes|);
      case UnsubAck(id, b, codes) =>
        ListAckReads(p);
        FrameReads(header, body, Packet.UnsubAck(id, NormalBlock(b), []), |body| - |codes|);
      case PingResp =>
        FrameReads(header, body, p, 0);
    }
  }

  /** What is received is what was transmitted, for every packet a client can receive. */
  lemma ReceivedIsTransmitted(p: Packet)
    requires Receivable(p)
    ensures IsFrame(Transmitted(p)) && FromBuffer(Transmitted(p)) == Ok(AsReceived(p))
  {
    hide FromBuffer, ServerFields, BodyFields, NormalBlock;
    if FromServer(p) {
      FrameIffWithinLimit(ServerHeader(p), ServerFields(p).bytes);
      ServerRoundTrip(p);
    } else {
      FrameIffWithinLimit(HeaderOf(p), BodyFields(p).bytes);
      PacketRoundTrip(p);
    }
  }

  // -------------------------------------------------------------- soundness

  /** A property block with its length in front. */
  function Prefixed(b: Block): seq<Byte> {
    if b.Encoded? then Varint.Encode(|b.bytes|) + b.bytes else []
  }

  /** Optional trailing fields; `raw` is the byte that stands for the reason code. */
  function ReasonBytes(r: Reason, raw: Byte): seq<Byte> {
    match r
    case Absent => []
    case Reason(_, None) => [raw]
    case Reason(_, Some(b)) => [raw] + Prefixed(b)
  }

  /** First byte and body of a received packet. */
  function Layout(p: Packet, raw: Byte): (Byte, seq<Byte>) {
    match p
    case ConnAck(present, _, b) => (0x20, [if present then 1 else 0, raw] + Prefixed(b))
    case Publish(topic, id, b, payload, retain, qos, dup) =>
      (0x30 + (if dup then 8 else 0) + qos.Code() * 2 + (if retain then 1 else 0),
       (if |topic| <= 0xFFFF then Be16(|topic|) else []) + topic + (if id.Some? then Be16(id.value) else [])
       + Prefixed(b) + payload)
    case PubAck(id, r) => (0x40, Be16(id) + ReasonBytes(r, raw))
    case PubRec(id, r) => (0x50, Be16(id) + ReasonBytes(r, raw))
    case PubRel(id, r) => (0x62, Be16(id) + ReasonBytes(r, raw))
    case PubComp(id, r) => (0x70, Be16(id) + ReasonBytes(r, raw))
    case SubAck(id, b, codes) => (0x90, Be16(id) + Prefixed(b) + codes)
    case UnsubAck(id, b, codes) => (0xB0, Be16(id) + Prefixed(b) + codes)
    case Disconnect(r) => (0xE0, ReasonBytes(r, raw))
    case PingResp => (0xD0, [])
  }

  /** The reason code is the one the raw byte stands for. */
  predicate Stands(p: Packet, raw: Byte) {
    match p
    case ConnAck(_, code, _) => ReasonOf(raw) == code
    case PubAck(_, r) => r.Reason? ==> ReasonOf(raw) == r.code
    case PubRec(_, r) => r.Reason? ==> ReasonOf(raw) == r.code
    case PubRel(_, r) => r.Reason? ==> ReasonOf(raw) == r.code
    case PubComp(_, r) => r.Reason? ==> ReasonOf(raw) == r.code
    case Disconnect(r) => r.Reason? ==> ReasonOf(raw) == r.code
    case _ => true
  }

  lemma U16Sound(s: seq<Byte>)
    requires TakeU16(s).Got?
    ensures s == Be16(TakeU16(s).value) + s[2..]
  {
  }

  lemma Splits(s: seq<Byte>, n: nat, v: nat)
    requires n + v <= |s|
    ensures s == s[..n] + s[n..][..v] + s[n + v..]
  {
  }

  lemma BlockSound(s: seq<Byte>)
    requires TakeBlock(s).Got?
    ensures s == Prefixed(Encoded(TakeBlock(s).value)) + s[TakeBlock(s).used..]
  {
    hide Varint.Encode, Varint.Read;
    var v, n := TakeVarint(s, BadVarint).value, TakeVarint(s, BadVarint).used;
    Varint.Canonical(s, v, n);
    assert s[..n] == Varint.Encode(v);
    Splits(s, n, v);
  }

  lemma TextSound(s: seq<Byte>)
    requires TakeText(s).Got?
    ensures var t, n := TakeText(s).value, TakeText(s).used;
            |t| <= 0xFFFF && s == Be16(|t|) + t + s[n..]
  {
    hide Wire.IsUtf8;
    U16Sound(s);
    var len := TakeU16(s).value;
    assert s[2..] == s[2..][..len] + s[2 + len..];
  }

  lemma ReasonSound(s: seq<Byte>) returns (raw: Byte)
    requires TakeReason(s).Got?
    ensures var r, n := TakeReason(s).value, TakeReason(s).used;
            s == ReasonBytes(r, raw) + s[n..] && (r.Reason? ==> ReasonOf(raw) == r.code)
  {
    hide TakeBlock, Prefixed;
    raw := if s == [] then 0 else s[0];
    if |s| > 1 {
      BlockSound(s[1..]);
      var n := TakeBlock(s[1..]).used;
      assert s[1..][n..] == s[1 + n..];
      assert s == [raw] + s[1..];
    }
  }

  lemma AckSound(s: seq<Byte>) returns (raw: Byte)
    requires TakeAck(s).Got?
    ensures var (id, r) := TakeAck(s).value;
            s == Be16(id) + ReasonBytes(r, raw) + s[TakeAck(s).used..] && (r.Reason? ==> ReasonOf(raw) == r.code)
  {
    hide TakeReason, ReasonBytes;
    U16Sound(s);
    raw := ReasonSound(s[2..]);
    var n := TakeReason(s[2..]).used;
    assert s[2..][n..] == s[2 + n..];
  }

  lemma SubAckSound(s: seq<Byte>)
    requires TakeSubAck(s).Got?
    ensures var (id, b) := TakeSubAck(s).value; s == Be16(id) + Prefixed(Encoded(b)) + s[TakeSubAck(s).used..]
  {
    hide TakeBlock, Prefixed;
    U16Sound(s);
    BlockSound(s[2..]);
    var n := TakeBlock(s[2..]).used;
    assert s[2..][n..] == s[2 + n..];
  }

  lemma ConnAckSound(s: seq<Byte>) returns (raw: Byte)
    requires TakeConnAck(s).Got?
    ensures var p := TakeConnAck(s).value;
            p.ConnAck? && ReasonOf(raw) == p.code
            && s == [if p.sessionPresent then 1 else 0, raw] + Prefixed(p.properties) + s[TakeConnAck(s).used..]
  {
    hide TakeBlock, Prefixed;
    raw := s[1];
    assert s[1..][0] == s[1];
    BlockSound(s[2..]);
    var n := TakeBlock(s[2..]).used;
    assert s[2..][n..] == s[2 + n..];
    assert s == [s[0], s[1]] + s[2..];
  }

  lemma IdAndBlockSound(qos: Wire.QoS, s: seq<Byte>)
    requires TakeIdAndBlock(qos, s).Got?
    ensures var (id, b) := TakeIdAndBlock(qos, s).value;
            && (id.None? <==> qos.AtMostOnce?)
            && s == (if id.Some? then Be16(id.value) else []) + Prefixed(Encoded(b)) + s[TakeIdAndBlock(qos, s).used..]
  {
    hide TakeBlock, Prefixed;
    var n := TakeId(qos, s).used;
    if !qos.AtMostOnce? {
      U16Sound(s);
    } else {
      assert s[0..] == s;
    }
    BlockSound(s[n..]);
    var m := TakeBlock(s[n..]).used;
    assert s[n..][m..] == s[n + m..];
  }

  lemma PublishHeaderSound(header: Byte, qos: Wire.QoS)
    requires Wire.MessageTypeOf(header) == Some(Wire.Publish) && Wire.PublishQos(header) == Some(qos)
    ensures header == 0x30 + (if Wire.PublishDuplicate(header) then 8 else 0) + qos.Code() * 2
                      + (if Wire.PublishRetain(header) then 1 else 0)
  {
    assert header / 16 == 3;
  }

  lemma PublishSound(header: Byte, s: seq<Byte>)
    requires Wire.MessageTypeOf(header) == Some(Wire.Publish) && TakePublish(header, s).Got?
    ensures var p := TakePublish(header, s).value;
            && p.Publish? && p.payload == [] && (p.packetId.None? <==> p.qos.AtMostOnce?)
            && header == Layout(p, 0).0 && s == Layout(p, 0).1 + s[TakePublish(header, s).used..]
  {
    hide TakeText, TakeIdAndBlock, Prefixed, Wire.IsUtf8, Wire.MessageTypeOf, Wire.PublishQos, Wire.PublishRetain,
         Wire.PublishDuplicate;
    var qos := Wire.PublishQos(header).value;
    PublishHeaderSound(header, qos);
    TextSound(s);
    var n := TakeText(s).used;
    IdAndBlockSound(qos, s[n..]);
    var m := TakeIdAndBlock(qos, s[n..]).used;
    assert s[n..][m..] == s[n + m..];
    var p := TakePublish(header, s).value;
    assert Layout(p, 0).1 + [] == Layout(p, 0).1;
  }

  /** Only the flags the message type requires, a PUBLISH aside, and only the types a client receives. */
  lemma HeaderSound(header: Byte, s: seq<Byte>)
    requires Wire.FlagsValid(header) && TakeBody(header, s).Got?
    ensures !TakeBody(header, s).value.Publish? ==> header == Layout(TakeBody(header, s).value, 0).0
  {
    hide TakeConnAck, TakePublish, TakeAck, TakeSubAck, TakeReason, Prefixed, ReasonBytes, Be16;
    var t := Wire.MessageTypeOf(header).value;
    assert header == 16 * t.Code() + header % 16;
    match t {
      case ConnAck => var raw := ConnAckSound(s);
      case Publish => PublishSound(header, s);
      case _ =>
    }
  }

  /** What a parsed body consumed is the layout of what it became. */
  lemma BodySound(header: Byte, s: seq<Byte>) returns (raw: Byte)
    requires Wire.FlagsValid(header) && TakeBody(header, s).Got?
    ensures var p := TakeBody(header, s).value;
            && header == Layout(p, raw).0 && s == Layout(p, raw).1 + s[TakeBody(header, s).used..] && Stands(p, raw)
            && (p.Publish? ==> p.payload == [] && (p.packetId.None? <==> p.qos.AtMostOnce?))
            && (p.SubAck? || p.UnsubAck? ==> p.codes == [])
  {
    hide TakeConnAck, TakePublish, TakeAck, TakeSubAck, TakeReason, Prefixed, ReasonBytes, Wire.FlagsValid;
    HeaderSound(header, s);
    raw := 0;
    match Wire.MessageTypeOf(header).value {
      case ConnAck => raw := ConnAckSound(s);
      case Publish => PublishSound(header, s);
      case PubAck => raw := AckSound(s);
      case PubRec => raw := AckSound(s);
      case PubRel => raw := AckSound(s);
      case PubComp => raw := AckSound(s);
      case SubAck => SubAckSound(s);
      case UnsubAck => SubAckSound(s);
      case Disconnect => raw := ReasonSound(s);
      case _ =>
    }
  }

  /** A whole packet is its header, the length of its body, and its body. */
  lemma FrameParts(s: seq<Byte>) returns (n: nat)
    requires IsFrame(s)
    ensures 1 + n <= |s| && s == Frame(s[0], s[1 + n..]) && |s[1 + n..]| <= Varint.MAX
    ensures TakeVarint(s[1..], DeError.Custom) == Got(|s| - 1 - n, n)
  {
    hide Varint.Encode, Varint.Read;
    n := Varint.Read(s[1..]).len;
    var v := Varint.Read(s[1..]).value;
    Varint.Canonical(s[1..], v, n);
    assert s[1..] == Varint.Encode(v) + s[1..][n..];
    assert s[1..][n..] == s[1 + n..];
    assert s == [s[0]] + s[1..];
  }

  /** The parser on a frame whose remaining length takes `n` bytes. */
  lemma PacketParts(s: seq<Byte>, n: nat)
    requires 1 + n <= |s| && TakeVarint(s[1..], DeError.Custom) == Got(|s| - 1 - n, n) && FromBuffer(s).Ok?
    ensures var p := TakeBody(s[0], s[1 + n..]);
            && Wire.FlagsValid(s[0]) && p.Got?
            && FromBuffer(s) == AttachRemainder(p.value, s[1 + n..][p.used..])
  {
    hide TakeBody, TakeVarint, Wire.FlagsValid, AttachRemainder;
    assert s[1..][n..] == s[1 + n..];
    assert TakeBody(s[0], s[1..][n..]).Got?;
    var used := TakeBody(s[0], s[1..][n..]).used;
    assert s[1 + n..][used..] == s[1 + n + used..];
  }

  lemma PacketSound(s: seq<Byte>, n: nat) returns (raw: Byte)
    requires 1 + n <= |s| && TakeVarint(s[1..], DeError.Custom) == Got(|s| - 1 - n, n) && FromBuffer(s).Ok?
    ensures Layout(FromBuffer(s).value, raw) == (s[0], s[1 + n..]) && Stands(FromBuffer(s).value, raw)
    ensures var p := FromBuffer(s).value; p.Publish? ==> (p.packetId.None? <==> p.qos.AtMostOnce?)
  {
    hide TakeBody, TakeVarint, Wire.FlagsValid, Layout, FromBuffer;
    PacketParts(s, n);
    var body := s[1 + n..];
    raw := BodySound(s[0], body);
    AttachedLayout(TakeBody(s[0], body).value, raw, body[TakeBody(s[0], body).used..]);
  }

  lemma AttachedLayout(q: Packet, raw: Byte, rest: seq<Byte>)
    requires AttachRemainder(q, rest).Ok?
    requires (q.Publish? ==> q.payload == []) && (q.SubAck? || q.UnsubAck? ==> q.codes == [])
    ensures var p := AttachRemainder(q, rest).value;
            Layout(p, raw) == (Layout(q, raw).0, Layout(q, raw).1 + rest)
  {
    hide Prefixed, Be16, ReasonBytes;
    var p := AttachRemainder(q, rest).value;
    if rest == [] {
      assert Layout(q, raw).1 + rest == Layout(q, raw).1;
    } else {
      assert Layout(p, raw).1 == Layout(q, raw).1 + rest;
    }
  }

  /**
    * The parser accepts nothing but layouts: whatever whole packet it accepts is, byte for byte, the packet it returns,
    * except that undocumented reason codes are returned as one catch-all.
    */
  lemma AcceptedIsLayout(s: seq<Byte>) returns (raw: Byte)
    requires IsFrame(s) && FromBuffer(s).Ok?
    ensures var p := FromBuffer(s).value;
            && s == Frame(Layout(p, raw).0, Layout(p, raw).1) && Stands(p, raw)
            && (p.Publish? ==> (p.packetId.None? <==> p.qos.AtMostOnce?))
  {
    hide FromBuffer, Layout, Stands, IsFrame, Frame, TakeVarint;
    var n := FrameParts(s);
    raw := PacketSound(s, n);
  }
}
