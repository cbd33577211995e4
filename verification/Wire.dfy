/** Fixed headers and primitive fields (minimq/src/wire.rs, the push order of minimq/src/ser/mod.rs). */
module Wire {
  import opened Bytes
  import Varint

  datatype QoS = AtMostOnce | AtLeastOnce | ExactlyOnce {
    function Code(): Byte {
      match this
      case AtMostOnce => 0
      case AtLeastOnce => 1
      case ExactlyOnce => 2
    }
  }

  datatype MessageType =
    | Connect | ConnAck | Publish | PubAck | PubRec | PubRel | PubComp | Subscribe | SubAck
    | Unsubscribe | UnsubAck | PingReq | PingResp | Disconnect | Auth
  {
    function Code(): (c: nat)
      ensures 1 <= c <= 15
    {
      match this
      case Connect => 1
      case ConnAck => 2
      case Publish => 3
      case PubAck => 4
      case PubRec => 5
      case PubRel => 6
      case PubComp => 7
      case Subscribe => 8
      case SubAck => 9
      case Unsubscribe => 10
      case UnsubAck => 11
      case PingReq => 12
      case PingResp => 13
      case Disconnect => 14
      case Auth => 15
    }

    function RequiredFlags(): Byte {
      match this
      case PubRel => 2
      case Subscribe => 2
      case Unsubscribe => 2
      case _ => 0
    }
  }

  function TypeOfCode(c: nat): (t: Option<MessageType>)
    ensures t.Some? ==> t.value.Code() == c
    ensures t.Some? <==> 1 <= c <= 15
  {
    match c
    case 1 => Some(Connect)
    case 2 => Some(ConnAck)
    case 3 => Some(Publish)
    case 4 => Some(PubAck)
    case 5 => Some(PubRec)
    case 6 => Some(PubRel)
    case 7 => Some(PubComp)
    case 8 => Some(Subscribe)
    case 9 => Some(SubAck)
    case 10 => Some(Unsubscribe)
    case 11 => Some(UnsubAck)
    case 12 => Some(PingReq)
    case 13 => Some(PingResp)
    case 14 => Some(Disconnect)
    case 15 => Some(Auth)
    case _ => None
  }

  /** `FixedHeader::new`: the type in the high nibble, the flags in the low one. */
  function Header(t: MessageType, flags: nat): Byte
    requires flags < 16
  {
    t.Code() * 16 + flags
  }

  function MessageTypeOf(header: Byte): Option<MessageType> {
    TypeOfCode(header / 16)
  }

  function FlagsOf(header: Byte): Byte {
    header % 16
  }

  predicate FlagsValid(header: Byte) {
    match MessageTypeOf(header)
    case None => false
    case Some(t) => t.Publish? || FlagsOf(header) == t.RequiredFlags()
  }

  function PublishQos(header: Byte): Option<QoS> {
    match header / 2 % 4
    case 0 => Some(AtMostOnce)
    case 1 => Some(AtLeastOnce)
    case 2 => Some(ExactlyOnce)
    case _ => None
  }

  predicate PublishRetain(header: Byte) {
    header % 2 == 1
  }

  predicate PublishDuplicate(header: Byte) {
    header / 8 % 2 == 1
  }

  function ControlHeader(t: MessageType): Byte {
    Header(t, t.RequiredFlags())
  }

  function PublishHeader(qos: QoS, retain: bool, dup: bool): Byte {
    Header(Publish, (if dup then 8 else 0) + qos.Code() * 2 + (if retain then 1 else 0))
  }

  /** `mark_publish_duplicate`: the byte with bit 3 set. */
  function MarkDuplicate(header: Byte): Byte {
    if PublishDuplicate(header) then header else header + 8
  }

  /** Building a fixed header and taking it apart agree, field by field. */
  lemma HeaderRoundTrip(t: MessageType, flags: nat)
    requires flags < 16
    ensures MessageTypeOf(Header(t, flags)) == Some(t) && FlagsOf(Header(t, flags)) == flags
  {
    assert (t.Code() * 16 + flags) / 16 == t.Code();
    match t {
      case _ =>
    }
  }

  lemma PublishHeaderRoundTrip(qos: QoS, retain: bool, dup: bool)
    ensures var h := PublishHeader(qos, retain, dup);
            && MessageTypeOf(h) == Some(Publish) && FlagsValid(h)
            && PublishQos(h) == Some(qos) && PublishRetain(h) == retain && PublishDuplicate(h) == dup
  {
    var h := PublishHeader(qos, retain, dup);
    assert h / 16 == 3;
    assert h / 2 % 4 == qos.Code();
    assert h / 8 % 2 == if dup then 1 else 0;
  }

  /** Marking a PUBLISH as a retransmission changes the DUP flag and nothing else (section 3.3.1.1). */
  lemma MarkDuplicateOnlyDup(qos: QoS, retain: bool, dup: bool)
    ensures MarkDuplicate(PublishHeader(qos, retain, dup)) == PublishHeader(qos, retain, true)
  {
    PublishHeaderRoundTrip(qos, retain, dup);
  }

  // ------------------------------------------------------------------ text

  predicate Continuation(b: Byte) {
    0x80 <= b <= 0xBF
  }

  /** Well-formed UTF-8, as `core::str::from_utf8` accepts it (Unicode Table 3-7). */
  predicate IsUtf8(s: seq<Byte>) {
    if s == [] then true
    else if s[0] < 0x80 then IsUtf8(s[1..])
    else if 0xC2 <= s[0] <= 0xDF then |s| >= 2 && Continuation(s[1]) && IsUtf8(s[2..])
    else if 0xE0 <= s[0] <= 0xEF then
      && |s| >= 3 && Continuation(s[1]) && Continuation(s[2])
      && (s[0] == 0xE0 ==> s[1] >= 0xA0) && (s[0] == 0xED ==> s[1] <= 0x9F)
      && IsUtf8(s[3..])
    else if 0xF0 <= s[0] <= 0xF4 then
      && |s| >= 4 && Continuation(s[1]) && Continuation(s[2]) && Continuation(s[3])
      && (s[0] == 0xF0 ==> s[1] >= 0x90) && (s[0] == 0xF4 ==> s[1] <= 0x8F)
      && IsUtf8(s[4..])
    else false
  }

  /** A string slice: bytes known to be UTF-8. */
  type Text = s: seq<Byte> | IsUtf8(s) witness []

  // ---------------------------------------------------------------- fields

  /**
    * What serializing a value pushes: the bytes, and whether it ran to the end or stopped
    * with a custom error after pushing them.
    */
  datatype Fields = Fields(bytes: seq<Byte>, complete: bool) {
    function Then(next: Fields): Fields {
      if complete then Fields(bytes + next.bytes, next.complete) else this
    }
  }

  function Whole(bytes: seq<Byte>): Fields {
    Fields(bytes, true)
  }

  const Refused := Fields([], false)

  /** `BinaryData` and `Utf8String`: a two-byte length, then the bytes; longer data is refused. */
  function LengthPrefixed(data: seq<Byte>): Fields {
    if |data| <= 0xFFFF then Whole(Be16(|data|) + data) else Refused
  }

  function VarintField(v: U32): Fields {
    if v <= Varint.MAX then Whole(Varint.Encode(v)) else Refused
  }
}
