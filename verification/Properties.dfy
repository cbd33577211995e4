/** MQTT properties, section 2.2.2 (minimq/src/properties.rs). */
module Properties {
  import opened Bytes
  import opened Wire
  import Varint

  datatype Property =
    | PayloadFormatIndicator(byte: Byte)
    | MessageExpiryInterval(word: U32)
    | ContentType(text: Text)
    | ResponseTopic(text: Text)
    | CorrelationData(data: seq<Byte>)
    | SubscriptionIdentifier(word: U32)
    | SessionExpiryInterval(word: U32)
    | AssignedClientIdentifier(text: Text)
    | ServerKeepAlive(half: U16)
    | AuthenticationMethod(text: Text)
    | AuthenticationData(data: seq<Byte>)
    | RequestProblemInformation(byte: Byte)
    | WillDelayInterval(word: U32)
    | RequestResponseInformation(byte: Byte)
    | ResponseInformation(text: Text)
    | ServerReference(text: Text)
    | ReasonString(text: Text)
    | ReceiveMaximum(half: U16)
    | TopicAliasMaximum(half: U16)
    | TopicAlias(half: U16)
    | MaximumQoS(byte: Byte)
    | RetainAvailable(byte: Byte)
    | UserProperty(key: Text, text: Text)
    | MaximumPacketSize(word: U32)
    | WildcardSubscriptionAvailable(byte: Byte)
    | SubscriptionIdentifierAvailable(byte: Byte)
    | SharedSubscriptionAvailable(byte: Byte)

  /** `PropertyIdentifier` of a property. */
  function Identifier(p: Property): Byte {
    match p
    case PayloadFormatIndicator(_) => 0x01
    case MessageExpiryInterval(_) => 0x02
    case ContentType(_) => 0x03
    case ResponseTopic(_) => 0x08
    case CorrelationData(_) => 0x09
    case SubscriptionIdentifier(_) => 0x0B
    case SessionExpiryInterval(_) => 0x11
    case AssignedClientIdentifier(_) => 0x12
    case ServerKeepAlive(_) => 0x13
    case AuthenticationMethod(_) => 0x15
    case AuthenticationData(_) => 0x16
    case RequestProblemInformation(_) => 0x17
    case WillDelayInterval(_) => 0x18
    case RequestResponseInformation(_) => 0x19
    case ResponseInformation(_) => 0x1A
    case ServerReference(_) => 0x1C
    case ReasonString(_) => 0x1F
    case ReceiveMaximum(_) => 0x21
    case TopicAliasMaximum(_) => 0x22
    case TopicAlias(_) => 0x23
    case MaximumQoS(_) => 0x24
    case RetainAvailable(_) => 0x25
    case UserProperty(_, _) => 0x26
    case MaximumPacketSize(_) => 0x27
    case WildcardSubscriptionAvailable(_) => 0x28
    case SubscriptionIdentifierAvailable(_) => 0x29
    case SharedSubscriptionAvailable(_) => 0x2A
  }

  /** The bytes after the identifier. */
  function ValueFields(p: Property): Fields {
    match p
    case PayloadFormatIndicator(v) => Whole([v])
    case MessageExpiryInterval(v) => Whole(Be32(v))
    case ContentType(s) => LengthPrefixed(s)
    case ResponseTopic(s) => LengthPrefixed(s)
    case CorrelationData(s) => LengthPrefixed(s)
    case SubscriptionIdentifier(v) => VarintField(v)
    case SessionExpiryInterval(v) => Whole(Be32(v))
    case AssignedClientIdentifier(s) => LengthPrefixed(s)
    case ServerKeepAlive(v) => Whole(Be16(v))
    case AuthenticationMethod(s) => LengthPrefixed(s)
    case AuthenticationData(s) => LengthPrefixed(s)
    case RequestProblemInformation(v) => Whole([v])
    case WillDelayInterval(v) => Whole(Be32(v))
    case RequestResponseInformation(v) => Whole([v])
    case ResponseInformation(s) => LengthPrefixed(s)
    case ServerReference(s) => LengthPrefixed(s)
    case ReasonString(s) => LengthPrefixed(s)
    case ReceiveMaximum(v) => Whole(Be16(v))
    case TopicAliasMaximum(v) => Whole(Be16(v))
    case TopicAlias(v) => Whole(Be16(v))
    case MaximumQoS(v) => Whole([v])
    case RetainAvailable(v) => Whole([v])
    case UserProperty(k, v) => LengthPrefixed(k).Then(LengthPrefixed(v))
    case MaximumPacketSize(v) => Whole(Be32(v))
    case WildcardSubscriptionAvailable(v) => Whole([v])
    case SubscriptionIdentifierAvailable(v) => Whole([v])
    case SharedSubscriptionAvailable(v) => Whole([v])
  }

  /** `Serialize for Property`. */
  function PropertyFields(p: Property): Fields {
    VarintField(Identifier(p)).Then(ValueFields(p))
  }

  /** `Property::size`: computed from the value, without serializing it. */
  function Size(p: Property): nat {
    var identifierLength := |Varint.Encode(Identifier(p))|;
    match p
    case ContentType(s) => |s| + 2 + identifierLength
    case ResponseTopic(s) => |s| + 2 + identifierLength
    case AuthenticationMethod(s) => |s| + 2 + identifierLength
    case ResponseInformation(s) => |s| + 2 + identifierLength
    case ServerReference(s) => |s| + 2 + identifierLength
    case ReasonString(s) => |s| + 2 + identifierLength
    case AssignedClientIdentifier(s) => |s| + 2 + identifierLength
    case UserProperty(k, v) => (|v| + 2) + (|k| + 2) + identifierLength
    case CorrelationData(s) => |s| + 2 + identifierLength
    case AuthenticationData(s) => |s| + 2 + identifierLength
    case SubscriptionIdentifier(v) => |Varint.Encode(v)| + identifierLength
    case MessageExpiryInterval(_) => 4 + identifierLength
    case SessionExpiryInterval(_) => 4 + identifierLength
    case WillDelayInterval(_) => 4 + identifierLength
    case MaximumPacketSize(_) => 4 + identifierLength
    case ServerKeepAlive(_) => 2 + identifierLength
    case ReceiveMaximum(_) => 2 + identifierLength
    case TopicAliasMaximum(_) => 2 + identifierLength
    case TopicAlias(_) => 2 + identifierLength
    case _ => 1 + identifierLength
  }

  function ListFields(ps: seq<Property>): Fields {
    if ps == [] then Whole([]) else PropertyFields(ps[0]).Then(ListFields(ps[1..]))
  }

  function ListSize(ps: seq<Property>): nat {
    if ps == [] then 0 else Size(ps[0]) + ListSize(ps[1..])
  }

  /** `PropertiesData`: how a packet holds its properties. */
  datatype Block =
    | Slice(props: seq<Property>)
    | Encoded(bytes: seq<Byte>)
    | WithCorrelation(correlation: Property, props: seq<Property>)

  function BlockSize(b: Block): nat {
    match b
    case Slice(ps) => ListSize(ps)
    case WithCorrelation(c, ps) => ListSize(ps + [c])
    case Encoded(bytes) => |bytes|
  }

  function ContentFields(b: Block): Fields {
    match b
    case Slice(ps) => ListFields(ps)
    case WithCorrelation(c, ps) => PropertyFields(c).Then(ListFields(ps))
    case Encoded(bytes) => Whole(bytes)
  }

  /** `Serialize for Properties`: the separately computed size, truncated to 32 bits, then the content. */
  function BlockFields(b: Block): Fields {
    VarintField(TruncateU32(BlockSize(b))).Then(ContentFields(b))
  }

  // ------------------------------------------------- size against bytes

  lemma SizeIsLength(p: Property)
    requires PropertyFields(p).complete
    ensures |PropertyFields(p).bytes| == Size(p) >= 1
  {
  }

  lemma {:induction false} ListSizeIsLength(ps: seq<Property>)
    requires ListFields(ps).complete
    ensures |ListFields(ps).bytes| == ListSize(ps)
  {
    if ps != [] {
      SizeIsLength(ps[0]);
      ListSizeIsLength(ps[1..]);
    }
  }

  lemma {:induction false} ListSizeConcat(ps: seq<Property>, qs: seq<Property>)
    ensures ListSize(ps + qs) == ListSize(ps) + ListSize(qs)
  {
    if ps == [] {
      assert ps + qs == qs;
    } else {
      assert (ps + qs)[1..] == ps[1..] + qs;
      ListSizeConcat(ps[1..], qs);
    }
  }

  /** For every block that serializes, `size` is the number of content bytes written. */
  lemma BlockSizeIsLength(b: Block)
    requires ContentFields(b).complete
    ensures |ContentFields(b).bytes| == BlockSize(b)
  {
    match b {
      case Slice(ps) => ListSizeIsLength(ps);
      case WithCorrelation(c, ps) =>
        SizeIsLength(c);
        ListSizeIsLength(ps);
        ListSizeConcat(ps, [c]);
        assert ListSize([c]) == Size(c) + ListSize([]);
      case Encoded(_) =>
    }
  }
}
