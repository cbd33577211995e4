/** The MQTT field reader (minimq/src/de/deserializer.rs) and the property decoder built on it. */
module Deserializer {
  import opened Bytes
  import opened Wire
  import opened Properties
  import Varint

  datatype DeError = Custom | BadString | BadBool | BadVarint | InsufficientData

  /** Outcome of reading one field from the front of a byte sequence; `used` bytes were consumed. */
  datatype Parse<+T> = Got(value: T, used: nat) | Bad(error: DeError, used: nat) {
    function ToResult(): Result<T, DeError> {
      match this
      case Got(v, _) => Ok(v)
      case Bad(e, _) => Err(e)
    }
  }

  ghost predicate Within<T>(p: Parse<T>, s: seq<Byte>) {
    p.used <= |s|
  }

  function TakeByte(s: seq<Byte>): (p: Parse<Byte>)
    ensures Within(p, s)
  {
    if s == [] then Bad(InsufficientData, 0) else Got(s[0], 1)
  }

  function TakeU16(s: seq<Byte>): (p: Parse<U16>)
    ensures Within(p, s)
  {
    if |s| < 2 then Bad(InsufficientData, 0) else Got(FromBe16(s[..2]), 2)
  }

  function TakeU32(s: seq<Byte>): (p: Parse<U32>)
    ensures Within(p, s)
  {
    if |s| < 4 then Bad(InsufficientData, 0) else Got(FromBe32(s[..4]), 4)
  }

  function TakeN(s: seq<Byte>, n: nat): (p: Parse<seq<Byte>>)
    ensures Within(p, s)
  {
    if |s| < n then Bad(InsufficientData, 0) else Got(s[..n], n)
  }

  function TakeBool(s: seq<Byte>): (p: Parse<bool>)
    ensures Within(p, s)
  {
    if s == [] then Bad(InsufficientData, 0)
    else if s[0] == 0 then Got(false, 1)
    else if s[0] == 1 then Got(true, 1)
    else Bad(BadBool, 1)
  }

  /** A variable byte integer; `invalid` is the error the caller attaches to a refused encoding. */
  function TakeVarint(s: seq<Byte>, invalid: DeError): (p: Parse<U32>)
    ensures Within(p, s) && (s != [] ==> p.used >= 1)
  {
    match Varint.Read(s)
    case Done(v, n) => Varint.Canonical(s, v, n); Got(v, n)
    case Incomplete => Bad(InsufficientData, |s|)
    case Invalid(n) => Bad(invalid, n)
  }

  function TakeBinary(s: seq<Byte>): (p: Parse<seq<Byte>>)
    ensures Within(p, s)
  {
    match TakeU16(s)
    case Bad(e, n) => Bad(e, n)
    case Got(len, n) =>
      match TakeN(s[n..], len)
      case Bad(e, m) => Bad(e, n + m)
      case Got(data, m) => Got(data, n + m)
  }

  function TakeText(s: seq<Byte>): (p: Parse<Text>)
    ensures Within(p, s)
  {
    match TakeBinary(s)
    case Bad(e, n) => Bad(e, n)
    case Got(data, n) => if IsUtf8(data) then Got(data, n) else Bad(BadString, n)
  }

  function TakePair(s: seq<Byte>): (p: Parse<(Text, Text)>)
    ensures Within(p, s)
  {
    match TakeText(s)
    case Bad(e, n) => Bad(e, n)
    case Got(k, n) =>
      match TakeText(s[n..])
      case Bad(e, m) => Bad(e, n + m)
      case Got(v, m) => Got((k, v), n + m)
  }

  function MapParse<T, U>(p: Parse<T>, f: T -> U): (q: Parse<U>)
    ensures q.used == p.used
  {
    match p
    case Got(v, n) => Got(f(v), n)
    case Bad(e, n) => Bad(e, n)
  }

  /** The value of a property whose identifier is `id`. */
  function TakeValue(id: nat, s: seq<Byte>): (p: Parse<Property>)
    ensures Within(p, s)
  {
    match id
    case 0x01 => MapParse(TakeByte(s), v => PayloadFormatIndicator(v))
    case 0x02 => MapParse(TakeU32(s), v => MessageExpiryInterval(v))
    case 0x03 => MapParse(TakeText(s), v => ContentType(v))
    case 0x08 => MapParse(TakeText(s), v => ResponseTopic(v))
    case 0x09 => MapParse(TakeBinary(s), v => CorrelationData(v))
    case 0x0B => MapParse(TakeVarint(s, Custom), v => SubscriptionIdentifier(v))
    case 0x11 => MapParse(TakeU32(s), v => SessionExpiryInterval(v))
    case 0x12 => MapParse(TakeText(s), v => AssignedClientIdentifier(v))
    case 0x13 => MapParse(TakeU16(s), v => ServerKeepAlive(v))
    case 0x15 => MapParse(TakeText(s), v => AuthenticationMethod(v))
    case 0x16 => MapParse(TakeBinary(s), v => AuthenticationData(v))
    case 0x17 => MapParse(TakeByte(s), v => RequestProblemInformation(v))
    case 0x18 => MapParse(TakeU32(s), v => WillDelayInterval(v))
    case 0x19 => MapParse(TakeByte(s), v => RequestResponseInformation(v))
    case 0x1A => MapParse(TakeText(s), v => ResponseInformation(v))
    case 0x1C => MapParse(TakeText(s), v => ServerReference(v))
    case 0x1F => MapParse(TakeText(s), v => ReasonString(v))
    case 0x21 => MapParse(TakeU16(s), v => ReceiveMaximum(v))
    case 0x22 => MapParse(TakeU16(s), v => TopicAliasMaximum(v))
    case 0x23 => MapParse(TakeU16(s), v => TopicAlias(v))
    case 0x24 => MapParse(TakeByte(s), v => MaximumQoS(v))
    case 0x25 => MapParse(TakeByte(s), v => RetainAvailable(v))
    case 0x26 => MapParse(TakePair(s), (v: (Text, Text)) => UserProperty(v.0, v.1))
    case 0x27 => MapParse(TakeU32(s), v => MaximumPacketSize(v))
    case 0x28 => MapParse(TakeByte(s), v => WildcardSubscriptionAvailable(v))
    case 0x29 => MapParse(TakeByte(s), v => SubscriptionIdentifierAvailable(v))
    case 0x2A => MapParse(TakeByte(s), v => SharedSubscriptionAvailable(v))
    case _ => Bad(Custom, 0)
  }

  /** `Deserialize for Property`: never stalls, since at least one identifier byte is consumed. */
  function TakeProperty(s: seq<Byte>): (p: Parse<Property>)
    ensures Within(p, s)
    ensures s != [] ==> p.used >= 1
  {
    match TakeVarint(s, BadVarint)
    case Bad(e, n) => Bad(e, n)
    case Got(id, n) =>
      match TakeValue(id, s[n..])
      case Bad(e, m) => Bad(e, n + m)
      case Got(v, m) => Got(v, n + m)
  }

  /** The length-prefixed property block of a packet, kept undecoded. */
  function TakeBlock(s: seq<Byte>): (p: Parse<seq<Byte>>)
    ensures Within(p, s)
  {
    match TakeVarint(s, BadVarint)
    case Bad(e, n) => Bad(e, n)
    case Got(len, n) =>
      match TakeN(s[n..], len)
      case Bad(e, m) => Bad(e, n + m)
      case Got(data, m) => Got(data, n + m)
  }

  /** Everything the lazy iterator yields on an encoded block, `None` standing for an error item. */
  function Decode(s: seq<Byte>): seq<Option<Property>>
    decreases |s|
  {
    if s == [] then []
    else
      var p := TakeProperty(s);
      [if p.Got? then Some(p.value) else None] + Decode(s[p.used..])
  }

  function Listing(ps: seq<Property>): seq<Option<Property>> {
    seq(|ps|, i requires 0 <= i < |ps| => Some(ps[i]))
  }

  /** `Properties::iter` on each representation. */
  function Items(b: Block): seq<Option<Property>> {
    match b
    case Slice(ps) => Listing(ps)
    case WithCorrelation(c, ps) => Listing([c] + ps)
    case Encoded(bytes) => Decode(bytes)
  }

  // ------------------------------------------------------- round trips

  lemma TakeU16Encoded(n: U16, rest: seq<Byte>)
    ensures TakeU16(Be16(n) + rest) == Got(n, 2)
  {
    assert (Be16(n) + rest)[..2] == Be16(n);
  }

  lemma TakeU32Encoded(n: U32, rest: seq<Byte>)
    ensures TakeU32(Be32(n) + rest) == Got(n, 4)
  {
    assert (Be32(n) + rest)[..4] == Be32(n);
    Be32RoundTrip(n);
  }

  lemma TakeBinaryEncoded(data: seq<Byte>, rest: seq<Byte>)
    requires LengthPrefixed(data).complete
    ensures TakeBinary(LengthPrefixed(data).bytes + rest) == Got(data, |data| + 2)
  {
    var s := LengthPrefixed(data).bytes + rest;
    assert s == Be16(|data|) + (data + rest);
    TakeU16Encoded(|data|, data + rest);
    assert s[2..] == data + rest;
    DropConcat(data, rest);
  }

  lemma TakeTextEncoded(text: Text, rest: seq<Byte>)
    requires LengthPrefixed(text).complete
    ensures TakeText(LengthPrefixed(text).bytes + rest) == Got(text, |text| + 2)
  {
    TakeBinaryEncoded(text, rest);
  }

  lemma TakePairEncoded(k: Text, v: Text, rest: seq<Byte>)
    requires LengthPrefixed(k).complete && LengthPrefixed(v).complete
    ensures TakePair(LengthPrefixed(k).bytes + LengthPrefixed(v).bytes + rest) == Got((k, v), |k| + 2 + |v| + 2)
  {
    var tail := LengthPrefixed(v).bytes + rest;
    var s := LengthPrefixed(k).bytes + LengthPrefixed(v).bytes + rest;
    assert s == LengthPrefixed(k).bytes + tail;
    TakeTextEncoded(k, tail);
    assert s[|k| + 2..] == tail;
    TakeTextEncoded(v, rest);
  }

  lemma TakeVarintEncoded(v: U32, rest: seq<Byte>, invalid: DeError)
    requires v <= Varint.MAX
    ensures TakeVarint(Varint.Encode(v) + rest, invalid) == Got(v, |Varint.Encode(v)|)
  {
    Varint.RoundTrip(v, rest);
  }

  /** The value of `p` is read back from its own bytes. */
  ghost predicate ValueReads(p: Property, rest: seq<Byte>) {
    TakeValue(Identifier(p), ValueFields(p).bytes + rest) == Got(p, |ValueFields(p).bytes|)
  }

  lemma WordValueReads(p: Property, rest: seq<Byte>)
    requires p.MessageExpiryInterval? || p.SessionExpiryInterval? || p.WillDelayInterval? || p.MaximumPacketSize?
    ensures ValueReads(p, rest)
  {
    TakeU32Encoded(p.word, rest);
  }

  lemma HalfValueReads(p: Property, rest: seq<Byte>)
    requires p.ServerKeepAlive? || p.ReceiveMaximum? || p.TopicAliasMaximum? || p.TopicAlias?
    ensures ValueReads(p, rest)
  {
    TakeU16Encoded(p.half, rest);
  }

  lemma TextValueReads(p: Property, rest: seq<Byte>)
    requires || p.ContentType? || p.ResponseTopic? || p.AssignedClientIdentifier? || p.AuthenticationMethod?
             || p.ResponseInformation? || p.ServerReference? || p.ReasonString?
    requires ValueFields(p).complete
    ensures ValueReads(p, rest)
  {
    TakeTextEncoded(p.text, rest);
  }

  lemma DataValueReads(p: Property, rest: seq<Byte>)
    requires p.CorrelationData? || p.AuthenticationData?
    requires ValueFields(p).complete
    ensures ValueReads(p, rest)
  {
    TakeBinaryEncoded(p.data, rest);
  }

  lemma ByteValueReads(p: Property, rest: seq<Byte>)
    requires || p.PayloadFormatIndicator? || p.RequestProblemInformation? || p.RequestResponseInformation?
             || p.MaximumQoS? || p.RetainAvailable? || p.WildcardSubscriptionAvailable?
             || p.SubscriptionIdentifierAvailable? || p.SharedSubscriptionAvailable?
    ensures ValueReads(p, rest)
  {
    assert ValueFields(p).bytes == [p.byte];
    assert TakeByte([p.byte] + rest) == Got(p.byte, 1);
  }

  lemma VarintValueReads(p: Property, rest: seq<Byte>)
    requires p.SubscriptionIdentifier? && ValueFields(p).complete
    ensures ValueReads(p, rest)
  {
    TakeVarintEncoded(p.word, rest, Custom);
  }

  lemma PairValueReads(p: Property, rest: seq<Byte>)
    requires p.UserProperty? && ValueFields(p).complete
    ensures ValueReads(p, rest)
  {
    TakePairEncoded(p.key, p.text, rest);
  }

  lemma TakeValueEncoded(p: Property, rest: seq<Byte>)
    requires ValueFields(p).complete
    ensures ValueReads(p, rest)
  {
    if p.MessageExpiryInterval? || p.SessionExpiryInterval? || p.WillDelayInterval? || p.MaximumPacketSize? {
      WordValueReads(p, rest);
    } else if p.ServerKeepAlive? || p.ReceiveMaximum? || p.TopicAliasMaximum? || p.TopicAlias? {
      HalfValueReads(p, rest);
    } else if p.CorrelationData? || p.AuthenticationData? {
      DataValueReads(p, rest);
    } else if p.SubscriptionIdentifier? {
      VarintValueReads(p, rest);
    } else if p.UserProperty? {
      PairValueReads(p, rest);
    } else if || p.ContentType? || p.ResponseTopic? || p.AssignedClientIdentifier? || p.AuthenticationMethod?
              || p.ResponseInformation? || p.ServerReference? || p.ReasonString? {
      TextValueReads(p, rest);
    } else {
      ByteValueReads(p, rest);
    }
  }

  /** Decoding an encoded property gives it back and consumes exactly its bytes. */
  lemma PropertyRoundTrip(p: Property, rest: seq<Byte>)
    requires PropertyFields(p).complete
    ensures TakeProperty(PropertyFields(p).bytes + rest) == Got(p, Size(p))
  {
    var id := Identifier(p);
    var value := ValueFields(p).bytes;
    var s := PropertyFields(p).bytes + rest;
    assert s == Varint.Encode(id) + (value + rest);
    TakeVarintEncoded(id, value + rest, BadVarint);
    assert s[|Varint.Encode(id)|..] == value + rest;
    TakeValueEncoded(p, rest);
    SizeIsLength(p);
  }

  lemma {:induction false} ListRoundTrip(ps: seq<Property>)
    requires ListFields(ps).complete
    ensures Decode(ListFields(ps).bytes) == Listing(ps)
  {
    if ps != [] {
      var rest := ListFields(ps[1..]).bytes;
      var s := ListFields(ps).bytes;
      assert s == PropertyFields(ps[0]).bytes + rest;
      PropertyRoundTrip(ps[0], rest);
      SizeIsLength(ps[0]);
      assert s[Size(ps[0])..] == rest;
      ListRoundTrip(ps[1..]);
      assert Listing(ps) == [Some(ps[0])] + Listing(ps[1..]);
    }
  }

  /** The content of any block that serializes decodes to the items the block itself iterates over. */
  lemma ContentRoundTrip(b: Block)
    requires ContentFields(b).complete
    ensures Decode(ContentFields(b).bytes) == Items(b)
  {
    match b {
      case Slice(ps) => ListRoundTrip(ps);
      case WithCorrelation(c, ps) =>
        assert ([c] + ps)[1..] == ps;
        assert ListFields([c] + ps) == ContentFields(b);
        ListRoundTrip([c] + ps);
      case Encoded(_) =>
    }
  }

  /**
    * A serialized block, read back in front of anything, yields its own content bytes, which decode
    * to the same properties in the same order. The size must not wrap in the 32-bit cast.
    */
  lemma BlockRoundTrip(b: Block, rest: seq<Byte>)
    requires BlockFields(b).complete && BlockSize(b) <= Varint.MAX
    ensures var bytes := BlockFields(b).bytes;
            && TakeBlock(bytes + rest) == Got(ContentFields(b).bytes, |bytes|)
            && Items(Encoded(ContentFields(b).bytes)) == Items(b)
  {
    hide ContentFields, BlockSize, Decode, TakeVarint, Varint.Encode;
    var content := ContentFields(b).bytes;
    var prefix := Varint.Encode(BlockSize(b));
    BlockSizeIsLength(b);
    var s := BlockFields(b).bytes + rest;
    assert s == prefix + (content + rest);
    TakeVarintEncoded(BlockSize(b), content + rest, BadVarint);
    assert s[|prefix|..] == content + rest;
    DropConcat(content, rest);
    ContentRoundTrip(b);
  }

  /** On arbitrary bytes the iterator yields at most one item per byte. */
  lemma {:induction false} DecodeIsBounded(s: seq<Byte>)
    ensures |Decode(s)| <= |s|
    decreases |s|
  {
    if s != [] {
      DecodeIsBounded(s[TakeProperty(s).used..]);
    }
  }
}
