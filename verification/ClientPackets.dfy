/**
  * The packets a client never receives, as a broker reads them: CONNECT, SUBSCRIBE and UNSUBSCRIBE by their layout in
  * sections 3.1, 3.8 and 3.10 of MQTT Version 5.0.
  */
module ClientPackets {
  import opened Bytes
  import opened Deserializer
  import opened Packets
  import opened Properties
  import Varint
  import Wire

  // ---------------------------------------------------------------- CONNECT

  /** The Will of a CONNECT, its properties undecoded. */
  datatype Testament = Testament(qos: Wire.QoS, retained: bool, properties: seq<Byte>, topic: Wire.Text, data: seq<Byte>)

  /** What a CONNECT says, its properties undecoded. */
  datatype Greeting = Greeting(cleanStart: bool, keepalive: U16, properties: seq<Byte>, clientId: Wire.Text,
                               will: Option<Testament>, auth: Option<Auth>)

  /** Bit `n` of the connect flags. */
  predicate Flag(flags: Byte, n: nat)
    requires n < 8
  {
    flags / [1, 2, 4, 8, 16, 32, 64, 128][n] % 2 == 1
  }

  /** The flags this reader understands: the reserved bit clear, no Will bits without a Will, both credentials or none. */
  predicate FlagsRead(flags: Byte) {
    && !Flag(flags, 0)
    && (!Flag(flags, 2) ==> !Flag(flags, 3) && !Flag(flags, 4) && !Flag(flags, 5))
    && !(Flag(flags, 3) && Flag(flags, 4))
    && Flag(flags, 6) == Flag(flags, 7)
  }

  function WillQos(flags: Byte): Wire.QoS {
    if Flag(flags, 4) then Wire.ExactlyOnce else if Flag(flags, 3) then Wire.AtLeastOnce else Wire.AtMostOnce
  }

  /** The Will in the payload: properties, topic, payload. */
  function TakeWill(flags: Byte, s: seq<Byte>): (p: Parse<Option<Testament>>)
    ensures Within(p, s)
  {
    if !Flag(flags, 2) then Got(None, 0)
    else match TakeBlock(s)
      case Bad(e, n) => Bad(e, n)
      case Got(block, n) =>
        match TakeText(s[n..])
        case Bad(e, m) => Bad(e, n + m)
        case Got(topic, m) =>
          match TakeBinary(s[n + m..])
          case Bad(e, k) => Bad(e, n + m + k)
          case Got(data, k) => Got(Some(Testament(WillQos(flags), Flag(flags, 5), block, topic, data)), n + m + k)
  }

  function TakeAuth(flags: Byte, s: seq<Byte>): (p: Parse<Option<Auth>>)
    ensures Within(p, s)
  {
    if !Flag(flags, 7) then Got(None, 0)
    else match TakeText(s)
      case Bad(e, n) => Bad(e, n)
      case Got(name, n) =>
        match TakeBinary(s[n..])
        case Bad(e, m) => Bad(e, n + m)
        case Got(password, m) => Got(Some(Auth(name, password)), n + m)
  }

  /** From the client identifier on. */
  function TakePayload(flags: Byte, s: seq<Byte>): (p: Parse<(Wire.Text, Option<Testament>, Option<Auth>)>)
    ensures Within(p, s)
  {
    match TakeText(s)
    case Bad(e, n) => Bad(e, n)
    case Got(id, n) =>
      match TakeWill(flags, s[n..])
      case Bad(e, m) => Bad(e, n + m)
      case Got(will, m) =>
        match TakeAuth(flags, s[n + m..])
        case Bad(e, k) => Bad(e, n + m + k)
        case Got(auth, k) => Got((id, will, auth), n + m + k)
  }

  /** Protocol name, version, flags and keepalive: ten bytes. */
  predicate Opens(s: seq<Byte>) {
    |s| >= 10 && s[..7] == [0, 4, 0x4D, 0x51, 0x54, 0x54, 5] && FlagsRead(s[7])
  }

  /** The body of a CONNECT. */
  function TakeGreeting(s: seq<Byte>): Parse<Greeting> {
    if !Opens(s) then Bad(DeError.Custom, 0)
    else match TakeBlock(s[10..])
      case Bad(e, n) => Bad(e, 10 + n)
      case Got(block, n) =>
        match TakePayload(s[7], s[10 + n..])
        case Bad(e, m) => Bad(e, 10 + n + m)
        case Got(payload, m) =>
          Got(Greeting(Flag(s[7], 1), FromBe16(s[8..10]), block, payload.0, payload.1, payload.2), 10 + n + m)
  }

  /** The body of a whole packet with that first byte. */
  function BodyOf(header: Byte, s: seq<Byte>): Option<seq<Byte>> {
    if s == [] || s[0] != header then None
    else match TakeVarint(s[1..], DeError.Custom)
      case Bad(_, _) => None
      case Got(len, n) => if |s| == 1 + n + len then Some(s[1 + n..]) else None
  }

  /** A whole CONNECT. */
  function ReadConnect(s: seq<Byte>): Option<Greeting> {
    match BodyOf(0x10, s)
    case None => None
    case Some(body) =>
      var p := TakeGreeting(body);
      if p.Got? && p.used == |body| then Some(p.value) else None
  }

  // ------------------------------------------------------------- round trip

  lemma BodyOfFrame(header: Byte, body: seq<Byte>)
    requires |body| <= Varint.MAX
    ensures BodyOf(header, Frame(header, body)) == Some(body)
  {
    var s := Frame(header, body);
    var prefix := Varint.Encode(|body|);
    assert s[1..] == prefix + body;
    TakeVarintEncoded(|body|, body, DeError.Custom);
    assert s[1 + |prefix|..] == body;
  }

  function Bequest(will: Option<Will>): Option<Testament> {
    match will
    case None => None
    case Some(w) => Some(Testament(w.qos, w.retained, ContentFields(Slice(w.properties)).bytes, w.topic, w.data))
  }

  /** Each flag of a CONNECT is read back, and no other bit is set. */
  lemma FlagsRoundTrip(cleanStart: bool, will: Option<Will>, auth: Option<Auth>)
    ensures var f := ConnectFlags(cleanStart, will, auth);
            && FlagsRead(f) && Flag(f, 1) == cleanStart && Flag(f, 2) == will.Some? && Flag(f, 7) == auth.Some?
            && (will.Some? ==> WillQos(f) == will.value.qos && Flag(f, 5) == will.value.retained)
  {
    hide Flag;
    var qos, retained := if will.Some? then will.value.qos.Code() else 0, will.Some? && will.value.retained;
    FlagBits(ConnectFlags(cleanStart, will, auth), cleanStart, will.Some?, qos % 2 == 1, qos / 2 == 1, retained, auth.Some?);
  }

  lemma FlagBits(f: Byte, b1: bool, b2: bool, b3: bool, b4: bool, b5: bool, b7: bool)
    requires f == (if b1 then 2 else 0) + (if b2 then 4 else 0) + (if b3 then 8 else 0) + (if b4 then 16 else 0)
                  + (if b5 then 32 else 0) + (if b7 then 192 else 0)
    ensures !Flag(f, 0) && Flag(f, 1) == b1 && Flag(f, 2) == b2 && Flag(f, 3) == b3 && Flag(f, 4) == b4 && Flag(f, 5) == b5
    ensures Flag(f, 6) == b7 && Flag(f, 7) == b7
  {
  }

  lemma WillRoundTrip(flags: Byte, will: Option<Will>, rest: seq<Byte>)
    requires Flag(flags, 2) == will.Some? && WillFields(will).complete && |WillFields(will).bytes| <= Varint.MAX
    requires will.Some? ==> WillQos(flags) == will.value.qos && Flag(flags, 5) == will.value.retained
    ensures TakeWill(flags, WillFields(will).bytes + rest) == Got(Bequest(will), |WillFields(will).bytes|)
  {
    hide TakeBlock, TakeText, TakeBinary, BlockFields, Wire.IsUtf8, Flag;
    if will.Some? {
      var w := will.value;
      var block, topic, data := BlockFields(Slice(w.properties)).bytes, Wire.LengthPrefixed(w.topic).bytes,
                                Wire.LengthPrefixed(w.data).bytes;
      var s := WillFields(will).bytes + rest;
      BlockSmall(Slice(w.properties));
      BlockRoundTrip(Slice(w.properties), topic + (data + rest));
      assert s == block + (topic + (data + rest));
      DropConcat(block, topic + (data + rest));
      TakeTextEncoded(w.topic, data + rest);
      DropConcat(topic, data + rest);
      assert s[|block| + |topic|..] == data + rest;
      TakeBinaryEncoded(w.data, rest);
    }
  }

  lemma BlockSmall(b: Block)
    requires BlockFields(b).complete && |BlockFields(b).bytes| <= Varint.MAX
    ensures BlockSize(b) <= Varint.MAX
  {
    BlockSizeIsLength(b);
  }

  lemma AuthRoundTrip(flags: Byte, auth: Option<Auth>, rest: seq<Byte>)
    requires Flag(flags, 7) == auth.Some? && AuthFields(auth).complete
    ensures TakeAuth(flags, AuthFields(auth).bytes + rest) == Got(auth, |AuthFields(auth).bytes|)
  {
    hide TakeText, TakeBinary, Wire.IsUtf8, Flag;
    if auth.Some? {
      var a := auth.value;
      var name, password := Wire.LengthPrefixed(a.userName).bytes, Wire.LengthPrefixed(a.password).bytes;
      assert AuthFields(auth).bytes + rest == name + (password + rest);
      TakeTextEncoded(a.userName, password + rest);
      DropConcat(name, password + rest);
      TakeBinaryEncoded(a.password, rest);
    }
  }

  lemma PayloadRoundTrip(flags: Byte, clientId: Wire.Text, will: Option<Will>, auth: Option<Auth>)
    requires Flag(flags, 2) == will.Some? && Flag(flags, 7) == auth.Some?
    requires will.Some? ==> WillQos(flags) == will.value.qos && Flag(flags, 5) == will.value.retained
    requires Wire.LengthPrefixed(clientId).complete && WillFields(will).complete && AuthFields(auth).complete
    requires |WillFields(will).bytes| <= Varint.MAX
    ensures var s := Wire.LengthPrefixed(clientId).bytes + (WillFields(will).bytes + AuthFields(auth).bytes);
            TakePayload(flags, s) == Got((clientId, Bequest(will), auth), |s|)
  {
    hide TakeText, TakeWill, TakeAuth, WillFields, AuthFields, Bequest, Flag, Wire.IsUtf8;
    var i, w, a := Wire.LengthPrefixed(clientId).bytes, WillFields(will).bytes, AuthFields(auth).bytes;
    var s := i + (w + a);
    TakeTextEncoded(clientId, w + a);
    DropConcat(i, w + a);
    WillRoundTrip(flags, will, a);
    assert s[|i| + |w|..] == a;
    assert a + [] == a;
    AuthRoundTrip(flags, auth, []);
  }

  /** A CONNECT that serializes is its ten opening bytes, its properties and its payload. */
  lemma ConnectParts(cleanStart: bool, keepalive: U16, b: Block, clientId: Wire.Text, will: Option<Will>, auth: Option<Auth>)
    requires ConnectFields(cleanStart, keepalive, b, clientId, will, auth).complete
    ensures BlockFields(b).complete && Wire.LengthPrefixed(clientId).complete
    ensures WillFields(will).complete && AuthFields(auth).complete
    ensures ConnectFields(cleanStart, keepalive, b, clientId, will, auth).bytes
            == [0, 4, 0x4D, 0x51, 0x54, 0x54, 5, ConnectFlags(cleanStart, will, auth)] + Be16(keepalive)
               + (BlockFields(b).bytes
                  + (Wire.LengthPrefixed(clientId).bytes + (WillFields(will).bytes + AuthFields(auth).bytes)))
  {
    hide BlockFields, WillFields, AuthFields, ConnectFlags, Be16;
    assert Wire.LengthPrefixed(PROTOCOL_NAME) == Wire.Whole([0, 4, 0x4D, 0x51, 0x54, 0x54]) by {
      NameField();
    }
  }

  lemma NameField()
    ensures Wire.LengthPrefixed(PROTOCOL_NAME) == Wire.Whole([0, 4, 0x4D, 0x51, 0x54, 0x54])
  {
  }

  /** Every CONNECT that serializes within the MQTT limit reads back as what it was made from. */
  lemma ConnectRoundTrip(cleanStart: bool, keepalive: U16, b: Block, clientId: Wire.Text, will: Option<Will>,
                         auth: Option<Auth>)
    requires ConnectFields(cleanStart, keepalive, b, clientId, will, auth).complete
    requires |ConnectFields(cleanStart, keepalive, b, clientId, will, auth).bytes| <= Varint.MAX
    ensures ReadConnect(Frame(0x10, ConnectFields(cleanStart, keepalive, b, clientId, will, auth).bytes))
            == Some(Greeting(cleanStart, keepalive, ContentFields(b).bytes, clientId, Bequest(will), auth))
  {
    hide BlockFields, WillFields, AuthFields, ConnectFields, ConnectFlags, TakeGreeting, TakePayload, Flag, FlagsRead, Frame,
         Bequest, BodyOf, Wire.LengthPrefixed, Be16;
    var f := ConnectFlags(cleanStart, will, auth);
    var payload := Wire.LengthPrefixed(clientId).bytes + (WillFields(will).bytes + AuthFields(auth).bytes);
    BodyOfFrame(0x10, ConnectFields(cleanStart, keepalive, b, clientId, will, auth).bytes);
    ConnectParts(cleanStart, keepalive, b, clientId, will, auth);
    FlagsRoundTrip(cleanStart, will, auth);
    BlockSmall(b);
    PayloadRoundTrip(f, clientId, will, auth);
    GreetingRead(f, keepalive, b, payload, (clientId, Bequest(will), auth));
  }

  lemma GreetingRead(flags: Byte, keepalive: U16, b: Block, payload: seq<Byte>,
                     read: (Wire.Text, Option<Testament>, Option<Auth>))
    requires FlagsRead(flags) && BlockFields(b).complete && BlockSize(b) <= Varint.MAX
    requires TakePayload(flags, payload) == Got(read, |payload|)
    ensures var s := [0, 4, 0x4D, 0x51, 0x54, 0x54, 5, flags] + Be16(keepalive) + (BlockFields(b).bytes + payload);
            TakeGreeting(s)
            == Got(Greeting(Flag(flags, 1), keepalive, ContentFields(b).bytes, read.0, read.1, read.2), |s|)
  {
    hide BlockFields, TakeBlock, TakePayload, Flag, FlagsRead, FromBe16, Be16;
    var block := BlockFields(b).bytes;
    var s := [0, 4, 0x4D, 0x51, 0x54, 0x54, 5, flags] + Be16(keepalive) + (block + payload);
    OpeningBytes(flags, keepalive, block + payload);
    BlockRoundTrip(b, payload);
    assert s[10 + |block|..] == s[10..][|block|..] == payload;
  }

  lemma OpeningBytes(flags: Byte, keepalive: U16, rest: seq<Byte>)
    ensures var s := [0, 4, 0x4D, 0x51, 0x54, 0x54, 5, flags] + Be16(keepalive) + rest;
            && |s| >= 10 && s[..7] == [0, 4, 0x4D, 0x51, 0x54, 0x54, 5] && s[7] == flags
            && FromBe16(s[8..10]) == keepalive && s[10..] == rest
  {
    var s := [0, 4, 0x4D, 0x51, 0x54, 0x54, 5, flags] + Be16(keepalive) + rest;
    assert s[8..10] == Be16(keepalive);
  }

  // ---------------------------------------------- SUBSCRIBE and UNSUBSCRIBE

  /** Filters, each with its options byte, to the end of the packet. */
  function TakeTopics(s: seq<Byte>): Option<seq<(Wire.Text, Byte)>>
    decreases |s|
  {
    if s == [] then Some([])
    else match TakeText(s)
      case Bad(_, _) => None
      case Got(filter, n) =>
        if n >= |s| then None
        else match TakeTopics(s[n + 1..])
          case None => None
          case Some(more) => Some([(filter, s[n])] + more)
  }

  function TakeFilters(s: seq<Byte>): Option<seq<Wire.Text>>
    decreases |s|
  {
    if s == [] then Some([])
    else match TakeText(s)
      case Bad(_, _) => None
      case Got(filter, n) =>
        if n == 0 then None
        else match TakeFilters(s[n..])
          case None => None
          case Some(more) => Some([filter] + more)
  }

  datatype Listing = Subscription(id: U16, properties: seq<Byte>, topics: seq<(Wire.Text, Byte)>)
                   | Unsubscription(id: U16, properties: seq<Byte>, filters: seq<Wire.Text>)

  /** Identifier and properties in front of the list. */
  function TakeListHead(s: seq<Byte>): (p: Parse<(U16, seq<Byte>)>)
    ensures Within(p, s)
  {
    match TakeU16(s)
    case Bad(e, n) => Bad(e, n)
    case Got(id, n) =>
      match TakeBlock(s[n..])
      case Bad(e, m) => Bad(e, n + m)
      case Got(block, m) => Got((id, block), n + m)
  }

  /** A whole SUBSCRIBE or UNSUBSCRIBE. */
  function ReadListing(s: seq<Byte>): Option<Listing> {
    if BodyOf(0x82, s).Some? then
      var body := BodyOf(0x82, s).value;
      match TakeListHead(body)
      case Bad(_, _) => None
      case Got(head, n) =>
        var topics := TakeTopics(body[n..]);
        if topics.Some? then Some(Subscription(head.0, head.1, topics.value)) else None
    else if BodyOf(0xA2, s).Some? then
      var body := BodyOf(0xA2, s).value;
      match TakeListHead(body)
      case Bad(_, _) => None
      case Got(head, n) =>
        var filters := TakeFilters(body[n..]);
        if filters.Some? then Some(Unsubscription(head.0, head.1, filters.value)) else None
    else None
  }

  lemma {:induction false} TopicsRoundTrip(topics: seq<(Wire.Text, Byte)>)
    requires TopicFields(topics).complete
    ensures TakeTopics(TopicFields(topics).bytes) == Some(topics)
    decreases |topics|
  {
    hide TakeText, Wire.IsUtf8;
    if topics != [] {
      var t, more := Wire.LengthPrefixed(topics[0].0).bytes, TopicFields(topics[1..]).bytes;
      var s := TopicFields(topics).bytes;
      assert s == t + ([topics[0].1] + more);
      TakeTextEncoded(topics[0].0, [topics[0].1] + more);
      assert s[|t|] == topics[0].1 && s[|t| + 1..] == more;
      TopicsRoundTrip(topics[1..]);
      assert topics == [(topics[0].0, topics[0].1)] + topics[1..];
    }
  }

  lemma {:induction false} FiltersRoundTrip(filters: seq<Wire.Text>)
    requires FilterFields(filters).complete
    ensures TakeFilters(FilterFields(filters).bytes) == Some(filters)
    decreases |filters|
  {
    hide TakeText, Wire.IsUtf8;
    if filters != [] {
      var t, more := Wire.LengthPrefixed(filters[0]).bytes, FilterFields(filters[1..]).bytes;
      var s := FilterFields(filters).bytes;
      assert s == t + more;
      TakeTextEncoded(filters[0], more);
      DropConcat(t, more);
      FiltersRoundTrip(filters[1..]);
      assert filters == [filters[0]] + filters[1..];
    }
  }

  lemma HeadRoundTrip(id: U16, b: Block, rest: seq<Byte>)
    requires BlockFields(b).complete && |BlockFields(b).bytes| <= Varint.MAX
    ensures var s := Be16(id) + (BlockFields(b).bytes + rest);
            && TakeListHead(s) == Got((id, ContentFields(b).bytes), 2 + |BlockFields(b).bytes|)
            && s[2 + |BlockFields(b).bytes|..] == rest
  {
    hide BlockFields, TakeBlock;
    var block := BlockFields(b).bytes;
    TakeU16Encoded(id, block + rest);
    DropConcat(Be16(id), block + rest);
    BlockSmall(b);
    BlockRoundTrip(b, rest);
    DropConcat(block, rest);
  }

  /** A SUBSCRIBE that serializes reads back with its identifier, properties, filters and options. */
  lemma SubscribeRoundTrip(id: U16, b: Block, topics: seq<(Wire.Text, Byte)>)
    requires SubscribeFields(id, b, topics).complete && |SubscribeFields(id, b, topics).bytes| <= Varint.MAX
    ensures ReadListing(Frame(0x82, SubscribeFields(id, b, topics).bytes))
            == Some(Subscription(id, ContentFields(b).bytes, topics))
  {
    hide BlockFields, TopicFields, TakeListHead, TakeTopics, BodyOf, Frame;
    var s, rest := SubscribeFields(id, b, topics).bytes, TopicFields(topics).bytes;
    BodyOfFrame(0x82, s);
    assert s == Be16(id) + (BlockFields(b).bytes + rest);
    HeadRoundTrip(id, b, rest);
    TopicsRoundTrip(topics);
  }

  /** An UNSUBSCRIBE that serializes reads back with its identifier, properties and filters. */
  lemma UnsubscribeRoundTrip(id: U16, b: Block, filters: seq<Wire.Text>)
    requires UnsubscribeFields(id, b, filters).complete && |UnsubscribeFields(id, b, filters).bytes| <= Varint.MAX
    ensures ReadListing(Frame(0xA2, UnsubscribeFields(id, b, filters).bytes))
            == Some(Unsubscription(id, ContentFields(b).bytes, filters))
  {
    hide BlockFields, FilterFields, TakeListHead, TakeFilters, Frame;
    var s, rest := UnsubscribeFields(id, b, filters).bytes, FilterFields(filters).bytes;
    BodyOfFrame(0xA2, s);
    assert Frame(0xA2, s)[0] == 0xA2 by { FrameHeader(0xA2, s); }
    assert s == Be16(id) + (BlockFields(b).bytes + rest);
    HeadRoundTrip(id, b, rest);
    FiltersRoundTrip(filters);
  }

  lemma FrameHeader(header: Byte, body: seq<Byte>)
    ensures Frame(header, body)[0] == header
  {
  }
}
