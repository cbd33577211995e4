/** What the CONNECT of a session says to the broker (minimq/src/mqtt_client/session/handshake.rs). */
module Greetings {
  import opened Bytes
  import opened ClientPackets
  import opened Handshake
  import opened Outbound
  import opened OutboundLaws
  import opened Packets
  import opened Properties
  import opened Runs
  import opened Schedule
  import opened Session
  import Deserializer
  import Reconnect
  import Varint
  import Wire

  /** The CONNECT a connect sends from `c`, if it can be encoded. */
  function ConnectPacket(c: Conn): Option<seq<Byte>> {
    var a := Prepared(c);
    match EncodeInto(ScratchLen(a.core.out), Wire.ControlHeader(Wire.MessageType.Connect), ConnectBody(a))
    case Err(_) => None
    case Ok(packet) => Some(packet)
  }

  /** The CONNECT says this about the session, and announces its limits in its properties. */
  ghost predicate Says(packet: seq<Byte>, cleanStart: bool, c: Conn) {
    match ReadConnect(packet)
    case None => false
    case Some(g) =>
      && g.cleanStart == cleanStart && g.keepalive == c.rt.keepalive / 1000 % 0x1_0000 && g.clientId == c.clientId
      && g.will == Bequest(c.config.will) && g.auth == c.config.auth
      && Deserializer.Decode(g.properties) == [Some(MaximumPacketSize(TruncateU32(c.config.rxLen))),
                                               Some(SessionExpiryInterval(c.config.expiry)), Some(ReceiveMaximum(8))]
  }

  /** The properties announced, decoded. */
  lemma AnnouncedReads(c: Conn)
    requires BlockFields(Announced(c)).complete
    ensures Deserializer.Decode(ContentFields(Announced(c)).bytes)
            == [Some(MaximumPacketSize(TruncateU32(c.config.rxLen))), Some(SessionExpiryInterval(c.config.expiry)),
                Some(ReceiveMaximum(8))]
  {
    Deserializer.ContentRoundTrip(Announced(c));
  }

  /** What a CONNECT that was encoded says: it asks for a clean start exactly when no session is believed present. */
  lemma ConnectSays(c: Conn)
    requires c.core.out.capacity < 0x1_0000_0000 && ConnectPacket(c).Some?
    ensures Says(ConnectPacket(c).value, !c.core.present, c)
  {
    hide ConnectFields, ReadConnect, ContentFields, BlockFields, Deserializer.Decode, ArmReplay, RetainedBytes, Bequest;
    var a := Prepared(c);
    var header, fields := Wire.ControlHeader(Wire.MessageType.Connect), ConnectBody(a);
    var packet := ConnectPacket(c).value;
    assert |fields.bytes| <= Varint.MAX && packet == Frame(0x10, fields.bytes) by {
      SoundCapacity(c.core.out);
      ScratchWithin(a.core.out);
      EncodedBody(ScratchLen(a.core.out), header, fields);
    }
    ConnectRoundTrip(!a.core.present, a.rt.keepalive / 1000 % 0x1_0000, Announced(a), a.clientId, a.config.will,
                     a.config.auth);
    ClientPackets.ConnectParts(!a.core.present, a.rt.keepalive / 1000 % 0x1_0000, Announced(a), a.clientId,
                               a.config.will, a.config.auth);
    AnnouncedReads(a);
  }

  lemma ScratchWithin(o: Out)
    ensures ScratchLen(o) <= o.capacity
  {
  }

  lemma EncodedBody(capacity: nat, header: Byte, fields: Wire.Fields)
    requires capacity < 0x1_0000_0000 && EncodeInto(capacity, header, fields).Ok?
    ensures fields.complete && |fields.bytes| <= Varint.MAX
    ensures EncodeInto(capacity, header, fields).value == Frame(header, fields.bytes)
  {
  }

  // ---------------------------------------------------------------- connecting

  /** A connect that opens a connection has sent exactly that CONNECT on it. */
  lemma OpenGreets(c: Conn, answer: Answer, now: nat)
    ensures var (d, r) := Connect(c, answer, now);
            && (d.link.live <==> r.Ok?)
            && (d.link.live ==> ConnectPacket(c).Some? && d.link.sent == [DirectMessage(ConnectPacket(c).value)])
  {
    hide EncodeInto, ConnectBody, ConnectNeed, SettleAll, Deserializer.Items, Handshake.Publishes, ArmReplay,
         RetainedBytes, Items, Begun;
  }

  /** A CONNACK that accepts the connection but reports no session. */
  predicate Discards(answer: Answer) {
    answer.Answered? && answer.packet.ConnAck? && Success(answer.packet.code) && !answer.packet.sessionPresent
  }

  lemma EncodedIsReserved(o: Out, header: Byte, fields: Wire.Fields)
    requires EncodeInto(ScratchLen(o), header, fields).Ok?
    ensures SetWorkspace(o, MAX_FIXED_HEADER_SIZE + |fields.bytes|).Some?
  {
  }

  /** A session is believed present after a connect that succeeded, and until one that is told otherwise fails. */
  lemma OpenBelieves(c: Conn, answer: Answer, now: nat)
    ensures var d := Connect(c, answer, now).0;
            d.core.present == (d.link.live || (c.core.present && !(ConnectPacket(c).Some? && Discards(answer))))
  {
    hide EncodeInto, ConnectBody, SettleAll, Deserializer.Items, Handshake.Publishes, ArmReplay, RetainedBytes, Items,
         Begun;
    var a := Prepared(c);
    if ConnectPacket(c).Some? {
      EncodedIsReserved(a.core.out, Wire.ControlHeader(Wire.MessageType.Connect), ConnectBody(a));
    }
  }

  // ---------------------------------------------------------------------- runs

  /** After the first `i` events: some connect succeeded, and none since was told that there is no session and failed. */
  ghost predicate Believed(states: seq<Conn>, events: seq<Event>, i: nat)
    requires i <= |events| < |states|
  {
    i > 0 &&
    if events[i - 1].Open? then
      || states[i].link.live
      || (Believed(states, events, i - 1)
          && !(ConnectPacket(states[i - 1]).Some? && Discards(events[i - 1].answer)))
    else Believed(states, events, i - 1)
  }

  /** Only a connect changes what is believed, who the client is, or what is announced. */
  lemma StepBelieves(c: Conn, e: Event)
    requires Fits(c.core.out) && Enabled(c, e) && !e.Open?
    ensures Apply(c, e).core.present == c.core.present
  {
    hide ServiceOnce, Admit, Fits, Quieted, Unremembered, Items, Begun, ArmReplay, HandlePacket, NextStep;
    match e {
      case Service(now, io) => Reconnect.ServiceIdentity(c, now, io);
      case Receive(p) => Reconnect.HandleIdentity(c.core, c.rt, p);
      case Ask(r) => Reconnect.AdmitSame(c, r);
      case _ =>
    }
  }

  /** The client's belief is that of its history. */
  lemma {:induction false} PresentIff(states: seq<Conn>, events: seq<Event>, i: nat)
    requires IsRun(states, events) && Initial(states[0]) && i <= |events|
    ensures states[i].core.present <==> Believed(states, events, i)
  {
    hide Enabled, Fits, Connect, ConnectPacket, Discards;
    if i > 0 {
      PresentIff(states, events, i - 1);
      var c, e := states[i - 1], events[i - 1];
      assert states[i - 1 + 1] == Apply(c, e);
      if e.Open? {
        OpenBelieves(c, e.answer, e.now);
      } else {
        StepBelieves(c, e);
      }
    }
  }

  /** The connect that opened the current connection. */
  lemma {:induction false} OpenedBy(states: seq<Conn>, events: seq<Event>, i: nat) returns (k: nat)
    requires IsRun(states, events) && Initial(states[0]) && i <= |events| && states[i].link.live
    ensures k < i && events[k].Open? && states[k + 1].link.live && (forall a | k < a < i :: !events[a].Open?)
    ensures states[k + 1].link.sent <= states[i].link.sent
  {
    hide Enabled, Fits, Streamed, Connect;
    var c, e := states[i - 1], events[i - 1];
    assert states[i - 1 + 1] == Apply(c, e);
    if e.Open? {
      k := i - 1;
    } else {
      RunStreamed(states, events, i - 1);
      StepOn(c, e);
      k := OpenedBy(states, events, i - 1);
    }
  }

  lemma StepOn(c: Conn, e: Event)
    requires Streamed(c) && Fits(c.core.out) && Enabled(c, e) && !e.Open?
    ensures Apply(c, e).link.live ==> c.link.live
    ensures c.link.sent <= Apply(c, e).link.sent
  {
    hide Streamed, ServiceOnce, HandlePacket, Admit, Quieted, Fits, Unremembered, Items, Begun, ArmReplay, NextStep;
    match e {
      case Service(now, io) => ServiceOn(c, now, io);
      case Ask(r) => AdmitGrowsLink(c, r);
      case _ =>
    }
  }

  lemma AdmitGrowsLink(c: Conn, r: Request)
    requires Streamed(c) && Fits(c.core.out)
    ensures Admit(c, r).0.link == c.link
  {
    hide Sound, StreamOk, FlushOk, Admit, Fits;
    AdmitGrows(c, r);
  }

  lemma ServiceOn(c: Conn, now: nat, io: Io)
    ensures var d := ServiceOnce(c, now, io).0; (d.link.live ==> c.link.live) && c.link.sent <= d.link.sent
  {
    hide NextStep, ItemAt, ControlBytes, Items, Begun, ArmReplay, CompleteFlush, AdvanceSlot, Taken, ShouldPing;
    if NextStep(c.core.out).Some? {
      NextStepWritable(c.core.out);
    } else if MaybePing(c, now).Ok? && NextStep(MaybePing(c, now).value.core.out).Some? {
      NextStepWritable(MaybePing(c, now).value.core.out);
    }
  }

  /**
    * On every connection of every run the first packet reads as a CONNECT. It asks for a clean start exactly when no
    * session was believed present, and carries keepalive, client identifier, will, credentials and limits of the session.
    */
  lemma FirstIsConnect(states: seq<Conn>, events: seq<Event>, i: nat) returns (k: nat)
    requires IsRun(states, events) && Initial(states[0]) && i <= |events| && states[i].link.live
    ensures k < i && events[k].Open? && forall a | k < a < i :: !events[a].Open?
    ensures |states[i].link.sent| > 0
    ensures Says(BytesOf(states[i].link.sent[0]), !Believed(states, events, k), states[k])
  {
    hide Enabled, Fits, Streamed, Connect, ConnectPacket, Says, Believed;
    k := OpenedBy(states, events, i);
    assert states[k + 1] == Apply(states[k], events[k]);
    OpenGreets(states[k], events[k].answer, events[k].now);
    RunStreamed(states, events, k);
    StreamedUnique(states[k]);
    ConnectSays(states[k]);
    PresentIff(states, events, k);
    assert states[i].link.sent[0] == states[k + 1].link.sent[0];
  }

  // -------------------------------------------------------------------- broker

  /** The broker reads from the CONNECT of `c` that a session is to be resumed. */
  ghost predicate AsksToResume(c: Conn) {
    ConnectPacket(c).Some? && ReadConnect(ConnectPacket(c).value).Some? && !ReadConnect(ConnectPacket(c).value).value.cleanStart
  }

  lemma AsksIff(c: Conn)
    requires Streamed(c) && ConnectPacket(c).Some?
    ensures AsksToResume(c) <==> c.core.present
  {
    hide Sound, StreamOk, FlushOk, ConnectPacket, ReadConnect, Bequest, Deserializer.Decode;
    ConnectSays(c);
  }
}
