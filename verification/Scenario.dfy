/** A small session, from which the failing cases are built. */
module Scenario {
  import opened Bytes
  import opened Handshake
  import opened Outbound
  import opened OutboundLaws
  import opened PacketIds
  import opened Packets
  import opened Properties
  import opened Runs
  import opened Schedule
  import opened Session
  import Varint
  import Wire

  const CONFIG := Config(64, 3600, None, None, false)

  /** Before the first connection, with an arena of a hundred bytes and no keepalive. */
  const FRESH := Conn(Core(1, 0, Out(100, 0, [], [], []), [], false, []),
                      Runtime(0, 0xFFFF, 0xFFFF, None, None, None, None), NoLink, [], CONFIG)

  /** A plain CONNACK. */
  function Accepted(resumed: bool): Answer {
    Answered(Packet.ConnAck(resumed, SUCCESS, Slice([])))
  }

  const TOPIC: Wire.Text := [0x61]
  const EMPTY: Payload := _ => Written([])

  /** A QoS 2 publication with a one-letter topic and no payload. */
  const PUBLICATION := PublishRequest(TOPIC, Slice([]), Wire.ExactlyOnce, false, EMPTY)

  lemma ConnectSize(c: Conn)
    requires c.clientId == [] && c.config == CONFIG
    ensures ConnectBody(c).complete && |ConnectBody(c).bytes| == 26
  {
    var ps := [MaximumPacketSize(64), SessionExpiryInterval(3600), ReceiveMaximum(8)];
    ListThree(ps[0], ps[1], ps[2]);
    assert Announced(c) == Slice(ps);
    assert Varint.Encode(13) == [13];
    assert |BlockFields(Slice(ps)).bytes| == 14 && BlockFields(Slice(ps)).complete;
  }

  lemma ListThree(a: Property, b: Property, d: Property)
    requires a.MaximumPacketSize? && b.SessionExpiryInterval? && d.ReceiveMaximum?
    ensures ListFields([a, b, d]).complete && |ListFields([a, b, d]).bytes| == 13 == ListSize([a, b, d])
  {
    assert [a, b, d][1..] == [b, d] && [b, d][1..] == [d] && [d][1..] == [];
    assert ListFields([d]) == PropertyFields(d).Then(ListFields([]));
    assert ListFields([b, d]) == PropertyFields(b).Then(ListFields([d]));
    ListSizeIsLength([a, b, d]);
  }

  lemma ConnectEncodes(c: Conn)
    requires c.clientId == [] && c.config == CONFIG && ScratchLen(c.core.out) >= 31
    ensures EncodeInto(ScratchLen(c.core.out), Wire.ControlHeader(Wire.MessageType.Connect), ConnectBody(c)).Ok?
    ensures ConnectNeed(c) == 31
  {
    hide ConnectBody;
    ConnectSize(c);
  }

  /**
    * Connected: the broker limits neither packet size nor QoS, nothing is retained, `n` releases are pending, the
    * full quota is available, everything was sent.
    */
  ghost predicate Stage(c: Conn, n: nat) {
    && Streamed(c) && Idle(c)
    && c.rt.maxPacket.None? && c.rt.maxQos.None? && c.rt.quota == c.rt.maxQuota == LOCAL_QUOTA
    && c.core.out.retained == [] && |c.core.out.release| == n
    && c.core.out.capacity == 100 && c.core.out.workspace == 31
    && c.clientId == [] && c.config == CONFIG && c.core.present
  }

  lemma FreshInitial()
    ensures Initial(FRESH)
  {
  }

  lemma FirstConnect()
    ensures var (d, r) := Connect(FRESH, Accepted(false), 0);
            r == Ok(false) && Stage(d, 0) && |d.link.sent| == 1 && d.link.sent[0].DirectMessage?
  {
    hide EncodeInto, ConnectBody, Streamed, NextStep, Initial;
    FreshInitial();
    InitialStreamed(FRESH);
    OpenKeeps(FRESH, Accepted(false), 0);
    var a := Prepared(FRESH);
    assert a.core.out == FRESH.core.out;
    ConnectEncodes(a);
    NothingQueued(Connect(FRESH, Accepted(false), 0).0.core.out);
  }

  lemma NothingQueued(o: Out)
    requires o.control == [] && o.release == [] && o.retained == []
    ensures NextStep(o).None?
  {
    NoItems(o);
    NextStepIsNext(o);
  }

  // ------------------------------------------------------------- publishing

  lemma PublicationEncodes(id: U16, room: nat)
    requires room >= 32
    ensures EncodePublishInto(room, Wire.PublishHeader(Wire.ExactlyOnce, false, false),
                              PublishFields(TOPIC, Some(id), Slice([])), EMPTY).Ok?
  {
    assert Varint.Encode(0) == [0];
    assert PublishFields(TOPIC, Some(id), Slice([])).bytes == Be16(1) + TOPIC + (Be16(id) + ([0] + []));
  }

  /** The publication is admitted and is then all that is retained. */
  lemma Publish(c: Conn, n: nat) returns (id: PacketId)
    requires Stage(c, n)
    ensures Fits(c.core.out)
    ensures var (d, r) := Admit(c, PUBLICATION);
            && r == Ok(id) && Streamed(d) && d.link == c.link && d.rt == c.rt.(quota := LOCAL_QUOTA - 1)
            && |d.core.out.retained| == 1 && d.core.out.retained[0].kind.PublishExactlyOnce?
            && d.core.out.retained[0].id == id && d.core.out.retained[0].state == Write(0)
            && d.core.out == c.core.out.(retained := d.core.out.retained)
            && d == c.(core := c.core.(cursor := d.core.cursor, out := d.core.out), rt := d.rt)
  {
    hide EncodePublishInto, PublishFields, FreshId, NextStep, Streamed, Fits;
    StreamedFits(c);
    AskKeeps(c, PUBLICATION);
    var (d, i) := TakeId(c);
    id := i;
    PublicationEncodes(id, 69);
  }
}
