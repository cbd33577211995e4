/** Opening a connection (minimq/src/mqtt_client/session/handshake.rs). */
module Handshake {
  import opened Bytes
  import opened Packets
  import opened Properties
  import opened Outbound
  import opened Wire
  import opened Session
  import Deserializer

  // ----------------------------------------------------------- CONNECT

  function Announced(c: Conn): Block {
    Slice([MaximumPacketSize(TruncateU32(c.config.rxLen)),
           SessionExpiryInterval(c.config.expiry),
           ReceiveMaximum(MAX_INBOUND_QOS2)])
  }

  /** The CONNECT a session sends now; it asks to resume exactly when a session is believed present. */
  function ConnectBody(c: Conn): Fields {
    ConnectFields(!c.core.present, c.rt.keepalive / 1000 % 0x1_0000, Announced(c), c.clientId,
                  c.config.will, c.config.auth)
  }

  /** Arena bytes it takes to encode that CONNECT: fixed-header space and body. */
  function ConnectNeed(c: Conn): nat {
    MAX_FIXED_HEADER_SIZE + |ConnectBody(c).bytes|
  }

  // ----------------------------------------------------------- CONNACK

  const LOCAL_QUOTA: nat := Min(MAX_RETAINED, MAX_PENDING_RELEASE)

  /** What the CONNACK properties settle. */
  datatype Terms = Terms(quota: nat, maxPacket: Option<U32>, maxQos: Option<QoS>, keepalive: nat, granted: Option<Text>)

  /** One step of the loop over CONNACK properties; `None` is an undecodable item. */
  function Settle(t: Terms, item: Option<Property>, named: bool): Option<Terms> {
    match item
    case None => None
    case Some(MaximumPacketSize(size)) => Some(t.(maxPacket := Some(size)))
    case Some(AssignedClientIdentifier(id)) =>
      if named || t.granted.Some? || |id| > CLIENT_ID_CAPACITY then None else Some(t.(granted := Some(id)))
    case Some(ServerKeepAlive(seconds)) => Some(t.(keepalive := seconds * 1000))
    case Some(ReceiveMaximum(max)) => if max == 0 then None else Some(t.(quota := Min(max, LOCAL_QUOTA)))
    case Some(MaximumQoS(max)) =>
      if max == 0 then Some(t.(maxQos := Some(AtMostOnce)))
      else if max == 1 then Some(t.(maxQos := Some(AtLeastOnce)))
      else if max == 2 then Some(t.(maxQos := Some(ExactlyOnce)))
      else None
    case _ => Some(t)
  }

  function SettleAll(t: Terms, items: seq<Option<Property>>, named: bool): Option<Terms>
    decreases |items|
  {
    if items == [] then Some(t)
    else match Settle(t, items[0], named)
      case None => None
      case Some(u) => SettleAll(u, items[1..], named)
  }

  /** The loop itself, which stops at the first offending property. */
  method Negotiate(t: Terms, items: seq<Option<Property>>, named: bool) returns (r: Option<Terms>)
    ensures r == SettleAll(t, items, named)
    ensures r.Some? && 1 <= t.quota <= LOCAL_QUOTA ==> 1 <= r.value.quota <= LOCAL_QUOTA
    ensures r.Some? && named && t.granted.None? ==> r.value.granted.None?
  {
    var terms := t;
    for i := 0 to |items|
      invariant SettleAll(t, items, named) == SettleAll(terms, items[i..], named)
      invariant 1 <= t.quota <= LOCAL_QUOTA ==> 1 <= terms.quota <= LOCAL_QUOTA
      invariant named && t.granted.None? ==> terms.granted.None?
    {
      assert items[i..][0] == items[i] && items[i..][1..] == items[i + 1..];
      var next := Settle(terms, items[i], named);
      if next.None? {
        return None;
      }
      terms := next.value;
    }
    return Some(terms);
  }

  lemma {:induction false} SettledQuota(t: Terms, items: seq<Option<Property>>, named: bool)
    requires 1 <= t.quota <= LOCAL_QUOTA && SettleAll(t, items, named).Some?
    ensures 1 <= SettleAll(t, items, named).value.quota <= LOCAL_QUOTA
    decreases |items|
  {
    if items != [] {
      SettledQuota(Settle(t, items[0], named).value, items[1..], named);
    }
  }

  lemma {:induction false} SettledName(t: Terms, items: seq<Option<Property>>, named: bool)
    requires SettleAll(t, items, named).Some?
    requires t.granted.Some? ==> !named
    ensures SettleAll(t, items, named).value.granted.Some? ==>
              !named || SettleAll(t, items, named).value.granted == t.granted
    decreases |items|
  {
    if items != [] {
      SettledName(Settle(t, items[0], named).value, items[1..], named);
    }
  }

  // ---------------------------------------------------------- handshake

  /** How far the exchange gets: CONNECT not fully sent, no usable answer, or a parsed packet. */
  datatype Answer = Unsent | Unanswered | Answered(packet: Packet)

  /** Publications still in flight. */
  function Publishes(rs: seq<Retained>): nat {
    if rs == [] then 0 else (if rs[0].kind.IsPublish() then 1 else 0) + Publishes(rs[1..])
  }

  /** `SessionData::reset`: the broker has no session, so local in-flight state is dropped. */
  function Reset(core: Core): Core {
    Core(1, TruncateU32(core.generation + 1), Clear(core.out), [], false, [])
  }

  /** The state reset at the start of every `connect`. */
  function Prepared(c: Conn): Conn {
    c.(core := c.core.(out := ArmReplay(c.core.out)), rt := ResetTransport(c.rt), link := NoLink)
  }

  /** The connection that results when everything was agreed. */
  function Activate(c: Conn, t: Terms, connect: seq<Byte>, now: nat): Conn {
    var rt := c.rt.(keepalive := t.keepalive, quota := t.quota, maxQuota := t.quota,
                    maxPacket := t.maxPacket, maxQos := t.maxQos, pingTimeout := None);
    c.(core := c.core.(present := true),
       rt := NoteActivity(rt, now),
       link := Link(true, Clean, connect, [DirectMessage(connect)], [], Publishes(c.core.out.retained)),
       clientId := if t.granted.Some? then t.granted.value else c.clientId)
  }

  /** Put agreed terms into effect; an assigned client identifier needs that much more reserve. */
  function Adopt(c: Conn, t: Terms, connect: seq<Byte>, reserve: nat, resumed: bool, now: nat): (Conn, Result<bool, Error>) {
    if t.granted.None? then (Activate(c, t, connect, now), Ok(resumed))
    else match SetWorkspace(c.core.out, reserve + |t.granted.value|)
      case None => (c.(rt := Activate(c, t, connect, now).rt.(nextPing := None)), Err(BufferTooSmall))
      case Some(o) => (Activate(WithOut(c, o), t, connect, now), Ok(resumed))
  }

  /** From a parsed CONNACK on; `reserve` is the workspace the CONNECT took. */
  function Accept(c: Conn, ack: Packet, connect: seq<Byte>, reserve: nat, now: nat): (Conn, Result<bool, Error>)
    requires ack.ConnAck?
  {
    if !Success(ack.code) then (c, Err(Rejected(ack.code)))
    else
      var d := if ack.sessionPresent then c else c.(core := Reset(c.core));
      match SettleAll(Terms(LOCAL_QUOTA, None, None, c.rt.keepalive, None),
                      Deserializer.Items(ack.properties), c.clientId != [])
      case None => (HandleDisconnect(d), Err(InvalidPacket))
      case Some(t) => Adopt(d, t, connect, reserve, ack.sessionPresent, now)
  }

  /** `Session::connect`; the result says whether an existing broker session was resumed. */
  function Connect(c: Conn, answer: Answer, now: nat): (Conn, Result<bool, Error>) {
    var a := Prepared(c);
    match EncodeInto(ScratchLen(a.core.out), ControlHeader(MessageType.Connect), ConnectBody(a))
    case Err(e) => (a, Err(FromSer(e)))
    case Ok(connect) =>
      if answer.Unsent? then (a, Err(TransportFailed))
      else match SetWorkspace(a.core.out, ConnectNeed(a))
        case None => (a, Err(BufferTooSmall))
        case Some(o) =>
          var b := WithOut(a, o);
          match answer
          case Answered(p) =>
            if p.ConnAck? then Accept(b, p, connect, ConnectNeed(a), now)
            else (HandleDisconnect(b), Err(if p.Disconnect? then Disconnected else InvalidPacket))
          case _ => (HandleDisconnect(b), Err(TransportFailed))
  }
}
