/** What the properties of a CONNACK settle for the connection (minimq/src/mqtt_client/session/handshake.rs). */
module Negotiation {
  import opened Bytes
  import opened Greetings
  import opened Handshake
  import opened Outbound
  import opened OutboundLaws
  import opened Packets
  import opened Properties
  import opened Runs
  import opened Session
  import Deserializer
  import Reconnect
  import Schedule
  import Wire

  type Items = seq<Option<Property>>

  /** The last property with this identifier. */
  function LastOf(items: Items, id: Byte): Option<Property> {
    if items == [] then None
    else
      var last := items[|items| - 1];
      if last.Some? && Identifier(last.value) == id then last else LastOf(items[..|items| - 1], id)
  }

  /** The last Maximum Packet Size, Server Keep Alive, Receive Maximum, Maximum QoS and assigned identifier decide. */
  ghost predicate Decided(t: Terms, items: Items, u: Terms) {
    var size, alive, max, qos, name :=
      LastOf(items, 0x27), LastOf(items, 0x13), LastOf(items, 0x21), LastOf(items, 0x24), LastOf(items, 0x12);
    && u.maxPacket == (if size.Some? && size.value.MaximumPacketSize? then Some(size.value.word) else t.maxPacket)
    && u.keepalive == (if alive.Some? && alive.value.ServerKeepAlive? then alive.value.half * 1000 else t.keepalive)
    && u.quota == (if max.Some? && max.value.ReceiveMaximum? then (if max.value.half < 8 then max.value.half else 8) else t.quota)
    && (if qos.Some? && qos.value.MaximumQoS? then u.maxQos.Some? && u.maxQos.value.Code() == qos.value.byte
        else u.maxQos == t.maxQos)
    && u.granted == (if name.Some? && name.value.AssignedClientIdentifier? then Some(name.value.text) else t.granted)
  }

  /** An item the client does not put up with: undecodable, out of range, or an identifier it did not ask for. */
  ghost predicate Offends(items: Items, i: nat, named: bool) {
    i < |items| &&
    match items[i]
    case None => true
    case Some(ReceiveMaximum(max)) => max == 0
    case Some(MaximumQoS(max)) => max > 2
    case Some(AssignedClientIdentifier(id)) =>
      || named || |id| > 64
      || exists k | 0 <= k < i :: items[k].Some? && items[k].value.AssignedClientIdentifier?
    case _ => false
  }

  ghost predicate NoneOffends(items: Items, named: bool) {
    forall i: nat :: !Offends(items, i, named)
  }

  lemma {:induction false} SettleSnoc(t: Terms, items: Items, x: Option<Property>, named: bool)
    ensures SettleAll(t, items + [x], named) ==
            match SettleAll(t, items, named)
            case None => None
            case Some(m) => Settle(m, x, named)
    decreases |items|
  {
    hide Settle;
    var all := items + [x];
    if items == [] {
      assert all[1..] == [];
    } else {
      assert all[1..] == items[1..] + [x];
      var m := Settle(t, items[0], named);
      if m.Some? {
        SettleSnoc(m.value, items[1..], x, named);
      }
    }
  }

  lemma {:induction false} LastDecides(t: Terms, items: Items, named: bool)
    requires SettleAll(t, items, named).Some?
    ensures Decided(t, items, SettleAll(t, items, named).value)
    decreases |items|
  {
    if items != [] {
      var front, x := items[..|items| - 1], items[|items| - 1];
      assert items == front + [x];
      SettleSnoc(t, front, x, named);
      LastDecides(t, front, named);
      assert x.Some?;
      LastSnoc(front, x.value);
      OneDecides(t, front, x.value, SettleAll(t, front, named).value, named);
    }
  }

  lemma LastSnoc(front: Items, p: Property)
    ensures forall id: Byte :: LastOf(front + [Some(p)], id) == if Identifier(p) == id then Some(p) else LastOf(front, id)
  {
    assert (front + [Some(p)])[..|front|] == front;
  }

  lemma OneDecides(t: Terms, front: Items, p: Property, m: Terms, named: bool)
    requires Decided(t, front, m) && Settle(m, Some(p), named).Some?
    requires forall id: Byte :: LastOf(front + [Some(p)], id) == if Identifier(p) == id then Some(p) else LastOf(front, id)
    ensures Decided(t, front + [Some(p)], Settle(m, Some(p), named).value)
  {
    hide LastOf;
  }

  /** An assigned identifier was accepted exactly if there is one among the items. */
  lemma {:induction false} GrantedIff(t: Terms, items: Items, named: bool)
    requires SettleAll(t, items, named).Some? && t.granted.None?
    ensures SettleAll(t, items, named).value.granted.Some? <==>
              exists k | 0 <= k < |items| :: items[k].Some? && items[k].value.AssignedClientIdentifier?
    decreases |items|
  {
    if items != [] {
      var front, x := items[..|items| - 1], items[|items| - 1];
      assert items == front + [x];
      SettleSnoc(t, front, x, named);
      GrantedIff(t, front, named);
      if exists k | 0 <= k < |front| :: front[k].Some? && front[k].value.AssignedClientIdentifier? {
        var k :| 0 <= k < |front| && front[k].Some? && front[k].value.AssignedClientIdentifier?;
        assert items[k] == front[k];
      }
    }
  }

  lemma OffendsFront(items: Items, i: nat, named: bool)
    requires items != [] && i < |items| - 1
    ensures Offends(items, i, named) <==> Offends(items[..|items| - 1], i, named)
  {
    var front := items[..|items| - 1];
    assert forall k | 0 <= k < |front| :: front[k] == items[k];
  }

  /** The terms are refused exactly if some item offends. */
  lemma {:induction false} RefusedIff(t: Terms, items: Items, named: bool)
    requires t.granted.None?
    ensures SettleAll(t, items, named).Some? <==> NoneOffends(items, named)
    decreases |items|
  {
    hide Offends;
    if items == [] {
      assert forall i: nat :: !Offends(items, i, named) by { NothingOffends(named); }
    } else {
      var front, x := items[..|items| - 1], items[|items| - 1];
      assert items == front + [x];
      SettleSnoc(t, front, x, named);
      RefusedIff(t, front, named);
      forall i: nat | i < |front| ensures Offends(items, i, named) <==> Offends(front, i, named) {
        OffendsFront(items, i, named);
      }
      forall i: nat | Offends(front, i, named) ensures i < |front| {
        OffendsWithin(front, i, named);
      }
      forall i: nat | Offends(items, i, named) ensures i < |items| {
        OffendsWithin(items, i, named);
      }
      if SettleAll(t, front, named).Some? {
        LastOffends(t, front, x, SettleAll(t, front, named).value, named);
      }
    }
  }

  lemma NothingOffends(named: bool)
    ensures forall i: nat :: !Offends([], i, named)
  {
  }

  lemma OffendsWithin(items: Items, i: nat, named: bool)
    requires Offends(items, i, named)
    ensures i < |items|
  {
  }

  lemma LastOffends(t: Terms, front: Items, x: Option<Property>, m: Terms, named: bool)
    requires t.granted.None? && SettleAll(t, front, named) == Some(m)
    ensures Settle(m, x, named).None? <==> Offends(front + [x], |front|, named)
  {
    hide SettleAll;
    GrantedIff(t, front, named);
    var items := front + [x];
    assert forall k | 0 <= k < |front| :: items[k] == front[k];
    if x.Some? && x.value.AssignedClientIdentifier? && m.granted.Some? {
      var k :| 0 <= k < |front| && front[k].Some? && front[k].value.AssignedClientIdentifier?;
      assert items[k].Some? && items[k].value.AssignedClientIdentifier?;
    }
  }

  // -------------------------------------------------------------------- connect

  /** The terms a connection starts from before the CONNACK is read. */
  function Offered(c: Conn): Terms {
    Terms(8, None, None, c.rt.keepalive, None)
  }

  /** A connect succeeds only without an offending property, and then the connection runs on the terms decided. */
  lemma TermsTaken(c: Conn, answer: Answer, now: nat)
    requires Connect(c, answer, now).1.Ok?
    ensures answer.Answered? && answer.packet.ConnAck?
    ensures var (d, items) := (Connect(c, answer, now).0, Deserializer.Items(answer.packet.properties));
            && NoneOffends(items, c.clientId != [])
            && d.rt.quota == d.rt.maxQuota
            && exists name: Option<Wire.Text> ::
                 && Decided(Offered(c), items, Terms(d.rt.maxQuota, d.rt.maxPacket, d.rt.maxQos, d.rt.keepalive, name))
                 && d.clientId == if name.Some? then name.value else c.clientId
  {
    hide EncodeInto, ConnectBody, ConnectNeed, SettleAll, Deserializer.Items, Handshake.Publishes, ArmReplay,
         RetainedBytes, Schedule.Begun, Outbound.Items, Decided, NoneOffends, SetWorkspace;
    var items := Deserializer.Items(answer.packet.properties);
    RefusedIff(Offered(c), items, c.clientId != []);
    LastDecides(Offered(c), items, c.clientId != []);
  }

  /** A CONNACK that refuses the connection is reported with its code, and leaves the session as it was. */
  lemma RefusalReported(c: Conn, answer: Answer, now: nat)
    requires ConnectPacket(c).Some? && answer.Answered? && answer.packet.ConnAck? && answer.packet.code >= 0x80
    ensures var (d, r) := Connect(c, answer, now);
            && r == Err(Rejected(answer.packet.code)) && !d.link.live && d.core.present == c.core.present
            && d.core.serverIds == c.core.serverIds && |d.core.out.retained| == |c.core.out.retained|
  {
    hide EncodeInto, ConnectBody, SettleAll, Deserializer.Items, Handshake.Publishes, RetainedBytes;
    var a := Prepared(c);
    EncodedIsReserved(a.core.out, Wire.ControlHeader(Wire.MessageType.Connect), ConnectBody(a));
  }

  /** A connect that gets any other answer fails, and ends the attempt. */
  lemma WrongAnswer(c: Conn, answer: Answer, now: nat)
    requires ConnectPacket(c).Some? && !(answer.Answered? && answer.packet.ConnAck?)
    ensures var (d, r) := Connect(c, answer, now);
            && !d.link.live && d.core.present == c.core.present && |d.core.out.retained| == |c.core.out.retained|
            && r == Err(if !answer.Answered? then TransportFailed
                        else if answer.packet.Disconnect? then Disconnected else InvalidPacket)
  {
    hide EncodeInto, ConnectBody, SettleAll, Deserializer.Items, Handshake.Publishes, RetainedBytes, Schedule.Begun,
         Outbound.Items;
    var a := Prepared(c);
    EncodedIsReserved(a.core.out, Wire.ControlHeader(Wire.MessageType.Connect), ConnectBody(a));
  }

  /** The bytes of the packets that stay in flight across the connect. */
  function Carried(c: Conn, ack: Packet): nat
    requires ack.ConnAck?
  {
    if ack.sessionPresent then RetainedBytes(c.core.out) else 0
  }

  /** An identifier assigned by the CONNACK, as the next CONNECT will carry it, fits the arena. */
  ghost predicate NameFits(c: Conn, ack: Packet)
    requires ack.ConnAck?
  {
    var name := LastOf(Deserializer.Items(ack.properties), 0x12);
    name.Some? && name.value.AssignedClientIdentifier? ==>
      ConnectNeed(c) + |name.value.text| + Carried(c, ack) <= c.core.out.capacity
  }

  /**
    * A connect succeeds exactly if its CONNECT can be encoded, a CONNACK accepts it, none of the properties offends, and an
    * assigned identifier fits.
    */
  lemma ConnectedIff(c: Conn, answer: Answer, now: nat)
    requires Streamed(c)
    ensures Connect(c, answer, now).1.Ok? <==>
              && ConnectPacket(c).Some? && answer.Answered? && answer.packet.ConnAck? && answer.packet.code < 0x80
              && NoneOffends(Deserializer.Items(answer.packet.properties), c.clientId != []) && NameFits(c, answer.packet)
  {
    hide EncodeInto, ConnectBody, SettleAll, Deserializer.Items, ArmReplay, SumLen, Schedule.Begun, Outbound.Items,
         Decided, NoneOffends, LastOf, Streamed, Sound, Adopt, HandleDisconnect;
    if ConnectPacket(c).Some? && answer.Answered? && answer.packet.ConnAck? && answer.packet.code < 0x80 {
      var a := Prepared(c);
      EncodedIsReserved(a.core.out, Wire.ControlHeader(Wire.MessageType.Connect), ConnectBody(a));
      SameNeed(c, a);
      var items, named := Deserializer.Items(answer.packet.properties), c.clientId != [];
      RefusedIff(Offered(c), items, named);
      if SettleAll(Offered(c), items, named).Some? {
        LastDecides(Offered(c), items, named);
        NameDecides(Offered(c), items, SettleAll(Offered(c), items, named).value);
        StreamedUnique(c);
        ArmReplayKeeps(c.core.out);
        SoundCapacity(c.core.out);
        var b := WithOut(a, SetWorkspace(a.core.out, ConnectNeed(a)).value);
        var d := if answer.packet.sessionPresent then b else b.(core := Reset(b.core));
        assert RetainedBytes(d.core.out) == Carried(c, answer.packet) by { ResetBytes(b.core); }
        AdoptedIff(d, SettleAll(Offered(c), items, named).value, ConnectPacket(c).value, ConnectNeed(a),
                   answer.packet.sessionPresent, now);
      }
    }
  }

  lemma ResetBytes(core: Core)
    ensures RetainedBytes(Reset(core).out) == 0
  {
  }

  lemma AdoptedIff(c: Conn, t: Terms, connect: seq<Byte>, reserve: nat, resumed: bool, now: nat)
    ensures Adopt(c, t, connect, reserve, resumed, now).1.Ok? <==>
              (t.granted.Some? ==> reserve + |t.granted.value| + RetainedBytes(c.core.out) <= c.core.out.capacity)
  {
    hide Handshake.Publishes, SumLen;
  }

  lemma SameNeed(c: Conn, a: Conn)
    requires a.clientId == c.clientId && a.config == c.config
    ensures ConnectNeed(a) == ConnectNeed(c)
  {
    Reconnect.NeedDepends(c, a);
  }

  lemma NameDecides(t: Terms, items: Items, u: Terms)
    requires Decided(t, items, u) && t.granted.None?
    ensures var name := LastOf(items, 0x12);
            u.granted == if name.Some? && name.value.AssignedClientIdentifier? then Some(name.value.text) else None
  {
    hide LastOf;
  }
}
