/** Space for the next CONNECT, and what a session without broker state may hold. */
module Reconnect {
  import opened Bytes
  import opened Packets
  import opened Schedule
  import opened Outbound
  import opened OutboundLaws
  import opened Session
  import opened Handshake
  import opened Runs
  import Wire
  import Varint
  import Properties
  import Deserializer

  /**
    * A live connection has a session; without one nothing is in flight; with one the reserve is exactly
    * what the next CONNECT needs.
    */
  ghost predicate ReserveOk(c: Conn) {
    && (c.link.live ==> c.core.present)
    && (!c.core.present ==> c.core.out.retained == [] && c.core.out.release == [])
    && (c.core.present ==> c.core.out.workspace == ConnectNeed(c) && ConnectBody(c).complete)
  }

  /** The size of a CONNECT depends on the client identifier and the configuration alone. */
  lemma NeedDepends(c: Conn, d: Conn)
    requires c.clientId == d.clientId && c.config == d.config
    ensures ConnectNeed(c) == ConnectNeed(d) && ConnectBody(c).complete == ConnectBody(d).complete
  {
    hide Properties.BlockFields, WillFields, AuthFields, Wire.LengthPrefixed;
  }

  /** An identifier assigned in place of an empty one makes the CONNECT longer by its own length. */
  lemma NeedGrows(c: Conn, d: Conn)
    requires c.clientId == [] && |d.clientId| <= CLIENT_ID_CAPACITY && c.config == d.config
    requires ConnectBody(c).complete
    ensures ConnectNeed(d) == ConnectNeed(c) + |d.clientId| && ConnectBody(d).complete
  {
    hide Properties.BlockFields, WillFields, AuthFields;
    assert Wire.LengthPrefixed(d.clientId).complete;
  }

  /** Steps that touch neither identity nor reserve and admit nothing into an empty queue. */
  ghost predicate SameIdentity(c: Conn, d: Conn) {
    && d.core.present == c.core.present && d.clientId == c.clientId && d.config == c.config
    && d.core.out.workspace == c.core.out.workspace
    && (d.link.live ==> c.link.live)
    && (c.core.out.retained == [] ==> d.core.out.retained == [])
    && (c.core.out.release == [] ==> d.core.out.release == [])
  }

  lemma IdentityKeeps(c: Conn, d: Conn)
    requires ReserveOk(c) && SameIdentity(c, d)
    ensures ReserveOk(d)
  {
    hide ConnectNeed, ConnectBody;
    NeedDepends(c, d);
  }

  lemma DisconnectIdentity(c: Conn)
    ensures SameIdentity(c, HandleDisconnect(c))
  {
    hide Items, Begun;
  }

  lemma PerformIdentity(c: Conn, s: Slot, now: nat, io: Io)
    requires SlotIn(c.core.out, s) && ItemAt(c.core.out, s).state.Write?
    ensures SameIdentity(c, PerformStep(c, s, now, io).0)
  {
    hide Items, Begun, ItemAt, Taken, HandleDisconnect;
    DisconnectIdentity(c);
  }

  lemma FlushIdentity(c: Conn, now: nat, io: Io)
    ensures SameIdentity(c, FlushCurrent(c, now, io).0)
  {
    hide Items, Begun;
  }

  lemma ServiceIdentity(c: Conn, now: nat, io: Io)
    ensures SameIdentity(c, ServiceOnce(c, now, io).0)
  {
    hide FlushCurrent, PerformStep, NextStep, ShouldPing, SlotIn, ItemAt, ControlBytes, Items, Begun;
    FlushIdentity(c, now, io);
    if NextStep(c.core.out).Some? {
      NextStepWritable(c.core.out);
      PerformIdentity(c, NextStep(c.core.out).value, now, io);
    }
    if MaybePing(c, now).Ok? {
      var d := MaybePing(c, now).value;
      if NextStep(d.core.out).Some? {
        NextStepWritable(d.core.out);
        PerformIdentity(d, NextStep(d.core.out).value, now, io);
      }
    }
  }

  /** Handling a packet on a live session keeps its identity. */
  lemma HandleIdentity(core: Core, rt: Runtime, p: Packet)
    ensures var core' := HandlePacket(core, rt, p).0;
            core'.present == core.present && core'.out.workspace == core.out.workspace
  {
    hide HasOp, FailedCode, FirstFailed, HasRelease, IdPosition, SwapRemove, ControlBytes, ReleaseBytes,
         RetainedPosition, ReleasePosition;
  }

  lemma ReceiveReserve(c: Conn, p: Packet)
    requires ReserveOk(c) && c.link.live
    ensures ReserveOk(Process(c, p).0)
  {
    hide HandlePacket, ConnectNeed, ConnectBody, HandleDisconnect;
    var (core, rt, h) := HandlePacket(c.core, c.rt, p);
    HandleIdentity(c.core, c.rt, p);
    var d := c.(core := core, rt := rt);
    NeedDepends(c, d);
    DisconnectIdentity(d);
    IdentityKeeps(d, HandleDisconnect(d));
  }

  lemma AskReserve(c: Conn, r: Request)
    requires ReserveOk(c) && Sound(c.core.out) && c.core.out.capacity < 0x1_0000_0000
    ensures ReserveOk(Admit(c, r).0)
  {
    hide ConnectNeed, ConnectBody, Sound, AdmitPublish, AdmitFilters, Items, Begun;
    SoundFits(c.core.out);
    AdmitGrows(c, r);
    var d := Admit(c, r).0;
    if c.link.live {
      AdmitSame(c, r);
      NeedDepends(c, d);
    }
  }

  lemma AdmitSame(c: Conn, r: Request)
    requires Fits(c.core.out)
    ensures SameBeyondOut(c, Admit(c, r).0)
  {
    hide AdmitPublish, AdmitFilters, Fits;
    match r {
      case PublishRequest(topic, properties, qos, retain, payload) =>
        var q := EffectiveQos(c, qos);
        if c.link.live && q.Some? && !q.value.AtMostOnce? {
          AdmitPublishLink(c, topic, properties, q.value, retain, payload);
        }
      case SubscribeRequest(topics, properties) =>
        AdmitFiltersLink(c, OpKind.Subscribe, (id: U16) => SubscribeFields(id, properties, topics));
      case UnsubscribeRequest(filters, properties) =>
        AdmitFiltersLink(c, OpKind.Unsubscribe, (id: U16) => UnsubscribeFields(id, properties, filters));
    }
  }

  lemma DirectReserve(c: Conn, packet: seq<Byte>, written: nat, ok: bool, close: bool, now: nat)
    requires ReserveOk(c) && written <= |packet|
    ensures ReserveOk(WriteDirect(c, packet, written, ok, close, now))
  {
    hide ConnectNeed, ConnectBody, Items, Begun;
    IdentityKeeps(c, WriteDirect(c, packet, written, ok, close, now));
  }

  lemma ActivateReserve(c: Conn, t: Terms, connect: seq<Byte>, now: nat)
    requires ConnectBody(c).complete
    requires t.granted.None? ==> c.core.out.workspace == ConnectNeed(c)
    requires t.granted.Some? ==>
               c.clientId == [] && |t.granted.value| <= CLIENT_ID_CAPACITY
               && c.core.out.workspace == ConnectNeed(c) + |t.granted.value|
    ensures ReserveOk(Activate(c, t, connect, now))
  {
    hide ConnectNeed, ConnectBody, Publishes;
    var d := Activate(c, t, connect, now);
    if t.granted.Some? {
      NeedGrows(c, d);
    } else {
      NeedDepends(c, d);
    }
  }

  lemma {:induction false} SettledFits(t: Terms, items: seq<Option<Properties.Property>>, named: bool)
    requires SettleAll(t, items, named).Some?
    requires t.granted.Some? ==> |t.granted.value| <= CLIENT_ID_CAPACITY
    ensures var u := SettleAll(t, items, named).value; u.granted.Some? ==> |u.granted.value| <= CLIENT_ID_CAPACITY
    decreases |items|
  {
    if items != [] {
      SettledFits(Settle(t, items[0], named).value, items[1..], named);
    }
  }

  lemma AcceptReserve(c: Conn, ack: Packet, connect: seq<Byte>, now: nat)
    requires ReserveOk(c) && ack.ConnAck? && !c.link.live
    requires c.core.out.workspace == ConnectNeed(c) && ConnectBody(c).complete
    ensures ReserveOk(Accept(c, ack, connect, ConnectNeed(c), now).0)
  {
    hide ConnectNeed, ConnectBody, SettleAll, Deserializer.Items, Activate, HandleDisconnect;
    if Success(ack.code) {
      var d := if ack.sessionPresent then c else c.(core := Reset(c.core));
      NeedDepends(c, d);
      assert ReserveOk(d);
      DisconnectIdentity(d);
      IdentityKeeps(d, HandleDisconnect(d));
      var t := Terms(LOCAL_QUOTA, None, None, c.rt.keepalive, None);
      var items := Deserializer.Items(ack.properties);
      var named := c.clientId != [];
      var u := SettleAll(t, items, named);
      if u.Some? {
        SettledFits(t, items, named);
        SettledName(t, items, named);
        if u.value.granted.None? {
          ActivateReserve(d, u.value, connect, now);
        } else {
          var w := SetWorkspace(d.core.out, ConnectNeed(c) + |u.value.granted.value|);
          if w.Some? {
            NeedDepends(c, WithOut(d, w.value));
            ActivateReserve(WithOut(d, w.value), u.value, connect, now);
          } else {
            IdentityKeeps(d, d.(rt := Activate(d, u.value, connect, now).rt.(nextPing := None)));
          }
        }
      }
    }
  }

  lemma OpenReserve(c: Conn, answer: Answer, now: nat)
    requires ReserveOk(c)
    ensures ReserveOk(Connect(c, answer, now).0)
  {
    hide ConnectNeed, ConnectBody, Accept, HandleDisconnect;
    var a := Prepared(c);
    IdentityKeeps(c, a);
    var r := EncodeInto(ScratchLen(a.core.out), Wire.ControlHeader(Wire.Connect), ConnectBody(a));
    var w := SetWorkspace(a.core.out, ConnectNeed(a));
    if r.Ok? && w.Some? {
      var b := WithOut(a, w.value);
      NeedDepends(a, b);
      assert ReserveOk(b);
      DisconnectIdentity(b);
      IdentityKeeps(b, HandleDisconnect(b));
      if answer.Answered? && answer.packet.ConnAck? {
        AcceptReserve(b, answer.packet, r.value, now);
      }
    }
  }

  lemma ReserveStep(c: Conn, e: Event)
    requires Streamed(c) && ReserveOk(c) && Enabled(c, e)
    ensures ReserveOk(Apply(c, e))
  {
    hide ReserveOk, ServiceOnce, HandleDisconnect, Process, Admit, WriteDirect, Connect, Quieted, StreamOk, FlushOk,
         Idle, IsFrame;
    match e {
      case Service(now, io) =>
        ServiceIdentity(c, now, io);
        IdentityKeeps(c, ServiceOnce(c, now, io).0);
      case Drop =>
        DisconnectIdentity(c);
        IdentityKeeps(c, HandleDisconnect(c));
      case Receive(p) => ReceiveReserve(c, p);
      case Ask(r) => AskReserve(c, r);
      case Direct(packet, written, ok, close, now) => DirectReserve(c, packet, written, ok, close, now);
      case Open(answer, now) => OpenReserve(c, answer, now);
    }
  }

  lemma InitialReserve(c: Conn)
    requires Initial(c)
    ensures ReserveOk(c)
  {
    hide ConnectNeed, ConnectBody;
  }

  lemma {:induction false} RunReserve(states: seq<Conn>, events: seq<Event>, i: nat)
    requires IsRun(states, events) && Initial(states[0]) && i < |states|
    ensures ReserveOk(states[i])
  {
    hide ReserveOk, Enabled, Fits, Streamed;
    if i == 0 {
      InitialReserve(states[0]);
    } else {
      RunReserve(states, events, i - 1);
      RunStreamed(states, events, i - 1);
      ReserveStep(states[i - 1], events[i - 1]);
      assert states[i - 1 + 1] == states[i];
    }
  }

  /** Re-arming moves no bytes, so the scratch space is what it was. */
  lemma PreparedScratch(c: Conn)
    requires Streamed(c)
    ensures ScratchLen(Prepared(c).core.out) == ScratchLen(c.core.out)
  {
    hide Sound, Items, Quieted, NoFlush, StreamOk, FlushOk;
    ArmReplayKeeps(c.core.out);
  }

  /**
    * In every state after a successful connect, admitted packets and the reserve fit the arena together,
    * the reserve is exactly what the next CONNECT takes, and that CONNECT encodes, in the free part of
    * the arena, exactly when its body is within the MQTT length limit.
    */
  lemma ReconnectAlwaysFits(states: seq<Conn>, events: seq<Event>, i: nat)
    requires IsRun(states, events) && Initial(states[0]) && i < |states| && states[i].core.present
    ensures var c := states[i];
            var a := Prepared(c);
            && RetainedBytes(c.core.out) + c.core.out.workspace <= c.core.out.capacity
            && c.core.out.workspace == ConnectNeed(a)
            && (EncodeInto(ScratchLen(a.core.out), Wire.ControlHeader(Wire.Connect), ConnectBody(a)).Ok? <==>
                |ConnectBody(a).bytes| <= Varint.MAX)
  {
    hide ConnectBody, Enabled, StreamOk, FlushOk, AllWf, OnePartial, AllGood, UniqueIds, Frame, Items;
    RunReserve(states, events, i);
    RunStreamed(states, events, i);
    var c := states[i];
    var a := Prepared(c);
    NeedDepends(c, a);
    PreparedScratch(c);
  }
}
