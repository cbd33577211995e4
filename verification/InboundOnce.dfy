/** Inbound QoS 2: what reaches the application (minimq/src/mqtt_client/session/inbound.rs), section 4.3.3. */
module InboundOnce {
  import opened Bytes
  import opened Packets
  import opened Outbound
  import opened OutboundLaws
  import opened Session
  import opened Handshake
  import opened Runs
  import opened Schedule
  import Wire
  import Deserializer

  /** The last thing that happened to `id` was a delivery. */
  ghost predicate Undone(log: seq<Inbound>, id: U16) {
    log != [] &&
    var last, front := log[|log| - 1], log[..|log| - 1];
    last == Delivered(id) || (last != Released(id) && Undone(front, id))
  }

  /** No delivery of an identifier while an earlier one is not yet released. */
  ghost predicate Orderly(log: seq<Inbound>) {
    log == [] ||
    var last, front := log[|log| - 1], log[..|log| - 1];
    Orderly(front) && (last.Delivered? ==> !Undone(front, last.id))
  }

  lemma {:induction false} UndoneUnlessReleased(log: seq<Inbound>, i: nat, id: U16)
    requires i < |log| && log[i] == Delivered(id)
    requires forall k | i < k < |log| :: log[k] != Released(id)
    ensures Undone(log, id)
    decreases |log|
  {
    if i < |log| - 1 {
      UndoneUnlessReleased(log[..|log| - 1], i, id);
    }
  }

  /** In an orderly log any two deliveries of one identifier have a release of it between them. */
  lemma {:induction false} OrderlySeparates(log: seq<Inbound>, i: nat, j: nat)
    requires Orderly(log) && i < j < |log| && log[i].Delivered? && log[i] == log[j]
    ensures exists k | i < k < j :: log[k] == Released(log[i].id)
    decreases |log|
  {
    var front := log[..|log| - 1];
    if j < |log| - 1 {
      OrderlySeparates(front, i, j);
      var k :| i < k < j && front[k] == Released(log[i].id);
      assert log[k] == Released(log[i].id);
    } else if forall k | i < k < j :: log[k] != Released(log[i].id) {
      UndoneUnlessReleased(front, i, log[i].id);
    }
  }

  ghost predicate Distinct(ids: seq<U16>) {
    forall i, j | 0 <= i < j < |ids| :: ids[i] != ids[j]
  }

  /** The pending list is bounded and duplicate-free and holds every delivered, unreleased identifier. */
  ghost predicate InboundOk(core: Core) {
    && |core.serverIds| <= MAX_INBOUND_QOS2
    && Distinct(core.serverIds)
    && Orderly(core.inbound)
    && forall id: U16 :: Undone(core.inbound, id) ==> id in core.serverIds
  }

  lemma LogRelease(log: seq<Inbound>, id: U16)
    ensures var after := log + [Released(id)];
            && (Orderly(log) ==> Orderly(after))
            && !Undone(after, id)
            && forall x: U16 :: x != id ==> Undone(after, x) == Undone(log, x)
  {
    var after := log + [Released(id)];
    assert after[..|after| - 1] == log;
  }

  lemma LogDelivery(log: seq<Inbound>, id: U16)
    requires !Undone(log, id)
    ensures var after := log + [Delivered(id)];
            && (Orderly(log) ==> Orderly(after))
            && forall x: U16 :: x != id ==> Undone(after, x) == Undone(log, x)
  {
    var after := log + [Delivered(id)];
    assert after[..|after| - 1] == log;
  }

  lemma SwapRemoveDistinct(ids: seq<U16>, i: nat)
    requires Distinct(ids) && i < |ids|
    ensures Distinct(SwapRemove(ids, i))
    ensures forall x: U16 :: x in SwapRemove(ids, i) <==> x in ids && x != ids[i]
  {
    var r := SwapRemove(ids, i);
    assert forall k | 0 <= k < |r| :: r[k] == if k == i then ids[|ids| - 1] else ids[k];
    forall x: U16 | x in ids && x != ids[i] ensures x in r {
      var k :| 0 <= k < |ids| && ids[k] == x;
      assert r[if k == |ids| - 1 then i else k] == x;
    }
  }

  lemma PubRelInbound(core: Core, rt: Runtime, id: U16)
    requires InboundOk(core)
    ensures InboundOk(HandlePubRel(core, rt, id).0)
  {
    hide ControlBytes, Orderly, Undone;
    LogRelease(core.inbound, id);
    var i := IdPosition(core.serverIds, id);
    if i < |core.serverIds| {
      SwapRemoveDistinct(core.serverIds, i);
    }
  }

  lemma Publish2Inbound(core: Core, rt: Runtime, id: U16)
    requires InboundOk(core)
    ensures InboundOk(HandlePublish2(core, rt, id).0)
    ensures HandlePublish2(core, rt, id).1.Deliver? ==> id !in core.serverIds
  {
    hide ControlBytes, Orderly, Undone;
    if id !in core.serverIds {
      LogDelivery(core.inbound, id);
    }
  }

  lemma SameInbound(core: Core, d: Core)
    requires InboundOk(core) && d.serverIds == core.serverIds && d.inbound == core.inbound
    ensures InboundOk(d)
  {
  }

  lemma HandleInbound(core: Core, rt: Runtime, p: Packet)
    requires InboundOk(core)
    ensures InboundOk(HandlePacket(core, rt, p).0)
  {
    hide InboundOk, HasOp, AckPacket, FailedCode, FirstFailed, HasRelease, AckRelease, ControlBytes, ReleaseBytes,
         HandlePubRel, HandlePublish2;
    var d := HandlePacket(core, rt, p).0;
    if p.PubRel? {
      PubRelInbound(core, rt, p.id);
    } else if p.Publish? && p.qos.ExactlyOnce? && p.packetId.Some? {
      Publish2Inbound(core, rt, p.packetId.value);
    } else {
      assert d.serverIds == core.serverIds && d.inbound == core.inbound;
      SameInbound(core, d);
    }
  }

  lemma ReceiveInbound(c: Conn, p: Packet)
    requires InboundOk(c.core)
    ensures InboundOk(Process(c, p).0.core)
  {
    hide HandlePacket, Items, Begun, ArmReplay, Orderly, Undone, Distinct;
    HandleInbound(c.core, c.rt, p);
  }

  /** Outbound service does not touch the inbound record. */
  lemma ServiceInbound(c: Conn, now: nat, io: Io)
    ensures ServiceOnce(c, now, io).0.core.serverIds == c.core.serverIds
    ensures ServiceOnce(c, now, io).0.core.inbound == c.core.inbound
  {
    hide NextStep, ShouldPing, ControlBytes, ArmReplay, CompleteFlush, SlotIn, ItemAt, PerformStep, FlushCurrent;
    FlushInbound(c, now, io);
    if NextStep(c.core.out).Some? {
      NextStepWritable(c.core.out);
      PerformInbound(c, NextStep(c.core.out).value, now, io);
    } else if MaybePing(c, now).Ok? && NextStep(MaybePing(c, now).value.core.out).Some? {
      var d := MaybePing(c, now).value;
      NextStepWritable(d.core.out);
      PerformInbound(d, NextStep(d.core.out).value, now, io);
    }
  }

  lemma FlushInbound(c: Conn, now: nat, io: Io)
    ensures var d := FlushCurrent(c, now, io).0; d.core.serverIds == c.core.serverIds && d.core.inbound == c.core.inbound
  {
    hide Items, Begun, ArmReplay, CompleteFlush;
  }

  lemma PerformInbound(c: Conn, s: Slot, now: nat, io: Io)
    requires SlotIn(c.core.out, s) && ItemAt(c.core.out, s).state.Write?
    ensures var d := PerformStep(c, s, now, io).0; d.core.serverIds == c.core.serverIds && d.core.inbound == c.core.inbound
  {
    hide Items, Begun, ArmReplay, AdvanceSlot, ItemAt, Taken, SlotIn;
  }

  lemma OpenInbound(c: Conn, answer: Answer, now: nat)
    requires InboundOk(c.core)
    ensures InboundOk(Connect(c, answer, now).0.core)
  {
    hide EncodeInto, ConnectBody, ConnectNeed, Items, Begun, ArmReplay, Orderly, Undone, Distinct, SetWorkspace,
         Accept, Records;
    var a := Prepared(c);
    var r := EncodeInto(ScratchLen(a.core.out), Wire.ControlHeader(Wire.Connect), ConnectBody(a));
    var w := SetWorkspace(a.core.out, ConnectNeed(a));
    var d := Connect(c, answer, now).0;
    RecordsSame(c.core, a.core);
    RecordsSame(c.core, d.core);
    if r.Ok? && w.Some? && answer.Answered? && answer.packet.ConnAck? {
      var b := WithOut(a, w.value);
      AcceptRecords(b, answer.packet, r.value, ConnectNeed(a), now);
      RecordsSame(c.core, b.core);
      RecordsKeep(c.core, b.core, d.core);
    } else {
      RecordsKeep(c.core, a.core, d.core);
    }
  }

  /** The inbound record is carried over, or starts afresh. */
  ghost predicate Records(core: Core, d: Core) {
    || (d.serverIds == core.serverIds && d.inbound == core.inbound)
    || (d.serverIds == [] && d.inbound == [])
  }

  lemma RecordsSame(core: Core, d: Core)
    ensures d.serverIds == core.serverIds && d.inbound == core.inbound ==> Records(core, d)
  {
  }

  lemma RecordsKeep(core: Core, mid: Core, d: Core)
    requires InboundOk(core) && Records(core, mid) && (Records(core, d) || Records(mid, d))
    ensures InboundOk(d)
  {
    hide Orderly, Undone, Distinct;
    EmptyInbound();
  }

  lemma AcceptRecords(c: Conn, ack: Packet, connect: seq<Byte>, reserve: nat, now: nat)
    requires ack.ConnAck?
    ensures Records(c.core, Accept(c, ack, connect, reserve, now).0.core)
  {
    hide SettleAll, Deserializer.Items, Items, Begun, ArmReplay, Publishes, SetWorkspace;
  }

  lemma EmptyInbound()
    ensures Orderly([]) && Distinct([]) && forall id: U16 :: !Undone([], id)
  {
  }

  lemma AskInbound(c: Conn, r: Request)
    requires Fits(c.core.out)
    ensures Admit(c, r).0.core.serverIds == c.core.serverIds && Admit(c, r).0.core.inbound == c.core.inbound
  {
    hide AdmitPublish, AdmitFilters, Fits;
    match r {
      case PublishRequest(topic, properties, qos, retain, payload) =>
        var q := EffectiveQos(c, qos);
        if c.link.live && q.Some? && !q.value.AtMostOnce? {
          AdmitPublishLink(c, topic, properties, q.value, retain, payload);
        }
      case SubscribeRequest(topics, properties) =>
        AdmitFiltersLink(c, OpKind.Subscribe, (id: U16) => SubscribeFields(id, properties, topics));
      case UnsubscribeRequest(filters, properties) =>
        AdmitFiltersLink(c, OpKind.Unsubscribe, (id: U16) => UnsubscribeFields(id, properties, filters));
    }
  }

  lemma InboundStep(c: Conn, e: Event)
    requires Fits(c.core.out) && InboundOk(c.core) && Enabled(c, e)
    ensures InboundOk(Apply(c, e).core)
  {
    hide InboundOk, ServiceOnce, Process, Admit, Connect, Fits, Items, Begun, ArmReplay, Idle, Quieted;
    var d := Apply(c, e);
    match e {
      case Service(now, io) =>
        ServiceInbound(c, now, io);
        SameInbound(c.core, d.core);
      case Drop => SameInbound(c.core, d.core);
      case Receive(p) => ReceiveInbound(c, p);
      case Ask(r) =>
        AskInbound(c, r);
        SameInbound(c.core, d.core);
      case Direct(_, _, _, _, _) => SameInbound(c.core, d.core);
      case Open(answer, now) => OpenInbound(c, answer, now);
    }
  }

  lemma {:induction false} RunInbound(states: seq<Conn>, events: seq<Event>, i: nat)
    requires IsRun(states, events) && Initial(states[0]) && i < |states|
    ensures InboundOk(states[i].core)
  {
    hide InboundOk, Enabled, Fits;
    if i == 0 {
      InitialInbound(states[0]);
    } else {
      RunInbound(states, events, i - 1);
      InboundStep(states[i - 1], events[i - 1]);
      assert states[i - 1 + 1] == states[i];
    }
  }

  lemma InitialInbound(c: Conn)
    requires Initial(c)
    ensures InboundOk(c.core)
  {
    EmptyInbound();
  }

  /**
    * Within one session generation, over any packets and any resumes, two deliveries of the same
    * identifier to the application always have a PUBREL for it between them.
    */
  lemma DeliveredOncePerRelease(states: seq<Conn>, events: seq<Event>, i: nat, a: nat, b: nat)
    requires IsRun(states, events) && Initial(states[0]) && i < |states|
    requires a < b < |states[i].core.inbound|
    requires states[i].core.inbound[a].Delivered? && states[i].core.inbound[a] == states[i].core.inbound[b]
    ensures exists k | a < k < b :: states[i].core.inbound[k] == Released(states[i].core.inbound[a].id)
    ensures |states[i].core.serverIds| <= MAX_INBOUND_QOS2 && Distinct(states[i].core.serverIds)
  {
    hide Enabled, Fits, Orderly;
    RunInbound(states, events, i);
    OrderlySeparates(states[i].core.inbound, a, b);
  }
}
