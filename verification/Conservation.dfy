/** Send quota over whole runs (minimq/src/mqtt_client/session). */
module Conservation {
  import opened Bytes
  import opened Packets
  import opened Schedule
  import opened Outbound
  import opened OutboundLaws
  import opened PacketIds
  import opened Session
  import opened Handshake
  import opened Runs
  import opened Properties
  import Wire
  import Deserializer

  // ----------------------------------------------------- counting publications

  lemma {:induction false} PublishesSnoc(rs: seq<Retained>, r: Retained)
    ensures Publishes(rs + [r]) == Publishes(rs) + (if r.kind.IsPublish() then 1 else 0)
  {
    if rs != [] {
      assert (rs + [r])[1..] == rs[1..] + [r];
      PublishesSnoc(rs[1..], r);
    }
  }

  lemma {:induction false} PublishesRemove(rs: seq<Retained>, i: nat)
    requires i < |rs|
    ensures Publishes(RemoveAt(rs, i)) == Publishes(rs) - (if rs[i].kind.IsPublish() then 1 else 0)
  {
    if i == 0 {
      assert RemoveAt(rs, 0) == rs[1..];
    } else {
      assert RemoveAt(rs, i)[1..] == RemoveAt(rs[1..], i - 1);
      PublishesRemove(rs[1..], i - 1);
    }
  }

  lemma {:induction false} PublishesPointwise(a: seq<Retained>, b: seq<Retained>)
    requires |a| == |b| && forall i | 0 <= i < |a| :: a[i].kind == b[i].kind
    ensures Publishes(a) == Publishes(b)
  {
    if a != [] {
      assert forall i | 0 <= i < |a| - 1 :: a[1..][i] == a[i + 1] && b[1..][i] == b[i + 1];
      PublishesPointwise(a[1..], b[1..]);
    }
  }

  lemma PublishesAck(o: Out, kind: OpKind, id: U16)
    ensures Publishes(AckPacket(o, kind, id).retained) ==
            Publishes(o.retained) - (if HasOp(o, kind, id) && kind.IsPublish() then 1 else 0)
  {
    var i := RetainedPosition(o.retained, kind, id);
    if i < |o.retained| {
      PublishesRemove(o.retained, i);
    }
  }

  // ------------------------------------------------------------------- quota

  /**
    * On one connection the quota never exceeds its maximum, and quota and publications in flight
    * together stay between the maximum and the maximum plus what was inherited at connect.
    */
  ghost predicate QuotaOk(c: Conn) {
    c.link.live ==>
      && c.rt.quota <= c.rt.maxQuota <= LOCAL_QUOTA
      && c.rt.maxQuota <= c.rt.quota + Publishes(c.core.out.retained) <= c.rt.maxQuota + c.link.inherited
  }

  /** Steps that leave quota, its maximum and the number of publications in flight alone. */
  ghost predicate SameBalance(c: Conn, d: Conn) {
    d.link.live ==>
      && c.link.live && d.link.inherited == c.link.inherited
      && d.rt.quota == c.rt.quota && d.rt.maxQuota == c.rt.maxQuota
      && Publishes(d.core.out.retained) == Publishes(c.core.out.retained)
  }

  lemma SetSlotPublishes(o: Out, s: Slot, state: SendState)
    requires SlotIn(o, s)
    ensures Publishes(SetSlot(o, s, state).retained) == Publishes(o.retained)
  {
    PublishesPointwise(SetSlot(o, s, state).retained, o.retained);
  }

  lemma PerformBalance(c: Conn, s: Slot, now: nat, io: Io)
    requires SlotIn(c.core.out, s) && ItemAt(c.core.out, s).state.Write?
    ensures SameBalance(c, PerformStep(c, s, now, io).0)
  {
    hide Begun, Items, ItemAt, Publishes, SetSlot, Taken;
    var it := ItemAt(c.core.out, s);
    var count := Taken(io, it);
    SetSlotPublishes(c.core.out, s, SetWritten(it.state.written + count, |it.bytes|));
  }

  lemma FlushBalance(c: Conn, now: nat, io: Io)
    ensures SameBalance(c, FlushCurrent(c, now, io).0)
  {
    hide Begun, Items;
    PublishesPointwise(CompleteFlush(c.core.out).retained, c.core.out.retained);
  }

  lemma ServiceBalance(c: Conn, now: nat, io: Io)
    ensures SameBalance(c, ServiceOnce(c, now, io).0)
  {
    hide PerformStep, FlushCurrent, NextStep, ShouldPing, Publishes, SlotIn, ItemAt, ControlBytes;
    FlushBalance(c, now, io);
    if NextStep(c.core.out).Some? {
      NextStepWritable(c.core.out);
      PerformBalance(c, NextStep(c.core.out).value, now, io);
    }
    if MaybePing(c, now).Ok? {
      var d := MaybePing(c, now).value;
      if NextStep(d.core.out).Some? {
        NextStepWritable(d.core.out);
        PerformBalance(d, NextStep(d.core.out).value, now, io);
      }
    }
  }

  /** Handling a packet returns one unit of quota for each publication it takes out of flight, up to the maximum. */
  lemma HandleBalance(core: Core, rt: Runtime, p: Packet)
    ensures var (core', rt', _) := HandlePacket(core, rt, p);
            && rt'.maxQuota == rt.maxQuota
            && (|| (rt'.quota == rt.quota && Publishes(core'.out.retained) == Publishes(core.out.retained))
                || (rt'.quota == Min(rt.quota + 1, rt.maxQuota)
                    && Publishes(core'.out.retained) == Publishes(core.out.retained) - 1))
  {
    hide HasOp, AckPacket, Publishes, FailedCode, FirstFailed, HasRelease, AckRelease, IdPosition, SwapRemove,
         ControlBytes, ReleaseBytes;
    match p {
      case SubAck(id, _, _) => PublishesAck(core.out, OpKind.Subscribe, id);
      case UnsubAck(id, _, _) => PublishesAck(core.out, OpKind.Unsubscribe, id);
      case PubAck(id, _) => PublishesAck(core.out, PublishAtLeastOnce, id);
      case PubRec(id, reason) => PubRecBalance(core, rt, id, reason.Code());
      case PubComp(id, _) => AckReleaseRetained(core.out, id);
      case PubRel(id, _) => PubRelRetained(core, rt, id);
      case Publish(_, id, _, _, _, qos, _) => PublishRetained(core, rt, qos, id);
      case _ =>
    }
  }

  lemma PubRecBalance(core: Core, rt: Runtime, id: U16, code: ReasonCode)
    ensures var (core', rt', _) := HandlePubRec(core, rt, id, code);
            && rt'.maxQuota == rt.maxQuota
            && (|| (rt'.quota == rt.quota && Publishes(core'.out.retained) == Publishes(core.out.retained))
                || (rt'.quota == Min(rt.quota + 1, rt.maxQuota)
                    && Publishes(core'.out.retained) == Publishes(core.out.retained) - 1))
  {
    hide HasOp, AckPacket, Publishes, HasRelease, ReleaseBytes;
    PublishesAck(core.out, PublishExactlyOnce, id);
  }

  lemma AckReleaseRetained(o: Out, id: U16)
    ensures AckRelease(o, id).retained == o.retained
  {
  }

  lemma PubRelRetained(core: Core, rt: Runtime, id: U16)
    ensures HandlePubRel(core, rt, id).0.out.retained == core.out.retained
  {
    hide IdPosition, SwapRemove, ControlBytes;
  }

  lemma PublishRetained(core: Core, rt: Runtime, qos: Wire.QoS, id: Option<U16>)
    ensures HandlePublish(core, rt, qos, id).0.out.retained == core.out.retained
  {
    hide ControlBytes;
  }

  lemma ReceiveQuota(c: Conn, p: Packet)
    requires QuotaOk(c)
    ensures QuotaOk(Process(c, p).0)
  {
    hide HandlePacket, Begun, Items, Publishes, ArmReplay;
    HandleBalance(c.core, c.rt, p);
  }

  lemma CanRetainRoom(o: Out)
    requires CanRetain(o)
    ensures RetainedBytes(o) <= RetainedCapacity(o)
  {
  }

  lemma AdmitPublishQuota(c: Conn, topic: Wire.Text, b: Block, qos: Wire.QoS, retain: bool, payload: Payload)
    requires Fits(c.core.out) && !qos.AtMostOnce? && QuotaOk(c) && c.link.live
    ensures QuotaOk(AdmitPublish(c, topic, b, qos, retain, payload).0)
  {
    hide EncodeRetainedPublish, PublishFields, FreshId, RetainedBytes, Publishes, Fits, CanRetain, Wire.PublishHeader;
    var (d, id) := TakeId(c);
    var kind := if qos.ExactlyOnce? then PublishExactlyOnce else PublishAtLeastOnce;
    if d.rt.quota != 0 && CanRetain(d.core.out) {
      assert RetainedBytes(d.core.out) <= RetainedCapacity(d.core.out) by { CanRetainRoom(d.core.out); }
      var r := EncodeRetainedPublish(d.core.out, Wire.PublishHeader(qos, retain, false),
                                     PublishFields(topic, Some(id), b), payload);
      if r.Ok? {
        PublishesSnoc(d.core.out.retained, Retained(kind, id, r.value, Write(0)));
      }
    }
  }

  lemma AdmitFiltersQuota(c: Conn, kind: OpKind, fields: U16 -> Wire.Fields)
    requires Fits(c.core.out) && QuotaOk(c) && !kind.IsPublish()
    ensures QuotaOk(AdmitFilters(c, kind, fields).0)
  {
    hide EncodeInto, FreshId, RetainedBytes, Publishes, Fits;
    if |c.core.out.retained| < MAX_RETAINED {
      var (d, id) := TakeId(c);
      var r := EncodeRetained(d.core.out,
                              Wire.ControlHeader(if kind == OpKind.Subscribe then Wire.Subscribe else Wire.Unsubscribe),
                              fields(id));
      if r.Ok? {
        PublishesSnoc(d.core.out.retained, Retained(kind, id, r.value, Write(0)));
      }
    }
  }

  lemma AskQuota(c: Conn, r: Request)
    requires Fits(c.core.out) && QuotaOk(c)
    ensures QuotaOk(Admit(c, r).0)
  {
    hide QuotaOk, AdmitPublish, AdmitFilters, Fits;
    match r {
      case PublishRequest(topic, properties, qos, retain, payload) =>
        var q := EffectiveQos(c, qos);
        if c.link.live && q.Some? && !q.value.AtMostOnce? {
          AdmitPublishQuota(c, topic, properties, q.value, retain, payload);
        }
      case SubscribeRequest(topics, properties) =>
        AdmitFiltersQuota(c, OpKind.Subscribe, (id: U16) => SubscribeFields(id, properties, topics));
      case UnsubscribeRequest(filters, properties) =>
        AdmitFiltersQuota(c, OpKind.Unsubscribe, (id: U16) => UnsubscribeFields(id, properties, filters));
    }
  }

  /** A new connection starts with its full quota, whatever was inherited. */
  lemma OpenQuota(c: Conn, answer: Answer, now: nat)
    ensures QuotaOk(Connect(c, answer, now).0)
    ensures Connect(c, answer, now).1.Ok? ==>
              var d := Connect(c, answer, now).0;
              && d.link.live && d.rt.quota == d.rt.maxQuota >= 1
              && d.link.inherited == Publishes(d.core.out.retained)
    ensures Connect(c, answer, now).1 == Ok(false) ==> Connect(c, answer, now).0.link.inherited == 0
  {
    hide EncodeInto, ConnectBody, ConnectNeed, SetWorkspace, Accept, Publishes, ArmReplay, Begun, Items;
    var a := Prepared(c);
    var w := SetWorkspace(a.core.out, ConnectNeed(a));
    var r := EncodeInto(ScratchLen(a.core.out), Wire.ControlHeader(Wire.Connect), ConnectBody(a));
    if r.Ok? && w.Some? && answer.Answered? && answer.packet.ConnAck? {
      AcceptQuota(WithOut(a, w.value), answer.packet, r.value, ConnectNeed(a), now);
    }
  }

  lemma AcceptQuota(c: Conn, ack: Packet, connect: seq<Byte>, reserve: nat, now: nat)
    requires ack.ConnAck? && !c.link.live
    ensures QuotaOk(Accept(c, ack, connect, reserve, now).0)
    ensures Accept(c, ack, connect, reserve, now).1.Ok? ==>
              var d := Accept(c, ack, connect, reserve, now).0;
              && d.link.live && d.rt.quota == d.rt.maxQuota >= 1
              && d.link.inherited == Publishes(d.core.out.retained)
    ensures Accept(c, ack, connect, reserve, now).1 == Ok(false) ==>
              Accept(c, ack, connect, reserve, now).0.link.inherited == 0
  {
    hide SettleAll, Deserializer.Items, Begun, Items;
    var t := Terms(LOCAL_QUOTA, None, None, c.rt.keepalive, None);
    var items := Deserializer.Items(ack.properties);
    if SettleAll(t, items, c.clientId != []).Some? {
      SettledQuota(t, items, c.clientId != []);
    }
  }

  lemma QuotaStep(c: Conn, e: Event)
    requires Fits(c.core.out) && QuotaOk(c) && Enabled(c, e)
    ensures QuotaOk(Apply(c, e))
  {
    hide ServiceOnce, Process, Admit, Connect, Publishes, Begun, Items, Idle, Fits, Quieted, ArmReplay;
    match e {
      case Service(now, io) => ServiceBalance(c, now, io);
      case Receive(p) => ReceiveQuota(c, p);
      case Ask(r) => AskQuota(c, r);
      case Open(answer, now) => OpenQuota(c, answer, now);
      case _ =>
    }
  }

  /** No quota ever leaks or is invented on a connection; on a fresh session the balance is exact. */
  lemma {:induction false} QuotaConservation(states: seq<Conn>, events: seq<Event>, i: nat)
    requires IsRun(states, events) && Initial(states[0]) && i < |states|
    ensures QuotaOk(states[i])
    ensures states[i].link.live && states[i].link.inherited == 0 ==>
              states[i].rt.quota + Publishes(states[i].core.out.retained) == states[i].rt.maxQuota
  {
    hide Enabled, Fits, Publishes;
    if i > 0 {
      QuotaConservation(states, events, i - 1);
      QuotaStep(states[i - 1], events[i - 1]);
      assert states[i - 1 + 1] == states[i];
    }
  }
}
