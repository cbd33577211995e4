/**
  * Runs of a session: any interleaving of outbound service, inbound packets, requests, direct writes,
  * disconnects and reconnects. The stream invariant and what it says about the bytes on each transport.
  */
module Runs {
  import opened Bytes
  import opened Packets
  import opened Schedule
  import opened Outbound
  import opened OutboundLaws
  import opened PacketIds
  import opened Session
  import opened Handshake
  import opened Meaning
  import Wire
  import Properties
  import Deserializer

  // -------------------------------------------------------------- events

  datatype Event =
    | Service(now: nat, io: Io)
    | Drop
    | Receive(packet: Packet)
    | Ask(request: Request)
    | Direct(bytes: seq<Byte>, written: nat, ok: bool, close: bool, now: nat)
    | Open(answer: Answer, now: nat)

  /**
    * When the public operations let an event happen. An inbound packet is handled only while no
    * outbound packet is partly written and the control queue has room; a direct write waits for a
    * drained stream and, like every request, offers a packet within the broker's limit.
    */
  ghost predicate Enabled(c: Conn, e: Event) {
    match e
    case Receive(_) => c.link.live && Quieted(c.core.out) && |c.core.out.control| < MAX_PENDING_CONTROL
    case Direct(packet, written, _, _, _) =>
      Idle(c) && Unremembered(packet) && !TooLarge(c.rt.maxPacket, |packet|) && written <= |packet|
    case _ => true
  }

  /** What the client writes outside its queues: a DISCONNECT or a QoS 0 PUBLISH. */
  ghost predicate Unremembered(packet: seq<Byte>) {
    IsFrame(packet) && Plain(packet[0])
  }

  ghost function Apply(c: Conn, e: Event): Conn
    requires Fits(c.core.out) && Enabled(c, e)
  {
    match e
    case Service(now, io) => ServiceOnce(c, now, io).0
    case Drop => HandleDisconnect(c)
    case Receive(p) => Process(c, p).0
    case Ask(r) => Admit(c, r).0
    case Direct(packet, written, ok, close, now) => WriteDirect(c, packet, written, ok, close, now)
    case Open(answer, now) => Connect(c, answer, now).0
  }

  // ----------------------------------------------------- stream invariant

  /** Nothing, or the beginning of some packet. */
  ghost predicate Severed(cut: seq<Byte>) {
    cut == [] || exists f: seq<Byte> :: IsFrame(f) && cut < f
  }

  /** The bytes after the last complete packet on this transport. */
  ghost function Ending(c: Conn): seq<Byte> {
    if c.link.live then Begun(Items(c.core.out)) else c.link.cut
  }

  /** Everything written is whole packets, in order, followed by at most the beginning of one more. */
  ghost predicate StreamOk(c: Conn) {
    && AllGenuine(c.link.sent)
    && c.link.wire == Flatten(AllBytes(c.link.sent)) + Ending(c)
    && (!c.link.live ==> Severed(c.link.cut))
  }

  /** A clean stream has nothing waiting for a flush; a suspended flush has nothing partly written. */
  ghost predicate FlushOk(c: Conn) {
    c.link.live ==>
      && (c.link.flush.Clean? ==> NoFlush(c.core.out))
      && (c.link.flush.Flushing? ==> Quieted(c.core.out))
  }

  ghost predicate Streamed(c: Conn) {
    && Sound(c.core.out)
    && c.core.out.capacity < 0x1_0000_0000
    && StreamOk(c)
    && FlushOk(c)
  }

  // ------------------------------------------------------------ item facts

  lemma ItemIsGenuine(o: Out, i: nat)
    requires Sound(o) && i < |Items(o)|
    ensures Genuine(Items(o)[i].packet) && BytesOf(Items(o)[i].packet) == Items(o)[i].bytes
  {
    hide Genuine, ControlBytes, ReleaseBytes, AllWf, OnePartial;
    ItemsAt(o, i);
    if i < |o.control| {
      ControlGenuine(o.control[i].action);
    } else if i < |o.control| + |o.release| {
      var r := o.release[i - |o.control|];
      ReleaseGenuine(r.id, r.reason);
    } else {
      assert GoodRetained(o.retained[i - |o.control| - |o.release|]);
    }
  }

  lemma SlotIsGenuine(o: Out, s: Slot)
    requires Sound(o) && SlotIn(o, s)
    ensures var it := ItemAt(o, s); Genuine(it.packet) && IsFrame(it.bytes) && BytesOf(it.packet) == it.bytes && it.Wf()
  {
    hide IsFrame, Meant, BytesOf;
    PlaceIsItem(o, s);
    ItemIsGenuine(o, Place(o, s));
  }

  lemma BegunIsSevered(o: Out)
    requires Sound(o)
    ensures Severed(Begun(Items(o)))
  {
    hide IsFrame, Meant, BytesOf, Items;
    var i := First(Items(o), true);
    if i < |Items(o)| {
      ItemIsGenuine(o, i);
      assert Items(o)[i].Wf();
      assert Begun(Items(o)) < Items(o)[i].bytes;
    }
  }

  lemma SentSnoc(ms: seq<Message>, m: Message)
    ensures Flatten(AllBytes(ms + [m])) == Flatten(AllBytes(ms)) + BytesOf(m)
  {
    hide BytesOf;
    assert AllBytes(ms + [m]) == AllBytes(ms) + [BytesOf(m)];
    FlattenSnoc(AllBytes(ms), BytesOf(m));
  }

  lemma GenuineSnoc(ms: seq<Message>, m: Message)
    requires AllGenuine(ms) && Genuine(m)
    ensures AllGenuine(ms + [m])
  {
    hide Genuine;
  }

  // ------------------------------------------------------------ disconnect

  lemma DropKeeps(c: Conn)
    requires Streamed(c)
    ensures Streamed(HandleDisconnect(c))
  {
    hide Sound, Begun, Items, NoFlush, Quieted, Flatten, AllGenuine;
    ArmReplayKeeps(c.core.out);
    BegunIsSevered(c.core.out);
    SoundCapacity(c.core.out);
  }

  lemma SoundCapacity(o: Out)
    ensures ArmReplay(o).capacity == o.capacity && ArmReplay(o).workspace == o.workspace
  {
  }

  // --------------------------------------------------------------- service

  lemma FlushKeeps(c: Conn, now: nat, io: Io)
    requires Streamed(c) && Quieted(c.core.out)
    ensures Streamed(FlushCurrent(c, now, io).0)
  {
    hide Sound, Begun, Items, NoFlush, Quieted, Flatten, AllGenuine, NonePartial;
    if c.link.live {
      if io.Flushed? {
        CompleteFlushKeeps(c.core.out);
        QuietBegun(c.core.out);
        QuietBegun(CompleteFlush(c.core.out));
      } else {
        var f := c.(link := c.link.(flush := Flushing));
        assert Streamed(f);
        DropKeeps(f);
      }
    }
  }

  lemma QuietBegun(o: Out)
    requires Sound(o) && Quieted(o)
    ensures Begun(Items(o)) == []
  {
    Schedule.Quiet(Items(o));
  }

  /** A write extends the stream by exactly the accepted bytes of the packet the scheduler selects. */
  lemma AfterWriteKeeps(c: Conn, count: nat, now: nat)
    requires Streamed(c) && c.link.live && NextStep(c.core.out).Some?
    requires SlotIn(c.core.out, NextStep(c.core.out).value) && ItemAt(c.core.out, NextStep(c.core.out).value).state.Write?
    requires 1 <= count <= Left(ItemAt(c.core.out, NextStep(c.core.out).value))
    ensures Streamed(AfterWrite(c, NextStep(c.core.out).value, count, now))
  {
    hide Sound, Begun, Items, Flatten, AllGenuine, IsFrame, Meant, BytesOf, AllBytes, NextStep, ItemAt, AdvanceSlot, Pending,
         NoFlush, Quieted;
    var o := c.core.out;
    var s := NextStep(o).value;
    var it := ItemAt(o, s);
    var w := it.state.written;
    SlotIsGenuine(o, s);
    WriteStep(o, count);
    AdvanceCapacity(o, s, count);
    SentSnoc(c.link.sent, it.packet);
    GenuineSnoc(c.link.sent, it.packet);
    ConcatThree(Flatten(AllBytes(c.link.sent)), Begun(Items(o)), it.bytes[w..w + count]);
  }

  lemma ConcatThree(a: seq<Byte>, b: seq<Byte>, d: seq<Byte>)
    ensures a + b + d == a + (b + d)
    ensures a + b == a + b + []
  {
  }

  lemma PerformKeeps(c: Conn, now: nat, io: Io)
    requires Streamed(c) && NextStep(c.core.out).Some?
    requires SlotIn(c.core.out, NextStep(c.core.out).value) && ItemAt(c.core.out, NextStep(c.core.out).value).state.Write?
    ensures Streamed(PerformStep(c, NextStep(c.core.out).value, now, io).0)
  {
    hide Streamed, AfterWrite, NextStep, ItemAt, HandleDisconnect;
    var it := ItemAt(c.core.out, NextStep(c.core.out).value);
    DropKeeps(c);
    var count := Taken(io, it);
    if c.link.live && count > 0 {
      AfterWriteKeeps(c, count, now);
    }
  }

  lemma AdvanceCapacity(o: Out, s: Slot, count: nat)
    requires SlotIn(o, s) && ItemAt(o, s).state.Write?
    ensures AdvanceSlot(o, s, count).capacity == o.capacity && AdvanceSlot(o, s, count).workspace == o.workspace
  {
  }

  /** A ping is considered only when the control queue is empty, so it is never refused for lack of room. */
  lemma PingHasRoom(c: Conn, now: nat)
    requires Streamed(c) && c.link.live && c.link.flush.Clean? && NextStep(c.core.out).None?
    ensures c.core.out.control == []
    ensures MaybePing(c, now) != Err(InflightExhausted)
  {
    DrainedIsAllSent(c.core.out);
  }

  lemma PingKeeps(c: Conn, now: nat)
    requires Streamed(c) && MaybePing(c, now).Ok?
    ensures Streamed(MaybePing(c, now).value)
  {
    hide Begun, Items, Flatten, AllGenuine, AllWf, OnePartial, AllGood, UniqueIds, NonePartial;
    if ShouldPing(c, now) {
      QueueControlKeeps(c.core.out, Ping);
    }
  }

  lemma ServiceKeeps(c: Conn, now: nat, io: Io)
    requires Streamed(c)
    ensures Streamed(ServiceOnce(c, now, io).0)
  {
    hide Streamed, PerformStep, FlushCurrent, MaybePing, NextStep, SlotIn, ItemAt;
    if c.link.flush.Flushing? {
      ServiceFlush(c, now, io);
    } else if NextStep(c.core.out).Some? {
      NextStepWritable(c.core.out);
      PerformKeeps(c, now, io);
    } else if c.link.flush.Dirty? {
      ServiceFlush(c, now, io);
    } else if MaybePing(c, now).Ok? {
      var d := MaybePing(c, now).value;
      PingKeeps(c, now);
      if NextStep(d.core.out).Some? {
        NextStepWritable(d.core.out);
        PerformKeeps(d, now, io);
      }
    }
  }

  lemma ServiceFlush(c: Conn, now: nat, io: Io)
    requires Streamed(c) && (c.link.flush.Flushing? || NextStep(c.core.out).None?)
    ensures Streamed(FlushCurrent(c, now, io).0)
  {
    hide Sound, StreamOk, Quieted, NextStep;
    if c.link.live {
      if NextStep(c.core.out).None? {
        NothingNext(c.core.out);
      }
      FlushKeeps(c, now, io);
    }
  }

  // --------------------------------------------------------------- inbound

  /** Handling a packet leaves the outbound state sound and quiet and the arena split as it was. */
  ghost predicate Tame(o: Out, p: Out) {
    && Sound(p) && Quieted(p)
    && (NoFlush(o) ==> NoFlush(p))
    && p.capacity == o.capacity && p.workspace == o.workspace
  }

  lemma TameTrans(o: Out, p: Out, q: Out)
    requires Tame(o, p) && Tame(p, q)
    ensures Tame(o, q)
  {
  }

  lemma QueueControlTame(o: Out, a: ControlAction)
    requires Sound(o) && Quieted(o) && QueueControl(o, a).Some?
    ensures Tame(o, QueueControl(o, a).value)
  {
    hide Sound, Items, Begun, Quieted;
    QueueControlKeeps(o, a);
  }

  lemma QueueReleaseTame(o: Out, id: U16, reason: ReasonCode)
    requires Sound(o) && Quieted(o) && QueueRelease(o, id, reason).Some?
    requires id != 0 && !HasRetained(o, id) && !HasRelease(o, id)
    ensures Tame(o, QueueRelease(o, id, reason).value)
  {
    hide Sound, Items, Begun, Quieted;
    QueueReleaseKeeps(o, id, reason);
  }

  lemma AckPacketTame(o: Out, kind: OpKind, id: U16)
    requires Sound(o) && Quieted(o)
    ensures Tame(o, AckPacket(o, kind, id))
  {
    hide Items, Quieted, AllWf, OnePartial, AllGood, Fits, ControlUnsent, RetainedPosition;
    AckPacketKeeps(o, kind, id);
    AckPacketExact(o, kind, id);
    var p := AckPacket(o, kind, id);
    assert forall i | 0 <= i < |p.retained| :: p.retained[i] in p.retained;
  }

  lemma AckReleaseTame(o: Out, id: U16)
    requires Sound(o) && Quieted(o)
    ensures Tame(o, AckRelease(o, id))
  {
    hide Sound, Items, Quieted, ReleasePosition, SwapRemove;
    AckReleaseKeeps(o, id);
    var p := AckRelease(o, id);
    assert forall i | 0 <= i < |p.release| :: p.release[i] in p.release;
  }

  lemma QueueCheckedTame(core: Core, rt: Runtime, a: ControlAction)
    requires Sound(core.out) && Quieted(core.out) && QueueChecked(core, rt, a).Ok?
    ensures Tame(core.out, QueueChecked(core, rt, a).value.out)
  {
    hide Sound, Quieted, Tame;
    QueueControlTame(core.out, a);
  }

  lemma PubRecTame(core: Core, rt: Runtime, id: U16, code: ReasonCode)
    requires Sound(core.out) && Quieted(core.out)
    ensures Tame(core.out, HandlePubRec(core, rt, id, code).0.out)
  {
    hide Sound, Quieted, Tame, NoFlush, HasOp, HasRelease, HasRetained, ReleaseBytes, UniqueIds, AckPacket;
    var o := core.out;
    TameSelf(o);
    if HasOp(o, PublishExactlyOnce, id) {
      var p := AckPacket(o, PublishExactlyOnce, id);
      AckPacketTame(o, PublishExactlyOnce, id);
      AckPacketKeeps(o, PublishExactlyOnce, id);
      ReleaseUnchanged(o, PublishExactlyOnce, id);
      if QueueRelease(p, id, SUCCESS).Some? {
        QueueReleaseTame(p, id, SUCCESS);
        TameTrans(o, p, QueueRelease(p, id, SUCCESS).value);
      }
    }
  }

  lemma TameSelf(o: Out)
    requires Sound(o) && Quieted(o)
    ensures Tame(o, o)
  {
  }

  lemma ReleaseUnchanged(o: Out, kind: OpKind, id: U16)
    ensures HasRelease(AckPacket(o, kind, id), id) == HasRelease(o, id)
  {
  }

  lemma PublishTame(core: Core, rt: Runtime, qos: Wire.QoS, id: Option<U16>)
    requires Sound(core.out) && Quieted(core.out)
    ensures Tame(core.out, HandlePublish(core, rt, qos, id).0.out)
  {
    hide Sound, Quieted, Tame, QueueChecked;
    TameSelf(core.out);
    if !qos.AtMostOnce? && id.Some? {
      if qos.AtLeastOnce? {
        var a := AckPublish(id.value, if id.value in core.serverIds then PACKET_ID_IN_USE else SUCCESS);
        if QueueChecked(core, rt, a).Ok? {
          QueueCheckedTame(core, rt, a);
        }
      } else {
        var duplicate := id.value in core.serverIds;
        var full := !duplicate && |core.serverIds| >= MAX_INBOUND_QOS2;
        var noted := if duplicate || full then core else core.(serverIds := core.serverIds + [id.value]);
        var a := RecPublish(id.value, if full then RECEIVE_MAX_EXCEEDED else SUCCESS);
        if QueueChecked(noted, rt, a).Ok? {
          QueueCheckedTame(noted, rt, a);
        }
      }
    }
  }

  lemma PubRelTame(core: Core, rt: Runtime, id: U16)
    requires Sound(core.out) && Quieted(core.out)
    ensures Tame(core.out, HandlePubRel(core, rt, id).0.out)
  {
    hide Sound, Quieted, Tame, QueueChecked, IdPosition, SwapRemove;
    TameSelf(core.out);
    var i := IdPosition(core.serverIds, id);
    var found := i < |core.serverIds|;
    var released := core.(serverIds := if found then SwapRemove(core.serverIds, i) else core.serverIds,
                          inbound := core.inbound + [Released(id)]);
    var a := CompPublish(id, if found then SUCCESS else PACKET_ID_NOT_FOUND);
    if QueueChecked(released, rt, a).Ok? {
      QueueCheckedTame(released, rt, a);
    }
  }

  lemma HandleTame(core: Core, rt: Runtime, p: Packet)
    requires Sound(core.out) && Quieted(core.out)
    ensures Tame(core.out, HandlePacket(core, rt, p).0.out)
  {
    hide Sound, Quieted, Tame, HasOp, HandlePubRec, HandlePubRel, HandlePublish, AckPacket, AckRelease, FailedCode,
         FirstFailed;
    TameSelf(core.out);
    match p {
      case SubAck(id, _, _) => AckPacketTame(core.out, OpKind.Subscribe, id);
      case UnsubAck(id, _, _) => AckPacketTame(core.out, OpKind.Unsubscribe, id);
      case PubAck(id, _) => AckPacketTame(core.out, PublishAtLeastOnce, id);
      case PubRec(id, reason) => PubRecTame(core, rt, id, reason.Code());
      case PubComp(id, _) => AckReleaseTame(core.out, id);
      case PubRel(id, _) => PubRelTame(core, rt, id);
      case Publish(_, id, _, _, _, qos, _) => PublishTame(core, rt, qos, id);
      case _ =>
    }
  }

  lemma ReceiveKeeps(c: Conn, p: Packet)
    requires Streamed(c) && Quieted(c.core.out)
    ensures Streamed(Process(c, p).0)
  {
    hide Sound, Items, Begun, NoFlush, Quieted, HandlePacket, AllGenuine, Flatten;
    var (core, rt, h) := HandlePacket(c.core, c.rt, p);
    HandleTame(c.core, c.rt, p);
    QuietBegun(c.core.out);
    QuietBegun(core.out);
    var d := c.(core := core, rt := rt);
    assert Streamed(d);
    DropKeeps(d);
  }

  // -------------------------------------------------------------- requests

  /** Admission only ever appends a packet not yet started. */
  ghost predicate Grown(o: Out, p: Out) {
    && Sound(p)
    && Begun(Items(p)) == Begun(Items(o))
    && (Quieted(o) ==> Quieted(p))
    && (NoFlush(o) ==> NoFlush(p))
    && p.capacity == o.capacity && p.workspace == o.workspace
  }

  lemma RetainCheckedGrows(c: Conn, kind: OpKind, id: PacketId, packet: seq<Byte>)
    requires Sound(c.core.out) && !HasRetained(c.core.out, id) && !HasRelease(c.core.out, id)
    requires GoodRetained(Retained(kind, id, packet, Write(0)))
    requires |packet| <= RetainedCapacity(c.core.out) - RetainedBytes(c.core.out)
    ensures Grown(c.core.out, RetainChecked(c, kind, id, packet).0.core.out)
  {
    hide Sound, Items, Begun, Quieted, RetainedBytes, GoodRetained, HasRetained, HasRelease;
    if Retain(c.core.out, kind, id, packet).Some? {
      RetainKeeps(c.core.out, kind, id, packet);
    }
  }

  lemma AdmitPublishGrows(c: Conn, topic: Wire.Text, b: Properties.Block, qos: Wire.QoS, retain: bool, payload: Payload)
    requires Sound(c.core.out) && c.core.out.capacity < 0x1_0000_0000 && !qos.AtMostOnce?
    ensures Grown(c.core.out, AdmitPublish(c, topic, b, qos, retain, payload).0.core.out)
  {
    hide Items, Begun, Quieted, AllWf, OnePartial, AllGood, UniqueIds, ControlUnsent, NoFlush, IsFrame, Genuine,
         EncodePublishInto, PublishFields, RetainChecked, FreshId, RetainedBytes;
    var (d, id) := TakeId(c);
    var header := Wire.PublishHeader(qos, retain, false);
    var fields := PublishFields(topic, Some(id), b);
    var room := RetainedCapacity(d.core.out) - RetainedBytes(d.core.out);
    var kind := if qos.ExactlyOnce? then PublishExactlyOnce else PublishAtLeastOnce;
    var r := EncodePublishInto(room, header, fields, payload);
    if r.Ok? {
      EncodedPublishIsFrame(room, header, fields, payload);
      PublishGenuine(room, topic, id, b, qos, retain, payload);
      RetainCheckedGrows(d, kind, id, r.value);
    }
  }

  lemma AdmitFiltersGrows(c: Conn, kind: OpKind, fields: U16 -> Wire.Fields)
    requires Sound(c.core.out) && c.core.out.capacity < 0x1_0000_0000 && !kind.IsPublish()
    ensures Grown(c.core.out, AdmitFilters(c, kind, fields).0.core.out)
  {
    hide Items, Begun, Quieted, AllWf, OnePartial, AllGood, UniqueIds, ControlUnsent, NoFlush, IsFrame, Genuine, EncodeInto,
         RetainChecked, FreshId, RetainedBytes;
    var (d, id) := TakeId(c);
    var header := Wire.ControlHeader(if kind == OpKind.Subscribe then Wire.Subscribe else Wire.Unsubscribe);
    var r := EncodeInto(ScratchLen(d.core.out), header, fields(id));
    if r.Ok? && |c.core.out.retained| < MAX_RETAINED {
      EncodedIntoIsFrame(ScratchLen(d.core.out), header, fields(id));
      FiltersGenuine(kind, id, r.value);
      if |r.value| <= RetainedCapacity(d.core.out) - RetainedBytes(d.core.out) {
        RetainCheckedGrows(d, kind, id, r.value);
      }
    }
  }

  lemma AdmitGrows(c: Conn, r: Request)
    requires Sound(c.core.out) && c.core.out.capacity < 0x1_0000_0000
    ensures Grown(c.core.out, Admit(c, r).0.core.out)
    ensures Admit(c, r).0.link == c.link
  {
    hide Sound, Items, Begun, Quieted, AdmitPublish, AdmitFilters, Fits;
    SoundFits(c.core.out);
    match r {
      case PublishRequest(topic, properties, qos, retain, payload) =>
        var q := EffectiveQos(c, qos);
        if c.link.live && q.Some? && !q.value.AtMostOnce? {
          AdmitPublishGrows(c, topic, properties, q.value, retain, payload);
          AdmitPublishLink(c, topic, properties, q.value, retain, payload);
        }
      case SubscribeRequest(topics, properties) =>
        AdmitFiltersGrows(c, OpKind.Subscribe, (id: U16) => SubscribeFields(id, properties, topics));
        AdmitFiltersLink(c, OpKind.Subscribe, (id: U16) => SubscribeFields(id, properties, topics));
      case UnsubscribeRequest(filters, properties) =>
        AdmitFiltersGrows(c, OpKind.Unsubscribe, (id: U16) => UnsubscribeFields(id, properties, filters));
        AdmitFiltersLink(c, OpKind.Unsubscribe, (id: U16) => UnsubscribeFields(id, properties, filters));
    }
  }

  lemma SoundFits(o: Out)
    requires Sound(o)
    ensures Fits(o)
  {
  }

  /** What admission leaves alone: the transport, the inbound side, and the session identity. */
  ghost predicate SameBeyondOut(c: Conn, d: Conn) {
    && d.link == c.link && d.clientId == c.clientId && d.config == c.config
    && d.core.serverIds == c.core.serverIds && d.core.inbound == c.core.inbound
    && d.core.present == c.core.present && d.core.generation == c.core.generation
    && d.rt.(quota := 0) == c.rt.(quota := 0)
  }

  lemma AdmitPublishLink(c: Conn, topic: Wire.Text, b: Properties.Block, qos: Wire.QoS, retain: bool, payload: Payload)
    requires Fits(c.core.out) && !qos.AtMostOnce?
    ensures SameBeyondOut(c, AdmitPublish(c, topic, b, qos, retain, payload).0)
  {
    hide EncodePublishInto, PublishFields, FreshId, RetainedBytes, Retain;
  }

  lemma AdmitFiltersLink(c: Conn, kind: OpKind, fields: U16 -> Wire.Fields)
    requires Fits(c.core.out)
    ensures SameBeyondOut(c, AdmitFilters(c, kind, fields).0)
  {
    hide EncodeInto, FreshId, RetainedBytes, Retain;
  }

  lemma AskKeeps(c: Conn, r: Request)
    requires Streamed(c)
    ensures Streamed(Admit(c, r).0)
  {
    hide Sound, Items, Begun, NoFlush, Quieted, AllGenuine, Flatten, Admit;
    AdmitGrows(c, r);
  }

  // --------------------------------------------------------- direct writes

  lemma DirectKeeps(c: Conn, packet: seq<Byte>, written: nat, ok: bool, close: bool, now: nat)
    requires Streamed(c) && Idle(c) && Unremembered(packet) && written <= |packet|
    ensures Streamed(WriteDirect(c, packet, written, ok, close, now))
  {
    hide Sound, Items, Begun, NoFlush, Quieted, AllGenuine, Flatten, NextStep, AllBytes, IsFrame, Genuine,
         Plain;
    NothingNext(c.core.out);
    QuietBegun(c.core.out);
    ArmReplayKeeps(c.core.out);
    SentSnoc(c.link.sent, DirectMessage(packet));
    DirectGenuine(packet);
    GenuineSnoc(c.link.sent, DirectMessage(packet));
    assert BytesOf(DirectMessage(packet)) == packet;
    if written == |packet| {
      assert packet[..written] == packet;
    } else {
      assert packet[..written] < packet;
      assert Severed(packet[..written]);
    }
  }

  // ---------------------------------------------------------------- connect

  /** Armed for a new transport: everything from its first byte, nothing in flight on the wire. */
  ghost predicate Armed(o: Out) {
    Sound(o) && Quieted(o) && NoFlush(o) && o.capacity < 0x1_0000_0000
  }

  lemma WorkspaceKeepsArmed(o: Out, len: nat)
    requires Armed(o) && SetWorkspace(o, len).Some?
    ensures Armed(SetWorkspace(o, len).value)
  {
    var p := SetWorkspace(o, len).value;
    assert Items(p) == Items(o);
  }

  lemma ArmedDead(c: Conn)
    requires Armed(c.core.out) && c.link == NoLink
    ensures Streamed(c)
  {
    hide Sound, Quieted, NoFlush;
  }

  lemma ActivateStreams(c: Conn, t: Terms, connect: seq<Byte>, now: nat)
    requires Armed(c.core.out) && Genuine(DirectMessage(connect))
    ensures Streamed(Activate(c, t, connect, now))
  {
    hide Sound, Quieted, NoFlush, Items, Begun, Genuine, Publishes;
    QuietBegun(c.core.out);
    var m := DirectMessage(connect);
    SentSnoc([], m);
    assert [] + [m] == [m];
    assert AllBytes([]) == [];
    GenuineSnoc([], m);
  }

  lemma AcceptKeeps(c: Conn, ack: Packet, connect: seq<Byte>, reserve: nat, now: nat)
    requires Armed(c.core.out) && c.link == NoLink && ack.ConnAck? && Genuine(DirectMessage(connect))
    ensures Streamed(Accept(c, ack, connect, reserve, now).0)
  {
    hide Streamed, Armed, SettleAll, Activate, Genuine, Deserializer.Items, HandleDisconnect, SetWorkspace;
    ArmedDead(c);
    if Success(ack.code) {
      var d := if ack.sessionPresent then c else c.(core := Reset(c.core));
      ResetArmed(c.core);
      ArmedDead(d);
      DropKeeps(d);
      var t := SettleAll(Terms(LOCAL_QUOTA, None, None, c.rt.keepalive, None),
                         Deserializer.Items(ack.properties), c.clientId != []);
      if t.Some? {
        ActivateStreams(d, t.value, connect, now);
        if t.value.granted.Some? {
          var w := SetWorkspace(d.core.out, reserve + |t.value.granted.value|);
          if w.Some? {
            WorkspaceKeepsArmed(d.core.out, reserve + |t.value.granted.value|);
            ActivateStreams(WithOut(d, w.value), t.value, connect, now);
          } else {
            ArmedDead(d.(rt := Activate(d, t.value, connect, now).rt.(nextPing := None)));
          }
        }
      }
    }
  }

  lemma ResetArmed(core: Core)
    requires Armed(core.out)
    ensures Armed(Reset(core).out)
  {
    ClearKeeps(core.out);
  }

  lemma OpenKeeps(c: Conn, answer: Answer, now: nat)
    requires Streamed(c)
    ensures Streamed(Connect(c, answer, now).0)
  {
    hide StreamOk, Armed, Accept, EncodeInto, ConnectBody, ConnectNeed, IsFrame, Genuine, HandleDisconnect,
         SetWorkspace, Sound, Plain;
    var a := Prepared(c);
    PreparedArmed(c);
    ArmedDead(a);
    var header := Wire.ControlHeader(Wire.Connect);
    var r := EncodeInto(ScratchLen(a.core.out), header, ConnectBody(a));
    var w := SetWorkspace(a.core.out, ConnectNeed(a));
    if r.Ok? && w.Some? {
      ScratchBound(a.core.out);
      EncodedIntoIsFrame(ScratchLen(a.core.out), header, ConnectBody(a));
      PlainControl(Wire.Connect);
      DirectGenuine(r.value);
      WorkspaceKeepsArmed(a.core.out, ConnectNeed(a));
      var b := WithOut(a, w.value);
      ArmedDead(b);
      DropKeeps(b);
      if answer.Answered? && answer.packet.ConnAck? {
        AcceptKeeps(b, answer.packet, r.value, ConnectNeed(a), now);
      }
    }
  }

  lemma PreparedArmed(c: Conn)
    requires Streamed(c)
    ensures Armed(Prepared(c).core.out)
  {
    hide Sound, Quieted, NoFlush, Items;
    ArmReplayKeeps(c.core.out);
  }

  lemma ScratchBound(o: Out)
    requires Armed(o)
    ensures ScratchLen(o) < 0x1_0000_0000
  {
  }

  // ------------------------------------------------------------------- runs

  lemma StepKeeps(c: Conn, e: Event)
    requires Streamed(c) && Enabled(c, e)
    ensures Streamed(Apply(c, e))
  {
    hide Streamed, ServiceOnce, HandleDisconnect, Process, Admit, WriteDirect, Connect, Quieted, Fits;
    StreamedFits(c);
    match e {
      case Service(now, io) => ServiceKeeps(c, now, io);
      case Drop => DropKeeps(c);
      case Receive(p) => ReceiveKeeps(c, p);
      case Ask(r) => AskKeeps(c, r);
      case Direct(packet, written, ok, close, now) => DirectKeeps(c, packet, written, ok, close, now);
      case Open(answer, now) => OpenKeeps(c, answer, now);
    }
  }

  lemma StreamedFits(c: Conn)
    requires Streamed(c)
    ensures Fits(c.core.out)
  {
  }

  lemma StreamedUnique(c: Conn)
    requires Streamed(c)
    ensures UniqueIds(c.core.out) && Fits(c.core.out) && Sound(c.core.out) && c.core.out.capacity < 0x1_0000_0000
  {
  }

  /** `states` is a run driven by `events`. */
  ghost predicate IsRun(states: seq<Conn>, events: seq<Event>) {
    && |states| == |events| + 1
    && forall i | 0 <= i < |events| ::
         && Fits(states[i].core.out)
         && Enabled(states[i], events[i])
         && states[i + 1] == Apply(states[i], events[i])
  }

  /** Some run of events leads from `c` to `d`. */
  ghost predicate Reaches(c: Conn, d: Conn) {
    exists states: seq<Conn>, events: seq<Event> ::
      IsRun(states, events) && states[0] == c && states[|events|] == d
  }

  lemma ReachesSelf(c: Conn)
    ensures Reaches(c, c)
  {
    assert IsRun([c], []);
  }

  lemma ReachesOn(c: Conn, d: Conn, e: Event)
    requires Reaches(c, d) && Fits(d.core.out) && Enabled(d, e)
    ensures Reaches(c, Apply(d, e))
  {
    hide Fits, Enabled, Apply;
    var states, events :| IsRun(states, events) && states[0] == c && states[|events|] == d;
    var longer, more := states + [Apply(d, e)], events + [e];
    forall i | 0 <= i < |more|
      ensures Fits(longer[i].core.out) && Enabled(longer[i], more[i]) && longer[i + 1] == Apply(longer[i], more[i])
    {
      if i < |events| {
        assert longer[i] == states[i] && longer[i + 1] == states[i + 1] && more[i] == events[i];
      }
    }
    assert IsRun(longer, more);
  }

  /** A session before its first connection. */
  ghost predicate Initial(c: Conn) {
    && c.core.cursor == 1
    && c.core.out.workspace == 0 && c.core.out == Clear(c.core.out) && c.core.out.capacity < 0x1_0000_0000
    && c.core.serverIds == [] && c.core.inbound == [] && !c.core.present
    && c.link == NoLink && c.rt.nextPing.None? && c.rt.pingTimeout.None?
  }

  lemma InitialStreamed(c: Conn)
    requires Initial(c)
    ensures Streamed(c)
  {
    ClearKeeps(c.core.out);
  }

  lemma {:induction false} RunStreamed(states: seq<Conn>, events: seq<Event>, i: nat)
    requires IsRun(states, events) && Initial(states[0]) && i < |states|
    ensures Streamed(states[i])
  {
    hide Streamed, Enabled, Fits;
    if i == 0 {
      InitialStreamed(states[0]);
    } else {
      RunStreamed(states, events, i - 1);
      StepKeeps(states[i - 1], events[i - 1]);
      assert states[i - 1 + 1] == states[i];
    }
  }

  /**
    * Stream integrity: in every state of every run, what the current transport was given is the
    * completed packets, each exactly one packet that says what the client means by it, in order, and then at most a proper beginning of one
    * more; while the connection lives that is the packet the scheduler resumes, at the byte where it stopped.
    */
  lemma StreamIntegrity(states: seq<Conn>, events: seq<Event>, i: nat)
    requires IsRun(states, events) && Initial(states[0]) && i < |states|
    ensures var c := states[i];
            && AllGenuine(c.link.sent)
            && c.link.wire == Flatten(AllBytes(c.link.sent)) + Ending(c)
            && Severed(Ending(c))
            && (c.link.live && Ending(c) != [] ==> Resumes(c.core.out, Ending(c)))
  {
    hide Fits, Enabled;
    RunStreamed(states, events, i);
    var c := states[i];
    BegunIsSevered(c.core.out);
    if c.link.live && Ending(c) != [] {
      ResumesBegun(c.core.out);
    }
  }

  /** The next step continues the packet of which `begun` was written, at the first byte not yet written. */
  ghost predicate Resumes(o: Out, begun: seq<Byte>) {
    && NextStep(o).Some? && SlotIn(o, NextStep(o).value)
    && var it := ItemAt(o, NextStep(o).value);
       it.state == Write(|begun|) && begun < it.bytes
  }

  lemma ResumesBegun(o: Out)
    requires Sound(o) && Begun(Items(o)) != []
    ensures Resumes(o, Begun(Items(o)))
  {
    NextStepIsNext(o);
    PlaceIsItem(o, NextStep(o).value);
    var i := First(Items(o), true);
    assert Items(o)[i].Wf();
  }
}
