/**
  * The client object: session state, arena, packet reader and transport, and the methods that drive them
  * (minimq/src/mqtt_client/session). Every transport call is answered by `Transport.Io`, which may accept any
  * part of what it is offered, fail, or be cancelled; each method is tied to a step of `Session`.
  */
module Client {
  import opened Arena
  import opened Bytes
  import opened Outbound
  import opened OutboundLaws
  import opened PacketIds
  import opened Packets
  import opened Properties
  import opened Runs
  import opened Schedule
  import opened Session
  import Conservation
  import Deserializer
  import Drain
  import Greetings
  import Handshake
  import InboundOnce
  import Meaning
  import PacketReader
  import PeerView
  import Received
  import Reconnect
  import Serializer
  import Transport
  import Wire

  /** What every step of a run keeps. */
  ghost predicate Proper(c: Conn) {
    Streamed(c) && Reconnect.ReserveOk(c) && Conservation.QuotaOk(c) && InboundOnce.InboundOk(c.core)
  }

  lemma ProperStep(c: Conn, e: Event)
    requires Proper(c) && Enabled(c, e)
    ensures Fits(c.core.out) && Proper(Apply(c, e))
  {
    hide Streamed, Enabled, Apply, Fits, Reconnect.ReserveOk, Conservation.QuotaOk, InboundOnce.InboundOk;
    StreamedFits(c);
    StepKeeps(c, e);
    Reconnect.ReserveStep(c, e);
    Conservation.QuotaStep(c, e);
    InboundOnce.InboundStep(c, e);
  }

  /** A state reached from the start of a session by the events of `Runs`. */
  ghost predicate Lawful(origin: Conn, c: Conn) {
    Initial(origin) && Reaches(origin, c) && Proper(c)
  }

  lemma LawfulStep(origin: Conn, c: Conn, e: Event)
    requires Lawful(origin, c) && Enabled(c, e)
    ensures Fits(c.core.out) && Lawful(origin, Apply(c, e))
  {
    hide Proper, Enabled, Apply, Fits, Reaches, Initial;
    ProperStep(c, e);
    ReachesOn(origin, c, e);
  }

  lemma ProperSound(c: Conn)
    requires Proper(c)
    ensures Sound(c.core.out) && Fits(c.core.out) && c.core.out.capacity < 0x1_0000_0000
  {
  }

  lemma ControlWithin(c: Conn)
    requires Proper(c)
    ensures |c.core.out.control| <= MAX_PENDING_CONTROL
  {
    hide StreamOk, FlushOk, AllWf, OnePartial, Items, Reconnect.ReserveOk, Conservation.QuotaOk,
         InboundOnce.InboundOk;
  }

  lemma InitialProper(c: Conn)
    requires Initial(c)
    ensures Proper(c)
  {
    hide Streamed, Reconnect.ReserveOk, InboundOnce.InboundOk;
    InitialStreamed(c);
    Reconnect.InitialReserve(c);
    InboundOnce.InitialInbound(c);
  }

  lemma ProperStreamed(c: Conn)
    requires Proper(c)
    ensures Streamed(c) && AllWf(Items(c.core.out))
  {
    hide StreamOk, FlushOk, AllWf, OnePartial, Items, Reconnect.ReserveOk, Conservation.QuotaOk,
         InboundOnce.InboundOk;
  }

  lemma PingSound(c: Conn, now: nat)
    requires Proper(c) && MaybePing(c, now).Ok?
    ensures Sound(MaybePing(c, now).value.core.out)
  {
    hide Sound, MaybePing, StreamOk, FlushOk, Reconnect.ReserveOk, Conservation.QuotaOk, InboundOnce.InboundOk;
    PingKeeps(c, now);
  }

  lemma NoSteps(c: Conn)
    ensures Drain.Serviced(c, [], c)
  {
  }

  /** Successful service steps lead from `c` to `d`; `some` if there is at least one. Without any, `d` is `c`. */
  ghost predicate Works(c: Conn, d: Conn, some: bool) {
    exists steps: seq<(nat, Session.Io)> :: Drain.Serviced(c, steps, d) && (some <==> steps != [])
  }

  lemma WorksNot(c: Conn)
    ensures Works(c, c, false)
  {
    NoSteps(c);
  }

  lemma WorksOn(c: Conn, m: Conn, d: Conn, some: bool, now: nat, io: Session.Io)
    requires Works(c, m, some) && ServiceOnce(m, now, io) == (d, Progress(true))
    ensures Works(c, d, true)
  {
    hide ServiceOnce, Drain.Serviced;
    var steps :| Drain.Serviced(c, steps, m) && (some <==> steps != []);
    Drain.ServicedSnoc(c, steps, m, now, io);
    assert Drain.Serviced(c, steps + [(now, io)], d);
  }

  /** One service step that made progress. */
  ghost predicate Works1(c: Conn, d: Conn) {
    exists now: nat, io: Session.Io :: ServiceOnce(c, now, io) == (d, Progress(true))
  }

  /** After service steps, the packet `rx` was handled and is for the application. */
  ghost predicate Handed(c: Conn, rx: seq<Byte>, d: Conn) {
    exists m: Conn, some: bool, p: Packet ::
      Works(c, m, some) && Received.FromBuffer(rx) == Ok(p) && Process(m, p) == (d, Deliver)
  }

  /** What becomes of a received packet. */
  ghost predicate Took(c: Conn, rx: seq<Byte>, d: Conn, r: Option<Driven>) {
    match Received.FromBuffer(rx)
    case Err(_) => d == HandleDisconnect(c) && r == Some(Broken(InvalidPacket))
    case Ok(p) =>
      var (e, h) := Process(c, p);
      d == e && r == match h
        case Deliver => Some(Inbound)
        case Fail(error) => Some(Broken(error))
        case Quiet => None
  }

  lemma HandedWhen(c: Conn, m: Conn, some: bool, rx: seq<Byte>, d: Conn, r: Option<Driven>)
    requires Works(c, m, some) && Took(m, rx, d, r)
    ensures r == Some(Inbound) ==> Handed(c, rx, d)
  {
    hide Works, Process, Received.FromBuffer, HandleDisconnect;
  }

  lemma WorksAgain(c: Conn, m: Conn, d: Conn, some: bool)
    requires Works(c, m, some)
    ensures Works1(m, d) ==> Works(c, d, true)
  {
    hide ServiceOnce, Works;
    if Works1(m, d) {
      var now, io :| ServiceOnce(m, now, io) == (d, Progress(true));
      WorksOn(c, m, d, some, now, io);
    }
  }

  lemma AdvanceIsSet(o: Out, s: Slot, count: nat)
    requires SlotIn(o, s) && ItemAt(o, s).state.Write?
    ensures AdvanceSlot(o, s, count) == SetSlot(o, s, SetWritten(ItemAt(o, s).state.written + count, |ItemAt(o, s).bytes|))
  {
  }

  lemma UniqueRelease(o: Out, i: nat)
    requires UniqueIds(o) && i < |o.release|
    ensures ReleasePosition(o.release, o.release[i].id) == i
  {
    var k := ReleasePosition(o.release, o.release[i].id);
    assert k <= i;
  }

  lemma UniqueRetained(o: Out, i: nat)
    requires UniqueIds(o) && i < |o.retained|
    ensures RetainedIndex(o.retained, o.retained[i].id) == i
  {
    var k := RetainedIndex(o.retained, o.retained[i].id);
    assert k <= i;
  }

  lemma MissingAck(o: Out, kind: OpKind, id: U16)
    requires !HasOp(o, kind, id)
    ensures Outbound.AckPacket(o, kind, id) == o
  {
  }

  /** The loop over the codes of a SUBACK: the first failure counts. */
  method CheckCodes(codes: seq<Byte>) returns (h: Handled)
    ensures h == if FailedCode(codes) then Fail(Rejected(FirstFailed(codes))) else Quiet
  {
    for i := 0 to |codes|
      invariant forall k | 0 <= k < i :: Success(ReasonOf(codes[k]))
    {
      if !Success(ReasonOf(codes[i])) {
        FirstFailedIs(codes, i);
        return Fail(Rejected(ReasonOf(codes[i])));
      }
    }
    return Quiet;
  }

  lemma {:induction false} FirstFailedIs(codes: seq<Byte>, i: nat)
    requires i < |codes| && !Success(ReasonOf(codes[i])) && forall k | 0 <= k < i :: Success(ReasonOf(codes[k]))
    ensures FailedCode(codes) && FirstFailed(codes) == ReasonOf(codes[i])
  {
    if i > 0 {
      FirstFailedIs(codes[1..], i - 1);
    }
  }

  /** `Progress`, with the ways a drive can be cut short. */
  datatype Driven = Waiting(advanced: bool) | Inbound | Broken(error: Error) | Interrupted

  datatype Waited = Arrived | Message | Moved | Ended(error: Error) | Stopped

  lemma HandledSound(c: Conn, p: Packet)
    requires Proper(c) && Quieted(c.core.out)
    ensures Sound(HandlePacket(c.core, c.rt, p).0.out)
  {
    hide Sound, Quieted, HandlePacket, StreamOk, FlushOk, Reconnect.ReserveOk, Conservation.QuotaOk,
         InboundOnce.InboundOk;
    HandleTame(c.core, c.rt, p);
  }

  /** With a full control queue, service keeps it full until the flush that leaves nothing partly written. */
  lemma FullService(c: Conn, now: nat, io: Session.Io)
    requires Streamed(c) && c.link.live && |c.core.out.control| == MAX_PENDING_CONTROL
    ensures var (d, r) := ServiceOnce(c, now, io);
            || Quieted(d.core.out) || |d.core.out.control| == MAX_PENDING_CONTROL
  {
    hide Sound, Quieted, Outbound.NextStep, ItemAt, Taken, ControlBytes, StreamOk, NoFlush, Items, Begun;
    if c.link.flush.Flushing? || (Outbound.NextStep(c.core.out).None? && c.link.flush.Dirty?) {
      Drain.ServiceFlushQuiet(c);
      CompleteFlushKeeps(c.core.out);
    } else if Outbound.NextStep(c.core.out).Some? {
      NextStepWritable(c.core.out);
    } else {
      PingHasRoom(c, now);
      assert false;
    }
  }

  /** The lexicographic measure of a drain fell. */
  ghost predicate Closer(c: Conn, d: Conn) {
    AllWf(Items(c.core.out)) && AllWf(Items(d.core.out)) && Drain.Smaller(d, c)
  }

  lemma CloserWhenSmaller(c: Conn, d: Conn)
    requires Proper(c) && Proper(d)
    ensures AllWf(Items(c.core.out)) && AllWf(Items(d.core.out))
    ensures Drain.Smaller(d, c) ==> Closer(c, d)
  {
    hide Proper, AllWf, Drain.Smaller;
    ProperStreamed(c);
    ProperStreamed(d);
  }

  lemma NotFullWhenSent(o: Out)
    requires |o.control| == MAX_PENDING_CONTROL
    ensures !AllSent(o)
  {
  }

  lemma IdleQuiet(c: Conn)
    requires Idle(c)
    ensures Quieted(c.core.out)
  {
    NothingNext(c.core.out);
  }

  lemma UsedIds(o: Out, used: seq<U16>)
    requires |used| == |o.retained| + |o.release|
    requires forall i | 0 <= i < |o.retained| :: used[i] == o.retained[i].id
    requires forall i | 0 <= i < |o.release| :: used[|o.retained| + i] == o.release[i].id
    ensures forall x: U16 :: x in used <==> Live(o, x)
  {
    forall x: U16 ensures x in used <==> Live(o, x) {
      if x in used {
        var k :| 0 <= k < |used| && used[k] == x;
        if k < |o.retained| {
          assert o.retained[k].id == x;
        } else {
          assert o.release[k - |o.retained|].id == x;
        }
      }
      if HasRetained(o, x) {
        var i :| 0 <= i < |o.retained| && o.retained[i].id == x;
        assert used[i] == x;
      }
      if HasRelease(o, x) {
        var i :| 0 <= i < |o.release| && o.release[i].id == x;
        assert used[|o.retained| + i] == x;
      }
    }
  }

  /** Drawing an identifier moves the cursor only. */
  lemma TakenSame(c: Conn)
    requires Fits(c.core.out)
    ensures TakeId(c).0 == c.(core := c.core.(cursor := TakeId(c).0.core.cursor))
  {
  }

  lemma ChainThree(a: Wire.Fields, b: Wire.Fields, c: Wire.Fields)
    ensures Serializer.Chain([a, b, c]) == a.Then(b.Then(c)) == a.Then(b).Then(c)
  {
    Serializer.ChainOne(c);
    assert [a, b, c][1..] == [b, c] && [b, c][1..] == [c];
    assert Serializer.Chain([b, c]) == b.Then(Serializer.Chain([c]));
    assert Serializer.Chain([a, b, c]) == a.Then(Serializer.Chain([b, c]));
    assert a.bytes + (b.bytes + c.bytes) == (a.bytes + b.bytes) + c.bytes;
  }

  lemma PublishParts(topic: Wire.Text, id: U16, properties: Block)
    ensures Serializer.Chain([Wire.LengthPrefixed(topic), IdField(Some(id)), BlockFields(properties)])
            == PublishFields(topic, Some(id), properties)
  {
    ChainThree(Wire.LengthPrefixed(topic), IdField(Some(id)), BlockFields(properties));
  }

  lemma ListParts(id: U16, properties: Block, list: Wire.Fields)
    ensures Serializer.Chain([Wire.Whole(Be16(id)), BlockFields(properties), list])
            == Wire.Whole(Be16(id)).Then(BlockFields(properties)).Then(list)
  {
    ChainThree(Wire.Whole(Be16(id)), BlockFields(properties), list);
  }

  /** How a public request ends: with an identifier, refused, or cancelled on the way. */
  datatype Outcome = Done(id: Option<PacketId>) | Refused(error: Error) | Cut

  function Granted(a: Result<PacketId, Error>): Result<Option<PacketId>, Error> {
    match a
    case Ok(id) => Ok(Some(id))
    case Err(e) => Err(e)
  }

  /** The result of a request that ends with a drain. */
  function Settled(s: Service, a: Result<Option<PacketId>, Error>): Outcome {
    match s
    case Failure(e) => Refused(e)
    case Suspended => Cut
    case Progress(_) => if a.Ok? then Done(a.value) else Refused(a.error)
  }

  lemma AdmitSameLink(c: Conn, r: Request)
    requires Proper(c) && Fits(c.core.out)
    ensures Admit(c, r).0.link == c.link
  {
    hide Sound, StreamOk, FlushOk, Admit, Reconnect.ReserveOk, Conservation.QuotaOk, InboundOnce.InboundOk;
    AdmitGrows(c, r);
  }

  /** `write_all`. */
  method WriteAll(io: Transport.Io, bytes: seq<Byte>) returns (r: Outcome, ghost written: nat)
    modifies io`outgoing
    ensures written <= |bytes| && io.outgoing == old(io.outgoing) + bytes[..written]
    ensures r.Done? ==> r == Done(None)
    ensures r.Done? <==> written == |bytes|
  {
    var at := 0;
    assert bytes[..0] == [];
    while at < |bytes|
      invariant at <= |bytes| && io.outgoing == old(io.outgoing) + bytes[..at]
    {
      var outcome := io.Write(bytes[at..]);
      match outcome {
        case WriteCancelled => return Cut, at;
        case WriteFailed => return Refused(TransportFailed), at;
        case Wrote(count) =>
          if count == 0 {
            return Refused(WriteZero), at;
          }
          assert bytes[..at] + bytes[at..][..count] == bytes[..at + count];
          at := at + count;
      }
    }
    return Done(None), at;
  }

  /** The QoS 0 PUBLISH a request encodes to, if it fits the scratch space and the broker's limit. */
  function DirectPublish(c: Conn, topic: Wire.Text, properties: Block, retain: bool, payload: Payload)
    : Result<seq<Byte>, Error>
  {
    match EncodePublishInto(ScratchLen(c.core.out), Wire.PublishHeader(Wire.AtMostOnce, retain, false),
                            PublishFields(topic, None, properties), payload)
    case Err(e) => Err(FromPublishError(e))
    case Ok(packet) => if TooLarge(c.rt.maxPacket, |packet|) then Err(PacketTooLarge) else Ok(packet)
  }

  lemma DirectParts(topic: Wire.Text, properties: Block)
    ensures Serializer.Chain([Wire.LengthPrefixed(topic), IdField(None), BlockFields(properties)])
            == PublishFields(topic, None, properties)
  {
    ChainThree(Wire.LengthPrefixed(topic), IdField(None), BlockFields(properties));
  }

  lemma DirectIsPlain(c: Conn, topic: Wire.Text, properties: Block, retain: bool, payload: Payload)
    requires Proper(c) && DirectPublish(c, topic, properties, retain, payload).Ok?
    ensures Unremembered(DirectPublish(c, topic, properties, retain, payload).value)
    ensures !TooLarge(c.rt.maxPacket, |DirectPublish(c, topic, properties, retain, payload).value|)
  {
    hide IsFrame, Sound, StreamOk, FlushOk, Reconnect.ReserveOk, Conservation.QuotaOk, InboundOnce.InboundOk,
         EncodePublishInto, Meaning.Plain;
    Meaning.PlainPublish(retain);
    EncodedPublishIsFrame(ScratchLen(c.core.out), Wire.PublishHeader(Wire.AtMostOnce, retain, false),
                          PublishFields(topic, None, properties), payload);
  }

  const CONTROL_PACKET_WORKSPACE: nat := MAX_FIXED_HEADER_SIZE + 4

  /** The encoded DISCONNECT, in the small buffer used for control packets. */
  function DisconnectPacket(reason: Reason): Result<seq<Byte>, Error> {
    match EncodeInto(CONTROL_PACKET_WORKSPACE, Wire.ControlHeader(Wire.Disconnect), ReasonFields(reason))
    case Err(e) => Err(FromSer(e))
    case Ok(packet) => Ok(packet)
  }

  lemma DisconnectIsPlain(reason: Reason)
    requires DisconnectPacket(reason).Ok?
    ensures Unremembered(DisconnectPacket(reason).value)
  {
    hide IsFrame, EncodeInto, ReasonFields, Meaning.Plain;
    EncodedIntoIsFrame(CONTROL_PACKET_WORKSPACE, Wire.ControlHeader(Wire.Disconnect), ReasonFields(reason));
    Meaning.PlainControl(Wire.Disconnect);
  }

  /** The direct PUBLISH reads back as what was asked for. */
  lemma DirectSays(c: Conn, topic: Wire.Text, properties: Block, retain: bool, payload: Payload)
    requires c.core.out.capacity < 0x1_0000_0000 && DirectPublish(c, topic, properties, retain, payload).Ok?
    ensures var data := payload(Room(ScratchLen(c.core.out), MAX_FIXED_HEADER_SIZE + |PublishFields(topic, None, properties).bytes|));
            && data.Written?
            && Received.FromBuffer(DirectPublish(c, topic, properties, retain, payload).value)
               == Ok(Packet.Publish(topic, None, Received.NormalBlock(properties), data.bytes, retain, Wire.AtMostOnce, false))
  {
    hide EncodePublishInto, Received.FromBuffer, PublishFields, Wire.PublishHeader, Received.NormalBlock;
    Meaning.EncodedDirectReads(ScratchLen(c.core.out), topic, properties, retain, payload);
  }

  /** The DISCONNECT reads back with its reason. */
  lemma DisconnectSays(reason: Reason)
    requires DisconnectPacket(reason).Ok?
    ensures Received.FromBuffer(DisconnectPacket(reason).value) == Ok(Packet.Disconnect(Received.NormalReason(reason)))
  {
    hide Received.FromBuffer, ReasonFields, Received.NormalReason;
    Greetings.EncodedBody(CONTROL_PACKET_WORKSPACE, Wire.ControlHeader(Wire.Disconnect), ReasonFields(reason));
    Received.PacketRoundTrip(Packet.Disconnect(reason));
  }

  lemma NeverNone(s: Service, a: Result<PacketId, Error>)
    ensures Settled(s, Granted(a)) != Done(None)
  {
  }

  /** The list part of a SUBSCRIBE or UNSUBSCRIBE request. */
  ghost predicate Lists(request: Session.Request, kind: OpKind, properties: Block, list: Wire.Fields) {
    match request
    case SubscribeRequest(topics, ps) => kind.Subscribe? && topics != [] && ps == properties && list == TopicFields(topics)
    case UnsubscribeRequest(filters, ps) => kind.Unsubscribe? && filters != [] && ps == properties && list == FilterFields(filters)
    case _ => false
  }

  /** A drain, the admission of the request, and if it was admitted another drain. */
  ghost predicate Requested(c: Conn, d: Conn, request: Session.Request, r: Outcome) {
    exists m: Conn, first: Service :: Drain.Drains(c, m, first) && Answers(m, d, request, first, r)
  }

  ghost predicate Answers(m: Conn, d: Conn, request: Session.Request, first: Service, r: Outcome) {
    if !first.Progress? then d == m && r == Settled(first, Ok(None))
    else
      && Fits(m.core.out)
      && var (e, a) := Admit(m, request);
         if a.Err? then d == e && r == Refused(a.error)
         else exists second: Service :: Drain.Drains(e, d, second) && r == Settled(second, Granted(a))
  }

  lemma RequestedBy(c: Conn, m: Conn, d: Conn, request: Session.Request, first: Service, second: Service, r: Outcome)
    requires Drain.Drains(c, m, first)
    requires !first.Progress? ==> d == m && r == Settled(first, Ok(None))
    requires first.Progress? ==>
               && Fits(m.core.out)
               && var (e, a) := Admit(m, request);
                  if a.Err? then d == e && r == Refused(a.error)
                  else Drain.Drains(e, d, second) && r == Settled(second, Granted(a))
    ensures Requested(c, d, request, r)
  {
    hide Drain.Drains, Admit, Fits, Settled;
    assert Answers(m, d, request, first, r);
  }

  ghost function ListOf(request: Session.Request): U16 -> Wire.Fields {
    match request
    case SubscribeRequest(topics, properties) => (id: U16) => SubscribeFields(id, properties, topics)
    case UnsubscribeRequest(filters, properties) => (id: U16) => UnsubscribeFields(id, properties, filters)
    case _ => (id: U16) => Wire.Whole([])
  }

  datatype Opening = Established(resumed: bool) | NotOpened(error: Error) | Abandoned

  lemma ActivatedRuntime(c: Conn, t: Handshake.Terms, connect: seq<Byte>, now: nat)
    ensures Handshake.Activate(c, t, connect, now).rt.(nextPing := None) ==
            c.rt.(keepalive := t.keepalive, quota := t.quota, maxQuota := t.quota, maxPacket := t.maxPacket,
                  maxQos := t.maxQos, pingTimeout := None, nextPing := None)
  {
  }

  /** The rest of `Handshake.Accept` once the session was resumed or reset. */
  ghost function Agreed(c: Conn, ack: Packet, connect: seq<Byte>, reserve: nat, now: nat): (Conn, Result<bool, Error>)
    requires ack.ConnAck?
  {
    match Handshake.SettleAll(Handshake.Terms(Handshake.LOCAL_QUOTA, None, None, c.rt.keepalive, None),
                              Deserializer.Items(ack.properties), c.clientId != [])
    case None => (HandleDisconnect(c), Err(InvalidPacket))
    case Some(t) => Handshake.Adopt(c, t, connect, reserve, ack.sessionPresent, now)
  }

  lemma AcceptAgrees(c: Conn, ack: Packet, connect: seq<Byte>, reserve: nat, now: nat)
    requires ack.ConnAck?
    ensures Handshake.Accept(c, ack, connect, reserve, now) ==
            if !Success(ack.code) then (c, Err(Rejected(ack.code)))
            else Agreed(if ack.sessionPresent then c else c.(core := Handshake.Reset(c.core)), ack, connect, reserve, now)
  {
    hide Handshake.SettleAll, Deserializer.Items, Handshake.Adopt, HandleDisconnect, Handshake.Reset;
  }

  lemma PreparedSound(c: Conn)
    requires Proper(c)
    ensures var a := Handshake.Prepared(c); Sound(a.core.out) && a.rt.nextPing.None? && !a.link.live
  {
    hide Sound, Quieted, NoFlush, StreamOk, FlushOk, ArmReplay, Items, Reconnect.ReserveOk, Conservation.QuotaOk,
         InboundOnce.InboundOk;
    ArmReplayKeeps(c.core.out);
  }

  lemma ReservedSound(o: Out, len: nat)
    requires Sound(o)
    ensures SetWorkspace(o, len).Some? ==> Sound(SetWorkspace(o, len).value) && SetWorkspace(o, len).value == o.(workspace := len)
  {
    hide AllGood, AllWf, OnePartial;
    if SetWorkspace(o, len).Some? {
      assert Items(SetWorkspace(o, len).value) == Items(o);
    }
  }

  lemma ArmedTwice(o: Out)
    ensures ArmReplay(ArmReplay(o)) == ArmReplay(o)
  {
    var p, q := ArmReplay(o), ArmReplay(ArmReplay(o));
    assert q.control == p.control && q.release == p.release;
    forall i | 0 <= i < |o.retained| ensures q.retained[i] == p.retained[i] {
      MarkedTwice(o.retained[i]);
    }
  }

  lemma MarkedTwice(r: Retained)
    ensures MarkDup(MarkDup(r).(state := Write(0))) == MarkDup(r).(state := Write(0))
  {
    if r.kind.IsPublish() && r.bytes != [] {
      var b := Wire.MarkDuplicate(r.bytes[0]);
      assert Wire.MarkDuplicate(b) == b;
      assert r.bytes[0 := b][0 := b] == r.bytes[0 := b];
    }
  }

  /** Disconnecting once more changes nothing before the handshake has succeeded. */
  lemma DroppedAgain(c: Conn, b: Conn)
    requires b == Handshake.Prepared(c).(core := b.core)
    requires b.core.out == Handshake.Prepared(c).core.out.(workspace := b.core.out.workspace)
    ensures HandleDisconnect(b) == b
  {
    hide Items, Begun, ArmReplay;
    ArmedTwice(c.core.out);
    ArmWorkspace(ArmReplay(c.core.out), b.core.out.workspace);
  }

  lemma ArmWorkspace(o: Out, len: nat)
    ensures ArmReplay(o.(workspace := len)) == ArmReplay(o).(workspace := len)
  {
  }

  class Connection {
    const arena: OutboundArena
    const reader: PacketReader.Reader
    const config: Session.Config
    var io: Transport.Io
    var live: bool
    var flush: FlushState
    var rt: Runtime
    var cursor: PacketId
    var generation: U32
    var serverIds: seq<U16>
    var present: bool
    var clientId: Wire.Text
    ghost var wire: seq<Byte>
    ghost var sent: seq<Message>
    ghost var cut: seq<Byte>
    ghost var inherited: nat
    ghost var inbound: seq<Inbound>
    ghost const origin: Conn

    /** The state this object stands for. */
    ghost function View(): Conn
      requires arena.Valid()
      reads this, arena, arena.buf
    {
      Conn(Core(cursor, generation, arena.View(), serverIds, present, inbound), rt,
           Link(live, flush, wire, sent, cut, inherited), clientId, config)
    }

    /** The parts are in order and, while the connection lives, `wire` is what the transport was given. */
    ghost predicate Framed()
      reads this, arena, reader, reader.buffer, io
    {
      && arena.Valid() && reader.Valid() && arena.buf != reader.buffer
      && (live ==> wire == io.outgoing)
    }

    ghost predicate Valid()
      reads this, arena, arena.buf, reader, reader.buffer, io
    {
      Framed() && Lawful(origin, View())
    }

    /** `Session::new`: nothing in flight, no session, no transport. */
    constructor (tx: array<Byte>, rx: array<Byte>, clientId: Wire.Text, keepalive: nat, config: Session.Config)
      requires tx != rx && tx.Length < 0x1_0000_0000 && config.rxLen == rx.Length
      ensures Valid() && Initial(View()) && !reader.PacketAvailable()
      ensures arena.buf == tx && reader.buffer == rx && fresh(arena) && fresh(reader) && fresh(io)
    {
      hide PacketReader.Inside, FirstPacket, Wire.IsUtf8, Proper, Reaches, Slices, Streamed, Sound, Fits;
      arena := new OutboundArena(tx);
      reader := new PacketReader.Reader(rx);
      io := new Transport.Io();
      this.config, this.clientId := config, clientId;
      live, flush, present, generation, cursor, serverIds := false, Clean, false, 0, 1, [];
      rt := Runtime(keepalive, 0xFFFF, 0xFFFF, None, None, None, None);
      wire, sent, cut, inherited, inbound := [], [], [], 0, [];
      origin := Conn(Core(1, 0, Out(tx.Length, 0, [], [], []), [], false, []),
                     Runtime(keepalive, 0xFFFF, 0xFFFF, None, None, None, None), NoLink, clientId, config);
      new;
      assert View() == origin;
      ReachesSelf(origin);
      InitialProper(origin);
    }

    /**
      * Whatever was called on this object and however its transport behaved, a peer that has read everything
      * given to the live transport has received exactly the packets completed on it, in order.
      */
    lemma PeerHas(chunks: seq<seq<Byte>>, q: PacketReader.Progress, capacity: nat)
      requires Valid() && live && Flatten(chunks) == io.outgoing
      requires PacketReader.Reads(PacketReader.Progress([], []), chunks, q, capacity)
      ensures q == PacketReader.Progress(AllBytes(sent), Begun(Items(arena.View())))
    {
      hide PacketReader.Inside, FirstPacket, Wire.IsUtf8, PacketReader.Reads, Streamed, Begun, Items, Flatten,
           AllBytes, Slices, Reaches, Initial, Reconnect.ReserveOk, Conservation.QuotaOk, InboundOnce.InboundOk;
      PeerView.StreamedReads(View(), chunks, q, capacity);
    }

    lemma LengthsPositive()
      requires arena.Valid() && Sound(arena.View())
      ensures forall k | 0 <= k < |arena.retained| :: arena.retained[k].len > 0
    {
      forall k | 0 <= k < |arena.retained| ensures arena.retained[k].len > 0 {
        assert GoodRetained(arena.View().retained[k]);
      }
    }

    // ------------------------------------------------------------ disconnect

    /** `handle_disconnect`. */
    method Disconnect()
      requires Framed() && Sound(arena.View())
      modifies this, arena, arena.buf, reader
      ensures Framed() && View() == HandleDisconnect(old(View()))
      ensures io == old(io) && !reader.PacketAvailable() && reader.Rx() == []
    {
      hide PacketReader.Inside, FirstPacket, Wire.IsUtf8, Begun, Items, Sound;
      LengthsPositive();
      cut := if live then Begun(Items(arena.View())) else cut;
      live := false;
      arena.ArmReplay();
      rt := rt.(nextPing := None, pingTimeout := None);
      reader.Reset();
    }

    // --------------------------------------------------------------- service

    /** `flush_current`. */
    method FlushNow(now: nat) returns (r: Service, ghost e: Session.Io)
      requires Framed() && Sound(arena.View())
      modifies this, arena, arena.buf, reader
      ensures Framed() && (View(), r) == FlushCurrent(old(View()), now, e)
      ensures io == old(io) && (r.Failure? || unchanged(reader))
      ensures old(!reader.PacketAvailable()) ==> !reader.PacketAvailable()
    {
      hide PacketReader.Inside, FirstPacket, Wire.IsUtf8, Sound, ArmReplay, Outbound.CompleteFlush;
      e := Session.Cancelled;
      if !live {
        return Failure(Disconnected), e;
      }
      flush := Flushing;
      var outcome := io.Flush();
      match outcome {
        case FlushCancelled => return Suspended, Session.Cancelled;
        case FlushFailed =>
          Disconnect();
          return Failure(TransportFailed), Session.Failed;
        case Flushed =>
          arena.CompleteFlush();
          rt := NoteActivity(rt, now);
          flush := Clean;
          return Progress(true), Session.Flushed;
      }
    }

    /** The bytes of the packet a step names. */
    method PacketFor(step: Step, ghost s: Slot) returns (bytes: seq<Byte>)
      requires arena.Valid() && Names(step, arena.View(), s, arena.buf[..])
      ensures bytes == ItemAt(arena.View(), s).bytes
    {
      match step {
        case ControlStep(_, action, _) => bytes := ControlBytes(action);
        case ReleaseStep(id, reason, _) => bytes := ReleaseBytes(id, reason);
        case RetainedStep(_, offset, len, _) => bytes := arena.buf[..][offset..offset + len];
      }
    }

    /** `set_written`. */
    method NoteWritten(step: Step, ghost s: Slot, written: nat, len: nat)
      requires arena.Valid() && UniqueIds(arena.View()) && Names(step, arena.View(), s, arena.buf[..])
      modifies arena
      ensures arena.Valid() && arena.View() == SetSlot(old(arena.View()), s, SetWritten(written, len))
    {
      match step {
        case ControlStep(index, _, _) =>
          var found := arena.SetControlWritten(index, written, len);
        case ReleaseStep(id, _, _) =>
          UniqueRelease(arena.View(), s.index);
          var found := arena.SetReleaseWritten(id, written, len);
        case RetainedStep(id, _, _, _) =>
          UniqueRetained(arena.View(), s.index);
          var found := arena.SetRetainedWritten(id, written, len);
      }
    }

    lemma StepPacket(step: Step, s: Slot)
      requires arena.Valid() && Names(step, arena.View(), s, arena.buf[..])
      ensures SlotIn(arena.View(), s)
      ensures var it := ItemAt(arena.View(), s);
              && it.state == Write(step.written)
              && (it.packet == ControlMessage(Ping) <==> step.ControlStep? && step.action.Ping?)
    {
      hide PacketReader.Inside, FirstPacket, Wire.IsUtf8, ControlBytes, ReleaseBytes;
    }

    /** The bookkeeping after the transport accepted `count` more bytes of `it`. */
    method Record(step: Step, ghost s: Slot, ghost it: Item<Message>, bytes: seq<Byte>, count: nat, now: nat)
      requires arena.Valid() && UniqueIds(arena.View()) && Names(step, arena.View(), s, arena.buf[..])
      requires it == ItemAt(arena.View(), s) && bytes == it.bytes && step.written + count <= |bytes|
      modifies this`flush, this`wire, this`sent, this`rt, arena
      ensures arena.Valid() && arena.View() == AdvanceSlot(old(arena.View()), s, count)
      ensures flush == Dirty && wire == old(wire) + bytes[step.written..step.written + count]
      ensures var done := step.written + count == |bytes|;
              && sent == (if done then old(sent) + [it.packet] else old(sent))
              && rt == (if done && it.packet == ControlMessage(Ping)
                        then old(rt).(pingTimeout := Some(now + ROUND_TRIP_TIMEOUT_MS)) else old(rt))
    {
      hide *;
      StepPacket(step, s);
      var written := step.written + count;
      assert AdvanceSlot(arena.View(), s, count) == SetSlot(arena.View(), s, SetWritten(written, |bytes|)) by {
        AdvanceIsSet(arena.View(), s, count);
      }
      NoteWritten(step, s, written, |bytes|);
      flush := Dirty;
      wire := wire + bytes[step.written..written];
      if written == |bytes| {
        sent := sent + [it.packet];
        if step.ControlStep? && step.action.Ping? {
          rt := rt.(pingTimeout := Some(now + ROUND_TRIP_TIMEOUT_MS));
        }
      }
    }

    /** `perform_outbound_step`. */
    method Perform(step: Step, ghost s: Slot, now: nat) returns (r: Service, ghost e: Session.Io)
      requires Framed() && Sound(arena.View()) && Names(step, arena.View(), s, arena.buf[..])
      modifies this, arena, arena.buf, reader, io
      ensures Framed() && (View(), r) == PerformStep(old(View()), s, now, e)
      ensures io == old(io) && (r.Failure? || unchanged(reader))
      ensures old(!reader.PacketAvailable()) ==> !reader.PacketAvailable()
    {
      hide PacketReader.Inside, FirstPacket, Wire.IsUtf8, Sound, Names, ItemAt, HandleDisconnect, AdvanceSlot, Slices;
      e := Session.Cancelled;
      NamedSlot(step, s);
      ghost var it := ItemAt(arena.View(), s);
      var bytes := PacketFor(step, s);
      if TooLarge(rt.maxPacket, |bytes|) {
        return Failure(PacketTooLarge), e;
      }
      if !live {
        return Failure(Disconnected), e;
      }
      var outcome := io.Write(bytes[step.written..]);
      r, e := AfterOffer(step, s, it, bytes, outcome, now);
    }

    method RecordWrite(step: Step, ghost s: Slot, ghost it: Item<Message>, bytes: seq<Byte>, count: nat, now: nat)
      requires arena.Valid() && UniqueIds(arena.View()) && Names(step, arena.View(), s, arena.buf[..])
      requires it == ItemAt(arena.View(), s) && it.state == Write(step.written) && bytes == it.bytes && step.written + count <= |bytes|
      modifies this`flush, this`wire, this`sent, this`rt, arena
      ensures arena.Valid() && View() == AfterWrite(old(View()), s, count, now)
      ensures wire == old(wire) + bytes[step.written..step.written + count]
    {
      hide UniqueIds, Names, ItemAt, AdvanceSlot, Slices, Wire.IsUtf8;
      Record(step, s, it, bytes, count, now);
    }

    /** What becomes of an offered packet. */
    method AfterOffer(step: Step, ghost s: Slot, ghost it: Item<Message>, bytes: seq<Byte>,
                      outcome: Transport.WriteOutcome, now: nat)
      returns (r: Service, ghost e: Session.Io)
      requires arena.Valid() && reader.Valid() && arena.buf != reader.buffer && live
      requires Sound(arena.View()) && Names(step, arena.View(), s, arena.buf[..])
      requires it == ItemAt(arena.View(), s) && it.Wf() && it.state == Write(step.written) && bytes == it.bytes
      requires outcome.Wrote? ==> step.written + outcome.count <= |bytes|
      requires io.outgoing == wire + (if outcome.Wrote? then bytes[step.written..][..outcome.count] else [])
      modifies this, arena, arena.buf, reader
      ensures Framed() && io == old(io) && (r.Failure? || unchanged(reader))
      ensures old(!reader.PacketAvailable()) ==> !reader.PacketAvailable()
      ensures !e.Flushed? && (e.Wrote? ==> step.written + e.count <= |bytes|)
      ensures var c := old(View());
              if e.Cancelled? then View() == c && r == Suspended
              else if e.Failed? then View() == HandleDisconnect(c) && r == Failure(TransportFailed)
              else if e.count == 0 then View() == HandleDisconnect(c) && r == Failure(WriteZero)
              else View() == AfterWrite(c, s, e.count, now) && r == Progress(true)
    {
      hide PacketReader.Inside, FirstPacket, Wire.IsUtf8, Sound, Names, ItemAt, HandleDisconnect, AdvanceSlot, Slices;
      NamedSlot(step, s);
      match outcome {
        case WriteCancelled => return Suspended, Session.Cancelled;
        case WriteFailed =>
          Disconnect();
          return Failure(TransportFailed), Session.Failed;
        case Wrote(count) =>
          e := Session.Wrote(count);
          if count == 0 {
            assert io.outgoing == wire;
            Disconnect();
            return Failure(WriteZero), e;
          }
          assert bytes[step.written..][..count] == bytes[step.written..step.written + count];
          RecordWrite(step, s, it, bytes, count, now);
          return Progress(true), e;
      }
    }

    lemma NamedSlot(step: Step, s: Slot)
      requires arena.Valid() && Sound(arena.View()) && Names(step, arena.View(), s, arena.buf[..])
      ensures SlotIn(arena.View(), s) && UniqueIds(arena.View())
      ensures var it := ItemAt(arena.View(), s); it.Wf() && it.state == Write(step.written)
    {
      SlotIsGenuine(arena.View(), s);
    }

    /** `should_queue_pingreq`. */
    predicate PingDue(now: nat)
      reads this, arena
    {
      && rt.pingTimeout.None? && rt.nextPing.Some? && now >= rt.nextPing.value
      && !(exists i | 0 <= i < |arena.control| :: arena.control[i].action.Ping? && arena.control[i].state != Sent)
    }

    /** `maybe_queue_pingreq`. */
    method QueuePing(now: nat) returns (r: Result<(), Error>)
      requires Framed()
      modifies arena`control
      ensures Framed()
      ensures match MaybePing(old(View()), now)
              case Ok(d) => r.Ok? && View() == d
              case Err(e) => r == Err(e) && View() == old(View())
    {
      hide PacketReader.Inside, FirstPacket, Wire.IsUtf8, ControlBytes, Slices;
      assert PingDue(now) <==> ShouldPing(View(), now);
      if PingDue(now) {
        if TooLarge(rt.maxPacket, |ControlBytes(Ping)|) {
          return Err(PacketTooLarge);
        }
        var queued := arena.QueueControl(Ping);
        if !queued {
          return Err(InflightExhausted);
        }
      }
      return Ok(());
    }

    /** `service_outbound_once`. */
    method ServiceOutboundOnce(now: nat) returns (r: Service, ghost e: Session.Io)
      requires Valid()
      modifies this, arena, arena.buf, reader, io
      ensures Valid() && (View(), r) == ServiceOnce(old(View()), now, e)
      ensures io == old(io) && (r.Failure? || unchanged(reader))
      ensures old(!reader.PacketAvailable()) ==> !reader.PacketAvailable()
    {
      r, e := ServeQueues(now);
      LawfulStep(origin, old(View()), Service(now, e));
    }

    method ServeQueues(now: nat) returns (r: Service, ghost e: Session.Io)
      requires Valid()
      modifies this, arena, arena.buf, reader, io
      ensures Framed() && (View(), r) == ServiceOnce(old(View()), now, e)
      ensures io == old(io) && (r.Failure? || unchanged(reader))
      ensures old(!reader.PacketAvailable()) ==> !reader.PacketAvailable()
    {
      hide PacketReader.Inside, FirstPacket, Wire.IsUtf8, Streamed, Reconnect.ReserveOk, Conservation.QuotaOk,
           InboundOnce.InboundOk, Sound, PerformStep, FlushCurrent, Reaches, Outbound.NextStep, Names, MaybePing,
           Slices;
      ProperSound(View());
      if flush == Flushing {
        r, e := FlushNow(now);
        return;
      }
      var step := arena.NextStep();
      if step.Some? {
        r, e := Perform(step.value, Outbound.NextStep(arena.View()).value, now);
        return;
      }
      if flush == Dirty {
        r, e := FlushNow(now);
        return;
      }
      e := Session.Cancelled;
      var queued := QueuePing(now);
      if queued.Err? {
        return Failure(queued.error), e;
      }
      PingSound(old(View()), now);
      step := arena.NextStep();
      if step.Some? {
        r, e := Perform(step.value, Outbound.NextStep(arena.View()).value, now);
        return;
      }
      return Progress(false), e;
    }

    /** `flush_outbound`. */
    method FlushOutbound() returns (r: Service)
      requires Valid() && live
      modifies this, arena, arena.buf, reader, io
      ensures Valid() && io == old(io) && Drain.Drains(old(View()), View(), r)
      ensures r.Progress? ==> !r.advanced && live && AllSent(arena.View()) && Idle(View())
      ensures r.Failure? || unchanged(reader)
      ensures old(!reader.PacketAvailable()) ==> !reader.PacketAvailable()
    {
      hide PacketReader.Inside, FirstPacket, Wire.IsUtf8, Proper, Reaches, ServiceOnce, Drain.Serviced, Slices,
           Drain.PingBudget, Drain.BytesLeft, AllSent;
      ghost var start, steps := View(), [];
      assert Drain.Serviced(start, steps, View()) by { NoSteps(start); }
      while true
        invariant Valid() && live && io == old(io) && unchanged(reader)
        invariant Drain.Serviced(start, steps, View())
        decreases Drain.PingBudget(View()), LeftOver(), Drain.FlushRank(flush)
      {
        var now: nat :| true;
        ghost var before := View();
        ProperStreamed(before);
        ghost var e;
        r, e := ServiceOutboundOnce(now);
        ProperStreamed(View());
        if r != Progress(true) {
          if r.Progress? {
            Drain.ServicePlan(before, now, e);
          }
          return;
        }
        Drain.ServicePlan(before, now, e);
        Drain.ServicedSnoc(start, steps, before, now, e);
        steps := steps + [(now, e)];
      }
    }

    ghost function LeftOver(): nat
      requires Valid()
      reads this, arena, arena.buf, reader, reader.buffer, io
    {
      ProperStreamed(View());
      Drain.BytesLeft(arena.View())
    }

    // --------------------------------------------------------------- inbound

    ghost function CoreNow(): Core
      requires arena.Valid()
      reads this, arena, arena.buf
    {
      Core(cursor, generation, arena.View(), serverIds, present, inbound)
    }

    /** Check the size of an acknowledgement, then queue it. */
    method Reply(action: ControlAction) returns (r: Result<(), Error>)
      requires arena.Valid()
      modifies arena`control
      ensures arena.Valid()
      ensures match QueueChecked(old(CoreNow()), rt, action)
              case Ok(core) => r.Ok? && CoreNow() == core
              case Err(e) => r == Err(e) && CoreNow() == old(CoreNow())
    {
      hide PacketReader.Inside, FirstPacket, Wire.IsUtf8, ControlBytes, Slices;
      if TooLarge(rt.maxPacket, |ControlBytes(action)|) {
        return Err(PacketTooLarge);
      }
      var queued := arena.QueueControl(action);
      return if queued then Ok(()) else Err(InflightExhausted);
    }

    /** SUBACK and UNSUBACK. */
    method OnSubAck(kind: OpKind, id: U16, codes: seq<Byte>) returns (h: Handled)
      requires arena.Valid()
      modifies arena, arena.buf
      ensures arena.Valid() && (CoreNow(), h) == HandleSubAck(old(CoreNow()), kind, id, codes)
    {
      hide PacketReader.Inside, FirstPacket, Wire.IsUtf8, FailedCode, FirstFailed, HasOp, Slices;
      var found := arena.AckPacket(kind, id);
      if !found {
        MissingAck(old(CoreNow()).out, kind, id);
        return Quiet;
      }
      h := CheckCodes(codes);
    }

    method OnPubAck(id: U16, code: ReasonCode) returns (h: Handled)
      requires arena.Valid()
      modifies this`rt, arena, arena.buf
      ensures arena.Valid() && (CoreNow(), rt, h) == HandlePubAck(old(CoreNow()), old(rt), id, code)
    {
      hide PacketReader.Inside, FirstPacket, Wire.IsUtf8, HasOp, Slices;
      var found := arena.AckPacket(PublishAtLeastOnce, id);
      if !found {
        MissingAck(old(CoreNow()).out, PublishAtLeastOnce, id);
        return Quiet;
      }
      rt := ReturnQuota(rt);
      return CodeResult(code);
    }

    method OnPubRec(id: U16, code: ReasonCode) returns (h: Handled)
      requires arena.Valid()
      modifies this`rt, arena, arena.buf
      ensures arena.Valid() && (CoreNow(), rt, h) == HandlePubRec(old(CoreNow()), old(rt), id, code)
    {
      hide PacketReader.Inside, FirstPacket, Wire.IsUtf8, HasOp, Slices, ReleaseBytes;
      var found := arena.AckPacket(PublishExactlyOnce, id);
      if !found {
        MissingAck(old(CoreNow()).out, PublishExactlyOnce, id);
        return if exists i | 0 <= i < |arena.release| :: arena.release[i].id == id then CodeResult(code) else Quiet;
      }
      rt := ReturnQuota(rt);
      if !Success(code) {
        return Fail(Rejected(code));
      }
      if TooLarge(rt.maxPacket, |ReleaseBytes(id, SUCCESS)|) {
        return Fail(PacketTooLarge);
      }
      var queued := arena.QueueRelease(id, SUCCESS);
      return if queued then Quiet else Fail(InflightExhausted);
    }

    method OnPubComp(id: U16, code: ReasonCode) returns (h: Handled)
      requires arena.Valid()
      modifies arena
      ensures arena.Valid() && (CoreNow(), h) == HandlePubComp(old(CoreNow()), id, code)
    {
      hide PacketReader.Inside, FirstPacket, Wire.IsUtf8, HasRelease, Slices;
      var found := arena.AckRelease(id);
      if !found {
        MissingRelease(old(CoreNow()).out, id);
        return Quiet;
      }
      return CodeResult(code);
    }

    /** PUBREL. */
    method OnPubRel(id: U16) returns (h: Handled)
      requires arena.Valid()
      modifies this`serverIds, this`inbound, arena`control
      ensures arena.Valid() && (CoreNow(), h) == HandlePubRel(old(CoreNow()), rt, id)
    {
      hide PacketReader.Inside, FirstPacket, Wire.IsUtf8, ControlBytes, Slices, SwapRemove;
      var i := IdPosition(serverIds, id);
      var found := i < |serverIds|;
      if found {
        serverIds := SwapRemove(serverIds, i);
      }
      inbound := inbound + [Released(id)];
      var r := Reply(CompPublish(id, if found then SUCCESS else PACKET_ID_NOT_FOUND));
      return if r.Ok? then Quiet else Fail(r.error);
    }

    /** A QoS 2 PUBLISH. */
    method OnPublish2(id: U16) returns (h: Handled)
      requires arena.Valid()
      modifies this`serverIds, this`inbound, arena`control
      ensures arena.Valid() && (CoreNow(), h) == HandlePublish2(old(CoreNow()), rt, id)
    {
      hide PacketReader.Inside, FirstPacket, Wire.IsUtf8, ControlBytes, Slices;
      var duplicate := id in serverIds;
      var full := !duplicate && |serverIds| >= MAX_INBOUND_QOS2;
      if !duplicate && !full {
        serverIds := serverIds + [id];
      }
      var r := Reply(RecPublish(id, if full then RECEIVE_MAX_EXCEEDED else SUCCESS));
      if r.Err? {
        return Fail(r.error);
      }
      if duplicate || full {
        return Quiet;
      }
      inbound := inbound + [Delivered(id)];
      return Deliver;
    }

    method OnPublish(qos: Wire.QoS, id: Option<U16>) returns (h: Handled)
      requires arena.Valid()
      modifies this`serverIds, this`inbound, arena`control
      ensures arena.Valid() && (CoreNow(), h) == HandlePublish(old(CoreNow()), rt, qos, id)
    {
      hide PacketReader.Inside, FirstPacket, Wire.IsUtf8, ControlBytes, Slices, HandlePublish2;
      match qos {
        case AtMostOnce => return Deliver;
        case AtLeastOnce =>
          if id.None? {
            return Fail(InvalidPacket);
          }
          var r := Reply(AckPublish(id.value, if id.value in serverIds then PACKET_ID_IN_USE else SUCCESS));
          return if r.Ok? then Deliver else Fail(r.error);
        case ExactlyOnce =>
          if id.None? {
            return Fail(InvalidPacket);
          }
          h := OnPublish2(id.value);
      }
    }

    /** `SessionData::handle_packet`. */
    method OnPacket(p: Packet) returns (h: Handled)
      requires arena.Valid()
      modifies this`rt, this`serverIds, this`inbound, arena, arena.buf
      ensures arena.Valid() && (CoreNow(), rt, h) == HandlePacket(old(CoreNow()), old(rt), p)
    {
      hide PacketReader.Inside, FirstPacket, Wire.IsUtf8, HandleSubAck, HandlePubAck, HandlePubRec, HandlePubComp,
           HandlePubRel, HandlePublish, Slices;
      match p {
        case ConnAck(_, _, _) => h := Fail(InvalidPacket);
        case SubAck(id, _, codes) => h := OnSubAck(OpKind.Subscribe, id, codes);
        case UnsubAck(id, _, codes) => h := OnSubAck(OpKind.Unsubscribe, id, codes);
        case PingResp =>
          rt := rt.(pingTimeout := None);
          h := Quiet;
        case PubAck(id, reason) => h := OnPubAck(id, reason.Code());
        case PubRec(id, reason) => h := OnPubRec(id, reason.Code());
        case PubComp(id, reason) => h := OnPubComp(id, reason.Code());
        case PubRel(id, _) => h := OnPubRel(id);
        case Publish(_, id, _, _, _, qos, _) => h := OnPublish(qos, id);
        case Disconnect(_) => h := Fail(Disconnected);
      }
    }

    /** `process_received_packet`, with the conditions under which the drive loop calls it. */
    method ProcessReceived() returns (h: Handled)
      requires Valid() && live && reader.PacketAvailable()
      requires Quieted(arena.View()) && |arena.control| < MAX_PENDING_CONTROL
      modifies this, arena, arena.buf, reader
      ensures Valid() && io == old(io) && !reader.PacketAvailable()
      ensures match Received.FromBuffer(old(reader.Rx()))
              case Ok(p) => (View(), h) == Process(old(View()), p)
              case Err(_) => View() == HandleDisconnect(old(View())) && h == Fail(InvalidPacket)
      ensures live || (h.Fail? && EndsConnection(h))
    {
      hide PacketReader.Inside, FirstPacket, Wire.IsUtf8, Proper, Reaches, Initial, Sound, Quieted, HandlePacket,
           HandleDisconnect, Slices, Fits, Received.FromBuffer;
      ghost var c := View();
      ProperSound(c);
      var taken := reader.TakePacket();
      if taken.Err? {
        Disconnect();
        LawfulStep(origin, c, Event.Drop);
        Drain.DeadAfter(c);
        return Fail(InvalidPacket);
      }
      h := OnPacket(taken.value);
      HandledSound(c, taken.value);
      if EndsConnection(h) {
        Disconnect();
      }
      LawfulStep(origin, c, Receive(taken.value));
      Drain.DeadAfter(View());
    }

    /** `read_packet`. */
    method ReadPacket() returns (r: Option<Error>, cancelled: bool)
      requires Valid()
      modifies this, arena, arena.buf, reader, reader.buffer, io
      ensures Valid() && io == old(io)
      ensures !old(live) ==> r == Some(Disconnected) && !cancelled && View() == old(View()) && unchanged(reader)
      ensures r.None? ==> View() == old(View()) && (cancelled <==> !reader.PacketAvailable())
      ensures old(live) && r.Some? ==>
              View() == HandleDisconnect(old(View())) && !reader.PacketAvailable() && !cancelled
    {
      hide PacketReader.Inside, FirstPacket, Wire.IsUtf8, Proper, Reaches, Initial, Sound, HandleDisconnect, Slices;
      if !live {
        return Some(Disconnected), false;
      }
      ghost var c := View();
      ProperSound(c);
      var fill, chunks := PacketReader.FillPacketReader(reader, io);
      match fill {
        case Filled => return None, false;
        case Cancelled => return None, true;
        case _ =>
          Disconnect();
          LawfulStep(origin, c, Event.Drop);
          return Some(if fill.Closed? then Disconnected else if fill.Failed? then TransportFailed else InvalidPacket), false;
      }
    }

    /** `service`: the keepalive deadline, then the queues. */
    method ServiceNow(now: nat) returns (r: Service, ghost e: Event)
      requires Valid()
      modifies this, arena, arena.buf, reader, io
      ensures Valid() && io == old(io) && (r.Failure? || unchanged(reader))
      ensures old(!reader.PacketAvailable()) ==> !reader.PacketAvailable()
      ensures var late := old(rt.pingTimeout.Some? && now >= rt.pingTimeout.value);
              if late then View() == HandleDisconnect(old(View())) && r == Failure(Disconnected)
              else e.Service? && e.now == now && (View(), r) == ServiceOnce(old(View()), now, e.io)
    {
      hide PacketReader.Inside, FirstPacket, Wire.IsUtf8, Proper, Reaches, Initial, Sound, HandleDisconnect,
           ServiceOnce, Slices;
      e := Event.Drop;
      if rt.pingTimeout.Some? && now >= rt.pingTimeout.value {
        ghost var c := View();
        ProperSound(c);
        Disconnect();
        LawfulStep(origin, c, Event.Drop);
        return Failure(Disconnected), e;
      }
      ghost var outcome;
      r, outcome := ServiceOutboundOnce(now);
      e := Service(now, outcome);
    }

    /**
      * When a received packet waits, no outbound packet is partly written or the control queue is full; the
      * drive loop makes room in the second case.
      */
    ghost predicate Scheduled()
      requires arena.Valid()
      reads this, arena, arena.buf, reader
    {
      reader.PacketAvailable() ==> Quieted(arena.View()) || |arena.control| == MAX_PENDING_CONTROL
    }

    /** When a received packet waits, the connection is live and the next drive takes it without waiting itself. */
    ghost predicate Ready()
      reads this, arena, reader
    {
      reader.PacketAvailable() ==> live && |arena.control| < MAX_PENDING_CONTROL
    }

    /** The drive loop with a received packet and a full control queue: service until there is room. */
    method MakeRoom(now: nat) returns (r: Service)
      requires Valid() && live && |arena.control| == MAX_PENDING_CONTROL
      modifies this, arena, arena.buf, reader, io
      ensures Valid() && io == old(io) && (r.Failure? || unchanged(reader))
      ensures old(!reader.PacketAvailable()) ==> !reader.PacketAvailable()
      ensures Quieted(arena.View()) || |arena.control| == MAX_PENDING_CONTROL
      ensures r.Progress? ==> live && Closer(old(View()), View()) && Works1(old(View()), View())
    {
      hide PacketReader.Inside, FirstPacket, Wire.IsUtf8, Proper, Reaches, Initial, ServiceOnce, Quieted, Slices,
           AllSent, Closer;
      ghost var before, e := View(), Session.Cancelled;
      ProperStreamed(before);
      r, e := ServiceOutboundOnce(now);
      FullService(before, now, e);
      if r.Progress? {
        Drain.ServicePlan(before, now, e);
        NotFullWhenSent(before.core.out);
        CloserWhenSmaller(before, View());
      }
    }

    /** The drive loop without a received packet. */
    method Serve(now: nat) returns (r: Service)
      requires Valid() && live && !reader.PacketAvailable()
      modifies this, arena, arena.buf, reader, io
      ensures Valid() && io == old(io) && !reader.PacketAvailable()
      ensures r.Progress? ==>
                && live
                && if r.advanced then Closer(old(View()), View()) && Works1(old(View()), View())
                   else Idle(View()) && View() == old(View()) && unchanged(reader)
    {
      hide PacketReader.Inside, FirstPacket, Wire.IsUtf8, Proper, Reaches, Initial, ServiceOnce, HandleDisconnect,
           Slices, Closer;
      ghost var before, e := View(), Event.Drop;
      ProperStreamed(before);
      r, e := ServiceNow(now);
      if r.Progress? {
        Drain.ServicePlan(before, now, e.io);
        CloserWhenSmaller(before, View());
      }
    }

    /** The drive loop with a received packet waiting; `None` when there is more to do. */
    method DriveInbound(now: nat) returns (r: Option<Driven>)
      requires Valid() && live && Scheduled() && reader.PacketAvailable()
      modifies this, arena, arena.buf, reader, io
      ensures Valid() && Scheduled() && io == old(io)
      ensures r.Some? ==> !r.value.Waiting? && (r.value.Inbound? ==> live && !reader.PacketAvailable())
      ensures r.None? ==> live && (reader.PacketAvailable() ==> Closer(old(View()), View()))
      ensures old(|arena.control|) < MAX_PENDING_CONTROL ==> !reader.PacketAvailable() && Took(old(View()), old(reader.Rx()), View(), r)
      ensures old(|arena.control|) == MAX_PENDING_CONTROL ==>
                (r.None? ==> unchanged(reader) && Works1(old(View()), View())) && (r.Some? ==> !r.value.Inbound?)
    {
      hide PacketReader.Inside, FirstPacket, Wire.IsUtf8, Proper, Reaches, Initial, Process, Quieted, Slices, Closer,
           HandleDisconnect, Received.FromBuffer;
      ProperSound(View());
      if |arena.control| == MAX_PENDING_CONTROL {
        var served := MakeRoom(now);
        return match served
          case Failure(error) => Some(Broken(error))
          case Suspended => Some(Interrupted)
          case Progress(_) => None;
      }
      var handled := ProcessReceived();
      return match handled
        case Deliver => Some(Inbound)
        case Fail(error) => Some(Broken(error))
        case Quiet => None;
    }

    /** The drive loop without one. */
    method DriveOutbound(now: nat, advanced: bool) returns (r: Option<Driven>, more: bool, ghost moved: bool)
      requires Valid() && live && !reader.PacketAvailable()
      modifies this, arena, arena.buf, reader, io
      ensures Valid() && io == old(io) && !reader.PacketAvailable()
      ensures r.Some? ==> !r.value.Inbound? && (r.value.Waiting? ==> live && Idle(View()) && AllSent(arena.View()))
      ensures r.None? ==> live && Closer(old(View()), View())
      ensures r.None? || r.value.Waiting? ==>
                && more == (advanced || moved)
                && if moved then Works1(old(View()), View()) else View() == old(View())
      ensures r.Some? && r.value.Waiting? ==> r.value.advanced == more
    {
      hide PacketReader.Inside, FirstPacket, Wire.IsUtf8, Proper, Reaches, Initial, Slices, Closer, AllSent,
           Outbound.NextStep, Names, Works1;
      more, moved := advanced, false;
      var served := Serve(now);
      if served.Failure? {
        return Some(Broken(served.error)), more, moved;
      }
      if served.Suspended? {
        return Some(Interrupted), more, moved;
      }
      moved := served.advanced;
      more := advanced || served.advanced;
      var step := arena.NextStep();
      if step.None? && flush == Clean {
        ProperStreamed(View());
        Drain.IdleSent(View());
        return Some(Waiting(more)), more, moved;
      }
      return None, more, moved;
    }

    /**
      * `drive_packet`: hands on the packet that was waiting, if that is for the application; otherwise it stops when
      * nothing is left to do, and reports whether anything was done.
      */
    method DrivePacket() returns (r: Driven)
      requires Valid() && Scheduled()
      modifies this, arena, arena.buf, reader, io
      ensures Valid() && Scheduled() && io == old(io)
      ensures !old(live) ==> r == Broken(Disconnected) && View() == old(View()) && unchanged(reader)
      ensures r.Waiting? ==> live && Idle(View()) && AllSent(arena.View())
      ensures r.Waiting? || r.Inbound? ==> live && !reader.PacketAvailable()
      ensures r.Inbound? ==> old(reader.PacketAvailable()) && Handed(old(View()), old(reader.Rx()), View())
      ensures r.Waiting? && old(!reader.PacketAvailable()) ==> Works(old(View()), View(), r.advanced)
      ensures r.Waiting? && old(reader.PacketAvailable()) ==> r.advanced
      ensures old(Ready()) ==> !reader.PacketAvailable()
    {
      hide PacketReader.Inside, FirstPacket, Wire.IsUtf8, Proper, Reaches, Initial, Quieted, Slices, AllSent, Idle,
           Drain.PingBudget, Drain.BytesLeft, AllWf, Works, Works1, Handed, Process, Received.FromBuffer,
           HandleDisconnect;
      if !live {
        return Broken(Disconnected);
      }
      var advanced := false;
      ghost var c, rx, arrived := View(), reader.Rx(), reader.PacketAvailable();
      WorksNot(c);
      while true
        invariant Valid() && live && Scheduled() && io == old(io)
        invariant old(Ready()) ==> Ready()
        invariant reader.PacketAvailable() ==> arrived && reader.Rx() == rx
        invariant reader.PacketAvailable() || !arrived ==> Works(c, View(), advanced)
        invariant arrived && !reader.PacketAvailable() ==> advanced
        decreases if reader.PacketAvailable() then 1 else 0, Drain.PingBudget(View()), LeftOver(), Drain.FlushRank(flush)
      {
        var now: nat :| true;
        ghost var m, some := View(), advanced;
        var done;
        if reader.PacketAvailable() {
          ghost var full := |arena.control| == MAX_PENDING_CONTROL;
          ControlWithin(m);
          done := DriveInbound(now);
          advanced := true;
          if full {
            WorksAgain(c, m, View(), some);
          } else {
            HandedWhen(c, m, some, rx, View(), done);
          }
        } else {
          ghost var moved;
          done, advanced, moved := DriveOutbound(now, advanced);
          if moved && !arrived {
            WorksAgain(c, m, View(), some);
          }
        }
        if done.Some? {
          return done.value;
        }
      }
    }

    /** One round of `wait_for_progress`: drive, and when that leaves nothing to do, read one packet. */
    method WaitOnce() returns (r: Waited)
      requires Valid() && Scheduled()
      modifies this, arena, arena.buf, reader, reader.buffer, io
      ensures Valid() && Scheduled() && io == old(io)
      ensures r == Arrived ==> live && reader.PacketAvailable() && Idle(View()) && arena.control == []
      ensures r == Message ==>
                && live && !reader.PacketAvailable()
                && old(reader.PacketAvailable()) && Handed(old(View()), old(reader.Rx()), View())
      ensures r == Moved && old(!reader.PacketAvailable()) ==> Works(old(View()), View(), true)
      ensures r == Arrived ==> Works(old(View()), View(), false)
      ensures old(Ready()) ==> Ready() && (r == Arrived || !reader.PacketAvailable())
    {
      hide PacketReader.Inside, FirstPacket, Wire.IsUtf8, Proper, Reaches, Initial, HandleDisconnect, Slices, Quieted,
           Works, Handed;
      var driven := DrivePacket();
      match driven {
        case Inbound => return Message;
        case Broken(error) => return Ended(error);
        case Interrupted => return Stopped;
        case Waiting(advanced) =>
          if advanced {
            return Moved;
          }
          ghost var c := View();
          IdleQuiet(c);
          var failed, cancelled := ReadPacket();
          if failed.Some? {
            return Ended(failed.value);
          }
          return if cancelled then Stopped else Arrived;
      }
    }

    // -------------------------------------------------------------- requests

    /** `next_packet_id`. */
    method DrawId() returns (id: PacketId)
      requires arena.Valid() && Fits(arena.View())
      modifies this`cursor
      ensures (View(), id) == TakeId(old(View()))
    {
      hide PacketReader.Inside, FirstPacket, Wire.IsUtf8, Slices, Live, FreshId;
      ghost var o := arena.View();
      var used := seq(|arena.retained|, i requires 0 <= i < |arena.retained| reads arena => arena.retained[i].id)
                  + seq(|arena.release|, i requires 0 <= i < |arena.release| reads arena => arena.release[i].id);
      UsedIds(o, used);
      var draws;
      id, cursor, draws := NextPacketId(o, used, cursor);
    }

    /** Keep the packet just encoded, unless the broker would refuse its size. */
    method Keep(kind: OpKind, id: PacketId, len: nat, ghost packet: seq<Byte>) returns (r: Result<PacketId, Error>)
      requires arena.Valid() && len == |packet| && arena.Staged(packet)
      modifies arena`retained
      ensures arena.Valid() && (View(), r) == RetainChecked(old(View()), kind, id, packet)
    {
      hide PacketReader.Inside, FirstPacket, Wire.IsUtf8, Slices;
      if TooLarge(rt.maxPacket, len) {
        return Err(PacketTooLarge);
      }
      var kept := arena.RetainPacket(kind, id, len, packet);
      return if kept then Ok(id) else Err(InflightExhausted);
    }

    /** `can_retain`. */
    method RoomToRetain() returns (room: bool)
      requires arena.Valid()
      ensures room == CanRetain(arena.View())
    {
      hide PacketReader.Inside, FirstPacket, Wire.IsUtf8, Slices, Offset;
      SlicesSum(arena.buf[..], arena.retained);
      var used := arena.RetainedLen();
      return |arena.retained| < MAX_RETAINED && arena.buf.Length - arena.workspace - used >= MAX_FIXED_HEADER_SIZE;
    }

    /** Encode a publication behind the retained packets. */
    method EncodePublication(id: PacketId, topic: Wire.Text, properties: Block, header: Byte, payload: Payload)
      returns (r: Result<nat, PublishError>, ghost packet: seq<Byte>)
      requires arena.Valid()
      modifies arena.buf
      ensures arena.Valid() && arena.View() == old(arena.View())
      ensures RetainedBytes(arena.View()) <= RetainedCapacity(arena.View())
      ensures match EncodeRetainedPublish(arena.View(), header, PublishFields(topic, Some(id), properties), payload)
              case Err(e) => r == Err(e)
              case Ok(bytes) => packet == bytes && r == Ok(|packet|) && arena.Staged(packet)
    {
      hide *;
      var parts := [Wire.LengthPrefixed(topic), IdField(Some(id)), BlockFields(properties)];
      PublishParts(topic, id, properties);
      ghost var o := arena.View();
      packet := [];
      r := arena.EncodePublish(header, parts, payload);
      if r.Ok? {
        packet := EncodeRetainedPublish(o, header, PublishFields(topic, Some(id), properties), payload).value;
      }
    }

    /** Encode a publication and keep it, if there is quota and room. */
    method Enqueue(id: PacketId, topic: Wire.Text, properties: Block, qos: Wire.QoS, retain: bool, payload: Payload)
      returns (r: Result<PacketId, Error>)
      requires arena.Valid()
      modifies this`rt, arena, arena.buf
      ensures arena.Valid() && (View(), r) == AdmitUnder(old(View()), id, topic, properties, qos, retain, payload)
    {
      hide PacketReader.Inside, FirstPacket, Wire.IsUtf8, Slices, EncodeRetainedPublish, PublishFields, CanRetain,
           RetainChecked, Wire.PublishHeader, RetainedBytes, Offset, RetainedCapacity, FromPublishError;
      var room := RoomToRetain();
      if |arena.retained| >= MAX_RETAINED {
        return Err(InflightExhausted);
      }
      if rt.quota == 0 || !room {
        return Err(NotReady);
      }
      var encoded, packet := EncodePublication(id, topic, properties, Wire.PublishHeader(qos, retain, false), payload);
      if encoded.Err? {
        return Err(FromPublishError(encoded.error));
      }
      assert View() == old(View());
      r := Spend(if qos.ExactlyOnce? then PublishExactlyOnce else PublishAtLeastOnce, id, encoded.value, packet);
    }

    /** Keep a publication and take one from the quota. */
    method Spend(kind: OpKind, id: PacketId, len: nat, ghost packet: seq<Byte>) returns (r: Result<PacketId, Error>)
      requires arena.Valid() && len == |packet| && arena.Staged(packet) && rt.quota > 0
      modifies this`rt, arena`retained
      ensures arena.Valid() && r == RetainChecked(old(View()), kind, id, packet).1
      ensures var d := RetainChecked(old(View()), kind, id, packet).0;
              View() == if r.Ok? then d.(rt := d.rt.(quota := d.rt.quota - 1)) else d
    {
      hide PacketReader.Inside, FirstPacket, Wire.IsUtf8, Slices, Retain;
      r := Keep(kind, id, len, packet);
      if r.Ok? {
        rt := rt.(quota := rt.quota - 1);
      }
    }

    /** The admission part of `publish` above QoS 0. */
    method AdmitPublication(topic: Wire.Text, properties: Block, qos: Wire.QoS, retain: bool, payload: Payload)
      returns (r: Result<PacketId, Error>)
      requires arena.Valid() && Fits(arena.View()) && !qos.AtMostOnce?
      modifies this`cursor, this`rt, arena, arena.buf
      ensures arena.Valid() && (View(), r) == AdmitPublish(old(View()), topic, properties, qos, retain, payload)
    {
      hide PacketReader.Inside, FirstPacket, Wire.IsUtf8, AdmitUnder, Fits, TakeId, Slices;
      var id := DrawId();
      r := Enqueue(id, topic, properties, qos, retain, payload);
    }

    /** The admission part of `subscribe` and `unsubscribe`. */
    method AdmitList(kind: OpKind, properties: Block, list: Wire.Fields, ghost fields: U16 -> Wire.Fields)
      returns (r: Result<PacketId, Error>)
      requires arena.Valid() && Fits(arena.View())
      requires forall id: U16 :: fields(id) == Wire.Whole(Be16(id)).Then(BlockFields(properties)).Then(list)
      modifies this`cursor, arena, arena.buf
      ensures arena.Valid() && (View(), r) == AdmitFilters(old(View()), kind, fields)
    {
      hide PacketReader.Inside, FirstPacket, Wire.IsUtf8, Slices, EncodeRetained, Fits, TakeId, Serializer.Chain;
      TakenSame(View());
      if |arena.retained| >= MAX_RETAINED {
        return Err(InflightExhausted);
      }
      var id := DrawId();
      var parts := [Wire.Whole(Be16(id)), BlockFields(properties), list];
      ListParts(id, properties, list);
      var header := Wire.ControlHeader(if kind == OpKind.Subscribe then Wire.MessageType.Subscribe else Wire.MessageType.Unsubscribe);
      ghost var o := arena.View();
      var encoded := arena.EncodePacket(header, parts);
      if encoded.Err? {
        return Err(FromSer(encoded.error));
      }
      r := Keep(kind, id, encoded.value, EncodeRetained(o, header, fields(id)).value);
    }

    /** Drain, then report `a` unless the drain failed or was cut short. */
    method Finish(a: Result<Option<PacketId>, Error>) returns (r: Outcome, ghost s: Service)
      requires Valid() && live
      modifies this, arena, arena.buf, reader, io
      ensures Valid() && io == old(io) && Drain.Drains(old(View()), View(), s) && r == Settled(s, a)
      ensures old(!reader.PacketAvailable()) ==> !reader.PacketAvailable()
    {
      hide PacketReader.Inside, FirstPacket, Wire.IsUtf8, Proper, Reaches, Initial, Drain.Drains, Slices, AllSent,
           Idle;
      var drained := FlushOutbound();
      s := drained;
      return Settled(drained, a), s;
    }

    /** `publish` above QoS 0, after the QoS was settled. */
    method PublishRetained(topic: Wire.Text, properties: Block, qos: Wire.QoS, ghost asked: Wire.QoS, retain: bool,
                           payload: Payload)
      returns (r: Outcome, ghost s: Service)
      requires Valid() && live && !reader.PacketAvailable()
      requires EffectiveQos(View(), asked) == Some(qos) && !qos.AtMostOnce? && Fits(arena.View())
      modifies this, arena, arena.buf, reader, io
      ensures Valid() && io == old(io) && !reader.PacketAvailable()
      ensures var (m, a) := Admit(old(View()), PublishRequest(topic, properties, asked, retain, payload));
              Drain.Drains(m, View(), s) && r == Settled(s, Granted(a))
    {
      hide PacketReader.Inside, FirstPacket, Wire.IsUtf8, Proper, Reaches, Initial, Drain.Drains, Slices,
           AdmitPublish, Fits, Settled, EffectiveQos;
      ghost var c := View();
      ghost var request := PublishRequest(topic, properties, asked, retain, payload);
      var admitted := AdmitPublication(topic, properties, qos, retain, payload);
      LawfulStep(origin, c, Ask(request));
      AdmitSameLink(c, request);
      r, s := Finish(Granted(admitted));
    }

    /** Write a whole packet outside the queues, and flush. */
    method Transmit(packet: seq<Byte>) returns (r: Outcome, ghost written: nat)
      requires Framed() && live
      modifies this`wire, this`sent, io
      ensures Framed() && written <= |packet| && (r.Done? ==> r == Done(None) && written == |packet|)
      ensures wire == old(wire) + packet[..written]
      ensures sent == if written == |packet| then old(sent) + [DirectMessage(packet)] else old(sent)
    {
      r, written := WriteAll(io, packet);
      wire := wire + packet[..written];
      if r.Done? {
        sent := sent + [DirectMessage(packet)];
        var flushed := io.Flush();
        r := if flushed.Flushed? then Done(None) else if flushed.FlushFailed? then Refused(TransportFailed) else Cut;
      }
    }

    /** A packet written outside the queues, as `publish` at QoS 0 and `disconnect_with` do. */
    method SendDirect(packet: seq<Byte>, close: bool, now: nat) returns (r: Outcome, ghost written: nat)
      requires Valid() && Idle(View()) && !reader.PacketAvailable()
      requires Unremembered(packet) && !TooLarge(rt.maxPacket, |packet|)
      modifies this, arena, arena.buf, reader, io
      ensures Valid() && io == old(io) && !reader.PacketAvailable() && written <= |packet|
      ensures View() == WriteDirect(old(View()), packet, written, r.Done?, close, now)
      ensures r.Done? ==> r == Done(None) && written == |packet| && live == !close
    {
      hide PacketReader.Inside, FirstPacket, Wire.IsUtf8, Proper, Reaches, Initial, Slices, Unremembered, Sound,
           HandleDisconnect, NoteActivity, Outbound.NextStep, Fits;
      ghost var c := View();
      ProperSound(c);
      r, written := Transmit(packet);
      EndDirect(r.Done? && !close, if written == |packet| then [] else packet[..written], now);
      LawfulStep(origin, c, Direct(packet, written, r.Done?, close, now));
    }

    /** The connection goes on after a direct write, or is over with `rest` of the packet on the transport. */
    method EndDirect(on: bool, ghost rest: seq<Byte>, now: nat)
      requires Framed() && live && Sound(arena.View())
      modifies this, arena, arena.buf, reader
      ensures Framed() && io == old(io) && live == on
      ensures old(!reader.PacketAvailable()) ==> !reader.PacketAvailable()
      ensures var d := old(View());
              var e := HandleDisconnect(d);
              View() == if on then d.(rt := NoteActivity(d.rt, now)) else e.(link := e.link.(cut := rest))
    {
      hide PacketReader.Inside, FirstPacket, Wire.IsUtf8, Slices, Sound, HandleDisconnect, NoteActivity;
      if on {
        rt := NoteActivity(rt, now);
      } else {
        Drain.DeadAfter(View());
        Disconnect();
        cut := rest;
      }
    }

    /** `publish` at QoS 0: drain, encode in the scratch space, write directly. */
    method PublishDirect(topic: Wire.Text, properties: Block, retain: bool, payload: Payload, now: nat)
      returns (r: Outcome, ghost m: Conn, ghost s: Service)
      requires Valid() && live && !reader.PacketAvailable()
      modifies this, arena, arena.buf, reader, io
      ensures Valid() && io == old(io) && !reader.PacketAvailable()
      ensures Drain.Drains(old(View()), m, s) && (s.Failure? || s.Suspended? ==> View() == m && r == Settled(s, Ok(None)))
      ensures s.Progress? && ScratchLen(old(arena.View())) < MAX_FIXED_HEADER_SIZE ==> View() == m && r == Refused(NotReady)
      ensures s.Progress? && ScratchLen(old(arena.View())) >= MAX_FIXED_HEADER_SIZE ==>
                match DirectPublish(m, topic, properties, retain, payload)
                case Err(e) => View() == m && r == Refused(e)
                case Ok(packet) => exists written: nat ::
                  written <= |packet| && View() == WriteDirect(m, packet, written, r.Done?, false, now)
      ensures r.Done? ==> live
    {
      hide PacketReader.Inside, FirstPacket, Wire.IsUtf8, Proper, Reaches, Initial, Drain.Drains, Slices, AllSent,
           DirectPublish, WriteDirect, Unremembered, Outbound.NextStep, SumLen, Offset;
      SlicesSum(arena.buf[..], arena.retained);
      var used := arena.RetainedLen();
      if arena.buf.Length - used < MAX_FIXED_HEADER_SIZE {
        r, s := Finish(Err(NotReady));
        m := View();
        return;
      }
      var drained := FlushOutbound();
      m, s := View(), drained;
      if !drained.Progress? {
        return Settled(drained, Ok(None)), m, s;
      }
      var encoded := EncodeDirect(topic, properties, retain, payload);
      if encoded.Err? {
        return Refused(encoded.error), m, s;
      }
      DirectIsPlain(m, topic, properties, retain, payload);
      ghost var written;
      r, written := SendDirect(encoded.value, false, now);
    }

    method EncodeDirect(topic: Wire.Text, properties: Block, retain: bool, payload: Payload)
      returns (r: Result<seq<Byte>, Error>)
      requires Valid()
      modifies arena.buf
      ensures Valid() && View() == old(View()) && r == DirectPublish(View(), topic, properties, retain, payload)
    {
      hide PacketReader.Inside, FirstPacket, Wire.IsUtf8, Lawful, Slices, EncodePublishInto, PublishFields,
           Serializer.Chain, SumLen, Wire.PublishHeader;
      var parts := [Wire.LengthPrefixed(topic), IdField(None), BlockFields(properties)];
      DirectParts(topic, properties);
      var encoded := arena.EncodeScratchPublish(Wire.PublishHeader(Wire.AtMostOnce, retain, false), parts, payload);
      assert View() == old(View());
      if encoded.Err? {
        return Err(FromPublishError(encoded.error));
      }
      return if TooLarge(rt.maxPacket, |encoded.value|) then Err(PacketTooLarge) else Ok(encoded.value);
    }

    /** The QoS a publication goes out with. */
    method SettleQos(asked: Wire.QoS) returns (q: Option<Wire.QoS>)
      requires arena.Valid()
      ensures q == EffectiveQos(View(), asked)
    {
      if rt.maxQos.Some? && asked.Code() > rt.maxQos.value.Code() {
        return if config.downgradeQos then Some(rt.maxQos.value) else None;
      }
      return Some(asked);
    }

    /** `publish`. */
    method Publish(topic: Wire.Text, properties: Block, asked: Wire.QoS, retain: bool, payload: Payload, now: nat)
      returns (r: Outcome, ghost s: Service)
      requires Valid() && !reader.PacketAvailable()
      modifies this, arena, arena.buf, reader, io
      ensures Valid() && io == old(io) && !reader.PacketAvailable()
      ensures !old(live) ==> r == Refused(Disconnected) && View() == old(View())
      ensures old(live) && EffectiveQos(old(View()), asked).None? ==> r == Refused(InvalidRequest) && View() == old(View())
      ensures old(live) && EffectiveQos(old(View()), asked).Some? && !EffectiveQos(old(View()), asked).value.AtMostOnce? ==>
                && Fits(old(arena.View()))
                && var (m, a) := Admit(old(View()), PublishRequest(topic, properties, asked, retain, payload));
                   Drain.Drains(m, View(), s) && r == Settled(s, Granted(a))
      ensures r == Done(None) ==> EffectiveQos(old(View()), asked) == Some(Wire.AtMostOnce) && live
    {
      hide PacketReader.Inside, FirstPacket, Wire.IsUtf8, Proper, Reaches, Initial, Drain.Drains, Slices, Admit,
           EffectiveQos, Fits, Settled, DirectPublish, SumLen;
      s := Suspended;
      if !live {
        return Refused(Disconnected), s;
      }
      ProperSound(View());
      var q := SettleQos(asked);
      if q.None? {
        return Refused(InvalidRequest), s;
      }
      if q.value.AtMostOnce? {
        ghost var m;
        r, m, s := PublishDirect(topic, properties, retain, payload, now);
      } else {
        r, s := PublishRetained(topic, properties, q.value, asked, retain, payload);
        NeverNone(s, Admit(old(View()), PublishRequest(topic, properties, asked, retain, payload)).1);
      }
    }

    /** The admission of a SUBSCRIBE or UNSUBSCRIBE. */
    method AdmitRequest(kind: OpKind, properties: Block, list: Wire.Fields, ghost request: Session.Request)
      returns (r: Result<PacketId, Error>)
      requires Valid() && live && Fits(arena.View()) && Lists(request, kind, properties, list)
      modifies this, arena, arena.buf
      ensures Valid() && live && io == old(io) && unchanged(reader) && (View(), r) == Admit(old(View()), request)
    {
      hide PacketReader.Inside, FirstPacket, Wire.IsUtf8, Proper, Reaches, Initial, Slices, AdmitFilters, Fits,
           TopicFields, FilterFields, BlockFields;
      ghost var c := View();
      r := AdmitList(kind, properties, list, ListOf(request));
      LawfulStep(origin, c, Ask(request));
      AdmitSameLink(c, request);
    }

    /** `subscribe` and `unsubscribe`: drain, admit, drain again. */
    method Request(kind: OpKind, properties: Block, list: Wire.Fields, ghost request: Session.Request)
      returns (r: Outcome, ghost m: Conn, ghost first: Service, ghost second: Service)
      requires Valid() && live && !reader.PacketAvailable() && Lists(request, kind, properties, list)
      modifies this, arena, arena.buf, reader, io
      ensures Valid() && io == old(io) && !reader.PacketAvailable()
      ensures Drain.Drains(old(View()), m, first)
      ensures !first.Progress? ==> View() == m && r == Settled(first, Ok(None))
      ensures first.Progress? ==>
                && Fits(m.core.out)
                && var (d, a) := Admit(m, request);
                   if a.Err? then View() == d && r == Refused(a.error)
                   else Drain.Drains(d, View(), second) && r == Settled(second, Granted(a))
    {
      hide PacketReader.Inside, FirstPacket, Wire.IsUtf8, Proper, Reaches, Initial, Drain.Drains, Slices, AllSent,
           Idle, Admit, Fits, Settled, Lists;
      var drained := FlushOutbound();
      m, first, second := View(), drained, drained;
      if !drained.Progress? {
        return Settled(drained, Ok(None)), m, first, second;
      }
      ProperSound(m);
      var admitted := AdmitRequest(kind, properties, list, request);
      if admitted.Err? {
        return Refused(admitted.error), m, first, second;
      }
      r, second := Finish(Granted(admitted));
    }

    /** `subscribe`, after the validity checks on properties. */
    method Subscribe(topics: seq<(Wire.Text, Byte)>, properties: Block) returns (r: Outcome)
      requires Valid() && !reader.PacketAvailable()
      modifies this, arena, arena.buf, reader, io
      ensures Valid() && io == old(io) && !reader.PacketAvailable()
      ensures !old(live) ==> r == Refused(Disconnected) && View() == old(View())
      ensures old(live) && topics == [] ==> r == Refused(InvalidRequest) && View() == old(View())
      ensures old(live) && topics != [] ==> Requested(old(View()), View(), SubscribeRequest(topics, properties), r)
    {
      hide PacketReader.Inside, FirstPacket, Wire.IsUtf8, Proper, Reaches, Initial, Drain.Drains, Slices, Admit, Fits,
           Settled, TopicFields;
      if !live {
        return Refused(Disconnected);
      }
      if topics == [] {
        return Refused(InvalidRequest);
      }
      ghost var request := SubscribeRequest(topics, properties);
      ghost var m, first, second;
      r, m, first, second := Request(OpKind.Subscribe, properties, TopicFields(topics), request);
      RequestedBy(old(View()), m, View(), request, first, second, r);
    }

    /** `unsubscribe`, likewise. */
    method Unsubscribe(filters: seq<Wire.Text>, properties: Block) returns (r: Outcome)
      requires Valid() && !reader.PacketAvailable()
      modifies this, arena, arena.buf, reader, io
      ensures Valid() && io == old(io) && !reader.PacketAvailable()
      ensures !old(live) ==> r == Refused(Disconnected) && View() == old(View())
      ensures old(live) && filters == [] ==> r == Refused(InvalidRequest) && View() == old(View())
      ensures old(live) && filters != [] ==> Requested(old(View()), View(), UnsubscribeRequest(filters, properties), r)
    {
      hide PacketReader.Inside, FirstPacket, Wire.IsUtf8, Proper, Reaches, Initial, Drain.Drains, Slices, Admit, Fits,
           Settled, FilterFields;
      if !live {
        return Refused(Disconnected);
      }
      if filters == [] {
        return Refused(InvalidRequest);
      }
      ghost var request := UnsubscribeRequest(filters, properties);
      ghost var m, first, second;
      r, m, first, second := Request(OpKind.Unsubscribe, properties, FilterFields(filters), request);
      RequestedBy(old(View()), m, View(), request, first, second, r);
    }

    method EncodeDisconnect(reason: Reason) returns (r: Result<seq<Byte>, Error>)
      ensures r == DisconnectPacket(reason)
    {
      hide EncodeInto, ReasonFields, Serializer.Chain;
      var buffer := new Byte[CONTROL_PACKET_WORKSPACE];
      Serializer.ChainOne(ReasonFields(reason));
      var encoded := Serializer.EncodeWithOffset(buffer, 0, CONTROL_PACKET_WORKSPACE,
                                                 Wire.ControlHeader(Wire.Disconnect), [ReasonFields(reason)]);
      if encoded.Err? {
        return Err(FromSer(encoded.error));
      }
      return Ok(buffer[..][encoded.value.0..encoded.value.0 + encoded.value.1]);
    }

    /** `disconnect_with`. */
    method CloseWith(reason: Reason, now: nat) returns (r: Outcome)
      requires Valid() && !reader.PacketAvailable()
      modifies this, arena, arena.buf, reader, io
      ensures Valid() && io == old(io) && !reader.PacketAvailable()
      ensures !old(live) ==> r == Done(None) && View() == old(View())
      ensures old(live) && DisconnectPacket(reason).Err? ==>
                r == Refused(DisconnectPacket(reason).error) && View() == old(View())
      ensures r.Done? ==> !live
      ensures r == Done(None) && old(live) ==>
                && DisconnectPacket(reason).Ok?
                && wire == Flatten(AllBytes(sent)) && |sent| > 0
                && sent[|sent| - 1] == DirectMessage(DisconnectPacket(reason).value)
    {
      hide PacketReader.Inside, FirstPacket, Wire.IsUtf8, Proper, Reaches, Initial, Drain.Drains, Slices, AllSent,
           Unremembered, Outbound.NextStep, Flatten, AllBytes, ArmReplay, Items, Begun, DisconnectPacket;
      if !live {
        return Done(None);
      }
      var encoded := EncodeDisconnect(reason);
      if encoded.Err? {
        return Refused(encoded.error);
      }
      var packet := encoded.value;
      if TooLarge(rt.maxPacket, |packet|) {
        return Refused(PacketTooLarge);
      }
      ghost var c := View();
      var drained := FlushOutbound();
      if !drained.Progress? {
        return Settled(drained, Ok(None));
      }
      ghost var m := View();
      ProperStreamed(c);
      Drain.DrainsAll(c, m);
      Drain.DrainsLimit(c, m, drained);
      DisconnectIsPlain(reason);
      ghost var written;
      r, written := SendDirect(packet, true, now);
      SentSnoc(m.link.sent, DirectMessage(packet));
    }

    // ------------------------------------------------------------- handshake

    /** The resets at the start of `connect`. */
    method Prepare(transport: Transport.Io)
      requires Framed() && Sound(arena.View())
      modifies this`io, this`live, this`flush, this`rt, this`wire, this`sent, this`cut, this`inherited
      modifies arena, arena.buf, reader
      ensures Framed() && arena.View() == ArmReplay(old(arena.View())) && rt == ResetTransport(old(rt))
      ensures Link(live, flush, wire, sent, cut, inherited) == NoLink
      ensures io == transport && !reader.PacketAvailable()
    {
      hide PacketReader.Inside, FirstPacket, Slices, Sound, ArmReplay;
      LengthsPositive();
      io := transport;
      live, flush := false, Clean;
      wire, sent, cut, inherited := [], [], [], 0;
      reader.Reset();
      rt := rt.(nextPing := None, pingTimeout := None);
      arena.ArmReplay();
    }

    method ConnectParts() returns (fields: Wire.Fields)
      requires arena.Valid()
      ensures fields == Handshake.ConnectBody(View())
    {
      hide PacketReader.Inside, FirstPacket, Wire.IsUtf8, ConnectFields;
      var properties := Slice([MaximumPacketSize(TruncateU32(config.rxLen)), SessionExpiryInterval(config.expiry),
                               ReceiveMaximum(MAX_INBOUND_QOS2)]);
      return ConnectFields(!present, rt.keepalive / 1000 % 0x1_0000, properties, clientId, config.will, config.auth);
    }

    /** Encode the CONNECT in the scratch space, send it, and reserve the space it took for the next one. */
    method Greet() returns (r: Result<seq<Byte>, Outcome>, ghost unsent: bool)
      requires Framed() && !live && io.outgoing == []
      modifies arena, arena.buf, io
      ensures Framed() && !reader.PacketAvailable() == old(!reader.PacketAvailable())
      ensures var a := old(View());
              match EncodeInto(ScratchLen(a.core.out), Wire.ControlHeader(Wire.MessageType.Connect), Handshake.ConnectBody(a))
              case Err(e) => View() == a && r == Err(Refused(FromSer(e)))
              case Ok(packet) =>
                if unsent then View() == a && r.Err? && !r.error.Done?
                else match SetWorkspace(a.core.out, Handshake.ConnectNeed(a))
                  case None => View() == a && r == Err(Refused(BufferTooSmall))
                  case Some(o) => View() == WithOut(a, o) && r == Ok(packet) && io.outgoing == packet
    {
      hide PacketReader.Inside, FirstPacket, Wire.IsUtf8, Slices, EncodeInto, Handshake.ConnectBody, Serializer.Chain,
           SetWorkspace, SumLen;
      unsent := false;
      var fields := ConnectParts();
      Serializer.ChainOne(fields);
      var encoded := arena.EncodeScratch(Wire.ControlHeader(Wire.MessageType.Connect), [fields]);
      if encoded.Err? {
        return Err(Refused(FromSer(encoded.error))), unsent;
      }
      var (offset, packet) := encoded.value;
      unsent := true;
      var all, written := WriteAll(io, packet);
      if !all.Done? {
        return Err(all), unsent;
      }
      var flushed := io.Flush();
      if !flushed.Flushed? {
        return Err(if flushed.FlushFailed? then Refused(TransportFailed) else Cut), unsent;
      }
      unsent := false;
      var kept := arena.SetConnectWorkspace(offset + |packet|);
      return if kept then Ok(packet) else Err(Refused(BufferTooSmall)), unsent;
    }

    /** Wait for the broker's first packet. */
    method AwaitAnswer() returns (r: Option<Packet>, cancelled: bool)
      requires Framed() && !live && !reader.PacketAvailable() && Sound(arena.View())
      modifies this, arena, arena.buf, reader, reader.buffer, io
      ensures Framed() && !reader.PacketAvailable() && io == old(io) && io.outgoing == old(io.outgoing)
      ensures r.Some? ==> View() == old(View())
      ensures r.None? ==> View() == if cancelled then old(View()) else HandleDisconnect(old(View()))
    {
      hide PacketReader.Inside, FirstPacket, Wire.IsUtf8, Slices, Sound, HandleDisconnect;
      var fill, chunks := PacketReader.FillPacketReader(reader, io);
      match fill {
        case Cancelled => return None, true;
        case Filled =>
          var taken := reader.TakePacket();
          if taken.Ok? {
            return Some(taken.value), false;
          }
          Disconnect();
          return None, false;
        case _ =>
          Disconnect();
          return None, false;
      }
    }

    /** `SessionData::reset`. */
    method ForgetSession()
      requires arena.Valid()
      modifies this`generation, this`cursor, this`serverIds, this`present, this`inbound, arena
      ensures arena.Valid() && arena.View() == Outbound.Clear(old(arena.View()))
      ensures !present && cursor == 1 && generation == TruncateU32(old(generation) + 1) && serverIds == [] && inbound == []
    {
      hide Slices, Outbound.Clear;
      present, cursor, serverIds, inbound := false, 1, [], [];
      generation := TruncateU32(generation + 1);
      arena.ClearInflight();
    }

    /** The commit at the end of `connect_handshake`. */
    method Commit(t: Handshake.Terms, connect: seq<Byte>, now: nat)
      requires arena.Valid()
      modifies this`rt, this`present, this`clientId, this`live, this`flush, this`wire, this`sent, this`cut, this`inherited
      ensures rt == NoteActivity(old(rt).(keepalive := t.keepalive, quota := t.quota, maxQuota := t.quota,
                                          maxPacket := t.maxPacket, maxQos := t.maxQos, pingTimeout := None), now)
      ensures present && live && clientId == if t.granted.Some? then t.granted.value else old(clientId)
      ensures Link(live, flush, wire, sent, cut, inherited)
              == Link(true, Clean, connect, [DirectMessage(connect)], [], Handshake.Publishes(arena.View().retained))
    {
      hide Slices, NoteActivity, Handshake.Publishes, Wire.IsUtf8;
      rt := rt.(keepalive := t.keepalive, quota := t.quota, maxQuota := t.quota, maxPacket := t.maxPacket, maxQos := t.maxQos,
                pingTimeout := None);
      rt := NoteActivity(rt, now);
      present := true;
      if t.granted.Some? {
        clientId := t.granted.value;
      }
      live, flush := true, Clean;
      wire, sent, cut, inherited := connect, [DirectMessage(connect)], [], Handshake.Publishes(arena.View().retained);
    }

    /** The end of `connect_handshake`, from the agreed terms on. */
    method Adopt(t: Handshake.Terms, connect: seq<Byte>, reserve: nat, resumed: bool, now: nat) returns (r: Result<bool, Error>)
      requires Framed() && !live && rt.nextPing.None? && io.outgoing == connect
      modifies this, arena
      ensures Framed() && io == old(io)
      ensures (View(), r) == Handshake.Adopt(old(View()), t, connect, reserve, resumed, now)
    {
      hide PacketReader.Inside, FirstPacket, Wire.IsUtf8, Slices, SetWorkspace, NoteActivity, Handshake.Publishes;
      if t.granted.Some? {
        var kept := arena.SetConnectWorkspace(reserve + |t.granted.value|);
        if !kept {
          ActivatedRuntime(View(), t, connect, now);
          rt := rt.(keepalive := t.keepalive, quota := t.quota, maxQuota := t.quota, maxPacket := t.maxPacket, maxQos := t.maxQos,
                    pingTimeout := None);
          return Err(BufferTooSmall);
        }
      }
      Commit(t, connect, now);
      return Ok(resumed);
    }

    /** From a parsed CONNACK on. */
    method AcceptAck(ack: Packet, connect: seq<Byte>, reserve: nat, now: nat) returns (r: Result<bool, Error>)
      requires Framed() && !live && !reader.PacketAvailable() && ack.ConnAck? && rt.nextPing.None?
      requires Sound(arena.View()) && io.outgoing == connect
      modifies this, arena, arena.buf, reader
      ensures Framed() && !reader.PacketAvailable() && io == old(io)
      ensures (View(), r) == Handshake.Accept(old(View()), ack, connect, reserve, now)
    {
      hide PacketReader.Inside, FirstPacket, Wire.IsUtf8, Slices, Sound, Agreed, Outbound.Clear, Handshake.Accept,
           Quieted, NoFlush;
      AcceptAgrees(View(), ack, connect, reserve, now);
      if !Success(ack.code) {
        return Err(Rejected(ack.code));
      }
      if !ack.sessionPresent {
        ClearKeeps(arena.View());
        ForgetSession();
      }
      r := Agree(ack, connect, reserve, now);
    }

    /** The loop over the CONNACK properties, and what it settles. */
    method Agree(ack: Packet, connect: seq<Byte>, reserve: nat, now: nat) returns (r: Result<bool, Error>)
      requires Framed() && !live && !reader.PacketAvailable() && ack.ConnAck? && rt.nextPing.None?
      requires Sound(arena.View()) && io.outgoing == connect
      modifies this, arena, arena.buf, reader
      ensures Framed() && !reader.PacketAvailable() && io == old(io)
      ensures (View(), r) == Agreed(old(View()), ack, connect, reserve, now)
    {
      hide PacketReader.Inside, FirstPacket, Wire.IsUtf8, Slices, Sound, HandleDisconnect, Handshake.SettleAll,
           Handshake.Adopt, Deserializer.Items;
      var items := Deserializer.Items(ack.properties);
      var settled := Handshake.Negotiate(Handshake.Terms(Handshake.LOCAL_QUOTA, None, None, rt.keepalive, None), items, clientId != []);
      if settled.None? {
        Disconnect();
        return Err(InvalidPacket);
      }
      r := Adopt(settled.value, connect, reserve, ack.sessionPresent, now);
    }

    /** What the broker's first packet leads to. */
    method Conclude(p: Packet, connect: seq<Byte>, now: nat) returns (r: Result<bool, Error>)
      requires Framed() && !live && !reader.PacketAvailable() && rt.nextPing.None?
      requires Sound(arena.View()) && io.outgoing == connect
      modifies this, arena, arena.buf, reader
      ensures Framed() && !reader.PacketAvailable() && io == old(io)
      ensures if p.ConnAck? then (View(), r) == Handshake.Accept(old(View()), p, connect, old(arena.workspace), now)
              else View() == HandleDisconnect(old(View())) && r == Err(if p.Disconnect? then Disconnected else InvalidPacket)
    {
      hide PacketReader.Inside, FirstPacket, Wire.IsUtf8, Slices, Sound, HandleDisconnect, Handshake.Accept;
      if p.ConnAck? {
        r := AcceptAck(p, connect, arena.workspace, now);
      } else {
        Disconnect();
        r := Err(if p.Disconnect? then Disconnected else InvalidPacket);
      }
    }

    /** The exchange after the local resets. */
    method Exchange(ghost c: Conn, now: nat) returns (r: Opening, ghost answer: Handshake.Answer)
      requires Framed() && Proper(c) && View() == Handshake.Prepared(c) && io.outgoing == [] && !reader.PacketAvailable()
      modifies this, arena, arena.buf, reader, reader.buffer, io
      ensures Framed() && io == old(io) && !reader.PacketAvailable()
      ensures View() == Handshake.Connect(c, answer, now).0
      ensures match Handshake.Connect(c, answer, now).1
              case Ok(resumed) => r == Established(resumed)
              case Err(e) => !r.Established? && (answer.Answered? ==> r == NotOpened(e))
    {
      hide PacketReader.Inside, FirstPacket, Wire.IsUtf8, Proper, Slices, Sound, HandleDisconnect, EncodeInto,
           Handshake.ConnectBody, Handshake.ConnectNeed, SetWorkspace, Handshake.Accept, Handshake.Prepared;
      ghost var a := View();
      PreparedSound(c);
      ghost var unsent;
      var greeted;
      greeted, unsent := Greet();
      answer := if unsent then Handshake.Unsent else Handshake.Unanswered;
      if greeted.Err? {
        return if greeted.error.Refused? then NotOpened(greeted.error.error) else Abandoned, answer;
      }
      ReservedSound(a.core.out, Handshake.ConnectNeed(a));
      DroppedAgain(c, View());
      var packet, cancelled := AwaitAnswer();
      if packet.None? {
        return if cancelled then Abandoned else NotOpened(Disconnected), answer;
      }
      answer := Handshake.Answered(packet.value);
      var result := Conclude(packet.value, greeted.value, now);
      return if result.Ok? then Established(result.value) else NotOpened(result.error), answer;
    }

    /** `Session::connect` on a new transport. */
    method Connect(transport: Transport.Io, now: nat) returns (r: Opening, ghost answer: Handshake.Answer)
      requires Valid() && transport.outgoing == []
      modifies this, arena, arena.buf, reader, reader.buffer, transport
      ensures Valid() && io == transport && !reader.PacketAvailable()
      ensures View() == Handshake.Connect(old(View()), answer, now).0
      ensures match Handshake.Connect(old(View()), answer, now).1
              case Ok(resumed) => r == Established(resumed)
              case Err(e) => !r.Established? && (answer.Answered? ==> r == NotOpened(e))
    {
      hide PacketReader.Inside, FirstPacket, Wire.IsUtf8, Proper, Reaches, Initial, Slices, Sound, Handshake.Connect,
           ArmReplay;
      ghost var c := View();
      ProperSound(c);
      Prepare(transport);
      assert View() == Handshake.Prepared(c);
      r, answer := Exchange(c, now);
      LawfulStep(origin, c, Open(answer, now));
    }
  }
}
