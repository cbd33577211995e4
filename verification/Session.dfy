/**
  * The session as a step machine on values (minimq/src/mqtt_client/session). Every transport call is
  * one step with an arbitrary outcome, so a run covers all partial writes, failures and cancellations.
  */
module Session {
  import opened Bytes
  import opened Packets
  import opened Properties
  import opened Schedule
  import opened Outbound
  import opened PacketIds
  import opened Wire
  import OutboundLaws

  const ROUND_TRIP_TIMEOUT_MS: nat := 5_000
  const MAX_INBOUND_QOS2: nat := 8
  const CLIENT_ID_CAPACITY: nat := 64

  datatype Error =
    | NotReady | Disconnected | InvalidRequest | Rejected(code: ReasonCode) | InvalidPacket
    | BufferTooSmall | PacketTooLarge | InflightExhausted | TransportFailed | WriteZero | PayloadRefused

  // --------------------------------------------------------------- state

  /** `RuntimeState`; instants and durations in milliseconds. */
  datatype Runtime = Runtime(
    keepalive: nat,
    quota: nat,
    maxQuota: nat,
    maxPacket: Option<U32>,
    maxQos: Option<QoS>,
    nextPing: Option<nat>,
    pingTimeout: Option<nat>)

  /** What the application has seen of inbound QoS 2 traffic in this session generation. */
  datatype Inbound = Delivered(id: U16) | Released(id: U16)

  /** `SessionData`, with the inbound QoS 2 history. */
  datatype Core = Core(
    cursor: PacketId,
    generation: U32,
    out: Out,
    serverIds: seq<U16>,
    present: bool,
    inbound: seq<Inbound>)

  datatype FlushState = Clean | Dirty | Flushing

  /**
    * One transport: `wire` is every byte given to it and `sent` the packets completed on it. Once it
    * is dead, `cut` is the part of a packet it ended with. `inherited` counts the publications that
    * were already in flight when it was opened.
    */
  datatype Link = Link(
    live: bool,
    flush: FlushState,
    wire: seq<Byte>,
    sent: seq<Message>,
    cut: seq<Byte>,
    inherited: nat)

  /** The fixed part of a session's configuration. */
  datatype Config = Config(rxLen: nat, expiry: U32, will: Option<Will>, auth: Option<Auth>, downgradeQos: bool)

  datatype Conn = Conn(core: Core, rt: Runtime, link: Link, clientId: Text, config: Config)

  const NoLink := Link(false, Clean, [], [], [], 0)

  // -------------------------------------------------------------- timing

  /** `keepalive_send_interval`. */
  function SendInterval(keepalive: nat): Option<nat> {
    if keepalive == 0 then None
    else Some(keepalive - Min(ROUND_TRIP_TIMEOUT_MS, keepalive / 2))
  }

  function NoteActivity(rt: Runtime, now: nat): Runtime {
    var i := SendInterval(rt.keepalive);
    rt.(nextPing := if i.None? then None else Some(now + i.value))
  }

  function ResetTransport(rt: Runtime): Runtime {
    rt.(nextPing := None, pingTimeout := None)
  }

  predicate TooLarge(maxPacket: Option<U32>, len: nat) {
    maxPacket.Some? && len > maxPacket.value
  }

  // ---------------------------------------------------------- disconnect

  /** `handle_disconnect`: the transport is dead and everything pending is armed for replay. */
  function HandleDisconnect(c: Conn): Conn
  {
    c.(core := c.core.(out := ArmReplay(c.core.out)),
       rt := ResetTransport(c.rt),
       link := c.link.(live := false, cut := if c.link.live then Begun(Items(c.core.out)) else c.link.cut))
  }

  // ------------------------------------------------------ outbound service

  /** What the transport does with the call a step makes. */
  datatype Io = Wrote(count: nat) | Flushed | Failed | Cancelled

  datatype Service = Progress(advanced: bool) | Failure(error: Error) | Suspended

  function WithOut(c: Conn, o: Out): Conn {
    c.(core := c.core.(out := o))
  }

  /** `flush_current`. */
  function FlushCurrent(c: Conn, now: nat, io: Io): (Conn, Service)
  {
    if !c.link.live then (c, Failure(Disconnected))
    else
      var f := c.(link := c.link.(flush := Flushing));
      if io.Flushed? then
        (c.(core := c.core.(out := CompleteFlush(c.core.out)),
            rt := NoteActivity(c.rt, now),
            link := c.link.(flush := Clean)),
         Progress(true))
      else if io.Cancelled? then (f, Suspended)
      else (HandleDisconnect(f), Failure(TransportFailed))
  }

  /** The connection after the transport accepted `count` more bytes of a slot's packet. */
  function AfterWrite(c: Conn, s: Slot, count: nat, now: nat): Conn
    requires SlotIn(c.core.out, s) && ItemAt(c.core.out, s).state.Write?
    requires ItemAt(c.core.out, s).state.written + count <= |ItemAt(c.core.out, s).bytes|
  {
    var it := ItemAt(c.core.out, s);
    var w := it.state.written;
    var done := w + count == |it.bytes|;
    Conn(c.core.(out := OutboundLaws.AdvanceSlot(c.core.out, s, count)),
         if done && it.packet == ControlMessage(Ping)
         then c.rt.(pingTimeout := Some(now + ROUND_TRIP_TIMEOUT_MS)) else c.rt,
         c.link.(flush := Dirty,
                 wire := c.link.wire + it.bytes[w..w + count],
                 sent := if done then c.link.sent + [it.packet] else c.link.sent),
         c.clientId, c.config)
  }

  /** A transport accepts at most what it is offered. */
  function Taken(io: Io, it: Item<Message>): nat {
    if io.Wrote? && it.state.Write? && it.Wf() then
      if io.count <= |it.bytes| - it.state.written then io.count else |it.bytes| - it.state.written
    else 0
  }

  /** `perform_outbound_step`: offer the rest of one packet to the transport. */
  function PerformStep(c: Conn, s: Slot, now: nat, io: Io): (Conn, Service)
    requires SlotIn(c.core.out, s) && ItemAt(c.core.out, s).state.Write?
  {
    var it := ItemAt(c.core.out, s);
    var count := Taken(io, it);
    if TooLarge(c.rt.maxPacket, |it.bytes|) then (c, Failure(PacketTooLarge))
    else if !c.link.live then (c, Failure(Disconnected))
    else if io.Cancelled? then (c, Suspended)
    else if !io.Wrote? then (HandleDisconnect(c), Failure(TransportFailed))
    else if count == 0 then (HandleDisconnect(c), Failure(WriteZero))
    else (AfterWrite(c, s, count, now), Progress(true))
  }

  /** `should_queue_pingreq`. */
  predicate ShouldPing(c: Conn, now: nat) {
    && c.rt.pingTimeout.None?
    && c.rt.nextPing.Some? && now >= c.rt.nextPing.value
    && !HasPendingPing(c.core.out)
  }

  /** `maybe_queue_pingreq`. */
  function MaybePing(c: Conn, now: nat): Result<Conn, Error> {
    if !ShouldPing(c, now) then Ok(c)
    else if TooLarge(c.rt.maxPacket, |ControlBytes(Ping)|) then Err(PacketTooLarge)
    else match QueueControl(c.core.out, Ping)
      case None => Err(InflightExhausted)
      case Some(o) => Ok(WithOut(c, o))
  }

  function StepOr(c: Conn, now: nat, io: Io, otherwise: (Conn, Service)): (Conn, Service)
  {
    match NextStep(c.core.out)
    case None => otherwise
    case Some(s) => OutboundLaws.NextStepWritable(c.core.out); PerformStep(c, s, now, io)
  }

  /** `service_outbound_once`: resume a flush, else write, else flush, else consider a ping. */
  function ServiceOnce(c: Conn, now: nat, io: Io): (Conn, Service)
  {
    if c.link.flush.Flushing? then FlushCurrent(c, now, io)
    else if NextStep(c.core.out).Some? then StepOr(c, now, io, (c, Progress(false)))
    else if c.link.flush.Dirty? then FlushCurrent(c, now, io)
    else match MaybePing(c, now)
      case Err(e) => (c, Failure(e))
      case Ok(d) => StepOr(d, now, io, (d, Progress(false)))
  }

  // ------------------------------------------------------------- inbound

  datatype Handled = Deliver | Quiet | Fail(error: Error)

  /** A publication acknowledged: its quota comes back, up to the negotiated maximum. */
  function ReturnQuota(rt: Runtime): Runtime {
    rt.(quota := Min(rt.quota + 1, rt.maxQuota))
  }

  function QueueChecked(core: Core, rt: Runtime, action: ControlAction): Result<Core, Error> {
    if TooLarge(rt.maxPacket, |ControlBytes(action)|) then Err(PacketTooLarge)
    else match QueueControl(core.out, action)
      case None => Err(InflightExhausted)
      case Some(o) => Ok(core.(out := o))
  }

  predicate FailedCode(codes: seq<Byte>) {
    exists i | 0 <= i < |codes| :: !Success(ReasonOf(codes[i]))
  }

  function FirstFailed(codes: seq<Byte>): ReasonCode
    requires FailedCode(codes)
  {
    if !Success(ReasonOf(codes[0])) then ReasonOf(codes[0])
    else
      assert FailedCode(codes[1..]) by {
        var i :| 0 <= i < |codes| && !Success(ReasonOf(codes[i]));
        assert codes[1..][i - 1] == codes[i];
      }
      FirstFailed(codes[1..])
  }

  /** SUBACK and UNSUBACK. */
  function HandleSubAck(core: Core, kind: OpKind, id: U16, codes: seq<Byte>): (Core, Handled) {
    if !HasOp(core.out, kind, id) then (core, Quiet)
    else
      (core.(out := AckPacket(core.out, kind, id)),
       if FailedCode(codes) then Fail(Rejected(FirstFailed(codes))) else Quiet)
  }

  function CodeResult(code: ReasonCode): Handled {
    if Success(code) then Quiet else Fail(Rejected(code))
  }

  function HandlePubAck(core: Core, rt: Runtime, id: U16, code: ReasonCode): (Core, Runtime, Handled) {
    if !HasOp(core.out, PublishAtLeastOnce, id) then (core, rt, Quiet)
    else (core.(out := AckPacket(core.out, PublishAtLeastOnce, id)), ReturnQuota(rt), CodeResult(code))
  }

  /** PUBREC: the retained PUBLISH is dropped before the PUBREL is queued, which can still be refused. */
  function HandlePubRec(core: Core, rt: Runtime, id: U16, code: ReasonCode): (Core, Runtime, Handled) {
    if HasOp(core.out, PublishExactlyOnce, id) then
      var acked := core.(out := AckPacket(core.out, PublishExactlyOnce, id));
      var back := ReturnQuota(rt);
      if !Success(code) then (acked, back, Fail(Rejected(code)))
      else if TooLarge(rt.maxPacket, |ReleaseBytes(id, SUCCESS)|) then (acked, back, Fail(PacketTooLarge))
      else match QueueRelease(acked.out, id, SUCCESS)
        case None => (acked, back, Fail(InflightExhausted))
        case Some(o) => (acked.(out := o), back, Quiet)
    else if HasRelease(core.out, id) then (core, rt, CodeResult(code))
    else (core, rt, Quiet)
  }

  function HandlePubComp(core: Core, id: U16, code: ReasonCode): (Core, Handled) {
    if !HasRelease(core.out, id) then (core, Quiet)
    else (core.(out := AckRelease(core.out, id)), CodeResult(code))
  }

  function IdPosition(ids: seq<U16>, id: U16): (i: nat)
    ensures i <= |ids| && (i < |ids| <==> id in ids)
    ensures i < |ids| ==> ids[i] == id
  {
    if ids == [] then 0 else if ids[0] == id then 0 else 1 + IdPosition(ids[1..], id)
  }

  /** PUBREL: forget the identifier and answer with PUBCOMP either way. */
  function HandlePubRel(core: Core, rt: Runtime, id: U16): (Core, Handled) {
    var i := IdPosition(core.serverIds, id);
    var found := i < |core.serverIds|;
    var released := core.(serverIds := if found then SwapRemove(core.serverIds, i) else core.serverIds,
                          inbound := core.inbound + [Released(id)]);
    match QueueChecked(released, rt, CompPublish(id, if found then SUCCESS else PACKET_ID_NOT_FOUND))
    case Err(e) => (released, Fail(e))
    case Ok(queued) => (queued, Quiet)
  }

  /** A QoS 2 PUBLISH: the identifier is recorded, the PUBREC queued, and only a new one is delivered. */
  function HandlePublish2(core: Core, rt: Runtime, id: U16): (Core, Handled) {
    var duplicate := id in core.serverIds;
    var full := !duplicate && |core.serverIds| >= MAX_INBOUND_QOS2;
    var noted := if duplicate || full then core else core.(serverIds := core.serverIds + [id]);
    match QueueChecked(noted, rt, RecPublish(id, if full then RECEIVE_MAX_EXCEEDED else SUCCESS))
    case Err(e) => (noted, Fail(e))
    case Ok(queued) =>
      if duplicate || full then (queued, Quiet)
      else (queued.(inbound := queued.inbound + [Delivered(id)]), Deliver)
  }

  function HandlePublish1(core: Core, rt: Runtime, id: U16): (Core, Handled) {
    match QueueChecked(core, rt, AckPublish(id, if id in core.serverIds then PACKET_ID_IN_USE else SUCCESS))
    case Err(e) => (core, Fail(e))
    case Ok(queued) => (queued, Deliver)
  }

  function HandlePublish(core: Core, rt: Runtime, qos: QoS, id: Option<U16>): (Core, Handled) {
    if qos.AtMostOnce? then (core, Deliver)
    else if id.None? then (core, Fail(InvalidPacket))
    else if qos.AtLeastOnce? then HandlePublish1(core, rt, id.value)
    else HandlePublish2(core, rt, id.value)
  }

  function Keep(rt: Runtime, r: (Core, Handled)): (Core, Runtime, Handled) {
    (r.0, rt, r.1)
  }

  /** `SessionData::handle_packet`. */
  function HandlePacket(core: Core, rt: Runtime, p: Packet): (Core, Runtime, Handled) {
    match p
    case ConnAck(_, _, _) => (core, rt, Fail(InvalidPacket))
    case SubAck(id, _, codes) => Keep(rt, HandleSubAck(core, OpKind.Subscribe, id, codes))
    case UnsubAck(id, _, codes) => Keep(rt, HandleSubAck(core, OpKind.Unsubscribe, id, codes))
    case PingResp => (core, rt.(pingTimeout := None), Quiet)
    case PubAck(id, reason) => HandlePubAck(core, rt, id, reason.Code())
    case PubRec(id, reason) => HandlePubRec(core, rt, id, reason.Code())
    case PubComp(id, reason) => Keep(rt, HandlePubComp(core, id, reason.Code()))
    case PubRel(id, _) => Keep(rt, HandlePubRel(core, rt, id))
    case Publish(_, id, _, _, _, qos, _) => Keep(rt, HandlePublish(core, rt, qos, id))
    case Disconnect(_) => (core, rt, Fail(Disconnected))
  }

  predicate EndsConnection(h: Handled) {
    h.Fail? && (h.error.Disconnected? || h.error.InvalidPacket? || h.error.PacketTooLarge?)
  }

  /** `process_received_packet` for a packet that parsed. */
  function Process(c: Conn, p: Packet): (Conn, Handled)
  {
    var (core, rt, h) := HandlePacket(c.core, c.rt, p);
    var d := c.(core := core, rt := rt);
    if EndsConnection(h) then (HandleDisconnect(d), h) else (d, h)
  }

  // ----------------------------------------------------------- admission

  datatype Request =
    | PublishRequest(topic: Text, properties: Block, qos: QoS, retain: bool, payload: Payload)
    | SubscribeRequest(topics: seq<(Text, Byte)>, properties: Block)
    | UnsubscribeRequest(filters: seq<Text>, properties: Block)

  /** The QoS a publication goes out with, after the broker's limit. */
  function EffectiveQos(c: Conn, qos: QoS): Option<QoS> {
    if c.rt.maxQos.Some? && qos.Code() > c.rt.maxQos.value.Code() then
      if c.config.downgradeQos then Some(c.rt.maxQos.value) else None
    else Some(qos)
  }

  function FromSer(e: SerError): Error {
    if e.InsufficientMemory? then BufferTooSmall else InvalidRequest
  }

  function FromPublishError(e: PublishError): Error {
    match e
    case Encoding(s) => FromSer(s)
    case PayloadFailed => PayloadRefused
  }

  /** Keep an encoded packet until it is acknowledged, unless the broker would refuse its size. */
  function RetainChecked(c: Conn, kind: OpKind, id: PacketId, packet: seq<Byte>): (Conn, Result<PacketId, Error>) {
    if TooLarge(c.rt.maxPacket, |packet|) then (c, Err(PacketTooLarge))
    else match Retain(c.core.out, kind, id, packet)
      case None => (c, Err(InflightExhausted))
      case Some(o) => (WithOut(c, o), Ok(id))
  }

  /** Draw an identifier; the cursor moves on even when the operation is then refused. */
  ghost function TakeId(c: Conn): (Conn, PacketId)
    requires OutboundLaws.Fits(c.core.out)
  {
    var id := FreshId(c.core.out, c.core.cursor);
    (c.(core := c.core.(cursor := Succ(id))), id)
  }

  /** Admission of a publication under an identifier already drawn. */
  function AdmitUnder(c: Conn, id: PacketId, topic: Text, properties: Block, qos: QoS, retain: bool, payload: Payload)
    : (Conn, Result<PacketId, Error>)
  {
    if |c.core.out.retained| >= MAX_RETAINED then (c, Err(InflightExhausted))
    else if c.rt.quota == 0 || !CanRetain(c.core.out) then (c, Err(NotReady))
    else
      var kind := if qos.ExactlyOnce? then PublishExactlyOnce else PublishAtLeastOnce;
      match EncodeRetainedPublish(c.core.out, PublishHeader(qos, retain, false),
                                  PublishFields(topic, Some(id), properties), payload)
      case Err(e) => (c, Err(FromPublishError(e)))
      case Ok(packet) =>
        var (d, r) := RetainChecked(c, kind, id, packet);
        if r.Ok? then (d.(rt := d.rt.(quota := d.rt.quota - 1)), r) else (d, r)
  }

  /** The admission part of `publish` above QoS 0. */
  ghost function AdmitPublish(c: Conn, topic: Text, properties: Block, qos: QoS, retain: bool, payload: Payload)
    : (Conn, Result<PacketId, Error>)
    requires OutboundLaws.Fits(c.core.out) && !qos.AtMostOnce?
  {
    var (d, id) := TakeId(c);
    AdmitUnder(d, id, topic, properties, qos, retain, payload)
  }

  /** The admission part of `subscribe` and `unsubscribe`, after the drain that precedes it. */
  ghost function AdmitFilters(c: Conn, kind: OpKind, fields: U16 -> Fields): (Conn, Result<PacketId, Error>)
    requires OutboundLaws.Fits(c.core.out)
  {
    if |c.core.out.retained| >= MAX_RETAINED then (c, Err(InflightExhausted))
    else
      var (d, id) := TakeId(c);
      match EncodeRetained(d.core.out,
                           ControlHeader(if kind == OpKind.Subscribe then MessageType.Subscribe else MessageType.Unsubscribe),
                           fields(id))
      case Err(e) => (d, Err(FromSer(e)))
      case Ok(packet) => RetainChecked(d, kind, id, packet)
  }

  ghost function Admit(c: Conn, r: Request): (Conn, Result<PacketId, Error>)
    requires OutboundLaws.Fits(c.core.out)
  {
    if !c.link.live then (c, Err(Disconnected))
    else match r
      case PublishRequest(topic, properties, qos, retain, payload) =>
        var q := EffectiveQos(c, qos);
        if q.None? || q.value.AtMostOnce? then (c, Err(InvalidRequest))
        else AdmitPublish(c, topic, properties, q.value, retain, payload)
      case SubscribeRequest(topics, properties) =>
        if topics == [] then (c, Err(InvalidRequest))
        else AdmitFilters(c, OpKind.Subscribe, (id: U16) => SubscribeFields(id, properties, topics))
      case UnsubscribeRequest(filters, properties) =>
        if filters == [] then (c, Err(InvalidRequest))
        else AdmitFilters(c, OpKind.Unsubscribe, (id: U16) => UnsubscribeFields(id, properties, filters))
  }

  // --------------------------------------------------------- direct writes

  /** The stream is between packets and nothing waits to be written or flushed. */
  predicate Idle(c: Conn) {
    c.link.live && c.link.flush.Clean? && NextStep(c.core.out).None?
  }

  /**
    * `write_all` and a flush of one packet outside the queues: a QoS 0 PUBLISH or, with `close`, a
    * DISCONNECT. `written` bytes are accepted; `ok` says whether everything including the flush succeeded.
    */
  function WriteDirect(c: Conn, packet: seq<Byte>, written: nat, ok: bool, close: bool, now: nat): Conn
    requires written <= |packet|
  {
    var whole := written == |packet|;
    var link := c.link.(wire := c.link.wire + packet[..written],
                        sent := if whole then c.link.sent + [DirectMessage(packet)] else c.link.sent);
    var d := c.(link := link);
    if whole && ok && !close then d.(rt := NoteActivity(d.rt, now))
    else
      var e := HandleDisconnect(d);
      e.(link := e.link.(cut := if whole then [] else packet[..written]))
  }
}
