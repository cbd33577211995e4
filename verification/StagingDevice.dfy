/**
  * The device side of the staging protocol (mqtt-staging/src/lib.rs) as functions on values: one bounded
  * object arrives in sequential, write-aligned chunks and is handed to application-owned storage.
  */
module StagingDevice {
  import opened Bytes
  import opened Properties
  import Decimal
  import Varint

  const MAX_TRANSFER_ID_BYTES: nat := 48
  const TOPIC_CAPACITY: nat := 128
  const MANIFEST_SUFFIX: seq<Byte> := [47, 109, 97, 110, 105, 102, 101, 115, 116]
  const STATUS_SUFFIX: seq<Byte> := [47, 115, 116, 97, 116, 117, 115]
  const CHUNK_SUFFIX: seq<Byte> := [47, 99, 104, 117, 110, 107]
  const OFFSET_KEY: seq<Byte> := [111, 102, 102, 115, 101, 116]

  /** The payload of a received PUBLISH, which the remaining length bounds. */
  type Payload = s: seq<Byte> | |s| <= Varint.MAX witness []

  datatype State = Idle | Preparing | Ready | Writing | Complete | Error

  datatype StatusCode =
    Idle | Accepted | Duplicate | Offset | Oversize | Mtu | Unaligned | Storage | Complete | Error

  datatype Transfer = Transfer(id: seq<Byte>, size: U32, nextOffset: U32, checksum: nat)

  datatype Action = Publish(code: StatusCode) | Subscribe

  datatype Request = Prepare | Write(nextOffset: U32, final: bool)

  datatype Config = Config(capacity: U32, maxChunk: nat, writeSize: nat)

  datatype Device = Device(
    prefix: seq<Byte>,
    config: Config,
    maxRx: nat,
    inflight: Option<Action>,
    pending: Option<Action>,
    startup: Option<StatusCode>,
    subscribed: bool,
    state: State,
    transfer: Option<Transfer>,
    request: Option<Request>)

  /** What the JSON reader makes of a manifest payload. */
  datatype Manifest = Manifest(id: seq<Byte>, size: U32, checksum: nat)

  /** An inbound PUBLISH; `properties` are its decoded items. */
  datatype Inbound = Inbound(
    topic: seq<Byte>,
    payload: Payload,
    manifest: Option<Manifest>,
    properties: seq<Option<Property>>,
    retained: bool)

  datatype Handle =
    | Unhandled
    | Consumed
    | PrepareStorage(size: U32)
    | WriteStorage(offset: U32, payload: Payload, size: U32, checksum: Option<nat>)

  /** A status publication, with the properties that request the next chunk. */
  datatype Status = Status(
    state: State,
    code: StatusCode,
    id: seq<Byte>,
    nextOffset: U32,
    size: U32,
    mtu: nat,
    writeSize: nat,
    responseTopic: seq<Byte>,
    correlation: seq<Byte>,
    offset: U32)

  // ------------------------------------------------------------- creation

  predicate Aligned(n: nat, unit: nat) {
    unit > 0 && n % unit == 0
  }

  datatype CreateError = TopicTooLong | InvalidChunkSize

  function Create(prefix: seq<Byte>, config: Config): Result<Device, CreateError> {
    if config.maxChunk == 0 || !Aligned(config.maxChunk, config.writeSize) then
      Err(InvalidChunkSize)
    else if |prefix| + |MANIFEST_SUFFIX| > TOPIC_CAPACITY then Err(TopicTooLong)
    else Ok(Device(prefix, config, 0, None, None, None, false, State.Idle, None, None))
  }

  // -------------------------------------------------------------- queueing

  /** A subscription is queued or under way. */
  predicate Subscribing(d: Device) {
    d.pending == Some(Subscribe) || d.inflight == Some(Subscribe)
  }

  /** `queue`: one slot; while subscribing, a status waits for the subscription instead. */
  function Queue(d: Device, action: Action): Device {
    if Subscribing(d) then
      if action.Publish? then d.(startup := Some(action.code)) else d
    else d.(pending := Some(action))
  }

  function CurrentCode(d: Device): StatusCode {
    match d.state
    case Idle => StatusCode.Idle
    case Preparing => Accepted
    case Ready => Accepted
    case Writing => Accepted
    case Complete => StatusCode.Complete
    case Error => StatusCode.Error
  }

  function Tell(d: Device, code: StatusCode): Device {
    Queue(d, Publish(code))
  }

  function Fail(d: Device, code: StatusCode): Device {
    Tell(d.(state := State.Error), code)
  }

  /** `begin_startup`; `clean` when the broker has no session to resume. */
  function BeginStartup(d: Device, clean: bool): Device {
    var replay := if d.state.Idle? then None else Some(CurrentCode(d));
    var e := if clean then d.(inflight := None, subscribed := false) else d;
    if e.subscribed then
      var f := e.(startup := None);
      if replay.Some? then Tell(f, replay.value) else f
    else Queue(e.(startup := replay), Subscribe)
  }

  predicate Active(d: Device) {
    d.state.Preparing? || d.state.Ready? || d.state.Writing?
  }

  /** `abort`. */
  function Abort(d: Device): (Device, bool) {
    if Active(d) then (Tell(d.(state := State.Error, request := None), StatusCode.Error), true)
    else (d, false)
  }

  // ------------------------------------------------------- storage results

  /** `complete_request`. */
  function CompleteRequest(d: Device, success: bool): Device {
    if d.request.None? then d
    else
      var e := d.(request := None);
      if e.transfer.None? then Fail(e, StatusCode.Error)
      else if !success then Fail(e, Storage)
      else match d.request.value
        case Prepare => Tell(e.(state := Ready), Accepted)
        case Write(next, final) =>
          if final then
            Tell(e.(transfer := Some(e.transfer.value.(nextOffset := e.transfer.value.size)), state := State.Complete),
                 StatusCode.Complete)
          else
            Tell(e.(transfer := Some(e.transfer.value.(nextOffset := next)), state := Ready), Accepted)
  }

  // -------------------------------------------------------------- manifest

  predicate TokenByte(b: Byte) {
    48 <= b <= 57 || 65 <= b <= 90 || 97 <= b <= 122 || b == 45 || b == 46 || b == 95
  }

  predicate ValidId(id: seq<Byte>) {
    0 < |id| <= MAX_TRANSFER_ID_BYTES && forall i | 0 <= i < |id| :: TokenByte(id[i])
  }

  /** `mqtt_varint_len`. */
  method MqttVarintLen(v: nat) returns (len: nat)
    ensures len == |Varint.Encode(v)|
  {
    var value := v;
    len := 1;
    while value >= 128
      invariant |Varint.Encode(v)| == len - 1 + |Varint.Encode(value)|
    {
      value := value / 128;
      len := len + 1;
    }
  }

  function ChunkPropertyBytes(id: seq<Byte>): nat {
    2 + 1 + 2 + |id| + 1 + 2 + |OFFSET_KEY| + 2 + 10
  }

  function ChunkRemaining(topic: seq<Byte>, id: seq<Byte>, payload: nat): nat {
    2 + |topic| + 2 + |Varint.Encode(ChunkPropertyBytes(id))| + ChunkPropertyBytes(id) + payload
  }

  /** `required_rx_bytes`: the receive buffer a chunk of `payload` bytes takes at worst. */
  function RequiredRxBytes(topic: seq<Byte>, id: seq<Byte>, payload: nat): nat {
    1 + |Varint.Encode(ChunkRemaining(topic, id, payload))| + ChunkRemaining(topic, id, payload)
  }

  /** `required_rx_bytes` as it is computed. */
  method RequiredRx(topic: seq<Byte>, id: seq<Byte>, payload: nat) returns (bytes: nat)
    ensures bytes == RequiredRxBytes(topic, id, payload)
  {
    var properties := 2 + 1 + 2 + |id| + 1 + 2 + |OFFSET_KEY| + 2 + 10;
    var prefix := MqttVarintLen(properties);
    var remaining := 2 + |topic| + 2 + prefix + properties + payload;
    var header := MqttVarintLen(remaining);
    return 1 + header + remaining;
  }

  function ChunkTopic(d: Device): seq<Byte> {
    d.prefix + CHUNK_SUFFIX
  }

  predicate SameManifest(t: Transfer, m: Manifest) {
    t.id == m.id && t.size == m.size && t.checksum == m.checksum
  }

  /** `handle_manifest`. */
  function HandleManifest(d: Device, manifest: Option<Manifest>): (Device, Handle) {
    if manifest.None? || !ValidId(manifest.value.id) then
      (if d.state.Idle? then Tell(d, StatusCode.Error) else d, Consumed)
    else
      var m := manifest.value;
      if !d.state.Idle? then
        (if d.transfer.Some? && SameManifest(d.transfer.value, m) then Tell(d, CurrentCode(d)) else d, Consumed)
      else if m.size == 0 then (Tell(d, StatusCode.Error), Consumed)
      else if m.size > d.config.capacity then (Tell(d, Oversize), Consumed)
      else if RequiredRxBytes(ChunkTopic(d), m.id, d.config.maxChunk) > d.maxRx then (Tell(d, Mtu), Consumed)
      else
        (Tell(d.(transfer := Some(Transfer(m.id, m.size, 0, m.checksum)), state := Preparing), Accepted)
           .(request := Some(Prepare)),
         PrepareStorage(m.size))
  }

  // ---------------------------------------------------------------- chunks

  datatype Verdict = Accept(next: U32) | Refuse(code: StatusCode) | Reject(code: StatusCode)

  predicate Erased(bytes: seq<Byte>) {
    forall i | 0 <= i < |bytes| :: bytes[i] == 0xff
  }

  /** `validate_chunk`. */
  function ValidateChunk(t: Transfer, offset: U32, payload: Payload, config: Config): Verdict
    requires t.nextOffset <= t.size
  {
    if offset < t.nextOffset then Refuse(Duplicate)
    else if offset != t.nextOffset then Refuse(Offset)
    else if payload == [] || |payload| > config.maxChunk then Reject(Mtu)
    else if !Aligned(|payload|, config.writeSize) then Reject(Unaligned)
    else if offset + |payload| >= 0x1_0000_0000 || offset + |payload| > config.capacity then Reject(Oversize)
    else if offset + |payload| <= t.size then Accept(offset + |payload|)
    else if Erased(payload[t.size - offset..]) then Accept(t.size)
    else Reject(Oversize)
  }

  predicate Usable(d: Device) {
    d.transfer.Some? ==> d.transfer.value.nextOffset <= d.transfer.value.size
  }

  /** `handle_chunk`. */
  function HandleChunk(d: Device, id: seq<Byte>, offset: U32, payload: Payload): (Device, Handle)
    requires Usable(d)
  {
    if d.transfer.None? then (Tell(d, StatusCode.Idle), Consumed)
    else
      var t := d.transfer.value;
      if id != t.id || d.state.Preparing? then (d, Consumed)
      else if d.state.Complete? || d.state.Error? then (Tell(d, CurrentCode(d)), Consumed)
      else if d.state.Writing? then (d, Consumed)
      else if !d.state.Ready? then (Tell(d, StatusCode.Idle), Consumed)
      else match ValidateChunk(t, offset, payload, d.config)
        case Refuse(code) => (Tell(d, code), Consumed)
        case Reject(code) => (Fail(d, code), Consumed)
        case Accept(next) =>
          (d.(state := Writing, request := Some(Write(next, next == t.size))),
           WriteStorage(offset, payload, t.size, if next == t.size then Some(t.checksum) else None))
  }

  /** `Properties::correlation_data`. */
  function Correlation(items: seq<Option<Property>>): Option<seq<Byte>> {
    if items == [] then None
    else if items[0].Some? && items[0].value.CorrelationData? then Some(items[0].value.data)
    else Correlation(items[1..])
  }

  /** The offset the last `offset` user property gives, if it parses. */
  function LastOffset(items: seq<Option<Property>>): Option<U32> {
    if items == [] then None
    else
      var last := items[|items| - 1];
      if last.Some? && last.value.UserProperty? && last.value.key == OFFSET_KEY then Decimal.ParseU32(last.value.text)
      else LastOffset(items[..|items| - 1])
  }

  /** `chunk_properties`. */
  function ChunkProperties(items: seq<Option<Property>>): Option<(seq<Byte>, U32)> {
    var id, offset := Correlation(items), LastOffset(items);
    if id.Some? && offset.Some? then Some((id.value, offset.value)) else None
  }

  /** The loop of `chunk_properties`. */
  method ReadChunkProperties(items: seq<Option<Property>>) returns (r: Option<(seq<Byte>, U32)>)
    ensures r == ChunkProperties(items)
  {
    var id := Correlation(items);
    if id.None? {
      return None;
    }
    var offset := None;
    for i := 0 to |items|
      invariant offset == LastOffset(items[..i])
    {
      assert items[..i + 1][..i] == items[..i];
      if items[i].Some? && items[i].value.UserProperty? && items[i].value.key == OFFSET_KEY {
        offset := Decimal.ParseU32(items[i].value.text);
      }
    }
    assert items[..|items|] == items;
    return if offset.Some? then Some((id.value, offset.value)) else None;
  }

  /** `handle_publish_with_properties`. */
  function Receive(d: Device, m: Inbound): (Device, Handle)
    requires Usable(d)
  {
    if m.topic != d.prefix + MANIFEST_SUFFIX && m.topic != ChunkTopic(d) then (d, Unhandled)
    else if m.retained then (d, Consumed)
    else if m.topic == d.prefix + MANIFEST_SUFFIX then HandleManifest(d, m.manifest)
    else match ChunkProperties(m.properties)
      case None => (d, Consumed)
      case Some((id, offset)) => HandleChunk(d, id, offset, m.payload)
  }

  // ---------------------------------------------------------------- status

  /** The status publication `publish_status` makes now for `code`. */
  function StatusWith(d: Device, code: StatusCode): Status {
    var id := if d.transfer.Some? then d.transfer.value.id else [];
    var next := if d.transfer.Some? then d.transfer.value.nextOffset else 0;
    Status(d.state, code, id, next, if d.transfer.Some? then d.transfer.value.size else 0,
           d.config.maxChunk, d.config.writeSize, ChunkTopic(d), id, next)
  }

  /** What the connection says about the operation in flight. */
  datatype Progress = StillPending | Invalidated | Finished

  /**
    * How starting an operation ends. Without success the packet may still have been queued, in which case
    * the retry duplicates it.
    */
  datatype Start = Started | Busy | Refused(queued: bool) | Cancelled(queued: bool)

  datatype StepResult = Quiescent | Pending | Disconnected | Failed | Suspended

  /** The part of `step` that settles the operation in flight. */
  function Settle(d: Device, progress: Progress): Device {
    if d.inflight.None? || progress.StillPending? then d
    else
      var e := d.(inflight := None);
      if progress.Invalidated? then Queue(e, d.inflight.value)
      else if d.inflight.value.Subscribe? then
        var f := e.(subscribed := true, startup := None);
        if e.startup.Some? then Tell(f, e.startup.value) else f
      else e
  }

  function Published(d: Device, action: Action, queued: bool): Option<Status> {
    if queued && action.Publish? then Some(StatusWith(d, action.code)) else None
  }

  /** `step`; the last component is the status publication it queues on the connection, if any. */
  function Step(d: Device, maxRx: nat, progress: Progress, start: Start): (Device, StepResult, Option<Status>) {
    var e := Settle(d.(maxRx := maxRx), progress);
    if d.inflight.Some? && progress.StillPending? then (e, Pending, None)
    else if d.inflight.Some? && progress.Invalidated? then (e, Disconnected, None)
    else if e.pending.None? then (e, Quiescent, None)
    else
      var action := e.pending.value;
      match start
      case Started => (e.(pending := None, inflight := Some(action)), Pending, Published(e, action, true))
      case Busy => (e, Pending, None)
      case Refused(queued) => (e, Failed, Published(e, action, queued))
      case Cancelled(queued) => (e, Suspended, Published(e, action, queued))
  }
}
