/** The outbound engine as values: queues, scheduling and space (minimq/src/mqtt_client/outbound.rs). */
module Outbound {
  import opened Bytes
  import opened Packets
  import opened Schedule
  import Wire
  import Varint

  const MAX_RETAINED: nat := 8
  const MAX_PENDING_CONTROL: nat := 8
  const MAX_PENDING_RELEASE: nat := 8

  datatype OpKind = PublishAtLeastOnce | PublishExactlyOnce | Subscribe | Unsubscribe {
    predicate IsPublish() {
      PublishAtLeastOnce? || PublishExactlyOnce?
    }
  }

  datatype ControlAction =
    | AckPublish(id: U16, reason: ReasonCode)
    | RecPublish(id: U16, reason: ReasonCode)
    | CompPublish(id: U16, reason: ReasonCode)
    | Ping

  /** A packet given to the transport, by origin. */
  datatype Message =
    | ControlMessage(action: ControlAction)
    | ReleaseMessage(id: U16, reason: ReasonCode)
    | RetainedMessage(kind: OpKind, id: U16, bytes: seq<Byte>)
    | DirectMessage(bytes: seq<Byte>)

  /** `encode_control_packet`. */
  function ControlBytes(a: ControlAction): seq<Byte> {
    match a
    case AckPublish(id, reason) => Encode(Packet.PubAck(id, Reason(reason, None)))
    case RecPublish(id, reason) => Encode(Packet.PubRec(id, Reason(reason, None)))
    case CompPublish(id, reason) => Encode(Packet.PubComp(id, Reason(reason, None)))
    case Ping => Frame(Wire.ControlHeader(Wire.PingReq), [])
  }

  /** `encode_pubrel`. */
  function ReleaseBytes(id: U16, reason: ReasonCode): seq<Byte> {
    Encode(Packet.PubRel(id, Reason(reason, None)))
  }

  function BytesOf(m: Message): seq<Byte> {
    match m
    case ControlMessage(a) => ControlBytes(a)
    case ReleaseMessage(id, reason) => ReleaseBytes(id, reason)
    case RetainedMessage(_, _, bytes) => bytes
    case DirectMessage(bytes) => bytes
  }

  function AllBytes(ms: seq<Message>): seq<seq<Byte>> {
    seq(|ms|, i requires 0 <= i < |ms| => BytesOf(ms[i]))
  }

  lemma ShortFrame(header: Byte, body: seq<Byte>)
    requires |body| < 0x80
    ensures IsFrame(Frame(header, body)) && |Frame(header, body)| == 2 + |body|
  {
    FrameIffWithinLimit(header, body);
    assert Varint.Encode(|body|) == [|body|];
  }

  /** Acknowledgements take five bytes and a PINGREQ two, and each is one whole packet. */
  lemma ControlBytesFrame(a: ControlAction)
    ensures IsFrame(ControlBytes(a)) && |ControlBytes(a)| == if a.Ping? then 2 else 5
  {
    match a {
      case AckPublish(id, reason) =>
        ShortFrame(Wire.ControlHeader(Wire.PubAck), AckFields(id, Reason(reason, None)).bytes);
      case RecPublish(id, reason) =>
        ShortFrame(Wire.ControlHeader(Wire.PubRec), AckFields(id, Reason(reason, None)).bytes);
      case CompPublish(id, reason) =>
        ShortFrame(Wire.ControlHeader(Wire.PubComp), AckFields(id, Reason(reason, None)).bytes);
      case Ping =>
        ShortFrame(Wire.ControlHeader(Wire.PingReq), []);
    }
  }

  lemma ReleaseBytesFrame(id: U16, reason: ReasonCode)
    ensures IsFrame(ReleaseBytes(id, reason)) && |ReleaseBytes(id, reason)| == 5
  {
    ShortFrame(Wire.ControlHeader(Wire.PubRel), AckFields(id, Reason(reason, None)).bytes);
  }

  // --------------------------------------------------------------- state

  datatype PendingControl = PendingControl(action: ControlAction, state: SendState)
  datatype PendingRelease = PendingRelease(id: U16, reason: ReasonCode, state: SendState)
  datatype Retained = Retained(kind: OpKind, id: U16, bytes: seq<Byte>, state: SendState)

  /** The three queues, the size of the arena and the part of it kept free for the next CONNECT. */
  datatype Out = Out(
    capacity: nat,
    workspace: nat,
    control: seq<PendingControl>,
    release: seq<PendingRelease>,
    retained: seq<Retained>)

  function SumLen(rs: seq<Retained>): nat {
    if rs == [] then 0 else |rs[0].bytes| + SumLen(rs[1..])
  }

  lemma {:induction false} SumLenSnoc(rs: seq<Retained>, r: Retained)
    ensures SumLen(rs + [r]) == SumLen(rs) + |r.bytes|
  {
    if rs != [] {
      assert (rs + [r])[1..] == rs[1..] + [r];
      SumLenSnoc(rs[1..], r);
    }
  }

  function RetainedBytes(o: Out): nat {
    SumLen(o.retained)
  }

  function RetainedCapacity(o: Out): int {
    o.capacity - o.workspace
  }

  function ScratchLen(o: Out): nat {
    Room(o.capacity, RetainedBytes(o))
  }

  /** `can_retain`. */
  predicate CanRetain(o: Out) {
    && |o.retained| < MAX_RETAINED
    && RetainedCapacity(o) - RetainedBytes(o) >= MAX_FIXED_HEADER_SIZE
  }

  predicate HasRetained(o: Out, id: U16) {
    exists i | 0 <= i < |o.retained| :: o.retained[i].id == id
  }

  predicate HasRelease(o: Out, id: U16) {
    exists i | 0 <= i < |o.release| :: o.release[i].id == id
  }

  predicate HasPendingPing(o: Out) {
    exists i | 0 <= i < |o.control| :: o.control[i].action.Ping? && o.control[i].state != Sent
  }

  // ---------------------------------------------------------- operations

  /** `set_connect_workspace`. */
  function SetWorkspace(o: Out, len: nat): Option<Out> {
    if len > o.capacity || RetainedBytes(o) > o.capacity - len then None
    else Some(o.(workspace := len))
  }

  /** `queue_control`; `None` when the queue is full. */
  function QueueControl(o: Out, action: ControlAction): Option<Out> {
    if |o.control| < MAX_PENDING_CONTROL then
      Some(o.(control := o.control + [PendingControl(action, Write(0))]))
    else None
  }

  function QueueRelease(o: Out, id: U16, reason: ReasonCode): Option<Out> {
    if |o.release| < MAX_PENDING_RELEASE then
      Some(o.(release := o.release + [PendingRelease(id, reason, Write(0))]))
    else None
  }

  /** `retain_packet` for bytes already packed behind the retained ones. */
  function Retain(o: Out, kind: OpKind, id: U16, bytes: seq<Byte>): Option<Out> {
    if |o.retained| < MAX_RETAINED then
      Some(o.(retained := o.retained + [Retained(kind, id, bytes, Write(0))]))
    else None
  }

  function RetainedPosition(rs: seq<Retained>, kind: OpKind, id: U16): (i: nat)
    ensures i <= |rs|
    ensures i < |rs| ==> rs[i].kind == kind && rs[i].id == id
    ensures forall k | 0 <= k < i :: !(rs[k].kind == kind && rs[k].id == id)
  {
    if rs == [] then 0
    else if rs[0].kind == kind && rs[0].id == id then 0
    else 1 + RetainedPosition(rs[1..], kind, id)
  }

  function RemoveAt<T>(s: seq<T>, i: nat): (r: seq<T>)
    requires i < |s|
    ensures |r| == |s| - 1
  {
    s[..i] + s[i + 1..]
  }

  predicate HasOp(o: Out, kind: OpKind, id: U16) {
    RetainedPosition(o.retained, kind, id) < |o.retained|
  }

  /** `ack_packet`: drop the matching packet, if any. */
  function AckPacket(o: Out, kind: OpKind, id: U16): Out {
    var i := RetainedPosition(o.retained, kind, id);
    if i < |o.retained| then o.(retained := RemoveAt(o.retained, i)) else o
  }

  function ReleasePosition(rs: seq<PendingRelease>, id: U16): (i: nat)
    ensures i <= |rs|
    ensures i < |rs| ==> rs[i].id == id
    ensures forall k | 0 <= k < i :: rs[k].id != id
  {
    if rs == [] then 0 else if rs[0].id == id then 0 else 1 + ReleasePosition(rs[1..], id)
  }

  /** The list after `swap_remove`: the last element takes the removed one's place. */
  function SwapRemove<T>(s: seq<T>, i: nat): (r: seq<T>)
    requires i < |s|
    ensures |r| == |s| - 1
  {
    if i == |s| - 1 then s[..i] else s[..|s| - 1][i := s[|s| - 1]]
  }

  /** `ack_release`. */
  function AckRelease(o: Out, id: U16): Out {
    var i := ReleasePosition(o.release, id);
    if i < |o.release| then o.(release := SwapRemove(o.release, i)) else o
  }

  function FlushedState(s: SendState): SendState {
    if s.Flush? then Sent else s
  }

  function Unflushed(cs: seq<PendingControl>): (r: seq<PendingControl>)
    ensures |r| <= |cs|
  {
    if cs == [] then []
    else (if cs[0].state.Flush? then [] else [cs[0]]) + Unflushed(cs[1..])
  }

  function FlushReleases(rs: seq<PendingRelease>): (r: seq<PendingRelease>)
    ensures |r| == |rs|
  {
    seq(|rs|, i requires 0 <= i < |rs| => rs[i].(state := FlushedState(rs[i].state)))
  }

  function FlushRetained(rs: seq<Retained>): (r: seq<Retained>)
    ensures |r| == |rs|
  {
    seq(|rs|, i requires 0 <= i < |rs| => rs[i].(state := FlushedState(rs[i].state)))
  }

  /** `complete_flush`. */
  function CompleteFlush(o: Out): Out {
    o.(control := Unflushed(o.control), release := FlushReleases(o.release), retained := FlushRetained(o.retained))
  }

  /** A retained packet marked as a retransmission, when it is a PUBLISH. */
  function MarkDup(r: Retained): Retained {
    if r.kind.IsPublish() && r.bytes != [] then r.(bytes := r.bytes[0 := Wire.MarkDuplicate(r.bytes[0])]) else r
  }

  function RearmControl(cs: seq<PendingControl>): seq<PendingControl> {
    seq(|cs|, i requires 0 <= i < |cs| => cs[i].(state := Write(0)))
  }

  function RearmReleases(rs: seq<PendingRelease>): seq<PendingRelease> {
    seq(|rs|, i requires 0 <= i < |rs| => rs[i].(state := Write(0)))
  }

  function RearmRetained(rs: seq<Retained>): (r: seq<Retained>)
    ensures |r| == |rs|
  {
    seq(|rs|, i requires 0 <= i < |rs| => MarkDup(rs[i]).(state := Write(0)))
  }

  /** `arm_replay`: everything pending starts over, publications marked as duplicates. */
  function ArmReplay(o: Out): Out {
    o.(control := RearmControl(o.control), release := RearmReleases(o.release), retained := RearmRetained(o.retained))
  }

  /** `clear_inflight`. */
  function Clear(o: Out): Out {
    o.(control := [], release := [], retained := [])
  }

  /** `encode_packet`: encode in all of the scratch space, then pack behind the retained packets if it fits there. */
  function EncodeRetained(o: Out, header: Byte, fields: Wire.Fields): Result<seq<Byte>, SerError> {
    match EncodeInto(ScratchLen(o), header, fields)
    case Err(e) => Err(e)
    case Ok(packet) =>
      if |packet| > RetainedCapacity(o) - RetainedBytes(o) then Err(InsufficientMemory) else Ok(packet)
  }

  /** `encode_publish`: encode within the retained budget, so that packing cannot fail. */
  function EncodeRetainedPublish(o: Out, header: Byte, fields: Wire.Fields, payload: Payload)
    : Result<seq<Byte>, PublishError>
    requires RetainedBytes(o) <= RetainedCapacity(o)
  {
    EncodePublishInto(RetainedCapacity(o) - RetainedBytes(o), header, fields, payload)
  }

  /** First retained packet under an identifier, whatever its kind. */
  function RetainedIndex(rs: seq<Retained>, id: U16): (i: nat)
    ensures i <= |rs|
    ensures i < |rs| ==> rs[i].id == id
    ensures forall k | 0 <= k < i :: rs[k].id != id
  {
    if rs == [] then 0 else if rs[0].id == id then 0 else 1 + RetainedIndex(rs[1..], id)
  }

  // ---------------------------------------------------------- scheduling

  function ControlItems(cs: seq<PendingControl>): (r: seq<Item<Message>>)
    ensures |r| == |cs|
  {
    seq(|cs|, i requires 0 <= i < |cs| => Item(ControlMessage(cs[i].action), ControlBytes(cs[i].action), cs[i].state))
  }

  function ReleaseItems(rs: seq<PendingRelease>): (r: seq<Item<Message>>)
    ensures |r| == |rs|
  {
    seq(|rs|, i requires 0 <= i < |rs| =>
      Item(ReleaseMessage(rs[i].id, rs[i].reason), ReleaseBytes(rs[i].id, rs[i].reason), rs[i].state))
  }

  function RetainedItems(rs: seq<Retained>): (r: seq<Item<Message>>)
    ensures |r| == |rs|
  {
    seq(|rs|, i requires 0 <= i < |rs| => Item(RetainedMessage(rs[i].kind, rs[i].id, rs[i].bytes), rs[i].bytes, rs[i].state))
  }

  /** All three queues in the order `next_step` scans them. */
  function Items(o: Out): (r: seq<Item<Message>>)
    ensures |r| == |o.control| + |o.release| + |o.retained|
  {
    ControlItems(o.control) + ReleaseItems(o.release) + RetainedItems(o.retained)
  }

  /** A queue slot, as `OutboundStep` names it. */
  datatype Slot = ControlSlot(index: nat) | ReleaseSlot(index: nat) | RetainedSlot(index: nat)

  /** One pass of `next_step` over the three queues. */
  function Scan(o: Out, inProgress: bool): Option<Slot> {
    var c := First(ControlItems(o.control), inProgress);
    var l := First(ReleaseItems(o.release), inProgress);
    var t := First(RetainedItems(o.retained), inProgress);
    if c < |o.control| then Some(ControlSlot(c))
    else if l < |o.release| then Some(ReleaseSlot(l))
    else if t < |o.retained| then Some(RetainedSlot(t))
    else None
  }

  /** `next_step`: a packet in progress first, else the first not started. */
  function NextStep(o: Out): Option<Slot> {
    var s := Scan(o, true);
    if s.Some? then s else Scan(o, false)
  }

  predicate SlotIn(o: Out, s: Slot) {
    match s
    case ControlSlot(i) => i < |o.control|
    case ReleaseSlot(i) => i < |o.release|
    case RetainedSlot(i) => i < |o.retained|
  }

  /** Position of a slot in `Items`. */
  function Place(o: Out, s: Slot): nat {
    match s
    case ControlSlot(i) => i
    case ReleaseSlot(i) => |o.control| + i
    case RetainedSlot(i) => |o.control| + |o.release| + i
  }

  function ItemAt(o: Out, s: Slot): Item<Message>
    requires SlotIn(o, s)
  {
    match s
    case ControlSlot(i) => ControlItems(o.control)[i]
    case ReleaseSlot(i) => ReleaseItems(o.release)[i]
    case RetainedSlot(i) => RetainedItems(o.retained)[i]
  }

  /** `set_control_written`, `set_release_written` or `set_retained_written` on that slot. */
  function SetSlot(o: Out, s: Slot, state: SendState): Out
    requires SlotIn(o, s)
  {
    match s
    case ControlSlot(i) => o.(control := o.control[i := o.control[i].(state := state)])
    case ReleaseSlot(i) => o.(release := o.release[i := o.release[i].(state := state)])
    case RetainedSlot(i) => o.(retained := o.retained[i := o.retained[i].(state := state)])
  }

  lemma PlaceIsItem(o: Out, s: Slot)
    requires SlotIn(o, s)
    ensures Place(o, s) < |Items(o)| && Items(o)[Place(o, s)] == ItemAt(o, s)
  {
  }

  /** The three-queue scan selects what the single-list scheduler selects. */
  lemma NextStepIsNext(o: Out)
    ensures NextStep(o).None? ==> Next(Items(o)) == |Items(o)|
    ensures NextStep(o).Some? ==> SlotIn(o, NextStep(o).value) && Place(o, NextStep(o).value) == Next(Items(o)) < |Items(o)|
  {
    ScanIsFirst(o, true);
    ScanIsFirst(o, false);
  }

  lemma ScanIsFirst(o: Out, inProgress: bool)
    ensures Scan(o, inProgress).None? ==> First(Items(o), inProgress) == |Items(o)|
    ensures Scan(o, inProgress).Some? ==>
              && SlotIn(o, Scan(o, inProgress).value)
              && Place(o, Scan(o, inProgress).value) == First(Items(o), inProgress) < |Items(o)|
  {
    hide ControlItems, ReleaseItems, RetainedItems, First;
    var c, l, t := ControlItems(o.control), ReleaseItems(o.release), RetainedItems(o.retained);
    FirstConcat(c, l, inProgress);
    FirstConcat(c + l, t, inProgress);
  }

  /** Changing the state of a slot is changing that one item. */
  lemma SetSlotIsUpdate(o: Out, s: Slot, state: SendState)
    requires SlotIn(o, s)
    ensures Place(o, s) < |Items(o)|
    ensures Items(SetSlot(o, s, state)) == Items(o)[Place(o, s) := ItemAt(o, s).(state := state)]
  {
    var p := SetSlot(o, s, state);
    hide ControlBytes, ReleaseBytes;
    match s {
      case ControlSlot(i) =>
        assert ControlItems(p.control) == ControlItems(o.control)[i := ItemAt(o, s).(state := state)];
      case ReleaseSlot(i) =>
        assert ReleaseItems(p.release) == ReleaseItems(o.release)[i := ItemAt(o, s).(state := state)];
      case RetainedSlot(i) =>
        assert RetainedItems(p.retained) == RetainedItems(o.retained)[i := ItemAt(o, s).(state := state)];
    }
  }
}
