/**
  * The outbound engine over one byte arena (minimq/src/mqtt_client/outbound.rs). Retained packets lie
  * back to back at the front; `View` is the plain list of packets the arena stands for.
  */
module Arena {
  import opened Bytes
  import opened Packets
  import opened Schedule
  import opened Outbound
  import opened Serializer
  import Varint
  import Wire

  /** Metadata of one retained packet; its bytes are found by position. */
  datatype Entry = Entry(kind: OpKind, id: U16, len: nat, state: SendState)

  /** Where entry `i` starts in the arena; `Offset(es, |es|)` is `retained_bytes`. */
  function Offset(es: seq<Entry>, i: nat): nat
    requires i <= |es|
  {
    if i == 0 then 0 else Offset(es, i - 1) + es[i - 1].len
  }

  function Used(es: seq<Entry>): nat {
    Offset(es, |es|)
  }

  lemma {:induction false} OffsetMonotone(es: seq<Entry>, i: nat, j: nat)
    requires i <= j <= |es|
    ensures Offset(es, i) <= Offset(es, j)
    ensures i < j ==> Offset(es, i) + es[i].len <= Offset(es, j)
    decreases j
  {
    if i < j {
      OffsetMonotone(es, i, j - 1);
    }
  }

  lemma {:induction false} OffsetPrefix(es: seq<Entry>, fs: seq<Entry>, i: nat)
    requires i <= |es| && i <= |fs| && forall k | 0 <= k < i :: es[k].len == fs[k].len
    ensures Offset(es, i) == Offset(fs, i)
  {
    if i > 0 {
      OffsetPrefix(es, fs, i - 1);
    }
  }

  lemma {:induction false} OffsetRemove(es: seq<Entry>, i: nat, k: nat)
    requires i < |es| && i <= k < |es|
    ensures Offset(RemoveAt(es, i), k) == Offset(es, k + 1) - es[i].len
    decreases k
  {
    var fs := RemoveAt(es, i);
    if k == i {
      OffsetPrefix(es, fs, i);
    } else {
      OffsetRemove(es, i, k - 1);
      assert fs[k - 1] == es[k];
    }
  }

  /** Entry `i` with its bytes. */
  function SliceAt(a: seq<Byte>, es: seq<Entry>, i: nat): (r: Retained)
    requires i < |es| && Used(es) <= |a|
    ensures |r.bytes| == es[i].len
  {
    OffsetMonotone(es, i, |es|);
    Retained(es[i].kind, es[i].id, a[Offset(es, i)..Offset(es, i) + es[i].len], es[i].state)
  }

  /** The packets an arena and its metadata stand for. */
  ghost function Slices(a: seq<Byte>, es: seq<Entry>): (rs: seq<Retained>)
    requires Used(es) <= |a|
    ensures |rs| == |es|
    ensures forall i | 0 <= i < |es| :: rs[i] == SliceAt(a, es, i)
  {
    seq(|es|, i requires 0 <= i < |es| => SliceAt(a, es, i))
  }

  lemma {:induction false} SlicesSum(a: seq<Byte>, es: seq<Entry>)
    requires Used(es) <= |a|
    ensures SumLen(Slices(a, es)) == Used(es)
  {
    if es != [] {
      var front := es[..|es| - 1];
      assert forall k | 0 <= k < |front| :: front[k].len == es[k].len;
      OffsetPrefix(es, front, |front|);
      SlicesSum(a, front);
      SliceFront(a, es);
      SumLenSnoc(Slices(a, front), SliceAt(a, es, |es| - 1));
      assert Slices(a, es) == Slices(a, front) + [SliceAt(a, es, |es| - 1)];
    }
  }

  lemma SliceFront(a: seq<Byte>, es: seq<Entry>)
    requires es != [] && Used(es) <= |a|
    ensures var front := es[..|es| - 1];
            Used(front) <= |a| && Slices(a, es) == Slices(a, front) + [SliceAt(a, es, |es| - 1)]
  {
    var front := es[..|es| - 1];
    OffsetPrefix(es, front, |front|);
    forall i | 0 <= i < |front| ensures SliceAt(a, es, i) == SliceAt(a, front, i) {
      OffsetPrefix(es, front, i);
    }
  }

  /** Only the used front of the arena matters. */
  lemma SlicesPrefix(a: seq<Byte>, b: seq<Byte>, es: seq<Entry>)
    requires Used(es) <= |a| && Used(es) <= |b| && a[..Used(es)] == b[..Used(es)]
    ensures Slices(a, es) == Slices(b, es)
  {
    forall i | 0 <= i < |es| ensures SliceAt(a, es, i) == SliceAt(b, es, i) {
      OffsetMonotone(es, i, |es|);
      var lo, hi := Offset(es, i), Offset(es, i) + es[i].len;
      OffsetMonotone(es, i + 1, |es|);
      assert a[lo..hi] == a[..Used(es)][lo..hi];
      assert b[lo..hi] == b[..Used(es)][lo..hi];
    }
  }

  lemma SlicesAppend(a: seq<Byte>, es: seq<Entry>, e: Entry)
    requires Used(es) + e.len <= |a|
    ensures Used(es + [e]) == Used(es) + e.len
    ensures Slices(a, es + [e]) ==
            Slices(a, es) + [Retained(e.kind, e.id, a[Used(es)..Used(es) + e.len], e.state)]
  {
    var fs := es + [e];
    OffsetPrefix(es, fs, |es|);
    SliceFront(a, fs);
    assert fs[..|fs| - 1] == es;
  }

  lemma SlicesRestate(a: seq<Byte>, es: seq<Entry>, i: nat, state: SendState)
    requires i < |es| && Used(es) <= |a|
    ensures var fs := es[i := es[i].(state := state)];
            Used(fs) == Used(es) && Slices(a, fs) == Slices(a, es)[i := Slices(a, es)[i].(state := state)]
  {
    var fs := es[i := es[i].(state := state)];
    OffsetPrefix(es, fs, |es|);
    forall k | 0 <= k < |es| ensures Offset(es, k) == Offset(fs, k) {
      OffsetPrefix(es, fs, k);
    }
  }

  /** The arena after the gap left by entry `i` is closed. */
  function Compacted(a: seq<Byte>, es: seq<Entry>, i: nat): (b: seq<Byte>)
    requires i < |es| && Used(es) <= |a|
    ensures |b| == |a|
  {
    OffsetMonotone(es, i, |es|);
    Overwrite(a, Offset(es, i), a[Offset(es, i) + es[i].len..Used(es)])
  }

  lemma UsedAfterRemove(es: seq<Entry>, i: nat)
    requires i < |es|
    ensures Used(RemoveAt(es, i)) == Used(es) - es[i].len
  {
    OffsetRemove(es, i, |es| - 1);
  }

  lemma CompactedBefore(a: seq<Byte>, es: seq<Entry>, i: nat, k: nat)
    requires i < |es| && Used(es) <= |a| && k < i
    ensures Used(RemoveAt(es, i)) <= |a|
    ensures SliceAt(Compacted(a, es, i), RemoveAt(es, i), k) == SliceAt(a, es, k)
  {
    hide Offset, Overwrite;
    var fs := RemoveAt(es, i);
    UsedAfterRemove(es, i);
    OffsetMonotone(es, i, |es|);
    assert forall j | 0 <= j < i :: fs[j] == es[j];
    OffsetPrefix(es, fs, k);
    OffsetMonotone(es, k, i);
    OverwriteKeepsBefore(a, Offset(es, i), a[Offset(es, i) + es[i].len..Used(es)],
                         Offset(es, k), Offset(es, k) + es[k].len);
  }

  lemma CompactedAfter(a: seq<Byte>, es: seq<Entry>, i: nat, k: nat)
    requires i < |es| && Used(es) <= |a| && i <= k < |es| - 1
    ensures Used(RemoveAt(es, i)) <= |a|
    ensures SliceAt(Compacted(a, es, i), RemoveAt(es, i), k) == SliceAt(a, es, k + 1)
  {
    hide Offset, Overwrite;
    var fs := RemoveAt(es, i);
    UsedAfterRemove(es, i);
    OffsetMonotone(es, i, |es|);
    OffsetMonotone(es, i, k + 1);
    OffsetMonotone(es, k + 1, |es|);
    OffsetRemove(es, i, k);
    assert fs[k] == es[k + 1];
    OverwriteMoved(a, Offset(es, i), Offset(es, i) + es[i].len, Used(es),
                   Offset(es, k + 1), Offset(es, k + 1) + es[k + 1].len);
  }

  /** Closing the gap left by one packet leaves exactly the other packets, in order. */
  lemma SlicesCompact(a: seq<Byte>, es: seq<Entry>, i: nat)
    requires i < |es| && Used(es) <= |a|
    ensures Used(RemoveAt(es, i)) <= |a|
    ensures Slices(Compacted(a, es, i), RemoveAt(es, i)) == RemoveAt(Slices(a, es), i)
  {
    hide Compacted, SliceAt, Offset;
    var fs := RemoveAt(es, i);
    UsedAfterRemove(es, i);
    forall k | 0 <= k < |fs|
      ensures SliceAt(Compacted(a, es, i), fs, k) == SliceAt(a, es, if k < i then k else k + 1)
    {
      if k < i {
        CompactedBefore(a, es, i, k);
      } else {
        CompactedAfter(a, es, i, k);
      }
    }
    assert forall k | 0 <= k < |fs| :: RemoveAt(Slices(a, es), i)[k] == Slices(a, es)[if k < i then k else k + 1];
  }

  /** The used part of the arena is the concatenation of the packets in admission order. */
  lemma {:induction false} ArenaIsConcatenation(a: seq<Byte>, es: seq<Entry>)
    requires Used(es) <= |a|
    ensures Flatten(PacketBytes(Slices(a, es))) == a[..Used(es)]
  {
    if es != [] {
      var front, last := es[..|es| - 1], SliceAt(a, es, |es| - 1);
      OffsetPrefix(es, front, |front|);
      ArenaIsConcatenation(a, front);
      SliceFront(a, es);
      assert PacketBytes(Slices(a, es)) == PacketBytes(Slices(a, front)) + [last.bytes];
      FlattenSnoc(PacketBytes(Slices(a, front)), last.bytes);
    }
  }

  ghost function PacketBytes(rs: seq<Retained>): seq<seq<Byte>> {
    seq(|rs|, i requires 0 <= i < |rs| => rs[i].bytes)
  }

  // ------------------------------------------------------------ the engine

  /** `OutboundStep`: what to write next, located the way the source locates it. */
  datatype Step =
    | ControlStep(index: nat, action: ControlAction, written: nat)
    | ReleaseStep(id: U16, reason: ReasonCode, written: nat)
    | RetainedStep(id: U16, offset: nat, len: nat, written: nat)

  /** `step` names slot `s` of `o`, its progress, and where in the arena its bytes lie. */
  ghost predicate Names(step: Step, o: Out, s: Slot, a: seq<Byte>) {
    SlotIn(o, s) &&
    match s
    case ControlSlot(i) =>
      step.ControlStep? && step.index == i && step.action == o.control[i].action && o.control[i].state == Write(step.written)
    case ReleaseSlot(i) =>
      step.ReleaseStep? && step.id == o.release[i].id && step.reason == o.release[i].reason
      && o.release[i].state == Write(step.written)
    case RetainedSlot(i) =>
      step.RetainedStep? && step.id == o.retained[i].id && step.offset + step.len <= |a|
      && a[step.offset..step.offset + step.len] == o.retained[i].bytes && o.retained[i].state == Write(step.written)
  }

  function RearmedEntries(es: seq<Entry>): (fs: seq<Entry>)
    ensures |fs| == |es|
  {
    seq(|es|, i requires 0 <= i < |es| => es[i].(state := Write(0)))
  }

  class OutboundArena {
    const buf: array<Byte>
    var workspace: nat
    var control: seq<PendingControl>
    var retained: seq<Entry>
    var release: seq<PendingRelease>

    ghost predicate Valid()
      reads this
    {
      Used(retained) + workspace <= buf.Length
    }

    /** The value this object stands for. */
    ghost function View(): (o: Out)
      requires Valid()
      reads this, buf
    {
      Out(buf.Length, workspace, control, release, Slices(buf[..], retained))
    }

    constructor (buf: array<Byte>)
      ensures Valid() && this.buf == buf && View() == Out(buf.Length, 0, [], [], [])
    {
      this.buf := buf;
      workspace, control, retained, release := 0, [], [], [];
    }

    method ClearInflight()
      requires Valid()
      modifies this
      ensures Valid() && View() == Clear(old(View()))
    {
      control, retained, release := [], [], [];
    }

    method RetainedLen() returns (n: nat)
      ensures n == Used(retained)
    {
      n := 0;
      for i := 0 to |retained|
        invariant n == Offset(retained, i)
      {
        n := n + retained[i].len;
      }
    }

    /** Reserve `len` bytes for the next CONNECT, if the retained packets leave them free. */
    method SetConnectWorkspace(len: nat) returns (ok: bool)
      requires Valid()
      modifies this`workspace
      ensures Valid()
      ensures match SetWorkspace(old(View()), len)
              case Some(o) => ok && View() == o
              case None => !ok && View() == old(View())
    {
      SlicesSum(buf[..], retained);
      var used := RetainedLen();
      if len > buf.Length || used > buf.Length - len {
        return false;
      }
      workspace := len;
      return true;
    }

    method QueueControl(action: ControlAction) returns (ok: bool)
      requires Valid()
      modifies this`control
      ensures Valid()
      ensures match Outbound.QueueControl(old(View()), action)
              case Some(o) => ok && View() == o
              case None => !ok && View() == old(View())
    {
      if |control| >= MAX_PENDING_CONTROL {
        return false;
      }
      control := control + [PendingControl(action, Write(0))];
      return true;
    }

    method QueueRelease(id: U16, reason: ReasonCode) returns (ok: bool)
      requires Valid()
      modifies this`release
      ensures Valid()
      ensures match Outbound.QueueRelease(old(View()), id, reason)
              case Some(o) => ok && View() == o
              case None => !ok && View() == old(View())
    {
      if |release| >= MAX_PENDING_RELEASE {
        return false;
      }
      release := release + [PendingRelease(id, reason, Write(0))];
      return true;
    }

    /** Index and arena offset of the packet of that kind and identifier. */
    method Find(kind: OpKind, id: U16) returns (position: nat, offset: nat)
      requires Valid()
      ensures position == RetainedPosition(View().retained, kind, id) && offset == Offset(retained, position)
    {
      position, offset := 0, 0;
      while position < |retained| && !(retained[position].kind == kind && retained[position].id == id)
        invariant position <= |retained| && offset == Offset(retained, position)
        invariant forall k | 0 <= k < position :: !(retained[k].kind == kind && retained[k].id == id)
      {
        offset := offset + retained[position].len;
        position := position + 1;
      }
      RetainedPositionIs(Slices(buf[..], retained), kind, id, position);
    }

    /** Close the gap entry `position` leaves in the arena. */
    method Remove(position: nat, offset: nat)
      requires Valid() && position < |retained| && offset == Offset(retained, position)
      modifies this`retained, buf
      ensures Valid()
      ensures View() == old(View()).(retained := RemoveAt(old(View()).retained, position))
    {
      hide SliceAt, Offset, Overwrite;
      ghost var a, es := buf[..], retained;
      OffsetMonotone(retained, position, |retained|);
      SlicesCompact(a, es, position);
      UsedAfterRemove(es, position);
      var used := RetainedLen();
      CopyWithin(buf, offset + retained[position].len, used, offset);
      assert buf[..] == Compacted(a, es, position);
      retained := RemoveAt(retained, position);
    }

    /** Drop the packet of that kind and identifier, if there is one. */
    method AckPacket(kind: OpKind, id: U16) returns (found: bool)
      requires Valid()
      modifies this`retained, buf
      ensures Valid() && View() == Outbound.AckPacket(old(View()), kind, id)
      ensures found <==> HasOp(old(View()), kind, id)
    {
      var position, offset := Find(kind, id);
      found := position < |retained|;
      if found {
        Remove(position, offset);
      }
    }

    method AckRelease(id: U16) returns (found: bool)
      requires Valid()
      modifies this`release
      ensures Valid() && View() == Outbound.AckRelease(old(View()), id)
      ensures found <==> HasRelease(old(View()), id)
    {
      var position := 0;
      while position < |release| && release[position].id != id
        invariant position <= |release|
        invariant forall k | 0 <= k < position :: release[k].id != id
      {
        position := position + 1;
      }
      ReleasePositionIs(release, id, position);
      if position == |release| {
        return false;
      }
      release := SwapRemove(release, position);
      return true;
    }

    /** Encode into the whole scratch space, then pack; the list of packets is not touched. */
    method EncodePacket(header: Byte, parts: seq<Wire.Fields>) returns (r: Result<nat, SerError>)
      requires Valid()
      modifies buf
      ensures Valid() && View() == old(View())
      ensures match EncodeRetained(old(View()), header, Chain(parts))
              case Err(e) => r == Err(e)
              case Ok(packet) => r == Ok(|packet|) && Staged(packet)
    {
      hide Chain, EncodeInto, Offset, SliceAt, Slices, SumLen;
      ghost var a := buf[..];
      SlicesSum(a, retained);
      var start := RetainedLen();
      var encoded := EncodeWithOffset(buf, start, buf.Length, header, parts);
      SlicesPrefix(a, buf[..], retained);
      if encoded.Err? {
        return Err(encoded.error);
      }
      var (offset, len) := encoded.value;
      if len > buf.Length - workspace - start {
        return Err(InsufficientMemory);
      }
      Pack(start, offset, len);
      return Ok(len);
    }

    /** Encode within the retained budget, then pack; the list of packets is not touched. */
    method EncodePublish(header: Byte, parts: seq<Wire.Fields>, payload: Payload) returns (r: Result<nat, PublishError>)
      requires Valid()
      modifies buf
      ensures Valid() && View() == old(View())
      ensures RetainedBytes(old(View())) <= RetainedCapacity(old(View()))
      ensures match EncodeRetainedPublish(old(View()), header, Chain(parts), payload)
              case Err(e) => r == Err(e)
              case Ok(packet) => r == Ok(|packet|) && Staged(packet)
    {
      hide Chain, EncodePublishInto, Offset, SliceAt, Slices, SumLen;
      ghost var a := buf[..];
      SlicesSum(a, retained);
      var start := RetainedLen();
      var end := buf.Length - workspace;
      var encoded := EncodePublishWithOffset(buf, start, end, header, parts, payload);
      SlicesPrefix(a, buf[..], retained);
      if encoded.Err? {
        return Err(encoded.error);
      }
      var (offset, len) := encoded.value;
      // The encoding window ends at the retained capacity, so packing always has room.
      Pack(start, offset, len);
      return Ok(len);
    }

    /** Encode a packet in the scratch space without keeping it; it starts `offset` bytes behind the retained ones. */
    method EncodeScratch(header: Byte, parts: seq<Wire.Fields>) returns (r: Result<(nat, seq<Byte>), SerError>)
      requires Valid()
      modifies buf
      ensures Valid() && View() == old(View())
      ensures match EncodeInto(ScratchLen(old(View())), header, Chain(parts))
              case Err(e) => r == Err(e)
              case Ok(packet) => r.Ok? && r.value.1 == packet && r.value.0 + |packet| == MAX_FIXED_HEADER_SIZE + |Chain(parts).bytes|
    {
      hide Chain, Offset, SliceAt, Varint.Encode, Slices, SumLen, Frame;
      ghost var a := buf[..];
      SlicesSum(a, retained);
      var start := RetainedLen();
      var encoded := EncodeWithOffset(buf, start, buf.Length, header, parts);
      SlicesPrefix(a, buf[..], retained);
      if encoded.Err? {
        return Err(encoded.error);
      }
      var (offset, len) := encoded.value;
      return Ok((offset, buf[..][start + offset..start + offset + len]));
    }

    /** Encode a QoS 0 PUBLISH in the scratch space without keeping it. */
    method EncodeScratchPublish(header: Byte, parts: seq<Wire.Fields>, payload: Payload)
      returns (r: Result<seq<Byte>, PublishError>)
      requires Valid()
      modifies buf
      ensures Valid() && View() == old(View())
      ensures r == EncodePublishInto(ScratchLen(old(View())), header, Chain(parts), payload)
    {
      hide Chain, EncodePublishInto, Offset, SliceAt, Slices, SumLen;
      ghost var a := buf[..];
      SlicesSum(a, retained);
      var start := RetainedLen();
      var encoded := EncodePublishWithOffset(buf, start, buf.Length, header, parts, payload);
      SlicesPrefix(a, buf[..], retained);
      if encoded.Err? {
        return Err(encoded.error);
      }
      var (offset, len) := encoded.value;
      return Ok(buf[..][start + offset..start + offset + len]);
    }

    /** A packet lies right behind the retained ones, inside the retained budget. */
    ghost predicate Staged(packet: seq<Byte>)
      requires Valid()
      reads this, buf
    {
      && Used(retained) + |packet| + workspace <= buf.Length
      && buf[..][Used(retained)..Used(retained) + |packet|] == packet
    }

    /** The move in `pack_encoded`, after its size check. */
    method Pack(start: nat, offset: nat, len: nat)
      requires Valid() && start == Used(retained)
      requires start + offset + len <= buf.Length && start + len + workspace <= buf.Length
      modifies buf
      ensures Valid() && View() == old(View())
      ensures Staged(old(buf[..])[start + offset..start + offset + len])
    {
      ghost var a := buf[..];
      CopyWithin(buf, start + offset, start + offset + len, start);
      OverwriteExtends(a, start, start, a[start + offset..start + offset + len]);
      SlicesPrefix(a, buf[..], retained);
    }

    /** Admit the packet just staged. */
    method RetainPacket(kind: OpKind, id: U16, len: nat, ghost packet: seq<Byte>) returns (ok: bool)
      requires Valid() && len == |packet| && Staged(packet)
      modifies this`retained
      ensures Valid()
      ensures match Retain(old(View()), kind, id, packet)
              case Some(o) => ok && View() == o
              case None => !ok && View() == old(View())
    {
      if |retained| >= MAX_RETAINED {
        return false;
      }
      SlicesAppend(buf[..], retained, Entry(kind, id, len, Write(0)));
      retained := retained + [Entry(kind, id, len, Write(0))];
      return true;
    }

    /** Written packets become sent; written control packets are dropped. */
    method CompleteFlush()
      requires Valid()
      modifies this
      ensures Valid() && View() == Outbound.CompleteFlush(old(View()))
    {
      ghost var es := retained;
      control := Unflushed(control);
      release := FlushReleases(release);
      retained := seq(|retained|, i requires 0 <= i < |retained| reads this =>
                        retained[i].(state := FlushedState(retained[i].state)));
      SlicesRestateAll(buf[..], es, retained);
      assert Slices(buf[..], retained) == FlushRetained(Slices(buf[..], es));
    }

    /** Set the DUP flag of every retained PUBLISH, in place. */
    method MarkPublishDup()
      requires Valid() && forall k | 0 <= k < |retained| :: retained[k].len > 0
      modifies buf
      ensures |View().retained| == |old(View()).retained|
      ensures forall k | 0 <= k < |retained| :: View().retained[k] == MarkDup(old(View()).retained[k])
    {
      ghost var rs := Slices(buf[..], retained);
      var offset := 0;
      for i := 0 to |retained|
        invariant offset == Offset(retained, i)
        invariant forall k | 0 <= k < |retained| :: Slices(buf[..], retained)[k] == if k < i then MarkDup(rs[k]) else rs[k]
      {
        OffsetMonotone(retained, i, |retained|);
        if retained[i].kind.IsPublish() {
          SlicesRehead(buf[..], retained, i, Wire.MarkDuplicate(buf[offset]));
          ghost var next := buf[..][offset := Wire.MarkDuplicate(buf[offset])];
          buf[offset] := Wire.MarkDuplicate(buf[offset]);
          assert buf[..] == next;
        }
        offset := offset + retained[i].len;
      }
    }

    method RearmStates()
      requires Valid()
      modifies this`control, this`release, this`retained
      ensures Valid() && retained == old(RearmedEntries(retained))
      ensures control == RearmControl(old(control)) && release == RearmReleases(old(release))
    {
      control := RearmControl(control);
      release := RearmReleases(release);
      ghost var es := retained;
      retained := RearmedEntries(retained);
      OffsetPrefix(es, retained, |es|);
    }

    /** Everything pending starts over on the next connection. */
    method ArmReplay()
      requires Valid() && forall k | 0 <= k < |retained| :: retained[k].len > 0
      modifies this, buf
      ensures Valid() && View() == Outbound.ArmReplay(old(View()))
    {
      hide Offset, SliceAt, MarkDup;
      if control == [] && retained == [] && release == [] {
        return;
      }
      ghost var rs := Slices(buf[..], retained);
      MarkPublishDup();
      ghost var es, marked := retained, Slices(buf[..], retained);
      RearmStates();
      SlicesRestateAll(buf[..], es, retained);
      assert Slices(buf[..], retained) == RearmRetained(rs);
    }

    method FirstControl(inProgress: bool) returns (i: nat)
      ensures i == First(ControlItems(control), inProgress)
    {
      i := 0;
      while i < |control| && !Writable(control[i].state, inProgress)
        invariant i <= |control|
        invariant forall k | 0 <= k < i :: !Writable(control[k].state, inProgress)
      {
        i := i + 1;
      }
      FirstIs(ControlItems(control), inProgress, i);
    }

    method FirstRelease(inProgress: bool) returns (i: nat)
      ensures i == First(ReleaseItems(release), inProgress)
    {
      i := 0;
      while i < |release| && !Writable(release[i].state, inProgress)
        invariant i <= |release|
        invariant forall k | 0 <= k < i :: !Writable(release[k].state, inProgress)
      {
        i := i + 1;
      }
      FirstIs(ReleaseItems(release), inProgress, i);
    }

    method FirstRetained(inProgress: bool) returns (i: nat, offset: nat)
      requires Valid()
      ensures i == First(RetainedItems(View().retained), inProgress) && offset == Offset(retained, i)
    {
      i, offset := 0, 0;
      while i < |retained| && !Writable(retained[i].state, inProgress)
        invariant i <= |retained| && offset == Offset(retained, i)
        invariant forall k | 0 <= k < i :: !Writable(retained[k].state, inProgress)
      {
        offset := offset + retained[i].len;
        i := i + 1;
      }
      FirstIs(RetainedItems(View().retained), inProgress, i);
    }

    /** One pass over control packets, releases and retained packets, in that order. */
    method ScanQueues(inProgress: bool) returns (step: Option<Step>)
      requires Valid()
      ensures match Scan(View(), inProgress)
              case None => step.None?
              case Some(s) => step.Some? && Names(step.value, View(), s, buf[..])
    {
      hide First, ControlItems, ReleaseItems, RetainedItems;
      var c := FirstControl(inProgress);
      if c < |control| {
        FirstControlWritable(control, inProgress);
        return Some(ControlStep(c, control[c].action, control[c].state.written));
      }
      var l := FirstRelease(inProgress);
      if l < |release| {
        FirstReleaseWritable(release, inProgress);
        return Some(ReleaseStep(release[l].id, release[l].reason, release[l].state.written));
      }
      var t, offset := FirstRetained(inProgress);
      if t < |retained| {
        FirstRetainedWritable(View().retained, inProgress);
        OffsetMonotone(retained, t, |retained|);
        return Some(RetainedStep(retained[t].id, offset, retained[t].len, retained[t].state.written));
      }
      return None;
    }

    /** The packet in progress if there is one, else the first not started. */
    method NextStep() returns (step: Option<Step>)
      requires Valid()
      ensures match Outbound.NextStep(View())
              case None => step.None?
              case Some(s) => step.Some? && Names(step.value, View(), s, buf[..])
    {
      hide Scan, Names;
      step := ScanQueues(true);
      if step.None? {
        step := ScanQueues(false);
      }
    }

    method SetControlWritten(index: nat, written: nat, len: nat) returns (found: bool)
      requires Valid()
      modifies this`control
      ensures Valid() && (found <==> index < |old(control)|)
      ensures View() == if found then SetSlot(old(View()), ControlSlot(index), SetWritten(written, len)) else old(View())
    {
      found := index < |control|;
      if found {
        control := control[index := control[index].(state := SetWritten(written, len))];
      }
    }

    method SetReleaseWritten(id: U16, written: nat, len: nat) returns (found: bool)
      requires Valid()
      modifies this`release
      ensures Valid()
      ensures var i := ReleasePosition(old(release), id);
              && (found <==> i < |old(release)|)
              && View() == if found then SetSlot(old(View()), ReleaseSlot(i), SetWritten(written, len)) else old(View())
    {
      var i := 0;
      while i < |release| && release[i].id != id
        invariant i <= |release| && release == old(release)
        invariant forall k | 0 <= k < i :: release[k].id != id
      {
        i := i + 1;
      }
      ReleasePositionIs(release, id, i);
      found := i < |release|;
      if found {
        release := release[i := release[i].(state := SetWritten(written, len))];
      }
    }

    method SetRetainedWritten(id: U16, written: nat, len: nat) returns (found: bool)
      requires Valid()
      modifies this`retained
      ensures Valid()
      ensures var i := RetainedIndex(old(View()).retained, id);
              && (found <==> i < |old(retained)|)
              && View() == if found then SetSlot(old(View()), RetainedSlot(i), SetWritten(written, len)) else old(View())
    {
      var i := 0;
      while i < |retained| && retained[i].id != id
        invariant i <= |retained| && retained == old(retained)
        invariant forall k | 0 <= k < i :: retained[k].id != id
      {
        i := i + 1;
      }
      RetainedIndexIs(View().retained, id, i);
      found := i < |retained|;
      if found {
        SlicesRestate(buf[..], retained, i, SetWritten(written, len));
        retained := retained[i := retained[i].(state := SetWritten(written, len))];
      }
    }
  }

  lemma FirstControlWritable(cs: seq<PendingControl>, inProgress: bool)
    ensures var i := First(ControlItems(cs), inProgress); i < |cs| ==> cs[i].state.Write?
  {
  }

  lemma FirstReleaseWritable(rs: seq<PendingRelease>, inProgress: bool)
    ensures var i := First(ReleaseItems(rs), inProgress); i < |rs| ==> rs[i].state.Write?
  {
  }

  lemma FirstRetainedWritable(rs: seq<Retained>, inProgress: bool)
    ensures var i := First(RetainedItems(rs), inProgress); i < |rs| ==> rs[i].state.Write?
  {
  }

  ghost predicate SameShape(es: seq<Entry>, fs: seq<Entry>) {
    && |es| == |fs|
    && forall k | 0 <= k < |es| :: es[k].kind == fs[k].kind && es[k].id == fs[k].id && es[k].len == fs[k].len
  }

  /** New states do not move any bytes. */
  lemma SlicesRestateAll(a: seq<Byte>, es: seq<Entry>, fs: seq<Entry>)
    requires Used(es) <= |a| && SameShape(es, fs)
    ensures Used(fs) == Used(es)
    ensures forall k | 0 <= k < |es| :: SliceAt(a, fs, k) == SliceAt(a, es, k).(state := fs[k].state)
  {
    hide Offset;
    OffsetPrefix(es, fs, |es|);
    forall k | 0 <= k < |es| ensures SliceAt(a, fs, k) == SliceAt(a, es, k).(state := fs[k].state) {
      OffsetPrefix(es, fs, k);
    }
  }

  /** Rewriting the first byte of one packet leaves the other packets alone. */
  lemma SlicesRehead(a: seq<Byte>, es: seq<Entry>, i: nat, b: Byte)
    requires Used(es) <= |a| && i < |es| && es[i].len > 0
    ensures Offset(es, i) < |a|
    ensures Slices(a[Offset(es, i) := b], es) ==
            Slices(a, es)[i := Slices(a, es)[i].(bytes := Slices(a, es)[i].bytes[0 := b])]
  {
    OffsetMonotone(es, i, |es|);
    var c := a[Offset(es, i) := b];
    forall k | 0 <= k < |es| && k != i ensures SliceAt(c, es, k) == SliceAt(a, es, k) {
      if k < i {
        OffsetMonotone(es, k, i);
      } else {
        OffsetMonotone(es, i, k);
        OffsetMonotone(es, k, |es|);
      }
    }
  }

  lemma RetainedIndexIs(rs: seq<Retained>, id: U16, i: nat)
    requires i <= |rs| && (i < |rs| ==> rs[i].id == id)
    requires forall k | 0 <= k < i :: rs[k].id != id
    ensures RetainedIndex(rs, id) == i
  {
  }

  lemma {:induction false} RetainedPositionIs(rs: seq<Retained>, kind: OpKind, id: U16, i: nat)
    requires i <= |rs| && (i < |rs| ==> rs[i].kind == kind && rs[i].id == id)
    requires forall k | 0 <= k < i :: !(rs[k].kind == kind && rs[k].id == id)
    ensures RetainedPosition(rs, kind, id) == i
  {
  }

  lemma {:induction false} ReleasePositionIs(rs: seq<PendingRelease>, id: U16, i: nat)
    requires i <= |rs| && (i < |rs| ==> rs[i].id == id)
    requires forall k | 0 <= k < i :: rs[k].id != id
    ensures ReleasePosition(rs, id) == i
  {
  }
}
