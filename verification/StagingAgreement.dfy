/** Host and device agree on every chunk: its size, its padding, its verdict and the bytes it takes on the wire. */
module StagingAgreement {
  import opened Bytes
  import opened Properties
  import opened StagingDevice
  import opened StagingHost
  import opened StagingLaws
  import Decimal
  import Deserializer
  import Packets
  import Received
  import Varint
  import Wire

  // ------------------------------------------------------------ arithmetic

  /** The least multiple of `unit` that is at least `n`. */
  function RoundUp(n: nat, unit: nat): nat
    requires unit > 0
  {
    n + -(n as int) % unit
  }

  lemma RoundUpAligned(n: nat, unit: nat)
    requires unit > 0
    ensures Aligned(RoundUp(n, unit), unit) && n <= RoundUp(n, unit) < n + unit
  {
    var x := -(n as int);
    var q := -(x / unit);
    assert RoundUp(n, unit) == unit * q;
    assert q >= 0;
    Remainder(q, 0, unit);
  }

  lemma MultipleOf(n: nat, unit: nat)
    requires Aligned(n, unit)
    ensures n == unit * (n / unit)
  {
  }

  /** Two multiples less than a unit apart are equal. */
  lemma CloseMultiples(a: nat, b: nat, unit: nat)
    requires Aligned(a, unit) && Aligned(b, unit) && a < b + unit && b < a + unit
    ensures a == b
  {
    MultipleOf(a, unit);
    MultipleOf(b, unit);
    var gap := a / unit - b / unit;
    assert unit * gap == a - b;
    if gap >= 1 {
      ProductGrows(unit, gap);
    } else if gap <= -1 {
      ProductGrows(unit, -gap);
    }
  }

  lemma RoundUpLeast(n: nat, m: nat, unit: nat)
    requires Aligned(m, unit) && n <= m
    ensures RoundUp(n, unit) <= m
  {
    RoundUpAligned(n, unit);
    if m < RoundUp(n, unit) {
      CloseMultiples(m, RoundUp(n, unit), unit);
    }
  }

  /** Rounding up commutes with a whole number of units. */
  lemma RoundUpFrom(n: nat, offset: nat, unit: nat)
    requires Aligned(offset, unit) && offset <= n
    ensures offset + RoundUp(n - offset, unit) == RoundUp(n, unit)
  {
    RoundUpAligned(n, unit);
    RoundUpAligned(n - offset, unit);
    AlignedSum(offset, RoundUp(n - offset, unit), unit);
    CloseMultiples(offset + RoundUp(n - offset, unit), RoundUp(n, unit), unit);
  }

  lemma ChunkSizeAligned(requested: nat, mtu: nat, unit: nat)
    requires unit > 0
    ensures Aligned(AlignedChunkSize(requested, mtu, unit), unit)
    ensures AlignedChunkSize(requested, mtu, unit) <= Min(requested, mtu) < AlignedChunkSize(requested, mtu, unit) + unit
    ensures AlignedChunkSize(requested, mtu, unit) > 0 <==> requested >= unit && mtu >= unit
  {
    RoundDown(if requested <= mtu then requested else mtu, unit);
  }

  lemma RoundDown(n: nat, unit: nat)
    requires unit > 0
    ensures n % unit <= n && Aligned(n - n % unit, unit) && (n - n % unit > 0 <==> n >= unit)
  {
    var q := n / unit;
    assert n - n % unit == unit * q + 0;
    if n >= unit {
      assert q >= 1;
      ProductGrows(unit, q);
    }
    Remainder(q, 0, unit);
  }

  // --------------------------------------------------------------- chunks

  /** Where the host's chunk ends: after `size` bytes, or with the object rounded up to the write size. */
  lemma ChunkEnd(data: seq<Byte>, offset: nat, size: nat, unit: nat)
    requires Aligned(offset, unit) && Aligned(size, unit) && 0 < size && offset < |data|
    ensures var chunk := ChunkAt(data, offset, size, unit);
            && offset + |chunk| == Min(offset + size, RoundUp(|data|, unit))
            && 0 < |chunk| <= size && Aligned(|chunk|, unit)
  {
    assert unit > 0;
    hide Aligned;
    RoundUpAligned(|data|, unit);
    if offset + size < |data| {
    } else {
      RoundUpFrom(|data|, offset, unit);
      RoundUpLeast(|data| - offset, size, unit);
      RoundUpAligned(|data| - offset, unit);
    }
  }

  /** The chunk size the host settles on for this device. */
  function HostSize(d: Device, h: Host): nat
    requires d.config.writeSize > 0
  {
    AlignedChunkSize(h.requested, d.config.maxChunk, d.config.writeSize)
  }

  /** The device is ready for the next chunk of this host's object. */
  ghost predicate Asks(d: Device, h: Host) {
    && Sound(d) && d.state.Ready? && h.prefix == d.prefix && d.config.maxChunk <= Varint.MAX
    && d.transfer.value.id == h.id && d.transfer.value.size == |h.data|
  }

  function NextChunk(d: Device, h: Host): (c: Chunk)
    requires d.config.writeSize > 0 && d.transfer.Some? && d.transfer.value.nextOffset <= |h.data|
  {
    var at := d.transfer.value.nextOffset;
    Chunk(at, ChunkAt(h.data, at, HostSize(d, h), d.config.writeSize))
  }

  lemma SizesPositive(c: Config, requested: nat)
    requires Configured(c) && requested >= c.writeSize
    ensures c.writeSize > 0 && AlignedChunkSize(requested, c.maxChunk, c.writeSize) > 0
  {
    ChunkSizeAligned(requested, c.maxChunk, c.writeSize);
    assert c.maxChunk >= c.writeSize;
  }

  /** The host answers every such status with the next chunk. */
  lemma HostAnswers(d: Device, h: Host, code: StatusCode)
    requires Asks(d, h) && h.requested >= d.config.writeSize && h.id != []
    requires code.Accepted? || code.Duplicate?
    ensures d.config.writeSize > 0
    ensures var s := StatusWith(d, code);
            && Screen(h, Message(h.prefix + STATUS_SUFFIX, s)).Take?
            && React(h, s) == Send(NextChunk(d, h))
  {
    SizesPositive(d.config, h.requested);
  }

  /**
    * The device's verdict on that chunk: accepted exactly when the chunk, padding included, ends inside the
    * storage area; then the transfer moves on by a whole chunk or to the end of the object.
    */
  lemma ChunkVerdict(d: Device, h: Host)
    requires Asks(d, h) && h.requested >= d.config.writeSize
    ensures d.config.writeSize > 0
    ensures var t, c := d.transfer.value, NextChunk(d, h);
            && |c.payload| <= d.config.maxChunk
            && var v := ValidateChunk(t, c.offset, c.payload, d.config);
               && (v.Accept? <==> Min(t.nextOffset + HostSize(d, h), RoundUp(t.size, d.config.writeSize)) <= d.config.capacity)
               && (v.Accept? ==> v.next == Min(t.size, t.nextOffset + HostSize(d, h)) && v.next > t.nextOffset)
               && (!v.Accept? ==> v == Reject(Oversize))
  {
    hide Aligned, ChunkAt, RoundUp, AlignedChunkSize;
    SizesPositive(d.config, h.requested);
    var t, c, k, unit := d.transfer.value, NextChunk(d, h), HostSize(d, h), d.config.writeSize;
    ChunkSizeAligned(h.requested, d.config.maxChunk, unit);
    ChunkEnd(h.data, t.nextOffset, k, unit);
    ChunkCarries(h.data, t.nextOffset, k, unit);
    RoundUpAligned(t.size, unit);
    PaddingErased(h.data, t.nextOffset, c.payload, k);
  }

  lemma PaddingErased(data: seq<Byte>, offset: nat, payload: seq<Byte>, size: nat)
    requires offset < |data| && size > 0 && |payload| <= size && Min(|data| - offset, size) <= |payload|
    requires Erased(payload[Min(|data| - offset, size)..])
    ensures offset + |payload| > |data| ==> Erased(payload[|data| - offset..])
  {
  }

  /** When the rounded-up object fits, no chunk is ever refused. */
  lemma EveryChunkAccepted(d: Device, h: Host)
    requires Asks(d, h) && h.requested >= d.config.writeSize && d.config.writeSize > 0
    requires RoundUp(|h.data|, d.config.writeSize) <= d.config.capacity
    ensures |NextChunk(d, h).payload| <= Varint.MAX
    ensures ValidateChunk(d.transfer.value, NextChunk(d, h).offset, NextChunk(d, h).payload, d.config).Accept?
  {
    ChunkVerdict(d, h);
  }

  // --------------------------------------------------------- a failing object

  /** Storage for five bytes, written four at a time, and a host with an object of five bytes. */
  const TIGHT := Config(5, 4, 4)
  const FIVE := Host([], [97], [1, 2, 3, 4, 5], 4)

  /** The PUBLISH that carries the host's next chunk. */
  function ChunkMessage(d: Device, h: Host): Inbound
    requires d.config.writeSize > 0 && d.transfer.Some? && d.transfer.value.nextOffset <= |h.data| < 0x1_0000_0000
    requires |NextChunk(d, h).payload| <= Varint.MAX
  {
    Inbound(ChunkTopic(d), NextChunk(d, h).payload, None,
            Deserializer.Listing(ChunkPropertyList(h.id, d.transfer.value.nextOffset)), false)
  }

  lemma ChunkMessageRead(d: Device, h: Host)
    requires Usable(d) && d.config.writeSize > 0 && d.transfer.Some?
    requires d.transfer.value.nextOffset <= |h.data| < 0x1_0000_0000 && |NextChunk(d, h).payload| <= Varint.MAX
    ensures Receive(d, ChunkMessage(d, h)) == HandleChunk(d, h.id, d.transfer.value.nextOffset, NextChunk(d, h).payload)
  {
    hide HandleChunk, NextChunk, Correlation, LastOffset, ChunkPropertyList;
    PropertiesSurvive(h.id, d.transfer.value.nextOffset);
    assert |ChunkTopic(d)| != |d.prefix + MANIFEST_SUFFIX|;
  }

  /** Up to the first chunk: create, learn the receive limit, take the manifest, prepare. */
  lemma PreparedTight() returns (d: Device, es: seq<Event>, ls: seq<Logged>)
    ensures Create([], TIGHT).Ok? && IsRun(ls, es) && ls[0] == Logged(Create([], TIGHT).value, []) && |es| == 3
    ensures ls[3].device == d && Asks(d, FIVE) && d.transfer.value.nextOffset == 0 && d.config == TIGHT
    ensures |FIVE.data| == d.transfer.value.size == d.config.capacity && d.pending != Some(Subscribe) && d.inflight.None?
  {
    hide Correlation, LastOffset;
    var m := Inbound([] + MANIFEST_SUFFIX, [], Some(Manifest([97], 5, 0)), [], false);
    es := [Pump(1000, StillPending, Busy), Got(m), Report(true)];
    var l0 := Logged(Create([], TIGHT).value, []);
    var l1 := Follow(l0, es[0]);
    assert RequiredRxBytes(ChunkTopic(l1.device), [97], 4) <= 1000 by { SmallBudget(ChunkTopic(l1.device)); }
    var l2 := Follow(l1, es[1]);
    assert l2.device.state.Preparing?;
    var l3 := Follow(l2, es[2]);
    ls := [l0, l1, l2, l3];
    d := l3.device;
    CreatedSound([], TIGHT);
    StagingLaws.StepKeeps(l0.device, es[0]);
    StagingLaws.StepKeeps(l1.device, es[1]);
    StagingLaws.StepKeeps(l2.device, es[2]);
  }

  lemma SmallBudget(topic: seq<Byte>)
    requires |topic| == 6
    ensures RequiredRxBytes(topic, [97], 4) <= 1000
  {
    assert Varint.Encode(27) == [27];
    assert Varint.Encode(42) == [42];
  }

  /** An object that fits the storage area exactly is refused, at its second chunk, because of the padding. */
  lemma FittingObjectRefused() returns (ls: seq<Logged>, es: seq<Event>)
    ensures Create([], TIGHT).Ok? && IsRun(ls, es) && ls[0] == Logged(Create([], TIGHT).value, []) && |es| == 6
    ensures Asks(ls[3].device, FIVE) && Asks(ls[5].device, FIVE) && |FIVE.data| <= TIGHT.capacity
    ensures es[3] == Got(ChunkMessage(ls[3].device, FIVE)) && es[5] == Got(ChunkMessage(ls[5].device, FIVE))
    ensures ls[6].device.state.Error? && ls[6].device.pending == Some(Publish(Oversize))
  {
    var d, some, before := PreparedTight();
    TightVerdicts(d);
    ChunkMessageRead(d, FIVE);
    hide Asks, NextChunk, HandleChunk, Receive, ChunkMessage, Correlation, LastOffset;
    var e3 := Got(ChunkMessage(d, FIVE));
    var l4 := Follow(before[3], e3);
    var l5 := Follow(l4, Report(true));
    SecondTight(d, l4.device, l5.device);
    ChunkMessageRead(l5.device, FIVE);
    var e5 := Got(ChunkMessage(l5.device, FIVE));
    var l6 := Follow(l5, e5);
    es := some + [e3, Report(true), e5];
    ls := before + [l4, l5, l6];
    assert IsRun(ls, es) by {
      forall i | 0 <= i < |es| ensures Usable(ls[i].device) && ls[i + 1] == Follow(ls[i], es[i]) {
        if i < 3 {
          assert ls[i] == before[i] && ls[i + 1] == before[i + 1] && es[i] == some[i];
        }
      }
    }
  }

  /** The two verdicts: at offset 0 the chunk fits, at offset 4 its padding does not. */
  lemma TightVerdicts(d: Device)
    requires Asks(d, FIVE) && d.config == TIGHT
    ensures Usable(d) && |NextChunk(d, FIVE).payload| <= 4
    ensures d.transfer.value.nextOffset == 0 ==>
              ValidateChunk(d.transfer.value, 0, NextChunk(d, FIVE).payload, TIGHT) == Accept(4)
    ensures d.transfer.value.nextOffset == 4 ==>
              ValidateChunk(d.transfer.value, 4, NextChunk(d, FIVE).payload, TIGHT) == Reject(Oversize)
  {
    hide ValidateChunk, ChunkAt;
    ChunkVerdict(d, FIVE);
    assert HostSize(d, FIVE) == 4 && RoundUp(5, 4) == 8;
  }

  lemma SecondTight(d: Device, e: Device, f: Device)
    requires Asks(d, FIVE) && d.config == TIGHT && d.transfer.value.nextOffset == 0
    requires d.pending != Some(Subscribe) && d.inflight.None? && |NextChunk(d, FIVE).payload| <= Varint.MAX
    requires e == HandleChunk(d, FIVE.id, 0, NextChunk(d, FIVE).payload).0 && f == CompleteRequest(e, true)
    ensures Usable(e) && Usable(f) && Asks(f, FIVE) && f.transfer.value.nextOffset == 4 && |NextChunk(f, FIVE).payload| <= 4
    ensures var g := HandleChunk(f, FIVE.id, 4, NextChunk(f, FIVE).payload).0;
            g.state.Error? && g.pending == Some(Publish(Oversize))
  {
    hide ValidateChunk, NextChunk, Aligned;
    TightVerdicts(d);
    ChunkKeeps(d, FIVE.id, 0, NextChunk(d, FIVE).payload);
    ReportKeeps(e, true);
    TightVerdicts(f);
  }

  // ------------------------------------------------------------ on the wire

  /** The QoS 1 PUBLISH the host sends. */
  function ChunkPacket(topic: Wire.Text, packetId: U16, id: seq<Byte>, offset: nat, payload: seq<Byte>, dup: bool)
    : Packets.Packet
  {
    Packets.Packet.Publish(topic, Some(packetId), Slice(ChunkPropertyList(id, offset)), payload, false,
                           Wire.AtLeastOnce, dup)
  }

  lemma ListOfThree(a: Property, b: Property, c: Property)
    ensures ListSize([a, b, c]) == Size(a) + Size(b) + Size(c)
    ensures PropertyFields(a).complete && PropertyFields(b).complete && PropertyFields(c).complete ==>
              ListFields([a, b, c]).complete
  {
    hide Size, PropertyFields;
    assert [a, b, c][1..] == [b, c] && [b, c][1..] == [c] && [c][1..] == [];
    assert ListSize([c]) == Size(c) + ListSize([]);
    assert ListFields([c]).complete == PropertyFields(c).complete;
    assert ListSize([b, c]) == Size(b) + ListSize([c]);
    assert ListFields([b, c]) == PropertyFields(b).Then(ListFields([c]));
    assert ListSize([a, b, c]) == Size(a) + ListSize([b, c]);
    assert ListFields([a, b, c]) == PropertyFields(a).Then(ListFields([b, c]));
  }

  lemma PropertyBytes(id: seq<Byte>, offset: U32)
    requires |id| <= 0xFFFF
    ensures ListFields(ChunkPropertyList(id, offset)).complete
    ensures ListSize(ChunkPropertyList(id, offset)) <= ChunkPropertyBytes(id)
  {
    var ps := ChunkPropertyList(id, offset);
    Decimal.AtMostTenDigits(offset);
    ListOfThree(ps[0], ps[1], ps[2]);
    assert ps == [ps[0], ps[1], ps[2]];
  }

  lemma PublishLength(topic: Wire.Text, packetId: U16, b: Block, payload: seq<Byte>)
    requires |topic| <= 0xFFFF && ContentFields(b).complete && BlockSize(b) <= Varint.MAX
    ensures |Packets.PublishFields(topic, Some(packetId), b).Then(Wire.Whole(payload)).bytes|
            == 2 + |topic| + 2 + |Varint.Encode(BlockSize(b))| + BlockSize(b) + |payload|
  {
    hide ContentFields, BlockSize, Varint.Encode;
    BlockSizeIsLength(b);
    assert TruncateU32(BlockSize(b)) == BlockSize(b);
  }

  lemma ChunkBody(topic: Wire.Text, packetId: U16, id: seq<Byte>, offset: U32, payload: seq<Byte>, dup: bool, room: nat)
    requires |id| <= 0xFFFF && |topic| <= 0xFFFF && |payload| <= room
    requires ListSize(ChunkPropertyList(id, offset)) <= Varint.MAX
    ensures |Packets.BodyFields(ChunkPacket(topic, packetId, id, offset, payload, dup)).bytes| <= ChunkRemaining(topic, id, room)
  {
    hide ListFields, ListSize, Varint.Encode, ChunkPropertyList, Wire.IsUtf8, Packets.PublishFields,
         ChunkPropertyBytes;
    var size := ListSize(ChunkPropertyList(id, offset));
    PropertyBytes(id, offset);
    Varint.LengthMonotone(size, ChunkPropertyBytes(id));
    PublishLength(topic, packetId, Slice(ChunkPropertyList(id, offset)), payload);
  }

  /** However the packet comes out, it is no longer than the receive budget the device checked. */
  lemma ChunkFitsBudget(topic: Wire.Text, packetId: U16, id: seq<Byte>, offset: U32, payload: seq<Byte>, dup: bool, room: nat)
    requires |id| <= 0xFFFF && |topic| <= 0xFFFF && |payload| <= room
    requires Packets.Sendable(ChunkPacket(topic, packetId, id, offset, payload, dup))
    ensures |Packets.Encode(ChunkPacket(topic, packetId, id, offset, payload, dup))| <= RequiredRxBytes(topic, id, room)
  {
    hide Packets.BodyFields, ChunkRemaining, Varint.Encode, ListSize, Wire.IsUtf8, ChunkPacket;
    var p := ChunkPacket(topic, packetId, id, offset, payload, dup);
    SmallList(id, offset);
    ChunkBody(topic, packetId, id, offset, payload, dup, room);
    Varint.LengthMonotone(|Packets.BodyFields(p).bytes|, ChunkRemaining(topic, id, room));
    assert TruncateU32(|Packets.BodyFields(p).bytes|) == |Packets.BodyFields(p).bytes|;
  }

  /** A full chunk at an offset of ten digits takes exactly the budget, so no smaller one would do. */
  lemma BudgetIsTight(topic: Wire.Text, packetId: U16, id: seq<Byte>, offset: U32, payload: seq<Byte>, dup: bool)
    requires |id| <= 0xFFFF && |topic| <= 0xFFFF && offset >= 1_000_000_000
    requires Packets.Sendable(ChunkPacket(topic, packetId, id, offset, payload, dup))
    ensures |Packets.Encode(ChunkPacket(topic, packetId, id, offset, payload, dup))| == RequiredRxBytes(topic, id, |payload|)
  {
    hide Packets.BodyFields, Varint.Encode, ListSize, ListFields, Wire.IsUtf8, Packets.PublishFields, ChunkPropertyList;
    var p := ChunkPacket(topic, packetId, id, offset, payload, dup);
    PropertyBytes(id, offset);
    SmallList(id, offset);
    TenDigits(id, offset);
    PublishLength(topic, packetId, Slice(ChunkPropertyList(id, offset)), payload);
    assert Packets.BodyFields(p) == Packets.PublishFields(topic, Some(packetId), Slice(ChunkPropertyList(id, offset)))
                                    .Then(Wire.Whole(payload)) by { ChunkFields(topic, packetId, id, offset, payload, dup); }
    assert TruncateU32(|Packets.BodyFields(p).bytes|) == |Packets.BodyFields(p).bytes|;
  }

  lemma ChunkFields(topic: Wire.Text, packetId: U16, id: seq<Byte>, offset: U32, payload: seq<Byte>, dup: bool)
    ensures Packets.BodyFields(ChunkPacket(topic, packetId, id, offset, payload, dup))
            == Packets.PublishFields(topic, Some(packetId), Slice(ChunkPropertyList(id, offset))).Then(Wire.Whole(payload))
  {
    hide Packets.PublishFields, ChunkPropertyList;
  }

  lemma TenDigits(id: seq<Byte>, offset: U32)
    requires |id| <= 0xFFFF && offset >= 1_000_000_000
    ensures ListSize(ChunkPropertyList(id, offset)) == ChunkPropertyBytes(id)
  {
    var ps := ChunkPropertyList(id, offset);
    Decimal.AtMostTenDigits(offset);
    Decimal.TenDigits(offset);
    ListOfThree(ps[0], ps[1], ps[2]);
    assert ps == [ps[0], ps[1], ps[2]];
  }

  lemma SmallList(id: seq<Byte>, offset: U32)
    requires |id| <= 0xFFFF
    ensures ListSize(ChunkPropertyList(id, offset)) <= Varint.MAX
  {
    hide ListSize, ChunkPropertyList;
    PropertyBytes(id, offset);
  }

  /** What the device parses out of those bytes is the same chunk for the same offset and transfer. */
  lemma ChunkArrives(topic: Wire.Text, packetId: U16, id: seq<Byte>, offset: U32, payload: seq<Byte>, dup: bool)
    requires |id| <= 0xFFFF && Packets.Sendable(ChunkPacket(topic, packetId, id, offset, payload, dup))
    ensures var r := Received.FromBuffer(Packets.Encode(ChunkPacket(topic, packetId, id, offset, payload, dup)));
            && r.Ok? && r.value.Publish? && r.value.topic == topic && r.value.payload == payload && !r.value.retain
            && ChunkProperties(Deserializer.Items(r.value.properties)) == Some((id, offset))
  {
    var p := ChunkPacket(topic, packetId, id, offset, payload, dup);
    Received.PacketRoundTrip(p);
    PropertyBytes(id, offset);
    Received.NormalKeepsItems(p.properties);
    PropertiesSurvive(id, offset);
  }
}
