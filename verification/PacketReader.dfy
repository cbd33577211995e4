/** Incremental packet framing (minimq/src/de/packet_reader.rs). */
module PacketReader {
  import opened Bytes
  import opened Packets
  import opened Received
  import opened ServerPackets
  import opened Transport
  import Cursor
  import Varint

  // ------------------------------------------------------ reader as values

  /** How many more bytes the reader asks for, having `rx` of the current packet. */
  function Want(rx: seq<Byte>, capacity: nat): (r: Result<nat, ProtocolError>)
    requires FirstPacket(rx).Packet? ==> |rx| <= FirstPacket(rx).len
    ensures r.Ok? ==> |rx| + r.value <= capacity
  {
    match FirstPacket(rx)
    case Malformed => Err(MalformedPacket)
    case More => if |rx| + 1 <= capacity then Ok(1) else Err(MalformedPacket)
    case Packet(n) => if n <= capacity then Ok(n - |rx|) else Err(MalformedPacket)
  }

  /** The current packet is not yet complete. */
  ghost predicate Open(rx: seq<Byte>) {
    FirstPacket(rx).Packet? ==> |rx| < FirstPacket(rx).len
  }

  /** Reader history: the packets handed on, and the bytes of the one being received. */
  datatype Progress = Progress(done: seq<seq<Byte>>, rx: seq<Byte>)

  /** One read: a nonempty chunk no longer than the window the reader offers. */
  ghost predicate Admissible(p: Progress, chunk: seq<Byte>, capacity: nat) {
    && Open(p.rx)
    && Want(p.rx, capacity).Ok?
    && 1 <= |chunk| <= Want(p.rx, capacity).value
  }

  ghost function Absorb(p: Progress, chunk: seq<Byte>): Progress {
    var rx := p.rx + chunk;
    if IsFrame(rx) then Progress(p.done + [rx], []) else Progress(p.done, rx)
  }

  /** A run of reads from `p`. */
  ghost predicate Reads(p: Progress, chunks: seq<seq<Byte>>, q: Progress, capacity: nat)
    decreases |chunks|
  {
    if chunks == [] then p == q
    else Admissible(p, chunks[0], capacity) && Reads(Absorb(p, chunks[0]), chunks[1..], q, capacity)
  }

  /** Reference framing of a whole stream: its complete packets and what is left over. */
  ghost function Split(s: seq<Byte>): Progress
    decreases |s|
  {
    var c := FirstPacket(s);
    if c.Packet? && c.len <= |s| then
      var rest := Split(s[c.len..]);
      Progress([s[..c.len]] + rest.done, rest.rx)
    else Progress([], s)
  }

  // ------------------------------------------ fragmentation independence

  lemma AbsorbKeepsOpen(p: Progress, chunk: seq<Byte>, capacity: nat)
    requires Admissible(p, chunk, capacity)
    ensures Open(Absorb(p, chunk).rx)
  {
    var rx := p.rx + chunk;
    if FirstPacket(p.rx).Packet? {
      FirstPacketStable(p.rx, chunk);
    } else if FirstPacket(rx).Packet? {
      // A single byte completed the fixed header, so the packet reaches at least this far.
      HeaderJustComplete(p.rx, chunk);
    }
  }

  lemma {:induction false} ReadByByte(s: seq<Byte>, b: Byte, room: nat)
    requires Varint.Read(s, room).Incomplete? && Varint.Read(s + [b], room).Done?
    ensures Varint.Read(s + [b], room).len == |s| + 1
    decreases room
  {
    if s == [] {
      assert (s + [b])[1..] == [];
      assert Varint.Read(s + [b], room).len <= |s + [b]|;
    } else {
      assert (s + [b])[1..] == s[1..] + [b];
      ReadByByte(s[1..], b, room - 1);
    }
  }

  lemma HeaderJustComplete(s: seq<Byte>, chunk: seq<Byte>)
    requires FirstPacket(s).More? && |chunk| == 1 && FirstPacket(s + chunk).Packet?
    ensures FirstPacket(s + chunk).len >= |s + chunk|
  {
    if |s| >= 2 {
      assert (s + chunk)[1..] == s[1..] + [chunk[0]];
      ReadByByte(s[1..], chunk[0], Varint.MAX_BYTES);
    }
  }

  lemma SplitPrepends(frame: seq<Byte>, rest: seq<Byte>)
    requires IsFrame(frame)
    ensures Split(frame + rest) == Progress([frame] + Split(rest).done, Split(rest).rx)
  {
    FirstPacketStable(frame, rest);
    DropConcat(frame, rest);
  }

  lemma SplitOpen(rx: seq<Byte>)
    requires Open(rx)
    ensures Split(rx) == Progress([], rx)
  {
  }

  /** Framing what follows a read, after the read, is framing the whole. */
  lemma AbsorbSplits(p: Progress, chunk: seq<Byte>, rest: seq<Byte>)
    ensures var mid := Absorb(p, chunk);
            && mid.done + Split(mid.rx + rest).done == p.done + Split(p.rx + chunk + rest).done
            && Split(mid.rx + rest).rx == Split(p.rx + chunk + rest).rx
  {
    hide FirstPacket, Split;
    var rx := p.rx + chunk;
    if IsFrame(rx) {
      SplitPrepends(rx, rest);
      assert [] + rest == rest;
      assert (p.done + [rx]) + Split(rest).done == p.done + ([rx] + Split(rest).done);
    }
  }

  /** Whatever the windows and chunk boundaries were, the outcome is the reference framing. */
  lemma {:induction false} ReadsAreSplit(p: Progress, chunks: seq<seq<Byte>>, q: Progress, capacity: nat)
    requires Open(p.rx) && Reads(p, chunks, q, capacity)
    ensures q == Progress(p.done + Split(p.rx + Flatten(chunks)).done, Split(p.rx + Flatten(chunks)).rx)
    decreases |chunks|
  {
    hide Admissible, Open, Absorb, Split;
    if chunks == [] {
      assert p.rx + Flatten(chunks) == p.rx;
      SplitOpen(p.rx);
    } else {
      var mid := Absorb(p, chunks[0]);
      AbsorbKeepsOpen(p, chunks[0], capacity);
      ReadsAreSplit(mid, chunks[1..], q, capacity);
      var rx := p.rx + chunks[0];
      var rest := Flatten(chunks[1..]);
      assert p.rx + Flatten(chunks) == rx + rest;
      AbsorbSplits(p, chunks[0], rest);
    }
  }

  /** Two ways of cutting the same input into reads hand on the same packets. */
  lemma FragmentationIrrelevant(a: seq<seq<Byte>>, b: seq<seq<Byte>>, p: Progress, q: Progress, m: nat, n: nat)
    requires Reads(Progress([], []), a, p, m) && Reads(Progress([], []), b, q, n)
    requires Flatten(a) == Flatten(b)
    ensures p == q
  {
    ReadsAreSplit(Progress([], []), a, p, m);
    ReadsAreSplit(Progress([], []), b, q, n);
  }

  lemma {:induction false} SplitFrames(frames: seq<seq<Byte>>)
    requires forall i | 0 <= i < |frames| :: IsFrame(frames[i])
    ensures Split(Flatten(frames)) == Progress(frames, [])
  {
    if frames != [] {
      SplitFrames(frames[1..]);
      SplitPrepends(frames[0], Flatten(frames[1..]));
      assert frames == [frames[0]] + frames[1..];
    }
  }

  // ------------------------------------------------- stream round trip

  ghost predicate AllReceivable(ps: seq<Packet>) {
    forall i | 0 <= i < |ps| :: Receivable(ps[i])
  }

  function TransmitAll(ps: seq<Packet>): (frames: seq<seq<Byte>>)
    ensures |frames| == |ps|
    ensures forall i | 0 <= i < |ps| :: frames[i] == Transmitted(ps[i])
  {
    if ps == [] then [] else [Transmitted(ps[0])] + TransmitAll(ps[1..])
  }

  lemma TransmittedAreFrames(ps: seq<Packet>)
    requires AllReceivable(ps)
    ensures Split(Flatten(TransmitAll(ps))) == Progress(TransmitAll(ps), [])
  {
    hide Receivable, IsFrame, Transmitted, Split, FromBuffer, AsReceived;
    forall i | 0 <= i < |ps| ensures IsFrame(TransmitAll(ps)[i]) {
      ReceivedIsTransmitted(ps[i]);
    }
    SplitFrames(TransmitAll(ps));
  }

  /**
    * Any packets a client can receive, transmitted one after the other, cut into reads in any admissible way and read
    * back, come out as the same packets in the same order, with nothing left over.
    */
  lemma StreamRoundTrip(ps: seq<Packet>, chunks: seq<seq<Byte>>, q: Progress, capacity: nat)
    requires AllReceivable(ps)
    requires Reads(Progress([], []), chunks, q, capacity)
    requires Flatten(chunks) == Flatten(TransmitAll(ps))
    ensures q.rx == [] && |q.done| == |ps|
    ensures forall i | 0 <= i < |ps| :: FromBuffer(q.done[i]) == Ok(AsReceived(ps[i]))
  {
    hide Receivable, FromBuffer, AsReceived, Transmitted, Split, Reads, TransmitAll, IsFrame;
    ReadsAreSplit(Progress([], []), chunks, q, capacity);
    assert [] + Flatten(chunks) == Flatten(TransmitAll(ps));
    TransmittedAreFrames(ps);
    forall i | 0 <= i < |ps| ensures FromBuffer(q.done[i]) == Ok(AsReceived(ps[i])) {
      ReceivedIsTransmitted(ps[i]);
    }
  }

  /** On the way, the reader never refuses: part of a packet that fits always leaves room to ask for more. */
  lemma NeverRefuses(frame: seq<Byte>, rx: seq<Byte>, capacity: nat)
    requires IsFrame(frame) && |frame| <= capacity && rx < frame
    ensures Open(rx) && Want(rx, capacity).Ok? && 1 <= Want(rx, capacity).value <= |frame| - |rx|
  {
    assert frame == rx + frame[|rx|..];
    if !FirstPacket(rx).More? {
      FirstPacketStable(rx, frame[|rx|..]);
    }
  }

  // ------------------------------------------------- the reader object

  /** Bytes received never run past the end of the packet they announce. */
  ghost predicate Inside(rx: seq<Byte>) {
    FirstPacket(rx).Packet? ==> |rx| <= FirstPacket(rx).len
  }

  lemma AdmissibleStaysInside(rx: seq<Byte>, chunk: seq<Byte>, capacity: nat)
    requires Inside(rx) && Want(rx, capacity).Ok? && |chunk| <= Want(rx, capacity).value
    ensures Inside(rx + chunk)
  {
    if FirstPacket(rx).Packet? {
      FirstPacketStable(rx, chunk);
    } else if chunk == [] {
      assert rx + chunk == rx;
    } else if FirstPacket(rx + chunk).Packet? {
      HeaderJustComplete(rx, chunk);
    }
  }

  lemma {:induction false} ReadsSnoc(p: Progress, chunks: seq<seq<Byte>>, q: Progress, chunk: seq<Byte>, capacity: nat)
    requires Reads(p, chunks, q, capacity) && Admissible(q, chunk, capacity)
    ensures Reads(p, chunks + [chunk], Absorb(q, chunk), capacity)
    decreases |chunks|
  {
    hide Admissible, Absorb;
    var all := chunks + [chunk];
    if chunks == [] {
      assert all[1..] == [];
      assert Reads(Absorb(q, chunk), all[1..], Absorb(q, chunk), capacity);
    } else {
      ReadsSnoc(Absorb(p, chunks[0]), chunks[1..], q, chunk, capacity);
      assert all[1..] == chunks[1..] + [chunk];
    }
  }

  class Reader {
    const buffer: array<Byte>
    var readBytes: nat
    var packetLength: Option<nat>

    ghost predicate Valid()
      reads this, buffer
    {
      && readBytes <= buffer.Length
      && Inside(Rx())
      && (packetLength.Some? ==> FirstPacket(Rx()) == Packet(packetLength.value))
    }

    ghost function Rx(): (rx: seq<Byte>)
      requires readBytes <= buffer.Length
      reads this, buffer
      ensures |rx| == readBytes
    {
      buffer[..readBytes]
    }

    constructor (buffer: array<Byte>)
      ensures Valid() && this.buffer == buffer && Rx() == []
    {
      this.buffer := buffer;
      readBytes, packetLength := 0, None;
    }

    /** `probe_fixed_header` and the window computation of `receive_buffer`. */
    method ReceiveBuffer() returns (r: Result<nat, ProtocolError>)
      requires Valid()
      modifies this`packetLength
      ensures Valid()
      ensures r == Want(Rx(), buffer.Length)
      ensures PacketAvailable() <==> r == Ok(0)
    {
      if packetLength.None? && readBytes > 1 {
        assert Rx()[1..] == buffer[1..readBytes];
        var scan := Varint.Probe(buffer[1..readBytes]);
        match scan {
          case Incomplete =>
          case Invalid(_) => return Err(MalformedPacket);
          case Done(v, n) => packetLength := Some(1 + n + v);
        }
      }
      var end := if packetLength.Some? then packetLength.value else readBytes + 1;
      if end <= buffer.Length {
        return Ok(end - readBytes);
      }
      return Err(MalformedPacket);
    }

    /** The transport fills part of the offered window, then `commit` counts it. */
    method Commit(bytes: seq<Byte>)
      requires Valid() && Want(Rx(), buffer.Length).Ok? && |bytes| <= Want(Rx(), buffer.Length).value
      modifies this`readBytes, buffer
      ensures Valid() && Rx() == old(Rx()) + bytes
    {
      ghost var before := Rx();
      AdmissibleStaysInside(before, bytes, buffer.Length);
      if packetLength.Some? {
        FirstPacketStable(before, bytes);
      }
      var start := readBytes;
      for i := 0 to |bytes|
        invariant readBytes == start
        invariant buffer[..start] == before
        invariant forall k | 0 <= k < i :: buffer[start + k] == bytes[k]
      {
        buffer[start + i] := bytes[i];
      }
      readBytes := start + |bytes|;
      assert Rx() == before + bytes;
    }

    predicate PacketAvailable()
      reads this
    {
      packetLength.Some? && readBytes >= packetLength.value
    }

    lemma AvailableIsFrame()
      requires Valid() && PacketAvailable()
      ensures IsFrame(Rx())
    {
    }

    method Reset()
      requires readBytes <= buffer.Length
      modifies this
      ensures Valid() && Rx() == [] && !PacketAvailable()
    {
      readBytes, packetLength := 0, None;
    }

    /** Hand on the complete packet and be ready for the next one. */
    method TakePacket() returns (r: Result<Packet, ProtocolError>)
      requires Valid() && PacketAvailable()
      modifies this
      ensures Valid() && Rx() == [] && !PacketAvailable()
      ensures IsFrame(old(Rx())) && r == FromBuffer(old(Rx()))
    {
      assert packetLength.value == readBytes;
      var packet := buffer[..packetLength.value];
      Reset();
      r := Cursor.ParsePacket(packet);
    }
  }

  datatype Fill = Filled | Refused(error: ProtocolError) | Closed | Failed | Cancelled

  /**
    * `fill_packet_reader`: read until a packet is complete. Bytes received are kept on every exit, and
    * the reads made are an admissible run, so the framing results apply to whatever comes out.
    */
  method FillPacketReader(reader: Reader, io: Io) returns (r: Fill, ghost chunks: seq<seq<Byte>>)
    requires reader.Valid()
    modifies reader, reader.buffer, io
    ensures reader.Valid()
    ensures reader.Rx() == old(reader.Rx()) + Flatten(chunks)
    ensures io.incoming == old(io.incoming) + Flatten(chunks) && io.outgoing == old(io.outgoing)
    ensures r.Filled? <==> reader.PacketAvailable()
    ensures r.Filled? ==> IsFrame(reader.Rx())
    ensures !IsFrame(old(reader.Rx())) ==>
              Reads(Progress([], old(reader.Rx())), chunks,
                    if IsFrame(reader.Rx()) then Progress([reader.Rx()], []) else Progress([], reader.Rx()),
                    reader.buffer.Length)
  {
    hide FirstPacket, Want, Reads, Flatten, Inside;
    chunks := [];
    ghost var start := reader.Rx();
    assert Flatten<Byte>([]) == [] by { NothingFlattened(); }
    CollectedStart(start, reader.buffer.Length);
    while !reader.PacketAvailable()
      invariant reader.Valid()
      invariant reader.Rx() == start + Flatten(chunks)
      invariant io.incoming == old(io.incoming) + Flatten(chunks) && io.outgoing == old(io.outgoing)
      invariant Collected(start, chunks, reader.Rx(), reader.buffer.Length)
      decreases reader.buffer.Length - reader.readBytes
    {
      var window := reader.ReceiveBuffer();
      if window.Err? {
        r := Refused(window.error);
        return;
      }
      if window.value == 0 {
        break;
      }
      var read := io.Read(window.value);
      match read {
        case ReadFailed => r := Fill.Failed; return;
        case ReadCancelled => r := Cancelled; return;
        case Data(bytes) =>
          if bytes == [] {
            r := Closed;
            assert io.incoming == old(io.incoming) + Flatten(chunks);
            return;
          }
          CollectedStep(start, chunks, reader.Rx(), bytes, reader.buffer.Length);
          FlattenSnoc(chunks, bytes);
          reader.Commit(bytes);
          chunks := chunks + [bytes];
      }
    }
    reader.AvailableIsFrame();
    r := Filled;
  }

  lemma NothingFlattened()
    ensures Flatten<Byte>([]) == []
  {
  }

  lemma CollectedStart(start: seq<Byte>, capacity: nat)
    ensures Collected(start, [], start, capacity)
  {
  }

  /** The reads made so far form a run ending with `rx` received. */
  ghost predicate Collected(start: seq<Byte>, chunks: seq<seq<Byte>>, rx: seq<Byte>, capacity: nat) {
    !IsFrame(start) ==>
      Reads(Progress([], start), chunks, if IsFrame(rx) then Progress([rx], []) else Progress([], rx), capacity)
  }

  lemma CollectedStep(start: seq<Byte>, chunks: seq<seq<Byte>>, rx: seq<Byte>, bytes: seq<Byte>, capacity: nat)
    requires Collected(start, chunks, rx, capacity) && Inside(rx)
    requires Want(rx, capacity).Ok? && 1 <= |bytes| <= Want(rx, capacity).value
    ensures Collected(start, chunks + [bytes], rx + bytes, capacity)
  {
    if !IsFrame(start) {
      var q := Progress([], rx);
      assert !IsFrame(rx);
      assert Admissible(q, bytes, capacity);
      ReadsSnoc(Progress([], start), chunks, q, bytes, capacity);
      assert [] + [rx + bytes] == [rx + bytes];
    }
  }
}
