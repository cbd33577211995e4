/** The host side of the staging protocol (mqtt-staging/py/mqtt_staging.py). */
module StagingHost {
  import opened Bytes
  import opened Properties
  import opened StagingDevice
  import Decimal
  import Deserializer
  import Wire

  /** One staging command: the object, the identifier in its manifest and the chunk size asked for. */
  datatype Host = Host(prefix: seq<Byte>, id: seq<Byte>, data: seq<Byte>, requested: nat)

  datatype Message = Message(topic: seq<Byte>, status: Status)

  datatype Chunk = Chunk(offset: nat, payload: seq<Byte>)

  // ---------------------------------------------------------------- chunks

  /** `aligned_chunk_size`. */
  function AlignedChunkSize(requested: nat, mtu: nat, writeSize: nat): (size: nat)
    requires writeSize > 0
  {
    var size := if requested <= mtu then requested else mtu;
    size - size % writeSize
  }

  function Fill(n: nat): (s: seq<Byte>)
    ensures |s| == n && Erased(s)
  {
    seq(n, _ => 0xff)
  }

  /** The object bytes at `offset`, and on the last chunk the padding up to the write size. */
  function ChunkAt(data: seq<Byte>, offset: nat, size: nat, writeSize: nat): (s: seq<Byte>)
    requires writeSize > 0 && offset <= |data|
  {
    var raw := data[offset..Min(|data|, offset + size)];
    if offset + |raw| >= |data| then raw + Fill(-(|raw| as int) % writeSize) else raw
  }

  /** The chunk agrees with the object wherever the object has bytes. */
  ghost predicate Carries(data: seq<Byte>, offset: nat, payload: seq<Byte>) {
    forall i | 0 <= i < |payload| && offset + i < |data| :: payload[i] == data[offset + i]
  }

  lemma ChunkCarries(data: seq<Byte>, offset: nat, size: nat, writeSize: nat)
    requires writeSize > 0 && offset <= |data|
    ensures Carries(data, offset, ChunkAt(data, offset, size, writeSize))
    ensures Erased(ChunkAt(data, offset, size, writeSize)[Min(|data| - offset, size)..])
  {
  }

  // -------------------------------------------------------------- reactions

  /** `raise_for_error`. */
  predicate Rejects(s: Status) {
    s.state.Error? || s.code.Error? || s.code.Mtu? || s.code.Offset? || s.code.Oversize? || s.code.Storage?
    || s.code.Unaligned?
  }

  /** `Transfer.matches`. */
  predicate Matches(h: Host, s: Status) {
    s.id == h.id && s.correlation == h.id && s.size == |h.data|
  }

  datatype Screening = Skip | Raise | Take

  /** One message in the loop of `wait_status`. */
  function Screen(h: Host, m: Message): Screening {
    var s := m.status;
    if m.topic != h.prefix + STATUS_SUFFIX then Skip
    else if s.id == [] && s.correlation == [] then (if Rejects(s) then Raise else Skip)
    else if !Matches(h, s) then Skip
    else if Rejects(s) then Raise
    else Take
  }

  datatype Reaction = Finish | Continue | Broken | Send(chunk: Chunk)

  /** What `stage` does with a status that was let through. */
  function React(h: Host, s: Status): Reaction {
    if s.code.Complete? then Finish
    else if s.responseTopic != h.prefix + CHUNK_SUFFIX || s.offset != s.nextOffset then Broken
    else if s.state.Preparing? then Continue
    else if s.writeSize == 0 then Broken
    else
      var size := AlignedChunkSize(h.requested, s.mtu, s.writeSize);
      if size == 0 || s.offset >= |h.data| then Broken
      else Send(Chunk(s.offset, ChunkAt(h.data, s.offset, size, s.writeSize)))
  }

  // ------------------------------------------------------------------ loops

  datatype Waited = TimedOut | Rejected | Received(status: Status)

  /** `wait_status`: the queue is read until a status is let through or refused, or it runs dry. */
  method WaitStatus(h: Host, queue: seq<Message>, from: nat) returns (r: Waited, next: nat)
    requires from <= |queue|
    ensures from <= next <= |queue|
    ensures r.TimedOut? ==> next == |queue| && forall i | from <= i < next :: Screen(h, queue[i]).Skip?
    ensures !r.TimedOut? ==> from < next && (forall i | from <= i < next - 1 :: Screen(h, queue[i]).Skip?)
    ensures r.Rejected? ==> Screen(h, queue[next - 1]).Raise?
    ensures r.Received? ==> Screen(h, queue[next - 1]).Take? && r.status == queue[next - 1].status
  {
    next := from;
    while next < |queue|
      invariant from <= next <= |queue|
      invariant forall i | from <= i < next :: Screen(h, queue[i]).Skip?
    {
      var m := queue[next];
      next := next + 1;
      if m.topic != h.prefix + STATUS_SUFFIX {
        continue;
      }
      var s := m.status;
      if s.id == [] && s.correlation == [] {
        if Rejects(s) {
          return Rejected, next;
        }
        continue;
      }
      if !Matches(h, s) {
        continue;
      }
      if Rejects(s) {
        return Rejected, next;
      }
      return Received(s), next;
    }
    return TimedOut, next;
  }

  datatype Outcome = Staged | GaveUp | NoAnswer

  /** What the whole command does with the messages it gets, and the chunks it publishes. */
  function Serve(h: Host, queue: seq<Message>): (Outcome, seq<Chunk>) {
    if queue == [] then (NoAnswer, [])
    else match Screen(h, queue[0])
      case Skip => Serve(h, queue[1..])
      case Raise => (GaveUp, [])
      case Take =>
        match React(h, queue[0].status)
        case Finish => (Staged, [])
        case Broken => (GaveUp, [])
        case Continue => Serve(h, queue[1..])
        case Send(chunk) => var (o, cs) := Serve(h, queue[1..]); (o, [chunk] + cs)
  }

  /** `sent` is what the first `at` messages led to, and the rest decides the outcome. */
  ghost predicate Served(h: Host, queue: seq<Message>, at: nat, sent: seq<Chunk>)
    requires at <= |queue|
  {
    Serve(h, queue) == (Serve(h, queue[at..]).0, sent + Serve(h, queue[at..]).1)
  }

  lemma NothingServed(h: Host, queue: seq<Message>)
    ensures Served(h, queue, 0, [])
  {
    assert queue[0..] == queue && [] + Serve(h, queue).1 == Serve(h, queue).1;
  }

  lemma ServeHead(h: Host, queue: seq<Message>, at: nat)
    requires at < |queue|
    ensures queue[at..][0] == queue[at] && queue[at..][1..] == queue[at + 1..]
  {
  }

  lemma {:induction false} ServeSkips(h: Host, queue: seq<Message>, at: nat, next: nat, sent: seq<Chunk>)
    requires at <= next <= |queue| && Served(h, queue, at, sent)
    requires forall i | at <= i < next :: Screen(h, queue[i]).Skip?
    ensures Served(h, queue, next, sent)
    decreases |queue| - at
  {
    if at < next {
      ServeHead(h, queue, at);
      ServeSkips(h, queue, at + 1, next, sent);
    }
  }

  /** One status let through. */
  lemma ServeTakes(h: Host, queue: seq<Message>, at: nat, sent: seq<Chunk>)
    requires at < |queue| && Served(h, queue, at, sent) && Screen(h, queue[at]).Take?
    ensures var r := React(h, queue[at].status);
            && (r.Finish? ==> Serve(h, queue) == (Staged, sent))
            && (r.Broken? ==> Serve(h, queue) == (GaveUp, sent))
            && (r.Continue? ==> Served(h, queue, at + 1, sent))
            && (r.Send? ==> Served(h, queue, at + 1, sent + [r.chunk]))
  {
    hide Screen, React;
    ServeHead(h, queue, at);
    assert sent + [] == sent;
    var r := React(h, queue[at].status);
    if r.Send? {
      var rest := Serve(h, queue[at + 1..]).1;
      assert sent + ([r.chunk] + rest) == sent + [r.chunk] + rest;
    }
  }

  lemma ServeEnds(h: Host, queue: seq<Message>, at: nat, sent: seq<Chunk>)
    requires at <= |queue| && Served(h, queue, at, sent)
    ensures at == |queue| ==> Serve(h, queue) == (NoAnswer, sent)
    ensures at < |queue| && Screen(h, queue[at]).Raise? ==> Serve(h, queue) == (GaveUp, sent)
  {
    hide Screen, React;
    assert sent + [] == sent;
    if at < |queue| {
      ServeHead(h, queue, at);
    } else {
      assert queue[at..] == [];
    }
  }

  /** `stage`, after the manifest went out. */
  method Stage(h: Host, queue: seq<Message>) returns (outcome: Outcome, sent: seq<Chunk>)
    ensures (outcome, sent) == Serve(h, queue)
  {
    hide Serve, Served, Screen;
    sent := [];
    var at := 0;
    NothingServed(h, queue);
    while true
      invariant at <= |queue| && Served(h, queue, at, sent)
      decreases |queue| - at
    {
      var r, next := WaitStatus(h, queue, at);
      ServeSkips(h, queue, at, if r.TimedOut? then next else next - 1, sent);
      ServeEnds(h, queue, if r.TimedOut? then next else next - 1, sent);
      match r {
        case TimedOut => return NoAnswer, sent;
        case Rejected => return GaveUp, sent;
        case Received(s) =>
          ServeTakes(h, queue, next - 1, sent);
          match React(h, s) {
            case Finish => return Staged, sent;
            case Broken => return GaveUp, sent;
            case Continue =>
            case Send(chunk) => sent := sent + [chunk];
          }
          at := next;
      }
    }
  }

  /** Some status of this transfer asks, on the chunk topic, for what `c` carries. */
  ghost predicate Requested(h: Host, queue: seq<Message>, c: Chunk) {
    exists m | m in queue ::
      && m.topic == h.prefix + STATUS_SUFFIX && Matches(h, m.status) && !Rejects(m.status) && !m.status.state.Preparing?
      && m.status.responseTopic == h.prefix + CHUNK_SUFFIX && m.status.offset == m.status.nextOffset == c.offset < |h.data|
      && |c.payload| > 0
  }

  /** Everything the command publishes is object data that was asked for, and it succeeds only on a matching completion. */
  lemma {:induction false} ServeIsHonest(h: Host, queue: seq<Message>)
    ensures forall c | c in Serve(h, queue).1 :: Carries(h.data, c.offset, c.payload) && Requested(h, queue, c)
    ensures Serve(h, queue).0.Staged? ==>
              exists m | m in queue :: Matches(h, m.status) && m.status.code.Complete? && !Rejects(m.status)
  {
    if queue != [] {
      ServeIsHonest(h, queue[1..]);
      var s := queue[0].status;
      if Screen(h, queue[0]).Take? && React(h, s).Send? {
        ChunkCarries(h.data, s.offset, AlignedChunkSize(h.requested, s.mtu, s.writeSize), s.writeSize);
      }
    }
  }

  // ------------------------------------------------------------ publications

  function OffsetText(): (t: Wire.Text)
    ensures t == OFFSET_KEY
  {
    Decimal.AsciiIsText(OFFSET_KEY);
    OFFSET_KEY
  }

  /** `chunk_properties`. */
  function ChunkPropertyList(id: seq<Byte>, offset: nat): seq<Property> {
    [PayloadFormatIndicator(0), CorrelationData(id), UserProperty(OffsetText(), Decimal.FormatText(offset))]
  }

  /** The device reads back the identifier and offset the host wrote. */
  lemma PropertiesSurvive(id: seq<Byte>, offset: U32)
    ensures ChunkProperties(Deserializer.Listing(ChunkPropertyList(id, offset))) == Some((id, offset))
  {
    var items := Deserializer.Listing(ChunkPropertyList(id, offset));
    Decimal.RoundTrip(offset);
    assert items[1..][0] == Some(CorrelationData(id));
    assert Correlation(items) == Correlation(items[1..]);
  }
}
