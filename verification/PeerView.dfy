/** The client's byte stream as a peer reads it back. */
module PeerView {
  import opened Bytes
  import opened Meaning
  import opened Outbound
  import opened Packets
  import opened Runs
  import opened Session
  import PacketReader

  lemma {:induction false} SplitStream(frames: seq<seq<Byte>>, ending: seq<Byte>)
    requires (forall i | 0 <= i < |frames| :: IsFrame(frames[i])) && PacketReader.Open(ending)
    ensures PacketReader.Split(Flatten(frames) + ending) == PacketReader.Progress(frames, ending)
  {
    hide IsFrame, PacketReader.Open, PacketReader.Split;
    if frames == [] {
      assert Flatten(frames) + ending == ending;
      PacketReader.SplitOpen(ending);
    } else {
      SplitStream(frames[1..], ending);
      PacketReader.SplitPrepends(frames[0], Flatten(frames[1..]) + ending);
      assert Flatten(frames) + ending == frames[0] + (Flatten(frames[1..]) + ending);
      assert frames == [frames[0]] + frames[1..];
    }
  }

  lemma SeveredIsOpen(cut: seq<Byte>)
    requires Severed(cut)
    ensures PacketReader.Open(cut)
  {
    if cut != [] {
      var f: seq<Byte> :| IsFrame(f) && cut < f;
      PacketReader.NeverRefuses(f, cut, |f|);
    }
  }

  lemma NothingOpen()
    ensures PacketReader.Open([])
  {
  }

  lemma EndingSevered(c: Conn)
    requires Streamed(c)
    ensures Severed(Ending(c))
  {
    hide Severed, Items, Flatten, AllGenuine;
    BegunIsSevered(c.core.out);
  }

  lemma FramesOf(ms: seq<Message>)
    requires AllGenuine(ms)
    ensures forall i | 0 <= i < |AllBytes(ms)| :: IsFrame(AllBytes(ms)[i])
  {
  }

  /** A stream in order, cut into reads in any way, comes out as the packets that were completed on it. */
  lemma StreamedReads(c: Conn, chunks: seq<seq<Byte>>, q: PacketReader.Progress, capacity: nat)
    requires Streamed(c) && PacketReader.Reads(PacketReader.Progress([], []), chunks, q, capacity)
    requires Flatten(chunks) == c.link.wire
    ensures q == PacketReader.Progress(AllBytes(c.link.sent), Ending(c))
  {
    hide PacketReader.Reads, PacketReader.Split, PacketReader.Open, IsFrame, Ending, Flatten, Severed;
    EndingSevered(c);
    SeveredIsOpen(Ending(c));
    FramesOf(c.link.sent);
    SplitStream(AllBytes(c.link.sent), Ending(c));
    NothingOpen();
    PacketReader.ReadsAreSplit(PacketReader.Progress([], []), chunks, q, capacity);
    assert [] + Flatten(chunks) == Flatten(chunks);
  }

  /**
    * In every state of every run, a peer that reads this transport with any buffer and any fragmentation has
    * received exactly the packets the client completed, in order, and holds the unfinished rest.
    */
  lemma PeerReceives(states: seq<Conn>, events: seq<Event>, i: nat, chunks: seq<seq<Byte>>, q: PacketReader.Progress,
                     capacity: nat)
    requires IsRun(states, events) && Initial(states[0]) && i < |states|
    requires PacketReader.Reads(PacketReader.Progress([], []), chunks, q, capacity)
    requires Flatten(chunks) == states[i].link.wire
    ensures q == PacketReader.Progress(AllBytes(states[i].link.sent), Ending(states[i]))
  {
    hide IsRun, Initial, PacketReader.Reads, Flatten, Streamed, Ending, AllBytes;
    assert IsRun(states, events);
    RunStreamed(states, events, i);
    StreamedReads(states[i], chunks, q, capacity);
  }
}
