/** The packet size limit a broker sets, over whole runs (section 3.2.2.3.6 of MQTT Version 5.0). */
module Limits {
  import opened Answers
  import opened Bytes
  import opened Greetings
  import opened Handshake
  import opened Meaning
  import opened Outbound
  import opened OutboundLaws
  import opened PacketIds
  import opened Packets
  import opened Runs
  import opened Schedule
  import opened Session
  import Deserializer

  // -------------------------------------------------------- maximum packet size

  /** Every packet completed on the connection after its CONNECT is within the broker's limit. */
  ghost predicate Bounded(c: Conn) {
    forall p | 1 <= p < |c.link.sent| :: Allows(c.rt, |BytesOf(c.link.sent[p])|)
  }

  /** What an event other than a connect may add to a connection: one packet within the limit, which stays as it is. */
  ghost predicate Adds(c: Conn, d: Conn) {
    && d.rt.maxPacket == c.rt.maxPacket
    && (d.link.sent == c.link.sent
        || (|d.link.sent| == |c.link.sent| + 1 && c.link.sent <= d.link.sent && Allows(c.rt, |BytesOf(d.link.sent[|c.link.sent|])|)))
  }

  lemma AddsBounded(c: Conn, d: Conn)
    requires Bounded(c) && Adds(c, d)
    ensures Bounded(d)
  {
    hide BytesOf;
    forall p | 1 <= p < |d.link.sent| ensures Allows(d.rt, |BytesOf(d.link.sent[p])|) {
      if p < |c.link.sent| {
        assert d.link.sent[p] == c.link.sent[p];
      }
    }
  }

  lemma PerformAdds(c: Conn, s: Slot, now: nat, io: Io)
    requires Sound(c.core.out) && SlotIn(c.core.out, s) && ItemAt(c.core.out, s).state.Write?
    ensures Adds(c, PerformStep(c, s, now, io).0)
  {
    hide Sound, ItemAt, AdvanceSlot, Items, Begun, ArmReplay, BytesOf, IsFrame, Meant, Taken;
    SlotIsGenuine(c.core.out, s);
    var d := PerformStep(c, s, now, io).0;
    if PerformStep(c, s, now, io).1.Progress? {
      assert d.link.sent == c.link.sent || d.link.sent == c.link.sent + [ItemAt(c.core.out, s).packet];
    }
  }

  lemma FlushAdds(c: Conn, now: nat, io: Io)
    ensures Adds(c, FlushCurrent(c, now, io).0)
  {
    hide Items, Begun, ArmReplay, CompleteFlush, BytesOf;
  }

  lemma ServiceAdds(c: Conn, now: nat, io: Io)
    requires Streamed(c)
    ensures Adds(c, ServiceOnce(c, now, io).0)
  {
    hide PerformStep, FlushCurrent, NextStep, SlotIn, ItemAt, ShouldPing, ControlBytes, Streamed, Sound, BytesOf;
    FlushAdds(c, now, io);
    StreamedUnique(c);
    if c.link.flush.Flushing? {
    } else if NextStep(c.core.out).Some? {
      NextStepWritable(c.core.out);
      PerformAdds(c, NextStep(c.core.out).value, now, io);
    } else if c.link.flush.Clean? && MaybePing(c, now).Ok? {
      var d := MaybePing(c, now).value;
      PingKeeps(c, now);
      StreamedUnique(d);
      if NextStep(d.core.out).Some? {
        NextStepWritable(d.core.out);
        PerformAdds(d, NextStep(d.core.out).value, now, io);
      }
    }
  }

  lemma ReceiveAdds(c: Conn, p: Packet)
    ensures Adds(c, Process(c, p).0)
  {
    hide HandlePublish, HandlePubRel, HasOp, HasRelease, AckPacket, AckRelease, FailedCode, FirstFailed, ReleaseBytes,
         Items, Begun, ArmReplay, BytesOf;
  }

  lemma AskAdds(c: Conn, r: Request)
    requires Streamed(c) && Fits(c.core.out)
    ensures Adds(c, Admit(c, r).0)
  {
    hide EncodePublishInto, EncodeInto, PublishFields, RetainedBytes, Fits, FreshId, Streamed, BytesOf;
    AdmitGrowsLink(c, r);
  }

  lemma DirectAdds(c: Conn, packet: seq<Byte>, written: nat, ok: bool, close: bool, now: nat)
    requires written <= |packet| && Allows(c.rt, |packet|)
    ensures Adds(c, WriteDirect(c, packet, written, ok, close, now))
  {
    hide Items, Begun, ArmReplay;
  }

  lemma StepBounded(c: Conn, e: Event)
    requires Streamed(c) && Fits(c.core.out) && Enabled(c, e) && Bounded(c)
    ensures Bounded(Apply(c, e))
  {
    hide Streamed, ServiceOnce, Process, Admit, WriteDirect, Connect, Quieted, Fits, Unremembered, Adds, BytesOf, NextStep;
    var d := Apply(c, e);
    match e {
      case Service(now, io) =>
        ServiceAdds(c, now, io);
        AddsBounded(c, d);
      case Drop =>
        assert d.link.sent == c.link.sent && d.rt.maxPacket == c.rt.maxPacket by { DropSame(c); }
      case Receive(p) =>
        ReceiveAdds(c, p);
        AddsBounded(c, d);
      case Ask(r) =>
        AskAdds(c, r);
        AddsBounded(c, d);
      case Direct(packet, written, ok, close, now) =>
        DirectAdds(c, packet, written, ok, close, now);
        AddsBounded(c, d);
      case Open(answer, now) => OpenSendsOne(c, answer, now);
    }
  }

  lemma DropSame(c: Conn)
    ensures HandleDisconnect(c).link.sent == c.link.sent && HandleDisconnect(c).rt.maxPacket == c.rt.maxPacket
  {
    hide Items, Begun, ArmReplay;
  }

  lemma OpenSendsOne(c: Conn, answer: Answer, now: nat)
    ensures |Connect(c, answer, now).0.link.sent| <= 1
  {
    hide EncodeInto, ConnectBody, ConnectNeed, SettleAll, Deserializer.Items, Handshake.Publishes, ArmReplay,
         RetainedBytes, Items, Begun;
  }

  /** In every state of every run, nothing completed after the CONNECT exceeds the Maximum Packet Size of the broker. */
  lemma {:induction false} WithinBrokerLimit(states: seq<Conn>, events: seq<Event>, i: nat, p: nat)
    requires IsRun(states, events) && Initial(states[0]) && i <= |events| && 1 <= p < |states[i].link.sent|
    ensures states[i].rt.maxPacket.Some? ==> |BytesOf(states[i].link.sent[p])| <= states[i].rt.maxPacket.value
  {
    hide Enabled, Fits, Initial;
    RunBounded(states, events, i);
  }

  lemma {:induction false} RunBounded(states: seq<Conn>, events: seq<Event>, i: nat)
    requires IsRun(states, events) && Initial(states[0]) && i <= |events|
    ensures Bounded(states[i])
  {
    hide Enabled, Fits, Streamed, Apply, Bounded;
    if i == 0 {
      NothingSentYet(states[0]);
    } else {
      RunBounded(states, events, i - 1);
      RunStreamed(states, events, i - 1);
      assert states[i - 1 + 1] == Apply(states[i - 1], events[i - 1]);
      StepBounded(states[i - 1], events[i - 1]);
    }
  }

  lemma NothingSentYet(c: Conn)
    ensures Initial(c) ==> Bounded(c)
  {
  }
}
