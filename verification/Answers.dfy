/**
  * How inbound packets are answered and what reaches the application, over whole runs
  * (minimq/src/mqtt_client/session/inbound.rs; sections 3.4 to 3.7 and 4.3 of MQTT Version 5.0).
  */
module Answers {
  import opened Bytes
  import opened Greetings
  import opened Outbound
  import opened OutboundLaws
  import opened Packets
  import opened Received
  import opened Runs
  import opened Schedule
  import opened Session
  import Deserializer
  import PacketIds

  // ------------------------------------------------------------------ one packet

  /** The answer a packet calls for, when QoS 2 publications under `ids` are not released yet. */
  function Owed(ids: seq<U16>, p: Packet): Option<Packet> {
    match p
    case Publish(_, Some(id), _, _, _, AtLeastOnce, _) => Some(Packet.PubAck(id, Reason(if id in ids then 0x91 else 0x00, None)))
    case Publish(_, Some(id), _, _, _, ExactlyOnce, _) =>
      Some(Packet.PubRec(id, Reason(if id !in ids && |ids| >= 8 then 0x93 else 0x00, None)))
    case PubRel(id, _) => Some(Packet.PubComp(id, Reason(if id in ids then 0x00 else 0x92, None)))
    case _ => None
  }

  /** The packet a control action stands for on the wire, if it is an answer. */
  function OnWire(a: ControlAction): Result<Packet, ProtocolError> {
    FromBuffer(ControlBytes(a))
  }

  lemma ActionReads(a: ControlAction)
    ensures match a
            case AckPublish(id, reason) => OnWire(a) == Ok(Packet.PubAck(id, Reason(reason, None)))
            case RecPublish(id, reason) => OnWire(a) == Ok(Packet.PubRec(id, Reason(reason, None)))
            case CompPublish(id, reason) => OnWire(a) == Ok(Packet.PubComp(id, Reason(reason, None)))
            case Ping => ControlBytes(a) == [0xC0, 0] && OnWire(a).Err?
  {
    hide FromBuffer;
    match a {
      case AckPublish(id, reason) => PacketRoundTrip(Packet.PubAck(id, Reason(reason, None)));
      case RecPublish(id, reason) => PacketRoundTrip(Packet.PubRec(id, Reason(reason, None)));
      case CompPublish(id, reason) => PacketRoundTrip(Packet.PubComp(id, Reason(reason, None)));
      case Ping => PingBytes();
    }
  }

  lemma PingBytes()
    ensures ControlBytes(Ping) == [0xC0, 0] && FromBuffer([0xC0, 0]).Err?
  {
    assert ControlBytes(Ping) == [0xC0, 0];
    var s: seq<Byte> := [0xC0, 0];
    assert s[1..] == [0];
    Deserializer.TakeVarintEncoded(0, [], Deserializer.Custom);
    assert [0] + [] == [0];
  }

  /** The action with those bytes. */
  lemma ActionFor(a: ControlAction, b: ControlAction)
    requires OnWire(a).Ok? && OnWire(a) == OnWire(b)
    ensures a == b
  {
    hide OnWire;
    ActionReads(a);
    ActionReads(b);
  }

  /** The broker accepts packets of that length. */
  predicate Allows(rt: Runtime, len: nat) {
    rt.maxPacket.Some? ==> len <= rt.maxPacket.value
  }

  lemma QueueCheckedIs(core: Core, rt: Runtime, a: ControlAction)
    requires |core.out.control| < MAX_PENDING_CONTROL && !a.Ping?
    ensures QueueChecked(core, rt, a) ==
            if Allows(rt, 5) then Ok(core.(out := core.out.(control := core.out.control + [PendingControl(a, Write(0))])))
            else Err(PacketTooLarge)
  {
    hide ControlBytes;
    ControlBytesFrame(a);
  }

  /** The control queue after a packet, before any disconnect: one answer more, or as it was. */
  ghost predicate Answered(c: Conn, core: Core, h: Handled, p: Packet) {
    match Owed(c.core.serverIds, p)
    case None => core.out.control == c.core.out.control
    case Some(q) =>
      if Allows(c.rt, 5) then
        && !h.Fail? && |core.out.control| == |c.core.out.control| + 1
        && core.out.control[..|c.core.out.control|] == c.core.out.control
        && var last := core.out.control[|c.core.out.control|]; last.state == Write(0) && OnWire(last.action) == Ok(q)
      else h == Fail(PacketTooLarge) && core.out.control == c.core.out.control
  }

  lemma PublishAnswered(c: Conn, p: Packet)
    requires |c.core.out.control| < MAX_PENDING_CONTROL && p.Publish?
    ensures var (core, h) := HandlePublish(c.core, c.rt, p.qos, p.packetId); Answered(c, core, h, p)
  {
    hide QueueChecked, OnWire;
    if p.packetId.Some? && !p.qos.AtMostOnce? {
      var id, ids := p.packetId.value, c.core.serverIds;
      if p.qos.AtLeastOnce? {
        var a := AckPublish(id, if id in ids then PACKET_ID_IN_USE else SUCCESS);
        ActionReads(a);
        QueueCheckedIs(c.core, c.rt, a);
      } else {
        var full := id !in ids && |ids| >= MAX_INBOUND_QOS2;
        var noted := if id in ids || full then c.core else c.core.(serverIds := ids + [id]);
        var a := RecPublish(id, if full then RECEIVE_MAX_EXCEEDED else SUCCESS);
        ActionReads(a);
        QueueCheckedIs(noted, c.rt, a);
      }
    }
  }

  lemma PubRelAnswered(c: Conn, id: U16, reason: Reason)
    requires |c.core.out.control| < MAX_PENDING_CONTROL
    ensures var (core, h) := HandlePubRel(c.core, c.rt, id); Answered(c, core, h, Packet.PubRel(id, reason))
  {
    hide QueueChecked, OnWire, IdPosition, SwapRemove;
    var i := IdPosition(c.core.serverIds, id);
    var found := i < |c.core.serverIds|;
    var released := c.core.(serverIds := if found then SwapRemove(c.core.serverIds, i) else c.core.serverIds,
                            inbound := c.core.inbound + [Released(id)]);
    var a := CompPublish(id, if found then SUCCESS else PACKET_ID_NOT_FOUND);
    ActionReads(a);
    QueueCheckedIs(released, c.rt, a);
  }

  lemma HandleAnswered(c: Conn, p: Packet)
    requires |c.core.out.control| < MAX_PENDING_CONTROL
    ensures var (core, rt, h) := HandlePacket(c.core, c.rt, p); Answered(c, core, h, p)
  {
    hide HandlePublish, HandlePubRel, Answered, HasOp, HasRelease, AckPacket, AckRelease, FailedCode, FirstFailed,
         ReleaseBytes, OnWire;
    match p {
      case Publish(_, _, _, _, _, _, _) => PublishAnswered(c, p);
      case PubRel(id, reason) => PubRelAnswered(c, id, reason);
      case _ =>
        SameControl(c, p);
        NotOwed(c, HandlePacket(c.core, c.rt, p).0, HandlePacket(c.core, c.rt, p).2, p);
    }
  }

  lemma SameControl(c: Conn, p: Packet)
    requires !p.Publish? && !p.PubRel?
    ensures HandlePacket(c.core, c.rt, p).0.out.control == c.core.out.control
  {
    hide FailedCode, FirstFailed, ReleaseBytes, HasRelease;
  }

  lemma NotOwed(c: Conn, core: Core, h: Handled, p: Packet)
    requires !p.Publish? && !p.PubRel? && core.out.control == c.core.out.control
    ensures Answered(c, core, h, p)
  {
  }

  /** Handling a packet on a connection that goes on adds exactly the answer it calls for to the control queue. */
  lemma ReceiveAnswers(c: Conn, p: Packet)
    requires Fits(c.core.out) && Enabled(c, Receive(p)) && Process(c, p).0.link.live
    ensures Answered(c, Process(c, p).0.core, Process(c, p).1, p)
    ensures Owed(c.core.serverIds, p).Some? ==> Allows(c.rt, 5)
  {
    hide HandlePacket, Items, Begun, ArmReplay, Fits, Quieted, OnWire, Owed;
    HandleAnswered(c, p);
  }

  // --------------------------------------------------------------------- tallies

  function CountSent(ms: seq<Message>, a: ControlAction): nat {
    if ms == [] then 0 else CountSent(ms[..|ms| - 1], a) + (if ms[|ms| - 1] == ControlMessage(a) then 1 else 0)
  }

  /** Entries of the control queue still to be written. */
  function CountQueued(cs: seq<PendingControl>, a: ControlAction): nat {
    if cs == [] then 0
    else CountQueued(cs[..|cs| - 1], a) + (if cs[|cs| - 1].action == a && cs[|cs| - 1].state.Write? then 1 else 0)
  }

  /** How often an answer was completed on this connection or is still to be. */
  function Tally(c: Conn, a: ControlAction): nat {
    CountSent(c.link.sent, a) + CountQueued(c.core.out.control, a)
  }

  lemma SentOne(ms: seq<Message>, m: Message, a: ControlAction)
    ensures CountSent(ms + [m], a) == CountSent(ms, a) + (if m == ControlMessage(a) then 1 else 0)
  {
    assert (ms + [m])[..|ms|] == ms;
  }

  lemma QueuedOne(cs: seq<PendingControl>, x: PendingControl, a: ControlAction)
    ensures CountQueued(cs + [x], a) == CountQueued(cs, a) + (if x.action == a && x.state.Write? then 1 else 0)
  {
    assert (cs + [x])[..|cs|] == cs;
  }

  lemma {:induction false} QueuedUpdate(cs: seq<PendingControl>, i: nat, state: SendState, a: ControlAction)
    requires i < |cs| && cs[i].state.Write?
    ensures CountQueued(cs[i := cs[i].(state := state)], a)
            == CountQueued(cs, a) - (if cs[i].action == a && !state.Write? then 1 else 0)
  {
    var ds := cs[i := cs[i].(state := state)];
    if i == |cs| - 1 {
      assert ds[..|cs| - 1] == cs[..|cs| - 1];
    } else {
      assert ds[..|cs| - 1] == cs[..|cs| - 1][i := cs[i].(state := state)];
      QueuedUpdate(cs[..|cs| - 1], i, state, a);
    }
  }

  lemma {:induction false} QueuedConcat(cs: seq<PendingControl>, ds: seq<PendingControl>, a: ControlAction)
    ensures CountQueued(cs + ds, a) == CountQueued(cs, a) + CountQueued(ds, a)
  {
    if ds == [] {
      assert cs + ds == cs;
    } else {
      assert (cs + ds)[..|cs + ds| - 1] == cs + ds[..|ds| - 1];
      QueuedConcat(cs, ds[..|ds| - 1], a);
    }
  }

  lemma {:induction false} QueuedUnflushed(cs: seq<PendingControl>, a: ControlAction)
    ensures CountQueued(Unflushed(cs), a) == CountQueued(cs, a)
  {
    if cs != [] {
      QueuedUnflushed(cs[1..], a);
      QueuedConcat([cs[0]], cs[1..], a);
      assert [cs[0]] + cs[1..] == cs;
      var head := if cs[0].state.Flush? then [] else [cs[0]];
      QueuedConcat(head, Unflushed(cs[1..]), a);
      assert [cs[0]][..0] == [];
    }
  }

  lemma WriteTally(c: Conn, s: Slot, count: nat, now: nat, a: ControlAction)
    requires SlotIn(c.core.out, s) && ItemAt(c.core.out, s).state.Write?
    requires ItemAt(c.core.out, s).state.written + count <= |ItemAt(c.core.out, s).bytes|
    ensures Tally(AfterWrite(c, s, count, now), a) == Tally(c, a)
  {
    hide ControlBytes, ReleaseBytes, CountSent, CountQueued;
    var it := ItemAt(c.core.out, s);
    SentOne(c.link.sent, it.packet, a);
    if s.ControlSlot? {
      QueuedUpdate(c.core.out.control, s.index, SetWritten(it.state.written + count, |it.bytes|), a);
    }
  }

  lemma PerformTally(c: Conn, s: Slot, now: nat, io: Io, a: ControlAction)
    requires SlotIn(c.core.out, s) && ItemAt(c.core.out, s).state.Write?
    ensures var d := PerformStep(c, s, now, io).0; d.link.live ==> Tally(d, a) == Tally(c, a)
  {
    hide ItemAt, AfterWrite, Items, Begun, ArmReplay, Tally;
    if PerformStep(c, s, now, io).1.Progress? {
      WriteTally(c, s, Taken(io, ItemAt(c.core.out, s)), now, a);
    }
  }

  lemma FlushTally(c: Conn, now: nat, io: Io, a: ControlAction)
    ensures var d := FlushCurrent(c, now, io).0; d.link.live ==> Tally(d, a) == Tally(c, a)
  {
    hide Items, Begun, ArmReplay, CountSent, CountQueued, Unflushed;
    QueuedUnflushed(c.core.out.control, a);
  }

  lemma PingTally(c: Conn, now: nat, a: ControlAction)
    requires MaybePing(c, now).Ok? && !a.Ping?
    ensures Tally(MaybePing(c, now).value, a) == Tally(c, a) && MaybePing(c, now).value.link == c.link
  {
    hide ShouldPing, ControlBytes, CountSent, CountQueued;
    QueuedOne(c.core.out.control, PendingControl(Ping, Write(0)), a);
  }

  lemma ServiceTally(c: Conn, now: nat, io: Io, a: ControlAction)
    requires !a.Ping?
    ensures var d := ServiceOnce(c, now, io).0; d.link.live ==> Tally(d, a) == Tally(c, a)
  {
    hide PerformStep, FlushCurrent, NextStep, SlotIn, ItemAt, MaybePing, Tally;
    FlushTally(c, now, io, a);
    if c.link.flush.Flushing? {
    } else if NextStep(c.core.out).Some? {
      NextStepWritable(c.core.out);
      PerformTally(c, NextStep(c.core.out).value, now, io, a);
    } else if c.link.flush.Clean? && MaybePing(c, now).Ok? {
      var d := MaybePing(c, now).value;
      PingTally(c, now, a);
      if NextStep(d.core.out).Some? {
        NextStepWritable(d.core.out);
        PerformTally(d, NextStep(d.core.out).value, now, io, a);
      }
    }
  }

  /** The event is a packet that calls for this answer. */
  ghost predicate CallsFor(c: Conn, e: Event, a: ControlAction) {
    e.Receive? && OnWire(a).Ok? && Owed(c.core.serverIds, e.packet) == Some(OnWire(a).value)
  }

  lemma ReceiveTally(c: Conn, p: Packet, a: ControlAction)
    requires Fits(c.core.out) && Enabled(c, Receive(p)) && Process(c, p).0.link.live && !a.Ping?
    ensures Tally(Process(c, p).0, a) == Tally(c, a) + (if CallsFor(c, Receive(p), a) then 1 else 0)
  {
    hide Process, Fits, Enabled, CountSent, CountQueued, OnWire, Owed;
    ReceiveAnswers(c, p);
    ActionReads(a);
    var d := Process(c, p).0;
    assert d.link.sent == c.link.sent by { ProcessLink(c, p); }
    if Owed(c.core.serverIds, p).Some? {
      var last := d.core.out.control[|c.core.out.control|];
      assert d.core.out.control == c.core.out.control + [last];
      QueuedOne(c.core.out.control, last, a);
      if OnWire(last.action) == OnWire(a) {
        ActionFor(last.action, a);
      }
    }
  }

  lemma ProcessLink(c: Conn, p: Packet)
    ensures Process(c, p).0.link.sent == c.link.sent
  {
    hide HandlePacket, Items, Begun, ArmReplay;
  }

  lemma AdmitControl(c: Conn, r: Request)
    requires Streamed(c) && Fits(c.core.out)
    ensures Admit(c, r).0.link == c.link && Admit(c, r).0.core.out.control == c.core.out.control
  {
    hide EncodePublishInto, EncodeInto, PublishFields, RetainedBytes, Fits, PacketIds.FreshId, Streamed, EffectiveQos;
    assert Admit(c, r).0.link == c.link by { AdmitGrowsLink(c, r); }
  }

  lemma StepTally(c: Conn, e: Event, a: ControlAction)
    requires Streamed(c) && Fits(c.core.out) && Enabled(c, e) && !e.Open? && Apply(c, e).link.live && !a.Ping?
    ensures c.link.live
    ensures Tally(Apply(c, e), a) == Tally(c, a) + (if CallsFor(c, e, a) then 1 else 0)
  {
    hide Streamed, ServiceOnce, Process, Admit, Quieted, Fits, Unremembered, CallsFor, Items, Begun, ArmReplay, NextStep,
         CountSent, CountQueued;
    StepOn(c, e);
    match e {
      case Service(now, io) =>
        ServiceTally(c, now, io, a);
        NotCalled(c, e, a);
      case Receive(p) => ReceiveTally(c, p, a);
      case Ask(r) =>
        AdmitControl(c, r);
        NotCalled(c, e, a);
      case Direct(packet, written, ok, close, now) =>
        SentOne(c.link.sent, DirectMessage(packet), a);
        NotCalled(c, e, a);
      case _ =>
    }
  }

  lemma NotCalled(c: Conn, e: Event, a: ControlAction)
    requires !e.Receive?
    ensures !CallsFor(c, e, a)
  {
  }

  // ------------------------------------------------------------------------ runs

  /** How many of the packets received from state `i` to state `j` call for this answer. */
  ghost function Calls(states: seq<Conn>, events: seq<Event>, i: nat, j: nat, a: ControlAction): nat
    requires i <= j <= |events| < |states|
    decreases j - i
  {
    if i == j then 0
    else Calls(states, events, i, j - 1, a) + (if CallsFor(states[j - 1], events[j - 1], a) then 1 else 0)
  }

  ghost predicate NoConnect(events: seq<Event>, i: nat, j: nat) {
    j <= |events| && forall k | i <= k < j :: !events[k].Open?
  }

  lemma {:induction false} TallyGrows(states: seq<Conn>, events: seq<Event>, i: nat, j: nat, a: ControlAction)
    requires IsRun(states, events) && Initial(states[0]) && i <= j <= |events| && NoConnect(events, i, j)
    requires states[j].link.live && !a.Ping?
    ensures states[i].link.live && states[i].link.sent <= states[j].link.sent
    ensures Tally(states[j], a) == Tally(states[i], a) + Calls(states, events, i, j, a)
    decreases j - i
  {
    hide Enabled, Fits, Streamed, Apply, Initial, Tally, CallsFor;
    if i < j {
      RunStreamed(states, events, j - 1);
      assert states[j - 1 + 1] == Apply(states[j - 1], events[j - 1]);
      StepTally(states[j - 1], events[j - 1], a);
      StepOn(states[j - 1], events[j - 1]);
      TallyGrows(states, events, i, j - 1, a);
    }
  }

  /**
    * Every answer is written exactly once: between two idle states of one connection, as many PUBACKs, PUBRECs or PUBCOMPs
    * of an identifier and code are completed as packets were received that call for it.
    */
  lemma AnsweredExactlyOnce(states: seq<Conn>, events: seq<Event>, i: nat, j: nat, a: ControlAction)
    requires IsRun(states, events) && Initial(states[0]) && i <= j <= |events| && NoConnect(events, i, j)
    requires Idle(states[i]) && Idle(states[j]) && !a.Ping?
    ensures CountSent(states[j].link.sent, a) == CountSent(states[i].link.sent, a) + Calls(states, events, i, j, a)
  {
    hide Enabled, Fits, Streamed, NextStep, Initial, CallsFor, CountSent;
    TallyGrows(states, events, i, j, a);
    RunStreamed(states, events, i);
    RunStreamed(states, events, j);
    NothingQueued(states[i], a);
    NothingQueued(states[j], a);
  }

  lemma NothingQueued(c: Conn, a: ControlAction)
    requires Streamed(c) && Idle(c)
    ensures CountQueued(c.core.out.control, a) == 0
  {
    DrainedIsAllSent(c.core.out);
  }

  lemma {:induction false} SentConcat(ms: seq<Message>, ns: seq<Message>, a: ControlAction)
    ensures CountSent(ms + ns, a) == CountSent(ms, a) + CountSent(ns, a)
  {
    if ns == [] {
      assert ms + ns == ms;
    } else {
      assert (ms + ns)[..|ms + ns| - 1] == ms + ns[..|ns| - 1];
      SentConcat(ms, ns[..|ns| - 1], a);
    }
  }

  lemma {:induction false} SentFound(ms: seq<Message>, a: ControlAction)
    requires CountSent(ms, a) > 0
    ensures ControlMessage(a) in ms
  {
    if ms[|ms| - 1] != ControlMessage(a) {
      SentFound(ms[..|ms| - 1], a);
    }
  }

  lemma {:induction false} QueuedFound(cs: seq<PendingControl>, a: ControlAction)
    requires CountQueued(cs, a) > 0
    ensures exists i | 0 <= i < |cs| :: cs[i].action == a && cs[i].state.Write?
  {
    if !(cs[|cs| - 1].action == a && cs[|cs| - 1].state.Write?) {
      QueuedFound(cs[..|cs| - 1], a);
    }
  }

  /**
    * The answer to a packet received by event `k` stays: in every later state of the same connection it was completed since,
    * or is still to be written.
    */
  lemma AnswerKept(states: seq<Conn>, events: seq<Event>, k: nat, j: nat, a: ControlAction)
    requires IsRun(states, events) && Initial(states[0]) && k < j <= |events| && NoConnect(events, k, j)
    requires states[j].link.live && CallsFor(states[k], events[k], a)
    ensures states[k].link.sent <= states[j].link.sent
    ensures || ControlMessage(a) in states[j].link.sent[|states[k].link.sent|..]
            || exists i | 0 <= i < |states[j].core.out.control| ::
                 states[j].core.out.control[i].action == a && states[j].core.out.control[i].state.Write?
  {
    hide Enabled, Fits, Initial, CountSent, CountQueued, OnWire, Owed;
    ActionReads(a);
    TallyGrows(states, events, k, j, a);
    CallsFirst(states, events, k, j, a);
    var before, after := states[k].link.sent, states[j].link.sent[|states[k].link.sent|..];
    assert before + after == states[j].link.sent;
    SentConcat(before, after, a);
    if CountSent(after, a) > 0 {
      SentFound(after, a);
    } else {
      QueuedFound(states[j].core.out.control, a);
    }
  }

  lemma {:induction false} CallsFirst(states: seq<Conn>, events: seq<Event>, i: nat, j: nat, a: ControlAction)
    requires i < j <= |events| < |states| && CallsFor(states[i], events[i], a)
    ensures Calls(states, events, i, j, a) >= 1
    decreases j - i
  {
    hide CallsFor;
    if i < j - 1 {
      CallsFirst(states, events, i, j - 1, a);
    } else {
      assert Calls(states, events, i, i, a) == 0;
    }
  }
}
