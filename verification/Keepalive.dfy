/**
  * Keepalive over whole runs (minimq/src/mqtt_client/session/state.rs and drive.rs; section 3.1.2.10 of MQTT Version 5.0):
  * when a PINGREQ is due, that one is sent then and never otherwise, and how long its PINGRESP may take.
  */
module Keepalive {
  import opened Answers
  import opened Bytes
  import opened Greetings
  import opened Handshake
  import opened Outbound
  import opened OutboundLaws
  import opened Packets
  import opened Runs
  import opened Schedule
  import opened Session
  import Deserializer
  import PacketIds

  // -------------------------------------------------------------- last activity

  /** When the event completed a connect, a flush or a direct write on a connection that lives on. */
  function Stamp(c: Conn, e: Event, d: Conn): Option<nat> {
    if !d.link.live then None
    else match e
      case Open(_, now) => Some(now)
      case Service(now, _) => if !c.link.flush.Clean? && d.link.flush.Clean? then Some(now) else None
      case Direct(_, _, _, _, now) => Some(now)
      case _ => None
  }

  /** The time of the last such event among the first `i`. */
  ghost function LastActive(states: seq<Conn>, events: seq<Event>, i: nat): nat
    requires i <= |events| < |states|
  {
    if i == 0 then 0
    else
      var stamp := Stamp(states[i - 1], events[i - 1], states[i]);
      if stamp.Some? then stamp.value else LastActive(states, events, i - 1)
  }

  /** When a PINGREQ is due: five seconds before the keepalive runs out, or half of it if that is shorter. */
  function DueAt(last: nat, keepalive: nat): nat {
    if keepalive >= 10_000 then last + keepalive - 5_000 else last + keepalive - keepalive / 2
  }

  /** The next PINGREQ is planned for when it is due; without keepalive there is none. */
  predicate Planned(c: Conn, last: nat) {
    c.link.live ==> c.rt.nextPing == if c.rt.keepalive == 0 then None else Some(DueAt(last, c.rt.keepalive))
  }

  lemma NotedDue(rt: Runtime, now: nat)
    ensures NoteActivity(rt, now).nextPing == if rt.keepalive == 0 then None else Some(DueAt(now, rt.keepalive))
    ensures NoteActivity(rt, now) == rt.(nextPing := NoteActivity(rt, now).nextPing)
  {
  }

  /** The plan is kept, or made anew at that time. */
  ghost predicate Replans(c: Conn, d: Conn, stamp: Option<nat>) {
    d.link.live ==>
      if stamp.Some? then Planned(d, stamp.value)
      else c.link.live && d.rt.nextPing == c.rt.nextPing && d.rt.keepalive == c.rt.keepalive
  }

  lemma FlushReplans(c: Conn, now: nat, io: Io)
    requires !c.link.flush.Clean?
    ensures var d := FlushCurrent(c, now, io).0; Replans(c, d, Stamp(c, Service(now, io), d))
  {
    hide Items, Begun, ArmReplay, CompleteFlush, NoteActivity;
    NotedDue(c.rt, now);
  }

  lemma PerformReplans(c: Conn, s: Slot, now: nat, io: Io)
    requires SlotIn(c.core.out, s) && ItemAt(c.core.out, s).state.Write?
    ensures var d := PerformStep(c, s, now, io).0;
            d.link.live ==> c.link.live && d.rt.nextPing == c.rt.nextPing && d.rt.keepalive == c.rt.keepalive
                            && (d.link.flush == c.link.flush || d.link.flush.Dirty?)
  {
    hide Items, Begun, ArmReplay, ItemAt, AdvanceSlot;
  }

  lemma ServiceReplans(c: Conn, now: nat, io: Io)
    ensures var d := ServiceOnce(c, now, io).0; Replans(c, d, Stamp(c, Service(now, io), d))
  {
    hide PerformStep, FlushCurrent, NextStep, SlotIn, ItemAt, ShouldPing, ControlBytes, Planned;
    if c.link.flush.Flushing? {
      FlushReplans(c, now, io);
    } else if NextStep(c.core.out).Some? {
      NextStepWritable(c.core.out);
      PerformReplans(c, NextStep(c.core.out).value, now, io);
    } else if c.link.flush.Dirty? {
      FlushReplans(c, now, io);
    } else if MaybePing(c, now).Ok? {
      var d := MaybePing(c, now).value;
      if NextStep(d.core.out).Some? {
        NextStepWritable(d.core.out);
        PerformReplans(d, NextStep(d.core.out).value, now, io);
      }
    }
  }

  lemma ReceiveReplans(c: Conn, p: Packet)
    ensures var d := Process(c, p).0; Replans(c, d, None)
  {
    hide HandlePublish, HandlePubRel, HasOp, HasRelease, AckPacket, AckRelease, FailedCode, FirstFailed, ReleaseBytes,
         Items, Begun, ArmReplay;
  }

  lemma AskReplans(c: Conn, r: Request)
    requires Fits(c.core.out)
    ensures var d := Admit(c, r).0; Replans(c, d, None)
  {
    hide EncodePublishInto, EncodeInto, PublishFields, RetainedBytes, Fits, PacketIds.FreshId;
  }

  lemma OpenReplans(c: Conn, answer: Answer, now: nat)
    ensures var d := Connect(c, answer, now).0; d.link.live ==> Planned(d, now)
  {
    hide EncodeInto, ConnectBody, ConnectNeed, SettleAll, Deserializer.Items, ArmReplay, RetainedBytes, Items, Begun, Adopt,
         Planned;
    forall b: Conn, t: Terms, connect: seq<Byte>, reserve: nat, resumed: bool
      ensures var d := Adopt(b, t, connect, reserve, resumed, now).0; d.link.live ==> b.link.live || Planned(d, now) {
      AdoptReplans(b, t, connect, reserve, resumed, now);
    }
  }

  lemma AdoptReplans(b: Conn, t: Terms, connect: seq<Byte>, reserve: nat, resumed: bool, now: nat)
    ensures var d := Adopt(b, t, connect, reserve, resumed, now).0; d.link.live ==> b.link.live || Planned(d, now)
  {
    hide Handshake.Publishes, NoteActivity, DueAt, RetainedBytes;
    NotedDue(b.rt.(keepalive := t.keepalive, quota := t.quota, maxQuota := t.quota,
                   maxPacket := t.maxPacket, maxQos := t.maxQos, pingTimeout := None), now);
  }

  lemma DirectReplans(c: Conn, packet: seq<Byte>, written: nat, ok: bool, close: bool, now: nat)
    requires written <= |packet|
    ensures var d := WriteDirect(c, packet, written, ok, close, now); d.link.live ==> Planned(d, now)
  {
    hide Items, Begun, ArmReplay, NoteActivity, DueAt;
    NotedDue(c.rt, now);
  }

  lemma StepReplans(c: Conn, e: Event)
    requires Fits(c.core.out) && Enabled(c, e)
    ensures Replans(c, Apply(c, e), Stamp(c, e, Apply(c, e)))
  {
    hide ServiceOnce, Process, Admit, WriteDirect, Connect, Quieted, Fits, Unremembered, Planned, NextStep;
    match e {
      case Service(now, io) => ServiceReplans(c, now, io);
      case Drop =>
      case Receive(p) => ReceiveReplans(c, p);
      case Ask(r) => AskReplans(c, r);
      case Direct(packet, written, ok, close, now) => DirectReplans(c, packet, written, ok, close, now);
      case Open(answer, now) => OpenReplans(c, answer, now);
    }
  }

  /** In every state of every run the next PINGREQ is planned for when it is due, counted from the last activity. */
  lemma {:induction false} PingPlanned(states: seq<Conn>, events: seq<Event>, i: nat)
    requires IsRun(states, events) && Initial(states[0]) && i <= |events|
    ensures Planned(states[i], LastActive(states, events, i))
  {
    hide Enabled, Fits, Stamp;
    if i > 0 {
      PingPlanned(states, events, i - 1);
      assert states[i - 1 + 1] == Apply(states[i - 1], events[i - 1]);
      StepReplans(states[i - 1], events[i - 1]);
    }
  }

  // ------------------------------------------------------------ PINGREQ in time

  /** A PINGREQ can be written now: nothing else is to be sent, it is due, none is unanswered, and it is not refused. */
  ghost predicate PingNow(c: Conn, now: nat) {
    Idle(c) && c.rt.pingTimeout.None? && c.rt.nextPing.Some? && now >= c.rt.nextPing.value && Allows(c.rt, 2)
  }

  lemma MaybePingTally(c: Conn, now: nat)
    requires Streamed(c) && Idle(c) && MaybePing(c, now).Ok?
    ensures MaybePing(c, now).value.link == c.link
    ensures Tally(MaybePing(c, now).value, Ping) == Tally(c, Ping) + (if PingNow(c, now) then 1 else 0)
  {
    hide CountSent, CountQueued, NextStep, StreamOk, FlushOk, ControlBytes;
    PingHasRoom(c, now);
    ControlBytesFrame(Ping);
    QueuedOne(c.core.out.control, PendingControl(Ping, Write(0)), Ping);
  }

  /** A service step on a connection that lives on sends or queues a PINGREQ exactly if it is time for one. */
  lemma ServicePings(c: Conn, now: nat, io: Io)
    requires Streamed(c) && ServiceOnce(c, now, io).0.link.live
    ensures Tally(ServiceOnce(c, now, io).0, Ping) == Tally(c, Ping) + (if PingNow(c, now) then 1 else 0)
  {
    hide PerformStep, FlushCurrent, NextStep, SlotIn, ItemAt, MaybePing, Tally, Streamed;
    FlushTally(c, now, io, Ping);
    if c.link.flush.Flushing? {
    } else if NextStep(c.core.out).Some? {
      NextStepWritable(c.core.out);
      PerformTally(c, NextStep(c.core.out).value, now, io, Ping);
    } else if c.link.flush.Dirty? {
    } else if MaybePing(c, now).Ok? {
      var d := MaybePing(c, now).value;
      assert c.link.live by { DeadService(c, now, io); }
      MaybePingTally(c, now);
      if NextStep(d.core.out).Some? {
        NextStepWritable(d.core.out);
        PerformTally(d, NextStep(d.core.out).value, now, io, Ping);
      }
    } else {
      assert !PingNow(c, now) by { NotRefused(c, now); }
    }
  }

  lemma DeadService(c: Conn, now: nat, io: Io)
    requires ServiceOnce(c, now, io).0.link.live
    ensures c.link.live
  {
    ServiceOn(c, now, io);
  }

  lemma NotRefused(c: Conn, now: nat)
    requires Streamed(c) && MaybePing(c, now).Err?
    ensures !PingNow(c, now)
  {
    hide NextStep, StreamOk, ControlBytes, Sound;
    ControlBytesFrame(Ping);
    if Idle(c) {
      PingHasRoom(c, now);
    }
  }

  lemma OthersDoNotPing(c: Conn, e: Event)
    requires Streamed(c) && Fits(c.core.out) && Enabled(c, e) && !e.Open? && !e.Service? && Apply(c, e).link.live
    ensures Tally(Apply(c, e), Ping) == Tally(c, Ping)
  {
    hide Streamed, Process, Admit, Quieted, Fits, Unremembered, Items, Begun, ArmReplay, NextStep, CountSent, CountQueued,
         OnWire, Owed;
    match e {
      case Receive(p) =>
        ReceiveAnswers(c, p);
        ActionReads(Ping);
        ProcessLink(c, p);
        if Owed(c.core.serverIds, p).Some? {
          var d := Process(c, p).0;
          var last := d.core.out.control[|c.core.out.control|];
          assert d.core.out.control == c.core.out.control + [last];
          QueuedOne(c.core.out.control, last, Ping);
        }
      case Ask(r) => AdmitControl(c, r);
      case Direct(packet, written, ok, close, now) => SentOne(c.link.sent, DirectMessage(packet), Ping);
      case _ =>
    }
  }

  /**
    * PINGREQs over whole runs: an event on a connection that lives on adds one exactly if it is a service step on an idle
    * stream at or after the due time counted from the last activity, no PINGREQ is unanswered, and the broker accepts one.
    */
  lemma PingExactlyWhenDue(states: seq<Conn>, events: seq<Event>, i: nat)
    requires IsRun(states, events) && Initial(states[0]) && i < |events| && !events[i].Open? && states[i + 1].link.live
    ensures Tally(states[i + 1], Ping) == Tally(states[i], Ping) +
              (if events[i].Service? && Idle(states[i]) && states[i].rt.keepalive > 0
                  && events[i].now >= DueAt(LastActive(states, events, i), states[i].rt.keepalive)
                  && states[i].rt.pingTimeout.None? && Allows(states[i].rt, 2) then 1 else 0)
  {
    hide Enabled, Fits, Streamed, Tally, LastActive, NextStep;
    PingPlanned(states, events, i);
    RunStreamed(states, events, i);
    assert states[i + 1] == Apply(states[i], events[i]);
    if events[i].Service? {
      ServicePings(states[i], events[i].now, events[i].io);
    } else {
      OthersDoNotPing(states[i], events[i]);
    }
  }

  // ---------------------------------------------------------- PINGRESP in time

  /** When the last PINGREQ was completed on this connection, if no PINGRESP came since. */
  ghost function Unanswered(states: seq<Conn>, events: seq<Event>, i: nat): Option<nat>
    requires i <= |events| < |states|
  {
    if i == 0 then None
    else match events[i - 1]
      case Open(_, _) => None
      case Receive(p) => if p.PingResp? then None else Unanswered(states, events, i - 1)
      case Service(now, _) =>
        if CountSent(states[i].link.sent, Ping) > CountSent(states[i - 1].link.sent, Ping) then Some(now)
        else Unanswered(states, events, i - 1)
      case _ => Unanswered(states, events, i - 1)
  }

  predicate Awaits(c: Conn, since: Option<nat>) {
    c.link.live ==> c.rt.pingTimeout == if since.Some? then Some(since.value + 5_000) else None
  }

  /** A service step starts the wait exactly if it completes a PINGREQ. */
  ghost predicate Waits(c: Conn, d: Conn, now: nat) {
    d.link.live ==>
      if CountSent(d.link.sent, Ping) > CountSent(c.link.sent, Ping) then d.rt.pingTimeout == Some(now + 5_000)
      else d.rt.pingTimeout == c.rt.pingTimeout
  }

  lemma PerformWaits(c: Conn, s: Slot, now: nat, io: Io)
    requires SlotIn(c.core.out, s) && ItemAt(c.core.out, s).state.Write?
    ensures Waits(c, PerformStep(c, s, now, io).0, now)
  {
    hide Items, Begun, ArmReplay, ItemAt, AdvanceSlot, CountSent;
    SentOne(c.link.sent, ItemAt(c.core.out, s).packet, Ping);
  }

  lemma FlushWaits(c: Conn, now: nat, io: Io)
    ensures Waits(c, FlushCurrent(c, now, io).0, now)
  {
    hide Items, Begun, ArmReplay, CompleteFlush, CountSent;
  }

  lemma ServiceWaits(c: Conn, now: nat, io: Io)
    ensures Waits(c, ServiceOnce(c, now, io).0, now)
  {
    hide PerformStep, FlushCurrent, NextStep, SlotIn, ItemAt, ShouldPing, ControlBytes, CountSent;
    FlushWaits(c, now, io);
    if c.link.flush.Flushing? {
    } else if NextStep(c.core.out).Some? {
      NextStepWritable(c.core.out);
      PerformWaits(c, NextStep(c.core.out).value, now, io);
    } else if c.link.flush.Clean? && MaybePing(c, now).Ok? {
      var d := MaybePing(c, now).value;
      if NextStep(d.core.out).Some? {
        NextStepWritable(d.core.out);
        PerformWaits(d, NextStep(d.core.out).value, now, io);
      }
    }
  }

  lemma ReceiveWaits(c: Conn, p: Packet)
    ensures var d := Process(c, p).0;
            d.link.live ==> d.rt.pingTimeout == if p.PingResp? then None else c.rt.pingTimeout
  {
    hide HandlePublish, HandlePubRel, HasOp, HasRelease, AckPacket, AckRelease, FailedCode, FirstFailed, ReleaseBytes,
         Items, Begun, ArmReplay;
  }

  lemma OpenWaits(c: Conn, answer: Answer, now: nat)
    ensures var d := Connect(c, answer, now).0; d.link.live ==> d.rt.pingTimeout.None?
  {
    hide EncodeInto, ConnectBody, ConnectNeed, SettleAll, Deserializer.Items, Handshake.Publishes, ArmReplay,
         RetainedBytes, Items, Begun;
  }

  lemma AskWaits(c: Conn, r: Request)
    requires Fits(c.core.out)
    ensures Admit(c, r).0.rt.pingTimeout == c.rt.pingTimeout
  {
    hide EncodePublishInto, EncodeInto, PublishFields, RetainedBytes, Fits, PacketIds.FreshId;
  }

  /** In every state of every run a PINGRESP is awaited for five seconds from the PINGREQ it answers, and only then. */
  lemma {:induction false} DeadlineIff(states: seq<Conn>, events: seq<Event>, i: nat)
    requires IsRun(states, events) && Initial(states[0]) && i <= |events|
    ensures Awaits(states[i], Unanswered(states, events, i))
  {
    hide Enabled, Fits, ServiceOnce, Process, Connect, Admit, CountSent, Streamed, Items, Begun, ArmReplay;
    if i > 0 {
      DeadlineIff(states, events, i - 1);
      var c, e := states[i - 1], events[i - 1];
      assert states[i - 1 + 1] == Apply(c, e);
      if !e.Open? {
        RunStreamed(states, events, i - 1);
        StepOn(c, e);
      }
      match e {
        case Service(now, io) => ServiceWaits(c, now, io);
        case Receive(p) => ReceiveWaits(c, p);
        case Ask(r) => AskWaits(c, r);
        case Open(answer, now) => OpenWaits(c, answer, now);
        case _ =>
      }
    }
  }

  // ------------------------------------------------------------- no connection

  ghost predicate Stopped(c: Conn) {
    c.link.live || (c.rt.nextPing.None? && c.rt.pingTimeout.None?)
  }

  lemma ServiceStops(c: Conn, now: nat, io: Io)
    requires Stopped(c)
    ensures Stopped(ServiceOnce(c, now, io).0)
  {
    hide NextStep, ItemAt, ControlBytes, Items, Begun, ArmReplay, CompleteFlush, AdvanceSlot, Taken;
    if NextStep(c.core.out).Some? {
      NextStepWritable(c.core.out);
    } else if MaybePing(c, now).Ok? && NextStep(MaybePing(c, now).value.core.out).Some? {
      NextStepWritable(MaybePing(c, now).value.core.out);
    }
  }

  lemma ReceiveStops(c: Conn, p: Packet)
    requires c.link.live
    ensures Stopped(Process(c, p).0)
  {
    hide HandlePacket, Items, Begun, ArmReplay;
  }

  lemma OpenStops(c: Conn, answer: Answer, now: nat)
    ensures Stopped(Connect(c, answer, now).0)
  {
    hide EncodeInto, ConnectBody, ConnectNeed, SettleAll, Deserializer.Items, Handshake.Publishes, ArmReplay,
         RetainedBytes, Items, Begun;
  }

  /** Without a connection no timer runs, in any state of any run. */
  lemma {:induction false} TimersStopped(states: seq<Conn>, events: seq<Event>, i: nat)
    requires IsRun(states, events) && Initial(states[0]) && i <= |events|
    ensures !states[i].link.live ==> states[i].rt.nextPing.None? && states[i].rt.pingTimeout.None?
  {
    hide Fits, ServiceOnce, Process, Connect, Admit, Quieted, Unremembered, NextStep, Items, Begun, ArmReplay;
    if i > 0 {
      TimersStopped(states, events, i - 1);
      var c, e := states[i - 1], events[i - 1];
      assert states[i - 1 + 1] == Apply(c, e);
      match e {
        case Service(now, io) => ServiceStops(c, now, io);
        case Receive(p) => ReceiveStops(c, p);
        case Ask(r) =>
          AskReplans(c, r);
          AskStops(c, r);
        case Open(answer, now) => OpenStops(c, answer, now);
        case _ =>
      }
    }
  }

  lemma AskStops(c: Conn, r: Request)
    requires Fits(c.core.out)
    ensures !c.link.live ==> Admit(c, r).0 == c
    ensures c.link.live ==> Admit(c, r).0.link.live
  {
    hide EncodePublishInto, EncodeInto, PublishFields, RetainedBytes, Fits, PacketIds.FreshId;
  }
}
