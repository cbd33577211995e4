/**
  * What is written on one connection, over whole runs (sections 3.3.1.1 and 4.4 of MQTT Version 5.0): a PUBREL or
  * retained packet that was written is not written again on that connection before it is acknowledged.
  */
module Replay {
  import opened Bytes
  import opened ExactlyOnce
  import opened Handshake
  import opened Meaning
  import opened Outbound
  import opened OutboundLaws
  import opened Packets
  import opened Runs
  import opened Schedule
  import opened Session
  import AtLeastOnce
  import Deserializer

  // ------------------------------------------------------------------ entries

  /** What an entry is kept under. */
  datatype Key = Packet(kind: OpKind, id: U16) | Release(id: U16)

  /** The packet that acknowledges the entry. */
  predicate Acknowledges(p: Packets.Packet, k: Key) {
    match k
    case Release(id) => p.PubComp? && p.id == id
    case Packet(PublishAtLeastOnce, id) => p.PubAck? && p.id == id
    case Packet(PublishExactlyOnce, id) => p.PubRec? && p.id == id
    case Packet(Subscribe, id) => p.SubAck? && p.id == id
    case Packet(Unsubscribe, id) => p.UnsubAck? && p.id == id
  }

  predicate Concerns(m: Message, k: Key) {
    match k
    case Release(id) => m.ReleaseMessage? && m.id == id
    case Packet(kind, id) => m.RetainedMessage? && m.kind == kind && m.id == id
  }

  /** The entry is queued, and `written` says whether it was written on this connection. */
  ghost predicate Queued(o: Out, k: Key, written: bool) {
    match k
    case Release(id) => exists i | 0 <= i < |o.release| :: o.release[i].id == id && !o.release[i].state.Write? == written
    case Packet(kind, id) =>
      exists i | 0 <= i < |o.retained| ::
        o.retained[i].kind == kind && o.retained[i].id == id && !o.retained[i].state.Write? == written
  }

  lemma NotBoth(o: Out, k: Key)
    requires UniqueIds(o) && Queued(o, k, true)
    ensures !Queued(o, k, false)
  {
  }

  // ------------------------------------------------------------------ service

  /** The same entries in the same places; a written one stays written. */
  ghost predicate Onward(o: Out, p: Out) {
    && |p.release| == |o.release| && |p.retained| == |o.retained|
    && (forall i | 0 <= i < |o.release| ::
          p.release[i].(state := Sent) == o.release[i].(state := Sent)
          && (!o.release[i].state.Write? ==> !p.release[i].state.Write?))
    && (forall i | 0 <= i < |o.retained| ::
          p.retained[i].(state := Sent) == o.retained[i].(state := Sent)
          && (!o.retained[i].state.Write? ==> !p.retained[i].state.Write?))
  }

  lemma OnwardSelf(o: Out, p: Out)
    requires p.release == o.release && p.retained == o.retained
    ensures Onward(o, p)
  {
  }

  lemma FlushOnward(o: Out)
    ensures Onward(o, CompleteFlush(o))
  {
  }

  lemma AdvanceOnward(o: Out, s: Slot, count: nat)
    requires SlotIn(o, s) && ItemAt(o, s).state.Write?
    ensures Onward(o, AdvanceSlot(o, s, count))
  {
    hide ControlBytes, ReleaseBytes;
  }

  lemma OnwardQueued(o: Out, p: Out, k: Key)
    requires Onward(o, p) && Queued(o, k, true)
    ensures Queued(p, k, true)
  {
    match k {
      case Release(id) =>
        var i :| 0 <= i < |o.release| && o.release[i].id == id && !o.release[i].state.Write?;
        assert p.release[i].(state := Sent) == o.release[i].(state := Sent);
      case Packet(kind, id) =>
        var i :| 0 <= i < |o.retained| && o.retained[i].kind == kind && o.retained[i].id == id && !o.retained[i].state.Write?;
        assert p.retained[i].(state := Sent) == o.retained[i].(state := Sent);
    }
  }

  lemma PerformOnward(c: Conn, s: Slot, now: nat, io: Io)
    requires SlotIn(c.core.out, s) && ItemAt(c.core.out, s).state.Write?
    ensures var d := PerformStep(c, s, now, io).0; d.link.live ==> c.link.live && Onward(c.core.out, d.core.out)
  {
    hide ItemAt, AdvanceSlot, Items, Begun, ArmReplay, Onward;
    AdvanceOnward(c.core.out, s, Taken(io, ItemAt(c.core.out, s)));
    OnwardSelf(c.core.out, c.core.out);
  }

  lemma ServiceOnward(c: Conn, now: nat, io: Io)
    ensures var d := ServiceOnce(c, now, io).0; d.link.live ==> c.link.live && Onward(c.core.out, d.core.out)
  {
    hide PerformStep, NextStep, SlotIn, ItemAt, MaybePing, ArmReplay, CompleteFlush, Items, Begun, Onward;
    OnwardSelf(c.core.out, c.core.out);
    FlushOnward(c.core.out);
    if c.link.flush.Flushing? {
    } else if NextStep(c.core.out).Some? {
      NextStepWritable(c.core.out);
      PerformOnward(c, NextStep(c.core.out).value, now, io);
    } else if c.link.flush.Clean? && MaybePing(c, now).Ok? {
      var d := MaybePing(c, now).value;
      PingEffect(c, now);
      OnwardSelf(c.core.out, d.core.out);
      if NextStep(d.core.out).Some? {
        NextStepWritable(d.core.out);
        PerformOnward(d, NextStep(d.core.out).value, now, io);
        OnwardFrom(c.core.out, d.core.out, PerformStep(d, NextStep(d.core.out).value, now, io).0.core.out);
      }
    }
  }

  lemma OnwardFrom(o: Out, p: Out, q: Out)
    requires p.release == o.release && p.retained == o.retained
    ensures Onward(p, q) ==> Onward(o, q)
  {
  }

  // ------------------------------------------------------------------ receipt

  lemma AckQueued(o: Out, kind: OpKind, id: U16, k: Key)
    requires UniqueIds(o) && Queued(o, k, true) && k != Key.Packet(kind, id)
    ensures Queued(AckPacket(o, kind, id), k, true)
  {
    AckPacketExact(o, kind, id);
    var p := AckPacket(o, kind, id);
    hide AckPacket;
    match k {
      case Release(_) => assert p.release == o.release;
      case Packet(x, y) =>
        var i :| 0 <= i < |o.retained| && o.retained[i].kind == x && o.retained[i].id == y && !o.retained[i].state.Write?;
        assert o.retained[i] in p.retained;
    }
  }

  lemma AckReleaseQueued(o: Out, id: U16, k: Key)
    requires Sound(o) && Quieted(o) && Queued(o, k, true) && k != Key.Release(id)
    ensures Queued(AckRelease(o, id), k, true)
  {
    hide Sound, Quieted, AckRelease;
    AckReleaseKeeps(o, id);
    var p := AckRelease(o, id);
    match k {
      case Release(y) =>
        var i :| 0 <= i < |o.release| && o.release[i].id == y && !o.release[i].state.Write?;
        assert o.release[i] in p.release;
      case Packet(_, _) => assert p.retained == o.retained;
    }
  }

  /** More releases at the end change nothing about the queued ones. */
  lemma QueueReleaseQueued(o: Out, id: U16, reason: ReasonCode, k: Key)
    requires QueueRelease(o, id, reason).Some? && Queued(o, k, true)
    ensures Queued(QueueRelease(o, id, reason).value, k, true)
  {
    var p := QueueRelease(o, id, reason).value;
    if k.Release? {
      var i :| 0 <= i < |o.release| && o.release[i].id == k.id && !o.release[i].state.Write?;
      assert p.release[i] == o.release[i];
    }
  }

  lemma PubRecQueued(core: Core, rt: Runtime, id: U16, code: ReasonCode, k: Key)
    requires UniqueIds(core.out) && Queued(core.out, k, true) && k != Key.Packet(PublishExactlyOnce, id)
    ensures Queued(HandlePubRec(core, rt, id, code).0.out, k, true)
  {
    hide Queued, HasOp, HasRelease, AckPacket, ReleaseBytes, UniqueIds;
    var q := AckPacket(core.out, PublishExactlyOnce, id);
    AckQueued(core.out, PublishExactlyOnce, id, k);
    if QueueRelease(q, id, SUCCESS).Some? {
      QueueReleaseQueued(q, id, SUCCESS, k);
    }
  }

  lemma SameQueued(o: Out, p: Out, k: Key, written: bool)
    requires p.release == o.release && p.retained == o.retained && Queued(o, k, written)
    ensures Queued(p, k, written)
  {
  }

  lemma HandleQueued(core: Core, rt: Runtime, p: Packets.Packet, k: Key)
    requires Sound(core.out) && Quieted(core.out) && Queued(core.out, k, true) && !Acknowledges(p, k)
    ensures Queued(HandlePacket(core, rt, p).0.out, k, true)
  {
    hide Queued, HasOp, AckPacket, AckRelease, FailedCode, FirstFailed, HandlePubRec, ControlBytes, Items,
         IdPosition, SwapRemove, AllWf, OnePartial, AllGood, Fits, Quieted, HasRelease, UniqueIds;
    var o := core.out;
    match p {
      case SubAck(id, _, _) => AckQueued(o, OpKind.Subscribe, id, k);
      case UnsubAck(id, _, _) => AckQueued(o, OpKind.Unsubscribe, id, k);
      case PubAck(id, _) => AckQueued(o, PublishAtLeastOnce, id, k);
      case PubRec(id, reason) => PubRecQueued(core, rt, id, reason.Code(), k);
      case PubComp(id, _) => AckReleaseQueued(o, id, k);
      case _ => SameQueued(o, HandlePacket(core, rt, p).0.out, k, true);
    }
  }

  ghost predicate Gone(o: Out, k: Key) {
    !Queued(o, k, true) && !Queued(o, k, false)
  }

  lemma AckGone(o: Out, kind: OpKind, id: U16)
    requires UniqueIds(o)
    ensures Gone(AckPacket(o, kind, id), Key.Packet(kind, id))
  {
    AckPacketExact(o, kind, id);
    var p := AckPacket(o, kind, id);
    hide AckPacket;
    forall i | 0 <= i < |p.retained| ensures !(p.retained[i].kind == kind && p.retained[i].id == id) {
      assert p.retained[i] in p.retained;
    }
  }

  lemma AckReleaseGone(o: Out, id: U16)
    requires Sound(o) && Quieted(o)
    ensures Gone(AckRelease(o, id), Key.Release(id))
  {
    hide Sound, Quieted, AckRelease;
    AckReleaseKeeps(o, id);
    var p := AckRelease(o, id);
    forall i | 0 <= i < |p.release| ensures p.release[i].id != id {
      assert p.release[i] in p.release;
    }
  }

  lemma SameGone(o: Out, p: Out, k: Key)
    requires Gone(o, k) && (k.Packet? ==> p.retained == o.retained) && (k.Release? ==> p.release == o.release)
    ensures Gone(p, k)
  {
  }

  lemma PubRecGone(core: Core, rt: Runtime, id: U16, code: ReasonCode)
    requires UniqueIds(core.out)
    ensures Gone(HandlePubRec(core, rt, id, code).0.out, Key.Packet(PublishExactlyOnce, id))
  {
    hide Gone, HasRelease, ReleaseBytes, UniqueIds;
    AckGone(core.out, PublishExactlyOnce, id);
    SameGone(AckPacket(core.out, PublishExactlyOnce, id), HandlePubRec(core, rt, id, code).0.out,
             Key.Packet(PublishExactlyOnce, id));
  }

  /** An acknowledgement takes its entry out of the queues. */
  lemma HandleGone(core: Core, rt: Runtime, p: Packets.Packet, k: Key)
    requires Sound(core.out) && Quieted(core.out) && Acknowledges(p, k)
    ensures Gone(HandlePacket(core, rt, p).0.out, k)
  {
    hide Gone, AckRelease, FailedCode, FirstFailed, HandlePubRec, Items, AllWf, OnePartial, AllGood, Fits, Quieted,
         HasRelease, UniqueIds;
    var o := core.out;
    match p {
      case SubAck(id, _, _) => AckGone(o, OpKind.Subscribe, id);
      case UnsubAck(id, _, _) => AckGone(o, OpKind.Unsubscribe, id);
      case PubAck(id, _) => AckGone(o, PublishAtLeastOnce, id);
      case PubRec(id, reason) => PubRecGone(core, rt, id, reason.Code());
      case PubComp(id, _) =>
        AckReleaseGone(o, id);
        if !HasRelease(o, id) {
          MissingRelease(o, id);
        }
    }
  }

  // -------------------------------------------------------------------- steps

  lemma AppendedQueued(o: Out, p: Out, k: Key)
    requires Appended(o, p) && Queued(o, k, true)
    ensures Queued(p, k, true)
  {
    if k.Packet? {
      var i :| 0 <= i < |o.retained| && o.retained[i].kind == k.kind && o.retained[i].id == k.id && !o.retained[i].state.Write?;
      if p.retained != o.retained {
        assert p.retained[i] == p.retained[..|o.retained|][i];
      }
    }
  }

  lemma ReceiveQueued(c: Conn, p: Packets.Packet, k: Key)
    requires Sound(c.core.out) && Quieted(c.core.out) && Queued(c.core.out, k, true)
    requires Process(c, p).0.link.live
    ensures Acknowledges(p, k) ==> Gone(Process(c, p).0.core.out, k)
    ensures !Acknowledges(p, k) ==> Queued(Process(c, p).0.core.out, k, true)
  {
    hide Sound, Quieted, Queued, Gone, HandlePacket, Acknowledges, Items, Begun, ArmReplay;
    if Acknowledges(p, k) {
      HandleGone(c.core, c.rt, p, k);
    } else {
      HandleQueued(c.core, c.rt, p, k);
    }
  }

  /** One event on a connection that stays alive: a written entry stays written unless it is acknowledged. */
  lemma StepQueued(c: Conn, e: Event, k: Key)
    requires Streamed(c) && Fits(c.core.out) && Enabled(c, e) && !e.Open? && Apply(c, e).link.live
    ensures c.link.live
    ensures Queued(c.core.out, k, true) ==>
              if e.Receive? && Acknowledges(e.packet, k) then Gone(Apply(c, e).core.out, k)
              else Queued(Apply(c, e).core.out, k, true)
  {
    hide Gone, Streamed, ServiceOnce, Process, Admit, Quieted, Fits, Unremembered, Queued, Items, Begun, ArmReplay, NextStep;
    StreamedUnique(c);
    var d := Apply(c, e);
    match e {
      case Service(now, io) =>
        ServiceOnward(c, now, io);
        if Queued(c.core.out, k, true) {
          OnwardQueued(c.core.out, d.core.out, k);
        }
      case Drop =>
      case Receive(p) =>
        if Queued(c.core.out, k, true) {
          ReceiveQueued(c, p, k);
        }
      case Ask(r) =>
        AskLive(c, r);
        AdmitAppends(c, r);
        if Queued(c.core.out, k, true) {
          AppendedQueued(c.core.out, d.core.out, k);
        }
      case Direct(packet, written, ok, close, now) =>
    }
  }

  lemma AskLive(c: Conn, r: Request)
    requires Streamed(c) && Fits(c.core.out)
    ensures Admit(c, r).0.link == c.link
  {
    hide Sound, StreamOk, FlushOk, Admit, Fits;
    AdmitGrows(c, r);
  }

  // -------------------------------------------------------------- completions

  /** A completed packet of the queues was to be written before, and is written after. */
  ghost predicate Completes(c: Conn, d: Conn, m: Message) {
    forall k: Key | Concerns(m, k) :: c.link.live && d.link.live && Queued(c.core.out, k, false) && Queued(d.core.out, k, true)
  }

  lemma AdvanceCompletes(o: Out, s: Slot, count: nat, k: Key)
    requires SlotIn(o, s) && ItemAt(o, s).state.Write? && ItemAt(o, s).state.written + count == |ItemAt(o, s).bytes|
    requires Concerns(ItemAt(o, s).packet, k)
    ensures Queued(o, k, false) && Queued(AdvanceSlot(o, s, count), k, true)
  {
    hide ControlBytes, ReleaseBytes;
    var p := AdvanceSlot(o, s, count);
    match s {
      case ControlSlot(_) =>
      case ReleaseSlot(i) =>
        assert o.release[i].id == k.id && o.release[i].state.Write?;
        assert p.release[i].id == k.id && !p.release[i].state.Write?;
      case RetainedSlot(i) =>
        assert o.retained[i].id == k.id && o.retained[i].state.Write?;
        assert p.retained[i].id == k.id && !p.retained[i].state.Write?;
    }
  }

  lemma PerformCompletes(c: Conn, s: Slot, now: nat, io: Io, m: Message)
    requires SlotIn(c.core.out, s) && ItemAt(c.core.out, s).state.Write?
    requires PerformStep(c, s, now, io).0.link.sent == c.link.sent + [m]
    ensures Completes(c, PerformStep(c, s, now, io).0, m)
  {
    hide ItemAt, AdvanceSlot, Items, Begun, ArmReplay, Queued, Concerns;
    var d := PerformStep(c, s, now, io).0;
    var it := ItemAt(c.core.out, s);
    assert |d.link.sent| == |c.link.sent| + 1 && d.link.sent[|c.link.sent|] == m;
    assert PerformStep(c, s, now, io).1.Progress?;
    assert it.state.written + Taken(io, it) == |it.bytes| && it.packet == m;
    forall k: Key | Concerns(m, k)
      ensures c.link.live && d.link.live && Queued(c.core.out, k, false) && Queued(d.core.out, k, true)
    {
      AdvanceCompletes(c.core.out, s, Taken(io, it), k);
    }
  }

  lemma ServiceCompletes(c: Conn, now: nat, io: Io, m: Message)
    requires ServiceOnce(c, now, io).0.link.sent == c.link.sent + [m]
    ensures Completes(c, ServiceOnce(c, now, io).0, m)
  {
    hide PerformStep, NextStep, SlotIn, ItemAt, MaybePing, ArmReplay, CompleteFlush, Items, Begun, Completes;
    assert |ServiceOnce(c, now, io).0.link.sent| == |c.link.sent| + 1;
    if NextStep(c.core.out).Some? {
      NextStepWritable(c.core.out);
      PerformCompletes(c, NextStep(c.core.out).value, now, io, m);
    } else {
      var d := MaybePing(c, now).value;
      PingEffect(c, now);
      NextStepWritable(d.core.out);
      PerformCompletes(d, NextStep(d.core.out).value, now, io, m);
      CompletesFrom(c, d, PerformStep(d, NextStep(d.core.out).value, now, io).0, m);
    }
  }

  lemma CompletesFrom(c: Conn, d: Conn, e: Conn, m: Message)
    requires d.link == c.link && d.core.out.release == c.core.out.release && d.core.out.retained == c.core.out.retained
    requires Completes(d, e, m)
    ensures Completes(c, e, m)
  {
    hide Concerns, Queued;
    forall k: Key | Concerns(m, k) ensures Queued(c.core.out, k, false) {
      SameQueued(d.core.out, c.core.out, k, false);
    }
  }

  /** The packets completed on a connection grow by at most one with every event but a connect. */
  lemma StepSent(c: Conn, e: Event) returns (m: Option<Message>)
    requires Streamed(c) && Fits(c.core.out) && Enabled(c, e) && !e.Open?
    ensures Apply(c, e).link.sent == c.link.sent + (if m.None? then [] else [m.value])
    ensures m.Some? ==> Completes(c, Apply(c, e), m.value)
  {
    hide Streamed, ServiceOnce, HandlePacket, Admit, Quieted, Fits, Unremembered, Queued, Items, Begun, ArmReplay, Ret,
         Rel, SameIds, ExactlyOnce.Written, Completes;
    m := None;
    match e {
      case Service(now, io) =>
        m := ServiceEffect(c, now, io);
        if m.Some? {
          ServiceCompletes(c, now, io, m.value);
        }
      case Drop =>
      case Receive(p) =>
      case Ask(r) => AskLive(c, r);
      case Direct(packet, written, ok, close, now) =>
        m := DirectEffect(c, packet, written, ok, close, now);
        if m.Some? {
          assert Apply(c, e).link.sent[|c.link.sent|] == m.value;
          DirectConcernsNone(c, Apply(c, e), packet);
        }
    }
  }

  lemma DirectConcernsNone(c: Conn, d: Conn, packet: seq<Byte>)
    ensures Completes(c, d, DirectMessage(packet))
  {
  }

  // --------------------------------------------------------------------- runs

  /** The written entry is acknowledged by the event at `a`, which takes it out of the queues. */
  ghost predicate AcknowledgedAt(states: seq<Conn>, events: seq<Event>, a: nat, k: Key) {
    && a < |events| < |states| && events[a].Receive? && Acknowledges(events[a].packet, k)
    && Queued(states[a].core.out, k, true) && Gone(states[a + 1].core.out, k)
  }

  ghost predicate NoOpen(events: seq<Event>, i: nat, j: nat) {
    j <= |events| && forall a | i <= a < j :: !events[a].Open?
  }

  /**
    * On one connection, from state `i` to state `j`: an entry written in the first is still queued and written in the
    * second, or it was acknowledged in between.
    */
  lemma {:induction false} StaysWritten(states: seq<Conn>, events: seq<Event>, i: nat, j: nat, k: Key)
    requires IsRun(states, events) && Initial(states[0]) && i <= j <= |events| && NoOpen(events, i, j)
    requires states[j].link.live && Queued(states[i].core.out, k, true)
    ensures states[i].link.live
    ensures Queued(states[j].core.out, k, true) || exists a | i <= a < j :: AcknowledgedAt(states, events, a, k)
    decreases j - i
  {
    hide Queued, Gone, Enabled, Fits, Initial, Streamed, Acknowledges, Apply;
    if i < j {
      RunStreamed(states, events, j - 1);
      assert states[j - 1 + 1] == Apply(states[j - 1], events[j - 1]);
      StepQueued(states[j - 1], events[j - 1], k);
      StaysWritten(states, events, i, j - 1, k);
      if Queued(states[j - 1].core.out, k, true) && !Queued(states[j].core.out, k, true) {
        assert AcknowledgedAt(states, events, j - 1, k);
      }
    }
  }

  /** The event that completed a packet of the current connection. */
  lemma {:induction false} CompletedBy(states: seq<Conn>, events: seq<Event>, j: nat, p: nat, k: Key) returns (a: nat)
    requires IsRun(states, events) && Initial(states[0]) && j <= |events|
    requires p < |states[j].link.sent| && Concerns(states[j].link.sent[p], k)
    ensures a < j && NoOpen(events, a, j) && |states[a].link.sent| == p && |states[a + 1].link.sent| == p + 1
    ensures states[a].link.live && states[a + 1].link.live
    ensures Queued(states[a].core.out, k, false) && Queued(states[a + 1].core.out, k, true)
  {
    hide Queued, Enabled, Fits, Streamed, Apply;
    assert j > 0 by { NothingSent(states[0]); }
    var c := states[j - 1];
    assert states[j - 1 + 1] == Apply(c, events[j - 1]);
    RunStreamed(states, events, j - 1);
    assert !events[j - 1].Open? by { OpenSendsConnect(c, events[j - 1], states[j], p, k); }
    var m := StepSent(c, events[j - 1]);
    if p < |c.link.sent| {
      assert states[j].link.sent[p] == c.link.sent[p];
      a := CompletedBy(states, events, j - 1, p, k);
    } else {
      a := j - 1;
    }
  }

  lemma NothingSent(c: Conn)
    ensures Initial(c) ==> c.link.sent == []
  {
  }

  /** A connect leaves no packet of the queues on the new transport. */
  lemma OpenSendsConnect(c: Conn, e: Event, d: Conn, p: nat, k: Key)
    requires Fits(c.core.out) && Enabled(c, e) && d == Apply(c, e)
    requires p < |d.link.sent| && Concerns(d.link.sent[p], k)
    ensures !e.Open?
  {
    hide Connect, Fits;
    if e.Open? {
      OpenEffect(c, e.answer, e.now);
    }
  }

  /**
    * Nothing is written twice: when two packets completed on the current connection belong to entries of the same key,
    * the first was acknowledged after it was completed and before the second was, so they are different entries.
    */
  lemma NotWrittenTwice(states: seq<Conn>, events: seq<Event>, j: nat, p: nat, q: nat, k: Key)
    requires IsRun(states, events) && Initial(states[0]) && j <= |events|
    requires p < q < |states[j].link.sent| && Concerns(states[j].link.sent[p], k) && Concerns(states[j].link.sent[q], k)
    ensures exists a | 0 <= a < j :: AcknowledgedAt(states, events, a, k) && p < |states[a].link.sent| <= q
  {
    hide Queued, Enabled, Fits, Streamed, Apply, Initial, AcknowledgedAt;
    var x := CompletedBy(states, events, j, p, k);
    var y := CompletedBy(states, events, j, q, k);
    SentGrows(states, events, x + 1, j);
    if y <= x {
      SentGrows(states, events, y + 1, x + 1);
      assert false;
    }
    StaysWritten(states, events, x + 1, y, k);
    if Queued(states[y].core.out, k, true) {
      RunStreamed(states, events, y);
      StreamedUnique(states[y]);
      NotBoth(states[y].core.out, k);
      assert false;
    }
    var a :| x + 1 <= a < y && AcknowledgedAt(states, events, a, k);
    SentGrows(states, events, x + 1, a);
    SentGrows(states, events, a, y);
  }

  lemma {:induction false} SentGrows(states: seq<Conn>, events: seq<Event>, i: nat, j: nat)
    requires IsRun(states, events) && Initial(states[0]) && i <= j <= |events| && NoOpen(events, i, j)
    ensures |states[i].link.sent| <= |states[j].link.sent|
    decreases j - i
  {
    hide Enabled, Fits, Streamed, Apply, Initial, Queued;
    if i < j {
      SentGrows(states, events, i, j - 1);
      RunStreamed(states, events, j - 1);
      assert states[j - 1 + 1] == Apply(states[j - 1], events[j - 1]);
      var m := StepSent(states[j - 1], events[j - 1]);
    }
  }

  // --------------------------------------------------------------- replayed

  /** A packet of the entry was completed on the current connection. */
  ghost predicate Completed(c: Conn, k: Key) {
    exists p | 0 <= p < |c.link.sent| :: Concerns(c.link.sent[p], k)
  }

  /** A written entry was completed on this connection. */
  ghost predicate Recorded(c: Conn) {
    c.link.live ==> forall k: Key :: Queued(c.core.out, k, true) ==> Completed(c, k)
  }

  lemma CompletedGrows(c: Conn, d: Conn, k: Key)
    requires Completed(c, k) && c.link.sent <= d.link.sent
    ensures Completed(d, k)
  {
    hide Concerns;
    var p :| 0 <= p < |c.link.sent| && Concerns(c.link.sent[p], k);
    assert d.link.sent[p] == c.link.sent[p];
  }

  /** What becomes written in a service step was just completed. */
  lemma AdvanceNew(o: Out, s: Slot, count: nat, k: Key)
    requires SlotIn(o, s) && ItemAt(o, s).state.Write? && ItemAt(o, s).Wf() && UniqueIds(o)
    requires ItemAt(o, s).state.written + count <= |ItemAt(o, s).bytes|
    requires Queued(AdvanceSlot(o, s, count), k, true)
    ensures Queued(o, k, true) || (ItemAt(o, s).state.written + count == |ItemAt(o, s).bytes| && Concerns(ItemAt(o, s).packet, k))
  {
    hide ControlBytes, ReleaseBytes;
    var p := AdvanceSlot(o, s, count);
    match k {
      case Release(id) =>
        var i :| 0 <= i < |p.release| && p.release[i].id == id && !p.release[i].state.Write?;
        assert o.release[i].id == id;
      case Packet(kind, id) =>
        var i :| 0 <= i < |p.retained| && p.retained[i].kind == kind && p.retained[i].id == id && !p.retained[i].state.Write?;
        assert o.retained[i].kind == kind && o.retained[i].id == id;
    }
  }

  lemma FlushNew(o: Out, k: Key)
    requires Queued(CompleteFlush(o), k, true)
    ensures Queued(o, k, true)
  {
    var p := CompleteFlush(o);
    match k {
      case Release(id) =>
        var i :| 0 <= i < |p.release| && p.release[i].id == id && !p.release[i].state.Write?;
        assert o.release[i].id == id;
      case Packet(kind, id) =>
        var i :| 0 <= i < |p.retained| && p.retained[i].kind == kind && p.retained[i].id == id && !p.retained[i].state.Write?;
        assert o.retained[i].kind == kind && o.retained[i].id == id;
    }
  }

  lemma PerformNew(c: Conn, s: Slot, now: nat, io: Io, k: Key)
    requires Sound(c.core.out) && UniqueIds(c.core.out) && SlotIn(c.core.out, s) && ItemAt(c.core.out, s).state.Write?
    requires PerformStep(c, s, now, io).0.link.live && Queued(PerformStep(c, s, now, io).0.core.out, k, true)
    requires Queued(c.core.out, k, true) ==> Completed(c, k)
    ensures Completed(PerformStep(c, s, now, io).0, k)
  {
    hide ItemAt, AdvanceSlot, Items, Begun, ArmReplay, Queued, Concerns, Sound, Completed, Genuine, IsFrame;
    var d := PerformStep(c, s, now, io).0;
    if PerformStep(c, s, now, io).1.Progress? {
      SlotIsGenuine(c.core.out, s);
      AdvanceNew(c.core.out, s, Taken(io, ItemAt(c.core.out, s)), k);
      if Queued(c.core.out, k, true) {
        CompletedGrows(c, d, k);
      } else {
        CompletedLast(d, k);
      }
    }
  }

  lemma CompletedLast(c: Conn, k: Key)
    requires |c.link.sent| > 0 && Concerns(c.link.sent[|c.link.sent| - 1], k)
    ensures Completed(c, k)
  {
  }

  lemma ServiceNew(c: Conn, now: nat, io: Io, k: Key)
    requires Streamed(c) && ServiceOnce(c, now, io).0.link.live && Queued(ServiceOnce(c, now, io).0.core.out, k, true)
    requires Queued(c.core.out, k, true) ==> Completed(c, k)
    ensures Completed(ServiceOnce(c, now, io).0, k)
  {
    hide PerformStep, NextStep, SlotIn, ItemAt, MaybePing, ArmReplay, CompleteFlush, Items, Begun, Queued, Completed,
         Streamed, Sound;
    StreamedUnique(c);
    var d := ServiceOnce(c, now, io).0;
    if !c.link.flush.Flushing? && NextStep(c.core.out).Some? {
      NextStepWritable(c.core.out);
      PerformNew(c, NextStep(c.core.out).value, now, io, k);
    } else if c.link.flush.Clean? {
      if MaybePing(c, now).Ok? {
        var b := MaybePing(c, now).value;
        PingEffect(c, now);
        PingKeeps(c, now);
        StreamedUnique(b);
        PingNew(c, b, k);
        if NextStep(b.core.out).Some? {
          NextStepWritable(b.core.out);
          PerformNew(b, NextStep(b.core.out).value, now, io, k);
        }
      }
    } else {
      FlushedNew(c, d, k);
    }
  }

  lemma PingNew(c: Conn, b: Conn, k: Key)
    requires b.link == c.link && b.core.out.release == c.core.out.release && b.core.out.retained == c.core.out.retained
    requires Queued(c.core.out, k, true) ==> Completed(c, k)
    ensures Queued(b.core.out, k, true) ==> Completed(b, k)
  {
  }

  lemma FlushedNew(c: Conn, d: Conn, k: Key)
    requires d.core.out == c.core.out || d.core.out == CompleteFlush(c.core.out)
    requires d.link.sent == c.link.sent && Queued(d.core.out, k, true) && (Queued(c.core.out, k, true) ==> Completed(c, k))
    ensures Completed(d, k)
  {
    hide CompleteFlush, Queued, Concerns;
    if d.core.out == CompleteFlush(c.core.out) {
      FlushNew(c.core.out, k);
    }
    CompletedGrows(c, d, k);
  }

  /** Handling a packet makes nothing written. */
  lemma HandleNew(core: Core, rt: Runtime, p: Packets.Packet, k: Key)
    requires Sound(core.out) && Quieted(core.out) && Queued(HandlePacket(core, rt, p).0.out, k, true)
    ensures Queued(core.out, k, true)
  {
    hide Queued, HasOp, AckPacket, AckRelease, FailedCode, FirstFailed, HandlePubRec, ControlBytes, Items,
         IdPosition, SwapRemove, AllWf, OnePartial, AllGood, Fits, Quieted, HasRelease, UniqueIds;
    var o := core.out;
    match p {
      case SubAck(id, _, _) => AckNew(o, OpKind.Subscribe, id, k);
      case UnsubAck(id, _, _) => AckNew(o, OpKind.Unsubscribe, id, k);
      case PubAck(id, _) => AckNew(o, PublishAtLeastOnce, id, k);
      case PubRec(id, reason) => PubRecNew(core, rt, id, reason.Code(), k);
      case PubComp(id, _) => AckReleaseNew(o, id, k);
      case _ => SameQueued(HandlePacket(core, rt, p).0.out, o, k, true);
    }
  }

  lemma AckNew(o: Out, kind: OpKind, id: U16, k: Key)
    requires UniqueIds(o)
    ensures Queued(AckPacket(o, kind, id), k, true) ==> Queued(o, k, true)
  {
    AckPacketExact(o, kind, id);
    var p := AckPacket(o, kind, id);
    hide AckPacket;
    if k.Packet? && Queued(p, k, true) {
      var i :| 0 <= i < |p.retained| && p.retained[i].kind == k.kind && p.retained[i].id == k.id && !p.retained[i].state.Write?;
      assert p.retained[i] in o.retained;
    }
  }

  lemma AckReleaseNew(o: Out, id: U16, k: Key)
    requires Sound(o) && Quieted(o)
    ensures Queued(AckRelease(o, id), k, true) ==> Queued(o, k, true)
  {
    hide Sound, Quieted, AckRelease;
    AckReleaseKeeps(o, id);
    var p := AckRelease(o, id);
    if k.Release? && Queued(p, k, true) {
      var i :| 0 <= i < |p.release| && p.release[i].id == k.id && !p.release[i].state.Write?;
      assert p.release[i] in o.release;
    }
  }

  lemma PubRecNew(core: Core, rt: Runtime, id: U16, code: ReasonCode, k: Key)
    requires UniqueIds(core.out) && Queued(HandlePubRec(core, rt, id, code).0.out, k, true)
    ensures Queued(core.out, k, true)
  {
    hide Queued, HasOp, HasRelease, AckPacket, ReleaseBytes, UniqueIds;
    var q := AckPacket(core.out, PublishExactlyOnce, id);
    AckNew(core.out, PublishExactlyOnce, id, k);
    if QueueRelease(q, id, SUCCESS).Some? {
      QueueReleaseNew(q, id, SUCCESS, k);
    }
  }

  lemma QueueReleaseNew(o: Out, id: U16, reason: ReasonCode, k: Key)
    requires QueueRelease(o, id, reason).Some?
    ensures Queued(QueueRelease(o, id, reason).value, k, true) ==> Queued(o, k, true)
  {
    var p := QueueRelease(o, id, reason).value;
    if k.Release? && Queued(p, k, true) {
      var i :| 0 <= i < |p.release| && p.release[i].id == k.id && !p.release[i].state.Write?;
      assert p.release[i] == o.release[i];
    }
  }

  lemma AppendedNew(o: Out, p: Out, k: Key)
    requires Appended(o, p) && (|p.retained| > |o.retained| ==> p.retained[|o.retained|].state == Write(0))
    ensures Queued(p, k, true) ==> Queued(o, k, true)
  {
    if k.Packet? && Queued(p, k, true) && p.retained != o.retained {
      var i :| 0 <= i < |p.retained| && p.retained[i].kind == k.kind && p.retained[i].id == k.id && !p.retained[i].state.Write?;
      assert p.retained[i] == p.retained[..|o.retained|][i];
    }
  }

  /** A new connection starts with everything to be written. */
  lemma OpenUnwritten(c: Conn, answer: Answer, now: nat, k: Key)
    requires Streamed(c) && Connect(c, answer, now).0.link.live
    ensures !Queued(Connect(c, answer, now).0.core.out, k, true)
  {
    hide EncodeInto, ConnectBody, ConnectNeed, SettleAll, Deserializer.Items, Handshake.Publishes, RetainedBytes,
         Streamed, Items, Begun, MarkDup;
  }

  lemma StepRecorded(c: Conn, e: Event)
    requires Streamed(c) && Fits(c.core.out) && Enabled(c, e) && Recorded(c)
    ensures Recorded(Apply(c, e))
  {
    hide Queued, Completed, Streamed, Fits, Enabled, Apply;
    var d := Apply(c, e);
    if d.link.live {
      forall k: Key | Queued(d.core.out, k, true) ensures Completed(d, k) {
        EntryRecorded(c, e, k);
      }
    }
  }

  lemma EntryRecorded(c: Conn, e: Event, k: Key)
    requires Streamed(c) && Fits(c.core.out) && Enabled(c, e) && Recorded(c) && Apply(c, e).link.live
    requires Queued(Apply(c, e).core.out, k, true)
    ensures Completed(Apply(c, e), k)
  {
    hide Queued, Completed, Streamed, Fits, ServiceOnce, HandlePacket, Admit, Connect, Quieted, Unremembered, NextStep,
         Items, Begun, ArmReplay;
    StreamedUnique(c);
    var d := Apply(c, e);
    if e.Open? {
      OpenUnwritten(c, e.answer, e.now, k);
      assert false;
    }
    assert c.link.live by { StepQueued(c, e, k); }
    match e {
      case Service(now, io) => ServiceNew(c, now, io, k);
      case Receive(p) =>
        HandleNew(c.core, c.rt, p, k);
        CompletedGrows(c, d, k);
      case Ask(r) =>
        AskLive(c, r);
        AdmitAppends(c, r);
        AtLeastOnce.AppendedFresh(c, r);
        AppendedLength(c.core.out, d.core.out);
        AppendedNew(c.core.out, d.core.out, k);
        CompletedGrows(c, d, k);
      case Direct(packet, written, ok, close, now) => CompletedGrows(c, d, k);
      case _ =>
    }
  }

  lemma AppendedLength(o: Out, p: Out)
    requires Appended(o, p)
    ensures |p.retained| == |o.retained| || |p.retained| == |o.retained| + 1
  {
  }

  lemma {:induction false} RunRecorded(states: seq<Conn>, events: seq<Event>, i: nat)
    requires IsRun(states, events) && Initial(states[0]) && i < |states|
    ensures Recorded(states[i])
  {
    hide Recorded, Enabled, Fits, Streamed, Apply;
    if i == 0 {
      DeadRecorded(states[0]);
    } else {
      RunRecorded(states, events, i - 1);
      RunStreamed(states, events, i - 1);
      StepRecorded(states[i - 1], events[i - 1]);
      assert states[i - 1 + 1] == states[i];
    }
  }

  lemma DeadRecorded(c: Conn)
    ensures !c.link.live ==> Recorded(c)
  {
  }

  /** In every idle state of every run, each queued entry was written on the current connection. */
  lemma IdleMeansWritten(states: seq<Conn>, events: seq<Event>, i: nat, k: Key, written: bool)
    requires IsRun(states, events) && Initial(states[0]) && i < |states| && Idle(states[i])
    requires Queued(states[i].core.out, k, written)
    ensures written && Completed(states[i], k)
  {
    hide Enabled, Fits, Completed, NextStep, Initial;
    NothingNext(states[i].core.out);
    RunRecorded(states, events, i);
  }
}
