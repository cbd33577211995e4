/**
  * What the application gets out of an inbound packet: which publications are delivered, which errors it is told of and
  * when the connection ends (minimq/src/mqtt_client/session/inbound.rs).
  */
module Delivery {
  import opened Answers
  import opened Bytes
  import opened Greetings
  import opened Handshake
  import opened Outbound
  import opened OutboundLaws
  import opened Packets
  import opened Runs
  import opened Schedule
  import opened Session
  import Deserializer
  import InboundOnce
  import Wire

  // ------------------------------------------------------------------ one packet

  /** A PUBLISH above QoS 0 without an identifier. */
  predicate Unidentified(p: Packet) {
    p.Publish? && !p.qos.AtMostOnce? && p.packetId.None?
  }

  /** A publication to hand to the application, if its answer can be sent. */
  predicate Fresh(ids: seq<U16>, p: Packet) {
    p.Publish? && !Unidentified(p) && (p.qos.ExactlyOnce? ==> p.packetId.value !in ids && |ids| < 8)
  }

  /** The packet makes the client send one that the broker does not accept. */
  predicate Unanswerable(c: Conn, p: Packet) {
    !Allows(c.rt, 5) &&
    (|| Owed(c.core.serverIds, p).Some?
     || (p.PubRec? && HasOp(c.core.out, PublishExactlyOnce, p.id) && p.reason.Code() < 0x80))
  }

  /** Exactly the fresh publications whose answer can be sent reach the application. */
  lemma DeliversIff(c: Conn, p: Packet)
    requires Fits(c.core.out) && Enabled(c, Receive(p))
    ensures Process(c, p).1.Deliver? <==> Fresh(c.core.serverIds, p) && !Unanswerable(c, p)
  {
    hide Fits, Quieted, HandleDisconnect, QueueChecked, OnWire, HasOp, HasRelease, AckPacket, AckRelease, FailedCode,
         FirstFailed, ReleaseBytes;
    if p.Publish? && p.packetId.Some? && !p.qos.AtMostOnce? {
      PublishQueues(c, p);
    }
  }

  lemma PublishQueues(c: Conn, p: Packet)
    requires |c.core.out.control| < MAX_PENDING_CONTROL && p.Publish? && p.packetId.Some? && !p.qos.AtMostOnce?
    ensures var id, ids := p.packetId.value, c.core.serverIds;
            var h := HandlePublish(c.core, c.rt, p.qos, p.packetId).1;
            if !Allows(c.rt, 5) then h == Fail(PacketTooLarge)
            else if p.qos.ExactlyOnce? && (id in ids || |ids| >= 8) then h == Quiet
            else h == Deliver
  {
    hide QueueChecked;
    var id, ids := p.packetId.value, c.core.serverIds;
    if p.qos.AtLeastOnce? {
      QueueCheckedIs(c.core, c.rt, AckPublish(id, if id in ids then PACKET_ID_IN_USE else SUCCESS));
    } else {
      var full := id !in ids && |ids| >= MAX_INBOUND_QOS2;
      var noted := if id in ids || full then c.core else c.core.(serverIds := ids + [id]);
      QueueCheckedIs(noted, c.rt, RecPublish(id, if full then RECEIVE_MAX_EXCEEDED else SUCCESS));
    }
  }

  lemma PubRelQueues(c: Conn, id: U16)
    requires |c.core.out.control| < MAX_PENDING_CONTROL
    ensures HandlePubRel(c.core, c.rt, id).1 == if Allows(c.rt, 5) then Quiet else Fail(PacketTooLarge)
  {
    hide QueueChecked, IdPosition, SwapRemove;
    var i := IdPosition(c.core.serverIds, id);
    var found := i < |c.core.serverIds|;
    var released := c.core.(serverIds := if found then SwapRemove(c.core.serverIds, i) else c.core.serverIds,
                            inbound := c.core.inbound + [Released(id)]);
    QueueCheckedIs(released, c.rt, CompPublish(id, if found then SUCCESS else PACKET_ID_NOT_FOUND));
  }

  lemma PubRecEnds(c: Conn, id: U16, code: ReasonCode)
    ensures EndsConnection(HandlePubRec(c.core, c.rt, id, code).2)
            <==> HasOp(c.core.out, PublishExactlyOnce, id) && code < 0x80 && !Allows(c.rt, 5)
  {
    hide ReleaseBytes, HasOp, HasRelease, AckPacket;
    ReleaseBytesFrame(id, SUCCESS);
  }

  /**
    * A packet ends the connection exactly if it is a DISCONNECT, a CONNACK, a PUBLISH that lacks its identifier, or one
    * that needs an answer the broker does not accept.
    */
  lemma EndsIff(c: Conn, p: Packet)
    requires Fits(c.core.out) && Enabled(c, Receive(p))
    ensures !Process(c, p).0.link.live <==> p.Disconnect? || p.ConnAck? || Unidentified(p) || Unanswerable(c, p)
  {
    hide Fits, Quieted, QueueChecked, OnWire, HasOp, HasRelease, AckPacket, AckRelease, FailedCode, FirstFailed,
         HandlePubRec, HandlePubRel, Items, Begun, ArmReplay;
    match p {
      case Publish(_, id, _, _, _, qos, _) =>
        if id.Some? && !qos.AtMostOnce? {
          PublishQueues(c, p);
        }
      case PubRel(id, _) => PubRelQueues(c, id);
      case PubRec(id, reason) => PubRecEnds(c, id, reason.Code());
      case _ =>
    }
  }

  /** The first code of a list that reports a failure stands at `i`. */
  ghost predicate FailsFirst(codes: seq<Byte>, i: nat) {
    i < |codes| && ReasonOf(codes[i]) >= 0x80 && forall k | 0 <= k < i :: ReasonOf(codes[k]) < 0x80
  }

  /** The request or publication the packet acknowledges is refused with this code. */
  ghost predicate Refusal(o: Out, p: Packet, code: ReasonCode) {
    match p
    case PubAck(id, r) => HasOp(o, PublishAtLeastOnce, id) && r.Code() == code && code >= 0x80
    case PubRec(id, r) => (HasOp(o, PublishExactlyOnce, id) || HasRelease(o, id)) && r.Code() == code && code >= 0x80
    case PubComp(id, r) => HasRelease(o, id) && r.Code() == code && code >= 0x80
    case SubAck(id, _, codes) => HasOp(o, OpKind.Subscribe, id) && exists i: nat :: FailsFirst(codes, i) && ReasonOf(codes[i]) == code
    case UnsubAck(id, _, codes) =>
      HasOp(o, OpKind.Unsubscribe, id) && exists i: nat :: FailsFirst(codes, i) && ReasonOf(codes[i]) == code
    case _ => false
  }

  lemma {:induction false} FirstFailure(codes: seq<Byte>) returns (i: nat)
    requires FailedCode(codes)
    ensures FailsFirst(codes, i) && FirstFailed(codes) == ReasonOf(codes[i])
  {
    if !Success(ReasonOf(codes[0])) {
      i := 0;
    } else {
      i := FirstFailure(codes[1..]);
      i := i + 1;
      assert codes[i] == codes[1..][i - 1];
      assert forall k | 1 <= k < i :: codes[k] == codes[1..][k - 1];
    }
  }

  lemma ListRefused(core: Core, kind: OpKind, id: U16, codes: seq<Byte>, code: ReasonCode)
    ensures HandleSubAck(core, kind, id, codes).1 == Fail(Rejected(code))
            <==> HasOp(core.out, kind, id) && exists i: nat :: FailsFirst(codes, i) && ReasonOf(codes[i]) == code
  {
    hide AckPacket, HasOp, FirstFailed;
    if FailedCode(codes) {
      var i := FirstFailure(codes);
      assert forall k: nat :: FailsFirst(codes, k) ==> k == i;
    } else {
      forall k: nat ensures !FailsFirst(codes, k) {
        assert k < |codes| ==> Success(ReasonOf(codes[k]));
      }
    }
  }

  /** The caller is told of a refusal exactly when the broker refuses something still pending, and with its code. */
  lemma RefusalTold(c: Conn, p: Packet, code: ReasonCode)
    requires Fits(c.core.out) && Enabled(c, Receive(p))
    ensures Process(c, p).1 == Fail(Rejected(code)) <==> Refusal(c.core.out, p, code)
  {
    hide Fits, Quieted, HandleDisconnect, HandleSubAck, HandlePublish, HandlePubRel, HasOp, HasRelease, AckPacket,
         AckRelease, ReleaseBytes, FailsFirst;
    match p {
      case SubAck(id, _, codes) => ListRefused(c.core, OpKind.Subscribe, id, codes, code);
      case UnsubAck(id, _, codes) => ListRefused(c.core, OpKind.Unsubscribe, id, codes, code);
      case Publish(_, _, _, _, _, _, _) => PublishNeverRejects(c, p);
      case PubRel(id, _) => PubRelQueues(c, id);
      case _ =>
    }
  }

  lemma PublishNeverRejects(c: Conn, p: Packet)
    requires p.Publish? && |c.core.out.control| < MAX_PENDING_CONTROL
    ensures var h := HandlePublish(c.core, c.rt, p.qos, p.packetId).1; h.Fail? ==> !h.error.Rejected?
  {
    hide QueueChecked;
    if p.packetId.Some? && !p.qos.AtMostOnce? {
      PublishQueues(c, p);
    }
  }

  // --------------------------------------------------------- pending identifiers

  /** What a packet does to the identifiers of publications not released yet. */
  lemma PendingAfter(c: Conn, p: Packet, id: U16)
    requires InboundOnce.InboundOk(c.core)
    ensures id in Process(c, p).0.core.serverIds <==>
              if p.PubRel? && p.id == id then false
              else if Notes(c, p, id) then true
              else id in c.core.serverIds
  {
    hide Process, HandlePubRel, HandlePublish, HasOp, HasRelease, AckPacket, AckRelease, FailedCode, FirstFailed,
         ReleaseBytes, InboundOnce.InboundOk;
    ProcessPending(c, p);
    if p.PubRel? {
      PubRelPending(c, p.id, id);
    } else if p.Publish? {
      PublishPending(c, p, id);
    }
  }

  lemma PubRelPending(c: Conn, released: U16, id: U16)
    requires InboundOnce.InboundOk(c.core)
    ensures id in HandlePubRel(c.core, c.rt, released).0.serverIds <==> id in c.core.serverIds && id != released
  {
    hide ControlBytes, InboundOnce.Orderly, InboundOnce.Undone, SwapRemove;
    var i := IdPosition(c.core.serverIds, released);
    if i < |c.core.serverIds| {
      InboundOnce.SwapRemoveDistinct(c.core.serverIds, i);
    }
  }

  lemma PublishPending(c: Conn, p: Packet, id: U16)
    requires p.Publish?
    ensures id in HandlePublish(c.core, c.rt, p.qos, p.packetId).0.serverIds <==> Notes(c, p, id) || id in c.core.serverIds
  {
    hide ControlBytes;
  }

  lemma ProcessPending(c: Conn, p: Packet)
    ensures Process(c, p).0.core.serverIds == HandlePacket(c.core, c.rt, p).0.serverIds
  {
    hide HandlePacket, Items, Begun, ArmReplay;
  }

  /** The packet is a QoS 2 PUBLISH under `id` that finds room among the pending identifiers. */
  predicate Notes(c: Conn, p: Packet, id: U16) {
    p.Publish? && p.qos.ExactlyOnce? && p.packetId == Some(id) && |c.core.serverIds| < 8
  }

  /** The event at `k` forgets the identifier: a PUBREL for it, or a connect that finds no session. */
  ghost predicate Forgets(states: seq<Conn>, events: seq<Event>, k: nat, id: U16)
    requires k < |events| < |states|
  {
    match events[k]
    case Receive(p) => p.PubRel? && p.id == id
    case Open(answer, _) => ConnectPacket(states[k]).Some? && Discards(answer)
    case _ => false
  }

  /** The event at `k` is a QoS 2 PUBLISH under `id` that is noted. */
  ghost predicate NotedAt(states: seq<Conn>, events: seq<Event>, k: nat, id: U16)
    requires k < |events| < |states|
  {
    events[k].Receive? && Notes(states[k], events[k].packet, id)
  }

  /** A QoS 2 PUBLISH under `id` was noted in the first `i` events and not forgotten since. */
  ghost predicate Unreleased(states: seq<Conn>, events: seq<Event>, i: nat, id: U16)
    requires i <= |events| < |states|
  {
    exists a | 0 <= a < i :: NotedAt(states, events, a, id) && forall k | a < k < i :: !Forgets(states, events, k, id)
  }

  lemma UnreleasedStep(states: seq<Conn>, events: seq<Event>, i: nat, id: U16)
    requires i < |events| < |states|
    ensures Unreleased(states, events, i + 1, id) <==>
              || NotedAt(states, events, i, id)
              || (Unreleased(states, events, i, id) && !Forgets(states, events, i, id))
  {
    hide Forgets, NotedAt;
    if Unreleased(states, events, i + 1, id) && !NotedAt(states, events, i, id) {
      var a :| 0 <= a < i + 1 && NotedAt(states, events, a, id) && forall k | a < k < i + 1 :: !Forgets(states, events, k, id);
      assert a < i;
    }
    if Unreleased(states, events, i, id) && !Forgets(states, events, i, id) {
      var a :| 0 <= a < i && NotedAt(states, events, a, id) && forall k | a < k < i :: !Forgets(states, events, k, id);
      assert forall k | a < k < i + 1 :: !Forgets(states, events, k, id);
    }
  }

  /** A connect keeps the pending identifiers, unless it finds no session; then there are none. */
  lemma OpenPending(c: Conn, answer: Answer, now: nat)
    ensures Connect(c, answer, now).0.core.serverIds
            == if ConnectPacket(c).Some? && Discards(answer) then [] else c.core.serverIds
  {
    hide EncodeInto, ConnectBody, SettleAll, Deserializer.Items, Handshake.Publishes, ArmReplay, RetainedBytes, Items,
         Begun;
    var a := Prepared(c);
    if ConnectPacket(c).Some? {
      EncodedIsReserved(a.core.out, Wire.ControlHeader(Wire.MessageType.Connect), ConnectBody(a));
    }
  }

  lemma OtherPending(c: Conn, e: Event)
    requires Fits(c.core.out) && Enabled(c, e) && !e.Open? && !e.Receive?
    ensures Apply(c, e).core.serverIds == c.core.serverIds
  {
    hide ServiceOnce, Admit, Fits, Unremembered, Items, Begun, ArmReplay, NextStep;
    match e {
      case Service(now, io) => InboundOnce.ServiceInbound(c, now, io);
      case Ask(r) => InboundOnce.AskInbound(c, r);
      case _ =>
    }
  }

  lemma StepPending(states: seq<Conn>, events: seq<Event>, i: nat, id: U16)
    requires IsRun(states, events) && i < |events| && InboundOnce.InboundOk(states[i].core)
    ensures id in states[i + 1].core.serverIds <==>
              NotedAt(states, events, i, id) || (id in states[i].core.serverIds && !Forgets(states, events, i, id))
  {
    hide InboundOnce.InboundOk, Process, Connect, Fits, Enabled, ConnectPacket, Discards;
    var c, e := states[i], events[i];
    assert states[i + 1] == Apply(c, e);
    match e {
      case Receive(p) => PendingAfter(c, p, id);
      case Open(answer, now) => OpenPending(c, answer, now);
      case _ => OtherPending(c, e);
    }
  }

  /** In every state of every run the pending identifiers are those noted and not released since. */
  lemma {:induction false} PendingIff(states: seq<Conn>, events: seq<Event>, i: nat, id: U16)
    requires IsRun(states, events) && Initial(states[0]) && i <= |events|
    ensures id in states[i].core.serverIds <==> Unreleased(states, events, i, id)
  {
    hide Enabled, Fits, Unreleased, NotedAt, Forgets, InboundOnce.InboundOk;
    if i == 0 {
      assert !Unreleased(states, events, 0, id) by { NothingNoted(states, events, id); }
    } else {
      PendingIff(states, events, i - 1, id);
      InboundOnce.RunInbound(states, events, i - 1);
      StepPending(states, events, i - 1, id);
      UnreleasedStep(states, events, i - 1, id);
    }
  }

  lemma NothingNoted(states: seq<Conn>, events: seq<Event>, id: U16)
    requires |events| < |states|
    ensures !Unreleased(states, events, 0, id)
  {
  }

  /**
    * Inbound QoS 2 over whole runs: a PUBLISH reaches the application exactly if no PUBLISH under its identifier was noted
    * since the last PUBREL for it or the last session loss, fewer than eight are pending, and the PUBREC can be sent.
    */
  lemma DeliveredWhenNew(states: seq<Conn>, events: seq<Event>, i: nat, id: U16)
    requires IsRun(states, events) && Initial(states[0]) && i < |events| && events[i].Receive?
    requires var p := events[i].packet; p.Publish? && p.qos.ExactlyOnce? && p.packetId == Some(id)
    ensures Process(states[i], events[i].packet).1.Deliver? <==>
              !Unreleased(states, events, i, id) && |states[i].core.serverIds| < 8 && Allows(states[i].rt, 5)
  {
    hide Fits, Process, Unreleased;
    PendingIff(states, events, i, id);
    DeliversIff(states[i], events[i].packet);
  }
}
