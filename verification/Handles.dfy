/**
  * Operation handles over whole runs (minimq/src/mqtt_client/session/mod.rs): a handle is pending until its operation is
  * acknowledged, then complete, and invalidated exactly when the session state was discarded.
  */
module Handles {
  import opened Admission
  import opened AtLeastOnce
  import opened Bytes
  import opened ExactlyOnce
  import opened Greetings
  import opened Handshake
  import opened Outbound
  import opened OutboundLaws
  import opened Packets
  import opened Release
  import opened Runs
  import opened Schedule
  import opened Session
  import Deserializer
  import Wire

  datatype Op = Op(kind: OpKind, id: U16, generation: U32)

  datatype OpStatus = Pending | Complete | Invalidated

  /** `Session::status`. */
  function StatusOf(c: Conn, op: Op): OpStatus {
    if op.generation != c.core.generation then Invalidated
    else if HasRetained(c.core.out, op.id) || (op.kind.PublishExactlyOnce? && HasRelease(c.core.out, op.id)) then Pending
    else Complete
  }

  /** The handle a request is answered with. */
  ghost function HandleFor(c: Conn, r: Request): Option<Op>
    requires Fits(c.core.out)
  {
    var (d, id) := Admit(c, r);
    if id.Err? then None
    else
      var kind := match r
        case PublishRequest(_, _, qos, _, _) =>
          if EffectiveQos(c, qos) == Some(Wire.ExactlyOnce) then PublishExactlyOnce else PublishAtLeastOnce
        case SubscribeRequest(_, _) => OpKind.Subscribe
        case UnsubscribeRequest(_, _) => OpKind.Unsubscribe;
      Some(Op(kind, id.value, d.core.generation))
  }

  // --------------------------------------------------------------- generations

  /** The connect is told that the broker has no session, so session state is discarded. */
  ghost predicate Resets(c: Conn, e: Event) {
    e.Open? && ConnectPacket(c).Some? && Discards(e.answer)
  }

  lemma OpenGeneration(c: Conn, answer: Answer, now: nat)
    ensures Connect(c, answer, now).0.core.generation
            == if ConnectPacket(c).Some? && Discards(answer) then (c.core.generation + 1) % 0x1_0000_0000
               else c.core.generation
  {
    hide EncodeInto, ConnectBody, SettleAll, Deserializer.Items, Handshake.Publishes, ArmReplay, RetainedBytes, Begun;
    var a := Prepared(c);
    if ConnectPacket(c).Some? {
      EncodedIsReserved(a.core.out, Wire.ControlHeader(Wire.MessageType.Connect), ConnectBody(a));
    }
  }

  lemma StepGeneration(c: Conn, e: Event)
    requires Fits(c.core.out) && Enabled(c, e)
    ensures Apply(c, e).core.generation
            == if Resets(c, e) then (c.core.generation + 1) % 0x1_0000_0000 else c.core.generation
  {
    hide ServiceOnce, Admit, Fits, Quieted, Unremembered, Begun, ArmReplay, HandlePacket, Connect, ConnectPacket;
    match e {
      case Open(answer, now) => OpenGeneration(c, answer, now);
      case Service(now, io) => ServiceGeneration(c, now, io);
      case Receive(p) => HandleGeneration(c.core, c.rt, p);
      case Ask(r) => AdmitGeneration(c, r);
      case _ =>
    }
  }

  lemma ServiceGeneration(c: Conn, now: nat, io: Io)
    ensures ServiceOnce(c, now, io).0.core.generation == c.core.generation
  {
    hide ItemAt, ControlBytes, Begun, ArmReplay, CompleteFlush, AdvanceSlot, Taken, ShouldPing, NextStep;
    if NextStep(c.core.out).Some? {
      NextStepWritable(c.core.out);
    } else if MaybePing(c, now).Ok? && NextStep(MaybePing(c, now).value.core.out).Some? {
      NextStepWritable(MaybePing(c, now).value.core.out);
    }
  }

  lemma HandleGeneration(core: Core, rt: Runtime, p: Packet)
    ensures HandlePacket(core, rt, p).0.generation == core.generation
  {
    hide HasOp, FailedCode, FirstFailed, HasRelease, IdPosition, SwapRemove, ControlBytes, ReleaseBytes, AckPacket,
         AckRelease;
  }

  lemma AdmitGeneration(c: Conn, r: Request)
    requires Fits(c.core.out)
    ensures Admit(c, r).0.core.generation == c.core.generation
  {
    hide EncodePublishInto, EncodeInto, PublishFields, RetainedBytes, Fits, PacketIds.FreshId;
  }

  /** How often state was discarded between two states of a run. */
  ghost function ResetsIn(states: seq<Conn>, events: seq<Event>, i: nat, j: nat): nat
    requires i <= j <= |events| < |states|
  {
    if i == j then 0 else ResetsIn(states, events, i, j - 1) + (if Resets(states[j - 1], events[j - 1]) then 1 else 0)
  }

  lemma {:induction false} GenerationCounts(states: seq<Conn>, events: seq<Event>, i: nat, j: nat)
    requires IsRun(states, events) && i <= j <= |events|
    ensures states[j].core.generation == (states[i].core.generation + ResetsIn(states, events, i, j)) % 0x1_0000_0000
    decreases j - i
  {
    hide Enabled, Fits, Resets, Apply;
    if i < j {
      GenerationCounts(states, events, i, j - 1);
      assert states[j - 1 + 1] == Apply(states[j - 1], events[j - 1]);
      StepGeneration(states[j - 1], events[j - 1]);
    }
  }

  /** A handle is invalidated exactly if state was discarded since, up to 2^32 times over. */
  lemma InvalidatedIff(states: seq<Conn>, events: seq<Event>, i: nat, j: nat, op: Op)
    requires IsRun(states, events) && i <= j <= |events| && op.generation == states[i].core.generation
    ensures StatusOf(states[j], op).Invalidated? <==> ResetsIn(states, events, i, j) % 0x1_0000_0000 != 0
  {
    hide IsRun, ResetsIn;
    GenerationCounts(states, events, i, j);
  }

  // ---------------------------------------------------------------- operations

  /** The operation is in flight: its packet is kept, or its PUBREL. */
  ghost predicate Live(o: Out, kind: OpKind, id: U16) {
    (kind, id) in Ret(o) || (kind.PublishExactlyOnce? && Releasing(o, id))
  }

  /** Nothing else is in flight under its identifier. */
  ghost predicate Alone(o: Out, kind: OpKind, id: U16) {
    && (forall k: OpKind | (k, id) in Ret(o) :: k == kind)
    && (Releasing(o, id) ==> kind.PublishExactlyOnce?)
  }

  /** The queues as the code asks about them. */
  lemma Looked(o: Out, kind: OpKind, id: U16)
    ensures HasOp(o, kind, id) <==> (kind, id) in Ret(o)
    ensures HasRetained(o, id) <==> exists k: OpKind :: (k, id) in Ret(o)
    ensures HasRelease(o, id) <==> Releasing(o, id)
  {
    var i := RetainedPosition(o.retained, kind, id);
    if i < |o.retained| {
      assert Ret(o)[i] == (kind, id);
    }
    if HasRetained(o, id) {
      var k :| 0 <= k < |o.retained| && o.retained[k].id == id;
      assert Ret(o)[k] == (o.retained[k].kind, id);
    }
    if HasRelease(o, id) {
      var k :| 0 <= k < |o.release| && o.release[k].id == id;
      assert Rel(o)[k] == (id, o.release[k].state.Write?);
    }
  }

  lemma StatusIs(c: Conn, op: Op)
    requires Alone(c.core.out, op.kind, op.id) && op.generation == c.core.generation
    ensures StatusOf(c, op) == if Live(c.core.out, op.kind, op.id) then Pending else Complete
  {
    hide HasRetained, HasRelease, Releasing, Ret;
    Looked(c.core.out, op.kind, op.id);
  }

  /** The acknowledgement that ends an operation: a PUBREC does if it refuses, or if no PUBREL can follow it. */
  ghost predicate Finishes(c: Conn, e: Event, kind: OpKind, id: U16) {
    && e.Receive?
    && match e.packet
       case PubAck(i, _) => i == id && kind.PublishAtLeastOnce?
       case SubAck(i, _, _) => i == id && kind.Subscribe?
       case UnsubAck(i, _, _) => i == id && kind.Unsubscribe?
       case PubRec(i, reason) =>
         i == id && (kind, id) in Ret(c.core.out) && kind.PublishExactlyOnce?
         && !(Success(reason.Code()) && CanRelease(c.core, c.rt))
       case PubComp(i, _) => i == id && kind.PublishExactlyOnce? && Releasing(c.core.out, id)
       case _ => false
  }

  ghost predicate Draws(c: Conn, e: Event, id: U16)
    requires Fits(c.core.out)
  {
    e.Ask? && Admit(c, e.request).1 == Ok(id)
  }

  /** The operation goes on, or ends; either way nothing else comes under its identifier. */
  ghost predicate Goes(o: Out, p: Out, kind: OpKind, id: U16, ends: bool) {
    Alone(p, kind, id) && (Live(p, kind, id) <==> Live(o, kind, id) && !ends)
  }

  lemma LastingGoes(o: Out, p: Out, kind: OpKind, id: U16)
    requires Lasting(o, p) && Alone(o, kind, id)
    ensures Goes(o, p, kind, id, false)
  {
    hide Releasing, Ret, Rel, SameIds;
    SameIdsReleasing(o, p, id);
  }

  lemma GoesOn(o: Out, p: Out, q: Out, kind: OpKind, id: U16, ends: bool)
    requires Goes(o, p, kind, id, ends) && Lasting(p, q)
    ensures Goes(o, q, kind, id, ends)
  {
    hide Live, Alone, Lasting;
    LastingGoes(p, q, kind, id);
  }

  // ------------------------------------------------------------------- receipt

  lemma AckedRet(o: Out, kind: OpKind, id: U16)
    requires UniqueIds(o)
    ensures var p := AckPacket(o, kind, id);
            && p.release == o.release
            && forall x: (OpKind, U16) :: x in Ret(p) <==> x in Ret(o) && x != (kind, id)
  {
    hide AckPacket, Ret, UniqueIds, HasOp;
    AckPacketExact(o, kind, id);
    var p := AckPacket(o, kind, id);
    forall x: (OpKind, U16) ensures x in Ret(p) <==> x in Ret(o) && x != (kind, id) {
      InRet(o, x);
      InRet(p, x);
    }
  }

  lemma InRet(o: Out, x: (OpKind, U16))
    ensures x in Ret(o) <==> exists r | r in o.retained :: r.kind == x.0 && r.id == x.1
  {
    if x in Ret(o) {
      var i :| 0 <= i < |o.retained| && Ret(o)[i] == x;
      assert o.retained[i] in o.retained;
    }
    if r :| r in o.retained && r.kind == x.0 && r.id == x.1 {
      var i :| 0 <= i < |o.retained| && o.retained[i] == r;
      assert Ret(o)[i] == x;
    }
  }

  lemma SameRel(o: Out, p: Out)
    requires p.release == o.release
    ensures Rel(p) == Rel(o)
  {
  }

  lemma AckGoes(o: Out, ack: OpKind, i: U16, kind: OpKind, id: U16)
    requires UniqueIds(o) && Alone(o, kind, id) && !ack.PublishExactlyOnce?
    ensures Goes(o, AckPacket(o, ack, i), kind, id, ack == kind && i == id)
  {
    hide AckPacket, Ret, Rel, UniqueIds;
    AckedRet(o, ack, i);
    SameRel(o, AckPacket(o, ack, i));
  }

  lemma AckReleaseRel(o: Out, i: U16, id: U16)
    requires Sound(o) && Quieted(o)
    ensures Ret(AckRelease(o, i)) == Ret(o) && (Releasing(AckRelease(o, i), id) <==> Releasing(o, id) && id != i)
  {
    hide Sound, Quieted, AckRelease;
    AckReleaseKeeps(o, i);
    var p := AckRelease(o, i);
    assert Ret(p) == Ret(o);
    if Releasing(p, id) {
      var k :| 0 <= k < |p.release| && Rel(p)[k].0 == id;
      assert p.release[k] in o.release;
      var j :| 0 <= j < |o.release| && o.release[j] == p.release[k];
      assert Rel(o)[j].0 == id;
    }
    if Releasing(o, id) && id != i {
      var k :| 0 <= k < |o.release| && Rel(o)[k].0 == id;
      assert o.release[k] in p.release;
      var j :| 0 <= j < |p.release| && p.release[j] == o.release[k];
      assert Rel(p)[j].0 == id;
    }
  }

  /** A PUBREC moves its publication to the releases, or ends it. */
  lemma PubRecMoves(core: Core, rt: Runtime, i: U16, code: ReasonCode, id: U16)
    requires UniqueIds(core.out)
    ensures var (d, _, _) := HandlePubRec(core, rt, i, code);
            var here := (PublishExactlyOnce, i) in Ret(core.out);
            && (forall x: (OpKind, U16) :: x in Ret(d.out) <==> x in Ret(core.out) && x != (PublishExactlyOnce, i))
            && (Releasing(d.out, id) <==>
                  || Releasing(core.out, id)
                  || (here && id == i && Success(code) && CanRelease(core, rt)))
  {
    hide Ret, Rel, AckPacket, UniqueIds, HasRelease, ReleaseBytes;
    var o := core.out;
    Looked(o, PublishExactlyOnce, i);
    AckedRet(o, PublishExactlyOnce, i);
    var q := AckPacket(o, PublishExactlyOnce, i);
    ReleaseBytesFrame(i, SUCCESS);
    SameRel(o, q);
    if QueueRelease(q, i, SUCCESS).Some? {
      QueuedRel(q, i, id);
    }
  }

  lemma QueuedRel(o: Out, i: U16, id: U16)
    requires QueueRelease(o, i, SUCCESS).Some?
    ensures var p := QueueRelease(o, i, SUCCESS).value;
            Ret(p) == Ret(o) && (Releasing(p, id) <==> Releasing(o, id) || id == i)
  {
    var p := QueueRelease(o, i, SUCCESS).value;
    assert Rel(p) == Rel(o) + [(i, true)];
    assert Ret(p) == Ret(o);
  }

  lemma HandleGoes(c: Conn, p: Packet, kind: OpKind, id: U16)
    requires Sound(c.core.out) && Quieted(c.core.out) && Alone(c.core.out, kind, id)
    ensures Goes(c.core.out, HandlePacket(c.core, c.rt, p).0.out, kind, id, Finishes(c, Receive(p), kind, id))
  {
    hide HasOp, HasRelease, AckPacket, AckRelease, FailedCode, FirstFailed, HandlePubRec, ControlBytes, IdPosition,
         SwapRemove, Ret, Rel, Releasing, UniqueIds, Fits, AllGood, ControlUnsent, AllWf, OnePartial, Items, CanRelease,
         Quieted;
    var o := c.core.out;
    match p {
      case SubAck(i, _, _) =>
        AckGoes(o, OpKind.Subscribe, i, kind, id);
        AckPacketExact(o, OpKind.Subscribe, i);
      case UnsubAck(i, _, _) =>
        AckGoes(o, OpKind.Unsubscribe, i, kind, id);
        AckPacketExact(o, OpKind.Unsubscribe, i);
      case PubAck(i, _) =>
        AckGoes(o, PublishAtLeastOnce, i, kind, id);
        AckPacketExact(o, PublishAtLeastOnce, i);
      case PubRec(i, reason) =>
        PubRecMoves(c.core, c.rt, i, reason.Code(), id);
        NotBothKept(o, id);
      case PubComp(i, _) =>
        AckReleaseRel(o, i, id);
        Looked(o, kind, i);
        NotBothKept(o, id);
      case _ => OthersGo(o, HandlePacket(c.core, c.rt, p).0.out, kind, id);
    }
  }

  lemma NotBothKept(o: Out, id: U16)
    requires UniqueIds(o)
    ensures Releasing(o, id) ==> forall k: OpKind :: (k, id) !in Ret(o)
  {
  }

  lemma OthersGo(o: Out, p: Out, kind: OpKind, id: U16)
    requires p.retained == o.retained && p.release == o.release && Alone(o, kind, id)
    ensures Goes(o, p, kind, id, false)
  {
    assert Ret(p) == Ret(o) && Rel(p) == Rel(o);
  }

  // --------------------------------------------------------------------- steps

  lemma ReceiveGoes(c: Conn, p: Packet, kind: OpKind, id: U16)
    requires Sound(c.core.out) && Quieted(c.core.out) && Alone(c.core.out, kind, id)
    ensures Goes(c.core.out, Process(c, p).0.core.out, kind, id, Finishes(c, Receive(p), kind, id))
  {
    hide HandlePacket, Goes, Finishes, Sound, Quieted, Alone, ArmReplay, Lasting, Begun, Items;
    HandleGoes(c, p, kind, id);
    var o := HandlePacket(c.core, c.rt, p).0.out;
    ArmLasting(o);
    GoesOn(c.core.out, o, ArmReplay(o), kind, id, Finishes(c, Receive(p), kind, id));
  }

  lemma AppendedGoes(o: Out, p: Out, kind: OpKind, id: U16)
    requires Alone(o, kind, id) && p.release == o.release && |p.retained| == |o.retained| + 1
    requires p.retained[..|o.retained|] == o.retained && p.retained[|o.retained|].id != id
    ensures Goes(o, p, kind, id, false)
  {
    var last := p.retained[|o.retained|];
    assert Ret(p) == Ret(o) + [(last.kind, last.id)] by {
      assert forall i | 0 <= i < |o.retained| :: p.retained[i] == p.retained[..|o.retained|][i];
    }
    SameRel(o, p);
  }

  /** What admission keeps: the packet of the handle it returns, or nothing. */
  lemma AskKeepsOne(c: Conn, r: Request)
    requires Fits(c.core.out) && c.core.out.capacity < 0x1_0000_0000
    ensures var d := Admit(c, r).0; var op := HandleFor(c, r);
            if op.Some? then KeepsOne(c, d.core.out, op.value.kind, op.value.id) && op.value.generation == d.core.generation
            else d.core.out == c.core.out
  {
    hide Admit, Fits, KeepsOne, Received.FromBuffer, Received.NormalBlock, ClientPackets.ReadListing;
    match r {
      case PublishRequest(topic, b, qos, retain, payload) =>
        var q, _ := PublishAdmitted(c, topic, b, qos, retain, payload);
      case SubscribeRequest(topics, b) => SubscribeAdmitted(c, topics, b);
      case UnsubscribeRequest(filters, b) => UnsubscribeAdmitted(c, filters, b);
    }
  }

  lemma AskGoes(c: Conn, r: Request, kind: OpKind, id: U16)
    requires Fits(c.core.out) && c.core.out.capacity < 0x1_0000_0000 && Alone(c.core.out, kind, id)
    requires !Draws(c, Ask(r), id)
    ensures Goes(c.core.out, Admit(c, r).0.core.out, kind, id, false)
  {
    hide Admit, Fits, Goes, Alone, HasRetained, HasRelease;
    AskKeepsOne(c, r);
    var p := Admit(c, r).0.core.out;
    if HandleFor(c, r).Some? {
      AppendedGoes(c.core.out, p, kind, id);
    } else {
      OthersGo(c.core.out, p, kind, id);
    }
  }

  lemma OpenGoes(c: Conn, answer: Answer, now: nat, kind: OpKind, id: U16)
    requires Alone(c.core.out, kind, id) && !Resets(c, Open(answer, now))
    ensures Goes(c.core.out, Connect(c, answer, now).0.core.out, kind, id, false)
  {
    hide EncodeInto, ConnectBody, Accept, ArmReplay, Lasting, Goes, Alone, Emptied;
    OpenLasts(c, answer, now);
    ArmLasting(c.core.out);
    LastingGoes(c.core.out, ArmReplay(c.core.out), kind, id);
    if Lasting(c.core.out, Connect(c, answer, now).0.core.out) {
      LastingGoes(c.core.out, Connect(c, answer, now).0.core.out, kind, id);
    }
  }

  lemma EffectLasts(c: Conn, d: Conn, m: Option<Message>)
    requires Effect(c, d, m)
    ensures Lasting(c.core.out, d.core.out)
  {
    hide Ret, Rel, SameIds;
  }

  /** Every event that neither discards state nor draws the identifier again lets the operation go on, or finishes it. */
  lemma StepGoes(c: Conn, e: Event, kind: OpKind, id: U16)
    requires Streamed(c) && Fits(c.core.out) && Enabled(c, e) && Alone(c.core.out, kind, id)
    requires !Resets(c, e) && !Draws(c, e, id)
    ensures Goes(c.core.out, Apply(c, e).core.out, kind, id, Finishes(c, e, kind, id))
  {
    hide Fits, Streamed, ServiceOnce, Process, Admit, Connect, WriteDirect, ConnectPacket, Quieted, Unremembered, Goes,
         Alone, Effect, Lasting, ArmReplay, Begun, Items, NextStep;
    StreamedSound(c);
    var o := c.core.out;
    match e {
      case Service(now, io) =>
        var m := ServiceEffect(c, now, io);
        EffectLasts(c, ServiceOnce(c, now, io).0, m);
        LastingGoes(o, ServiceOnce(c, now, io).0.core.out, kind, id);
      case Drop =>
        ArmLasting(o);
        LastingGoes(o, ArmReplay(o), kind, id);
      case Receive(p) => ReceiveGoes(c, p, kind, id);
      case Ask(r) => AskGoes(c, r, kind, id);
      case Direct(packet, written, ok, close, now) =>
        var m := DirectEffect(c, packet, written, ok, close, now);
        EffectLasts(c, WriteDirect(c, packet, written, ok, close, now), m);
        LastingGoes(o, WriteDirect(c, packet, written, ok, close, now).core.out, kind, id);
      case Open(answer, now) => OpenGoes(c, answer, now, kind, id);
    }
  }

  lemma StreamedSound(c: Conn)
    requires Streamed(c)
    ensures Sound(c.core.out) && c.core.out.capacity < 0x1_0000_0000
  {
  }

  lemma AdmittedAlone(c: Conn, r: Request)
    requires Streamed(c) && Fits(c.core.out) && HandleFor(c, r).Some?
    ensures var op := HandleFor(c, r).value; var p := Admit(c, r).0.core.out;
            Alone(p, op.kind, op.id) && Live(p, op.kind, op.id)
  {
    hide Admit, Fits, Streamed, HandleFor;
    StreamedSound(c);
    AskKeepsOne(c, r);
    var o, p, op := c.core.out, Admit(c, r).0.core.out, HandleFor(c, r).value;
    assert Ret(p)[|o.retained|] == (op.kind, op.id);
    assert forall i | 0 <= i < |o.retained| :: p.retained[i] == p.retained[..|o.retained|][i] && o.retained[i].id != op.id;
    assert forall i | 0 <= i < |o.release| :: o.release[i].id != op.id;
    SameRel(o, p);
  }

  // ---------------------------------------------------------------------- runs

  /** Between two states no state is discarded, and the identifier is not drawn again. */
  ghost predicate Undisturbed(states: seq<Conn>, events: seq<Event>, i: nat, j: nat, id: U16)
    requires j <= |events| < |states| && forall a | 0 <= a < |events| :: Fits(states[a].core.out)
  {
    forall a | i <= a < j :: !Resets(states[a], events[a]) && !Draws(states[a], events[a], id)
  }

  ghost predicate Finished(states: seq<Conn>, events: seq<Event>, i: nat, j: nat, op: Op)
    requires j <= |events| < |states|
  {
    exists a | i <= a < j :: Finishes(states[a], events[a], op.kind, op.id)
  }

  /**
    * The handle of an admitted operation: pending until it is acknowledged, complete from then on, as long as no state is
    * discarded and its identifier is not drawn again.
    */
  lemma {:induction false} HandleStatus(states: seq<Conn>, events: seq<Event>, i: nat, j: nat, op: Op)
    requires IsRun(states, events) && Initial(states[0]) && i < j <= |events|
    requires events[i].Ask? && HandleFor(states[i], events[i].request) == Some(op)
    requires Undisturbed(states, events, i + 1, j, op.id)
    ensures Alone(states[j].core.out, op.kind, op.id) && op.generation == states[j].core.generation
    ensures Live(states[j].core.out, op.kind, op.id) <==> !Finished(states, events, i + 1, j, op)
    ensures StatusOf(states[j], op) == if Finished(states, events, i + 1, j, op) then Complete else Pending
    decreases j
  {
    hide Enabled, Fits, Streamed, Apply, Alone, Live, Resets, Draws, Finishes, HandleFor, StatusOf, Initial;
    var c := states[j - 1];
    RunStreamed(states, events, j - 1);
    assert states[j - 1 + 1] == Apply(c, events[j - 1]);
    if j == i + 1 {
      HandleNamed(c, events[i], op);
      AdmittedAlone(c, events[i].request);
    } else {
      HandleStatus(states, events, i, j - 1, op);
      StepGeneration(c, events[j - 1]);
      StepGoes(c, events[j - 1], op.kind, op.id);
      LivesOn(c, events[j - 1], states[j], op);
    }
    StatusIs(states[j], op);
  }

  lemma HandleNamed(c: Conn, e: Event, op: Op)
    requires Fits(c.core.out) && Enabled(c, e) && e.Ask? && HandleFor(c, e.request) == Some(op)
    ensures Apply(c, e) == Admit(c, e.request).0 && op.generation == Apply(c, e).core.generation
  {
    hide Admit, Fits;
  }

  lemma LivesOn(c: Conn, e: Event, d: Conn, op: Op)
    requires Goes(c.core.out, d.core.out, op.kind, op.id, Finishes(c, e, op.kind, op.id))
    ensures Alone(d.core.out, op.kind, op.id)
    ensures Live(d.core.out, op.kind, op.id) <==> Live(c.core.out, op.kind, op.id) && !Finishes(c, e, op.kind, op.id)
  {
    hide Alone, Live, Finishes;
  }
}
