/**
  * Outbound QoS 2 end to end (section 4.3.3 of MQTT Version 5.0): the client of `Session` and a broker that reads the
  * client's bytes, over any sequence of disconnects, resumes and session losses. When no publication is handed on more
  * than once, and exactly when one can be.
  */
module ExactlyOnce {
  import opened Bytes
  import opened Packets
  import opened Schedule
  import opened Outbound
  import opened OutboundLaws
  import opened Session
  import opened Greetings
  import opened Handshake
  import opened Meaning
  import opened Runs
  import opened Reconnect
  import Wire
  import Properties
  import Deserializer

  /**
    * Client and broker. Publications carry serial numbers: `owner` gives the serial of the QoS 2
    * publication retained under an identifier, `idOf` the identifier of each serial, and `serials` runs
    * alongside the packets completed on the current transport. The broker has read `seen` of those, has
    * `replies` on their way back, holds the identifiers in `held`, and has handed on `handed`. It has a session
    * for the client if `known`, and that session is `stale` if it replaced a lost one and the client, still holding
    * on to the lost one, was not told.
    */
  datatype World = World(
    c: Conn,
    serials: seq<nat>,
    owner: map<U16, nat>,
    idOf: seq<U16>,
    seen: nat,
    replies: seq<Packet>,
    held: set<U16>,
    known: bool,
    stale: bool,
    handed: seq<nat>)

  // --------------------------------------------------------------- client

  /** The serial number a completed packet carries. */
  ghost function SerialOf(w: World, m: Message): nat {
    if m.RetainedMessage? && m.kind.PublishExactlyOnce? && m.id in w.owner then w.owner[m.id] else 0
  }

  /** A request that was admitted as a new QoS 2 publication. */
  ghost predicate AdmitsPublication(c: Conn, d: Conn) {
    && |d.core.out.retained| == |c.core.out.retained| + 1
    && d.core.out.retained[|c.core.out.retained|].kind.PublishExactlyOnce?
  }

  /** The world after the client does `e`, other than receiving or reconnecting. */
  ghost function Follow(w: World, e: Event): World
    requires Fits(w.c.core.out) && Enabled(w.c, e)
  {
    var d := Apply(w.c, e);
    var grew := |d.link.sent| > |w.c.link.sent|;
    var v := w.(c := d,
                serials := if grew then w.serials + [SerialOf(w, d.link.sent[|d.link.sent| - 1])] else w.serials);
    if AdmitsPublication(w.c, d) then
      var id := d.core.out.retained[|w.c.core.out.retained|].id;
      v.(owner := w.owner[id := |w.idOf|], idOf := w.idOf + [id])
    else v
  }

  /** The client handles the oldest reply. */
  ghost function Reply(w: World): World
    requires w.replies != [] && Fits(w.c.core.out) && Enabled(w.c, Receive(w.replies[0]))
  {
    w.(c := Apply(w.c, Receive(w.replies[0])), replies := w.replies[1..])
  }

  /**
    * A new transport: whatever was under way on the old one is lost. `reached` says whether the broker
    * acted on the CONNECT; it starts a session anew when that CONNECT asks for a clean start or when it has none.
    */
  ghost function Reopen(w: World, answer: Answer, now: nat, reached: bool): World
    requires Fits(w.c.core.out)
  {
    var d := Apply(w.c, Open(answer, now));
    var anew := reached && !(w.known && AsksToResume(w.c));
    w.(c := d, serials := seq(|d.link.sent|, _ => 0), seen := 0, replies := [],
       held := if anew then {} else w.held, known := w.known || reached,
       stale := if Connect(w.c, answer, now).1.Ok? then false else if anew then d.core.present else w.stale)
  }

  /**
    * The broker acts only on a CONNECT that was sent. An honest CONNACK exists only if the CONNECT was acted on, and
    * reports whether a session was resumed.
    */
  ghost predicate HonestAnswer(w: World, answer: Answer, reached: bool) {
    && (reached ==> ConnectPacket(w.c).Some?)
    && (answer.Answered? && answer.packet.ConnAck? && Success(answer.packet.code) ==>
          reached && answer.packet.sessionPresent == (w.known && AsksToResume(w.c)))
  }

  // --------------------------------------------------------------- broker

  /** What the bytes of the next packet say to the broker. */
  ghost function Said(w: World): Meaning
    requires w.seen < |w.c.link.sent|
  {
    Meant(BytesOf(w.c.link.sent[w.seen]))
  }

  ghost predicate SaidPub2(w: World)
    requires w.seen < |w.c.link.sent|
  {
    Said(w).Publication? && Said(w).qos.ExactlyOnce?
  }

  /** The broker reads the next packet; `accept` is its choice about a new publication. */
  ghost function Read(w: World, accept: bool, code: ReasonCode): World
    requires w.seen < |w.c.link.sent| == |w.serials|
  {
    var next := w.(seen := w.seen + 1);
    match Said(w)
    case Publication(ExactlyOnce, id) =>
      var rec := Packet.PubRec(id, Reason(code, None));
      if id in w.held || !accept then next.(replies := w.replies + [rec])
      else next.(replies := w.replies + [rec], held := w.held + {id}, handed := w.handed + [w.serials[w.seen]])
    case Release(id) =>
      next.(replies := w.replies + [Packet.PubComp(id, Reason(code, None))], held := w.held - {id})
    case _ => next
  }

  /** The broker reads what the client meant. */
  lemma SaidIntended(w: World)
    requires Streamed(w.c) && w.seen < |w.c.link.sent|
    ensures Said(w) == Intended(w.c.link.sent[w.seen])
    ensures SaidPub2(w) == IsPub2(w.c.link.sent[w.seen])
  {
    hide Sound, FlushOk, IsFrame, Meant, BytesOf, Flatten, AllBytes, Severed;
    assert Genuine(w.c.link.sent[w.seen]);
  }

  datatype Move =
    | Client(event: Event)
    | Answer
    | BrokerReads(accept: bool, code: ReasonCode)
    | BrokerSends(packet: Packet)
    | BrokerForgets
    | Reconnects(answer: Handshake.Answer, now: nat, reached: bool)

  /**
    * The broker may send anything at any time, except a PUBCOMP that answers no PUBREL. It may lose its session at
    * any time, and reads nothing more until it has one again.
    */
  ghost predicate Possible(w: World, m: Move) {
    Fits(w.c.core.out) &&
    match m
    case Client(e) => !e.Receive? && !e.Open? && Enabled(w.c, e)
    case Answer => w.replies != [] && Enabled(w.c, Receive(w.replies[0]))
    case BrokerReads(_, _) => w.known && w.seen < |w.c.link.sent| == |w.serials|
    case BrokerSends(p) => !p.PubComp?
    case BrokerForgets => true
    case Reconnects(answer, _, reached) => HonestAnswer(w, answer, reached)
  }

  ghost function Next(w: World, m: Move): World
    requires Possible(w, m)
  {
    match m
    case Client(e) => Follow(w, e)
    case Answer => Reply(w)
    case BrokerReads(accept, code) => Read(w, accept, code)
    case BrokerSends(p) => w.(replies := w.replies + [p])
    case BrokerForgets => w.(held := {}, known := false, stale := false)
    case Reconnects(answer, now, reached) => Reopen(w, answer, now, reached)
  }

  // ------------------------------------------------- what the proof looks at

  /** Pending releases: identifier and whether the PUBREL is still to be written. */
  ghost function Rel(o: Out): seq<(U16, bool)> {
    seq(|o.release|, i requires 0 <= i < |o.release| => (o.release[i].id, o.release[i].state.Write?))
  }

  /** Retained packets: kind and identifier. */
  ghost function Ret(o: Out): seq<(OpKind, U16)> {
    seq(|o.retained|, i requires 0 <= i < |o.retained| => (o.retained[i].kind, o.retained[i].id))
  }

  ghost predicate Releasing(o: Out, id: U16) {
    (id, true) in Rel(o) || (id, false) in Rel(o)
  }

  function CountRel(ms: seq<Message>, id: U16): nat {
    if ms == [] then 0 else (if ms[0].ReleaseMessage? && ms[0].id == id then 1 else 0) + CountRel(ms[1..], id)
  }

  function CountComp(ps: seq<Packet>, id: U16): nat {
    if ps == [] then 0 else (if ps[0].PubComp? && ps[0].id == id then 1 else 0) + CountComp(ps[1..], id)
  }

  lemma {:induction false} CountRelConcat(a: seq<Message>, b: seq<Message>, id: U16)
    ensures CountRel(a + b, id) == CountRel(a, id) + CountRel(b, id)
  {
    if a == [] {
      assert a + b == b;
    } else {
      assert (a + b)[1..] == a[1..] + b;
      CountRelConcat(a[1..], b, id);
    }
  }

  lemma {:induction false} CountCompConcat(a: seq<Packet>, b: seq<Packet>, id: U16)
    ensures CountComp(a + b, id) == CountComp(a, id) + CountComp(b, id)
  {
    if a == [] {
      assert a + b == b;
    } else {
      assert (a + b)[1..] == a[1..] + b;
      CountCompConcat(a[1..], b, id);
    }
  }

  lemma {:induction false} CountRelZero(ms: seq<Message>, id: U16, i: nat)
    requires CountRel(ms, id) == 0 && i < |ms|
    ensures !(ms[i].ReleaseMessage? && ms[i].id == id)
  {
    if i > 0 {
      CountRelZero(ms[1..], id, i - 1);
    }
  }

  // ------------------------------------------------------------ invariant

  ghost predicate IsPub2(m: Message) {
    m.RetainedMessage? && m.kind.PublishExactlyOnce?
  }

  /** Packets the broker has not read yet. */
  ghost function InFlight(w: World): seq<Message>
    requires w.seen <= |w.c.link.sent|
  {
    w.c.link.sent[w.seen..]
  }

  /** Serial numbers name publications consistently. */
  ghost predicate Named(w: World) {
    && |w.serials| == |w.c.link.sent| && w.seen <= |w.c.link.sent|
    && (forall i | 0 <= i < |w.c.core.out.retained| && w.c.core.out.retained[i].kind.PublishExactlyOnce? ::
          var id := w.c.core.out.retained[i].id;
          id in w.owner && w.owner[id] < |w.idOf| && w.idOf[w.owner[id]] == id)
    && (forall p | w.seen <= p < |w.c.link.sent| && IsPub2(w.c.link.sent[p]) ::
          w.serials[p] < |w.idOf| && w.idOf[w.serials[p]] == w.c.link.sent[p].id)
    && (forall k | 0 <= k < |w.handed| :: w.handed[k] < |w.idOf|)
  }

  /**
    * A PUBREL under way belongs to a pending release. On a live connection it or its PUBCOMP is under way
    * at most once, and only for a release that has been written.
    */
  ghost predicate Piped(w: World)
    requires w.seen <= |w.c.link.sent|
  {
    && (forall id: U16 :: CountRel(InFlight(w), id) > 0 ==> Releasing(w.c.core.out, id))
    && (w.c.link.live ==> forall id: U16 ::
          CountRel(InFlight(w), id) + CountComp(w.replies, id) <= (if (id, false) in Rel(w.c.core.out) then 1 else 0))
  }

  /** No PUBLISH follows, unread, a PUBREL for its identifier. */
  ghost predicate Sequenced(w: World)
    requires w.seen <= |w.c.link.sent|
  {
    forall r, p | w.seen <= r < p < |w.c.link.sent| && w.c.link.sent[r].ReleaseMessage? && IsPub2(w.c.link.sent[p]) ::
      w.c.link.sent[r].id != w.c.link.sent[p].id
  }

  /** Whatever could still present a handed-on publication to the broker finds its identifier held. */
  ghost predicate Guarded(w: World)
    requires Named(w)
  {
    && (forall p | w.seen <= p < |w.c.link.sent| && IsPub2(w.c.link.sent[p]) && w.serials[p] in w.handed ::
          w.c.link.sent[p].id in w.held)
    && (forall i | 0 <= i < |w.c.core.out.retained| && w.c.core.out.retained[i].kind.PublishExactlyOnce?
          && w.owner[w.c.core.out.retained[i].id] in w.handed ::
          w.c.core.out.retained[i].id in w.held)
  }

  ghost predicate NoRepeats(s: seq<nat>) {
    forall i, j | 0 <= i < j < |s| :: s[i] != s[j]
  }

  /** A client that was not told of its new session has no connection to it, and nothing was handed on in it. */
  ghost predicate Untold(w: World) {
    w.stale ==> w.known && !w.c.link.live && w.c.link.sent == [] && w.held == {}
  }

  /** The bookkeeping of the two sides agrees. */
  ghost predicate Linked(w: World) {
    Streamed(w.c) && ReserveOk(w.c) && Named(w) && Piped(w) && Sequenced(w) && Untold(w)
  }

  ghost predicate Good(w: World) {
    && Linked(w)
    && (w.known && !w.stale ==> Guarded(w))
    && NoRepeats(w.handed)
  }

  /** A publication still retained was already handed on. */
  ghost predicate Outstanding(w: World) {
    exists i | 0 <= i < |w.c.core.out.retained| ::
      && w.c.core.out.retained[i].kind.PublishExactlyOnce? && w.c.core.out.retained[i].id in w.owner
      && w.owner[w.c.core.out.retained[i].id] in w.handed
  }

  /** The client resumes a session that replaced its own, and presents a publication that was handed on before. */
  ghost predicate Mistaken(w: World, m: Move) {
    m.Reconnects? && w.stale && Connect(w.c, m.answer, m.now).1 == Ok(true) && Outstanding(w)
  }

  // ----------------------------------------------------------- broker moves

  lemma ReadCounts(w: World)
    requires w.seen < |w.c.link.sent|
    ensures InFlight(w) == [w.c.link.sent[w.seen]] + InFlight(w.(seen := w.seen + 1))
    ensures forall id: U16 :: CountRel(InFlight(w), id) ==
              (if w.c.link.sent[w.seen].ReleaseMessage? && w.c.link.sent[w.seen].id == id then 1 else 0)
              + CountRel(InFlight(w.(seen := w.seen + 1)), id)
  {
    var s := InFlight(w);
    assert s[1..] == InFlight(w.(seen := w.seen + 1));
  }

  lemma CompSnoc(ps: seq<Packet>, p: Packet)
    ensures forall id: U16 :: CountComp(ps + [p], id) == CountComp(ps, id) + (if p.PubComp? && p.id == id then 1 else 0)
  {
    forall id: U16
      ensures CountComp(ps + [p], id) == CountComp(ps, id) + (if p.PubComp? && p.id == id then 1 else 0)
    {
      CountCompConcat(ps, [p], id);
      assert [p][1..] == [];
    }
  }

  lemma ReadPiped(w: World, accept: bool, code: ReasonCode)
    requires Streamed(w.c) && Named(w) && Piped(w) && w.seen < |w.c.link.sent|
    ensures Read(w, accept, code).seen <= |w.c.link.sent| && Piped(Read(w, accept, code))
  {
    hide CountRel, CountComp, Rel, Named, Streamed, Said;
    SaidIntended(w);
    assert |w.serials| == |w.c.link.sent| by { NamedLengths(w); }
    var v := Read(w, accept, code);
    ReadCounts(w);
    assert InFlight(v) == InFlight(w.(seen := w.seen + 1));
    var m := w.c.link.sent[w.seen];
    if m.ReleaseMessage? {
      CompSnoc(w.replies, Packet.PubComp(m.id, Reason(code, None)));
    } else {
      CompSnoc(w.replies, Packet.PubRec(if IsPub2(m) then m.id else 0, Reason(code, None)));
    }
  }

  lemma NamedLengths(w: World)
    requires Named(w)
    ensures |w.serials| == |w.c.link.sent|
  {
  }

  /** A release the broker acts on is not that of any publication still presented to it. */
  lemma ReleaseIsAlone(w: World)
    requires Linked(w) && w.seen < |w.c.link.sent| && w.c.link.sent[w.seen].ReleaseMessage?
    ensures forall i | 0 <= i < |w.c.core.out.retained| :: w.c.core.out.retained[i].id != w.c.link.sent[w.seen].id
  {
    hide Sequenced, Named, StreamOk, FlushOk, AllWf, OnePartial, AllGood, Items, ReserveOk;
    var id := w.c.link.sent[w.seen].id;
    ReadCounts(w);
    assert CountRel(InFlight(w), id) > 0;
    assert Releasing(w.c.core.out, id);
    assert UniqueIds(w.c.core.out);
  }

  lemma ReadLinked(w: World, accept: bool, code: ReasonCode)
    requires Linked(w) && w.seen < |w.c.link.sent|
    ensures |w.serials| == |w.c.link.sent| && Linked(Read(w, accept, code))
  {
    hide Streamed, ReserveOk, Piped, Rel, Said;
    SaidIntended(w);
    ReadPiped(w, accept, code);
    if IsPub2(w.c.link.sent[w.seen]) {
      assert w.serials[w.seen] < |w.idOf|;
    }
  }

  lemma ReadGood(w: World, accept: bool, code: ReasonCode)
    requires Good(w) && w.known && w.seen < |w.c.link.sent|
    ensures |w.serials| == |w.c.link.sent| && Good(Read(w, accept, code))
  {
    hide Streamed, ReserveOk, Piped, Rel, Said;
    ReadLinked(w, accept, code);
    SaidIntended(w);
    var v := Read(w, accept, code);
    var m := w.c.link.sent[w.seen];
    assert !w.stale;
    if m.ReleaseMessage? {
      ReleaseIsAlone(w);
      assert Guarded(v);
    } else if IsPub2(m) && m.id !in w.held && accept {
      assert w.serials[w.seen] !in w.handed;
    }
  }

  lemma SendLinked(w: World, p: Packet)
    requires Linked(w) && !p.PubComp?
    ensures Linked(w.(replies := w.replies + [p]))
  {
    hide Streamed, ReserveOk, CountRel, CountComp, Rel;
    CompSnoc(w.replies, p);
  }

  lemma SendGood(w: World, p: Packet)
    requires Good(w) && !p.PubComp?
    ensures Good(w.(replies := w.replies + [p]))
  {
    hide Streamed, ReserveOk, Piped;
    SendLinked(w, p);
  }

  lemma ForgetLinked(w: World)
    requires Linked(w)
    ensures Linked(w.(held := {}, known := false, stale := false))
  {
    hide Streamed, ReserveOk, CountRel, CountComp, Rel;
  }

  // ----------------------------------------------------------- client moves

  /** What a client step other than admission, receipt and reconnect does: complete at most one packet `m`. */
  ghost predicate Effect(c: Conn, d: Conn, m: Option<Message>) {
    && d.link.sent == c.link.sent + (if m.None? then [] else [m.value])
    && Ret(d.core.out) == Ret(c.core.out)
    && SameIds(Rel(c.core.out), Rel(d.core.out))
    && d.core.present == c.core.present
    && (m.Some? && m.value.RetainedMessage? ==> (m.value.kind, m.value.id) in Ret(c.core.out))
    && (m.Some? && m.value.ReleaseMessage? ==> d.link.live)
    && (m.Some? ==> c.link.live)
    && (d.link.live ==> c.link.live)
    && (d.link.live && !(m.Some? && m.value.ReleaseMessage?) ==> Rel(d.core.out) == Rel(c.core.out))
    && (d.link.live && m.Some? && m.value.ReleaseMessage? ==>
          exists j | 0 <= j < |Rel(c.core.out)| :: Written(Rel(c.core.out), Rel(d.core.out), j, m.value.id))
  }

  ghost predicate SameIds(a: seq<(U16, bool)>, b: seq<(U16, bool)>) {
    |a| == |b| && forall i | 0 <= i < |a| :: a[i].0 == b[i].0
  }

  /** Release `j`, of `id`, went from to-be-written to written. */
  ghost predicate Written(a: seq<(U16, bool)>, b: seq<(U16, bool)>, j: nat, id: U16) {
    j < |a| && a[j] == (id, true) && b == a[j := (id, false)]
  }

  lemma SameIdsReleasing(o: Out, p: Out, id: U16)
    requires SameIds(Rel(o), Rel(p))
    ensures Releasing(o, id) == Releasing(p, id)
  {
    if Releasing(o, id) {
      var k :| 0 <= k < |Rel(o)| && Rel(o)[k].0 == id;
      assert Rel(p)[k].0 == id;
      assert Rel(p)[k] == (id, Rel(p)[k].1);
      assert Rel(p)[k] in Rel(p);
    }
    if Releasing(p, id) {
      var k :| 0 <= k < |Rel(p)| && Rel(p)[k].0 == id;
      assert Rel(o)[k].0 == id;
      assert Rel(o)[k] == (id, Rel(o)[k].1);
      assert Rel(o)[k] in Rel(o);
    }
  }

  lemma DisconnectEffect(c: Conn)
    ensures Effect(c, HandleDisconnect(c), None)
  {
    hide Items, Begun;
  }

  lemma FlushEffect(c: Conn, now: nat, io: Io)
    ensures Effect(c, FlushCurrent(c, now, io).0, None)
  {
    hide Items, Begun;
    assert Rel(CompleteFlush(c.core.out)) == Rel(c.core.out);
    assert Ret(CompleteFlush(c.core.out)) == Ret(c.core.out);
  }

  lemma SetSlotEffect(o: Out, s: Slot, count: nat)
    requires SlotIn(o, s) && ItemAt(o, s).state.Write? && ItemAt(o, s).state.written + count <= |ItemAt(o, s).bytes|
    ensures var p := AdvanceSlot(o, s, count);
            var done := ItemAt(o, s).state.written + count == |ItemAt(o, s).bytes|;
            && Ret(p) == Ret(o) && SameIds(Rel(o), Rel(p))
            && (!(done && s.ReleaseSlot?) ==> Rel(p) == Rel(o))
            && (done && s.ReleaseSlot? ==> Written(Rel(o), Rel(p), s.index, o.release[s.index].id))
  {
    hide ControlBytes, ReleaseBytes;
    var p := AdvanceSlot(o, s, count);
    assert Ret(p) == Ret(o);
    if s.ReleaseSlot? {
      assert forall k | 0 <= k < |o.release| && k != s.index :: Rel(p)[k] == Rel(o)[k];
    }
  }

  lemma WriteEffect(c: Conn, s: Slot, count: nat, now: nat) returns (m: Option<Message>)
    requires c.link.live && SlotIn(c.core.out, s) && ItemAt(c.core.out, s).state.Write?
    requires ItemAt(c.core.out, s).state.written + count <= |ItemAt(c.core.out, s).bytes|
    ensures Effect(c, AfterWrite(c, s, count, now), m)
  {
    hide AdvanceSlot, ControlBytes, ReleaseBytes;
    var it := ItemAt(c.core.out, s);
    SetSlotEffect(c.core.out, s, count);
    m := if it.state.written + count == |it.bytes| then Some(it.packet) else None;
    if s.RetainedSlot? {
      assert Ret(c.core.out)[s.index] in Ret(c.core.out);
    }
  }

  lemma PerformEffect(c: Conn, s: Slot, now: nat, io: Io) returns (m: Option<Message>)
    requires SlotIn(c.core.out, s) && ItemAt(c.core.out, s).state.Write?
    ensures Effect(c, PerformStep(c, s, now, io).0, m)
  {
    hide Effect, AfterWrite, HandleDisconnect, ItemAt;
    m := None;
    DisconnectEffect(c);
    SelfEffect(c);
    if PerformStep(c, s, now, io).1.Progress? {
      m := WriteEffect(c, s, Taken(io, ItemAt(c.core.out, s)), now);
    }
  }

  lemma SelfEffect(c: Conn)
    ensures Effect(c, c, None)
  {
  }

  lemma PingEffect(c: Conn, now: nat)
    requires MaybePing(c, now).Ok?
    ensures var d := MaybePing(c, now).value;
            d.link == c.link && d.core.out.release == c.core.out.release && d.core.out.retained == c.core.out.retained
            && d.core.present == c.core.present
  {
    hide ShouldPing, ControlBytes;
  }

  lemma EffectAfter(c: Conn, d: Conn, e: Conn, m: Option<Message>)
    requires d.link == c.link && d.core.out.release == c.core.out.release && d.core.out.retained == c.core.out.retained
    requires d.core.present == c.core.present && Effect(d, e, m)
    ensures Effect(c, e, m)
  {
  }

  lemma ServiceEffect(c: Conn, now: nat, io: Io) returns (m: Option<Message>)
    ensures Effect(c, ServiceOnce(c, now, io).0, m)
  {
    hide Effect, FlushCurrent, PerformStep, NextStep, MaybePing, SlotIn, ItemAt;
    m := None;
    SelfEffect(c);
    FlushEffect(c, now, io);
    if c.link.flush.Flushing? {
    } else if NextStep(c.core.out).Some? {
      NextStepWritable(c.core.out);
      m := PerformEffect(c, NextStep(c.core.out).value, now, io);
    } else if !c.link.flush.Dirty? && MaybePing(c, now).Ok? {
      var d := MaybePing(c, now).value;
      PingEffect(c, now);
      SelfEffect(d);
      if NextStep(d.core.out).Some? {
        NextStepWritable(d.core.out);
        m := PerformEffect(d, NextStep(d.core.out).value, now, io);
        EffectAfter(c, d, PerformStep(d, NextStep(d.core.out).value, now, io).0, m);
      } else {
        EffectAfter(c, d, d, None);
      }
    }
  }

  lemma DirectEffect(c: Conn, packet: seq<Byte>, written: nat, ok: bool, close: bool, now: nat) returns (m: Option<Message>)
    requires written <= |packet| && c.link.live
    ensures Effect(c, WriteDirect(c, packet, written, ok, close, now), m)
  {
    hide Items, Begun;
    m := if written == |packet| then Some(DirectMessage(packet)) else None;
  }

  // ------------------------------------------------ effects keep the world good

  lemma CountSnoc(w: World, m: Message)
    requires w.seen <= |w.c.link.sent|
    ensures var s := w.c.link.sent + [m];
            && s[w.seen..] == InFlight(w) + [m]
            && forall id: U16 :: CountRel(s[w.seen..], id) ==
                 CountRel(InFlight(w), id) + (if m.ReleaseMessage? && m.id == id then 1 else 0)
  {
    var s := w.c.link.sent + [m];
    assert s[w.seen..] == InFlight(w) + [m];
    forall id: U16
      ensures CountRel(s[w.seen..], id) == CountRel(InFlight(w), id) + (if m.ReleaseMessage? && m.id == id then 1 else 0)
    {
      CountRelConcat(InFlight(w), [m], id);
      assert [m][1..] == [];
    }
  }

  lemma WrittenFlags(o: Out, p: Out, j: nat, id: U16)
    requires UniqueIds(o) && Written(Rel(o), Rel(p), j, id)
    ensures (id, false) !in Rel(o) && (id, false) in Rel(p)
    ensures forall x: U16 :: x != id ==> ((x, false) in Rel(p) <==> (x, false) in Rel(o))
  {
    assert Rel(p)[j] == (id, false);
    forall x: U16 | x != id ensures (x, false) in Rel(p) <==> (x, false) in Rel(o) {
      if (x, false) in Rel(o) {
        var k :| 0 <= k < |Rel(o)| && Rel(o)[k] == (x, false);
        assert Rel(p)[k] == (x, false);
      }
    }
  }

  lemma EffectPiped(w: World, v: World, m: Option<Message>)
    requires w.seen == v.seen <= |w.c.link.sent| && v.replies == w.replies
    requires Piped(w) && UniqueIds(w.c.core.out) && Effect(w.c, v.c, m)
    ensures v.seen <= |v.c.link.sent| && Piped(v)
  {
    hide CountRel, CountComp, Rel, UniqueIds;
    forall id: U16 ensures Releasing(w.c.core.out, id) == Releasing(v.c.core.out, id) {
      SameIdsReleasing(w.c.core.out, v.c.core.out, id);
    }
    if m.Some? {
      CountSnoc(w, m.value);
      if m.value.ReleaseMessage? {
        var j :| 0 <= j < |Rel(w.c.core.out)| && Written(Rel(w.c.core.out), Rel(v.c.core.out), j, m.value.id);
        WrittenFlags(w.c.core.out, v.c.core.out, j, m.value.id);
        assert Rel(v.c.core.out)[j] == (m.value.id, false);
        assert Releasing(v.c.core.out, m.value.id);
      }
    } else {
      assert v.c.link.sent == w.c.link.sent;
    }
  }

  lemma EffectSequenced(w: World, v: World, m: Option<Message>)
    requires w.seen == v.seen <= |w.c.link.sent| && Sequenced(w) && Piped(w)
    requires UniqueIds(w.c.core.out) && Effect(w.c, v.c, m)
    ensures v.seen <= |v.c.link.sent| && Sequenced(v)
  {
    hide CountComp;
    if m.Some? && IsPub2(m.value) {
      var id := m.value.id;
      RetainedNotReleasing(w.c.core.out, m.value.kind, id);
      assert CountRel(InFlight(w), id) == 0;
      forall r | w.seen <= r < |w.c.link.sent| && w.c.link.sent[r].ReleaseMessage?
        ensures w.c.link.sent[r].id != id
      {
        CountRelZero(InFlight(w), id, r - w.seen);
      }
    }
  }

  lemma RetainedNotReleasing(o: Out, kind: OpKind, id: U16)
    requires UniqueIds(o) && (kind, id) in Ret(o)
    ensures !Releasing(o, id)
  {
    var i :| 0 <= i < |Ret(o)| && Ret(o)[i] == (kind, id);
    assert o.retained[i].id == id;
  }

  lemma RetEntries(o: Out, p: Out)
    requires Ret(o) == Ret(p)
    ensures |o.retained| == |p.retained|
    ensures forall i | 0 <= i < |o.retained| ::
              o.retained[i].kind == p.retained[i].kind && o.retained[i].id == p.retained[i].id
  {
    assert |Ret(o)| == |Ret(p)|;
    forall i | 0 <= i < |o.retained|
      ensures o.retained[i].kind == p.retained[i].kind && o.retained[i].id == p.retained[i].id
    {
      assert Ret(o)[i] == (o.retained[i].kind, o.retained[i].id);
      assert Ret(p)[i] == (p.retained[i].kind, p.retained[i].id);
    }
  }

  /** A publication about to be presented again is covered by its retained entry. */
  lemma OwnedMessage(w: World, m: Message)
    requires Named(w) && IsPub2(m) && (m.kind, m.id) in Ret(w.c.core.out)
    ensures m.id in w.owner && SerialOf(w, m) == w.owner[m.id] < |w.idOf| && w.idOf[w.owner[m.id]] == m.id
    ensures Guarded(w) && SerialOf(w, m) in w.handed ==> m.id in w.held
  {
    var i :| 0 <= i < |Ret(w.c.core.out)| && Ret(w.c.core.out)[i] == (m.kind, m.id);
    assert w.c.core.out.retained[i].kind == m.kind && w.c.core.out.retained[i].id == m.id;
  }

  lemma EffectNamed(w: World, v: World, m: Option<Message>)
    requires Named(w) && Effect(w.c, v.c, m)
    requires v == w.(c := v.c, serials := if m.None? then w.serials else w.serials + [SerialOf(w, m.value)])
    ensures Named(v) && (Guarded(w) ==> Guarded(v))
  {
    hide SerialOf, Rel, SameIds, Written;
    RetEntries(w.c.core.out, v.c.core.out);
    if m.Some? {
      if IsPub2(m.value) {
        OwnedMessage(w, m.value);
      }
      assert forall p | 0 <= p < |w.c.link.sent| :: v.c.link.sent[p] == w.c.link.sent[p] && v.serials[p] == w.serials[p];
    }
  }

  lemma EffectLinked(w: World, e: Event, m: Option<Message>)
    requires Linked(w) && Fits(w.c.core.out) && Enabled(w.c, e)
    requires Effect(w.c, Apply(w.c, e), m) && Streamed(Apply(w.c, e)) && ReserveOk(Apply(w.c, e))
    ensures var v := Follow(w, e); Linked(v) && Kindred(w, v) && (Guarded(w) ==> Guarded(v))
  {
    hide Streamed, ReserveOk, Apply, Enabled, Piped, Sequenced, Named, Guarded, Rel, SameIds, Written, SerialOf, Fits;
    var v := Follow(w, e);
    StreamedUnique(w.c);
    RetEntries(w.c.core.out, v.c.core.out);
    assert v == w.(c := v.c, serials := if m.None? then w.serials else w.serials + [SerialOf(w, m.value)]);
    NamedBounds(w);
    EffectPiped(w, v, m);
    EffectSequenced(w, v, m);
    EffectNamed(w, v, m);
  }

  /** The broker is as it was. */
  ghost predicate Kindred(w: World, v: World) {
    v.known == w.known && v.stale == w.stale && v.held == w.held && v.handed == w.handed && v.seen == w.seen
  }

  lemma NamedBounds(w: World)
    requires Named(w)
    ensures w.seen <= |w.c.link.sent| == |w.serials|
  {
  }

  // --------------------------------------------------------------- admission

  /** Admission changes the retained list only by appending one packet under an unused identifier. */
  ghost predicate Appended(o: Out, p: Out) {
    && p.release == o.release
    && (p.retained == o.retained
        || (|p.retained| == |o.retained| + 1 && p.retained[..|o.retained|] == o.retained
            && !HasRetained(o, p.retained[|o.retained|].id) && !HasRelease(o, p.retained[|o.retained|].id)))
  }

  lemma AdmitPublishAppends(c: Conn, topic: Wire.Text, b: Properties.Block, qos: Wire.QoS, retain: bool, payload: Payload)
    requires Fits(c.core.out) && !qos.AtMostOnce?
    ensures Appended(c.core.out, AdmitPublish(c, topic, b, qos, retain, payload).0.core.out)
  {
    hide EncodePublishInto, PublishFields, RetainedBytes, Fits;
  }

  lemma AdmitFiltersAppends(c: Conn, kind: OpKind, fields: U16 -> Wire.Fields)
    requires Fits(c.core.out)
    ensures Appended(c.core.out, AdmitFilters(c, kind, fields).0.core.out)
  {
    hide EncodeInto, RetainedBytes, Fits;
  }

  lemma AdmitAppends(c: Conn, r: Request)
    requires Fits(c.core.out)
    ensures Appended(c.core.out, Admit(c, r).0.core.out)
  {
    hide AdmitPublish, AdmitFilters, Fits, HasRetained, HasRelease;
    match r {
      case PublishRequest(topic, properties, qos, retain, payload) =>
        var q := EffectiveQos(c, qos);
        if c.link.live && q.Some? && !q.value.AtMostOnce? {
          AdmitPublishAppends(c, topic, properties, q.value, retain, payload);
        }
      case SubscribeRequest(topics, properties) =>
        AdmitFiltersAppends(c, OpKind.Subscribe, (id: U16) => SubscribeFields(id, properties, topics));
      case UnsubscribeRequest(filters, properties) =>
        AdmitFiltersAppends(c, OpKind.Unsubscribe, (id: U16) => UnsubscribeFields(id, properties, filters));
    }
  }

  lemma AskLinked(w: World, r: Request)
    requires Linked(w) && Fits(w.c.core.out)
    ensures var v := Follow(w, Ask(r)); Linked(v) && Kindred(w, v) && (Guarded(w) ==> Guarded(v))
  {
    hide Streamed, ReserveOk, Admit, Piped, Sequenced, Fits;
    StreamedUnique(w.c);
    var v := Follow(w, Ask(r));
    AskKeeps(w.c, r);
    AskReserve(w.c, r);
    AdmitAppends(w.c, r);
    AdmitSame(w.c, r);
    AskPipes(w, v);
    AskNames(w, v, r);
  }

  lemma SameRel(o: Out, p: Out)
    requires o.release == p.release
    ensures Rel(o) == Rel(p)
  {
  }

  lemma AskPipes(w: World, v: World)
    requires w.seen == v.seen <= |w.c.link.sent| && v.replies == w.replies && v.c.link == w.c.link
    requires Piped(w) && Sequenced(w) && v.c.core.out.release == w.c.core.out.release
    ensures Piped(v) && Sequenced(v)
  {
    hide CountRel, CountComp, Rel;
    SameRel(w.c.core.out, v.c.core.out);
    assert InFlight(v) == InFlight(w);
    assert forall id: U16 :: Releasing(v.c.core.out, id) == Releasing(w.c.core.out, id);
  }

  lemma AskNames(w: World, v: World, r: Request)
    requires Named(w) && Fits(w.c.core.out) && v == Follow(w, Ask(r))
    requires v.c.link == w.c.link && Appended(w.c.core.out, v.c.core.out)
    ensures Named(v) && (Guarded(w) ==> Guarded(v))
  {
    hide Apply, Fits, SerialOf;
    var n := |w.c.core.out.retained|;
    if AdmitsPublication(w.c, v.c) {
      var id := v.c.core.out.retained[n].id;
      assert v.owner == w.owner[id := |w.idOf|] && v.idOf == w.idOf + [id];
      forall i | 0 <= i < n ensures v.c.core.out.retained[i] == w.c.core.out.retained[i] && w.c.core.out.retained[i].id != id {
        assert v.c.core.out.retained[i] == v.c.core.out.retained[..n][i];
      }
    } else {
      assert v.owner == w.owner && v.idOf == w.idOf;
      forall i | 0 <= i < |v.c.core.out.retained| && v.c.core.out.retained[i].kind.PublishExactlyOnce?
        ensures i < n && v.c.core.out.retained[i] == w.c.core.out.retained[i]
      {
        if i < n && |v.c.core.out.retained| > n {
          assert v.c.core.out.retained[i] == v.c.core.out.retained[..n][i];
        }
      }
    }
  }

  // ----------------------------------------------------------------- receipt

  /** What handling `p` does to retained packets and pending releases. */
  ghost predicate Receipt(o: Out, q: Out, p: Packet) {
    && (forall x :: x in Ret(q) ==> x in Ret(o))
    && (p.PubComp? ==> forall x: (U16, bool) :: x in Rel(q) <==> x in Rel(o) && x.0 != p.id)
    && (!p.PubComp? ==> (forall x: (U16, bool) :: x in Rel(o) ==> x in Rel(q))
                        && (forall x: (U16, bool) :: x in Rel(q) ==> x in Rel(o) || x.1))
  }

  lemma ReceiptSelf(o: Out, p: Packet)
    requires p.PubComp? ==> !HasRelease(o, p.id)
    ensures Receipt(o, o, p)
  {
    if p.PubComp? {
      forall x | x in Rel(o) ensures x.0 != p.id {
        var k :| 0 <= k < |Rel(o)| && Rel(o)[k] == x;
        assert o.release[k].id == x.0;
      }
    }
  }

  lemma AckReceipt(o: Out, kind: OpKind, id: U16, p: Packet)
    requires UniqueIds(o) && !p.PubComp?
    ensures Receipt(o, AckPacket(o, kind, id), p)
  {
    AckPacketExact(o, kind, id);
    var q := AckPacket(o, kind, id);
    SameRel(o, q);
    forall x | x in Ret(q) ensures x in Ret(o) {
      var k :| 0 <= k < |Ret(q)| && Ret(q)[k] == x;
      assert q.retained[k] in o.retained;
      var i :| 0 <= i < |o.retained| && o.retained[i] == q.retained[k];
      assert Ret(o)[i] == x;
    }
  }

  lemma QueueReleaseReceipt(o: Out, id: U16, reason: ReasonCode, p: Packet)
    requires QueueRelease(o, id, reason).Some? && !p.PubComp?
    ensures Receipt(o, QueueRelease(o, id, reason).value, p)
  {
    var q := QueueRelease(o, id, reason).value;
    assert Rel(q) == Rel(o) + [(id, true)];
    assert Ret(q) == Ret(o);
  }

  lemma ReceiptTrans(o: Out, q: Out, r: Out, p: Packet)
    requires Receipt(o, q, p) && Receipt(q, r, p) && !p.PubComp?
    ensures Receipt(o, r, p)
  {
  }

  lemma AckReleaseReceipt(o: Out, p: Packet)
    requires Sound(o) && Quieted(o) && p.PubComp?
    ensures Receipt(o, AckRelease(o, p.id), p)
  {
    hide Sound, Quieted, AckRelease;
    AckReleaseKeeps(o, p.id);
    var q := AckRelease(o, p.id);
    assert Ret(q) == Ret(o);
    forall x: (U16, bool) ensures x in Rel(q) <==> x in Rel(o) && x.0 != p.id {
      if x in Rel(q) {
        var k :| 0 <= k < |Rel(q)| && Rel(q)[k] == x;
        assert q.release[k] in q.release;
        var i :| 0 <= i < |o.release| && o.release[i] == q.release[k];
        assert Rel(o)[i] == x;
      }
      if x in Rel(o) && x.0 != p.id {
        var k :| 0 <= k < |Rel(o)| && Rel(o)[k] == x;
        assert o.release[k] in q.release;
        var i :| 0 <= i < |q.release| && q.release[i] == o.release[k];
        assert Rel(q)[i] == x;
      }
    }
  }

  lemma PubRecReceipt(core: Core, rt: Runtime, id: U16, code: ReasonCode, p: Packet)
    requires UniqueIds(core.out) && !p.PubComp?
    ensures Receipt(core.out, HandlePubRec(core, rt, id, code).0.out, p)
  {
    hide Receipt, HasOp, HasRelease, AckPacket, ReleaseBytes, UniqueIds;
    var o := core.out;
    ReceiptSelf(o, p);
    var q := AckPacket(o, PublishExactlyOnce, id);
    AckReceipt(o, PublishExactlyOnce, id, p);
    if QueueRelease(q, id, SUCCESS).Some? {
      QueueReleaseReceipt(q, id, SUCCESS, p);
      ReceiptTrans(o, q, QueueRelease(q, id, SUCCESS).value, p);
    }
  }

  /** Queues that differ in control packets only look the same here. */
  lemma ControlReceipt(o: Out, q: Out, p: Packet)
    requires q.retained == o.retained && q.release == o.release && !p.PubComp?
    ensures Receipt(o, q, p)
  {
    SameRel(o, q);
    assert Ret(q) == Ret(o);
  }

  lemma HandleReceipt(core: Core, rt: Runtime, p: Packet)
    requires Sound(core.out) && Quieted(core.out)
    ensures Receipt(core.out, HandlePacket(core, rt, p).0.out, p)
  {
    hide Receipt, HasOp, AckPacket, AckRelease, FailedCode, FirstFailed, HandlePubRec, ControlBytes, Items,
         IdPosition, SwapRemove, AllWf, OnePartial, AllGood, Fits, Quieted, HasRelease, UniqueIds;
    var o := core.out;
    var q := HandlePacket(core, rt, p).0.out;
    match p {
      case SubAck(id, _, _) =>
        ReceiptSelf(o, p);
        AckReceipt(o, OpKind.Subscribe, id, p);
      case UnsubAck(id, _, _) =>
        ReceiptSelf(o, p);
        AckReceipt(o, OpKind.Unsubscribe, id, p);
      case PubAck(id, _) =>
        ReceiptSelf(o, p);
        AckReceipt(o, PublishAtLeastOnce, id, p);
      case PubRec(id, reason) => PubRecReceipt(core, rt, id, reason.Code(), p);
      case PubComp(id, _) =>
        if HasRelease(o, id) {
          AckReleaseReceipt(o, p);
        } else {
          ReceiptSelf(o, p);
        }
      case _ => ControlReceipt(o, q, p);
    }
  }

  lemma PopComp(ps: seq<Packet>)
    requires ps != []
    ensures forall id: U16 :: CountComp(ps, id) == (if ps[0].PubComp? && ps[0].id == id then 1 else 0) + CountComp(ps[1..], id)
  {
  }

  /** Before any disconnect that handling the packet may cause. */
  lemma ReceiptPiped(w: World, q: Out)
    requires w.seen <= |w.c.link.sent| && Piped(w) && w.c.link.live && w.replies != []
    requires Receipt(w.c.core.out, q, w.replies[0])
    ensures Piped(w.(c := WithOut(w.c, q), replies := w.replies[1..]))
  {
    hide CountRel, CountComp, Rel;
    var v := w.(c := WithOut(w.c, q), replies := w.replies[1..]);
    var o, p := w.c.core.out, w.replies[0];
    PopComp(w.replies);
    assert InFlight(v) == InFlight(w);
    forall id: U16 | CountRel(InFlight(w), id) > 0 ensures Releasing(q, id) {
      assert Releasing(o, id);
      assert !(p.PubComp? && p.id == id);
      if (id, true) in Rel(o) {
        assert (id, true) in Rel(q);
      } else {
        assert (id, false) in Rel(q);
      }
    }
    forall id: U16
      ensures CountRel(InFlight(v), id) + CountComp(v.replies, id) <= (if (id, false) in Rel(q) then 1 else 0)
    {
      if (id, false) in Rel(o) && (id, false) !in Rel(q) {
        assert p.PubComp? && p.id == id;
      }
    }
  }

  lemma ReceiptNamed(w: World, v: World)
    requires Named(w) && Sequenced(w)
    requires v.c.link.sent == w.c.link.sent && v == w.(c := v.c, replies := v.replies)
    requires forall x :: x in Ret(v.c.core.out) ==> x in Ret(w.c.core.out)
    ensures Named(v) && Sequenced(v) && (Guarded(w) ==> Guarded(v))
  {
    forall i | 0 <= i < |v.c.core.out.retained|
      ensures exists k | 0 <= k < |w.c.core.out.retained| ::
                w.c.core.out.retained[k].kind == v.c.core.out.retained[i].kind
                && w.c.core.out.retained[k].id == v.c.core.out.retained[i].id
    {
      var x := Ret(v.c.core.out)[i];
      assert x in Ret(w.c.core.out);
      var k :| 0 <= k < |Ret(w.c.core.out)| && Ret(w.c.core.out)[k] == x;
      assert w.c.core.out.retained[k].kind == v.c.core.out.retained[i].kind;
    }
  }

  lemma DroppedPiped(w: World, v: World)
    requires w.seen == v.seen <= |w.c.link.sent| && v.replies == w.replies && Piped(w)
    requires v.c == HandleDisconnect(w.c)
    ensures Piped(v)
  {
    hide CountRel, CountComp, Items, Begun;
    DisconnectEffect(w.c);
    forall id: U16 ensures Releasing(w.c.core.out, id) == Releasing(v.c.core.out, id) {
      SameIdsReleasing(w.c.core.out, v.c.core.out, id);
    }
  }

  lemma ReplyParts(w: World)
    requires w.replies != [] && Fits(w.c.core.out) && Enabled(w.c, Receive(w.replies[0]))
    ensures var (core, rt, h) := HandlePacket(w.c.core, w.c.rt, w.replies[0]);
            var d := w.c.(core := core, rt := rt);
            && core.present == w.c.core.present
            && Reply(w) == w.(c := if EndsConnection(h) then HandleDisconnect(d) else d, replies := w.replies[1..])
  {
    hide HandlePacket, HandleDisconnect, Fits, Quieted;
    HandleIdentity(w.c.core, w.c.rt, w.replies[0]);
  }

  lemma ReplyLinked(w: World)
    requires Linked(w) && w.replies != [] && Fits(w.c.core.out) && Enabled(w.c, Receive(w.replies[0]))
    ensures var v := Reply(w); Linked(v) && Kindred(w, v) && (Guarded(w) ==> Guarded(v))
  {
    hide Streamed, ReserveOk, HandlePacket, HandleDisconnect, Piped, Sequenced, Named, Guarded, Receipt, Fits,
         Quieted, Process, Ret;
    var p := w.replies[0];
    var (core, rt, h) := HandlePacket(w.c.core, w.c.rt, p);
    var d := w.c.(core := core, rt := rt);
    var v := Reply(w);
    ReplyParts(w);
    StreamedUnique(w.c);
    NamedBounds(w);
    HandleReceipt(w.c.core, w.c.rt, p);
    ReceiveKeeps(w.c, p);
    ReceiveReserve(w.c, p);
    ReceiptPiped(w, core.out);
    var u := w.(c := d, replies := w.replies[1..]);
    SamePipe(w.(c := WithOut(w.c, core.out), replies := w.replies[1..]), u);
    ReceiptRet(w.c.core.out, core.out, p);
    ReceiptNamed(w, u);
    DisconnectRet(d);
    ReceiptNamed(u, u.(c := HandleDisconnect(d)));
    DroppedPiped(u, u.(c := HandleDisconnect(d)));
  }

  lemma ReceiptRet(o: Out, q: Out, p: Packet)
    requires Receipt(o, q, p)
    ensures forall x :: x in Ret(q) ==> x in Ret(o)
  {
  }

  lemma DisconnectRet(c: Conn)
    ensures Ret(HandleDisconnect(c).core.out) == Ret(c.core.out)
    ensures HandleDisconnect(c).link.sent == c.link.sent && HandleDisconnect(c).core.present == c.core.present
  {
    hide Items, Begun;
  }

  lemma SamePipe(w: World, v: World)
    requires w.seen == v.seen <= |w.c.link.sent| && v.replies == w.replies && v.c.link == w.c.link
    requires v.c.core.out == w.c.core.out && Piped(w)
    ensures Piped(v)
  {
    hide CountRel, CountComp, Rel;
    assert InFlight(v) == InFlight(w);
  }

  // --------------------------------------------------------------- reconnect

  /** Some retained list is `o`'s with fresh send state, or empty. */
  ghost predicate Rearmed(o: Out, p: Out) {
    p.retained == [] || Ret(p) == Ret(o)
  }

  lemma ArmRearms(o: Out)
    ensures Rearmed(o, ArmReplay(o)) && Rearmed(o, ArmReplay(Clear(o)))
  {
    ArmCleared(o);
    assert Ret(ArmReplay(o)) == Ret(o);
  }

  lemma SameRetained(o: Out, p: Out, q: Out)
    requires Rearmed(o, p) && q.retained == p.retained
    ensures Rearmed(o, q)
  {
    RetRetained(p, q);
  }

  lemma RearmedAgain(o: Out, p: Out)
    requires Rearmed(o, p)
    ensures Rearmed(o, ArmReplay(p))
  {
    assert Ret(ArmReplay(p)) == Ret(p);
  }

  lemma AcceptEffect(o: Out, c: Conn, ack: Packet, connect: seq<Byte>, reserve: nat, now: nat)
    requires ack.ConnAck? && Rearmed(o, c.core.out) && c.link == NoLink
    ensures var d := Accept(c, ack, connect, reserve, now).0;
            && Rearmed(o, d.core.out)
            && |d.link.sent| <= 1 && (|d.link.sent| == 1 ==> d.link.sent[0].DirectMessage?)
            && (d.core.present ==> c.core.present || Success(ack.code))
  {
    hide SettleAll, Deserializer.Items, Publishes, ArmReplay, Begun, Items, Rearmed, RetainedBytes;
    var d := Accept(c, ack, connect, reserve, now).0;
    var cleared := Reset(c.core).out;
    assert Rearmed(o, cleared) by { ArmRearms(o); RetRetained(cleared, cleared); EmptyRearmed(o, cleared); }
    RearmedAgain(o, c.core.out);
    RearmedAgain(o, cleared);
    if d.core.out.retained == c.core.out.retained {
      SameRetained(o, c.core.out, d.core.out);
    } else if d.core.out.retained == cleared.retained {
      SameRetained(o, cleared, d.core.out);
    }
  }

  lemma EmptyRearmed(o: Out, p: Out)
    requires p.retained == []
    ensures Rearmed(o, p)
  {
  }

  /** Reconnecting keeps the retained packets or, on a fresh session, drops them; the new stream starts with CONNECT. */
  lemma OpenEffect(c: Conn, answer: Handshake.Answer, now: nat)
    ensures var d := Connect(c, answer, now).0;
            && Rearmed(c.core.out, d.core.out)
            && |d.link.sent| <= 1 && (|d.link.sent| == 1 ==> d.link.sent[0].DirectMessage?)
            && (d.core.present ==>
                  c.core.present || (answer.Answered? && answer.packet.ConnAck? && Success(answer.packet.code)))
  {
    hide EncodeInto, ConnectBody, ConnectNeed, ArmReplay, RetainedBytes, Items, Begun, Rearmed, Accept;
    var a := Prepared(c);
    ArmRearms(c.core.out);
    var r := EncodeInto(ScratchLen(a.core.out), Wire.ControlHeader(Wire.MessageType.Connect), ConnectBody(a));
    var reserved := SetWorkspace(a.core.out, ConnectNeed(a));
    if reserved.Some? {
      var b := WithOut(a, reserved.value);
      SameRetained(c.core.out, a.core.out, b.core.out);
      RearmedAgain(c.core.out, b.core.out);
      if answer.Answered? && answer.packet.ConnAck? && r.Ok? {
        AcceptEffect(c.core.out, b, answer.packet, r.value, ConnectNeed(a), now);
      }
    }
  }

  lemma ArmCleared(o: Out)
    ensures ArmReplay(Clear(o)).retained == []
  {
  }

  lemma RetRetained(o: Out, p: Out)
    ensures o.retained == p.retained ==> Ret(o) == Ret(p)
    ensures o.retained == [] ==> Ret(o) == []
  {
  }

  /** What the result of a connect tells: whether the broker resumed, and what is left without a connection. */
  lemma OpenResult(c: Conn, answer: Handshake.Answer, now: nat)
    ensures var (d, r) := Connect(c, answer, now);
            && (r.Ok? ==> answer.Answered? && answer.packet.ConnAck? && Success(answer.packet.code)
                          && answer.packet.sessionPresent == r.value)
            && (r == Ok(false) ==> d.core.out.retained == [])
            && (r.Err? ==> !d.link.live && d.link.sent == [])
  {
    hide EncodeInto, ConnectBody, ConnectNeed, ArmReplay, RetainedBytes, Items, Begun, SettleAll, Deserializer.Items,
         Publishes;
  }

  lemma ReopenLinked(w: World, answer: Handshake.Answer, now: nat, reached: bool)
    requires Linked(w) && Fits(w.c.core.out) && HonestAnswer(w, answer, reached)
    ensures Linked(Reopen(w, answer, now, reached))
  {
    hide Streamed, Connect, Fits, ConnectNeed, ConnectBody;
    var v := Reopen(w, answer, now, reached);
    OpenKeeps(w.c, answer, now);
    OpenReserve(w.c, answer, now);
    OpenEffect(w.c, answer, now);
    OpenResult(w.c, answer, now);
    ReopenQuiet(v);
    RetRetained(v.c.core.out, v.c.core.out);
    ReopenNamed(w, v);
  }

  lemma ReopenGood(w: World, answer: Handshake.Answer, now: nat, reached: bool)
    requires Good(w) && Fits(w.c.core.out) && HonestAnswer(w, answer, reached)
    requires !Mistaken(w, Reconnects(answer, now, reached))
    ensures Good(Reopen(w, answer, now, reached))
  {
    hide Streamed, Connect, Fits, ConnectNeed, ConnectBody, Piped, Sequenced;
    var v := Reopen(w, answer, now, reached);
    ReopenLinked(w, answer, now, reached);
    OpenEffect(w.c, answer, now);
    OpenResult(w.c, answer, now);
    RetRetained(v.c.core.out, v.c.core.out);
    ReopenNamed(w, v);
    if v.known && !v.stale && Ret(v.c.core.out) != [] && w.stale {
      NothingOutstanding(w, v);
    }
  }

  lemma NothingOutstanding(w: World, v: World)
    requires Named(w) && Named(v) && !Outstanding(w) && v.owner == w.owner && v.handed == w.handed
    requires Ret(v.c.core.out) == Ret(w.c.core.out) && v.seen == 0 && |v.c.link.sent| <= 1
    requires |v.c.link.sent| == 1 ==> v.c.link.sent[0].DirectMessage?
    ensures Guarded(v)
  {
    RetEntries(w.c.core.out, v.c.core.out);
  }

  lemma ReopenQuiet(v: World)
    requires v.seen == 0 && v.replies == [] && |v.c.link.sent| <= 1
    requires |v.c.link.sent| == 1 ==> v.c.link.sent[0].DirectMessage?
    ensures Piped(v) && Sequenced(v)
  {
    forall id: U16 ensures CountRel(InFlight(v), id) == 0 && CountComp(v.replies, id) == 0 {
      if |v.c.link.sent| == 1 {
        assert InFlight(v) == [v.c.link.sent[0]];
        assert InFlight(v)[1..] == [];
      }
    }
  }

  lemma ReopenNamed(w: World, v: World)
    requires Named(w) && v.owner == w.owner && v.idOf == w.idOf && v.handed == w.handed
    requires |v.serials| == |v.c.link.sent| <= 1 && v.seen == 0
    requires |v.c.link.sent| == 1 ==> v.c.link.sent[0].DirectMessage?
    requires Ret(v.c.core.out) == Ret(w.c.core.out) || Ret(v.c.core.out) == []
    ensures Named(v)
    ensures Ret(v.c.core.out) == [] || (v.held == w.held && Guarded(w)) ==> Guarded(v)
  {
    if Ret(v.c.core.out) == Ret(w.c.core.out) {
      RetEntries(w.c.core.out, v.c.core.out);
    } else {
      assert |Ret(v.c.core.out)| == |v.c.core.out.retained|;
    }
  }

  // --------------------------------------------------------------------- runs

  lemma ClientLinked(w: World, e: Event)
    requires Linked(w) && Fits(w.c.core.out) && Enabled(w.c, e) && !e.Receive? && !e.Open?
    ensures var v := Follow(w, e); Linked(v) && Kindred(w, v) && (Guarded(w) ==> Guarded(v))
  {
    hide Linked, ServiceOnce, HandleDisconnect, Admit, WriteDirect, Effect, Quieted, Fits, Streamed, ReserveOk,
         Unremembered, Guarded, Kindred;
    LinkedClient(w);
    StepKeeps(w.c, e);
    ReserveStep(w.c, e);
    match e {
      case Service(now, io) =>
        var m := ServiceEffect(w.c, now, io);
        EffectLinked(w, e, m);
      case Drop =>
        DisconnectEffect(w.c);
        EffectLinked(w, e, None);
      case Ask(r) => AskLinked(w, r);
      case Direct(packet, written, ok, close, now) =>
        var m := DirectEffect(w.c, packet, written, ok, close, now);
        EffectLinked(w, e, m);
    }
  }

  lemma LinkedClient(w: World)
    requires Linked(w)
    ensures Streamed(w.c) && ReserveOk(w.c) && Named(w) && w.seen <= |w.c.link.sent| == |w.serials|
  {
  }

  lemma MoveKeepsLinked(w: World, m: Move)
    requires Linked(w) && Possible(w, m)
    ensures Linked(Next(w, m))
  {
    hide Linked, Follow, Reply, Read, Reopen, Enabled, HonestAnswer, Fits;
    match m {
      case Client(e) => ClientLinked(w, e);
      case Answer => ReplyLinked(w);
      case BrokerReads(accept, code) => ReadLinked(w, accept, code);
      case BrokerSends(p) => SendLinked(w, p);
      case BrokerForgets => ForgetLinked(w);
      case Reconnects(answer, now, reached) => ReopenLinked(w, answer, now, reached);
    }
  }

  /** Every move keeps the agreement about what was handed on, except a mistaken resume. */
  lemma MoveKeepsGood(w: World, m: Move)
    requires Good(w) && Possible(w, m) && !Mistaken(w, m)
    ensures Good(Next(w, m))
  {
    hide Linked, Guarded, Follow, Reply, Read, Reopen, Enabled, HonestAnswer, Fits, Mistaken;
    LinkedClient(w);
    MoveKeepsLinked(w, m);
    LinkedClient(Next(w, m));
    match m {
      case Client(e) => ClientLinked(w, e);
      case Answer => ReplyLinked(w);
      case BrokerReads(accept, code) => ReadGood(w, accept, code);
      case BrokerSends(p) => SendGood(w, p);
      case BrokerForgets =>
      case Reconnects(answer, now, reached) => ReopenGood(w, answer, now, reached);
    }
  }

  ghost predicate Start(w: World) {
    && Initial(w.c)
    && w.serials == [] && w.owner == map[] && w.idOf == [] && w.seen == 0 && w.replies == []
    && w.held == {} && !w.known && !w.stale && w.handed == []
  }

  lemma StartGood(w: World)
    requires Start(w)
    ensures Good(w)
  {
    InitialStreamed(w.c);
    InitialReserve(w.c);
  }

  ghost predicate IsHistory(ws: seq<World>, ms: seq<Move>) {
    && |ws| == |ms| + 1
    && forall i | 0 <= i < |ms| :: Possible(ws[i], ms[i]) && ws[i + 1] == Next(ws[i], ms[i])
  }

  /** The client never resumes, by mistake, a session that replaced its own. */
  ghost predicate NeverMistaken(ws: seq<World>, ms: seq<Move>) {
    |ms| <= |ws| && forall i | 0 <= i < |ms| :: !Mistaken(ws[i], ms[i])
  }

  lemma {:induction false} HistoryLinked(ws: seq<World>, ms: seq<Move>, i: nat)
    requires IsHistory(ws, ms) && Start(ws[0]) && i < |ws|
    ensures Linked(ws[i])
  {
    hide Good, Linked, Possible, Next, Start;
    if i == 0 {
      StartGood(ws[0]);
      GoodLinked(ws[0]);
    } else {
      HistoryLinked(ws, ms, i - 1);
      MoveKeepsLinked(ws[i - 1], ms[i - 1]);
      assert ws[i - 1 + 1] == ws[i];
    }
  }

  lemma GoodLinked(w: World)
    requires Good(w)
    ensures Linked(w) && NoRepeats(w.handed)
  {
  }

  lemma {:induction false} HistoryGood(ws: seq<World>, ms: seq<Move>, i: nat)
    requires IsHistory(ws, ms) && NeverMistaken(ws, ms) && Good(ws[0]) && i < |ws|
    ensures Good(ws[i])
  {
    hide Good, Possible, Next, Mistaken;
    if i > 0 {
      HistoryGood(ws, ms, i - 1);
      MoveKeepsGood(ws[i - 1], ms[i - 1]);
      assert ws[i - 1 + 1] == ws[i];
    }
  }

  /**
    * No publication is ever handed on twice, whatever is written, lost, replayed, refused or reordered between the
    * two sides over any number of reconnects and session losses, unless the client resumes by mistake.
    */
  lemma HandedOnAtMostOnce(ws: seq<World>, ms: seq<Move>, i: nat, a: nat, b: nat)
    requires IsHistory(ws, ms) && NeverMistaken(ws, ms) && Start(ws[0]) && i < |ws| && a < b < |ws[i].handed|
    ensures ws[i].handed[a] != ws[i].handed[b]
  {
    hide Possible, Linked, Mistaken;
    StartGood(ws[0]);
    HistoryGood(ws, ms, i);
    GoodLinked(ws[i]);
  }
}
