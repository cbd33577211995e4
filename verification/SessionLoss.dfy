/**
  * When a QoS 2 publication can be handed on twice. The broker loses its session, starts another one for a CONNECT
  * whose CONNACK is lost, and the next CONNECT resumes that one: the client replays a publication that was handed on
  * in the lost session, and the new session does not recognize it.
  */
module SessionLoss {
  import opened Bytes
  import opened Drain
  import opened ExactlyOnce
  import opened Greetings
  import opened Handshake
  import opened Outbound
  import opened OutboundLaws
  import opened Packets
  import opened Reconnect
  import opened Runs
  import opened Scenario
  import opened Schedule
  import opened Session
  import Deserializer
  import Properties
  import Wire

  // --------------------------------------------------------------- histories

  ghost predicate NoReconnect(ms: seq<Move>) {
    forall i | 0 <= i < |ms| :: !ms[i].Reconnects?
  }

  /** A history without a reconnect leads from `w` to `v`. */
  ghost predicate Leads(w: World, v: World) {
    exists ws: seq<World>, ms: seq<Move> ::
      IsHistory(ws, ms) && NoReconnect(ms) && ws[0] == w && ws[|ms|] == v
  }

  lemma LeadsSelf(w: World)
    ensures Leads(w, w)
  {
    assert IsHistory([w], []) && NoReconnect([]);
  }

  lemma LeadsOn(w: World, v: World, m: Move)
    requires Leads(w, v) && Possible(v, m) && !m.Reconnects?
    ensures Leads(w, ExactlyOnce.Next(v, m))
  {
    hide Possible, ExactlyOnce.Next;
    var ws, ms :| IsHistory(ws, ms) && NoReconnect(ms) && ws[0] == w && ws[|ms|] == v;
    var longer, more := ws + [ExactlyOnce.Next(v, m)], ms + [m];
    forall i | 0 <= i < |more| ensures Possible(longer[i], more[i]) && longer[i + 1] == ExactlyOnce.Next(longer[i], more[i]) {
      if i < |ms| {
        assert longer[i] == ws[i] && longer[i + 1] == ws[i + 1] && more[i] == ms[i];
      }
    }
    assert IsHistory(longer, more) && NoReconnect(more);
  }

  // ------------------------------------------------------------------ writing

  /** The serial numbers of QoS 2 publications on this transport are those of the retained ones. */
  ghost predicate Tagged(w: World) {
    && |w.serials| == |w.c.link.sent|
    && forall p | 0 <= p < |w.c.link.sent| && IsPub2(w.c.link.sent[p]) ::
         w.c.link.sent[p].id in w.owner && w.serials[p] == w.owner[w.c.link.sent[p].id]
  }

  lemma TaggedOn(w: World, v: World, m: Option<Message>)
    requires Tagged(w) && Named(w) && Effect(w.c, v.c, m)
    requires v == w.(c := v.c, serials := if m.None? then w.serials else w.serials + [SerialOf(w, m.value)])
    ensures Tagged(v)
  {
    hide Named, Rel, Ret, SameIds, ExactlyOnce.Written, SerialOf;
    if m.Some? {
      if IsPub2(m.value) {
        OwnedMessage(w, m.value);
      }
      assert forall p | 0 <= p < |w.c.link.sent| :: v.c.link.sent[p] == w.c.link.sent[p] && v.serials[p] == w.serials[p];
    }
  }

  lemma ServiceFollows(w: World, now: nat, io: Io, m: Option<Message>)
    requires Fits(w.c.core.out) && Effect(w.c, ServiceOnce(w.c, now, io).0, m)
    ensures var v := Follow(w, Service(now, io));
            && v.c == ServiceOnce(w.c, now, io).0
            && v == w.(c := v.c, serials := if m.None? then w.serials else w.serials + [SerialOf(w, m.value)])
  {
    hide ServiceOnce, Rel, Ret, SameIds, ExactlyOnce.Written, SerialOf, Fits;
    RetEntries(w.c.core.out, ServiceOnce(w.c, now, io).0.core.out);
  }

  lemma ServiceTagged(w: World, now: nat, io: Io)
    requires Linked(w) && Tagged(w) && Fits(w.c.core.out)
    ensures var v := Follow(w, Service(now, io));
            Linked(v) && Tagged(v) && Kindred(w, v) && v.owner == w.owner && v.c == ServiceOnce(w.c, now, io).0
  {
    hide Linked, ServiceOnce, Fits, Kindred, Tagged, Effect, Follow, Named, Streamed, ReserveOk;
    ClientLinked(w, Service(now, io));
    LinkedClient(w);
    var m := ServiceEffect(w.c, now, io);
    ServiceFollows(w, now, io, m);
    TaggedOn(w, Follow(w, Service(now, io)), m);
  }

  /** The world after a drain. */
  lemma {:induction false} FollowDrain(origin: World, w: World, steps: seq<(nat, Io)>, d: Conn) returns (v: World)
    requires Leads(origin, w) && Linked(w) && Tagged(w) && Serviced(w.c, steps, d)
    ensures Leads(origin, v) && Linked(v) && Tagged(v) && Kindred(w, v) && v.owner == w.owner && v.c == d
    decreases |steps|
  {
    hide Linked, ServiceOnce, Leads, Tagged, Follow, Fits;
    v := w;
    if steps != [] {
      var (now, io) := steps[0];
      LinkedClient(w);
      StreamedFits(w.c);
      ServiceTagged(w, now, io);
      LeadsOn(origin, w, Client(Service(now, io)));
      v := FollowDrain(origin, Follow(w, Service(now, io)), steps[1..], d);
    }
  }

  // ------------------------------------------------------------------ reading

  /** The first completed PUBLISH under an identifier. */
  lemma {:induction false} FirstPub(ms: seq<Message>, id: U16, k: nat) returns (p: nat)
    requires k < |ms| && IsPub2(ms[k]) && ms[k].id == id
    ensures p <= k && IsPub2(ms[p]) && ms[p].id == id
    ensures forall q | 0 <= q < p :: !(IsPub2(ms[q]) && ms[q].id == id)
  {
    if IsPub2(ms[0]) && ms[0].id == id {
      p := 0;
    } else {
      p := FirstPub(ms[1..], id, k - 1);
      p := p + 1;
    }
  }

  /** What the broker does with a packet other than that PUBLISH leaves the identifier unheld. */
  lemma ReadOther(w: World, id: U16)
    requires Linked(w) && w.seen < |w.c.link.sent| && id !in w.held
    requires !(IsPub2(w.c.link.sent[w.seen]) && w.c.link.sent[w.seen].id == id)
    ensures |w.serials| == |w.c.link.sent|
    ensures var v := Read(w, true, SUCCESS);
            && v.c == w.c && v.serials == w.serials && v.owner == w.owner && v.known == w.known && v.seen == w.seen + 1
            && id !in v.held && w.handed <= v.handed
  {
    hide Linked, Streamed, Said, Named, ReserveOk;
    LinkedClient(w);
    SaidIntended(w);
  }

  lemma ReadThat(w: World, id: U16)
    requires Linked(w) && Tagged(w) && w.seen < |w.c.link.sent| && id !in w.held
    requires IsPub2(w.c.link.sent[w.seen]) && w.c.link.sent[w.seen].id == id
    ensures |w.serials| == |w.c.link.sent| && id in w.owner
    ensures var v := Read(w, true, SUCCESS);
            v.c == w.c && v.owner == w.owner && v.known == w.known && v.handed == w.handed + [w.owner[id]]
  {
    hide Linked, Streamed, Said;
    LinkedClient(w);
    SaidIntended(w);
  }

  /** The broker reads everything up to the first PUBLISH under an identifier it does not hold, and hands that on. */
  lemma {:induction false} ReadUpTo(origin: World, w: World, id: U16, p: nat) returns (v: World)
    requires Leads(origin, w) && Linked(w) && Tagged(w) && w.known && id !in w.held
    requires w.seen <= p < |w.c.link.sent| && IsPub2(w.c.link.sent[p]) && w.c.link.sent[p].id == id
    requires forall q | w.seen <= q < p :: !(IsPub2(w.c.link.sent[q]) && w.c.link.sent[q].id == id)
    ensures Leads(origin, v) && Linked(v) && v.c == w.c && v.owner == w.owner && v.known && id in w.owner
    ensures w.owner[id] in v.handed && (w.owner[id] in w.handed ==> !NoRepeats(v.handed))
    decreases p - w.seen
  {
    hide Linked, Leads, Read, Fits, Tagged, NoRepeats, Streamed, ReserveOk, Named;
    CanReadNext(w);
    LeadsOn(origin, w, BrokerReads(true, SUCCESS));
    ReadLinked(w, true, SUCCESS);
    v := Read(w, true, SUCCESS);
    if w.seen == p {
      ReadThat(w, id);
      HandedAgain(w.handed, w.owner[id]);
    } else {
      ReadOther(w, id);
      SameTags(w, v);
      v := ReadUpTo(origin, v, id, p);
    }
  }

  lemma CanReadNext(w: World)
    requires Linked(w) && w.known && w.seen < |w.c.link.sent|
    ensures Fits(w.c.core.out) && |w.c.link.sent| == |w.serials|
  {
    hide Linked, Streamed, ReserveOk, Named, Fits;
    LinkedClient(w);
    StreamedFits(w.c);
  }

  lemma SameTags(w: World, v: World)
    requires Tagged(w) && v.c == w.c && v.serials == w.serials && v.owner == w.owner
    ensures Tagged(v)
  {
  }

  lemma HandedAgain(s: seq<nat>, n: nat)
    ensures n in s + [n]
    ensures n in s ==> !NoRepeats(s + [n])
  {
    var t := s + [n];
    assert t[|s|] == n;
    if n in s {
      var a :| 0 <= a < |s| && s[a] == n;
      assert t[a] == n;
    }
  }

  /** With everything written, the broker can be made to hand on a publication whose identifier it does not hold. */
  lemma HandOn(origin: World, w: World, id: U16, k: nat) returns (v: World)
    requires Leads(origin, w) && Linked(w) && Tagged(w) && w.known && id !in w.held && w.seen == 0
    requires k < |w.c.link.sent| && IsPub2(w.c.link.sent[k]) && w.c.link.sent[k].id == id
    ensures Leads(origin, v) && Linked(v) && v.c == w.c && v.owner == w.owner && v.known && id in w.owner
    ensures w.owner[id] in v.handed && (w.owner[id] in w.handed ==> !NoRepeats(v.handed))
  {
    hide Linked, Leads, Tagged;
    var p := FirstPub(w.c.link.sent, id, k);
    v := ReadUpTo(origin, w, id, p);
  }

  // ----------------------------------------------------------- mistaken resumes

  lemma FreshTags(v: World)
    requires |v.serials| == |v.c.link.sent| == 1 && v.c.link.sent[0].DirectMessage?
    ensures Tagged(v)
  {
  }

  /** After a resumed connect and a drain, every retained packet stands in the new stream. */
  lemma Replayed(c: Conn, answer: Answer, now: nat, i: nat) returns (steps: seq<(nat, Io)>, d: Conn, k: nat)
    requires Streamed(c) && Connect(c, answer, now).1 == Ok(true) && Passes(Connect(c, answer, now).0)
    requires i < |c.core.out.retained| && c.core.out.retained[i].kind.PublishExactlyOnce?
    ensures Serviced(Connect(c, answer, now).0, steps, d)
    ensures k < |d.link.sent| && IsPub2(d.link.sent[k]) && d.link.sent[k].id == c.core.out.retained[i].id
  {
    hide Connect, Serviced, Streamed, ArmReplay, Messages, AllSent, Idle, Flatten, AllBytes, Passes, SameWork, Sound,
         BytesOf;
    var b := Connect(c, answer, now).0;
    OpenKeeps(c, answer, now);
    ResumedState(c, answer, now);
    steps, d := CanDrain(b);
    ReplayExactlyOnce(c, answer, now, steps, d);
    StreamedUnique(c);
    ReplayedPackets(c.core.out, i);
    MessagesLength(c.core.out);
    var j := |c.core.out.control| + |c.core.out.release| + i;
    k := 1 + j;
    Located(b.link.sent, Messages(ArmReplay(c.core.out)), d.link.sent, j);
  }

  lemma Located(first: seq<Message>, ms: seq<Message>, sent: seq<Message>, j: nat)
    requires |first| == 1 && j < |ms| && (sent == first + ms || sent == first + ms + [PING])
    ensures 1 + j < |sent| && sent[1 + j] == ms[j]
  {
  }

  lemma MessagesLength(o: Out)
    ensures |Messages(ArmReplay(o))| == |o.control| + |o.release| + |o.retained|
  {
  }

  /** What a mistaken resume leaves: a session that holds nothing, and all packets still to be written. */
  lemma MistakenWorld(w: World, m: Move)
    requires Linked(w) && Possible(w, m) && m.Reconnects? && w.stale && Connect(w.c, m.answer, m.now).1 == Ok(true)
    ensures var u := ExactlyOnce.Next(w, m);
            && u.c == Connect(w.c, m.answer, m.now).0 && Linked(u) && Tagged(u)
            && u.known && u.held == {} && u.owner == w.owner && u.handed == w.handed && u.seen == 0
  {
    hide Linked, Connect, Fits, Tagged, Streamed, ReserveOk, Named, AsksToResume, ConnectPacket;
    OpenResult(w.c, m.answer, m.now);
    ResumedState(w.c, m.answer, m.now);
    ReopenLinked(w, m.answer, m.now, m.reached);
    StaleEmpty(w);
    FreshTags(ExactlyOnce.Next(w, m));
  }

  /** After a mistaken resume, some history without another reconnect hands a publication on twice. */
  lemma MistakeRepeats(w: World, m: Move) returns (v: World)
    requires Linked(w) && Possible(w, m) && Mistaken(w, m) && Passes(ExactlyOnce.Next(w, m).c)
    ensures Leads(ExactlyOnce.Next(w, m), v) && !NoRepeats(v.handed)
  {
    hide Linked, Leads, Connect, Possible, Tagged, Passes, Serviced, Kindred, Named, ReserveOk, Streamed,
         ExactlyOnce.Next;
    var u := ExactlyOnce.Next(w, m);
    var i :| 0 <= i < |w.c.core.out.retained| && w.c.core.out.retained[i].kind.PublishExactlyOnce?
             && w.c.core.out.retained[i].id in w.owner && w.owner[w.c.core.out.retained[i].id] in w.handed;
    var id := w.c.core.out.retained[i].id;
    LinkedClient(w);
    MistakenWorld(w, m);
    LeadsSelf(u);
    var steps, d, k := Replayed(w.c, m.answer, m.now, i);
    var x := FollowDrain(u, u, steps, d);
    KindredParts(u, x);
    v := HandOn(u, x, id, k);
  }

  lemma StaleEmpty(w: World)
    requires Linked(w) && w.stale
    ensures w.known && w.held == {}
  {
    hide Streamed, ReserveOk, Named, Piped, Sequenced;
  }

  lemma KindredParts(w: World, v: World)
    requires Kindred(w, v)
    ensures v.known == w.known && v.held == w.held && v.handed == w.handed && v.seen == w.seen
  {
  }

  /** Without a reconnect there is no mistake. */
  lemma StaysOnce(w: World, v: World)
    requires Good(w) && Leads(w, v)
    ensures NoRepeats(v.handed)
  {
    hide Good, Possible, ExactlyOnce.Next;
    var ws, ms :| IsHistory(ws, ms) && NoReconnect(ms) && ws[0] == w && ws[|ms|] == v;
    assert NeverMistaken(ws, ms);
    HistoryGood(ws, ms, |ms|);
    GoodLinked(v);
  }

  /**
    * Exactly when a resumed connection can hand a publication on twice: when the session resumed is a replacement the
    * client was not told of, and a publication handed on in the lost one is still retained.
    */
  lemma HandedOnTwiceIff(w: World, m: Move)
    requires Good(w) && Possible(w, m) && m.Reconnects? && Connect(w.c, m.answer, m.now).1 == Ok(true)
    requires Passes(ExactlyOnce.Next(w, m).c)
    ensures (exists v :: Leads(ExactlyOnce.Next(w, m), v) && !NoRepeats(v.handed)) <==> w.stale && Outstanding(w)
  {
    hide Good, Possible, ExactlyOnce.Next, Connect, Leads, Passes, Outstanding;
    if w.stale && Outstanding(w) {
      GoodLinked(w);
      var v := MistakeRepeats(w, m);
    } else {
      MoveKeepsGood(w, m);
      forall v | Leads(ExactlyOnce.Next(w, m), v) ensures NoRepeats(v.handed) {
        StaysOnce(ExactlyOnce.Next(w, m), v);
      }
    }
  }

  // ------------------------------------------------------------ a failing history

  ghost predicate Reachable(v: World) {
    exists ws: seq<World>, ms: seq<Move> :: IsHistory(ws, ms) && Start(ws[0]) && ws[|ms|] == v
  }

  lemma ReachableOn(v: World, m: Move)
    requires Reachable(v) && Possible(v, m)
    ensures Reachable(ExactlyOnce.Next(v, m))
  {
    hide Possible, ExactlyOnce.Next, Start;
    var ws, ms :| IsHistory(ws, ms) && Start(ws[0]) && ws[|ms|] == v;
    var longer, more := ws + [ExactlyOnce.Next(v, m)], ms + [m];
    forall i | 0 <= i < |more| ensures Possible(longer[i], more[i]) && longer[i + 1] == ExactlyOnce.Next(longer[i], more[i]) {
      if i < |ms| {
        assert longer[i] == ws[i] && longer[i + 1] == ws[i + 1] && more[i] == ms[i];
      }
    }
    assert IsHistory(longer, more) && longer[0] == ws[0];
  }

  lemma {:induction false} ReachableAlong(ws: seq<World>, ms: seq<Move>, i: nat)
    requires IsHistory(ws, ms) && Reachable(ws[0]) && i <= |ms|
    ensures Reachable(ws[i])
  {
    hide Possible, ExactlyOnce.Next, Reachable;
    if i > 0 {
      ReachableAlong(ws, ms, i - 1);
      ReachableOn(ws[i - 1], ms[i - 1]);
      assert ws[i - 1 + 1] == ws[i];
    }
  }

  lemma ReachableLeads(w: World, v: World)
    requires Reachable(w) && Leads(w, v)
    ensures Reachable(v)
  {
    hide Possible, ExactlyOnce.Next, Reachable;
    var ws, ms :| IsHistory(ws, ms) && NoReconnect(ms) && ws[0] == w && ws[|ms|] == v;
    ReachableAlong(ws, ms, |ms|);
  }

  /** A session of the scenario that retains one QoS 2 publication. */
  ghost predicate Retaining(c: Conn, id: U16) {
    && Streamed(c) && c.core.present && c.clientId == [] && c.config == CONFIG
    && c.core.out.capacity == 100 && c.core.out.workspace == 31
    && |c.core.out.retained| == 1 && c.core.out.retained[0].kind.PublishExactlyOnce? && c.core.out.retained[0].id == id
  }

  lemma RetainingConnects(c: Conn, id: U16)
    requires Retaining(c, id)
    ensures var a := Prepared(c);
            && EncodeInto(ScratchLen(a.core.out), Wire.ControlHeader(Wire.MessageType.Connect), ConnectBody(a)).Ok?
            && ConnectNeed(a) == 31 && SetWorkspace(a.core.out, 31).Some?
            && a.core.out == ArmReplay(c.core.out)
            && |a.core.out.retained| == 1 && a.core.out.retained[0].kind.PublishExactlyOnce? && a.core.out.retained[0].id == id
  {
    hide EncodeInto, ConnectBody, Items, StreamOk, FlushOk, AllGood, AllWf, OnePartial;
    var a := Prepared(c);
    ArmReplayKeeps(c.core.out);
    ConnectEncodes(a);
  }

  /** The broker acts on the CONNECT but its CONNACK is lost. */
  lemma LostAnswer(c: Conn, id: U16)
    requires Retaining(c, id)
    ensures Connect(c, Unanswered, 0).1.Err? && Retaining(Connect(c, Unanswered, 0).0, id)
  {
    hide EncodeInto, ConnectBody, ConnectNeed, Streamed, Items, Begun, RetainedBytes;
    RetainingConnects(c, id);
    OpenKeeps(c, Unanswered, 0);
  }

  lemma Resumes(c: Conn, id: U16)
    requires Retaining(c, id)
    ensures Connect(c, Accepted(true), 0).1 == Ok(true) && Passes(Connect(c, Accepted(true), 0).0)
  {
    hide EncodeInto, ConnectBody, ConnectNeed, Streamed, Items, Begun, RetainedBytes, ArmReplay, Handshake.Publishes;
    RetainingConnects(c, id);
    assert Deserializer.Items(Properties.Slice([])) == [];
  }

  /** Such a session sends a CONNECT that asks to resume. */
  lemma RetainingAsks(c: Conn, id: U16)
    requires Retaining(c, id)
    ensures ConnectPacket(c).Some? && AsksToResume(c)
  {
    hide EncodeInto, ConnectBody, Streamed, AsksToResume;
    RetainingConnects(c, id);
    AsksIff(c);
  }

  lemma OnePending(o: Out)
    requires Sound(o) && o.control == [] && o.release == [] && |o.retained| == 1 && o.retained[0].state == Write(0)
    ensures Pending(Items(o)) == [RetainedMessage(o.retained[0].kind, o.retained[0].id, o.retained[0].bytes)]
  {
    hide AllGood, Fits, UniqueIds, OnePartial;
    assert Items(o) == RetainedItems(o.retained);
    assert Quieted(o);
    PendingQuiet(o);
    AllUnstarted(Items(o));
  }

  lemma StageEmpty(c: Conn)
    requires Stage(c, 0)
    ensures c.core.out.control == [] && c.core.out.release == [] && c.core.out.retained == []
    ensures Streamed(c) && c.link.live && c.rt.maxPacket.None?
  {
    hide Streamed;
    IdleSent(c);
  }

  lemma Drained(c: Conn, id: U16) returns (steps: seq<(nat, Io)>, d: Conn)
    requires Retaining(c, id) && c.link.live && c.rt.maxPacket.None? && |c.link.sent| == 1
    requires c.core.out.control == [] && c.core.out.release == [] && c.core.out.retained[0].state == Write(0)
    ensures Serviced(c, steps, d) && Retaining(d, id)
    ensures |d.link.sent| >= 2 && IsPub2(d.link.sent[1]) && d.link.sent[1].id == id
  {
    hide Streamed, Serviced, AllSent, Idle, Flatten, AllBytes, Pending, Sound;
    steps, d := CanDrain(c);
    DrainSendsAll(c, steps, d);
    StreamedUnique(c);
    OnePending(c.core.out);
    assert d.core.out.retained[0].(state := Sent) == c.core.out.retained[0].(state := Sent);
  }

  /** The publication is admitted, under a serial number of its own. */
  lemma Asked(w: World) returns (v: World, id: U16)
    requires Linked(w) && Stage(w.c, 0) && |w.c.link.sent| == 1 && w.c.link.sent[0].DirectMessage?
    ensures Leads(w, v) && Linked(v) && Tagged(v) && Kindred(w, v) && id in v.owner
    ensures Retaining(v.c, id) && v.c.link == w.c.link && v.c.rt.maxPacket.None?
    ensures v.c.core.out.control == [] && v.c.core.out.release == [] && v.c.core.out.retained[0].state == Write(0)
  {
    hide Linked, Leads, Admit, Streamed, Fits, Idle, Kindred;
    StageEmpty(w.c);
    id := Scenario.Publish(w.c, 0);
    LinkedClient(w);
    ClientLinked(w, Ask(PUBLICATION));
    LeadsSelf(w);
    LeadsOn(w, w, Client(Ask(PUBLICATION)));
    v := Follow(w, Ask(PUBLICATION));
    assert AdmitsPublication(w.c, v.c);
    LinkedClient(v);
    FreshTags(v);
  }

  /** One publication: admitted, written and handed on. */
  lemma PublishedAndRead(w: World) returns (v: World, id: U16)
    requires Linked(w) && Stage(w.c, 0) && |w.c.link.sent| == 1 && w.c.link.sent[0].DirectMessage?
    requires w.known && w.held == {} && w.seen == 0
    ensures Leads(w, v) && Linked(v) && v.known && Retaining(v.c, id) && id in v.owner && v.owner[id] in v.handed
  {
    hide Linked, Leads, Tagged, Kindred, Stage, Serviced, Retaining;
    var a;
    a, id := Asked(w);
    KindredParts(w, a);
    StageEmpty(w.c);
    var steps, d := Drained(a.c, id);
    var b := FollowDrain(w, a, steps, d);
    KindredParts(a, b);
    v := HandOn(w, b, id, 1);
  }

  lemma StartReachable(w: World)
    requires Start(w)
    ensures Reachable(w) && Linked(w) && Fits(w.c.core.out)
  {
    hide Linked, Start, Fits;
    assert IsHistory([w], []);
    HistoryLinked([w], [], 0);
    LinkedClient(w);
    StreamedFits(w.c);
  }

  lemma FirstHandedOn() returns (v: World, id: U16)
    ensures Reachable(v) && Linked(v) && v.known && Retaining(v.c, id) && id in v.owner && v.owner[id] in v.handed
  {
    hide Linked, Leads, Reachable, Connect, Fits, Stage, Retaining, AsksToResume, ConnectPacket, Streamed;
    var w0 := World(FRESH, [], map[], [], 0, [], {}, false, false, []);
    FreshInitial();
    StartReachable(w0);
    FirstConnect();
    assert ConnectPacket(FRESH).Some? by { FreshGreets(); }
    var m := Reconnects(Accepted(false), 0, true);
    ReachableOn(w0, m);
    ReopenLinked(w0, Accepted(false), 0, true);
    var w1 := ExactlyOnce.Next(w0, m);
    v, id := PublishedAndRead(w1);
    ReachableLeads(w1, v);
  }

  lemma FreshGreets()
    ensures ConnectPacket(FRESH).Some?
  {
    hide Connect, ConnectPacket, Streamed;
    FirstConnect();
    OpenGreets(FRESH, Accepted(false), 0);
  }

  /** The broker forgets and acts on a CONNECT, but the answer is lost. */
  lemma Forgotten(w: World, id: U16) returns (v: World)
    requires Reachable(w) && Linked(w) && Retaining(w.c, id)
    ensures Reachable(v) && Linked(v) && Retaining(v.c, id) && v.stale
    ensures v.owner == w.owner && v.handed == w.handed
  {
    hide Linked, Reachable, Connect, Fits, Streamed, AsksToResume, ConnectPacket;
    LinkedClient(w);
    StreamedFits(w.c);
    RetainingAsks(w.c, id);
    ReachableOn(w, BrokerForgets);
    ForgetLinked(w);
    var u := ExactlyOnce.Next(w, BrokerForgets);
    LostAnswer(u.c, id);
    var m := Reconnects(Unanswered, 0, true);
    ReachableOn(u, m);
    ReopenLinked(u, Unanswered, 0, true);
    v := ExactlyOnce.Next(u, m);
  }

  /**
    * The failing history: a publication is handed on, the broker loses its session, the CONNACK of the replacement is
    * lost, and the next connect resumes the replacement. The publication is handed on again.
    */
  lemma SessionLossRepeats() returns (v: World)
    ensures Reachable(v) && !NoRepeats(v.handed)
  {
    hide Linked, Reachable, Connect, Fits, Leads, Retaining, Streamed, Passes;
    var w, id := FirstHandedOn();
    var u := Forgotten(w, id);
    assert Outstanding(u) by { OneOutstanding(u, id); }
    ResumesStale(u, id);
    var m := Reconnects(Accepted(true), 0, true);
    ReachableOn(u, m);
    v := MistakeRepeats(u, m);
    ReachableLeads(ExactlyOnce.Next(u, m), v);
  }

  lemma OneOutstanding(w: World, id: U16)
    requires Retaining(w.c, id) && id in w.owner && w.owner[id] in w.handed
    ensures Outstanding(w)
  {
    hide Streamed;
    assert w.c.core.out.retained[0].id == id;
  }

  lemma ResumesStale(w: World, id: U16)
    requires Linked(w) && Retaining(w.c, id) && w.stale
    ensures var m := Reconnects(Accepted(true), 0, true);
            && Possible(w, m) && Connect(w.c, Accepted(true), 0).1 == Ok(true) && Passes(ExactlyOnce.Next(w, m).c)
  {
    hide Linked, Connect, Fits, Streamed, Passes, AsksToResume, ConnectPacket;
    LinkedClient(w);
    StreamedFits(w.c);
    StaleEmpty(w);
    RetainingAsks(w.c, id);
    Resumes(w.c, id);
  }
}
