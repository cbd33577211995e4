/**
  * The other half of outbound QoS 2 (section 4.3.3 of MQTT Version 5.0): with a broker that answers faithfully, and as
  * long as a PUBREL can be queued for every PUBREC, no publication is given up before it was handed on.
  */
module AtLeastOnce {
  import opened Bytes
  import opened Packets
  import opened Schedule
  import opened Outbound
  import opened OutboundLaws
  import opened Session
  import opened Greetings
  import opened Handshake
  import opened Runs
  import opened Reconnect
  import opened ExactlyOnce
  import opened Release
  import Wire
  import Deserializer

  /** The packet is a PUBREC reporting success for a publication the client still retains. */
  ghost predicate Settles(w: World) {
    && w.replies != [] && w.replies[0].PubRec? && Success(w.replies[0].reason.Code())
    && HasOp(w.c.core.out, PublishExactlyOnce, w.replies[0].id)
  }

  /**
    * The broker answers a PUBLISH with success exactly when it holds it, and sends no PUBREC otherwise; the client
    * can queue a PUBREL for every successful PUBREC.
    */
  ghost predicate Faithful(w: World, m: Move) {
    Possible(w, m) &&
    match m
    case BrokerReads(accept, code) =>
      SaidPub2(w) ==> (Success(code) <==> Said(w).id in w.held || accept)
    case BrokerSends(p) => !p.PubRec?
    case Answer => Settles(w) ==> CanRelease(w.c.core, w.c.rt)
    case _ => true
  }

  // ------------------------------------------------- what the proof looks at

  /** Retained QoS 2 publications: identifier and whether it was completely written on this transport. */
  ghost function Pubs(o: Out): set<(U16, bool)> {
    set r | r in o.retained && r.kind.PublishExactlyOnce? :: (r.id, !r.state.Write?)
  }

  ghost predicate Keeping(o: Out, id: U16) {
    (id, true) in Pubs(o) || (id, false) in Pubs(o)
  }

  function CountPub(ms: seq<Message>, id: U16): nat {
    if ms == [] then 0
    else (if ms[0].RetainedMessage? && ms[0].kind.PublishExactlyOnce? && ms[0].id == id then 1 else 0) + CountPub(ms[1..], id)
  }

  function CountRec(ps: seq<Packet>, id: U16): nat {
    if ps == [] then 0 else (if ps[0].PubRec? && ps[0].id == id then 1 else 0) + CountRec(ps[1..], id)
  }

  lemma {:induction false} CountPubConcat(a: seq<Message>, b: seq<Message>, id: U16)
    ensures CountPub(a + b, id) == CountPub(a, id) + CountPub(b, id)
  {
    if a == [] {
      assert a + b == b;
    } else {
      assert (a + b)[1..] == a[1..] + b;
      CountPubConcat(a[1..], b, id);
    }
  }

  lemma {:induction false} CountRecConcat(a: seq<Packet>, b: seq<Packet>, id: U16)
    ensures CountRec(a + b, id) == CountRec(a, id) + CountRec(b, id)
  {
    if a == [] {
      assert a + b == b;
    } else {
      assert (a + b)[1..] == a[1..] + b;
      CountRecConcat(a[1..], b, id);
    }
  }

  lemma {:induction false} CountPubMember(ms: seq<Message>, id: U16, i: nat)
    requires i < |ms| && IsPub2(ms[i]) && ms[i].id == id
    ensures CountPub(ms, id) >= 1
  {
    if i > 0 {
      CountPubMember(ms[1..], id, i - 1);
    }
  }

  lemma {:induction false} CountRecMember(ps: seq<Packet>, id: U16, i: nat)
    requires i < |ps| && ps[i].PubRec? && ps[i].id == id
    ensures CountRec(ps, id) >= 1
  {
    if i > 0 {
      CountRecMember(ps[1..], id, i - 1);
    }
  }

  lemma {:induction false} CountCompMember(ps: seq<Packet>, id: U16, i: nat)
    requires i < |ps| && ps[i].PubComp? && ps[i].id == id
    ensures CountComp(ps, id) >= 1
  {
    if i > 0 {
      CountCompMember(ps[1..], id, i - 1);
    }
  }

  lemma RecSnoc(ps: seq<Packet>, p: Packet, id: U16)
    ensures CountRec(ps + [p], id) == CountRec(ps, id) + (if p.PubRec? && p.id == id then 1 else 0)
  {
    CountRecConcat(ps, [p], id);
    assert [p][1..] == [];
  }

  lemma PubSnoc(ms: seq<Message>, m: Message, id: U16)
    ensures CountPub(ms + [m], id) == CountPub(ms, id) + (if IsPub2(m) && m.id == id then 1 else 0)
  {
    CountPubConcat(ms, [m], id);
    assert [m][1..] == [];
  }

  // ------------------------------------------------------------- invariant

  /** On a live connection a PUBLISH or its PUBREC is under way at most once, and only if completely written. */
  ghost predicate Paired(w: World)
    requires w.seen <= |w.c.link.sent|
  {
    w.c.link.live ==> forall id: U16 ::
      CountPub(InFlight(w), id) + CountRec(w.replies, id) <= (if (id, true) in Pubs(w.c.core.out) then 1 else 0)
  }

  /** A PUBLISH under way is the retained publication of its identifier. */
  ghost predicate Backed(w: World)
    requires w.seen <= |w.c.link.sent| == |w.serials|
  {
    forall p | w.seen <= p < |w.c.link.sent| && IsPub2(w.c.link.sent[p]) ::
      var id := w.c.link.sent[p].id;
      Keeping(w.c.core.out, id) && id in w.owner && w.serials[p] == w.owner[id]
  }

  /** A held identifier is that of a retained publication already handed on, or of a pending release. */
  ghost predicate Accounted(w: World) {
    forall id: U16 | id in w.held ::
      if Keeping(w.c.core.out, id) then id in w.owner && w.owner[id] in w.handed else Releasing(w.c.core.out, id)
  }

  ghost predicate Truthful(w: World, p: Packet) {
    && (p.PubComp? ==> p.id !in w.held)
    && (p.PubRec? && !Success(p.reason.Code()) ==> p.id !in w.held)
    && (p.PubRec? && Success(p.reason.Code()) && Keeping(w.c.core.out, p.id) ==> p.id in w.owner && w.owner[p.id] in w.handed)
  }

  /** On a live connection every answer under way is still true. */
  ghost predicate Answered(w: World) {
    w.c.link.live ==> forall k | 0 <= k < |w.replies| :: Truthful(w, w.replies[k])
  }

  ghost predicate Kept(w: World) {
    && w.seen <= |w.c.link.sent| == |w.serials|
    && Paired(w) && Backed(w) && Accounted(w) && Answered(w)
  }

  // --------------------------------------------------------------- entries

  lemma PubEntry(o: Out, i: nat)
    requires i < |o.retained| && o.retained[i].kind.PublishExactlyOnce?
    ensures (o.retained[i].id, !o.retained[i].state.Write?) in Pubs(o) && Keeping(o, o.retained[i].id)
  {
    assert o.retained[i] in o.retained;
  }

  lemma EntryOf(o: Out, id: U16) returns (i: nat)
    requires Keeping(o, id)
    ensures i < |o.retained| && o.retained[i].kind.PublishExactlyOnce? && o.retained[i].id == id
    ensures (PublishExactlyOnce, id) in Ret(o)
  {
    var r :| r in o.retained && r.kind.PublishExactlyOnce? && r.id == id;
    i :| 0 <= i < |o.retained| && o.retained[i] == r;
    assert Ret(o)[i] == (PublishExactlyOnce, id);
  }

  lemma KeepingIsRet(o: Out, id: U16)
    ensures Keeping(o, id) <==> (PublishExactlyOnce, id) in Ret(o)
  {
    if Keeping(o, id) {
      var i := EntryOf(o, id);
    }
    if (PublishExactlyOnce, id) in Ret(o) {
      var i :| 0 <= i < |Ret(o)| && Ret(o)[i] == (PublishExactlyOnce, id);
      PubEntry(o, i);
    }
  }

  lemma KeepingNotReleasing(o: Out, id: U16)
    requires UniqueIds(o) && Keeping(o, id)
    ensures !Releasing(o, id)
  {
    KeepingIsRet(o, id);
    RetainedNotReleasing(o, PublishExactlyOnce, id);
  }

  lemma SameRetKeeps(o: Out, p: Out)
    requires Ret(o) == Ret(p)
    ensures forall id: U16 :: Keeping(o, id) == Keeping(p, id)
  {
    forall id: U16 ensures Keeping(o, id) == Keeping(p, id) {
      KeepingIsRet(o, id);
      KeepingIsRet(p, id);
    }
  }

  // ----------------------------------------------------------- broker moves

  lemma ReadPubs(w: World, id: U16)
    requires w.seen < |w.c.link.sent|
    ensures CountPub(InFlight(w), id) ==
              (if IsPub2(w.c.link.sent[w.seen]) && w.c.link.sent[w.seen].id == id then 1 else 0)
              + CountPub(InFlight(w.(seen := w.seen + 1)), id)
  {
    assert InFlight(w)[1..] == InFlight(w.(seen := w.seen + 1));
  }

  lemma ReadPaired(w: World, accept: bool, code: ReasonCode)
    requires Streamed(w.c) && Kept(w) && w.seen < |w.c.link.sent|
    ensures Paired(Read(w, accept, code))
  {
    hide CountPub, CountRec, Pubs, Accounted, Answered, Backed, Streamed, Said;
    SaidIntended(w);
    var v := Read(w, accept, code);
    if v.c.link.live {
      forall id: U16
        ensures CountPub(InFlight(v), id) + CountRec(v.replies, id) <= (if (id, true) in Pubs(v.c.core.out) then 1 else 0)
      {
        ReadPubs(w, id);
        assert InFlight(v) == InFlight(w.(seen := w.seen + 1));
        var m := w.c.link.sent[w.seen];
        if IsPub2(m) {
          RecSnoc(w.replies, Packet.PubRec(m.id, Reason(code, None)), id);
        } else if m.ReleaseMessage? {
          RecSnoc(w.replies, Packet.PubComp(m.id, Reason(code, None)), id);
        }
      }
    }
  }

  /** What is true of a live connection about a PUBLISH the broker is about to read. */
  lemma AboutToRead(w: World)
    requires Linked(w) && Kept(w) && w.seen < |w.c.link.sent| && IsPub2(w.c.link.sent[w.seen]) && w.c.link.live
    ensures var id := w.c.link.sent[w.seen].id; CountRec(w.replies, id) == 0 && CountComp(w.replies, id) == 0
  {
    hide CountRec, CountComp, Rel, Streamed, ReserveOk, Sequenced, Named, Accounted, Answered;
    var id := w.c.link.sent[w.seen].id;
    ReadPubs(w, id);
    StreamedUnique(w.c);
    KeepingNotReleasing(w.c.core.out, id);
    NoComp(w, id);
  }

  lemma NoComp(w: World, id: U16)
    requires w.seen <= |w.c.link.sent| && Piped(w) && w.c.link.live && !Releasing(w.c.core.out, id)
    ensures CountComp(w.replies, id) == 0
  {
    hide CountRel, CountComp, Rel;
  }

  /** An answer under way stays true when the broker reads something it is not about. */
  lemma ReadTruthful(w: World, accept: bool, code: ReasonCode, p: Packet)
    requires Streamed(w.c) && w.seen < |w.c.link.sent| == |w.serials| && Truthful(w, p)
    requires IsPub2(w.c.link.sent[w.seen]) ==>
               var id := w.c.link.sent[w.seen].id; !(p.PubRec? && p.id == id) && !(p.PubComp? && p.id == id)
    ensures Truthful(Read(w, accept, code), p)
  {
    hide Streamed, Said, Keeping;
    SaidIntended(w);
  }

  /** A PUBLISH about to be read is the retained one of its identifier and, if that is held, was handed on. */
  lemma AboutToAnswer(w: World)
    requires Accounted(w) && w.seen < |w.c.link.sent| == |w.serials| && Backed(w) && IsPub2(w.c.link.sent[w.seen])
    ensures var id := w.c.link.sent[w.seen].id;
            id in w.owner && w.serials[w.seen] == w.owner[id] && (id in w.held ==> w.owner[id] in w.handed)
  {
    hide Pubs, Releasing;
  }

  /** The answer to what was just read is true. */
  lemma ReadAnswer(w: World, accept: bool, code: ReasonCode)
    requires Streamed(w.c) && Accounted(w) && w.seen < |w.c.link.sent| == |w.serials| && Backed(w)
    requires SaidPub2(w) ==> (Success(code) <==> Said(w).id in w.held || accept)
    ensures var v := Read(w, accept, code);
            |v.replies| > |w.replies| ==> |v.replies| == |w.replies| + 1 && Truthful(v, v.replies[|w.replies|])
  {
    hide Streamed, Said, Keeping, Releasing, Accounted, Backed;
    SaidIntended(w);
    if IsPub2(w.c.link.sent[w.seen]) {
      AboutToAnswer(w);
    }
  }

  lemma ReadAnswered(w: World, accept: bool, code: ReasonCode)
    requires Linked(w) && Kept(w) && w.seen < |w.c.link.sent| && Faithful(w, BrokerReads(accept, code))
    ensures Answered(Read(w, accept, code))
  {
    hide Linked, CountRec, CountComp, Paired, Possible, Said, Streamed, Accounted, Backed, Truthful;
    LinkedClient(w);
    SaidIntended(w);
    var v := Read(w, accept, code);
    var m := w.c.link.sent[w.seen];
    if v.c.link.live {
      ReadAnswer(w, accept, code);
      if IsPub2(m) {
        AboutToRead(w);
      }
      forall k | 0 <= k < |v.replies| ensures Truthful(v, v.replies[k]) {
        if k < |w.replies| {
          assert v.replies[k] == w.replies[k] && Truthful(w, w.replies[k]);
          if IsPub2(m) {
            NotAbout(w.replies, m.id, k);
          }
          ReadTruthful(w, accept, code, w.replies[k]);
        }
      }
    }
  }

  lemma NotAbout(ps: seq<Packet>, id: U16, k: nat)
    requires CountRec(ps, id) == 0 && CountComp(ps, id) == 0 && k < |ps|
    ensures !(ps[k].PubRec? && ps[k].id == id) && !(ps[k].PubComp? && ps[k].id == id)
  {
    if ps[k].PubRec? && ps[k].id == id {
      CountRecMember(ps, id, k);
    }
    if ps[k].PubComp? && ps[k].id == id {
      CountCompMember(ps, id, k);
    }
  }

  /** What the broker reads was retained; what it holds then was handed on. */
  lemma ReadAccounted(w: World, accept: bool, code: ReasonCode)
    requires Streamed(w.c) && Accounted(w) && w.seen < |w.c.link.sent| == |w.serials| && Backed(w)
    ensures Accounted(Read(w, accept, code)) && Backed(Read(w, accept, code))
  {
    hide Streamed, Said, Pubs, Releasing;
    SaidIntended(w);
    if IsPub2(w.c.link.sent[w.seen]) {
      AboutToAnswer(w);
    }
  }

  lemma ReadKept(w: World, accept: bool, code: ReasonCode)
    requires Linked(w) && Kept(w) && Faithful(w, BrokerReads(accept, code))
    ensures Kept(Read(w, accept, code))
  {
    hide Linked, Possible, Paired, Answered, Accounted, Backed, Said, Streamed, ReserveOk, Named;
    assert w.seen < |w.c.link.sent| == |w.serials| by { CanRead(w, accept, code); }
    LinkedClient(w);
    ReadPaired(w, accept, code);
    ReadAnswered(w, accept, code);
    ReadAccounted(w, accept, code);
  }

  lemma CanRead(w: World, accept: bool, code: ReasonCode)
    requires Possible(w, BrokerReads(accept, code))
    ensures w.seen < |w.c.link.sent| == |w.serials|
  {
  }

  lemma SendKept(w: World, p: Packet)
    requires Kept(w) && !p.PubRec? && !p.PubComp?
    ensures Kept(w.(replies := w.replies + [p]))
  {
    hide Pubs, CountPub, CountRec, Releasing;
    var v := w.(replies := w.replies + [p]);
    assert InFlight(v) == InFlight(w);
    forall id: U16 ensures CountRec(v.replies, id) == CountRec(w.replies, id) {
      RecSnoc(w.replies, p, id);
    }
    forall k | 0 <= k < |v.replies| && w.c.link.live ensures Truthful(v, v.replies[k]) {
      if k < |w.replies| {
        assert Truthful(w, w.replies[k]);
      }
    }
  }

  lemma ForgetKept(w: World)
    requires Kept(w)
    ensures Kept(w.(held := {}, known := false, stale := false))
  {
    hide Pubs, CountPub, CountRec, Releasing;
    var v := w.(held := {}, known := false, stale := false);
    assert InFlight(v) == InFlight(w);
    forall k | 0 <= k < |v.replies| && w.c.link.live ensures Truthful(v, v.replies[k]) {
      assert Truthful(w, w.replies[k]);
    }
  }

  // ----------------------------------------------------------- client moves

  /** What completing `m`, or nothing, does to the publications that count as written. */
  ghost predicate Progressed(c: Conn, d: Conn, m: Option<Message>) {
    d.link.live ==>
      if m.Some? && IsPub2(m.value) then
        && (m.value.id, true) !in Pubs(c.core.out) && (m.value.id, true) in Pubs(d.core.out)
        && forall id: U16 :: id != m.value.id ==> ((id, true) in Pubs(d.core.out) <==> (id, true) in Pubs(c.core.out))
      else forall id: U16 :: (id, true) in Pubs(d.core.out) <==> (id, true) in Pubs(c.core.out)
  }

  lemma FlushPubs(o: Out)
    ensures Pubs(CompleteFlush(o)) == Pubs(o)
  {
    var p := CompleteFlush(o);
    assert |p.retained| == |o.retained|;
    forall x ensures x in Pubs(p) <==> x in Pubs(o) {
      if x in Pubs(o) {
        var r :| r in o.retained && r.kind.PublishExactlyOnce? && x == (r.id, !r.state.Write?);
        var i :| 0 <= i < |o.retained| && o.retained[i] == r;
        PubEntry(p, i);
      }
      if x in Pubs(p) {
        var r :| r in p.retained && r.kind.PublishExactlyOnce? && x == (r.id, !r.state.Write?);
        var i :| 0 <= i < |p.retained| && p.retained[i] == r;
        PubEntry(o, i);
      }
    }
  }

  /** Entry by entry, all but `i` unchanged. */
  lemma OtherPubs(o: Out, p: Out, i: nat, id: U16)
    requires UniqueIds(o) && |p.retained| == |o.retained| && i < |o.retained| && id != o.retained[i].id
    requires p.retained[i].id == o.retained[i].id && forall k | 0 <= k < |o.retained| && k != i :: p.retained[k] == o.retained[k]
    ensures (id, true) in Pubs(p) <==> (id, true) in Pubs(o)
  {
    if (id, true) in Pubs(o) {
      var r :| r in o.retained && r.kind.PublishExactlyOnce? && r.id == id && !r.state.Write?;
      var k :| 0 <= k < |o.retained| && o.retained[k] == r;
      PubEntry(p, k);
    }
    if (id, true) in Pubs(p) {
      var r :| r in p.retained && r.kind.PublishExactlyOnce? && r.id == id && !r.state.Write?;
      var k :| 0 <= k < |p.retained| && p.retained[k] == r;
      PubEntry(o, k);
    }
  }

  lemma OwnPubs(o: Out, i: nat)
    requires UniqueIds(o) && i < |o.retained|
    ensures (o.retained[i].id, true) in Pubs(o) <==> o.retained[i].kind.PublishExactlyOnce? && !o.retained[i].state.Write?
  {
    var id := o.retained[i].id;
    if (id, true) in Pubs(o) {
      var r :| r in o.retained && r.kind.PublishExactlyOnce? && r.id == id && !r.state.Write?;
      var k :| 0 <= k < |o.retained| && o.retained[k] == r;
      assert k == i;
    }
    if o.retained[i].kind.PublishExactlyOnce? && !o.retained[i].state.Write? {
      PubEntry(o, i);
    }
  }

  lemma AdvancePubs(o: Out, s: Slot, count: nat)
    requires UniqueIds(o) && SlotIn(o, s) && ItemAt(o, s).state.Write?
    requires ItemAt(o, s).state.written + count <= |ItemAt(o, s).bytes|
    ensures var p := AdvanceSlot(o, s, count);
            var it := ItemAt(o, s);
            if it.state.written + count == |it.bytes| && IsPub2(it.packet) then
              && (it.packet.id, true) !in Pubs(o) && (it.packet.id, true) in Pubs(p)
              && forall id: U16 :: id != it.packet.id ==> ((id, true) in Pubs(p) <==> (id, true) in Pubs(o))
            else forall id: U16 :: (id, true) in Pubs(p) <==> (id, true) in Pubs(o)
  {
    hide ControlBytes, ReleaseBytes, Pubs;
    var p := AdvanceSlot(o, s, count);
    if s.RetainedSlot? {
      var i := s.index;
      assert UniqueIds(p);
      OwnPubs(o, i);
      OwnPubs(p, i);
      forall id: U16 | id != o.retained[i].id ensures (id, true) in Pubs(p) <==> (id, true) in Pubs(o) {
        OtherPubs(o, p, i, id);
      }
    } else {
      assert p.retained == o.retained;
      SamePubs(o, p);
    }
  }

  lemma SamePubs(o: Out, p: Out)
    requires o.retained == p.retained
    ensures Pubs(o) == Pubs(p)
  {
  }

  lemma PerformPubs(c: Conn, s: Slot, now: nat, io: Io, m: Option<Message>)
    requires UniqueIds(c.core.out) && SlotIn(c.core.out, s) && ItemAt(c.core.out, s).state.Write?
    requires Effect(c, PerformStep(c, s, now, io).0, m)
    ensures Progressed(c, PerformStep(c, s, now, io).0, m)
  {
    hide AdvanceSlot, ItemAt, Pubs, UniqueIds, ArmReplay, Items, Begun, Rel, Ret, SameIds, ExactlyOnce.Written;
    var d := PerformStep(c, s, now, io).0;
    SentMessage(c, d, m);
    if PerformStep(c, s, now, io).1.Progress? {
      AdvancePubs(c.core.out, s, Taken(io, ItemAt(c.core.out, s)));
    }
  }

  lemma SentMessage(c: Conn, d: Conn, m: Option<Message>)
    requires d.link.sent == c.link.sent + (if m.None? then [] else [m.value])
    ensures m.None? <==> d.link.sent == c.link.sent
    ensures forall x: Message :: d.link.sent == c.link.sent + [x] ==> m == Some(x)
  {
    if m.None? {
      assert d.link.sent == c.link.sent;
    } else {
      assert |d.link.sent| == |c.link.sent| + 1;
    }
    forall x: Message | d.link.sent == c.link.sent + [x] ensures m == Some(x) {
      assert d.link.sent[|c.link.sent|] == x;
    }
  }

  lemma ServicePubs(c: Conn, now: nat, io: Io, m: Option<Message>)
    requires UniqueIds(c.core.out) && Effect(c, ServiceOnce(c, now, io).0, m)
    ensures Progressed(c, ServiceOnce(c, now, io).0, m)
  {
    hide PerformStep, NextStep, SlotIn, ItemAt, Pubs, UniqueIds, MaybePing, ArmReplay, CompleteFlush, Items, Begun,
         Rel, Ret, SameIds, ExactlyOnce.Written;
    var d := ServiceOnce(c, now, io).0;
    SentMessage(c, d, m);
    FlushPubs(c.core.out);
    if c.link.flush.Flushing? {
    } else if NextStep(c.core.out).Some? {
      NextStepWritable(c.core.out);
      PerformPubs(c, NextStep(c.core.out).value, now, io, m);
    } else if !c.link.flush.Dirty? && MaybePing(c, now).Ok? {
      var e := MaybePing(c, now).value;
      PingEffect(c, now);
      SamePubs(c.core.out, e.core.out);
      if NextStep(e.core.out).Some? {
        NextStepWritable(e.core.out);
        SameUnique(c.core.out, e.core.out);
        EffectFrom(c, e, d, m);
        PerformPubs(e, NextStep(e.core.out).value, now, io, m);
      }
    }
  }

  lemma SameUnique(o: Out, p: Out)
    requires UniqueIds(o) && p.retained == o.retained && p.release == o.release
    ensures UniqueIds(p)
  {
  }

  lemma EffectFrom(c: Conn, e: Conn, d: Conn, m: Option<Message>)
    requires e.link == c.link && e.core.out.release == c.core.out.release && e.core.out.retained == c.core.out.retained
    requires e.core.present == c.core.present && Effect(c, d, m)
    ensures Effect(e, d, m)
  {
    assert Ret(e.core.out) == Ret(c.core.out) && Rel(e.core.out) == Rel(c.core.out);
  }

  lemma DirectPubs(c: Conn, packet: seq<Byte>, written: nat, ok: bool, close: bool, now: nat, m: Option<Message>)
    requires written <= |packet| && Effect(c, WriteDirect(c, packet, written, ok, close, now), m)
    ensures Progressed(c, WriteDirect(c, packet, written, ok, close, now), m)
  {
    hide Pubs, ArmReplay, Items, Begun, Rel, Ret, SameIds, ExactlyOnce.Written;
    SentMessage(c, WriteDirect(c, packet, written, ok, close, now), m);
  }

  lemma SameIdsAll(o: Out, p: Out)
    requires SameIds(Rel(o), Rel(p))
    ensures forall id: U16 :: Releasing(o, id) == Releasing(p, id)
  {
    forall id: U16 ensures Releasing(o, id) == Releasing(p, id) {
      SameIdsReleasing(o, p, id);
    }
  }

  lemma EffectPaired(w: World, v: World, m: Option<Message>)
    requires w.seen == v.seen <= |w.c.link.sent| && v.replies == w.replies && Paired(w)
    requires Effect(w.c, v.c, m) && Progressed(w.c, v.c, m)
    ensures v.seen <= |v.c.link.sent| && Paired(v)
  {
    hide CountPub, CountRec, Pubs, Rel, Ret, SameIds, ExactlyOnce.Written;
    if m.None? {
      assert v.c.link.sent == w.c.link.sent;
    } else if v.c.link.live {
      assert InFlight(v) == InFlight(w) + [m.value];
      forall id: U16
        ensures CountPub(InFlight(v), id) + CountRec(v.replies, id) <= (if (id, true) in Pubs(v.c.core.out) then 1 else 0)
      {
        PubSnoc(InFlight(w), m.value, id);
      }
    }
  }

  lemma EffectBacked(w: World, v: World, m: Option<Message>)
    requires Named(w) && Backed(w) && Effect(w.c, v.c, m)
    requires v == w.(c := v.c, serials := if m.None? then w.serials else w.serials + [SerialOf(w, m.value)])
    ensures v.seen <= |v.c.link.sent| == |v.serials| && Backed(v)
  {
    hide Pubs, Rel, Ret, SameIds, ExactlyOnce.Written, SerialOf, Keeping;
    SameRetKeeps(w.c.core.out, v.c.core.out);
    if m.Some? {
      if IsPub2(m.value) {
        OwnedMessage(w, m.value);
        KeepingIsRet(w.c.core.out, m.value.id);
      }
      assert forall p | 0 <= p < |w.c.link.sent| :: v.c.link.sent[p] == w.c.link.sent[p] && v.serials[p] == w.serials[p];
    }
  }

  lemma EffectKept(w: World, e: Event, m: Option<Message>)
    requires Linked(w) && Kept(w) && Fits(w.c.core.out) && Enabled(w.c, e)
    requires Effect(w.c, Apply(w.c, e), m) && Progressed(w.c, Apply(w.c, e), m)
    ensures Kept(Follow(w, e))
  {
    hide Streamed, ReserveOk, Apply, Enabled, Piped, Sequenced, Named, Rel, SameIds, ExactlyOnce.Written,
         SerialOf, Fits, Pubs, Paired, Backed, Keeping, Releasing, Progressed;
    var v := Follow(w, e);
    RetEntries(w.c.core.out, v.c.core.out);
    assert v == w.(c := v.c, serials := if m.None? then w.serials else w.serials + [SerialOf(w, m.value)]);
    EffectPaired(w, v, m);
    EffectBacked(w, v, m);
    SameRetKeeps(w.c.core.out, v.c.core.out);
    SameIdsAll(w.c.core.out, v.c.core.out);
    forall k | 0 <= k < |v.replies| && v.c.link.live ensures Truthful(v, v.replies[k]) {
      assert Truthful(w, w.replies[k]);
    }
  }

  // --------------------------------------------------------------- admission

  lemma ReleasingHas(o: Out, id: U16)
    ensures Releasing(o, id) <==> HasRelease(o, id)
  {
    if Releasing(o, id) {
      var k :| 0 <= k < |Rel(o)| && Rel(o)[k].0 == id;
      assert o.release[k].id == id;
    }
    if HasRelease(o, id) {
      var k :| 0 <= k < |o.release| && o.release[k].id == id;
      assert Rel(o)[k] == (id, o.release[k].state.Write?);
      assert Rel(o)[k] in Rel(o);
    }
  }

  lemma AppendedPubs(o: Out, p: Out)
    requires Appended(o, p) && |p.retained| == |o.retained| + 1 && p.retained[|o.retained|].state == Write(0)
    ensures var r := p.retained[|o.retained|];
            && (forall id: U16 :: (id, true) in Pubs(p) <==> (id, true) in Pubs(o))
            && (forall id: U16 :: Keeping(p, id) <==> Keeping(o, id) || (r.kind.PublishExactlyOnce? && id == r.id))
            && !Keeping(o, r.id) && !Releasing(o, r.id)
  {
    var n := |o.retained|;
    var r := p.retained[n];
    assert p.retained == o.retained + [r] by { assert p.retained == p.retained[..n] + [r]; }
    assert forall x :: x in p.retained <==> x in o.retained || x == r;
    if Keeping(o, r.id) {
      var i := EntryOf(o, r.id);
      assert HasRetained(o, r.id);
    }
    ReleasingHas(o, r.id);
    assert Pubs(p) == Pubs(o) + (if r.kind.PublishExactlyOnce? then {(r.id, false)} else {});
  }

  lemma AppendedFresh(c: Conn, request: Request)
    requires Fits(c.core.out)
    ensures var d := Admit(c, request).0;
            |d.core.out.retained| == |c.core.out.retained| + 1 ==>
              c.link.live && d.core.out.retained[|c.core.out.retained|].state == Write(0)
  {
    hide EncodePublishInto, EncodeInto, PublishFields, RetainedBytes, Fits;
  }

  /** Nothing under way concerns an identifier the client has no use for. */
  lemma Unused(w: World, id: U16)
    requires Linked(w) && Kept(w) && w.c.link.live && !Keeping(w.c.core.out, id) && !Releasing(w.c.core.out, id)
    ensures id !in w.held
    ensures CountPub(InFlight(w), id) == 0 && CountRec(w.replies, id) == 0 && CountComp(w.replies, id) == 0
  {
    hide CountPub, CountRec, CountComp, Rel, Streamed, ReserveOk, Sequenced, Named, Pubs, Answered, Backed;
    NoComp(w, id);
  }

  lemma AskKept(w: World, request: Request)
    requires Linked(w) && Kept(w) && Fits(w.c.core.out)
    ensures Kept(Follow(w, Ask(request)))
  {
    hide Linked, Admit, Pubs, Rel, Fits, CountPub, CountRec, CountComp, Paired, Backed, Accounted, Answered, Appended,
         Streamed, ReserveOk, Named, SerialOf;
    var v := Follow(w, Ask(request));
    AdmitAppends(w.c, request);
    AdmitSame(w.c, request);
    AppendedFresh(w.c, request);
    LinkedClient(w);
    AskSame(w, v);
    if |v.c.core.out.retained| == |w.c.core.out.retained| + 1 {
      AskNew(w, v);
    } else {
      AskNothing(w, v);
    }
  }

  lemma AskSame(w: World, v: World)
    requires Appended(w.c.core.out, v.c.core.out)
    ensures |v.c.core.out.retained| == |w.c.core.out.retained| || |v.c.core.out.retained| == |w.c.core.out.retained| + 1
    ensures |v.c.core.out.retained| == |w.c.core.out.retained| ==> v.c.core.out.retained == w.c.core.out.retained
    ensures Rel(v.c.core.out) == Rel(w.c.core.out)
  {
    SameRel(w.c.core.out, v.c.core.out);
  }

  lemma AskNothing(w: World, v: World)
    requires Kept(w) && v == w.(c := v.c) && v.c.link == w.c.link
    requires v.c.core.out.retained == w.c.core.out.retained && Rel(v.c.core.out) == Rel(w.c.core.out)
    ensures Kept(v)
  {
    hide CountPub, CountRec, Rel;
    SamePubs(w.c.core.out, v.c.core.out);
    assert InFlight(v) == InFlight(w);
    forall k | 0 <= k < |v.replies| && v.c.link.live ensures Truthful(v, v.replies[k]) {
      assert Truthful(w, w.replies[k]);
    }
  }

  lemma AskNew(w: World, v: World)
    requires Linked(w) && Kept(w) && w.c.link.live && v.c.link == w.c.link
    requires Appended(w.c.core.out, v.c.core.out) && |v.c.core.out.retained| == |w.c.core.out.retained| + 1
    requires v.c.core.out.retained[|w.c.core.out.retained|].state == Write(0) && Rel(v.c.core.out) == Rel(w.c.core.out)
    requires var r := v.c.core.out.retained[|w.c.core.out.retained|];
             if r.kind.PublishExactlyOnce? then v == w.(c := v.c, owner := w.owner[r.id := |w.idOf|], idOf := w.idOf + [r.id])
             else v == w.(c := v.c)
    ensures Kept(v)
  {
    hide Linked, CountPub, CountRec, CountComp, Rel, Pubs, Appended;
    var r := v.c.core.out.retained[|w.c.core.out.retained|];
    AppendedPubs(w.c.core.out, v.c.core.out);
    Unused(w, r.id);
    assert InFlight(v) == InFlight(w);
    assert forall p | w.seen <= p < |w.c.link.sent| && IsPub2(w.c.link.sent[p]) :: w.c.link.sent[p].id != r.id;
    forall k | 0 <= k < |v.replies| && v.c.link.live ensures Truthful(v, v.replies[k]) {
      assert Truthful(w, w.replies[k]);
      NotAbout(w.replies, r.id, k);
    }
  }

  // ----------------------------------------------------------------- receipt

  lemma AckedPubs(o: Out, kind: OpKind, id: U16)
    requires UniqueIds(o)
    ensures var q := AckPacket(o, kind, id);
            && (!kind.PublishExactlyOnce? ==> Pubs(q) == Pubs(o))
            && (kind.PublishExactlyOnce? ==> forall x: (U16, bool) :: x in Pubs(q) <==> x in Pubs(o) && x.0 != id)
  {
    AckPacketExact(o, kind, id);
    var q := AckPacket(o, kind, id);
    hide AckPacket;
    forall x: (U16, bool) ensures x in Pubs(q) <==> x in Pubs(o) && (kind.PublishExactlyOnce? ==> x.0 != id) {
      if x in Pubs(o) && (kind.PublishExactlyOnce? ==> x.0 != id) {
        var r :| r in o.retained && r.kind.PublishExactlyOnce? && x == (r.id, !r.state.Write?);
        assert r in q.retained;
      }
    }
  }

  /** Handling a packet drops a QoS 2 publication only if the packet is a PUBREC for it. */
  lemma HandlePubs(core: Core, rt: Runtime, p: Packet)
    requires UniqueIds(core.out)
    ensures var q := HandlePacket(core, rt, p).0.out;
            && (!p.PubRec? ==> Pubs(q) == Pubs(core.out))
            && (p.PubRec? ==> forall x: (U16, bool) :: x in Pubs(q) <==> x in Pubs(core.out) && x.0 != p.id)
  {
    hide HasOp, AckPacket, AckRelease, FailedCode, FirstFailed, HandlePubRec, ControlBytes, IdPosition, SwapRemove,
         HasRelease, Pubs, UniqueIds;
    var o := core.out;
    var q := HandlePacket(core, rt, p).0.out;
    match p {
      case SubAck(id, _, _) => AckedPubs(o, OpKind.Subscribe, id);
      case UnsubAck(id, _, _) => AckedPubs(o, OpKind.Unsubscribe, id);
      case PubAck(id, _) => AckedPubs(o, PublishAtLeastOnce, id);
      case PubRec(id, reason) => PubRecPubs(core, rt, id, reason.Code());
      case PubComp(id, _) => AckReleasePubs(o, id);
      case _ => SamePubs(o, q);
    }
  }

  lemma AckReleasePubs(o: Out, id: U16)
    ensures Pubs(AckRelease(o, id)) == Pubs(o)
  {
    SamePubs(o, AckRelease(o, id));
  }

  lemma PubRecPubs(core: Core, rt: Runtime, id: U16, code: ReasonCode)
    requires UniqueIds(core.out)
    ensures forall x: (U16, bool) :: x in Pubs(HandlePubRec(core, rt, id, code).0.out) <==> x in Pubs(core.out) && x.0 != id
  {
    hide AckPacket, ReleaseBytes, HasRelease, Pubs, HasOp;
    var o := core.out;
    var q := AckPacket(o, PublishExactlyOnce, id);
    AckedPubs(o, PublishExactlyOnce, id);
    if !HasOp(o, PublishExactlyOnce, id) {
      NotKept(o, id);
    }
    SameList(q, HandlePubRec(core, rt, id, code).0.out);
  }

  lemma SameList(q: Out, p: Out)
    ensures q.retained == p.retained ==> Pubs(q) == Pubs(p)
  {
  }

  lemma NotKept(o: Out, id: U16)
    requires !HasOp(o, PublishExactlyOnce, id)
    ensures forall b: bool :: (id, b) !in Pubs(o)
    ensures AckPacket(o, PublishExactlyOnce, id) == o
  {
  }

  lemma PopRec(ps: seq<Packet>, id: U16)
    requires ps != []
    ensures CountRec(ps, id) == (if ps[0].PubRec? && ps[0].id == id then 1 else 0) + CountRec(ps[1..], id)
  {
  }

  lemma KeepingHasOp(o: Out, id: U16)
    ensures Keeping(o, id) <==> HasOp(o, PublishExactlyOnce, id)
  {
    if Keeping(o, id) {
      var i := EntryOf(o, id);
    }
    if HasOp(o, PublishExactlyOnce, id) {
      PubEntry(o, RetainedPosition(o.retained, PublishExactlyOnce, id));
    }
  }

  /** What the handled packet does to the queues, as far as QoS 2 is concerned. */
  ghost predicate Taken2(w: World, q: Out) {
    w.replies != [] &&
    var o, p := w.c.core.out, w.replies[0];
    && (!p.PubRec? ==> forall x: (U16, bool) :: x in Pubs(q) <==> x in Pubs(o))
    && (p.PubRec? ==> forall x: (U16, bool) :: x in Pubs(q) <==> x in Pubs(o) && x.0 != p.id)
    && (forall id: U16 :: Releasing(o, id) && !(p.PubComp? && p.id == id) ==> Releasing(q, id))
    && (p.PubRec? && Keeping(o, p.id) && Success(p.reason.Code()) ==> Releasing(q, p.id))
  }

  lemma HandleTaken(w: World)
    requires Linked(w) && Faithful(w, Move.Answer)
    ensures Taken2(w, HandlePacket(w.c.core, w.c.rt, w.replies[0]).0.out)
  {
    hide Streamed, ReserveOk, HandlePacket, Piped, Sequenced, Named, Rel, Ret, Pubs, HasOp, CanRelease,
         UniqueIds, Quieted, Fits;
    var o, p := w.c.core.out, w.replies[0];
    StreamedUnique(w.c);
    HandlePubs(w.c.core, w.c.rt, p);
    HandleReceipt(w.c.core, w.c.rt, p);
    var q := HandlePacket(w.c.core, w.c.rt, p).0.out;
    ReceiptReleasing(o, q, p);
    if p.PubRec? {
      KeepingHasOp(o, p.id);
      if Keeping(o, p.id) && Success(p.reason.Code()) {
        ReleasedIff(w.c.core, w.c.rt, p.id, p.reason.Code());
        PubRecIs(w.c.core, w.c.rt, p);
        ReleasingHas(q, p.id);
      }
    }
  }

  lemma PubRecIs(core: Core, rt: Runtime, p: Packet)
    requires p.PubRec?
    ensures HandlePacket(core, rt, p).0 == HandlePubRec(core, rt, p.id, p.reason.Code()).0
  {
    hide HandlePubRec;
  }

  lemma ReceiptReleasing(o: Out, q: Out, p: Packet)
    requires Receipt(o, q, p)
    ensures forall id: U16 :: Releasing(o, id) && !(p.PubComp? && p.id == id) ==> Releasing(q, id)
  {
    hide Rel, Ret;
  }

  lemma TakenPaired(w: World, u: World, q: Out)
    requires Kept(w) && w.c.link.live && Taken2(w, q)
    requires u.c.link == w.c.link && u.c.core.out == q && u.seen == w.seen && u.replies == w.replies[1..]
    ensures Paired(u)
  {
    hide CountPub, CountRec, Pubs, Releasing, Backed, Accounted, Answered;
    assert InFlight(u) == InFlight(w);
    forall id: U16
      ensures CountPub(InFlight(u), id) + CountRec(u.replies, id) <= (if (id, true) in Pubs(q) then 1 else 0)
    {
      PopRec(w.replies, id);
    }
  }

  lemma TakenBacked(w: World, u: World, q: Out)
    requires Kept(w) && w.c.link.live && Taken2(w, q)
    requires u.c.link == w.c.link && u.c.core.out == q && u == w.(c := u.c, replies := w.replies[1..])
    ensures Backed(u)
  {
    hide CountPub, CountRec, Pubs, Releasing, Accounted, Answered;
    forall p | w.seen <= p < |w.c.link.sent| && IsPub2(w.c.link.sent[p]) ensures Keeping(q, w.c.link.sent[p].id) {
      var id := w.c.link.sent[p].id;
      assert InFlight(w)[p - w.seen] == w.c.link.sent[p];
      CountPubMember(InFlight(w), id, p - w.seen);
      PopRec(w.replies, id);
      assert Keeping(w.c.core.out, id);
    }
  }

  lemma TakenAccounted(w: World, u: World, q: Out)
    requires Kept(w) && w.c.link.live && Taken2(w, q) && UniqueIds(w.c.core.out)
    requires u.c.core.out == q && u == w.(c := u.c, replies := w.replies[1..])
    ensures Accounted(u)
  {
    hide CountPub, CountRec, Pubs, Releasing, Paired, Backed, UniqueIds;
    assert Truthful(w, w.replies[0]);
    forall id: U16 | id in w.held
      ensures if Keeping(q, id) then id in w.owner && w.owner[id] in w.handed else Releasing(q, id)
    {
      if Keeping(w.c.core.out, id) {
        KeepingNotReleasing(w.c.core.out, id);
      }
    }
  }

  lemma TakenAnswered(w: World, u: World, q: Out)
    requires Kept(w) && w.c.link.live && Taken2(w, q)
    requires u.c.core.out == q && u == w.(c := u.c, replies := w.replies[1..])
    ensures Answered(u)
  {
    hide CountPub, CountRec, Pubs, Releasing, Paired, Backed, Accounted;
    forall k | 0 <= k < |u.replies| ensures Truthful(u, u.replies[k]) {
      assert u.replies[k] == w.replies[k + 1] && Truthful(w, w.replies[k + 1]);
    }
  }

  /** A connection that ends leaves the lasting part. */
  lemma DeadKept(w: World, v: World)
    requires Kept(w) && v == w.(c := HandleDisconnect(w.c))
    ensures Kept(v)
  {
    hide CountPub, CountRec, Pubs, Rel, Ret, Keeping, Releasing, SameIds, ExactlyOnce.Written, Items, Begun,
         ArmReplay;
    DisconnectRet(w.c);
    DisconnectEffect(w.c);
    SameRetKeeps(w.c.core.out, v.c.core.out);
    SameIdsAll(w.c.core.out, v.c.core.out);
    assert !v.c.link.live;
  }

  lemma ReplyKept(w: World)
    requires Linked(w) && Kept(w) && Faithful(w, Move.Answer)
    ensures Kept(Reply(w))
  {
    hide Linked, HandlePacket, HandleDisconnect, Pubs, Paired, Backed, Accounted, Answered, Taken2, Settles, Fits,
         Quieted, UniqueIds, Process;
    var p := w.replies[0];
    var (core, rt, h) := HandlePacket(w.c.core, w.c.rt, p);
    var u := w.(c := w.c.(core := core, rt := rt), replies := w.replies[1..]);
    ReplyParts(w);
    HandleTaken(w);
    LinkedUnique(w);
    TakenPaired(w, u, core.out);
    TakenBacked(w, u, core.out);
    TakenAccounted(w, u, core.out);
    TakenAnswered(w, u, core.out);
    DeadKept(u, u.(c := HandleDisconnect(u.c)));
  }

  lemma LinkedUnique(w: World)
    requires Linked(w)
    ensures UniqueIds(w.c.core.out)
  {
    hide Streamed;
    StreamedUnique(w.c);
  }

  // --------------------------------------------------------------- reconnect

  /** The same packets and releases, whatever their progress. */
  ghost predicate Lasting(o: Out, p: Out) {
    Ret(p) == Ret(o) && SameIds(Rel(o), Rel(p))
  }

  ghost predicate Emptied(p: Out) {
    p.retained == [] && p.release == []
  }

  lemma ArmLasting(o: Out)
    ensures Lasting(o, ArmReplay(o)) && (Emptied(o) ==> Emptied(ArmReplay(o))) && Emptied(Clear(o))
  {
    assert Ret(ArmReplay(o)) == Ret(o);
  }

  lemma LastingOn(o: Out, p: Out, q: Out)
    requires Lasting(o, p) && Lasting(p, q)
    ensures Lasting(o, q)
  {
  }

  lemma LastingSame(o: Out, p: Out, q: Out)
    requires Lasting(o, p) && q.retained == p.retained && q.release == p.release
    ensures Lasting(o, q)
  {
    assert Ret(q) == Ret(p) && Rel(q) == Rel(p);
  }

  lemma EmptiedSame(p: Out, q: Out)
    requires Emptied(p) && q.retained == p.retained && q.release == p.release
    ensures Emptied(q)
  {
  }

  lemma AcceptLasts(o: Out, c: Conn, ack: Packet, connect: seq<Byte>, reserve: nat, now: nat)
    requires ack.ConnAck? && Lasting(o, c.core.out)
    ensures var d := Accept(c, ack, connect, reserve, now).0;
            || Lasting(o, d.core.out)
            || (Success(ack.code) && !ack.sessionPresent && Emptied(d.core.out))
  {
    hide SettleAll, Deserializer.Items, Publishes, ArmReplay, Begun, Items, RetainedBytes, Lasting, Emptied, Rel, Ret;
    var d := Accept(c, ack, connect, reserve, now).0;
    var p := c.core.out;
    var q := if ack.sessionPresent then p else Reset(c.core).out;
    ArmLasting(p);
    ArmLasting(q);
    LastingOn(o, p, ArmReplay(p));
    if Success(ack.code) && !ack.sessionPresent {
      assert Emptied(q);
      if d.core.out.retained == q.retained && d.core.out.release == q.release {
        EmptiedSame(q, d.core.out);
      }
    } else if d.core.out.retained == p.retained && d.core.out.release == p.release {
      LastingSame(o, p, d.core.out);
    }
  }

  /** A connect keeps what is in flight, unless the broker reports that it has no session. */
  lemma OpenLasts(c: Conn, answer: Handshake.Answer, now: nat)
    ensures var d := Connect(c, answer, now).0;
            || Lasting(c.core.out, d.core.out)
            || (answer.Answered? && answer.packet.ConnAck? && Success(answer.packet.code) && !answer.packet.sessionPresent
                && Emptied(d.core.out))
  {
    hide EncodeInto, ConnectBody, ConnectNeed, ArmReplay, RetainedBytes, Items, Begun, Lasting, Emptied, Accept, Rel,
         Ret;
    var a := Prepared(c);
    ArmLasting(c.core.out);
    var r := EncodeInto(ScratchLen(a.core.out), Wire.ControlHeader(Wire.MessageType.Connect), ConnectBody(a));
    var reserved := SetWorkspace(a.core.out, ConnectNeed(a));
    if reserved.Some? {
      var b := WithOut(a, reserved.value);
      LastingSame(c.core.out, a.core.out, b.core.out);
      ArmLasting(b.core.out);
      LastingOn(c.core.out, b.core.out, ArmReplay(b.core.out));
      if answer.Answered? && answer.packet.ConnAck? && r.Ok? {
        AcceptLasts(c.core.out, b, answer.packet, r.value, ConnectNeed(a), now);
      }
    }
  }

  lemma ReopenKept(w: World, answer: Handshake.Answer, now: nat, reached: bool)
    requires Linked(w) && Kept(w) && Fits(w.c.core.out) && HonestAnswer(w, answer, reached)
    ensures Kept(Reopen(w, answer, now, reached))
  {
    hide Linked, Connect, Fits, Pubs, Paired, Backed, Answered, Keeping, Releasing, Rel, Ret, SameIds;
    var v := Reopen(w, answer, now, reached);
    OpenEffect(w.c, answer, now);
    OpenLasts(w.c, answer, now);
    FreshLink(v);
    if Lasting(w.c.core.out, v.c.core.out) {
      SameRetKeeps(w.c.core.out, v.c.core.out);
      SameIdsAll(w.c.core.out, v.c.core.out);
    }
  }

  lemma FreshLink(v: World)
    requires v.seen == 0 && v.replies == [] && |v.serials| == |v.c.link.sent| <= 1
    requires |v.c.link.sent| == 1 ==> v.c.link.sent[0].DirectMessage?
    ensures Paired(v) && Backed(v) && Answered(v)
  {
    forall id: U16 ensures CountPub(InFlight(v), id) == 0 && CountRec(v.replies, id) == 0 {
      if |v.c.link.sent| == 1 {
        assert InFlight(v) == [v.c.link.sent[0]];
        assert InFlight(v)[1..] == [];
      }
    }
  }

  // -------------------------------------------------------------------- runs

  lemma ClientKept(w: World, e: Event)
    requires Linked(w) && Kept(w) && Fits(w.c.core.out) && Enabled(w.c, e) && !e.Receive? && !e.Open?
    ensures Kept(Follow(w, e))
  {
    hide Linked, Kept, ServiceOnce, HandleDisconnect, Admit, WriteDirect, Effect, Progressed, Quieted, Fits, Unremembered,
         UniqueIds;
    LinkedUnique(w);
    match e {
      case Service(now, io) =>
        var m := ServiceEffect(w.c, now, io);
        ServicePubs(w.c, now, io, m);
        EffectKept(w, e, m);
      case Drop =>
        DisconnectEffect(w.c);
        DropProgress(w.c);
        EffectKept(w, e, None);
      case Ask(r) => AskKept(w, r);
      case Direct(packet, written, ok, close, now) =>
        var m := DirectEffect(w.c, packet, written, ok, close, now);
        DirectPubs(w.c, packet, written, ok, close, now, m);
        EffectKept(w, e, m);
    }
  }

  lemma DropProgress(c: Conn)
    ensures Progressed(c, HandleDisconnect(c), None)
  {
    hide Pubs, ArmReplay, Items, Begun;
  }

  lemma MoveKeepsKept(w: World, m: Move)
    requires Linked(w) && Kept(w) && Faithful(w, m)
    ensures Kept(ExactlyOnce.Next(w, m))
  {
    hide Linked, Kept, Follow, Reply, Read, Reopen, Enabled, HonestAnswer, Fits, Settles, CanRelease;
    match m {
      case Client(e) => ClientKept(w, e);
      case Answer => ReplyKept(w);
      case BrokerReads(accept, code) => ReadKept(w, accept, code);
      case BrokerSends(p) => SendKept(w, p);
      case BrokerForgets => ForgetKept(w);
      case Reconnects(answer, now, reached) => ReopenKept(w, answer, now, reached);
    }
  }

  /** A history in which the broker answers faithfully and every PUBREL can be queued. */
  ghost predicate IsFaithful(ws: seq<World>, ms: seq<Move>) {
    IsHistory(ws, ms) && forall i | 0 <= i < |ms| :: Faithful(ws[i], ms[i])
  }

  lemma {:induction false} FaithfulKept(ws: seq<World>, ms: seq<Move>, i: nat)
    requires IsFaithful(ws, ms) && Start(ws[0]) && i < |ws|
    ensures Kept(ws[i])
  {
    hide Linked, Possible, ExactlyOnce.Next, Faithful;
    if i == 0 {
      StartKept(ws[0]);
    } else {
      FaithfulKept(ws, ms, i - 1);
      HistoryLinked(ws, ms, i - 1);
      MoveKeepsKept(ws[i - 1], ms[i - 1]);
      assert ws[i - 1 + 1] == ws[i];
    }
  }

  lemma StartKept(w: World)
    requires Start(w)
    ensures Kept(w)
  {
    FreshLink(w);
  }

  // ----------------------------------------------------------------- theorem

  /** The broker told the client, on this move, that it refuses the publication or has no session. */
  ghost predicate Refuses(w: World, m: Move, id: U16) {
    || (m.Answer? && w.replies != [] && w.replies[0].PubRec? && w.replies[0].id == id && !Success(w.replies[0].reason.Code()))
    || (m.Reconnects? && m.answer.Answered? && m.answer.packet.ConnAck? && Success(m.answer.packet.code)
        && !m.answer.packet.sessionPresent)
  }

  lemma ClientKeeps(w: World, e: Event, id: U16)
    requires Linked(w) && Fits(w.c.core.out) && Enabled(w.c, e) && !e.Receive? && !e.Open? && Keeping(w.c.core.out, id)
    ensures Keeping(Follow(w, e).c.core.out, id)
  {
    hide Linked, ServiceOnce, HandleDisconnect, Admit, WriteDirect, Quieted, Fits, Unremembered, Rel, SameIds,
         ExactlyOnce.Written, Keeping;
    var d := Apply(w.c, e);
    match e {
      case Service(now, io) =>
        var m := ServiceEffect(w.c, now, io);
        SameRetKeeps(w.c.core.out, d.core.out);
      case Drop =>
        DisconnectRet(w.c);
        SameRetKeeps(w.c.core.out, d.core.out);
      case Ask(r) =>
        AdmitAppends(w.c, r);
        AppendedKeeps(w.c.core.out, d.core.out, id);
      case Direct(packet, written, ok, close, now) =>
        var m := DirectEffect(w.c, packet, written, ok, close, now);
        SameRetKeeps(w.c.core.out, d.core.out);
    }
  }

  lemma AppendedKeeps(o: Out, p: Out, id: U16)
    requires Appended(o, p) && Keeping(o, id)
    ensures Keeping(p, id)
  {
    var i := EntryOf(o, id);
    if p.retained != o.retained {
      assert p.retained[i] == p.retained[..|o.retained|][i];
    }
    PubEntry(p, i);
  }

  lemma ReplyKeeps(w: World, id: U16)
    requires Linked(w) && Kept(w) && Faithful(w, Move.Answer) && Keeping(w.c.core.out, id)
    ensures Keeping(Reply(w).c.core.out, id) || (w.replies[0].PubRec? && w.replies[0].id == id)
  {
    hide Linked, Kept, HandlePacket, HandleDisconnect, Pubs, Settles, Fits, Quieted, Process, Releasing;
    var (core, rt, h) := HandlePacket(w.c.core, w.c.rt, w.replies[0]);
    ReplyParts(w);
    HandleTaken(w);
    var d := w.c.(core := core, rt := rt);
    DisconnectRet(d);
    SameRetKeeps(d.core.out, HandleDisconnect(d).core.out);
  }

  /**
    * Nothing is lost: when the client gives up a QoS 2 publication, the broker has handed it on, or has told the
    * client that it refuses it or no longer has the session. With `HandedOnAtMostOnce` it was handed on exactly once.
    */
  lemma GivenUpOnlyWhenHandedOn(ws: seq<World>, ms: seq<Move>, i: nat, id: U16)
    requires IsFaithful(ws, ms) && Start(ws[0]) && i < |ms|
    requires Keeping(ws[i].c.core.out, id) && !Keeping(ws[i + 1].c.core.out, id)
    ensures id in ws[i].owner && (ws[i].owner[id] in ws[i].handed || Refuses(ws[i], ms[i], id))
  {
    hide Linked, Paired, Backed, Accounted, Pubs, Ret, Rel, Follow, Reply, Read, Reopen, Fits, Keeping, CanRelease,
         HonestAnswer;
    var w := ws[i];
    HistoryLinked(ws, ms, i);
    FaithfulKept(ws, ms, i);
    OwnerKnown(w, id);
    assert ws[i + 1] == ExactlyOnce.Next(w, ms[i]) && Faithful(w, ms[i]);
    match ms[i] {
      case Client(e) =>
        FollowOut(w, e);
        ClientKeeps(w, e, id);
      case Answer =>
        ReplyKeeps(w, id);
        assert Truthful(w, w.replies[0]);
      case BrokerReads(accept, code) => ReadOut(w, accept, code);
      case BrokerSends(p) =>
      case BrokerForgets =>
      case Reconnects(answer, now, reached) => ReopenOut(w, answer, now, reached, id);
    }
  }

  /** Given up without a refusal, a publication was handed on once and, unless a resume was mistaken, only once. */
  lemma HandedOnExactlyOnce(ws: seq<World>, ms: seq<Move>, i: nat, id: U16)
    requires IsFaithful(ws, ms) && NeverMistaken(ws, ms) && Start(ws[0]) && i < |ms|
    requires Keeping(ws[i].c.core.out, id) && !Keeping(ws[i + 1].c.core.out, id) && !Refuses(ws[i], ms[i], id)
    ensures id in ws[i].owner
    ensures exists a | 0 <= a < |ws[i].handed| ::
              && ws[i].handed[a] == ws[i].owner[id]
              && forall b | 0 <= b < |ws[i].handed| && ws[i].handed[b] == ws[i].owner[id] :: b == a
  {
    hide Keeping, Refuses, Start, Faithful, Possible, ExactlyOnce.Next, Mistaken;
    GivenUpOnlyWhenHandedOn(ws, ms, i, id);
    var n := ws[i].owner[id];
    var a :| 0 <= a < |ws[i].handed| && ws[i].handed[a] == n;
    forall b | 0 <= b < |ws[i].handed| && ws[i].handed[b] == n ensures b == a {
      if b < a {
        HandedOnAtMostOnce(ws, ms, i, b, a);
      } else if a < b {
        HandedOnAtMostOnce(ws, ms, i, a, b);
      }
    }
  }

  // -------------------------------------------------------- a session that lasts

  /** The session the client believes in exists. */
  ghost predicate SessionKnown(w: World) {
    w.c.core.present ==> w.known
  }

  lemma ReopenKnown(w: World, answer: Handshake.Answer, now: nat, reached: bool)
    requires Fits(w.c.core.out) && HonestAnswer(w, answer, reached) && SessionKnown(w)
    ensures SessionKnown(Reopen(w, answer, now, reached))
  {
    hide Connect, Fits, AsksToResume, ConnectPacket;
    OpenBelieves(w.c, answer, now);
    OpenGreets(w.c, answer, now);
    OpenResult(w.c, answer, now);
  }

  lemma MoveKeepsKnown(w: World, m: Move)
    requires Possible(w, m) && SessionKnown(w) && !m.BrokerForgets?
    ensures SessionKnown(ExactlyOnce.Next(w, m))
  {
    hide Apply, Fits, Enabled, HonestAnswer, Reopen, SerialOf, Said;
    match m {
      case Client(e) => StepBelieves(w.c, e);
      case Answer => StepBelieves(w.c, Receive(w.replies[0]));
      case Reconnects(answer, now, reached) => ReopenKnown(w, answer, now, reached);
      case _ =>
    }
  }

  lemma {:induction false} HistoryKnown(ws: seq<World>, ms: seq<Move>, i: nat)
    requires IsHistory(ws, ms) && Start(ws[0]) && i < |ws| && forall k | 0 <= k < |ms| :: !ms[k].BrokerForgets?
    ensures SessionKnown(ws[i])
  {
    hide Possible, ExactlyOnce.Next;
    if i > 0 {
      HistoryKnown(ws, ms, i - 1);
      MoveKeepsKnown(ws[i - 1], ms[i - 1]);
      assert ws[i - 1 + 1] == ws[i];
    }
  }

  /** The session is reported gone only if it is: a client that retains something asks to resume. */
  lemma NeverReportedGone(w: World, m: Move, id: U16)
    requires Linked(w) && SessionKnown(w) && Possible(w, m) && m.Reconnects? && Keeping(w.c.core.out, id)
    ensures !Discards(m.answer)
  {
    hide Linked, Streamed, Named, Fits, AsksToResume, ConnectPacket, Pubs;
    LinkedClient(w);
    var i := EntryOf(w.c.core.out, id);
    if ConnectPacket(w.c).Some? {
      AsksIff(w.c);
    }
  }

  /**
    * While the broker keeps its session, a QoS 2 publication leaves the client only once it was handed on, or with a
    * PUBREC that refuses it.
    */
  lemma NothingLost(ws: seq<World>, ms: seq<Move>, i: nat, id: U16)
    requires IsFaithful(ws, ms) && Start(ws[0]) && i < |ms| && forall k | 0 <= k < |ms| :: !ms[k].BrokerForgets?
    requires Keeping(ws[i].c.core.out, id) && !Keeping(ws[i + 1].c.core.out, id)
    ensures id in ws[i].owner
    ensures || ws[i].owner[id] in ws[i].handed
            || (ms[i].Answer? && ws[i].replies != [] && ws[i].replies[0].PubRec? && ws[i].replies[0].id == id
                && !Success(ws[i].replies[0].reason.Code()))
  {
    hide Linked, Keeping, Start, Possible, ExactlyOnce.Next;
    GivenUpOnlyWhenHandedOn(ws, ms, i, id);
    HistoryLinked(ws, ms, i);
    HistoryKnown(ws, ms, i);
    if ms[i].Reconnects? {
      NeverReportedGone(ws[i], ms[i], id);
    }
  }

  lemma OwnerKnown(w: World, id: U16)
    requires Linked(w) && Keeping(w.c.core.out, id)
    ensures id in w.owner
  {
    hide Streamed, ReserveOk, Piped, Sequenced;
    var i := EntryOf(w.c.core.out, id);
  }

  lemma FollowOut(w: World, e: Event)
    requires Fits(w.c.core.out) && Enabled(w.c, e)
    ensures Follow(w, e).c == Apply(w.c, e)
  {
    hide Apply, Enabled, Fits, SerialOf;
  }

  lemma ReadOut(w: World, accept: bool, code: ReasonCode)
    requires w.seen < |w.c.link.sent| == |w.serials|
    ensures Read(w, accept, code).c == w.c
  {
  }

  lemma ReopenOut(w: World, answer: Handshake.Answer, now: nat, reached: bool, id: U16)
    requires Fits(w.c.core.out) && Keeping(w.c.core.out, id)
    ensures || Keeping(Reopen(w, answer, now, reached).c.core.out, id)
            || (answer.Answered? && answer.packet.ConnAck? && Success(answer.packet.code) && !answer.packet.sessionPresent)
  {
    hide Connect, Fits, Keeping, Rel, Ret, SameIds;
    OpenLasts(w.c, answer, now);
    var v := Reopen(w, answer, now, reached);
    if Lasting(w.c.core.out, v.c.core.out) {
      SameRetKeeps(w.c.core.out, v.c.core.out);
    }
  }
}
