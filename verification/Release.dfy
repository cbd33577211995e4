/**
  * What a PUBREC does to a retained QoS 2 publication (minimq/src/mqtt_client/session/inbound.rs). The packet is
  * dropped before its PUBREL is queued, and the queueing can be refused.
  */
module Release {
  import opened Bytes
  import opened Handshake
  import opened Outbound
  import opened OutboundLaws
  import opened Packets
  import opened Runs
  import opened Scenario
  import opened Schedule
  import opened Session
  import Drain

  /** The broker accepts a PUBREL, which takes five bytes, and the release queue has room. */
  predicate CanRelease(core: Core, rt: Runtime) {
    (rt.maxPacket.Some? ==> rt.maxPacket.value >= 5) && |core.out.release| < 8
  }

  /**
    * The publication is dropped in every case; its identifier moves to the pending releases exactly when the
    * PUBREC reports success and a PUBREL can be queued, and every other outcome is an error to the caller.
    */
  lemma ReleasedIff(core: Core, rt: Runtime, id: U16, code: ReasonCode)
    requires UniqueIds(core.out) && HasOp(core.out, PublishExactlyOnce, id)
    ensures var (d, _, h) := HandlePubRec(core, rt, id, code);
            && !HasRetained(d.out, id)
            && (HasRelease(d.out, id) <==> Success(code) && CanRelease(core, rt))
            && (h.Quiet? <==> HasRelease(d.out, id)) && (h.Fail? <==> !HasRelease(d.out, id))
  {
    hide ReleaseBytes, AckPacket;
    var o := core.out;
    var p := AckPacket(o, PublishExactlyOnce, id);
    AckPacketExact(o, PublishExactlyOnce, id);
    ReleaseBytesFrame(id, SUCCESS);
    AckedGone(o, id);
    var d := HandlePubRec(core, rt, id, code).0;
    if Success(code) && CanRelease(core, rt) {
      assert d.out.release[|o.release|].id == id;
    }
  }

  lemma AckedGone(o: Out, id: U16)
    requires UniqueIds(o) && HasOp(o, PublishExactlyOnce, id)
    ensures var p := AckPacket(o, PublishExactlyOnce, id);
            !HasRetained(p, id) && !HasRelease(p, id) && p.release == o.release
  {
    var i := RetainedPosition(o.retained, PublishExactlyOnce, id);
    var p := AckPacket(o, PublishExactlyOnce, id);
    forall k | 0 <= k < |p.retained| ensures p.retained[k].id != id {
      assert p.retained[k] == o.retained[if k < i then k else k + 1];
    }
  }

  // -------------------------------------------------------- the failing case

  /** Publish once more and let the transport take everything. */
  lemma PublishAndDrain(origin: Conn, c: Conn, n: nat) returns (d: Conn, id: U16)
    requires Stage(c, n) && Reaches(origin, c)
    ensures Reaches(origin, d) && Streamed(d) && Idle(d) && AllSent(d.core.out)
    ensures |d.core.out.retained| == 1 && d.core.out.retained[0].kind.PublishExactlyOnce? && d.core.out.retained[0].id == id
    ensures |d.core.out.release| == n && d.core.out.capacity == 100 && d.core.out.workspace == 31
    ensures d.rt.maxPacket.None? && d.rt.maxQos.None? && d.rt.quota == LOCAL_QUOTA - 1 && d.rt.maxQuota == LOCAL_QUOTA
    ensures d.clientId == [] && d.config == CONFIG && d.core.present
  {
    hide Reaches, Streamed, Admit, NextStep, AllSent, Drain.Serviced, Fits;
    id := Scenario.Publish(c, n);
    var m := Admit(c, PUBLICATION).0;
    ReachesOn(origin, c, Ask(PUBLICATION));
    var steps;
    steps, d := Drain.CanDrain(m);
    Drain.ServicedReaches(origin, m, steps, d);
    assert d.core.out.retained[0].(state := Sent) == m.core.out.retained[0].(state := Sent);
    Drain.IdleSent(d);
  }

  /** A PUBREC reporting success for the one retained publication. */
  lemma Acknowledged(c: Conn, id: U16)
    requires |c.core.out.retained| == 1 && c.core.out.retained[0].kind.PublishExactlyOnce?
    requires c.core.out.retained[0].id == id && c.rt.maxPacket.None?
    ensures HasOp(c.core.out, PublishExactlyOnce, id)
    ensures var (d, h) := Process(c, Packet.PubRec(id, Reason(SUCCESS, None)));
            && d.core.out.retained == [] && d.core.out.capacity == c.core.out.capacity
            && d.core.out.workspace == c.core.out.workspace && d.link == c.link
            && d.rt == c.rt.(quota := Min(c.rt.quota + 1, c.rt.maxQuota))
            && d == c.(core := c.core.(out := d.core.out), rt := d.rt)
            && (|c.core.out.release| < MAX_PENDING_RELEASE ==> |d.core.out.release| == |c.core.out.release| + 1)
            && (|c.core.out.release| == MAX_PENDING_RELEASE ==>
                  d.core.out.release == c.core.out.release && h == Fail(InflightExhausted))
  {
    hide ReleaseBytes, HandleDisconnect;
    assert RetainedPosition(c.core.out.retained, PublishExactlyOnce, id) == 0;
    assert RemoveAt(c.core.out.retained, 0) == [];
  }

  /** One round: publish, drain, PUBREC, drain; no PUBCOMP comes, so one more release is pending. */
  lemma Round(origin: Conn, c: Conn, n: nat) returns (d: Conn)
    requires Stage(c, n) && Reaches(origin, c) && n < MAX_PENDING_RELEASE
    ensures Stage(d, n + 1) && Reaches(origin, d)
  {
    hide Reaches, Streamed, Process, NextStep, AllSent, Drain.Serviced, Fits, Quieted;
    var a, id := PublishAndDrain(origin, c, n);
    Drain.IdleSent(a);
    Acknowledged(a, id);
    var p := Packet.PubRec(id, Reason(SUCCESS, None));
    StreamedFits(a);
    ReceiveKeeps(a, p);
    ReachesOn(origin, a, Receive(p));
    var b := Process(a, p).0;
    var steps;
    steps, d := Drain.CanDrain(b);
    Drain.ServicedReaches(origin, b, steps, d);
  }

  lemma {:induction false} Climb(n: nat) returns (c: Conn)
    requires n <= MAX_PENDING_RELEASE
    ensures Stage(c, n) && Reaches(FRESH, c)
  {
    hide Reaches, Stage, Connect, Fits;
    if n == 0 {
      FirstConnect();
      ReachesSelf(FRESH);
      assert Fits(FRESH.core.out) by { FreshInitial(); InitialStreamed(FRESH); StreamedFits(FRESH); }
      ReachesOn(FRESH, FRESH, Open(Accepted(false), 0));
      c := Connect(FRESH, Accepted(false), 0).0;
    } else {
      c := Climb(n - 1);
      c := Round(FRESH, c, n - 1);
    }
  }

  /**
    * A session reaches this state: nine QoS 2 publications, each written and answered with a successful PUBREC, and no
    * PUBCOMP. The ninth PUBREC drops its publication and releases nothing.
    */
  lemma ReleaseCanBeRefused() returns (c: Conn, id: U16)
    ensures Initial(FRESH) && Reaches(FRESH, c) && Enabled(c, Receive(Packet.PubRec(id, Reason(SUCCESS, None))))
    ensures HasOp(c.core.out, PublishExactlyOnce, id)
    ensures var (d, h) := Process(c, Packet.PubRec(id, Reason(SUCCESS, None)));
            !HasRetained(d.core.out, id) && !HasRelease(d.core.out, id) && h == Fail(InflightExhausted)
  {
    hide Reaches, Stage, Streamed, Process, NextStep, AllSent, Quieted, HasOp, UniqueIds;
    FreshInitial();
    var a := Climb(MAX_PENDING_RELEASE);
    c, id := PublishAndDrain(FRESH, a, MAX_PENDING_RELEASE);
    Drain.IdleSent(c);
    Acknowledged(c, id);
    assert UniqueIds(c.core.out) by { StreamedUnique(c); }
    AckedGone(c.core.out, id);
  }
}
