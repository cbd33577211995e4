/**
  * Draining the outbound queues (`flush_outbound` in minimq/src/mqtt_client/session/drive.rs): it ends,
  * it leaves nothing unsent, and it writes every pending packet exactly once, in order.
  */
module Drain {
  import opened Bytes
  import opened Packets
  import opened Schedule
  import opened Outbound
  import opened OutboundLaws
  import opened Session
  import opened Handshake
  import opened Meaning
  import opened Runs
  import Deserializer

  // -------------------------------------------------------------- measure

  predicate HasUnwrittenPing(o: Out) {
    exists i | 0 <= i < |o.control| :: o.control[i].action.Ping? && o.control[i].state.Write?
  }

  /** Whether one more PINGREQ can still be admitted before an answer arrives. */
  function PingBudget(c: Conn): nat {
    if c.rt.pingTimeout.None? && !HasUnwrittenPing(c.core.out) then 1 else 0
  }

  function FlushRank(f: FlushState): nat {
    if f.Clean? then 0 else 1
  }

  ghost function BytesLeft(o: Out): nat
    requires AllWf(Items(o))
  {
    Unwritten(Items(o))
  }

  /** The lexicographic measure: ping still admissible, unwritten bytes, flush outstanding. */
  ghost predicate Smaller(d: Conn, c: Conn)
    requires AllWf(Items(c.core.out)) && AllWf(Items(d.core.out))
  {
    || PingBudget(d) < PingBudget(c)
    || (PingBudget(d) == PingBudget(c)
        && (|| BytesLeft(d.core.out) < BytesLeft(c.core.out)
            || (BytesLeft(d.core.out) == BytesLeft(c.core.out) && FlushRank(d.link.flush) < FlushRank(c.link.flush))))
  }

  lemma {:induction false} UnwrittenConcat(a: seq<Item<Message>>, b: seq<Item<Message>>)
    requires AllWf(a) && AllWf(b)
    ensures AllWf(a + b) && Unwritten(a + b) == Unwritten(a) + Unwritten(b)
  {
    SplitWf(a, b);
    if a == [] {
      assert a + b == b;
    } else {
      assert (a + b)[1..] == a[1..] + b;
      assert AllWf(a[1..]) by { assert forall k | 0 <= k < |a[1..]| :: a[1..][k] == a[k + 1]; }
      UnwrittenConcat(a[1..], b);
    }
  }

  lemma {:induction false} UnwrittenPointwise(a: seq<Item<Message>>, b: seq<Item<Message>>)
    requires AllWf(a) && AllWf(b) && |a| == |b|
    requires forall i | 0 <= i < |a| :: a[i].bytes == b[i].bytes
    requires forall i | 0 <= i < |a| :: a[i].state == b[i].state || (!a[i].state.Write? && !b[i].state.Write?)
    ensures Unwritten(a) == Unwritten(b)
  {
    if a != [] {
      assert forall i | 0 <= i < |a| - 1 :: a[1..][i] == a[i + 1] && b[1..][i] == b[i + 1];
      UnwrittenPointwise(a[1..], b[1..]);
    }
  }

  lemma {:induction false} UnwrittenUnflushed(cs: seq<PendingControl>)
    requires AllWf(ControlItems(cs))
    ensures AllWf(ControlItems(Unflushed(cs)))
    ensures Unwritten(ControlItems(Unflushed(cs))) == Unwritten(ControlItems(cs))
  {
    hide ControlBytes;
    if cs != [] {
      var rest := Unflushed(cs[1..]);
      assert ControlItems(cs)[1..] == ControlItems(cs[1..]);
      assert AllWf(ControlItems(cs[1..])) by {
        assert forall k | 0 <= k < |cs[1..]| :: ControlItems(cs[1..])[k] == ControlItems(cs)[k + 1];
      }
      UnwrittenUnflushed(cs[1..]);
      if !cs[0].state.Flush? {
        assert Unflushed(cs)[1..] == rest && Unflushed(cs)[0] == cs[0];
        assert ControlItems(Unflushed(cs))[1..] == ControlItems(rest);
        assert ControlItems(Unflushed(cs))[0] == ControlItems(cs)[0];
        assert forall k | 0 < k < |Unflushed(cs)| :: ControlItems(Unflushed(cs))[k] == ControlItems(rest)[k - 1];
      } else {
        assert Unflushed(cs) == rest;
      }
    }
  }

  /** A flush leaves the unwritten bytes as they are. */
  lemma FlushLeaves(o: Out)
    requires Sound(o) && Quieted(o)
    ensures AllWf(Items(CompleteFlush(o))) && BytesLeft(CompleteFlush(o)) == BytesLeft(o)
    ensures HasUnwrittenPing(CompleteFlush(o)) == HasUnwrittenPing(o)
  {
    var p := CompleteFlush(o);
    FlushLeavesPing(o);
    hide ControlItems, ReleaseItems, RetainedItems, Unwritten, AllWf, OnePartial, HasUnwrittenPing, NonePartial,
         Unflushed;
    CompleteFlushKeeps(o);
    ByQueue(o);
    ByQueue(p);
    UnwrittenUnflushed(o.control);
    FlushedUnwritten(o);
    UnwrittenConcat(ControlItems(o.control), ReleaseItems(o.release));
    UnwrittenConcat(ControlItems(o.control) + ReleaseItems(o.release), RetainedItems(o.retained));
    UnwrittenConcat(ControlItems(p.control), ReleaseItems(p.release));
    UnwrittenConcat(ControlItems(p.control) + ReleaseItems(p.release), RetainedItems(p.retained));
  }

  lemma FlushedUnwritten(o: Out)
    requires AllWf(ReleaseItems(o.release)) && AllWf(RetainedItems(o.retained))
    requires AllWf(ReleaseItems(FlushReleases(o.release))) && AllWf(RetainedItems(FlushRetained(o.retained)))
    ensures Unwritten(ReleaseItems(FlushReleases(o.release))) == Unwritten(ReleaseItems(o.release))
    ensures Unwritten(RetainedItems(FlushRetained(o.retained))) == Unwritten(RetainedItems(o.retained))
  {
    hide ReleaseBytes;
    UnwrittenPointwise(ReleaseItems(FlushReleases(o.release)), ReleaseItems(o.release));
    UnwrittenPointwise(RetainedItems(FlushRetained(o.retained)), RetainedItems(o.retained));
  }

  lemma FlushLeavesPing(o: Out)
    ensures HasUnwrittenPing(CompleteFlush(o)) == HasUnwrittenPing(o)
  {
    UnflushedElements(o.control);
    var p := CompleteFlush(o);
    if HasUnwrittenPing(o) {
      var i :| 0 <= i < |o.control| && o.control[i].action.Ping? && o.control[i].state.Write?;
      assert o.control[i] in p.control;
      var k :| 0 <= k < |p.control| && p.control[k] == o.control[i];
      assert p.control[k].action.Ping? && p.control[k].state.Write?;
    }
    if HasUnwrittenPing(p) {
      var i :| 0 <= i < |p.control| && p.control[i].action.Ping? && p.control[i].state.Write?;
      assert p.control[i] in o.control;
      var k :| 0 <= k < |o.control| && o.control[k] == p.control[i];
      assert o.control[k].action.Ping? && o.control[k].state.Write?;
    }
  }

  // ----------------------------------------------------------------- plan

  /** Packets completed on this transport and those still to be, in order. */
  ghost function Plan(c: Conn): seq<Message> {
    c.link.sent + Pending(Items(c.core.out))
  }

  /** A write keeps the plan and reduces the unwritten bytes. */
  lemma WritePlan(c: Conn, count: nat, now: nat)
    requires Streamed(c) && c.link.live && NextStep(c.core.out).Some?
    requires SlotIn(c.core.out, NextStep(c.core.out).value) && ItemAt(c.core.out, NextStep(c.core.out).value).state.Write?
    requires 1 <= count <= Left(ItemAt(c.core.out, NextStep(c.core.out).value))
    ensures var d := AfterWrite(c, NextStep(c.core.out).value, count, now);
            && Plan(d) == Plan(c)
            && AllWf(Items(d.core.out)) && BytesLeft(d.core.out) < BytesLeft(c.core.out)
  {
    hide Begun, Items, NextStep, ItemAt, AdvanceSlot, Pending, NoFlush, Quieted, StreamOk, FlushOk, Fits, AllGood,
         UniqueIds, AllWf, OnePartial, Unwritten, Place;
    var o := c.core.out;
    var s := NextStep(o).value;
    var it := ItemAt(o, s);
    WriteStep(o, count);
    AdvanceSlotIsAdvance(o, s, count);
    AdvanceReduces(Items(o), Place(o, s), count);
    assert c.link.sent + ([it.packet] + Pending(Items(AdvanceSlot(o, s, count))))
        == (c.link.sent + [it.packet]) + Pending(Items(AdvanceSlot(o, s, count)));
  }

  /** A write neither admits nor loses a ping. */
  lemma WriteBudget(c: Conn, s: Slot, count: nat, now: nat)
    requires SlotIn(c.core.out, s) && ItemAt(c.core.out, s).state.Write?
    requires ItemAt(c.core.out, s).state.written + count <= |ItemAt(c.core.out, s).bytes|
    ensures PingBudget(AfterWrite(c, s, count, now)) == PingBudget(c)
  {
    var d := AfterWrite(c, s, count, now);
    var cs, ds := c.core.out.control, d.core.out.control;
    if s.ControlSlot? {
      var i := s.index;
      assert forall k | 0 <= k < |cs| && k != i :: ds[k] == cs[k];
      if cs[i].action.Ping? {
        assert HasUnwrittenPing(c.core.out);
        if ds[i].state.Write? {
          assert HasUnwrittenPing(d.core.out);
        }
      } else {
        assert HasUnwrittenPing(d.core.out) == HasUnwrittenPing(c.core.out) by {
          assert ds[i].action == cs[i].action;
        }
      }
    }
  }

  lemma PerformPlan(c: Conn, now: nat, io: Io)
    requires Streamed(c) && c.link.live && NextStep(c.core.out).Some?
    requires SlotIn(c.core.out, NextStep(c.core.out).value) && ItemAt(c.core.out, NextStep(c.core.out).value).state.Write?
    requires PerformStep(c, NextStep(c.core.out).value, now, io).1.Progress?
    ensures PerformStep(c, NextStep(c.core.out).value, now, io).1.advanced
    ensures var d := PerformStep(c, NextStep(c.core.out).value, now, io).0;
            && d.link.live && Streamed(d) && Plan(d) == Plan(c)
            && PingBudget(d) == PingBudget(c) && BytesLeft(d.core.out) < BytesLeft(c.core.out)
  {
    hide NextStep, ItemAt, Plan, PingBudget, BytesLeft, HandleDisconnect, StreamOk, FlushOk;
    PerformKeeps(c, now, io);
    var s := NextStep(c.core.out).value;
    var count := Taken(io, ItemAt(c.core.out, s));
    WritePlan(c, count, now);
    WriteBudget(c, s, count, now);
  }

  lemma FlushPlan(c: Conn, now: nat, io: Io)
    requires Streamed(c) && c.link.live && Quieted(c.core.out) && !c.link.flush.Clean?
    requires FlushCurrent(c, now, io).1.Progress?
    ensures FlushCurrent(c, now, io).1.advanced
    ensures var d := FlushCurrent(c, now, io).0;
            && d.link.live && Streamed(d) && Plan(d) == Plan(c)
            && PingBudget(d) == PingBudget(c) && BytesLeft(d.core.out) == BytesLeft(c.core.out)
            && d.link.flush.Clean?
  {
    hide BytesLeft, HasUnwrittenPing, StreamOk, FlushOk, Items, Unstarted, Current, HandleDisconnect, NoFlush,
         NonePartial;
    FlushKeeps(c, now, io);
    FlushLeaves(c.core.out);
    CompleteFlushKeeps(c.core.out);
    PendingQuiet(c.core.out);
    PendingQuiet(CompleteFlush(c.core.out));
  }

  lemma PendingQuiet(o: Out)
    requires Sound(o) && Quieted(o)
    ensures Pending(Items(o)) == Unstarted(Items(o))
  {
    Schedule.Quiet(Items(o));
  }

  const PING: Message := ControlMessage(Ping)

  lemma PingPlan(c: Conn, now: nat)
    requires Streamed(c) && Idle(c) && MaybePing(c, now).Ok?
    ensures var d := MaybePing(c, now).value;
            && Streamed(d) && d.link == c.link
            && Pending(Items(c.core.out)) == []
            && (d == c || (PingBudget(d) < PingBudget(c) && Pending(Items(d.core.out)) == [PING]
                           && NextStep(d.core.out) == Some(ControlSlot(0))))
  {
    hide StreamOk, FlushOk, Sound, Items, Pending;
    PingKeeps(c, now);
    var o := c.core.out;
    NothingNext(o);
    PendingQuiet(o);
    if ShouldPing(c, now) {
      PingHasRoom(c, now);
      PingQueued(o);
      var d := MaybePing(c, now).value;
      assert d.core.out.control == [PendingControl(Ping, Write(0))];
      assert d.core.out.control[0].action.Ping? && d.core.out.control[0].state.Write?;
      assert HasUnwrittenPing(d.core.out);
    }
  }

  lemma PingQueued(o: Out)
    requires Sound(o) && NextStep(o).None? && o.control == []
    ensures var p := o.(control := [PendingControl(Ping, Write(0))]);
            Pending(Items(p)) == [PING] && NextStep(p) == Some(ControlSlot(0))
  {
    hide ControlBytes, ReleaseBytes, NextStep, Sound, ReleaseItems, RetainedItems;
    var p := o.(control := [PendingControl(Ping, Write(0))]);
    NothingNext(o);
    PingFirst(o);
    assert Items(p) == ControlItems(p.control) + Items(o);
    UnstartedConcat(ControlItems(p.control), Items(o));
    assert ControlItems(p.control)[1..] == [];
    assert Unstarted(ControlItems(p.control)) == [PING];
  }

  lemma PingFirst(o: Out)
    requires NextStep(o).None? && o.control == []
    ensures NextStep(o.(control := [PendingControl(Ping, Write(0))])) == Some(ControlSlot(0))
  {
    hide ControlBytes, ReleaseItems, RetainedItems;
    var items := ControlItems([PendingControl(Ping, Write(0))]);
    FirstIs(items, true, 1);
    FirstIs(items, false, 0);
  }

  /**
    * One successful service step: the connection stays alive and, apart from admitting at most one ping
    * onto a drained stream, the plan is kept; the measure falls unless there was nothing to do, and then
    * everything is sent.
    */
  lemma ServicePlan(c: Conn, now: nat, io: Io)
    requires Streamed(c) && c.link.live && ServiceOnce(c, now, io).1.Progress?
    ensures var (d, r) := ServiceOnce(c, now, io);
            && d.link.live && Streamed(d)
            && (Plan(d) == Plan(c) || (PingBudget(d) < PingBudget(c) && Plan(d) == Plan(c) + [PING]))
            && (r.advanced ==> Smaller(d, c))
            && (!r.advanced ==> d == c && Idle(c) && AllSent(c.core.out))
  {
    hide Streamed, Plan, PerformStep, FlushCurrent, NextStep, ItemAt, SlotIn, PingBudget, BytesLeft, MaybePing,
         AllSent, Quieted;
    StreamedWf(c);
    if c.link.flush.Flushing? || (NextStep(c.core.out).None? && c.link.flush.Dirty?) {
      ServiceFlushQuiet(c);
      FlushPlan(c, now, io);
      StreamedWf(FlushCurrent(c, now, io).0);
    } else if NextStep(c.core.out).Some? {
      NextStepWritable(c.core.out);
      PerformPlan(c, now, io);
      StreamedWf(PerformStep(c, NextStep(c.core.out).value, now, io).0);
    } else {
      var d := MaybePing(c, now).value;
      PingPlan(c, now);
      ServicePing(c, d, now, io);
    }
  }

  lemma StreamedWf(c: Conn)
    requires Streamed(c)
    ensures AllWf(Items(c.core.out))
  {
  }

  lemma ServiceFlushQuiet(c: Conn)
    requires Streamed(c) && c.link.live && (c.link.flush.Flushing? || NextStep(c.core.out).None?)
    ensures Quieted(c.core.out)
  {
    if NextStep(c.core.out).None? {
      NothingNext(c.core.out);
    }
  }

  lemma ServicePing(c: Conn, d: Conn, now: nat, io: Io)
    requires Streamed(c) && Idle(c) && Streamed(d) && d.link == c.link
    requires Pending(Items(c.core.out)) == []
    requires d == c || (PingBudget(d) < PingBudget(c) && Pending(Items(d.core.out)) == [PING]
                        && NextStep(d.core.out) == Some(ControlSlot(0)))
    requires StepOr(d, now, io, (d, Progress(false))).1.Progress?
    ensures var (e, r) := StepOr(d, now, io, (d, Progress(false)));
            && e.link.live && Streamed(e)
            && (Plan(e) == Plan(c) || (PingBudget(e) < PingBudget(c) && Plan(e) == Plan(c) + [PING]))
            && (r.advanced ==> Smaller(e, c))
            && (!r.advanced ==> e == c && AllSent(c.core.out))
  {
    hide StreamOk, NextStep, PingBudget, BytesLeft, Items, Pending, ItemAt, PerformStep, AllWf, OnePartial, AllGood,
         UniqueIds, Fits;
    if NextStep(d.core.out).Some? {
      NextStepWritable(d.core.out);
      PerformPlan(d, now, io);
      StreamedWf(PerformStep(d, NextStep(d.core.out).value, now, io).0);
      assert c.link.sent + [] == c.link.sent;
    } else {
      DrainedIsAllSent(c.core.out);
    }
  }

  lemma IdleSent(c: Conn)
    requires Streamed(c) && Idle(c)
    ensures AllSent(c.core.out) && Quieted(c.core.out) && c.core.out.control == []
  {
    DrainedIsAllSent(c.core.out);
    NothingNext(c.core.out);
  }

  // ---------------------------------------------------------------- drains

  /** A run of successful service steps. */
  ghost predicate Serviced(c: Conn, steps: seq<(nat, Io)>, d: Conn)
    decreases |steps|
  {
    if steps == [] then d == c
    else
      var (m, r) := ServiceOnce(c, steps[0].0, steps[0].1);
      r == Progress(true) && Serviced(m, steps[1..], d)
  }

  /** Draining completes exactly the packets that were pending, each once and in order, plus at most one ping. */
  lemma {:induction false} DrainPlan(c: Conn, steps: seq<(nat, Io)>, d: Conn)
    requires Streamed(c) && c.link.live && Serviced(c, steps, d)
    ensures d.link.live && Streamed(d)
    ensures PingBudget(d) <= PingBudget(c)
    ensures Plan(d) == Plan(c) || (PingBudget(d) < PingBudget(c) && Plan(d) == Plan(c) + [PING])
    decreases |steps|
  {
    hide Streamed, Plan, ServiceOnce, PingBudget, BytesLeft;
    if steps != [] {
      var m := ServiceOnce(c, steps[0].0, steps[0].1).0;
      ServicePlan(c, steps[0].0, steps[0].1);
      DrainPlan(m, steps[1..], d);
      BudgetBound(c);
      BudgetBound(m);
    }
  }

  lemma BudgetBound(c: Conn)
    ensures PingBudget(c) <= 1
  {
  }

  /** A drain that reaches idle has sent everything that was pending. */
  lemma DrainSendsAll(c: Conn, steps: seq<(nat, Io)>, d: Conn)
    requires Streamed(c) && c.link.live && Serviced(c, steps, d) && Idle(d)
    ensures AllSent(d.core.out)
    ensures || d.link.sent == c.link.sent + Pending(Items(c.core.out))
            || d.link.sent == c.link.sent + Pending(Items(c.core.out)) + [PING]
    ensures d.link.wire == Flatten(AllBytes(d.link.sent))
  {
    hide NextStep, Items, Current, Unstarted, Flatten, AllBytes, Serviced, PingBudget, AllGenuine, NoFlush;
    DrainPlan(c, steps, d);
    var o := d.core.out;
    DrainedIsAllSent(o);
    NothingNext(o);
    PendingQuiet(o);
    QuietBegun(o);
    assert d.link.sent + [] == d.link.sent;
  }

  lemma {:induction false} ServicedSnoc(c: Conn, steps: seq<(nat, Io)>, m: Conn, now: nat, io: Io)
    requires Serviced(c, steps, m) && ServiceOnce(m, now, io).1 == Progress(true)
    ensures Serviced(c, steps + [(now, io)], ServiceOnce(m, now, io).0)
    decreases |steps|
  {
    hide ServiceOnce;
    var all := steps + [(now, io)];
    if steps == [] {
      assert all[1..] == [];
      assert Serviced(ServiceOnce(m, now, io).0, all[1..], ServiceOnce(m, now, io).0);
    } else {
      assert all[1..] == steps[1..] + [(now, io)];
      ServicedSnoc(ServiceOnce(c, steps[0].0, steps[0].1).0, steps[1..], m, now, io);
    }
  }

  /** `flush_outbound`: successful service steps, then one that has nothing to do, fails or is cancelled. */
  ghost predicate Drains(c: Conn, d: Conn, r: Service) {
    exists steps: seq<(nat, Io)>, m: Conn, now: nat, io: Io ::
      Serviced(c, steps, m) && r != Progress(true) && ServiceOnce(m, now, io) == (d, r)
  }

  /**
    * What `flush_outbound` achieves: on success the control queue is empty, every release and retained packet
    * is sent, the stream is clean, and the packets that were pending have been written, each once and in order.
    */
  lemma DrainsAll(c: Conn, d: Conn)
    requires Streamed(c) && c.link.live && Drains(c, d, Progress(false))
    ensures Idle(d) && AllSent(d.core.out) && d.link.wire == Flatten(AllBytes(d.link.sent))
    ensures || d.link.sent == c.link.sent + Pending(Items(c.core.out))
            || d.link.sent == c.link.sent + Pending(Items(c.core.out)) + [PING]
  {
    hide ServiceOnce, Serviced, Streamed, AllSent, Pending, Idle, Flatten, AllBytes;
    var steps, m, now, io :| Serviced(c, steps, m) && ServiceOnce(m, now, io) == (d, Progress(false));
    DrainPlan(c, steps, m);
    ServicePlan(m, now, io);
    DrainSendsAll(c, steps, m);
  }

  lemma ServiceLimit(c: Conn, now: nat, io: Io)
    ensures ServiceOnce(c, now, io).0.rt.maxPacket == c.rt.maxPacket
  {
    hide NextStep, ItemAt, ControlBytes, Items, Begun, ArmReplay, CompleteFlush, AdvanceSlot, Taken, ShouldPing;
    if NextStep(c.core.out).Some? {
      NextStepWritable(c.core.out);
    } else if MaybePing(c, now).Ok? && NextStep(MaybePing(c, now).value.core.out).Some? {
      NextStepWritable(MaybePing(c, now).value.core.out);
    }
  }

  lemma {:induction false} ServicedLimit(c: Conn, steps: seq<(nat, Io)>, d: Conn)
    requires Serviced(c, steps, d)
    ensures d.rt.maxPacket == c.rt.maxPacket
    decreases |steps|
  {
    hide ServiceOnce;
    if steps != [] {
      ServiceLimit(c, steps[0].0, steps[0].1);
      ServicedLimit(ServiceOnce(c, steps[0].0, steps[0].1).0, steps[1..], d);
    }
  }

  /** Draining leaves the broker's packet limit alone. */
  lemma DrainsLimit(c: Conn, d: Conn, r: Service)
    requires Drains(c, d, r)
    ensures d.rt.maxPacket == c.rt.maxPacket
  {
    hide ServiceOnce, Serviced;
    var steps, m, now, io :| Serviced(c, steps, m) && ServiceOnce(m, now, io) == (d, r);
    ServicedLimit(c, steps, m);
    ServiceLimit(m, now, io);
  }

  /** Some pending packet, or the PINGREQ about to be queued, is larger than the broker accepts. */
  ghost predicate Oversized(c: Conn) {
    c.rt.maxPacket.Some? &&
    (|| (exists s :: SlotIn(c.core.out, s) && |ItemAt(c.core.out, s).bytes| > c.rt.maxPacket.value)
     || |ControlBytes(Ping)| > c.rt.maxPacket.value)
  }

  /** Service on a live connection fails only because the transport does or because a packet is oversized. */
  lemma ServiceFailures(c: Conn, now: nat, io: Io)
    requires Streamed(c) && c.link.live && ServiceOnce(c, now, io).1.Failure?
    ensures var (d, r) := ServiceOnce(c, now, io);
            || (r.error.PacketTooLarge? && d.link == c.link && Oversized(d))
            || ((r.error.TransportFailed? || r.error.WriteZero?) && !d.link.live)
  {
    hide Streamed, ItemAt, NextStep, ControlBytes, HandleDisconnect, AfterWrite, Taken;
    DeadAfter(c);
    var k := c.(link := c.link.(flush := Flushing));
    DeadAfter(k);
    if !c.link.flush.Flushing? && NextStep(c.core.out).Some? {
      NextStepWritable(c.core.out);
    } else if c.link.flush.Clean? {
      PingHasRoom(c, now);
      if MaybePing(c, now).Ok? {
        var d := MaybePing(c, now).value;
        DeadAfter(d);
        if NextStep(d.core.out).Some? {
          NextStepWritable(d.core.out);
        }
      }
    }
  }

  lemma DeadAfter(c: Conn)
    ensures !HandleDisconnect(c).link.live
  {
  }

  // ------------------------------------------------------ draining is possible

  /** The same connection but for the progress of its packets, its control packets and its timers. */
  ghost predicate SameWork(c: Conn, d: Conn) {
    && d == c.(core := c.core.(out := d.core.out), rt := d.rt, link := d.link)
    && d.rt == c.rt.(nextPing := d.rt.nextPing, pingTimeout := d.rt.pingTimeout)
    && SameQueues(c.core.out, d.core.out)
  }

  ghost predicate SameQueues(o: Out, p: Out) {
    && p.capacity == o.capacity && p.workspace == o.workspace
    && |p.release| == |o.release| && |p.retained| == |o.retained|
    && (forall i | 0 <= i < |o.release| :: p.release[i].(state := Sent) == o.release[i].(state := Sent))
    && (forall i | 0 <= i < |o.retained| :: p.retained[i].(state := Sent) == o.retained[i].(state := Sent))
  }

  lemma SetSlotSame(o: Out, s: Slot, state: SendState)
    requires SlotIn(o, s)
    ensures SameQueues(o, SetSlot(o, s, state))
  {
  }

  lemma FlushSame(o: Out)
    ensures SameQueues(o, CompleteFlush(o))
  {
  }

  lemma SameWorkOn(c: Conn, d: Conn, e: Conn)
    requires SameWork(c, d) && SameWork(d, e)
    ensures SameWork(c, e)
  {
  }

  lemma ServiceSame(c: Conn, now: nat, io: Io)
    requires ServiceOnce(c, now, io).1.Progress?
    ensures SameWork(c, ServiceOnce(c, now, io).0)
  {
    hide NextStep, ItemAt, ControlBytes, SetSlot, CompleteFlush, Taken, ShouldPing, HandleDisconnect, SlotIn,
         SameQueues;
    var o := c.core.out;
    FlushSame(o);
    SameSelf(o);
    if !c.link.flush.Flushing? && NextStep(o).Some? {
      NextStepWritable(o);
      PerformSame(c, NextStep(o).value, now, io);
    } else if c.link.flush.Clean? {
      var d := MaybePing(c, now).value;
      PingSame(c, now);
      if NextStep(d.core.out).Some? {
        NextStepWritable(d.core.out);
        PerformSame(d, NextStep(d.core.out).value, now, io);
        SameWorkOn(c, d, PerformStep(d, NextStep(d.core.out).value, now, io).0);
      }
    }
  }

  lemma SameSelf(o: Out)
    ensures SameQueues(o, o)
  {
  }

  lemma PingSame(c: Conn, now: nat)
    requires MaybePing(c, now).Ok?
    ensures SameWork(c, MaybePing(c, now).value)
  {
    hide ShouldPing, ControlBytes;
  }

  lemma PerformSame(c: Conn, s: Slot, now: nat, io: Io)
    requires SlotIn(c.core.out, s) && ItemAt(c.core.out, s).state.Write? && PerformStep(c, s, now, io).1.Progress?
    ensures SameWork(c, PerformStep(c, s, now, io).0)
  {
    hide ItemAt, SetSlot, Taken, HandleDisconnect, SameQueues;
    var it := ItemAt(c.core.out, s);
    SetSlotSame(c.core.out, s, SetWritten(it.state.written + Taken(io, it), |it.bytes|));
  }

  /** The broker's limit lets acknowledgements and all retained packets through. */
  ghost predicate Passes(c: Conn) {
    c.rt.maxPacket.Some? ==>
      && c.rt.maxPacket.value >= 5
      && forall i | 0 <= i < |c.core.out.retained| :: |c.core.out.retained[i].bytes| <= c.rt.maxPacket.value
  }

  lemma SlotPasses(c: Conn, s: Slot)
    requires Passes(c) && SlotIn(c.core.out, s)
    ensures !TooLarge(c.rt.maxPacket, |ItemAt(c.core.out, s).bytes|)
  {
    hide ControlBytes, ReleaseBytes;
    match s {
      case ControlSlot(i) => ControlBytesFrame(c.core.out.control[i].action);
      case ReleaseSlot(i) => ReleaseBytesFrame(c.core.out.release[i].id, c.core.out.release[i].reason);
      case RetainedSlot(i) =>
    }
  }

  lemma CanPerform(c: Conn, now: nat)
    requires Streamed(c) && c.link.live && Passes(c) && NextStep(c.core.out).Some?
    requires SlotIn(c.core.out, NextStep(c.core.out).value) && ItemAt(c.core.out, NextStep(c.core.out).value).state.Write?
    ensures PerformStep(c, NextStep(c.core.out).value, now,
                        Wrote(|ItemAt(c.core.out, NextStep(c.core.out).value).bytes|)).1.Progress?
  {
    hide NextStep, ItemAt, AfterWrite, HandleDisconnect, Passes, Sound, StreamOk, FlushOk, IsFrame, Meant;
    SlotIsGenuine(c.core.out, NextStep(c.core.out).value);
    SlotPasses(c, NextStep(c.core.out).value);
  }

  /** A transport that accepts everything lets the next service step succeed. */
  lemma CanService(c: Conn) returns (now: nat, io: Io)
    requires Streamed(c) && c.link.live && Passes(c)
    ensures ServiceOnce(c, now, io).1.Progress?
  {
    hide Streamed, NextStep, ItemAt, PerformStep, CompleteFlush, HandleDisconnect, Passes, SlotIn, MaybePing;
    now, io := 0, Flushed;
    if !c.link.flush.Flushing? && NextStep(c.core.out).Some? {
      NextStepWritable(c.core.out);
      io := Wrote(|ItemAt(c.core.out, NextStep(c.core.out).value).bytes|);
      CanPerform(c, now);
    } else if c.link.flush.Clean? {
      var d := CanPing(c, now);
      if NextStep(d.core.out).Some? {
        NextStepWritable(d.core.out);
        io := Wrote(|ItemAt(d.core.out, NextStep(d.core.out).value).bytes|);
        CanPerform(d, now);
      }
    }
  }

  lemma CanPing(c: Conn, now: nat) returns (d: Conn)
    requires Streamed(c) && c.link.live && c.link.flush.Clean? && NextStep(c.core.out).None? && Passes(c)
    ensures MaybePing(c, now) == Ok(d) && Streamed(d) && d.link.live && Passes(d)
  {
    hide Streamed, NextStep, ControlBytes, ShouldPing;
    PingHasRoom(c, now);
    ControlBytesFrame(Ping);
    d := MaybePing(c, now).value;
    PingKeeps(c, now);
  }

  lemma SamePasses(c: Conn, d: Conn)
    requires Passes(c) && SameWork(c, d)
    ensures Passes(d)
  {
    forall i | 0 <= i < |d.core.out.retained| ensures d.core.out.retained[i].bytes == c.core.out.retained[i].bytes {
      assert d.core.out.retained[i].(state := Sent) == c.core.out.retained[i].(state := Sent);
    }
  }

  /** On a transport that accepts everything, a drain to idle exists. */
  lemma {:induction false} CanDrain(c: Conn) returns (steps: seq<(nat, Io)>, d: Conn)
    requires Streamed(c) && c.link.live && Passes(c)
    ensures Serviced(c, steps, d) && Idle(d) && Streamed(d) && SameWork(c, d)
    decreases PingBudget(c), BytesLeft(c.core.out), FlushRank(c.link.flush)
  {
    hide Streamed, ServiceOnce, Passes, PingBudget, BytesLeft, Idle, AllSent, Plan, SameQueues, FlushRank;
    var now, io := CanService(c);
    var (m, r) := ServiceOnce(c, now, io);
    ServicePlan(c, now, io);
    ServiceSame(c, now, io);
    if !r.advanced {
      SameSelf(c.core.out);
      return [], c;
    }
    SamePasses(c, m);
    StreamedWf(c);
    StreamedWf(m);
    var rest;
    rest, d := CanDrain(m);
    steps := [(now, io)] + rest;
    assert steps[1..] == rest;
    SameWorkOn(c, m, d);
  }

  /** A drain is part of a run. */
  lemma {:induction false} ServicedReaches(origin: Conn, c: Conn, steps: seq<(nat, Io)>, d: Conn)
    requires Reaches(origin, c) && Streamed(c) && c.link.live && Serviced(c, steps, d)
    ensures Reaches(origin, d)
    decreases |steps|
  {
    hide Streamed, ServiceOnce, Reaches, Fits;
    if steps != [] {
      var m := ServiceOnce(c, steps[0].0, steps[0].1).0;
      StreamedFits(c);
      ReachesOn(origin, c, Service(steps[0].0, steps[0].1));
      ServicePlan(c, steps[0].0, steps[0].1);
      ServicedReaches(origin, m, steps[1..], d);
    }
  }

  // ---------------------------------------------------------------- replay

  /** The packets of a queue in scan order. */
  ghost function Messages(o: Out): seq<Message> {
    seq(|Items(o)|, i requires 0 <= i < |Items(o)| => Items(o)[i].packet)
  }

  lemma ArmedPending(o: Out)
    requires Sound(o)
    ensures Pending(Items(ArmReplay(o))) == Messages(ArmReplay(o))
  {
    hide ControlBytes, ReleaseBytes;
    var p := ArmReplay(o);
    ArmReplayKeeps(o);
    PendingQuiet(p);
    AllUnstarted(Items(p));
  }

  /** What resuming replays, queue by queue: publications differ from before in their DUP flag only. */
  lemma ReplayedPackets(o: Out, i: nat)
    requires Sound(o) && i < |o.retained|
    ensures var m := Messages(ArmReplay(o))[|o.control| + |o.release| + i];
            && m == RetainedMessage(o.retained[i].kind, o.retained[i].id, MarkDup(o.retained[i]).bytes)
            && |BytesOf(m)| == |o.retained[i].bytes| && BytesOf(m)[1..] == o.retained[i].bytes[1..]
            && (!o.retained[i].kind.IsPublish() ==> BytesOf(m) == o.retained[i].bytes)
  {
    hide ControlBytes, ReleaseBytes, Genuine, AllWf, OnePartial, Fits, UniqueIds;
    assert GoodRetained(o.retained[i]);
    MarkDupGood(o.retained[i]);
    ItemsAt(ArmReplay(o), |o.control| + |o.release| + i);
  }

  lemma ResumedState(c: Conn, answer: Answer, now: nat)
    requires Connect(c, answer, now).1 == Ok(true)
    ensures var d := Connect(c, answer, now).0;
            && d.link.live && |d.link.sent| == 1 && d.link.sent[0].DirectMessage?
            && d.core.out == ArmReplay(c.core.out).(workspace := d.core.out.workspace)
  {
    hide EncodeInto, ConnectBody, ConnectNeed, SettleAll, Deserializer.Items, Publishes, ArmReplay, RetainedBytes;
  }

  /**
    * Replay: after a resumed connect, any drain to idle writes, right after the CONNECT, each pending
    * control packet, PUBREL and retained packet exactly once, in queue order, and at most a ping after them.
    */
  lemma ReplayExactlyOnce(c: Conn, answer: Answer, now: nat, steps: seq<(nat, Io)>, d: Conn)
    requires Streamed(c) && Connect(c, answer, now).1 == Ok(true)
    requires Serviced(Connect(c, answer, now).0, steps, d) && Idle(d)
    ensures var first := Connect(c, answer, now).0.link.sent;
            && |first| == 1
            && (|| d.link.sent == first + Messages(ArmReplay(c.core.out))
                || d.link.sent == first + Messages(ArmReplay(c.core.out)) + [PING])
    ensures d.link.wire == Flatten(AllBytes(d.link.sent)) && AllSent(d.core.out)
  {
    hide Connect, Serviced, Pending, Flatten, AllBytes, AllSent, Messages, StreamOk, FlushOk, ArmReplay, Idle;
    var b := Connect(c, answer, now).0;
    OpenKeeps(c, answer, now);
    ResumedState(c, answer, now);
    DrainSendsAll(b, steps, d);
    ArmedPending(c.core.out);
    WorkspaceIrrelevant(ArmReplay(c.core.out), b.core.out.workspace);
  }

  lemma WorkspaceIrrelevant(o: Out, len: nat)
    ensures Items(o.(workspace := len)) == Items(o)
  {
  }
}
