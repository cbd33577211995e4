/** What every outbound operation keeps, and what it does to the packets still to be written. */
module OutboundLaws {
  import opened Bytes
  import opened Packets
  import opened Schedule
  import opened Outbound
  import opened Meaning

  // ----------------------------------------------------------- invariant

  /** Queue lengths and the split of the arena between retained packets and the CONNECT reserve. */
  ghost predicate Fits(o: Out) {
    && |o.control| <= MAX_PENDING_CONTROL
    && |o.release| <= MAX_PENDING_RELEASE
    && |o.retained| <= MAX_RETAINED
    && RetainedBytes(o) + o.workspace <= o.capacity
  }

  /** A retained packet is one whole packet that reads back as its kind and its identifier, which is not zero. */
  ghost predicate GoodRetained(r: Retained) {
    r.id != 0 && Genuine(RetainedMessage(r.kind, r.id, r.bytes))
  }

  ghost predicate AllGood(rs: seq<Retained>) {
    forall i | 0 <= i < |rs| :: GoodRetained(rs[i])
  }

  /** Identifiers of retained packets and pending releases are nonzero and pairwise distinct. */
  ghost predicate UniqueIds(o: Out) {
    && (forall i, j | 0 <= i < j < |o.retained| :: o.retained[i].id != o.retained[j].id)
    && (forall i, j | 0 <= i < j < |o.release| :: o.release[i].id != o.release[j].id)
    && (forall i, j | 0 <= i < |o.retained| && 0 <= j < |o.release| :: o.retained[i].id != o.release[j].id)
    && (forall j | 0 <= j < |o.release| :: o.release[j].id != 0)
  }

  /** Written control packets are dropped, never kept as sent. */
  ghost predicate ControlUnsent(o: Out) {
    forall i | 0 <= i < |o.control| :: !o.control[i].state.Sent?
  }

  ghost predicate Sound(o: Out) {
    && Fits(o)
    && AllGood(o.retained)
    && UniqueIds(o)
    && ControlUnsent(o)
    && AllWf(Items(o))
    && OnePartial(Items(o))
  }

  // ------------------------------------------------- queues as item lists

  ghost predicate Quieted(o: Out) {
    NonePartial(Items(o))
  }

  /** Unfolds the concatenation in `Items`. */
  lemma ItemsAt(o: Out, i: nat)
    requires i < |Items(o)|
    ensures Items(o)[i] ==
            if i < |o.control| then ControlItems(o.control)[i]
            else if i < |o.control| + |o.release| then ReleaseItems(o.release)[i - |o.control|]
            else RetainedItems(o.retained)[i - |o.control| - |o.release|]
  {
  }

  lemma SplitWf(a: seq<Item<Message>>, b: seq<Item<Message>>)
    ensures AllWf(a + b) <==> AllWf(a) && AllWf(b)
    ensures NonePartial(a + b) <==> NonePartial(a) && NonePartial(b)
  {
    var s := a + b;
    assert forall i | 0 <= i < |a| :: s[i] == a[i];
    assert forall i | 0 <= i < |b| :: s[|a| + i] == b[i];
    if AllWf(a) && AllWf(b) {
      assert forall i | 0 <= i < |s| :: s[i] == if i < |a| then a[i] else b[i - |a|];
    }
    if NonePartial(a) && NonePartial(b) {
      assert forall i | 0 <= i < |s| :: s[i] == if i < |a| then a[i] else b[i - |a|];
    }
  }

  /** The invariant on item lists, queue by queue. */
  lemma ByQueue(o: Out)
    ensures AllWf(Items(o)) <==>
              AllWf(ControlItems(o.control)) && AllWf(ReleaseItems(o.release)) && AllWf(RetainedItems(o.retained))
    ensures Quieted(o) <==>
              && NonePartial(ControlItems(o.control)) && NonePartial(ReleaseItems(o.release))
              && NonePartial(RetainedItems(o.retained))
    ensures Unstarted(Items(o)) ==
            Unstarted(ControlItems(o.control)) + Unstarted(ReleaseItems(o.release)) + Unstarted(RetainedItems(o.retained))
  {
    hide ControlItems, ReleaseItems, RetainedItems, AllWf, NonePartial, Unstarted;
    var c, l, t := ControlItems(o.control), ReleaseItems(o.release), RetainedItems(o.retained);
    SplitWf(c, l);
    SplitWf(c + l, t);
    UnstartedConcat(c, l);
    UnstartedConcat(c + l, t);
  }

  lemma QuietIsOnePartial(items: seq<Item<Message>>)
    requires NonePartial(items)
    ensures OnePartial(items)
  {
  }

  // ------------------------------------------------------------- admission

  lemma QueueControlItems(o: Out, action: ControlAction)
    requires |o.control| < MAX_PENDING_CONTROL
    ensures var p := QueueControl(o, action).value;
            var it := Item(ControlMessage(action), ControlBytes(action), Write(0));
            var c, rest := ControlItems(o.control), ReleaseItems(o.release) + RetainedItems(o.retained);
            Items(o) == c + rest && Items(p) == c + [it] + rest
  {
    hide ControlBytes, ReleaseBytes;
    var p := QueueControl(o, action).value;
    var it := Item(ControlMessage(action), ControlBytes(action), Write(0));
    assert ControlItems(p.control) == ControlItems(o.control) + [it];
  }

  lemma QueueControlKeeps(o: Out, action: ControlAction)
    requires Sound(o) && |o.control| < MAX_PENDING_CONTROL
    ensures var p := QueueControl(o, action).value;
            && Sound(p)
            && Begun(Items(p)) == Begun(Items(o)) && Current(Items(p)) == Current(Items(o))
            && (Quieted(o) ==> Quieted(p))
  {
    hide ControlItems, ReleaseItems, RetainedItems, Items, ControlBytes, NonePartial, Begun, Current, AllGood, AllWf,
         OnePartial;
    var it := Item(ControlMessage(action), ControlBytes(action), Write(0));
    var c, rest := ControlItems(o.control), ReleaseItems(o.release) + RetainedItems(o.retained);
    QueueControlItems(o, action);
    ControlBytesFrame(action);
    InsertUnstarted(c, it, rest);
    QuietInsert(c, it, rest);
  }

  lemma QuietInsert(a: seq<Item<Message>>, it: Item<Message>, b: seq<Item<Message>>)
    requires it.state == Write(0)
    ensures NonePartial(a + b) ==> NonePartial(a + [it] + b)
  {
    SplitWf(a, b);
    SplitWf(a, [it]);
    SplitWf(a + [it], b);
  }

  lemma QueueReleaseKeeps(o: Out, id: U16, reason: ReasonCode)
    requires Sound(o) && |o.release| < MAX_PENDING_RELEASE
    requires id != 0 && !HasRetained(o, id) && !HasRelease(o, id)
    ensures var p := QueueRelease(o, id, reason).value;
            && Sound(p)
            && Begun(Items(p)) == Begun(Items(o)) && Current(Items(p)) == Current(Items(o))
            && (Quieted(o) ==> Quieted(p))
  {
    hide AllGood, ControlBytes, ReleaseBytes, Begun, Current, AllWf, OnePartial, NonePartial;
    var p := QueueRelease(o, id, reason).value;
    var it := Item(ReleaseMessage(id, reason), ReleaseBytes(id, reason), Write(0));
    var a, b := ControlItems(o.control) + ReleaseItems(o.release), RetainedItems(o.retained);
    assert ReleaseItems(p.release) == ReleaseItems(o.release) + [it];
    assert Items(p) == a + [it] + b;
    ReleaseBytesFrame(id, reason);
    InsertUnstarted(a, it, b);
    QuietInsert(a, it, b);
  }

  /** Admitting a packet that fits appends it to the list and takes its bytes from the free part of the arena. */
  lemma RetainItems(o: Out, kind: OpKind, id: U16, bytes: seq<Byte>)
    requires |o.retained| < MAX_RETAINED
    ensures var p := Retain(o, kind, id, bytes).value;
            Items(p) == Items(o) + [Item(RetainedMessage(kind, id, bytes), bytes, Write(0))] + [] && Items(o) == Items(o) + []
  {
    hide ControlItems, ReleaseItems;
    var p := Retain(o, kind, id, bytes).value;
    assert RetainedItems(p.retained) == RetainedItems(o.retained) + [Item(RetainedMessage(kind, id, bytes), bytes, Write(0))];
  }

  lemma RetainKeeps(o: Out, kind: OpKind, id: U16, bytes: seq<Byte>)
    requires Sound(o) && |o.retained| < MAX_RETAINED
    requires id != 0 && !HasRetained(o, id) && !HasRelease(o, id)
    requires GoodRetained(Retained(kind, id, bytes, Write(0)))
    requires |bytes| <= RetainedCapacity(o) - RetainedBytes(o)
    ensures var p := Retain(o, kind, id, bytes).value;
            && Sound(p)
            && Begun(Items(p)) == Begun(Items(o)) && Current(Items(p)) == Current(Items(o))
            && RetainedBytes(p) == RetainedBytes(o) + |bytes|
            && (Quieted(o) ==> Quieted(p))
  {
    hide ControlItems, ReleaseItems, RetainedItems, Items, NonePartial, Begun, Current, IsFrame, AllWf, OnePartial,
         Meant;
    var it := Item(RetainedMessage(kind, id, bytes), bytes, Write(0));
    RetainItems(o, kind, id, bytes);
    assert it.Wf() by { FrameNotEmpty(bytes); }
    InsertUnstarted(Items(o), it, []);
    QuietInsert(Items(o), it, []);
    SumLenSnoc(o.retained, Retained(kind, id, bytes, Write(0)));
  }

  lemma FrameNotEmpty(bytes: seq<Byte>)
    requires IsFrame(bytes)
    ensures |bytes| >= 2
  {
  }

  // -------------------------------------------------------- acknowledgement

  lemma {:induction false} SumLenRemove(rs: seq<Retained>, i: nat)
    requires i < |rs|
    ensures SumLen(RemoveAt(rs, i)) == SumLen(rs) - |rs[i].bytes|
  {
    if i == 0 {
      assert RemoveAt(rs, 0) == rs[1..];
    } else {
      assert RemoveAt(rs, i)[1..] == RemoveAt(rs[1..], i - 1);
      SumLenRemove(rs[1..], i - 1);
    }
  }

  lemma WfRemove(items: seq<Item<Message>>, i: nat)
    requires i < |items|
    ensures AllWf(items) ==> AllWf(RemoveAt(items, i))
    ensures NonePartial(items) ==> NonePartial(RemoveAt(items, i))
  {
    var r := RemoveAt(items, i);
    assert forall k | 0 <= k < |r| :: r[k] == items[if k < i then k else k + 1];
  }

  /** Acknowledging removes exactly the packet of that kind and identifier, and nothing else changes. */
  lemma AckPacketExact(o: Out, kind: OpKind, id: U16)
    requires UniqueIds(o)
    ensures var p := AckPacket(o, kind, id);
            && p.control == o.control && p.release == o.release
            && p.capacity == o.capacity && p.workspace == o.workspace
            && (forall r :: r in p.retained <==> r in o.retained && !(r.kind == kind && r.id == id))
    ensures HasOp(o, kind, id) ==> |AckPacket(o, kind, id).retained| == |o.retained| - 1
    ensures !HasOp(o, kind, id) ==> AckPacket(o, kind, id) == o
  {
    hide RemoveAt;
    var i := RetainedPosition(o.retained, kind, id);
    if i < |o.retained| {
      RemovedElements(o.retained, i);
      var p := AckPacket(o, kind, id);
      forall r ensures r in p.retained <==> r in o.retained && !(r.kind == kind && r.id == id) {
        if r in o.retained && !(r.kind == kind && r.id == id) {
          var k :| 0 <= k < |o.retained| && o.retained[k] == r;
          assert k != i;
        }
        if r in p.retained {
          var k :| 0 <= k < |p.retained| && p.retained[k] == r;
          var j := if k < i then k else k + 1;
          assert o.retained[j] == r && j != i;
        }
      }
    }
  }

  lemma RemovedElements(rs: seq<Retained>, i: nat)
    requires i < |rs|
    ensures forall k | 0 <= k < |RemoveAt(rs, i)| :: RemoveAt(rs, i)[k] == rs[if k < i then k else k + 1]
    ensures forall k | 0 <= k < |rs| && k != i :: rs[k] in RemoveAt(rs, i)
  {
    var r := RemoveAt(rs, i);
    forall k | 0 <= k < |rs| && k != i ensures rs[k] in r {
      assert r[if k < i then k else k - 1] == rs[k];
    }
  }

  /** Dropping one retained packet keeps the others good, distinct and within the arena. */
  lemma RemoveRetained(o: Out, i: nat)
    requires Sound(o) && i < |o.retained|
    ensures var p := o.(retained := RemoveAt(o.retained, i));
            && Fits(p) && AllGood(p.retained) && UniqueIds(p) && ControlUnsent(p)
            && !HasRetained(p, o.retained[i].id)
  {
    hide GoodRetained, Items, AllWf, OnePartial;
    var p := o.(retained := RemoveAt(o.retained, i));
    SumLenRemove(o.retained, i);
    assert forall k | 0 <= k < |p.retained| :: p.retained[k] == o.retained[if k < i then k else k + 1];
  }

  lemma RemoveRetainedItems(o: Out, i: nat)
    requires i < |o.retained| && AllWf(Items(o)) && Quieted(o)
    ensures var p := o.(retained := RemoveAt(o.retained, i));
            AllWf(Items(p)) && Quieted(p) && OnePartial(Items(p))
  {
    var p := o.(retained := RemoveAt(o.retained, i));
    assert RetainedItems(p.retained) == RemoveAt(RetainedItems(o.retained), i);
    hide Items, AllWf, OnePartial, NonePartial, RetainedItems, ReleaseItems, ControlItems;
    WfRemove(RetainedItems(o.retained), i);
    ByQueue(o);
    ByQueue(p);
    QuietIsOnePartial(Items(p));
  }

  lemma AckPacketKeeps(o: Out, kind: OpKind, id: U16)
    requires Sound(o) && Quieted(o)
    ensures Sound(AckPacket(o, kind, id)) && Quieted(AckPacket(o, kind, id))
    ensures HasOp(o, kind, id) ==> !HasRetained(AckPacket(o, kind, id), id) && id != 0 && !HasRelease(o, id)
  {
    hide Items, AllWf, OnePartial, NonePartial, Fits, ControlUnsent;
    var i := RetainedPosition(o.retained, kind, id);
    if i < |o.retained| {
      RemoveRetained(o, i);
      RemoveRetainedItems(o, i);
      assert GoodRetained(o.retained[i]);
    }
  }

  lemma SwapRemoveElements<T>(s: seq<T>, i: nat)
    requires i < |s|
    ensures forall k | 0 <= k < |s| - 1 :: SwapRemove(s, i)[k] == if k == i then s[|s| - 1] else s[k]
  {
  }

  lemma RemoveRelease(o: Out, i: nat)
    requires Sound(o) && i < |o.release|
    ensures var p := o.(release := SwapRemove(o.release, i));
            && Fits(p) && AllGood(p.retained) && UniqueIds(p) && ControlUnsent(p)
            && (forall r :: r in p.release <==> r in o.release && r.id != o.release[i].id)
  {
    hide AllGood, Items, AllWf, OnePartial;
    var p := o.(release := SwapRemove(o.release, i));
    SwapRemoveElements(o.release, i);
    assert forall k | 0 <= k < |p.release| :: p.release[k] == o.release[if k == i then |o.release| - 1 else k];
    forall r | r in o.release && r.id != o.release[i].id ensures r in p.release {
      var k :| 0 <= k < |o.release| && o.release[k] == r;
      assert p.release[if k == |o.release| - 1 then i else k] == r;
    }
  }

  lemma RemoveReleaseItems(o: Out, i: nat)
    requires i < |o.release| && AllWf(Items(o)) && Quieted(o)
    ensures var p := o.(release := SwapRemove(o.release, i));
            AllWf(Items(p)) && Quieted(p) && OnePartial(Items(p))
  {
    var p := o.(release := SwapRemove(o.release, i));
    SwapRemoveElements(o.release, i);
    var items, after := ReleaseItems(o.release), ReleaseItems(p.release);
    assert forall k | 0 <= k < |after| :: after[k] == items[if k == i then |items| - 1 else k];
    assert AllWf(items) ==> AllWf(after);
    assert NonePartial(items) ==> NonePartial(after);
    hide Items, AllWf, OnePartial, NonePartial, RetainedItems, ReleaseItems, ControlItems;
    ByQueue(o);
    ByQueue(p);
    QuietIsOnePartial(Items(p));
  }

  lemma AckReleaseKeeps(o: Out, id: U16)
    requires Sound(o) && Quieted(o)
    ensures Sound(AckRelease(o, id)) && Quieted(AckRelease(o, id))
    ensures AckRelease(o, id).retained == o.retained && AckRelease(o, id).control == o.control
    ensures forall r :: r in AckRelease(o, id).release <==> r in o.release && r.id != id
  {
    hide Items, AllWf, OnePartial, NonePartial, Fits, ControlUnsent, UniqueIds, AllGood;
    var i := ReleasePosition(o.release, id);
    if i < |o.release| {
      RemoveRelease(o, i);
      RemoveReleaseItems(o, i);
    }
  }

  lemma MissingRelease(o: Out, id: U16)
    requires !HasRelease(o, id)
    ensures AckRelease(o, id) == o
  {
  }

  // ------------------------------------------------------------------ flush

  lemma {:induction false} UnflushedElements(cs: seq<PendingControl>)
    ensures forall c :: c in Unflushed(cs) <==> c in cs && !c.state.Flush?
  {
    if cs != [] {
      UnflushedElements(cs[1..]);
      assert cs == [cs[0]] + cs[1..];
    }
  }

  lemma {:induction false} UnflushedPending(cs: seq<PendingControl>)
    ensures Unstarted(ControlItems(Unflushed(cs))) == Unstarted(ControlItems(cs))
  {
    hide ControlBytes;
    if cs != [] {
      var rest := Unflushed(cs[1..]);
      UnflushedPending(cs[1..]);
      assert ControlItems(cs)[1..] == ControlItems(cs[1..]);
      if !cs[0].state.Flush? {
        assert Unflushed(cs)[1..] == rest;
        assert ControlItems(Unflushed(cs))[1..] == ControlItems(rest);
      } else {
        assert Unflushed(cs) == rest;
      }
    }
  }

  lemma {:induction false} UnstartedPointwise(a: seq<Item<Message>>, b: seq<Item<Message>>)
    requires |a| == |b|
    requires forall i | 0 <= i < |a| :: a[i].packet == b[i].packet
    requires forall i | 0 <= i < |a| :: Writable(a[i].state, false) == Writable(b[i].state, false)
    ensures Unstarted(a) == Unstarted(b)
  {
    if a != [] {
      assert forall i | 0 <= i < |a| - 1 :: a[1..][i] == a[i + 1] && b[1..][i] == b[i + 1];
      UnstartedPointwise(a[1..], b[1..]);
    }
  }

  lemma FlushQueues(o: Out)
    ensures var p := CompleteFlush(o);
            && Unstarted(ReleaseItems(p.release)) == Unstarted(ReleaseItems(o.release))
            && Unstarted(RetainedItems(p.retained)) == Unstarted(RetainedItems(o.retained))
            && (NonePartial(ReleaseItems(o.release)) ==> NonePartial(ReleaseItems(p.release)))
            && (NonePartial(RetainedItems(o.retained)) ==> NonePartial(RetainedItems(p.retained)))
            && (AllWf(ReleaseItems(o.release)) ==> AllWf(ReleaseItems(p.release)))
            && (AllWf(RetainedItems(o.retained)) ==> AllWf(RetainedItems(p.retained)))
  {
    var p := CompleteFlush(o);
    var l, l' := ReleaseItems(o.release), ReleaseItems(p.release);
    assert forall i | 0 <= i < |l| :: l'[i] == l[i].(state := FlushedState(l[i].state));
    UnstartedPointwise(l', l);
    var t, t' := RetainedItems(o.retained), RetainedItems(p.retained);
    assert forall i | 0 <= i < |t| :: t'[i] == t[i].(state := FlushedState(t[i].state));
    UnstartedPointwise(t', t);
  }

  lemma FlushControl(o: Out)
    ensures var p := CompleteFlush(o);
            && Unstarted(ControlItems(p.control)) == Unstarted(ControlItems(o.control))
            && (NonePartial(ControlItems(o.control)) ==> NonePartial(ControlItems(p.control)))
            && (AllWf(ControlItems(o.control)) ==> AllWf(ControlItems(p.control)))
            && (ControlUnsent(o) ==> ControlUnsent(p))
  {
    UnflushedElements(o.control);
    UnflushedPending(o.control);
    var p := CompleteFlush(o);
    forall i | 0 <= i < |p.control|
      ensures exists k :: 0 <= k < |o.control| && o.control[k] == p.control[i]
    {
      assert p.control[i] in p.control;
    }
    if NonePartial(ControlItems(o.control)) {
      forall i | 0 <= i < |p.control| ensures !Writable(ControlItems(p.control)[i].state, true) {
        var k :| 0 <= k < |o.control| && o.control[k] == p.control[i];
        assert ControlItems(o.control)[k] == ControlItems(p.control)[i];
      }
    }
    if AllWf(ControlItems(o.control)) {
      forall i | 0 <= i < |p.control| ensures ControlItems(p.control)[i].Wf() {
        var k :| 0 <= k < |o.control| && o.control[k] == p.control[i];
        assert ControlItems(o.control)[k] == ControlItems(p.control)[i];
      }
    }
  }

  lemma {:induction false} SumLenPointwise(a: seq<Retained>, b: seq<Retained>)
    requires |a| == |b| && forall i | 0 <= i < |a| :: |a[i].bytes| == |b[i].bytes|
    ensures SumLen(a) == SumLen(b)
  {
    if a != [] {
      assert forall i | 0 <= i < |a| - 1 :: a[1..][i] == a[i + 1] && b[1..][i] == b[i + 1];
      SumLenPointwise(a[1..], b[1..]);
    }
  }

  /** No packet is waiting for the flush that makes it sent. */
  ghost predicate NoFlush(o: Out) {
    && (forall i | 0 <= i < |o.control| :: !o.control[i].state.Flush?)
    && (forall i | 0 <= i < |o.release| :: !o.release[i].state.Flush?)
    && (forall i | 0 <= i < |o.retained| :: !o.retained[i].state.Flush?)
  }

  /** A flush completes what was fully written and leaves everything else exactly as pending as it was. */
  lemma CompleteFlushKeeps(o: Out)
    requires Sound(o) && Quieted(o)
    ensures var p := CompleteFlush(o);
            && Sound(p) && Quieted(p) && NoFlush(p)
            && Unstarted(Items(p)) == Unstarted(Items(o))
  {
    var p := CompleteFlush(o);
    hide Items, Unstarted, NonePartial, AllWf, ControlItems, ReleaseItems, RetainedItems, OnePartial;
    FlushQueues(o);
    FlushControl(o);
    UnflushedElements(o.control);
    ByQueue(o);
    ByQueue(p);
    SumLenPointwise(p.retained, o.retained);
    QuietIsOnePartial(Items(p));
    FlushGood(o);
  }

  lemma FlushGood(o: Out)
    requires AllGood(o.retained) && UniqueIds(o)
    ensures AllGood(CompleteFlush(o).retained) && UniqueIds(CompleteFlush(o)) && NoFlush(CompleteFlush(o))
  {
    hide Genuine;
    var p := CompleteFlush(o);
    UnflushedElements(o.control);
    assert forall i | 0 <= i < |p.control| :: p.control[i] in p.control;
    forall i | 0 <= i < |p.retained| ensures GoodRetained(p.retained[i]) {
      assert GoodRetained(o.retained[i]);
    }
  }

  // ----------------------------------------------------------------- replay

  lemma MarkDupGood(r: Retained)
    requires GoodRetained(r)
    ensures GoodRetained(MarkDup(r)) && |MarkDup(r).bytes| == |r.bytes|
    ensures MarkDup(r).bytes[1..] == r.bytes[1..]
  {
    hide Genuine;
    MarkDupGenuine(r);
  }

  /** After re-arming, everything is pending from its first byte, in scan order. */
  lemma ArmReplayKeeps(o: Out)
    requires Sound(o)
    ensures var p := ArmReplay(o);
            && Sound(p) && Quieted(p) && NoFlush(p)
            && (forall i | 0 <= i < |Items(p)| :: Items(p)[i].state == Write(0))
            && RetainedBytes(p) == RetainedBytes(o)
  {
    hide Genuine, ControlBytes, ReleaseBytes;
    var p := ArmReplay(o);
    forall i | 0 <= i < |p.retained|
      ensures GoodRetained(p.retained[i]) && |p.retained[i].bytes| == |o.retained[i].bytes| >= 2
    {
      assert GoodRetained(o.retained[i]);
      MarkDupGood(o.retained[i]);
      GenuineLength(o.retained[i]);
    }
    SumLenPointwise(p.retained, o.retained);
    forall i | 0 <= i < |Items(p)| ensures Items(p)[i].state == Write(0) && Items(p)[i].Wf() {
      ItemsAt(p, i);
      RearmedItem(p, i);
    }
  }

  lemma GenuineLength(r: Retained)
    requires GoodRetained(r)
    ensures |r.bytes| >= 2
  {
    hide IsFrame, Meant;
    FrameNotEmpty(r.bytes);
  }

  lemma RearmedItem(p: Out, i: nat)
    requires i < |Items(p)|
    requires forall k | 0 <= k < |p.retained| :: |p.retained[k].bytes| >= 2
    ensures |Items(p)[i].bytes| >= 2
  {
    hide ControlBytes, ReleaseBytes;
    ItemsAt(p, i);
    if i < |p.control| {
      ControlBytesFrame(p.control[i].action);
    } else if i < |p.control| + |p.release| {
      var r := p.release[i - |p.control|];
      ReleaseBytesFrame(r.id, r.reason);
    }
  }


  lemma ClearKeeps(o: Out)
    requires o.workspace <= o.capacity
    ensures Sound(Clear(o)) && Quieted(Clear(o)) && NoFlush(Clear(o))
  {
    hide Items, Genuine;
    var p := Clear(o);
    NoItems(p);
    assert SumLen([]) == 0;
  }

  lemma NoItems(o: Out)
    requires o.control == [] && o.release == [] && o.retained == []
    ensures Items(o) == []
  {
  }

  // ---------------------------------------------------------------- writing

  /** Bytes a slot still has to write. */
  function Left(it: Item<Message>): int {
    if it.state.Write? then |it.bytes| - it.state.written else 0
  }

  function AdvanceSlot(o: Out, s: Slot, count: nat): Out
    requires SlotIn(o, s) && ItemAt(o, s).state.Write?
  {
    SetSlot(o, s, SetWritten(ItemAt(o, s).state.written + count, |ItemAt(o, s).bytes|))
  }

  lemma AdvanceSlotIsAdvance(o: Out, s: Slot, count: nat)
    requires SlotIn(o, s) && ItemAt(o, s).state.Write?
    ensures Place(o, s) < |Items(o)| && Items(o)[Place(o, s)] == ItemAt(o, s)
    ensures Items(AdvanceSlot(o, s, count)) == Advance(Items(o), Place(o, s), count)
  {
    PlaceIsItem(o, s);
    SetSlotIsUpdate(o, s, SetWritten(ItemAt(o, s).state.written + count, |ItemAt(o, s).bytes|));
  }

  lemma SetSlotFixed(o: Out, s: Slot, state: SendState)
    requires SlotIn(o, s) && Fits(o) && AllGood(o.retained) && UniqueIds(o) && ControlUnsent(o) && !state.Sent?
    ensures var p := SetSlot(o, s, state);
            Fits(p) && AllGood(p.retained) && UniqueIds(p) && ControlUnsent(p)
  {
    hide Genuine;
    var p := SetSlot(o, s, state);
    SumLenPointwise(p.retained, o.retained);
    forall i | 0 <= i < |p.retained| ensures GoodRetained(p.retained[i]) {
      assert GoodRetained(o.retained[i]);
    }
  }

  /** One write by the scheduler, seen from the stream: either the packet goes on, or it is finished. */
  lemma WriteStep(o: Out, count: nat)
    requires Sound(o) && NextStep(o).Some?
    requires var s := NextStep(o).value; SlotIn(o, s) && ItemAt(o, s).state.Write?
    requires 1 <= count <= Left(ItemAt(o, NextStep(o).value))
    ensures var s := NextStep(o).value;
            var it := ItemAt(o, s);
            var p := AdvanceSlot(o, s, count);
            var w := it.state.written;
            && Sound(p)
            && (count < Left(it) ==>
                  && Pending(Items(p)) == Pending(Items(o))
                  && Begun(Items(p)) == Begun(Items(o)) + it.bytes[w..w + count]
                  && NextStep(p) == Some(s))
            && (count == Left(it) ==>
                  && Quieted(p)
                  && Pending(Items(o)) == [it.packet] + Pending(Items(p))
                  && Begun(Items(o)) + it.bytes[w..w + count] == it.bytes
                  && Begun(Items(p)) == [])
  {
    hide Items, AllGood, UniqueIds, ControlUnsent, Fits, AllWf, Pending, Begun, NonePartial, OnePartial, NextStep,
         Next;
    var s := NextStep(o).value;
    var it := ItemAt(o, s);
    var p := AdvanceSlot(o, s, count);
    NextStepIsNext(o);
    AdvanceSlotIsAdvance(o, s, count);
    SetSlotFixed(o, s, SetWritten(it.state.written + count, |it.bytes|));
    if count < Left(it) {
      AdvancePartway(Items(o), Place(o, s), count);
      NextStepIsNext(p);
      SamePlace(p, s, Place(o, s));
    } else {
      AdvanceFinishes(Items(o), Place(o, s), count);
      QuietIsOnePartial(Items(p));
    }
  }

  lemma SamePlace(p: Out, s: Slot, place: nat)
    requires SlotIn(p, s) && Place(p, s) == place == Next(Items(p)) < |Items(p)|
    ensures NextStep(p) == Some(s)
  {
    NextStepIsNext(p);
  }

  /** The selected slot exists and is writable. */
  lemma NextStepWritable(o: Out)
    requires NextStep(o).Some?
    ensures SlotIn(o, NextStep(o).value) && ItemAt(o, NextStep(o).value).state.Write?
  {
    hide Items;
    NextStepIsNext(o);
    PlaceIsItem(o, NextStep(o).value);
  }

  /** When nothing is selected, nothing is pending, and only flushed or sent packets remain queued. */
  lemma NothingNext(o: Out)
    requires NextStep(o).None?
    ensures Quieted(o) && Unstarted(Items(o)) == []
    ensures forall i | 0 <= i < |o.control| :: !o.control[i].state.Write?
    ensures forall i | 0 <= i < |o.release| :: !o.release[i].state.Write?
    ensures forall i | 0 <= i < |o.retained| :: !o.retained[i].state.Write?
  {
    NextStepIsNext(o);
    Drained(Items(o));
    forall i | 0 <= i < |o.control| ensures !o.control[i].state.Write? {
      PlaceIsItem(o, ControlSlot(i));
    }
    forall i | 0 <= i < |o.release| ensures !o.release[i].state.Write? {
      PlaceIsItem(o, ReleaseSlot(i));
    }
    forall i | 0 <= i < |o.retained| ensures !o.retained[i].state.Write? {
      PlaceIsItem(o, RetainedSlot(i));
    }
  }

  /** Nothing selected and nothing awaiting a flush: the queue is drained. */
  ghost predicate AllSent(o: Out) {
    && o.control == []
    && (forall i | 0 <= i < |o.release| :: o.release[i].state.Sent?)
    && (forall i | 0 <= i < |o.retained| :: o.retained[i].state.Sent?)
  }

  lemma DrainedIsAllSent(o: Out)
    requires NextStep(o).None? && NoFlush(o) && ControlUnsent(o)
    ensures AllSent(o)
  {
    NothingNext(o);
    assert |o.control| == 0;
  }
}
