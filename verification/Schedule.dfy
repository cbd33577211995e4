/**
  * The write scheduler shared by the three outbound queues (`SendState` and `next_step` in
  * minimq/src/mqtt_client/outbound.rs), over one list of items in scan order.
  */
module Schedule {
  import opened Bytes

  /** Progress of one outbound packet on the current connection. */
  datatype SendState = Write(written: nat) | Flush | Sent

  function SetWritten(written: nat, len: nat): SendState {
    if written >= len then Flush else Write(written)
  }

  /** `write_offset(in_progress).is_some()`. */
  predicate Writable(s: SendState, inProgress: bool) {
    s.Write? && (s.written != 0) == inProgress
  }

  /** One queued packet: what it is, its bytes, and how far it has been written. */
  datatype Item<P> = Item(packet: P, bytes: seq<Byte>, state: SendState) {
    predicate Wf() {
      state.Write? ==> state.written < |bytes|
    }
  }

  ghost predicate AllWf<P>(items: seq<Item<P>>) {
    forall i | 0 <= i < |items| :: items[i].Wf()
  }

  /** First item the scan stops at, or the length when there is none. */
  function First<P>(items: seq<Item<P>>, inProgress: bool): (i: nat)
    ensures i <= |items|
    ensures i < |items| ==> Writable(items[i].state, inProgress)
    ensures forall k | 0 <= k < i :: !Writable(items[k].state, inProgress)
  {
    if items == [] then 0
    else if Writable(items[0].state, inProgress) then 0
    else 1 + First(items[1..], inProgress)
  }

  lemma {:induction false} FirstConcat<P>(a: seq<Item<P>>, b: seq<Item<P>>, inProgress: bool)
    ensures First(a + b, inProgress) ==
            if First(a, inProgress) < |a| then First(a, inProgress) else |a| + First(b, inProgress)
  {
    if a == [] {
      assert a + b == b;
    } else {
      assert (a + b)[1..] == a[1..] + b;
      FirstConcat(a[1..], b, inProgress);
    }
  }

  /** The item `next_step` selects: one in progress if any, else the first not started. */
  function Next<P>(items: seq<Item<P>>): (i: nat)
    ensures i <= |items|
    ensures i < |items| ==> items[i].state.Write?
    ensures i == |items| ==> forall k | 0 <= k < |items| :: !items[k].state.Write?
  {
    var i := First(items, true);
    if i < |items| then i else First(items, false)
  }

  /** At most one packet is partly written. */
  ghost predicate OnePartial<P>(items: seq<Item<P>>) {
    forall i, j | 0 <= i < |items| && 0 <= j < |items|
      && Writable(items[i].state, true) && Writable(items[j].state, true) :: i == j
  }

  ghost predicate NonePartial<P>(items: seq<Item<P>>) {
    forall i | 0 <= i < |items| :: !Writable(items[i].state, true)
  }

  /** The packets not started, in scan order. */
  function Unstarted<P>(items: seq<Item<P>>): seq<P> {
    if items == [] then []
    else (if Writable(items[0].state, false) then [items[0].packet] else []) + Unstarted(items[1..])
  }

  /** The packet in progress, if any. */
  function Current<P>(items: seq<Item<P>>): seq<P> {
    var i := First(items, true);
    if i < |items| then [items[i].packet] else []
  }

  /** The packets still to be completed on this connection, in the order they will be. */
  function Pending<P>(items: seq<Item<P>>): seq<P> {
    Current(items) + Unstarted(items)
  }

  /** The bytes of the packet in progress already given to the transport. */
  function Begun<P>(items: seq<Item<P>>): seq<Byte> {
    var i := First(items, true);
    if i < |items| && items[i].Wf() then items[i].bytes[..items[i].state.written] else []
  }

  // ------------------------------------------------------------- writing

  /** Item `i` after `count` more of its bytes were accepted. */
  function Advance<P>(items: seq<Item<P>>, i: nat, count: nat): (r: seq<Item<P>>)
    requires i < |items| && items[i].state.Write?
    ensures |r| == |items|
  {
    items[i := items[i].(state := SetWritten(items[i].state.written + count, |items[i].bytes|))]
  }

  lemma {:induction false} UnstartedDrops<P>(items: seq<Item<P>>, i: nat, it: Item<P>)
    requires i < |items| && i == First(items, false) && !Writable(it.state, false)
    ensures Unstarted(items) == [items[i].packet] + Unstarted(items[i := it])
  {
    if i == 0 {
      assert items[0 := it][1..] == items[1..];
    } else {
      assert items[i := it][1..] == items[1..][i - 1 := it];
      UnstartedDrops(items[1..], i - 1, it);
    }
  }

  lemma {:induction false} UnstartedSame<P>(items: seq<Item<P>>, i: nat, it: Item<P>)
    requires i < |items| && !Writable(items[i].state, false) && !Writable(it.state, false)
    ensures Unstarted(items[i := it]) == Unstarted(items)
  {
    if i == 0 {
      assert items[0 := it][1..] == items[1..];
    } else {
      assert items[i := it][1..] == items[1..][i - 1 := it];
      UnstartedSame(items[1..], i - 1, it);
    }
  }

  lemma FirstIs<P>(items: seq<Item<P>>, inProgress: bool, i: nat)
    requires i <= |items| && (i < |items| ==> Writable(items[i].state, inProgress))
    requires forall k | 0 <= k < i :: !Writable(items[k].state, inProgress)
    ensures First(items, inProgress) == i
  {
  }

  /** The written bytes continue the packet in progress, or start the next one in order. */
  lemma AdvanceStarts<P>(items: seq<Item<P>>, i: nat, count: nat)
    requires AllWf(items) && OnePartial(items) && i == Next(items) < |items|
    requires 1 <= count <= |items[i].bytes| - items[i].state.written
    ensures Begun(items) == items[i].bytes[..items[i].state.written]
    ensures Pending(items) != [] && Pending(items)[0] == items[i].packet
  {
    if First(items, true) == |items| {
      UnstartedDrops(items, i, items[i].(state := Flush));
    }
  }

  /**
    * A write that does not finish the selected packet leaves it the one in progress, with exactly the
    * accepted bytes added, and leaves the order of completion as it was.
    */
  lemma AdvancePartway<P>(items: seq<Item<P>>, i: nat, count: nat)
    requires AllWf(items) && OnePartial(items) && i == Next(items) < |items|
    requires 1 <= count < |items[i].bytes| - items[i].state.written
    ensures var after, w := Advance(items, i, count), items[i].state.written;
            && AllWf(after) && OnePartial(after)
            && Pending(after) == Pending(items)
            && Begun(after) == Begun(items) + items[i].bytes[w..w + count]
            && Next(after) == i
  {
    var after, w := Advance(items, i, count), items[i].state.written;
    AdvanceStarts(items, i, count);
    FirstIs(after, true, i);
    if First(items, true) < |items| {
      UnstartedSame(items, i, after[i]);
    } else {
      UnstartedDrops(items, i, after[i]);
    }
    assert items[i].bytes[..w + count] == items[i].bytes[..w] + items[i].bytes[w..w + count];
  }

  /** A write that finishes the selected packet takes it, and only it, off the order of completion. */
  lemma AdvanceFinishes<P>(items: seq<Item<P>>, i: nat, count: nat)
    requires AllWf(items) && OnePartial(items) && i == Next(items) < |items|
    requires count == |items[i].bytes| - items[i].state.written
    ensures var after, w := Advance(items, i, count), items[i].state.written;
            && AllWf(after) && NonePartial(after)
            && Pending(items) == [items[i].packet] + Pending(after)
            && Begun(items) + items[i].bytes[w..w + count] == items[i].bytes
            && Begun(after) == []
  {
    var after, w := Advance(items, i, count), items[i].state.written;
    AdvanceStarts(items, i, count);
    FirstIs(after, true, |after|);
    if First(items, true) < |items| {
      UnstartedSame(items, i, after[i]);
    } else {
      UnstartedDrops(items, i, after[i]);
    }
    assert items[i].bytes[..w] + items[i].bytes[w..w + count] == items[i].bytes;
  }

  // ------------------------------------------------------- other changes

  /** Nothing in progress: no begun bytes, and pending is what is not started. */
  lemma Quiet<P>(items: seq<Item<P>>)
    requires AllWf(items) && NonePartial(items)
    ensures OnePartial(items) && Begun(items) == [] && Pending(items) == Unstarted(items)
  {
    FirstIs(items, true, |items|);
  }

  /** Nothing writable: nothing pending at all. */
  lemma {:induction false} Drained<P>(items: seq<Item<P>>)
    requires Next(items) == |items|
    ensures NonePartial(items) && Unstarted(items) == []
  {
    assert forall k | 0 <= k < |items| :: !items[k].state.Write?;
    NothingUnstarted(items);
  }

  lemma {:induction false} NothingUnstarted<P>(items: seq<Item<P>>)
    requires forall k | 0 <= k < |items| :: !items[k].state.Write?
    ensures Unstarted(items) == []
  {
    if items != [] {
      assert forall k | 0 <= k < |items[1..]| :: items[1..][k] == items[k + 1];
      NothingUnstarted(items[1..]);
    }
  }

  lemma {:induction false} UnstartedConcat<P>(a: seq<Item<P>>, b: seq<Item<P>>)
    ensures Unstarted(a + b) == Unstarted(a) + Unstarted(b)
  {
    if a == [] {
      assert a + b == b;
    } else {
      assert (a + b)[1..] == a[1..] + b;
      UnstartedConcat(a[1..], b);
      var head := if Writable(a[0].state, false) then [a[0].packet] else [];
      assert Unstarted(a + b) == head + Unstarted((a + b)[1..]);
      assert head + (Unstarted(a[1..]) + Unstarted(b)) == (head + Unstarted(a[1..])) + Unstarted(b);
    }
  }

  /** When nothing has been started, everything is pending in scan order. */
  lemma {:induction false} AllUnstarted<P>(items: seq<Item<P>>)
    requires forall k | 0 <= k < |items| :: items[k].state == Write(0)
    ensures |Unstarted(items)| == |items|
    ensures forall k | 0 <= k < |items| :: Unstarted(items)[k] == items[k].packet
  {
    if items != [] {
      assert forall k | 0 <= k < |items[1..]| :: items[1..][k] == items[k + 1];
      AllUnstarted(items[1..]);
    }
  }

  /** Inserting an item that is not started does not disturb the packet in progress. */
  lemma InsertUnstarted<P>(a: seq<Item<P>>, it: Item<P>, b: seq<Item<P>>)
    requires AllWf(a + b) && OnePartial(a + b) && it.state == Write(0) && it.bytes != []
    ensures AllWf(a + [it] + b) && OnePartial(a + [it] + b)
    ensures Begun(a + [it] + b) == Begun(a + b) && Current(a + [it] + b) == Current(a + b)
  {
    var all, more := a + b, a + [it] + b;
    forall i | 0 <= i < |more|
      ensures more[i].Wf()
      ensures more[i] == Inserted(all, |a|, it, i)
    {
      if i != |a| {
        assert all[if i < |a| then i else i - 1].Wf();
      }
    }
    forall i, j | 0 <= i < |more| && 0 <= j < |more| && Writable(more[i].state, true) && Writable(more[j].state, true)
      ensures i == j
    {
      assert more[i] == Inserted(all, |a|, it, i) && more[j] == Inserted(all, |a|, it, j);
      assert all[if i < |a| then i else i - 1] == more[i];
      assert all[if j < |a| then j else j - 1] == more[j];
    }
    var i := First(all, true);
    var j := if i < |a| then i else i + 1;
    forall k | 0 <= k < j ensures !Writable(more[k].state, true) {
      assert more[k] == Inserted(all, |a|, it, k);
    }
    FirstIs(more, true, j);
  }

  /** Element `i` of `all` with `it` inserted at `at`. */
  function Inserted<P>(all: seq<Item<P>>, at: nat, it: Item<P>, i: nat): Item<P>
    requires at <= |all| && i <= |all|
  {
    if i < at then all[i] else if i == at then it else all[i - 1]
  }

  /** Unwritten bytes, the measure of work left before the next flush. */
  function Unwritten<P>(items: seq<Item<P>>): nat
    requires AllWf(items)
  {
    if items == [] then 0
    else
      assert AllWf(items[1..]) by { assert forall k | 0 <= k < |items[1..]| :: items[1..][k] == items[k + 1]; }
      (if items[0].state.Write? then |items[0].bytes| - items[0].state.written else 0) + Unwritten(items[1..])
  }

  lemma {:induction false} AdvanceReduces<P>(items: seq<Item<P>>, i: nat, count: nat)
    requires AllWf(items) && i < |items| && items[i].state.Write?
    requires 1 <= count <= |items[i].bytes| - items[i].state.written
    ensures AllWf(Advance(items, i, count))
    ensures Unwritten(Advance(items, i, count)) == Unwritten(items) - count
  {
    var after := Advance(items, i, count);
    assert forall k | 0 <= k < |items| :: after[k] == if k == i then after[i] else items[k];
    assert after[1..] == if i == 0 then items[1..] else Advance(items[1..], i - 1, count);
    if i > 0 {
      assert forall k | 0 <= k < |items[1..]| :: items[1..][k] == items[k + 1];
      AdvanceReduces(items[1..], i - 1, count);
    }
  }
}
