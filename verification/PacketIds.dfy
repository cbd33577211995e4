/** Packet identifier allocation (`next_packet_id` in minimq/src/mqtt_client/session/state.rs), section 2.2.1. */
module PacketIds {
  import opened Bytes
  import opened Outbound

  type PacketId = n: int | 0 < n < 0x1_0000 witness 1

  /** The next identifier, skipping zero. */
  function Succ(id: PacketId): PacketId {
    if id == 0xFFFF then 1 else id + 1
  }

  /** `n` identifiers further on, in closed form. */
  function Ahead(start: PacketId, n: nat): PacketId {
    (start - 1 + n) % 0xFFFF + 1
  }

  lemma AheadSucc(start: PacketId, n: nat)
    ensures Ahead(start, 0) == start
    ensures Ahead(start, n + 1) == Succ(Ahead(start, n))
  {
  }

  lemma AheadDistinct(start: PacketId, i: nat, j: nat)
    requires i < j < 0xFFFF
    ensures Ahead(start, i) != Ahead(start, j)
  {
  }

  predicate Live(o: Out, id: U16) {
    HasRetained(o, id) || HasRelease(o, id)
  }

  // --------------------------------------------------------- pigeonhole

  ghost function RetainedIds(rs: seq<Retained>): (s: set<U16>)
    ensures |s| <= |rs|
    ensures forall i | 0 <= i < |rs| :: rs[i].id in s
  {
    if rs == [] then {}
    else
      assert forall i | 0 < i < |rs| :: rs[i] == rs[1..][i - 1];
      RetainedIds(rs[1..]) + {rs[0].id}
  }

  ghost function ReleaseIds(rs: seq<PendingRelease>): (s: set<U16>)
    ensures |s| <= |rs|
    ensures forall i | 0 <= i < |rs| :: rs[i].id in s
  {
    if rs == [] then {}
    else
      assert forall i | 0 < i < |rs| :: rs[i] == rs[1..][i - 1];
      ReleaseIds(rs[1..]) + {rs[0].id}
  }

  ghost function Drawn(start: PacketId, n: nat): (s: set<U16>)
    requires n < 0xFFFF
    ensures |s| == n
    ensures forall x :: x in s <==> exists i | 0 <= i < n :: x == Ahead(start, i)
  {
    if n == 0 then {}
    else
      var rest := Drawn(start, n - 1);
      assert Ahead(start, n - 1) !in rest by {
        forall i | 0 <= i < n - 1 ensures Ahead(start, i) != Ahead(start, n - 1) { AheadDistinct(start, i, n - 1); }
      }
      rest + {Ahead(start, n - 1)}
  }

  lemma SubsetSize(a: set<U16>, b: set<U16>)
    requires a <= b
    ensures |a| <= |b|
  {
    if a != {} {
      var x :| x in a;
      SubsetSize(a - {x}, b - {x});
    }
  }

  /** Consecutive draws that all hit live identifiers are no more than there are queue entries. */
  lemma DrawsBounded(o: Out, start: PacketId, n: nat)
    requires n < 0xFFFF && forall i | 0 <= i < n :: Live(o, Ahead(start, i))
    ensures n <= |o.retained| + |o.release|
  {
    var live := RetainedIds(o.retained) + ReleaseIds(o.release);
    forall x | x in Drawn(start, n) ensures x in live {
      var i :| 0 <= i < n && x == Ahead(start, i);
      assert Live(o, Ahead(start, i));
    }
    SubsetSize(Drawn(start, n), live);
    SetUnionSize(RetainedIds(o.retained), ReleaseIds(o.release));
  }

  lemma SetUnionSize(a: set<U16>, b: set<U16>)
    ensures |a + b| <= |a| + |b|
  {
    assert a + b == a + (b - a);
    SubsetSize(b - a, b);
  }

  // ---------------------------------------------------------- allocation

  /** The number of draws it takes to reach a free identifier, starting with draw `n`. */
  ghost function Draws(o: Out, start: PacketId, n: nat := 0): (k: nat)
    requires |o.retained| <= MAX_RETAINED && |o.release| <= MAX_PENDING_RELEASE
    requires n < 0xFFFF && forall i | 0 <= i < n :: Live(o, Ahead(start, i))
    ensures n <= k <= MAX_RETAINED + MAX_PENDING_RELEASE
    ensures !Live(o, Ahead(start, k))
    ensures forall i | 0 <= i < k :: Live(o, Ahead(start, i))
    decreases MAX_RETAINED + MAX_PENDING_RELEASE - n
  {
    DrawsBounded(o, start, n);
    if !Live(o, Ahead(start, n)) then n
    else
      assert n < MAX_RETAINED + MAX_PENDING_RELEASE by { DrawsBounded(o, start, n + 1); }
      Draws(o, start, n + 1)
  }

  ghost function FreshId(o: Out, start: PacketId): (id: PacketId)
    requires |o.retained| <= MAX_RETAINED && |o.release| <= MAX_PENDING_RELEASE
    ensures !Live(o, id)
  {
    Ahead(start, Draws(o, start))
  }

  /**
    * `next_packet_id`: terminates after at most seventeen draws, including across the wrap-around,
    * with an identifier no retained packet or pending release uses.
    */
  method NextPacketId(ghost o: Out, used: seq<U16>, cursor: PacketId) returns (id: PacketId, next: PacketId, draws: nat)
    requires |o.retained| <= MAX_RETAINED && |o.release| <= MAX_PENDING_RELEASE
    requires forall x: U16 :: x in used <==> Live(o, x)
    ensures id == FreshId(o, cursor) && next == Succ(id)
    ensures id !in used
    ensures 1 <= draws <= MAX_RETAINED + MAX_PENDING_RELEASE + 1
  {
    assert Ahead(cursor, 0) == cursor;
    hide Live, Ahead, Draws;
    next, draws := cursor, 0;
    while true
      invariant draws <= Draws(o, cursor)
      invariant next == Ahead(cursor, draws)
      decreases Draws(o, cursor) - draws
    {
      id := next;
      AheadSucc(cursor, draws);
      next := Succ(next);
      draws := draws + 1;
      if id !in used {
        return;
      }
    }
  }
}
