/** The packet serializer: linear writes, then a backfilled fixed header (minimq/src/ser/mod.rs). */
module Serializer {
  import opened Bytes
  import opened Wire
  import opened Packets
  import Varint

  // --------------------------------------------------------- field chains

  /** The fields of a packet pushed one after the other. */
  function Chain(parts: seq<Fields>): Fields {
    if parts == [] then Whole([]) else parts[0].Then(Chain(parts[1..]))
  }

  lemma ChainOne(f: Fields)
    ensures Chain([f]) == f
  {
    assert Chain([f]) == f.Then(Chain([]));
    assert f.bytes + [] == f.bytes;
  }

  /** The first `i` parts went through and pushed `done`. */
  ghost predicate Passed(parts: seq<Fields>, i: nat, done: seq<Byte>)
    requires i <= |parts|
  {
    Chain(parts) == Whole(done).Then(Chain(parts[i..]))
  }

  lemma PassedNone(parts: seq<Fields>)
    ensures Passed(parts, 0, [])
  {
    assert parts[0..] == parts;
  }

  lemma PassedOne(parts: seq<Fields>, i: nat, done: seq<Byte>)
    requires i < |parts| && Passed(parts, i, done)
    ensures parts[i].complete ==> Passed(parts, i + 1, done + parts[i].bytes)
    ensures !parts[i].complete ==> Chain(parts) == Fields(done + parts[i].bytes, false)
    ensures |Chain(parts).bytes| >= |done + parts[i].bytes|
  {
    assert parts[i..][0] == parts[i] && parts[i..][1..] == parts[i + 1..];
    var rest := Chain(parts[i + 1..]);
    assert done + (parts[i].bytes + rest.bytes) == (done + parts[i].bytes) + rest.bytes;
  }

  lemma PassedAll(parts: seq<Fields>, done: seq<Byte>)
    requires Passed(parts, |parts|, done)
    ensures Chain(parts) == Whole(done)
  {
    assert parts[|parts|..] == [];
    assert done + [] == done;
  }

  datatype Pushed = Complete | Stopped(error: SerError)

  /** What pushing `fields` into `room` free bytes reports. */
  function PushResult(room: nat, fields: Fields): Pushed {
    if |fields.bytes| > room then Stopped(InsufficientMemory)
    else if !fields.complete then Stopped(Custom)
    else Complete
  }

  // ------------------------------------------------------ writing in place

  /** `a` with `data` written at `at`. */
  function Overwrite(a: seq<Byte>, at: nat, data: seq<Byte>): (b: seq<Byte>)
    requires at + |data| <= |a|
    ensures |b| == |a|
  {
    a[..at] + data + a[at + |data|..]
  }

  /** Everything outside `[lo, hi)` is the same in both sequences. */
  ghost predicate SameOutside(a: seq<Byte>, b: seq<Byte>, lo: nat, hi: nat) {
    lo <= hi <= |a| == |b| && a[..lo] == b[..lo] && a[hi..] == b[hi..]
  }

  lemma OverwriteOutside(a: seq<Byte>, at: nat, data: seq<Byte>, lo: nat, hi: nat)
    requires lo <= at && at + |data| <= hi <= |a|
    ensures SameOutside(Overwrite(a, at, data), a, lo, hi)
  {
  }

  lemma OverwriteExtends(a: seq<Byte>, from: nat, at: nat, data: seq<Byte>)
    requires from <= at && at + |data| <= |a|
    ensures Overwrite(a, at, data)[from..at + |data|] == a[from..at] + data
  {
  }

  lemma OverwriteKeepsBefore(a: seq<Byte>, at: nat, data: seq<Byte>, from: nat, to: nat)
    requires from <= to <= at && at + |data| <= |a|
    ensures Overwrite(a, at, data)[from..to] == a[from..to]
  {
  }

  lemma SliceOfSlice(a: seq<Byte>, src: nat, end: nat, from: nat, to: nat)
    requires src <= from <= to <= end <= |a|
    ensures a[src..end][from - src..to - src] == a[from..to]
  {
    var s, t := a[src..end][from - src..to - src], a[from..to];
    assert forall k | 0 <= k < |t| :: s[k] == t[k];
  }

  /** Reading back part of a block that was moved to the front. */
  lemma OverwriteMoved(a: seq<Byte>, at: nat, src: nat, end: nat, from: nat, to: nat)
    requires at <= src <= from <= to <= end <= |a|
    ensures Overwrite(a, at, a[src..end])[from - (src - at)..to - (src - at)] == a[from..to]
  {
    var data := a[src..end];
    var b := Overwrite(a, at, data);
    assert b[at..at + |data|] == data;
    assert b[from - (src - at)..to - (src - at)] == b[at..at + |data|][from - src..to - src];
    SliceOfSlice(a, src, end, from, to);
  }

  /** Copy `data` into the array, as `copy_from_slice` does. */
  method Blit(buf: array<Byte>, at: nat, data: seq<Byte>)
    requires at + |data| <= buf.Length
    modifies buf
    ensures buf[..] == Overwrite(old(buf[..]), at, data)
  {
    for i := 0 to |data|
      invariant forall k | 0 <= k < i :: buf[at + k] == data[k]
      invariant forall k | 0 <= k < buf.Length && !(at <= k < at + i) :: buf[k] == old(buf[k])
    {
      buf[at + i] := data[i];
    }
  }

  /** `copy_within`, moving bytes towards the front. */
  method CopyWithin(buf: array<Byte>, from: nat, to: nat, dst: nat)
    requires dst <= from <= to <= buf.Length
    modifies buf
    ensures buf[..] == Overwrite(old(buf[..]), dst, old(buf[..])[from..to])
  {
    ghost var all, data := buf[..], buf[from..to];
    for i := 0 to to - from
      invariant forall k | 0 <= k < i :: buf[dst + k] == data[k]
      invariant forall k | 0 <= k < buf.Length && !(dst <= k < dst + i) :: buf[k] == all[k]
    {
      buf[dst + i] := buf[from + i];
    }
  }

  // -------------------------------------------------------- the serializer

  /** A serializer over the slice `buf[lo..hi]`; `index` counts from `lo`. */
  class MqttSerializer {
    const buf: array<Byte>
    const lo: nat
    const hi: nat
    var index: nat

    ghost predicate Valid()
      reads this
    {
      && lo <= hi <= buf.Length
      && MAX_FIXED_HEADER_SIZE <= index
      && (index > MAX_FIXED_HEADER_SIZE ==> lo + index <= hi)
    }

    /** The variable header and payload written so far. */
    ghost function Body(): (body: seq<Byte>)
      requires Valid()
      reads this, buf
      ensures |body| == index - MAX_FIXED_HEADER_SIZE
    {
      if index == MAX_FIXED_HEADER_SIZE then [] else buf[..][lo + MAX_FIXED_HEADER_SIZE..lo + index]
    }

    constructor (buf: array<Byte>, lo: nat, hi: nat)
      requires lo <= hi <= buf.Length
      ensures Valid() && this.buf == buf && this.lo == lo && this.hi == hi
      ensures index == MAX_FIXED_HEADER_SIZE && Body() == []
    {
      this.buf, this.lo, this.hi := buf, lo, hi;
      index := MAX_FIXED_HEADER_SIZE;
    }

    function Free(): nat
      requires Valid()
      reads this
    {
      Room(hi - lo, index)
    }

    /** Append `data`, or refuse it and write nothing. */
    method PushBytes(data: seq<Byte>) returns (ok: bool)
      requires Valid()
      modifies this`index, buf
      ensures Valid() && SameOutside(buf[..], old(buf[..]), lo, hi)
      ensures ok <==> |data| <= old(Free())
      ensures ok ==> Body() == old(Body()) + data && Free() == old(Free()) - |data|
      ensures !ok ==> index == old(index) && buf[..] == old(buf[..])
    {
      hide Overwrite;
      if Free() < |data| {
        return false;
      }
      if data != [] {
        ghost var all := buf[..];
        Blit(buf, lo + index, data);
        OverwriteOutside(all, lo + index, data, lo, hi);
        OverwriteExtends(all, lo + MAX_FIXED_HEADER_SIZE, lo + index, data);
        index := index + |data|;
      }
      return true;
    }

    /** Push the fields of a packet in order, stopping at the first failure. */
    method Serialize(parts: seq<Fields>) returns (r: Pushed)
      requires Valid()
      modifies this`index, buf
      ensures Valid() && SameOutside(buf[..], old(buf[..]), lo, hi)
      ensures r == PushResult(old(Free()), Chain(parts))
      ensures r.Complete? ==> Body() == old(Body()) + Chain(parts).bytes
    {
      hide Chain, Passed, Body;
      ghost var room, start := Free(), Body();
      ghost var done: seq<Byte> := [];
      PassedNone(parts);
      for i := 0 to |parts|
        invariant Valid() && SameOutside(buf[..], old(buf[..]), lo, hi)
        invariant Body() == start + done && |done| <= room && Free() == room - |done|
        invariant Passed(parts, i, done)
      {
        PassedOne(parts, i, done);
        var ok := PushBytes(parts[i].bytes);
        if !ok {
          return Stopped(InsufficientMemory);
        }
        if !parts[i].complete {
          return Stopped(Custom);
        }
        done := done + parts[i].bytes;
      }
      PassedAll(parts, done);
      return Complete;
    }

    /** Push a PUBLISH header, then let the payload write itself into what is left. */
    method SerializePublish(parts: seq<Fields>, payload: Payload) returns (r: Result<(), PublishError>)
      requires Valid()
      modifies this`index, buf
      ensures Valid() && SameOutside(buf[..], old(buf[..]), lo, hi)
      ensures var fields, room := Chain(parts), old(Free());
              match PushResult(room, fields)
              case Stopped(e) => r == Err(Encoding(e))
              case Complete =>
                match payload(room - |fields.bytes|)
                case Failed => r == Err(PayloadFailed)
                case Written(bytes) =>
                  if |bytes| > room - |fields.bytes| then r == Err(Encoding(InsufficientMemory))
                  else r.Ok? && Body() == old(Body()) + fields.bytes + bytes
    {
      hide Chain, Body;
      var pushed := Serialize(parts);
      if pushed.Stopped? {
        return Err(Encoding(pushed.error));
      }
      BodyGrew(|old(Body())|, |Chain(parts).bytes|);
      match payload(Free()) {
        case Failed => return Err(PayloadFailed);
        case Written(bytes) =>
          var ok := PushBytes(bytes);
          return if ok then Ok(()) else Err(Encoding(InsufficientMemory));
      }
    }

    lemma BodyGrew(before: nat, more: nat)
      requires Valid() && |Body()| == before + more
      ensures index == MAX_FIXED_HEADER_SIZE + before + more
    {
    }

    /** `finalize`: the remaining length and the header byte go right before the body. */
    method Finalize(header: Byte) returns (r: Result<nat, SerError>)
      requires Valid()
      modifies buf
      ensures SameOutside(buf[..], old(buf[..]), lo, hi)
      ensures match Packets.Finalize(hi - lo, header, old(Body()))
              case Err(e) => r == Err(e)
              case Ok(packet) => r.Ok? && r.value + |packet| == index && lo + index <= hi
                                 && buf[..][lo + r.value..lo + index] == packet
    {
      hide Varint.Encode, Overwrite;
      var len := TruncateU32(index - MAX_FIXED_HEADER_SIZE);
      var encoded := Varint.Write(len);
      if encoded.None? || hi - lo < MAX_FIXED_HEADER_SIZE {
        return Err(InsufficientMemory);
      }
      var head := [header] + encoded.value;
      Varint.FitsFourBytes(len);
      var at := MAX_FIXED_HEADER_SIZE - |head|;
      ghost var all, body := buf[..], Body();
      Blit(buf, lo + at, head);
      OverwriteOutside(all, lo + at, head, lo, hi);
      Backfilled(all, lo + at, head, lo + index);
      assert buf[..][lo + at..lo + index] == head + body;
      return Ok(at);
    }
  }

  lemma Backfilled(a: seq<Byte>, at: nat, head: seq<Byte>, end: nat)
    requires at + |head| <= end <= |a|
    ensures Overwrite(a, at, head)[at..end] == head + a[at + |head|..end]
  {
  }

  /** `encode_with_offset`: on success the packet occupies `len` bytes from `lo + offset`. */
  method EncodeWithOffset(buf: array<Byte>, lo: nat, hi: nat, header: Byte, parts: seq<Fields>)
    returns (r: Result<(nat, nat), SerError>)
    requires lo <= hi <= buf.Length
    modifies buf
    ensures SameOutside(buf[..], old(buf[..]), lo, hi)
    ensures match EncodeInto(hi - lo, header, Chain(parts))
            case Err(e) => r == Err(e)
            case Ok(packet) =>
              && r.Ok? && r.value.1 == |packet| && lo + r.value.0 + r.value.1 <= hi
              && buf[..][lo + r.value.0..lo + r.value.0 + r.value.1] == packet
              && r.value.0 + r.value.1 == MAX_FIXED_HEADER_SIZE + |Chain(parts).bytes|
  {
    hide Chain, Frame;
    var s := new MqttSerializer(buf, lo, hi);
    var pushed := s.Serialize(parts);
    if pushed.Stopped? {
      return Err(pushed.error);
    }
    assert s.Body() == Chain(parts).bytes;
    var offset := s.Finalize(header);
    if offset.Err? {
      return Err(offset.error);
    }
    return Ok((offset.value, s.index - offset.value));
  }

  /** `encode_publish_with_offset`: the payload writes itself into the remainder, then is committed. */
  method EncodePublishWithOffset(buf: array<Byte>, lo: nat, hi: nat, header: Byte, parts: seq<Fields>, payload: Payload)
    returns (r: Result<(nat, nat), PublishError>)
    requires lo <= hi <= buf.Length
    modifies buf
    ensures SameOutside(buf[..], old(buf[..]), lo, hi)
    ensures match EncodePublishInto(hi - lo, header, Chain(parts), payload)
            case Err(e) => r == Err(e)
            case Ok(packet) =>
              && r.Ok? && r.value.1 == |packet| && lo + r.value.0 + r.value.1 <= hi
              && buf[..][lo + r.value.0..lo + r.value.0 + r.value.1] == packet
  {
    hide Chain, Packets.Finalize;
    var s := new MqttSerializer(buf, lo, hi);
    var pushed := s.SerializePublish(parts, payload);
    if pushed.Err? {
      return Err(pushed.error);
    }
    assert [] + Chain(parts).bytes == Chain(parts).bytes;
    var offset := s.Finalize(header);
    if offset.Err? {
      return Err(Encoding(offset.error));
    }
    return Ok((offset.value, s.index - offset.value));
  }
}
