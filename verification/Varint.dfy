/** Variable byte integers, MQTT Version 5.0 section 1.5.5 (minimq/src/varint.rs). */
module Varint {
  import opened Bytes

  const MAX_BYTES: nat := 4
  const MAX: U32 := 0xFFF_FFFF

  /** The canonical encoding: seven data bits a byte, least significant group first. */
  function Encode(v: nat): (s: seq<Byte>)
    ensures |s| >= 1
  {
    if v < 0x80 then [v] else [v % 0x80 + 0x80] + Encode(v / 0x80)
  }

  /** What reading a variable byte integer from a run of bytes can end in. */
  datatype Scan =
    | Done(value: nat, len: nat)   // complete, occupying `len` bytes
    | Incomplete                   // every byte read so far announces another
    | Invalid(len: nat)            // refused after reading `len` bytes

  /** Reference reader: decodes one byte and recurses on the more significant groups. */
  function Read(s: seq<Byte>, room: nat := MAX_BYTES): (r: Scan)
    ensures r.Done? ==> 1 <= r.len <= |s| && r.len <= room
    ensures r.Invalid? ==> r.len <= |s| && r.len <= room && (room > 0 ==> r.len >= 1)
    ensures r.Incomplete? ==> |s| < room
    decreases room
  {
    if room == 0 then Invalid(0)
    else if s == [] then Incomplete
    else if s[0] < 0x80 then Done(s[0], 1)
    else match Read(s[1..], room - 1)
      case Incomplete => Incomplete
      case Invalid(n) => Invalid(n + 1)
      case Done(v, n) =>
        // A zero most significant group is an overlong encoding.
        if v == 0 then Invalid(n + 1) else Done(s[0] - 0x80 + 0x80 * v, n + 1)
  }

  function Limit(room: nat): (n: nat)
    ensures n >= 1
  {
    if room == 0 then 1 else 0x80 * Limit(room - 1)
  }

  lemma LimitOfFour()
    ensures Limit(MAX_BYTES) == MAX + 1
  {
    assert Limit(0) == 1;
    assert Limit(1) == 0x80;
    assert Limit(2) == 0x4000;
    assert Limit(3) == 0x20_0000;
  }

  lemma {:induction false} ReadEncoded(v: nat, rest: seq<Byte>, room: nat)
    requires v < Limit(room) && room > 0
    ensures Read(Encode(v) + rest, room) == Done(v, |Encode(v)|)
    decreases room
  {
    var s := Encode(v) + rest;
    if v >= 0x80 {
      assert room > 1 by { assert Limit(0) == 1; }
      assert s[1..] == Encode(v / 0x80) + rest;
      ReadEncoded(v / 0x80, rest, room - 1);
    }
  }

  lemma {:induction false} ReadIsCanonical(s: seq<Byte>, room: nat)
    requires Read(s, room).Done?
    ensures Read(s, room).value < Limit(room)
    ensures s[..Read(s, room).len] == Encode(Read(s, room).value)
    decreases room
  {
    if s[0] < 0x80 {
      assert s[..1] == [s[0]];
      assert Limit(room) >= 0x80;
    } else {
      ReadIsCanonical(s[1..], room - 1);
      var Done(v, n) := Read(s[1..], room - 1);
      assert s[..n + 1] == [s[0]] + s[1..][..n];
    }
  }

  /** Decoding inverts encoding, whatever bytes follow. */
  lemma RoundTrip(v: nat, rest: seq<Byte>)
    requires v <= MAX
    ensures Read(Encode(v) + rest) == Done(v, |Encode(v)|)
  {
    LimitOfFour();
    ReadEncoded(v, rest, MAX_BYTES);
  }

  /** A sequence decodes to `v` in `n` bytes exactly when it starts with the canonical encoding of `v`. */
  lemma Canonical(s: seq<Byte>, v: nat, n: nat)
    ensures Read(s) == Done(v, n) <==> v <= MAX && n == |Encode(v)| && Encode(v) <= s
  {
    LimitOfFour();
    if Read(s) == Done(v, n) {
      ReadIsCanonical(s, MAX_BYTES);
      assert s[..n] <= s;
    }
    if v <= MAX && n == |Encode(v)| && Encode(v) <= s {
      ReadEncoded(v, s[n..], MAX_BYTES);
      assert s == Encode(v) + s[n..];
    }
  }

  ghost predicate StrictPrefix(s: seq<Byte>, t: seq<Byte>) {
    s < t
  }

  lemma {:induction false} IncompleteExtends(s: seq<Byte>, room: nat) returns (v: nat)
    requires Read(s, room).Incomplete?
    ensures 0 < v < Limit(room) && StrictPrefix(s, Encode(v))
    decreases room
  {
    if s == [] {
      v := 1;
      assert Limit(room) == 0x80 * Limit(room - 1);
    } else {
      var w := IncompleteExtends(s[1..], room - 1);
      v := s[0] - 0x80 + 0x80 * w;
      assert Encode(v) == [s[0]] + Encode(w);
      assert s == [s[0]] + s[1..];
    }
  }

  lemma {:induction false} PrefixIsIncomplete(s: seq<Byte>, v: nat, room: nat)
    requires v < Limit(room) && room > 0 && s < Encode(v)
    ensures Read(s, room).Incomplete?
    decreases room
  {
    if s != [] {
      assert v >= 0x80;
      assert room > 1 by { assert Limit(0) == 1; }
      assert s[1..] < Encode(v / 0x80);
      PrefixIsIncomplete(s[1..], v / 0x80, room - 1);
    }
  }

  /** The reader asks for more input exactly on the proper prefixes of canonical encodings. */
  lemma IncompleteExactly(s: seq<Byte>)
    ensures Read(s).Incomplete? <==> exists v: nat :: v <= MAX && StrictPrefix(s, Encode(v))
  {
    LimitOfFour();
    if Read(s).Incomplete? {
      var v := IncompleteExtends(s, MAX_BYTES);
      assert v <= MAX && StrictPrefix(s, Encode(v));
    }
    if v: nat :| v <= MAX && StrictPrefix(s, Encode(v)) {
      PrefixIsIncomplete(s, v, MAX_BYTES);
    }
  }

  lemma {:induction false} LengthWithin(v: nat, room: nat)
    requires room > 0
    ensures |Encode(v)| <= room <==> v < Limit(room)
    decreases room
  {
    if v >= 0x80 {
      if room == 1 {
        assert Limit(1) == 0x80 * Limit(0);
      } else {
        LengthWithin(v / 0x80, room - 1);
      }
    } else {
      assert Limit(room) >= 0x80;
    }
  }

  /** Four bytes suffice exactly for the values MQTT allows. */
  lemma FitsFourBytes(v: nat)
    ensures |Encode(v)| <= MAX_BYTES <==> v <= MAX
  {
    LimitOfFour();
    LengthWithin(v, MAX_BYTES);
  }

  lemma {:induction false} LengthMonotone(v: nat, w: nat)
    requires v <= w
    ensures |Encode(v)| <= |Encode(w)|
    decreases w
  {
    if v >= 0x80 {
      LengthMonotone(v / 0x80, w / 0x80);
    }
  }

  /** `Varint::encoded_len`. */
  method EncodedLen(v: nat) returns (len: nat)
    ensures len == |Encode(v)|
  {
    var value := v;
    len := 1;
    while value >= 0x80
      invariant len + |Encode(value)| == |Encode(v)| + 1
    {
      value := value / 0x80;
      len := len + 1;
    }
  }

  /** `write_mqtt_u32_varint`, returning the filled part of the four-byte scratch buffer. */
  method Write(v: U32) returns (out: Option<seq<Byte>>)
    ensures out == if v <= MAX then Some(Encode(v)) else None
  {
    if v > MAX {
      return None;
    }
    var value: nat := v;
    var data: seq<Byte> := [];
    while true
      invariant data + Encode(value) == Encode(v)
      decreases value
    {
      var byte: Byte := value % 0x80;
      var next := value / 0x80;
      if next != 0 {
        byte := byte + 0x80;
      }
      FitsFourBytes(v);
      assert |data| < MAX_BYTES;
      assert next != 0 ==> Encode(value) == [byte] + Encode(next);
      data := data + [byte];
      if next == 0 {
        return Some(data);
      }
      value := next;
    }
  }

  /** The low groups already accumulated into `acc`, put back in front of the result for the rest. */
  function Resume(acc: nat, scale: nat, index: nat, tail: Scan): Scan {
    match tail
    case Done(v, n) =>
      if index > 0 && v == 0 then Invalid(index + n) else Done(acc + v * scale, index + n)
    case Incomplete => Incomplete
    case Invalid(n) => Invalid(index + n)
  }

  /** One more low group in front of the result for the rest: the recursive case of `Read`. */
  function Prepend(part: nat, tail: Scan): Scan {
    match tail
    case Incomplete => Incomplete
    case Invalid(n) => Invalid(n + 1)
    case Done(v, n) => if v == 0 then Invalid(n + 1) else Done(part + 0x80 * v, n + 1)
  }

  lemma ReadContinues(s: seq<Byte>, room: nat)
    requires room > 0 && s != [] && s[0] >= 0x80
    ensures Read(s, room) == Prepend(s[0] % 0x80, Read(s[1..], room - 1))
  {
  }

  lemma ResumePrepend(acc: nat, scale: nat, index: nat, part: nat, tail: Scan)
    ensures Resume(acc, scale, index, Prepend(part, tail)) ==
            Resume(acc + part * scale, scale * 0x80, index + 1, tail)
  {
    if tail.Done? {
      var v := tail.value;
      assert (part + 0x80 * v) * scale == part * scale + v * (scale * 0x80);
    }
  }

  /** `probe_mqtt_u32_varint` and `read_mqtt_u32_varint`: the accumulating loop over at most four bytes. */
  method Probe(s: seq<Byte>) returns (r: Scan)
    ensures r == Read(s)
  {
    var value: nat, scale: nat, index: nat, room: nat := 0, 1, 0, MAX_BYTES;
    ghost var rest := Read(s, room);
    ghost var whole := rest;
    assert s[index..] == s;
    while room > 0
      invariant index <= |s| && index + room == MAX_BYTES
      invariant rest == Read(s[index..], room)
      invariant whole == Resume(value, scale, index, rest)
    {
      if index == |s| {
        return Incomplete;
      }
      var part: nat := s[index] % 0x80;
      var group: nat := part * scale;
      if s[index] < 0x80 {
        assert rest == Done(part, 1);
        if index != 0 && part == 0 {
          return Invalid(index + 1);
        }
        return Done(value + group, index + 1);
      }
      ReadContinues(s[index..], room);
      assert s[index..][1..] == s[index + 1..];
      rest := Read(s[index + 1..], room - 1);
      ResumePrepend(value, scale, index, part, rest);
      value, scale, index, room := value + group, scale * 0x80, index + 1, room - 1;
    }
    return Invalid(MAX_BYTES);
  }
}
