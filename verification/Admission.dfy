/** What admission makes of a request (minimq/src/mqtt_client/session/operations.rs). */
module Admission {
  import opened Answers
  import opened Bytes
  import opened ClientPackets
  import opened Meaning
  import opened Outbound
  import opened OutboundLaws
  import opened PacketIds
  import opened Packets
  import opened Properties
  import opened Received
  import opened Schedule
  import opened Session
  import Greetings
  import Varint
  import Wire

  /** The QoS a publication goes out with: as asked, or lowered to the broker's maximum if the client allows that. */
  ghost predicate Grants(c: Conn, asked: Wire.QoS, q: Wire.QoS) {
    if c.rt.maxQos.None? || asked.Code() <= c.rt.maxQos.value.Code() then q == asked
    else c.config.downgradeQos && q == c.rt.maxQos.value
  }

  /** Nothing but the packet identifier cursor differs. */
  ghost predicate OnlyDrew(c: Conn, d: Conn) {
    d == c.(core := c.core.(cursor := d.core.cursor))
  }

  /** One packet more is kept, under the identifier returned, not yet written and within the broker's limit. */
  ghost predicate KeepsOne(c: Conn, p: Out, kind: OpKind, id: U16) {
    var o := c.core.out;
    var n := |o.retained|;
    && n < 8 && |p.retained| == n + 1 && p.retained[..n] == o.retained && p == o.(retained := p.retained)
    && var r := p.retained[n];
       && r.kind == kind && r.id == id && id != 0 && r.state == Write(0) && Allows(c.rt, |r.bytes|)
       && !HasRetained(o, id) && !HasRelease(o, id)
  }

  lemma RetainedOne(c: Conn, kind: OpKind, id: PacketId, packet: seq<Byte>)
    requires !HasRetained(c.core.out, id) && !HasRelease(c.core.out, id)
    ensures var (d, r) := RetainChecked(c, kind, id, packet);
            if Allows(c.rt, |packet|) && |c.core.out.retained| < 8 then
              && r == Ok(id) && KeepsOne(c, d.core.out, kind, id) && d == WithOut(c, d.core.out)
              && d.core.out.retained[|c.core.out.retained|].bytes == packet
            else d == c && r.Err?
  {
  }

  lemma UnderAdmitted(c: Conn, id: PacketId, topic: Wire.Text, b: Block, q: Wire.QoS, retain: bool, payload: Payload)
    returns (data: seq<Byte>)
    requires c.core.out.capacity < 0x1_0000_0000 && !HasRetained(c.core.out, id) && !HasRelease(c.core.out, id)
    requires !q.AtMostOnce?
    ensures var (d, r) := AdmitUnder(c, id, topic, b, q, retain, payload);
            && (r.Err? ==> d == c)
            && (r.Ok? ==>
                  && r.value == id
                  && KeepsOne(c, d.core.out, if q.ExactlyOnce? then PublishExactlyOnce else PublishAtLeastOnce, id)
                  && FromBuffer(d.core.out.retained[|c.core.out.retained|].bytes)
                     == Ok(Packet.Publish(topic, Some(id), NormalBlock(b), data, retain, q, false))
                  && c.rt.quota > 0 && d.rt == c.rt.(quota := c.rt.quota - 1))
  {
    hide EncodePublishInto, PublishFields, RetainedBytes, FromBuffer, RetainChecked, KeepsOne, NormalBlock;
    data := [];
    var room := RetainedCapacity(c.core.out) - RetainedBytes(c.core.out);
    var kind := if q.ExactlyOnce? then PublishExactlyOnce else PublishAtLeastOnce;
    var header, fields := Wire.PublishHeader(q, retain, false), PublishFields(topic, Some(id), b);
    if |c.core.out.retained| < MAX_RETAINED && c.rt.quota > 0 && CanRetain(c.core.out) {
      var packet := EncodePublishInto(room, header, fields, payload);
      if packet.Ok? {
        EncodedPublishReads(room, topic, id, b, q, retain, payload);
        data := payload(Packets.Room(room, MAX_FIXED_HEADER_SIZE + |fields.bytes|)).bytes;
        RetainedOne(c, kind, id, packet.value);
      }
    }
  }

  /** What a publication that was admitted says, whatever space, quota and limits allowed. */
  lemma PublishAdmitted(c: Conn, topic: Wire.Text, b: Block, asked: Wire.QoS, retain: bool, payload: Payload)
    returns (q: Wire.QoS, data: seq<Byte>)
    requires Fits(c.core.out) && c.core.out.capacity < 0x1_0000_0000
    ensures var (d, r) := Admit(c, PublishRequest(topic, b, asked, retain, payload));
            && (r.Err? ==> OnlyDrew(c, d))
            && (r.Ok? ==>
                  && Grants(c, asked, q) && !q.AtMostOnce?
                  && KeepsOne(c, d.core.out, if q.ExactlyOnce? then PublishExactlyOnce else PublishAtLeastOnce, r.value)
                  && FromBuffer(d.core.out.retained[|c.core.out.retained|].bytes)
                     == Ok(Packet.Publish(topic, Some(r.value), NormalBlock(b), data, retain, q, false))
                  && c.rt.quota > 0 && d.rt == c.rt.(quota := c.rt.quota - 1))
  {
    hide FreshId, FromBuffer, KeepsOne, Fits, NormalBlock, AdmitUnder;
    var e := EffectiveQos(c, asked);
    q, data := if e.Some? then e.value else asked, [];
    if c.link.live && e.Some? && !q.AtMostOnce? {
      var (d, id) := Session.TakeId(c);
      data := UnderAdmitted(d, id, topic, b, q, retain, payload);
      SameKeeps(c, d, AdmitUnder(d, id, topic, b, q, retain, payload).0.core.out,
                if q.ExactlyOnce? then PublishExactlyOnce else PublishAtLeastOnce, id);
    }
  }

  lemma SameKeeps(c: Conn, d: Conn, p: Out, kind: OpKind, id: U16)
    requires d.core.out == c.core.out && d.rt == c.rt
    ensures KeepsOne(d, p, kind, id) ==> KeepsOne(c, p, kind, id)
  {
  }

  // ------------------------------------------------------------------ exact terms

  /** The bytes of a PUBLISH body in front of its payload. */
  function HeadLength(topic: Wire.Text, b: Block): nat {
    2 + |topic| + 2 + |BlockFields(b).bytes|
  }

  lemma PublishHead(topic: Wire.Text, id: U16, b: Block)
    ensures PublishFields(topic, Some(id), b).complete <==> |topic| <= 0xFFFF && BlockFields(b).complete
    ensures PublishFields(topic, Some(id), b).complete ==> |PublishFields(topic, Some(id), b).bytes| == HeadLength(topic, b)
  {
    hide BlockFields;
  }

  lemma FrameLength(header: Byte, body: seq<Byte>)
    requires |body| <= Varint.MAX
    ensures |Frame(header, body)| == 1 + |Varint.Encode(|body|)| + |body|
  {
    hide Varint.Encode;
  }

  lemma PublishEncodes(room: nat, topic: Wire.Text, id: U16, b: Block, header: Byte, payload: Payload)
    requires 5 <= room < 0x1_0000_0000
    ensures var data := payload(if 5 + HeadLength(topic, b) <= room then room - 5 - HeadLength(topic, b) else 0);
            var r := EncodePublishInto(room, header, PublishFields(topic, Some(id), b), payload);
            && (r.Ok? <==> && |topic| <= 0xFFFF && BlockFields(b).complete && 5 + HeadLength(topic, b) <= room && data.Written?
                           && 5 + HeadLength(topic, b) + |data.bytes| <= room
                           && HeadLength(topic, b) + |data.bytes| <= Varint.MAX)
            && (r.Ok? ==> var len := HeadLength(topic, b) + |data.bytes|; |r.value| == 1 + |Varint.Encode(len)| + len)
  {
    hide PublishFields, Varint.Encode, Frame, BlockFields;
    PublishHead(topic, id, b);
    var fields := PublishFields(topic, Some(id), b);
    if fields.complete && 5 + HeadLength(topic, b) <= room {
      var data := payload(room - 5 - HeadLength(topic, b));
      if data.Written? && |data.bytes| <= room - 5 - HeadLength(topic, b)
         && |fields.bytes + data.bytes| <= Varint.MAX {
        FrameLength(header, fields.bytes + data.bytes);
      }
    }
  }

  /** Whether a publication above QoS 0 is admitted: a slot, quota, space, a payload that writes itself, and the limit. */
  ghost predicate Welcome(c: Conn, topic: Wire.Text, b: Block, payload: Payload) {
    var room := c.core.out.capacity - c.core.out.workspace - RetainedBytes(c.core.out);
    var head := HeadLength(topic, b);
    && |c.core.out.retained| < 8 && c.rt.quota > 0 && room >= 5 && |topic| <= 0xFFFF && BlockFields(b).complete
    && 5 + head <= room && payload(room - 5 - head).Written?
    && var len := head + |payload(room - 5 - head).bytes|;
       5 + len <= room && len <= Varint.MAX && Allows(c.rt, 1 + |Varint.Encode(len)| + len)
  }

  /** A publication is admitted exactly on a live connection, at a QoS above 0, and if it is welcome. */
  lemma PublishAdmittedIff(c: Conn, topic: Wire.Text, b: Block, asked: Wire.QoS, retain: bool, payload: Payload)
    requires Fits(c.core.out) && c.core.out.capacity < 0x1_0000_0000
    ensures Admit(c, PublishRequest(topic, b, asked, retain, payload)).1.Ok? <==>
              && c.link.live && (exists q: Wire.QoS :: Grants(c, asked, q) && !q.AtMostOnce?)
              && Welcome(c, topic, b, payload)
  {
    hide EncodePublishInto, PublishFields, FreshId, BlockFields, Varint.Encode, HeadLength, SumLen;
    var q := EffectiveQos(c, asked);
    assert forall x: Wire.QoS :: Grants(c, asked, x) <==> q == Some(x);
    if c.link.live && q.Some? && !q.value.AtMostOnce? {
      var (d, id) := Session.TakeId(c);
      var room := RetainedCapacity(d.core.out) - RetainedBytes(d.core.out);
      if 5 <= room {
        PublishEncodes(room, topic, id, b, Wire.PublishHeader(q.value, retain, false), payload);
      }
    }
  }

  /** Why a publication is refused: no slot, no quota or space to begin with, or a packet the broker does not accept. */
  lemma PublishRefused(c: Conn, topic: Wire.Text, b: Block, asked: Wire.QoS, retain: bool, payload: Payload)
    requires Fits(c.core.out) && c.core.out.capacity < 0x1_0000_0000
    requires c.link.live && exists q: Wire.QoS :: Grants(c, asked, q) && !q.AtMostOnce?
    ensures var r := Admit(c, PublishRequest(topic, b, asked, retain, payload)).1;
            var room := c.core.out.capacity - c.core.out.workspace - RetainedBytes(c.core.out);
            var full := |c.core.out.retained| == 8;
            && (r == Err(InflightExhausted) <==> full)
            && (r == Err(NotReady) <==> !full && (c.rt.quota == 0 || room < 5))
            && (r == Err(PacketTooLarge) ==> c.rt.maxPacket.Some? && Welcome(c.(rt := c.rt.(maxPacket := None)), topic, b, payload))
            && (r == Err(PayloadRefused) ==> exists n: nat :: payload(n).Failed?)
  {
    hide EncodePublishInto, PublishFields, FreshId, BlockFields, Varint.Encode, HeadLength, SumLen;
    var q := EffectiveQos(c, asked);
    assert forall x: Wire.QoS :: Grants(c, asked, x) <==> q == Some(x);
    var (d, id) := Session.TakeId(c);
    var room := RetainedCapacity(d.core.out) - RetainedBytes(d.core.out);
    if 5 <= room {
      PublishEncodes(room, topic, id, b, Wire.PublishHeader(q.value, retain, false), payload);
      PublishFails(room, Wire.PublishHeader(q.value, retain, false), PublishFields(topic, Some(id), b), payload);
    }
  }

  lemma PublishFails(room: nat, header: Byte, fields: Wire.Fields, payload: Payload)
    ensures EncodePublishInto(room, header, fields, payload) == Err(PayloadFailed) ==> exists n: nat :: payload(n).Failed?
  {
    hide Finalize;
  }

  // ------------------------------------------------------------------ identifiers

  /** Draws one after the other; whatever else happens in between leaves the cursor alone. */
  ghost predicate Draws(cs: seq<Conn>) {
    && (forall i | 0 <= i < |cs| :: Fits(cs[i].core.out))
    && forall i | 0 <= i < |cs| - 1 :: cs[i + 1].core.cursor == Session.TakeId(cs[i]).0.core.cursor
  }

  /** Identifier `j` lies `n` steps beyond identifier `i`, at most seventeen for each draw. */
  lemma {:induction false} DrawsAdvance(cs: seq<Conn>, i: nat, j: nat) returns (n: nat)
    requires Draws(cs) && i <= j < |cs|
    ensures j - i <= n <= 17 * (j - i)
    ensures Session.TakeId(cs[j]).1 == Ahead(Session.TakeId(cs[i]).1, n)
    decreases j - i
  {
    hide Fits, FreshId, Ahead;
    var id := Session.TakeId(cs[i]).1;
    if i == j {
      n := 0;
      AheadSucc(id, 0);
    } else {
      n := DrawsAdvance(cs, i, j - 1);
      var k := OneDraw(cs[j - 1], cs[j]);
      assert cs[j - 1 + 1] == cs[j];
      AheadOn(id, n, k);
      n := n + k;
    }
  }

  lemma OneDraw(c: Conn, d: Conn) returns (k: nat)
    requires Fits(c.core.out) && Fits(d.core.out) && d.core.cursor == Session.TakeId(c).0.core.cursor
    ensures 1 <= k <= 17 && Session.TakeId(d).1 == Ahead(Session.TakeId(c).1, k)
  {
    hide Live;
    var id := Session.TakeId(c).1;
    k := 1 + PacketIds.Draws(d.core.out, d.core.cursor);
    AheadSucc(id, 0);
    AheadOn(id, 1, k - 1);
  }

  lemma AheadOn(start: PacketId, m: nat, n: nat)
    ensures Ahead(Ahead(start, m), n) == Ahead(start, m + n)
  {
    var a := start - 1 + m;
    assert (a % 0xFFFF + n) % 0xFFFF == (a + n) % 0xFFFF;
  }

  /** An identifier is not drawn again within the next 3854 draws, even if it was given back at once. */
  lemma NotReissued(cs: seq<Conn>, i: nat, j: nat)
    requires Draws(cs) && i < j < |cs| && j - i <= 3854
    ensures Session.TakeId(cs[i]).1 != Session.TakeId(cs[j]).1
  {
    hide Fits, FreshId, Ahead;
    var n := DrawsAdvance(cs, i, j);
    var id := Session.TakeId(cs[i]).1;
    AheadDistinct(id, 0, n);
    AheadSucc(id, 0);
  }

  // ------------------------------------------------------ SUBSCRIBE, UNSUBSCRIBE

  lemma FiltersAdmitted(c: Conn, kind: OpKind, fields: U16 -> Wire.Fields)
    requires Fits(c.core.out) && c.core.out.capacity < 0x1_0000_0000 && !kind.IsPublish()
    ensures var (d, r) := AdmitFilters(c, kind, fields);
            && (r.Err? ==> OnlyDrew(c, d))
            && (r.Ok? ==>
                  && KeepsOne(c, d.core.out, kind, r.value) && d.rt == c.rt
                  && fields(r.value).complete && |fields(r.value).bytes| <= Varint.MAX
                  && d.core.out.retained[|c.core.out.retained|].bytes
                     == Frame(if kind.Subscribe? then 0x82 else 0xA2, fields(r.value).bytes))
  {
    hide EncodeInto, FreshId, RetainedBytes, RetainChecked, KeepsOne, Fits, Frame;
    if |c.core.out.retained| < MAX_RETAINED {
      var (d, id) := Session.TakeId(c);
      var header := Wire.ControlHeader(if kind == OpKind.Subscribe then Wire.Subscribe else Wire.Unsubscribe);
      var packet := EncodeInto(ScratchLen(d.core.out), header, fields(id));
      if packet.Ok? {
        Greetings.ScratchWithin(d.core.out);
        Greetings.EncodedBody(ScratchLen(d.core.out), header, fields(id));
        RetainedOne(d, kind, id, packet.value);
        SameKeeps(c, d, RetainChecked(d, kind, id, packet.value).0.core.out, kind, id);
      }
    }
  }

  /** What an admitted SUBSCRIBE says to the broker: its identifier, properties, and every filter with its options. */
  lemma SubscribeAdmitted(c: Conn, topics: seq<(Wire.Text, Byte)>, b: Block)
    requires Fits(c.core.out) && c.core.out.capacity < 0x1_0000_0000
    ensures var (d, r) := Admit(c, SubscribeRequest(topics, b));
            && (r.Err? ==> OnlyDrew(c, d))
            && (r.Ok? ==>
                  && topics != [] && KeepsOne(c, d.core.out, OpKind.Subscribe, r.value) && d.rt == c.rt
                  && ReadListing(d.core.out.retained[|c.core.out.retained|].bytes)
                     == Some(Subscription(r.value, ContentFields(b).bytes, topics)))
  {
    hide AdmitFilters, Fits, KeepsOne, ReadListing, SubscribeFields, ContentFields, Frame;
    var fields := (id: U16) => SubscribeFields(id, b, topics);
    FiltersAdmitted(c, OpKind.Subscribe, fields);
    var r := AdmitFilters(c, OpKind.Subscribe, fields).1;
    if r.Ok? {
      SubscribeRoundTrip(r.value, b, topics);
    }
  }

  /** The same for an UNSUBSCRIBE. */
  lemma UnsubscribeAdmitted(c: Conn, filters: seq<Wire.Text>, b: Block)
    requires Fits(c.core.out) && c.core.out.capacity < 0x1_0000_0000
    ensures var (d, r) := Admit(c, UnsubscribeRequest(filters, b));
            && (r.Err? ==> OnlyDrew(c, d))
            && (r.Ok? ==>
                  && filters != [] && KeepsOne(c, d.core.out, OpKind.Unsubscribe, r.value) && d.rt == c.rt
                  && ReadListing(d.core.out.retained[|c.core.out.retained|].bytes)
                     == Some(Unsubscription(r.value, ContentFields(b).bytes, filters)))
  {
    hide AdmitFilters, Fits, KeepsOne, ReadListing, UnsubscribeFields, ContentFields, Frame;
    var fields := (id: U16) => UnsubscribeFields(id, b, filters);
    FiltersAdmitted(c, OpKind.Unsubscribe, fields);
    var r := AdmitFilters(c, OpKind.Unsubscribe, fields).1;
    if r.Ok? {
      UnsubscribeRoundTrip(r.value, b, filters);
    }
  }
}
