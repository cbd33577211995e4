/**
  * The statuses a device owes its host, and what the host makes of them: refusals, repeated manifests and chunks, and the
  * whole exchange between the two (mqtt-staging/src/lib.rs, mqtt-staging/py/mqtt_staging.py).
  */
module StagingStatus {
  import opened Bytes
  import opened Properties
  import opened StagingAgreement
  import opened StagingDevice
  import opened StagingHost
  import opened StagingLaws
  import Decimal
  import Varint

  // ------------------------------------------------------------------- owing

  /** The code of the status the device is to publish next, if any. */
  function Owes(d: Device): Option<StatusCode> {
    if Subscribing(d) then d.startup
    else if d.pending.Some? && d.pending.value.Publish? then Some(d.pending.value.code)
    else None
  }

  lemma TellOwes(d: Device, code: StatusCode)
    ensures Owes(Tell(d, code)) == Some(code)
    ensures var e := Tell(d, code); e == d.(pending := e.pending, startup := e.startup)
  {
  }

  /**
    * A status owed is published, or a status is still owed; what is published describes the device as it is. When the
    * operation in flight was invalidated, its own code may take the place of a later one.
    */
  lemma StatusNotLost(d: Device, maxRx: nat, progress: Progress, start: Start)
    requires Owes(d).Some?
    ensures var (f, _, status) := Step(d, maxRx, progress, start);
            var invalidated := d.inflight.Some? && progress.Invalidated?;
            && (status.Some? || Owes(f).Some?)
            && (status.None? && !invalidated ==> Owes(f) == Owes(d))
            && (status.Some? ==> status.value == StatusWith(d, Owes(d).value) && !invalidated)
            && f.state == d.state && f.transfer == d.transfer && f.request == d.request
  {
    hide Settle;
    SettleOwes(d.(maxRx := maxRx), progress);
  }

  lemma SettleOwes(d: Device, progress: Progress)
    requires Owes(d).Some?
    ensures var e := Settle(d, progress);
            && Owes(e).Some? && (!(d.inflight.Some? && progress.Invalidated?) ==> Owes(e) == Owes(d))
            && e == d.(pending := e.pending, inflight := e.inflight, startup := e.startup, subscribed := e.subscribed)
            && e.inflight == if progress.StillPending? then d.inflight else None
  {
  }

  /** With a free connection and a finished subscription the owed status is published at once. */
  lemma StatusPublished(d: Device, maxRx: nat)
    requires Owes(d).Some? && (d.inflight.Some? || d.pending.Some?) && d.pending != Some(Subscribe)
    ensures Step(d, maxRx, Finished, Started).2 == Some(StatusWith(d, Owes(d).value))
  {
  }

  /** How the host takes the status the device owes. */
  function Heard(d: Device, h: Host): (Screening, Reaction)
    requires Owes(d).Some?
  {
    var s := StatusWith(d, Owes(d).value);
    (Screen(h, Message(h.prefix + STATUS_SUFFIX, s)), React(h, s))
  }

  /** The device waits for the next chunk of this host, and what it owes makes the host send it. */
  ghost predicate Prompts(d: Device, h: Host) {
    && Asks(d, h) && h.requested >= d.config.writeSize && Owes(d).Some?
    && d.config.writeSize > 0 && Heard(d, h) == (Take, Send(NextChunk(d, h)))
  }

  lemma PromptsWith(d: Device, h: Host, code: StatusCode)
    requires Asks(d, h) && h.requested >= d.config.writeSize && Owes(d) == Some(code)
    requires code.Accepted? || code.Duplicate?
    ensures Prompts(d, h)
  {
    hide NextChunk, Screen, React;
    assert h.id != [] by { KnownId(d, h); }
    HostAnswers(d, h, code);
  }

  lemma KnownId(d: Device, h: Host)
    requires Asks(d, h)
    ensures h.id != []
  {
    hide Aligned;
  }

  // ---------------------------------------------------------------- manifests

  /** The host's manifest. */
  ghost predicate Announces(h: Host, m: Manifest) {
    m.id == h.id && m.size == |h.data|
  }

  /** A transfer identifier: one to 48 letters, digits, hyphens, dots and underscores. */
  predicate Token(id: seq<Byte>) {
    1 <= |id| <= 48 && forall i | 0 <= i < |id| :: TokenChar(id[i] as char)
  }

  predicate TokenChar(c: char) {
    'a' <= c <= 'z' || 'A' <= c <= 'Z' || '0' <= c <= '9' || c in {'-', '.', '_'}
  }

  lemma TokenIff(id: seq<Byte>)
    ensures ValidId(id) <==> Token(id)
  {
    assert forall b: Byte :: TokenByte(b) <==> TokenChar(b as char);
  }

  /** An idle device takes a manifest exactly if its identifier is valid and the object is not empty, fits, and can arrive. */
  predicate Acceptable(d: Device, m: Manifest) {
    Token(m.id) && 0 < m.size <= d.config.capacity && RequiredRxBytes(ChunkTopic(d), m.id, d.config.maxChunk) <= d.maxRx
  }

  /** A manifest an idle device does not take is answered with a status that makes the host give up. */
  lemma ManifestVerdict(d: Device, m: Manifest, h: Host)
    requires Sound(d) && d.state.Idle?
    ensures var (e, r) := HandleManifest(d, Some(m));
            if Acceptable(d, m) then
              && r == PrepareStorage(m.size) && e.state.Preparing? && e.request == Some(Prepare)
              && e.transfer == Some(Transfer(m.id, m.size, 0, m.checksum)) && Owes(e) == Some(Accepted)
            else
              && r == Consumed && e.state.Idle? && e.transfer.None? && e.request == d.request
              && Owes(e) == Some(if !Token(m.id) || m.size == 0 then StatusCode.Error
                                 else if m.size > d.config.capacity then Oversize else Mtu)
              && Heard(e, h).0.Raise?
  {
    hide Aligned, RequiredRxBytes, ValidId, Token;
    TokenIff(m.id);
  }

  /** So is one that cannot be read. */
  lemma UnreadableManifest(d: Device, h: Host)
    requires Sound(d) && d.state.Idle?
    ensures var (e, r) := HandleManifest(d, None);
            && r == Consumed && e.state.Idle? && e.request == d.request
            && Owes(e) == Some(StatusCode.Error) && Heard(e, h).0.Raise?
  {
  }

  /** Where a transfer stands. */
  function Standing(d: Device): StatusCode {
    if d.state.Complete? then StatusCode.Complete
    else if d.state.Error? then StatusCode.Error
    else Accepted
  }

  /** The manifest of the transfer under way, repeated, changes nothing but the status owed, which the host can use. */
  lemma ManifestRepeated(d: Device, m: Manifest, h: Host)
    requires Sound(d) && d.transfer.Some? && SameManifest(d.transfer.value, m) && Announces(h, m) && h.prefix == d.prefix
    requires h.requested >= d.config.writeSize && d.config.maxChunk <= Varint.MAX
    ensures var (e, r) := HandleManifest(d, Some(m));
            && r == Consumed && e == d.(pending := e.pending, startup := e.startup) && Owes(e) == Some(Standing(d))
            && (d.state.Preparing? ==> Heard(e, h) == (Take, Continue))
            && (d.state.Ready? ==> Prompts(e, h))
            && (d.state.Complete? ==> Heard(e, h) == (Take, Finish))
            && (d.state.Error? ==> Heard(e, h).0.Raise?)
  {
    hide Aligned, RequiredRxBytes, ValidId, AlignedChunkSize, NextChunk;
    var e := HandleManifest(d, Some(m)).0;
    assert m.id != [] by { IdNotEmpty(d); }
    TellOwes(d, CurrentCode(d));
    if d.state.Ready? {
      SoundTold(d, e);
      PromptsWith(e, h, Accepted);
    }
  }

  lemma IdNotEmpty(d: Device)
    requires Sound(d) && d.transfer.Some?
    ensures d.transfer.value.id != [] && ValidId(d.transfer.value.id)
  {
    hide Aligned;
  }

  /** Owing another status does not disturb a transfer in progress. */
  lemma SoundTold(d: Device, e: Device)
    requires Sound(d) && e == d.(pending := e.pending, startup := e.startup)
    requires StagingLaws.Truthful(e)
    ensures Sound(e)
  {
    hide Aligned, ValidId;
  }

  /** Another manifest than that of the transfer under way is ignored. */
  lemma OtherManifest(d: Device, m: Manifest)
    requires !d.state.Idle? && !(d.transfer.Some? && SameManifest(d.transfer.value, m))
    ensures HandleManifest(d, Some(m)) == (d, Consumed)
  {
    hide ValidId, RequiredRxBytes;
  }

  // ------------------------------------------------------------------- chunks

  /**
    * A chunk from before the offset the device waits for, delivered again to a device that is ready: the transfer is left
    * alone, nothing is written, and the status owed makes the host send the next chunk.
    */
  lemma ChunkRepeated(d: Device, h: Host, offset: U32, payload: Payload)
    requires Asks(d, h) && h.requested >= d.config.writeSize && offset < d.transfer.value.nextOffset
    ensures Usable(d)
    ensures var (e, r) := HandleChunk(d, h.id, offset, payload);
            && r == Consumed && e == d.(pending := e.pending, startup := e.startup)
            && Owes(e) == Some(Duplicate) && Prompts(e, h)
  {
    hide Aligned, ValidId, NextChunk;
    SoundUsable(d);
    var e := HandleChunk(d, h.id, offset, payload).0;
    ChunkKeeps(d, h.id, offset, payload);
    TellOwes(d, Duplicate);
    PromptsWith(e, h, Duplicate);
  }

  /** A chunk from beyond it leaves the transfer alone too, but the host gives up. */
  lemma ChunkBeyond(d: Device, h: Host, offset: U32, payload: Payload)
    requires Asks(d, h) && offset > d.transfer.value.nextOffset
    ensures Usable(d)
    ensures var (e, r) := HandleChunk(d, h.id, offset, payload);
            && r == Consumed && e == d.(pending := e.pending, startup := e.startup)
            && Owes(e) == Some(Offset) && Heard(e, h).0.Raise?
  {
    hide Aligned, ValidId, AlignedChunkSize;
    SoundUsable(d);
  }

  /** Bytes that can be written where the device waits: whole write units that fit, erased past the end of the object. */
  ghost predicate Sits(t: Transfer, payload: Payload, config: Config)
    requires config.writeSize > 0
  {
    && 0 < |payload| <= config.maxChunk && |payload| % config.writeSize == 0
    && t.nextOffset + |payload| <= config.capacity
    && forall i | 0 <= i < |payload| && t.nextOffset + i >= t.size :: payload[i] == 0xff
  }

  /** A chunk from the offset itself is written, or the transfer fails and the host gives up. */
  lemma ChunkJudged(d: Device, h: Host, payload: Payload)
    requires Sound(d) && d.state.Ready? && h.prefix == d.prefix
    requires d.transfer.Some? && d.transfer.value.id == h.id && d.transfer.value.size == |h.data|
    ensures Usable(d) && d.config.writeSize > 0
    ensures var t := d.transfer.value;
            var (e, r) := HandleChunk(d, h.id, t.nextOffset, payload);
            if Sits(t, payload, d.config) then
              var end := Min(t.size, t.nextOffset + |payload|);
              && e == d.(state := Writing, request := Some(Request.Write(end, end == t.size)))
              && r == WriteStorage(t.nextOffset, payload, t.size, if end == t.size then Some(t.checksum) else None)
            else
              && r == Consumed && e.state.Error? && e.transfer == d.transfer && e.request == d.request
              && Owes(e) == Some(if payload == [] || |payload| > d.config.maxChunk then Mtu
                                 else if |payload| % d.config.writeSize != 0 then Unaligned else Oversize)
              && Heard(e, h).0.Raise?
  {
    hide ValidId, AlignedChunkSize;
    SoundUsable(d);
    var t := d.transfer.value;
    if t.nextOffset + |payload| > t.size {
      var tail := payload[t.size - t.nextOffset..];
      assert forall i | 0 <= i < |tail| :: tail[i] == payload[t.size - t.nextOffset + i];
      assert forall i | 0 <= i < |payload| && t.nextOffset + i >= t.size :: payload[i] == tail[t.nextOffset + i - t.size];
    }
  }

  /** An item is that of an offset, or of a transfer identifier. */
  predicate IsOffset(item: Option<Property>) {
    item.Some? && item.value.UserProperty? && item.value.key == OFFSET_KEY
  }

  predicate IsCorrelation(item: Option<Property>) {
    item.Some? && item.value.CorrelationData?
  }

  /** The last offset decides, whatever else is among the properties. */
  lemma {:induction false} LastOffsetDecides(before: seq<Option<Property>>, item: Option<Property>,
                                             after: seq<Option<Property>>)
    requires IsOffset(item) && forall i | 0 <= i < |after| :: !IsOffset(after[i])
    ensures LastOffset(before + [item] + after) == Decimal.ParseU32(item.value.text)
    decreases |after|
  {
    var items := before + [item] + after;
    if after == [] {
      assert items[|items| - 1] == item;
    } else {
      LastOffsetDecides(before, item, after[..|after| - 1]);
      assert items[..|items| - 1] == before + [item] + after[..|after| - 1];
      assert items[|items| - 1] == after[|after| - 1];
    }
  }

  /** The first transfer identifier does. */
  lemma {:induction false} FirstIdDecides(before: seq<Option<Property>>, item: Option<Property>,
                                          after: seq<Option<Property>>)
    requires IsCorrelation(item) && forall i | 0 <= i < |before| :: !IsCorrelation(before[i])
    ensures Correlation(before + [item] + after) == Some(item.value.data)
    decreases |before|
  {
    var items := before + [item] + after;
    if before == [] {
      assert items[0] == item;
    } else {
      FirstIdDecides(before[1..], item, after);
      assert items[1..] == before[1..] + [item] + after;
    }
  }

  /** A chunk that lacks either is ignored, as is everything retained; only other topics are left to others. */
  lemma {:induction false} Unheeded(d: Device, m: Inbound)
    requires Usable(d)
    requires m.retained || m.topic !in {d.prefix + MANIFEST_SUFFIX, d.prefix + CHUNK_SUFFIX}
             || (m.topic == d.prefix + CHUNK_SUFFIX
                 && ((forall i | 0 <= i < |m.properties| :: !IsOffset(m.properties[i]))
                     || forall i | 0 <= i < |m.properties| :: !IsCorrelation(m.properties[i])))
    ensures Receive(d, m).0 == d
    ensures Receive(d, m).1
            == if m.topic in {d.prefix + MANIFEST_SUFFIX, d.prefix + CHUNK_SUFFIX} then Consumed else Unhandled
  {
    NotAmong(m.properties);
    TopicsDiffer(d);
  }

  lemma TopicsDiffer(d: Device)
    ensures d.prefix + MANIFEST_SUFFIX != d.prefix + CHUNK_SUFFIX
  {
    assert (d.prefix + MANIFEST_SUFFIX)[|d.prefix|..] == MANIFEST_SUFFIX;
    assert (d.prefix + CHUNK_SUFFIX)[|d.prefix|..] == CHUNK_SUFFIX;
  }

  lemma {:induction false} NotAmong(items: seq<Option<Property>>)
    ensures (forall i | 0 <= i < |items| :: !IsOffset(items[i])) ==> LastOffset(items).None?
    ensures (forall i | 0 <= i < |items| :: !IsCorrelation(items[i])) ==> Correlation(items).None?
    decreases |items|
  {
    if items != [] {
      NotAmong(items[1..]);
      NotAmong(items[..|items| - 1]);
    }
  }

  /** While the device prepares or writes, chunks of the transfer are ignored; those of another one always are. */
  lemma ChunkIgnored(d: Device, id: seq<Byte>, offset: U32, payload: Payload)
    requires Sound(d) && d.transfer.Some? && (id != d.transfer.value.id || d.state.Preparing? || d.state.Writing?)
    ensures Usable(d) && HandleChunk(d, id, offset, payload) == (d, Consumed)
  {
    hide Aligned, ValidId, ValidateChunk;
    SoundUsable(d);
  }

  /** A chunk of a finished transfer is answered with a status that ends the host's command. */
  lemma ChunkAfterEnd(d: Device, h: Host, offset: U32, payload: Payload)
    requires Sound(d) && (d.state.Complete? || d.state.Error?) && h.prefix == d.prefix
    requires d.transfer.Some? && d.transfer.value.id == h.id && d.transfer.value.size == |h.data|
    ensures Usable(d)
    ensures var (e, r) := HandleChunk(d, h.id, offset, payload);
            && r == Consumed && e == d.(pending := e.pending, startup := e.startup)
            && Owes(e) == Some(if d.state.Complete? then StatusCode.Complete else StatusCode.Error)
            && Heard(e, h).0 == (if d.state.Complete? then Take else Raise)
            && (d.state.Complete? ==> Heard(e, h).1 == Finish)
  {
    hide Aligned, ValidateChunk, AlignedChunkSize;
    SoundUsable(d);
    IdNotEmpty(d);
  }

  /** A failed write or a refused chunk makes the host give up. */
  lemma FailureHeard(d: Device, h: Host, code: StatusCode)
    requires Owes(d) == Some(code) && d.state.Error?
    requires d.transfer.Some? && d.transfer.value.id == h.id && d.transfer.value.size == |h.data| && h.prefix == d.prefix
    ensures Heard(d, h).0.Raise?
  {
    hide AlignedChunkSize;
  }

  lemma StorageFailure(d: Device, h: Host)
    requires Sound(d) && d.request.Some?
    requires d.transfer.Some? && d.transfer.value.id == h.id && d.transfer.value.size == |h.data| && h.prefix == d.prefix
    ensures var e := CompleteRequest(d, false);
            && e.state.Error? && e.request.None? && e.transfer == d.transfer
            && Owes(e) == Some(Storage) && Heard(e, h).0.Raise?
  {
    hide Aligned, ValidId;
    var e := CompleteRequest(d, false);
    TellOwes(d.(request := None, state := State.Error), Storage);
    FailureHeard(e, h, Storage);
  }

  /** A reconnect owes the current status again, which tells the host where the transfer stands. */
  lemma StartupOwes(d: Device, clean: bool)
    requires !d.state.Idle?
    ensures Owes(BeginStartup(d, clean)) == Some(Standing(d))
  {
  }

  /** Aborting an active transfer makes the host give up; otherwise nothing happens. */
  lemma AbortHeard(d: Device, h: Host)
    requires Sound(d) && d.transfer.Some? && d.transfer.value.id == h.id && d.transfer.value.size == |h.data|
    requires h.prefix == d.prefix
    ensures var (e, active) := Abort(d);
            if d.state.Complete? || d.state.Error? then e == d && !active
            else
              && active && e.state.Error? && e.request.None? && e.transfer == d.transfer
              && Owes(e) == Some(StatusCode.Error) && Heard(e, h).0.Raise?
  {
    hide Aligned, ValidId;
    var e := Abort(d).0;
    if Active(d) {
      TellOwes(d.(state := State.Error, request := None), StatusCode.Error);
      FailureHeard(e, h, StatusCode.Error);
    }
  }

  // ------------------------------------------------------------ whole transfer

  /** Chunks of the transfer that the device has already taken, delivered again. */
  datatype Repeat = Repeat(offset: U32, payload: Payload)

  ghost predicate Old(d: Device, repeats: seq<Repeat>) {
    d.transfer.Some? && forall i | 0 <= i < |repeats| :: repeats[i].offset < d.transfer.value.nextOffset
  }

  ghost function Repeated(d: Device, h: Host, repeats: seq<Repeat>): Device
    requires Usable(d)
    decreases |repeats|
  {
    if repeats == [] then d
    else
      var e := HandleChunk(d, h.id, repeats[0].offset, repeats[0].payload).0;
      if Usable(e) then Repeated(e, h, repeats[1..]) else e
  }

  /** However many of them arrive, the device still waits for the same chunk and still prompts the host for it. */
  lemma {:induction false} RepeatsHarmless(d: Device, h: Host, repeats: seq<Repeat>)
    requires Prompts(d, h) && Old(d, repeats)
    ensures Usable(d)
    ensures var e := Repeated(d, h, repeats); Prompts(e, h) && e == d.(pending := e.pending, startup := e.startup)
    decreases |repeats|
  {
    hide Asks, Heard, NextChunk, HandleChunk, Owes;
    AsksUsable(d, h);
    if repeats != [] {
      ChunkRepeated(d, h, repeats[0].offset, repeats[0].payload);
      var e := HandleChunk(d, h.id, repeats[0].offset, repeats[0].payload).0;
      AsksUsable(e, h);
      RepeatsHarmless(e, h, repeats[1..]);
    }
  }

  lemma AsksUsable(d: Device, h: Host)
    requires Asks(d, h)
    ensures Usable(d) && d.transfer.Some? && d.transfer.value.nextOffset <= |h.data|
  {
    hide Aligned, ValidId;
  }

  /** What the host sends for the status the device owes. */
  function Reply(d: Device, h: Host): Option<Chunk>
    requires Owes(d).Some?
  {
    if Heard(d, h).0.Take? && Heard(d, h).1.Send? then Some(Heard(d, h).1.chunk) else None
  }

  /** One round: old chunks arrive again, the host answers the status owed, the device writes what it sends. */
  ghost function Round(d: Device, h: Host, repeats: seq<Repeat>): Device
    requires Usable(d)
  {
    var e := Repeated(d, h, repeats);
    if Owes(e).None? || Reply(e, h).None? || !Usable(e) then e
    else
      var c := Reply(e, h).value;
      if c.offset < 0x1_0000_0000 && |c.payload| <= Varint.MAX then
        CompleteRequest(HandleChunk(e, h.id, c.offset, c.payload).0, true)
      else e
  }

  lemma WriteAdvances(d: Device, h: Host)
    requires Prompts(d, h) && RoundUp(|h.data|, d.config.writeSize) <= d.config.capacity
    ensures Usable(d) && NextChunk(d, h).offset < 0x1_0000_0000 && |NextChunk(d, h).payload| <= Varint.MAX
    ensures var e := CompleteRequest(HandleChunk(d, h.id, NextChunk(d, h).offset, NextChunk(d, h).payload).0, true);
            var end := Min(|h.data|, d.transfer.value.nextOffset + HostSize(d, h));
            && e.config == d.config && e.prefix == d.prefix && Usable(e)
            && e.transfer.Some? && e.transfer.value.nextOffset == end > d.transfer.value.nextOffset
            && (end == |h.data| ==> e.state.Complete? && Owes(e).Some? && Heard(e, h) == (Take, Finish))
            && (end < |h.data| ==> Prompts(e, h))
  {
    hide Aligned, ChunkAt, RoundUp, AlignedChunkSize, ValidateChunk, ValidId;
    KnownId(d, h);
    AsksUsable(d, h);
    ChunkVerdict(d, h);
    var c := NextChunk(d, h);
    var w := HandleChunk(d, h.id, c.offset, c.payload).0;
    ChunkKeeps(d, h.id, c.offset, c.payload);
    ReportKeeps(w, true);
    var e := CompleteRequest(w, true);
    SoundUsable(e);
    if e.state.Ready? {
      PromptsWith(e, h, Accepted);
    }
  }

  lemma RoundAdvances(d: Device, h: Host, repeats: seq<Repeat>)
    requires Prompts(d, h) && Old(d, repeats) && RoundUp(|h.data|, d.config.writeSize) <= d.config.capacity
    ensures Usable(d)
    ensures var e := Round(d, h, repeats);
            var end := Min(|h.data|, d.transfer.value.nextOffset + HostSize(d, h));
            && e.config == d.config && Usable(e) && e.transfer.Some? && e.transfer.value.nextOffset == end
            && (end == |h.data| ==> e.state.Complete? && Owes(e).Some? && Heard(e, h) == (Take, Finish))
            && (end < |h.data| ==> Prompts(e, h))
  {
    hide Asks, Owes, CompleteRequest, HandleChunk, HostSize, Usable, NextChunk;
    RepeatsHarmless(d, h, repeats);
    var e := Repeated(d, h, repeats);
    WriteAdvances(e, h);
    SameSize(d, e, h);
    AsksUsable(d, h);
  }

  lemma SameSize(d: Device, e: Device, h: Host)
    requires e.config == d.config && d.config.writeSize > 0
    ensures HostSize(e, h) == HostSize(d, h)
  {
  }

  /** The device after some rounds. */
  ghost function Rounds(d: Device, h: Host, repeats: seq<seq<Repeat>>): Device
    requires Usable(d)
    decreases |repeats|
  {
    if repeats == [] then d
    else
      var e := Round(d, h, repeats[0]);
      if Usable(e) then Rounds(e, h, repeats[1..]) else e
  }

  /** All chunks repeated in a round are ones the device has taken by then. */
  ghost predicate AllOld(d: Device, h: Host, repeats: seq<seq<Repeat>>)
    requires Usable(d)
    decreases |repeats|
  {
    repeats != [] ==>
      && Old(d, repeats[0])
      && var e := Round(d, h, repeats[0]); Usable(e) && AllOld(e, h, repeats[1..])
  }

  /**
    * The exchange completes in exactly as many rounds as the rest of the object has chunks, however many chunks already
    * taken are delivered again on the way, and then the host reports success.
    */
  lemma {:induction false} RoundsComplete(d: Device, h: Host, repeats: seq<seq<Repeat>>)
    requires Prompts(d, h) && Usable(d) && |repeats| >= 1 && AllOld(d, h, repeats)
    requires RoundUp(|h.data|, d.config.writeSize) <= d.config.capacity
    requires d.transfer.value.nextOffset + (|repeats| - 1) * HostSize(d, h) < |h.data|
             <= d.transfer.value.nextOffset + |repeats| * HostSize(d, h)
    ensures var e := Rounds(d, h, repeats); e.state.Complete? && Owes(e).Some? && Heard(e, h) == (Take, Finish)
    decreases |repeats|
  {
    hide Prompts, Round, HostSize, Owes, Heard, Usable, RoundUp;
    assert d.config.writeSize > 0 by { PromptsSize(d, h); }
    var k, n := HostSize(d, h), |repeats|;
    var e := Round(d, h, repeats[0]);
    RoundAdvances(d, h, repeats[0]);
    SameSize(d, e, h);
    Product(k, n);
    if n == 1 {
      assert repeats[1..] == [];
    } else {
      Product(k, n - 1);
      ProductGrows(k, n - 1);
      RoundsComplete(e, h, repeats[1..]);
    }
  }

  lemma PromptsSize(d: Device, h: Host)
    requires Prompts(d, h)
    ensures d.config.writeSize > 0
  {
    hide Asks;
  }

  lemma Product(k: nat, n: nat)
    requires n >= 1
    ensures n * k == (n - 1) * k + k
  {
  }
}
