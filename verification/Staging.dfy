/**
  * Staging end to end: a device, its storage and any number of hosts over a network that loses, repeats and
  * reorders manifests, chunks and statuses.
  */
module Staging {
  import opened Bytes
  import opened StagingDevice
  import opened StagingHost
  import opened StagingLaws
  import Deserializer
  import Varint

  /** What the application's storage is working on. An aborted transfer does not stop it. */
  datatype Job = NoJob | PrepareJob | WriteJob(offset: nat, bytes: seq<Byte>)

  /**
    * `inbox` and `statuses` are everything ever published in each direction: any of it can arrive any number
    * of times, in any order, or never. `finished` are the identifiers for which a host reported success.
    */
  datatype System = System(
    device: Device,
    storage: seq<Byte>,
    job: Job,
    inbox: set<Inbound>,
    statuses: set<Status>,
    finished: set<seq<Byte>>)

  /** Which object each identifier stands for. */
  type Objects = map<seq<Byte>, seq<Byte>>

  datatype Move =
    | Deliver(message: Inbound)
    | Publish(message: Inbound)
    | Hear(host: Host, status: Status)
    | Scribble(after: seq<Byte>)
    | EndJob(success: bool, after: seq<Byte>)
    | Local(event: Event)

  /** A message that does not misrepresent an object: its manifest has the right size, its chunks the right bytes. */
  ghost predicate Honest(objects: Objects, prefix: seq<Byte>, m: Inbound) {
    && (m.topic == prefix + MANIFEST_SUFFIX && m.manifest.Some? && m.manifest.value.id in objects ==>
          m.manifest.value.size == |objects[m.manifest.value.id]|)
    && (m.topic == prefix + CHUNK_SUFFIX && ChunkProperties(m.properties).Some?
        && ChunkProperties(m.properties).value.0 in objects ==>
          Carries(objects[ChunkProperties(m.properties).value.0], ChunkProperties(m.properties).value.1, m.payload))
  }

  /** What storage may hold while, or after, the job runs. */
  ghost predicate Disturbs(job: Job, before: seq<Byte>, after: seq<Byte>) {
    && |after| == |before|
    && match job
       case NoJob => after == before
       case PrepareJob => true
       case WriteJob(offset, bytes) =>
         forall i | 0 <= i < |before| && !(offset <= i < offset + |bytes|) :: after[i] == before[i]
  }

  ghost predicate Achieves(job: Job, after: seq<Byte>) {
    job.WriteJob? ==>
      job.offset + |job.bytes| <= |after| && after[job.offset..job.offset + |job.bytes|] == job.bytes
  }

  ghost predicate Serves(objects: Objects, d: Device, h: Host) {
    h.prefix == d.prefix && h.id in objects && objects[h.id] == h.data
  }

  ghost predicate Possible(objects: Objects, s: System, m: Move) {
    match m
    case Deliver(message) => Usable(s.device) && message in s.inbox
    case Publish(message) => Honest(objects, s.device.prefix, message)
    case Hear(host, status) => Serves(objects, s.device, host) && status in s.statuses
    case Scribble(after) => Disturbs(s.job, s.storage, after)
    case EndJob(success, after) =>
      !s.job.NoJob? && Disturbs(s.job, s.storage, after) && (success ==> Achieves(s.job, after))
    case Local(e) => Usable(s.device) && (e.Begin? || e.Stop? || e.Pump?)
  }

  function JobOf(job: Job, h: Handle): Job {
    match h
    case PrepareStorage(_) => PrepareJob
    case WriteStorage(offset, payload, _, _) => WriteJob(offset, payload)
    case _ => job
  }

  /** The PUBLISH a host makes of a chunk, unless it is beyond what MQTT can carry. */
  function ChunkMessage(h: Host, c: Chunk): set<Inbound> {
    if |c.payload| > Varint.MAX then {}
    else {Inbound(h.prefix + CHUNK_SUFFIX, c.payload, None,
                  Deserializer.Listing(ChunkPropertyList(h.id, c.offset)), false)}
  }

  function Heard(s: System, h: Host, status: Status): System {
    if !Screen(h, Message(h.prefix + STATUS_SUFFIX, status)).Take? then s
    else match React(h, status)
      case Finish => s.(finished := s.finished + {h.id})
      case Send(c) => s.(inbox := s.inbox + ChunkMessage(h, c))
      case _ => s
  }

  function Emitted(d: Device, e: Event): set<Status> {
    if !e.Pump? then {}
    else match Step(d, e.limit, e.progress, e.start).2
      case None => {}
      case Some(status) => {status}
  }

  ghost function Next(objects: Objects, s: System, m: Move): System
    requires Possible(objects, s, m)
  {
    match m
    case Deliver(message) =>
      var (d, h) := Receive(s.device, message);
      s.(device := d, job := JobOf(s.job, h))
    case Publish(message) => s.(inbox := s.inbox + {message})
    case Hear(host, status) => Heard(s, host, status)
    case Scribble(after) => s.(storage := after)
    case EndJob(success, after) =>
      s.(device := CompleteRequest(s.device, success), storage := after, job := NoJob)
    case Local(e) => s.(device := Apply(s.device, e).0, statuses := s.statuses + Emitted(s.device, e))
  }

  // ------------------------------------------------------------- invariant

  /** The first `n` bytes of storage are those of the object. */
  ghost predicate Holds(storage: seq<Byte>, data: seq<Byte>, n: nat) {
    n <= |storage| && n <= |data| && storage[..n] == data[..n]
  }

  ghost predicate Stored(objects: Objects, s: System) {
    s.device.transfer.Some? && s.device.transfer.value.id in objects ==>
      var t := s.device.transfer.value;
      t.size == |objects[t.id]| && Holds(s.storage, objects[t.id], t.nextOffset)
  }

  /** The outstanding job matches the outstanding request, or belongs to a transfer that has ended. */
  ghost predicate Working(objects: Objects, s: System) {
    match s.job
    case NoJob => s.device.request.None?
    case PrepareJob =>
      s.device.transfer.Some? && s.device.transfer.value.nextOffset == 0 && (s.device.state.Preparing? || s.device.state.Error?)
    case WriteJob(offset, bytes) =>
      && s.device.transfer.Some? && (s.device.state.Writing? || s.device.state.Error?)
      && var t := s.device.transfer.value;
         && t.nextOffset <= offset && offset + |bytes| <= s.device.config.capacity
         && (s.device.state.Writing? ==>
               && offset == t.nextOffset
               && s.device.request.Some? && s.device.request.value.Write?
               && s.device.request.value.nextOffset == Min(t.size, offset + |bytes|)
               && (t.id in objects ==> Carries(objects[t.id], offset, bytes)))
  }

  ghost predicate Completed(d: Device, id: seq<Byte>) {
    d.state.Complete? && d.transfer.Some? && d.transfer.value.id == id
  }

  ghost predicate Inv(objects: Objects, s: System) {
    && Sound(s.device) && |s.storage| == s.device.config.capacity
    && Stored(objects, s) && Working(objects, s)
    && (forall m | m in s.inbox :: Honest(objects, s.device.prefix, m))
    && (forall status | status in s.statuses :: status.code.Complete? ==> Completed(s.device, status.id))
    && (forall id | id in s.finished :: Completed(s.device, id))
  }

  // ------------------------------------------------------------------ moves

  lemma SameBytes(before: seq<Byte>, after: seq<Byte>, data: seq<Byte>, n: nat)
    requires Holds(before, data, n) && |after| == |before| && forall i | 0 <= i < n :: after[i] == before[i]
    ensures Holds(after, data, n)
  {
    assert forall i | 0 <= i < n :: after[i] == before[..n][i] == data[..n][i];
  }

  lemma DisturbedStored(objects: Objects, s: System, after: seq<Byte>)
    requires Inv(objects, s) && Disturbs(s.job, s.storage, after)
    ensures Stored(objects, s.(storage := after))
  {
    if s.device.transfer.Some? && s.device.transfer.value.id in objects {
      var t := s.device.transfer.value;
      SameBytes(s.storage, after, objects[t.id], t.nextOffset);
    }
  }

  /** A finished write extends what storage holds to the new offset. */
  lemma WriteExtends(before: seq<Byte>, after: seq<Byte>, data: seq<Byte>, offset: nat, bytes: seq<Byte>)
    requires Holds(before, data, offset) && Disturbs(WriteJob(offset, bytes), before, after)
    requires Achieves(WriteJob(offset, bytes), after) && Carries(data, offset, bytes)
    ensures Holds(after, data, Min(|data|, offset + |bytes|))
  {
    var n := Min(|data|, offset + |bytes|);
    forall i | 0 <= i < n ensures after[i] == data[i] {
      if i < offset {
        assert before[..offset][i] == data[..offset][i];
      } else {
        assert after[offset..offset + |bytes|][i - offset] == bytes[i - offset];
      }
    }
  }

  lemma EndJobKeeps(objects: Objects, s: System, success: bool, after: seq<Byte>)
    requires Inv(objects, s) && Possible(objects, s, EndJob(success, after))
    ensures Inv(objects, Next(objects, s, EndJob(success, after)))
  {
    hide Aligned, ValidId, Honest, Carries, Holds;
    ReportKeeps(s.device, success);
    DisturbedStored(objects, s, after);
    if success && s.device.state.Writing? && s.device.transfer.value.id in objects {
      WriteExtends(s.storage, after, objects[s.device.transfer.value.id], s.job.offset, s.job.bytes);
    }
  }

  lemma ManifestMoves(objects: Objects, s: System, m: Inbound)
    requires Inv(objects, s) && m.topic == s.device.prefix + MANIFEST_SUFFIX && Honest(objects, s.device.prefix, m)
    ensures var (d, h) := HandleManifest(s.device, m.manifest);
            Inv(objects, s.(device := d, job := JobOf(s.job, h)))
  {
    hide Aligned, ValidId, Carries, RequiredRxBytes, ChunkProperties;
    ManifestKeeps(s.device, m.manifest);
  }

  lemma ChunkMoves(objects: Objects, s: System, m: Inbound)
    requires Inv(objects, s) && m.topic == s.device.prefix + CHUNK_SUFFIX && Honest(objects, s.device.prefix, m)
    requires ChunkProperties(m.properties).Some?
    ensures var (id, offset) := ChunkProperties(m.properties).value;
            var (d, h) := HandleChunk(s.device, id, offset, m.payload);
            Inv(objects, s.(device := d, job := JobOf(s.job, h)))
  {
    hide Aligned, ValidId, Carries, ValidateChunk, ChunkProperties, Holds;
    var (id, offset) := ChunkProperties(m.properties).value;
    ChunkKeeps(s.device, id, offset, m.payload);
    if s.device.state.Ready? && id == s.device.transfer.value.id {
      AcceptedIff(s.device.transfer.value, offset, m.payload, s.device.config);
    }
  }

  lemma DeliverKeeps(objects: Objects, s: System, m: Inbound)
    requires Inv(objects, s) && m in s.inbox && Usable(s.device)
    ensures Inv(objects, Next(objects, s, Deliver(m)))
  {
    hide HandleManifest, HandleChunk, ChunkProperties, Carries, Stored, Working, Sound;
    assert Honest(objects, s.device.prefix, m);
    if m.topic == s.device.prefix + MANIFEST_SUFFIX {
      ManifestMoves(objects, s, m);
    } else if m.topic == ChunkTopic(s.device) && ChunkProperties(m.properties).Some? {
      ChunkMoves(objects, s, m);
    }
    assert s.(device := s.device, job := s.job) == s;
  }

  lemma HearKeeps(objects: Objects, s: System, h: Host, status: Status)
    requires Inv(objects, s) && Serves(objects, s.device, h) && status in s.statuses
    ensures Inv(objects, Heard(s, h, status))
  {
    hide Sound, Holds, ChunkProperties, Carries, ChunkAt, ChunkPropertyList, AlignedChunkSize;
    if Screen(h, Message(h.prefix + STATUS_SUFFIX, status)).Take? && React(h, status).Send? {
      var c := React(h, status).chunk;
      ChunkCarries(h.data, status.offset, AlignedChunkSize(h.requested, status.mtu, status.writeSize), status.writeSize);
      PropertiesSurvive(h.id, status.offset);
    }
  }

  lemma EmittedTruth(d: Device, e: Event, status: Status)
    requires Sound(d) && status in Emitted(d, e) && status.code.Complete?
    ensures Completed(d, status.id)
  {
    hide Aligned, ValidId, Settle;
    SettleKeeps(d.(maxRx := e.limit), e.progress);
  }

  lemma LocalKeeps(objects: Objects, s: System, e: Event)
    requires Inv(objects, s) && Possible(objects, s, Local(e))
    ensures Inv(objects, Next(objects, s, Local(e)))
  {
    hide Apply, Emitted, Honest, Carries, Holds, Aligned, ValidId;
    OthersKeep(s.device, e);
    var d := Apply(s.device, e).0;
    forall status | status in Emitted(s.device, e) && status.code.Complete? ensures Completed(d, status.id) {
      EmittedTruth(s.device, e, status);
    }
    StopClears(s.device, e);
  }

  /** Only an abort ends a transfer here, and it takes the request with it. */
  lemma StopClears(d: Device, e: Event)
    requires Sound(d) && !e.Got? && !e.Report?
    ensures var f := Apply(d, e).0; f.request == d.request || (f.state.Error? && f.request.None?)
  {
    OthersKeep(d, e);
  }

  lemma MoveKeeps(objects: Objects, s: System, m: Move)
    requires Inv(objects, s) && Possible(objects, s, m)
    ensures Inv(objects, Next(objects, s, m))
  {
    match m {
      case Deliver(message) => DeliverKeeps(objects, s, message);
      case Publish(message) =>
      case Hear(host, status) => HearKeeps(objects, s, host, status);
      case Scribble(after) => DisturbedStored(objects, s, after);
      case EndJob(success, after) => EndJobKeeps(objects, s, success, after);
      case Local(e) => LocalKeeps(objects, s, e);
    }
  }

  // ------------------------------------------------------------------- runs

  ghost predicate IsRun(objects: Objects, ss: seq<System>, ms: seq<Move>) {
    && |ss| == |ms| + 1
    && forall i | 0 <= i < |ms| :: Possible(objects, ss[i], ms[i]) && ss[i + 1] == Next(objects, ss[i], ms[i])
  }

  /** A new service over storage of its capacity, and nothing published yet. */
  ghost predicate Fresh(s: System) {
    && (exists prefix, config :: Create(prefix, config) == Ok(s.device))
    && |s.storage| == s.device.config.capacity
    && s.job.NoJob? && s.inbox == {} && s.statuses == {} && s.finished == {}
  }

  lemma {:induction false} RunKeeps(objects: Objects, ss: seq<System>, ms: seq<Move>, i: nat)
    requires IsRun(objects, ss, ms) && Fresh(ss[0]) && i < |ss|
    ensures Inv(objects, ss[i])
  {
    hide Possible, Next, Inv;
    if i == 0 {
      FreshInv(objects, ss[0]);
    } else {
      RunKeeps(objects, ss, ms, i - 1);
      MoveKeeps(objects, ss[i - 1], ms[i - 1]);
      assert ss[i - 1 + 1] == ss[i];
    }
  }

  lemma FreshInv(objects: Objects, s: System)
    requires Fresh(s)
    ensures Inv(objects, s)
  {
  }

  /**
    * In every state of every run storage agrees with the object up to the next offset, so a completed
    * transfer has stored the whole object.
    */
  lemma StorageAgrees(objects: Objects, ss: seq<System>, ms: seq<Move>, i: nat)
    requires IsRun(objects, ss, ms) && Fresh(ss[0]) && i < |ss|
    requires ss[i].device.transfer.Some? && ss[i].device.transfer.value.id in objects
    ensures var t := ss[i].device.transfer.value;
            && Holds(ss[i].storage, objects[t.id], t.nextOffset)
            && (ss[i].device.state.Complete? ==> Holds(ss[i].storage, objects[t.id], |objects[t.id]|))
  {
    RunKeeps(objects, ss, ms, i);
  }

  /** A host reports success only when the device's storage holds its object, then and for good. */
  lemma SuccessMeansStored(objects: Objects, ss: seq<System>, ms: seq<Move>, i: nat, id: seq<Byte>)
    requires IsRun(objects, ss, ms) && Fresh(ss[0]) && i < |ss| && id in ss[i].finished && id in objects
    ensures Holds(ss[i].storage, objects[id], |objects[id]|)
  {
    RunKeeps(objects, ss, ms, i);
  }
}
