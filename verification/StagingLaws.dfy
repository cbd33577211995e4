/** What every run of the staging device keeps. */
module StagingLaws {
  import opened Bytes
  import opened StagingDevice

  datatype Event =
    | Begin(clean: bool)
    | Stop
    | Got(message: Inbound)
    | Report(success: bool)
    | Pump(limit: nat, progress: Progress, start: Start)

  function Apply(d: Device, e: Event): (Device, Handle)
    requires Usable(d)
  {
    match e
    case Begin(clean) => (BeginStartup(d, clean), Consumed)
    case Stop => (Abort(d).0, Consumed)
    case Got(m) => Receive(d, m)
    case Report(success) => (CompleteRequest(d, success), Consumed)
    case Pump(limit, progress, start) => (Step(d, limit, progress, start).0, Consumed)
  }

  // ------------------------------------------------------------ invariant

  predicate Configured(c: Config) {
    c.maxChunk > 0 && Aligned(c.maxChunk, c.writeSize)
  }

  /** Where a transfer stands in each phase. */
  predicate Placed(d: Device) {
    && (d.transfer.None? <==> d.state.Idle?)
    && (d.transfer.Some? ==>
          var t := d.transfer.value;
          && 0 < t.size <= d.config.capacity && t.nextOffset <= t.size && ValidId(t.id)
          && (d.state.Preparing? ==> t.nextOffset == 0)
          && (d.state.Ready? || d.state.Writing? ==> t.nextOffset < t.size && Aligned(t.nextOffset, d.config.writeSize))
          && (d.state.Complete? ==> t.nextOffset == t.size))
  }

  /** A storage request is outstanding exactly while preparing or writing. */
  predicate Awaiting(d: Device) {
    match d.state
    case Preparing => d.request == Some(Prepare)
    case Writing =>
      && d.transfer.Some? && d.request.Some? && d.request.value.Write?
      && var t, w := d.transfer.value, d.request.value;
         && t.nextOffset < w.nextOffset <= t.size
         && (w.final <==> w.nextOffset == t.size)
         && (!w.final ==> Aligned(w.nextOffset, d.config.writeSize))
    case _ => d.request.None?
  }

  predicate Announces(a: Option<Action>) {
    a == Some(Publish(StatusCode.Complete))
  }

  /** Completion is only ever announced in the complete phase, which is final. */
  predicate Truthful(d: Device) {
    Announces(d.pending) || Announces(d.inflight) || d.startup == Some(StatusCode.Complete) ==> d.state.Complete?
  }

  predicate Sound(d: Device) {
    Configured(d.config) && Placed(d) && Awaiting(d) && Truthful(d)
  }

  lemma CreatedSound(prefix: seq<Byte>, config: Config)
    requires Create(prefix, config).Ok?
    ensures Sound(Create(prefix, config).value)
  {
  }

  lemma SettleKeeps(d: Device, progress: Progress)
    requires Sound(d)
    ensures Sound(Settle(d, progress))
    ensures var e := Settle(d, progress);
            && e.state == d.state && e.transfer == d.transfer && e.request == d.request
            && e.config == d.config && e.prefix == d.prefix
  {
    hide Aligned, ValidId;
  }

  lemma ProductGrows(w: nat, k: nat)
    requires k >= 1
    ensures w * k >= w
  {
    assert w * k == w + w * (k - 1);
  }

  lemma Remainder(q: nat, r: nat, w: nat)
    requires r < w
    ensures (w * q + r) % w == r && (w * q + r) / w == q
  {
    var n := w * q + r;
    var gap := q - n / w;
    assert w * gap == w * q - w * (n / w);
    if gap >= 1 {
      ProductGrows(w, gap);
    } else if gap <= -1 {
      ProductGrows(w, -gap);
    }
  }

  lemma AlignedSum(a: nat, b: nat, w: nat)
    requires Aligned(a, w) && Aligned(b, w)
    ensures Aligned(a + b, w)
  {
    assert a + b == w * (a / w + b / w) + 0;
    Remainder(a / w + b / w, 0, w);
  }

  /** A chunk is accepted exactly when it continues the object, is aligned, fits, and pads with erased bytes. */
  lemma AcceptedIff(t: Transfer, offset: U32, payload: Payload, config: Config)
    requires t.nextOffset <= t.size
    ensures ValidateChunk(t, offset, payload, config).Accept? <==>
              && offset == t.nextOffset && 0 < |payload| <= config.maxChunk && Aligned(|payload|, config.writeSize)
              && offset + |payload| <= config.capacity
              && (forall i | 0 <= i < |payload| && offset + i >= t.size :: payload[i] == 0xff)
    ensures ValidateChunk(t, offset, payload, config).Accept? ==>
              ValidateChunk(t, offset, payload, config).next == Min(t.size, offset + |payload|)
    ensures !ValidateChunk(t, offset, payload, config).Accept? ==>
              !ValidateChunk(t, offset, payload, config).code.Complete?
  {
    if offset == t.nextOffset && offset + |payload| > t.size {
      var padding := payload[t.size - offset..];
      assert forall i | 0 <= i < |padding| :: padding[i] == payload[t.size - offset + i];
      assert forall i | t.size - offset <= i < |payload| :: payload[i] == padding[i - (t.size - offset)];
    }
  }

  /** How much of a transfer an operation may change. */
  predicate Continues(d: Device, f: Device) {
    && f.config == d.config && f.prefix == d.prefix
    && (d.state.Complete? ==> f.state.Complete? && f.transfer == d.transfer)
    && (d.transfer.Some? ==>
          && f.transfer.Some? && f.transfer.value.id == d.transfer.value.id
          && f.transfer.value.size == d.transfer.value.size
          && d.transfer.value.nextOffset <= f.transfer.value.nextOffset)
  }

  lemma ChunkKeeps(d: Device, id: seq<Byte>, offset: U32, payload: Payload)
    requires Sound(d)
    ensures Sound(HandleChunk(d, id, offset, payload).0) && Continues(d, HandleChunk(d, id, offset, payload).0)
  {
    hide Aligned, ValidateChunk, Erased, ValidId;
    if d.state.Ready? && id == d.transfer.value.id {
      AcceptedIff(d.transfer.value, offset, payload, d.config);
      if Aligned(|payload|, d.config.writeSize) && offset == d.transfer.value.nextOffset {
        AlignedSum(offset, |payload|, d.config.writeSize);
      }
    }
  }

  lemma ManifestKeeps(d: Device, manifest: Option<Manifest>)
    requires Sound(d)
    ensures Sound(HandleManifest(d, manifest).0) && Continues(d, HandleManifest(d, manifest).0)
  {
    hide Aligned, RequiredRxBytes, ValidId;
  }

  lemma ReportKeeps(d: Device, success: bool)
    requires Sound(d)
    ensures Sound(CompleteRequest(d, success)) && Continues(d, CompleteRequest(d, success))
  {
    assert Aligned(0, d.config.writeSize);
    hide Aligned, ValidId;
  }

  /** The transfer is left alone, or ended. */
  predicate Undisturbed(d: Device, f: Device) {
    && f.transfer == d.transfer && ((f.state == d.state && f.request == d.request) || f.state.Error?)
  }

  lemma BeginKeeps(d: Device, clean: bool)
    requires Sound(d)
    ensures var f := BeginStartup(d, clean); Sound(f) && Continues(d, f) && Undisturbed(d, f)
  {
    hide Aligned, ValidId;
  }

  lemma AbortKeeps(d: Device)
    requires Sound(d)
    ensures var f := Abort(d).0; Sound(f) && Continues(d, f) && Undisturbed(d, f)
  {
    hide Aligned, ValidId;
  }

  lemma PumpKeeps(d: Device, limit: nat, progress: Progress, start: Start)
    requires Sound(d)
    ensures var f := Step(d, limit, progress, start).0; Sound(f) && Continues(d, f) && Undisturbed(d, f)
  {
    hide Aligned, ValidId, Settle;
    SettleKeeps(d.(maxRx := limit), progress);
  }

  lemma OthersKeep(d: Device, e: Event)
    requires Sound(d) && !e.Got? && !e.Report?
    ensures Usable(d)
    ensures var f := Apply(d, e).0; Sound(f) && Continues(d, f) && Undisturbed(d, f)
  {
    hide Sound, Continues, Undisturbed, BeginStartup, Abort, Step;
    SoundUsable(d);
    match e {
      case Begin(clean) => BeginKeeps(d, clean);
      case Stop => AbortKeeps(d);
      case Pump(limit, progress, start) => PumpKeeps(d, limit, progress, start);
    }
  }

  /** Every operation keeps the invariant, and the complete phase is never left. */
  lemma StepKeeps(d: Device, e: Event)
    requires Sound(d)
    ensures Sound(Apply(d, e).0) && Continues(d, Apply(d, e).0)
  {
    hide Sound, Continues, HandleManifest, HandleChunk, ChunkProperties, CompleteRequest, BeginStartup, Abort, Step;
    match e {
      case Got(m) =>
        SoundUsable(d);
        ManifestKeeps(d, m.manifest);
        ContinuesSelf(d);
        if ChunkProperties(m.properties).Some? {
          var (id, offset) := ChunkProperties(m.properties).value;
          ChunkKeeps(d, id, offset, m.payload);
        }
      case Report(success) => ReportKeeps(d, success);
      case _ => OthersKeep(d, e);
    }
  }

  lemma SoundUsable(d: Device)
    requires Sound(d)
    ensures Usable(d)
  {
  }

  lemma ContinuesSelf(d: Device)
    ensures Continues(d, d)
  {
  }

  // --------------------------------------------------------- subscription

  /** Subscribed, or about to be. */
  predicate Armed(d: Device) {
    d.subscribed || Subscribing(d)
  }

  /** `begin_startup` arms the service whatever it was doing. */
  lemma BeginArms(d: Device, clean: bool)
    ensures Armed(BeginStartup(d, clean))
  {
  }

  /** From then on it stays armed under any interleaving of messages, aborts, completions and steps. */
  lemma StaysArmed(d: Device, e: Event)
    requires Usable(d) && Armed(d)
    ensures Armed(Apply(d, e).0)
  {
    hide ValidateChunk, ChunkProperties, RequiredRxBytes, ValidId;
  }

  // ------------------------------------------------------------ write log

  datatype Write = Write(offset: nat, bytes: seq<Byte>)

  /** A device together with every storage write it has asked for. */
  datatype Logged = Logged(device: Device, writes: seq<Write>)

  function Follow(l: Logged, e: Event): Logged
    requires Usable(l.device)
  {
    var (d, h) := Apply(l.device, e);
    Logged(d, if h.WriteStorage? then l.writes + [Write.Write(h.offset, h.payload)] else l.writes)
  }

  function Total(ws: seq<Write>): nat {
    if ws == [] then 0 else Total(ws[..|ws| - 1]) + |ws[|ws| - 1].bytes|
  }

  /** The writes lie end to end from zero, each aligned, nonempty and inside the storage area. */
  ghost predicate Tiled(ws: seq<Write>, c: Config) {
    forall i | 0 <= i < |ws| ::
      && ws[i].offset == Total(ws[..i])
      && 0 < |ws[i].bytes| <= c.maxChunk
      && Aligned(ws[i].offset, c.writeSize) && Aligned(|ws[i].bytes|, c.writeSize)
      && ws[i].offset + |ws[i].bytes| <= c.capacity
  }

  ghost predicate Logs(l: Logged) {
    && Sound(l.device) && Tiled(l.writes, l.device.config)
    && match l.device.state
       case Idle => l.writes == []
       case Preparing => l.writes == []
       case Ready => Total(l.writes) == l.device.transfer.value.nextOffset
       case Writing =>
         && |l.writes| > 0
         && Total(l.writes[..|l.writes| - 1]) == l.device.transfer.value.nextOffset
         && l.device.request.value.nextOffset == Min(l.device.transfer.value.size, Total(l.writes))
       case Complete => Total(l.writes) >= l.device.transfer.value.size
       case Error => true
  }

  lemma TiledSnoc(ws: seq<Write>, w: Write, c: Config)
    requires Tiled(ws, c) && w.offset == Total(ws) && 0 < |w.bytes| <= c.maxChunk
    requires Aligned(w.offset, c.writeSize) && Aligned(|w.bytes|, c.writeSize) && w.offset + |w.bytes| <= c.capacity
    ensures Tiled(ws + [w], c) && Total(ws + [w]) == Total(ws) + |w.bytes| && (ws + [w])[..|ws|] == ws
  {
    var v := ws + [w];
    assert v[..|ws|] == ws;
    forall i | 0 <= i < |ws| ensures v[..i] == ws[..i] {
    }
  }

  lemma UndisturbedLogs(l: Logged, d: Device)
    requires Logs(l) && Sound(d) && Continues(l.device, d) && Undisturbed(l.device, d)
    ensures Logs(Logged(d, l.writes))
  {
    hide Tiled, Total, Aligned, ValidId;
  }

  lemma ReportLogs(l: Logged, success: bool)
    requires Logs(l)
    ensures Logs(Logged(CompleteRequest(l.device, success), l.writes))
  {
    assert Total([]) == 0;
    ReportKeeps(l.device, success);
    hide Tiled, Total, Aligned, ValidId;
  }

  lemma ManifestLogs(l: Logged, m: Option<Manifest>)
    requires Logs(l)
    ensures Logs(Logged(HandleManifest(l.device, m).0, l.writes)) && !HandleManifest(l.device, m).1.WriteStorage?
  {
    hide Tiled, Total, Aligned, RequiredRxBytes;
    ManifestKeeps(l.device, m);
  }

  lemma ChunkLogs(l: Logged, id: seq<Byte>, offset: U32, payload: Payload)
    requires Logs(l)
    ensures var (d, h) := HandleChunk(l.device, id, offset, payload);
            Logs(Logged(d, if h.WriteStorage? then l.writes + [Write.Write(h.offset, h.payload)] else l.writes))
  {
    hide Tiled, Total, Aligned, ValidId, ValidateChunk;
    ChunkKeeps(l.device, id, offset, payload);
    var (d, h) := HandleChunk(l.device, id, offset, payload);
    if h.WriteStorage? {
      AcceptedIff(l.device.transfer.value, offset, payload, l.device.config);
      TiledSnoc(l.writes, Write.Write(offset, payload), l.device.config);
    } else {
      assert Undisturbed(l.device, d);
    }
  }

  lemma FollowLogs(l: Logged, e: Event)
    requires Logs(l)
    ensures Logs(Follow(l, e))
  {
    hide Logs, HandleManifest, HandleChunk, ChunkProperties, CompleteRequest, BeginStartup, Abort, Step;
    LogsSound(l);
    match e {
      case Got(m) =>
        ManifestLogs(l, m.manifest);
        assert Logged(l.device, l.writes) == l;
        if ChunkProperties(m.properties).Some? {
          var (id, offset) := ChunkProperties(m.properties).value;
          ChunkLogs(l, id, offset, m.payload);
        }
      case Report(success) => ReportLogs(l, success);
      case _ =>
        OthersKeep(l.device, e);
        UndisturbedLogs(l, Apply(l.device, e).0);
    }
  }

  lemma LogsSound(l: Logged)
    requires Logs(l)
    ensures Sound(l.device) && Usable(l.device)
  {
  }

  ghost predicate IsRun(ls: seq<Logged>, es: seq<Event>) {
    && |ls| == |es| + 1
    && (forall i | 0 <= i < |es| :: Usable(ls[i].device) && ls[i + 1] == Follow(ls[i], es[i]))
  }

  /** Once startup has begun, the service is armed in every later state of every run. */
  lemma {:induction false} ArmedSince(ls: seq<Logged>, es: seq<Event>, b: nat, i: nat)
    requires IsRun(ls, es) && b < i < |ls| && es[b].Begin?
    ensures Armed(ls[i].device)
    decreases i
  {
    hide Armed, BeginStartup, Abort, Receive, CompleteRequest, Step;
    assert ls[i - 1 + 1] == Follow(ls[i - 1], es[i - 1]);
    if b == i - 1 {
      BeginArms(ls[b].device, es[b].clean);
    } else {
      ArmedSince(ls, es, b, i - 1);
      StaysArmed(ls[i - 1].device, es[i - 1]);
    }
  }

  /** After the first `i` events: a subscription finished, and no startup since found the broker without a session. */
  ghost predicate Confirmed(ls: seq<Logged>, es: seq<Event>, i: nat)
    requires i <= |es| < |ls|
  {
    i > 0 && match es[i - 1]
             case Begin(clean) => !clean && Confirmed(ls, es, i - 1)
             case Pump(_, Finished, _) => ls[i - 1].device.inflight == Some(Subscribe) || Confirmed(ls, es, i - 1)
             case _ => Confirmed(ls, es, i - 1)
  }

  /** The service counts as subscribed exactly while the broker has its subscription. */
  lemma {:induction false} SubscribedIff(ls: seq<Logged>, es: seq<Event>, i: nat)
    requires IsRun(ls, es) && !ls[0].device.subscribed && i <= |es|
    ensures ls[i].device.subscribed <==> Confirmed(ls, es, i)
  {
    if i > 0 {
      SubscribedIff(ls, es, i - 1);
      assert ls[i - 1 + 1] == Follow(ls[i - 1], es[i - 1]);
      hide Apply;
      StepSubscribed(ls[i - 1].device, es[i - 1]);
    }
  }

  lemma StepSubscribed(d: Device, e: Event)
    requires Usable(d)
    ensures Apply(d, e).0.subscribed
            == match e
               case Begin(clean) => !clean && d.subscribed
               case Pump(_, Finished, _) => d.inflight == Some(Subscribe) || d.subscribed
               case _ => d.subscribed
  {
    hide Receive;
    if e.Got? {
      GotSubscribed(d, e.message);
    }
  }

  lemma GotSubscribed(d: Device, m: Inbound)
    requires Usable(d)
    ensures Receive(d, m).0.subscribed == d.subscribed
  {
    hide ValidateChunk, ChunkProperties, RequiredRxBytes, ValidId;
  }

  lemma {:induction false} RunLogs(ls: seq<Logged>, es: seq<Event>, i: nat)
    requires IsRun(ls, es) && Logs(ls[0]) && i < |ls|
    ensures Logs(ls[i])
  {
    if i > 0 {
      RunLogs(ls, es, i - 1);
      FollowLogs(ls[i - 1], es[i - 1]);
      assert ls[i - 1 + 1] == ls[i];
    }
  }

  /**
    * In every run of a new service, whatever is received, repeated, aborted or reported: the writes asked for
    * lie end to end, a request is outstanding exactly while preparing or writing, and a completed transfer
    * has asked for the whole object.
    */
  lemma EveryRun(prefix: seq<Byte>, config: Config, ls: seq<Logged>, es: seq<Event>, i: nat)
    requires Create(prefix, config).Ok? && IsRun(ls, es) && i < |ls|
    requires ls[0] == Logged(Create(prefix, config).value, [])
    ensures Logs(ls[i])
    ensures var d := ls[i].device;
            && (d.request.Some? <==> d.state.Preparing? || d.state.Writing?)
            && (d.state.Complete? ==> Total(ls[i].writes) >= d.transfer.value.size)
  {
    CreatedSound(prefix, config);
    RunLogs(ls, es, i);
  }
}
