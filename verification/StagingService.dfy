/** The staging service object: `Service` and its methods, against the device functions. */
module StagingService {
  import opened Bytes
  import opened StagingDevice
  import opened StagingLaws

  class Service {
    const prefix: seq<Byte>
    const config: Config
    var maxRx: nat
    var inflight: Option<Action>
    var pending: Option<Action>
    var startup: Option<StatusCode>
    var subscribed: bool
    var state: State
    var transfer: Option<Transfer>
    var request: Option<Request>

    ghost function View(): Device
      reads this
    {
      Device(prefix, config, maxRx, inflight, pending, startup, subscribed, state, transfer, request)
    }

    ghost predicate Valid()
      reads this
    {
      Sound(View())
    }

    constructor (prefix: seq<Byte>, config: Config)
      requires Create(prefix, config).Ok?
      ensures View() == Create(prefix, config).value && Valid()
    {
      CreatedSound(prefix, config);
      this.prefix, this.config := prefix, config;
      maxRx, inflight, pending, startup := 0, None, None, None;
      subscribed, state, transfer, request := false, State.Idle, None, None;
    }

    method QueueAction(action: Action)
      modifies this`pending, this`startup
      ensures View() == Queue(old(View()), action)
    {
      if pending == Some(Subscribe) || inflight == Some(Subscribe) {
        if action.Publish? {
          startup := Some(action.code);
        }
        return;
      }
      pending := Some(action);
    }

    method ReplayCode() returns (code: StatusCode)
      ensures code == CurrentCode(View())
    {
      code := match state
        case Idle => StatusCode.Idle
        case Complete => StatusCode.Complete
        case Error => StatusCode.Error
        case _ => Accepted;
    }

    /** `begin_startup`. */
    method Begin(clean: bool)
      requires Valid()
      modifies this
      ensures Valid() && View() == BeginStartup(old(View()), clean)
    {
      OthersKeep(View(), StagingLaws.Begin(clean));
      var code := ReplayCode();
      var idle := state.Idle?;
      if clean {
        inflight := None;
        subscribed := false;
      }
      if subscribed {
        startup := None;
        if !idle {
          QueueAction(Publish(code));
        }
      } else {
        startup := if idle then None else Some(code);
        QueueAction(Subscribe);
      }
    }

    /** `abort`. */
    method Stop() returns (active: bool)
      requires Valid()
      modifies this
      ensures Valid() && (View(), active) == Abort(old(View()))
    {
      OthersKeep(View(), StagingLaws.Stop);
      active := state.Preparing? || state.Ready? || state.Writing?;
      if active {
        state := State.Error;
        request := None;
        QueueAction(Publish(StatusCode.Error));
      }
    }

    /** `complete_request`. */
    method Report(success: bool)
      modifies this
      ensures View() == CompleteRequest(old(View()), success) && (old(Valid()) ==> Valid())
    {
      if Valid() {
        ReportKeeps(View(), success);
      }
      if request.None? {
        return;
      }
      var taken := request.value;
      request := None;
      if transfer.None? {
        state := State.Error;
        QueueAction(Publish(StatusCode.Error));
        return;
      }
      if !success {
        state := State.Error;
        QueueAction(Publish(Storage));
        return;
      }
      match taken {
        case Prepare =>
          state := Ready;
          QueueAction(Publish(Accepted));
        case Write(next, final) =>
          if final {
            transfer := Some(transfer.value.(nextOffset := transfer.value.size));
            state := State.Complete;
            QueueAction(Publish(StatusCode.Complete));
          } else {
            transfer := Some(transfer.value.(nextOffset := next));
            state := Ready;
            QueueAction(Publish(Accepted));
          }
      }
    }

    /** `handle_manifest`. */
    method TakeManifest(manifest: Option<Manifest>) returns (r: Handle)
      requires Valid()
      modifies this
      ensures Valid() && (View(), r) == HandleManifest(old(View()), manifest)
    {
      ManifestKeeps(View(), manifest);
      r := Consumed;
      if manifest.None? || !ValidId(manifest.value.id) {
        if state.Idle? {
          QueueAction(Publish(StatusCode.Error));
        }
        return;
      }
      var m := manifest.value;
      if !state.Idle? {
        if transfer.Some? && SameManifest(transfer.value, m) {
          var code := ReplayCode();
          QueueAction(Publish(code));
        }
        return;
      }
      if m.size == 0 {
        QueueAction(Publish(StatusCode.Error));
        return;
      }
      if m.size > config.capacity {
        QueueAction(Publish(Oversize));
        return;
      }
      var needed := RequiredRx(prefix + CHUNK_SUFFIX, m.id, config.maxChunk);
      if needed > maxRx {
        QueueAction(Publish(Mtu));
        return;
      }
      transfer := Some(Transfer(m.id, m.size, 0, m.checksum));
      state := Preparing;
      QueueAction(Publish(Accepted));
      request := Some(Prepare);
      r := PrepareStorage(m.size);
    }

    /** `handle_chunk`. */
    method TakeChunk(id: seq<Byte>, offset: U32, payload: Payload) returns (r: Handle)
      requires Usable(View())
      modifies this
      ensures (View(), r) == HandleChunk(old(View()), id, offset, payload) && (old(Valid()) ==> Valid())
    {
      if Valid() {
        ChunkKeeps(View(), id, offset, payload);
      }
      r := Consumed;
      if transfer.None? {
        QueueAction(Publish(StatusCode.Idle));
        return;
      }
      var t := transfer.value;
      if id != t.id || state.Preparing? {
        return;
      }
      if state.Complete? || state.Error? {
        var code := ReplayCode();
        QueueAction(Publish(code));
        return;
      }
      if state.Writing? {
        return;
      }
      if !state.Ready? {
        QueueAction(Publish(StatusCode.Idle));
        return;
      }
      match ValidateChunk(t, offset, payload, config) {
        case Refuse(code) => QueueAction(Publish(code));
        case Reject(code) =>
          state := State.Error;
          QueueAction(Publish(code));
        case Accept(next) =>
          var final := next == t.size;
          state := Writing;
          request := Some(Request.Write(next, final));
          r := WriteStorage(offset, payload, t.size, if final then Some(t.checksum) else None);
      }
    }

    /** `handle`. */
    method HandleInbound(m: Inbound) returns (r: Handle)
      requires Valid()
      modifies this
      ensures Valid() && (View(), r) == Receive(old(View()), m)
    {
      if m.topic != prefix + MANIFEST_SUFFIX && m.topic != prefix + CHUNK_SUFFIX {
        return Unhandled;
      }
      if m.retained {
        return Consumed;
      }
      if m.topic == prefix + MANIFEST_SUFFIX {
        r := TakeManifest(m.manifest);
        return;
      }
      var chunk := ReadChunkProperties(m.properties);
      if chunk.None? {
        return Consumed;
      }
      r := TakeChunk(chunk.value.0, chunk.value.1, m.payload);
    }

    /** `step`, given what the connection answers. */
    method Advance(limit: nat, progress: Progress, start: Start) returns (r: StepResult, published: Option<Status>)
      requires Valid()
      modifies this
      ensures Valid() && (View(), r, published) == Step(old(View()), limit, progress, start)
    {
      OthersKeep(View(), Pump(limit, progress, start));
      hide Sound, Settle, Published;
      published := None;
      maxRx := limit;
      var busy := inflight.Some?;
      SettleInflight(progress);
      if busy && progress.StillPending? {
        return Pending, None;
      }
      if busy && progress.Invalidated? {
        return Disconnected, None;
      }
      if pending.None? {
        return Quiescent, None;
      }
      var action := pending.value;
      match start {
        case Busy => r := Pending;
        case Refused(queued) =>
          r := Failed;
          published := Publication(action, queued);
        case Cancelled(queued) =>
          r := Suspended;
          published := Publication(action, queued);
        case Started =>
          r := Pending;
          published := Publication(action, true);
          pending := None;
          inflight := Some(action);
      }
    }

    /** The part of `step` that deals with the operation in flight. */
    method SettleInflight(progress: Progress)
      modifies this
      ensures View() == Settle(old(View()), progress)
    {
      if inflight.None? || progress.StillPending? {
        return;
      }
      var taken := inflight.value;
      inflight := None;
      if progress.Invalidated? {
        QueueAction(taken);
        return;
      }
      if taken.Subscribe? {
        subscribed := true;
        var code := startup;
        startup := None;
        if code.Some? {
          QueueAction(Publish(code.value));
        }
      }
    }

    method Publication(action: Action, queued: bool) returns (p: Option<Status>)
      ensures p == Published(View(), action, queued)
    {
      if !queued || !action.Publish? {
        return None;
      }
      var id := if transfer.Some? then transfer.value.id else [];
      var next := if transfer.Some? then transfer.value.nextOffset else 0;
      var size := if transfer.Some? then transfer.value.size else 0;
      return Some(Status(state, action.code, id, next, size, config.maxChunk, config.writeSize,
                         prefix + CHUNK_SUFFIX, id, next));
    }
  }
}
