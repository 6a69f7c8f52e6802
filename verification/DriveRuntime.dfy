/**
  The client-drive runtime as it runs: an object whose entry points reassign its counters and,
  slot by slot, its table of peers in scanning loops, with a cancel hook that may re-enter.
  Every entry point is proved equal to its model.
 */
module DriveRuntime {
  import opened Status
  import opened Tally
  import opened DrivePath
  import opened DriveModel
  import opened DriveInvariants
  import opened DriveRuns

  /** Committing two outcomes in a row commits their sequence. */
  lemma CommitThen(d: Drive, k: nat, first: Outcome, rest: Outcome)
    requires k < |d.peers|
    ensures Commit(Commit(d, k, first), k, rest) == Commit(d, k, Then(first, rest))
  {
    assert d.peers[k := Some(first.peer)][k := Some(rest.peer)] == d.peers[k := Some(rest.peer)];
    assert (d.log + first.log) + rest.log == d.log + (first.log + rest.log);
  }

  /** Committing one more event of a hook. */
  lemma DeliverCommit(cfg: Config, d: Drive, k: nat, p: Peer, events: seq<Event>, n: nat, env: Env)
    requires k < |d.peers| && n < |events|
    ensures var before := Deliver(cfg, p, events, n, env);
      Commit(Commit(d, k, before), k, Terminal(cfg, before.peer, events[n], env))
        == Commit(d, k, Deliver(cfg, p, events, n + 1, env))
  {
    var before := Deliver(cfg, p, events, n, env);
    CommitThen(d, k, before, Terminal(cfg, before.peer, events[n], env));
  }

  /** Committing one more slot of a sweep. */
  lemma SweepCommit(cfg: Config, d: Drive, k: nat, p: Peer, n: nat, due: Pending -> bool, status: Status, env: Env)
    requires LegalHook(cfg, env) && k < |d.peers|
    ensures var before := SweepTo(p, n, due, status, env);
      Commit(Commit(d, k, before), k, CancelIf(before.peer, n, due, status, env))
        == Commit(d, k, SweepTo(p, n + 1, due, status, env))
    ensures |SweepTo(p, n + 1, due, status, env).peer.pending| == |p.pending|
  {
    var before := SweepTo(p, n, due, status, env);
    CommitThen(d, k, before, CancelIf(before.peer, n, due, status, env));
    SweepShape(cfg, p, n + 1, due, status, env);
  }

  class Runtime {
    const cfg: Config
    var peers: seq<Option<Peer>>
    var nextVolumeId: nat
    var enabled: bool
    ghost var log: seq<Completion>
    ghost var submitted: seq<Key>

    ghost function Value(): Drive
      reads this
    {
      Drive(cfg, peers, nextVolumeId, enabled, log, submitted)
    }

    ghost predicate Valid()
      reads this
    {
      Inv(Value())
    }

    ghost predicate Live(k: nat)
      reads this
    {
      k < |peers| && peers[k].Some?
    }

    constructor (cfg: Config, enabled: bool)
      requires ValidConfig(cfg)
      ensures Valid() && Value() == NewDrive(cfg, enabled)
    {
      this.cfg := cfg;
      peers := seq(cfg.maxPeers, i => None);
      nextVolumeId := 1;
      this.enabled := enabled;
      log, submitted := [], [];
      new;
      NewDriveInv(cfg, enabled);
    }

    // --- Lookups ---

    method LookupPeer(id: nat, generation: nat) returns (r: Option<nat>)
      ensures r == FindPeer(peers, id, generation)
    {
      if id == 0 || generation == 0 {
        return None;
      }
      r := FindFirst(peers, (slot: Option<Peer>) => PeerIs(slot, id, generation));
    }

    method LookupFile(p: Peer, h: Handle) returns (r: Option<nat>)
      ensures r == FindFile(p, h)
    {
      if h.reconnect == 0 || h.deviceId == 0 || h.fileId == 0 || h.reserved != 0 {
        return None;
      }
      r := FindFirst(p.files, (f: File) => HandleIs(f, h));
    }

    method LookupVolume(p: Peer, id: nat) returns (r: Option<nat>)
      ensures r == FindVolume(p, id)
    {
      if id == 0 {
        return None;
      }
      r := FindFirst(p.volumes, (v: Volume) => VolumeIs(v, id));
    }

    method LookupDevice(p: Peer, device: Device) returns (r: Option<nat>)
      ensures r == FindDevice(p, device)
    {
      if device.reconnect == 0 || device.id == 0 {
        return None;
      }
      r := FindFirst(p.volumes, (v: Volume) => OnDevice(v, device));
    }

    // --- One peer's terminal events ---

    /** Release slot `i` of peer `k` and its reservations. */
    method Clear(k: nat, i: nat)
      requires Live(k) && i < |peers[k].value.pending| && peers[k].value.pending[i].Pending?
      modifies this`peers
      ensures peers == old(peers)[k := Some(ClearPending(old(peers[k].value), i))]
    {
      var p := peers[k].value;
      var q := p.pending[i];
      if p.reservedBytes >= q.bytes {
        p := p.(reservedBytes := p.reservedBytes - q.bytes);
      } else {
        p := p.(reservedBytes := 0);
      }
      if q.reservesFile && p.reservedFiles > 0 {
        p := p.(reservedFiles := p.reservedFiles - 1);
      }
      if p.pendingCount > 0 {
        p := p.(pendingCount := p.pendingCount - 1);
      }
      peers := peers[k := Some(p.(pending := p.pending[i := Idle]))];
    }

    /** Register the file that a CREATE opened. */
    method RegisterFile(p: Peer, v: nat, e: Event) returns (r: Peer, status: Status)
      requires v < |p.volumes| && p.volumes[v].Volume?
      ensures (r, status) == SettleCreate(cfg, p, v, e)
    {
      r, status := p, Ok;
      var volume := p.volumes[v];
      var known := LookupFile(p, e.file);
      if p.openFiles >= cfg.maxOpenFiles ||
         e.file.reconnect != volume.device.reconnect || e.file.deviceId != volume.device.id ||
         e.file.fileId == 0 || e.file.reserved != 0 || known.Some? {
        status := LimitExceeded;
      } else {
        var free := FindFirst(p.files, (f: File) => f.NoFile?);
        if free.None? {
          status := LimitExceeded;
        } else {
          r := p.(files := p.files[free.value := File(volume.id, e.file)],
                  openFiles := p.openFiles + 1,
                  volumes := p.volumes[v := volume.(openFiles := volume.openFiles + 1)]);
        }
      }
    }

    /** Forget the file that a CLOSE closed. */
    method ForgetFile(p: Peer, v: nat, e: Event) returns (r: Peer, status: Status)
      requires v < |p.volumes| && p.volumes[v].Volume?
      ensures (r, status) == SettleClose(p, v, e)
    {
      r, status := p, Ok;
      var volume := p.volumes[v];
      var found := LookupFile(p, e.file);
      if found.None? || p.files[found.value].volumeId != volume.id {
        status := ProtocolError;
      } else {
        r := r.(files := r.files[found.value := NoFile]);
        if r.openFiles > 0 {
          r := r.(openFiles := r.openFiles - 1);
        }
        if volume.openFiles > 0 {
          r := r.(volumes := r.volumes[v := volume.(openFiles := volume.openFiles - 1)]);
        }
        assert p.volumes[v := volume] == p.volumes;
      }
    }

    /** Charge a successful completion to the peer and update its file table. */
    method SettleEvent(k: nat, v: nat, q: Pending, e: Event) returns (status: Status)
      requires Live(k) && v < |peers[k].value.volumes| && peers[k].value.volumes[v].Volume? && q.Pending?
      modifies this`peers
      ensures peers == old(peers)[k := Some(Settle(cfg, old(peers[k].value), v, q, e).0)]
      ensures status == Settle(cfg, old(peers[k].value), v, q, e).1
    {
      var p := peers[k].value;
      status := if q.terminal != Ok then q.terminal else e.status;
      if e.completed && status == Ok && e.dataLen > cfg.maxRequest {
        status := LimitExceeded;
      }
      if e.completed && status == Ok && e.ioStatus == IO_SUCCESS {
        if e.transferred > Sub64(cfg.maxTransfer, p.transferred) {
          status := LimitExceeded;
        } else if e.operation == CREATE {
          p, status := RegisterFile(p, v, e);
        } else if e.operation == CLOSE {
          p, status := ForgetFile(p, v, e);
        }
        if status == Ok {
          p := p.(transferred := p.transferred + e.transferred);
        }
      }
      peers := peers[k := Some(p)];
    }

    method MatchRequest(p: Peer, e: Event) returns (m: Match)
      ensures m == MatchEvent(p, e)
    {
      if e.requestId == 0 {
        return Miss(ProtocolError);
      }
      var found := FindFirst(p.pending, (q: Pending) => ProtocolIs(q, e.requestId));
      if found.None? || p.pending[found.value].operation != e.operation {
        return Miss(ProtocolError);
      }
      var volume := LookupVolume(p, p.pending[found.value].volumeId);
      if volume.None? {
        return Miss(State);
      }
      if e.device != p.volumes[volume.value].device || (e.dataLen > 0 && !e.hasData) {
        return Miss(ProtocolError);
      }
      return Hit(found.value, volume.value);
    }

    method EndRequest(k: nat, e: Event, env: Env) returns (status: Status)
      requires Live(k)
      modifies this`peers, this`log
      ensures status == Terminal(cfg, old(peers[k].value), e, env).status
      ensures Value() == Commit(old(Value()), k, Terminal(cfg, old(peers[k].value), e, env))
    {
      var p := peers[k].value;
      var m := MatchRequest(p, e);
      if m.Miss? {
        assert peers[k := Some(p)] == peers && log + [] == log;
        return m.status;
      }
      var q := p.pending[m.slot];
      status := SettleEvent(k, m.volume, q, e);
      var completion := Completion(Key(q.requestId, q.volumeId, p.id, p.generation, q.operation, q.infoClass),
                                   status, Some(e));
      log := log + [completion];
      Clear(k, m.slot);
      if status == Ok {
        status := env.ack(completion);
      }
    }

    // --- Cancellation ---

    /** The hook's events, delivered one by one. */
    method Reenter(k: nat, events: seq<Event>, env: Env)
      requires Live(k)
      modifies this`peers, this`log
      ensures Value() == Commit(old(Value()), k, Deliver(cfg, old(peers[k].value), events, |events|, env))
    {
      ghost var start := Value();
      var j := 0;
      assert peers[k := peers[k]] == peers && log + [] == log;
      while j < |events|
        invariant 0 <= j <= |events| && Live(k)
        invariant Value() == Commit(start, k, Deliver(cfg, start.peers[k].value, events, j, env))
      {
        var _ := EndRequest(k, events[j], env);
        DeliverCommit(cfg, start, k, start.peers[k].value, events, j, env);
        j := j + 1;
      }
    }

    /** Complete slot `i` of peer `k` without an event and release it. */
    method FinishPending(k: nat, i: nat, status: Status, env: Env) returns (r: Status)
      requires Live(k) && i < |peers[k].value.pending| && peers[k].value.pending[i].Pending?
      modifies this`peers, this`log
      ensures r == Finish(old(peers[k].value), i, status, env).status
      ensures Value() == Commit(old(Value()), k, Finish(old(peers[k].value), i, status, env))
    {
      var p := peers[k].value;
      var q := p.pending[i];
      var completion := Completion(Key(q.requestId, q.volumeId, p.id, p.generation, q.operation, q.infoClass),
                                   status, None);
      log := log + [completion];
      Clear(k, i);
      r := env.ack(completion);
    }

    /** Ask the protocol to cancel slot `i`; its events re-enter before it returns. */
    method CallHook(k: nat, i: nat, env: Env) returns (reply: CancelReply)
      requires LegalHook(cfg, env) && Live(k)
      modifies this`peers, this`log
      ensures reply == env.cancel(old(peers[k].value), i)
      ensures Value() == Commit(old(Value()), k, Outcome(reply.peer, reply.log, Ok))
    {
      assert HookAt(cfg, env, peers[k].value, i);
      reply := env.cancel(peers[k].value, i);
      Reenter(k, reply.events, env);
    }

    method Cancel(k: nat, i: nat, status: Status, env: Env) returns (r: Status)
      requires LegalHook(cfg, env)
      requires Live(k) && i < |peers[k].value.pending| && peers[k].value.pending[i].Pending?
      modifies this`peers, this`log
      ensures r == CancelSlot(old(peers[k].value), i, status, env).status
      ensures Value() == Commit(old(Value()), k, CancelSlot(old(peers[k].value), i, status, env))
    {
      ghost var start := Value();
      var p := peers[k].value;
      peers := peers[k := Some(p.(pending := p.pending[i := p.pending[i].(terminal := status)]))];
      var reply := CallHook(k, i, env);
      r := reply.status;
      HookShape(cfg, MarkTerminal(p, i, status), i, env);
      if peers[k].value.pending[i].Pending? {
        var acked := FinishPending(k, i, status, env);
        if r == Ok {
          r := acked;
        }
      }
    }

    /** Slot `index` of a sweep. */
    method CancelAt(k: nat, index: nat, due: Pending -> bool, status: Status, env: Env) returns (r: Status)
      requires LegalHook(cfg, env) && Live(k) && index < |peers[k].value.pending|
      modifies this`peers, this`log
      ensures r == CancelIf(old(peers[k].value), index, due, status, env).status
      ensures Value() == Commit(old(Value()), k, CancelIf(old(peers[k].value), index, due, status, env))
    {
      var q := peers[k].value.pending[index];
      if q.Pending? && due(q) {
        r := Cancel(k, index, status, env);
      } else {
        assert peers[k := peers[k]] == peers && log + [] == log;
        r := Ok;
      }
    }

    /** Cancel every pending request of peer `k` that passes the test, visiting each slot once. */
    method CancelMatching(k: nat, due: Pending -> bool, status: Status, env: Env) returns (firstError: Status)
      requires LegalHook(cfg, env) && Live(k)
      modifies this`peers, this`log
      ensures firstError == Sweep(old(peers[k].value), due, status, env).status
      ensures Value() == Commit(old(Value()), k, Sweep(old(peers[k].value), due, status, env))
    {
      ghost var start, p := Value(), peers[k].value;
      firstError := Ok;
      var index := 0;
      assert peers[k := peers[k]] == peers && log + [] == log;
      while index < |peers[k].value.pending|
        invariant Live(k) && 0 <= index <= |peers[k].value.pending| == |p.pending|
        invariant Value() == Commit(start, k, SweepTo(p, index, due, status, env))
        invariant firstError == SweepTo(p, index, due, status, env).status
        decreases |p.pending| - index
      {
        var result := CancelAt(k, index, due, status, env);
        SweepCommit(cfg, start, k, p, index, due, status, env);
        if result != Ok && firstError == Ok {
          firstError := result;
        }
        index := index + 1;
      }
    }

    // --- Volumes ---

    /** Free the entries of files open on the given volume. */
    method DropFiles(files: seq<File>, id: nat) returns (r: seq<File>)
      ensures r == FilesWithout(files, id)
    {
      r := files;
      var index := 0;
      while index < |files|
        invariant 0 <= index <= |files| == |r|
        invariant forall j | 0 <= j < index :: r[j] == FilesWithout(files, id)[j]
        invariant forall j | index <= j < |files| :: r[j] == files[j]
      {
        if r[index].File? && r[index].volumeId == id {
          r := r[index := NoFile];
        }
        index := index + 1;
      }
    }

    method Detach(k: nat, device: Device, env: Env) returns (status: Status)
      requires LegalHook(cfg, env) && Live(k)
      modifies this`peers, this`log
      ensures status == RemoveVolume(old(peers[k].value), device, env).status
      ensures Value() == Commit(old(Value()), k, RemoveVolume(old(peers[k].value), device, env))
    {
      var found := LookupDevice(peers[k].value, device);
      if found.None? {
        assert peers[k := peers[k]] == peers && log + [] == log;
        return State;
      }
      var v := found.value;
      var id := peers[k].value.volumes[v].id;
      var _ := CancelMatching(k, OnVolume(id), Cancelled, env);
      SweepShape(cfg, old(peers[k].value), |old(peers[k].value).pending|, OnVolume(id), Cancelled, env);
      assert SameVolume(old(peers[k].value).volumes[v], peers[k].value.volumes[v]);
      ForgetVolume(k, v);
      return Ok;
    }

    /** Drop volume `v` of peer `k` together with the files open on it. */
    method ForgetVolume(k: nat, v: nat)
      requires Live(k) && v < |peers[k].value.volumes| && peers[k].value.volumes[v].Volume?
      modifies this`peers
      ensures peers == old(peers)[k := Some(DropVolume(old(peers[k].value), v))]
    {
      var p := peers[k].value;
      if p.openFiles >= p.volumes[v].openFiles {
        p := p.(openFiles := p.openFiles - p.volumes[v].openFiles);
      } else {
        p := p.(openFiles := 0);
      }
      var files := DropFiles(p.files, p.volumes[v].id);
      p := p.(files := files, volumes := p.volumes[v := NoVolume]);
      if p.volumeCount > 0 {
        p := p.(volumeCount := p.volumeCount - 1);
      }
      peers := peers[k := Some(p)];
    }

    method Announce(k: nat, device: Device, name: string, env: Env) returns (status: Status)
      requires Live(k)
      modifies this`peers, this`nextVolumeId
      ensures var a := AddVolume(cfg, enabled, old(peers[k].value), device, name, old(nextVolumeId), env);
        && status == a.status
        && peers == old(peers)[k := Some(a.peer)]
        && nextVolumeId == old(nextVolumeId) + (if a.used then 1 else 0)
    {
      var p := peers[k].value;
      assert peers[k := Some(p)] == peers;
      if !enabled || device.reconnect == 0 || device.id == 0 || !NameAllowed(cfg, name) {
        return State;
      }
      var known := LookupDevice(p, device);
      if known.Some? {
        return ProtocolError;
      }
      if p.volumeCount >= cfg.maxVolumes {
        return LimitExceeded;
      }
      var free := FindFirst(p.volumes, (v: Volume) => v.NoVolume?);
      if free.None? {
        return LimitExceeded;
      }
      var volume := Volume(nextVolumeId, device, name, 0);
      nextVolumeId := nextVolumeId + 1;
      status := env.present(volume);
      if status == Ok {
        peers := peers[k := Some(p.(volumes := p.volumes[free.value := volume], volumeCount := p.volumeCount + 1))];
      }
    }

    // --- Entry points ---

    method AddPeer(id: nat, generation: nat) returns (status: Status)
      requires Valid()
      modifies this`peers
      ensures Valid() && (status, Value()) == DriveModel.AddPeer(old(Value()), id, generation)
    {
      AddPeerKeeps(Value(), id, generation);
      var known := LookupPeer(id, generation);
      if id == 0 || generation == 0 || known.Some? {
        return InvalidArgument;
      }
      var free := FindFirst(peers, (slot: Option<Peer>) => slot.None?);
      if free.None? {
        return LimitExceeded;
      }
      peers := peers[free.value := Some(NewPeer(cfg, id, generation))];
      return Ok;
    }

    /** Cancel all requests of peer `k` and take its volumes away. */
    method StripPeer(k: nat, status: Status, env: Env)
      requires LegalHook(cfg, env) && Live(k)
      modifies this`peers, this`log
      ensures Value() == Commit(old(Value()), k, Strip(old(peers[k].value), status, env))
    {
      var _ := CancelMatching(k, Always(), status, env);
      var p := peers[k].value;
      var index := 0;
      var volumes := p.volumes;
      while index < |volumes|
        invariant 0 <= index <= |volumes| == |p.volumes|
        invariant forall j | 0 <= j < index :: volumes[j].NoVolume?
      {
        if volumes[index].Volume? {
          volumes := volumes[index := NoVolume];
        }
        index := index + 1;
      }
      assert volumes == seq(|p.volumes|, i => NoVolume);
      peers := peers[k := Some(p.(volumes := volumes, files := seq(|p.files|, i => NoFile),
                                  volumeCount := 0, openFiles := 0, reservedFiles := 0))];
    }

    method RemovePeer(id: nat, generation: nat, env: Env)
      requires Valid() && LegalHook(cfg, env)
      modifies this`peers, this`log
      ensures Valid() && Value() == DriveModel.RemovePeer(old(Value()), id, generation, env)
    {
      RemovePeerKeeps(Value(), id, generation, env);
      var found := LookupPeer(id, generation);
      if found.None? {
        return;
      }
      ghost var start := peers;
      StripPeer(found.value, Cancelled, env);
      assert peers[found.value := None] == start[found.value := None];
      peers := peers[found.value := None];
    }

    method ProtocolEvent(id: nat, generation: nat, input: ProtocolInput, env: Env) returns (status: Status)
      requires Valid() && LegalHook(cfg, env)
      modifies this`peers, this`log, this`nextVolumeId
      ensures Valid() && (status, Value()) == DriveModel.ProtocolEvent(old(Value()), id, generation, input, env)
    {
      ProtocolKeeps(Value(), id, generation, input, env);
      var found := LookupPeer(id, generation);
      if found.None? {
        return InvalidArgument;
      }
      status := DispatchInput(found.value, input, env);
    }

    method DispatchInput(k: nat, input: ProtocolInput, env: Env) returns (status: Status)
      requires LegalHook(cfg, env) && Live(k)
      modifies this`peers, this`log, this`nextVolumeId
      ensures (status, Value()) == PeerInput(old(Value()), k, input, env)
    {
      match input {
        case DeviceAdded(device, name) =>
          status := Announce(k, device, name, env);
        case DeviceRemoved(device) =>
          status := Detach(k, device, env);
        case RequestEnded(event) =>
          status := EndRequest(k, event, env);
        case UnknownEvent =>
          status := Unsupported;
      }
    }

    /** Every lock range is non-empty and ends inside the 64-bit file space. */
    method LocksFit(locks: seq<LockRange>) returns (ok: bool)
      ensures ok <==> forall i | 0 <= i < |locks| ::
        locks[i].length != 0 && locks[i].offset + locks[i].length <= U64_MAX
    {
      var index := 0;
      while index < |locks|
        invariant 0 <= index <= |locks|
        invariant forall i | 0 <= i < index :: locks[i].length != 0 && locks[i].offset + locks[i].length <= U64_MAX
      {
        if locks[index].length == 0 || locks[index].length > U64_MAX ||
           locks[index].offset > U64_MAX - locks[index].length {
          return false;
        }
        index := index + 1;
      }
      return true;
    }

    method ValidateRequest(p: Peer, v: nat, r: Request) returns (status: Status)
      requires v < |p.volumes| && p.volumes[v].Volume?
      ensures status == Validate(cfg, p, v, r)
    {
      var locksFit := LocksFit(r.locks);
      if !r.wellFormed || r.requestId == 0 || (!r.hasData && r.dataLen > 0) ||
         r.dataLen > cfg.maxRequest || r.length > cfg.maxRequest || r.outputLength > cfg.maxRequest ||
         r.operation < CREATE || r.operation > SHUTDOWN ||
         (r.operation == READ && r.offset + r.length > U64_MAX) ||
         (r.operation == WRITE && r.offset != U64_MAX && r.offset + r.dataLen > U64_MAX) ||
         (r.operation == CREATE && r.allocationSize > cfg.maxTransfer) ||
         (r.operation == QUERY_DIRECTORY && r.initialQuery > 1) ||
         (r.operation == NOTIFY_DIRECTORY && r.watchTree > 1) ||
         (r.operation == LOCK &&
          (r.lockCount != |r.locks| || r.lockOperation < LOCK_SHARED || r.lockOperation > UNLOCK_MULTIPLE ||
           r.lockCount > cfg.maxRequest / LOCK_RANGE_BYTES || !locksFit)) {
        return InvalidArgument;
      }
      if r.operation == CREATE || r.operation == SHUTDOWN {
        if r.device != p.volumes[v].device {
          return State;
        }
      } else {
        var file := LookupFile(p, r.file);
        if file.None? || p.files[file.value].volumeId != p.volumes[v].id {
          return State;
        }
      }
      if cfg.readOnly && Mutating(r) {
        return State;
      }
      if r.path.Some? {
        var normal := NormalizePath(r.path.value, cfg.maxPath);
        if normal.Rejected? {
          return normal.status;
        }
      } else if r.operation == CREATE {
        return InvalidArgument;
      }
      status := if QuotaAllows(cfg, p, Reservation(r)) then Ok else LimitExceeded;
    }

    /** The checks between finding the peer and submitting to the protocol. */
    method AdmitCheck(p: Peer, r: Request) returns (a: Admission)
      ensures a == Admissible(cfg, p, r)
    {
      var volume := LookupVolume(p, r.volumeId);
      if volume.None? {
        return Refuse(State);
      }
      if r.requestId != 0 {
        var known := FindFirst(p.pending, (q: Pending) => RequestIs(q, r.requestId));
        if known.Some? {
          return Refuse(State);
        }
      }
      if p.pendingCount >= cfg.maxPending {
        return Refuse(LimitExceeded);
      }
      var status := ValidateRequest(p, volume.value, r);
      if status != Ok {
        return Refuse(status);
      }
      if r.operation == CREATE && p.openFiles + p.reservedFiles >= cfg.maxOpenFiles {
        return Refuse(LimitExceeded);
      }
      var free := FindFirst(p.pending, (q: Pending) => q.Idle?);
      if free.None? {
        return Refuse(LimitExceeded);
      }
      return Accept(free.value);
    }

    /** Fill the pending slot of a submitted request and reserve what it needs. */
    method RecordPending(k: nat, slot: nat, r: Request, protocolId: nat, now: u64)
      requires Live(k) && slot < |peers[k].value.pending|
      modifies this`peers
      ensures peers == old(peers)[k := Some(Admit(cfg, old(peers[k].value), slot, r, protocolId, now))]
    {
      var p := peers[k].value;
      var deadline := (now + cfg.timeoutMs * NS_PER_MS) % (U64_MAX + 1);
      if deadline < now {
        deadline := U64_MAX;
      }
      var creates := r.operation == CREATE;
      p := p.(pending := p.pending[slot :=
                Pending(r.requestId, protocolId, r.volumeId, deadline, Reservation(r),
                        r.operation, r.infoClass, Ok, creates)],
              pendingCount := p.pendingCount + 1,
              reservedBytes := p.reservedBytes + Reservation(r));
      if creates {
        p := p.(reservedFiles := p.reservedFiles + 1);
      }
      peers := peers[k := Some(p)];
    }

    /** Admit and submit a request, or say why not; nothing is completed here. */
    method Submit(r: Request, now: u64, env: Env) returns (status: Status)
      modifies this`peers
      ensures (status, Value()) == Submission(old(Value()), r, now, env)
    {
      if !enabled {
        return State;
      }
      var found := LookupPeer(r.peerId, r.generation);
      if found.None? {
        return State;
      }
      var admission := AdmitCheck(peers[found.value].value, r);
      if admission.Refuse? {
        return admission.status;
      }
      var reply := env.submit(WithNormalPath(cfg, r));
      if reply.status == Ok {
        RecordPending(found.value, admission.slot, r, reply.protocolId, now);
      }
      return reply.status;
    }

    method PlatformRequest(r: Request, now: u64, env: Env) returns (status: Status)
      requires Valid()
      modifies this`peers, this`log, this`submitted
      ensures Valid() && (status, Value()) == DriveModel.PlatformRequest(old(Value()), r, now, env)
    {
      RequestKeeps(Value(), r, now, env);
      status := Submit(r, now, env);
      submitted := submitted + [KeyOfRequest(r)];
      if status != Ok {
        log := log + [Completion(KeyOfRequest(r), status, None)];
      }
    }

    method PlatformCancel(id: nat, generation: nat, requestId: nat, env: Env) returns (status: Status)
      requires Valid() && LegalHook(cfg, env)
      modifies this`peers, this`log
      ensures Valid() && (status, Value()) == DriveModel.PlatformCancel(old(Value()), id, generation, requestId, env)
    {
      CancelRequestKeeps(Value(), id, generation, requestId, env);
      var found := LookupPeer(id, generation);
      if found.None? || requestId == 0 {
        return InvalidArgument;
      }
      var slot := FindFirst(peers[found.value].value.pending, (q: Pending) => RequestIs(q, requestId));
      if slot.None? {
        return State;
      }
      status := Cancel(found.value, slot.value, Cancelled, env);
    }

    method Revoke(env: Env)
      requires Valid() && LegalHook(cfg, env)
      modifies this`peers, this`log, this`enabled
      ensures Valid() && Value() == DriveModel.Revoke(old(Value()), env)
    {
      RevokeKeeps(Value(), env);
      if !enabled {
        return;
      }
      enabled := false;
      StripAll(env);
    }

    method StripAll(env: Env)
      requires LegalHook(cfg, env)
      modifies this`peers, this`log
      ensures Value() == StripFrom(old(Value()), 0, env)
    {
      ghost var all := StripFrom(Value(), 0, env);
      var index := 0;
      while index < |peers|
        invariant 0 <= index <= |peers|
        invariant StripFrom(Value(), index, env) == all
        decreases |peers| - index
      {
        if peers[index].Some? {
          StripPeer(index, State, env);
        }
        index := index + 1;
      }
    }

    method SetEnabled(on: bool, env: Env)
      requires Valid() && LegalHook(cfg, env)
      modifies this`peers, this`log, this`enabled
      ensures Valid() && Value() == DriveModel.SetEnabled(old(Value()), on, env)
    {
      EnableKeeps(Value(), on, env);
      if enabled == on {
        return;
      }
      if !on {
        Revoke(env);
      } else {
        enabled := true;
      }
    }

    method DispatchTimeouts(now: u64, env: Env) returns (firstError: Status)
      requires Valid() && LegalHook(cfg, env)
      modifies this`peers, this`log
      ensures Valid() && (firstError, Value()) == DriveModel.DispatchTimeouts(old(Value()), now, env)
    {
      ghost var all := DriveModel.DispatchTimeouts(Value(), now, env);
      TimeoutsKeep(Value(), 0, now, env);
      firstError := Ok;
      var index := 0;
      while index < |peers|
        invariant 0 <= index <= |peers|
        invariant TimeoutsFrom(Value(), index, now, env).1 == all.1
        invariant all.0 == if firstError != Ok then firstError else TimeoutsFrom(Value(), index, now, env).0
        decreases |peers| - index
      {
        if peers[index].Some? {
          var result := CancelMatching(index, DueBy(now), Timeout, env);
          if result != Ok && firstError == Ok {
            firstError := result;
          }
        }
        index := index + 1;
      }
    }
  }
}
