/**
  Value model of the client-drive runtime: volumes, open files, pending requests and their
  reservations per peer, and what each entry point makes of them. The functions here say what
  the runtime does; DriveInvariants proves what that guarantees and DriveRuntime implements it.
 */
module DriveModel {
  import opened Status
  import opened Tally
  import opened DrivePath

  // --- Wire-level names ---

  const CREATE: nat := 1
  const CLOSE: nat := 2
  const READ: nat := 3
  const WRITE: nat := 4
  const SET_INFORMATION: nat := 6
  const SET_VOLUME: nat := 9
  const QUERY_DIRECTORY: nat := 10
  const NOTIFY_DIRECTORY: nat := 11
  const CONTROL: nat := 12
  const LOCK: nat := 13
  const QUERY_SECURITY: nat := 14
  const SET_SECURITY: nat := 15
  const SHUTDOWN: nat := 17

  const IO_SUCCESS: nat := 0
  const WRITE_ACCESS_MASK: bv32 := 0x500d0116
  const DISPOSITION_OPEN: nat := 1
  const LOCK_RANGE_BYTES: nat := 16
  const LOCK_SHARED: nat := 1
  const UNLOCK_MULTIPLE: nat := 4

  datatype Config = Config(
    maxPeers: nat,
    maxVolumes: nat,
    maxPending: nat,
    maxOpenFiles: nat,
    maxPath: nat,
    maxRequest: nat,
    maxTransfer: nat,
    timeoutMs: nat,
    allowed: seq<string>,
    readOnly: bool)

  predicate ValidConfig(c: Config) {
    && 0 < c.maxPeers < U32_RANGE
    && 0 < c.maxVolumes < U32_RANGE
    && 0 < c.maxPending < U32_RANGE
    && 0 < c.maxOpenFiles < U32_RANGE
    && 0 < c.maxPath <= (U32_RANGE - 1) / 2
    && 0 < c.maxRequest < U32_RANGE
    && 0 < c.maxTransfer <= U64_MAX
    && 0 < c.timeoutMs < U32_RANGE
    && forall i | 0 <= i < |c.allowed| :: 0 < |c.allowed[i]| <= 255
  }

  datatype Device = Device(reconnect: nat, id: nat)

  datatype Handle = Handle(reconnect: nat, deviceId: nat, fileId: nat, reserved: nat)

  // --- Slots ---

  datatype Volume = NoVolume | Volume(id: nat, device: Device, name: string, openFiles: nat)

  datatype Pending =
    | Idle
    | Pending(
        requestId: nat,
        protocolId: nat,
        volumeId: nat,
        deadline: nat,
        bytes: nat,
        operation: nat,
        infoClass: nat,
        terminal: Status,
        reservesFile: bool)

  datatype File = NoFile | File(volumeId: nat, handle: Handle)

  datatype Peer = Peer(
    id: nat,
    generation: nat,
    volumes: seq<Volume>,
    pending: seq<Pending>,
    files: seq<File>,
    volumeCount: nat,
    pendingCount: nat,
    openFiles: nat,
    reservedFiles: nat,
    transferred: nat,
    reservedBytes: nat)

  /** A terminal protocol event for one request. */
  datatype Event = Event(
    completed: bool,
    status: Status,
    device: Device,
    file: Handle,
    requestId: nat,
    operation: nat,
    ioStatus: nat,
    information: nat,
    transferred: nat,
    hasData: bool,
    dataLen: nat)

  /** What identifies one platform request and its completion. */
  datatype Key = Key(requestId: nat, volumeId: nat, peerId: nat, generation: nat, operation: nat, infoClass: nat)

  /** One delivery to the platform; `event` is absent when the runtime itself ended the request. */
  datatype Completion = Completion(key: Key, status: Status, event: Option<Event>)

  /**
    A returned cancel hook: the terminal events it emitted before returning, the peer and the
    completions those events led to (see LegalHook), and its own status.
   */
  datatype CancelReply = CancelReply(events: seq<Event>, peer: Peer, log: seq<Completion>, status: Status)

  datatype SubmitReply = SubmitReply(status: Status, protocolId: nat)

  datatype LockRange = LockRange(offset: nat, length: nat)

  datatype Request = Request(
    requestId: nat,
    volumeId: nat,
    peerId: nat,
    generation: nat,
    wellFormed: bool,
    operation: nat,
    device: Device,
    file: Handle,
    path: Option<string>,
    desiredAccess: bv32,
    allocationSize: nat,
    createDisposition: nat,
    offset: nat,
    length: nat,
    infoClass: nat,
    outputLength: nat,
    initialQuery: nat,
    watchTree: nat,
    lockOperation: nat,
    lockCount: nat,
    locks: seq<LockRange>,
    hasData: bool,
    dataLen: nat)

  /** Answers of the protocol and the platform during one entry point. */
  datatype Env = Env(
    cancel: (Peer, nat) -> CancelReply,
    ack: Completion -> Status,
    present: Volume -> Status,
    submit: Request -> SubmitReply)

  // --- Tests on slots ---

  predicate PeerIs(slot: Option<Peer>, id: nat, generation: nat) {
    slot.Some? && slot.value.id == id && slot.value.generation == generation
  }

  function FindPeer(peers: seq<Option<Peer>>, id: nat, generation: nat): Option<nat> {
    if id == 0 || generation == 0 then None
    else First(peers, (slot: Option<Peer>) => PeerIs(slot, id, generation))
  }

  predicate VolumeIs(v: Volume, id: nat) { v.Volume? && v.id == id }

  function FindVolume(p: Peer, id: nat): Option<nat> {
    if id == 0 then None else First(p.volumes, (v: Volume) => VolumeIs(v, id))
  }

  predicate OnDevice(v: Volume, device: Device) { v.Volume? && v.device == device }

  function FindDevice(p: Peer, device: Device): Option<nat> {
    if device.reconnect == 0 || device.id == 0 then None
    else First(p.volumes, (v: Volume) => OnDevice(v, device))
  }

  predicate RequestIs(q: Pending, id: nat) { q.Pending? && q.requestId == id }

  function FindRequest(p: Peer, id: nat): Option<nat> {
    if id == 0 then None else First(p.pending, (q: Pending) => RequestIs(q, id))
  }

  predicate ProtocolIs(q: Pending, id: nat) { q.Pending? && q.protocolId == id }

  function FindProtocol(p: Peer, id: nat): Option<nat> {
    if id == 0 then None else First(p.pending, (q: Pending) => ProtocolIs(q, id))
  }

  predicate HandleIs(f: File, h: Handle) {
    f.File? && f.handle.reconnect == h.reconnect && f.handle.deviceId == h.deviceId && f.handle.fileId == h.fileId
  }

  function FindFile(p: Peer, h: Handle): Option<nat> {
    if h.reconnect == 0 || h.deviceId == 0 || h.fileId == 0 || h.reserved != 0 then None
    else First(p.files, (f: File) => HandleIs(f, h))
  }

  // --- Completion, clearing, cancellation ---

  function KeyOf(p: Peer, q: Pending): Key
    requires q.Pending?
  {
    Key(q.requestId, q.volumeId, p.id, p.generation, q.operation, q.infoClass)
  }

  function Less(total: nat, amount: nat): nat { if total >= amount then total - amount else 0 }

  /** Release one pending slot and its reservations; the subtractions clamp at zero. */
  function ClearPending(p: Peer, i: nat): Peer
    requires i < |p.pending| && p.pending[i].Pending?
  {
    var q := p.pending[i];
    p.(pending := p.pending[i := Idle],
       reservedBytes := Less(p.reservedBytes, q.bytes),
       reservedFiles := if q.reservesFile then Less(p.reservedFiles, 1) else p.reservedFiles,
       pendingCount := Less(p.pendingCount, 1))
  }

  function OpenFile(p: Peer, v: nat, k: nat, handle: Handle): Peer
    requires v < |p.volumes| && p.volumes[v].Volume? && k < |p.files|
  {
    var volume := p.volumes[v];
    p.(files := p.files[k := File(volume.id, handle)],
       openFiles := p.openFiles + 1,
       volumes := p.volumes[v := volume.(openFiles := volume.openFiles + 1)])
  }

  function CloseFile(p: Peer, v: nat, k: nat): Peer
    requires v < |p.volumes| && p.volumes[v].Volume? && k < |p.files|
  {
    var volume := p.volumes[v];
    p.(files := p.files[k := NoFile],
       openFiles := Less(p.openFiles, 1),
       volumes := p.volumes[v := volume.(openFiles := Less(volume.openFiles, 1))])
  }

  /** Unsigned 64-bit subtraction. */
  function Sub64(a: nat, b: nat): nat { (a - b) % (U64_MAX + 1) }

  /** Status a terminal event carries before quotas and file tables have their say. */
  function EventStatus(cfg: Config, q: Pending, e: Event): Status
    requires q.Pending?
  {
    var status := if q.terminal != Ok then q.terminal else e.status;
    if e.completed && status == Ok && e.dataLen > cfg.maxRequest then LimitExceeded else status
  }

  predicate SameSizes(p: Peer, r: Peer) {
    && r.id == p.id && r.generation == p.generation
    && |r.volumes| == |p.volumes| && |r.pending| == |p.pending| && |r.files| == |p.files|
  }

  /** Same peer, same slot counts, same volumes in the same slots; only cleared requests may differ. */
  ghost predicate SameShape(p: Peer, r: Peer) {
    && SameSizes(p, r)
    && (forall v | 0 <= v < |p.volumes| :: SameVolume(p.volumes[v], r.volumes[v]))
    && (forall i | 0 <= i < |p.pending| :: r.pending[i] == p.pending[i] || r.pending[i].Idle?)
  }

  predicate SameVolume(a: Volume, b: Volume) {
    if a.NoVolume? then b.NoVolume? else b.Volume? && b.id == a.id && b.device == a.device
  }

  /** Register the file a CREATE opened on volume `v`. */
  function SettleCreate(cfg: Config, p: Peer, v: nat, e: Event): (r: (Peer, Status))
    requires v < |p.volumes| && p.volumes[v].Volume?
    ensures SameSizes(p, r.0) && r.0.pending == p.pending
  {
    var device := p.volumes[v].device;
    if p.openFiles >= cfg.maxOpenFiles ||
       e.file.reconnect != device.reconnect || e.file.deviceId != device.id ||
       e.file.fileId == 0 || e.file.reserved != 0 || FindFile(p, e.file).Some?
    then (p, LimitExceeded)
    else
      match First(p.files, (f: File) => f.NoFile?)
      case None => (p, LimitExceeded)
      case Some(k) => (OpenFile(p, v, k, e.file), Ok)
  }

  /** Forget the file a CLOSE closed on volume `v`. */
  function SettleClose(p: Peer, v: nat, e: Event): (r: (Peer, Status))
    requires v < |p.volumes| && p.volumes[v].Volume?
    ensures SameSizes(p, r.0) && r.0.pending == p.pending
  {
    match FindFile(p, e.file)
    case None => (p, ProtocolError)
    case Some(k) =>
      if p.files[k].volumeId != p.volumes[v].id then (p, ProtocolError) else (CloseFile(p, v, k), Ok)
  }

  function SettleFile(cfg: Config, p: Peer, v: nat, e: Event): (r: (Peer, Status))
    requires v < |p.volumes| && p.volumes[v].Volume?
    ensures SameSizes(p, r.0) && r.0.pending == p.pending
  {
    if e.operation == CREATE then SettleCreate(cfg, p, v, e)
    else if e.operation == CLOSE then SettleClose(p, v, e)
    else (p, Ok)
  }

  /** Commit quota and file effects of a matched event; the status is what the platform will see. */
  function Settle(cfg: Config, p: Peer, v: nat, q: Pending, e: Event): (r: (Peer, Status))
    requires v < |p.volumes| && p.volumes[v].Volume? && q.Pending?
    ensures SameSizes(p, r.0) && r.0.pending == p.pending
  {
    var status := EventStatus(cfg, q, e);
    if !e.completed || status != Ok || e.ioStatus != IO_SUCCESS then (p, status)
    else if e.transferred > Sub64(cfg.maxTransfer, p.transferred) then (p, LimitExceeded)
    else
      var (settled, outcome) := SettleFile(cfg, p, v, e);
      if outcome == Ok then (settled.(transferred := settled.transferred + e.transferred), Ok)
      else (settled, outcome)
  }

  datatype Outcome = Outcome(peer: Peer, log: seq<Completion>, status: Status)

  /** Which pending slot and volume an event belongs to, or why it is refused. */
  datatype Match = Miss(status: Status) | Hit(slot: nat, volume: nat)

  function MatchEvent(p: Peer, e: Event): (m: Match)
    ensures m.Hit? ==>
      && m.slot < |p.pending| && p.pending[m.slot].Pending?
      && m.volume < |p.volumes| && p.volumes[m.volume].Volume?
  {
    match FindProtocol(p, e.requestId)
    case None => Miss(ProtocolError)
    case Some(i) =>
      if p.pending[i].operation != e.operation then Miss(ProtocolError)
      else
        match FindVolume(p, p.pending[i].volumeId)
        case None => Miss(State)
        case Some(v) =>
          if e.device != p.volumes[v].device || (e.dataLen > 0 && !e.hasData) then Miss(ProtocolError)
          else Hit(i, v)
  }

  /** One terminal protocol event. */
  function Terminal(cfg: Config, p: Peer, e: Event, env: Env): (o: Outcome)
    ensures SameSizes(p, o.peer)
  {
    match MatchEvent(p, e)
    case Miss(status) => Outcome(p, [], status)
    case Hit(i, v) =>
      var q := p.pending[i];
      var (settled, status) := Settle(cfg, p, v, q, e);
      var completion := Completion(KeyOf(p, q), status, Some(e));
      Outcome(ClearPending(settled, i), [completion], if status == Ok then env.ack(completion) else status)
  }

  /** One outcome after another; the status is the first failure. */
  function Then(first: Outcome, rest: Outcome): Outcome {
    Outcome(rest.peer, first.log + rest.log, if first.status != Ok then first.status else rest.status)
  }

  /** The first `n` events a cancel hook emits, one after the other. */
  function Deliver(cfg: Config, p: Peer, events: seq<Event>, n: nat, env: Env): (o: Outcome)
    requires n <= |events|
    ensures SameSizes(p, o.peer)
  {
    if n == 0 then Outcome(p, [], Ok)
    else
      var before := Deliver(cfg, p, events, n - 1, env);
      Then(before, Terminal(cfg, before.peer, events[n - 1], env))
  }

  function MarkTerminal(p: Peer, i: nat, status: Status): Peer
    requires i < |p.pending| && p.pending[i].Pending?
  {
    p.(pending := p.pending[i := p.pending[i].(terminal := status)])
  }

  /** Complete slot `i` from the runtime's own side, without an event. */
  function Finish(p: Peer, i: nat, status: Status, env: Env): Outcome
    requires i < |p.pending| && p.pending[i].Pending?
  {
    var completion := Completion(KeyOf(p, p.pending[i]), status, None);
    Outcome(ClearPending(p, i), [completion], env.ack(completion))
  }

  /**
    End the request in slot `i`: ask the protocol, which may or may not emit the terminal event
    (or others) before it returns, and complete the request here if it is still pending.
   */
  function CancelSlot(p: Peer, i: nat, status: Status, env: Env): Outcome
    requires i < |p.pending| && p.pending[i].Pending?
  {
    var reply := env.cancel(MarkTerminal(p, i, status), i);
    if i < |reply.peer.pending| && reply.peer.pending[i].Pending? then
      var finished := Finish(reply.peer, i, status, env);
      Outcome(finished.peer, reply.log + finished.log,
              if reply.status != Ok then reply.status else finished.status)
    else
      Outcome(reply.peer, reply.log, reply.status)
  }

  /** Cancel slot `k` if it is pending and passes the test. */
  function CancelIf(p: Peer, k: nat, due: Pending -> bool, status: Status, env: Env): Outcome {
    if k < |p.pending| && p.pending[k].Pending? && due(p.pending[k]) then CancelSlot(p, k, status, env)
    else Outcome(p, [], Ok)
  }

  /** Cancel every pending slot below `k` that passes the test, visiting each once. */
  function SweepTo(p: Peer, k: nat, due: Pending -> bool, status: Status, env: Env): Outcome {
    if k == 0 then Outcome(p, [], Ok)
    else
      var before := SweepTo(p, k - 1, due, status, env);
      Then(before, CancelIf(before.peer, k - 1, due, status, env))
  }

  function Sweep(p: Peer, due: Pending -> bool, status: Status, env: Env): Outcome {
    SweepTo(p, |p.pending|, due, status, env)
  }

  /** The hook's effect on a peer is that of the terminal events it emitted, in order. */
  ghost predicate HookAt(cfg: Config, env: Env, p: Peer, i: nat) {
    var reply := env.cancel(p, i);
    var emitted := Deliver(cfg, p, reply.events, |reply.events|, env);
    reply.peer == emitted.peer && reply.log == emitted.log
  }

  /** A cancel hook may emit any terminal events whatever, or none. */
  ghost predicate LegalHook(cfg: Config, env: Env) {
    forall p: Peer, i: nat :: HookAt(cfg, env, p, i)
  }

  lemma TerminalShape(cfg: Config, p: Peer, e: Event, env: Env)
    ensures SameShape(p, Terminal(cfg, p, e, env).peer)
  {
  }

  lemma ShapeThen(p: Peer, q: Peer, r: Peer)
    requires SameShape(p, q) && SameShape(q, r)
    ensures SameShape(p, r)
  {
  }

  lemma {:induction false} DeliverShape(cfg: Config, p: Peer, events: seq<Event>, n: nat, env: Env)
    requires n <= |events|
    ensures SameShape(p, Deliver(cfg, p, events, n, env).peer)
  {
    if n > 0 {
      var before := Deliver(cfg, p, events, n - 1, env).peer;
      DeliverShape(cfg, p, events, n - 1, env);
      TerminalShape(cfg, before, events[n - 1], env);
      ShapeThen(p, before, Terminal(cfg, before, events[n - 1], env).peer);
    }
  }

  lemma HookShape(cfg: Config, p: Peer, i: nat, env: Env)
    requires LegalHook(cfg, env)
    ensures SameShape(p, env.cancel(p, i).peer)
  {
    assert HookAt(cfg, env, p, i);
    var events := env.cancel(p, i).events;
    DeliverShape(cfg, p, events, |events|, env);
  }

  lemma CancelShape(cfg: Config, p: Peer, i: nat, status: Status, env: Env)
    requires LegalHook(cfg, env) && i < |p.pending| && p.pending[i].Pending?
    ensures SameShape(p, CancelSlot(p, i, status, env).peer)
    ensures CancelSlot(p, i, status, env).peer.pending[i].Idle?
  {
    HookShape(cfg, MarkTerminal(p, i, status), i, env);
  }

  lemma CancelIfShape(cfg: Config, p: Peer, k: nat, due: Pending -> bool, status: Status, env: Env)
    requires LegalHook(cfg, env)
    ensures SameShape(p, CancelIf(p, k, due, status, env).peer)
    ensures k < |p.pending| ==>
      var q := CancelIf(p, k, due, status, env).peer.pending[k]; q.Idle? || !due(q)
  {
    if k < |p.pending| && p.pending[k].Pending? && due(p.pending[k]) {
      CancelShape(cfg, p, k, status, env);
    }
  }

  lemma {:induction false} SweepShape(cfg: Config, p: Peer, k: nat, due: Pending -> bool, status: Status, env: Env)
    requires LegalHook(cfg, env)
    ensures SameShape(p, SweepTo(p, k, due, status, env).peer)
  {
    if k > 0 {
      var before := SweepTo(p, k - 1, due, status, env).peer;
      SweepShape(cfg, p, k - 1, due, status, env);
      CancelIfShape(cfg, before, k - 1, due, status, env);
      ShapeThen(p, before, CancelIf(before, k - 1, due, status, env).peer);
    }
  }

  /** No slot below `k` passes the test any more. */
  ghost predicate Cleared(p: Peer, k: nat, due: Pending -> bool) {
    forall j | 0 <= j < k && j < |p.pending| :: p.pending[j].Idle? || !due(p.pending[j])
  }

  lemma ClearedMore(p: Peer, r: Peer, k: nat, due: Pending -> bool)
    requires Cleared(p, k, due) && SameShape(p, r)
    requires k < |p.pending| ==> r.pending[k].Idle? || !due(r.pending[k])
    ensures Cleared(r, k + 1, due)
  {
  }

  lemma {:induction false} SweepClears(cfg: Config, p: Peer, k: nat, due: Pending -> bool, status: Status, env: Env)
    requires LegalHook(cfg, env)
    ensures Cleared(SweepTo(p, k, due, status, env).peer, k, due)
  {
    if k > 0 {
      var before := SweepTo(p, k - 1, due, status, env).peer;
      SweepClears(cfg, p, k - 1, due, status, env);
      CancelIfShape(cfg, before, k - 1, due, status, env);
      ClearedMore(before, CancelIf(before, k - 1, due, status, env).peer, k - 1, due);
    }
  }

  function Always(): Pending -> bool { q => true }

  function OnVolume(id: nat): Pending -> bool { (q: Pending) => q.Pending? && q.volumeId == id }

  function DueBy(now: nat): Pending -> bool { (q: Pending) => q.Pending? && q.deadline <= now }

  // --- Volumes ---

  function FilesWithout(files: seq<File>, id: nat): (r: seq<File>)
    ensures |r| == |files|
    ensures forall k | 0 <= k < |files| ::
      r[k] == if files[k].File? && files[k].volumeId == id then NoFile else files[k]
  {
    seq(|files|, k requires 0 <= k < |files| =>
      if files[k].File? && files[k].volumeId == id then NoFile else files[k])
  }

  /** Drop volume `v` and the files open on it. */
  function DropVolume(p: Peer, v: nat): Peer
    requires v < |p.volumes| && p.volumes[v].Volume?
  {
    p.(openFiles := Less(p.openFiles, p.volumes[v].openFiles),
       files := FilesWithout(p.files, p.volumes[v].id),
       volumes := p.volumes[v := NoVolume],
       volumeCount := Less(p.volumeCount, 1))
  }

  function RemoveVolume(p: Peer, device: Device, env: Env): Outcome {
    match FindDevice(p, device)
    case None => Outcome(p, [], State)
    case Some(v) =>
      var swept := Sweep(p, OnVolume(p.volumes[v].id), Cancelled, env);
      if v < |swept.peer.volumes| && swept.peer.volumes[v].Volume?
      then Outcome(DropVolume(swept.peer, v), swept.log, Ok)
      else Outcome(swept.peer, swept.log, Ok)
  }

  function RemoveAllVolumes(p: Peer): Peer {
    p.(volumes := seq(|p.volumes|, i => NoVolume),
       files := seq(|p.files|, i => NoFile),
       volumeCount := 0, openFiles := 0, reservedFiles := 0)
  }

  function Lower(c: char): char { if 'A' <= c <= 'Z' then c - 'A' + 'a' else c }

  predicate AsciiEqual(a: string, b: string) {
    |a| == |b| && forall i | 0 <= i < |a| :: Lower(a[i]) == Lower(b[i])
  }

  predicate NameAllowed(cfg: Config, name: string) {
    && 0 < |name| <= 255
    && '/' !in name && '\\' !in name && ':' !in name
    && (cfg.allowed == [] || exists i | 0 <= i < |cfg.allowed| :: AsciiEqual(cfg.allowed[i], name))
  }

  /** Outcome of announcing a volume; `used` says whether a volume identifier was consumed. */
  datatype Announced = Announced(peer: Peer, status: Status, used: bool)

  function AddVolume(cfg: Config, enabled: bool, p: Peer, device: Device, name: string,
                     nextId: nat, env: Env): Announced {
    if !enabled || device.reconnect == 0 || device.id == 0 || !NameAllowed(cfg, name) then Announced(p, State, false)
    else if FindDevice(p, device).Some? then Announced(p, ProtocolError, false)
    else if p.volumeCount >= cfg.maxVolumes then Announced(p, LimitExceeded, false)
    else
      match First(p.volumes, (v: Volume) => v.NoVolume?)
      case None => Announced(p, LimitExceeded, false)
      case Some(i) =>
        var volume := Volume(nextId, device, name, 0);
        var status := env.present(volume);
        if status != Ok then Announced(p, status, true)
        else Announced(p.(volumes := p.volumes[i := volume], volumeCount := p.volumeCount + 1), Ok, true)
  }

  // --- Admission of platform requests ---

  predicate Mutating(r: Request) {
    if r.operation in {WRITE, SET_INFORMATION, SET_VOLUME, CONTROL, SET_SECURITY} then true
    else if r.operation == CREATE then
      r.desiredAccess & WRITE_ACCESS_MASK != 0 || r.allocationSize != 0 || r.createDisposition != DISPOSITION_OPEN
    else false
  }

  function Reservation(r: Request): nat {
    if r.operation == READ then r.length
    else if r.operation in {WRITE, SET_INFORMATION, SET_VOLUME, SET_SECURITY} then r.dataLen
    else if r.operation in {CONTROL, QUERY_SECURITY} then
      if r.outputLength > r.dataLen then r.outputLength else r.dataLen
    else 0
  }

  predicate Shaped(cfg: Config, r: Request) {
    && r.wellFormed && r.requestId != 0
    && (r.dataLen > 0 ==> r.hasData)
    && r.dataLen <= cfg.maxRequest && r.length <= cfg.maxRequest && r.outputLength <= cfg.maxRequest
    && CREATE <= r.operation <= SHUTDOWN
    && (r.operation == READ ==> r.offset + r.length <= U64_MAX)
    && (r.operation == WRITE ==> r.offset == U64_MAX || r.offset + r.dataLen <= U64_MAX)
    && (r.operation == CREATE ==> r.allocationSize <= cfg.maxTransfer)
    && (r.operation == QUERY_DIRECTORY ==> r.initialQuery <= 1)
    && (r.operation == NOTIFY_DIRECTORY ==> r.watchTree <= 1)
    && (r.operation == LOCK ==>
          && r.lockCount == |r.locks|
          && LOCK_SHARED <= r.lockOperation <= UNLOCK_MULTIPLE
          && r.lockCount <= cfg.maxRequest / LOCK_RANGE_BYTES
          && forall i | 0 <= i < |r.locks| ::
               r.locks[i].length != 0 && r.locks[i].offset + r.locks[i].length <= U64_MAX)
  }

  /** The volume or the file the request names is the one it claims to act on. */
  predicate Scoped(p: Peer, v: nat, r: Request)
    requires v < |p.volumes| && p.volumes[v].Volume?
  {
    if r.operation == CREATE || r.operation == SHUTDOWN then r.device == p.volumes[v].device
    else
      match FindFile(p, r.file)
      case None => false
      case Some(k) => p.files[k].volumeId == p.volumes[v].id
  }

  /** The transfer quota has room for the reservation; each subtraction is guarded by the test before it. */
  predicate QuotaAllows(cfg: Config, p: Peer, bytes: nat) {
    && bytes <= cfg.maxRequest
    && p.transferred <= cfg.maxTransfer
    && p.reservedBytes <= cfg.maxTransfer - p.transferred
    && bytes <= cfg.maxTransfer - p.transferred - p.reservedBytes
  }

  function Validate(cfg: Config, p: Peer, v: nat, r: Request): Status
    requires v < |p.volumes| && p.volumes[v].Volume?
  {
    if !Shaped(cfg, r) then InvalidArgument
    else if !Scoped(p, v, r) then State
    else if cfg.readOnly && Mutating(r) then State
    else if r.path.Some? && Normalized(r.path.value, cfg.maxPath).Rejected? then
      Normalized(r.path.value, cfg.maxPath).status
    else if r.path.None? && r.operation == CREATE then InvalidArgument
    else if !QuotaAllows(cfg, p, Reservation(r)) then LimitExceeded
    else Ok
  }

  /** The request as handed to the protocol: its path in normal form. */
  function WithNormalPath(cfg: Config, r: Request): Request {
    match r.path
    case None => r
    case Some(path) =>
      match Normalized(path, cfg.maxPath)
      case Path(text) => r.(path := Some(text))
      case Rejected(_) => r
  }

  /** `now + timeout` in unsigned 64-bit nanoseconds, saturated when it wraps. */
  function RequestDeadline(now: nat, timeoutMs: nat): nat {
    var sum := (now + timeoutMs * NS_PER_MS) % (U64_MAX + 1);
    if sum < now then U64_MAX else sum
  }

  function KeyOfRequest(r: Request): Key {
    Key(r.requestId, r.volumeId, r.peerId, r.generation, r.operation, r.infoClass)
  }

  function Admit(cfg: Config, p: Peer, i: nat, r: Request, protocolId: nat, now: nat): Peer
    requires i < |p.pending|
  {
    var creates := r.operation == CREATE;
    p.(pending := p.pending[i := Pending(r.requestId, protocolId, r.volumeId, RequestDeadline(now, cfg.timeoutMs),
                                         Reservation(r), r.operation, r.infoClass, Ok, creates)],
       pendingCount := p.pendingCount + 1,
       reservedBytes := p.reservedBytes + Reservation(r),
       reservedFiles := p.reservedFiles + (if creates then 1 else 0))
  }

  /** Where a request goes: into a pending slot, or straight back with a status. */
  datatype Admission = Refuse(status: Status) | Accept(slot: nat)

  function Admissible(cfg: Config, p: Peer, r: Request): (a: Admission)
    ensures a.Accept? ==> a.slot < |p.pending| && p.pending[a.slot].Idle?
    ensures a.Refuse? ==> a.status != Ok
  {
    match FindVolume(p, r.volumeId)
    case None => Refuse(State)
    case Some(v) =>
      if FindRequest(p, r.requestId).Some? then Refuse(State)
      else if p.pendingCount >= cfg.maxPending then Refuse(LimitExceeded)
      else
        var status := Validate(cfg, p, v, r);
        if status != Ok then Refuse(status)
        else if r.operation == CREATE && p.openFiles + p.reservedFiles >= cfg.maxOpenFiles then Refuse(LimitExceeded)
        else
          match First(p.pending, (q: Pending) => q.Idle?)
          case None => Refuse(LimitExceeded)
          case Some(i) => Accept(i)
  }

  // --- The runtime ---

  /** `log` lists every completion delivered; `submitted` every platform request made. */
  datatype Drive = Drive(
    cfg: Config,
    peers: seq<Option<Peer>>,
    nextVolumeId: nat,
    enabled: bool,
    log: seq<Completion>,
    submitted: seq<Key>)

  function NewPeer(cfg: Config, id: nat, generation: nat): Peer {
    Peer(id, generation,
         seq(cfg.maxVolumes, i => NoVolume),
         seq(cfg.maxPending, i => Idle),
         seq(cfg.maxOpenFiles, i => NoFile),
         0, 0, 0, 0, 0, 0)
  }

  function NewDrive(cfg: Config, enabled: bool): Drive {
    Drive(cfg, seq(cfg.maxPeers, i => None), 1, enabled, [], [])
  }

  /** Replace peer `k` by the outcome of an operation on it. */
  function Commit(d: Drive, k: nat, o: Outcome): Drive
    requires k < |d.peers|
  {
    d.(peers := d.peers[k := Some(o.peer)], log := d.log + o.log)
  }

  function AddPeer(d: Drive, id: nat, generation: nat): (Status, Drive) {
    if id == 0 || generation == 0 || FindPeer(d.peers, id, generation).Some? then (InvalidArgument, d)
    else
      match First(d.peers, (slot: Option<Peer>) => slot.None?)
      case None => (LimitExceeded, d)
      case Some(k) => (Ok, d.(peers := d.peers[k := Some(NewPeer(d.cfg, id, generation))]))
  }

  /** Cancel everything a peer has pending, then take its volumes away. */
  function Strip(p: Peer, status: Status, env: Env): Outcome {
    var swept := Sweep(p, Always(), status, env);
    Outcome(RemoveAllVolumes(swept.peer), swept.log, Ok)
  }

  function RemovePeer(d: Drive, id: nat, generation: nat, env: Env): Drive {
    match FindPeer(d.peers, id, generation)
    case None => d
    case Some(k) =>
      var stripped := Strip(d.peers[k].value, Cancelled, env);
      d.(peers := d.peers[k := None], log := d.log + stripped.log)
  }

  datatype ProtocolInput =
    | DeviceAdded(device: Device, name: string)
    | DeviceRemoved(device: Device)
    | RequestEnded(event: Event)
    | UnknownEvent

  function ProtocolEvent(d: Drive, id: nat, generation: nat, input: ProtocolInput, env: Env): (Status, Drive) {
    match FindPeer(d.peers, id, generation)
    case None => (InvalidArgument, d)
    case Some(k) => PeerInput(d, k, input, env)
  }

  function PeerInput(d: Drive, k: nat, input: ProtocolInput, env: Env): (Status, Drive)
    requires k < |d.peers| && d.peers[k].Some?
  {
    var p := d.peers[k].value;
    match input
    case DeviceAdded(device, name) =>
      var a := AddVolume(d.cfg, d.enabled, p, device, name, d.nextVolumeId, env);
      (a.status, d.(peers := d.peers[k := Some(a.peer)],
                    nextVolumeId := if a.used then d.nextVolumeId + 1 else d.nextVolumeId))
    case DeviceRemoved(device) =>
      var o := RemoveVolume(p, device, env);
      (o.status, Commit(d, k, o))
    case RequestEnded(event) =>
      var o := Terminal(d.cfg, p, event, env);
      (o.status, Commit(d, k, o))
    case UnknownEvent => (Unsupported, d)
  }

  function Refused(d: Drive, r: Request, status: Status): (Status, Drive) {
    (status, d.(log := d.log + [Completion(KeyOfRequest(r), status, None)],
                submitted := d.submitted + [KeyOfRequest(r)]))
  }

  /** Admission and submission; a refused request leaves the runtime as it was. */
  function Submission(d: Drive, r: Request, now: nat, env: Env): (o: (Status, Drive))
    ensures o.0 != Ok ==> o.1 == d
  {
    if !d.enabled then (State, d)
    else
      match FindPeer(d.peers, r.peerId, r.generation)
      case None => (State, d)
      case Some(k) =>
        var p := d.peers[k].value;
        match Admissible(d.cfg, p, r)
        case Refuse(status) => (status, d)
        case Accept(i) =>
          var reply := env.submit(WithNormalPath(d.cfg, r));
          if reply.status != Ok then (reply.status, d)
          else (Ok, d.(peers := d.peers[k := Some(Admit(d.cfg, p, i, r, reply.protocolId, now))]))
  }

  function PlatformRequest(d: Drive, r: Request, now: nat, env: Env): (Status, Drive) {
    var (status, after) := Submission(d, r, now, env);
    if status != Ok then Refused(d, r, status)
    else (Ok, after.(submitted := d.submitted + [KeyOfRequest(r)]))
  }

  function PlatformCancel(d: Drive, id: nat, generation: nat, requestId: nat, env: Env): (Status, Drive) {
    match FindPeer(d.peers, id, generation)
    case None => (InvalidArgument, d)
    case Some(k) =>
      if requestId == 0 then (InvalidArgument, d)
      else
        match FindRequest(d.peers[k].value, requestId)
        case None => (State, d)
        case Some(i) =>
          var o := CancelSlot(d.peers[k].value, i, Cancelled, env);
          (o.status, Commit(d, k, o))
  }

  /** Strip every peer from slot `k` on. */
  function StripFrom(d: Drive, k: nat, env: Env): Drive
    decreases |d.peers| - k
  {
    if k >= |d.peers| then d
    else if d.peers[k].None? then StripFrom(d, k + 1, env)
    else StripFrom(Commit(d, k, Strip(d.peers[k].value, State, env)), k + 1, env)
  }

  function Revoke(d: Drive, env: Env): Drive {
    if !d.enabled then d else StripFrom(d.(enabled := false), 0, env)
  }

  function SetEnabled(d: Drive, enabled: bool, env: Env): Drive {
    if d.enabled == enabled then d
    else if enabled then d.(enabled := true)
    else Revoke(d, env)
  }

  /** Time out every peer's overdue requests from slot `k` on; the status is the first failure. */
  function TimeoutsFrom(d: Drive, k: nat, now: nat, env: Env): (Status, Drive)
    decreases |d.peers| - k
  {
    if k >= |d.peers| then (Ok, d)
    else if d.peers[k].None? then TimeoutsFrom(d, k + 1, now, env)
    else
      var o := Sweep(d.peers[k].value, DueBy(now), Timeout, env);
      var (status, after) := TimeoutsFrom(Commit(d, k, o), k + 1, now, env);
      (if o.status != Ok then o.status else status, after)
  }

  function DispatchTimeouts(d: Drive, now: nat, env: Env): (Status, Drive) {
    TimeoutsFrom(d, 0, now, env)
  }
}
