/**
  Value model of the clipboard runtime: one publication generation over all peers, four pending
  operations per peer, and chunked answers to client requests. `out` is the history of what the
  runtime opened, answered, delivered and dropped.
 */
module ClipboardModel {
  import opened Status
  import opened Tally

  // --- Kinds of pending operation, also their place in a peer ---

  const LOCAL_DATA: nat := 0
  const LOCAL_FILE: nat := 1
  const REMOTE_DATA: nat := 2
  const REMOTE_FILE: nat := 3
  const KINDS: nat := 4

  datatype FormatClass = Text | Html | Png | UriList

  /** A format as offered; `cls` is absent when neither its name nor its id is known. */
  datatype Offered = Offered(id: nat, cls: Option<FormatClass>)

  datatype Format = Format(id: nat, cls: FormatClass)

  datatype Config = Config(
    maxPeers: nat,
    maxFormats: nat,
    maxPending: nat,
    maxData: nat,
    maxRange: nat,
    allowed: set<FormatClass>)

  datatype Slot =
    | Empty
    | Slot(kind: nat, requestId: nat, formatId: nat, streamId: nat, max: nat, data: seq<byte>)

  /** One place per kind. */
  type Slots = s: seq<Slot> | |s| == KINDS witness [Empty, Empty, Empty, Empty]

  datatype Peer = Peer(
    id: nat,
    generation: nat,
    channel: nat,
    ready: bool,
    formats: seq<Format>,
    ownership: nat,
    slots: Slots)

  /** What identifies one operation; `ownership` is the publication a remote one was made under. */
  datatype Key = Key(kind: nat, requestId: nat, peerId: nat, generation: nat, streamId: nat, ownership: nat)

  datatype Why = Overlapped | Oversized | PeerGone | Withdrawn
    | PlatformCancelled | PeerCancelled | NotSent | NotStarted

  datatype Out =
    | Opened(key: Key)
    | Answered(key: Key, ok: bool, data: seq<byte>)
    | Wrote(key: Key, status: Status, data: seq<byte>)
    | Dropped(key: Key, why: Why)

  datatype Clip = Clip(
    cfg: Config,
    peers: seq<Option<Peer>>,
    localFormats: seq<Format>,
    localGeneration: nat,
    published: nat,
    nextOwnership: nat,
    nextRequestId: nat,
    pendingCount: nat,
    out: seq<Out>)

  /** Calls into the protocol and the platform. */
  datatype Call =
    | MonitorReady(peerId: nat, channel: nat)
    | Capabilities(peerId: nat, channel: nat)
    | FormatList(peerId: nat, formats: seq<Format>)
    | FormatListResponse(peerId: nat, ok: bool)
    | PublishFormats(peerId: nat, generation: nat, ownership: nat, formats: seq<Format>)
    | RequestData(requestId: nat, formatId: nat)
    | RequestFile(requestId: nat, peerId: nat, generation: nat, ownership: nat, streamId: nat)
    | SendAnswer(key: Key, ok: bool, data: seq<byte>)
    | SendRequest(key: Key, formatId: nat)
    | WriteData(key: Key, status: Status, data: seq<byte>)
    | CancelRequests(peerId: nat)

  type Env = Call -> Status

  // --- Slots ---

  predicate Live(c: Clip, k: nat) { k < |c.peers| && c.peers[k].Some? }

  predicate Busy(c: Clip, k: nat, kind: nat) {
    Live(c, k) && kind < KINDS && c.peers[k].value.slots[kind].Slot?
  }

  function SlotAt(c: Clip, k: nat, kind: nat): Slot
    requires Busy(c, k, kind)
  {
    c.peers[k].value.slots[kind]
  }

  /** Operations on local data belong to no publication. */
  function KeyOf(id: nat, generation: nat, ownership: nat, q: Slot): Key
    requires q.Slot?
  {
    Key(q.kind, q.requestId, id, generation, q.streamId, if q.kind >= REMOTE_DATA then ownership else 0)
  }

  /** The key under which a peer's operation is pending now. */
  function KeyFor(p: Peer, q: Slot): Key
    requires q.Slot?
  {
    KeyOf(p.id, p.generation, p.ownership, q)
  }

  function KeyAt(c: Clip, k: nat, kind: nat): Key
    requires Busy(c, k, kind)
  {
    KeyFor(c.peers[k].value, SlotAt(c, k, kind))
  }

  function Emit(c: Clip, o: Out): Clip { c.(out := c.out + [o]) }

  function SetSlot(c: Clip, k: nat, kind: nat, q: Slot): Clip
    requires Live(c, k) && kind < KINDS
  {
    var p := c.peers[k].value;
    c.(peers := c.peers[k := Some(p.(slots := p.slots[kind := q]))])
  }

  function ClearAt(c: Clip, k: nat, kind: nat): Clip {
    if Busy(c, k, kind)
    then SetSlot(c, k, kind, Empty).(pendingCount := if c.pendingCount > 0 then c.pendingCount - 1 else 0)
    else c
  }

  /** Why a slot cannot be taken, or OK. */
  function BeginStatus(c: Clip, k: nat, kind: nat): Status {
    if Busy(c, k, kind) then State
    else if c.pendingCount >= c.cfg.maxPending then LimitExceeded
    else Ok
  }

  function Begin(c: Clip, k: nat, kind: nat, q: Slot): Clip
    requires Live(c, k) && kind < KINDS
  {
    SetSlot(c, k, kind, q).(pendingCount := c.pendingCount + 1)
  }

  /** Close a pending operation, if there is one, in the way `close` says. */
  function Close(c: Clip, k: nat, kind: nat, close: Key -> Out): Clip {
    if Busy(c, k, kind) then ClearAt(Emit(c, close(KeyAt(c, k, kind))), k, kind) else c
  }

  function Refusal(): Key -> Out { key => Answered(key, false, []) }

  function CancelWrite(): Key -> Out { key => Wrote(key, Cancelled, []) }

  function Drop(why: Why): Key -> Out { key => Dropped(key, why) }

  // --- Lookups ---

  predicate PeerIs(slot: Option<Peer>, id: nat, generation: nat) {
    slot.Some? && slot.value.id == id && slot.value.generation == generation
  }

  function FindPeer(peers: seq<Option<Peer>>, id: nat, generation: nat): Option<nat> {
    if id == 0 || generation == 0 then None
    else First(peers, (slot: Option<Peer>) => PeerIs(slot, id, generation))
  }

  predicate HasId(formats: seq<Format>, id: nat) { exists i | 0 <= i < |formats| :: formats[i].id == id }

  predicate HasClass(formats: seq<Format>, cls: FormatClass) {
    exists i | 0 <= i < |formats| :: formats[i].cls == cls
  }

  predicate SlotIs(slots: Slots, kind: nat, id: nat) {
    kind < KINDS && slots[kind].Slot? && slots[kind].requestId == id
  }

  predicate Expects(slot: Option<Peer>, id: nat) {
    slot.Some? && (SlotIs(slot.value.slots, LOCAL_DATA, id) || SlotIs(slot.value.slots, LOCAL_FILE, id))
  }

  /** The peer a platform answer is for: the one it names, or the only one that expects the id. */
  function FindLocal(c: Clip, peerId: nat, generation: nat, requestId: nat): Option<nat> {
    if peerId != 0 || generation != 0 then FindPeer(c.peers, peerId, generation)
    else
      match First(c.peers, (slot: Option<Peer>) => Expects(slot, requestId))
      case None => None
      case Some(k) => if exists j | k < j < |c.peers| :: Expects(c.peers[j], requestId) then None else Some(k)
  }

  // --- Formats ---

  function DefaultId(cls: FormatClass): nat {
    match cls
    case Text => 13
    case Html => 0xc100
    case Png => 0xc101
    case UriList => 0xc001
  }

  /** The formats the policy lets through; absent when two of them share an id. */
  function Filtered(cfg: Config, formats: seq<Offered>, n: nat, local: bool): Option<seq<Format>>
    requires n <= |formats|
  {
    if n == 0 then Some([])
    else
      match Filtered(cfg, formats, n - 1, local)
      case None => None
      case Some(kept) =>
        var f := formats[n - 1];
        if f.cls.None? || f.cls.value !in cfg.allowed then Some(kept)
        else
          var id := if local && f.id == 0 then DefaultId(f.cls.value) else f.id;
          if HasId(kept, id) then None else Some(kept + [Format(id, f.cls.value)])
  }

  // --- Cancelling everything the client was asked for ---

  /**
    The kinds of operation the protocol reports as cancelled to a peer, by the peer's id, before a
    call to cancel its requests returns.
   */
  type Hook = nat -> seq<Option<nat>>

  predicate Remote(kind: Option<nat>) { kind == Some(REMOTE_DATA) || kind == Some(REMOTE_FILE) }

  /** One such report; a peer whose channel is not ready is not heard. */
  function Report(c: Clip, k: nat, kind: Option<nat>): Clip {
    if Live(c, k) && c.peers[k].value.ready && Remote(kind) then Close(c, k, kind.value, Drop(PeerCancelled)) else c
  }

  function Reports(c: Clip, k: nat, kinds: seq<Option<nat>>): Clip {
    if kinds == [] then c else Report(Reports(c, k, kinds[..|kinds| - 1]), k, kinds[|kinds| - 1])
  }

  /** The call itself, which names a peer but no request. */
  function CancelAt(c: Clip, k: nat, hook: Hook): Clip {
    if Live(c, k) then Reports(c, k, hook(c.peers[k].value.id)) else c
  }

  // --- Sweeps over all peers ---

  datatype Sweep = LocalCopy | NewOffer | Revoking(hook: Hook)

  /** Close the operations of kinds `from` up to `n`. */
  function CloseRange(c: Clip, k: nat, from: nat, n: nat, close: Key -> Out): Clip
    decreases n
  {
    if n <= from then c else Close(CloseRange(c, k, from, n - 1, close), k, n - 1, close)
  }

  function CancelRemote(c: Clip, k: nat): Clip { CloseRange(c, k, REMOTE_DATA, KINDS, CancelWrite()) }

  function CancelLocal(c: Clip, k: nat): Clip { CloseRange(c, k, LOCAL_DATA, REMOTE_DATA, Refusal()) }

  function DropAll(c: Clip, k: nat, why: Why): Clip { CloseRange(c, k, LOCAL_DATA, KINDS, Drop(why)) }

  /** What a sweep does to a peer once its operations are closed. */
  function Settled(p: Peer, sweep: Sweep): Peer {
    match sweep
    case LocalCopy => p.(ownership := 0)
    case NewOffer => p.(formats := [], ownership := 0)
    case Revoking(_) => p.(ready := false, channel := 0)
  }

  function SettleAt(c: Clip, k: nat, sweep: Sweep): Clip {
    if Live(c, k) then c.(peers := c.peers[k := Some(Settled(c.peers[k].value, sweep))]) else c
  }

  function CloseFor(c: Clip, k: nat, sweep: Sweep): Clip {
    match sweep
    case LocalCopy => CancelRemote(CancelLocal(c, k), k)
    case NewOffer => CancelRemote(c, k)
    case Revoking(hook) => DropAll(CancelAt(c, k, hook), k, Withdrawn)
  }

  function SweepPeer(c: Clip, k: nat, sweep: Sweep): Clip {
    if Live(c, k) then SettleAt(CloseFor(c, k, sweep), k, sweep) else c
  }

  /** The sweep of the first `n` peer slots. */
  function SweepTo(c: Clip, n: nat, sweep: Sweep): Clip {
    if n == 0 then c else SweepPeer(SweepTo(c, n - 1, sweep), n - 1, sweep)
  }

  // --- Entry points ---

  function NewPeer(id: nat, generation: nat): Peer {
    Peer(id, generation, 0, false, [], 0, [Empty, Empty, Empty, Empty])
  }

  function NewClip(cfg: Config): Clip {
    Clip(cfg, seq(cfg.maxPeers, i => None), [], 0, 0, 1, 1, 0, [])
  }

  function AddPeer(c: Clip, id: nat, generation: nat): (Status, Clip) {
    if id == 0 || generation == 0 || FindPeer(c.peers, id, generation).Some? then (InvalidArgument, c)
    else
      match First(c.peers, (slot: Option<Peer>) => slot.None?)
      case None => (LimitExceeded, c)
      case Some(k) => (Ok, c.(peers := c.peers[k := Some(NewPeer(id, generation))]))
  }

  /** Free slot `k` of an emptied peer, and the publication if the peer held it. */
  function Forget(c: Clip, k: nat, ownership: nat): Clip
    requires k < |c.peers|
  {
    c.(peers := c.peers[k := None],
       published := if ownership != 0 && c.published == ownership then 0 else c.published)
  }

  function RemovePeer(c: Clip, id: nat, generation: nat, hook: Hook): Clip {
    match FindPeer(c.peers, id, generation)
    case None => c
    case Some(k) =>
      var dropped := DropAll(CancelAt(c, k, hook), k, PeerGone);
      if k < |dropped.peers| then Forget(dropped, k, c.peers[k].value.ownership) else dropped
  }

  function ChannelReady(c: Clip, id: nat, generation: nat, channel: nat, env: Env): (Status, Clip) {
    match FindPeer(c.peers, id, generation)
    case None => (InvalidArgument, c)
    case Some(k) =>
      if channel == 0 then (InvalidArgument, c)
      else if env(MonitorReady(id, channel)) != Ok then (env(MonitorReady(id, channel)), c)
      else if env(Capabilities(id, channel)) != Ok then (env(Capabilities(id, channel)), c)
      else
        (env(FormatList(id, c.localFormats)),
         c.(peers := c.peers[k := Some(c.peers[k].value.(channel := channel, ready := true))]))
  }

  /** First failure of announcing the local formats to the ready peers below `n`. */
  function SendTo(peers: seq<Option<Peer>>, n: nat, formats: seq<Format>, env: Env): Status
    requires n <= |peers|
  {
    if n == 0 then Ok
    else
      var before := SendTo(peers, n - 1, formats, env);
      if before != Ok || peers[n - 1].None? || !peers[n - 1].value.ready then before
      else env(FormatList(peers[n - 1].value.id, formats))
  }

  /** A local application copied: everything pending ends and no peer owns the clipboard. */
  function LocalCopied(c: Clip, kept: seq<Format>, generation: nat): Clip {
    SweepTo(c, |c.peers|, LocalCopy).(published := 0, localFormats := kept, localGeneration := generation)
  }

  function PlatformFormats(c: Clip, formats: seq<Offered>, generation: nat, env: Env): (Status, Clip) {
    if generation != 0 && generation == c.published then (Ok, c)
    else if |formats| > c.cfg.maxFormats then (InvalidArgument, c)
    else
      match Filtered(c.cfg, formats, |formats|, true)
      case None => (InvalidArgument, c)
      case Some(kept) =>
        var copied := LocalCopied(c, kept, generation);
        (SendTo(copied.peers, |copied.peers|, kept, env), copied)
  }

  /** Peer `k` takes the publication over under a new generation. */
  function TakeOver(c: Clip, k: nat, kept: seq<Format>): Clip {
    var swept := SweepTo(c, |c.peers|, NewOffer);
    if Live(swept, k) then
      swept.(peers := swept.peers[k := Some(swept.peers[k].value.(formats := kept, ownership := swept.nextOwnership))],
             published := swept.nextOwnership)
    else swept
  }

  function Publish(c: Clip, k: nat, formats: seq<Offered>, env: Env): (Status, Clip)
    requires Live(c, k)
  {
    if |formats| > c.cfg.maxFormats then (LimitExceeded, c)
    else
      match Filtered(c.cfg, formats, |formats|, false)
      case None => (ProtocolError, c)
      case Some(kept) =>
        var p := c.peers[k].value;
        var status := env(PublishFormats(p.id, p.generation, c.nextOwnership + 1, kept));
        (status, Offer(c, k, kept, status == Ok))
  }

  /** Every offer uses a generation up, whether or not the platform takes it. */
  function Offer(c: Clip, k: nat, kept: seq<Format>, taken: bool): Clip {
    if taken then TakeOver(NextGeneration(c), k, kept) else NextGeneration(c)
  }

  function NextGeneration(c: Clip): Clip { c.(nextOwnership := c.nextOwnership + 1) }

  function FormatsOffered(c: Clip, k: nat, formats: seq<Offered>, env: Env): (Status, Clip)
    requires Live(c, k)
  {
    var (status, after) := Publish(c, k, formats, env);
    var sent := env(FormatListResponse(c.peers[k].value.id, status == Ok));
    (if sent != Ok && status == Ok then IoError else status, after)
  }

  // --- Requests of the client for local data ---

  /** Open an operation and close it at once with a refusal. */
  function Refuse(c: Clip, key: Key): Clip { Emit(Emit(c, Opened(key)), Answered(key, false, [])) }

  /** Open an operation that never starts; nobody is told. */
  function Abandon(c: Clip, key: Key): Clip { Emit(Emit(c, Opened(key)), Dropped(key, NotStarted)) }

  /** Take the slot for a request of the client; a platform that cannot serve it has it refused. */
  function StartLocal(c: Clip, k: nat, q: Slot, asked: Status): Clip
    requires Live(c, k) && q.Slot? && q.kind < KINDS
  {
    var begun := Begin(Emit(c, Opened(KeyFor(c.peers[k].value, q))), k, q.kind, q);
    if asked == Ok then begun else Close(begun, k, q.kind, Refusal())
  }

  function DataRequested(c: Clip, k: nat, formatId: nat, env: Env): (Status, Clip)
    requires Live(c, k)
  {
    var p := c.peers[k].value;
    if !HasId(c.localFormats, formatId) then
      var key := Key(LOCAL_DATA, 0, p.id, p.generation, 0, 0);
      (env(SendAnswer(key, false, [])), Refuse(c, key))
    else
      var q := Slot(LOCAL_DATA, c.nextRequestId, formatId, 0, c.cfg.maxData, []);
      DataStarted(c, k, q, env(RequestData(q.requestId, formatId)))
  }

  /** A data request that finds the slot taken ends the one that holds it and is refused itself. */
  function DataStarted(c: Clip, k: nat, q: Slot, asked: Status): (Status, Clip)
    requires Live(c, k) && q.Slot? && q.kind < KINDS
  {
    var status := BeginStatus(c, k, q.kind);
    if status != Ok then
      (status, Refuse(Close(Numbered(c), k, q.kind, Drop(Overlapped)), KeyFor(c.peers[k].value, q)))
    else (asked, StartLocal(Numbered(c), k, q, asked))
  }

  /** One request id handed out. */
  function Numbered(c: Clip): Clip { c.(nextRequestId := c.nextRequestId + 1) }

  datatype FileAsk = FileAsk(streamId: nat, flags: nat, requested: nat)

  const FILE_SIZE: nat := 1
  const FILE_RANGE: nat := 2

  /** At least one of the two known flag bits, the lowest two, and no other. */
  predicate GoodFlags(flags: nat) { FILE_SIZE <= flags <= FILE_SIZE + FILE_RANGE }

  function RangeLimit(cfg: Config, requested: nat): nat { if requested > 0 then requested else cfg.maxRange }

  function FileRequested(c: Clip, k: nat, ask: FileAsk, env: Env): (Status, Clip)
    requires Live(c, k)
  {
    var p := c.peers[k].value;
    if !GoodFlags(ask.flags) || ask.requested > c.cfg.maxRange || !HasClass(c.localFormats, UriList) then
      var key := Key(LOCAL_FILE, 0, p.id, p.generation, ask.streamId, 0);
      (env(SendAnswer(key, false, [])), Refuse(c, key))
    else
      var q := Slot(LOCAL_FILE, c.nextRequestId, 0, ask.streamId, RangeLimit(c.cfg, ask.requested), []);
      FileStarted(c, k, q, env(RequestFile(q.requestId, p.id, p.generation, c.localGeneration, ask.streamId)))
  }

  /** Unlike a data request, a file request that finds no slot is not refused: nobody is told. */
  function FileStarted(c: Clip, k: nat, q: Slot, asked: Status): (Status, Clip)
    requires Live(c, k) && q.Slot? && q.kind < KINDS
  {
    var status := BeginStatus(c, k, q.kind);
    if status != Ok then (status, Abandon(Numbered(c), KeyFor(c.peers[k].value, q)))
    else (asked, StartLocal(Numbered(c), k, q, asked))
  }

  // --- Answers of the client ---

  datatype Reply = Reply(success: bool, streamId: nat, data: seq<byte>)

  function Deliver(c: Clip, k: nat, kind: nat, reply: Reply, env: Env): (Status, Clip)
    requires Busy(c, k, kind)
  {
    var q, key := SlotAt(c, k, kind), KeyAt(c, k, kind);
    if |reply.data| > q.max then (LimitExceeded, Close(c, k, kind, Drop(Oversized)))
    else
      var status, data := if reply.success then Ok else ProtocolError, if reply.success then reply.data else [];
      (env(WriteData(key, status, data)), Close(c, k, kind, key => Wrote(key, status, data)))
  }

  datatype Input =
    | Announcement
    | ListOffered(formats: seq<Offered>)
    | ListAcknowledged(success: bool)
    | DataAsked(formatId: nat)
    | DataReplied(reply: Reply)
    | FileAsked(ask: FileAsk)
    | FileReplied(reply: Reply)
    | WorkCancelled(kind: Option<nat>)
    | UnknownInput

  function PeerInput(c: Clip, k: nat, input: Input, env: Env): (Status, Clip)
    requires Live(c, k)
  {
    match input
    case Announcement => (Ok, c)
    case ListOffered(formats) => FormatsOffered(c, k, formats, env)
    case ListAcknowledged(success) => (if success then Ok else ProtocolError, c)
    case DataAsked(formatId) => DataRequested(c, k, formatId, env)
    case DataReplied(reply) =>
      if !Busy(c, k, REMOTE_DATA) then (ProtocolError, c) else Deliver(c, k, REMOTE_DATA, reply, env)
    case FileAsked(ask) => FileRequested(c, k, ask, env)
    case FileReplied(reply) =>
      if !Busy(c, k, REMOTE_FILE) || SlotAt(c, k, REMOTE_FILE).streamId != reply.streamId then (ProtocolError, c)
      else Deliver(c, k, REMOTE_FILE, reply, env)
    case WorkCancelled(kind) =>
      (Cancelled,
       if Remote(kind) then Close(c, k, kind.value, Drop(PeerCancelled)) else c)
    case UnknownInput => (Unsupported, c)
  }

  /** An event of the protocol; `channel` is checked except for cancellations. */
  function ProtocolEvent(c: Clip, id: nat, generation: nat, channel: nat, input: Input, env: Env): (Status, Clip) {
    match FindPeer(c.peers, id, generation)
    case None => (InvalidArgument, c)
    case Some(k) =>
      var p := c.peers[k].value;
      if !p.ready || (!input.WorkCancelled? && channel != p.channel) then (InvalidArgument, c)
      else PeerInput(c, k, input, env)
  }

  // --- Chunks from the platform ---

  datatype Chunk = Chunk(
    peerId: nat,
    generation: nat,
    ownership: nat,
    requestId: nat,
    formatId: nat,
    streamId: nat,
    status: Status,
    present: bool,
    bytes: seq<byte>,
    last: bool)

  /** Which pending operation of the peer a chunk belongs to, if any. */
  function ChunkKind(slots: Slots, requestId: nat): Option<nat> {
    if SlotIs(slots, LOCAL_DATA, requestId) then Some(LOCAL_DATA)
    else if SlotIs(slots, LOCAL_FILE, requestId) then Some(LOCAL_FILE)
    else None
  }

  /** Whether one more chunk fits, or why it does not. */
  function ChunkStatus(q: Slot, chunk: Chunk): Status
    requires q.Slot?
  {
    if chunk.status != Ok then chunk.status
    else if !chunk.present && |chunk.bytes| > 0 then InvalidArgument
    else if |q.data| > q.max || |chunk.bytes| > q.max - |q.data| then LimitExceeded
    else Ok
  }

  function Accumulate(c: Clip, k: nat, kind: nat, chunk: Chunk, env: Env): (Status, Clip)
    requires Busy(c, k, kind)
  {
    var q, key := SlotAt(c, k, kind), KeyAt(c, k, kind);
    var status := ChunkStatus(q, chunk);
    if status != Ok then (status, Close(c, k, kind, Refusal()))
    else
      var data := q.data + chunk.bytes;
      if chunk.last then
        (env(SendAnswer(key, true, data)), Close(c, k, kind, key => Answered(key, true, data)))
      else (Ok, SetSlot(c, k, kind, q.(data := data)))
  }

  predicate ChunkFits(c: Clip, q: Slot, chunk: Chunk) {
    && q.Slot? && q.formatId == chunk.formatId
    && (q.kind == LOCAL_FILE ==> q.streamId == chunk.streamId)
    && (chunk.ownership == 0 || chunk.ownership == c.localGeneration)
  }

  function PlatformData(c: Clip, chunk: Chunk, env: Env): (Status, Clip) {
    match FindLocal(c, chunk.peerId, chunk.generation, chunk.requestId)
    case None => (State, c)
    case Some(k) =>
      match ChunkKind(c.peers[k].value.slots, chunk.requestId)
      case None => (State, c)
      case Some(kind) =>
        if !ChunkFits(c, SlotAt(c, k, kind), chunk) then (State, c) else Accumulate(c, k, kind, chunk, env)
  }

  // --- Requests of the platform for remote data ---

  datatype Request = Request(
    requestId: nat,
    peerId: nat,
    generation: nat,
    ownership: nat,
    formatId: nat,
    streamId: nat,
    flags: nat,
    requested: nat)

  /** The request names the current publication and this peer holds it. */
  predicate Current(c: Clip, p: Peer, ownership: nat) { ownership == c.published && ownership == p.ownership }

  /** Take the slot for a request made under the given publication and send it to the client. */
  function StartRemote(c: Clip, k: nat, q: Slot, ownership: nat, env: Env): (Status, Clip)
    requires Live(c, k) && q.Slot? && q.kind < KINDS
  {
    var p := c.peers[k].value;
    var key := KeyOf(p.id, p.generation, ownership, q);
    var begun := Begin(Emit(c, Opened(key)), k, q.kind, q);
    var sent := env(SendRequest(key, q.formatId));
    (sent, if sent == Ok then begun else Close(begun, k, q.kind, Drop(NotSent)))
  }

  /** A second data request while one is pending fails, and ends the first one unanswered. */
  function PlatformRequest(c: Clip, r: Request, env: Env): (Status, Clip) {
    if r.requestId == 0 then (InvalidArgument, c)
    else
      match FindPeer(c.peers, r.peerId, r.generation)
      case None => (State, c)
      case Some(k) =>
        var p := c.peers[k].value;
        if !Current(c, p, r.ownership) || !HasId(p.formats, r.formatId) then (State, c)
        else if BeginStatus(c, k, REMOTE_DATA) != Ok then
          (BeginStatus(c, k, REMOTE_DATA), Close(c, k, REMOTE_DATA, Drop(Overlapped)))
        else StartRemote(c, k, Slot(REMOTE_DATA, r.requestId, r.formatId, 0, c.cfg.maxData, []), r.ownership, env)
  }

  function PlatformFileRequest(c: Clip, r: Request, env: Env): (Status, Clip) {
    if r.requestId == 0 || r.streamId == 0 || r.requested > c.cfg.maxRange || !GoodFlags(r.flags)
      then (InvalidArgument, c)
    else
      match FindPeer(c.peers, r.peerId, r.generation)
      case None => (State, c)
      case Some(k) =>
        var p := c.peers[k].value;
        if !Current(c, p, r.ownership) || !HasClass(p.formats, UriList) then (State, c)
        else if BeginStatus(c, k, REMOTE_FILE) != Ok then (BeginStatus(c, k, REMOTE_FILE), c)
        else
          var q := Slot(REMOTE_FILE, r.requestId, 0, r.streamId, RangeLimit(c.cfg, r.requested), []);
          StartRemote(c, k, q, r.ownership, env)
  }

  function RemoteKind(slots: Slots, requestId: nat): Option<nat> {
    if SlotIs(slots, REMOTE_DATA, requestId) then Some(REMOTE_DATA)
    else if SlotIs(slots, REMOTE_FILE, requestId) then Some(REMOTE_FILE)
    else None
  }

  /** The client's work is cancelled as a whole, whichever operation of the peer the platform named. */
  function PlatformCancel(c: Clip, id: nat, generation: nat, ownership: nat, requestId: nat, env: Env, hook: Hook)
    : (Status, Clip)
  {
    if id == 0 || generation == 0 || ownership == 0 || requestId == 0 then (InvalidArgument, c)
    else
      match FindPeer(c.peers, id, generation)
      case None => (State, c)
      case Some(k) =>
        var p := c.peers[k].value;
        if !Current(c, p, ownership) then (State, c)
        else
          match RemoteKind(p.slots, requestId)
          case None => (State, c)
          case Some(kind) =>
            (env(CancelRequests(id)), Close(CancelAt(c, k, hook), k, kind, Drop(PlatformCancelled)))
  }

  function Revoke(c: Clip, hook: Hook): Clip { SweepTo(c, |c.peers|, Revoking(hook)).(published := 0) }
}
