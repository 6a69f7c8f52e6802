/**
  The clipboard runtime as it runs: fields and counters that its methods update, and a peer
  table, held as a sequence of values, that they reassign slot by slot in scanning loops. Every
  entry point is proved equal to its model and keeps the invariant.
 */
module ClipboardRuntime {
  import opened Status
  import opened Tally
  import opened ClipboardModel
  import opened ClipboardInvariants
  import opened ClipboardRuns

  class Runtime {
    const cfg: Config
    var peers: seq<Option<Peer>>
    var localFormats: seq<Format>
    var localGeneration: nat
    var published: nat
    var nextOwnership: nat
    var nextRequestId: nat
    var pendingCount: nat
    ghost var out: seq<Out>

    ghost function Value(): Clip
      reads this
    {
      Clip(cfg, peers, localFormats, localGeneration, published, nextOwnership, nextRequestId, pendingCount, out)
    }

    ghost predicate Valid()
      reads this
    {
      Inv(Value())
    }

    ghost predicate Here(k: nat)
      reads this
    {
      k < |peers| && peers[k].Some?
    }

    constructor (cfg: Config)
      ensures Valid() && Value() == NewClip(cfg)
    {
      this.cfg := cfg;
      peers := seq(cfg.maxPeers, i => None);
      localFormats, localGeneration, published := [], 0, 0;
      nextOwnership, nextRequestId, pendingCount := 1, 1, 0;
      out := [];
      new;
      NewClipInv(cfg);
    }

    // --- Lookups ---

    method LookupPeer(id: nat, generation: nat) returns (r: Option<nat>)
      ensures r == FindPeer(peers, id, generation)
    {
      if id == 0 || generation == 0 {
        return None;
      }
      r := FindFirst(peers, (slot: Option<Peer>) => PeerIs(slot, id, generation));
    }

    method IdExists(formats: seq<Format>, id: nat) returns (found: bool)
      ensures found == HasId(formats, id)
    {
      var index := 0;
      while index < |formats|
        invariant 0 <= index <= |formats|
        invariant forall i | 0 <= i < index :: formats[i].id != id
      {
        if formats[index].id == id {
          return true;
        }
        index := index + 1;
      }
      return false;
    }

    method ClassExists(formats: seq<Format>, cls: FormatClass) returns (found: bool)
      ensures found == HasClass(formats, cls)
    {
      var index := 0;
      while index < |formats|
        invariant 0 <= index <= |formats|
        invariant forall i | 0 <= i < index :: formats[i].cls != cls
      {
        if formats[index].cls == cls {
          return true;
        }
        index := index + 1;
      }
      return false;
    }

    /** The peer an answer is for; an omitted scope must leave exactly one candidate. */
    method LookupLocal(peerId: nat, generation: nat, requestId: nat) returns (r: Option<nat>)
      ensures r == FindLocal(Value(), peerId, generation, requestId)
    {
      if peerId != 0 || generation != 0 {
        r := LookupPeer(peerId, generation);
        return;
      }
      r := None;
      var index := 0;
      while index < |peers|
        invariant 0 <= index <= |peers|
        invariant r.None? ==> forall j | 0 <= j < index :: !Expects(peers[j], requestId)
        invariant r.Some? ==>
          && r.value < index && Expects(peers[r.value], requestId)
          && forall j | 0 <= j < index && j != r.value :: !Expects(peers[j], requestId)
      {
        if Expects(peers[index], requestId) {
          if r.Some? {
            FirstIs(peers, (slot: Option<Peer>) => Expects(slot, requestId), r.value);
            return None;
          }
          r := Some(index);
        }
        index := index + 1;
      }
      if r.Some? {
        FirstIs(peers, (slot: Option<Peer>) => Expects(slot, requestId), r.value);
      } else {
        FirstIsNone(peers, (slot: Option<Peer>) => Expects(slot, requestId));
      }
    }

    /** Formats the policy lets through; two with the same id fail the whole list. */
    method BuildFormats(formats: seq<Offered>, local: bool) returns (kept: Option<seq<Format>>)
      ensures kept == Filtered(cfg, formats, |formats|, local)
    {
      var copied: seq<Format> := [];
      var index := 0;
      while index < |formats|
        invariant 0 <= index <= |formats|
        invariant Filtered(cfg, formats, index, local) == Some(copied)
      {
        var f := formats[index];
        if f.cls.Some? && f.cls.value in cfg.allowed {
          var id := if local && f.id == 0 then DefaultId(f.cls.value) else f.id;
          var known := IdExists(copied, id);
          if known {
            StaysRejected(cfg, formats, index + 1, |formats|, local);
            return None;
          }
          copied := copied + [Format(id, f.cls.value)];
        }
        index := index + 1;
      }
      return Some(copied);
    }

    // --- Pending operations ---

    method ClearPending(k: nat, kind: nat)
      requires Here(k) && kind < KINDS
      modifies this`peers, this`pendingCount
      ensures Value() == ClearAt(old(Value()), k, kind)
    {
      var p := peers[k].value;
      if p.slots[kind].Empty? {
        return;
      }
      peers := peers[k := Some(p.(slots := p.slots[kind := Empty]))];
      if pendingCount > 0 {
        pendingCount := pendingCount - 1;
      }
    }

    /** Close one operation, recording how. */
    method CloseOne(k: nat, kind: nat, close: Key -> Out)
      requires Here(k) && kind < KINDS
      modifies this`peers, this`pendingCount, this`out
      ensures Value() == Close(old(Value()), k, kind, close) && Here(k)
      ensures SameName(peers[k].value, old(peers[k].value))
    {
      var p := peers[k].value;
      var q := p.slots[kind];
      if q.Slot? {
        out := out + [close(KeyFor(p, q))];
        ClearPending(k, kind);
      }
    }

    method BeginPending(k: nat, q: Slot, ghost key: Key) returns (status: Status)
      requires Here(k) && q.Slot? && q.kind < KINDS
      modifies this`peers, this`pendingCount, this`out
      ensures status == BeginStatus(old(Value()), k, q.kind)
      ensures Value() == if status == Ok then Begin(Emit(old(Value()), Opened(key)), k, q.kind, q) else old(Value())
    {
      var p := peers[k].value;
      if p.slots[q.kind].Slot? {
        return State;
      }
      if pendingCount >= cfg.maxPending {
        return LimitExceeded;
      }
      out := out + [Opened(key)];
      peers := peers[k := Some(p.(slots := p.slots[q.kind := q]))];
      pendingCount := pendingCount + 1;
      return Ok;
    }

    method CancelRemotePending(k: nat)
      requires Here(k)
      modifies this`peers, this`pendingCount, this`out
      ensures Here(k) && Value() == CancelRemote(old(Value()), k)
    {
      ghost var start := Value();
      CloseOne(k, REMOTE_DATA, CancelWrite());
      CloseOne(k, REMOTE_FILE, CancelWrite());
      TwoClosed(start, k, REMOTE_DATA, CancelWrite());
    }

    method CancelLocalPending(k: nat)
      requires Here(k)
      modifies this`peers, this`pendingCount, this`out
      ensures Here(k) && Value() == CancelLocal(old(Value()), k)
    {
      ghost var start := Value();
      CloseOne(k, LOCAL_DATA, Refusal());
      CloseOne(k, LOCAL_FILE, Refusal());
      TwoClosed(start, k, LOCAL_DATA, Refusal());
    }

    method DropPending(k: nat, why: Why)
      requires Here(k)
      modifies this`peers, this`pendingCount, this`out
      ensures Here(k) && Value() == DropAll(old(Value()), k, why)
      ensures peers[k].value.ownership == old(peers[k].value.ownership)
    {
      ghost var start := Value();
      CloseOne(k, LOCAL_DATA, Drop(why));
      CloseOne(k, LOCAL_FILE, Drop(why));
      TwoClosed(start, k, LOCAL_DATA, Drop(why));
      ghost var half := Value();
      CloseOne(k, REMOTE_DATA, Drop(why));
      CloseOne(k, REMOTE_FILE, Drop(why));
      FourClosed(start, half, k, Drop(why));
    }

    /** The runtime hears, in the middle of a call, that one operation of the peer was cancelled. */
    method HearCancelled(k: nat, kind: Option<nat>)
      requires Here(k)
      modifies this`peers, this`pendingCount, this`out
      ensures Here(k) && Value() == Report(old(Value()), k, kind)
      ensures SameName(peers[k].value, old(peers[k].value))
    {
      if !peers[k].value.ready {
        return;
      }
      if kind == Some(REMOTE_DATA) {
        CloseOne(k, REMOTE_DATA, Drop(PeerCancelled));
      } else if kind == Some(REMOTE_FILE) {
        CloseOne(k, REMOTE_FILE, Drop(PeerCancelled));
      }
    }

    /** Have the protocol cancel all of a peer's requests; it reports any of them before it returns. */
    method CancelRequestsOf(k: nat, hook: Hook)
      requires Here(k)
      modifies this`peers, this`pendingCount, this`out
      ensures Here(k) && Value() == CancelAt(old(Value()), k, hook)
      ensures SameName(peers[k].value, old(peers[k].value))
    {
      ghost var start := Value();
      var kinds := hook(peers[k].value.id);
      var index := 0;
      while index < |kinds|
        invariant 0 <= index <= |kinds| && Here(k)
        invariant SameName(peers[k].value, old(peers[k].value))
        invariant Value() == Reports(start, k, kinds[..index])
      {
        HearCancelled(k, kinds[index]);
        assert kinds[..index + 1][..index] == kinds[..index];
        index := index + 1;
      }
      assert kinds[..|kinds|] == kinds;
    }

    /** One peer's part of a sweep. */
    method SweepOne(k: nat, sweep: Sweep)
      requires k < |peers|
      modifies this`peers, this`pendingCount, this`out
      ensures Value() == SweepPeer(old(Value()), k, sweep)
    {
      if peers[k].None? {
        return;
      }
      match sweep {
        case LocalCopy =>
          CancelLocalPending(k);
          CancelRemotePending(k);
          peers := peers[k := Some(peers[k].value.(ownership := 0))];
        case NewOffer =>
          CancelRemotePending(k);
          peers := peers[k := Some(peers[k].value.(formats := [], ownership := 0))];
        case Revoking(hook) =>
          CancelRequestsOf(k, hook);
          DropPending(k, Withdrawn);
          peers := peers[k := Some(peers[k].value.(ready := false, channel := 0))];
      }
    }

    /** ... as one more step of it. */
    method SweepNext(k: nat, sweep: Sweep, ghost start: Clip)
      requires k < |peers| && Value() == SweepTo(start, k, sweep)
      modifies this`peers, this`pendingCount, this`out
      ensures Value() == SweepTo(start, k + 1, sweep) && |peers| == |start.peers|
    {
      SweepOne(k, sweep);
      SweepSize(start, k + 1, sweep);
    }

    method SweepAll(sweep: Sweep)
      modifies this`peers, this`pendingCount, this`out
      ensures |peers| == old(|peers|) && Value() == SweepTo(old(Value()), |peers|, sweep)
    {
      ghost var start := Value();
      var index, count := 0, |peers|;
      assert SweepTo(start, 0, sweep) == start;
      while index < count
        invariant 0 <= index <= count == |peers| == |start.peers| && Value() == SweepTo(start, index, sweep)
      {
        SweepNext(index, sweep, start);
        index := index + 1;
      }
    }

    // --- Entry points ---

    method AddPeer(id: nat, generation: nat) returns (status: Status)
      requires Valid()
      modifies this`peers
      ensures Valid() && (status, Value()) == ClipboardModel.AddPeer(old(Value()), id, generation)
    {
      AddPeerInv(Value(), id, generation);
      var known := LookupPeer(id, generation);
      if id == 0 || generation == 0 || known.Some? {
        return InvalidArgument;
      }
      var free := FindFirst(peers, (slot: Option<Peer>) => slot.None?);
      if free.None? {
        return LimitExceeded;
      }
      peers := peers[free.value := Some(NewPeer(id, generation))];
      return Ok;
    }

    method RemovePeer(id: nat, generation: nat, hook: Hook)
      requires Valid()
      modifies this`peers, this`pendingCount, this`out, this`published
      ensures Valid() && Value() == ClipboardModel.RemovePeer(old(Value()), id, generation, hook)
    {
      RemovePeerInv(Value(), id, generation, hook);
      var found := LookupPeer(id, generation);
      if found.None? {
        return;
      }
      var ownership := peers[found.value].value.ownership;
      CancelRequestsOf(found.value, hook);
      DropPending(found.value, PeerGone);
      if ownership != 0 && published == ownership {
        published := 0;
      }
      peers := peers[found.value := None];
    }

    method ChannelReady(id: nat, generation: nat, channel: nat, env: Env) returns (status: Status)
      requires Valid()
      modifies this`peers
      ensures Valid() && (status, Value()) == ClipboardModel.ChannelReady(old(Value()), id, generation, channel, env)
    {
      ChannelInv(Value(), id, generation, channel, env);
      var found := LookupPeer(id, generation);
      if found.None? || channel == 0 {
        return InvalidArgument;
      }
      status := env(MonitorReady(id, channel));
      if status == Ok {
        status := env(Capabilities(id, channel));
      }
      if status != Ok {
        return;
      }
      peers := peers[found.value := Some(peers[found.value].value.(channel := channel, ready := true))];
      status := env(FormatList(id, localFormats));
    }

    /** Announce the local formats to every ready peer, up to the first failure. */
    method SendFormats(env: Env) returns (status: Status)
      ensures status == SendTo(peers, |peers|, localFormats, env)
    {
      status := Ok;
      var index := 0;
      while index < |peers|
        invariant 0 <= index <= |peers|
        invariant status == Ok == SendTo(peers, index, localFormats, env)
      {
        if peers[index].Some? && peers[index].value.ready {
          status := env(FormatList(peers[index].value.id, localFormats));
          if status != Ok {
            StaysFailed(peers, index + 1, |peers|, localFormats, env);
            return;
          }
        }
        index := index + 1;
      }
    }

    method PlatformFormats(formats: seq<Offered>, generation: nat, env: Env) returns (status: Status)
      requires Valid()
      modifies this`peers, this`pendingCount, this`out, this`published, this`localFormats, this`localGeneration
      ensures Valid() && (status, Value()) == ClipboardModel.PlatformFormats(old(Value()), formats, generation, env)
    {
      FormatsInv(Value(), formats, generation, env);
      status := CopyLocal(formats, generation, env);
    }

    method CopyLocal(formats: seq<Offered>, generation: nat, env: Env) returns (status: Status)
      modifies this`peers, this`pendingCount, this`out, this`published, this`localFormats, this`localGeneration
      ensures (status, Value()) == ClipboardModel.PlatformFormats(old(Value()), formats, generation, env)
    {
      if generation != 0 && generation == published {
        return Ok;
      }
      if |formats| > cfg.maxFormats {
        return InvalidArgument;
      }
      var kept := BuildFormats(formats, true);
      if kept.None? {
        return InvalidArgument;
      }
      SweepAll(LocalCopy);
      published := 0;
      localFormats, localGeneration := kept.value, generation;
      status := SendFormats(env);
    }

    /** A client's offer becomes the publication if the platform takes it. */
    method PublishRemote(k: nat, formats: seq<Offered>, env: Env) returns (status: Status)
      requires Here(k)
      modifies this`peers, this`pendingCount, this`out, this`published, this`nextOwnership
      ensures (status, Value()) == Publish(old(Value()), k, formats, env)
    {
      if |formats| > cfg.maxFormats {
        return LimitExceeded;
      }
      var kept := BuildFormats(formats, false);
      if kept.None? {
        return ProtocolError;
      }
      var p := peers[k].value;
      nextOwnership := nextOwnership + 1;
      status := env(PublishFormats(p.id, p.generation, nextOwnership, kept.value));
      if status == Ok {
        TakePublication(k, kept.value);
      }
    }

    /** Peer `k` becomes the one owner. */
    method TakePublication(k: nat, kept: seq<Format>)
      requires Here(k)
      modifies this`peers, this`pendingCount, this`out, this`published
      ensures Value() == TakeOver(old(Value()), k, kept)
    {
      OwnerStays(Value(), k);
      SweepAll(NewOffer);
      peers := peers[k := Some(peers[k].value.(formats := kept, ownership := nextOwnership))];
      published := nextOwnership;
    }

    method OfferFormats(k: nat, formats: seq<Offered>, env: Env) returns (status: Status)
      requires Here(k)
      modifies this`peers, this`pendingCount, this`out, this`published, this`nextOwnership
      ensures (status, Value()) == FormatsOffered(old(Value()), k, formats, env)
    {
      var id := peers[k].value.id;
      status := PublishRemote(k, formats, env);
      var sent := env(FormatListResponse(id, status == Ok));
      if sent != Ok && status == Ok {
        status := IoError;
      }
    }

    method RequestLocalData(k: nat, formatId: nat, env: Env) returns (status: Status)
      requires Here(k)
      modifies this`peers, this`pendingCount, this`out, this`nextRequestId
      ensures (status, Value()) == DataRequested(old(Value()), k, formatId, env)
    {
      var p := peers[k].value;
      var known := IdExists(localFormats, formatId);
      if !known {
        var key := Key(LOCAL_DATA, 0, p.id, p.generation, 0, 0);
        out := out + [Opened(key)] + [Answered(key, false, [])];
        return env(SendAnswer(key, false, []));
      }
      var q := Slot(LOCAL_DATA, nextRequestId, formatId, 0, cfg.maxData, []);
      status := AskPlatform(k, q, env);
    }

    /** Take the slot and ask the platform; a request that finds none ends the one that holds it. */
    method AskPlatform(k: nat, q: Slot, env: Env) returns (status: Status)
      requires Here(k) && q.Slot? && q.kind == LOCAL_DATA
      modifies this`peers, this`pendingCount, this`out, this`nextRequestId
      ensures (status, Value()) == DataStarted(old(Value()), k, q, env(RequestData(q.requestId, q.formatId)))
    {
      var key := KeyFor(peers[k].value, q);
      nextRequestId := nextRequestId + 1;
      status := BeginPending(k, q, key);
      if status != Ok {
        RefuseBoth(k, LOCAL_DATA, key);
        return;
      }
      status := env(RequestData(q.requestId, q.formatId));
      if status != Ok {
        CloseOne(k, LOCAL_DATA, Refusal());
      }
    }

    /** End the operation that holds the slot, and refuse the one that wanted it. */
    method RefuseBoth(k: nat, kind: nat, ghost key: Key)
      requires Here(k) && kind < KINDS
      modifies this`peers, this`pendingCount, this`out
      ensures Value() == Refuse(Close(old(Value()), k, kind, Drop(Overlapped)), key)
    {
      CloseOne(k, kind, Drop(Overlapped));
      out := out + [Opened(key)] + [Answered(key, false, [])];
    }

    method RequestLocalFile(k: nat, ask: FileAsk, env: Env) returns (status: Status)
      requires Here(k)
      modifies this`peers, this`pendingCount, this`out, this`nextRequestId
      ensures (status, Value()) == FileRequested(old(Value()), k, ask, env)
    {
      var p := peers[k].value;
      var shares := ClassExists(localFormats, UriList);
      if !GoodFlags(ask.flags) || ask.requested > cfg.maxRange || !shares {
        var key := Key(LOCAL_FILE, 0, p.id, p.generation, ask.streamId, 0);
        out := out + [Opened(key)] + [Answered(key, false, [])];
        return env(SendAnswer(key, false, []));
      }
      var q := Slot(LOCAL_FILE, nextRequestId, 0, ask.streamId, RangeLimit(cfg, ask.requested), []);
      nextRequestId := nextRequestId + 1;
      status := BeginPending(k, q, KeyFor(p, q));
      if status != Ok {
        out := out + [Opened(KeyFor(p, q))] + [Dropped(KeyFor(p, q), NotStarted)];
        return;
      }
      status := env(RequestFile(q.requestId, p.id, p.generation, localGeneration, ask.streamId));
      if status != Ok {
        CloseOne(k, LOCAL_FILE, Refusal());
      }
    }

    method DeliverRemote(k: nat, kind: nat, reply: Reply, env: Env) returns (status: Status)
      requires Here(k) && kind < KINDS && peers[k].value.slots[kind].Slot?
      modifies this`peers, this`pendingCount, this`out
      ensures (status, Value()) == Deliver(old(Value()), k, kind, reply, env)
    {
      var p := peers[k].value;
      var q := p.slots[kind];
      if |reply.data| > q.max {
        CloseOne(k, kind, Drop(Oversized));
        return LimitExceeded;
      }
      var result := if reply.success then Ok else ProtocolError;
      var data := if reply.success then reply.data else [];
      status := env(WriteData(KeyFor(p, q), result, data));
      CloseOne(k, kind, key => Wrote(key, result, data));
    }

    method DispatchInput(k: nat, input: Input, env: Env) returns (status: Status)
      requires Here(k)
      modifies this`peers, this`pendingCount, this`out, this`published, this`nextOwnership, this`nextRequestId
      ensures (status, Value()) == PeerInput(old(Value()), k, input, env)
    {
      match input {
        case Announcement =>
          status := Ok;
        case ListOffered(formats) =>
          status := OfferFormats(k, formats, env);
        case ListAcknowledged(success) =>
          status := if success then Ok else ProtocolError;
        case DataAsked(formatId) =>
          status := RequestLocalData(k, formatId, env);
        case DataReplied(reply) =>
          if peers[k].value.slots[REMOTE_DATA].Empty? {
            return ProtocolError;
          }
          status := DeliverRemote(k, REMOTE_DATA, reply, env);
        case FileAsked(ask) =>
          status := RequestLocalFile(k, ask, env);
        case FileReplied(reply) =>
          var q := peers[k].value.slots[REMOTE_FILE];
          if q.Empty? || q.streamId != reply.streamId {
            return ProtocolError;
          }
          status := DeliverRemote(k, REMOTE_FILE, reply, env);
        case WorkCancelled(kind) =>
          if kind == Some(REMOTE_DATA) {
            CloseOne(k, REMOTE_DATA, Drop(PeerCancelled));
          } else if kind == Some(REMOTE_FILE) {
            CloseOne(k, REMOTE_FILE, Drop(PeerCancelled));
          }
          status := Cancelled;
        case UnknownInput =>
          status := Unsupported;
      }
    }

    method ProtocolEvent(id: nat, generation: nat, channel: nat, input: Input, env: Env) returns (status: Status)
      requires Valid()
      modifies this`peers, this`pendingCount, this`out, this`published, this`nextOwnership, this`nextRequestId
      ensures Valid()
      ensures (status, Value()) == ClipboardModel.ProtocolEvent(old(Value()), id, generation, channel, input, env)
    {
      ProtocolInv(Value(), id, generation, channel, input, env);
      var found := LookupPeer(id, generation);
      if found.None? {
        return InvalidArgument;
      }
      var p := peers[found.value].value;
      if !p.ready || (!input.WorkCancelled? && channel != p.channel) {
        return InvalidArgument;
      }
      status := DispatchInput(found.value, input, env);
    }

    /** One more chunk for a pending answer. */
    method Append(k: nat, kind: nat, chunk: Chunk, env: Env) returns (status: Status)
      requires Here(k) && kind < KINDS && peers[k].value.slots[kind].Slot?
      modifies this`peers, this`pendingCount, this`out
      ensures (status, Value()) == Accumulate(old(Value()), k, kind, chunk, env)
    {
      var p := peers[k].value;
      var q := p.slots[kind];
      status := ChunkStatus(q, chunk);
      if status != Ok {
        CloseOne(k, kind, Refusal());
        return;
      }
      var data := q.data + chunk.bytes;
      if chunk.last {
        CloseOne(k, kind, key => Answered(key, true, data));
        status := env(SendAnswer(KeyFor(p, q), true, data));
      } else {
        peers := peers[k := Some(p.(slots := p.slots[kind := q.(data := data)]))];
      }
    }

    method PlatformData(chunk: Chunk, env: Env) returns (status: Status)
      requires Valid()
      modifies this`peers, this`pendingCount, this`out
      ensures Valid() && (status, Value()) == ClipboardModel.PlatformData(old(Value()), chunk, env)
    {
      PlatformDataInv(Value(), chunk, env);
      status := Route(chunk, env);
    }

    /** Find the pending answer a chunk is for and add it there. */
    method Route(chunk: Chunk, env: Env) returns (status: Status)
      modifies this`peers, this`pendingCount, this`out
      ensures (status, Value()) == ClipboardModel.PlatformData(old(Value()), chunk, env)
    {
      var found := LookupLocal(chunk.peerId, chunk.generation, chunk.requestId);
      if found.None? {
        return State;
      }
      var slots := peers[found.value].value.slots;
      var kind := ChunkKind(slots, chunk.requestId);
      if kind.None? {
        return State;
      }
      var q := slots[kind.value];
      if q.formatId != chunk.formatId || (q.kind == LOCAL_FILE && q.streamId != chunk.streamId) ||
         (chunk.ownership != 0 && chunk.ownership != localGeneration) {
        return State;
      }
      status := Append(found.value, kind.value, chunk, env);
    }

    /** Take the slot for a platform request and send it to the client. */
    method SendRemote(k: nat, q: Slot, ownership: nat, env: Env) returns (status: Status)
      requires Here(k) && q.Slot? && q.kind < KINDS && BeginStatus(Value(), k, q.kind) == Ok
      modifies this`peers, this`pendingCount, this`out
      ensures (status, Value()) == StartRemote(old(Value()), k, q, ownership, env)
    {
      var p := peers[k].value;
      var key := KeyOf(p.id, p.generation, ownership, q);
      var _ := BeginPending(k, q, key);
      status := env(SendRequest(key, q.formatId));
      if status != Ok {
        CloseOne(k, q.kind, Drop(NotSent));
      }
    }

    method PlatformRequest(r: Request, env: Env) returns (status: Status)
      requires Valid()
      modifies this`peers, this`pendingCount, this`out
      ensures Valid() && (status, Value()) == ClipboardModel.PlatformRequest(old(Value()), r, env)
    {
      RequestInv(Value(), r, env);
      if r.requestId == 0 {
        return InvalidArgument;
      }
      var found := LookupPeer(r.peerId, r.generation);
      if found.None? {
        return State;
      }
      var p := peers[found.value].value;
      var offered := IdExists(p.formats, r.formatId);
      if r.ownership != published || r.ownership != p.ownership || !offered {
        return State;
      }
      if p.slots[REMOTE_DATA].Slot? || pendingCount >= cfg.maxPending {
        status := if p.slots[REMOTE_DATA].Slot? then State else LimitExceeded;
        CloseOne(found.value, REMOTE_DATA, Drop(Overlapped));
        return;
      }
      status := SendRemote(found.value, Slot(REMOTE_DATA, r.requestId, r.formatId, 0, cfg.maxData, []),
                           r.ownership, env);
    }

    method PlatformFileRequest(r: Request, env: Env) returns (status: Status)
      requires Valid()
      modifies this`peers, this`pendingCount, this`out
      ensures Valid() && (status, Value()) == ClipboardModel.PlatformFileRequest(old(Value()), r, env)
    {
      FileRequestInv(Value(), r, env);
      if r.requestId == 0 || r.streamId == 0 || r.requested > cfg.maxRange || !GoodFlags(r.flags) {
        return InvalidArgument;
      }
      var found := LookupPeer(r.peerId, r.generation);
      if found.None? {
        return State;
      }
      var p := peers[found.value].value;
      var shares := ClassExists(p.formats, UriList);
      if r.ownership != published || r.ownership != p.ownership || !shares {
        return State;
      }
      if p.slots[REMOTE_FILE].Slot? {
        return State;
      }
      if pendingCount >= cfg.maxPending {
        return LimitExceeded;
      }
      var q := Slot(REMOTE_FILE, r.requestId, 0, r.streamId, RangeLimit(cfg, r.requested), []);
      status := SendRemote(found.value, q, r.ownership, env);
    }

    method PlatformCancel(id: nat, generation: nat, ownership: nat, requestId: nat, env: Env, hook: Hook)
      returns (status: Status)
      requires Valid()
      modifies this`peers, this`pendingCount, this`out
      ensures Valid()
      ensures (status, Value()) ==
        ClipboardModel.PlatformCancel(old(Value()), id, generation, ownership, requestId, env, hook)
    {
      CancelInv(Value(), id, generation, ownership, requestId, env, hook);
      if id == 0 || generation == 0 || ownership == 0 || requestId == 0 {
        return InvalidArgument;
      }
      var found := LookupPeer(id, generation);
      if found.None? || ownership != published || ownership != peers[found.value].value.ownership {
        return State;
      }
      var kind := RemoteKind(peers[found.value].value.slots, requestId);
      if kind.None? {
        return State;
      }
      status := env(CancelRequests(id));
      CancelRequestsOf(found.value, hook);
      CloseOne(found.value, kind.value, Drop(PlatformCancelled));
    }

    method Revoke(hook: Hook)
      requires Valid()
      modifies this`peers, this`pendingCount, this`out, this`published
      ensures Valid() && Value() == ClipboardModel.Revoke(old(Value()), hook)
    {
      RevokeInv(Value(), hook);
      SweepAll(Revoking(hook));
      if published != 0 {
        published := 0;
      }
    }
  }

  /** The same peer with the same claim to the clipboard. */
  predicate SameName(p: Peer, was: Peer) {
    p.id == was.id && p.generation == was.generation && p.ownership == was.ownership && p.ready == was.ready
  }

  // --- Facts the loops rest on ---

  lemma {:induction false} StaysRejected(cfg: Config, formats: seq<Offered>, n: nat, m: nat, local: bool)
    requires n <= m <= |formats| && Filtered(cfg, formats, n, local) == None
    ensures Filtered(cfg, formats, m, local) == None
  {
    if n < m {
      StaysRejected(cfg, formats, n, m - 1, local);
    }
  }

  lemma {:induction false} StaysFailed(peers: seq<Option<Peer>>, n: nat, m: nat, formats: seq<Format>, env: Env)
    requires n <= m <= |peers| && SendTo(peers, n, formats, env) != Ok
    ensures SendTo(peers, m, formats, env) == SendTo(peers, n, formats, env)
  {
    if n < m {
      StaysFailed(peers, n, m - 1, formats, env);
    }
  }

  lemma SweepSize(c: Clip, n: nat, sweep: Sweep)
    ensures |SweepTo(c, n, sweep).peers| == |c.peers|
  {
    SweepShrinks(c, n, sweep);
  }

  lemma OwnerStays(c: Clip, k: nat)
    requires Live(c, k)
    ensures Live(SweepTo(c, |c.peers|, NewOffer), k)
  {
    SweepShrinks(c, |c.peers|, NewOffer);
    assert ShrinksPeer(c.peers[k], SweepTo(c, |c.peers|, NewOffer).peers[k]);
  }

  lemma TwoClosed(c: Clip, k: nat, from: nat, close: Key -> Out)
    ensures CloseRange(c, k, from, from + 2, close) == Close(Close(c, k, from, close), k, from + 1, close)
  {
    assert CloseRange(c, k, from, from, close) == c;
    assert CloseRange(c, k, from, from + 1, close) == Close(c, k, from, close);
  }

  lemma FourClosed(c: Clip, half: Clip, k: nat, close: Key -> Out)
    requires half == CloseRange(c, k, LOCAL_DATA, REMOTE_DATA, close)
    ensures CloseRange(c, k, LOCAL_DATA, KINDS, close) ==
      Close(Close(half, k, REMOTE_DATA, close), k, REMOTE_FILE, close)
  {
    assert CloseRange(c, k, LOCAL_DATA, REMOTE_FILE, close) == Close(half, k, REMOTE_DATA, close);
  }
}
