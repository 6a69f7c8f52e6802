/**
  How much data the clipboard runtime lets through: every pending operation carries the limit of
  its kind in the configuration, nothing longer is ever passed on, and nothing that fits is refused.
 */
module ClipboardLimits {
  import opened Status
  import opened Tally
  import opened ClipboardModel
  import opened ClipboardInvariants
  import opened ClipboardRuns
  import opened ClipboardChunks
  import opened ClipboardTheorems

  predicate IsData(kind: nat) { kind == LOCAL_DATA || kind == REMOTE_DATA }

  function Limit(cfg: Config, kind: nat): nat { if IsData(kind) then cfg.maxData else cfg.maxRange }

  /** Data requests may take the configured data limit, file requests at most the range limit. */
  predicate SlotWithin(cfg: Config, q: Slot) {
    q.Slot? ==>
      && (IsData(q.kind) ==> q.max == cfg.maxData)
      && (!IsData(q.kind) ==> q.max <= cfg.maxRange && (cfg.maxRange > 0 ==> q.max > 0))
  }

  /** What was passed on fits the limit of its kind. */
  predicate OutWithin(cfg: Config, o: Out) { o.Answered? || o.Wrote? ==> |o.data| <= Limit(cfg, o.key.kind) }

  ghost predicate Within(c: Clip) {
    && (forall k: nat, i: nat | Busy(c, k, i) :: SlotWithin(c.cfg, SlotAt(c, k, i)))
    && (forall i | 0 <= i < |c.out| :: OutWithin(c.cfg, c.out[i]))
  }

  // --- Elementary changes ---

  lemma EmitWithin(c: Clip, o: Out)
    requires Within(c) && OutWithin(c.cfg, o)
    ensures Within(Emit(c, o))
  {
    forall k: nat, i: nat | Busy(Emit(c, o), k, i) ensures SlotWithin(c.cfg, SlotAt(Emit(c, o), k, i)) {
      assert Busy(c, k, i);
    }
  }

  lemma CloseWithin(c: Clip, k: nat, kind: nat, close: Key -> Out)
    requires Within(c) && (Busy(c, k, kind) ==> OutWithin(c.cfg, close(KeyAt(c, k, kind))))
    ensures Within(Close(c, k, kind, close)) && Close(c, k, kind, close).cfg == c.cfg
  {
    var r := Close(c, k, kind, close);
    forall j: nat, i: nat | Busy(r, j, i) ensures SlotWithin(c.cfg, SlotAt(r, j, i)) {
      assert Busy(c, j, i) && SlotAt(r, j, i) == SlotAt(c, j, i);
    }
  }

  /** It passes no data on. */
  ghost predicate Bland(close: Key -> Out) {
    forall key :: close(key).Answered? || close(key).Wrote? ==> close(key).data == []
  }

  lemma BlandWithin(c: Clip, k: nat, kind: nat, close: Key -> Out)
    requires Within(c) && Bland(close)
    ensures Within(Close(c, k, kind, close)) && Close(c, k, kind, close).cfg == c.cfg
  {
    CloseWithin(c, k, kind, close);
  }

  lemma {:induction false} CloseRangeWithin(c: Clip, k: nat, from: nat, n: nat, close: Key -> Out)
    requires Within(c) && Bland(close)
    ensures Within(CloseRange(c, k, from, n, close)) && CloseRange(c, k, from, n, close).cfg == c.cfg
  {
    if n > from {
      CloseRangeWithin(c, k, from, n - 1, close);
      BlandWithin(CloseRange(c, k, from, n - 1, close), k, n - 1, close);
    }
  }

  lemma {:induction false} ReportsWithin(c: Clip, k: nat, kinds: seq<Option<nat>>)
    requires Within(c)
    ensures Within(Reports(c, k, kinds)) && Reports(c, k, kinds).cfg == c.cfg
  {
    if kinds != [] {
      var before, last := Reports(c, k, kinds[..|kinds| - 1]), kinds[|kinds| - 1];
      ReportsWithin(c, k, kinds[..|kinds| - 1]);
      if Remote(last) {
        BlandWithin(before, k, last.value, Drop(PeerCancelled));
      }
    }
  }

  lemma CancelAllWithin(c: Clip, k: nat, hook: Hook, why: Why)
    requires Within(c)
    ensures Within(CancelAt(c, k, hook)) && Within(DropAll(CancelAt(c, k, hook), k, why))
    ensures CancelAt(c, k, hook).cfg == c.cfg && DropAll(CancelAt(c, k, hook), k, why).cfg == c.cfg
  {
    if Live(c, k) {
      ReportsWithin(c, k, hook(c.peers[k].value.id));
    }
    CloseRangeWithin(CancelAt(c, k, hook), k, LOCAL_DATA, KINDS, Drop(why));
  }

  /** Peers keep their slots, or lose them, and nothing more is said. */
  lemma SameWithin(c: Clip, r: Clip)
    requires Within(c) && r.cfg == c.cfg && r.out == c.out && |r.peers| == |c.peers|
    requires forall k | 0 <= k < |c.peers| && r.peers[k].Some? && c.peers[k].Some? ::
      r.peers[k].value.slots == c.peers[k].value.slots
    requires forall k | 0 <= k < |c.peers| && r.peers[k].Some? && c.peers[k].None? ::
      forall i | 0 <= i < KINDS :: r.peers[k].value.slots[i].Empty?
    ensures Within(r)
  {
    forall k: nat, i: nat | Busy(r, k, i) ensures SlotWithin(r.cfg, SlotAt(r, k, i)) {
      assert c.peers[k].Some? && Busy(c, k, i);
    }
  }

  lemma SweepPeerWithin(c: Clip, k: nat, sweep: Sweep)
    requires Within(c)
    ensures Within(SweepPeer(c, k, sweep)) && SweepPeer(c, k, sweep).cfg == c.cfg
  {
    if Live(c, k) {
      CloseForWithin(c, k, sweep);
      SameWithin(CloseFor(c, k, sweep), SettleAt(CloseFor(c, k, sweep), k, sweep));
    }
  }

  lemma CloseForWithin(c: Clip, k: nat, sweep: Sweep)
    requires Within(c)
    ensures Within(CloseFor(c, k, sweep)) && CloseFor(c, k, sweep).cfg == c.cfg
  {
    match sweep
    case LocalCopy =>
      CloseRangeWithin(c, k, LOCAL_DATA, REMOTE_DATA, Refusal());
      CloseRangeWithin(CancelLocal(c, k), k, REMOTE_DATA, KINDS, CancelWrite());
    case NewOffer => CloseRangeWithin(c, k, REMOTE_DATA, KINDS, CancelWrite());
    case Revoking(hook) => CancelAllWithin(c, k, hook, Withdrawn);
  }

  lemma {:induction false} SweepWithin(c: Clip, n: nat, sweep: Sweep)
    requires Within(c)
    ensures Within(SweepTo(c, n, sweep)) && SweepTo(c, n, sweep).cfg == c.cfg
  {
    if n > 0 {
      SweepWithin(c, n - 1, sweep);
      SweepPeerWithin(SweepTo(c, n - 1, sweep), n - 1, sweep);
      assert SweepTo(c, n, sweep) == SweepPeer(SweepTo(c, n - 1, sweep), n - 1, sweep);
    }
  }

  /** A slot is taken for an operation with the limit of its kind. */
  lemma BeginWithin(c: Clip, k: nat, q: Slot)
    requires Within(c) && Live(c, k) && q.Slot? && q.kind < KINDS && SlotWithin(c.cfg, q)
    ensures Within(Begin(c, k, q.kind, q))
  {
    var r := Begin(c, k, q.kind, q);
    forall j: nat, i: nat | Busy(r, j, i) ensures SlotWithin(c.cfg, SlotAt(r, j, i)) {
      BeginSlots(c, k, q, j, i);
    }
  }

  // --- Requests ---

  lemma RefuseWithin(c: Clip, key: Key)
    requires Within(c)
    ensures Within(Refuse(c, key)) && Within(Abandon(c, key))
  {
    EmitWithin(c, Opened(key));
    EmitWithin(Emit(c, Opened(key)), Answered(key, false, []));
    EmitWithin(Emit(c, Opened(key)), Dropped(key, NotStarted));
  }

  lemma NumberWithin(c: Clip)
    requires Within(c)
    ensures Within(Numbered(c)) && Within(NextGeneration(c))
  {
    SameWithin(c, Numbered(c));
    SameWithin(c, NextGeneration(c));
  }

  lemma StartLocalWithin(c: Clip, k: nat, q: Slot, asked: Status)
    requires Within(c) && Live(c, k) && q.Slot? && q.kind < KINDS && SlotWithin(c.cfg, q)
    ensures Within(StartLocal(c, k, q, asked))
  {
    var logged := Emit(c, Opened(KeyFor(c.peers[k].value, q)));
    EmitWithin(c, Opened(KeyFor(c.peers[k].value, q)));
    BeginWithin(logged, k, q);
    BlandWithin(Begin(logged, k, q.kind, q), k, q.kind, Refusal());
  }

  lemma StartedWithin(c: Clip, k: nat, q: Slot, asked: Status)
    requires Within(c) && Live(c, k) && q.Slot? && q.kind < KINDS && SlotWithin(c.cfg, q)
    ensures Within(DataStarted(c, k, q, asked).1) && Within(FileStarted(c, k, q, asked).1)
  {
    var next, key := Numbered(c), KeyFor(c.peers[k].value, q);
    NumberWithin(c);
    StartLocalWithin(next, k, q, asked);
    BlandWithin(next, k, q.kind, Drop(Overlapped));
    RefuseWithin(Close(next, k, q.kind, Drop(Overlapped)), key);
    RefuseWithin(next, key);
  }

  lemma DataRequestedWithin(c: Clip, k: nat, formatId: nat, env: Env)
    requires Within(c) && Live(c, k)
    ensures Within(DataRequested(c, k, formatId, env).1)
  {
    var p := c.peers[k].value;
    if !HasId(c.localFormats, formatId) {
      RefuseWithin(c, Key(LOCAL_DATA, 0, p.id, p.generation, 0, 0));
    } else {
      var q := Slot(LOCAL_DATA, c.nextRequestId, formatId, 0, c.cfg.maxData, []);
      StartedWithin(c, k, q, env(RequestData(q.requestId, formatId)));
    }
  }

  lemma FileRequestedWithin(c: Clip, k: nat, ask: FileAsk, env: Env)
    requires Within(c) && Live(c, k)
    ensures Within(FileRequested(c, k, ask, env).1)
  {
    var p := c.peers[k].value;
    if !GoodFlags(ask.flags) || ask.requested > c.cfg.maxRange || !HasClass(c.localFormats, UriList) {
      RefuseWithin(c, Key(LOCAL_FILE, 0, p.id, p.generation, ask.streamId, 0));
    } else {
      var q := Slot(LOCAL_FILE, c.nextRequestId, 0, ask.streamId, RangeLimit(c.cfg, ask.requested), []);
      StartedWithin(c, k, q, env(RequestFile(q.requestId, p.id, p.generation, c.localGeneration, ask.streamId)));
    }
  }

  lemma StartRemoteWithin(c: Clip, k: nat, q: Slot, ownership: nat, env: Env)
    requires Within(c) && Live(c, k) && q.Slot? && q.kind < KINDS && SlotWithin(c.cfg, q)
    ensures Within(StartRemote(c, k, q, ownership, env).1)
  {
    var p := c.peers[k].value;
    var key := KeyOf(p.id, p.generation, ownership, q);
    EmitWithin(c, Opened(key));
    BeginWithin(Emit(c, Opened(key)), k, q);
    BlandWithin(Begin(Emit(c, Opened(key)), k, q.kind, q), k, q.kind, Drop(NotSent));
  }

  lemma RequestWithin(c: Clip, r: Request, env: Env)
    requires Within(c)
    ensures Within(PlatformRequest(c, r, env).1)
  {
    var found := FindPeer(c.peers, r.peerId, r.generation);
    if found.Some? {
      BlandWithin(c, found.value, REMOTE_DATA, Drop(Overlapped));
      var q := Slot(REMOTE_DATA, r.requestId, r.formatId, 0, c.cfg.maxData, []);
      StartRemoteWithin(c, found.value, q, r.ownership, env);
    }
  }

  lemma FileRequestWithin(c: Clip, r: Request, env: Env)
    requires Within(c)
    ensures Within(PlatformFileRequest(c, r, env).1)
  {
    var found := FindPeer(c.peers, r.peerId, r.generation);
    if found.Some? && r.requested <= c.cfg.maxRange {
      var q := Slot(REMOTE_FILE, r.requestId, 0, r.streamId, RangeLimit(c.cfg, r.requested), []);
      StartRemoteWithin(c, found.value, q, r.ownership, env);
    }
  }

  // --- Answers ---

  lemma DeliverWithin(c: Clip, k: nat, kind: nat, reply: Reply, env: Env)
    requires Within(c) && Tidy(c) && Busy(c, k, kind)
    ensures Within(Deliver(c, k, kind, reply, env).1)
  {
    if |reply.data| > SlotAt(c, k, kind).max {
      BlandWithin(c, k, kind, Drop(Oversized));
    } else {
      var status, data := if reply.success then Ok else ProtocolError, if reply.success then reply.data else [];
      CloseWithin(c, k, kind, key => Wrote(key, status, data));
    }
  }

  lemma GrowWithin(c: Clip, k: nat, kind: nat, data: seq<byte>)
    requires Within(c) && Busy(c, k, kind)
    ensures var q := SlotAt(c, k, kind); Within(SetSlot(c, k, kind, q.(data := data)))
  {
    var q := SlotAt(c, k, kind);
    var r := SetSlot(c, k, kind, q.(data := data));
    forall j: nat, i: nat | Busy(r, j, i) ensures SlotWithin(c.cfg, SlotAt(r, j, i)) {
      assert Busy(c, j, i);
    }
  }

  lemma ChunkWithin(c: Clip, chunk: Chunk, env: Env)
    requires Within(c) && Tidy(c)
    ensures Within(PlatformData(c, chunk, env).1)
  {
    RoutedIs(c, chunk, env);
    if Routed(c, chunk).Some? {
      var (k, kind) := Routed(c, chunk).value;
      var data := SlotAt(c, k, kind).data + chunk.bytes;
      if ChunkStatus(SlotAt(c, k, kind), chunk) != Ok {
        BlandWithin(c, k, kind, Refusal());
      } else if chunk.last {
        CloseWithin(c, k, kind, key => Answered(key, true, data));
      } else {
        GrowWithin(c, k, kind, data);
      }
    }
  }

  // --- Every step and every run ---

  lemma OfferWithin(c: Clip, k: nat, kept: seq<Format>, taken: bool)
    requires Within(c)
    ensures Within(Offer(c, k, kept, taken))
  {
    NumberWithin(c);
    if taken {
      var next := NextGeneration(c);
      SweepWithin(next, |c.peers|, NewOffer);
      SameWithin(SweepTo(next, |c.peers|, NewOffer), TakeOver(next, k, kept));
    }
  }

  lemma InputWithin(c: Clip, k: nat, input: Input, env: Env)
    requires Within(c) && Tidy(c) && Live(c, k)
    ensures Within(PeerInput(c, k, input, env).1)
  {
    match input {
      case ListOffered(formats) =>
        var p, kept := c.peers[k].value, Filtered(c.cfg, formats, |formats|, false);
        if kept.Some? {
          OfferWithin(c, k, kept.value, env(PublishFormats(p.id, p.generation, c.nextOwnership + 1, kept.value)) == Ok);
        }
      case DataAsked(formatId) => DataRequestedWithin(c, k, formatId, env);
      case FileAsked(ask) => FileRequestedWithin(c, k, ask, env);
      case DataReplied(reply) => if Busy(c, k, REMOTE_DATA) { DeliverWithin(c, k, REMOTE_DATA, reply, env); }
      case FileReplied(reply) => if Busy(c, k, REMOTE_FILE) { DeliverWithin(c, k, REMOTE_FILE, reply, env); }
      case WorkCancelled(kind) => if kind.Some? { BlandWithin(c, k, kind.value, Drop(PeerCancelled)); }
      case _ =>
    }
  }

  lemma ComingWithin(c: Clip, step: Step)
    requires Within(c) && (step.PeerAdded? || step.Readied? || step.Copied?)
    ensures Within(Apply(c, step).1)
  {
    match step {
      case PeerAdded(id, generation) => SameWithin(c, AddPeer(c, id, generation).1);
      case Readied(id, generation, channel, env) => SameWithin(c, ChannelReady(c, id, generation, channel, env).1);
      case Copied(formats, copy, env) =>
        var swept := SweepTo(c, |c.peers|, LocalCopy);
        SweepWithin(c, |c.peers|, LocalCopy);
        if PlatformFormats(c, formats, copy, env).1 != c {
          SameWithin(swept, PlatformFormats(c, formats, copy, env).1);
        }
    }
  }

  lemma RemoveWithin(c: Clip, id: nat, generation: nat, hook: Hook)
    requires Within(c)
    ensures Within(RemovePeer(c, id, generation, hook))
  {
    var found := FindPeer(c.peers, id, generation);
    if found.Some? {
      CancelAllWithin(c, found.value, hook, PeerGone);
      SameWithin(DropAll(CancelAt(c, found.value, hook), found.value, PeerGone), RemovePeer(c, id, generation, hook));
    }
  }

  lemma CancelWithin(c: Clip, id: nat, generation: nat, ownership: nat, requestId: nat, env: Env, hook: Hook)
    requires Within(c)
    ensures Within(PlatformCancel(c, id, generation, ownership, requestId, env, hook).1)
  {
    var found := FindPeer(c.peers, id, generation);
    if found.Some? {
      CancelAllWithin(c, found.value, hook, PeerGone);
      BlandWithin(CancelAt(c, found.value, hook), found.value, REMOTE_DATA, Drop(PlatformCancelled));
      BlandWithin(CancelAt(c, found.value, hook), found.value, REMOTE_FILE, Drop(PlatformCancelled));
    }
  }

  lemma RevokeWithin(c: Clip, hook: Hook)
    requires Within(c)
    ensures Within(Revoke(c, hook))
  {
    SweepWithin(c, |c.peers|, Revoking(hook));
    SameWithin(SweepTo(c, |c.peers|, Revoking(hook)), Revoke(c, hook));
  }

  lemma GoingWithin(c: Clip, step: Step)
    requires Within(c) && (step.PeerRemoved? || step.CancelWanted? || step.Revoked?)
    ensures Within(Apply(c, step).1)
  {
    match step {
      case PeerRemoved(id, generation, hook) => RemoveWithin(c, id, generation, hook);
      case CancelWanted(id, generation, ownership, requestId, env, hook) =>
        CancelWithin(c, id, generation, ownership, requestId, env, hook);
      case Revoked(hook) => RevokeWithin(c, hook);
    }
  }

  lemma StepWithin(c: Clip, step: Step)
    requires Within(c) && Tidy(c)
    ensures Within(Apply(c, step).1)
  {
    match step {
      case Protocol(id, generation, channel, input, env) =>
        var found := FindPeer(c.peers, id, generation);
        if found.Some? {
          InputWithin(c, found.value, input, env);
        }
      case Supplied(chunk, env) => ChunkWithin(c, chunk, env);
      case Requested(request, env) => RequestWithin(c, request, env);
      case FileWanted(request, env) => FileRequestWithin(c, request, env);
      case PeerAdded(_, _) => ComingWithin(c, step);
      case Readied(_, _, _, _) => ComingWithin(c, step);
      case Copied(_, _, _) => ComingWithin(c, step);
      case _ => GoingWithin(c, step);
    }
  }

  lemma {:induction false} RunWithin(cfg: Config, steps: seq<Step>)
    ensures Within(Run(NewClip(cfg), steps)) && Run(NewClip(cfg), steps).cfg == cfg
  {
    if steps == [] {
      forall k: nat, i: nat ensures !Busy(NewClip(cfg), k, i) {}
    } else {
      RunWithin(cfg, steps[..|steps| - 1]);
      RunKeepsInv(cfg, steps[..|steps| - 1]);
      StepWithin(Run(NewClip(cfg), steps[..|steps| - 1]), steps[|steps| - 1]);
      RunCfg(cfg, steps);
    }
  }

  /**
    In every run a pending data request may take exactly the configured data limit, and a pending
    file request at most the configured range, but more than nothing if that is.
   */
  lemma PendingLimits(cfg: Config, steps: seq<Step>, k: nat, kind: nat)
    requires Busy(Run(NewClip(cfg), steps), k, kind)
    ensures var q := SlotAt(Run(NewClip(cfg), steps), k, kind);
      && (kind == LOCAL_DATA || kind == REMOTE_DATA ==> q.max == cfg.maxData)
      && (kind == LOCAL_FILE || kind == REMOTE_FILE ==> q.max <= cfg.maxRange && (cfg.maxRange > 0 ==> q.max > 0))
  {
    RunWithin(cfg, steps);
    RunKeepsInv(cfg, steps);
  }

  /** In every run nothing answered to a client or delivered to the platform is longer than its kind allows. */
  lemma NothingOversized(cfg: Config, steps: seq<Step>, i: nat)
    requires var out := Run(NewClip(cfg), steps).out; i < |out| && (out[i].Answered? || out[i].Wrote?)
    ensures var o := Run(NewClip(cfg), steps).out[i];
      |o.data| <= if o.key.kind == LOCAL_DATA || o.key.kind == REMOTE_DATA then cfg.maxData else cfg.maxRange
  {
    RunWithin(cfg, steps);
  }

  // --- From the request to the answer ---

  /** A client's request for a format on offer, with room for it and a platform that accepts it. */
  ghost predicate Askable(c: Clip, k: nat, formatId: nat, env: Env) {
    && Inv(c) && Live(c, k) && (exists i | 0 <= i < |c.localFormats| :: c.localFormats[i].id == formatId)
    && !Busy(c, k, LOCAL_DATA) && c.pendingCount < c.cfg.maxPending
    && env(RequestData(c.nextRequestId, formatId)) == Ok
    && FindPeer(c.peers, c.peers[k].value.id, c.peers[k].value.generation) == Some(k)
  }

  /** The chunk is for that request: it names the peer or no peer, and the current copy or none. */
  predicate Answering(c: Clip, k: nat, formatId: nat, chunk: Chunk)
    requires Live(c, k)
  {
    var p := c.peers[k].value;
    && chunk.requestId == c.nextRequestId && chunk.formatId == formatId
    && (chunk.ownership == 0 || chunk.ownership == c.localGeneration)
    && ((chunk.peerId == 0 && chunk.generation == 0) || (chunk.peerId == p.id && chunk.generation == p.generation))
  }

  /** Good chunks, the final one marked. */
  ghost predicate GoodOnes(c: Clip, k: nat, formatId: nat, chunks: seq<Chunk>)
    requires Live(c, k)
  {
    && chunks != []
    && forall i | 0 <= i < |chunks| ::
         && Answering(c, k, formatId, chunks[i]) && chunks[i].status == Ok && chunks[i].present
         && (chunks[i].last <==> i == |chunks| - 1)
  }

  lemma AskedIs(c: Clip, k: nat, formatId: nat, env: Env)
    requires Askable(c, k, formatId, env)
    ensures var r, p := DataRequested(c, k, formatId, env), c.peers[k].value;
      && r.0 == Ok && Inv(r.1) && Busy(r.1, k, LOCAL_DATA)
      && SlotAt(r.1, k, LOCAL_DATA) == Slot(LOCAL_DATA, c.nextRequestId, formatId, 0, c.cfg.maxData, [])
      && KeyAt(r.1, k, LOCAL_DATA) == Key(LOCAL_DATA, c.nextRequestId, p.id, p.generation, 0, 0)
      && r.1.localGeneration == c.localGeneration && FindPeer(r.1.peers, p.id, p.generation) == Some(k)
  {
    DataRequestedInv(c, k, formatId, env);
    var r, p := DataRequested(c, k, formatId, env).1, c.peers[k].value;
    FirstSame(c.peers, r.peers, (slot: Option<Peer>) => PeerIs(slot, p.id, p.generation));
  }

  lemma ChunksAreAddressed(c: Clip, k: nat, formatId: nat, chunks: seq<Chunk>, env: Env)
    requires Askable(c, k, formatId, env) && GoodOnes(c, k, formatId, chunks)
    ensures var r := DataRequested(c, k, formatId, env).1;
      Busy(r, k, LOCAL_DATA) && AllAddressed(r, k, LOCAL_DATA, chunks)
  {
    var r := DataRequested(c, k, formatId, env).1;
    AskedIs(c, k, formatId, env);
    UnscopedResolves(r, k, LOCAL_DATA);
    forall i | 0 <= i < |chunks| ensures Addressed(r, k, LOCAL_DATA, chunks[i]) {
      assert Answering(c, k, formatId, chunks[i]);
    }
  }

  /**
    A client that asks for a format on offer and whose platform supplies good chunks is answered
    once: with exactly their concatenation if that is within the configured data limit, and with a
    refusal if it is not.
   */
  lemma AskedIsAnswered(c: Clip, k: nat, formatId: nat, chunks: seq<Chunk>, env: Env)
    requires Askable(c, k, formatId, env) && GoodOnes(c, k, formatId, chunks)
    ensures var p, asked := c.peers[k].value, DataRequested(c, k, formatId, env).1;
      var key, all := Key(LOCAL_DATA, c.nextRequestId, p.id, p.generation, 0, 0), Joined(chunks, |chunks|);
      var r := Feed(asked, chunks, |chunks|, env);
      && !Busy(r, k, LOCAL_DATA)
      && r.out == asked.out +
           [if |all| <= c.cfg.maxData then Answered(key, true, all) else Answered(key, false, [])]
  {
    var asked := DataRequested(c, k, formatId, env).1;
    AskedIs(c, k, formatId, env);
    ChunksAreAddressed(c, k, formatId, chunks, env);
    if |Joined(chunks, |chunks|)| <= c.cfg.maxData {
      GoodChunks(asked, k, LOCAL_DATA, chunks, env);
    } else {
      ChunksAnswerOnce(asked, k, LOCAL_DATA, chunks, |chunks|, env);
      OverEnds(c.cfg.maxData, chunks, |chunks|);
    }
  }

  /** Too much in all ends at a chunk that fails. */
  lemma {:induction false} OverEnds(max: nat, chunks: seq<Chunk>, n: nat)
    requires n <= |chunks| && |Joined(chunks, |chunks|)| > max
    requires forall i | 0 <= i < |chunks| :: chunks[i].last <==> i == |chunks| - 1
    ensures Ends(max, chunks, n).Some? ==> Fails(max, chunks, Ends(max, chunks, n).value)
    ensures n == |chunks| && n > 0 ==> Ends(max, chunks, n).Some?
  {
    if n > 0 {
      OverEnds(max, chunks, n - 1);
    }
  }

  /** What the platform is told of a client's reply. */
  predicate Told(asked: Clip, o: (Status, Clip), key: Key, max: nat, reply: Reply, env: Env) {
    if |reply.data| > max then o.0 == LimitExceeded && o.1.out == asked.out + [Dropped(key, Oversized)]
    else
      var status, data := if reply.success then Ok else ProtocolError, if reply.success then reply.data else [];
      o.0 == env(WriteData(key, status, data)) && o.1.out == asked.out + [Wrote(key, status, data)]
  }

  /** A platform that asked is given what the client sends if that is within the data limit, and nothing more. */
  lemma RequestedIsDelivered(c: Clip, r: Request, reply: Reply, env: Env, later: Env)
    requires Inv(c) && PlatformRequest(c, r, env).0 == Ok
    ensures var k, asked := FindPeer(c.peers, r.peerId, r.generation).value, PlatformRequest(c, r, env).1;
      var key := Key(REMOTE_DATA, r.requestId, r.peerId, r.generation, 0, r.ownership);
      && Live(asked, k)
      && Told(asked, PeerInput(asked, k, DataReplied(reply), later), key, c.cfg.maxData, reply, later)
  {
  }

  /** Likewise for a range of a file: the length asked for is the limit, and the configured one if none was. */
  lemma FileIsDelivered(c: Clip, r: Request, reply: Reply, env: Env, later: Env)
    requires Inv(c) && PlatformFileRequest(c, r, env).0 == Ok && reply.streamId == r.streamId
    ensures var k, asked := FindPeer(c.peers, r.peerId, r.generation).value, PlatformFileRequest(c, r, env).1;
      var key := Key(REMOTE_FILE, r.requestId, r.peerId, r.generation, r.streamId, r.ownership);
      var max := if r.requested > 0 then r.requested else c.cfg.maxRange;
      && Live(asked, k) && Told(asked, PeerInput(asked, k, FileReplied(reply), later), key, max, reply, later)
  {
  }

  /** A client's request for a range of a file is limited to that range, or to the configured one if it names none. */
  lemma AskedFileIs(c: Clip, k: nat, ask: FileAsk, env: Env)
    requires Inv(c) && Live(c, k) && 1 <= ask.flags <= 3 && ask.requested <= c.cfg.maxRange
    requires exists i | 0 <= i < |c.localFormats| :: c.localFormats[i].cls == UriList
    requires !Busy(c, k, LOCAL_FILE) && c.pendingCount < c.cfg.maxPending && forall call :: env(call) == Ok
    ensures var r := FileRequested(c, k, ask, env);
      && r.0 == Ok && Busy(r.1, k, LOCAL_FILE)
      && SlotAt(r.1, k, LOCAL_FILE) == Slot(LOCAL_FILE, c.nextRequestId, 0, ask.streamId,
                                            if ask.requested > 0 then ask.requested else c.cfg.maxRange, [])
  {
  }
}
