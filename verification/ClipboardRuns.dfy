/** Every entry point of the clipboard runtime keeps the invariant, so every run does. */
module ClipboardRuns {
  import opened Status
  import opened Tally
  import opened ClipboardModel
  import opened ClipboardInvariants

  // --- Small steps ---

  /** Nobody loses the clipboard. */
  ghost predicate KeepsOwners(c: Clip, r: Clip) {
    r.published == c.published && forall k: nat, g: nat | Owns(c, k, g) :: Owns(r, k, g)
  }

  lemma FollowsInv(c: Clip, r: Clip)
    requires Inv(c) && Shrinks(c, r) && Balanced(r) && KeepsOwners(c, r)
    ensures Inv(r)
  {
    ShrinkKeeps(c, r);
    if c.published != 0 {
      var k: nat :| Owns(c, k, c.published);
      assert Owns(r, k, r.published);
    }
  }

  lemma CloseOwners(c: Clip, k: nat, kind: nat, close: Key -> Out)
    ensures KeepsOwners(c, Close(c, k, kind, close))
  {
  }

  /** Closing one operation, in whatever way. */
  lemma CloseInv(c: Clip, k: nat, kind: nat, close: Key -> Out)
    requires Inv(c) && Closer(close)
    ensures Inv(Close(c, k, kind, close))
  {
    CloseCounted(c, k, kind, close);
    CloseBalanced(c, k, kind, close, multiset{});
    CloseShrinks(c, k, kind, close);
    CloseOwners(c, k, kind, close);
    FollowsInv(c, Close(c, k, kind, close));
  }

  lemma EmitCore(c: Clip, o: Out)
    requires Core(c)
    ensures Core(Emit(c, o)) && (Counted(c) ==> Counted(Emit(c, o))) && (Owned(c) ==> Owned(Emit(c, o)))
  {
    ShrinkKeeps(c, Emit(c, o));
    if Owned(c) && c.published != 0 {
      var k: nat :| Owns(c, k, c.published);
      assert Owns(Emit(c, o), k, c.published);
    }
  }

  lemma RefuseInv(c: Clip, key: Key)
    requires Inv(c)
    ensures Inv(Refuse(c, key))
  {
    var begun := Emit(c, Opened(key));
    EmitCore(c, Opened(key));
    EmitCore(begun, Answered(key, false, []));
    OpenOwes(c, key, multiset{});
    CloseOwes(begun, Answered(key, false, []), multiset{});
  }

  lemma NumberInv(c: Clip)
    requires Inv(c)
    ensures Inv(Numbered(c))
  {
    var r := Numbered(c);
    forall k: nat, i: nat, id: nat | HasLocal(r, k, i, id) ensures HasLocal(c, k, i, id) {
      assert Busy(c, k, i);
    }
    SamePublication(c, r);
  }

  /** Fields other than the peers' slots, ownership and the publication do not matter to most of the invariant. */
  lemma SamePublication(c: Clip, r: Clip)
    requires r.peers == c.peers && r.published == c.published && r.nextOwnership >= c.nextOwnership
    ensures Tidy(c) ==> Tidy(r)
    ensures Correlated(c) ==> Correlated(r)
    ensures Sole(c) ==> Sole(r)
    ensures Bounded(c) ==> Bounded(r)
    ensures Owned(c) ==> Owned(r)
  {
    forall k: nat, i: nat ensures Busy(r, k, i) == Busy(c, k, i) {}
    forall k: nat, g: nat ensures Owns(r, k, g) == Owns(c, k, g) {}
  }

  // --- Taking a slot ---

  /** The new operation may be pending: a fresh id, or the current publication. */
  ghost predicate Startable(c: Clip, k: nat, q: Slot)
    requires Live(c, k)
  {
    && q.Slot? && q.kind < KINDS && q.data == [] && BeginStatus(c, k, q.kind) == Ok
    && (q.kind <= LOCAL_FILE ==>
          0 < q.requestId < c.nextRequestId && forall j: nat, i: nat :: !HasLocal(c, j, i, q.requestId))
    && (q.kind >= REMOTE_DATA ==> OwnerAt(c, k) == c.published)
  }

  lemma BeginSlots(c: Clip, k: nat, q: Slot, j: nat, i: nat)
    requires Live(c, k) && q.Slot? && q.kind < KINDS && Busy(Begin(c, k, q.kind, q), j, i)
    ensures var r := Begin(c, k, q.kind, q);
      && OwnerAt(r, j) == OwnerAt(c, j)
      && if j == k && i == q.kind
         then SlotAt(r, j, i) == q
         else Busy(c, j, i) && SlotAt(r, j, i) == SlotAt(c, j, i)
  {
  }

  lemma BeginCore(c: Clip, k: nat, q: Slot)
    requires Core(c) && Live(c, k) && Startable(c, k, q)
    ensures Core(Begin(c, k, q.kind, q))
  {
    var r := Begin(c, k, q.kind, q);
    forall j: nat, i: nat | Busy(r, j, i)
      ensures SlotAt(r, j, i).kind == i && |SlotAt(r, j, i).data| <= SlotAt(r, j, i).max
      ensures i >= REMOTE_DATA ==> OwnerAt(r, j) == r.published
    {
      BeginSlots(c, k, q, j, i);
    }
    forall j: nat, i: nat, id: nat | HasLocal(r, j, i, id)
      ensures HasLocal(c, j, i, id) || (j == k && i == q.kind && id == q.requestId)
    {
      BeginSlots(c, k, q, j, i);
    }
    forall j: nat, g: nat | Owns(r, j, g) ensures Owns(c, j, g) {}
  }

  lemma BeginOwned(c: Clip, k: nat, q: Slot)
    requires Owned(c) && Live(c, k) && q.Slot? && q.kind < KINDS
    ensures Owned(Begin(c, k, q.kind, q))
  {
    if c.published != 0 {
      var j: nat :| Owns(c, j, c.published);
      assert Owns(Begin(c, k, q.kind, q), j, c.published);
    }
  }

  /** Log a request and take the slot for it. */
  lemma StartInv(c: Clip, k: nat, q: Slot)
    requires Inv(c) && Live(c, k) && q.Slot? && Startable(Emit(c, Opened(KeyFor(c.peers[k].value, q))), k, q)
    ensures Inv(Begin(Emit(c, Opened(KeyFor(c.peers[k].value, q))), k, q.kind, q))
  {
    var key := KeyFor(c.peers[k].value, q);
    var logged := Emit(c, Opened(key));
    EmitCore(c, Opened(key));
    OpenOwes(c, key, multiset{});
    BeginCounted(logged, k, q);
    BeginBalanced(logged, k, q, multiset{});
    BeginCore(logged, k, q);
    BeginOwned(logged, k, q);
  }

  // --- Client requests for local data ---

  lemma FreshId(c: Clip, o: Out)
    requires LocalIds(c)
    ensures var r := Emit(Numbered(c), o);
      forall j: nat, i: nat :: !HasLocal(r, j, i, c.nextRequestId)
  {
    var r := Emit(Numbered(c), o);
    forall j: nat, i: nat ensures !HasLocal(r, j, i, c.nextRequestId) {
      assert HasLocal(r, j, i, c.nextRequestId) == HasLocal(c, j, i, c.nextRequestId);
    }
  }

  lemma StartLocalInv(c: Clip, k: nat, q: Slot, asked: Status)
    requires Inv(c) && Live(c, k) && q.Slot? && q.kind <= LOCAL_FILE && q.data == []
    requires q.requestId == c.nextRequestId && BeginStatus(c, k, q.kind) == Ok
    ensures Inv(StartLocal(Numbered(c), k, q, asked))
  {
    var key := KeyFor(c.peers[k].value, q);
    NumberInv(c);
    FreshId(c, Opened(key));
    StartInv(Numbered(c), k, q);
    CloseInv(Begin(Emit(Numbered(c), Opened(key)), k, q.kind, q), k, q.kind, Refusal());
  }

  lemma OverlapInv(c: Clip, k: nat, kind: nat, key: Key)
    requires Inv(c)
    ensures Inv(Refuse(Close(Numbered(c), k, kind, Drop(Overlapped)), key))
  {
    NumberInv(c);
    CloseInv(Numbered(c), k, kind, Drop(Overlapped));
    RefuseInv(Close(Numbered(c), k, kind, Drop(Overlapped)), key);
  }

  lemma DataStartedInv(c: Clip, k: nat, q: Slot, asked: Status)
    requires Inv(c) && Live(c, k) && q.Slot? && q.kind <= LOCAL_FILE && q.data == [] && q.requestId == c.nextRequestId
    ensures Inv(DataStarted(c, k, q, asked).1)
  {
    if BeginStatus(c, k, q.kind) != Ok {
      OverlapInv(c, k, q.kind, KeyFor(c.peers[k].value, q));
    } else {
      StartLocalInv(c, k, q, asked);
    }
  }

  lemma DataRequestedInv(c: Clip, k: nat, formatId: nat, env: Env)
    requires Inv(c) && Live(c, k)
    ensures Inv(DataRequested(c, k, formatId, env).1)
  {
    var p := c.peers[k].value;
    if !HasId(c.localFormats, formatId) {
      RefuseInv(c, Key(LOCAL_DATA, 0, p.id, p.generation, 0, 0));
    } else {
      var q := Slot(LOCAL_DATA, c.nextRequestId, formatId, 0, c.cfg.maxData, []);
      DataStartedInv(c, k, q, env(RequestData(q.requestId, formatId)));
    }
  }

  lemma AbandonInv(c: Clip, key: Key)
    requires Inv(c)
    ensures Inv(Abandon(Numbered(c), key))
  {
    var logged := Emit(Numbered(c), Opened(key));
    NumberInv(c);
    EmitCore(Numbered(c), Opened(key));
    EmitCore(logged, Dropped(key, NotStarted));
    OpenOwes(Numbered(c), key, multiset{});
    CloseOwes(logged, Dropped(key, NotStarted), multiset{});
  }

  lemma FileStartedInv(c: Clip, k: nat, q: Slot, asked: Status)
    requires Inv(c) && Live(c, k) && q.Slot? && q.kind <= LOCAL_FILE && q.data == [] && q.requestId == c.nextRequestId
    ensures Inv(FileStarted(c, k, q, asked).1)
  {
    if BeginStatus(c, k, q.kind) != Ok {
      AbandonInv(c, KeyFor(c.peers[k].value, q));
    } else {
      StartLocalInv(c, k, q, asked);
    }
  }

  lemma FileRequestedInv(c: Clip, k: nat, ask: FileAsk, env: Env)
    requires Inv(c) && Live(c, k)
    ensures Inv(FileRequested(c, k, ask, env).1)
  {
    var p := c.peers[k].value;
    if !GoodFlags(ask.flags) || ask.requested > c.cfg.maxRange || !HasClass(c.localFormats, UriList) {
      RefuseInv(c, Key(LOCAL_FILE, 0, p.id, p.generation, ask.streamId, 0));
    } else {
      var q := Slot(LOCAL_FILE, c.nextRequestId, 0, ask.streamId, RangeLimit(c.cfg, ask.requested), []);
      FileStartedInv(c, k, q, env(RequestFile(q.requestId, p.id, p.generation, c.localGeneration, ask.streamId)));
    }
  }

  // --- Client answers, platform chunks, platform requests ---

  lemma DeliverInv(c: Clip, k: nat, kind: nat, reply: Reply, env: Env)
    requires Inv(c) && Busy(c, k, kind) && kind >= REMOTE_DATA
    ensures Inv(Deliver(c, k, kind, reply, env).1)
  {
    if |reply.data| > SlotAt(c, k, kind).max {
      CloseInv(c, k, kind, Drop(Oversized));
    } else {
      var status, data := if reply.success then Ok else ProtocolError, if reply.success then reply.data else [];
      CloseInv(c, k, kind, key => Wrote(key, status, data));
    }
  }

  lemma GrowInv(c: Clip, k: nat, kind: nat, data: seq<byte>)
    requires Inv(c) && Busy(c, k, kind) && |data| <= SlotAt(c, k, kind).max
    ensures var q := SlotAt(c, k, kind); Inv(SetSlot(c, k, kind, q.(data := data)))
  {
    var q := SlotAt(c, k, kind);
    var r := SetSlot(c, k, kind, q.(data := data));
    GrowAccounts(c, k, kind, data, multiset{});
    forall j: nat, i: nat | Busy(r, j, i)
      ensures Busy(c, j, i) && OwnerAt(r, j) == OwnerAt(c, j)
      ensures SlotAt(r, j, i) == if j == k && i == kind then q.(data := data) else SlotAt(c, j, i)
    {}
    forall j: nat, i: nat, id: nat | HasLocal(r, j, i, id) ensures HasLocal(c, j, i, id) {}
    forall j: nat, g: nat ensures Owns(r, j, g) == Owns(c, j, g) {}
  }

  lemma AccumulateInv(c: Clip, k: nat, kind: nat, chunk: Chunk, env: Env)
    requires Inv(c) && Busy(c, k, kind)
    ensures Inv(Accumulate(c, k, kind, chunk, env).1)
  {
    var q := SlotAt(c, k, kind);
    if ChunkStatus(q, chunk) != Ok {
      CloseInv(c, k, kind, Refusal());
    } else {
      var data := q.data + chunk.bytes;
      if chunk.last {
        CloseInv(c, k, kind, key => Answered(key, true, data));
      } else {
        GrowInv(c, k, kind, data);
      }
    }
  }

  lemma PlatformDataInv(c: Clip, chunk: Chunk, env: Env)
    requires Inv(c)
    ensures Inv(PlatformData(c, chunk, env).1)
  {
    var found := FindLocal(c, chunk.peerId, chunk.generation, chunk.requestId);
    if found.Some? {
      var kind := ChunkKind(c.peers[found.value].value.slots, chunk.requestId);
      if kind.Some? && ChunkFits(c, SlotAt(c, found.value, kind.value), chunk) {
        AccumulateInv(c, found.value, kind.value, chunk, env);
      }
    }
  }

  lemma StartRemoteInv(c: Clip, k: nat, q: Slot, env: Env)
    requires Inv(c) && Live(c, k) && q.Slot? && REMOTE_DATA <= q.kind < KINDS && q.data == []
    requires BeginStatus(c, k, q.kind) == Ok && OwnerAt(c, k) == c.published
    ensures Inv(StartRemote(c, k, q, c.published, env).1)
  {
    var begun := Begin(Emit(c, Opened(KeyFor(c.peers[k].value, q))), k, q.kind, q);
    StartInv(c, k, q);
    CloseInv(begun, k, q.kind, Drop(NotSent));
  }

  lemma RequestInv(c: Clip, r: Request, env: Env)
    requires Inv(c)
    ensures Inv(PlatformRequest(c, r, env).1)
  {
    var found := FindPeer(c.peers, r.peerId, r.generation);
    if r.requestId != 0 && found.Some? {
      var k := found.value;
      if Current(c, c.peers[k].value, r.ownership) && HasId(c.peers[k].value.formats, r.formatId) {
        if BeginStatus(c, k, REMOTE_DATA) != Ok {
          CloseInv(c, k, REMOTE_DATA, Drop(Overlapped));
        } else {
          StartRemoteInv(c, k, Slot(REMOTE_DATA, r.requestId, r.formatId, 0, c.cfg.maxData, []), env);
        }
      }
    }
  }

  lemma FileRequestInv(c: Clip, r: Request, env: Env)
    requires Inv(c)
    ensures Inv(PlatformFileRequest(c, r, env).1)
  {
    var found := FindPeer(c.peers, r.peerId, r.generation);
    if found.Some? {
      var k := found.value;
      if Current(c, c.peers[k].value, r.ownership) && BeginStatus(c, k, REMOTE_FILE) == Ok {
        StartRemoteInv(c, k, Slot(REMOTE_FILE, r.requestId, 0, r.streamId, RangeLimit(c.cfg, r.requested), []), env);
      }
    }
  }

  /** Reports of cancelled work. */
  lemma CancelAtInv(c: Clip, k: nat, hook: Hook)
    requires Inv(c) && Live(c, k)
    ensures var r := CancelAt(c, k, hook); Inv(r) && Live(r, k) && OwnerAt(r, k) == OwnerAt(c, k)
  {
    var kinds := hook(c.peers[k].value.id);
    ReportsShrink(c, k, kinds);
    ReportsBalanced(c, k, kinds);
    ReportsOwners(c, k, kinds);
    FollowsInv(c, CancelAt(c, k, hook));
  }

  lemma {:induction false} ReportsOwners(c: Clip, k: nat, kinds: seq<Option<nat>>)
    ensures KeepsOwners(c, Reports(c, k, kinds))
  {
    if kinds != [] {
      var before, last := Reports(c, k, kinds[..|kinds| - 1]), kinds[|kinds| - 1];
      ReportsOwners(c, k, kinds[..|kinds| - 1]);
      if Remote(last) {
        CloseOwners(before, k, last.value, Drop(PeerCancelled));
      }
    }
  }

  lemma CancelInv(c: Clip, id: nat, generation: nat, ownership: nat, requestId: nat, env: Env, hook: Hook)
    requires Inv(c)
    ensures Inv(PlatformCancel(c, id, generation, ownership, requestId, env, hook).1)
  {
    var found := FindPeer(c.peers, id, generation);
    if found.Some? {
      var kind := RemoteKind(c.peers[found.value].value.slots, requestId);
      if kind.Some? {
        CancelAtInv(c, found.value, hook);
        CloseInv(CancelAt(c, found.value, hook), found.value, kind.value, Drop(PlatformCancelled));
      }
    }
  }

  // --- Peers ---

  lemma NoKeys(p: Peer)
    requires forall i | 0 <= i < KINDS :: p.slots[i].Empty?
    ensures PeerKeys(Some(p)) == multiset{} && PeerOne(Some(p)) == 0
  {
    BagEmpty(p.slots, KeysOf(p));
    SumZero(p.slots, SlotOne);
  }

  lemma AddPeerInv(c: Clip, id: nat, generation: nat)
    requires Inv(c)
    ensures Inv(AddPeer(c, id, generation).1)
  {
    var free := First(c.peers, (slot: Option<Peer>) => slot.None?);
    if free.Some? {
      var k, p := free.value, NewPeer(id, generation);
      var r := c.(peers := c.peers[k := Some(p)]);
      NoKeys(p);
      SamePeerKeys(c, r, k);
      forall j: nat, i: nat | Busy(r, j, i) ensures Busy(c, j, i) {}
      forall j: nat, i: nat, id: nat | HasLocal(r, j, i, id) ensures HasLocal(c, j, i, id) {}
      forall j: nat, g: nat ensures Owns(r, j, g) == Owns(c, j, g) {}
      assert r.peers[k] == Some(p);
    }
  }

  lemma ForgetBalanced(c: Clip, k: nat, r: Clip)
    requires Balanced(c) && Live(c, k) && forall i: nat | i < KINDS :: !Busy(c, k, i)
    requires r.peers == c.peers[k := None] && r.out == c.out && r.pendingCount == c.pendingCount && r.cfg == c.cfg
    ensures Balanced(r)
  {
    forall i | 0 <= i < KINDS ensures c.peers[k].value.slots[i].Empty? {
      assert !Busy(c, k, i);
    }
    NoKeys(c.peers[k].value);
    SamePeerKeys(c, r, k);
  }

  lemma ForgetCore(c: Clip, k: nat)
    requires Core(c) && Live(c, k)
    ensures Core(Forget(c, k, OwnerAt(c, k)))
  {
    var r := Forget(c, k, OwnerAt(c, k));
    forall j: nat, i: nat | Busy(r, j, i) ensures Busy(c, j, i) && SlotAt(c, j, i) == SlotAt(r, j, i) {}
    forall j: nat, i: nat, id: nat | HasLocal(r, j, i, id) ensures HasLocal(c, j, i, id) {}
    forall j: nat, g: nat | Owns(r, j, g) ensures Owns(c, j, g) {}
    ForgetCorrelated(c, k);
  }

  /** Freeing an emptied peer. */
  lemma ForgetInv(c: Clip, k: nat)
    requires Inv(c) && Live(c, k) && forall i: nat | i < KINDS :: !Busy(c, k, i)
    ensures Inv(Forget(c, k, OwnerAt(c, k)))
  {
    var r := Forget(c, k, OwnerAt(c, k));
    ForgetBalanced(c, k, r);
    ForgetCore(c, k);
    if r.published != 0 {
      var j: nat :| Owns(c, j, c.published);
      assert Owns(r, j, r.published);
    }
  }

  lemma ForgetCorrelated(c: Clip, k: nat)
    requires Correlated(c) && Sole(c) && Live(c, k)
    ensures Correlated(Forget(c, k, OwnerAt(c, k)))
  {
    var r := Forget(c, k, OwnerAt(c, k));
    forall j: nat, i: nat | Busy(r, j, i) && i >= REMOTE_DATA
      ensures OwnerAt(r, j) == r.published
    {
      assert Busy(c, j, i);
      if r.published != c.published {
        assert Owns(c, k, c.published) && Owns(c, j, c.published);
      }
    }
  }

  lemma {:induction false} CloseRangeOwners(c: Clip, k: nat, from: nat, n: nat, close: Key -> Out)
    ensures KeepsOwners(c, CloseRange(c, k, from, n, close))
  {
    if n > from {
      CloseRangeOwners(c, k, from, n - 1, close);
      CloseOwners(CloseRange(c, k, from, n - 1, close), k, n - 1, close);
    }
  }

  lemma DropAllInv(c: Clip, k: nat, why: Why)
    requires Inv(c) && Live(c, k)
    ensures Inv(DropAll(c, k, why))
    ensures Live(DropAll(c, k, why), k) && OwnerAt(DropAll(c, k, why), k) == OwnerAt(c, k)
    ensures forall i: nat | i < KINDS :: !Busy(DropAll(c, k, why), k, i)
  {
    CloseRangeBalanced(c, k, LOCAL_DATA, KINDS, Drop(why));
    CloseRangeOwners(c, k, LOCAL_DATA, KINDS, Drop(why));
    CloseRangeShrinks(c, k, LOCAL_DATA, KINDS, Drop(why));
    FollowsInv(c, DropAll(c, k, why));
  }

  lemma RemovePeerInv(c: Clip, id: nat, generation: nat, hook: Hook)
    requires Inv(c)
    ensures Inv(RemovePeer(c, id, generation, hook))
  {
    var found := FindPeer(c.peers, id, generation);
    if found.Some? {
      var cancelled := CancelAt(c, found.value, hook);
      CancelAtInv(c, found.value, hook);
      DropAllInv(cancelled, found.value, PeerGone);
      ForgetInv(DropAll(cancelled, found.value, PeerGone), found.value);
    }
  }

  lemma ReadyInv(c: Clip, k: nat, channel: nat)
    requires Inv(c) && Live(c, k)
    ensures Inv(c.(peers := c.peers[k := Some(c.peers[k].value.(channel := channel, ready := true))]))
  {
    var r := c.(peers := c.peers[k := Some(c.peers[k].value.(channel := channel, ready := true))]);
    SamePeerKeys(c, r, k);
    FollowsInv(c, r);
  }

  // --- The publication changes hands ---

  lemma SweepInv(c: Clip, sweep: Sweep)
    requires Inv(c)
    ensures var r := SweepTo(c, |c.peers|, sweep);
      && Shrinks(c, r) && Balanced(r) && Core(r) && |r.peers| == |c.peers|
      && forall k | 0 <= k < |r.peers| :: Swept(r.peers[k], sweep)
  {
    SweepShrinks(c, |c.peers|, sweep);
    SweepSwept(c, |c.peers|, sweep);
    SweepBalanced(c, |c.peers|, sweep);
    ShrinkKeeps(c, SweepTo(c, |c.peers|, sweep));
  }

  /** With nothing remote pending the publication can be withdrawn. */
  lemma WithdrawnInv(c: Clip, r: Clip)
    requires Core(c) && Balanced(c) && r.published == 0 && r.peers == c.peers && r.out == c.out && r.cfg == c.cfg
    requires r.nextOwnership == c.nextOwnership && r.nextRequestId == c.nextRequestId
    requires r.pendingCount == c.pendingCount
    requires forall k | 0 <= k < |c.peers| && c.peers[k].Some? ::
      forall i | REMOTE_DATA <= i < KINDS :: c.peers[k].value.slots[i].Empty?
    ensures Inv(r)
  {
    forall k: nat, i: nat ensures Busy(r, k, i) == Busy(c, k, i) {}
    forall k: nat, i: nat, id: nat ensures HasLocal(r, k, i, id) == HasLocal(c, k, i, id) {}
    forall k: nat, g: nat ensures Owns(r, k, g) == Owns(c, k, g) {}
    forall k: nat, i: nat | i >= REMOTE_DATA ensures !Busy(r, k, i) {}
  }

  lemma LocalCopiedInv(c: Clip, kept: seq<Format>, generation: nat)
    requires Inv(c)
    ensures Inv(LocalCopied(c, kept, generation))
  {
    SweepInv(c, LocalCopy);
    WithdrawnInv(SweepTo(c, |c.peers|, LocalCopy), LocalCopied(c, kept, generation));
  }

  lemma RevokeInv(c: Clip, hook: Hook)
    requires Inv(c)
    ensures Inv(Revoke(c, hook))
  {
    SweepInv(c, Revoking(hook));
    WithdrawnInv(SweepTo(c, |c.peers|, Revoking(hook)), Revoke(c, hook));
  }

  lemma FormatsInv(c: Clip, formats: seq<Offered>, generation: nat, env: Env)
    requires Inv(c)
    ensures Inv(PlatformFormats(c, formats, generation, env).1)
  {
    var kept := Filtered(c.cfg, formats, |formats|, true);
    if kept.Some? {
      LocalCopiedInv(c, kept.value, generation);
    }
  }

  lemma NextOwnershipInv(c: Clip)
    requires Inv(c)
    ensures Inv(NextGeneration(c))
  {
    var r := NextGeneration(c);
    forall k: nat, i: nat, id: nat ensures HasLocal(r, k, i, id) == HasLocal(c, k, i, id) {}
    SamePublication(c, r);
  }

  /** Peer `k` becomes the owner of a publication nobody else holds. */
  lemma OwnInv(c: Clip, k: nat, kept: seq<Format>)
    requires Core(c) && Balanced(c) && Live(c, k)
    requires forall j | 0 <= j < |c.peers| :: Swept(c.peers[j], NewOffer)
    ensures Inv(c.(peers := c.peers[k := Some(c.peers[k].value.(formats := kept, ownership := c.nextOwnership))],
                   published := c.nextOwnership))
  {
    var r := c.(peers := c.peers[k := Some(c.peers[k].value.(formats := kept, ownership := c.nextOwnership))],
                published := c.nextOwnership);
    assert Swept(c.peers[k], NewOffer) && Sweeps(NewOffer, REMOTE_DATA) && Sweeps(NewOffer, REMOTE_FILE);
    TidyAt(c, k);
    OwnerUnmentioned(c.peers[k].value, r.peers[k].value);
    SamePeerKeys(c, r, k);
    forall j: nat, i: nat | Busy(r, j, i)
      ensures i <= LOCAL_FILE && Busy(c, j, i) && SlotAt(r, j, i) == SlotAt(c, j, i)
    {
      assert Swept(c.peers[j], NewOffer);
      assert Sweeps(NewOffer, i) <==> i >= REMOTE_DATA;
    }
    forall j: nat, i: nat, id: nat | HasLocal(r, j, i, id) ensures HasLocal(c, j, i, id) {}
    forall j: nat, g: nat | Owns(r, j, g) ensures j == k && g == c.nextOwnership {
      assert Swept(c.peers[j], NewOffer);
    }
    if r.published != 0 {
      assert Owns(r, k, r.published);
    }
  }

  lemma TakeOverInv(c: Clip, k: nat, kept: seq<Format>)
    requires Inv(c) && Live(c, k)
    ensures Inv(TakeOver(c, k, kept))
  {
    var swept := SweepTo(c, |c.peers|, NewOffer);
    SweepInv(c, NewOffer);
    assert ShrinksPeer(c.peers[k], swept.peers[k]);
    OwnInv(swept, k, kept);
  }

  lemma PublishInv(c: Clip, k: nat, formats: seq<Offered>, env: Env)
    requires Inv(c) && Live(c, k)
    ensures Inv(Publish(c, k, formats, env).1)
  {
    var kept := Filtered(c.cfg, formats, |formats|, false);
    if kept.Some? {
      var p := c.peers[k].value;
      OfferInv(c, k, kept.value, env(PublishFormats(p.id, p.generation, c.nextOwnership + 1, kept.value)) == Ok);
    }
  }

  lemma OfferInv(c: Clip, k: nat, kept: seq<Format>, taken: bool)
    requires Inv(c) && Live(c, k)
    ensures Inv(Offer(c, k, kept, taken))
  {
    if taken {
      TakenInv(c, k, kept);
    } else {
      NextOwnershipInv(c);
    }
  }

  lemma TakenInv(c: Clip, k: nat, kept: seq<Format>)
    requires Inv(c) && Live(c, k)
    ensures Inv(Offer(c, k, kept, true))
  {
    NextOwnershipInv(c);
    TakeOverInv(NextGeneration(c), k, kept);
  }

  lemma PeerInputInv(c: Clip, k: nat, input: Input, env: Env)
    requires Inv(c) && Live(c, k)
    ensures Inv(PeerInput(c, k, input, env).1)
  {
    match input {
      case ListOffered(formats) => PublishInv(c, k, formats, env);
      case DataAsked(formatId) => DataRequestedInv(c, k, formatId, env);
      case DataReplied(reply) => if Busy(c, k, REMOTE_DATA) { DeliverInv(c, k, REMOTE_DATA, reply, env); }
      case FileAsked(ask) => FileRequestedInv(c, k, ask, env);
      case FileReplied(reply) => if Busy(c, k, REMOTE_FILE) { DeliverInv(c, k, REMOTE_FILE, reply, env); }
      case WorkCancelled(kind) => if kind.Some? { CloseInv(c, k, kind.value, Drop(PeerCancelled)); }
      case _ =>
    }
  }

  lemma ProtocolInv(c: Clip, id: nat, generation: nat, channel: nat, input: Input, env: Env)
    requires Inv(c)
    ensures Inv(ProtocolEvent(c, id, generation, channel, input, env).1)
  {
    var found := FindPeer(c.peers, id, generation);
    if found.Some? {
      PeerInputInv(c, found.value, input, env);
    }
  }

  lemma ChannelInv(c: Clip, id: nat, generation: nat, channel: nat, env: Env)
    requires Inv(c)
    ensures Inv(ChannelReady(c, id, generation, channel, env).1)
  {
    var found := FindPeer(c.peers, id, generation);
    if found.Some? {
      ReadyInv(c, found.value, channel);
    }
  }

  // --- Runs ---

  datatype Step =
    | PeerAdded(id: nat, generation: nat)
    | PeerRemoved(id: nat, generation: nat, hook: Hook)
    | Readied(id: nat, generation: nat, channel: nat, env: Env)
    | Copied(formats: seq<Offered>, copy: nat, env: Env)
    | Protocol(id: nat, generation: nat, channel: nat, input: Input, env: Env)
    | Supplied(chunk: Chunk, env: Env)
    | Requested(request: Request, env: Env)
    | FileWanted(request: Request, env: Env)
    | CancelWanted(id: nat, generation: nat, ownership: nat, requestId: nat, env: Env, hook: Hook)
    | Revoked(hook: Hook)

  function Apply(c: Clip, step: Step): (Status, Clip) {
    match step
    case PeerAdded(id, generation) => AddPeer(c, id, generation)
    case PeerRemoved(id, generation, hook) => (Ok, RemovePeer(c, id, generation, hook))
    case Readied(id, generation, channel, env) => ChannelReady(c, id, generation, channel, env)
    case Copied(formats, copy, env) => PlatformFormats(c, formats, copy, env)
    case Protocol(id, generation, channel, input, env) => ProtocolEvent(c, id, generation, channel, input, env)
    case Supplied(chunk, env) => PlatformData(c, chunk, env)
    case Requested(request, env) => PlatformRequest(c, request, env)
    case FileWanted(request, env) => PlatformFileRequest(c, request, env)
    case CancelWanted(id, generation, ownership, requestId, env, hook) =>
      PlatformCancel(c, id, generation, ownership, requestId, env, hook)
    case Revoked(hook) => (Ok, Revoke(c, hook))
  }

  function Run(c: Clip, steps: seq<Step>): Clip {
    if steps == [] then c else Apply(Run(c, steps[..|steps| - 1]), steps[|steps| - 1]).1
  }

  lemma StepKeepsInv(c: Clip, step: Step)
    requires Inv(c)
    ensures Inv(Apply(c, step).1)
  {
    match step
    case Readied(_, _, _, _) => EventKeepsInv(c, step);
    case Protocol(_, _, _, _, _) => EventKeepsInv(c, step);
    case Requested(_, _) => PlatformKeepsInv(c, step);
    case FileWanted(_, _) => PlatformKeepsInv(c, step);
    case Supplied(_, _) => PlatformKeepsInv(c, step);
    case Copied(_, _, _) => PlatformKeepsInv(c, step);
    case _ => CancelKeepsInv(c, step);
  }

  /** What the client starts. */
  lemma EventKeepsInv(c: Clip, step: Step)
    requires Inv(c) && (step.Readied? || step.Protocol?)
    ensures Inv(Apply(c, step).1)
  {
    match step
    case Readied(id, generation, channel, env) => ChannelInv(c, id, generation, channel, env);
    case Protocol(id, generation, channel, input, env) => ProtocolInv(c, id, generation, channel, input, env);
  }

  /** What the platform starts or supplies. */
  lemma PlatformKeepsInv(c: Clip, step: Step)
    requires Inv(c) && (step.Requested? || step.FileWanted? || step.Supplied? || step.Copied?)
    ensures Inv(Apply(c, step).1)
  {
    match step
    case Requested(request, env) => RequestInv(c, request, env);
    case FileWanted(request, env) => FileRequestInv(c, request, env);
    case Supplied(chunk, env) => PlatformDataInv(c, chunk, env);
    case Copied(formats, copy, env) => FormatsInv(c, formats, copy, env);
  }

  /** What comes and goes. */
  lemma CancelKeepsInv(c: Clip, step: Step)
    requires Inv(c) && (step.PeerAdded? || step.PeerRemoved? || step.CancelWanted? || step.Revoked?)
    ensures Inv(Apply(c, step).1)
  {
    match step
    case PeerAdded(id, generation) => AddPeerInv(c, id, generation);
    case PeerRemoved(id, generation, hook) => RemovePeerInv(c, id, generation, hook);
    case CancelWanted(id, generation, ownership, requestId, env, hook) =>
      CancelInv(c, id, generation, ownership, requestId, env, hook);
    case Revoked(hook) => RevokeInv(c, hook);
  }

  lemma NewClipInv(cfg: Config)
    ensures Inv(NewClip(cfg))
  {
    var c := NewClip(cfg);
    BagEmpty(c.peers, PeerKeys);
    SumZero(c.peers, PeerOne);
    forall k: nat, i: nat ensures !Busy(c, k, i) {}
    forall k: nat, g: nat ensures !Owns(c, k, g) {}
  }

  /** Every state of every run. */
  lemma {:induction false} RunKeepsInv(cfg: Config, steps: seq<Step>)
    ensures Inv(Run(NewClip(cfg), steps))
  {
    if steps == [] {
      NewClipInv(cfg);
    } else {
      RunKeepsInv(cfg, steps[..|steps| - 1]);
      StepKeepsInv(Run(NewClip(cfg), steps[..|steps| - 1]), steps[|steps| - 1]);
    }
  }
}
