/** Answers of the platform that arrive in chunks, in any cut and among any other steps. */
module ClipboardChunks {
  import opened Status
  import opened Tally
  import opened ClipboardModel
  import opened ClipboardInvariants
  import opened ClipboardRuns
  import opened ClipboardLosses

  // --- Answers without a peer scope ---

  /** An id that some peer expects resolves to that one peer: the lookup is never ambiguous. */
  lemma UnscopedResolves(c: Clip, k: nat, kind: nat)
    requires Inv(c) && Busy(c, k, kind) && kind <= LOCAL_FILE
    ensures FindLocal(c, 0, 0, SlotAt(c, k, kind).requestId) == Some(k)
  {
    var id := SlotAt(c, k, kind).requestId;
    forall j | 0 <= j < |c.peers| ensures Expects(c.peers[j], id) <==> j == k {
      ExpectsHas(c, j, id);
      assert HasLocal(c, k, kind, id);
    }
    FirstIs(c.peers, (slot: Option<Peer>) => Expects(slot, id), k);
  }

  lemma ExpectsHas(c: Clip, j: nat, id: nat)
    requires j < |c.peers|
    ensures Expects(c.peers[j], id) <==> HasLocal(c, j, LOCAL_DATA, id) || HasLocal(c, j, LOCAL_FILE, id)
  {
  }

  // --- Chunks ---

  function Joined(chunks: seq<Chunk>, n: nat): seq<byte>
    requires n <= |chunks|
  {
    if n == 0 then [] else Joined(chunks, n - 1) + chunks[n - 1].bytes
  }

  /** Chunk `j` reports a failure or brings the total over the limit. */
  predicate Fails(max: nat, chunks: seq<Chunk>, j: nat)
    requires j < |chunks|
  {
    || chunks[j].status != Ok
    || (!chunks[j].present && |chunks[j].bytes| > 0)
    || |Joined(chunks, j + 1)| > max
  }

  /** The first of `n` chunks that fails or is the last one. */
  function Ends(max: nat, chunks: seq<Chunk>, n: nat): (r: Option<nat>)
    requires n <= |chunks|
    ensures r.Some? ==> r.value < n
  {
    if n == 0 then None
    else if Ends(max, chunks, n - 1).Some? then Ends(max, chunks, n - 1)
    else if Fails(max, chunks, n - 1) || chunks[n - 1].last then Some(n - 1)
    else None
  }

  function Feed(c: Clip, chunks: seq<Chunk>, n: nat, env: Env): Clip
    requires n <= |chunks|
  {
    if n == 0 then c else PlatformData(Feed(c, chunks, n - 1, env), chunks[n - 1], env).1
  }

  /** The one answer the chunks lead to. */
  function Answer(max: nat, chunks: seq<Chunk>, j: nat): Key -> Out
    requires j < |chunks|
  {
    if Fails(max, chunks, j) then Refusal()
    else
      var data := Joined(chunks, j + 1);
      (key: Key) => Answered(key, true, data)
  }

  /** The chunk is addressed to the pending operation `kind` of peer `k`. */
  ghost predicate Addressed(c: Clip, k: nat, kind: nat, chunk: Chunk)
    requires Busy(c, k, kind)
  {
    && chunk.requestId == SlotAt(c, k, kind).requestId
    && ChunkFits(c, SlotAt(c, k, kind), chunk)
    && FindLocal(c, chunk.peerId, chunk.generation, chunk.requestId) == Some(k)
  }

  ghost predicate AllAddressed(c: Clip, k: nat, kind: nat, chunks: seq<Chunk>)
    requires Busy(c, k, kind)
  {
    forall i | 0 <= i < |chunks| :: Addressed(c, k, kind, chunks[i])
  }

  /** The state after `n` chunks: still collecting, or answered once. */
  function Collected(c: Clip, k: nat, kind: nat, chunks: seq<Chunk>, n: nat): Clip
    requires Busy(c, k, kind) && n <= |chunks|
  {
    var q := SlotAt(c, k, kind);
    match Ends(q.max, chunks, n)
    case None => SetSlot(c, k, kind, q.(data := Joined(chunks, n)))
    case Some(j) => Close(c, k, kind, Answer(q.max, chunks, j))
  }

  /** Peers keep their names, and slots their ids, while data is collected. */
  lemma GrownRoutes(c: Clip, k: nat, kind: nat, data: seq<byte>, chunk: Chunk)
    requires Busy(c, k, kind)
    ensures var q := SlotAt(c, k, kind); var r := SetSlot(c, k, kind, q.(data := data));
      FindLocal(r, chunk.peerId, chunk.generation, chunk.requestId)
        == FindLocal(c, chunk.peerId, chunk.generation, chunk.requestId)
  {
    var q := SlotAt(c, k, kind);
    var r := SetSlot(c, k, kind, q.(data := data));
    forall j | 0 <= j < |c.peers|
      ensures Expects(r.peers[j], chunk.requestId) == Expects(c.peers[j], chunk.requestId) {}
    FirstSame(c.peers, r.peers, (slot: Option<Peer>) => Expects(slot, chunk.requestId));
    FirstSame(c.peers, r.peers, (slot: Option<Peer>) => PeerIs(slot, chunk.peerId, chunk.generation));
  }

  lemma ChunkKindIs(c: Clip, k: nat, kind: nat)
    requires Inv(c) && Busy(c, k, kind) && kind <= LOCAL_FILE
    ensures ChunkKind(c.peers[k].value.slots, SlotAt(c, k, kind).requestId) == Some(kind)
  {
    var id := SlotAt(c, k, kind).requestId;
    assert HasLocal(c, k, kind, id);
    assert HasLocal(c, k, LOCAL_DATA, id) ==> kind == LOCAL_DATA;
  }

  /** One more chunk while data is being collected. */
  lemma CollectOne(c: Clip, k: nat, kind: nat, data: seq<byte>, chunk: Chunk, env: Env)
    requires Inv(c) && Busy(c, k, kind) && kind <= LOCAL_FILE && Addressed(c, k, kind, chunk)
    ensures var q := SlotAt(c, k, kind); var now := SetSlot(c, k, kind, q.(data := data));
      PlatformData(now, chunk, env) == Accumulate(now, k, kind, chunk, env)
  {
    GrownRoutes(c, k, kind, data, chunk);
    ChunkKindIs(c, k, kind);
  }

  /** Once answered, further chunks find nothing. */
  lemma LateChunk(c: Clip, k: nat, kind: nat, close: Key -> Out, chunk: Chunk, env: Env)
    requires Inv(c) && Busy(c, k, kind) && kind <= LOCAL_FILE && Addressed(c, k, kind, chunk)
    ensures PlatformData(Close(c, k, kind, close), chunk, env) == (State, Close(c, k, kind, close))
  {
    var r, id := Close(c, k, kind, close), chunk.requestId;
    forall j | 0 <= j < |r.peers| ensures !Expects(r.peers[j], id) {
      ExpectsHas(r, j, id);
      assert HasLocal(c, k, kind, id);
      assert HasLocal(r, j, LOCAL_DATA, id) ==> HasLocal(c, j, LOCAL_DATA, id);
      assert HasLocal(r, j, LOCAL_FILE, id) ==> HasLocal(c, j, LOCAL_FILE, id);
    }
    FirstIsNone(r.peers, (slot: Option<Peer>) => Expects(slot, id));
  }

  lemma CloseGrown(c: Clip, k: nat, kind: nat, data: seq<byte>, close: Key -> Out)
    requires Busy(c, k, kind)
    ensures var q := SlotAt(c, k, kind); var now := SetSlot(c, k, kind, q.(data := data));
      Close(now, k, kind, close) == Close(c, k, kind, close)
  {
    var p, q := c.peers[k].value, SlotAt(c, k, kind);
    var grown := p.(slots := p.slots[kind := q.(data := data)]);
    assert grown.slots[kind := Empty] == p.slots[kind := Empty];
    assert c.peers[k := Some(grown)][k := Some(p.(slots := p.slots[kind := Empty]))]
        == c.peers[k := Some(p.(slots := p.slots[kind := Empty]))];
  }

  /**
    However the data is cut into chunks, the client gets exactly one answer: the concatenation if
    every chunk up to the last is good and all fit, a refusal at the first bad or oversized one;
    later chunks change nothing.
   */
  lemma {:induction false} ChunksAnswerOnce(c: Clip, k: nat, kind: nat, chunks: seq<Chunk>, n: nat, env: Env)
    requires Inv(c) && Busy(c, k, kind) && kind <= LOCAL_FILE && SlotAt(c, k, kind).data == []
    requires n <= |chunks| && AllAddressed(c, k, kind, chunks)
    ensures Feed(c, chunks, n, env) == Collected(c, k, kind, chunks, n)
  {
    if n == 0 {
      CollectNone(c, k, kind, chunks);
    } else {
      ChunksAnswerOnce(c, k, kind, chunks, n - 1, env);
      CollectMore(c, k, kind, chunks, n, Feed(c, chunks, n - 1, env), env);
    }
  }

  lemma CollectMore(c: Clip, k: nat, kind: nat, chunks: seq<Chunk>, n: nat, before: Clip, env: Env)
    requires Inv(c) && Busy(c, k, kind) && kind <= LOCAL_FILE && 0 < n <= |chunks|
    requires AllAddressed(c, k, kind, chunks) && before == Collected(c, k, kind, chunks, n - 1)
    ensures PlatformData(before, chunks[n - 1], env).1 == Collected(c, k, kind, chunks, n)
  {
    if Ends(SlotAt(c, k, kind).max, chunks, n - 1).Some? {
      CollectLate(c, k, kind, chunks, n, env);
    } else {
      CollectNext(c, k, kind, chunks, n, env);
    }
  }

  lemma CollectNone(c: Clip, k: nat, kind: nat, chunks: seq<Chunk>)
    requires Busy(c, k, kind) && SlotAt(c, k, kind).data == []
    ensures Collected(c, k, kind, chunks, 0) == c
  {
    assert c.peers[k].value.slots[kind := SlotAt(c, k, kind)] == c.peers[k].value.slots;
    assert c.peers[k := c.peers[k]] == c.peers;
  }

  lemma CollectLate(c: Clip, k: nat, kind: nat, chunks: seq<Chunk>, n: nat, env: Env)
    requires Inv(c) && Busy(c, k, kind) && kind <= LOCAL_FILE && 0 < n <= |chunks|
    requires Addressed(c, k, kind, chunks[n - 1]) && Ends(SlotAt(c, k, kind).max, chunks, n - 1).Some?
    ensures PlatformData(Collected(c, k, kind, chunks, n - 1), chunks[n - 1], env).1 == Collected(c, k, kind, chunks, n)
  {
    var max := SlotAt(c, k, kind).max;
    LateChunk(c, k, kind, Answer(max, chunks, Ends(max, chunks, n - 1).value), chunks[n - 1], env);
  }

  lemma CollectNext(c: Clip, k: nat, kind: nat, chunks: seq<Chunk>, n: nat, env: Env)
    requires Inv(c) && Busy(c, k, kind) && kind <= LOCAL_FILE && 0 < n <= |chunks|
    requires Addressed(c, k, kind, chunks[n - 1]) && Ends(SlotAt(c, k, kind).max, chunks, n - 1).None?
    ensures PlatformData(Collected(c, k, kind, chunks, n - 1), chunks[n - 1], env).1 == Collected(c, k, kind, chunks, n)
  {
    var data := Joined(chunks, n - 1);
    CollectOne(c, k, kind, data, chunks[n - 1], env);
    AccumulateGrown(c, k, kind, data, chunks[n - 1], env);
    CollectedNext(c, k, kind, chunks, n);
  }

  /** The state after one more chunk, in terms of whether that chunk fails or is the last. */
  lemma CollectedNext(c: Clip, k: nat, kind: nat, chunks: seq<Chunk>, n: nat)
    requires Busy(c, k, kind) && 0 < n <= |chunks| && Ends(SlotAt(c, k, kind).max, chunks, n - 1).None?
    ensures var q, chunk, joined := SlotAt(c, k, kind), chunks[n - 1], Joined(chunks, n - 1) + chunks[n - 1].bytes;
      Collected(c, k, kind, chunks, n) ==
        if ChunkStatus(q.(data := Joined(chunks, n - 1)), chunk) != Ok then Close(c, k, kind, Refusal())
        else if chunk.last then Close(c, k, kind, (key: Key) => Answered(key, true, joined))
        else SetSlot(c, k, kind, q.(data := joined))
  {
    Within(SlotAt(c, k, kind).max, chunks, n - 1);
  }

  /** One more chunk on top of what was collected, in terms of the state before any of it. */
  lemma AccumulateGrown(c: Clip, k: nat, kind: nat, data: seq<byte>, chunk: Chunk, env: Env)
    requires Busy(c, k, kind)
    ensures var q, joined := SlotAt(c, k, kind), data + chunk.bytes;
      var after := Accumulate(SetSlot(c, k, kind, q.(data := data)), k, kind, chunk, env).1;
      after ==
        if ChunkStatus(q.(data := data), chunk) != Ok then Close(c, k, kind, Refusal())
        else if chunk.last then Close(c, k, kind, (key: Key) => Answered(key, true, joined))
        else SetSlot(c, k, kind, q.(data := joined))
  {
    var p, q, joined := c.peers[k].value, SlotAt(c, k, kind), data + chunk.bytes;
    CloseGrown(c, k, kind, data, Refusal());
    CloseGrown(c, k, kind, data, (key: Key) => Answered(key, true, joined));
    var grown := p.(slots := p.slots[kind := q.(data := data)]);
    assert grown.slots[kind := q.(data := joined)] == p.slots[kind := q.(data := joined)];
    assert c.peers[k := Some(grown)][k := Some(p.(slots := p.slots[kind := q.(data := joined)]))]
        == c.peers[k := Some(p.(slots := p.slots[kind := q.(data := joined)]))];
  }

  /** While nothing has ended the total is within the limit. */
  lemma {:induction false} Within(max: nat, chunks: seq<Chunk>, n: nat)
    requires n <= |chunks| && Ends(max, chunks, n).None?
    ensures |Joined(chunks, n)| <= max
  {
  }

  /** Good chunks that fit, the final one marked, give back their concatenation. */
  lemma {:induction false} GoodChunks(c: Clip, k: nat, kind: nat, chunks: seq<Chunk>, env: Env)
    requires Inv(c) && Busy(c, k, kind) && kind <= LOCAL_FILE && SlotAt(c, k, kind).data == [] && chunks != []
    requires AllAddressed(c, k, kind, chunks)
    requires forall i | 0 <= i < |chunks| ::
      chunks[i].status == Ok && chunks[i].present && (chunks[i].last <==> i == |chunks| - 1)
    requires |Joined(chunks, |chunks|)| <= SlotAt(c, k, kind).max
    ensures var r := Feed(c, chunks, |chunks|, env);
      r.out == c.out + [Answered(KeyAt(c, k, kind), true, Joined(chunks, |chunks|))] && !Busy(r, k, kind)
  {
    ChunksAnswerOnce(c, k, kind, chunks, |chunks|, env);
    LastEnds(SlotAt(c, k, kind).max, chunks);
  }

  lemma LastEnds(max: nat, chunks: seq<Chunk>)
    requires chunks != [] && |Joined(chunks, |chunks|)| <= max
    requires forall i | 0 <= i < |chunks| ::
      chunks[i].status == Ok && chunks[i].present && (chunks[i].last <==> i == |chunks| - 1)
    ensures Ends(max, chunks, |chunks|) == Some(|chunks| - 1) && !Fails(max, chunks, |chunks| - 1)
  {
    NoEarlyEnd(max, chunks, |chunks| - 1);
  }

  lemma {:induction false} NoEarlyEnd(max: nat, chunks: seq<Chunk>, n: nat)
    requires n < |chunks| && |Joined(chunks, |chunks|)| <= max
    requires forall i | 0 <= i < |chunks| ::
      chunks[i].status == Ok && chunks[i].present && (chunks[i].last <==> i == |chunks| - 1)
    ensures Ends(max, chunks, n).None?
  {
    if n > 0 {
      NoEarlyEnd(max, chunks, n - 1);
      JoinedGrows(chunks, n, |chunks|);
    }
  }

  lemma {:induction false} JoinedGrows(chunks: seq<Chunk>, n: nat, m: nat)
    requires n <= m <= |chunks|
    ensures |Joined(chunks, n)| <= |Joined(chunks, m)|
  {
    if n < m {
      JoinedGrows(chunks, n, m - 1);
    }
  }

  // --- Among any other steps: every answer is what was supplied for it ---

  /** A chunk accepted for an operation. */
  datatype Fed = Fed(key: Key, bytes: seq<byte>)

  /** The pending operation a chunk is for. */
  function Routed(c: Clip, chunk: Chunk): (r: Option<(nat, nat)>)
    ensures r.Some? ==> Busy(c, r.value.0, r.value.1) && r.value.1 <= LOCAL_FILE
  {
    match FindLocal(c, chunk.peerId, chunk.generation, chunk.requestId)
    case None => None
    case Some(k) =>
      match ChunkKind(c.peers[k].value.slots, chunk.requestId)
      case None => None
      case Some(kind) => if ChunkFits(c, SlotAt(c, k, kind), chunk) then Some((k, kind)) else None
  }

  lemma RoutedIs(c: Clip, chunk: Chunk, env: Env)
    ensures var r := Routed(c, chunk);
      PlatformData(c, chunk, env) ==
        if r.None? then (State, c) else Accumulate(c, r.value.0, r.value.1, chunk, env)
  {
  }

  /** What a step adds to the data supplied: the bytes of a good chunk that fits, for the operation it is routed to. */
  function Accepted(c: Clip, step: Step): seq<Fed> {
    if step.Supplied? && Routed(c, step.chunk).Some? then
      var (k, kind) := Routed(c, step.chunk).value;
      if ChunkStatus(SlotAt(c, k, kind), step.chunk) == Ok then [Fed(KeyAt(c, k, kind), step.chunk.bytes)] else []
    else []
  }

  function Supply(c: Clip, steps: seq<Step>): seq<Fed> {
    if steps == [] then []
    else Supply(c, steps[..|steps| - 1]) + Accepted(Run(c, steps[..|steps| - 1]), steps[|steps| - 1])
  }

  /** The bytes supplied for one operation, in order. */
  function Gather(fed: seq<Fed>, key: Key): seq<byte> {
    if fed == [] then []
    else
      var last := fed[|fed| - 1];
      Gather(fed[..|fed| - 1], key) + (if last.key == key then last.bytes else [])
  }

  lemma GatherMore(fed: seq<Fed>, f: Fed, key: Key)
    ensures Gather(fed + [f], key) == Gather(fed, key) + (if f.key == key then f.bytes else [])
  {
    assert (fed + [f])[..|fed|] == fed;
  }

  lemma {:induction false} GatherNone(fed: seq<Fed>, key: Key)
    requires forall j | 0 <= j < |fed| :: fed[j].key != key
    ensures Gather(fed, key) == []
  {
    if fed != [] {
      GatherNone(fed[..|fed| - 1], key);
    }
  }

  /** Positive answers to clients, with their data. */
  function Positive(o: Out): multiset<(Key, seq<byte>)> {
    if o.Answered? && o.ok then multiset{(o.key, o.data)} else multiset{}
  }

  function Given(c: Clip): multiset<(Key, seq<byte>)> { Bag(c.out, Positive) }

  /** What pending operations hold is what was supplied for them. */
  ghost predicate HoldsSupply(c: Clip, fed: seq<Fed>) {
    forall k: nat, i: nat | Busy(c, k, i) && i <= LOCAL_FILE :: SlotAt(c, k, i).data == Gather(fed, KeyAt(c, k, i))
  }

  /** Every answer given is what was supplied for it, and its operation is over. */
  ghost predicate GaveSupply(c: Clip, fed: seq<Fed>) {
    forall a | a in Given(c) ::
      && a.1 == Gather(fed, a.0) && a.0.requestId < c.nextRequestId
      && forall k: nat, i: nat :: !HasLocal(c, k, i, a.0.requestId)
  }

  ghost predicate Numbers(c: Clip, fed: seq<Fed>) {
    forall j | 0 <= j < |fed| :: fed[j].key.requestId < c.nextRequestId
  }

  ghost predicate Gathering(c: Clip, fed: seq<Fed>) { HoldsSupply(c, fed) && GaveSupply(c, fed) && Numbers(c, fed) }

  /** Nothing was answered, and local operations are as they were, ended, or new and still empty. */
  ghost predicate Carries(c: Clip, r: Clip) {
    && c.nextRequestId <= r.nextRequestId && Given(r) == Given(c)
    && forall k: nat, i: nat | Busy(r, k, i) && i <= LOCAL_FILE ::
         || (Busy(c, k, i) && SlotAt(r, k, i) == SlotAt(c, k, i) && KeyAt(r, k, i) == KeyAt(c, k, i))
         || (c.nextRequestId <= SlotAt(r, k, i).requestId && SlotAt(r, k, i).data == [])
  }

  lemma CarriesGathering(c: Clip, r: Clip, fed: seq<Fed>)
    requires Gathering(c, fed) && Carries(c, r)
    ensures Gathering(r, fed)
  {
    forall k: nat, i: nat | Busy(r, k, i) && i <= LOCAL_FILE
      ensures SlotAt(r, k, i).data == Gather(fed, KeyAt(r, k, i))
    {
      if c.nextRequestId <= SlotAt(r, k, i).requestId && SlotAt(r, k, i).data == [] {
        GatherNone(fed, KeyAt(r, k, i));
      }
    }
    forall a, k: nat, i: nat | a in Given(r) ensures !HasLocal(r, k, i, a.0.requestId) {
      assert a in Given(c) && !HasLocal(c, k, i, a.0.requestId);
    }
  }

  /** Slots only closed, nothing said but refusals, deliveries and drops. */
  lemma ShrinkCarries(c: Clip, r: Clip)
    requires Tidy(c) && Shrinks(c, r) && Given(r) == Given(c)
    ensures Carries(c, r)
  {
    forall k: nat, i: nat | Busy(r, k, i) && i <= LOCAL_FILE
      ensures Busy(c, k, i) && SlotAt(r, k, i) == SlotAt(c, k, i) && KeyAt(r, k, i) == KeyAt(c, k, i)
    {
      ShrinkSlots(c, r, k, i);
      assert ShrinksPeer(c.peers[k], r.peers[k]);
    }
  }

  lemma CloseCarries(c: Clip, k: nat, kind: nat, close: Key -> Out)
    requires Tidy(c) && Silent(close, Positive)
    ensures Carries(c, Close(c, k, kind, close))
  {
    CloseShrinks(c, k, kind, close);
    CloseTally(c, k, kind, close, Positive);
    ShrinkCarries(c, Close(c, k, kind, close));
  }

  lemma RemoveCarries(c: Clip, id: nat, generation: nat, hook: Hook)
    requires Tidy(c)
    ensures Carries(c, RemovePeer(c, id, generation, hook))
  {
    var found := FindPeer(c.peers, id, generation);
    if found.Some? {
      CancelAllShrinks(c, found.value, hook, PeerGone);
      CancelAllTally(c, found.value, hook, PeerGone, Positive);
      ShrinkCarries(c, DropAll(CancelAt(c, found.value, hook), found.value, PeerGone));
    }
  }

  lemma SweepCarries(c: Clip, sweep: Sweep)
    requires Tidy(c)
    ensures Carries(c, SweepTo(c, |c.peers|, sweep))
  {
    SweepShrinks(c, |c.peers|, sweep);
    SweepTally(c, |c.peers|, sweep, Positive);
    ShrinkCarries(c, SweepTo(c, |c.peers|, sweep));
  }

  /** A peer that keeps its slots and its name. */
  predicate SameSlots(a: Option<Peer>, b: Option<Peer>) {
    if a.None? then b.None?
    else
      && b.Some? && b.value.slots == a.value.slots
      && b.value.id == a.value.id && b.value.generation == a.value.generation
  }

  lemma SameSlotsCarry(c: Clip, r: Clip)
    requires Tidy(c) && |r.peers| == |c.peers| && r.out == c.out && r.nextRequestId == c.nextRequestId
    requires forall k | 0 <= k < |c.peers| ::
      SameSlots(c.peers[k], r.peers[k])
    ensures Carries(c, r)
  {
    forall k: nat, i: nat | Busy(r, k, i) && i <= LOCAL_FILE
      ensures Busy(c, k, i) && SlotAt(r, k, i) == SlotAt(c, k, i) && KeyAt(r, k, i) == KeyAt(c, k, i)
    {
      assert SameSlots(c.peers[k], r.peers[k]);
    }
  }

  lemma CarriesThen(a: Clip, b: Clip, c: Clip)
    requires Carries(a, b) && Carries(b, c)
    ensures Carries(a, c)
  {
  }

  lemma OfferCarries(c: Clip, k: nat, kept: seq<Format>, taken: bool)
    requires Tidy(c)
    ensures Carries(c, Offer(c, k, kept, taken))
  {
    var next := NextGeneration(c);
    if taken {
      var swept := SweepTo(next, |c.peers|, NewOffer);
      assert Tidy(next) by {
        forall j: nat, i: nat ensures Busy(next, j, i) == Busy(c, j, i) {}
      }
      SweepCarries(next, NewOffer);
      SweepShrinks(next, |c.peers|, NewOffer);
      ShrinkTidy(next, swept);
      SameSlotsCarry(swept, TakeOver(next, k, kept));
      CarriesThen(next, swept, TakeOver(next, k, kept));
    }
  }

  lemma RefuseCarries(c: Clip, key: Key)
    ensures Given(Refuse(c, key)) == Given(c) && Given(Abandon(c, key)) == Given(c)
  {
    EmitTally(c, Opened(key), Positive);
    EmitTally(Emit(c, Opened(key)), Answered(key, false, []), Positive);
    EmitTally(Emit(c, Opened(key)), Dropped(key, NotStarted), Positive);
  }

  lemma BegunCarries(c: Clip, k: nat, q: Slot, key: Key)
    requires Tidy(c) && Live(c, k) && q.Slot? && q.kind <= LOCAL_FILE && q.data == [] && q.requestId == c.nextRequestId
    ensures Carries(c, Begin(Emit(Numbered(c), Opened(key)), k, q.kind, q))
    ensures Tidy(Begin(Emit(Numbered(c), Opened(key)), k, q.kind, q))
  {
    EmitTally(Numbered(c), Opened(key), Positive);
    var r := Begin(Emit(Numbered(c), Opened(key)), k, q.kind, q);
    forall j: nat, i: nat | Busy(r, j, i)
      ensures if j == k && i == q.kind then SlotAt(r, j, i) == q
              else Busy(c, j, i) && SlotAt(r, j, i) == SlotAt(c, j, i) && KeyAt(r, j, i) == KeyAt(c, j, i)
    {}
  }

  lemma StartLocalCarries(c: Clip, k: nat, q: Slot, asked: Status)
    requires Tidy(c) && Live(c, k) && q.Slot? && q.kind <= LOCAL_FILE && q.data == [] && q.requestId == c.nextRequestId
    ensures Carries(c, StartLocal(Numbered(c), k, q, asked))
  {
    var key := KeyFor(c.peers[k].value, q);
    var begun := Begin(Emit(Numbered(c), Opened(key)), k, q.kind, q);
    BegunCarries(c, k, q, key);
    if asked != Ok {
      CloseCarries(begun, k, q.kind, Refusal());
      CarriesThen(c, begun, Close(begun, k, q.kind, Refusal()));
    }
  }

  lemma OverlapCarries(c: Clip, k: nat, kind: nat, key: Key)
    requires Tidy(c)
    ensures Carries(c, Refuse(Close(Numbered(c), k, kind, Drop(Overlapped)), key))
  {
    var next := Numbered(c);
    NumberTidy(c);
    RefusedCarries(next, k, kind, key);
    CarriesThen(c, next, Refuse(Close(next, k, kind, Drop(Overlapped)), key));
  }

  lemma NumberTidy(c: Clip)
    requires Tidy(c)
    ensures Tidy(Numbered(c)) && Carries(c, Numbered(c))
  {
    forall k: nat, i: nat ensures Busy(Numbered(c), k, i) == Busy(c, k, i) {}
  }

  lemma RefusedCarries(c: Clip, k: nat, kind: nat, key: Key)
    requires Tidy(c)
    ensures Carries(c, Refuse(Close(c, k, kind, Drop(Overlapped)), key))
  {
    var closed := Close(c, k, kind, Drop(Overlapped));
    CloseCarries(c, k, kind, Drop(Overlapped));
    RefuseCarries(closed, key);
    LoggedCarries(c, closed, Refuse(closed, key));
  }

  lemma LoggedCarries(c: Clip, r: Clip, logged: Clip)
    requires Carries(c, r) && Given(logged) == Given(r)
    requires logged.peers == r.peers && logged.nextRequestId == r.nextRequestId
    ensures Carries(c, logged)
  {
    forall k: nat, i: nat ensures Busy(logged, k, i) == Busy(r, k, i) {}
  }

  lemma DataStartedCarries(c: Clip, k: nat, q: Slot, asked: Status)
    requires Tidy(c) && Live(c, k) && q.Slot? && q.kind <= LOCAL_FILE && q.data == [] && q.requestId == c.nextRequestId
    ensures Carries(c, DataStarted(c, k, q, asked).1)
  {
    if BeginStatus(c, k, q.kind) != Ok {
      OverlapCarries(c, k, q.kind, KeyFor(c.peers[k].value, q));
    } else {
      StartLocalCarries(c, k, q, asked);
    }
  }

  lemma FileStartedCarries(c: Clip, k: nat, q: Slot, asked: Status)
    requires Tidy(c) && Live(c, k) && q.Slot? && q.kind <= LOCAL_FILE && q.data == [] && q.requestId == c.nextRequestId
    ensures Carries(c, FileStarted(c, k, q, asked).1)
  {
    if BeginStatus(c, k, q.kind) != Ok {
      RefuseCarries(Numbered(c), KeyFor(c.peers[k].value, q));
    } else {
      StartLocalCarries(c, k, q, asked);
    }
  }

  lemma DataRequestedCarries(c: Clip, k: nat, formatId: nat, env: Env)
    requires Tidy(c) && Live(c, k)
    ensures Carries(c, DataRequested(c, k, formatId, env).1)
  {
    if !HasId(c.localFormats, formatId) {
      RefuseCarries(c, Key(LOCAL_DATA, 0, c.peers[k].value.id, c.peers[k].value.generation, 0, 0));
    } else {
      var q := Slot(LOCAL_DATA, c.nextRequestId, formatId, 0, c.cfg.maxData, []);
      DataStartedCarries(c, k, q, env(RequestData(q.requestId, formatId)));
    }
  }

  lemma FileRequestedCarries(c: Clip, k: nat, ask: FileAsk, env: Env)
    requires Tidy(c) && Live(c, k)
    ensures Carries(c, FileRequested(c, k, ask, env).1)
  {
    var p := c.peers[k].value;
    if !Serveable(c, ask) {
      RefuseCarries(c, Key(LOCAL_FILE, 0, p.id, p.generation, ask.streamId, 0));
    } else {
      var q := Slot(LOCAL_FILE, c.nextRequestId, 0, ask.streamId, RangeLimit(c.cfg, ask.requested), []);
      FileStartedCarries(c, k, q, env(RequestFile(q.requestId, p.id, p.generation, c.localGeneration, ask.streamId)));
    }
  }

  lemma DeliverCarries(c: Clip, k: nat, kind: nat, reply: Reply, env: Env)
    requires Tidy(c)
    ensures Busy(c, k, kind) ==> Carries(c, Deliver(c, k, kind, reply, env).1)
  {
    var status, data := if reply.success then Ok else ProtocolError, if reply.success then reply.data else [];
    CloseCarries(c, k, kind, Drop(Oversized));
    CloseCarries(c, k, kind, key => Wrote(key, status, data));
  }

  lemma PublishCarries(c: Clip, k: nat, formats: seq<Offered>, env: Env)
    requires Tidy(c) && Live(c, k)
    ensures Carries(c, Publish(c, k, formats, env).1)
  {
    var kept := Filtered(c.cfg, formats, |formats|, false);
    if kept.Some? {
      var p := c.peers[k].value;
      OfferCarries(c, k, kept.value, env(PublishFormats(p.id, p.generation, c.nextOwnership + 1, kept.value)) == Ok);
    }
  }

  lemma PeerInputCarries(c: Clip, k: nat, input: Input, env: Env)
    requires Tidy(c) && Live(c, k)
    ensures Carries(c, PeerInput(c, k, input, env).1)
  {
    match input {
      case ListOffered(formats) => PublishCarries(c, k, formats, env);
      case DataAsked(formatId) => DataRequestedCarries(c, k, formatId, env);
      case FileAsked(ask) => FileRequestedCarries(c, k, ask, env);
      case DataReplied(reply) => DeliverCarries(c, k, REMOTE_DATA, reply, env);
      case FileReplied(reply) => DeliverCarries(c, k, REMOTE_FILE, reply, env);
      case WorkCancelled(kind) => if kind.Some? { CloseCarries(c, k, kind.value, Drop(PeerCancelled)); }
      case _ =>
    }
  }

  lemma ProtocolCarries(c: Clip, id: nat, generation: nat, channel: nat, input: Input, env: Env)
    requires Tidy(c)
    ensures Carries(c, ProtocolEvent(c, id, generation, channel, input, env).1)
  {
    var found := FindPeer(c.peers, id, generation);
    if found.Some? {
      PeerInputCarries(c, found.value, input, env);
    }
  }

  lemma StartRemoteCarries(c: Clip, k: nat, q: Slot, ownership: nat, env: Env)
    requires Tidy(c) && Live(c, k) && q.Slot? && REMOTE_DATA <= q.kind < KINDS
    ensures Carries(c, StartRemote(c, k, q, ownership, env).1)
  {
    var p := c.peers[k].value;
    var key := KeyOf(p.id, p.generation, ownership, q);
    var begun := Begin(Emit(c, Opened(key)), k, q.kind, q);
    BegunRemoteCarries(c, k, q, key);
    if env(SendRequest(key, q.formatId)) != Ok {
      ClosedRemoteCarries(begun, k, q.kind);
      CarriesThen(c, begun, Close(begun, k, q.kind, Drop(NotSent)));
    }
  }

  lemma BegunRemoteCarries(c: Clip, k: nat, q: Slot, key: Key)
    requires Tidy(c) && Live(c, k) && q.Slot? && REMOTE_DATA <= q.kind < KINDS
    ensures Carries(c, Begin(Emit(c, Opened(key)), k, q.kind, q))
  {
    EmitTally(c, Opened(key), Positive);
    LocalsCarry(c, Begin(Emit(c, Opened(key)), k, q.kind, q));
  }

  lemma ClosedRemoteCarries(c: Clip, k: nat, kind: nat)
    requires kind >= REMOTE_DATA
    ensures Carries(c, Close(c, k, kind, Drop(NotSent)))
  {
    CloseTally(c, k, kind, Drop(NotSent), Positive);
    LocalsCarry(c, Close(c, k, kind, Drop(NotSent)));
  }

  predicate SameLocals(a: Option<Peer>, b: Option<Peer>) {
    if a.None? then b.None?
    else
      && b.Some? && b.value.slots[LOCAL_DATA] == a.value.slots[LOCAL_DATA]
      && b.value.slots[LOCAL_FILE] == a.value.slots[LOCAL_FILE]
      && b.value.id == a.value.id && b.value.generation == a.value.generation && b.value.ownership == a.value.ownership
  }

  /** What happens in a slot for the platform's work does not matter here. */
  lemma LocalsCarry(c: Clip, r: Clip)
    requires |r.peers| == |c.peers| && Given(r) == Given(c) && r.nextRequestId == c.nextRequestId
    requires forall k | 0 <= k < |c.peers| :: SameLocals(c.peers[k], r.peers[k])
    ensures Carries(c, r)
  {
    forall k: nat, i: nat | Busy(r, k, i) && i <= LOCAL_FILE
      ensures Busy(c, k, i) && SlotAt(r, k, i) == SlotAt(c, k, i) && KeyAt(r, k, i) == KeyAt(c, k, i)
    {
      assert SameLocals(c.peers[k], r.peers[k]);
    }
  }

  lemma RequestCarries(c: Clip, r: Request, env: Env)
    requires Tidy(c)
    ensures Carries(c, PlatformRequest(c, r, env).1)
  {
    var found := FindPeer(c.peers, r.peerId, r.generation);
    if found.Some? {
      CloseCarries(c, found.value, REMOTE_DATA, Drop(Overlapped));
      var q := Slot(REMOTE_DATA, r.requestId, r.formatId, 0, c.cfg.maxData, []);
      StartRemoteCarries(c, found.value, q, r.ownership, env);
    }
  }

  lemma FileRequestCarries(c: Clip, r: Request, env: Env)
    requires Tidy(c)
    ensures Carries(c, PlatformFileRequest(c, r, env).1)
  {
    var found := FindPeer(c.peers, r.peerId, r.generation);
    if found.Some? {
      var q := Slot(REMOTE_FILE, r.requestId, 0, r.streamId, RangeLimit(c.cfg, r.requested), []);
      StartRemoteCarries(c, found.value, q, r.ownership, env);
    }
  }

  lemma CancelCarries(c: Clip, id: nat, generation: nat, ownership: nat, requestId: nat, env: Env, hook: Hook)
    requires Tidy(c)
    ensures Carries(c, PlatformCancel(c, id, generation, ownership, requestId, env, hook).1)
  {
    var found := FindPeer(c.peers, id, generation);
    if found.Some? {
      var kind := RemoteKind(c.peers[found.value].value.slots, requestId);
      if kind.Some? {
        NamedCarries(c, found.value, kind.value, hook);
      }
    }
  }

  lemma NamedCarries(c: Clip, k: nat, kind: nat, hook: Hook)
    requires Tidy(c) && Live(c, k)
    ensures Carries(c, Close(CancelAt(c, k, hook), k, kind, Drop(PlatformCancelled)))
  {
    var cancelled := CancelAt(c, k, hook);
    ReportsShrink(c, k, hook(c.peers[k].value.id));
    ReportsTally(c, k, hook(c.peers[k].value.id), Positive);
    ShrinkCarries(c, cancelled);
    ShrinkTidy(c, cancelled);
    CloseCarries(cancelled, k, kind, Drop(PlatformCancelled));
    CarriesThen(c, cancelled, Close(cancelled, k, kind, Drop(PlatformCancelled)));
  }

  lemma CopyCarries(c: Clip, formats: seq<Offered>, generation: nat, env: Env)
    requires Tidy(c)
    ensures Carries(c, PlatformFormats(c, formats, generation, env).1)
  {
    SweepCarries(c, LocalCopy);
  }

  lemma AddCarries(c: Clip, id: nat, generation: nat)
    ensures Carries(c, AddPeer(c, id, generation).1)
  {
  }

  lemma ReadyCarries(c: Clip, id: nat, generation: nat, channel: nat, env: Env)
    requires Tidy(c)
    ensures Carries(c, ChannelReady(c, id, generation, channel, env).1)
  {
    SameSlotsCarry(c, ChannelReady(c, id, generation, channel, env).1);
  }

  /** No step but a chunk answers anything or changes what is held. */
  lemma StepCarries(c: Clip, step: Step)
    requires Tidy(c) && !step.Supplied?
    ensures Carries(c, Apply(c, step).1)
  {
    match step {
      case PeerAdded(id, generation) => AddCarries(c, id, generation);
      case PeerRemoved(id, generation, hook) => RemoveCarries(c, id, generation, hook);
      case Readied(id, generation, channel, env) => ReadyCarries(c, id, generation, channel, env);
      case Copied(formats, copy, env) => CopyCarries(c, formats, copy, env);
      case Protocol(id, generation, channel, input, env) => ProtocolCarries(c, id, generation, channel, input, env);
      case Requested(request, env) => RequestCarries(c, request, env);
      case FileWanted(request, env) => FileRequestCarries(c, request, env);
      case CancelWanted(id, generation, ownership, requestId, env, hook) =>
        CancelCarries(c, id, generation, ownership, requestId, env, hook);
      case Revoked(hook) => SweepCarries(c, Revoking(hook));
    }
  }

  /** Bytes supplied for one operation change nothing for another. */
  lemma OtherKey(c: Clip, k: nat, kind: nat, bytes: seq<byte>, fed: seq<Fed>, j: nat, i: nat)
    requires Inv(c) && Busy(c, k, kind) && kind <= LOCAL_FILE
    requires Busy(c, j, i) && i <= LOCAL_FILE && (j != k || i != kind)
    ensures Gather(fed + [Fed(KeyAt(c, k, kind), bytes)], KeyAt(c, j, i)) == Gather(fed, KeyAt(c, j, i))
  {
    assert HasLocal(c, k, kind, SlotAt(c, k, kind).requestId) && HasLocal(c, j, i, SlotAt(c, j, i).requestId);
    GatherMore(fed, Fed(KeyAt(c, k, kind), bytes), KeyAt(c, j, i));
  }

  lemma GivenKey(c: Clip, k: nat, kind: nat, bytes: seq<byte>, fed: seq<Fed>, a: (Key, seq<byte>))
    requires Gathering(c, fed) && Busy(c, k, kind) && kind <= LOCAL_FILE && a in Given(c)
    ensures Gather(fed + [Fed(KeyAt(c, k, kind), bytes)], a.0) == a.1
    ensures a.0.requestId != SlotAt(c, k, kind).requestId
  {
    assert HasLocal(c, k, kind, SlotAt(c, k, kind).requestId);
    GatherMore(fed, Fed(KeyAt(c, k, kind), bytes), a.0);
  }

  lemma MoreNumbers(c: Clip, k: nat, kind: nat, bytes: seq<byte>, fed: seq<Fed>)
    requires Inv(c) && Numbers(c, fed) && Busy(c, k, kind) && kind <= LOCAL_FILE
    ensures Numbers(c, fed + [Fed(KeyAt(c, k, kind), bytes)])
  {
    assert HasLocal(c, k, kind, SlotAt(c, k, kind).requestId);
  }

  lemma GrowGathers(c: Clip, k: nat, kind: nat, bytes: seq<byte>, fed: seq<Fed>)
    requires Inv(c) && Gathering(c, fed) && Busy(c, k, kind) && kind <= LOCAL_FILE
    ensures var q := SlotAt(c, k, kind);
      Gathering(SetSlot(c, k, kind, q.(data := q.data + bytes)), fed + [Fed(KeyAt(c, k, kind), bytes)])
  {
    var q, more := SlotAt(c, k, kind), fed + [Fed(KeyAt(c, k, kind), bytes)];
    var r := SetSlot(c, k, kind, q.(data := q.data + bytes));
    MoreNumbers(c, k, kind, bytes, fed);
    forall j: nat, i: nat | Busy(r, j, i) && i <= LOCAL_FILE
      ensures SlotAt(r, j, i).data == Gather(more, KeyAt(r, j, i))
    {
      if j == k && i == kind {
        GatherMore(fed, Fed(KeyAt(c, k, kind), bytes), KeyAt(c, k, kind));
      } else {
        OtherKey(c, k, kind, bytes, fed, j, i);
      }
    }
    forall a | a in Given(r)
      ensures a.1 == Gather(more, a.0) && a.0.requestId < r.nextRequestId
      ensures forall j: nat, i: nat :: !HasLocal(r, j, i, a.0.requestId)
    {
      GivenKey(c, k, kind, bytes, fed, a);
      forall j: nat, i: nat ensures !HasLocal(r, j, i, a.0.requestId) {
        assert HasLocal(r, j, i, a.0.requestId) == HasLocal(c, j, i, a.0.requestId);
      }
    }
  }

  /** Closing one operation leaves the others what they hold. */
  lemma AnswerHolds(c: Clip, k: nat, kind: nat, bytes: seq<byte>, fed: seq<Fed>, close: Key -> Out)
    requires Inv(c) && Gathering(c, fed) && Busy(c, k, kind) && kind <= LOCAL_FILE
    ensures HoldsSupply(Close(c, k, kind, close), fed + [Fed(KeyAt(c, k, kind), bytes)])
  {
    var r, more := Close(c, k, kind, close), fed + [Fed(KeyAt(c, k, kind), bytes)];
    forall j: nat, i: nat | Busy(r, j, i) && i <= LOCAL_FILE
      ensures SlotAt(r, j, i).data == Gather(more, KeyAt(r, j, i)) {
      assert Busy(c, j, i) && SlotAt(r, j, i) == SlotAt(c, j, i) && KeyAt(r, j, i) == KeyAt(c, j, i);
      OtherKey(c, k, kind, bytes, fed, j, i);
    }
  }

  /** ... and its id is held no more. */
  lemma ClosedId(c: Clip, k: nat, kind: nat, close: Key -> Out, id: nat)
    requires Inv(c) && Busy(c, k, kind) && kind <= LOCAL_FILE
    requires id == SlotAt(c, k, kind).requestId || forall j: nat, i: nat :: !HasLocal(c, j, i, id)
    ensures forall j: nat, i: nat :: !HasLocal(Close(c, k, kind, close), j, i, id)
  {
    var r := Close(c, k, kind, close);
    assert HasLocal(c, k, kind, SlotAt(c, k, kind).requestId);
    forall j: nat, i: nat ensures !HasLocal(r, j, i, id) {
      assert HasLocal(r, j, i, id) ==> HasLocal(c, j, i, id) && (j != k || i != kind);
    }
  }

  lemma AnswerGathers(c: Clip, k: nat, kind: nat, bytes: seq<byte>, fed: seq<Fed>)
    requires Inv(c) && Gathering(c, fed) && Busy(c, k, kind) && kind <= LOCAL_FILE
    ensures var data := SlotAt(c, k, kind).data + bytes;
      Gathering(Close(c, k, kind, key => Answered(key, true, data)), fed + [Fed(KeyAt(c, k, kind), bytes)])
  {
    var q, key, more := SlotAt(c, k, kind), KeyAt(c, k, kind), fed + [Fed(KeyAt(c, k, kind), bytes)];
    var data := q.data + bytes;
    var close: Key -> Out := key => Answered(key, true, data);
    var r := Close(c, k, kind, close);
    MoreNumbers(c, k, kind, bytes, fed);
    AnswerHolds(c, k, kind, bytes, fed, close);
    GatherMore(fed, Fed(key, bytes), key);
    CloseTally(c, k, kind, close, Positive);
    assert HasLocal(c, k, kind, q.requestId);
    forall a | a in Given(r)
      ensures a.1 == Gather(more, a.0) && a.0.requestId < r.nextRequestId
      ensures forall j: nat, i: nat :: !HasLocal(r, j, i, a.0.requestId)
    {
      if a in Given(c) {
        GivenKey(c, k, kind, bytes, fed, a);
      } else {
        assert a == (key, data);
      }
      ClosedId(c, k, kind, close, a.0.requestId);
    }
  }

  lemma ChunkGathers(c: Clip, chunk: Chunk, env: Env, fed: seq<Fed>)
    requires Inv(c) && Gathering(c, fed)
    ensures Gathering(PlatformData(c, chunk, env).1, fed + Accepted(c, Supplied(chunk, env)))
  {
    RoutedIs(c, chunk, env);
    if Routed(c, chunk).Some? {
      var (k, kind) := Routed(c, chunk).value;
      if ChunkStatus(SlotAt(c, k, kind), chunk) != Ok {
        CloseCarries(c, k, kind, Refusal());
        CarriesGathering(c, Close(c, k, kind, Refusal()), fed);
        assert fed + [] == fed;
      } else if chunk.last {
        AnswerGathers(c, k, kind, chunk.bytes, fed);
      } else {
        GrowGathers(c, k, kind, chunk.bytes, fed);
      }
    } else {
      assert fed + [] == fed;
    }
  }

  lemma StepGathers(c: Clip, step: Step, fed: seq<Fed>)
    requires Inv(c) && Gathering(c, fed)
    ensures Gathering(Apply(c, step).1, fed + Accepted(c, step))
  {
    if step.Supplied? {
      ChunkGathers(c, step.chunk, step.env, fed);
    } else {
      StepCarries(c, step);
      CarriesGathering(c, Apply(c, step).1, fed);
      assert fed + [] == fed;
    }
  }

  lemma {:induction false} RunGathers(cfg: Config, steps: seq<Step>)
    ensures Gathering(Run(NewClip(cfg), steps), Supply(NewClip(cfg), steps))
  {
    if steps != [] {
      RunGathers(cfg, steps[..|steps| - 1]);
      RunKeepsInv(cfg, steps[..|steps| - 1]);
      StepGathers(Run(NewClip(cfg), steps[..|steps| - 1]), steps[|steps| - 1],
                  Supply(NewClip(cfg), steps[..|steps| - 1]));
    }
  }

  /**
    In every run, whatever else happens between the chunks, a client's positive answer is exactly
    the concatenation of the chunks supplied for its request, in the order they came.
   */
  lemma AnswersAreSupplied(cfg: Config, steps: seq<Step>, key: Key, data: seq<byte>)
    requires (key, data) in Given(Run(NewClip(cfg), steps))
    ensures data == Gather(Supply(NewClip(cfg), steps), key)
  {
    RunGathers(cfg, steps);
  }
}
