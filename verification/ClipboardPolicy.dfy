/**
  What the clipboard runtime lets past its policy, and who may do what: the formats of an offer,
  the steps that move the publication, and the requests that are served.
 */
module ClipboardPolicy {
  import opened Status
  import opened Tally
  import opened ClipboardModel
  import opened ClipboardInvariants
  import opened ClipboardRuns
  import opened ClipboardTheorems

  // --- Formats ---

  /** The policy lets the format through. */
  predicate Wanted(cfg: Config, f: Offered) { f.cls.Some? && f.cls.value in cfg.allowed }

  /** The identifier a wanted format is known by; a local one without an identifier gets that of its class. */
  function IdOf(f: Offered, local: bool): nat
    requires f.cls.Some?
  {
    if f.id != 0 || !local then f.id
    else
      match f.cls.value
      case Text => 13
      case Html => 49408
      case Png => 49409
      case UriList => 49153
  }

  /** These are the wanted ones among the first `n`, at the places `at`, in order. */
  ghost predicate PickedAt(cfg: Config, formats: seq<Offered>, n: nat, local: bool, kept: seq<Format>, at: seq<nat>)
    requires n <= |formats|
  {
    && |at| == |kept|
    && (forall i | 0 <= i < |at| ::
          at[i] < n && Wanted(cfg, formats[at[i]])
          && kept[i] == Format(IdOf(formats[at[i]], local), formats[at[i]].cls.value))
    && (forall i, j | 0 <= i < j < |at| :: at[i] < at[j])
    && (forall m | 0 <= m < n && Wanted(cfg, formats[m]) :: m in at)
  }

  /** Two wanted formats would have the same identifier. */
  ghost predicate Clashes(cfg: Config, formats: seq<Offered>, n: nat, local: bool)
    requires n <= |formats|
  {
    exists i, j | 0 <= i < j < n ::
      Wanted(cfg, formats[i]) && Wanted(cfg, formats[j]) && IdOf(formats[i], local) == IdOf(formats[j], local)
  }

  ghost predicate Picked(cfg: Config, formats: seq<Offered>, n: nat, local: bool, kept: seq<Format>)
    requires n <= |formats|
  {
    exists at: seq<nat> :: PickedAt(cfg, formats, n, local, kept, at)
  }

  /** An offer is refused if and only if two wanted formats clash; else exactly the wanted ones are kept, in order. */
  lemma {:induction false} FormatsIff(cfg: Config, formats: seq<Offered>, n: nat, local: bool)
    requires n <= |formats|
    ensures Filtered(cfg, formats, n, local).None? <==> Clashes(cfg, formats, n, local)
    ensures Filtered(cfg, formats, n, local).Some? ==>
      Picked(cfg, formats, n, local, Filtered(cfg, formats, n, local).value)
  {
    if n == 0 {
      assert PickedAt(cfg, formats, 0, local, [], []);
    } else {
      FormatsIff(cfg, formats, n - 1, local);
      if Filtered(cfg, formats, n - 1, local).Some? {
        var kept := Filtered(cfg, formats, n - 1, local).value;
        var at: seq<nat> :| PickedAt(cfg, formats, n - 1, local, kept, at);
        OneMoreFormat(cfg, formats, n, local, kept, at);
      } else {
        var i, j :| 0 <= i < j < n - 1 && Wanted(cfg, formats[i]) && Wanted(cfg, formats[j])
                    && IdOf(formats[i], local) == IdOf(formats[j], local);
        assert Clashes(cfg, formats, n, local);
      }
    }
  }

  lemma OneMoreFormat(cfg: Config, formats: seq<Offered>, n: nat, local: bool, kept: seq<Format>, at: seq<nat>)
    requires 0 < n <= |formats| && Filtered(cfg, formats, n - 1, local) == Some(kept)
    requires !Clashes(cfg, formats, n - 1, local) && PickedAt(cfg, formats, n - 1, local, kept, at)
    ensures Filtered(cfg, formats, n, local).None? <==> Clashes(cfg, formats, n, local)
    ensures Filtered(cfg, formats, n, local).Some? ==>
      Picked(cfg, formats, n, local, Filtered(cfg, formats, n, local).value)
  {
    var f := formats[n - 1];
    if !Wanted(cfg, f) {
      assert PickedAt(cfg, formats, n, local, kept, at);
    } else {
      KnownIff(cfg, formats, n, local, kept, at);
      if !HasId(kept, IdOf(f, local)) {
        var more := kept + [Format(IdOf(f, local), f.cls.value)];
        assert (at + [n - 1])[|at|] == n - 1;
        assert PickedAt(cfg, formats, n, local, more, at + [n - 1]);
      }
    }
  }

  lemma KnownIff(cfg: Config, formats: seq<Offered>, n: nat, local: bool, kept: seq<Format>, at: seq<nat>)
    requires 0 < n <= |formats| && Wanted(cfg, formats[n - 1])
    requires !Clashes(cfg, formats, n - 1, local) && PickedAt(cfg, formats, n - 1, local, kept, at)
    ensures HasId(kept, IdOf(formats[n - 1], local)) <==> Clashes(cfg, formats, n, local)
  {
    var id := IdOf(formats[n - 1], local);
    if HasId(kept, id) {
      var i :| 0 <= i < |kept| && kept[i].id == id;
      assert 0 <= at[i] < n - 1 && IdOf(formats[at[i]], local) == IdOf(formats[n - 1], local);
    }
    if Clashes(cfg, formats, n, local) {
      var i, j :| 0 <= i < j < n && Wanted(cfg, formats[i]) && Wanted(cfg, formats[j])
                  && IdOf(formats[i], local) == IdOf(formats[j], local);
      assert j == n - 1 && i in at;
      var m :| 0 <= m < |at| && at[m] == i;
      assert kept[m].id == id;
    }
  }

  // --- What a sweep does to a peer ---

  /** Nothing but the slots of peer `k`, the history and the count of pending operations is new. */
  ghost predicate SlotsOnly(c: Clip, r: Clip, k: nat) {
    && r == c.(peers := r.peers, out := r.out, pendingCount := r.pendingCount)
    && Live(c, k) && Live(r, k)
    && r.peers == c.peers[k := Some(c.peers[k].value.(slots := r.peers[k].value.slots))]
    && forall i | 0 <= i < KINDS ::
         r.peers[k].value.slots[i] == c.peers[k].value.slots[i] || r.peers[k].value.slots[i].Empty?
  }

  lemma SlotsOnlyThen(a: Clip, b: Clip, c: Clip, k: nat)
    requires SlotsOnly(a, b, k) && SlotsOnly(b, c, k)
    ensures SlotsOnly(a, c, k)
  {
  }

  lemma CloseSlots(c: Clip, k: nat, kind: nat, close: Key -> Out)
    requires Live(c, k) && kind < KINDS
    ensures var r := Close(c, k, kind, close);
      && SlotsOnly(c, r, k) && r.peers[k].value.slots[kind].Empty?
      && forall i | 0 <= i < KINDS && i != kind :: r.peers[k].value.slots[i] == c.peers[k].value.slots[i]
  {
  }

  lemma {:induction false} CloseRangeSlots(c: Clip, k: nat, from: nat, n: nat, close: Key -> Out)
    requires Live(c, k) && n <= KINDS
    ensures var r := CloseRange(c, k, from, n, close);
      && SlotsOnly(c, r, k)
      && forall i | 0 <= i < KINDS ::
           if from <= i < n then r.peers[k].value.slots[i].Empty?
           else r.peers[k].value.slots[i] == c.peers[k].value.slots[i]
  {
    if n > from {
      CloseRangeSlots(c, k, from, n - 1, close);
      CloseSlots(CloseRange(c, k, from, n - 1, close), k, n - 1, close);
    }
  }

  lemma {:induction false} ReportsSlots(c: Clip, k: nat, kinds: seq<Option<nat>>)
    requires Live(c, k)
    ensures SlotsOnly(c, Reports(c, k, kinds), k)
  {
    if kinds != [] {
      var before, last := Reports(c, k, kinds[..|kinds| - 1]), kinds[|kinds| - 1];
      ReportsSlots(c, k, kinds[..|kinds| - 1]);
      if Remote(last) {
        CloseSlots(before, k, last.value, Drop(PeerCancelled));
        SlotsOnlyThen(c, before, Close(before, k, last.value, Drop(PeerCancelled)), k);
      }
    }
  }

  lemma DroppedSlots(c: Clip, k: nat, hook: Hook, why: Why)
    requires Live(c, k)
    ensures var r := DropAll(CancelAt(c, k, hook), k, why);
      SlotsOnly(c, r, k) && forall i | 0 <= i < KINDS :: r.peers[k].value.slots[i].Empty?
  {
    ReportsSlots(c, k, hook(c.peers[k].value.id));
    CloseRangeSlots(CancelAt(c, k, hook), k, LOCAL_DATA, KINDS, Drop(why));
    SlotsOnlyThen(c, CancelAt(c, k, hook), DropAll(CancelAt(c, k, hook), k, why), k);
  }

  /** All that a sweep changes about a peer. */
  ghost predicate LeavesPeer(a: Option<Peer>, b: Option<Peer>, sweep: Sweep) {
    if a.None? then b.None?
    else
      && b.Some?
      && match sweep
         case LocalCopy => b.value == a.value.(ownership := 0, slots := [Empty, Empty, Empty, Empty])
         case NewOffer =>
           b.value == a.value.(formats := [], ownership := 0,
                               slots := [a.value.slots[0], a.value.slots[1], Empty, Empty])
         case Revoking(_) => b.value == a.value.(ready := false, channel := 0, slots := [Empty, Empty, Empty, Empty])
  }

  lemma CloseForSlots(c: Clip, k: nat, sweep: Sweep)
    requires Live(c, k)
    ensures var r := CloseFor(c, k, sweep);
      && SlotsOnly(c, r, k)
      && (forall i | 0 <= i < KINDS && (!sweep.NewOffer? || i >= 2) :: r.peers[k].value.slots[i].Empty?)
      && (sweep.NewOffer? ==>
            r.peers[k].value.slots[0] == c.peers[k].value.slots[0]
            && r.peers[k].value.slots[1] == c.peers[k].value.slots[1])
  {
    match sweep
    case LocalCopy =>
      CloseRangeSlots(c, k, LOCAL_DATA, REMOTE_DATA, Refusal());
      CloseRangeSlots(CancelLocal(c, k), k, REMOTE_DATA, KINDS, CancelWrite());
      SlotsOnlyThen(c, CancelLocal(c, k), CloseFor(c, k, sweep), k);
    case NewOffer => CloseRangeSlots(c, k, REMOTE_DATA, KINDS, CancelWrite());
    case Revoking(hook) => DroppedSlots(c, k, hook, Withdrawn);
  }

  lemma SweepPeerLeaves(c: Clip, k: nat, sweep: Sweep)
    requires k < |c.peers|
    ensures var r := SweepPeer(c, k, sweep);
      && r == c.(peers := r.peers, out := r.out, pendingCount := r.pendingCount)
      && |r.peers| == |c.peers| && r.peers == c.peers[k := r.peers[k]] && LeavesPeer(c.peers[k], r.peers[k], sweep)
  {
    if Live(c, k) {
      CloseForSlots(c, k, sweep);
      var slots := CloseFor(c, k, sweep).peers[k].value.slots;
      assert slots == [slots[0], slots[1], slots[2], slots[3]];
    }
  }

  /** The first `n` peers are swept, the others untouched. */
  ghost predicate Leaves(c: Clip, r: Clip, n: nat, sweep: Sweep)
    requires n <= |c.peers|
  {
    && r == c.(peers := r.peers, out := r.out, pendingCount := r.pendingCount) && |r.peers| == |c.peers|
    && (forall k | 0 <= k < n :: LeavesPeer(c.peers[k], r.peers[k], sweep))
    && (forall k | n <= k < |c.peers| :: r.peers[k] == c.peers[k])
  }

  lemma {:induction false} SweepLeaves(c: Clip, n: nat, sweep: Sweep)
    requires n <= |c.peers|
    ensures Leaves(c, SweepTo(c, n, sweep), n, sweep)
  {
    if n > 0 {
      SweepLeaves(c, n - 1, sweep);
      OneMoreLeaves(c, SweepTo(c, n - 1, sweep), n - 1, sweep);
    }
  }

  lemma OneMoreLeaves(c: Clip, before: Clip, n: nat, sweep: Sweep)
    requires n < |c.peers| && Leaves(c, before, n, sweep)
    ensures Leaves(c, SweepPeer(before, n, sweep), n + 1, sweep)
  {
    SweepPeerLeaves(before, n, sweep);
  }

  // --- An offer of a client ---

  /** The formats a list keeps, if the list is one that may be taken. */
  ghost predicate Accepts(cfg: Config, formats: seq<Offered>, local: bool, kept: seq<Format>) {
    && |formats| <= cfg.maxFormats && !Clashes(cfg, formats, |formats|, local)
    && Picked(cfg, formats, |formats|, local, kept) && Filtered(cfg, formats, |formats|, local) == Some(kept)
  }

  /** Peer `k` holds the clipboard under the next generation, and every other peer's offer is gone. */
  ghost predicate TakenOver(c: Clip, r: Clip, k: nat, kept: seq<Format>)
    requires Live(c, k)
  {
    && r == c.(peers := r.peers, out := r.out, pendingCount := r.pendingCount,
               published := c.nextOwnership + 1, nextOwnership := c.nextOwnership + 1)
    && |r.peers| == |c.peers|
    && (forall j | 0 <= j < |c.peers| && j != k :: LeavesPeer(c.peers[j], r.peers[j], NewOffer))
    && r.peers[k].Some? && r.peers[k].value.formats == kept && r.peers[k].value.ownership == c.nextOwnership + 1
    && LeavesPeer(c.peers[k], Some(r.peers[k].value.(formats := [], ownership := 0)), NewOffer)
  }

  /**
    A client's offer is answered well if and only if it may be taken and the platform takes it and
    the answer is sent; once the platform takes it the peer holds the clipboard with exactly the
    wanted formats, and otherwise nobody's offer changes.
   */
  lemma OfferIs(c: Clip, k: nat, formats: seq<Offered>, env: Env)
    requires Live(c, k)
    ensures var p, o := c.peers[k].value, FormatsOffered(c, k, formats, env);
      (exists kept :: Accepts(c.cfg, formats, false, kept)
                      && env(PublishFormats(p.id, p.generation, c.nextOwnership + 1, kept)) == Ok
                      && TakenOver(c, o.1, k, kept) && (o.0 == Ok <==> env(FormatListResponse(p.id, true)) == Ok))
      || (&& (forall kept | Accepts(c.cfg, formats, false, kept) ::
                env(PublishFormats(p.id, p.generation, c.nextOwnership + 1, kept)) != Ok)
          && o.0 != Ok && o.1 == c.(nextOwnership := o.1.nextOwnership))
  {
    var p := c.peers[k].value;
    FormatsIff(c.cfg, formats, |formats|, false);
    var kept := Filtered(c.cfg, formats, |formats|, false);
    if |formats| <= c.cfg.maxFormats && kept.Some?
       && env(PublishFormats(p.id, p.generation, c.nextOwnership + 1, kept.value)) == Ok {
      TakeOverIs(c, k, kept.value);
      assert Accepts(c.cfg, formats, false, kept.value);
    }
  }

  lemma TakeOverIs(c: Clip, k: nat, kept: seq<Format>)
    requires Live(c, k)
    ensures TakenOver(c, Offer(c, k, kept, true), k, kept)
  {
    SweepLeaves(NextGeneration(c), |c.peers|, NewOffer);
  }

  // --- A copy on the platform ---

  /** Every ready peer below `n` accepted the announcement. */
  ghost predicate AllHear(peers: seq<Option<Peer>>, n: nat, kept: seq<Format>, env: Env)
    requires n <= |peers|
  {
    forall k | 0 <= k < n && peers[k].Some? && peers[k].value.ready :: env(FormatList(peers[k].value.id, kept)) == Ok
  }

  lemma {:induction false} AnnouncedIff(peers: seq<Option<Peer>>, n: nat, kept: seq<Format>, env: Env)
    requires n <= |peers|
    ensures SendTo(peers, n, kept, env) == Ok <==> AllHear(peers, n, kept, env)
  {
    if n > 0 {
      AnnouncedIff(peers, n - 1, kept, env);
    }
  }

  /** Nothing is pending, nobody holds the clipboard, and the wanted formats are on offer to the clients. */
  ghost predicate CopiedTo(c: Clip, r: Clip, generation: nat, kept: seq<Format>) {
    && r == c.(peers := r.peers, out := r.out, pendingCount := r.pendingCount,
               published := 0, localFormats := kept, localGeneration := generation)
    && |r.peers| == |c.peers| && forall k | 0 <= k < |c.peers| :: LeavesPeer(c.peers[k], r.peers[k], LocalCopy)
  }

  /**
    What the platform copies is offered to the clients, unless it is the clients' own publication
    coming back; the answer is good if and only if every ready client takes the offer.
   */
  lemma CopyIs(c: Clip, formats: seq<Offered>, generation: nat, env: Env)
    ensures var o := PlatformFormats(c, formats, generation, env);
      if generation != 0 && generation == c.published then o == (Ok, c)
      else if |formats| > c.cfg.maxFormats || Clashes(c.cfg, formats, |formats|, true) then o == (InvalidArgument, c)
      else exists kept :: Accepts(c.cfg, formats, true, kept) && CopiedTo(c, o.1, generation, kept)
                          && (o.0 == Ok <==> AllHear(o.1.peers, |o.1.peers|, kept, env))
  {
    FormatsIff(c.cfg, formats, |formats|, true);
    var kept := Filtered(c.cfg, formats, |formats|, true);
    if kept.Some? {
      var copied := LocalCopied(c, kept.value, generation);
      SweepLeaves(c, |c.peers|, LocalCopy);
      AnnouncedIff(copied.peers, |copied.peers|, kept.value, env);
      if |formats| <= c.cfg.maxFormats {
        assert Accepts(c.cfg, formats, true, kept.value);
      }
    }
  }

  // --- Peers that come, become ready and go ---

  /** A peer with this identity is in slot `k`. */
  predicate IsAt(c: Clip, k: nat, id: nat, generation: nat) {
    Live(c, k) && c.peers[k].value.id == id && c.peers[k].value.generation == generation
  }

  lemma FoundAt(c: Clip, id: nat, generation: nat)
    ensures var found := FindPeer(c.peers, id, generation);
      && (found.Some? <==> id != 0 && generation != 0 && exists k: nat :: IsAt(c, k, id, generation))
      && (found.Some? ==> IsAt(c, found.value, id, generation))
  {
    FirstLaw(c.peers, (slot: Option<Peer>) => PeerIs(slot, id, generation));
    forall k: nat | IsAt(c, k, id, generation) ensures k < |c.peers| && PeerIs(c.peers[k], id, generation) {}
    var found := FindPeer(c.peers, id, generation);
    assert found.Some? ==> IsAt(c, found.value, id, generation);
  }

  /** A peer joins, bare and not ready, in a free slot, if and only if its identity is good and new. */
  lemma JoinsIff(c: Clip, id: nat, generation: nat)
    ensures var (status, r) := AddPeer(c, id, generation);
      && (status == Ok <==>
            && id != 0 && generation != 0 && (forall k: nat :: !IsAt(c, k, id, generation))
            && (exists k :: 0 <= k < |c.peers| && c.peers[k].None?))
      && (status != Ok ==> r == c)
      && (status == Ok ==>
            exists k :: 0 <= k < |c.peers| && c.peers[k].None? && r == c.(peers := c.peers[k := r.peers[k]])
                        && r.peers[k] == Some(Peer(id, generation, 0, false, [], 0, [Empty, Empty, Empty, Empty])))
  {
    FoundAt(c, id, generation);
    FirstLaw(c.peers, (slot: Option<Peer>) => slot.None?);
  }

  /** A peer that is removed leaves the others as they are, and takes its publication with it. */
  lemma LeavesIs(c: Clip, id: nat, generation: nat, hook: Hook)
    ensures var r, found := RemovePeer(c, id, generation, hook), FindPeer(c.peers, id, generation);
      if found.None? then r == c
      else
        && r == c.(peers := c.peers[found.value := None], out := r.out, pendingCount := r.pendingCount,
                   published := r.published)
        && r.published == if c.peers[found.value].value.ownership == c.published then 0 else c.published
  {
    var found := FindPeer(c.peers, id, generation);
    if found.Some? {
      DroppedSlots(c, found.value, hook, PeerGone);
    }
  }

  /** A channel becomes ready if and only if the peer is there, it has a number and both greetings were sent. */
  lemma ReadyIff(c: Clip, id: nat, generation: nat, channel: nat, env: Env)
    ensures var o, found := ChannelReady(c, id, generation, channel, env), FindPeer(c.peers, id, generation);
      if found.Some? && channel != 0 && env(MonitorReady(id, channel)) == Ok && env(Capabilities(id, channel)) == Ok
      then
        && o.0 == env(FormatList(id, c.localFormats))
        && o.1 == c.(peers := c.peers[found.value :=
             Some(c.peers[found.value].value.(channel := channel, ready := true))])
      else o.0 != Ok && o.1 == c
  {
  }

  /** A revocation silences every peer and ends the publication. */
  lemma RevokedIs(c: Clip, hook: Hook)
    ensures var r := Revoke(c, hook);
      && r == c.(peers := r.peers, out := r.out, pendingCount := r.pendingCount, published := 0)
      && |r.peers| == |c.peers|
      && forall k | 0 <= k < |c.peers| :: LeavesPeer(c.peers[k], r.peers[k], Revoking(hook))
  {
    SweepLeaves(c, |c.peers|, Revoking(hook));
  }

  /** Nobody is heard who is not there and ready, nor on another channel, except for a cancellation. */
  lemma UnheardIsNothing(c: Clip, id: nat, generation: nat, channel: nat, input: Input, env: Env)
    requires forall k: nat | IsAt(c, k, id, generation) ::
      !c.peers[k].value.ready || (channel != c.peers[k].value.channel && !input.WorkCancelled?)
    ensures ProtocolEvent(c, id, generation, channel, input, env) == (InvalidArgument, c)
  {
    FoundAt(c, id, generation);
  }

  // --- Requests and chunks ---

  /** The peer holds the publication that the request names. */
  predicate Holds(c: Clip, k: nat, r: Request) {
    IsAt(c, k, r.peerId, r.generation) && c.peers[k].value.ownership == r.ownership && c.published == r.ownership
  }

  /**
    The platform's request is sent to the client and becomes pending if and only if it names a
    publication and its holder, a format on offer there, and there is room for it.
   */
  lemma ServedIff(c: Clip, r: Request, env: Env)
    ensures var found, key := FindPeer(c.peers, r.peerId, r.generation),
                              Key(REMOTE_DATA, r.requestId, r.peerId, r.generation, 0, r.ownership);
      PlatformRequest(c, r, env).0 == Ok <==>
        && r.requestId != 0 && found.Some? && Holds(c, found.value, r)
        && (exists i | 0 <= i < |c.peers[found.value].value.formats| ::
              c.peers[found.value].value.formats[i].id == r.formatId)
        && c.peers[found.value].value.slots[2].Empty? && c.pendingCount < c.cfg.maxPending
        && env(SendRequest(key, r.formatId)) == Ok
  {
    FoundAt(c, r.peerId, r.generation);
  }

  /** Likewise for a file request, which needs files on offer, a stream, one or both flags and a range in bounds. */
  lemma FileServedIff(c: Clip, r: Request, env: Env)
    ensures var found, key := FindPeer(c.peers, r.peerId, r.generation),
                              Key(REMOTE_FILE, r.requestId, r.peerId, r.generation, r.streamId, r.ownership);
      PlatformFileRequest(c, r, env).0 == Ok <==>
        && r.requestId != 0 && r.streamId != 0 && r.flags in {1, 2, 3} && r.requested <= c.cfg.maxRange
        && found.Some? && Holds(c, found.value, r)
        && (exists i | 0 <= i < |c.peers[found.value].value.formats| ::
              c.peers[found.value].value.formats[i].cls == UriList)
        && c.peers[found.value].value.slots[3].Empty? && c.pendingCount < c.cfg.maxPending
        && env(SendRequest(key, 0)) == Ok
  {
    FoundAt(c, r.peerId, r.generation);
  }

  /** The chunk belongs to what peer `k` has pending of this kind. */
  predicate BelongsTo(c: Clip, k: nat, kind: nat, chunk: Chunk)
    requires Live(c, k) && kind < KINDS
  {
    var q := c.peers[k].value.slots[kind];
    && q.Slot? && q.requestId == chunk.requestId && q.formatId == chunk.formatId
    && (kind == 1 ==> q.streamId == chunk.streamId)
    && (chunk.ownership == 0 || chunk.ownership == c.localGeneration)
  }

  /** A chunk for a named peer is taken if and only if it belongs to what that peer waits for. */
  lemma ChunkTakenIff(c: Clip, k: nat, chunk: Chunk, env: Env)
    requires Inv(c) && FindPeer(c.peers, chunk.peerId, chunk.generation) == Some(k)
    ensures PlatformData(c, chunk, env) == (State, c) <==> !BelongsTo(c, k, 0, chunk) && !BelongsTo(c, k, 1, chunk)
  {
    OneLocalEach(c, k, chunk.requestId);
    var kind := ChunkKind(c.peers[k].value.slots, chunk.requestId);
    if kind.Some? && BelongsTo(c, k, kind.value, chunk) {
      TakenChanges(c, k, kind.value, chunk, env);
    }
  }

  lemma OneLocalEach(c: Clip, k: nat, id: nat)
    requires Inv(c) && Live(c, k)
    ensures !(SlotIs(c.peers[k].value.slots, LOCAL_DATA, id) && SlotIs(c.peers[k].value.slots, LOCAL_FILE, id))
    ensures forall i | 0 <= i < KINDS && c.peers[k].value.slots[i].Slot? :: c.peers[k].value.slots[i].kind == i
  {
    forall i: nat | i < KINDS && c.peers[k].value.slots[i].Slot? ensures c.peers[k].value.slots[i].kind == i {
      assert Busy(c, k, i) && SlotAt(c, k, i).kind == i;
    }
    forall kind: nat | kind <= LOCAL_FILE
      ensures SlotIs(c.peers[k].value.slots, kind, id) <==> HasLocal(c, k, kind, id)
    {}
    assert !(HasLocal(c, k, LOCAL_DATA, id) && HasLocal(c, k, LOCAL_FILE, id));
  }

  lemma TakenChanges(c: Clip, k: nat, kind: nat, chunk: Chunk, env: Env)
    requires Busy(c, k, kind)
    ensures Accumulate(c, k, kind, chunk, env) != (State, c)
  {
    var r := Accumulate(c, k, kind, chunk, env).1;
    assert r.out == c.out ==> Accumulate(c, k, kind, chunk, env).0 == Ok;
  }

  /** The chunk that completes the data has it sent to the client, whose sending decides the status. */
  lemma LastChunkSends(c: Clip, k: nat, kind: nat, chunk: Chunk, env: Env)
    requires Inv(c) && Live(c, k) && kind <= LOCAL_FILE && BelongsTo(c, k, kind, chunk)
    requires FindLocal(c, chunk.peerId, chunk.generation, chunk.requestId) == Some(k)
    requires chunk.status == Ok && chunk.present && chunk.last
    ensures var q, p := c.peers[k].value.slots[kind], c.peers[k].value;
      var key, data := Key(kind, q.requestId, p.id, p.generation, q.streamId, 0), q.data + chunk.bytes;
      PlatformData(c, chunk, env).0 == if |data| <= q.max then env(SendAnswer(key, true, data)) else LimitExceeded
  {
    OneLocalEach(c, k, chunk.requestId);
    assert ChunkKind(c.peers[k].value.slots, chunk.requestId) == Some(kind);
    assert Busy(c, k, kind) && |SlotAt(c, k, kind).data| <= SlotAt(c, k, kind).max;
  }

  /** A chunk that names no peer is for the only one that waits for its request, if there is one. */
  lemma UnnamedIff(c: Clip, id: nat, k: nat)
    ensures FindLocal(c, 0, 0, id) == Some(k) <==>
      && Live(c, k) && WaitsFor(c.peers[k].value, id)
      && forall j | 0 <= j < |c.peers| && c.peers[j].Some? && j != k :: !WaitsFor(c.peers[j].value, id)
  {
    FirstLaw(c.peers, (slot: Option<Peer>) => Expects(slot, id));
    forall j: nat | Live(c, j) ensures Expects(c.peers[j], id) <==> WaitsFor(c.peers[j].value, id) {}
  }

  predicate WaitsFor(p: Peer, id: nat) {
    (p.slots[0].Slot? && p.slots[0].requestId == id) || (p.slots[1].Slot? && p.slots[1].requestId == id)
  }

  /** With room, the platform is asked for data if and only if the format is on offer; else the client is refused. */
  lemma AskedIff(c: Clip, k: nat, formatId: nat, env: Env)
    requires Inv(c) && Live(c, k) && !Busy(c, k, LOCAL_DATA) && c.pendingCount < c.cfg.maxPending
    ensures var o, p := DataRequested(c, k, formatId, env), c.peers[k].value;
      if exists i | 0 <= i < |c.localFormats| :: c.localFormats[i].id == formatId
      then
        && o.0 == env(RequestData(c.nextRequestId, formatId)) && (Busy(o.1, k, LOCAL_DATA) <==> o.0 == Ok)
        && o.1.nextRequestId == c.nextRequestId + 1
      else
        var key := Key(LOCAL_DATA, 0, p.id, p.generation, 0, 0);
        o == (env(SendAnswer(key, false, [])), c.(out := c.out + [Opened(key), Answered(key, false, [])]))
  {
    var key := Key(LOCAL_DATA, 0, c.peers[k].value.id, c.peers[k].value.generation, 0, 0);
    assert HasId(c.localFormats, formatId) <==>
           exists i | 0 <= i < |c.localFormats| :: c.localFormats[i].id == formatId;
    assert c.out + [Opened(key)] + [Answered(key, false, [])] == c.out + [Opened(key), Answered(key, false, [])];
  }

  /** And for a file if and only if files are on offer, the flags are known and the range is in bounds. */
  lemma FileAskedIff(c: Clip, k: nat, ask: FileAsk, env: Env)
    requires Inv(c) && Live(c, k) && !Busy(c, k, LOCAL_FILE) && c.pendingCount < c.cfg.maxPending
    ensures var o, p := FileRequested(c, k, ask, env), c.peers[k].value;
      if ask.flags in {1, 2, 3} && ask.requested <= c.cfg.maxRange
         && exists i | 0 <= i < |c.localFormats| :: c.localFormats[i].cls == UriList
      then
        && o.0 == env(RequestFile(c.nextRequestId, p.id, p.generation, c.localGeneration, ask.streamId))
        && (Busy(o.1, k, LOCAL_FILE) <==> o.0 == Ok) && o.1.nextRequestId == c.nextRequestId + 1
      else
        var key := Key(LOCAL_FILE, 0, p.id, p.generation, ask.streamId, 0);
        o == (env(SendAnswer(key, false, [])), c.(out := c.out + [Opened(key), Answered(key, false, [])]))
  {
    var key := Key(LOCAL_FILE, 0, c.peers[k].value.id, c.peers[k].value.generation, ask.streamId, 0);
    assert HasClass(c.localFormats, UriList) <==>
           exists i | 0 <= i < |c.localFormats| :: c.localFormats[i].cls == UriList;
    assert c.out + [Opened(key)] + [Answered(key, false, [])] == c.out + [Opened(key), Answered(key, false, [])];
  }

  /** Nothing comes of a client's reply if and only if no data was asked for. */
  lemma StrayReply(c: Clip, k: nat, reply: Reply, env: Env)
    requires Inv(c) && Live(c, k)
    ensures PeerInput(c, k, DataReplied(reply), env) == (ProtocolError, c) <==> c.peers[k].value.slots[2].Empty?
  {
  }

  /** And of one with a range of a file if and only if none was asked for of the same stream. */
  lemma StrayFileReply(c: Clip, k: nat, reply: Reply, env: Env)
    requires Inv(c) && Live(c, k)
    ensures var q := c.peers[k].value.slots[3];
      PeerInput(c, k, FileReplied(reply), env) == (ProtocolError, c) <==> q.Empty? || q.streamId != reply.streamId
  {
  }

  // --- In every run ---

  /** Only wanted classes, no identifier twice. */
  predicate Vetted(cfg: Config, kept: seq<Format>) {
    && (forall i | 0 <= i < |kept| :: kept[i].cls in cfg.allowed)
    && (forall i, j | 0 <= i < j < |kept| :: kept[i].id != kept[j].id)
  }

  ghost predicate AllVetted(c: Clip) {
    Vetted(c.cfg, c.localFormats) && forall k: nat | Live(c, k) :: Vetted(c.cfg, c.peers[k].value.formats)
  }

  lemma AcceptedIsVetted(cfg: Config, formats: seq<Offered>, local: bool, kept: seq<Format>)
    requires Accepts(cfg, formats, local, kept)
    ensures Vetted(cfg, kept)
  {
    var at: seq<nat> :| PickedAt(cfg, formats, |formats|, local, kept, at);
    forall i, j | 0 <= i < j < |kept| ensures kept[i].id != kept[j].id {
      assert IdOf(formats[at[i]], local) != IdOf(formats[at[j]], local);
    }
  }

  /** Peers keep their formats, or lose them. */
  ghost predicate FormatsStay(c: Clip, r: Clip) {
    && r.cfg == c.cfg && r.localFormats == c.localFormats
    && forall k: nat | Live(r, k) ::
         r.peers[k].value.formats == [] || (Live(c, k) && r.peers[k].value.formats == c.peers[k].value.formats)
  }

  lemma StayVetted(c: Clip, r: Clip)
    requires AllVetted(c) && FormatsStay(c, r)
    ensures AllVetted(r)
  {
  }

  lemma OfferVetted(c: Clip, k: nat, formats: seq<Offered>, env: Env)
    requires AllVetted(c) && Live(c, k)
    ensures AllVetted(FormatsOffered(c, k, formats, env).1)
  {
    var r := FormatsOffered(c, k, formats, env).1;
    OfferIs(c, k, formats, env);
    if kept :| Accepts(c.cfg, formats, false, kept) && TakenOver(c, r, k, kept) {
      AcceptedIsVetted(c.cfg, formats, false, kept);
      forall j: nat | Live(r, j) ensures Vetted(c.cfg, r.peers[j].value.formats) {
        assert j != k ==> LeavesPeer(c.peers[j], r.peers[j], NewOffer);
      }
    }
  }

  /** Taking a slot, closing it and noting something about it leave the formats alone. */
  lemma SlotStays(c: Clip, k: nat, kind: nat, q: Slot, close: Key -> Out, o: Out)
    requires Live(c, k) && kind < KINDS
    ensures FormatsStay(c, SetSlot(c, k, kind, q)) && FormatsStay(c, Begin(c, k, kind, q))
    ensures FormatsStay(c, Close(c, k, kind, close)) && FormatsStay(c, Emit(c, o)) && FormatsStay(c, Numbered(c))
  {
  }

  lemma StartLocalStays(c: Clip, k: nat, q: Slot, asked: Status)
    requires Live(c, k) && q.Slot? && q.kind < KINDS
    ensures FormatsStay(c, StartLocal(c, k, q, asked))
  {
    var logged := Emit(c, Opened(KeyFor(c.peers[k].value, q)));
    SlotStays(logged, k, q.kind, q, Refusal(), Opened(KeyFor(c.peers[k].value, q)));
    SlotStays(Begin(logged, k, q.kind, q), k, q.kind, q, Refusal(), Opened(KeyFor(c.peers[k].value, q)));
  }

  lemma StartedStays(c: Clip, k: nat, q: Slot, asked: Status)
    requires Live(c, k) && q.Slot? && q.kind < KINDS
    ensures FormatsStay(c, DataStarted(c, k, q, asked).1) && FormatsStay(c, FileStarted(c, k, q, asked).1)
  {
    StartLocalStays(Numbered(c), k, q, asked);
  }

  lemma AskStays(c: Clip, k: nat, formatId: nat, env: Env)
    requires Live(c, k)
    ensures FormatsStay(c, DataRequested(c, k, formatId, env).1)
  {
    var q := Slot(LOCAL_DATA, c.nextRequestId, formatId, 0, c.cfg.maxData, []);
    StartedStays(c, k, q, env(RequestData(q.requestId, formatId)));
  }

  lemma AskFileStays(c: Clip, k: nat, ask: FileAsk, env: Env)
    requires Live(c, k)
    ensures FormatsStay(c, FileRequested(c, k, ask, env).1)
  {
    var p := c.peers[k].value;
    var q := Slot(LOCAL_FILE, c.nextRequestId, 0, ask.streamId, RangeLimit(c.cfg, ask.requested), []);
    StartedStays(c, k, q, env(RequestFile(q.requestId, p.id, p.generation, c.localGeneration, ask.streamId)));
  }

  lemma DeliverStays(c: Clip, k: nat, kind: nat, reply: Reply, env: Env)
    requires Busy(c, k, kind)
    ensures FormatsStay(c, Deliver(c, k, kind, reply, env).1)
  {
  }

  lemma ChunkStays(c: Clip, k: nat, kind: nat, chunk: Chunk, env: Env)
    requires Busy(c, k, kind)
    ensures FormatsStay(c, Accumulate(c, k, kind, chunk, env).1)
  {
  }

  lemma DataStays(c: Clip, chunk: Chunk, env: Env)
    ensures FormatsStay(c, PlatformData(c, chunk, env).1)
  {
    var found := FindLocal(c, chunk.peerId, chunk.generation, chunk.requestId);
    if found.Some? {
      var kind := ChunkKind(c.peers[found.value].value.slots, chunk.requestId);
      if kind.Some? {
        ChunkStays(c, found.value, kind.value, chunk, env);
      }
    }
  }

  lemma StartRemoteStays(c: Clip, k: nat, q: Slot, ownership: nat, env: Env)
    requires Live(c, k) && q.Slot? && q.kind < KINDS
    ensures FormatsStay(c, StartRemote(c, k, q, ownership, env).1)
  {
  }

  lemma RequestStays(c: Clip, r: Request, env: Env)
    ensures FormatsStay(c, PlatformRequest(c, r, env).1)
  {
    var found := FindPeer(c.peers, r.peerId, r.generation);
    if found.Some? {
      CloseSlots(c, found.value, REMOTE_DATA, Drop(Overlapped));
      StartRemoteStays(c, found.value, Slot(REMOTE_DATA, r.requestId, r.formatId, 0, c.cfg.maxData, []),
                       r.ownership, env);
    }
  }

  lemma FileRequestStays(c: Clip, r: Request, env: Env)
    ensures FormatsStay(c, PlatformFileRequest(c, r, env).1)
  {
    var found := FindPeer(c.peers, r.peerId, r.generation);
    if found.Some? {
      var q := Slot(REMOTE_FILE, r.requestId, 0, r.streamId, RangeLimit(c.cfg, r.requested), []);
      StartRemoteStays(c, found.value, q, r.ownership, env);
    }
  }

  lemma ReadyStays(c: Clip, id: nat, generation: nat, channel: nat, env: Env)
    ensures FormatsStay(c, ChannelReady(c, id, generation, channel, env).1)
  {
  }

  lemma ComeAndGoStay(c: Clip, id: nat, generation: nat, hook: Hook)
    ensures FormatsStay(c, AddPeer(c, id, generation).1) && FormatsStay(c, RemovePeer(c, id, generation, hook))
  {
    JoinsIff(c, id, generation);
    LeavesIs(c, id, generation, hook);
  }

  lemma RevokeStays(c: Clip, hook: Hook)
    ensures FormatsStay(c, Revoke(c, hook))
  {
    RevokedIs(c, hook);
    forall j: nat | Live(Revoke(c, hook), j)
      ensures Live(c, j) && Revoke(c, hook).peers[j].value.formats == c.peers[j].value.formats
    {
      assert LeavesPeer(c.peers[j], Revoke(c, hook).peers[j], Revoking(hook));
    }
  }

  lemma InputVetted(c: Clip, k: nat, input: Input, env: Env)
    requires AllVetted(c) && Live(c, k)
    ensures AllVetted(PeerInput(c, k, input, env).1)
  {
    match input {
      case ListOffered(formats) => OfferVetted(c, k, formats, env);
      case DataAsked(formatId) => AskStays(c, k, formatId, env);
      case FileAsked(ask) => AskFileStays(c, k, ask, env);
      case DataReplied(reply) => if Busy(c, k, REMOTE_DATA) { DeliverStays(c, k, REMOTE_DATA, reply, env); }
      case FileReplied(reply) => if Busy(c, k, REMOTE_FILE) { DeliverStays(c, k, REMOTE_FILE, reply, env); }
      case WorkCancelled(kind) => if Remote(kind) { CloseSlots(c, k, kind.value, Drop(PeerCancelled)); }
      case _ =>
    }
    if !input.ListOffered? {
      StayVetted(c, PeerInput(c, k, input, env).1);
    }
  }

  lemma CopyVetted(c: Clip, formats: seq<Offered>, generation: nat, env: Env)
    requires AllVetted(c)
    ensures AllVetted(PlatformFormats(c, formats, generation, env).1)
  {
    var r := PlatformFormats(c, formats, generation, env).1;
    CopyIs(c, formats, generation, env);
    if kept :| Accepts(c.cfg, formats, true, kept) && CopiedTo(c, r, generation, kept) {
      AcceptedIsVetted(c.cfg, formats, true, kept);
      forall j: nat | Live(r, j) ensures Vetted(c.cfg, r.peers[j].value.formats) {
        assert LeavesPeer(c.peers[j], r.peers[j], LocalCopy);
      }
    }
  }

  lemma StepVetted(c: Clip, step: Step)
    requires AllVetted(c)
    ensures AllVetted(Apply(c, step).1)
  {
    match step {
      case PeerAdded(id, generation) => ComeAndGoStay(c, id, generation, _ => []);
      case PeerRemoved(id, generation, hook) => ComeAndGoStay(c, id, generation, hook);
      case Copied(formats, copy, env) => CopyVetted(c, formats, copy, env);
      case Protocol(id, generation, channel, input, env) =>
        var found := FindPeer(c.peers, id, generation);
        if found.Some? {
          InputVetted(c, found.value, input, env);
        }
      case CancelWanted(id, generation, ownership, requestId, env, hook) =>
        CancelVetted(c, id, generation, ownership, requestId, env, hook);
      case Revoked(hook) => RevokeStays(c, hook);
      case Supplied(chunk, env) => DataStays(c, chunk, env);
      case Requested(request, env) => RequestStays(c, request, env);
      case FileWanted(request, env) => FileRequestStays(c, request, env);
      case Readied(id, generation, channel, env) => ReadyStays(c, id, generation, channel, env);
    }
  }

  lemma CancelVetted(c: Clip, id: nat, generation: nat, ownership: nat, requestId: nat, env: Env, hook: Hook)
    requires AllVetted(c)
    ensures AllVetted(PlatformCancel(c, id, generation, ownership, requestId, env, hook).1)
  {
    var found := FindPeer(c.peers, id, generation);
    if found.Some? {
      var cancelled := CancelAt(c, found.value, hook);
      ReportsSlots(c, found.value, hook(c.peers[found.value].value.id));
      CloseSlots(cancelled, found.value, REMOTE_DATA, Drop(PlatformCancelled));
      CloseSlots(cancelled, found.value, REMOTE_FILE, Drop(PlatformCancelled));
    }
  }

  /** In every run whatever is on offer, here or at a client, is of allowed classes and without repeated identifiers. */
  lemma {:induction false} OnlyAllowed(cfg: Config, steps: seq<Step>)
    ensures var c := Run(NewClip(cfg), steps);
      && c.cfg == cfg && Vetted(cfg, c.localFormats)
      && forall k | 0 <= k < |c.peers| && c.peers[k].Some? :: Vetted(cfg, c.peers[k].value.formats)
    ensures AllVetted(Run(NewClip(cfg), steps))
  {
    RunCfg(cfg, steps);
    if steps != [] {
      OnlyAllowed(cfg, steps[..|steps| - 1]);
      StepVetted(Run(NewClip(cfg), steps[..|steps| - 1]), steps[|steps| - 1]);
    }
  }
}
