/** What the clipboard runtime promises the platform and its clients. */
module ClipboardTheorems {
  import opened Status
  import opened Tally
  import opened ClipboardModel
  import opened ClipboardInvariants
  import opened ClipboardRuns

  // --- In every state of every run ---

  /** At most one peer owns the clipboard, and a publication belongs to its owner. */
  lemma OneOwner(cfg: Config, steps: seq<Step>)
    ensures var c := Run(NewClip(cfg), steps);
      && (forall j: nat, k: nat | Live(c, j) && Live(c, k) && OwnerAt(c, j) != 0 && OwnerAt(c, k) != 0 :: j == k)
      && (c.published != 0 ==> exists k: nat :: Live(c, k) && OwnerAt(c, k) == c.published)
  {
    var c := Run(NewClip(cfg), steps);
    RunKeepsInv(cfg, steps);
    forall j: nat, k: nat | Live(c, j) && Live(c, k) && OwnerAt(c, j) != 0 && OwnerAt(c, k) != 0 ensures j == k {
      assert Owns(c, j, OwnerAt(c, j)) && Owns(c, k, OwnerAt(c, k));
    }
    if c.published != 0 {
      var k: nat :| Owns(c, k, c.published);
      assert Live(c, k);
    }
  }

  /**
    Every operation opened was closed once or is pending, with multiplicity; the pending ones are
    as many as the counter says, and no more than allowed.
   */
  lemma OperationsConserved(cfg: Config, steps: seq<Step>)
    ensures var c := Run(NewClip(cfg), steps);
      && Bag(c.out, OpenedKey) == Bag(c.out, ClosedKey) + Held(c)
      && c.pendingCount == Sum(c.peers, PeerOne) <= cfg.maxPending
  {
    var c := Run(NewClip(cfg), steps);
    RunKeepsInv(cfg, steps);
    RunCfg(cfg, steps);
    assert Bag(c.out, ClosedKey) + Held(c) + multiset{} == Bag(c.out, ClosedKey) + Held(c);
  }

  /** A pending remote operation was opened under the publication, which is its peer's ownership. */
  lemma RemoteWorkIsCurrent(cfg: Config, steps: seq<Step>, k: nat, kind: nat)
    requires var c := Run(NewClip(cfg), steps); Busy(c, k, kind) && kind >= REMOTE_DATA
    ensures var c := Run(NewClip(cfg), steps);
      && OwnerAt(c, k) == c.published == KeyAt(c, k, kind).ownership
      && KeyAt(c, k, kind) in Bag(c.out, OpenedKey)
  {
    var c := Run(NewClip(cfg), steps);
    RunKeepsInv(cfg, steps);
    var p := c.peers[k].value;
    BagHas(p.slots, kind, KeysOf(p), KeyAt(c, k, kind));
    BagHas(c.peers, k, PeerKeys, KeyAt(c, k, kind));
    assert KeyAt(c, k, kind) in Bag(c.out, ClosedKey) + Held(c) + multiset{};
  }

  function WroteKey(o: Out): multiset<Key> { if o.Wrote? then multiset{o.key} else multiset{} }

  lemma {:induction false} WroteIsClosed(out: seq<Out>)
    ensures Bag(out, WroteKey) <= Bag(out, ClosedKey)
  {
    if out != [] {
      WroteIsClosed(out[1..]);
    }
  }

  /**
    As multisets, everything delivered to the platform was asked for: with the same id and peer,
    and under the same generation, once for every delivery.
   */
  lemma DeliveriesMatch(cfg: Config, steps: seq<Step>)
    ensures var c := Run(NewClip(cfg), steps); Bag(c.out, WroteKey) <= Bag(c.out, OpenedKey)
  {
    var c := Run(NewClip(cfg), steps);
    RunKeepsInv(cfg, steps);
    WroteIsClosed(c.out);
    forall key ensures Bag(c.out, WroteKey)[key] <= Bag(c.out, OpenedKey)[key] {
      assert Bag(c.out, OpenedKey)[key] == (Bag(c.out, ClosedKey) + Held(c) + multiset{})[key];
    }
  }

  // --- With non-zero generations remote work is only ever the owner's ---

  /** Every request of the platform names a generation. */
  ghost predicate NamesGenerations(steps: seq<Step>) {
    forall i | 0 <= i < |steps| && (steps[i].Requested? || steps[i].FileWanted?) :: steps[i].request.ownership != 0
  }

  /** Remote work is pending only while something is published. */
  ghost predicate Backed(c: Clip) {
    forall k: nat, i: nat | Busy(c, k, i) && i >= REMOTE_DATA :: c.published != 0
  }

  /** Remote work pending afterwards was pending before, at a peer that kept its ownership. */
  ghost predicate RemoteKept(c: Clip, r: Clip) {
    forall k: nat, i: nat | Busy(r, k, i) && i >= REMOTE_DATA ::
      Busy(c, k, i) && OwnerAt(r, k) == OwnerAt(c, k) && KeyAt(r, k, i) == KeyAt(c, k, i)
  }

  lemma ShrinkRemote(c: Clip, r: Clip)
    requires Shrinks(c, r)
    ensures RemoteKept(c, r)
  {
    forall k: nat, i: nat | Busy(r, k, i) && i >= REMOTE_DATA
      ensures Busy(c, k, i) && OwnerAt(r, k) == OwnerAt(c, k) && KeyAt(r, k, i) == KeyAt(c, k, i)
    {
      ShrinkSlots(c, r, k, i);
      assert ShrinksPeer(c.peers[k], r.peers[k]);
    }
  }

  lemma KeptBacked(c: Clip, r: Clip)
    requires Inv(c) && Inv(r) && Backed(c) && RemoteKept(c, r)
    ensures Backed(r)
  {
    forall k: nat, i: nat | Busy(r, k, i) && i >= REMOTE_DATA ensures r.published != 0 {
      assert Busy(c, k, i) && OwnerAt(r, k) == OwnerAt(c, k);
    }
  }

  lemma CloseKept(c: Clip, k: nat, kind: nat, close: Key -> Out)
    ensures RemoteKept(c, Close(c, k, kind, close))
  {
    CloseShrinks(c, k, kind, close);
    ShrinkRemote(c, Close(c, k, kind, close));
  }

  lemma RemoveKept(c: Clip, id: nat, generation: nat, hook: Hook)
    ensures RemoteKept(c, RemovePeer(c, id, generation, hook))
  {
    var found := FindPeer(c.peers, id, generation);
    if found.Some? {
      CancelAllShrinks(c, found.value, hook, PeerGone);
      ShrinkRemote(c, DropAll(CancelAt(c, found.value, hook), found.value, PeerGone));
    }
  }

  lemma SweepKept(c: Clip, sweep: Sweep)
    ensures RemoteKept(c, SweepTo(c, |c.peers|, sweep))
  {
    SweepShrinks(c, |c.peers|, sweep);
    ShrinkRemote(c, SweepTo(c, |c.peers|, sweep));
  }

  lemma OfferKept(c: Clip, k: nat, kept: seq<Format>, taken: bool)
    ensures RemoteKept(c, Offer(c, k, kept, taken))
  {
    var swept, r := SweepTo(NextGeneration(c), |c.peers|, NewOffer), Offer(c, k, kept, taken);
    if taken {
      SweepSwept(NextGeneration(c), |c.peers|, NewOffer);
      forall j: nat, i: nat | i >= REMOTE_DATA ensures !Busy(r, j, i) {
        if j < |swept.peers| {
          assert Swept(swept.peers[j], NewOffer) && Sweeps(NewOffer, i);
        }
      }
    }
  }

  lemma PublishKept(c: Clip, k: nat, formats: seq<Offered>, env: Env)
    requires Live(c, k)
    ensures RemoteKept(c, Publish(c, k, formats, env).1)
  {
    var kept := Filtered(c.cfg, formats, |formats|, false);
    if kept.Some? {
      var p := c.peers[k].value;
      OfferKept(c, k, kept.value, env(PublishFormats(p.id, p.generation, c.nextOwnership + 1, kept.value)) == Ok);
    }
  }

  lemma StartLocalKept(c: Clip, k: nat, q: Slot, asked: Status)
    requires Live(c, k) && q.Slot? && q.kind <= LOCAL_FILE
    ensures RemoteKept(c, StartLocal(c, k, q, asked))
  {
    CloseKept(Begin(Emit(c, Opened(KeyFor(c.peers[k].value, q))), k, q.kind, q), k, q.kind, Refusal());
  }

  lemma LocalKept(c: Clip, k: nat, q: Slot, asked: Status)
    requires Live(c, k) && q.Slot? && q.kind <= LOCAL_FILE
    ensures RemoteKept(c, DataStarted(c, k, q, asked).1)
    ensures RemoteKept(c, FileStarted(c, k, q, asked).1)
  {
    CloseKept(Numbered(c), k, q.kind, Drop(Overlapped));
    StartLocalKept(Numbered(c), k, q, asked);
  }

  lemma PeerInputKept(c: Clip, k: nat, input: Input, env: Env)
    requires Live(c, k)
    ensures RemoteKept(c, PeerInput(c, k, input, env).1)
  {
    match input {
      case ListOffered(formats) => PublishKept(c, k, formats, env);
      case DataAsked(formatId) =>
        var q := Slot(LOCAL_DATA, c.nextRequestId, formatId, 0, c.cfg.maxData, []);
        LocalKept(c, k, q, env(RequestData(q.requestId, formatId)));
      case FileAsked(ask) =>
        var p := c.peers[k].value;
        var q := Slot(LOCAL_FILE, c.nextRequestId, 0, ask.streamId, RangeLimit(c.cfg, ask.requested), []);
        LocalKept(c, k, q, env(RequestFile(q.requestId, p.id, p.generation, c.localGeneration, ask.streamId)));
      case DataReplied(reply) => DeliverKept(c, k, REMOTE_DATA, reply, env);
      case FileReplied(reply) => DeliverKept(c, k, REMOTE_FILE, reply, env);
      case WorkCancelled(kind) => if kind.Some? { CloseKept(c, k, kind.value, Drop(PeerCancelled)); }
      case _ =>
    }
  }

  lemma DeliverKept(c: Clip, k: nat, kind: nat, reply: Reply, env: Env)
    ensures Busy(c, k, kind) ==> RemoteKept(c, Deliver(c, k, kind, reply, env).1)
  {
    var status, data := if reply.success then Ok else ProtocolError, if reply.success then reply.data else [];
    CloseKept(c, k, kind, Drop(Oversized));
    CloseKept(c, k, kind, key => Wrote(key, status, data));
  }

  lemma ProtocolKept(c: Clip, id: nat, generation: nat, channel: nat, input: Input, env: Env)
    ensures RemoteKept(c, ProtocolEvent(c, id, generation, channel, input, env).1)
  {
    var found := FindPeer(c.peers, id, generation);
    if found.Some? {
      PeerInputKept(c, found.value, input, env);
    }
  }

  lemma ChunkKept(c: Clip, chunk: Chunk, env: Env)
    ensures RemoteKept(c, PlatformData(c, chunk, env).1)
  {
    var found := FindLocal(c, chunk.peerId, chunk.generation, chunk.requestId);
    if found.Some? {
      var k := found.value;
      var kind := ChunkKind(c.peers[k].value.slots, chunk.requestId);
      if kind.Some? {
        var data := SlotAt(c, k, kind.value).data + chunk.bytes;
        CloseKept(c, k, kind.value, Refusal());
        CloseKept(c, k, kind.value, key => Answered(key, true, data));
      }
    }
  }

  lemma CancelKept(c: Clip, id: nat, generation: nat, ownership: nat, requestId: nat, env: Env, hook: Hook)
    ensures RemoteKept(c, PlatformCancel(c, id, generation, ownership, requestId, env, hook).1)
  {
    var found := FindPeer(c.peers, id, generation);
    if found.Some? {
      var kind := RemoteKind(c.peers[found.value].value.slots, requestId);
      if kind.Some? {
        var cancelled := CancelAt(c, found.value, hook);
        ReportsShrink(c, found.value, hook(c.peers[found.value].value.id));
        CloseShrinks(cancelled, found.value, kind.value, Drop(PlatformCancelled));
        ShrinksThen(c, cancelled, Close(cancelled, found.value, kind.value, Drop(PlatformCancelled)));
        ShrinkRemote(c, Close(cancelled, found.value, kind.value, Drop(PlatformCancelled)));
      }
    }
  }

  /** No step but a request of the platform starts remote work. */
  lemma StepRemote(c: Clip, step: Step)
    requires !step.Requested? && !step.FileWanted?
    ensures RemoteKept(c, Apply(c, step).1)
  {
    match step {
      case PeerRemoved(id, generation, hook) => RemoveKept(c, id, generation, hook);
      case Copied(formats, copy, env) => SweepKept(c, LocalCopy);
      case Protocol(id, generation, channel, input, env) => ProtocolKept(c, id, generation, channel, input, env);
      case Supplied(chunk, env) => ChunkKept(c, chunk, env);
      case CancelWanted(id, generation, ownership, requestId, env, hook) =>
        CancelKept(c, id, generation, ownership, requestId, env, hook);
      case Revoked(hook) => SweepKept(c, Revoking(hook));
      case _ =>
    }
  }

  /** A request either starts nothing or is for the publication it names. */
  lemma RequestRemote(c: Clip, r: Request, env: Env)
    ensures RemoteKept(c, PlatformRequest(c, r, env).1) || PlatformRequest(c, r, env).1.published == r.ownership
  {
    var found := FindPeer(c.peers, r.peerId, r.generation);
    if found.Some? {
      CloseKept(c, found.value, REMOTE_DATA, Drop(Overlapped));
    }
  }

  lemma FileRequestRemote(c: Clip, r: Request, env: Env)
    ensures RemoteKept(c, PlatformFileRequest(c, r, env).1) || PlatformFileRequest(c, r, env).1.published == r.ownership
  {
  }

  lemma StepBacked(c: Clip, step: Step)
    requires Inv(c) && Backed(c)
    requires step.Requested? || step.FileWanted? ==> step.request.ownership != 0
    ensures Backed(Apply(c, step).1)
  {
    var r := Apply(c, step).1;
    StepKeepsInv(c, step);
    if step.Requested? {
      RequestRemote(c, step.request, step.env);
    } else if step.FileWanted? {
      FileRequestRemote(c, step.request, step.env);
    } else {
      StepRemote(c, step);
    }
    if RemoteKept(c, r) {
      KeptBacked(c, r);
    }
  }

  lemma {:induction false} RunBacked(cfg: Config, steps: seq<Step>)
    requires NamesGenerations(steps)
    ensures Backed(Run(NewClip(cfg), steps))
  {
    if steps != [] {
      RunBacked(cfg, steps[..|steps| - 1]);
      RunKeepsInv(cfg, steps[..|steps| - 1]);
      StepBacked(Run(NewClip(cfg), steps[..|steps| - 1]), steps[|steps| - 1]);
    }
  }

  /** In every run whose platform requests name a generation, remote work is pending only at the owner. */
  lemma RemoteWorkIsOwners(cfg: Config, steps: seq<Step>, k: nat, kind: nat)
    requires NamesGenerations(steps)
    requires var c := Run(NewClip(cfg), steps); Busy(c, k, kind) && kind >= REMOTE_DATA
    ensures var c := Run(NewClip(cfg), steps); Owns(c, k, c.published) && KeyAt(c, k, kind).ownership == c.published
  {
    RunBacked(cfg, steps);
    RemoteWorkIsCurrent(cfg, steps, k, kind);
  }

  // --- A superseded generation stays superseded ---

  /** A generation already handed out that is not the publication. */
  predicate Superseded(c: Clip, g: nat) { 0 < g <= c.nextOwnership && c.published != g }

  /** The publication stays, ends, or moves to a generation not used before. */
  ghost predicate MovesOn(c: Clip, r: Clip) {
    && r.nextOwnership >= c.nextOwnership && r.cfg == c.cfg
    && (r.published == c.published || r.published == 0 || r.published > c.nextOwnership)
  }

  lemma RemoveMoves(c: Clip, id: nat, generation: nat, hook: Hook)
    ensures MovesOn(c, RemovePeer(c, id, generation, hook))
  {
    var found := FindPeer(c.peers, id, generation);
    if found.Some? {
      CancelAllShrinks(c, found.value, hook, PeerGone);
    }
  }

  lemma OfferMoves(c: Clip, k: nat, kept: seq<Format>, taken: bool)
    ensures MovesOn(c, Offer(c, k, kept, taken))
  {
    SweepShrinks(NextGeneration(c), |c.peers|, NewOffer);
  }

  lemma PublishMoves(c: Clip, k: nat, formats: seq<Offered>, env: Env)
    requires Live(c, k)
    ensures MovesOn(c, Publish(c, k, formats, env).1)
  {
    var kept := Filtered(c.cfg, formats, |formats|, false);
    if kept.Some? {
      var p := c.peers[k].value;
      OfferMoves(c, k, kept.value, env(PublishFormats(p.id, p.generation, c.nextOwnership + 1, kept.value)) == Ok);
    }
  }

  lemma PeerInputMoves(c: Clip, k: nat, input: Input, env: Env)
    requires Live(c, k)
    ensures MovesOn(c, PeerInput(c, k, input, env).1)
  {
    if input.ListOffered? {
      PublishMoves(c, k, input.formats, env);
    }
  }

  lemma ProtocolMoves(c: Clip, id: nat, generation: nat, channel: nat, input: Input, env: Env)
    ensures MovesOn(c, ProtocolEvent(c, id, generation, channel, input, env).1)
  {
    var found := FindPeer(c.peers, id, generation);
    if found.Some? {
      PeerInputMoves(c, found.value, input, env);
    }
  }

  lemma CopyMoves(c: Clip, formats: seq<Offered>, generation: nat, env: Env)
    ensures MovesOn(c, PlatformFormats(c, formats, generation, env).1)
  {
    SweepShrinks(c, |c.peers|, LocalCopy);
  }

  lemma StepMoves(c: Clip, step: Step)
    ensures MovesOn(c, Apply(c, step).1)
  {
    match step {
      case PeerRemoved(id, generation, hook) => RemoveMoves(c, id, generation, hook);
      case Copied(formats, copy, env) => CopyMoves(c, formats, copy, env);
      case Protocol(id, generation, channel, input, env) => ProtocolMoves(c, id, generation, channel, input, env);
      case CancelWanted(id, generation, ownership, requestId, env, hook) =>
        CancelStays(c, id, generation, ownership, requestId, env, hook);
      case Revoked(hook) => SweepShrinks(c, |c.peers|, Revoking(hook));
      case Supplied(chunk, env) => DataMoves(c, chunk, env);
      case Requested(request, env) => RequestMoves(c, request, env);
      case FileWanted(request, env) => RequestMoves(c, request, env);
      case _ =>
    }
  }

  lemma DataMoves(c: Clip, chunk: Chunk, env: Env)
    ensures MovesOn(c, PlatformData(c, chunk, env).1)
  {
  }

  lemma RequestMoves(c: Clip, r: Request, env: Env)
    ensures MovesOn(c, PlatformRequest(c, r, env).1)
    ensures MovesOn(c, PlatformFileRequest(c, r, env).1)
  {
  }

  lemma {:induction false} RunMoves(c: Clip, g: nat, steps: seq<Step>)
    requires Superseded(c, g)
    ensures Superseded(Run(c, steps), g)
  {
    if steps != [] {
      RunMoves(c, g, steps[..|steps| - 1]);
      StepMoves(Run(c, steps[..|steps| - 1]), steps[|steps| - 1]);
    }
  }

  lemma {:induction false} RunCfg(cfg: Config, steps: seq<Step>)
    ensures Run(NewClip(cfg), steps).cfg == cfg
  {
    if steps != [] {
      RunCfg(cfg, steps[..|steps| - 1]);
      StepMoves(Run(NewClip(cfg), steps[..|steps| - 1]), steps[|steps| - 1]);
    }
  }

  /** However the run continues, no request or cancel naming a superseded generation succeeds or changes anything. */
  lemma SupersededForever(c: Clip, g: nat, steps: seq<Step>, r: Request,
                          id: nat, generation: nat, requestId: nat, env: Env, hook: Hook)
    requires Superseded(c, g) && r.ownership == g
    ensures var after := Run(c, steps);
      var refusals := {InvalidArgument, State};
      && PlatformRequest(after, r, env).0 in refusals && PlatformRequest(after, r, env).1 == after
      && PlatformFileRequest(after, r, env).0 in refusals && PlatformFileRequest(after, r, env).1 == after
      && PlatformCancel(after, id, generation, g, requestId, env, hook).0 in refusals
      && PlatformCancel(after, id, generation, g, requestId, env, hook).1 == after
  {
    RunMoves(c, g, steps);
  }

  /** An offer the runtime hears, whose formats pass, and which the platform takes. */
  predicate OfferStands(c: Clip, k: nat, channel: nat, input: Input, env: Env)
    requires Live(c, k)
  {
    var p := c.peers[k].value;
    && p.ready && channel == p.channel && input.ListOffered? && |input.formats| <= c.cfg.maxFormats
    && var kept := Filtered(c.cfg, input.formats, |input.formats|, false);
       kept.Some? && env(PublishFormats(p.id, p.generation, c.nextOwnership + 1, kept.value)) == Ok
  }

  /** A local copy that is not the echo of the publication and whose formats pass. */
  predicate CopyStands(c: Clip, formats: seq<Offered>, copy: nat) {
    && (copy == 0 || copy != c.published) && |formats| <= c.cfg.maxFormats
    && Filtered(c.cfg, formats, |formats|, true).Some?
  }

  /** The steps that end a publication. */
  predicate EndsPublication(c: Clip, step: Step) {
    match step
    case PeerRemoved(id, generation, _) =>
      (var found := FindPeer(c.peers, id, generation); found.Some? && OwnerAt(c, found.value) == c.published)
    case Copied(formats, copy, env) => CopyStands(c, formats, copy)
    case Protocol(id, generation, channel, input, env) =>
      (var found := FindPeer(c.peers, id, generation); found.Some? && OfferStands(c, found.value, channel, input, env))
    case Revoked(_) => true
    case _ => false
  }

  /** A step supersedes the publication if and only if it is one of those. */
  lemma SupersedesIff(c: Clip, step: Step)
    requires Inv(c) && c.published != 0
    ensures Superseded(Apply(c, step).1, c.published) <==> EndsPublication(c, step)
  {
    StepMoves(c, step);
    match step {
      case PeerRemoved(id, generation, hook) => RemovalEndsIff(c, id, generation, hook);
      case Copied(formats, copy, env) => SweepShrinks(c, |c.peers|, LocalCopy);
      case Protocol(id, generation, channel, input, env) =>
        var found := FindPeer(c.peers, id, generation);
        if found.Some? {
          InputEndsIff(c, found.value, channel, input, env);
        }
      case Supplied(chunk, env) => ChunkStays(c, chunk, env);
      case Requested(request, env) => RequestStays(c, request, env);
      case FileWanted(request, env) => RequestStays(c, request, env);
      case CancelWanted(id, generation, ownership, requestId, env, hook) =>
        CancelStays(c, id, generation, ownership, requestId, env, hook);
      case Revoked(hook) => SweepShrinks(c, |c.peers|, Revoking(hook));
      case _ =>
    }
  }

  lemma OfferTakes(c: Clip, k: nat, kept: seq<Format>)
    requires Live(c, k)
    ensures var r := Offer(c, k, kept, true); r.published == r.nextOwnership == c.nextOwnership + 1
  {
    var next := NextGeneration(c);
    SweepShrinks(next, |c.peers|, NewOffer);
    assert ShrinksPeer(next.peers[k], SweepTo(next, |c.peers|, NewOffer).peers[k]);
  }

  lemma PublishEndsIff(c: Clip, k: nat, formats: seq<Offered>, env: Env)
    requires Live(c, k) && c.published <= c.nextOwnership
    ensures var p, kept := c.peers[k].value, Filtered(c.cfg, formats, |formats|, false);
      Publish(c, k, formats, env).1.published != c.published <==>
        && |formats| <= c.cfg.maxFormats && kept.Some?
        && env(PublishFormats(p.id, p.generation, c.nextOwnership + 1, kept.value)) == Ok
  {
    var p, kept := c.peers[k].value, Filtered(c.cfg, formats, |formats|, false);
    if |formats| <= c.cfg.maxFormats && kept.Some? {
      var taken := env(PublishFormats(p.id, p.generation, c.nextOwnership + 1, kept.value)) == Ok;
      assert Publish(c, k, formats, env).1 == Offer(c, k, kept.value, taken);
      if taken {
        OfferTakes(c, k, kept.value);
      }
    }
  }

  lemma InputEndsIff(c: Clip, k: nat, channel: nat, input: Input, env: Env)
    requires Live(c, k) && c.published <= c.nextOwnership
    ensures var p := c.peers[k].value;
      p.ready && (input.WorkCancelled? || channel == p.channel) ==>
        (PeerInput(c, k, input, env).1.published != c.published <==> OfferStands(c, k, channel, input, env))
  {
    if input.ListOffered? {
      PublishEndsIff(c, k, input.formats, env);
    }
  }

  lemma CancelStays(c: Clip, id: nat, generation: nat, ownership: nat, requestId: nat, env: Env, hook: Hook)
    ensures var r := PlatformCancel(c, id, generation, ownership, requestId, env, hook).1;
      r.published == c.published && MovesOn(c, r)
  {
    var found := FindPeer(c.peers, id, generation);
    if found.Some? {
      ReportsShrink(c, found.value, hook(c.peers[found.value].value.id));
    }
  }

  lemma RemovalEndsIff(c: Clip, id: nat, generation: nat, hook: Hook)
    requires c.published != 0
    ensures var found := FindPeer(c.peers, id, generation);
      RemovePeer(c, id, generation, hook).published != c.published <==>
        found.Some? && OwnerAt(c, found.value) == c.published
  {
    var found := FindPeer(c.peers, id, generation);
    if found.Some? {
      CancelAllShrinks(c, found.value, hook, PeerGone);
    }
  }

  lemma ChunkStays(c: Clip, chunk: Chunk, env: Env)
    ensures PlatformData(c, chunk, env).1.published == c.published
  {
  }

  lemma RequestStays(c: Clip, r: Request, env: Env)
    ensures PlatformRequest(c, r, env).1.published == c.published
    ensures PlatformFileRequest(c, r, env).1.published == c.published
  {
  }

  // --- What the protocol reports while it cancels ---

  /** Each report is an event like any other: the runtime is entered again before the call returns. */
  lemma ReportIsEvent(c: Clip, id: nat, generation: nat, channel: nat, kind: Option<nat>, env: Env)
    requires FindPeer(c.peers, id, generation).Some?
    ensures ProtocolEvent(c, id, generation, channel, WorkCancelled(kind), env).1 ==
      Report(c, FindPeer(c.peers, id, generation).value, kind)
  {
  }

  /** Where the platform was told first, as in a local copy or a new offer, reports change nothing more. */
  lemma ReportsAfterWrites(c: Clip, k: nat, hook: Hook)
    ensures CancelAt(CancelRemote(c, k), k, hook) == CancelRemote(c, k)
  {
    if Live(c, k) {
      var r := CancelRemote(c, k);
      CloseRangeShrinks(c, k, REMOTE_DATA, KINDS, CancelWrite());
      NothingToReport(r, k, hook(r.peers[k].value.id));
    }
  }

  lemma {:induction false} NothingToReport(c: Clip, k: nat, kinds: seq<Option<nat>>)
    requires !Busy(c, k, REMOTE_DATA) && !Busy(c, k, REMOTE_FILE)
    ensures Reports(c, k, kinds) == c
  {
    if kinds != [] {
      NothingToReport(c, k, kinds[..|kinds| - 1]);
    }
  }

  // --- Generation zero ---

  /** A served request is pending at an owner exactly when it names a generation other than zero. */
  lemma ServedByOwnerIff(c: Clip, r: Request, env: Env)
    requires Inv(c) && PlatformRequest(c, r, env).0 == Ok
    ensures var k, after := FindPeer(c.peers, r.peerId, r.generation).value, PlatformRequest(c, r, env).1;
      && Busy(after, k, REMOTE_DATA) && SlotAt(after, k, REMOTE_DATA).requestId == r.requestId
      && after.published == r.ownership
      && (Owns(after, k, after.published) <==> r.ownership != 0)
  {
  }

  /** The same for file requests. */
  lemma ServedFileByOwnerIff(c: Clip, r: Request, env: Env)
    requires Inv(c) && PlatformFileRequest(c, r, env).0 == Ok
    ensures var k, after := FindPeer(c.peers, r.peerId, r.generation).value, PlatformFileRequest(c, r, env).1;
      && Busy(after, k, REMOTE_FILE) && SlotAt(after, k, REMOTE_FILE).requestId == r.requestId
      && after.published == r.ownership
      && (Owns(after, k, after.published) <==> r.ownership != 0)
  {
  }

  function OneFormat(cls: FormatClass): Config { Config(1, 4, 4, 100, 100, {cls}) }

  /** The steps of a run in which the only peer publishes one format and then a local application copies. */
  function ShareThenCopy(id: nat, cls: FormatClass, env: Env): seq<Step> {
    [PeerAdded(1, 1), Readied(1, 1, 7, env), Protocol(1, 1, 7, ListOffered([Offered(id, Some(cls))]), env),
     Copied([], 5, env)]
  }

  function Sharer(id: nat, cls: FormatClass, ownership: nat): Peer {
    Peer(1, 1, 7, true, [Format(id, cls)], ownership, [Empty, Empty, Empty, Empty])
  }

  lemma {:induction false} RunMore(c: Clip, steps: seq<Step>, step: Step)
    ensures Run(c, steps + [step]) == Apply(Run(c, steps), step).1
  {
    assert (steps + [step])[..|steps|] == steps;
  }

  lemma SharedIs(id: nat, cls: FormatClass, env: Env)
    requires forall call :: env(call) == Ok
    ensures var c := Run(NewClip(OneFormat(cls)), ShareThenCopy(id, cls, env)[..3]);
      c.peers == [Some(Sharer(id, cls, 2))] && c.pendingCount == 0 && c.published == 2 && c.cfg == OneFormat(cls)
  {
    var start, p, steps := NewClip(OneFormat(cls)), NewPeer(1, 1), ShareThenCopy(id, cls, env);
    assert start.peers == [None];
    var added, ready := start.(peers := [Some(p)]), start.(peers := [Some(p.(channel := 7, ready := true))]);
    assert steps[..1] == [] + [steps[0]] && steps[..2] == steps[..1] + [steps[1]];
    assert steps[..3] == steps[..2] + [steps[2]];
    RunMore(start, [], steps[0]);
    assert AddPeer(start, 1, 1).1 == added;
    RunMore(start, steps[..1], steps[1]);
    assert ChannelReady(added, 1, 1, 7, env).1 == ready;
    RunMore(start, steps[..2], steps[2]);
    OneOffer(ready, id, cls, env);
  }

  lemma OneOffer(c: Clip, id: nat, cls: FormatClass, env: Env)
    requires forall call :: env(call) == Ok
    requires c == NewClip(OneFormat(cls)).(peers := [Some(NewPeer(1, 1).(channel := 7, ready := true))])
    ensures var r := ProtocolEvent(c, 1, 1, 7, ListOffered([Offered(id, Some(cls))]), env).1;
      r.peers == [Some(Sharer(id, cls, 2))] && r.pendingCount == 0 && r.published == 2 && r.cfg == OneFormat(cls)
  {
    var formats, none: seq<Format> := [Offered(id, Some(cls))], [];
    assert Filtered(c.cfg, formats, 0, false) == Some([]);
    assert !HasId(none, id) && none + [Format(id, cls)] == [Format(id, cls)];
    assert Filtered(c.cfg, formats, 1, false) == Some([Format(id, cls)]);
    assert FindPeer(c.peers, 1, 1) == Some(0);
    AloneTakesOver(c, [Format(id, cls)]);
  }

  lemma AloneTakesOver(c: Clip, kept: seq<Format>)
    requires c.peers == [Some(NewPeer(1, 1).(channel := 7, ready := true))]
    ensures var r := Offer(c, 0, kept, true);
      && r.peers == [Some(NewPeer(1, 1).(channel := 7, ready := true,
                                        formats := kept, ownership := c.nextOwnership + 1))]
      && r.published == c.nextOwnership + 1 && r.pendingCount == c.pendingCount && r.cfg == c.cfg
  {
    var next := NextGeneration(c);
    NothingToClose(next, 0, REMOTE_DATA, KINDS, CancelWrite());
    assert SweepTo(next, 0, NewOffer) == next;
    assert SweepTo(next, 1, NewOffer) == SweepPeer(next, 0, NewOffer);
  }

  lemma AloneCopies(c: Clip, id: nat, cls: FormatClass, env: Env)
    requires c.peers == [Some(Sharer(id, cls, 2))] && c.published == 2 && c.cfg == OneFormat(cls)
    ensures var r := PlatformFormats(c, [], 5, env).1;
      r.peers == [Some(Sharer(id, cls, 0))] && r.published == 0 && r.pendingCount == c.pendingCount && r.cfg == c.cfg
  {
    NothingToClose(c, 0, LOCAL_DATA, REMOTE_DATA, Refusal());
    NothingToClose(c, 0, REMOTE_DATA, KINDS, CancelWrite());
    assert SweepTo(c, 0, LocalCopy) == c;
    assert SweepTo(c, 1, LocalCopy) == SweepPeer(c, 0, LocalCopy);
    assert Filtered(c.cfg, [], 0, true) == Some([]);
  }

  lemma {:induction false} NothingToClose(c: Clip, k: nat, from: nat, n: nat, close: Key -> Out)
    requires forall i: nat | i < n :: !Busy(c, k, i)
    ensures CloseRange(c, k, from, n, close) == c
  {
    if n > from {
      NothingToClose(c, k, from, n - 1, close);
    }
  }

  lemma CopiedIs(id: nat, cls: FormatClass, env: Env)
    requires forall call :: env(call) == Ok
    ensures var c := Run(NewClip(OneFormat(cls)), ShareThenCopy(id, cls, env));
      c.peers == [Some(Sharer(id, cls, 0))] && c.published == 0 && c.pendingCount == 0 && c.cfg == OneFormat(cls)
  {
    var start, steps := NewClip(OneFormat(cls)), ShareThenCopy(id, cls, env);
    SharedIs(id, cls, env);
    assert steps == steps[..3] + [steps[3]];
    RunMore(start, steps[..3], steps[3]);
    AloneCopies(Run(start, steps[..3]), id, cls, env);
  }

  /**
    After a client's offer and then a local copy, a request that names generation zero is served
    although nobody owns the clipboard.
   */
  lemma ZeroIsServed(r: Request, env: Env)
    requires r.requestId != 0 && r.peerId == 1 && r.generation == 1 && r.ownership == 0 && r.formatId == 13
    requires forall call :: env(call) == Ok
    ensures var c := Run(NewClip(OneFormat(Text)), ShareThenCopy(13, Text, env));
      && c.published == 0 && (forall k: nat | Live(c, k) :: OwnerAt(c, k) == 0)
      && PlatformRequest(c, r, env).0 == Ok
  {
    var c := Run(NewClip(OneFormat(Text)), ShareThenCopy(13, Text, env));
    CopiedIs(13, Text, env);
    assert c.peers[0].value.formats[0].id == 13;
    assert FindPeer(c.peers, 1, 1) == Some(0);
  }

  /** ... and so is a file request. */
  lemma ZeroFileIsServed(r: Request, env: Env)
    requires r.requestId != 0 && r.streamId != 0 && r.peerId == 1 && r.generation == 1 && r.ownership == 0
    requires r.requested <= 100 && GoodFlags(r.flags) && forall call :: env(call) == Ok
    ensures var c := Run(NewClip(OneFormat(UriList)), ShareThenCopy(0xc001, UriList, env));
      && c.published == 0 && (forall k: nat | Live(c, k) :: OwnerAt(c, k) == 0)
      && PlatformFileRequest(c, r, env).0 == Ok
  {
    var c := Run(NewClip(OneFormat(UriList)), ShareThenCopy(0xc001, UriList, env));
    CopiedIs(0xc001, UriList, env);
    assert c.peers[0].value.formats[0].cls == UriList;
    assert FindPeer(c.peers, 1, 1) == Some(0);
  }

  // --- Overlapping requests ---

  /** A second data request of the platform fails and ends the first one without a delivery. */
  lemma SecondRequestEndsFirst(c: Clip, r: Request, env: Env)
    requires r.requestId != 0 && FindPeer(c.peers, r.peerId, r.generation).Some?
    requires var k := FindPeer(c.peers, r.peerId, r.generation).value;
      Current(c, c.peers[k].value, r.ownership) && HasId(c.peers[k].value.formats, r.formatId)
      && Busy(c, k, REMOTE_DATA)
    ensures var k, after := FindPeer(c.peers, r.peerId, r.generation).value, PlatformRequest(c, r, env);
      && after.0 == State && !Busy(after.1, k, REMOTE_DATA)
      && after.1.out == c.out + [Dropped(KeyAt(c, k, REMOTE_DATA), Overlapped)]
  {
  }

  /** A second data request of a client is refused, and so is never the first one answered. */
  lemma SecondAskEndsFirst(c: Clip, k: nat, formatId: nat, env: Env)
    requires Live(c, k) && HasId(c.localFormats, formatId) && Busy(c, k, LOCAL_DATA)
    ensures var p, after := c.peers[k].value, DataRequested(c, k, formatId, env);
      var second := Key(LOCAL_DATA, c.nextRequestId, p.id, p.generation, 0, 0);
      && after.0 == State && !Busy(after.1, k, LOCAL_DATA)
      && after.1.out == c.out +
           [Dropped(KeyAt(c, k, LOCAL_DATA), Overlapped), Opened(second), Answered(second, false, [])]
  {
  }
}
