/**
  Which operations of the clipboard runtime end without an answer or a delivery: exactly which
  step takes which of them away, and that over every run all others are answered once.
 */
module ClipboardLosses {
  import opened Status
  import opened Tally
  import opened ClipboardModel
  import opened ClipboardInvariants
  import opened ClipboardRuns

  function LostKey(o: Out): multiset<Key> { if o.Dropped? then multiset{o.key} else multiset{} }

  /** Answered to the client or delivered to the platform. */
  function RepliedKey(o: Out): multiset<Key> { if o.Answered? || o.Wrote? then multiset{o.key} else multiset{} }

  /** Operations that have ended without either. */
  function Lost(c: Clip): multiset<Key> { Bag(c.out, LostKey) }

  // --- Totals over the history ---

  lemma EmitTally<X>(c: Clip, o: Out, f: Out -> multiset<X>)
    ensures Bag(Emit(c, o).out, f) == Bag(c.out, f) + f(o)
  {
    BagAppend(c.out, [o], f);
    assert [o][1..] == [];
    assert Bag([o][1..], f) == multiset{};
  }

  lemma CloseTally<X>(c: Clip, k: nat, kind: nat, close: Key -> Out, f: Out -> multiset<X>)
    ensures Bag(Close(c, k, kind, close).out, f) ==
      Bag(c.out, f) + (if Busy(c, k, kind) then f(close(KeyAt(c, k, kind))) else multiset{})
  {
    if Busy(c, k, kind) {
      EmitTally(c, close(KeyAt(c, k, kind)), f);
    }
  }

  /** Closing in this way adds nothing to the total. */
  ghost predicate Silent<X(!new)>(close: Key -> Out, f: Out -> multiset<X>)
  { forall key :: f(close(key)) == multiset{} }

  lemma {:induction false} CloseRangeTally<X(!new)>(c: Clip, k: nat, from: nat, n: nat,
                                                    close: Key -> Out, f: Out -> multiset<X>)
    requires Silent(close, f)
    ensures Bag(CloseRange(c, k, from, n, close).out, f) == Bag(c.out, f)
  {
    if n > from {
      CloseRangeTally(c, k, from, n - 1, close, f);
      CloseTally(CloseRange(c, k, from, n - 1, close), k, n - 1, close, f);
    }
  }

  ghost predicate SilentSweep<X(!new)>(sweep: Sweep, f: Out -> multiset<X>) {
    match sweep
    case LocalCopy => Silent(Refusal(), f) && Silent(CancelWrite(), f)
    case NewOffer => Silent(CancelWrite(), f)
    case Revoking(_) => Silent(Drop(Withdrawn), f) && Silent(Drop(PeerCancelled), f)
  }

  lemma {:induction false} ReportsTally<X(!new)>(c: Clip, k: nat, kinds: seq<Option<nat>>, f: Out -> multiset<X>)
    requires Silent(Drop(PeerCancelled), f)
    ensures Bag(Reports(c, k, kinds).out, f) == Bag(c.out, f)
  {
    if kinds != [] {
      var before, last := Reports(c, k, kinds[..|kinds| - 1]), kinds[|kinds| - 1];
      ReportsTally(c, k, kinds[..|kinds| - 1], f);
      if Remote(last) {
        CloseTally(before, k, last.value, Drop(PeerCancelled), f);
      }
    }
  }

  lemma CancelAllTally<X(!new)>(c: Clip, k: nat, hook: Hook, why: Why, f: Out -> multiset<X>)
    requires Silent(Drop(PeerCancelled), f) && Silent(Drop(why), f)
    ensures Bag(DropAll(CancelAt(c, k, hook), k, why).out, f) == Bag(c.out, f)
  {
    if Live(c, k) {
      ReportsTally(c, k, hook(c.peers[k].value.id), f);
    }
    CloseRangeTally(CancelAt(c, k, hook), k, LOCAL_DATA, KINDS, Drop(why), f);
  }

  lemma CloseForTally<X(!new)>(c: Clip, k: nat, sweep: Sweep, f: Out -> multiset<X>)
    requires SilentSweep(sweep, f)
    ensures Bag(CloseFor(c, k, sweep).out, f) == Bag(c.out, f)
  {
    match sweep
    case LocalCopy =>
      CloseRangeTally(c, k, LOCAL_DATA, REMOTE_DATA, Refusal(), f);
      CloseRangeTally(CancelLocal(c, k), k, REMOTE_DATA, KINDS, CancelWrite(), f);
    case NewOffer => CloseRangeTally(c, k, REMOTE_DATA, KINDS, CancelWrite(), f);
    case Revoking(hook) => CancelAllTally(c, k, hook, Withdrawn, f);
  }

  lemma {:induction false} SweepTally<X(!new)>(c: Clip, n: nat, sweep: Sweep, f: Out -> multiset<X>)
    requires SilentSweep(sweep, f)
    ensures Bag(SweepTo(c, n, sweep).out, f) == Bag(c.out, f)
  {
    if n > 0 {
      SweepTally(c, n - 1, sweep, f);
      CloseForTally(SweepTo(c, n - 1, sweep), n - 1, sweep, f);
    }
  }

  // --- Dropping moves operations from pending to lost ---

  /** What was pending or lost is pending or lost. */
  ghost predicate Sinks(c: Clip, r: Clip) { Lost(r) + Held(r) == Lost(c) + Held(c) }

  lemma SinksThen(a: Clip, b: Clip, c: Clip)
    requires Sinks(a, b) && Sinks(b, c)
    ensures Sinks(a, c)
  {
  }

  lemma CloseSinks(c: Clip, k: nat, kind: nat, why: Why)
    ensures Sinks(c, Close(c, k, kind, Drop(why)))
  {
    if Busy(c, k, kind) {
      var key := KeyAt(c, k, kind);
      var logged, r := Emit(c, Dropped(key, why)), Close(c, k, kind, Drop(why));
      EmitTally(c, Dropped(key, why), LostKey);
      SlotChange(logged, k, kind, Empty);
      assert Held(r) == Held(SetSlot(logged, k, kind, Empty));
      assert Held(r) + multiset{key} == Held(c) + multiset{};
      forall x ensures (Lost(r) + Held(r))[x] == (Lost(c) + Held(c))[x] {
        assert (Held(r) + multiset{key})[x] == (Held(c) + multiset{})[x];
      }
    }
  }

  lemma {:induction false} CloseRangeSinks(c: Clip, k: nat, from: nat, n: nat, why: Why)
    ensures Sinks(c, CloseRange(c, k, from, n, Drop(why)))
  {
    if n > from {
      var before := CloseRange(c, k, from, n - 1, Drop(why));
      CloseRangeSinks(c, k, from, n - 1, why);
      CloseSinks(before, k, n - 1, why);
      SinksThen(c, before, Close(before, k, n - 1, Drop(why)));
    }
  }

  lemma {:induction false} ReportsSink(c: Clip, k: nat, kinds: seq<Option<nat>>)
    ensures Sinks(c, Reports(c, k, kinds))
  {
    if kinds != [] {
      var before, last := Reports(c, k, kinds[..|kinds| - 1]), kinds[|kinds| - 1];
      ReportsSink(c, k, kinds[..|kinds| - 1]);
      if Remote(last) {
        CloseSinks(before, k, last.value, PeerCancelled);
      }
      SinksThen(c, before, Report(before, k, last));
    }
  }

  lemma CancelAllSinks(c: Clip, k: nat, hook: Hook, why: Why)
    requires Live(c, k)
    ensures Sinks(c, DropAll(CancelAt(c, k, hook), k, why))
  {
    var cancelled := CancelAt(c, k, hook);
    ReportsSink(c, k, hook(c.peers[k].value.id));
    CloseRangeSinks(cancelled, k, LOCAL_DATA, KINDS, why);
    SinksThen(c, cancelled, DropAll(cancelled, k, why));
  }

  lemma RevokePeerSinks(c: Clip, k: nat, hook: Hook)
    ensures Sinks(c, SweepPeer(c, k, Revoking(hook)))
  {
    if Live(c, k) {
      var closed := CloseFor(c, k, Revoking(hook));
      CancelAllSinks(c, k, hook, Withdrawn);
      CancelAllShrinks(c, k, hook, Withdrawn);
      SamePeerKeys(closed, SettleAt(closed, k, Revoking(hook)), k);
    }
  }

  lemma {:induction false} RevokeSinks(c: Clip, n: nat, hook: Hook)
    ensures Sinks(c, SweepTo(c, n, Revoking(hook)))
  {
    if n > 0 {
      var before := SweepTo(c, n - 1, Revoking(hook));
      RevokeSinks(c, n - 1, hook);
      SinksFurther(c, before, n - 1, hook);
      assert SweepTo(c, n, Revoking(hook)) == SweepPeer(before, n - 1, Revoking(hook));
    }
  }

  lemma SinksFurther(c: Clip, before: Clip, k: nat, hook: Hook)
    requires Sinks(c, before)
    ensures Sinks(c, SweepPeer(before, k, Revoking(hook)))
  {
    RevokePeerSinks(before, k, hook);
    SinksThen(c, before, SweepPeer(before, k, Revoking(hook)));
  }

  /** A revocation loses exactly what was pending, whatever the protocol reports meanwhile. */
  lemma RevokeLoses(c: Clip, hook: Hook)
    ensures Lost(Revoke(c, hook)) == Lost(c) + Held(c)
  {
    var r := SweepTo(c, |c.peers|, Revoking(hook));
    RevokeSinks(c, |c.peers|, hook);
    SweepSwept(c, |c.peers|, Revoking(hook));
    forall k | 0 <= k < |r.peers| ensures PeerKeys(r.peers[k]) == multiset{} {
      SweptHoldsNothing(r.peers[k], hook);
    }
    BagEmpty(r.peers, PeerKeys);
  }

  lemma SweptHoldsNothing(slot: Option<Peer>, hook: Hook)
    requires Swept(slot, Revoking(hook))
    ensures PeerKeys(slot) == multiset{}
  {
    if slot.Some? {
      forall i | 0 <= i < KINDS ensures slot.value.slots[i].Empty? {
        assert Sweeps(Revoking(hook), i);
      }
      BagEmpty(slot.value.slots, KeysOf(slot.value));
    }
  }

  /** Dropping all of a peer's operations loses exactly those, in whichever order. */
  lemma CancelAllLoses(c: Clip, k: nat, hook: Hook, why: Why)
    requires Live(c, k)
    ensures Lost(DropAll(CancelAt(c, k, hook), k, why)) == Lost(c) + PeerKeys(c.peers[k])
  {
    var r := DropAll(CancelAt(c, k, hook), k, why);
    CancelAllSinks(c, k, hook, why);
    CancelAllShrinks(c, k, hook, why);
    ReportsOthers(c, k, hook(c.peers[k].value.id));
    CloseRangeOthers(CancelAt(c, k, hook), k, LOCAL_DATA, KINDS, Drop(why));
    EmptiedLoses(c, r, k);
  }

  lemma EmptiedLoses(c: Clip, r: Clip, k: nat)
    requires Live(c, k) && Live(r, k) && Sinks(c, r) && r.peers == c.peers[k := r.peers[k]]
    requires forall i: nat | i < KINDS :: !Busy(r, k, i)
    ensures Lost(r) == Lost(c) + PeerKeys(c.peers[k])
  {
    forall i | 0 <= i < KINDS ensures r.peers[k].value.slots[i].Empty? {
      assert !Busy(r, k, i);
    }
    NoKeys(r.peers[k].value);
    BagUpdate(c.peers, k, r.peers[k], PeerKeys);
    assert Held(r) + PeerKeys(c.peers[k]) == Held(c) + PeerKeys(r.peers[k]);
    forall x ensures Lost(r)[x] == (Lost(c) + PeerKeys(c.peers[k]))[x] {
      assert (Lost(r) + Held(r))[x] == (Lost(c) + Held(c))[x];
      assert (Held(r) + PeerKeys(c.peers[k]))[x] == (Held(c) + PeerKeys(r.peers[k]))[x];
    }
  }

  lemma {:induction false} ReportsOthers(c: Clip, k: nat, kinds: seq<Option<nat>>)
    requires k < |c.peers|
    ensures var r := Reports(c, k, kinds);
      |r.peers| == |c.peers| && r.peers == c.peers[k := r.peers[k]]
  {
    if kinds != [] {
      ReportsOthers(c, k, kinds[..|kinds| - 1]);
    }
  }

  lemma {:induction false} CloseRangeOthers(c: Clip, k: nat, from: nat, n: nat, close: Key -> Out)
    requires k < |c.peers|
    ensures var r := CloseRange(c, k, from, n, close);
      |r.peers| == |c.peers| && r.peers == c.peers[k := r.peers[k]]
  {
    if n > from {
      CloseRangeOthers(c, k, from, n - 1, close);
    }
  }

  // --- Which operations a step loses ---

  function WhenBusy(c: Clip, k: nat, kind: nat): multiset<Key> {
    if Busy(c, k, kind) then multiset{KeyAt(c, k, kind)} else multiset{}
  }

  /** A file request the runtime would serve if it had a slot. */
  predicate Serveable(c: Clip, ask: FileAsk) {
    GoodFlags(ask.flags) && ask.requested <= c.cfg.maxRange && HasClass(c.localFormats, UriList)
  }

  /** The client answers a pending operation with more than it may. */
  predicate TooBig(c: Clip, k: nat, kind: nat, reply: Reply) {
    Busy(c, k, kind) && |reply.data| > SlotAt(c, k, kind).max
  }

  function InputVictims(c: Clip, k: nat, input: Input): multiset<Key>
    requires Live(c, k)
  {
    var p := c.peers[k].value;
    match input
    case DataAsked(formatId) => if HasId(c.localFormats, formatId) then WhenBusy(c, k, LOCAL_DATA) else multiset{}
    case FileAsked(ask) =>
      if Serveable(c, ask) && BeginStatus(c, k, LOCAL_FILE) != Ok
      then multiset{Key(LOCAL_FILE, c.nextRequestId, p.id, p.generation, ask.streamId, 0)}
      else multiset{}
    case DataReplied(reply) => if TooBig(c, k, REMOTE_DATA, reply) then WhenBusy(c, k, REMOTE_DATA) else multiset{}
    case FileReplied(reply) =>
      if TooBig(c, k, REMOTE_FILE, reply) && SlotAt(c, k, REMOTE_FILE).streamId == reply.streamId
      then WhenBusy(c, k, REMOTE_FILE)
      else multiset{}
    case WorkCancelled(kind) =>
      if Remote(kind) then WhenBusy(c, k, kind.value) else multiset{}
    case _ => multiset{}
  }

  /** A request that takes its slot but cannot be sent. */
  function Unsent(c: Clip, p: Peer, q: Slot, ownership: nat, env: Env): multiset<Key>
    requires q.Slot?
  {
    var key := KeyOf(p.id, p.generation, ownership, q);
    if env(SendRequest(key, q.formatId)) != Ok then multiset{key} else multiset{}
  }

  function RequestVictims(c: Clip, r: Request, env: Env): multiset<Key> {
    match FindPeer(c.peers, r.peerId, r.generation)
    case None => multiset{}
    case Some(k) =>
      var p := c.peers[k].value;
      if r.requestId == 0 || !Current(c, p, r.ownership) || !HasId(p.formats, r.formatId) then multiset{}
      else if BeginStatus(c, k, REMOTE_DATA) != Ok then WhenBusy(c, k, REMOTE_DATA)
      else Unsent(c, p, Slot(REMOTE_DATA, r.requestId, r.formatId, 0, c.cfg.maxData, []), r.ownership, env)
  }

  function FileVictims(c: Clip, r: Request, env: Env): multiset<Key> {
    match FindPeer(c.peers, r.peerId, r.generation)
    case None => multiset{}
    case Some(k) =>
      var p := c.peers[k].value;
      if r.requestId == 0 || r.streamId == 0 || r.requested > c.cfg.maxRange || !GoodFlags(r.flags) ||
         !Current(c, p, r.ownership) || !HasClass(p.formats, UriList) || BeginStatus(c, k, REMOTE_FILE) != Ok
      then multiset{}
      else
        Unsent(c, p, Slot(REMOTE_FILE, r.requestId, 0, r.streamId, RangeLimit(c.cfg, r.requested), []),
               r.ownership, env)
  }

  /** The protocol reports this kind of the peer's work as cancelled, and is heard. */
  predicate Reported(p: Peer, kinds: seq<Option<nat>>, kind: nat) { p.ready && Some(kind) in kinds }

  /** What a cancellation of the operation of one kind takes of another: all of it if the protocol says so. */
  function Taken(c: Clip, k: nat, kinds: seq<Option<nat>>, named: Option<nat>, kind: nat): multiset<Key> {
    if Live(c, k) && (named == Some(kind) || Reported(c.peers[k].value, kinds, kind)) then WhenBusy(c, k, kind)
    else multiset{}
  }

  function CancelVictims(c: Clip, id: nat, generation: nat, ownership: nat, requestId: nat, hook: Hook)
    : multiset<Key>
  {
    match FindPeer(c.peers, id, generation)
    case None => multiset{}
    case Some(k) =>
      var p := c.peers[k].value;
      var named := RemoteKind(p.slots, requestId);
      if ownership == 0 || requestId == 0 || !Current(c, p, ownership) || named.None? then multiset{}
      else Taken(c, k, hook(id), named, REMOTE_DATA) + Taken(c, k, hook(id), named, REMOTE_FILE)
  }

  /** Whether the runtime looks at a protocol event at all. */
  predicate Heard(p: Peer, channel: nat, input: Input) { p.ready && (input.WorkCancelled? || channel == p.channel) }

  /** The operations a step ends without an answer or a delivery, in terms of the state before it. */
  function Victims(c: Clip, step: Step): multiset<Key> {
    match step
    case PeerRemoved(id, generation, _) =>
      (match FindPeer(c.peers, id, generation)
       case None => multiset{}
       case Some(k) => PeerKeys(c.peers[k]))
    case Protocol(id, generation, channel, input, env) =>
      (match FindPeer(c.peers, id, generation)
       case None => multiset{}
       case Some(k) => if Heard(c.peers[k].value, channel, input) then InputVictims(c, k, input) else multiset{})
    case Requested(request, env) => RequestVictims(c, request, env)
    case FileWanted(request, env) => FileVictims(c, request, env)
    case CancelWanted(id, generation, ownership, requestId, _, hook) =>
      CancelVictims(c, id, generation, ownership, requestId, hook)
    case Revoked(_) => Held(c)
    case _ => multiset{}
  }

  lemma RefuseLoses(c: Clip, key: Key)
    ensures Lost(Refuse(c, key)) == Lost(c)
  {
    EmitTally(c, Opened(key), LostKey);
    EmitTally(Emit(c, Opened(key)), Answered(key, false, []), LostKey);
  }

  lemma StartLocalLoses(c: Clip, k: nat, q: Slot, asked: Status)
    requires Live(c, k) && q.Slot? && q.kind < KINDS
    ensures Lost(StartLocal(c, k, q, asked)) == Lost(c)
  {
    var logged := Emit(c, Opened(KeyFor(c.peers[k].value, q)));
    EmitTally(c, Opened(KeyFor(c.peers[k].value, q)), LostKey);
    CloseTally(Begin(logged, k, q.kind, q), k, q.kind, Refusal(), LostKey);
  }

  lemma OverlapLoses(c: Clip, k: nat, kind: nat, key: Key)
    ensures Lost(Refuse(Close(Numbered(c), k, kind, Drop(Overlapped)), key)) == Lost(c) + WhenBusy(c, k, kind)
  {
    CloseTally(Numbered(c), k, kind, Drop(Overlapped), LostKey);
    RefuseLoses(Close(Numbered(c), k, kind, Drop(Overlapped)), key);
  }

  lemma AbandonLoses(c: Clip, key: Key)
    ensures Lost(Abandon(c, key)) == Lost(c) + multiset{key}
  {
    EmitTally(c, Opened(key), LostKey);
    EmitTally(Emit(c, Opened(key)), Dropped(key, NotStarted), LostKey);
  }

  lemma DataRequestedLoses(c: Clip, k: nat, formatId: nat, env: Env)
    requires Live(c, k)
    ensures Lost(DataRequested(c, k, formatId, env).1) == Lost(c) + InputVictims(c, k, DataAsked(formatId))
  {
    var p := c.peers[k].value;
    if !HasId(c.localFormats, formatId) {
      RefuseLoses(c, Key(LOCAL_DATA, 0, p.id, p.generation, 0, 0));
    } else {
      var q := Slot(LOCAL_DATA, c.nextRequestId, formatId, 0, c.cfg.maxData, []);
      DataStartedLoses(c, k, q, env(RequestData(q.requestId, formatId)));
    }
  }

  lemma DataStartedLoses(c: Clip, k: nat, q: Slot, asked: Status)
    requires Live(c, k) && q.Slot? && q.kind < KINDS
    ensures Lost(DataStarted(c, k, q, asked).1) == Lost(c) + WhenBusy(c, k, q.kind)
  {
    if BeginStatus(c, k, q.kind) != Ok {
      OverlapLoses(c, k, q.kind, KeyFor(c.peers[k].value, q));
    } else {
      StartLocalLoses(Numbered(c), k, q, asked);
    }
  }

  /** A request that finds no slot. */
  function Homeless(c: Clip, k: nat, q: Slot): multiset<Key>
    requires Live(c, k) && q.Slot?
  {
    if BeginStatus(c, k, q.kind) != Ok then multiset{KeyFor(c.peers[k].value, q)} else multiset{}
  }

  lemma FileStartedLoses(c: Clip, k: nat, q: Slot, asked: Status)
    requires Live(c, k) && q.Slot? && q.kind < KINDS
    ensures Lost(FileStarted(c, k, q, asked).1) == Lost(c) + Homeless(c, k, q)
  {
    if BeginStatus(c, k, q.kind) != Ok {
      AbandonLoses(Numbered(c), KeyFor(c.peers[k].value, q));
    } else {
      StartLocalLoses(Numbered(c), k, q, asked);
    }
  }

  lemma FileRequestedLoses(c: Clip, k: nat, ask: FileAsk, env: Env)
    requires Live(c, k)
    ensures Lost(FileRequested(c, k, ask, env).1) == Lost(c) + InputVictims(c, k, FileAsked(ask))
  {
    var p := c.peers[k].value;
    if !Serveable(c, ask) {
      RefuseLoses(c, Key(LOCAL_FILE, 0, p.id, p.generation, ask.streamId, 0));
    } else {
      var q := Slot(LOCAL_FILE, c.nextRequestId, 0, ask.streamId, RangeLimit(c.cfg, ask.requested), []);
      FileStartedLoses(c, k, q, env(RequestFile(q.requestId, p.id, p.generation, c.localGeneration, ask.streamId)));
    }
  }

  lemma DeliverLoses(c: Clip, k: nat, kind: nat, reply: Reply, env: Env)
    requires Busy(c, k, kind)
    ensures Lost(Deliver(c, k, kind, reply, env).1) ==
      Lost(c) + (if TooBig(c, k, kind, reply) then WhenBusy(c, k, kind) else multiset{})
  {
    if TooBig(c, k, kind, reply) {
      CloseTally(c, k, kind, Drop(Oversized), LostKey);
    } else {
      var status, data := if reply.success then Ok else ProtocolError, if reply.success then reply.data else [];
      CloseTally(c, k, kind, key => Wrote(key, status, data), LostKey);
    }
  }

  lemma OfferLoses(c: Clip, k: nat, kept: seq<Format>, taken: bool)
    ensures Lost(Offer(c, k, kept, taken)) == Lost(c)
  {
    SweepTally(NextGeneration(c), |c.peers|, NewOffer, LostKey);
  }

  lemma PublishLoses(c: Clip, k: nat, formats: seq<Offered>, env: Env)
    requires Live(c, k)
    ensures Lost(Publish(c, k, formats, env).1) == Lost(c)
  {
    var kept := Filtered(c.cfg, formats, |formats|, false);
    if kept.Some? {
      var p := c.peers[k].value;
      OfferLoses(c, k, kept.value, env(PublishFormats(p.id, p.generation, c.nextOwnership + 1, kept.value)) == Ok);
    }
  }

  lemma DataRepliedLoses(c: Clip, k: nat, reply: Reply, env: Env)
    requires Live(c, k)
    ensures Lost(PeerInput(c, k, DataReplied(reply), env).1) == Lost(c) + InputVictims(c, k, DataReplied(reply))
  {
    if Busy(c, k, REMOTE_DATA) {
      DeliverLoses(c, k, REMOTE_DATA, reply, env);
    }
  }

  lemma FileRepliedLoses(c: Clip, k: nat, reply: Reply, env: Env)
    requires Live(c, k)
    ensures Lost(PeerInput(c, k, FileReplied(reply), env).1) == Lost(c) + InputVictims(c, k, FileReplied(reply))
  {
    if Busy(c, k, REMOTE_FILE) && SlotAt(c, k, REMOTE_FILE).streamId == reply.streamId {
      DeliverLoses(c, k, REMOTE_FILE, reply, env);
    }
  }

  lemma WorkCancelledLoses(c: Clip, k: nat, kind: Option<nat>, env: Env)
    requires Live(c, k)
    ensures Lost(PeerInput(c, k, WorkCancelled(kind), env).1) == Lost(c) + InputVictims(c, k, WorkCancelled(kind))
  {
    if kind.Some? {
      CloseTally(c, k, kind.value, Drop(PeerCancelled), LostKey);
    }
  }

  lemma PeerInputLoses(c: Clip, k: nat, input: Input, env: Env)
    requires Live(c, k)
    ensures Lost(PeerInput(c, k, input, env).1) == Lost(c) + InputVictims(c, k, input)
  {
    match input {
      case ListOffered(formats) => PublishLoses(c, k, formats, env);
      case DataAsked(formatId) => DataRequestedLoses(c, k, formatId, env);
      case DataReplied(reply) => DataRepliedLoses(c, k, reply, env);
      case FileAsked(ask) => FileRequestedLoses(c, k, ask, env);
      case FileReplied(reply) => FileRepliedLoses(c, k, reply, env);
      case WorkCancelled(kind) => WorkCancelledLoses(c, k, kind, env);
      case _ =>
    }
  }

  lemma ProtocolLoses(c: Clip, id: nat, generation: nat, channel: nat, input: Input, env: Env)
    ensures Lost(ProtocolEvent(c, id, generation, channel, input, env).1)
      == Lost(c) + Victims(c, Protocol(id, generation, channel, input, env))
  {
    var found := FindPeer(c.peers, id, generation);
    if found.Some? {
      PeerInputLoses(c, found.value, input, env);
    }
  }

  lemma StartRemoteLoses(c: Clip, k: nat, q: Slot, ownership: nat, env: Env)
    requires Live(c, k) && q.Slot? && q.kind < KINDS && ownership == OwnerAt(c, k)
    ensures Lost(StartRemote(c, k, q, ownership, env).1) == Lost(c) + Unsent(c, c.peers[k].value, q, ownership, env)
  {
    var p := c.peers[k].value;
    var logged := Emit(c, Opened(KeyFor(p, q)));
    EmitTally(c, Opened(KeyFor(p, q)), LostKey);
    CloseTally(Begin(logged, k, q.kind, q), k, q.kind, Drop(NotSent), LostKey);
  }

  lemma RequestLoses(c: Clip, r: Request, env: Env)
    ensures Lost(PlatformRequest(c, r, env).1) == Lost(c) + RequestVictims(c, r, env)
  {
    var found := FindPeer(c.peers, r.peerId, r.generation);
    if r.requestId != 0 && found.Some? {
      var k := found.value;
      if Current(c, c.peers[k].value, r.ownership) && HasId(c.peers[k].value.formats, r.formatId) {
        if BeginStatus(c, k, REMOTE_DATA) != Ok {
          CloseTally(c, k, REMOTE_DATA, Drop(Overlapped), LostKey);
        } else {
          StartRemoteLoses(c, k, Slot(REMOTE_DATA, r.requestId, r.formatId, 0, c.cfg.maxData, []), r.ownership, env);
        }
      }
    }
  }

  lemma FileRequestLoses(c: Clip, r: Request, env: Env)
    ensures Lost(PlatformFileRequest(c, r, env).1) == Lost(c) + FileVictims(c, r, env)
  {
    var found := FindPeer(c.peers, r.peerId, r.generation);
    if found.Some? {
      var k := found.value;
      if Current(c, c.peers[k].value, r.ownership) && BeginStatus(c, k, REMOTE_FILE) == Ok {
        var q := Slot(REMOTE_FILE, r.requestId, 0, r.streamId, RangeLimit(c.cfg, r.requested), []);
        StartRemoteLoses(c, k, q, r.ownership, env);
      }
    }
  }

  /** Reports close just the operations they name. */
  lemma {:induction false} ReportsSlots(c: Clip, k: nat, kinds: seq<Option<nat>>, kind: nat)
    requires Live(c, k) && REMOTE_DATA <= kind < KINDS
    ensures var r, p := Reports(c, k, kinds), c.peers[k].value;
      && Live(r, k) && r.peers[k].value == p.(slots := r.peers[k].value.slots)
      && r.peers[k].value.slots[kind] == if Reported(p, kinds, kind) then Empty else p.slots[kind]
  {
    if kinds != [] {
      ReportsSlots(c, k, kinds[..|kinds| - 1], kind);
      assert kinds == kinds[..|kinds| - 1] + [kinds[|kinds| - 1]];
    }
  }

  lemma {:induction false} ReportsLose(c: Clip, k: nat, kinds: seq<Option<nat>>)
    requires Live(c, k)
    ensures Lost(Reports(c, k, kinds)) ==
      Lost(c) + Taken(c, k, kinds, None, REMOTE_DATA) + Taken(c, k, kinds, None, REMOTE_FILE)
  {
    if kinds != [] {
      var first, last := kinds[..|kinds| - 1], kinds[|kinds| - 1];
      ReportsLose(c, k, first);
      ReportLoses(c, Reports(c, k, first), k, first, last);
      assert kinds == first + [last];
    }
  }

  /** One more report takes what it names, if that is still there. */
  lemma TakenMore(c: Clip, r: Clip, k: nat, kinds: seq<Option<nat>>, last: Option<nat>, kind: nat)
    requires Live(c, k) && r == Reports(c, k, kinds) && REMOTE_DATA <= kind < KINDS
    ensures Live(r, k) && r.peers[k].value.ready == c.peers[k].value.ready
    ensures Taken(c, k, kinds + [last], None, kind) == Taken(c, k, kinds, None, kind) + Taken(r, k, [last], None, kind)
  {
    ReportsSlots(c, k, kinds, kind);
    assert Reported(c.peers[k].value, kinds + [last], kind) <==>
      Reported(c.peers[k].value, kinds, kind) || Reported(c.peers[k].value, [last], kind);
    assert Busy(r, k, kind) ==> KeyAt(r, k, kind) == KeyAt(c, k, kind);
  }

  lemma OneReport(r: Clip, k: nat, last: Option<nat>)
    requires Live(r, k)
    ensures Lost(Report(r, k, last)) ==
      Lost(r) + (Taken(r, k, [last], None, REMOTE_DATA) + Taken(r, k, [last], None, REMOTE_FILE))
  {
    if Remote(last) {
      CloseTally(r, k, last.value, Drop(PeerCancelled), LostKey);
    }
  }

  lemma ReportLoses(c: Clip, r: Clip, k: nat, kinds: seq<Option<nat>>, last: Option<nat>)
    requires Live(c, k) && r == Reports(c, k, kinds)
    requires Lost(r) == Lost(c) + Taken(c, k, kinds, None, REMOTE_DATA) + Taken(c, k, kinds, None, REMOTE_FILE)
    ensures Lost(Report(r, k, last)) ==
      Lost(c) + Taken(c, k, kinds + [last], None, REMOTE_DATA) + Taken(c, k, kinds + [last], None, REMOTE_FILE)
  {
    TakenMore(c, r, k, kinds, last, REMOTE_DATA);
    TakenMore(c, r, k, kinds, last, REMOTE_FILE);
    OneReport(r, k, last);
    Shuffle(Lost(c), Taken(c, k, kinds, None, REMOTE_DATA), Taken(c, k, kinds, None, REMOTE_FILE),
            Taken(r, k, [last], None, REMOTE_DATA), Taken(r, k, [last], None, REMOTE_FILE));
  }

  lemma Shuffle(all: multiset<Key>, a: multiset<Key>, b: multiset<Key>, x: multiset<Key>, y: multiset<Key>)
    ensures (all + a + b) + (x + y) == all + (a + x) + (b + y)
  {
  }

  lemma CancelLoses(c: Clip, id: nat, generation: nat, ownership: nat, requestId: nat, env: Env, hook: Hook)
    ensures Lost(PlatformCancel(c, id, generation, ownership, requestId, env, hook).1)
      == Lost(c) + CancelVictims(c, id, generation, ownership, requestId, hook)
  {
    var found := FindPeer(c.peers, id, generation);
    if found.Some? {
      var kind := RemoteKind(c.peers[found.value].value.slots, requestId);
      if kind.Some? {
        NamedLoses(c, found.value, kind.value, hook);
      }
    }
  }

  lemma NamedLoses(c: Clip, k: nat, kind: nat, hook: Hook)
    requires Live(c, k) && REMOTE_DATA <= kind < KINDS
    ensures var kinds := hook(c.peers[k].value.id);
      Lost(Close(CancelAt(c, k, hook), k, kind, Drop(PlatformCancelled))) ==
        Lost(c) + (Taken(c, k, kinds, Some(kind), REMOTE_DATA) + Taken(c, k, kinds, Some(kind), REMOTE_FILE))
  {
    var kinds := hook(c.peers[k].value.id);
    ReportsLose(c, k, kinds);
    ReportsSlots(c, k, kinds, kind);
    CloseTally(CancelAt(c, k, hook), k, kind, Drop(PlatformCancelled), LostKey);
  }

  lemma AccumulateLoses(c: Clip, k: nat, kind: nat, chunk: Chunk, env: Env)
    requires Busy(c, k, kind)
    ensures Lost(Accumulate(c, k, kind, chunk, env).1) == Lost(c)
  {
    var data := SlotAt(c, k, kind).data + chunk.bytes;
    CloseTally(c, k, kind, Refusal(), LostKey);
    CloseTally(c, k, kind, key => Answered(key, true, data), LostKey);
  }

  lemma ChunkLoses(c: Clip, chunk: Chunk, env: Env)
    ensures Lost(PlatformData(c, chunk, env).1) == Lost(c)
  {
    var found := FindLocal(c, chunk.peerId, chunk.generation, chunk.requestId);
    if found.Some? {
      var kind := ChunkKind(c.peers[found.value].value.slots, chunk.requestId);
      if kind.Some? {
        AccumulateLoses(c, found.value, kind.value, chunk, env);
      }
    }
  }

  lemma RemoveLoses(c: Clip, id: nat, generation: nat, hook: Hook)
    ensures Lost(RemovePeer(c, id, generation, hook)) == Lost(c) + Victims(c, PeerRemoved(id, generation, hook))
  {
    var found := FindPeer(c.peers, id, generation);
    if found.Some? {
      CancelAllLoses(c, found.value, hook, PeerGone);
    }
  }

  lemma CopyLoses(c: Clip, formats: seq<Offered>, generation: nat, env: Env)
    ensures Lost(PlatformFormats(c, formats, generation, env).1) == Lost(c)
  {
    SweepTally(c, |c.peers|, LocalCopy, LostKey);
  }

  /** Every step ends exactly its victims unanswered, and no other operation. */
  lemma StepLoses(c: Clip, step: Step)
    ensures Lost(Apply(c, step).1) == Lost(c) + Victims(c, step)
  {
    match step
    case Requested(request, env) => RequestLoses(c, request, env);
    case FileWanted(request, env) => FileRequestLoses(c, request, env);
    case Supplied(chunk, env) => ChunkLoses(c, chunk, env);
    case Copied(formats, copy, env) => CopyLoses(c, formats, copy, env);
    case _ => ComesOrGoesLoses(c, step);
  }

  lemma ComesOrGoesLoses(c: Clip, step: Step)
    requires !step.Requested? && !step.FileWanted? && !step.Supplied? && !step.Copied?
    ensures Lost(Apply(c, step).1) == Lost(c) + Victims(c, step)
  {
    match step
    case PeerAdded(_, _) =>
    case PeerRemoved(id, generation, hook) => RemoveLoses(c, id, generation, hook);
    case Readied(_, _, _, _) =>
    case Protocol(id, generation, channel, input, env) => ProtocolLoses(c, id, generation, channel, input, env);
    case CancelWanted(id, generation, ownership, requestId, env, hook) =>
      CancelLoses(c, id, generation, ownership, requestId, env, hook);
    case Revoked(hook) => RevokeLoses(c, hook);
  }

  // --- Cancelling one operation ends the other if the protocol reports it ---

  /** The peer's other remote operation. */
  function Other(kind: nat): nat { if kind == REMOTE_DATA then REMOTE_FILE else REMOTE_DATA }

  /**
    Cancelling one of a peer's two remote operations always ends that one unanswered; it ends the
    other as well if and only if the protocol reports it as cancelled and the channel is ready.
   */
  lemma CancelTakesOtherIff(c: Clip, k: nat, generation: nat, requestId: nat, env: Env, hook: Hook)
    requires Inv(c) && Live(c, k) && OwnerAt(c, k) == c.published != 0 && requestId != 0
    requires FindPeer(c.peers, c.peers[k].value.id, generation) == Some(k)
    requires var named := RemoteKind(c.peers[k].value.slots, requestId);
      named.Some? && Busy(c, k, Other(named.value))
    ensures var p := c.peers[k].value;
      var kind, r := RemoteKind(p.slots, requestId).value,
                     PlatformCancel(c, p.id, generation, c.published, requestId, env, hook).1;
      var named, other := KeyAt(c, k, kind), KeyAt(c, k, Other(kind));
      && !Busy(r, k, kind) && Lost(r)[named] == Lost(c)[named] + 1
      && (Lost(r)[other] == Lost(c)[other] + 1 <==> Reported(p, hook(p.id), Other(kind)))
      && (Busy(r, k, Other(kind)) <==> !Reported(p, hook(p.id), Other(kind)))
  {
    var p := c.peers[k].value;
    var kind := RemoteKind(p.slots, requestId).value;
    NamedLoses(c, k, kind, hook);
    NamedCloses(c, k, kind, hook);
    TakenCounts(c, k, hook(p.id), kind);
  }

  lemma NamedCloses(c: Clip, k: nat, kind: nat, hook: Hook)
    requires Live(c, k) && REMOTE_DATA <= kind < KINDS && Busy(c, k, Other(kind))
    ensures var r, p := Close(CancelAt(c, k, hook), k, kind, Drop(PlatformCancelled)), c.peers[k].value;
      !Busy(r, k, kind) && (Busy(r, k, Other(kind)) <==> !Reported(p, hook(p.id), Other(kind)))
  {
    ReportsSlots(c, k, hook(c.peers[k].value.id), Other(kind));
  }

  lemma TakenCounts(c: Clip, k: nat, kinds: seq<Option<nat>>, kind: nat)
    requires Tidy(c) && REMOTE_DATA <= kind < KINDS && Busy(c, k, kind) && Busy(c, k, Other(kind))
    ensures var taken, p :=
        Taken(c, k, kinds, Some(kind), REMOTE_DATA) + Taken(c, k, kinds, Some(kind), REMOTE_FILE), c.peers[k].value;
      && taken[KeyAt(c, k, kind)] == 1
      && taken[KeyAt(c, k, Other(kind))] == if Reported(p, kinds, Other(kind)) then 1 else 0
  {
    assert KeyAt(c, k, kind).kind == kind && KeyAt(c, k, Other(kind)).kind == Other(kind);
  }

  // --- In words: when a step loses something of the client's, and when of the platform's ---

  /** The peer has work pending for the client (`local`) or for the platform. */
  predicate Pends(c: Clip, k: nat, local: bool) {
    if local then Busy(c, k, LOCAL_DATA) || Busy(c, k, LOCAL_FILE)
    else Busy(c, k, REMOTE_DATA) || Busy(c, k, REMOTE_FILE)
  }

  predicate InputLoses(c: Clip, k: nat, input: Input, local: bool) {
    match input
    case DataAsked(formatId) => local && HasId(c.localFormats, formatId) && Busy(c, k, LOCAL_DATA)
    case FileAsked(ask) => local && Serveable(c, ask) && BeginStatus(c, k, LOCAL_FILE) != Ok
    case DataReplied(reply) => !local && TooBig(c, k, REMOTE_DATA, reply)
    case FileReplied(reply) =>
      !local && TooBig(c, k, REMOTE_FILE, reply) && SlotAt(c, k, REMOTE_FILE).streamId == reply.streamId
    case WorkCancelled(kind) => !local && Remote(kind) && Busy(c, k, kind.value)
    case _ => false
  }

  /** A data request at the owner that finds another pending, or that cannot be sent. */
  predicate RequestFails(c: Clip, r: Request, env: Env) {
    var found := FindPeer(c.peers, r.peerId, r.generation);
    && r.requestId != 0 && found.Some?
    && var p := c.peers[found.value].value;
    && Current(c, p, r.ownership) && HasId(p.formats, r.formatId)
    && (|| Busy(c, found.value, REMOTE_DATA)
        || (&& c.pendingCount < c.cfg.maxPending
            && env(SendRequest(Key(REMOTE_DATA, r.requestId, p.id, p.generation, 0, r.ownership), r.formatId)) != Ok))
  }

  /** A well-formed file request at the owner that finds its slot free and cannot be sent. */
  predicate FileRequestFails(c: Clip, r: Request, env: Env) {
    var found := FindPeer(c.peers, r.peerId, r.generation);
    && r.requestId != 0 && r.streamId != 0 && r.requested <= c.cfg.maxRange && GoodFlags(r.flags) && found.Some?
    && var p := c.peers[found.value].value;
    && Current(c, p, r.ownership) && HasClass(p.formats, UriList)
    && !Busy(c, found.value, REMOTE_FILE) && c.pendingCount < c.cfg.maxPending
    && env(SendRequest(Key(REMOTE_FILE, r.requestId, p.id, p.generation, r.streamId, r.ownership), 0)) != Ok
  }

  /** A cancellation that names a pending operation of the owner. */
  predicate CancelEnds(c: Clip, id: nat, generation: nat, ownership: nat, requestId: nat) {
    var found := FindPeer(c.peers, id, generation);
    && ownership != 0 && requestId != 0 && found.Some? && Current(c, c.peers[found.value].value, ownership)
    && RemoteKind(c.peers[found.value].value.slots, requestId).Some?
  }

  /**
    For the client's operations: a known format asked for while one is pending, a servable file
    request without a slot, a removed peer or a revocation with work pending. For the platform's:
    a second request while one is pending or one that cannot be sent, an oversized answer, a
    cancellation by either side, a removed peer or a revocation with work pending.
   */
  ghost predicate Loses(c: Clip, step: Step, local: bool) {
    match step
    case PeerRemoved(id, generation, _) =>
      (var found := FindPeer(c.peers, id, generation); found.Some? && Pends(c, found.value, local))
    case Protocol(id, generation, channel, input, env) =>
      (var found := FindPeer(c.peers, id, generation);
       found.Some? && Heard(c.peers[found.value].value, channel, input) && InputLoses(c, found.value, input, local))
    case Requested(request, env) => !local && RequestFails(c, request, env)
    case FileWanted(request, env) => !local && FileRequestFails(c, request, env)
    case CancelWanted(id, generation, ownership, requestId, _, _) =>
      !local && CancelEnds(c, id, generation, ownership, requestId)
    case Revoked(_) => exists k: nat :: Pends(c, k, local)
    case _ => false
  }

  predicate OfSide(key: Key, local: bool) { key.kind <= LOCAL_FILE <==> local }

  ghost predicate AnyOf(keys: multiset<Key>, local: bool) { exists key :: key in keys && OfSide(key, local) }

  lemma OneKey(key: Key, local: bool)
    ensures AnyOf(multiset{key}, local) <==> OfSide(key, local)
    ensures !AnyOf(multiset{}, local)
  {
    assert key in multiset{key};
  }

  lemma SlotShows(c: Clip, k: nat, i: nat, local: bool)
    requires Tidy(c) && Busy(c, k, i) && (i <= LOCAL_FILE <==> local)
    ensures AnyOf(PeerKeys(c.peers[k]), local)
  {
    var p := c.peers[k].value;
    BagHas(p.slots, i, KeysOf(p), KeyAt(c, k, i));
    assert OfSide(KeyAt(c, k, i), local);
  }

  lemma KeyPends(c: Clip, k: nat, local: bool)
    requires Tidy(c) && Live(c, k) && AnyOf(PeerKeys(c.peers[k]), local)
    ensures Pends(c, k, local)
  {
    var p := c.peers[k].value;
    var key :| key in PeerKeys(c.peers[k]) && OfSide(key, local);
    var i := BagFrom(p.slots, KeysOf(p), key);
    assert Busy(c, k, i) && SlotAt(c, k, i).kind == i;
  }

  lemma PeerSide(c: Clip, k: nat, local: bool)
    requires Tidy(c) && Live(c, k)
    ensures AnyOf(PeerKeys(c.peers[k]), local) <==> Pends(c, k, local)
  {
    if Pends(c, k, local) {
      if local {
        SlotShows(c, k, if Busy(c, k, LOCAL_DATA) then LOCAL_DATA else LOCAL_FILE, local);
      } else {
        SlotShows(c, k, if Busy(c, k, REMOTE_DATA) then REMOTE_DATA else REMOTE_FILE, local);
      }
    } else if AnyOf(PeerKeys(c.peers[k]), local) {
      KeyPends(c, k, local);
    }
  }

  lemma HeldSide(c: Clip, local: bool)
    requires Tidy(c)
    ensures AnyOf(Held(c), local) <==> exists k: nat :: Pends(c, k, local)
  {
    if k: nat :| Pends(c, k, local) {
      PeerSide(c, k, local);
      var key :| key in PeerKeys(c.peers[k]) && OfSide(key, local);
      BagHas(c.peers, k, PeerKeys, key);
    }
    if AnyOf(Held(c), local) {
      var key :| key in Held(c) && OfSide(key, local);
      var k := BagFrom(c.peers, PeerKeys, key);
      PeerSide(c, k, local);
      assert Pends(c, k, local);
    }
  }

  lemma InputSide(c: Clip, k: nat, input: Input, local: bool)
    requires Tidy(c) && Live(c, k)
    ensures AnyOf(InputVictims(c, k, input), local) <==> InputLoses(c, k, input, local)
  {
    var victims := InputVictims(c, k, input);
    if victims != multiset{} {
      var key :| key in victims;
      OneKey(key, local);
      assert victims == multiset{key};
    }
  }

  lemma RequestSide(c: Clip, r: Request, env: Env, local: bool)
    requires Tidy(c)
    ensures AnyOf(RequestVictims(c, r, env), local) <==> !local && RequestFails(c, r, env)
  {
    RemoteOnly(RequestVictims(c, r, env), local);
  }

  lemma FileRequestSide(c: Clip, r: Request, env: Env, local: bool)
    requires Tidy(c)
    ensures AnyOf(FileVictims(c, r, env), local) <==> !local && FileRequestFails(c, r, env)
  {
    RemoteOnly(FileVictims(c, r, env), local);
  }

  lemma RemoteOnly(victims: multiset<Key>, local: bool)
    requires forall key | key in victims :: key.kind >= REMOTE_DATA
    ensures AnyOf(victims, local) <==> !local && victims != multiset{}
  {
    if victims != multiset{} {
      var key :| key in victims;
      assert OfSide(key, false);
    }
  }

  lemma CancelSide(c: Clip, id: nat, generation: nat, ownership: nat, requestId: nat, hook: Hook, local: bool)
    requires Tidy(c)
    ensures AnyOf(CancelVictims(c, id, generation, ownership, requestId, hook), local) <==>
      !local && CancelEnds(c, id, generation, ownership, requestId)
  {
    var victims := CancelVictims(c, id, generation, ownership, requestId, hook);
    RemoteOnly(victims, local);
    if CancelEnds(c, id, generation, ownership, requestId) {
      var k := FindPeer(c.peers, id, generation).value;
      var kind := RemoteKind(c.peers[k].value.slots, requestId).value;
      assert KeyAt(c, k, kind) in victims;
    }
  }

  /** A step ends an operation of that side unanswered if and only if it is one of those named. */
  lemma LostIff(c: Clip, step: Step, local: bool)
    requires Inv(c)
    ensures (exists key :: OfSide(key, local) && Lost(Apply(c, step).1)[key] > Lost(c)[key]) <==> Loses(c, step, local)
  {
    StepLoses(c, step);
    VictimSide(c, step, local);
    if key :| OfSide(key, local) && Lost(Apply(c, step).1)[key] > Lost(c)[key] {
      assert key in Victims(c, step);
    }
    if Loses(c, step, local) {
      var key :| key in Victims(c, step) && OfSide(key, local);
      assert Lost(Apply(c, step).1)[key] > Lost(c)[key];
    }
  }

  lemma VictimSide(c: Clip, step: Step, local: bool)
    requires Inv(c)
    ensures AnyOf(Victims(c, step), local) <==> Loses(c, step, local)
  {
    match step {
      case PeerRemoved(_, _, _) => PeerVictimSide(c, step, local);
      case Protocol(_, _, _, _, _) => PeerVictimSide(c, step, local);
      case Requested(request, env) => RequestSide(c, request, env, local);
      case FileWanted(request, env) => FileRequestSide(c, request, env, local);
      case CancelWanted(id, generation, ownership, requestId, _, hook) =>
        CancelSide(c, id, generation, ownership, requestId, hook, local);
      case Revoked(_) => HeldSide(c, local);
      case _ =>
    }
  }

  lemma PeerVictimSide(c: Clip, step: Step, local: bool)
    requires Inv(c) && (step.PeerRemoved? || step.Protocol?)
    ensures AnyOf(Victims(c, step), local) <==> Loses(c, step, local)
  {
    match step {
      case PeerRemoved(id, generation, _) =>
        var found := FindPeer(c.peers, id, generation);
        if found.Some? {
          PeerSide(c, found.value, local);
        }
      case Protocol(id, generation, channel, input, env) =>
        var found := FindPeer(c.peers, id, generation);
        if found.Some? {
          InputSide(c, found.value, input, local);
        }
    }
  }

  // --- Over whole runs ---

  /** Everything the steps of a run take away, in the states they find. */
  function Losses(c: Clip, steps: seq<Step>): multiset<Key> {
    if steps == [] then multiset{}
    else Losses(c, steps[..|steps| - 1]) + Victims(Run(c, steps[..|steps| - 1]), steps[|steps| - 1])
  }

  lemma {:induction false} RunLoses(c: Clip, steps: seq<Step>)
    ensures Lost(Run(c, steps)) == Lost(c) + Losses(c, steps)
  {
    if steps != [] {
      RunLoses(c, steps[..|steps| - 1]);
      StepLoses(Run(c, steps[..|steps| - 1]), steps[|steps| - 1]);
    }
  }

  lemma {:induction false} ClosedSplit(out: seq<Out>)
    ensures Bag(out, ClosedKey) == Bag(out, RepliedKey) + Bag(out, LostKey)
  {
    if out != [] {
      ClosedSplit(out[1..]);
      assert ClosedKey(out[0]) == RepliedKey(out[0]) + LostKey(out[0]);
    }
  }

  /** In every run each operation opened was replied to once, was taken away by a step named above, or is pending. */
  lemma RepliedUnlessLost(cfg: Config, steps: seq<Step>)
    ensures var c := Run(NewClip(cfg), steps);
      Bag(c.out, OpenedKey) == Bag(c.out, RepliedKey) + Losses(NewClip(cfg), steps) + Held(c)
  {
    var c := Run(NewClip(cfg), steps);
    RunKeepsInv(cfg, steps);
    RunLoses(NewClip(cfg), steps);
    ClosedSplit(c.out);
    assert Lost(NewClip(cfg)) == multiset{};
    assert Bag(c.out, LostKey) == Losses(NewClip(cfg), steps);
  }

  /**
    An operation opened once that is no longer pending was replied to exactly once
    if and only if no step took it away.
   */
  lemma RepliedOnceIff(cfg: Config, steps: seq<Step>, key: Key)
    requires var c := Run(NewClip(cfg), steps); Bag(c.out, OpenedKey)[key] == 1 && Held(c)[key] == 0
    ensures var c := Run(NewClip(cfg), steps);
      && (Bag(c.out, RepliedKey)[key] == 1 <==> key !in Losses(NewClip(cfg), steps))
      && Bag(c.out, RepliedKey)[key] <= 1
  {
    var c := Run(NewClip(cfg), steps);
    RepliedUnlessLost(cfg, steps);
    assert Bag(c.out, OpenedKey)[key]
        == (Bag(c.out, RepliedKey) + Losses(NewClip(cfg), steps) + Held(c))[key];
  }
}
