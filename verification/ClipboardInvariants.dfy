/** What every step of the clipboard runtime keeps. */
module ClipboardInvariants {
  import opened Status
  import opened Tally
  import opened ClipboardModel

  // --- What is counted ---

  function SlotOne(q: Slot): nat { if q.Slot? then 1 else 0 }

  function PeerOne(slot: Option<Peer>): nat { if slot.Some? then Sum(slot.value.slots, SlotOne) else 0 }

  function SlotKey(id: nat, generation: nat, ownership: nat): Slot -> multiset<Key> {
    (q: Slot) => if q.Slot? then multiset{KeyOf(id, generation, ownership, q)} else multiset{}
  }

  function KeysOf(p: Peer): Slot -> multiset<Key> { SlotKey(p.id, p.generation, p.ownership) }

  function PeerKeys(slot: Option<Peer>): multiset<Key> {
    if slot.Some? then Bag(slot.value.slots, KeysOf(slot.value)) else multiset{}
  }

  /** Operations pending over all peers. */
  function Held(c: Clip): multiset<Key> { Bag(c.peers, PeerKeys) }

  function OpenedKey(o: Out): multiset<Key> { if o.Opened? then multiset{o.key} else multiset{} }

  function ClosedKey(o: Out): multiset<Key> { if o.Opened? then multiset{} else multiset{o.key} }

  /** Every operation opened was closed, is pending, or is among `extra`, each exactly once. */
  ghost predicate Owes(c: Clip, extra: multiset<Key>) {
    Bag(c.out, OpenedKey) == Bag(c.out, ClosedKey) + Held(c) + extra
  }

  ghost predicate Counted(c: Clip) { c.pendingCount == Sum(c.peers, PeerOne) <= c.cfg.maxPending }

  // --- Slots and publication ---

  /** Slots hold their own kind of operation and no more bytes than they may. */
  ghost predicate Tidy(c: Clip) {
    forall k: nat, i: nat | Busy(c, k, i) :: SlotAt(c, k, i).kind == i && |SlotAt(c, k, i).data| <= SlotAt(c, k, i).max
  }

  /** A pending operation on local data with the given id. */
  predicate HasLocal(c: Clip, k: nat, i: nat, id: nat) {
    Busy(c, k, i) && i <= LOCAL_FILE && SlotAt(c, k, i).requestId == id
  }

  /** Operations on local data carry ids already handed out, no two the same. */
  ghost predicate LocalIds(c: Clip) {
    && (forall k: nat, i: nat, id: nat | HasLocal(c, k, i, id) :: 0 < id < c.nextRequestId)
    && (forall k: nat, i: nat, j: nat, m: nat, id: nat | HasLocal(c, k, i, id) && HasLocal(c, j, m, id) ::
          k == j && i == m)
  }

  function OwnerAt(c: Clip, k: nat): nat
    requires Live(c, k)
  {
    c.peers[k].value.ownership
  }

  /** Remote operations are pending only where the publication is. */
  ghost predicate Correlated(c: Clip) {
    forall k: nat, i: nat | Busy(c, k, i) && i >= REMOTE_DATA :: OwnerAt(c, k) == c.published
  }

  predicate Owns(c: Clip, k: nat, g: nat) { g != 0 && Live(c, k) && OwnerAt(c, k) == g }

  /** At most one peer owns the clipboard. */
  ghost predicate Sole(c: Clip) {
    forall j: nat, k: nat, g: nat, h: nat | Owns(c, j, g) && Owns(c, k, h) :: j == k
  }

  ghost predicate Bounded(c: Clip) {
    c.published <= c.nextOwnership && forall k: nat, g: nat | Owns(c, k, g) :: g <= c.nextOwnership
  }

  /** A publication has an owner. */
  ghost predicate Owned(c: Clip) {
    c.published != 0 ==> exists k: nat :: Owns(c, k, c.published)
  }

  ghost predicate Core(c: Clip) {
    Tidy(c) && LocalIds(c) && Correlated(c) && Sole(c) && Bounded(c) && 0 < c.nextRequestId
  }

  ghost predicate Inv(c: Clip) { Counted(c) && Owes(c, multiset{}) && Core(c) && Owned(c) }

  // --- Accounting, one slot or one entry at a time ---

  lemma SlotChange(c: Clip, k: nat, kind: nat, q: Slot)
    requires Live(c, k) && kind < KINDS
    ensures var r, p := SetSlot(c, k, kind, q), c.peers[k].value;
      && Sum(r.peers, PeerOne) + SlotOne(p.slots[kind]) == Sum(c.peers, PeerOne) + SlotOne(q)
      && Held(r) + KeysOf(p)(p.slots[kind]) == Held(c) + KeysOf(p)(q)
  {
    var p := c.peers[k].value;
    var changed := Some(p.(slots := p.slots[kind := q]));
    SumUpdate(p.slots, kind, q, SlotOne);
    SumUpdate(c.peers, k, changed, PeerOne);
    BagUpdate(p.slots, kind, q, KeysOf(p));
    BagUpdate(c.peers, k, changed, PeerKeys);
    Exchange(Held(SetSlot(c, k, kind, q)), Held(c), PeerKeys(changed), PeerKeys(c.peers[k]),
             KeysOf(p)(q), KeysOf(p)(p.slots[kind]));
  }

  lemma Exchange(after: multiset<Key>, before: multiset<Key>, now: multiset<Key>, was: multiset<Key>,
                 into: multiset<Key>, from: multiset<Key>)
    requires after + was == before + now && now + from == was + into
    ensures after + from == before + into
  {
    forall x ensures (after + from)[x] == (before + into)[x] {
      assert (after + was)[x] == (before + now)[x];
      assert (now + from)[x] == (was + into)[x];
    }
  }

  lemma SlotCounted(c: Clip, k: nat, kind: nat)
    requires Busy(c, k, kind)
    ensures 1 <= Sum(c.peers, PeerOne)
  {
    SumAtLeast(c.peers[k].value.slots, kind, SlotOne);
    SumAtLeast(c.peers, k, PeerOne);
  }

  lemma BagOne<T>(x: T, f: T -> multiset<Key>)
    ensures Bag([x], f) == f(x)
  {
    assert [x][1..] == [];
    assert Bag([x][1..], f) == multiset{};
  }

  lemma EmitKeys(c: Clip, o: Out)
    ensures Bag(Emit(c, o).out, OpenedKey) == Bag(c.out, OpenedKey) + OpenedKey(o)
    ensures Bag(Emit(c, o).out, ClosedKey) == Bag(c.out, ClosedKey) + ClosedKey(o)
    ensures Held(Emit(c, o)) == Held(c)
  {
    BagAppend(c.out, [o], OpenedKey);
    BagAppend(c.out, [o], ClosedKey);
    BagOne(o, OpenedKey);
    BagOne(o, ClosedKey);
  }

  lemma OpenOwes(c: Clip, key: Key, extra: multiset<Key>)
    requires Owes(c, extra)
    ensures Owes(Emit(c, Opened(key)), extra + multiset{key})
  {
    EmitKeys(c, Opened(key));
  }

  lemma CloseOwes(c: Clip, o: Out, extra: multiset<Key>)
    requires !o.Opened? && Owes(c, extra + multiset{o.key})
    ensures Owes(Emit(c, o), extra)
  {
    EmitKeys(c, o);
  }

  /** Every entry that `close` makes closes the key it is given. */
  ghost predicate Closer(close: Key -> Out) {
    forall key :: !close(key).Opened? && close(key).key == key
  }

  lemma MoveOut(all: multiset<Key>, done: multiset<Key>, held: multiset<Key>, left: multiset<Key>,
                key: Key, extra: multiset<Key>)
    requires all == done + held + extra && left + multiset{key} == held + multiset{}
    ensures all == (done + multiset{key}) + left + extra
  {
    forall x ensures all[x] == ((done + multiset{key}) + left + extra)[x] {
      assert (left + multiset{key})[x] == (held + multiset{})[x];
    }
  }

  lemma MoveIn(all: multiset<Key>, done: multiset<Key>, held: multiset<Key>, more: multiset<Key>,
               key: Key, extra: multiset<Key>)
    requires all == done + held + (extra + multiset{key}) && more + multiset{} == held + multiset{key}
    ensures all == done + more + extra
  {
    forall x ensures all[x] == (done + more + extra)[x] {
      assert (more + multiset{})[x] == (held + multiset{key})[x];
    }
  }

  lemma CloseCounted(c: Clip, k: nat, kind: nat, close: Key -> Out)
    requires Counted(c)
    ensures Counted(Close(c, k, kind, close))
  {
    if Busy(c, k, kind) {
      SlotCounted(c, k, kind);
      SlotChange(Emit(c, close(KeyAt(c, k, kind))), k, kind, Empty);
    }
  }

  lemma CloseBalanced(c: Clip, k: nat, kind: nat, close: Key -> Out, extra: multiset<Key>)
    requires Owes(c, extra) && Closer(close)
    ensures Owes(Close(c, k, kind, close), extra)
  {
    if Busy(c, k, kind) {
      var key := KeyAt(c, k, kind);
      var logged := Emit(c, close(key));
      var emptied := SetSlot(logged, k, kind, Empty);
      EmitKeys(c, close(key));
      SlotChange(logged, k, kind, Empty);
      MoveOut(Bag(c.out, OpenedKey), Bag(c.out, ClosedKey), Held(c), Held(emptied), key, extra);
      assert Owes(emptied, extra);
      assert Held(Close(c, k, kind, close)) == Held(emptied);
    }
  }

  lemma BeginCounted(c: Clip, k: nat, q: Slot)
    requires Live(c, k) && q.Slot? && q.kind < KINDS && BeginStatus(c, k, q.kind) == Ok && Counted(c)
    ensures Counted(Begin(c, k, q.kind, q))
  {
    SlotChange(c, k, q.kind, q);
  }

  lemma BeginBalanced(c: Clip, k: nat, q: Slot, extra: multiset<Key>)
    requires Live(c, k) && q.Slot? && q.kind < KINDS && !Busy(c, k, q.kind)
    requires Owes(c, extra + multiset{KeyFor(c.peers[k].value, q)})
    ensures Owes(Begin(c, k, q.kind, q), extra)
  {
    var p, filled := c.peers[k].value, SetSlot(c, k, q.kind, q);
    SlotChange(c, k, q.kind, q);
    MoveIn(Bag(c.out, OpenedKey), Bag(c.out, ClosedKey), Held(c), Held(filled), KeyFor(p, q), extra);
    assert Owes(filled, extra);
    assert Held(Begin(c, k, q.kind, q)) == Held(filled);
  }

  lemma GrowAccounts(c: Clip, k: nat, kind: nat, data: seq<byte>, extra: multiset<Key>)
    requires Busy(c, k, kind) && Counted(c) && Owes(c, extra)
    ensures var q := SlotAt(c, k, kind);
      Counted(SetSlot(c, k, kind, q.(data := data))) && Owes(SetSlot(c, k, kind, q.(data := data)), extra)
  {
    var q := SlotAt(c, k, kind);
    var r := SetSlot(c, k, kind, q.(data := data));
    SlotChange(c, k, kind, q.(data := data));
    var one := multiset{KeyAt(c, k, kind)};
    assert Held(r) + one == Held(c) + one;
    forall x ensures Held(r)[x] == Held(c)[x] {
      assert (Held(r) + one)[x] == (Held(c) + one)[x];
    }
  }

  // --- Dropping operations and ownership ---

  predicate ShrinksPeer(a: Option<Peer>, b: Option<Peer>) {
    if a.None? then b.None?
    else
      && b.Some? && b.value.id == a.value.id && b.value.generation == a.value.generation
      && (forall i | 0 <= i < KINDS :: b.value.slots[i] == a.value.slots[i] || b.value.slots[i].Empty?)
      && (|| b.value.ownership == a.value.ownership
          || (b.value.ownership == 0 && b.value.slots[REMOTE_DATA].Empty? && b.value.slots[REMOTE_FILE].Empty?))
  }

  /** `r` is `c` with operations closed and ownership given up. */
  ghost predicate Shrinks(c: Clip, r: Clip) {
    && |r.peers| == |c.peers| && r.cfg == c.cfg
    && r.nextRequestId == c.nextRequestId && r.nextOwnership == c.nextOwnership && r.published == c.published
    && (forall k | 0 <= k < |c.peers| :: ShrinksPeer(c.peers[k], r.peers[k]))
  }

  lemma ShrinksThen(a: Clip, b: Clip, c: Clip)
    requires Shrinks(a, b) && Shrinks(b, c)
    ensures Shrinks(a, c)
  {
  }

  lemma ShrinkSlots(c: Clip, r: Clip, k: nat, i: nat)
    requires Shrinks(c, r) && Busy(r, k, i)
    ensures Busy(c, k, i) && SlotAt(c, k, i) == SlotAt(r, k, i)
    ensures i >= REMOTE_DATA ==> OwnerAt(r, k) == OwnerAt(c, k)
  {
    assert ShrinksPeer(c.peers[k], r.peers[k]);
  }

  lemma ShrinkKeeps(c: Clip, r: Clip)
    requires Core(c) && Shrinks(c, r)
    ensures Core(r)
  {
    forall k: nat, i: nat | Busy(r, k, i)
      ensures Busy(c, k, i) && SlotAt(c, k, i) == SlotAt(r, k, i)
      ensures i >= REMOTE_DATA ==> OwnerAt(r, k) == OwnerAt(c, k)
    {
      ShrinkSlots(c, r, k, i);
    }
    forall k: nat, i: nat, id: nat | HasLocal(r, k, i, id) ensures HasLocal(c, k, i, id) {
      assert Busy(r, k, i);
    }
    forall k: nat, g: nat | Owns(r, k, g) ensures Owns(c, k, g) {
      assert ShrinksPeer(c.peers[k], r.peers[k]);
    }
  }

  lemma CloseShrinks(c: Clip, k: nat, kind: nat, close: Key -> Out)
    ensures Shrinks(c, Close(c, k, kind, close)) && !Busy(Close(c, k, kind, close), k, kind)
    ensures Live(c, k) ==>
      var r := Close(c, k, kind, close); Live(r, k) && OwnerAt(r, k) == OwnerAt(c, k)
  {
  }

  lemma StillClosed(c: Clip, r: Clip, k: nat, kind: nat)
    requires Shrinks(c, r) && !Busy(c, k, kind)
    ensures !Busy(r, k, kind)
  {
    if Busy(r, k, kind) {
      ShrinkSlots(c, r, k, kind);
    }
  }

  lemma {:induction false} CloseRangeShrinks(c: Clip, k: nat, from: nat, n: nat, close: Key -> Out)
    requires Live(c, k)
    ensures var r := CloseRange(c, k, from, n, close);
      && Shrinks(c, r) && Live(r, k) && OwnerAt(r, k) == OwnerAt(c, k)
      && forall i: nat | from <= i < n :: !Busy(r, k, i)
  {
    if n > from {
      var before, r := CloseRange(c, k, from, n - 1, close), CloseRange(c, k, from, n, close);
      CloseRangeShrinks(c, k, from, n - 1, close);
      CloseShrinks(before, k, n - 1, close);
      ShrinksThen(c, before, r);
      forall i: nat | from <= i < n ensures !Busy(r, k, i) {
        if i < n - 1 {
          StillClosed(before, r, k, i);
        }
      }
    }
  }

  // --- Accounts ---

  ghost predicate Balanced(c: Clip) { Counted(c) && Owes(c, multiset{}) }

  lemma {:induction false} CloseRangeBalanced(c: Clip, k: nat, from: nat, n: nat, close: Key -> Out)
    requires Balanced(c) && Closer(close)
    ensures Balanced(CloseRange(c, k, from, n, close))
  {
    if n > from {
      CloseRangeBalanced(c, k, from, n - 1, close);
      CloseCounted(CloseRange(c, k, from, n - 1, close), k, n - 1, close);
      CloseBalanced(CloseRange(c, k, from, n - 1, close), k, n - 1, close, multiset{});
    }
  }

  lemma SamePeerKeys(c: Clip, r: Clip, k: nat)
    requires k < |c.peers| == |r.peers| && r.peers == c.peers[k := r.peers[k]]
    requires PeerKeys(r.peers[k]) == PeerKeys(c.peers[k]) && PeerOne(r.peers[k]) == PeerOne(c.peers[k])
    ensures Held(r) == Held(c) && Sum(r.peers, PeerOne) == Sum(c.peers, PeerOne)
  {
    SumUpdate(c.peers, k, r.peers[k], PeerOne);
    BagUpdate(c.peers, k, r.peers[k], PeerKeys);
    forall x ensures Held(r)[x] == Held(c)[x] {
      assert (Held(r) + PeerKeys(c.peers[k]))[x] == (Held(c) + PeerKeys(r.peers[k]))[x];
    }
  }

  // --- Reports of cancelled work ---

  lemma {:induction false} ReportsShrink(c: Clip, k: nat, kinds: seq<Option<nat>>)
    requires Live(c, k)
    ensures var r := Reports(c, k, kinds); Shrinks(c, r) && Live(r, k) && OwnerAt(r, k) == OwnerAt(c, k)
  {
    if kinds != [] {
      var before, last := Reports(c, k, kinds[..|kinds| - 1]), kinds[|kinds| - 1];
      ReportsShrink(c, k, kinds[..|kinds| - 1]);
      if Remote(last) {
        CloseShrinks(before, k, last.value, Drop(PeerCancelled));
      }
      ShrinksThen(c, before, Report(before, k, last));
    }
  }

  lemma {:induction false} ReportsBalanced(c: Clip, k: nat, kinds: seq<Option<nat>>)
    requires Balanced(c)
    ensures Balanced(Reports(c, k, kinds))
  {
    if kinds != [] {
      var before, last := Reports(c, k, kinds[..|kinds| - 1]), kinds[|kinds| - 1];
      ReportsBalanced(c, k, kinds[..|kinds| - 1]);
      if Remote(last) {
        CloseCounted(before, k, last.value, Drop(PeerCancelled));
        CloseBalanced(before, k, last.value, Drop(PeerCancelled), multiset{});
      }
    }
  }

  /** Dropping everything after the client's work was cancelled. */
  lemma CancelAllShrinks(c: Clip, k: nat, hook: Hook, why: Why)
    requires Live(c, k)
    ensures var r := DropAll(CancelAt(c, k, hook), k, why);
      && Shrinks(c, r) && Live(r, k) && OwnerAt(r, k) == OwnerAt(c, k)
      && forall i: nat | i < KINDS :: !Busy(r, k, i)
  {
    var cancelled := CancelAt(c, k, hook);
    ReportsShrink(c, k, hook(c.peers[k].value.id));
    CloseRangeShrinks(cancelled, k, LOCAL_DATA, KINDS, Drop(why));
    ShrinksThen(c, cancelled, DropAll(cancelled, k, why));
  }

  lemma CancelAllBalanced(c: Clip, k: nat, hook: Hook, why: Why)
    requires Balanced(c)
    ensures Balanced(CancelAt(c, k, hook)) && Balanced(DropAll(CancelAt(c, k, hook), k, why))
  {
    if Live(c, k) {
      ReportsBalanced(c, k, hook(c.peers[k].value.id));
    }
    CloseRangeBalanced(CancelAt(c, k, hook), k, LOCAL_DATA, KINDS, Drop(why));
  }

  // --- Sweeps ---

  /** What a sweep closes at each peer. */
  predicate Sweeps(sweep: Sweep, kind: nat) { !sweep.NewOffer? || kind >= REMOTE_DATA }

  lemma CloseForShrinks(c: Clip, k: nat, sweep: Sweep)
    requires Live(c, k)
    ensures Shrinks(c, CloseFor(c, k, sweep))
  {
    match sweep
    case LocalCopy => CopyShrinks(c, k);
    case NewOffer => CloseRangeShrinks(c, k, REMOTE_DATA, KINDS, CancelWrite());
    case Revoking(hook) => CancelAllShrinks(c, k, hook, Withdrawn);
  }

  lemma CopyShrinks(c: Clip, k: nat)
    requires Live(c, k)
    ensures var r := CloseFor(c, k, LocalCopy);
      Shrinks(c, r) && Live(r, k) && forall i: nat | i < KINDS :: !Busy(r, k, i)
  {
    var answered := CancelLocal(c, k);
    var r := CancelRemote(answered, k);
    CloseRangeShrinks(c, k, LOCAL_DATA, REMOTE_DATA, Refusal());
    CloseRangeShrinks(answered, k, REMOTE_DATA, KINDS, CancelWrite());
    ShrinksThen(c, answered, r);
    forall i: nat | i < KINDS ensures !Busy(r, k, i) {
      if i < REMOTE_DATA {
        StillClosed(answered, r, k, i);
      }
    }
  }

  lemma CloseForBalanced(c: Clip, k: nat, sweep: Sweep)
    requires Balanced(c)
    ensures Balanced(CloseFor(c, k, sweep))
  {
    match sweep
    case LocalCopy =>
      CloseRangeBalanced(c, k, LOCAL_DATA, REMOTE_DATA, Refusal());
      CloseRangeBalanced(CancelLocal(c, k), k, REMOTE_DATA, KINDS, CancelWrite());
    case NewOffer => CloseRangeBalanced(c, k, REMOTE_DATA, KINDS, CancelWrite());
    case Revoking(hook) => CancelAllBalanced(c, k, hook, Withdrawn);
  }

  lemma CloseForCloses(c: Clip, k: nat, sweep: Sweep)
    requires Live(c, k)
    ensures var r := CloseFor(c, k, sweep);
      Live(r, k) && forall i: nat | i < KINDS && Sweeps(sweep, i) :: !Busy(r, k, i)
  {
    match sweep
    case LocalCopy => CopyShrinks(c, k);
    case NewOffer => CloseRangeShrinks(c, k, REMOTE_DATA, KINDS, CancelWrite());
    case Revoking(hook) => CancelAllShrinks(c, k, hook, Withdrawn);
  }

  /** Ownership can change hands where nothing remote is pending: no key mentions it. */
  lemma OwnerUnmentioned(p: Peer, r: Peer)
    requires r.id == p.id && r.generation == p.generation && r.slots == p.slots
    requires p.slots[REMOTE_DATA].Empty? && p.slots[REMOTE_FILE].Empty?
    requires forall i | 0 <= i < KINDS && p.slots[i].Slot? :: p.slots[i].kind == i
    ensures PeerKeys(Some(r)) == PeerKeys(Some(p)) && PeerOne(Some(r)) == PeerOne(Some(p))
  {
    BagAgree(p.slots, KeysOf(r), KeysOf(p));
  }

  lemma TidyAt(c: Clip, k: nat)
    requires Tidy(c) && Live(c, k)
    ensures forall i | 0 <= i < KINDS && c.peers[k].value.slots[i].Slot? :: c.peers[k].value.slots[i].kind == i
  {
    forall i | 0 <= i < KINDS && c.peers[k].value.slots[i].Slot? ensures c.peers[k].value.slots[i].kind == i {
      assert Busy(c, k, i);
    }
  }

  lemma ShrinkTidy(c: Clip, r: Clip)
    requires Tidy(c) && Shrinks(c, r)
    ensures Tidy(r)
  {
    forall k: nat, i: nat | Busy(r, k, i) ensures Busy(c, k, i) && SlotAt(c, k, i) == SlotAt(r, k, i) {
      ShrinkSlots(c, r, k, i);
    }
  }

  lemma SettleBalanced(c: Clip, k: nat, sweep: Sweep)
    requires Live(c, k) && Balanced(c) && Tidy(c) && !Busy(c, k, REMOTE_DATA) && !Busy(c, k, REMOTE_FILE)
    ensures Balanced(SettleAt(c, k, sweep))
  {
    TidyAt(c, k);
    OwnerUnmentioned(c.peers[k].value, Settled(c.peers[k].value, sweep));
    SamePeerKeys(c, SettleAt(c, k, sweep), k);
  }

  lemma SettleShrinks(c: Clip, k: nat, sweep: Sweep)
    requires Live(c, k) && !Busy(c, k, REMOTE_DATA) && !Busy(c, k, REMOTE_FILE)
    ensures Shrinks(c, SettleAt(c, k, sweep))
  {
  }

  /** A peer the sweep is done with. */
  ghost predicate Swept(slot: Option<Peer>, sweep: Sweep) {
    slot.Some? ==>
      && (forall i | 0 <= i < KINDS && Sweeps(sweep, i) :: slot.value.slots[i].Empty?)
      && (!sweep.Revoking? ==> slot.value.ownership == 0)
  }

  lemma SweepPeerShrinks(c: Clip, k: nat, sweep: Sweep)
    ensures Shrinks(c, SweepPeer(c, k, sweep))
  {
    if Live(c, k) {
      var closed := CloseFor(c, k, sweep);
      CloseForShrinks(c, k, sweep);
      CloseForCloses(c, k, sweep);
      SettleShrinks(closed, k, sweep);
      ShrinksThen(c, closed, SettleAt(closed, k, sweep));
    }
  }

  lemma SweepPeerBalanced(c: Clip, k: nat, sweep: Sweep)
    requires Balanced(c) && Tidy(c)
    ensures Balanced(SweepPeer(c, k, sweep))
  {
    if Live(c, k) {
      CloseForBalanced(c, k, sweep);
      CloseForCloses(c, k, sweep);
      CloseForShrinks(c, k, sweep);
      ShrinkTidy(c, CloseFor(c, k, sweep));
      SettleBalanced(CloseFor(c, k, sweep), k, sweep);
    }
  }

  lemma SweepPeerSwept(c: Clip, k: nat, sweep: Sweep)
    requires k < |c.peers|
    ensures k < |SweepPeer(c, k, sweep).peers| && Swept(SweepPeer(c, k, sweep).peers[k], sweep)
  {
    if Live(c, k) {
      var closed := CloseFor(c, k, sweep);
      CloseForCloses(c, k, sweep);
      forall i | 0 <= i < KINDS && Sweeps(sweep, i) ensures closed.peers[k].value.slots[i].Empty? {
        assert !Busy(closed, k, i);
      }
    }
  }

  lemma SweptStays(a: Option<Peer>, b: Option<Peer>, sweep: Sweep)
    requires Swept(a, sweep) && ShrinksPeer(a, b)
    ensures Swept(b, sweep)
  {
  }

  /** A sweep only ever closes operations and gives up ownership. */
  lemma {:induction false} SweepShrinks(c: Clip, n: nat, sweep: Sweep)
    ensures Shrinks(c, SweepTo(c, n, sweep))
  {
    if n > 0 {
      SweepShrinks(c, n - 1, sweep);
      SweepMore(c, SweepTo(c, n - 1, sweep), n - 1, sweep);
    }
  }

  lemma SweepMore(a: Clip, c: Clip, k: nat, sweep: Sweep)
    requires Shrinks(a, c)
    ensures Shrinks(a, SweepPeer(c, k, sweep))
  {
    SweepPeerShrinks(c, k, sweep);
    ShrinksThen(a, c, SweepPeer(c, k, sweep));
  }

  /** It keeps the accounts, ... */
  lemma {:induction false} SweepBalanced(c: Clip, n: nat, sweep: Sweep)
    requires Balanced(c) && Tidy(c)
    ensures Balanced(SweepTo(c, n, sweep))
  {
    if n > 0 {
      SweepBalanced(c, n - 1, sweep);
      SweepShrinks(c, n - 1, sweep);
      ShrinkTidy(c, SweepTo(c, n - 1, sweep));
      SweepPeerBalanced(SweepTo(c, n - 1, sweep), n - 1, sweep);
    }
  }

  /** ... and leaves nothing behind at the peers it has visited. */
  lemma {:induction false} SweepSwept(c: Clip, n: nat, sweep: Sweep)
    requires n <= |c.peers|
    ensures var r := SweepTo(c, n, sweep);
      |r.peers| == |c.peers| && forall k | 0 <= k < n :: Swept(r.peers[k], sweep)
  {
    if n > 0 {
      SweepSwept(c, n - 1, sweep);
      SweptMore(SweepTo(c, n - 1, sweep), n - 1, sweep);
    }
  }

  lemma SweptMore(c: Clip, n: nat, sweep: Sweep)
    requires n < |c.peers| && forall k | 0 <= k < n :: Swept(c.peers[k], sweep)
    ensures var r := SweepPeer(c, n, sweep);
      |r.peers| == |c.peers| && forall k | 0 <= k < n + 1 :: Swept(r.peers[k], sweep)
  {
    var r := SweepPeer(c, n, sweep);
    SweepPeerShrinks(c, n, sweep);
    SweepPeerSwept(c, n, sweep);
    forall k | 0 <= k < n + 1 ensures Swept(r.peers[k], sweep) {
      if k < n {
        SweptStays(c.peers[k], r.peers[k], sweep);
      }
    }
  }
}
