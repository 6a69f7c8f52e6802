/**
  The table of kernel requests the FUSE provider has not answered yet. Every request is held by
  one slot or has been replied to, never both; slots are told apart by request ids that are
  never used again.
 */
module FuseTable {
  import opened Status
  import opened Tally

  /** A request of the kernel. */
  type Kernel(==) = nat

  datatype Kind =
    | Lookup | Open | OpenDir | Read | Release | ReleaseDir | ReadDir | ClipboardRead | Write | Flush | Lock | Notify

  datatype Stage = NoStage | Opening | Querying | Closing | Transferring

  datatype Slot =
    | Free
    | Busy(id: nat, request: Option<Kernel>, kind: Kind, stage: Stage, terminal: nat)

  datatype Answer = EntryFound | Data | Opened | Written | Error(errno: nat)

  datatype Reply = Reply(request: Kernel, answer: Answer)

  /** One stage handed over to the remote side; `terminal` is the error remembered until it ends. */
  datatype Sent = Sent(id: nat, request: Option<Kernel>, kind: Kind, stage: Stage, terminal: nat)

  /** `asked` lists the kernel's requests, `replied` the replies, `sent` the stages handed over. */
  datatype Table = Table(slots: seq<Slot>, nextId: nat, asked: seq<Kernel>, replied: seq<Reply>, sent: seq<Sent>)

  function SlotRequest(s: Slot): multiset<Kernel> {
    if s.Busy? && s.request.Some? then multiset{s.request.value} else multiset{}
  }

  function ReplyRequest(r: Reply): multiset<Kernel> { multiset{r.request} }

  /** Requests waiting in some slot. */
  function Waiting(slots: seq<Slot>): multiset<Kernel> { Bag(slots, SlotRequest) }

  function Done(replied: seq<Reply>): multiset<Kernel> { Bag(replied, ReplyRequest) }

  /** Every request has one reply or one slot. */
  ghost predicate Conserved(t: Table) { multiset(t.asked) == Done(t.replied) + Waiting(t.slots) }

  predicate Held(t: Table, i: nat, id: nat) { i < |t.slots| && t.slots[i].Busy? && t.slots[i].id == id && id != 0 }

  ghost predicate DistinctIds(t: Table) {
    && (forall i: nat, id: nat | Held(t, i, id) :: id < t.nextId)
    && (forall i: nat, j: nat, id: nat | Held(t, i, id) && Held(t, j, id) :: i == j)
  }

  /** The stages a submitted operation of each kind can be in. */
  predicate StageOf(kind: Kind, stage: Stage) {
    match kind
    case Lookup => stage in {Opening, Querying, Closing}
    case Open => stage in {Opening, Closing}
    case OpenDir => stage in {Opening, Closing}
    case ReadDir => stage == Querying
    case Release => stage == Closing
    case ReleaseDir => stage == Closing
    case ClipboardRead => stage == NoStage
    case _ => stage == Transferring
  }

  /** Which stage an operation may go to from which, the first one from no stage. */
  predicate NextStage(kind: Kind, from: Stage, to: Stage) {
    match kind
    case Lookup => (from, to) in {(NoStage, Opening), (Opening, Querying), (Querying, Closing)}
    case Open => (from, to) in {(NoStage, Opening), (Opening, Closing)}
    case OpenDir => (from, to) in {(NoStage, Opening), (Opening, Closing)}
    case ReadDir => (from, to) in {(NoStage, Querying), (Querying, Querying)}
    case Release => (from, to) == (NoStage, Closing)
    case ReleaseDir => (from, to) == (NoStage, Closing)
    case ClipboardRead => (from, to) == (NoStage, NoStage)
    case _ => (from, to) == (NoStage, Transferring)
  }

  /** Open, query and close come in this order. */
  function Rank(stage: Stage): nat {
    match stage
    case NoStage => 0
    case Opening => 1
    case Transferring => 1
    case Querying => 2
    case Closing => 3
  }

  /** Only a directory watch waits without a kernel request, and every id belongs to a stage. */
  predicate TypedSlot(s: Slot) {
    s.Busy? ==>
      && (s.request.None? <==> s.kind == Notify)
      && (if s.id == 0 then s.stage == NoStage else StageOf(s.kind, s.stage))
  }

  ghost predicate Typed(slots: seq<Slot>) {
    forall i | 0 <= i < |slots| :: TypedSlot(slots[i])
  }

  /** What was handed over for a slot that waits for a remote answer. */
  function SentOf(s: Slot): Sent
    requires s.Busy?
  {
    Sent(s.id, s.request, s.kind, s.stage, s.terminal)
  }

  /** Stages are handed over under ever greater ids, and whatever waits under an id was handed over. */
  ghost predicate Traced(t: Table) {
    && (forall i | 0 <= i < |t.slots| && t.slots[i].Busy? && t.slots[i].id != 0 :: SentOf(t.slots[i]) in t.sent)
    && (forall i, j | 0 <= i < j < |t.sent| :: t.sent[i].id < t.sent[j].id)
    && (forall i | 0 <= i < |t.sent| :: t.sent[i].id < t.nextId)
  }

  ghost predicate Inv(t: Table) {
    Conserved(t) && DistinctIds(t) && Typed(t.slots) && 0 < t.nextId && Traced(t)
  }

  // --- What callbacks may do to the table ---

  /** A slot with a kernel request held that request before, at this stage or an earlier one. */
  predicate Inherits(before: Slot, after: Slot) {
    after.Busy? && after.request.Some? ==>
      && before.Busy? && before.request == after.request && before.kind == after.kind
      && Rank(before.stage) <= Rank(after.stage)
  }

  /** No request is added, no reply taken back, no id used again, no request moved to another slot. */
  ghost predicate Later(b: Table, a: Table) {
    && |a.slots| == |b.slots| && a.asked == b.asked
    && b.replied <= a.replied && b.sent <= a.sent && b.nextId <= a.nextId
    && (forall i | 0 <= i < |b.slots| :: Inherits(b.slots[i], a.slots[i]))
    && (forall i: nat, id: nat | Held(a, i, id) :: Held(b, i, id) || id >= b.nextId)
  }

  lemma LaterThen(a: Table, b: Table, c: Table)
    requires Later(a, b) && Later(b, c)
    ensures Later(a, c)
  {
    forall i: nat, id: nat | Held(c, i, id) ensures Held(a, i, id) || id >= a.nextId {
      assert Held(b, i, id) || id >= b.nextId;
    }
    forall i | 0 <= i < |a.slots| ensures Inherits(a.slots[i], c.slots[i]) {
      assert Inherits(a.slots[i], b.slots[i]) && Inherits(b.slots[i], c.slots[i]);
    }
  }

  lemma LaterSame(t: Table)
    ensures Later(t, t)
  {
  }

  /** A kernel request that has a slot but no id yet. */
  predicate Fresh(s: Slot) { s.Busy? && s.id == 0 && s.request.Some? }

  /** Such slots, other than `except`, are as they were. */
  ghost predicate KeepsFresh(b: Table, a: Table, except: nat) {
    |a.slots| == |b.slots| && forall i | 0 <= i < |b.slots| && i != except && Fresh(b.slots[i]) ::
      a.slots[i] == b.slots[i]
  }

  /** What a callback may do: complete requests that have an id, and start watches. */
  ghost predicate Calm(b: Table, a: Table) { Later(b, a) && KeepsFresh(b, a, |b.slots|) }

  lemma CalmThen(a: Table, b: Table, c: Table)
    requires Calm(a, b) && Calm(b, c)
    ensures Calm(a, c)
  {
    LaterThen(a, b, c);
  }

  /** One request more, and otherwise what a callback may do. */
  ghost predicate Entered(b: Table, request: Kernel, a: Table) {
    && |a.slots| == |b.slots| && a.asked == b.asked + [request]
    && b.replied <= a.replied && b.sent <= a.sent && b.nextId <= a.nextId
    && (forall i: nat, id: nat | Held(a, i, id) :: Held(b, i, id) || id >= b.nextId)
  }

  lemma EnteredThen(b: Table, request: Kernel, m: Table, a: Table)
    requires Entered(b, request, m) && Later(m, a)
    ensures Entered(b, request, a)
  {
    forall i: nat, id: nat | Held(a, i, id) ensures Held(b, i, id) || id >= b.nextId {
      assert Held(m, i, id) || id >= m.nextId;
    }
  }

  // --- What became of a request ---

  /** The stage was handed over in between. */
  ghost predicate Submitted(b: Table, a: Table, request: Option<Kernel>, kind: Kind, stage: Stage, terminal: nat) {
    exists j | |b.sent| <= j < |a.sent| ::
      a.sent[j].request == request && a.sent[j].kind == kind
      && a.sent[j].stage == stage && a.sent[j].terminal == terminal
  }

  /** The reply was sent in between. */
  ghost predicate Replied(b: Table, a: Table, request: Kernel, answer: Answer) {
    exists j | |b.replied| <= j < |a.replied| :: a.replied[j] == Reply(request, answer)
  }

  /** Some reply to the request was sent in between. */
  ghost predicate Settled(b: Table, a: Table, request: Kernel) {
    exists j | |b.replied| <= j < |a.replied| :: a.replied[j].request == request
  }

  /** The histories only grow. */
  ghost predicate Grows(b: Table, a: Table) { b.replied <= a.replied && b.sent <= a.sent }

  lemma SubmittedWithin(a: Table, b: Table, c: Table, d: Table,
                        request: Option<Kernel>, kind: Kind, stage: Stage, terminal: nat)
    requires Grows(a, b) && Submitted(b, c, request, kind, stage, terminal) && Grows(c, d)
    ensures Submitted(a, d, request, kind, stage, terminal)
  {
    var j :| |b.sent| <= j < |c.sent| && c.sent[j].request == request && c.sent[j].kind == kind
          && c.sent[j].stage == stage && c.sent[j].terminal == terminal;
    assert d.sent[j] == c.sent[j];
  }

  lemma RepliedWithin(a: Table, b: Table, c: Table, d: Table, request: Kernel, answer: Answer)
    requires Grows(a, b) && Replied(b, c, request, answer) && Grows(c, d)
    ensures Replied(a, d, request, answer)
  {
    var j :| |b.replied| <= j < |c.replied| && c.replied[j] == Reply(request, answer);
    assert d.replied[j] == c.replied[j];
  }

  lemma SettledWithin(a: Table, b: Table, c: Table, d: Table, request: Kernel)
    requires Grows(a, b) && Settled(b, c, request) && Grows(c, d)
    ensures Settled(a, d, request)
  {
    var j :| |b.replied| <= j < |c.replied| && c.replied[j].request == request;
    assert d.replied[j] == c.replied[j];
  }

  /** How an activation goes on with a request: to a further stage, or to its reply. */
  datatype Next = Goes(stage: Stage, terminal: nat) | Ends(answer: Answer)

  ghost predicate Does(b: Table, a: Table, request: Kernel, kind: Kind, next: Next) {
    match next
    case Goes(stage, terminal) => Submitted(b, a, Some(request), kind, stage, terminal)
    case Ends(answer) => Replied(b, a, request, answer)
  }

  /** An id that has been used and is in no slot. */
  ghost predicate Retired(t: Table, id: nat) { 0 < id < t.nextId && forall i: nat :: !Held(t, i, id) }

  /** A retired id stays retired. */
  lemma RetiredStays(b: Table, a: Table, id: nat)
    requires Retired(b, id) && Later(b, a)
    ensures Retired(a, id)
  {
    forall i: nat ensures !Held(a, i, id) {
      assert Held(a, i, id) ==> Held(b, i, id) || id >= b.nextId;
    }
  }

  /** ... also when the kernel makes another request. */
  lemma RetiredThroughEntry(b: Table, request: Kernel, a: Table, id: nat)
    requires Retired(b, id) && Entered(b, request, a)
    ensures Retired(a, id)
  {
    forall i: nat ensures !Held(a, i, id) {
      assert Held(a, i, id) ==> Held(b, i, id) || id >= b.nextId;
    }
  }

  // --- Primitive changes ---

  function Clear(t: Table, i: nat): Table
    requires i < |t.slots|
  {
    t.(slots := t.slots[i := Free])
  }

  /** Reply to the request in slot `i`, if it has one, and free the slot. */
  function Finish(t: Table, i: nat, answer: Answer): Table
    requires i < |t.slots| && t.slots[i].Busy?
  {
    Clear(if t.slots[i].request.Some? then t.(replied := t.replied + [Reply(t.slots[i].request.value, answer)])
          else t, i)
  }

  /** Give slot `i` a new id for its next stage, and the error to report when that is over. */
  function Advance(t: Table, i: nat, stage: Stage, terminal: nat): Table
    requires i < |t.slots| && t.slots[i].Busy?
  {
    var s := t.slots[i];
    t.(slots := t.slots[i := s.(id := t.nextId, stage := stage, terminal := terminal)],
       nextId := t.nextId + 1,
       sent := t.sent + [Sent(t.nextId, s.request, s.kind, stage, terminal)])
  }

  /** A request of the kernel that is answered at once. */
  function Immediate(t: Table, request: Kernel, answer: Answer): Table {
    t.(asked := t.asked + [request], replied := t.replied + [Reply(request, answer)])
  }

  /** A request of the kernel that takes free slot `i`. */
  function Take(t: Table, i: nat, request: Option<Kernel>, kind: Kind): Table
    requires i < |t.slots|
  {
    t.(slots := t.slots[i := Busy(0, request, kind, NoStage, 0)],
       asked := if request.Some? then t.asked + [request.value] else t.asked)
  }

  lemma WaitingUpdate(slots: seq<Slot>, i: nat, s: Slot)
    requires i < |slots|
    ensures Waiting(slots[i := s]) + SlotRequest(slots[i]) == Waiting(slots) + SlotRequest(s)
  {
    BagUpdate(slots, i, s, SlotRequest);
  }

  lemma DoneMore(replied: seq<Reply>, r: Reply)
    ensures Done(replied + [r]) == Done(replied) + multiset{r.request}
  {
    BagAppend(replied, [r], ReplyRequest);
    assert [r][1..] == [];
    assert Bag([r][1..], ReplyRequest) == multiset{};
  }

  lemma AskedMore(asked: seq<Kernel>, request: Kernel)
    ensures multiset(asked + [request]) == multiset(asked) + multiset{request}
  {
  }

  /** Moving a request from a slot to the replies, pointwise. */
  lemma Moved(all: multiset<Kernel>, done: multiset<Kernel>, waiting: multiset<Kernel>, left: multiset<Kernel>,
              request: multiset<Kernel>)
    requires all == done + waiting && left + request == waiting + multiset{}
    ensures all == (done + request) + left
  {
    forall x ensures all[x] == ((done + request) + left)[x] {
      assert (left + request)[x] == (waiting + multiset{})[x];
    }
  }

  lemma SameIds(t: Table, r: Table, i: nat)
    requires i < |t.slots| == |r.slots| && r.slots == t.slots[i := r.slots[i]] && r.nextId == t.nextId
    requires DistinctIds(t) && (r.slots[i].Busy? ==> t.slots[i].Busy? && r.slots[i].id == t.slots[i].id)
    ensures DistinctIds(r) && forall j: nat, id: nat | Held(r, j, id) :: Held(t, j, id)
  {
    forall j: nat, id: nat | Held(r, j, id) ensures Held(t, j, id) {}
  }

  lemma FinishConserves(t: Table, i: nat, answer: Answer)
    requires Conserved(t) && i < |t.slots| && t.slots[i].Busy?
    ensures Conserved(Finish(t, i, answer))
  {
    WaitingUpdate(t.slots, i, Free);
    Moved(multiset(t.asked), Done(t.replied), Waiting(t.slots), Waiting(t.slots[i := Free]), SlotRequest(t.slots[i]));
    if t.slots[i].request.Some? {
      DoneMore(t.replied, Reply(t.slots[i].request.value, answer));
    } else {
      assert Done(t.replied) + multiset{} == Done(t.replied);
    }
  }

  lemma FinishKeeps(t: Table, i: nat, answer: Answer)
    requires Inv(t) && i < |t.slots| && t.slots[i].Busy?
    ensures Inv(Finish(t, i, answer)) && Later(t, Finish(t, i, answer)) && KeepsFresh(t, Finish(t, i, answer), i)
    ensures t.slots[i].id != 0 ==> Retired(Finish(t, i, answer), t.slots[i].id)
  {
    FinishConserves(t, i, answer);
    FinishLater(t, i, answer);
    StillTraced(t, Finish(t, i, answer), i);
  }

  /** A slot that waits for no remote answer needs no trace. */
  lemma StillTraced(t: Table, r: Table, i: nat)
    requires Traced(t) && i < |t.slots| == |r.slots| && r.slots == t.slots[i := r.slots[i]]
    requires r.sent == t.sent && r.nextId == t.nextId && (r.slots[i].Busy? ==> r.slots[i].id == 0)
    ensures Traced(r)
  {
    forall j | 0 <= j < |r.slots| && r.slots[j].Busy? && r.slots[j].id != 0 ensures SentOf(r.slots[j]) in r.sent {
      assert r.slots[j] == t.slots[j];
    }
  }

  lemma FinishLater(t: Table, i: nat, answer: Answer)
    requires DistinctIds(t) && i < |t.slots| && t.slots[i].Busy?
    ensures DistinctIds(Finish(t, i, answer)) && Later(t, Finish(t, i, answer))
    ensures t.slots[i].id != 0 ==> Retired(Finish(t, i, answer), t.slots[i].id)
  {
    SameIds(t, Finish(t, i, answer), i);
    if t.slots[i].id != 0 {
      assert Held(t, i, t.slots[i].id);
    }
  }

  lemma ReplySent(t: Table, i: nat, answer: Answer)
    requires i < |t.slots| && t.slots[i].Busy? && t.slots[i].request.Some?
    ensures Replied(t, Finish(t, i, answer), t.slots[i].request.value, answer)
  {
    assert Finish(t, i, answer).replied[|t.replied|] == Reply(t.slots[i].request.value, answer);
  }

  lemma AdvanceConserves(t: Table, r: Table, i: nat)
    requires Conserved(t) && i < |t.slots| == |r.slots| && r.slots == t.slots[i := r.slots[i]]
    requires r.asked == t.asked && r.replied == t.replied && SlotRequest(r.slots[i]) == SlotRequest(t.slots[i])
    ensures Conserved(r)
  {
    var s := r.slots[i];
    WaitingUpdate(t.slots, i, s);
    forall x ensures Waiting(t.slots[i := s])[x] == Waiting(t.slots)[x] {
      assert (Waiting(t.slots[i := s]) + SlotRequest(t.slots[i]))[x] == (Waiting(t.slots) + SlotRequest(s))[x];
    }
  }

  lemma AdvanceKeeps(t: Table, i: nat, stage: Stage, terminal: nat)
    requires Inv(t) && i < |t.slots| && t.slots[i].Busy?
    requires NextStage(t.slots[i].kind, t.slots[i].stage, stage)
    ensures var r := Advance(t, i, stage, terminal); Inv(r) && Later(t, r) && KeepsFresh(t, r, i)
    ensures t.slots[i].id != 0 ==> Retired(Advance(t, i, stage, terminal), t.slots[i].id)
    ensures var s := t.slots[i]; Submitted(t, Advance(t, i, stage, terminal), s.request, s.kind, stage, terminal)
  {
    var r := Advance(t, i, stage, terminal);
    AdvanceConserves(t, r, i);
    AdvanceIds(t, i, stage, terminal);
    AdvanceTraced(t, i, stage, terminal);
    assert r.sent[|t.sent|].stage == stage;
  }

  lemma AdvanceTraced(t: Table, i: nat, stage: Stage, terminal: nat)
    requires Traced(t) && i < |t.slots| && t.slots[i].Busy?
    ensures Traced(Advance(t, i, stage, terminal))
  {
    var r := Advance(t, i, stage, terminal);
    forall j | 0 <= j < |r.slots| && r.slots[j].Busy? && r.slots[j].id != 0 ensures SentOf(r.slots[j]) in r.sent {
      if j != i {
        assert SentOf(t.slots[j]) in t.sent;
      } else {
        assert r.sent[|t.sent|] == SentOf(r.slots[i]);
      }
    }
  }

  /** A new id is given out, and the slot's old one is in no other. */
  lemma AdvanceIds(t: Table, i: nat, stage: Stage, terminal: nat)
    requires DistinctIds(t) && i < |t.slots| && t.slots[i].Busy? && 0 < t.nextId
    ensures var r := Advance(t, i, stage, terminal);
      && DistinctIds(r) && (t.slots[i].id != 0 ==> Retired(r, t.slots[i].id))
      && forall j: nat, id: nat | Held(r, j, id) :: Held(t, j, id) || id >= t.nextId
  {
    var r := Advance(t, i, stage, terminal);
    forall j: nat, id: nat | Held(r, j, id) ensures Held(t, j, id) || (j == i && id == t.nextId) {}
    if t.slots[i].id != 0 {
      assert Held(t, i, t.slots[i].id);
    }
  }

  lemma TakeKeeps(t: Table, i: nat, request: Option<Kernel>, kind: Kind)
    requires Inv(t) && i < |t.slots| && t.slots[i].Free? && (request.None? <==> kind == Notify)
    ensures Inv(Take(t, i, request, kind))
  {
    TakeConserves(t, i, request, kind);
    TakeIds(t, i, request, kind);
    StillTraced(t, Take(t, i, request, kind), i);
  }

  lemma WatchIsCalm(t: Table, i: nat)
    requires DistinctIds(t) && i < |t.slots| && t.slots[i].Free?
    ensures Calm(t, Take(t, i, None, Notify))
  {
    TakeIds(t, i, None, Notify);
  }

  lemma TakeEnters(t: Table, i: nat, request: Kernel, kind: Kind)
    requires DistinctIds(t) && i < |t.slots| && t.slots[i].Free?
    ensures Entered(t, request, Take(t, i, Some(request), kind))
  {
    TakeIds(t, i, Some(request), kind);
  }

  lemma TakeIds(t: Table, i: nat, request: Option<Kernel>, kind: Kind)
    requires DistinctIds(t) && i < |t.slots| && t.slots[i].Free?
    ensures DistinctIds(Take(t, i, request, kind))
    ensures forall j: nat, id: nat | Held(Take(t, i, request, kind), j, id) :: Held(t, j, id)
  {
    var r := Take(t, i, request, kind);
    forall j: nat, id: nat | Held(r, j, id) ensures Held(t, j, id) {}
  }

  lemma TakeConserves(t: Table, i: nat, request: Option<Kernel>, kind: Kind)
    requires Conserved(t) && i < |t.slots| && t.slots[i].Free?
    ensures Conserved(Take(t, i, request, kind))
  {
    var r := Take(t, i, request, kind);
    WaitingUpdate(t.slots, i, r.slots[i]);
    if request.Some? {
      AskedMore(t.asked, request.value);
    }
    forall x ensures multiset(r.asked)[x] == (Done(r.replied) + Waiting(r.slots))[x] {
      assert (Waiting(r.slots) + multiset{})[x] == (Waiting(t.slots) + SlotRequest(r.slots[i]))[x];
      assert multiset(t.asked)[x] == (Done(t.replied) + Waiting(t.slots))[x];
    }
  }

  lemma ImmediateKeeps(t: Table, request: Kernel, answer: Answer)
    requires Inv(t)
    ensures Inv(Immediate(t, request, answer)) && Entered(t, request, Immediate(t, request, answer))
  {
    var r := Immediate(t, request, answer);
    AskedMore(t.asked, request);
    DoneMore(t.replied, Reply(request, answer));
    forall j: nat, id: nat | Held(r, j, id) ensures Held(t, j, id) {}
  }

  // --- Consequences ---

  lemma {:induction false} WaitingShrinks(before: seq<Slot>, after: seq<Slot>, request: Kernel)
    requires |after| == |before| && forall i | 0 <= i < |before| :: Inherits(before[i], after[i])
    ensures Waiting(after)[request] <= Waiting(before)[request]
  {
    if before != [] {
      assert Inherits(before[0], after[0]);
      WaitingShrinks(before[1..], after[1..], request);
    }
  }

  /** A slot that loses its request makes a difference. */
  lemma {:induction false} WaitingDrops(before: seq<Slot>, after: seq<Slot>, i: nat, request: Kernel)
    requires |after| == |before| && i < |before| && forall j | 0 <= j < |before| :: Inherits(before[j], after[j])
    requires before[i].Busy? && before[i].request == Some(request) && !(after[i].Busy? && after[i].request.Some?)
    ensures Waiting(after)[request] < Waiting(before)[request]
  {
    assert Inherits(before[0], after[0]);
    if i == 0 {
      WaitingShrinks(before[1..], after[1..], request);
    } else {
      WaitingDrops(before[1..], after[1..], i - 1, request);
    }
  }

  lemma {:induction false} DoneGrows(before: seq<Reply>, after: seq<Reply>, request: Kernel) returns (j: nat)
    requires before <= after && Done(before)[request] < Done(after)[request]
    ensures |before| <= j < |after| && after[j].request == request
    decreases |after|
  {
    var last := |after| - 1;
    assert |before| == |after| ==> before == after;
    assert after == after[..last] + [after[last]];
    DoneMore(after[..last], after[last]);
    if after[last].request == request {
      j := last;
    } else {
      j := DoneGrows(before, after[..last], request);
    }
  }

  /** A request whose slot gave it up has been replied to in between. */
  lemma ReplyCame(b: Table, a: Table, i: nat)
    requires Conserved(b) && Conserved(a) && Later(b, a)
    requires i < |b.slots| && b.slots[i].Busy? && b.slots[i].request.Some?
    requires !(a.slots[i].Busy? && a.slots[i].request.Some?)
    ensures Settled(b, a, b.slots[i].request.value)
  {
    var request := b.slots[i].request.value;
    WaitingDrops(b.slots, a.slots, i, request);
    assert (Done(b.replied) + Waiting(b.slots))[request] == (Done(a.replied) + Waiting(a.slots))[request];
    var j := DoneGrows(b.replied, a.replied, request);
    assert a.replied[j].request == request;
  }

  /** A request the kernel made once has one reply and no slot, or one slot and no reply. */
  lemma OneReplyOrOneSlot(t: Table, request: Kernel)
    requires Inv(t) && multiset(t.asked)[request] == 1
    ensures Done(t.replied)[request] + Waiting(t.slots)[request] == 1
  {
    assert multiset(t.asked)[request] == (Done(t.replied) + Waiting(t.slots))[request];
  }

  /** With no request waiting, the replies are exactly the requests. */
  lemma AllReplied(t: Table)
    requires Inv(t) && forall i | 0 <= i < |t.slots| && t.slots[i].Busy? :: t.slots[i].request.None?
    ensures Done(t.replied) == multiset(t.asked)
  {
    BagEmpty(t.slots, SlotRequest);
  }

  lemma EmptyInv(n: nat)
    ensures Inv(Table(seq(n, i => Free), 1, [], [], []))
  {
    var t := Table(seq(n, i => Free), 1, [], [], []);
    BagEmpty(t.slots, SlotRequest);
  }
}
