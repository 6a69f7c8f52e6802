/**
  The FUSE provider's request staging: kernel requests take a slot, go through their remote
  stages, and are replied to once. Submitting or cancelling a remote request may complete
  requests before it returns, so callbacks re-enter the provider to any depth.
 */
module FuseProvider {
  import opened Status
  import opened Tally
  import opened FuseTable

  const ENOENT: nat := 2
  const EIO: nat := 5
  const EAGAIN: nat := 11
  const EACCES: nat := 13
  const EBUSY: nat := 16
  const ENOTDIR: nat := 20
  const EISDIR: nat := 21
  const EINVAL: nat := 22
  const EMFILE: nat := 24
  const EFBIG: nat := 27
  const ENOSPC: nat := 28
  const EROFS: nat := 30
  const EPROTO: nat := 71
  const EOVERFLOW: nat := 75
  const ESHUTDOWN: nat := 108
  const ESTALE: nat := 116
  const ECANCELED: nat := 125

  /** What an activation asks of the node and handle tables and of its arguments. */
  datatype Question =
    | ParentKnown | NameValid | ChildReady | ParentRemote | ChildFound
    | NodeKnown | NodeReady | ModeValid | TypeMatches | WriteAllowed | NodeLocal | HandleFree | FileGiven
    | HandleUsable | HandleLocal | HandleLoaded | ReadEmpty | NodeClipboard | ClipboardCurrent | ClipboardAccepted
    | Writable | WriteEmpty | LockValid | LockRangeValid
    | DirectoryKnown | OffsetValid | EntriesFit | SomeDecoded | QueriesLeft
    | DataFits | TransferValid | EndFits
    | WatchWanted | Prepared
    | Selected(slot: nat) | Cancellable(slot: nat)

  /** One activation's answers, an error code from decoding, and what its callbacks do in turn. */
  datatype World = World(says: Question -> bool, decoded: nat, calls: seq<Call>)

  /** The completions that arrive while a callback runs. */
  datatype Call = Call(inside: seq<Activation>)

  datatype Activation =
    | Completed(id: nat, error: nat, world: World)
    | ClipboardCompleted(id: nat, stream: nat, status: Status, error: nat, world: World)

  // --- What a completion leads to ---

  function NonZero(error: nat, otherwise: nat): nat { if error != 0 then error else otherwise }

  /** Submit a stage if there is a volume to send it to; otherwise the request fails. */
  function SendOr(world: World, stage: Stage, terminal: nat, error: nat): Next {
    if world.says(Prepared) then Goes(stage, terminal) else Ends(Error(NonZero(error, EIO)))
  }

  /** The reply that ends a close: an error remembered from an earlier stage wins over the close's own. */
  function AfterClose(s: Slot, closeError: nat, world: World): Answer
    requires s.Busy?
  {
    var error := NonZero(s.terminal, closeError);
    if s.kind == Lookup then
      if error == 0 && world.says(ChildFound) then EntryFound else Error(NonZero(error, ENOENT))
    else if s.kind == Release || s.kind == ReleaseDir then Error(error)
    else Error(NonZero(error, EIO))
  }

  function AfterLookup(s: Slot, error: nat, world: World): Next
    requires s.Busy?
  {
    if !world.says(ParentKnown) then Ends(Error(ESTALE))
    else if s.stage == Opening then
      if error != 0 then Ends(Error(error)) else SendOr(world, Querying, s.terminal, EIO)
    else if s.stage == Querying then
      var terminal := NonZero(error, world.decoded);
      SendOr(world, Closing, terminal, terminal)
    else Ends(AfterClose(s, error, world))
  }

  /** The error an open ends with, if it cannot be granted. */
  function OpenError(completion: nat, world: World): nat {
    if !world.says(NodeKnown) then ESTALE
    else if completion != 0 then completion
    else if !world.says(HandleFree) then EMFILE
    else 0
  }

  function AfterOpen(s: Slot, completion: nat, world: World): Next
    requires s.Busy?
  {
    var error := OpenError(completion, world);
    if s.stage == Closing then Ends(AfterClose(s, if world.says(NodeKnown) then completion else ESTALE, world))
    else if error == 0 then Ends(Opened)
    else if world.says(FileGiven) && world.says(NodeKnown) then SendOr(world, Closing, error, error)
    else Ends(Error(error))
  }

  function AfterDirectory(world: World): Answer {
    if !world.says(DirectoryKnown) || !world.says(OffsetValid) then Error(ESTALE) else Data
  }

  function AfterReadDir(s: Slot, error: nat, world: World): Next
    requires s.Busy?
  {
    if !world.says(HandleUsable) || !world.says(NodeKnown) then Ends(Error(ESTALE))
    else if error == ENOENT then Ends(AfterDirectory(world))
    else if error != 0 then Ends(Error(error))
    else if world.decoded != 0 || !world.says(SomeDecoded) then Ends(Error(NonZero(world.decoded, EPROTO)))
    else if !world.says(QueriesLeft) then Ends(Error(ENOSPC))
    else SendOr(world, Querying, s.terminal, EIO)
  }

  function AfterTransfer(kind: Kind, error: nat, world: World): Answer {
    match kind
    case Read => if error == 0 && world.says(DataFits) then Data else Error(NonZero(error, EPROTO))
    case Write =>
      if error != 0 || !world.says(NodeKnown) || !world.says(TransferValid) then Error(NonZero(error, EPROTO))
      else if world.says(EndFits) then Written
      else Error(EFBIG)
    case Flush => Error(error)
    case Lock => Error(if error == EACCES then EAGAIN else error)
    case _ => Error(EPROTO)
  }

  /** How the completion of a kernel request's current stage goes on. */
  function AfterComplete(s: Slot, error: nat, world: World): Next
    requires s.Busy?
  {
    match s.kind
    case Lookup => AfterLookup(s, error, world)
    case Open => AfterOpen(s, error, world)
    case OpenDir => AfterOpen(s, error, world)
    case Release => Ends(AfterClose(s, error, world))
    case ReleaseDir => Ends(AfterClose(s, error, world))
    case ReadDir => AfterReadDir(s, error, world)
    case _ => Ends(AfterTransfer(s.kind, error, world))
  }

  /**
    An open that fails after the remote file was opened goes on to close it, remembering the
    error, and the reply that follows the close is that error.
   */
  lemma FailedOpenCloses(s: Slot, completion: nat, world: World, closed: Slot, closeError: nat, later: World)
    requires s.Busy? && s.kind in {Open, OpenDir} && s.stage == Opening
    requires OpenError(completion, world) != 0 && world.says(FileGiven) && world.says(NodeKnown) && world.says(Prepared)
    requires closed.Busy? && closed.kind == s.kind && closed.stage == Closing
    requires closed.terminal == OpenError(completion, world)
    ensures AfterComplete(s, completion, world) == Goes(Closing, OpenError(completion, world))
    ensures AfterComplete(closed, closeError, later) == Ends(Error(OpenError(completion, world)))
  {
  }

  /** A lookup finds its entry only at the end of open, query and close, and only if none of them failed. */
  lemma LookupSucceedsLast(s: Slot, error: nat, world: World)
    requires s.Busy? && s.kind == Lookup && TypedSlot(s) && s.id != 0
    requires AfterComplete(s, error, world) == Ends(EntryFound)
    ensures s.stage == Closing && s.terminal == 0 && error == 0
  {
  }

  /** A page of entries came, and the table has room for more queries. */
  predicate MoreToList(error: nat, world: World) {
    && error == 0 && world.says(HandleUsable) && world.says(NodeKnown)
    && world.decoded == 0 && world.says(SomeDecoded) && world.says(QueriesLeft)
  }

  /** A listing is queried until the remote side says there is no more, and only then shown. */
  lemma ListingEndsAtNoMore(s: Slot, error: nat, world: World)
    requires s.Busy? && s.kind == ReadDir
    ensures AfterComplete(s, error, world) == Ends(Data) ==> error == ENOENT
    ensures MoreToList(error, world) && world.says(Prepared) ==>
      AfterComplete(s, error, world) == Goes(Querying, s.terminal)
  {
  }

  /** No failure is ever reported as success. */
  lemma FailureStaysFailure(s: Slot, error: nat, world: World)
    requires s.Busy? && s.kind != ReadDir && error != 0
    ensures AfterComplete(s, error, world).Ends? ==>
      var answer := AfterComplete(s, error, world).answer; answer.Error? && answer.errno != 0
  {
  }

  // --- What a request of the kernel leads to ---

  datatype Operation =
    | LookupOp | OpenOp(directory: bool) | ReadOp | WriteOp | FlushOp | LockOp | ReadDirOp | ReleaseOp(directory: bool)

  /** A reply at once, a reply from cache through a slot, or a first stage. */
  datatype Plan = Now(answer: Answer) | Cached(answer: Answer) | Begins(kind: Kind, stage: Stage)

  function PlanOpen(directory: bool, world: World): Plan {
    if !world.says(NodeKnown) then Now(Error(EINVAL))
    else if !world.says(NodeReady) then Now(Error(ESTALE))
    else if !world.says(ModeValid) then Now(Error(EINVAL))
    else if !world.says(TypeMatches) then Now(Error(if directory then ENOTDIR else EISDIR))
    else if !directory && !world.says(WriteAllowed) then Now(Error(EROFS))
    else if world.says(NodeLocal) then Now(if world.says(HandleFree) then Opened else Error(EMFILE))
    else Begins(if directory then OpenDir else Open, Opening)
  }

  function PlanRead(world: World): Plan {
    if !world.says(HandleUsable) then Now(Error(ESTALE))
    else if world.says(ReadEmpty) then Now(Data)
    else if !world.says(NodeClipboard) then Begins(Read, Transferring)
    else if !world.says(ClipboardCurrent) then Now(Error(ESTALE))
    else Begins(ClipboardRead, NoStage)
  }

  function PlanOf(op: Operation, world: World): Plan {
    match op
    case LookupOp =>
      if !world.says(ParentKnown) then Now(Error(ESTALE))
      else if !world.says(NameValid) then Now(Error(EINVAL))
      else if world.says(ChildReady) then Now(EntryFound)
      else if !world.says(ParentRemote) then Now(Error(ENOENT))
      else Begins(Lookup, Opening)
    case OpenOp(directory) => PlanOpen(directory, world)
    case ReadOp => PlanRead(world)
    case WriteOp =>
      if !world.says(HandleUsable) then Now(Error(ESTALE))
      else if !world.says(Writable) then Now(Error(EROFS))
      else if world.says(WriteEmpty) then Now(Written)
      else Begins(Write, Transferring)
    case FlushOp => if !world.says(HandleUsable) then Now(Error(ESTALE)) else Begins(Flush, Transferring)
    case LockOp =>
      if !world.says(HandleUsable) || !world.says(LockValid) then Now(Error(EINVAL))
      else if !world.says(LockRangeValid) then Now(Error(EOVERFLOW))
      else Begins(Lock, Transferring)
    case ReadDirOp =>
      if !world.says(HandleUsable) then Now(Error(ESTALE))
      else if world.says(HandleLocal) && !world.says(EntriesFit) then Cached(Error(ENOSPC))
      else if world.says(HandleLocal) || world.says(HandleLoaded) then Cached(AfterDirectory(world))
      else Begins(ReadDir, Querying)
    case ReleaseOp(directory) =>
      if !world.says(HandleUsable) then Now(Error(ESTALE))
      else if world.says(HandleLocal) then Now(Error(0))
      else if !world.says(NodeKnown) then Now(Error(ESTALE))
      else Begins(if directory then ReleaseDir else Release, Closing)
  }

  predicate Full(slots: seq<Slot>) { forall i | 0 <= i < |slots| :: slots[i].Busy? }

  /** What becomes of a request: its immediate reply, EBUSY without a slot, or what its plan says. */
  ghost predicate Starts(b: Table, request: Kernel, plan: Plan, world: World, a: Table) {
    match plan
    case Now(answer) => a == Immediate(b, request, answer)
    case Cached(answer) =>
      if Full(b.slots) then a == Immediate(b, request, Error(EBUSY)) else Replied(b, a, request, answer)
    case Begins(kind, stage) =>
      if Full(b.slots) then a == Immediate(b, request, Error(EBUSY))
      else if kind == ClipboardRead then
        Submitted(b, a, Some(request), kind, stage, 0) && (!world.says(ClipboardAccepted) ==> Settled(b, a, request))
      else if world.says(Prepared) then Submitted(b, a, Some(request), kind, stage, 0)
      else Replied(b, a, request, Error(EIO))
  }

  function FindId(slots: seq<Slot>, id: nat): Option<nat> {
    if id == 0 then None else First(slots, (s: Slot) => s.Busy? && s.id == id)
  }

  /** The clipboard read a client's answer is for, if it is for one at all. */
  function ReadWith(slots: seq<Slot>, id: nat, stream: nat, world: World): Option<nat> {
    var found := FindId(slots, id);
    if stream != 0 && found.Some? && found.value < |slots| && slots[found.value].Busy?
       && slots[found.value].kind == ClipboardRead && world.says(ClipboardCurrent)
    then found else None
  }

  /** What the kernel is told of a client's answer. */
  function ReadAnswer(result: Status, error: nat, world: World): Answer {
    if result != Ok then Error(NonZero(error, EIO))
    else if world.says(DataFits) then Data else Error(EPROTO)
  }

  lemma FindIdIs(t: Table, id: nat)
    ensures var r := FindId(t.slots, id);
      if r.Some? then Held(t, r.value, id) else forall i: nat :: !Held(t, i, id)
  {
    FirstLaw(t.slots, (s: Slot) => s.Busy? && s.id == id);
    if FindId(t.slots, id).None? {
      forall i: nat ensures !Held(t, i, id) {
        assert i < |t.slots| && id != 0 ==> !(t.slots[i].Busy? && t.slots[i].id == id);
      }
    }
  }

  /** The first slot that watches the directory being released. */
  predicate WatchesFirst(slots: seq<Slot>, world: World, i: nat) {
    && i < |slots| && Watches(slots[i]) && world.says(Selected(i))
    && forall j | 0 <= j < i :: !(Watches(slots[j]) && world.says(Selected(j)))
  }

  predicate Watches(s: Slot) { s.Busy? && s.kind == Notify }

  class Provider {
    var slots: seq<Slot>
    var nextId: nat
    ghost var asked: seq<Kernel>
    ghost var replied: seq<Reply>
    ghost var sent: seq<Sent>

    ghost function Value(): Table
      reads this
    {
      Table(slots, nextId, asked, replied, sent)
    }

    ghost predicate Valid()
      reads this
    {
      Inv(Value())
    }

    ghost predicate Pending(i: nat)
      reads this
    {
      i < |slots| && slots[i].Busy?
    }

    /** Slot `i` holds a request of the kernel that has been handed over. */
    ghost predicate Staged(i: nat)
      reads this
    {
      Pending(i) && slots[i].id != 0 && slots[i].request.Some?
    }

    constructor (maxPending: nat)
      ensures Valid() && Value() == Table(seq(maxPending, i => Free), 1, [], [], [])
    {
      slots, nextId := seq(maxPending, i => Free), 1;
      asked, replied, sent := [], [], [];
      new;
      EmptyInv(maxPending);
    }

    // --- Slots ---

    method FindPending(id: nat) returns (r: Option<nat>)
      ensures if r.Some? then Held(Value(), r.value, id) else forall i: nat :: !Held(Value(), i, id)
    {
      FindIdIs(Value(), id);
      if id == 0 {
        return None;
      }
      r := FindFirst(slots, (s: Slot) => s.Busy? && s.id == id);
    }

    method FindFree() returns (r: Option<nat>)
      ensures if r.Some? then r.value < |slots| && slots[r.value].Free? else Full(slots)
    {
      FirstLaw(slots, (s: Slot) => s.Free?);
      r := FindFirst(slots, (s: Slot) => s.Free?);
    }

    /** Reply to slot `i` and free it. */
    method FinishSlot(i: nat, answer: Answer)
      requires Valid() && Pending(i)
      modifies this`slots, this`replied
      ensures Valid() && Value() == Finish(old(Value()), i, answer)
      ensures Later(old(Value()), Value()) && KeepsFresh(old(Value()), Value(), i)
      ensures old(slots[i].id) != 0 ==> Retired(Value(), old(slots[i].id))
      ensures old(slots[i].request.Some?) ==> Replied(old(Value()), Value(), old(slots[i].request.value), answer)
    {
      FinishKeeps(Value(), i, answer);
      if slots[i].request.Some? {
        replied := replied + [Reply(slots[i].request.value, answer)];
        assert replied[|old(replied)|] == Reply(slots[i].request.value, answer);
      }
      slots := slots[i := Free];
    }

    /** An error reply never reports success. */
    method FinishError(i: nat, error: nat)
      requires Valid() && Pending(i)
      modifies this`slots, this`replied
      ensures Valid() && Value() == Finish(old(Value()), i, Error(NonZero(error, EIO)))
      ensures Later(old(Value()), Value()) && KeepsFresh(old(Value()), Value(), i)
      ensures old(slots[i].id) != 0 ==> Retired(Value(), old(slots[i].id))
      ensures old(slots[i].request.Some?) ==>
        Replied(old(Value()), Value(), old(slots[i].request.value), Error(NonZero(error, EIO)))
    {
      FinishSlot(i, Error(if error != 0 then error else EIO));
    }

    /** A request of the kernel that needs no slot. */
    method ReplyNow(request: Kernel, answer: Answer)
      requires Valid()
      modifies this`asked, this`replied
      ensures Valid() && Value() == Immediate(old(Value()), request, answer)
      ensures Entered(old(Value()), request, Value())
    {
      ImmediateKeeps(Value(), request, answer);
      asked, replied := asked + [request], replied + [Reply(request, answer)];
    }

    /** A slot for a request of the kernel; without a free one the request is told so at once. */
    method Enter(request: Kernel, kind: Kind) returns (r: Option<nat>)
      requires Valid() && kind != Notify
      modifies this`slots, this`asked, this`replied
      ensures Valid() && Entered(old(Value()), request, Value())
      ensures r.None? <==> Full(old(slots))
      ensures r.Some? ==> Pending(r.value) && slots == old(slots)[r.value := Busy(0, Some(request), kind, NoStage, 0)]
      ensures r.Some? ==> old(slots)[r.value].Free? && replied == old(replied)
      ensures r.None? ==> Value() == Immediate(old(Value()), request, Error(EBUSY))
    {
      r := FindFree();
      if r.None? {
        ReplyNow(request, Error(EBUSY));
      } else {
        TakeKeeps(Value(), r.value, Some(request), kind);
        TakeEnters(Value(), r.value, request, kind);
        slots := slots[r.value := Busy(0, Some(request), kind, NoStage, 0)];
        asked := asked + [request];
      }
    }

    // --- Callbacks ---

    /** Whatever completes while a callback runs. */
    method Callback(call: Call)
      requires Valid()
      modifies this`slots, this`nextId, this`replied, this`sent
      ensures Valid() && Calm(old(Value()), Value())
      decreases call, 0
    {
      ghost var start := Value();
      var j := 0;
      while j < |call.inside|
        invariant 0 <= j <= |call.inside| && Valid() && Calm(start, Value())
      {
        ghost var before := Value();
        var activation := call.inside[j];
        match activation {
          case Completed(id, error, world) =>
            var _ := Complete(id, error, world);
          case ClipboardCompleted(id, stream, status, error, world) =>
            var _ := ClipboardComplete(id, stream, status, error, world);
        }
        CalmThen(start, before, Value());
        j := j + 1;
      }
    }

    /** The activation's `n`-th callback. */
    method CallbackAt(world: World, n: nat)
      requires Valid()
      modifies this`slots, this`nextId, this`replied, this`sent
      ensures Valid() && Calm(old(Value()), Value())
      decreases world, 0
    {
      if n < |world.calls| {
        Callback(world.calls[n]);
      } else {
        LaterSame(Value());
      }
    }

    /** Give slot `i` an id for its next stage and hand the request over; it may be complete on return. */
    method HandOver(i: nat, stage: Stage, terminal: nat, world: World, n: nat)
      requires Valid() && Pending(i)
      requires NextStage(slots[i].kind, slots[i].stage, stage)
      modifies this`slots, this`nextId, this`replied, this`sent
      ensures Valid() && Later(old(Value()), Value()) && KeepsFresh(old(Value()), Value(), i)
      ensures old(slots[i].id) != 0 ==> Retired(Value(), old(slots[i].id))
      ensures Submitted(old(Value()), Value(), old(slots[i].request), old(slots[i].kind), stage, terminal)
      decreases world, 1
    {
      ghost var start := Value();
      AdvanceKeeps(start, i, stage, terminal);
      sent := sent + [Sent(nextId, slots[i].request, slots[i].kind, stage, terminal)];
      slots := slots[i := slots[i].(id := nextId, stage := stage, terminal := terminal)];
      nextId := nextId + 1;
      ghost var handed := Value();
      assert handed == Advance(start, i, stage, terminal);
      CallbackAt(world, n);
      HandedThen(start, handed, Value(), i, stage, terminal);
    }

    /** Submit the next stage if there is a volume to send it to, and otherwise fail the request. */
    method SubmitOrFail(i: nat, stage: Stage, terminal: nat, world: World, n: nat, error: nat)
      requires Valid() && Pending(i)
      requires NextStage(slots[i].kind, slots[i].stage, stage)
      modifies this`slots, this`nextId, this`replied, this`sent
      ensures Valid() && Later(old(Value()), Value()) && KeepsFresh(old(Value()), Value(), i)
      ensures old(slots[i].id) != 0 ==> Retired(Value(), old(slots[i].id))
      ensures old(slots[i].request.Some?) ==>
        Does(old(Value()), Value(), old(slots[i].request.value), old(slots[i].kind),
             SendOr(world, stage, terminal, error))
      ensures old(slots[i].request.None?) && world.says(Prepared) ==>
        Submitted(old(Value()), Value(), None, old(slots[i].kind), stage, terminal)
      ensures !world.says(Prepared) ==> Value() == Finish(old(Value()), i, Error(NonZero(error, EIO)))
      decreases world, 2
    {
      if world.says(Prepared) {
        HandOver(i, stage, terminal, world, n);
      } else {
        FinishError(i, error);
      }
    }

    // --- Directory watches ---

    /** Arm a directory watch, which holds no kernel request. */
    method StartNotify(world: World, n: nat)
      requires Valid()
      modifies this`slots, this`nextId, this`replied, this`sent
      ensures Valid() && Calm(old(Value()), Value())
      ensures world.says(WatchWanted) && world.says(NodeKnown) && world.says(Prepared) && !Full(old(slots)) ==>
        Submitted(old(Value()), Value(), None, Notify, Transferring, 0)
      ensures !(world.says(WatchWanted) && world.says(NodeKnown) && world.says(Prepared)) ==> replied == old(replied)
      decreases world, 4
    {
      ghost var start := Value();
      LaterSame(start);
      if !world.says(WatchWanted) || !world.says(NodeKnown) {
        return;
      }
      var free := TakeWatch();
      if free.Some? {
        ghost var taken := Value();
        SubmitWatch(free.value, world, n);
        CalmThen(start, taken, Value());
        if world.says(Prepared) {
          SubmittedWithin(start, taken, Value(), Value(), None, Notify, Transferring, 0);
        }
      }
    }

    /** A slot for a watch, if one is free. */
    method TakeWatch() returns (r: Option<nat>)
      requires Valid()
      modifies this`slots
      ensures Valid() && Calm(old(Value()), Value())
      ensures r.None? <==> Full(old(slots))
      ensures r.Some? ==> Pending(r.value) && slots[r.value] == Busy(0, None, Notify, NoStage, 0)
    {
      r := FindFree();
      if r.Some? {
        TakeKeeps(Value(), r.value, None, Notify);
        WatchIsCalm(Value(), r.value);
        ghost var taken := Take(Value(), r.value, None, Notify);
        slots := slots[r.value := Busy(0, None, Notify, NoStage, 0)];
        assert Value() == taken;
      } else {
        LaterSame(Value());
      }
    }

    /** Send the watch, or give its slot back. */
    method SubmitWatch(i: nat, world: World, n: nat)
      requires Valid() && Pending(i) && slots[i] == Busy(0, None, Notify, NoStage, 0)
      modifies this`slots, this`nextId, this`replied, this`sent
      ensures Valid() && Calm(old(Value()), Value())
      ensures world.says(Prepared) ==> Submitted(old(Value()), Value(), None, Notify, Transferring, 0)
      ensures !world.says(Prepared) ==> replied == old(replied)
      decreases world, 3
    {
      SubmitOrFail(i, Transferring, 0, world, n, EIO);
    }

    /** End the watch of a directory whose handle is being released. */
    method CancelNotify(world: World)
      requires Valid()
      modifies this`slots, this`nextId, this`replied, this`sent
      ensures Valid() && Calm(old(Value()), Value())
      ensures forall i | 0 <= i < |old(slots)| && WatchesFirst(old(slots), world, i) && old(slots)[i].id != 0 ::
        Retired(Value(), old(slots)[i].id)
      decreases world, 3
    {
      ghost var start := Value();
      LaterSame(start);
      var watch := FirstWatch(world);
      if watch.None? {
        return;
      }
      var i := watch.value;
      if world.says(Cancellable(i)) {
        CallbackAt(world, i);
      }
      ghost var called := Value();
      assert Inherits(start.slots[i], called.slots[i]);
      if slots[i].Busy? {
        FinishSlot(i, Error(EIO));
        CalmThen(start, called, Value());
      }
      if start.slots[i].id != 0 {
        LeftSlot(start, Value(), i);
      }
    }

    method FirstWatch(world: World) returns (r: Option<nat>)
      ensures r.Some? ==> WatchesFirst(slots, world, r.value)
      ensures forall i: nat | WatchesFirst(slots, world, i) :: r == Some(i)
    {
      var index := 0;
      while index < |slots|
        invariant 0 <= index <= |slots|
        invariant forall j | 0 <= j < index :: !(Watches(slots[j]) && world.says(Selected(j)))
      {
        if slots[index].Busy? && slots[index].kind == Notify && world.says(Selected(index)) {
          return Some(index);
        }
        index := index + 1;
      }
      return None;
    }

    // --- Completions ---

    method FinishClose(i: nat, closeError: nat, world: World)
      requires Valid() && Staged(i)
      modifies this`slots, this`replied
      ensures Valid() && Calm(old(Value()), Value()) && Retired(Value(), old(slots[i].id))
      ensures Replied(old(Value()), Value(), old(slots[i].request.value), AfterClose(old(slots[i]), closeError, world))
    {
      var error := if slots[i].terminal != 0 then slots[i].terminal else closeError;
      if slots[i].kind == Lookup {
        if error == 0 && world.says(ChildFound) {
          FinishSlot(i, EntryFound);
        } else {
          FinishError(i, if error != 0 then error else ENOENT);
        }
      } else if slots[i].kind == Release || slots[i].kind == ReleaseDir {
        FinishSlot(i, Error(error));
      } else {
        FinishError(i, if error != 0 then error else EIO);
      }
    }

    method CompleteLookup(i: nat, error: nat, world: World)
      requires Valid() && Staged(i) && slots[i].kind == Lookup
      modifies this`slots, this`nextId, this`replied, this`sent
      ensures Valid() && Calm(old(Value()), Value()) && Retired(Value(), old(slots[i].id))
      ensures Does(old(Value()), Value(), old(slots[i].request.value), Lookup, AfterLookup(old(slots[i]), error, world))
      decreases world, 5
    {
      if !world.says(ParentKnown) {
        FinishError(i, ESTALE);
      } else if slots[i].stage == Opening {
        if error != 0 {
          FinishError(i, error);
        } else {
          SubmitOrFail(i, Querying, slots[i].terminal, world, 0, EIO);
        }
      } else if slots[i].stage == Querying {
        var terminal := if error != 0 then error else world.decoded;
        SubmitOrFail(i, Closing, terminal, world, 0, terminal);
      } else {
        FinishClose(i, error, world);
      }
    }

    method CompleteOpen(i: nat, completion: nat, world: World)
      requires Valid() && Staged(i) && slots[i].kind in {Open, OpenDir}
      modifies this`slots, this`nextId, this`replied, this`sent
      ensures Valid() && Calm(old(Value()), Value()) && Retired(Value(), old(slots[i].id))
      ensures Does(old(Value()), Value(), old(slots[i].request.value), old(slots[i].kind),
                   AfterOpen(old(slots[i]), completion, world))
      decreases world, 6
    {
      var error := if world.says(NodeKnown) then completion else ESTALE;
      if slots[i].stage == Closing {
        FinishClose(i, error, world);
        return;
      }
      if error == 0 && !world.says(HandleFree) {
        error := EMFILE;
      }
      if error != 0 {
        if world.says(FileGiven) && world.says(NodeKnown) {
          SubmitOrFail(i, Closing, error, world, 0, error);
        } else {
          FinishError(i, error);
        }
        return;
      }
      var directory := slots[i].kind == OpenDir;
      FinishThenWatch(i, Opened, directory, world);
    }

    /** Reply, and then arm the watch of an open directory. */
    method FinishThenWatch(i: nat, answer: Answer, watch: bool, world: World)
      requires Valid() && Pending(i)
      modifies this`slots, this`nextId, this`replied, this`sent
      ensures Valid() && Later(old(Value()), Value()) && KeepsFresh(old(Value()), Value(), i)
      ensures old(slots[i].id) != 0 ==> Retired(Value(), old(slots[i].id))
      ensures old(slots[i].request.Some?) ==> Replied(old(Value()), Value(), old(slots[i].request.value), answer)
      ensures var arms := watch && world.says(WatchWanted) && world.says(NodeKnown) && world.says(Prepared);
        && (arms ==> Submitted(old(Value()), Value(), None, Notify, Transferring, 0))
        && (old(slots[i].request.None?) && !arms ==> replied == old(replied))
      decreases world, 5
    {
      ghost var start := Value();
      FinishSlot(i, answer);
      ghost var finished := Value();
      if watch {
        assert !Full(slots) by { assert slots[i].Free?; }
        StartNotify(world, 1);
        FinishedThen(start, finished, Value(), i, answer);
        if world.says(WatchWanted) && world.says(NodeKnown) && world.says(Prepared) {
          SubmittedWithin(start, finished, Value(), Value(), None, Notify, Transferring, 0);
        }
      }
    }

    /** A watch's completion replies to nobody; a usable handle is watched again unless the watch failed. */
    method CompleteNotify(i: nat, error: nat, world: World)
      requires Valid() && Pending(i) && slots[i].id != 0 && slots[i].kind == Notify
      modifies this`slots, this`nextId, this`replied, this`sent
      ensures Valid() && Calm(old(Value()), Value()) && Retired(Value(), old(slots[i].id))
      ensures var again := world.says(HandleUsable) && (error == 0 || error == ECANCELED)
                           && world.says(WatchWanted) && world.says(NodeKnown) && world.says(Prepared);
        if again then Submitted(old(Value()), Value(), None, Notify, Transferring, 0) else replied == old(replied)
      decreases world, 6
    {
      var again := world.says(HandleUsable) && (error == 0 || error == ECANCELED);
      FinishThenWatch(i, Error(EIO), again, world);
    }

    method ReplyDirectory(i: nat, world: World)
      requires Valid() && Pending(i) && slots[i].request.Some?
      modifies this`slots, this`nextId, this`replied, this`sent
      ensures Valid() && Later(old(Value()), Value()) && KeepsFresh(old(Value()), Value(), i)
      ensures old(slots[i].id) != 0 ==> Retired(Value(), old(slots[i].id))
      ensures Replied(old(Value()), Value(), old(slots[i].request.value), AfterDirectory(world))
      decreases world, 6
    {
      if !world.says(DirectoryKnown) || !world.says(OffsetValid) {
        FinishError(i, ESTALE);
      } else {
        FinishThenWatch(i, Data, true, world);
      }
    }

    method CompleteReadDir(i: nat, error: nat, world: World)
      requires Valid() && Staged(i) && slots[i].kind == ReadDir
      modifies this`slots, this`nextId, this`replied, this`sent
      ensures Valid() && Calm(old(Value()), Value()) && Retired(Value(), old(slots[i].id))
      ensures Does(old(Value()), Value(), old(slots[i].request.value), ReadDir,
                   AfterReadDir(old(slots[i]), error, world))
      decreases world, 7
    {
      if !world.says(HandleUsable) || !world.says(NodeKnown) {
        FinishError(i, ESTALE);
      } else if error == ENOENT {
        ReplyDirectory(i, world);
      } else if error != 0 {
        FinishError(i, error);
      } else if world.decoded != 0 || !world.says(SomeDecoded) {
        FinishError(i, if world.decoded != 0 then world.decoded else EPROTO);
      } else if !world.says(QueriesLeft) {
        FinishError(i, ENOSPC);
      } else {
        SubmitOrFail(i, Querying, slots[i].terminal, world, 0, EIO);
      }
    }

    /** Transfers, flushes, locks and unexpected kinds end with this completion. */
    method CompleteTransfer(i: nat, error: nat, world: World)
      requires Valid() && Staged(i) && slots[i].kind in {Read, Write, Flush, Lock, ClipboardRead}
      modifies this`slots, this`replied
      ensures Valid() && Calm(old(Value()), Value()) && Retired(Value(), old(slots[i].id))
      ensures Value() == Finish(old(Value()), i, AfterTransfer(old(slots[i].kind), error, world))
      ensures Replied(old(Value()), Value(), old(slots[i].request.value),
                      AfterTransfer(old(slots[i].kind), error, world))
    {
      ghost var start := Value();
      ghost var answer := AfterTransfer(slots[i].kind, error, world);
      var kind := slots[i].kind;
      if kind == Read {
        FinishRead(i, error, world);
      } else if kind == Write {
        FinishWrite(i, error, world);
      } else if kind == Flush {
        FinishSlot(i, Error(error));
      } else if kind == Lock {
        FinishSlot(i, Error(if error == EACCES then EAGAIN else error));
      } else {
        FinishError(i, EPROTO);
      }
      FinishKeeps(start, i, answer);
      ReplySent(start, i, answer);
    }

    method FinishRead(i: nat, error: nat, world: World)
      requires Valid() && Pending(i)
      modifies this`slots, this`replied
      ensures Valid() && Value() == Finish(old(Value()), i, AfterTransfer(Read, error, world))
    {
      if error == 0 && world.says(DataFits) {
        FinishSlot(i, Data);
      } else {
        FinishError(i, if error != 0 then error else EPROTO);
      }
    }

    method FinishWrite(i: nat, error: nat, world: World)
      requires Valid() && Pending(i)
      modifies this`slots, this`replied
      ensures Valid() && Value() == Finish(old(Value()), i, AfterTransfer(Write, error, world))
    {
      if error != 0 || !world.says(NodeKnown) || !world.says(TransferValid) {
        FinishError(i, if error != 0 then error else EPROTO);
      } else if world.says(EndFits) {
        FinishSlot(i, Written);
      } else {
        FinishError(i, EFBIG);
      }
    }

    /** The completion of a kernel request's stage. */
    method CompleteSlot(i: nat, error: nat, world: World)
      requires Valid() && Staged(i)
      modifies this`slots, this`nextId, this`replied, this`sent
      ensures Valid() && Calm(old(Value()), Value()) && Retired(Value(), old(slots[i].id))
      ensures Does(old(Value()), Value(), old(slots[i].request.value), old(slots[i].kind),
                   AfterComplete(old(slots[i]), error, world))
      decreases world, 8
    {
      assert TypedSlot(slots[i]);
      var kind := slots[i].kind;
      if kind == Lookup {
        CompleteLookup(i, error, world);
      } else if kind == Open || kind == OpenDir {
        CompleteOpen(i, error, world);
      } else if kind == Release || kind == ReleaseDir {
        FinishClose(i, error, world);
      } else if kind == ReadDir {
        CompleteReadDir(i, error, world);
      } else {
        CompleteTransfer(i, error, world);
      }
    }

    /**
      A remote request has completed. An id that is in no slot, such as that of an earlier stage,
      is refused and changes nothing; one that is, is never seen again.
     */
    method Complete(id: nat, error: nat, world: World) returns (status: Status)
      requires Valid()
      modifies this`slots, this`nextId, this`replied, this`sent
      ensures Valid() && Calm(old(Value()), Value())
      ensures status == if exists i: nat :: Held(old(Value()), i, id) then Ok else State
      ensures status == State ==> Value() == old(Value())
      ensures status == Ok ==> Retired(Value(), id)
      ensures forall i: nat | Held(old(Value()), i, id) && old(slots)[i].request.Some? ::
        Does(old(Value()), Value(), old(slots)[i].request.value, old(slots)[i].kind,
             AfterComplete(old(slots)[i], error, world))
      decreases world, 9
    {
      var found := FindPending(id);
      if found.None? {
        LaterSame(Value());
        return State;
      }
      var i := found.value;
      assert Held(Value(), i, id) && TypedSlot(slots[i]);
      status := Ok;
      if slots[i].kind == Notify {
        CompleteNotify(i, error, world);
      } else {
        CompleteSlot(i, error, world);
      }
    }

    /** The client has answered a clipboard range. */
    method ClipboardComplete(id: nat, stream: nat, result: Status, error: nat, world: World) returns (status: Status)
      requires Valid()
      modifies this`slots, this`replied
      ensures Valid() && Calm(old(Value()), Value())
      ensures var read := ReadWith(old(slots), id, stream, world);
        && (read.None? ==> Value() == old(Value()))
        && (read.Some? ==>
              && Value() == Finish(old(Value()), read.value, ReadAnswer(result, error, world))
              && Retired(Value(), id))
        && status == if id == 0 || stream == 0 then InvalidArgument
                     else if read.None? then State
                     else if result != Ok then result
                     else if world.says(DataFits) then Ok else ProtocolError
    {
      LaterSame(Value());
      if id == 0 || stream == 0 {
        return InvalidArgument;
      }
      FindIdIs(Value(), id);
      var found := FindPending(id);
      if found.None? || slots[found.value].kind != ClipboardRead || !world.says(ClipboardCurrent) {
        return State;
      }
      if result != Ok {
        FinishError(found.value, error);
        return result;
      }
      if !world.says(DataFits) {
        FinishError(found.value, EPROTO);
        return ProtocolError;
      }
      FinishSlot(found.value, Data);
      return Ok;
    }

    // --- Requests of the kernel ---

    /** Take a slot and submit the first stage, or say at once why not. */
    method EnterAndSubmit(request: Kernel, kind: Kind, stage: Stage, world: World)
      requires Valid() && kind != Notify && kind != ClipboardRead && NextStage(kind, NoStage, stage)
      modifies this
      ensures Valid() && Entered(old(Value()), request, Value())
      ensures Starts(old(Value()), request, Begins(kind, stage), world, Value())
    {
      ghost var start := Value();
      var slot := Enter(request, kind);
      if slot.Some? {
        ghost var entered := Value();
        SubmitOrFail(slot.value, stage, 0, world, 0, EIO);
        EnteredThen(start, request, entered, Value());
        DoesWithin(start, entered, Value(), request, kind, SendOr(world, stage, 0, EIO));
      }
    }

    method LookupName(request: Kernel, world: World)
      requires Valid()
      modifies this
      ensures Valid() && Entered(old(Value()), request, Value())
      ensures Starts(old(Value()), request, PlanOf(LookupOp, world), world, Value())
    {
      if !world.says(ParentKnown) || !world.says(NameValid) {
        ReplyNow(request, Error(if world.says(ParentKnown) then EINVAL else ESTALE));
      } else if world.says(ChildReady) {
        ReplyNow(request, EntryFound);
      } else if !world.says(ParentRemote) {
        ReplyNow(request, Error(ENOENT));
      } else {
        EnterAndSubmit(request, Lookup, Opening, world);
      }
    }

    method OpenNode(request: Kernel, directory: bool, world: World)
      requires Valid()
      modifies this
      ensures Valid() && Entered(old(Value()), request, Value())
      ensures Starts(old(Value()), request, PlanOf(OpenOp(directory), world), world, Value())
    {
      if !world.says(NodeKnown) {
        ReplyNow(request, Error(EINVAL));
      } else if !world.says(NodeReady) {
        ReplyNow(request, Error(ESTALE));
      } else if !world.says(ModeValid) {
        ReplyNow(request, Error(EINVAL));
      } else if !world.says(TypeMatches) {
        ReplyNow(request, Error(if directory then ENOTDIR else EISDIR));
      } else if !directory && !world.says(WriteAllowed) {
        ReplyNow(request, Error(EROFS));
      } else if world.says(NodeLocal) {
        ReplyNow(request, if world.says(HandleFree) then Opened else Error(EMFILE));
      } else {
        EnterAndSubmit(request, if directory then OpenDir else Open, Opening, world);
      }
    }

    method ReadFile(request: Kernel, world: World)
      requires Valid()
      modifies this
      ensures Valid() && Entered(old(Value()), request, Value())
      ensures Starts(old(Value()), request, PlanOf(ReadOp, world), world, Value())
    {
      if !world.says(HandleUsable) {
        ReplyNow(request, Error(ESTALE));
      } else if world.says(ReadEmpty) {
        ReplyNow(request, Data);
      } else if !world.says(NodeClipboard) {
        EnterAndSubmit(request, Read, Transferring, world);
      } else if !world.says(ClipboardCurrent) {
        ReplyNow(request, Error(ESTALE));
      } else {
        ReadClipboard(request, world);
      }
    }

    /** A clipboard range; the request may be complete by the time the callback reports a failure. */
    method ReadClipboard(request: Kernel, world: World)
      requires Valid()
      modifies this
      ensures Valid() && Entered(old(Value()), request, Value())
      ensures Starts(old(Value()), request, Begins(ClipboardRead, NoStage), world, Value())
    {
      ghost var start := Value();
      var slot := Enter(request, ClipboardRead);
      if slot.None? {
        return;
      }
      var i := slot.value;
      ghost var entered := Value();
      HandOver(i, NoStage, 0, world, 0);
      ghost var handed := Value();
      if !world.says(ClipboardAccepted) && slots[i].Busy? {
        FinishError(i, world.decoded);
        LaterThen(entered, handed, Value());
      }
      EnteredThen(start, request, entered, Value());
      SubmittedWithin(start, entered, handed, Value(), Some(request), ClipboardRead, NoStage, 0);
      if !world.says(ClipboardAccepted) {
        ReplyCame(entered, Value(), i);
        SettledWithin(start, entered, Value(), Value(), request);
      }
    }

    method WriteFile(request: Kernel, world: World)
      requires Valid()
      modifies this
      ensures Valid() && Entered(old(Value()), request, Value())
      ensures Starts(old(Value()), request, PlanOf(WriteOp, world), world, Value())
    {
      if !world.says(HandleUsable) {
        ReplyNow(request, Error(ESTALE));
      } else if !world.says(Writable) {
        ReplyNow(request, Error(EROFS));
      } else if world.says(WriteEmpty) {
        ReplyNow(request, Written);
      } else {
        EnterAndSubmit(request, Write, Transferring, world);
      }
    }

    method FlushFile(request: Kernel, world: World)
      requires Valid()
      modifies this
      ensures Valid() && Entered(old(Value()), request, Value())
      ensures Starts(old(Value()), request, PlanOf(FlushOp, world), world, Value())
    {
      if !world.says(HandleUsable) {
        ReplyNow(request, Error(ESTALE));
      } else {
        EnterAndSubmit(request, Flush, Transferring, world);
      }
    }

    method SetLock(request: Kernel, world: World)
      requires Valid()
      modifies this
      ensures Valid() && Entered(old(Value()), request, Value())
      ensures Starts(old(Value()), request, PlanOf(LockOp, world), world, Value())
    {
      if !world.says(HandleUsable) || !world.says(LockValid) {
        ReplyNow(request, Error(EINVAL));
      } else if !world.says(LockRangeValid) {
        ReplyNow(request, Error(EOVERFLOW));
      } else {
        EnterAndSubmit(request, Lock, Transferring, world);
      }
    }

    method ReadDirectory(request: Kernel, world: World)
      requires Valid()
      modifies this
      ensures Valid() && Entered(old(Value()), request, Value())
      ensures Starts(old(Value()), request, PlanOf(ReadDirOp, world), world, Value())
    {
      if !world.says(HandleUsable) {
        ReplyNow(request, Error(ESTALE));
      } else if world.says(HandleLocal) || world.says(HandleLoaded) {
        ReadCached(request, world);
      } else {
        EnterAndSubmit(request, ReadDir, Querying, world);
      }
    }

    /** A listing that needs no remote query. */
    method ReadCached(request: Kernel, world: World)
      requires Valid()
      modifies this
      ensures Valid() && Entered(old(Value()), request, Value())
      ensures var answer :=
                if world.says(HandleLocal) && !world.says(EntriesFit) then Error(ENOSPC) else AfterDirectory(world);
        Starts(old(Value()), request, Cached(answer), world, Value())
    {
      ghost var start := Value();
      var slot := Enter(request, ReadDir);
      if slot.Some? {
        ghost var entered := Value();
        if world.says(HandleLocal) && !world.says(EntriesFit) {
          FinishError(slot.value, ENOSPC);
          RepliedWithin(start, entered, Value(), Value(), request, Error(ENOSPC));
        } else {
          ReplyDirectory(slot.value, world);
          RepliedWithin(start, entered, Value(), Value(), request, AfterDirectory(world));
        }
        EnteredThen(start, request, entered, Value());
      }
    }

    method ReleaseHandle(request: Kernel, directory: bool, world: World)
      requires Valid()
      modifies this
      ensures Valid() && Entered(old(Value()), request, Value())
      ensures Starts(old(Value()), request, PlanOf(ReleaseOp(directory), world), world, Value())
      ensures PlanOf(ReleaseOp(directory), world).Begins? && !Full(old(slots)) ==>
        forall i | 0 <= i < |old(slots)| && WatchesFirst(old(slots), world, i) && old(slots)[i].id != 0 ::
          Retired(Value(), old(slots)[i].id)
    {
      if !world.says(HandleUsable) {
        ReplyNow(request, Error(ESTALE));
      } else if world.says(HandleLocal) {
        ReplyNow(request, Error(0));
      } else if !world.says(NodeKnown) {
        ReplyNow(request, Error(ESTALE));
      } else {
        ReleaseRemote(request, if directory then ReleaseDir else Release, world);
      }
    }

    method ReleaseRemote(request: Kernel, kind: Kind, world: World)
      requires Valid() && kind in {Release, ReleaseDir}
      modifies this
      ensures Valid() && Entered(old(Value()), request, Value())
      ensures Starts(old(Value()), request, Begins(kind, Closing), world, Value())
      ensures !Full(old(slots)) ==>
        forall i | 0 <= i < |old(slots)| && WatchesFirst(old(slots), world, i) && old(slots)[i].id != 0 ::
          Retired(Value(), old(slots)[i].id)
    {
      ghost var start := Value();
      var slot := Enter(request, kind);
      if slot.Some? {
        ghost var entered := Value();
        CloseHandle(slot.value, world);
        EnteredThen(start, request, entered, Value());
        DoesWithin(start, entered, Value(), request, kind, SendOr(world, Closing, 0, EIO));
        WatchesBefore(start.slots, entered.slots, slot.value, world, Value());
      }
    }

    /** Cancel the watch, close the remote file, and watch again when that cannot be sent. */
    method CloseHandle(i: nat, world: World)
      requires Valid() && Pending(i) && Fresh(slots[i]) && slots[i].kind in {Release, ReleaseDir}
      modifies this`slots, this`nextId, this`replied, this`sent
      ensures Valid() && Later(old(Value()), Value())
      ensures Does(old(Value()), Value(), old(slots[i].request.value), old(slots[i].kind),
                   SendOr(world, Closing, 0, EIO))
      ensures forall j | 0 <= j < |old(slots)| && WatchesFirst(old(slots), world, j) && old(slots)[j].id != 0 ::
        Retired(Value(), old(slots)[j].id)
    {
      ghost var start := Value();
      CancelNotify(world);
      ghost var cancelled := Value();
      assert slots[i] == start.slots[i] && TypedSlot(slots[i]);
      if world.says(Prepared) {
        HandOver(i, Closing, 0, world, |slots|);
        LaterThen(start, cancelled, Value());
        SubmittedWithin(start, cancelled, Value(), Value(), start.slots[i].request, start.slots[i].kind, Closing, 0);
        StayRetired(start, cancelled, Value(), world);
      } else {
        StartNotify(world, |slots| + 1);
        ghost var watched := Value();
        LaterThen(start, cancelled, watched);
        FinishError(i, EIO);
        LaterThen(start, watched, Value());
        LaterThen(cancelled, watched, Value());
        RepliedWithin(start, watched, Value(), Value(), start.slots[i].request.value, Error(EIO));
        StayRetired(start, cancelled, Value(), world);
      }
    }

    /** Any request of the kernel. */
    method Ask(op: Operation, request: Kernel, world: World)
      requires Valid()
      modifies this
      ensures Valid() && Entered(old(Value()), request, Value())
      ensures Starts(old(Value()), request, PlanOf(op, world), world, Value())
    {
      match op {
        case LookupOp => LookupName(request, world);
        case OpenOp(directory) => OpenNode(request, directory, world);
        case ReadOp => ReadFile(request, world);
        case WriteOp => WriteFile(request, world);
        case FlushOp => FlushFile(request, world);
        case LockOp => SetLock(request, world);
        case ReadDirOp => ReadDirectory(request, world);
        case ReleaseOp(directory) => ReleaseHandle(request, directory, world);
      }
    }

    // --- Aborting ---

    /** Cancel slot `i` remotely, which may complete it, and otherwise fail it here. */
    method AbortSlot(i: nat, error: nat, world: World)
      requires Valid() && Pending(i)
      modifies this`slots, this`nextId, this`replied, this`sent
      ensures Valid() && Later(old(Value()), Value()) && slots[i].Free?
      ensures old(slots[i].request.Some?) && !world.says(Cancellable(i)) ==>
        Replied(old(Value()), Value(), old(slots[i].request.value), Error(NonZero(error, EIO)))
    {
      ghost var start := Value();
      LaterSame(start);
      if world.says(Cancellable(i)) {
        CallbackAt(world, i);
      }
      if slots[i].Busy? {
        ghost var called := Value();
        FinishError(i, error);
        LaterThen(start, called, Value());
      }
    }

    /**
      Fail the requests of a removed device, peer or clipboard generation: none of the selected
      slots holds a request of the kernel any more, and each that did has had its reply.
     */
    method AbortSelected(world: World)
      requires Valid()
      modifies this`slots, this`nextId, this`replied, this`sent
      ensures Valid() && Later(old(Value()), Value())
      ensures forall i | 0 <= i < |slots| && world.says(Selected(i)) :: Vacant(slots[i])
      ensures forall i | 0 <= i < |slots| && world.says(Selected(i)) && !Vacant(old(slots)[i]) ::
        Settled(old(Value()), Value(), old(slots)[i].request.value)
    {
      ghost var start := Value();
      LaterSame(start);
      var index, count := 0, |slots|;
      while index < count
        invariant 0 <= index <= count == |slots| && Valid() && Later(start, Value())
        invariant Emptied(slots, index, world)
      {
        AbortNext(index, ESTALE, world, start);
        index := index + 1;
      }
      SelectedSettled(start, Value(), world);
    }

    /** One turn of the loop: whatever waits in slot `index` ends if it is selected. */
    method AbortNext(index: nat, error: nat, world: World, ghost start: Table)
      requires Valid() && index < |slots| && Later(start, Value()) && Emptied(slots, index, world)
      modifies this`slots, this`nextId, this`replied, this`sent
      ensures Valid() && |slots| == old(|slots|) && Later(start, Value()) && Emptied(slots, index + 1, world)
    {
      ghost var before := Value();
      if slots[index].Busy? && world.says(Selected(index)) {
        AbortSlot(index, error, world);
        LaterThen(start, before, Value());
        StillEmptied(before, Value(), index, world);
      }
    }

    /** Stop: nothing of the kernel's is left waiting, so every request has had exactly one reply. */
    method Stop(world: World)
      requires Valid()
      modifies this`slots, this`nextId, this`replied, this`sent
      ensures Valid() && Later(old(Value()), Value())
      ensures forall i | 0 <= i < |slots| :: Vacant(slots[i])
      ensures Done(replied) == multiset(asked)
    {
      ghost var start := Value();
      LaterSame(start);
      var all := world.(says := (q: Question) => q.Selected? || world.says(q));
      var index, count := 0, |slots|;
      while index < count
        invariant 0 <= index <= count == |slots| && Valid() && Later(start, Value())
        invariant Emptied(slots, index, all)
      {
        AbortNext(index, ESHUTDOWN, all, start);
        index := index + 1;
      }
      forall i | 0 <= i < |slots| ensures Vacant(slots[i]) {
        assert all.says(Selected(i));
      }
      AllReplied(Value());
    }

    // --- Whole runs ---

    /**
      Any sequence of kernel requests, completions and aborts. Every request is held by one slot
      or has had one reply throughout (`Valid`), the requests are those of the run, an id once
      retired stays so, a second completion of the same id is refused, and each request and each
      completion taken has led to what is due.
     */
    method Play(events: seq<Happening>) returns (statuses: seq<Status>)
      requires Valid()
      modifies this
      ensures Valid() && |statuses| == |events| && Played(old(Value()), events, statuses, |events|, Value())
    {
      ghost var start := Value();
      statuses := [];
      var index := 0;
      while index < |events|
        invariant 0 <= index <= |events| && |statuses| == index && Valid()
        invariant Played(start, events, statuses, index, Value())
      {
        statuses := PlayNext(events, index, statuses, start);
        index := index + 1;
      }
    }

    method PlayNext(events: seq<Happening>, index: nat, statuses: seq<Status>, ghost start: Table)
      returns (more: seq<Status>)
      requires Valid() && index < |events| && |statuses| == index && Played(start, events, statuses, index, Value())
      modifies this
      ensures Valid() && |more| == index + 1 && Played(start, events, more, index + 1, Value())
    {
      ghost var before := Value();
      var status := Perform(events[index]);
      more := statuses + [status];
      PlayedMore(start, events, statuses, index, before, Value(), status);
    }

    /** One event of a run. */
    method Perform(event: Happening) returns (status: Status)
      requires Valid()
      modifies this
      ensures Valid() && asked == old(asked) + RequestOf(event) && old(replied) <= replied
      ensures KeepsRetired(old(Value()), Value())
      ensures Completes(event, status) ==> Retired(Value(), event.id)
      ensures IsCompletion(event) && Retired(old(Value()), event.id) ==> Refused(status) && Value() == old(Value())
      ensures Grows(old(Value()), Value()) && Follows(Value(), event, status)
    {
      status := Ok;
      match event {
        case Asked(op, request, world) => PerformRequest(op, request, world);
        case RemoteDone(id, error, world) => status := PerformRemote(id, error, world);
        case ClipboardDone(id, stream, result, error, world) =>
          status := PerformClipboard(id, stream, result, error, world);
        case Aborted(world) => PerformAbort(world, false);
        case Stopped(world) => PerformAbort(world, true);
      }
    }

    method PerformRequest(op: Operation, request: Kernel, world: World)
      requires Valid()
      modifies this
      ensures Valid() && asked == old(asked) + [request] && KeepsRetired(old(Value()), Value())
      ensures Grows(old(Value()), Value()) && Begun(Value(), request, PlanOf(op, world), world)
    {
      ghost var start := Value();
      Ask(op, request, world);
      StartsBegun(start, request, PlanOf(op, world), world, Value());
      forall id: nat | Retired(start, id) ensures Retired(Value(), id) {
        RetiredThroughEntry(start, request, Value(), id);
      }
    }

    method PerformRemote(id: nat, error: nat, world: World) returns (status: Status)
      requires Valid()
      modifies this
      ensures Valid() && asked == old(asked) && Grows(old(Value()), Value()) && KeepsRetired(old(Value()), Value())
      ensures !Refused(status) ==> Retired(Value(), id)
      ensures Retired(old(Value()), id) ==> Refused(status) && Value() == old(Value())
      ensures status == Ok ==> exists m: nat :: Ended(Value(), m, id, error, world)
    {
      ghost var start := Value();
      status := Complete(id, error, world);
      if status == Ok {
        RemoteFollows(start, Value(), id, error, world);
      }
      AllRetiredStay(start, Value());
    }

    method PerformClipboard(id: nat, stream: nat, result: Status, error: nat, world: World) returns (status: Status)
      requires Valid()
      modifies this
      ensures Valid() && asked == old(asked) && Grows(old(Value()), Value()) && KeepsRetired(old(Value()), Value())
      ensures !Refused(status) ==> Retired(Value(), id)
      ensures Retired(old(Value()), id) ==> Refused(status) && Value() == old(Value())
      ensures !Refused(status) ==> exists m: nat :: ReadEnded(Value(), m, id, result, error, world)
    {
      ghost var start := Value();
      FindIdIs(start, id);
      status := ClipboardComplete(id, stream, result, error, world);
      if !Refused(status) {
        ReadFollows(start, Value(), id, stream, result, error, world);
      }
      AllRetiredStay(start, Value());
    }

    method PerformAbort(world: World, everything: bool)
      requires Valid()
      modifies this
      ensures Valid() && asked == old(asked) && Grows(old(Value()), Value()) && KeepsRetired(old(Value()), Value())
    {
      ghost var start := Value();
      if everything {
        Stop(world);
      } else {
        AbortSelected(world);
      }
      AllRetiredStay(start, Value());
    }
  }

  /** What can happen to the provider. */
  datatype Happening =
    | Asked(op: Operation, request: Kernel, world: World)
    | RemoteDone(id: nat, error: nat, world: World)
    | ClipboardDone(id: nat, stream: nat, result: Status, error: nat, world: World)
    | Aborted(world: World)
    | Stopped(world: World)

  function RequestOf(event: Happening): seq<Kernel> { if event.Asked? then [event.request] else [] }

  function Requests(events: seq<Happening>, n: nat): seq<Kernel>
    requires n <= |events|
  {
    if n == 0 then [] else Requests(events, n - 1) + RequestOf(events[n - 1])
  }

  predicate IsCompletion(event: Happening) { event.RemoteDone? || event.ClipboardDone? }

  predicate Refused(status: Status) { status == State || status == InvalidArgument }

  /** The event has ended the request it names, to judge by its status. */
  predicate Completes(event: Happening, status: Status) { IsCompletion(event) && !Refused(status) }

  /** Completions of the same request, whichever way they come. */
  predicate SameId(a: Happening, b: Happening) { IsCompletion(a) && IsCompletion(b) && a.id == b.id }

  /** Ids once retired stay so. */
  ghost predicate KeepsRetired(b: Table, a: Table) {
    forall id: nat | Retired(b, id) :: Retired(a, id)
  }

  /** Whatever completed is retired, and each later completion of the same id was refused. */
  ghost predicate Told(events: seq<Happening>, statuses: seq<Status>, n: nat, t: Table) {
    && n <= |events| && n <= |statuses|
    && (forall i | 0 <= i < n && Completes(events[i], statuses[i]) :: Retired(t, events[i].id))
    && (forall i, j | 0 <= i < j < n && SameId(events[i], events[j]) && Completes(events[i], statuses[i]) ::
          Refused(statuses[j]))
  }

  /** The slot an answer to a stage finds. */
  function SlotOf(s: Sent): Slot { Busy(s.id, s.request, s.kind, s.stage, s.terminal) }

  /** What was due after the stage at place `m` of the history has come about. */
  ghost predicate DoneFrom(t: Table, m: nat, next: Next) {
    && m < |t.sent| && t.sent[m].request.Some?
    && match next
       case Goes(stage, terminal) =>
         exists j | m < j < |t.sent| ::
           t.sent[j].request == t.sent[m].request && t.sent[j].kind == t.sent[m].kind
           && t.sent[j].stage == stage && t.sent[j].terminal == terminal
       case Ends(answer) => Reply(t.sent[m].request.value, answer) in t.replied
  }

  /** The stage with this id was answered in this way. */
  ghost predicate Ended(t: Table, m: nat, id: nat, error: nat, world: World) {
    && m < |t.sent| && t.sent[m].id == id
    && (t.sent[m].request.Some? ==> DoneFrom(t, m, AfterComplete(SlotOf(t.sent[m]), error, world)))
  }

  /** The clipboard read with this id was answered in this way. */
  ghost predicate ReadEnded(t: Table, m: nat, id: nat, result: Status, error: nat, world: World) {
    && m < |t.sent| && t.sent[m].id == id
    && (t.sent[m].request.Some? ==> DoneFrom(t, m, Ends(ReadAnswer(result, error, world))))
  }

  /** The stage was handed over for the request at some time. */
  ghost predicate HandedOver(t: Table, m: nat, request: Kernel, kind: Kind, stage: Stage) {
    && m < |t.sent| && t.sent[m].request == Some(request) && t.sent[m].kind == kind
    && t.sent[m].stage == stage && t.sent[m].terminal == 0
  }

  /** The request was told at once, or its first stage was handed over. */
  ghost predicate Begun(t: Table, request: Kernel, plan: Plan, world: World) {
    match plan
    case Now(answer) => Reply(request, answer) in t.replied
    case Cached(answer) => Reply(request, answer) in t.replied || Reply(request, Error(EBUSY)) in t.replied
    case Begins(kind, stage) =>
      || Reply(request, Error(EBUSY)) in t.replied
      || (if kind == ClipboardRead || world.says(Prepared) then exists m: nat :: HandedOver(t, m, request, kind, stage)
          else Reply(request, Error(EIO)) in t.replied)
  }

  /** What was due after an event of the run has come about. */
  ghost predicate Follows(t: Table, event: Happening, status: Status) {
    match event
    case Asked(op, request, world) => Begun(t, request, PlanOf(op, world), world)
    case RemoteDone(id, error, world) => status == Ok ==> exists m: nat :: Ended(t, m, id, error, world)
    case ClipboardDone(id, _, result, error, world) =>
      !Refused(status) ==> exists m: nat :: ReadEnded(t, m, id, result, error, world)
    case _ => true
  }

  lemma SentStays(b: Table, a: Table, m: nat, next: Next)
    requires Grows(b, a) && DoneFrom(b, m, next)
    ensures DoneFrom(a, m, next)
  {
    if next.Goes? {
      var j :| m < j < |b.sent| && b.sent[j].request == b.sent[m].request && b.sent[j].kind == b.sent[m].kind
            && b.sent[j].stage == next.stage && b.sent[j].terminal == next.terminal;
      assert a.sent[j] == b.sent[j];
    }
  }

  lemma FollowsStill(b: Table, a: Table, event: Happening, status: Status)
    requires Grows(b, a) && Follows(b, event, status)
    ensures Follows(a, event, status)
  {
    match event {
      case Asked(op, request, world) =>
        if m: nat :| PlanOf(op, world).Begins?
                     && HandedOver(b, m, request, PlanOf(op, world).kind, PlanOf(op, world).stage) {
          assert HandedOver(a, m, request, PlanOf(op, world).kind, PlanOf(op, world).stage);
        }
      case RemoteDone(id, error, world) =>
        if m: nat :| status == Ok && Ended(b, m, id, error, world) {
          if b.sent[m].request.Some? {
            SentStays(b, a, m, AfterComplete(SlotOf(b.sent[m]), error, world));
          }
          assert Ended(a, m, id, error, world);
        }
      case ClipboardDone(id, stream, result, error, world) =>
        if m: nat :| !Refused(status) && ReadEnded(b, m, id, result, error, world) {
          if b.sent[m].request.Some? {
            SentStays(b, a, m, Ends(ReadAnswer(result, error, world)));
          }
          assert ReadEnded(a, m, id, result, error, world);
        }
      case _ =>
    }
  }

  lemma StartsBegun(b: Table, request: Kernel, plan: Plan, world: World, a: Table)
    requires Starts(b, request, plan, world, a)
    ensures Begun(a, request, plan, world)
  {
    match plan
    case Now(answer) => ImmediateIsReply(b, request, answer);
    case Cached(answer) => ImmediateIsReply(b, request, Error(EBUSY));
    case Begins(kind, stage) =>
      ImmediateIsReply(b, request, Error(EBUSY));
      if !Full(b.slots) && (kind == ClipboardRead || world.says(Prepared)) {
        var m :| |b.sent| <= m < |a.sent| && a.sent[m].request == Some(request) && a.sent[m].kind == kind
              && a.sent[m].stage == stage && a.sent[m].terminal == 0;
        assert HandedOver(a, m, request, kind, stage);
      }
  }

  lemma ImmediateIsReply(b: Table, request: Kernel, answer: Answer)
    ensures Reply(request, answer) in Immediate(b, request, answer).replied
  {
    assert Immediate(b, request, answer).replied[|b.replied|] == Reply(request, answer);
  }

  lemma RemoteFollows(b: Table, a: Table, id: nat, error: nat, world: World)
    requires Inv(b) && Grows(b, a) && exists i: nat :: Held(b, i, id)
    requires forall i: nat | Held(b, i, id) && b.slots[i].request.Some? ::
      Does(b, a, b.slots[i].request.value, b.slots[i].kind, AfterComplete(b.slots[i], error, world))
    ensures exists m: nat :: Ended(a, m, id, error, world)
  {
    var i: nat :| Held(b, i, id);
    var m := SentAt(b, i);
    if b.slots[i].request.Some? {
      DoesFrom(b, a, m, AfterComplete(b.slots[i], error, world));
    }
    assert Ended(a, m, id, error, world);
  }

  lemma SentAt(t: Table, i: nat) returns (m: nat)
    requires Traced(t) && i < |t.slots| && t.slots[i].Busy? && t.slots[i].id != 0
    ensures m < |t.sent| && SlotOf(t.sent[m]) == t.slots[i]
  {
    assert SentOf(t.slots[i]) in t.sent;
    m :| m < |t.sent| && t.sent[m] == SentOf(t.slots[i]);
  }

  lemma DoesFrom(b: Table, a: Table, m: nat, next: Next)
    requires Grows(b, a) && m < |b.sent| && b.sent[m].request.Some?
    requires Does(b, a, b.sent[m].request.value, b.sent[m].kind, next)
    ensures DoneFrom(a, m, next)
  {
    if next.Goes? {
      var j :| |b.sent| <= j < |a.sent| && a.sent[j].request == b.sent[m].request && a.sent[j].kind == b.sent[m].kind
            && a.sent[j].stage == next.stage && a.sent[j].terminal == next.terminal;
    }
  }

  lemma ReadFollows(b: Table, a: Table, id: nat, stream: nat, result: Status, error: nat, world: World)
    requires Inv(b) && Grows(b, a) && id != 0 && ReadWith(b.slots, id, stream, world).Some?
    requires a == Finish(b, ReadWith(b.slots, id, stream, world).value, ReadAnswer(result, error, world))
    ensures exists m: nat :: ReadEnded(a, m, id, result, error, world)
  {
    var i := ReadWith(b.slots, id, stream, world).value;
    FindIdIs(b, id);
    var m := SentAt(b, i);
    if b.slots[i].request.Some? {
      ReplySent(b, i, ReadAnswer(result, error, world));
      DoesFrom(b, a, m, Ends(ReadAnswer(result, error, world)));
    }
    assert ReadEnded(a, m, id, result, error, world);
  }

  /** All of that holds of the first `n` events. */
  ghost predicate Followed(events: seq<Happening>, statuses: seq<Status>, n: nat, t: Table) {
    n <= |events| && n <= |statuses| && forall i | 0 <= i < n :: Follows(t, events[i], statuses[i])
  }

  lemma FollowedMore(events: seq<Happening>, statuses: seq<Status>, n: nat, b: Table, a: Table, status: Status)
    requires Followed(events, statuses, n, b) && |statuses| == n < |events| && Grows(b, a)
    requires Follows(a, events[n], status)
    ensures Followed(events, statuses + [status], n + 1, a)
  {
    var more := statuses + [status];
    forall i | 0 <= i < n + 1 ensures Follows(a, events[i], more[i]) {
      if i < n {
        assert Follows(b, events[i], statuses[i]);
        FollowsStill(b, a, events[i], statuses[i]);
      }
    }
  }

  /** What a run has come to after `n` events. */
  ghost predicate Played(start: Table, events: seq<Happening>, statuses: seq<Status>, n: nat, t: Table) {
    && Told(events, statuses, n, t) && KeepsRetired(start, t) && Followed(events, statuses, n, t)
    && t.asked == start.asked + Requests(events, n) && start.replied <= t.replied
  }

  lemma PlayedMore(start: Table, events: seq<Happening>, statuses: seq<Status>, n: nat, b: Table, a: Table,
                   status: Status)
    requires |statuses| == n < |events| && Played(start, events, statuses, n, b) && KeepsRetired(b, a)
    requires a.asked == b.asked + RequestOf(events[n]) && Grows(b, a) && Follows(a, events[n], status)
    requires Completes(events[n], status) ==> Retired(a, events[n].id)
    requires IsCompletion(events[n]) && Retired(b, events[n].id) ==> Refused(status)
    ensures Played(start, events, statuses + [status], n + 1, a)
  {
    ToldMore(events, statuses, n, b, a, status);
    FollowedMore(events, statuses, n, b, a, status);
    assert (start.asked + Requests(events, n)) + RequestOf(events[n]) == start.asked + Requests(events, n + 1);
  }

  lemma ToldMore(events: seq<Happening>, statuses: seq<Status>, n: nat, b: Table, a: Table, status: Status)
    requires Told(events, statuses, n, b) && |statuses| == n < |events| && KeepsRetired(b, a)
    requires Completes(events[n], status) ==> Retired(a, events[n].id)
    requires IsCompletion(events[n]) && Retired(b, events[n].id) ==> Refused(status)
    ensures Told(events, statuses + [status], n + 1, a)
  {
    var more := statuses + [status];
    forall i, j | 0 <= i < j < n + 1 && SameId(events[i], events[j]) && Completes(events[i], more[i])
      ensures Refused(more[j])
    {
      assert Completes(events[i], statuses[i]) && Retired(b, events[i].id);
    }
  }

  lemma AllRetiredStay(b: Table, a: Table)
    requires Later(b, a)
    ensures KeepsRetired(b, a)
  {
    forall id: nat | Retired(b, id) ensures Retired(a, id) {
      RetiredStays(b, a, id);
    }
  }

  lemma DoesWithin(b: Table, m: Table, a: Table, request: Kernel, kind: Kind, next: Next)
    requires Grows(b, m) && Does(m, a, request, kind, next)
    ensures Does(b, a, request, kind, next)
  {
    match next
    case Goes(stage, terminal) => SubmittedWithin(b, m, a, a, Some(request), kind, stage, terminal);
    case Ends(answer) => RepliedWithin(b, m, a, a, request, answer);
  }

  /** A reply and then whatever a watch's callback does. */
  lemma FinishedThen(start: Table, finished: Table, end: Table, i: nat, answer: Answer)
    requires Later(start, finished) && KeepsFresh(start, finished, i) && Calm(finished, end)
    requires i < |start.slots| && start.slots[i].Busy?
    requires start.slots[i].id != 0 ==> Retired(finished, start.slots[i].id)
    requires start.slots[i].request.Some? ==> Replied(start, finished, start.slots[i].request.value, answer)
    ensures Later(start, end) && KeepsFresh(start, end, i)
    ensures start.slots[i].id != 0 ==> Retired(end, start.slots[i].id)
    ensures start.slots[i].request.Some? ==> Replied(start, end, start.slots[i].request.value, answer)
  {
    LaterThen(start, finished, end);
    if start.slots[i].id != 0 {
      RetiredStays(finished, end, start.slots[i].id);
    }
    if start.slots[i].request.Some? {
      RepliedWithin(start, start, finished, end, start.slots[i].request.value, answer);
    }
  }

  /** A stage handed over and then whatever the callback does. */
  lemma HandedThen(start: Table, handed: Table, end: Table, i: nat, stage: Stage, terminal: nat)
    requires Later(start, handed) && KeepsFresh(start, handed, i) && Calm(handed, end)
    requires i < |start.slots| && start.slots[i].Busy?
    requires start.slots[i].id != 0 ==> Retired(handed, start.slots[i].id)
    requires Submitted(start, handed, start.slots[i].request, start.slots[i].kind, stage, terminal)
    ensures Later(start, end) && KeepsFresh(start, end, i)
    ensures start.slots[i].id != 0 ==> Retired(end, start.slots[i].id)
    ensures Submitted(start, end, start.slots[i].request, start.slots[i].kind, stage, terminal)
  {
    LaterThen(start, handed, end);
    SubmittedWithin(start, start, handed, end, start.slots[i].request, start.slots[i].kind, stage, terminal);
    if start.slots[i].id != 0 {
      RetiredStays(handed, end, start.slots[i].id);
    }
  }

  /** An id that left its slot is retired: it can be in no other. */
  lemma LeftSlot(b: Table, a: Table, i: nat)
    requires DistinctIds(b) && Later(b, a) && i < |b.slots| && b.slots[i].Busy? && b.slots[i].id != 0
    requires !Held(a, i, b.slots[i].id)
    ensures Retired(a, b.slots[i].id)
  {
    var id := b.slots[i].id;
    assert Held(b, i, id);
    forall j: nat ensures !Held(a, j, id) {}
  }

  /** A slot taken for a request is not a watch. */
  lemma WatchesBefore(before: seq<Slot>, slots: seq<Slot>, i: nat, world: World, end: Table)
    requires i < |before| == |slots| && before[i].Free? && slots == before[i := slots[i]]
    requires slots[i].Busy? && slots[i].kind != Notify
    requires forall j | 0 <= j < |slots| && WatchesFirst(slots, world, j) && slots[j].id != 0 ::
      Retired(end, slots[j].id)
    ensures forall j | 0 <= j < |before| && WatchesFirst(before, world, j) && before[j].id != 0 ::
      Retired(end, before[j].id)
  {
    forall j | 0 <= j < |before| && WatchesFirst(before, world, j) && before[j].id != 0
      ensures Retired(end, before[j].id)
    {
      assert WatchesFirst(slots, world, j);
    }
  }

  lemma StayRetired(start: Table, cancelled: Table, end: Table, world: World)
    requires Later(cancelled, end)
    requires forall j | 0 <= j < |start.slots| && WatchesFirst(start.slots, world, j) && start.slots[j].id != 0 ::
      Retired(cancelled, start.slots[j].id)
    ensures forall j | 0 <= j < |start.slots| && WatchesFirst(start.slots, world, j) && start.slots[j].id != 0 ::
      Retired(end, start.slots[j].id)
  {
    forall j | 0 <= j < |start.slots| && WatchesFirst(start.slots, world, j) && start.slots[j].id != 0
      ensures Retired(end, start.slots[j].id)
    {
      RetiredStays(cancelled, end, start.slots[j].id);
    }
  }

  /** A slot without a request of the kernel. */
  predicate Vacant(s: Slot) { s.Busy? ==> s.request.None? }

  /** The selected ones among the first `n` slots hold no request of the kernel. */
  ghost predicate Emptied(slots: seq<Slot>, n: nat, world: World) {
    forall i | 0 <= i < n && i < |slots| && world.says(Selected(i)) :: Vacant(slots[i])
  }

  /** No kernel request moves into a slot that had none. */
  lemma StillEmptied(b: Table, a: Table, n: nat, world: World)
    requires Later(b, a) && Emptied(b.slots, n, world)
    ensures Emptied(a.slots, n, world)
  {
    forall i | 0 <= i < n && i < |a.slots| && world.says(Selected(i)) ensures Vacant(a.slots[i]) {
      assert Inherits(b.slots[i], a.slots[i]) && Vacant(b.slots[i]);
    }
  }

  lemma SelectedSettled(b: Table, a: Table, world: World)
    requires Conserved(b) && Conserved(a) && Later(b, a) && Emptied(a.slots, |a.slots|, world)
    ensures forall i | 0 <= i < |a.slots| && world.says(Selected(i)) && !Vacant(b.slots[i]) ::
      Settled(b, a, b.slots[i].request.value)
  {
    forall i | 0 <= i < |a.slots| && world.says(Selected(i)) && !Vacant(b.slots[i])
      ensures Settled(b, a, b.slots[i].request.value)
    {
      assert Vacant(a.slots[i]);
      ReplyCame(b, a, i);
    }
  }
}
