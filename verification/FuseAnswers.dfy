/**
  When the FUSE provider tells the kernel that a request succeeded: exactly when everything the
  request needs was there, and, over a whole run, whenever that is so at each of its stages.
 */
module FuseAnswers {
  import opened Status
  import opened Tally
  import opened FuseTable
  import opened FuseProvider

  /** The reply that says that a request of this kind succeeded. */
  function Success(kind: Kind): Answer {
    match kind
    case Lookup => EntryFound
    case Open => Opened
    case OpenDir => Opened
    case Read => Data
    case ClipboardRead => Data
    case ReadDir => Data
    case Write => Written
    case _ => Error(0)
  }

  /** Everything the last stage of the request needs is there, and nothing failed before. */
  predicate Favourable(s: Slot, error: nat, world: World)
    requires s.Busy?
  {
    match s.kind
    case Lookup =>
      s.stage == Closing && s.terminal == 0 && error == 0 && world.says(ParentKnown) && world.says(ChildFound)
    case Open => s.stage == Opening && error == 0 && world.says(NodeKnown) && world.says(HandleFree)
    case OpenDir => s.stage == Opening && error == 0 && world.says(NodeKnown) && world.says(HandleFree)
    case Read => error == 0 && world.says(DataFits)
    case Write => error == 0 && world.says(NodeKnown) && world.says(TransferValid) && world.says(EndFits)
    case Flush => error == 0
    case Lock => error == 0
    case Release => s.terminal == 0 && error == 0
    case ReleaseDir => s.terminal == 0 && error == 0
    case ReadDir =>
      error == ENOENT && world.says(HandleUsable) && world.says(NodeKnown)
      && world.says(DirectoryKnown) && world.says(OffsetValid)
    case _ => false
  }

  /** A remote completion ends a request with the reply of success if and only if that is so. */
  lemma SucceedsIff(s: Slot, error: nat, world: World)
    requires s.Busy? && TypedSlot(s) && s.id != 0 && s.kind != Notify && s.kind != ClipboardRead
    ensures AfterComplete(s, error, world) == Ends(Success(s.kind)) <==> Favourable(s, error, world)
  {
  }

  /** A clipboard completion does if and only if the client sent what fits. */
  lemma ReadSucceedsIff(result: Status, error: nat, world: World)
    ensures ReadAnswer(result, error, world) == Success(ClipboardRead) <==> result == Ok && world.says(DataFits)
  {
  }

  /** A stage that is not the last one leads to the next. */
  predicate Proceeds(s: Slot, error: nat, world: World)
    requires s.Busy?
  {
    match s.kind
    case Lookup =>
      && s.stage in {Opening, Querying} && error == 0 && world.says(ParentKnown) && world.says(Prepared)
      && (s.stage == Querying ==> world.decoded == 0)
    case ReadDir =>
      error == 0 && world.says(HandleUsable) && world.says(NodeKnown) && world.decoded == 0
      && world.says(SomeDecoded) && world.says(QueriesLeft) && world.says(Prepared)
    case _ => false
  }

  /** Without a failure so far, it goes on so if and only if everything the next stage needs is there. */
  lemma ProceedsIff(s: Slot, error: nat, world: World)
    requires s.Busy? && TypedSlot(s) && s.id != 0 && s.kind in {Lookup, ReadDir} && s.terminal == 0
    ensures (exists stage :: AfterComplete(s, error, world) == Goes(stage, 0)) <==> Proceeds(s, error, world)
    ensures Proceeds(s, error, world) ==> AfterComplete(s, error, world) == Goes(StageAfter(s), 0)
  {
    if Proceeds(s, error, world) {
      assert AfterComplete(s, error, world) == Goes(StageAfter(s), 0);
    }
  }

  /** A lookup opens, queries and closes; a listing queries again and again. */
  function StageAfter(s: Slot): Stage
    requires s.Busy?
  {
    if s.kind == Lookup && s.stage == Querying then Closing else Querying
  }

  // --- Requests told at once ---

  /** The requests that succeed without a remote stage, and all they need. */
  predicate AtOnce(op: Operation, world: World) {
    match op
    case LookupOp => world.says(ParentKnown) && world.says(NameValid) && world.says(ChildReady)
    case OpenOp(directory) => Openable(directory, world) && world.says(NodeLocal) && world.says(HandleFree)
    case ReadOp => world.says(HandleUsable) && world.says(ReadEmpty)
    case WriteOp => world.says(HandleUsable) && world.says(Writable) && world.says(WriteEmpty)
    case ReadDirOp =>
      && world.says(HandleUsable) && world.says(DirectoryKnown) && world.says(OffsetValid)
      && if world.says(HandleLocal) then world.says(EntriesFit) else world.says(HandleLoaded)
    case ReleaseOp(_) => world.says(HandleUsable) && world.says(HandleLocal)
    case _ => false
  }

  predicate Openable(directory: bool, world: World) {
    && world.says(NodeKnown) && world.says(NodeReady) && world.says(ModeValid) && world.says(TypeMatches)
    && (directory || world.says(WriteAllowed))
  }

  /** The requests that go to the remote side or the clipboard, with the kind and the stage they begin with. */
  predicate Remotely(op: Operation, world: World, kind: Kind, stage: Stage) {
    match op
    case LookupOp =>
      kind == Lookup && stage == Opening && world.says(ParentKnown) && world.says(NameValid)
      && !world.says(ChildReady) && world.says(ParentRemote)
    case OpenOp(directory) =>
      kind == (if directory then OpenDir else Open) && stage == Opening
      && Openable(directory, world) && !world.says(NodeLocal)
    case ReadOp =>
      && world.says(HandleUsable) && !world.says(ReadEmpty)
      && if world.says(NodeClipboard) then kind == ClipboardRead && stage == NoStage && world.says(ClipboardCurrent)
         else kind == Read && stage == Transferring
    case WriteOp =>
      kind == Write && stage == Transferring && world.says(HandleUsable) && world.says(Writable)
      && !world.says(WriteEmpty)
    case FlushOp => kind == Flush && stage == Transferring && world.says(HandleUsable)
    case LockOp =>
      kind == Lock && stage == Transferring && world.says(HandleUsable) && world.says(LockValid)
      && world.says(LockRangeValid)
    case ReadDirOp =>
      kind == ReadDir && stage == Querying && world.says(HandleUsable)
      && !world.says(HandleLocal) && !world.says(HandleLoaded)
    case ReleaseOp(directory) =>
      kind == (if directory then ReleaseDir else Release) && stage == Closing
      && world.says(HandleUsable) && !world.says(HandleLocal) && world.says(NodeKnown)
  }

  function KindOf(op: Operation): Kind {
    match op
    case LookupOp => Lookup
    case OpenOp(directory) => if directory then OpenDir else Open
    case ReadOp => Read
    case WriteOp => Write
    case FlushOp => Flush
    case LockOp => Lock
    case ReadDirOp => ReadDir
    case ReleaseOp(directory) => if directory then ReleaseDir else Release
  }

  /** A request is told of its success at once if and only if it needs nothing remote; if it does, it begins. */
  lemma StartsIff(op: Operation, world: World)
    ensures PlanOf(op, world) in {Now(Success(KindOf(op))), Cached(Success(KindOf(op)))} <==> AtOnce(op, world)
    ensures forall kind, stage :: PlanOf(op, world) == Begins(kind, stage) <==> Remotely(op, world, kind, stage)
  {
  }

  // --- Over a whole run ---

  /** The event answers the stage, without a failure and with everything there that is needed. */
  predicate Kindly(s: Sent, event: Happening) {
    match event
    case RemoteDone(id, error, world) =>
      && s.kind != ClipboardRead && id == s.id
      && (Favourable(SlotOf(s), error, world) || Proceeds(SlotOf(s), error, world))
    case ClipboardDone(id, _, result, _, world) =>
      s.kind == ClipboardRead && id == s.id && result == Ok && world.says(DataFits)
    case _ => false
  }

  /** Every stage handed over for the request has been answered in that way. */
  ghost predicate GivenItsStages(events: seq<Happening>, statuses: seq<Status>, t: Table, request: Kernel, kind: Kind) {
    |statuses| == |events|
    && forall m | 0 <= m < |t.sent| && t.sent[m].request == Some(request) && t.sent[m].kind == kind ::
      exists i | 0 <= i < |events| :: statuses[i] == Ok && Kindly(t.sent[m], events[i])
  }

  /** Stages of one request, in the order it may take them. */
  predicate Staged(kind: Kind, stage: Stage) {
    match kind
    case Lookup => stage in {Opening, Querying, Closing}
    case Open => stage == Opening
    case OpenDir => stage == Opening
    case ReadDir => stage == Querying
    case Release => stage == Closing
    case ReleaseDir => stage == Closing
    case ClipboardRead => stage == NoStage
    case Notify => false
    case _ => stage == Transferring
  }

  /** One stage answered kindly: the next stage, or the successful reply. */
  lemma OneStage(events: seq<Happening>, statuses: seq<Status>, t: Table, request: Kernel, kind: Kind,
                 m: nat, i: nat)
    requires Inv(t) && |statuses| == |events| && Followed(events, statuses, |events|, t)
    requires m < |t.sent| && t.sent[m].request == Some(request) && t.sent[m].kind == kind
    requires t.sent[m].terminal == 0 && Staged(kind, t.sent[m].stage)
    requires i < |events| && statuses[i] == Ok && Kindly(t.sent[m], events[i])
    ensures || Reply(request, Success(kind)) in t.replied
            || exists j: nat | m < j < |t.sent| ::
                 t.sent[j].request == Some(request) && t.sent[j].kind == kind && t.sent[j].terminal == 0
                 && Staged(kind, t.sent[j].stage)
  {
    assert Follows(t, events[i], statuses[i]);
    match events[i] {
      case RemoteDone(id, error, world) =>
        var n: nat :| Ended(t, n, id, error, world);
        SameStage(t, m, n);
        AnsweredStage(SlotOf(t.sent[m]), error, world);
      case ClipboardDone(id, stream, result, error, world) =>
        var n: nat :| ReadEnded(t, n, id, result, error, world);
        SameStage(t, m, n);
    }
  }

  lemma SameStage(t: Table, m: nat, n: nat)
    requires Traced(t) && m < |t.sent| && n < |t.sent| && t.sent[m].id == t.sent[n].id
    ensures m == n
  {
  }

  lemma AnsweredStage(s: Slot, error: nat, world: World)
    requires s.Busy? && s.terminal == 0 && Staged(s.kind, s.stage) && s.kind != ClipboardRead
    requires Favourable(s, error, world) || Proceeds(s, error, world)
    ensures Favourable(s, error, world) ==> AfterComplete(s, error, world) == Ends(Success(s.kind))
    ensures !Favourable(s, error, world) ==>
      && AfterComplete(s, error, world).Goes? && AfterComplete(s, error, world).terminal == 0
      && Staged(s.kind, AfterComplete(s, error, world).stage)
  {
  }

  lemma {:induction false} StagesLead(events: seq<Happening>, statuses: seq<Status>, t: Table,
                                      request: Kernel, kind: Kind, m: nat)
    requires Inv(t) && Followed(events, statuses, |events|, t) && GivenItsStages(events, statuses, t, request, kind)
    requires m < |t.sent| && t.sent[m].request == Some(request) && t.sent[m].kind == kind
    requires t.sent[m].terminal == 0 && Staged(kind, t.sent[m].stage)
    ensures Reply(request, Success(kind)) in t.replied
    decreases |t.sent| - m
  {
    var i :| 0 <= i < |events| && statuses[i] == Ok && Kindly(t.sent[m], events[i]);
    OneStage(events, statuses, t, request, kind, m, i);
    if Reply(request, Success(kind)) !in t.replied {
      var j: nat :| m < j < |t.sent| && t.sent[j].request == Some(request) && t.sent[j].kind == kind
                 && t.sent[j].terminal == 0 && Staged(kind, t.sent[j].stage);
      StagesLead(events, statuses, t, request, kind, j);
    }
  }

  /**
    In every run: a request that found a slot and that was given each of its stages without a
    failure and with everything it needs, or that needs no stage, has been told of its success.
   */
  lemma RunAnswers(start: Table, events: seq<Happening>, statuses: seq<Status>, t: Table, i: nat, kind: Kind)
    requires Inv(t) && |statuses| == |events| && Played(start, events, statuses, |events|, t)
    requires i < |events| && events[i].Asked? && Reply(events[i].request, Error(EBUSY)) !in t.replied
    requires || (AtOnce(events[i].op, events[i].world) && kind == KindOf(events[i].op))
             || (&& (exists stage :: Remotely(events[i].op, events[i].world, kind, stage))
                 && (kind == ClipboardRead || events[i].world.says(Prepared))
                 && GivenItsStages(events, statuses, t, events[i].request, kind))
    ensures Reply(events[i].request, Success(kind)) in t.replied
  {
    assert Follows(t, events[i], statuses[i]);
    if AtOnce(events[i].op, events[i].world) && kind == KindOf(events[i].op) {
      StartsIff(events[i].op, events[i].world);
    } else {
      var stage :| Remotely(events[i].op, events[i].world, kind, stage);
      var m := FirstStage(t, events[i].op, events[i].request, events[i].world, kind, stage);
      StagesLead(events, statuses, t, events[i].request, kind, m);
    }
  }

  lemma FirstStage(t: Table, op: Operation, request: Kernel, world: World, kind: Kind, stage: Stage) returns (m: nat)
    requires Begun(t, request, PlanOf(op, world), world) && Remotely(op, world, kind, stage)
    requires Reply(request, Error(EBUSY)) !in t.replied && (kind == ClipboardRead || world.says(Prepared))
    ensures HandedOver(t, m, request, kind, stage) && Staged(kind, stage)
  {
    StartsIff(op, world);
    m :| HandedOver(t, m, request, kind, stage);
  }
}
