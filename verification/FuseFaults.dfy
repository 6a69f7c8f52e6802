/**
  Which error the FUSE provider tells the kernel of: that of the first check that fails, where an
  error remembered from an earlier stage comes before the errors of the later ones.
 */
module FuseFaults {
  import opened Status
  import opened FuseTable
  import opened FuseProvider
  import opened FuseAnswers

  /** Something a request needs, and the error without it, by its number. */
  datatype Check = Check(holds: bool, errno: nat)

  /** The error of the first check that fails; zero if none does. */
  function FirstFault(checks: seq<Check>): nat {
    if checks == [] then 0 else if checks[0].holds then FirstFault(checks[1..]) else checks[0].errno
  }

  /** A stage that came back clean. */
  function Clean(error: nat): Check { Check(error == 0, error) }

  // --- Requests ---

  function StartChecks(op: Operation, world: World): seq<Check> {
    match op
    case LookupOp =>
      [Check(world.says(ParentKnown), 116), Check(world.says(NameValid), 22),
       Check(world.says(ChildReady) || world.says(ParentRemote), 2)]
    case OpenOp(directory) =>
      [Check(world.says(NodeKnown), 22), Check(world.says(NodeReady), 116), Check(world.says(ModeValid), 22),
       Check(world.says(TypeMatches), if directory then 20 else 21), Check(directory || world.says(WriteAllowed), 30),
       Check(!world.says(NodeLocal) || world.says(HandleFree), 24)]
    case ReadOp =>
      [Check(world.says(HandleUsable), 116),
       Check(world.says(ReadEmpty) || !world.says(NodeClipboard) || world.says(ClipboardCurrent), 116)]
    case WriteOp => [Check(world.says(HandleUsable), 116), Check(world.says(Writable), 30)]
    case FlushOp => [Check(world.says(HandleUsable), 116)]
    case LockOp =>
      [Check(world.says(HandleUsable), 22), Check(world.says(LockValid), 22), Check(world.says(LockRangeValid), 75)]
    case ReadDirOp =>
      [Check(world.says(HandleUsable), 116), Check(!world.says(HandleLocal) || world.says(EntriesFit), 28),
       Check(FromRemote(world) || world.says(DirectoryKnown), 116),
       Check(FromRemote(world) || world.says(OffsetValid), 116)]
    case ReleaseOp(_) =>
      [Check(world.says(HandleUsable), 116), Check(world.says(HandleLocal) || world.says(NodeKnown), 116)]
  }

  /** The listing has to be fetched first. */
  predicate FromRemote(world: World) { !world.says(HandleLocal) && !world.says(HandleLoaded) }

  /** A request is told at once of the first fault; without one it succeeds at once or begins. */
  lemma StartFault(op: Operation, world: World)
    ensures var plan, fault := PlanOf(op, world), FirstFault(StartChecks(op, world));
      if fault != 0 then plan in {Now(Error(fault)), Cached(Error(fault))}
      else plan.Begins? || plan.answer == Success(KindOf(op))
  {
    var checks := StartChecks(op, world);
    FaultsUnfold(checks);
  }

  /** The first of up to six faults. */
  lemma FaultsUnfold(checks: seq<Check>)
    ensures FirstFault(checks) ==
      if |checks| > 0 && !checks[0].holds then checks[0].errno
      else if |checks| > 1 && !checks[1].holds then checks[1].errno
      else if |checks| > 2 && !checks[2].holds then checks[2].errno
      else if |checks| > 3 && !checks[3].holds then checks[3].errno
      else if |checks| > 4 && !checks[4].holds then checks[4].errno
      else if |checks| > 5 then FirstFault(checks[5..])
      else 0
  {
    if |checks| > 0 {
      var rest := checks[1..];
      assert |checks| > 5 ==> rest[4..] == checks[5..];
      FourUnfold(rest);
    }
  }

  lemma FourUnfold(checks: seq<Check>)
    ensures FirstFault(checks) ==
      if |checks| > 0 && !checks[0].holds then checks[0].errno
      else if |checks| > 1 && !checks[1].holds then checks[1].errno
      else if |checks| > 2 && !checks[2].holds then checks[2].errno
      else if |checks| > 3 && !checks[3].holds then checks[3].errno
      else if |checks| > 4 then FirstFault(checks[4..])
      else 0
  {
    if |checks| > 1 {
      var rest := checks[2..];
      assert checks[1..][1..] == rest;
      assert |rest| > 1 ==> rest[1..][1..] == checks[4..];
    }
  }

  // --- Completions ---

  function EndChecks(s: Slot, error: nat, world: World): seq<Check>
    requires s.Busy?
  {
    match s.kind
    case Lookup =>
      [Check(world.says(ParentKnown), 116)] +
      (match s.stage
       case Opening => [Clean(error), Check(world.says(Prepared), 5)]
       case Querying =>
         if world.says(Prepared) then [] else [Clean(error), Clean(world.decoded), Check(false, 5)]
       case _ => [Clean(s.terminal), Clean(error), Check(world.says(ChildFound), 2)])
    case Open => OpenChecks(s, error, world)
    case OpenDir => OpenChecks(s, error, world)
    case ReadDir =>
      [Check(world.says(HandleUsable), 116), Check(world.says(NodeKnown), 116)] +
      (if error == 2 then [Check(world.says(DirectoryKnown), 116), Check(world.says(OffsetValid), 116)]
       else [Clean(error), Clean(world.decoded), Check(world.says(SomeDecoded), 71), Check(world.says(QueriesLeft), 28),
             Check(world.says(Prepared), 5)])
    case Read => [Clean(error), Check(world.says(DataFits), 71)]
    case Write =>
      [Clean(error), Check(world.says(NodeKnown), 71), Check(world.says(TransferValid), 71),
       Check(world.says(EndFits), 27)]
    case Flush => [Clean(error)]
    case Lock => [Check(error == 0, if error == 13 then 11 else error)]
    case _ => [Clean(s.terminal), Clean(error)]
  }

  /** An open whose file is closed again was refused before, whatever became of the close. */
  function OpenChecks(s: Slot, error: nat, world: World): seq<Check>
    requires s.Busy?
  {
    if s.stage == Closing
    then [Clean(s.terminal), Check(world.says(NodeKnown), 116), Clean(error), Check(false, 5)]
    else [Check(world.says(NodeKnown), 116), Clean(error), Check(world.says(HandleFree), 24)]
  }

  /** The open left a file behind that can be closed. */
  predicate Closable(s: Slot, world: World)
    requires s.Busy?
  {
    s.kind in {Open, OpenDir} && s.stage != Closing
    && world.says(FileGiven) && world.says(NodeKnown) && world.says(Prepared)
  }

  /** A request ends with the first fault, unless it has a file to close before it is told of it. */
  lemma EndFault(s: Slot, error: nat, world: World)
    requires s.Busy? && s.kind != Notify && s.kind != ClipboardRead
    ensures var next, fault := AfterComplete(s, error, world), FirstFault(EndChecks(s, error, world));
      if fault != 0 then next == if Closable(s, world) then Goes(Closing, fault) else Ends(Error(fault))
      else next.Goes? || next == Ends(Success(s.kind))
  {
    var checks := EndChecks(s, error, world);
    FaultsUnfold(checks);
    if |checks| > 5 {
      FourUnfold(checks[5..]);
    }
  }

  /** A lookup that could not query its file closes it all the same, and remembers why. */
  lemma QueryFault(s: Slot, error: nat, world: World)
    requires s.Busy? && s.kind == Lookup && s.stage == Querying && world.says(ParentKnown) && world.says(Prepared)
    ensures AfterComplete(s, error, world) == Goes(Closing, FirstFault([Clean(error), Clean(world.decoded)]))
  {
    FaultsUnfold([Clean(error), Clean(world.decoded)]);
  }

  /** The answer to a clipboard read fails in the same way. */
  lemma ReadFault(result: Status, error: nat, world: World)
    ensures var fault := FirstFault([Check(result == Ok, if error == 0 then 5 else error),
                                     Check(world.says(DataFits), 71)]);
      ReadAnswer(result, error, world) == if fault != 0 then Error(fault) else Data
  {
    FourUnfold([Check(result == Ok, if error == 0 then 5 else error), Check(world.says(DataFits), 71)]);
  }

  // --- Over a whole run ---

  /** If the answer to the stage is a fault, the request has been told of it, or its file is being closed first. */
  ghost predicate Faulted(t: Table, m: nat, error: nat, world: World)
    requires m < |t.sent| && t.sent[m].request.Some?
  {
    var s := SlotOf(t.sent[m]);
    var fault := FirstFault(EndChecks(s, error, world));
    fault != 0 ==>
      if Closable(s, world)
      then exists j | m < j < |t.sent| ::
             t.sent[j].request == t.sent[m].request && t.sent[j].stage == Closing && t.sent[j].terminal == fault
      else Reply(t.sent[m].request.value, Error(fault)) in t.replied
  }

  /** In every run a request that fails a check when it is made has been told which, or that no slot was free. */
  lemma RunRefuses(start: Table, events: seq<Happening>, statuses: seq<Status>, t: Table, i: nat)
    requires Inv(t) && |statuses| == |events| && Played(start, events, statuses, |events|, t)
    requires i < |events| && events[i].Asked? && FirstFault(StartChecks(events[i].op, events[i].world)) != 0
    ensures || Reply(events[i].request, Error(FirstFault(StartChecks(events[i].op, events[i].world)))) in t.replied
            || (Reply(events[i].request, Error(16)) in t.replied && events[i].op.ReadDirOp?)
  {
    assert Follows(t, events[i], statuses[i]);
    StartFault(events[i].op, events[i].world);
  }

  /** In every run that holds for each stage that was answered. */
  lemma RunFaults(start: Table, events: seq<Happening>, statuses: seq<Status>, t: Table, i: nat, m: nat)
    requires Inv(t) && |statuses| == |events| && Played(start, events, statuses, |events|, t)
    requires i < |events| && events[i].RemoteDone? && statuses[i] == Ok
    requires m < |t.sent| && t.sent[m].id == events[i].id && t.sent[m].request.Some?
    requires t.sent[m].kind != Notify && t.sent[m].kind != ClipboardRead
    ensures Faulted(t, m, events[i].error, events[i].world)
  {
    assert Follows(t, events[i], statuses[i]);
    var n: nat :| Ended(t, n, events[i].id, events[i].error, events[i].world);
    SameStage(t, m, n);
    FaultTold(t, m, events[i].id, events[i].error, events[i].world);
  }

  lemma FaultTold(t: Table, m: nat, id: nat, error: nat, world: World)
    requires Ended(t, m, id, error, world) && t.sent[m].request.Some?
    requires t.sent[m].kind != Notify && t.sent[m].kind != ClipboardRead
    ensures Faulted(t, m, error, world)
  {
    EndFault(SlotOf(t.sent[m]), error, world);
  }
}
