/** Runs of the client-drive runtime that reach the states its weaker promises leave open. */
module DriveExamples {
  import opened Status
  import opened Tally
  import opened DrivePath
  import opened DriveModel
  import opened DriveInvariants
  import opened DriveRuns
  import opened DriveDeadlines
  import opened DriveTheorems
  import opened DriveIdentity

  /** One peer, one volume, room for two requests and two files, and a transfer cap of 100 bytes. */
  function Small(timeoutMs: nat): Config { Config(1, 1, 2, 2, 64, 100, 100, timeoutMs, [], false) }

  /** A quiet hook, and a protocol that answers requests as given. */
  function Base(answer: Request -> SubmitReply): Env {
    Env((p: Peer, i: nat) => CancelReply([], p, [], Ok), (c: Completion) => Ok, (v: Volume) => Ok, answer)
  }

  function Answering(cfg: Config, answer: Request -> SubmitReply): Env {
    HookFrom(cfg, (p: Peer, i: nat) => [], (p: Peer, i: nat) => Ok, Base(answer))
  }

  /** Request `n` is answered with id `n + 10`. */
  function Quiet(cfg: Config): Env { Answering(cfg, (r: Request) => SubmitReply(Ok, r.requestId + 10)) }

  /** Every request is answered with id 11. */
  function Sharing(cfg: Config): Env { Answering(cfg, (r: Request) => SubmitReply(Ok, 11)) }

  const DEVICE: Device := Device(1, 7)

  const FIRST: Handle := Handle(1, 7, 3, 0)

  const SECOND: Handle := Handle(1, 7, 4, 0)

  function Opening(id: nat): Request {
    Request(id, 1, 1, 1, true, CREATE, DEVICE, FIRST, Some(""), 0, 0, DISPOSITION_OPEN, 0, 0, 0, 0, 0, 0, 0, 0, [],
            false, 0)
  }

  function Reading(id: nat): Request {
    Request(id, 1, 1, 1, true, READ, DEVICE, FIRST, None, 0, 0, 0, 0, 50, 0, 0, 0, 0, 0, 0, [], false, 0)
  }

  /** A CREATE that succeeded with the given file and reported number of bytes. */
  function Opened(protocolId: nat, file: Handle, transferred: nat): Event {
    Event(true, Ok, DEVICE, file, protocolId, CREATE, IO_SUCCESS, 0, transferred, false, 0)
  }

  function Start(cfg: Config): seq<Step> {
    [PeerAdded(1, 1), Protocol(1, 1, DeviceAdded(DEVICE, "C"), Quiet(cfg)), Requested(Opening(1), 0, Quiet(cfg))]
  }

  lemma {:induction false} RunMore(d: Drive, steps: seq<Step>, step: Step)
    ensures Run(d, steps + [step]) == After(Run(d, steps), step)
  {
    assert (steps + [step])[..|steps|] == steps;
  }

  // --- The states of the run ---

  function Drives(cfg: Config, p: Peer, log: seq<Completion>, submitted: seq<Key>): Drive {
    Drive(cfg, [Some(p)], 2, true, log, submitted)
  }

  function Empty(): Peer {
    Peer(1, 1, [Volume(1, DEVICE, "C", 0)], [Idle, Idle], [NoFile, NoFile], 1, 0, 0, 0, 0, 0)
  }

  function Waits(id: nat, cfg: Config): Pending {
    Pending(id, id + 10, 1, RequestDeadline(0, cfg.timeoutMs), 0, CREATE, 0, Ok, true)
  }

  /** The first request waits. */
  function OneWaits(cfg: Config): Peer {
    Empty().(pending := [Waits(1, cfg), Idle], pendingCount := 1, reservedFiles := 1)
  }

  lemma AnnouncedIs(cfg: Config)
    requires cfg == Small(cfg.timeoutMs)
    ensures Run(NewDrive(cfg, true), Start(cfg)[..2]) == Drives(cfg, Empty(), [], [])
  {
    var start, steps := NewDrive(cfg, true), Start(cfg);
    assert start.peers == [None];
    assert steps[..1] == [] + [steps[0]] && steps[..2] == steps[..1] + [steps[1]];
    RunMore(start, [], steps[0]);
    var bare := NewPeer(cfg, 1, 1);
    assert bare.volumes == [NoVolume] && bare.pending == [Idle, Idle] && bare.files == [NoFile, NoFile];
    assert AddPeer(start, 1, 1).1 == start.(peers := [Some(bare)]);
    RunMore(start, steps[..1], steps[1]);
    assert FindPeer([Some(bare)], 1, 1) == Some(0);
    assert First(bare.volumes, (v: Volume) => v.NoVolume?) == Some(0);
    assert AddVolume(cfg, true, bare, DEVICE, "C", 1, Quiet(cfg)).peer == Empty();
  }

  lemma EmptyPath()
    ensures Normalized("", 64) == Path("\\")
  {
    assert Components("") == [];
    assert "\\" + Join([]) == "\\";
  }

  /** Any CREATE with an empty path is admitted to the first idle slot while there is room. */
  lemma OpeningAdmitted(cfg: Config, p: Peer, id: nat, slot: nat)
    requires cfg == Small(cfg.timeoutMs) && id != 0 && |p.pending| == 2 && slot < 2 && p.pending[slot].Idle?
    requires slot == 1 ==> p.pending[0].Pending? && p.pending[0].requestId != id
    requires slot == 0 ==> p.pending[1].Idle? || p.pending[1].requestId != id
    requires |p.volumes| == 1 && p.volumes[0].Volume? && p.volumes[0].id == 1 && p.volumes[0].device == DEVICE
    requires p.pendingCount < 2 && p.openFiles + p.reservedFiles < 2 && p.transferred == 0 && p.reservedBytes <= 100
    ensures Admissible(cfg, p, Opening(id)) == Accept(slot)
  {
    var r := Opening(id);
    EmptyPath();
    assert FindVolume(p, 1) == Some(0);
    FirstIsNone(p.pending, (q: Pending) => RequestIs(q, id));
    assert Validate(cfg, p, 0, r) == Ok;
    FirstIs(p.pending, (q: Pending) => q.Idle?, slot);
  }

  lemma StartIs(cfg: Config)
    requires cfg == Small(cfg.timeoutMs)
    ensures Run(NewDrive(cfg, true), Start(cfg))
      == Drives(cfg, OneWaits(cfg), [], [KeyOfRequest(Opening(1))])
  {
    var start, steps := NewDrive(cfg, true), Start(cfg);
    AnnouncedIs(cfg);
    assert steps == steps[..2] + [steps[2]];
    RunMore(start, steps[..2], steps[2]);
    FirstIsAdmitted(cfg);
  }

  lemma FirstIsAdmitted(cfg: Config)
    requires cfg == Small(cfg.timeoutMs)
    ensures After(Drives(cfg, Empty(), [], []), Requested(Opening(1), 0, Quiet(cfg)))
      == Drives(cfg, OneWaits(cfg), [], [KeyOfRequest(Opening(1))])
  {
    OpeningAdmitted(cfg, Empty(), 1, 0);
    var d := Drives(cfg, Empty(), [], []);
    assert FindPeer(d.peers, 1, 1) == Some(0);
    assert [Idle, Idle][0 := Waits(1, cfg)] == [Waits(1, cfg), Idle];
  }

  lemma QuietLegal(cfg: Config, answer: Request -> SubmitReply)
    ensures LegalHook(cfg, Answering(cfg, answer))
  {
    AnyHookIsLegal(cfg, (p: Peer, i: nat) => [], (p: Peer, i: nat) => Ok, Base(answer));
  }

  lemma StartLegal(cfg: Config)
    requires cfg == Small(cfg.timeoutMs)
    ensures LegalHook(cfg, Quiet(cfg)) && LegalHook(cfg, Sharing(cfg)) && LegalRun(cfg, Start(cfg))
  {
    QuietLegal(cfg, (r: Request) => SubmitReply(Ok, r.requestId + 10));
    QuietLegal(cfg, (r: Request) => SubmitReply(Ok, 11));
  }

  /** The run asks for INT_MIN milliseconds of sleep at the given time. */
  ghost predicate AsksForIntMin(cfg: Config, steps: seq<Step>, now: nat) {
    var peers := Run(NewDrive(cfg, true), steps).peers;
    && LegalRun(cfg, steps) && MadeBy(steps, now)
    && Earliest(peers, |peers|) < U64_MAX && InGap(Earliest(peers, |peers|), now)
    && DriveTimeout(Earliest(peers, |peers|), now) + INT_MAX + 1 == 0
  }

  /**
    With any request timeout of more than INT_MAX milliseconds, one request is enough: one
    nanosecond into the gap before its deadline the runtime asks for INT_MIN milliseconds.
   */
  lemma GapIsReached(timeoutMs: nat)
    requires INT_MAX < timeoutMs < U32_RANGE
    ensures var cfg := Small(timeoutMs);
      ValidConfig(cfg) && AsksForIntMin(cfg, Start(cfg), (timeoutMs - INT_MAX) * NS_PER_MS - 1)
  {
    var cfg := Small(timeoutMs);
    StartIs(cfg);
    StartLegal(cfg);
    FarDeadline(timeoutMs);
    OneDeadline(OneWaits(cfg), timeoutMs * NS_PER_MS);
  }

  /** In this family of configurations the gap is reached by some run if and only if the timeout exceeds INT_MAX. */
  lemma GapIsReachedIff(timeoutMs: nat)
    requires 0 < timeoutMs < U32_RANGE
    ensures (exists steps, now: nat :: AsksForIntMin(Small(timeoutMs), steps, now)) <==> timeoutMs > INT_MAX
  {
    var cfg := Small(timeoutMs);
    if timeoutMs > INT_MAX {
      GapIsReached(timeoutMs);
      assert AsksForIntMin(cfg, Start(cfg), (timeoutMs - INT_MAX) * NS_PER_MS - 1);
    } else if steps, now: nat :| AsksForIntMin(cfg, steps, now) {
      DriveAlwaysWakes(cfg, true, steps, now);
    }
  }

  lemma FarDeadline(timeoutMs: nat)
    requires INT_MAX < timeoutMs < U32_RANGE
    ensures var deadline, now := timeoutMs * NS_PER_MS, (timeoutMs - INT_MAX) * NS_PER_MS - 1;
      && RequestDeadline(0, timeoutMs) == deadline < U64_MAX && 0 <= now <= U64_MAX
      && InGap(deadline, now) && DriveTimeout(deadline, now) + INT_MAX + 1 == 0
  {
    assert timeoutMs * NS_PER_MS - ((timeoutMs - INT_MAX) * NS_PER_MS - 1) == INT_MAX * NS_PER_MS + 1;
  }

  lemma OneDeadline(p: Peer, deadline: nat)
    requires |p.pending| == 2 && p.pending[0].Pending? && p.pending[1].Idle?
    requires p.pending[0].deadline == deadline < U64_MAX
    ensures Earliest([Some(p)], 1) == deadline
  {
    assert EarliestPending(p.pending, U64_MAX, 0) == U64_MAX;
    assert EarliestPending(p.pending, U64_MAX, 1) == deadline;
    assert EarliestPending(p.pending, U64_MAX, 2) == deadline;
    assert Earliest([Some(p)], 0) == U64_MAX;
  }

  // --- A completion that reports more than it reserved ---

  /** Open one file, start opening another, start reading 50 bytes, and have the second open report 100. */
  function Overrun(cfg: Config): seq<Step> {
    Start(cfg) + [Protocol(1, 1, RequestEnded(Opened(11, FIRST, 0)), Quiet(cfg)), Requested(Opening(2), 0, Quiet(cfg)),
                  Requested(Reading(3), 0, Quiet(cfg)),
                  Protocol(1, 1, RequestEnded(Opened(12, SECOND, 100)), Quiet(cfg))]
  }

  function OneOpen(): Peer {
    Empty().(volumes := [Volume(1, DEVICE, "C", 1)], files := [File(1, FIRST), NoFile], openFiles := 1)
  }

  function Second(cfg: Config): Peer {
    OneOpen().(pending := [Waits(2, cfg), Idle], pendingCount := 1, reservedFiles := 1)
  }

  function Reads(cfg: Config): Pending {
    Pending(3, 13, 1, RequestDeadline(0, cfg.timeoutMs), 50, READ, 0, Ok, false)
  }

  function Both(cfg: Config): Peer {
    Second(cfg).(pending := [Waits(2, cfg), Reads(cfg)], pendingCount := 2, reservedBytes := 50)
  }

  lemma FirstOpens(cfg: Config, env: Env)
    requires cfg == Small(cfg.timeoutMs)
    ensures var p := OneWaits(cfg);
      Terminal(cfg, p, Opened(11, FIRST, 0), env).peer == OneOpen()
  {
    var p, e := OneWaits(cfg), Opened(11, FIRST, 0);
    assert FindProtocol(p, 11) == Some(0) && FindVolume(p, 1) == Some(0);
    assert First(p.files, (f: File) => f.NoFile?) == Some(0);
    FirstIsNone(p.files, (f: File) => HandleIs(f, FIRST));
    assert [NoFile, NoFile][0 := File(1, FIRST)] == [File(1, FIRST), NoFile];
    assert [Waits(1, cfg), Idle][0 := Idle] == [Idle, Idle];
    assert p.volumes[0 := Volume(1, DEVICE, "C", 1)] == [Volume(1, DEVICE, "C", 1)];
  }

  lemma ReadingAdmitted(cfg: Config)
    requires cfg == Small(cfg.timeoutMs)
    ensures Admissible(cfg, Second(cfg), Reading(3)) == Accept(1)
    ensures Admit(cfg, Second(cfg), 1, Reading(3), 13, 0) == Both(cfg)
  {
    var p, r := Second(cfg), Reading(3);
    assert FindVolume(p, 1) == Some(0) && FindFile(p, FIRST) == Some(0);
    FirstIsNone(p.pending, (q: Pending) => RequestIs(q, 3));
    assert Validate(cfg, p, 0, r) == Ok;
    FirstIs(p.pending, (q: Pending) => q.Idle?, 1);
    assert [Waits(2, cfg), Idle][1 := Reads(cfg)] == [Waits(2, cfg), Reads(cfg)];
  }

  lemma SecondOverruns(cfg: Config, env: Env)
    requires cfg == Small(cfg.timeoutMs)
    ensures var r := Terminal(cfg, Both(cfg), Opened(12, SECOND, 100), env).peer;
      r.transferred == 100 && r.reservedBytes == 50
  {
    var p, e := Both(cfg), Opened(12, SECOND, 100);
    assert FindProtocol(p, 12) == Some(0) && FindVolume(p, 1) == Some(0);
    FirstIsNone(p.files, (f: File) => HandleIs(f, SECOND));
    FirstIs(p.files, (f: File) => f.NoFile?, 1);
    Sub64Exact(100, 0);
  }

  /** The runtime with one peer. */
  ghost predicate Alone(d: Drive, cfg: Config, p: Peer) {
    d.cfg == cfg && d.enabled && d.peers == [Some(p)] && p.id == 1 && p.generation == 1
  }

  lemma EventStep(d: Drive, cfg: Config, p: Peer, e: Event)
    requires Alone(d, cfg, p)
    ensures Alone(After(d, Protocol(1, 1, RequestEnded(e), Quiet(cfg))), cfg, Terminal(cfg, p, e, Quiet(cfg)).peer)
  {
    assert FindPeer(d.peers, 1, 1) == Some(0);
    assert d.peers[0 := Some(Terminal(cfg, p, e, Quiet(cfg)).peer)] == [Some(Terminal(cfg, p, e, Quiet(cfg)).peer)];
  }

  lemma RequestStep(d: Drive, cfg: Config, p: Peer, r: Request, slot: nat, answer: Request -> SubmitReply)
    requires Alone(d, cfg, p) && r.peerId == 1 && r.generation == 1 && slot < |p.pending|
    requires Admissible(cfg, p, r) == Accept(slot) && answer(WithNormalPath(cfg, r)).status == Ok
    ensures Alone(After(d, Requested(r, 0, Answering(cfg, answer))), cfg,
                  Admit(cfg, p, slot, r, answer(WithNormalPath(cfg, r)).protocolId, 0))
  {
    assert FindPeer(d.peers, 1, 1) == Some(0);
    var q := Admit(cfg, p, slot, r, answer(WithNormalPath(cfg, r)).protocolId, 0);
    assert d.peers[0 := Some(q)] == [Some(q)];
  }

  lemma NumberedStep(d: Drive, cfg: Config, p: Peer, r: Request, slot: nat)
    requires Alone(d, cfg, p) && r.peerId == 1 && r.generation == 1 && slot < |p.pending|
    requires Admissible(cfg, p, r) == Accept(slot)
    ensures Alone(After(d, Requested(r, 0, Quiet(cfg))), cfg, Admit(cfg, p, slot, r, r.requestId + 10, 0))
  {
    assert WithNormalPath(cfg, r).requestId == r.requestId;
    RequestStep(d, cfg, p, r, slot, (r: Request) => SubmitReply(Ok, r.requestId + 10));
  }

  lemma OverrunOne(cfg: Config)
    requires cfg == Small(cfg.timeoutMs)
    ensures Alone(Run(NewDrive(cfg, true), Overrun(cfg)[..4]), cfg, OneOpen())
  {
    var start, steps := NewDrive(cfg, true), Overrun(cfg);
    assert steps[..3] == Start(cfg) && steps[..4] == steps[..3] + [steps[3]];
    StartIs(cfg);
    RunMore(start, steps[..3], steps[3]);
    var p := OneWaits(cfg);
    EventStep(Run(start, steps[..3]), cfg, p, Opened(11, FIRST, 0));
    FirstOpens(cfg, Quiet(cfg));
  }

  lemma OverrunTwo(cfg: Config)
    requires cfg == Small(cfg.timeoutMs)
    ensures Alone(Run(NewDrive(cfg, true), Overrun(cfg)[..5]), cfg, Second(cfg))
  {
    var start, steps := NewDrive(cfg, true), Overrun(cfg);
    assert steps[..5] == steps[..4] + [steps[4]];
    OverrunOne(cfg);
    RunMore(start, steps[..4], steps[4]);
    SecondAdmitted(cfg);
    NumberedStep(Run(start, steps[..4]), cfg, OneOpen(), Opening(2), 0);
  }

  lemma SecondAdmitted(cfg: Config)
    requires cfg == Small(cfg.timeoutMs)
    ensures Admissible(cfg, OneOpen(), Opening(2)) == Accept(0)
    ensures Admit(cfg, OneOpen(), 0, Opening(2), 12, 0) == Second(cfg)
  {
    OpeningAdmitted(cfg, OneOpen(), 2, 0);
    assert [Idle, Idle][0 := Waits(2, cfg)] == [Waits(2, cfg), Idle];
  }

  lemma OverrunThree(cfg: Config)
    requires cfg == Small(cfg.timeoutMs)
    ensures Alone(Run(NewDrive(cfg, true), Overrun(cfg)[..6]), cfg, Both(cfg))
  {
    var start, steps := NewDrive(cfg, true), Overrun(cfg);
    assert steps[..6] == steps[..5] + [steps[5]];
    OverrunTwo(cfg);
    RunMore(start, steps[..5], steps[5]);
    ReadingAdmitted(cfg);
    NumberedStep(Run(start, steps[..5]), cfg, Second(cfg), Reading(3), 1);
  }

  lemma OverrunLegal(cfg: Config)
    requires cfg == Small(cfg.timeoutMs)
    ensures LegalRun(cfg, Overrun(cfg))
  {
    StartLegal(cfg);
  }

  /** The run ends with 100 bytes transferred and 50 reserved under a cap of 100. */
  lemma OverrunExceedsCap()
    ensures var cfg := Small(1000);
      var d := Run(NewDrive(cfg, true), Overrun(cfg));
      && ValidConfig(cfg) && LegalRun(cfg, Overrun(cfg))
      && |d.peers| == 1 && d.peers[0].Some? && !Tight(cfg, d.peers[0].value)
  {
    var cfg := Small(1000);
    var start, steps := NewDrive(cfg, true), Overrun(cfg);
    OverrunLegal(cfg);
    OverrunThree(cfg);
    assert steps == steps[..6] + [steps[6]];
    RunMore(start, steps[..6], steps[6]);
    EventStep(Run(start, steps[..6]), cfg, Both(cfg), Opened(12, SECOND, 100));
    SecondOverruns(cfg, Quiet(cfg));
  }

  // --- A protocol that hands out an id in use ---

  /** Two requests under one id, and then the completion of the first. */
  function Shared(cfg: Config): seq<Step> {
    Start(cfg) + [Requested(Opening(2), 0, Sharing(cfg))]
      + [Protocol(1, 1, RequestEnded(Opened(11, FIRST, 0)), Quiet(cfg))]
  }

  /** The second request waits under the first one's id. */
  function Alike(cfg: Config): Pending {
    Pending(2, 11, 1, RequestDeadline(0, cfg.timeoutMs), 0, CREATE, 0, Ok, true)
  }

  function TwoAlike(cfg: Config): Peer {
    Empty().(pending := [Waits(1, cfg), Alike(cfg)], pendingCount := 2, reservedFiles := 2)
  }

  lemma SecondAlike(cfg: Config)
    requires cfg == Small(cfg.timeoutMs)
    ensures Admissible(cfg, OneWaits(cfg), Opening(2)) == Accept(1)
    ensures Admit(cfg, OneWaits(cfg), 1, Opening(2), 11, 0) == TwoAlike(cfg)
  {
    OpeningAdmitted(cfg, OneWaits(cfg), 2, 1);
    assert [Waits(1, cfg), Idle][1 := Alike(cfg)] == [Waits(1, cfg), Alike(cfg)];
  }

  lemma TwoAlikeIs(cfg: Config)
    requires cfg == Small(cfg.timeoutMs)
    ensures Alone(Run(NewDrive(cfg, true), Start(cfg) + [Requested(Opening(2), 0, Sharing(cfg))]), cfg, TwoAlike(cfg))
  {
    var start := NewDrive(cfg, true);
    StartIs(cfg);
    RunMore(start, Start(cfg), Requested(Opening(2), 0, Sharing(cfg)));
    SecondAlike(cfg);
    RequestStep(Run(start, Start(cfg)), cfg, OneWaits(cfg), Opening(2), 1, (r: Request) => SubmitReply(Ok, 11));
  }

  lemma FirstOfTwo(cfg: Config, env: Env)
    requires cfg == Small(cfg.timeoutMs)
    ensures var p := Terminal(cfg, TwoAlike(cfg), Opened(11, FIRST, 0), env).peer;
      && !Unused(p, 11) && FindProtocol(p, 11) == Some(1) && p.pending[1].requestId == 2
  {
    var p, e := TwoAlike(cfg), Opened(11, FIRST, 0);
    assert FindProtocol(p, 11) == Some(0) && FindVolume(p, 1) == Some(0);
    assert ProtocolIs(p.pending[1], 11);
    CompletedUnusedIff(cfg, p, e, env);
    FirstIs(Terminal(cfg, p, e, env).peer.pending, (q: Pending) => ProtocolIs(q, 11), 1);
  }

  lemma SharedIs(cfg: Config)
    requires cfg == Small(cfg.timeoutMs)
    ensures LegalRun(cfg, Shared(cfg))
    ensures Alone(Run(NewDrive(cfg, true), Shared(cfg)), cfg,
                  Terminal(cfg, TwoAlike(cfg), Opened(11, FIRST, 0), Quiet(cfg)).peer)
  {
    var start, steps := NewDrive(cfg, true), Start(cfg) + [Requested(Opening(2), 0, Sharing(cfg))];
    StartLegal(cfg);
    TwoAlikeIs(cfg);
    RunMore(start, steps, Protocol(1, 1, RequestEnded(Opened(11, FIRST, 0)), Quiet(cfg)));
    EventStep(Run(start, steps), cfg, TwoAlike(cfg), Opened(11, FIRST, 0));
  }

  /** After the first request is completed, its id is still taken for the second one. */
  lemma SharedIdOutlives()
    ensures var cfg := Small(1000);
      var d := Run(NewDrive(cfg, true), Shared(cfg));
      && LegalRun(cfg, Shared(cfg)) && |d.peers| == 1 && d.peers[0].Some?
      && !Unused(d.peers[0].value, 11) && FindProtocol(d.peers[0].value, 11) == Some(1)
      && d.peers[0].value.pending[1].requestId == 2
  {
    SharedIs(Small(1000));
    FirstOfTwo(Small(1000), Quiet(Small(1000)));
  }
}
