/**
  Protocol request ids over whole runs of the client-drive runtime: they stay distinct while the
  protocol hands out unused ones, an ended request's id is refused from then on, and every
  request a step is meant to end is reported with that step's status.
 */
module DriveIdentity {
  import opened Status
  import opened Tally
  import opened DriveModel
  import opened DriveInvariants
  import opened DriveRuns
  import opened DriveDeadlines
  import opened DriveTheorems

  // --- Distinct ids in every state ---

  ghost predicate AllDistinct(d: Drive) {
    forall k: nat | k < |d.peers| && d.peers[k].Some? :: DistinctProtocol(d.peers[k].value)
  }

  /** No pending request of the peer has this protocol id. */
  ghost predicate Unused(p: Peer, protocolId: nat) {
    forall i | 0 <= i < |p.pending| :: !ProtocolIs(p.pending[i], protocolId)
  }

  /** The id the protocol would answer a request with. */
  function Answered(d: Drive, r: Request, env: Env): nat { env.submit(WithNormalPath(d.cfg, r)).protocolId }

  /** The protocol answers a request with an id that the peer has no request pending under. */
  ghost predicate FreshSubmit(d: Drive, step: Step) {
    step.Requested? ==>
      var found := FindPeer(d.peers, step.request.peerId, step.request.generation);
      found.Some? ==> Unused(d.peers[found.value].value, Answered(d, step.request, step.env))
  }

  ghost predicate FreshRun(d: Drive, steps: seq<Step>) {
    steps != [] ==>
      && FreshRun(d, steps[..|steps| - 1])
      && FreshSubmit(Run(d, steps[..|steps| - 1]), steps[|steps| - 1])
  }

  lemma DropsDistinct(d: Drive, r: Drive)
    requires AllDistinct(d) && OnlyDrops(d, r)
    ensures AllDistinct(r)
  {
    forall k: nat | k < |r.peers| && r.peers[k].Some? ensures DistinctProtocol(r.peers[k].value) {
      var p := r.peers[k].value;
      forall i, j | 0 <= i < j < |p.pending| && p.pending[i].Pending? && p.pending[j].Pending?
        ensures p.pending[i].protocolId != p.pending[j].protocolId
      {
        assert PendingAt(r.peers, k, i) && PendingAt(r.peers, k, j);
        assert SameRequest(d, r, k, i) && SameRequest(d, r, k, j);
      }
    }
  }

  lemma RequestDistinct(d: Drive, r: Request, now: nat, env: Env)
    requires AllDistinct(d) && FreshSubmit(d, Requested(r, now, env))
    ensures AllDistinct(PlatformRequest(d, r, now, env).1)
  {
    var found := FindPeer(d.peers, r.peerId, r.generation);
    if found.Some? {
      var p := d.peers[found.value].value;
      var a := Admissible(d.cfg, p, r);
      if a.Accept? {
        AdmitDistinct(d.cfg, p, a.slot, r, Answered(d, r, env), now);
      }
    }
  }

  lemma StepDistinct(d: Drive, step: Step)
    requires Inv(d) && LegalStep(d.cfg, step) && AllDistinct(d) && FreshSubmit(d, step)
    ensures AllDistinct(After(d, step))
  {
    if step.Requested? {
      RequestDistinct(d, step.request, step.now, step.env);
    } else {
      StepDrops(d, step);
      DropsDistinct(d, After(d, step));
    }
  }

  /** In every run whose protocol hands out unused ids, no two pending requests of a peer share one. */
  lemma {:induction false} RunDistinct(cfg: Config, enabled: bool, steps: seq<Step>)
    requires ValidConfig(cfg) && LegalRun(cfg, steps) && FreshRun(NewDrive(cfg, enabled), steps)
    ensures AllDistinct(Run(NewDrive(cfg, enabled), steps))
  {
    if steps != [] {
      assert LegalStep(cfg, steps[|steps| - 1]);
      RunDistinct(cfg, enabled, steps[..|steps| - 1]);
      RunKeepsInv(cfg, enabled, steps[..|steps| - 1]);
      StepDistinct(Run(NewDrive(cfg, enabled), steps[..|steps| - 1]), steps[|steps| - 1]);
    }
  }

  // --- Once ended, an id is refused until it is handed out again ---

  /** Slot `k` has no request pending under the id. */
  ghost predicate Absent(d: Drive, k: nat, protocolId: nat) {
    forall i: nat | PendingAt(d.peers, k, i) :: d.peers[k].value.pending[i].protocolId != protocolId
  }

  /** The step makes a request of peer `k` that the protocol answers with the id. */
  predicate HandsOut(d: Drive, step: Step, k: nat, protocolId: nat) {
    && step.Requested? && FindPeer(d.peers, step.request.peerId, step.request.generation) == Some(k)
    && Answered(d, step.request, step.env) == protocolId
  }

  lemma StepAbsent(d: Drive, step: Step, k: nat, protocolId: nat)
    requires Inv(d) && LegalStep(d.cfg, step) && Absent(d, k, protocolId) && !HandsOut(d, step, k, protocolId)
    ensures Absent(After(d, step), k, protocolId)
  {
    var r := After(d, step);
    if !step.Requested? {
      StepDrops(d, step);
      forall i: nat | PendingAt(r.peers, k, i) ensures r.peers[k].value.pending[i].protocolId != protocolId {
        assert SameRequest(d, r, k, i);
      }
    } else {
      forall i: nat | PendingAt(r.peers, k, i) ensures r.peers[k].value.pending[i].protocolId != protocolId {
        if PendingAt(d.peers, k, i) {
          assert d.peers[k].value.pending[i].protocolId != protocolId;
        }
      }
    }
  }

  ghost predicate NeverHandsOut(d: Drive, steps: seq<Step>, k: nat, protocolId: nat) {
    steps != [] ==>
      && NeverHandsOut(d, steps[..|steps| - 1], k, protocolId)
      && !HandsOut(Run(d, steps[..|steps| - 1]), steps[|steps| - 1], k, protocolId)
  }

  lemma {:induction false} RunAbsent(d: Drive, steps: seq<Step>, k: nat, protocolId: nat)
    requires Inv(d) && LegalRun(d.cfg, steps) && Absent(d, k, protocolId) && NeverHandsOut(d, steps, k, protocolId)
    ensures var r := Run(d, steps); Inv(r) && r.cfg == d.cfg && Absent(r, k, protocolId)
  {
    if steps != [] {
      var before, last := Run(d, steps[..|steps| - 1]), steps[|steps| - 1];
      assert LegalStep(d.cfg, last);
      RunAbsent(d, steps[..|steps| - 1], k, protocolId);
      StepKeepsInv(before, last);
      StepCfg(before, last);
      StepAbsent(before, last, k, protocolId);
    }
  }

  /** An event that names an absent id is refused and changes nothing. */
  lemma AbsentRefused(d: Drive, id: nat, generation: nat, e: Event, env: Env)
    requires FindPeer(d.peers, id, generation).Some?
    requires Absent(d, FindPeer(d.peers, id, generation).value, e.requestId)
    ensures ProtocolEvent(d, id, generation, RequestEnded(e), env) == (ProtocolError, d)
  {
    var k := FindPeer(d.peers, id, generation).value;
    var p := d.peers[k].value;
    forall i | 0 <= i < |p.pending| ensures !ProtocolIs(p.pending[i], e.requestId) {
      assert p.pending[i].Pending? ==> PendingAt(d.peers, k, i);
    }
    FirstIsNone(p.pending, (q: Pending) => ProtocolIs(q, e.requestId));
    assert d.peers[k := Some(p)] == d.peers && d.log + [] == d.log;
  }

  /** After an event completed a request its id is unused if and only if no other pending request shared it. */
  lemma CompletedUnusedIff(cfg: Config, p: Peer, e: Event, env: Env)
    requires MatchEvent(p, e).Hit?
    ensures var i := MatchEvent(p, e).slot;
      Unused(Terminal(cfg, p, e, env).peer, e.requestId) <==>
        (forall j | 0 <= j < |p.pending| && j != i :: !ProtocolIs(p.pending[j], e.requestId))
  {
    var i, r := MatchEvent(p, e).slot, Terminal(cfg, p, e, env).peer;
    forall j | 0 <= j < |p.pending| && j != i ensures r.pending[j] == p.pending[j] {}
    assert r.pending[i].Idle?;
  }

  /** A request that a step ended, by its event, a cancellation or a timeout, leaves its id absent. */
  lemma EndedIsAbsent(d: Drive, step: Step, k: nat, i: nat)
    requires Inv(d) && LegalStep(d.cfg, step) && AllDistinct(d) && FreshSubmit(d, step)
    requires PendingAt(d.peers, k, i) && !PendingAt(After(d, step).peers, k, i)
    ensures Absent(After(d, step), k, d.peers[k].value.pending[i].protocolId)
  {
    var r, protocolId := After(d, step), d.peers[k].value.pending[i].protocolId;
    if !step.Requested? {
      StepDrops(d, step);
      forall j: nat | PendingAt(r.peers, k, j) ensures r.peers[k].value.pending[j].protocolId != protocolId {
        assert SameRequest(d, r, k, j);
      }
    } else {
      RequestsStay(d, step.request, step.now, step.env, k, i);
      assert false;
    }
  }

  lemma RequestsStay(d: Drive, r: Request, now: nat, env: Env, k: nat, i: nat)
    requires PendingAt(d.peers, k, i)
    ensures PendingAt(PlatformRequest(d, r, now, env).1.peers, k, i)
  {
  }

  /**
    In every run whose protocol hands out unused ids, once a request has ended every later event
    that names its id is refused and changes nothing, until a submission hands the id out again.
   */
  lemma LateEventsRefused(cfg: Config, enabled: bool, before: seq<Step>, step: Step, later: seq<Step>,
                          k: nat, i: nat, id: nat, generation: nat, e: Event, env: Env)
    requires ValidConfig(cfg) && LegalRun(cfg, before) && FreshRun(NewDrive(cfg, enabled), before)
    requires var d := Run(NewDrive(cfg, enabled), before);
      && LegalStep(cfg, step) && FreshSubmit(d, step)
      && PendingAt(d.peers, k, i) && !PendingAt(After(d, step).peers, k, i)
      && e.requestId == d.peers[k].value.pending[i].protocolId
      && LegalRun(cfg, later) && NeverHandsOut(After(d, step), later, k, e.requestId)
    requires var r := Run(After(Run(NewDrive(cfg, enabled), before), step), later);
      FindPeer(r.peers, id, generation) == Some(k)
    ensures var r := Run(After(Run(NewDrive(cfg, enabled), before), step), later);
      ProtocolEvent(r, id, generation, RequestEnded(e), env) == (ProtocolError, r)
  {
    var d := Run(NewDrive(cfg, enabled), before);
    RunKeepsInv(cfg, enabled, before);
    RunDistinct(cfg, enabled, before);
    EndedIsAbsent(d, step, k, i);
    StepKeepsInv(d, step);
    StepCfg(d, step);
    RunAbsent(After(d, step), later, k, e.requestId);
    AbsentRefused(Run(After(d, step), later), id, generation, e, env);
  }

  // --- What a step is meant to end is reported with its status ---

  /** The status a step ends a pending request with, if it is meant to end it. */
  function EndsWith(d: Drive, step: Step, k: nat, i: nat): Option<Status>
    requires PendingAt(d.peers, k, i)
  {
    var p := d.peers[k].value;
    match step
    case PeerRemoved(id, generation, _) =>
      if FindPeer(d.peers, id, generation) == Some(k) then Some(Cancelled) else None
    case Protocol(id, generation, input, _) =>
      if FindPeer(d.peers, id, generation) == Some(k) && input.DeviceRemoved? && FindDevice(p, input.device).Some?
         && p.volumes[FindDevice(p, input.device).value].id == p.pending[i].volumeId
      then Some(Cancelled)
      else None
    case CancelRequested(id, generation, requestId, _) =>
      if FindPeer(d.peers, id, generation) == Some(k) && FindRequest(p, requestId) == Some(i)
        then Some(Cancelled) else None
    case Revoked(_) => if d.enabled then Some(State) else None
    case Enabled(enabled, _) => if d.enabled && !enabled then Some(State) else None
    case Ticked(now, _) => if p.pending[i].deadline <= now then Some(Timeout) else None
    case _ => None
  }

  /** Reported among the completions added to the log. */
  ghost predicate ReportedSince(before: seq<Completion>, log: seq<Completion>, key: Key, status: Status) {
    exists j | |before| <= j < |log| :: log[j].key == key && log[j].status == status
  }

  lemma SinceMore(before: seq<Completion>, more: seq<Completion>, log: seq<Completion>, key: Key, status: Status)
    requires Reports(more, key, status) && before + more <= log
    ensures ReportedSince(before, log, key, status)
  {
    var j :| 0 <= j < |more| && more[j].key == key && more[j].status == status;
    assert log[|before| + j] == (before + more)[|before| + j] == more[j];
  }

  lemma {:induction false} StripLog(d: Drive, k: nat, env: Env)
    ensures d.log <= StripFrom(d, k, env).log
    decreases |d.peers| - k
  {
    if k < |d.peers| {
      if d.peers[k].None? {
        StripLog(d, k + 1, env);
      } else {
        StripLog(Commit(d, k, Strip(d.peers[k].value, State, env)), k + 1, env);
      }
    }
  }

  lemma {:induction false} TimeoutsLog(d: Drive, k: nat, now: nat, env: Env)
    ensures d.log <= TimeoutsFrom(d, k, now, env).1.log
    decreases |d.peers| - k
  {
    if k < |d.peers| {
      if d.peers[k].None? {
        TimeoutsLog(d, k + 1, now, env);
      } else {
        TimeoutsLog(Commit(d, k, Sweep(d.peers[k].value, DueBy(now), Timeout, env)), k + 1, now, env);
      }
    }
  }

  /** A sweep of one peer reports each request it is due for. */
  lemma SweepReportsOne(cfg: Config, p: Peer, due: Pending -> bool, status: Status, env: Env, i: nat)
    requires DistinctProtocol(p) && LegalHook(cfg, env) && OwnHook(env) && status != Ok
    requires i < |p.pending| && p.pending[i].Pending? && due(p.pending[i])
    ensures Reports(Sweep(p, due, status, env).log, KeyOf(p, p.pending[i]), status)
  {
    SweepReports(cfg, p, |p.pending|, due, status, env, i);
  }

  lemma {:induction false} StripReports(d: Drive, m: nat, env: Env, k: nat, i: nat)
    requires m <= k && PendingAt(d.peers, k, i) && DistinctProtocol(d.peers[k].value)
    requires LegalHook(d.cfg, env) && OwnHook(env)
    ensures ReportedSince(d.log, StripFrom(d, m, env).log, KeyOf(d.peers[k].value, d.peers[k].value.pending[i]), State)
    decreases |d.peers| - m
  {
    if d.peers[m].None? {
      StripReports(d, m + 1, env, k, i);
    } else {
      var o := Strip(d.peers[m].value, State, env);
      var next := Commit(d, m, o);
      if m < k {
        StripReports(next, m + 1, env, k, i);
      } else {
        SweepReportsOne(d.cfg, d.peers[k].value, Always(), State, env, i);
        StripLog(next, m + 1, env);
        SinceMore(d.log, o.log, StripFrom(d, m, env).log, KeyOf(d.peers[k].value, d.peers[k].value.pending[i]), State);
      }
    }
  }

  lemma {:induction false} TimeoutsReport(d: Drive, m: nat, now: nat, env: Env, k: nat, i: nat)
    requires m <= k && PendingAt(d.peers, k, i) && DistinctProtocol(d.peers[k].value)
    requires LegalHook(d.cfg, env) && OwnHook(env) && DeadlineAt(d.peers, k, i) <= now
    ensures ReportedSince(d.log, TimeoutsFrom(d, m, now, env).1.log,
                          KeyOf(d.peers[k].value, d.peers[k].value.pending[i]), Timeout)
    decreases |d.peers| - m
  {
    if d.peers[m].None? {
      TimeoutsReport(d, m + 1, now, env, k, i);
    } else {
      var o := Sweep(d.peers[m].value, DueBy(now), Timeout, env);
      var next := Commit(d, m, o);
      if m < k {
        TimeoutsReport(next, m + 1, now, env, k, i);
      } else {
        SweepReportsOne(d.cfg, d.peers[k].value, DueBy(now), Timeout, env, i);
        TimeoutsLog(next, m + 1, now, env);
        SinceMore(d.log, o.log, TimeoutsFrom(d, m, now, env).1.log,
                  KeyOf(d.peers[k].value, d.peers[k].value.pending[i]), Timeout);
      }
    }
  }

  lemma RemovalReports(d: Drive, id: nat, generation: nat, env: Env, k: nat, i: nat)
    requires FindPeer(d.peers, id, generation) == Some(k) && PendingAt(d.peers, k, i)
    requires DistinctProtocol(d.peers[k].value) && LegalHook(d.cfg, env) && OwnHook(env)
    ensures ReportedSince(d.log, RemovePeer(d, id, generation, env).log,
                          KeyOf(d.peers[k].value, d.peers[k].value.pending[i]), Cancelled)
  {
    var p := d.peers[k].value;
    SweepReportsOne(d.cfg, p, Always(), Cancelled, env, i);
    SinceMore(d.log, Strip(p, Cancelled, env).log, RemovePeer(d, id, generation, env).log,
              KeyOf(p, p.pending[i]), Cancelled);
  }

  lemma DetachReports(d: Drive, k: nat, device: Device, env: Env, i: nat)
    requires PendingAt(d.peers, k, i) && FindDevice(d.peers[k].value, device).Some?
    requires d.peers[k].value.volumes[FindDevice(d.peers[k].value, device).value].id ==
      d.peers[k].value.pending[i].volumeId
    requires DistinctProtocol(d.peers[k].value) && LegalHook(d.cfg, env) && OwnHook(env)
    ensures ReportedSince(d.log, Commit(d, k, RemoveVolume(d.peers[k].value, device, env)).log,
                          KeyOf(d.peers[k].value, d.peers[k].value.pending[i]), Cancelled)
  {
    var p := d.peers[k].value;
    var volume := p.volumes[FindDevice(p, device).value].id;
    SweepReportsOne(d.cfg, p, OnVolume(volume), Cancelled, env, i);
    SinceMore(d.log, Sweep(p, OnVolume(volume), Cancelled, env).log,
              Commit(d, k, RemoveVolume(p, device, env)).log, KeyOf(p, p.pending[i]), Cancelled);
  }

  lemma CancelReports(d: Drive, id: nat, generation: nat, requestId: nat, env: Env, k: nat, i: nat)
    requires FindPeer(d.peers, id, generation) == Some(k) && PendingAt(d.peers, k, i)
    requires FindRequest(d.peers[k].value, requestId) == Some(i) && LegalHook(d.cfg, env)
    ensures ReportedSince(d.log, PlatformCancel(d, id, generation, requestId, env).1.log,
                          KeyOf(d.peers[k].value, d.peers[k].value.pending[i]), Cancelled)
  {
    var p := d.peers[k].value;
    CancelSlotReports(d.cfg, p, i, Cancelled, env);
    SinceMore(d.log, CancelSlot(p, i, Cancelled, env).log, PlatformCancel(d, id, generation, requestId, env).1.log,
              KeyOf(p, p.pending[i]), Cancelled);
  }

  /** The step's hook, if it calls one, emits events only for the request it is asked to cancel. */
  ghost predicate OwnStep(step: Step) { !step.PeerAdded? && !step.Requested? ==> OwnHook(step.env) }

  /**
    In every run whose protocol hands out unused ids, a step that is meant to end a pending
    request (removal of its peer or device, cancellation, revocation, timeout) reports it with
    the step's own status, whether or not the hook re-enters.
   */
  lemma EndedAreReported(cfg: Config, enabled: bool, steps: seq<Step>, step: Step, k: nat, i: nat)
    requires ValidConfig(cfg) && LegalRun(cfg, steps) && FreshRun(NewDrive(cfg, enabled), steps)
    requires LegalStep(cfg, step) && OwnStep(step)
    requires var d := Run(NewDrive(cfg, enabled), steps);
      PendingAt(d.peers, k, i) && EndsWith(d, step, k, i).Some?
    ensures var d := Run(NewDrive(cfg, enabled), steps);
      ReportedSince(d.log, After(d, step).log, KeyOf(d.peers[k].value, d.peers[k].value.pending[i]),
                    EndsWith(d, step, k, i).value)
  {
    RunKeepsInv(cfg, enabled, steps);
    RunDistinct(cfg, enabled, steps);
    StepReports(Run(NewDrive(cfg, enabled), steps), step, k, i);
  }

  lemma StepReports(d: Drive, step: Step, k: nat, i: nat)
    requires AllDistinct(d) && LegalStep(d.cfg, step) && OwnStep(step)
    requires PendingAt(d.peers, k, i) && EndsWith(d, step, k, i).Some?
    ensures ReportedSince(d.log, After(d, step).log, KeyOf(d.peers[k].value, d.peers[k].value.pending[i]),
                          EndsWith(d, step, k, i).value)
  {
    assert DistinctProtocol(d.peers[k].value);
    match step
    case PeerRemoved(id, generation, env) => RemovalReports(d, id, generation, env, k, i);
    case Protocol(id, generation, input, env) => DetachReports(d, k, input.device, env, i);
    case CancelRequested(id, generation, requestId, env) => CancelReports(d, id, generation, requestId, env, k, i);
    case Revoked(env) => StripReports(d.(enabled := false), 0, env, k, i);
    case Enabled(_, env) => StripReports(d.(enabled := false), 0, env, k, i);
    case Ticked(now, env) => TimeoutsReport(d, 0, now, env, k, i);
  }
}
