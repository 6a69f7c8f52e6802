/** When the drive runtime asks to be woken, and when that comes out too late. */
module DriveDeadlines {
  import opened Status
  import opened Tally
  import opened DriveModel
  import opened DriveInvariants
  import opened DriveRuns

  // --- The earliest deadline ---

  function Sooner(a: nat, b: nat): nat { if b < a then b else a }

  function SlotDeadline(q: Pending): nat { if q.Pending? then q.deadline else U64_MAX }

  function EarliestPending(pending: seq<Pending>, start: nat, n: nat): nat
    requires n <= |pending|
  {
    if n == 0 then start else Sooner(EarliestPending(pending, start, n - 1), SlotDeadline(pending[n - 1]))
  }

  /** Earliest deadline of the first `n` peers, or the largest 64-bit value without one. */
  function Earliest(peers: seq<Option<Peer>>, n: nat): nat
    requires n <= |peers|
  {
    if n == 0 then U64_MAX
    else
      var before := Earliest(peers, n - 1);
      match peers[n - 1]
      case None => before
      case Some(p) => EarliestPending(p.pending, before, |p.pending|)
  }

  predicate PendingAt(peers: seq<Option<Peer>>, k: nat, i: nat) {
    k < |peers| && peers[k].Some? && i < |peers[k].value.pending| && peers[k].value.pending[i].Pending?
  }

  function DeadlineAt(peers: seq<Option<Peer>>, k: nat, i: nat): nat
    requires PendingAt(peers, k, i)
  {
    peers[k].value.pending[i].deadline
  }

  lemma {:induction false} EarliestPendingBelow(pending: seq<Pending>, start: nat, n: nat)
    requires n <= |pending|
    ensures EarliestPending(pending, start, n) <= start
    ensures forall i | 0 <= i < n :: EarliestPending(pending, start, n) <= SlotDeadline(pending[i])
    ensures EarliestPending(pending, start, n) == start
      || exists i | 0 <= i < n :: SlotDeadline(pending[i]) == EarliestPending(pending, start, n)
  {
    if n > 0 {
      EarliestPendingBelow(pending, start, n - 1);
    }
  }

  /** No pending deadline is earlier. */
  lemma {:induction false} EarliestBelow(peers: seq<Option<Peer>>, n: nat, k: nat, i: nat)
    requires n <= |peers| && k < n && PendingAt(peers, k, i)
    ensures Earliest(peers, n) <= DeadlineAt(peers, k, i)
  {
    if peers[n - 1].Some? {
      var p := peers[n - 1].value;
      EarliestPendingBelow(p.pending, Earliest(peers, n - 1), |p.pending|);
    }
    if k < n - 1 {
      EarliestBelow(peers, n - 1, k, i);
    } else {
      assert SlotDeadline(peers[k].value.pending[i]) == DeadlineAt(peers, k, i);
    }
  }

  /** A finite earliest deadline is some pending request's. */
  lemma {:induction false} EarliestAttained(peers: seq<Option<Peer>>, n: nat)
    returns (k: nat, i: nat)
    requires n <= |peers| && Earliest(peers, n) < U64_MAX
    ensures k < n && PendingAt(peers, k, i) && DeadlineAt(peers, k, i) == Earliest(peers, n)
  {
    if Earliest(peers, n) == Earliest(peers, n - 1) {
      k, i := EarliestAttained(peers, n - 1);
    } else {
      var p := peers[n - 1].value;
      EarliestPendingBelow(p.pending, Earliest(peers, n - 1), |p.pending|);
      k := n - 1;
      i :| 0 <= i < |p.pending| && SlotDeadline(p.pending[i]) == Earliest(peers, n);
    }
  }

  // --- The poll timeout ---

  /** Rounded up to milliseconds; only the quotient before rounding is compared with the cap. */
  function DriveTimeout(earliest: nat, now: nat): int {
    if earliest == U64_MAX then -1
    else if earliest <= now then 0
    else if (earliest - now) / NS_PER_MS > INT_MAX then INT_MAX
    else ToInt((earliest - now + NS_PER_MS - 1) / NS_PER_MS)
  }

  method NextTimeout(peers: seq<Option<Peer>>, now: u64) returns (ms: int)
    ensures ms == DriveTimeout(Earliest(peers, |peers|), now)
  {
    var earliest := U64_MAX;
    var index := 0;
    while index < |peers|
      invariant 0 <= index <= |peers| && earliest == Earliest(peers, index) <= U64_MAX
    {
      if peers[index].Some? {
        var pending := peers[index].value.pending;
        ghost var start := earliest;
        var i := 0;
        while i < |pending|
          invariant 0 <= i <= |pending| && earliest == EarliestPending(pending, start, i) <= U64_MAX
        {
          if pending[i].Pending? && pending[i].deadline < earliest {
            earliest := pending[i].deadline;
          }
          i := i + 1;
        }
      }
      EarliestFinite(peers, index + 1);
      index := index + 1;
    }
    if earliest == U64_MAX {
      return -1;
    }
    if earliest <= now {
      return 0;
    }
    if (earliest - now) / NS_PER_MS > INT_MAX {
      return INT_MAX;
    }
    return ToInt((earliest - now + NS_PER_MS - 1) / NS_PER_MS);
  }

  lemma {:induction false} EarliestFinite(peers: seq<Option<Peer>>, n: nat)
    requires n <= |peers|
    ensures Earliest(peers, n) <= U64_MAX
  {
    if n > 0 {
      EarliestFinite(peers, n - 1);
      if peers[n - 1].Some? {
        EarliestPendingBelow(peers[n - 1].value.pending, Earliest(peers, n - 1), |peers[n - 1].value.pending|);
      }
    }
  }

  /** One millisecond past the deadline, or past now when it has already gone by. */
  function Late(deadline: nat, now: nat): nat { (if deadline < now then now else deadline) + NS_PER_MS }

  /** More than the largest `int` of milliseconds away, by less than one millisecond. */
  predicate InGap(earliest: nat, now: nat) {
    now + INT_MAX * NS_PER_MS < earliest < now + (INT_MAX + 1) * NS_PER_MS
  }

  /** Woken after the deadline (unless capped) and less than a millisecond late: exactly outside the gap. */
  lemma DriveWakesIff(earliest: nat, now: nat)
    requires earliest < U64_MAX
    ensures var t := DriveTimeout(earliest, now);
      (0 <= t && now + t * NS_PER_MS < Late(earliest, now) && (now + t * NS_PER_MS >= earliest || t == INT_MAX))
        <==> !InGap(earliest, now)
  {
    if earliest > now {
      RoundedUp(earliest - now);
    }
  }

  lemma RoundedUp(gap: nat)
    requires gap > 0
    ensures var up, down := (gap + NS_PER_MS - 1) / NS_PER_MS, gap / NS_PER_MS;
      && gap <= up * NS_PER_MS < gap + NS_PER_MS
      && down * NS_PER_MS <= gap < (down + 1) * NS_PER_MS
      && down <= up <= down + 1
  {
  }

  /** One nanosecond into the gap the timeout turns negative, which a poll takes as no timeout at all. */
  lemma GapSleepsForever(now: nat)
    requires now + INT_MAX * NS_PER_MS + 1 < U64_MAX
    ensures DriveTimeout(now + INT_MAX * NS_PER_MS + 1, now) + INT_MAX + 1 == 0
  {
  }

  // --- With a configured timeout within `int`, no run reaches the gap ---

  ghost predicate DueWithin(d: Drive, limit: nat) {
    forall k: nat, i: nat | PendingAt(d.peers, k, i) ::
      DeadlineAt(d.peers, k, i) <= limit || DeadlineAt(d.peers, k, i) == U64_MAX
  }

  /** The same request in the same slot of the same peer. */
  predicate SameRequest(d: Drive, r: Drive, k: nat, i: nat)
    requires PendingAt(r.peers, k, i)
  {
    && PendingAt(d.peers, k, i)
    && r.peers[k].value.id == d.peers[k].value.id && r.peers[k].value.generation == d.peers[k].value.generation
    && r.peers[k].value.pending[i] == d.peers[k].value.pending[i]
  }

  /** Requests are only dropped. */
  ghost predicate OnlyDrops(d: Drive, r: Drive) {
    forall k: nat, i: nat | PendingAt(r.peers, k, i) :: SameRequest(d, r, k, i)
  }

  lemma CommitDrops(d: Drive, k: nat, o: Outcome)
    requires k < |d.peers| && d.peers[k].Some? && SameShape(d.peers[k].value, o.peer)
    ensures OnlyDrops(d, Commit(d, k, o))
  {
    var r := Commit(d, k, o);
    forall j: nat, i: nat | PendingAt(r.peers, j, i) ensures SameRequest(d, r, j, i) {
      if j == k {
        assert o.peer.pending[i] == d.peers[k].value.pending[i];
      }
    }
  }
  lemma DropsDue(d: Drive, r: Drive, limit: nat)
    requires DueWithin(d, limit) && OnlyDrops(d, r)
    ensures DueWithin(r, limit)
  {
  }

  lemma {:induction false} TimeoutsDrop(d: Drive, k: nat, now: nat, env: Env)
    requires LegalHook(d.cfg, env)
    ensures OnlyDrops(d, TimeoutsFrom(d, k, now, env).1)
    decreases |d.peers| - k
  {
    if k < |d.peers| {
      if d.peers[k].None? {
        TimeoutsDrop(d, k + 1, now, env);
      } else {
        var p := d.peers[k].value;
        var o := Sweep(p, DueBy(now), Timeout, env);
        SweepShape(d.cfg, p, |p.pending|, DueBy(now), Timeout, env);
        CommitDrops(d, k, o);
        TimeoutsDrop(Commit(d, k, o), k + 1, now, env);
        DropsThen(d, Commit(d, k, o), TimeoutsFrom(Commit(d, k, o), k + 1, now, env).1);
      }
    }
  }

  lemma DropsThen(d: Drive, r: Drive, s: Drive)
    requires OnlyDrops(d, r) && OnlyDrops(r, s)
    ensures OnlyDrops(d, s)
  {
  }

  lemma CancelDrops(d: Drive, id: nat, generation: nat, requestId: nat, env: Env)
    requires LegalHook(d.cfg, env)
    ensures OnlyDrops(d, PlatformCancel(d, id, generation, requestId, env).1)
  {
    var found := FindPeer(d.peers, id, generation);
    if found.Some? && requestId != 0 {
      var p := d.peers[found.value].value;
      var slot := FindRequest(p, requestId);
      if slot.Some? {
        CancelShape(d.cfg, p, slot.value, Cancelled, env);
        CommitDrops(d, found.value, CancelSlot(p, slot.value, Cancelled, env));
      }
    }
  }

  lemma DetachDrops(d: Drive, k: nat, device: Device, env: Env)
    requires LegalHook(d.cfg, env) && k < |d.peers| && d.peers[k].Some?
    ensures OnlyDrops(d, Commit(d, k, RemoveVolume(d.peers[k].value, device, env)))
  {
    var p := d.peers[k].value;
    var found := FindDevice(p, device);
    if found.Some? {
      var swept := Sweep(p, OnVolume(p.volumes[found.value].id), Cancelled, env);
      SweepShape(d.cfg, p, |p.pending|, OnVolume(p.volumes[found.value].id), Cancelled, env);
      assert RemoveVolume(p, device, env).peer.pending == swept.peer.pending;
      CommitDrops(d, k, swept);
    }
  }

  lemma ProtocolDrops(d: Drive, id: nat, generation: nat, input: ProtocolInput, env: Env)
    requires LegalHook(d.cfg, env)
    ensures OnlyDrops(d, ProtocolEvent(d, id, generation, input, env).1)
  {
    var found := FindPeer(d.peers, id, generation);
    if found.Some? {
      var k, p := found.value, d.peers[found.value].value;
      match input {
        case DeviceAdded(device, name) =>
          AddVolumeAtRest(d.cfg, d.enabled, p, device, name, d.nextVolumeId, env);
        case DeviceRemoved(device) => DetachDrops(d, k, device, env);
        case RequestEnded(event) =>
          TerminalShape(d.cfg, p, event, env);
          CommitDrops(d, k, Terminal(d.cfg, p, event, env));
        case UnknownEvent =>
      }
    }
  }

  lemma RevokeDrops(d: Drive, env: Env)
    requires Inv(d) && LegalHook(d.cfg, env)
    ensures OnlyDrops(d, Revoke(d, env))
  {
    var r := Revoke(d, env);
    RevokeKeeps(d, env);
    forall k: nat | k < |r.peers| && r.peers[k].Some? ensures Bare(r.peers[k].value) {
      assert SlotInv(r, k);
    }
  }

  lemma RequestDue(d: Drive, r: Request, now: nat, env: Env, limit: nat)
    requires DueWithin(d, limit)
    requires RequestDeadline(now, d.cfg.timeoutMs) <= limit || RequestDeadline(now, d.cfg.timeoutMs) == U64_MAX
    ensures DueWithin(PlatformRequest(d, r, now, env).1, limit)
  {
    var after := PlatformRequest(d, r, now, env).1;
    forall k: nat, i: nat | PendingAt(after.peers, k, i)
      ensures DeadlineAt(after.peers, k, i) <= limit || DeadlineAt(after.peers, k, i) == U64_MAX
    {
      if PendingAt(d.peers, k, i) && after.peers[k].value.pending[i] == d.peers[k].value.pending[i] {
        assert DeadlineAt(d.peers, k, i) <= limit || DeadlineAt(d.peers, k, i) == U64_MAX;
      }
    }
  }

  lemma PeersDrop(d: Drive, id: nat, generation: nat, env: Env)
    ensures OnlyDrops(d, AddPeer(d, id, generation).1)
    ensures OnlyDrops(d, RemovePeer(d, id, generation, env))
  {
  }

  lemma StepDue(d: Drive, step: Step, limit: nat)
    requires Inv(d) && LegalStep(d.cfg, step) && DueWithin(d, limit)
    requires step.Requested? ==>
      RequestDeadline(step.now, d.cfg.timeoutMs) <= limit || RequestDeadline(step.now, d.cfg.timeoutMs) == U64_MAX
    ensures DueWithin(After(d, step), limit)
  {
    if step.Requested? {
      RequestDue(d, step.request, step.now, step.env, limit);
    } else {
      StepDrops(d, step);
      DropsDue(d, After(d, step), limit);
    }
  }

  /** Only a platform request can add a pending slot. */
  lemma StepDrops(d: Drive, step: Step)
    requires Inv(d) && LegalStep(d.cfg, step) && !step.Requested?
    ensures OnlyDrops(d, After(d, step))
  {
    match step
    case PeerAdded(id, generation) =>
    case PeerRemoved(id, generation, env) => PeersDrop(d, id, generation, env);
    case Protocol(id, generation, input, env) => ProtocolDrops(d, id, generation, input, env);
    case CancelRequested(id, generation, requestId, env) => CancelDrops(d, id, generation, requestId, env);
    case Revoked(env) => RevokeDrops(d, env);
    case Enabled(_, env) => RevokeDrops(d, env);
    case Ticked(now, env) => TimeoutsDrop(d, 0, now, env);
    case _ =>
  }

  /** No request of the run was made after `now`, on a 64-bit clock. */
  ghost predicate MadeBy(steps: seq<Step>, now: nat) {
    forall i | 0 <= i < |steps| && steps[i].Requested? :: steps[i].now <= now <= U64_MAX
  }

  lemma {:induction false} RunDue(cfg: Config, enabled: bool, steps: seq<Step>, now: nat)
    requires ValidConfig(cfg) && LegalRun(cfg, steps) && MadeBy(steps, now)
    ensures DueWithin(Run(NewDrive(cfg, enabled), steps), now + cfg.timeoutMs * NS_PER_MS)
  {
    if steps != [] {
      var before, last := steps[..|steps| - 1], steps[|steps| - 1];
      assert LegalStep(cfg, last);
      RunDue(cfg, enabled, before, now);
      RunKeepsInv(cfg, enabled, before);
      if last.Requested? {
        DeadlineIsNear(last.now, cfg.timeoutMs);
      }
      StepDue(Run(NewDrive(cfg, enabled), before), last, now + cfg.timeoutMs * NS_PER_MS);
    }
  }

  lemma DeadlineIsNear(now: u64, timeoutMs: nat)
    ensures RequestDeadline(now, timeoutMs) <= now + timeoutMs * NS_PER_MS || RequestDeadline(now, timeoutMs) == U64_MAX
  {
  }

  /**
    With a request timeout that fits an `int`, every reachable state asks for a wake-up less than
    a millisecond past its earliest finite deadline.
   */
  lemma DriveAlwaysWakes(cfg: Config, enabled: bool, steps: seq<Step>, now: nat)
    requires ValidConfig(cfg) && cfg.timeoutMs <= INT_MAX && LegalRun(cfg, steps) && MadeBy(steps, now)
    ensures var peers := Run(NewDrive(cfg, enabled), steps).peers;
      var e := Earliest(peers, |peers|);
      e < U64_MAX ==>
        && !InGap(e, now)
        && 0 <= DriveTimeout(e, now)
        && now + DriveTimeout(e, now) * NS_PER_MS < Late(e, now)
  {
    var peers := Run(NewDrive(cfg, enabled), steps).peers;
    var e := Earliest(peers, |peers|);
    if e < U64_MAX {
      RunDue(cfg, enabled, steps, now);
      var k, i := EarliestAttained(peers, |peers|);
      assert DeadlineAt(peers, k, i) <= now + cfg.timeoutMs * NS_PER_MS;
      DriveWakesIff(e, now);
    }
  }
}
