/**
  Whole runs of the client-drive runtime. Every entry point is one step; the protocol's cancel
  hook may emit any terminal events it likes while a request is being cancelled.
 */
module DriveRuns {
  import opened Status
  import opened Tally
  import opened DriveModel
  import opened DriveInvariants

  function SlotKeys(slot: Option<Peer>): multiset<Key> {
    if slot.Some? then Keys(slot.value) else multiset{}
  }

  /** Requests accepted and not yet completed, over all peers. */
  function Outstanding(d: Drive): multiset<Key> { Bag(d.peers, SlotKeys) }

  /** Each submitted request is completed or still pending, with multiplicity. */
  ghost predicate Conserved(d: Drive) {
    multiset(d.submitted) == LogKeys(d.log) + Outstanding(d)
  }

  /** No cancellation is under way, and no two pending requests share an application id. */
  ghost predicate AtRest(p: Peer) {
    && (forall i | 0 <= i < |p.pending| && p.pending[i].Pending? :: p.pending[i].terminal == Ok)
    && (forall i, j | 0 <= i < j < |p.pending| && p.pending[i].Pending? && p.pending[j].Pending? ::
          p.pending[i].requestId != p.pending[j].requestId)
  }

  ghost predicate SlotInv(d: Drive, k: nat)
    requires k < |d.peers|
  {
    d.peers[k].Some? ==>
      && PeerInv(d.cfg, d.nextVolumeId, d.peers[k].value)
      && AtRest(d.peers[k].value)
      && (!d.enabled ==> Bare(d.peers[k].value))
  }

  ghost predicate Inv(d: Drive) {
    && ValidConfig(d.cfg) && 0 < d.nextVolumeId
    && (forall k | 0 <= k < |d.peers| :: SlotInv(d, k))
    && Conserved(d)
  }

  // --- Steps ---

  datatype Step =
    | PeerAdded(id: nat, generation: nat)
    | PeerRemoved(id: nat, generation: nat, env: Env)
    | Protocol(id: nat, generation: nat, input: ProtocolInput, env: Env)
    | Requested(request: Request, now: nat, env: Env)
    | CancelRequested(id: nat, generation: nat, requestId: nat, env: Env)
    | Revoked(env: Env)
    | Enabled(enabled: bool, env: Env)
    | Ticked(now: nat, env: Env)

  function After(d: Drive, step: Step): Drive {
    match step
    case PeerAdded(id, generation) => AddPeer(d, id, generation).1
    case PeerRemoved(id, generation, env) => RemovePeer(d, id, generation, env)
    case Protocol(id, generation, input, env) => ProtocolEvent(d, id, generation, input, env).1
    case Requested(request, now, env) => PlatformRequest(d, request, now, env).1
    case CancelRequested(id, generation, requestId, env) => PlatformCancel(d, id, generation, requestId, env).1
    case Revoked(env) => Revoke(d, env)
    case Enabled(enabled, env) => SetEnabled(d, enabled, env)
    case Ticked(now, env) => DispatchTimeouts(d, now, env).1
  }

  function Run(d: Drive, steps: seq<Step>): Drive {
    if steps == [] then d else After(Run(d, steps[..|steps| - 1]), steps[|steps| - 1])
  }

  // --- Replacing one peer ---

  lemma ShapeAtRest(p: Peer, r: Peer)
    requires AtRest(p) && SameShape(p, r)
    ensures AtRest(r)
  {
  }

  lemma SlotsKept(d: Drive, r: Drive, k: nat)
    requires forall j | 0 <= j < |d.peers| :: SlotInv(d, j)
    requires r.cfg == d.cfg && r.nextVolumeId == d.nextVolumeId && r.enabled == d.enabled
    requires k < |d.peers| == |r.peers| && SlotInv(r, k)
    requires forall j | 0 <= j < |d.peers| && j != k :: r.peers[j] == d.peers[j]
    ensures forall j | 0 <= j < |r.peers| :: SlotInv(r, j)
  {
    forall j | 0 <= j < |r.peers| ensures SlotInv(r, j) {
      assert SlotInv(d, j);
    }
  }

  /** An accounted outcome for peer `k` keeps the runtime's invariant. */
  lemma CommitKeeps(d: Drive, k: nat, o: Outcome)
    requires Inv(d) && k < |d.peers| && d.peers[k].Some?
    requires PeerInv(d.cfg, d.nextVolumeId, o.peer) && AtRest(o.peer) && (!d.enabled ==> Bare(o.peer))
    requires Accounts(d.peers[k].value, o)
    ensures Inv(Commit(d, k, o))
  {
    var r := Commit(d, k, o);
    BagUpdate(d.peers, k, Some(o.peer), SlotKeys);
    BagAppend(d.log, o.log, CompletionKey);
    Rebalance(multiset(d.submitted), LogKeys(d.log), LogKeys(o.log),
              Outstanding(d), Outstanding(r), Keys(d.peers[k].value), Keys(o.peer));
    SlotsKept(d, r, k);
  }

  lemma Rebalance(all: multiset<Key>, log: multiset<Key>, more: multiset<Key>, before: multiset<Key>,
                  after: multiset<Key>, was: multiset<Key>, now: multiset<Key>)
    requires all == log + before && after + was == before + now && now + more == was
    ensures all == (log + more) + after
  {
    forall key ensures all[key] == ((log + more) + after)[key] {
      assert (after + was)[key] == (before + now)[key];
      assert (now + more)[key] == was[key];
    }
  }

  lemma {:induction false} NothingPending(p: Peer, k: nat, due: Pending -> bool, status: Status, env: Env)
    requires Bare(p) && k <= |p.pending|
    ensures SweepTo(p, k, due, status, env) == Outcome(p, [], Ok)
  {
    if k > 0 {
      NothingPending(p, k - 1, due, status, env);
    }
  }

  // --- Every step keeps the invariant ---

  lemma PlaceKeeps(d: Drive, k: nat, p: Peer)
    requires Inv(d) && k < |d.peers| && d.peers[k].None?
    requires PeerInv(d.cfg, d.nextVolumeId, p) && Bare(p) && Keys(p) == multiset{}
    ensures Inv(d.(peers := d.peers[k := Some(p)]))
  {
    var r := d.(peers := d.peers[k := Some(p)]);
    var nothing: multiset<Key> := multiset{};
    assert SlotKeys(d.peers[k]) == nothing && SlotKeys(Some(p)) == nothing;
    BagUpdate(d.peers, k, Some(p), SlotKeys);
    Cancelling(Outstanding(r), Outstanding(d), nothing);
    SlotsKept(d, r, k);
  }

  lemma AddPeerKeeps(d: Drive, id: nat, generation: nat)
    requires Inv(d)
    ensures Inv(AddPeer(d, id, generation).1)
  {
    var free := First(d.peers, (slot: Option<Peer>) => slot.None?);
    if free.Some? {
      NewPeerInv(d.cfg, d.nextVolumeId, id, generation);
      PlaceKeeps(d, free.value, NewPeer(d.cfg, id, generation));
    }
  }

  lemma RemovePeerKeeps(d: Drive, id: nat, generation: nat, env: Env)
    requires LegalHook(d.cfg, env)
    requires Inv(d)
    ensures Inv(RemovePeer(d, id, generation, env))
  {
    var found := FindPeer(d.peers, id, generation);
    if found.Some? {
      var k := found.value;
      var p, r := d.peers[k].value, RemovePeer(d, id, generation, env);
      var stripped := Strip(p, Cancelled, env);
      assert SlotInv(d, k);
      StripKeeps(d.cfg, d.nextVolumeId, p, Cancelled, env);
      BagUpdate(d.peers, k, None, SlotKeys);
      BagAppend(d.log, stripped.log, CompletionKey);
      Rebalance(multiset(d.submitted), LogKeys(d.log), LogKeys(stripped.log),
                Outstanding(d), Outstanding(r), Keys(p), multiset{});
      SlotsKept(d, r, k);
    }
  }

  lemma WiderVolumes(cfg: Config, next: nat, p: Peer)
    requires PeerInv(cfg, next, p)
    ensures PeerInv(cfg, next + 1, p)
  {
    assert VolumesKept(p, next + 1);
  }

  lemma NextVolumeKeeps(d: Drive)
    requires Inv(d)
    ensures Inv(d.(nextVolumeId := d.nextVolumeId + 1))
  {
    var r := d.(nextVolumeId := d.nextVolumeId + 1);
    forall j | 0 <= j < |r.peers| ensures SlotInv(r, j) {
      assert SlotInv(d, j);
      if d.peers[j].Some? {
        WiderVolumes(d.cfg, d.nextVolumeId, d.peers[j].value);
      }
    }
  }

  lemma AddVolumeAtRest(cfg: Config, enabled: bool, p: Peer, device: Device, name: string, next: nat, env: Env)
    ensures var a := AddVolume(cfg, enabled, p, device, name, next, env);
      && a.peer.pending == p.pending
      && (!a.used || !enabled ==> a.peer == p)
  {
  }

  lemma AnnounceKeeps(d: Drive, k: nat, device: Device, name: string, env: Env)
    requires Inv(d) && k < |d.peers| && d.peers[k].Some?
    ensures var a := AddVolume(d.cfg, d.enabled, d.peers[k].value, device, name, d.nextVolumeId, env);
      Inv(d.(peers := d.peers[k := Some(a.peer)],
             nextVolumeId := if a.used then d.nextVolumeId + 1 else d.nextVolumeId))
  {
    var p := d.peers[k].value;
    var a := AddVolume(d.cfg, d.enabled, p, device, name, d.nextVolumeId, env);
    assert SlotInv(d, k);
    AddVolumeAtRest(d.cfg, d.enabled, p, device, name, d.nextVolumeId, env);
    if !a.used {
      assert d.peers[k := Some(p)] == d.peers;
    } else {
      var wider := d.(nextVolumeId := d.nextVolumeId + 1);
      NextVolumeKeeps(d);
      AddVolumeKeeps(d.cfg, d.enabled, d.nextVolumeId, p, device, name, env);
      CommitKeeps(wider, k, Outcome(a.peer, [], Ok));
      assert d.log + [] == d.log;
    }
  }

  lemma PeerEventKeeps(d: Drive, k: nat, e: Event, env: Env)
    requires Inv(d) && k < |d.peers| && d.peers[k].Some?
    ensures Inv(Commit(d, k, Terminal(d.cfg, d.peers[k].value, e, env)))
  {
    var p := d.peers[k].value;
    assert SlotInv(d, k);
    TerminalKeeps(d.cfg, d.nextVolumeId, p, e, env);
    TerminalShape(d.cfg, p, e, env);
    ShapeAtRest(p, Terminal(d.cfg, p, e, env).peer);
    CommitKeeps(d, k, Terminal(d.cfg, p, e, env));
  }

  lemma DetachKeeps(d: Drive, k: nat, device: Device, env: Env)
    requires LegalHook(d.cfg, env)
    requires Inv(d) && k < |d.peers| && d.peers[k].Some?
    ensures Inv(Commit(d, k, RemoveVolume(d.peers[k].value, device, env)))
  {
    var p := d.peers[k].value;
    assert SlotInv(d, k);
    RemoveVolumeKeeps(d.cfg, d.nextVolumeId, p, device, env);
    RemoveVolumeAtRest(d.cfg, p, device, env);
    CommitKeeps(d, k, RemoveVolume(p, device, env));
  }

  lemma ProtocolKeeps(d: Drive, id: nat, generation: nat, input: ProtocolInput, env: Env)
    requires LegalHook(d.cfg, env)
    requires Inv(d)
    ensures Inv(ProtocolEvent(d, id, generation, input, env).1)
  {
    var found := FindPeer(d.peers, id, generation);
    if found.Some? {
      match input {
        case DeviceAdded(device, name) => AnnounceKeeps(d, found.value, device, name, env);
        case DeviceRemoved(device) => DetachKeeps(d, found.value, device, env);
        case RequestEnded(event) => PeerEventKeeps(d, found.value, event, env);
        case UnknownEvent =>
      }
    }
  }

  lemma RemoveVolumeAtRest(cfg: Config, p: Peer, device: Device, env: Env)
    requires LegalHook(cfg, env)
    requires AtRest(p)
    ensures AtRest(RemoveVolume(p, device, env).peer)
    ensures Bare(p) ==> RemoveVolume(p, device, env).peer == p
  {
    var found := FindDevice(p, device);
    if found.Some? {
      SweepShape(cfg, p, |p.pending|, OnVolume(p.volumes[found.value].id), Cancelled, env);
      ShapeAtRest(p, Sweep(p, OnVolume(p.volumes[found.value].id), Cancelled, env).peer);
    }
  }

  lemma RefusedKeeps(d: Drive, r: Request, status: Status)
    requires Inv(d)
    ensures Inv(Refused(d, r, status).1)
  {
    var c := Completion(KeyOfRequest(r), status, None);
    var after := Refused(d, r, status).1;
    BagAppend(d.log, [c], CompletionKey);
    LogKeysOne(c);
    assert multiset(after.submitted) == multiset(d.submitted) + multiset{KeyOfRequest(r)};
    forall j | 0 <= j < |after.peers| ensures SlotInv(after, j) {
      assert SlotInv(d, j);
    }
  }

  lemma AdmitAtRest(cfg: Config, p: Peer, r: Request, protocolId: nat, now: nat)
    requires AtRest(p) && Admissible(cfg, p, r).Accept?
    ensures AtRest(Admit(cfg, p, Admissible(cfg, p, r).slot, r, protocolId, now))
  {
    assert r.requestId != 0 && FindRequest(p, r.requestId).None?;
    FirstLaw(p.pending, (q: Pending) => RequestIs(q, r.requestId));
    forall j | 0 <= j < |p.pending| && p.pending[j].Pending? ensures p.pending[j].requestId != r.requestId {
      assert !RequestIs(p.pending[j], r.requestId);
    }
  }

  lemma AcceptConserves(d: Drive, after: Drive, k: nat, q: Peer, key: Key)
    requires Conserved(d) && k < |d.peers| && d.peers[k].Some?
    requires after.peers == d.peers[k := Some(q)] && after.log == d.log && after.submitted == d.submitted + [key]
    requires Keys(q) == Keys(d.peers[k].value) + multiset{key}
    ensures Conserved(after)
  {
    var p := d.peers[k].value;
    BagUpdate(d.peers, k, Some(q), SlotKeys);
    assert multiset(after.submitted) == multiset(d.submitted) + multiset{key};
    forall x ensures multiset(after.submitted)[x] == (LogKeys(after.log) + Outstanding(after))[x] {
      assert (Outstanding(after) + Keys(p))[x] == (Outstanding(d) + Keys(q))[x];
    }
  }

  lemma AcceptKeeps(d: Drive, k: nat, r: Request, protocolId: nat, now: nat)
    requires Inv(d) && d.enabled && k < |d.peers| && PeerIs(d.peers[k], r.peerId, r.generation)
    requires Admissible(d.cfg, d.peers[k].value, r).Accept?
    ensures var p := d.peers[k].value;
      Inv(d.(peers := d.peers[k := Some(Admit(d.cfg, p, Admissible(d.cfg, p, r).slot, r, protocolId, now))],
             submitted := d.submitted + [KeyOfRequest(r)]))
  {
    var p := d.peers[k].value;
    var q := Admit(d.cfg, p, Admissible(d.cfg, p, r).slot, r, protocolId, now);
    var after := d.(peers := d.peers[k := Some(q)], submitted := d.submitted + [KeyOfRequest(r)]);
    assert SlotInv(d, k);
    AdmitKeeps(d.cfg, d.nextVolumeId, p, r, protocolId, now);
    AdmitAtRest(d.cfg, p, r, protocolId, now);
    AcceptConserves(d, after, k, q, KeyOfRequest(r));
    SlotsKept(d, after, k);
  }

  lemma RequestKeeps(d: Drive, r: Request, now: nat, env: Env)
    requires Inv(d)
    ensures Inv(PlatformRequest(d, r, now, env).1)
  {
    var found := FindPeer(d.peers, r.peerId, r.generation);
    if d.enabled && found.Some? {
      var admission := Admissible(d.cfg, d.peers[found.value].value, r);
      var reply := env.submit(WithNormalPath(d.cfg, r));
      if admission.Refuse? {
        RefusedKeeps(d, r, admission.status);
      } else if reply.status != Ok {
        RefusedKeeps(d, r, reply.status);
      } else {
        AcceptKeeps(d, found.value, r, reply.protocolId, now);
      }
    } else {
      RefusedKeeps(d, r, State);
    }
  }

  lemma CancelRequestKeeps(d: Drive, id: nat, generation: nat, requestId: nat, env: Env)
    requires LegalHook(d.cfg, env)
    requires Inv(d)
    ensures Inv(PlatformCancel(d, id, generation, requestId, env).1)
  {
    var found := FindPeer(d.peers, id, generation);
    if found.Some? && requestId != 0 {
      var p := d.peers[found.value].value;
      var slot := FindRequest(p, requestId);
      if slot.Some? {
        assert SlotInv(d, found.value);
        CancelKeeps(d.cfg, d.nextVolumeId, p, slot.value, Cancelled, env);
        CancelShape(d.cfg, p, slot.value, Cancelled, env);
        ShapeAtRest(p, CancelSlot(p, slot.value, Cancelled, env).peer);
        CommitKeeps(d, found.value, CancelSlot(p, slot.value, Cancelled, env));
      }
    }
  }

  /** The runtime invariant except that peers from `k` on may not be stripped yet. */
  ghost predicate Stripping(d: Drive, k: nat) {
    && Inv(d.(enabled := true)) && !d.enabled
    && forall j | 0 <= j < k && j < |d.peers| && d.peers[j].Some? :: Bare(d.peers[j].value)
  }

  lemma {:induction false} StripFromKeeps(d: Drive, k: nat, env: Env)
    requires LegalHook(d.cfg, env)
    requires Stripping(d, k)
    ensures Inv(StripFrom(d, k, env)) && !StripFrom(d, k, env).enabled
    decreases |d.peers| - k
  {
    if k >= |d.peers| {
      forall j | 0 <= j < |d.peers| ensures SlotInv(d, j) {
        assert SlotInv(d.(enabled := true), j);
      }
    } else if d.peers[k].None? {
      StripFromKeeps(d, k + 1, env);
    } else {
      StripStepKeeps(d, k, env);
      StripFromKeeps(Commit(d, k, Strip(d.peers[k].value, State, env)), k + 1, env);
    }
  }

  lemma StripStepKeeps(d: Drive, k: nat, env: Env)
    requires LegalHook(d.cfg, env) && Stripping(d, k) && k < |d.peers| && d.peers[k].Some?
    ensures Stripping(Commit(d, k, Strip(d.peers[k].value, State, env)), k + 1)
  {
    var on, p := d.(enabled := true), d.peers[k].value;
    var o := Strip(p, State, env);
    assert SlotInv(on, k);
    StripKeeps(d.cfg, d.nextVolumeId, p, State, env);
    CommitKeeps(on, k, o);
    assert Commit(on, k, o) == Commit(d, k, o).(enabled := true);
  }

  lemma RevokeKeeps(d: Drive, env: Env)
    requires LegalHook(d.cfg, env)
    requires Inv(d)
    ensures Inv(Revoke(d, env)) && !Revoke(d, env).enabled
  {
    if d.enabled {
      assert d.(enabled := false).(enabled := true) == d;
      StripFromKeeps(d.(enabled := false), 0, env);
    }
  }

  lemma EnableKeeps(d: Drive, enabled: bool, env: Env)
    requires LegalHook(d.cfg, env)
    requires Inv(d)
    ensures Inv(SetEnabled(d, enabled, env)) && SetEnabled(d, enabled, env).enabled == enabled
  {
    if !enabled {
      RevokeKeeps(d, env);
    } else {
      var r := d.(enabled := true);
      forall j | 0 <= j < |r.peers| ensures SlotInv(r, j) {
        assert SlotInv(d, j);
      }
    }
  }

  lemma TimeoutStepKeeps(d: Drive, k: nat, now: nat, env: Env)
    requires LegalHook(d.cfg, env)
    requires Inv(d) && k < |d.peers| && d.peers[k].Some?
    ensures Inv(Commit(d, k, Sweep(d.peers[k].value, DueBy(now), Timeout, env)))
  {
    var p := d.peers[k].value;
    var o := Sweep(p, DueBy(now), Timeout, env);
    assert SlotInv(d, k);
    SweepKeeps(d.cfg, d.nextVolumeId, p, |p.pending|, DueBy(now), Timeout, env);
    SweepShape(d.cfg, p, |p.pending|, DueBy(now), Timeout, env);
    ShapeAtRest(p, o.peer);
    if Bare(p) {
      NothingPending(p, |p.pending|, DueBy(now), Timeout, env);
    }
    CommitKeeps(d, k, o);
  }

  lemma {:induction false} TimeoutsKeep(d: Drive, k: nat, now: nat, env: Env)
    requires LegalHook(d.cfg, env)
    requires Inv(d)
    ensures Inv(TimeoutsFrom(d, k, now, env).1)
    decreases |d.peers| - k
  {
    if k < |d.peers| {
      if d.peers[k].None? {
        TimeoutsKeep(d, k + 1, now, env);
      } else {
        TimeoutStepKeeps(d, k, now, env);
        TimeoutsKeep(Commit(d, k, Sweep(d.peers[k].value, DueBy(now), Timeout, env)), k + 1, now, env);
      }
    }
  }

  /** Whatever hook the step runs under emits terminal events only. */
  ghost predicate LegalStep(cfg: Config, step: Step) {
    match step
    case PeerAdded(_, _) => true
    case PeerRemoved(_, _, env) => LegalHook(cfg, env)
    case Protocol(_, _, _, env) => LegalHook(cfg, env)
    case Requested(_, _, _) => true
    case CancelRequested(_, _, _, env) => LegalHook(cfg, env)
    case Revoked(env) => LegalHook(cfg, env)
    case Enabled(_, env) => LegalHook(cfg, env)
    case Ticked(_, env) => LegalHook(cfg, env)
  }

  ghost predicate LegalRun(cfg: Config, steps: seq<Step>) {
    forall i | 0 <= i < |steps| :: LegalStep(cfg, steps[i])
  }

  lemma StepKeepsInv(d: Drive, step: Step)
    requires Inv(d) && LegalStep(d.cfg, step)
    ensures Inv(After(d, step))
  {
    match step
    case PeerAdded(id, generation) => AddPeerKeeps(d, id, generation);
    case PeerRemoved(id, generation, env) => RemovePeerKeeps(d, id, generation, env);
    case Protocol(id, generation, input, env) => ProtocolKeeps(d, id, generation, input, env);
    case Requested(request, now, env) => RequestKeeps(d, request, now, env);
    case CancelRequested(id, generation, requestId, env) => CancelRequestKeeps(d, id, generation, requestId, env);
    case Revoked(env) => RevokeKeeps(d, env);
    case Enabled(enabled, env) => EnableKeeps(d, enabled, env);
    case Ticked(now, env) => TimeoutsKeep(d, 0, now, env);
  }

  lemma NewDriveInv(cfg: Config, enabled: bool)
    requires ValidConfig(cfg)
    ensures Inv(NewDrive(cfg, enabled))
  {
    var d := NewDrive(cfg, enabled);
    BagEmpty(d.peers, SlotKeys);
  }

  lemma {:induction false} StripFromCfg(d: Drive, k: nat, env: Env)
    ensures StripFrom(d, k, env).cfg == d.cfg
    decreases |d.peers| - k
  {
    if k < |d.peers| {
      if d.peers[k].None? {
        StripFromCfg(d, k + 1, env);
      } else {
        StripFromCfg(Commit(d, k, Strip(d.peers[k].value, State, env)), k + 1, env);
      }
    }
  }

  lemma {:induction false} TimeoutsFromCfg(d: Drive, k: nat, now: nat, env: Env)
    ensures TimeoutsFrom(d, k, now, env).1.cfg == d.cfg
    decreases |d.peers| - k
  {
    if k < |d.peers| {
      if d.peers[k].None? {
        TimeoutsFromCfg(d, k + 1, now, env);
      } else {
        TimeoutsFromCfg(Commit(d, k, Sweep(d.peers[k].value, DueBy(now), Timeout, env)), k + 1, now, env);
      }
    }
  }

  lemma StepCfg(d: Drive, step: Step)
    ensures After(d, step).cfg == d.cfg
  {
    match step
    case Revoked(env) => StripFromCfg(d.(enabled := false), 0, env);
    case Enabled(_, env) => StripFromCfg(d.(enabled := false), 0, env);
    case Ticked(now, env) => TimeoutsFromCfg(d, 0, now, env);
    case _ =>
  }

  /** Accounting, quota and conservation hold in every state of every run. */
  lemma {:induction false} RunKeepsInv(cfg: Config, enabled: bool, steps: seq<Step>)
    requires ValidConfig(cfg) && LegalRun(cfg, steps)
    ensures Inv(Run(NewDrive(cfg, enabled), steps)) && Run(NewDrive(cfg, enabled), steps).cfg == cfg
  {
    if steps == [] {
      NewDriveInv(cfg, enabled);
    } else {
      var d, last := Run(NewDrive(cfg, enabled), steps[..|steps| - 1]), steps[|steps| - 1];
      assert LegalStep(cfg, last);
      RunKeepsInv(cfg, enabled, steps[..|steps| - 1]);
      StepKeepsInv(d, last);
      StepCfg(d, last);
    }
  }
}
