/**
  What the drive runtime leaves alone: a timeout ends only what is overdue, a removed device only
  its own requests, a cancellation only the request it names. And which devices become volumes.
 */
module DriveSelective {
  import opened Status
  import opened Tally
  import opened DriveModel
  import opened DriveInvariants
  import opened DriveRuns
  import opened DriveDeadlines
  import opened DriveTheorems
  import opened DriveIdentity
  import opened DriveFiles
  import opened DriveAdmission
  import opened DrivePath
  import opened DrivePathText

  // --- One sweep ---

  /** A sweep leaves the requests it is not for as they are. */
  lemma {:induction false} SweepSpares(cfg: Config, p: Peer, k: nat, due: Pending -> bool, status: Status,
                                       env: Env, i: nat)
    requires DistinctProtocol(p) && LegalHook(cfg, env) && OwnHook(env) && i < |p.pending|
    requires p.pending[i].Pending? ==> !due(p.pending[i])
    ensures Untouched(p, SweepTo(p, k, due, status, env).peer, i)
  {
    if k > 0 {
      SweepSpares(cfg, p, k - 1, due, status, env, i);
      SweepShape(cfg, p, k - 1, due, status, env);
      OneMoreSpares(cfg, p, SweepTo(p, k - 1, due, status, env), k, due, status, env, i);
    }
  }

  lemma OneMoreSpares(cfg: Config, p: Peer, before: Outcome, k: nat, due: Pending -> bool, status: Status,
                      env: Env, i: nat)
    requires DistinctProtocol(p) && LegalHook(cfg, env) && OwnHook(env) && SameShape(p, before.peer)
    requires Untouched(p, before.peer, i) && (p.pending[i].Pending? ==> !due(p.pending[i]))
    requires k > 0 && before == SweepTo(p, k - 1, due, status, env)
    ensures Untouched(p, SweepTo(p, k, due, status, env).peer, i)
  {
    SweepMore(p, k, due, status, env);
    CancelSpares(cfg, p, before, k - 1, due, status, env, i);
  }

  lemma SweepMore(p: Peer, k: nat, due: Pending -> bool, status: Status, env: Env)
    requires k > 0
    ensures var before := SweepTo(p, k - 1, due, status, env);
      SweepTo(p, k, due, status, env) == Then(before, CancelIf(before.peer, k - 1, due, status, env))
  {
  }

  lemma CancelSpares(cfg: Config, p: Peer, before: Outcome, k: nat, due: Pending -> bool, status: Status,
                     env: Env, i: nat)
    requires DistinctProtocol(p) && LegalHook(cfg, env) && OwnHook(env) && SameShape(p, before.peer)
    requires Untouched(p, before.peer, i) && (p.pending[i].Pending? ==> !due(p.pending[i]))
    ensures Untouched(p, Then(before, CancelIf(before.peer, k, due, status, env)).peer, i)
  {
    if i != k {
      OneMoreSwept(cfg, p, before, k, due, status, env, i);
    }
  }

  /** The request is pending as it was. */
  predicate Stays(d: Drive, r: Drive, k: nat, i: nat) {
    PendingAt(d.peers, k, i) && PendingAt(r.peers, k, i)
    && r.peers[k].value.pending[i] == d.peers[k].value.pending[i]
  }

  // --- Timeouts ---

  lemma {:induction false} TimeoutsSpare(d: Drive, m: nat, now: nat, env: Env, k: nat, i: nat)
    requires AllDistinct(d) && LegalHook(d.cfg, env) && OwnHook(env)
    requires PendingAt(d.peers, k, i) && d.peers[k].value.pending[i].deadline > now
    ensures Stays(d, TimeoutsFrom(d, m, now, env).1, k, i)
    decreases |d.peers| - m
  {
    if m < |d.peers| {
      if d.peers[m].None? {
        TimeoutsSpare(d, m + 1, now, env, k, i);
      } else {
        var p := d.peers[m].value;
        var o := Sweep(p, DueBy(now), Timeout, env);
        SweepShape(d.cfg, p, |p.pending|, DueBy(now), Timeout, env);
        CommitDrops(d, m, o);
        DropsDistinct(d, Commit(d, m, o));
        if m == k {
          SweepSpares(d.cfg, p, |p.pending|, DueBy(now), Timeout, env, i);
        }
        TimeoutsSpare(Commit(d, m, o), m + 1, now, env, k, i);
      }
    }
  }

  /**
    In every run whose protocol hands out unused ids: a dispatch of timeouts whose hooks keep to
    the request they are asked to cancel ends a request if and only if its deadline has come.
   */
  lemma OverdueIff(cfg: Config, enabled: bool, steps: seq<Step>, now: nat, env: Env, k: nat, i: nat)
    requires ValidConfig(cfg) && LegalRun(cfg, steps) && FreshRun(NewDrive(cfg, enabled), steps)
    requires LegalHook(cfg, env) && OwnHook(env) && PendingAt(Run(NewDrive(cfg, enabled), steps).peers, k, i)
    ensures var d := Run(NewDrive(cfg, enabled), steps);
      Stays(d, DispatchTimeouts(d, now, env).1, k, i) <==> now < d.peers[k].value.pending[i].deadline
  {
    var d := Run(NewDrive(cfg, enabled), steps);
    RunDistinct(cfg, enabled, steps);
    RunKeepsInv(cfg, enabled, steps);
    if now < d.peers[k].value.pending[i].deadline {
      TimeoutsSpare(d, 0, now, env, k, i);
    }
    var r := DispatchTimeouts(d, now, env).1;
    TimeoutsClear(d, 0, now, env);
    assert PendingAt(r.peers, k, i) ==> NoneOverdue(r.peers[k].value, now);
  }

  // --- Cancellation by the platform ---

  /** A cancellation ends the request it names, and with such a hook no other. */
  lemma CancelEndsIff(d: Drive, id: nat, generation: nat, requestId: nat, env: Env, k: nat, i: nat)
    requires Inv(d) && Kept(d) && AllDistinct(d) && LegalHook(d.cfg, env) && OwnHook(env)
    requires PendingAt(d.peers, k, i) && requestId != 0 && id != 0 && generation != 0
    ensures var p, r := d.peers[k].value, PlatformCancel(d, id, generation, requestId, env).1;
      Stays(d, r, k, i) <==> !(p.id == id && p.generation == generation && p.pending[i].requestId == requestId)
  {
    PeerFound(d, k, id, generation);
    if FindPeer(d.peers, id, generation) == Some(k) {
      CancelHere(d, id, generation, requestId, env, k, i);
    }
  }

  lemma CancelHere(d: Drive, id: nat, generation: nat, requestId: nat, env: Env, k: nat, i: nat)
    requires Inv(d) && AllDistinct(d) && LegalHook(d.cfg, env) && OwnHook(env) && PendingAt(d.peers, k, i)
    requires requestId != 0 && FindPeer(d.peers, id, generation) == Some(k)
    ensures Stays(d, PlatformCancel(d, id, generation, requestId, env).1, k, i) <==>
      d.peers[k].value.pending[i].requestId != requestId
  {
    var p := d.peers[k].value;
    FirstLaw(p.pending, (q: Pending) => RequestIs(q, requestId));
    var slot := FindRequest(p, requestId);
    if slot.Some? {
      NamedSlot(d, k, slot.value, i);
      CancelTakes(d.cfg, p, slot.value, env, i);
    }
  }

  lemma CancelTakes(cfg: Config, p: Peer, slot: nat, env: Env, i: nat)
    requires DistinctProtocol(p) && LegalHook(cfg, env) && OwnHook(env)
    requires slot < |p.pending| && p.pending[slot].Pending? && i < |p.pending| && p.pending[i].Pending?
    ensures Untouched(p, CancelSlot(p, slot, Cancelled, env).peer, i) <==> i != slot
    ensures SameShape(p, CancelSlot(p, slot, Cancelled, env).peer)
  {
    CancelShape(cfg, p, slot, Cancelled, env);
    if i != slot {
      CancelOwn(cfg, p, slot, i, Cancelled, env);
    }
  }

  lemma NamedSlot(d: Drive, k: nat, j: nat, i: nat)
    requires Inv(d) && PendingAt(d.peers, k, i) && PendingAt(d.peers, k, j)
    ensures d.peers[k].value.pending[i].requestId == d.peers[k].value.pending[j].requestId <==> i == j
  {
    assert SlotInv(d, k);
  }

  // --- A removed device ---

  /** Other volumes are as they were. */
  ghost predicate OthersAsWere(p: Peer, r: Peer, except: nat) {
    |r.volumes| == |p.volumes| && forall v | 0 <= v < |p.volumes| && v != except ::
      (p.volumes[v].NoVolume? <==> r.volumes[v].NoVolume?)
      && (p.volumes[v].Volume? ==>
            r.volumes[v].id == p.volumes[v].id && r.volumes[v].device == p.volumes[v].device)
  }

  /**
    Removing a device takes its volume away, ends the requests on that volume and with such a
    hook no others, and keeps the other volumes.
   */
  lemma DetachTakesIff(d: Drive, k: nat, device: Device, env: Env, v: nat, i: nat)
    requires Inv(d) && AllDistinct(d) && LegalHook(d.cfg, env) && OwnHook(env)
    requires k < |d.peers| && d.peers[k].Some? && FindDevice(d.peers[k].value, device) == Some(v)
    requires PendingAt(d.peers, k, i)
    ensures var p, o := d.peers[k].value, PeerInput(d, k, DeviceRemoved(device), env);
      && o.0 == Ok && k < |o.1.peers| && o.1.peers[k].Some?
      && (Stays(d, o.1, k, i) <==> p.pending[i].volumeId != p.volumes[v].id)
      && v < |o.1.peers[k].value.volumes| && o.1.peers[k].value.volumes[v].NoVolume?
      && OthersAsWere(p, o.1.peers[k].value, v)
  {
    var p := d.peers[k].value;
    var due := OnVolume(p.volumes[v].id);
    SweepShape(d.cfg, p, |p.pending|, due, Cancelled, env);
    SweepClears(d.cfg, p, |p.pending|, due, Cancelled, env);
    if p.pending[i].volumeId != p.volumes[v].id {
      SweepSpares(d.cfg, p, |p.pending|, due, Cancelled, env, i);
    }
    SweptVolumes(p, Sweep(p, due, Cancelled, env).peer, v);
  }

  lemma SweptVolumes(p: Peer, r: Peer, v: nat)
    requires SameShape(p, r) && v < |p.volumes| && p.volumes[v].Volume?
    ensures v < |r.volumes| && r.volumes[v].Volume? && OthersAsWere(p, DropVolume(r, v), v)
  {
    forall w | 0 <= w < |p.volumes| && w != v
      ensures (p.volumes[w].NoVolume? <==> DropVolume(r, v).volumes[w].NoVolume?)
      ensures p.volumes[w].Volume? ==>
        DropVolume(r, v).volumes[w].id == p.volumes[w].id && DropVolume(r, v).volumes[w].device == p.volumes[w].device
    {
      assert SameVolume(p.volumes[w], r.volumes[w]);
    }
  }

  // --- Which events are taken ---

  /** The event names this request by its id, its operation and its volume's device, and brings the data it says. */
  predicate Names(p: Peer, i: nat, e: Event)
    requires i < |p.pending|
  {
    && p.pending[i].Pending? && e.requestId != 0 && p.pending[i].protocolId == e.requestId
    && p.pending[i].operation == e.operation && (e.dataLen == 0 || e.hasData)
    && exists v | 0 <= v < |p.volumes| ::
         VolumeIs(p.volumes[v], p.pending[i].volumeId) && p.volumes[v].device == e.device
  }

  /**
    An event completes a request if and only if it names it; any other event is refused and
    changes nothing.
   */
  lemma CompletesIff(cfg: Config, next: nat, p: Peer, e: Event, env: Env, i: nat)
    requires PeerInv(cfg, next, p) && DistinctProtocol(p) && i < |p.pending|
    ensures var o := Terminal(cfg, p, e, env);
      && (Names(p, i, e) <==> p.pending[i].Pending? && o.peer.pending == p.pending[i := Idle])
      && (o.log == [] <==> forall j | 0 <= j < |p.pending| :: !Names(p, j, e))
      && (o.log == [] ==> o.peer == p)
      && (Names(p, i, e) ==>
            |o.log| == 1 && o.log[0].event == Some(e)
            && o.log[0].key == Key(p.pending[i].requestId, p.pending[i].volumeId, p.id, p.generation,
                                   p.pending[i].operation, p.pending[i].infoClass))
  {
    FirstLaw(p.pending, (q: Pending) => ProtocolIs(q, e.requestId));
    forall j | 0 <= j < |p.pending| && Names(p, j, e) ensures MatchEvent(p, e).Hit? && MatchEvent(p, e).slot == j {
      NamedHits(cfg, next, p, e, j);
    }
    if MatchEvent(p, e).Hit? {
      HitIsNamed(p, e);
      HitClears(cfg, p, e, env, i);
    }
  }

  lemma HitClears(cfg: Config, p: Peer, e: Event, env: Env, i: nat)
    requires MatchEvent(p, e).Hit? && i < |p.pending|
    ensures var o := Terminal(cfg, p, e, env);
      && o.peer.pending == p.pending[MatchEvent(p, e).slot := Idle]
      && (p.pending[i].Pending? && o.peer.pending == p.pending[i := Idle] <==> i == MatchEvent(p, e).slot)
  {
    var slot, o := MatchEvent(p, e).slot, Terminal(cfg, p, e, env);
    assert o.peer.pending == p.pending[slot := Idle];
    assert o.peer.pending[slot] == Idle && p.pending[slot].Pending?;
    assert i != slot ==> p.pending[i := Idle][slot] == p.pending[slot];
  }

  lemma NamedHits(cfg: Config, next: nat, p: Peer, e: Event, j: nat)
    requires PeerInv(cfg, next, p) && DistinctProtocol(p) && j < |p.pending| && Names(p, j, e)
    ensures MatchEvent(p, e).Hit? && MatchEvent(p, e).slot == j
  {
    FirstLaw(p.pending, (q: Pending) => ProtocolIs(q, e.requestId));
    var f := FindProtocol(p, e.requestId).value;
    assert p.pending[if f < j then f else j].protocolId == p.pending[if f < j then j else f].protocolId;
    FirstLaw(p.volumes, (v: Volume) => VolumeIs(v, p.pending[j].volumeId));
    var v :| 0 <= v < |p.volumes| && VolumeIs(p.volumes[v], p.pending[j].volumeId) && p.volumes[v].device == e.device;
    var w := FindVolume(p, p.pending[j].volumeId).value;
    assert w == v;
  }

  lemma HitIsNamed(p: Peer, e: Event)
    requires MatchEvent(p, e).Hit?
    ensures Names(p, MatchEvent(p, e).slot, e)
  {
    var i, v := MatchEvent(p, e).slot, MatchEvent(p, e).volume;
    assert VolumeIs(p.volumes[v], p.pending[i].volumeId);
  }

  /** What the client's report of a request comes to: the first of the reasons against it, or its success. */
  lemma ReportIs(cfg: Config, next: nat, p: Peer, e: Event, env: Env)
    requires PeerInv(cfg, next, p) && MatchEvent(p, e).Hit? && cfg.maxTransfer <= U64_MAX
    ensures var o, q := Terminal(cfg, p, e, env), p.pending[MatchEvent(p, e).slot];
      && |o.log| == 1 && q.Pending?
      && var status, done := o.log[0].status, e.completed && e.ioStatus == 0;
      && (q.terminal != Ok ==> status == q.terminal)
      && (q.terminal == Ok && e.status != Ok ==> status == e.status)
      && (q.terminal == Ok && e.status == Ok && e.completed && e.dataLen > cfg.maxRequest ==> status == LimitExceeded)
      && (q.terminal == Ok && e.status == Ok && done && e.transferred > cfg.maxTransfer - p.transferred ==>
            status == LimitExceeded)
      && (q.terminal == Ok && e.status == Ok && (e.completed ==> e.dataLen <= cfg.maxRequest)
          && (done ==> e.transferred <= cfg.maxTransfer - p.transferred && e.operation != 1 && e.operation != 2) ==>
            status == Ok)
      && o.peer.transferred == p.transferred + (if status == Ok && done then e.transferred else 0)
      && o.status == if status == Ok then env.ack(o.log[0]) else status
  {
    Sub64Exact(cfg.maxTransfer, p.transferred);
  }

  // --- Which devices become volumes ---

  /** The same letters, whether small or capital. */
  predicate SameLetters(a: string, b: string) {
    |a| == |b| && forall i | 0 <= i < |a| :: a[i] == b[i] || CaseOf(a[i], b[i]) || CaseOf(b[i], a[i])
  }

  /** The capital and the small form of one ASCII letter. */
  predicate CaseOf(capital: char, small: char) { 'A' <= capital <= 'Z' && small as int == capital as int + 32 }

  lemma LowerIff(a: char, b: char)
    ensures Lower(a) == Lower(b) <==> a == b || CaseOf(a, b) || CaseOf(b, a)
  {
  }

  lemma SameLettersIff(a: string, b: string)
    ensures SameLetters(a, b) <==> AsciiEqual(a, b)
  {
    forall i | 0 <= i < |a| && i < |b|
      ensures Lower(a[i]) == Lower(b[i]) <==> a[i] == b[i] || CaseOf(a[i], b[i]) || CaseOf(b[i], a[i])
    {
      LowerIff(a[i], b[i]);
    }
  }

  /** A device the peer may present under this name. */
  ghost predicate Presentable(cfg: Config, enabled: bool, p: Peer, device: Device, name: string) {
    && enabled && device.reconnect != 0 && device.id != 0 && 1 <= |name| <= 255
    && (forall c | c in name :: c != '/' && c != '\\' && c != ':')
    && (|cfg.allowed| == 0 || exists i | 0 <= i < |cfg.allowed| :: SameLetters(cfg.allowed[i], name))
    && (forall v | 0 <= v < |p.volumes| && p.volumes[v].Volume? :: p.volumes[v].device != device)
    && p.volumeCount < cfg.maxVolumes
  }

  lemma NameIff(cfg: Config, name: string)
    ensures NameAllowed(cfg, name) <==>
      && 1 <= |name| <= 255 && (forall c | c in name :: c != '/' && c != '\\' && c != ':')
      && (|cfg.allowed| == 0 || exists i | 0 <= i < |cfg.allowed| :: SameLetters(cfg.allowed[i], name))
  {
    forall i | 0 <= i < |cfg.allowed| ensures SameLetters(cfg.allowed[i], name) <==> AsciiEqual(cfg.allowed[i], name) {
      SameLettersIff(cfg.allowed[i], name);
    }
  }

  /**
    A device becomes a volume, under an id never used before, in a slot that was free, if and only
    if it is presentable and the platform takes it; otherwise the peer stays as it is.
   */
  lemma PresentedIff(cfg: Config, enabled: bool, next: nat, p: Peer, device: Device, name: string, env: Env)
    requires PeerInv(cfg, next, p)
    ensures var a := AddVolume(cfg, enabled, p, device, name, next, env);
      && (a.status == Ok <==>
            Presentable(cfg, enabled, p, device, name) && env.present(Volume(next, device, name, 0)) == Ok)
      && (a.status != Ok ==> a.peer == p) && (a.used <==> Presentable(cfg, enabled, p, device, name))
      && (a.status == Ok ==>
            exists v | 0 <= v < |p.volumes| ::
              p.volumes[v].NoVolume? && a.peer == p.(volumes := p.volumes[v := Volume(next, device, name, 0)],
                                                     volumeCount := p.volumeCount + 1))
  {
    NameIff(cfg, name);
    FirstLaw(p.volumes, (v: Volume) => OnDevice(v, device));
    if p.volumeCount < cfg.maxVolumes {
      FreeVolume(cfg, next, p);
    }
  }

  /**
    An announcement uses up one identifier if and only if the platform was asked, whatever it said,
    so no two devices are ever presented under one; nothing but that and the peer changes.
   */
  lemma AnnouncementIs(d: Drive, k: nat, device: Device, name: string, env: Env)
    requires Inv(d) && k < |d.peers| && d.peers[k].Some?
    ensures var o := PeerInput(d, k, DeviceAdded(device, name), env);
      && o.1 == d.(peers := d.peers[k := o.1.peers[k]], nextVolumeId := o.1.nextVolumeId)
      && o.1.nextVolumeId == d.nextVolumeId
                             + (if Presentable(d.cfg, d.enabled, d.peers[k].value, device, name) then 1 else 0)
      && (o.0 != Ok ==> o.1.peers == d.peers)
  {
    assert SlotInv(d, k);
    PresentedIff(d.cfg, d.enabled, d.nextVolumeId, d.peers[k].value, device, name, env);
  }

  lemma FreeVolume(cfg: Config, next: nat, p: Peer)
    requires PeerInv(cfg, next, p) && p.volumeCount < cfg.maxVolumes
    ensures First(p.volumes, (v: Volume) => v.NoVolume?).Some?
  {
    var i := SumBelow(p.volumes, VolumeOne);
    FirstLaw(p.volumes, (v: Volume) => v.NoVolume?);
    assert p.volumes[i].NoVolume?;
  }

  // --- Peers ---

  /** A peer joins, bare, in a free slot, if and only if its identity is good and new; nothing else changes. */
  lemma PeerJoinsIff(d: Drive, id: nat, generation: nat)
    requires Kept(d)
    ensures var (status, r) := AddPeer(d, id, generation);
      && (status == Ok <==>
            && id != 0 && generation != 0
            && (forall k | 0 <= k < |d.peers| && d.peers[k].Some? ::
                  d.peers[k].value.id != id || d.peers[k].value.generation != generation)
            && (exists k | 0 <= k < |d.peers| :: d.peers[k].None?))
      && (status != Ok ==> r == d)
      && (status == Ok ==>
            exists k :: 0 <= k < |d.peers| && d.peers[k].None? && r == d.(peers := d.peers[k := r.peers[k]])
                        && r.peers[k].Some? && BarePeer(d.cfg, r.peers[k].value, id, generation))
  {
    FirstLaw(d.peers, (slot: Option<Peer>) => PeerIs(slot, id, generation));
    FirstLaw(d.peers, (slot: Option<Peer>) => slot.None?);
  }

  /** A peer with nothing pending, nothing open, no volumes and no charges. */
  predicate BarePeer(cfg: Config, p: Peer, id: nat, generation: nat) {
    && p.id == id && p.generation == generation
    && |p.volumes| == cfg.maxVolumes && (forall v | 0 <= v < |p.volumes| :: p.volumes[v].NoVolume?)
    && |p.pending| == cfg.maxPending && (forall i | 0 <= i < |p.pending| :: p.pending[i].Idle?)
    && |p.files| == cfg.maxOpenFiles && (forall k | 0 <= k < |p.files| :: p.files[k].NoFile?)
    && p.volumeCount == 0 && p.openFiles == 0 && p.pendingCount == 0
    && p.reservedFiles == 0 && p.reservedBytes == 0 && p.transferred == 0
  }

  // --- Why a request is refused ---

  /** The first reason not to take a request that is not a repetition. */
  function Objection(cfg: Config, p: Peer, v: nat, r: Request): Status
    requires v < |p.volumes| && p.volumes[v].Volume?
  {
    if !WellSized(cfg, r) then InvalidArgument
    else if !Aims(p, v, r) then State
    else if cfg.readOnly && !ReadsOnly(r) then State
    else if r.path.Some? && |r.path.value| > cfg.maxPath then LimitExceeded
    else if r.path.Some? && Normalized(r.path.value, cfg.maxPath).Rejected? then State
    else if r.path.None? && r.operation == 1 then InvalidArgument
    else if p.transferred + p.reservedBytes + Reservation(r) > cfg.maxTransfer then LimitExceeded
    else Ok
  }

  lemma ObjectionIs(cfg: Config, p: Peer, v: nat, r: Request)
    requires Sound(p) && v < |p.volumes| && p.volumes[v].Volume? && p.volumes[v].id == r.volumeId
    requires p.transferred <= cfg.maxTransfer
    ensures Validate(cfg, p, v, r) == Objection(cfg, p, v, r)
  {
    SizedIff(cfg, r);
    ReadsOnlyIff(r);
    AimsIff(cfg, p, v, r);
    if r.path.Some? {
      AcceptedIff(r.path.value, cfg.maxPath);
    }
  }

  /** The reason is the first of these that applies. */
  lemma RefusedBecause(cfg: Config, next: nat, p: Peer, v: nat, r: Request)
    requires PeerInv(cfg, next, p) && Sound(p) && r.volumeId != 0 && r.requestId != 0
    requires v < |p.volumes| && VolumeIs(p.volumes[v], r.volumeId)
    ensures var a := Admissible(cfg, p, r);
      if exists i | 0 <= i < |p.pending| :: p.pending[i].Pending? && p.pending[i].requestId == r.requestId
      then a == Refuse(State)
      else if p.pendingCount >= cfg.maxPending then a == Refuse(LimitExceeded)
      else if !WellSized(cfg, r) then a == Refuse(InvalidArgument)
      else if !Aims(p, v, r) || (cfg.readOnly && !ReadsOnly(r)) then a == Refuse(State)
      else if r.path.Some? && |r.path.value| > cfg.maxPath then a == Refuse(LimitExceeded)
      else if r.path.Some? && (':' in r.path.value || HasDots(r.path.value)) then a == Refuse(State)
      else if r.path.None? && r.operation == 1 then a == Refuse(InvalidArgument)
      else if !HasRoom(cfg, p, r) then a == Refuse(LimitExceeded)
      else a.Accept?
  {
    FirstLaw(p.volumes, (v: Volume) => VolumeIs(v, r.volumeId));
    assert FindVolume(p, r.volumeId) == Some(v);
    ObjectionIs(cfg, p, v, r);
    NoneLike(p, r.requestId);
    RoomIff(cfg, p, r);
    if r.path.Some? {
      AcceptedIff(r.path.value, cfg.maxPath);
    }
    if p.pendingCount < cfg.maxPending {
      IdleSlotExists(cfg, next, p);
    }
  }
}
