/**
  Which requests of the platform the drive runtime takes on, what it reserves for them, and what
  it hands to the protocol.
 */
module DriveAdmission {
  import opened Status
  import opened Tally
  import opened DrivePath
  import opened DrivePathText
  import opened DriveModel
  import opened DriveInvariants
  import opened DriveRuns
  import opened DriveFiles
  import opened DriveDeadlines
  import opened DriveTheorems

  // --- Which requests are in order ---

  /** Sizes and ranges are within what the configuration and 64 bits allow. */
  predicate WellSized(cfg: Config, r: Request) {
    && r.wellFormed && r.requestId > 0 && 1 <= r.operation <= 17
    && (r.hasData || r.dataLen == 0)
    && r.dataLen <= cfg.maxRequest && r.length <= cfg.maxRequest && r.outputLength <= cfg.maxRequest
    && match r.operation {
         case 1 => r.allocationSize <= cfg.maxTransfer
         case 3 => r.offset <= U64_MAX - r.length
         case 4 => r.offset == U64_MAX || r.offset <= U64_MAX - r.dataLen
         case 10 => r.initialQuery in {0, 1}
         case 11 => r.watchTree in {0, 1}
         case 13 => LocksInOrder(cfg, r)
         case _ => true
       }
  }

  /** One of the four lock operations, and non-empty ranges that end within 64 bits. */
  predicate LocksInOrder(cfg: Config, r: Request) {
    && r.lockOperation in {1, 2, 3, 4} && r.lockCount == |r.locks| && r.lockCount <= cfg.maxRequest / 16
    && forall lock | lock in r.locks :: lock.length > 0 && lock.offset <= U64_MAX - lock.length
  }

  /** The request only looks. */
  predicate ReadsOnly(r: Request) {
    && r.operation !in {4, 6, 9, 12, 15}
    && (r.operation == 1 ==> r.desiredAccess & 0x500d0116 == 0 && r.allocationSize == 0 && r.createDisposition == 1)
  }

  /** Its path, if it has one, has a normal form, and a CREATE has one. */
  ghost predicate WellNamed(cfg: Config, r: Request) {
    && (r.path.None? ==> r.operation != 1)
    && (r.path.Some? ==> |r.path.value| <= cfg.maxPath && ':' !in r.path.value && !HasDots(r.path.value))
  }

  /** Bytes that may be transferred for the request: what is read, what is sent, or the larger of both. */
  predicate Needs(r: Request, bytes: nat) {
    match r.operation {
      case 3 => bytes == r.length
      case 4 => bytes == r.dataLen
      case 6 => bytes == r.dataLen
      case 9 => bytes == r.dataLen
      case 15 => bytes == r.dataLen
      case 12 => bytes >= r.outputLength && bytes >= r.dataLen && (bytes == r.outputLength || bytes == r.dataLen)
      case 14 => bytes >= r.outputLength && bytes >= r.dataLen && (bytes == r.outputLength || bytes == r.dataLen)
      case _ => bytes == 0
    }
  }

  /** A CREATE or SHUTDOWN names the volume's device, anything else a file that is open on the volume. */
  predicate Aims(p: Peer, v: nat, r: Request)
    requires v < |p.volumes| && p.volumes[v].Volume?
  {
    if r.operation == 1 || r.operation == 17 then r.device == p.volumes[v].device
    else Usable(r.file) && (TagOf(r.file), r.volumeId) in Files(p)
  }

  /** There is room for one more request, its bytes and, if it is a CREATE, its file. */
  ghost predicate HasRoom(cfg: Config, p: Peer, r: Request) {
    && p.pendingCount < cfg.maxPending
    && (forall bytes: nat | Needs(r, bytes) :: p.transferred + p.reservedBytes + bytes <= cfg.maxTransfer)
    && (r.operation == 1 ==> p.openFiles + p.reservedFiles < cfg.maxOpenFiles)
  }

  /** The peer may be asked this now. */
  ghost predicate InOrder(cfg: Config, p: Peer, v: nat, r: Request)
    requires v < |p.volumes| && p.volumes[v].Volume?
  {
    && WellSized(cfg, r) && (cfg.readOnly ==> ReadsOnly(r)) && WellNamed(cfg, r)
    && Aims(p, v, r) && HasRoom(cfg, p, r)
    && forall i | 0 <= i < |p.pending| && p.pending[i].Pending? :: p.pending[i].requestId != r.requestId
  }

  // --- They are taken, and no others ---

  lemma ReservationNeeds(r: Request, bytes: nat)
    ensures Needs(r, bytes) <==> bytes == Reservation(r)
  {
  }

  lemma SizedIff(cfg: Config, r: Request)
    ensures WellSized(cfg, r) <==> Shaped(cfg, r)
  {
    if r.operation == 13 {
      LocksIff(cfg, r);
    }
  }

  lemma LocksIff(cfg: Config, r: Request)
    ensures LocksInOrder(cfg, r) <==>
      && r.lockCount == |r.locks| && 1 <= r.lockOperation <= 4 && r.lockCount <= cfg.maxRequest / 16
      && forall i | 0 <= i < |r.locks| :: r.locks[i].length != 0 && r.locks[i].offset + r.locks[i].length <= U64_MAX
  {
    if LocksInOrder(cfg, r) {
      forall i | 0 <= i < |r.locks|
        ensures r.locks[i].length != 0 && r.locks[i].offset + r.locks[i].length <= U64_MAX
      {
        assert r.locks[i] in r.locks;
      }
    }
  }

  lemma ReadsOnlyIff(r: Request)
    ensures ReadsOnly(r) <==> !Mutating(r)
  {
  }

  lemma AimsIff(cfg: Config, p: Peer, v: nat, r: Request)
    requires Sound(p) && v < |p.volumes| && p.volumes[v].Volume? && p.volumes[v].id == r.volumeId
    ensures Aims(p, v, r) <==> Scoped(p, v, r)
  {
    if Usable(r.file) {
      FoundOn(p, r.file, r.volumeId);
    }
  }

  lemma ValidIff(cfg: Config, p: Peer, v: nat, r: Request)
    requires Sound(p) && v < |p.volumes| && p.volumes[v].Volume? && p.volumes[v].id == r.volumeId
    requires p.transferred <= cfg.maxTransfer
    ensures Validate(cfg, p, v, r) == Ok <==>
      && WellSized(cfg, r) && (cfg.readOnly ==> ReadsOnly(r)) && WellNamed(cfg, r) && Aims(p, v, r)
      && p.transferred + p.reservedBytes + Reservation(r) <= cfg.maxTransfer
  {
    SizedIff(cfg, r);
    ReadsOnlyIff(r);
    AimsIff(cfg, p, v, r);
    if r.path.Some? {
      AcceptedIff(r.path.value, cfg.maxPath);
    }
  }

  lemma NoneLike(p: Peer, id: nat)
    requires id != 0
    ensures FindRequest(p, id).None? <==>
      forall i | 0 <= i < |p.pending| && p.pending[i].Pending? :: p.pending[i].requestId != id
  {
    FirstLaw(p.pending, (q: Pending) => RequestIs(q, id));
  }

  /** A request is admitted if and only if its volume is there and it is in order; then some slot is idle. */
  lemma AdmissibleIff(cfg: Config, next: nat, p: Peer, r: Request)
    requires PeerInv(cfg, next, p) && Sound(p)
    ensures Admissible(cfg, p, r).Accept? <==>
      exists v: nat :: v < |p.volumes| && VolumeIs(p.volumes[v], r.volumeId) && InOrder(cfg, p, v, r)
  {
    FirstLaw(p.volumes, (v: Volume) => VolumeIs(v, r.volumeId));
    ReservationNeeds(r, Reservation(r));
    if v: nat :| v < |p.volumes| && VolumeIs(p.volumes[v], r.volumeId) {
      assert r.volumeId != 0 && FindVolume(p, r.volumeId) == Some(v);
      ValidIff(cfg, p, v, r);
      if r.requestId != 0 {
        NoneLike(p, r.requestId);
      }
      if p.pendingCount < cfg.maxPending {
        IdleSlotExists(cfg, next, p);
      }
      RoomIff(cfg, p, r);
    }
  }

  lemma RoomIff(cfg: Config, p: Peer, r: Request)
    ensures HasRoom(cfg, p, r) <==>
      && p.pendingCount < cfg.maxPending
      && p.transferred + p.reservedBytes + Reservation(r) <= cfg.maxTransfer
      && (r.operation == 1 ==> p.openFiles + p.reservedFiles < cfg.maxOpenFiles)
  {
    ReservationNeeds(r, Reservation(r));
    forall bytes: nat | Needs(r, bytes) ensures bytes == Reservation(r) {
      ReservationNeeds(r, bytes);
    }
  }

  // --- In every run ---

  /** The request names the peer in slot `k` and a volume of it, and is in order there. */
  ghost predicate Welcome(d: Drive, k: nat, r: Request) {
    && k < |d.peers| && d.peers[k].Some? && r.peerId != 0 && r.generation != 0
    && d.peers[k].value.id == r.peerId && d.peers[k].value.generation == r.generation
    && exists v: nat :: v < |d.peers[k].value.volumes| && VolumeIs(d.peers[k].value.volumes[v], r.volumeId)
                        && InOrder(d.cfg, d.peers[k].value, v, r)
  }

  lemma PeerFound(d: Drive, k: nat, id: nat, generation: nat)
    requires Kept(d)
    ensures FindPeer(d.peers, id, generation) == Some(k) <==>
      && k < |d.peers| && d.peers[k].Some? && id != 0 && generation != 0
      && d.peers[k].value.id == id && d.peers[k].value.generation == generation
  {
    FirstLaw(d.peers, (slot: Option<Peer>) => PeerIs(slot, id, generation));
    if k < |d.peers| && PeerIs(d.peers[k], id, generation) {
      forall j | 0 <= j < |d.peers| && j != k ensures !PeerIs(d.peers[j], id, generation) {
        if d.peers[j].Some? {
          assert !Same(d.peers[if j < k then j else k].value, d.peers[if j < k then k else j].value);
        }
      }
    }
  }

  /**
    In every run a request is taken on if and only if the runtime is enabled, the request is in
    order at the peer and the volume it names, and the protocol accepts it.
   */
  lemma TakenIff(cfg: Config, enabled: bool, steps: seq<Step>, r: Request, now: nat, env: Env)
    requires ValidConfig(cfg) && LegalRun(cfg, steps)
    ensures var d := Run(NewDrive(cfg, enabled), steps);
      PlatformRequest(d, r, now, env).0 == Ok <==>
        d.enabled && (exists k: nat :: Welcome(d, k, r)) && env.submit(WithNormalPath(cfg, r)).status == Ok
  {
    RunFiles(cfg, enabled, steps, 0);
    RunKeepsInv(cfg, enabled, steps);
    TakenThere(Run(NewDrive(cfg, enabled), steps), r, now, env);
  }

  lemma TakenThere(d: Drive, r: Request, now: nat, env: Env)
    requires Inv(d) && Kept(d)
    ensures PlatformRequest(d, r, now, env).0 == Ok <==>
      d.enabled && (exists k: nat :: Welcome(d, k, r)) && env.submit(WithNormalPath(d.cfg, r)).status == Ok
  {
    var found := FindPeer(d.peers, r.peerId, r.generation);
    if found.Some? {
      WelcomeIff(d, found.value, r);
    }
    if k: nat :| Welcome(d, k, r) {
      PeerFound(d, k, r.peerId, r.generation);
    }
  }

  lemma WelcomeIff(d: Drive, k: nat, r: Request)
    requires Inv(d) && Kept(d) && FindPeer(d.peers, r.peerId, r.generation) == Some(k)
    ensures Welcome(d, k, r) <==> Admissible(d.cfg, d.peers[k].value, r).Accept?
  {
    assert SlotInv(d, k) && SoundAt(d, k);
    PeerFound(d, k, r.peerId, r.generation);
    AdmissibleIff(d.cfg, d.nextVolumeId, d.peers[k].value, r);
  }

  /** What a request is remembered by while it is pending. */
  ghost predicate Remembers(cfg: Config, q: Pending, r: Request, protocolId: nat, now: nat) {
    && q.Pending? && q.requestId == r.requestId && q.protocolId == protocolId && q.volumeId == r.volumeId
    && q.operation == r.operation && q.infoClass == r.infoClass && q.terminal == Ok
    && q.deadline == (if now + cfg.timeoutMs * 1000000 > U64_MAX then U64_MAX else now + cfg.timeoutMs * 1000000)
    && Needs(r, q.bytes) && (q.reservesFile <==> r.operation == 1)
  }

  /**
    A request that is taken on becomes pending in a slot that was idle, with its bytes and, if it
    is a CREATE, a file reserved; nothing else changes.
   */
  lemma TakenIs(d: Drive, r: Request, now: u64, env: Env)
    requires Inv(d) && PlatformRequest(d, r, now, env).0 == Ok
    ensures var after, k := PlatformRequest(d, r, now, env).1, FindPeer(d.peers, r.peerId, r.generation).value;
      && k < |d.peers| == |after.peers| && d.peers[k].Some? && after.peers[k].Some?
      && var p, q := d.peers[k].value, after.peers[k].value;
      && after == d.(peers := d.peers[k := Some(q)],
                     submitted := d.submitted + [Key(r.requestId, r.volumeId, r.peerId, r.generation,
                                                     r.operation, r.infoClass)])
      && q == p.(pending := q.pending, pendingCount := p.pendingCount + 1, reservedBytes := q.reservedBytes,
                 reservedFiles := p.reservedFiles + (if r.operation == 1 then 1 else 0))
      && exists i | 0 <= i < |p.pending| ::
           && p.pending[i].Idle? && q.pending == p.pending[i := q.pending[i]]
           && Remembers(d.cfg, q.pending[i], r, env.submit(WithNormalPath(d.cfg, r)).protocolId, now)
           && q.reservedBytes == p.reservedBytes + q.pending[i].bytes
  {
    var k := FindPeer(d.peers, r.peerId, r.generation).value;
    var p := d.peers[k].value;
    var i := Admissible(d.cfg, p, r).slot;
    var q := PlatformRequest(d, r, now, env).1.peers[k].value;
    DeadlineSaturates(now, d.cfg.timeoutMs);
    ReservationNeeds(r, q.pending[i].bytes);
    assert Remembers(d.cfg, q.pending[i], r, env.submit(WithNormalPath(d.cfg, r)).protocolId, now);
  }

  /** A request that is not taken on changes nothing and is completed at once with the reason. */
  lemma RefusedIs(d: Drive, r: Request, now: nat, env: Env)
    requires PlatformRequest(d, r, now, env).0 != Ok
    ensures var (status, after) := PlatformRequest(d, r, now, env);
      var key := Key(r.requestId, r.volumeId, r.peerId, r.generation, r.operation, r.infoClass);
      after == d.(log := d.log + [Completion(key, status, None)], submitted := d.submitted + [key])
  {
  }

  // --- What the protocol is handed ---

  /** The request, with its path in normal form. */
  ghost predicate Handed(r: Request, q: Request) {
    && q == r.(path := q.path) && (r.path.None? <==> q.path.None?)
    && (r.path.Some? ==>
          DrivePathText.Tidy(q.path.value) && Letters(q.path.value, true) == Letters(r.path.value, true))
  }

  /** The protocol is asked about nothing else: no other answer of its matters. */
  lemma HandedNormal(d: Drive, r: Request, now: nat, env: Env, other: Env)
    requires other == env.(submit := other.submit)
    requires forall q: Request | Handed(r, q) :: other.submit(q) == env.submit(q)
    ensures PlatformRequest(d, r, now, other) == PlatformRequest(d, r, now, env)
  {
    var found := FindPeer(d.peers, r.peerId, r.generation);
    if found.Some? && Admissible(d.cfg, d.peers[found.value].value, r).Accept? {
      if r.path.Some? {
        AcceptedText(r.path.value, d.cfg.maxPath);
      }
      assert Handed(r, WithNormalPath(d.cfg, r));
    }
  }

  // --- Where pending requests come from ---

  /** Some step of the run made this request. */
  ghost predicate MadeIn(cfg: Config, steps: seq<Step>, q: Pending) {
    exists j :: 0 <= j < |steps| && MadeAt(cfg, steps, j, q)
  }

  ghost predicate MadeAt(cfg: Config, steps: seq<Step>, j: nat, q: Pending)
    requires j < |steps|
  {
    steps[j].Requested? && q.Pending? && Remembers(cfg, q, steps[j].request, q.protocolId, steps[j].now)
  }

  lemma MadeLater(cfg: Config, steps: seq<Step>, step: Step, q: Pending)
    requires MadeIn(cfg, steps, q)
    ensures MadeIn(cfg, steps + [step], q)
  {
    var j :| 0 <= j < |steps| && MadeAt(cfg, steps, j, q);
    assert MadeAt(cfg, steps + [step], j, q);
  }

  lemma RequestMakes(d: Drive, steps: seq<Step>, step: Step, k: nat, i: nat)
    requires Inv(d) && step.Requested? && step.now <= U64_MAX && PendingAt(After(d, step).peers, k, i)
    ensures SameRequest(d, After(d, step), k, i)
         || MadeIn(d.cfg, steps + [step], After(d, step).peers[k].value.pending[i])
  {
    if PlatformRequest(d, step.request, step.now, step.env).0 == Ok {
      TakenIs(d, step.request, step.now, step.env);
      var q := After(d, step).peers[k].value.pending[i];
      if !SameRequest(d, After(d, step), k, i) {
        assert MadeAt(d.cfg, steps + [step], |steps|, q);
      }
    } else {
      RefusedIs(d, step.request, step.now, step.env);
    }
  }

  /** In every run each pending request is remembered just as some step of the run made it. */
  lemma {:induction false} PendingIsMade(cfg: Config, enabled: bool, steps: seq<Step>, k: nat, i: nat)
    requires ValidConfig(cfg) && LegalRun(cfg, steps) && MadeBy(steps, U64_MAX)
    requires PendingAt(Run(NewDrive(cfg, enabled), steps).peers, k, i)
    ensures MadeIn(cfg, steps, Run(NewDrive(cfg, enabled), steps).peers[k].value.pending[i])
  {
    if steps != [] {
      var before, last := steps[..|steps| - 1], steps[|steps| - 1];
      var d := Run(NewDrive(cfg, enabled), before);
      assert LegalStep(cfg, last) && before + [last] == steps;
      RunKeepsInv(cfg, enabled, before);
      if last.Requested? {
        RequestMakes(d, before, last, k, i);
      } else {
        StepDrops(d, last);
      }
      if SameRequest(d, After(d, last), k, i) {
        PendingIsMade(cfg, enabled, before, k, i);
        MadeLater(cfg, before, last, d.peers[k].value.pending[i]);
      }
    }
  }

  /** The event reports no more than each request it may be for asked to have transferred. */
  ghost predicate Bounded(cfg: Config, steps: seq<Step>, p: Peer, e: Event) {
    forall i, j: nat, n: nat | 0 <= i < |p.pending| && ProtocolIs(p.pending[i], e.requestId) && j < |steps|
                               && MadeAt(cfg, steps, j, p.pending[i]) && Needs(steps[j].request, n) ::
      e.transferred <= n
  }

  /**
    So an event is honest, as the transfer quota needs it to be, when it reports no more than the
    length, data and output sizes of the request it completes.
   */
  lemma BoundedIsHonest(cfg: Config, enabled: bool, steps: seq<Step>, k: nat, e: Event)
    requires ValidConfig(cfg) && LegalRun(cfg, steps) && MadeBy(steps, U64_MAX)
    requires var d := Run(NewDrive(cfg, enabled), steps);
      k < |d.peers| && d.peers[k].Some? && Bounded(cfg, steps, d.peers[k].value, e)
    ensures Honest(Run(NewDrive(cfg, enabled), steps).peers[k].value, e)
  {
    var d := Run(NewDrive(cfg, enabled), steps);
    var p := d.peers[k].value;
    forall i | 0 <= i < |p.pending| && ProtocolIs(p.pending[i], e.requestId)
      ensures e.transferred <= p.pending[i].bytes
    {
      assert PendingAt(d.peers, k, i);
      PendingIsMade(cfg, enabled, steps, k, i);
      var j :| 0 <= j < |steps| && MadeAt(cfg, steps, j, p.pending[i]);
      assert Needs(steps[j].request, p.pending[i].bytes);
    }
  }
}
