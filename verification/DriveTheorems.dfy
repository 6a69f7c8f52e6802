/** What the client-drive runtime promises its platform, over every run and for every cancel hook. */
module DriveTheorems {
  import opened Status
  import opened Tally
  import opened DriveModel
  import opened DriveInvariants
  import opened DriveRuns

  // --- Exactly one completion per request ---

  function SlotPending(slot: Option<Peer>): nat { if slot.Some? then slot.value.pendingCount else 0 }

  lemma {:induction false} KeysCount(pending: seq<Pending>, id: nat, generation: nat)
    ensures |Bag(pending, PendingKey(id, generation))| == Sum(pending, PendingOne)
  {
    BagSize(pending, PendingKey(id, generation), PendingOne);
  }

  /**
    In every state of every run the requests made are exactly the requests completed plus the
    requests pending: as multisets of request keys, and so also in number.
   */
  lemma ExactlyOnce(cfg: Config, enabled: bool, steps: seq<Step>)
    requires ValidConfig(cfg) && LegalRun(cfg, steps)
    ensures var d := Run(NewDrive(cfg, enabled), steps);
      && multiset(d.submitted) == LogKeys(d.log) + Outstanding(d)
      && |d.submitted| == |d.log| + Sum(d.peers, SlotPending)
  {
    var d := Run(NewDrive(cfg, enabled), steps);
    RunKeepsInv(cfg, enabled, steps);
    LogSize(d.log);
    forall k | 0 <= k < |d.peers| ensures |SlotKeys(d.peers[k])| == SlotPending(d.peers[k]) {
      assert SlotInv(d, k);
      if d.peers[k].Some? {
        KeysCount(d.peers[k].value.pending, d.peers[k].value.id, d.peers[k].value.generation);
      }
    }
    BagSize(d.peers, SlotKeys, SlotPending);
    assert |multiset(d.submitted)| == |d.submitted|;
  }

  lemma {:induction false} LogSize(log: seq<Completion>)
    ensures |LogKeys(log)| == |log|
  {
    if log != [] {
      LogSize(log[1..]);
    }
  }

  /** Revoking completes everything: nothing is outstanding and no peer keeps a volume, file or request. */
  lemma RevokeCompletesAll(d: Drive, env: Env)
    requires Inv(d) && LegalHook(d.cfg, env)
    ensures var r := Revoke(d, env);
      && LogKeys(r.log) == multiset(r.submitted)
      && forall k | 0 <= k < |r.peers| && r.peers[k].Some? :: Bare(r.peers[k].value)
  {
    var r := Revoke(d, env);
    RevokeKeeps(d, env);
    forall k | 0 <= k < |r.peers| ensures SlotKeys(r.peers[k]) == multiset{} {
      assert SlotInv(r, k);
      if r.peers[k].Some? {
        BagEmpty(r.peers[k].value.pending, PendingKey(r.peers[k].value.id, r.peers[k].value.generation));
      }
    }
    BagEmpty(r.peers, SlotKeys);
    forall k | 0 <= k < |r.peers| && r.peers[k].Some? ensures Bare(r.peers[k].value) {
      assert SlotInv(r, k);
    }
  }

  /** Removing a peer completes exactly what it had pending and frees its slot. */
  lemma RemovePeerCompletesIts(d: Drive, id: nat, generation: nat, env: Env)
    requires Inv(d) && LegalHook(d.cfg, env) && FindPeer(d.peers, id, generation).Some?
    ensures var k, r := FindPeer(d.peers, id, generation).value, RemovePeer(d, id, generation, env);
      && r.peers == d.peers[k := None]
      && LogKeys(r.log) == LogKeys(d.log) + Keys(d.peers[k].value)
  {
    var k := FindPeer(d.peers, id, generation).value;
    var stripped := Strip(d.peers[k].value, Cancelled, env);
    assert SlotInv(d, k);
    StripKeeps(d.cfg, d.nextVolumeId, d.peers[k].value, Cancelled, env);
    BagAppend(d.log, stripped.log, CompletionKey);
  }

  /** A disabled runtime holds no volume, file or pending request, in every run. */
  lemma DisabledIsBare(cfg: Config, enabled: bool, steps: seq<Step>, k: nat)
    requires ValidConfig(cfg) && LegalRun(cfg, steps)
    requires var d := Run(NewDrive(cfg, enabled), steps);
      !d.enabled && k < |d.peers| && d.peers[k].Some?
    ensures Bare(Run(NewDrive(cfg, enabled), steps).peers[k].value)
  {
    RunKeepsInv(cfg, enabled, steps);
    assert SlotInv(Run(NewDrive(cfg, enabled), steps), k);
  }

  // --- Every choice of emitted events is a legal hook ---

  lemma {:induction false} DeliverAck(cfg: Config, p: Peer, events: seq<Event>, n: nat, env: Env, env': Env)
    requires n <= |events| && env.ack == env'.ack
    ensures Deliver(cfg, p, events, n, env) == Deliver(cfg, p, events, n, env')
  {
    if n > 0 {
      DeliverAck(cfg, p, events, n - 1, env, env');
      var before := Deliver(cfg, p, events, n - 1, env);
      OneMoreAck(cfg, before, Deliver(cfg, p, events, n - 1, env'), events[n - 1], env, env');
    }
  }

  lemma OneMoreAck(cfg: Config, before: Outcome, other: Outcome, e: Event, env: Env, env': Env)
    requires env.ack == env'.ack && other == before
    ensures Then(before, Terminal(cfg, before.peer, e, env)) == Then(other, Terminal(cfg, other.peer, e, env'))
  {
    TerminalAck(cfg, before.peer, e, env, env');
  }

  lemma TerminalAck(cfg: Config, p: Peer, e: Event, env: Env, env': Env)
    requires env.ack == env'.ack
    ensures Terminal(cfg, p, e, env) == Terminal(cfg, p, e, env')
  {
  }

  /** The environment whose cancel hook emits the given events before returning the given status. */
  function HookFrom(cfg: Config, emits: (Peer, nat) -> seq<Event>, answers: (Peer, nat) -> Status, env: Env): Env {
    env.(cancel := (p: Peer, i: nat) =>
      var o := Deliver(cfg, p, emits(p, i), |emits(p, i)|, env);
      CancelReply(emits(p, i), o.peer, o.log, answers(p, i)))
  }

  /** A hook may emit anything, the terminal event of its request or not: all of it is covered. */
  lemma AnyHookIsLegal(cfg: Config, emits: (Peer, nat) -> seq<Event>, answers: (Peer, nat) -> Status, env: Env)
    ensures LegalHook(cfg, HookFrom(cfg, emits, answers, env))
    ensures forall p: Peer, i: nat :: HookFrom(cfg, emits, answers, env).cancel(p, i).events == emits(p, i)
  {
    var hooked := HookFrom(cfg, emits, answers, env);
    forall p: Peer, i: nat ensures HookAt(cfg, hooked, p, i) {
      DeliverAck(cfg, p, emits(p, i), |emits(p, i)|, env, hooked);
    }
  }

  // --- The canceller decides the status ---

  ghost predicate Reports(log: seq<Completion>, key: Key, status: Status) {
    exists j | 0 <= j < |log| :: log[j].key == key && log[j].status == status
  }

  lemma TerminalReports(cfg: Config, p: Peer, e: Event, env: Env, i: nat)
    requires i < |p.pending| && p.pending[i].Pending? && p.pending[i].terminal != Ok
    ensures var o := Terminal(cfg, p, e, env);
      || o.peer.pending[i] == p.pending[i]
      || Reports(o.log, KeyOf(p, p.pending[i]), p.pending[i].terminal)
  {
    var o := Terminal(cfg, p, e, env);
    if MatchEvent(p, e).Hit? && MatchEvent(p, e).slot == i {
      assert o.log[0].key == KeyOf(p, p.pending[i]) && o.log[0].status == p.pending[i].terminal;
    }
  }

  lemma {:induction false} DeliverReports(cfg: Config, p: Peer, events: seq<Event>, n: nat, env: Env, i: nat)
    requires n <= |events|
    requires i < |p.pending| && p.pending[i].Pending? && p.pending[i].terminal != Ok
    ensures var o := Deliver(cfg, p, events, n, env);
      || o.peer.pending[i] == p.pending[i]
      || Reports(o.log, KeyOf(p, p.pending[i]), p.pending[i].terminal)
  {
    if n > 0 {
      var before := Deliver(cfg, p, events, n - 1, env);
      var final := Terminal(cfg, before.peer, events[n - 1], env);
      var key, status := KeyOf(p, p.pending[i]), p.pending[i].terminal;
      DeliverReports(cfg, p, events, n - 1, env, i);
      if Reports(before.log, key, status) {
        EarlierReport(before.log, final.log, key, status);
      } else {
        TerminalReports(cfg, before.peer, events[n - 1], env, i);
        if Reports(final.log, key, status) {
          LaterReport(before.log, final.log, key, status);
        }
      }
    }
  }

  lemma EarlierReport(log: seq<Completion>, more: seq<Completion>, key: Key, status: Status)
    requires Reports(log, key, status)
    ensures Reports(log + more, key, status)
  {
    var j :| 0 <= j < |log| && log[j].key == key && log[j].status == status;
    assert (log + more)[j] == log[j];
  }

  lemma LaterReport(log: seq<Completion>, more: seq<Completion>, key: Key, status: Status)
    requires Reports(more, key, status)
    ensures Reports(log + more, key, status)
  {
    var j :| 0 <= j < |more| && more[j].key == key && more[j].status == status;
    assert (log + more)[|log| + j] == more[j];
  }

  lemma HookReports(cfg: Config, p: Peer, i: nat, env: Env)
    requires LegalHook(cfg, env)
    requires i < |p.pending| && p.pending[i].Pending? && p.pending[i].terminal != Ok
    ensures var reply := env.cancel(p, i);
      || (i < |reply.peer.pending| && reply.peer.pending[i] == p.pending[i])
      || Reports(reply.log, KeyOf(p, p.pending[i]), p.pending[i].terminal)
  {
    assert HookAt(cfg, env, p, i);
    var events := env.cancel(p, i).events;
    DeliverReports(cfg, p, events, |events|, env, i);
  }

  lemma CancelSlotReports(cfg: Config, p: Peer, i: nat, status: Status, env: Env)
    requires LegalHook(cfg, env) && i < |p.pending| && p.pending[i].Pending? && status != Ok
    ensures Reports(CancelSlot(p, i, status, env).log, KeyOf(p, p.pending[i]), status)
  {
    var marked := MarkTerminal(p, i, status);
    var reply := env.cancel(marked, i);
    var key := KeyOf(p, p.pending[i]);
    HookReports(cfg, marked, i, env);
    HookShape(cfg, marked, i, env);
    if reply.peer.pending[i].Pending? {
      var finished := Finish(reply.peer, i, status, env);
      if reply.peer.pending[i] == marked.pending[i] {
        assert finished.log[0].key == key;
        LaterReport(reply.log, finished.log, key, status);
      } else {
        EarlierReport(reply.log, finished.log, key, status);
      }
    }
  }

  lemma {:induction false} KeyAbsent(pending: seq<Pending>, id: nat, generation: nat, key: Key)
    requires forall j | 0 <= j < |pending| && pending[j].Pending? :: pending[j].requestId != key.requestId
    ensures Bag(pending, PendingKey(id, generation))[key] == 0
  {
    if pending != [] {
      KeyAbsent(pending[1..], id, generation, key);
    }
  }

  /**
    Cancelling a pending request, whether or not the hook re-enters, completes it exactly once
    and with the canceller's status, and frees its slot.
   */
  lemma CancelledExactlyOnce(cfg: Config, next: nat, p: Peer, i: nat, status: Status, env: Env)
    requires ValidConfig(cfg) && PeerInv(cfg, next, p) && AtRest(p) && LegalHook(cfg, env)
    requires i < |p.pending| && p.pending[i].Pending? && status != Ok
    ensures var o, key := CancelSlot(p, i, status, env), KeyOf(p, p.pending[i]);
      && i < |o.peer.pending| && o.peer.pending[i].Idle?
      && LogKeys(o.log)[key] == 1
      && Reports(o.log, key, status)
  {
    var o, key := CancelSlot(p, i, status, env), KeyOf(p, p.pending[i]);
    CancelKeeps(cfg, next, p, i, status, env);
    CancelSlotReports(cfg, p, i, status, env);
    CancelShape(cfg, p, i, status, env);
    KeyOnce(p, i);
    KeyGone(p, o.peer, i);
    assert (Keys(o.peer) + LogKeys(o.log))[key] == Keys(p)[key];
  }

  lemma KeyOnce(p: Peer, i: nat)
    requires AtRest(p) && i < |p.pending| && p.pending[i].Pending?
    ensures Keys(p)[KeyOf(p, p.pending[i])] == 1
  {
    var key := KeyOf(p, p.pending[i]);
    BagUpdate(p.pending, i, Idle, PendingKey(p.id, p.generation));
    KeyAbsent(p.pending[i := Idle], p.id, p.generation, key);
    assert (Bag(p.pending[i := Idle], PendingKey(p.id, p.generation)) + multiset{key})[key] == Keys(p)[key];
  }

  lemma KeyGone(p: Peer, r: Peer, i: nat)
    requires AtRest(p) && SameShape(p, r) && i < |p.pending| && p.pending[i].Pending? && r.pending[i].Idle?
    ensures Keys(r)[KeyOf(p, p.pending[i])] == 0
  {
    KeyAbsent(r.pending, p.id, p.generation, KeyOf(p, p.pending[i]));
  }

  // --- Distinct protocol ids ---

  ghost predicate DistinctProtocol(p: Peer) {
    forall i, j | 0 <= i < j < |p.pending| && p.pending[i].Pending? && p.pending[j].Pending? ::
      p.pending[i].protocolId != p.pending[j].protocolId
  }

  /** Protocol ids stay distinct under every peer operation that only clears slots. */
  lemma ShapeDistinct(p: Peer, r: Peer)
    requires DistinctProtocol(p) && SameShape(p, r)
    ensures DistinctProtocol(r)
  {
  }

  /** ... and under admission when the protocol hands out an id that is not in use. */
  lemma AdmitDistinct(cfg: Config, p: Peer, i: nat, r: Request, protocolId: nat, now: nat)
    requires DistinctProtocol(p) && i < |p.pending|
    requires forall j | 0 <= j < |p.pending| :: !ProtocolIs(p.pending[j], protocolId)
    ensures DistinctProtocol(Admit(cfg, p, i, r, protocolId, now))
  {
  }

  // --- Transfer quota ---

  /** Bytes already moved and bytes reserved together stay within the cap. */
  ghost predicate Tight(cfg: Config, p: Peer) { p.transferred + p.reservedBytes <= cfg.maxTransfer }

  /** The event's transfer is charged to the peer: it completes a request with success and status OK. */
  ghost predicate Charged(cfg: Config, p: Peer, e: Event, env: Env) {
    var o := Terminal(cfg, p, e, env);
    o.log != [] && e.completed && e.ioStatus == IO_SUCCESS && o.log[0].status == Ok
  }

  /**
    When an event is charged, moved plus reserved bytes stay within the cap exactly when the event
    reports no more than its reservation plus the room that was left.
   */
  lemma ChargedStaysTightIff(cfg: Config, next: nat, p: Peer, e: Event, env: Env)
    requires ValidConfig(cfg) && PeerInv(cfg, next, p) && Tight(cfg, p) && Charged(cfg, p, e, env)
    ensures var q := p.pending[FindProtocol(p, e.requestId).value];
      Tight(cfg, Terminal(cfg, p, e, env).peer) <==>
        e.transferred <= q.bytes + (cfg.maxTransfer - p.transferred - p.reservedBytes)
  {
    var Hit(i, v) := MatchEvent(p, e);
    var q := p.pending[i];
    var settled := Settle(cfg, p, v, q, e).0;
    SettleBytes(cfg, p, v, q, e);
    ClearKeeps(cfg, next, p, i);
    assert settled.reservedBytes == p.reservedBytes;
  }

  lemma SettleBytes(cfg: Config, p: Peer, v: nat, q: Pending, e: Event)
    requires v < |p.volumes| && p.volumes[v].Volume? && q.Pending?
    ensures var (r, status) := Settle(cfg, p, v, q, e);
      && r.reservedBytes == p.reservedBytes
      && r.transferred == p.transferred +
           (if e.completed && e.ioStatus == IO_SUCCESS && status == Ok then e.transferred else 0)
  {
  }

  /** The event reports no more bytes than the requests it could name had reserved. */
  ghost predicate Honest(p: Peer, e: Event) {
    forall i | 0 <= i < |p.pending| && ProtocolIs(p.pending[i], e.requestId) :: e.transferred <= p.pending[i].bytes
  }

  ghost predicate HonestHook(env: Env) {
    forall p: Peer, i: nat, j | 0 <= j < |env.cancel(p, i).events| :: Honest(p, env.cancel(p, i).events[j])
  }

  lemma TerminalTight(cfg: Config, next: nat, p: Peer, e: Event, env: Env)
    requires ValidConfig(cfg) && PeerInv(cfg, next, p) && Tight(cfg, p) && Honest(p, e)
    ensures Tight(cfg, Terminal(cfg, p, e, env).peer)
  {
    if Terminal(cfg, p, e, env).log != [] {
      var Hit(i, v) := MatchEvent(p, e);
      SettleBytes(cfg, p, v, p.pending[i], e);
      ClearKeeps(cfg, next, p, i);
    }
  }

  lemma {:induction false} DeliverTight(cfg: Config, next: nat, p: Peer, events: seq<Event>, n: nat, env: Env)
    requires ValidConfig(cfg) && PeerInv(cfg, next, p) && Tight(cfg, p) && n <= |events|
    requires forall j | 0 <= j < |events| :: Honest(p, events[j])
    ensures Tight(cfg, Deliver(cfg, p, events, n, env).peer)
  {
    if n > 0 {
      var before, e := Deliver(cfg, p, events, n - 1, env), events[n - 1];
      DeliverTight(cfg, next, p, events, n - 1, env);
      DeliverKeeps(cfg, next, p, events, n - 1, env);
      DeliverShape(cfg, p, events, n - 1, env);
      OneMoreTight(cfg, next, p, before, e, env);
      assert Deliver(cfg, p, events, n, env) == Then(before, Terminal(cfg, before.peer, e, env));
    }
  }

  lemma OneMoreTight(cfg: Config, next: nat, p: Peer, before: Outcome, e: Event, env: Env)
    requires ValidConfig(cfg) && PeerInv(cfg, next, before.peer) && Honest(p, e) && SameShape(p, before.peer)
    requires Tight(cfg, before.peer)
    ensures Tight(cfg, Then(before, Terminal(cfg, before.peer, e, env)).peer)
  {
    StillHonest(p, before.peer, e);
    TerminalTight(cfg, next, before.peer, e, env);
  }

  lemma StillHonest(p: Peer, r: Peer, e: Event)
    requires SameShape(p, r) && Honest(p, e)
    ensures Honest(r, e)
  {
  }

  lemma HookTight(cfg: Config, next: nat, p: Peer, i: nat, env: Env)
    requires ValidConfig(cfg) && PeerInv(cfg, next, p) && Tight(cfg, p) && LegalHook(cfg, env) && HonestHook(env)
    ensures Tight(cfg, env.cancel(p, i).peer)
  {
    assert HookAt(cfg, env, p, i);
    var events := env.cancel(p, i).events;
    DeliverTight(cfg, next, p, events, |events|, env);
  }

  lemma CancelTight(cfg: Config, next: nat, p: Peer, i: nat, status: Status, env: Env)
    requires ValidConfig(cfg) && PeerInv(cfg, next, p) && Tight(cfg, p) && LegalHook(cfg, env) && HonestHook(env)
    requires i < |p.pending| && p.pending[i].Pending?
    ensures Tight(cfg, CancelSlot(p, i, status, env).peer)
  {
    var marked := MarkTerminal(p, i, status);
    MarkKeeps(cfg, next, p, i, status);
    HookTight(cfg, next, marked, i, env);
  }

  /** With an honest protocol, cancelling any set of requests keeps moved plus reserved bytes within the cap. */
  lemma {:induction false} SweepTight(cfg: Config, next: nat, p: Peer, k: nat, due: Pending -> bool, status: Status,
                                      env: Env)
    requires ValidConfig(cfg) && PeerInv(cfg, next, p) && Tight(cfg, p) && LegalHook(cfg, env) && HonestHook(env)
    ensures Tight(cfg, SweepTo(p, k, due, status, env).peer)
  {
    if k > 0 {
      var before := SweepTo(p, k - 1, due, status, env).peer;
      SweepTight(cfg, next, p, k - 1, due, status, env);
      SweepKeeps(cfg, next, p, k - 1, due, status, env);
      CancelIfTight(cfg, next, before, k - 1, due, status, env);
    }
  }

  lemma CancelIfTight(cfg: Config, next: nat, p: Peer, k: nat, due: Pending -> bool, status: Status, env: Env)
    requires ValidConfig(cfg) && PeerInv(cfg, next, p) && Tight(cfg, p) && LegalHook(cfg, env) && HonestHook(env)
    ensures Tight(cfg, CancelIf(p, k, due, status, env).peer)
  {
    if k < |p.pending| && p.pending[k].Pending? && due(p.pending[k]) {
      CancelTight(cfg, next, p, k, status, env);
    }
  }

  ghost predicate AllTight(d: Drive) {
    forall k | 0 <= k < |d.peers| && d.peers[k].Some? :: Tight(d.cfg, d.peers[k].value)
  }

  /** Every event of the step, including those a cancel hook emits, is honest. */
  ghost predicate HonestStep(d: Drive, step: Step) {
    match step
    case Protocol(id, generation, input, env) =>
      && HonestHook(env)
      && (input.RequestEnded? ==>
            forall k | 0 <= k < |d.peers| && d.peers[k].Some? :: Honest(d.peers[k].value, input.event))
    case PeerRemoved(_, _, env) => HonestHook(env)
    case CancelRequested(_, _, _, env) => HonestHook(env)
    case Revoked(env) => HonestHook(env)
    case Enabled(_, env) => HonestHook(env)
    case Ticked(_, env) => HonestHook(env)
    case _ => true
  }

  lemma {:induction false} StripFromTight(d: Drive, k: nat, env: Env)
    requires Stripping(d, k) && AllTight(d) && LegalHook(d.cfg, env) && HonestHook(env)
    ensures AllTight(StripFrom(d, k, env))
    decreases |d.peers| - k
  {
    if k < |d.peers| {
      if d.peers[k].None? {
        StripFromTight(d, k + 1, env);
      } else {
        var p := d.peers[k].value;
        var o := Strip(p, State, env);
        assert SlotInv(d.(enabled := true), k);
        SweepTight(d.cfg, d.nextVolumeId, p, |p.pending|, Always(), State, env);
        StripStepKeeps(d, k, env);
        StripFromTight(Commit(d, k, o), k + 1, env);
      }
    }
  }

  lemma {:induction false} TimeoutsTight(d: Drive, k: nat, now: nat, env: Env)
    requires Inv(d) && AllTight(d) && LegalHook(d.cfg, env) && HonestHook(env)
    ensures AllTight(TimeoutsFrom(d, k, now, env).1)
    decreases |d.peers| - k
  {
    if k < |d.peers| {
      if d.peers[k].None? {
        TimeoutsTight(d, k + 1, now, env);
      } else {
        var o := Sweep(d.peers[k].value, DueBy(now), Timeout, env);
        assert SlotInv(d, k);
        SweepTight(d.cfg, d.nextVolumeId, d.peers[k].value, |d.peers[k].value.pending|, DueBy(now), Timeout, env);
        TimeoutStepKeeps(d, k, now, env);
        TimeoutsTight(Commit(d, k, o), k + 1, now, env);
      }
    }
  }

  lemma ProtocolTight(d: Drive, id: nat, generation: nat, input: ProtocolInput, env: Env)
    requires Inv(d) && AllTight(d) && LegalHook(d.cfg, env) && HonestStep(d, Protocol(id, generation, input, env))
    ensures AllTight(ProtocolEvent(d, id, generation, input, env).1)
  {
    var found := FindPeer(d.peers, id, generation);
    if found.Some? {
      var p := d.peers[found.value].value;
      assert SlotInv(d, found.value);
      match input {
        case DeviceRemoved(device) =>
          var v := FindDevice(p, device);
          if v.Some? {
            SweepTight(d.cfg, d.nextVolumeId, p, |p.pending|, OnVolume(p.volumes[v.value].id), Cancelled, env);
          }
        case RequestEnded(event) => TerminalTight(d.cfg, d.nextVolumeId, p, event, env);
        case _ =>
      }
    }
  }

  lemma RequestTight(d: Drive, r: Request, now: nat, env: Env)
    requires Inv(d) && AllTight(d)
    ensures AllTight(PlatformRequest(d, r, now, env).1)
  {
    var found := FindPeer(d.peers, r.peerId, r.generation);
    if found.Some? && Admissible(d.cfg, d.peers[found.value].value, r).Accept? {
      assert SlotInv(d, found.value);
      AdmitKeeps(d.cfg, d.nextVolumeId, d.peers[found.value].value, r,
                 env.submit(WithNormalPath(d.cfg, r)).protocolId, now);
    }
  }

  lemma CancelRequestTight(d: Drive, id: nat, generation: nat, requestId: nat, env: Env)
    requires Inv(d) && AllTight(d) && LegalHook(d.cfg, env) && HonestHook(env)
    ensures AllTight(PlatformCancel(d, id, generation, requestId, env).1)
  {
    var found := FindPeer(d.peers, id, generation);
    if found.Some? && FindRequest(d.peers[found.value].value, requestId).Some? {
      assert SlotInv(d, found.value);
      CancelTight(d.cfg, d.nextVolumeId, d.peers[found.value].value,
                  FindRequest(d.peers[found.value].value, requestId).value, Cancelled, env);
    }
  }

  lemma RevokeTight(d: Drive, env: Env)
    requires Inv(d) && AllTight(d) && LegalHook(d.cfg, env) && HonestHook(env)
    ensures AllTight(Revoke(d, env))
  {
    if d.enabled {
      assert d.(enabled := false).(enabled := true) == d;
      StripFromTight(d.(enabled := false), 0, env);
    }
  }

  lemma AddPeerTight(d: Drive, id: nat, generation: nat)
    requires AllTight(d)
    ensures AllTight(AddPeer(d, id, generation).1)
  {
  }

  lemma RemovePeerTight(d: Drive, id: nat, generation: nat, env: Env)
    requires AllTight(d)
    ensures AllTight(RemovePeer(d, id, generation, env))
  {
  }

  lemma StepTight(d: Drive, step: Step)
    requires Inv(d) && AllTight(d) && LegalStep(d.cfg, step) && HonestStep(d, step)
    ensures AllTight(After(d, step))
  {
    match step {
      case PeerAdded(id, generation) => AddPeerTight(d, id, generation);
      case PeerRemoved(id, generation, env) => RemovePeerTight(d, id, generation, env);
      case Protocol(id, generation, input, env) => ProtocolTight(d, id, generation, input, env);
      case Requested(r, now, env) => RequestTight(d, r, now, env);
      case CancelRequested(id, generation, requestId, env) => CancelRequestTight(d, id, generation, requestId, env);
      case Revoked(env) => RevokeTight(d, env);
      case Enabled(enabled, env) => RevokeTight(d, env);
      case Ticked(now, env) => TimeoutsTight(d, 0, now, env);
    }
  }

  ghost predicate HonestRun(d: Drive, steps: seq<Step>) {
    steps != [] ==>
      && HonestRun(d, steps[..|steps| - 1])
      && HonestStep(Run(d, steps[..|steps| - 1]), steps[|steps| - 1])
  }

  /** If completions never report more than they reserved, moved plus reserved bytes never exceed the cap. */
  lemma {:induction false} QuotaHolds(cfg: Config, enabled: bool, steps: seq<Step>)
    requires ValidConfig(cfg) && LegalRun(cfg, steps) && HonestRun(NewDrive(cfg, enabled), steps)
    ensures AllTight(Run(NewDrive(cfg, enabled), steps))
  {
    if steps != [] {
      assert LegalStep(cfg, steps[|steps| - 1]);
      QuotaHolds(cfg, enabled, steps[..|steps| - 1]);
      RunKeepsInv(cfg, enabled, steps[..|steps| - 1]);
      StepTight(Run(NewDrive(cfg, enabled), steps[..|steps| - 1]), steps[|steps| - 1]);
    }
  }

  // --- Timeouts ---

  ghost predicate NoneOverdue(p: Peer, now: nat) {
    forall i | 0 <= i < |p.pending| && p.pending[i].Pending? :: p.pending[i].deadline > now
  }

  /** After a dispatch no request of any peer is past its deadline. */
  lemma {:induction false} TimeoutsClear(d: Drive, k: nat, now: nat, env: Env)
    requires LegalHook(d.cfg, env)
    ensures var r := TimeoutsFrom(d, k, now, env).1;
      && |r.peers| == |d.peers|
      && (forall j | 0 <= j < k && j < |d.peers| :: r.peers[j] == d.peers[j])
      && (forall j | k <= j < |d.peers| && r.peers[j].Some? :: NoneOverdue(r.peers[j].value, now))
    decreases |d.peers| - k
  {
    if k < |d.peers| {
      if d.peers[k].None? {
        TimeoutsClear(d, k + 1, now, env);
      } else {
        var o := Sweep(d.peers[k].value, DueBy(now), Timeout, env);
        SweepClears(d.cfg, d.peers[k].value, |d.peers[k].value.pending|, DueBy(now), Timeout, env);
        SweepShape(d.cfg, d.peers[k].value, |d.peers[k].value.pending|, DueBy(now), Timeout, env);
        TimeoutsClear(Commit(d, k, o), k + 1, now, env);
      }
    }
  }

  /** The hook emits events only for the request it is asked to cancel. */
  ghost predicate OwnHook(env: Env) {
    forall p: Peer, i: nat, j | i < |p.pending| && p.pending[i].Pending? && 0 <= j < |env.cancel(p, i).events| ::
      env.cancel(p, i).events[j].requestId == p.pending[i].protocolId
  }

  /** Events for other requests leave a slot as it is. */
  lemma {:induction false} DeliverOwn(cfg: Config, p: Peer, events: seq<Event>, n: nat, env: Env, i: nat)
    requires n <= |events| && i < |p.pending|
    requires forall j | 0 <= j < |events| :: !ProtocolIs(p.pending[i], events[j].requestId)
    ensures Deliver(cfg, p, events, n, env).peer.pending[i] == p.pending[i]
  {
    if n > 0 {
      var before, e := Deliver(cfg, p, events, n - 1, env), events[n - 1];
      assert !ProtocolIs(p.pending[i], e.requestId);
      DeliverOwn(cfg, p, events, n - 1, env, i);
      OneMoreOwn(cfg, before, e, env, i);
      assert Deliver(cfg, p, events, n, env) == Then(before, Terminal(cfg, before.peer, e, env));
    }
  }

  lemma OneMoreOwn(cfg: Config, before: Outcome, e: Event, env: Env, i: nat)
    requires i < |before.peer.pending| && !ProtocolIs(before.peer.pending[i], e.requestId)
    ensures Then(before, Terminal(cfg, before.peer, e, env)).peer.pending[i] == before.peer.pending[i]
  {
    TerminalOwn(cfg, before.peer, e, env, i);
  }

  lemma TerminalOwn(cfg: Config, p: Peer, e: Event, env: Env, i: nat)
    requires i < |p.pending| && !ProtocolIs(p.pending[i], e.requestId)
    ensures Terminal(cfg, p, e, env).peer.pending[i] == p.pending[i]
  {
  }

  lemma HookOwn(cfg: Config, p: Peer, k: nat, i: nat, env: Env)
    requires DistinctProtocol(p) && LegalHook(cfg, env) && OwnHook(env)
    requires k < |p.pending| && i < |p.pending| && i != k && p.pending[k].Pending?
    ensures var r := env.cancel(p, k).peer; i < |r.pending| && r.pending[i] == p.pending[i]
  {
    assert HookAt(cfg, env, p, k);
    var events := env.cancel(p, k).events;
    forall j | 0 <= j < |events| ensures !ProtocolIs(p.pending[i], events[j].requestId) {
      assert events[j].requestId == p.pending[k].protocolId;
    }
    DeliverOwn(cfg, p, events, |events|, env, i);
  }

  lemma CancelOwn(cfg: Config, p: Peer, k: nat, i: nat, status: Status, env: Env)
    requires DistinctProtocol(p) && LegalHook(cfg, env) && OwnHook(env)
    requires k < |p.pending| && i < |p.pending| && i != k && p.pending[k].Pending?
    ensures var r := CancelSlot(p, k, status, env).peer; i < |r.pending| && r.pending[i] == p.pending[i]
  {
    HookOwn(cfg, MarkTerminal(p, k, status), k, i, env);
  }

  lemma CancelIfOwn(cfg: Config, p: Peer, k: nat, due: Pending -> bool, status: Status, env: Env, i: nat)
    requires DistinctProtocol(p) && LegalHook(cfg, env) && OwnHook(env) && i < |p.pending| && i != k
    ensures var r := CancelIf(p, k, due, status, env).peer; i < |r.pending| && r.pending[i] == p.pending[i]
  {
    if k < |p.pending| && p.pending[k].Pending? && due(p.pending[k]) {
      CancelOwn(cfg, p, k, i, status, env);
    }
  }

  /** Slot `i` is as it was. */
  predicate Untouched(p: Peer, r: Peer, i: nat) {
    i < |p.pending| && i < |r.pending| && r.pending[i] == p.pending[i]
  }

  lemma {:induction false} SweepOwn(cfg: Config, p: Peer, k: nat, due: Pending -> bool, status: Status,
                                    env: Env, i: nat)
    requires DistinctProtocol(p) && LegalHook(cfg, env) && OwnHook(env) && k <= i < |p.pending|
    ensures Untouched(p, SweepTo(p, k, due, status, env).peer, i)
  {
    if k > 0 {
      var before := SweepTo(p, k - 1, due, status, env);
      SweepOwn(cfg, p, k - 1, due, status, env, i);
      SweepShape(cfg, p, k - 1, due, status, env);
      OneMoreSwept(cfg, p, before, k - 1, due, status, env, i);
    }
  }

  lemma OneMoreSwept(cfg: Config, p: Peer, before: Outcome, k: nat, due: Pending -> bool, status: Status,
                     env: Env, i: nat)
    requires DistinctProtocol(p) && LegalHook(cfg, env) && OwnHook(env) && SameShape(p, before.peer)
    requires Untouched(p, before.peer, i) && i != k
    ensures Untouched(p, Then(before, CancelIf(before.peer, k, due, status, env)).peer, i)
  {
    ShapeDistinct(p, before.peer);
    CancelIfOwn(cfg, before.peer, k, due, status, env, i);
  }

  /** A sweep with such a hook reports its status for every request it was meant to cancel. */
  lemma {:induction false} SweepReports(cfg: Config, p: Peer, k: nat, due: Pending -> bool, status: Status,
                                        env: Env, i: nat)
    requires DistinctProtocol(p) && LegalHook(cfg, env) && OwnHook(env) && status != Ok
    requires i < k <= |p.pending| && p.pending[i].Pending? && due(p.pending[i])
    ensures Reports(SweepTo(p, k, due, status, env).log, KeyOf(p, p.pending[i]), status)
  {
    var before := SweepTo(p, k - 1, due, status, env);
    var last := CancelIf(before.peer, k - 1, due, status, env);
    if i < k - 1 {
      SweepReports(cfg, p, k - 1, due, status, env, i);
      EarlierReport(before.log, last.log, KeyOf(p, p.pending[i]), status);
    } else {
      SweepOwn(cfg, p, i, due, status, env, i);
      SweepShape(cfg, p, i, due, status, env);
      CancelSlotReports(cfg, before.peer, i, status, env);
      LaterReport(before.log, last.log, KeyOf(p, p.pending[i]), status);
    }
  }

  /** Deadlines saturate instead of wrapping. */
  lemma DeadlineSaturates(now: u64, timeoutMs: u32)
    ensures RequestDeadline(now, timeoutMs) ==
      if now + timeoutMs * NS_PER_MS > U64_MAX then U64_MAX else now + timeoutMs * NS_PER_MS
  {
    var sum := now + timeoutMs * NS_PER_MS;
    if sum > U64_MAX {
      assert sum % (U64_MAX + 1) == sum - (U64_MAX + 1);
    }
  }
}
