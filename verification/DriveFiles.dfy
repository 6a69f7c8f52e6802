/**
  Which files are open. The file table of a peer always holds exactly the files that completed
  CREATE requests opened and that no completed CLOSE request, removed volume or departed peer has
  taken away since.
 */
module DriveFiles {
  import opened Status
  import opened Tally
  import opened DriveModel
  import opened DriveInvariants
  import opened DriveRuns
  import opened DriveIdentity

  /** What tells one file handle from another. */
  type Tag = (nat, nat, nat)

  function TagOf(h: Handle): Tag { (h.reconnect, h.deviceId, h.fileId) }

  /** A handle the protocol may name at all. */
  predicate Usable(h: Handle) { h.reconnect != 0 && h.deviceId != 0 && h.fileId != 0 && h.reserved == 0 }

  /** The open files of a peer, each with the volume it is on. */
  function Files(p: Peer): set<(Tag, nat)> {
    set k: nat | k < |p.files| && p.files[k].File? :: (TagOf(p.files[k].handle), p.files[k].volumeId)
  }

  /** No two slots hold the same file. */
  ghost predicate Unique(p: Peer) {
    forall i, j | 0 <= i < j < |p.files| && p.files[i].File? && p.files[j].File? ::
      TagOf(p.files[i].handle) != TagOf(p.files[j].handle)
  }

  /** Volumes are on devices that the protocol may name. */
  ghost predicate Reachable(p: Peer) {
    forall v | 0 <= v < |p.volumes| && p.volumes[v].Volume? ::
      p.volumes[v].device.reconnect != 0 && p.volumes[v].device.id != 0
  }

  ghost predicate Sound(p: Peer) { Unique(p) && Reachable(p) }

  // --- Lookups ---

  lemma FoundIff(p: Peer, h: Handle)
    requires Usable(h)
    ensures FindFile(p, h).Some? <==> exists v :: (TagOf(h), v) in Files(p)
    ensures FindFile(p, h).Some? ==> (TagOf(h), p.files[FindFile(p, h).value].volumeId) in Files(p)
  {
    FirstLaw(p.files, (f: File) => HandleIs(f, h));
    if v :| (TagOf(h), v) in Files(p) {
      var k: nat :| k < |p.files| && p.files[k].File?
                    && (TagOf(p.files[k].handle), p.files[k].volumeId) == (TagOf(h), v);
      assert HandleIs(p.files[k], h);
    }
  }

  lemma FoundOn(p: Peer, h: Handle, v: nat)
    requires Unique(p) && Usable(h)
    ensures (TagOf(h), v) in Files(p) <==> FindFile(p, h).Some? && p.files[FindFile(p, h).value].volumeId == v
  {
    FoundIff(p, h);
    if (TagOf(h), v) in Files(p) {
      var k: nat :| k < |p.files| && p.files[k].File?
                    && (TagOf(p.files[k].handle), p.files[k].volumeId) == (TagOf(h), v);
      var i := FindFile(p, h).value;
      assert TagOf(p.files[i].handle) == TagOf(p.files[k].handle);
    }
  }

  /** A slot is filled or emptied. */
  lemma SlotFiles(p: Peer, r: Peer, k: nat)
    requires Unique(p) && k < |p.files| == |r.files| && r.files == p.files[k := r.files[k]]
    requires p.files[k].NoFile? != r.files[k].NoFile?
    requires r.files[k].File? ==> forall v: nat :: (TagOf(r.files[k].handle), v) !in Files(p)
    ensures Unique(r)
    ensures r.files[k].File? ==> Files(r) == Files(p) + {(TagOf(r.files[k].handle), r.files[k].volumeId)}
    ensures p.files[k].File? ==> Files(r) == Files(p) - {(TagOf(p.files[k].handle), p.files[k].volumeId)}
  {
    forall i, j | 0 <= i < j < |r.files| && r.files[i].File? && r.files[j].File?
      ensures TagOf(r.files[i].handle) != TagOf(r.files[j].handle)
    {
      var o := if i == k then j else i;
      assert (TagOf(p.files[o].handle), p.files[o].volumeId) in Files(p);
    }
    if r.files[k].File? {
      SlotAdds(p, r, k);
    } else {
      SlotAdds(r, p, k);
      NotElsewhere(p, r, k);
    }
  }

  lemma SlotAdds(p: Peer, r: Peer, k: nat)
    requires k < |p.files| == |r.files| && p.files[k].NoFile? && r.files[k].File?
    requires forall i | 0 <= i < |p.files| && i != k :: r.files[i] == p.files[i]
    ensures Files(r) == Files(p) + {(TagOf(r.files[k].handle), r.files[k].volumeId)}
  {
    forall x | x in Files(r) ensures x in Files(p) + {(TagOf(r.files[k].handle), r.files[k].volumeId)} {
      var i: nat :| i < |r.files| && r.files[i].File? && (TagOf(r.files[i].handle), r.files[i].volumeId) == x;
    }
    forall x | x in Files(p) ensures x in Files(r) {
      var i: nat :| i < |p.files| && p.files[i].File? && (TagOf(p.files[i].handle), p.files[i].volumeId) == x;
      assert r.files[i] == p.files[i];
    }
  }

  lemma NotElsewhere(p: Peer, r: Peer, k: nat)
    requires Unique(p) && k < |p.files| && p.files[k].File? && r.files == p.files[k := NoFile]
    ensures forall v: nat :: (TagOf(p.files[k].handle), v) !in Files(r)
  {
    forall i: nat | i < |r.files| && r.files[i].File? ensures TagOf(r.files[i].handle) != TagOf(p.files[k].handle) {
      assert r.files[i] == p.files[i];
    }
  }

  // --- What a completion does to the open files ---

  /** The client reports success and nothing of the runtime's own stood against it. */
  predicate Succeeded(c: Completion, operation: nat) {
    && c.status == Ok && c.event.Some?
    && c.event.value.completed && c.event.value.ioStatus == IO_SUCCESS && c.event.value.operation == operation
  }

  function Effect(files: set<(Tag, nat)>, c: Completion): set<(Tag, nat)> {
    if Succeeded(c, CREATE) then files + {(TagOf(c.event.value.file), c.key.volumeId)}
    else if Succeeded(c, CLOSE) then files - {(TagOf(c.event.value.file), c.key.volumeId)}
    else files
  }

  predicate Of(c: Completion, id: nat, generation: nat) { c.key.peerId == id && c.key.generation == generation }

  /** What the completions of one peer, in order, make of its open files. */
  function Fold(files: set<(Tag, nat)>, log: seq<Completion>, id: nat, generation: nat): set<(Tag, nat)> {
    if log == [] then files
    else
      var before, last := Fold(files, log[..|log| - 1], id, generation), log[|log| - 1];
      if Of(last, id, generation) then Effect(before, last) else before
  }

  lemma {:induction false} FoldAppend(files: set<(Tag, nat)>, a: seq<Completion>, b: seq<Completion>,
                                      id: nat, generation: nat)
    ensures Fold(files, a + b, id, generation) == Fold(Fold(files, a, id, generation), b, id, generation)
  {
    if b == [] {
      assert a + b == a;
    } else {
      FoldAppend(files, a, b[..|b| - 1], id, generation);
      assert (a + b)[..|a + b| - 1] == a + b[..|b| - 1];
    }
  }

  lemma {:induction false} FoldOthers(files: set<(Tag, nat)>, log: seq<Completion>, id: nat, generation: nat)
    requires forall i | 0 <= i < |log| :: !Of(log[i], id, generation)
    ensures Fold(files, log, id, generation) == files
  {
    if log != [] {
      FoldOthers(files, log[..|log| - 1], id, generation);
    }
  }

  lemma FoldOne(files: set<(Tag, nat)>, c: Completion, id: nat, generation: nat)
    requires Of(c, id, generation)
    ensures Fold(files, [c], id, generation) == Effect(files, c)
  {
    assert [c][..0] == [];
  }

  // --- One peer ---

  predicate AllOf(log: seq<Completion>, id: nat, generation: nat) {
    forall i | 0 <= i < |log| :: Of(log[i], id, generation)
  }

  /** The outcome's log accounts for the change of the file table. */
  ghost predicate Tracks(p: Peer, o: Outcome) {
    && o.peer.id == p.id && o.peer.generation == p.generation && AllOf(o.log, p.id, p.generation)
    && Sound(o.peer) && Files(o.peer) == Fold(Files(p), o.log, p.id, p.generation)
  }

  lemma TracksThen(p: Peer, first: Outcome, rest: Outcome)
    requires Tracks(p, first) && Tracks(first.peer, rest)
    ensures Tracks(p, Then(first, rest))
  {
    FoldAppend(Files(p), first.log, rest.log, p.id, p.generation);
  }

  lemma SameFilesTrack(p: Peer, r: Peer, status: Status)
    requires Sound(p) && r.files == p.files && r.volumes == p.volumes
    requires r.id == p.id && r.generation == p.generation
    ensures Tracks(p, Outcome(r, [], status))
  {
  }

  lemma CreateTracks(cfg: Config, p: Peer, v: nat, e: Event)
    requires Sound(p) && v < |p.volumes| && p.volumes[v].Volume?
    ensures var (r, status) := SettleCreate(cfg, p, v, e);
      && Sound(r)
      && (status == Ok ==> Files(r) == Files(p) + {(TagOf(e.file), p.volumes[v].id)})
      && (status != Ok ==> r == p)
  {
    var (r, status) := SettleCreate(cfg, p, v, e);
    if status == Ok {
      var k := First(p.files, (f: File) => f.NoFile?).value;
      if x :| (TagOf(e.file), x) in Files(p) {
        var i: nat :| i < |p.files| && p.files[i].File? && TagOf(p.files[i].handle) == TagOf(e.file);
        NotFound(p, e.file, i);
      }
      SlotFiles(p, r, k);
    }
  }

  lemma NotFound(p: Peer, h: Handle, i: nat)
    requires i < |p.files| && p.files[i].File? && TagOf(p.files[i].handle) == TagOf(h) && Usable(h)
    ensures FindFile(p, h).Some?
  {
    FirstLaw(p.files, (f: File) => HandleIs(f, h));
    assert HandleIs(p.files[i], h);
  }

  lemma CloseTracks(p: Peer, v: nat, e: Event)
    requires Sound(p) && v < |p.volumes| && p.volumes[v].Volume?
    ensures var (r, status) := SettleClose(p, v, e);
      && Sound(r)
      && (status == Ok ==> Files(r) == Files(p) - {(TagOf(e.file), p.volumes[v].id)})
      && (status != Ok ==> r == p)
  {
    var (r, status) := SettleClose(p, v, e);
    if status == Ok {
      SlotFiles(p, r, FindFile(p, e.file).value);
    }
  }

  lemma SettleTracks(cfg: Config, p: Peer, v: nat, q: Pending, e: Event)
    requires Sound(p) && v < |p.volumes| && p.volumes[v].Volume? && q.Pending?
    ensures var (r, status) := Settle(cfg, p, v, q, e);
      && Sound(r) && r.id == p.id && r.generation == p.generation
      && (status == Ok && e.completed && e.ioStatus == IO_SUCCESS && e.operation == CREATE ==>
            Files(r) == Files(p) + {(TagOf(e.file), p.volumes[v].id)})
      && (status == Ok && e.completed && e.ioStatus == IO_SUCCESS && e.operation == CLOSE ==>
            Files(r) == Files(p) - {(TagOf(e.file), p.volumes[v].id)})
      && (!(status == Ok && e.completed && e.ioStatus == IO_SUCCESS && e.operation in {CREATE, CLOSE}) ==>
            Files(r) == Files(p))
  {
    CreateTracks(cfg, p, v, e);
    CloseTracks(p, v, e);
  }

  lemma TerminalTracks(cfg: Config, p: Peer, e: Event, env: Env)
    requires Sound(p)
    ensures Tracks(p, Terminal(cfg, p, e, env))
  {
    var o := Terminal(cfg, p, e, env);
    if MatchEvent(p, e).Hit? {
      var i, v := MatchEvent(p, e).slot, MatchEvent(p, e).volume;
      var (settled, status) := Settle(cfg, p, v, p.pending[i], e);
      SettleTracks(cfg, p, v, p.pending[i], e);
      assert o.peer.files == settled.files;
      assert p.volumes[v].id == p.pending[i].volumeId;
      FoldOne(Files(p), o.log[0], p.id, p.generation);
    }
  }

  lemma {:induction false} DeliverTracks(cfg: Config, p: Peer, events: seq<Event>, n: nat, env: Env)
    requires Sound(p) && n <= |events|
    ensures Tracks(p, Deliver(cfg, p, events, n, env))
  {
    if n > 0 {
      var before, e := Deliver(cfg, p, events, n - 1, env), events[n - 1];
      DeliverTracks(cfg, p, events, n - 1, env);
      TerminalTracks(cfg, before.peer, e, env);
      TracksThen(p, before, Terminal(cfg, before.peer, e, env));
    }
  }

  /** Ending a request without an event leaves the files as they are. */
  lemma FinishTracks(p: Peer, i: nat, status: Status, env: Env)
    requires Sound(p) && i < |p.pending| && p.pending[i].Pending?
    ensures Tracks(p, Finish(p, i, status, env))
  {
    var o := Finish(p, i, status, env);
    FoldOne(Files(p), o.log[0], p.id, p.generation);
  }

  lemma HookTracks(cfg: Config, p: Peer, i: nat, env: Env)
    requires Sound(p) && LegalHook(cfg, env)
    ensures Tracks(p, Outcome(env.cancel(p, i).peer, env.cancel(p, i).log, Ok))
  {
    assert HookAt(cfg, env, p, i);
    DeliverTracks(cfg, p, env.cancel(p, i).events, |env.cancel(p, i).events|, env);
  }

  lemma CancelTracks(cfg: Config, p: Peer, i: nat, status: Status, env: Env)
    requires Sound(p) && LegalHook(cfg, env) && i < |p.pending| && p.pending[i].Pending?
    ensures Tracks(p, CancelSlot(p, i, status, env))
  {
    var marked := MarkTerminal(p, i, status);
    var reply := env.cancel(marked, i);
    var answered := Outcome(reply.peer, reply.log, Ok);
    HookTracks(cfg, marked, i, env);
    assert Files(marked) == Files(p);
    assert Tracks(p, answered);
    if i < |reply.peer.pending| && reply.peer.pending[i].Pending? {
      FinishTracks(reply.peer, i, status, env);
      TracksThen(p, answered, Finish(reply.peer, i, status, env));
    }
  }

  lemma CancelIfTracks(cfg: Config, p: Peer, k: nat, due: Pending -> bool, status: Status, env: Env)
    requires Sound(p) && LegalHook(cfg, env)
    ensures Tracks(p, CancelIf(p, k, due, status, env))
  {
    if k < |p.pending| && p.pending[k].Pending? && due(p.pending[k]) {
      CancelTracks(cfg, p, k, status, env);
    }
  }

  lemma {:induction false} SweepTracks(cfg: Config, p: Peer, k: nat, due: Pending -> bool, status: Status, env: Env)
    requires Sound(p) && LegalHook(cfg, env)
    ensures Tracks(p, SweepTo(p, k, due, status, env))
  {
    if k > 0 {
      var before := SweepTo(p, k - 1, due, status, env);
      SweepTracks(cfg, p, k - 1, due, status, env);
      CancelIfTracks(cfg, before.peer, k - 1, due, status, env);
      TracksThen(p, before, CancelIf(before.peer, k - 1, due, status, env));
    }
  }

  // --- All peers ---

  ghost predicate SoundAt(d: Drive, k: nat)
    requires k < |d.peers|
  {
    d.peers[k].Some? ==> Sound(d.peers[k].value)
  }

  predicate Same(a: Peer, b: Peer) { a.id == b.id && a.generation == b.generation }

  /** Every peer's files are well kept, and no two peers share a name. */
  ghost predicate Kept(d: Drive) {
    && (forall k | 0 <= k < |d.peers| :: SoundAt(d, k))
    && forall j, k | 0 <= j < k < |d.peers| && d.peers[j].Some? && d.peers[k].Some? ::
         !Same(d.peers[j].value, d.peers[k].value)
  }

  function FilesAt(d: Drive, k: nat): set<(Tag, nat)> {
    if k < |d.peers| && d.peers[k].Some? then Files(d.peers[k].value) else {}
  }

  /** What a log says beyond another. */
  function Since(log: seq<Completion>, more: seq<Completion>): seq<Completion> {
    if log <= more then more[|log|..] else []
  }

  ghost predicate TracksAt(d: Drive, r: Drive, k: nat)
    requires k < |d.peers| == |r.peers|
  {
    && (d.peers[k].Some? <==> r.peers[k].Some?)
    && (d.peers[k].Some? ==>
          var p, q := d.peers[k].value, r.peers[k].value;
          && Same(p, q) && Sound(q)
          && Files(q) == Fold(Files(p), Since(d.log, r.log), p.id, p.generation))
  }

  /** The same peers, whose file tables changed as the log says. */
  ghost predicate AllTrack(d: Drive, r: Drive) {
    |d.peers| == |r.peers| && d.log <= r.log && forall k | 0 <= k < |d.peers| :: TracksAt(d, r, k)
  }

  lemma TrackKept(d: Drive, r: Drive)
    requires Kept(d) && AllTrack(d, r)
    ensures Kept(r)
  {
    forall k | 0 <= k < |r.peers| ensures SoundAt(r, k) {
      assert TracksAt(d, r, k);
    }
    forall j, k | 0 <= j < k < |r.peers| && r.peers[j].Some? && r.peers[k].Some?
      ensures !Same(r.peers[j].value, r.peers[k].value)
    {
      assert TracksAt(d, r, j) && TracksAt(d, r, k);
    }
  }

  lemma SameTrack(d: Drive)
    requires Kept(d)
    ensures AllTrack(d, d)
  {
    forall k | 0 <= k < |d.peers| ensures TracksAt(d, d, k) {
      assert SoundAt(d, k);
    }
  }

  lemma AllTrackThen(d: Drive, m: Drive, r: Drive)
    requires AllTrack(d, m) && AllTrack(m, r)
    ensures AllTrack(d, r)
  {
    assert Since(d.log, r.log) == Since(d.log, m.log) + Since(m.log, r.log);
    forall k | 0 <= k < |d.peers| ensures TracksAt(d, r, k) {
      assert TracksAt(d, m, k) && TracksAt(m, r, k);
      if d.peers[k].Some? {
        var p := d.peers[k].value;
        FoldAppend(Files(p), Since(d.log, m.log), Since(m.log, r.log), p.id, p.generation);
      }
    }
  }

  lemma CommitTracks(d: Drive, k: nat, o: Outcome)
    requires Kept(d) && k < |d.peers| && d.peers[k].Some? && Tracks(d.peers[k].value, o)
    ensures AllTrack(d, Commit(d, k, o))
  {
    var r := Commit(d, k, o);
    assert Since(d.log, r.log) == o.log;
    forall j | 0 <= j < |d.peers| ensures TracksAt(d, r, j) {
      assert SoundAt(d, j);
      if j != k && d.peers[j].Some? {
        var p := d.peers[j].value;
        assert !Same(d.peers[if j < k then j else k].value, d.peers[if j < k then k else j].value);
        FoldOthers(Files(p), o.log, p.id, p.generation);
      }
    }
  }

  lemma {:induction false} TimeoutsTrack(d: Drive, k: nat, now: nat, env: Env)
    requires Kept(d) && LegalHook(d.cfg, env)
    ensures AllTrack(d, TimeoutsFrom(d, k, now, env).1)
    decreases |d.peers| - k
  {
    SameTrack(d);
    if k < |d.peers| {
      if d.peers[k].None? {
        TimeoutsTrack(d, k + 1, now, env);
      } else {
        var p := d.peers[k].value;
        var o := Sweep(p, DueBy(now), Timeout, env);
        assert SoundAt(d, k);
        SweepTracks(d.cfg, p, |p.pending|, DueBy(now), Timeout, env);
        CommitTracks(d, k, o);
        TrackKept(d, Commit(d, k, o));
        TimeoutsTrack(Commit(d, k, o), k + 1, now, env);
        AllTrackThen(d, Commit(d, k, o), TimeoutsFrom(Commit(d, k, o), k + 1, now, env).1);
      }
    }
  }

  lemma CancelRequestTracks(d: Drive, id: nat, generation: nat, requestId: nat, env: Env)
    requires Kept(d) && LegalHook(d.cfg, env)
    ensures AllTrack(d, PlatformCancel(d, id, generation, requestId, env).1)
  {
    SameTrack(d);
    var found := FindPeer(d.peers, id, generation);
    if found.Some? && requestId != 0 {
      var p := d.peers[found.value].value;
      var slot := FindRequest(p, requestId);
      if slot.Some? {
        assert SoundAt(d, found.value);
        CancelTracks(d.cfg, p, slot.value, Cancelled, env);
        CommitTracks(d, found.value, CancelSlot(p, slot.value, Cancelled, env));
      }
    }
  }

  /** The file tables as they were, and log entries without an event. */
  lemma QuietTracks(d: Drive, r: Drive)
    requires Kept(d) && |d.peers| == |r.peers| && d.log <= r.log
    requires forall i | |d.log| <= i < |r.log| :: r.log[i].event.None?
    requires forall k | 0 <= k < |d.peers| ::
      && (d.peers[k].Some? <==> r.peers[k].Some?)
      && (d.peers[k].Some? ==>
            var p, q := d.peers[k].value, r.peers[k].value; Same(p, q) && q.files == p.files && Reachable(q))
    ensures AllTrack(d, r)
  {
    forall k | 0 <= k < |d.peers| ensures TracksAt(d, r, k) {
      assert SoundAt(d, k);
      if d.peers[k].Some? {
        var p := d.peers[k].value;
        FoldQuiet(Files(p), Since(d.log, r.log), p.id, p.generation);
      }
    }
  }

  lemma {:induction false} FoldQuiet(files: set<(Tag, nat)>, log: seq<Completion>, id: nat, generation: nat)
    requires forall i | 0 <= i < |log| :: log[i].event.None?
    ensures Fold(files, log, id, generation) == files
  {
    if log != [] {
      FoldQuiet(files, log[..|log| - 1], id, generation);
    }
  }

  lemma RequestTracks(d: Drive, r: Request, now: nat, env: Env)
    requires Kept(d)
    ensures AllTrack(d, PlatformRequest(d, r, now, env).1)
  {
    var after := PlatformRequest(d, r, now, env).1;
    forall k | 0 <= k < |d.peers| && d.peers[k].Some? ensures Reachable(after.peers[k].value) {
      assert SoundAt(d, k);
    }
    QuietTracks(d, after);
  }

  lemma AnnounceTracks(d: Drive, k: nat, device: Device, name: string, env: Env)
    requires Kept(d) && k < |d.peers| && d.peers[k].Some?
    ensures AllTrack(d, PeerInput(d, k, DeviceAdded(device, name), env).1)
  {
    var after := PeerInput(d, k, DeviceAdded(device, name), env).1;
    forall j | 0 <= j < |d.peers| && d.peers[j].Some? ensures Reachable(after.peers[j].value) {
      assert SoundAt(d, j);
    }
    QuietTracks(d, after);
  }

  // --- Volumes and peers that go ---

  /** Only files on volumes that are still there. */
  function Remaining(p: Peer, files: set<(Tag, nat)>): set<(Tag, nat)> {
    set x | x in files && HasVolume(p, x.1)
  }

  lemma AllRemain(p: Peer)
    requires Referenced(p)
    ensures Remaining(p, Files(p)) == Files(p)
  {
  }

  lemma DropFiles(cfg: Config, next: nat, p: Peer, v: nat)
    requires PeerInv(cfg, next, p) && Sound(p) && v < |p.volumes| && p.volumes[v].Volume?
    ensures var r := DropVolume(p, v);
      Sound(r) && Same(p, r) && Files(r) == Remaining(r, Files(p))
  {
    var r, id := DropVolume(p, v), p.volumes[v].id;
    forall w: nat ensures HasVolume(r, w) <==> HasVolume(p, w) && w != id {
      if HasVolume(p, w) && w != id {
        var i :| 0 <= i < |p.volumes| && VolumeIs(p.volumes[i], w);
        assert VolumeIs(r.volumes[i], w);
      }
      if HasVolume(r, w) {
        var i :| 0 <= i < |r.volumes| && VolumeIs(r.volumes[i], w);
        assert VolumeIs(p.volumes[i], w);
      }
    }
    forall x | x in Files(p) && x.1 != id ensures x in Files(r) {
      var i: nat :| i < |p.files| && p.files[i].File? && (TagOf(p.files[i].handle), p.files[i].volumeId) == x;
      assert r.files[i] == p.files[i];
    }
    forall x | x in Files(r) ensures x in Files(p) && x.1 != id {
      var i: nat :| i < |r.files| && r.files[i].File? && (TagOf(r.files[i].handle), r.files[i].volumeId) == x;
      assert r.files[i] == p.files[i];
    }
    forall x | x in Files(p) ensures HasVolume(p, x.1) {}
  }

  /** The law of one step for the peer in slot `k`. */
  ghost predicate Lawful(d: Drive, r: Drive, k: nat)
    requires k < |d.peers| == |r.peers|
  {
    r.peers[k].Some? ==>
      var q := r.peers[k].value;
      Files(q) == Remaining(q, Fold(FilesAt(d, k), Since(d.log, r.log), q.id, q.generation))
  }

  lemma TrackLawful(d: Drive, r: Drive, k: nat)
    requires k < |d.peers| && AllTrack(d, r) && SlotInv(r, k)
    ensures Lawful(d, r, k)
  {
    assert TracksAt(d, r, k);
    if r.peers[k].Some? {
      AllRemain(r.peers[k].value);
    }
  }

  ghost predicate StepLaw(d: Drive, r: Drive) {
    && |d.peers| == |r.peers| && d.log <= r.log && Kept(r)
    && forall k | 0 <= k < |d.peers| :: Lawful(d, r, k)
  }

  lemma TrackStep(d: Drive, r: Drive)
    requires Kept(d) && Inv(r) && AllTrack(d, r)
    ensures StepLaw(d, r)
  {
    TrackKept(d, r);
    forall k | 0 <= k < |d.peers| ensures Lawful(d, r, k) {
      assert SlotInv(r, k);
      TrackLawful(d, r, k);
    }
  }

  lemma DetachLaw(d: Drive, k: nat, device: Device, env: Env)
    requires Inv(d) && Kept(d) && LegalHook(d.cfg, env) && k < |d.peers| && d.peers[k].Some?
    ensures StepLaw(d, Commit(d, k, RemoveVolume(d.peers[k].value, device, env)))
  {
    var p := d.peers[k].value;
    var found := FindDevice(p, device);
    DetachKeeps(d, k, device, env);
    if found.None? {
      assert SoundAt(d, k);
      SameFilesTrack(p, p, State);
      CommitTracks(d, k, Outcome(p, [], State));
      TrackStep(d, Commit(d, k, Outcome(p, [], State)));
    } else {
      DropFoundLaw(d, k, found.value, device, env);
    }
  }

  lemma DropFoundLaw(d: Drive, k: nat, v: nat, device: Device, env: Env)
    requires Inv(d) && Kept(d) && LegalHook(d.cfg, env) && k < |d.peers| && d.peers[k].Some?
    requires FindDevice(d.peers[k].value, device) == Some(v)
    requires Inv(Commit(d, k, RemoveVolume(d.peers[k].value, device, env)))
    ensures StepLaw(d, Commit(d, k, RemoveVolume(d.peers[k].value, device, env)))
  {
    var p := d.peers[k].value;
    var swept := Sweep(p, OnVolume(p.volumes[v].id), Cancelled, env);
    assert SoundAt(d, k) && SlotInv(d, k);
    SweptLaw(d.cfg, d.nextVolumeId, p, v, env);
    CommitTracks(d, k, swept);
    TrackKept(d, Commit(d, k, swept));
    DropLaw(d, Commit(d, k, swept), Commit(d, k, RemoveVolume(p, device, env)), k, DropVolume(swept.peer, v));
  }

  lemma SweptLaw(cfg: Config, next: nat, p: Peer, v: nat, env: Env)
    requires PeerInv(cfg, next, p) && Sound(p) && LegalHook(cfg, env) && ValidConfig(cfg)
    requires v < |p.volumes| && p.volumes[v].Volume?
    ensures var swept := Sweep(p, OnVolume(p.volumes[v].id), Cancelled, env);
      && Tracks(p, swept) && v < |swept.peer.volumes| && swept.peer.volumes[v].Volume?
      && var r := DropVolume(swept.peer, v);
         Sound(r) && Same(swept.peer, r) && Files(r) == Remaining(r, Files(swept.peer))
  {
    var due := OnVolume(p.volumes[v].id);
    SweepTracks(cfg, p, |p.pending|, due, Cancelled, env);
    SweepShape(cfg, p, |p.pending|, due, Cancelled, env);
    SweepKeeps(cfg, next, p, |p.pending|, due, Cancelled, env);
    DropFiles(cfg, next, Sweep(p, due, Cancelled, env).peer, v);
  }

  lemma DropLaw(d: Drive, m: Drive, r: Drive, k: nat, q: Peer)
    requires AllTrack(d, m) && Kept(m) && Inv(r) && k < |d.peers| && m.peers[k].Some?
    requires r.log == m.log && r.peers == m.peers[k := Some(q)] && Sound(q) && Same(m.peers[k].value, q)
    requires Files(q) == Remaining(q, Files(m.peers[k].value))
    ensures StepLaw(d, r)
  {
    forall j | 0 <= j < |r.peers| ensures SoundAt(r, j) {
      assert SoundAt(m, j);
    }
    forall j | 0 <= j < |d.peers| ensures Lawful(d, r, j) {
      assert TracksAt(d, m, j) && SlotInv(r, j);
      if r.peers[j].Some? && j != k {
        AllRemain(r.peers[j].value);
      }
    }
  }

  lemma {:induction false} StripFromLog(d: Drive, k: nat, env: Env)
    ensures |StripFrom(d, k, env).peers| == |d.peers| && d.log <= StripFrom(d, k, env).log
    ensures forall j | 0 <= j < |d.peers| && StripFrom(d, k, env).peers[j].Some? ::
      d.peers[j].Some? && (LegalHook(d.cfg, env) ==> Same(d.peers[j].value, StripFrom(d, k, env).peers[j].value))
    decreases |d.peers| - k
  {
    if k < |d.peers| {
      if d.peers[k].None? {
        StripFromLog(d, k + 1, env);
      } else {
        var p := d.peers[k].value;
        if LegalHook(d.cfg, env) {
          SweepShape(d.cfg, p, |p.pending|, Always(), State, env);
        }
        StripFromLog(Commit(d, k, Strip(p, State, env)), k + 1, env);
      }
    }
  }

  lemma RevokeLaw(d: Drive, env: Env)
    requires Inv(d) && Kept(d) && LegalHook(d.cfg, env)
    ensures StepLaw(d, Revoke(d, env))
  {
    var r := Revoke(d, env);
    RevokeKeeps(d, env);
    if !d.enabled {
      SameTrack(d);
      TrackStep(d, r);
    } else {
      StripFromLog(d.(enabled := false), 0, env);
      forall k | 0 <= k < |r.peers| ensures SoundAt(r, k) && Lawful(d, r, k) {
        assert SlotInv(r, k);
      }
    }
  }

  lemma RemoveLaw(d: Drive, id: nat, generation: nat, env: Env)
    requires Inv(d) && Kept(d) && LegalHook(d.cfg, env)
    ensures StepLaw(d, RemovePeer(d, id, generation, env))
  {
    var r := RemovePeer(d, id, generation, env);
    var found := FindPeer(d.peers, id, generation);
    if found.None? {
      SameTrack(d);
      TrackStep(d, r);
    } else {
      var k, p := found.value, d.peers[found.value].value;
      var o := Strip(p, Cancelled, env);
      var swept := Sweep(p, Always(), Cancelled, env);
      assert SoundAt(d, k);
      SweepTracks(d.cfg, p, |p.pending|, Always(), Cancelled, env);
      CommitTracks(d, k, swept);
      RemovePeerKeeps(d, id, generation, env);
      GoneLaw(d, Commit(d, k, swept), r, k);
    }
  }

  lemma GoneLaw(d: Drive, m: Drive, r: Drive, k: nat)
    requires Kept(d) && AllTrack(d, m) && Inv(r) && k < |d.peers|
    requires r.log == m.log && r.peers == m.peers[k := None]
    ensures StepLaw(d, r)
  {
    TrackKept(d, m);
    forall j | 0 <= j < |d.peers| ensures SoundAt(r, j) && Lawful(d, r, j) {
      assert TracksAt(d, m, j) && SlotInv(r, j) && SoundAt(m, j);
      if r.peers[j].Some? {
        AllRemain(r.peers[j].value);
      }
    }
  }

  lemma AddLaw(d: Drive, id: nat, generation: nat)
    requires Inv(d) && Kept(d)
    ensures StepLaw(d, AddPeer(d, id, generation).1)
  {
    var r := AddPeer(d, id, generation).1;
    AddPeerKeeps(d, id, generation);
    SameTrack(d);
    if r == d {
      TrackStep(d, r);
    } else {
      var k := First(d.peers, (slot: Option<Peer>) => slot.None?).value;
      FirstLaw(d.peers, (slot: Option<Peer>) => PeerIs(slot, id, generation));
      forall j | 0 <= j < |d.peers| ensures SoundAt(r, j) && Lawful(d, r, j) {
        assert SoundAt(d, j) && SlotInv(r, j);
        if r.peers[j].Some? {
          AllRemain(r.peers[j].value);
        }
      }
      forall i, j | 0 <= i < j < |r.peers| && r.peers[i].Some? && r.peers[j].Some?
        ensures !Same(r.peers[i].value, r.peers[j].value)
      {
        assert !PeerIs(d.peers[i], id, generation) && !PeerIs(d.peers[j], id, generation);
      }
    }
  }

  lemma ProtocolLaw(d: Drive, id: nat, generation: nat, input: ProtocolInput, env: Env)
    requires Inv(d) && Kept(d) && LegalHook(d.cfg, env)
    ensures StepLaw(d, ProtocolEvent(d, id, generation, input, env).1)
  {
    var r := ProtocolEvent(d, id, generation, input, env).1;
    var found := FindPeer(d.peers, id, generation);
    ProtocolKeeps(d, id, generation, input, env);
    SameTrack(d);
    if found.None? || input.UnknownEvent? {
      TrackStep(d, r);
    } else {
      var k := found.value;
      assert SoundAt(d, k);
      match input {
        case DeviceAdded(device, name) =>
          AnnounceTracks(d, k, device, name, env);
          TrackStep(d, r);
        case DeviceRemoved(device) => DetachLaw(d, k, device, env);
        case RequestEnded(event) =>
          TerminalTracks(d.cfg, d.peers[k].value, event, env);
          CommitTracks(d, k, Terminal(d.cfg, d.peers[k].value, event, env));
          TrackStep(d, r);
        case UnknownEvent =>
      }
    }
  }

  lemma EnabledLaw(d: Drive, enabled: bool, env: Env)
    requires Inv(d) && Kept(d) && LegalHook(d.cfg, env)
    ensures StepLaw(d, SetEnabled(d, enabled, env))
  {
    EnableKeeps(d, enabled, env);
    if !enabled && d.enabled {
      RevokeLaw(d, env);
    } else {
      forall k | 0 <= k < |d.peers| ensures TracksAt(d, SetEnabled(d, enabled, env), k) {
        assert SoundAt(d, k);
      }
      TrackStep(d, SetEnabled(d, enabled, env));
    }
  }

  lemma StepFiles(d: Drive, step: Step)
    requires Inv(d) && Kept(d) && LegalStep(d.cfg, step)
    ensures StepLaw(d, After(d, step))
  {
    match step
    case PeerAdded(id, generation) => AddLaw(d, id, generation);
    case PeerRemoved(id, generation, env) => RemoveLaw(d, id, generation, env);
    case Protocol(id, generation, input, env) => ProtocolLaw(d, id, generation, input, env);
    case Revoked(env) => RevokeLaw(d, env);
    case Enabled(enabled, env) => EnabledLaw(d, enabled, env);
    case _ => TrackedStep(d, step);
  }

  lemma TrackedStep(d: Drive, step: Step)
    requires Inv(d) && Kept(d) && LegalStep(d.cfg, step)
    requires step.Requested? || step.CancelRequested? || step.Ticked?
    ensures StepLaw(d, After(d, step))
  {
    StepKeepsInv(d, step);
    match step {
      case Requested(request, now, env) => RequestTracks(d, request, now, env);
      case CancelRequested(id, generation, requestId, env) => CancelRequestTracks(d, id, generation, requestId, env);
      case Ticked(now, env) => TimeoutsTrack(d, 0, now, env);
    }
    TrackStep(d, After(d, step));
  }

  // --- Whole runs ---

  /**
    The files a run has open at slot `k`, by its completions alone: created by the peer's
    successful CREATE completions, taken away by its successful CLOSE completions, and gone with
    their volume or with the peer.
   */
  function OpenAfter(d: Drive, steps: seq<Step>, k: nat): set<(Tag, nat)> {
    if steps == [] then {}
    else
      var before, after := Run(d, steps[..|steps| - 1]), Run(d, steps);
      if k >= |after.peers| || after.peers[k].None? then {}
      else
        var p := after.peers[k].value;
        Remaining(p, Fold(OpenAfter(d, steps[..|steps| - 1], k), Since(before.log, after.log), p.id, p.generation))
  }

  lemma {:induction false} RunFiles(cfg: Config, enabled: bool, steps: seq<Step>, k: nat)
    requires ValidConfig(cfg) && LegalRun(cfg, steps)
    ensures var d := Run(NewDrive(cfg, enabled), steps);
      && |d.peers| == cfg.maxPeers && Kept(d)
      && FilesAt(d, k) == OpenAfter(NewDrive(cfg, enabled), steps, k)
  {
    if steps != [] {
      var before, last := steps[..|steps| - 1], steps[|steps| - 1];
      var d := Run(NewDrive(cfg, enabled), before);
      assert LegalStep(cfg, last);
      RunFiles(cfg, enabled, before, k);
      RunKeepsInv(cfg, enabled, before);
      StepFiles(d, last);
      if k < |d.peers| {
        assert Lawful(d, After(d, last), k);
      }
    }
  }

  lemma {:induction false} OneSlotEach(files: seq<File>)
    requires forall i, j | 0 <= i < j < |files| && files[i].File? && files[j].File? ::
      TagOf(files[i].handle) != TagOf(files[j].handle)
    ensures |set k: nat | k < |files| && files[k].File? :: (TagOf(files[k].handle), files[k].volumeId)| ==
      Sum(files, FileOne)
  {
    var all := set k: nat | k < |files| && files[k].File? :: (TagOf(files[k].handle), files[k].volumeId);
    if files != [] {
      var tail := files[1..];
      var rest := set k: nat | k < |tail| && tail[k].File? :: (TagOf(tail[k].handle), tail[k].volumeId);
      OneSlotEach(tail);
      forall x | x in rest ensures x in all {
        var k: nat :| k < |tail| && tail[k].File? && (TagOf(tail[k].handle), tail[k].volumeId) == x;
        assert files[k + 1] == tail[k];
      }
      forall x | x in all ensures x in rest || (files[0].File? && x == (TagOf(files[0].handle), files[0].volumeId)) {
        var k: nat :| k < |files| && files[k].File? && (TagOf(files[k].handle), files[k].volumeId) == x;
        assert k > 0 ==> tail[k - 1] == files[k];
      }
      if files[0].File? {
        var first := (TagOf(files[0].handle), files[0].volumeId);
        forall k: nat | k < |tail| && tail[k].File? ensures TagOf(tail[k].handle) != first.0 {
          assert tail[k] == files[k + 1];
        }
        assert all == rest + {first};
      } else {
        assert all == rest;
      }
    }
  }

  /**
    In every run a handle is found at a peer if and only if the run has it open there, on the
    volume it was created on, and the peer's count of open files is the number of these.
   */
  lemma FoundAreOpen(cfg: Config, enabled: bool, steps: seq<Step>, k: nat, h: Handle)
    requires ValidConfig(cfg) && LegalRun(cfg, steps) && Usable(h)
    requires var d := Run(NewDrive(cfg, enabled), steps); k < |d.peers| && d.peers[k].Some?
    ensures var d, open := Run(NewDrive(cfg, enabled), steps), OpenAfter(NewDrive(cfg, enabled), steps, k);
      var p := d.peers[k].value;
      && (FindFile(p, h).Some? <==> exists v :: (TagOf(h), v) in open)
      && (FindFile(p, h).Some? ==> (TagOf(h), p.files[FindFile(p, h).value].volumeId) in open)
      && p.openFiles == |open|
  {
    var d := Run(NewDrive(cfg, enabled), steps);
    RunFiles(cfg, enabled, steps, k);
    RunKeepsInv(cfg, enabled, steps);
    assert SlotInv(d, k) && SoundAt(d, k);
    FoundIff(d.peers[k].value, h);
    OneSlotEach(d.peers[k].value.files);
  }

  // --- One completed CREATE or CLOSE ---

  /** The event is completed for its request: the runtime took it and logged one completion. */
  ghost predicate Logs(d: Drive, r: Drive, c: Completion) { r.log == d.log + [c] }

  /** Every other handle is found in the same slot as before. */
  ghost predicate OthersFound(p: Peer, r: Peer, except: Handle) {
    forall h: Handle | TagOf(h) != TagOf(except) ::
      && FindFile(r, h) == FindFile(p, h)
      && (FindFile(p, h).Some? ==> r.files[FindFile(p, h).value] == p.files[FindFile(p, h).value])
  }

  lemma OthersStay(p: Peer, r: Peer, k: nat, except: Handle)
    requires k < |p.files| == |r.files| && forall i | 0 <= i < |p.files| && i != k :: r.files[i] == p.files[i]
    requires p.files[k].File? ==> TagOf(p.files[k].handle) == TagOf(except)
    requires r.files[k].File? ==> TagOf(r.files[k].handle) == TagOf(except)
    ensures OthersFound(p, r, except)
  {
    forall h: Handle | TagOf(h) != TagOf(except)
      ensures FindFile(r, h) == FindFile(p, h)
      ensures FindFile(p, h).Some? ==> r.files[FindFile(p, h).value] == p.files[FindFile(p, h).value]
    {
      FirstSame(p.files, r.files, (f: File) => HandleIs(f, h));
    }
  }

  /** What one completed event did, in terms of the peer before and after it. */
  lemma EventAt(d: Drive, k: nat, id: nat, generation: nat, e: Event, env: Env, c: Completion)
    requires FindPeer(d.peers, id, generation) == Some(k)
    requires Logs(d, ProtocolEvent(d, id, generation, RequestEnded(e), env).1, c)
    ensures var p, r := d.peers[k].value, ProtocolEvent(d, id, generation, RequestEnded(e), env).1;
      && MatchEvent(p, e).Hit? && k < |r.peers| && r.peers[k] == Some(Terminal(d.cfg, p, e, env).peer)
      && Terminal(d.cfg, p, e, env).log == [c]
  {
    var o := Terminal(d.cfg, d.peers[k].value, e, env);
    assert (d.log + o.log)[|d.log|..] == o.log && (d.log + [c])[|d.log|..] == [c];
  }

  /**
    After a CLOSE has completed with success its handle is found no more, one file less is open,
    and every other handle is found as before.
   */
  lemma CloseForgets(cfg: Config, enabled: bool, steps: seq<Step>, k: nat, id: nat, generation: nat,
                     e: Event, env: Env, c: Completion)
    requires ValidConfig(cfg) && LegalRun(cfg, steps)
    requires var d := Run(NewDrive(cfg, enabled), steps);
      && FindPeer(d.peers, id, generation) == Some(k)
      && Logs(d, ProtocolEvent(d, id, generation, RequestEnded(e), env).1, c) && Succeeded(c, CLOSE)
    ensures var d := Run(NewDrive(cfg, enabled), steps);
      var p, r := d.peers[k].value, ProtocolEvent(d, id, generation, RequestEnded(e), env).1.peers[k].value;
      && FindFile(p, e.file).Some? && p.files[FindFile(p, e.file).value].volumeId == c.key.volumeId
      && FindFile(r, e.file).None? && r.openFiles + 1 == p.openFiles && OthersFound(p, r, e.file)
  {
    var d := Run(NewDrive(cfg, enabled), steps);
    RunFiles(cfg, enabled, steps, k);
    RunKeepsInv(cfg, enabled, steps);
    EventAt(d, k, id, generation, e, env, c);
    assert SlotInv(d, k) && SoundAt(d, k);
    OneClosed(d.cfg, d.nextVolumeId, d.peers[k].value, e, env, c);
  }

  lemma OneClosed(cfg: Config, next: nat, p: Peer, e: Event, env: Env, c: Completion)
    requires PeerInv(cfg, next, p) && Sound(p) && MatchEvent(p, e).Hit?
    requires Terminal(cfg, p, e, env).log == [c] && Succeeded(c, CLOSE)
    ensures var r := Terminal(cfg, p, e, env).peer;
      && FindFile(p, e.file).Some? && p.files[FindFile(p, e.file).value].volumeId == c.key.volumeId
      && FindFile(r, e.file).None? && r.openFiles + 1 == p.openFiles && OthersFound(p, r, e.file)
  {
    var r, v := Terminal(cfg, p, e, env).peer, MatchEvent(p, e).volume;
    var k := FindFile(p, e.file).value;
    assert r.files == p.files[k := NoFile];
    SumAtLeast(p.files, k, FileOne);
    OthersStay(p, r, k, e.file);
    NotElsewhere(p, r, k);
    FoundIff(r, e.file);
    assert TagOf(p.files[k].handle) == TagOf(e.file);
  }

  /**
    After a CREATE has completed with success its handle, which was not found before, is found on
    the volume of the request, one file more is open, and every other handle is found as before.
   */
  lemma CreateOpens(cfg: Config, enabled: bool, steps: seq<Step>, k: nat, id: nat, generation: nat,
                    e: Event, env: Env, c: Completion)
    requires ValidConfig(cfg) && LegalRun(cfg, steps)
    requires var d := Run(NewDrive(cfg, enabled), steps);
      && FindPeer(d.peers, id, generation) == Some(k)
      && Logs(d, ProtocolEvent(d, id, generation, RequestEnded(e), env).1, c) && Succeeded(c, CREATE)
    ensures var d := Run(NewDrive(cfg, enabled), steps);
      var p, r := d.peers[k].value, ProtocolEvent(d, id, generation, RequestEnded(e), env).1.peers[k].value;
      && FindFile(p, e.file).None? && FindFile(r, e.file).Some?
      && r.files[FindFile(r, e.file).value] == File(c.key.volumeId, e.file)
      && r.openFiles == p.openFiles + 1 && OthersFound(p, r, e.file)
  {
    var d := Run(NewDrive(cfg, enabled), steps);
    RunFiles(cfg, enabled, steps, k);
    EventAt(d, k, id, generation, e, env, c);
    assert SoundAt(d, k);
    OneCreated(d.cfg, d.peers[k].value, e, env, c);
  }

  lemma OneCreated(cfg: Config, p: Peer, e: Event, env: Env, c: Completion)
    requires Sound(p) && MatchEvent(p, e).Hit?
    requires Terminal(cfg, p, e, env).log == [c] && Succeeded(c, CREATE)
    ensures var r := Terminal(cfg, p, e, env).peer;
      && FindFile(p, e.file).None? && FindFile(r, e.file).Some?
      && r.files[FindFile(r, e.file).value] == File(c.key.volumeId, e.file)
      && r.openFiles == p.openFiles + 1 && OthersFound(p, r, e.file)
  {
    var r, v := Terminal(cfg, p, e, env).peer, MatchEvent(p, e).volume;
    var k := First(p.files, (f: File) => f.NoFile?).value;
    assert r.files == p.files[k := File(p.volumes[v].id, e.file)];
    assert Usable(e.file);
    FirstLaw(p.files, (f: File) => HandleIs(f, e.file));
    OthersStay(p, r, k, e.file);
    FirstIs(r.files, (f: File) => HandleIs(f, e.file), k);
  }

  // --- When they succeed ---

  /** The client's success stands: nothing but the file table can refuse it. */
  predicate Stands(cfg: Config, p: Peer, e: Event) {
    && e.completed && e.status == Ok && e.ioStatus == IO_SUCCESS && e.dataLen <= cfg.maxRequest
    && e.transferred <= cfg.maxTransfer - p.transferred
  }

  /** Such a CLOSE succeeds if and only if its file is open on the volume of the request. */
  lemma CloseSucceedsIff(cfg: Config, next: nat, p: Peer, e: Event, env: Env)
    requires PeerInv(cfg, next, p) && AtRest(p) && Sound(p) && MatchEvent(p, e).Hit?
    requires Stands(cfg, p, e) && e.operation == CLOSE && cfg.maxTransfer <= U64_MAX && Usable(e.file)
    ensures var o, v := Terminal(cfg, p, e, env), p.pending[MatchEvent(p, e).slot].volumeId;
      |o.log| == 1 && o.log[0].status == if (TagOf(e.file), v) in Files(p) then Ok else ProtocolError
  {
    Sub64Exact(cfg.maxTransfer, p.transferred);
    FoundOn(p, e.file, p.pending[MatchEvent(p, e).slot].volumeId);
  }

  /** Such a CREATE succeeds if and only if its file is on the device of the request's volume and not open yet. */
  lemma CreateSucceedsIff(cfg: Config, next: nat, p: Peer, e: Event, env: Env)
    requires PeerInv(cfg, next, p) && AtRest(p) && Sound(p) && MatchEvent(p, e).Hit?
    requires Stands(cfg, p, e) && e.operation == CREATE && cfg.maxTransfer <= U64_MAX
    ensures var o, device := Terminal(cfg, p, e, env), p.volumes[MatchEvent(p, e).volume].device;
      && |o.log| == 1
      && o.log[0].status ==
           if e.file.reconnect == device.reconnect && e.file.deviceId == device.id && e.file.fileId != 0
              && e.file.reserved == 0 && (forall v: nat :: (TagOf(e.file), v) !in Files(p))
           then Ok else LimitExceeded
  {
    Sub64Exact(cfg.maxTransfer, p.transferred);
    CreateFindsSlot(cfg, next, p, MatchEvent(p, e).slot);
    if e.file.fileId != 0 && e.file.reserved == 0 && e.file.reconnect != 0 && e.file.deviceId != 0 {
      FoundIff(p, e.file);
    }
  }
}
