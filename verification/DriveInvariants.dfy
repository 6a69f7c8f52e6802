/**
  What every step of the client-drive runtime keeps, and what follows over whole runs:
  exact accounting of slots and reservations, and exactly one completion per request.
 */
module DriveInvariants {
  import opened Status
  import opened Tally
  import opened DriveModel

  // --- What is counted ---

  function PendingOne(q: Pending): nat { if q.Pending? then 1 else 0 }

  function PendingBytes(q: Pending): nat { if q.Pending? then q.bytes else 0 }

  function PendingFile(q: Pending): nat { if q.Pending? && q.reservesFile then 1 else 0 }

  function VolumeOne(v: Volume): nat { if v.Volume? then 1 else 0 }

  function VolumeFiles(v: Volume): nat { if v.Volume? then v.openFiles else 0 }

  function FileOne(f: File): nat { if f.File? then 1 else 0 }

  function FileOn(id: nat): File -> nat { (f: File) => if f.File? && f.volumeId == id then 1 else 0 }

  /** The keys of the requests a peer has pending, with multiplicity. */
  function PendingKey(id: nat, generation: nat): Pending -> multiset<Key> {
    (q: Pending) =>
      if q.Pending? then multiset{Key(q.requestId, q.volumeId, id, generation, q.operation, q.infoClass)}
      else multiset{}
  }

  function Keys(p: Peer): multiset<Key> { Bag(p.pending, PendingKey(p.id, p.generation)) }

  function CompletionKey(c: Completion): multiset<Key> { multiset{c.key} }

  /** The keys of the requests a log completes, with multiplicity. */
  function LogKeys(log: seq<Completion>): multiset<Key> { Bag(log, CompletionKey) }

  // --- The invariant of one peer ---

  predicate HasVolume(p: Peer, id: nat) {
    exists v | 0 <= v < |p.volumes| :: VolumeIs(p.volumes[v], id)
  }

  /** Every counter equals the total over its slot array. */
  ghost predicate Counted(p: Peer) {
    && p.volumeCount == Sum(p.volumes, VolumeOne)
    && p.pendingCount == Sum(p.pending, PendingOne)
    && p.reservedBytes == Sum(p.pending, PendingBytes)
    && p.reservedFiles == Sum(p.pending, PendingFile)
    && p.openFiles == Sum(p.files, FileOne)
  }

  ghost predicate VolumesKept(p: Peer, next: nat) {
    && (forall v | 0 <= v < |p.volumes| && p.volumes[v].Volume? ::
          && 0 < p.volumes[v].id < next
          && p.volumes[v].openFiles == Sum(p.files, FileOn(p.volumes[v].id)))
    && (forall v, w | 0 <= v < w < |p.volumes| && p.volumes[v].Volume? && p.volumes[w].Volume? ::
          p.volumes[v].id != p.volumes[w].id)
  }

  ghost predicate Referenced(p: Peer) {
    && (forall k | 0 <= k < |p.files| && p.files[k].File? :: HasVolume(p, p.files[k].volumeId))
    && (forall i | 0 <= i < |p.pending| && p.pending[i].Pending? ::
          && HasVolume(p, p.pending[i].volumeId)
          && (p.pending[i].reservesFile <==> p.pending[i].operation == CREATE))
  }

  ghost predicate Sized(cfg: Config, p: Peer) {
    |p.volumes| == cfg.maxVolumes && |p.pending| == cfg.maxPending && |p.files| == cfg.maxOpenFiles
  }

  ghost predicate Core(cfg: Config, next: nat, p: Peer) {
    && Sized(cfg, p) && Counted(p) && VolumesKept(p, next) && Referenced(p)
    && p.transferred <= cfg.maxTransfer
  }

  /** Open files and files reserved by pending CREATE requests never exceed the file table. */
  ghost predicate PeerInv(cfg: Config, next: nat, p: Peer) {
    Core(cfg, next, p) && p.openFiles + p.reservedFiles <= cfg.maxOpenFiles
  }

  // --- Elementary steps ---

  lemma SlotChange(p: Peer, i: nat, q: Pending)
    requires i < |p.pending|
    ensures Sum(p.pending[i := q], PendingOne) + PendingOne(p.pending[i]) == Sum(p.pending, PendingOne) + PendingOne(q)
    ensures Sum(p.pending[i := q], PendingBytes) + PendingBytes(p.pending[i]) ==
      Sum(p.pending, PendingBytes) + PendingBytes(q)
    ensures Sum(p.pending[i := q], PendingFile) + PendingFile(p.pending[i]) ==
      Sum(p.pending, PendingFile) + PendingFile(q)
    ensures Keys(p.(pending := p.pending[i := q])) + PendingKey(p.id, p.generation)(p.pending[i])
         == Keys(p) + PendingKey(p.id, p.generation)(q)
  {
    SumUpdate(p.pending, i, q, PendingOne);
    SumUpdate(p.pending, i, q, PendingBytes);
    SumUpdate(p.pending, i, q, PendingFile);
    BagUpdate(p.pending, i, q, PendingKey(p.id, p.generation));
  }

  /** Releasing a slot subtracts exactly its reservation: none of the clamps fires. */
  lemma ClearKeeps(cfg: Config, next: nat, p: Peer, i: nat)
    requires Core(cfg, next, p) && i < |p.pending| && p.pending[i].Pending?
    ensures Core(cfg, next, ClearPending(p, i))
    ensures p.pendingCount >= 1 && p.reservedBytes >= p.pending[i].bytes
    ensures ClearPending(p, i).reservedFiles + PendingFile(p.pending[i]) == p.reservedFiles
    ensures Keys(ClearPending(p, i)) + multiset{KeyOf(p, p.pending[i])} == Keys(p)
  {
    var r := ClearPending(p, i);
    SlotChange(p, i, Idle);
    SumAtLeast(p.pending, i, PendingOne);
    SumAtLeast(p.pending, i, PendingBytes);
    SumAtLeast(p.pending, i, PendingFile);
    SameVolumesReferenced(p, r);
    assert Keys(r) == Keys(p.(pending := p.pending[i := Idle]));
    assert Keys(r) + multiset{KeyOf(p, p.pending[i])} == Keys(p) + multiset{};
  }

  /** References survive when volumes keep their slots and files and requests are only dropped. */
  lemma SameVolumesReferenced(p: Peer, r: Peer)
    requires Referenced(p)
    requires |r.volumes| == |p.volumes| && |r.pending| == |p.pending| && |r.files| == |p.files|
    requires forall v | 0 <= v < |p.volumes| :: SameVolume(p.volumes[v], r.volumes[v])
    requires forall k | 0 <= k < |p.files| && r.files[k].File? ::
      r.files[k] == p.files[k] || HasVolume(p, r.files[k].volumeId)
    requires forall i | 0 <= i < |p.pending| && r.pending[i].Pending? ::
      || r.pending[i] == p.pending[i]
      || (HasVolume(p, r.pending[i].volumeId) && (r.pending[i].reservesFile <==> r.pending[i].operation == CREATE))
    ensures Referenced(r)
  {
    forall id | HasVolume(p, id) ensures HasVolume(r, id) {
      var v :| 0 <= v < |p.volumes| && VolumeIs(p.volumes[v], id);
      assert VolumeIs(r.volumes[v], id);
    }
  }

  lemma OpenKeeps(cfg: Config, next: nat, p: Peer, v: nat, k: nat, handle: Handle)
    requires Core(cfg, next, p)
    requires v < |p.volumes| && p.volumes[v].Volume? && k < |p.files| && p.files[k].NoFile?
    ensures Core(cfg, next, OpenFile(p, v, k, handle))
  {
    var r := OpenFile(p, v, k, handle);
    var file := File(p.volumes[v].id, handle);
    SumUpdate(p.files, k, file, FileOne);
    SumUpdate(p.volumes, v, r.volumes[v], VolumeOne);
    forall w | 0 <= w < |p.volumes| && p.volumes[w].Volume?
      ensures r.volumes[w].openFiles == Sum(r.files, FileOn(r.volumes[w].id))
    {
      SumUpdate(p.files, k, file, FileOn(p.volumes[w].id));
    }
    assert VolumeIs(p.volumes[v], file.volumeId);
    SameVolumesReferenced(p, r);
  }

  lemma CloseKeeps(cfg: Config, next: nat, p: Peer, v: nat, k: nat)
    requires Core(cfg, next, p)
    requires v < |p.volumes| && p.volumes[v].Volume? && k < |p.files| && p.files[k].File?
    requires p.files[k].volumeId == p.volumes[v].id
    ensures Core(cfg, next, CloseFile(p, v, k))
    ensures p.openFiles >= 1 && p.volumes[v].openFiles >= 1
    ensures CloseFile(p, v, k).openFiles == p.openFiles - 1
  {
    var r := CloseFile(p, v, k);
    SumUpdate(p.files, k, NoFile, FileOne);
    SumAtLeast(p.files, k, FileOne);
    SumAtLeast(p.files, k, FileOn(p.volumes[v].id));
    SumUpdate(p.volumes, v, r.volumes[v], VolumeOne);
    forall w | 0 <= w < |p.volumes| && p.volumes[w].Volume?
      ensures r.volumes[w].openFiles == Sum(r.files, FileOn(r.volumes[w].id))
    {
      SumUpdate(p.files, k, NoFile, FileOn(p.volumes[w].id));
    }
    SameVolumesReferenced(p, r);
  }

  lemma SettleCreateKeeps(cfg: Config, next: nat, p: Peer, v: nat, e: Event)
    requires Core(cfg, next, p) && v < |p.volumes| && p.volumes[v].Volume?
    ensures var r := SettleCreate(cfg, p, v, e).0;
      && Core(cfg, next, r) && r.openFiles <= p.openFiles + 1
      && r.reservedFiles == p.reservedFiles && r.transferred == p.transferred
  {
    var free := First(p.files, (f: File) => f.NoFile?);
    if free.Some? {
      OpenKeeps(cfg, next, p, v, free.value, e.file);
    }
  }

  lemma SettleCloseKeeps(cfg: Config, next: nat, p: Peer, v: nat, e: Event)
    requires Core(cfg, next, p) && v < |p.volumes| && p.volumes[v].Volume?
    ensures var r := SettleClose(p, v, e).0;
      && Core(cfg, next, r) && r.openFiles <= p.openFiles
      && r.reservedFiles == p.reservedFiles && r.transferred == p.transferred
  {
    var found := FindFile(p, e.file);
    if found.Some? && p.files[found.value].volumeId == p.volumes[v].id {
      CloseKeeps(cfg, next, p, v, found.value);
    }
  }

  lemma SettleFileKeeps(cfg: Config, next: nat, p: Peer, v: nat, e: Event)
    requires Core(cfg, next, p) && v < |p.volumes| && p.volumes[v].Volume?
    ensures var r := SettleFile(cfg, p, v, e).0;
      && Core(cfg, next, r) && r.openFiles <= p.openFiles + (if e.operation == CREATE then 1 else 0)
      && r.reservedFiles == p.reservedFiles && r.transferred == p.transferred
  {
    if e.operation == CREATE {
      SettleCreateKeeps(cfg, next, p, v, e);
    } else if e.operation == CLOSE {
      SettleCloseKeeps(cfg, next, p, v, e);
    }
  }

  lemma SettleKeeps(cfg: Config, next: nat, p: Peer, v: nat, q: Pending, e: Event)
    requires ValidConfig(cfg) && Core(cfg, next, p)
    requires v < |p.volumes| && p.volumes[v].Volume? && q.Pending?
    ensures var r := Settle(cfg, p, v, q, e).0;
      && Core(cfg, next, r)
      && r.openFiles <= p.openFiles + (if e.operation == CREATE then 1 else 0)
      && r.reservedFiles == p.reservedFiles
  {
    Sub64Exact(cfg.maxTransfer, p.transferred);
    if e.transferred <= cfg.maxTransfer - p.transferred {
      SettleFileKeeps(cfg, next, p, v, e);
      ChargeKeeps(cfg, next, SettleFile(cfg, p, v, e).0, e.transferred);
    }
  }

  /** The quota subtraction does not underflow. */
  lemma Sub64Exact(a: nat, b: nat)
    requires b <= a <= U64_MAX
    ensures Sub64(a, b) == a - b
  {
  }

  lemma ChargeKeeps(cfg: Config, next: nat, p: Peer, bytes: nat)
    requires Core(cfg, next, p) && bytes <= cfg.maxTransfer - p.transferred
    ensures Core(cfg, next, p.(transferred := p.transferred + bytes))
  {
    var r := p.(transferred := p.transferred + bytes);
    assert VolumesKept(r, next) && Counted(r);
    SameVolumesReferenced(p, r);
  }

  // --- Peer operations keep the invariant and account for every request ---

  /** Nothing pending disappears without a completion, and no completion comes from nowhere. */
  ghost predicate Accounts(p: Peer, o: Outcome) {
    Keys(o.peer) + LogKeys(o.log) == Keys(p)
  }

  lemma LogKeysOne(c: Completion)
    ensures LogKeys([c]) == multiset{c.key}
    ensures LogKeys([]) == multiset{}
  {
    assert [c][1..] == [];
    assert Bag([c][1..], CompletionKey) == multiset{};
  }

  /** Two accounted steps in a row are accounted. */
  lemma AccountsThen(p: Peer, first: Outcome, rest: Outcome)
    requires Accounts(p, first) && Accounts(first.peer, rest)
    ensures Keys(rest.peer) + LogKeys(first.log + rest.log) == Keys(p)
  {
    BagAppend(first.log, rest.log, CompletionKey);
    assert Keys(rest.peer) + (LogKeys(first.log) + LogKeys(rest.log))
        == (Keys(rest.peer) + LogKeys(rest.log)) + LogKeys(first.log);
  }

  lemma TerminalKeeps(cfg: Config, next: nat, p: Peer, e: Event, env: Env)
    requires ValidConfig(cfg) && PeerInv(cfg, next, p)
    ensures PeerInv(cfg, next, Terminal(cfg, p, e, env).peer)
    ensures Accounts(p, Terminal(cfg, p, e, env))
  {
    var o := Terminal(cfg, p, e, env);
    if o.log == [] {
      assert o.peer == p;
    } else {
      var Hit(i, v) := MatchEvent(p, e);
      var q := p.pending[i];
      var (settled, status) := Settle(cfg, p, v, q, e);
      SettleKeeps(cfg, next, p, v, q, e);
      ClearKeeps(cfg, next, settled, i);
      LogKeysOne(o.log[0]);
    }
  }

  lemma {:induction false} DeliverKeeps(cfg: Config, next: nat, p: Peer, events: seq<Event>, n: nat, env: Env)
    requires ValidConfig(cfg) && PeerInv(cfg, next, p) && n <= |events|
    ensures PeerInv(cfg, next, Deliver(cfg, p, events, n, env).peer)
    ensures Accounts(p, Deliver(cfg, p, events, n, env))
  {
    if n > 0 {
      var before, e := Deliver(cfg, p, events, n - 1, env), events[n - 1];
      DeliverKeeps(cfg, next, p, events, n - 1, env);
      OneMoreKeeps(cfg, next, p, before, e, env);
      assert Deliver(cfg, p, events, n, env) == Then(before, Terminal(cfg, before.peer, e, env));
    }
  }

  lemma OneMoreKeeps(cfg: Config, next: nat, p: Peer, before: Outcome, e: Event, env: Env)
    requires ValidConfig(cfg) && PeerInv(cfg, next, before.peer) && Accounts(p, before)
    ensures var o := Then(before, Terminal(cfg, before.peer, e, env));
      PeerInv(cfg, next, o.peer) && Accounts(p, o)
  {
    TerminalKeeps(cfg, next, before.peer, e, env);
    AccountsThen(p, before, Terminal(cfg, before.peer, e, env));
  }

  lemma Cancelling(a: multiset<Key>, b: multiset<Key>, c: multiset<Key>)
    requires a + c == b + c
    ensures a == b
  {
    forall k ensures a[k] == b[k] {
      assert (a + c)[k] == (b + c)[k];
    }
  }

  lemma MarkKeeps(cfg: Config, next: nat, p: Peer, i: nat, status: Status)
    requires PeerInv(cfg, next, p) && i < |p.pending| && p.pending[i].Pending?
    ensures PeerInv(cfg, next, MarkTerminal(p, i, status))
    ensures Keys(MarkTerminal(p, i, status)) == Keys(p)
  {
    var r := MarkTerminal(p, i, status);
    SlotChange(p, i, r.pending[i]);
    SameVolumesReferenced(p, r);
    Cancelling(Keys(r), Keys(p), PendingKey(p.id, p.generation)(p.pending[i]));
  }

  lemma HookKeeps(cfg: Config, next: nat, p: Peer, i: nat, env: Env)
    requires ValidConfig(cfg) && PeerInv(cfg, next, p) && LegalHook(cfg, env)
    ensures PeerInv(cfg, next, env.cancel(p, i).peer)
    ensures Accounts(p, Outcome(env.cancel(p, i).peer, env.cancel(p, i).log, Ok))
  {
    assert HookAt(cfg, env, p, i);
    var events := env.cancel(p, i).events;
    DeliverKeeps(cfg, next, p, events, |events|, env);
  }

  lemma CancelKeeps(cfg: Config, next: nat, p: Peer, i: nat, status: Status, env: Env)
    requires ValidConfig(cfg) && PeerInv(cfg, next, p) && LegalHook(cfg, env)
    requires i < |p.pending| && p.pending[i].Pending?
    ensures PeerInv(cfg, next, CancelSlot(p, i, status, env).peer)
    ensures Accounts(p, CancelSlot(p, i, status, env))
  {
    var marked := MarkTerminal(p, i, status);
    var reply := env.cancel(marked, i);
    MarkKeeps(cfg, next, p, i, status);
    HookKeeps(cfg, next, marked, i, env);
    if i < |reply.peer.pending| && reply.peer.pending[i].Pending? {
      var finished := Finish(reply.peer, i, status, env);
      ClearKeeps(cfg, next, reply.peer, i);
      LogKeysOne(finished.log[0]);
      AccountsThen(marked, Outcome(reply.peer, reply.log, Ok), finished);
    }
  }

  lemma CancelIfKeeps(cfg: Config, next: nat, p: Peer, k: nat, due: Pending -> bool, status: Status, env: Env)
    requires ValidConfig(cfg) && PeerInv(cfg, next, p) && LegalHook(cfg, env)
    ensures PeerInv(cfg, next, CancelIf(p, k, due, status, env).peer)
    ensures Accounts(p, CancelIf(p, k, due, status, env))
  {
    if k < |p.pending| && p.pending[k].Pending? && due(p.pending[k]) {
      CancelKeeps(cfg, next, p, k, status, env);
    }
  }

  lemma {:induction false} SweepKeeps(cfg: Config, next: nat, p: Peer, k: nat, due: Pending -> bool,
                                      status: Status, env: Env)
    requires ValidConfig(cfg) && PeerInv(cfg, next, p) && LegalHook(cfg, env)
    ensures PeerInv(cfg, next, SweepTo(p, k, due, status, env).peer)
    ensures Accounts(p, SweepTo(p, k, due, status, env))
  {
    if k > 0 {
      var before := SweepTo(p, k - 1, due, status, env);
      SweepKeeps(cfg, next, p, k - 1, due, status, env);
      CancelIfKeeps(cfg, next, before.peer, k - 1, due, status, env);
      AccountsThen(p, before, CancelIf(before.peer, k - 1, due, status, env));
    }
  }

  // --- Volumes ---

  lemma {:induction false} FilesWithoutCount(files: seq<File>, id: nat, other: nat)
    ensures Sum(FilesWithout(files, id), FileOne) + Sum(files, FileOn(id)) == Sum(files, FileOne)
    ensures other != id ==> Sum(FilesWithout(files, id), FileOn(other)) == Sum(files, FileOn(other))
  {
    if files != [] {
      FilesWithoutCount(files[1..], id, other);
      assert FilesWithout(files, id)[1..] == FilesWithout(files[1..], id);
    }
  }

  /** Dropping a volume nobody waits for keeps everything exact. */
  lemma DropVolumeKeeps(cfg: Config, next: nat, p: Peer, v: nat)
    requires PeerInv(cfg, next, p) && v < |p.volumes| && p.volumes[v].Volume?
    requires forall i | 0 <= i < |p.pending| && p.pending[i].Pending? :: p.pending[i].volumeId != p.volumes[v].id
    ensures PeerInv(cfg, next, DropVolume(p, v))
    ensures p.openFiles >= p.volumes[v].openFiles && p.volumeCount >= 1
    ensures Keys(DropVolume(p, v)) == Keys(p)
  {
    var r, id := DropVolume(p, v), p.volumes[v].id;
    FilesWithoutCount(p.files, id, 0);
    SumUpdate(p.volumes, v, NoVolume, VolumeOne);
    SumAtLeast(p.volumes, v, VolumeOne);
    forall w | 0 <= w < |r.volumes| && r.volumes[w].Volume?
      ensures r.volumes[w].openFiles == Sum(r.files, FileOn(r.volumes[w].id))
    {
      FilesWithoutCount(p.files, id, p.volumes[w].id);
    }
    forall other | other != id && HasVolume(p, other) ensures HasVolume(r, other) {
      var w :| 0 <= w < |p.volumes| && VolumeIs(p.volumes[w], other);
      assert VolumeIs(r.volumes[w], other);
    }
  }

  lemma RemoveVolumeKeeps(cfg: Config, next: nat, p: Peer, device: Device, env: Env)
    requires LegalHook(cfg, env)
    requires ValidConfig(cfg) && PeerInv(cfg, next, p)
    ensures PeerInv(cfg, next, RemoveVolume(p, device, env).peer)
    ensures Accounts(p, RemoveVolume(p, device, env))
  {
    var found := FindDevice(p, device);
    if found.Some? {
      var v := found.value;
      var swept := Sweep(p, OnVolume(p.volumes[v].id), Cancelled, env);
      SweepKeeps(cfg, next, p, |p.pending|, OnVolume(p.volumes[v].id), Cancelled, env);
      SweepShape(cfg, p, |p.pending|, OnVolume(p.volumes[v].id), Cancelled, env);
      SweepClears(cfg, p, |p.pending|, OnVolume(p.volumes[v].id), Cancelled, env);
      assert SameVolume(p.volumes[v], swept.peer.volumes[v]);
      DropVolumeKeeps(cfg, next, swept.peer, v);
    }
  }

  lemma AddVolumeKeeps(cfg: Config, enabled: bool, next: nat, p: Peer, device: Device, name: string, env: Env)
    requires PeerInv(cfg, next, p) && 0 < next
    ensures PeerInv(cfg, next + 1, AddVolume(cfg, enabled, p, device, name, next, env).peer)
    ensures Keys(AddVolume(cfg, enabled, p, device, name, next, env).peer) == Keys(p)
  {
    var r := AddVolume(cfg, enabled, p, device, name, next, env).peer;
    var free := First(p.volumes, (v: Volume) => v.NoVolume?);
    if free.Some? && r != p {
      var i, volume := free.value, Volume(next, device, name, 0);
      SumUpdate(p.volumes, i, volume, VolumeOne);
      NoFilesOnFreshVolume(cfg, next, p);
      forall id | HasVolume(p, id) ensures HasVolume(r, id) {
        var w :| 0 <= w < |p.volumes| && VolumeIs(p.volumes[w], id);
        assert VolumeIs(r.volumes[w], id);
      }
    }
  }

  lemma NoFilesOnFreshVolume(cfg: Config, next: nat, p: Peer)
    requires Core(cfg, next, p)
    ensures Sum(p.files, FileOn(next)) == 0
  {
    forall k | 0 <= k < |p.files| ensures FileOn(next)(p.files[k]) == 0 {
      if p.files[k].File? {
        var v :| 0 <= v < |p.volumes| && VolumeIs(p.volumes[v], p.files[k].volumeId);
      }
    }
    SumZero(p.files, FileOn(next));
  }

  /** No volume, no open file and no pending request. */
  ghost predicate Bare(p: Peer) {
    && (forall v | 0 <= v < |p.volumes| :: p.volumes[v].NoVolume?)
    && (forall k | 0 <= k < |p.files| :: p.files[k].NoFile?)
    && (forall i | 0 <= i < |p.pending| :: p.pending[i].Idle?)
  }

  lemma BareInv(cfg: Config, next: nat, p: Peer)
    requires Bare(p) && Sized(cfg, p) && p.transferred <= cfg.maxTransfer
    requires p.volumeCount == p.pendingCount == p.openFiles == p.reservedFiles == p.reservedBytes == 0
    ensures PeerInv(cfg, next, p) && Keys(p) == multiset{}
  {
    SumZero(p.volumes, VolumeOne);
    SumZero(p.pending, PendingOne);
    SumZero(p.pending, PendingBytes);
    SumZero(p.pending, PendingFile);
    SumZero(p.files, FileOne);
    BagEmpty(p.pending, PendingKey(p.id, p.generation));
  }

  /** Stripping a peer leaves nothing behind and completes everything it had pending. */
  lemma StripKeeps(cfg: Config, next: nat, p: Peer, status: Status, env: Env)
    requires LegalHook(cfg, env)
    requires ValidConfig(cfg) && PeerInv(cfg, next, p)
    ensures PeerInv(cfg, next, Strip(p, status, env).peer)
    ensures Bare(Strip(p, status, env).peer)
    ensures LogKeys(Strip(p, status, env).log) == Keys(p)
    ensures Accounts(p, Strip(p, status, env))
  {
    var swept := Sweep(p, Always(), status, env);
    SweepKeeps(cfg, next, p, |p.pending|, Always(), status, env);
    SweepClears(cfg, p, |p.pending|, Always(), status, env);
    SumZero(swept.peer.pending, PendingOne);
    SumZero(swept.peer.pending, PendingBytes);
    BagEmpty(swept.peer.pending, PendingKey(p.id, p.generation));
    BareInv(cfg, next, RemoveAllVolumes(swept.peer));
  }

  lemma NewPeerInv(cfg: Config, next: nat, id: nat, generation: nat)
    ensures PeerInv(cfg, next, NewPeer(cfg, id, generation))
    ensures Bare(NewPeer(cfg, id, generation)) && Keys(NewPeer(cfg, id, generation)) == multiset{}
  {
    BareInv(cfg, next, NewPeer(cfg, id, generation));
  }

  // --- Admission ---

  /** An accepted request takes an idle slot, reserves what it needs, and stays within every bound. */
  lemma AdmitKeeps(cfg: Config, next: nat, p: Peer, r: Request, protocolId: nat, now: nat)
    requires PeerInv(cfg, next, p) && r.peerId == p.id && r.generation == p.generation
    requires Admissible(cfg, p, r).Accept?
    ensures var q := Admit(cfg, p, Admissible(cfg, p, r).slot, r, protocolId, now);
      && PeerInv(cfg, next, q)
      && Keys(q) == Keys(p) + multiset{KeyOfRequest(r)}
      && q.transferred + q.reservedBytes <= cfg.maxTransfer
  {
    var i := Admissible(cfg, p, r).slot;
    var q := Admit(cfg, p, i, r, protocolId, now);
    SlotChange(p, i, q.pending[i]);
    var v := FindVolume(p, r.volumeId).value;
    assert VolumeIs(p.volumes[v], r.volumeId);
    SameVolumesReferenced(p, q);
    assert Keys(q) == Keys(p.(pending := q.pending));
    assert Keys(q) + multiset{} == Keys(p) + multiset{KeyOfRequest(r)};
  }

  /** With fewer requests than slots there is an idle slot, so the last refusal is never reached. */
  lemma IdleSlotExists(cfg: Config, next: nat, p: Peer)
    requires PeerInv(cfg, next, p) && p.pendingCount < cfg.maxPending
    ensures First(p.pending, (q: Pending) => q.Idle?).Some?
  {
    var i := SumBelow(p.pending, PendingOne);
    FirstLaw(p.pending, (q: Pending) => q.Idle?);
    assert p.pending[i].Idle?;
  }

  /** An admitted CREATE always finds a free entry in the file table when it completes. */
  lemma CreateFindsSlot(cfg: Config, next: nat, p: Peer, i: nat)
    requires PeerInv(cfg, next, p) && i < |p.pending| && p.pending[i].Pending? && p.pending[i].operation == CREATE
    ensures p.openFiles < cfg.maxOpenFiles
    ensures First(p.files, (f: File) => f.NoFile?).Some?
  {
    SumAtLeast(p.pending, i, PendingFile);
    var k := SumBelow(p.files, FileOne);
    FirstLaw(p.files, (f: File) => f.NoFile?);
    assert p.files[k].NoFile?;
  }

  /** A pending request's volume is still there, so its completion is never stranded. */
  lemma PendingVolumeExists(cfg: Config, next: nat, p: Peer, i: nat)
    requires PeerInv(cfg, next, p) && i < |p.pending| && p.pending[i].Pending?
    ensures FindVolume(p, p.pending[i].volumeId).Some?
  {
    var id := p.pending[i].volumeId;
    var v :| 0 <= v < |p.volumes| && VolumeIs(p.volumes[v], id);
    FirstLaw(p.volumes, (v: Volume) => VolumeIs(v, id));
  }

  // --- Open files are also the total over the volumes ---

  function FilesOf(files: seq<File>): Volume -> nat {
    (v: Volume) => if v.Volume? then Sum(files, FileOn(v.id)) else 0
  }

  function Hosts(f: File): Volume -> nat {
    (v: Volume) => if v.Volume? && f.File? && f.volumeId == v.id then 1 else 0
  }

  ghost predicate DistinctIds(volumes: seq<Volume>) {
    forall v, w | 0 <= v < w < |volumes| && volumes[v].Volume? && volumes[w].Volume? :: volumes[v].id != volumes[w].id
  }

  lemma {:induction false} OneHost(volumes: seq<Volume>, f: File)
    requires DistinctIds(volumes)
    ensures Sum(volumes, Hosts(f)) ==
      if f.File? && exists v | 0 <= v < |volumes| :: VolumeIs(volumes[v], f.volumeId) then 1 else 0
  {
    if volumes != [] {
      OneHost(volumes[1..], f);
      if f.File? {
        if VolumeIs(volumes[0], f.volumeId) {
          assert forall v | 0 <= v < |volumes[1..]| :: !VolumeIs(volumes[1..][v], f.volumeId);
        } else if exists v | 0 <= v < |volumes| :: VolumeIs(volumes[v], f.volumeId) {
          var v :| 0 <= v < |volumes| && VolumeIs(volumes[v], f.volumeId);
          assert VolumeIs(volumes[1..][v - 1], f.volumeId);
        }
      }
    }
  }

  lemma {:induction false} SplitFirstFile(volumes: seq<Volume>, files: seq<File>)
    requires files != []
    ensures Sum(volumes, FilesOf(files)) == Sum(volumes, Hosts(files[0])) + Sum(volumes, FilesOf(files[1..]))
  {
    if volumes != [] {
      SplitFirstFile(volumes[1..], files);
    }
  }

  lemma {:induction false} FilesCountedTwice(volumes: seq<Volume>, files: seq<File>)
    requires DistinctIds(volumes)
    requires forall k | 0 <= k < |files| && files[k].File? ::
      exists v | 0 <= v < |volumes| :: VolumeIs(volumes[v], files[k].volumeId)
    ensures Sum(volumes, FilesOf(files)) == Sum(files, FileOne)
  {
    if files == [] {
      SumZero(volumes, FilesOf(files));
    } else {
      SplitFirstFile(volumes, files);
      OneHost(volumes, files[0]);
      FilesCountedTwice(volumes, files[1..]);
    }
  }

  lemma OpenFilesTotal(cfg: Config, next: nat, p: Peer)
    requires Core(cfg, next, p)
    ensures p.openFiles == Sum(p.volumes, VolumeFiles)
  {
    forall k | 0 <= k < |p.files| && p.files[k].File?
      ensures exists v | 0 <= v < |p.volumes| :: VolumeIs(p.volumes[v], p.files[k].volumeId)
    {
      assert HasVolume(p, p.files[k].volumeId);
    }
    FilesCountedTwice(p.volumes, p.files);
    SumAgree(p.volumes, FilesOf(p.files), VolumeFiles);
  }
}
