/**
  The poll preparation of the host loop: the descriptor snapshot is a contiguous partition of
  the poll array, and the sleep it allows is the shortest any source asks for.
 */
module HostPoll {
  import opened Status
  import opened DirtyScheduler
  import opened DriveModel
  import DriveRuns
  import opened DriveDeadlines

  const MAX_PEERS: nat := 64
  const POLL_FD_LIMIT: nat := 512
  const PROVIDER_COUNT: nat := 6
  const MAX_GROUPS: nat := MAX_PEERS + PROVIDER_COUNT + 2

  datatype GroupKind = WakeupGroup | ListenerGroup | PeerGroup | ProviderGroup

  datatype Group = Group(kind: GroupKind, offset: nat, count: nat)

  /** A producer's answers: how many descriptors it has, then whether it could list them. */
  datatype Producer = Producer(counted: Status, count: nat, listed: Status)

  /** A peer slot as the snapshot sees it; `open` is false for free, closed and failed slots. */
  datatype PollSlot = PollSlot(open: bool, active: bool, descriptors: Producer, sched: Sched)

  datatype Source = Source(asked: Status, timeout: int, descriptors: Producer)

  datatype Snapshot = Snapshot(groups: seq<Group>, total: nat)

  /** Groups follow one another from offset zero without gap or overlap. */
  ghost predicate Contiguous(s: Snapshot) {
    && (forall i | 0 <= i < |s.groups| ::
          s.groups[i].offset == if i == 0 then 0 else s.groups[i - 1].offset + s.groups[i - 1].count)
    && s.total == (if s.groups == [] then 0 else s.groups[|s.groups| - 1].offset + s.groups[|s.groups| - 1].count)
    && s.total <= POLL_FD_LIMIT && |s.groups| <= MAX_GROUPS
  }

  /** Every descriptor of the snapshot belongs to exactly one group. */
  lemma {:induction false} EachDescriptorOnce(s: Snapshot, fd: nat) returns (g: nat)
    requires Contiguous(s) && fd < s.total
    ensures g < |s.groups| && s.groups[g].offset <= fd < s.groups[g].offset + s.groups[g].count
    ensures forall h | 0 <= h < |s.groups| && s.groups[h].offset <= fd < s.groups[h].offset + s.groups[h].count ::
      h == g
    decreases |s.groups|
  {
    var last := |s.groups| - 1;
    if s.groups[last].offset <= fd {
      g := last;
      forall h | 0 <= h < last ensures s.groups[h].offset + s.groups[h].count <= fd {
        OffsetsGrow(s, h, last);
      }
    } else {
      g := EachDescriptorOnce(Snapshot(s.groups[..last], s.groups[last].offset), fd);
    }
  }

  lemma {:induction false} OffsetsGrow(s: Snapshot, g: nat, h: nat)
    requires Contiguous(s) && g < h < |s.groups|
    ensures s.groups[g].offset + s.groups[g].count <= s.groups[h].offset
  {
    if g + 1 < h {
      OffsetsGrow(s, g, h - 1);
    }
  }

  // --- Timeouts ---

  function MinTimeout(current: int, candidate: int): int {
    if candidate < 0 then current
    else if current < 0 || candidate < current then candidate
    else current
  }

  /** `t` is the shortest of the requested and the offered timeouts, where negative means none. */
  ghost predicate Shortest(t: int, requested: int, offers: seq<int>) {
    && (requested >= 0 ==> 0 <= t <= requested)
    && (forall i | 0 <= i < |offers| && offers[i] >= 0 :: 0 <= t <= offers[i])
    && (t == requested || exists i | 0 <= i < |offers| :: t == offers[i] >= 0)
  }

  lemma ShorterStill(t: int, requested: int, offers: seq<int>, offer: int)
    requires Shortest(t, requested, offers)
    ensures Shortest(MinTimeout(t, offer), requested, offers + [offer])
  {
    var all, m := offers + [offer], MinTimeout(t, offer);
    forall i | 0 <= i < |all| && all[i] >= 0 ensures 0 <= m <= all[i] {
      if i < |offers| {
        assert all[i] == offers[i];
      }
    }
    if m == offer && m != t {
      assert all[|offers|] == offer;
    } else if t != requested {
      var i :| 0 <= i < |offers| && t == offers[i] >= 0;
      assert all[i] == t;
    }
  }

  /** A dirty queue asks to be woken in less than a millisecond past its next frame, and not before it. */
  lemma FrameWakes(s: Sched, now: nat)
    requires s.regions != []
    ensures var t := PeekResult(s, now).2;
      && 0 <= t <= INT_MAX
      && now + t * NS_PER_MS < Late(s.nextFrame, now)
      && (now + t * NS_PER_MS >= s.nextFrame || t == INT_MAX)
  {
    if now < s.nextFrame {
      var gap := s.nextFrame - now;
      assert gap == gap / NS_PER_MS * NS_PER_MS + gap % NS_PER_MS;
    }
  }

  function PeerOffer(p: PollSlot, now: nat): int {
    if p.open && p.active then PeekResult(p.sched, now).2 else -1
  }

  // --- The snapshot ---

  method AppendGroup(s: Snapshot, kind: GroupKind, count: nat) returns (status: Status, r: Snapshot)
    requires Contiguous(s)
    ensures Contiguous(r)
    ensures status == Ok <==> |s.groups| < MAX_GROUPS && s.total + count <= POLL_FD_LIMIT
    ensures status == Ok ==> r == Snapshot(s.groups + [Group(kind, s.total, count)], s.total + count)
    ensures status != Ok ==> status == LimitExceeded && r == s
  {
    if |s.groups| >= MAX_GROUPS || count > POLL_FD_LIMIT - s.total {
      return LimitExceeded, s;
    }
    r := Snapshot(s.groups + [Group(kind, s.total, count)], s.total + count);
    return Ok, r;
  }

  /** The producer can say how many descriptors it has, and list them; a provider without any is not asked to. */
  predicate Answers(p: Producer, kind: GroupKind) {
    p.counted == Ok && (p.listed == Ok || (kind == ProviderGroup && p.count == 0))
  }

  /** Both limits leave room for these groups. */
  predicate Room(s: Snapshot, shapes: seq<(GroupKind, nat)>) {
    |s.groups| + |shapes| <= MAX_GROUPS && s.total + SumOf(shapes) <= POLL_FD_LIMIT
  }

  /** `r` is `s` with these groups behind it. */
  ghost predicate Adds(s: Snapshot, r: Snapshot, shapes: seq<(GroupKind, nat)>) {
    && Shapes(r.groups) == Shapes(s.groups) + shapes
    && |r.groups| == |s.groups| + |shapes| && r.total == s.total + SumOf(shapes)
  }

  /** Descriptors of all groups together. */
  function SumOf(shapes: seq<(GroupKind, nat)>): nat {
    if shapes == [] then 0 else SumOf(shapes[..|shapes| - 1]) + shapes[|shapes| - 1].1
  }

  lemma SumMore(shapes: seq<(GroupKind, nat)>, one: (GroupKind, nat))
    ensures SumOf(shapes + [one]) == SumOf(shapes) + one.1
  {
    assert (shapes + [one])[..|shapes|] == shapes;
  }

  lemma SumSingle(one: (GroupKind, nat))
    ensures SumOf([one]) == one.1
  {
    assert [one][..0] == [];
  }

  lemma {:induction false} SumBoth(a: seq<(GroupKind, nat)>, b: seq<(GroupKind, nat)>)
    ensures SumOf(a + b) == SumOf(a) + SumOf(b)
  {
    if b == [] {
      assert a + b == a;
    } else {
      SumBoth(a, b[..|b| - 1]);
      assert a + b == (a + b[..|b| - 1]) + [b[|b| - 1]];
      SumMore(a + b[..|b| - 1], b[|b| - 1]);
    }
  }

  lemma AddsThen(s: Snapshot, m: Snapshot, r: Snapshot, a: seq<(GroupKind, nat)>, b: seq<(GroupKind, nat)>)
    requires Adds(s, m, a) && Adds(m, r, b)
    ensures Adds(s, r, a + b)
  {
    SumBoth(a, b);
    assert (Shapes(s.groups) + a) + b == Shapes(s.groups) + (a + b);
  }

  lemma AddsNothing(s: Snapshot)
    ensures Adds(s, s, [])
  {
    assert Shapes(s.groups) + [] == Shapes(s.groups);
  }

  /** Count a producer's descriptors, give them a group, and list them into it. */
  method AppendProducer(s: Snapshot, kind: GroupKind, p: Producer) returns (status: Status, r: Snapshot)
    requires Contiguous(s)
    ensures Contiguous(r)
    ensures status == Ok <==> Answers(p, kind) && Room(s, [(kind, p.count)])
    ensures status == Ok ==> Adds(s, r, [(kind, p.count)])
  {
    SumSingle((kind, p.count));
    if p.counted != Ok {
      return p.counted, s;
    }
    status, r := AppendGroup(s, kind, p.count);
    ShapesMore(s.groups, Group(kind, s.total, p.count));
    if status == Ok && (kind != ProviderGroup || p.count > 0) {
      status := p.listed;
    }
  }

  /** What each group is for and how many descriptors it has. */
  function Shapes(groups: seq<Group>): seq<(GroupKind, nat)> {
    if groups == [] then [] else Shapes(groups[..|groups| - 1]) + [ShapeOf(groups[|groups| - 1])]
  }

  function ShapeOf(g: Group): (GroupKind, nat) { (g.kind, g.count) }

  lemma {:induction false} ShapesMore(groups: seq<Group>, g: Group)
    ensures Shapes(groups + [g]) == Shapes(groups) + [ShapeOf(g)]
  {
    assert (groups + [g])[..|groups|] == groups;
  }

  /** One group per open peer. */
  function PeerShapes(peers: seq<PollSlot>, n: nat): (r: seq<(GroupKind, nat)>)
    requires n <= |peers|
    ensures |r| <= n
  {
    if n == 0 then []
    else PeerShapes(peers, n - 1) + PeerShape(peers[n - 1])
  }

  function PeerShape(p: PollSlot): (r: seq<(GroupKind, nat)>)
    ensures |r| <= 1
  {
    if p.open then [(PeerGroup, p.descriptors.count)] else []
  }

  /** One group per provider. */
  function SourceShapes(sources: seq<Source>, n: nat): (r: seq<(GroupKind, nat)>)
    requires n <= |sources|
    ensures |r| == n
  {
    if n == 0 then [] else SourceShapes(sources, n - 1) + [SourceShape(sources[n - 1])]
  }

  function PeerOffers(peers: seq<PollSlot>, now: nat, n: nat): (r: seq<int>)
    requires n <= |peers|
    ensures |r| == n
  {
    if n == 0 then [] else PeerOffers(peers, now, n - 1) + [PeerOffer(peers[n - 1], now)]
  }

  lemma {:induction false} PeerOffersAt(peers: seq<PollSlot>, now: nat, n: nat, i: nat)
    requires i < n <= |peers|
    ensures PeerOffers(peers, now, n)[i] == PeerOffer(peers[i], now)
  {
    if i < n - 1 {
      PeerOffersAt(peers, now, n - 1, i);
    }
  }

  predicate PeerAnswers(p: PollSlot) { p.open ==> Answers(p.descriptors, PeerGroup) }

  predicate PeersAnswer(peers: seq<PollSlot>, n: nat)
    requires n <= |peers|
  {
    forall i | 0 <= i < n :: PeerAnswers(peers[i])
  }

  /** More peers need at least as much room. */
  lemma {:induction false} PeersNeedMore(peers: seq<PollSlot>, n: nat, m: nat)
    requires n <= m <= |peers|
    ensures |PeerShapes(peers, n)| <= |PeerShapes(peers, m)|
    ensures SumOf(PeerShapes(peers, n)) <= SumOf(PeerShapes(peers, m))
  {
    if n < m {
      PeersNeedMore(peers, n, m - 1);
      SumBoth(PeerShapes(peers, m - 1), PeerShape(peers[m - 1]));
    }
  }

  /** One peer: its group if it is open, and what its queue asks for if it is active. */
  method AppendPeer(s: Snapshot, p: PollSlot, now: nat) returns (status: Status, r: Snapshot, offer: int)
    requires Contiguous(s)
    ensures Contiguous(r)
    ensures status == Ok <==> PeerAnswers(p) && Room(s, PeerShape(p))
    ensures status == Ok ==> Adds(s, r, PeerShape(p)) && offer == PeerOffer(p, now)
  {
    status, r, offer := Ok, s, -1;
    if !p.open {
      AddsNothing(s);
      return;
    }
    status, r := AppendProducer(s, PeerGroup, p.descriptors);
    if status == Ok && p.active {
      var (peeked, due, dirty) := PeekResult(p.sched, now);
      offer := if peeked == Ok && due > 0 then 0 else dirty;
    }
  }

  /** One more peer after `n` of them. */
  lemma PeerAdded(s: Snapshot, m: Snapshot, r: Snapshot, peers: seq<PollSlot>, n: nat)
    requires n < |peers| && Adds(s, m, PeerShapes(peers, n)) && Adds(m, r, PeerShape(peers[n]))
    ensures Adds(s, r, PeerShapes(peers, n + 1))
  {
    AddsThen(s, m, r, PeerShapes(peers, n), PeerShape(peers[n]));
  }

  /** What one peer needs is part of what all need. */
  lemma PeerPart(peers: seq<PollSlot>, n: nat)
    requires n < |peers|
    ensures |PeerShapes(peers, n)| + |PeerShape(peers[n])| <= |PeerShapes(peers, |peers|)|
    ensures SumOf(PeerShapes(peers, n)) + SumOf(PeerShape(peers[n])) <= SumOf(PeerShapes(peers, |peers|))
  {
    SumBoth(PeerShapes(peers, n), PeerShape(peers[n]));
    PeersNeedMore(peers, n + 1, |peers|);
  }

  /** `n` peers have their groups behind `s`, and the timeout is the shortest so far. */
  ghost predicate PeersDone(s: Snapshot, r: Snapshot, peers: seq<PollSlot>, n: nat,
                            timeout: int, requested: int, now: nat)
    requires n <= |peers|
  {
    && Contiguous(r) && PeersAnswer(peers, n)
    && Adds(s, r, PeerShapes(peers, n))
    && Shortest(timeout, requested, PeerOffers(peers, now, n))
  }

  lemma PeerDone(s: Snapshot, m: Snapshot, r: Snapshot, peers: seq<PollSlot>, n: nat, t: int, requested: int, now: nat)
    requires n < |peers| && PeersDone(s, m, peers, n, t, requested, now)
    requires Contiguous(r) && PeerAnswers(peers[n]) && Adds(m, r, PeerShape(peers[n]))
    ensures PeersDone(s, r, peers, n + 1, MinTimeout(t, PeerOffer(peers[n], now)), requested, now)
  {
    PeerAdded(s, m, r, peers, n);
    ShorterStill(t, requested, PeerOffers(peers, now, n), PeerOffer(peers[n], now));
  }

  /** If the turn of peer `n` fails, so does the whole. */
  lemma PeerFails(s: Snapshot, m: Snapshot, peers: seq<PollSlot>, n: nat)
    requires n < |peers| && Adds(s, m, PeerShapes(peers, n))
    requires !(PeerAnswers(peers[n]) && Room(m, PeerShape(peers[n])))
    ensures !(PeersAnswer(peers, |peers|) && Room(s, PeerShapes(peers, |peers|)))
  {
    PeerPart(peers, n);
  }

  method AppendPeerAt(ghost s: Snapshot, m: Snapshot, peers: seq<PollSlot>, n: nat,
                      current: int, ghost requested: int, now: nat)
    returns (status: Status, r: Snapshot, timeout: int)
    requires n < |peers| && PeersDone(s, m, peers, n, current, requested, now)
    ensures status == Ok ==> PeersDone(s, r, peers, n + 1, timeout, requested, now)
    ensures status != Ok ==>
      Contiguous(r) && !(PeersAnswer(peers, |peers|) && Room(s, PeerShapes(peers, |peers|)))
  {
    var offer;
    status, r, offer := AppendPeer(m, peers[n], now);
    timeout := MinTimeout(current, offer);
    if status == Ok {
      PeerDone(s, m, r, peers, n, current, requested, now);
    } else {
      PeerFails(s, m, peers, n);
    }
  }

  lemma NoPeerDone(s: Snapshot, peers: seq<PollSlot>, requested: int, now: nat)
    requires Contiguous(s)
    ensures PeersDone(s, s, peers, 0, requested, requested, now)
  {
    AddsNothing(s);
  }

  lemma PeersHaveRoom(s: Snapshot, r: Snapshot, peers: seq<PollSlot>)
    requires Contiguous(r) && Adds(s, r, PeerShapes(peers, |peers|))
    ensures Room(s, PeerShapes(peers, |peers|))
  {
  }

  method AppendPeers(s: Snapshot, peers: seq<PollSlot>, requested: int, now: nat)
    returns (status: Status, r: Snapshot, timeout: int)
    requires Contiguous(s)
    ensures Contiguous(r)
    ensures status == Ok <==> PeersAnswer(peers, |peers|) && Room(s, PeerShapes(peers, |peers|))
    ensures status == Ok ==>
      && Adds(s, r, PeerShapes(peers, |peers|))
      && Shortest(timeout, requested, PeerOffers(peers, now, |peers|))
  {
    status, r, timeout := Ok, s, requested;
    NoPeerDone(s, peers, requested, now);
    var index := 0;
    while index < |peers|
      invariant 0 <= index <= |peers| && status == Ok
      invariant PeersDone(s, r, peers, index, timeout, requested, now)
    {
      status, r, timeout := AppendPeerAt(s, r, peers, index, timeout, requested, now);
      if status != Ok {
        return;
      }
      index := index + 1;
    }
    PeersHaveRoom(s, r, peers);
  }

  function SourceOffers(sources: seq<Source>, n: nat): (r: seq<int>)
    requires n <= |sources|
    ensures |r| == n
  {
    if n == 0 then [] else SourceOffers(sources, n - 1) + [sources[n - 1].timeout]
  }

  predicate SourceAnswers(source: Source) {
    source.asked == Ok && source.timeout >= -1 && Answers(source.descriptors, ProviderGroup)
  }

  predicate SourcesAnswer(sources: seq<Source>, n: nat)
    requires n <= |sources|
  {
    forall i | 0 <= i < n :: SourceAnswers(sources[i])
  }

  lemma {:induction false} SourcesNeedMore(sources: seq<Source>, n: nat, m: nat)
    requires n <= m <= |sources|
    ensures SumOf(SourceShapes(sources, n)) <= SumOf(SourceShapes(sources, m))
  {
    if n < m {
      SourcesNeedMore(sources, n, m - 1);
      SumMore(SourceShapes(sources, m - 1), SourceShape(sources[m - 1]));
    }
  }

  function SourceShape(source: Source): (GroupKind, nat) { (ProviderGroup, source.descriptors.count) }

  lemma SourceAdded(s: Snapshot, m: Snapshot, r: Snapshot, sources: seq<Source>, n: nat)
    requires n < |sources| && Adds(s, m, SourceShapes(sources, n)) && Adds(m, r, [SourceShape(sources[n])])
    ensures Adds(s, r, SourceShapes(sources, n + 1))
  {
    AddsThen(s, m, r, SourceShapes(sources, n), [SourceShape(sources[n])]);
  }

  lemma SourcePart(sources: seq<Source>, n: nat)
    requires n < |sources|
    ensures SumOf(SourceShapes(sources, n)) + SumOf([SourceShape(sources[n])]) <=
      SumOf(SourceShapes(sources, |sources|))
  {
    SumBoth(SourceShapes(sources, n), [SourceShape(sources[n])]);
    SourcesNeedMore(sources, n + 1, |sources|);
  }

  lemma SourceOffered(t: int, requested: int, offers: seq<int>, sources: seq<Source>, n: nat)
    requires n < |sources| && Shortest(t, requested, offers + SourceOffers(sources, n))
    ensures Shortest(MinTimeout(t, sources[n].timeout), requested, offers + SourceOffers(sources, n + 1))
  {
    ShorterStill(t, requested, offers + SourceOffers(sources, n), sources[n].timeout);
    assert offers + SourceOffers(sources, n + 1) == (offers + SourceOffers(sources, n)) + [sources[n].timeout];
  }

  method AppendSources(s: Snapshot, sources: seq<Source>, requested: int, ghost offers: seq<int>, current: int)
    returns (status: Status, r: Snapshot, timeout: int)
    requires Contiguous(s) && Shortest(current, requested, offers)
    ensures Contiguous(r)
    ensures status == Ok <==> SourcesAnswer(sources, |sources|) && Room(s, SourceShapes(sources, |sources|))
    ensures status == Ok ==>
      && Adds(s, r, SourceShapes(sources, |sources|))
      && Shortest(timeout, requested, offers + SourceOffers(sources, |sources|))
  {
    status, r, timeout := Ok, s, current;
    var index := 0;
    AddsNothing(s);
    assert offers + [] == offers;
    while index < |sources|
      invariant 0 <= index <= |sources| && Contiguous(r)
      invariant SourcesAnswer(sources, index) && Adds(s, r, SourceShapes(sources, index))
      invariant Shortest(timeout, requested, offers + SourceOffers(sources, index))
    {
      ghost var before := r;
      SourcePart(sources, index);
      status, r := AppendSource(r, sources[index]);
      if status != Ok {
        return;
      }
      SourceAdded(s, before, r, sources, index);
      SourceOffered(timeout, requested, offers, sources, index);
      timeout := MinTimeout(timeout, sources[index].timeout);
      index := index + 1;
    }
    status := Ok;
  }

  /** One provider: its timeout must be well formed, and its descriptors get a group. */
  method AppendSource(s: Snapshot, source: Source) returns (status: Status, r: Snapshot)
    requires Contiguous(s)
    ensures Contiguous(r)
    ensures status == Ok <==> SourceAnswers(source) && Room(s, [SourceShape(source)])
    ensures status == Ok ==> Adds(s, r, [SourceShape(source)])
  {
    if source.asked != Ok || source.timeout < -1 {
      return if source.asked == Ok then InvalidArgument else source.asked, s;
    }
    status, r := AppendProducer(s, ProviderGroup, source.descriptors);
  }

  /** The groups of a whole snapshot. */
  function AllShapes(listener: Producer, peers: seq<PollSlot>, sources: seq<Source>): seq<(GroupKind, nat)> {
    (StartShapes(listener) + PeerShapes(peers, |peers|)) + SourceShapes(sources, |sources|)
  }

  function Offers(peers: seq<PollSlot>, sources: seq<Source>, drive: Option<seq<Option<Peer>>>, now: nat): seq<int> {
    PeerOffers(peers, now, |peers|) + SourceOffers(sources, |sources|)
      + DriveOffers(drive, now)
  }

  function DriveOffers(drive: Option<seq<Option<Peer>>>, now: nat): seq<int> {
    if drive.Some? then [DriveTimeout(Earliest(drive.value, |drive.value|), now)] else []
  }

  /**
    One snapshot: a wake-up descriptor, the listener, each open peer and each provider, in that
    order and without overlap; the timeout is the shortest one asked for.
   */
  method PreparePoll(requested: int, listener: Producer, peers: seq<PollSlot>, sources: seq<Source>,
                     drive: Option<seq<Option<Peer>>>, now: u64)
    returns (status: Status, snapshot: Snapshot, timeout: int)
    ensures Contiguous(snapshot)
    ensures status == Ok <==>
      AllAnswer(listener, peers, sources) && Room(Snapshot([], 0), AllShapes(listener, peers, sources))
    ensures |peers| <= MAX_PEERS && |sources| <= PROVIDER_COUNT ==>
      (status == Ok <==>
        AllAnswer(listener, peers, sources) && SumOf(AllShapes(listener, peers, sources)) <= POLL_FD_LIMIT)
    ensures status == Ok ==>
      && Shapes(snapshot.groups) == AllShapes(listener, peers, sources)
      && Shortest(timeout, requested, Offers(peers, sources, drive, now))
  {
    timeout := requested;
    RoomInTurn(listener, peers, sources);
    if |peers| <= MAX_PEERS && |sources| <= PROVIDER_COUNT {
      GroupsSuffice(listener, peers, sources);
    }
    status, snapshot := StartSnapshot(listener);
    if status != Ok {
      return;
    }
    status, snapshot, timeout := AppendPeers(snapshot, peers, requested, now);
    if status != Ok {
      return;
    }
    ghost var offers := PeerOffers(peers, now, |peers|);
    status, snapshot, timeout := AppendSources(snapshot, sources, requested, offers, timeout);
    if status == Ok {
      timeout := WithDrive(timeout, requested, offers + SourceOffers(sources, |sources|), drive, now);
    }
  }

  predicate AllAnswer(listener: Producer, peers: seq<PollSlot>, sources: seq<Source>) {
    && Answers(listener, ListenerGroup)
    && PeersAnswer(peers, |peers|) && SourcesAnswer(sources, |sources|)
  }

  function StartShapes(listener: Producer): seq<(GroupKind, nat)> {
    [(WakeupGroup, 1), (ListenerGroup, listener.count)]
  }

  /** There is room for everything exactly when there is for each part in turn. */
  lemma RoomInTurn(listener: Producer, peers: seq<PollSlot>, sources: seq<Source>)
    ensures var a, b, c := StartShapes(listener), PeerShapes(peers, |peers|), SourceShapes(sources, |sources|);
      && SumOf(a) == 1 + listener.count
      && SumOf(AllShapes(listener, peers, sources)) == SumOf(a) + SumOf(b) + SumOf(c)
      && |AllShapes(listener, peers, sources)| == 2 + |b| + |c|
  {
    var a, b, c := StartShapes(listener), PeerShapes(peers, |peers|), SourceShapes(sources, |sources|);
    SumSingle((WakeupGroup, 1));
    assert a == [(WakeupGroup, 1)] + [(ListenerGroup, listener.count)];
    SumMore([(WakeupGroup, 1)], (ListenerGroup, listener.count));
    SumBoth(a, b);
    SumBoth(a + b, c);
  }

  /** The wake-up descriptor and the listener's. */
  method StartSnapshot(listener: Producer) returns (status: Status, snapshot: Snapshot)
    ensures Contiguous(snapshot)
    ensures status == Ok <==> Answers(listener, ListenerGroup) && 1 + listener.count <= POLL_FD_LIMIT
    ensures status == Ok ==>
      && Shapes(snapshot.groups) == StartShapes(listener)
      && |snapshot.groups| == 2 && snapshot.total == 1 + listener.count
  {
    status, snapshot := AppendGroup(Snapshot([], 0), WakeupGroup, 1);
    if status == Ok {
      ShapesMore([], Group(WakeupGroup, 0, 1));
      SumSingle((ListenerGroup, listener.count));
      status, snapshot := AppendProducer(snapshot, ListenerGroup, listener);
    }
  }

  method WithDrive(current: int, requested: int, ghost offers: seq<int>, drive: Option<seq<Option<Peer>>>, now: u64)
    returns (timeout: int)
    requires Shortest(current, requested, offers)
    ensures Shortest(timeout, requested, offers + DriveOffers(drive, now))
  {
    timeout := current;
    if drive.Some? {
      var next := NextTimeout(drive.value, now);
      ShorterStill(timeout, requested, offers, next);
      timeout := MinTimeout(timeout, next);
    } else {
      assert offers + [] == offers;
    }
  }

  /** The host never runs out of groups before it runs out of descriptors. */
  lemma GroupsSuffice(listener: Producer, peers: seq<PollSlot>, sources: seq<Source>)
    requires |peers| <= MAX_PEERS && |sources| <= PROVIDER_COUNT
    ensures |AllShapes(listener, peers, sources)| <= MAX_GROUPS
  {
  }

  /** The sleep ends less than a millisecond past the next frame of every active peer. */
  lemma WakesForFrames(t: int, requested: int, peers: seq<PollSlot>, sources: seq<Source>,
                       drive: Option<seq<Option<Peer>>>, now: nat, i: nat)
    requires Shortest(t, requested, Offers(peers, sources, drive, now))
    requires i < |peers| && peers[i].open && peers[i].active && peers[i].sched.regions != []
    ensures 0 <= t && now + t * NS_PER_MS < Late(peers[i].sched.nextFrame, now)
  {
    PeerOffersAt(peers, now, |peers|, i);
    FrameWakes(peers[i].sched, now);
    assert Offers(peers, sources, drive, now)[i] == PeerOffer(peers[i], now);
  }

  /** ... and less than a millisecond past every finite deadline of the drive runtime. */
  lemma WakesForDrive(t: int, requested: int, peers: seq<PollSlot>, sources: seq<Source>,
                      drive: seq<Option<Peer>>, now: nat, k: nat, i: nat)
    requires Shortest(t, requested, Offers(peers, sources, Some(drive), now))
    requires PendingAt(drive, k, i) && DeadlineAt(drive, k, i) < U64_MAX
    requires !InGap(Earliest(drive, |drive|), now)
    ensures 0 <= t && now + t * NS_PER_MS < Late(DeadlineAt(drive, k, i), now)
  {
    var earliest := Earliest(drive, |drive|);
    EarliestBelow(drive, |drive|, k, i);
    DriveOffer(t, requested, peers, sources, drive, now);
    InTime(t, earliest, DeadlineAt(drive, k, i), now);
  }

  lemma DriveOffer(t: int, requested: int, peers: seq<PollSlot>, sources: seq<Source>,
                   drive: seq<Option<Peer>>, now: nat)
    requires Shortest(t, requested, Offers(peers, sources, Some(drive), now))
    ensures var offer := DriveTimeout(Earliest(drive, |drive|), now); offer >= 0 ==> 0 <= t <= offer
  {
    var offers := Offers(peers, sources, Some(drive), now);
    assert offers[|offers| - 1] == DriveTimeout(Earliest(drive, |drive|), now);
  }

  lemma InTime(t: int, earliest: nat, deadline: nat, now: nat)
    requires DriveTimeout(earliest, now) >= 0 ==> 0 <= t <= DriveTimeout(earliest, now)
    requires earliest < U64_MAX && earliest <= deadline && !InGap(earliest, now)
    ensures 0 <= t && now + t * NS_PER_MS < Late(deadline, now)
  {
    DriveWakesIff(earliest, now);
  }

  /**
    With a request timeout that fits an `int`, the sleep ends in time for every finite deadline
    the drive runtime has in any reachable state.
   */
  lemma WakesForReachableDrive(t: int, requested: int, peers: seq<PollSlot>, sources: seq<Source>,
                               cfg: DriveModel.Config, enabled: bool, steps: seq<DriveRuns.Step>,
                               now: nat, k: nat, i: nat)
    requires DriveModel.ValidConfig(cfg) && cfg.timeoutMs <= INT_MAX
    requires DriveRuns.LegalRun(cfg, steps) && MadeBy(steps, now)
    requires var drive := DriveRuns.Run(NewDrive(cfg, enabled), steps).peers;
      && Shortest(t, requested, Offers(peers, sources, Some(drive), now))
      && PendingAt(drive, k, i) && DeadlineAt(drive, k, i) < U64_MAX
    ensures var drive := DriveRuns.Run(NewDrive(cfg, enabled), steps).peers;
      0 <= t && now + t * NS_PER_MS < Late(DeadlineAt(drive, k, i), now)
  {
    var drive := DriveRuns.Run(NewDrive(cfg, enabled), steps).peers;
    DriveAlwaysWakes(cfg, enabled, steps, now);
    EarliestBelow(drive, |drive|, k, i);
    WakesForDrive(t, requested, peers, sources, drive, now, k, i);
  }

  // --- The poll wakes for a reason ---

  /** A queue due, to the millisecond, when the sleep ends. */
  predicate FrameReason(p: PollSlot, t: int, now: nat) {
    && p.open && p.active && p.sched.regions != []
    && (t == INT_MAX || (0 <= t && now + t * NS_PER_MS >= p.sched.nextFrame))
  }

  /** A pending request due, to the millisecond, when the sleep ends. */
  ghost predicate DriveReason(drive: seq<Option<Peer>>, t: int, now: nat) {
    exists k: nat, i: nat :: PendingAt(drive, k, i) && DeadlineAt(drive, k, i) < U64_MAX
      && (t == INT_MAX || (0 <= t && now + t * NS_PER_MS >= DeadlineAt(drive, k, i)))
  }

  lemma {:induction false} SourceOffersAt(sources: seq<Source>, n: nat, i: nat)
    requires i < n <= |sources|
    ensures SourceOffers(sources, n)[i] == sources[i].timeout
  {
    if i < n - 1 {
      SourceOffersAt(sources, n - 1, i);
    }
  }

  lemma FrameOffered(p: PollSlot, t: int, now: nat)
    requires PeerOffer(p, now) == t >= 0
    ensures FrameReason(p, t, now)
  {
    FrameWakes(p.sched, now);
  }

  lemma DriveOffered(drive: seq<Option<Peer>>, t: int, now: nat)
    requires DriveTimeout(Earliest(drive, |drive|), now) == t >= 0
    ensures DriveReason(drive, t, now)
  {
    var e := Earliest(drive, |drive|);
    EarliestFinite(drive, |drive|);
    var k, i := EarliestAttained(drive, |drive|);
    if e > now {
      RoundedUp(e - now);
    }
    assert PendingAt(drive, k, i) && DeadlineAt(drive, k, i) == e;
  }

  /**
    A sleep other than the requested one ends with a frame due, a request overdue, or as some
    provider asked; an idle drive and an empty queue never shorten it.
   */
  lemma WakesForAReason(t: int, requested: int, peers: seq<PollSlot>, sources: seq<Source>,
                        drive: Option<seq<Option<Peer>>>, now: nat)
    requires Shortest(t, requested, Offers(peers, sources, drive, now)) && t != requested
    ensures || (exists i | 0 <= i < |peers| :: FrameReason(peers[i], t, now))
            || (exists i | 0 <= i < |sources| :: sources[i].timeout == t)
            || (drive.Some? && DriveReason(drive.value, t, now))
  {
    var offers := Offers(peers, sources, drive, now);
    var j :| 0 <= j < |offers| && t == offers[j] >= 0;
    if j < |peers| {
      PeerOffersAt(peers, now, |peers|, j);
      assert offers[j] == PeerOffer(peers[j], now);
      FrameOffered(peers[j], t, now);
    } else if j < |peers| + |sources| {
      SourceOffersAt(sources, |sources|, j - |peers|);
      assert offers[j] == sources[j - |peers|].timeout;
    } else {
      assert offers[j] == DriveTimeout(Earliest(drive.value, |drive.value|), now);
      DriveOffered(drive.value, t, now);
    }
  }
}
