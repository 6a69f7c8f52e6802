/**
  Whose descriptors a poll snapshot holds: which group is whose, when a snapshot succeeds at all,
  and that no provider is kept waiting.
 */
module HostGroups {
  import opened Status
  import opened DirtyScheduler
  import opened DriveModel
  import opened DriveDeadlines
  import opened HostPoll

  /** Open peers before slot `i`. */
  function OpenBefore(peers: seq<PollSlot>, i: nat): (n: nat)
    requires i <= |peers|
    ensures n <= i
  {
    if i == 0 then 0 else OpenBefore(peers, i - 1) + if peers[i - 1].open then 1 else 0
  }

  lemma {:induction false} PeerShapeCount(peers: seq<PollSlot>, n: nat)
    requires n <= |peers|
    ensures |PeerShapes(peers, n)| == OpenBefore(peers, n)
  {
    if n > 0 {
      PeerShapeCount(peers, n - 1);
    }
  }

  lemma {:induction false} PeerShapeAt(peers: seq<PollSlot>, n: nat, i: nat)
    requires i < n <= |peers| && peers[i].open
    ensures OpenBefore(peers, i) < |PeerShapes(peers, n)|
    ensures PeerShapes(peers, n)[OpenBefore(peers, i)] == (PeerGroup, peers[i].descriptors.count)
  {
    if i < n - 1 {
      PeerShapeAt(peers, n - 1, i);
    } else {
      PeerShapeCount(peers, i);
    }
  }

  lemma {:induction false} SourceShapeAt(sources: seq<Source>, n: nat, i: nat)
    requires i < n <= |sources|
    ensures SourceShapes(sources, n)[i] == (ProviderGroup, sources[i].descriptors.count)
  {
    if i < n - 1 {
      SourceShapeAt(sources, n - 1, i);
    }
  }

  lemma {:induction false} ShapeCount(groups: seq<Group>)
    ensures |Shapes(groups)| == |groups|
  {
    if groups != [] {
      ShapeCount(groups[..|groups| - 1]);
    }
  }

  lemma {:induction false} ShapeAt(groups: seq<Group>, i: nat)
    requires i < |groups| == |Shapes(groups)|
    ensures Shapes(groups)[i] == (groups[i].kind, groups[i].count)
  {
    ShapeCount(groups[..|groups| - 1]);
    if i < |groups| - 1 {
      ShapeAt(groups[..|groups| - 1], i);
    }
  }

  /** The group at this place is of this kind and has this many descriptors. */
  predicate GroupIs(groups: seq<Group>, i: nat, kind: GroupKind, count: nat) {
    i < |groups| && groups[i].kind == kind && groups[i].count == count
  }

  /**
    The first group is the wake-up's with one descriptor, the second the listener's; then every
    open peer has one, in slot order, and last every provider.
   */
  lemma {:induction false} GroupsAre(s: Snapshot, listener: Producer, peers: seq<PollSlot>, sources: seq<Source>)
    requires Shapes(s.groups) == AllShapes(listener, peers, sources)
    ensures |s.groups| == 2 + OpenBefore(peers, |peers|) + |sources|
    ensures GroupIs(s.groups, 0, WakeupGroup, 1) && GroupIs(s.groups, 1, ListenerGroup, listener.count)
    ensures forall i | 0 <= i < |peers| && peers[i].open ::
      GroupIs(s.groups, 2 + OpenBefore(peers, i), PeerGroup, peers[i].descriptors.count)
    ensures forall i | 0 <= i < |sources| ::
      GroupIs(s.groups, 2 + OpenBefore(peers, |peers|) + i, ProviderGroup, sources[i].descriptors.count)
  {
    AllCount(listener, peers, sources);
    ShapeCount(s.groups);
    ShapeAt(s.groups, 0);
    ShapeAt(s.groups, 1);
    forall i | 0 <= i < |peers| && peers[i].open
      ensures GroupIs(s.groups, 2 + OpenBefore(peers, i), PeerGroup, peers[i].descriptors.count)
    {
      PeerPlace(listener, peers, sources, i);
      ShapeAt(s.groups, 2 + OpenBefore(peers, i));
    }
    forall i | 0 <= i < |sources|
      ensures GroupIs(s.groups, 2 + OpenBefore(peers, |peers|) + i, ProviderGroup, sources[i].descriptors.count)
    {
      SourcePlace(listener, peers, sources, i);
      ShapeAt(s.groups, 2 + OpenBefore(peers, |peers|) + i);
    }
  }

  lemma AllCount(listener: Producer, peers: seq<PollSlot>, sources: seq<Source>)
    ensures |AllShapes(listener, peers, sources)| == 2 + OpenBefore(peers, |peers|) + |sources|
  {
    PeerShapeCount(peers, |peers|);
  }

  lemma PeerPlace(listener: Producer, peers: seq<PollSlot>, sources: seq<Source>, i: nat)
    requires i < |peers| && peers[i].open
    ensures var at := 2 + OpenBefore(peers, i);
      && at < |AllShapes(listener, peers, sources)|
      && AllShapes(listener, peers, sources)[at] == (PeerGroup, peers[i].descriptors.count)
  {
    PeerShapeAt(peers, |peers|, i);
  }

  lemma SourcePlace(listener: Producer, peers: seq<PollSlot>, sources: seq<Source>, i: nat)
    requires i < |sources|
    ensures var at := 2 + OpenBefore(peers, |peers|) + i;
      && at < |AllShapes(listener, peers, sources)|
      && AllShapes(listener, peers, sources)[at] == (ProviderGroup, sources[i].descriptors.count)
  {
    PeerShapeCount(peers, |peers|);
    SourceShapeAt(sources, |sources|, i);
  }

  /** The producer said how many descriptors it has and listed them. */
  predicate Lists(p: Producer) { p.counted == Ok && p.listed == Ok }

  /** Everybody answers: the listener, every open peer, and every provider, unless it has nothing to list. */
  lemma AnswersIff(listener: Producer, peers: seq<PollSlot>, sources: seq<Source>)
    ensures AllAnswer(listener, peers, sources) <==>
      && Lists(listener)
      && (forall i | 0 <= i < |peers| && peers[i].open :: Lists(peers[i].descriptors))
      && (forall i | 0 <= i < |sources| ::
            && sources[i].asked == Ok && sources[i].timeout >= -1
            && (Lists(sources[i].descriptors)
                || (sources[i].descriptors.counted == Ok && sources[i].descriptors.count == 0)))
  {
    forall i | 0 <= i < |peers|
      ensures PeerAnswers(peers[i]) <==> (peers[i].open ==> Lists(peers[i].descriptors))
    {}
    forall i | 0 <= i < |sources|
      ensures SourceAnswers(sources[i]) <==>
        && sources[i].asked == Ok && sources[i].timeout >= -1
        && (Lists(sources[i].descriptors)
            || (sources[i].descriptors.counted == Ok && sources[i].descriptors.count == 0))
    {}
  }

  /** A snapshot never holds more than 512 descriptors or 72 groups. */
  lemma SnapshotBounds(s: Snapshot)
    requires Contiguous(s)
    ensures s.total <= 512 && |s.groups| <= 72
  {
  }

  /** The sleep is no longer than any provider asks for. */
  lemma WakesForSources(t: int, requested: int, peers: seq<PollSlot>, sources: seq<Source>,
                        drive: Option<seq<Option<Peer>>>, now: nat, i: nat)
    requires Shortest(t, requested, Offers(peers, sources, drive, now))
    requires i < |sources| && sources[i].timeout >= 0
    ensures 0 <= t <= sources[i].timeout
  {
    var offers := Offers(peers, sources, drive, now);
    SourceOffersAt(sources, |sources|, i);
    assert offers[|peers| + i] == sources[i].timeout;
  }
}
