/** Short runs of the clipboard runtime that reach what its theorems describe. */
module ClipboardExamples {
  import opened Status
  import opened Tally
  import opened ClipboardModel
  import opened ClipboardInvariants
  import opened ClipboardRuns
  import opened ClipboardLosses
  import opened ClipboardTheorems
  import opened ClipboardAnswers

  const FILES: nat := 0xc001

  function Data(requestId: nat): Request { Request(requestId, 1, 1, 2, FILES, 0, 0, 0) }

  function File(requestId: nat): Request { Request(requestId, 1, 1, 2, 0, 9, FILE_SIZE, 8) }

  /** The protocol reports both kinds of work as cancelled. */
  function ReportBoth(): Hook { peerId => [Some(REMOTE_DATA), Some(REMOTE_FILE)] }

  function ReportNone(): Hook { peerId => [] }

  /** The only peer offers a list of files. */
  function Offering(env: Env): seq<Step> { ShareThenCopy(FILES, UriList, env)[..3] }

  /** Remote work of the one peer. */
  function Working(data: Slot, file: Slot): Peer {
    Sharer(FILES, UriList, 2).(slots := [Empty, Empty, data, file])
  }

  function DataSlot(requestId: nat): Slot { Slot(REMOTE_DATA, requestId, FILES, 0, 100, []) }

  function FileSlot(requestId: nat): Slot { Slot(REMOTE_FILE, requestId, 0, 9, 8, []) }

  /** The state of these runs, but for its history. */
  predicate At(c: Clip, p: Peer, pending: nat) {
    c.peers == [Some(p)] && c.pendingCount == pending && c.published == 2 && c.cfg == OneFormat(UriList)
  }

  lemma OfferedIs(env: Env)
    requires forall call :: env(call) == Ok
    ensures At(Run(NewClip(OneFormat(UriList)), Offering(env)), Working(Empty, Empty), 0)
  {
    SharedIs(FILES, UriList, env);
  }

  lemma OnlyPeer(c: Clip, p: Peer)
    requires c.peers == [Some(p)] && p.id == 1 && p.generation == 1
    ensures FindPeer(c.peers, 1, 1) == Some(0)
  {
  }

  lemma AsksData(c: Clip, file: Slot, requestId: nat, pending: nat, env: Env)
    requires At(c, Working(Empty, file), pending) && pending < 4 && requestId != 0 && forall call :: env(call) == Ok
    ensures var r := PlatformRequest(c, Data(requestId), env);
      r.0 == Ok && At(r.1, Working(DataSlot(requestId), file), pending + 1)
  {
    OnlyPeer(c, Working(Empty, file));
    assert c.peers[0].value.formats[0].id == FILES;
    assert Working(Empty, file).slots[REMOTE_DATA := DataSlot(requestId)] == [Empty, Empty, DataSlot(requestId), file];
  }

  lemma AsksFile(c: Clip, data: Slot, requestId: nat, pending: nat, env: Env)
    requires At(c, Working(data, Empty), pending) && pending < 4 && requestId != 0 && forall call :: env(call) == Ok
    ensures var r := PlatformFileRequest(c, File(requestId), env);
      r.0 == Ok && At(r.1, Working(data, FileSlot(requestId)), pending + 1)
  {
    OnlyPeer(c, Working(data, Empty));
    assert c.peers[0].value.formats[0].cls == UriList;
    assert Working(data, Empty).slots[REMOTE_FILE := FileSlot(requestId)] == [Empty, Empty, data, FileSlot(requestId)];
  }

  lemma DataAskedIs(steps: seq<Step>, requestId: nat, env: Env)
    requires At(Run(NewClip(OneFormat(UriList)), steps), Working(Empty, Empty), 0)
    requires requestId != 0 && forall call :: env(call) == Ok
    ensures At(Run(NewClip(OneFormat(UriList)), steps + [Requested(Data(requestId), env)]),
               Working(DataSlot(requestId), Empty), 1)
    ensures Sends(Run(NewClip(OneFormat(UriList)), steps), Requested(Data(requestId), env)) == Some(0)
  {
    var c := Run(NewClip(OneFormat(UriList)), steps);
    RunMore(NewClip(OneFormat(UriList)), steps, Requested(Data(requestId), env));
    AsksData(c, Empty, requestId, 0, env);
    OnlyPeer(c, Working(Empty, Empty));
  }

  lemma FileAskedIs(steps: seq<Step>, data: Slot, requestId: nat, pending: nat, env: Env)
    requires At(Run(NewClip(OneFormat(UriList)), steps), Working(data, Empty), pending)
    requires pending < 4 && requestId != 0 && forall call :: env(call) == Ok
    ensures At(Run(NewClip(OneFormat(UriList)), steps + [FileWanted(File(requestId), env)]),
               Working(data, FileSlot(requestId)), pending + 1)
  {
    RunMore(NewClip(OneFormat(UriList)), steps, FileWanted(File(requestId), env));
    AsksFile(Run(NewClip(OneFormat(UriList)), steps), data, requestId, pending, env);
  }

  // --- A cancellation that takes both ---

  function BothAsked(env: Env): seq<Step> {
    Offering(env) + [Requested(Data(5), env)] + [FileWanted(File(6), env)]
  }

  lemma BothAskedIs(env: Env)
    requires forall call :: env(call) == Ok
    ensures At(Run(NewClip(OneFormat(UriList)), BothAsked(env)), Working(DataSlot(5), FileSlot(6)), 2)
  {
    OfferedIs(env);
    DataAskedIs(Offering(env), 5, env);
    FileAskedIs(Offering(env) + [Requested(Data(5), env)], DataSlot(5), 6, 1, env);
  }

  /**
    With a data and a file request pending, cancelling the data request takes the file request
    with it, unanswered, when the protocol reports all it cancels; otherwise it stays pending.
   */
  lemma CancelTakesBoth(env: Env)
    requires forall call :: env(call) == Ok
    ensures var c := Run(NewClip(OneFormat(UriList)), BothAsked(env));
      var data, file := Key(REMOTE_DATA, 5, 1, 1, 0, 2), Key(REMOTE_FILE, 6, 1, 1, 9, 2);
      var both := Apply(c, CancelWanted(1, 1, 2, 5, env, ReportBoth())).1;
      var one := Apply(c, CancelWanted(1, 1, 2, 5, env, ReportNone())).1;
      && Lost(both)[data] == Lost(c)[data] + 1 && Lost(both)[file] == Lost(c)[file] + 1
      && !Busy(both, 0, REMOTE_FILE) && Busy(one, 0, REMOTE_FILE)
  {
    var c := Run(NewClip(OneFormat(UriList)), BothAsked(env));
    BothAskedIs(env);
    RunKeepsInv(OneFormat(UriList), BothAsked(env));
    BothAskedPend(c);
    CancelWith(c, Key(REMOTE_DATA, 5, 1, 1, 0, 2), Key(REMOTE_FILE, 6, 1, 1, 9, 2), env, ReportBoth());
    CancelWith(c, Key(REMOTE_DATA, 5, 1, 1, 0, 2), Key(REMOTE_FILE, 6, 1, 1, 9, 2), env, ReportNone());
    assert Some(REMOTE_FILE) == ReportBoth()(1)[1];
  }

  /** A data and a file request are pending at the owner. */
  predicate BothPend(c: Clip, data: Key, file: Key) {
    && FindPeer(c.peers, 1, 1) == Some(0) && c.peers[0].value.id == 1 && c.peers[0].value.ready
    && OwnerAt(c, 0) == c.published == 2
    && RemoteKind(c.peers[0].value.slots, 5) == Some(REMOTE_DATA)
    && Busy(c, 0, REMOTE_DATA) && KeyAt(c, 0, REMOTE_DATA) == data
    && Busy(c, 0, REMOTE_FILE) && KeyAt(c, 0, REMOTE_FILE) == file
  }

  lemma CancelWith(c: Clip, data: Key, file: Key, env: Env, hook: Hook)
    requires Inv(c) && BothPend(c, data, file)
    ensures var r := Apply(c, CancelWanted(1, 1, 2, 5, env, hook)).1;
      && Lost(r)[data] == Lost(c)[data] + 1
      && (Some(REMOTE_FILE) in hook(1) <==> Lost(r)[file] == Lost(c)[file] + 1)
      && (Some(REMOTE_FILE) in hook(1) <==> !Busy(r, 0, REMOTE_FILE))
  {
    CancelTakesOtherIff(c, 0, 1, 5, env, hook);
  }

  lemma BothAskedPend(c: Clip)
    requires At(c, Working(DataSlot(5), FileSlot(6)), 2)
    ensures BothPend(c, Key(REMOTE_DATA, 5, 1, 1, 0, 2), Key(REMOTE_FILE, 6, 1, 1, 9, 2))
  {
    OnlyPeer(c, Working(DataSlot(5), FileSlot(6)));
  }

  // --- An answer that comes too late ---

  /** A request, its cancellation, and another one. */
  function AskAgain(env: Env): seq<Step> {
    Offering(env) + [Requested(Data(5), env)] + [CancelWanted(1, 1, 2, 5, env, ReportNone())]
      + [Requested(Data(6), env)]
  }

  lemma Cancels(c: Clip, env: Env)
    requires At(c, Working(DataSlot(5), Empty), 1)
    ensures At(Apply(c, CancelWanted(1, 1, 2, 5, env, ReportNone())).1, Working(Empty, Empty), 0)
  {
    var p := Working(DataSlot(5), Empty);
    OnlyPeer(c, p);
    assert RemoteKind(p.slots, 5) == Some(REMOTE_DATA);
    assert CancelAt(c, 0, ReportNone()) == c;
    assert p.slots[REMOTE_DATA := Empty] == [Empty, Empty, Empty, Empty];
  }

  lemma AskAgainIs(env: Env)
    requires forall call :: env(call) == Ok
    ensures var start := NewClip(OneFormat(UriList));
      && At(Run(start, AskAgain(env)), Working(DataSlot(6), Empty), 1)
      && InFlight(start, AskAgain(env), 0) == [3, 5]
  {
    var start, first, cancel, second := NewClip(OneFormat(UriList)), Requested(Data(5), env),
                                        CancelWanted(1, 1, 2, 5, env, ReportNone()), Requested(Data(6), env);
    var one := Offering(env) + [first];
    OfferedIs(env);
    NoneInFlight(env);
    DataAskedIs(Offering(env), 5, env);
    FlightMore(start, Offering(env), first, 0);
    RunMore(start, one, cancel);
    Cancels(Run(start, one), env);
    FlightMore(start, one, cancel, 0);
    DataAskedIs(one + [cancel], 6, env);
    FlightMore(start, one + [cancel], second, 0);
  }

  lemma FlightMore(c: Clip, steps: seq<Step>, step: Step, k: nat)
    ensures var waiting, before := InFlight(c, steps, k), Run(c, steps);
      InFlight(c, steps + [step], k) ==
        if Sends(before, step) == Some(k) then waiting + [|steps|]
        else if Answers(before, step) == Some(k) then (if waiting == [] then [] else waiting[1..])
        else if Leaves(before, step) == Some(k) then []
        else waiting
  {
    assert (steps + [step])[..|steps|] == steps;
  }

  lemma {:induction false} NothingSent(c: Clip, steps: seq<Step>, k: nat)
    requires forall i | 0 <= i < |steps| :: !steps[i].Requested?
    ensures InFlight(c, steps, k) == []
  {
    if steps != [] {
      NothingSent(c, steps[..|steps| - 1], k);
    }
  }

  lemma NoneInFlight(env: Env)
    ensures InFlight(NewClip(OneFormat(UriList)), Offering(env), 0) == [] && |Offering(env)| == 3
  {
    NothingSent(NewClip(OneFormat(UriList)), Offering(env), 0);
  }

  /** The client's answer to the cancelled request is delivered as the answer to the one made after it. */
  lemma LateAnswerIsMisdelivered(reply: Reply, env: Env)
    requires forall call :: env(call) == Ok
    requires |reply.data| <= 100
    ensures var start, step := NewClip(OneFormat(UriList)), Protocol(1, 1, 7, DataReplied(reply), env);
      var c := Run(start, AskAgain(env));
      && InFlight(start, AskAgain(env), 0) == [3, 5] && Asked(AskAgain(env), 3, RequestKey(Data(5)))
      && Delivers(c, step, 0)
      && Apply(c, step).1.out == c.out + [Wrote(RequestKey(Data(6)), if reply.success then Ok else ProtocolError,
                                               if reply.success then reply.data else [])]
  {
    var start, step := NewClip(OneFormat(UriList)), Protocol(1, 1, 7, DataReplied(reply), env);
    var c := Run(start, AskAgain(env));
    AskAgainIs(env);
    NoneInFlight(env);
    OnlyPeer(c, Working(DataSlot(6), Empty));
    assert AskAgain(env)[3] == Requested(Data(5), env);
    DeliveredIsAskedIff(OneFormat(UriList), AskAgain(env), step, 0);
  }

  // --- A client that asks twice ---

  function AskTwice(env: Env): seq<Step> {
    [PeerAdded(1, 1)] + [Readied(1, 1, 7, env)] + [Copied([Offered(13, Some(Text))], 5, env)]
      + [Protocol(1, 1, 7, DataAsked(13), env)]
  }

  lemma AskTwiceIs(env: Env)
    requires forall call :: env(call) == Ok
    ensures var c := Run(NewClip(OneFormat(Text)), AskTwice(env));
      && FindPeer(c.peers, 1, 1) == Some(0) && c.peers[0].value.ready && c.peers[0].value.channel == 7
      && HasId(c.localFormats, 13) && Busy(c, 0, LOCAL_DATA)
      && KeyAt(c, 0, LOCAL_DATA) == Key(LOCAL_DATA, 1, 1, 1, 0, 0) && c.nextRequestId == 2
  {
    var start, p := NewClip(OneFormat(Text)), NewPeer(1, 1).(channel := 7, ready := true);
    var ready := Run(start, [PeerAdded(1, 1)] + [Readied(1, 1, 7, env)]);
    OneReady(env);
    CopyTaken(ready, p, env);
    RunMore(start, [PeerAdded(1, 1)] + [Readied(1, 1, 7, env)], Copied([Offered(13, Some(Text))], 5, env));
    var copied := PlatformFormats(ready, [Offered(13, Some(Text))], 5, env).1;
    RunMore(start, [PeerAdded(1, 1)] + [Readied(1, 1, 7, env)] + [Copied([Offered(13, Some(Text))], 5, env)],
            Protocol(1, 1, 7, DataAsked(13), env));
    FirstAsk(copied, p, env);
  }

  lemma OneReady(env: Env)
    requires forall call :: env(call) == Ok
    ensures Run(NewClip(OneFormat(Text)), [PeerAdded(1, 1)] + [Readied(1, 1, 7, env)]) ==
      NewClip(OneFormat(Text)).(peers := [Some(NewPeer(1, 1).(channel := 7, ready := true))])
  {
    var start := NewClip(OneFormat(Text));
    assert start.peers == [None];
    RunMore(start, [], PeerAdded(1, 1));
    RunMore(start, [PeerAdded(1, 1)], Readied(1, 1, 7, env));
    assert [] + [PeerAdded(1, 1)] == [PeerAdded(1, 1)];
  }

  lemma CopyTaken(c: Clip, p: Peer, env: Env)
    requires c == NewClip(OneFormat(Text)).(peers := [Some(p)]) && p == NewPeer(1, 1).(channel := 7, ready := true)
    ensures var r := PlatformFormats(c, [Offered(13, Some(Text))], 5, env).1;
      r.peers == [Some(p)] && r.localFormats == [Format(13, Text)] && r.pendingCount == 0
      && r.cfg == c.cfg && r.nextRequestId == 1
  {
    var formats, none: seq<Format> := [Offered(13, Some(Text))], [];
    assert Filtered(c.cfg, formats, 0, true) == Some([]);
    assert !HasId(none, 13) && none + [Format(13, Text)] == [Format(13, Text)];
    assert Filtered(c.cfg, formats, 1, true) == Some([Format(13, Text)]);
    NothingToClose(c, 0, LOCAL_DATA, REMOTE_DATA, Refusal());
    NothingToClose(c, 0, REMOTE_DATA, KINDS, CancelWrite());
    assert SweepTo(c, 0, LocalCopy) == c;
    assert SweepTo(c, 1, LocalCopy) == SweepPeer(c, 0, LocalCopy);
  }

  lemma FirstAsk(c: Clip, p: Peer, env: Env)
    requires c.peers == [Some(p)] && p == NewPeer(1, 1).(channel := 7, ready := true)
    requires c.localFormats == [Format(13, Text)]
    requires c.pendingCount == 0 && c.cfg == OneFormat(Text) && c.nextRequestId == 1 && forall call :: env(call) == Ok
    ensures var r := ProtocolEvent(c, 1, 1, 7, DataAsked(13), env).1;
      && r.peers == [Some(p.(slots := [Slot(LOCAL_DATA, 1, 13, 0, 100, []), Empty, Empty, Empty]))]
      && r.localFormats == c.localFormats && r.nextRequestId == 2
  {
    OnlyPeer(c, p);
    assert c.localFormats[0].id == 13;
    assert p.slots[LOCAL_DATA := Slot(LOCAL_DATA, 1, 13, 0, 100, [])]
        == [Slot(LOCAL_DATA, 1, 13, 0, 100, []), Empty, Empty, Empty];
  }

  /** The second request is refused, and the first one is over without an answer. */
  lemma AskedTwiceAnsweredOnce(env: Env)
    requires forall call :: env(call) == Ok
    ensures var c := Run(NewClip(OneFormat(Text)), AskTwice(env));
      var first, second := Key(LOCAL_DATA, 1, 1, 1, 0, 0), Key(LOCAL_DATA, 2, 1, 1, 0, 0);
      Apply(c, Protocol(1, 1, 7, DataAsked(13), env)).1.out ==
        c.out + [Dropped(first, Overlapped), Opened(second), Answered(second, false, [])]
  {
    var c := Run(NewClip(OneFormat(Text)), AskTwice(env));
    AskTwiceIs(env);
    SecondAskEndsFirst(c, 0, 13, env);
  }
}
