/**
  Whose answer a client's data is. A data answer carries no id: it goes to whatever data request
  is pending at its peer. A client answers in the order it is asked, once for each request.
 */
module ClipboardAnswers {
  import opened Status
  import opened Tally
  import opened ClipboardModel
  import opened ClipboardInvariants
  import opened ClipboardRuns
  import opened ClipboardTheorems

  /** The peer whose client a step sends a data request to. */
  function Sends(c: Clip, step: Step): Option<nat> {
    if step.Requested? && PlatformRequest(c, step.request, step.env).0 == Ok
    then FindPeer(c.peers, step.request.peerId, step.request.generation)
    else None
  }

  /** The peer whose client answers a data request in this step. */
  function Answers(c: Clip, step: Step): Option<nat> {
    if step.Protocol? && step.input.DataReplied? then FindPeer(c.peers, step.id, step.generation) else None
  }

  function Leaves(c: Clip, step: Step): Option<nat> {
    if step.PeerRemoved? then FindPeer(c.peers, step.id, step.generation) else None
  }

  /** The steps whose data requests the client at slot `k` has still to answer, oldest first. */
  function InFlight(c: Clip, steps: seq<Step>, k: nat): seq<nat> {
    if steps == [] then []
    else
      var front, last := steps[..|steps| - 1], steps[|steps| - 1];
      var waiting := InFlight(c, front, k);
      if Sends(Run(c, front), last) == Some(k) then waiting + [|steps| - 1]
      else if Answers(Run(c, front), last) == Some(k) then (if waiting == [] then [] else waiting[1..])
      else if Leaves(Run(c, front), last) == Some(k) then []
      else waiting
  }

  /** The latest step that sent a data request to slot `k`. */
  function LastSent(c: Clip, steps: seq<Step>, k: nat): Option<nat> {
    if steps == [] then None
    else if Sends(Run(c, steps[..|steps| - 1]), steps[|steps| - 1]) == Some(k) then Some(|steps| - 1)
    else LastSent(c, steps[..|steps| - 1], k)
  }

  function RequestKey(r: Request): Key { Key(REMOTE_DATA, r.requestId, r.peerId, r.generation, 0, r.ownership) }

  /** The step sent this request. */
  predicate Asked(steps: seq<Step>, i: nat, key: Key) {
    i < |steps| && steps[i].Requested? && RequestKey(steps[i].request) == key
  }

  // --- The pending request is the latest one sent ---

  /** A request that is sent is pending under its own key. */
  lemma SentIsPending(c: Clip, r: Request, env: Env)
    requires PlatformRequest(c, r, env).0 == Ok
    ensures var found, after := FindPeer(c.peers, r.peerId, r.generation), PlatformRequest(c, r, env).1;
      found.Some? && Busy(after, found.value, REMOTE_DATA) && KeyAt(after, found.value, REMOTE_DATA) == RequestKey(r)
  {
  }

  /** A request that is not sent leaves nothing new pending. */
  lemma UnsentKept(c: Clip, r: Request, env: Env)
    requires PlatformRequest(c, r, env).0 != Ok
    ensures RemoteKept(c, PlatformRequest(c, r, env).1)
  {
    var found := FindPeer(c.peers, r.peerId, r.generation);
    if found.Some? {
      CloseKept(c, found.value, REMOTE_DATA, Drop(Overlapped));
    }
  }

  /** ... and at other peers nothing changes. */
  lemma SentElsewhere(c: Clip, r: Request, env: Env, k: nat)
    requires PlatformRequest(c, r, env).0 == Ok && FindPeer(c.peers, r.peerId, r.generation) != Some(k)
    ensures var after := PlatformRequest(c, r, env).1;
      Busy(after, k, REMOTE_DATA) ==>
        Busy(c, k, REMOTE_DATA) && KeyAt(after, k, REMOTE_DATA) == KeyAt(c, k, REMOTE_DATA)
  {
  }

  lemma FileKept(c: Clip, r: Request, env: Env, k: nat)
    ensures var after := PlatformFileRequest(c, r, env).1;
      Busy(after, k, REMOTE_DATA) ==>
        Busy(c, k, REMOTE_DATA) && KeyAt(after, k, REMOTE_DATA) == KeyAt(c, k, REMOTE_DATA)
  {
  }

  /** Only sending a data request makes one pending. */
  lemma StepData(c: Clip, step: Step, k: nat)
    requires Sends(c, step) != Some(k) && Busy(Apply(c, step).1, k, REMOTE_DATA)
    ensures Busy(c, k, REMOTE_DATA) && KeyAt(Apply(c, step).1, k, REMOTE_DATA) == KeyAt(c, k, REMOTE_DATA)
  {
    if step.Requested? {
      if PlatformRequest(c, step.request, step.env).0 == Ok {
        SentElsewhere(c, step.request, step.env, k);
      } else {
        UnsentKept(c, step.request, step.env);
      }
    } else if step.FileWanted? {
      FileKept(c, step.request, step.env, k);
    } else {
      StepRemote(c, step);
    }
  }

  /** A pending data request is the latest one sent to its peer. */
  lemma {:induction false} PendingIsLatest(c: Clip, steps: seq<Step>, k: nat)
    requires forall i: nat :: !Busy(c, k, i)
    requires Busy(Run(c, steps), k, REMOTE_DATA)
    ensures var latest := LastSent(c, steps, k);
      latest.Some? && Asked(steps, latest.value, KeyAt(Run(c, steps), k, REMOTE_DATA))
  {
    if steps != [] {
      var front, last := steps[..|steps| - 1], steps[|steps| - 1];
      if Sends(Run(c, front), last) == Some(k) {
        SentIsPending(Run(c, front), last.request, last.env);
      } else {
        StepData(Run(c, front), last, k);
        PendingIsLatest(c, front, k);
      }
    }
  }

  /** The queue is in order, and its newest entry is the latest request sent. */
  lemma {:induction false} QueueInOrder(c: Clip, steps: seq<Step>, k: nat)
    ensures var q := InFlight(c, steps, k);
      && (forall i, j | 0 <= i < j < |q| :: q[i] < q[j])
      && (forall i | 0 <= i < |q| :: q[i] < |steps|)
      && (q != [] ==> LastSent(c, steps, k) == Some(q[|q| - 1]))
  {
    if steps != [] {
      QueueInOrder(c, steps[..|steps| - 1], k);
    }
  }

  /** The client at slot `k` answers with data of any size, and the runtime hears it. */
  predicate Delivers(c: Clip, step: Step, k: nat) {
    && Answers(c, step) == Some(k) && Busy(c, k, REMOTE_DATA)
    && c.peers[k].value.ready && step.channel == c.peers[k].value.channel
    && |step.input.reply.data| <= SlotAt(c, k, REMOTE_DATA).max
  }

  /**
    In every run: an answer of the client that is delivered is delivered as the answer to the
    latest request sent, and it is the answer to the oldest one in flight. The two are the same
    request if and only if no other is in flight.
   */
  lemma DeliveredIsAskedIff(cfg: Config, steps: seq<Step>, step: Step, k: nat)
    requires Delivers(Run(NewClip(cfg), steps), step, k) && InFlight(NewClip(cfg), steps, k) != []
    ensures var c, q := Run(NewClip(cfg), steps), InFlight(NewClip(cfg), steps, k);
      var latest, reply := LastSent(NewClip(cfg), steps, k), step.input.reply;
      && latest.Some? && Asked(steps, latest.value, KeyAt(c, k, REMOTE_DATA))
      && Apply(c, step).1.out == c.out + [Wrote(KeyAt(c, k, REMOTE_DATA), if reply.success then Ok else ProtocolError,
                                               if reply.success then reply.data else [])]
      && (latest == Some(q[0]) <==> |q| == 1)
  {
    forall i: nat ensures !Busy(NewClip(cfg), k, i) {}
    PendingIsLatest(NewClip(cfg), steps, k);
    QueueInOrder(NewClip(cfg), steps, k);
  }

  // --- When nothing is given up early ---

  /** A step ends the pending data request of slot `k` other than by the client's answer or leaving. */
  predicate GivesUp(c: Clip, step: Step, k: nat) {
    && Busy(c, k, REMOTE_DATA) && !Busy(Apply(c, step).1, k, REMOTE_DATA)
    && Answers(c, step) != Some(k) && Leaves(c, step) != Some(k)
  }

  predicate NeverGivesUp(c: Clip, steps: seq<Step>, k: nat) {
    steps != [] ==>
      && NeverGivesUp(c, steps[..|steps| - 1], k)
      && !GivesUp(Run(c, steps[..|steps| - 1]), steps[|steps| - 1], k)
  }

  lemma SentFindsNone(c: Clip, step: Step, k: nat)
    requires Sends(c, step) == Some(k)
    ensures !Busy(c, k, REMOTE_DATA)
  {
  }

  /** While no request is given up, at most one is in flight: answers come to the right request. */
  lemma {:induction false} InTurn(c: Clip, steps: seq<Step>, k: nat)
    requires NeverGivesUp(c, steps, k)
    ensures |InFlight(c, steps, k)| <= 1
    ensures InFlight(c, steps, k) != [] ==> Busy(Run(c, steps), k, REMOTE_DATA)
  {
    if steps != [] {
      var front, last := steps[..|steps| - 1], steps[|steps| - 1];
      InTurn(c, front, k);
      if Sends(Run(c, front), last) == Some(k) {
        SentFindsNone(Run(c, front), last, k);
        SentIsPending(Run(c, front), last.request, last.env);
      }
    }
  }
}
