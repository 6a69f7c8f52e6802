/**
  A sweep whose completions make the platform submit new requests, as the next stage of an
  operation does, and what such a sweep leaves behind.
 */
module DriveResubmits {
  import opened Status
  import opened Tally
  import opened DriveModel
  import opened DriveExamples

  /** What the platform submits when it is told that the request in slot `i` has ended. */
  type Callbacks = (Peer, nat) -> seq<Request>

  /** One submission: admitted to the first idle slot, or refused. */
  function Submit(cfg: Config, p: Peer, r: Request, now: nat, env: Env): Peer {
    match Admissible(cfg, p, r)
    case Refuse(_) => p
    case Accept(i) =>
      var reply := env.submit(WithNormalPath(cfg, r));
      if reply.status != Ok then p else Admit(cfg, p, i, r, reply.protocolId, now)
  }

  predicate Takes(cfg: Config, p: Peer, r: Request, env: Env) {
    Admissible(cfg, p, r).Accept? && env.submit(WithNormalPath(cfg, r)).status == Ok
  }

  function SubmitTo(cfg: Config, p: Peer, rs: seq<Request>, n: nat, now: nat, env: Env): Peer
    requires n <= |rs|
  {
    if n == 0 then p else Submit(cfg, SubmitTo(cfg, p, rs, n - 1, now, env), rs[n - 1], now, env)
  }

  /** The request in slot `i` ends: its slot is cleared only after the platform was told. */
  function End(cfg: Config, p: Peer, i: nat, calls: Callbacks, now: nat, env: Env): Peer {
    if i < |p.pending| && p.pending[i].Pending? then
      var told := SubmitTo(cfg, p, calls(p, i), |calls(p, i)|, now, env);
      if i < |told.pending| && told.pending[i].Pending? then ClearPending(told, i) else told
    else p
  }

  /** The state before the turn of slot `k`. */
  function TurnsTo(cfg: Config, p: Peer, k: nat, calls: Callbacks, now: nat, env: Env): Peer {
    if k == 0 then p else End(cfg, TurnsTo(cfg, p, k - 1, calls, now, env), k - 1, calls, now, env)
  }

  /** One of the first `n` submissions is admitted. */
  predicate TakesAny(cfg: Config, p: Peer, rs: seq<Request>, n: nat, now: nat, env: Env)
    requires n <= |rs|
  {
    0 < n && (TakesAny(cfg, p, rs, n - 1, now, env)
              || Takes(cfg, SubmitTo(cfg, p, rs, n - 1, now, env), rs[n - 1], env))
  }

  /** Some submission made in the turn of slot `i` is admitted. */
  predicate Admits(cfg: Config, p: Peer, i: nat, calls: Callbacks, now: nat, env: Env) {
    i < |p.pending| && p.pending[i].Pending? && TakesAny(cfg, p, calls(p, i), |calls(p, i)|, now, env)
  }

  // --- The sweep of the model is the case without submissions ---

  ghost predicate QuietEnv(env: Env) {
    forall p: Peer, i: nat :: env.cancel(p, i) == CancelReply([], p, [], Ok)
  }

  ghost predicate NoCalls(calls: Callbacks) { forall p: Peer, i: nat :: calls(p, i) == [] }

  lemma {:induction false} NoCallsIsSweep(cfg: Config, p: Peer, k: nat, calls: Callbacks, status: Status,
                                          now: nat, env: Env)
    requires QuietEnv(env) && NoCalls(calls)
    ensures TurnsTo(cfg, p, k, calls, now, env) == SweepTo(p, k, Always(), status, env).peer
  {
    if k > 0 {
      NoCallsIsSweep(cfg, p, k - 1, calls, status, now, env);
      var before := SweepTo(p, k - 1, Always(), status, env);
      OneEnds(cfg, before.peer, k - 1, calls, status, now, env);
      assert SweepTo(p, k, Always(), status, env) == Then(before, CancelIf(before.peer, k - 1, Always(), status, env));
    }
  }

  lemma OneEnds(cfg: Config, p: Peer, i: nat, calls: Callbacks, status: Status, now: nat, env: Env)
    requires QuietEnv(env) && NoCalls(calls)
    ensures End(cfg, p, i, calls, now, env) == CancelIf(p, i, Always(), status, env).peer
  {
    if i < |p.pending| && p.pending[i].Pending? {
      assert MarkTerminal(p, i, status).pending[i := Idle] == p.pending[i := Idle];
    }
  }

  // --- What stays behind ---

  /** No slot below `k` is pending. */
  ghost predicate AllIdle(p: Peer, k: nat) { forall j | 0 <= j < k && j < |p.pending| :: p.pending[j].Idle? }

  /** What is pending stays pending as it is. */
  ghost predicate Fills(p: Peer, q: Peer) {
    && |q.pending| == |p.pending|
    && forall j | 0 <= j < |p.pending| && p.pending[j].Pending? :: q.pending[j] == p.pending[j]
  }

  lemma SubmitFills(cfg: Config, p: Peer, r: Request, now: nat, env: Env)
    ensures Fills(p, Submit(cfg, p, r, now, env))
    ensures !Takes(cfg, p, r, env) ==> Submit(cfg, p, r, now, env) == p
  {
  }

  /** An admitted request goes to the first idle slot, so with slot `i > 0` pending some slot below it is, too. */
  lemma TakenBelow(cfg: Config, p: Peer, r: Request, now: nat, env: Env, i: nat)
    requires Takes(cfg, p, r, env) && 0 < i < |p.pending| && p.pending[i].Pending?
    ensures !AllIdle(Submit(cfg, p, r, now, env), i)
  {
    var f, q := Admissible(cfg, p, r).slot, Submit(cfg, p, r, now, env);
    FirstLaw(p.pending, (q: Pending) => q.Idle?);
    assert q.pending[if f < i then f else 0].Pending?;
  }

  lemma {:induction false} SubmitToFills(cfg: Config, p: Peer, rs: seq<Request>, n: nat, now: nat, env: Env)
    requires n <= |rs|
    ensures Fills(p, SubmitTo(cfg, p, rs, n, now, env))
    ensures !TakesAny(cfg, p, rs, n, now, env) ==> SubmitTo(cfg, p, rs, n, now, env) == p
  {
    if n > 0 {
      SubmitToFills(cfg, p, rs, n - 1, now, env);
      FillsMore(cfg, p, SubmitTo(cfg, p, rs, n - 1, now, env), rs[n - 1], now, env);
    }
  }

  lemma FillsMore(cfg: Config, p: Peer, before: Peer, r: Request, now: nat, env: Env)
    requires Fills(p, before)
    ensures Fills(p, Submit(cfg, before, r, now, env))
    ensures !Takes(cfg, before, r, env) ==> Submit(cfg, before, r, now, env) == before
  {
    SubmitFills(cfg, before, r, now, env);
  }

  /** Once a request was admitted while slot `i > 0` is pending, some slot below it stays pending. */
  lemma {:induction false} TakenSome(cfg: Config, p: Peer, rs: seq<Request>, n: nat, now: nat, env: Env, i: nat)
    requires n <= |rs| && TakesAny(cfg, p, rs, n, now, env) && 0 < i < |p.pending| && p.pending[i].Pending?
    ensures !AllIdle(SubmitTo(cfg, p, rs, n, now, env), i)
  {
    var before := SubmitTo(cfg, p, rs, n - 1, now, env);
    SubmitToFills(cfg, p, rs, n - 1, now, env);
    if Takes(cfg, before, rs[n - 1], env) {
      TakenBelow(cfg, before, rs[n - 1], now, env, i);
    } else {
      TakenSome(cfg, p, rs, n - 1, now, env, i);
      SubmitFills(cfg, before, rs[n - 1], now, env);
    }
  }

  lemma FillsBelow(p: Peer, q: Peer, k: nat)
    requires Fills(p, q) && !AllIdle(p, k)
    ensures !AllIdle(q, k)
  {
    var j :| 0 <= j < k && j < |p.pending| && p.pending[j].Pending?;
    assert q.pending[j].Pending?;
  }

  /** The end of slot `i` takes nothing away below it. */
  lemma EndBelow(cfg: Config, p: Peer, i: nat, calls: Callbacks, now: nat, env: Env)
    ensures |End(cfg, p, i, calls, now, env).pending| == |p.pending|
    ensures !AllIdle(p, i) ==> !AllIdle(End(cfg, p, i, calls, now, env), i)
  {
    if i < |p.pending| && p.pending[i].Pending? {
      var told := SubmitTo(cfg, p, calls(p, i), |calls(p, i)|, now, env);
      SubmitToFills(cfg, p, calls(p, i), |calls(p, i)|, now, env);
      if !AllIdle(p, i) {
        FillsBelow(p, told, i);
        ClearedBelow(told, i);
      }
    }
  }

  lemma ClearedBelow(p: Peer, i: nat)
    requires i < |p.pending| && p.pending[i].Pending? && !AllIdle(p, i)
    ensures !AllIdle(ClearPending(p, i), i)
  {
    var j :| 0 <= j < i && j < |p.pending| && p.pending[j].Pending?;
    assert ClearPending(p, i).pending[j].Pending?;
  }

  /** An admission in any turn but the first leaves something below. */
  lemma AdmittedBelow(cfg: Config, p: Peer, i: nat, calls: Callbacks, now: nat, env: Env)
    requires 0 < i && Admits(cfg, p, i, calls, now, env)
    ensures !AllIdle(End(cfg, p, i, calls, now, env), i)
  {
    SubmitToFills(cfg, p, calls(p, i), |calls(p, i)|, now, env);
    TakenSome(cfg, p, calls(p, i), |calls(p, i)|, now, env, i);
    ClearedBelow(SubmitTo(cfg, p, calls(p, i), |calls(p, i)|, now, env), i);
  }

  /** A turn without an admission, or the first one, leaves nothing at or below its slot that was not there. */
  lemma EndClean(cfg: Config, p: Peer, i: nat, calls: Callbacks, now: nat, env: Env)
    requires AllIdle(p, i) && (i == 0 || !Admits(cfg, p, i, calls, now, env))
    ensures AllIdle(End(cfg, p, i, calls, now, env), i + 1)
  {
    if i < |p.pending| && p.pending[i].Pending? {
      SubmitToFills(cfg, p, calls(p, i), |calls(p, i)|, now, env);
    }
  }

  /** Some turn below `k` other than the first one admits a request. */
  predicate AdmitsLate(cfg: Config, p: Peer, k: nat, calls: Callbacks, now: nat, env: Env) {
    1 < k && (AdmitsLate(cfg, p, k - 1, calls, now, env)
              || Admits(cfg, TurnsTo(cfg, p, k - 1, calls, now, env), k - 1, calls, now, env))
  }

  /** Something is pending in the slots visited if and only if some turn but the first one admitted a request. */
  lemma {:induction false} BehindIff(cfg: Config, p: Peer, k: nat, calls: Callbacks, now: nat, env: Env)
    ensures !AllIdle(TurnsTo(cfg, p, k, calls, now, env), k) <==> AdmitsLate(cfg, p, k, calls, now, env)
  {
    if k > 0 {
      var before := TurnsTo(cfg, p, k - 1, calls, now, env);
      BehindIff(cfg, p, k - 1, calls, now, env);
      OneMoreTurn(cfg, before, k - 1, calls, now, env);
    }
  }

  lemma OneMoreTurn(cfg: Config, before: Peer, k: nat, calls: Callbacks, now: nat, env: Env)
    ensures !AllIdle(End(cfg, before, k, calls, now, env), k + 1) <==>
      !AllIdle(before, k) || (0 < k && Admits(cfg, before, k, calls, now, env))
  {
    var after := End(cfg, before, k, calls, now, env);
    EndBelow(cfg, before, k, calls, now, env);
    if 0 < k && Admits(cfg, before, k, calls, now, env) {
      AdmittedBelow(cfg, before, k, calls, now, env);
    } else if AllIdle(before, k) {
      EndClean(cfg, before, k, calls, now, env);
    }
    assert !AllIdle(after, k) ==> !AllIdle(after, k + 1);
  }

  /**
    When the platform submits new requests as it is told of the end of old ones, a sweep over all
    slots, such as the removal of a peer makes before it frees the peer, leaves a request behind
    that is never completed if and only if a request is admitted in some turn but the first one.
   */
  lemma LeftBehindIff(cfg: Config, p: Peer, calls: Callbacks, now: nat, env: Env)
    ensures var r := TurnsTo(cfg, p, |p.pending|, calls, now, env);
      && |r.pending| == |p.pending|
      && ((exists j | 0 <= j < |r.pending| :: r.pending[j].Pending?)
            <==> AdmitsLate(cfg, p, |p.pending|, calls, now, env))
  {
    SameSlotCount(cfg, p, |p.pending|, calls, now, env);
    BehindIff(cfg, p, |p.pending|, calls, now, env);
  }

  lemma {:induction false} SameSlotCount(cfg: Config, p: Peer, k: nat, calls: Callbacks, now: nat, env: Env)
    ensures |TurnsTo(cfg, p, k, calls, now, env).pending| == |p.pending|
  {
    if k > 0 {
      SameSlotCount(cfg, p, k - 1, calls, now, env);
      EndBelow(cfg, TurnsTo(cfg, p, k - 1, calls, now, env), k - 1, calls, now, env);
    }
  }

  // --- A peer of which this happens ---

  function TwoWait(cfg: Config): Peer {
    Empty().(pending := [Waits(1, cfg), Waits(2, cfg)], pendingCount := 2, reservedFiles := 2)
  }

  /** The end of the second request makes the platform submit a third one. */
  function Third(): Callbacks { (p: Peer, i: nat) => if i == 1 then [Opening(3)] else [] }

  /** With two requests pending, a third one submitted as the second ends takes the slot of the first and stays. */
  lemma ThirdIsLeft()
    ensures var cfg := Small(1000);
      var r := TurnsTo(cfg, TwoWait(cfg), 2, Third(), 0, Quiet(cfg));
      && AdmitsLate(cfg, TwoWait(cfg), 2, Third(), 0, Quiet(cfg))
      && exists j | 0 <= j < |r.pending| :: r.pending[j].Pending?
  {
    var cfg := Small(1000);
    var one := TurnsTo(cfg, TwoWait(cfg), 1, Third(), 0, Quiet(cfg));
    FirstEnds(cfg);
    ThirdTaken(cfg, one);
    LeftBehindIff(cfg, TwoWait(cfg), Third(), 0, Quiet(cfg));
  }

  function SecondWaits(cfg: Config): Peer {
    Empty().(pending := [Idle, Waits(2, cfg)], pendingCount := 1, reservedFiles := 1)
  }

  lemma FirstEnds(cfg: Config)
    ensures TurnsTo(cfg, TwoWait(cfg), 1, Third(), 0, Quiet(cfg)) == SecondWaits(cfg)
  {
    assert TurnsTo(cfg, TwoWait(cfg), 0, Third(), 0, Quiet(cfg)) == TwoWait(cfg);
    assert TwoWait(cfg).pending[0 := Idle] == [Idle, Waits(2, cfg)];
  }

  lemma ThirdTaken(cfg: Config, p: Peer)
    requires cfg == Small(cfg.timeoutMs) && p == SecondWaits(cfg)
    ensures Admits(cfg, p, 1, Third(), 0, Quiet(cfg))
  {
    OpeningAdmitted(cfg, p, 3, 0);
    assert Third()(p, 1) == [Opening(3)];
    assert SubmitTo(cfg, p, [Opening(3)], 0, 0, Quiet(cfg)) == p;
    assert TakesAny(cfg, p, [Opening(3)], 1, 0, Quiet(cfg));
  }
}
