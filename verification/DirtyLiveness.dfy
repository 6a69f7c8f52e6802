/**
  When frames are due: never later than the latest saturating deadline of anything that happened
  to the queue, so that damage is presented in time, a full batch per frame interval.
 */
module DirtyLiveness {
  import opened Status
  import opened DirtyGeometry
  import opened DirtyScheduler
  import opened DirtyRuns

  /** The time, or the largest 64-bit time where the clock would wrap. */
  function Capped(time: nat): nat { if time > U64_MAX then U64_MAX else time }

  // --- Upper bound ---

  /** The latest a step can put the next frame: a frame one interval on, anything else to its own time. */
  function StepBound(interval: nat, step: Step): nat {
    match step
    case Invalidate(_, now) => now
    case Frame(now, _, _) => Capped(now + interval)
    case Resize(_, _, now, _) => now
    case Clear(now) => now
  }

  /** The latest of these over a run, and what the run started from. */
  function Latest(s: Sched, steps: seq<Step>): nat {
    if steps == [] then s.nextFrame
    else Max(Latest(s, steps[..|steps| - 1]), StepBound(s.interval, steps[|steps| - 1]))
  }

  lemma FrameBound(s: Sched, now: nat, budget: nat, answers: nat -> Status)
    ensures var r := FrameState(s, now, budget, answers).sched;
      r.nextFrame <= Max(s.nextFrame, Capped(now + s.interval)) && r.interval == s.interval
  {
  }

  lemma StepBounded(t: Trace, step: Step)
    ensures var r := After(t, step).sched;
      r.nextFrame <= Max(t.sched.nextFrame, StepBound(t.sched.interval, step)) && r.interval == t.sched.interval
  {
    if step.Frame? {
      FrameBound(t.sched, step.now, step.budget, step.answers);
    }
  }

  lemma {:induction false} NextFrameBounded(s: Sched, steps: seq<Step>)
    ensures Run(s, steps).sched.nextFrame <= Latest(s, steps) && Run(s, steps).sched.interval == s.interval
  {
    if steps != [] {
      NextFrameBounded(s, steps[..|steps| - 1]);
      StepBounded(Run(s, steps[..|steps| - 1]), steps[|steps| - 1]);
    }
  }

  /** In every run a queue with damage has a frame due by that time, and what is due is a full batch or all there is. */
  lemma DueByThen(s: Sched, steps: seq<Step>, now: nat)
    requires Inv(s) && now >= Latest(s, steps) && Run(s, steps).sched.regions != []
    ensures var r := Run(s, steps).sched;
      PeekResult(r, now) == (Ok, if |r.regions| < r.maxPerFrame then |r.regions| else r.maxPerFrame, 0)
      && 0 < PeekResult(r, now).1
  {
    NextFrameBounded(s, steps);
    RunKeepsInv(s, steps);
  }

  // --- Exactly when ---

  /** A dirty queue is due exactly from its next frame on; an empty one never, and asks for no wake-up. */
  lemma PeekIff(s: Sched, now: nat)
    requires 0 < s.maxPerFrame
    ensures PeekResult(s, now).1 > 0 <==> s.regions != [] && s.nextFrame <= now
    ensures s.regions == [] ==> PeekResult(s, now) == (Ok, 0, -1)
    ensures PeekResult(s, now).0 == Again <==> s.regions != [] && now < s.nextFrame
    ensures PeekResult(s, now).2 == -1 <==> s.regions == []
  {
  }

  /**
    A committed frame puts the next one a saturating interval after its time, and so does a
    deferral unless the next frame is later already; a first damage after an idle time is due at
    once, and clearing the queue starts anew.
   */
  lemma NextFrameIs(s: Sched, count: nat, rect: Rect, now: nat)
    ensures CommitState(s, count, now).0 == Ok ==> CommitState(s, count, now).1.nextFrame == Capped(now + s.interval)
    ensures s.regions != [] ==>
      DeferState(s, now).1.nextFrame ==
        if s.nextFrame < Capped(now + s.interval) then Capped(now + s.interval) else s.nextFrame
    ensures Inside(rect, s.width, s.height) && s.regions == [] ==>
      InvalidateState(s, rect, now).1.nextFrame == if s.nextFrame < now then now else s.nextFrame
    ensures ClearState(s, now).nextFrame == now && ClearState(s, now).regions == []
  {
    if s.regions == [] {
      NothingTouches(s.regions, rect);
    }
  }

  /** A commit takes any count up to a batch and the queue, and nothing else. */
  lemma CommitIff(s: Sched, count: nat, now: nat)
    ensures CommitState(s, count, now).0 == Ok <==> 0 < count <= |s.regions| && count <= s.maxPerFrame
    ensures CommitState(s, count, now).0 == Ok ==> CommitState(s, count, now).1.regions == s.regions[count..]
    ensures CommitState(s, count, now).0 != Ok ==> CommitState(s, count, now) == (InvalidArgument, s)
  {
  }

  // --- Liveness ---

  /** Times from the next frame on, each at least one saturating interval after the one before. */
  ghost predicate Spaced(next: nat, interval: nat, times: seq<u64>)
    decreases times
  {
    times != [] ==> next <= times[0] && Spaced(Capped(times[0] + interval), interval, times[1..])
  }

  lemma BatchSets(s: Sched, now: u64)
    requires 0 < s.maxPerFrame && s.nextFrame <= now
    ensures var r := FrameState(s, now, s.maxPerFrame, AllOk).sched;
      && r.interval == s.interval && r.maxPerFrame == s.maxPerFrame
      && r.nextFrame <= Max(s.nextFrame, Capped(now + s.interval))
      && (s.regions != [] ==> r.nextFrame == Capped(now + s.interval))
  {
    WillingTakes(Min(Min(|s.regions|, s.maxPerFrame), s.maxPerFrame));
  }

  lemma {:induction false} WillingTakes(limit: nat)
    ensures LeadingOk(AllOk, limit) == limit
  {
    if limit > 0 {
      WillingTakes(limit - 1);
    }
  }

  lemma SpacedLater(next: nat, later: nat, interval: nat, times: seq<u64>)
    requires next <= later && Spaced(later, interval, times)
    ensures Spaced(next, interval, times)
  {
  }

  lemma {:induction false} SpacedAreDue(s: Sched, times: seq<u64>)
    requires 0 < s.maxPerFrame && Spaced(s.nextFrame, s.interval, times)
    ensures Due(s, times)
    decreases times
  {
    if times != [] {
      var r := FrameState(s, times[0], s.maxPerFrame, AllOk).sched;
      BatchSets(s, times[0]);
      SpacedLater(r.nextFrame, Capped(times[0] + s.interval), s.interval, times[1..]);
      SpacedAreDue(r, times[1..]);
    }
  }

  /**
    If frames are tried at times that start no earlier than the next frame and lie at least one
    saturating interval apart, and the wire accepts, the queue loses a full batch each time.
   */
  lemma DrainsInTime(s: Sched, times: seq<u64>)
    requires 0 < s.maxPerFrame && Spaced(s.nextFrame, s.interval, times)
    ensures Drain(s, times).regions == s.regions[Min(|s.regions|, |times| * s.maxPerFrame)..]
  {
    SpacedAreDue(s, times);
    QueueDrains(s, times);
  }

  /** So in every run, enough frames at such times after its last step empty the queue. */
  lemma RunDrains(s: Sched, steps: seq<Step>, times: seq<u64>)
    requires Inv(s) && Spaced(Latest(s, steps), s.interval, times)
    requires |Run(s, steps).sched.regions| <= |times| * Run(s, steps).sched.maxPerFrame
    ensures Drain(Run(s, steps).sched, times).regions == []
  {
    var r := Run(s, steps).sched;
    NextFrameBounded(s, steps);
    RunKeepsInv(s, steps);
    SpacedLater(r.nextFrame, Latest(s, steps), s.interval, times);
    DrainsInTime(r, times);
  }
}
