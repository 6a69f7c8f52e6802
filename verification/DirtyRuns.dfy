/**
  Whole runs of one peer's dirty queue: invalidations, frame dispatches, resizes and clears in
  any order, at any times, with any answers from the wire. The run records which pixels were
  damaged and presented, when frames were committed, and how many regions a reset dropped.
 */
module DirtyRuns {
  import opened Status
  import opened DirtyGeometry
  import opened DirtyScheduler

  // --- One frame dispatch ---

  /** How many of the first `limit` presentations succeed before one fails. */
  function LeadingOk(answers: nat -> Status, limit: nat): (n: nat)
    ensures n <= limit
    ensures forall k: nat | k < n :: answers(k).Ok?
    ensures n < limit ==> !answers(n).Ok?
  {
    if limit == 0 then 0
    else
      var n := LeadingOk(answers, limit - 1);
      if n == limit - 1 && answers(n).Ok? then limit else n
  }

  datatype FrameResult = FrameResult(sched: Sched, presented: nat, last: Status)

  predicate Backpressure(status: Status) { status.State? || status.Again? }

  /**
    Present the due prefix of the queue while the budget lasts and the wire accepts; commit
    what was accepted, and push the retry out when the wire asked to wait.
   */
  function FrameState(s: Sched, now: nat, budget: nat, answers: nat -> Status): (r: FrameResult)
    ensures r.presented <= budget
    ensures r.presented <= |s.regions|
  {
    var (status, due, _) := PeekResult(s, now);
    if status != Ok || due == 0 then FrameResult(s, 0, Ok)
    else
      var limit := Min(due, budget);
      var presented := LeadingOk(answers, limit);
      var last := if presented < limit then answers(presented) else Ok;
      var committed := if presented > 0 then CommitState(s, presented, now).1 else s;
      FrameResult(if Backpressure(last) then DeferState(committed, now).1 else committed,
                  presented, last)
  }

  lemma FrameKeepsInv(s: Sched, now: nat, budget: nat, answers: nat -> Status)
    requires Inv(s) && now <= U64_MAX
    ensures Inv(FrameState(s, now, budget, answers).sched)
  {
    var presented := FrameState(s, now, budget, answers).presented;
    CommitKeepsInv(s, presented, now);
  }

  // --- Runs ---

  datatype Step =
    | Invalidate(rect: Rect, now: u64)
    | Frame(now: u64, budget: nat, answers: nat -> Status)
    | Resize(width: u32, height: u32, now: u64, invalidate: bool)
    | Clear(now: u64)

  /** What happened to the pixels: damage accepted, a rectangle presented, the surface reset. */
  datatype Mark = Damaged(rect: Rect) | Presented(rect: Rect) | Reset

  /** `commits` are the commit times since the last reset; `dropped` counts regions lost to resets. */
  datatype Trace = Trace(sched: Sched, marks: seq<Mark>, commits: seq<nat>, dropped: nat)

  function PresentedMarks(regs: seq<Rect>): seq<Mark> {
    seq(|regs|, i requires 0 <= i < |regs| => Presented(regs[i]))
  }

  function After(t: Trace, step: Step): Trace {
    match step
    case Invalidate(rect, now) =>
      var (status, sched) := InvalidateState(t.sched, rect, now);
      t.(sched := sched, marks := if status == Ok then t.marks + [Damaged(rect)] else t.marks)
    case Frame(now, budget, answers) =>
      var r := FrameState(t.sched, now, budget, answers);
      t.(sched := r.sched,
         marks := t.marks + PresentedMarks(t.sched.regions[..r.presented]),
         commits := if r.presented > 0 then t.commits + [now] else t.commits)
    case Resize(width, height, now, invalidate) =>
      var (status, sched) := ResizeState(t.sched, width, height, now, invalidate);
      if status != Ok then t
      else
        Trace(sched,
              t.marks + [Reset] + (if invalidate then [Damaged(Rect(0, 0, width, height))] else []),
              [],
              t.dropped + |t.sched.regions|)
    case Clear(now) =>
      Trace(ClearState(t.sched, now), t.marks + [Reset], [], t.dropped + |t.sched.regions|)
  }

  function Run(s: Sched, steps: seq<Step>): Trace {
    if steps == [] then Trace(s, [], [], 0)
    else After(Run(s, steps[..|steps| - 1]), steps[|steps| - 1])
  }

  /** In every reachable state the queue is bounded, inside the surface and pairwise apart. */
  lemma {:induction false} RunKeepsInv(s: Sched, steps: seq<Step>)
    requires Inv(s)
    ensures Inv(Run(s, steps).sched)
  {
    if steps != [] {
      var before := Run(s, steps[..|steps| - 1]).sched;
      RunKeepsInv(s, steps[..|steps| - 1]);
      match steps[|steps| - 1] {
        case Invalidate(rect, now) => InvalidateKeepsInv(before, rect, now);
        case Frame(now, budget, answers) => FrameKeepsInv(before, now, budget, answers);
        case Resize(width, height, now, invalidate) => ResizeKeepsInv(before, width, height, now, invalidate);
        case Clear(_) =>
      }
    }
  }

  // --- No damage is lost ---

  /** The pixel was damaged after the last time it was presented or the surface was reset. */
  ghost predicate Owed(marks: seq<Mark>, px: nat, py: nat) {
    exists i | 0 <= i < |marks| ::
      && marks[i].Damaged? && Covers(marks[i].rect, px, py)
      && forall j | i < j < |marks| ::
           !marks[j].Reset? && !(marks[j].Presented? && Covers(marks[j].rect, px, py))
  }

  lemma OwedAppend(marks: seq<Mark>, mark: Mark, px: nat, py: nat)
    requires Owed(marks + [mark], px, py)
    ensures (mark.Damaged? && Covers(mark.rect, px, py)) || Owed(marks, px, py)
    ensures !mark.Reset? || !Owed(marks + [mark], px, py)
    ensures !(mark.Presented? && Covers(mark.rect, px, py))
  {
    var all := marks + [mark];
    var i :| 0 <= i < |all| && all[i].Damaged? && Covers(all[i].rect, px, py)
          && forall j | i < j < |all| ::
               !all[j].Reset? && !(all[j].Presented? && Covers(all[j].rect, px, py));
    if i < |marks| {
      assert marks[i] == all[i];
      assert forall j | i < j < |marks| :: marks[j] == all[j];
      assert all[|marks|] == mark;
    }
  }

  lemma {:induction false} OwedAfterPresenting(marks: seq<Mark>, regs: seq<Rect>, px: nat, py: nat)
    requires Owed(marks + PresentedMarks(regs), px, py)
    ensures Owed(marks, px, py)
    ensures !AnyCovers(regs, px, py)
  {
    if regs == [] {
      assert marks + PresentedMarks(regs) == marks;
    } else {
      var most, last := regs[..|regs| - 1], regs[|regs| - 1];
      assert marks + PresentedMarks(regs) == marks + PresentedMarks(most) + [Presented(last)];
      OwedAppend(marks + PresentedMarks(most), Presented(last), px, py);
      OwedAfterPresenting(marks, most, px, py);
      forall k | 0 <= k < |regs| ensures !Covers(regs[k], px, py) {
        if k < |most| {
          assert regs[k] == most[k];
        }
      }
    }
  }

  lemma InvalidateCovers(s: Sched, rect: Rect, now: nat, px: nat, py: nat)
    requires Inv(s) && Inside(rect, s.width, s.height)
    requires Covers(rect, px, py) || AnyCovers(s.regions, px, py)
    ensures AnyCovers(InvalidateState(s, rect, now).1.regions, px, py)
  {
    var (rest, grown) := Merge(s.regions, rect);
    MergeKeepsPixels(s.regions, rect, px, py);
    var queue := rest + [grown];
    var k :| 0 <= k < |queue| && Covers(queue[k], px, py);
    if |rest| >= s.capacity {
      MergeStaysInside(s, rect);
      HullAllContains(rest, grown, s.width, s.height);
      assert Contains(HullAll(rest, grown), queue[k]);
      assert Covers([HullAll(rest, grown)][0], px, py);
    }
  }

  /**
    At every point of every run, a pixel that was invalidated and has not been presented
    since is covered by a queued rectangle.
   */
  lemma {:induction false} NoLostDamage(s: Sched, steps: seq<Step>, px: nat, py: nat)
    requires Inv(s)
    requires Owed(Run(s, steps).marks, px, py)
    ensures AnyCovers(Run(s, steps).sched.regions, px, py)
  {
    if steps != [] {
      var earlier, step := steps[..|steps| - 1], steps[|steps| - 1];
      var t := Run(s, earlier);
      RunKeepsInv(s, earlier);
      match step {
        case Invalidate(rect, now) =>
          if Inside(rect, t.sched.width, t.sched.height) {
            OwedAppend(t.marks, Damaged(rect), px, py);
            if !Covers(rect, px, py) {
              NoLostDamage(s, earlier, px, py);
            }
            InvalidateCovers(t.sched, rect, now, px, py);
          } else {
            NoLostDamage(s, earlier, px, py);
          }
        case Frame(now, budget, answers) =>
          var n := FrameState(t.sched, now, budget, answers).presented;
          OwedAfterPresenting(t.marks, t.sched.regions[..n], px, py);
          NoLostDamage(s, earlier, px, py);
          FrameQueue(t.sched, now, budget, answers);
          SplitCovers(t.sched.regions, n, px, py);
        case Resize(width, height, now, invalidate) =>
          if width == 0 || height == 0 {
            NoLostDamage(s, earlier, px, py);
          } else {
            ResizeCovers(t, width, height, now, invalidate, px, py);
          }
        case Clear(_) =>
          OwedAppend(t.marks, Reset, px, py);
      }
    }
  }

  lemma SplitCovers(regs: seq<Rect>, n: nat, px: nat, py: nat)
    requires n <= |regs| && AnyCovers(regs, px, py)
    ensures AnyCovers(regs[..n], px, py) || AnyCovers(regs[n..], px, py)
  {
    var k :| 0 <= k < |regs| && Covers(regs[k], px, py);
    if k < n {
      assert Covers(regs[..n][k], px, py);
    } else {
      assert Covers(regs[n..][k - n], px, py);
    }
  }

  /** A frame takes exactly the presented prefix off the queue. */
  lemma FrameQueue(s: Sched, now: nat, budget: nat, answers: nat -> Status)
    ensures var r := FrameState(s, now, budget, answers);
      r.sched.regions == s.regions[r.presented..]
  {
    var r := FrameState(s, now, budget, answers);
    assert s.regions[0..] == s.regions;
  }

  lemma ResizeCovers(t: Trace, width: u32, height: u32, now: u64, invalidate: bool, px: nat, py: nat)
    requires Inv(t.sched) && width != 0 && height != 0
    requires Owed(After(t, Resize(width, height, now, invalidate)).marks, px, py)
    ensures AnyCovers(After(t, Resize(width, height, now, invalidate)).sched.regions, px, py)
  {
    var reset := t.marks + [Reset];
    if invalidate {
      var full := Rect(0, 0, width, height);
      OwedAppend(reset, Damaged(full), px, py);
      if Owed(reset, px, py) {
        OwedAppend(t.marks, Reset, px, py);
      }
      ResizeKeepsInv(t.sched, width, height, now, false);
      InvalidateCovers(ResizeState(t.sched, width, height, now, false).1, full, now, px, py);
    } else {
      assert reset + [] == reset;
      OwedAppend(t.marks, Reset, px, py);
    }
  }

  // --- Conservation of regions ---

  /** Every accepted invalidation was merged, presented, collapsed, dropped, or is still queued. */
  ghost predicate Balanced(t: Trace) {
    var m := t.sched.metrics;
    m.invalidations
    == m.merged + m.presented + t.sched.capacity * m.collapses + |t.sched.regions| + t.dropped
  }

  lemma InvalidateBalance(t: Trace, rect: Rect, now: nat)
    requires Balanced(t) && |t.sched.regions| <= t.sched.capacity
    ensures Balanced(t.(sched := InvalidateState(t.sched, rect, now).1))
  {
    var s := t.sched;
    if Inside(rect, s.width, s.height) {
      var rest := Merge(s.regions, rect).0;
      var s' := InvalidateState(s, rect, now).1;
      if |rest| >= s.capacity {
        assert s.capacity * (s.metrics.collapses + 1) == s.capacity * s.metrics.collapses + s.capacity;
      } else {
        assert s'.metrics.collapses == s.metrics.collapses;
      }
    }
  }

  lemma {:induction false} RegionConservation(s: Sched, steps: seq<Step>)
    requires Inv(s)
    requires Balanced(Trace(s, [], [], 0))
    ensures Balanced(Run(s, steps))
  {
    if steps != [] {
      var earlier, step := steps[..|steps| - 1], steps[|steps| - 1];
      RegionConservation(s, earlier);
      RunKeepsInv(s, earlier);
      var t := Run(s, earlier);
      match step {
        case Invalidate(rect, now) => InvalidateBalance(t, rect, now);
        case Frame(now, budget, answers) =>
          FrameQueue(t.sched, now, budget, answers);
          FrameCounters(t.sched, now, budget, answers);
        case Resize(width, height, now, invalidate) =>
          if width != 0 && height != 0 {
            var cleared := Trace(ResizeState(t.sched, width, height, now, false).1, [], [],
                                 t.dropped + |t.sched.regions|);
            assert Balanced(cleared);
            InvalidateBalance(cleared, Rect(0, 0, width, height), now);
          }
        case Clear(_) =>
      }
    }
  }

  lemma FrameCounters(s: Sched, now: nat, budget: nat, answers: nat -> Status)
    ensures var r := FrameState(s, now, budget, answers);
      && r.sched.metrics.presented == s.metrics.presented + r.presented
      && r.sched.metrics.invalidations == s.metrics.invalidations
      && r.sched.metrics.merged == s.metrics.merged
      && r.sched.metrics.collapses == s.metrics.collapses
      && r.sched.capacity == s.capacity
  {
  }

  // --- Pacing ---

  ghost predicate Paced(t: Trace) {
    && (forall k | 0 <= k < |t.commits| - 1 :: t.commits[k + 1] >= Deadline(t.commits[k], t.sched.interval))
    && (t.commits != [] ==> t.sched.nextFrame >= Deadline(t.commits[|t.commits| - 1], t.sched.interval))
  }

  lemma FramePaced(s: Sched, now: nat, budget: nat, answers: nat -> Status)
    ensures var r := FrameState(s, now, budget, answers);
      && r.sched.interval == s.interval
      && (if r.presented > 0 then now >= s.nextFrame && r.sched.nextFrame >= Deadline(now, s.interval)
          else r.sched.nextFrame >= s.nextFrame)
  {
  }

  lemma InvalidatePaced(s: Sched, rect: Rect, now: nat)
    ensures InvalidateState(s, rect, now).1.interval == s.interval
    ensures InvalidateState(s, rect, now).1.nextFrame >= s.nextFrame
  {
  }

  lemma StepPaced(t: Trace, step: Step)
    requires Paced(t)
    ensures Paced(After(t, step))
    ensures After(t, step).sched.interval == t.sched.interval
  {
    var t' := After(t, step);
    match step {
      case Invalidate(rect, now) =>
        InvalidatePaced(t.sched, rect, now);
        assert t'.commits == t.commits;
      case Frame(now, budget, answers) =>
        FramePaced(t.sched, now, budget, answers);
      case Resize(width, height, now, invalidate) =>
        if width != 0 && height != 0 {
          InvalidatePaced(ResizeState(t.sched, width, height, now, false).1, Rect(0, 0, width, height), now);
          assert t'.commits == [];
        }
      case Clear(_) =>
        assert t'.commits == [];
    }
  }

  /** Between resets, successive commits lie at least one (saturating) frame interval apart. */
  lemma {:induction false} CommitsArePaced(s: Sched, steps: seq<Step>)
    ensures Paced(Run(s, steps))
    ensures Run(s, steps).sched.interval == s.interval
  {
    if steps != [] {
      CommitsArePaced(s, steps[..|steps| - 1]);
      StepPaced(Run(s, steps[..|steps| - 1]), steps[|steps| - 1]);
    }
  }

  // --- Draining ---

  function AllOk(call: nat): Status { Ok }

  /** Frames at the given times, each with room for a whole batch and a willing wire. */
  function Drain(s: Sched, times: seq<u64>): Sched
    decreases times
  {
    if times == [] then s else Drain(FrameState(s, times[0], s.maxPerFrame, AllOk).sched, times[1..])
  }

  ghost predicate Due(s: Sched, times: seq<u64>)
    decreases times
  {
    times != [] ==>
      s.nextFrame <= times[0] && Due(FrameState(s, times[0], s.maxPerFrame, AllOk).sched, times[1..])
  }

  lemma FullFrame(s: Sched, now: u64)
    requires 0 < s.maxPerFrame && s.nextFrame <= now
    ensures var next := FrameState(s, now, s.maxPerFrame, AllOk).sched;
      && next.regions == s.regions[Min(|s.regions|, s.maxPerFrame)..]
      && next.maxPerFrame == s.maxPerFrame
  {
    FrameQueue(s, now, s.maxPerFrame, AllOk);
  }

  lemma DropTwice(regs: seq<Rect>, batch: nat, n: nat)
    requires 0 < n
    ensures var rest := regs[Min(|regs|, batch)..];
      rest[Min(|rest|, (n - 1) * batch)..] == regs[Min(|regs|, n * batch)..]
  {
    var later := (n - 1) * batch;
    assert n * batch == batch + later;
    var rest := regs[Min(|regs|, batch)..];
    assert rest[Min(|rest|, later)..] == regs[Min(|regs|, batch + later)..];
  }

  /** Regions leave in queue order, a full batch per due frame, so the queue empties. */
  lemma {:induction false} QueueDrains(s: Sched, times: seq<u64>)
    requires 0 < s.maxPerFrame && Due(s, times)
    ensures Drain(s, times).regions == s.regions[Min(|s.regions|, |times| * s.maxPerFrame)..]
    decreases times
  {
    if times != [] {
      var next := FrameState(s, times[0], s.maxPerFrame, AllOk).sched;
      FullFrame(s, times[0]);
      QueueDrains(next, times[1..]);
      DropTwice(s.regions, s.maxPerFrame, |times|);
    }
  }
}
