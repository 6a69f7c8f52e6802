/**
  The bounded dirty-region queue with frame pacing. `Sched` is the value of a scheduler and
  the `...State` functions say what each entry point makes of it; class `Scheduler` is the
  in-place implementation over a fixed region buffer with 32-bit rectangle arithmetic.
 */
module DirtyScheduler {
  import opened Status
  import opened DirtyGeometry

  const MAX_REGIONS: nat := 4096

  datatype Metrics = Metrics(
    invalidations: nat,
    merged: nat,
    collapses: nat,
    deferred: nat,
    presented: nat,
    resizes: nat,
    pending: nat)

  datatype Sched = Sched(
    regions: seq<Rect>,
    capacity: nat,
    maxPerFrame: nat,
    width: nat,
    height: nat,
    interval: nat,
    nextFrame: nat,
    metrics: Metrics)

  predicate ValidConfig(capacity: nat, maxPerFrame: nat) {
    0 < maxPerFrame <= capacity <= MAX_REGIONS
  }

  ghost predicate Inv(s: Sched) {
    && ValidConfig(s.capacity, s.maxPerFrame)
    && |s.regions| <= s.capacity
    && s.width < U32_RANGE && s.height < U32_RANGE
    && s.interval <= U64_MAX && s.nextFrame <= U64_MAX
    && AllInside(s.regions, s.width, s.height)
    && PairwiseApart(s.regions)
    && s.metrics.pending == |s.regions|
  }

  function NewState(capacity: nat, maxPerFrame: nat, interval: nat): Sched {
    Sched([], capacity, maxPerFrame, 0, 0, interval, 0, Metrics(0, 0, 0, 0, 0, 0, 0))
  }

  /** Saturating 64-bit addition. */
  function Deadline(now: nat, interval: nat): nat {
    if now + interval > U64_MAX then U64_MAX else now + interval
  }

  /** Queue a merged rectangle; a full queue collapses to the one hull of everything in it. */
  function EnqueueState(s: Sched, grown: Rect, now: nat): Sched {
    var collapse := |s.regions| >= s.capacity;
    var queue := if collapse then [HullAll(s.regions, grown)] else s.regions + [grown];
    s.(regions := queue,
       nextFrame := if s.regions == [] && s.nextFrame < now then now else s.nextFrame,
       metrics := s.metrics.(collapses := s.metrics.collapses + (if collapse then 1 else 0),
                             pending := |queue|))
  }

  function InvalidateState(s: Sched, rect: Rect, now: nat): (Status, Sched) {
    if !Inside(rect, s.width, s.height) then (InvalidArgument, s)
    else
      var (rest, grown) := Merge(s.regions, rect);
      var merged := s.(regions := rest,
                       metrics := s.metrics.(invalidations := s.metrics.invalidations + 1,
                                             merged := s.metrics.merged + (|s.regions| - |rest|)));
      (Ok, EnqueueState(merged, grown, now))
  }

  function ResizeState(s: Sched, width: nat, height: nat, now: nat, invalidate: bool): (Status, Sched) {
    if width == 0 || height == 0 then (InvalidArgument, s)
    else
      var cleared := s.(width := width, height := height, regions := [], nextFrame := now,
                        metrics := s.metrics.(resizes := s.metrics.resizes + 1, pending := 0));
      if invalidate then InvalidateState(cleared, Rect(0, 0, width, height), now) else (Ok, cleared)
  }

  function ClearState(s: Sched, now: nat): Sched {
    s.(regions := [], nextFrame := now, metrics := s.metrics.(pending := 0))
  }

  function CommitState(s: Sched, count: nat, now: nat): (Status, Sched) {
    if count == 0 || count > |s.regions| || count > s.maxPerFrame then (InvalidArgument, s)
    else
      (Ok, s.(regions := s.regions[count..],
              nextFrame := Deadline(now, s.interval),
              metrics := s.metrics.(presented := s.metrics.presented + count,
                                    pending := |s.regions| - count)))
  }

  function DeferState(s: Sched, now: nat): (Status, Sched) {
    if s.regions == [] then (InvalidArgument, s)
    else
      (Ok, s.(nextFrame := Max(s.nextFrame, Deadline(now, s.interval)),
              metrics := s.metrics.(deferred := s.metrics.deferred + 1)))
  }

  /** Milliseconds to sleep until `deadline`, rounded up and capped at the largest `int`. */
  function TimeoutMs(now: nat, deadline: nat): nat {
    if deadline <= now then 0
    else
      var ms := (deadline - now) / NS_PER_MS + (if (deadline - now) % NS_PER_MS != 0 then 1 else 0);
      if ms > INT_MAX then INT_MAX else ms
  }

  /** Status, size of the due prefix, and poll timeout (-1 when the queue is empty). */
  function PeekResult(s: Sched, now: nat): (Status, nat, int) {
    if s.regions == [] then (Ok, 0, -1)
    else if now < s.nextFrame then (Again, 0, TimeoutMs(now, s.nextFrame))
    else (Ok, Min(|s.regions|, s.maxPerFrame), 0)
  }

  // --- Rectangle arithmetic as the implementation performs it, in 32 bits ---

  function Sub32(a: nat, b: nat): nat
    requires b < U32_RANGE
  {
    Wrap32(a + U32_RANGE - b)
  }

  /** Endpoint sums wrap modulo 2^32; on rectangles inside a 32-bit surface they are exact. */
  method RectsTouch(a: Rect, b: Rect, ghost width: nat, ghost height: nat) returns (touch: bool)
    requires width < U32_RANGE && height < U32_RANGE
    requires Inside(a, width, height) && Inside(b, width, height)
    ensures touch == Touch(a, b)
  {
    var aRight, bRight := Wrap32(a.x + a.width), Wrap32(b.x + b.width);
    var aBottom, bBottom := Wrap32(a.y + a.height), Wrap32(b.y + b.height);
    WrapExact(a.x + a.width);
    WrapExact(b.x + b.width);
    WrapExact(a.y + a.height);
    WrapExact(b.y + b.height);
    touch := a.x <= bRight && b.x <= aRight && a.y <= bBottom && b.y <= aBottom;
  }

  method RectUnion(a: Rect, b: Rect, ghost width: nat, ghost height: nat) returns (r: Rect)
    requires width < U32_RANGE && height < U32_RANGE
    requires Inside(a, width, height) && Inside(b, width, height)
    ensures r == Hull(a, b)
    ensures Inside(r, width, height)
  {
    WrapExact(a.x + a.width);
    WrapExact(b.x + b.width);
    WrapExact(a.y + a.height);
    WrapExact(b.y + b.height);
    var right := Max(Wrap32(a.x + a.width), Wrap32(b.x + b.width));
    var bottom := Max(Wrap32(a.y + a.height), Wrap32(b.y + b.height));
    var x, y := Min(a.x, b.x), Min(a.y, b.y);
    WrapTwice(right - x);
    WrapTwice(bottom - y);
    r := Rect(x, y, Sub32(right, x), Sub32(bottom, y));
  }

  lemma WrapExact(n: nat)
    requires n < U32_RANGE
    ensures Wrap32(n) == n
  {
  }

  lemma WrapTwice(n: nat)
    requires n < U32_RANGE
    ensures Wrap32(n + U32_RANGE) == n
  {
  }

  // --- The implementation ---

  class Scheduler {
    const regions: array<Rect>
    const maxPerFrame: nat
    const interval: u64
    var count: nat
    var width: u32
    var height: u32
    var nextFrame: u64
    var metrics: Metrics

    ghost function State(): Sched
      reads this, regions
      requires count <= regions.Length
    {
      Sched(regions[..count], regions.Length, maxPerFrame, width, height, interval, nextFrame, metrics)
    }

    ghost predicate Valid()
      reads this, regions
    {
      count <= regions.Length && Inv(State())
    }

    constructor (capacity: nat, maxPerFrame: nat, interval: u64)
      requires ValidConfig(capacity, maxPerFrame)
      ensures Valid() && fresh(regions)
      ensures State() == NewState(capacity, maxPerFrame, interval)
    {
      regions := new Rect[capacity](i => Rect(0, 0, 0, 0));
      this.maxPerFrame := maxPerFrame;
      this.interval := interval;
      count, width, height, nextFrame := 0, 0, 0, 0;
      metrics := Metrics(0, 0, 0, 0, 0, 0, 0);
    }

    predicate RectValid(rect: Rect)
      reads this
    {
      if rect.width == 0 || rect.height == 0 || width == 0 || height == 0 ||
         rect.x >= width || rect.y >= height then false
      else rect.width <= width - rect.x && rect.height <= height - rect.y
    }

    method RemoveRegion(index: nat)
      requires index < count <= regions.Length
      modifies this`count, regions
      ensures count == old(count) - 1
      ensures regions[..count] == RemoveAt(old(regions[..count]), index)
    {
      var i := index;
      while i + 1 < count
        modifies regions
        invariant index <= i < count
        invariant forall k | 0 <= k < index :: regions[k] == old(regions[k])
        invariant forall k | index <= k < i :: regions[k] == old(regions[k + 1])
        invariant forall k | i < k < count :: regions[k] == old(regions[k])
      {
        regions[i] := regions[i + 1];
        i := i + 1;
      }
      count := count - 1;
    }

    /** Grow `rect` over the queued rectangle at `index` and take that one off the queue. */
    method Absorb(rect: Rect, index: nat) returns (candidate: Rect)
      requires index < count <= regions.Length
      requires AllInside(regions[..count], width, height) && Inside(rect, width, height)
      modifies this`count, this`metrics, regions
      ensures count == old(count) - 1
      ensures regions[..count] == RemoveAt(old(regions[..count]), index)
      ensures candidate == Hull(rect, old(regions[..count])[index])
      ensures AllInside(regions[..count], width, height) && Inside(candidate, width, height)
      ensures metrics == old(metrics).(merged := old(metrics.merged) + 1)
    {
      ghost var queue := regions[..count];
      assert regions[index] == queue[index];
      candidate := RectUnion(rect, regions[index], width, height);
      RemoveRegion(index);
      metrics := metrics.(merged := metrics.merged + 1);
    }

    method MergeExisting(rect: Rect) returns (candidate: Rect)
      requires count <= regions.Length
      requires AllInside(regions[..count], width, height) && Inside(rect, width, height)
      modifies this`count, this`metrics, regions
      ensures count <= old(count)
      ensures (regions[..count], candidate) == Merge(old(regions[..count]), rect)
      ensures metrics == old(metrics).(merged := old(metrics.merged) + (old(count) - count))
    {
      candidate := rect;
      ghost var queue := regions[..count];
      var index := 0;
      while index < count
        invariant index <= count <= old(count)
        invariant queue == regions[..count]
        invariant AllInside(queue, width, height) && Inside(candidate, width, height)
        invariant Merge(queue, candidate) == Merge(old(regions[..count]), rect)
        invariant forall k | 0 <= k < index :: !Touch(candidate, queue[k])
        invariant metrics == old(metrics).(merged := old(metrics.merged) + (old(count) - count))
        decreases count, count - index
        modifies this`count, this`metrics, regions
      {
        assert regions[index] == queue[index];
        var touch := RectsTouch(candidate, regions[index], width, height);
        if !touch {
          index := index + 1;
        } else {
          MergeStep(queue, candidate, index);
          candidate := Absorb(candidate, index);
          queue := RemoveAt(queue, index);
          index := 0;
        }
      }
      NothingTouches(queue, candidate);
    }

    method HullOfQueue(rect: Rect) returns (candidate: Rect)
      requires count <= regions.Length
      requires AllInside(regions[..count], width, height) && Inside(rect, width, height)
      ensures candidate == HullAll(regions[..count], rect)
    {
      ghost var queue := regions[..count];
      candidate := rect;
      var index := 0;
      while index < count
        invariant 0 <= index <= count
        invariant Inside(candidate, width, height)
        invariant HullAll(queue[index..], candidate) == HullAll(queue, rect)
      {
        assert regions[index] == queue[index];
        candidate := RectUnion(candidate, regions[index], width, height);
        assert queue[index..][1..] == queue[index + 1..];
        index := index + 1;
      }
    }

    method Enqueue(rect: Rect, now: u64)
      requires 0 < regions.Length && count <= regions.Length
      requires AllInside(regions[..count], width, height) && Inside(rect, width, height)
      modifies this`count, this`metrics, this`nextFrame, regions
      ensures count <= regions.Length
      ensures State() == EnqueueState(old(State()), rect, now)
    {
      if count == 0 && nextFrame < now {
        nextFrame := now;
      }
      if count < regions.Length {
        regions[count] := rect;
        count := count + 1;
        assert regions[..count] == old(regions[..count]) + [rect];
      } else {
        var hull := HullOfQueue(rect);
        regions[0] := hull;
        count := 1;
        assert regions[..count] == [hull];
        metrics := metrics.(collapses := metrics.collapses + 1);
      }
      metrics := metrics.(pending := count);
    }

    method Invalidate(rect: Rect, now: u64) returns (status: Status)
      requires Valid()
      modifies this`count, this`metrics, this`nextFrame, regions
      ensures Valid()
      ensures (status, State()) == InvalidateState(old(State()), rect, now)
    {
      ghost var before := State();
      if !RectValid(rect) {
        return InvalidArgument;
      }
      InvalidateKeepsInv(before, rect, now);
      MergeStaysInside(before, rect);
      metrics := metrics.(invalidations := metrics.invalidations + 1);
      var candidate := MergeExisting(rect);
      Enqueue(candidate, now);
      assert State() == InvalidateState(before, rect, now).1;
      return Ok;
    }

    method Resize(newWidth: u32, newHeight: u32, now: u64, invalidate: bool) returns (status: Status)
      requires Valid()
      modifies this, regions
      ensures Valid()
      ensures (status, State()) == ResizeState(old(State()), newWidth, newHeight, now, invalidate)
    {
      if newWidth == 0 || newHeight == 0 {
        return InvalidArgument;
      }
      width, height := newWidth, newHeight;
      count := 0;
      nextFrame := now;
      metrics := metrics.(resizes := metrics.resizes + 1, pending := 0);
      if !invalidate {
        return Ok;
      }
      status := Invalidate(Rect(0, 0, newWidth, newHeight), now);
    }

    method Peek(now: u64) returns (status: Status, due: nat, timeoutMs: int)
      requires Valid()
      ensures (status, due, timeoutMs) == PeekResult(State(), now)
    {
      if count == 0 {
        return Ok, 0, -1;
      }
      if now < nextFrame {
        return Again, 0, TimeoutMs(now, nextFrame);
      }
      return Ok, if count < maxPerFrame then count else maxPerFrame, 0;
    }

    method Commit(presented: nat, now: u64) returns (status: Status)
      requires Valid()
      modifies this`count, this`metrics, this`nextFrame, regions
      ensures Valid()
      ensures (status, State()) == CommitState(old(State()), presented, now)
    {
      if presented == 0 || presented > count || presented > maxPerFrame {
        return InvalidArgument;
      }
      var i := 0;
      while i + presented < count
        modifies regions
        invariant 0 <= i <= count - presented
        invariant forall k | 0 <= k < i :: regions[k] == old(regions[k + presented])
        invariant forall k | i <= k < count :: regions[k] == old(regions[k])
      {
        regions[i] := regions[i + presented];
        i := i + 1;
      }
      count := count - presented;
      assert regions[..count] == old(regions[..count])[presented..];
      metrics := metrics.(presented := metrics.presented + presented, pending := count);
      nextFrame := if interval > U64_MAX - now then U64_MAX else now + interval;
      return Ok;
    }

    method Defer(now: u64) returns (status: Status)
      requires Valid()
      modifies this`metrics, this`nextFrame
      ensures Valid()
      ensures (status, State()) == DeferState(old(State()), now)
    {
      if count == 0 {
        return InvalidArgument;
      }
      var deadline: u64 := if interval > U64_MAX - now then U64_MAX else now + interval;
      if nextFrame < deadline {
        nextFrame := deadline;
      }
      metrics := metrics.(deferred := metrics.deferred + 1);
      return Ok;
    }

    method Clear(now: u64)
      requires Valid()
      modifies this`count, this`metrics, this`nextFrame
      ensures Valid()
      ensures State() == ClearState(old(State()), now)
    {
      count := 0;
      nextFrame := now;
      metrics := metrics.(pending := 0);
    }
  }

  lemma MergeStaysInside(s: Sched, rect: Rect)
    requires Inv(s) && Inside(rect, s.width, s.height)
    ensures AllInside(Merge(s.regions, rect).0, s.width, s.height)
    ensures Inside(Merge(s.regions, rect).1, s.width, s.height)
  {
    var (rest, grown) := Merge(s.regions, rect);
    MergeInside(s.regions, rect, s.width, s.height);
    MergeIsLeastClosure(s.regions, rect);
    OutsideMembers(s.regions, grown);
    forall k | 0 <= k < |rest| ensures Inside(rest[k], s.width, s.height) {
      assert rest[k] in s.regions;
    }
  }

  /** Queue bound, containment in the surface and pairwise distance survive an invalidation, collapse included. */
  lemma InvalidateKeepsInv(s: Sched, rect: Rect, now: nat)
    requires Inv(s) && now <= U64_MAX
    ensures Inv(InvalidateState(s, rect, now).1)
  {
    if Inside(rect, s.width, s.height) {
      var (rest, grown) := Merge(s.regions, rect);
      MergeStaysInside(s, rect);
      MergeApart(s.regions, rect);
      HullAllContains(rest, grown, s.width, s.height);
    }
  }

  lemma ResizeKeepsInv(s: Sched, width: nat, height: nat, now: nat, invalidate: bool)
    requires Inv(s) && width < U32_RANGE && height < U32_RANGE && now <= U64_MAX
    ensures Inv(ResizeState(s, width, height, now, invalidate).1)
  {
    if width != 0 && height != 0 {
      var cleared := ResizeState(s, width, height, now, false).1;
      InvalidateKeepsInv(cleared, Rect(0, 0, width, height), now);
    }
  }

  lemma CommitKeepsInv(s: Sched, count: nat, now: nat)
    requires Inv(s) && now <= U64_MAX
    ensures Inv(CommitState(s, count, now).1)
  {
  }

  /** A collapse happens only when the queue was full and nothing merged. */
  lemma CollapseOnlyWhenFull(s: Sched, rect: Rect, now: nat)
    requires Inv(s)
    requires InvalidateState(s, rect, now).1.metrics.collapses != s.metrics.collapses
    ensures |s.regions| == s.capacity
    ensures forall k | 0 <= k < |s.regions| :: !Touch(rect, s.regions[k])
    ensures InvalidateState(s, rect, now).1.metrics.merged == s.metrics.merged
    ensures |InvalidateState(s, rect, now).1.regions| == 1
  {
  }
}
