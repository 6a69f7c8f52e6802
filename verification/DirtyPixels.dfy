/** The rectangle predicates of the dirty queue in terms of the pixels they are about. */
module DirtyPixels {
  import opened Status
  import opened DirtyGeometry
  import opened DirtyScheduler

  predicate NonEmpty(r: Rect) { 0 < r.width && 0 < r.height }

  /** The two pixels are the same or lie side by side or corner to corner. */
  predicate Neighbours(px: nat, py: nat, qx: nat, qy: nat) {
    px <= qx + 1 && qx <= px + 1 && py <= qy + 1 && qy <= py + 1
  }

  ghost predicate Meet(a: Rect, b: Rect) {
    exists px: nat, py: nat, qx: nat, qy: nat ::
      Covers(a, px, py) && Covers(b, qx, qy) && Neighbours(px, py, qx, qy)
  }

  /** A rectangle covers the pixels from its corner on, as many as its sides are long. */
  lemma CoversIff(r: Rect, px: nat, py: nat)
    ensures Covers(r, px, py) <==> r.x <= px < r.x + r.width && r.y <= py < r.y + r.height
  {
  }

  /** Rectangles touch if and only if some pixels of theirs are neighbours. */
  lemma TouchIff(a: Rect, b: Rect)
    requires NonEmpty(a) && NonEmpty(b)
    ensures Touch(a, b) <==> Meet(a, b)
  {
    if Touch(a, b) {
      var px, qx := Near(a.x, a.width, b.x, b.width);
      var py, qy := Near(a.y, a.height, b.y, b.height);
      assert Covers(a, px, py) && Covers(b, qx, qy) && Neighbours(px, py, qx, qy);
    }
  }

  /** Two runs of numbers that meet have members next to each other. */
  lemma Near(a: nat, n: nat, b: nat, m: nat) returns (p: nat, q: nat)
    requires 0 < n && 0 < m && a <= b + m && b <= a + n
    ensures a <= p < a + n && b <= q < b + m && p <= q + 1 && q <= p + 1
  {
    if b == a + n {
      p, q := a + n - 1, b;
    } else if a == b + m {
      p, q := a, b + m - 1;
    } else {
      p := Max(a, b);
      q := p;
    }
  }

  /** One rectangle contains another if and only if it covers all of its pixels. */
  lemma ContainsIff(outer: Rect, inner: Rect)
    requires NonEmpty(inner)
    ensures Contains(outer, inner) <==> forall px: nat, py: nat | Covers(inner, px, py) :: Covers(outer, px, py)
  {
    if forall px: nat, py: nat | Covers(inner, px, py) :: Covers(outer, px, py) {
      assert Covers(inner, inner.x, inner.y);
      assert Covers(inner, inner.x + inner.width - 1, inner.y + inner.height - 1);
    }
  }

  /** A rectangle lies inside the surface if and only if it has pixels and all of them do. */
  lemma InsideIff(r: Rect, width: nat, height: nat)
    ensures Inside(r, width, height) <==>
      NonEmpty(r) && forall px: nat, py: nat | Covers(r, px, py) :: px < width && py < height
  {
    if NonEmpty(r) && forall px: nat, py: nat | Covers(r, px, py) :: px < width && py < height {
      assert Covers(r, r.x + r.width - 1, r.y + r.height - 1);
    }
  }

  /** The hull contains both rectangles, and every rectangle that does contains the hull. */
  lemma HullIsLeast(a: Rect, b: Rect, big: Rect)
    ensures Contains(Hull(a, b), a) && Contains(Hull(a, b), b)
    ensures Contains(big, a) && Contains(big, b) ==> Contains(big, Hull(a, b))
  {
  }

  /** Likewise for the one rectangle that a full queue collapses to. */
  lemma {:induction false} CollapseIsLeast(regs: seq<Rect>, c: Rect, big: Rect)
    ensures Contains(HullAll(regs, c), c) && forall k | 0 <= k < |regs| :: Contains(HullAll(regs, c), regs[k])
    ensures Contains(big, c) && (forall k | 0 <= k < |regs| :: Contains(big, regs[k])) ==>
      Contains(big, HullAll(regs, c))
  {
    if regs != [] {
      var next := Hull(c, regs[0]);
      HullIsLeast(c, regs[0], big);
      CollapseIsLeast(regs[1..], next, big);
      forall k | 0 <= k < |regs| ensures Contains(HullAll(regs, c), regs[k]) {
        if k > 0 {
          assert regs[1..][k - 1] == regs[k];
        }
      }
      if Contains(big, c) && forall k | 0 <= k < |regs| :: Contains(big, regs[k]) {
        forall k | 0 <= k < |regs[1..]| ensures Contains(big, regs[1..][k]) {
          assert regs[1..][k] == regs[k + 1];
        }
      }
    }
  }

  /** What an invalidation makes of the queue: one merged rectangle behind the rest, or alone if there is no room. */
  lemma InvalidateIs(s: Sched, rect: Rect, now: nat)
    ensures InvalidateState(s, rect, now).0 == Ok <==> Inside(rect, s.width, s.height)
    ensures InvalidateState(s, rect, now).0 != Ok ==> InvalidateState(s, rect, now) == (InvalidArgument, s)
    ensures Inside(rect, s.width, s.height) ==>
      var (rest, grown) := Merge(s.regions, rect);
      InvalidateState(s, rect, now).1.regions ==
        if |rest| < s.capacity then rest + [grown] else [HullAll(rest, grown)]
  {
  }

  /** A new size empties the queue, or leaves it with the whole surface, and is refused if it has no pixels. */
  lemma ResizeIs(s: Sched, width: nat, height: nat, now: nat, invalidate: bool)
    requires 0 < s.capacity
    ensures var (status, r) := ResizeState(s, width, height, now, invalidate);
      && (status == Ok <==> 0 < width && 0 < height) && (status != Ok ==> (status, r) == (InvalidArgument, s))
      && (status == Ok ==>
            && r.width == width && r.height == height && r.nextFrame == now
            && r.regions == if invalidate then [Rect(0, 0, width, height)] else [])
  {
    if 0 < width && 0 < height {
      NothingTouches([], Rect(0, 0, width, height));
    }
  }
}
