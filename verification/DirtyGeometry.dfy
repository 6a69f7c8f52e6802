/**
  Rectangles of the dirty-region queue: touching, hulls, and the closure that an
  invalidated rectangle reaches by absorbing every queued rectangle it touches.
 */
module DirtyGeometry {

  datatype Rect = Rect(x: nat, y: nat, width: nat, height: nat)

  predicate Covers(r: Rect, px: nat, py: nat) {
    r.x <= px < r.x + r.width && r.y <= py < r.y + r.height
  }

  predicate Contains(outer: Rect, inner: Rect) {
    && outer.x <= inner.x && inner.x + inner.width <= outer.x + outer.width
    && outer.y <= inner.y && inner.y + inner.height <= outer.y + outer.height
  }

  /** Overlapping, or sharing an edge or a corner. */
  predicate Touch(a: Rect, b: Rect) {
    && a.x <= b.x + b.width && b.x <= a.x + a.width
    && a.y <= b.y + b.height && b.y <= a.y + a.height
  }

  /** Non-empty and inside a `width` by `height` surface. */
  predicate Inside(r: Rect, width: nat, height: nat) {
    && 0 < r.width && 0 < r.height
    && r.x + r.width <= width && r.y + r.height <= height
  }

  function Min(a: nat, b: nat): nat { if a < b then a else b }

  function Max(a: nat, b: nat): nat { if a > b then a else b }

  /** Smallest rectangle around both. */
  function Hull(a: Rect, b: Rect): Rect {
    var x, y := Min(a.x, b.x), Min(a.y, b.y);
    Rect(x, y,
         Max(a.x + a.width, b.x + b.width) - x,
         Max(a.y + a.height, b.y + b.height) - y)
  }

  function RemoveAt(regs: seq<Rect>, i: nat): seq<Rect>
    requires i < |regs|
  {
    regs[..i] + regs[i + 1..]
  }

  /** Index of the first queued rectangle that touches `c`, or `|regs|`. */
  function FirstTouch(regs: seq<Rect>, c: Rect): (i: nat)
    ensures i <= |regs|
    ensures forall j | 0 <= j < i :: !Touch(c, regs[j])
    ensures i < |regs| ==> Touch(c, regs[i])
  {
    if regs == [] || Touch(c, regs[0]) then 0 else 1 + FirstTouch(regs[1..], c)
  }

  /** Absorb touching rectangles until none is left: the grown rectangle and the untouched rest. */
  function Merge(regs: seq<Rect>, c: Rect): (r: (seq<Rect>, Rect))
    ensures |r.0| <= |regs|
    decreases |regs|
  {
    var i := FirstTouch(regs, c);
    if i == |regs| then (regs, c) else Merge(RemoveAt(regs, i), Hull(c, regs[i]))
  }

  lemma {:induction false} MergeStep(regs: seq<Rect>, c: Rect, i: nat)
    requires i < |regs| && Touch(c, regs[i])
    requires forall k | 0 <= k < i :: !Touch(c, regs[k])
    ensures Merge(regs, c) == Merge(RemoveAt(regs, i), Hull(c, regs[i]))
  {
    var first := FirstTouch(regs, c);
    assert first == i;
  }

  lemma NothingTouches(regs: seq<Rect>, c: Rect)
    requires forall k | 0 <= k < |regs| :: !Touch(c, regs[k])
    ensures Merge(regs, c) == (regs, c)
  {
  }

  /** Hull of `c` with every queued rectangle: what an overflowing queue collapses to. */
  function HullAll(regs: seq<Rect>, c: Rect): Rect {
    if regs == [] then c else HullAll(regs[1..], Hull(c, regs[0]))
  }

  /** The queued rectangles that do not lie inside `c`, in queue order. */
  function Outside(regs: seq<Rect>, c: Rect): seq<Rect> {
    if regs == [] then []
    else if Contains(c, regs[0]) then Outside(regs[1..], c)
    else [regs[0]] + Outside(regs[1..], c)
  }

  /** `r` swallows every queued rectangle it touches. */
  ghost predicate Closed(r: Rect, regs: seq<Rect>) {
    forall k | 0 <= k < |regs| && Touch(r, regs[k]) :: Contains(r, regs[k])
  }

  ghost predicate PairwiseApart(regs: seq<Rect>) {
    forall j, k | 0 <= j < k < |regs| :: !Touch(regs[j], regs[k])
  }

  ghost predicate AllInside(regs: seq<Rect>, width: nat, height: nat) {
    forall k | 0 <= k < |regs| :: Inside(regs[k], width, height)
  }

  ghost predicate AnyCovers(regs: seq<Rect>, px: nat, py: nat) {
    exists k | 0 <= k < |regs| :: Covers(regs[k], px, py)
  }

  // --- Filtering ---

  lemma OutsideMembers(regs: seq<Rect>, c: Rect)
    ensures forall q :: q in Outside(regs, c) <==> q in regs && !Contains(c, q)
    ensures |Outside(regs, c)| <= |regs|
  {
  }

  lemma {:induction false} OutsideRemove(regs: seq<Rect>, i: nat, c: Rect)
    requires i < |regs| && Contains(c, regs[i])
    ensures Outside(RemoveAt(regs, i), c) == Outside(regs, c)
  {
    if i == 0 {
      assert RemoveAt(regs, 0) == regs[1..];
    } else {
      OutsideRemove(regs[1..], i - 1, c);
      assert RemoveAt(regs, i)[1..] == RemoveAt(regs[1..], i - 1);
    }
  }

  lemma {:induction false} OutsideAll(regs: seq<Rect>, c: Rect)
    requires forall k | 0 <= k < |regs| :: !Touch(c, regs[k])
    ensures Outside(regs, c) == regs
  {
    if regs != [] {
      assert !Touch(c, regs[0]);
      OutsideAll(regs[1..], c);
      assert regs == [regs[0]] + regs[1..];
    }
  }

  lemma {:induction false} OutsideCount(regs: seq<Rect>, c: Rect, q: Rect)
    ensures multiset(Outside(regs, c))[q] == if Contains(c, q) then 0 else multiset(regs)[q]
  {
    if regs != [] {
      OutsideCount(regs[1..], c, q);
      assert regs == [regs[0]] + regs[1..];
      assert multiset(regs) == multiset{regs[0]} + multiset(regs[1..]);
    }
  }

  lemma {:induction false} OutsideApart(regs: seq<Rect>, c: Rect)
    requires PairwiseApart(regs)
    ensures PairwiseApart(Outside(regs, c))
  {
    if regs != [] {
      OutsideApart(regs[1..], c);
      OutsideMembers(regs[1..], c);
      var rest := Outside(regs[1..], c);
      forall k | 0 <= k < |rest| ensures !Touch(regs[0], rest[k]) {
        assert rest[k] in regs[1..];
      }
    }
  }

  // --- The merge is the least closed rectangle ---

  lemma {:induction false} MergeGrows(regs: seq<Rect>, c: Rect)
    ensures var (rest, grown) := Merge(regs, c);
      && Contains(grown, c)
      && rest == Outside(regs, grown)
      && (forall k | 0 <= k < |rest| :: !Touch(grown, rest[k]))
    decreases |regs|
  {
    var i := FirstTouch(regs, c);
    if i == |regs| {
      OutsideAll(regs, c);
    } else {
      MergeGrows(RemoveAt(regs, i), Hull(c, regs[i]));
      OutsideRemove(regs, i, Merge(regs, c).1);
    }
  }

  lemma {:induction false} MergeIsInsideClosed(regs: seq<Rect>, c: Rect, r: Rect)
    requires Contains(r, c) && Closed(r, regs)
    ensures Contains(r, Merge(regs, c).1)
    decreases |regs|
  {
    var i := FirstTouch(regs, c);
    if i < |regs| {
      assert Touch(r, regs[i]);
      MergeIsInsideClosed(RemoveAt(regs, i), Hull(c, regs[i]), r);
    }
  }

  /**
    The grown rectangle contains the input, swallows everything it touches, and lies
    inside every other rectangle with those two properties; what stays queued is
    exactly what does not lie inside it, in the old order, and none of it touches it.
   */
  lemma MergeIsLeastClosure(regs: seq<Rect>, c: Rect)
    ensures var (rest, grown) := Merge(regs, c);
      && Contains(grown, c)
      && Closed(grown, regs)
      && (forall r :: Contains(r, c) && Closed(r, regs) ==> Contains(r, grown))
      && rest == Outside(regs, grown)
      && (forall k | 0 <= k < |rest| :: !Touch(grown, rest[k]))
  {
    var (rest, grown) := Merge(regs, c);
    MergeGrows(regs, c);
    OutsideMembers(regs, grown);
    forall k | 0 <= k < |regs| && Touch(grown, regs[k]) ensures Contains(grown, regs[k]) {
      assert regs[k] in rest || Contains(grown, regs[k]);
    }
    forall r | Contains(r, c) && Closed(r, regs) ensures Contains(r, grown) {
      MergeIsInsideClosed(regs, c, r);
    }
  }

  /** The outcome does not depend on the order in which the rectangles were queued. */
  lemma {:induction false} MergeOrderIndependent(regs: seq<Rect>, shuffled: seq<Rect>, c: Rect)
    requires multiset(regs) == multiset(shuffled)
    ensures Merge(regs, c).1 == Merge(shuffled, c).1
    ensures multiset(Merge(regs, c).0) == multiset(Merge(shuffled, c).0)
  {
    MergeIsLeastClosure(regs, c);
    MergeIsLeastClosure(shuffled, c);
    ClosedShuffle(regs, shuffled, Merge(regs, c).1);
    ClosedShuffle(shuffled, regs, Merge(shuffled, c).1);
    var grown := Merge(regs, c).1;
    forall q ensures multiset(Outside(regs, grown))[q] == multiset(Outside(shuffled, grown))[q] {
      OutsideCount(regs, grown, q);
      OutsideCount(shuffled, grown, q);
    }
  }

  lemma ClosedShuffle(regs: seq<Rect>, shuffled: seq<Rect>, r: Rect)
    requires multiset(regs) == multiset(shuffled) && Closed(r, regs)
    ensures Closed(r, shuffled)
  {
    forall k | 0 <= k < |shuffled| && Touch(r, shuffled[k]) ensures Contains(r, shuffled[k]) {
      assert shuffled[k] in multiset(regs);
      assert shuffled[k] in regs;
    }
  }

  // --- What the queue operations keep ---

  lemma {:induction false} MergeInside(regs: seq<Rect>, c: Rect, width: nat, height: nat)
    requires Inside(c, width, height) && AllInside(regs, width, height)
    ensures Inside(Merge(regs, c).1, width, height)
    decreases |regs|
  {
    var i := FirstTouch(regs, c);
    if i < |regs| {
      MergeInside(RemoveAt(regs, i), Hull(c, regs[i]), width, height);
    }
  }

  lemma {:induction false} HullAllContains(regs: seq<Rect>, c: Rect, width: nat, height: nat)
    requires Inside(c, width, height) && AllInside(regs, width, height)
    ensures Inside(HullAll(regs, c), width, height)
    ensures Contains(HullAll(regs, c), c)
    ensures forall k | 0 <= k < |regs| :: Contains(HullAll(regs, c), regs[k])
  {
    if regs != [] {
      HullAllContains(regs[1..], Hull(c, regs[0]), width, height);
      forall k | 0 <= k < |regs| ensures Contains(HullAll(regs, c), regs[k]) {
        if k > 0 {
          assert regs[k] == regs[1..][k - 1];
        }
      }
    }
  }

  /** Merging keeps the pairwise distance of the queue. */
  lemma MergeApart(regs: seq<Rect>, c: Rect)
    requires PairwiseApart(regs)
    ensures PairwiseApart(Merge(regs, c).0 + [Merge(regs, c).1])
  {
    MergeIsLeastClosure(regs, c);
    OutsideApart(regs, Merge(regs, c).1);
  }

  /** A pixel of `c` or of a queued rectangle is still covered after the merge. */
  lemma MergeKeepsPixels(regs: seq<Rect>, c: Rect, px: nat, py: nat)
    requires Covers(c, px, py) || AnyCovers(regs, px, py)
    ensures AnyCovers(Merge(regs, c).0 + [Merge(regs, c).1], px, py)
  {
    MergeIsLeastClosure(regs, c);
    var (rest, grown) := Merge(regs, c);
    var queue := rest + [grown];
    if Covers(grown, px, py) {
      assert Covers(queue[|rest|], px, py);
    } else {
      var k :| 0 <= k < |regs| && Covers(regs[k], px, py);
      OutsideMembers(regs, grown);
      assert regs[k] in rest;
      var j :| 0 <= j < |rest| && rest[j] == regs[k];
      assert Covers(queue[j], px, py);
    }
  }
}
