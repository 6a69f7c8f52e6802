/** Totals over slot arrays, and the first slot that satisfies a test. */
module Tally {
  import opened Status

  function Sum<T>(s: seq<T>, f: T -> nat): nat {
    if s == [] then 0 else f(s[0]) + Sum(s[1..], f)
  }

  function Bag<T, K>(s: seq<T>, f: T -> multiset<K>): multiset<K> {
    if s == [] then multiset{} else f(s[0]) + Bag(s[1..], f)
  }

  /** Index of the first element that passes the test. */
  function First<T>(s: seq<T>, p: T -> bool): (r: Option<nat>)
    ensures r.Some? ==> r.value < |s| && p(s[r.value])
  {
    if s == [] then None
    else if p(s[0]) then Some(0)
    else
      match First(s[1..], p)
      case None => None
      case Some(i) => Some(i + 1)
  }

  /** Nothing before it passes, and without one nothing does. */
  lemma {:induction false} FirstLaw<T>(s: seq<T>, p: T -> bool)
    ensures var r := First(s, p);
      forall i | 0 <= i < (if r.Some? then r.value else |s|) :: !p(s[i])
  {
    if s != [] && !p(s[0]) {
      FirstLaw(s[1..], p);
      var r := First(s, p);
      forall i | 0 <= i < (if r.Some? then r.value else |s|) ensures !p(s[i]) {
        if i > 0 {
          assert s[i] == s[1..][i - 1];
        }
      }
    }
  }

  lemma {:induction false} FirstIs<T>(s: seq<T>, p: T -> bool, i: nat)
    requires i < |s| && p(s[i]) && forall j | 0 <= j < i :: !p(s[j])
    ensures First(s, p) == Some(i)
  {
    if i > 0 {
      assert !p(s[0]);
      FirstIs(s[1..], p, i - 1);
    }
  }

  lemma {:induction false} FirstIsNone<T>(s: seq<T>, p: T -> bool)
    requires forall j | 0 <= j < |s| :: !p(s[j])
    ensures First(s, p) == None
  {
    if s != [] {
      FirstIsNone(s[1..], p);
    }
  }

  /** The answer depends only on which elements pass. */
  lemma {:induction false} FirstSame<T>(s: seq<T>, t: seq<T>, p: T -> bool)
    requires |s| == |t| && forall j | 0 <= j < |s| :: p(s[j]) == p(t[j])
    ensures First(s, p) == First(t, p)
  {
    if s != [] {
      assert forall j | 0 <= j < |s[1..]| :: p(s[1..][j]) == p(s[j + 1]) && p(t[1..][j]) == p(t[j + 1]);
      FirstSame(s[1..], t[1..], p);
    }
  }

  /** The scanning loop behind every lookup. */
  method FindFirst<T>(s: seq<T>, p: T -> bool) returns (r: Option<nat>)
    ensures r == First(s, p)
  {
    var index := 0;
    while index < |s|
      invariant 0 <= index <= |s|
      invariant forall i | 0 <= i < index :: !p(s[i])
    {
      if p(s[index]) {
        FirstIs(s, p, index);
        return Some(index);
      }
      index := index + 1;
    }
    FirstIsNone(s, p);
    return None;
  }

  lemma {:induction false} SumUpdate<T>(s: seq<T>, i: nat, v: T, f: T -> nat)
    requires i < |s|
    ensures Sum(s[i := v], f) + f(s[i]) == Sum(s, f) + f(v)
  {
    if i == 0 {
      assert s[0 := v][1..] == s[1..];
    } else {
      SumUpdate(s[1..], i - 1, v, f);
      assert s[i := v][1..] == s[1..][i - 1 := v];
    }
  }

  lemma {:induction false} SumAtLeast<T>(s: seq<T>, i: nat, f: T -> nat)
    requires i < |s|
    ensures f(s[i]) <= Sum(s, f)
  {
    if i > 0 {
      SumAtLeast(s[1..], i - 1, f);
    }
  }

  lemma {:induction false} SumZero<T>(s: seq<T>, f: T -> nat)
    requires forall i | 0 <= i < |s| :: f(s[i]) == 0
    ensures Sum(s, f) == 0
  {
    if s != [] {
      SumZero(s[1..], f);
    }
  }

  /** A total of at most one per slot that is below the slot count leaves some slot at zero. */
  lemma {:induction false} SumBelow<T>(s: seq<T>, f: T -> nat) returns (i: nat)
    requires Sum(s, f) < |s|
    ensures i < |s| && f(s[i]) == 0
  {
    if f(s[0]) == 0 {
      i := 0;
    } else {
      i := SumBelow(s[1..], f);
      i := i + 1;
    }
  }

  lemma {:induction false} SumAgree<T>(s: seq<T>, f: T -> nat, g: T -> nat)
    requires forall i | 0 <= i < |s| :: f(s[i]) == g(s[i])
    ensures Sum(s, f) == Sum(s, g)
  {
    if s != [] {
      SumAgree(s[1..], f, g);
    }
  }

  lemma {:induction false} BagUpdate<T, K>(s: seq<T>, i: nat, v: T, f: T -> multiset<K>)
    requires i < |s|
    ensures Bag(s[i := v], f) + f(s[i]) == Bag(s, f) + f(v)
  {
    if i == 0 {
      assert s[0 := v][1..] == s[1..];
    } else {
      BagUpdate(s[1..], i - 1, v, f);
      assert s[i := v][1..] == s[1..][i - 1 := v];
      var head, tail, tail' := f(s[0]), Bag(s[1..], f), Bag(s[1..][i - 1 := v], f);
      assert (head + tail') + f(s[i]) == head + (tail' + f(s[1..][i - 1]));
      assert (head + tail) + f(v) == head + (tail + f(v));
    }
  }

  lemma {:induction false} BagAppend<T, K>(s: seq<T>, t: seq<T>, f: T -> multiset<K>)
    ensures Bag(s + t, f) == Bag(s, f) + Bag(t, f)
  {
    if s == [] {
      assert s + t == t;
    } else {
      assert (s + t)[1..] == s[1..] + t;
      BagAppend(s[1..], t, f);
    }
  }

  lemma {:induction false} BagAgree<T, K>(s: seq<T>, f: T -> multiset<K>, g: T -> multiset<K>)
    requires forall i | 0 <= i < |s| :: f(s[i]) == g(s[i])
    ensures Bag(s, f) == Bag(s, g)
  {
    if s != [] {
      BagAgree(s[1..], f, g);
    }
  }

  lemma {:induction false} BagHas<T, K>(s: seq<T>, i: nat, f: T -> multiset<K>, x: K)
    requires i < |s| && x in f(s[i])
    ensures x in Bag(s, f)
  {
    if i > 0 {
      BagHas(s[1..], i - 1, f, x);
    }
  }

  lemma {:induction false} BagFrom<T, K>(s: seq<T>, f: T -> multiset<K>, x: K) returns (i: nat)
    requires x in Bag(s, f)
    ensures i < |s| && x in f(s[i])
  {
    if x in f(s[0]) {
      i := 0;
    } else {
      i := BagFrom(s[1..], f, x);
      i := i + 1;
    }
  }

  lemma {:induction false} BagEmpty<T, K>(s: seq<T>, f: T -> multiset<K>)
    requires forall i | 0 <= i < |s| :: f(s[i]) == multiset{}
    ensures Bag(s, f) == multiset{}
  {
    if s != [] {
      BagEmpty(s[1..], f);
    }
  }

  lemma {:induction false} BagSize<T, K>(s: seq<T>, f: T -> multiset<K>, g: T -> nat)
    requires forall i | 0 <= i < |s| :: |f(s[i])| == g(s[i])
    ensures |Bag(s, f)| == Sum(s, g)
  {
    if s != [] {
      BagSize(s[1..], f, g);
    }
  }
}
