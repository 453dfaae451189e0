/** Sums and multiset unions over a sequence, with the two ways the state
    machines of this project change a sequence: updating one entry and
    appending one entry. */
module Folds {

  function Sum<T>(s: seq<T>, f: T -> nat): (total: nat)
  {
    if s == [] then 0 else Sum(s[..|s| - 1], f) + f(s[|s| - 1])
  }

  function Gather<T>(s: seq<T>, f: T -> multiset<int>): (all: multiset<int>)
  {
    if s == [] then multiset{} else Gather(s[..|s| - 1], f) + f(s[|s| - 1])
  }

  /** `t` is `s` with entry `i` changed, or with entry `i` appended, or, for a
      negative `i`, just `s`. */
  predicate OneChange<T(==)>(s: seq<T>, t: seq<T>, i: int)
  {
    || (i < 0 && t == s)
    || (0 <= i < |s| == |t| && t == s[i := t[i]])
    || (i == |s| && |t| == i + 1 && t == s + [t[i]])
  }

  function NatAt<T>(s: seq<T>, i: int, f: T -> nat): nat
  {
    if 0 <= i < |s| then f(s[i]) else 0
  }

  function BagAt<T>(s: seq<T>, i: int, f: T -> multiset<int>): multiset<int>
  {
    if 0 <= i < |s| then f(s[i]) else multiset{}
  }

  lemma {:induction false} SumChange<T>(s: seq<T>, t: seq<T>, i: int, f: T -> nat)
    requires OneChange(s, t, i)
    ensures Sum(t, f) + NatAt(s, i, f) == Sum(s, f) + NatAt(t, i, f)
    decreases |s|
  {
    if 0 <= i < |s| {
      var last := |s| - 1;
      if i == last {
        assert t[..last] == s[..last];
      } else {
        SumChange(s[..last], t[..last], i, f);
      }
    } else if i == |s| {
      assert t[..i] == s;
    }
  }

  lemma {:induction false} GatherChange<T>(s: seq<T>, t: seq<T>, i: int, f: T -> multiset<int>)
    requires OneChange(s, t, i)
    ensures Gather(t, f) + BagAt(s, i, f) == Gather(s, f) + BagAt(t, i, f)
    decreases |s|
  {
    if 0 <= i < |s| {
      var last := |s| - 1;
      if i == last {
        assert t[..last] == s[..last];
      } else {
        GatherChange(s[..last], t[..last], i, f);
        Rebalance(Gather(t[..last], f), BagAt(s, i, f), Gather(s[..last], f), BagAt(t, i, f),
                  f(t[last]), f(t[last]), BagAt(s, i, f), BagAt(t, i, f));
      }
    } else if i == |s| {
      assert t[..i] == s;
    }
  }

  lemma {:induction false} GatherContains<T>(s: seq<T>, i: nat, f: T -> multiset<int>)
    requires i < |s|
    ensures f(s[i]) <= Gather(s, f)
    decreases |s|
  {
    if i < |s| - 1 {
      GatherContains(s[..|s| - 1], i, f);
    }
  }

  /** Two bags, each changed by replacing a part, against the net change. */
  lemma Rebalance(a': multiset<int>, p: multiset<int>, a: multiset<int>, p': multiset<int>,
                  b': multiset<int>, b: multiset<int>, out: multiset<int>, into: multiset<int>)
    requires a' + p == a + p' && b' == b
    requires p' + out == p + into
    ensures (a' + b') + out == (a + b) + into
  {
    forall x ensures ((a' + b') + out)[x] == ((a + b) + into)[x] {
      assert (a' + p)[x] == (a + p')[x];
      assert (p' + out)[x] == (p + into)[x];
    }
  }

  /** The same with both bags changing. */
  lemma RebalanceBoth(a': multiset<int>, p: multiset<int>, a: multiset<int>, p': multiset<int>,
                      b': multiset<int>, q: multiset<int>, b: multiset<int>, q': multiset<int>,
                      out: multiset<int>, into: multiset<int>)
    requires a' + p == a + p' && b' + q == b + q'
    requires p' + q' + out == p + q + into
    ensures (a' + b') + out == (a + b) + into
  {
    forall x ensures ((a' + b') + out)[x] == ((a + b) + into)[x] {
      assert (a' + p)[x] == (a + p')[x];
      assert (b' + q)[x] == (b + q')[x];
      assert (p' + q' + out)[x] == (p + q + into)[x];
    }
  }

  lemma {:induction false} SumIsZero<T>(s: seq<T>, f: T -> nat)
    requires forall i :: 0 <= i < |s| ==> f(s[i]) == 0
    ensures Sum(s, f) == 0
    decreases |s|
  {
    if s != [] {
      SumIsZero(s[..|s| - 1], f);
    }
  }

  lemma {:induction false} GatherIsEmpty<T>(s: seq<T>, f: T -> multiset<int>)
    requires forall i :: 0 <= i < |s| ==> f(s[i]) == multiset{}
    ensures Gather(s, f) == multiset{}
    decreases |s|
  {
    if s != [] {
      GatherIsEmpty(s[..|s| - 1], f);
    }
  }

  lemma {:induction false} GatherMonotone<T>(s: seq<T>, f: T -> multiset<int>, g: T -> multiset<int>)
    requires forall i :: 0 <= i < |s| ==> f(s[i]) <= g(s[i])
    ensures Gather(s, f) <= Gather(s, g)
    decreases |s|
  {
    if s != [] {
      GatherMonotone(s[..|s| - 1], f, g);
    }
  }

  lemma SubmultisetCardinality(a: multiset<int>, b: multiset<int>)
    requires a <= b
    ensures |a| <= |b|
  {
    assert b == a + (b - a);
  }

  lemma {:induction false} SumSplits<T>(s: seq<T>, whole: T -> nat, a: T -> nat, b: T -> nat, c: T -> nat)
    requires forall i :: 0 <= i < |s| ==> whole(s[i]) == a(s[i]) + b(s[i]) + c(s[i])
    ensures Sum(s, whole) == Sum(s, a) + Sum(s, b) + Sum(s, c)
    decreases |s|
  {
    if s != [] {
      SumSplits(s[..|s| - 1], whole, a, b, c);
    }
  }

  /** Pointwise comparison of two folds, over possibly different sequences. */
  lemma {:induction false} SumMonotone<T>(s: seq<T>, t: seq<T>, f: T -> nat, g: T -> nat)
    requires |s| == |t| && forall i :: 0 <= i < |s| ==> f(s[i]) <= g(t[i])
    ensures Sum(s, f) <= Sum(t, g)
    decreases |s|
  {
    if s != [] {
      SumMonotone(s[..|s| - 1], t[..|t| - 1], f, g);
    }
  }

  lemma {:induction false} SumBound<T>(s: seq<T>, f: T -> nat, bound: nat)
    requires forall i :: 0 <= i < |s| ==> f(s[i]) <= bound
    ensures Sum(s, f) <= |s| * bound
    decreases |s|
  {
    if s != [] {
      SumBound(s[..|s| - 1], f, bound);
      assert |s| * bound == (|s| - 1) * bound + bound;
    }
  }
}
