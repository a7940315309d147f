/** Sums of multisets, and the bookkeeping of one item that moves between them. */
module Bags {
  function Sum<T>(bags: seq<multiset<T>>): multiset<T> {
    if bags == [] then multiset{} else Sum(bags[..|bags| - 1]) + bags[|bags| - 1]
  }

  lemma {:induction false} SumUpdate<T>(bags: seq<multiset<T>>, i: nat, b: multiset<T>)
    requires i < |bags|
    ensures Sum(bags[i := b]) + bags[i] == Sum(bags) + b
  {
    var n := |bags| - 1;
    if i == n {
      assert bags[i := b][..n] == bags[..n];
    } else {
      SumUpdate(bags[..n], i, b);
      assert bags[i := b][..n] == bags[..n][i := b] && bags[..n][i] == bags[i];
      Regroup(Sum(bags[..n][i := b]), bags[i], Sum(bags[..n]), b, bags[n]);
    }
  }

  lemma Regroup<T>(a: multiset<T>, x: multiset<T>, b: multiset<T>, y: multiset<T>, c: multiset<T>)
    requires a + x == b + y
    ensures (a + c) + x == (b + c) + y
  {
    assert (a + c) + x == (a + x) + c;
  }

  lemma {:induction false} SumOfEmpty<T>(bags: seq<multiset<T>>)
    requires forall i :: 0 <= i < |bags| ==> bags[i] == multiset{}
    ensures Sum(bags) == multiset{}
  {
    if bags != [] { SumOfEmpty(bags[..|bags| - 1]); }
  }

  lemma CancelRight<T>(a: multiset<T>, b: multiset<T>, c: multiset<T>)
    requires a + c == b + c
    ensures a == b
  {
    forall y ensures a[y] == b[y] {
      assert (a + c)[y] == (b + c)[y];
    }
  }

  lemma GainBalance<T>(after: multiset<T>, before: multiset<T>, own: multiset<T>, x: T)
    requires after + own == before + (own + multiset{x})
    ensures after == before + multiset{x}
  {
    forall y ensures after[y] == (before + multiset{x})[y] {
      assert (after + own)[y] == (before + (own + multiset{x}))[y];
    }
  }

  lemma LossBalance<T>(after: multiset<T>, before: multiset<T>, own: multiset<T>, x: T)
    requires x in own && after + own == before + (own - multiset{x})
    ensures after + multiset{x} == before
  {
    forall y ensures (after + multiset{x})[y] == before[y] {
      assert (after + own)[y] == (before + (own - multiset{x}))[y];
    }
  }

  /** `x` moves from `g` to `l`. */
  lemma MoveBalance<T>(g: multiset<T>, l: multiset<T>, d: multiset<T>, a: multiset<T>, g': multiset<T>, l': multiset<T>, x: T)
    requires g + l + d == a && g' + multiset{x} == g && l' == l + multiset{x}
    ensures g' + l' + d == a
  {
    assert g' + (l + multiset{x}) + d == (g' + multiset{x}) + l + d;
  }

  /** `x` moves from `l` to `d`. */
  lemma FinishBalance<T>(g: multiset<T>, l: multiset<T>, d: multiset<T>, a: multiset<T>, l': multiset<T>, x: T)
    requires g + l + d == a && l' + multiset{x} == l
    ensures g + l' + (d + multiset{x}) == a
  {
    assert g + l' + (d + multiset{x}) == g + (l' + multiset{x}) + d;
  }

  ghost predicate AllDifferent<T(!new)>(a: seq<T>) {
    forall i, j :: 0 <= i < j < |a| ==> a[i] != a[j]
  }

  lemma {:induction false} CountDifferent<T(!new)>(a: seq<T>, x: T)
    requires AllDifferent(a)
    ensures multiset(a)[x] == if x in a then 1 else 0
  {
    if a != [] {
      var n := |a| - 1;
      CountDifferent(a[..n], x);
      assert a == a[..n] + [a[n]];
    }
  }
}
