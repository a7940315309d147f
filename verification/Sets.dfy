/** Sizes of finite sets. */
module Sets {
  lemma SubsetSize<T>(a: set<T>, b: set<T>)
    requires a <= b
    ensures |a| <= |b|
  {
    assert b == a + (b - a);
  }

  lemma {:induction false} SmallSet(s: set<nat>, n: nat)
    requires forall x :: x in s ==> x < n
    ensures |s| <= n
  {
    if n == 0 {
      assert s == {};
    } else {
      SmallSet(s - {n - 1}, n - 1);
      assert s <= (s - {n - 1}) + {n - 1};
      if n - 1 in s { assert |s| == |s - {n - 1}| + 1; } else { assert s == s - {n - 1}; }
    }
  }
}
