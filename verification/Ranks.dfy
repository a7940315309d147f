/** When the class heaps of tenants stay ordered. A tenant's priority is the head deadline of its queue, so it
    changes while the tenant sits in its heap, and tenants may be deleted from any slot. Order and memo survive
    as long as only roots are deleted, and with at most five tenants in any case. */
module Ranks {
  import opened Heap
  import opened PriorityQueues
  import opened Sets
  import opened Tenants

  /** `rootsOnly`: guaranteed tenants leave their heap at its root only. */
  predicate KeptSound(c: MtClass, tenants: nat, rootsOnly: bool) {
    tenants <= 5 || (c == Guaranteed && rootsOnly)
  }

  ghost predicate Ranked(h: Heaps, queues: seq<Queue<Sandbox>>, rootsOnly: bool) {
    (KeptSound(Guaranteed, |queues|, rootsOnly) ==> Sound(h.guaranteed, HeadDeadline(queues))) &&
    (KeptSound(Default, |queues|, rootsOnly) ==> Sound(h.default, HeadDeadline(queues)))
  }

  ghost predicate AgreeOn(s: set<nat>, p: nat -> uint64, p': nat -> uint64) {
    forall y :: y in s ==> p(y) == p'(y)
  }

  // ---------- One heap whose priorities change ----------

  lemma {:induction false} SiftDownReprice(s: seq<nat>, p: nat -> uint64, p': nat -> uint64, k: nat)
    requires forall y :: y in s ==> p(y) == p'(y)
    ensures SiftDown(s, p, k) == SiftDown(s, p', k)
    decreases |s| - k
  {
    if 2 * k + 1 < |s| {
      var c := SmallestChild(s, p, k);
      assert c == SmallestChild(s, p', k);
      if p(s[k]) > p(s[c]) {
        assert forall y :: y in Swap(s, k, c) ==> y in s;
        SiftDownReprice(Swap(s, k, c), p, p', c);
      }
    }
  }

  lemma SoundReprice(q: Queue<nat>, s: set<nat>, p: nat -> uint64, p': nat -> uint64)
    requires Exactly(q, s) && Sound(q, p) && AgreeOn(s, p, p')
    ensures Sound(q, p')
  {
    ExactlyMembers(q, s);
    SameOrder(q.items, p, p');
    if q.items != [] { assert q.items[0] in q.items; }
  }

  /** The slot's own priority plays no part in vacating it. */
  lemma VacateReprice(q: Queue<nat>, s: set<nat>, t: nat, p: nat -> uint64, p': nat -> uint64)
    requires Exactly(q, s) && t in s && AgreeOn(s - {t}, p, p')
    ensures t in q.items
    ensures RemoveAt(q.items, p, IndexOf(q.items, t)) == RemoveAt(q.items, p', IndexOf(q.items, t))
  {
    ExactlyMembers(q, s);
    var k, n := IndexOf(q.items, t), |q.items| - 1;
    var rest := q.items[k := q.items[n]][..n];
    forall y | y in rest ensures p(y) == p'(y) {
      OnlyOnce(q, s, t, k);
      assert y in q.items;
    }
    SiftDownReprice(rest, p, p', k);
  }

  lemma OnlyOnce(q: Queue<nat>, s: set<nat>, t: nat, k: nat)
    requires Exactly(q, s) && k < |q.items| && q.items[k] == t
    ensures forall j :: 0 <= j < |q.items| && j != k ==> q.items[j] != t
  {
    forall j | 0 <= j < |q.items| && j != k ensures q.items[j] != t {
      var without := q.items[..k] + q.items[k + 1..];
      assert q.items == q.items[..k] + [t] + q.items[k + 1..];
      assert multiset(q.items) == multiset(without) + multiset{t};
      assert q.items[j] in without by { assert q.items[j] == if j < k then without[j] else without[j - 1]; }
      assert multiset(s)[t] <= 1;
    }
  }

  /** Deleting a tenant whose priority has changed, from the root or from any slot of a heap of at most five. */
  lemma RekeyDeleteSound(q: Queue<nat>, s: set<nat>, t: nat, p: nat -> uint64, p': nat -> uint64)
    requires Exactly(q, s) && t in s && Sound(q, p) && AgreeOn(s - {t}, p, p')
    requires |s| <= 5 || HeadOf(t, q)
    ensures Sound(Delete(q, t, p').0, p')
  {
    ExactlyMembers(q, s);
    var k := IndexOf(q.items, t);
    if k > 0 {
      FiveItemsAlwaysSafe(|q.items|, k);
      SafeSlotMovedItemFits(q.items, p, k);
    }
    RemoveSlotSound(q, p, k);
    VacateReprice(q, s, t, p, p');
    ExactlyDelete(q, s, t, p);
    var r := Delete(q, t, p).0;
    SoundReprice(r, s - {t}, p, p');
  }

  // ---------- The two class heaps ----------

  lemma InsertRanked(h: Heaps, queues: seq<Queue<Sandbox>>, c: MtClass, t: nat, rootsOnly: bool)
    requires Ranked(h, queues, rootsOnly)
    ensures Ranked(InsertTenant(h, c, t, HeadDeadline(queues)).0, queues, rootsOnly)
  {
    hide Sound, Enqueue, HeadDeadline;
    if Sound(Pick(h, c), HeadDeadline(queues)) { EnqueueSound(Pick(h, c), t, HeadDeadline(queues)); }
  }

  /** The heaps as they are, when no member's head deadline has changed. */
  lemma RepriceRanked(h: Heaps, queues: seq<Queue<Sandbox>>, queues': seq<Queue<Sandbox>>, cls: seq<MtClass>,
                      rootsOnly: bool)
    requires Members(h, queues, cls) && Ranked(h, queues, rootsOnly) && |queues'| == |queues|
    requires AgreeOn(InClass(queues, cls, Guaranteed), HeadDeadline(queues), HeadDeadline(queues'))
    requires AgreeOn(InClass(queues, cls, Default), HeadDeadline(queues), HeadDeadline(queues'))
    ensures Ranked(h, queues', rootsOnly)
  {
    hide Sound, Exactly, AgreeOn, InClass, HeadDeadline;
    var p, p' := HeadDeadline(queues), HeadDeadline(queues');
    if Sound(h.guaranteed, p) { SoundReprice(h.guaranteed, InClass(queues, cls, Guaranteed), p, p'); }
    if Sound(h.default, p) { SoundReprice(h.default, InClass(queues, cls, Default), p, p'); }
  }

  /** Only tenant `t`'s queue changes, and `t` leaves the heap of its class. */
  lemma RemoveRanked(h: Heaps, queues: seq<Queue<Sandbox>>, q: Queue<Sandbox>, cls: seq<MtClass>, t: nat,
                     rootsOnly: bool)
    requires Members(h, queues, cls) && Ranked(h, queues, rootsOnly) && t < |queues| == |cls| && queues[t].items != []
    requires KeptSound(cls[t], |queues|, rootsOnly) ==> |queues| <= 5 || HeadOf(t, Pick(h, cls[t]))
    ensures Ranked(RemoveTenant(h, cls[t], t, HeadDeadline(queues[t := q])).0, queues[t := q], rootsOnly)
  {
    hide Sound, Exactly, AgreeOn, InClass, HeadDeadline, Delete, HeadOf;
    OthersAgree(queues, q, cls, t);
    var queues', c := queues[t := q], cls[t];
    var p, p', g, d := HeadDeadline(queues), HeadDeadline(queues'), InClass(queues, cls, Guaranteed),
                       InClass(queues, cls, Default);
    if c == Guaranteed {
      if Sound(h.guaranteed, p) && KeptSound(c, |queues|, rootsOnly) { RekeyDeleteSound(h.guaranteed, g, t, p, p'); }
      if Sound(h.default, p) { SoundReprice(h.default, d, p, p'); }
    } else {
      if Sound(h.default, p) && KeptSound(c, |queues|, rootsOnly) { RekeyDeleteSound(h.default, d, t, p, p'); }
      if Sound(h.guaranteed, p) { SoundReprice(h.guaranteed, g, p, p'); }
    }
  }

  /** Tenant `t` is a member of its own class only, and only its head deadline may change. */
  lemma OthersAgree(queues: seq<Queue<Sandbox>>, q: Queue<Sandbox>, cls: seq<MtClass>, t: nat)
    requires t < |queues| == |cls| && queues[t].items != []
    ensures var g, d := InClass(queues, cls, Guaranteed), InClass(queues, cls, Default);
            var p, p' := HeadDeadline(queues), HeadDeadline(queues[t := q]);
            |g| <= |queues| && |d| <= |queues| &&
            (if cls[t] == Guaranteed then t in g && AgreeOn(g - {t}, p, p') && AgreeOn(d, p, p')
             else t in d && AgreeOn(d - {t}, p, p') && AgreeOn(g, p, p'))
  {
    SmallSet(InClass(queues, cls, Guaranteed), |queues|);
    SmallSet(InClass(queues, cls, Default), |queues|);
  }

  // ---------- What an added, a taken or a moved tenant does ----------

  lemma HeadAfterEnqueue(q: Queue<Sandbox>, x: Sandbox)
    requires Sound(q, Deadline) && |q.items| < q.capacity
    ensures var r := Enqueue(q, x, Deadline).0;
            Sound(r, Deadline) && r.items != [] &&
            r.highest == if x.deadline < q.highest then x.deadline else q.highest
  {
    var r := Enqueue(q, x, Deadline).0;
    EnqueueSound(q, x, Deadline);
    EnqueueBag(q, x, Deadline);
    hide Enqueue;
    RootIsBagMinimum(r, Deadline);
    assert x in multiset(r.items);
    if q.items != [] {
      RootIsBagMinimum(q, Deadline);
      assert q.items[0] in multiset(r.items);
    }
    assert r.items[0] in multiset(q.items) || r.items[0] == x;
  }

  /** A request or sandbox added to a tenant's queue. An idle tenant is inserted; a busy one is taken out and
      put back if the head deadline drops, and left alone otherwise. */
  lemma AddRanked(h: Heaps, queues: seq<Queue<Sandbox>>, cls: seq<MtClass>, x: Sandbox, rootsOnly: bool)
    requires Members(h, queues, cls) && Ranked(h, queues, rootsOnly) && x.tenant < |queues| == |cls|
    requires Sound(queues[x.tenant], Deadline) && |queues[x.tenant].items| < queues[x.tenant].capacity
    ensures var t := x.tenant; var queues' := queues[t := Enqueue(queues[t], x, Deadline).0];
            var p' := HeadDeadline(queues');
            if queues[t].items == [] then Ranked(InsertTenant(h, cls[t], t, p').0, queues', rootsOnly)
            else if x.deadline >= queues[t].highest then Ranked(h, queues', rootsOnly)
            else (|queues| <= 5 || !rootsOnly ==>
                    Ranked(InsertTenant(RemoveTenant(h, cls[t], t, p').0, cls[t], t, p').0, queues', rootsOnly))
  {
    var t := x.tenant;
    var q := Enqueue(queues[t], x, Deadline).0;
    var queues' := queues[t := q];
    HeadAfterEnqueue(queues[t], x);
    hide Enqueue, Ranked, Exactly, InsertTenant, RemoveTenant;
    if queues[t].items == [] {
      RepriceRanked(h, queues, queues', cls, rootsOnly);
      InsertRanked(h, queues', cls[t], t, rootsOnly);
    } else if x.deadline >= queues[t].highest {
      RepriceRanked(h, queues, queues', cls, rootsOnly);
    } else if |queues| <= 5 || !rootsOnly {
      RemoveRanked(h, queues, q, cls, t, rootsOnly);
      InsertRanked(RemoveTenant(h, cls[t], t, HeadDeadline(queues')).0, queues', cls[t], t, rootsOnly);
    }
  }

  /** A sandbox leaves a tenant's queue: the tenant is taken out of its heap and put back if still busy. */
  lemma TakeRanked(h: Heaps, queues: seq<Queue<Sandbox>>, cls: seq<MtClass>, t: nat, q: Queue<Sandbox>, rootsOnly: bool)
    requires Members(h, queues, cls) && Ranked(h, queues, rootsOnly) && t < |queues| == |cls| && queues[t].items != []
    requires KeptSound(cls[t], |queues|, rootsOnly) ==> |queues| <= 5 || HeadOf(t, Pick(h, cls[t]))
    ensures var queues' := queues[t := q]; var p' := HeadDeadline(queues'); var r := RemoveTenant(h, cls[t], t, p').0;
            Ranked(r, queues', rootsOnly) && Ranked(InsertTenant(r, cls[t], t, p').0, queues', rootsOnly)
  {
    hide Ranked, Members, InsertTenant, RemoveTenant, HeadDeadline, KeptSound;
    RemoveRanked(h, queues, q, cls, t, rootsOnly);
    var queues' := queues[t := q];
    InsertRanked(RemoveTenant(h, cls[t], t, HeadDeadline(queues')).0, queues', cls[t], t, rootsOnly);
  }

  /** A busy tenant changes its class. */
  lemma MoveRanked(h: Heaps, queues: seq<Queue<Sandbox>>, cls: seq<MtClass>, t: nat, c': MtClass, rootsOnly: bool)
    requires Members(h, queues, cls) && Ranked(h, queues, rootsOnly) && t < |queues| == |cls| && queues[t].items != []
    requires KeptSound(cls[t], |queues|, rootsOnly) ==> |queues| <= 5 || HeadOf(t, Pick(h, cls[t]))
    ensures var p := HeadDeadline(queues);
            Ranked(InsertTenant(RemoveTenant(h, cls[t], t, p).0, c', t, p).0, queues, rootsOnly)
  {
    hide Ranked, Members, InsertTenant, RemoveTenant, HeadDeadline, KeptSound;
    assert queues[t := queues[t]] == queues;
    RemoveRanked(h, queues, queues[t], cls, t, rootsOnly);
    InsertRanked(RemoveTenant(h, cls[t], t, HeadDeadline(queues)).0, queues, c', t, rootsOnly);
  }

  // ---------- What an ordered class heap means ----------

  ghost predicate AllSound(queues: seq<Queue<Sandbox>>) {
    forall t: nat :: t < |queues| ==> Sound(queues[t], Deadline)
  }

  /** No sandbox of a tenant of the same class has an earlier deadline. */
  ghost predicate EarliestOfClass(x: Sandbox, queues: seq<Queue<Sandbox>>, cls: seq<MtClass>) {
    x.tenant < |cls| &&
    forall t: nat, y :: t < |queues| && t < |cls| && cls[t] == cls[x.tenant] && y in queues[t].items ==>
      x.deadline <= y.deadline
  }

  /** The head sandbox of the head tenant of an ordered class heap is the earliest of the whole class. */
  lemma HeadIsEarliestOfClass(h: Heaps, queues: seq<Queue<Sandbox>>, cls: seq<MtClass>, c: MtClass, t: nat)
    requires Members(h, queues, cls) && AllSound(queues) && Sound(Pick(h, c), HeadDeadline(queues))
    requires HeadOf(t, Pick(h, c))
    requires t < |queues| == |cls| && queues[t].items != [] && queues[t].items[0].tenant == t && cls[t] == c
    ensures EarliestOfClass(queues[t].items[0], queues, cls)
  {
    var s, p := InClass(queues, cls, c), HeadDeadline(queues);
    ExactlyMembers(Pick(h, c), s);
    RootIsBagMinimum(Pick(h, c), p);
    forall u: nat, y | u < |queues| && cls[u] == c && y in queues[u].items
      ensures queues[t].items[0].deadline <= y.deadline
    {
      assert u in s;
      assert u in multiset(Pick(h, c).items);
      assert p(t) <= p(u);
      RootIsBagMinimum(queues[u], Deadline);
      assert y in multiset(queues[u].items);
    }
  }
}
