/** The intrusive circular list of runtime/include/ps_list.h, relinked in place. A list with head `h` is a
    ring of nodes whose first element is `h`; the rest of the ring, in order, is the list's contents. */
module PsList {

  class Node {
    var n: Node
    var p: Node

    /** ps_list_ll_init: a node on its own is a ring of one. */
    constructor ()
      ensures n == this && p == this
      ensures Ring([this])
    {
      n := this;
      p := this;
    }
  }

  ghost predicate Distinct(s: seq<Node>) {
    forall i, j :: 0 <= i < j < |s| ==> s[i] != s[j]
  }

  /** The nodes of `s` are linked in this order, both ways, and the last one back to the first. */
  ghost predicate Ring(s: seq<Node>)
    reads s
  {
    s != [] && Distinct(s) &&
    (forall i :: 0 <= i < |s| - 1 ==> s[i].n == s[i + 1]) &&
    (forall i :: 0 < i < |s| ==> s[i].p == s[i - 1]) &&
    s[|s| - 1].n == s[0] && s[0].p == s[|s| - 1]
  }

  /** A detached node, as ps_list_ll_init leaves it. */
  ghost predicate Alone(x: Node)
    reads x
  {
    x.n == x && x.p == x
  }

  lemma DistinctInsert(s: seq<Node>, x: Node, i: nat)
    requires Distinct(s) && x !in s && i < |s|
    ensures Distinct(s[..i + 1] + [x] + s[i + 1..])
  {
  }

  lemma DistinctRemove(s: seq<Node>, i: nat)
    requires Distinct(s) && i < |s|
    ensures Distinct(s[..i] + s[i + 1..])
  {
  }

  /** ps_list_ll_add: link `added` right after the ring's node `i`. */
  method Add(l: Node, added: Node, ghost s: seq<Node>, ghost i: nat)
    requires Ring(s) && i < |s| && s[i] == l && added !in s
    modifies s, added
    ensures Ring(s[..i + 1] + [added] + s[i + 1..])
  {
    ghost var after := if i + 1 < |s| then i + 1 else 0;
    assert l.n == s[after] && s[after] in s;
    ghost var r := s[..i + 1] + [added] + s[i + 1..];
    assert forall k :: 0 <= k < |r| ==> r[k] == if k <= i then s[k] else if k == i + 1 then added else s[k - 1];
    DistinctInsert(s, added, i);
    added.n := l.n;
    added.p := l;
    l.n := added;
    added.n.p := added;
    assert forall k :: 0 <= k < |r| - 1 ==> r[k].n == r[k + 1];
    assert forall k :: 0 < k < |r| ==> r[k].p == r[k - 1];
  }

  /** ps_list_ll_rem: unlink the ring's node `i`, which is detached. */
  method Remove(l: Node, ghost s: seq<Node>, ghost i: nat)
    requires Ring(s) && 0 < i < |s| && s[i] == l
    modifies s
    ensures Ring(s[..i] + s[i + 1..]) && Alone(l)
  {
    ghost var after := if i + 1 < |s| then i + 1 else 0;
    assert l.n == s[after] && s[after] in s && l.p == s[i - 1] && s[i - 1] in s;
    ghost var r := s[..i] + s[i + 1..];
    assert forall k :: 0 <= k < |r| ==> r[k] == if k < i then s[k] else s[k + 1];
    DistinctRemove(s, i);
    l.n.p := l.p;
    l.p.n := l.n;
    l.p := l;
    l.n := l;
  }

  /** ps_list_head_append. */
  method Append(head: Node, added: Node, ghost s: seq<Node>)
    requires Ring(s) && s[0] == head && added !in s
    modifies s, added
    ensures Ring(s + [added])
  {
    Add(head.p, added, s, |s| - 1);
    assert s[..|s|] + [added] + s[|s|..] == s + [added];
  }

  /** ps_list_head_empty and ps_list_singleton. */
  method IsEmpty(head: Node, ghost s: seq<Node>) returns (r: bool)
    requires Ring(s) && s[0] == head
    ensures r <==> |s| == 1
  {
    assert |s| > 1 ==> s[0].n == s[1] && s[1] != s[0];
    r := head.n == head;
  }

  /** ps_list_head_one_node. */
  method HasOneNode(head: Node, ghost s: seq<Node>) returns (r: bool)
    requires Ring(s) && s[0] == head
    ensures r <==> |s| == 2
  {
    assert |s| > 1 ==> s[0].n == s[1] && s[1] != s[0];
    assert |s| > 2 ==> s[1] != s[|s| - 1];
    r := head.n != head && head.n == head.p;
  }

  /** ps_list_head_first of a non-empty list. */
  method First(head: Node, ghost s: seq<Node>) returns (x: Node)
    requires Ring(s) && s[0] == head && |s| > 1
    ensures x == s[1]
  {
    x := head.n;
  }

  /** local_runqueue_list_rotate: the first node of the list becomes the last; a list of one is left alone. */
  method Rotate(head: Node, ghost s: seq<Node>) returns (ghost r: seq<Node>)
    requires Ring(s) && s[0] == head && |s| > 1
    modifies s
    ensures Ring(r) && r == [head] + s[2..] + [s[1]]
  {
    var single := HasOneNode(head, s);
    if single {
      r := s;
      assert r == [head] + s[2..] + [s[1]];
      return;
    }
    var x := First(head, s);
    Remove(x, s, 1);
    r := s[..1] + s[2..];
    Append(head, x, r);
    r := r + [x];
    assert s[..1] == [head];
  }

  /** What the loop below reads off a ring. */
  lemma RingStart(r: seq<Node>)
    requires Ring(r)
    ensures r != [] && Distinct(r)
    ensures r[0].n == if |r| > 1 then r[1] else r[0]
    ensures |r| > 1 ==> r[1] != r[0] && r[1].n == if |r| > 2 then r[2] else r[0]
  {
  }

  /** The nodes already passed are not among the head and the rest. */
  lemma PassedNodes(s: seq<Node>, k: nat)
    requires Distinct(s) && 1 <= k <= |s|
    ensures forall j :: 1 <= j < k ==> s[j] !in [s[0]] + s[k..]
    ensures forall x :: x in [s[0]] + s[k..] ==> x in s
  {
  }

  /** local_cleanup_queue_free: the foreach_del loop unlinks and frees every node, each once and in order. */
  method FreeAll(head: Node, ghost s: seq<Node>) returns (freed: seq<Node>)
    requires Ring(s) && s[0] == head
    modifies s
    ensures freed == s[1..] && Ring([head])
    ensures forall x :: x in freed ==> Alone(x)
  {
    hide Ring, Distinct, Alone;
    RingStart(s);
    freed := [];
    var iter := head.n;
    var tmp := iter.n;
    ghost var k := 1;
    assert [head] + s[1..] == s;
    while iter != head
      invariant 1 <= k <= |s| && freed == s[1..k] && Ring([head] + s[k..])
      invariant iter == (if k < |s| then s[k] else head) && tmp == iter.n
      invariant forall j :: 1 <= j < k ==> Alone(s[j])
      decreases |s| - k
    {
      ghost var r := [head] + s[k..];
      RingStart(r);
      PassedNodes(s, k);
      Remove(iter, r, 1);
      ghost var r' := [head] + s[k + 1..];
      assert r[..1] + r[2..] == r';
      RingStart(r');
      freed := freed + [iter];
      iter := tmp;
      tmp := tmp.n;
      k := k + 1;
    }
    RingStart([head] + s[k..]);
    assert [head] + s[|s|..] == [head];
  }
}
