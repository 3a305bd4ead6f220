/**
 * The intrusive list of waiters, updated in place (include/coro/detail/awaiter_list.hpp): the
 * caller's node is its own link. Each operation here is one that no other thread interrupts; the
 * interleavings are the subject of the mutex and event machines.
 */
module AwaiterList {
  import opened Prelude

  class Awaiter {
    var next: Awaiter?

    constructor ()
      ensures next == null
    {
      next := null;
    }
  }

  /** From `head`, the links lead through exactly `nodes`, in order. */
  ghost predicate Chain(head: Awaiter?, nodes: seq<Awaiter>)
    reads nodes
  {
    && Distinct(nodes)
    && head == (if nodes == [] then null else nodes[0])
    && forall k {:trigger nodes[k].next} :: 0 <= k < |nodes| ==> nodes[k].next == (if k + 1 < |nodes| then nodes[k + 1] else null)
  }

  /** A chain's head determines all of it. */
  lemma ChainUnique(head: Awaiter?, a: seq<Awaiter>, b: seq<Awaiter>)
    requires Chain(head, a) && Chain(head, b)
    ensures a == b
  {
    if a != [] { SamePlace(head, a, b, |a| - 1); }
    if b != [] { SamePlace(head, b, a, |b| - 1); }
    forall k | 0 <= k < |a|
      ensures a[k] == b[k]
    {
      SamePlace(head, a, b, k);
    }
  }

  lemma {:induction false} SamePlace(head: Awaiter?, a: seq<Awaiter>, b: seq<Awaiter>, k: nat)
    requires Chain(head, a) && Chain(head, b) && k < |a|
    ensures k < |b| && a[k] == b[k]
  {
    if k > 0 {
      SamePlace(head, a, b, k - 1);
      assert a[k - 1].next == a[k];
    }
  }

  class List {
    var head: Awaiter?
    ghost var nodes: seq<Awaiter>

    ghost predicate Valid()
      reads this, nodes
    {
      Chain(head, nodes)
    }

    constructor ()
      ensures Valid() && nodes == []
    {
      head, nodes := null, [];
    }

    method Push(entry: Awaiter)
      requires Valid() && entry !in nodes
      modifies this, entry
      ensures Valid() && nodes == [entry] + old(nodes)
    {
      entry.next := head;
      head := entry;
      nodes := [entry] + nodes;
    }

    method Pop() returns (first: Awaiter?)
      requires Valid()
      modifies this
      ensures Valid()
      ensures if old(nodes) == [] then first == null && nodes == [] else first == old(nodes)[0] && nodes == old(nodes)[1..]
    {
      first := head;
      if first != null {
        head := first.next;
        nodes := nodes[1..];
        assert forall k :: 0 <= k < |nodes| ==> nodes[k] == old(nodes)[k + 1];
      }
    }

    method PopAll() returns (first: Awaiter?)
      requires Valid()
      modifies this
      ensures Valid() && nodes == [] && Chain(first, old(nodes))
    {
      first := head;
      head, nodes := null, [];
    }
  }

  /** Turns the links of a taken list round: the same nodes, oldest first instead of newest first. */
  method Reverse(first: Awaiter?, ghost nodes: seq<Awaiter>) returns (last: Awaiter?)
    requires Chain(first, nodes)
    modifies nodes
    ensures Chain(last, Rev(nodes))
  {
    if first == null || first.next == null {
      assert nodes != [] ==> nodes[0].next == null;
      assert Rev(nodes) == nodes;
      return first;
    }
    var curr, prev: Awaiter? := first, null;
    ghost var k := 0;
    while curr != null
      invariant 0 <= k <= |nodes|
      invariant curr == if k < |nodes| then nodes[k] else null
      invariant prev == if k > 0 then nodes[k - 1] else null
      invariant forall j {:trigger nodes[j].next} :: 0 <= j < k ==> nodes[j].next == if j > 0 then nodes[j - 1] else null
      invariant forall j {:trigger nodes[j].next} :: k <= j < |nodes| ==> nodes[j].next == if j + 1 < |nodes| then nodes[j + 1] else null
      decreases |nodes| - k
    {
      var next := curr.next;
      curr.next := prev;
      prev := curr;
      curr := next;
      k := k + 1;
    }
    last := prev;
    Turned(last, nodes);
  }

  lemma Turned(last: Awaiter?, nodes: seq<Awaiter>)
    requires Distinct(nodes) && last == (if nodes == [] then null else nodes[|nodes| - 1])
    requires forall j {:trigger nodes[j].next} :: 0 <= j < |nodes| ==> nodes[j].next == if j > 0 then nodes[j - 1] else null
    ensures Chain(last, Rev(nodes))
  {
    var r := Rev(nodes);
    forall i, j | 0 <= i < j < |r|
      ensures r[i] != r[j]
    {
      assert nodes[|nodes| - 1 - j] != nodes[|nodes| - 1 - i];
    }
  }
}
