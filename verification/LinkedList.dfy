/**
 The intrusive doubly linked list (`util/linked_list.rs`): nodes carry their own links, so a caller can
 remove a node it holds without searching.  The list refines the sequence `nodes`, front to back.
 */
module LinkedList {
  import opened Wrappers

  /** The sequence without the first occurrence of x. */
  function Without<T(==)>(s: seq<T>, x: T): seq<T> {
    if s == [] then [] else if s[0] == x then s[1..] else [s[0]] + Without(s[1..], x)
  }

  ghost predicate Distinct<T>(s: seq<T>) {
    forall i, j :: 0 <= i < j < |s| ==> s[i] != s[j]
  }

  lemma {:induction false} WithoutAt<T>(s: seq<T>, i: nat)
    requires i < |s| && Distinct(s)
    ensures Without(s, s[i]) == s[..i] + s[i + 1..]
  {
    if i > 0 {
      assert s[1..][i - 1] == s[i];
      WithoutAt(s[1..], i - 1);
      assert s[..i] + s[i + 1..] == [s[0]] + (s[1..][..i - 1] + s[1..][i..]);
    }
  }

  lemma {:induction false} WithoutAbsent<T>(s: seq<T>, x: T)
    requires x !in s
    ensures Without(s, x) == s
  {
    if s != [] {
      WithoutAbsent(s[1..], x);
      assert s == [s[0]] + s[1..];
    }
  }

  lemma {:induction false} WithoutMembers<T>(s: seq<T>, x: T)
    ensures forall y :: y in Without(s, x) ==> y in s
    ensures forall y :: y in s && y != x ==> y in Without(s, x)
  {
    if s != [] && s[0] != x {
      WithoutMembers(s[1..], x);
      assert s == [s[0]] + s[1..];
    }
  }

  lemma {:induction false} WithoutDistinct<T>(s: seq<T>, x: T)
    requires Distinct(s)
    ensures Distinct(Without(s, x)) && x !in Without(s, x)
  {
    if s != [] && s[0] != x {
      WithoutDistinct(s[1..], x);
      WithoutMembers(s[1..], x);
      assert s[0] !in s[1..];
    }
  }

  class Node<T> {
    const value: T
    var prev: Node?<T>
    var next: Node?<T>

    constructor (value: T)
      ensures this.value == value && Unlinked()
    {
      this.value := value;
      prev, next := null, null;
    }

    /** Not the middle of any list: what a new node, a popped node and a removed node look like. */
    predicate Unlinked()
      reads this
    {
      prev == null && next == null
    }
  }

  class LinkedList<T> {
    var head: Node?<T>
    var tail: Node?<T>
    ghost var nodes: seq<Node<T>>

    ghost predicate Valid()
      reads this, nodes
    {
      && Distinct(nodes)
      && head == At(nodes, 0)
      && tail == At(nodes, |nodes| - 1)
      && NextLinks(nodes, |nodes| + 1) && PrevLinks(nodes, |nodes| + 1)
    }

    constructor ()
      ensures Valid() && nodes == []
    {
      head, tail := null, null;
      nodes := [];
    }

    method PushFront(node: Node<T>)
      requires Valid() && node !in nodes
      modifies this, node, nodes
      ensures Valid() && nodes == [node] + old(nodes)
    {
      assert head != node;
      node.next := head;
      node.prev := null;
      if head != null {
        head.prev := node;
      }
      head := node;
      if tail == null {
        tail := node;
      }
      nodes := [node] + nodes;
    }

    method PopBack() returns (last: Option<Node<T>>)
      requires Valid()
      modifies this, nodes
      ensures Valid()
      ensures old(nodes) == [] ==> last == None && nodes == []
      ensures old(nodes) != [] ==>
        && nodes == old(nodes)[..|old(nodes)| - 1]
        && last == Some(old(nodes)[|old(nodes)| - 1])
        && last.value.Unlinked() && last.value !in nodes
    {
      if tail == null { return None; }
      var node := tail;
      tail := node.prev;
      if node.prev != null {
        node.prev.next := null;
      } else {
        head := null;
      }
      node.prev := null;
      node.next := null;
      ghost var was := nodes;
      nodes := was[..|was| - 1];
      assert head == At(nodes, 0);
      assert tail == At(nodes, |nodes| - 1);
      last := Some(node);
    }

    method IsEmpty() returns (empty: bool)
      requires Valid()
      ensures empty <==> nodes == []
    {
      if head != null { return false; }
      assert tail == null;
      empty := true;
    }

    method Last() returns (last: Option<Node<T>>)
      requires Valid()
      ensures last == if nodes == [] then None else Some(nodes[|nodes| - 1])
    {
      last := if tail == null then None else Some(tail);
    }

    /**
     The node is in this list or in none.  Removing a node that was popped or removed before changes
     nothing.
     */
    method Remove(node: Node<T>) returns (removed: Option<Node<T>>)
      requires Valid() && (node in nodes || node.Unlinked())
      modifies this, node, nodes
      ensures Valid() && nodes == Without(old(nodes), node) && node.Unlinked()
      ensures removed == if node in old(nodes) then Some(node) else None
      ensures node !in old(nodes) ==> unchanged(this) && unchanged(node) && unchanged(old(nodes))
    {
      hide Distinct, Without;
      ghost var was := nodes;
      ghost var i := if node in was then IndexOf(was, node) else 0;
      var found := SpliceForward(node, i);
      if !found {
        WithoutAbsent(was, node);
        return None;
      }
      SpliceBackward(node, i);
      OnlyAt(was, i);
      WithoutAt(was, i);
      node.next := null;
      node.prev := null;
      Unspliced(was, i);
      nodes := was[..i] + was[i + 1..];
      assert head == At(nodes, 0);
      assert tail == At(nodes, |nodes| - 1);
      removed := Some(node);
    }

    /** The forward chain now passes the node by; false if the node is neither linked nor the head. */
    method SpliceForward(node: Node<T>, ghost i: nat) returns (found: bool)
      requires Valid() && (node in nodes || node.Unlinked())
      requires node in nodes ==> i < |nodes| && nodes[i] == node
      modifies `head, nodes
      ensures nodes == old(nodes) && found == (node in nodes)
      ensures !found ==> Valid() && unchanged(nodes) && unchanged(this)
      ensures found ==> head == At(nodes, if i == 0 then 1 else 0) && NextLinks(nodes, i)
      ensures found ==> PrevLinks(nodes, |nodes| + 1)
    {
      assert node in nodes ==> nodes[i].prev == At(nodes, i - 1) && nodes[i].next == At(nodes, i + 1);
      if node.prev != null {
        assert i > 0 && node.prev == nodes[i - 1];
        assert node.prev.next == node;
        node.prev.next := node.next;
      } else {
        assert node in nodes ==> i == 0;
        if head != node { return false; }
        head := node.next;
      }
      found := true;
    }

    /** The backward chain now passes the node by. */
    method SpliceBackward(node: Node<T>, ghost i: nat)
      requires i < |nodes| && nodes[i] == node && Distinct(nodes) && NextLinks(nodes, i)
      requires tail == At(nodes, |nodes| - 1)
      requires PrevLinks(nodes, |nodes| + 1)
      modifies `tail, nodes
      ensures tail == (if i == |nodes| - 1 then At(nodes, i - 1) else At(nodes, |nodes| - 1))
      ensures NextLinks(nodes, i) && PrevLinks(nodes, i)
    {
      assert nodes[i].prev == At(nodes, i - 1) && nodes[i].next == At(nodes, i + 1);
      if node.next != null {
        assert i + 1 < |nodes| && node.next == nodes[i + 1];
        assert node.next.prev == node;
        node.next.prev := node.prev;
      } else {
        assert tail == node;
        tail := node.prev;
      }
    }
  }

  /** The links of a chain that passes its i-th node by; with i beyond the chain, of the whole chain. */
  ghost predicate NextLinks<T>(nodes: seq<Node<T>>, i: nat)
    reads nodes
  {
    forall k {:trigger nodes[k].next} :: 0 <= k < |nodes| ==> nodes[k].next == At(nodes, if k + 1 == i then i + 1 else k + 1)
  }

  ghost predicate PrevLinks<T>(nodes: seq<Node<T>>, i: nat)
    reads nodes
  {
    forall k {:trigger nodes[k].prev} :: 0 <= k < |nodes| ==> nodes[k].prev == At(nodes, if k == i + 1 then i - 1 else k - 1)
  }

  lemma OnlyAt<T>(s: seq<T>, i: nat)
    requires i < |s| && Distinct(s)
    ensures forall k :: 0 <= k < |s| && k != i ==> s[k] != s[i]
  {
  }

  /** Giving the neighbours of a node each other's address takes the node out of the chain. */
  lemma Unspliced<T>(was: seq<Node<T>>, i: nat)
    requires i < |was| && Distinct(was)
    requires forall k {:trigger was[k].next} :: 0 <= k < |was| && k != i ==> was[k].next == At(was, if k + 1 == i then i + 1 else k + 1)
    requires forall k {:trigger was[k].prev} :: 0 <= k < |was| && k != i ==> was[k].prev == At(was, if k == i + 1 then i - 1 else k - 1)
    ensures var rest := was[..i] + was[i + 1..];
      Distinct(rest) && NextLinks(rest, |rest| + 1) && PrevLinks(rest, |rest| + 1)
  {
  }

  /** The i-th node, or null beyond either end. */
  ghost function At<T>(nodes: seq<Node<T>>, i: int): Node?<T> {
    if 0 <= i < |nodes| then nodes[i] else null
  }

  ghost function IndexOf<T>(s: seq<T>, x: T): (i: nat)
    requires x in s
    ensures i < |s| && s[i] == x
  {
    var i :| 0 <= i < |s| && s[i] == x;
    i
  }

  /** What the nodes hold, in list order. */
  function Values<T>(nodes: seq<Node<T>>): (values: seq<T>)
    ensures |values| == |nodes| && forall i :: 0 <= i < |nodes| ==> values[i] == nodes[i].value
  {
    if nodes == [] then [] else [nodes[0].value] + Values(nodes[1..])
  }

  /** Taking a node out takes its value out, if no other node holds that value. */
  lemma {:induction false} ValuesWithout<T>(nodes: seq<Node<T>>, node: Node<T>)
    requires forall other | other in nodes :: other.value == node.value ==> other == node
    ensures Values(Without(nodes, node)) == Without(Values(nodes), node.value)
  {
    if nodes != [] {
      assert nodes[0] in nodes;
      assert Values(nodes)[1..] == Values(nodes[1..]);
      if nodes[0] != node {
        ValuesWithout(nodes[1..], node);
        assert Without(nodes, node)[1..] == Without(nodes[1..], node);
      }
    }
  }
}
