/**
 The batch semaphore as an object over a real intrusive wait list.  `acquires[id]` and `nodes[id]` are
 the two halves of the waiter inside the id-th `Acquire` future: its counters and its list links.
 */
module Semaphore {
  import opened Wrappers
  import L = LinkedList
  import opened Permits
  import opened PermitTheorems

  class Semaphore {
    var permits: nat
    var closed: bool
    const waiters: L.LinkedList<Id>
    var acquires: seq<Acquire>
    var nodes: seq<L.Node<Id>>

    /** The list links the nodes of this semaphore's futures and nobody else touches them. */
    ghost predicate Valid()
      reads this, waiters, waiters.nodes, nodes
    {
      && waiters.Valid()
      && |nodes| == |acquires|
      && (forall id {:trigger nodes[id]} :: 0 <= id < |nodes| ==> nodes[id].value == id)
      && (forall i {:trigger waiters.nodes[i]} :: 0 <= i < |waiters.nodes| ==>
            waiters.nodes[i].value < |nodes| && nodes[waiters.nodes[i].value] == waiters.nodes[i])
      && (forall id {:trigger nodes[id]} :: 0 <= id < |nodes| ==> nodes[id] in waiters.nodes || nodes[id].Unlinked())
    }

    ghost function Queue(): seq<Id>
      reads waiters
    {
      L.Values(waiters.nodes)
    }

    ghost function View(): Sem
      reads this, waiters
    {
      Sem(permits, closed, Queue(), acquires)
    }

    constructor (permits: nat)
      ensures Valid() && fresh(waiters) && View() == Sem(permits, false, [], [])
    {
      this.permits, closed := permits, false;
      acquires, nodes := [], [];
      waiters := new L.LinkedList();
    }

    method NewAcquire(num: nat) returns (id: Id)
      requires Valid()
      modifies this
      ensures Valid() && View() == New(old(View()), num) && id == old(|acquires|)
    {
      id := |acquires|;
      var node := new L.Node(id);
      nodes := nodes + [node];
      acquires := acquires + [Created(num)];
    }

    /** `Waiter::assign_permits`. */
    method AssignTo(id: Id, n: nat) returns (rem: nat, full: bool)
      requires Valid() && id < |acquires|
      modifies `acquires
      ensures Valid() && acquires == old(acquires)[id := old(acquires[id]).(need := old(acquires[id]).need - Min(old(acquires[id]).need, n))]
      ensures rem == n - Min(old(acquires[id]).need, n) && (full <==> acquires[id].need == 0)
    {
      var a := acquires[id];
      var assign := Min(a.need, n);
      acquires := acquires[id := a.(need := a.need - assign)];
      rem := n - assign;
      full := a.need - assign == 0;
    }

    method TakeWaker(id: Id) returns (woken: seq<Waker>)
      requires Valid() && id < |acquires|
      modifies `acquires
      ensures Valid() && acquires == old(acquires)[id := old(acquires[id]).(waker := None)]
      ensures woken == WakerOf(old(acquires[id]))
    {
      var a := acquires[id];
      woken := if a.waker.Some? then [a.waker.value] else [];
      acquires := acquires[id := a.(waker := None)];
    }

    method SetAvailable(n: nat)
      requires Valid()
      modifies `permits
      ensures Valid() && permits == n
    {
      permits := n;
    }

    method SetState(id: Id, a: Acquire)
      requires Valid() && id < |acquires|
      modifies `acquires
      ensures Valid() && acquires == old(acquires)[id := a]
    {
      acquires := acquires[id := a];
    }

    // ----- the wait list -----

    /** The oldest waiter, if any is linked. */
    method LastWaiter() returns (id: Option<Id>)
      requires Valid()
      ensures id == if Queue() == [] then None else Some(Queue()[|Queue()| - 1])
      ensures id.Some? ==> id.value < |acquires|
    {
      var last := waiters.Last();
      id := if last.None? then None else Some(last.value.value);
    }

    method PopWaiter() returns (id: Option<Id>)
      requires Valid()
      modifies waiters, nodes
      ensures Valid()
      ensures old(Queue()) == [] ==> id == None && Queue() == []
      ensures old(Queue()) != [] ==> id == Some(old(Queue()[|Queue()| - 1])) && Queue() == old(Queue()[..|Queue()| - 1])
      ensures id.Some? ==> id.value < |acquires|
    {
      hide L.NextLinks, L.PrevLinks, L.Distinct, L.Values;
      var last := waiters.PopBack();
      id := if last.None? then None else Some(last.value.value);
    }

    method PushWaiter(id: Id)
      requires Valid() && id < |acquires| && id !in Queue()
      modifies waiters, nodes
      ensures Valid() && Queue() == [id] + old(Queue())
    {
      waiters.PushFront(nodes[id]);
      assert waiters.nodes[1..] == old(waiters.nodes);
    }

    method RemoveWaiter(id: Id)
      requires Valid() && id < |acquires|
      modifies waiters, nodes
      ensures Valid() && Queue() == L.Without(old(Queue()), id)
    {
      hide L.NextLinks, L.PrevLinks, L.Distinct, L.Values, L.Without;
      L.ValuesWithout(waiters.nodes, nodes[id]);
      L.WithoutMembers(waiters.nodes, nodes[id]);
      var _ := waiters.Remove(nodes[id]);
      assert forall i :: 0 <= i < |waiters.nodes| ==> waiters.nodes[i] in old(waiters.nodes);
    }

    // ----- operations -----

    /** Offers `n` permits to the oldest waiter, and pops it and takes its waker if it lacks none any more. */
    method ServeOldest(id: Id, n: nat) returns (rem: nat, full: bool, woken: seq<Waker>)
      requires Valid() && WellFormed(View()) && Queue() != [] && id == Oldest(View())
      modifies this, waiters, nodes
      ensures Valid() && nodes == old(nodes) && View() == AssignOldest(old(View()), n) && WellFormed(View())
      ensures full <==> old(acquires[id]).need <= n
      ensures rem == n - Min(old(acquires[id]).need, n)
      ensures woken == if full then WakerOf(old(acquires[id])) else []
      ensures full ==> |Queue()| < |old(Queue())|
    {
      hide Valid, Queue;
      woken := [];
      rem, full := AssignTo(id, n);
      if full {
        var popped := PopWaiter();
        woken := TakeWaker(popped.value);
      }
    }

    /** `add_permits_locked`: waiters are served oldest first, what is left becomes available. */
    method AddPermitsLocked(added: nat) returns (woken: seq<Waker>)
      requires Valid() && WellFormed(View())
      modifies this, waiters, nodes
      ensures Valid() && nodes == old(nodes)
      ensures (View(), woken) == AddPermits(old(View()), added)
    {
      hide Valid, Queue, Assign, AssignOldest;
      var rem := added;
      woken := [];
      var isEmpty := false;
      ghost var final := Assign(View(), added);
      while rem > 0
        invariant Valid() && nodes == old(nodes) && WellFormed(View())
        invariant rem > 0 ==> !isEmpty
        invariant if rem == 0 then (View(), woken) == AddPermits(old(View()), added)
                  else rem == added && View() == old(View()) && woken == []
      {
        while true
          invariant Valid() && nodes == old(nodes) && WellFormed(View())
          invariant !isEmpty
          invariant Assign(View(), rem).0 == final.0 && woken + Assign(View(), rem).1 == final.1
          decreases |Queue()|
        {
          AssignUnfolds(View(), rem, woken);
          var last := LastWaiter();
          if last.None? {
            isEmpty := true;
            break;
          }
          var full, waker;
          rem, full, waker := ServeOldest(last.value, rem);
          if !full { break; }
          woken := woken + waker;
        }
        if rem > 0 && isEmpty {
          SetAvailable(permits + rem);
          rem := 0;
        }
      }
    }

    method Release(added: nat) returns (woken: seq<Waker>)
      requires Valid() && SemOk(View())
      modifies this, waiters, nodes
      ensures Valid() && SemOk(View()) && nodes == old(nodes)
      ensures (View(), woken) == AddPermits(old(View()), added)
    {
      hide Valid, Queue;
      AddPermitsOk(View(), added);
      if added == 0 { return []; }
      woken := AddPermitsLocked(added);
    }

    method TryAcquire(n: nat) returns (result: TryResult)
      requires Valid() && SemOk(View())
      modifies `permits
      ensures Valid() && SemOk(View())
      ensures (View(), result) == Permits.TryAcquire(old(View()), n)
    {
      hide Valid, Queue;
      if closed { return TryClosed; }
      if permits < n { return NoPermits; }
      SetAvailable(permits - n);
      result := Acquired;
    }

    /** `poll_acquire`, with what `Acquire::poll` does to `queued`. */
    method PollAcquire(id: Id, waker: Waker) returns (result: PollResult, woken: seq<Waker>)
      requires Valid() && SemOk(View()) && CanPoll(View(), id)
      modifies this, waiters, nodes
      ensures Valid() && SemOk(View()) && nodes == old(nodes)
      ensures (View(), result, woken) == Poll(old(View()), id, waker)
    {
      hide Valid, Queue, SemOk;
      PollOk(View(), id, waker);
      SemOkFacts(View(), id);
      woken := [];
      var queued := acquires[id].queued;
      var needed := if queued then acquires[id].need else acquires[id].num;
      if closed {
        SetState(id, acquires[id].(done := true));
        return Closed, [];
      }
      var acquired, remaining := needed, 0;
      if permits < needed {
        acquired, remaining := permits, needed - permits;
      }
      SetAvailable(permits - acquired);
      if remaining == 0 && !queued {
        SetState(id, acquires[id].(done := true));
        return Ok, [];
      }
      var full;
      acquired, full := AssignTo(id, acquired);
      if full {
        SetState(id, acquires[id].(queued := false, done := true));
        assert acquires == old(acquires)[id := old(acquires[id]).(need := 0, queued := false, done := true)];
        woken := AddPermitsLocked(acquired);
        return Ok, woken;
      }
      assert acquired == 0;
      SetState(id, acquires[id].(waker := Some(waker), queued := true));
      assert acquires == old(acquires)[id := acquires[id]];
      if !queued {
        PushWaiter(id);
      }
      result := Pending;
    }

    /** `Acquire::drop`; removing a waiter that was unlinked before changes nothing in the list. */
    method DropAcquire(id: Id) returns (woken: seq<Waker>)
      requires Valid() && SemOk(View()) && id < |acquires|
      modifies this, waiters, nodes
      ensures Valid() && SemOk(View()) && nodes == old(nodes)
      ensures old(AcquireOk(acquires[id])) && (View(), woken) == Drop(old(View()), id)
    {
      hide Valid, Queue, SemOk;
      DropOk(View(), id);
      SemOkFacts(View(), id);
      var a := acquires[id];
      SetState(id, a.(dropped := true, queued := false));
      if !a.queued { return []; }
      UnlinkOk(old(View()), id);
      RemoveWaiter(id);
      SemOkFacts(View(), id);
      var acquired := a.num - a.need;
      woken := [];
      if acquired > 0 {
        woken := AddPermitsLocked(acquired);
      }
    }

    method Close() returns (woken: seq<Waker>)
      requires Valid() && SemOk(View())
      modifies this, waiters, nodes
      ensures Valid() && SemOk(View()) && nodes == old(nodes)
      ensures (View(), woken) == CloseAll(old(View()))
    {
      hide Valid, Queue, SemOk, CloseAll;
      SemOkFacts(View(), 0);
      CloseOk(View());
      CloseStarts(View());
      MarkClosed();
      woken := [];
      ghost var final := CloseAll(old(View()));
      while true
        invariant Valid() && nodes == old(nodes) && WellFormed(View())
        invariant CloseAll(View()).0 == final.0 && woken + CloseAll(View()).1 == final.1
        invariant closed
        decreases |Queue()|
      {
        CloseUnfolds(View(), woken);
        var popped := PopWaiter();
        if popped.None? { break; }
        var waker := TakeWaker(popped.value);
        woken := woken + waker;
      }
    }

    method MarkClosed()
      requires Valid()
      modifies `closed
      ensures Valid() && closed
    {
      closed := true;
    }
  }

  /** One round of the loop, for the state reached and the wakers collected so far. */
  lemma AssignUnfolds(s: Sem, rem: nat, woken: seq<Waker>)
    requires WellFormed(s)
    ensures woken + [] == woken
    ensures s.queue == [] ==> Assign(s, rem) == (s.(permits := s.permits + rem), [])
    ensures s.queue != [] ==>
      var need := s.acquires[Oldest(s)].need;
      var t := AssignOldest(s, rem);
      if need > rem then Assign(s, rem) == (t, [])
      else Assign(s, rem).0 == Assign(t, rem - need).0
           && woken + Assign(s, rem).1 == (woken + WakerOf(s.acquires[Oldest(s)])) + Assign(t, rem - need).1
  {
  }

  lemma CloseStarts(s: Sem)
    requires WellFormed(s)
    ensures CloseAll(s.(closed := true)) == CloseAll(s)
  {
    if s.queue != [] {
      var a := s.acquires[Oldest(s)];
      assert Unlink(s.(closed := true), a.(waker := None)).(closed := true) == Unlink(s, a.(waker := None)).(closed := true);
    }
  }

  lemma CloseUnfolds(s: Sem, woken: seq<Waker>)
    requires WellFormed(s) && s.closed
    ensures woken + [] == woken
    ensures s.queue == [] ==> CloseAll(s) == (s, [])
    ensures s.queue != [] ==>
      var a := s.acquires[Oldest(s)];
      var t := Unlink(s, a.(waker := None));
      CloseAll(s).0 == CloseAll(t).0 && woken + CloseAll(s).1 == (woken + WakerOf(a)) + CloseAll(t).1
  {
    if s.queue != [] {
      var a := s.acquires[Oldest(s)];
      assert Unlink(s, a.(waker := None)).(closed := true) == Unlink(s, a.(waker := None));
    }
  }

  lemma SemOkFacts(s: Sem, id: Id)
    requires SemOk(s)
    ensures WellFormed(s)
    ensures id < |s.acquires| ==> AcquireOk(s.acquires[id])
    ensures id < |s.acquires| && id in s.queue ==> s.acquires[id].queued
  {
    if id in s.queue { LinkedIsQueued(s, id); }
  }
}
