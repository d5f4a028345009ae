/**
 What the semaphore promises over every run: permits are conserved, nobody barges past a waiter, and
 waiters are served oldest first.
 */
module PermitTheorems {
  import opened Wrappers
  import opened LinkedList
  import opened Permits

  // ----- the invariant -----

  predicate AcquireOk(a: Acquire) {
    && a.need <= a.num
    && (!a.queued && !a.done && !a.dropped ==> a.need == a.num)
    && (a.dropped ==> !a.queued)
  }

  /** A linked waiter still needs a permit and has a waker to be woken with. */
  predicate LinkedOk(a: Acquire) { a.queued && !a.dropped && !a.done && a.need > 0 && a.waker.Some? }

  ghost predicate SemOk(s: Sem) {
    && WellFormed(s)
    && Distinct(s.queue)
    && (s.queue != [] ==> s.permits == 0 && !s.closed)
    && (forall id | 0 <= id < |s.acquires| :: AcquireOk(s.acquires[id]))
    && (forall i | 0 <= i < |s.queue| :: LinkedOk(s.acquires[s.queue[i]]))
    && (forall i | 0 <= i < |s.queue| - 1 :: s.acquires[s.queue[i]].need == s.acquires[s.queue[i]].num)
    && (!s.closed ==> forall id | 0 <= id < |s.acquires| :: s.acquires[id].queued && s.acquires[id].need > 0 ==> id in s.queue)
  }

  // ----- conservation -----

  /** The permits a queued future has been assigned and not yet been granted. */
  function Assigned(a: Acquire): nat
    requires AcquireOk(a)
  {
    if a.queued then a.num - a.need else 0
  }

  ghost function Sum(acquires: seq<Acquire>): nat
    requires forall id | 0 <= id < |acquires| :: AcquireOk(acquires[id])
  {
    if acquires == [] then 0
    else Sum(acquires[..|acquires| - 1]) + Assigned(acquires[|acquires| - 1])
  }

  lemma {:induction false} SumUpdate(acquires: seq<Acquire>, id: Id, a: Acquire)
    requires forall i | 0 <= i < |acquires| :: AcquireOk(acquires[i])
    requires id < |acquires| && AcquireOk(a)
    ensures Sum(acquires[id := a]) == Sum(acquires) - Assigned(acquires[id]) + Assigned(a)
  {
    var n := |acquires| - 1;
    if id == n {
      assert acquires[id := a][..n] == acquires[..n];
    } else {
      SumUpdate(acquires[..n], id, a);
      assert acquires[id := a][..n] == acquires[..n][id := a];
    }
  }

  /** Available permits and those assigned to waiters. */
  ghost function Total(s: Sem): nat
    requires SemOk(s)
  {
    s.permits + Sum(s.acquires)
  }

  /** Handing permits to the oldest waiter keeps the invariant; it takes what it lacks at most. */
  lemma AssignOldestOk(s: Sem, rem: nat)
    requires SemOk(s) && s.queue != []
    ensures SemOk(AssignOldest(s, rem))
    ensures Total(AssignOldest(s, rem)) == Total(s) + Min(s.acquires[Oldest(s)].need, rem)
  {
    var id := Oldest(s);
    var a := s.acquires[id];
    var t := AssignOldest(s, rem);
    SumUpdate(s.acquires, id, t.acquires[id]);
  }

  lemma {:induction false} AssignOk(s: Sem, rem: nat)
    requires SemOk(s)
    ensures SemOk(Assign(s, rem).0)
    ensures Total(Assign(s, rem).0) == Total(s) + rem
    decreases |s.queue|
  {
    if s.queue != [] {
      AssignOldestOk(s, rem);
      var a := s.acquires[Oldest(s)];
      if a.need <= rem {
        AssignOk(AssignOldest(s, rem), rem - a.need);
      }
    }
  }

  lemma AddPermitsOk(s: Sem, rem: nat)
    requires SemOk(s)
    ensures SemOk(AddPermits(s, rem).0)
    ensures Total(AddPermits(s, rem).0) == Total(s) + rem
  {
    AssignOk(s, rem);
    hide SemOk;
  }

  lemma NewOk(s: Sem, num: nat)
    requires SemOk(s)
    ensures SemOk(New(s, num)) && Total(New(s, num)) == Total(s)
  {
    var t := New(s, num);
    assert t.acquires[..|s.acquires|] == s.acquires;
  }

  /** A change to one future that is not linked, and to the permits, keeps the invariant. */
  lemma SetOk(s: Sem, id: Id, a: Acquire, permits: nat)
    requires SemOk(s) && id < |s.acquires| && id !in s.queue
    requires AcquireOk(a) && (a.queued && a.need > 0 ==> s.closed)
    requires s.queue != [] ==> permits == 0
    ensures SemOk(SetAcquire(s, id, a).(permits := permits))
  {
  }

  /** A waiter that is already linked only gets a new waker. */
  lemma RewakeOk(s: Sem, id: Id, waker: Waker)
    requires SemOk(s) && id in s.queue
    ensures id < |s.acquires| && SemOk(SetAcquire(s, id, s.acquires[id].(waker := Some(waker))))
  {
    var i :| 0 <= i < |s.queue| && s.queue[i] == id;
    assert LinkedOk(s.acquires[s.queue[i]]);
  }

  /** A future that finds too few permits takes them all and joins the list as its newest waiter. */
  lemma EnqueueOk(s: Sem, id: Id, waker: Waker)
    requires SemOk(s) && CanPoll(s, id) && !s.closed && !s.acquires[id].queued && s.permits < s.acquires[id].num
    ensures var a := s.acquires[id];
      SemOk(SetAcquire(s, id, a.(need := a.num - s.permits, waker := Some(waker), queued := true)).(
              permits := 0, queue := [id] + s.queue))
  {
    var a := s.acquires[id];
    var b := a.(need := a.num - s.permits, waker := Some(waker), queued := true);
    var t := SetAcquire(s, id, b).(permits := 0, queue := [id] + s.queue);
    assert id !in s.queue;
    assert t.queue[1..] == s.queue;
    assert forall i | 1 <= i < |t.queue| :: t.queue[i] == s.queue[i - 1];
  }

  /** The three ways a poll can go. */
  lemma PollCases(s: Sem, id: Id, waker: Waker)
    requires SemOk(s) && CanPoll(s, id)
    ensures var (t, result, woken) := Poll(s, id, waker);
      var a := s.acquires[id];
      && woken == []
      && (s.closed ==> result == Closed && t == SetAcquire(s, id, a.(done := true)))
      && (!s.closed && a.queued && id in s.queue ==>
            result == Pending && t == SetAcquire(s, id, a.(waker := Some(waker))))
      && (!s.closed && a.queued && id !in s.queue ==>
            result == Ok && a.need == 0 && t == SetAcquire(s, id, a.(queued := false, done := true)))
      && (!s.closed && !a.queued && s.permits < a.num ==>
            && result == Pending
            && t == SetAcquire(s, id, a.(need := a.num - s.permits, waker := Some(waker), queued := true)).(
                      permits := 0, queue := [id] + s.queue))
      && (!s.closed && !a.queued && a.num <= s.permits ==>
            result == Ok && t == SetAcquire(s, id, a.(done := true)).(permits := s.permits - a.num))
  {
    if id in s.queue {
      var i :| 0 <= i < |s.queue| && s.queue[i] == id;
      assert LinkedOk(s.acquires[s.queue[i]]);
    }
  }

  /** A poll that returns Ok takes exactly `num` permits out; any other poll takes none. */
  lemma PollOk(s: Sem, id: Id, waker: Waker)
    requires SemOk(s) && CanPoll(s, id)
    ensures SemOk(Poll(s, id, waker).0)
    ensures Total(Poll(s, id, waker).0) + (if Poll(s, id, waker).1 == Ok then s.acquires[id].num else 0) == Total(s)
  {
    var a := s.acquires[id];
    assert AcquireOk(a);
    PollCases(s, id, waker);
    var t := Poll(s, id, waker).0;
    if s.closed {
      SetOk(s, id, a.(done := true), s.permits);
    } else if id in s.queue {
      LinkedIsQueued(s, id);
      RewakeOk(s, id, waker);
    } else if a.queued {
      SetOk(s, id, a.(queued := false, done := true), s.permits);
    } else if s.permits < a.num {
      EnqueueOk(s, id, waker);
    } else {
      ImmediateOk(s, id);
    }
    SumUpdate(s.acquires, id, t.acquires[id]);
    hide Poll;
  }

  lemma LinkedIsQueued(s: Sem, id: Id)
    requires SemOk(s) && id in s.queue
    ensures id < |s.acquires| && LinkedOk(s.acquires[id]) && s.permits == 0 && !s.closed
  {
    var i :| 0 <= i < |s.queue| && s.queue[i] == id;
    assert LinkedOk(s.acquires[s.queue[i]]);
  }

  /** A first poll that finds enough: with waiters linked nothing is available, so it asked for nothing. */
  lemma ImmediateOk(s: Sem, id: Id)
    requires SemOk(s) && CanPoll(s, id) && !s.closed && !s.acquires[id].queued && s.acquires[id].num <= s.permits
    ensures SemOk(SetAcquire(s, id, s.acquires[id].(done := true)).(permits := s.permits - s.acquires[id].num))
  {
    if id in s.queue { LinkedIsQueued(s, id); }
    SetOk(s, id, s.acquires[id].(done := true), s.permits - s.acquires[id].num);
  }

  /** For an open semaphore: a queued future is done exactly when it has been unlinked; a new one if enough is there. */
  lemma PollResults(s: Sem, id: Id, waker: Waker)
    requires SemOk(s) && CanPoll(s, id)
    ensures Poll(s, id, waker).1 == Closed <==> s.closed
    ensures Poll(s, id, waker).1 == Ok <==>
      !s.closed && (if s.acquires[id].queued then id !in s.queue else s.acquires[id].num <= s.permits)
  {
    PollCases(s, id, waker);
    hide Poll;
  }

  lemma RestOf(q: seq<Id>, i: nat)
    requires i < |q| && Distinct(q)
    ensures var rest := q[..i] + q[i + 1..];
      && Distinct(rest)
      && (forall k | 0 <= k < |rest| :: rest[k] == (if k < i then q[k] else q[k + 1]) && rest[k] != q[i])
      && (forall id | id in q && id != q[i] :: id in rest)
  {
    var rest := q[..i] + q[i + 1..];
    forall id | id in q && id != q[i] ensures id in rest {
      var k := IndexOf(q, id);
      assert rest[if k < i then k else k - 1] == id;
    }
  }

  /** Unlinking a waiter leaves the others in order; only the new oldest was the oldest before. */
  lemma UnlinkAtOk(s: Sem, i: nat)
    requires SemOk(s) && i < |s.queue|
    ensures var id := s.queue[i];
      && SemOk(SetAcquire(s, id, s.acquires[id].(dropped := true, queued := false)).(queue := s.queue[..i] + s.queue[i + 1..]))
  {
    RestOf(s.queue, i);
    hide Distinct;
  }

  lemma UnlinkOk(s: Sem, id: Id)
    requires SemOk(s) && id < |s.acquires| && s.acquires[id].queued
    ensures SemOk(SetAcquire(s, id, s.acquires[id].(dropped := true, queued := false)).(queue := Without(s.queue, id)))
  {
    var b := s.acquires[id].(dropped := true, queued := false);
    assert AcquireOk(s.acquires[id]);
    if id in s.queue {
      var i := IndexOf(s.queue, id);
      WithoutAt(s.queue, i);
      UnlinkAtOk(s, i);
    } else {
      WithoutAbsent(s.queue, id);
      SetOk(s, id, b, s.permits);
    }
    hide SemOk;
  }

  lemma UnqueuedDropOk(s: Sem, id: Id)
    requires SemOk(s) && id < |s.acquires| && !s.acquires[id].queued
    ensures SemOk(SetAcquire(s, id, s.acquires[id].(dropped := true, queued := false)))
  {
    if id in s.queue { LinkedIsQueued(s, id); }
    SetOk(s, id, s.acquires[id].(dropped := true, queued := false), s.permits);
    assert s.(permits := s.permits) == s;
  }

  lemma AllAcquiresOk(s: Sem)
    requires SemOk(s)
    ensures forall id | 0 <= id < |s.acquires| :: AcquireOk(s.acquires[id])
  {
  }

  lemma DropOk(s: Sem, id: Id)
    requires SemOk(s) && id < |s.acquires|
    ensures AcquireOk(s.acquires[id]) && SemOk(Drop(s, id).0) && Total(Drop(s, id).0) == Total(s)
  {
    hide SemOk;
    AllAcquiresOk(s);
    var a := s.acquires[id];
    SumUpdate(s.acquires, id, a.(dropped := true, queued := false));
    if a.queued {
      UnlinkOk(s, id);
      AddPermitsOk(SetAcquire(s, id, a.(dropped := true, queued := false)).(queue := Without(s.queue, id)), a.num - a.need);
    } else {
      UnqueuedDropOk(s, id);
    }
  }

  lemma TryAcquireOk(s: Sem, n: nat)
    requires SemOk(s)
    ensures SemOk(TryAcquire(s, n).0)
    ensures Total(TryAcquire(s, n).0) + (if TryAcquire(s, n).1 == Acquired then n else 0) == Total(s)
  {
  }

  lemma {:induction false} SumSame(a: seq<Acquire>, b: seq<Acquire>)
    requires |a| == |b| && forall i | 0 <= i < |a| :: AcquireOk(a[i]) && AcquireOk(b[i]) && Assigned(a[i]) == Assigned(b[i])
    ensures Sum(a) == Sum(b)
  {
    if a != [] {
      SumSame(a[..|a| - 1], b[..|b| - 1]);
    }
  }

  /** Close unlinks everybody and takes their wakers; nothing else changes. */
  lemma {:induction false} CloseUnlinks(s: Sem)
    requires WellFormed(s)
    ensures var t := CloseAll(s).0;
      && t.closed && t.queue == [] && t.permits == s.permits && |t.acquires| == |s.acquires|
      && forall id | 0 <= id < |s.acquires| :: t.acquires[id] == s.acquires[id].(waker := t.acquires[id].waker)
    decreases |s.queue|
  {
    if s.queue != [] {
      CloseUnlinks(Unlink(s, s.acquires[Oldest(s)].(waker := None)).(closed := true));
    }
  }

  lemma CloseOk(s: Sem)
    requires SemOk(s)
    ensures SemOk(CloseAll(s).0) && Total(CloseAll(s).0) == Total(s)
  {
    CloseUnlinks(s);
    SumSame(s.acquires, CloseAll(s).0.acquires);
    hide CloseAll;
  }

  // ----- what every operation leaves alone -----

  /** The same futures asking for the same, those dropped still dropped, in a semaphore as closed or open as before. */
  ghost predicate SameRequests(s: Sem, t: Sem) {
    && t.closed == s.closed
    && |t.acquires| == |s.acquires|
    && forall id {:trigger t.acquires[id]} | 0 <= id < |s.acquires| ::
         t.acquires[id].num == s.acquires[id].num && (s.acquires[id].dropped ==> t.acquires[id].dropped)
  }

  lemma {:induction false} AssignKeepsRequests(s: Sem, rem: nat)
    requires WellFormed(s)
    ensures SameRequests(s, Assign(s, rem).0)
    decreases |s.queue|
  {
    if s.queue != [] {
      assert SameRequests(s, AssignOldest(s, rem));
      if s.acquires[Oldest(s)].need <= rem {
        AssignKeepsRequests(AssignOldest(s, rem), rem - s.acquires[Oldest(s)].need);
      }
    }
  }

  lemma CloseKeepsRequests(s: Sem)
    requires SemOk(s)
    ensures WellFormed(s) && SameRequests(s.(closed := true), CloseAll(s).0)
  {
    CloseUnlinks(s);
  }

  lemma PollKeepsRequests(s: Sem, id: Id, waker: Waker)
    requires SemOk(s) && CanPoll(s, id)
    ensures SameRequests(s, Poll(s, id, waker).0)
  {
    PollCases(s, id, waker);
    hide Poll;
  }

  lemma DropKeepsRequests(s: Sem, id: Id)
    requires SemOk(s) && id < |s.acquires|
    ensures AcquireOk(s.acquires[id]) && SameRequests(s, Drop(s, id).0)
  {
    hide SemOk;
    AllAcquiresOk(s);
    var a := s.acquires[id];
    if a.queued {
      UnlinkOk(s, id);
      var t := SetAcquire(s, id, a.(dropped := true, queued := false)).(queue := Without(s.queue, id));
      IsWellFormed(s);
      IsWellFormed(t);
      AssignKeepsRequests(t, a.num - a.need);
    }
  }

  lemma IsWellFormed(s: Sem)
    requires SemOk(s)
    ensures WellFormed(s)
  {
  }
}
