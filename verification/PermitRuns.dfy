/**
 Runs of the semaphore: any mix of new futures, polls, cancellations, releases, immediate acquisitions
 and a close.
 */
module PermitRuns {
  import opened Wrappers
  import opened LinkedList
  import opened Permits
  import opened PermitTheorems

  datatype Op =
    | NewOp(num: nat)
    | PollOp(id: Id, waker: Waker)
    | DropOp(id: Id)
    | ReleaseOp(n: nat)
    | TryOp(n: nat)
    | CloseOp

  /** `granted` counts permits handed to callers, `added` those released by them. */
  datatype Ledger = Ledger(sem: Sem, granted: nat, added: nat)

  predicate CanStep(s: Sem, op: Op) {
    match op
    case PollOp(id, _) => CanPoll(s, id)
    case DropOp(id) => id < |s.acquires| && !s.acquires[id].dropped && s.acquires[id].need <= s.acquires[id].num
    case _ => true
  }

  function Step(s: Sem, op: Op): Sem
    requires WellFormed(s) && CanStep(s, op)
  {
    match op
    case NewOp(num) => New(s, num)
    case PollOp(id, waker) => Poll(s, id, waker).0
    case DropOp(id) => Drop(s, id).0
    case ReleaseOp(n) => AddPermits(s, n).0
    case TryOp(n) => TryAcquire(s, n).0
    case CloseOp => CloseAll(s).0
  }

  function Granted(s: Sem, op: Op): nat
    requires WellFormed(s) && CanStep(s, op)
  {
    match op
    case PollOp(id, waker) => if Poll(s, id, waker).1 == Ok then s.acquires[id].num else 0
    case TryOp(n) => if TryAcquire(s, n).1 == Acquired then n else 0
    case _ => 0
  }

  function Added(op: Op): nat { if op.ReleaseOp? then op.n else 0 }

  /** `Step` is defined on wait lists of futures that exist; that no other is ever reached is part of `Conservation`. */
  ghost predicate IsRun(states: seq<Ledger>, ops: seq<Op>, initial: nat) {
    && |states| == |ops| + 1
    && states[0] == Ledger(Sem(initial, false, [], []), 0, 0)
    && forall i {:trigger ops[i]} :: 0 <= i < |ops| ==>
         && CanStep(states[i].sem, ops[i])
         && (WellFormed(states[i].sem) ==>
               states[i + 1] == Ledger(Step(states[i].sem, ops[i]),
                                       states[i].granted + Granted(states[i].sem, ops[i]),
                                       states[i].added + Added(ops[i])))
  }

  lemma StepOk(s: Sem, op: Op)
    requires SemOk(s) && CanStep(s, op)
    ensures SemOk(Step(s, op)) && Total(Step(s, op)) + Granted(s, op) == Total(s) + Added(op)
  {
    match op {
      case NewOp(num) => NewOk(s, num);
      case PollOp(id, waker) => PollOk(s, id, waker);
      case DropOp(id) => DropOk(s, id);
      case ReleaseOp(n) => AddPermitsOk(s, n);
      case TryOp(n) => TryAcquireOk(s, n);
      case CloseOp => CloseOk(s);
    }
    hide SemOk;
  }

  /**
   Conservation: available permits, permits assigned to queued futures (also those that close evicted
   and that were not dropped yet) and permits granted add up to the initial ones and those released.
   */
  lemma {:induction false} Conservation(states: seq<Ledger>, ops: seq<Op>, initial: nat, i: nat)
    requires IsRun(states, ops, initial) && i < |states|
    ensures SemOk(states[i].sem)
    ensures Total(states[i].sem) + states[i].granted == initial + states[i].added
  {
    if i > 0 {
      Conservation(states, ops, initial, i - 1);
      StepOk(states[i - 1].sem, ops[i - 1]);
    }
  }

  // ----- order -----

  /** While a waiter is linked, nobody else gets a permit: a first poll queues up and try_acquire fails. */
  lemma NoBarging(s: Sem, id: Id, waker: Waker, n: nat)
    requires SemOk(s) && s.queue != [] && n > 0
    ensures TryAcquire(s, n) == (s, NoPermits)
    ensures CanPoll(s, id) && !s.acquires[id].queued && s.acquires[id].num > 0 ==>
      && Poll(s, id, waker).1 == Pending
      && Poll(s, id, waker).0.queue == [id] + s.queue
      && Poll(s, id, waker).0.acquires[id].need == s.acquires[id].num
  {
    if CanPoll(s, id) { PollCases(s, id, waker); }
  }

  /** One round of the assignment touches the oldest waiter only. */
  lemma AssignOldestTouches(s: Sem, rem: nat)
    requires SemOk(s) && s.queue != []
    ensures var u := AssignOldest(s, rem);
      && WellFormed(s) && s.acquires[Oldest(s)].waker.Some?
      && |u.acquires| == |s.acquires| && u.closed == s.closed
      && u.queue == (if s.acquires[Oldest(s)].need > rem then s.queue else s.queue[..|s.queue| - 1])
      && (forall id {:trigger u.acquires[id]} | 0 <= id < |s.acquires| && id != Oldest(s) :: u.acquires[id] == s.acquires[id])
      && (s.acquires[Oldest(s)].need <= rem ==> u.acquires[Oldest(s)].need == 0 && Oldest(s) !in u.queue)
      && (s.acquires[Oldest(s)].need > rem ==> u.permits == 0)
      && (forall i | 0 <= i < |s.queue| :: s.queue[i] < |s.acquires|)
      && (forall i | 0 <= i < |s.queue| - 1 :: s.queue[i] != Oldest(s))
  {
    assert LinkedOk(s.acquires[s.queue[|s.queue| - 1]]);
  }

  /** The wakers returned are those of the waiters that left this list, oldest first. */
  ghost predicate WakesOldest(acquires: seq<Acquire>, before: seq<Id>, after: seq<Id>, woken: seq<Waker>) {
    && after <= before && |woken| == |before| - |after|
    && forall k | 0 <= k < |woken| ::
         before[|before| - 1 - k] < |acquires| && Some(woken[k]) == acquires[before[|before| - 1 - k]].waker
  }

  /** The oldest waiter leaves and is woken first, and then those that leave the rest of the list. */
  lemma WakesOneMore(s: Sem, u: Sem, after: seq<Id>, woken: seq<Waker>)
    requires WellFormed(s) && s.queue != [] && s.acquires[Oldest(s)].waker.Some?
    requires u.queue == s.queue[..|s.queue| - 1] && |u.acquires| == |s.acquires|
    requires forall id {:trigger u.acquires[id]} | 0 <= id < |s.acquires| && id != Oldest(s) :: u.acquires[id] == s.acquires[id]
    requires forall i | 0 <= i < |s.queue| - 1 :: s.queue[i] != Oldest(s)
    requires WakesOldest(u.acquires, u.queue, after, woken)
    ensures WakesOldest(s.acquires, s.queue, after, [s.acquires[Oldest(s)].waker.value] + woken)
  {
    var all := [s.acquires[Oldest(s)].waker.value] + woken;
    forall k | 0 <= k < |all|
      ensures s.queue[|s.queue| - 1 - k] < |s.acquires| && Some(all[k]) == s.acquires[s.queue[|s.queue| - 1 - k]].waker
    {
      if k > 0 { assert u.queue[|u.queue| - k] == s.queue[|s.queue| - 1 - k] && all[k] == woken[k - 1]; }
    }
  }

  /** Assigning permits satisfies and wakes the oldest waiters, oldest first; nothing is left over while somebody waits. */
  lemma {:induction false} AssignServes(s: Sem, rem: nat)
    requires SemOk(s)
    ensures var (t, woken) := Assign(s, rem);
      && WakesOldest(s.acquires, s.queue, t.queue, woken)
      && |t.acquires| == |s.acquires| && t.closed == s.closed
      && (t.queue != [] ==> t.permits == 0)
    decreases |s.queue|
  {
    hide SemOk, AssignOldest, WakesOldest;
    if s.queue != [] {
      AssignOldestOk(s, rem);
      AssignOldestTouches(s, rem);
      var a := s.acquires[Oldest(s)];
      var u := AssignOldest(s, rem);
      if a.need <= rem {
        AssignServes(u, rem - a.need);
        WakesOneMore(s, u, Assign(u, rem - a.need).0.queue, Assign(u, rem - a.need).1);
      } else {
        WakesNobody(s.acquires, s.queue);
      }
    } else {
      WakesNobody(s.acquires, []);
    }
  }

  lemma WakesNobody(acquires: seq<Acquire>, queue: seq<Id>)
    ensures WakesOldest(acquires, queue, queue, [])
  {
  }

  /** A release wakes whom it satisfies, oldest first; one of nothing does nothing. */
  lemma ReleaseWakes(s: Sem, n: nat)
    requires SemOk(s)
    ensures var (t, woken) := AddPermits(s, n);
      WakesOldest(s.acquires, s.queue, t.queue, woken) && (n == 0 ==> t == s) && (t.queue != [] && n > 0 ==> t.permits == 0)
  {
    AssignServes(s, n);
    hide SemOk, Assign;
  }

  /** A future that is dropped hands on what it was assigned, and that wakes the oldest of the others it satisfies. */
  lemma DropWakes(s: Sem, id: Id)
    requires SemOk(s) && id < |s.acquires|
    ensures AcquireOk(s.acquires[id])
    ensures var (t, woken) := Drop(s, id);
      && (!s.acquires[id].queued ==> woken == [] && t.queue == s.queue && t.permits == s.permits)
      && (s.acquires[id].queued ==> WakesOldest(s.acquires, Without(s.queue, id), t.queue, woken))
  {
    hide SemOk, Assign, WakesOldest;
    AllAcquiresOk(s);
    var a := s.acquires[id];
    if a.queued {
      var t := SetAcquire(s, id, a.(dropped := true, queued := false)).(queue := Without(s.queue, id));
      UnlinkOk(s, id);
      ReleaseWakes(t, a.num - a.need);
      IsWellFormed(s);
      IsWellFormed(t);
      QueueDistinct(s);
      WithoutDistinct(s.queue, id);
      WakesSame(t.acquires, s.acquires, t.queue, Drop(s, id).0.queue, Drop(s, id).1, id);
    }
  }

  lemma WakesSame(a: seq<Acquire>, b: seq<Acquire>, before: seq<Id>, after: seq<Id>, woken: seq<Waker>, id: Id)
    requires WakesOldest(a, before, after, woken) && id < |a| == |b| && a == b[id := a[id]] && id !in before
    ensures WakesOldest(b, before, after, woken)
  {
  }

  lemma QueueDistinct(s: Sem)
    requires SemOk(s)
    ensures Distinct(s.queue)
  {
  }

  /** `try_acquire`: closed, too few, or taken at once. */
  lemma TryExactly(s: Sem, n: nat)
    ensures var (t, result) := TryAcquire(s, n);
      && (result == TryClosed <==> s.closed)
      && (result == Acquired <==> !s.closed && n <= s.permits)
      && (result == NoPermits <==> !s.closed && n > s.permits)
      && (result == Acquired ==> t.permits == s.permits - n && t.queue == s.queue && t.acquires == s.acquires)
      && (result != Acquired ==> t == s)
  {
  }

  /** Futures that are not linked are left alone. */
  lemma {:induction false} AssignLeavesOthers(s: Sem, rem: nat)
    requires SemOk(s)
    ensures var t := Assign(s, rem).0;
      |t.acquires| == |s.acquires| && forall id | 0 <= id < |s.acquires| && id !in s.queue :: t.acquires[id] == s.acquires[id]
    decreases |s.queue|
  {
    hide SemOk, AssignOldest;
    if s.queue != [] {
      AssignOldestOk(s, rem);
      AssignOldestTouches(s, rem);
      if s.acquires[Oldest(s)].need <= rem {
        AssignLeavesOthers(AssignOldest(s, rem), rem - s.acquires[Oldest(s)].need);
      }
    }
  }

  /** The waiters that are unlinked lack nothing, and only the oldest of the others may have gained. */
  lemma {:induction false} AssignSatisfies(s: Sem, rem: nat)
    requires SemOk(s)
    ensures var t := Assign(s, rem).0;
      && t.queue <= s.queue && |t.acquires| == |s.acquires|
      && (forall i | |t.queue| <= i < |s.queue| :: s.queue[i] < |t.acquires| && t.acquires[s.queue[i]].need == 0)
      && (forall i | 0 <= i < |t.queue| - 1 :: s.queue[i] < |t.acquires| && t.acquires[s.queue[i]] == s.acquires[s.queue[i]])
    decreases |s.queue|
  {
    hide SemOk, AssignOldest;
    if s.queue != [] {
      AssignOldestOk(s, rem);
      AssignOldestTouches(s, rem);
      if s.acquires[Oldest(s)].need <= rem {
        AssignSatisfies(AssignOldest(s, rem), rem - s.acquires[Oldest(s)].need);
        AssignLeavesOthers(AssignOldest(s, rem), rem - s.acquires[Oldest(s)].need);
      }
    }
  }

  ghost predicate Behind(q: seq<Id>, younger: Id, older: Id) {
    exists i, j :: 0 <= i < j < |q| && q[i] == younger && q[j] == older
  }

  lemma BehindInPrefix(q: seq<Id>, p: seq<Id>, younger: Id, older: Id)
    requires Distinct(q) && p <= q && Behind(q, younger, older) && older in p
    ensures Behind(p, younger, older)
  {
    var i, j :| 0 <= i < j < |q| && q[i] == younger && q[j] == older;
    var k := IndexOf(p, older);
    assert k == j;
    assert p[i] == younger;
  }

  lemma BehindWithout(q: seq<Id>, gone: Id, younger: Id, older: Id)
    requires Distinct(q) && Behind(q, younger, older) && gone != younger && gone != older
    ensures Behind(Without(q, gone), younger, older)
  {
    var i, j :| 0 <= i < j < |q| && q[i] == younger && q[j] == older;
    if gone in q {
      var g := IndexOf(q, gone);
      WithoutAt(q, g);
      var rest := q[..g] + q[g + 1..];
      assert rest[if i < g then i else i - 1] == younger && rest[if j < g then j else j - 1] == older;
    } else {
      WithoutAbsent(q, gone);
    }
  }

  lemma BehindPushed(q: seq<Id>, id: Id, younger: Id, older: Id)
    requires Behind(q, younger, older)
    ensures Behind([id] + q, younger, older)
  {
    var i, j :| 0 <= i < j < |q| && q[i] == younger && q[j] == older;
    assert ([id] + q)[i + 1] == younger && ([id] + q)[j + 1] == older;
  }

  /** A waiter stays behind an older one for as long as the older one waits, unless it is dropped. */
  lemma StepKeepsOrder(s: Sem, op: Op, younger: Id, older: Id)
    requires SemOk(s) && CanStep(s, op) && Behind(s.queue, younger, older)
    requires older in Step(s, op).queue && op != DropOp(younger)
    ensures Behind(Step(s, op).queue, younger, older)
  {
    match op {
      case NewOp(_) =>
      case TryOp(_) =>
      case CloseOp => CloseUnlinks(s);
      case ReleaseOp(n) =>
        AssignServes(s, n);
        BehindInPrefix(s.queue, Step(s, op).queue, younger, older);
      case PollOp(id, waker) =>
        PollCases(s, id, waker);
        if !s.closed && !s.acquires[id].queued && s.permits < s.acquires[id].num {
          BehindPushed(s.queue, id, younger, older);
        }
      case DropOp(id) => DropKeepsOrder(s, id, younger, older);
    }
    hide Behind, Poll, CloseAll;
  }

  lemma DropKeepsOrder(s: Sem, id: Id, younger: Id, older: Id)
    requires SemOk(s) && CanStep(s, DropOp(id)) && Behind(s.queue, younger, older)
    requires older in Drop(s, id).0.queue && id != younger
    ensures Behind(Drop(s, id).0.queue, younger, older)
  {
    var a := s.acquires[id];
    if a.queued {
      var t := SetAcquire(s, id, a.(dropped := true, queued := false)).(queue := Without(s.queue, id));
      UnlinkOk(s, id);
      WithoutDistinct(s.queue, id);
      ReleaseWakes(t, a.num - a.need);
      assert older in t.queue;
      BehindWithout(s.queue, id, younger, older);
      AssignKeepsOrder(t, a.num - a.need, younger, older);
    }
    hide Behind, SemOk, Assign;
  }

  lemma AssignKeepsOrder(s: Sem, rem: nat, younger: Id, older: Id)
    requires SemOk(s) && Behind(s.queue, younger, older) && older in AddPermits(s, rem).0.queue
    ensures Behind(AddPermits(s, rem).0.queue, younger, older)
  {
    AssignServes(s, rem);
    if rem > 0 { BehindInPrefix(s.queue, Assign(s, rem).0.queue, younger, older); }
    hide Behind, Assign;
  }

  /**
   First come, first served: if one waiter is linked behind another, then at any later time at which
   the older one still waits the younger one, unless dropped, still waits behind it and has been
   assigned nothing.
   */
  lemma {:induction false} FirstComeFirstServed(states: seq<Ledger>, ops: seq<Op>, initial: nat, i: nat, j: nat, younger: Id, older: Id)
    requires IsRun(states, ops, initial) && i <= j < |states|
    requires Behind(states[i].sem.queue, younger, older)
    requires forall k {:trigger ops[k]} :: i <= k < j ==> ops[k] != DropOp(younger)
    requires forall k :: i <= k <= j ==> older in states[k].sem.queue
    ensures Behind(states[j].sem.queue, younger, older)
    ensures SemOk(states[j].sem) && younger < |states[j].sem.acquires|
    ensures states[j].sem.acquires[younger].need == states[j].sem.acquires[younger].num
  {
    Conservation(states, ops, initial, j);
    if i < j {
      FirstComeFirstServed(states, ops, initial, i, j - 1, younger, older);
      Conservation(states, ops, initial, j - 1);
      StepKeepsOrder(states[j - 1].sem, ops[j - 1], younger, older);
    }
  }

  // ----- close -----

  /** Close wakes every waiter, oldest first; from then on polls fail and no waiter is ever linked again. */
  lemma {:induction false} CloseWakes(s: Sem)
    requires WellFormed(s) && Distinct(s.queue) && forall i | 0 <= i < |s.queue| :: s.acquires[s.queue[i]].waker.Some?
    ensures var (t, woken) := CloseAll(s);
      && |woken| == |s.queue| && t.closed && t.queue == []
      && forall k | 0 <= k < |woken| :: Some(woken[k]) == s.acquires[s.queue[|s.queue| - 1 - k]].waker
    decreases |s.queue|
  {
    if s.queue != [] {
      var n := |s.queue| - 1;
      var u := Unlink(s, s.acquires[Oldest(s)].(waker := None)).(closed := true);
      assert forall i | 0 <= i < n :: u.queue[i] == s.queue[i] && s.queue[i] != s.queue[n];
      CloseWakes(u);
    }
  }

  lemma ClosedStays(s: Sem, op: Op)
    requires SemOk(s) && CanStep(s, op) && s.closed
    ensures Step(s, op).closed && Step(s, op).queue == []
    ensures Granted(s, op) == 0
  {
    assert s.queue == [];
    match op {
      case DropOp(id) => WithoutAbsent(s.queue, id);
      case CloseOp => CloseUnlinks(s);
      case _ =>
    }
  }

  /** A waiter evicted by close gives back what it was assigned when it is dropped. */
  lemma EvictedReturns(s: Sem, id: Id)
    requires SemOk(s) && s.closed && id < |s.acquires| && s.acquires[id].queued
    ensures AcquireOk(s.acquires[id])
    ensures Drop(s, id).0.permits == s.permits + s.acquires[id].num - s.acquires[id].need
  {
    assert s.queue == [];
    WithoutAbsent(s.queue, id);
  }
}
