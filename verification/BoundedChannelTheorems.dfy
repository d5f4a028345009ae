/**
 What the bounded channel promises over every run: permits account for the whole capacity, `None` is
 final and never comes early, and where a waiting receiver is (and is not) woken.
 */
module BoundedChannelTheorems {
  import opened Wrappers
  import opened LinkedList
  import opened Permits
  import opened PermitTheorems
  import opened BoundedChannel

  /** `Step` is defined on consistent semaphores only; that no other is ever reached is what `CapacityStays` proves. */
  ghost predicate Leads(c: Chan, op: Op, d: Chan) { CanStep(c, op) && (SemOk(c.sem) ==> d == Step(c, op)) }

  ghost predicate IsRun(states: seq<Chan>, ops: seq<Op>, capacity: nat) {
    && |states| == |ops| + 1
    && states[0] == Opened(capacity)
    && forall i {:trigger ops[i]} :: 0 <= i < |ops| ==> Leads(states[i], ops[i], states[i + 1])
  }

  /**
   Available permits, permits assigned to reservations, reserved permits and unread messages are the
   capacity; so there are never more unread messages than that.
   */
  lemma CapacityAccounted(states: seq<Chan>, ops: seq<Op>, capacity: nat, i: nat)
    requires IsRun(states, ops, capacity) && i < |states|
    ensures ChanOk(states[i])
    ensures Total(states[i].sem) + states[i].permits + |states[i].messages| == capacity
  {
    hide ChanOk, CanStep, Step;
    CapacityStays(states, ops, capacity, i);
    AccountOf(states[i]);
  }

  lemma AccountOf(c: Chan)
    requires ChanOk(c)
    ensures SemOk(c.sem) && Total(c.sem) + c.permits + |c.messages| == c.capacity
  {
  }

  lemma {:induction false} CapacityStays(states: seq<Chan>, ops: seq<Op>, capacity: nat, i: nat)
    requires IsRun(states, ops, capacity) && i < |states|
    ensures ChanOk(states[i]) && states[i].capacity == capacity
  {
    if i == 0 {
      OpenedOk(capacity);
    } else {
      CapacityStays(states, ops, capacity, i - 1);
      BoundedChannel.StepOk(states[i - 1], ops[i - 1]);
      SameCapacity(states[i - 1], ops[i - 1]);
    }
    hide ChanOk, CanStep, Step;
  }

  lemma SameCapacity(c: Chan, op: Op)
    requires ChanOk(c) && CanStep(c, op)
    ensures Step(c, op).capacity == c.capacity
  {
  }

  // ----- which messages -----

  function SentBy(op: Op): seq<Message> { if op.SendOp? then [op.message] else [] }

  /** What leaves the channel: the message received, or all that a dropped receiver had not read. */
  ghost function TakenBy(c: Chan, op: Op): seq<Message>
    requires SemOk(c.sem)
  {
    match op
    case RecvOp => if Recv(c).1.Value? then [Recv(c).1.message] else []
    case DropReceiverOp => c.messages
    case _ => []
  }

  /** All messages passed to `send` up to state i, in order. */
  ghost function Sent(ops: seq<Op>, i: nat): seq<Message>
    requires i <= |ops|
  {
    if i == 0 then [] else Sent(ops, i - 1) + SentBy(ops[i - 1])
  }

  /** All messages that left the channel up to state i, in order. */
  ghost function Taken(states: seq<Chan>, ops: seq<Op>, i: nat): seq<Message>
    requires i <= |ops| < |states|
    requires forall k | 0 <= k < i :: SemOk(states[k].sem)
  {
    if i == 0 then [] else Taken(states, ops, i - 1) + TakenBy(states[i - 1], ops[i - 1])
  }

  /** No call loses, repeats or overtakes a message. */
  lemma StepMoves(c: Chan, op: Op)
    requires ChanOk(c) && CanStep(c, op)
    ensures TakenBy(c, op) + Step(c, op).messages == c.messages + SentBy(op)
  {
    hide SemOk, Poll, CloseAll, Drain, AddPermits, Drop;
  }

  lemma {:induction false} SemaphoresOk(states: seq<Chan>, ops: seq<Op>, capacity: nat, i: nat)
    requires IsRun(states, ops, capacity) && i < |states|
    ensures forall k | 0 <= k <= i :: SemOk(states[k].sem)
  {
    hide ChanOk, IsRun;
    forall k | 0 <= k <= i ensures SemOk(states[k].sem) {
      CapacityStays(states, ops, capacity, k);
      AccountOf(states[k]);
    }
  }

  /** First in, first out: what has left the channel, followed by what is in it, is what was sent. */
  lemma {:induction false} FirstInFirstOut(states: seq<Chan>, ops: seq<Op>, capacity: nat, i: nat)
    requires IsRun(states, ops, capacity) && i < |states|
    ensures forall k | 0 <= k <= i :: SemOk(states[k].sem)
    ensures Taken(states, ops, i) + states[i].messages == Sent(ops, i)
  {
    hide ChanOk, CanStep, Step, SemOk;
    SemaphoresOk(states, ops, capacity, i);
    if i > 0 {
      FirstInFirstOut(states, ops, capacity, i - 1);
      CapacityStays(states, ops, capacity, i - 1);
      var c, op := states[i - 1], ops[i - 1];
      StepMoves(c, op);
      assert Taken(states, ops, i) + states[i].messages == Taken(states, ops, i - 1) + (TakenBy(c, op) + states[i].messages);
      assert Taken(states, ops, i - 1) + (c.messages + SentBy(op)) == (Taken(states, ops, i - 1) + c.messages) + SentBy(op);
    }
  }

  /** `recv` hands out the oldest message that has not left the channel, and one exactly if there is one. */
  lemma RecvTakesNext(states: seq<Chan>, ops: seq<Op>, capacity: nat, i: nat)
    requires IsRun(states, ops, capacity) && i < |states|
    ensures WellFormed(states[i].sem)
    ensures forall k | 0 <= k <= i :: SemOk(states[k].sem)
    ensures var taken := Taken(states, ops, i);
      && taken <= Sent(ops, i)
      && (Recv(states[i]).1.Value? <==> taken != Sent(ops, i))
      && (Recv(states[i]).1.Value? ==> Recv(states[i]).1.message == Sent(ops, i)[|taken|])
  {
    hide IsRun, Sent, Taken, AddPermits;
    FirstInFirstOut(states, ops, capacity, i);
    IsWellFormed(states[i].sem);
  }

  /** Closing stops every reservation there is and every one to come; what was sent or reserved stays. */
  lemma ClosingStops(c: Chan, id: Id, waker: Waker)
    requires ChanOk(c)
    ensures WellFormed(c.sem)
    ensures var t := CloseReceiver(c);
      && t.rxClosed && t.sem.closed && t.messages == c.messages && t.permits == c.permits && t.sem.queue == []
      && (WellFormed(t.sem) && CanPoll(t.sem, id) ==> Poll(t.sem, id, waker).1 == Closed)
      && TryAcquire(t.sem, 1).1 == TryClosed
  {
    IsWellFormed(c.sem);
    CloseUnlinks(c.sem);
    hide CloseAll;
  }

  // ----- None is final -----

  lemma {:induction false} AssignedInSum(acquires: seq<Acquire>, id: Id)
    requires forall i | 0 <= i < |acquires| :: AcquireOk(acquires[i])
    requires id < |acquires|
    ensures Assigned(acquires[id]) <= Sum(acquires)
  {
    if id < |acquires| - 1 {
      AssignedInSum(acquires[..|acquires| - 1], id);
    }
  }

  /** When the close marker is reached, every permit is back: the assertion in `recv` holds. */
  lemma MarkerMeansIdle(c: Chan)
    requires ChanOk(c) && c.marker && c.messages == []
    ensures Idle(c)
  {
    SumOfDropped(c.sem.acquires);
  }

  /** What `recv` returning `None` says: nothing is unread and nobody is able to send. */
  predicate Drained(c: Chan) { c.messages == [] && (c.marker || (c.rxClosed && Idle(c))) }

  lemma FinishedMeansDrained(c: Chan)
    requires ChanOk(c)
    ensures WellFormed(c.sem) && (Recv(c).1 == Finished <==> Drained(c))
    ensures Drained(c) ==> Idle(c) && c.permits == 0 && Sum(c.sem.acquires) == 0
  {
    if Drained(c) && c.marker {
      MarkerMeansIdle(c);
    }
  }

  lemma DrainedStays(c: Chan, op: Op)
    requires ChanOk(c) && CanStep(c, op) && Drained(c)
    ensures Drained(Step(c, op))
  {
    FinishedMeansDrained(c);
    BoundedChannel.StepOk(c, op);
    match op {
      case PollReserveOp(id, waker) => PollCases(c.sem, id, waker);
      case DropReserveOp(id) => AssignedInSum(c.sem.acquires, id);
      case CloseReceiverOp => CloseUnlinks(c.sem);
      case DropReceiverOp => CloseUnlinks(c.sem);
      case _ =>
    }
    hide ChanOk, Poll, CloseAll;
  }

  /** Once `recv` has returned `None` it never returns a message again. */
  lemma {:induction false} NoneIsFinal(states: seq<Chan>, ops: seq<Op>, capacity: nat, i: nat, j: nat)
    requires IsRun(states, ops, capacity) && i <= j < |states| && Drained(states[i])
    ensures Drained(states[j]) && ChanOk(states[j])
    ensures WellFormed(states[j].sem) && Recv(states[j]).1 == Finished
  {
    hide ChanOk, CanStep, Step, Drained;
    CapacityAccounted(states, ops, capacity, j);
    if i < j {
      NoneIsFinal(states, ops, capacity, i, j - 1);
      AccountOf(states[j - 1]);
      DrainedStays(states[j - 1], ops[j - 1]);
    }
    FinishedMeansDrained(states[j]);
  }

  // ----- waking the receiver -----

  predicate RecvReady(c: Chan) { c.messages != [] || c.marker || (c.rxClosed && Idle(c)) }

  /** A receiver that waits has nothing to receive. */
  predicate WaitOk(c: Chan) { c.waiting ==> !RecvReady(c) }

  /** The two calls that give a permit back without waking the receiver. */
  predicate SilentReturn(op: Op) { op.ReleasePermitOp? || op.DropReserveOp? }

  /** One permit comes back for nobody in particular: a reserved one, or the one assigned to a reservation. */
  predicate GivesOneBack(c: Chan, op: Op) {
    match op
    case ReleasePermitOp => true
    case DropReserveOp(id) => id < |c.sem.acquires| && c.sem.acquires[id].queued && c.sem.acquires[id].need == 0
    case _ => false
  }

  /** Once the receiver has closed, nobody is queued, and what comes back becomes available. */
  lemma GivenBackIsAvailable(c: Chan, op: Op)
    requires ChanOk(c) && CanStep(c, op) && SilentReturn(op) && c.rxClosed
    ensures Step(c, op).sem.permits == c.sem.permits + if GivesOneBack(c, op) then 1 else 0
  {
    assert c.sem.queue == [];
    if op.DropReserveOp? { WithoutAbsent(c.sem.queue, op.id); }
  }

  /**
   Exactly when a waiting receiver is left behind: it has closed the channel, all permits but one are
   back, and the last one comes back through `OwnedPermit::release` or through the drop of a reservation
   that was assigned it.
   */
  lemma LeftBehindExactly(c: Chan, op: Op)
    requires ChanOk(c) && CanStep(c, op) && WaitOk(c)
    ensures WaitOk(Step(c, op)) <==>
      !(c.waiting && c.rxClosed && c.sem.permits + 1 == c.capacity && GivesOneBack(c, op))
  {
    BoundedChannel.StepOk(c, op);
    match op {
      case PollReserveOp(id, waker) => PollCases(c.sem, id, waker);
      case DropReserveOp(_) => if c.rxClosed { GivenBackIsAvailable(c, op); }
      case ReleasePermitOp => if c.rxClosed { GivenBackIsAvailable(c, op); }
      case _ =>
    }
    hide SemOk, Poll, CloseAll, Drain, AddPermits, Drop;
  }

  /** Without those two calls, no run ever leaves a receiver waiting that could receive. */
  lemma {:induction false} NeverLeftBehind(states: seq<Chan>, ops: seq<Op>, capacity: nat, i: nat)
    requires IsRun(states, ops, capacity) && i < |states|
    requires forall k {:trigger ops[k]} :: 0 <= k < i ==> !SilentReturn(ops[k])
    ensures WaitOk(states[i])
  {
    hide ChanOk, CanStep, Step;
    if i > 0 {
      NeverLeftBehind(states, ops, capacity, i - 1);
      CapacityStays(states, ops, capacity, i - 1);
      AccountOf(states[i - 1]);
      LeftBehindExactly(states[i - 1], ops[i - 1]);
    }
  }

  /** A receiver closed the channel and waits for the one permit outstanding; its release does not wake it. */
  lemma ReleaseLeavesReceiverWaiting()
    ensures var c1 := TryReserve(Opened(1));
      var c2 := CloseReceiver(c1);
      var c3 := Recv(c2).0;
      && c3.permits == 1 && Recv(c2).1 == Waits
      && ReleasePermit(c3).waiting && Recv(ReleasePermit(c3)).1 == Finished
      && !DropPermit(c3).waiting
  {
  }

  /** A channel with room for one message and a reservation that was assigned the room. */
  function RoomAssigned(closed: bool, waiting: bool): Chan {
    Chan(Sem(0, closed, [], [Acquire(1, 0, true, None, false, false)]), 1, [], 0, 1, false, true, closed, waiting)
  }

  /** A reservation waits for the one permit and is assigned it when the permit is dropped. */
  lemma IsAssigned(waker: Waker) returns (states: seq<Chan>)
    ensures IsRun(states, [TryReserveOp, ReserveOp, PollReserveOp(0, waker), DropPermitOp], 1)
    ensures states[4] == RoomAssigned(false, false)
  {
    hide SemOk, Assign;
    var s0 := Opened(1);
    var s1 := s0.(sem := Sem(0, false, [], []), permits := 1);
    var s2 := s1.(sem := Sem(0, false, [], [Created(1)]));
    var s3 := s2.(sem := Sem(0, false, [0], [Acquire(1, 1, true, Some(waker), false, false)]));
    states := [s0, s1, s2, s3, RoomAssigned(false, false)];
    AssignsToTheOnly(s3.sem);
    assert DropPermit(s3) == states[4];
  }

  /** The receiver closes the channel and waits; the reservation is dropped. */
  lemma IsGivenUp() returns (d: Chan)
    ensures Leads(RoomAssigned(false, false), CloseReceiverOp, RoomAssigned(true, false))
    ensures Leads(RoomAssigned(true, false), RecvOp, RoomAssigned(true, true))
    ensures Leads(RoomAssigned(true, true), DropReserveOp(0), d)
    ensures d.waiting && !WaitOk(d) && WaitOk(RoomAssigned(true, true))
    ensures WellFormed(d.sem) && Recv(d).1 == Finished
  {
    hide SemOk, Drop;
    DropReturns(RoomAssigned(true, true).sem, 0);
    d := RoomAssigned(true, true).(sem := Sem(1, true, [], [Acquire(1, 0, false, None, false, true)]));
  }

  /**
   The same through a reservation, in a run: it waits for the one permit, is assigned it when that is
   dropped, the receiver closes and waits, and the reservation is dropped without being polled again.
   */
  lemma DroppedReservationRun(waker: Waker) returns (states: seq<Chan>, ops: seq<Op>)
    ensures IsRun(states, ops, 1) && |ops| == 7 && ops[6] == DropReserveOp(0)
    ensures states[6].waiting && WaitOk(states[6]) && states[7].waiting && !WaitOk(states[7])
    ensures WellFormed(states[7].sem) && Recv(states[7]).1 == Finished
  {
    hide Leads, WaitOk, Recv;
    var first := IsAssigned(waker);
    var d := IsGivenUp();
    ops := [TryReserveOp, ReserveOp, PollReserveOp(0, waker), DropPermitOp] + [CloseReceiverOp, RecvOp, DropReserveOp(0)];
    states := first + [RoomAssigned(true, false), RoomAssigned(true, true), d];
  }

  /** The only waiter, lacking one permit, is assigned it. */
  lemma AssignsToTheOnly(s: Sem)
    requires WellFormed(s) && s.queue == [0] && |s.acquires| > 0 && s.acquires[0].need == 1
    ensures Assign(s, 1).0 == s.(queue := [], acquires := s.acquires[0 := s.acquires[0].(need := 0, waker := None)])
  {
    AssignsToNobody(AssignOldest(s, 1), 0);
  }

  /** With nobody queued, the one permit a dropped future was assigned becomes available. */
  lemma DropReturns(s: Sem, id: Id)
    requires s.queue == [] && id < |s.acquires| && s.acquires[id].queued && s.acquires[id].need == 0 && s.acquires[id].num == 1
    ensures WellFormed(s)
    ensures Drop(s, id).0 ==
      s.(permits := s.permits + 1, acquires := s.acquires[id := s.acquires[id].(dropped := true, queued := false)])
  {
    WithoutAbsent(s.queue, id);
  }

  lemma AssignsToNobody(s: Sem, rem: nat)
    requires s.queue == []
    ensures Assign(s, rem).0 == s.(permits := s.permits + rem)
  {
  }
}
