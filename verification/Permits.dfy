/**
 What the batch semaphore computes (`sync/batch_semaphore.rs`), as functions on values.  The semaphore
 lives on one thread, so every call runs to its end before the next one starts and its
 compare-and-swap loops succeed at the first try.

 `acquires` holds every `Acquire` future ever created, by number; `queue` holds the numbers of those
 linked in the wait list, newest first, as the list keeps them.
 */
module Permits {
  import opened Wrappers
  import opened LinkedList

  type Id = nat
  type Waker = nat

  /** `need` is the waiter's own state: how many of its `num` permits it still lacks. */
  datatype Acquire = Acquire(num: nat, need: nat, queued: bool, waker: Option<Waker>, done: bool, dropped: bool)

  datatype Sem = Sem(permits: nat, closed: bool, queue: seq<Id>, acquires: seq<Acquire>)

  datatype PollResult = Pending | Ok | Closed
  datatype TryResult = Acquired | NoPermits | TryClosed

  predicate WellFormed(s: Sem) {
    forall i | 0 <= i < |s.queue| :: s.queue[i] < |s.acquires|
  }

  function Created(num: nat): Acquire { Acquire(num, num, false, None, false, false) }

  function Min(a: nat, b: nat): nat { if a < b then a else b }

  function SetAcquire(s: Sem, id: Id, a: Acquire): Sem
    requires id < |s.acquires|
  {
    s.(acquires := s.acquires[id := a])
  }

  function Oldest(s: Sem): (id: Id)
    requires WellFormed(s) && s.queue != []
    ensures id < |s.acquires|
  {
    s.queue[|s.queue| - 1]
  }

  /** `pop_back`: the oldest waiter leaves the list and is left as `a`. */
  function Unlink(s: Sem, a: Acquire): (t: Sem)
    requires WellFormed(s) && s.queue != []
    ensures WellFormed(t)
  {
    SetAcquire(s, Oldest(s), a).(queue := s.queue[..|s.queue| - 1])
  }

  function WakerOf(a: Acquire): seq<Waker> { if a.waker.Some? then [a.waker.value] else [] }

  /** The oldest waiter receives up to `rem` permits; one that lacks none any more is unlinked and woken. */
  function AssignOldest(s: Sem, rem: nat): Sem
    requires WellFormed(s) && s.queue != []
  {
    var a := s.acquires[Oldest(s)];
    var need := a.need - Min(a.need, rem);
    if need > 0 then SetAcquire(s, Oldest(s), a.(need := need))
    else Unlink(s, a.(need := 0, waker := None))
  }

  /** The loop over waiters, oldest first; what nobody waits for becomes available. */
  function Assign(s: Sem, rem: nat): (Sem, seq<Waker>)
    requires WellFormed(s)
    decreases |s.queue|
  {
    if s.queue == [] then (s.(permits := s.permits + rem), [])
    else
      var a := s.acquires[Oldest(s)];
      var t := AssignOldest(s, rem);
      if a.need > rem then (t, [])
      else
        var r := Assign(t, rem - a.need);
        (r.0, WakerOf(a) + r.1)
  }

  function AddPermits(s: Sem, rem: nat): (Sem, seq<Waker>)
    requires WellFormed(s)
  {
    if rem == 0 then (s, []) else Assign(s, rem)
  }

  function New(s: Sem, num: nat): Sem { s.(acquires := s.acquires + [Created(num)]) }

  predicate CanPoll(s: Sem, id: Id) {
    id < |s.acquires| && !s.acquires[id].done && !s.acquires[id].dropped
  }

  /** `Acquire::poll`. */
  function Poll(s: Sem, id: Id, waker: Waker): (Sem, PollResult, seq<Waker>)
    requires WellFormed(s) && CanPoll(s, id)
  {
    var a := s.acquires[id];
    var needed := if a.queued then a.need else a.num;
    var taken := Min(s.permits, needed);
    if s.closed then (SetAcquire(s, id, a.(done := true)), Closed, [])
    else if taken == needed && !a.queued then
      (SetAcquire(s, id, a.(done := true)).(permits := s.permits - taken), Ok, [])
    else
      var given := Min(a.need, taken);
      var b := a.(need := a.need - given);
      if b.need == 0 then
        var r := AddPermits(SetAcquire(s, id, b.(queued := false, done := true)).(permits := s.permits - taken), taken - given);
        (r.0, Ok, r.1)
      else
        (SetAcquire(s, id, b.(waker := Some(waker), queued := true)).(
           permits := s.permits - taken,
           queue := if a.queued then s.queue else [id] + s.queue),
         Pending, [])
  }

  /** `Acquire::drop`: a queued future leaves the list and hands on the permits it was assigned. */
  function Drop(s: Sem, id: Id): (Sem, seq<Waker>)
    requires WellFormed(s) && id < |s.acquires| && s.acquires[id].need <= s.acquires[id].num
  {
    var a := s.acquires[id];
    var t := SetAcquire(s, id, a.(dropped := true, queued := false));
    if !a.queued then (t, [])
    else
      WithoutMembers(s.queue, id);
      assert forall i | 0 <= i < |Without(s.queue, id)| :: Without(s.queue, id)[i] in s.queue;
      AddPermits(t.(queue := Without(s.queue, id)), a.num - a.need)
  }

  function TryAcquire(s: Sem, n: nat): (Sem, TryResult) {
    if s.closed then (s, TryClosed)
    else if s.permits < n then (s, NoPermits)
    else (s.(permits := s.permits - n), Acquired)
  }

  /** Close wakes every waiter, oldest first, and leaves them the permits they were assigned. */
  function CloseAll(s: Sem): (Sem, seq<Waker>)
    requires WellFormed(s)
    decreases |s.queue|
  {
    if s.queue == [] then (s.(closed := true), [])
    else
      var a := s.acquires[Oldest(s)];
      var r := CloseAll(Unlink(s, a.(waker := None)).(closed := true));
      (r.0, WakerOf(a) + r.1)
  }
}
