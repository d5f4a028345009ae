/**
 The bounded mpsc channel as a client of the semaphore (`sync/mpsc/bounded.rs`, `sync/mpsc/chan.rs`).
 A permit is what a `Permit`, an `OwnedPermit` or an unread message holds.  The message list itself is
 the subject of the block-queue modules; here it is a sequence with a close marker at its end.
 */
module BoundedChannel {
  import opened Permits
  import opened PermitTheorems

  type Message(!new, ==)

  /**
   `permits` counts the reserved permits alive, `senders` the sending handles, `marker` says whether the
   close marker was pushed; `waiting` holds from a `recv` that returned Pending until the receiver is woken.
   */
  datatype Chan = Chan(
    sem: Sem,
    capacity: nat,
    messages: seq<Message>,
    permits: nat,
    senders: nat,
    marker: bool,
    rxAlive: bool,
    rxClosed: bool,
    waiting: bool)

  function Opened(capacity: nat): Chan {
    Chan(Sem(capacity, false, [], []), capacity, [], 0, 1, false, true, false, false)
  }

  datatype Received = Value(message: Message) | Finished | Waits

  predicate Idle(c: Chan) { c.sem.permits == c.capacity }

  function Wake(c: Chan): Chan { c.(waiting := false) }

  // ----- the sending side -----

  predicate AllDropped(s: Sem) {
    forall id | 0 <= id < |s.acquires| :: s.acquires[id].dropped
  }

  function Reserve(c: Chan): Chan { c.(sem := New(c.sem, 1)) }

  function PollReserve(c: Chan, id: Id, waker: Waker): Chan
    requires WellFormed(c.sem) && CanPoll(c.sem, id)
  {
    var r := Poll(c.sem, id, waker);
    c.(sem := r.0, permits := c.permits + if r.1 == Ok then 1 else 0)
  }

  function DropReserve(c: Chan, id: Id): Chan
    requires WellFormed(c.sem) && id < |c.sem.acquires| && c.sem.acquires[id].need <= c.sem.acquires[id].num
  {
    c.(sem := Drop(c.sem, id).0)
  }

  function TryReserve(c: Chan): Chan {
    var r := TryAcquire(c.sem, 1);
    c.(sem := r.0, permits := c.permits + if r.1 == Acquired then 1 else 0)
  }

  function Send(c: Chan, message: Message): Chan
    requires c.permits > 0
  {
    Wake(c.(permits := c.permits - 1, messages := c.messages + [message]))
  }

  /** `OwnedPermit::release` gives the permit back and does nothing else. */
  function ReleasePermit(c: Chan): Chan
    requires WellFormed(c.sem) && c.permits > 0
  {
    c.(sem := AddPermits(c.sem, 1).0, permits := c.permits - 1)
  }

  /** Dropping a permit also wakes the receiver if it was the last thing a closed channel waited for. */
  function DropPermit(c: Chan): Chan
    requires WellFormed(c.sem) && c.permits > 0
  {
    var t := ReleasePermit(c);
    if t.sem.closed && Idle(t) then Wake(t) else t
  }

  /** The last sending handle pushes the close marker and wakes the receiver. */
  function DropSender(c: Chan): Chan
    requires c.senders > 0
  {
    if c.senders == 1 then Wake(c.(senders := 0, marker := true)) else c.(senders := c.senders - 1)
  }

  // ----- the receiving side -----

  function Recv(c: Chan): (Chan, Received)
    requires WellFormed(c.sem)
  {
    if c.messages != [] then
      (c.(sem := AddPermits(c.sem, 1).0, messages := c.messages[1..], waiting := false), Value(c.messages[0]))
    else if c.marker || (c.rxClosed && Idle(c)) then (c.(waiting := false), Finished)
    else (c.(waiting := true), Waits)
  }

  function CloseReceiver(c: Chan): Chan
    requires WellFormed(c.sem)
  {
    if c.rxClosed then c.(waiting := false) else c.(rxClosed := true, waiting := false, sem := CloseAll(c.sem).0)
  }

  /** Dropping the receiver closes it and reads every message that is there. */
  function Drain(s: Sem, n: nat): Sem
    requires WellFormed(s)
    decreases n
  {
    if n == 0 then s
    else
      AssignStaysWellFormed(s, 1);
      Drain(AddPermits(s, 1).0, n - 1)
  }

  lemma {:induction false} AssignStaysWellFormed(s: Sem, rem: nat)
    requires WellFormed(s)
    ensures WellFormed(Assign(s, rem).0)
    decreases |s.queue|
  {
    if s.queue != [] && s.acquires[Oldest(s)].need <= rem {
      AssignStaysWellFormed(AssignOldest(s, rem), rem - s.acquires[Oldest(s)].need);
    }
  }

  // ----- steps -----

  datatype Op =
    | ReserveOp
    | PollReserveOp(id: Id, waker: Waker)
    | DropReserveOp(id: Id)
    | TryReserveOp
    | SendOp(message: Message)
    | DropPermitOp
    | ReleasePermitOp
    | CloneSenderOp
    | DropSenderOp
    | RecvOp
    | CloseReceiverOp
    | DropReceiverOp

  /** The handle used exists; the last sender cannot go while a permit or a reservation borrows or owns one. */
  predicate CanStep(c: Chan, op: Op) {
    match op
    case ReserveOp => c.senders > 0
    case PollReserveOp(id, _) => CanPoll(c.sem, id)
    case DropReserveOp(id) => id < |c.sem.acquires| && !c.sem.acquires[id].dropped && c.sem.acquires[id].need <= c.sem.acquires[id].num
    case TryReserveOp => c.senders > 0
    case SendOp(_) => c.permits > 0
    case DropPermitOp => c.permits > 0
    case ReleasePermitOp => c.permits > 0
    case CloneSenderOp => c.senders > 0
    case DropSenderOp => c.senders > 0 && (c.senders == 1 ==> c.permits == 0 && AllDropped(c.sem))
    case RecvOp => c.rxAlive
    case CloseReceiverOp => c.rxAlive
    case DropReceiverOp => c.rxAlive
  }

  ghost function Step(c: Chan, op: Op): Chan
    requires SemOk(c.sem) && CanStep(c, op)
  {
    match op
    case ReserveOp => Reserve(c)
    case PollReserveOp(id, waker) => PollReserve(c, id, waker)
    case DropReserveOp(id) => DropReserve(c, id)
    case TryReserveOp => TryReserve(c)
    case SendOp(message) => Send(c, message)
    case DropPermitOp => DropPermit(c)
    case ReleasePermitOp => ReleasePermit(c)
    case CloneSenderOp => c.(senders := c.senders + 1)
    case DropSenderOp => DropSender(c)
    case RecvOp => Recv(c).0
    case CloseReceiverOp => CloseReceiver(c)
    case DropReceiverOp => DropReceiver(c)
  }

  ghost function DropReceiver(c: Chan): Chan
    requires SemOk(c.sem)
  {
    CloseOk(c.sem);
    var t := CloseReceiver(c);
    t.(sem := Drain(t.sem, |c.messages|), messages := [], rxAlive := false)
  }

  // ----- the invariant -----

  ghost predicate ChanOk(c: Chan) {
    && SemOk(c.sem)
    && (forall id | 0 <= id < |c.sem.acquires| :: c.sem.acquires[id].num == 1)
    && Total(c.sem) + c.permits + |c.messages| == c.capacity
    && c.sem.closed == c.rxClosed
    && c.marker == (c.senders == 0)
    && (c.senders == 0 ==> c.permits == 0 && AllDropped(c.sem))
    && (!c.rxAlive ==> c.rxClosed)
  }

  lemma OpenedOk(capacity: nat)
    ensures ChanOk(Opened(capacity))
  {
  }

  lemma {:induction false} SumOfDropped(acquires: seq<Acquire>)
    requires forall id | 0 <= id < |acquires| :: AcquireOk(acquires[id]) && acquires[id].dropped
    ensures Sum(acquires) == 0
  {
    if acquires != [] { SumOfDropped(acquires[..|acquires| - 1]); }
  }

  /** Giving back permits that were reserved or that read messages held. */
  lemma GiveBackOk(c: Chan, n: nat, permits: nat, messages: seq<Message>)
    requires ChanOk(c) && permits + |messages| + n == c.permits + |c.messages|
    requires permits <= c.permits
    ensures WellFormed(c.sem) && ChanOk(c.(sem := AddPermits(c.sem, n).0, permits := permits, messages := messages))
  {
    hide SemOk, Assign;
    IsWellFormed(c.sem);
    AddPermitsOk(c.sem, n);
    AssignKeepsRequests(c.sem, n);
  }

  lemma {:induction false} DrainOk(c: Chan)
    requires ChanOk(c)
    ensures WellFormed(c.sem) && ChanOk(c.(sem := Drain(c.sem, |c.messages|), messages := []))
    decreases |c.messages|
  {
    hide SemOk, AddPermits;
    IsWellFormed(c.sem);
    if c.messages != [] {
      GiveBackOk(c, 1, c.permits, c.messages[1..]);
      var t := c.(sem := AddPermits(c.sem, 1).0, messages := c.messages[1..]);
      DrainOk(t);
      assert c.(sem := Drain(c.sem, |c.messages|), messages := []) == t.(sem := Drain(t.sem, |t.messages|), messages := []);
    } else {
      assert c.(sem := Drain(c.sem, |c.messages|), messages := []) == c;
    }
  }

  lemma CloseReceiverOk(c: Chan)
    requires ChanOk(c)
    ensures WellFormed(c.sem) && ChanOk(CloseReceiver(c))
  {
    hide SemOk, CloseAll;
    IsWellFormed(c.sem);
    CloseOk(c.sem);
    CloseKeepsRequests(c.sem);
  }

  lemma PollReserveOk(c: Chan, id: Id, waker: Waker)
    requires ChanOk(c) && CanPoll(c.sem, id)
    ensures WellFormed(c.sem) && ChanOk(PollReserve(c, id, waker))
  {
    hide SemOk, Poll;
    IsWellFormed(c.sem);
    PollOk(c.sem, id, waker);
    PollKeepsRequests(c.sem, id, waker);
  }

  lemma DropReserveOk(c: Chan, id: Id)
    requires ChanOk(c) && CanStep(c, DropReserveOp(id))
    ensures WellFormed(c.sem) && ChanOk(DropReserve(c, id))
  {
    hide SemOk, Drop;
    IsWellFormed(c.sem);
    DropOk(c.sem, id);
    DropKeepsRequests(c.sem, id);
  }

  lemma StepOk(c: Chan, op: Op)
    requires ChanOk(c) && CanStep(c, op)
    ensures ChanOk(Step(c, op))
  {
    match op {
      case ReserveOp => NewOk(c.sem, 1);
      case PollReserveOp(id, waker) => PollReserveOk(c, id, waker);
      case DropReserveOp(id) => DropReserveOk(c, id);
      case TryReserveOp => TryAcquireOk(c.sem, 1);
      case SendOp(_) =>
      case DropPermitOp => GiveBackOk(c, 1, c.permits - 1, c.messages);
      case ReleasePermitOp => GiveBackOk(c, 1, c.permits - 1, c.messages);
      case CloneSenderOp =>
      case DropSenderOp =>
      case RecvOp => if c.messages != [] { GiveBackOk(c, 1, c.permits, c.messages[1..]); }
      case CloseReceiverOp => CloseReceiverOk(c);
      case DropReceiverOp =>
        CloseReceiverOk(c);
        DrainOk(CloseReceiver(c));
    }
    hide SemOk, Poll, Drop, AddPermits, CloseAll, Drain;
  }
}
