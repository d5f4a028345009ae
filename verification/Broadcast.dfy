/**
 The broadcast channel (`sync/broadcast.rs`) on values: a ring of slots, one cursor per receiver.
 Every call takes the tail lock for as long as it matters and is one step here.  Positions are unbounded;
 masking with the capacity, a power of two, is written as a remainder.
 */
module Broadcast {
  import opened Wrappers

  type Item(!new, ==)

  datatype Slot = Slot(rem: nat, pos: int, closed: bool, val: Option<Item>)

  /**
   `start`, `got` and `lagged` are the position subscribed at, the values received and the sum of all
   lag reported; `done` is set once Closed was returned.
   */
  datatype Receiver = Receiver(next: int, alive: bool, waiting: bool, start: nat, got: seq<Option<Item>>, lagged: int, done: bool)

  /** `log[p]` is what was sent at position p, `None` for the close marker. */
  datatype Chan = Chan(
    buffer: seq<Slot>,
    pos: nat,
    rxCnt: nat,
    closed: bool,
    numTx: nat,
    receivers: seq<Receiver>,
    log: seq<Option<Item>>)

  type RxId = nat

  datatype Received = Value(val: Option<Item>) | Empty | Lagged(missed: int) | Closed

  function Subscribed(pos: nat): Receiver { Receiver(pos, true, false, pos, [], 0, false) }

  // ----- operations -----

  function NextPowerOfTwo(n: nat): (c: nat)
    requires n > 0
    ensures n <= c < 2 * n && PowerOfTwo(c)
  {
    if n == 1 then 1 else
      var half := NextPowerOfTwo((n + 1) / 2);
      2 * half
  }

  predicate PowerOfTwo(c: nat) { c == 1 || (c > 0 && c % 2 == 0 && PowerOfTwo(c / 2)) }

  function InitialSlot(i: nat, capacity: nat): Slot { Slot(0, i - capacity, false, None) }

  function Created(n: nat): Chan
    requires n > 0
  {
    var capacity := NextPowerOfTwo(n);
    Chan(seq(capacity, i requires 0 <= i => InitialSlot(i, capacity)), 0, 1, false, 1, [Subscribed(0)], [])
  }

  predicate HasBuffer(c: Chan) { |c.buffer| > 0 }

  function SlotAt(c: Chan, p: int): Slot
    requires HasBuffer(c)
  {
    c.buffer[p % |c.buffer|]
  }

  function WakeAll(receivers: seq<Receiver>): (woken: seq<Receiver>)
    ensures |woken| == |receivers|
    ensures forall i :: 0 <= i < |receivers| ==> woken[i] == receivers[i].(waiting := false)
  {
    if receivers == [] then [] else [receivers[0].(waiting := false)] + WakeAll(receivers[1..])
  }

  /** `send2`: a value, or the close marker, which leaves the value of the slot it takes in place. */
  function Send2(c: Chan, value: Option<Item>): (Chan, Option<nat>)
    requires HasBuffer(c)
  {
    if c.rxCnt == 0 then (c, None)
    else
      var slot := SlotAt(c, c.pos).(pos := c.pos, rem := c.rxCnt);
      var filled := if value.None? then slot.(closed := true) else slot.(val := value);
      (c.(buffer := c.buffer[c.pos % |c.buffer| := filled],
          pos := c.pos + 1,
          closed := c.closed || value.None?,
          receivers := WakeAll(c.receivers),
          log := c.log + [value]),
       Some(c.rxCnt))
  }

  function Subscribe(c: Chan): Chan { c.(rxCnt := c.rxCnt + 1, receivers := c.receivers + [Subscribed(c.pos)]) }

  function SetReceiver(c: Chan, id: RxId, r: Receiver): Chan
    requires id < |c.receivers|
  {
    c.(receivers := c.receivers[id := r])
  }

  /** Dropping a `RecvGuard`: the last receiver to read the slot clears it. */
  function DropGuard(slot: Slot): Slot
    requires slot.rem > 0
  {
    slot.(rem := slot.rem - 1, val := if slot.rem == 1 then None else slot.val)
  }

  /** The oldest position a receiver can still read: the marker takes a slot but no value with it. */
  function Oldest(c: Chan): int { c.pos - |c.buffer| - if c.closed then 1 else 0 }

  datatype Ref = Guard | NoGuard(why: Received)

  /** `recv_ref`: what the receiver finds, and its new cursor. */
  function RecvRef(c: Chan, next: int): (Ref, int)
    requires HasBuffer(c)
  {
    var slot := SlotAt(c, next);
    if slot.pos != next then
      if slot.pos + |c.buffer| == next then (NoGuard(Empty), next)
      else
        var missed := Oldest(c) - next;
        if missed == 0 then (Guard, next + 1) else (NoGuard(Lagged(missed)), Oldest(c))
    else if slot.closed then (NoGuard(Closed), next + 1)
    else (Guard, next + 1)
  }

  predicate Recvable(c: Chan, id: RxId) {
    HasBuffer(c) && id < |c.receivers| && c.receivers[id].alive
  }

  /** `recv`, with the value read and the guard dropped; without a value the receiver waits. */
  function Recv(c: Chan, id: RxId): (Chan, Received)
    requires Recvable(c, id)
    requires RecvRef(c, c.receivers[id].next).0.Guard? ==> SlotAt(c, c.receivers[id].next).rem > 0
  {
    var r := c.receivers[id];
    var found := RecvRef(c, r.next);
    match found.0
    case Guard =>
      var slot := SlotAt(c, r.next);
      (SetReceiver(c, id, r.(next := r.next + 1, got := r.got + [slot.val], waiting := false)).(
         buffer := c.buffer[r.next % |c.buffer| := DropGuard(slot)]),
       Value(slot.val))
    case NoGuard(Empty) => (SetReceiver(c, id, r.(waiting := true)), Empty)
    case NoGuard(Lagged(missed)) =>
      (SetReceiver(c, id, r.(next := r.next + missed, lagged := r.lagged + missed, waiting := false)), Lagged(missed))
    case NoGuard(_) => (SetReceiver(c, id, r.(next := r.next + 1, waiting := false, done := true)), Closed)
  }

  /** Dropping a sending handle; the last one sends the close marker. */
  function DropSender(c: Chan): Chan
    requires HasBuffer(c) && c.numTx > 0
  {
    var t := c.(numTx := c.numTx - 1);
    if c.numTx == 1 then Send2(t, None).0 else t
  }
}
