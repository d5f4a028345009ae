/** Runs of the broadcast channel, and the channel as an object whose ring is an array. */
module BroadcastRuns {
  import opened Wrappers
  import opened Broadcast
  import opened BroadcastTheorems

  // ----- dropping a receiver -----

  /** The loop of `Receiver::drop`: read on until the tail seen at its start, or the close marker. */
  ghost function Drain(c: Chan, id: RxId): Chan
    requires RingOk(c) && Recvable(c, id)
    decreases c.pos - c.receivers[id].next
  {
    RecvOk(c, id);
    RecvExactly(c, id);
    if c.receivers[id].next >= c.pos then c
    else
      var r := Recv(c, id);
      if r.1.Closed? then r.0 else Drain(r.0, id)
  }

  ghost function DropReceiver(c: Chan, id: RxId): Chan
    requires ChanOk(c) && Recvable(c, id) && c.rxCnt > 0
  {
    CountUpdate(c.receivers, id, c.receivers[id], c.pos);
    var t := Drain(c.(rxCnt := c.rxCnt - 1), id);
    DrainKeeps(c.(rxCnt := c.rxCnt - 1), id);
    SetReceiver(t, id, t.receivers[id].(alive := false))
  }

  /** The loop never finds the channel empty before it reaches the tail, and it reaches the tail. */
  lemma {:induction false} DrainKeeps(c: Chan, id: RxId)
    requires RingOk(c) && Recvable(c, id)
    ensures var t := Drain(c, id);
      && RingOk(t) && Recvable(t, id) && t.receivers[id].next == t.pos == c.pos
      && t.closed == c.closed && t.rxCnt == c.rxCnt && t.numTx == c.numTx && t.log == c.log
      && |t.receivers| == |c.receivers| && (forall i | 0 <= i < |c.receivers| && i != id :: t.receivers[i] == c.receivers[i])
      && Count(t.receivers, c.pos) == Count(c.receivers, c.pos)
    decreases c.pos - c.receivers[id].next
  {
    hide RingOk, Count;
    RecvOk(c, id);
    RecvExactly(c, id);
    if c.receivers[id].next < c.pos {
      var r := Recv(c, id);
      if !r.1.Closed? { DrainKeeps(r.0, id); }
    }
  }

  lemma DropReceiverOk(c: Chan, id: RxId)
    requires ChanOk(c) && Recvable(c, id)
    ensures c.rxCnt > 0 && ChanOk(DropReceiver(c, id))
  {
    CountUpdate(c.receivers, id, c.receivers[id], c.pos);
    assert Needs(c.receivers[id], c.pos) by { assert ReceiverOk(c.receivers[id], c.log, c.closed); }
    var d := c.(rxCnt := c.rxCnt - 1);
    DrainKeeps(d, id);
    var t := Drain(d, id);
    var gone := t.receivers[id].(alive := false);
    assert ReceiverOk(t.receivers[id], t.log, t.closed);
    MoveOk(t, id, gone);
    CountUpdate(t.receivers, id, gone, t.pos);
    hide RingOk, Count, Drain;
  }

  // ----- runs -----

  datatype Op =
    | SendOp(value: Item)
    | CloneSenderOp
    | DropSenderOp
    | SubscribeOp
    | RecvOp(id: RxId)
    | CancelOp(id: RxId)
    | DropReceiverOp(id: RxId)

  /** The handle used is alive; a receiver can be made from a sender or from another receiver. */
  predicate CanStep(c: Chan, op: Op) {
    match op
    case SendOp(_) => c.numTx > 0
    case CloneSenderOp => c.numTx > 0
    case DropSenderOp => c.numTx > 0
    case SubscribeOp => c.numTx > 0 || exists id | 0 <= id < |c.receivers| :: c.receivers[id].alive
    case RecvOp(id) => Recvable(c, id)
    case CancelOp(id) => Recvable(c, id)
    case DropReceiverOp(id) => Recvable(c, id)
  }

  /** Dropping a `Recv` future takes the receiver off the wait list. */
  function Cancel(c: Chan, id: RxId): Chan
    requires id < |c.receivers|
  {
    SetReceiver(c, id, c.receivers[id].(waiting := false))
  }

  ghost function Step(c: Chan, op: Op): Chan
    requires ChanOk(c) && CanStep(c, op)
  {
    match op
    case SendOp(value) => Send2(c, Some(value)).0
    case CloneSenderOp => c.(numTx := c.numTx + 1)
    case DropSenderOp => DropSender(c)
    case SubscribeOp => Subscribe(c)
    case RecvOp(id) => RecvOk(c, id); Recv(c, id).0
    case CancelOp(id) => Cancel(c, id)
    case DropReceiverOp(id) => DropReceiverOk(c, id); DropReceiver(c, id)
  }

  lemma SendersAside(c: Chan, numTx: nat)
    requires RingOk(c)
    ensures RingOk(c.(numTx := numTx))
  {
  }

  lemma StepOk(c: Chan, op: Op)
    requires ChanOk(c) && CanStep(c, op)
    ensures ChanOk(Step(c, op))
  {
    hide RingOk, Count, Drain;
    match op {
      case SendOp(value) => SendOk(c, Some(value));
      case CloneSenderOp => SendersAside(c, c.numTx + 1);
      case DropSenderOp =>
        SendersAside(c, c.numTx - 1);
        if c.numTx == 1 { SendOk(c.(numTx := 0), None); }
      case SubscribeOp => SubscribeOk(c);
      case RecvOp(id) => RecvOk(c, id);
      case CancelOp(id) => CancelOk(c, id);
      case DropReceiverOp(id) => DropReceiverOk(c, id);
    }
  }

  lemma CancelOk(c: Chan, id: RxId)
    requires ChanOk(c) && id < |c.receivers|
    ensures ChanOk(Cancel(c, id))
  {
    var r := c.receivers[id].(waiting := false);
    assert ReceiverOk(c.receivers[id], c.log, c.closed);
    MoveOk(c, id, r);
    CountUpdate(c.receivers, id, r, c.pos);
    hide RingOk, Count;
  }

  /** `Step` is defined on consistent channels only; that no other is ever reached is what `RunOk` proves. */
  ghost predicate IsRun(states: seq<Chan>, ops: seq<Op>, n: nat) {
    && n > 0
    && |states| == |ops| + 1
    && states[0] == Created(n)
    && forall i {:trigger ops[i]} :: 0 <= i < |ops| ==>
         CanStep(states[i], ops[i]) && (ChanOk(states[i]) ==> states[i + 1] == Step(states[i], ops[i]))
  }

  lemma {:induction false} RunOk(states: seq<Chan>, ops: seq<Op>, n: nat, i: nat)
    requires IsRun(states, ops, n) && i < |states|
    ensures ChanOk(states[i])
  {
    hide ChanOk, CanStep, Step;
    if i == 0 {
      CreatedOk(n);
    } else {
      RunOk(states, ops, n, i - 1);
      StepOk(states[i - 1], ops[i - 1]);
    }
  }

  // ----- what was sent -----

  predicate SomebodyListens(c: Chan) { exists id | 0 <= id < |c.receivers| :: c.receivers[id].alive }

  lemma ListenersCount(c: Chan)
    requires ChanOk(c)
    ensures c.rxCnt == Count(c.receivers, c.pos) && (c.rxCnt > 0 <==> SomebodyListens(c))
  {
    CursorsReach(c);
    if SomebodyListens(c) {
      var id :| 0 <= id < |c.receivers| && c.receivers[id].alive;
      CountUpdate(c.receivers, id, c.receivers[id], c.pos);
    } else {
      CountNone(c.receivers, c.pos);
    }
    hide RingOk, Count;
  }

  /** What this operation sends: its value, or the close marker of the last sender, if anybody listens. */
  function SentBy(c: Chan, op: Op): seq<Option<Item>> {
    if !SomebodyListens(c) then []
    else if op.SendOp? then [Some(op.value)]
    else if op.DropSenderOp? && c.numTx == 1 then [None]
    else []
  }

  /** Everything sent up to state i, in order. */
  ghost function Sent(states: seq<Chan>, ops: seq<Op>, i: nat): seq<Option<Item>>
    requires i <= |ops| < |states|
  {
    if i == 0 then [] else Sent(states, ops, i - 1) + SentBy(states[i - 1], ops[i - 1])
  }

  lemma StepSends(c: Chan, op: Op)
    requires ChanOk(c) && CanStep(c, op)
    ensures Step(c, op).log == c.log + SentBy(c, op)
  {
    hide RingOk, Count, Drain;
    ListenersCount(c);
    match op {
      case SendOp(value) => SendOk(c, Some(value));
      case DropSenderOp =>
        SendersAside(c, c.numTx - 1);
        if c.numTx == 1 { SendOk(c.(numTx := 0), None); }
      case RecvOp(id) => RecvOk(c, id);
      case DropReceiverOp(id) => DropLogs(c, id);
      case _ =>
    }
  }

  lemma DropLogs(c: Chan, id: RxId)
    requires ChanOk(c) && Recvable(c, id) && c.rxCnt > 0
    ensures DropReceiver(c, id).log == c.log
  {
    hide Drain, Count;
    CountAside(c, c.rxCnt - 1);
    DrainKeeps(c.(rxCnt := c.rxCnt - 1), id);
  }

  /** The log is what the senders passed to `send`, in order, and the marker after the last of them. */
  lemma {:induction false} LogIsSent(states: seq<Chan>, ops: seq<Op>, n: nat, i: nat)
    requires IsRun(states, ops, n) && i < |states|
    ensures states[i].log == Sent(states, ops, i)
  {
    hide ChanOk, CanStep, Step;
    if i > 0 {
      LogIsSent(states, ops, n, i - 1);
      RunOk(states, ops, n, i - 1);
      StepSends(states[i - 1], ops[i - 1]);
    }
  }

  /** Dropping the last sender closes the channel for everybody who listens; dropping another changes nothing else. */
  lemma LastSenderCloses(c: Chan)
    requires ChanOk(c) && c.numTx > 0
    ensures var t := Step(c, DropSenderOp);
      && t.numTx == c.numTx - 1 && |t.receivers| == |c.receivers|
      && (c.numTx == 1 && SomebodyListens(c) ==>
            t.closed && t.log == c.log + [None] && forall i | 0 <= i < |t.receivers| :: !t.receivers[i].waiting)
      && (c.numTx > 1 ==> !t.closed && t.log == c.log && t.receivers == c.receivers)
  {
    hide RingOk, Count;
    ListenersCount(c);
    SendersAside(c, c.numTx - 1);
    if c.numTx == 1 { SendOk(c.(numTx := 0), None); }
  }

  /**
   Every position a receiver passed is accounted for: it was received, reported as lag, or was the close
   marker.  A receiver that never lagged got exactly what was sent since it subscribed, in order.
   */
  lemma DeliveryAccounted(states: seq<Chan>, ops: seq<Op>, n: nat, i: nat, id: RxId)
    requires IsRun(states, ops, n) && i < |states| && id < |states[i].receivers|
    ensures var (c, r) := (states[i], states[i].receivers[id]);
      && 0 <= r.next <= |c.log| && r.lagged >= 0
      && r.start + |r.got| + r.lagged + (if r.done then 1 else 0) == r.next
      && c.log == Sent(states, ops, i)
      && (r.lagged == 0 ==> r.got == c.log[r.start..r.start + |r.got|])
      && (r.waiting && r.alive ==> r.next == |c.log|)
  {
    RunOk(states, ops, n, i);
    LogIsSent(states, ops, n, i);
    assert ReceiverOk(states[i].receivers[id], states[i].log, states[i].closed);
    hide IsRun, SlotsOk;
  }

  /** What one `recv` returns in any run: the value sent at the cursor, or exactly how it missed it. */
  lemma DeliveryExact(states: seq<Chan>, ops: seq<Op>, n: nat, i: nat, id: RxId)
    requires IsRun(states, ops, n) && i < |states| && Recvable(states[i], id)
    ensures RecvRef(states[i], states[i].receivers[id].next).0.Guard? ==> SlotAt(states[i], states[i].receivers[id].next).rem > 0
    ensures var (c, r) := (states[i], states[i].receivers[id]);
      var got := Recv(c, id).1;
      var last := c.pos - if c.closed then 1 else 0;
      var sent := Sent(states, ops, i);
      && 0 <= r.next <= c.pos == |sent|
      && (got.Value? <==> Oldest(c) <= r.next < last) && (got.Value? ==> got.val.Some? && got.val == sent[r.next])
      && (got.Lagged? <==> r.next < Oldest(c)) && (got.Lagged? ==> got.missed == Oldest(c) - r.next)
      && (got.Closed? <==> c.closed && r.next == last)
      && (got.Empty? <==> r.next == c.pos)
  {
    hide IsRun, RingOk, RecvRef, Sent;
    RunOk(states, ops, n, i);
    LogIsSent(states, ops, n, i);
    RecvExactly(states[i], id);
  }

  /** While the channel is open a slot counts the receivers that still need it, and holds its value exactly that long. */
  lemma HeldWhileNeeded(states: seq<Chan>, ops: seq<Op>, n: nat, i: nat, p: nat)
    requires IsRun(states, ops, n) && i < |states| && !states[i].closed && Held(states[i].buffer, states[i].pos, p)
    ensures HasBuffer(states[i]) && |Sent(states, ops, i)| == states[i].pos
    ensures var slot := SlotAt(states[i], p);
      && slot.pos == p
      && slot.rem == Count(states[i].receivers, p)
      && slot.val == (if slot.rem > 0 then Sent(states, ops, i)[p] else None)
  {
    RunOk(states, ops, n, i);
    LogIsSent(states, ops, n, i);
    hide IsRun, Count, ReceiversOk, Sent;
  }

  /** Closed is reported once: the cursor moves past the marker, and the next `recv` waits. */
  lemma ClosedIsReportedOnce(c: Chan, id: RxId)
    requires ChanOk(c) && Recvable(c, id) && c.closed && c.receivers[id].next == c.pos - 1
    ensures RecvRef(c, c.receivers[id].next).0 == NoGuard(Closed)
    ensures var (t, got) := Recv(c, id);
      && got == Closed && Recvable(t, id)
      && RecvRef(t, t.receivers[id].next).0 == NoGuard(Empty) && Recv(t, id).1 == Empty
  {
    hide RingOk, RecvRef;
    RecvExactly(c, id);
    FindsExactly(c, c.receivers[id].next);
    RecvOk(c, id);
    var t := Recv(c, id).0;
    FindsExactly(t, t.receivers[id].next);
  }

  // ----- the channel as an object -----

  class Shared {
    const buffer: array<Slot>
    var pos: nat
    var rxCnt: nat
    var closed: bool
    var numTx: nat
    var receivers: seq<Receiver>
    ghost var log: seq<Option<Item>>

    ghost function View(): Chan
      reads this, buffer
    {
      Chan(buffer[..], pos, rxCnt, closed, numTx, receivers, log)
    }

    constructor (n: nat)
      requires n > 0
      ensures fresh(buffer) && View() == Created(n) && ChanOk(View())
    {
      var capacity := NextPowerOfTwo(n);
      buffer := new Slot[capacity](i requires 0 <= i => InitialSlot(i, capacity));
      pos, rxCnt, closed, numTx := 0, 1, false, 1;
      receivers := [Subscribed(0)];
      log := [];
      new;
      assert buffer[..] == Created(n).buffer;
      CreatedOk(n);
    }

    /** Wakes everybody on the wait list. */
    method NotifyRx()
      modifies `receivers
      ensures receivers == WakeAll(old(receivers))
    {
      for i := 0 to |receivers|
        invariant |receivers| == |old(receivers)|
        invariant forall j :: 0 <= j < i ==> receivers[j] == old(receivers)[j].(waiting := false)
        invariant forall j :: i <= j < |receivers| ==> receivers[j] == old(receivers)[j]
      {
        receivers := receivers[i := receivers[i].(waiting := false)];
      }
    }

    method Send2(value: Option<Item>) returns (sent: Option<nat>)
      requires ChanOk(View()) && !closed && (value.None? ==> numTx == 0)
      modifies this, buffer
      ensures ChanOk(View()) && (View(), sent) == Broadcast.Send2(old(View()), value)
    {
      hide RingOk, Count, WakeAll;
      SendOk(View(), value);
      HasRing(View());
      if rxCnt == 0 { return None; }
      var at, rem := pos, rxCnt;
      var idx := at % buffer.Length;
      pos := pos + 1;
      var slot := buffer[idx].(pos := at, rem := rem);
      if value.None? {
        closed := true;
        slot := slot.(closed := true);
      } else {
        slot := slot.(val := value);
      }
      buffer[idx] := slot;
      log := log + [value];
      NotifyRx();
      sent := Some(rem);
      assert buffer[..] == old(buffer[..])[idx := slot];
    }

    method DropSender()
      requires ChanOk(View()) && numTx > 0
      modifies this, buffer
      ensures ChanOk(View()) && View() == Step(old(View()), DropSenderOp)
    {
      HasRing(View());
      numTx := numTx - 1;
      if numTx == 0 {
        var _ := Send2(None);
      }
      hide RingOk;
    }

    method Subscribe() returns (id: RxId)
      requires ChanOk(View())
      modifies this
      ensures ChanOk(View()) && View() == Broadcast.Subscribe(old(View())) && id == old(|receivers|)
    {
      SubscribeOk(View());
      id := |receivers|;
      rxCnt := rxCnt + 1;
      receivers := receivers + [Subscribed(pos)];
      hide ChanOk;
    }

    /** `recv_ref`: find the slot, then decide between a value, nothing yet, lag and the end. */
    method RecvRef(next: int) returns (ref: Ref, cursor: int)
      requires HasBuffer(View())
      ensures (ref, cursor) == Broadcast.RecvRef(View(), next)
    {
      var slot := buffer[next % buffer.Length];
      if slot.pos != next {
        var nextPos := slot.pos + buffer.Length;
        if nextPos == next {
          return NoGuard(Empty), next;
        }
        var adjust := 0;
        if closed { adjust := 1; }
        var oldest := pos - (buffer.Length + adjust);
        var missed := oldest - next;
        if missed == 0 {
          return Guard, next + 1;
        }
        return NoGuard(Lagged(missed)), oldest;
      }
      if slot.closed {
        return NoGuard(Broadcast.Closed), next + 1;
      }
      return Guard, next + 1;
    }

    /** One `recv` that runs to its end: the value is cloned out of the slot and the guard dropped. */
    method Recv(id: RxId) returns (got: Received)
      requires RingOk(View()) && Recvable(View(), id)
      modifies `receivers, buffer
      ensures RingOk(View()) && Recvable(View(), id)
      ensures var before := old(View());
        && (Broadcast.RecvRef(before, before.receivers[id].next).0.Guard? ==> SlotAt(before, before.receivers[id].next).rem > 0)
        && (View(), got) == Broadcast.Recv(before, id)
    {
      hide RingOk, Count;
      RecvOk(View(), id);
      RecvExactly(View(), id);
      var r := receivers[id];
      var ref, cursor := RecvRef(r.next);
      match ref {
        case Guard =>
          var idx := r.next % buffer.Length;
          var slot := buffer[idx];
          got := Value(slot.val);
          buffer[idx] := DropGuard(slot);
          r := r.(next := cursor, got := r.got + [slot.val], waiting := false);
          assert buffer[..] == old(buffer[..])[idx := DropGuard(slot)];
        case NoGuard(why) =>
          got := why;
          match why {
            case Empty => r := r.(waiting := true);
            case Lagged(missed) => r := r.(next := cursor, lagged := r.lagged + missed, waiting := false);
            case Closed => r := r.(next := cursor, waiting := false, done := true);
            case Value(_) =>
          }
      }
      receivers := receivers[id := r];
    }

    /** `Receiver::drop`: leave, then read on so that the slots let go of what nobody else needs. */
    method DropReceiver(id: RxId)
      requires ChanOk(View()) && Recvable(View(), id)
      modifies this, buffer
      ensures ChanOk(View()) && View() == Step(old(View()), DropReceiverOp(id))
    {
      hide RingOk, Count, Broadcast.Recv;
      DropReceiverOk(View(), id);
      rxCnt := rxCnt - 1;
      CountAside(old(View()), rxCnt);
      var until := pos;
      ghost var start := View();
      while receivers[id].next < until
        invariant RingOk(View()) && Recvable(View(), id) && until == pos
        invariant Drain(View(), id) == Drain(start, id)
        decreases until - receivers[id].next
      {
        RecvExactly(View(), id);
        var got := Recv(id);
        assert got != Empty;
        if got == Broadcast.Closed { break; }
      }
      receivers := receivers[id := receivers[id].(alive := false)];
    }
  }

  lemma CountAside(c: Chan, rxCnt: nat)
    requires RingOk(c)
    ensures RingOk(c.(rxCnt := rxCnt))
  {
  }
}
