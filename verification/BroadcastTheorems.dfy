/**
 What the broadcast channel promises: each slot knows how many receivers still need it, every value
 read is the one sent at the receiver's cursor, and what is skipped is counted.
 */
module BroadcastTheorems {
  import opened Wrappers
  import opened Broadcast
  import opened Remainders

  // ----- the invariant -----

  /** The receivers alive that have not read position p yet. */
  function Count(receivers: seq<Receiver>, p: int): nat {
    if receivers == [] then 0
    else Count(receivers[..|receivers| - 1], p) + if Needs(receivers[|receivers| - 1], p) then 1 else 0
  }

  predicate Needs(r: Receiver, p: int) { r.alive && r.next <= p }

  /** The ring holds the last |buffer| positions, each in its own slot. */
  ghost predicate Ring(buffer: seq<Slot>, pos: nat) {
    && |buffer| > 0
    && forall p {:trigger Held(buffer, pos, p)} :: Held(buffer, pos, p) ==> buffer[p % |buffer|].pos == p
  }

  predicate Held(buffer: seq<Slot>, pos: nat, p: int) { pos - |buffer| <= p < pos }

  /** A slot with a value sent counts the receivers that need it and holds it as long as there are any. */
  predicate SlotOk(slot: Slot, p: int, receivers: seq<Receiver>, log: seq<Option<Item>>) {
    && !slot.closed
    && slot.rem == Count(receivers, p)
    && slot.val == (if slot.rem > 0 && 0 <= p < |log| then log[p] else None)
  }

  /** The slot of the close marker at m keeps the value sent |buffer| positions earlier for whoever needs that. */
  predicate MarkerOk(slot: Slot, m: int, capacity: nat, receivers: seq<Receiver>, log: seq<Option<Item>>) {
    && slot.closed
    && Count(receivers, m - capacity) <= slot.rem
    && (Count(receivers, m - capacity) > 0 && 0 <= m - capacity < |log| ==> slot.val == log[m - capacity])
  }

  ghost predicate SlotsOk(c: Chan) {
    && Ring(c.buffer, c.pos)
    && forall p {:trigger Held(c.buffer, c.pos, p)} :: Held(c.buffer, c.pos, p) ==>
         if c.closed && p == c.pos - 1 then MarkerOk(SlotAt(c, p), p, |c.buffer|, c.receivers, c.log)
         else SlotOk(SlotAt(c, p), p, c.receivers, c.log)
  }

  /**
   Cursors lie between 0 and the tail, a receiver accounts for every position it has passed, and one
   that never lagged got everything sent since it subscribed.  Who waits has nothing to read.
   */
  predicate ReceiverOk(r: Receiver, log: seq<Option<Item>>, closed: bool) {
    && 0 <= r.next <= |log|
    && r.start + |r.got| + r.lagged + (if r.done then 1 else 0) == r.next
    && r.lagged >= 0
    && (r.lagged == 0 ==> r.got == log[r.start..r.start + |r.got|])
    && (r.done ==> closed && r.next == |log|)
    && (r.waiting && r.alive ==> r.next == |log|)
  }

  predicate ReceiversOk(receivers: seq<Receiver>, log: seq<Option<Item>>, closed: bool) {
    forall i {:trigger receivers[i]} :: 0 <= i < |receivers| ==> ReceiverOk(receivers[i], log, closed)
  }

  /** Only the last position can be the close marker. */
  predicate LogOk(log: seq<Option<Item>>, pos: nat, closed: bool) {
    && |log| == pos
    && (closed ==> pos > 0 && log[pos - 1] == None)
    && forall p :: 0 <= p < (if closed then pos - 1 else pos) ==> log[p].Some?
  }

  /** Everything but the receiver count, which a receiver being dropped has left already. */
  ghost predicate RingOk(c: Chan) {
    && SlotsOk(c)
    && ReceiversOk(c.receivers, c.log, c.closed)
    && LogOk(c.log, c.pos, c.closed)
  }

  ghost predicate ChanOk(c: Chan) {
    RingOk(c) && c.rxCnt == Count(c.receivers, c.pos) && (c.closed ==> c.numTx == 0)
  }

  // ----- counting -----

  lemma {:induction false} CountUpdate(receivers: seq<Receiver>, id: RxId, r: Receiver, p: int)
    requires id < |receivers|
    ensures Count(receivers[id := r], p)
         == Count(receivers, p) - (if Needs(receivers[id], p) then 1 else 0) + if Needs(r, p) then 1 else 0
    ensures Needs(receivers[id], p) ==> Count(receivers, p) > 0
  {
    var n := |receivers| - 1;
    if id == n {
      assert receivers[id := r][..n] == receivers[..n];
    } else {
      CountUpdate(receivers[..n], id, r, p);
      assert receivers[id := r][..n] == receivers[..n][id := r];
    }
  }

  lemma {:induction false} CountSame(a: seq<Receiver>, b: seq<Receiver>, p: int, q: int)
    requires |a| == |b| && forall i {:trigger a[i]} {:trigger b[i]} :: 0 <= i < |a| ==> (Needs(a[i], p) <==> Needs(b[i], q))
    ensures Count(a, p) == Count(b, q)
  {
    if a != [] { CountSame(a[..|a| - 1], b[..|b| - 1], p, q); }
  }

  lemma {:induction false} CountNone(receivers: seq<Receiver>, p: int)
    requires forall i {:trigger receivers[i]} :: 0 <= i < |receivers| ==> !Needs(receivers[i], p)
    ensures Count(receivers, p) == 0
  {
    if receivers != [] { CountNone(receivers[..|receivers| - 1], p); }
  }

  // ----- positions in the ring -----

  lemma HeldSlot(c: Chan, p: int)
    requires RingOk(c) && Held(c.buffer, c.pos, p)
    ensures HasBuffer(c) && SlotAt(c, p).pos == p && (SlotAt(c, p).closed <==> c.closed && p == c.pos - 1)
  {
    hide ReceiversOk, LogOk, Count;
  }

  /** The one position in the ring that shares a cursor's slot. */
  function PositionFor(c: Chan, next: int): int
    requires HasBuffer(c)
  {
    c.pos - 1 - (c.pos - 1 - next) % |c.buffer|
  }

  lemma SlotFound(c: Chan, next: int)
    requires RingOk(c) && next <= c.pos
    ensures HasBuffer(c)
    ensures var p := PositionFor(c, next);
      && SlotAt(c, next).pos == p && (SlotAt(c, next).closed <==> c.closed && p == c.pos - 1)
      && Held(c.buffer, c.pos, p) && (Held(c.buffer, c.pos, next) ==> p == next)
      && (next < c.pos - |c.buffer| ==> next + |c.buffer| <= p)
      && (next == c.pos ==> p + |c.buffer| == next)
  {
    hide RingOk;
    HasRing(c);
    var n := |c.buffer|;
    var p := PositionFor(c, next);
    Congruent(c.pos - 1, next, n);
    HeldSlot(c, p);
    if next < p { SameRemainder(next, p, n); } else if p < next { SameRemainder(p, next, n); }
  }

  lemma HasRing(c: Chan)
    requires RingOk(c)
    ensures HasBuffer(c)
  {
  }

  /** What a receiver finds, by where its cursor is. */
  lemma FindsExactly(c: Chan, next: int)
    requires RingOk(c) && 0 <= next <= c.pos
    ensures HasBuffer(c)
    ensures var (ref, cursor) := RecvRef(c, next);
      && (ref == NoGuard(Empty) <==> next == c.pos)
      && (ref == NoGuard(Closed) <==> c.closed && next == c.pos - 1)
      && (ref == Guard <==> Oldest(c) <= next < c.pos - if c.closed then 1 else 0)
      && (ref.NoGuard? && ref.why.Lagged? <==> next < Oldest(c))
      && (next < Oldest(c) ==> ref == NoGuard(Lagged(Oldest(c) - next)) && cursor == Oldest(c))
  {
    hide RingOk;
    SlotFound(c, next);
    hide PositionFor, SlotAt;
  }

  lemma Congruent(a: int, b: int, n: int)
    requires n > 0
    ensures (a - (a - b) % n) % n == b % n
    ensures a - n < a - (a - b) % n <= a
  {
    var k := (a - b) / n;
    assert a - (a - b) % n == b + n * k;
    ShiftedRemainder(b, k, n);
  }

  lemma {:induction false} CountMonotone(receivers: seq<Receiver>, p: int, q: int)
    requires p <= q
    ensures Count(receivers, p) <= Count(receivers, q)
  {
    if receivers != [] { CountMonotone(receivers[..|receivers| - 1], p, q); }
  }

  // ----- sending -----

  lemma NegativePosition(p: int, n: int)
    requires n > 0 && -n <= p < 0
    ensures p % n == p + n
  {
    ShiftedRemainder(p, 1, n);
  }

  lemma CreatedOk(n: nat)
    requires n > 0
    ensures ChanOk(Created(n))
  {
    var c := Created(n);
    forall p | Held(c.buffer, c.pos, p)
      ensures SlotAt(c, p).pos == p && SlotOk(SlotAt(c, p), p, c.receivers, c.log)
    {
      NegativePosition(p, |c.buffer|);
      CountNone(c.receivers, p);
    }
    hide SlotOk;
  }

  /** The slot the next value goes to holds the oldest position; all others keep theirs. */
  lemma OverwritesOldest(c: Chan, p: int)
    requires RingOk(c) && Held(c.buffer, c.pos + 1, p)
    ensures p == c.pos ==> (c.pos - |c.buffer|) % |c.buffer| == c.pos % |c.buffer| && Held(c.buffer, c.pos, c.pos - |c.buffer|)
    ensures p != c.pos ==> p % |c.buffer| != c.pos % |c.buffer| && Held(c.buffer, c.pos, p)
  {
    if p == c.pos {
      ShiftedRemainder(c.pos, -1, |c.buffer|);
      assert c.pos + |c.buffer| * -1 == c.pos - |c.buffer|;
    } else {
      DifferentRemainders(p, c.pos, |c.buffer|);
    }
    hide RingOk;
  }

  lemma WakeKeepsCount(receivers: seq<Receiver>, p: int)
    ensures Count(WakeAll(receivers), p) == Count(receivers, p)
  {
    CountSame(receivers, WakeAll(receivers), p, p);
  }

  lemma SendSlotOk(c: Chan, value: Option<Item>, p: int)
    requires ChanOk(c) && !c.closed && c.rxCnt > 0 && Held(c.buffer, c.pos + 1, p)
    ensures var t := Send2(c, value).0;
      && SlotAt(t, p).pos == p
      && if t.closed && p == c.pos then MarkerOk(SlotAt(t, p), p, |t.buffer|, t.receivers, t.log)
         else SlotOk(SlotAt(t, p), p, t.receivers, t.log)
  {
    hide ReceiversOk, Count;
    OverwritesOldest(c, p);
    WakeKeepsCount(c.receivers, p);
    if p == c.pos {
      var oldest := c.pos - |c.buffer|;
      WakeKeepsCount(c.receivers, oldest);
      CountMonotone(c.receivers, oldest, c.pos);
      assert SlotOk(SlotAt(c, oldest), oldest, c.receivers, c.log);
    } else {
      assert SlotOk(SlotAt(c, p), p, c.receivers, c.log);
    }
  }

  lemma SendReceiversOk(c: Chan, value: Option<Item>)
    requires ReceiversOk(c.receivers, c.log, c.closed) && !c.closed && HasBuffer(c) && c.rxCnt > 0
    ensures var t := Send2(c, value).0; ReceiversOk(t.receivers, t.log, t.closed)
  {
    var t := Send2(c, value).0;
    forall i | 0 <= i < |t.receivers| ensures ReceiverOk(t.receivers[i], t.log, t.closed) {
      var r := c.receivers[i];
      assert ReceiverOk(r, c.log, c.closed);
      assert t.log[r.start..r.start + |r.got|] == c.log[r.start..r.start + |r.got|];
    }
  }

  /** Sending logs what was sent and reports how many will read it, or fails and changes nothing if nobody is there to. */
  lemma SendOk(c: Chan, value: Option<Item>)
    requires ChanOk(c) && !c.closed && (value.None? ==> c.numTx == 0)
    ensures ChanOk(Send2(c, value).0)
    ensures Send2(c, value).1 == (if Count(c.receivers, c.pos) == 0 then None else Some(Count(c.receivers, c.pos)))
    ensures Count(c.receivers, c.pos) == 0 ==> Send2(c, value).0 == c
    ensures Count(c.receivers, c.pos) > 0 ==>
      var t := Send2(c, value).0;
      && t.log == c.log + [value] && t.pos == c.pos + 1 && t.closed == value.None?
      && t.numTx == c.numTx && t.rxCnt == c.rxCnt && |t.receivers| == |c.receivers|
      && forall i | 0 <= i < |c.receivers| :: t.receivers[i] == c.receivers[i].(waiting := false)
  {
    hide SlotOk, MarkerOk, ReceiverOk;
    if c.rxCnt > 0 {
      var t := Send2(c, value).0;
      SendReceiversOk(c, value);
      forall p | Held(t.buffer, t.pos, p)
        ensures SlotAt(t, p).pos == p
        ensures if t.closed && p == c.pos then MarkerOk(SlotAt(t, p), p, |t.buffer|, t.receivers, t.log)
                else SlotOk(SlotAt(t, p), p, t.receivers, t.log)
      {
        SendSlotOk(c, value, p);
      }
      CursorsReach(c);
      CountSame(c.receivers, t.receivers, c.pos, c.pos + 1);
    }
  }

  lemma CursorsReach(c: Chan)
    requires RingOk(c)
    ensures forall i {:trigger c.receivers[i]} :: 0 <= i < |c.receivers| ==> c.receivers[i].next <= c.pos
  {
  }

  lemma {:induction false} SubscribeCount(c: Chan, p: int)
    ensures Count(Subscribe(c).receivers, p) == Count(c.receivers, p) + if c.pos <= p then 1 else 0
  {
    assert Subscribe(c).receivers[..|c.receivers|] == c.receivers;
  }

  lemma SubscribeOk(c: Chan)
    requires ChanOk(c)
    ensures ChanOk(Subscribe(c))
  {
    hide ReceiverOk, Count;
    var t := Subscribe(c);
    forall p | Held(t.buffer, t.pos, p)
      ensures if t.closed && p == t.pos - 1 then MarkerOk(SlotAt(t, p), p, |t.buffer|, t.receivers, t.log)
              else SlotOk(SlotAt(t, p), p, t.receivers, t.log)
    {
      assert Held(c.buffer, c.pos, p);
      SubscribeCount(c, p);
      SubscribeCount(c, p - |c.buffer|);
    }
    SubscribeCount(c, c.pos);
    SubscribedOk(c);
  }

  lemma SubscribedOk(c: Chan)
    requires LogOk(c.log, c.pos, c.closed)
    ensures ReceiverOk(Subscribed(c.pos), c.log, c.closed)
  {
  }

  // ----- receiving -----

  /** A receiver with something to read is counted by the slot it reads, which holds the value sent at its cursor. */
  lemma ReadsItsValue(c: Chan, id: RxId)
    requires RingOk(c) && Recvable(c, id) && RecvRef(c, c.receivers[id].next).0 == Guard
    ensures var next := c.receivers[id].next;
      && 0 <= next < |c.log| && c.log[next].Some?
      && SlotAt(c, next).rem > 0 && SlotAt(c, next).val == c.log[next]
  {
    var next := c.receivers[id].next;
    assert ReceiverOk(c.receivers[id], c.log, c.closed);
    FindsExactly(c, next);
    CountUpdate(c.receivers, id, c.receivers[id], next);
    if Held(c.buffer, c.pos, next) {
      assert SlotOk(SlotAt(c, next), next, c.receivers, c.log);
    } else {
      // the close marker took the slot and left the value there
      var m := c.pos - 1;
      assert next == m - |c.buffer|;
      ShiftedRemainder(m, -1, |c.buffer|);
      assert m + |c.buffer| * -1 == next;
      assert Held(c.buffer, c.pos, m);
      assert MarkerOk(SlotAt(c, m), m, |c.buffer|, c.receivers, c.log);
    }
    hide ReceiversOk, Count;
  }

  /** The slots after a read: the one read is needed by one receiver less, for the others nothing changes. */
  lemma ReadSlotOk(c: Chan, id: RxId, p: int)
    requires RingOk(c) && Recvable(c, id) && RecvRef(c, c.receivers[id].next).0 == Guard
    requires Held(c.buffer, c.pos, p) && SlotAt(c, c.receivers[id].next).rem > 0
    ensures var t := Recv(c, id).0;
      && SlotAt(t, p).pos == p
      && if t.closed && p == t.pos - 1 then MarkerOk(SlotAt(t, p), p, |t.buffer|, t.receivers, t.log)
         else SlotOk(SlotAt(t, p), p, t.receivers, t.log)
  {
    var t := Recv(c, id).0;
    var next := c.receivers[id].next;
    var n := |c.buffer|;
    assert ReceiverOk(c.receivers[id], c.log, c.closed);
    FindsExactly(c, next);
    CountUpdate(c.receivers, id, t.receivers[id], p);
    CountUpdate(c.receivers, id, t.receivers[id], p - n);
    if p < next { DifferentRemainders(p, next, n); }
    if next < p < next + n { DifferentRemainders(next, p, n); }
    if p == next + n {
      ShiftedRemainder(p, -1, n);
      assert p + n * -1 == next;
    }
    hide ReceiversOk, Count, LogOk, RecvRef;
  }

  /** A cursor may move where no slot notices. */
  lemma MoveOk(c: Chan, id: RxId, r: Receiver)
    requires RingOk(c) && id < |c.receivers| && ReceiverOk(r, c.log, c.closed)
    requires forall p :: Oldest(c) <= p < c.pos - (if c.closed then 1 else 0) ==> (Needs(r, p) <==> Needs(c.receivers[id], p))
    ensures RingOk(SetReceiver(c, id, r))
  {
    var t := SetReceiver(c, id, r);
    forall p | Held(t.buffer, t.pos, p)
      ensures SlotAt(t, p).pos == p
      ensures if t.closed && p == t.pos - 1 then MarkerOk(SlotAt(t, p), p, |t.buffer|, t.receivers, t.log)
              else SlotOk(SlotAt(t, p), p, t.receivers, t.log)
    {
      assert Held(c.buffer, c.pos, p);
      var q := if c.closed && p == c.pos - 1 then p - |c.buffer| else p;
      CountUpdate(c.receivers, id, r, q);
    }
    hide Count, LogOk, Needs;
  }

  lemma ReadOk(c: Chan, id: RxId)
    requires RingOk(c) && Recvable(c, id) && RecvRef(c, c.receivers[id].next).0 == Guard
    ensures SlotAt(c, c.receivers[id].next).rem > 0 && RingOk(Recv(c, id).0)
  {
    ReadsItsValue(c, id);
    var t := Recv(c, id).0;
    forall p | Held(t.buffer, t.pos, p)
      ensures SlotAt(t, p).pos == p
      ensures if t.closed && p == t.pos - 1 then MarkerOk(SlotAt(t, p), p, |t.buffer|, t.receivers, t.log)
              else SlotOk(SlotAt(t, p), p, t.receivers, t.log)
    {
      ReadSlotOk(c, id, p);
    }
    assert ReceiverOk(c.receivers[id], c.log, c.closed);
    FindsExactly(c, c.receivers[id].next);
    hide SlotOk, MarkerOk, SlotAt;
  }

  /**
   What one `recv` returns, exactly: the value sent at the cursor while that is retained, the number of
   positions skipped when it is not, Closed at the marker, and nothing at the tail.
   */
  lemma RecvExactly(c: Chan, id: RxId)
    requires RingOk(c) && Recvable(c, id)
    ensures RecvRef(c, c.receivers[id].next).0.Guard? ==> SlotAt(c, c.receivers[id].next).rem > 0
    ensures var (t, got) := Recv(c, id);
      var r := c.receivers[id];
      var last := c.pos - if c.closed then 1 else 0;
      && 0 <= r.next <= c.pos == |c.log|
      && (got.Value? <==> Oldest(c) <= r.next < last)
      && (got.Value? ==> got.val.Some? && got.val == c.log[r.next] && t.receivers[id].next == r.next + 1)
      && (got.Lagged? <==> r.next < Oldest(c))
      && (got.Lagged? ==> got.missed == Oldest(c) - r.next && t.receivers[id].next == Oldest(c))
      && (got.Closed? <==> c.closed && r.next == last)
      && (got.Closed? ==> t.receivers[id].next == c.pos)
      && (got.Empty? <==> r.next == c.pos)
      && (got.Empty? ==> t.receivers[id].next == r.next)
  {
    assert ReceiverOk(c.receivers[id], c.log, c.closed);
    FindsExactly(c, c.receivers[id].next);
    if RecvRef(c, c.receivers[id].next).0.Guard? {
      ReadsItsValue(c, id);
    }
    hide SlotsOk, ReceiversOk;
  }

  lemma RecvOk(c: Chan, id: RxId)
    requires RingOk(c) && Recvable(c, id)
    ensures RecvRef(c, c.receivers[id].next).0.Guard? ==> SlotAt(c, c.receivers[id].next).rem > 0
    ensures RingOk(Recv(c, id).0)
    ensures Count(Recv(c, id).0.receivers, c.pos) == Count(c.receivers, c.pos)
  {
    var r := c.receivers[id];
    assert ReceiverOk(r, c.log, c.closed);
    FindsExactly(c, r.next);
    RecvExactly(c, id);
    var t := Recv(c, id).0;
    CountUpdate(c.receivers, id, t.receivers[id], c.pos);
    if RecvRef(c, r.next).0.Guard? {
      ReadOk(c, id);
    } else {
      MoveOk(c, id, t.receivers[id]);
    }
    hide RingOk, RecvRef, Count;
  }
}
