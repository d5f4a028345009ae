/** Facts one thread relies on survive the steps of every other thread. */
module BlockQueueStability {
  import opened BlockQueue
  import opened BlockQueueInvariant

  /** The receiver's index has not passed a slot that is still being written. */
  lemma IndexBelow(s: State, slot: nat)
    requires ReadOk(s.claims, s.done, s.popped, s.rx.index) && !Done(s.done, slot)
    ensures s.rx.index <= slot
  {
    assert slot < s.rx.index ==> Done(s.done, slot);
  }

  lemma HoldingStable(s: State, s': State, p: Ptr, slot: nat, who: Owner)
    requires BlocksEvolve(s, s', who)
    requires TailEvolves(s.passedAt, s'.passedAt, s.releaser, s'.releaser, s.tailPosition)
    requires s.rx.index <= slot < s.tailPosition
    requires Holding(s, p, slot)
    ensures Holding(s', p, slot) && Num(s'.heap, p) == Num(s.heap, p)
    ensures BlockEvolves(s.heap[p.addr], s'.heap[p.addr], Num(s.heap, p), s.releaser, s.claims, who)
  {
    var n := Num(s.heap, p);
    assert Live(s'.chain, n);
  }

  lemma LinkedStable(s: State, s': State, p: Ptr, who: Owner)
    requires BlocksEvolve(s, s', who) && who != ReceiverOwns
    requires Linked(s.chain, s.heap, p)
    ensures Linked(s'.chain, s'.heap, p) && Num(s'.heap, p) == Num(s.heap, p)
    ensures BlockEvolves(s.heap[p.addr], s'.heap[p.addr], Num(s.heap, p), s.releaser, s.claims, who)
  {
    var n := Num(s.heap, p);
    assert Live(s'.chain, n);
  }

  /** What a sender knows is stable under the steps of all others. */
  lemma SenderStable(s: State, s': State, t: Tid, who: Owner)
    requires ReadOk(s.claims, s.done, s.popped, s.rx.index) && |s.claims| == s.tailPosition
    requires |s'.releaser| == s'.tailNum == |s'.passedAt| && |s'.claims| == |s'.done|
    requires Evolves(s, s', who) && who != SenderOwns(t)
    requires t in s.senders && SenderOk(s, t)
    requires t in s'.senders && s'.senders[t] == s.senders[t]
    ensures SenderOk(s', t)
  {
    var l := s.senders[t];
    IndexBelow(s, l.slot);
    if !l.pc.LoadTail? {
      HoldingStable(s, s', l.pc.ptr, l.slot, who);
    }
    if l.pc.PushStart? || l.pc.PushCas? {
      HoldingStable(s, s', l.pc.next, l.slot, who);
      HoldingStable(s, s', l.pc.curr, l.slot, who);
    } else if l.pc.IsFinal? || l.pc.SwapTail? || l.pc.Observe? || l.pc.StoreObserved? || l.pc.MarkReleased? {
      HoldingStable(s, s', l.pc.next, l.slot, who);
    } else if l.pc.MarkReady? {
      assert SameCell(s.heap[l.pc.ptr.addr], s'.heap[l.pc.ptr.addr], Offset(l.slot));
    }
  }

  /** What the receiver knows is stable under the steps of the senders. */
  lemma RxStable(s: State, s': State, t: Tid)
    requires |s.chain.blocks| > 0 && |s'.chain.blocks| > 0
    requires Evolves(s, s', SenderOwns(t))
    requires RxOk(s) && s'.rx == s.rx
    ensures RxOk(s')
  {
    var rx := s.rx;
    var who := SenderOwns(t);
    LinkedStable(s, s', rx.head, who);
    assert Live(s.chain, s.chain.base);
    assert s'.chain.base > s.chain.base ==> !Live(s'.chain, s.chain.base);
    assert Live(s'.chain, s.chain.base);
    if rx.pc.TryStart? || rx.pc.TryCas? {
      LinkedStable(s, s', rx.pc.curr, who);
    }
  }
}
