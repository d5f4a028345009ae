/** The receiver's actions keep the invariant; in particular it detaches a block only when it is safe. */
module BlockQueueReceiver {
  import opened Wrappers
  import opened BlockQueue
  import opened BlockQueueInvariant
  import opened BlockQueueStability
  import opened BlockQueueShared
  import opened BlockQueueSteps

  lemma ConcludeReceiver(s: State, s': State)
    requires Inv(s) && SharedOk(s') && Evolves(s, s', ReceiverOwns) && !s'.fault
    requires s'.senders == s.senders && RxOk(s')
    ensures Inv(s')
  {
    hide RxOk;
    forall t | t in s'.senders
      ensures SenderOk(s', t)
    {
      SenderStable(s, s', t, ReceiverOwns);
    }
  }

  lemma LocalReceiver(s: State, s': State)
    requires Inv(s) && s' == s.(rx := s'.rx) && s'.rx.index == s.rx.index && RxOk(s')
    ensures Inv(s')
  {
    hide RxOk, SharedOk, Evolves;
    LocalShared(s, s');
    EvolvesSelf(s, ReceiverOwns);
    EvolvesRx(s, s');
    ConcludeReceiver(s, s');
  }

  lemma EvolvesRx(s: State, s': State)
    requires s' == s.(rx := s'.rx) && Evolves(s, s, ReceiverOwns)
    ensures Evolves(s, s', ReceiverOwns)
  {
  }

  lemma ReceiverFacts(s: State)
    requires Inv(s)
    ensures !s.fault && SharedOk(s) && RxOk(s)
  {
  }

  lemma NextLinked(s: State, p: Ptr)
    requires SharedOk(s) && Linked(s.chain, s.heap, p) && s.heap[p.addr].next.Some?
    ensures var q := PtrTo(s, s.heap[p.addr].next.value);
            Linked(s.chain, s.heap, q) && Num(s.heap, q) == Num(s.heap, p) + 1
  {
    var n := Num(s.heap, p);
    assert LinkOk(s.chain, s.heap, n);
    assert Live(s.chain, n + 1) && LinkOk(s.chain, s.heap, n + 1);
  }

  lemma AdvanceHeadInv(s: State)
    requires Inv(s)
    ensures Inv(AdvanceHeadStep(s))
  {
    hide Inv, SharedOk, Evolves;
    ReceiverFacts(s);
    var s' := AdvanceHeadStep(s);
    match s.rx.pc
    case AdvCheck =>
      StartOf(s, s.rx.head);
      LocalReceiver(s, s');
    case AdvNext =>
      if s.heap[s.rx.head.addr].next.Some? {
        NextLinked(s, s.rx.head);
      }
      LocalReceiver(s, s');
    case _ =>
  }

  // ----- reclaiming -----

  /** A released block lies before `block_tail`, which passed it no later than the stored position. */
  lemma ReleasedPassed(s: State)
    requires SharedOk(s) && RxOk(s)
    requires s.heap[s.rx.freeHead.addr].released && s.heap[s.rx.freeHead.addr].observed <= s.rx.index
    ensures s.chain.base < s.tailNum == |s.passedAt| && s.passedAt[s.chain.base] <= s.rx.index
  {
    assert LinkOk(s.chain, s.heap, s.chain.base);
    assert ReleasedOk(s.heap[s.rx.freeHead.addr], s.chain.base, s.passedAt);
  }

  lemma TakeNextInv(s: State)
    requires Inv(s) && s.rx.pc == TakeNext
    ensures Inv(ReclaimStep(s))
  {
    hide Inv, SharedOk, Evolves;
    ReceiverFacts(s);
    ReleasedPassed(s);
    FreeHeadLinked(s);
    DropSafe(s);
    var s' := ReclaimStep(s);
    DetachWrite(s, s');
    SharedChain(s);
    TakeNextRx(s, s');
    ConcludeReceiver(s, s');
  }

  lemma FreeHeadLinked(s: State)
    requires SharedOk(s) && RxOk(s)
    ensures Linked(s.chain, s.heap, s.rx.freeHead) && Num(s.heap, s.rx.freeHead) == s.chain.base
  {
    assert LinkOk(s.chain, s.heap, s.chain.base);
  }

  lemma DropSafe(s: State)
    requires SharedOk(s) && RxOk(s) && s.chain.base < s.tailNum
    ensures |s.chain.blocks| > 1
    ensures s.heap[s.rx.freeHead.addr].next == Some(At(s.chain, s.chain.base + 1))
  {
    assert LinkOk(s.chain, s.heap, s.chain.base);
  }

  lemma TakeNextRx(s: State, s': State)
    requires ChainOk(s.chain, s.heap) && RxOk(s) && s.rx.pc == TakeNext && |s.chain.blocks| > 1
    requires s.heap[s.rx.freeHead.addr].next == Some(At(s.chain, s.chain.base + 1))
    requires s' == ReclaimStep(s)
    ensures RxOk(s')
  {
    DropChain(s.chain);
    assert LinkOk(s.chain, s.heap, s.chain.base + 1);
    assert Num(s.heap, s.rx.head) != s.chain.base;
  }

  lemma SharedChain(s: State)
    requires SharedOk(s)
    ensures ChainOk(s.chain, s.heap)
  {
  }

  lemma ReclaimInv(s: State)
    requires Inv(s)
    ensures Inv(ReclaimStep(s))
  {
    hide Inv, SharedOk, Evolves;
    ReceiverFacts(s);
    var s' := ReclaimStep(s);
    match s.rx.pc
    case ReclaimLoop => LocalReceiver(s, s');
    case ReadReleased => LocalReceiver(s, s');
    case ReadObserved => LocalReceiver(s, s');
    case TakeNext => TakeNextInv(s);
    case _ =>
  }

  // ----- reusing the detached block -----

  /** As long as no block is detached, linked blocks stay linked under the receiver's own writes. */
  lemma LinkedKept(s: State, s': State, p: Ptr)
    requires Evolves(s, s', ReceiverOwns) && s'.chain.base == s.chain.base
    requires Linked(s.chain, s.heap, p)
    ensures Linked(s'.chain, s'.heap, p) && Num(s'.heap, p) == Num(s.heap, p)
  {
    assert Live(s'.chain, Num(s.heap, p));
  }

  lemma PlacesKept(s: State, s': State)
    requires SharedOk(s) && RxOk(s) && Evolves(s, s', ReceiverOwns) && s'.chain.base == s.chain.base
    requires s'.rx.head == s.rx.head && s'.rx.freeHead == s.rx.freeHead && s'.rx.index == s.rx.index
    requires RxPcOk(s')
    ensures RxOk(s')
  {
    FreeHeadLinked(s);
    LinkedKept(s, s', s.rx.head);
    LinkedKept(s, s', s.rx.freeHead);
    assert Live(s.chain, s.chain.base) && Live(s'.chain, s.chain.base);
  }

  lemma ResetInv(s: State)
    requires Inv(s) && s.rx.pc.Reset?
    ensures Inv(ReuseStep(s))
  {
    hide Inv, SharedOk, Evolves;
    ReceiverFacts(s);
    SharedEpochs(s);
    var s' := ReuseStep(s);
    var a := s.rx.pc.block.addr;
    var s1 := s'.(rx := s.rx);
    assert s1.priv == s.priv[a := ReceiverOwns];
    PrivateWrite(s, s1, a, s'.heap[a], ReceiverOwns);
    LocalShared(s1, s');
    EvolvesAfterRx(s, s1, s');
    LinkedKept(s, s', s.rx.head);
    PlacesKept(s, s');
    ConcludeReceiver(s, s');
  }

  lemma EvolvesAfterRx(s: State, s1: State, s': State)
    requires s' == s1.(rx := s'.rx) && Evolves(s, s1, ReceiverOwns)
    ensures Evolves(s, s', ReceiverOwns)
  {
  }

  lemma TailLinked(s: State)
    requires SharedOk(s)
    ensures Linked(s.chain, s.heap, PtrTo(s, s.blockTail))
  {
    assert LinkOk(s.chain, s.heap, s.tailNum);
  }

  lemma TryStartInv(s: State)
    requires Inv(s) && s.rx.pc.TryStart? && s.rx.pc.tries > 0
    ensures Inv(ReuseStep(s))
  {
    hide Inv, SharedOk, Evolves;
    ReceiverFacts(s);
    SharedEpochs(s);
    var s' := ReuseStep(s);
    var a := s.rx.pc.block.addr;
    var s1 := s'.(rx := s.rx);
    assert s1.priv == s.priv[a := ReceiverOwns];
    PrivateWrite(s, s1, a, s'.heap[a], ReceiverOwns);
    LocalShared(s1, s');
    EvolvesAfterRx(s, s1, s');
    PrivateNotLinked(s, a);
    LinkedKept(s, s', s.rx.head);
    LinkedKept(s, s', s.rx.pc.curr);
    PlacesKept(s, s');
    ConcludeReceiver(s, s');
  }

  lemma TryCasInv(s: State)
    requires Inv(s) && s.rx.pc.TryCas?
    ensures Inv(ReuseStep(s))
  {
    hide Inv, SharedOk, Evolves;
    ReceiverFacts(s);
    var s' := ReuseStep(s);
    var b, curr := s.rx.pc.block, s.rx.pc.curr;
    match s.heap[curr.addr].next {
      case None =>
        var s1 := Link(s, curr.addr, b.addr);
        LinkBehind(s, curr, b.addr, ReceiverOwns);
        LocalShared(s1, s');
        EvolvesAfterRx(s, s1, s');
        LinkedKept(s, s', s.rx.head);
        PlacesKept(s, s');
        ConcludeReceiver(s, s');
      case Some(q) =>
        NextLinked(s, curr);
        LocalReceiver(s, s');
    }
  }

  lemma FreeBlockInv(s: State)
    requires Inv(s) && s.rx.pc.FreeBlock?
    ensures Inv(ReuseStep(s))
  {
    hide Inv, SharedOk, Evolves;
    ReceiverFacts(s);
    var s' := ReuseStep(s);
    var s1 := s'.(rx := s.rx);
    PrivateFree(s, s1, s.rx.pc.block.addr, ReceiverOwns);
    LocalShared(s1, s');
    EvolvesAfterRx(s, s1, s');
    LinkedKept(s, s', s.rx.head);
    PlacesKept(s, s');
    ConcludeReceiver(s, s');
  }

  lemma ReuseInv(s: State)
    requires Inv(s)
    ensures Inv(ReuseStep(s))
  {
    hide Inv, SharedOk, Evolves;
    ReceiverFacts(s);
    var s' := ReuseStep(s);
    match s.rx.pc
    case Reset(_) => ResetInv(s);
    case ReuseTail(_) =>
      TailLinked(s);
      LocalReceiver(s, s');
    case TryStart(_, _, tries) =>
      if tries > 0 {
        TryStartInv(s);
      } else {
        LocalReceiver(s, s');
      }
    case TryCas(_, _, _) => TryCasInv(s);
    case FreeBlock(_) => FreeBlockInv(s);
    case _ =>
  }

  // ----- reading -----

  lemma HeadSlot(s: State)
    requires SharedOk(s) && RxOk(s) && Num(s.heap, s.rx.head) == BlockOf(s.rx.index)
    ensures |s.claims| == |s.done|
    ensures SlotOk(s.heap[s.rx.head.addr], s.claims, s.done, s.rx.index)
  {
  }

  lemma ReadInv(s: State)
    requires Inv(s)
    ensures Inv(ReadStep(s))
  {
    hide Inv, Evolves, SharedOk;
    ReceiverFacts(s);
    var s' := ReadStep(s);
    match s.rx.pc
    case ReadBits =>
      HeadSlot(s);
      LocalReceiver(s, s');
    case ReadSlot =>
      HeadSlot(s);
      var v := s.claims[s.rx.index].msg.item;
      ReadWrite(s, s', v);
      ConcludeReceiver(s, s');
    case _ =>
  }
}
