/** Every action of the block queue keeps the invariant. */
module BlockQueueSteps {
  import opened Wrappers
  import opened BlockQueue
  import opened BlockQueueInvariant
  import opened BlockQueueStability
  import opened BlockQueueShared

  lemma EvolvesFrame(s: State, s1: State, s': State, who: Owner)
    requires s' == s1.(senders := s'.senders) && Evolves(s, s1, who)
    ensures Evolves(s, s', who)
  {
  }

  /** A sender's step: a shared write `s` to `s1`, then its own program counter. */
  lemma ConcludeSender(s: State, s1: State, t: Tid, pc: SenderPc)
    requires Inv(s) && t in s.senders
    requires SharedOk(s1) && Evolves(s, s1, SenderOwns(t))
    requires s1.senders == s.senders && s1.rx == s.rx && !s1.fault && s1.done == s.done
    requires PcOk(s1, t, s.senders[t].(pc := pc))
    ensures Inv(SetPc(s1, t, pc))
  {
    hide SharedOk, Evolves, RxOk, PcOk, SenderOk;
    var s' := SetPc(s1, t, pc);
    SetPcSender(s, s1, t, pc);
    LocalShared(s1, s');
    EvolvesFrame(s, s1, s', SenderOwns(t));
    ConcludeOthers(s, s', t);
  }

  lemma SetPcSender(s: State, s1: State, t: Tid, pc: SenderPc)
    requires t in s.senders && SenderOk(s, t) && s1.senders == s.senders
    requires Evolves(s, s1, SenderOwns(t)) && SharedOk(s1) && s1.done == s.done
    requires PcOk(s1, t, s.senders[t].(pc := pc))
    ensures SenderOk(SetPc(s1, t, pc), t)
  {
  }

  lemma ConcludeOthers(s: State, s': State, t: Tid)
    requires Inv(s) && SharedOk(s') && Evolves(s, s', SenderOwns(t)) && !s'.fault && s'.rx == s.rx
    requires forall u | u in s'.senders && u != t :: u in s.senders && s'.senders[u] == s.senders[u]
    requires t in s'.senders ==> SenderOk(s', t)
    ensures Inv(s')
  {
    forall u | u in s'.senders
      ensures SenderOk(s', u)
    {
      if u != t {
        SenderStable(s, s', u, SenderOwns(t));
      }
    }
    RxStable(s, s', t);
  }

  lemma LocalSender(s: State, t: Tid, pc: SenderPc)
    requires Inv(s) && t in s.senders
    requires PcOk(s, t, s.senders[t].(pc := pc))
    ensures Inv(SetPc(s, t, pc))
  {
    hide SharedOk, Evolves, RxOk, PcOk, SenderOk;
    EvolvesSelf(s, SenderOwns(t));
    ConcludeSender(s, s, t, pc);
  }

  // ----- find_block -----

  /** While a slot is open, `block_tail` is at most the block of that slot. */
  lemma TailBehind(s: State, slot: nat)
    requires FinalOk(s.tailNum, s.done) && !Done(s.done, slot)
    ensures s.tailNum <= BlockOf(slot)
  {
    assert slot < s.tailNum * BLOCK_CAP ==> Done(s.done, slot);
  }

  /** The start index of a linked block identifies it. */
  lemma StartOf(s: State, p: Ptr)
    requires SharedOk(s) && Linked(s.chain, s.heap, p)
    ensures s.heap[p.addr].start == Num(s.heap, p) * BLOCK_CAP
    ensures s.heap[p.addr].next == NextOf(s.chain, Num(s.heap, p))
  {
    assert LinkOk(s.chain, s.heap, Num(s.heap, p));
  }

  /** A held block and the block its `next` word points to. */
  lemma NextHeld(s: State, p: Ptr, slot: nat)
    requires SharedOk(s) && Holding(s, p, slot) && s.heap[p.addr].next.Some?
    ensures var q := PtrTo(s, s.heap[p.addr].next.value);
            Holding(s, q, slot) && Consecutive(s.heap, p, q)
  {
    var n := Num(s.heap, p);
    assert LinkOk(s.chain, s.heap, n);
    assert Live(s.chain, n + 1) && LinkOk(s.chain, s.heap, n + 1);
  }

  lemma TailHeld(s: State, slot: nat)
    requires SharedOk(s) && !Done(s.done, slot)
    ensures var q := PtrTo(s, s.blockTail);
            Holding(s, q, slot) && Num(s.heap, q) == s.tailNum <= BlockOf(slot)
  {
    assert LinkOk(s.chain, s.heap, s.tailNum);
    TailBehind(s, slot);
  }

  lemma SenderFacts(s: State, t: Tid)
    requires Inv(s) && t in s.senders
    ensures SharedOk(s) && PcOk(s, t, s.senders[t])
    ensures !Done(s.done, s.senders[t].slot) && s.senders[t].slot < s.tailPosition
    ensures s.claims[s.senders[t].slot] == Claim(t, s.senders[t].msg)
  {
    assert SenderOk(s, t);
  }

  lemma FindInv(s: State, t: Tid)
    requires Inv(s) && t in s.senders
    ensures Inv(FindStep(s, t))
  {
    hide SharedOk, RxOk, Inv;
    var l := s.senders[t];
    SenderFacts(s, t);
    match l.pc
    case LoadTail =>
      TailHeld(s, l.slot);
      LocalSender(s, t, ReadStart(PtrTo(s, s.blockTail)));
    case ReadStart(p) =>
      LocalSender(s, t, AtBlock(p, Distance(s.heap[p.addr].start, StartIndex(l.slot)) > Offset(l.slot)));
    case AtBlock(p, u) =>
      StartOf(s, p);
      if s.heap[p.addr].start == StartIndex(l.slot) {
        LocalSender(s, t, WriteSlot(p));
      } else {
        LocalSender(s, t, LoadNext(p, u));
      }
    case LoadNext(p, u) =>
      match s.heap[p.addr].next {
        case Some(q) =>
          NextHeld(s, p, l.slot);
          LocalSender(s, t, IsFinal(p, u, PtrTo(s, q)));
        case None =>
          LocalSender(s, t, Alloc(p, u));
      }
    case _ =>
  }

  // ----- grow -----

  /** A private block is hung behind the last linked block, which `p` points to. */
  lemma LinkBehind(s: State, p: Ptr, b: Addr, who: Owner)
    requires SharedOk(s) && Linked(s.chain, s.heap, p) && s.heap[p.addr].next.None?
    requires Blank(s.heap, s.priv, b, who) && s.heap[b].start == s.heap[p.addr].start + BLOCK_CAP
    ensures var s' := Link(s, p.addr, b);
            && SharedOk(s') && Evolves(s, s', who)
            && PtrTo(s', b) == PtrTo(s, b)
            && Linked(s'.chain, s'.heap, PtrTo(s', b))
            && Num(s'.heap, PtrTo(s', b)) == Num(s.heap, p) + 1
            && |s'.passedAt| <= Num(s.heap, p) + 1
  {
    var n := Num(s.heap, p);
    assert LinkOk(s.chain, s.heap, n);
    LinkWrite(s, Link(s, p.addr, b), n, b, who);
    AppendChain(s.chain, b);
  }

  lemma HeldAfter(s: State, s': State, p: Ptr, slot: nat, t: Tid)
    requires SharedOk(s) && Evolves(s, s', SenderOwns(t)) && Holding(s, p, slot)
    requires !Done(s.done, slot) && slot < s.tailPosition
    ensures Holding(s', p, slot) && Num(s'.heap, p) == Num(s.heap, p)
  {
    IndexBelow(s, slot);
    HoldingStable(s, s', p, slot, SenderOwns(t));
  }

  lemma AllocInv(s: State, t: Tid, a: Addr)
    requires Inv(s) && t in s.senders && a !in s.heap && s.senders[t].pc.Alloc?
    ensures Inv(GrowStep(s, t, a))
  {
    hide SharedOk, RxOk, Inv, Evolves;
    var l := s.senders[t];
    var who := SenderOwns(t);
    SenderFacts(s, t);
    var b := NewBlock(s.heap[l.pc.ptr.addr].start + BLOCK_CAP, s.nextEpoch);
    var s1 := s.(heap := s.heap[a := b], nextEpoch := s.nextEpoch + 1, priv := s.priv[a := who]);
    SharedEpochs(s);
    PrivateWrite(s, s1, a, b, who);
    HeldAfter(s, s1, l.pc.ptr, l.slot, t);
    NoFault(s);
    ConcludeSender(s, s1, t, GrowCas(l.pc.ptr, l.pc.updating, a));
  }

  lemma NoFault(s: State)
    requires Inv(s)
    ensures !s.fault
  {
  }

  lemma SharedEpochs(s: State)
    requires SharedOk(s)
    ensures s.nextEpoch > 0
    ensures forall a | a in s.heap :: 0 < s.heap[a].epoch < s.nextEpoch
  {
    assert LinkOk(s.chain, s.heap, s.tailNum);
  }

  lemma GrowCasInv(s: State, t: Tid, a: Addr)
    requires Inv(s) && t in s.senders && s.senders[t].pc.GrowCas?
    ensures Inv(GrowStep(s, t, a))
  {
    hide SharedOk, RxOk, Inv, Evolves;
    var l := s.senders[t];
    var p, u, b := l.pc.ptr, l.pc.updating, l.pc.extra;
    SenderFacts(s, t);
    NoFault(s);
    match s.heap[p.addr].next {
      case None =>
        var s1 := Link(s, p.addr, b);
        LinkBehind(s, p, b, SenderOwns(t));
        HeldAfter(s, s1, p, l.slot, t);
        ConcludeSender(s, s1, t, IsFinal(p, u, PtrTo(s, b)));
      case Some(q) =>
        NextHeld(s, p, l.slot);
        LocalSender(s, t, PushStart(p, u, PtrTo(s, q), b, PtrTo(s, q)));
    }
  }

  lemma PushStartInv(s: State, t: Tid, a: Addr)
    requires Inv(s) && t in s.senders && s.senders[t].pc.PushStart?
    ensures Inv(GrowStep(s, t, a))
  {
    hide SharedOk, RxOk, Inv, Evolves;
    var l := s.senders[t];
    var p, u, next, b, curr := l.pc.ptr, l.pc.updating, l.pc.next, l.pc.extra, l.pc.curr;
    SenderFacts(s, t);
    NoFault(s);
    SharedEpochs(s);
    var blk := s.heap[b].(start := s.heap[curr.addr].start + BLOCK_CAP);
    var s1 := s.(heap := s.heap[b := blk]);
    assert s1.priv == s.priv[b := SenderOwns(t)];
    PrivateWrite(s, s1, b, blk, SenderOwns(t));
    PrivateNotLinked(s, b);
    HeldAfter(s, s1, p, l.slot, t);
    HeldAfter(s, s1, next, l.slot, t);
    HeldAfter(s, s1, curr, l.slot, t);
    ConcludeSender(s, s1, t, PushCas(p, u, next, b, curr));
  }

  lemma PushCasInv(s: State, t: Tid, a: Addr)
    requires Inv(s) && t in s.senders && s.senders[t].pc.PushCas?
    ensures Inv(GrowStep(s, t, a))
  {
    hide SharedOk, RxOk, Inv, Evolves;
    var l := s.senders[t];
    var p, u, next, b, curr := l.pc.ptr, l.pc.updating, l.pc.next, l.pc.extra, l.pc.curr;
    SenderFacts(s, t);
    NoFault(s);
    match s.heap[curr.addr].next {
      case None =>
        var s1 := Link(s, curr.addr, b);
        LinkBehind(s, curr, b, SenderOwns(t));
        HeldAfter(s, s1, p, l.slot, t);
        HeldAfter(s, s1, next, l.slot, t);
        ConcludeSender(s, s1, t, IsFinal(p, u, next));
      case Some(q) =>
        NextHeld(s, curr, l.slot);
        LocalSender(s, t, PushStart(p, u, next, b, PtrTo(s, q)));
    }
  }

  lemma GrowInv(s: State, t: Tid, a: Addr)
    requires Inv(s) && t in s.senders && a !in s.heap
    ensures Inv(GrowStep(s, t, a))
  {
    hide SharedOk, RxOk, SendersOk;
    match s.senders[t].pc
    case Alloc(_, _) => AllocInv(s, t, a);
    case GrowCas(_, _, _) => GrowCasInv(s, t, a);
    case PushStart(_, _, _, _, _) => PushStartInv(s, t, a);
    case PushCas(_, _, _, _, _) => PushCasInv(s, t, a);
    case _ =>
  }

  // ----- advancing block_tail -----

  lemma ReadyFull(s: State, p: Ptr)
    requires SharedOk(s) && Linked(s.chain, s.heap, p) && s.heap[p.addr].ready == FULL
    ensures Full(s.done, Num(s.heap, p))
  {
    var n := Num(s.heap, p);
    assert LinkOk(s.chain, s.heap, n);
    forall i: nat | n * BLOCK_CAP <= i < (n + 1) * BLOCK_CAP
      ensures Done(s.done, i)
    {
      assert BlockOf(i) == n;
      assert SlotOk(s.heap[p.addr], s.claims, s.done, i);
    }
  }

  /** Equal addresses mean the same block: the compare-and-swap on `block_tail` is free of ABA. */
  lemma NoAba(s: State, p: Ptr)
    requires SharedOk(s) && Linked(s.chain, s.heap, p) && s.blockTail == p.addr
    ensures Num(s.heap, p) == s.tailNum
  {
  }

  lemma SwapTailInv(s: State, t: Tid)
    requires Inv(s) && t in s.senders && s.senders[t].pc.SwapTail?
    ensures Inv(AdvanceStep(s, t))
  {
    hide SharedOk, RxOk, Inv, Evolves;
    var l := s.senders[t];
    var p, next := l.pc.ptr, l.pc.next;
    SenderFacts(s, t);
    NoFault(s);
    if s.blockTail != p.addr {
      LocalSender(s, t, AtBlock(next, false));
    } else {
      NoAba(s, p);
      var s1 := s.(blockTail := next.addr, tailNum := s.tailNum + 1,
                   passedAt := s.passedAt + [s.tailPosition], releaser := s.releaser + [t]);
      TailWrite(s, s1, next.addr, t);
      HeldAfter(s, s1, p, l.slot, t);
      HeldAfter(s, s1, next, l.slot, t);
      JustPassed(s, s1, t, p);
      ConcludeSender(s, s1, t, Observe(p, next));
    }
  }

  lemma JustPassed(s: State, s1: State, t: Tid, p: Ptr)
    requires SharedOk(s) && Linked(s.chain, s.heap, p) && Num(s.heap, p) == s.tailNum
    requires s1.heap == s.heap && s1.tailNum == s.tailNum + 1
    requires s1.passedAt == s.passedAt + [s.tailPosition] && s1.releaser == s.releaser + [t]
    ensures Releasing(s1, t, p)
  {
    assert ReleasedOk(s.heap[p.addr], s.tailNum, s.passedAt);
  }

  lemma PassedBy(s: State, n: nat)
    requires SharedOk(s) && n < s.tailNum
    ensures |s.passedAt| == s.tailNum && s.passedAt[n] <= s.tailPosition
  {
  }

  /** The releasing sender's write leaves slots, links and the closed flag of its block alone. */
  lemma ReleaserWrite(s: State, s1: State, t: Tid, p: Ptr, b: Block)
    requires SharedOk(s) && Linked(s.chain, s.heap, p) && Releasing(s, t, p)
    requires b == s.heap[p.addr].(released := b.released, observed := b.observed)
    requires b.released ==> s.passedAt[Num(s.heap, p)] <= b.observed
    requires s1 == s.(heap := s.heap[p.addr := b])
    ensures SharedOk(s1) && Evolves(s, s1, SenderOwns(t))
  {
    var n := Num(s.heap, p);
    assert LinkOk(s.chain, s.heap, n);
    forall i: nat | BlockOf(i) == n
      ensures SlotOk(b, s.claims, s.done, i)
    {
      assert SlotOk(s.heap[p.addr], s.claims, s.done, i);
    }
    LinkedWrite(s, s1, n, b, SenderOwns(t));
  }

  lemma StoreObservedInv(s: State, t: Tid)
    requires Inv(s) && t in s.senders && s.senders[t].pc.StoreObserved?
    ensures Inv(AdvanceStep(s, t))
  {
    hide SharedOk, RxOk, Inv, Evolves;
    var l := s.senders[t];
    var p, next := l.pc.ptr, l.pc.next;
    SenderFacts(s, t);
    NoFault(s);
    var b := s.heap[p.addr].(observed := l.pc.position);
    var s1 := s.(heap := s.heap[p.addr := b]);
    ReleaserWrite(s, s1, t, p, b);
    HeldAfter(s, s1, p, l.slot, t);
    HeldAfter(s, s1, next, l.slot, t);
    ConcludeSender(s, s1, t, MarkReleased(p, next));
  }

  lemma MarkReleasedInv(s: State, t: Tid)
    requires Inv(s) && t in s.senders && s.senders[t].pc.MarkReleased?
    ensures Inv(AdvanceStep(s, t))
  {
    hide SharedOk, RxOk, Inv, Evolves;
    var l := s.senders[t];
    var p, next := l.pc.ptr, l.pc.next;
    SenderFacts(s, t);
    NoFault(s);
    var b := s.heap[p.addr].(released := true);
    var s1 := s.(heap := s.heap[p.addr := b]);
    ReleaserWrite(s, s1, t, p, b);
    HeldAfter(s, s1, p, l.slot, t);
    HeldAfter(s, s1, next, l.slot, t);
    ConcludeSender(s, s1, t, AtBlock(next, true));
  }

  lemma IsFinalInv(s: State, t: Tid)
    requires Inv(s) && t in s.senders && s.senders[t].pc.IsFinal?
    ensures Inv(AdvanceStep(s, t))
  {
    hide SharedOk, RxOk, Inv, Evolves;
    SenderFacts(s, t);
    var p, u, next := s.senders[t].pc.ptr, s.senders[t].pc.updating, s.senders[t].pc.next;
    if u && s.heap[p.addr].ready == FULL {
      ReadyFull(s, p);
      LocalSender(s, t, SwapTail(p, next));
    } else {
      LocalSender(s, t, AtBlock(next, false));
    }
  }

  lemma ObserveInv(s: State, t: Tid)
    requires Inv(s) && t in s.senders && s.senders[t].pc.Observe?
    ensures Inv(AdvanceStep(s, t))
  {
    hide SharedOk, RxOk, Inv, Evolves;
    SenderFacts(s, t);
    var p, next := s.senders[t].pc.ptr, s.senders[t].pc.next;
    PassedBy(s, Num(s.heap, p));
    LocalSender(s, t, StoreObserved(p, next, s.tailPosition));
  }

  lemma AdvanceInv(s: State, t: Tid)
    requires Inv(s) && t in s.senders
    ensures Inv(AdvanceStep(s, t))
  {
    hide Inv;
    match s.senders[t].pc
    case IsFinal(_, _, _) => IsFinalInv(s, t);
    case SwapTail(_, _) => SwapTailInv(s, t);
    case Observe(_, _) => ObserveInv(s, t);
    case StoreObserved(_, _, _) => StoreObservedInv(s, t);
    case MarkReleased(_, _) => MarkReleasedInv(s, t);
    case _ =>
  }

  // ----- publishing -----

  /** The cell of an open slot is written by its owner only. */
  lemma CellWrite(s: State, s1: State, t: Tid, p: Ptr, v: Item)
    requires SharedOk(s) && t in s.senders && SenderOk(s, t)
    requires Linked(s.chain, s.heap, p) && Num(s.heap, p) == BlockOf(s.senders[t].slot)
    requires var b := s.heap[p.addr];
             s1 == s.(heap := s.heap[p.addr := b.(values := b.values[Offset(s.senders[t].slot) := v])])
    ensures SharedOk(s1) && Evolves(s, s1, SenderOwns(t))
  {
    var slot := s.senders[t].slot;
    var n := BlockOf(slot);
    var prev := s.heap[p.addr];
    var b := prev.(values := prev.values[Offset(slot) := v]);
    assert LinkOk(s.chain, s.heap, n);
    assert ReleasedOk(prev, n, s.passedAt);
    forall i: nat | BlockOf(i) == n
      ensures SlotOk(b, s.claims, s.done, i)
      ensures !SameCell(prev, b, Offset(i)) ==> i == slot
    {
      assert SlotOk(prev, s.claims, s.done, i);
      if Offset(i) == Offset(slot) { OffsetInjective(i, slot); }
    }
    LinkedWrite(s, s1, n, b, SenderOwns(t));
  }

  lemma NotReady(s: State, p: Ptr, slot: nat)
    requires SharedOk(s) && Linked(s.chain, s.heap, p) && Num(s.heap, p) == BlockOf(slot)
    requires !Done(s.done, slot)
    ensures Offset(slot) !in s.heap[p.addr].ready
  {
    assert SlotOk(s.heap[p.addr], s.claims, s.done, slot);
  }

  lemma SenderKnown(s: State, t: Tid)
    requires Inv(s) && t in s.senders
    ensures SenderOk(s, t)
  {
  }

  lemma CloseWrite(s: State, s': State, t: Tid, p: Ptr)
    requires SharedOk(s) && t in s.senders && SenderOk(s, t) && s.senders[t].msg.Close?
    requires Linked(s.chain, s.heap, p) && Num(s.heap, p) == BlockOf(s.senders[t].slot)
    requires s' == s.(heap := s.heap[p.addr := s.heap[p.addr].(closed := true)], senders := s.senders - {t})
    ensures SharedOk(s') && Evolves(s, s', SenderOwns(t))
  {
    var n := Num(s.heap, p);
    var b := s.heap[p.addr].(closed := true);
    var s1 := s.(heap := s.heap[p.addr := b]);
    assert LinkOk(s.chain, s.heap, n);
    assert ReleasedOk(s.heap[p.addr], n, s.passedAt);
    forall i: nat | BlockOf(i) == n
      ensures SlotOk(b, s.claims, s.done, i)
    {
      assert SlotOk(s.heap[p.addr], s.claims, s.done, i);
    }
    LinkedWrite(s, s1, n, b, SenderOwns(t));
    EvolvesFrame(s, s1, s', SenderOwns(t));
    CloseServed(s1, s', t);
  }

  lemma CloseServed(s: State, s': State, t: Tid)
    requires SharedOk(s) && t in s.senders && s' == s.(senders := s.senders - {t})
    requires s.closeSlot == Some(s.senders[t].slot)
    ensures SharedOk(s')
  {
    forall i: nat | Open(s'.claims, s'.done, s'.closeSlot, i)
      ensures InFlight(s'.claims, s'.senders, i)
    {
      assert InFlight(s.claims, s.senders, i);
    }
  }

  lemma WriteValueInv(s: State, t: Tid)
    requires Inv(s) && t in s.senders && s.senders[t].pc.WriteSlot? && s.senders[t].msg.Value?
    ensures Inv(PublishStep(s, t))
  {
    hide SharedOk, RxOk, Inv, Evolves;
    var l := s.senders[t];
    var p := l.pc.ptr;
    SenderFacts(s, t);
    SenderKnown(s, t);
    NoFault(s);
    NotReady(s, p, l.slot);
    var b := s.heap[p.addr];
    var s1 := s.(heap := s.heap[p.addr := b.(values := b.values[Offset(l.slot) := l.msg.item])]);
    CellWrite(s, s1, t, p, l.msg.item);
    HeldAfter(s, s1, p, l.slot, t);
    ConcludeSender(s, s1, t, MarkReady(p));
  }

  lemma WriteCloseInv(s: State, t: Tid)
    requires Inv(s) && t in s.senders && s.senders[t].pc.WriteSlot? && s.senders[t].msg.Close?
    ensures Inv(PublishStep(s, t))
  {
    hide SharedOk, RxOk, Inv, Evolves;
    SenderFacts(s, t);
    SenderKnown(s, t);
    NoFault(s);
    NotReady(s, s.senders[t].pc.ptr, s.senders[t].slot);
    CloseWrite(s, PublishStep(s, t), t, s.senders[t].pc.ptr);
    ConcludeOthers(s, PublishStep(s, t), t);
  }

  lemma MarkReadyInv(s: State, t: Tid)
    requires Inv(s) && t in s.senders && s.senders[t].pc.MarkReady?
    ensures Inv(PublishStep(s, t))
  {
    hide SharedOk, RxOk, Inv, Evolves;
    SenderFacts(s, t);
    SenderKnown(s, t);
    NoFault(s);
    ReadyWrite(s, PublishStep(s, t), t);
    ConcludeOthers(s, PublishStep(s, t), t);
  }

  lemma PublishInv(s: State, t: Tid)
    requires Inv(s) && t in s.senders
    ensures Inv(PublishStep(s, t))
  {
    hide Inv;
    match s.senders[t].pc
    case WriteSlot(_) =>
      if s.senders[t].msg.Value? {
        WriteValueInv(s, t);
      } else {
        WriteCloseInv(s, t);
      }
    case MarkReady(_) => MarkReadyInv(s, t);
    case _ =>
  }
}
