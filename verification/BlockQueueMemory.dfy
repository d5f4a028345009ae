/** No block of the queue is ever leaked, and the final `free_blocks` frees each one exactly once. */
module BlockQueueMemory {
  import opened Wrappers
  import opened BlockQueue
  import opened BlockQueueInvariant
  import opened BlockQueueReceiver
  import opened BlockQueueTheorems

  /** The unlinked block a sender has in its hands. */
  ghost function Extra(pc: SenderPc): Option<Addr> {
    match pc
    case GrowCas(_, _, b) => Some(b)
    case PushStart(_, _, _, b, _) => Some(b)
    case PushCas(_, _, _, b, _) => Some(b)
    case _ => None
  }

  /** The detached block the receiver has in its hands. */
  ghost function Detached(pc: ReceiverPc): Option<Addr> {
    match pc
    case Reset(b) => Some(b.addr)
    case ReuseTail(b) => Some(b.addr)
    case TryStart(b, _, _) => Some(b.addr)
    case TryCas(b, _, _) => Some(b.addr)
    case FreeBlock(b) => Some(b.addr)
    case _ => None
  }

  ghost predicate HeldBy(s: State, a: Addr, who: Owner) {
    match who
    case SenderOwns(t) => t in s.senders && Extra(s.senders[t].pc) == Some(a)
    case ReceiverOwns => Detached(s.rx.pc) == Some(a)
  }

  /** Every unlinked block is in the hands of the thread that owns it. */
  ghost predicate PrivateHeld(s: State) {
    forall a | a in s.priv :: HeldBy(s, a, s.priv[a])
  }

  /** A step of sender `t` that leaves the unlinked blocks of all others alone. */
  lemma SenderHeld(s: State, s': State, t: Tid)
    requires PrivateHeld(s) && s'.rx == s.rx
    requires forall u | u != t && u in s.senders :: u in s'.senders && s'.senders[u] == s.senders[u]
    requires forall a | a in s'.priv :: (a in s.priv && s'.priv[a] == s.priv[a]) || s'.priv[a] == SenderOwns(t)
    requires forall a | a in s'.priv && s'.priv[a] == SenderOwns(t) :: HeldBy(s', a, SenderOwns(t))
    ensures PrivateHeld(s')
  {
    forall a | a in s'.priv
      ensures HeldBy(s', a, s'.priv[a])
    {
      if s'.priv[a] != SenderOwns(t) {
        assert HeldBy(s, a, s.priv[a]);
      }
    }
  }

  lemma OwnHeld(s: State, t: Tid)
    requires PrivateHeld(s)
    ensures forall a | a in s.priv && s.priv[a] == SenderOwns(t) ::
              t in s.senders && Extra(s.senders[t].pc) == Some(a)
  {
    assert forall a | a in s.priv :: HeldBy(s, a, s.priv[a]);
  }

  lemma ClaimHeld(s: State, t: Tid, msg: Message)
    requires PrivateHeld(s) && t !in s.senders
    ensures PrivateHeld(ClaimSlot(s, t, msg))
  {
    OwnHeld(s, t);
    SenderHeld(s, ClaimSlot(s, t, msg), t);
  }

  /** How a sender's step moves its unlinked block: taken, kept, or linked. */
  ghost predicate ExtraMoves(s: State, s': State, t: Tid)
    requires t in s.senders
  {
    var before := Extra(s.senders[t].pc);
    var after := if t in s'.senders then Extra(s'.senders[t].pc) else None;
    || (before == after && s'.priv == s.priv)
    || (before == None && after.Some? && s'.priv == s.priv[after.value := SenderOwns(t)])
    || (before.Some? && after == None && s'.priv == s.priv - {before.value})
  }

  /** A sender's step changes or removes the entry of that sender only. */
  predicate OthersSame(s: State, s': State, t: Tid) {
    && s'.rx == s.rx
    && (s'.senders == s.senders
        || s'.senders == s.senders - {t}
        || (t in s'.senders && s'.senders == s.senders[t := s'.senders[t]]))
  }

  lemma ExtraHeld(s: State, s': State, t: Tid)
    requires PrivateHeld(s) && t in s.senders && ExtraMoves(s, s', t) && OthersSame(s, s', t)
    ensures PrivateHeld(s')
  {
    OwnHeld(s, t);
    SenderHeld(s, s', t);
  }

  lemma FindExtra(s: State, t: Tid)
    requires t in s.senders
    ensures ExtraMoves(s, FindStep(s, t), t)
  {
    assert FindStep(s, t).rx == s.rx;
  }

  lemma FindOthers(s: State, t: Tid)
    requires t in s.senders
    ensures OthersSame(s, FindStep(s, t), t)
  {
    assert FindStep(s, t).rx == s.rx;
  }

  lemma AllocExtra(s: State, t: Tid, a: Addr)
    requires t in s.senders && (s.senders[t].pc.Alloc? || s.senders[t].pc.PushStart?)
    ensures ExtraMoves(s, GrowStep(s, t, a), t)
  {
  }

  lemma LinkExtra(s: State, t: Tid, a: Addr)
    requires t in s.senders && (s.senders[t].pc.GrowCas? || s.senders[t].pc.PushCas?)
    ensures ExtraMoves(s, GrowStep(s, t, a), t)
  {
  }

  lemma GrowExtra(s: State, t: Tid, a: Addr)
    requires t in s.senders
    ensures ExtraMoves(s, GrowStep(s, t, a), t)
  {
    var pc := s.senders[t].pc;
    if pc.Alloc? || pc.PushStart? {
      AllocExtra(s, t, a);
    } else if pc.GrowCas? || pc.PushCas? {
      LinkExtra(s, t, a);
    }
  }

  lemma AllocOthers(s: State, t: Tid, a: Addr)
    requires t in s.senders && (s.senders[t].pc.Alloc? || s.senders[t].pc.PushStart?)
    ensures OthersSame(s, GrowStep(s, t, a), t)
  {
  }

  lemma LinkOthers(s: State, t: Tid, a: Addr)
    requires t in s.senders && (s.senders[t].pc.GrowCas? || s.senders[t].pc.PushCas?)
    ensures OthersSame(s, GrowStep(s, t, a), t)
  {
  }

  lemma GrowOthers(s: State, t: Tid, a: Addr)
    requires t in s.senders
    ensures OthersSame(s, GrowStep(s, t, a), t)
  {
    var pc := s.senders[t].pc;
    if pc.Alloc? || pc.PushStart? {
      AllocOthers(s, t, a);
    } else if pc.GrowCas? || pc.PushCas? {
      LinkOthers(s, t, a);
    }
    hide OthersSame;
  }

  lemma PassExtra(s: State, t: Tid)
    requires t in s.senders && (s.senders[t].pc.IsFinal? || s.senders[t].pc.SwapTail?)
    ensures ExtraMoves(s, AdvanceStep(s, t), t)
  {
  }

  lemma ReleaseExtra(s: State, t: Tid)
    requires t in s.senders
    requires s.senders[t].pc.Observe? || s.senders[t].pc.StoreObserved? || s.senders[t].pc.MarkReleased?
    ensures ExtraMoves(s, AdvanceStep(s, t), t)
  {
  }

  lemma AdvanceExtra(s: State, t: Tid)
    requires t in s.senders
    ensures ExtraMoves(s, AdvanceStep(s, t), t)
  {
    var pc := s.senders[t].pc;
    if pc.IsFinal? || pc.SwapTail? {
      PassExtra(s, t);
    } else if pc.Observe? || pc.StoreObserved? || pc.MarkReleased? {
      ReleaseExtra(s, t);
    } else {
      assert AdvanceStep(s, t) == s;
    }
  }

  lemma PassOthers(s: State, t: Tid)
    requires t in s.senders && (s.senders[t].pc.IsFinal? || s.senders[t].pc.SwapTail?)
    ensures OthersSame(s, AdvanceStep(s, t), t)
  {
  }

  lemma ReleaseOthers(s: State, t: Tid)
    requires t in s.senders
    requires s.senders[t].pc.Observe? || s.senders[t].pc.StoreObserved? || s.senders[t].pc.MarkReleased?
    ensures OthersSame(s, AdvanceStep(s, t), t)
  {
  }

  lemma AdvanceOthers(s: State, t: Tid)
    requires t in s.senders
    ensures OthersSame(s, AdvanceStep(s, t), t)
  {
    var pc := s.senders[t].pc;
    if pc.IsFinal? || pc.SwapTail? {
      PassOthers(s, t);
    } else if pc.Observe? || pc.StoreObserved? || pc.MarkReleased? {
      ReleaseOthers(s, t);
    }
    hide OthersSame;
  }

  lemma PublishExtra(s: State, t: Tid)
    requires t in s.senders
    ensures ExtraMoves(s, PublishStep(s, t), t)
  {
    assert PublishStep(s, t).rx == s.rx;
  }

  lemma PublishOthers(s: State, t: Tid)
    requires t in s.senders
    ensures OthersSame(s, PublishStep(s, t), t)
  {
    assert PublishStep(s, t).rx == s.rx;
  }

  /** A step of the receiver that leaves the unlinked blocks of the senders alone. */
  lemma ReceiverHeld(s: State, s': State)
    requires PrivateHeld(s) && s'.senders == s.senders
    requires forall a | a in s'.priv :: (a in s.priv && s'.priv[a] == s.priv[a]) || s'.priv[a] == ReceiverOwns
    requires forall a | a in s'.priv && s'.priv[a] == ReceiverOwns :: Detached(s'.rx.pc) == Some(a)
    ensures PrivateHeld(s')
  {
    forall a | a in s'.priv
      ensures HeldBy(s', a, s'.priv[a])
    {
      if s'.priv[a] != ReceiverOwns {
        assert HeldBy(s, a, s.priv[a]);
      }
    }
  }

  lemma DetachedHeld(s: State)
    requires PrivateHeld(s)
    ensures forall a | a in s.priv && s.priv[a] == ReceiverOwns :: Detached(s.rx.pc) == Some(a)
  {
    assert forall a | a in s.priv :: HeldBy(s, a, s.priv[a]);
  }

  /** How a receiver's step moves its detached block: taken, kept, or linked or freed. */
  ghost predicate DetachedMoves(s: State, s': State) {
    var before, after := Detached(s.rx.pc), Detached(s'.rx.pc);
    || (before == after && s'.priv == s.priv)
    || (before == None && after.Some? && s'.priv == s.priv[after.value := ReceiverOwns])
    || (before.Some? && after == None && s'.priv == s.priv - {before.value})
  }

  lemma MovesHeld(s: State, s': State)
    requires PrivateHeld(s) && s'.senders == s.senders && DetachedMoves(s, s')
    ensures PrivateHeld(s')
  {
    DetachedHeld(s);
    ReceiverHeld(s, s');
  }

  lemma CheckDetached(s: State)
    requires s.rx.pc == AdvCheck
    ensures DetachedMoves(s, AdvanceHeadStep(s)) && AdvanceHeadStep(s).senders == s.senders
  {
  }

  lemma NextDetached(s: State)
    requires s.rx.pc == AdvNext
    ensures DetachedMoves(s, AdvanceHeadStep(s)) && AdvanceHeadStep(s).senders == s.senders
  {
  }

  lemma AdvanceHeadDetached(s: State)
    ensures DetachedMoves(s, AdvanceHeadStep(s)) && AdvanceHeadStep(s).senders == s.senders
  {
    if s.rx.pc == AdvCheck {
      CheckDetached(s);
    } else if s.rx.pc == AdvNext {
      NextDetached(s);
    } else {
      assert AdvanceHeadStep(s) == s;
    }
  }

  lemma TakeDetached(s: State)
    requires s.rx.pc == TakeNext
    ensures DetachedMoves(s, ReclaimStep(s)) && ReclaimStep(s).senders == s.senders
  {
  }

  lemma LookDetached(s: State)
    requires s.rx.pc != TakeNext
    ensures DetachedMoves(s, ReclaimStep(s)) && ReclaimStep(s).senders == s.senders
  {
    assert ReclaimStep(s).priv == s.priv;
  }

  lemma ReclaimDetached(s: State)
    ensures DetachedMoves(s, ReclaimStep(s)) && ReclaimStep(s).senders == s.senders
  {
    hide ReclaimStep, DetachedMoves;
    if s.rx.pc == TakeNext { TakeDetached(s); } else { LookDetached(s); }
  }

  lemma TryStartDetached(s: State)
    requires s.rx.pc.TryStart?
    ensures DetachedMoves(s, ReuseStep(s)) && ReuseStep(s).senders == s.senders
  {
    var s' := ReuseStep(s);
    assert s'.priv == s.priv && Detached(s'.rx.pc) == Detached(s.rx.pc);
  }

  lemma TryCasDetached(s: State)
    requires s.rx.pc.TryCas?
    ensures DetachedMoves(s, ReuseStep(s)) && ReuseStep(s).senders == s.senders
  {
  }

  lemma FreeDetached(s: State)
    requires s.rx.pc.FreeBlock?
    ensures DetachedMoves(s, ReuseStep(s)) && ReuseStep(s).senders == s.senders
  {
  }

  lemma ResetDetached(s: State)
    requires s.rx.pc.Reset? || s.rx.pc.ReuseTail?
    ensures DetachedMoves(s, ReuseStep(s)) && ReuseStep(s).senders == s.senders
  {
  }

  lemma ReuseDetached(s: State)
    ensures DetachedMoves(s, ReuseStep(s)) && ReuseStep(s).senders == s.senders
  {
    var pc := s.rx.pc;
    if pc.TryStart? {
      TryStartDetached(s);
    } else if pc.TryCas? {
      TryCasDetached(s);
    } else if pc.FreeBlock? {
      FreeDetached(s);
    } else if pc.Reset? || pc.ReuseTail? {
      ResetDetached(s);
    } else {
      assert ReuseStep(s) == s;
    }
  }

  lemma ReadSlotDetached(s: State)
    requires s.rx.pc == ReadSlot
    ensures DetachedMoves(s, ReadStep(s)) && ReadStep(s).senders == s.senders
  {
  }

  lemma ReadBitsDetached(s: State)
    requires s.rx.pc == ReadBits
    ensures DetachedMoves(s, ReadStep(s)) && ReadStep(s).senders == s.senders
  {
  }

  lemma ReadDetached(s: State)
    ensures DetachedMoves(s, ReadStep(s)) && ReadStep(s).senders == s.senders
  {
    if s.rx.pc == ReadSlot {
      ReadSlotDetached(s);
    } else if s.rx.pc == ReadBits {
      ReadBitsDetached(s);
    } else {
      assert ReadStep(s) == s;
    }
  }

  lemma StepHeld(s: State, a: Action)
    requires PrivateHeld(s) && Enabled(s, a)
    ensures PrivateHeld(Apply(s, a))
  {
    hide PrivateHeld, ExtraMoves, OthersSame, FindStep, GrowStep, AdvanceStep, PublishStep;
    hide AdvanceHeadStep, ReclaimStep, ReuseStep, ReadStep;
    match a
    case BeginPush(t, v) => ClaimHeld(s, t, Value(v));
    case CloneTx => MovesHeld(s, Apply(s, a));
    case DropTx => MovesHeld(s, Apply(s, a));
    case BeginClose(t) =>
      ClaimHeld(s, t, Close);
      MovesHeld(ClaimSlot(s, t, Close), Apply(s, a));
    case Find(t) => FindExtra(s, t); FindOthers(s, t); ExtraHeld(s, FindStep(s, t), t);
    case Grow(t, addr) => GrowExtra(s, t, addr); GrowOthers(s, t, addr); ExtraHeld(s, GrowStep(s, t, addr), t);
    case Advance(t) => AdvanceExtra(s, t); AdvanceOthers(s, t); ExtraHeld(s, AdvanceStep(s, t), t);
    case Publish(t) => PublishExtra(s, t); PublishOthers(s, t); ExtraHeld(s, PublishStep(s, t), t);
    case StartPop => MovesHeld(s, Apply(s, a));
    case AdvanceHead => AdvanceHeadDetached(s); MovesHeld(s, AdvanceHeadStep(s));
    case Reclaim => ReclaimDetached(s); MovesHeld(s, ReclaimStep(s));
    case Reuse => ReuseDetached(s); MovesHeld(s, ReuseStep(s));
    case Read => ReadDetached(s); MovesHeld(s, ReadStep(s));
  }

  lemma {:induction false} RunHeld(states: seq<State>, actions: seq<Action>, i: nat)
    requires IsRun(states, actions) && i < |states|
    ensures PrivateHeld(states[i])
  {
    hide PrivateHeld, Apply;
    if i == 0 {
      InitHeld(states[0]);
    } else {
      RunHeld(states, actions, i - 1);
      StepHeld(states[i - 1], actions[i - 1]);
    }
  }

  lemma InitHeld(s: State)
    requires exists addr :: s == Init(addr)
    ensures PrivateHeld(s)
  {
  }

  /** When no call is running, the allocated blocks are exactly the linked ones: nothing leaked. */
  lemma NoLeak(states: seq<State>, actions: seq<Action>, i: nat)
    requires IsRun(states, actions) && i < |states|
    requires states[i].senders == map[] && states[i].rx.pc == Idle
    ensures forall a :: a in states[i].heap <==> a in states[i].chain.blocks
  {
    var s := states[i];
    RunHeld(states, actions, i);
    RunInv(states, actions, i);
    hide RxOk, SendersOk, PcOk;
    assert forall a | a in s.priv :: HeldBy(s, a, s.priv[a]);
    LinkedAllocated(s);
  }

  lemma LinkedAllocated(s: State)
    requires SharedOk(s)
    ensures forall a | a in s.chain.blocks :: a in s.heap
  {
    forall k | 0 <= k < |s.chain.blocks|
      ensures s.chain.blocks[k] in s.heap
    {
      assert LinkOk(s.chain, s.heap, s.chain.base + k);
    }
  }

  /** The blocks are the whole list, in the order their `next` words give. */
  ghost predicate InListOrder(blocks: seq<Addr>, h: Heap) {
    && (forall k | 0 <= k < |blocks| ::
          && blocks[k] in h
          && h[blocks[k]].next == if k + 1 < |blocks| then Some(blocks[k + 1]) else None)
    && (forall j, k | 0 <= j < k < |blocks| :: blocks[j] != blocks[k])
  }

  lemma NextInOrder(blocks: seq<Addr>, h: Heap, k: nat)
    requires InListOrder(blocks, h) && k < |blocks|
    ensures blocks[k] in h && blocks[k] !in blocks[..k]
    ensures h[blocks[k]].next == if k + 1 < |blocks| then Some(blocks[k + 1]) else None
  {
  }

  lemma ListOrder(s: State)
    requires Inv(s)
    ensures |s.chain.blocks| > 0 && s.rx.freeHead.addr == s.chain.blocks[0]
    ensures InListOrder(s.chain.blocks, s.heap)
  {
    hide Inv, SharedOk, RxPcOk, InListOrder;
    ReceiverFacts(s);
    SharedChain(s);
    ChainOrder(s.chain, s.heap);
  }

  lemma ChainOrder(c: Chain, h: Heap)
    requires ChainOk(c, h)
    ensures InListOrder(c.blocks, h)
  {
    forall k | 0 <= k < |c.blocks|
      ensures c.blocks[k] in h
      ensures h[c.blocks[k]].next == if k + 1 < |c.blocks| then Some(c.blocks[k + 1]) else None
    {
      assert LinkOk(c, h, c.base + k);
    }
    forall j, k | 0 <= j < k < |c.blocks|
      ensures c.blocks[j] != c.blocks[k]
    {
      assert At(c, c.base + j) == c.blocks[j] && At(c, c.base + k) == c.blocks[k];
    }
  }

  /**
   `Rx::free_blocks`, run by the drop of the channel: follow the links from `free_head` and give every
   block back.  Each allocated block is freed exactly once and none is left.
   */
  method FreeBlocks(heap: map<Addr, Block>, freeHead: Addr, ghost states: seq<State>, ghost actions: seq<Action>)
    returns (freed: seq<Addr>, rest: map<Addr, Block>)
    requires IsRun(states, actions)
    requires var s := states[|actions|];
             s.senders == map[] && s.rx.pc == Idle && heap == s.heap && freeHead == s.rx.freeHead.addr
    ensures rest == map[]
    ensures forall i, j | 0 <= i < j < |freed| :: freed[i] != freed[j]
    ensures forall a :: a in heap <==> a in freed
  {
    hide Inv;
    ghost var s := states[|actions|];
    RunInv(states, actions, |actions|);
    NoLeak(states, actions, |actions|);
    ListOrder(s);
    ghost var blocks := s.chain.blocks;
    var cur := Some(freeHead);
    freed, rest := [], heap;
    while cur.Some?
      invariant freed <= blocks
      invariant cur == if |freed| < |blocks| then Some(blocks[|freed|]) else None
      invariant rest == map a | a in heap && a !in freed :: heap[a]
      decreases |blocks| - |freed|
    {
      var block := cur.value;
      ghost var k := |freed|;
      NextInOrder(blocks, heap, k);
      cur := rest[block].next;
      rest := rest - {block};
      freed := freed + [block];
    }
    assert freed == blocks;
  }
}
