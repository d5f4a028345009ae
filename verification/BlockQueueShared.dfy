/** Each kind of write to the shared memory keeps the shared invariant and stays within `Evolves`. */
module BlockQueueShared {
  import opened Wrappers
  import opened BlockQueue
  import opened BlockQueueInvariant

  ghost predicate SameSlots(m: map<Tid, Sender>, m': map<Tid, Sender>) {
    && m'.Keys == m.Keys
    && forall t | t in m :: m'[t].slot == m[t].slot
  }

  /** Nothing but local state changes. */
  lemma LocalShared(s: State, s': State)
    requires SharedOk(s)
    requires s' == s.(senders := s'.senders, rx := s'.rx)
    requires SameSlots(s.senders, s'.senders) && s'.rx.index == s.rx.index
    ensures SharedOk(s')
  {
    assert s.senders == map[] ==> s'.senders == map[];
  }

  lemma EvolvesSelf(s: State, who: Owner)
    requires SharedOk(s)
    ensures Evolves(s, s, who)
  {
    assert forall n: nat | Live(s.chain, n) :: LinkOk(s.chain, s.heap, n);
  }

  // ----- writes that leave every linked block alone -----

  ghost predicate SameLinked(c: Chain, h: Heap, h': Heap) {
    forall n: nat | Live(c, n) :: At(c, n) in h && At(c, n) in h' && h'[At(c, n)] == h[At(c, n)]
  }

  lemma SameLinkedKeeps(s: State, h': Heap)
    requires SharedOk(s) && SameLinked(s.chain, s.heap, h')
    ensures ChainOk(s.chain, h')
    ensures SlotsOk(s.chain, h', s.claims, s.done)
    ensures TailOk(s.chain, h', s.blockTail, s.tailNum, s.passedAt, s.releaser)
    ensures ClosedOk(s.chain, h', s.closeSlot)
  {
    assert forall n: nat | Live(s.chain, n) :: LinkOk(s.chain, s.heap, n);
    SameLinkedSlots(s.chain, s.heap, h', s.claims, s.done);
  }

  lemma SameLinkedSlots(c: Chain, h: Heap, h': Heap, claims: seq<Claim>, done: seq<bool>)
    requires SlotsOk(c, h, claims, done) && SameLinked(c, h, h')
    ensures SlotsOk(c, h', claims, done)
  {
  }

  lemma PrivateNotLinked(s: State, a: Addr)
    requires SharedOk(s) && (a !in s.heap || a in s.priv)
    ensures forall n: nat | Live(s.chain, n) :: At(s.chain, n) in s.heap && At(s.chain, n) != a
  {
    assert forall n: nat | Live(s.chain, n) :: LinkOk(s.chain, s.heap, n);
  }

  /** A thread allocates a private block or writes to one it owns. */
  lemma PrivateWrite(s: State, s': State, a: Addr, b: Block, who: Owner)
    requires SharedOk(s)
    requires a !in s.heap || (a in s.priv && s.priv[a] == who)
    requires s' == s.(heap := s.heap[a := b], priv := s.priv[a := who], nextEpoch := s'.nextEpoch)
    requires 0 < b.epoch < s'.nextEpoch && s.nextEpoch <= s'.nextEpoch
    ensures SharedOk(s') && Evolves(s, s', who)
  {
    PrivateNotLinked(s, a);
    SameLinkedKeeps(s, s'.heap);
  }

  /** The receiver gives the memory of a block it owns back to the allocator. */
  lemma PrivateFree(s: State, s': State, a: Addr, who: Owner)
    requires SharedOk(s)
    requires a in s.priv && s.priv[a] == who
    requires s' == s.(heap := s.heap - {a}, priv := s.priv - {a})
    ensures SharedOk(s') && Evolves(s, s', who)
  {
    PrivateNotLinked(s, a);
    SameLinkedKeeps(s, s'.heap);
  }

  // ----- writes to a linked block -----

  lemma OthersUntouched(c: Chain, h: Heap, n: nat, b: Block)
    requires ChainOk(c, h) && Live(c, n)
    ensures forall m: nat | Live(c, m) :: At(c, m) in h && (m != n ==> At(c, m) != At(c, n))
    ensures forall m: nat | Live(c, m) && m != n :: h[At(c, n) := b][At(c, m)] == h[At(c, m)]
  {
    assert forall m: nat | Live(c, m) :: LinkOk(c, h, m);
  }

  /** A thread writes to linked block `n`, without touching the links. */
  lemma LinkedWriteKeeps(s: State, n: nat, b: Block, done': seq<bool>)
    requires SharedOk(s) && Live(s.chain, n) && At(s.chain, n) in s.heap
    requires var prev := s.heap[At(s.chain, n)];
             b.start == prev.start && b.next == prev.next && b.epoch == prev.epoch && b.ready <= FULL
    requires |done'| == |s.done|
    requires forall i: nat | BlockOf(i) != n :: Done(done', i) == Done(s.done, i)
    requires forall i: nat | BlockOf(i) == n :: SlotOk(b, s.claims, done', i)
    requires ReleasedOk(b, n, s.passedAt)
    requires b.closed ==> s.closeSlot.Some? && BlockOf(s.closeSlot.value) == n
    ensures var h' := s.heap[At(s.chain, n) := b];
            && ChainOk(s.chain, h')
            && OwnershipOk(s.chain, h', s.priv, s.nextEpoch)
            && SlotsOk(s.chain, h', s.claims, done')
            && TailOk(s.chain, h', s.blockTail, s.tailNum, s.passedAt, s.releaser)
            && ClosedOk(s.chain, h', s.closeSlot)
  {
    hide ChainOk, SlotsOk, ServedOk, CloseSlotOk, ReadOk, FinalOk, HandlesOk, PassedOk, LinkOk, SlotOk;
    OthersUntouched(s.chain, s.heap, n, b);
    LinkedWriteChain(s.chain, s.heap, n, b);
    LinkedWriteSlots(s.chain, s.heap, n, b, s.claims, s.done, done');
  }

  lemma LinkedWriteChain(c: Chain, h: Heap, n: nat, b: Block)
    requires ChainOk(c, h) && Live(c, n) && At(c, n) in h
    requires b.start == h[At(c, n)].start && b.next == h[At(c, n)].next && b.ready <= FULL
    ensures ChainOk(c, h[At(c, n) := b])
  {
    OthersUntouched(c, h, n, b);
    assert forall m: nat | Live(c, m) :: LinkOk(c, h, m);
  }

  lemma LinkedWriteSlots(c: Chain, h: Heap, n: nat, b: Block, claims: seq<Claim>, done: seq<bool>,
                         done': seq<bool>)
    requires SlotsOk(c, h, claims, done) && Live(c, n) && |done'| == |done|
    requires forall m: nat | Live(c, m) && m != n :: At(c, m) != At(c, n)
    requires forall i: nat | BlockOf(i) != n :: Done(done', i) == Done(done, i)
    requires forall i: nat | BlockOf(i) == n :: SlotOk(b, claims, done', i)
    ensures SlotsOk(c, h[At(c, n) := b], claims, done')
  {
  }

  lemma LinkedWriteEvolves(s: State, s': State, n: nat, b: Block, who: Owner)
    requires SharedOk(s) && Live(s.chain, n) && At(s.chain, n) in s.heap
    requires s'.heap == s.heap[At(s.chain, n) := b] && s'.chain == s.chain
    requires BlockEvolves(s.heap[At(s.chain, n)], b, n, s.releaser, s.claims, who)
    ensures BlocksEvolve(s, s', who)
  {
    OthersUntouched(s.chain, s.heap, n, b);
  }

  lemma LinkedWrite(s: State, s': State, n: nat, b: Block, who: Owner)
    requires SharedOk(s) && Live(s.chain, n) && At(s.chain, n) in s.heap
    requires s' == s.(heap := s.heap[At(s.chain, n) := b])
    requires var prev := s.heap[At(s.chain, n)];
             && b.start == prev.start && b.next == prev.next && b.epoch == prev.epoch && b.ready <= FULL
             && BlockEvolves(prev, b, n, s.releaser, s.claims, who)
    requires forall i: nat | BlockOf(i) == n :: SlotOk(b, s.claims, s.done, i)
    requires ReleasedOk(b, n, s.passedAt)
    requires b.closed ==> s.closeSlot.Some? && BlockOf(s.closeSlot.value) == n
    ensures SharedOk(s') && Evolves(s, s', who)
  {
    LinkedWriteKeeps(s, n, b, s.done);
    LinkedWriteEvolves(s, s', n, b, who);
  }

  // ----- the list grows and shrinks -----

  lemma AppendChain(c: Chain, b: Addr)
    requires |c.blocks| > 0
    ensures var c' := c.(blocks := c.blocks + [b]);
            && (forall m: nat :: Live(c', m) <==> Live(c, m) || m == c.base + |c.blocks|)
            && (forall m: nat | Live(c, m) :: At(c', m) == At(c, m))
            && At(c', c.base + |c.blocks|) == b
  {
  }

  /** A successful compare-and-swap appends the private block `b` behind the last linked block `n`. */
  lemma LinkWrite(s: State, s': State, n: nat, b: Addr, who: Owner)
    requires SharedOk(s) && Live(s.chain, n) && !Live(s.chain, n + 1) && At(s.chain, n) in s.heap
    requires Blank(s.heap, s.priv, b, who) && s.heap[b].start == (n + 1) * BLOCK_CAP
    requires s' == Link(s, At(s.chain, n), b)
    ensures SharedOk(s') && Evolves(s, s', who)
  {
    AppendChain(s.chain, b);
    PrivateNotLinked(s, b);
    LinkChain(s, s', n, b, who);
    LinkSlots(s, s', n, b, who);
    LinkEvolves(s, s', n, b, who);
  }

  lemma LinkOwnership(s: State, s': State, n: nat, b: Addr, who: Owner)
    requires SharedOk(s) && Live(s.chain, n) && At(s.chain, n) in s.heap && Blank(s.heap, s.priv, b, who)
    requires s' == Link(s, At(s.chain, n), b)
    ensures OwnershipOk(s'.chain, s'.heap, s'.priv, s'.nextEpoch)
  {
    hide SlotsOk, ServedOk, CloseSlotOk, ClosedOk, ReadOk, FinalOk, HandlesOk, TailOk, PassedOk;
    AppendChain(s.chain, b);
    PrivateNotLinked(s, b);
  }

  lemma LinkChain(s: State, s': State, n: nat, b: Addr, who: Owner)
    requires SharedOk(s) && Live(s.chain, n) && !Live(s.chain, n + 1) && At(s.chain, n) in s.heap
    requires Blank(s.heap, s.priv, b, who) && s.heap[b].start == (n + 1) * BLOCK_CAP
    requires s' == Link(s, At(s.chain, n), b)
    ensures ChainOk(s'.chain, s'.heap)
    ensures OwnershipOk(s'.chain, s'.heap, s'.priv, s'.nextEpoch)
  {
    hide SlotsOk, ServedOk, CloseSlotOk, ClosedOk, ReadOk, FinalOk, HandlesOk, TailOk, PassedOk, OwnershipOk;
    AppendChain(s.chain, b);
    PrivateNotLinked(s, b);
    LinkOwnership(s, s', n, b, who);
    assert forall m: nat | Live(s.chain, m) :: LinkOk(s.chain, s.heap, m);
    forall m: nat | Live(s'.chain, m)
      ensures LinkOk(s'.chain, s'.heap, m)
    {
      if Live(s.chain, m) {
        assert LinkOk(s.chain, s.heap, m);
      }
    }
  }

  lemma LinkSlots(s: State, s': State, n: nat, b: Addr, who: Owner)
    requires SharedOk(s) && Live(s.chain, n) && !Live(s.chain, n + 1) && At(s.chain, n) in s.heap
    requires Blank(s.heap, s.priv, b, who)
    requires s' == Link(s, At(s.chain, n), b)
    ensures SlotsOk(s'.chain, s'.heap, s'.claims, s'.done)
    ensures TailOk(s'.chain, s'.heap, s'.blockTail, s'.tailNum, s'.passedAt, s'.releaser)
    ensures ClosedOk(s'.chain, s'.heap, s'.closeSlot)
  {
    AppendChain(s.chain, b);
    PrivateNotLinked(s, b);
  }

  lemma LinkEvolves(s: State, s': State, n: nat, b: Addr, who: Owner)
    requires SharedOk(s) && Live(s.chain, n) && At(s.chain, n) in s.heap
    requires Blank(s.heap, s.priv, b, who)
    requires s' == Link(s, At(s.chain, n), b)
    ensures Evolves(s, s', who)
  {
    AppendChain(s.chain, b);
    PrivateNotLinked(s, b);
  }

  /** `block_tail` moves from the final block `s.tailNum` to its successor. */
  lemma TailWrite(s: State, s': State, next: Addr, t: Tid)
    requires SharedOk(s) && Live(s.chain, s.tailNum + 1) && At(s.chain, s.tailNum + 1) == next
    requires Full(s.done, s.tailNum)
    requires s' == s.(blockTail := next, tailNum := s.tailNum + 1,
                      passedAt := s.passedAt + [s.tailPosition], releaser := s.releaser + [t])
    ensures SharedOk(s') && Evolves(s, s', SenderOwns(t))
  {
    assert forall n: nat | Live(s.chain, n) :: LinkOk(s.chain, s.heap, n);
    assert FinalOk(s'.tailNum, s'.done) by {
      forall i: nat | i < s'.tailNum * BLOCK_CAP
        ensures Done(s'.done, i)
      {
        assert i < s.tailNum * BLOCK_CAP || s.tailNum * BLOCK_CAP <= i < (s.tailNum + 1) * BLOCK_CAP;
      }
    }
  }

  lemma DropChain(c: Chain)
    requires |c.blocks| > 1
    ensures var c' := Chain(c.blocks[1..], c.base + 1);
            && (forall m: nat :: Live(c', m) <==> Live(c, m) && m != c.base)
            && (forall m: nat | Live(c', m) :: At(c', m) == At(c, m))
  {
  }

  /** The receiver detaches the oldest block, which `block_tail` passed before any open slot was claimed. */
  lemma DetachWrite(s: State, s': State)
    requires SharedOk(s) && s.chain.base < s.tailNum && s.passedAt[s.chain.base] <= s.rx.index
    requires s' == s.(rx := s'.rx, chain := Chain(s.chain.blocks[1..], s.chain.base + 1),
                      priv := s.priv[At(s.chain, s.chain.base) := ReceiverOwns])
    requires s'.rx.index == s.rx.index
    ensures SharedOk(s') && Evolves(s, s', ReceiverOwns)
  {
    DropChain(s.chain);
    DetachChain(s.chain, s'.chain, s.heap);
    DetachOwnership(s.chain, s'.chain, s.heap, s.priv, s.nextEpoch);
    DetachSlots(s, s'.chain);
    DetachEvolves(s, s');
  }

  lemma DetachChain(c: Chain, c': Chain, h: Heap)
    requires ChainOk(c, h) && |c.blocks| > 1 && c' == Chain(c.blocks[1..], c.base + 1)
    ensures ChainOk(c', h)
  {
    DropChain(c);
    forall m: nat | Live(c', m)
      ensures LinkOk(c', h, m)
    {
      assert LinkOk(c, h, m);
    }
  }

  lemma DetachOwnership(c: Chain, c': Chain, h: Heap, priv: map<Addr, Owner>, nextEpoch: nat)
    requires ChainOk(c, h) && OwnershipOk(c, h, priv, nextEpoch)
    requires |c.blocks| > 1 && c' == Chain(c.blocks[1..], c.base + 1)
    ensures OwnershipOk(c', h, priv[At(c, c.base) := ReceiverOwns], nextEpoch)
  {
    DropChain(c);
    assert LinkOk(c, h, c.base);
    forall a | a in c.blocks && a != At(c, c.base)
      ensures a in c'.blocks
    {
      var k :| 0 <= k < |c.blocks| && c.blocks[k] == a;
      assert c'.blocks[k - 1] == a;
    }
  }

  lemma DetachSlots(s: State, c': Chain)
    requires SharedOk(s) && s.chain.base < s.tailNum
    requires c' == Chain(s.chain.blocks[1..], s.chain.base + 1)
    ensures SlotsOk(c', s.heap, s.claims, s.done)
    ensures TailOk(c', s.heap, s.blockTail, s.tailNum, s.passedAt, s.releaser)
    ensures ClosedOk(c', s.heap, s.closeSlot)
  {
    DropChain(s.chain);
  }

  lemma DetachEvolves(s: State, s': State)
    requires SharedOk(s) && s.chain.base < s.tailNum && s.passedAt[s.chain.base] <= s.rx.index
    requires s' == s.(rx := s'.rx, chain := Chain(s.chain.blocks[1..], s.chain.base + 1),
                      priv := s.priv[At(s.chain, s.chain.base) := ReceiverOwns])
    ensures Evolves(s, s', ReceiverOwns)
  {
    hide SlotsOk, ServedOk, CloseSlotOk, ClosedOk, ReadOk, FinalOk, HandlesOk, SlotOk;
    DropChain(s.chain);
    assert forall n: nat | Live(s.chain, n) :: LinkOk(s.chain, s.heap, n);
  }

  // ----- slots -----

  lemma OffsetInjective(i: nat, j: nat)
    requires BlockOf(i) == BlockOf(j) && Offset(i) == Offset(j)
    ensures i == j
  {
  }

  /** The ready bit of `slot` is set after its value was written. */
  lemma ReadyWrite(s: State, s': State, t: Tid)
    requires SharedOk(s) && t in s.senders && SenderOk(s, t) && s.senders[t].pc.MarkReady?
    requires s' == PublishStep(s, t)
    ensures SharedOk(s') && Evolves(s, s', SenderOwns(t))
  {
    hide SharedOk, Evolves;
    var l := s.senders[t];
    var prev := s.heap[l.pc.ptr.addr];
    var b := prev.(ready := prev.ready + {Offset(l.slot)});
    ReadyBlock(s, prev, b, l);
    ReadyUpdate(s, s', t, b);
  }

  lemma ReadyUpdate(s: State, s': State, t: Tid, b: Block)
    requires SharedOk(s) && t in s.senders && SenderOk(s, t) && s.senders[t].msg.Value?
    requires var n := BlockOf(s.senders[t].slot);
             && Live(s.chain, n) && At(s.chain, n) in s.heap
             && b == s.heap[At(s.chain, n)].(ready := b.ready)
             && b.ready <= FULL && ReleasedOk(b, n, s.passedAt)
             && (b.closed ==> s.closeSlot.Some? && BlockOf(s.closeSlot.value) == n)
             && (forall i: nat | BlockOf(i) == n :: SlotOk(b, s.claims, s.done[s.senders[t].slot := true], i))
             && s' == s.(heap := s.heap[At(s.chain, n) := b], done := s.done[s.senders[t].slot := true], senders := s.senders - {t})
    ensures SharedOk(s') && Evolves(s, s', SenderOwns(t))
  {
    hide ChainOk, SlotsOk, TailOk, FinalOk, PassedOk, CloseSlotOk, ClosedOk, ServedOk, HandlesOk, ReadOk, SlotOk, PcOk;
    var n := BlockOf(s.senders[t].slot);
    ReadyLengths(s);
    LinkedWriteKeeps(s, n, b, s'.done);
    LinkedWriteEvolves(s, s', n, b, SenderOwns(t));
    ReadyServed(s, s', t);
  }

  lemma ReadyLengths(s: State)
    requires SharedOk(s)
    ensures |s.done| == |s.claims| && |s.releaser| == |s.passedAt|
  {
  }

  lemma ReadyBlock(s: State, prev: Block, b: Block, l: Sender)
    requires SharedOk(s) && Live(s.chain, BlockOf(l.slot))
    requires At(s.chain, BlockOf(l.slot)) in s.heap && prev == s.heap[At(s.chain, BlockOf(l.slot))]
    requires b == prev.(ready := prev.ready + {Offset(l.slot)})
    requires l.slot < |s.done| == |s.claims| && s.claims[l.slot].msg == l.msg && l.msg.Value?
    requires Offset(l.slot) in prev.values && prev.values[Offset(l.slot)] == l.msg.item
    ensures b.ready <= FULL
    ensures forall i: nat | BlockOf(i) == BlockOf(l.slot) :: SlotOk(b, s.claims, s.done[l.slot := true], i)
    ensures ReleasedOk(b, BlockOf(l.slot), s.passedAt)
    ensures b.closed ==> s.closeSlot.Some? && BlockOf(s.closeSlot.value) == BlockOf(l.slot)
  {
    var done' := s.done[l.slot := true];
    assert LinkOk(s.chain, s.heap, BlockOf(l.slot));
    assert ReleasedOk(prev, BlockOf(l.slot), s.passedAt);
    forall i: nat | BlockOf(i) == BlockOf(l.slot)
      ensures SlotOk(b, s.claims, done', i)
    {
      assert SlotOk(prev, s.claims, s.done, i);
      if Offset(i) == Offset(l.slot) { OffsetInjective(i, l.slot); }
    }
  }

  lemma ReadyServed(s: State, s': State, t: Tid)
    requires SharedOk(s) && t in s.senders && SenderOk(s, t)
    requires s.senders[t].msg.Value?
    requires s'.claims == s.claims && s'.closeSlot == s.closeSlot && s'.txCount == s.txCount
    requires s'.done == s.done[s.senders[t].slot := true] && s'.senders == s.senders - {t}
    ensures ServedOk(s'.claims, s'.done, s'.closeSlot, s'.senders)
    ensures CloseSlotOk(s'.claims, s'.done, s'.closeSlot)
    ensures HandlesOk(s'.txCount, s'.closeSlot, s'.senders)
    ensures ClaimsEvolve(s.claims, s'.claims, s.done, s'.done, SenderOwns(t))
    ensures ReadOk(s'.claims, s'.done, s.popped, s.rx.index)
    ensures FinalOk(s.tailNum, s'.done)
  {
    forall i: nat | Open(s'.claims, s'.done, s'.closeSlot, i)
      ensures InFlight(s'.claims, s'.senders, i)
    {
      assert Open(s.claims, s.done, s.closeSlot, i);
    }
  }

  /** `push` or `close` claims the next slot. */
  lemma ClaimWrite(s: State, s': State, t: Tid, msg: Message)
    requires SharedOk(s) && t !in s.senders
    requires match msg
             case Value(_) => s.txCount > 0 && s' == ClaimSlot(s, t, msg)
             case Close => s.txCount == 0 && s.closeSlot == None
                           && s' == ClaimSlot(s, t, msg).(closeSlot := Some(s.tailPosition))
    ensures SharedOk(s') && Evolves(s, s', SenderOwns(t))
  {
    hide ChainOk, OwnershipOk, TailOk, CloseSlotOk, ClosedOk, ServedOk, HandlesOk;
    assert forall i: nat :: Done(s'.done, i) == Done(s.done, i);
    ClaimClose(s, s', t, msg);
    ClaimSlots(s, s');
    ClaimEvolves(s, s', t);
  }

  lemma ClaimSlots(s: State, s': State)
    requires SlotsOk(s.chain, s.heap, s.claims, s.done) && s'.chain == s.chain && s'.heap == s.heap
    requires |s'.claims| == |s'.done| && s.claims <= s'.claims
    requires forall i: nat :: Done(s'.done, i) == Done(s.done, i)
    ensures SlotsOk(s'.chain, s'.heap, s'.claims, s'.done)
  {
    forall i: nat | Live(s'.chain, BlockOf(i))
      ensures SlotOk(s'.heap[At(s'.chain, BlockOf(i))], s'.claims, s'.done, i)
    {
      assert SlotOk(s.heap[At(s.chain, BlockOf(i))], s.claims, s.done, i);
    }
  }

  lemma ClaimEvolves(s: State, s': State, t: Tid)
    requires ChainOk(s.chain, s.heap) && s'.chain == s.chain && s'.heap == s.heap && s'.priv == s.priv
    requires s'.passedAt == s.passedAt && s'.releaser == s.releaser && s'.tailNum == s.tailNum
    requires s.claims <= s'.claims && |s.done| <= |s'.done|
    requires forall i: nat :: Done(s'.done, i) == Done(s.done, i)
    ensures Evolves(s, s', SenderOwns(t))
  {
    assert forall n: nat | Live(s.chain, n) :: LinkOk(s.chain, s.heap, n);
  }

  lemma ClaimClose(s: State, s': State, t: Tid, msg: Message)
    requires SharedOk(s) && t !in s.senders
    requires match msg
             case Value(_) => s.txCount > 0 && s' == ClaimSlot(s, t, msg)
             case Close => s.txCount == 0 && s.closeSlot == None
                           && s' == ClaimSlot(s, t, msg).(closeSlot := Some(s.tailPosition))
    ensures ServedOk(s'.claims, s'.done, s'.closeSlot, s'.senders)
    ensures CloseSlotOk(s'.claims, s'.done, s'.closeSlot)
    ensures ClosedOk(s'.chain, s'.heap, s'.closeSlot)
    ensures HandlesOk(s'.txCount, s'.closeSlot, s'.senders)
  {
    assert forall i: nat :: Done(s'.done, i) == Done(s.done, i);
    forall i: nat | Open(s'.claims, s'.done, s'.closeSlot, i)
      ensures InFlight(s'.claims, s'.senders, i)
    {
      if i < |s.claims| {
        assert Open(s.claims, s.done, s.closeSlot, i);
        assert InFlight(s.claims, s.senders, i);
      }
    }
    if msg.Close? {
      assert forall i: nat | i < |s.claims| && !Done(s.done, i) :: Open(s.claims, s.done, s.closeSlot, i);
    }
  }

  /** The receiver takes the finished value at its index. */
  lemma ReadWrite(s: State, s': State, v: Item)
    requires SharedOk(s) && Done(s.done, s.rx.index) && s.claims[s.rx.index].msg == Value(v)
    requires s' == s.(popped := s.popped + [v], rx := s'.rx) && s'.rx.index == s.rx.index + 1
    ensures SharedOk(s') && Evolves(s, s', ReceiverOwns)
  {
  }
}
