/**
 The inductive invariant of the block queue, and the relation `Evolves` that says what one thread's
 step may do to the state the other threads rely on.
 */
module BlockQueueInvariant {
  import opened Wrappers
  import opened BlockQueue

  type Heap = map<Addr, Block>

  // ----- the linked blocks -----

  /** Block number `n` is linked: not yet reclaimed, already appended. */
  ghost predicate Live(c: Chain, n: nat) { c.base <= n < c.base + |c.blocks| }

  ghost function At(c: Chain, n: nat): Addr
    requires Live(c, n)
  {
    c.blocks[n - c.base]
  }

  ghost function NextOf(c: Chain, n: nat): Option<Addr>
    requires Live(c, n)
  {
    if Live(c, n + 1) then Some(At(c, n + 1)) else None
  }

  ghost predicate Distinct(c: Chain) {
    forall m: nat, n: nat | Live(c, m) && Live(c, n) && At(c, m) == At(c, n) :: m == n
  }

  ghost predicate LinkOk(c: Chain, h: Heap, n: nat)
    requires Live(c, n)
  {
    && At(c, n) in h
    && h[At(c, n)].start == n * BLOCK_CAP
    && h[At(c, n)].next == NextOf(c, n)
    && h[At(c, n)].ready <= FULL
  }

  /** The linked blocks are pairwise different and each has the start index of its number. */
  ghost predicate ChainOk(c: Chain, h: Heap) {
    && |c.blocks| > 0
    && Distinct(c)
    && (forall n: nat | Live(c, n) :: LinkOk(c, h, n))
  }

  /** Every allocated block is either linked or private to one thread, never both. */
  ghost predicate OwnershipOk(c: Chain, h: Heap, priv: map<Addr, Owner>, nextEpoch: nat) {
    && (forall n: nat | Live(c, n) :: At(c, n) !in priv)
    && (forall a | a in priv :: a in h)
    && (forall a | a in h && a !in priv :: a in c.blocks)
    && (forall a | a in h :: 0 < h[a].epoch < nextEpoch)
  }

  // ----- the slots -----

  ghost predicate Done(done: seq<bool>, slot: nat) { slot < |done| && done[slot] }

  /** The ready bit of a slot says whether it is finished; a finished cell holds the claimed value. */
  ghost predicate SlotOk(b: Block, claims: seq<Claim>, done: seq<bool>, i: nat)
    requires |claims| == |done|
  {
    && (Offset(i) in b.ready <==> Done(done, i))
    && (Done(done, i) ==>
          && claims[i].msg.Value?
          && Offset(i) in b.values
          && b.values[Offset(i)] == claims[i].msg.item)
  }

  ghost predicate SlotsOk(c: Chain, h: Heap, claims: seq<Claim>, done: seq<bool>) {
    && |claims| == |done|
    && (forall i: nat | Live(c, BlockOf(i)) ::
          At(c, BlockOf(i)) in h && SlotOk(h[At(c, BlockOf(i))], claims, done, i))
    && (forall i: nat | Done(done, i) :: BlockOf(i) < c.base + |c.blocks|)
  }

  /** A released block was passed by `block_tail`, and stores a tail position read after that. */
  ghost predicate ReleasedOk(b: Block, n: nat, passedAt: seq<nat>) {
    b.released ==> n < |passedAt| && passedAt[n] <= b.observed
  }

  ghost predicate TailOk(c: Chain, h: Heap, blockTail: Addr, tailNum: nat, passedAt: seq<nat>,
                         releaser: seq<Tid>) {
    && Live(c, tailNum)
    && blockTail == At(c, tailNum)
    && |passedAt| == |releaser| == tailNum
    && (forall n: nat | Live(c, n) :: At(c, n) in h && ReleasedOk(h[At(c, n)], n, passedAt))
  }

  /** Every block before the tail block is final. */
  ghost predicate FinalOk(tailNum: nat, done: seq<bool>) {
    forall i: nat | i < tailNum * BLOCK_CAP :: Done(done, i)
  }

  ghost predicate PassedOk(passedAt: seq<nat>, tailPosition: nat) {
    forall n: nat | n < |passedAt| :: passedAt[n] <= tailPosition
  }

  /** The receiver has handed out exactly the values of the slots below its index. */
  ghost predicate ReadOk(claims: seq<Claim>, done: seq<bool>, popped: seq<Item>, index: nat) {
    && |popped| == index <= |done| == |claims|
    && forall i: nat | i < index :: Done(done, i) && claims[i].msg == Value(popped[i])
  }

  // ----- closing -----

  ghost predicate InFlight(claims: seq<Claim>, senders: map<Tid, Sender>, i: nat)
    requires i < |claims|
  {
    claims[i].tid in senders && senders[claims[i].tid].slot == i
  }

  ghost predicate Open(claims: seq<Claim>, done: seq<bool>, closeSlot: Option<nat>, i: nat) {
    i < |claims| && !Done(done, i) && closeSlot != Some(i)
  }

  /** Every claimed slot is finished, or still being served, or the slot of `close`. */
  ghost predicate ServedOk(claims: seq<Claim>, done: seq<bool>, closeSlot: Option<nat>,
                           senders: map<Tid, Sender>) {
    forall i: nat | Open(claims, done, closeSlot, i) :: InFlight(claims, senders, i)
  }

  /** The slot of `close` is the last one, is never finished, and all others are finished before it. */
  ghost predicate CloseSlotOk(claims: seq<Claim>, done: seq<bool>, closeSlot: Option<nat>) {
    && (forall i: nat | i < |claims| && claims[i].msg.Close? :: closeSlot == Some(i))
    && (closeSlot.Some? ==>
          var c := closeSlot.value;
          && c + 1 == |claims|
          && claims[c].msg.Close?
          && !Done(done, c)
          && forall i: nat | i < c :: Done(done, i))
  }

  ghost predicate ClosedOk(c: Chain, h: Heap, closeSlot: Option<nat>) {
    forall n: nat | Live(c, n) && At(c, n) in h && h[At(c, n)].closed ::
      closeSlot.Some? && BlockOf(closeSlot.value) == n
  }

  ghost predicate HandlesOk(txCount: nat, closeSlot: Option<nat>, senders: map<Tid, Sender>) {
    && (closeSlot.Some? ==> txCount == 0)
    && (txCount == 0 && closeSlot.None? ==> senders == map[])
  }

  ghost predicate SharedOk(s: State) {
    && ChainOk(s.chain, s.heap)
    && OwnershipOk(s.chain, s.heap, s.priv, s.nextEpoch)
    && SlotsOk(s.chain, s.heap, s.claims, s.done)
    && |s.claims| == s.tailPosition
    && TailOk(s.chain, s.heap, s.blockTail, s.tailNum, s.passedAt, s.releaser)
    && FinalOk(s.tailNum, s.done)
    && PassedOk(s.passedAt, s.tailPosition)
    && ReadOk(s.claims, s.done, s.popped, s.rx.index)
    && ServedOk(s.claims, s.done, s.closeSlot, s.senders)
    && CloseSlotOk(s.claims, s.done, s.closeSlot)
    && ClosedOk(s.chain, s.heap, s.closeSlot)
    && HandlesOk(s.txCount, s.closeSlot, s.senders)
  }

  // ----- what the threads know -----

  ghost function Num(h: Heap, p: Ptr): nat
    requires p.addr in h
  {
    BlockOf(h[p.addr].start)
  }

  /** `p` points to a linked block that has not been recycled since `p` was obtained. */
  ghost predicate Linked(c: Chain, h: Heap, p: Ptr) {
    && p.addr in h && h[p.addr].epoch == p.epoch
    && Live(c, Num(h, p)) && At(c, Num(h, p)) == p.addr
  }

  /** All passages of `block_tail` over block `n` or later ones came after `slot` was claimed. */
  ghost predicate PassedLater(passedAt: seq<nat>, n: nat, slot: nat) {
    forall m: nat | n <= m < |passedAt| :: passedAt[m] > slot
  }

  /** The sender of `slot` may use `p`. */
  ghost predicate Holding(s: State, p: Ptr, slot: nat) {
    Linked(s.chain, s.heap, p) && PassedLater(s.passedAt, Num(s.heap, p), slot)
  }

  /** A block that is allocated but not linked, in the blank state `try_push` needs. */
  ghost predicate Blank(h: Heap, priv: map<Addr, Owner>, a: Addr, who: Owner) {
    && a in priv && priv[a] == who
    && a in h
    && h[a].next == None && h[a].ready == {}
    && !h[a].released && !h[a].closed
  }

  ghost predicate Consecutive(h: Heap, p: Ptr, next: Ptr) {
    p.addr in h && next.addr in h && Num(h, next) == Num(h, p) + 1
  }

  /** Between the swap of `block_tail` and the release of the block it passed. */
  ghost predicate Releasing(s: State, t: Tid, p: Ptr) {
    && p.addr in s.heap
    && Num(s.heap, p) < s.tailNum == |s.passedAt| == |s.releaser|
    && s.releaser[Num(s.heap, p)] == t
    && !s.heap[p.addr].released
  }

  ghost predicate Full(done: seq<bool>, n: nat) {
    forall i: nat | n * BLOCK_CAP <= i < (n + 1) * BLOCK_CAP :: Done(done, i)
  }

  /** The block at hand is before the target block; its successor is `next`. */
  ghost predicate Stepping(s: State, slot: nat, p: Ptr, next: Ptr) {
    && Holding(s, p, slot) && Num(s.heap, p) < BlockOf(slot)
    && Holding(s, next, slot) && Consecutive(s.heap, p, next)
  }

  ghost predicate PcOk(s: State, t: Tid, l: Sender) {
    var target := BlockOf(l.slot);
    var h := s.heap;
    match l.pc
    case LoadTail => true
    case ReadStart(p) => Holding(s, p, l.slot) && Num(h, p) <= target
    case AtBlock(p, _) => Holding(s, p, l.slot) && Num(h, p) <= target
    case LoadNext(p, _) => Holding(s, p, l.slot) && Num(h, p) < target
    case Alloc(p, _) => Holding(s, p, l.slot) && Num(h, p) < target
    case GrowCas(p, _, b) =>
      && Holding(s, p, l.slot) && Num(h, p) < target
      && Blank(h, s.priv, b, SenderOwns(t)) && h[b].start == h[p.addr].start + BLOCK_CAP
    case PushStart(p, _, next, b, curr) =>
      && Stepping(s, l.slot, p, next)
      && Holding(s, curr, l.slot)
      && Blank(h, s.priv, b, SenderOwns(t))
    case PushCas(p, _, next, b, curr) =>
      && Stepping(s, l.slot, p, next)
      && Holding(s, curr, l.slot)
      && Blank(h, s.priv, b, SenderOwns(t)) && h[b].start == h[curr.addr].start + BLOCK_CAP
    case IsFinal(p, _, next) => Stepping(s, l.slot, p, next)
    case SwapTail(p, next) => Stepping(s, l.slot, p, next) && Full(s.done, Num(h, p))
    case Observe(p, next) => Stepping(s, l.slot, p, next) && Releasing(s, t, p)
    case StoreObserved(p, next, position) =>
      && Stepping(s, l.slot, p, next)
      && Releasing(s, t, p) && s.passedAt[Num(h, p)] <= position
    case MarkReleased(p, next) =>
      && Stepping(s, l.slot, p, next)
      && Releasing(s, t, p) && s.passedAt[Num(h, p)] <= h[p.addr].observed
    case WriteSlot(p) => Holding(s, p, l.slot) && Num(h, p) == target
    case MarkReady(p) =>
      && Holding(s, p, l.slot) && Num(h, p) == target
      && l.msg.Value?
      && Offset(l.slot) in h[p.addr].values
      && h[p.addr].values[Offset(l.slot)] == l.msg.item
  }

  ghost predicate SenderOk(s: State, t: Tid)
    requires t in s.senders
  {
    var l := s.senders[t];
    && l.slot < |s.claims| == |s.done|
    && s.claims[l.slot] == Claim(t, l.msg)
    && !Done(s.done, l.slot)
    && PcOk(s, t, l)
  }

  ghost predicate RxPcOk(s: State) {
    var rx := s.rx;
    var here := Valid(s, rx.head) && Num(s.heap, rx.head) == BlockOf(rx.index);
    match rx.pc
    case Idle => true
    case AdvCheck => true
    case AdvNext => Valid(s, rx.head) && Num(s.heap, rx.head) < BlockOf(rx.index)
    case ReclaimLoop => here
    case ReadReleased => here && rx.freeHead.addr != rx.head.addr
    case ReadObserved =>
      && here && rx.freeHead.addr != rx.head.addr
      && rx.freeHead.addr in s.heap && s.heap[rx.freeHead.addr].released
    case TakeNext =>
      && here && rx.freeHead.addr != rx.head.addr
      && rx.freeHead.addr in s.heap && s.heap[rx.freeHead.addr].released
      && s.heap[rx.freeHead.addr].observed <= rx.index
    case Reset(b) => here && Valid(s, b) && b.addr in s.priv && s.priv[b.addr] == ReceiverOwns
    case ReuseTail(b) => here && Valid(s, b) && Blank(s.heap, s.priv, b.addr, ReceiverOwns)
    case TryStart(b, curr, _) =>
      here && Valid(s, b) && Blank(s.heap, s.priv, b.addr, ReceiverOwns) && Linked(s.chain, s.heap, curr)
    case TryCas(b, curr, tries) =>
      && here && Valid(s, b) && Blank(s.heap, s.priv, b.addr, ReceiverOwns) && Linked(s.chain, s.heap, curr)
      && tries > 0
      && s.heap[b.addr].start == s.heap[curr.addr].start + BLOCK_CAP
    case FreeBlock(b) => here && Valid(s, b) && Blank(s.heap, s.priv, b.addr, ReceiverOwns)
    case ReadBits => here
    case ReadSlot => here && Done(s.done, rx.index)
  }

  /** The receiver's head is at most the block of its index; `free_head` is the oldest linked block. */
  ghost predicate RxOk(s: State) {
    && |s.chain.blocks| > 0
    && Linked(s.chain, s.heap, s.rx.head) && Num(s.heap, s.rx.head) <= BlockOf(s.rx.index)
    && Valid(s, s.rx.freeHead) && s.rx.freeHead.addr == At(s.chain, s.chain.base)
    && RxPcOk(s)
  }

  ghost predicate SendersOk(s: State) { forall t | t in s.senders :: SenderOk(s, t) }

  ghost predicate Inv(s: State) { !s.fault && SharedOk(s) && RxOk(s) && SendersOk(s) }

  // ----- rely and guarantee -----

  ghost predicate SameCell(b: Block, c: Block, o: nat) {
    && (o in b.values <==> o in c.values)
    && (o in b.values ==> b.values[o] == c.values[o])
  }

  /** What a step of `who` may change in the linked block `n`. */
  ghost predicate BlockEvolves(b: Block, c: Block, n: nat, releaser: seq<Tid>, claims: seq<Claim>,
                               who: Owner) {
    && c.start == b.start && c.epoch == b.epoch
    && ((c.released == b.released && c.observed == b.observed)
        || (n < |releaser| && who == SenderOwns(releaser[n]) && !b.released))
    && (forall i: nat | BlockOf(i) == n && !SameCell(b, c, Offset(i)) ::
          i < |claims| && who == SenderOwns(claims[i].tid))
  }

  ghost predicate BlocksEvolve(s: State, s': State, who: Owner) {
    && s.chain.base <= s'.chain.base
    && s.chain.base + |s.chain.blocks| <= s'.chain.base + |s'.chain.blocks|
    && (forall n: nat | Live(s.chain, n) && Live(s'.chain, n) ::
          && At(s'.chain, n) == At(s.chain, n)
          && At(s.chain, n) in s.heap && At(s.chain, n) in s'.heap
          && BlockEvolves(s.heap[At(s.chain, n)], s'.heap[At(s.chain, n)], n, s.releaser, s.claims, who))
    && (forall n: nat | Live(s.chain, n) && !Live(s'.chain, n) ::
          who == ReceiverOwns && n < |s.passedAt| && s.passedAt[n] <= s.rx.index)
  }

  ghost predicate TailEvolves(passedAt: seq<nat>, passedAt': seq<nat>, releaser: seq<Tid>,
                              releaser': seq<Tid>, tailPosition: nat) {
    && |passedAt| <= |passedAt'| && |releaser| <= |releaser'|
    && (forall n: nat | n < |passedAt| :: passedAt'[n] == passedAt[n])
    && (forall n: nat | n < |releaser| :: releaser'[n] == releaser[n])
    && (forall n: nat | |passedAt| <= n < |passedAt'| :: passedAt'[n] >= tailPosition)
  }

  ghost predicate ClaimsEvolve(claims: seq<Claim>, claims': seq<Claim>, done: seq<bool>,
                               done': seq<bool>, who: Owner) {
    && |claims| <= |claims'| && |done| <= |done'|
    && (forall i: nat | i < |claims| :: claims'[i] == claims[i])
    && (forall i: nat | Done(done, i) :: Done(done', i))
    && (forall i: nat | i < |done| && i < |claims| && Done(done', i) && !Done(done, i) ::
          who == SenderOwns(claims[i].tid))
  }

  ghost predicate PrivateEvolves(h: Heap, h': Heap, priv: map<Addr, Owner>, priv': map<Addr, Owner>,
                                 who: Owner) {
    forall a | a in priv && priv[a] != who && a in h ::
      a in priv' && priv'[a] == priv[a] && a in h' && h'[a] == h[a]
  }

  /** What a step of `who` may change, as seen by every other thread. */
  ghost predicate Evolves(s: State, s': State, who: Owner) {
    && BlocksEvolve(s, s', who)
    && TailEvolves(s.passedAt, s'.passedAt, s.releaser, s'.releaser, s.tailPosition)
    && s.tailNum <= s'.tailNum
    && ClaimsEvolve(s.claims, s'.claims, s.done, s'.done, who)
    && PrivateEvolves(s.heap, s'.heap, s.priv, s'.priv, who)
  }
}
