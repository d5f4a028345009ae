/**
 The lock-free block queue under the mpsc channels (`mpsc/list.rs`, `mpsc/block.rs`), as an
 interleaved step system: any number of senders, one receiver, sequentially consistent atomics.

 Every access to shared memory is one step.  The heap maps addresses to blocks, and an address can
 be freed and allocated again, or recycled to the end of the list, so address reuse is real.  A
 block carries an `epoch`, renewed whenever the memory is allocated or reset; a thread remembers
 the epoch of every block it obtained a pointer to, and an access through a pointer whose epoch is
 no longer current sets `fault`.  Epochs never influence a branch: compare-and-swap compares
 addresses only.
 */
module BlockQueue {
  import opened Wrappers

  type Item(!new)
  type Addr = nat
  type Tid = nat

  const BLOCK_CAP: nat := 32
  const WORD: nat := 0x1_0000_0000_0000_0000

  function BlockOf(slot: nat): nat { slot / BLOCK_CAP }
  function Offset(slot: nat): nat { slot % BLOCK_CAP }
  function StartIndex(slot: nat): nat { BlockOf(slot) * BLOCK_CAP }

  /** `Block::distance`, with the wrapping subtraction of machine words. */
  function Distance(start: nat, target: nat): nat { ((target - start) % WORD) / BLOCK_CAP }

  datatype Ptr = Ptr(addr: Addr, epoch: nat)

  datatype Block = Block(
    start: nat,
    next: Option<Addr>,
    ready: set<nat>,
    released: bool,
    closed: bool,
    observed: nat,
    values: map<nat, Item>,
    epoch: nat)

  datatype Message = Value(item: Item) | Close

  /** Where a sender stands between `fetch_add` on the tail position and the end of its call. */
  datatype SenderPc =
    | LoadTail
    | ReadStart(ptr: Ptr)
    | AtBlock(ptr: Ptr, updating: bool)
    | LoadNext(ptr: Ptr, updating: bool)
    | Alloc(ptr: Ptr, updating: bool)
    | GrowCas(ptr: Ptr, updating: bool, extra: Addr)
    | PushStart(ptr: Ptr, updating: bool, next: Ptr, extra: Addr, curr: Ptr)
    | PushCas(ptr: Ptr, updating: bool, next: Ptr, extra: Addr, curr: Ptr)
    | IsFinal(ptr: Ptr, updating: bool, next: Ptr)
    | SwapTail(ptr: Ptr, next: Ptr)
    | Observe(ptr: Ptr, next: Ptr)
    | StoreObserved(ptr: Ptr, next: Ptr, position: nat)
    | MarkReleased(ptr: Ptr, next: Ptr)
    | WriteSlot(ptr: Ptr)
    | MarkReady(ptr: Ptr)

  datatype Sender = Sender(slot: nat, msg: Message, pc: SenderPc)

  datatype PopResult = Popped(item: Item) | Closed | Nothing

  datatype ReceiverPc =
    | Idle
    | AdvCheck
    | AdvNext
    | ReclaimLoop
    | ReadReleased
    | ReadObserved
    | TakeNext
    | Reset(block: Ptr)
    | ReuseTail(block: Ptr)
    | TryStart(block: Ptr, curr: Ptr, tries: nat)
    | TryCas(block: Ptr, curr: Ptr, tries: nat)
    | FreeBlock(block: Ptr)
    | ReadBits
    | ReadSlot

  datatype Receiver = Receiver(head: Ptr, index: nat, freeHead: Ptr, pc: ReceiverPc, last: PopResult)

  datatype Owner = SenderOwns(tid: Tid) | ReceiverOwns

  datatype Claim = Claim(tid: Tid, msg: Message)

  datatype Chain = Chain(blocks: seq<Addr>, base: nat)

  /**
   The shared words (`heap`, `blockTail`, `tailPosition`, `txCount`), the local state of every
   thread, and bookkeeping that no branch reads: `claims` (one entry per claimed slot), `done` (slots
   whose ready bit was set), `popped` (values handed out), `chain` (the linked blocks, oldest first,
   and the number of the first of them), `tailNum` (number of the tail block), `passedAt` and
   `releaser` (for every block passed by `blockTail`: the tail position at that moment, and by
   whom), `priv` (blocks that are allocated but not linked), `closeSlot`.
   */
  datatype State = State(
    heap: map<Addr, Block>,
    blockTail: Addr,
    tailPosition: nat,
    txCount: nat,
    senders: map<Tid, Sender>,
    rx: Receiver,
    fault: bool,
    nextEpoch: nat,
    claims: seq<Claim>,
    done: seq<bool>,
    popped: seq<Item>,
    chain: Chain,
    tailNum: nat,
    passedAt: seq<nat>,
    releaser: seq<Tid>,
    priv: map<Addr, Owner>,
    closeSlot: Option<nat>)

  const FULL: set<nat> := set o: nat | o < BLOCK_CAP

  function NewBlock(start: nat, epoch: nat): Block {
    Block(start, None, {}, false, false, 0, map[], epoch)
  }

  function Init(addr: Addr): State {
    var p := Ptr(addr, 1);
    State(map[addr := NewBlock(0, 1)], addr, 0, 1, map[], Receiver(p, 0, p, Idle, Nothing), false, 2,
          [], [], [], Chain([addr], 0), 0, [], [], map[], None)
  }

  predicate Valid(s: State, p: Ptr) { p.addr in s.heap && s.heap[p.addr].epoch == p.epoch }

  /** The pointer a thread obtains by reading address `a` from a shared word. */
  function PtrTo(s: State, a: Addr): Ptr { Ptr(a, if a in s.heap then s.heap[a].epoch else 0) }

  function Fault(s: State): State { s.(fault := true) }

  function SetPc(s: State, t: Tid, pc: SenderPc): State
    requires t in s.senders
  {
    s.(senders := s.senders[t := s.senders[t].(pc := pc)])
  }

  function SetRx(s: State, pc: ReceiverPc): State { s.(rx := s.rx.(pc := pc)) }

  /** A completed compare-and-swap that hangs the private block `b` behind `after`. */
  function Link(s: State, after: Addr, b: Addr): State
    requires after in s.heap
  {
    s.(heap := s.heap[after := s.heap[after].(next := Some(b))],
       chain := s.chain.(blocks := s.chain.blocks + [b]),
       priv := s.priv - {b})
  }

  // ----- senders -----

  /** `fetch_add` on the tail position, the first step of `push` and of `close`. */
  function ClaimSlot(s: State, t: Tid, msg: Message): State {
    s.(tailPosition := s.tailPosition + 1,
       claims := s.claims + [Claim(t, msg)],
       done := s.done + [false],
       senders := s.senders[t := Sender(s.tailPosition, msg, LoadTail)])
  }

  /** `find_block`: from the load of `block_tail` up to the test of the current block. */
  function FindStep(s: State, t: Tid): State
    requires t in s.senders
  {
    var l := s.senders[t];
    match l.pc
    case LoadTail => SetPc(s, t, ReadStart(PtrTo(s, s.blockTail)))
    case ReadStart(p) =>
      if !Valid(s, p) then Fault(s) else
      var distance := Distance(s.heap[p.addr].start, StartIndex(l.slot));
      SetPc(s, t, AtBlock(p, distance > Offset(l.slot)))
    case AtBlock(p, u) =>
      if !Valid(s, p) then Fault(s)
      else if s.heap[p.addr].start == StartIndex(l.slot) then SetPc(s, t, WriteSlot(p))
      else SetPc(s, t, LoadNext(p, u))
    case LoadNext(p, u) =>
      if !Valid(s, p) then Fault(s) else
      match s.heap[p.addr].next {
        case Some(q) => SetPc(s, t, IsFinal(p, u, PtrTo(s, q)))
        case None => SetPc(s, t, Alloc(p, u))
      }
    case _ => s
  }

  /** `Block::grow`; `a` is the address the allocator returns. */
  function GrowStep(s: State, t: Tid, a: Addr): State
    requires t in s.senders
  {
    match s.senders[t].pc
    case Alloc(p, u) =>
      if !Valid(s, p) then Fault(s) else
      var s1 := s.(heap := s.heap[a := NewBlock(s.heap[p.addr].start + BLOCK_CAP, s.nextEpoch)],
                   nextEpoch := s.nextEpoch + 1,
                   priv := s.priv[a := SenderOwns(t)]);
      SetPc(s1, t, GrowCas(p, u, a))
    case GrowCas(p, u, b) =>
      if !Valid(s, p) then Fault(s) else
      match s.heap[p.addr].next {
        case None => SetPc(Link(s, p.addr, b), t, IsFinal(p, u, PtrTo(s, b)))
        case Some(q) => SetPc(s, t, PushStart(p, u, PtrTo(s, q), b, PtrTo(s, q)))
      }
    case PushStart(p, u, next, b, curr) =>
      if !Valid(s, curr) || b !in s.heap then Fault(s) else
      var s1 := s.(heap := s.heap[b := s.heap[b].(start := s.heap[curr.addr].start + BLOCK_CAP)]);
      SetPc(s1, t, PushCas(p, u, next, b, curr))
    case PushCas(p, u, next, b, curr) =>
      if !Valid(s, curr) then Fault(s) else
      match s.heap[curr.addr].next {
        case None => SetPc(Link(s, curr.addr, b), t, IsFinal(p, u, next))
        case Some(q) => SetPc(s, t, PushStart(p, u, next, b, PtrTo(s, q)))
      }
    case _ => s
  }

  /** `find_block`: the attempt to advance `block_tail` past a final block. */
  function AdvanceStep(s: State, t: Tid): State
    requires t in s.senders
  {
    match s.senders[t].pc
    case IsFinal(p, u, next) =>
      if !Valid(s, p) then Fault(s)
      else if u && s.heap[p.addr].ready == FULL then SetPc(s, t, SwapTail(p, next))
      else SetPc(s, t, AtBlock(next, false))
    case SwapTail(p, next) =>
      if s.blockTail != p.addr then SetPc(s, t, AtBlock(next, false)) else
      var s1 := s.(blockTail := next.addr,
                   tailNum := s.tailNum + 1,
                   passedAt := s.passedAt + [s.tailPosition],
                   releaser := s.releaser + [t]);
      SetPc(s1, t, Observe(p, next))
    case Observe(p, next) => SetPc(s, t, StoreObserved(p, next, s.tailPosition))
    case StoreObserved(p, next, position) =>
      if !Valid(s, p) then Fault(s) else
      var s1 := s.(heap := s.heap[p.addr := s.heap[p.addr].(observed := position)]);
      SetPc(s1, t, MarkReleased(p, next))
    case MarkReleased(p, next) =>
      if !Valid(s, p) then Fault(s) else
      var s1 := s.(heap := s.heap[p.addr := s.heap[p.addr].(released := true)]);
      SetPc(s1, t, AtBlock(next, true))
    case _ => s
  }

  /** `Block::write` and `Block::tx_close`; writing a slot that is already published is a fault. */
  function PublishStep(s: State, t: Tid): State
    requires t in s.senders
  {
    var l := s.senders[t];
    var o := Offset(l.slot);
    match l.pc
    case WriteSlot(p) =>
      if !Valid(s, p) || o in s.heap[p.addr].ready then Fault(s) else
      var blk := s.heap[p.addr];
      (match l.msg
       case Value(v) =>
         SetPc(s.(heap := s.heap[p.addr := blk.(values := blk.values[o := v])]), t, MarkReady(p))
       case Close =>
         s.(heap := s.heap[p.addr := blk.(closed := true)], senders := s.senders - {t}))
    case MarkReady(p) =>
      if !Valid(s, p) || l.slot >= |s.done| then Fault(s) else
      var blk := s.heap[p.addr];
      s.(heap := s.heap[p.addr := blk.(ready := blk.ready + {o})],
         done := s.done[l.slot := true],
         senders := s.senders - {t})
    case _ => s
  }

  // ----- the receiver -----

  /** `try_advancing_head`. */
  function AdvanceHeadStep(s: State): State {
    match s.rx.pc
    case AdvCheck =>
      if !Valid(s, s.rx.head) then Fault(s)
      else if s.heap[s.rx.head.addr].start == StartIndex(s.rx.index) then SetRx(s, ReclaimLoop)
      else SetRx(s, AdvNext)
    case AdvNext =>
      if !Valid(s, s.rx.head) then Fault(s) else
      (match s.heap[s.rx.head.addr].next
       case None => s.(rx := s.rx.(pc := Idle, last := Nothing))
       case Some(q) => s.(rx := s.rx.(head := PtrTo(s, q), pc := AdvCheck)))
    case _ => s
  }

  /** `reclaim_blocks`: detach the oldest block once it is released and the reader is far enough. */
  function ReclaimStep(s: State): State {
    var free := s.rx.freeHead;
    match s.rx.pc
    case ReclaimLoop => SetRx(s, if free.addr != s.rx.head.addr then ReadReleased else ReadBits)
    case ReadReleased =>
      if !Valid(s, free) then Fault(s)
      else SetRx(s, if s.heap[free.addr].released then ReadObserved else ReadBits)
    case ReadObserved =>
      if !Valid(s, free) then Fault(s)
      else SetRx(s, if s.heap[free.addr].observed > s.rx.index then ReadBits else TakeNext)
    case TakeNext =>
      if !Valid(s, free) || s.heap[free.addr].next.None? || |s.chain.blocks| == 0 then Fault(s) else
      s.(rx := s.rx.(freeHead := PtrTo(s, s.heap[free.addr].next.value), pc := Reset(free)),
         chain := Chain(s.chain.blocks[1..], s.chain.base + 1),
         priv := s.priv[free.addr := ReceiverOwns])
    case _ => s
  }

  /** `Tx::reclaim_block`: reset the block, then try three times to hang it at the end. */
  function ReuseStep(s: State): State {
    match s.rx.pc
    case Reset(b) =>
      if !Valid(s, b) then Fault(s) else
      var blk := s.heap[b.addr].(start := 0, next := None, ready := {}, released := false,
                                 closed := false, epoch := s.nextEpoch);
      s.(heap := s.heap[b.addr := blk],
         nextEpoch := s.nextEpoch + 1,
         rx := s.rx.(pc := ReuseTail(Ptr(b.addr, s.nextEpoch))))
    case ReuseTail(b) => SetRx(s, TryStart(b, PtrTo(s, s.blockTail), 3))
    case TryStart(b, curr, tries) =>
      if tries == 0 then SetRx(s, FreeBlock(b))
      else if !Valid(s, curr) || !Valid(s, b) then Fault(s) else
      var blk := s.heap[b.addr].(start := s.heap[curr.addr].start + BLOCK_CAP);
      SetRx(s.(heap := s.heap[b.addr := blk]), TryCas(b, curr, tries))
    case TryCas(b, curr, tries) =>
      if !Valid(s, curr) || tries == 0 then Fault(s) else
      (match s.heap[curr.addr].next
       case None => SetRx(Link(s, curr.addr, b.addr), ReclaimLoop)
       case Some(q) => SetRx(s, TryStart(b, PtrTo(s, q), tries - 1)))
    case FreeBlock(b) =>
      if !Valid(s, b) then Fault(s) else
      SetRx(s.(heap := s.heap - {b.addr}, priv := s.priv - {b.addr}), ReclaimLoop)
    case _ => s
  }

  /** `Block::read` and the rest of `Rx::pop`. */
  function ReadStep(s: State): State {
    var head := s.rx.head;
    var o := Offset(s.rx.index);
    match s.rx.pc
    case ReadBits =>
      if !Valid(s, head) then Fault(s)
      else if o in s.heap[head.addr].ready then SetRx(s, ReadSlot)
      else s.(rx := s.rx.(pc := Idle,
                          last := if s.heap[head.addr].closed then Closed else Nothing))
    case ReadSlot =>
      if !Valid(s, head) || o !in s.heap[head.addr].values then Fault(s) else
      var v := s.heap[head.addr].values[o];
      s.(popped := s.popped + [v],
         rx := s.rx.(index := s.rx.index + 1, pc := Idle, last := Popped(v)))
    case _ => s
  }

  // ----- the transition system -----

  datatype Action =
    | BeginPush(tid: Tid, item: Item)
    | CloneTx
    | DropTx
    | BeginClose(tid: Tid)
    | Find(tid: Tid)
    | Grow(tid: Tid, addr: Addr)
    | Advance(tid: Tid)
    | Publish(tid: Tid)
    | StartPop
    | AdvanceHead
    | Reclaim
    | Reuse
    | Read

  /**
   The environment: a push needs a live sender handle, and the last handle can only be dropped when
   no call on it is running (the borrow rules); its drop then closes the list once.
   */
  predicate Enabled(s: State, a: Action) {
    !s.fault &&
    match a
    case BeginPush(t, _) => t !in s.senders && s.txCount > 0
    case CloneTx => s.txCount > 0
    case DropTx => s.txCount > 0 && (s.txCount == 1 ==> s.senders == map[])
    case BeginClose(t) => s.txCount == 0 && s.closeSlot == None && t !in s.senders
    case Find(t) => t in s.senders
    case Grow(t, addr) => t in s.senders && addr !in s.heap
    case Advance(t) => t in s.senders
    case Publish(t) => t in s.senders
    case StartPop => s.rx.pc == Idle
    case _ => true
  }

  function Apply(s: State, a: Action): State
    requires Enabled(s, a)
  {
    match a
    case BeginPush(t, v) => ClaimSlot(s, t, Value(v))
    case CloneTx => s.(txCount := s.txCount + 1)
    case DropTx => s.(txCount := s.txCount - 1)
    case BeginClose(t) => ClaimSlot(s, t, Close).(closeSlot := Some(s.tailPosition))
    case Find(t) => FindStep(s, t)
    case Grow(t, addr) => GrowStep(s, t, addr)
    case Advance(t) => AdvanceStep(s, t)
    case Publish(t) => PublishStep(s, t)
    case StartPop => SetRx(s, AdvCheck)
    case AdvanceHead => AdvanceHeadStep(s)
    case Reclaim => ReclaimStep(s)
    case Reuse => ReuseStep(s)
    case Read => ReadStep(s)
  }

  /** A finite execution: `states[0]` is initial and each `actions[i]` leads from state i to i+1. */
  ghost predicate IsRun(states: seq<State>, actions: seq<Action>) {
    && |states| == |actions| + 1
    && (exists addr :: states[0] == Init(addr))
    && forall i | 0 <= i < |actions| ::
         Enabled(states[i], actions[i]) && states[i + 1] == Apply(states[i], actions[i])
  }
}
