/**
 Memory of the block queue comes back: a block that `block_tail` has passed is released as soon as the
 sender that passed it is through, and a pop that comes to read has first detached what was ready for it.
 */
module BlockQueueReclaim {
  import opened Wrappers
  import opened BlockQueue
  import opened BlockQueueInvariant
  import opened BlockQueueSteps
  import opened BlockQueueReceiver
  import opened BlockQueueTheorems
  import opened BlockQueueProgress
  import opened BlockQueuePops

  // ----- passing and releasing -----

  /** A sender that passed a block and has not released it yet. */
  ghost predicate AboutToRelease(s: State, t: Tid, n: nat) {
    && t in s.senders
    && (s.senders[t].pc.Observe? || s.senders[t].pc.StoreObserved? || s.senders[t].pc.MarkReleased?)
    && s.senders[t].pc.ptr.addr in s.heap && Num(s.heap, s.senders[t].pc.ptr) == n
  }

  ghost predicate IsReleased(s: State, n: nat) {
    Live(s.chain, n) && At(s.chain, n) in s.heap && s.heap[At(s.chain, n)].released
  }

  /** Every linked block before the tail is released, or about to be by the sender that passed it. */
  ghost predicate PassedAreReleased(s: State) {
    |s.releaser| == s.tailNum && forall n: nat | Live(s.chain, n) && n < s.tailNum :: IsReleased(s, n) || AboutToRelease(s, s.releaser[n], n)
  }

  lemma ReleasedStays(s: State, s': State, n: nat)
    requires SharedOk(s) && SharedOk(s') && MovesOn(s, s') && IsReleased(s, n) && Live(s'.chain, n)
    ensures IsReleased(s', n)
  {
    hide SharedOk;
    LinkedAt(s, n);
  }

  /** A releasing sender takes its next step; the last one sets the bit. */
  lemma ReleaserSteps(s: State, t: Tid, n: nat)
    requires Inv(s) && AboutToRelease(s, t, n) && Live(AdvanceStep(s, t).chain, n)
    ensures IsReleased(AdvanceStep(s, t), n) || AboutToRelease(AdvanceStep(s, t), t, n)
  {
    hide SharedOk, RxOk;
    SenderFacts(s, t);
    LinkedNum(s, s.senders[t].pc.ptr);
    assert AdvanceStep(s, t).chain == s.chain;
  }

  lemma ReleaserWaits(s: State, s': State, t: Tid, n: nat)
    requires Inv(s) && MovesOn(s, s') && AboutToRelease(s, t, n) && t in s'.senders && s'.senders[t] == s.senders[t]
    ensures AboutToRelease(s', t, n)
  {
    hide SharedOk, RxOk;
    SenderFacts(s, t);
    LinkedNum(s, s.senders[t].pc.ptr);
  }

  predicate Swaps(s: State, a: Action)
    requires Enabled(s, a)
  {
    a.Advance? && s.senders[a.tid].pc.SwapTail? && s.blockTail == s.senders[a.tid].pc.ptr.addr
  }

  lemma FindPassesNone(s: State, t: Tid)
    requires t in s.senders
    ensures FindStep(s, t).tailNum == s.tailNum && FindStep(s, t).releaser == s.releaser
  {
  }

  lemma GrowPassesNone(s: State, t: Tid, a: Addr)
    requires t in s.senders
    ensures GrowStep(s, t, a).tailNum == s.tailNum && GrowStep(s, t, a).releaser == s.releaser
  {
  }

  lemma PublishPassesNone(s: State, t: Tid)
    requires t in s.senders
    ensures PublishStep(s, t).tailNum == s.tailNum && PublishStep(s, t).releaser == s.releaser
  {
  }

  lemma HeadPassesNone(s: State)
    ensures AdvanceHeadStep(s).tailNum == s.tailNum && AdvanceHeadStep(s).releaser == s.releaser
  {
  }

  lemma ReclaimPassesNone(s: State)
    ensures ReclaimStep(s).tailNum == s.tailNum && ReclaimStep(s).releaser == s.releaser
  {
  }

  lemma ReadPassesNone(s: State)
    ensures ReadStep(s).tailNum == s.tailNum && ReadStep(s).releaser == s.releaser
  {
  }

  lemma TryPassesNone(s: State)
    requires s.rx.pc.TryStart? || s.rx.pc.TryCas?
    ensures ReuseStep(s).tailNum == s.tailNum && ReuseStep(s).releaser == s.releaser
  {
  }

  lemma ResetPassesNone(s: State)
    requires !s.rx.pc.TryStart? && !s.rx.pc.TryCas?
    ensures ReuseStep(s).tailNum == s.tailNum && ReuseStep(s).releaser == s.releaser
  {
  }

  lemma AdvancePasses(s: State, t: Tid)
    requires t in s.senders && !(s.senders[t].pc.SwapTail? && s.blockTail == s.senders[t].pc.ptr.addr)
    ensures AdvanceStep(s, t).tailNum == s.tailNum && AdvanceStep(s, t).releaser == s.releaser
  {
  }

  /** Only a successful swap passes a block. */
  lemma OnlySwapsPass(s: State, a: Action)
    requires Enabled(s, a) && !Swaps(s, a)
    ensures Apply(s, a).tailNum == s.tailNum && Apply(s, a).releaser == s.releaser
  {
    hide FindStep, GrowStep, AdvanceStep, PublishStep, AdvanceHeadStep, ReclaimStep, ReuseStep, ReadStep;
    match a
    case Find(t) => FindPassesNone(s, t);
    case Grow(t, addr) => GrowPassesNone(s, t, addr);
    case Advance(t) => AdvancePasses(s, t);
    case Publish(t) => PublishPassesNone(s, t);
    case AdvanceHead => HeadPassesNone(s);
    case Reclaim => ReclaimPassesNone(s);
    case Reuse => if s.rx.pc.TryStart? || s.rx.pc.TryCas? { TryPassesNone(s); } else { ResetPassesNone(s); }
    case Read => ReadPassesNone(s);
    case _ =>
  }

  lemma SwapPasses(s: State, a: Action)
    requires Inv(s) && Enabled(s, a) && Swaps(s, a)
    ensures var s' := Apply(s, a);
      && s'.tailNum == s.tailNum + 1 && s'.releaser == s.releaser + [a.tid]
      && AboutToRelease(s', a.tid, s.tailNum)
  {
    hide Inv, SharedOk;
    SenderFacts(s, a.tid);
    TailIs(s);
  }

  lemma TailIs(s: State)
    requires SharedOk(s)
    ensures Live(s.chain, s.tailNum) && s.blockTail == At(s.chain, s.tailNum) && s.blockTail in s.heap
    ensures BlockOf(s.heap[s.blockTail].start) == s.tailNum
  {
    assert LinkOk(s.chain, s.heap, s.tailNum);
  }

  lemma PassedStays(s: State, a: Action)
    requires Inv(s) && Enabled(s, a) && PassedAreReleased(s)
    ensures PassedAreReleased(Apply(s, a))
  {
    hide Inv, SharedOk, Apply, MovesOn, IsReleased, AboutToRelease;
    var s' := Apply(s, a);
    StepInv(s, a);
    StepMovesOn(s, a);
    ReceiverFacts(s);
    ReceiverFacts(s');
    BaseMovesOn(s, s');
    TailIs(s);
    if Swaps(s, a) { SwapPasses(s, a); } else { OnlySwapsPass(s, a); }
    forall n: nat | Live(s'.chain, n) && n < s'.tailNum
      ensures IsReleased(s', n) || AboutToRelease(s', s'.releaser[n], n)
    {
      if n < s.tailNum {
        if IsReleased(s, n) {
          ReleasedStays(s, s', n);
        } else {
          ReleasingStays(s, a, s.releaser[n], n);
        }
      }
    }
  }

  lemma ReleasingStays(s: State, a: Action, t: Tid, n: nat)
    requires Inv(s) && Enabled(s, a) && AboutToRelease(s, t, n) && Live(Apply(s, a).chain, n)
    ensures IsReleased(Apply(s, a), n) || AboutToRelease(Apply(s, a), t, n)
  {
    hide Inv, FindStep, GrowStep, AdvanceStep, PublishStep, AdvanceHeadStep, ReclaimStep, ReuseStep, ReadStep, MovesOn, IsReleased;
    if a == Advance(t) {
      ReleaserSteps(s, t, n);
    } else {
      StepMovesOn(s, a);
      OnlyAdvances(s, a, t);
      OthersKeepSender(s, a, t);
      ReleaserWaits(s, Apply(s, a), t, n);
    }
  }

  /** Nothing but `Advance` moves a releasing sender. */
  lemma OnlyAdvances(s: State, a: Action, t: Tid)
    requires Enabled(s, a) && a != Advance(t) && t in s.senders
    requires s.senders[t].pc.Observe? || s.senders[t].pc.StoreObserved? || s.senders[t].pc.MarkReleased?
    ensures !OwnStep(s, a, t) && !Begins(a, t)
  {
  }

  lemma {:induction false} RunPassed(states: seq<State>, actions: seq<Action>, i: nat)
    requires IsRun(states, actions) && i < |states|
    ensures PassedAreReleased(states[i])
  {
    hide Inv, PassedAreReleased, Apply;
    if i == 0 {
      InitPassed(states[0]);
    } else {
      RunPassed(states, actions, i - 1);
      RunInv(states, actions, i - 1);
      PassedStays(states[i - 1], actions[i - 1]);
    }
  }

  lemma InitPassed(s: State)
    requires exists addr :: s == Init(addr)
    ensures PassedAreReleased(s)
  {
  }

  /** Once no sender is inside a call, every block that `block_tail` has passed is released. */
  lemma PassedIsReleased(states: seq<State>, actions: seq<Action>, i: nat, n: nat)
    requires IsRun(states, actions) && i < |states| && states[i].senders == map[]
    requires states[i].chain.base <= n < states[i].tailNum
    ensures IsReleased(states[i], n)
  {
    RunPassed(states, actions, i);
    RunInv(states, actions, i);
    hide IsRun, Inv, IsReleased;
    ReceiverFacts(states[i]);
    TailIs(states[i]);
  }

  /** What `k` steps of `find_block` in a row, with nobody in between, lead to. */
  ghost function Advances(s: State, t: Tid, k: nat): State
    requires t in s.senders
    decreases k
  {
    if k == 0 then s
    else
      AdvanceStays(s, t);
      Advances(AdvanceStep(s, t), t, k - 1)
  }

  lemma AdvanceStays(s: State, t: Tid)
    requires t in s.senders
    ensures t in AdvanceStep(s, t).senders
  {
    AdvanceKeepsCall(s, t);
    hide AdvanceStep;
  }

  lemma SwapsAlone(s: State, t: Tid)
    requires t in s.senders && s.senders[t].pc.IsFinal? && s.senders[t].pc.updating && Valid(s, s.senders[t].pc.ptr)
    requires s.blockTail == s.senders[t].pc.ptr.addr && s.heap[s.blockTail].ready == FULL
    ensures var n := Advances(s, t, 2);
      && t in n.senders && n.senders[t].pc == Observe(s.senders[t].pc.ptr, s.senders[t].pc.next)
      && n.blockTail == s.senders[t].pc.next.addr && n.heap == s.heap && n.tailPosition == s.tailPosition
  {
    var n1 := AdvanceStep(s, t);
    assert n1 == SetPc(s, t, SwapTail(s.senders[t].pc.ptr, s.senders[t].pc.next));
    assert Advances(s, t, 2) == Advances(n1, t, 1) == AdvanceStep(n1, t);
  }

  lemma StoresAlone(s: State, t: Tid)
    requires t in s.senders && s.senders[t].pc.Observe? && Valid(s, s.senders[t].pc.ptr)
    ensures var (pc, n) := (s.senders[t].pc, Advances(s, t, 2));
      && t in n.senders && n.senders[t].pc == MarkReleased(pc.ptr, pc.next) && n.blockTail == s.blockTail
      && Valid(n, pc.ptr) && n.heap[pc.ptr.addr].observed == s.tailPosition
  {
    var n1 := AdvanceStep(s, t);
    assert n1 == SetPc(s, t, StoreObserved(s.senders[t].pc.ptr, s.senders[t].pc.next, s.tailPosition));
    assert Advances(s, t, 2) == Advances(n1, t, 1) == AdvanceStep(n1, t);
  }

  lemma MarksAlone(s: State, t: Tid)
    requires t in s.senders && s.senders[t].pc.MarkReleased? && Valid(s, s.senders[t].pc.ptr)
    ensures var (pc, n) := (s.senders[t].pc, Advances(s, t, 1));
      && t in n.senders && n.senders[t].pc == AtBlock(pc.next, true) && n.blockTail == s.blockTail
      && pc.ptr.addr in n.heap && n.heap[pc.ptr.addr].released && n.heap[pc.ptr.addr].observed == s.heap[pc.ptr.addr].observed
  {
    assert Advances(s, t, 1) == AdvanceStep(s, t);
  }

  lemma ReleasesAlone(s: State, t: Tid)
    requires t in s.senders && s.senders[t].pc.Observe? && Valid(s, s.senders[t].pc.ptr)
    ensures var (pc, n) := (s.senders[t].pc, Advances(s, t, 3));
      && t in n.senders && n.senders[t].pc == AtBlock(pc.next, true) && n.blockTail == s.blockTail
      && pc.ptr.addr in n.heap && n.heap[pc.ptr.addr].released && n.heap[pc.ptr.addr].observed == s.tailPosition
  {
    hide Advances;
    StoresAlone(s, t);
    MarksAlone(Advances(s, t, 2), t);
    AdvancesAdd(s, t, 2, 1);
  }

  lemma {:induction false} AdvancesAdd(s: State, t: Tid, i: nat, k: nat)
    requires t in s.senders
    ensures t in Advances(s, t, i).senders && Advances(s, t, i + k) == Advances(Advances(s, t, i), t, k)
    decreases i
  {
    if i > 0 {
      AdvanceStays(s, t);
      AdvancesAdd(AdvanceStep(s, t), t, i - 1, k);
    }
    hide AdvanceStep;
  }

  /**
   A sender at the tail block that finds it full passes it: left alone, five steps later `block_tail` is the
   next block, and the block is released with the tail position of that moment.
   */
  lemma PassesAlone(s: State, t: Tid)
    requires Inv(s) && t in s.senders && s.senders[t].pc.IsFinal? && s.senders[t].pc.updating
    requires s.blockTail == s.senders[t].pc.ptr.addr && s.blockTail in s.heap && s.heap[s.blockTail].ready == FULL
    ensures var (pc, n) := (s.senders[t].pc, Advances(s, t, 5));
      && t in n.senders && n.senders[t].pc == AtBlock(pc.next, true)
      && n.blockTail == pc.next.addr
      && pc.ptr.addr in n.heap && n.heap[pc.ptr.addr].released && n.heap[pc.ptr.addr].observed == s.tailPosition
  {
    hide Inv, SharedOk, Advances, AdvanceStep;
    SenderFacts(s, t);
    SwapsAlone(s, t);
    ReleasesAlone(Advances(s, t, 2), t);
    AdvancesAdd(s, t, 2, 3);
  }

  /**
   Who helps to advance the tail: a sender whose slot is more blocks ahead of the block it loaded than its
   offset into its own.  The wrapping distance of the source is that number of blocks.
   */
  lemma HelpsExactly(s: State, t: Tid)
    requires Inv(s) && t in s.senders && s.senders[t].pc.ReadStart? && s.senders[t].slot < WORD
    ensures var (l, l') := (s.senders[t], FindStep(s, t).senders[t]);
      && l.pc.ptr.addr in s.heap && l'.pc.AtBlock? && l'.pc.ptr == l.pc.ptr
      && (l'.pc.updating <==> BlockOf(l.slot) - Num(s.heap, l.pc.ptr) > Offset(l.slot))
  {
    hide SharedOk, RxOk;
    var l := s.senders[t];
    SenderFacts(s, t);
    StartOf(s, l.pc.ptr);
    DistanceOfBlocks(Num(s.heap, l.pc.ptr), BlockOf(l.slot));
  }

  lemma DistanceOfBlocks(m: nat, n: nat)
    requires m <= n && n * BLOCK_CAP < WORD
    ensures Distance(m * BLOCK_CAP, n * BLOCK_CAP) == n - m
  {
    assert n * BLOCK_CAP - m * BLOCK_CAP == (n - m) * BLOCK_CAP;
  }

  // ----- reuse -----

  /** What `k` steps of the receiver in a row, reusing a block, lead to. */
  ghost function Reuses(s: State, k: nat): State
    decreases k
  {
    if k == 0 then s else Reuses(ReuseStep(s), k - 1)
  }

  lemma TriesAlone(s: State)
    requires Inv(s) && s.rx.pc.TryStart? && s.rx.pc.tries > 0
    ensures var pc := s.rx.pc;
      var s1 := ReuseStep(s);
      && Inv(s1) && s1.rx.pc == TryCas(pc.block, pc.curr, pc.tries) && s1.chain == s.chain && s1.tailNum == s.tailNum
      && pc.curr.addr in s.heap && pc.curr.addr in s1.heap && Num(s1.heap, pc.curr) == Num(s.heap, pc.curr) < End(s)
  {
    hide Inv, SharedOk;
    ReuseInv(s);
    ReceiverFacts(s);
    LinkedNum(s, s.rx.pc.curr);
  }

  lemma AppendsAlone(s: State)
    requires Inv(s) && s.rx.pc.TryCas? && s.rx.pc.curr.addr in s.heap && Num(s.heap, s.rx.pc.curr) == End(s) - 1
    ensures var n := ReuseStep(s);
      n.rx.pc == ReclaimLoop && n.chain == s.chain.(blocks := s.chain.blocks + [s.rx.pc.block.addr])
  {
    hide Inv, SharedOk;
    ReceiverFacts(s);
    NextOfLast(s, s.rx.pc.curr);
  }

  lemma NextOfLast(s: State, p: Ptr)
    requires SharedOk(s) && Linked(s.chain, s.heap, p)
    ensures s.heap[p.addr].next == None <==> Num(s.heap, p) == End(s) - 1
  {
    assert LinkOk(s.chain, s.heap, Num(s.heap, p));
  }

  /** The append failed, and the next block is tried. */
  ghost predicate FollowedTo(s: State, n: State)
    requires s.rx.pc.TryCas? && s.rx.pc.curr.addr in s.heap
  {
    && Inv(n) && n.chain == s.chain && n.rx.pc.TryStart?
    && n.rx.pc.block == s.rx.pc.block && n.rx.pc.tries == s.rx.pc.tries - 1
    && n.rx.pc.curr.addr in n.heap && Num(n.heap, n.rx.pc.curr) == Num(s.heap, s.rx.pc.curr) + 1
  }

  lemma FollowsAlone(s: State)
    requires Inv(s) && s.rx.pc.TryCas? && s.rx.pc.curr.addr in s.heap && Num(s.heap, s.rx.pc.curr) < End(s) - 1
    ensures FollowedTo(s, ReuseStep(s))
  {
    hide Inv, SharedOk;
    ReuseInv(s);
    ReceiverFacts(s);
    NextOfLast(s, s.rx.pc.curr);
    NextLinked(s, s.rx.pc.curr);
  }

  /** Left alone, the receiver appends its block exactly if that takes it no more tries than it has left. */
  lemma {:induction false} TriesExactly(s: State) returns (k: nat)
    requires Inv(s) && s.rx.pc.TryStart? && s.rx.pc.curr.addr in s.heap
    ensures var (pc, n) := (s.rx.pc, Reuses(s, k));
      && n.rx.pc == ReclaimLoop
      && (End(s) - Num(s.heap, pc.curr) <= pc.tries ==> n.chain == s.chain.(blocks := s.chain.blocks + [pc.block.addr]))
      && (End(s) - Num(s.heap, pc.curr) > pc.tries ==> n.chain == s.chain && pc.block.addr !in n.heap)
    decreases s.rx.pc.tries
  {
    hide Inv, ReuseStep;
    if s.rx.pc.tries == 0 {
      GivesUp(s);
      k := 2;
    } else {
      TriesAlone(s);
      var s1 := ReuseStep(s);
      if Num(s.heap, s.rx.pc.curr) == End(s) - 1 {
        AppendsAlone(s1);
        k := 2;
        assert Reuses(s, 2) == Reuses(s1, 1) == ReuseStep(s1);
      } else {
        FollowsAlone(s1);
        var m := TriesExactly(ReuseStep(s1));
        k := m + 2;
        assert Reuses(s, k) == Reuses(s1, m + 1) == Reuses(ReuseStep(s1), m);
      }
    }
  }

  lemma GivesUp(s: State)
    requires Inv(s) && s.rx.pc.TryStart? && s.rx.pc.tries == 0
    ensures var n := Reuses(s, 2);
      && n.rx.pc == ReclaimLoop && n.chain == s.chain && s.rx.pc.block.addr !in n.heap
      && s.rx.pc.curr.addr in s.heap && End(s) - Num(s.heap, s.rx.pc.curr) > 0
  {
    hide Inv, SharedOk;
    ReceiverFacts(s);
    LinkedNum(s, s.rx.pc.curr);
    var s1 := ReuseStep(s);
    assert s1 == SetRx(s, FreeBlock(s.rx.pc.block));
    assert Reuses(s, 2) == Reuses(s1, 1) == ReuseStep(s1);
  }

  lemma StartsAtTail(s: State)
    requires s.rx.pc.ReuseTail?
    ensures ReuseStep(s) == SetRx(s, TryStart(s.rx.pc.block, PtrTo(s, s.blockTail), 3))
  {
  }

  /**
   A reclaimed block is used again: left alone, the receiver appends it exactly if at most two blocks lie
   behind `block_tail`, and frees it otherwise.
   */
  lemma ReusedExactly(s: State) returns (k: nat)
    requires Inv(s) && s.rx.pc.ReuseTail?
    ensures var (b, n) := (s.rx.pc.block.addr, Reuses(s, k));
      && n.rx.pc == ReclaimLoop
      && (End(s) - s.tailNum <= 3 ==> n.chain == s.chain.(blocks := s.chain.blocks + [b]))
      && (End(s) - s.tailNum > 3 ==> n.chain == s.chain && b !in n.heap)
  {
    hide Inv, SharedOk, ReuseStep;
    ReuseInv(s);
    ReceiverFacts(s);
    TailIs(s);
    StartsAtTail(s);
    var s1 := ReuseStep(s);
    var m := TriesExactly(s1);
    k := m + 1;
    assert Reuses(s, k) == Reuses(s1, m);
  }

  // ----- reclaiming is prompt -----

  /** The block is released, and the index has reached the tail position observed then. */
  ghost predicate Ripe(s: State, n: nat, index: nat) {
    Live(s.chain, n) && At(s.chain, n) in s.heap && s.heap[At(s.chain, n)].released && s.heap[At(s.chain, n)].observed <= index
  }

  /** Blocks that were ripe when the pop began and lie before `upTo` are ripe or gone, and gone once it reads. */
  ghost predicate Reclaiming(start: State, s: State, upTo: nat) {
    && (forall n: nat | start.chain.base <= n < upTo && s.chain.base <= n :: Ripe(s, n, start.rx.index))
    && start.chain.base <= s.chain.base
    && (s.rx.pc == ReadBits || s.rx.pc == ReadSlot ==> upTo <= s.chain.base)
  }

  lemma RipeStays(s: State, s': State, n: nat, index: nat)
    requires SharedOk(s) && SharedOk(s') && MovesOn(s, s') && Ripe(s, n, index) && s'.chain.base <= n
    ensures Ripe(s', n, index)
  {
    hide SharedOk;
    LinkedAt(s, n);
  }

  /** The receiver comes to read from the reclaim loop only, and to the slot from the ready bits only. */
  predicate ReadsNext(pc: ReceiverPc, pc': ReceiverPc) {
    && (pc' == ReadBits ==> pc == ReadBits)
    && (pc' == ReadSlot ==> pc == ReadSlot || pc == ReadBits)
  }

  lemma HeadReadsNext(s: State)
    ensures ReadsNext(s.rx.pc, AdvanceHeadStep(s).rx.pc)
  {
  }

  lemma ReuseReadsNext(s: State)
    ensures ReadsNext(s.rx.pc, ReuseStep(s).rx.pc)
  {
  }

  lemma ReadReadsNext(s: State)
    ensures ReadsNext(s.rx.pc, ReadStep(s).rx.pc)
  {
  }

  lemma ReclaimReadsNext(s: State)
    ensures ReclaimStep(s).rx.pc == ReadSlot ==> s.rx.pc == ReadSlot
  {
  }

  /** Apart from the reclaim loop nothing brings the receiver to the ready bits. */
  lemma ComesToRead(s: State, a: Action)
    requires Enabled(s, a) && s.rx.pc != Idle
    ensures !a.Reclaim? ==> ReadsNext(s.rx.pc, Apply(s, a).rx.pc)
    ensures a.Reclaim? && Apply(s, a).rx.pc == ReadSlot ==> s.rx.pc == ReadSlot
  {
    hide FindStep, GrowStep, AdvanceStep, PublishStep, AdvanceHeadStep, ReclaimStep, ReuseStep, ReadStep;
    if !OfReceiver(a) { OthersKeepRx(s, a); }
    HeadReadsNext(s);
    ReuseReadsNext(s);
    ReadReadsNext(s);
    ReclaimReadsNext(s);
  }

  lemma OldestIs(s: State)
    requires SharedOk(s) && RxOk(s)
    ensures s.rx.freeHead.addr == At(s.chain, s.chain.base)
    ensures s.rx.head.addr == s.rx.freeHead.addr ==> Num(s.heap, s.rx.head) == s.chain.base
  {
    FreeHeadLinked(s);
  }

  /** The reclaim loop ends only at a block that is the head, not released, or not ripe. */
  lemma ReadsWhenNoneRipe(s: State)
    requires Inv(s) && s.rx.pc != ReadBits && ReclaimStep(s).rx.pc == ReadBits
    ensures ReclaimStep(s).chain == s.chain
    ensures s.chain.base == BlockOf(s.rx.index) || !Ripe(s, s.chain.base, s.rx.index)
  {
    hide Inv, SharedOk;
    ReceiverFacts(s);
    OldestIs(s);
  }

  lemma ReclaimingStep(start: State, s: State, a: Action, upTo: nat)
    requires Inv(s) && Enabled(s, a) && s.rx.pc != Idle && s.rx.index == start.rx.index
    requires Reclaiming(start, s, upTo) && upTo <= BlockOf(start.rx.index)
    ensures Reclaiming(start, Apply(s, a), upTo)
  {
    hide Inv, SharedOk, Apply, MovesOn, Ripe;
    var s' := Apply(s, a);
    StepInv(s, a);
    StepMovesOn(s, a);
    ReceiverFacts(s);
    ReceiverFacts(s');
    ComesToRead(s, a);
    BaseMovesOn(s, s');
    if a.Reclaim? { ReclaimIs(s, a); }
    if a.Reclaim? && s'.rx.pc == ReadBits && s.rx.pc != ReadBits {
      ReadsWhenNoneRipe(s);
    }
    forall n: nat | start.chain.base <= n < upTo && s'.chain.base <= n
      ensures Ripe(s', n, start.rx.index)
    {
      RipeStays(s, s', n, start.rx.index);
    }
  }

  lemma BaseMovesOn(s: State, s': State)
    requires MovesOn(s, s')
    ensures s.chain.base <= s'.chain.base
  {
  }

  lemma ReclaimIs(s: State, a: Action)
    requires Enabled(s, a) && a.Reclaim?
    ensures Apply(s, a) == ReclaimStep(s)
  {
  }

  lemma {:induction false} ReclaimingRun(states: seq<State>, actions: seq<Action>, i: nat, j: nat, upTo: nat)
    requires IsRun(states, actions) && i < j < |states| && actions[i] == StartPop
    requires forall k | i < k <= j :: states[k].rx.pc != Idle
    requires upTo <= BlockOf(states[i].rx.index)
    requires forall n: nat | states[i].chain.base <= n < upTo :: Ripe(states[i], n, states[i].rx.index)
    ensures Reclaiming(states[i], states[j], upTo) && states[j].rx.index == states[i].rx.index
  {
    hide Inv, Apply, Popping, Answered, Ripe, Reclaiming;
    WhilePopping(states, actions, i, j);
    AnsweredNotIdle(states[i], states[j]);
    PoppingIndex(states[i], states[j]);
    if i + 1 == j {
      StartsReclaiming(states[i], upTo);
    } else {
      ReclaimingRun(states, actions, i, j - 1, upTo);
      RunInv(states, actions, j - 1);
      ReclaimingStep(states[i], states[j - 1], actions[j - 1], upTo);
    }
  }

  lemma PoppingIndex(start: State, s: State)
    requires Popping(start, s)
    ensures s.rx.index == start.rx.index
  {
  }

  lemma StartsReclaiming(s: State, upTo: nat)
    requires Enabled(s, StartPop)
    requires forall n: nat | s.chain.base <= n < upTo :: Ripe(s, n, s.rx.index)
    ensures Reclaiming(s, Apply(s, StartPop), upTo)
  {
    var s' := Apply(s, StartPop);
    forall n: nat | s.chain.base <= n < upTo && s'.chain.base <= n
      ensures Ripe(s', n, s.rx.index)
    {
      assert Ripe(s, n, s.rx.index);
    }
  }

  /**
   Memory is given back promptly: a pop that comes to read its slot has first detached every block, from
   the oldest on, that was released and passed by the index when it began.
   */
  lemma PopReclaims(states: seq<State>, actions: seq<Action>, i: nat, j: nat, upTo: nat)
    requires IsRun(states, actions) && i < j < |states| && actions[i] == StartPop
    requires states[j].rx.pc == ReadBits && forall k | i < k <= j :: states[k].rx.pc != Idle
    requires upTo <= BlockOf(states[i].rx.index)
    requires forall n: nat | states[i].chain.base <= n < upTo :: Ripe(states[i], n, states[i].rx.index)
    ensures states[j].chain.base >= upTo
  {
    ReclaimingRun(states, actions, i, j, upTo);
    hide IsRun, Ripe;
  }
}
