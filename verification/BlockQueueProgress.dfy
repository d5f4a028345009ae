/**
 `push` and `close` of the block queue end: a bound on the steps a sender takes, whatever the other
 threads do meanwhile.  Only a block that somebody appends can make it take more of them.
 */
module BlockQueueProgress {
  import opened BlockQueue
  import opened BlockQueueInvariant
  import opened BlockQueueSteps
  import opened BlockQueueTheorems
  import opened BlockQueueMemory

  /** One more than the number of the last linked block. */
  ghost function End(s: State): nat { s.chain.base + |s.chain.blocks| }

  ghost function NumAt(s: State, p: Ptr): nat { if p.addr in s.heap then Num(s.heap, p) else 0 }

  /** How far a sender is in its work on one block. */
  ghost function Phase(pc: SenderPc): nat {
    match pc
    case LoadTail => 11
    case ReadStart(_) => 10
    case AtBlock(_, _) => 9
    case LoadNext(_, _) => 8
    case Alloc(_, _) => 7
    case GrowCas(_, _, _) => 6
    case PushStart(_, _, _, _, _) => 7
    case PushCas(_, _, _, _, _) => 6
    case IsFinal(_, _, _) => 5
    case SwapTail(_, _) => 4
    case Observe(_, _) => 3
    case StoreObserved(_, _, _) => 2
    case MarkReleased(_, _) => 1
    case WriteSlot(_) => 2
    case MarkReady(_) => 1
  }

  /** The blocks that `find_block` still has to step over. */
  ghost function BlocksLeft(s: State, l: Sender): int {
    BlockOf(l.slot) - if l.pc.LoadTail? then s.tailNum else NumAt(s, l.pc.ptr)
  }

  /** The blocks behind the one at which a growing sender tries to append its own. */
  ghost function Behind(s: State, pc: SenderPc): int {
    match pc
    case Alloc(p, _) => End(s) - 1 - NumAt(s, p)
    case GrowCas(p, _, _) => End(s) - 1 - NumAt(s, p)
    case PushStart(_, _, _, _, curr) => End(s) - 1 - NumAt(s, curr)
    case PushCas(_, _, _, _, curr) => End(s) - 1 - NumAt(s, curr)
    case _ => 0
  }

  /** The steps a sender has left, if nobody appends a block from now on. */
  ghost function Budget(s: State, t: Tid): int {
    if t in s.senders then 9 * BlocksLeft(s, s.senders[t]) + Phase(s.senders[t].pc) + 2 * Behind(s, s.senders[t].pc) else 0
  }

  lemma LinkedNum(s: State, p: Ptr)
    requires SharedOk(s) && Linked(s.chain, s.heap, p)
    ensures p.addr !in s.priv && p.addr in s.heap && Num(s.heap, p) < End(s)
  {
  }

  lemma BudgetLeft(s: State, t: Tid)
    requires Inv(s)
    ensures Budget(s, t) >= 0 && (t in s.senders ==> Budget(s, t) > 0)
  {
    hide Inv, SharedOk;
    if t in s.senders {
      var l := s.senders[t];
      SenderFacts(s, t);
      TailHeld(s, l.slot);
      if !l.pc.LoadTail? { LinkedNum(s, l.pc.ptr); }
      if l.pc.PushStart? || l.pc.PushCas? { LinkedNum(s, l.pc.curr); }
    }
  }

  /** The block a sender goes on to, whether it was loaded from `next` or is one that `grow` hung there. */
  ghost predicate HasNext(pc: SenderPc) {
    pc.IsFinal? || pc.SwapTail? || pc.Observe? || pc.StoreObserved? || pc.MarkReleased?
  }

  lemma NextIsBehind(s: State, t: Tid)
    requires Inv(s) && t in s.senders && HasNext(s.senders[t].pc)
    ensures var l := s.senders[t];
      && Valid(s, l.pc.ptr) && l.pc.next.addr in s.heap
      && s.heap[l.pc.next.addr].start == s.heap[l.pc.ptr.addr].start + BLOCK_CAP <= StartIndex(l.slot)
  {
    hide Inv, SharedOk;
    SenderFacts(s, t);
    StartOf(s, s.senders[t].pc.ptr);
    StartOf(s, s.senders[t].pc.next);
  }

  lemma GoesOn(s: State, t: Tid)
    requires t in s.senders && HasNext(s.senders[t].pc) && Valid(s, s.senders[t].pc.ptr)
    ensures var (pc, pc') := (s.senders[t].pc, AdvanceStep(s, t).senders[t].pc);
      if pc'.AtBlock? then pc'.ptr == pc.next else HasNext(pc') && pc'.ptr == pc.ptr && pc'.next == pc.next
  {
  }

  /** `find_block` moves one block at a time, through blocks it found and through blocks it appended alike. */
  lemma MovesOneBlock(states: seq<State>, actions: seq<Action>, i: nat, t: Tid)
    requires IsRun(states, actions) && i < |states| && t in states[i].senders && HasNext(states[i].senders[t].pc)
    ensures var s := states[i];
      var (l, l') := (s.senders[t], AdvanceStep(s, t).senders[t]);
      && l.pc.ptr.addr in s.heap && l.pc.next.addr in s.heap
      && s.heap[l.pc.next.addr].start == s.heap[l.pc.ptr.addr].start + BLOCK_CAP <= StartIndex(l.slot)
      && (if l'.pc.AtBlock? then l'.pc.ptr == l.pc.next
          else HasNext(l'.pc) && l'.pc.ptr == l.pc.ptr && l'.pc.next == l.pc.next)
  {
    hide Inv, AdvanceStep;
    RunInv(states, actions, i);
    NextIsBehind(states[i], t);
    GoesOn(states[i], t);
  }

  lemma {:induction false} SomeAddrIsFree(taken: set<Addr>) returns (a: Addr)
    ensures forall x | x in taken :: x < a
    decreases |taken|
  {
    a := 0;
    if taken != {} {
      var x :| x in taken;
      var b := SomeAddrIsFree(taken - {x});
      a := if x < b then b else x + 1;
      assert forall y | y in taken :: y == x || y in taken - {x};
    }
  }

  lemma FindMoves(s: State, t: Tid)
    requires !s.fault && t in s.senders
    requires s.senders[t].pc.LoadTail? || s.senders[t].pc.ReadStart? || s.senders[t].pc.AtBlock? || s.senders[t].pc.LoadNext?
    ensures FindStep(s, t) != s
  {
    assert FindStep(s, t).fault || FindStep(s, t).senders[t].pc != s.senders[t].pc;
  }

  lemma GrowMoves(s: State, t: Tid, a: Addr)
    requires !s.fault && t in s.senders
    requires s.senders[t].pc.Alloc? || s.senders[t].pc.GrowCas? || s.senders[t].pc.PushStart? || s.senders[t].pc.PushCas?
    ensures GrowStep(s, t, a) != s
  {
    assert GrowStep(s, t, a).fault || GrowStep(s, t, a).senders[t].pc != s.senders[t].pc;
  }

  lemma AdvanceMoves(s: State, t: Tid)
    requires !s.fault && t in s.senders && HasNext(s.senders[t].pc)
    ensures AdvanceStep(s, t) != s
  {
    assert AdvanceStep(s, t).fault || AdvanceStep(s, t).senders[t].pc != s.senders[t].pc;
  }

  lemma PublishMoves(s: State, t: Tid)
    requires !s.fault && t in s.senders && (s.senders[t].pc.WriteSlot? || s.senders[t].pc.MarkReady?)
    ensures PublishStep(s, t) != s
  {
    assert PublishStep(s, t).fault || t !in PublishStep(s, t).senders || PublishStep(s, t).senders[t].pc != s.senders[t].pc;
  }

  /** A sender inside a call is never stuck: it has a step to take that does something. */
  lemma HasStep(s: State, t: Tid) returns (a: Action)
    requires Inv(s) && t in s.senders
    ensures Enabled(s, a) && OwnStep(s, a, t)
  {
    hide Inv, FindStep, GrowStep, AdvanceStep, PublishStep;
    NoFault(s);
    var pc := s.senders[t].pc;
    if pc.LoadTail? || pc.ReadStart? || pc.AtBlock? || pc.LoadNext? {
      a := Find(t);
      FindMoves(s, t);
    } else if pc.Alloc? || pc.GrowCas? || pc.PushStart? || pc.PushCas? {
      var addr := SomeAddrIsFree(s.heap.Keys);
      a := Grow(t, addr);
      GrowMoves(s, t, addr);
    } else if HasNext(pc) {
      a := Advance(t);
      AdvanceMoves(s, t);
    } else {
      a := Publish(t);
      PublishMoves(s, t);
    }
  }

  // ----- the sender's own steps -----

  lemma LoadSpends(s: State, t: Tid)
    requires Inv(s) && t in s.senders && (s.senders[t].pc.LoadTail? || s.senders[t].pc.ReadStart?)
    ensures Budget(FindStep(s, t), t) < Budget(s, t)
  {
    hide Inv, SharedOk;
    SenderFacts(s, t);
    TailHeld(s, s.senders[t].slot);
  }

  lemma WalkSpends(s: State, t: Tid)
    requires Inv(s) && t in s.senders && (s.senders[t].pc.AtBlock? || s.senders[t].pc.LoadNext?)
    ensures Budget(FindStep(s, t), t) < Budget(s, t)
  {
    hide Inv, SharedOk;
    SenderFacts(s, t);
    var p := s.senders[t].pc.ptr;
    StartOf(s, p);
    if s.heap[p.addr].next.None? { LastIsBeforeEnd(s, p); }
  }

  lemma FindSpends(s: State, t: Tid)
    requires Inv(s) && t in s.senders && FindStep(s, t) != s
    ensures Budget(FindStep(s, t), t) < Budget(s, t)
  {
    var pc := s.senders[t].pc;
    if pc.LoadTail? || pc.ReadStart? { LoadSpends(s, t); } else if pc.AtBlock? || pc.LoadNext? { WalkSpends(s, t); }
    hide Inv, Budget;
  }

  lemma LastIsBeforeEnd(s: State, p: Ptr)
    requires SharedOk(s) && Linked(s.chain, s.heap, p) && s.heap[p.addr].next.None?
    ensures Num(s.heap, p) == End(s) - 1
  {
    assert LinkOk(s.chain, s.heap, Num(s.heap, p));
  }

  lemma AllocSpends(s: State, t: Tid, a: Addr)
    requires Inv(s) && t in s.senders && a !in s.heap && s.senders[t].pc.Alloc?
    ensures Budget(GrowStep(s, t, a), t) < Budget(s, t)
  {
    hide Inv, SharedOk;
    SenderFacts(s, t);
  }

  lemma GrowCasSpends(s: State, t: Tid, a: Addr)
    requires Inv(s) && t in s.senders && s.senders[t].pc.GrowCas?
    ensures Budget(GrowStep(s, t, a), t) < Budget(s, t)
  {
    hide Inv, SharedOk;
    SenderFacts(s, t);
    var p := s.senders[t].pc.ptr;
    if s.heap[p.addr].next.Some? { NextHeld(s, p, s.senders[t].slot); } else { LastIsBeforeEnd(s, p); }
  }

  lemma PushStartSpends(s: State, t: Tid, a: Addr)
    requires Inv(s) && t in s.senders && s.senders[t].pc.PushStart?
    ensures Budget(GrowStep(s, t, a), t) < Budget(s, t)
  {
    hide Inv, SharedOk;
    SenderFacts(s, t);
    LinkedNum(s, s.senders[t].pc.ptr);
    LinkedNum(s, s.senders[t].pc.curr);
  }

  lemma PushCasSpends(s: State, t: Tid, a: Addr)
    requires Inv(s) && t in s.senders && s.senders[t].pc.PushCas?
    ensures Budget(GrowStep(s, t, a), t) < Budget(s, t)
  {
    hide Inv, SharedOk;
    SenderFacts(s, t);
    var curr := s.senders[t].pc.curr;
    if s.heap[curr.addr].next.Some? { NextHeld(s, curr, s.senders[t].slot); } else { LastIsBeforeEnd(s, curr); }
  }

  lemma GrowSpends(s: State, t: Tid, a: Addr)
    requires Inv(s) && t in s.senders && a !in s.heap && GrowStep(s, t, a) != s
    ensures Budget(GrowStep(s, t, a), t) < Budget(s, t)
  {
    match s.senders[t].pc
    case Alloc(_, _) => AllocSpends(s, t, a);
    case GrowCas(_, _, _) => GrowCasSpends(s, t, a);
    case PushStart(_, _, _, _, _) => PushStartSpends(s, t, a);
    case PushCas(_, _, _, _, _) => PushCasSpends(s, t, a);
    case _ =>
  }

  lemma PassSpends(s: State, t: Tid)
    requires Inv(s) && t in s.senders && (s.senders[t].pc.IsFinal? || s.senders[t].pc.SwapTail?)
    ensures Budget(AdvanceStep(s, t), t) < Budget(s, t)
  {
    hide Inv, SharedOk;
    SenderFacts(s, t);
  }

  lemma ReleaseSpends(s: State, t: Tid)
    requires Inv(s) && t in s.senders
    requires s.senders[t].pc.Observe? || s.senders[t].pc.StoreObserved? || s.senders[t].pc.MarkReleased?
    ensures Budget(AdvanceStep(s, t), t) < Budget(s, t)
  {
    hide Inv, SharedOk;
    SenderFacts(s, t);
  }

  lemma AdvanceSpends(s: State, t: Tid)
    requires Inv(s) && t in s.senders && AdvanceStep(s, t) != s
    ensures Budget(AdvanceStep(s, t), t) < Budget(s, t)
  {
    var pc := s.senders[t].pc;
    if pc.IsFinal? || pc.SwapTail? { PassSpends(s, t); }
    else if pc.Observe? || pc.StoreObserved? || pc.MarkReleased? { ReleaseSpends(s, t); }
    hide Inv, Budget;
  }

  /** The last two steps: a value is stored and then marked, a close flag is set at once. */
  lemma PublishLeaves(s: State, t: Tid)
    requires t in s.senders && PublishStep(s, t) != s && !PublishStep(s, t).fault
    ensures var s' := PublishStep(s, t);
      || t !in s'.senders
      || (s.senders[t].pc.WriteSlot? && s'.senders[t].pc == MarkReady(s.senders[t].pc.ptr)
          && s'.senders[t].slot == s.senders[t].slot && NumAt(s', s.senders[t].pc.ptr) == NumAt(s, s.senders[t].pc.ptr))
  {
  }

  lemma PublishSpends(s: State, t: Tid)
    requires Inv(s) && t in s.senders && PublishStep(s, t) != s
    ensures Budget(PublishStep(s, t), t) < Budget(s, t)
  {
    hide Inv, PublishStep, NumAt;
    PublishInv(s, t);
    NoFault(PublishStep(s, t));
    PublishLeaves(s, t);
    BudgetLeft(s, t);
  }

  // ----- everybody's steps -----

  /** What was written to a block for good: its start, the close flag, and once it is released the observed position. */
  predicate Settled(b: Block, c: Block) {
    && c.start == b.start && (b.closed ==> c.closed)
    && (b.released ==> c.released && c.observed == b.observed)
  }

  /** Linked blocks keep what is settled until they are reclaimed; the list and the tail only move on. */
  ghost predicate MovesOn(s: State, s': State) {
    && End(s) <= End(s') && s.tailNum <= s'.tailNum && s.chain.base <= s'.chain.base
    && (forall x | x in s.heap && x !in s.priv :: x in s'.heap && Settled(s.heap[x], s'.heap[x]))
    && (forall n: nat | Live(s.chain, n) && Live(s'.chain, n) :: At(s'.chain, n) == At(s.chain, n))
  }

  /** Blocks and list are as before, but for the words of a block that senders and receiver write while it is linked. */
  predicate SameList(s: State, s': State, x: Addr) {
    && s'.chain == s.chain && s.tailNum <= s'.tailNum
    && (s'.heap == s.heap || (x in s.heap && x in s'.heap && s'.heap == s.heap[x := s'.heap[x]] && Settled(s.heap[x], s'.heap[x])))
  }

  lemma SameListMovesOn(s: State, s': State, x: Addr)
    requires SameList(s, s', x)
    ensures MovesOn(s, s')
  {
  }

  lemma FindMovesOn(s: State, t: Tid)
    requires t in s.senders
    ensures MovesOn(s, FindStep(s, t))
  {
    assert SameList(s, FindStep(s, t), 0);
    SameListMovesOn(s, FindStep(s, t), 0);
    hide MovesOn;
  }

  /** A sender writes to the start of a block only while it has it for itself. */
  lemma RestartMovesOn(s: State, t: Tid, a: Addr)
    requires t in s.senders && s.senders[t].pc.PushStart? && s.senders[t].pc.extra in s.priv
    ensures MovesOn(s, GrowStep(s, t, a))
  {
  }

  lemma AllocMovesOn(s: State, t: Tid, a: Addr)
    requires t in s.senders && s.senders[t].pc.Alloc? && a !in s.heap
    ensures MovesOn(s, GrowStep(s, t, a))
  {
  }

  lemma GrowCasMovesOn(s: State, t: Tid, a: Addr)
    requires t in s.senders && s.senders[t].pc.GrowCas?
    ensures MovesOn(s, GrowStep(s, t, a))
  {
  }

  lemma PushCasMovesOn(s: State, t: Tid, a: Addr)
    requires t in s.senders && s.senders[t].pc.PushCas?
    ensures MovesOn(s, GrowStep(s, t, a))
  {
  }

  lemma NoGrowMovesOn(s: State, t: Tid, a: Addr)
    requires t in s.senders
    requires var pc := s.senders[t].pc; !pc.Alloc? && !pc.GrowCas? && !pc.PushStart? && !pc.PushCas?
    ensures MovesOn(s, GrowStep(s, t, a))
  {
  }

  lemma ExtraIsPrivate(s: State, t: Tid)
    requires Inv(s) && t in s.senders && s.senders[t].pc.PushStart?
    ensures s.senders[t].pc.extra in s.priv
  {
    hide Inv, SharedOk, Stepping, Holding;
    SenderFacts(s, t);
  }

  lemma GrowMovesOn(s: State, t: Tid, a: Addr)
    requires Inv(s) && t in s.senders && a !in s.heap
    ensures MovesOn(s, GrowStep(s, t, a))
  {
    hide Inv, GrowStep, MovesOn;
    match s.senders[t].pc
    case Alloc(_, _) => AllocMovesOn(s, t, a);
    case GrowCas(_, _, _) => GrowCasMovesOn(s, t, a);
    case PushCas(_, _, _, _, _) => PushCasMovesOn(s, t, a);
    case PushStart(_, _, _, _, _) =>
      ExtraIsPrivate(s, t);
      RestartMovesOn(s, t, a);
    case _ => NoGrowMovesOn(s, t, a);
  }

  lemma NotReleasedYet(s: State, t: Tid)
    requires Inv(s) && t in s.senders && (s.senders[t].pc.StoreObserved? || s.senders[t].pc.MarkReleased?)
    ensures s.senders[t].pc.ptr.addr in s.heap && !s.heap[s.senders[t].pc.ptr.addr].released
  {
    hide SharedOk, RxOk;
    SenderFacts(s, t);
  }

  lemma AdvanceMovesOn(s: State, t: Tid)
    requires Inv(s) && t in s.senders
    ensures MovesOn(s, AdvanceStep(s, t))
  {
    hide MovesOn, Inv;
    if s.senders[t].pc.StoreObserved? || s.senders[t].pc.MarkReleased? { NotReleasedYet(s, t); }
    var x := if s.senders[t].pc.LoadTail? then 0 else s.senders[t].pc.ptr.addr;
    assert SameList(s, AdvanceStep(s, t), x);
    SameListMovesOn(s, AdvanceStep(s, t), x);
  }

  lemma PublishMovesOn(s: State, t: Tid)
    requires t in s.senders
    ensures MovesOn(s, PublishStep(s, t))
  {
    hide MovesOn;
    var x := if s.senders[t].pc.LoadTail? then 0 else s.senders[t].pc.ptr.addr;
    assert SameList(s, PublishStep(s, t), x);
    SameListMovesOn(s, PublishStep(s, t), x);
  }

  lemma HeadMovesOn(s: State)
    requires s.rx.pc == AdvNext
    ensures MovesOn(s, AdvanceHeadStep(s))
  {
  }

  lemma AdvanceHeadMovesOn(s: State)
    ensures MovesOn(s, AdvanceHeadStep(s))
  {
    if s.rx.pc == AdvNext {
      HeadMovesOn(s);
    } else {
      SameListMovesOn(s, AdvanceHeadStep(s), 0);
    }
    hide MovesOn;
  }

  lemma TakeMovesOn(s: State)
    requires s.rx.pc == TakeNext
    ensures MovesOn(s, ReclaimStep(s))
  {
  }

  lemma ReclaimMovesOn(s: State)
    ensures MovesOn(s, ReclaimStep(s))
  {
    if s.rx.pc == TakeNext {
      TakeMovesOn(s);
    } else {
      SameListMovesOn(s, ReclaimStep(s), 0);
    }
    hide MovesOn;
  }

  lemma ReadMovesOn(s: State)
    ensures MovesOn(s, ReadStep(s))
  {
    hide MovesOn;
    assert SameList(s, ReadStep(s), 0);
    SameListMovesOn(s, ReadStep(s), 0);
  }

  /** The receiver writes to the start of a block only while it has it for itself. */
  lemma ReuseWrites(s: State)
    requires s.rx.pc.Reset? || s.rx.pc.TryStart? || s.rx.pc.FreeBlock?
    requires s.rx.pc.block.addr in s.priv
    ensures MovesOn(s, ReuseStep(s))
  {
    var b := s.rx.pc.block.addr;
    assert forall x | x in s.heap && x != b :: x in ReuseStep(s).heap && ReuseStep(s).heap[x] == s.heap[x];
  }

  lemma ReuseLinks(s: State)
    requires s.rx.pc.TryCas?
    ensures MovesOn(s, ReuseStep(s))
  {
  }

  lemma ReuseLooks(s: State)
    requires !(s.rx.pc.Reset? || s.rx.pc.TryStart? || s.rx.pc.FreeBlock? || s.rx.pc.TryCas?)
    ensures MovesOn(s, ReuseStep(s))
  {
    SameListMovesOn(s, ReuseStep(s), 0);
    hide MovesOn;
  }

  lemma DetachedIsPrivate(s: State)
    requires Inv(s) && (s.rx.pc.Reset? || s.rx.pc.TryStart? || s.rx.pc.FreeBlock?)
    ensures s.rx.pc.block.addr in s.priv
  {
    hide SharedOk, SendersOk;
  }

  lemma ReuseMovesOn(s: State)
    requires Inv(s)
    ensures MovesOn(s, ReuseStep(s))
  {
    hide Inv, ReuseStep, MovesOn;
    if s.rx.pc.Reset? || s.rx.pc.TryStart? || s.rx.pc.FreeBlock? {
      DetachedIsPrivate(s);
      ReuseWrites(s);
    } else if s.rx.pc.TryCas? {
      ReuseLinks(s);
    } else {
      ReuseLooks(s);
    }
  }

  lemma StepMovesOn(s: State, a: Action)
    requires Inv(s) && Enabled(s, a)
    ensures MovesOn(s, Apply(s, a))
  {
    hide Inv, FindStep, GrowStep, AdvanceStep, PublishStep, AdvanceHeadStep, ReclaimStep, ReuseStep, ReadStep;
    match a
    case Find(t) => FindMovesOn(s, t);
    case Grow(t, addr) => GrowMovesOn(s, t, addr);
    case Advance(t) => AdvanceMovesOn(s, t);
    case Publish(t) => PublishMovesOn(s, t);
    case AdvanceHead => AdvanceHeadMovesOn(s);
    case Reclaim => ReclaimMovesOn(s);
    case Reuse => ReuseMovesOn(s);
    case Read => ReadMovesOn(s);
    case _ =>
  }

  /** A step of the sender itself, and one that does something. */
  predicate OwnStep(s: State, a: Action, t: Tid)
    requires Enabled(s, a)
  {
    (a.Find? || a.Grow? || a.Advance? || a.Publish?) && a.tid == t && Apply(s, a) != s
  }

  lemma OwnStepSpends(s: State, a: Action, t: Tid)
    requires Inv(s) && Enabled(s, a) && OwnStep(s, a, t)
    ensures Budget(Apply(s, a), t) < Budget(s, t)
  {
    hide Inv, Budget, FindStep, GrowStep, AdvanceStep, PublishStep;
    match a
    case Find(_) => FindSpends(s, t);
    case Grow(_, addr) => GrowSpends(s, t, addr);
    case Advance(_) => AdvanceSpends(s, t);
    case Publish(_) => PublishSpends(s, t);
  }

  /** A step of anybody else costs the sender two steps at most, and only if it appends a block. */
  lemma OthersCost(s: State, s': State, t: Tid)
    requires Inv(s) && MovesOn(s, s')
    requires t in s'.senders <==> t in s.senders
    requires t in s.senders ==> s'.senders[t] == s.senders[t]
    ensures Budget(s', t) <= Budget(s, t) + 2 * (End(s') - End(s))
  {
    hide Inv, SharedOk;
    if t in s.senders {
      var l := s.senders[t];
      SenderFacts(s, t);
      if !l.pc.LoadTail? { LinkedNum(s, l.pc.ptr); }
      if l.pc.PushStart? || l.pc.PushCas? { LinkedNum(s, l.pc.curr); }
    }
  }

  predicate Begins(a: Action, t: Tid) { (a.BeginPush? || a.BeginClose?) && a.tid == t }

  lemma ReceiverKeepsSenders(s: State)
    ensures AdvanceHeadStep(s).senders == ReclaimStep(s).senders == ReuseStep(s).senders == ReadStep(s).senders == s.senders
  {
    AdvanceHeadDetached(s);
    ReclaimDetached(s);
    ReuseDetached(s);
    ReadDetached(s);
    hide *;
  }

  lemma OthersKeepSender(s: State, a: Action, t: Tid)
    requires Enabled(s, a) && !OwnStep(s, a, t) && !Begins(a, t)
    ensures var s' := Apply(s, a);
      (t in s'.senders <==> t in s.senders) && (t in s.senders ==> s'.senders[t] == s.senders[t])
  {
    hide FindStep, GrowStep, AdvanceStep, PublishStep, AdvanceHeadStep, ReclaimStep, ReuseStep, ReadStep;
    match a
    case Find(u) => FindOthers(s, u);
    case Grow(u, addr) => GrowOthers(s, u, addr);
    case Advance(u) => AdvanceOthers(s, u);
    case Publish(u) => PublishOthers(s, u);
    case AdvanceHead => ReceiverKeepsSenders(s);
    case Reclaim => ReceiverKeepsSenders(s);
    case Reuse => ReceiverKeepsSenders(s);
    case Read => ReceiverKeepsSenders(s);
    case _ =>
  }

  lemma StepCost(s: State, a: Action, t: Tid)
    requires Inv(s) && Enabled(s, a) && !Begins(a, t)
    ensures Budget(Apply(s, a), t) + (if OwnStep(s, a, t) then 1 else 0) <= Budget(s, t) + 2 * (End(Apply(s, a)) - End(s))
  {
    hide Inv, Budget, Apply;
    StepMovesOn(s, a);
    if OwnStep(s, a, t) {
      OwnStepSpends(s, a, t);
    } else {
      OthersKeepSender(s, a, t);
      OthersCost(s, Apply(s, a), t);
    }
  }

  /** How many of the steps from state i to state j the sender took. */
  ghost function OwnSteps(states: seq<State>, actions: seq<Action>, t: Tid, i: nat, j: nat): nat
    requires IsRun(states, actions) && i <= j <= |actions|
    decreases j - i
  {
    if i == j then 0
    else OwnSteps(states, actions, t, i, j - 1) + if OwnStep(states[j - 1], actions[j - 1], t) then 1 else 0
  }

  /**
   A call that has claimed its slot ends: from any point on, until its next call, a sender takes at most
   its budget of steps and two for every block that is appended meanwhile.
   */
  lemma {:induction false} CallEnds(states: seq<State>, actions: seq<Action>, t: Tid, i: nat, j: nat)
    requires IsRun(states, actions) && i <= j <= |actions|
    requires forall k {:trigger actions[k]} :: i <= k < j ==> !Begins(actions[k], t)
    ensures End(states[i]) <= End(states[j]) && Budget(states[j], t) >= 0
    ensures OwnSteps(states, actions, t, i, j) + Budget(states[j], t)
            <= Budget(states[i], t) + 2 * (End(states[j]) - End(states[i]))
  {
    hide Inv, Budget, End, Apply, OwnStep;
    RunInv(states, actions, j);
    BudgetLeft(states[j], t);
    if i < j {
      CallEnds(states, actions, t, i, j - 1);
      RunInv(states, actions, j - 1);
      StepCost(states[j - 1], actions[j - 1], t);
      StepMovesOn(states[j - 1], actions[j - 1]);
      MovesEnd(states[j - 1], states[j]);
    }
  }

  lemma MovesEnd(s: State, s': State)
    requires MovesOn(s, s')
    ensures End(s) <= End(s')
  {
  }

  /** What a call starts with: eleven steps, and nine for every block from the tail block to that of its slot. */
  lemma CallStarts(s: State, a: Action)
    requires Enabled(s, a) && (a.BeginPush? || a.BeginClose?)
    ensures Budget(Apply(s, a), a.tid) == 11 + 9 * (BlockOf(s.tailPosition) - s.tailNum)
    ensures End(Apply(s, a)) == End(s)
  {
  }

  /**
   A bound that names no budget: a call takes at most eleven steps, nine for every block from the tail
   block to that of the slot it claimed, and two for every block appended since.
   */
  lemma CallIsBounded(states: seq<State>, actions: seq<Action>, t: Tid, i: nat, j: nat)
    requires IsRun(states, actions) && i < j <= |actions| && Begins(actions[i], t)
    requires forall k {:trigger actions[k]} :: i < k < j ==> !Begins(actions[k], t)
    ensures OwnSteps(states, actions, t, i + 1, j)
            <= 11 + 9 * (BlockOf(states[i].tailPosition) - states[i].tailNum) + 2 * (End(states[j]) - End(states[i]))
    ensures t in states[j].senders ==>
      OwnSteps(states, actions, t, i + 1, j)
      < 11 + 9 * (BlockOf(states[i].tailPosition) - states[i].tailNum) + 2 * (End(states[j]) - End(states[i]))
  {
    hide Inv, Budget, End, Apply, OwnStep;
    CallEnds(states, actions, t, i + 1, j);
    CallStarts(states[i], actions[i]);
    RunInv(states, actions, j);
    BudgetLeft(states[j], t);
  }
}
