/**
 What holds of every execution of the block queue: memory safety with real address reuse, freedom
 from ABA, FIFO delivery in slot order, orderly close, and no leaked or doubly freed block.
 */
module BlockQueueTheorems {
  import opened Wrappers
  import opened BlockQueue
  import opened BlockQueueInvariant
  import opened BlockQueueStability
  import opened BlockQueueShared
  import opened BlockQueueSteps
  import opened BlockQueueReceiver

  lemma InitInv(addr: Addr)
    ensures Inv(Init(addr))
  {
    var s := Init(addr);
    assert Live(s.chain, 0);
    assert LinkOk(s.chain, s.heap, 0);
    assert forall n: nat :: Live(s.chain, n) ==> n == 0;
  }

  lemma ClaimInv(s: State, t: Tid, msg: Message, s': State)
    requires Inv(s) && t !in s.senders
    requires match msg
             case Value(_) => s.txCount > 0 && s' == ClaimSlot(s, t, msg)
             case Close => s.txCount == 0 && s.closeSlot == None
                           && s' == ClaimSlot(s, t, msg).(closeSlot := Some(s.tailPosition))
    ensures Inv(s')
  {
    hide SharedOk, RxOk, Evolves, Inv;
    ReceiverFacts(s);
    SharedLengths(s);
    ClaimWrite(s, s', t, msg);
    SharedLengths(s');
    NoFault(s);
    ConcludeOthers(s, s', t);
  }

  lemma SharedLengths(s: State)
    requires SharedOk(s)
    ensures |s.claims| == |s.done| == s.tailPosition
  {
  }

  /** Dropping or cloning a handle leaves the queue itself alone. */
  lemma HandleInv(s: State, s': State)
    requires Inv(s) && s' == s.(txCount := s'.txCount)
    requires HandlesOk(s'.txCount, s'.closeSlot, s'.senders)
    ensures Inv(s')
  {
    hide PcOk, RxPcOk, SharedOk, Evolves;
    HandleShared(s, s');
    HandleLocal(s, s');
    forall t | t in s'.senders
      ensures SenderOk(s', t)
    {
      assert SenderOk(s, t);
      HandlePc(s, s', t);
    }
  }

  lemma HandleShared(s: State, s': State)
    requires SharedOk(s) && s' == s.(txCount := s'.txCount)
    requires HandlesOk(s'.txCount, s'.closeSlot, s'.senders)
    ensures SharedOk(s')
  {
  }

  lemma HandleLocal(s: State, s': State)
    requires RxPcOk(s) && s' == s.(txCount := s'.txCount)
    ensures RxPcOk(s')
  {
  }

  lemma HandlePc(s: State, s': State, t: Tid)
    requires s' == s.(txCount := s'.txCount) && t in s.senders && PcOk(s, t, s.senders[t])
    ensures PcOk(s', t, s'.senders[t])
  {
  }

  lemma SharedHandles(s: State)
    requires Inv(s)
    ensures HandlesOk(s.txCount, s.closeSlot, s.senders)
  {
  }

  lemma StartPopInv(s: State)
    requires Inv(s) && s.rx.pc == Idle
    ensures Inv(SetRx(s, AdvCheck))
  {
    LocalReceiver(s, SetRx(s, AdvCheck));
  }

  /** Every action of every thread keeps the invariant. */
  lemma StepInv(s: State, a: Action)
    requires Inv(s) && Enabled(s, a)
    ensures Inv(Apply(s, a))
  {
    hide Inv;
    SharedHandles(s);
    match a
    case BeginPush(t, v) => ClaimInv(s, t, Value(v), Apply(s, a));
    case CloneTx => HandleInv(s, Apply(s, a));
    case DropTx => HandleInv(s, Apply(s, a));
    case BeginClose(t) => ClaimInv(s, t, Close, Apply(s, a));
    case Find(t) => FindInv(s, t);
    case Grow(t, addr) => GrowInv(s, t, addr);
    case Advance(t) => AdvanceInv(s, t);
    case Publish(t) => PublishInv(s, t);
    case StartPop => StartPopInv(s);
    case AdvanceHead => AdvanceHeadInv(s);
    case Reclaim => ReclaimInv(s);
    case Reuse => ReuseInv(s);
    case Read => ReadInv(s);
  }

  lemma {:induction false} RunInv(states: seq<State>, actions: seq<Action>, i: nat)
    requires IsRun(states, actions) && i < |states|
    ensures Inv(states[i])
  {
    hide Inv;
    if i == 0 {
      var addr :| states[0] == Init(addr);
      InitInv(addr);
    } else {
      RunInv(states, actions, i - 1);
      StepInv(states[i - 1], actions[i - 1]);
    }
  }

  // ----- memory safety -----

  /** The pointers a sender has in its hands. */
  ghost function Held(pc: SenderPc): set<Ptr> {
    match pc
    case LoadTail => {}
    case PushStart(p, _, next, _, curr) => {p, next, curr}
    case PushCas(p, _, next, _, curr) => {p, next, curr}
    case IsFinal(p, _, next) => {p, next}
    case SwapTail(p, next) => {p, next}
    case Observe(p, next) => {p, next}
    case StoreObserved(p, next, _) => {p, next}
    case MarkReleased(p, next) => {p, next}
    case _ => {pc.ptr}
  }

  lemma HeldHolding(s: State, t: Tid, p: Ptr)
    requires Inv(s) && t in s.senders && p in Held(s.senders[t].pc)
    ensures Holding(s, p, s.senders[t].slot) && !Done(s.done, s.senders[t].slot)
    ensures SharedOk(s)
  {
    hide SharedOk, RxOk;
    assert SenderOk(s, t);
  }

  /**
   In every interleaving: no access goes through a stale pointer, no uninitialised cell is read, no
   published cell is overwritten and no `unwrap` fails.  A block in a sender's hands is neither freed
   nor recycled, and if it is released, the receiver may not take it yet.
   */
  lemma MemorySafety(states: seq<State>, actions: seq<Action>, i: nat, t: Tid, p: Ptr)
    requires IsRun(states, actions) && i < |states|
    ensures var s := states[i];
            && !s.fault
            && (t in s.senders && p in Held(s.senders[t].pc) ==>
                  && Valid(s, p)
                  && p.addr !in s.priv
                  && s.rx.index <= s.senders[t].slot
                  && (s.heap[p.addr].released ==> s.heap[p.addr].observed > s.senders[t].slot))
  {
    hide Inv;
    var s := states[i];
    RunInv(states, actions, i);
    NoFault(s);
    if t in s.senders && p in Held(s.senders[t].pc) {
      HeldHolding(s, t, p);
      HeldSafe(s, p, s.senders[t].slot);
    }
  }

  lemma HeldSafe(s: State, p: Ptr, slot: nat)
    requires SharedOk(s) && Holding(s, p, slot) && !Done(s.done, slot)
    ensures p.addr !in s.priv && s.rx.index <= slot
    ensures s.heap[p.addr].released ==> s.heap[p.addr].observed > slot
  {
    IndexBelow(s, slot);
    assert ReleasedOk(s.heap[p.addr], Num(s.heap, p), s.passedAt);
  }

  /** When a sender's compare-and-swap on `block_tail` succeeds, the word still names the very block it loaded. */
  lemma NoAbaInRuns(states: seq<State>, actions: seq<Action>, i: nat, t: Tid)
    requires IsRun(states, actions) && i < |actions| && actions[i] == Advance(t)
    requires states[i].senders[t].pc.SwapTail?
    requires states[i].blockTail == states[i].senders[t].pc.ptr.addr
    ensures PtrTo(states[i], states[i].blockTail) == states[i].senders[t].pc.ptr
    ensures states[i + 1].tailNum == states[i].tailNum + 1
    ensures states[i].blockTail in states[i].heap && states[i + 1].blockTail in states[i + 1].heap
    ensures states[i + 1].heap[states[i + 1].blockTail].start
            == states[i].heap[states[i].blockTail].start + BLOCK_CAP
  {
    var s := states[i];
    RunInv(states, actions, i);
    hide Inv;
    SenderFacts(s, t);
    StartOf(s, s.senders[t].pc.ptr);
    StartOf(s, s.senders[t].pc.next);
  }

  // ----- find_block -----

  /**
   `find_block` starts at or before its target and moves one block at a time towards it: every block
   before `block_tail` is final, so it cannot contain the open slot.
   */
  lemma FindBlockProgress(states: seq<State>, actions: seq<Action>, i: nat, t: Tid)
    requires IsRun(states, actions) && i < |states| && t in states[i].senders
    ensures var s := states[i];
            var slot := s.senders[t].slot;
            && s.tailNum <= BlockOf(slot)
            && (forall j: nat | j < s.tailNum * BLOCK_CAP :: Done(s.done, j))
            && (s.senders[t].pc.AtBlock? ==>
                  var p := s.senders[t].pc.ptr;
                  && p.addr in s.heap
                  && s.heap[p.addr].start <= StartIndex(slot)
                  && (s.heap[p.addr].start == StartIndex(slot) <==> FindStep(s, t).senders[t].pc.WriteSlot?))
            && (s.senders[t].pc.LoadNext? ==>
                  var p := s.senders[t].pc.ptr;
                  && p.addr in s.heap
                  && s.heap[p.addr].start < StartIndex(slot)
                  && FindStep(s, t).senders[t].pc.ptr == p
                  && (FindStep(s, t).senders[t].pc.IsFinal? ==>
                        var q := FindStep(s, t).senders[t].pc.next;
                        q.addr in s.heap && s.heap[q.addr].start == s.heap[p.addr].start + BLOCK_CAP))
  {
    var s := states[i];
    var l := s.senders[t];
    RunInv(states, actions, i);
    hide Inv;
    SenderFacts(s, t);
    TailBehind(s, l.slot);
    if l.pc.AtBlock? || l.pc.LoadNext? {
      StartOf(s, l.pc.ptr);
    }
    if l.pc.LoadNext? && s.heap[l.pc.ptr.addr].next.Some? {
      NextHeld(s, l.pc.ptr, l.slot);
      StartOf(s, PtrTo(s, s.heap[l.pc.ptr.addr].next.value));
    }
  }

  // ----- delivery -----

  ghost function Items(claims: seq<Claim>): seq<Item> {
    if claims == [] then []
    else Items(claims[..|claims| - 1])
         + if claims[|claims| - 1].msg.Value? then [claims[|claims| - 1].msg.item] else []
  }

  lemma {:induction false} ItemsOf(claims: seq<Claim>, popped: seq<Item>)
    requires |claims| == |popped|
    requires forall i: nat | i < |claims| :: claims[i].msg == Value(popped[i])
    ensures Items(claims) == popped
  {
    if claims != [] {
      var n := |claims| - 1;
      ItemsOf(claims[..n], popped[..n]);
      assert popped == popped[..n] + [popped[n]];
    }
  }

  /** The receiver has seen exactly the values of the first claimed slots, each once, in claim order. */
  lemma FifoDelivery(states: seq<State>, actions: seq<Action>, i: nat)
    requires IsRun(states, actions) && i < |states|
    ensures var s := states[i];
            && |s.popped| == s.rx.index <= |s.claims|
            && s.popped == Items(s.claims[..|s.popped|])
  {
    var s := states[i];
    RunInv(states, actions, i);
    hide Inv;
    assert Inv(s);
    Delivered(s);
  }

  lemma Delivered(s: State)
    requires Inv(s)
    ensures |s.popped| == s.rx.index <= |s.claims|
    ensures s.popped == Items(s.claims[..|s.popped|])
  {
    ItemsOf(s.claims[..|s.popped|], s.popped);
  }

  /** The receiver has read the close mark, and therefore everything that was ever claimed. */
  ghost predicate Drained(s: State) {
    && s.closeSlot == Some(|s.popped|)
    && |s.claims| == |s.popped| + 1
    && s.claims[|s.popped|].msg.Close?
  }

  lemma ClosedReadDrains(s: State)
    requires Inv(s) && s.rx.pc == ReadBits
    requires Offset(s.rx.index) !in s.heap[s.rx.head.addr].ready && s.heap[s.rx.head.addr].closed
    ensures Drained(s)
  {
    HeadSlot(s);
    var c := s.closeSlot.value;
    assert ClosedOk(s.chain, s.heap, s.closeSlot);
    assert BlockOf(c) == BlockOf(s.rx.index);
    assert s.rx.index < c ==> Done(s.done, s.rx.index);
    IndexBelow(s, c);
  }

  lemma DrainedFacts(s: State)
    requires Inv(s) && Drained(s)
    ensures s.txCount == 0 && s.rx.pc != ReadSlot
  {
    hide RxOk, SendersOk;
    DrainedReading(s);
  }

  lemma DrainedReading(s: State)
    requires Inv(s) && Drained(s)
    ensures s.rx.pc != ReadSlot
  {
    hide SendersOk, ChainOk, OwnershipOk, SlotsOk, TailOk, FinalOk, PassedOk, ServedOk, ClosedOk, HandlesOk, Linked;
    assert !Done(s.done, |s.popped|);
  }

  ghost predicate SameLog(s: State, s': State) {
    && s'.claims == s.claims && s'.popped == s.popped && s'.closeSlot == s.closeSlot
    && (s'.rx.last == Closed ==> s.rx.last == Closed)
  }

  lemma FindLog(s: State, t: Tid)
    requires t in s.senders
    ensures SameLog(s, FindStep(s, t))
  {
  }

  lemma GrowLog(s: State, t: Tid, a: Addr)
    requires t in s.senders
    ensures SameLog(s, GrowStep(s, t, a))
  {
  }

  lemma AdvanceLog(s: State, t: Tid)
    requires t in s.senders
    ensures SameLog(s, AdvanceStep(s, t))
  {
  }

  lemma PublishLog(s: State, t: Tid)
    requires t in s.senders
    ensures SameLog(s, PublishStep(s, t))
  {
  }

  lemma ReclaimLog(s: State)
    ensures SameLog(s, AdvanceHeadStep(s)) && SameLog(s, ReclaimStep(s))
  {
  }

  lemma TryLog(s: State)
    requires s.rx.pc.TryStart? || s.rx.pc.TryCas?
    ensures SameLog(s, ReuseStep(s))
  {
  }

  lemma ResetLog(s: State)
    requires !s.rx.pc.TryStart? && !s.rx.pc.TryCas?
    ensures SameLog(s, ReuseStep(s))
  {
  }

  lemma ReuseLog(s: State)
    ensures SameLog(s, ReuseStep(s))
  {
    hide ReuseStep, SameLog;
    if s.rx.pc.TryStart? || s.rx.pc.TryCas? { TryLog(s); } else { ResetLog(s); }
  }

  /** Only claims extend the list of slots, and only a read hands out a value or reports `Closed`. */
  lemma StepFrame(s: State, a: Action)
    requires Enabled(s, a) && !a.Read? && !a.BeginPush? && !a.BeginClose?
    ensures SameLog(s, Apply(s, a))
  {
    hide FindStep, GrowStep, AdvanceStep, PublishStep, AdvanceHeadStep, ReclaimStep, ReuseStep;
    match a
    case Find(t) => FindLog(s, t);
    case Grow(t, addr) => GrowLog(s, t, addr);
    case Advance(t) => AdvanceLog(s, t);
    case Publish(t) => PublishLog(s, t);
    case AdvanceHead => ReclaimLog(s);
    case Reclaim => ReclaimLog(s);
    case Reuse => ReuseLog(s);
    case _ =>
  }

  /** A read reports `Closed` only where it finds the close flag and no value, and then moves nothing. */
  lemma ReadFrame(s: State)
    requires s.rx.pc != ReadSlot
    ensures var s' := ReadStep(s);
      && s'.claims == s.claims && s'.popped == s.popped && s'.closeSlot == s.closeSlot
      && (s'.rx.last == Closed && s.rx.last != Closed ==>
            && s.rx.pc == ReadBits && Valid(s, s.rx.head)
            && Offset(s.rx.index) !in s.heap[s.rx.head.addr].ready && s.heap[s.rx.head.addr].closed)
  {
  }

  /** Reading a slot reports the value, never `Closed`. */
  lemma ReadReports(s: State)
    requires s.rx.pc == ReadSlot && s.rx.last != Closed
    ensures ReadStep(s).rx.last != Closed
  {
  }

  lemma ClaimLog(s: State, t: Tid, msg: Message)
    ensures ClaimSlot(s, t, msg).rx == s.rx
  {
  }

  /** Once drained, always drained: no slot is claimed and nothing is popped any more. */
  lemma DrainedStays(s: State, a: Action)
    requires Inv(s) && Drained(s) && Enabled(s, a)
    ensures Drained(Apply(s, a)) && Apply(s, a).popped == s.popped
  {
    hide Inv, FindStep, GrowStep, AdvanceStep, PublishStep, AdvanceHeadStep, ReclaimStep, ReuseStep, ReadStep;
    DrainedFacts(s);
    if a.Read? { ReadFrame(s); } else { StepFrame(s, a); }
  }

  lemma LastChanges(s: State, a: Action)
    requires Enabled(s, a) && s.rx.last != Closed && Apply(s, a).rx.last == Closed
    ensures s.rx.pc == ReadBits && Valid(s, s.rx.head)
    ensures Offset(s.rx.index) !in s.heap[s.rx.head.addr].ready && s.heap[s.rx.head.addr].closed
    ensures Apply(s, a).claims == s.claims && Apply(s, a).popped == s.popped
    ensures Apply(s, a).closeSlot == s.closeSlot
  {
    hide FindStep, GrowStep, AdvanceStep, PublishStep, AdvanceHeadStep, ReclaimStep, ReuseStep, ReadStep, ClaimSlot;
    match a {
      case Read => if s.rx.pc == ReadSlot { ReadReports(s); } else { ReadFrame(s); }
      case BeginPush(t, v) => ClaimLog(s, t, Value(v));
      case BeginClose(t) => ClaimLog(s, t, Close);
      case _ => StepFrame(s, a);
    }
  }

  /** `Closed` is reported only after every value that was ever claimed has been handed out. */
  lemma {:induction false} ClosedComesLast(states: seq<State>, actions: seq<Action>, i: nat)
    requires IsRun(states, actions) && i < |states| && states[i].rx.last == Closed
    ensures Drained(states[i])
    ensures states[i].popped == Items(states[i].claims)
  {
    hide Inv, Apply;
    var s' := states[i];
    if i > 0 {
      var s, a := states[i - 1], actions[i - 1];
      RunInv(states, actions, i - 1);
      if s.rx.last == Closed {
        ClosedComesLast(states, actions, i - 1);
        DrainedStays(s, a);
      } else {
        LastChanges(s, a);
        ClosedReadDrains(s);
      }
    }
    RunInv(states, actions, i);
    DrainedItems(s');
  }

  lemma DrainedItems(s: State)
    requires Inv(s) && Drained(s)
    ensures s.popped == Items(s.claims)
  {
    hide Inv;
    Delivered(s);
    assert s.claims[..|s.claims| - 1] == s.claims[..|s.popped|];
  }

  lemma TailIsClaims(s: State)
    requires Inv(s)
    ensures s.tailPosition == |s.claims|
  {
    hide RxOk, SendersOk;
  }

  /**
   What a `try_pop` that finds nothing reports.  It loads the tail position at state i, and its pop ends at
   state j with nothing handed out in between.  It says Empty if the two positions agree: then everything
   ever claimed by state i had been handed out.  It says Busy otherwise: then the slot at the index had
   been claimed by state i and is still on its way.
   */
  lemma TryPopReports(states: seq<State>, actions: seq<Action>, i: nat, j: nat)
    requires IsRun(states, actions) && i <= j < |states| && states[j].popped == states[i].popped
    ensures states[i].tailPosition == states[j].rx.index ==> states[i].popped == Items(states[i].claims)
    ensures states[i].tailPosition != states[j].rx.index ==>
              states[j].rx.index < |states[i].claims| && states[j].rx.index == |states[i].popped|
  {
    hide Inv;
    RunInv(states, actions, i);
    RunInv(states, actions, j);
    Delivered(states[i]);
    Delivered(states[j]);
    TailIsClaims(states[i]);
    assert states[i].claims[..|states[i].claims|] == states[i].claims;
  }
}
