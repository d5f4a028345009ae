/**
 What a `pop` of the block queue answers, and that it answers: in every run a pop that begins when the slot
 at the index is finished hands out its value, one that begins at the slot of a finished `close` says so,
 and each ends within a number of receiver steps that no sender can change.
 */
module BlockQueuePops {
  import opened Wrappers
  import opened BlockQueue
  import opened BlockQueueInvariant
  import opened BlockQueueSteps
  import opened BlockQueueReceiver
  import opened BlockQueueTheorems
  import opened BlockQueueProgress
  import opened BlockQueueMemory

  // ----- calls and claims -----

  predicate IsClaim(a: Action) { a.BeginPush? || a.BeginClose? }

  function ClaimOf(a: Action): Claim
    requires IsClaim(a)
  {
    Claim(a.tid, if a.BeginPush? then Value(a.item) else Close)
  }

  /** The calls of `push` and `close`, in the order in which they claimed their slots. */
  ghost function Calls(actions: seq<Action>): seq<Claim> {
    if actions == [] then []
    else
      var a := actions[|actions| - 1];
      Calls(actions[..|actions| - 1]) + if IsClaim(a) then [ClaimOf(a)] else []
  }

  /** Only a call of `push` or `close` claims a slot. */
  lemma OthersClaimNothing(s: State, a: Action)
    requires Enabled(s, a) && !IsClaim(a)
    ensures Apply(s, a).claims == s.claims
  {
    hide FindStep, GrowStep, AdvanceStep, PublishStep, AdvanceHeadStep, ReclaimStep, ReuseStep, ReadStep;
    if a.Read? { ReadClaimsNothing(s); } else { StepFrame(s, a); }
  }

  lemma ReadSlotClaimsNothing(s: State)
    requires s.rx.pc == ReadSlot
    ensures ReadStep(s).claims == s.claims && ReadStep(s).done == s.done
  {
  }

  lemma ReadClaimsNothing(s: State)
    ensures ReadStep(s).claims == s.claims && ReadStep(s).done == s.done
  {
    if s.rx.pc == ReadSlot { ReadSlotClaimsNothing(s); } else { assert ReadStep(s).done == s.done; }
  }

  /** The claimed slots are the calls made: slot k belongs to the k-th of them and to its argument. */
  lemma {:induction false} ClaimsAreCalls(states: seq<State>, actions: seq<Action>, i: nat)
    requires IsRun(states, actions) && i < |states|
    ensures states[i].claims == Calls(actions[..i])
  {
    if i > 0 {
      ClaimsAreCalls(states, actions, i - 1);
      var s, a := states[i - 1], actions[i - 1];
      assert actions[..i][..i - 1] == actions[..i - 1];
      if IsClaim(a) {
        assert Apply(s, a).claims == s.claims + [ClaimOf(a)];
      } else {
        OthersClaimNothing(s, a);
      }
    }
    hide Apply;
  }

  /** What was popped are the arguments of the first calls of `push`, each once, in claim order. */
  lemma PopsAreCalls(states: seq<State>, actions: seq<Action>, i: nat)
    requires IsRun(states, actions) && i < |states|
    ensures |states[i].popped| <= |Calls(actions[..i])|
    ensures states[i].popped == Items(Calls(actions[..i])[..|states[i].popped|])
  {
    hide IsRun, Items, Calls;
    ClaimsAreCalls(states, actions, i);
    FifoDelivery(states, actions, i);
  }

  // ----- what senders leave alone -----

  ghost predicate RxKept(s: State, s': State) {
    && s'.rx == s.rx && s'.popped == s.popped && s.claims <= s'.claims && s'.chain.base == s.chain.base
    && |s.done| <= |s'.done| && (forall k | 0 <= k < |s.done| :: s.done[k] ==> s'.done[k])
  }

  lemma FindKeepsRx(s: State, t: Tid)
    requires t in s.senders
    ensures RxKept(s, FindStep(s, t))
  {
    var s' := FindStep(s, t);
    assert s'.rx == s.rx && s'.popped == s.popped && s'.claims == s.claims && s'.chain == s.chain && s'.done == s.done;
  }

  lemma AllocKeepsRx(s: State, t: Tid, a: Addr)
    requires t in s.senders && (s.senders[t].pc.Alloc? || s.senders[t].pc.PushStart?)
    ensures RxKept(s, GrowStep(s, t, a))
  {
    var s' := GrowStep(s, t, a);
    assert s'.rx == s.rx && s'.popped == s.popped && s'.claims == s.claims && s'.chain == s.chain && s'.done == s.done;
  }

  lemma GrowKeepsRx(s: State, t: Tid, a: Addr)
    requires t in s.senders
    ensures RxKept(s, GrowStep(s, t, a))
  {
    if s.senders[t].pc.Alloc? || s.senders[t].pc.PushStart? { AllocKeepsRx(s, t, a); } else { LinkKeepsRx(s, t, a); }
    hide GrowStep, RxKept;
  }

  lemma LinkKeepsRx(s: State, t: Tid, a: Addr)
    requires t in s.senders && !s.senders[t].pc.Alloc? && !s.senders[t].pc.PushStart?
    ensures RxKept(s, GrowStep(s, t, a))
  {
    var s' := GrowStep(s, t, a);
    assert s'.rx == s.rx && s'.popped == s.popped && s'.claims == s.claims && s'.chain.base == s.chain.base && s'.done == s.done;
  }

  lemma AdvanceKeepsRx(s: State, t: Tid)
    requires t in s.senders
    ensures RxKept(s, AdvanceStep(s, t))
  {
    var s' := AdvanceStep(s, t);
    assert s'.rx == s.rx && s'.popped == s.popped && s'.claims == s.claims && s'.chain == s.chain && s'.done == s.done;
  }

  lemma PublishKeepsRx(s: State, t: Tid)
    requires t in s.senders
    ensures RxKept(s, PublishStep(s, t))
  {
    var s' := PublishStep(s, t);
    assert s'.rx == s.rx && s'.popped == s.popped && s'.claims == s.claims && s'.chain == s.chain;
  }

  predicate OfReceiver(a: Action) { a.AdvanceHead? || a.Reclaim? || a.Reuse? || a.Read? || a.StartPop? }

  lemma OthersKeepRx(s: State, a: Action)
    requires Enabled(s, a) && !OfReceiver(a)
    ensures RxKept(s, Apply(s, a))
  {
    hide FindStep, GrowStep, AdvanceStep, PublishStep;
    match a
    case Find(t) => FindKeepsRx(s, t);
    case Grow(t, addr) => GrowKeepsRx(s, t, addr);
    case Advance(t) => AdvanceKeepsRx(s, t);
    case Publish(t) => PublishKeepsRx(s, t);
    case _ =>
  }

  // ----- a finished close -----

  /** The close flag is set in the linked block of this slot, which is that of the call of `close`. */
  ghost predicate Flagged(s: State, slot: nat) {
    && s.closeSlot == Some(slot)
    && Live(s.chain, BlockOf(slot)) && At(s.chain, BlockOf(slot)) in s.heap && s.heap[At(s.chain, BlockOf(slot))].closed
  }

  /** `close` was called and has returned. */
  ghost predicate CloseOver(s: State) {
    && s.closeSlot.Some?
    && s.closeSlot.value < |s.claims|
    && !InFlight(s.claims, s.senders, s.closeSlot.value)
  }

  ghost predicate FlagOk(s: State) { CloseOver(s) ==> Flagged(s, s.closeSlot.value) }

  /** The block of an unfinished slot is not reclaimed. */
  lemma OpenBlockStays(s: State, slot: nat)
    requires SharedOk(s) && !Done(s.done, slot)
    ensures s.chain.base <= BlockOf(slot)
  {
    TailBehind(s, slot);
  }

  lemma CloseSlotOpen(s: State)
    requires SharedOk(s) && s.closeSlot.Some?
    ensures !Done(s.done, s.closeSlot.value) && s.closeSlot.value < |s.claims| && s.claims[s.closeSlot.value].msg.Close?
  {
  }

  lemma FlagStays(s: State, s': State, slot: nat)
    requires SharedOk(s) && SharedOk(s') && MovesOn(s, s') && Flagged(s, slot) && s'.closeSlot == s.closeSlot
    ensures Flagged(s', slot)
  {
    var n := BlockOf(slot);
    hide SharedOk;
    CloseSlotOpen(s');
    OpenBlockStays(s', slot);
    LinkedAt(s, n);
  }

  lemma LinkedAt(s: State, n: nat)
    requires SharedOk(s) && Live(s.chain, n)
    ensures At(s.chain, n) in s.heap && At(s.chain, n) !in s.priv
  {
    assert LinkOk(s.chain, s.heap, n);
  }

  /** The last step of `close` sets the flag. */
  lemma CloseSetsFlag(s: State, t: Tid)
    requires Inv(s) && t in s.senders && s.senders[t].msg.Close?
    requires t !in PublishStep(s, t).senders
    ensures Flagged(PublishStep(s, t), s.senders[t].slot)
  {
    hide SharedOk, RxOk;
    SenderFacts(s, t);
    CloseClaim(s, s.senders[t].slot);
    NoFault(s);
    var s' := PublishStep(s, t);
    assert s.senders[t].pc.WriteSlot?;
    assert s'.chain == s.chain && s'.closeSlot == s.closeSlot;
  }

  lemma CloseClaim(s: State, slot: nat)
    requires SharedOk(s) && slot < |s.claims| && s.claims[slot].msg.Close?
    ensures s.closeSlot == Some(slot)
  {
  }

  lemma FlagAfter(s: State, a: Action)
    requires Inv(s) && Enabled(s, a) && FlagOk(s)
    ensures FlagOk(Apply(s, a))
  {
    hide Inv, SharedOk, Apply, Flagged, MovesOn;
    var s' := Apply(s, a);
    StepInv(s, a);
    ReceiverFacts(s);
    ReceiverFacts(s');
    StepMovesOn(s, a);
    if CloseOver(s') {
      CloseWas(s, a);
      var c := s'.closeSlot.value;
      if CloseOver(s) {
        FlagStays(s, s', c);
      } else {
        CloserActs(s, a);
        CloseSetsFlag(s, s.claims[c].tid);
      }
    }
  }

  /** A call of `close` that has returned was made before this step. */
  lemma CloseWas(s: State, a: Action)
    requires Inv(s) && Enabled(s, a) && CloseOver(Apply(s, a))
    ensures s.closeSlot == Apply(s, a).closeSlot
  {
    hide Inv, FindStep, GrowStep, AdvanceStep, PublishStep, AdvanceHeadStep, ReclaimStep, ReuseStep, ReadStep;
    if a.Read? { ReadFrameClose(s); } else if !IsClaim(a) { StepFrame(s, a); } else { TailIsClaims(s); }
  }

  lemma ReadFrameClose(s: State)
    ensures ReadStep(s).closeSlot == s.closeSlot
  {
  }

  ghost predicate SameCall(s: State, s': State, t: Tid) {
    t in s.senders && t in s'.senders && s'.senders[t].slot == s.senders[t].slot && s'.senders[t].msg == s.senders[t].msg
  }

  lemma FindKeepsCall(s: State, t: Tid)
    requires t in s.senders
    ensures SameCall(s, FindStep(s, t), t)
  {
  }

  lemma AllocKeepsCall(s: State, t: Tid, a: Addr)
    requires t in s.senders && (s.senders[t].pc.Alloc? || s.senders[t].pc.PushStart?)
    ensures SameCall(s, GrowStep(s, t, a), t)
  {
  }

  lemma LinkKeepsCall(s: State, t: Tid, a: Addr)
    requires t in s.senders && (s.senders[t].pc.GrowCas? || s.senders[t].pc.PushCas?)
    ensures SameCall(s, GrowStep(s, t, a), t)
  {
  }

  lemma GrowKeepsCall(s: State, t: Tid, a: Addr)
    requires t in s.senders
    ensures SameCall(s, GrowStep(s, t, a), t)
  {
    var pc := s.senders[t].pc;
    if pc.Alloc? || pc.PushStart? {
      AllocKeepsCall(s, t, a);
    } else if pc.GrowCas? || pc.PushCas? {
      LinkKeepsCall(s, t, a);
    } else {
      assert GrowStep(s, t, a) == s;
    }
  }

  lemma AdvanceKeepsCall(s: State, t: Tid)
    requires t in s.senders
    ensures SameCall(s, AdvanceStep(s, t), t)
  {
  }

  lemma PublishKeepsCall(s: State, t: Tid)
    requires t in s.senders
    ensures t !in PublishStep(s, t).senders || SameCall(s, PublishStep(s, t), t)
  {
  }

  /** No call ends, but through the last step of its own sender. */
  lemma CallsKept(s: State, a: Action, t: Tid)
    requires Enabled(s, a) && t in s.senders && a != Publish(t)
    ensures SameCall(s, Apply(s, a), t)
  {
    hide FindStep, GrowStep, AdvanceStep, PublishStep, AdvanceHeadStep, ReclaimStep, ReuseStep, ReadStep;
    match a
    case Find(u) => FindOthers(s, u); FindKeepsCall(s, u);
    case Grow(u, addr) => GrowOthers(s, u, addr); GrowKeepsCall(s, u, addr);
    case Advance(u) => AdvanceOthers(s, u); AdvanceKeepsCall(s, u);
    case Publish(u) => PublishOthers(s, u);
    case AdvanceHead => ReceiverKeepsSenders(s);
    case Reclaim => ReceiverKeepsSenders(s);
    case Reuse => ReceiverKeepsSenders(s);
    case Read => ReceiverKeepsSenders(s);
    case _ =>
  }

  /** Only the closer's own last step ends its call. */
  lemma CloserActs(s: State, a: Action)
    requires Inv(s) && Enabled(s, a) && CloseOver(Apply(s, a)) && !CloseOver(s) && s.closeSlot == Apply(s, a).closeSlot
    ensures var c := s.closeSlot.value;
      && c < |s.claims|
      && var t := s.claims[c].tid;
      && t in s.senders && s.senders[t].slot == c && s.senders[t].msg.Close?
      && Apply(s, a) == PublishStep(s, t) && t !in PublishStep(s, t).senders
  {
    hide SharedOk, RxOk, PublishStep, FindStep, GrowStep, AdvanceStep, AdvanceHeadStep, ReclaimStep, ReuseStep, ReadStep;
    CloseSlotOpen(s);
    var c := s.closeSlot.value;
    var t := s.claims[c].tid;
    SenderFacts(s, t);
    ClaimsOnlyGrow(s, a);
    if a == Publish(t) { PublishKeepsCall(s, t); } else { CallsKept(s, a, t); }
  }

  lemma ClaimsOnlyGrow(s: State, a: Action)
    requires Enabled(s, a)
    ensures s.claims <= Apply(s, a).claims
  {
    if !IsClaim(a) { OthersClaimNothing(s, a); }
    hide FindStep, GrowStep, AdvanceStep, PublishStep, AdvanceHeadStep, ReclaimStep, ReuseStep, ReadStep;
  }

  lemma {:induction false} RunFlag(states: seq<State>, actions: seq<Action>, i: nat)
    requires IsRun(states, actions) && i < |states|
    ensures FlagOk(states[i])
  {
    hide Inv, FlagOk, Apply;
    if i == 0 {
      InitFlag(states[0]);
    } else {
      RunFlag(states, actions, i - 1);
      RunInv(states, actions, i - 1);
      FlagAfter(states[i - 1], actions[i - 1]);
    }
  }

  lemma InitFlag(s: State)
    requires exists addr :: s == Init(addr)
    ensures FlagOk(s)
  {
  }

  // ----- one pop -----

  /** The steps a pop has left; the index, the head and the oldest block are the receiver's own. */
  ghost function PopBudget(s: State): int {
    2 * (BlockOf(s.rx.index) - NumAt(s, s.rx.head)) + 14 * (BlockOf(s.rx.index) - s.chain.base) + PopPhase(s.rx.pc)
  }

  ghost function PopPhase(pc: ReceiverPc): nat {
    match pc
    case Idle => 0
    case AdvCheck => 7
    case AdvNext => 6
    case ReclaimLoop => 6
    case ReadReleased => 5
    case ReadObserved => 4
    case TakeNext => 3
    case Reset(_) => 16
    case ReuseTail(_) => 15
    case TryStart(_, _, tries) => 8 + 2 * tries
    case TryCas(_, _, tries) => 7 + 2 * tries
    case FreeBlock(_) => 7
    case ReadBits => 2
    case ReadSlot => 1
  }

  /** Nothing was handed out yet, and the receiver is nearer to the end of its call. */
  ghost predicate StillPopping(s: State, s': State) {
    && s'.rx.pc != Idle && s'.popped == s.popped && s'.rx.index == s.rx.index && s'.rx.last == s.rx.last
  }

  /** What a pop answers, in terms of the state in which it decides. */
  ghost predicate Answers(s: State, s': State) {
    && s'.rx.pc == Idle
    && (Done(s.done, s.rx.index) ==>
          && s.rx.index < |s.claims| && s.claims[s.rx.index].msg.Value?
          && s'.rx.last == Popped(s.claims[s.rx.index].msg.item)
          && s'.popped == s.popped + [s.claims[s.rx.index].msg.item])
    && (!Done(s.done, s.rx.index) ==> !s'.rx.last.Popped? && s'.popped == s.popped)
    && (Flagged(s, s.rx.index) ==> s'.rx.last == Closed)
  }

  ghost predicate PopGoesOn(s: State, s': State) {
    (StillPopping(s, s') || Answers(s, s')) && (s'.rx.pc != Idle ==> PopBudget(s') < PopBudget(s))
  }

  lemma DoneIsLinked(s: State, slot: nat)
    requires SharedOk(s) && Done(s.done, slot)
    ensures BlockOf(slot) < End(s)
  {
  }

  lemma HeadGoesOn(s: State)
    requires Inv(s) && (s.rx.pc == AdvCheck || s.rx.pc == AdvNext)
    ensures PopGoesOn(s, AdvanceHeadStep(s))
  {
    hide Inv, SharedOk;
    ReceiverFacts(s);
    var head, n := s.rx.head, BlockOf(s.rx.index);
    StartOf(s, head);
    if s.rx.pc == AdvNext {
      if s.heap[head.addr].next.Some? {
        NextLinked(s, head);
      } else {
        LastIsBeforeEnd(s, head);
        if Done(s.done, s.rx.index) { DoneIsLinked(s, s.rx.index); }
      }
    }
  }

  lemma ReclaimGoesOn(s: State)
    requires Inv(s) && (s.rx.pc == ReclaimLoop || s.rx.pc == ReadReleased || s.rx.pc == ReadObserved || s.rx.pc == TakeNext)
    ensures PopGoesOn(s, ReclaimStep(s))
  {
    hide Inv, SharedOk;
    ReceiverFacts(s);
    if s.rx.pc == TakeNext {
      ReleasedPassed(s);
      DropSafe(s);
    }
  }

  lemma TryGoesOn(s: State)
    requires Inv(s) && (s.rx.pc.TryStart? || s.rx.pc.TryCas?)
    ensures PopGoesOn(s, ReuseStep(s))
  {
    hide Inv, SharedOk;
    ReceiverFacts(s);
    LinkedNum(s, s.rx.head);
  }

  lemma ResetGoesOn(s: State)
    requires Inv(s) && (s.rx.pc.Reset? || s.rx.pc.ReuseTail? || s.rx.pc.FreeBlock?)
    ensures PopGoesOn(s, ReuseStep(s))
  {
    hide Inv, SharedOk;
    ReceiverFacts(s);
    LinkedNum(s, s.rx.head);
  }

  lemma ReadGoesOn(s: State)
    requires Inv(s) && (s.rx.pc == ReadBits || s.rx.pc == ReadSlot)
    ensures PopGoesOn(s, ReadStep(s))
  {
    hide Inv, SharedOk;
    ReceiverFacts(s);
    HeadSlot(s);
    if s.closeSlot.Some? { CloseSlotOpen(s); }
  }

  lemma ReceiverActs(s: State, a: Action)
    requires Inv(s) && Enabled(s, a) && s.rx.pc != Idle && OfReceiver(a) && Apply(s, a) != s
    ensures PopGoesOn(s, Apply(s, a))
  {
    var pc := s.rx.pc;
    if a.AdvanceHead? {
      if pc == AdvCheck || pc == AdvNext { HeadGoesOn(s); }
    } else if a.Reclaim? {
      if pc == ReclaimLoop || pc == ReadReleased || pc == ReadObserved || pc == TakeNext { ReclaimGoesOn(s); }
    } else if a.Reuse? {
      if pc.TryStart? || pc.TryCas? { TryGoesOn(s); } else if pc.Reset? || pc.ReuseTail? || pc.FreeBlock? { ResetGoesOn(s); }
    } else {
      if pc == ReadBits || pc == ReadSlot { ReadGoesOn(s); }
    }
    hide Inv, PopGoesOn;
  }

  lemma BudgetStays(s: State, s': State)
    requires Inv(s) && Inv(s') && MovesOn(s, s') && RxKept(s, s')
    ensures PopBudget(s') == PopBudget(s)
  {
    hide Inv, SharedOk;
    ReceiverFacts(s);
    LinkedNum(s, s.rx.head);
  }

  /** The receiver is inside a pop, and what it has read and will read is as it was at the beginning. */
  ghost predicate Popping(start: State, s: State) {
    && s.rx.pc != Idle && s.popped == start.popped && s.rx.index == start.rx.index
    && start.claims <= s.claims
    && (Done(start.done, start.rx.index) ==> Done(s.done, start.rx.index))
    && (CloseOver(start) && start.closeSlot == Some(start.rx.index) ==> Flagged(s, start.rx.index))
  }

  /** What a pop that began in `start` has answered in `s`. */
  ghost predicate Answered(start: State, s: State) {
    && s.rx.pc == Idle
    && (s.rx.last.Popped? ==> s.popped == start.popped + [s.rx.last.item])
    && (!s.rx.last.Popped? ==> s.popped == start.popped)
    && (Done(start.done, start.rx.index) ==>
          && start.rx.index < |start.claims|
          && start.claims[start.rx.index].msg.Value?
          && s.rx.last == Popped(start.claims[start.rx.index].msg.item))
    && (CloseOver(start) && start.closeSlot == Some(start.rx.index) ==> s.rx.last == Closed)
  }

  lemma DoneIsClaimed(s: State, slot: nat)
    requires SharedOk(s) && Done(s.done, slot)
    ensures slot < |s.claims|
  {
  }

  lemma PopStep(start: State, s: State, a: Action)
    requires Inv(start) && Inv(s) && Enabled(s, a) && Popping(start, s)
    ensures Popping(start, Apply(s, a)) || Answered(start, Apply(s, a))
    ensures Apply(s, a).rx.pc != Idle ==>
      PopBudget(Apply(s, a)) + (if OfReceiver(a) && Apply(s, a) != s then 1 else 0) <= PopBudget(s)
  {
    hide Inv, SharedOk, Apply, Flagged, CloseOver, PopBudget, MovesOn;
    var s' := Apply(s, a);
    StepInv(s, a);
    StepMovesOn(s, a);
    ReceiverFacts(start);
    ReceiverFacts(s);
    ReceiverFacts(s');
    if Done(start.done, start.rx.index) { DoneIsClaimed(start, start.rx.index); }
    if OfReceiver(a) && s' != s {
      ReceiverActs(s, a);
      ReceiverClaimsNothing(s, a);
    } else if s' != s {
      OthersKeepRx(s, a);
      BudgetStays(s, s');
    }
    if CloseOver(start) && start.closeSlot == Some(start.rx.index) {
      FlagPersists(s, s', a, start.rx.index);
    }
  }

  lemma HeadFinishesNothing(s: State)
    ensures AdvanceHeadStep(s).done == s.done
  {
  }

  lemma ReclaimFinishesNothing(s: State)
    ensures ReclaimStep(s).done == s.done
  {
    if s.rx.pc != TakeNext { LooksOnly(s); }
  }

  lemma LooksOnly(s: State)
    requires s.rx.pc != TakeNext
    ensures ReclaimStep(s).done == s.done && ReclaimStep(s).chain == s.chain
  {
  }

  lemma TryFinishesNothing(s: State)
    requires s.rx.pc.TryStart? || s.rx.pc.TryCas?
    ensures ReuseStep(s).done == s.done
  {
  }

  lemma ResetFinishesNothing(s: State)
    requires !s.rx.pc.TryStart? && !s.rx.pc.TryCas?
    ensures ReuseStep(s).done == s.done
  {
  }

  lemma ReceiverClaimsNothing(s: State, a: Action)
    requires Enabled(s, a) && OfReceiver(a)
    ensures Apply(s, a).claims == s.claims && Apply(s, a).done == s.done
  {
    hide AdvanceHeadStep, ReclaimStep, ReuseStep, ReadStep;
    OthersClaimNothing(s, a);
    HeadFinishesNothing(s);
    ReclaimFinishesNothing(s);
    ReadClaimsNothing(s);
    if s.rx.pc.TryStart? || s.rx.pc.TryCas? { TryFinishesNothing(s); } else { ResetFinishesNothing(s); }
  }

  lemma FlagPersists(s: State, s': State, a: Action, slot: nat)
    requires Inv(s) && Enabled(s, a) && s' == Apply(s, a) && Flagged(s, slot)
    ensures Flagged(s', slot)
  {
    hide Inv, SharedOk, Apply, MovesOn;
    StepInv(s, a);
    StepMovesOn(s, a);
    ReceiverFacts(s);
    ReceiverFacts(s');
    CloseStays(s, a);
    FlagStays(s, s', slot);
  }

  lemma CloseStays(s: State, a: Action)
    requires Inv(s) && Enabled(s, a) && s.closeSlot.Some?
    ensures Apply(s, a).closeSlot == s.closeSlot
  {
    hide Inv, FindStep, GrowStep, AdvanceStep, PublishStep, AdvanceHeadStep, ReclaimStep, ReuseStep, ReadStep;
    SharedHandles(s);
    if a.Read? { ReadFrameClose(s); } else if !IsClaim(a) { StepFrame(s, a); }
  }

  lemma {:induction false} WhilePopping(states: seq<State>, actions: seq<Action>, i: nat, j: nat)
    requires IsRun(states, actions) && i < j < |states| && actions[i] == StartPop
    requires forall k | i < k < j :: states[k].rx.pc != Idle
    ensures Popping(states[i], states[j]) || Answered(states[i], states[j])
  {
    hide Inv, Apply, Popping, Answered;
    RunInv(states, actions, i);
    if i + 1 == j {
      RunFlag(states, actions, i);
      StartsPopping(states[i]);
    } else {
      WhilePopping(states, actions, i, j - 1);
      AnsweredNotIdle(states[i], states[j - 1]);
      RunInv(states, actions, j - 1);
      PopStep(states[i], states[j - 1], actions[j - 1]);
    }
  }

  lemma StartsPopping(s: State)
    requires Enabled(s, StartPop) && FlagOk(s)
    ensures Popping(s, Apply(s, StartPop))
  {
  }

  /**
   What a pop answers.  It begins in state i and ends in state j.  It reports a value exactly if it hands
   out one more, and that value.  If the slot at the index was finished when it began, it hands out the
   value of the call that claimed this slot; if it was the slot of a `close` that had returned, it
   reports Closed.
   */
  lemma PopAnswers(states: seq<State>, actions: seq<Action>, i: nat, j: nat)
    requires IsRun(states, actions) && i < j < |states| && actions[i] == StartPop
    requires states[j].rx.pc == Idle && forall k | i < k < j :: states[k].rx.pc != Idle
    ensures var (s, n) := (states[i], states[j]);
      && (n.rx.last.Popped? ==> n.popped == s.popped + [n.rx.last.item])
      && (!n.rx.last.Popped? ==> n.popped == s.popped)
      && (Done(s.done, s.rx.index) ==>
            && s.rx.index < |Calls(actions[..i])|
            && Calls(actions[..i])[s.rx.index].msg.Value?
            && n.rx.last == Popped(Calls(actions[..i])[s.rx.index].msg.item))
      && (CloseOver(s) && s.closeSlot == Some(s.rx.index) ==> n.rx.last == Closed)
  {
    hide IsRun, Calls, CloseOver;
    WhilePopping(states, actions, i, j);
    ClaimsAreCalls(states, actions, i);
  }

  /** How many steps of the receiver did something between state i and state j. */
  ghost function RxSteps(states: seq<State>, actions: seq<Action>, i: nat, j: nat): nat
    requires IsRun(states, actions) && i <= j <= |actions|
    decreases j - i
  {
    if i == j then 0
    else RxSteps(states, actions, i, j - 1) + if OfReceiver(actions[j - 1]) && states[j] != states[j - 1] then 1 else 0
  }

  lemma PopBudgetLeft(s: State)
    requires Inv(s) && s.rx.pc != Idle
    ensures PopBudget(s) > 0
  {
    hide Inv, SharedOk;
    ReceiverFacts(s);
    LinkedNum(s, s.rx.head);
  }

  lemma {:induction false} PopSpends(states: seq<State>, actions: seq<Action>, i: nat, j: nat)
    requires IsRun(states, actions) && i < j <= |actions| && actions[i] == StartPop
    requires forall k | i < k <= j :: states[k].rx.pc != Idle
    ensures RxSteps(states, actions, i + 1, j) + PopBudget(states[j]) <= PopBudget(states[i + 1])
  {
    hide Inv, Apply, Popping, Answered, PopBudget;
    if i + 1 < j {
      PopSpends(states, actions, i, j - 1);
      RunInv(states, actions, i);
      RunInv(states, actions, j - 1);
      WhilePopping(states, actions, i, j - 1);
      AnsweredNotIdle(states[i], states[j - 1]);
      PopStep(states[i], states[j - 1], actions[j - 1]);
    }
  }

  lemma AnsweredNotIdle(start: State, s: State)
    requires s.rx.pc != Idle && (Popping(start, s) || Answered(start, s))
    ensures Popping(start, s)
  {
  }

  /**
   `pop` is wait-free: whatever the senders do, it ends before the receiver has taken seven steps, two for
   each block from the head to that of the index, and fourteen for each block that is still linked
   before that.
   */
  lemma PopIsBounded(states: seq<State>, actions: seq<Action>, i: nat, j: nat)
    requires IsRun(states, actions) && i < j <= |actions| && actions[i] == StartPop
    requires forall k | i < k <= j :: states[k].rx.pc != Idle
    ensures states[i].rx.head.addr in states[i].heap
    ensures var s := states[i];
      RxSteps(states, actions, i + 1, j)
      < 7 + 2 * (BlockOf(s.rx.index) - Num(s.heap, s.rx.head)) + 14 * (BlockOf(s.rx.index) - s.chain.base)
  {
    hide Inv;
    PopSpends(states, actions, i, j);
    RunInv(states, actions, i);
    RunInv(states, actions, j);
    PopBudgetLeft(states[j]);
    ReceiverFacts(states[i]);
    HeadAllocated(states[i]);
  }

  lemma HeadAllocated(s: State)
    requires RxOk(s)
    ensures s.rx.head.addr in s.heap
  {
  }

  lemma HeadMoves(s: State)
    requires !s.fault && (s.rx.pc == AdvCheck || s.rx.pc == AdvNext)
    ensures AdvanceHeadStep(s) != s
  {
    assert AdvanceHeadStep(s).fault || AdvanceHeadStep(s).rx.pc != s.rx.pc;
  }

  lemma ReclaimMoves(s: State)
    requires !s.fault && (s.rx.pc == ReclaimLoop || s.rx.pc == ReadReleased || s.rx.pc == ReadObserved || s.rx.pc == TakeNext)
    ensures ReclaimStep(s) != s
  {
    assert ReclaimStep(s).fault || ReclaimStep(s).rx.pc != s.rx.pc;
  }

  lemma ReadMoves(s: State)
    requires !s.fault && (s.rx.pc == ReadBits || s.rx.pc == ReadSlot)
    ensures ReadStep(s) != s
  {
    assert ReadStep(s).fault || ReadStep(s).rx.pc != s.rx.pc;
  }

  lemma TryMoves(s: State)
    requires !s.fault && (s.rx.pc.TryStart? || s.rx.pc.TryCas?)
    ensures ReuseStep(s) != s
  {
    assert ReuseStep(s).fault || ReuseStep(s).rx.pc != s.rx.pc;
  }

  lemma ResetMoves(s: State)
    requires !s.fault && (s.rx.pc.Reset? || s.rx.pc.ReuseTail? || s.rx.pc.FreeBlock?)
    ensures ReuseStep(s) != s
  {
    assert ReuseStep(s).fault || ReuseStep(s).rx.pc != s.rx.pc;
  }

  /** A receiver inside a pop is never stuck. */
  lemma PopHasStep(s: State) returns (a: Action)
    requires Inv(s) && s.rx.pc != Idle
    ensures Enabled(s, a) && OfReceiver(a) && Apply(s, a) != s
  {
    hide Inv, AdvanceHeadStep, ReclaimStep, ReuseStep, ReadStep;
    NoFault(s);
    var pc := s.rx.pc;
    if pc == AdvCheck || pc == AdvNext {
      a := AdvanceHead;
      HeadMoves(s);
    } else if pc == ReclaimLoop || pc == ReadReleased || pc == ReadObserved || pc == TakeNext {
      a := Reclaim;
      ReclaimMoves(s);
    } else if pc == ReadBits || pc == ReadSlot {
      a := Read;
      ReadMoves(s);
    } else {
      a := Reuse;
      if pc.TryStart? || pc.TryCas? { TryMoves(s); } else { ResetMoves(s); }
    }
  }
}
