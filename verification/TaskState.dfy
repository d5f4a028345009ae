/**
 The state word of a task (`runtime/task/state.rs`): six flags and a reference count packed into one
 machine word, and the transitions on it.  `State` works on the packed word with the source's masks;
 its methods are proved against functions on the unpacked `Snapshot`, which the model of the task
 life cycle uses.
 */
module TaskState {
  datatype Snapshot = Snapshot(
    running: bool,
    complete: bool,
    notified: bool,
    joinInterest: bool,
    joinWaker: bool,
    cancelled: bool,
    refs: nat)
  {
    predicate Idle() { !running && !complete }
  }

  const RUNNING: nat := 1
  const COMPLETE: nat := 2
  const NOTIFIED: nat := 4
  const JOIN_INTEREST: nat := 8
  const JOIN_WAKER: nat := 16
  const CANCELLED: nat := 32
  const REF_ONE: nat := 64
  const INITIAL_STATE: nat := REF_ONE * 3 + JOIN_INTEREST + NOTIFIED

  const INITIAL: Snapshot := Snapshot(false, false, true, true, false, false, 3)

  // ----- the packed word -----

  function Bit(b: bool, mask: nat): nat { if b then mask else 0 }

  function Pack(s: Snapshot): nat {
    Bit(s.running, RUNNING) + Bit(s.complete, COMPLETE) + Bit(s.notified, NOTIFIED)
    + Bit(s.joinInterest, JOIN_INTEREST) + Bit(s.joinWaker, JOIN_WAKER) + Bit(s.cancelled, CANCELLED)
    + s.refs * REF_ONE
  }

  /** `word & mask == mask` for a mask of one bit. */
  predicate Has(word: nat, mask: nat)
    requires mask > 0
  {
    word / mask % 2 == 1
  }

  function RefCount(word: nat): nat { word / REF_ONE }

  function Unpack(word: nat): Snapshot {
    Snapshot(Has(word, RUNNING), Has(word, COMPLETE), Has(word, NOTIFIED), Has(word, JOIN_INTEREST),
             Has(word, JOIN_WAKER), Has(word, CANCELLED), RefCount(word))
  }

  /** `word | mask` and `word & !mask` for a mask of one bit. */
  function SetBit(word: nat, mask: nat): nat
    requires mask > 0
  {
    if Has(word, mask) then word else word + mask
  }

  function ClearBit(word: nat, mask: nat): nat
    requires mask > 0
  {
    if Has(word, mask) then word - mask else word
  }

  lemma Halves(word: nat)
    ensures word / 2 / 2 == word / 4 && word / 4 / 2 == word / 8 && word / 8 / 2 == word / 16
    ensures word / 16 / 2 == word / 32 && word / 32 / 2 == word / 64
  {
  }

  /** The lowest binary digit of a number, and the rest. */
  lemma Digit(word: nat, b: bool, rest: nat)
    requires word == Bit(b, 1) + 2 * rest
    ensures word / 2 == rest && (word % 2 == 1 <==> b)
  {
  }

  /** The lowest three of them. */
  lemma ThreeDigits(word: nat, b0: bool, b1: bool, b2: bool, rest: nat)
    requires word == Bit(b0, 1) + Bit(b1, 2) + Bit(b2, 4) + 8 * rest
    ensures word / 8 == rest
    ensures (word % 2 == 1 <==> b0) && (word / 2 % 2 == 1 <==> b1) && (word / 4 % 2 == 1 <==> b2)
  {
    var w2 := Bit(b2, 1) + 2 * rest;
    var w1 := Bit(b1, 1) + 2 * w2;
    Digit(word, b0, w1);
    Digit(w1, b1, w2);
    Digit(w2, b2, rest);
    Halves(word);
  }

  lemma UnpackPack(s: Snapshot)
    ensures Unpack(Pack(s)) == s
  {
    var high := Bit(s.joinInterest, 1) + Bit(s.joinWaker, 2) + Bit(s.cancelled, 4) + 8 * s.refs;
    ThreeDigits(Pack(s), s.running, s.complete, s.notified, high);
    ThreeDigits(high, s.joinInterest, s.joinWaker, s.cancelled, s.refs);
    Halves(Pack(s));
    Halves(high);
    hide Pack, Bit;
  }

  lemma PackUnpack(word: nat)
    ensures Pack(Unpack(word)) == word
  {
    Halves(word);
    assert word == 2 * (word / 2) + word % 2;
    assert word / 2 == 2 * (word / 2 / 2) + word / 2 % 2;
    assert word / 4 == 2 * (word / 4 / 2) + word / 4 % 2;
    assert word / 8 == 2 * (word / 8 / 2) + word / 8 % 2;
    assert word / 16 == 2 * (word / 16 / 2) + word / 16 % 2;
    assert word / 32 == 2 * (word / 32 / 2) + word / 32 % 2;
  }

  /** Setting or clearing one flag, and adding to the count, act on the unpacked state as they should. */
  lemma RunningIsSet(word: nat)
    ensures Unpack(SetBit(word, RUNNING)) == Unpack(word).(running := true)
  {
    PackUnpack(word);
    UnpackPack(Unpack(word).(running := true));
    assert SetBit(word, RUNNING) == Pack(Unpack(word).(running := true));
    hide *;
  }

  lemma NotifiedIsSet(word: nat)
    ensures Unpack(SetBit(word, NOTIFIED)) == Unpack(word).(notified := true)
  {
    PackUnpack(word);
    UnpackPack(Unpack(word).(notified := true));
    assert SetBit(word, NOTIFIED) == Pack(Unpack(word).(notified := true));
    hide *;
  }

  lemma JoinWakerIsSet(word: nat)
    ensures Unpack(SetBit(word, JOIN_WAKER)) == Unpack(word).(joinWaker := true)
  {
    PackUnpack(word);
    UnpackPack(Unpack(word).(joinWaker := true));
    assert SetBit(word, JOIN_WAKER) == Pack(Unpack(word).(joinWaker := true));
    hide *;
  }

  lemma CancelledIsSet(word: nat)
    ensures Unpack(SetBit(word, CANCELLED)) == Unpack(word).(cancelled := true)
  {
    PackUnpack(word);
    UnpackPack(Unpack(word).(cancelled := true));
    assert SetBit(word, CANCELLED) == Pack(Unpack(word).(cancelled := true));
    hide *;
  }

  lemma RunningIsCleared(word: nat)
    ensures Unpack(ClearBit(word, RUNNING)) == Unpack(word).(running := false)
  {
    PackUnpack(word);
    UnpackPack(Unpack(word).(running := false));
    assert ClearBit(word, RUNNING) == Pack(Unpack(word).(running := false));
    hide *;
  }

  lemma NotifiedIsCleared(word: nat)
    ensures Unpack(ClearBit(word, NOTIFIED)) == Unpack(word).(notified := false)
  {
    PackUnpack(word);
    UnpackPack(Unpack(word).(notified := false));
    assert ClearBit(word, NOTIFIED) == Pack(Unpack(word).(notified := false));
    hide *;
  }

  lemma JoinInterestIsCleared(word: nat)
    ensures Unpack(ClearBit(word, JOIN_INTEREST)) == Unpack(word).(joinInterest := false)
  {
    PackUnpack(word);
    UnpackPack(Unpack(word).(joinInterest := false));
    assert ClearBit(word, JOIN_INTEREST) == Pack(Unpack(word).(joinInterest := false));
    hide *;
  }

  lemma JoinWakerIsCleared(word: nat)
    ensures Unpack(ClearBit(word, JOIN_WAKER)) == Unpack(word).(joinWaker := false)
  {
    PackUnpack(word);
    UnpackPack(Unpack(word).(joinWaker := false));
    assert ClearBit(word, JOIN_WAKER) == Pack(Unpack(word).(joinWaker := false));
    hide *;
  }

  lemma MoreRefs(s: Snapshot, n: nat)
    ensures Pack(s.(refs := s.refs + n)) == Pack(s) + n * REF_ONE
  {
  }

  lemma AddRefs(word: nat, n: nat)
    ensures Unpack(word + n * REF_ONE) == Unpack(word).(refs := RefCount(word) + n)
  {
    var s := Unpack(word);
    PackUnpack(word);
    UnpackPack(s.(refs := s.refs + n));
    MoreRefs(s, n);
    hide *;
  }

  lemma SubRefs(word: nat, n: nat)
    requires n <= RefCount(word)
    ensures word >= n * REF_ONE
    ensures Unpack(word - n * REF_ONE) == Unpack(word).(refs := RefCount(word) - n)
  {
    var s := Unpack(word);
    PackUnpack(word);
    UnpackPack(s.(refs := s.refs - n));
    assert word == Pack(s.(refs := s.refs - n)) + n * REF_ONE;
  }

  // ----- the transitions -----

  datatype TransitionToRunning = Success | Cancelled | Failed | Dealloc
  datatype TransitionToIdle = Ok | OkNotified | OkDealloc | IdleCancelled
  datatype TransitionToNotifiedByVal = DoNothing | Submit | DeallocByVal

  function RefDec(s: Snapshot): Snapshot
    requires s.refs > 0
  {
    s.(refs := s.refs - 1)
  }

  function RefInc(s: Snapshot): Snapshot { s.(refs := s.refs + 1) }

  function ToRunning(s: Snapshot): (Snapshot, TransitionToRunning)
    requires s.notified && s.refs > 0
  {
    if !s.Idle() then (RefDec(s), if s.refs == 1 then Dealloc else Failed)
    else (s.(running := true, notified := false), if s.cancelled then Cancelled else Success)
  }

  function ToIdle(s: Snapshot): (Snapshot, TransitionToIdle)
    requires s.running && s.refs > 0
  {
    if s.cancelled then (s, IdleCancelled)
    else if !s.notified then (RefDec(s).(running := false), if s.refs == 1 then OkDealloc else Ok)
    else (RefInc(s).(running := false), OkNotified)
  }

  function ToComplete(s: Snapshot): Snapshot
    requires s.running && !s.complete
  {
    s.(running := false, complete := true)
  }

  function ToNotifiedByVal(s: Snapshot): (Snapshot, TransitionToNotifiedByVal)
    requires s.refs > 0 && (s.running ==> s.refs > 1)
  {
    if s.running then (RefDec(s).(notified := true), DoNothing)
    else if s.complete || s.notified then (RefDec(s), if s.refs == 1 then DeallocByVal else DoNothing)
    else (RefInc(s).(notified := true), Submit)
  }

  /** The second component says whether the caller must submit a new notification. */
  function ToNotifiedByRef(s: Snapshot): (Snapshot, bool) {
    if s.complete || s.notified then (s, false)
    else if s.running then (s.(notified := true), false)
    else (RefInc(s).(notified := true), true)
  }

  function ToNotifiedAndCancel(s: Snapshot): (Snapshot, bool) {
    if s.cancelled || s.complete then (s, false)
    else if s.running then (s.(notified := true, cancelled := true), false)
    else if s.notified then (s.(cancelled := true), false)
    else (RefInc(s).(notified := true, cancelled := true), true)
  }

  /** The second component says whether the caller took RUNNING. */
  function ToShutdown(s: Snapshot): (Snapshot, bool) {
    (s.(cancelled := true, running := s.running || s.Idle()), s.Idle())
  }

  /** The three updates of the join handle succeed unless the task is complete. */
  function UnsetJoinInterest(s: Snapshot): (Snapshot, bool)
    requires s.joinInterest
  {
    if s.complete then (s, false) else (s.(joinInterest := false), true)
  }

  function SetJoinWaker(s: Snapshot): (Snapshot, bool)
    requires s.joinInterest && !s.joinWaker
  {
    if s.complete then (s, false) else (s.(joinWaker := true), true)
  }

  function UnsetJoinWaker(s: Snapshot): (Snapshot, bool)
    requires s.joinInterest && s.joinWaker
  {
    if s.complete then (s, false) else (s.(joinWaker := false), true)
  }

  /**
   The atomic word.  Every compare-and-swap loop of the source retries until its update applies to
   the current word, so each method is one atomic update.  The preconditions are the assertions of
   the source.
   */
  class State {
    var val: nat

    constructor ()
      ensures val == INITIAL_STATE && Unpack(val) == INITIAL
    {
      val := INITIAL_STATE;
      UnpackPack(INITIAL);
    }

    method TransitionToRunning() returns (action: TransitionToRunning)
      requires Has(val, NOTIFIED) && RefCount(val) > 0
      modifies this
      ensures (Unpack(val), action) == old(ToRunning(Unpack(val)))
    {
      if Has(val, RUNNING) || Has(val, COMPLETE) {
        SubRefs(val, 1);
        val := val - REF_ONE;
        action := if RefCount(val) == 0 then Dealloc else Failed;
      } else {
        RunningIsSet(val);
        val := SetBit(val, RUNNING);
        NotifiedIsCleared(val);
        val := ClearBit(val, NOTIFIED);
        action := if Has(val, CANCELLED) then Cancelled else Success;
      }
    }

    method TransitionToIdle() returns (action: TransitionToIdle)
      requires Has(val, RUNNING) && RefCount(val) > 0
      modifies this
      ensures (Unpack(val), action) == old(ToIdle(Unpack(val)))
    {
      if Has(val, CANCELLED) {
        return IdleCancelled;
      }
      RunningIsCleared(val);
      val := ClearBit(val, RUNNING);
      if !Has(val, NOTIFIED) {
        SubRefs(val, 1);
        val := val - REF_ONE;
        action := if RefCount(val) == 0 then OkDealloc else Ok;
      } else {
        AddRefs(val, 1);
        val := val + REF_ONE;
        action := OkNotified;
      }
    }

    /** `fetch_xor` of both lifecycle bits. */
    method TransitionToComplete() returns (snapshot: Snapshot)
      requires Has(val, RUNNING) && !Has(val, COMPLETE)
      modifies this
      ensures Unpack(val) == snapshot == old(ToComplete(Unpack(val)))
    {
      CompleteXor(val);
      val := val - RUNNING + COMPLETE;
      snapshot := Unpack(val);
    }

    method TransitionToTerminal(count: nat) returns (dealloc: bool)
      requires RefCount(val) >= count
      modifies this
      ensures Unpack(val) == old(Unpack(val)).(refs := old(RefCount(val)) - count)
      ensures dealloc <==> RefCount(val) == 0
    {
      SubRefs(val, count);
      dealloc := RefCount(val) == count;
      val := val - count * REF_ONE;
    }

    method TransitionToNotifiedByVal() returns (action: TransitionToNotifiedByVal)
      requires RefCount(val) > 0 && (Has(val, RUNNING) ==> RefCount(val) > 1)
      modifies this
      ensures (Unpack(val), action) == old(ToNotifiedByVal(Unpack(val)))
    {
      if Has(val, RUNNING) {
        NotifiedIsSet(val);
        val := SetBit(val, NOTIFIED);
        SubRefs(val, 1);
        val := val - REF_ONE;
        action := DoNothing;
      } else if Has(val, COMPLETE) || Has(val, NOTIFIED) {
        SubRefs(val, 1);
        val := val - REF_ONE;
        action := if RefCount(val) == 0 then DeallocByVal else DoNothing;
      } else {
        NotifiedIsSet(val);
        val := SetBit(val, NOTIFIED);
        AddRefs(val, 1);
        val := val + REF_ONE;
        action := Submit;
      }
    }

    method TransitionToNotifiedByRef() returns (submit: bool)
      modifies this
      ensures (Unpack(val), submit) == old(ToNotifiedByRef(Unpack(val)))
    {
      if Has(val, COMPLETE) || Has(val, NOTIFIED) {
        return false;
      }
      NotifiedIsSet(val);
      var next := SetBit(val, NOTIFIED);
      if Has(val, RUNNING) {
        val := next;
        submit := false;
      } else {
        AddRefs(next, 1);
        val := next + REF_ONE;
        submit := true;
      }
    }

    method TransitionToNotifiedAndCancel() returns (submit: bool)
      modifies this
      ensures (Unpack(val), submit) == old(ToNotifiedAndCancel(Unpack(val)))
    {
      if Has(val, CANCELLED) || Has(val, COMPLETE) {
        return false;
      }
      CancelledIsSet(val);
      var next := SetBit(val, CANCELLED);
      submit := !Has(val, RUNNING) && !Has(val, NOTIFIED);
      NotifiedIsSet(next);
      next := SetBit(next, NOTIFIED);
      if submit {
        AddRefs(next, 1);
        next := next + REF_ONE;
      }
      val := next;
    }

    method TransitionToShutdown() returns (running: bool)
      modifies this
      ensures (Unpack(val), running) == old(ToShutdown(Unpack(val)))
    {
      running := !Has(val, RUNNING) && !Has(val, COMPLETE);
      var next := val;
      if running {
        RunningIsSet(next);
        next := SetBit(next, RUNNING);
      }
      CancelledIsSet(next);
      val := SetBit(next, CANCELLED);
    }

    method DropJoinHandleFast() returns (ok: bool)
      modifies this
      ensures ok <==> old(Unpack(val)) == INITIAL
      ensures Unpack(val) == if ok then INITIAL.(refs := 2, joinInterest := false) else old(Unpack(val))
    {
      UnpackPack(INITIAL);
      PackUnpack(val);
      ok := val == INITIAL_STATE;
      if ok {
        SubRefs(val, 1);
        val := val - REF_ONE;
        JoinInterestIsCleared(val);
        val := ClearBit(val, JOIN_INTEREST);
      }
    }

    method UnsetJoinInterested() returns (ok: bool)
      requires Has(val, JOIN_INTEREST)
      modifies this
      ensures (Unpack(val), ok) == old(UnsetJoinInterest(Unpack(val)))
    {
      ok := !Has(val, COMPLETE);
      if ok {
        JoinInterestIsCleared(val);
        val := ClearBit(val, JOIN_INTEREST);
      }
    }

    method SetJoinWakerBit() returns (ok: bool)
      requires Has(val, JOIN_INTEREST) && !Has(val, JOIN_WAKER)
      modifies this
      ensures (Unpack(val), ok) == old(SetJoinWaker(Unpack(val)))
    {
      ok := !Has(val, COMPLETE);
      if ok {
        JoinWakerIsSet(val);
        val := SetBit(val, JOIN_WAKER);
      }
    }

    method UnsetJoinWakerBit() returns (ok: bool)
      requires Has(val, JOIN_INTEREST) && Has(val, JOIN_WAKER)
      modifies this
      ensures (Unpack(val), ok) == old(UnsetJoinWaker(Unpack(val)))
    {
      ok := !Has(val, COMPLETE);
      if ok {
        JoinWakerIsCleared(val);
        val := ClearBit(val, JOIN_WAKER);
      }
    }

    method RefIncrement()
      modifies this
      ensures Unpack(val) == old(RefInc(Unpack(val)))
    {
      AddRefs(val, 1);
      val := val + REF_ONE;
    }

    method RefDecrement() returns (release: bool)
      requires RefCount(val) >= 1
      modifies this
      ensures Unpack(val) == old(RefDec(Unpack(val)))
      ensures release <==> RefCount(val) == 0
    {
      SubRefs(val, 1);
      release := RefCount(val) == 1;
      val := val - REF_ONE;
    }
  }

  lemma CompleteXor(word: nat)
    requires Has(word, RUNNING) && !Has(word, COMPLETE)
    ensures word >= 1 && Unpack(word - RUNNING + COMPLETE) == ToComplete(Unpack(word))
  {
    var s := ToComplete(Unpack(word));
    PackUnpack(word);
    UnpackPack(s);
    assert word - RUNNING + COMPLETE == Pack(s);
  }

  /** Dropping an untouched join handle the fast way leaves what the slow way leaves. */
  lemma FastDropIsSlowDrop()
    ensures UnsetJoinInterest(INITIAL).1
    ensures RefDec(UnsetJoinInterest(INITIAL).0) == INITIAL.(refs := 2, joinInterest := false)
  {
  }
}
