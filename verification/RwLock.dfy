/**
 The read-write lock (`sync/rwlock`): a reader holds one permit of a shared semaphore, a writer holds
 all of them.
 */
module RwLock {
  import opened Permits
  import opened PermitTheorems
  import S = Semaphore

  const MAX_READS: nat := 0x1FFF_FFFF

  datatype Kind = Reading | Writing

  function PermitsFor(kind: Kind, mr: nat): nat { if kind == Reading then 1 else mr }

  /** `kinds` says what each lock future asked for; `readers` and `writers` count the guards alive. */
  datatype Lock = Lock(mr: nat, sem: Sem, kinds: seq<Kind>, readers: nat, writers: nat)

  ghost predicate LockOk(l: Lock) {
    && SemOk(l.sem)
    && !l.sem.closed
    && |l.kinds| == |l.sem.acquires|
    && (forall id | 0 <= id < |l.kinds| :: l.sem.acquires[id].num == PermitsFor(l.kinds[id], l.mr))
    && Total(l.sem) + l.readers + l.writers * l.mr == l.mr
  }

  /** One more or one guard less of a kind. */
  function WithGuard(l: Lock, kind: Kind): Lock {
    if kind == Reading then l.(readers := l.readers + 1) else l.(writers := l.writers + 1)
  }

  predicate HasGuard(l: Lock, kind: Kind) { if kind == Reading then l.readers > 0 else l.writers > 0 }

  function WithoutGuard(l: Lock, kind: Kind): Lock
    requires HasGuard(l, kind)
  {
    if kind == Reading then l.(readers := l.readers - 1) else l.(writers := l.writers - 1)
  }

  function Unlocked(mr: nat): Lock { Lock(mr, Sem(mr, false, [], []), [], 0, 0) }

  lemma InitialOk(mr: nat)
    ensures LockOk(Unlocked(mr))
  {
  }

  // ----- the operations on values -----

  function AfterPoll(l: Lock, id: Id, waker: Waker): Lock
    requires WellFormed(l.sem) && CanPoll(l.sem, id) && |l.kinds| == |l.sem.acquires|
  {
    var r := Poll(l.sem, id, waker);
    if r.1 == Ok then WithGuard(l.(sem := r.0), l.kinds[id]) else l.(sem := r.0)
  }

  function AfterTry(l: Lock, kind: Kind): Lock {
    var r := TryAcquire(l.sem, PermitsFor(kind, l.mr));
    if r.1 == Acquired then WithGuard(l.(sem := r.0), kind) else l.(sem := r.0)
  }

  function AfterUnlock(l: Lock, kind: Kind): Lock
    requires WellFormed(l.sem) && HasGuard(l, kind)
  {
    WithoutGuard(l, kind).(sem := AddPermits(l.sem, PermitsFor(kind, l.mr)).0)
  }

  /** All permits but one are released; the write guard becomes a read guard. */
  function AfterDowngrade(l: Lock): Lock
    requires WellFormed(l.sem) && l.writers > 0 && l.mr > 0
  {
    WithGuard(WithoutGuard(l, Writing), Reading).(sem := AddPermits(l.sem, l.mr - 1).0)
  }

  lemma PollKeeps(l: Lock, id: Id, waker: Waker)
    requires LockOk(l) && CanPoll(l.sem, id)
    ensures LockOk(AfterPoll(l, id, waker)) && Poll(l.sem, id, waker).1 != Closed
  {
    hide SemOk;
    IsWellFormed(l.sem);
    PollOk(l.sem, id, waker);
    PollKeepsRequests(l.sem, id, waker);
    PollResults(l.sem, id, waker);
    hide Poll;
  }

  lemma TryKeeps(l: Lock, kind: Kind)
    requires LockOk(l)
    ensures LockOk(AfterTry(l, kind))
  {
    hide SemOk;
    TryAcquireOk(l.sem, PermitsFor(kind, l.mr));
  }

  /** Releasing what the guards that went held, whatever remains. */
  lemma ReleaseKeeps(l: Lock, n: nat, readers: nat, writers: nat)
    requires LockOk(l) && readers + writers * l.mr + n == l.readers + l.writers * l.mr
    ensures WellFormed(l.sem) && LockOk(l.(sem := AddPermits(l.sem, n).0, readers := readers, writers := writers))
  {
    hide SemOk, Assign;
    IsWellFormed(l.sem);
    AddPermitsOk(l.sem, n);
    AssignKeepsRequests(l.sem, n);
  }

  lemma OneWriterLess(writers: nat, mr: nat)
    requires writers > 0
    ensures (writers - 1) * mr + mr == writers * mr
  {
  }

  lemma UnlockKeeps(l: Lock, kind: Kind)
    requires LockOk(l) && HasGuard(l, kind)
    ensures WellFormed(l.sem) && LockOk(AfterUnlock(l, kind))
  {
    hide LockOk;
    if kind == Reading {
      ReleaseKeeps(l, 1, l.readers - 1, l.writers);
    } else {
      OneWriterLess(l.writers, l.mr);
      ReleaseKeeps(l, l.mr, l.readers, l.writers - 1);
    }
  }

  lemma DowngradeKeeps(l: Lock)
    requires LockOk(l) && l.writers > 0 && l.mr > 0
    ensures WellFormed(l.sem) && LockOk(AfterDowngrade(l))
  {
    hide LockOk;
    OneWriterLess(l.writers, l.mr);
    ReleaseKeeps(l, l.mr - 1, l.readers + 1, l.writers - 1);
  }

  lemma CancelKeeps(l: Lock, id: Id)
    requires LockOk(l) && id < |l.sem.acquires|
    ensures WellFormed(l.sem) && AcquireOk(l.sem.acquires[id]) && LockOk(l.(sem := Drop(l.sem, id).0))
  {
    hide SemOk;
    IsWellFormed(l.sem);
    DropOk(l.sem, id);
    DropKeepsRequests(l.sem, id);
    hide Drop;
  }

  lemma PollWakesNobody(s: Sem, id: Id, waker: Waker)
    requires SemOk(s) && CanPoll(s, id)
    ensures Poll(s, id, waker).2 == []
  {
    PollCases(s, id, waker);
    hide Poll;
  }

  // ----- exclusion -----

  predicate Exclusive(l: Lock) {
    l.writers <= 1 && (l.writers == 1 ==> l.readers == 0)
  }

  /** With room for a reader at all, a writer is alone, and there are never more readers than allowed. */
  lemma Exclusion(l: Lock)
    requires LockOk(l) && l.mr >= 1
    ensures Exclusive(l) && l.readers <= l.mr
  {
    hide SemOk;
    assert l.writers >= 2 ==> l.writers * l.mr >= 2 * l.mr;
  }

  /** Nobody gets the write guard while any guard is alive. */
  lemma WriterComesAlone(l: Lock, id: Id, waker: Waker)
    requires LockOk(l) && l.mr >= 1 && CanPoll(l.sem, id) && l.kinds[id] == Writing
    requires Poll(l.sem, id, waker).1 == Ok || TryAcquire(l.sem, l.mr).1 == Acquired
    ensures l.readers == 0 && l.writers == 0
  {
    hide SemOk, Poll;
    PollOk(l.sem, id, waker);
    TryAcquireOk(l.sem, l.mr);
  }

  /** Downgrading lets no writer in: not at that moment, and not while the read guard is alive. */
  lemma DowngradeAdmitsNoWriter(l: Lock, id: Id, waker: Waker)
    requires LockOk(l) && l.writers > 0 && l.mr >= 1
    ensures WellFormed(l.sem) && AfterDowngrade(l).readers == 1 && AfterDowngrade(l).writers == 0
    ensures var d := AfterDowngrade(l);
      LockOk(d) && (CanPoll(d.sem, id) && d.kinds[id] == Writing ==>
                      Poll(d.sem, id, waker).1 == Pending && TryAcquire(d.sem, d.mr).1 == NoPermits)
  {
    Exclusion(l);
    DowngradeKeeps(l);
    var d := AfterDowngrade(l);
    if CanPoll(d.sem, id) && d.kinds[id] == Writing {
      PollKeeps(d, id, waker);
      if Poll(d.sem, id, waker).1 == Ok || TryAcquire(d.sem, d.mr).1 == Acquired {
        WriterComesAlone(d, id, waker);
      }
    }
    hide LockOk, Poll, AfterDowngrade;
  }

  // ----- runs -----

  datatype Op =
    | NewOp(kind: Kind)
    | PollOp(id: Id, waker: Waker)
    | CancelOp(id: Id)
    | TryOp(kind: Kind)
    | UnlockOp(kind: Kind)
    | DowngradeOp

  /** The future or guard used is there; downgrading keeps one permit, so the lock needs one. */
  predicate CanStep(l: Lock, op: Op) {
    match op
    case NewOp(_) => true
    case PollOp(id, _) => CanPoll(l.sem, id)
    case CancelOp(id) => id < |l.sem.acquires| && !l.sem.acquires[id].dropped
    case TryOp(_) => true
    case UnlockOp(kind) => HasGuard(l, kind)
    case DowngradeOp => l.writers > 0 && l.mr > 0
  }

  ghost function Step(l: Lock, op: Op): Lock
    requires LockOk(l) && CanStep(l, op)
  {
    match op
    case NewOp(kind) => l.(sem := New(l.sem, PermitsFor(kind, l.mr)), kinds := l.kinds + [kind])
    case PollOp(id, waker) => AfterPoll(l, id, waker)
    case CancelOp(id) => CancelKeeps(l, id); l.(sem := Drop(l.sem, id).0)
    case TryOp(kind) => AfterTry(l, kind)
    case UnlockOp(kind) => AfterUnlock(l, kind)
    case DowngradeOp => AfterDowngrade(l)
  }

  lemma StepOk(l: Lock, op: Op)
    requires LockOk(l) && CanStep(l, op)
    ensures LockOk(Step(l, op)) && Step(l, op).mr == l.mr
  {
    match op {
      case NewOp(kind) => NewOk(l.sem, PermitsFor(kind, l.mr));
      case PollOp(id, waker) => PollKeeps(l, id, waker);
      case CancelOp(id) => CancelKeeps(l, id);
      case TryOp(kind) => TryKeeps(l, kind);
      case UnlockOp(kind) => UnlockKeeps(l, kind);
      case DowngradeOp => DowngradeKeeps(l);
    }
    hide SemOk, Poll, Drop, AddPermits;
  }

  /** `Step` is defined on consistent locks only; that no other is ever reached is what `RunOk` proves. */
  ghost predicate IsRun(states: seq<Lock>, ops: seq<Op>, mr: nat) {
    && |states| == |ops| + 1
    && states[0] == Unlocked(mr)
    && forall i {:trigger ops[i]} :: 0 <= i < |ops| ==>
         CanStep(states[i], ops[i]) && (LockOk(states[i]) ==> states[i + 1] == Step(states[i], ops[i]))
  }

  lemma {:induction false} RunOk(states: seq<Lock>, ops: seq<Op>, mr: nat, i: nat)
    requires IsRun(states, ops, mr) && i < |states|
    ensures LockOk(states[i]) && states[i].mr == mr
  {
    hide LockOk, CanStep, Step;
    if i == 0 {
      InitialOk(mr);
    } else {
      RunOk(states, ops, mr, i - 1);
      StepOk(states[i - 1], ops[i - 1]);
    }
  }

  /** A lock made for no readers admits two writers at once: `write` then asks for no permit at all. */
  lemma TwoWritersWithoutReaders() returns (states: seq<Lock>)
    ensures IsRun(states, [TryOp(Writing), TryOp(Writing)], 0) && |states| == 3
    ensures states[2].writers == 2 && !Exclusive(states[2])
  {
    hide LockOk;
    var l := Unlocked(0);
    states := [l, AfterTry(l, Writing), AfterTry(AfterTry(l, Writing), Writing)];
  }

  ghost predicate AlwaysExclusive(states: seq<Lock>) {
    forall i | 0 <= i < |states| :: Exclusive(states[i])
  }

  /** Exclusion is kept in all runs of exactly the locks that allow at least one reader. */
  lemma ExclusiveExactly(mr: nat)
    ensures (forall states, ops | IsRun(states, ops, mr) :: AlwaysExclusive(states)) <==> mr >= 1
  {
    hide LockOk, IsRun;
    if mr >= 1 {
      forall states, ops | IsRun(states, ops, mr) ensures AlwaysExclusive(states) {
        forall i | 0 <= i < |states| ensures Exclusive(states[i]) {
          RunOk(states, ops, mr, i);
          Exclusion(states[i]);
        }
      }
    } else {
      var states := TwoWritersWithoutReaders();
      assert !Exclusive(states[2]);
    }
  }

  class RwLock {
    const mr: nat
    const s: S.Semaphore
    var kinds: seq<Kind>
    var readers: nat
    var writers: nat

    ghost predicate Valid()
      reads this, s, s.waiters, s.waiters.nodes, s.nodes
    {
      s.Valid() && LockOk(View())
    }

    ghost function View(): Lock
      reads this, s, s.waiters
    {
      Lock(mr, s.View(), kinds, readers, writers)
    }

    constructor WithMaxReaders(maxReads: nat)
      requires maxReads <= MAX_READS
      ensures Valid() && View() == Unlocked(maxReads)
      ensures fresh(s) && fresh(s.waiters)
    {
      mr := maxReads;
      s := new S.Semaphore(maxReads);
      kinds, readers, writers := [], 0, 0;
    }

    /** `read()` and `write()`: the future that waits for the lock. */
    method NewLock(kind: Kind) returns (id: Id)
      requires Valid()
      modifies this, s
      ensures Valid() && id == old(|kinds|)
      ensures View() == old(View()).(sem := New(old(s.View()), PermitsFor(kind, mr)), kinds := old(kinds) + [kind])
    {
      hide S.Semaphore.Valid, SemOk;
      NewOk(s.View(), PermitsFor(kind, mr));
      id := s.NewAcquire(PermitsFor(kind, mr));
      kinds := kinds + [kind];
    }

    /** Polls the future; the semaphore is never closed, so the guard is handed out or the task waits. */
    method PollLock(id: Id, waker: Waker) returns (ready: bool, woken: seq<Waker>)
      requires Valid() && CanPoll(s.View(), id)
      modifies this, s, s.waiters, s.nodes
      ensures Valid()
      ensures View() == AfterPoll(old(View()), id, waker)
      ensures ready <==> Poll(old(s.View()), id, waker).1 == Ok
      ensures woken == []
    {
      hide S.Semaphore.Valid, SemOk;
      PollKeeps(View(), id, waker);
      PollWakesNobody(s.View(), id, waker);
      var result;
      result, woken := s.PollAcquire(id, waker);
      ready := result == Ok;
      if ready {
        if kinds[id] == Reading { readers := readers + 1; } else { writers := writers + 1; }
      }
    }

    method TryLock(kind: Kind) returns (ok: bool)
      requires Valid()
      modifies this, s
      ensures Valid()
      ensures View() == AfterTry(old(View()), kind)
      ensures ok <==> old(s.permits) >= PermitsFor(kind, mr)
    {
      hide S.Semaphore.Valid, SemOk;
      TryKeeps(View(), kind);
      var result := s.TryAcquire(PermitsFor(kind, mr));
      ok := result == Acquired;
      if ok {
        if kind == Reading { readers := readers + 1; } else { writers := writers + 1; }
      }
    }

    /** Dropping a guard. */
    method Unlock(kind: Kind) returns (woken: seq<Waker>)
      requires Valid() && HasGuard(View(), kind)
      modifies this, s, s.waiters, s.nodes
      ensures Valid()
      ensures View() == AfterUnlock(old(View()), kind)
      ensures woken == AddPermits(old(s.View()), PermitsFor(kind, mr)).1
    {
      hide S.Semaphore.Valid, SemOk, Assign;
      UnlockKeeps(View(), kind);
      woken := s.Release(PermitsFor(kind, mr));
      if kind == Reading { readers := readers - 1; } else { writers := writers - 1; }
    }

    /** `RwLockWriteGuard::downgrade`: all permits but one are released. */
    method Downgrade() returns (woken: seq<Waker>)
      requires Valid() && writers > 0 && mr > 0
      modifies this, s, s.waiters, s.nodes
      ensures Valid()
      ensures View() == AfterDowngrade(old(View()))
      ensures woken == AddPermits(old(s.View()), mr - 1).1
    {
      hide S.Semaphore.Valid, SemOk, Assign;
      DowngradeKeeps(View());
      woken := s.Release(mr - 1);
      writers, readers := writers - 1, readers + 1;
    }

    method Cancel(id: Id) returns (woken: seq<Waker>)
      requires Valid() && id < |kinds|
      modifies this, s, s.waiters, s.nodes
      ensures Valid()
      ensures old(AcquireOk(s.acquires[id])) && (View(), woken) == (old(View()).(sem := Drop(old(s.View()), id).0), Drop(old(s.View()), id).1)
    {
      hide S.Semaphore.Valid, SemOk, Drop;
      CancelKeeps(View(), id);
      woken := s.DropAcquire(id);
    }
  }
}
