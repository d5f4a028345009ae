/**
 `Notify` (`sync/notify.rs`) with any number of threads and `Notified` futures.  The word holds EMPTY,
 WAITING or NOTIFIED and the number of `notify_waiters` calls; a mutex guards the wait list, but
 EMPTY and NOTIFIED change into each other without it.  Every access to the word is one step; list
 operations belong to the step of the lock holder they are next to.
 */
module Notify {
  import opened Wrappers
  import opened LinkedList

  type Tid = nat
  type Fid = nat

  datatype WordState = Empty | Waiting | Notified

  datatype Word = Word(state: WordState, calls: nat)

  datatype Kind = AllWaiters | OneWaiter

  datatype Phase = Init | Queued | Done

  /**
   A `Notified` future: `made` is the number of `notify_waiters` calls it saw when created, `busy` the
   thread that polls or drops it, `woken` that its waker was taken to be woken.
   */
  datatype Future = Future(
    phase: Phase,
    made: nat,
    notified: Option<Kind>,
    waker: bool,
    woken: bool,
    busy: Option<Tid>,
    dropped: bool)

  /** Where a thread is: N in `notify_one`, A in `notify_waiters`, P in a poll, D in a drop. */
  datatype Pc =
    | Idle
    | NLoad
    | NSwap(curr: Word)
    | NLock
    | NReload
    | NLocked(curr: Word)
    | NStore(actual: Word)
    | ALock
    | ALoad
    | AWake(curr: Word)
    | PLoad(f: Fid)
    | PSwap(f: Fid, curr: Word)
    | PLock(f: Fid)
    | PReload(f: Fid)
    | PEnter(f: Fid, curr: Word)
    | PRelock(f: Fid)
    | PCheck(f: Fid)
    | DLock(f: Fid)
    | DRemove(f: Fid)

  /** `issued`, `coalesced` and `consumed` count the notifications of `notify_one`. */
  datatype State = State(
    word: Word,
    lock: Option<Tid>,
    queue: seq<Fid>,
    futures: seq<Future>,
    threads: seq<Pc>,
    issued: nat,
    coalesced: nat,
    consumed: nat,
    fault: bool)

  const INITIAL: State := State(Word(Empty, 0), None, [], [], [], 0, 0, 0, false)

  datatype Action =
    | NewThread
    | Create
    | NotifyOne(t: Tid)
    | NotifyWaiters(t: Tid)
    | Poll(t: Tid, f: Fid)
    | Drop(t: Tid, f: Fid)
    | Run(t: Tid)

  predicate Locks(pc: Pc) { pc.NLock? || pc.ALock? || pc.PLock? || pc.PRelock? || pc.DLock? }

  predicate Free(s: State, t: Tid) { t < |s.threads| && s.threads[t] == Idle }

  predicate Usable(s: State, f: Fid) { f < |s.futures| && s.futures[f].busy == None && !s.futures[f].dropped }

  predicate Enabled(s: State, a: Action) {
    match a
    case NewThread => true
    case Create => true
    case NotifyOne(t) => Free(s, t)
    case NotifyWaiters(t) => Free(s, t)
    case Poll(t, f) => Free(s, t) && Usable(s, f)
    case Drop(t, f) => Free(s, t) && Usable(s, f)
    case Run(t) => t < |s.threads| && s.threads[t] != Idle && (Locks(s.threads[t]) ==> s.lock == None)
  }

  function Goto(s: State, t: Tid, pc: Pc): State
    requires t < |s.threads|
  {
    s.(threads := s.threads[t := pc])
  }

  /** The call is over and the lock, if held, is given back. */
  function Return(s: State, t: Tid): State
    requires t < |s.threads|
  {
    Goto(s, t, Idle).(lock := if s.lock == Some(t) then None else s.lock)
  }

  function SetFuture(s: State, f: Fid, x: Future): State
    requires f < |s.futures|
  {
    s.(futures := s.futures[f := x])
  }

  /** The poll of f ends; `x` is what it leaves of the future. */
  function EndPoll(s: State, t: Tid, f: Fid, x: Future): State
    requires t < |s.threads| && f < |s.futures|
  {
    Return(SetFuture(s, f, x.(busy := None)), t)
  }

  /** The word becomes NOTIFIED: a permit is stored, or coalesces with the one stored already. */
  function Store(s: State): State {
    s.(word := s.word.(state := Notified), coalesced := s.coalesced + if s.word.state == Notified then 1 else 0)
  }

  /** `notify_locked` while waiters are linked: the oldest is unlinked and notified. */
  function NotifyOldest(s: State): State
    requires s.queue != [] && s.queue[|s.queue| - 1] < |s.futures|
  {
    var f := s.queue[|s.queue| - 1];
    var rest := s.queue[..|s.queue| - 1];
    SetFuture(s, f, Given(s.futures[f], OneWaiter)).(
      queue := rest,
      word := if rest == [] then s.word.(state := Empty) else s.word)
  }

  function Given(x: Future, kind: Kind): Future {
    x.(notified := Some(kind), woken := x.woken || x.waker, waker := false)
  }

  /** Every linked waiter is notified. */
  function GiveAll(futures: seq<Future>, queue: seq<Fid>): (given: seq<Future>)
    ensures |given| == |futures|
    ensures forall f :: 0 <= f < |futures| ==> given[f] == if f in queue then Given(futures[f], AllWaiters) else futures[f]
  {
    seq(|futures|, f requires 0 <= f < |futures| => if f in queue then Given(futures[f], AllWaiters) else futures[f])
  }

  /** The future a thread polls or drops. */
  function FutureOf(pc: Pc): Option<Fid> {
    match pc
    case PLoad(f) => Some(f)
    case PSwap(f, _) => Some(f)
    case PLock(f) => Some(f)
    case PReload(f) => Some(f)
    case PEnter(f, _) => Some(f)
    case PRelock(f) => Some(f)
    case PCheck(f) => Some(f)
    case DLock(f) => Some(f)
    case DRemove(f) => Some(f)
    case _ => None
  }

  /** Linking a future that waits, with its waker. */
  function Enqueue(s: State, t: Tid, f: Fid): State
    requires t < |s.threads| && f < |s.futures|
  {
    EndPoll(s.(word := s.word.(state := Waiting), queue := [f] + s.queue), t, f,
            s.futures[f].(phase := Queued, waker := true, woken := false))
  }

  /** Taking the stored permit. */
  function Consume(s: State, t: Tid, f: Fid): State
    requires t < |s.threads| && f < |s.futures|
  {
    EndPoll(s.(word := s.word.(state := Empty), consumed := s.consumed + 1), t, f, s.futures[f].(phase := Done))
  }

  /** The assertions and unwraps of the source. */
  predicate Sound(s: State, t: Tid)
    requires t < |s.threads|
  {
    var pc := s.threads[t];
    && (FutureOf(pc).Some? ==> FutureOf(pc).value < |s.futures|)
    && match pc
       case NLocked(curr) =>
         if curr.state == Waiting then
           && s.queue != []
           && s.queue[|s.queue| - 1] < |s.futures|
           && s.futures[s.queue[|s.queue| - 1]].notified == None
         else s.word.state != Waiting
       case AWake(curr) =>
         curr.state == Waiting ==>
           forall i | 0 <= i < |s.queue| :: s.queue[i] < |s.futures| && s.futures[s.queue[i]].notified == None
       case PEnter(_, curr) =>
         && (curr.state == Empty && s.word != curr ==> s.word.state == Notified)
         && (curr.state == Notified && s.word != curr ==> s.word.state == Empty)
       case _ => true
  }

  function NotifyOneStep(s: State, t: Tid): State
    requires t < |s.threads| && Sound(s, t)
  {
    match s.threads[t]
    case NLoad => Goto(s, t, if s.word.state == Waiting then NLock else NSwap(s.word))
    case NSwap(curr) =>
      if s.word == curr then Return(Store(s), t)
      else Goto(s, t, if s.word.state == Waiting then NLock else NSwap(s.word))
    case NLock => Goto(s, t, NReload).(lock := Some(t))
    case NReload => Goto(s, t, NLocked(s.word))
    case NLocked(curr) =>
      if curr.state == Waiting then Return(NotifyOldest(s), t)
      else if s.word == curr then Return(Store(s), t)
      else Goto(s, t, NStore(s.word))
    case NStore(actual) => Return(Store(s.(word := s.word.(calls := actual.calls))), t)
    case _ => s
  }

  function NotifyWaitersStep(s: State, t: Tid): State
    requires t < |s.threads| && Sound(s, t)
  {
    match s.threads[t]
    case ALock => Goto(s, t, ALoad).(lock := Some(t))
    case ALoad => Goto(s, t, AWake(s.word))
    case AWake(curr) =>
      if curr.state != Waiting then Return(s.(word := s.word.(calls := s.word.calls + 1)), t)
      else
        Return(s.(futures := GiveAll(s.futures, s.queue), queue := [], word := Word(Empty, curr.calls + 1)), t)
    case _ => s
  }

  function PollStep(s: State, t: Tid): State
    requires t < |s.threads| && Sound(s, t)
  {
    match s.threads[t]
    case PLoad(f) => Goto(s, t, PSwap(f, s.word))
    case PSwap(f, curr) => if s.word == curr.(state := Notified) then Consume(s, t, f) else Goto(s, t, PLock(f))
    case PLock(f) => Goto(s, t, PReload(f)).(lock := Some(t))
    case PReload(f) =>
      if s.word.calls != s.futures[f].made then EndPoll(s, t, f, s.futures[f].(phase := Done))
      else Goto(s, t, PEnter(f, s.word))
    case PEnter(f, curr) =>
      if curr.state == Waiting then Enqueue(s, t, f)
      else if s.word != curr then Goto(s, t, PEnter(f, s.word))
      else if curr.state == Empty then Enqueue(s, t, f)
      else Consume(s, t, f)
    case PRelock(f) => Goto(s, t, PCheck(f)).(lock := Some(t))
    case PCheck(f) =>
      var x := s.futures[f];
      if x.notified.None? then EndPoll(s, t, f, x.(waker := true))
      else
        EndPoll(s.(consumed := s.consumed + if x.notified == Some(OneWaiter) then 1 else 0), t, f,
                x.(phase := Done, notified := None, waker := false))
    case _ => s
  }

  /** A dropped future leaves the list; a notification it had not used is given to the next. */
  function DropStep(s: State, t: Tid): State
    requires t < |s.threads| && Sound(s, t)
  {
    match s.threads[t]
    case DLock(f) => Goto(s, t, DRemove(f)).(lock := Some(t))
    case DRemove(f) =>
      var x := s.futures[f];
      var rest := Without(s.queue, f);
      var word := if rest == [] && s.word.state == Waiting then s.word.(state := Empty) else s.word;
      var u := SetFuture(s, f, x.(dropped := true, busy := None, notified := None)).(queue := rest, word := word);
      if x.notified == Some(OneWaiter) then Goto(u, t, NLocked(word)) else Return(u, t)
    case _ => s
  }

  predicate InNotifyOne(pc: Pc) { pc.NLoad? || pc.NSwap? || pc.NLock? || pc.NReload? || pc.NLocked? || pc.NStore? }

  predicate InNotifyWaiters(pc: Pc) { pc.ALock? || pc.ALoad? || pc.AWake? }

  predicate InDrop(pc: Pc) { pc.DLock? || pc.DRemove? }

  function RunStep(s: State, t: Tid): State
    requires t < |s.threads| && Sound(s, t)
  {
    if InNotifyOne(s.threads[t]) then NotifyOneStep(s, t)
    else if InNotifyWaiters(s.threads[t]) then NotifyWaitersStep(s, t)
    else if InDrop(s.threads[t]) then DropStep(s, t)
    else PollStep(s, t)
  }

  function BeginPoll(s: State, t: Tid, f: Fid): State
    requires Free(s, t) && Usable(s, f)
  {
    var x := s.futures[f];
    if x.phase == Done then s
    else Goto(SetFuture(s, f, x.(busy := Some(t))), t, if x.phase == Init then PLoad(f) else PRelock(f))
  }

  function BeginDrop(s: State, t: Tid, f: Fid): State
    requires Free(s, t) && Usable(s, f)
  {
    var x := s.futures[f];
    if x.phase == Queued then Goto(SetFuture(s, f, x.(busy := Some(t))), t, DLock(f))
    else SetFuture(s, f, x.(dropped := true))
  }

  function Next(s: State, a: Action): State
    requires Enabled(s, a)
  {
    match a
    case NewThread => s.(threads := s.threads + [Idle])
    case Create => s.(futures := s.futures + [Future(Init, s.word.calls, None, false, false, None, false)])
    case NotifyOne(t) => Goto(s, t, NLoad).(issued := s.issued + 1)
    case NotifyWaiters(t) => Goto(s, t, ALock)
    case Poll(t, f) => BeginPoll(s, t, f)
    case Drop(t, f) => BeginDrop(s, t, f)
    case Run(t) => if Sound(s, t) then RunStep(s, t) else s.(fault := true)
  }

  ghost predicate IsRun(states: seq<State>, actions: seq<Action>) {
    && |states| == |actions| + 1
    && states[0] == INITIAL
    && forall i {:trigger actions[i]} :: 0 <= i < |actions| ==>
         Enabled(states[i], actions[i]) && states[i + 1] == Next(states[i], actions[i])
  }

  // ----- the invariant -----

  predicate Holds(pc: Pc) {
    pc.NReload? || pc.NLocked? || pc.NStore? || pc.ALoad? || pc.AWake? || pc.PReload? || pc.PEnter? || pc.PCheck? || pc.DRemove?
  }

  predicate LockOk(lock: Option<Tid>, threads: seq<Pc>) {
    && (lock.Some? ==> lock.value < |threads| && Holds(threads[lock.value]))
    && forall t {:trigger threads[t]} :: 0 <= t < |threads| && Holds(threads[t]) ==> lock == Some(t)
  }

  /** What the lock holder loaded is still right up to EMPTY and NOTIFIED. */
  predicate Fresh(curr: Word, word: Word) {
    curr.calls == word.calls && (curr.state == Waiting <==> word.state == Waiting)
  }

  predicate PcOk(pc: Pc, t: Tid, word: Word, futures: seq<Future>) {
    && (pc.NSwap? ==> pc.curr.state != Waiting)
    && (pc.NLocked? ==> Fresh(pc.curr, word))
    && (pc.AWake? ==> Fresh(pc.curr, word))
    && (pc.PEnter? ==> Fresh(pc.curr, word) && pc.f < |futures| && futures[pc.f].made == word.calls)
    && (pc.NStore? ==> pc.actual.calls == word.calls && word.state != Waiting)
    && (FutureOf(pc).Some? ==>
          && FutureOf(pc).value < |futures|
          && futures[FutureOf(pc).value].busy == Some(t)
          && !futures[FutureOf(pc).value].dropped
          && futures[FutureOf(pc).value].phase == (if pc.PRelock? || pc.PCheck? || pc.DLock? || pc.DRemove? then Queued else Init))
  }

  predicate ThreadsOk(threads: seq<Pc>, word: Word, futures: seq<Future>) {
    forall t {:trigger threads[t]} :: 0 <= t < |threads| ==> PcOk(threads[t], t, word, futures)
  }

  /** WAITING holds exactly while somebody is linked; who is linked saw the latest `notify_waiters` call. */
  ghost predicate QueueOk(word: Word, queue: seq<Fid>, futures: seq<Future>) {
    && (word.state == Waiting <==> queue != [])
    && Distinct(queue)
    && forall i {:trigger queue[i]} :: 0 <= i < |queue| ==>
         && queue[i] < |futures|
         && futures[queue[i]].phase == Queued
         && futures[queue[i]].notified == None
         && futures[queue[i]].waker
         && !futures[queue[i]].dropped
         && futures[queue[i]].made == word.calls
  }

  predicate FutureOk(x: Future, queued: bool, calls: nat) {
    && x.made <= calls
    && (x.notified.Some? ==> x.phase == Queued && !x.dropped && !queued && x.woken)
    && (x.phase == Queued && !x.dropped && x.notified.None? ==> queued)
    && (x.notified == Some(AllWaiters) ==> x.made < calls)
  }

  predicate FuturesOk(word: Word, queue: seq<Fid>, futures: seq<Future>) {
    forall f {:trigger futures[f]} :: 0 <= f < |futures| ==> FutureOk(futures[f], f in queue, word.calls)
  }

  function InFlight(threads: seq<Pc>): nat {
    if threads == [] then 0
    else InFlight(threads[..|threads| - 1]) + if InNotifyOne(threads[|threads| - 1]) then 1 else 0
  }

  function Assigned(futures: seq<Future>): nat {
    if futures == [] then 0
    else Assigned(futures[..|futures| - 1]) + if futures[|futures| - 1].notified == Some(OneWaiter) then 1 else 0
  }

  function Stored(word: Word): nat { if word.state == Notified then 1 else 0 }

  /** Every notification is under way, stored, coalesced, given to a future that has not used it, or used. */
  predicate AccountOk(s: State) {
    s.issued == InFlight(s.threads) + Stored(s.word) + s.coalesced + Assigned(s.futures) + s.consumed
  }

  ghost predicate Inv(s: State) {
    && !s.fault
    && LockOk(s.lock, s.threads)
    && ThreadsOk(s.threads, s.word, s.futures)
    && QueueOk(s.word, s.queue, s.futures)
    && FuturesOk(s.word, s.queue, s.futures)
    && AccountOk(s)
  }
}
