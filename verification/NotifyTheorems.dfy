/** What `Notify` promises under every interleaving. */
module NotifyTheorems {
  import opened Wrappers
  import opened LinkedList
  import opened Notify

  // ----- counting -----

  lemma {:induction false} InFlightUpdate(threads: seq<Pc>, t: Tid, pc: Pc)
    requires t < |threads|
    ensures InFlight(threads[t := pc])
         == InFlight(threads) - (if InNotifyOne(threads[t]) then 1 else 0) + if InNotifyOne(pc) then 1 else 0
    ensures InNotifyOne(threads[t]) ==> InFlight(threads) > 0
  {
    var n := |threads| - 1;
    if t == n {
      assert threads[t := pc][..n] == threads[..n];
    } else {
      InFlightUpdate(threads[..n], t, pc);
      assert threads[t := pc][..n] == threads[..n][t := pc];
    }
  }

  lemma {:induction false} AssignedUpdate(futures: seq<Future>, f: Fid, x: Future)
    requires f < |futures|
    ensures Assigned(futures[f := x])
         == Assigned(futures) - (if futures[f].notified == Some(OneWaiter) then 1 else 0) + if x.notified == Some(OneWaiter) then 1 else 0
    ensures futures[f].notified == Some(OneWaiter) ==> Assigned(futures) > 0
  {
    var n := |futures| - 1;
    if f == n {
      assert futures[f := x][..n] == futures[..n];
    } else {
      AssignedUpdate(futures[..n], f, x);
      assert futures[f := x][..n] == futures[..n][f := x];
    }
  }

  lemma {:induction false} AssignedSame(a: seq<Future>, b: seq<Future>)
    requires |a| == |b|
    requires forall f {:trigger a[f]} {:trigger b[f]} :: 0 <= f < |a| ==> (a[f].notified == Some(OneWaiter) <==> b[f].notified == Some(OneWaiter))
    ensures Assigned(a) == Assigned(b)
  {
    if a != [] { AssignedSame(a[..|a| - 1], b[..|b| - 1]); }
  }

  lemma InitialInv()
    ensures Inv(INITIAL)
  {
  }

  lemma RunSound(s: State, t: Tid)
    requires Inv(s) && Enabled(s, Run(t))
    ensures Sound(s, t)
  {
    assert PcOk(s.threads[t], t, s.word, s.futures);
    hide InFlight, Assigned;
  }

  // ----- notify_one -----

  lemma NotifyOneMoves(s: State, t: Tid)
    requires Inv(s) && Enabled(s, Run(t)) && Sound(s, t)
    requires s.threads[t].NLoad? || s.threads[t].NLock? || s.threads[t].NReload?
    ensures Inv(NotifyOneStep(s, t))
  {
    hide InFlight, Assigned, Distinct;
    InFlightUpdate(s.threads, t, NotifyOneStep(s, t).threads[t]);
    assert PcOk(s.threads[t], t, s.word, s.futures);
  }

  lemma NotifyOneSwaps(s: State, t: Tid)
    requires Inv(s) && Enabled(s, Run(t)) && Sound(s, t) && s.threads[t].NSwap?
    ensures Inv(NotifyOneStep(s, t))
  {
    hide InFlight, Assigned, Distinct;
    InFlightUpdate(s.threads, t, NotifyOneStep(s, t).threads[t]);
    assert PcOk(s.threads[t], t, s.word, s.futures);
  }

  lemma NotifyOneStores(s: State, t: Tid)
    requires Inv(s) && Enabled(s, Run(t)) && Sound(s, t)
    requires s.threads[t].NStore? || (s.threads[t].NLocked? && s.threads[t].curr.state != Waiting)
    ensures Inv(NotifyOneStep(s, t))
  {
    hide InFlight, Assigned, Distinct;
    InFlightUpdate(s.threads, t, NotifyOneStep(s, t).threads[t]);
    assert PcOk(s.threads[t], t, s.word, s.futures);
  }

  lemma NotifyOneGives(s: State, t: Tid)
    requires Inv(s) && Enabled(s, Run(t)) && Sound(s, t)
    requires s.threads[t].NLocked? && s.threads[t].curr.state == Waiting
    ensures Inv(NotifyOneStep(s, t))
  {
    hide InFlight, Assigned;
    InFlightUpdate(s.threads, t, Idle);
    var f := s.queue[|s.queue| - 1];
    AssignedUpdate(s.futures, f, Given(s.futures[f], OneWaiter));
    assert PcOk(s.threads[t], t, s.word, s.futures);
  }

  // ----- notify_waiters -----

  lemma NotifyWaitersMoves(s: State, t: Tid)
    requires Inv(s) && Enabled(s, Run(t)) && Sound(s, t) && (s.threads[t].ALock? || s.threads[t].ALoad?)
    ensures Inv(NotifyWaitersStep(s, t))
  {
    hide InFlight, Assigned, Distinct;
    InFlightUpdate(s.threads, t, NotifyWaitersStep(s, t).threads[t]);
  }

  lemma GivenFutures(s: State)
    requires QueueOk(s.word, s.queue, s.futures) && FuturesOk(s.word, s.queue, s.futures)
    ensures FuturesOk(Word(Empty, s.word.calls + 1), [], GiveAll(s.futures, s.queue))
    ensures Assigned(GiveAll(s.futures, s.queue)) == Assigned(s.futures)
  {
    hide Assigned, Distinct, GiveAll;
    AssignedSame(s.futures, GiveAll(s.futures, s.queue));
  }

  lemma GivenThreads(s: State, t: Tid, word: Word)
    requires ThreadsOk(s.threads, s.word, s.futures) && LockOk(s.lock, s.threads) && s.lock == Some(t)
    ensures ThreadsOk(s.threads[t := Idle], word, GiveAll(s.futures, s.queue))
  {
    hide GiveAll;
    var threads := s.threads[t := Idle];
    forall u | 0 <= u < |threads| ensures PcOk(threads[u], u, word, GiveAll(s.futures, s.queue)) {
      assert PcOk(s.threads[u], u, s.word, s.futures);
    }
  }

  lemma NotifyWaitersGives(s: State, t: Tid)
    requires Inv(s) && Enabled(s, Run(t)) && Sound(s, t) && s.threads[t].AWake?
    requires s.threads[t].curr.state == Waiting
    ensures Inv(NotifyWaitersStep(s, t))
  {
    hide InFlight, Assigned, GiveAll, FutureOk;
    InFlightUpdate(s.threads, t, Idle);
    assert PcOk(s.threads[t], t, s.word, s.futures);
    GivenFutures(s);
    GivenThreads(s, t, Word(Empty, s.word.calls + 1));
    hide PcOk;
  }

  lemma NotifyWaitersCounts(s: State, t: Tid)
    requires Inv(s) && Enabled(s, Run(t)) && Sound(s, t) && s.threads[t].AWake?
    requires s.threads[t].curr.state != Waiting
    ensures Inv(NotifyWaitersStep(s, t))
  {
    hide InFlight, Assigned, Distinct;
    InFlightUpdate(s.threads, t, Idle);
    assert PcOk(s.threads[t], t, s.word, s.futures);
    AssignedSame(s.futures, NotifyWaitersStep(s, t).futures);
  }

  // ----- polls -----

  lemma PollMoves(s: State, t: Tid)
    requires Inv(s) && Enabled(s, Run(t)) && Sound(s, t)
    requires s.threads[t].PLoad? || s.threads[t].PLock? || s.threads[t].PRelock?
    ensures Inv(PollStep(s, t))
  {
    hide InFlight, Assigned, Distinct;
    InFlightUpdate(s.threads, t, PollStep(s, t).threads[t]);
    assert PcOk(s.threads[t], t, s.word, s.futures);
  }

  /** A thread that is done with its future leaves what all others know as it is. */
  lemma EndPollThreads(s: State, t: Tid, word: Word, x: Future)
    requires ThreadsOk(s.threads, s.word, s.futures) && t < |s.threads| && FutureOf(s.threads[t]).Some?
    requires word.calls == s.word.calls && (word.state == Waiting <==> s.word.state == Waiting)
    ensures FutureOf(s.threads[t]).value < |s.futures|
    ensures ThreadsOk(s.threads[t := Idle], word, s.futures[FutureOf(s.threads[t]).value := x])
  {
    var threads := s.threads[t := Idle];
    assert PcOk(s.threads[t], t, s.word, s.futures);
    forall u | 0 <= u < |threads| ensures PcOk(threads[u], u, word, s.futures[FutureOf(s.threads[t]).value := x]) {
      assert PcOk(s.threads[u], u, s.word, s.futures);
    }
  }

  lemma PollSwaps(s: State, t: Tid)
    requires Inv(s) && Enabled(s, Run(t)) && Sound(s, t) && s.threads[t].PSwap?
    requires s.word == s.threads[t].curr.(state := Notified)
    ensures Inv(PollStep(s, t))
  {
    hide InFlight, Assigned, Distinct, ThreadsOk;
    EndPollThreads(s, t, s.word.(state := Empty), PollStep(s, t).futures[s.threads[t].f]);
    OwnPcOk(s, t);
    InFlightUpdate(s.threads, t, PollStep(s, t).threads[t]);
    var f := s.threads[t].f;
    AssignedUpdate(s.futures, f, s.futures[f].(phase := Done, busy := None));
  }

  lemma OwnPcOk(s: State, t: Tid)
    requires ThreadsOk(s.threads, s.word, s.futures) && t < |s.threads|
    ensures PcOk(s.threads[t], t, s.word, s.futures)
  {
  }

  lemma PollMisses(s: State, t: Tid)
    requires Inv(s) && Enabled(s, Run(t)) && Sound(s, t) && s.threads[t].PSwap?
    requires s.word != s.threads[t].curr.(state := Notified)
    ensures Inv(PollStep(s, t))
  {
    hide InFlight, Assigned, Distinct;
    InFlightUpdate(s.threads, t, PollStep(s, t).threads[t]);
    assert PcOk(s.threads[t], t, s.word, s.futures);
    var f := s.threads[t].f;
    AssignedUpdate(s.futures, f, s.futures[f].(phase := Done, busy := None));
  }

  lemma PollReloads(s: State, t: Tid)
    requires Inv(s) && Enabled(s, Run(t)) && Sound(s, t) && s.threads[t].PReload?
    requires s.word.calls == s.futures[s.threads[t].f].made
    ensures Inv(PollStep(s, t))
  {
    hide InFlight, Assigned, Distinct;
    InFlightUpdate(s.threads, t, PollStep(s, t).threads[t]);
    assert PcOk(s.threads[t], t, s.word, s.futures);
    var f := s.threads[t].f;
    AssignedUpdate(s.futures, f, s.futures[f].(phase := Done, busy := None));
  }

  lemma PollOvertaken(s: State, t: Tid)
    requires Inv(s) && Enabled(s, Run(t)) && Sound(s, t) && s.threads[t].PReload?
    requires s.word.calls != s.futures[s.threads[t].f].made
    ensures Inv(PollStep(s, t))
  {
    hide InFlight, Assigned, Distinct;
    InFlightUpdate(s.threads, t, PollStep(s, t).threads[t]);
    assert PcOk(s.threads[t], t, s.word, s.futures);
    var f := s.threads[t].f;
    AssignedUpdate(s.futures, f, s.futures[f].(phase := Done, busy := None));
  }

  lemma PollEnqueues(s: State, t: Tid)
    requires Inv(s) && Enabled(s, Run(t)) && Sound(s, t) && s.threads[t].PEnter?
    requires s.threads[t].curr.state == Waiting || (s.threads[t].curr.state == Empty && s.word == s.threads[t].curr)
    ensures Inv(PollStep(s, t))
  {
    hide InFlight, Assigned;
    InFlightUpdate(s.threads, t, PollStep(s, t).threads[t]);
    assert PcOk(s.threads[t], t, s.word, s.futures);
    var f := s.threads[t].f;
    AssignedUpdate(s.futures, f, PollStep(s, t).futures[f]);
  }

  lemma PollRetries(s: State, t: Tid)
    requires Inv(s) && Enabled(s, Run(t)) && Sound(s, t) && s.threads[t].PEnter?
    requires s.threads[t].curr.state != Waiting && s.word != s.threads[t].curr
    ensures Inv(PollStep(s, t))
  {
    hide InFlight, Assigned;
    InFlightUpdate(s.threads, t, PollStep(s, t).threads[t]);
    assert PcOk(s.threads[t], t, s.word, s.futures);
    var f := s.threads[t].f;
    AssignedUpdate(s.futures, f, PollStep(s, t).futures[f]);
  }

  lemma PollConsumes(s: State, t: Tid)
    requires Inv(s) && Enabled(s, Run(t)) && Sound(s, t) && s.threads[t].PEnter?
    requires s.threads[t].curr.state == Notified && s.word == s.threads[t].curr
    ensures Inv(PollStep(s, t))
  {
    hide InFlight, Assigned;
    InFlightUpdate(s.threads, t, PollStep(s, t).threads[t]);
    assert PcOk(s.threads[t], t, s.word, s.futures);
    var f := s.threads[t].f;
    AssignedUpdate(s.futures, f, PollStep(s, t).futures[f]);
  }

  lemma PollChecks(s: State, t: Tid)
    requires Inv(s) && Enabled(s, Run(t)) && Sound(s, t) && s.threads[t].PCheck?
    ensures Inv(PollStep(s, t))
  {
    hide InFlight, Assigned, Distinct, ThreadsOk;
    var f := s.threads[t].f;
    EndPollThreads(s, t, s.word, PollStep(s, t).futures[f]);
    InFlightUpdate(s.threads, t, PollStep(s, t).threads[t]);
    OwnPcOk(s, t);
    AssignedUpdate(s.futures, f, PollStep(s, t).futures[f]);
  }

  // ----- drops -----

  lemma DropLocks(s: State, t: Tid)
    requires Inv(s) && Enabled(s, Run(t)) && Sound(s, t) && s.threads[t].DLock?
    ensures Inv(DropStep(s, t))
  {
    hide InFlight, Assigned, Distinct;
    InFlightUpdate(s.threads, t, DropStep(s, t).threads[t]);
    assert PcOk(s.threads[t], t, s.word, s.futures);
  }

  lemma DropRemovesGiven(s: State, t: Tid)
    requires Inv(s) && Enabled(s, Run(t)) && Sound(s, t) && s.threads[t].DRemove?
    requires s.futures[s.threads[t].f].notified.Some?
    ensures Inv(DropStep(s, t))
  {
    hide InFlight, Assigned, Without, Distinct;
    InFlightUpdate(s.threads, t, DropStep(s, t).threads[t]);
    assert PcOk(s.threads[t], t, s.word, s.futures);
    var f := s.threads[t].f;
    assert FutureOk(s.futures[f], f in s.queue, s.word.calls);
    AssignedUpdate(s.futures, f, DropStep(s, t).futures[f]);
    WithoutAbsent(s.queue, f);
  }

  /** The rest of the list, by members and by positions. */
  lemma RestOfQueue(queue: seq<Fid>, f: Fid)
    requires Distinct(queue)
    ensures Distinct(Without(queue, f)) && f !in Without(queue, f)
    ensures forall i {:trigger Without(queue, f)[i]} :: 0 <= i < |Without(queue, f)| ==> Without(queue, f)[i] in queue
    ensures forall g: Fid :: g in queue && g != f ==> g in Without(queue, f)
    ensures forall g: Fid :: g in Without(queue, f) ==> g in queue
  {
    WithoutMembers(queue, f);
    WithoutDistinct(queue, f);
    var rest := Without(queue, f);
    assert forall i {:trigger rest[i]} :: 0 <= i < |rest| ==> rest[i] in rest;
  }

  lemma DropRemovesQueued(s: State, t: Tid)
    requires Inv(s) && Enabled(s, Run(t)) && Sound(s, t) && s.threads[t].DRemove?
    requires s.futures[s.threads[t].f].notified.None?
    ensures Inv(DropStep(s, t))
  {
    hide InFlight, Assigned, Without, Distinct;
    InFlightUpdate(s.threads, t, DropStep(s, t).threads[t]);
    assert PcOk(s.threads[t], t, s.word, s.futures);
    var f := s.threads[t].f;
    AssignedUpdate(s.futures, f, DropStep(s, t).futures[f]);
    RestOfQueue(s.queue, f);
  }

  // ----- beginnings -----

  lemma NewThreadKeeps(s: State)
    requires Inv(s)
    ensures Inv(Next(s, NewThread))
  {
    hide Assigned, Distinct;
    var t := Next(s, NewThread);
    assert t.threads[..|s.threads|] == s.threads;
  }

  lemma CreateKeeps(s: State)
    requires Inv(s)
    ensures Inv(Next(s, Create))
  {
    hide InFlight, Distinct;
    var t := Next(s, Create);
    assert t.futures[..|s.futures|] == s.futures;
    assert forall f: Fid :: f in s.queue ==> f < |s.futures|;
    forall u | 0 <= u < |t.threads| ensures PcOk(t.threads[u], u, t.word, t.futures) {
      assert PcOk(s.threads[u], u, s.word, s.futures);
    }
  }

  lemma NotifyKeeps(s: State, t: Tid)
    requires Inv(s) && Free(s, t)
    ensures Inv(Next(s, NotifyOne(t))) && Inv(Next(s, NotifyWaiters(t)))
  {
    hide InFlight, Assigned, Distinct;
    InFlightUpdate(s.threads, t, NLoad);
    InFlightUpdate(s.threads, t, ALock);
  }

  lemma BeginPollKeeps(s: State, t: Tid, f: Fid)
    requires Inv(s) && Free(s, t) && Usable(s, f)
    ensures Inv(BeginPoll(s, t, f))
  {
    hide InFlight, Assigned, Distinct;
    var n := BeginPoll(s, t, f);
    InFlightUpdate(s.threads, t, n.threads[t]);
    AssignedUpdate(s.futures, f, n.futures[f]);
    NobodyWorksOn(s, f);
    assert FutureOk(s.futures[f], f in s.queue, s.word.calls);
  }

  lemma NobodyWorksOn(s: State, f: Fid)
    requires Inv(s) && Usable(s, f)
    ensures forall u {:trigger s.threads[u]} :: 0 <= u < |s.threads| ==> FutureOf(s.threads[u]) != Some(f)
  {
    hide InFlight, Assigned, Distinct;
    forall u | 0 <= u < |s.threads| ensures FutureOf(s.threads[u]) != Some(f) {
      assert PcOk(s.threads[u], u, s.word, s.futures);
    }
  }

  lemma BeginDropKeeps(s: State, t: Tid, f: Fid)
    requires Inv(s) && Free(s, t) && Usable(s, f)
    ensures Inv(BeginDrop(s, t, f))
  {
    hide InFlight, Assigned, Distinct;
    var n := BeginDrop(s, t, f);
    InFlightUpdate(s.threads, t, n.threads[t]);
    AssignedUpdate(s.futures, f, n.futures[f]);
    NobodyWorksOn(s, f);
    assert FutureOk(s.futures[f], f in s.queue, s.word.calls);
  }

  // ----- every step, every run -----

  lemma NotifyOneKeeps(s: State, t: Tid)
    requires Inv(s) && Enabled(s, Run(t)) && Sound(s, t) && InNotifyOne(s.threads[t])
    ensures Inv(NotifyOneStep(s, t))
  {
    hide Inv, NotifyOneStep;
    match s.threads[t] {
      case NSwap(_) => NotifyOneSwaps(s, t);
      case NStore(_) => NotifyOneStores(s, t);
      case NLocked(curr) => if curr.state == Waiting { NotifyOneGives(s, t); } else { NotifyOneStores(s, t); }
      case _ => NotifyOneMoves(s, t);
    }
  }

  lemma NotifyWaitersKeeps(s: State, t: Tid)
    requires Inv(s) && Enabled(s, Run(t)) && Sound(s, t) && InNotifyWaiters(s.threads[t])
    ensures Inv(NotifyWaitersStep(s, t))
  {
    hide Inv, NotifyWaitersStep;
    match s.threads[t] {
      case AWake(curr) => if curr.state == Waiting { NotifyWaitersGives(s, t); } else { NotifyWaitersCounts(s, t); }
      case _ => NotifyWaitersMoves(s, t);
    }
  }

  lemma DropKeeps(s: State, t: Tid)
    requires Inv(s) && Enabled(s, Run(t)) && Sound(s, t) && InDrop(s.threads[t])
    ensures Inv(DropStep(s, t))
  {
    hide Inv, DropStep;
    if s.threads[t].DLock? { DropLocks(s, t); }
    else if s.futures[s.threads[t].f].notified.Some? { DropRemovesGiven(s, t); }
    else { DropRemovesQueued(s, t); }
  }

  lemma PollKeeps(s: State, t: Tid)
    requires Inv(s) && Enabled(s, Run(t)) && Sound(s, t)
    requires !InNotifyOne(s.threads[t]) && !InNotifyWaiters(s.threads[t]) && !InDrop(s.threads[t])
    ensures Inv(PollStep(s, t))
  {
    hide Inv, PollStep;
    match s.threads[t] {
      case PSwap(_, curr) => if s.word == curr.(state := Notified) { PollSwaps(s, t); } else { PollMisses(s, t); }
      case PReload(f) => if s.word.calls == s.futures[f].made { PollReloads(s, t); } else { PollOvertaken(s, t); }
      case PEnter(_, curr) =>
        if curr.state != Waiting && s.word != curr { PollRetries(s, t); }
        else if curr.state == Notified { PollConsumes(s, t); }
        else { PollEnqueues(s, t); }
      case PCheck(_) => PollChecks(s, t);
      case _ => PollMoves(s, t);
    }
  }

  lemma StepInv(s: State, a: Action)
    requires Inv(s) && Enabled(s, a)
    ensures Inv(Next(s, a))
    ensures a.Run? ==> Sound(s, a.t)
  {
    hide Inv, NotifyOneStep, NotifyWaitersStep, DropStep, PollStep, BeginPoll, BeginDrop, Sound;
    match a {
      case NewThread => NewThreadKeeps(s);
      case Create => CreateKeeps(s);
      case NotifyOne(t) => NotifyKeeps(s, t);
      case NotifyWaiters(t) => NotifyKeeps(s, t);
      case Poll(t, f) => BeginPollKeeps(s, t, f);
      case Drop(t, f) => BeginDropKeeps(s, t, f);
      case Run(t) =>
        RunSound(s, t);
        if InNotifyOne(s.threads[t]) { NotifyOneKeeps(s, t); }
        else if InNotifyWaiters(s.threads[t]) { NotifyWaitersKeeps(s, t); }
        else if InDrop(s.threads[t]) { DropKeeps(s, t); }
        else { PollKeeps(s, t); }
    }
  }

  lemma {:induction false} RunInv(states: seq<State>, actions: seq<Action>, i: nat)
    requires IsRun(states, actions) && i < |states|
    ensures Inv(states[i])
  {
    hide Inv, Next, Enabled;
    if i == 0 {
      InitialInv();
    } else {
      RunInv(states, actions, i - 1);
      StepInv(states[i - 1], actions[i - 1]);
    }
  }

  // ----- what it means -----

  /**
   Every notification issued is accounted for once: under way, stored as the single permit, coalesced
   with a stored one, given to a future that has not used it yet, or used.
   */
  lemma Accounting(states: seq<State>, actions: seq<Action>, i: nat)
    requires IsRun(states, actions) && i < |states|
    ensures var s := states[i];
      s.issued == InFlight(s.threads) + Stored(s.word) + s.coalesced + Assigned(s.futures) + s.consumed
  {
    RunInv(states, actions, i);
    hide IsRun, InFlight, Assigned;
  }

  /** WAITING holds exactly while somebody is linked, and no assertion of the source ever fails. */
  lemma WaitingExactly(states: seq<State>, actions: seq<Action>, i: nat)
    requires IsRun(states, actions) && i < |states|
    ensures states[i].word.state == Waiting <==> states[i].queue != []
    ensures !states[i].fault
    ensures i < |actions| && actions[i].Run? ==> Enabled(states[i], actions[i]) && Sound(states[i], actions[i].t)
  {
    RunInv(states, actions, i);
    if i < |actions| {
      assert Enabled(states[i], actions[i]);
      StepInv(states[i], actions[i]);
    }
    hide Sound, Enabled, InFlight, Assigned;
  }

  /**
   `notify_waiters` reaches exactly the futures created before it: one that is older than the latest call
   is not linked, and if it was it has been notified and its waker taken; one created since the latest
   call was notified by none.
   */
  lemma NotifyWaitersReaches(states: seq<State>, actions: seq<Action>, i: nat, f: Fid)
    requires IsRun(states, actions) && i < |states| && f < |states[i].futures|
    ensures var s := states[i];
      var x := s.futures[f];
      && x.made <= s.word.calls
      && (x.made < s.word.calls ==> f !in s.queue && (x.phase == Queued && !x.dropped ==> x.notified.Some? && x.woken))
      && (x.made == s.word.calls ==> x.notified != Some(AllWaiters))
  {
    RunInv(states, actions, i);
    assert FutureOk(states[i].futures[f], f in states[i].queue, states[i].word.calls);
    hide IsRun, InFlight, Assigned, Distinct;
  }

  /** The next poll of a future that `notify_waiters` passed before its first poll ends it. */
  lemma OvertakenPollEnds(s: State, t: Tid)
    requires Inv(s) && Enabled(s, Run(t)) && Sound(s, t) && s.threads[t].PReload?
    ensures var f := s.threads[t].f;
      PollStep(s, t).futures[f].phase == Done <==> s.futures[f].made < s.word.calls
  {
    hide InFlight, Assigned, Distinct;
    assert PcOk(s.threads[t], t, s.word, s.futures);
    assert FutureOk(s.futures[s.threads[t].f], s.threads[t].f in s.queue, s.word.calls);
  }

  /** Dropping a future that was given a notification it has not used puts the notification under way again. */
  lemma DropReissues(s: State, t: Tid)
    requires Inv(s) && Enabled(s, Run(t)) && Sound(s, t) && s.threads[t].DRemove?
    ensures var given := s.futures[s.threads[t].f].notified == Some(OneWaiter);
      var n := DropStep(s, t);
      && (given <==> InNotifyOne(n.threads[t]))
      && (given ==> Assigned(n.futures) == Assigned(s.futures) - 1 && InFlight(n.threads) == InFlight(s.threads) + 1)
      && n.consumed == s.consumed
  {
    hide InFlight, Assigned, Distinct, Without;
    InFlightUpdate(s.threads, t, DropStep(s, t).threads[t]);
    AssignedUpdate(s.futures, s.threads[t].f, DropStep(s, t).futures[s.threads[t].f]);
  }
}
