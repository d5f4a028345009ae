/** What each call on `Notify` has done when it returns: under every interleaving, and left alone. */
module NotifyCalls {
  import opened Wrappers
  import opened LinkedList
  import opened Notify
  import opened NotifyTheorems

  // ----- under every interleaving -----

  /** A future that was notified, and that thread `t` is polling. */
  ghost predicate PollingGiven(s: State, t: Tid, f: Fid) {
    && t < |s.threads| && (s.threads[t] == PRelock(f) || s.threads[t] == PCheck(f))
    && f < |s.futures| && s.futures[f].notified.Some?
  }

  /** What thread `u` and all others may do to a future that another thread is working on and that is not linked. */
  lemma OthersLeaveFuture(s: State, a: Action, f: Fid, t: Tid)
    requires Inv(s) && Enabled(s, a) && f < |s.futures| && s.futures[f].busy == Some(t) && f !in s.queue
    requires a != Run(t) && t < |s.threads| && s.threads[t] != Idle
    ensures var n := Next(s, a); f < |n.futures| && n.futures[f] == s.futures[f] && t < |n.threads| && n.threads[t] == s.threads[t]
  {
    hide InFlight, Assigned, Distinct, NotifyOneStep, NotifyWaitersStep, PollStep, DropStep;
    match a {
      case Run(u) =>
        RunSound(s, u);
        OwnPcOk(s, u);
        RunLeaves(s, u, f);
      case _ =>
    }
  }

  lemma NotifyLeaves(s: State, u: Tid, f: Fid)
    requires Inv(s) && Enabled(s, Run(u)) && Sound(s, u) && f < |s.futures| && f !in s.queue
    requires InNotifyOne(s.threads[u])
    ensures var n := NotifyOneStep(s, u); |n.futures| == |s.futures| && n.futures[f] == s.futures[f] && n.threads == s.threads[u := n.threads[u]]
  {
    hide InFlight, Assigned, Distinct, ThreadsOk, FuturesOk;
  }

  lemma NotifyAllLeaves(s: State, u: Tid, f: Fid)
    requires Inv(s) && Enabled(s, Run(u)) && Sound(s, u) && f < |s.futures| && f !in s.queue
    requires InNotifyWaiters(s.threads[u])
    ensures var n := NotifyWaitersStep(s, u); |n.futures| == |s.futures| && n.futures[f] == s.futures[f] && n.threads == s.threads[u := n.threads[u]]
  {
    hide InFlight, Assigned, Distinct, ThreadsOk, FuturesOk;
  }

  lemma PollLeaves(s: State, u: Tid, f: Fid)
    requires u < |s.threads| && Sound(s, u) && f < |s.futures| && FutureOf(s.threads[u]) != Some(f)
    ensures var n := PollStep(s, u); |n.futures| == |s.futures| && n.futures[f] == s.futures[f] && n.threads == s.threads[u := n.threads[u]]
  {
  }

  lemma DropLeaves(s: State, u: Tid, f: Fid)
    requires u < |s.threads| && Sound(s, u) && f < |s.futures| && FutureOf(s.threads[u]) != Some(f)
    ensures var n := DropStep(s, u); |n.futures| == |s.futures| && n.futures[f] == s.futures[f] && n.threads == s.threads[u := n.threads[u]]
  {
  }

  lemma RunLeaves(s: State, u: Tid, f: Fid)
    requires Inv(s) && Enabled(s, Run(u)) && Sound(s, u) && f < |s.futures| && f !in s.queue && FutureOf(s.threads[u]) != Some(f)
    ensures var n := RunStep(s, u); |n.futures| == |s.futures| && n.futures[f] == s.futures[f] && n.threads == s.threads[u := n.threads[u]]
  {
    hide Inv, NotifyOneStep, NotifyWaitersStep, PollStep, DropStep;
    if InNotifyOne(s.threads[u]) { NotifyLeaves(s, u, f); }
    else if InNotifyWaiters(s.threads[u]) { NotifyAllLeaves(s, u, f); }
    else if InDrop(s.threads[u]) { DropLeaves(s, u, f); }
    else { PollLeaves(s, u, f); }
  }

  lemma GivenIsUnlinked(s: State, t: Tid, f: Fid)
    requires Inv(s) && PollingGiven(s, t, f)
    ensures f !in s.queue && s.futures[f].busy == Some(t)
  {
    hide InFlight, Assigned, Distinct;
    OwnPcOk(s, t);
    assert FutureOk(s.futures[f], f in s.queue, s.word.calls);
  }

  /** The thread takes the lock, and then finds the notification. */
  lemma GivenPollSteps(s: State, t: Tid, f: Fid)
    requires Inv(s) && PollingGiven(s, t, f) && Enabled(s, Run(t))
    ensures var n := Next(s, Run(t));
      PollingGiven(n, t, f) || (t < |n.threads| && n.threads[t] == Idle && f < |n.futures| && n.futures[f].phase == Done && n.futures[f].notified == None)
  {
    hide InFlight, Assigned, Distinct;
    RunSound(s, t);
  }

  lemma {:induction false} WhilePollingGiven(states: seq<State>, actions: seq<Action>, i: nat, j: nat, t: Tid, f: Fid)
    requires IsRun(states, actions) && i < j < |states| && actions[i] == Poll(t, f)
    requires f < |states[i].futures| && states[i].futures[f].notified.Some?
    requires forall k | i < k < j :: t < |states[k].threads| && states[k].threads[t] != Idle
    ensures PollingGiven(states[j], t, f)
            || (t < |states[j].threads| && states[j].threads[t] == Idle && f < |states[j].futures| && states[j].futures[f].phase == Done)
  {
    hide Inv, Next, Enabled;
    RunInv(states, actions, i);
    RunInv(states, actions, j - 1);
    if i + 1 == j {
      GivenPollBegins(states[i], t, f);
    } else {
      WhilePollingGiven(states, actions, i, j - 1, t, f);
      var s, a := states[j - 1], actions[j - 1];
      if a == Run(t) {
        GivenPollSteps(s, t, f);
      } else {
        GivenIsUnlinked(s, t, f);
        OthersLeaveFuture(s, a, f, t);
      }
    }
  }

  lemma GivenPollBegins(s: State, t: Tid, f: Fid)
    requires Inv(s) && Enabled(s, Poll(t, f)) && s.futures[f].notified.Some?
    ensures PollingGiven(Next(s, Poll(t, f)), t, f)
  {
    hide InFlight, Assigned, Distinct;
    assert FutureOk(s.futures[f], f in s.queue, s.word.calls);
  }

  /** A future that was notified is done at the end of its next poll. */
  lemma GivenPollReturns(states: seq<State>, actions: seq<Action>, i: nat, j: nat, t: Tid, f: Fid)
    requires IsRun(states, actions) && i < j < |states| && actions[i] == Poll(t, f)
    requires f < |states[i].futures| && states[i].futures[f].notified.Some?
    requires forall k | i < k < j :: t < |states[k].threads| && states[k].threads[t] != Idle
    requires t < |states[j].threads| && states[j].threads[t] == Idle
    ensures f < |states[j].futures| && states[j].futures[f].phase == Done
  {
    WhilePollingGiven(states, actions, i, j, t, f);
    hide IsRun;
  }

  // ----- notify_waiters -----

  lemma CallsGrow(s: State, a: Action)
    requires Inv(s) && Enabled(s, a)
    ensures Next(s, a).word.calls >= s.word.calls
  {
    hide InFlight, Assigned, Distinct, NotifyOneStep, NotifyWaitersStep, PollStep, DropStep;
    match a {
      case Run(u) =>
        RunSound(s, u);
        OwnPcOk(s, u);
        RunCalls(s, u);
      case _ =>
    }
  }

  lemma NotifyCallsKept(s: State, u: Tid)
    requires u < |s.threads| && Sound(s, u) && PcOk(s.threads[u], u, s.word, s.futures)
    ensures NotifyOneStep(s, u).word.calls == s.word.calls
  {
  }

  lemma PollCallsKept(s: State, u: Tid)
    requires u < |s.threads| && Sound(s, u)
    ensures PollStep(s, u).word.calls == s.word.calls && DropStep(s, u).word.calls == s.word.calls
  {
  }

  lemma WaitersCallsGrow(s: State, u: Tid)
    requires u < |s.threads| && Sound(s, u) && PcOk(s.threads[u], u, s.word, s.futures)
    ensures var n := NotifyWaitersStep(s, u);
      && n.word.calls == s.word.calls + (if s.threads[u].AWake? then 1 else 0)
      && (InNotifyWaiters(s.threads[u]) ==> n.threads == s.threads[u := n.threads[u]] && (n.threads[u] == Idle <==> s.threads[u].AWake?)
                                            && (n.threads[u] != Idle ==> InNotifyWaiters(n.threads[u])))
  {
  }

  lemma RunCalls(s: State, u: Tid)
    requires Enabled(s, Run(u)) && Sound(s, u) && PcOk(s.threads[u], u, s.word, s.futures)
    ensures RunStep(s, u).word.calls == s.word.calls + if s.threads[u].AWake? then 1 else 0
  {
    hide NotifyOneStep, NotifyWaitersStep, PollStep, DropStep, PcOk, Sound;
    if InNotifyOne(s.threads[u]) { NotifyCallsKept(s, u); }
    else if InNotifyWaiters(s.threads[u]) { WaitersCallsGrow(s, u); }
    else { PollCallsKept(s, u); }
  }

  lemma NotifyMovesOne(s: State, u: Tid)
    requires u < |s.threads| && Sound(s, u)
    ensures NotifyOneStep(s, u).threads == s.threads[u := NotifyOneStep(s, u).threads[u]]
    ensures NotifyWaitersStep(s, u).threads == s.threads[u := NotifyWaitersStep(s, u).threads[u]]
  {
  }

  lemma PollMovesOne(s: State, u: Tid)
    requires u < |s.threads| && Sound(s, u)
    ensures PollStep(s, u).threads == s.threads[u := PollStep(s, u).threads[u]]
  {
  }

  lemma DropMovesOne(s: State, u: Tid)
    requires u < |s.threads| && Sound(s, u)
    ensures DropStep(s, u).threads == s.threads[u := DropStep(s, u).threads[u]]
  {
  }

  /** A step of one thread leaves the place of every other thread alone. */
  lemma OthersStay(s: State, a: Action, t: Tid)
    requires Inv(s) && Enabled(s, a) && a != Run(t) && t < |s.threads| && s.threads[t] != Idle
    ensures t < |Next(s, a).threads| && Next(s, a).threads[t] == s.threads[t]
  {
    hide Inv, NotifyOneStep, NotifyWaitersStep, PollStep, DropStep, Sound;
    if a.Run? {
      RunSound(s, a.t);
      NotifyMovesOne(s, a.t);
      PollMovesOne(s, a.t);
      DropMovesOne(s, a.t);
    }
  }

  lemma {:induction false} WhileNotifyingAll(states: seq<State>, actions: seq<Action>, i: nat, j: nat, t: Tid)
    requires IsRun(states, actions) && i < j < |states| && actions[i] == NotifyWaiters(t)
    requires forall k | i < k < j :: t < |states[k].threads| && states[k].threads[t] != Idle
    ensures states[j].word.calls >= states[i].word.calls && t < |states[j].threads|
    ensures InNotifyWaiters(states[j].threads[t]) || (states[j].threads[t] == Idle && states[j].word.calls > states[i].word.calls)
  {
    hide Inv, Next, Enabled, NotifyWaitersStep;
    RunInv(states, actions, j - 1);
    var s, a := states[j - 1], actions[j - 1];
    CallsGrow(s, a);
    if i + 1 == j {
      NotifyingBegins(s, t);
    } else {
      WhileNotifyingAll(states, actions, i, j - 1, t);
      if a == Run(t) { NotifyingSteps(s, t); } else { OthersStay(s, a, t); }
    }
  }

  lemma NotifyingBegins(s: State, t: Tid)
    requires Enabled(s, NotifyWaiters(t))
    ensures t < |Next(s, NotifyWaiters(t)).threads| && Next(s, NotifyWaiters(t)).threads[t] == ALock
  {
  }

  lemma NotifyingSteps(s: State, t: Tid)
    requires Inv(s) && Enabled(s, Run(t)) && InNotifyWaiters(s.threads[t])
    ensures var n := Next(s, Run(t));
      && t < |n.threads|
      && (InNotifyWaiters(n.threads[t]) || (n.threads[t] == Idle && n.word.calls == s.word.calls + 1))
  {
    hide InFlight, Assigned, Distinct, NotifyWaitersStep, Sound;
    RunSound(s, t);
    OwnPcOk(s, t);
    WaitersCallsGrow(s, t);
  }

  /**
   A `notify_waiters` that has returned counts: every future made before it is overtaken, so it is not
   linked any more, and if it waited it has been notified and its waker taken.
   */
  lemma NotifyWaitersReturns(states: seq<State>, actions: seq<Action>, i: nat, j: nat, t: Tid, f: Fid)
    requires IsRun(states, actions) && i < j < |states| && actions[i] == NotifyWaiters(t)
    requires forall k | i < k < j :: t < |states[k].threads| && states[k].threads[t] != Idle
    requires t < |states[j].threads| && states[j].threads[t] == Idle
    requires f < |states[i].futures|
    ensures f < |states[j].futures| && f !in states[j].queue && states[j].futures[f].made < states[j].word.calls
    ensures var x := states[j].futures[f]; x.phase == Queued && !x.dropped ==> x.notified.Some? && x.woken
  {
    hide IsRun;
    WhileNotifyingAll(states, actions, i, j, t);
    MadeStays(states, actions, i, j, f);
    NotifyWaitersReaches(states, actions, i, f);
    NotifyWaitersReaches(states, actions, j, f);
  }

  lemma {:induction false} MadeStays(states: seq<State>, actions: seq<Action>, i: nat, j: nat, f: Fid)
    requires IsRun(states, actions) && i <= j < |states| && f < |states[i].futures|
    ensures f < |states[j].futures| && states[j].futures[f].made == states[i].futures[f].made
  {
    hide Inv, Next, Enabled;
    if i < j {
      MadeStays(states, actions, i, j - 1, f);
      RunInv(states, actions, j - 1);
      MadeKept(states[j - 1], actions[j - 1], f);
    }
  }

  lemma MadeKept(s: State, a: Action, f: Fid)
    requires Inv(s) && Enabled(s, a) && f < |s.futures|
    ensures f < |Next(s, a).futures| && Next(s, a).futures[f].made == s.futures[f].made
  {
    hide InFlight, Assigned, Distinct, NotifyOneStep, NotifyWaitersStep, PollStep, DropStep;
    match a {
      case Run(u) =>
        RunSound(s, u);
        RunKeepsMade(s, u, f);
      case _ =>
    }
  }

  lemma NotifyKeepsMade(s: State, u: Tid, f: Fid)
    requires u < |s.threads| && Sound(s, u) && f < |s.futures|
    ensures |NotifyOneStep(s, u).futures| == |s.futures| && NotifyOneStep(s, u).futures[f].made == s.futures[f].made
    ensures |NotifyWaitersStep(s, u).futures| == |s.futures| && NotifyWaitersStep(s, u).futures[f].made == s.futures[f].made
  {
  }

  lemma PollKeepsMade(s: State, u: Tid, f: Fid)
    requires u < |s.threads| && Sound(s, u) && f < |s.futures|
    ensures |PollStep(s, u).futures| == |s.futures| && PollStep(s, u).futures[f].made == s.futures[f].made
    ensures |DropStep(s, u).futures| == |s.futures| && DropStep(s, u).futures[f].made == s.futures[f].made
  {
  }

  lemma RunKeepsMade(s: State, u: Tid, f: Fid)
    requires Enabled(s, Run(u)) && Sound(s, u) && f < |s.futures|
    ensures |RunStep(s, u).futures| == |s.futures| && RunStep(s, u).futures[f].made == s.futures[f].made
  {
    hide NotifyOneStep, NotifyWaitersStep, PollStep, DropStep, Sound;
    NotifyKeepsMade(s, u, f);
    PollKeepsMade(s, u, f);
  }

  // ----- left alone -----

  /** Thread `t` runs on while nobody else does, for `k` steps at most. */
  ghost function Alone(s: State, t: Tid, k: nat): State
    decreases k
  {
    if k > 0 && Enabled(s, Run(t)) then Alone(Next(s, Run(t)), t, k - 1) else s
  }

  lemma AloneStep(s: State, t: Tid, k: nat)
    requires Inv(s) && Enabled(s, Run(t)) && k > 0
    ensures Sound(s, t) && Inv(RunStep(s, t)) && Alone(s, t, k) == Alone(RunStep(s, t), t, k - 1)
  {
    StepInv(s, Run(t));
    hide Inv, Sound, RunStep;
  }

  lemma AloneEnds(s: State, t: Tid, k: nat)
    requires t < |s.threads| && s.threads[t] == Idle
    ensures Alone(s, t, k) == s
  {
  }

  lemma OldestWaits(s: State)
    requires Inv(s)
    ensures s.queue != [] <==> s.word.state == Waiting
    ensures s.queue != [] ==>
      var f := s.queue[|s.queue| - 1]; f < |s.futures| && s.futures[f].notified == None && s.futures[f].waker
  {
    hide InFlight, Assigned, Distinct;
  }

  /** Nobody waits: the permit is stored, or coalesces with the one stored before. */
  lemma StoresAlone(s: State, t: Tid)
    requires Inv(s) && Enabled(s, NotifyOne(t)) && s.lock == None && s.queue == []
    ensures var n := Alone(Next(s, NotifyOne(t)), t, 5);
      && n.threads == s.threads && n.lock == None && n.futures == s.futures && n.queue == []
      && n.word == s.word.(state := Notified) && n.issued == s.issued + 1
  {
    OldestWaits(s);
    StepInv(s, NotifyOne(t));
    hide Inv, Alone;
    var s0 := Next(s, NotifyOne(t));
    AloneStep(s0, t, 5);
    var s1 := RunStep(s0, t);
    assert s1 == Goto(s0, t, NSwap(s.word));
    AloneStep(s1, t, 4);
    var s2 := RunStep(s1, t);
    assert s2 == Return(Store(s1), t);
    assert s2.threads == s.threads;
    AloneEnds(s2, t, 3);
  }

  lemma NotifyOneBegins(s: State, t: Tid)
    requires Inv(s) && Enabled(s, NotifyOne(t))
    ensures Next(s, NotifyOne(t)) == s.(threads := s.threads[t := NLoad], issued := s.issued + 1) && Inv(Next(s, NotifyOne(t)))
  {
    StepInv(s, NotifyOne(t));
    hide Inv;
  }

  lemma LoadsAlone(s: State, t: Tid)
    requires Inv(s) && t < |s.threads| && s.threads[t] == NLoad && s.lock == None && s.word.state == Waiting
    ensures var n := s.(threads := s.threads[t := NReload], lock := Some(t));
      Inv(n) && Alone(s, t, 5) == Alone(n, t, 3)
  {
    hide Inv, Alone, Sound, Next;
    AloneStep(s, t, 5);
    var s1 := RunStep(s, t);
    assert s1 == Goto(s, t, NLock);
    AloneStep(s1, t, 4);
    var s2 := RunStep(s1, t);
    assert s2 == Goto(s1, t, NReload).(lock := Some(t));
    assert s2 == s.(threads := s.threads[t := NReload], lock := Some(t));
  }

  lemma LocksAlone(s: State, t: Tid)
    requires Inv(s) && Enabled(s, NotifyOne(t)) && s.lock == None && s.word.state == Waiting
    ensures var n := s.(threads := s.threads[t := NLocked(s.word)], lock := Some(t), issued := s.issued + 1);
      Inv(n) && Sound(n, t) && Alone(Next(s, NotifyOne(t)), t, 5) == Alone(RunStep(n, t), t, 1)
  {
    hide Inv, Alone, Sound, Next;
    NotifyOneBegins(s, t);
    var s0 := Next(s, NotifyOne(t));
    LoadsAlone(s0, t);
    var s2 := s0.(threads := s0.threads[t := NReload], lock := Some(t));
    AloneStep(s2, t, 3);
    var s3 := RunStep(s2, t);
    assert s3 == s.(threads := s.threads[t := NLocked(s.word)], lock := Some(t), issued := s.issued + 1);
    AloneStep(s3, t, 2);
  }

  /** Somebody waits: the oldest waiter is unlinked, notified and woken. */
  lemma GivesAlone(s: State, t: Tid)
    requires Inv(s) && Enabled(s, NotifyOne(t)) && s.lock == None && s.queue != []
    ensures var (n, f) := (Alone(Next(s, NotifyOne(t)), t, 5), s.queue[|s.queue| - 1]);
      && n.threads == s.threads && n.lock == None && |n.futures| == |s.futures|
      && f < |s.futures| && n.queue == s.queue[..|s.queue| - 1]
      && n.futures[f].notified == Some(OneWaiter) && n.futures[f].woken
      && (forall g | 0 <= g < |s.futures| && g != f :: n.futures[g] == s.futures[g])
  {
    hide Inv, Alone;
    OldestWaits(s);
    LocksAlone(s, t);
    var s3 := s.(threads := s.threads[t := NLocked(s.word)], lock := Some(t), issued := s.issued + 1);
    var s4 := RunStep(s3, t);
    assert s4 == Return(NotifyOldest(s3), t);
    assert s4.threads == s.threads;
    AloneEnds(s4, t, 1);
  }

  /** With nobody else about, `notify_one` wakes the oldest waiter, or stores its permit if there is none. */
  lemma NotifyOneAlone(s: State, t: Tid)
    requires Inv(s) && Enabled(s, NotifyOne(t)) && s.lock == None
    ensures var n := Alone(Next(s, NotifyOne(t)), t, 5);
      && n.threads == s.threads && n.lock == None && |n.futures| == |s.futures|
      && (s.queue == [] ==> n.word == s.word.(state := Notified) && n.queue == [] && n.futures == s.futures)
      && (s.queue != [] ==>
            var f := s.queue[|s.queue| - 1];
            && f < |s.futures| && n.queue == s.queue[..|s.queue| - 1]
            && n.futures[f].notified == Some(OneWaiter) && n.futures[f].woken
            && (forall g | 0 <= g < |s.futures| && g != f :: n.futures[g] == s.futures[g]))
  {
    if s.queue == [] { StoresAlone(s, t); } else { GivesAlone(s, t); }
    hide Inv, Alone, Next;
  }

  // ----- a poll left alone -----

  lemma FirstPollBegins(s: State, t: Tid, f: Fid)
    requires Inv(s) && Enabled(s, Poll(t, f)) && s.futures[f].phase == Init
    ensures var n := s.(threads := s.threads[t := PLoad(f)], futures := s.futures[f := s.futures[f].(busy := Some(t))]);
      Next(s, Poll(t, f)) == n && Inv(n)
  {
    StepInv(s, Poll(t, f));
    hide Inv;
  }

  lemma PollReaches(s: State, t: Tid, f: Fid)
    requires Inv(s) && Enabled(s, Poll(t, f)) && s.futures[f].phase == Init
    ensures var n := s.(threads := s.threads[t := PSwap(f, s.word)], futures := s.futures[f := s.futures[f].(busy := Some(t))]);
      Inv(n) && Sound(n, t) && Alone(Next(s, Poll(t, f)), t, 6) == Alone(RunStep(n, t), t, 4) && Inv(RunStep(n, t))
  {
    hide Inv, Alone, Sound, Next;
    FirstPollBegins(s, t, f);
    var s0 := Next(s, Poll(t, f));
    AloneStep(s0, t, 6);
    var s1 := RunStep(s0, t);
    assert s1 == s.(threads := s.threads[t := PSwap(f, s.word)], futures := s.futures[f := s.futures[f].(busy := Some(t))]);
    AloneStep(s1, t, 5);
  }

  /** A first poll that finds the permit stored takes it. */
  lemma PollTakesPermit(s: State, t: Tid, f: Fid)
    requires Inv(s) && Enabled(s, Poll(t, f)) && s.futures[f].phase == Init && s.word.state == Notified
    ensures var n := Alone(Next(s, Poll(t, f)), t, 6);
      && n.threads == s.threads && n.word == s.word.(state := Empty) && n.queue == s.queue && n.consumed == s.consumed + 1
      && |n.futures| == |s.futures| && n.futures[f].phase == Done
  {
    hide Inv, Alone, Next;
    PollReaches(s, t, f);
    var s1 := s.(threads := s.threads[t := PSwap(f, s.word)], futures := s.futures[f := s.futures[f].(busy := Some(t))]);
    var s2 := RunStep(s1, t);
    assert s2 == Consume(s1, t, f);
    assert s2.threads == s.threads;
    AloneEnds(s2, t, 4);
  }

  lemma PollLocks(s: State, t: Tid, f: Fid)
    requires Inv(s) && Enabled(s, Poll(t, f)) && s.futures[f].phase == Init && s.word.state != Notified && s.lock == None
    ensures var n := s.(threads := s.threads[t := PReload(f)], futures := s.futures[f := s.futures[f].(busy := Some(t))], lock := Some(t));
      Inv(n) && Sound(n, t) && Alone(Next(s, Poll(t, f)), t, 6) == Alone(RunStep(n, t), t, 2) && Inv(RunStep(n, t))
  {
    hide Inv, Alone, Next, Sound;
    PollReaches(s, t, f);
    var s1 := s.(threads := s.threads[t := PSwap(f, s.word)], futures := s.futures[f := s.futures[f].(busy := Some(t))]);
    var s2 := RunStep(s1, t);
    assert s2 == Goto(s1, t, PLock(f));
    AloneStep(s2, t, 4);
    var s3 := RunStep(s2, t);
    assert s3 == s.(threads := s.threads[t := PReload(f)], futures := s.futures[f := s.futures[f].(busy := Some(t))], lock := Some(t));
    AloneStep(s3, t, 3);
  }

  /** A first poll without a permit is done if `notify_waiters` was called since the future was made, and otherwise links it. */
  lemma PollWithoutPermit(s: State, t: Tid, f: Fid)
    requires Inv(s) && Enabled(s, Poll(t, f)) && s.futures[f].phase == Init && s.word.state != Notified && s.lock == None
    ensures var n := Alone(Next(s, Poll(t, f)), t, 6);
      && n.threads == s.threads && n.lock == None && n.consumed == s.consumed && |n.futures| == |s.futures|
      && (s.futures[f].made < s.word.calls ==> n.futures[f].phase == Done && n.queue == s.queue && n.word == s.word)
      && (s.futures[f].made == s.word.calls ==>
            && n.futures[f].phase == Queued && n.futures[f].waker && n.futures[f].notified == s.futures[f].notified
            && n.queue == [f] + s.queue && n.word == s.word.(state := Waiting))
  {
    hide Inv, Alone, Next;
    MadeBefore(s, f);
    PollLocks(s, t, f);
    var s3 := s.(threads := s.threads[t := PReload(f)], futures := s.futures[f := s.futures[f].(busy := Some(t))], lock := Some(t));
    var s4 := RunStep(s3, t);
    if s.futures[f].made < s.word.calls {
      assert s4.threads == s.threads;
      AloneEnds(s4, t, 2);
    } else {
      assert s4 == Goto(s3, t, PEnter(f, s.word));
      AloneStep(s4, t, 2);
      var s5 := RunStep(s4, t);
      assert s5 == Enqueue(s4, t, f);
      assert s5.threads == s.threads;
      AloneEnds(s5, t, 1);
    }
  }

  lemma MadeBefore(s: State, f: Fid)
    requires Inv(s) && f < |s.futures|
    ensures s.futures[f].made <= s.word.calls
  {
    hide InFlight, Assigned, Distinct;
    assert FutureOk(s.futures[f], f in s.queue, s.word.calls);
  }
}
