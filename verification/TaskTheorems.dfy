/**
 What holds over every run of one task: no assertion of the source fails, no freed memory is touched,
 the output moves exactly once, no wake is lost and no abort is forgotten.
 */
module TaskTheorems {
  import opened TaskState
  import opened TaskLifecycle

  /** If the step can be taken at all, it meets its assertions, keeps the invariant and undoes nothing. */
  predicate Keeps(s: Task, a: Action) {
    Enabled(s, a) ==> Sound(s, a) && Inv(Apply(s, a)) && Evolves(s, a, Apply(s, a))
  }

  /** Whoever holds the last reference knows the task completed and its list entry and join handle are gone. */
  lemma LastReference(s: Task)
    requires Inv(s) && s.snap.refs == 1 && s.notified + s.wakers + s.dropping > 0
    ensures s.owned == Given && s.join == Gone && s.run == Over && s.snap.complete
  {
    hide NotifiedOk, JoinOk, OutputOk;
  }

  // ----- the runtime: spawn, poll, completion, shutdown -----

  lemma SpawnKeeps(s: Task)
    requires Inv(s)
    ensures Keeps(s, Close) && Keeps(s, Bind) && Keeps(s, PopForShutdown)
  {
  }

  lemma ShutdownIdleKeeps(s: Task)
    requires Inv(s) && s.snap.Idle()
    ensures Keeps(s, Shutdown)
  {
    hide JoinRefs;
  }

  lemma ShutdownBusyKeeps(s: Task)
    requires Inv(s) && !s.snap.Idle()
    ensures Keeps(s, Shutdown)
  {
    hide JoinRefs;
  }

  lemma StartIdleKeeps(s: Task)
    requires Inv(s) && s.snap.Idle()
    ensures Keeps(s, StartPoll)
  {
    hide OwnedRefs, JoinRefs;
  }

  lemma StartBusyLastKeeps(s: Task)
    requires Inv(s) && !s.snap.Idle() && s.snap.refs == 1 && s.notified > 0
    ensures Keeps(s, StartPoll)
  {
    LastReference(s);
    hide OwnedRefs, JoinRefs;
  }

  lemma StartBusyKeeps(s: Task)
    requires Inv(s) && !s.snap.Idle() && (s.snap.refs != 1 || s.notified == 0)
    ensures Keeps(s, StartPoll)
  {
    hide OwnedRefs, JoinRefs, RunRefs;
  }

  lemma IdleKeeps(s: Task)
    requires Inv(s) && !s.snap.cancelled && !s.snap.notified
    ensures Keeps(s, PollPending)
  {
  }

  lemma YieldKeeps(s: Task)
    requires Inv(s) && !s.snap.cancelled && s.snap.notified
    ensures Keeps(s, PollPending)
  {
    hide OwnedRefs, JoinRefs;
  }

  lemma IdleCancelledKeeps(s: Task)
    requires Inv(s) && s.snap.cancelled
    ensures Keeps(s, PollPending)
  {
    hide OwnedRefs, JoinRefs;
  }

  lemma PollReadyKeeps(s: Task)
    requires Inv(s)
    ensures Keeps(s, PollReady)
  {
    hide OwnedRefs, JoinRefs;
  }

  lemma CancelKeeps(s: Task)
    requires Inv(s)
    ensures Keeps(s, Cancel)
  {
    hide OwnedRefs, JoinRefs;
  }

  lemma CompleteKeeps(s: Task)
    requires Inv(s)
    ensures Keeps(s, Complete)
  {
    hide OwnedRefs, JoinRefs;
  }

  lemma NotifyJoinKeeps(s: Task)
    requires Inv(s)
    ensures Keeps(s, NotifyJoin)
  {
    hide OwnedRefs, JoinRefs;
  }

  lemma ReleaseListedKeeps(s: Task)
    requires Inv(s) && s.owned == Listed
    ensures Keeps(s, Release)
  {
  }

  lemma ReleaseUnlistedKeeps(s: Task)
    requires Inv(s) && s.owned != Listed
    ensures Keeps(s, Release)
  {
  }

  lemma TerminateOneKeeps(s: Task)
    requires Inv(s) && s.run == Terminating(1)
    ensures Keeps(s, Terminate)
  {
    hide JoinRefs;
  }

  lemma TerminateTwoKeeps(s: Task)
    requires Inv(s) && s.run == Terminating(2)
    ensures Keeps(s, Terminate)
  {
    hide JoinRefs;
  }

  // ----- wakers -----

  /** NOTIFIED and the count say nothing about the lifecycle and the join waker. */
  lemma MarkAside(s: Task, refs: nat)
    ensures var snap := s.snap.(notified := true, refs := refs);
      && LifecycleOk(snap, s.owned, s.run) == LifecycleOk(s.snap, s.owned, s.run)
      && JoinOk(snap, s.join, s.cell, s.run, s.joinWoken, s.phase) == JoinOk(s.snap, s.join, s.cell, s.run, s.joinWoken, s.phase)
  {
  }

  lemma WakeRunningKeeps(s: Task)
    requires Inv(s) && s.snap.running
    ensures Keeps(s, WakeByVal)
  {
    hide OwnedRefs, JoinRefs, JoinOk, LifecycleOk;
    RunningHolds(s);
    if s.snap.refs > 0 { MarkAside(s, s.snap.refs - 1); }
  }

  lemma RunningHolds(s: Task)
    requires Inv(s) && s.snap.running
    ensures s.snap.refs > s.wakers && s.owned != InHand && !s.snap.complete
  {
    hide JoinOk, OutputOk, OwnedRefs, JoinRefs;
  }

  lemma WakeSettledLastKeeps(s: Task)
    requires Inv(s) && !s.snap.running && (s.snap.complete || s.snap.notified) && s.snap.refs == 1 && s.wakers > 0
    ensures Keeps(s, WakeByVal)
  {
    LastReference(s);
    hide OwnedRefs, JoinRefs;
  }

  lemma WakeSettledKeeps(s: Task)
    requires Inv(s) && !s.snap.running && (s.snap.complete || s.snap.notified) && (s.snap.refs != 1 || s.wakers == 0)
    ensures Keeps(s, WakeByVal)
  {
    hide OwnedRefs, JoinRefs, RunRefs;
  }

  lemma WakeIdleKeeps(s: Task)
    requires Inv(s) && s.snap.Idle() && !s.snap.notified
    ensures Keeps(s, WakeByVal)
  {
    hide OwnedRefs, JoinRefs, RunRefs;
  }

  lemma WakeByRefKeeps(s: Task)
    requires Inv(s)
    ensures Keeps(s, WakeByRef)
  {
    hide OwnedRefs, JoinRefs;
  }

  lemma CloneWakerKeeps(s: Task)
    requires Inv(s)
    ensures Keeps(s, CloneWaker)
  {
    hide OwnedRefs, JoinRefs;
  }

  lemma DropWakerLastKeeps(s: Task)
    requires Inv(s) && s.snap.refs == 1 && s.wakers > 0
    ensures Keeps(s, DropWaker)
  {
    LastReference(s);
    hide OwnedRefs, JoinRefs;
  }

  /** The count says nothing about the lifecycle and the join waker. */
  lemma RefsAside(s: Task, refs: int)
    ensures refs >= 0 ==>
      var snap := s.snap.(refs := refs);
      && LifecycleOk(snap, s.owned, s.run) == LifecycleOk(s.snap, s.owned, s.run)
      && JoinOk(snap, s.join, s.cell, s.run, s.joinWoken, s.phase) == JoinOk(s.snap, s.join, s.cell, s.run, s.joinWoken, s.phase)
  {
  }

  lemma DropWakerKeeps(s: Task)
    requires Inv(s) && (s.snap.refs != 1 || s.wakers == 0)
    ensures Keeps(s, DropWaker)
  {
    hide OwnedRefs, JoinRefs, RunRefs, LifecycleOk, JoinOk;
    RefsAside(s, s.snap.refs - 1);
  }

  // ----- the join handle -----

  lemma AbortKeeps(s: Task)
    requires Inv(s)
    ensures Keeps(s, Abort)
  {
    hide OwnedRefs, RunRefs;
  }

  lemma JoinLoadKeeps(s: Task)
    requires Inv(s)
    ensures Keeps(s, JoinLoad)
  {
    hide OwnedRefs, RunRefs;
  }

  lemma JoinCompareKeeps(s: Task, same: bool)
    requires Inv(s)
    ensures Keeps(s, JoinCompare(same))
  {
    hide OwnedRefs, RunRefs;
  }

  lemma JoinUnsetKeeps(s: Task)
    requires Inv(s)
    ensures Keeps(s, JoinUnset)
  {
    hide OwnedRefs, RunRefs;
  }

  lemma JoinWriteKeeps(s: Task)
    requires Inv(s)
    ensures Keeps(s, JoinWrite)
  {
    hide OwnedRefs, RunRefs;
  }

  lemma JoinSetKeeps(s: Task)
    requires Inv(s)
    ensures Keeps(s, JoinSet)
  {
    hide OwnedRefs, RunRefs;
  }

  lemma JoinClearKeeps(s: Task)
    requires Inv(s)
    ensures Keeps(s, JoinClear)
  {
    hide OwnedRefs, RunRefs;
  }

  lemma JoinTakeKeeps(s: Task)
    requires Inv(s)
    ensures Keeps(s, JoinTake)
  {
    hide OwnedRefs, RunRefs;
  }

  lemma JoinDropFastKeeps(s: Task)
    requires Inv(s) && s.snap == INITIAL
    ensures Keeps(s, JoinDrop(false))
  {
    hide OwnedRefs, RunRefs;
  }

  lemma JoinDropKeeps(s: Task, spurious: bool)
    requires Inv(s) && (s.snap != INITIAL || spurious)
    ensures Keeps(s, JoinDrop(spurious))
  {
    hide OwnedRefs, RunRefs;
  }

  lemma JoinUnsetInterestKeeps(s: Task)
    requires Inv(s) && !s.snap.complete
    ensures Keeps(s, JoinUnsetInterest)
  {
    hide OwnedRefs, RunRefs;
  }

  lemma JoinLateDropKeeps(s: Task)
    requires Inv(s) && s.snap.complete
    ensures Keeps(s, JoinUnsetInterest)
  {
    hide OwnedRefs, RunRefs;
  }

  lemma JoinDropOutputKeeps(s: Task)
    requires Inv(s)
    ensures Keeps(s, JoinDropOutput)
  {
    hide OwnedRefs, RunRefs;
  }

  // ----- dropping references -----

  lemma DropNotifiedLastKeeps(s: Task)
    requires Inv(s) && s.snap.refs == 1 && s.notified > 0
    ensures Keeps(s, DropNotified)
  {
    LastReference(s);
    hide OwnedRefs, JoinRefs;
  }

  lemma DropNotifiedKeeps(s: Task)
    requires Inv(s) && (s.snap.refs != 1 || s.notified == 0)
    ensures Keeps(s, DropNotified)
  {
    hide OwnedRefs, JoinRefs, RunRefs;
  }

  lemma DropLastKeeps(s: Task)
    requires Inv(s) && s.snap.refs == 1 && s.dropping > 0
    ensures Keeps(s, DropReference)
  {
    LastReference(s);
    hide OwnedRefs, JoinRefs;
  }

  lemma DropReferenceKeeps(s: Task)
    requires Inv(s) && (s.snap.refs != 1 || s.dropping == 0)
    ensures Keeps(s, DropReference)
  {
    hide OwnedRefs, JoinRefs, RunRefs, LifecycleOk, JoinOk;
    RefsAside(s, s.snap.refs - 1);
  }

  lemma DeallocateKeeps(s: Task)
    requires Inv(s)
    ensures Keeps(s, Deallocate)
  {
    assert s.phase == Condemned ==> s.owned == Given && s.join == Gone && s.snap.complete;
    hide JoinRefs, OwnedRefs;
  }

  // ----- every step, every run -----

  lemma SpawnedInv()
    ensures Inv(SPAWNED)
  {
  }

  lemma RuntimeStepKeeps(s: Task, a: Action)
    requires Inv(s)
    requires a.Close? || a.Bind? || a.PopForShutdown? || a.Shutdown? || a.StartPoll? || a.PollPending? || a.PollReady?
             || a.Cancel? || a.Complete? || a.NotifyJoin? || a.Release? || (a.Terminate? && Enabled(s, a))
    ensures Keeps(s, a)
  {
    match a {
      case Close => SpawnKeeps(s);
      case Bind => SpawnKeeps(s);
      case PopForShutdown => SpawnKeeps(s);
      case Shutdown => if s.snap.Idle() { ShutdownIdleKeeps(s); } else { ShutdownBusyKeeps(s); }
      case StartPoll =>
        if s.snap.Idle() { StartIdleKeeps(s); }
        else if s.snap.refs == 1 && s.notified > 0 { StartBusyLastKeeps(s); }
        else { StartBusyKeeps(s); }
      case PollPending =>
        if s.snap.cancelled { IdleCancelledKeeps(s); }
        else if s.snap.notified { YieldKeeps(s); }
        else { IdleKeeps(s); }
      case PollReady => PollReadyKeeps(s);
      case Cancel => CancelKeeps(s);
      case Complete => CompleteKeeps(s);
      case NotifyJoin => NotifyJoinKeeps(s);
      case Release => if s.owned == Listed { ReleaseListedKeeps(s); } else { ReleaseUnlistedKeeps(s); }
      case Terminate =>
        assert s.run == Terminating(1) || s.run == Terminating(2);
        if s.run == Terminating(1) { TerminateOneKeeps(s); } else { TerminateTwoKeeps(s); }
    }
    hide Keeps, CountOk, NotifiedOk, JoinOk, OutputOk;
  }

  lemma WakerStepKeeps(s: Task, a: Action)
    requires Inv(s)
    requires a.CloneWaker? || a.DropWaker? || a.WakeByVal? || a.WakeByRef? || a.DropNotified? || a.DropReference?
             || a.Deallocate?
    ensures Keeps(s, a)
  {
    match a {
      case CloneWaker => CloneWakerKeeps(s);
      case DropWaker => if s.snap.refs == 1 && s.wakers > 0 { DropWakerLastKeeps(s); } else { DropWakerKeeps(s); }
      case WakeByVal =>
        if s.snap.running { WakeRunningKeeps(s); }
        else if s.snap.complete || s.snap.notified {
          if s.snap.refs == 1 && s.wakers > 0 { WakeSettledLastKeeps(s); } else { WakeSettledKeeps(s); }
        }
        else { WakeIdleKeeps(s); }
      case WakeByRef => WakeByRefKeeps(s);
      case DropNotified => if s.snap.refs == 1 && s.notified > 0 { DropNotifiedLastKeeps(s); } else { DropNotifiedKeeps(s); }
      case DropReference => if s.snap.refs == 1 && s.dropping > 0 { DropLastKeeps(s); } else { DropReferenceKeeps(s); }
      case Deallocate => DeallocateKeeps(s);
    }
    hide Keeps, Inv;
  }

  lemma JoinStepKeeps(s: Task, a: Action)
    requires Inv(s)
    requires a.Abort? || a.JoinLoad? || a.JoinCompare? || a.JoinUnset? || a.JoinWrite? || a.JoinSet? || a.JoinClear?
             || a.JoinTake? || a.JoinDrop? || a.JoinUnsetInterest? || a.JoinDropOutput?
    ensures Keeps(s, a)
  {
    match a {
      case Abort => AbortKeeps(s);
      case JoinLoad => JoinLoadKeeps(s);
      case JoinCompare(same) => JoinCompareKeeps(s, same);
      case JoinUnset => JoinUnsetKeeps(s);
      case JoinWrite => JoinWriteKeeps(s);
      case JoinSet => JoinSetKeeps(s);
      case JoinClear => JoinClearKeeps(s);
      case JoinTake => JoinTakeKeeps(s);
      case JoinDrop(spurious) => if s.snap == INITIAL && !spurious { JoinDropFastKeeps(s); } else { JoinDropKeeps(s, spurious); }
      case JoinUnsetInterest => if s.snap.complete { JoinLateDropKeeps(s); } else { JoinUnsetInterestKeeps(s); }
      case JoinDropOutput => JoinDropOutputKeeps(s);
    }
    hide Keeps, Inv;
  }

  lemma StepInv(s: Task, a: Action)
    requires Inv(s) && Enabled(s, a)
    ensures Sound(s, a) && Next(s, a) == Apply(s, a) && Inv(Next(s, a)) && Evolves(s, a, Next(s, a))
  {
    if a.Abort? || a.JoinLoad? || a.JoinCompare? || a.JoinUnset? || a.JoinWrite? || a.JoinSet? || a.JoinClear?
       || a.JoinTake? || a.JoinDrop? || a.JoinUnsetInterest? || a.JoinDropOutput? {
      JoinStepKeeps(s, a);
    } else if a.CloneWaker? || a.DropWaker? || a.WakeByVal? || a.WakeByRef? || a.DropNotified? || a.DropReference?
              || a.Deallocate? {
      WakerStepKeeps(s, a);
    } else {
      RuntimeStepKeeps(s, a);
    }
    hide Inv, Sound, Enabled, Apply, Evolves;
  }

  lemma {:induction false} RunInv(states: seq<Task>, actions: seq<Action>, i: nat)
    requires IsRun(states, actions) && i < |states|
    ensures Inv(states[i])
  {
    if i == 0 {
      SpawnedInv();
    } else {
      RunInv(states, actions, i - 1);
      StepInv(states[i - 1], actions[i - 1]);
    }
    hide Inv, Sound, Enabled, Apply, Evolves;
  }

  /** No run fails an assertion, races on the stage or the waker cell, or touches released memory. */
  lemma RunsAreSound(states: seq<Task>, actions: seq<Action>, i: nat)
    requires IsRun(states, actions) && i < |actions|
    ensures Sound(states[i], actions[i]) && !states[i + 1].fault
  {
    RunInv(states, actions, i);
    StepInv(states[i], actions[i]);
    hide Sound, Enabled, Apply, CountOk, NotifiedOk, JoinOk, OutputOk;
  }

  // ----- memory and the output -----

  /**
   The packed count is the number of live handles.  The task is released exactly when the last of them
   goes, which happens only after it completed: an
   idle task is kept alive by the owned-task list.
   */
  lemma ReleasedWithLastHandle(states: seq<Task>, actions: seq<Action>, i: nat)
    requires IsRun(states, actions) && i < |states|
    ensures states[i].snap.refs == Handles(states[i])
    ensures states[i].phase != Live <==> Handles(states[i]) == 0
    ensures states[i].phase != Live ==> states[i].snap.complete && states[i].run == Over && states[i].join == Gone
  {
    RunInv(states, actions, i);
    hide IsRun, NotifiedOk, JoinOk, OutputOk;
  }

  /** Deallocation is the only thing left to do once the count is zero, and then nothing is left. */
  lemma OnlyDeallocationRemains(s: Task, a: Action)
    requires Inv(s) && Enabled(s, a) && s.phase != Live && a != Close
    ensures a == Deallocate && s.phase == Condemned && Apply(s, a).phase == Freed
  {
    hide NotifiedOk, JoinOk, OutputOk;
  }

  /** The memory is freed at most once, and it is free exactly when that happened. */
  lemma FreedOnce(states: seq<Task>, actions: seq<Action>, i: nat)
    requires IsRun(states, actions) && i < |states|
    ensures states[i].frees <= 1
    ensures states[i].frees == 1 <==> states[i].phase == Freed
    ensures states[i].phase == Condemned ==> Enabled(states[i], Deallocate)
  {
    RunInv(states, actions, i);
    hide IsRun, NotifiedOk, JoinOk, OutputOk, LifecycleOk;
  }

  /** The output is stored at most once and leaves the stage at most once; by deallocation, exactly once. */
  lemma OutputMovesOnce(states: seq<Task>, actions: seq<Action>, i: nat)
    requires IsRun(states, actions) && i < |states|
    ensures states[i].taken + states[i].discarded <= states[i].stored <= 1
    ensures states[i].phase == Freed ==> states[i].taken + states[i].discarded == 1
    ensures states[i].join.Holding? && states[i].join.done ==> states[i].taken == 1
  {
    RunInv(states, actions, i);
    ReleasedWithLastHandle(states, actions, i);
    hide IsRun, NotifiedOk, JoinOk, CountOk;
  }
}
