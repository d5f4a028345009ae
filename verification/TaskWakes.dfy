/**
 No wake of a task is lost, an aborted task is never polled again, and a `JoinHandle` that returned
 Pending is woken by the completion.
 */
module TaskWakes {
  import opened TaskLifecycle
  import opened TaskTheorems

  predicate IsWake(a: Action) { a == WakeByVal || a == WakeByRef }

  lemma WakeMarks(s: Task, a: Action)
    requires Enabled(s, a) && Sound(s, a) && IsWake(a) && !s.snap.complete
    ensures Apply(s, a).snap.notified
  {
    if a == WakeByVal {
      assert WakeByValStep(s).snap.notified;
    } else {
      assert WakeByRefStep(s).snap.notified;
    }
    hide WakeByValStep, WakeByRefStep;
  }

  /** Nobody can wake the task before it is bound: no waker exists and it is not running. */
  lemma WakesComeAfterBind(s: Task, a: Action)
    requires Inv(s) && Enabled(s, a) && IsWake(a)
    ensures s.owned != InHand
  {
    hide JoinOk, OutputOk, CountOk;
  }

  /** An idle task marked NOTIFIED has its `Notified` in flight, so it can and will be run. */
  lemma MarkedIsRunnable(s: Task)
    requires Inv(s) && s.snap.Idle() && s.snap.notified && !s.closing && s.owned != InHand
    ensures s.notified == 1 && Enabled(s, StartPoll) && Sound(s, StartPoll)
    ensures Apply(s, StartPoll).run == if s.snap.cancelled then Cancelling else Polling
  {
    hide JoinOk, OutputOk;
  }

  lemma {:induction false} MarkLasts(states: seq<Task>, actions: seq<Action>, i: nat, j: nat)
    requires IsRun(states, actions) && i <= j < |states|
    requires states[i].snap.notified && states[i].owned != InHand
    requires forall k {:trigger actions[k]} :: i <= k < j ==> !TakesRunning(states[k], actions[k])
    ensures states[j].snap.notified && states[j].owned != InHand
  {
    if i < j {
      MarkLasts(states, actions, i, j - 1);
      RunInv(states, actions, j - 1);
      StepInv(states[j - 1], actions[j - 1]);
    }
    hide Inv, Sound, Enabled, Apply;
  }

  /**
   No wake is lost.  After a wake of an incomplete task and until its next poll or cancellation
   starts, NOTIFIED stays set; and whenever the task is idle (and the runtime is not shutting down)
   exactly one `Notified` is in flight, with which it can be run.
   */
  lemma NoLostWake(states: seq<Task>, actions: seq<Action>, i: nat, j: nat)
    requires IsRun(states, actions) && i < j < |states|
    requires IsWake(actions[i]) && !states[i].snap.complete
    requires forall k {:trigger actions[k]} :: i < k < j ==> !TakesRunning(states[k], actions[k])
    ensures states[j].snap.notified
    ensures states[j].snap.Idle() && !states[j].closing ==> states[j].notified == 1 && Enabled(states[j], StartPoll)
  {
    RunInv(states, actions, i);
    StepInv(states[i], actions[i]);
    WakeMarks(states[i], actions[i]);
    WakesComeAfterBind(states[i], actions[i]);
    assert states[i + 1].owned != InHand;
    MarkLasts(states, actions, i + 1, j);
    RunInv(states, actions, j);
    if states[j].snap.Idle() && !states[j].closing {
      MarkedIsRunnable(states[j]);
    }
    hide Inv, Sound, Enabled, Apply;
  }

  lemma {:induction false} CancelLasts(states: seq<Task>, actions: seq<Action>, i: nat, j: nat)
    requires IsRun(states, actions) && i <= j < |states| && states[i].snap.cancelled
    ensures states[j].snap.cancelled
    ensures states[j].run == Polling ==> states[i].run == Polling
  {
    if i < j {
      CancelLasts(states, actions, i, j - 1);
      RunInv(states, actions, j - 1);
      StepInv(states[j - 1], actions[j - 1]);
    }
    hide Inv, Sound, Enabled, Apply;
  }

  /**
   An abort is honoured: it leaves the task complete or marked cancelled, after which no poll starts,
   and a poll under way ends in completion or cancellation.
   */
  lemma AbortIsHonoured(states: seq<Task>, actions: seq<Action>, i: nat, j: nat)
    requires IsRun(states, actions) && i < j < |states| && actions[i] == Abort && !states[i].snap.complete
    ensures states[j].snap.cancelled
    ensures states[j].run == Polling ==> states[i].run == Polling
    ensures states[j].snap.Idle() && !states[j].closing ==> states[j].notified == 1
    ensures Enabled(states[j], PollPending) ==> Sound(states[j], PollPending) && Apply(states[j], PollPending).run == Cancelling
  {
    hide JoinOk, OutputOk, CountOk;
    RunInv(states, actions, i);
    StepInv(states[i], actions[i]);
    assert Apply(states[i], Abort).snap.cancelled && (Apply(states[i], Abort).run == Polling ==> states[i].run == Polling);
    CancelLasts(states, actions, i + 1, j);
    RunInv(states, actions, j);
    if Enabled(states[j], PollPending) {
      StepInv(states[j], PollPending);
    }
    assert Inv(states[j]);
    hide IsRun;
  }

  /** The `JoinHandle` last returned Pending: by the time the completion is over it has been woken. */
  lemma ParkedJoinIsWoken(states: seq<Task>, actions: seq<Action>, i: nat)
    requires IsRun(states, actions) && i < |states|
    requires states[i].join.Holding? && states[i].join.parked
    ensures states[i].snap.joinWaker && states[i].cell
    ensures states[i].snap.complete && !states[i].run.Completed? ==> states[i].joinWoken
  {
    RunInv(states, actions, i);
    hide IsRun, NotifiedOk, OutputOk;
  }

  /**
   While the completer may read the waker cell, or drop the output, the `JoinHandle` does not touch
   it: whoever the completion's snapshot says owns the cell or the output owns it alone.
   */
  lemma CellHasOneOwner(states: seq<Task>, actions: seq<Action>, i: nat)
    requires IsRun(states, actions) && i < |states|
    ensures ReadsCell(states[i].run) ==>
              states[i].cell && states[i].join != Writing && states[i].join != Setting && states[i].join != Clearing
    ensures DropsOutput(states[i].run) ==> states[i].join == Gone && states[i].stage == Finished
    ensures states[i].join == Taking ==> states[i].stage == Finished && !DropsOutput(states[i].run)
  {
    RunInv(states, actions, i);
    hide IsRun, NotifiedOk, CountOk;
  }
}
