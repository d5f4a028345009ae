/** What polling a `JoinHandle` comes to: the output of a complete task, or a handle that is parked and will be woken. */
module TaskJoin {
  import opened TaskLifecycle
  import opened TaskTheorems

  /** The steps of a poll of the `JoinHandle` after its first load. */
  predicate PollsJoin(a: Action) {
    a.JoinCompare? || a.JoinUnset? || a.JoinWrite? || a.JoinSet? || a.JoinClear? || a.JoinTake?
  }

  predicate DropsJoin(a: Action) { a.JoinDrop? || a.JoinUnsetInterest? || a.JoinDropOutput? }

  predicate InPoll(j: Join) {
    j == Comparing || j == Unsetting || j == Writing || j == Setting || j == Clearing || j == Taking
  }

  lemma RuntimeKeepsJoin(s: Task, a: Action)
    requires Enabled(s, a) && Sound(s, a)
    requires a.Close? || a.Bind? || a.PopForShutdown? || a.Shutdown? || a.StartPoll? || a.PollPending? || a.PollReady?
             || a.Cancel?
    ensures Apply(s, a).join == s.join
  {
  }

  lemma CompletionKeepsJoin(s: Task, a: Action)
    requires Enabled(s, a) && Sound(s, a)
    requires a.Complete? || a.NotifyJoin? || a.Release? || a.Terminate? || a.Deallocate?
    ensures Apply(s, a).join == s.join
  {
  }

  lemma WakersKeepJoin(s: Task, a: Action)
    requires Enabled(s, a) && Sound(s, a)
    requires a.CloneWaker? || a.DropWaker? || a.WakeByVal? || a.WakeByRef? || a.Abort? || a.DropNotified? || a.DropReference?
    ensures Apply(s, a).join == s.join
  {
  }

  lemma OthersKeepJoin(s: Task, a: Action)
    requires Enabled(s, a) && Sound(s, a) && !PollsJoin(a) && !DropsJoin(a) && !a.JoinLoad?
    ensures Apply(s, a).join == s.join
  {
    hide Apply;
    if a.CloneWaker? || a.DropWaker? || a.WakeByVal? || a.WakeByRef? || a.Abort? || a.DropNotified? || a.DropReference? {
      WakersKeepJoin(s, a);
    } else if a.Complete? || a.NotifyJoin? || a.Release? || a.Terminate? || a.Deallocate? {
      CompletionKeepsJoin(s, a);
    } else {
      RuntimeKeepsJoin(s, a);
    }
  }

  /** The steps a poll has left at most. */
  function StepsLeft(j: Join): nat {
    match j
    case Comparing => 6
    case Unsetting => 5
    case Writing => 4
    case Setting => 3
    case Clearing => 2
    case Taking => 1
    case _ => 0
  }

  /** The handle parks, or has the output; a poll that came to take the output does take it. */
  predicate PollGoesOn(j: Join, j': Join) {
    && (InPoll(j') || j' == Holding(true, false) || j' == Holding(false, true))
    && StepsLeft(j') <= StepsLeft(j)
    && (j == Taking ==> j' == Taking || j' == Holding(false, true))
    && (j == Clearing ==> j' == Clearing || j' == Taking)
  }

  lemma PollStepGoesOn(s: Task, a: Action)
    requires Enabled(s, a) && Sound(s, a) && PollsJoin(a)
    ensures InPoll(s.join) && PollGoesOn(s.join, Apply(s, a).join) && StepsLeft(Apply(s, a).join) < StepsLeft(s.join)
  {
  }

  lemma StepGoesOn(s: Task, a: Action)
    requires Enabled(s, a) && Sound(s, a) && InPoll(s.join)
    ensures PollGoesOn(s.join, Apply(s, a).join)
    ensures StepsLeft(Apply(s, a).join) + (if PollsJoin(a) then 1 else 0) <= StepsLeft(s.join)
  {
    if PollsJoin(a) { PollStepGoesOn(s, a); } else { OthersKeepJoin(s, a); }
    hide Apply, Sound;
  }

  /** The first load of a poll, and where it goes from there. */
  lemma LoadStarts(s: Task)
    requires Enabled(s, JoinLoad) && Sound(s, JoinLoad)
    ensures InPoll(Apply(s, JoinLoad).join)
    ensures s.snap.complete ==> Apply(s, JoinLoad).join == Taking
  {
  }

  ghost predicate FirstReturn(states: seq<Task>, i: nat, j: nat)
    requires i < j < |states|
  {
    states[j].join.Holding? && forall k | i < k < j :: !states[k].join.Holding?
  }

  lemma {:induction false} WhilePolling(states: seq<Task>, actions: seq<Action>, i: nat, j: nat)
    requires IsRun(states, actions) && i < j < |states| && actions[i] == JoinLoad
    requires forall k | i < k < j :: !states[k].join.Holding?
    ensures InPoll(states[j].join) || states[j].join == Holding(true, false) || states[j].join == Holding(false, true)
    ensures states[i].snap.complete ==> states[j].join == Taking || states[j].join == Holding(false, true)
  {
    hide Inv, Sound, Enabled, Apply;
    RunInv(states, actions, j - 1);
    StepInv(states[j - 1], actions[j - 1]);
    if i + 1 == j {
      LoadStarts(states[i]);
    } else {
      WhilePolling(states, actions, i, j - 1);
      StepGoesOn(states[j - 1], actions[j - 1]);
    }
  }

  /** What a poll of the handle returns: the output, or Pending with the handle parked. */
  lemma PollReturns(states: seq<Task>, actions: seq<Action>, i: nat, j: nat)
    requires IsRun(states, actions) && i < j < |states| && actions[i] == JoinLoad && FirstReturn(states, i, j)
    ensures states[j].join.parked != states[j].join.done
    ensures states[j].join.parked ==> !states[i].snap.complete && states[j].snap.joinWaker && states[j].cell
    ensures states[j].join.done ==> states[j].taken == 1
  {
    hide IsRun;
    WhilePolling(states, actions, i, j);
    RunInv(states, actions, j);
    hide CountOk, NotifiedOk;
  }

  /** The output reaches the handle: a poll that begins when the task is complete returns it. */
  lemma OutputReachesHandle(states: seq<Task>, actions: seq<Action>, i: nat, j: nat)
    requires IsRun(states, actions) && i < j < |states| && actions[i] == JoinLoad && FirstReturn(states, i, j)
    requires states[i].snap.complete
    ensures states[j].join == Holding(false, true) && states[j].taken == 1 && states[j].discarded == 0
  {
    hide IsRun;
    WhilePolling(states, actions, i, j);
    RunInv(states, actions, j);
    hide CountOk, NotifiedOk, JoinOk;
  }

  /** How many steps of polls the handle took from state i to state j. */
  ghost function PollSteps(actions: seq<Action>, i: nat, j: nat): nat
    requires i <= j <= |actions|
    decreases j - i
  {
    if i == j then 0 else PollSteps(actions, i, j - 1) + if PollsJoin(actions[j - 1]) then 1 else 0
  }

  lemma {:induction false} PollSpends(states: seq<Task>, actions: seq<Action>, i: nat, j: nat)
    requires IsRun(states, actions) && i < j < |states| && actions[i] == JoinLoad
    requires forall k | i < k < j :: !states[k].join.Holding?
    ensures PollSteps(actions, i + 1, j) + StepsLeft(states[j].join) <= 6
  {
    hide Inv, Sound, Enabled, Apply;
    if i + 1 < j {
      PollSpends(states, actions, i, j - 1);
      WhilePolling(states, actions, i, j - 1);
      RunInv(states, actions, j - 1);
      StepInv(states[j - 1], actions[j - 1]);
      StepGoesOn(states[j - 1], actions[j - 1]);
    }
  }

  /** A poll of the handle is over after six more steps at most, and until then it can always take one. */
  lemma PollIsShort(states: seq<Task>, actions: seq<Action>, i: nat, j: nat) returns (next: Action)
    requires IsRun(states, actions) && i < j < |states| && actions[i] == JoinLoad
    requires forall k | i < k <= j :: !states[k].join.Holding?
    ensures PollSteps(actions, i + 1, j) < 6
    ensures PollsJoin(next) && Enabled(states[j], next) && Sound(states[j], next)
  {
    hide IsRun, Inv, Sound;
    PollSpends(states, actions, i, j);
    WhilePolling(states, actions, i, j);
    RunInv(states, actions, j);
    match states[j].join {
      case Comparing => next := JoinCompare(true);
      case Unsetting => next := JoinUnset;
      case Writing => next := JoinWrite;
      case Setting => next := JoinSet;
      case Clearing => next := JoinClear;
      case _ => next := JoinTake;
    }
    StepInv(states[j], next);
  }
}
