/**
 The life of one task on the single-threaded runtime, from spawn to deallocation
 (`runtime/task/harness.rs`, `runtime/task/list.rs`, `runtime/task/mod.rs`).

 Every handle to the task owns references in the packed count: the entry in the owned-task list, the
 `JoinHandle`, each `Notified`, each waker, a thread that is about to drop a reference, and whoever
 holds RUNNING.  Each atomic update of the state word, and each access to the output stage or to the
 join-waker cell, is one step; the steps of different handles interleave freely.
 */
module TaskLifecycle {
  import opened TaskState

  datatype Phase = Live | Condemned | Freed

  /** Where the reference created for the owned-task list is. */
  datatype Owned = InHand | Listed | ShuttingDown | Given

  datatype Stage = Running | Finished | Consumed

  /** What the `JoinHandle` is doing; `Holding` is between calls. */
  datatype Join =
    | Holding(parked: bool, done: bool)
    | Comparing
    | Unsetting
    | Writing
    | Setting
    | Clearing
    | Taking
    | DroppingSlow
    | DroppingOutput
    | Gone

  /** What the holder of RUNNING is doing, and after it the completion. */
  datatype Run =
    | NotRunning
    | Polling
    | Cancelling
    | Stored
    | Completed(at: Snapshot)
    | Releasing
    | Terminating(count: nat)
    | Over

  /**
   `stored`, `taken` and `discarded` count how often an output was put into the stage, was handed to
   the `JoinHandle`, and was dropped in place; `frees` counts deallocations.
   */
  datatype Task = Task(
    snap: Snapshot,
    phase: Phase,
    owned: Owned,
    join: Join,
    notified: nat,
    wakers: nat,
    dropping: nat,
    run: Run,
    cell: bool,
    stage: Stage,
    stored: nat,
    taken: nat,
    discarded: nat,
    frees: nat,
    joinWoken: bool,
    closing: bool,
    fault: bool)

  const SPAWNED: Task :=
    Task(INITIAL, Live, InHand, Holding(false, false), 1, 0, 0, NotRunning, false, Running, 0, 0, 0, 0, false, false, false)

  datatype Action =
    | Close
    | Bind
    | PopForShutdown
    | Shutdown
    | StartPoll
    | PollPending
    | PollReady
    | Cancel
    | Complete
    | NotifyJoin
    | Release
    | Terminate
    | CloneWaker
    | DropWaker
    | WakeByVal
    | WakeByRef
    | Abort
    | JoinLoad
    | JoinCompare(same: bool)
    | JoinUnset
    | JoinWrite
    | JoinSet
    | JoinClear
    | JoinTake
    | JoinDrop(spurious: bool)
    | JoinUnsetInterest
    | JoinDropOutput
    | DropNotified
    | DropReference
    | Deallocate

  /** The handle that takes the step exists and is at that point of its code. */
  predicate Enabled(s: Task, a: Action) {
    match a
    case Close => !s.closing
    case Bind => s.owned == InHand
    case PopForShutdown => s.closing && s.owned == Listed
    case Shutdown => s.owned == ShuttingDown
    case StartPoll => s.notified > 0 && s.owned != InHand
    case PollPending => s.run == Polling
    case PollReady => s.run == Polling
    case Cancel => s.run == Cancelling
    case Complete => s.run == Stored
    case NotifyJoin => s.run.Completed?
    case Release => s.run == Releasing
    case Terminate => s.run.Terminating?
    case CloneWaker => s.wakers > 0 || s.run == Polling
    case DropWaker => s.wakers > 0
    case WakeByVal => s.wakers > 0
    case WakeByRef => s.wakers > 0 || s.run == Polling
    case Abort => s.join.Holding? && s.owned != InHand
    case JoinLoad => s.join.Holding? && !s.join.done && s.owned != InHand
    case JoinCompare(_) => s.join == Comparing
    case JoinUnset => s.join == Unsetting
    case JoinWrite => s.join == Writing
    case JoinSet => s.join == Setting
    case JoinClear => s.join == Clearing
    case JoinTake => s.join == Taking
    case JoinDrop(_) => s.join.Holding? && s.owned != InHand
    case JoinUnsetInterest => s.join == DroppingSlow
    case JoinDropOutput => s.join == DroppingOutput
    case DropNotified => s.closing && s.notified > 0 && s.owned != InHand
    case DropReference => s.dropping > 0
    case Deallocate => s.phase == Condemned
  }

  /** The completing thread is about to read the join-waker cell, or to drop the output. */
  predicate ReadsCell(r: Run) { r.Completed? && r.at.joinInterest && r.at.joinWaker }

  predicate DropsOutput(r: Run) { r.Completed? && !r.at.joinInterest }

  /**
   The step touches live memory, meets every assertion, `unwrap` and `unreachable!` on its way, and
   does not race with the other side's access to the stage or the join-waker cell.
   */
  predicate Sound(s: Task, a: Action)
    requires Enabled(s, a)
  {
    (s.phase == Live || a == Close || a == Deallocate) &&
    match a
    case Close => true
    case Bind => s.closing ==> s.snap.refs > 0 && s.notified > 0
    case PopForShutdown => true
    case Shutdown => s.snap.Idle() ==> s.run == NotRunning
    case StartPoll => s.snap.notified && s.snap.refs > 0 && (s.snap.Idle() ==> s.run == NotRunning)
    case PollPending => s.stage == Running && s.snap.running && s.snap.refs > 0
    case PollReady => s.stage == Running
    case Cancel => true
    case Complete => s.snap.running && !s.snap.complete
    case NotifyJoin =>
      && (ReadsCell(s.run) ==> s.cell)
      && (DropsOutput(s.run) ==> s.join != Taking && s.join != DroppingOutput)
    case Release => true
    case Terminate => s.snap.refs >= s.run.count
    case CloneWaker => true
    case DropWaker => s.snap.refs > 0
    case WakeByVal => s.snap.refs > 0 && (s.snap.running ==> s.snap.refs > 1)
    case WakeByRef => true
    case Abort => true
    case JoinLoad => s.snap.joinInterest
    case JoinCompare(_) => s.cell
    case JoinUnset => s.snap.joinInterest && s.snap.joinWaker
    case JoinWrite => s.snap.joinInterest && !s.snap.joinWaker && !ReadsCell(s.run)
    case JoinSet => s.snap.joinInterest && !s.snap.joinWaker
    case JoinClear => s.snap.complete && !ReadsCell(s.run)
    case JoinTake => s.stage == Finished && !DropsOutput(s.run)
    case JoinDrop(_) => s.snap.refs > 0
    case JoinUnsetInterest => s.snap.joinInterest
    case JoinDropOutput => !DropsOutput(s.run)
    case DropNotified => s.snap.refs > 0
    case DropReference => s.snap.refs > 0
    case Deallocate => true
  }

  // ----- the steps -----

  /** `ref_dec`, remembering to deallocate when it released the last reference. */
  function Dec(s: Task): Task
    requires s.snap.refs > 0
  {
    s.(snap := RefDec(s.snap), phase := if s.snap.refs == 1 then Condemned else s.phase)
  }

  function DiscardOutput(s: Task): Task {
    s.(stage := Consumed, discarded := s.discarded + if s.stage == Finished then 1 else 0)
  }

  function StoreOutput(s: Task): Task { DiscardOutput(s).(stage := Finished, stored := s.stored + 1) }

  function BindStep(s: Task): Task
    requires s.closing ==> s.snap.refs > 0 && s.notified > 0
  {
    if s.closing then Dec(s).(notified := s.notified - 1, owned := ShuttingDown) else s.(owned := Listed)
  }

  function ShutdownStep(s: Task): Task {
    var r := ToShutdown(s.snap);
    if r.1 then s.(snap := r.0, owned := Given, run := Cancelling)
    else s.(snap := r.0, owned := Given, dropping := s.dropping + 1)
  }

  function StartPollStep(s: Task): Task
    requires s.notified > 0 && s.snap.notified && s.snap.refs > 0
  {
    var r := ToRunning(s.snap);
    match r.1
    case Success => s.(snap := r.0, notified := s.notified - 1, run := Polling)
    case Cancelled => s.(snap := r.0, notified := s.notified - 1, run := Cancelling)
    case Failed => s.(snap := r.0, notified := s.notified - 1)
    case Dealloc => s.(snap := r.0, notified := s.notified - 1, phase := Condemned)
  }

  function PollPendingStep(s: Task): Task
    requires s.snap.running && s.snap.refs > 0
  {
    var r := ToIdle(s.snap);
    match r.1
    case Ok => s.(snap := r.0, run := NotRunning)
    case OkNotified => s.(snap := r.0, run := NotRunning, notified := s.notified + 1, dropping := s.dropping + 1)
    case OkDealloc => s.(snap := r.0, run := NotRunning, phase := Condemned)
    case IdleCancelled => s.(run := Cancelling)
  }

  function CompleteStep(s: Task): Task
    requires s.snap.running && !s.snap.complete
  {
    s.(snap := ToComplete(s.snap), run := Completed(ToComplete(s.snap)))
  }

  function NotifyJoinStep(s: Task): Task
    requires s.run.Completed?
  {
    var t := if !s.run.at.joinInterest then DiscardOutput(s) else s.(joinWoken := s.joinWoken || s.run.at.joinWaker);
    t.(run := Releasing)
  }

  function ReleaseStep(s: Task): Task {
    if s.owned == Listed then s.(owned := Given, run := Terminating(2)) else s.(run := Terminating(1))
  }

  function TerminateStep(s: Task): Task
    requires s.run.Terminating? && s.snap.refs >= s.run.count
  {
    s.(snap := s.snap.(refs := s.snap.refs - s.run.count), run := Over,
       phase := if s.snap.refs == s.run.count then Condemned else s.phase)
  }

  function WakeByValStep(s: Task): Task
    requires s.wakers > 0 && s.snap.refs > 0 && (s.snap.running ==> s.snap.refs > 1)
  {
    var r := ToNotifiedByVal(s.snap);
    match r.1
    case DoNothing => s.(snap := r.0, wakers := s.wakers - 1)
    case Submit => s.(snap := r.0, wakers := s.wakers - 1, notified := s.notified + 1, dropping := s.dropping + 1)
    case DeallocByVal => s.(snap := r.0, wakers := s.wakers - 1, phase := Condemned)
  }

  function WakeByRefStep(s: Task): Task {
    var r := ToNotifiedByRef(s.snap);
    s.(snap := r.0, notified := s.notified + if r.1 then 1 else 0)
  }

  function AbortStep(s: Task): Task {
    var r := ToNotifiedAndCancel(s.snap);
    s.(snap := r.0, notified := s.notified + if r.1 then 1 else 0)
  }

  function JoinLoadStep(s: Task): Task {
    s.(join := if s.snap.complete then Taking else if s.snap.joinWaker then Comparing else Writing)
  }

  function JoinUnsetStep(s: Task): Task
    requires s.snap.joinInterest && s.snap.joinWaker
  {
    var r := UnsetJoinWaker(s.snap);
    s.(snap := r.0, join := if r.1 then Writing else Taking)
  }

  function JoinSetStep(s: Task): Task
    requires s.snap.joinInterest && !s.snap.joinWaker
  {
    var r := SetJoinWaker(s.snap);
    s.(snap := r.0, join := if r.1 then Holding(true, false) else Clearing)
  }

  /** The fast path is a weak compare-and-swap and may fail spuriously. */
  function JoinDropStep(s: Task, spurious: bool): Task
    requires s.snap.refs > 0
  {
    if s.snap == INITIAL && !spurious then Dec(s.(snap := s.snap.(joinInterest := false), join := Gone))
    else s.(join := DroppingSlow)
  }

  function JoinUnsetInterestStep(s: Task): Task
    requires s.snap.joinInterest
  {
    var r := UnsetJoinInterest(s.snap);
    if r.1 then s.(snap := r.0, join := Gone, dropping := s.dropping + 1) else s.(join := DroppingOutput)
  }

  function Apply(s: Task, a: Action): Task
    requires Enabled(s, a) && Sound(s, a)
  {
    match a
    case Close => s.(closing := true)
    case Bind => BindStep(s)
    case PopForShutdown => s.(owned := ShuttingDown)
    case Shutdown => ShutdownStep(s)
    case StartPoll => StartPollStep(s)
    case PollPending => PollPendingStep(s)
    case PollReady => StoreOutput(s).(run := Stored)
    case Cancel => StoreOutput(s).(run := Stored)
    case Complete => CompleteStep(s)
    case NotifyJoin => NotifyJoinStep(s)
    case Release => ReleaseStep(s)
    case Terminate => TerminateStep(s)
    case CloneWaker => s.(snap := RefInc(s.snap), wakers := s.wakers + 1)
    case DropWaker => Dec(s).(wakers := s.wakers - 1)
    case WakeByVal => WakeByValStep(s)
    case WakeByRef => WakeByRefStep(s)
    case Abort => AbortStep(s)
    case JoinLoad => JoinLoadStep(s)
    case JoinCompare(same) => s.(join := if same then Holding(true, false) else Unsetting)
    case JoinUnset => JoinUnsetStep(s)
    case JoinWrite => s.(cell := true, join := Setting)
    case JoinSet => JoinSetStep(s)
    case JoinClear => s.(cell := false, join := Taking)
    case JoinTake => s.(stage := Consumed, taken := s.taken + 1, join := Holding(false, true))
    case JoinDrop(spurious) => JoinDropStep(s, spurious)
    case JoinUnsetInterest => JoinUnsetInterestStep(s)
    case JoinDropOutput => DiscardOutput(s).(join := Gone, dropping := s.dropping + 1)
    case DropNotified => Dec(s).(notified := s.notified - 1)
    case DropReference => Dec(s).(dropping := s.dropping - 1)
    case Deallocate => DiscardOutput(s).(phase := Freed, cell := false, frees := s.frees + 1)
  }

  function Next(s: Task, a: Action): Task
    requires Enabled(s, a)
  {
    if Sound(s, a) then Apply(s, a) else s.(fault := true)
  }

  /** A run: the states passed through and the action between each and the next. */
  ghost predicate IsRun(states: seq<Task>, actions: seq<Action>) {
    && |states| == |actions| + 1
    && states[0] == SPAWNED
    && forall i {:trigger actions[i]} :: 0 <= i < |actions| ==>
         Enabled(states[i], actions[i]) && states[i + 1] == Next(states[i], actions[i])
  }

  // ----- the invariant -----

  function OwnedRefs(o: Owned): nat { if o == Given then 0 else 1 }

  function JoinRefs(j: Join): nat { if j == Gone then 0 else 1 }

  function RunRefs(r: Run): nat {
    match r
    case NotRunning => 0
    case Over => 0
    case Terminating(k) => k
    case _ => 1
  }

  function Handles(s: Task): nat {
    OwnedRefs(s.owned) + JoinRefs(s.join) + s.notified + s.wakers + s.dropping + RunRefs(s.run)
  }

  /** The packed count is the number of live handles; memory is released with the last one. */
  predicate CountOk(s: Task) {
    && s.snap.refs == Handles(s)
    && (s.phase == Live <==> s.snap.refs > 0)
    && s.frees == (if s.phase == Freed then 1 else 0)
  }

  /** The lifecycle bits say where the holder of RUNNING is. */
  predicate LifecycleOk(snap: Snapshot, owned: Owned, run: Run) {
    && (snap.running <==> run == Polling || run == Cancelling || run == Stored)
    && (snap.complete <==> run.Completed? || run == Releasing || run.Terminating? || run == Over)
    && (run.Completed? ==> run.at.joinInterest == snap.joinInterest && run.at.joinWaker == snap.joinWaker)
    && (owned == Given && !snap.complete ==> snap.running && (snap.cancelled || run != Polling))
    && ((run.Terminating? || run == Over) ==> owned != Listed)
    && (run.Terminating? ==> run.count == 1 || run.count == 2)
    && (owned == InHand ==> run == NotRunning)
  }

  /** NOTIFIED and the `Notified` objects in flight. */
  predicate NotifiedOk(s: Task) {
    && s.notified <= 1
    && (s.notified == 1 ==> s.snap.notified)
    && (s.run == Polling ==> s.notified == 0)
    && (s.snap.Idle() && s.snap.cancelled ==> s.snap.notified)
    && (s.snap.Idle() && !s.closing ==> (s.snap.notified <==> s.notified == 1))
    && (s.owned == InHand ==> s.notified == 1 && s.wakers == 0 && s.dropping == 0 && s.snap == INITIAL && s.join.Holding?)
  }

  /** The join waker: the bit covers the cell, and the handle writes the cell only without the bit. */
  predicate JoinOk(snap: Snapshot, join: Join, cell: bool, run: Run, joinWoken: bool, phase: Phase) {
    && (snap.joinWaker && phase != Freed ==> cell)
    && (join != Gone ==> snap.joinInterest)
    && (snap.joinInterest && join == Gone ==> snap.complete)
    && ((join == Comparing || join == Unsetting) ==> snap.joinWaker)
    && ((join == Writing || join == Setting || join == Clearing) ==> !snap.joinWaker)
    && ((join == Taking || join == Clearing || join == DroppingOutput) ==> snap.complete)
    && (join == Setting ==> cell)
    && (join.Holding? && join.parked ==> snap.joinWaker && !join.done)
    && (join.Holding? && join.done ==> snap.complete)
    && (snap.complete && !run.Completed? && snap.joinInterest && snap.joinWaker ==> joinWoken)
  }

  predicate WantsOutput(j: Join) {
    j != Gone && j != DroppingSlow && j != DroppingOutput && !(j.Holding? && j.done)
  }

  /** The output: stored once, then handed over or dropped once. */
  predicate OutputOk(s: Task) {
    && s.stored <= 1
    && (s.join.Holding? && s.join.done ==> s.taken == 1)
    && s.stored == s.taken + s.discarded + (if s.stage == Finished then 1 else 0)
    && (s.stage == Running <==> s.run == NotRunning || s.run == Polling || s.run == Cancelling)
    && (s.stage == Running <==> s.stored == 0)
    && ((s.run == Stored || (s.run.Completed? && !s.snap.joinInterest)) ==> s.stage == Finished)
    && (s.snap.complete && s.snap.joinInterest && WantsOutput(s.join) ==> s.stage == Finished)
    && (s.phase == Freed ==> s.stage == Consumed && !s.cell)
  }

  predicate Inv(s: Task) {
    && !s.fault
    && CountOk(s)
    && LifecycleOk(s.snap, s.owned, s.run)
    && NotifiedOk(s)
    && JoinOk(s.snap, s.join, s.cell, s.run, s.joinWoken, s.phase)
    && OutputOk(s)
  }

  /** A poll or a cancellation of the task starts here. */
  predicate TakesRunning(s: Task, a: Action) { a == StartPoll && s.snap.Idle() }

  /** What no step undoes, and the one step that clears NOTIFIED. */
  predicate Evolves(s: Task, a: Action, t: Task) {
    && (s.owned != InHand ==> t.owned != InHand)
    && (s.snap.cancelled ==> t.snap.cancelled)
    && (s.snap.complete ==> t.snap.complete)
    && (s.snap.notified && !TakesRunning(s, a) ==> t.snap.notified)
    && (t.run == Polling && s.run != Polling ==> TakesRunning(s, a) && !s.snap.cancelled)
  }
}
