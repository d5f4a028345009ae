/**
 The scheduler of the single-threaded runtime (`runtime/spawner.rs`): a local and a shared run queue,
 the tick that decides which one goes first, and `poll_until_deadlock`.

 What a task does when it is polled is user code.  A run is described by a script: the k-th poll acts
 as the k-th `Effect` says, and polls after the end of the script do nothing and return Pending.  Every
 run in which only finitely many polls have an effect is such a run.
 */
module RunQueue {
  import opened TaskState
  import opened Wrappers

  type Id = nat

  const TICKS: nat := 0x1_0000_0000

  /** A wake, abort or spawn; `remote` ones come from outside the scheduler's own context. */
  datatype Op =
    | Wake(id: Id, remote: bool)
    | Abort(id: Id, remote: bool)
    | Spawn(id: Id, remote: bool)

  /**
   What one poll does; `dropped` happens when the future is dropped, while the task still holds RUNNING,
   and `after` once it is complete, when the join handle is woken or the output dropped.
   */
  datatype Effect = Effect(ops: seq<Op>, ready: bool, dropped: seq<Op>, after: seq<Op>)

  const NOTHING: Effect := Effect([], false, [], [])

  /** The queues hold one entry per `Notified`; `tasks` holds the state word of every task spawned. */
  datatype Sched = Sched(local: seq<Id>, shared: seq<Id>, tick: nat, tasks: map<Id, Snapshot>)

  const NO_TASKS: Sched := Sched([], [], 0, map[])

  function Queued(s: Sched): multiset<Id> { multiset(s.local) + multiset(s.shared) }

  // ----- choosing a task -----

  function NextTick(tick: nat): nat { (tick + 1) % TICKS }

  /** Every fifth tick prefers the shared queue. */
  predicate SharedFirst(tick: nat) { tick % 5 == 0 }

  predicate TakesShared(s: Sched) { s.shared != [] && (SharedFirst(s.tick) || s.local == []) }

  function Picked(s: Sched): Option<Id> {
    if TakesShared(s) then Some(s.shared[0]) else if s.local != [] then Some(s.local[0]) else None
  }

  function Take(s: Sched): Sched {
    var t := s.(tick := NextTick(s.tick));
    if TakesShared(s) then t.(shared := s.shared[1..])
    else if s.local != [] then t.(local := s.local[1..])
    else t
  }

  // ----- running it -----

  function Push(s: Sched, id: Id, remote: bool): Sched {
    if remote then s.(shared := s.shared + [id]) else s.(local := s.local + [id])
  }

  function SetTask(s: Sched, id: Id, snap: Snapshot): Sched { s.(tasks := s.tasks[id := snap]) }

  function Perform(s: Sched, op: Op): Sched {
    match op
    case Wake(id, remote) =>
      if id !in s.tasks then s
      else
        var r := ToNotifiedByRef(s.tasks[id]);
        if r.1 then Push(SetTask(s, id, r.0), id, remote) else SetTask(s, id, r.0)
    case Abort(id, remote) =>
      if id !in s.tasks then s
      else
        var r := ToNotifiedAndCancel(s.tasks[id]);
        if r.1 then Push(SetTask(s, id, r.0), id, remote) else SetTask(s, id, r.0)
    case Spawn(id, remote) =>
      if id in s.tasks then s else Push(SetTask(s, id, INITIAL), id, remote)
  }

  function PerformAll(s: Sched, ops: seq<Op>): Sched
    decreases |ops|
  {
    if ops == [] then s else PerformAll(Perform(s, ops[0]), ops[1..])
  }

  /** What wakes, aborts and spawns leave alone: they append to the queues and start or end no poll. */
  predicate Appends(s: Sched, t: Sched) {
    && s.tick == t.tick
    && s.local <= t.local
    && s.shared <= t.shared
    && forall id | id in s.tasks ::
         && id in t.tasks
         && t.tasks[id].running == s.tasks[id].running
         && t.tasks[id].complete == s.tasks[id].complete
         && t.tasks[id].refs >= s.tasks[id].refs
  }

  lemma {:induction false} OpsAppend(s: Sched, ops: seq<Op>)
    ensures Appends(s, PerformAll(s, ops))
    decreases |ops|
  {
    if ops != [] {
      assert Appends(s, Perform(s, ops[0]));
      OpsAppend(Perform(s, ops[0]), ops[1..]);
    }
  }

  /** The future is finished or cancelled: it is dropped, and then the task becomes complete. */
  function Finish(s: Sched, id: Id, e: Effect): Sched
    requires id in s.tasks && s.tasks[id].running && !s.tasks[id].complete
  {
    OpsAppend(s, e.dropped);
    var u := PerformAll(s, e.dropped);
    PerformAll(SetTask(u, id, ToComplete(u.tasks[id])), e.after)
  }

  /** The end of a poll that returned Pending; a task woken meanwhile goes to the back of the local queue. */
  function Park(s: Sched, id: Id, e: Effect): Sched
    requires id in s.tasks && s.tasks[id].running && !s.tasks[id].complete && s.tasks[id].refs > 0
  {
    var r := ToIdle(s.tasks[id]);
    match r.1
    case Ok => SetTask(s, id, r.0)
    case OkDealloc => SetTask(s, id, r.0)
    case OkNotified => Push(SetTask(s, id, RefDec(r.0)), id, false)
    case IdleCancelled => Finish(s, id, e)
  }

  function RunTask(s: Sched, id: Id, e: Effect): Sched
    requires id in s.tasks && s.tasks[id].notified && s.tasks[id].refs > 0
  {
    var r := ToRunning(s.tasks[id]);
    var t := SetTask(s, id, r.0);
    match r.1
    case Success =>
      OpsAppend(t, e.ops);
      var u := PerformAll(t, e.ops);
      if e.ready then Finish(u, id, e) else Park(u, id, e)
    case Cancelled => Finish(t, id, e)
    case Failed => t
    case Dealloc => t
  }

  // ----- the invariant -----

  /** A task has a queue entry exactly when it is idle and notified, and references to spare. */
  predicate TaskOk(snap: Snapshot, entries: nat, polling: bool) {
    && (polling <==> snap.running)
    && !(snap.running && snap.complete)
    && entries == (if snap.Idle() && snap.notified then 1 else 0)
    && (!snap.complete ==> snap.refs > entries + if polling then 1 else 0)
  }

  ghost predicate SchedOk(s: Sched, polling: set<Id>) {
    && s.tick < TICKS
    && (forall id | id in s.tasks :: TaskOk(s.tasks[id], Queued(s)[id], id in polling))
    && (forall id | id in Queued(s) :: id in s.tasks)
    && (forall id | id in polling :: id in s.tasks)
  }

  lemma PushQueues(s: Sched, id: Id, remote: bool)
    ensures Queued(Push(s, id, remote)) == Queued(s) + multiset{id}
  {
  }

  lemma TakeUnqueues(s: Sched)
    requires Picked(s).Some?
    ensures Queued(s) == Queued(Take(s)) + multiset{Picked(s).value}
  {
    if TakesShared(s) {
      assert s.shared == [s.shared[0]] + s.shared[1..];
    } else {
      assert s.local == [s.local[0]] + s.local[1..];
    }
  }

  /** The invariant for every task but one. */
  ghost predicate OthersOk(s: Sched, id: Id, polling: set<Id>) {
    && s.tick < TICKS
    && (forall other | other in s.tasks && other != id :: TaskOk(s.tasks[other], Queued(s)[other], other in polling))
    && (forall other | other in Queued(s) && other != id :: other in s.tasks)
    && (forall other | other in polling && other != id :: other in s.tasks)
  }

  lemma SetOk(s: Sched, id: Id, snap: Snapshot, polling: set<Id>)
    requires OthersOk(s, id, polling) && TaskOk(snap, Queued(s)[id], id in polling)
    ensures SchedOk(SetTask(s, id, snap), polling)
  {
    assert Queued(SetTask(s, id, snap)) == Queued(s);
    hide TaskOk, Queued;
  }

  lemma SetAndPushOk(s: Sched, id: Id, snap: Snapshot, remote: bool, polling: set<Id>)
    requires OthersOk(s, id, polling) && TaskOk(snap, Queued(s)[id] + 1, id in polling)
    ensures SchedOk(Push(SetTask(s, id, snap), id, remote), polling)
  {
    var t := SetTask(s, id, snap);
    assert Queued(t) == Queued(s);
    PushQueues(t, id, remote);
    hide TaskOk, Queued;
  }

  lemma PerformOk(s: Sched, op: Op, polling: set<Id>)
    requires SchedOk(s, polling)
    ensures SchedOk(Perform(s, op), polling)
  {
    var id := op.id;
    assert OthersOk(s, id, polling);
    match op {
      case Wake(_, remote) =>
        if id in s.tasks {
          var r := ToNotifiedByRef(s.tasks[id]);
          if r.1 { SetAndPushOk(s, id, r.0, remote, polling); } else { SetOk(s, id, r.0, polling); }
        }
      case Abort(_, remote) =>
        if id in s.tasks {
          var r := ToNotifiedAndCancel(s.tasks[id]);
          if r.1 { SetAndPushOk(s, id, r.0, remote, polling); } else { SetOk(s, id, r.0, polling); }
        }
      case Spawn(_, remote) =>
        if id !in s.tasks { SetAndPushOk(s, id, INITIAL, remote, polling); }
    }
    hide Queued, SetTask, Push, OthersOk;
  }

  lemma {:induction false} PerformAllOk(s: Sched, ops: seq<Op>, polling: set<Id>)
    requires SchedOk(s, polling)
    ensures SchedOk(PerformAll(s, ops), polling)
    decreases |ops|
  {
    if ops != [] {
      PerformOk(s, ops[0], polling);
      PerformAllOk(Perform(s, ops[0]), ops[1..], polling);
    }
    hide SchedOk, Perform;
  }

  lemma FinishOk(s: Sched, id: Id, e: Effect)
    requires SchedOk(s, {id})
    ensures SchedOk(Finish(s, id, e), {})
  {
    OpsAppend(s, e.dropped);
    PerformAllOk(s, e.dropped, {id});
    var u := PerformAll(s, e.dropped);
    CompleteOk(u, id);
    PerformAllOk(SetTask(u, id, ToComplete(u.tasks[id])), e.after, {});
    hide PerformAll, SetTask, Queued;
  }

  lemma CompleteOk(s: Sched, id: Id)
    requires SchedOk(s, {id})
    ensures SchedOk(SetTask(s, id, ToComplete(s.tasks[id])), {})
  {
    SetOk(s, id, ToComplete(s.tasks[id]), {});
    hide SetTask, Queued;
  }

  lemma ParkOk(s: Sched, id: Id, e: Effect)
    requires SchedOk(s, {id})
    ensures SchedOk(Park(s, id, e), {})
  {
    var snap := s.tasks[id];
    if snap.cancelled {
      FinishOk(s, id, e);
    } else if snap.notified {
      SetAndPushOk(s, id, RefDec(ToIdle(snap).0), false, {});
    } else {
      SetOk(s, id, ToIdle(snap).0, {});
    }
    hide Finish, SetTask, Push, Queued;
  }

  lemma PickedIsReady(s: Sched)
    requires SchedOk(s, {}) && Picked(s).Some?
    ensures var id := Picked(s).value;
      && id in s.tasks && s.tasks[id].Idle() && s.tasks[id].notified && s.tasks[id].refs > 1
      && Queued(s)[id] == 1
  {
    hide Queued;
    TakeUnqueues(s);
    assert Picked(s).value in Queued(s);
  }

  lemma OthersAfterTake(s: Sched)
    requires SchedOk(s, {}) && Picked(s).Some?
    ensures Take(s).tasks == s.tasks && OthersOk(Take(s), Picked(s).value, {Picked(s).value})
  {
    TakeUnqueues(s);
    TakeTask(s);
    hide TaskOk, Queued, Picked, TakesShared, Take;
  }

  lemma TakeTask(s: Sched)
    ensures Take(s).tasks == s.tasks && Take(s).tick < TICKS
  {
  }

  /** The task taken from a queue is idle and notified; taking RUNNING restores the invariant. */
  lemma TakenOk(s: Sched)
    requires SchedOk(s, {}) && Picked(s).Some?
    ensures var id := Picked(s).value;
      && id in s.tasks && s.tasks[id].Idle() && s.tasks[id].notified && s.tasks[id].refs > 0
      && Take(s).tasks == s.tasks
      && SchedOk(SetTask(Take(s), id, ToRunning(s.tasks[id]).0), {id})
  {
    hide SchedOk, Queued, Picked, Take, OthersOk, SetTask;
    var id := Picked(s).value;
    PickedIsReady(s);
    OthersAfterTake(s);
    TakeUnqueues(s);
    SetOk(Take(s), id, ToRunning(s.tasks[id]).0, {id});
  }

  /** Running the task that was taken keeps the invariant. */
  lemma RunTaskOk(s: Sched, e: Effect)
    requires SchedOk(s, {}) && Picked(s).Some?
    ensures var id := Picked(s).value;
      && id in s.tasks && s.tasks[id].Idle() && s.tasks[id].notified && s.tasks[id].refs > 0
      && Take(s).tasks == s.tasks
      && SchedOk(RunTask(Take(s), id, e), {})
  {
    TakenOk(s);
    var id := Picked(s).value;
    var t := SetTask(Take(s), id, ToRunning(s.tasks[id]).0);
    if s.tasks[id].cancelled {
      FinishOk(t, id, e);
    } else {
      PerformAllOk(t, e.ops, {id});
      OpsAppend(t, e.ops);
      if e.ready {
        FinishOk(PerformAll(t, e.ops), id, e);
      } else {
        ParkOk(PerformAll(t, e.ops), id, e);
      }
    }
    hide SchedOk, PerformAll, Finish, Park, Picked, Take;
  }

  // ----- ticks -----

  datatype Progress = Progress(s: Sched, polls: nat)

  function EffectAt(script: seq<Effect>, n: nat): Effect { if n < |script| then script[n] else NOTHING }

  ghost predicate ProgressOk(p: Progress) { SchedOk(p.s, {}) }

  /** Take the next task and run it. */
  ghost function RunTaken(s: Sched, e: Effect): (t: Sched)
    requires SchedOk(s, {}) && Picked(s).Some?
    ensures SchedOk(t, {})
  {
    RunTaskOk(s, e);
    RunTask(Take(s), Picked(s).value, e)
  }

  /** One pass of the scheduling loop. */
  ghost function Tick(p: Progress, script: seq<Effect>): Progress
    requires ProgressOk(p)
  {
    if Picked(p.s).None? then p.(s := Take(p.s))
    else Progress(RunTaken(p.s, EffectAt(script, p.polls)), p.polls + 1)
  }

  lemma TickOk(p: Progress, script: seq<Effect>)
    requires ProgressOk(p)
    ensures ProgressOk(Tick(p, script))
  {
    if Picked(p.s).Some? {
      RunTaskOk(p.s, EffectAt(script, p.polls));
    }
  }

  ghost function Ticks(p: Progress, script: seq<Effect>, k: nat): (q: Progress)
    requires ProgressOk(p)
    ensures ProgressOk(q)
  {
    if k == 0 then p
    else
      var q := Ticks(p, script, k - 1);
      TickOk(q, script);
      Tick(q, script)
  }
}
