/**
 `poll_until_deadlock` as a loop over the run queues, what holds when it returns, and how long a task
 can wait in a queue.
 */
module Scheduler {
  import opened TaskState
  import opened Wrappers
  import opened RunQueue

  // ----- the loop -----

  class Core {
    var local: seq<Id>
    var shared: seq<Id>
    var tick: nat
    var tasks: map<Id, Snapshot>
    var unhandledPanic: bool

    ghost function View(): Sched
      reads this
    {
      Sched(local, shared, tick, tasks)
    }

    /** A runtime before its first task. */
    constructor ()
      ensures View() == NO_TASKS && SchedOk(View(), {}) && !unhandledPanic
    {
      local, shared, tick, tasks, unhandledPanic := [], [], 0, map[], false;
    }

    /** The tick is read and incremented, wrapping around at 2^32, whether or not a task is found. */
    method NextTask() returns (entry: Option<Id>)
      modifies `local, `shared, `tick
      ensures entry == old(Picked(View())) && View() == old(Take(View()))
    {
      var now := tick;
      tick := NextTick(tick);
      if now % 5 == 0 {
        entry := PopShared();
        if entry.None? { entry := PopLocal(); }
      } else {
        entry := PopLocal();
        if entry.None? { entry := PopShared(); }
      }
    }

    method PopShared() returns (entry: Option<Id>)
      modifies `shared
      ensures old(shared) == (if entry.Some? then [entry.value] else []) + shared
      ensures entry.None? ==> shared == []
    {
      if shared == [] { return None; }
      entry := Some(shared[0]);
      shared := shared[1..];
    }

    method PopLocal() returns (entry: Option<Id>)
      modifies `local
      ensures old(local) == (if entry.Some? then [entry.value] else []) + local
      ensures entry.None? ==> local == []
    {
      if local == [] { return None; }
      entry := Some(local[0]);
      local := local[1..];
    }

    method Schedule(id: Id, remote: bool)
      modifies `local, `shared
      ensures View() == old(Push(View(), id, remote))
    {
      if remote { shared := shared + [id]; } else { local := local + [id]; }
    }

    method PerformOps(ops: seq<Op>)
      modifies `local, `shared, `tasks
      ensures View() == old(PerformAll(View(), ops))
    {
      for i := 0 to |ops|
        invariant PerformAll(View(), ops[i..]) == old(PerformAll(View(), ops))
      {
        assert ops[i..][1..] == ops[i + 1..];
        var op := ops[i];
        match op {
          case Wake(id, remote) =>
            if id in tasks {
              var r := ToNotifiedByRef(tasks[id]);
              tasks := tasks[id := r.0];
              if r.1 { Schedule(id, remote); }
            }
          case Abort(id, remote) =>
            if id in tasks {
              var r := ToNotifiedAndCancel(tasks[id]);
              tasks := tasks[id := r.0];
              if r.1 { Schedule(id, remote); }
            }
          case Spawn(id, remote) =>
            if id !in tasks {
              tasks := tasks[id := INITIAL];
              Schedule(id, remote);
            }
        }
      }
    }

    /** The future is dropped before the state word says COMPLETE. */
    method Complete(id: Id, e: Effect)
      requires id in tasks && tasks[id].running && !tasks[id].complete
      modifies `local, `shared, `tasks
      ensures View() == old(Finish(View(), id, e))
    {
      OpsAppend(View(), e.dropped);
      PerformOps(e.dropped);
      tasks := tasks[id := ToComplete(tasks[id])];
      PerformOps(e.after);
      hide PerformAll;
    }

    method Run(id: Id, e: Effect)
      requires id in tasks && tasks[id].notified && tasks[id].refs > 0
      modifies `local, `shared, `tasks
      ensures View() == old(RunTask(View(), id, e))
    {
      var start := ToRunning(tasks[id]);
      tasks := tasks[id := start.0];
      match start.1 {
        case Success =>
          OpsAppend(View(), e.ops);
          PerformOps(e.ops);
          if e.ready {
            Complete(id, e);
          } else {
            var idle := ToIdle(tasks[id]);
            match idle.1 {
              case Ok => tasks := tasks[id := idle.0];
              case OkDealloc => tasks := tasks[id := idle.0];
              case OkNotified =>
                Schedule(id, false);
                tasks := tasks[id := RefDec(idle.0)];
              case IdleCancelled => Complete(id, e);
            }
          }
        case Cancelled => Complete(id, e);
        case Failed =>
        case Dealloc =>
      }
      hide PerformAll;
    }

    /** One pass of the loop body: the next task, if there is one, is run. */
    method RunNext(e: Effect) returns (found: bool)
      requires SchedOk(View(), {})
      modifies `local, `shared, `tick, `tasks
      ensures SchedOk(View(), {}) && found == old(Picked(View()).Some?)
      ensures found ==> View() == old(RunTaken(View(), e))
      ensures !found ==> View() == old(Take(View())) && Picked(View()).None? && local == old(local) && shared == old(shared)
      ensures found && e == NOTHING ==> |local| + |shared| + 1 == old(|local| + |shared|)
    {
      ghost var before := View();
      var entry := NextTask();
      match entry {
        case None => found := false;
        case Some(id) =>
          found := true;
          RunTaskOk(before, e);
          QuietRun(before, e);
          Run(id, e);
      }
      hide RunTask, TaskOk;
    }

    /**
     Batches of ten polls, until a batch finds no task at all.  On return nothing is queued and every
     incomplete task is idle and waits for a wake; the state is the one reached after `ticks` passes.
     */
    method PollUntilDeadlock(script: seq<Effect>) returns (polls: nat, ticks: nat)
      requires SchedOk(View(), {})
      modifies this
      ensures SchedOk(View(), {})
      ensures Progress(View(), polls) == Ticks(Progress(old(View()), 0), script, ticks)
      ensures unhandledPanic == old(unhandledPanic)
      ensures unhandledPanic ==> polls == 0 && ticks == 0
      ensures !unhandledPanic ==> local == [] && shared == []
      ensures !unhandledPanic ==>
        forall id | id in tasks && !tasks[id].complete :: !tasks[id].running && !tasks[id].notified
    {
      hide SchedOk, RunTaken, Take, Picked, TaskOk;
      ghost var start := Progress(View(), 0);
      polls, ticks := 0, 0;
      while true
        invariant SchedOk(View(), {})
        invariant Progress(View(), polls) == Ticks(start, script, ticks)
        invariant unhandledPanic == old(unhandledPanic)
        invariant unhandledPanic ==> polls == 0 && ticks == 0
        decreases Remaining(script, polls), |local| + |shared|
      {
        ghost var left, queued := Remaining(script, polls), |local| + |shared|;
        var progress := 0;
        for i := 0 to 10
          invariant SchedOk(View(), {})
          invariant Progress(View(), polls) == Ticks(start, script, ticks)
          invariant unhandledPanic == old(unhandledPanic)
          invariant unhandledPanic ==> polls == 0 && ticks == 0
          invariant progress == i
          invariant Remaining(script, polls) < left
                    || (Remaining(script, polls) == left && |local| + |shared| + progress == queued)
        {
          if unhandledPanic { return; }
          var found := RunNext(EffectAt(script, polls));
          ticks := ticks + 1;
          if !found {
            if progress == 0 {
              Quiescence(View());
              return;
            }
            break;
          }
          progress := progress + 1;
          polls := polls + 1;
        }
      }
    }
  }

  function Remaining(script: seq<Effect>, polls: nat): nat { if polls < |script| then |script| - polls else 0 }

  // ----- what the queues promise -----

  lemma Quiescence(s: Sched)
    requires SchedOk(s, {}) && Picked(s).None?
    ensures s.local == [] && s.shared == []
    ensures forall id | id in s.tasks && !s.tasks[id].complete :: !s.tasks[id].running && !s.tasks[id].notified
  {
    assert Queued(s) == multiset{};
    forall id | id in s.tasks && !s.tasks[id].complete ensures !s.tasks[id].running && !s.tasks[id].notified {
      assert TaskOk(s.tasks[id], Queued(s)[id], id in {});
    }
  }

  /** A task that does nothing leaves its queue and does not come back. */
  lemma QuietRun(s: Sched, e: Effect)
    requires SchedOk(s, {}) && Picked(s).Some?
    ensures Picked(s).value in s.tasks && s.tasks[Picked(s).value].notified && s.tasks[Picked(s).value].refs > 0
    ensures Take(s).tasks == s.tasks
    ensures e == NOTHING ==>
      var t := RunTask(Take(s), Picked(s).value, e);
      |t.local| + |t.shared| + 1 == |s.local| + |s.shared|
  {
    TakenOk(s);
    hide SchedOk;
  }

  // ----- how long a task waits -----

  lemma TakeTicks(s: Sched)
    ensures Take(s).tick == NextTick(s.tick)
  {
  }

  lemma TickInRange(p: Progress)
    requires ProgressOk(p)
    ensures p.s.tick < TICKS
  {
  }

  /** Running a task only appends to the queues. */
  lemma RunOnlyAppends(s: Sched, e: Effect)
    requires SchedOk(s, {}) && Picked(s).Some?
    ensures Take(s).shared <= RunTaken(s, e).shared && Take(s).local <= RunTaken(s, e).local
    ensures RunTaken(s, e).tick == NextTick(s.tick)
  {
    hide SchedOk, TaskOk, Picked, Take, PerformAll;
    TakenOk(s);
    TakeTicks(s);
    var id := Picked(s).value;
    var t := SetTask(Take(s), id, ToRunning(s.tasks[id]).0);
    OpsAppend(t, e.ops);
    var u := PerformAll(t, e.ops);
    if s.tasks[id].cancelled {
      FinishAppends(t, id, e);
    } else if e.ready || u.tasks[id].cancelled {
      FinishAppends(u, id, e);
    }
    hide Finish;
  }

  lemma FinishAppends(s: Sched, id: Id, e: Effect)
    requires id in s.tasks && s.tasks[id].running && !s.tasks[id].complete
    ensures var t := Finish(s, id, e);
      t.tick == s.tick && s.local <= t.local && s.shared <= t.shared
  {
    hide PerformAll;
    OpsAppend(s, e.dropped);
    var u := PerformAll(s, e.dropped);
    OpsAppend(SetTask(u, id, ToComplete(u.tasks[id])), e.after);
  }

  /** What one pass does to the queues: at most the front of one of them goes. */
  lemma TickQueues(p: Progress, script: seq<Effect>)
    requires ProgressOk(p)
    ensures Tick(p, script).s.tick == NextTick(p.s.tick)
    ensures (if TakesShared(p.s) then p.s.shared[1..] else p.s.shared) <= Tick(p, script).s.shared
    ensures p.s.local == [] || (if TakesShared(p.s) then p.s.local else p.s.local[1..]) <= Tick(p, script).s.local
  {
    if Picked(p.s).Some? {
      RunOnlyAppends(p.s, EffectAt(script, p.polls));
    }
  }

  lemma {:induction false} TicksAdd(p: Progress, script: seq<Effect>, i: nat, k: nat)
    requires ProgressOk(p)
    ensures Ticks(p, script, i + k) == Ticks(Ticks(p, script, i), script, k)
  {
    hide SchedOk, ProgressOk, Tick;
    if k > 0 {
      TicksAdd(p, script, i, k - 1);
    }
  }

  /** The front of the shared queue is taken within five passes, the tick wrapping around or not. */
  lemma {:induction false} SharedFront(p: Progress, script: seq<Effect>) returns (k: nat)
    requires ProgressOk(p) && p.s.shared != []
    ensures k <= (5 - p.s.tick % 5) % 5
    ensures p.s.shared <= Ticks(p, script, k).s.shared && TakesShared(Ticks(p, script, k).s)
    decreases (5 - p.s.tick % 5) % 5
  {
    hide SchedOk, Tick, Take;
    TickInRange(p);
    if TakesShared(p.s) {
      k := 0;
    } else {
      var q := Tick(p, script);
      TickOk(p, script);
      TickQueues(p, script);
      var k' := SharedFront(q, script);
      k := k' + 1;
      assert Ticks(p, script, 1) == q;
      TicksAdd(p, script, 1, k');
    }
  }

  /**
   Bounded wait in the shared queue: the task at position j is the one picked in some pass before
   pass 5 (j + 1), whatever is pushed meanwhile.
   */
  lemma {:induction false} SharedWait(p: Progress, script: seq<Effect>, j: nat) returns (k: nat)
    requires ProgressOk(p) && j < |p.s.shared|
    ensures k < 5 * (j + 1)
    ensures TakesShared(Ticks(p, script, k).s) && Picked(Ticks(p, script, k).s) == Some(p.s.shared[j])
    decreases j
  {
    hide SchedOk, Tick, Take;
    TickInRange(p);
    var k0 := SharedFront(p, script);
    var q := Ticks(p, script, k0);
    if j == 0 {
      k := k0;
    } else {
      var r := Tick(q, script);
      TickOk(q, script);
      TickQueues(q, script);
      assert q.s.shared[1..][j - 1] == p.s.shared[j];
      var k' := SharedWait(r, script, j - 1);
      k := k0 + 1 + k';
      assert r == Ticks(p, script, k0 + 1);
      TicksAdd(p, script, k0 + 1, k');
    }
  }

  /** The front of the local queue waits for at most two passes: only a wrap gives the shared queue two in a row. */
  lemma LocalFront(p: Progress, script: seq<Effect>) returns (k: nat)
    requires ProgressOk(p) && p.s.local != []
    ensures k < 3
    ensures p.s.local <= Ticks(p, script, k).s.local && !TakesShared(Ticks(p, script, k).s)
  {
    hide SchedOk, Tick, Take;
    TickInRange(p);
    k := 0;
    var q := p;
    while TakesShared(q.s)
      invariant k <= 2 && q == Ticks(p, script, k)
      invariant p.s.local <= q.s.local
      invariant k == 0 ==> q == p
      invariant k == 1 ==> q.s.tick == 0 || q.s.tick % 5 == 1
      invariant k == 2 ==> q.s.tick == 1
      decreases 3 - k
    {
      TickOk(q, script);
      TickQueues(q, script);
      q := Tick(q, script);
      k := k + 1;
    }
  }

  lemma {:induction false} LocalWait(p: Progress, script: seq<Effect>, j: nat) returns (k: nat)
    requires ProgressOk(p) && j < |p.s.local|
    ensures k < 3 * (j + 1)
    ensures Picked(Ticks(p, script, k).s) == Some(p.s.local[j]) && !TakesShared(Ticks(p, script, k).s)
    decreases j
  {
    hide SchedOk, Tick, Take;
    TickInRange(p);
    var k0 := LocalFront(p, script);
    var q := Ticks(p, script, k0);
    if j == 0 {
      k := k0;
    } else {
      var r := Tick(q, script);
      TickOk(q, script);
      TickQueues(q, script);
      assert q.s.local[1..][j - 1] == p.s.local[j];
      var k' := LocalWait(r, script, j - 1);
      k := k0 + 1 + k';
      assert r == Ticks(p, script, k0 + 1);
      TicksAdd(p, script, k0 + 1, k');
    }
  }
}
