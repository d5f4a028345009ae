/** What wakes, aborts and spawns do to the scheduler, and that a task that is woken is run before long. */
module SchedulerWakes {
  import opened TaskState
  import opened Wrappers
  import opened RunQueue
  import opened Scheduler

  // ----- one operation -----

  /** One entry more at the back of the local or the shared queue. */
  predicate PushedTo(s: Sched, t: Sched, id: Id, remote: bool) {
    if remote then t.shared == s.shared + [id] && t.local == s.local else t.local == s.local + [id] && t.shared == s.shared
  }

  predicate SameQueues(s: Sched, t: Sched) { t.local == s.local && t.shared == s.shared }

  predicate OthersSame(s: Sched, t: Sched, id: Id) {
    && t.tick == s.tick && t.tasks.Keys == s.tasks.Keys + {id}
    && forall other | other in s.tasks && other != id :: t.tasks[other] == s.tasks[other]
  }

  /**
   A wake marks an idle task NOTIFIED, with a reference for the entry it gets at the back of the queue;
   it marks a running one; on one that is complete or marked it does nothing.
   */
  lemma WakeDoes(s: Sched, id: Id, remote: bool)
    ensures id !in s.tasks ==> Perform(s, Wake(id, remote)) == s
    ensures id in s.tasks ==>
      var (t, snap) := (Perform(s, Wake(id, remote)), s.tasks[id]);
      && OthersSame(s, t, id)
      && (snap.complete || snap.notified ==> t == s)
      && (!snap.complete && !snap.notified && !snap.running ==>
            t.tasks[id] == snap.(notified := true, refs := snap.refs + 1) && PushedTo(s, t, id, remote))
      && (!snap.complete && !snap.notified && snap.running ==>
            t.tasks[id] == snap.(notified := true) && SameQueues(s, t))
  {
  }

  /** An abort marks the task cancelled as well, unless it is complete or was cancelled before. */
  lemma AbortDoes(s: Sched, id: Id, remote: bool)
    ensures id !in s.tasks ==> Perform(s, Abort(id, remote)) == s
    ensures id in s.tasks ==>
      var (t, snap) := (Perform(s, Abort(id, remote)), s.tasks[id]);
      && OthersSame(s, t, id)
      && (snap.complete || snap.cancelled ==> t == s)
      && (!snap.complete && !snap.cancelled ==> t.tasks[id].cancelled && t.tasks[id].notified)
      && (!snap.complete && !snap.cancelled && !snap.running && !snap.notified ==>
            t.tasks[id].refs == snap.refs + 1 && PushedTo(s, t, id, remote))
      && (snap.running || snap.notified ==> t.tasks[id].refs == snap.refs && SameQueues(s, t))
  {
  }

  /** A spawned task is idle and NOTIFIED, holds three references, and has its entry in the queue. */
  lemma SpawnDoes(s: Sched, id: Id, remote: bool)
    ensures id in s.tasks ==> Perform(s, Spawn(id, remote)) == s
    ensures id !in s.tasks ==>
      var t := Perform(s, Spawn(id, remote));
      && OthersSame(s, t, id) && PushedTo(s, t, id, remote)
      && t.tasks[id] == Snapshot(false, false, true, true, false, false, 3)
  {
  }

  // ----- one poll -----

  /**
   How a poll ends.  A task whose future is ready, or that was cancelled before or during the poll, is
   complete; any other is idle again, and if it was woken meanwhile it is at the back of the local queue.
   */
  lemma RunEnds(s: Sched, e: Effect)
    requires SchedOk(s, {}) && Picked(s).Some?
    ensures Picked(s).value in s.tasks
    ensures var id := Picked(s).value;
      var u := PerformAll(SetTask(Take(s), id, ToRunning(s.tasks[id]).0), e.ops);
      var t := RunTaken(s, e);
      && id in t.tasks && id in u.tasks && !t.tasks[id].running
      && (s.tasks[id].cancelled || e.ready || u.tasks[id].cancelled ==> t.tasks[id].complete)
      && (!s.tasks[id].cancelled && !e.ready && !u.tasks[id].cancelled ==>
            && !t.tasks[id].complete
            && t.tasks[id].notified == u.tasks[id].notified
            && t.shared == u.shared && t.local == u.local + if u.tasks[id].notified then [id] else [])
  {
    hide SchedOk, PerformAll, Picked, Take;
    TakenOk(s);
    var id := Picked(s).value;
    var t0 := SetTask(Take(s), id, ToRunning(s.tasks[id]).0);
    OpsAppend(t0, e.ops);
    var u := PerformAll(t0, e.ops);
    if s.tasks[id].cancelled {
      FinishEnds(t0, id, e);
    } else if e.ready || u.tasks[id].cancelled {
      FinishEnds(u, id, e);
    }
    hide Finish;
  }

  lemma FinishEnds(s: Sched, id: Id, e: Effect)
    requires id in s.tasks && s.tasks[id].running && !s.tasks[id].complete
    ensures var t := Finish(s, id, e); id in t.tasks && t.tasks[id].complete && !t.tasks[id].running
  {
    hide PerformAll;
    OpsAppend(s, e.dropped);
    var u := PerformAll(s, e.dropped);
    OpsAppend(SetTask(u, id, ToComplete(u.tasks[id])), e.after);
  }

  // ----- a woken task is run -----

  /** The task is complete, or will be run. */
  predicate Marked(s: Sched, id: Id) { id in s.tasks && (s.tasks[id].complete || s.tasks[id].notified) }

  predicate HasWake(ops: seq<Op>, id: Id) { exists i | 0 <= i < |ops| :: ops[i].Wake? && ops[i].id == id }

  predicate HasSpawn(ops: seq<Op>, id: Id) { exists i | 0 <= i < |ops| :: ops[i].Spawn? && ops[i].id == id }

  /** Among the operations is one that wakes the task, or spawns it. */
  predicate Summons(s: Sched, ops: seq<Op>, id: Id) { if id in s.tasks then HasWake(ops, id) else HasSpawn(ops, id) }

  lemma OpMarks(s: Sched, op: Op, id: Id)
    ensures var t := Perform(s, op);
      && (Marked(s, id) || Summons(s, [op], id) ==> Marked(t, id))
      && (id in t.tasks <==> id in s.tasks || HasSpawn([op], id))
  {
    if HasSpawn([op], id) { assert op.Spawn? && op.id == id; }
    if HasWake([op], id) { assert op.Wake? && op.id == id; }
    assert op.Spawn? && op.id == id ==> [op][0].Spawn? && HasSpawn([op], id);
  }

  lemma FirstOf(ops: seq<Op>, id: Id)
    requires ops != []
    ensures HasWake(ops, id) <==> HasWake([ops[0]], id) || HasWake(ops[1..], id)
    ensures HasSpawn(ops, id) <==> HasSpawn([ops[0]], id) || HasSpawn(ops[1..], id)
  {
    assert forall i | 0 < i < |ops| :: ops[1..][i - 1] == ops[i];
    assert [ops[0]][0] == ops[0];
  }

  /** Whoever is woken or spawned is marked at the end, and only spawned tasks are new. */
  lemma {:induction false} OpsMark(s: Sched, ops: seq<Op>, id: Id)
    ensures var t := PerformAll(s, ops);
      && (Marked(s, id) || Summons(s, ops, id) ==> Marked(t, id))
      && (id in t.tasks <==> id in s.tasks || HasSpawn(ops, id))
    decreases |ops|
  {
    hide Perform, HasWake, HasSpawn;
    if ops != [] {
      OpMarks(s, ops[0], id);
      FirstOf(ops, id);
      OpsMark(Perform(s, ops[0]), ops[1..], id);
    } else {
      NobodyIn(id);
    }
  }

  lemma NobodyIn(id: Id)
    ensures !HasWake([], id) && !HasSpawn([], id)
  {
  }

  /** Marking by two lists of operations in a row, whatever else happens to the picked task in between. */
  lemma BothMark(s: Sched, first: seq<Op>, u: Sched, second: seq<Op>, id: Id)
    requires id in u.tasks <==> id in PerformAll(s, first).tasks
    requires Marked(PerformAll(s, first), id) ==> Marked(u, id)
    ensures Marked(s, id) || Summons(s, first, id) || Summons(s, second, id) ==> Marked(PerformAll(u, second), id)
  {
    hide HasWake, HasSpawn, PerformAll;
    OpsMark(s, first, id);
    OpsMark(u, second, id);
  }

  lemma FinishMarks(s: Sched, picked: Id, e: Effect, id: Id)
    requires picked in s.tasks && s.tasks[picked].running && !s.tasks[picked].complete
    ensures var t := Finish(s, picked, e);
      && (Marked(s, id) || Summons(s, e.dropped, id) || Summons(s, e.after, id) ==> Marked(t, id))
      && (id in s.tasks ==> id in t.tasks)
  {
    hide PerformAll, Summons;
    OpsAppend(s, e.dropped);
    var u := PerformAll(s, e.dropped);
    var v := SetTask(u, picked, ToComplete(u.tasks[picked]));
    BothMark(s, e.dropped, v, e.after, id);
    OpsAppend(v, e.after);
  }

  /** What is left to do after the poll proper keeps every mark. */
  lemma ParkMarks(s: Sched, picked: Id, e: Effect, id: Id)
    requires picked in s.tasks && s.tasks[picked].running && !s.tasks[picked].complete && s.tasks[picked].refs > 0
    requires Marked(s, id)
    ensures Marked(Park(s, picked, e), id)
  {
    if s.tasks[picked].cancelled { FinishMarks(s, picked, e, id); }
    hide Finish;
  }

  /** The poll that a pass runs wakes or spawns the task, and the task exists by then. */
  predicate WokenBy(s: Sched, picked: Id, e: Effect, id: Id)
    requires picked in s.tasks
  {
    if s.tasks[picked].cancelled then Summons(s, e.dropped, id) || Summons(s, e.after, id)
    else Summons(s, e.ops, id) || (e.ready && (Summons(s, e.dropped, id) || Summons(s, e.after, id)))
  }

  lemma RunMarks(s: Sched, e: Effect, id: Id)
    requires SchedOk(s, {}) && Picked(s).Some? && Picked(s).value in s.tasks && WokenBy(s, Picked(s).value, e, id)
    ensures Marked(RunTaken(s, e), id)
  {
    hide SchedOk, PerformAll, Picked, Take, HasWake, HasSpawn, Finish, Park;
    TakenOk(s);
    var picked := Picked(s).value;
    var t := SetTask(Take(s), picked, ToRunning(s.tasks[picked]).0);
    if s.tasks[picked].cancelled {
      FinishMarks(t, picked, e, id);
    } else {
      OpsAppend(t, e.ops);
      OpsMark(t, e.ops, id);
      var u := PerformAll(t, e.ops);
      if e.ready { FinishMarks(u, picked, e, id); } else { ParkMarks(u, picked, e, id); }
    }
  }

  /** A task that is marked and not complete has its entry, at some place of one of the queues. */
  lemma MarkedIsQueued(s: Sched, id: Id)
    requires SchedOk(s, {}) && Marked(s, id) && !s.tasks[id].complete
    ensures id in s.shared || id in s.local
  {
    assert TaskOk(s.tasks[id], Queued(s)[id], id in {});
    assert Queued(s)[id] == 1;
    assert id in multiset(s.local) || id in multiset(s.shared);
  }

  lemma MarkedIsPicked(p: Progress, script: seq<Effect>, id: Id) returns (k: nat)
    requires ProgressOk(p) && Marked(p.s, id) && !p.s.tasks[id].complete
    ensures k < 5 * |p.s.shared| || k < 3 * |p.s.local|
    ensures Picked(Ticks(p, script, k).s) == Some(id)
  {
    hide SchedOk, Picked, Ticks;
    MarkedIsQueued(p.s, id);
    if id in p.s.shared {
      var j :| 0 <= j < |p.s.shared| && p.s.shared[j] == id;
      k := SharedWait(p, script, j);
    } else {
      var j :| 0 <= j < |p.s.local| && p.s.local[j] == id;
      k := LocalWait(p, script, j);
    }
  }

  /**
   A wake is followed by a run: the task that a pass wakes or spawns is complete after it, or is the one
   picked in some later pass, before five passes for each task in the shared queue or three for each
   in the local one are over.
   */
  lemma WokenIsPicked(p: Progress, script: seq<Effect>, id: Id) returns (k: nat)
    requires ProgressOk(p) && Picked(p.s).Some? && Picked(p.s).value in p.s.tasks
    requires WokenBy(p.s, Picked(p.s).value, EffectAt(script, p.polls), id)
    ensures var q := Tick(p, script);
      && id in q.s.tasks
      && (!q.s.tasks[id].complete ==>
            (k < 5 * |q.s.shared| || k < 3 * |q.s.local|) && Picked(Ticks(p, script, 1 + k).s) == Some(id))
  {
    hide SchedOk, Picked, WokenBy, RunTaken;
    RunMarks(p.s, EffectAt(script, p.polls), id);
    TickOk(p, script);
    var q := Tick(p, script);
    k := 0;
    if !q.s.tasks[id].complete {
      k := MarkedIsPicked(q, script, id);
      TicksAdd(p, script, 1, k);
      assert Ticks(p, script, 1) == q;
    }
  }
}
