/**
 Simulation runs of the timer.  An outer simulation holds a collection of pending events, some its own
 and some emitted by the driver, and moves time to the earliest of them.  At each it wakes the sleepers
 due, runs the tasks, and asks the driver for the next wakeup to add.
 */
module TimerRuns {
  import opened Wrappers
  import opened TimeDriver

  /** `woken` are the entries taken at the event processed last. */
  datatype Sim = Sim(now: Time, pending: multiset<Time>, driver: Driver, woken: seq<Entry>)

  /** What tasks and the outer simulation do while an event is processed. */
  datatype Op =
    | Sleep(id: Id, deadline: Time, waker: Waker)
    | Reset(id: Id, deadline: Time)
    | Schedule(at: Time)

  /**
   Events lie in the future, and so does what a registered sleep is reset to.  A sleep that is not
   registered, such as the elapsed one of an interval, may be reset to any time.
   */
  predicate CanDo(s: Sim, op: Op) {
    match op
    case Sleep(_, _, _) => true
    case Reset(id, deadline) => deadline > s.now || !Knows(s.driver.sleeps, id)
    case Schedule(at) => at >= s.now
  }

  function Do(s: Sim, op: Op): Sim {
    match op
    case Sleep(id, deadline, waker) => if deadline <= s.now then s else s.(driver := Registered(s.driver, id, deadline, waker))
    case Reset(id, deadline) => s.(driver := WithDeadline(s.driver, id, deadline))
    case Schedule(at) => s.(pending := s.pending + multiset{at})
  }

  function DoAll(s: Sim, ops: seq<Op>): Sim
    decreases |ops|
  {
    if ops == [] then s else DoAll(Do(s, ops[0]), ops[1..])
  }

  predicate CanDoAll(s: Sim, ops: seq<Op>)
    decreases |ops|
  {
    ops == [] || (CanDo(s, ops[0]) && CanDoAll(Do(s, ops[0]), ops[1..]))
  }

  /** Time moves to `t` and the sleepers due are woken. */
  function Arrive(s: Sim, t: Time): Sim {
    var due := TakeDue(s.driver.sleeps, t);
    Sim(t, s.pending - multiset{t}, s.driver.(sleeps := due.0), due.1)
  }

  function EmitNext(s: Sim): Sim {
    var e := Emit(s.driver);
    s.(driver := e.0, pending := if e.1.Some? then s.pending + multiset{e.1.value} else s.pending)
  }

  /** One event: time, wakes, tasks, next wakeup. */
  function Process(s: Sim, t: Time, ops: seq<Op>): Sim { EmitNext(DoAll(Arrive(s, t), ops)) }

  predicate IsEarliest(pending: multiset<Time>, t: Time) { t in pending && forall u | u in pending :: t <= u }

  ghost predicate IsRun(states: seq<Sim>, times: seq<Time>, ops: seq<seq<Op>>) {
    && |states| == |times| + 1 == |ops| + 1
    && states[0].driver == Driver([], None)
    && (forall u | u in states[0].pending :: states[0].now <= u)
    && forall i {:trigger times[i]} :: 0 <= i < |times| ==>
         && IsEarliest(states[i].pending, times[i])
         && CanDoAll(Arrive(states[i], times[i]), ops[i])
         && states[i + 1] == Process(states[i], times[i], ops[i])
  }

  // ----- the invariant -----

  predicate Unique(sleeps: seq<Entry>) {
    forall i, j :: 0 <= i < j < |sleeps| ==> sleeps[i].id != sleeps[j].id
  }

  predicate After(sleeps: seq<Entry>, now: Time) { forall i | 0 <= i < |sleeps| :: sleeps[i].deadline > now }

  /** A wakeup that was emitted and lies ahead is still pending. */
  ghost predicate EmittedOk(emitted: Option<Time>, now: Time, pending: multiset<Time>) {
    && (emitted.Some? && emitted.value > now ==> emitted.value in pending)
    && forall u | u in pending :: now <= u
  }

  /** While an event is processed. */
  ghost predicate Busy(s: Sim) {
    Unique(s.driver.sleeps) && After(s.driver.sleeps, s.now) && EmittedOk(s.driver.emitted, s.now, s.pending)
  }

  /** Between events: the least deadline is covered by a pending event. */
  ghost predicate Inv(s: Sim) {
    && Busy(s)
    && (s.driver.sleeps != [] ==> s.driver.sleeps[Earliest(s.driver.sleeps)].deadline in s.pending)
  }

  // ----- taking what is due -----

  lemma {:induction false} TakesExactlyDue(sleeps: seq<Entry>, now: Time)
    requires Unique(sleeps) && forall i | 0 <= i < |sleeps| :: sleeps[i].deadline >= now
    ensures var (rest, due) := TakeDue(sleeps, now);
      && Unique(rest) && After(rest, now)
      && (forall e :: e in rest <==> e in sleeps && e.deadline > now)
      && (forall e :: e in due <==> e in sleeps && e.deadline == now)
    decreases |sleeps|
  {
    if sleeps == [] {
    } else if sleeps[Earliest(sleeps)].deadline != now {
      assert After(sleeps, now);
    } else {
      var i := Earliest(sleeps);
      var rest := Without(sleeps, i);
      assert forall k | 0 <= k < |rest| :: rest[k] == (if k < i then sleeps[k] else sleeps[k + 1]);
      forall e ensures e in sleeps <==> e == sleeps[i] || e in rest {
        if e in sleeps && e != sleeps[i] {
          var k :| 0 <= k < |sleeps| && sleeps[k] == e;
          assert rest[if k < i then k else k - 1] == e;
        }
      }
      TakesExactlyDue(rest, now);
    }
  }

  lemma ArriveOk(s: Sim, t: Time)
    requires Inv(s) && IsEarliest(s.pending, t)
    ensures Busy(Arrive(s, t)) && s.now <= t
    ensures forall e :: e in Arrive(s, t).driver.sleeps <==> e in s.driver.sleeps && e.deadline > t
    ensures forall e :: e in Arrive(s, t).woken <==> e in s.driver.sleeps && e.deadline == t
  {
    if s.driver.sleeps != [] {
      var least := s.driver.sleeps[Earliest(s.driver.sleeps)].deadline;
      assert t <= least;
    }
    TakesExactlyDue(s.driver.sleeps, t);
  }

  lemma DoOk(s: Sim, op: Op)
    requires Busy(s) && CanDo(s, op)
    ensures Busy(Do(s, op))
  {
  }

  lemma {:induction false} DoAllOk(s: Sim, ops: seq<Op>)
    requires Busy(s) && CanDoAll(s, ops)
    ensures Busy(DoAll(s, ops)) && DoAll(s, ops).now == s.now && DoAll(s, ops).woken == s.woken
    decreases |ops|
  {
    if ops != [] {
      DoOk(s, ops[0]);
      DoAllOk(Do(s, ops[0]), ops[1..]);
    }
  }

  /** Deduplication is safe: a wakeup is left out only if the same one is pending. */
  lemma EmitOk(s: Sim)
    requires Busy(s)
    ensures Inv(EmitNext(s)) && EmitNext(s).now == s.now && EmitNext(s).woken == s.woken
    ensures EmitNext(s).driver.sleeps == s.driver.sleeps
  {
  }

  lemma ProcessOk(s: Sim, t: Time, ops: seq<Op>)
    requires Inv(s) && IsEarliest(s.pending, t) && CanDoAll(Arrive(s, t), ops)
    ensures Inv(Process(s, t, ops)) && Process(s, t, ops).now == t && Process(s, t, ops).woken == Arrive(s, t).woken
  {
    hide Inv, Busy, Emit, Arrive;
    ArriveOk(s, t);
    ArriveNow(s, t);
    DoAllOk(Arrive(s, t), ops);
    EmitOk(DoAll(Arrive(s, t), ops));
  }

  lemma ArriveNow(s: Sim, t: Time)
    ensures Arrive(s, t).now == t
  {
  }

  lemma {:induction false} RunOk(states: seq<Sim>, times: seq<Time>, ops: seq<seq<Op>>, i: nat)
    requires IsRun(states, times, ops) && i < |states|
    ensures Inv(states[i])
  {
    if i > 0 {
      RunOk(states, times, ops, i - 1);
      ProcessOk(states[i - 1], times[i - 1], ops[i - 1]);
    }
    hide Process;
  }

  // ----- every sleeper is woken at its deadline -----

  predicate Resets(ops: seq<Op>, id: Id) { exists i | 0 <= i < |ops| :: ops[i].Reset? && ops[i].id == id }

  lemma DoKeepsEntry(s: Sim, op: Op, e: Entry)
    requires e in s.driver.sleeps && !(op.Reset? && op.id == e.id)
    ensures e in Do(s, op).driver.sleeps
  {
    var i :| 0 <= i < |s.driver.sleeps| && s.driver.sleeps[i] == e;
    if op.Reset? {
      assert Do(s, op).driver.sleeps[i] == e;
    }
  }

  lemma {:induction false} DoAllKeepsEntry(s: Sim, ops: seq<Op>, e: Entry)
    requires e in s.driver.sleeps && !Resets(ops, e.id)
    ensures e in DoAll(s, ops).driver.sleeps
    decreases |ops|
  {
    if ops != [] {
      DoKeepsEntry(s, ops[0], e);
      assert !Resets(ops[1..], e.id) by {
        assert forall i | 0 <= i < |ops| - 1 :: ops[1..][i] == ops[i + 1];
      }
      DoAllKeepsEntry(Do(s, ops[0]), ops[1..], e);
    }
  }

  /** One event: an entry that is not reset is woken if its deadline has come, and otherwise stays. */
  lemma ProcessServes(s: Sim, t: Time, ops: seq<Op>, e: Entry)
    requires Inv(s) && IsEarliest(s.pending, t) && CanDoAll(Arrive(s, t), ops)
    requires e in s.driver.sleeps && !Resets(ops, e.id)
    ensures var n := Process(s, t, ops);
      n.now == t <= e.deadline && (if e.deadline == t then e in n.woken else e in n.driver.sleeps)
  {
    hide Emit, TakeDue, DoAll, Resets;
    ArriveOk(s, t);
    ProcessOk(s, t, ops);
    DeadlineAhead(s, t, e);
    if e.deadline > t {
      DoAllKeepsEntry(Arrive(s, t), ops, e);
      EmitOk(DoAll(Arrive(s, t), ops)) by { DoAllOk(Arrive(s, t), ops); }
    }
  }

  lemma DeadlineAhead(s: Sim, t: Time, e: Entry)
    requires Inv(s) && IsEarliest(s.pending, t) && e in s.driver.sleeps
    ensures t <= e.deadline
  {
    var i :| 0 <= i < |s.driver.sleeps| && s.driver.sleeps[i] == e;
    assert s.driver.sleeps[Earliest(s.driver.sleeps)].deadline <= s.driver.sleeps[i].deadline;
  }

  /**
   Every sleeper is woken exactly at its deadline: while time is before it the entry is registered, and
   once time has reached it there was an event at that very time at which the entry was woken.
   */
  lemma {:induction false} WokenAtDeadline(states: seq<Sim>, times: seq<Time>, ops: seq<seq<Op>>, i: nat, j: nat, e: Entry)
    returns (k: nat)
    requires IsRun(states, times, ops) && i <= j < |states| && e in states[i].driver.sleeps
    requires forall n {:trigger ops[n]} :: i <= n < j ==> !Resets(ops[n], e.id)
    ensures states[j].now < e.deadline ==> e in states[j].driver.sleeps
    ensures states[j].now >= e.deadline ==> i < k <= j && states[k].now == e.deadline && e in states[k].woken
    decreases j - i
  {
    k := 0;
    RunOk(states, times, ops, i);
    if i == j {
      StillAhead(states[i], e);
    } else {
      ProcessServes(states[i], times[i], ops[i], e);
      RunOk(states, times, ops, i + 1);
      if e.deadline == times[i] {
        k := i + 1;
        TimeMovesOn(states, times, ops, i + 1, j);
      } else {
        k := WokenAtDeadline(states, times, ops, i + 1, j, e);
      }
    }
    hide Process;
  }

  // ----- from the call to the wake -----

  /** Polling a sleep registers it with its deadline and waker, unless it is registered already; nobody else is touched. */
  lemma SleepRegisters(s: Sim, id: Id, deadline: Time, waker: Waker)
    ensures var t := Do(s, Sleep(id, deadline, waker));
      && t.now == s.now && t.pending == s.pending
      && (deadline > s.now && !Knows(s.driver.sleeps, id) ==> t.driver.sleeps == s.driver.sleeps + [Entry(deadline, waker, id)])
      && (deadline <= s.now || Knows(s.driver.sleeps, id) ==> t == s)
  {
  }

  /** A reset gives the entry of that sleep the new deadline and leaves its waker, and leaves all others. */
  lemma ResetMoves(s: Sim, id: Id, deadline: Time)
    ensures var t := Do(s, Reset(id, deadline));
      && t.now == s.now && t.pending == s.pending && |t.driver.sleeps| == |s.driver.sleeps|
      && forall i | 0 <= i < |s.driver.sleeps| ::
           t.driver.sleeps[i] == if s.driver.sleeps[i].id == id then Entry(deadline, s.driver.sleeps[i].waker, id) else s.driver.sleeps[i]
  {
  }

  lemma {:induction false} DoAllSplits(s: Sim, ops: seq<Op>, m: nat)
    requires m <= |ops|
    ensures DoAll(s, ops) == DoAll(DoAll(s, ops[..m]), ops[m..])
    decreases |ops|
  {
    if m == 0 {
      assert ops[..0] == [] && ops[0..] == ops;
    } else {
      DoAllSplits(Do(s, ops[0]), ops[1..], m - 1);
      assert ops[..m][1..] == ops[1..][..m - 1];
      assert ops[m..] == ops[1..][m - 1..];
    }
  }

  /** The entry this operation makes or moves. */
  ghost predicate Makes(s: Sim, op: Op, e: Entry) {
    match op
    case Sleep(id, deadline, waker) => e == Entry(deadline, waker, id) && deadline > s.now && !Knows(s.driver.sleeps, id)
    case Reset(id, deadline) => e.id == id && e.deadline == deadline && exists f :: f in s.driver.sleeps && f.id == id && f.waker == e.waker
    case Schedule(_) => false
  }

  lemma MakesEntry(s: Sim, op: Op, e: Entry)
    requires Makes(s, op, e)
    ensures e in Do(s, op).driver.sleeps
  {
    match op {
      case Sleep(id, deadline, waker) => SleepRegisters(s, id, deadline, waker);
      case Reset(id, deadline) =>
        ResetMoves(s, id, deadline);
        var f :| f in s.driver.sleeps && f.id == id && f.waker == e.waker;
        var i :| 0 <= i < |s.driver.sleeps| && s.driver.sleeps[i] == f;
        assert Do(s, op).driver.sleeps[i] == e;
      case _ =>
    }
  }

  /** The entry that the m-th operation of an event makes is registered when the event is over. */
  lemma MadeStays(s: Sim, t: Time, ops: seq<Op>, m: nat, e: Entry)
    requires m < |ops| && Makes(DoAll(Arrive(s, t), ops[..m]), ops[m], e) && !Resets(ops[m + 1..], e.id)
    ensures e in Process(s, t, ops).driver.sleeps
  {
    hide Do, Arrive, Emit;
    var a := Arrive(s, t);
    DoAllSplits(a, ops, m);
    var b := DoAll(a, ops[..m]);
    MakesEntry(b, ops[m], e);
    assert ops[m..][0] == ops[m] && ops[m..][1..] == ops[m + 1..];
    DoAllKeepsEntry(Do(b, ops[m]), ops[m + 1..], e);
    EmitKeepsSleeps(DoAll(a, ops).driver);
  }

  /**
   From the call to the wake: a task that goes to sleep during event i, or whose sleep is reset to a later
   time, and that is not reset after that, is woken by its own waker, by an event at exactly that time.
   */
  lemma SleeperIsWoken(states: seq<Sim>, times: seq<Time>, ops: seq<seq<Op>>, i: nat, m: nat, j: nat, e: Entry) returns (k: nat)
    requires IsRun(states, times, ops) && i < j < |states|
    requires m < |ops[i]| && Makes(DoAll(Arrive(states[i], times[i]), ops[i][..m]), ops[i][m], e) && !Resets(ops[i][m + 1..], e.id)
    requires forall n {:trigger ops[n]} :: i < n < j ==> !Resets(ops[n], e.id)
    ensures states[j].now < e.deadline ==> e in states[j].driver.sleeps
    ensures states[j].now >= e.deadline ==> i + 1 < k <= j && states[k].now == e.deadline && e in states[k].woken
  {
    MadeStays(states[i], times[i], ops[i], m, e);
    k := WokenAtDeadline(states, times, ops, i + 1, j, e);
    hide Process, Makes;
  }

  lemma StillAhead(s: Sim, e: Entry)
    requires Inv(s) && e in s.driver.sleeps
    ensures s.now < e.deadline
  {
  }

  lemma {:induction false} TimeMovesOn(states: seq<Sim>, times: seq<Time>, ops: seq<seq<Op>>, i: nat, j: nat)
    requires IsRun(states, times, ops) && i <= j < |states|
    ensures states[i].now <= states[j].now
  {
    if i < j {
      TimeMovesOn(states, times, ops, i, j - 1);
      RunOk(states, times, ops, j - 1);
      ArriveOk(states[j - 1], times[j - 1]);
      ProcessOk(states[j - 1], times[j - 1], ops[j - 1]);
    }
    hide Process, Arrive;
  }

  /** Nobody is woken early or late. */
  lemma NeverEarly(states: seq<Sim>, times: seq<Time>, ops: seq<seq<Op>>, i: nat, e: Entry)
    requires IsRun(states, times, ops) && 0 < i < |states| && e in states[i].woken
    ensures e.deadline == states[i].now
  {
    RunOk(states, times, ops, i - 1);
    ArriveOk(states[i - 1], times[i - 1]);
    ProcessOk(states[i - 1], times[i - 1], ops[i - 1]);
    hide Process, Arrive;
  }

  /** While anybody sleeps, the least deadline is a pending event: time cannot move past it unnoticed. */
  lemma LeastDeadlineCovered(states: seq<Sim>, times: seq<Time>, ops: seq<seq<Op>>, i: nat)
    requires IsRun(states, times, ops) && i < |states| && states[i].driver.sleeps != []
    ensures states[i].driver.sleeps[Earliest(states[i].driver.sleeps)].deadline in states[i].pending
    ensures After(states[i].driver.sleeps, states[i].now)
  {
    RunOk(states, times, ops, i);
    hide IsRun;
  }

  // ----- resets that do not lie in the future -----

  /**
   Resetting a registered sleep to the present moment or to the past makes it the entry that is due next,
   and gets it an event exactly if that moment is pending anyway or is not what was emitted last;
   otherwise the deduplication swallows the wakeup.
   */
  lemma LateResetExactly(s: Sim, id: Id, deadline: Time)
    requires Busy(s) && Knows(s.driver.sleeps, id) && deadline <= s.now
    ensures var t := EmitNext(Do(s, Reset(id, deadline)));
      && t.driver.sleeps != [] && t.driver.sleeps[Earliest(t.driver.sleeps)].deadline == deadline
      && (deadline in t.pending <==> deadline in s.pending || s.driver.emitted != Some(deadline))
  {
    var d := WithDeadline(s.driver, id, deadline);
    var i :| 0 <= i < |s.driver.sleeps| && s.driver.sleeps[i].id == id;
    assert d.sleeps[i].deadline == deadline;
    assert d.sleeps[Earliest(d.sleeps)].deadline <= d.sleeps[i].deadline;
  }

  /** With its event, a sleep reset to the present moment is woken at that moment. */
  lemma LateResetServed(s: Sim, id: Id)
    requires Busy(s) && Knows(s.driver.sleeps, id)
    ensures var t := EmitNext(Do(s, Reset(id, s.now)));
      Knows(Arrive(t, s.now).woken, id)
  {
    hide TakeDue, Emit;
    var d := WithDeadline(s.driver, id, s.now);
    EmitKeepsSleeps(d);
    ResetToNowIsDue(s, id);
    TakesExactlyDue(d.sleeps, s.now);
    var e :| e in d.sleeps && e.deadline == s.now && e.id == id;
    var due := TakeDue(d.sleeps, s.now).1;
    var k :| 0 <= k < |due| && due[k] == e;
  }

  lemma EmitKeepsSleeps(d: Driver)
    ensures Emit(d).0.sleeps == d.sleeps
  {
  }

  lemma ResetToNowIsDue(s: Sim, id: Id)
    requires Busy(s) && Knows(s.driver.sleeps, id)
    ensures var sleeps := ResetAll(s.driver.sleeps, id, s.now);
      && Unique(sleeps) && (forall i | 0 <= i < |sleeps| :: sleeps[i].deadline >= s.now)
      && exists e :: e in sleeps && e.deadline == s.now && e.id == id
  {
    var i :| 0 <= i < |s.driver.sleeps| && s.driver.sleeps[i].id == id;
    assert ResetAll(s.driver.sleeps, id, s.now)[i] in ResetAll(s.driver.sleeps, id, s.now);
  }

  /** An entry whose deadline has passed blocks the driver: no later event wakes anybody, and the entry stays. */
  lemma PastEntryBlocks(s: Sim, t: Time, e: Entry)
    requires e in s.driver.sleeps && e.deadline < t
    ensures Arrive(s, t).woken == [] && Arrive(s, t).driver == s.driver
  {
    var i :| 0 <= i < |s.driver.sleeps| && s.driver.sleeps[i] == e;
    assert s.driver.sleeps[Earliest(s.driver.sleeps)].deadline <= s.driver.sleeps[i].deadline;
  }

  const START: Sim := Sim(0, multiset{0}, Driver([], None), [])

  /** At 0 two tasks go to sleep, one until 5 and one until 9. */
  lemma TwoGoToSleep(v: Waker, w: Waker)
    ensures var ops := [Sleep(1, 5, v), Sleep(2, 9, w)];
      && CanDoAll(Arrive(START, 0), ops)
      && Process(START, 0, ops) == Sim(0, multiset{5}, Driver([Entry(5, v, 1), Entry(9, w, 2)], Some(5)), [])
  {
    hide Emit, TakeDue;
    var ops := [Sleep(1, 5, v), Sleep(2, 9, w)];
    var a := Sim(0, multiset{}, Driver([], None), []);
    assert Arrive(START, 0) == a by { NothingDue([], 0); }
    var b := Do(a, ops[0]);
    assert b.driver.sleeps == [Entry(5, v, 1)];
    assert !Knows(b.driver.sleeps, 2);
    var c := Do(b, ops[1]);
    assert c.driver.sleeps == [Entry(5, v, 1), Entry(9, w, 2)];
    assert ops[1..] == [ops[1]] && ops[1..][1..] == [];
    assert DoAll(c, []) == c && CanDoAll(c, []);
    assert DoAll(b, ops[1..]) == c && CanDoAll(b, ops[1..]);
    EmitsFirst(c.driver);
  }

  lemma NothingDue(sleeps: seq<Entry>, now: Time)
    requires forall i | 0 <= i < |sleeps| :: sleeps[i].deadline > now
    ensures TakeDue(sleeps, now) == (sleeps, [])
  {
  }

  lemma EmitsFirst(d: Driver)
    requires d.sleeps != [] && d.emitted != Some(d.sleeps[0].deadline)
    requires forall i | 0 < i < |d.sleeps| :: d.sleeps[0].deadline < d.sleeps[i].deadline
    ensures Emit(d) == (d.(emitted := Some(d.sleeps[0].deadline)), Some(d.sleeps[0].deadline))
  {
  }

  /** At 5 the first of them is woken and the second is reset to 5. */
  lemma OneIsReset(v: Waker, w: Waker)
    ensures Process(Sim(0, multiset{5}, Driver([Entry(5, v, 1), Entry(9, w, 2)], Some(5)), []), 5, [Reset(2, 5)])
            == Sim(5, multiset{}, Driver([Entry(5, w, 2)], Some(5)), [Entry(5, v, 1)])
  {
    hide TakeDue;
    var s := Sim(0, multiset{5}, Driver([Entry(5, v, 1), Entry(9, w, 2)], Some(5)), []);
    TakesTheFirst(Entry(5, v, 1), Entry(9, w, 2));
    var a := Arrive(s, 5);
    assert a == Sim(5, multiset{}, Driver([Entry(9, w, 2)], Some(5)), [Entry(5, v, 1)]);
    var b := Do(a, Reset(2, 5));
    assert b.driver.sleeps == [Entry(5, w, 2)];
    assert DoAll(a, [Reset(2, 5)]) == b by { assert [Reset(2, 5)][1..] == []; }
  }

  lemma TakesTheFirst(d: Entry, e: Entry)
    requires d.deadline < e.deadline
    ensures TakeDue([d, e], d.deadline) == ([e], [d])
  {
    var both := [d, e];
    assert Earliest(both) == 0 by { assert both[Earliest(both)].deadline <= both[0].deadline; }
    assert Without(both, 0) == [e];
    NothingDue([e], d.deadline);
    assert [d] + [] == [d];
  }

  /**
   A run after which a sleep is never woken: at 5, when the first of two sleeps has just been woken, the
   second is reset to 5.  It is due, nothing is emitted, and nothing is pending.
   */
  lemma SwallowedWakeup(v: Waker, w: Waker) returns (states: seq<Sim>, t: Sim)
    ensures IsRun(states, [0], [[Sleep(1, 5, v), Sleep(2, 9, w)]])
    ensures IsEarliest(states[1].pending, 5) && t == Process(states[1], 5, [Reset(2, 5)])
    ensures t.now == 5 && t.woken == [Entry(5, v, 1)]
    ensures t.driver == Driver([Entry(5, w, 2)], Some(5)) && t.pending == multiset{}
  {
    hide Process, CanDoAll;
    TwoGoToSleep(v, w);
    OneIsReset(v, w);
    states := [START, Process(START, 0, [Sleep(1, 5, v), Sleep(2, 9, w)])];
    t := Process(states[1], 5, [Reset(2, 5)]);
  }
}
