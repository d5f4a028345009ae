/**
 The simulation timer (`time/driver/mod.rs`, `time/driver/sleep.rs`).  Time is a number of ticks.  The
 heap is a sequence from which an entry with the least deadline is taken first; which of several equal
 ones is left open by the heap, here it is the first.
 */
module TimeDriver {
  import opened Wrappers

  type Time = nat
  type Id = nat
  type Waker = nat

  datatype Entry = Entry(deadline: Time, waker: Waker, id: Id)

  datatype Driver = Driver(sleeps: seq<Entry>, emitted: Option<Time>)

  // ----- the heap -----

  /** Where the entry with the least deadline is. */
  function Earliest(sleeps: seq<Entry>): (i: nat)
    requires sleeps != []
    ensures i < |sleeps| && forall j | 0 <= j < |sleeps| :: sleeps[i].deadline <= sleeps[j].deadline
  {
    if |sleeps| == 1 then 0
    else
      var n := |sleeps| - 1;
      var i := Earliest(sleeps[..n]);
      assert forall j | 0 <= j < n :: sleeps[..n][j] == sleeps[j];
      if sleeps[n].deadline < sleeps[i].deadline then n else i
  }

  function Without(sleeps: seq<Entry>, i: nat): seq<Entry>
    requires i < |sleeps|
  {
    sleeps[..i] + sleeps[i + 1..]
  }

  predicate Knows(sleeps: seq<Entry>, id: Id) { exists i | 0 <= i < |sleeps| :: sleeps[i].id == id }

  // ----- the driver on values -----

  /** A sleep that is registered already keeps its entry, and with it its first waker. */
  function Registered(d: Driver, id: Id, deadline: Time, waker: Waker): Driver {
    if Knows(d.sleeps, id) then d else d.(sleeps := d.sleeps + [Entry(deadline, waker, id)])
  }

  function ResetEntry(e: Entry, id: Id, deadline: Time): Entry { if e.id == id then e.(deadline := deadline) else e }

  function ResetAll(sleeps: seq<Entry>, id: Id, deadline: Time): seq<Entry> {
    seq(|sleeps|, i requires 0 <= i < |sleeps| => ResetEntry(sleeps[i], id, deadline))
  }

  function WithDeadline(d: Driver, id: Id, deadline: Time): Driver { d.(sleeps := ResetAll(d.sleeps, id, deadline)) }

  /** The least deadline, unless it is what was emitted last. */
  function Emit(d: Driver): (Driver, Option<Time>) {
    if d.sleeps == [] then (d, None)
    else
      var least := d.sleeps[Earliest(d.sleeps)].deadline;
      if d.emitted == Some(least) then (d, None) else (d.(emitted := Some(least)), Some(least))
  }

  /** Entries due now are taken, earliest first, until one is found that is not. */
  function TakeDue(sleeps: seq<Entry>, now: Time): (seq<Entry>, seq<Entry>)
    decreases |sleeps|
  {
    if sleeps == [] || sleeps[Earliest(sleeps)].deadline != now then (sleeps, [])
    else
      var i := Earliest(sleeps);
      var r := TakeDue(Without(sleeps, i), now);
      (r.0, [sleeps[i]] + r.1)
  }

  // ----- the driver as an object -----

  class TimeDriver {
    var sleeps: seq<Entry>
    var emitted: Option<Time>

    ghost function View(): Driver
      reads this
    {
      Driver(sleeps, emitted)
    }

    constructor ()
      ensures View() == Driver([], None)
    {
      sleeps, emitted := [], None;
    }

    /** `Sleep::poll`: ready once the deadline is reached, registered with the driver before. */
    method PollSleep(id: Id, deadline: Time, waker: Waker, now: Time) returns (ready: bool)
      modifies `sleeps
      ensures ready <==> deadline <= now
      ensures View() == if ready then old(View()) else Registered(old(View()), id, deadline, waker)
    {
      ready := deadline <= now;
      if !ready {
        WakeSleeper(id, deadline, waker, now);
      }
    }

    method WakeSleeper(id: Id, deadline: Time, waker: Waker, now: Time)
      requires deadline >= now
      modifies `sleeps
      ensures View() == Registered(old(View()), id, deadline, waker)
    {
      for i := 0 to |sleeps|
        invariant forall j | 0 <= j < i :: sleeps[j].id != id
      {
        if sleeps[i].id == id { return; }
      }
      sleeps := sleeps + [Entry(deadline, waker, id)];
    }

    /** The heap is drained, the entry changed, and the heap rebuilt. */
    method ResetSleeper(id: Id, deadline: Time)
      modifies `sleeps
      ensures View() == WithDeadline(old(View()), id, deadline)
    {
      var drained: seq<Entry> := [];
      for i := 0 to |sleeps|
        invariant drained == ResetAll(sleeps[..i], id, deadline)
      {
        assert sleeps[..i + 1] == sleeps[..i] + [sleeps[i]];
        drained := drained + [ResetEntry(sleeps[i], id, deadline)];
      }
      assert sleeps[..|sleeps|] == sleeps;
      sleeps := drained;
    }

    method Peek() returns (i: nat)
      requires sleeps != []
      ensures i == Earliest(sleeps)
    {
      i := 0;
      for k := 1 to |sleeps|
        invariant i == Earliest(sleeps[..k])
      {
        assert sleeps[..k + 1][..k] == sleeps[..k];
        if sleeps[k].deadline < sleeps[i].deadline { i := k; }
      }
      assert sleeps[..|sleeps|] == sleeps;
    }

    method NextWakeup() returns (emit: Option<Time>)
      modifies `emitted
      ensures (View(), emit) == Emit(old(View()))
    {
      if sleeps == [] { return None; }
      var i := Peek();
      var least := sleeps[i].deadline;
      if emitted == Some(least) { return None; }
      emitted := Some(least);
      emit := Some(least);
    }

    method TakeTimestep(now: Time) returns (due: seq<Entry>)
      modifies `sleeps
      ensures (sleeps, due) == TakeDue(old(sleeps), now)
    {
      due := [];
      assert due + TakeDue(sleeps, now).1 == TakeDue(sleeps, now).1;
      while sleeps != []
        invariant TakeDue(sleeps, now).0 == TakeDue(old(sleeps), now).0
        invariant due + TakeDue(sleeps, now).1 == TakeDue(old(sleeps), now).1
        decreases |sleeps|
      {
        var i := Peek();
        if sleeps[i].deadline != now { break; }
        ghost var rest := TakeDue(Without(sleeps, i), now).1;
        assert due + ([sleeps[i]] + rest) == due + [sleeps[i]] + rest;
        due := due + [sleeps[i]];
        sleeps := Without(sleeps, i);
      }
      assert due + [] == due;
    }
  }
}
