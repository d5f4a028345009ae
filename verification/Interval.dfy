/** Interval rescheduling (`time/driver/interval.rs`); times and durations are nanoseconds. */
module Interval {
  import opened Wrappers
  import opened Remainders

  type Time = nat

  datatype MissedTickBehavior = Burst | Delay | Skip

  /** Ticks up to this late count as on time. */
  const SLACK: nat := 5_000_000

  function NextTimeout(behavior: MissedTickBehavior, timeout: Time, now: Time, period: nat): Time
    requires period > 0 && timeout <= now
  {
    match behavior
    case Burst => timeout + period
    case Delay => now + period
    case Skip => now + period - (now - timeout) % period
  }

  /** When the tick after the one due at `timeout` is due, if that one is taken at `now`. */
  function NextTick(behavior: MissedTickBehavior, timeout: Time, now: Time, period: nat): Time
    requires period > 0 && timeout <= now
  {
    if now > timeout + SLACK then NextTimeout(behavior, timeout, now, period) else timeout + period
  }

  class Interval {
    var deadline: Time
    var period: nat
    var behavior: MissedTickBehavior

    constructor At(start: Time, period: nat)
      requires period > 0
      ensures deadline == start && this.period == period && behavior == Burst
    {
      deadline, this.period, behavior := start, period, Burst;
    }

    /** `poll_tick`: pending until the deadline, then the tick that was due, with the next one scheduled. */
    method PollTick(now: Time) returns (tick: Option<Time>)
      requires period > 0
      modifies `deadline
      ensures old(deadline) > now ==> tick == None && deadline == old(deadline)
      ensures old(deadline) <= now ==>
        tick == Some(old(deadline)) && deadline == NextTick(behavior, old(deadline), now, period)
    {
      if deadline > now { return None; }
      var timeout := deadline;
      if now > timeout + SLACK {
        match behavior {
          case Burst => deadline := timeout + period;
          case Delay => deadline := now + period;
          case Skip =>
            var late := (now - timeout) % period;
            deadline := now + period - late;
        }
      } else {
        deadline := timeout + period;
      }
      tick := Some(timeout);
    }

    method Reset(now: Time)
      modifies `deadline
      ensures deadline == now + period
    {
      deadline := now + period;
    }
  }

  // ----- the grid -----

  /** `t` is `start` plus a whole number of periods. */
  predicate OnGrid(start: Time, period: nat, t: Time)
    requires period > 0
  {
    start <= t && (t - start) % period == 0
  }

  lemma GridStep(start: Time, period: nat, t: Time, k: nat)
    requires period > 0 && OnGrid(start, period, t)
    ensures OnGrid(start, period, t + period * k)
  {
    ShiftedRemainder(t - start, k, period);
    assert t + period * k - start == (t - start) + period * k;
  }

  /** Skip goes to the first grid point after now, at most one period ahead. */
  lemma SkipLandsAhead(start: Time, period: nat, timeout: Time, now: Time)
    requires period > 0 && OnGrid(start, period, timeout) && timeout <= now
    ensures var next := NextTimeout(Skip, timeout, now, period);
      now < next <= now + period && OnGrid(start, period, next)
    ensures forall t: Time | OnGrid(start, period, t) && t > now :: t >= NextTimeout(Skip, timeout, now, period)
  {
    var next := NextTimeout(Skip, timeout, now, period);
    var q := (now - timeout) / period;
    assert now - timeout == period * q + (now - timeout) % period;
    assert period * (q + 1) == period * q + period;
    assert next == timeout + period * (q + 1);
    GridStep(start, period, timeout, q + 1);
    forall t: Time | OnGrid(start, period, t) && t > now ensures t >= next {
      if t < next { SameRemainder(t - start, next - start, period); }
    }
  }

  // ----- sequences of ticks -----

  /** The deadlines of an interval polled at each of `nows`, and the behavior in force at each. */
  ghost predicate IsRun(deadlines: seq<Time>, nows: seq<Time>, behaviors: seq<MissedTickBehavior>, period: nat) {
    && period > 0
    && |deadlines| == |nows| + 1 == |behaviors| + 1
    && (forall i, j | 0 <= i < j < |nows| :: nows[i] <= nows[j])
    && forall i {:trigger nows[i]} :: 0 <= i < |nows| ==>
         deadlines[i + 1] == if deadlines[i] > nows[i] then deadlines[i] else NextTick(behaviors[i], deadlines[i], nows[i], period)
  }

  /** Each tick is later than the one before it, by a whole number of periods unless it was delayed. */
  lemma NextTickAdvances(start: Time, behavior: MissedTickBehavior, timeout: Time, now: Time, period: nat)
    requires period > 0 && timeout <= now && OnGrid(start, period, timeout)
    ensures NextTick(behavior, timeout, now, period) > timeout
    ensures behavior != Delay ==> OnGrid(start, period, NextTick(behavior, timeout, now, period))
  {
    GridStep(start, period, timeout, 1);
    SkipLandsAhead(start, period, timeout, now);
  }

  /** Without Delay every deadline, and so every tick returned, lies on start + k period, however late the polls. */
  lemma {:induction false} TicksOnGrid(deadlines: seq<Time>, nows: seq<Time>, behaviors: seq<MissedTickBehavior>, period: nat, i: nat)
    requires IsRun(deadlines, nows, behaviors, period) && i < |deadlines|
    requires forall k | 0 <= k < |behaviors| :: behaviors[k] != Delay
    ensures OnGrid(deadlines[0], period, deadlines[i])
  {
    if i > 0 {
      TicksOnGrid(deadlines, nows, behaviors, period, i - 1);
      if deadlines[i - 1] <= nows[i - 1] {
        NextTickAdvances(deadlines[0], behaviors[i - 1], deadlines[i - 1], nows[i - 1], period);
      }
    }
  }

  /** Ticks increase strictly, whatever the behavior: a tick returned is never returned again. */
  lemma {:induction false} TicksIncrease(deadlines: seq<Time>, nows: seq<Time>, behaviors: seq<MissedTickBehavior>, period: nat, i: nat, j: nat)
    requires IsRun(deadlines, nows, behaviors, period) && i < j < |nows|
    requires deadlines[i] <= nows[i] && deadlines[j] <= nows[j]
    ensures deadlines[i] < deadlines[j]
  {
    DeadlinesGrow(deadlines, nows, behaviors, period, i + 1, j);
    StrictStep(behaviors[i], deadlines[i], nows[i], period);
  }

  lemma StrictStep(behavior: MissedTickBehavior, timeout: Time, now: Time, period: nat)
    requires period > 0 && timeout <= now
    ensures NextTick(behavior, timeout, now, period) > timeout
  {
    assert OnGrid(timeout, period, timeout);
    NextTickAdvances(timeout, behavior, timeout, now, period);
  }

  lemma {:induction false} DeadlinesGrow(deadlines: seq<Time>, nows: seq<Time>, behaviors: seq<MissedTickBehavior>, period: nat, i: nat, j: nat)
    requires IsRun(deadlines, nows, behaviors, period) && i <= j < |deadlines|
    ensures deadlines[i] <= deadlines[j]
  {
    if i < j {
      DeadlinesGrow(deadlines, nows, behaviors, period, i, j - 1);
      if deadlines[j - 1] <= nows[j - 1] {
        StrictStep(behaviors[j - 1], deadlines[j - 1], nows[j - 1], period);
      }
    }
  }

  /** A tick taken on time, and under Burst every tick, is followed by the one exactly a period after it. */
  lemma NextIsPeriodLater(behavior: MissedTickBehavior, timeout: Time, now: Time, period: nat)
    requires period > 0 && timeout <= now && (behavior == Burst || now <= timeout + SLACK)
    ensures NextTick(behavior, timeout, now, period) == timeout + period
  {
  }

  /** A tick taken late under Delay is followed by one a period from now. */
  lemma DelayedByPeriod(timeout: Time, now: Time, period: nat)
    requires period > 0 && now > timeout + SLACK
    ensures NextTick(Delay, timeout, now, period) == now + period
  {
  }

  /** How many ticks the first `i` polls returned. */
  ghost function Ticked(deadlines: seq<Time>, nows: seq<Time>, i: nat): nat
    requires i <= |nows| < |deadlines|
  {
    if i == 0 then 0 else Ticked(deadlines, nows, i - 1) + if deadlines[i - 1] <= nows[i - 1] then 1 else 0
  }

  /** Without ticks that are late, or with Burst, none is left out: the k-th tick is the one due k periods after the first. */
  lemma {:induction false} NoTickIsSkipped(deadlines: seq<Time>, nows: seq<Time>, behaviors: seq<MissedTickBehavior>, period: nat, i: nat)
    requires IsRun(deadlines, nows, behaviors, period) && i < |deadlines|
    requires forall k | 0 <= k < |nows| && deadlines[k] <= nows[k] :: behaviors[k] == Burst || nows[k] <= deadlines[k] + SLACK
    ensures deadlines[i] == deadlines[0] + period * Ticked(deadlines, nows, i)
  {
    hide NextTick;
    if i > 0 {
      NoTickIsSkipped(deadlines, nows, behaviors, period, i - 1);
      if deadlines[i - 1] <= nows[i - 1] {
        NextIsPeriodLater(behaviors[i - 1], deadlines[i - 1], nows[i - 1], period);
        OnePeriodMore(period, Ticked(deadlines, nows, i - 1));
      }
    }
  }

  lemma OnePeriodMore(period: nat, k: nat)
    ensures period * (k + 1) == period * k + period
  {
  }

  /** A tick that was missed leaves its successor in the past under Burst, and never under Delay and Skip. */
  lemma CaughtUpExactly(behavior: MissedTickBehavior, timeout: Time, now: Time, period: nat)
    requires period > 0 && now > timeout + SLACK
    ensures NextTick(behavior, timeout, now, period) > now <==> behavior != Burst || now < timeout + period
  {
    SkipLandsAhead(timeout, period, timeout, now);
  }

  /** A tick taken late under Delay stays on the grid exactly if it was late by whole periods. */
  lemma DelayOnGridExactly(start: Time, timeout: Time, now: Time, period: nat)
    requires period > 0 && OnGrid(start, period, timeout) && now > timeout + SLACK
    ensures OnGrid(start, period, NextTick(Delay, timeout, now, period)) <==> (now - timeout) % period == 0
  {
    var q := (now - timeout) / period;
    if (now - timeout) % period == 0 {
      assert now - timeout == period * q;
      assert period * (q + 1) == period * q + period;
      GridStep(start, period, timeout, q + 1);
    } else {
      SkipLandsAhead(start, period, timeout, now);
      var next := NextTimeout(Skip, timeout, now, period);
      if OnGrid(start, period, now + period) {
        SameRemainder(next - start, now + period - start, period);
      }
    }
  }

  /** Delay leaves the grid: a tick due at 0 with a period of 10 ms, taken 6 ms late. */
  lemma DelayLeavesGrid()
    ensures !OnGrid(0, 10_000_000, NextTick(Delay, 0, 6_000_000, 10_000_000))
  {
  }
}
