/** What the oneshot channel promises under every interleaving of its two sides. */
module OneshotTheorems {
  import opened Wrappers
  import opened Oneshot

  lemma OpenedInv()
    ensures Inv(OPENED)
  {
  }

  lemma StepSound(c: Chan, a: Action)
    requires Inv(c) && Enabled(c, a)
    ensures Sound(c, a)
  {
  }

  // ----- one point of the code at a time -----

  lemma SendKeeps(c: Chan, value: Value)
    requires Inv(c) && c.tx == Holding
    ensures Inv(SendStep(c, value)) && Inv(DropSenderStep(c))
  {
  }

  lemma PollClosedKeeps(c: Chan)
    requires Inv(c) && c.tx == Holding
    ensures Inv(PollClosedStep(c))
  {
  }

  lemma StoringKeeps(c: Chan, same: bool)
    requires Inv(c) && (c.tx.Storing? || c.tx == TakingBack || c.tx == WakingRx)
    ensures Inv(RunTxStep(c, same))
  {
  }

  lemma CompletingKeeps(c: Chan, same: bool)
    requires Inv(c) && c.tx.Completing?
    ensures Inv(RunTxStep(c, same))
  {
  }

  lemma UnsettingTxKeeps(c: Chan, same: bool)
    requires Inv(c) && (c.tx == ComparingTx || c.tx == UnsettingTx || c.tx == ResettingTx)
    ensures Inv(RunTxStep(c, same))
  {
  }

  lemma SettingTxKeeps(c: Chan, same: bool)
    requires Inv(c) && (c.tx == DroppingTx || c.tx == WritingTx || c.tx == SettingTx)
    ensures Inv(RunTxStep(c, same))
  {
  }

  lemma PollKeeps(c: Chan)
    requires Inv(c) && c.rx == Waiting
    ensures Inv(PollStep(c))
  {
  }

  lemma TryRecvKeeps(c: Chan)
    requires Inv(c) && c.rx == Waiting
    ensures Inv(TryRecvStep(c))
  {
  }

  lemma CloseKeeps(c: Chan, dropping: bool)
    requires Inv(c) && c.rx == Waiting
    ensures Inv(CloseStep(c, dropping))
  {
  }

  lemma ConsumingKeeps(c: Chan, same: bool)
    requires Inv(c) && c.rx.Consuming? && c.value.Some?
    ensures Inv(RunRxStep(c, same))
  {
  }

  lemma ConsumingNothingKeeps(c: Chan, same: bool)
    requires Inv(c) && c.rx.Consuming? && c.value.None?
    ensures Inv(RunRxStep(c, same))
  {
  }

  lemma UnsettingRxKeeps(c: Chan, same: bool)
    requires Inv(c) && (c.rx == ComparingRx || c.rx == UnsettingRx || c.rx == ResettingRx)
    ensures Inv(RunRxStep(c, same))
  {
  }

  lemma SettingRxKeeps(c: Chan, same: bool)
    requires Inv(c) && (c.rx == DroppingRx || c.rx == WritingRx || c.rx == SettingRx)
    ensures Inv(RunRxStep(c, same))
  {
  }

  lemma ClosingKeeps(c: Chan, same: bool)
    requires Inv(c) && c.rx.Closing?
    ensures Inv(RunRxStep(c, same))
  {
  }

  lemma WakingTxKeeps(c: Chan, same: bool)
    requires Inv(c) && c.rx.WakingTx?
    ensures Inv(RunRxStep(c, same))
  {
  }

  lemma FreeKeeps(c: Chan)
    requires Inv(c) && Enabled(c, Free)
    ensures Inv(FreeStep(c))
  {
  }

  // ----- every step, every run -----

  lemma RunTxKeeps(c: Chan, same: bool)
    requires Inv(c) && Enabled(c, RunTx(same))
    ensures Inv(RunTxStep(c, same))
  {
    hide Inv, RunTxStep;
    match c.tx {
      case Storing(_) => StoringKeeps(c, same);
      case TakingBack => StoringKeeps(c, same);
      case WakingRx => StoringKeeps(c, same);
      case Completing(_) => CompletingKeeps(c, same);
      case ComparingTx => UnsettingTxKeeps(c, same);
      case UnsettingTx => UnsettingTxKeeps(c, same);
      case ResettingTx => UnsettingTxKeeps(c, same);
      case _ => SettingTxKeeps(c, same);
    }
  }

  lemma RunRxKeeps(c: Chan, same: bool)
    requires Inv(c) && Enabled(c, RunRx(same))
    ensures Inv(RunRxStep(c, same))
  {
    hide Inv, RunRxStep;
    match c.rx {
      case Consuming(_) => if c.value.Some? { ConsumingKeeps(c, same); } else { ConsumingNothingKeeps(c, same); }
      case ComparingRx => UnsettingRxKeeps(c, same);
      case UnsettingRx => UnsettingRxKeeps(c, same);
      case ResettingRx => UnsettingRxKeeps(c, same);
      case Closing(_) => ClosingKeeps(c, same);
      case WakingTx(_) => WakingTxKeeps(c, same);
      case _ => SettingRxKeeps(c, same);
    }
  }

  lemma StepInv(c: Chan, a: Action)
    requires Inv(c) && Enabled(c, a)
    ensures Inv(Step(c, a))
  {
    hide Inv, RunTxStep, RunRxStep, SendStep, DropSenderStep, PollStep, PollClosedStep, CloseStep, TryRecvStep, FreeStep;
    match a {
      case Send(value) => SendKeeps(c, value);
      case DropSender => SendKeeps(c, 0);
      case PollClosed => PollClosedKeeps(c);
      case RunTx(same) => RunTxKeeps(c, same);
      case Poll => PollKeeps(c);
      case TryRecv => TryRecvKeeps(c);
      case Close => CloseKeeps(c, false);
      case DropReceiver => CloseKeeps(c, true);
      case RunRx(same) => RunRxKeeps(c, same);
      case Free => FreeKeeps(c);
    }
  }

  lemma {:induction false} RunInv(states: seq<Chan>, actions: seq<Action>, i: nat)
    requires IsRun(states, actions) && i < |states|
    ensures Inv(states[i])
  {
    hide Inv, Step, Enabled;
    if i == 0 {
      OpenedInv();
    } else {
      RunInv(states, actions, i - 1);
      StepInv(states[i - 1], actions[i - 1]);
    }
  }

  /**
   No run races on a cell, reads or drops a waker that is not there, or overwrites one that is; the
   channel's end drops exactly the wakers still stored.
   */
  lemma RunsAreSound(states: seq<Chan>, actions: seq<Action>, i: nat)
    requires IsRun(states, actions) && i < |actions|
    ensures Enabled(states[i], actions[i]) && Sound(states[i], actions[i])
    ensures states[i + 1].freed ==> !states[i + 1].rxTask && !states[i + 1].txTask
  {
    hide Sound, Step, Enabled;
    RunInv(states, actions, i);
    RunInv(states, actions, i + 1);
    StepSound(states[i], actions[i]);
    hide WakersOk, ParkedOk, ValueOk;
  }

  /**
   The value passed to `send` is always in exactly one place; at the end it was delivered, returned by
   `send`, or dropped with the channel, exactly one of them.
   */
  lemma ValueMovesOnce(states: seq<Chan>, actions: seq<Action>, i: nat)
    requires IsRun(states, actions) && i < |states|
    ensures var c := states[i];
      var hand := if c.tx.Storing? then Some(c.tx.value) else None;
      && Number(hand) + Number(c.value) + Number(c.delivered) + Number(c.returned) + Number(c.discarded) == Number(c.arg)
      && (forall v | v in [hand, c.value, c.delivered, c.returned, c.discarded] :: v == None || v == c.arg)
      && (c.freed ==> Number(c.delivered) + Number(c.returned) + Number(c.discarded) == Number(c.arg))
  {
    hide IsRun, TasksOk, WakersOk, ParkedOk;
    RunInv(states, actions, i);
    TakenAtEnd(states[i]);
  }

  lemma TakenAtEnd(c: Chan)
    requires Inv(c)
    ensures c.freed ==> c.value == None && c.tx == Gone
  {
  }

  /** `send` gives the value back exactly when the receiver had closed first; then it is never delivered. */
  lemma ReturnedExactly(states: seq<Chan>, actions: seq<Action>, i: nat)
    requires IsRun(states, actions) && i < |states| && states[i].tx == Gone && states[i].arg.Some?
    ensures states[i].returned == states[i].arg <==> !states[i].sent
    ensures !states[i].sent ==> states[i].closed && states[i].delivered == None && states[i].discarded == None
  {
    hide IsRun, TasksOk, WakersOk, ParkedOk;
    RunInv(states, actions, i);
  }

  /** A receiver that finds the channel complete finds the value sent, or nothing only if nothing was sent. */
  lemma ReceivesWhatWasSent(states: seq<Chan>, actions: seq<Action>, i: nat)
    requires IsRun(states, actions) && i < |states| && states[i].rx.Consuming?
    ensures states[i].value == states[i].arg && states[i].sent
  {
    hide IsRun, WakersOk, ParkedOk;
    RunInv(states, actions, i);
  }

  /**
   No wake is lost: a parked receiver has been woken once the sender completed, a parked sender once the
   receiver closed.
   */
  lemma NobodyLeftParked(states: seq<Chan>, actions: seq<Action>, i: nat)
    requires IsRun(states, actions) && i < |states|
    ensures states[i].rx == Waiting && states[i].rxParked && states[i].sent && states[i].tx == Gone ==> states[i].rxWoken
    ensures states[i].tx == Holding && states[i].txParked && states[i].closed && (states[i].rx == Waiting || states[i].rx == Left)
      ==> states[i].txWoken
  {
    hide IsRun, TasksOk, WakersOk, ValueOk;
    RunInv(states, actions, i);
  }
}
