/** What each call on the oneshot channel has done when it returns, whatever the other side does meanwhile. */
module OneshotCalls {
  import opened Wrappers
  import opened Oneshot
  import opened OneshotTheorems

  // ----- calls are short -----

  function TxLeft(tx: TxPc): nat {
    match tx
    case Storing(_) => 3
    case Completing(_) => 2
    case TakingBack => 1
    case WakingRx => 1
    case ComparingTx => 5
    case UnsettingTx => 4
    case ResettingTx => 1
    case DroppingTx => 3
    case WritingTx => 2
    case SettingTx => 1
    case Holding => 0
    case Gone => 0
  }

  function RxLeft(rx: RxPc): nat {
    match rx
    case Consuming(_) => 1
    case ComparingRx => 6
    case UnsettingRx => 5
    case ResettingRx => 2
    case DroppingRx => 4
    case WritingRx => 3
    case SettingRx => 2
    case Closing(_) => 2
    case WakingTx(_) => 1
    case Waiting => 0
    case Left => 0
  }

  // ----- what the other side leaves alone -----

  predicate OfSender(a: Action) { a.Send? || a.DropSender? || a.PollClosed? || a.RunTx? }

  predicate RxSame(c: Chan, t: Chan) {
    t.rx == c.rx && t.rxParked == c.rxParked && t.delivered == c.delivered && t.closed == c.closed && (c.sent ==> t.sent)
  }

  predicate TxSame(c: Chan, t: Chan) {
    && t.tx == c.tx && t.txParked == c.txParked && t.sent == c.sent && t.arg == c.arg && t.returned == c.returned
    && (c.closed ==> t.closed)
  }

  /** Where a step of the sender goes from each point of its calls, and what of the outcome they report it settles. */
  predicate TxGoes(c: Chan, t: Chan) {
    && RxSame(c, t) && t.arg == c.arg && t.closed == c.closed && TxLeft(t.tx) < TxLeft(c.tx)
    && match c.tx
       case Storing(_) => t.tx == Completing(true) && t.sent == c.sent
       case Completing(sending) =>
         if c.closed then t.tx == (if sending then TakingBack else Gone) && t.sent == c.sent else t.sent && (t.tx == WakingRx || t.tx == Gone)
       case TakingBack => t.tx == Gone && t.sent == c.sent
       case WakingRx => t.tx == Gone && t.sent == c.sent && t.value == c.value
       case ComparingTx => if t.tx == Holding then t.txParked else t.tx == UnsettingTx && t.txParked == c.txParked
       case UnsettingTx => t.tx == (if c.closed then ResettingTx else DroppingTx) && t.txParked == c.txParked
       case ResettingTx => t.tx == Holding && t.txParked == c.txParked
       case DroppingTx => t.tx == WritingTx && t.txParked == c.txParked
       case WritingTx => t.tx == SettingTx && t.txParked == c.txParked
       case SettingTx => t.tx == Holding && (t.txParked <==> !c.closed)
       case _ => false
  }

  predicate RxGoes(c: Chan, t: Chan) {
    && TxSame(c, t) && RxLeft(t.rx) < RxLeft(c.rx)
    && match c.rx
       case Consuming(trying) =>
         && t.rxParked == c.rxParked && t.value == None
         && (if c.value.Some? then t.rx == Left && t.delivered == c.value
             else t.rx == (if trying then Left else Waiting) && t.delivered == c.delivered)
       case Closing(dropping) => t.closed && (t.rx == WakingTx(dropping) || t.rx == if dropping then Left else Waiting)
       case WakingTx(dropping) => t.closed == c.closed && t.rx == if dropping then Left else Waiting
       case _ =>
         && t.value == c.value && t.delivered == c.delivered && t.closed == c.closed
         && (if t.rx == Waiting then t.rxParked && (c.rx == SettingRx ==> !c.sent)
             else t.rxParked == c.rxParked && !t.rx.Closing? && !t.rx.WakingTx? && t.rx != Left && (t.rx.Consuming? ==> c.rx == ResettingRx || c.sent))
  }

  lemma SendingGoes(c: Chan, same: bool)
    requires c.tx.Storing? || c.tx == TakingBack || c.tx == WakingRx
    ensures TxGoes(c, RunTxStep(c, same))
  {
  }

  lemma CompletingGoes(c: Chan, same: bool)
    requires c.tx.Completing? && !c.closed
    ensures TxGoes(c, RunTxStep(c, same))
  {
  }

  lemma CompletingClosedGoes(c: Chan, same: bool)
    requires c.tx.Completing? && c.closed
    ensures TxGoes(c, RunTxStep(c, same))
  {
  }

  lemma ComparingTxGoes(c: Chan, same: bool)
    requires c.tx == ComparingTx
    ensures TxGoes(c, RunTxStep(c, same))
  {
  }

  lemma UnsettingTxGoes(c: Chan, same: bool)
    requires c.tx == UnsettingTx
    ensures TxGoes(c, RunTxStep(c, same))
  {
  }

  lemma ResettingTxGoes(c: Chan, same: bool)
    requires c.tx == ResettingTx
    ensures TxGoes(c, RunTxStep(c, same))
  {
  }

  lemma WritingTxGoes(c: Chan, same: bool)
    requires c.tx == DroppingTx || c.tx == WritingTx || c.tx == SettingTx
    ensures TxGoes(c, RunTxStep(c, same))
  {
  }

  lemma TxStepGoes(c: Chan, same: bool)
    requires c.tx != Holding && c.tx != Gone
    ensures TxGoes(c, RunTxStep(c, same))
  {
    hide RunTxStep, TxGoes;
    match c.tx {
      case Storing(_) => SendingGoes(c, same);
      case TakingBack => SendingGoes(c, same);
      case WakingRx => SendingGoes(c, same);
      case Completing(_) => if c.closed { CompletingClosedGoes(c, same); } else { CompletingGoes(c, same); }
      case ComparingTx => ComparingTxGoes(c, same);
      case UnsettingTx => UnsettingTxGoes(c, same);
      case ResettingTx => ResettingTxGoes(c, same);
      case _ => WritingTxGoes(c, same);
    }
  }

  lemma ConsumingGoes(c: Chan, same: bool)
    requires c.rx.Consuming? && c.value.Some?
    ensures RxGoes(c, RunRxStep(c, same))
  {
  }

  lemma ConsumingNothingGoes(c: Chan, same: bool)
    requires c.rx.Consuming? && c.value.None?
    ensures RxGoes(c, RunRxStep(c, same))
  {
  }

  lemma ClosingGoes(c: Chan, same: bool)
    requires c.rx.Closing?
    ensures RxGoes(c, RunRxStep(c, same))
  {
  }

  lemma WakingTxGoes(c: Chan, same: bool)
    requires c.rx.WakingTx?
    ensures RxGoes(c, RunRxStep(c, same))
  {
  }

  lemma ComparingRxGoes(c: Chan, same: bool)
    requires c.rx == ComparingRx
    ensures RxGoes(c, RunRxStep(c, same))
  {
  }

  lemma UnsettingRxGoes(c: Chan, same: bool)
    requires c.rx == UnsettingRx
    ensures RxGoes(c, RunRxStep(c, same))
  {
  }

  lemma ResettingRxGoes(c: Chan, same: bool)
    requires c.rx == ResettingRx
    ensures RxGoes(c, RunRxStep(c, same))
  {
  }

  lemma DroppingRxGoes(c: Chan, same: bool)
    requires c.rx == DroppingRx || c.rx == WritingRx
    ensures RxGoes(c, RunRxStep(c, same))
  {
  }

  lemma SettingRxGoes(c: Chan, same: bool)
    requires c.rx == SettingRx && !c.sent
    ensures RxGoes(c, RunRxStep(c, same))
  {
  }

  lemma SettingLateGoes(c: Chan, same: bool)
    requires c.rx == SettingRx && c.sent
    ensures RxGoes(c, RunRxStep(c, same))
  {
  }

  lemma RxStepGoes(c: Chan, same: bool)
    requires c.rx != Waiting && c.rx != Left
    ensures RxGoes(c, RunRxStep(c, same))
  {
    hide RunRxStep, RxGoes;
    match c.rx {
      case Consuming(_) => if c.value.Some? { ConsumingGoes(c, same); } else { ConsumingNothingGoes(c, same); }
      case Closing(_) => ClosingGoes(c, same);
      case WakingTx(_) => WakingTxGoes(c, same);
      case ComparingRx => ComparingRxGoes(c, same);
      case UnsettingRx => UnsettingRxGoes(c, same);
      case ResettingRx => ResettingRxGoes(c, same);
      case SettingRx => if c.sent { SettingLateGoes(c, same); } else { SettingRxGoes(c, same); }
      case _ => DroppingRxGoes(c, same);
    }
  }

  lemma SenderLeaves(c: Chan, a: Action)
    requires Enabled(c, a) && OfSender(a)
    ensures RxSame(c, Step(c, a))
    ensures c.tx == WakingRx || c.tx == Gone ==> Step(c, a).value == c.value
  {
    hide RunTxStep;
    if a.RunTx? { TxStepGoes(c, a.same); }
  }

  lemma FreeLeaves(c: Chan)
    ensures TxSame(c, FreeStep(c))
  {
  }

  lemma CloseLeaves(c: Chan, dropping: bool)
    ensures TxSame(c, CloseStep(c, dropping))
  {
  }

  lemma PollOfComplete(c: Chan)
    requires c.sent
    ensures PollStep(c) == c.(rxParked := false, rxWoken := false, rx := Consuming(false))
    ensures TryRecvStep(c) == c.(rxParked := false, rx := Consuming(true))
  {
  }

  lemma PollOfClosed(c: Chan)
    requires !c.sent && c.closed
    ensures PollStep(c) == c.(rxParked := false, rxWoken := false)
    ensures TryRecvStep(c) == c.(rxParked := false, rx := Left)
  {
  }

  lemma PollOfOpen(c: Chan)
    requires !c.sent && !c.closed
    ensures PollStep(c) == c.(rxParked := false, rxWoken := false, rx := if c.rxSet then ComparingRx else WritingRx)
    ensures TryRecvStep(c) == c
  {
  }

  lemma PollLeaves(c: Chan)
    ensures TxSame(c, PollStep(c)) && TxSame(c, TryRecvStep(c))
  {
    hide PollStep, TryRecvStep;
    if c.sent { PollOfComplete(c); } else if c.closed { PollOfClosed(c); } else { PollOfOpen(c); }
  }

  lemma ReceiverLeaves(c: Chan, a: Action)
    requires Enabled(c, a) && !OfSender(a)
    ensures TxSame(c, Step(c, a))
  {
    hide RunRxStep, FreeStep, CloseStep, PollStep, TryRecvStep;
    match a
    case RunRx(same) => RxStepGoes(c, same);
    case Close => CloseLeaves(c, false);
    case DropReceiver => CloseLeaves(c, true);
    case Free => FreeLeaves(c);
    case _ => PollLeaves(c);
  }

  /** Every step inside a call brings its end nearer, and none of the other side's steps puts it off. */
  lemma CallsAreShort(c: Chan, a: Action)
    requires Enabled(c, a)
    ensures a.RunTx? ==> TxLeft(Step(c, a).tx) < TxLeft(c.tx)
    ensures a.RunRx? ==> RxLeft(Step(c, a).rx) < RxLeft(c.rx)
    ensures if OfSender(a) then Step(c, a).rx == c.rx else Step(c, a).tx == c.tx
  {
    hide RunTxStep, RunRxStep, TxLeft, RxLeft, FreeStep;
    if OfSender(a) { SenderLeaves(c, a); } else { ReceiverLeaves(c, a); }
    if a.RunTx? { TxStepGoes(c, a.same); }
    if a.RunRx? { RxStepGoes(c, a.same); }
  }

  // ----- the receiver's calls -----

  predicate Returned(rx: RxPc) { rx == Waiting || rx == Left }

  /** Inside a poll that began in `start`, or inside a `try_recv`, which loads the word and is complete or over. */
  predicate Reading(start: Chan, c: Chan) {
    && !Returned(c.rx) && !c.rx.Closing? && !c.rx.WakingTx?
    && (start.closed ==> start.sent)
    && (start.sent ==> c.rx.Consuming? && c.sent && c.value == start.value)
    && !c.rxParked && c.delivered == None && start.delivered == None
  }

  /** What a read comes to: the value, an error because none will come, or a receiver that is parked. */
  predicate ReadEnds(start: Chan, c: Chan) {
    && Returned(c.rx)
    && (start.sent && start.value.Some? ==> c.rx == Left && c.delivered == start.value)
    && (c.delivered.Some? ==> c.rx == Left && c.delivered == c.arg && c.sent)
    && (c.rxParked ==> c.rx == Waiting && !start.sent && !start.closed)
    && (c.delivered == None && !c.rxParked ==> start.closed || (c.sent && c.value == None))
  }

  lemma CompleteSenderIsThrough(c: Chan)
    requires Inv(c) && c.sent
    ensures c.tx == WakingRx || c.tx == Gone
  {
  }

  lemma ReadStepGoesOn(start: Chan, c: Chan, same: bool)
    requires Inv(c) && Reading(start, c)
    ensures Reading(start, RunRxStep(c, same)) || ReadEnds(start, RunRxStep(c, same))
  {
    hide TasksOk, ParkedOk, RunRxStep;
    RxStepGoes(c, same);
    hide RxLeft;
  }

  lemma ReadingGoesOn(start: Chan, c: Chan, a: Action)
    requires Inv(c) && Enabled(c, a) && Reading(start, c)
    ensures Reading(start, Step(c, a)) || ReadEnds(start, Step(c, a))
  {
    hide Inv, RunTxStep, RunRxStep;
    if OfSender(a) {
      if c.sent { CompleteSenderIsThrough(c); }
      SenderLeaves(c, a);
    } else {
      assert a.RunRx?;
      ReadStepGoesOn(start, c, a.same);
    }
  }

  lemma CompletePollBegins(c: Chan)
    requires c.rx == Waiting && c.delivered == None && c.sent
    ensures Reading(c, PollStep(c))
  {
  }

  lemma CompleteTryBegins(c: Chan)
    requires c.rx == Waiting && c.delivered == None && c.sent
    ensures Reading(c, TryRecvStep(c))
  {
  }

  lemma ClosedPollBegins(c: Chan)
    requires c.rx == Waiting && c.delivered == None && !c.sent && c.closed
    ensures ReadEnds(c, PollStep(c))
  {
  }

  lemma OpenPollBegins(c: Chan)
    requires c.rx == Waiting && c.delivered == None && !c.sent && !c.closed
    ensures Reading(c, PollStep(c))
  {
  }

  /** A poll, or a `try_recv` that finds the channel complete. */
  predicate BeginsRead(c: Chan, a: Action) { a == Poll || (a == TryRecv && c.sent) }

  lemma ReadBegins(c: Chan, a: Action)
    requires Inv(c) && Enabled(c, a) && BeginsRead(c, a)
    ensures Reading(c, Step(c, a)) || ReadEnds(c, Step(c, a))
  {
    hide Inv, PollStep, TryRecvStep, Reading, ReadEnds;
    NotDelivered(c);
    if a == TryRecv { CompleteTryBegins(c); } else if c.sent { CompletePollBegins(c); } else if c.closed { ClosedPollBegins(c); } else { OpenPollBegins(c); }
  }

  lemma NotDelivered(c: Chan)
    requires Inv(c) && c.rx == Waiting
    ensures c.delivered == None && (c.rxParked ==> c.rxSet)
  {
  }

  lemma {:induction false} WhileReading(states: seq<Chan>, actions: seq<Action>, i: nat, j: nat)
    requires IsRun(states, actions) && i < j < |states| && BeginsRead(states[i], actions[i])
    requires forall k | i < k < j :: !Returned(states[k].rx)
    ensures Reading(states[i], states[j]) || ReadEnds(states[i], states[j])
  {
    hide Inv, Enabled, Step, Reading, ReadEnds;
    RunInv(states, actions, j - 1);
    if i + 1 == j {
      ReadBegins(states[i], actions[i]);
    } else {
      WhileReading(states, actions, i, j - 1);
      EndsReturned(states[i], states[j - 1]);
      ReadingGoesOn(states[i], states[j - 1], actions[j - 1]);
    }
  }

  lemma EndsReturned(start: Chan, c: Chan)
    ensures ReadEnds(start, c) ==> Returned(c.rx)
    ensures Reading(start, c) ==> !Returned(c.rx)
  {
  }

  /**
   What a poll of the receiver returns, and a `try_recv` of a complete channel.  If the channel was
   complete and held the value, it returns the value that was sent.  It returns Pending, with the receiver parked, only if the channel was neither
   complete nor closed, and an error only if it was closed or no value was sent.
   */
  lemma ReadReturns(states: seq<Chan>, actions: seq<Action>, i: nat, j: nat)
    requires IsRun(states, actions) && i < j < |states| && BeginsRead(states[i], actions[i])
    requires Returned(states[j].rx) && forall k | i < k < j :: !Returned(states[k].rx)
    ensures var (s, n) := (states[i], states[j]);
      && (s.sent && s.value.Some? ==> n.rx == Left && n.delivered == s.arg)
      && (n.delivered.Some? ==> n.delivered == n.arg && n.sent)
      && (n.rxParked ==> !s.sent && !s.closed && n.rxSet && n.rxTask)
      && (n.delivered == None && !n.rxParked ==> s.closed || (n.sent && n.value == None))
  {
    hide IsRun;
    WhileReading(states, actions, i, j);
    RunInv(states, actions, i);
    RunInv(states, actions, j);
    hide WakersOk;
  }

  /** A `try_recv` of a channel that is not complete fails if it is closed, and otherwise says Empty and changes nothing. */
  lemma TryRecvOfIncomplete(c: Chan)
    requires Enabled(c, TryRecv) && !c.sent
    ensures c.closed ==> Step(c, TryRecv).rx == Left && Step(c, TryRecv).delivered == c.delivered
    ensures !c.closed ==> Step(c, TryRecv) == c
  {
    hide TryRecvStep;
    if c.closed { PollOfClosed(c); } else { PollOfOpen(c); }
  }

  /** Inside a close, or inside the drop of the receiver, or just after it. */
  predicate ClosingCall(dropping: bool, c: Chan) {
    c.rx == Closing(dropping) || (c.closed && (c.rx == WakingTx(dropping) || c.rx == if dropping then Left else Waiting))
  }

  lemma ClosingGoesOn(dropping: bool, c: Chan, a: Action)
    requires Enabled(c, a) && ClosingCall(dropping, c) && !Returned(c.rx)
    ensures ClosingCall(dropping, Step(c, a))
  {
    hide RunTxStep, RunRxStep;
    if OfSender(a) {
      SenderLeaves(c, a);
    } else {
      assert a.RunRx?;
      RxStepGoes(c, a.same);
    }
  }

  lemma {:induction false} WhileClosing(states: seq<Chan>, actions: seq<Action>, i: nat, j: nat)
    requires IsRun(states, actions) && i < j < |states| && (actions[i] == Close || actions[i] == DropReceiver)
    requires forall k | i < k < j :: !Returned(states[k].rx)
    ensures ClosingCall(actions[i] == DropReceiver, states[j])
  {
    if i + 1 < j {
      WhileClosing(states, actions, i, j - 1);
      ClosingGoesOn(actions[i] == DropReceiver, states[j - 1], actions[j - 1]);
      hide Step, ClosingCall;
    }
  }

  /** A close, and the drop of the receiver, leave the channel closed, and a sender that was parked woken. */
  lemma CloseReturns(states: seq<Chan>, actions: seq<Action>, i: nat, j: nat)
    requires IsRun(states, actions) && i < j < |states| && (actions[i] == Close || actions[i] == DropReceiver)
    requires Returned(states[j].rx) && forall k | i < k < j :: !Returned(states[k].rx)
    ensures states[j].closed && states[j].rx == (if actions[i] == DropReceiver then Left else Waiting)
    ensures states[j].tx == Holding && states[j].txParked ==> states[j].txWoken
  {
    WhileClosing(states, actions, i, j);
    NobodyLeftParked(states, actions, j);
    hide IsRun;
  }

  // ----- the sender's calls -----

  /** A sender that is gone completed the channel, or found it closed. */
  lemma {:induction false} GoneMeansOver(states: seq<Chan>, actions: seq<Action>, i: nat)
    requires IsRun(states, actions) && i < |states|
    ensures states[i].tx == Gone ==> states[i].sent || states[i].closed
  {
    hide Step, Enabled, Inv;
    if i > 0 {
      GoneMeansOver(states, actions, i - 1);
      RunInv(states, actions, i - 1);
      GoneStays(states[i - 1], actions[i - 1]);
    }
  }

  lemma GoneStays(c: Chan, a: Action)
    requires Inv(c) && Enabled(c, a) && (c.tx == Gone ==> c.sent || c.closed)
    ensures Step(c, a).tx == Gone ==> Step(c, a).sent || Step(c, a).closed
  {
    hide TasksOk, ParkedOk, RunRxStep;
    if !OfSender(a) { ReceiverLeaves(c, a); } else if a.RunTx? { SenderGoes(c, a.same); }
  }

  lemma SenderGoes(c: Chan, same: bool)
    requires Inv(c) && c.tx != Gone
    ensures RunTxStep(c, same).tx == Gone ==> RunTxStep(c, same).sent || RunTxStep(c, same).closed
  {
    hide TasksOk, ParkedOk, RunTxStep;
    if c.tx != Holding { TxStepGoes(c, same); } else { StaysHolding(c, same); }
    hide TxLeft;
  }

  lemma StaysHolding(c: Chan, same: bool)
    requires c.tx == Holding
    ensures RunTxStep(c, same) == c
  {
  }

  /** A sender that came and went leaves no receiver parked and asleep, unless that one closed the channel itself. */
  lemma SenderGoneWakes(states: seq<Chan>, actions: seq<Action>, i: nat)
    requires IsRun(states, actions) && i < |states| && states[i].tx == Gone
    requires states[i].rx == Waiting && states[i].rxParked && !states[i].closed
    ensures states[i].rxWoken
  {
    hide IsRun;
    GoneMeansOver(states, actions, i);
    NobodyLeftParked(states, actions, i);
  }

  /** Inside `poll_closed`. */
  predicate PollingClosed(tx: TxPc) {
    tx == ComparingTx || tx == UnsettingTx || tx == ResettingTx || tx == DroppingTx || tx == WritingTx || tx == SettingTx
  }

  lemma ClosedPollSteps(c: Chan, same: bool)
    requires Inv(c) && PollingClosed(c.tx) && !c.txParked
    ensures var t := RunTxStep(c, same);
      (PollingClosed(t.tx) && !t.txParked) || (t.tx == Holding && (t.txParked || t.closed))
  {
    hide TasksOk, ValueOk, RunTxStep;
    TxStepGoes(c, same);
    hide TxLeft;
  }

  lemma ClosedPollGoesOn(c: Chan, a: Action)
    requires Inv(c) && Enabled(c, a) && PollingClosed(c.tx) && !c.txParked
    ensures var t := Step(c, a);
      (PollingClosed(t.tx) && !t.txParked) || (t.tx == Holding && (t.txParked || t.closed))
  {
    hide Inv, RunTxStep, RunRxStep;
    if OfSender(a) { ClosedPollSteps(c, a.same); } else { ReceiverLeaves(c, a); }
  }

  lemma {:induction false} WhilePollingClosed(states: seq<Chan>, actions: seq<Action>, i: nat, j: nat)
    requires IsRun(states, actions) && i < j < |states| && actions[i] == PollClosed
    requires forall k | i < k < j :: states[k].tx != Holding
    ensures (PollingClosed(states[j].tx) && !states[j].txParked && !states[i].closed)
            || (states[j].tx == Holding && (states[j].txParked || states[j].closed) && (states[i].closed ==> !states[j].txParked))
  {
    hide Inv;
    RunInv(states, actions, j - 1);
    if i + 1 < j {
      WhilePollingClosed(states, actions, i, j - 1);
      ClosedPollGoesOn(states[j - 1], actions[j - 1]);
    }
  }

  /** `poll_closed` says Ready only if the channel is closed, always if it was when it began, and parks the sender otherwise. */
  lemma PollClosedReturns(states: seq<Chan>, actions: seq<Action>, i: nat, j: nat)
    requires IsRun(states, actions) && i < j < |states| && actions[i] == PollClosed
    requires states[j].tx == Holding && forall k | i < k < j :: states[k].tx != Holding
    ensures !states[j].txParked ==> states[j].closed
    ensures states[j].txParked ==> !states[i].closed && states[j].txSet && states[j].txTask
  {
    WhilePollingClosed(states, actions, i, j);
    RunInv(states, actions, j);
    hide IsRun, WakersOk, ValueOk;
  }

  /** What `send` returns: the value went out if the channel was not closed by then, and came back otherwise. */
  lemma SendReturns(states: seq<Chan>, actions: seq<Action>, i: nat, j: nat, v: Value)
    requires IsRun(states, actions) && i < j < |states| && actions[i] == Send(v) && states[j].tx == Gone
    ensures states[j].arg == Some(v)
    ensures !states[j].closed ==> states[j].sent && states[j].returned == None
    ensures states[i].closed ==> states[j].returned == Some(v)
    ensures states[j].returned == None ==> states[j].sent
  {
    ArgStays(states, actions, i, j);
    RunInv(states, actions, j);
    GoneMeansOver(states, actions, j);
    hide IsRun, TasksOk, WakersOk, ParkedOk;
  }

  lemma {:induction false} ArgStays(states: seq<Chan>, actions: seq<Action>, i: nat, j: nat)
    requires IsRun(states, actions) && i < j < |states| && actions[i].Send?
    ensures states[j].arg == Some(actions[i].value) && states[j].tx != Holding && states[j].tx != Completing(false)
    ensures states[i].closed ==> states[j].closed && !states[j].sent
  {
    hide Inv, Step, Enabled;
    if i + 1 < j {
      ArgStays(states, actions, i, j - 1);
      RunInv(states, actions, j - 1);
      ArgKept(states[j - 1], actions[j - 1]);
    } else {
      RunInv(states, actions, i);
      SendBegins(states[i], actions[i]);
    }
  }

  lemma SendBegins(c: Chan, a: Action)
    requires Inv(c) && Enabled(c, a) && a.Send?
    ensures var t := Step(c, a); t.arg == Some(a.value) && t.tx == Storing(a.value) && t.closed == c.closed && !t.sent
  {
    hide TasksOk, WakersOk, ParkedOk;
  }

  lemma SenderKeepsArg(c: Chan, same: bool)
    requires Inv(c) && c.arg.Some? && c.tx != Holding && c.tx != Completing(false)
    ensures var t := RunTxStep(c, same);
      && t.arg == c.arg && t.tx != Holding && t.tx != Completing(false)
      && t.closed == c.closed && (c.closed && !c.sent ==> !t.sent)
  {
    hide TasksOk, WakersOk, ParkedOk, RunTxStep;
    if c.tx != Gone { TxStepGoes(c, same); } else { StaysGone(c, same); }
    hide TxLeft;
  }

  lemma StaysGone(c: Chan, same: bool)
    requires c.tx == Gone
    ensures RunTxStep(c, same) == c
  {
  }

  lemma ArgKept(c: Chan, a: Action)
    requires Inv(c) && Enabled(c, a) && c.arg.Some? && c.tx != Holding && c.tx != Completing(false)
    ensures var t := Step(c, a);
      && t.arg == c.arg && t.tx != Holding && t.tx != Completing(false)
      && (c.closed ==> t.closed) && (c.closed && !c.sent ==> !t.sent)
  {
    hide Inv, RunTxStep, RunRxStep;
    if OfSender(a) { SenderKeepsArg(c, a.same); } else { ReceiverLeaves(c, a); }
  }
}
