/**
 The oneshot channel (`sync/oneshot.rs`): one sender and one receiver on different threads share a word
 of four bits, a value cell and two waker cells.  Every access to one of them is one step; a
 compare-and-swap loop is the one update it succeeds with.
 */
module Oneshot {
  import opened Wrappers

  type Value = nat

  /** What the sender is doing; `Holding` is between calls. */
  datatype TxPc =
    | Holding
    | Storing(value: Value)
    | Completing(sending: bool)
    | TakingBack
    | WakingRx
    | ComparingTx
    | UnsettingTx
    | ResettingTx
    | DroppingTx
    | WritingTx
    | SettingTx
    | Gone

  /** What the receiver is doing; `Waiting` is between calls. */
  datatype RxPc =
    | Waiting
    | Consuming(trying: bool)
    | ComparingRx
    | UnsettingRx
    | ResettingRx
    | DroppingRx
    | WritingRx
    | SettingRx
    | Closing(dropping: bool)
    | WakingTx(dropping: bool)
    | Left

  /**
   The four bits, the three cells (a waker cell is a flag: whether it holds a live waker), and
   auxiliaries: where the value went, and who is parked and was woken since its poll began.
   */
  datatype Chan = Chan(
    sent: bool,
    closed: bool,
    rxSet: bool,
    txSet: bool,
    value: Option<Value>,
    rxTask: bool,
    txTask: bool,
    tx: TxPc,
    rx: RxPc,
    arg: Option<Value>,
    delivered: Option<Value>,
    returned: Option<Value>,
    discarded: Option<Value>,
    rxParked: bool,
    rxWoken: bool,
    txParked: bool,
    txWoken: bool,
    freed: bool)

  const OPENED: Chan :=
    Chan(false, false, false, false, None, false, false, Holding, Waiting, None, None, None, None, false, false, false, false, false)

  datatype Action =
    | Send(value: Value)
    | DropSender
    | PollClosed
    | RunTx(same: bool)
    | Poll
    | TryRecv
    | Close
    | DropReceiver
    | RunRx(same: bool)
    | Free

  predicate Enabled(c: Chan, a: Action) {
    match a
    case Send(_) => c.tx == Holding
    case DropSender => c.tx == Holding
    case PollClosed => c.tx == Holding
    case RunTx(_) => c.tx != Holding && c.tx != Gone
    case Poll => c.rx == Waiting
    case TryRecv => c.rx == Waiting
    case Close => c.rx == Waiting
    case DropReceiver => c.rx == Waiting
    case RunRx(_) => c.rx != Waiting && c.rx != Left
    case Free => c.tx == Gone && c.rx == Left && !c.freed
  }

  predicate WritesRxTask(rx: RxPc) { rx == DroppingRx || rx == WritingRx }

  predicate WritesTxTask(tx: TxPc) { tx == DroppingTx || tx == WritingTx }

  predicate TouchesValue(tx: TxPc) { tx.Storing? || tx == TakingBack }

  /**
   The step meets the unwraps of the source, reads and drops only live wakers, overwrites none, and does
   not touch a cell that the other side is in the middle of touching.
   */
  predicate Sound(c: Chan, a: Action)
    requires Enabled(c, a)
  {
    !c.freed &&
    match a
    case RunTx(_) => (
      match c.tx
      case Storing(_) => c.value == None && !c.rx.Consuming?
      case TakingBack => c.value.Some? && !c.rx.Consuming?
      case WakingRx => c.rxTask && !WritesRxTask(c.rx)
      case ComparingTx => c.txTask
      case DroppingTx => c.txTask && !c.rx.WakingTx?
      case WritingTx => !c.txTask && !c.rx.WakingTx?
      case _ => true)
    case RunRx(_) => (
      match c.rx
      case Consuming(_) => !TouchesValue(c.tx)
      case ComparingRx => c.rxTask
      case DroppingRx => c.rxTask && c.tx != WakingRx
      case WritingRx => !c.rxTask && c.tx != WakingRx
      case WakingTx(_) => c.txTask && !WritesTxTask(c.tx)
      case _ => true)
    case Free => (c.rxSet <==> c.rxTask) && (c.txSet <==> c.txTask)
    case _ => true
  }

  // ----- the sender -----

  function RunTxStep(c: Chan, same: bool): Chan {
    match c.tx
    case Storing(value) => c.(value := Some(value), tx := Completing(true))
    case Completing(sending) =>
      if c.closed then c.(tx := if sending then TakingBack else Gone)
      else c.(sent := true, tx := if c.rxSet then WakingRx else Gone)
    case TakingBack => c.(value := None, returned := c.value, tx := Gone)
    case WakingRx => c.(rxWoken := true, tx := Gone)
    case ComparingTx => if same then c.(tx := Holding, txParked := true) else c.(tx := UnsettingTx)
    case UnsettingTx => c.(txSet := false, tx := if c.closed then ResettingTx else DroppingTx)
    case ResettingTx => c.(txSet := true, tx := Holding)
    case DroppingTx => c.(txTask := false, tx := WritingTx)
    case WritingTx => c.(txTask := true, tx := SettingTx)
    case SettingTx => c.(txSet := true, tx := Holding, txParked := !c.closed)
    case Holding => c
    case Gone => c
  }

  function SendStep(c: Chan, value: Value): Chan { c.(tx := Storing(value), arg := Some(value), txParked := false) }

  function DropSenderStep(c: Chan): Chan { c.(tx := Completing(false), txParked := false) }

  /** `poll_closed` loads the word and goes where it says. */
  function PollClosedStep(c: Chan): Chan {
    var t := c.(txParked := false, txWoken := false);
    if c.closed then t else t.(tx := if c.txSet then ComparingTx else WritingTx)
  }

  // ----- the receiver -----

  function RunRxStep(c: Chan, same: bool): Chan {
    match c.rx
    case Consuming(trying) =>
      if c.value.Some? then c.(value := None, delivered := c.value, rx := Left)
      else c.(rx := if trying then Left else Waiting)
    case ComparingRx => if same then c.(rx := Waiting, rxParked := true) else c.(rx := UnsettingRx)
    case UnsettingRx => c.(rxSet := false, rx := if c.sent then ResettingRx else DroppingRx)
    case ResettingRx => c.(rxSet := true, rx := Consuming(false))
    case DroppingRx => c.(rxTask := false, rx := WritingRx)
    case WritingRx => c.(rxTask := true, rx := SettingRx)
    case SettingRx => if c.sent then c.(rxSet := true, rx := Consuming(false)) else c.(rxSet := true, rx := Waiting, rxParked := true)
    case Closing(dropping) =>
      c.(closed := true, rx := if c.txSet && !c.sent then WakingTx(dropping) else if dropping then Left else Waiting)
    case WakingTx(dropping) => c.(txWoken := true, rx := if dropping then Left else Waiting)
    case Waiting => c
    case Left => c
  }

  function PollStep(c: Chan): Chan {
    var t := c.(rxParked := false, rxWoken := false);
    if c.sent then t.(rx := Consuming(false))
    else if c.closed then t
    else t.(rx := if c.rxSet then ComparingRx else WritingRx)
  }

  function CloseStep(c: Chan, dropping: bool): Chan { c.(rx := Closing(dropping), rxParked := false) }

  function TryRecvStep(c: Chan): Chan {
    if c.sent then c.(rx := Consuming(true), rxParked := false)
    else if c.closed then c.(rx := Left, rxParked := false)
    else c
  }

  /** `Inner::drop`: the wakers whose bits are set are dropped, and the value if one is left. */
  function FreeStep(c: Chan): Chan {
    c.(freed := true, value := None, discarded := c.value,
       rxTask := if c.rxSet then false else c.rxTask,
       txTask := if c.txSet then false else c.txTask)
  }

  function Step(c: Chan, a: Action): Chan
    requires Enabled(c, a)
  {
    match a
    case Send(value) => SendStep(c, value)
    case DropSender => DropSenderStep(c)
    case PollClosed => PollClosedStep(c)
    case RunTx(same) => RunTxStep(c, same)
    case Poll => PollStep(c)
    case TryRecv => TryRecvStep(c)
    case Close => CloseStep(c, false)
    case DropReceiver => CloseStep(c, true)
    case RunRx(same) => RunRxStep(c, same)
    case Free => FreeStep(c)
  }

  ghost predicate IsRun(states: seq<Chan>, actions: seq<Action>) {
    && |states| == |actions| + 1
    && states[0] == OPENED
    && forall i {:trigger actions[i]} :: 0 <= i < |actions| ==>
         Enabled(states[i], actions[i]) && states[i + 1] == Step(states[i], actions[i])
  }

  // ----- the invariant -----

  /** A waker cell holds a live waker when its bit is set, and during its owner's update also when it is not. */
  predicate TasksOk(c: Chan) {
    && (!c.freed ==> (c.rxTask <==> c.rxSet || c.rx == DroppingRx || c.rx == SettingRx || c.rx == ResettingRx))
    && (!c.freed ==> (c.txTask <==> c.txSet || c.tx == DroppingTx || c.tx == SettingTx || c.tx == ResettingTx))
    && ((c.rx == ComparingRx || c.rx == UnsettingRx) ==> c.rxSet)
    && ((c.tx == ComparingTx || c.tx == UnsettingTx) ==> c.txSet)
    && ((c.rx == DroppingRx || c.rx == WritingRx || c.rx == SettingRx || c.rx == ResettingRx) ==> !c.rxSet)
    && ((c.tx == DroppingTx || c.tx == WritingTx || c.tx == SettingTx || c.tx == ResettingTx) ==> !c.txSet)
    && (c.freed ==> c.tx == Gone && c.rx == Left && !c.rxTask && !c.txTask)
  }

  /** Who is about to read the other side's waker saw its bit set, and that side leaves the cell alone. */
  predicate WakersOk(c: Chan) {
    && (c.tx == WakingRx ==> c.sent && c.rxTask && c.rx != DroppingRx && c.rx != WritingRx && c.rx != SettingRx)
    && (c.rx.WakingTx? ==> c.closed && c.txTask && c.tx != DroppingTx && c.tx != WritingTx && c.tx != SettingTx)
    && (c.rx == ResettingRx ==> c.sent)
    && (c.tx == ResettingTx ==> c.closed)
  }

  /** Who is parked has its bit set, and once the other side is done with what it waits for, was woken. */
  predicate ParkedOk(c: Chan) {
    && (c.rxParked ==> c.rx == Waiting)
    && (c.txParked ==> c.tx == Holding)
    && (c.rx == Waiting && c.rxParked ==> c.rxSet && (c.sent && c.tx != WakingRx ==> c.rxWoken))
    && (c.tx == Holding && c.txParked ==> c.txSet && (c.closed && !c.rx.WakingTx? ==> c.txWoken))
    && (c.rx == ComparingRx && c.sent && c.tx != WakingRx ==> c.rxWoken)
    && (c.tx == ComparingTx && c.closed && !c.rx.WakingTx? ==> c.txWoken)
  }

  function Number(v: Option<Value>): nat { if v.Some? then 1 else 0 }

  /** The value passed to `send` is in exactly one place. */
  predicate ValueOk(c: Chan) {
    && (c.sent ==> c.tx == WakingRx || c.tx == Gone)
    && (c.rx.Consuming? ==> c.sent)
    && (c.tx == TakingBack ==> c.value.Some? && c.closed && !c.sent)
    && (c.tx == Completing(true) ==> c.value.Some?)
    && (c.value.Some? && !c.sent ==> c.tx == Completing(true) || c.tx == TakingBack)
    && Number(c.arg) == (if c.tx.Storing? then 1 else 0) + Number(c.value) + Number(c.delivered) + Number(c.returned) + Number(c.discarded)
    && (c.value.Some? ==> c.value == c.arg)
    && (c.delivered.Some? ==> c.delivered == c.arg && c.rx == Left)
    && (c.returned.Some? ==> c.returned == c.arg)
    && (c.discarded.Some? ==> c.discarded == c.arg && c.freed)
    && (c.tx.Storing? ==> c.arg == Some(c.tx.value))
    && (c.arg.Some? ==> c.tx.Storing? || c.tx == Completing(true) || c.tx == TakingBack || c.tx == WakingRx || c.tx == Gone)
    && (c.tx == Holding || c.tx == Completing(false) ==> c.arg == None)
    && (c.freed ==> c.value == None)
    && (c.returned.Some? ==> !c.sent && c.closed)
    && (c.tx == Gone && c.arg.Some? ==> c.sent || c.returned.Some?)
  }

  predicate Inv(c: Chan) { TasksOk(c) && WakersOk(c) && ParkedOk(c) && ValueOk(c) }
}
