/**
 The atomic waker (`sync/atomic_waker.rs`) with any number of threads registering and waking: two bits,
 REGISTERING and WAKING, guard a cell without ever blocking.  Every access to the bits or to the cell is
 one step.  Wakers are numbered by the registration that brings them.
 */
module AtomicWaker {
  import opened Wrappers

  type Tid = nat
  type Waker = nat

  /** Where a thread is in `do_register` (R) or in `take_waker` and the wake after it (W). */
  datatype Pc =
    | RStart(waker: Waker)
    | RStore(waker: Waker)
    | RRelease(waker: Waker, replaced: Option<Waker>)
    | RTake(waker: Waker, replaced: Option<Waker>)
    | RSwap(waker: Waker, replaced: Option<Waker>, taken: Option<Waker>)
    | RWake(replaced: Option<Waker>, taken: Option<Waker>)
    | RWakeNow(waker: Waker)
    | WStart
    | WTake
    | WRelease(taken: Option<Waker>)
    | WWake(taken: Option<Waker>)

  /** `owner` is the thread in the critical section, an auxiliary of the model; `woken` collects the wakers woken. */
  datatype State = State(
    registering: bool,
    waking: bool,
    cell: Option<Waker>,
    threads: map<Tid, Pc>,
    owner: Option<Tid>,
    next: Waker,
    woken: set<Waker>)

  const INITIAL: State := State(false, false, None, map[], None, 0, {})

  datatype Action = Register(t: Tid) | Wake(t: Tid) | Run(t: Tid)

  function Elements(w: Option<Waker>): set<Waker> { if w.Some? then {w.value} else {} }

  predicate Enabled(s: State, a: Action) {
    if a.Run? then a.t in s.threads else a.t !in s.threads
  }

  /** The assertions of the source. */
  predicate Sound(s: State, a: Action)
    requires Enabled(s, a)
  {
    a.Run? ==>
      match s.threads[a.t]
      case RRelease(_, _) => s.registering
      case _ => true
  }

  function Goto(s: State, t: Tid, pc: Pc): State { s.(threads := s.threads[t := pc]) }

  function Leave(s: State, t: Tid): State { s.(threads := s.threads - {t}) }

  /** One step of a thread that is inside a call. */
  function RunStep(s: State, t: Tid): State
    requires t in s.threads
  {
    match s.threads[t]
    case RStart(waker) =>
      if !s.registering && !s.waking then Goto(s, t, RStore(waker)).(registering := true, owner := Some(t))
      else if !s.registering then Goto(s, t, RWakeNow(waker))
      else Leave(s, t)
    case RStore(waker) => Goto(s, t, RRelease(waker, s.cell)).(cell := Some(waker))
    case RRelease(waker, replaced) =>
      if !s.waking then Leave(s, t).(registering := false, owner := None)
      else Goto(s, t, RTake(waker, replaced))
    case RTake(waker, replaced) => Goto(s, t, RSwap(waker, replaced, s.cell)).(cell := None)
    case RSwap(_, replaced, taken) => Goto(s, t, RWake(replaced, taken)).(registering := false, waking := false, owner := None)
    case RWake(replaced, taken) => Leave(s, t).(woken := s.woken + Elements(replaced) + Elements(taken))
    case RWakeNow(waker) => Leave(s, t).(woken := s.woken + {waker})
    case WStart =>
      if !s.registering && !s.waking then Goto(s, t, WTake).(waking := true, owner := Some(t))
      else Leave(s, t).(waking := true)
    case WTake => Goto(s, t, WRelease(s.cell)).(cell := None)
    case WRelease(taken) => Goto(s, t, WWake(taken)).(waking := false, owner := None)
    case WWake(taken) => Leave(s, t).(woken := s.woken + Elements(taken))
  }

  function Step(s: State, a: Action): State
    requires Enabled(s, a)
  {
    match a
    case Register(t) => Goto(s, t, RStart(s.next)).(next := s.next + 1)
    case Wake(t) => Goto(s, t, WStart)
    case Run(t) => RunStep(s, t)
  }

  ghost predicate IsRun(states: seq<State>, actions: seq<Action>) {
    && |states| == |actions| + 1
    && states[0] == INITIAL
    && forall i {:trigger actions[i]} :: 0 <= i < |actions| ==>
         Enabled(states[i], actions[i]) && states[i + 1] == Step(states[i], actions[i])
  }

  // ----- the invariant -----

  predicate Critical(pc: Pc) {
    pc.RStore? || pc.RRelease? || pc.RTake? || pc.RSwap? || pc.WTake? || pc.WRelease?
  }

  /** What the bits and the cell are while the owner is at `pc`. */
  predicate OwnerAt(s: State, pc: Pc) {
    match pc
    case RStore(_) => s.registering
    case RRelease(waker, _) => s.registering && s.cell == Some(waker)
    case RTake(waker, _) => s.registering && s.waking && s.cell == Some(waker)
    case RSwap(waker, _, taken) => s.registering && s.waking && s.cell == None && taken == Some(waker)
    case WTake => !s.registering && s.waking
    case WRelease(_) => !s.registering && s.waking && s.cell == None
    case _ => false
  }

  ghost predicate Inv(s: State) {
    && (forall t | t in s.threads :: Critical(s.threads[t]) ==> s.owner == Some(t))
    && (if s.owner.Some? then s.owner.value in s.threads && OwnerAt(s, s.threads[s.owner.value])
        else !s.registering && !s.waking)
  }

  lemma StepInv(s: State, a: Action)
    requires Inv(s) && Enabled(s, a)
    ensures Sound(s, a) && Inv(Step(s, a))
  {
  }

  lemma {:induction false} RunInv(states: seq<State>, actions: seq<Action>, i: nat)
    requires IsRun(states, actions) && i < |states|
    ensures Inv(states[i])
  {
    hide Inv, Step;
    if i == 0 {
      InitialInv();
    } else {
      RunInv(states, actions, i - 1);
      StepInv(states[i - 1], actions[i - 1]);
    }
  }

  lemma InitialInv()
    ensures Inv(INITIAL)
  {
  }

  /** At most one thread is ever in the critical section. */
  lemma MutualExclusion(states: seq<State>, actions: seq<Action>, i: nat, t: Tid, u: Tid)
    requires IsRun(states, actions) && i < |states|
    requires t in states[i].threads && u in states[i].threads
    requires Critical(states[i].threads[t]) && Critical(states[i].threads[u])
    ensures t == u
  {
    RunInv(states, actions, i);
  }

  // ----- no wake is lost -----

  /** The thread will wake `w`: it has the waker in hand, or the WAKING bit obliges it to take it out of the cell. */
  predicate WillWake(pc: Pc, waking: bool, w: Waker) {
    match pc
    case RStore(waker) => waking && waker == w
    case RRelease(_, replaced) => waking && replaced == Some(w)
    case RTake(_, replaced) => replaced == Some(w)
    case RSwap(_, replaced, taken) => replaced == Some(w) || taken == Some(w)
    case RWake(replaced, taken) => replaced == Some(w) || taken == Some(w)
    case RWakeNow(waker) => waker == w
    case WRelease(taken) => taken == Some(w)
    case WWake(taken) => taken == Some(w)
    case _ => false
  }

  /** `w` was woken, or some thread is on its way to wake it. */
  ghost predicate Covered(s: State, w: Waker) {
    || w in s.woken
    || (s.waking && s.cell == Some(w))
    || (exists t :: t in s.threads && WillWake(s.threads[t], s.waking, w))
  }

  lemma CoveredStays(s: State, a: Action, w: Waker)
    requires Inv(s) && Enabled(s, a) && Covered(s, w)
    ensures Covered(Step(s, a), w)
  {
    var n := Step(s, a);
    if w in s.woken {
    } else if s.waking && s.cell == Some(w) {
      var t := s.owner.value;
      assert a == Run(t) ==> (n.waking && n.cell == Some(w)) || (t in n.threads && WillWake(n.threads[t], n.waking, w));
    } else {
      var t :| t in s.threads && WillWake(s.threads[t], s.waking, w);
      if a == Run(t) {
        assert w in n.woken || (n.waking && n.cell == Some(w)) || (t in n.threads && WillWake(n.threads[t], n.waking, w));
      } else {
        assert t in n.threads && n.threads[t] == s.threads[t];
      }
    }
  }

  /** The registration that brings `w` has taken the lock and not stored it yet. */
  ghost predicate Storing(s: State, w: Waker) { exists u :: u in s.threads && s.threads[u] == RStore(w) }

  /**
   A wake covers the waker it finds in the cell, whether it takes the lock or leaves the work to its owner.
   It also covers the waker of a registration it meets: the registering thread finds the WAKING bit.
   */
  lemma WakeCovers(s: State, t: Tid, w: Waker)
    requires Inv(s) && t in s.threads && s.threads[t] == WStart
    requires s.cell == Some(w) || Storing(s, w) || Covered(s, w)
    ensures Covered(RunStep(s, t), w)
  {
    var n := RunStep(s, t);
    if Covered(s, w) {
      CoveredStays(s, Run(t), w);
    } else if s.cell != Some(w) {
      var u :| u in s.threads && s.threads[u] == RStore(w);
      assert u in n.threads && WillWake(n.threads[u], n.waking, w);
    }
  }

  lemma {:induction false} CoveredForever(states: seq<State>, actions: seq<Action>, i: nat, j: nat, w: Waker)
    requires IsRun(states, actions) && i <= j < |states| && Covered(states[i], w)
    ensures Covered(states[j], w)
  {
    hide Inv, Step, Covered;
    if i < j {
      CoveredForever(states, actions, i, j - 1, w);
      RunInv(states, actions, j - 1);
      CoveredStays(states[j - 1], actions[j - 1], w);
    }
  }

  /** With no call under way nobody is left to wake, so what is covered was woken. */
  lemma QuietIsWoken(s: State, w: Waker)
    requires Inv(s) && Covered(s, w) && s.threads == map[]
    ensures w in s.woken
  {
  }

  /**
   No wake is lost: once a `wake` has set the WAKING bit while `w` was stored, or was about to be stored by
   a registration that holds the lock, or was already being woken, `w` is woken or on its way to be,
   whatever other threads do, registrations included; as soon as no call is under way it was woken.
   */
  lemma NoLostWake(states: seq<State>, actions: seq<Action>, i: nat, j: nat, t: Tid, w: Waker)
    requires IsRun(states, actions) && i < j < |states|
    requires actions[i] == Run(t) && t in states[i].threads && states[i].threads[t] == WStart
    requires states[i].cell == Some(w) || Storing(states[i], w) || Covered(states[i], w)
    ensures Covered(states[j], w)
    ensures states[j].threads == map[] ==> w in states[j].woken
  {
    RunInv(states, actions, i);
    WakeCovers(states[i], t, w);
    CoveredForever(states, actions, i + 1, j, w);
    RunInv(states, actions, j);
    if states[j].threads == map[] { QuietIsWoken(states[j], w); }
    hide Inv, Covered, Storing;
  }

  /** Stored, covered, or given up by being replaced. */
  ghost predicate Kept(s: State, w: Waker) {
    || s.cell == Some(w)
    || Covered(s, w)
    || exists t :: t in s.threads && Bringing(s.threads[t], w)
  }

  /** The registration that brings `w` has not stored it yet. */
  predicate Bringing(pc: Pc, w: Waker) {
    (pc.RStart? || pc.RStore?) && pc.waker == w
  }

  /** Some registration is past its start. */
  predicate Registers(pc: Pc) { pc.RStart? || pc.RStore? || pc.RRelease? || pc.RTake? || pc.RSwap? }

  /** One registering thread at a time, and what it has not stored yet is `w`. */
  ghost predicate OnlyBrings(s: State, w: Waker) {
    && (forall t, u :: t in s.threads && u in s.threads && Registers(s.threads[t]) && Registers(s.threads[u]) ==> t == u)
    && (forall t :: t in s.threads && (s.threads[t].RStart? || s.threads[t].RStore?) ==> s.threads[t].waker == w)
  }

  lemma KeptStays(s: State, a: Action, w: Waker)
    requires Inv(s) && Enabled(s, a) && Kept(s, w) && OnlyBrings(s, w)
    ensures Kept(Step(s, a), w)
  {
    var n := Step(s, a);
    if Covered(s, w) {
      CoveredStays(s, a, w);
    } else if s.cell == Some(w) {
    } else {
      var t :| t in s.threads && Bringing(s.threads[t], w);
      if a == Run(t) {
        assert s.registering ==> s.owner.value == t;
        assert n.cell == Some(w) || (t in n.threads && (Bringing(n.threads[t], w) || WillWake(n.threads[t], n.waking, w)));
      } else {
        assert t in n.threads && n.threads[t] == s.threads[t];
      }
    }
  }

  lemma OnlyBringsStays(s: State, a: Action, w: Waker)
    requires Enabled(s, a) && OnlyBrings(s, w) && !a.Register?
    ensures OnlyBrings(Step(s, a), w)
  {
    var n := Step(s, a);
    assert forall t | t in n.threads && t != a.t :: t in s.threads && n.threads[t] == s.threads[t];
    assert a.t in n.threads && Registers(n.threads[a.t]) ==> a.t in s.threads && Registers(s.threads[a.t]);
    assert a.t in n.threads && (n.threads[a.t].RStart? || n.threads[a.t].RStore?) ==>
        a.t in s.threads && s.threads[a.t].RStart? && n.threads[a.t].waker == s.threads[a.t].waker;
  }

  /**
   With one producer, a registration is never dropped: from its call on, until the next registration
   comes, its waker is about to be stored, stored, or woken.  Once no call is under way it is one of the
   last two.
   */
  lemma {:induction false} RegistrationKept(states: seq<State>, actions: seq<Action>, i: nat, j: nat, t: Tid)
    requires IsRun(states, actions) && i < j < |states| && actions[i] == Register(t)
    requires forall u | u in states[i].threads :: !Registers(states[i].threads[u])
    requires forall k {:trigger actions[k]} :: i < k < j ==> !actions[k].Register?
    ensures var w := states[i].next;
      && Kept(states[j], w) && OnlyBrings(states[j], w)
      && (states[j].threads == map[] ==> states[j].cell == Some(w) || w in states[j].woken)
  {
    hide Inv, Covered, OnlyBrings;
    var w := states[i].next;
    RunInv(states, actions, j);
    if i + 1 == j {
      RegisterBrings(states[i], t);
    } else {
      RegistrationKept(states, actions, i, j - 1, t);
      RunInv(states, actions, j - 1);
      KeptStays(states[j - 1], actions[j - 1], w);
      OnlyBringsStays(states[j - 1], actions[j - 1], w);
    }
    if states[j].threads == map[] && states[j].cell != Some(w) { QuietIsWoken(states[j], w); }
  }

  lemma RegisterBrings(s: State, t: Tid)
    requires Enabled(s, Register(t)) && forall u | u in s.threads :: !Registers(s.threads[u])
    ensures Kept(Step(s, Register(t)), s.next) && OnlyBrings(Step(s, Register(t)), s.next)
  {
    var n := Step(s, Register(t));
    assert t in n.threads && Bringing(n.threads[t], s.next);
  }

  // ----- calls that meet nobody -----

  function Runs(s: State, t: Tid, k: nat): State
    decreases k
  {
    if k > 0 && t in s.threads then Runs(RunStep(s, t), t, k - 1) else s
  }

  /** A registration that meets nobody stores its waker in place of the one before, and wakes nobody. */
  lemma RegisterAlone(s: State, t: Tid)
    requires Inv(s) && s.threads == map[]
    ensures var n := Runs(Step(s, Register(t)), t, 3);
      n.threads == map[] && n.cell == Some(s.next) && n.woken == s.woken && !n.registering && !n.waking
  {
    var s0 := Step(s, Register(t));
    var s1 := RunStep(s0, t);
    var s2 := RunStep(s1, t);
    var s3 := RunStep(s2, t);
    assert s1.threads == map[t := RStore(s.next)] && s2.threads == map[t := RRelease(s.next, s.cell)] && s3.threads == map[];
    assert Runs(s0, t, 3) == Runs(s1, t, 2) == Runs(s2, t, 1) == Runs(s3, t, 0);
  }

  /** A wake that meets nobody takes the waker that is stored, if there is one, and wakes it. */
  lemma WakeAlone(s: State, t: Tid)
    requires Inv(s) && s.threads == map[]
    ensures var n := Runs(Step(s, Wake(t)), t, 4);
      n.threads == map[] && n.cell == None && n.woken == s.woken + Elements(s.cell) && !n.registering && !n.waking
  {
    var s0 := Step(s, Wake(t));
    var s1 := RunStep(s0, t);
    var s2 := RunStep(s1, t);
    var s3 := RunStep(s2, t);
    var s4 := RunStep(s3, t);
    assert s1.threads == map[t := WTake] && s2.threads == map[t := WRelease(s.cell)] && s3.threads == map[t := WWake(s.cell)];
    assert s4.threads == map[];
    assert Runs(s0, t, 4) == Runs(s1, t, 3) == Runs(s2, t, 2) == Runs(s3, t, 1) == Runs(s4, t, 0);
  }
}
