/** The bounded channel as an object over the semaphore object; every call is one of the steps of `BoundedChannel`. */
module Channel {
  import opened Permits
  import opened PermitTheorems
  import opened BoundedChannel
  import opened BoundedChannelTheorems
  import S = Semaphore

  class Channel {
    const semaphore: S.Semaphore
    const capacity: nat
    var messages: seq<Message>
    var permits: nat
    var txCount: nat
    var marker: bool
    var rxAlive: bool
    var rxClosed: bool
    var waiting: bool

    ghost function View(): Chan
      reads this, semaphore, semaphore.waiters
    {
      Chan(semaphore.View(), capacity, messages, permits, txCount, marker, rxAlive, rxClosed, waiting)
    }

    ghost predicate Valid()
      reads this, semaphore, semaphore.waiters, semaphore.waiters.nodes, semaphore.nodes
    {
      semaphore.Valid() && ChanOk(View())
    }

    constructor (buffer: nat)
      requires buffer > 0
      ensures Valid() && View() == Opened(buffer) && fresh(semaphore) && fresh(semaphore.waiters)
    {
      semaphore := new S.Semaphore(buffer);
      capacity := buffer;
      messages, permits, txCount := [], 0, 1;
      marker, rxAlive, rxClosed, waiting := false, true, false, false;
    }

    /** `rx_waker.wake()`. */
    method WakeReceiver()
      modifies `waiting
      ensures View() == Wake(old(View()))
    {
      waiting := false;
    }

    method IsIdle() returns (idle: bool)
      ensures idle <==> Idle(View())
    {
      idle := semaphore.permits == capacity;
    }

    method NewReserve() returns (id: Id)
      requires Valid() && CanStep(View(), ReserveOp)
      modifies this, semaphore
      ensures Valid() && View() == Step(old(View()), ReserveOp) && id == old(|semaphore.acquires|)
    {
      hide S.Semaphore.Valid, SemOk;
      StepOk(View(), ReserveOp);
      id := semaphore.NewAcquire(1);
    }

    method PollReserve(id: Id, waker: Waker) returns (result: PollResult)
      requires Valid() && CanStep(View(), PollReserveOp(id, waker))
      modifies this, semaphore, semaphore.waiters, semaphore.nodes
      ensures Valid() && View() == Step(old(View()), PollReserveOp(id, waker))
      ensures old(WellFormed(semaphore.View())) && result == Poll(old(semaphore.View()), id, waker).1
    {
      hide S.Semaphore.Valid, SemOk, Poll;
      IsWellFormed(semaphore.View());
      StepOk(View(), PollReserveOp(id, waker));
      var woken;
      result, woken := semaphore.PollAcquire(id, waker);
      if result == Ok { permits := permits + 1; }
    }

    method DropReserve(id: Id)
      requires Valid() && CanStep(View(), DropReserveOp(id))
      modifies this, semaphore, semaphore.waiters, semaphore.nodes
      ensures Valid() && View() == Step(old(View()), DropReserveOp(id))
    {
      hide S.Semaphore.Valid, SemOk, Drop;
      StepOk(View(), DropReserveOp(id));
      var _ := semaphore.DropAcquire(id);
    }

    method TryReserve() returns (result: TryResult)
      requires Valid() && CanStep(View(), TryReserveOp)
      modifies this, semaphore
      ensures Valid() && View() == Step(old(View()), TryReserveOp)
      ensures result == TryAcquire(old(semaphore.View()), 1).1
    {
      hide S.Semaphore.Valid, SemOk;
      StepOk(View(), TryReserveOp);
      result := semaphore.TryAcquire(1);
      if result == Acquired { permits := permits + 1; }
    }

    /** `Permit::send` and `OwnedPermit::send`. */
    method SendPermit(message: Message)
      requires Valid() && CanStep(View(), SendOp(message))
      modifies this
      ensures Valid() && View() == Step(old(View()), SendOp(message))
    {
      hide S.Semaphore.Valid, SemOk;
      StepOk(View(), SendOp(message));
      permits := permits - 1;
      messages := messages + [message];
      WakeReceiver();
    }

    /** `try_send`: a permit is taken and used at once. */
    method TrySend(message: Message) returns (result: TryResult)
      requires Valid() && txCount > 0
      modifies this, semaphore
      ensures Valid() && result == TryAcquire(old(semaphore.View()), 1).1
      ensures var c := Step(old(View()), TryReserveOp);
        View() == if result == Acquired then Send(c, message) else c
    {
      hide S.Semaphore.Valid, ChanOk;
      result := TryReserve();
      if result == Acquired {
        SendPermit(message);
      }
    }

    /** `OwnedPermit::release`. */
    method ReleasePermit()
      requires Valid() && CanStep(View(), ReleasePermitOp)
      modifies this, semaphore, semaphore.waiters, semaphore.nodes
      ensures Valid() && View() == Step(old(View()), ReleasePermitOp)
    {
      hide S.Semaphore.Valid, SemOk, AddPermits;
      StepOk(View(), ReleasePermitOp);
      var _ := semaphore.Release(1);
      permits := permits - 1;
    }

    method DropPermit()
      requires Valid() && CanStep(View(), DropPermitOp)
      modifies this, semaphore, semaphore.waiters, semaphore.nodes
      ensures Valid() && View() == Step(old(View()), DropPermitOp)
    {
      hide S.Semaphore.Valid, SemOk, AddPermits;
      StepOk(View(), DropPermitOp);
      var _ := semaphore.Release(1);
      permits := permits - 1;
      var idle := IsIdle();
      if semaphore.closed && idle {
        WakeReceiver();
      }
    }

    method CloneSender()
      requires Valid() && CanStep(View(), CloneSenderOp)
      modifies this
      ensures Valid() && View() == Step(old(View()), CloneSenderOp)
    {
      hide S.Semaphore.Valid, SemOk;
      StepOk(View(), CloneSenderOp);
      txCount := txCount + 1;
    }

    method DropSender()
      requires Valid() && CanStep(View(), DropSenderOp)
      modifies this
      ensures Valid() && View() == Step(old(View()), DropSenderOp)
    {
      hide S.Semaphore.Valid, SemOk;
      StepOk(View(), DropSenderOp);
      txCount := txCount - 1;
      if txCount != 0 { return; }
      marker := true;
      WakeReceiver();
    }

    /** `recv`, with the assertion on the close marker. */
    method Recv() returns (received: Received)
      requires Valid() && rxAlive
      modifies this, semaphore, semaphore.waiters, semaphore.nodes
      ensures Valid() && View() == Step(old(View()), RecvOp)
      ensures old(WellFormed(semaphore.View())) && received == BoundedChannel.Recv(old(View())).1
    {
      hide S.Semaphore.Valid, SemOk, AddPermits;
      IsWellFormed(semaphore.View());
      StepOk(View(), RecvOp);
      var idle := IsIdle();
      if messages != [] {
        received := Value(messages[0]);
        messages := messages[1..];
        waiting := false;
        var _ := semaphore.Release(1);
      } else if marker {
        MarkerMeansIdle(View());
        assert idle;
        received := Finished;
        waiting := false;
      } else if rxClosed && idle {
        received := Finished;
        waiting := false;
      } else {
        received := Waits;
        waiting := true;
      }
    }

    method CloseReceiver()
      requires Valid() && rxAlive
      modifies this, semaphore, semaphore.waiters, semaphore.nodes
      ensures Valid() && View() == Step(old(View()), CloseReceiverOp)
      ensures semaphore.nodes == old(semaphore.nodes)
    {
      hide S.Semaphore.Valid, SemOk, CloseAll;
      StepOk(View(), CloseReceiverOp);
      waiting := false;
      if rxClosed { return; }
      rxClosed := true;
      var _ := semaphore.Close();
    }

    /** `while let Some(Value(_)) = pop { add_permit }` */
    method DrainMessages()
      requires Valid()
      modifies this, semaphore, semaphore.waiters, semaphore.nodes
      ensures Valid() && old(WellFormed(semaphore.View()))
      ensures View() == old(View()).(sem := Drain(old(semaphore.View()), old(|messages|)), messages := [])
    {
      hide S.Semaphore.Valid, SemOk, AddPermits, ChanOk;
      SemOf(View());
      while messages != []
        invariant Valid() && SemOk(semaphore.View()) && WellFormed(semaphore.View()) && semaphore.nodes == old(semaphore.nodes)
        invariant View() == old(View()).(sem := semaphore.View(), messages := messages)
        invariant Drain(semaphore.View(), |messages|) == Drain(old(semaphore.View()), old(|messages|))
        decreases |messages|
      {
        GiveBackOk(View(), 1, permits, messages[1..]);
        messages := messages[1..];
        var _ := semaphore.Release(1);
        SemOf(View());
      }
    }

    /** Dropping the receiver: close, then give back the permit of every message that is there. */
    method DropReceiver()
      requires Valid() && rxAlive
      modifies this, semaphore, semaphore.waiters, semaphore.nodes
      ensures Valid() && View() == Step(old(View()), DropReceiverOp)
    {
      hide S.Semaphore.Valid, SemOk, Drain, CloseAll, ChanOk;
      StepOk(View(), DropReceiverOp);
      CloseReceiver();
      DrainMessages();
      rxAlive := false;
    }
  }

  lemma SemOf(c: Chan)
    requires ChanOk(c)
    ensures SemOk(c.sem) && WellFormed(c.sem)
  {
  }
}
