/**
 The list of tasks a runtime owns (`runtime/task/list.rs`) over the intrusive list.  A task is its list
 node; what shutting it down does to its state word is the subject of the task life cycle modules.
 */
module OwnedTasks {
  import L = LinkedList

  type TaskId = nat

  /** `log` is `before` followed by the tasks of the list from its oldest on, down to position `left`. */
  ghost predicate OldestFirst(log: seq<TaskId>, before: seq<TaskId>, tasks: seq<L.Node<TaskId>>, left: nat)
    requires left <= |tasks|
  {
    && |log| == |before| + |tasks| - left
    && log[..|before|] == before
    && forall k :: left <= k < |tasks| ==> log[|before| + |tasks| - 1 - k] == tasks[k].value
  }

  class OwnedTasks {
    const list: L.LinkedList<TaskId>
    var closed: bool
    ghost var shutDown: seq<TaskId>

    ghost predicate Valid()
      reads this, list, list.nodes
    {
      list.Valid()
    }

    constructor ()
      ensures Valid() && fresh(list) && list.nodes == [] && !closed && shutDown == []
    {
      list := new L.LinkedList();
      closed := false;
      shutDown := [];
    }

    /** `bind`: the task is listed and its notification handed out, or shut down at once. */
    method Bind(task: L.Node<TaskId>) returns (notified: bool)
      requires Valid() && task !in list.nodes && task.Unlinked()
      modifies this, list, list.nodes, task
      ensures Valid() && closed == old(closed) && notified == !closed
      ensures list.nodes == (if closed then [] else [task]) + old(list.nodes)
      ensures shutDown == old(shutDown) + if closed then [task.value] else []
    {
      if closed {
        ShutDown(task);
        return false;
      }
      list.PushFront(task);
      notified := true;
    }

    /** What a completing task does: true if it was still listed, and then its reference goes with it. */
    method Remove(task: L.Node<TaskId>) returns (listed: bool)
      requires Valid() && (task in list.nodes || task.Unlinked())
      modifies list, list.nodes, task
      ensures Valid() && listed == (task in old(list.nodes)) && task.Unlinked()
      ensures list.nodes == L.Without(old(list.nodes), task)
      ensures !listed ==> list.nodes == old(list.nodes) && unchanged(list) && unchanged(old(list.nodes))
    {
      var removed := list.Remove(task);
      listed := removed.Some?;
      if !listed { L.WithoutAbsent(old(list.nodes), task); }
    }

    /** An idle task that is shut down completes at once, and looks for itself in the list it has left. */
    method ShutDown(task: L.Node<TaskId>)
      requires Valid() && task !in list.nodes && task.Unlinked()
      modifies `shutDown, list, list.nodes, task
      ensures Valid() && list.nodes == old(list.nodes) && task.Unlinked()
      ensures shutDown == old(shutDown) + [task.value]
    {
      shutDown := shutDown + [task.value];
      var listed := Remove(task);
      assert !listed;
    }

    /** Closes the list and shuts down every task in it, oldest first, each exactly once. */
    method CloseAndShutdownAll()
      requires Valid()
      modifies this, list, list.nodes
      ensures Valid() && closed && list.nodes == []
      ensures OldestFirst(shutDown, old(shutDown), old(list.nodes), 0)
    {
      hide L.LinkedList.Valid, OldestFirst;
      NoneYet(shutDown, list.nodes);
      closed := true;
      var first := list.PopBack();
      if first.None? { return; }
      OneMore(shutDown, old(shutDown), old(list.nodes), |old(list.nodes)|);
      ShutDown(first.value);
      while true
        invariant Valid() && closed && list.nodes <= old(list.nodes)
        invariant OldestFirst(shutDown, old(shutDown), old(list.nodes), |list.nodes|)
        decreases |list.nodes|
      {
        var task := list.PopBack();
        if task.None? { return; }
        OneMore(shutDown, old(shutDown), old(list.nodes), |list.nodes| + 1);
        ShutDown(task.value);
      }
    }
  }

  lemma NoneYet(log: seq<TaskId>, tasks: seq<L.Node<TaskId>>)
    ensures OldestFirst(log, log, tasks, |tasks|)
  {
  }

  lemma OneMore(log: seq<TaskId>, before: seq<TaskId>, tasks: seq<L.Node<TaskId>>, left: nat)
    requires 0 < left <= |tasks| && OldestFirst(log, before, tasks, left)
    ensures OldestFirst(log + [tasks[left - 1].value], before, tasks, left - 1)
  {
  }
}
