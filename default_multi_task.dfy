/**
 * Task composition: a multi-task hands control from its current sub-task to
 * another by stopping the old one and then starting the new one.
 */
module Tasks {

  /** Life-cycle status of a task. */
  datatype Status = Inactive | Active | Finished | Failed

  /** A sub-task with the default life cycle: start activates, stop deactivates. */
  class Task {
    var status: Status

    constructor ()
      ensures status == Inactive
    {
      status := Inactive;
    }

    method Start()
      modifies this`status
      ensures status == Active
    {
      status := Active;
    }

    method Stop()
      modifies this`status
      ensures status == Inactive
    {
      status := Inactive;
    }
  }

  /** A life-cycle call made on a sub-task, as recorded by the multi-task. */
  datatype Call = StopCall(task: Task) | StartCall(task: Task)

  /**
   * The calls one swap makes, in order: the held task (if any) is stopped,
   * then the new task is started, exactly once and last.
   */
  function SwapCalls(current: Task?, next: Task): (r: seq<Call>)
    ensures |r| == if current == null then 1 else 2
    ensures r[|r| - 1] == StartCall(next)
    ensures current != null ==> r[0] == StopCall(current)
    ensures forall i :: 0 <= i < |r| && r[i].StartCall? ==> i == |r| - 1
    ensures forall i :: 0 <= i < |r| ==> r[i].task == current || r[i].task == next
  {
    if current == null then [StartCall(next)] else [StopCall(current), StartCall(next)]
  }

  class DefaultMultiTask {
    var currentTask: Task?
    /** Every life-cycle call this multi-task has made on its sub-tasks. */
    ghost var calls: seq<Call>

    constructor ()
      ensures currentTask == null && calls == []
    {
      currentTask := null;
      calls := [];
    }

    /**
     * Only the outgoing and the incoming sub-task are touched; the outgoing
     * one is stopped before the incoming one is started. Swapping to the
     * task already held stops it and starts it again.
     */
    method SwapTask(newTask: Task)
      modifies this, newTask, currentTask
      ensures currentTask == newTask && newTask.status == Active
      ensures old(currentTask) != null && old(currentTask) != newTask ==> old(currentTask).status == Inactive
      ensures calls == old(calls) + SwapCalls(old(currentTask), newTask)
    {
      if currentTask != null {
        currentTask.Stop();
        calls := calls + [StopCall(currentTask)];
      }
      currentTask := newTask;
      currentTask.Start();
      calls := calls + [StartCall(currentTask)];
    }
  }
}
