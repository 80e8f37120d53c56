/**
 Removing a stale task before a new one is created (cleanup.go), so that a
 container never has two tasks.
 */
module Cleanup {
  import opened Runtime

  /** Replies to `container.Task(ctx, nil)` (the task's pid), `task.Status`
      and `task.Delete`. */
  datatype CleanupReplies = CleanupReplies(task: Result<uint32>, status: Result<TaskStatus>, delete: Option<Error>)

  const RunningContainer: Error := Other("unable to start running container")

  /** The error `cleanup` ends with: none when the container has no task or
      its stopped task was deleted. */
  function CleanupError(replies: CleanupReplies): (r: Option<Error>)
    // a missing task is no error; any other failure to look it up is
    ensures replies.task.Err? ==> (r.None? <==> IsNotFound(replies.task.error))
    // a task that is not stopped is refused
    ensures replies.task.Ok? && replies.status.Ok? && replies.status.value != Stopped ==> r == Some(RunningContainer)
    // every error is one of the replies' errors, or the refusal
    ensures r.Some? ==>
      || r.value == RunningContainer
      || (replies.task.Err? && r.value == replies.task.error)
      || (replies.status.Err? && r.value == replies.status.error)
      || r == replies.delete
  {
    match replies.task
    case Err(e) => if IsNotFound(e) then None else Some(e)
    case Ok(_) =>
      match replies.status
      case Err(e) => Some(e)
      case Ok(status) => if status != Stopped then Some(RunningContainer) else replies.delete
  }

  /** `cleanup`: succeed when the container has no task, delete a stopped
      task, and refuse a task in any other state. */
  function Cleanup(container: Container, replies: CleanupReplies): (r: Traced<Option<Error>>)
    ensures |r.calls| > 0 && r.calls[0] == LoadTask(container.id, NoIo)
    ensures replies.task.Err? && IsNotFound(replies.task.error) ==> r.value.None? && NoDeletes(r.calls)
    ensures replies.task.Err? && !IsNotFound(replies.task.error) ==>
      r.value == Some(replies.task.error) && NoDeletes(r.calls)
    ensures replies.task.Ok? && replies.status.Err? ==>
      r.value == Some(replies.status.error) && NoDeletes(r.calls)
    ensures replies.task.Ok? && replies.status.Ok? && replies.status.value != Stopped ==>
      r.value == Some(RunningContainer) && NoDeletes(r.calls)
    ensures replies.task.Ok? && replies.status == Ok(Stopped) ==>
      var t := Task(container.id, replies.task.value);
      r == Traced(replies.delete, [LoadTask(container.id, NoIo), QueryStatus(t), DeleteTask(t, false)])
    ensures r.value == CleanupError(replies)
    ensures KeepsProcesses(r.calls) && NoNewTasks(r.calls) && NoReconnects(r.calls)
    // the only delete is the last call, and it happens only to a stopped task
    ensures !NoDeletes(r.calls) ==>
      && replies.task.Ok? && replies.status == Ok(Stopped)
      && r.calls[|r.calls| - 1] == DeleteTask(Task(container.id, replies.task.value), false)
      && NoDeletes(Init(r.calls))
  {
    var looked := [LoadTask(container.id, NoIo)];
    match replies.task
    case Err(e) => if IsNotFound(e) then Traced(None, looked) else Traced(Some(e), looked)
    case Ok(pid) =>
      var t := Task(container.id, pid);
      var queried := looked + [QueryStatus(t)];
      CountCons(LoadTask(container.id, NoIo), [QueryStatus(t)]);
      CountSnoc(queried, DeleteTask(t, false));
      match replies.status
      case Err(e) => Traced(Some(e), queried)
      case Ok(status) =>
        if status != Stopped then Traced(Some(RunningContainer), queried)
        else Traced(replies.delete, queried + [DeleteTask(t, false)])
  }

  /** Cleanup succeeds exactly when no task is left behind: there was none,
      or the stopped one was deleted. */
  lemma CleanupSucceedsIff(replies: CleanupReplies)
    ensures CleanupError(replies).None? <==>
      || (replies.task.Err? && IsNotFound(replies.task.error))
      || (replies.task.Ok? && replies.status == Ok(Stopped) && replies.delete.None?)
  {
  }
}
