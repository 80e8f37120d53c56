/**
 Connection helpers (util.go): re-attaching to a container's task, sending
 a signal with a direct-kill fallback, and building a fresh client.
 */
module Util {
  import opened Runtime

  /** Replies to `client.LoadContainer(id)` and to
      `container.Task(ctx, cio.NewAttach(cio.WithStdio))` (the task's pid). */
  datatype AttachReplies = AttachReplies(load: Option<Error>, attach: Result<uint32>)

  /** The replies let `getTask` hand back a task. */
  predicate Reacquires(r: AttachReplies) {
    r.load.None? && r.attach.Ok?
  }

  /** `getTask`: load the container and attach to the task it already has.
      The handle is that container's task; no task is ever created. */
  function GetTask(id: string, replies: AttachReplies): (r: Traced<Result<Task>>)
    ensures NoNewTasks(r.calls) && NoDeletes(r.calls) && NoReconnects(r.calls)
    ensures replies.load.Some? ==> r == Traced(Err(replies.load.value), [LoadContainer(id)])
    ensures replies.load.None? ==> r.calls == [LoadContainer(id), LoadTask(id, AttachStdio)]
    ensures r.value.Ok? <==> Reacquires(replies)
    ensures r.value.Ok? ==> r.value.value == Task(id, replies.attach.value)
    ensures replies.load.None? && replies.attach.Err? ==> r.value == Err(replies.attach.error)
    ensures Kills(r.calls) == 0
  {
    var loaded := [LoadContainer(id)];
    if replies.load.Some? then Traced(Err(replies.load.value), loaded)
    else
      var attached := loaded + [LoadTask(id, AttachStdio)];
      match replies.attach
      case Err(e) => Traced(Err(e), attached)
      case Ok(pid) => Traced(Ok(Task(id, pid)), attached)
  }

  /** `trySendSignal`: one runtime Kill; only when the runtime is
      unavailable, the signal goes straight to the task's pid. */
  function TrySendSignal(task: Task, sig: Signal, kill: Option<Error>, hostKill: Option<Error>): (r: Traced<Option<Error>>)
    ensures kill.None? ==> r == Traced(None, [KillTask(task, sig)])
    ensures kill.Some? && !IsUnavailable(kill) ==> r == Traced(kill, [KillTask(task, sig)])
    ensures IsUnavailable(kill) ==> r == Traced(hostKill, [KillTask(task, sig), HostKill(task.pid, sig)])
    ensures Kills(r.calls) == 1 && NoReconnects(r.calls) && NoDeletes(r.calls) && NoNewTasks(r.calls)
  {
    var killed := [KillTask(task, sig)];
    if kill.None? then Traced(None, killed)
    else if !IsUnavailable(kill) then Traced(kill, killed)
    else
      Traced(hostKill, killed + [HostKill(task.pid, sig)])
  }

  /** A signal is reported delivered exactly when the runtime took it, or the
      runtime was unavailable and the host kill took it. */
  lemma SignalDeliveredIff(task: Task, sig: Signal, kill: Option<Error>, hostKill: Option<Error>)
    ensures TrySendSignal(task, sig, kill, hostKill).value.None? <==>
      kill.None? || (IsUnavailable(kill) && hostKill.None?)
  {
  }

  /** A fresh client and the re-attached task. */
  datatype Connection = Connection(client: Client, task: Task)

  /** `reconnect`: dial a new client, then attach to the container's task;
      either failure yields no handles at all. */
  function Reconnect(id: string, dialed: Result<Client>, reacquire: AttachReplies): (r: Traced<Result<Connection>>)
    ensures dialed.Err? ==> r == Traced(Err(dialed.error), [NewClient])
    ensures dialed.Ok? ==> r.calls == [NewClient] + GetTask(id, reacquire).calls
    ensures r.value.Ok? <==> dialed.Ok? && Reacquires(reacquire)
    ensures r.value.Ok? ==> r.value.value == Connection(dialed.value, Task(id, reacquire.attach.value))
    ensures dialed.Ok? && !Reacquires(reacquire) ==> r.value == Err(GetTask(id, reacquire).value.error)
    ensures NoNewTasks(r.calls) && NoDeletes(r.calls)
  {
    match dialed
    case Err(e) => Traced(Err(e), [NewClient])
    case Ok(client) =>
      var got := GetTask(id, reacquire);
      var calls := [NewClient] + got.calls;
      CountAppend([NewClient], got.calls);
      match got.value
      case Err(e) => Traced(Err(e), calls)
      case Ok(t) => Traced(Ok(Connection(client, t)), calls)
  }
}
