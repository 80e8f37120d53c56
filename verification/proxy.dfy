/**
 The proxy binary (main.go): named after the container it runs, it loads
 that container's configuration, creates the container if it is missing,
 replaces any stopped task with a fresh one, forwards signals to it, and
 exits with the task's exit code.

 As in start.dfy, the select loop is an event-step machine whose events carry
 the runtime's replies. The loop's reconnect decision reads the outer `err`
 of `proxy`, not the exit's error; that `err` is nil once the first Wait
 succeeded, so an exit error always ends `proxy` with a nil error and the
 reconnect branch is never taken. The model keeps that `err` as state and
 proves the consequences.
 */
module Proxy {
  import opened Runtime
  import ProxyConfig
  import Spec
  import Cleanup
  import Util
  import Paths

  /** The error `proxy` returns: one from the runtime, or an `exitError`
      carrying the task's exit status. Only the latter passes main's type
      assertion. */
  datatype ProxyError = RuntimeError(cause: Error) | ExitError(status: int)

  // ---------------------------------------------------------------------
  // create

  /** `create`: resolve the configured image without unpacking an imported
      one, then create the container with the current spec on a new snapshot
      of that image. `created` is the runtime's reply to `NewContainer`. */
  method Create(config: ProxyConfig.Config, images: ProxyConfig.ImageReplies, created: Option<Error>)
    returns (r: Traced<Result<Container>>)
    ensures r.value.Ok? <==> ProxyConfig.ImageChoice(config, images, false).Ok? && created.None?
    ensures r.value.Ok? ==> r.value.value == Container(config.id)
    // a resolution failure is the result, and no container is created
    ensures ProxyConfig.ImageChoice(config, images, false).Err? ==>
      r.value.Err? && r.value.error == ProxyConfig.ImageChoice(config, images, false).error
      && Count(r.calls, ContainerCreation) == 0
    // otherwise the container is created once, last, from the chosen image
    ensures ProxyConfig.ImageChoice(config, images, false).Ok? ==>
      && Count(r.calls, ContainerCreation) == 1
      && r.calls[|r.calls| - 1] == NewContainer(config.id, ProxyConfig.ImageChoice(config, images, false).value)
    ensures ProxyConfig.ImageChoice(config, images, false).Ok? && created.Some? ==> r.value == Err(created.value)
    ensures |r.calls| > 0 && r.calls[0] == LookupImage(config.image)
    // an imported image is not unpacked, and no task or client is touched
    ensures Count(r.calls, Unpack) == 0
    ensures NoNewTasks(r.calls) && NoDeletes(r.calls) && NoReconnects(r.calls)
  {
    var resolved := ProxyConfig.ResolveImage(config, images, false);
    ProxyConfig.ImageCallsTouchNoTask(resolved.calls);
    if resolved.value.Err? {
      return Traced(Err(resolved.value.error), resolved.calls);
    }
    var calls := resolved.calls + [NewContainer(config.id, resolved.value.value)];
    CountSnoc(resolved.calls, NewContainer(config.id, resolved.value.value));
    if created.Some? {
      return Traced(Err(created.value), calls);
    }
    return Traced(Ok(Container(config.id)), calls);
  }

  // ---------------------------------------------------------------------
  // update

  /** Replies for `container.Update(ctx, WithCurrentSpec)`: the record the
      runtime holds, the spec generator's and the encoder's replies to the
      option, and the runtime's reply to storing the updated record. */
  datatype UpdateReplies = UpdateReplies(
    record: Spec.ContainerRecord,
    generated: Result<Spec.OciSpec>,
    marshal: Option<Error>,
    stored: Option<Error>)

  /** The error updating the container ends with: the option's, or else
      storing the record's. */
  function UpdateError(replies: UpdateReplies): (r: Option<Error>)
    ensures r.None? <==> replies.generated.Ok? && replies.marshal.None? && replies.stored.None?
    // the option runs first: its errors come before the store's
    ensures replies.generated.Err? ==> r == Some(replies.generated.error)
    ensures replies.generated.Ok? && replies.marshal.Some? ==> r == replies.marshal
    ensures r.Some? ==> r == replies.marshal || r == replies.stored || (replies.generated.Err? && r == Some(replies.generated.error))
  {
    if replies.generated.Err? then Some(replies.generated.error)
    else if replies.marshal.Some? then replies.marshal
    else replies.stored
  }

  /** `container.Update(ctx, WithCurrentSpec)`: the option runs on the stored
      record and an option error is the result; otherwise storing the record
      is. */
  function Update(config: ProxyConfig.Config, argv: seq<string>, replies: UpdateReplies): (r: Option<Error>)
    requires |argv| > 0
    ensures r == UpdateError(replies)
    ensures r.None? <==> replies.generated.Ok? && replies.marshal.None? && replies.stored.None?
  {
    var applied := Spec.WithCurrentSpec(config, argv, replies.generated, replies.marshal, replies.record);
    if applied.err.Some? then applied.err else replies.stored
  }

  // ---------------------------------------------------------------------
  // the select loop

  /** The loop's variables: the container id, the task handle, and the outer
      `err` of `proxy`, which the exit path reads. */
  datatype ProxyState = ProxyState(id: string, task: Task, err: Option<Error>)

  /** One select iteration with the replies to the calls it makes: the start
      result; a signal with the replies to `task.Kill` and the host kill; or an
      exit with the replies to reconnecting (dialing and `getTask`) and to the
      new `task.Wait`. */
  datatype Event =
    | StartDone(result: Option<Error>)
    | SignalReceived(sig: Runtime.Signal, kill: Option<Error>, hostKill: Option<Error>)
    | WaitExit(exit: TaskExit, dialed: Result<Client>, reacquire: Util.AttachReplies, rewait: Option<Error>)

  /** The event is a clean exit of the task with this code. */
  predicate CleanExit(e: Event, code: int) {
    e.WaitExit? && e.exit.error.None? && e.exit.code as int == code
  }

  /** After a step the loop goes on, or `proxy` returns this error. */
  datatype Outcome = Continue(state: ProxyState) | Returned(err: Option<ProxyError>)

  /** A runtime error as `proxy` returns it. */
  function Raise(err: Option<Error>): (r: Option<ProxyError>)
    ensures r.None? <==> err.None?
    ensures r.Some? ==> r.value == RuntimeError(err.value)
  {
    match err
    case None => None
    case Some(e) => Some(RuntimeError(e))
  }

  /** What one select iteration decides. A start error is returned. A signal
      is forwarded, and a failed delivery returned. A clean exit returns its
      status. On an exit error the outer `err` decides: unless it is
      "unavailable" it is returned; otherwise the proxy reconnects, drops the
      new handles and waits on the old task again, going on with a nil
      `err`. */
  function StepOutcome(s: ProxyState, e: Event): (r: Outcome)
    // the loop goes on with the same task, and with a nil `err` unchanged
    ensures r.Continue? ==> r.state.id == s.id && r.state.task == s.task
    ensures r.Continue? && s.err.None? ==> r.state == s
    // an exit status is returned exactly for a clean exit
    ensures r.Returned? && r.err.Some? && r.err.value.ExitError? ==> CleanExit(e, r.err.value.status)
    ensures e.WaitExit? && e.exit.error.None? ==> r == Returned(Some(ExitError(e.exit.code as int)))
    // a signal lets the loop go on exactly when it was delivered
    ensures e.SignalReceived? ==>
      (r.Continue? <==> e.kill.None? || (IsUnavailable(e.kill) && e.hostKill.None?))
    // a failed delivery returns the runtime's Kill error, or the host kill's
    // error when the runtime was unavailable
    ensures e.SignalReceived? && r.Returned? ==>
      r.err == Some(RuntimeError(if IsUnavailable(e.kill) then e.hostKill.value else e.kill.value))
    // a start error is returned; a successful start changes nothing
    ensures e.StartDone? ==> r == if e.result.Some? then Returned(Some(RuntimeError(e.result.value))) else Continue(s)
    // the stale `err`: unless it is "unavailable", an exit error returns it,
    // so with a nil one an exit error returns nil
    ensures e.WaitExit? && e.exit.error.Some? && !IsUnavailable(s.err) ==> r == Returned(Raise(s.err))
    ensures e.WaitExit? && e.exit.error.Some? && s.err.None? ==> r == Returned(None)
  {
    match e
    case StartDone(result) =>
      if result.Some? then Returned(Raise(result)) else Continue(s)
    case SignalReceived(sig, kill, hostKill) =>
      var sent := Util.TrySendSignal(s.task, sig, kill, hostKill).value;
      if sent.Some? then Returned(Raise(sent)) else Continue(s)
    case WaitExit(exit, dialed, reacquire, rewait) =>
      if exit.error.None? then Returned(Some(ExitError(exit.code as int)))
      else if !IsUnavailable(s.err) then Returned(Raise(s.err))
      else
        var reconnected := Util.Reconnect(s.id, dialed, reacquire).value;
        if reconnected.Err? then Returned(Some(RuntimeError(reconnected.error)))
        else if rewait.Some? then Returned(Raise(rewait))
        else Continue(s.(err := None))
  }

  /** The runtime calls one select iteration makes: the signal's delivery, or
      on an exit error with an "unavailable" outer `err`, the reconnect and,
      once it succeeded, the new `Wait` on the old task. */
  function StepCalls(s: ProxyState, e: Event): (r: seq<Call>)
    ensures e.StartDone? ==> r == []
    // a signal is sent once, to the loop's task
    ensures e.SignalReceived? ==> Kills(r) == 1 && |r| > 0 && r[0] == KillTask(s.task, e.sig)
    // an exit reconnects only when the outer `err` is "unavailable"
    ensures e.WaitExit? && (e.exit.error.None? || !IsUnavailable(s.err)) ==> r == []
    ensures e.WaitExit? && e.exit.error.Some? && IsUnavailable(s.err) ==>
      && |r| > 0 && r[0] == NewClient
      && (e.dialed.Ok? && Util.Reacquires(e.reacquire) ==> r[|r| - 1] == WaitTask(s.task))
    ensures s.err.None? ==> NoReconnects(r)
    ensures NoDeletes(r) && NoNewTasks(r)
  {
    match e
    case StartDone(_) => []
    case SignalReceived(sig, kill, hostKill) => Util.TrySendSignal(s.task, sig, kill, hostKill).calls
    case WaitExit(exit, dialed, reacquire, rewait) =>
      if exit.error.None? || !IsUnavailable(s.err) then []
      else
        var reconnected := Util.Reconnect(s.id, dialed, reacquire);
        if reconnected.value.Err? then reconnected.calls
        else
          CountSnoc(reconnected.calls, WaitTask(s.task));
          reconnected.calls + [WaitTask(s.task)]
  }

  /** The select loop's decision over a sequence of iterations: that of the
      first one that returns; later events are never consumed. */
  function LoopOutcome(s: ProxyState, events: seq<Event>): (r: Outcome)
    ensures r.Continue? ==> r.state.id == s.id && r.state.task == s.task
    ensures r.Continue? && s.err.None? ==> r.state == s
    // an exit status is returned only for a clean exit among the events
    ensures r.Returned? && r.err.Some? && r.err.value.ExitError? ==>
      exists i | 0 <= i < |events| :: CleanExit(events[i], r.err.value.status)
    decreases |events|
  {
    if |events| == 0 then Continue(s)
    else
      match StepOutcome(s, events[0])
      case Returned(err) => Returned(err)
      case Continue(next) =>
        var tail := events[1..];
        var rest := LoopOutcome(next, tail);
        assert rest.Returned? && rest.err.Some? && rest.err.value.ExitError? ==>
          exists i | 0 <= i < |events| :: CleanExit(events[i], rest.err.value.status) by {
          if rest.Returned? && rest.err.Some? && rest.err.value.ExitError? {
            var i :| 0 <= i < |tail| && CleanExit(tail[i], rest.err.value.status);
            assert tail[i] == events[i + 1];
          }
        }
        rest
  }

  /** The runtime calls of the iterations the loop consumes, in order: those
      of every event up to and including the first that returns. */
  function LoopCalls(s: ProxyState, events: seq<Event>): (r: seq<Call>)
    // the first iteration's calls come first
    ensures |events| > 0 ==> StepCalls(s, events[0]) <= r
    decreases |events|
  {
    if |events| == 0 then []
    else
      match StepOutcome(s, events[0])
      case Returned(_) => StepCalls(s, events[0])
      case Continue(next) => StepCalls(s, events[0]) + LoopCalls(next, events[1..])
  }

  /** The select loop of `proxy`: run iterations until one returns. With a
      nil outer `err` it never reconnects, and it never creates or deletes a
      task. */
  method Loop(s: ProxyState, events: seq<Event>) returns (r: Traced<Outcome>)
    ensures r.value == LoopOutcome(s, events)
    // the trace is the consumed iterations' calls, in order; a received
    // signal is sent to the task first thing
    ensures r.calls == LoopCalls(s, events)
    ensures |events| > 0 && events[0].SignalReceived? ==> |r.calls| > 0 && r.calls[0] == KillTask(s.task, events[0].sig)
    ensures s.err.None? ==> NoReconnects(r.calls)
    ensures NoDeletes(r.calls) && NoNewTasks(r.calls)
    decreases |events|
  {
    if |events| == 0 {
      r := Traced(Continue(s), []);
      LoopCallsTouchNoTask(s, events);
      return;
    }
    var outcome := StepOutcome(s, events[0]);
    var made := StepCalls(s, events[0]);
    LoopUnfold(s, events);
    LoopCallsTouchNoTask(s, events);
    if outcome.Returned? {
      return Traced(outcome, made);
    }
    var rest := Loop(outcome.state, events[1..]);
    r := Traced(rest.value, made + rest.calls);
  }

  /** One iteration of the loop: a returning step decides, with its own
      calls; a continuing one is followed by the rest of the loop. */
  lemma LoopUnfold(s: ProxyState, events: seq<Event>)
    requires |events| > 0
    ensures var o := StepOutcome(s, events[0]);
      o.Returned? ==> LoopOutcome(s, events) == o && LoopCalls(s, events) == StepCalls(s, events[0])
    ensures var o := StepOutcome(s, events[0]);
      o.Continue? ==>
        && LoopOutcome(s, events) == LoopOutcome(o.state, events[1..])
        && LoopCalls(s, events) == StepCalls(s, events[0]) + LoopCalls(o.state, events[1..])
  {
  }

  /** The loop's calls never create or delete a task, and with a nil outer
      `err` never reconnect. */
  lemma {:induction false} LoopCallsTouchNoTask(s: ProxyState, events: seq<Event>)
    ensures NoDeletes(LoopCalls(s, events)) && NoNewTasks(LoopCalls(s, events))
    ensures s.err.None? ==> NoReconnects(LoopCalls(s, events))
    decreases |events|
  {
    if |events| > 0 {
      var made := StepCalls(s, events[0]);
      var o := StepOutcome(s, events[0]);
      if o.Continue? {
        LoopCallsTouchNoTask(o.state, events[1..]);
        CountAppend(made, LoopCalls(o.state, events[1..]));
      }
    }
  }

  /** The events before index `i` all let the loop go on from `s`. */
  predicate ContinuesBefore(s: ProxyState, events: seq<Event>, i: int)
    requires 0 <= i <= |events|
  {
    forall j | 0 <= j < i :: StepOutcome(s, events[j]).Continue?
  }

  /** With a nil outer `err` the state never changes, so the loop's decision
      is that of the first event that returns on its own, every earlier
      event having let the loop go on. */
  lemma {:induction false} LoopReturnsFirstReturningStep(s: ProxyState, events: seq<Event>)
    requires s.err.None?
    requires LoopOutcome(s, events).Returned?
    ensures exists i | 0 <= i < |events| ::
      StepOutcome(s, events[i]) == LoopOutcome(s, events) && ContinuesBefore(s, events, i)
    decreases |events|
  {
    if StepOutcome(s, events[0]).Continue? {
      var tail := events[1..];
      LoopReturnsFirstReturningStep(s, tail);
      var i :| 0 <= i < |tail| && StepOutcome(s, tail[i]) == LoopOutcome(s, tail) && ContinuesBefore(s, tail, i);
      assert tail[i] == events[i + 1];
      forall j | 0 <= j < i + 1 ensures StepOutcome(s, events[j]).Continue? {
        if j > 0 { assert events[j] == tail[j - 1]; }
      }
      assert ContinuesBefore(s, events, i + 1);
    } else {
      assert ContinuesBefore(s, events, 0);
    }
  }

  /** With a nil outer `err`, the loop is still running after the events
      exactly when every one of them let it go on. */
  lemma {:induction false} LoopContinuesIffAllContinue(s: ProxyState, events: seq<Event>)
    requires s.err.None?
    ensures LoopOutcome(s, events).Continue? <==> ContinuesBefore(s, events, |events|)
    decreases |events|
  {
    if |events| > 0 {
      var tail := events[1..];
      LoopContinuesIffAllContinue(s, tail);
      if StepOutcome(s, events[0]).Continue? {
        assert ContinuesBefore(s, events, |events|) <==> ContinuesBefore(s, tail, |tail|) by {
          forall j | 0 < j < |events| ensures events[j] == tail[j - 1] { }
        }
      }
    }
  }

  // ---------------------------------------------------------------------
  // proxy

  /** The runtime's replies to the calls `proxy` makes before its loop:
      dialing the client, `LoadContainer`, creating the container when it is
      missing, `cleanup`, `Update`, `NewTask` (the new task's pid) and the
      first `Wait`. */
  datatype ProxySetup = ProxySetup(
    client: Option<Error>,
    load: Option<Error>,
    images: ProxyConfig.ImageReplies,
    created: Option<Error>,
    cleanup: Cleanup.CleanupReplies,
    update: UpdateReplies,
    newTask: Result<uint32>,
    wait: Option<Error>)

  /** The container exists, or is missing and can be created. */
  predicate ContainerAvailable(config: ProxyConfig.Config, setup: ProxySetup): (r: bool)
    // a failed load other than "not found" leaves no container
    ensures setup.load.Some? && !IsNotFound(setup.load.value) ==> !r
    // a created container needs an image and a successful NewContainer
    ensures r && setup.load.Some? ==> ProxyConfig.ImageChoice(config, setup.images, false).Ok? && setup.created.None?
  {
    || setup.load.None?
    || (setup.load.Some? && IsNotFound(setup.load.value) && ProxyConfig.ImageChoice(config, setup.images, false).Ok? && setup.created.None?)
  }

  /** The error acquiring the container fails with: a load error other than
      "not found", or the failure to create the missing container. */
  function AcquireError(config: ProxyConfig.Config, setup: ProxySetup): (r: Option<Error>)
    ensures r.None? <==> ContainerAvailable(config, setup)
    ensures setup.load.Some? && !IsNotFound(setup.load.value) ==> r == setup.load
  {
    if setup.load.None? then None
    else if !IsNotFound(setup.load.value) then setup.load
    else
      match ProxyConfig.ImageChoice(config, setup.images, false)
      case Err(e) => Some(e)
      case Ok(_) => setup.created
  }

  /** Everything before `NewTask` succeeds: the client is dialed, the
      container acquired, its stale task removed and its spec updated. */
  predicate ReadyForTask(config: ProxyConfig.Config, setup: ProxySetup): (r: bool)
    // each step before `NewTask` must have succeeded
    ensures r ==> setup.client.None? && ContainerAvailable(config, setup)
    ensures r ==> Cleanup.CleanupError(setup.cleanup).None? && UpdateError(setup.update).None?
    // a running stale task, or any failed step, keeps the task from being created
    ensures setup.cleanup.task.Ok? && setup.cleanup.status.Ok? && setup.cleanup.status.value != Stopped ==> !r
  {
    && setup.client.None?
    && ContainerAvailable(config, setup)
    && Cleanup.CleanupError(setup.cleanup).None?
    && UpdateError(setup.update).None?
  }

  /** The task `proxy` creates, and the state its loop starts from. */
  function StartState(config: ProxyConfig.Config, setup: ProxySetup): ProxyState
    requires setup.newTask.Ok?
  {
    ProxyState(config.id, Task(config.id, setup.newTask.value), None)
  }

  /** The container `proxy` works on, after dialing the client: the loaded
      one, or a newly created one when it does not exist; any other load
      error is returned. */
  method Acquire(config: ProxyConfig.Config, setup: ProxySetup) returns (r: Traced<Result<Container>>)
    ensures |r.calls| > 0 && r.calls[0] == LoadContainer(config.id)
    ensures r.value.Ok? <==> ContainerAvailable(config, setup)
    ensures r.value.Ok? ==> r.value.value == Container(config.id)
    ensures r.value.Err? ==> AcquireError(config, setup) == Some(r.value.error)
    // an existing container is used as it is; a load failure other than
    // "not found" is the result
    ensures setup.load.None? ==> r.calls == [LoadContainer(config.id)]
    ensures setup.load.Some? && !IsNotFound(setup.load.value) ==>
      r.value == Err(setup.load.value) && r.calls == [LoadContainer(config.id)]
    // a container is created only when it was not found
    ensures Count(r.calls, ContainerCreation) > 0 ==> setup.load.Some? && IsNotFound(setup.load.value)
    // and a container that was not found goes through `create`: the image
    // lookup follows the load, and a chosen image ends in one NewContainer
    ensures setup.load.Some? && IsNotFound(setup.load.value) ==>
      |r.calls| > 1 && r.calls[1] == LookupImage(config.image)
    ensures setup.load.Some? && IsNotFound(setup.load.value) && ProxyConfig.ImageChoice(config, setup.images, false).Ok? ==>
      && Count(r.calls, ContainerCreation) == 1
      && r.calls[|r.calls| - 1] == NewContainer(config.id, ProxyConfig.ImageChoice(config, setup.images, false).value)
    ensures NoNewTasks(r.calls) && NoDeletes(r.calls) && NoReconnects(r.calls)
  {
    var loaded := [LoadContainer(config.id)];
    if setup.load.None? {
      return Traced(Ok(Container(config.id)), loaded);
    }
    if !IsNotFound(setup.load.value) {
      return Traced(Err(setup.load.value), loaded);
    }
    var made := Create(config, setup.images, setup.created);
    CountAppend(loaded, made.calls);
    return Traced(made.value, loaded + made.calls);
  }

  /** The part of `proxy` after `NewTask` succeeded: subscribe to the
      task's exit, start it and run the loop from a nil `err`. Returning
      deletes the task, without killing its process, on the way out. */
  method Supervise(id: string, task: Task, wait: Option<Error>, events: seq<Event>) returns (r: Traced<Outcome>)
    ensures |r.calls| > 0 && r.calls[0] == WaitTask(task)
    ensures NoNewTasks(r.calls) && NoReconnects(r.calls) && KeepsProcesses(r.calls)
    ensures wait.Some? ==> r.value == Returned(Raise(wait)) && r.calls == [WaitTask(task), DeleteTask(task, false)]
    // with the exit subscribed, the task is started and the loop decides
    ensures wait.None? ==>
      && r.value == LoopOutcome(ProxyState(id, task, None), events)
      && |r.calls| >= 2 && r.calls[1] == StartTask(task)
    // the deferred delete is the last call and the only delete
    ensures r.value.Returned? ==> r.calls[|r.calls| - 1] == DeleteTask(task, false) && NoDeletes(Init(r.calls))
    ensures r.value.Continue? ==> NoDeletes(r.calls)
  {
    if wait.Some? {
      var calls := [WaitTask(task), DeleteTask(task, false)];
      CountZeroIff(calls, Dial);
      CountZeroIff(calls, TaskCreation);
      CountZeroIff(calls, KillingDeletion);
      CountZeroIff(Init(calls), Deletion);
      return Traced(Returned(Raise(wait)), calls);
    }
    r := Started(id, task, events);
  }

  /** The subscribed task is started, the loop runs from a nil `err`, and
      returning deletes the task last. */
  method Started(id: string, task: Task, events: seq<Event>) returns (r: Traced<Outcome>)
    ensures |r.calls| >= 2 && r.calls[0] == WaitTask(task) && r.calls[1] == StartTask(task)
    ensures NoNewTasks(r.calls) && NoReconnects(r.calls) && KeepsProcesses(r.calls)
    ensures r.value == LoopOutcome(ProxyState(id, task, None), events)
    ensures r.value.Returned? ==> r.calls[|r.calls| - 1] == DeleteTask(task, false) && NoDeletes(Init(r.calls))
    ensures r.value.Continue? ==> NoDeletes(r.calls)
  {
    var loop := Loop(ProxyState(id, task, None), events);
    KillingDeletesAreDeletes(loop.calls);
    var started := [WaitTask(task), StartTask(task)];
    CountZeroIff(started, Dial);
    CountZeroIff(started, TaskCreation);
    CountZeroIff(started, Deletion);
    CountZeroIff(started, KillingDeletion);
    var running := started + loop.calls;
    CountAppend(started, loop.calls);
    if loop.value.Continue? {
      return Traced(loop.value, running);
    }
    var deleted := DeleteTask(task, false);
    CountSnoc(running, deleted);
    assert Init(running + [deleted]) == running;
    return Traced(loop.value, running + [deleted]);
  }

  /** The part of `proxy` from `NewTask` on: create the one task and
      supervise it. */
  method Tasked(config: ProxyConfig.Config, setup: ProxySetup, events: seq<Event>) returns (r: Traced<Outcome>)
    ensures |r.calls| > 0 && r.calls[0] == NewTask(config.id, CreateStdio)
    ensures NewTasks(r.calls) == 1 && NoReconnects(r.calls) && KeepsProcesses(r.calls)
    ensures r.value == TaskOutcome(config, setup, events)
    ensures setup.newTask.Err? ==>
      r.value == Returned(Raise(Some(setup.newTask.error))) && r.calls == [NewTask(config.id, CreateStdio)]
    ensures setup.newTask.Ok? && setup.wait.Some? ==> r.value == Returned(Raise(setup.wait))
    ensures setup.newTask.Ok? && setup.wait.None? ==>
      && r.value == LoopOutcome(StartState(config, setup), events)
      && |r.calls| >= 3 && r.calls[2] == StartTask(StartState(config, setup).task)
    // once the task exists, returning deletes it last, and only then
    ensures setup.newTask.Ok? && r.value.Returned? ==>
      r.calls[|r.calls| - 1] == DeleteTask(Task(config.id, setup.newTask.value), false) && NoDeletes(Init(r.calls))
    ensures r.value.Continue? ==> NoDeletes(r.calls)
  {
    var created := [NewTask(config.id, CreateStdio)];
    if setup.newTask.Err? {
      return Traced(Returned(Some(RuntimeError(setup.newTask.error))), created);
    }
    var task := Task(config.id, setup.newTask.value);
    var run := Supervise(config.id, task, setup.wait, events);
    CountCons(NewTask(config.id, CreateStdio), run.calls);
    r := Traced(run.value, created + run.calls);
    if run.value.Returned? {
      InitAppend(created, run.calls);
      CountCons(NewTask(config.id, CreateStdio), Init(run.calls));
    }
  }

  /** What `proxy` does from `NewTask` on: a failure to create the task or
      to subscribe to its exit is returned, otherwise the loop decides. */
  function TaskOutcome(config: ProxyConfig.Config, setup: ProxySetup, events: seq<Event>): (r: Outcome)
    // a failed NewTask or Wait is returned before the loop runs
    ensures setup.newTask.Err? ==> r == Returned(Raise(Some(setup.newTask.error)))
    ensures setup.newTask.Ok? && setup.wait.Some? ==> r == Returned(Raise(setup.wait))
    // the loop only goes on with the new task and a nil `err`
    ensures r.Continue? ==> setup.newTask.Ok? && setup.wait.None? && r.state == StartState(config, setup)
    // an exit status is returned only for a clean exit of the task
    ensures r.Returned? && r.err.Some? && r.err.value.ExitError? ==>
      exists i | 0 <= i < |events| :: CleanExit(events[i], r.err.value.status)
  {
    if setup.newTask.Err? then Returned(Raise(Some(setup.newTask.error)))
    else if setup.wait.Some? then Returned(Raise(setup.wait))
    else LoopOutcome(StartState(config, setup), events)
  }

  /** The part of `proxy` once the container is acquired: remove its stale
      task, update its spec and run its one new task. */
  method Prepared(config: ProxyConfig.Config, argv: seq<string>, setup: ProxySetup, events: seq<Event>)
    returns (r: Traced<Outcome>)
    requires |argv| > 0
    ensures |r.calls| > 0 && r.calls[0] == LoadTask(config.id, NoIo)
    ensures NoReconnects(r.calls) && KeepsProcesses(r.calls)
    // a cleanup failure is returned before the update, an update failure
    // before the new task
    ensures Cleanup.CleanupError(setup.cleanup).Some? ==>
      && r.value == Returned(Raise(Cleanup.CleanupError(setup.cleanup)))
      && r.calls == Cleanup.Cleanup(Container(config.id), setup.cleanup).calls
    ensures Cleanup.CleanupError(setup.cleanup).None? && UpdateError(setup.update).Some? ==>
      && r.value == Returned(Raise(UpdateError(setup.update)))
      && r.calls == Cleanup.Cleanup(Container(config.id), setup.cleanup).calls + [UpdateContainer(config.id)]
    ensures Cleanup.CleanupError(setup.cleanup).None? && UpdateError(setup.update).None? ==>
      && r.value == TaskOutcome(config, setup, events)
      && NewTasks(r.calls) == 1
      && (setup.newTask.Ok? && r.value.Returned? ==>
            r.calls[|r.calls| - 1] == DeleteTask(Task(config.id, setup.newTask.value), false))
    ensures NewTasks(r.calls) == 1 <==> Cleanup.CleanupError(setup.cleanup).None? && UpdateError(setup.update).None?
    // on success the cleanup's calls come first, then the update, then the new task
    ensures Cleanup.CleanupError(setup.cleanup).None? && UpdateError(setup.update).None? ==>
      exists rest :: r.calls == Cleanup.Cleanup(Container(config.id), setup.cleanup).calls
        + [UpdateContainer(config.id), NewTask(config.id, CreateStdio)] + rest
    ensures NewTasks(r.calls) <= 1
  {
    var cleaned := Cleanup.Cleanup(Container(config.id), setup.cleanup);
    if cleaned.value.Some? {
      return Traced(Returned(Raise(cleaned.value)), cleaned.calls);
    }
    var failed := Update(config, argv, setup.update);
    var run := UpdatedTask(config, setup, events, failed);
    CountAppend(cleaned.calls, run.calls);
    r := Traced(run.value, cleaned.calls + run.calls);
    LastAppend(cleaned.calls, run.calls);
    if failed.None? {
      SpliceTwo(cleaned.calls, run.calls);
    }
  }

  /** The part of `proxy` after the cleanup: the container's spec is
      updated, with `failed` the error that comes back, then the new task is
      created and supervised. */
  method UpdatedTask(config: ProxyConfig.Config, setup: ProxySetup, events: seq<Event>, failed: Option<Error>)
    returns (r: Traced<Outcome>)
    ensures |r.calls| > 0 && r.calls[0] == UpdateContainer(config.id)
    ensures NoReconnects(r.calls) && KeepsProcesses(r.calls)
    ensures NewTasks(r.calls) == if failed.None? then 1 else 0
    ensures failed.Some? ==> r.value == Returned(Raise(failed)) && r.calls == [UpdateContainer(config.id)]
    ensures failed.None? ==>
      && r.value == TaskOutcome(config, setup, events)
      && NewTasks(r.calls) == 1
      && |r.calls| > 1 && r.calls[1] == NewTask(config.id, CreateStdio)
      && (setup.newTask.Ok? && r.value.Returned? ==>
            r.calls[|r.calls| - 1] == DeleteTask(Task(config.id, setup.newTask.value), false))
  {
    var updated := [UpdateContainer(config.id)];
    if failed.Some? {
      CountCons(UpdateContainer(config.id), []);
      assert updated + [] == updated;
      return Traced(Returned(Raise(failed)), updated);
    }
    var run := Tasked(config, setup, events);
    CountCons(UpdateContainer(config.id), run.calls);
    r := Traced(run.value, updated + run.calls);
    LastAppend(updated, run.calls);
  }

  /** The first error `proxy` meets before `NewTask`, if any: dialing the
      client, acquiring the container, cleaning up its stale task or
      updating its spec. */
  function SetupError(config: ProxyConfig.Config, setup: ProxySetup): (r: Option<Error>)
    ensures r.None? <==> ReadyForTask(config, setup)
  {
    if setup.client.Some? then setup.client
    else if AcquireError(config, setup).Some? then AcquireError(config, setup)
    else if Cleanup.CleanupError(setup.cleanup).Some? then Cleanup.CleanupError(setup.cleanup)
    else UpdateError(setup.update)
  }

  /** What `proxy` returns, or where its loop stands when the events run
      out. */
  function ProxyOutcome(config: ProxyConfig.Config, setup: ProxySetup, events: seq<Event>): (r: Outcome)
    // a container not ready for its task ends the proxy with a runtime error
    ensures !ReadyForTask(config, setup) ==> r.Returned? && r.err.Some? && r.err.value.RuntimeError?
    // the loop only ever runs on the one new task, with a nil `err`
    ensures r.Continue? ==>
      && ReadyForTask(config, setup) && setup.newTask.Ok? && setup.wait.None?
      && r.state == StartState(config, setup)
    // an exit status is returned only for a clean exit of the task
    ensures r.Returned? && r.err.Some? && r.err.value.ExitError? ==>
      exists i | 0 <= i < |events| :: CleanExit(events[i], r.err.value.status)
  {
    var failed := SetupError(config, setup);
    if failed.Some? then Returned(Raise(failed)) else TaskOutcome(config, setup, events)
  }

  /** The part of `proxy` after the client is dialed: acquire the
      container, prepare it and run its one new task. */
  method Connected(config: ProxyConfig.Config, argv: seq<string>, setup: ProxySetup, events: seq<Event>)
    returns (r: Traced<Outcome>)
    requires |argv| > 0
    ensures r.value == ProxyOutcome(config, setup.(client := None), events)
    ensures |r.calls| > 0 && r.calls[0] == LoadContainer(config.id) && NoReconnects(r.calls)
    ensures NewTasks(r.calls) <= 1
    ensures NewTasks(r.calls) == 1 <==> ReadyForTask(config, setup.(client := None))
    ensures KeepsProcesses(r.calls)
    ensures ReadyForTask(config, setup.(client := None)) && setup.newTask.Ok? && r.value.Returned? ==>
      r.calls[|r.calls| - 1] == DeleteTask(Task(config.id, setup.newTask.value), false)
  {
    var dialed := setup.(client := None);
    var got := Acquire(config, dialed);
    KillingDeletesAreDeletes(got.calls);
    if got.value.Err? {
      return Traced(Returned(Some(RuntimeError(got.value.error))), got.calls);
    }
    var rest := Prepared(config, argv, dialed, events);
    CountAppend(got.calls, rest.calls);
    r := Traced(rest.value, got.calls + rest.calls);
  }

  /** `proxy`: dial the client, then acquire the container, prepare it and
      run its one new task. */
  method Proxy(config: ProxyConfig.Config, argv: seq<string>, setup: ProxySetup, events: seq<Event>)
    returns (r: Traced<Outcome>)
    requires |argv| > 0
    ensures r.value == ProxyOutcome(config, setup, events)
    // the one client is dialed first, and nothing reconnects
    ensures |r.calls| > 0 && r.calls[0] == NewClient && Count(r.calls, Dial) == 1
    // a task is created once, and only for a container ready for it
    ensures NewTasks(r.calls) <= 1
    ensures NewTasks(r.calls) == 1 <==> ReadyForTask(config, setup)
    // no delete ever kills the task's process
    ensures KeepsProcesses(r.calls)
    // the deferred delete: once the task exists, returning deletes it last
    ensures ReadyForTask(config, setup) && setup.newTask.Ok? && r.value.Returned? ==>
      r.calls[|r.calls| - 1] == DeleteTask(Task(config.id, setup.newTask.value), false)
  {
    var dialed := [NewClient];
    assert dialed[..0] == [];
    CountZeroIff(dialed, KillingDeletion);
    CountZeroIff(dialed, TaskCreation);
    if setup.client.Some? {
      return Traced(Returned(Raise(setup.client)), dialed);
    }
    assert setup.(client := None) == setup;
    var rest := Connected(config, argv, setup, events);
    CountCons(NewClient, rest.calls);
    r := Traced(rest.value, dialed + rest.calls);
  }

  // ---------------------------------------------------------------------
  // main

  /** What the process does: exit with a code, having printed the error if
      there is one, or still be supervising when the events run out. */
  datatype MainResult = Exited(code: int, printed: Option<Error>) | Supervising

  /** main's exit mapping: an `exitError` becomes the process's exit code,
      any other error is printed and exits 1 (`exit`), nil exits 0. */
  function ExitFor(err: Option<ProxyError>): (r: MainResult)
    ensures r.Exited?
    ensures r.printed.Some? <==> err.Some? && err.value.RuntimeError?
    ensures r.printed.Some? ==> r.code == 1 && r.printed.value == err.value.cause
    ensures err.Some? && err.value.ExitError? ==> r.code == err.value.status
    ensures err.None? ==> r.code == 0
  {
    match err
    case None => Exited(0, None)
    case Some(ExitError(status)) => Exited(status, None)
    case Some(RuntimeError(e)) => Exited(1, Some(e))
  }

  /** `getID`: the container id is the base name of the binary. */
  function Id(argv: seq<string>): (r: string)
    requires |argv| > 0
    ensures |r| > 0 && (r == [Paths.Separator] || Paths.Separator !in r)
    // a binary invoked by its plain name gives that name
    ensures |argv[0]| > 0 && Paths.Separator !in argv[0] ==> r == argv[0]
    // and a path ending in a separator names what precedes it
    ensures |argv[0]| > 1 && argv[0][|argv[0]| - 1] == Paths.Separator ==> r == Paths.Base(argv[0][..|argv[0]| - 1])
  {
    Paths.Base(argv[0])
  }

  /** A binary installed under any directory by the container's name runs
      the proxy for that container. */
  lemma IdOfInstalledBinary(dir: string, id: string, args: seq<string>)
    requires |id| > 0 && Paths.Separator !in id
    ensures Id([dir + [Paths.Separator] + id] + args) == id
  {
    Paths.BaseOfJoin(dir, id);
  }

  /** What the process does: `open` and `decoded` are the replies of reading
      the configuration file of `Id(argv)`. */
  function MainOutcome(argv: seq<string>, open: Option<Error>, decoded: Result<ProxyConfig.Config>,
                       setup: ProxySetup, events: seq<Event>): (r: MainResult)
    requires |argv| > 0
    // an unreadable configuration is printed and exits 1
    ensures ProxyConfig.LoadConfig(Id(argv), open, decoded).Err? ==>
      r == Exited(1, Some(ProxyConfig.LoadConfig(Id(argv), open, decoded).error))
    // every printed error exits 1
    ensures r.Exited? && r.printed.Some? ==> r.code == 1
    // a silent non-zero exit is the task's own clean exit code
    ensures r.Exited? && r.printed.None? && r.code != 0 ==>
      exists i | 0 <= i < |events| :: CleanExit(events[i], r.code)
    ensures r.Supervising? ==>
      ProxyConfig.LoadConfig(Id(argv), open, decoded).Ok? &&
      ReadyForTask(ProxyConfig.LoadConfig(Id(argv), open, decoded).value, setup)
  {
    var loaded := ProxyConfig.LoadConfig(Id(argv), open, decoded);
    if loaded.Err? then Exited(1, Some(loaded.error))
    else
      var o := ProxyOutcome(loaded.value, setup, events);
      assert o.Returned? && o.err.Some? && o.err.value.ExitError? ==>
        exists i | 0 <= i < |events| :: CleanExit(events[i], o.err.value.status);
      if o.Continue? then Supervising else ExitFor(o.err)
  }

  /** `main` with the calls it makes. */
  method RunProxy(argv: seq<string>, open: Option<Error>, decoded: Result<ProxyConfig.Config>,
                  setup: ProxySetup, events: seq<Event>) returns (r: Traced<MainResult>)
    requires |argv| > 0
    ensures r.value == MainOutcome(argv, open, decoded, setup, events)
    // the container's configuration file is opened first
    ensures |r.calls| > 0 && r.calls[0] == OpenConfig(ProxyConfig.ConfigPath(Id(argv)))
    // without a configuration the runtime is never contacted
    ensures ProxyConfig.LoadConfig(Id(argv), open, decoded).Err? ==> r.calls == [r.calls[0]]
    ensures ProxyConfig.LoadConfig(Id(argv), open, decoded).Ok? ==>
      |r.calls| > 1 && r.calls[1] == NewClient && Count(r.calls, Dial) == 1
    // the one task is created exactly when its container is ready for it
    ensures NewTasks(r.calls) == 1 <==>
      ProxyConfig.LoadConfig(Id(argv), open, decoded).Ok? &&
      ReadyForTask(ProxyConfig.LoadConfig(Id(argv), open, decoded).value, setup)
    ensures KeepsProcesses(r.calls)
  {
    var path := ProxyConfig.ConfigPath(Id(argv));
    var loaded := ProxyConfig.LoadConfig(Id(argv), open, decoded);
    if loaded.Err? {
      var configRead := [OpenConfig(path)];
      CountZeroIff(configRead, TaskCreation);
      CountZeroIff(configRead, KillingDeletion);
      return Traced(Exited(1, Some(loaded.error)), configRead);
    }
    r := Configured(path, loaded.value, argv, setup, events);
    assert MainOutcome(argv, open, decoded, setup, events) == r.value;
  }

  /** The part of `main` after the configuration file at `path` was read. */
  method Configured(path: string, config: ProxyConfig.Config, argv: seq<string>, setup: ProxySetup, events: seq<Event>)
    returns (r: Traced<MainResult>)
    requires |argv| > 0
    ensures r.value == (var o := ProxyOutcome(config, setup, events); if o.Continue? then Supervising else ExitFor(o.err))
    ensures |r.calls| > 1 && r.calls[0] == OpenConfig(path) && r.calls[1] == NewClient && Count(r.calls, Dial) == 1
    ensures NewTasks(r.calls) == 1 <==> ReadyForTask(config, setup)
    ensures KeepsProcesses(r.calls)
  {
    var run := Proxy(config, argv, setup, events);
    CountCons(OpenConfig(path), run.calls);
    var value := if run.value.Continue? then Supervising else ExitFor(run.value.err);
    r := Traced(value, [OpenConfig(path)] + run.calls);
  }

  // ---------------------------------------------------------------------
  // Properties over whole runs

  /** Every step of `proxy` before the loop succeeds: the container is
      loaded or created, a stale stopped task is removed if there was one,
      the spec is updated, and the new task is created and its exit
      subscribed. */
  predicate Healthy(config: ProxyConfig.Config, setup: ProxySetup) {
    ReadyForTask(config, setup) && setup.newTask.Ok? && setup.wait.None?
  }

  /** Whether the steps before the loop succeed does not depend on the
      container's id: `LoadConfig` may set it without changing the answer. */
  lemma HealthyIgnoresId(config: ProxyConfig.Config, setup: ProxySetup, id: string)
    ensures Healthy(config.(id := id), setup) == Healthy(config, setup)
  {
    assert ProxyConfig.ImageChoice(config.(id := id), setup.images, false) == ProxyConfig.ImageChoice(config, setup.images, false);
  }

  /** With a healthy setup, the process does what the loop on the new task
      does. */
  lemma HealthyRunsLoop(argv: seq<string>, config: ProxyConfig.Config, setup: ProxySetup, events: seq<Event>)
    requires |argv| > 0 && Healthy(config, setup)
    ensures var o := LoopOutcome(StartState(config.(id := Id(argv)), setup), events);
      MainOutcome(argv, None, Ok(config), setup, events) == if o.Continue? then Supervising else ExitFor(o.err)
  {
    var c := config.(id := Id(argv));
    assert ProxyConfig.LoadConfig(Id(argv), None, Ok(config)) == Ok(c);
    HealthyIgnoresId(config, setup, Id(argv));
    assert ContainerAvailable(c, setup);
    assert Cleanup.CleanupError(setup.cleanup).None?;
    assert UpdateError(setup.update).None?;
    assert SetupError(c, setup).None?;
    assert TaskOutcome(c, setup, events) == LoopOutcome(StartState(c, setup), events);
    assert ProxyOutcome(c, setup, events) == TaskOutcome(c, setup, events);
  }

  /** A task that exits cleanly makes the proxy exit with the task's code,
      silently, whatever events would have followed. */
  lemma {:induction false} CleanExitIsProcessExit(argv: seq<string>, config: ProxyConfig.Config, setup: ProxySetup,
                                                  code: uint32, dialed: Result<Client>, reacquire: Util.AttachReplies,
                                                  rewait: Option<Error>, later: seq<Event>)
    requires |argv| > 0 && Healthy(config, setup)
    ensures MainOutcome(argv, None, Ok(config), setup, [WaitExit(TaskExit(code, None), dialed, reacquire, rewait)] + later)
         == Exited(code as int, None)
  {
    var events := [WaitExit(TaskExit(code, None), dialed, reacquire, rewait)] + later;
    var c := config.(id := Id(argv));
    HealthyRunsLoop(argv, config, setup, events);
    assert events[0] == WaitExit(TaskExit(code, None), dialed, reacquire, rewait);
    assert LoopOutcome(StartState(c, setup), events) == Returned(Some(ExitError(code as int)));
  }

  /** The stale-`err` quirk: an exit with any error, "unavailable" included,
      makes the proxy exit 0 without printing anything and without trying to
      reconnect. */
  lemma {:induction false} ExitErrorExitsZero(argv: seq<string>, config: ProxyConfig.Config, setup: ProxySetup,
                                              exit: TaskExit, dialed: Result<Client>, reacquire: Util.AttachReplies,
                                              rewait: Option<Error>, later: seq<Event>)
    requires |argv| > 0 && Healthy(config, setup)
    requires exit.error.Some?
    ensures MainOutcome(argv, None, Ok(config), setup, [WaitExit(exit, dialed, reacquire, rewait)] + later)
         == Exited(0, None)
  {
    var events := [WaitExit(exit, dialed, reacquire, rewait)] + later;
    var c := config.(id := Id(argv));
    HealthyRunsLoop(argv, config, setup, events);
    assert events[0] == WaitExit(exit, dialed, reacquire, rewait);
    assert LoopOutcome(StartState(c, setup), events) == Returned(None);
  }

  /** A failed signal delivery ends the proxy: it prints the error and
      exits 1. */
  lemma {:induction false} SignalFailureIsFatal(argv: seq<string>, config: ProxyConfig.Config, setup: ProxySetup,
                                                sig: Runtime.Signal, kill: Error, hostKill: Option<Error>, later: seq<Event>)
    requires |argv| > 0 && Healthy(config, setup)
    requires !IsUnavailable(Some(kill)) || hostKill.Some?
    ensures MainOutcome(argv, None, Ok(config), setup, [SignalReceived(sig, Some(kill), hostKill)] + later).Exited?
    ensures MainOutcome(argv, None, Ok(config), setup, [SignalReceived(sig, Some(kill), hostKill)] + later).code == 1
    ensures MainOutcome(argv, None, Ok(config), setup, [SignalReceived(sig, Some(kill), hostKill)] + later).printed
         == Some(if IsUnavailable(Some(kill)) then hostKill.value else kill)
  {
    var events := [SignalReceived(sig, Some(kill), hostKill)] + later;
    var c := config.(id := Id(argv));
    HealthyRunsLoop(argv, config, setup, events);
    assert events[0] == SignalReceived(sig, Some(kill), hostKill);
    assert LoopOutcome(StartState(c, setup), events).Returned?;
  }

  /** Signals that reach the task, and a successful start, keep the proxy
      supervising the same task. */
  lemma {:induction false} DeliveredSignalsKeepSupervising(argv: seq<string>, config: ProxyConfig.Config, setup: ProxySetup,
                                                           sigs: seq<Runtime.Signal>)
    requires |argv| > 0 && Healthy(config, setup)
    ensures var events := [StartDone(None)] + seq(|sigs|, i requires 0 <= i < |sigs| => SignalReceived(sigs[i], None, None));
      MainOutcome(argv, None, Ok(config), setup, events) == Supervising
  {
    var delivered := seq(|sigs|, i requires 0 <= i < |sigs| => SignalReceived(sigs[i], None, None));
    var events := [StartDone(None)] + delivered;
    var c := config.(id := Id(argv));
    var s := StartState(c, setup);
    HealthyRunsLoop(argv, config, setup, events);
    AllDeliveredContinue(s, delivered);
    assert events[1..] == delivered;
    assert LoopOutcome(s, events) == Continue(s);
  }

  /** Delivered signals leave the loop where it was. */
  lemma {:induction false} AllDeliveredContinue(s: ProxyState, events: seq<Event>)
    requires s.err.None?
    // each signal reached the task, through the runtime or the host kill
    requires forall i | 0 <= i < |events| ::
      events[i].SignalReceived? && Util.TrySendSignal(s.task, events[i].sig, events[i].kill, events[i].hostKill).value.None?
    ensures LoopOutcome(s, events) == Continue(s)
    decreases |events|
  {
    if |events| > 0 {
      assert StepOutcome(s, events[0]) == Continue(s);
      AllDeliveredContinue(s, events[1..]);
    }
  }

  /** Each of a run of delivered signals is sent to the task exactly once. */
  lemma {:induction false} DeliveredSignalsEachSentOnce(s: ProxyState, events: seq<Event>)
    requires s.err.None?
    requires forall i | 0 <= i < |events| ::
      events[i].SignalReceived? && Util.TrySendSignal(s.task, events[i].sig, events[i].kill, events[i].hostKill).value.None?
    ensures Kills(LoopCalls(s, events)) == |events|
    decreases |events|
  {
    if |events| > 0 {
      assert StepOutcome(s, events[0]) == Continue(s);
      DeliveredSignalsEachSentOnce(s, events[1..]);
      CountAppend(StepCalls(s, events[0]), LoopCalls(s, events[1..]));
    }
  }
}
