/**
 The `before` and `start` commands (start.go): clear an old task, then run
 a new one and supervise it until it exits.

 `runTask`'s select loop is an event-step machine. Each `Event` is one
 select iteration together with the runtime's replies to the calls that
 iteration makes. An iteration that has to reconnect may retry without
 bound (the `killAgain` and `waitAgain` labels); its event carries one reply
 record per attempt, and it must settle, i.e. some attempt ends the retry.
 */
module Start {
  import opened Runtime
  import Util

  const ContainerIdRequired: Error := Other("container id required")

  /** The code `runTask` returns on every failure path. */
  const FailureCode: int := -1

  /** Replies to the calls `before` makes: dialing the client,
      `LoadContainer`, `container.Task(ctx, nil)` and `task.Delete`. */
  datatype BeforeReplies = BeforeReplies(client: Option<Error>, load: Option<Error>, task: Result<uint32>, delete: Option<Error>)

  /** `before`: refuse an empty id before touching the runtime; otherwise
      delete (killing its process) whatever task the container has, in
      whatever state it is. A missing task is fine, a missing container is not. */
  function Before(id: string, replies: BeforeReplies): (r: Traced<Option<Error>>)
    ensures id == "" ==> r == Traced(Some(ContainerIdRequired), [])
    ensures id != "" && replies.client.Some? ==> r == Traced(replies.client, [NewClient])
    ensures id != "" && replies.client.None? && replies.load.Some? ==>
      r == Traced(replies.load, [NewClient, LoadContainer(id)])
    ensures id != "" && replies.client.None? && replies.load.None? && replies.task.Err? ==>
      && r.value == (if IsNotFound(replies.task.error) then None else Some(replies.task.error))
      && NoDeletes(r.calls)
    ensures id != "" && replies.client.None? && replies.load.None? && replies.task.Ok? ==>
      && r.value == replies.delete
      && EndsWithKillingDelete(r.calls)
      && r.calls[|r.calls| - 1].task == Task(id, replies.task.value)
    ensures Count(r.calls, StatusQuery) == 0
  {
    if id == "" then Traced(Some(ContainerIdRequired), [])
    else if replies.client.Some? then Traced(replies.client, [NewClient])
    else
      var loaded := [NewClient, LoadContainer(id)];
      if replies.load.Some? then Traced(replies.load, loaded)
      else
        var looked := loaded + [LoadTask(id, NoIo)];
        CountZeroIff(looked, Deletion);
        CountZeroIff(looked, StatusQuery);
        match replies.task
        case Err(e) => Traced(if IsNotFound(e) then None else Some(e), looked)
        case Ok(pid) =>
          var calls := looked + [DeleteTask(Task(id, pid), true)];
          assert Init(calls) == looked;
          Traced(replies.delete, calls)
  }

  /** `before` succeeds exactly when the runtime is reachable, the container
      exists, and it has no task or its task was deleted. */
  lemma BeforeSucceedsIff(id: string, replies: BeforeReplies)
    ensures Before(id, replies).value.None? <==>
      && id != "" && replies.client.None? && replies.load.None?
      && ((replies.task.Err? && IsNotFound(replies.task.error)) || (replies.task.Ok? && replies.delete.None?))
  {
  }

  // ---------------------------------------------------------------------
  // runTask

  /** The loop's variables: the container id, the current task handle, and
      the function-scope `err`, which the wait path reads and writes. */
  datatype RunState = RunState(id: string, task: Task, err: Option<Error>)

  /** The handle is a task of the container being supervised. */
  predicate Owns(s: RunState) {
    s.task.container == s.id
  }

  /** Replies for one pass through `killAgain`: `task.Kill`, then, when the
      runtime is unavailable, `client.Reconnect` and `getTask`. */
  datatype KillAttempt = KillAttempt(kill: Option<Error>, reconnect: Option<Error>, reacquire: Util.AttachReplies)

  /** Replies for one pass through `waitAgain`: `client.Reconnect`,
      `getTask`, then `task.Wait`. */
  datatype RewaitAttempt = RewaitAttempt(reconnect: Option<Error>, reacquire: Util.AttachReplies, wait: Option<Error>)

  /** This attempt sends the loop back to `killAgain`. */
  predicate KillRetries(a: KillAttempt) {
    IsUnavailable(a.kill) && a.reconnect.None? && Util.Reacquires(a.reacquire)
  }

  /** This attempt sends the loop back to `waitAgain`. */
  predicate RewaitRetries(a: RewaitAttempt) {
    a.reconnect.None? && Util.Reacquires(a.reacquire) && a.wait.Some?
  }

  /** Some attempt ends the `killAgain` retry. */
  predicate KillSettles(attempts: seq<KillAttempt>)
    decreases |attempts|
  {
    |attempts| > 0 && (KillRetries(attempts[0]) ==> KillSettles(attempts[1..]))
  }

  /** Some attempt ends the `waitAgain` retry. */
  predicate RewaitSettles(attempts: seq<RewaitAttempt>)
    decreases |attempts|
  {
    |attempts| > 0 && (RewaitRetries(attempts[0]) ==> RewaitSettles(attempts[1..]))
  }

  /** One select iteration: the start goroutine reported, a signal arrived,
      or the wait channel delivered an exit. */
  datatype Event =
    | StartDone(result: Option<Error>)
    | SignalReceived(sig: Runtime.Signal, kills: seq<KillAttempt>)
    | WaitExit(exit: TaskExit, rewaits: seq<RewaitAttempt>)

  predicate Settles(e: Event) {
    match e
    case StartDone(_) => true
    case SignalReceived(_, kills) => KillSettles(kills)
    case WaitExit(exit, rewaits) => IsUnavailable(exit.error) ==> RewaitSettles(rewaits)
  }

  predicate AllSettle(events: seq<Event>) {
    forall i | 0 <= i < |events| :: Settles(events[i])
  }

  /** The event is a clean exit of the task with this code. */
  predicate CleanExit(e: Event, code: int) {
    e.WaitExit? && e.exit.error.None? && e.exit.code as int == code
  }

  /** After a step the loop goes on, or `runTask` returns `(code, err)`. */
  datatype Outcome = Continue(state: RunState) | Terminal(code: int, err: Option<Error>)

  /** The trace ends with a failed `getTask`: the handle was lost, so there
      is nothing left to delete. */
  predicate EndsInLostHandle(calls: seq<Call>) {
    && |calls| > 0
    && NoDeletes(calls)
    && (calls[|calls| - 1].LoadContainer? || (calls[|calls| - 1].LoadTask? && calls[|calls| - 1].io == AttachStdio))
  }

  /** How every terminal transition of the loop ends its trace. */
  predicate TerminalTrace(calls: seq<Call>) {
    EndsWithKillingDelete(calls) || EndsInLostHandle(calls)
  }

  /** Calls without deletes in front of a trace do not change how it ends. */
  lemma TraceEndAppend(a: seq<Call>, b: seq<Call>)
    requires NoDeletes(a) && |b| > 0
    ensures (a + b)[|a + b| - 1] == b[|b| - 1]
    ensures EndsWithKillingDelete(b) ==> EndsWithKillingDelete(a + b)
    ensures EndsInLostHandle(b) ==> EndsInLostHandle(a + b)
  {
    InitAppend(a, b);
    CountAppend(a, b);
    CountAppend(a, Init(b));
  }

  lemma TerminalTraceAppend(a: seq<Call>, b: seq<Call>)
    requires NoDeletes(a)
    requires TerminalTrace(b)
    ensures TerminalTrace(a + b)
  {
    InitAppend(a, b);
    CountAppend(a, b);
    if EndsWithKillingDelete(b) {
      CountAppend(a, Init(b));
    }
  }

  /** The index of the attempt that ends the `killAgain` retry: every
      earlier one was refused as unavailable, reconnected and re-acquired. */
  function KillSettler(attempts: seq<KillAttempt>): (i: nat)
    requires KillSettles(attempts)
    ensures i < |attempts| && !KillRetries(attempts[i])
    ensures forall j | 0 <= j < i :: KillRetries(attempts[j])
    decreases |attempts|
  {
    if KillRetries(attempts[0]) then 1 + KillSettler(attempts[1..]) else 0
  }

  /** The task handle the `i`-th Kill attempt uses: the loop's, or the one
      the previous attempt re-acquired. */
  function KillTaskAt(s: RunState, attempts: seq<KillAttempt>, i: nat): Task
    requires i < |attempts|
    requires forall j | 0 <= j < i :: KillRetries(attempts[j])
  {
    if i == 0 then s.task
    else
      assert KillRetries(attempts[i - 1]);
      Task(s.id, attempts[i - 1].reacquire.attach.value)
  }

  /** Where the `killAgain` retry leaves the loop: Kill; on an unavailable
      runtime reconnect, re-acquire the task and Kill again. A reconnect
      failure returns the Kill error; a failed `getTask` returns its error.
      Any other Kill error is only logged. The function-scope `err` is not
      touched: this path assigns a shadowing `err`. */
  function KillOutcome(s: RunState, sig: Runtime.Signal, attempts: seq<KillAttempt>): (r: Outcome)
    requires KillSettles(attempts)
    ensures r.Continue? ==> r.state.id == s.id && r.state.err == s.err
    ensures r.Continue? && Owns(s) ==> Owns(r.state)
    ensures r.Terminal? ==> r.code == FailureCode && r.err.Some?
    // the attempt that ends the retry decides: a Kill that is not refused as
    // unavailable goes on with the current task, a reconnect failure returns
    // that Kill's error, a failed `getTask` returns its own
    ensures var a := attempts[KillSettler(attempts)];
      r == if !IsUnavailable(a.kill) then Continue(s.(task := KillTaskAt(s, attempts, KillSettler(attempts))))
           else if a.reconnect.Some? then Terminal(FailureCode, a.kill)
           else Terminal(FailureCode, Some(Util.GetTask(s.id, a.reacquire).value.error))
    decreases |attempts|
  {
    var a := attempts[0];
    if !IsUnavailable(a.kill) then Continue(s)
    else if a.reconnect.Some? then Terminal(FailureCode, a.kill)
    else
      match Util.GetTask(s.id, a.reacquire).value
      case Err(e) => Terminal(FailureCode, Some(e))
      case Ok(t) => KillOutcome(s.(task := t), sig, attempts[1..])
  }

  /** How many Kills the `killAgain` retry sends: one per attempt up to the
      one that ends it. */
  function KillRounds(attempts: seq<KillAttempt>): nat
    requires KillSettles(attempts)
    decreases |attempts|
  {
    if KillRetries(attempts[0]) then 1 + KillRounds(attempts[1..]) else 1
  }

  /** A `killAgain` pass that ends the retry: the Kill is taken or lost to
      an error other than unavailability, or reconnecting fails and the task
      is deleted, or re-acquiring it fails. */
  method KillEnds(s: RunState, sig: Runtime.Signal, a: KillAttempt) returns (r: Traced<Outcome>)
    requires !KillRetries(a)
    ensures r.value == if !IsUnavailable(a.kill) then Continue(s)
                       else if a.reconnect.Some? then Terminal(FailureCode, a.kill)
                       else Terminal(FailureCode, Some(Util.GetTask(s.id, a.reacquire).value.error))
    ensures |r.calls| > 0 && r.calls[0] == KillTask(s.task, sig) && Kills(r.calls) == 1 && NoNewTasks(r.calls)
    ensures r.value.Continue? ==> NoDeletes(r.calls)
    ensures IsUnavailable(a.kill) && a.reconnect.Some? ==>
      EndsWithKillingDelete(r.calls) && r.calls[|r.calls| - 1] == DeleteTask(s.task, true)
    ensures IsUnavailable(a.kill) && a.reconnect.None? ==> EndsInLostHandle(r.calls)
    // the Kill alone, the Kill then a failed reconnect and the delete, or the
    // Kill, the reconnect and `getTask`'s calls
    ensures !IsUnavailable(a.kill) ==> r.calls == [KillTask(s.task, sig)]
    ensures IsUnavailable(a.kill) && a.reconnect.Some? ==>
      r.calls == [KillTask(s.task, sig), ClientReconnect, DeleteTask(s.task, true)]
    ensures IsUnavailable(a.kill) && a.reconnect.None? ==>
      r.calls == [KillTask(s.task, sig), ClientReconnect] + Util.GetTask(s.id, a.reacquire).calls
  {
    var kill := KillTask(s.task, sig);
    if !IsUnavailable(a.kill) {
      CountCons(kill, []);
      return Traced(Continue(s), [kill]);
    }
    CountCons(kill, []);
    if a.reconnect.Some? {
      var calls := LostWithDelete(kill, s.task);
      return Traced(Terminal(FailureCode, a.kill), calls);
    }
    var calls := LostWithoutHandle(kill, Util.GetTask(s.id, a.reacquire));
    return Traced(Terminal(FailureCode, Some(Util.GetTask(s.id, a.reacquire).value.error)), calls);
  }

  /** A call, a reconnect that fails, and the killing delete of `t`. */
  method LostWithDelete(first: Call, t: Task) returns (calls: seq<Call>)
    requires !IsKind(first, Deletion) && !IsKind(first, TaskCreation)
    ensures calls == [first, ClientReconnect, DeleteTask(t, true)]
    ensures EndsWithKillingDelete(calls) && NoNewTasks(calls)
    ensures Kills(calls) == Kills([first])
  {
    var deleted := [ClientReconnect] + [DeleteTask(t, true)];
    CountCons(ClientReconnect, [DeleteTask(t, true)]);
    CountCons(first, deleted);
    CountCons(first, [ClientReconnect]);
    CountCons(ClientReconnect, []);
    CountCons(first, []);
    assert Init([first] + deleted) == [first] + [ClientReconnect];
    calls := [first] + deleted;
  }

  /** A call, a reconnect, and a `getTask` that hands back no task. */
  method LostWithoutHandle(first: Call, got: Traced<Result<Task>>) returns (calls: seq<Call>)
    requires !IsKind(first, Deletion) && !IsKind(first, TaskCreation)
    requires NoDeletes(got.calls) && NoNewTasks(got.calls) && Kills(got.calls) == 0 && |got.calls| > 0
    requires got.calls[|got.calls| - 1].LoadContainer? || (got.calls[|got.calls| - 1].LoadTask? && got.calls[|got.calls| - 1].io == AttachStdio)
    ensures calls == [first, ClientReconnect] + got.calls
    ensures EndsInLostHandle(calls) && NoNewTasks(calls)
    ensures Kills(calls) == Kills([first])
  {
    var reconnected := [ClientReconnect] + got.calls;
    CountCons(ClientReconnect, got.calls);
    CountCons(first, reconnected);
    CountCons(first, []);
    calls := [first] + reconnected;
  }

  /** A `killAgain` pass that goes round again: the Kill met an unavailable
      runtime, the client reconnected and the task was re-acquired. */
  method KillRetryCalls(s: RunState, sig: Runtime.Signal, a: KillAttempt) returns (r: Traced<Task>)
    requires KillRetries(a)
    ensures r.value == Task(s.id, a.reacquire.attach.value)
    ensures r.calls == [KillTask(s.task, sig), ClientReconnect, LoadContainer(s.id), LoadTask(s.id, AttachStdio)]
    ensures |r.calls| > 0 && r.calls[0] == KillTask(s.task, sig) && Kills(r.calls) == 1
    ensures NoDeletes(r.calls) && NoNewTasks(r.calls)
  {
    var got := Util.GetTask(s.id, a.reacquire);
    var reconnected := [ClientReconnect] + got.calls;
    CountCons(ClientReconnect, got.calls);
    CountCons(KillTask(s.task, sig), reconnected);
    return Traced(got.value.value, [KillTask(s.task, sig)] + reconnected);
  }

  /** The `killAgain` retry with the calls it makes. */
  method KillAgain(s: RunState, sig: Runtime.Signal, attempts: seq<KillAttempt>) returns (r: Traced<Outcome>)
    requires KillSettles(attempts)
    ensures r.value == KillOutcome(s, sig, attempts)
    ensures |r.calls| > 0 && r.calls[0] == KillTask(s.task, sig)
    ensures Kills(r.calls) == KillRounds(attempts)
    ensures r.value.Continue? ==> NoDeletes(r.calls)
    ensures r.value.Terminal? ==> TerminalTrace(r.calls)
    // a reconnect failure deletes the current task, killing it; a failed
    // `getTask` leaves no handle to delete
    ensures var i := KillSettler(attempts);
      IsUnavailable(attempts[i].kill) && attempts[i].reconnect.Some? ==>
        EndsWithKillingDelete(r.calls) && r.calls[|r.calls| - 1] == DeleteTask(KillTaskAt(s, attempts, i), true)
    ensures var i := KillSettler(attempts);
      IsUnavailable(attempts[i].kill) && attempts[i].reconnect.None? ==> EndsInLostHandle(r.calls)
    ensures NoNewTasks(r.calls)
    decreases |attempts|
  {
    var a := attempts[0];
    if !KillRetries(a) {
      r := KillEnds(s, sig, a);
      return;
    }
    var round := KillRetryCalls(s, sig, a);
    var next := s.(task := round.value);
    var tail := attempts[1..];
    var rest := KillAgain(next, sig, tail);
    CountAppend(round.calls, rest.calls);
    TraceEndAppend(round.calls, rest.calls);
    var i := KillSettler(tail);
    assert attempts[i + 1] == tail[i];
    assert KillTaskAt(s, attempts, i + 1) == KillTaskAt(next, tail, i);
    r := Traced(rest.value, round.calls + rest.calls);
  }

  /** The index of the attempt that ends the `waitAgain` retry: every
      earlier one reconnected, re-acquired the task and failed to Wait. */
  function WaitSettler(attempts: seq<RewaitAttempt>): (i: nat)
    requires RewaitSettles(attempts)
    ensures i < |attempts| && !RewaitRetries(attempts[i])
    ensures forall j | 0 <= j < i :: RewaitRetries(attempts[j])
    decreases |attempts|
  {
    if RewaitRetries(attempts[0]) then 1 + WaitSettler(attempts[1..]) else 0
  }

  /** The task handle the `i`-th rewait attempt holds when it starts. */
  function WaitTaskAt(s: RunState, attempts: seq<RewaitAttempt>, i: nat): Task
    requires i < |attempts|
    requires forall j | 0 <= j < i :: RewaitRetries(attempts[j])
  {
    if i == 0 then s.task
    else
      assert RewaitRetries(attempts[i - 1]);
      Task(s.id, attempts[i - 1].reacquire.attach.value)
  }

  /** Where the `waitAgain` retry after an unavailable exit leaves the loop:
      reconnect, re-acquire the task and subscribe to its exit again; a
      failed Wait goes round again. A reconnect failure returns the
      function-scope `err` wrapped, which is nil unless an earlier Wait of
      this retry failed; a failed `getTask` returns its error wrapped. */
  function WaitOutcome(s: RunState, attempts: seq<RewaitAttempt>): (r: Outcome)
    requires RewaitSettles(attempts)
    ensures r.Continue? ==> r.state.id == s.id && r.state.err.None? && Owns(r.state)
    ensures r.Terminal? ==> r.code == FailureCode
    ensures r.Terminal? && r.err.None? ==> s.err.None? && attempts[0].reconnect.Some?
    // the attempt that ends the retry decides: a reconnect failure returns
    // the `err` of the Wait before it wrapped, a failed `getTask` its own
    // error wrapped, a successful Wait goes on with the re-acquired task
    ensures var i := WaitSettler(attempts); var a := attempts[i];
      r == if a.reconnect.Some? then Terminal(FailureCode, Wrap(if i == 0 then s.err else attempts[i - 1].wait, "reconnect"))
           else if !Util.Reacquires(a.reacquire) then
             Terminal(FailureCode, Wrap(Some(Util.GetTask(s.id, a.reacquire).value.error), "get task"))
           else Continue(RunState(s.id, Task(s.id, a.reacquire.attach.value), None))
    decreases |attempts|
  {
    var a := attempts[0];
    if a.reconnect.Some? then Terminal(FailureCode, Wrap(s.err, "reconnect"))
    else
      match Util.GetTask(s.id, a.reacquire).value
      case Err(e) => Terminal(FailureCode, Wrap(Some(e), "get task"))
      case Ok(t) =>
        if a.wait.Some? then WaitOutcome(s.(task := t, err := a.wait), attempts[1..])
        else Continue(s.(task := t, err := None))
  }

  /** A `waitAgain` pass that ends the retry: reconnecting fails and the
      task is deleted, re-acquiring it fails, or the new Wait succeeds. */
  method WaitEnds(s: RunState, a: RewaitAttempt) returns (r: Traced<Outcome>)
    requires !RewaitRetries(a)
    ensures r.value == if a.reconnect.Some? then Terminal(FailureCode, Wrap(s.err, "reconnect"))
                       else if !Util.Reacquires(a.reacquire) then
                         Terminal(FailureCode, Wrap(Some(Util.GetTask(s.id, a.reacquire).value.error), "get task"))
                       else Continue(RunState(s.id, Task(s.id, a.reacquire.attach.value), None))
    ensures |r.calls| > 0 && r.calls[0] == ClientReconnect && NoNewTasks(r.calls)
    ensures r.value.Continue? ==> NoDeletes(r.calls)
    ensures a.reconnect.Some? ==>
      EndsWithKillingDelete(r.calls) && r.calls[|r.calls| - 1] == DeleteTask(s.task, true)
    ensures a.reconnect.None? && !Util.Reacquires(a.reacquire) ==> EndsInLostHandle(r.calls)
    // a failed reconnect and the delete, or the reconnect, `getTask`'s calls
    // and, once a task is back, a Wait on it
    ensures a.reconnect.Some? ==> r.calls == [ClientReconnect, DeleteTask(s.task, true)]
    ensures a.reconnect.None? && !Util.Reacquires(a.reacquire) ==>
      r.calls == [ClientReconnect] + Util.GetTask(s.id, a.reacquire).calls
    ensures a.reconnect.None? && Util.Reacquires(a.reacquire) ==>
      r.calls == [ClientReconnect, LoadContainer(s.id), LoadTask(s.id, AttachStdio),
                  WaitTask(Task(s.id, a.reacquire.attach.value))]
    ensures Kills(r.calls) == 0
  {
    if a.reconnect.Some? {
      var deleted := [DeleteTask(s.task, true)];
      CountCons(DeleteTask(s.task, true), []);
      CountCons(ClientReconnect, deleted);
      CountCons(ClientReconnect, []);
      assert Init([ClientReconnect] + deleted) == [ClientReconnect];
      return Traced(Terminal(FailureCode, Wrap(s.err, "reconnect")), [ClientReconnect] + deleted);
    }
    var got := Util.GetTask(s.id, a.reacquire);
    var reacquired := [ClientReconnect] + got.calls;
    CountCons(ClientReconnect, got.calls);
    if got.value.Err? {
      return Traced(Terminal(FailureCode, Wrap(Some(got.value.error), "get task")), reacquired);
    }
    var t := got.value.value;
    CountSnoc(reacquired, WaitTask(t));
    return Traced(Continue(RunState(s.id, t, None)), reacquired + [WaitTask(t)]);
  }

  /** A `waitAgain` pass that goes round again: the client reconnected and
      the task was re-acquired, but the new Wait failed. */
  method WaitRetryCalls(s: RunState, a: RewaitAttempt) returns (r: Traced<Task>)
    requires RewaitRetries(a)
    ensures r.value == Task(s.id, a.reacquire.attach.value)
    ensures r.calls == [ClientReconnect, LoadContainer(s.id), LoadTask(s.id, AttachStdio), WaitTask(r.value)]
    ensures Kills(r.calls) == 0
    ensures |r.calls| > 0 && r.calls[0] == ClientReconnect
    ensures NoDeletes(r.calls) && NoNewTasks(r.calls)
  {
    var got := Util.GetTask(s.id, a.reacquire);
    var reacquired := [ClientReconnect] + got.calls;
    CountCons(ClientReconnect, got.calls);
    var t := got.value.value;
    CountSnoc(reacquired, WaitTask(t));
    return Traced(t, reacquired + [WaitTask(t)]);
  }

  /** The `waitAgain` retry with the calls it makes. */
  method WaitAgain(s: RunState, attempts: seq<RewaitAttempt>) returns (r: Traced<Outcome>)
    requires RewaitSettles(attempts)
    ensures r.value == WaitOutcome(s, attempts)
    ensures |r.calls| > 0 && r.calls[0] == ClientReconnect
    ensures r.value.Continue? ==> NoDeletes(r.calls)
    ensures r.value.Terminal? ==> TerminalTrace(r.calls)
    // a reconnect failure deletes the current task, killing it; a failed
    // `getTask` leaves no handle to delete
    ensures var i := WaitSettler(attempts);
      attempts[i].reconnect.Some? ==>
        EndsWithKillingDelete(r.calls) && r.calls[|r.calls| - 1] == DeleteTask(WaitTaskAt(s, attempts, i), true)
    ensures var i := WaitSettler(attempts);
      attempts[i].reconnect.None? && !Util.Reacquires(attempts[i].reacquire) ==> EndsInLostHandle(r.calls)
    ensures NoNewTasks(r.calls) && Kills(r.calls) == 0
    decreases |attempts|
  {
    var a := attempts[0];
    if !RewaitRetries(a) {
      r := WaitEnds(s, a);
      return;
    }
    var round := WaitRetryCalls(s, a);
    var next := s.(task := round.value, err := a.wait);
    var tail := attempts[1..];
    var rest := WaitAgain(next, tail);
    CountAppend(round.calls, rest.calls);
    TraceEndAppend(round.calls, rest.calls);
    var i := WaitSettler(tail);
    assert attempts[i + 1] == tail[i];
    assert WaitSettler(attempts) == i + 1;
    assert WaitTaskAt(s, attempts, i + 1) == WaitTaskAt(next, tail, i);
    assert WaitOutcome(s, attempts) == rest.value;
    r := Traced(rest.value, round.calls + rest.calls);
  }

  /** Where one iteration of the select loop leaves it. */
  function StepOutcome(s: RunState, e: Event): (r: Outcome)
    requires Settles(e)
    // a failed start returns the start error
    ensures e.StartDone? ==> r == if e.result.Some? then Terminal(FailureCode, e.result) else Continue(s)
    // a delivered signal, or one lost to an error other than unavailability, changes nothing
    ensures e.SignalReceived? && !IsUnavailable(e.kills[0].kill) ==> r == Continue(s)
    // a clean exit returns its code; any other exit error but unavailability is returned
    ensures e.WaitExit? && e.exit.error.None? ==> r == Terminal(e.exit.code as int, None)
    ensures e.WaitExit? && e.exit.error.Some? && !IsUnavailable(e.exit.error) ==>
      r == Terminal(FailureCode, e.exit.error)
    // the loop goes on with the same container's task
    ensures r.Continue? ==> r.state.id == s.id
    ensures r.Continue? && Owns(s) ==> Owns(r.state)
    ensures r.Continue? && s.err.None? ==> r.state.err.None?
    // every terminal result: the sentinel, or the task's own clean exit code
    ensures r.Terminal? ==> r.code == FailureCode || CleanExit(e, r.code)
    ensures r.Terminal? && r.err.Some? ==> r.code == FailureCode
  {
    match e
    case StartDone(result) =>
      if result.Some? then Terminal(FailureCode, result) else Continue(s)
    case SignalReceived(sig, kills) => KillOutcome(s, sig, kills)
    case WaitExit(exit, rewaits) =>
      if exit.error.None? then Terminal(exit.code as int, None)
      else if IsUnavailable(exit.error) then WaitOutcome(s, rewaits)
      else Terminal(FailureCode, exit.error)
  }

  /** One iteration of the select loop with the calls it makes: every
      terminal iteration but a lost handle deletes the task. */
  method Step(s: RunState, e: Event) returns (r: Traced<Outcome>)
    requires Settles(e)
    ensures r.value == StepOutcome(s, e)
    ensures e.StartDone? ==> r.calls == if e.result.Some? then [DeleteTask(s.task, true)] else []
    ensures e.SignalReceived? ==> |r.calls| > 0 && r.calls[0] == KillTask(s.task, e.sig)
    ensures e.WaitExit? && !IsUnavailable(e.exit.error) ==> r.calls == [DeleteTask(s.task, true)]
    ensures e.WaitExit? && IsUnavailable(e.exit.error) ==> |r.calls| > 0 && r.calls[0] == ClientReconnect
    ensures r.value.Continue? ==> NoDeletes(r.calls)
    ensures r.value.Terminal? ==> TerminalTrace(r.calls)
    ensures NoNewTasks(r.calls)
    // one Kill per attempt of a signal's delivery, and none otherwise
    ensures Kills(r.calls) == if e.SignalReceived? then KillRounds(e.kills) else 0
  {
    var deleted := [DeleteTask(s.task, true)];
    assert Init(deleted) == [];
    CountZeroIff(deleted, TaskCreation);
    CountZeroIff(deleted, TaskKill);
    CountZeroIff([], TaskKill);
    match e
    case StartDone(result) =>
      if result.Some? {
        r := Traced(Terminal(FailureCode, result), deleted);
      } else {
        r := Traced(Continue(s), []);
      }
    case SignalReceived(sig, kills) =>
      r := KillAgain(s, sig, kills);
    case WaitExit(exit, rewaits) =>
      if exit.error.None? {
        r := Traced(Terminal(exit.code as int, None), deleted);
      } else if IsUnavailable(exit.error) {
        r := WaitAgain(s, rewaits);
      } else {
        r := Traced(Terminal(FailureCode, exit.error), deleted);
      }
  }

  /** Where the select loop stands after a sequence of iterations: it stops
      at the first terminal one, so later events are never consumed. */
  function RunOutcome(s: RunState, events: seq<Event>): (r: Outcome)
    requires AllSettle(events)
    ensures r.Continue? ==> r.state.id == s.id
    ensures r.Continue? && Owns(s) ==> Owns(r.state)
    ensures r.Continue? && s.err.None? ==> r.state.err.None?
    ensures r.Terminal? ==>
      r.code == FailureCode || exists i | 0 <= i < |events| :: CleanExit(events[i], r.code)
    ensures r.Terminal? && r.err.Some? ==> r.code == FailureCode
    decreases |events|
  {
    if |events| == 0 then Continue(s)
    else
      match StepOutcome(s, events[0])
      case Terminal(code, err) => Terminal(code, err)
      case Continue(next) =>
        assert AllSettle(events[1..]) by {
          forall i | 0 <= i < |events[1..]| ensures Settles(events[1..][i]) {
            assert events[1..][i] == events[i + 1];
          }
        }
        var rest := RunOutcome(next, events[1..]);
        assert rest.Terminal? && rest.code != FailureCode ==>
          exists i | 0 <= i < |events| :: CleanExit(events[i], rest.code) by {
          if rest.Terminal? && rest.code != FailureCode {
            var i :| 0 <= i < |events[1..]| && CleanExit(events[1..][i], rest.code);
            assert events[1..][i] == events[i + 1];
          }
        }
        rest
  }

  /** How many Kills the loop sends over the iterations it consumes: one per
      delivery attempt of each signal up to the first terminal iteration. */
  function RunKills(s: RunState, events: seq<Event>): nat
    requires AllSettle(events)
    decreases |events|
  {
    if |events| == 0 then 0
    else
      var sent := if events[0].SignalReceived? then KillRounds(events[0].kills) else 0;
      match StepOutcome(s, events[0])
      case Terminal(_, _) => sent
      case Continue(next) =>
        assert AllSettle(events[1..]) by {
          forall i | 0 <= i < |events[1..]| ensures Settles(events[1..][i]) {
            assert events[1..][i] == events[i + 1];
          }
        }
        sent + RunKills(next, events[1..])
  }

  /** The select loop with the calls it makes. */
  method Run(s: RunState, events: seq<Event>) returns (r: Traced<Outcome>)
    requires AllSettle(events)
    ensures r.value == RunOutcome(s, events)
    ensures r.value.Continue? ==> NoDeletes(r.calls)
    ensures r.value.Terminal? ==> TerminalTrace(r.calls)
    ensures NoNewTasks(r.calls)
    // a received signal is sent to the task first thing, and every
    // consumed signal is sent once per delivery attempt
    ensures |events| > 0 && events[0].SignalReceived? ==> |r.calls| > 0 && r.calls[0] == KillTask(s.task, events[0].sig)
    ensures Kills(r.calls) == RunKills(s, events)
    decreases |events|
  {
    if |events| == 0 {
      CountZeroIff([], Deletion);
      CountZeroIff([], TaskCreation);
      return Traced(Continue(s), []);
    }
    var step := Step(s, events[0]);
    if step.value.Terminal? {
      return step;
    }
    assert AllSettle(events[1..]) by {
      forall i | 0 <= i < |events[1..]| ensures Settles(events[1..][i]) {
        assert events[1..][i] == events[i + 1];
      }
    }
    var rest := Run(step.value.state, events[1..]);
    CountAppend(step.calls, rest.calls);
    if rest.value.Terminal? {
      TerminalTraceAppend(step.calls, rest.calls);
    }
    r := Traced(rest.value, step.calls + rest.calls);
  }

  /** Replies to the calls `runTask` makes before its loop: dialing the
      client, `LoadContainer`, `NewTask` (the new task's pid) and `task.Wait`. */
  datatype Setup = Setup(client: Option<Error>, load: Option<Error>, newTask: Result<uint32>, wait: Option<Error>)

  /** The part of `runTask` once the task exists: subscribe to its exit,
      start it and run the loop. A failed subscription deletes the task. */
  method Supervise(task: Task, wait: Option<Error>, events: seq<Event>) returns (r: Traced<Outcome>)
    requires AllSettle(events)
    ensures |r.calls| > 0 && r.calls[0] == WaitTask(task) && NoNewTasks(r.calls)
    ensures wait.Some? ==>
      && r.value == Terminal(FailureCode, wait)
      && r.calls == [WaitTask(task), DeleteTask(task, true)]
    ensures wait.None? ==> |r.calls| > 1 && r.calls[1] == StartTask(task)
    ensures wait.None? ==> r.value == RunOutcome(RunState(task.container, task, None), events)
    ensures r.value.Terminal? ==> TerminalTrace(r.calls)
    ensures r.value.Continue? ==> NoDeletes(r.calls)
  {
    if wait.Some? {
      var calls := [WaitTask(task), DeleteTask(task, true)];
      assert Init(calls) == [WaitTask(task)];
      CountZeroIff(calls, TaskCreation);
      return Traced(Terminal(FailureCode, wait), calls);
    }
    var started := [WaitTask(task), StartTask(task)];
    var loop := Run(RunState(task.container, task, None), events);
    CountZeroIff(started, TaskCreation);
    CountZeroIff(started, Deletion);
    CountAppend(started, loop.calls);
    if loop.value.Terminal? {
      TerminalTraceAppend(started, loop.calls);
    }
    r := Traced(loop.value, started + loop.calls);
  }

  /** The loop's first state once the task of `id` exists. */
  function FirstState(id: string, setup: Setup): RunState
    requires setup.newTask.Ok?
  {
    RunState(id, Task(id, setup.newTask.value), None)
  }

  /** The runtime hands `runTask` a running, subscribed task. */
  predicate Launches(setup: Setup) {
    setup.client.None? && setup.load.None? && setup.newTask.Ok? && setup.wait.None?
  }

  /** `runTask`: create the container's one task, subscribe to its exit,
      start it and supervise it. */
  method RunTask(id: string, setup: Setup, events: seq<Event>) returns (r: Traced<Outcome>)
    requires AllSettle(events)
    ensures setup.client.Some? ==> r.value == Terminal(FailureCode, setup.client) && r.calls == [NewClient]
    ensures setup.client.None? && setup.load.Some? ==>
      r.value == Terminal(FailureCode, setup.load) && r.calls == [NewClient, LoadContainer(id)]
    ensures setup.client.None? && setup.load.None? && setup.newTask.Err? ==>
      && r.value == Terminal(FailureCode, Some(setup.newTask.error))
      && r.calls == [NewClient, LoadContainer(id), NewTask(id, CreateStdio)]
    ensures setup.client.None? && setup.load.None? && setup.newTask.Ok? && setup.wait.Some? ==>
      r.value == Terminal(FailureCode, setup.wait) && EndsWithKillingDelete(r.calls)
    ensures Launches(setup) ==> r.value == RunOutcome(FirstState(id, setup), events)
    // exactly one task is created, and only once the container was loaded
    ensures NewTasks(r.calls) <= 1
    ensures NewTasks(r.calls) == 1 <==> setup.client.None? && setup.load.None?
    ensures NewTasks(r.calls) == 1 ==> |r.calls| >= 3 && r.calls[2] == NewTask(id, CreateStdio)
    ensures r.value.Terminal? ==> TerminalTrace(r.calls) || NoDeletes(r.calls)
    ensures r.value.Continue? ==> NoDeletes(r.calls)
  {
    if setup.client.Some? {
      return Traced(Terminal(FailureCode, setup.client), [NewClient]);
    }
    if setup.load.Some? {
      CountZeroIff([NewClient, LoadContainer(id)], TaskCreation);
      CountZeroIff([NewClient, LoadContainer(id)], Deletion);
      return Traced(Terminal(FailureCode, setup.load), [NewClient, LoadContainer(id)]);
    }
    var created := [NewClient, LoadContainer(id), NewTask(id, CreateStdio)];
    assert NewTasks(created) == 1 by {
      CountZeroIff(created[..2], TaskCreation);
    }
    CountZeroIff(created, Deletion);
    if setup.newTask.Err? {
      return Traced(Terminal(FailureCode, Some(setup.newTask.error)), created);
    }
    var rest := Supervise(Task(id, setup.newTask.value), setup.wait, events);
    CountAppend(created, rest.calls);
    if rest.value.Terminal? {
      TerminalTraceAppend(created, rest.calls);
    }
    r := Traced(rest.value, created + rest.calls);
  }

  /** What the `start` command does: exit the process with a code, return
      an error, or still be supervising when the events run out. */
  datatype StartResult = ExitWith(code: int) | Failed(err: Error) | Supervising

  /** How `start` reports what `runTask` returned: an error is returned as
      the command's error, otherwise the process exits with the code. */
  function Report(o: Outcome): (r: StartResult)
    ensures o.Continue? <==> r.Supervising?
    ensures o.Terminal? && o.err.Some? <==> r.Failed?
    ensures r.Failed? ==> o.err == Some(r.err)
    ensures o.Terminal? && o.err.None? ==> r == ExitWith(o.code)
  {
    match o
    case Continue(_) => Supervising
    case Terminal(code, err) => if err.Some? then Failed(err.value) else ExitWith(code)
  }

  /** `start`: refuse an empty id, run the task, and report what `runTask`
      returned. */
  method StartCommand(id: string, setup: Setup, events: seq<Event>) returns (r: Traced<StartResult>)
    requires AllSettle(events)
    ensures id == "" ==> r == Traced(Failed(ContainerIdRequired), [])
    ensures id != "" && setup.client.Some? ==> r == Traced(Failed(setup.client.value), [NewClient])
    ensures id != "" && setup.client.None? && setup.load.Some? ==>
      r == Traced(Failed(setup.load.value), [NewClient, LoadContainer(id)])
    ensures id != "" && setup.client.None? && setup.load.None? && setup.newTask.Err? ==>
      r.value == Failed(setup.newTask.error)
    ensures id != "" && setup.client.None? && setup.load.None? && setup.newTask.Ok? && setup.wait.Some? ==>
      r.value == Failed(setup.wait.value)
    ensures id != "" && Launches(setup) ==> r.value == Report(RunOutcome(FirstState(id, setup), events))
    ensures NewTasks(r.calls) == 1 <==> id != "" && setup.client.None? && setup.load.None?
    ensures NewTasks(r.calls) == 1 ==> |r.calls| >= 3 && r.calls[2] == NewTask(id, CreateStdio)
  {
    if id == "" {
      CountZeroIff([], TaskCreation);
      return Traced(Failed(ContainerIdRequired), []);
    }
    var run := RunTask(id, setup, events);
    r := Traced(Report(run.value), run.calls);
  }

  // ---------------------------------------------------------------------
  // Properties of the loop over several attempts and events

  /** A prefix of settling events settles. */
  lemma AllSettlePrefix(events: seq<Event>, i: nat)
    requires AllSettle(events) && i <= |events|
    ensures AllSettle(events[..i])
  {
    forall j | 0 <= j < i ensures Settles(events[..i][j]) {
      assert events[..i][j] == events[j];
    }
  }

  /** The loop stops at its first terminal iteration: `runTask` returns
      what that iteration returns, from the state the iterations before it
      left, all of which went on. */
  lemma {:induction false} RunReturnsFirstTerminalStep(s: RunState, events: seq<Event>)
    requires AllSettle(events)
    requires RunOutcome(s, events).Terminal?
    ensures exists i | 0 <= i < |events| ::
      && AllSettle(events[..i])
      && RunOutcome(s, events[..i]).Continue?
      && StepOutcome(RunOutcome(s, events[..i]).state, events[i]) == RunOutcome(s, events)
    decreases |events|
  {
    assert events[..0] == [];
    match StepOutcome(s, events[0])
    case Terminal(_, _) =>
      assert StepOutcome(RunOutcome(s, events[..0]).state, events[0]) == RunOutcome(s, events);
    case Continue(next) =>
      var tail := events[1..];
      assert AllSettle(tail) by {
        forall j | 0 <= j < |tail| ensures Settles(tail[j]) {
          assert tail[j] == events[j + 1];
        }
      }
      RunReturnsFirstTerminalStep(next, tail);
      var k :| 0 <= k < |tail| && AllSettle(tail[..k]) && RunOutcome(next, tail[..k]).Continue?
        && StepOutcome(RunOutcome(next, tail[..k]).state, tail[k]) == RunOutcome(next, tail);
      var prefix := events[..k + 1];
      AllSettlePrefix(events, k + 1);
      assert prefix[0] == events[0] && prefix[1..] == tail[..k];
      assert RunOutcome(s, prefix) == RunOutcome(next, tail[..k]);
      assert tail[k] == events[k + 1];
  }

  /** An unavailable runtime makes the signal path reconnect and Kill again
      as often as the runtime stays unavailable: after n such rounds and a
      delivered signal the loop goes on, having sent n + 1 Kills. */
  lemma {:induction false} KillRetriesWithoutBound(s: RunState, sig: Runtime.Signal, attempts: seq<KillAttempt>, n: nat)
    requires n < |attempts|
    requires forall i | 0 <= i < n :: KillRetries(attempts[i])
    requires attempts[n].kill.None?
    ensures KillSettles(attempts)
    ensures n == 0 ==> KillOutcome(s, sig, attempts) == Continue(s)
    ensures n > 0 ==>
      && KillRetries(attempts[n - 1])
      && KillOutcome(s, sig, attempts) == Continue(s.(task := Task(s.id, attempts[n - 1].reacquire.attach.value)))
    ensures KillRounds(attempts) == n + 1
    decreases n
  {
    if n > 0 {
      forall i | 0 <= i < n - 1 ensures KillRetries(attempts[1..][i]) {
        assert attempts[1..][i] == attempts[i + 1];
      }
      var t := Util.GetTask(s.id, attempts[0].reacquire).value.value;
      KillRetriesWithoutBound(s.(task := t), sig, attempts[1..], n - 1);
      assert n > 1 ==> attempts[1..][n - 2] == attempts[n - 1];
    }
  }

  /** An unavailable exit keeps the loop alive through any number of failed
      re-Waits: once a Wait succeeds the loop goes on with the re-attached
      task of the same container and a nil `err`. */
  lemma {:induction false} WaitRetriesWithoutBound(s: RunState, attempts: seq<RewaitAttempt>, n: nat)
    requires n < |attempts|
    requires forall i | 0 <= i < n :: RewaitRetries(attempts[i])
    requires attempts[n].reconnect.None? && Util.Reacquires(attempts[n].reacquire) && attempts[n].wait.None?
    ensures RewaitSettles(attempts)
    ensures WaitOutcome(s, attempts) == Continue(RunState(s.id, Task(s.id, attempts[n].reacquire.attach.value), None))
    decreases n
  {
    if n > 0 {
      forall i | 0 <= i < n - 1 ensures RewaitRetries(attempts[1..][i]) {
        assert attempts[1..][i] == attempts[i + 1];
      }
      var t := Util.GetTask(s.id, attempts[0].reacquire).value.value;
      WaitRetriesWithoutBound(s.(task := t, err := attempts[0].wait), attempts[1..], n - 1);
    }
  }

  /** The wrapped-nil quirk: when the very first reconnect after an
      unavailable exit fails, `runTask` returns the sentinel code with no
      error, so `start` exits with that code instead of reporting a
      failure. */
  lemma {:induction false} FirstReconnectFailureLosesError(s: RunState, exit: TaskExit, rewaits: seq<RewaitAttempt>)
    requires s.err.None?
    requires IsUnavailable(exit.error)
    requires |rewaits| > 0 && rewaits[0].reconnect.Some?
    ensures AllSettle([WaitExit(exit, rewaits)])
    ensures RunOutcome(s, [WaitExit(exit, rewaits)]) == Terminal(FailureCode, None)
    ensures Report(RunOutcome(s, [WaitExit(exit, rewaits)])) == ExitWith(FailureCode)
  {
    var events := [WaitExit(exit, rewaits)];
    assert RunOutcome(s, events[1..]).Continue?;
  }

  /** When a re-Wait failed first, a later reconnect failure does report
      that Wait error, wrapped with "reconnect". */
  lemma LaterReconnectFailureReportsWaitError(s: RunState, a: RewaitAttempt, b: RewaitAttempt)
    requires RewaitRetries(a) && b.reconnect.Some?
    ensures RewaitSettles([a, b])
    ensures WaitOutcome(s, [a, b]) == Terminal(FailureCode, Some(Wrapped("reconnect", a.wait.value)))
  {
    assert [a, b][1..] == [b];
  }

  /** The events with `first` in front still all settle. */
  lemma SettleCons(first: Event, later: seq<Event>)
    requires Settles(first) && AllSettle(later)
    ensures AllSettle([first] + later)
  {
    var events := [first] + later;
    forall i | 0 <= i < |events| ensures Settles(events[i]) {
      if i > 0 { assert events[i] == later[i - 1]; }
    }
  }

  /** A task that exits cleanly makes `start` exit with the task's own code,
      whatever events would have followed. */
  lemma {:induction false} CleanExitIsProcessExit(s: RunState, code: uint32, later: seq<Event>)
    requires AllSettle(later)
    ensures AllSettle([WaitExit(TaskExit(code, None), [])] + later)
    ensures Report(RunOutcome(s, [WaitExit(TaskExit(code, None), [])] + later)) == ExitWith(code as int)
  {
    var events := [WaitExit(TaskExit(code, None), [])] + later;
    assert events[0] == WaitExit(TaskExit(code, None), []);
    SettleCons(events[0], later);
  }

  /** A start error is reported as the command's error, not as an exit code. */
  lemma {:induction false} StartFailureIsReported(s: RunState, err: Error, later: seq<Event>)
    requires AllSettle(later)
    ensures AllSettle([StartDone(Some(err))] + later)
    ensures Report(RunOutcome(s, [StartDone(Some(err))] + later)) == Failed(err)
  {
    var events := [StartDone(Some(err))] + later;
    assert events[0] == StartDone(Some(err));
    SettleCons(events[0], later);
  }

  /** One unavailable exit, a successful reconnect and re-Wait, then a clean
      exit: `start` exits with that second exit's code. */
  lemma {:induction false} ReconnectThenExit(id: string, pid: uint32, attached: uint32, lost: TaskExit, code: uint32)
    requires IsUnavailable(lost.error)
    ensures var reconnected := RewaitAttempt(None, Util.AttachReplies(None, Ok(attached)), None);
      var events := [WaitExit(lost, [reconnected]), WaitExit(TaskExit(code, None), [])];
      && AllSettle(events)
      && Report(RunOutcome(RunState(id, Task(id, pid), None), events)) == ExitWith(code as int)
  {
    var reconnected := RewaitAttempt(None, Util.AttachReplies(None, Ok(attached)), None);
    var first := WaitExit(lost, [reconnected]);
    var second := WaitExit(TaskExit(code, None), []);
    var events := [first, second];
    assert RewaitSettles([reconnected]) by {
      assert !RewaitRetries(reconnected);
    }
    assert Settles(first) && Settles(second);
    assert AllSettle(events);
    var s0 := RunState(id, Task(id, pid), None);
    var s1 := RunState(id, Task(id, attached), None);
    assert WaitOutcome(s0, [reconnected]) == Continue(s1);
    assert StepOutcome(s0, first) == Continue(s1);
    assert events[1..] == [second];
    assert RunOutcome(s1, [second]) == Terminal(code as int, None);
  }

  /** Signals whose first Kill is not refused as unavailable are each sent
      with exactly one Kill, and the loop goes on through all of them. */
  lemma {:induction false} TakenSignalsEachKilledOnce(s: RunState, events: seq<Event>)
    requires forall i | 0 <= i < |events| ::
      events[i].SignalReceived? && |events[i].kills| > 0 && !IsUnavailable(events[i].kills[0].kill)
    ensures AllSettle(events) && RunKills(s, events) == |events|
    ensures RunOutcome(s, events) == Continue(s)
    decreases |events|
  {
    if |events| > 0 {
      var e := events[0];
      assert !KillRetries(e.kills[0]);
      assert Settles(e);
      assert KillRounds(e.kills) == 1;
      assert StepOutcome(s, e) == Continue(s);
      var later := events[1..];
      assert forall i | 0 <= i < |later| :: later[i] == events[i + 1];
      TakenSignalsEachKilledOnce(s, later);
      SettleCons(e, later);
      assert events == [e] + later;
    }
  }
}
