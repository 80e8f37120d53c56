/**
 The containerd client as the proxy sees it.

 Nothing here talks to a runtime: every call the proxy makes is answered by
 an oracle reply that the caller passes in, and every operation of the model
 returns, next to its result, the list of runtime calls it issued, so that
 "nothing was deleted" or "exactly one Kill" are statements about that list.
 */
module Runtime {

  /** Go's `uint32`, the type of exit codes and process ids in containerd. */
  newtype uint32 = x: int | 0 <= x < 0x1_0000_0000

  /** A Go value that may be nil. */
  datatype Option<+T> = None | Some(value: T)

  /** The errors the proxy can see, classified the way `errdefs` does:
      by kind, through any context wrapped around them. */
  datatype Error =
    | NotFound(detail: string)
    | Unavailable(detail: string)
    | Other(detail: string)
      /** `errors.Wrap(cause, context)` of pkg/errors */
    | Wrapped(context: string, cause: Error)

  /** A Go `(value, error)` pair in which exactly one half is meaningful. */
  datatype Result<+T> = Ok(value: T) | Err(error: Error)

  /** pkg/errors `Cause`: the error with every layer of context removed. */
  function Cause(e: Error): (r: Error)
    ensures !r.Wrapped?
    ensures !e.Wrapped? ==> r == e
  {
    match e
    case Wrapped(_, cause) => Cause(cause)
    case _ => e
  }

  /** `errdefs.IsNotFound`, which looks through wrapping. */
  predicate IsNotFound(e: Error) {
    Cause(e).NotFound?
  }

  /** `isUnavailable` / `errdefs.IsUnavailable(errdefs.FromGRPC(err))`, on a
      possibly nil error: nil is never "unavailable". */
  function IsUnavailable(err: Option<Error>): (r: bool)
    ensures r ==> err.Some?
    ensures r ==> !IsNotFound(err.value)
  {
    err.Some? && Cause(err.value).Unavailable?
  }

  /** pkg/errors `Wrap`: wrapping a nil error yields nil. */
  function Wrap(err: Option<Error>, context: string): (r: Option<Error>)
    ensures r.None? <==> err.None?
    ensures r.Some? ==> r.value.Wrapped? && r.value.cause == err.value && r.value.context == context
  {
    match err
    case None => None
    case Some(e) => Some(Wrapped(context, e))
  }

  /** Context wrapped around an error does not change how it is classified. */
  lemma WrapKeepsKind(err: Option<Error>, context: string)
    ensures IsUnavailable(Wrap(err, context)) <==> IsUnavailable(err)
    ensures err.Some? ==> (IsNotFound(Wrap(err, context).value) <==> IsNotFound(err.value))
  {
  }

  /** A handle on a containerd client connection. */
  datatype Client = Client(handle: nat)

  /** A container record, known by its identity. */
  datatype Container = Container(id: string)

  /** A task is the single live process of its container. */
  datatype Task = Task(container: string, pid: uint32)

  /** An image, known by its name. */
  datatype Image = Image(name: string)

  /** An operating-system signal, by number. */
  datatype Signal = Signal(number: int)

  /** containerd's `ProcessStatus` values. */
  datatype TaskStatus = Created | Running | Stopped | Paused | Pausing | Unknown

  /** The I/O creator passed when a task is looked up or created:
      nil, `cio.NewCreator(cio.WithStdio)` or `cio.NewAttach(cio.WithStdio)`. */
  datatype IoMode = NoIo | CreateStdio | AttachStdio

  /** What the channel returned by `Task.Wait` delivers: an exit code and
      possibly an error (`ExitStatus.ExitCode()` / `ExitStatus.Error()`). */
  datatype TaskExit = TaskExit(code: uint32, error: Option<Error>)

  /** One call issued to the runtime (or, for `HostKill`, to the host kernel). */
  datatype Call =
    | OpenConfig(path: string)
    | NewClient
    | ClientReconnect
    | LoadContainer(id: string)
    | NewContainer(id: string, image: Image)
    | UpdateContainer(id: string)
    | LoadTask(container: string, io: IoMode)
    | NewTask(container: string, io: IoMode)
    | QueryStatus(task: Task)
    | StartTask(task: Task)
    | WaitTask(task: Task)
    | KillTask(task: Task, sig: Signal)
    | DeleteTask(task: Task, processKill: bool)
    | HostKill(pid: uint32, sig: Signal)
    | LookupImage(ref: string)
    | OpenBundle(path: string)
    | ImportImages(name: string)
    | UnpackImage(image: Image)
    | PullImage(ref: string)

  /** A result together with the runtime calls made to obtain it, in order. */
  datatype Traced<+T> = Traced(value: T, calls: seq<Call>)

  /** The kinds of call the trace properties count. */
  datatype Kind =
    | Deletion          // any `Task.Delete`
    | KillingDeletion   // a `Task.Delete` that also kills the process
    | TaskCreation      // `NewTask`
    | Dial              // a new client or a client reconnect
    | TaskKill          // `Task.Kill`
    | StatusQuery       // `Task.Status`
    | ContainerCreation // `NewContainer`
    | Unpack            // `Image.Unpack`
    | Pull              // an image pull
    | NonImage          // anything but an image lookup, bundle read, import, unpack or pull

  predicate IsKind(c: Call, k: Kind) {
    match k
    case Deletion => c.DeleteTask?
    case KillingDeletion => c.DeleteTask? && c.processKill
    case TaskCreation => c.NewTask?
    case Dial => c.NewClient? || c.ClientReconnect?
    case TaskKill => c.KillTask?
    case StatusQuery => c.QueryStatus?
    case ContainerCreation => c.NewContainer?
    case Unpack => c.UnpackImage?
    case Pull => c.PullImage?
    case NonImage => !(c.LookupImage? || c.OpenBundle? || c.ImportImages? || c.UnpackImage? || c.PullImage?)
  }

  /** How many calls of the trace are of this kind. */
  function Count(calls: seq<Call>, k: Kind): (n: nat)
    ensures n <= |calls|
  {
    if |calls| == 0 then 0
    else Count(calls[..|calls| - 1], k) + (if IsKind(calls[|calls| - 1], k) then 1 else 0)
  }

  /** Counting distributes over the concatenation of traces. */
  lemma {:induction false} CountAppend(a: seq<Call>, b: seq<Call>)
    ensures forall k :: Count(a + b, k) == Count(a, k) + Count(b, k)
    decreases |b|
  {
    if |b| == 0 {
      assert a + b == a;
    } else {
      assert (a + b)[..|a + b| - 1] == a + b[..|b| - 1];
      CountAppend(a, b[..|b| - 1]);
    }
  }

  /** Appending one call adds one to the count of each of its kinds. */
  lemma CountSnoc(a: seq<Call>, c: Call)
    ensures forall k {:trigger Count(a + [c], k)} :: Count(a + [c], k) == Count(a, k) + (if IsKind(c, k) then 1 else 0)
  {
    assert (a + [c])[..|a|] == a;
  }

  /** Prepending one call adds one to the count of each of its kinds. */
  lemma CountCons(c: Call, a: seq<Call>)
    ensures forall k {:trigger Count([c] + a, k)} :: Count([c] + a, k) == (if IsKind(c, k) then 1 else 0) + Count(a, k)
  {
    CountAppend([c], a);
    assert forall k :: Count([c], k) == Count([], k) + (if IsKind(c, k) then 1 else 0) by {
      assert [c][..0] == [];
    }
  }

  /** A delete that kills the process is a delete. */
  lemma {:induction false} KillingDeletesAreDeletes(calls: seq<Call>)
    ensures Count(calls, KillingDeletion) <= Count(calls, Deletion)
    decreases |calls|
  {
    if |calls| > 0 {
      KillingDeletesAreDeletes(calls[..|calls| - 1]);
    }
  }

  /** A count of zero means no call of the trace is of that kind. */
  lemma {:induction false} CountZeroIff(calls: seq<Call>, k: Kind)
    ensures Count(calls, k) == 0 <==> forall i | 0 <= i < |calls| :: !IsKind(calls[i], k)
    decreases |calls|
  {
    if |calls| > 0 {
      var init := calls[..|calls| - 1];
      CountZeroIff(init, k);
      assert forall i | 0 <= i < |init| :: init[i] == calls[i];
    }
  }

  predicate NoDeletes(calls: seq<Call>) {
    Count(calls, Deletion) == 0
  }

  predicate NoNewTasks(calls: seq<Call>) {
    Count(calls, TaskCreation) == 0
  }

  /** No client is dialed or reconnected. */
  predicate NoReconnects(calls: seq<Call>) {
    Count(calls, Dial) == 0
  }

  /** Every task delete in the trace leaves the task's process running. */
  predicate KeepsProcesses(calls: seq<Call>) {
    Count(calls, KillingDeletion) == 0
  }

  /** Number of `Task.Kill` calls in a trace. */
  function Kills(calls: seq<Call>): nat {
    Count(calls, TaskKill)
  }

  /** Number of tasks created in a trace. */
  function NewTasks(calls: seq<Call>): nat {
    Count(calls, TaskCreation)
  }

  /** All calls but the last one. */
  function Init(calls: seq<Call>): seq<Call>
    requires |calls| > 0
  {
    calls[..|calls| - 1]
  }

  /** The trace ends with a task delete that also kills the process, and
      that delete is the only one. */
  predicate EndsWithKillingDelete(calls: seq<Call>) {
    && |calls| > 0
    && calls[|calls| - 1].DeleteTask?
    && calls[|calls| - 1].processKill
    && NoDeletes(Init(calls))
  }

  /** Appending a non-empty trace makes its last call the last one. */
  lemma LastAppend(a: seq<Call>, b: seq<Call>)
    requires |b| > 0
    ensures |a + b| > 0 && (a + b)[|a + b| - 1] == b[|b| - 1]
  {
  }

  /** The first two calls of an appended trace, split out. */
  lemma SpliceTwo(a: seq<Call>, b: seq<Call>)
    requires |b| > 1
    ensures a + b == a + [b[0], b[1]] + b[2..]
  {
    assert b == [b[0], b[1]] + b[2..];
  }

  lemma InitAppend(a: seq<Call>, b: seq<Call>)
    requires |b| > 0
    ensures Init(a + b) == a + Init(b)
  {
    assert (a + b)[..|a + b| - 1] == a + b[..|b| - 1];
  }
}
