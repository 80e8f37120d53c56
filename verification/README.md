# containerd-proxy in Dafny

containerd-proxy runs one containerd container as if it were an ordinary
process. The binary is named after the container. It loads that
container's configuration, creates the container if it is missing, replaces
a stopped task with a fresh one, forwards every signal it receives to the
task, and exits with the task's exit code. A second entry point works on
a container id given on the command line, in two commands. `before` refuses
an empty id and deletes the container's existing task, whatever its state,
killing its process. `start` loads the existing container without creating
it, creates a new task and supervises it: it forwards signals, reconnects
to the runtime when the runtime becomes unavailable, and exits with the
task's code.

This project models that decision logic and proves properties of it.

- **The runtime is an oracle.** Every containerd, file-system or host call
  is answered by a reply passed in as a parameter: success, "not found",
  "unavailable", another error, a task status or a pid.
- **Operations return their calls.** Every operation returns its result
  together with the list of runtime calls it issued (`Traced`). Properties
  like "nothing is deleted", "exactly one Kill" or "the deferred delete
  comes last" are statements about that list.
- **The supervision loops are event-step machines.** This covers
  `runTask`'s loop in start.go and `proxy`'s loop in main.go. An event is
  one `select` iteration together with the replies to the calls that
  iteration makes. A retry that may go on without bound carries one reply
  record per attempt.
- **Outcomes are separate from calls.** Each loop has a value-level
  outcome function (`RunOutcome`, `LoopOutcome`, `ProxyOutcome`,
  `MainOutcome`). A trace-level method returns that outcome together with
  its calls. The end-to-end lemmas are stated about the outcome functions,
  and the methods' contracts connect them to the traces.

Modules, in dependency order:

- `Runtime`, in runtime.dfy: oracle replies, errors, the call trace and
  counting over it.
- `Paths`, in paths.dfy: Go's `filepath.Base`.
- `ProxyConfig`, in config.dfy, models config.go: configuration loading,
  the upgrade policy, argument building and image resolution.
- `Spec`, in spec.dfy, models spec.go: update options.
- `Cleanup`, in cleanup.dfy, models cleanup.go.
- `Util`, in util.dfy, models util.go.
- `Start`, in start.dfy, models start.go.
- `Proxy`, in proxy.dfy, models main.go.

The model keeps two quirks of the source as written:

- **start.go:120.** On a reconnect failure after an unavailable exit,
  start.go:120 wraps the function-scope `err`. On the first pass that
  `err` is nil, and `errors.Wrap(nil)` is nil. So `runTask` returns `(-1,
  nil)`, and `start` exits with code -1 instead of reporting an error.
  `Start.FirstReconnectFailureLosesError` proves it.
- **main.go:100.** On an exit error, main.go:100 tests the outer `err` of
  `proxy`, not the exit's error. That `err` is nil once the first `Wait`
  succeeded. So every exit error ends `proxy` with a nil error, and the
  process exits 0. The reconnect branch of that loop is unreachable.
  `Proxy.ExitErrorExitsZero` and the contracts of `Proxy.StepOutcome` and
  `Proxy.Loop` prove it.

## Model

| member | source | states |
|---|---|---|
| Runtime.Cause | util.go:53-55 | the kind of an error is read from beneath every layer of context, as `errdefs` does: the cause of an unwrapped error is itself, and a cause is never wrapped |
| Runtime.IsUnavailable | util.go:53-55 | a nil error is never "unavailable", and an unavailable error is not "not found" |
| Runtime.WrapKeepsKind | start.go:120-123 | wrapping an error with context keeps it "unavailable" or "not found" exactly when it was |
| Runtime.Wrap | start.go:120-123 | wrapping a nil error yields nil; otherwise the result wraps the given error with the given context |
| Paths.Base | main.go:157-159 | the id taken from the binary's path is never empty and holds no separator unless it is "/"; the empty path gives "."; a plain name is its own base; a path of separators only gives "/"; a trailing separator is ignored |
| Paths.BaseIgnoresTrailingSeparator | main.go:157-159 | "a/b/" has base "b" |
| Paths.BaseOfSeparatorsOnly | main.go:157-159 | "//" has base "/" |
| Paths.BaseIdempotent | main.go:157-159 | taking the base name of an id that is already a base name changes nothing |
| ProxyConfig.ConfigFileNamedAfterId | config.go:23 | the configuration file `main` opens for a container is `<id>.json` directly in /etc/containerd-proxy |
| ProxyConfig.LoadConfig | config.go:22-34 | an open or decode failure is the result; otherwise the decoded configuration is returned with its id set to the container id and every other field as decoded |
| ProxyConfig.ShouldUpgrade | config.go:46-62 | an unchanged image never upgrades; otherwise an unscoped container, a wildcard container, a wildcard configuration or equal scopes each authorize the upgrade, and nothing else does |
| ProxyConfig.UpgradeDeniedIff | config.go:46-62 | an upgrade is refused exactly when the image is unchanged, or when both scopes are non-wildcard, the container's scope is not empty, and they differ, even if the configured scope is empty |
| ProxyConfig.UpgradeTable | config_test.go:5-65 | the six rows of the upgrade test table give the expected answers |
| ProxyConfig.GetArgs | config.go:102-107 | the arguments are the binary's base name, then the configured arguments, then the command line's arguments, with lengths and order preserved |
| ProxyConfig.GetArgsForwardsAppended | config.go:102-107 | further command-line arguments are appended to the process arguments, last and in order |
| ProxyConfig.ImageCallsTouchNoTask | config.go:65-100 | a trace of image calls creates no task or container, deletes nothing, dials nothing and kills nothing |
| ProxyConfig.BundleChoice | config.go:73-92 | a bundle yields an image exactly when it opens, imports exactly one image and, when unpacking, unpacks; that image is the imported one; an open, import or unpack error is returned unchanged; any other count of imported images is "no image imported" |
| ProxyConfig.ImageChoice | config.go:65-100 | a local image, or a lookup error other than "not found", is final; an image that is not found is the pull's reply without a bundle path and the bundle's choice with one; any chosen image is the local one, the pulled one or the single imported one |
| ProxyConfig.ImportBundle | config.go:73-92 | the bundle is opened first and, once open, its images are imported next; an imported image is unpacked as the last call when asked to, never otherwise; nothing is pulled and only image calls are made |
| ProxyConfig.ResolveImage | config.go:65-100 | the lookup comes first and ends the resolution for a local image or a hard error; without a bundle path exactly one pull follows; with one the bundle is opened next and nothing is pulled; only image calls are made |
| ProxyConfig.GetImage | config.go:65-100 | a found local image is returned after the one lookup; a missing one is the pull's reply without a bundle path and the unpacked bundle's choice with one; an imported image is returned only with its unpack as the last call |
| ProxyConfig.UnpackOnlyAddsFailure | main.go:124-147 | `create`'s resolution, which does not unpack, picks the same image as `GetImage`'s whenever the unpack does not fail |
| Spec.WithScope | spec.go:33-41 | the scope label is set to the scope; every other label and every other field is unchanged; the label map exists afterwards; no error is returned |
| Spec.WithScopeOnNilLabels | spec.go:35-37 | a nil label map becomes a map holding only the scope label |
| Spec.WithScopeIdempotent | spec.go:33-41 | applying the same scope twice is applying it once |
| Spec.WithScopeLastWins | spec.go:33-41 | a later scope replaces an earlier one |
| Spec.WithCurrentSpec | spec.go:14-31 | a generation failure is returned and leaves the record untouched; otherwise the spec's process arguments are the base name, the configured and the forwarded arguments, its device list is cleared, and the encoding's error is the result |
| Spec.CurrentSpecUsesGetArgs | spec.go:16-19 | the spec's process arguments are exactly `GetArgs` |
| Cleanup.CleanupError | cleanup.go:11-28 | a missing task is no error and any other lookup failure is one; a task that is not stopped is refused; every error is a reply's error or the refusal |
| Cleanup.Cleanup | cleanup.go:11-28 | a missing task succeeds; a lookup, status or running-task failure is returned without a delete; a stopped task is deleted without killing a process and the delete's result returned; a delete happens at most once, as the last call, and only to a stopped task |
| Cleanup.CleanupSucceedsIff | cleanup.go:11-28 | cleanup succeeds exactly when there was no task, or the stopped one was deleted |
| Util.GetTask | util.go:18-24 | a load failure stops after the load; otherwise the container's existing task is attached to, never created; the handle is that container's task |
| Util.TrySendSignal | util.go:26-35 | exactly one runtime Kill; a successful Kill or a non-"unavailable" error is the result with nothing else sent; an unavailable runtime sends the same signal once to the task's pid and returns that result |
| Util.SignalDeliveredIff | util.go:26-35 | a signal is reported delivered exactly when the runtime took it, or the runtime was unavailable and the host kill took it |
| Util.Reconnect | util.go:37-51 | a dial failure stops after the dial; either failure yields no handles; otherwise the new client and the re-attached task of the same container |
| Start.Before | start.go:21-47 | an empty id fails before any runtime call; a dial or load error propagates; a missing task succeeds without a delete, any other task lookup error is returned without one; an existing task is deleted with its process killed, whatever its state; the status is never queried |
| Start.BeforeSucceedsIff | start.go:21-47 | `before` succeeds exactly when the id is set, the runtime and container are there, and there is no task or it was deleted |
| Start.KillOutcome | start.go:97-112 | the attempt that ends the retry decides: a Kill that is taken or lost to an error other than "unavailable" goes on with the task that attempt used and the same `err`; a reconnect failure returns -1 with that Kill's error; a failed `getTask` returns -1 with its error |
| Start.KillSettler | start.go:97-112 | the retry is ended by the first attempt that is not refused as unavailable, reconnected and re-acquired |
| Start.KillAgain | start.go:97-112 | the retry's calls begin with the Kill and send one Kill per attempt; a reconnect failure ends them with a killing delete of the task the last attempt used; a failed `getTask` ends them with the lost handle and no delete; going on deletes nothing; no task is created |
| Start.KillEnds | start.go:98-111 | an attempt that ends the retry makes one Kill; a Kill that is taken, or lost to another error, is the only call; a reconnect failure then deletes the task, killing it, and returns the Kill error; a failed `getTask` returns its error without a delete, after the reconnect and `getTask`'s calls |
| Start.KillRetryCalls | start.go:98-109 | an attempt that goes round again makes exactly the Kill, the reconnect, the container load and the attach to that container's task, in that order, and goes on with the attached task |
| Start.WaitOutcome | start.go:113-129 | the attempt that ends the retry decides: a reconnect failure returns -1 with the previous Wait's `err` wrapped, nil on the first pass; a failed `getTask` returns -1 with its error wrapped; a successful Wait goes on with the re-attached task and a nil `err` |
| Start.WaitSettler | start.go:113-129 | the retry is ended by the first attempt that does not reconnect, re-acquire and then fail to Wait |
| Start.WaitAgain | start.go:113-129 | the retry's calls begin with a reconnect; a reconnect failure ends them with a killing delete of the task the last attempt held; a failed `getTask` ends them with the lost handle and no delete; going on deletes nothing; no task is created and no Kill is sent |
| Start.WaitEnds | start.go:116-128 | an attempt that ends the retry: a reconnect failure deletes the task, killing it, right after the reconnect; a failed `getTask` deletes nothing; a successful Wait on the attached task goes on with it and a nil `err`; each case's calls are stated exactly, and none is a Kill |
| Start.WaitRetryCalls | start.go:116-127 | an attempt that goes round again makes exactly the reconnect, the container load, the attach and a Wait on the attached task, in that order, and no Kill |
| Start.StepOutcome | start.go:90-135 | a start error, a non-"unavailable" exit error and a clean exit end the loop with -1, -1 and the exit code; a signal the runtime took, or lost to an error other than "unavailable", changes nothing; going on keeps the container and a nil `err`; a non-sentinel code is the event's clean exit code |
| Start.Step | start.go:90-135 | a failed start, a clean exit and a plain exit error each make exactly one killing delete; a signal begins with the Kill and sends one Kill per delivery attempt; no other event sends a Kill; an unavailable exit begins with a reconnect; no task is created |
| Start.RunOutcome | start.go:90-136 | going on keeps the container and a nil `err`; a terminal code is -1 or the clean exit code of some event; a returned error comes with -1 |
| Start.Run | start.go:90-136 | the loop deletes nothing while it goes on, creates no task, and ends each terminal path with a killing delete or a lost handle; a first signal's Kill is the first call; the Kills sent are one per delivery attempt of each signal up to the first terminal iteration (`RunKills`) |
| Start.TakenSignalsEachKilledOnce | start.go:97-102 | signals whose first Kill is not refused as unavailable are each sent with exactly one Kill, and the loop goes on through all of them |
| Start.RunReturnsFirstTerminalStep | start.go:90-136 | the loop returns what its first terminal iteration returns, from the state the earlier iterations left, all of which went on |
| Start.Supervise | start.go:81-96 | a failed subscription deletes the task, killing it, and returns -1; otherwise the task is started right after the Wait and the loop decides |
| Start.RunTask | start.go:63-137 | dial, load and NewTask failures return -1 with their error, after exactly the calls made so far; exactly one task is created, third, once the container is loaded; a failed Wait ends with a killing delete; otherwise the loop decides |
| Start.Report | start.go:55-59 | an error from `runTask` becomes the command's failure, and only then; otherwise the command exits with the returned code |
| Start.StartCommand | start.go:50-61 | an empty id fails before any call; an error from `runTask` is the command's error; otherwise the process exits with the returned code; a task is created exactly when the runtime and container were there |
| Start.KillRetriesWithoutBound | start.go:97-110 | after any number of unavailable-and-reconnected Kill attempts and then a delivered one, the loop goes on with the last re-attached task, having sent one Kill per attempt |
| Start.WaitRetriesWithoutBound | start.go:115-128 | after any number of failed re-Waits, a successful one lets the loop go on with the re-attached task of the same container and a nil `err` |
| Start.FirstReconnectFailureLosesError | start.go:118-121 | when the first reconnect after an unavailable exit fails, `runTask` returns -1 with a nil error, so `start` exits -1 instead of failing |
| Start.LaterReconnectFailureReportsWaitError | start.go:118-126 | after a failed re-Wait, a reconnect failure returns that Wait's error wrapped with "reconnect" |
| Start.CleanExitIsProcessExit | start.go:133-134 | a clean exit makes `start` exit with the task's own code, whatever events would have followed |
| Start.StartFailureIsReported | start.go:92-96 | a start error becomes the command's error, not an exit code |
| Start.ReconnectThenExit | start.go:113-134 | any unavailable exit, a successful reconnect and re-Wait, then a clean exit make `start` exit with the second exit's code |
| Proxy.Create | main.go:118-150 | the image is resolved without unpacking; a resolution failure creates no container; otherwise the container is created once, last, from the chosen image, and its error is the result; no task is touched |
| Proxy.UpdateError | spec.go:14-31 | the update succeeds exactly when generation, encoding and storing succeed; a generation failure comes first, then an encoding failure, and every error is one of those replies |
| Proxy.Update | main.go:71-73 | the update fails exactly when spec generation, encoding or storing fails, and fails with the first of those errors |
| Proxy.StepOutcome | main.go:89-114 | a start error is returned and a successful start changes nothing; a signal goes on exactly when it was delivered, and a failed delivery returns the Kill's error, or the host kill's when the runtime was unavailable; a clean exit returns its status; an exit error returns the outer `err` unless it is "unavailable", so nil with a nil `err`; going on keeps the task |
| Proxy.StepCalls | main.go:94-109 | a signal makes exactly one runtime Kill, first; an exit makes no call unless the outer `err` is "unavailable", and only then reconnects and re-Waits on the old task; no step deletes or creates a task |
| Proxy.LoopOutcome | main.go:88-115 | going on keeps the task, and a nil `err` keeps the state; an exit status is returned only for a clean exit among the events |
| Proxy.LoopCalls | main.go:88-115 | the calls of the loop's iterations, in order, up to the first returning one; the first iteration's calls come first |
| Proxy.Loop | main.go:88-115 | the loop's calls are exactly its iterations' calls (`LoopCalls`); a first signal's Kill is the first call; they never delete or create a task, and from a nil outer `err` never reconnect |
| Proxy.LoopCallsTouchNoTask | main.go:88-115 | the iterations' calls never delete or create a task, and from a nil outer `err` never reconnect |
| Proxy.DeliveredSignalsEachSentOnce | main.go:94-97 | from a nil `err`, signals that are all delivered are each sent with exactly one runtime Kill |
| Proxy.LoopReturnsFirstReturningStep | main.go:88-115 | from a nil `err`, a returning loop returns what its first returning iteration returns, every earlier one having gone on |
| Proxy.LoopContinuesIffAllContinue | main.go:88-115 | from a nil `err`, the loop goes on exactly when every iteration goes on |
| Proxy.ContainerAvailable | main.go:56-65 | a load failure other than "not found" leaves no container; a created container needs a chosen image and a successful NewContainer |
| Proxy.AcquireError | main.go:56-65 | acquiring fails exactly when the container is neither loaded nor creatable; a load error other than "not found" is that error |
| Proxy.Acquire | main.go:56-65 | a loaded container is used after the one load; a load error other than "not found" is returned; a container is created only when it was not found, and a container that was not found goes through `create`, looking up the image right after the load and ending in one NewContainer from the chosen image; no task is touched |
| Proxy.Supervise | main.go:78-115 | a failed Wait is returned; otherwise the task is started right after the Wait and the loop decides; returning deletes the task last, without killing its process, and nothing is deleted before that |
| Proxy.Started | main.go:80-115 | after the Wait, the task is started second and the loop decides; returning deletes the task last, without killing its process; nothing is created or reconnected |
| Proxy.Tasked | main.go:74-115 | the outcome is `TaskOutcome`'s; exactly one task is created, first; a NewTask failure returns after that call; once the task exists, returning deletes it last; nothing reconnects, and no delete kills the task's process |
| Proxy.Prepared | main.go:66-115 | a cleanup failure is returned before the update, and an update failure before the new task; otherwise the cleanup's calls come first, then the update, then the new task, exactly one task is run, and it is deleted last on return; a task is created exactly when cleanup and update succeed |
| Proxy.UpdatedTask | main.go:71-115 | the update comes first; its failure is returned with no further call; otherwise the new task is created second, `TaskOutcome` decides, and the task is deleted last on return |
| Proxy.ReadyForTask | main.go:47-73 | a container is ready for its task only when the client, the container, the cleanup and the update all succeeded; a running stale task keeps it from being ready |
| Proxy.TaskOutcome | main.go:74-116 | a failed NewTask or Wait is returned before the loop; the loop only goes on with the new task and a nil `err`; an exit status is returned only for a clean exit |
| Proxy.SetupError | main.go:47-73 | some step before `NewTask` fails exactly when the container is not ready for its task |
| Proxy.ProxyOutcome | main.go:47-116 | a container not ready for its task ends `proxy` with a runtime error; the loop only runs on the new task with a nil `err`; an exit status is returned only for a clean exit |
| Proxy.Connected | main.go:56-115 | after the dial, a task is created exactly when the container is ready for it; nothing reconnects and no delete kills the task's process; the deferred delete is last |
| Proxy.Proxy | main.go:47-116 | one client is dialed, first, and nothing reconnects; at most one task is created, exactly when the container is ready for it; no delete kills a process; once the task exists, returning deletes it last |
| Proxy.ExitFor | main.go:39-44 | an `exitError` exits with its status silently; any other error is printed and exits 1; nil exits 0 |
| Proxy.Id | main.go:157-159 | the id is never empty and holds no separator unless it is "/"; a plain binary name is the id; a trailing separator is ignored |
| Proxy.IdOfInstalledBinary | main.go:157-159 | a binary named after a container, in any directory, runs the proxy for that container |
| Proxy.MainOutcome | main.go:28-45 | an unreadable configuration is printed and exits 1; every printed error exits 1; a silent non-zero exit is the task's own clean exit code |
| Proxy.Configured | main.go:28-45 | once the configuration is read, the file open is followed by one dial, and the result is `proxy`'s outcome mapped to the process exit |
| Proxy.RunProxy | main.go:28-45 | the container's configuration file is opened first; without a configuration the runtime is never called; otherwise one client is dialed next; a task is created exactly when the configured container is ready for it; no delete kills the task's process |
| Proxy.HealthyIgnoresId | main.go:47-73 | whether every step before the loop succeeds does not depend on the container id that `loadConfig` sets |
| Proxy.HealthyRunsLoop | main.go:47-116 | when every step before the loop succeeds (the container loaded or created, a stale stopped task removed if there was one, the spec updated, the task created and its exit subscribed), the process supervises while the loop goes on and otherwise exits as the loop's return decides |
| Proxy.CleanExitIsProcessExit | main.go:111-113 | for any container whose steps before the loop all succeed, loaded or created, with or without a stale stopped task removed, a clean exit makes the process exit with the task's code, silently, whatever events would have followed |
| Proxy.ExitErrorExitsZero | main.go:98-102 | for any container whose steps before the loop all succeed, loaded or created, with or without a stale stopped task removed, an exit with any error, "unavailable" included, makes the process exit 0 without printing |
| Proxy.SignalFailureIsFatal | main.go:94-97 | for any container whose steps before the loop all succeed, loaded or created, with or without a stale stopped task removed, a failed signal delivery makes the process print the delivery's error and exit 1 |
| Proxy.DeliveredSignalsKeepSupervising | main.go:90-97 | for any container whose steps before the loop all succeed, loaded or created, with or without a stale stopped task removed, a successful start followed by delivered signals keeps the proxy supervising |
| Proxy.AllDeliveredContinue | main.go:94-97 | signals that reach the task, through the runtime or the host-kill fallback, leave the loop where it was |

## Left out

- Runtime, gRPC and host calls are oracle replies: containerd's client, `errdefs.FromGRPC`, `unix.Kill`, `os.Open` and the JSON decoder. The model covers what the proxy decides from those replies, not how they are produced.
- `loadConfig` path cleaning: `ProxyConfig.ConfigPath` joins the directory and `<id>.json` without `filepath.Join`'s cleaning. That only matters for the id "/", which `filepath.Base` yields for a binary path of separators only: the model opens `/etc/containerd-proxy//.json` where Go opens `/etc/containerd-proxy/.json`.
- An empty `os.Args` is not modelled: `GetArgs`, `WithCurrentSpec`, `Update`, `Proxy`, `RunProxy` and `MainOutcome` require at least the binary's name, since `getID` and `GetArgs` assume it (main.go:158, config.go:104-106); a process always has it.
- Namespaces (`namespaces.WithNamespace`, `newContext`) are not modelled: they only scope the runtime calls.
- Goroutines, channels, `signal.Notify` and `select` fairness are not modelled: each loop consumes a given sequence of events, one per iteration. The model does not say which event a real `select` would pick.
- A start result that arrives more than once is not ruled out: the goroutine sends once, but the event sequence is not constrained.
- `time.Sleep`, the client timeout, logrus logging, `client.Close` and `f.Close` are left out: none of them changes a result.
- `os.Exit`'s truncation of the code to 8 bits by the host is not modelled. The models return the exit code as Go computes it, e.g. -1 for `start`'s sentinel.
- `exitError.Error`'s formatting, `exit`'s printing and the urfave/cli command wiring are left out. A printed error is modelled as the error value.
- `os.Environ` merging, `oci.GenerateSpec`, `typeurl.MarshalAny` and everything in the generated spec besides the process arguments and the device list are left out. They are an opaque part of the spec and oracle replies.
- `flux.WithNewSnapshot` and the other `NewContainer` options are left out. Creation is recorded as one call with the container id and the image.
- The streaming of the bundle into `client.Import` is left out. The import's reply is the list of images it produced.
- The duplicate helpers in util.go (`exitError`, `exit`, `getID`, and `getTask` also in start.go) are modelled once. The repository does not build with both copies.
- main.go:103 calls `reconnect` with a client, which does not match util.go:37. The model uses util.go's `reconnect` (dial, then `getTask`) and discards its handles, as main.go does. The branch is unreachable anyway.
- main.go:71 and main.go:149 use `WithCurrentSpec` without its configuration argument. The model passes the proxy's configuration.
- Start.KillAgain: a reconnect that keeps succeeding against a runtime that stays unavailable would retry forever. The model requires every retry to settle (`KillSettles`, `RewaitSettles`), so it does not describe a non-terminating retry.
- Proxy.Loop: the trace is stated exactly as `LoopCalls`, the fold of `StepCalls` over the iterations. Beyond the first call, Kills are counted only when every event is a delivered signal (`DeliveredSignalsEachSentOnce`).
- Start.Run: the trace is not stated as a fold over iterations, because the retries' calls come from methods. Only the first call, the Kill count (`RunKills`), "no task created", "nothing deleted while going on" and the terminal endings are stated.
