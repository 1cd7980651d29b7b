# Watch controller: a sequential model

The `watch` package is a fan-in controller for Kubernetes watches. It has these parts:

- `Register` records a cluster client. It validates the requested namespaces against the cluster's own namespace listing.
- `Watchers` starts one watcher task per (client, namespace) pair for one resource kind.
- Each task forwards the watch events of its source into one shared stream. Each event is tagged with the task's provenance metadata (resource kind, client identifier, namespace).
- When a task stops, it sends a stopped-watcher sentinel (an `ErrWatcher` object under event type `"Error"`). It then releases a completion barrier.
- `Close` is a one-shot shutdown. It broadcasts cancellation, waits for the barrier, marks the controller stopped and sends a final `CloseComplete` envelope.

This project models that controller as a sequential abstraction:

- `types.dfy`, module `WatchTypes`: the value types `Metadata`, the event `Object`s, `WatchEvent` and `Envelope`. It also holds the message `ErrWatcher.Error()` formats, with a parser that inverts it.
- `registry.dfy`, module `Registry`: the registered `Client` and the namespace matching `Register` performs. It also defines the enumeration of (client, namespace) pairs that `Watchers` spawns a task for.
- `tasks.dfy`, module `Tasks`: the life cycle of one watcher task (`Created`, `Streaming`, `Exited`, `Failed`) and `TaskOutput`, which is what a task sends over its whole life. It also defines the counts that tie the barrier to the tasks and the sentinels to the stream.
- `trace.dfy`, module `Trace`: who sent what on the stream. Each envelope is attributed to the task that sent it, or to shutdown. `Traced` states what each task's envelopes are, taken on their own in stream order: a tagged prefix of the source the task opened, followed by that task's one sentinel once it has exited. The lemmas show that every operation keeps this, whatever the order in which the tasks' steps are interleaved.
- `controller.dfy`, module `Watch`: the class `Controller`. Its fields are the package's global state:
  - `clients`;
  - the stream `output`;
  - `barrier`, for the wait group;
  - `running`;
  - `cancelled`, for the closed shutdown channel;
  - the spawned `tasks`;
  - ghost bookkeeping that only the proofs see: the task each envelope came from (`origin`), the source each task opened (`sources`), and the items each task has forwarded so far (`forwarded`).

  Its methods are `Register`, `Watchers`, the steps of a task's goroutine (`Connect`, `Step`, `RunTask`) and `Close`. `Valid()` is the invariant every method keeps:
  - the barrier equals the number of streaming tasks;
  - the stream holds as many sentinels as there are exited tasks;
  - the stream holds one `CloseComplete` exactly once shutdown has finished;
  - every other envelope carries the metadata of the task that sent it;
  - the envelopes of each task are a tagged prefix of its source, then its own sentinel once it has exited (`Trace.Traced`).

Calls into code outside the controller become inputs:

- the cluster's namespace listing is a `Result<seq<string>>` given to `Register`;
- the result of opening a watch for one (client, namespace) is a `Construction` given to `Connect`/`RunTask`. It is either the finite sequence of items the source yields before it reports closed, or the error.

The scheduler's choices become inputs too:

- `closeWins` for `Step` says whether the close branch of the `select` is taken once cancellation has been broadcast;
- `cancelAfter` for `RunTask` is the number of items after which it is taken.

`glog.Fatal` becomes a `Fatal(message)` outcome that leaves the state unchanged, since the process ends. The namespaces `Register` warns about are returned as `Registered(missing)`.

`ShutdownScenario` is a small client of the model. It registers one client with three namespaces and streams 5, 2 and 0 items. It then calls `Close` and proves that the stream holds:

- the seven forwarded items, in order;
- the three sentinels, in task order;
- the shutdown-complete envelope, last.

## Model

| member | source | states |
|---|---|---|
| WatchTypes.ErrorTextRoundTrip | watch/controller.go:71-73 | The stopped-watcher message `Function/Identifier/Namespace: Watcher stopped` determines the metadata it was made from whenever the resource kind and identifier contain no '/' |
| WatchTypes.ParsedErrorText | watch/controller.go:71-73 | Every message the parser accepts is exactly the stopped-watcher text of the metadata it returns, so message and metadata correspond one to one |
| Registry.MatchedMembers | watch/controller.go:40-49 | A name is stored iff it was requested and occurs in the listing; it is warned about iff it was requested and does not occur |
| Registry.MatchedInOrder | watch/controller.go:40-49 | The stored names are the requested names at strictly increasing positions, so request order is kept |
| Registry.MatchedMissingPartition | watch/controller.go:40-49 | Every requested name is either stored or warned about, never both; nothing is warned about iff every name is stored |
| Registry.MatchedConcat | watch/controller.go:41-49 | Matching is done name by name: the stored and warned lists of a concatenated request are the concatenations |
| Registry.MatchedAllFound | watch/controller.go:40-49 | When every requested name exists, all are stored, in request order, and none is warned about |
| Registry.PairsExactly | watch/controller.go:213-224 | The metadata tasks are spawned with are exactly `{name, client identifier, ns}` for the clients and their stored namespaces |
| Registry.PairsCount | watch/controller.go:214-215 | One task per stored namespace of each registered client |
| Tasks.TaskOutputShape | watch/controller.go:218-247 | A task whose watch cannot be opened sends nothing. One that opens sends source items in source order, tagged with its metadata, then exactly one sentinel `ErrWatcher(metadata)`, last. It forwards every item when nobody cancels and nothing past the point where it saw cancellation |
| Tasks.DrainAllCounts | watch/controller.go:226-267 | After the shutdown drain no task holds the barrier, every task that held it has exited, and exactly one sentinel per such task has been sent |
| Tasks.DrainSentinelsAllStreaming | watch/controller.go:228-242 | When every task is streaming at shutdown, the drain sends one sentinel per task, in task order |
| Tasks.TaskCountsUpdate | watch/controller.go:219-243 | Changing one task's phase changes the barrier count and the exited count by exactly that task's contribution |
| Trace.TracedSpawn | watch/controller.go:214-216 | A newly spawned task has sent nothing, and every earlier envelope keeps its attribution |
| Trace.TracedConnect | watch/controller.go:218-224 | Opening a watch records the source; nothing has been forwarded from it yet, and every task's envelopes are unchanged |
| Trace.TracedForward | watch/controller.go:233-235 | Forwarding moves the next pending item of exactly one task into that task's forwarded items. The item goes out attributed to that task, tagged with its metadata. Every other task's envelopes are unchanged |
| Trace.TracedExit | watch/controller.go:226-243 | Exiting sends the task's own sentinel, attributed to it, after its forwarded items; these are a prefix of its source. Every other task's envelopes are unchanged |
| Trace.TracedClose | watch/controller.go:269 | The shutdown-complete envelope belongs to no task and leaves every task's envelopes unchanged |
| Trace.SentinelOfExited | watch/controller.go:242 | Every sentinel on the stream was sent by a task that has exited, and carries that task's metadata |
| Watch.Controller.constructor | watch/controller.go:19-25 | The initial state: no clients, empty stream, barrier 0, running, not cancelled |
| Watch.Controller.Register | watch/controller.go:33-54 | `[]` or `[""]` is fatal with the zero-namespaces message and registers nothing. A failed listing is fatal with `Unable to list namespaces: <error>` and registers nothing. Otherwise exactly one client is appended, after the unchanged earlier clients, with the given identifier and the matched names; the missing names are returned |
| Watch.Controller.Watchers | watch/controller.go:213-216 | Appends one created task per (client, namespace) pair, clients in registration order and namespaces in stored order; nothing else changes |
| Watch.Controller.SpawnClient | watch/controller.go:215-216 | Appends one created task per stored namespace of a client, in order |
| Watch.Controller.SpawnTask | watch/controller.go:216 | Appends exactly one created task with the given metadata; nothing else changes |
| Watch.Controller.Connect | watch/controller.go:218-247 | Opening the watch: on success the task streams its source and the barrier goes up by one; on failure the task is failed, the barrier unchanged and nothing is sent |
| Watch.Controller.Step | watch/controller.go:225-243 | One select round: if the close branch wins after cancellation, or the source has reported closed, the task exits, sends its sentinel and releases the barrier. Otherwise it forwards the next item tagged with its metadata. Either way the envelope is attributed to task i |
| Watch.Controller.Exit | watch/controller.go:241-243 | The task exits, its sentinel is appended to the stream, and the barrier goes down by one |
| Watch.Controller.Deliver | watch/controller.go:233-235 | The task's next pending item is appended to the stream, tagged with its metadata, and the rest stays pending |
| Watch.Controller.Forward | watch/controller.go:225-240 | k rounds that each forward the next pending item: the stream grows by the first k items, tagged, in order |
| Watch.Controller.RunTask | watch/controller.go:216-248 | The whole life of a task: the stream grows by exactly `TaskOutput`, the task ends exited (or failed), and the barrier's net change is zero |
| Watch.Controller.AwaitBarrier | watch/controller.go:226-267 | After cancellation every streaming task takes the close branch and exits: the barrier reaches zero and one sentinel per streaming task is sent, in task order |
| Watch.Controller.Close | watch/controller.go:263-271 | The first call cancels, drains every task to barrier zero, clears `running` and sends the `CloseComplete` envelope with function `Close` last. A later call changes nothing |
| Watch.SpawnPairsStep | watch/controller.go:214-215 | Spawning for one more client appends exactly that client's tasks |
| Watch.ShutdownScenario | watch/controller.go:263-271 | For one client with three namespaces whose sources sent 5, 2 and 0 items, the stream after Close holds the 7 items in order, the 3 sentinels in task order, then `CloseComplete` |

## Left out

- `ClientFromCluster`, `ClientFromFile` and `clientFrom` (watch/controller.go:273-328) load configuration and call the API server. No cluster client is modelled; the listing and the watch construction are inputs.
- The sixteen per-resource-kind functions (watch/controller.go:85-211) are one-line calls into the client library. They are represented by the resource-kind `name` given to `Watchers` and the `Construction` input.
- The list options passed through to the watch call are not modelled; they only reach the client library.
- Goroutines, the `select` nondeterminism, blocking sends on the unbuffered stream and the wait group are not modelled as concurrency. Tasks run one step at a time, in the order the caller chooses. The stream is an unbounded sequence, so there is no backpressure.
- Close: `AwaitBarrier` lets the close branch win on the first round after cancellation for every task, in task order. In the source, the `select` at watch/controller.go:227-235 can still pick the source branch and forward ready items between `close(closechan)` and a task's exit. Close does not cover those schedules, because it cancels and drains in one atomic call.
- The unsynchronized `running` flag (watch/controller.go:24, 264) races under concurrent Close calls. A sequential model cannot exhibit this.
- Connect: `wg.Add(1)` runs inside the goroutine (watch/controller.go:219), so a task can open its watch after the barrier wait has returned and send after `CloseComplete`. The model does permit a created task to connect after Close. Each task's own envelopes stay as `Trace.Traced` says, but nothing is proved about them coming before `CloseComplete` in that case.
- A stopped source that never reports closed would hang its task and Close (watch/controller.go:230). Construction sources are finite, so this liveness issue is outside the model.
- Logging via glog is not modelled, apart from the fatal messages and the list of names warned about. This includes the warning in Close and the per-task exit and construction-failure messages.
- `GetObjectKind`/`DeepCopyObject` (watch/controller.go:75-81, 255-261) are trivial interface stubs.
- `Channel()` (watch/controller.go:56-58) only exposes the stream; it is represented by the `output` field.
- API objects in events are abstract handles, since the controller never looks into them.
- watch/example/watch-example.go is a demonstration program with no logic of its own.
- Register: the code refuses only `[]` and `[""]`. So `["", ""]` passes the first check, and a client whose requested names are all missing is still appended with no namespaces. The model follows the code. It does not enforce the stricter rule that a registration needs at least one requested namespace that exists.
