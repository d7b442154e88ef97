# machinery worker: dispatch and continuations

A model of the execution core of the `machinery` task-queue worker
(`v1/worker.go`). A decoded task signature names a registered task and
carries typed arguments and two continuation lists, `OnSuccess` and
`OnError`. `processMessage` looks the name up and drops the task when it is
not registered. Otherwise it converts the arguments, calls the task and hands
the outcome to `finalize`. `finalize` publishes back one signature per entry
of the continuation list the outcome selects, in list order:

- every error continuation gets the error as a new first argument;
- every success continuation gets the result as a new first argument, unless
  the origin is `Immutable`.

Files:

- `wrappers.dfy`: `Option` and `Result`.
- `tasks.dfy`: `TaskArg`, `TaskSignature`, `Error`, `Outcome`, and the
  one-argument prepend that `finalize` performs.
- `continuations.dfy`: module `ContinuationEngine`. `Continuations(origin, outcome)`
  is the sequence `finalize` publishes, with lemmas for count, order,
  per-element arguments, "only `Args` changes" and "exactly one branch fires".
- `invoker.dfy`: the registry as a `map<string, Handler>`. `Invoke` decides
  drop, error outcome or success outcome, and `Published` is what one message
  publishes.
- `worker.dfy`: the classes. `App` holds the registry and the `published`
  sequence that `SendTask` appends to. `Worker.ProcessMessage` and
  `Worker.Finalize` are proved to publish exactly `Published` and
  `Continuations`.
- `scenarios.dfy`: end-to-end client methods. They cover the result reaching
  `log`, an immutable origin, an unregistered name, a handler error reaching
  `alert`, and a conversion error reaching `alert`.

Handlers and argument conversion (`ReflectArgs`) are abstract total
functions. A handler is `seq<Value> -> HandlerResult`, and conversion is
`seq<TaskArg> -> Result<seq<Value>, Error>`, passed to `ProcessMessage` as a
parameter. Type tags and values are opaque strings.

Where the documented intent and the code disagree, the model follows the
code:

- A failed argument conversion is not a drop. Its error is routed into the
  error continuations (`v1/worker.go:69-73`).
- The error from decoding the envelope is discarded (`v1/worker.go:57`).
  Whatever the decoder filled in goes on to the registry lookup, so the model
  takes the decoded signature as its input and never claims a malformed
  envelope is dropped.
- There is no arity or type check before the call.

Because signatures are values, the origin's `OnSuccess`/`OnError` lists
are never changed by `finalize`. Each published signature is a fresh
value, as Go's `range` copy makes it. So two `finalize` runs on the same
input publish equal, independent sequences.

## Model

| member | source | states |
|---|---|---|
| `Tasks.PrependArg` | v1/worker.go:93-97 | the new signature has exactly one more argument, the given one first, then the template's arguments; dropping that first argument gives back the template unchanged |
| `ContinuationEngine.DeriveAllSnoc` | v1/worker.go:91-99 | one more loop iteration publishes one more derived signature, at the end of what was published so far |
| `ContinuationEngine.DeriveAllAt` | v1/worker.go:106-116 | one published signature per template, and the k-th is derived from the k-th template (order kept) |
| `ContinuationEngine.DeriveAllOriginIrrelevant` | v1/worker.go:86-117 | what is derived depends on the origin only through its `Immutable` flag, and on failure not even on that |
| `ContinuationEngine.ContinuationCount` | v1/worker.go:86-117 | a failure publishes exactly `len(OnError)` signatures, a success exactly `len(OnSuccess)` |
| `ContinuationEngine.ErrorContinuations` | v1/worker.go:91-98 | in the error branch the k-th published signature's arguments are the error argument followed by the k-th error continuation's own arguments; flipping `Immutable` changes nothing |
| `ContinuationEngine.MutableSuccessContinuations` | v1/worker.go:106-115 | with `Immutable` false the k-th published signature's arguments are the result followed by the k-th success continuation's own arguments |
| `ContinuationEngine.ImmutableSuccessContinuations` | v1/worker.go:106-116 | with `Immutable` true the success continuations are published exactly as declared, in order |
| `ContinuationEngine.OnlyArgsChange` | v1/worker.go:91-115 | a published signature equals its template except for `Args`, which are the template's own or have exactly one argument added in front |
| `ContinuationEngine.OneBranchFires` | v1/worker.go:87-101 | on failure what is published does not depend on `OnSuccess` or `Immutable`; on success it does not depend on `OnError` |
| `Invoker.DroppedIffUnregistered` | v1/worker.go:59-63 | the task is dropped exactly when its name is not registered, and then nothing is published |
| `Invoker.ConversionFailureRoutesToErrors` | v1/worker.go:68-73 | a conversion failure gives a failed outcome carrying that conversion error, the registered handler plays no part (it is not called), and each error continuation is published with that error first |
| `Invoker.HandlerErrorRoutesToErrors` | v1/worker.go:75-79 | a handler error gives a failed outcome with an `errors.New` error carrying the handler's message; `len(OnError)` signatures are published and `OnSuccess` plays no part |
| `Invoker.HandlerSuccessRoutesToSuccess` | v1/worker.go:75-83 | a handler with no error gives a success outcome carrying its first result; `len(OnSuccess)` signatures are published and `OnError` plays no part |
| `Invoker.AsWrittenLosesHandlerMessage` | v1/worker.go:75-77 | as written, a handler error is always forwarded with the text `<error Value>`, which differs from the intended outcome whenever the handler's message is anything else; otherwise the two agree |
| `Invoker.DiskFullMessageIsLost` | v1/worker.go:77 | a handler failing with "disk full": the code as written forwards `<error Value>`, the intended outcome forwards "disk full" |
| `Worker.App.SendTask` | v1/worker.go:98 | publishing appends exactly the given signature and changes nothing else |
| `Worker.Worker.ProcessMessage` | v1/worker.go:55-83 | the registry is left unchanged and what gets published is exactly `Published(registry, reflectArgs, s)`; on a handler error this forwards the handler's message, the corrected line 77 (see Findings) |
| `Worker.Worker.Finalize` | v1/worker.go:86-117 | what gets published is exactly `Continuations(s, outcome)`, one `SendTask` per template in list order |

## Left out

- `Launch` and `InitWorker` (`v1/worker.go:19-49`): configuration logging, opening the broker connection and the blocking message loop are I/O. `Worker.Worker.constructor` only stores the app and the consumer tag.
- JSON decoding of the delivery body (`v1/worker.go:56-57`) belongs to a foreign library. The decoded signature is the input of `ProcessMessage`, and the decoding error is ignored as in the code.
- Reflection is abstracted: the call through `reflect.Value.Call`, `ReflectArgs`, and the type tags from `reflect.TypeOf(...).String()`. Runtime panics from an arity or type mismatch inside `Call` are not modelled, and neither is the index panic of `results[1]` (line 76) for a registered task that returns fewer than two results.
- The bodies of `SendTask`, `GetRegisteredTask` and `GetConfig` are not part of this model. `SendTask` is an append to `published`, and its returned error is ignored, as in the code. `GetRegisteredTask` is a map lookup.
- `log.Printf` calls and concurrency across workers are not modelled.
- `Worker.Worker.ProcessMessage`: follows the corrected line 77 of the Findings table, forwarding a handler error with the handler's own message; the code as written forwards `<error Value>`, which `Invoker.InvokeAsWritten` models.
- `Invoker.Published`: built on `Invoker.Invoke`, the corrected line 77, not on `Invoker.InvokeAsWritten`.
- `Worker.Worker.Finalize`: takes an `Outcome` (a failure or a success) instead of Go's `(result, err)` pair. The source only ever passes one or the other.

## Findings

| source | as written | input that shows it | evidently intended | confidence | as-written member | corrected member |
|---|---|---|---|---|---|---|
| v1/worker.go:77 | the error passed to the error continuations is `errors.New(results[1].String())`; `reflect.Value.String()` on a value of kind interface returns the placeholder `<error Value>`, not the error's message | a registered handler returning the error "disk full" | the error continuations receive an error carrying "disk full" | high; not executed | `Invoker.AsWrittenLosesHandlerMessage` | `Invoker.HandlerErrorRoutesToErrors` |
