# Verified models of gokit-services

A Dafny model of the stateful parts of the repository and proofs about them: the order-store stack of
the example service (in-memory and Postgres stores, read-through cache, event decorator), the worker
pool and the Kafka consumer that runs on it, the lifecycle protocols (`Entrypoint.Run`, the HTTP and
gRPC stop, the periodic runner), the connect retry, and the HTTP response recorder.

`dafny verify dfyconfig.toml` checks everything.

## How it is modelled

Go's channels, wait groups, `sync.Once`, mutexes and contexts are explicit state. A concurrent part is
a state machine: `Enabled` says when a step can happen, `Next` (or `Step`) what it does, one field at a
time, and `Run` is any sequence of steps from the initial state, so a lemma about `Run` holds for every
interleaving. `select` takes any ready case; a call to `Once.Do` while another is inside waits for it.
Fields marked as history record what has happened and influence no step. `Entrypoint`'s `log` of events
is more than that: a context counts as ended once the event that ends it is in the log.

Sequential code is written as classes and methods whose postconditions give the new state as a
function of the old one or as a step of the state machine; what the rest of the system does meanwhile
is a parameter (`World`, `Conduct`, `between`), over which everything is proved.

| file | part |
|---|---|
| Orders.dfy | the order, its ids, and the atomic transitions of any store |
| MemoryStore.dfy | the in-memory store, with mutable records |
| Postgres.dfy | the row table, statement by statement |
| StackSpec.dfy, StoreStack.dfy | Publishing(Caching(InMemory)) one call at a time: specification, then objects |
| OrderStack.dfy | the same stack with all calls, Redis commands, expiry and publishes interleaved: steps and invariants |
| OrderReads.dfy, OrderAnswers.dfy, OrderCreation.dfy, OrderLog.dfy | what follows in every run for readers, for the answers of calls, for created orders and for the event log |
| WorkerPool.dfy | the bounded pool |
| KafkaConsumer.dfy | the consumer, composed with the pool's own steps |
| Entrypoint.dfy | `Run`, the service goroutines and the outside |
| StopProtocol.dfy | the once-guarded graceful stop and the forced close, for HTTP and gRPC |
| Periodic.dfy | the tick loops |
| Retry.dfy | the connect loop |
| HttpResponse.dfy | the response writer, the panic recovery and the inflight gauge, for any number of requests |
| Sequences.dfy | sequences of distinct elements |

## Where the code and its documentation part

The model follows the code. In each case the exact condition is proved.

- `order.go:81` says Create returns a PENDING order. The copy is made after the lock is released
  (`store_memory.go:39-42`), so a confirmation or a sweep can come first, and can even come between the
  copying of the status and of the update time, so that the copy is no order the store ever held:
  `OrderCreation.CreateReturnsPendingIff`, `OrderCreation.CreateCopyIsVersionIff`, `OrderCreation.CreateMayReturnTorn`.
- `order.go:87-95` gives (false, nil) to orders no longer PENDING. Postgres's two statements can answer that
  for an order inserted between them: `Postgres.TwoStatementsAreAtomicIff`, `Postgres.PendingOrderReportedDecided`.
- `consumer.go:314-317` promises redelivery of a failed message. The cursor passes it as soon as a later
  message of the partition succeeds, even with one worker, and with several it passes messages still being
  handled: `KafkaConsumer.CursorIff`, `KafkaConsumer.SerialCursorIff`, `KafkaConsumer.FailedMessageCommittedPast`,
  `KafkaConsumer.RunningMessageCommittedPast`.
- `pool.go:34-36` says that without drain buffered tasks are left unprocessed. The workers keep ranging over
  the closed channel until every accepted task is done, with or without drain: `WorkerPool.ClosedPoolFinishes`.
- `pool.go:80-81` says a draining Stop waits for the workers. Its nil means a drained pool exactly when some
  worker had been spawned when its helper's Wait returned: `WorkerPool.StopNilIsDrainedIff`,
  `WorkerPool.StopNilUndrained`.
- `entrypoint.go:87` says PostStart hooks run after all services have started. Only their goroutines have
  been launched: `Entrypoint.PostStartAfterStartsIff`.
- The response writer records 1xx and invalid codes, and a status set after a flush, that the client never
  gets: `HttpResponse.StatusAgreesIff`. Of a HEAD request it records the size of a body that is not sent:
  `HttpResponse.RecordedSizeIsSentIff`, `HttpResponse.HeadRecordsUnsent`.
- The panic recovery leaves a Content-Length that the handler has declared. A Problem that is longer is not
  sent, and the client gets a 500 without a body: `HttpResponse.ProblemIffNothingWritten`,
  `HttpResponse.ProblemMayNotFit`.
- Capping the backoff at each step equals capping once unless BackoffMax is below -1 and the first growth
  passes it: `Retry.BackoffClosedFormIff`.
- A nil Stop of the HTTP or gRPC server means that no connection is left. All have drained exactly when no
  other Stop's forced close has found one open: `StopProtocol.NilIsDrained`, `StopProtocol.NilAfterCut`.
- `pkg/grpc/server/server.go:101-102` says an ended context makes Stop fall back to a forceful stop. It then still
  waits for the graceful call, and that for running handlers, however long: `StopProtocol.ForcedCloseFinishes`,
  `StopProtocol.HandlerHoldsStop`.
- A delete that Redis loses leaves the cache, and so Get, behind the store: `StackSpec.StackRefinesIff`,
  `StackSpec.LostDeleteShows`.

## Model

| member | source | states |
|---|---|---|
| Orders.DecimalRoundTrip | example/orders-service/store_memory.go:32 | the decimal digits printed for a counter value read back as that value |
| Orders.OrderIDInjective | example/orders-service/store_memory.go:31-32 | two counter values give the same `ord_%d` id exactly when they are equal |
| Orders.InsertIsExact | example/orders-service/store_memory.go:32-41 | an insertion in plain terms: a new PENDING order with the given customer, items and time, and no other order changed |
| Orders.ConfirmIsExact | example/orders-service/store_memory.go:65-78 | a confirmation in plain terms: when it is not found, lost or won, and the one change it makes |
| Orders.SweepIsExact | example/orders-service/store_memory.go:80-92 | a sweep in plain terms: an id is returned exactly when its order was PENDING and created before the cutoff; such orders become CANCELED at the clock reading, and no other order changes |
| MemoryStore.InMemoryStore.Create | example/orders-service/store_memory.go:27-43 | adds one PENDING order under an id not in the store before and changes no other |
| MemoryStore.InMemoryStore.Get | example/orders-service/store_memory.go:45-53 | the order as it is, or not found |
| MemoryStore.InMemoryStore.List | example/orders-service/store_memory.go:55-63 | every order exactly once |
| MemoryStore.InMemoryStore.ConfirmPending | example/orders-service/store_memory.go:65-78 | true exactly when the order was PENDING, and then only its status and update time change; not found is an error |
| MemoryStore.InMemoryStore.CancelStalePending | example/orders-service/store_memory.go:80-92 | cancels exactly the PENDING orders created before the cutoff and returns exactly their ids, none twice, in whatever order the map is ranged over |
| Postgres.RowsEvolve | example/orders-service/store/postgres.go:81-198 | over any statements no row disappears, returns to PENDING, or changes once decided |
| Postgres.PostgresStore.Create | example/orders-service/store/postgres.go:81-102 | draws the next number and inserts a new PENDING row as given under its id, or, exactly if that id is taken, fails leaving the rows alone |
| Postgres.PostgresStore.ConfirmPending | example/orders-service/store/postgres.go:146-169 | the update, then other sessions' statements, then the existence check; its answer is that of one atomic confirm at some moment of the call unless the order was created in between and is still PENDING |
| Postgres.PostgresStore.CancelStalePending | example/orders-service/store/postgres.go:171-198 | changes exactly the stale PENDING rows and returns exactly their ids, none twice |
| Postgres.TwoStatementsAreAtomicIff | example/orders-service/store/postgres.go:146-169 | for all statements of other sessions, exactly when the two statements are one atomic confirm |
| Postgres.PendingOrderReportedDecided | example/orders-service/store/postgres.go:151-168 | a run in which a PENDING order is reported as no longer pending |
| StackSpec.CacheKeyInjective | example/orders-service/store/caching.go:44 | different orders have different cache keys |
| StackSpec.StepAgrees | example/orders-service/store/caching.go:51-122 | any call from a coherent cache answers as the bare store does and leaves the cache coherent, when deletes take effect |
| StackSpec.EachCanceledOnce | example/orders-service/events.go:88-97 | a sweep publishes one canceled event per id, in order, less exactly those the publisher loses |
| StackSpec.NextGetNeedsNoStore | example/orders-service/store/caching.go:51-78 | a Get that has set its order in the cache spares the next Get the store; one that found nothing sets nothing |
| StackSpec.StackRefinesBareStore | example/orders-service/events.go:61-97 | every call of every sequence through publisher and cache answers as the bare store would, under any read and set failures, undecodable payloads, evictions, lost events and a client that appears late |
| StackSpec.CoherentIffTransparent | example/orders-service/store/caching.go:51-78 | the cache invariant is exactly that no Get, however Redis behaves, can tell the cache from the store |
| StackSpec.StepCoherentIff | example/orders-service/store/caching.go:51-122 | exactly when a call of any kind leaves the cache coherent: its delete took effect, or no decodable entry of an order it decides was there |
| StackSpec.StackRefinesIff | example/orders-service/store/caching.go:51-122 | over any call sequence and any conduct of Redis, no Get at any moment can tell the cache from the bare store exactly when every call was such a call |
| StackSpec.LostDeleteShows | example/orders-service/store/caching.go:90-122 | a run in which one lost delete makes Get answer PENDING for a CONFIRMED order |
| StoreStack.CachingStore.Get | example/orders-service/store/caching.go:51-88 | hit, miss, failed or undecodable read and nil client, with the cache afterwards; not found is never cached |
| StoreStack.CachingStore.ConfirmPending | example/orders-service/store/caching.go:90-97 | the inner store's answer and change, and the entry deleted unless the inner call failed |
| StoreStack.CachingStore.CancelStalePending | example/orders-service/store/caching.go:99-106 | cancels exactly the PENDING orders created before the cutoff, and all and only the swept entries deleted |
| StoreStack.CachingStore.Invalidate | example/orders-service/store/caching.go:110-122 | removes exactly the keys of the ids given, or nothing without a client |
| StoreStack.PublishingStore.Create | example/orders-service/events.go:61-74 | the inner Create, with one created event appended if the publisher takes it |
| StoreStack.PublishingStore.ConfirmPending | example/orders-service/events.go:76-86 | one confirmed event if, and only if, this call confirmed the order and the publisher takes it |
| StoreStack.PublishingStore.CancelStalePending | example/orders-service/events.go:88-97 | one canceled event per id swept, in the order returned, less those the publisher loses |
| StoreStack.Serve | example/orders-service/serverkit/backends.go:62-109 | the composed objects, driven through any call sequence, give the bare store's answers |
| OrderStack.InvRun | example/orders-service/store/caching.go:51-122 | in every reachable state, after any atomic steps of any calls, of Redis and of the clock, hold the five invariants on ids, history, winners, reads and log |
| OrderStack.StoreOverTime | example/orders-service/store_memory.go:65-92 | between any two moments of any run no order disappears or changes except once, out of PENDING |
| OrderReads.OnlyPendingIsStale | example/orders-service/store/caching.go:51-122 | for every interleaving, whatever is cached, about to be cached or returned by a Get is the store's order or the PENDING original of one since decided; CONFIRMED and CANCELED sightings are current for good |
| OrderReads.StalenessBound | example/orders-service/store/caching.go:68-77 | what a Get returned from the cache was the store's order at the step where some Get read it, the one that later set the entry; its age at the hit is below the ttl plus that Get's delay from read to SET, however many invalidations failed |
| OrderReads.ReadThrough | example/orders-service/store/caching.go:82-88 | what a Get returned past the cache was the store's order at its own read |
| OrderAnswers.AnswersInRun | example/orders-service/store/caching.go:51-122 | in every reachable state each call answers what was asked, with what its own store access found: a Get the order of its id, a confirm its outcome with the change it made, a sweep exactly the stale orders |
| OrderAnswers.GetFailedIff | example/orders-service/store/caching.go:82-88 | a Get has answered not found exactly when the order was not in the store at its own read |
| OrderAnswers.ReadDecidesAnswer | example/orders-service/store/caching.go:51-88 | a Get that reads the store ends with the very order that is there, or not found |
| OrderAnswers.ConfirmDecidesAnswer | example/orders-service/store/caching.go:90-97 | a confirm fails exactly when the order is not there at its own step, wins exactly when it is PENDING, and else is lost |
| OrderAnswers.SweepDecidesAnswer | example/orders-service/store/caching.go:99-106 | a sweep ends with the ids of exactly the orders stale at its own step, and that step changes exactly those |
| OrderReads.CachedUntilRemoved | example/orders-service/store/caching.go:68-77 | what a Get sets is there for every later Get until dropped, spoilt, replaced or deleted, and answers it exactly until the ttl has passed |
| OrderAnswers.CallsGoOn | example/orders-service/store/caching.go:51-122 | no call is ever stuck: whatever the others do it has a step to take until it has answered |
| OrderCreation.CreateReturnsItsOrder | example/orders-service/store_memory.go:27-43 | what Create returns has the customer, the items and the creation time of its own insertion, and is the order in the store but for status and update time |
| OrderReads.InvalidationSettles | example/orders-service/store/caching.go:110-122 | a successful delete by the deciding call ends staleness unless, and only unless, a Get that read the PENDING order has yet to fill the cache |
| OrderReads.SettledForever | example/orders-service/store/caching.go:51-122 | once neither cache nor pending fills hold another version, none ever will |
| OrderReads.SettledReads | example/orders-service/store/caching.go:51-88 | from then on every Get, by hit, by miss or without a client, ends with the order as it is |
| OrderAnswers.WonAtMostOnce | example/orders-service/order.go:87-100 | each order is won by at most one confirm or sweep, by exactly one iff it is no longer PENDING, and the winner's verdict is its status from then on |
| OrderLog.LogIsTruthful | example/orders-service/events.go:55-97 | at most one created and one terminal event per order; a terminal event has its winner's status and agrees with the store for good, a created event repeats the order its Create returned |
| OrderLog.ReplayRebuildsStore | example/orders-service/events.go:55-97 | with a publisher that never fails and no call in flight, replaying the log in any order gives every order's status |
| OrderCreation.CreateReturnsPendingIff | example/orders-service/store_memory.go:39-42 | Create's copy is PENDING exactly when no call has decided the order before its status is read |
| OrderCreation.CreateCopyIsVersionIff | example/orders-service/store_memory.go:39-42 | Create's copy is an order the store has held exactly when status and update time were read on the same side of the decision, or that left the time as it was |
| OrderCreation.CreateMayReturnTorn | example/orders-service/store_memory.go:39-42 | a run in which Create's copy is CONFIRMED with the update time of its creation, which no store ever held |
| WorkerPool.InvRun | pkg/workerpool/pool.go:62-117 | in every reachable state what was accepted is what was taken followed by what is queued, nothing twice, and queue, workers and lifecycle are in bounds |
| WorkerPool.TasksNext | pkg/workerpool/pool.go:64-69 | each task taken off the channel is run by one worker or done, exactly once |
| WorkerPool.SubmitAnswers | pkg/workerpool/pool.go:101-117 | Submit answers nil exactly for a task accepted, including in a race with close; a refused task is never run; tasks leave in order; queue and workers stay in bounds |
| WorkerPool.SubmitAnsweredBy | pkg/workerpool/pool.go:101-117 | the answer of the step that ends a Submit, from then on: nil when the task enters the channel, ctx's error if that had ended, else "pool stopped", and then the pool was closed |
| WorkerPool.SubmitEndsIff | pkg/workerpool/pool.go:111-116 | a blocked Submit can end exactly when the channel has room or is closed, or its context has ended |
| WorkerPool.StartGoesOn | pkg/workerpool/pool.go:62-78 | Start waits only for ctx and, with drain, for the workers; without drain it returns at the close |
| WorkerPool.ClosedForever | pkg/workerpool/pool.go:71-77 | after close nothing more is accepted |
| WorkerPool.StartReturnsDrained | pkg/workerpool/pool.go:71-77 | with drain, when Start has returned every task ever accepted is done, then and thereafter |
| WorkerPool.StopAnswers | pkg/workerpool/pool.go:82-97 | with drain Stop's answer is nil only if its helper's Wait has returned over workers all exited, and an error only if its context has ended; without drain it is never an error; answers are final |
| WorkerPool.StopReturns | pkg/workerpool/pool.go:82-97 | when Stop can return, and with which answer |
| WorkerPool.StopNilIsDrainedIff | pkg/workerpool/pool.go:82-97 | once a draining Stop's helper has come out of its Wait: an answer of nil means drained, however the run goes on, exactly when a worker had been spawned by then |
| WorkerPool.StopNilUndrained | pkg/workerpool/pool.go:82-97 | a run in which a draining Stop answers nil over an accepted task not done and a worker not exited |
| WorkerPool.RemainingNext | pkg/workerpool/pool.go:64-69 | after close each worker step uses up exactly one unit of work and nothing else changes it |
| WorkerPool.WorkersNeverStuck | pkg/workerpool/pool.go:64-69 | after close a worker can step exactly until all have exited |
| WorkerPool.DrainTakesExactly | pkg/workerpool/pool.go:62-78 | the exact number of worker steps between close and any later moment, in every interleaving, with or without drain |
| WorkerPool.ClosedPoolFinishes | pkg/workerpool/pool.go:64-72 | with or without drain, after close the workers can step until all have exited, which is after exactly that many steps, and then every accepted task is done |
| WorkerPool.Pool.constructor | pkg/workerpool/pool.go:47-57 | a fresh pool; the queue holds twice the size unless an option says otherwise |
| WorkerPool.Pool.Launch | pkg/workerpool/pool.go:62-70 | all size workers are spawned, idle |
| WorkerPool.Pool.Submit | pkg/workerpool/pool.go:101-117 | when it accepts, blocks, is canceled or finds the pool stopped, and the channel afterwards |
| WorkerPool.Pool.Work | pkg/workerpool/pool.go:64-69 | one turn of a worker is one of the pool's worker steps |
| WorkerPool.Pool.CloseAndWait | pkg/workerpool/pool.go:71-77 | closes, and with drain returns only once every accepted task is done; terminates whatever the scheduling |
| KafkaConsumer.EachMessageInOnePlace | pkg/kafka/consumer/consumer.go:281-348 | every fetched message is in exactly one of held, skipped, queued, running, finished and dropped, once |
| KafkaConsumer.BacklogBound | pkg/kafka/consumer/consumer.go:223 | at most 3 * poolSize + 1 messages are fetched and not finished |
| KafkaConsumer.CommitsAreEarned | pkg/kafka/consumer/consumer.go:297-347 | a commit is requested only for a message whose handler returned nil or whose topic has none |
| KafkaConsumer.CommitIff | pkg/kafka/consumer/consumer.go:318-348 | with any number of workers a commit, when requested, covers only handled messages exactly when no handler at a lower offset of the partition failed and none is still at work |
| KafkaConsumer.CursorIff | pkg/kafka/consumer/consumer.go:297-348 | the same of every commit ever requested, in any later state: the committed cursor covers only messages handled or without a handler exactly when no handler below it failed and none is at work |
| KafkaConsumer.SerialCursorIff | pkg/kafka/consumer/consumer.go:297-348 | with one worker: exactly when no handler below the cursor failed |
| KafkaConsumer.SerialCommitIff | pkg/kafka/consumer/consumer.go:318-348 | with one worker a commit covers only handled messages exactly when no handler at a lower offset of the partition failed |
| KafkaConsumer.FailedMessageCommittedPast | pkg/kafka/consumer/consumer.go:314-348 | a run with one worker whose commit passes a failed message |
| KafkaConsumer.RunningMessageCommittedPast | pkg/kafka/consumer/consumer.go:314-348 | a run with two workers whose commit passes a message still being handled |
| KafkaConsumer.InvRun | pkg/kafka/consumer/consumer.go:223-236 | the pool's invariants and the consumer's hold together in every reachable state |
| KafkaConsumer.Consumer.Consume | pkg/kafka/consumer/consumer.go:281-312 | fetches in order, goes on over errors, and is left exactly by ctx's end, a closed reader, an error with ctx ended, or a refused or waiting Submit; every message fetched is committed unhandled exactly when its topic has no handler, else submitted; its steps are a run of the protocol |
| KafkaConsumer.AllDealt | pkg/kafka/consumer/consumer.go:297-310 | in every reachable state each fetched message has been dealt with as its topic demands, or is held |
| KafkaConsumer.TracedInRun | pkg/kafka/consumer/consumer.go:281-348 | an outcome is what that message's handler returned, a commit one requested by the loop or by that message's worker, and the loop is over exactly when fetching ended or a Submit was refused |
| KafkaConsumer.CommittedIff | pkg/kafka/consumer/consumer.go:297-347 | a message the consumer is through with has been put up for commit exactly when its topic has no handler or its handler returned nil |
| KafkaConsumer.ConsumerGoesOn | pkg/kafka/consumer/consumer.go:281-348 | neither the loop nor a worker is stuck but in Submit without room and in a handler |
| KafkaConsumer.RefusedOnlyAtEnd | pkg/kafka/consumer/consumer.go:304-310 | the loop is refused a message only once Start's ctx has ended |
| Entrypoint.InvRun | pkg/core/entrypoint/entrypoint.go:155-238 | in every reachable state each event of the log came after what it must follow and before what it must precede |
| Entrypoint.LifecycleOrder | pkg/core/entrypoint/entrypoint.go:155-238 | no Start before every PreStart hook succeeded, no Stop before svcCancel, PostStop only once all Stops are launched and all Starts and Stops have returned or the deadline has passed, hooks of a stage in order |
| Entrypoint.StopsExactlyOnce | pkg/core/entrypoint/entrypoint.go:207-218 | exactly one Stop for each service that has one in runs reaching the wait, none in runs a hook aborted |
| Entrypoint.NoSendBlocks | pkg/core/entrypoint/entrypoint.go:166-177 | a service with an error to report can always send it, though Run reads at most one |
| Entrypoint.FailureArrives | pkg/core/entrypoint/entrypoint.go:169-195 | no reported failure is lost: its error is being sent, unhindered, or waits in the channel, or is the cause that Run has taken |
| Entrypoint.FailureIsReportedIff | pkg/core/entrypoint/entrypoint.go:170-173 | a Start that returned an error is reported, with that error, exactly when svcCtx is live at the check |
| Entrypoint.WaitsForTriggerIff | pkg/core/entrypoint/entrypoint.go:184-195 | Run waits exactly while nobody has called Shutdown, the parent lives, no signal has come, and every error reported is still being sent |
| Entrypoint.NoHookLeftOut | pkg/core/entrypoint/entrypoint.go:20-27 | every hook of a stage Run has left has run, up to the first failure; a failed PreStart or PostStart hook aborts |
| Entrypoint.OutsideIsHeard | pkg/core/entrypoint/entrypoint.go:133-195 | a Shutdown call, the parent's end, a caught signal and the deadline leave their mark for good |
| Entrypoint.GoroutinesGoOn | pkg/core/entrypoint/entrypoint.go:168-174 | no service or Stop goroutine is held up but by what it has called; signals come exactly if caught |
| Entrypoint.AllDoneIsClosed | pkg/core/entrypoint/entrypoint.go:220-231 | once every service and every Stop has ended, two steps let Run go on |
| Entrypoint.AnswerIsTaken | pkg/core/entrypoint/entrypoint.go:184-197 | the answer is the trigger that the select took, ready at that step |
| Entrypoint.AnswerIsSound | pkg/core/entrypoint/entrypoint.go:184-197 | nil only if Shutdown was called, a context error only if the parent ended, a signal only if one came, a service's error only if its Start returned it while svcCtx was live; all before svcCancel |
| Entrypoint.RunWaitsIff | pkg/core/entrypoint/entrypoint.go:184-231 | Run is without a step exactly when it has returned, waits for a trigger, or waits for services with time left |
| Entrypoint.RunTerminates | pkg/core/entrypoint/entrypoint.go:197-238 | Run takes boundedly many steps, and after the deadline can always take the next until it returns, even if no service ever does |
| Entrypoint.PostStartAfterStartsIff | pkg/core/entrypoint/entrypoint.go:87-92 | PostStart hooks run after all Starts were called exactly in configurations with no service or no such hook |
| Entrypoint.Entrypoint.RunHooks | pkg/core/entrypoint/entrypoint.go:20-27 | runs hooks in order up to the first failure; succeeds iff all do; where Run goes after a failure of each stage |
| Entrypoint.Entrypoint.AwaitTrigger | pkg/core/entrypoint/entrypoint.go:184-195 | takes a ready case if there is one and otherwise cannot go on |
| Entrypoint.Entrypoint.StopServices | pkg/core/entrypoint/entrypoint.go:207-223 | launches the Stop of every service that has one, and of no other, and starts the wait |
| Entrypoint.Entrypoint.RunToEnd | pkg/core/entrypoint/entrypoint.go:155-238 | Run in any world: fails with a hook's error iff a PreStart or PostStart hook fails, else returns a cause that preceded svcCancel with every Stop launched and everything returned or the deadline passed |
| StopProtocol.InvRun | pkg/http/server/server.go:291-363 | in every reachable state one goroutine at most is inside the once, connections are conserved, only a forced close cuts any, and each Stop is where its helper allows |
| StopProtocol.GracefulAtMostOnce | pkg/http/server/server.go:325-331 | graceful shutdown is called at most once, whoever asks |
| StopProtocol.NilIsDrained | pkg/http/server/server.go:336-363 | a nil Stop means the one graceful call has returned and no connection is left, nor gRPC handler running, for good; all connections have drained exactly when no other Stop's forced close had found one open |
| StopProtocol.NilAfterCut | pkg/http/server/server.go:336-363 | a run in which a Stop answers nil though its only connection was cut by another |
| StopProtocol.ErrorIsForced | pkg/http/server/server.go:356-361 | an error from Stop means its own context ended and it forced the connections closed |
| StopProtocol.ExpiredNeverNil | pkg/grpc/server/server.go:103-107 | a Stop whose context ended before it looked never answers nil |
| StopProtocol.StartErrsIff | pkg/http/server/server.go:291-319 | Start answers with an error exactly when it could not listen or, for HTTP, when Serve failed of itself; else its watcher has gone |
| StopProtocol.OutsideIsHeard | pkg/http/server/server.go:291-363 | the end of Start's context and of a Stop's leave their mark for good |
| StopProtocol.StuckOnlyForAReason | pkg/http/server/server.go:291-363 | no deadlock: if nothing can step, all is over, or the server serves undisturbed, or the graceful call waits for open connections or for gRPC handlers |
| StopProtocol.ForcedCloseFinishes | pkg/grpc/server/server.go:73-124 | after a forced close Start, the watcher, every helper and every Stop can step until all have gone, in boundedly many steps; only gRPC handlers yet to return can hold them up, and none is started any more |
| StopProtocol.HandlerHoldsStop | pkg/grpc/server/server.go:103-124 | a run in which a gRPC Stop whose context has ended, and that has cut every connection, cannot return for a handler still running |
| StopProtocol.Server.GracefulShutdown | pkg/http/server/server.go:325-331 | returns only when the one graceful call has, whoever made it |
| StopProtocol.Server.Stop | pkg/http/server/server.go:336-363 | nil, error or still waiting, with what each says of the connections; an error if its context had ended before; still waiting only without a step to take |
| Periodic.AtMostOneRuns | pkg/periodic/service.go:74-116 | without overlapping at most one tick's invocation runs; launched plus skipped is the number of ticks; with overlapping none is skipped |
| Periodic.SkippedIff | pkg/periodic/service.go:84-87 | a tick is skipped exactly when an invocation is running or has not yet cleared the flag |
| Periodic.TickLaunchesIff | pkg/periodic/service.go:74-116 | a tick launches one invocation exactly when overlapping is allowed or none holds the flag |
| Periodic.FirstCallIff | pkg/periodic/service.go:57-61 | fn is called once before the first tick with WithImmediateStart, and else not |
| Periodic.StartGoesOn | pkg/periodic/service.go:56-116 | Start waits only for a tick or ctx and, at the end, for the invocations |
| Periodic.NoneAfterReturn | pkg/periodic/service.go:74-116 | when Start has returned no invocation is in flight and none follows |
| Periodic.InvocationsFinish | pkg/periodic/service.go:76-77 | an invocation can step exactly until all have exited, and each step brings that nearer |
| Periodic.Service.Start | pkg/periodic/service.go:56-116 | takes exactly the ticks before ctx's end is seen, as steps of the protocol, calls fn first if asked to, and returns with none in flight |
| Retry.Do | pkg/internal/retry/retry.go:36-67 | calls connect until the first success, the last attempt or cancellation, and no further; which of them it answers; the waits between; the total wait |
| Retry.GrowIsHalfAgain | pkg/internal/retry/retry.go:63 | the factor is 1.5, truncated toward zero |
| Retry.WaitsInPlainTerms | pkg/internal/retry/retry.go:40-63 | the first wait is BackoffMin, each later one half as much again as the last but BackoffMax at most |
| Retry.BackoffClosedFormIff | pkg/internal/retry/retry.go:63 | capping every step equals capping once exactly when BackoffMax is at least -1 or the first growth is within it |
| Retry.BackoffGrows | pkg/internal/retry/retry.go:63 | from BackoffMin within the cap, waits never shrink and never pass the cap |
| Retry.TotalWait | pkg/internal/retry/retry.go:36-67 | all waits together are at most BackoffMin + (MaxAttempts - 2) * BackoffMax |
| HttpResponse.RecordedSizeIsSentIff | pkg/http/server/server.go:193-203 | the recorded size is the bytes the client was sent exactly when the request is not HEAD or nothing was accepted |
| HttpResponse.SizeIsThatOfGet | pkg/http/server/server.go:193-203 | for every handler and method the recorded size is what GET would be sent; HEAD is sent none |
| HttpResponse.HeadRecordsUnsent | pkg/http/server/server.go:193-203 | a HEAD request with five bytes recorded and none sent |
| HttpResponse.BodilessSendsNothing | pkg/http/server/server.go:193-203 | after a header for 204 or 304 nothing the handler writes is sent or recorded |
| HttpResponse.StatusAgreesIff | pkg/http/server/server.go:178-209 | the recorded status is the client's for exactly the handlers described by `Candid` |
| HttpResponse.ProblemIffNothingWritten | pkg/http/server/server.go:224-271 | the Problem is written exactly when the handler panics having written nothing; its 500 is the client's unless something was flushed; it is the whole body (sent unless the request is HEAD), complete exactly when the declared length and the connection leave room for it |
| HttpResponse.ProblemMayNotFit | pkg/http/server/server.go:264-271 | a panic after declaring too short a length: a 500 without a body |
| HttpResponse.GaugeCountsOpenRequests | pkg/http/server/server.go:224-261 | in every interleaving of requests the gauge of each pattern is the number in progress that were entered under it, though routing changes their patterns and handlers panic; each ended request has its sequential outcome |
| HttpResponse.Middleware.ServeHTTP | pkg/http/server/server.go:224-261 | one request among others at any stage: counted in and out under the pattern it came with on both exits, with the outcome the lemmas speak of |
| HttpResponse.Middleware.Drive | pkg/http/server/server.go:185-209 | the handler's calls on the writer, up to one that panics, keep the record and the gauge |
| HttpResponse.ResponseWriter.Write | pkg/http/server/server.go:193-203 | what is recorded is what the connection says it took |

## Left out

- Redis, pgx, kafka-go, net/http, gRPC and Prometheus themselves: maps with expiry, atomic statements,
  commit requests, a first-final-header-wins connection and counters stand for them.
- The JSON of an order is an opaque encoding that decodes to the order or not at all; time zones and
  monotonic clock readings lost in it are not modelled.
- A Redis SET applied after its client has timed out, and client retries.
- Entries left in Redis by an earlier process, and wrap-around of the 64-bit id counter.
- Postgres List, row scanning, failures of statements other than an insert conflict, and a query whose
  effect is kept though its answer is lost.
- StackSpec.StackRefinesBareStore: assumes that a delete takes effect whenever there is a client;
  StackSpec.StackRefinesIff says exactly what is needed.
- OrderStack: the two writes of a confirmation or of a sweep's row are one step. No locked reader can come
  between them, and Create's unlocked reads, made in either order, see every combination of old and new. A
  single field read while it is written (a string's pointer and length apart) is not modelled.
- Retry: durations are unbounded integers and the 1.5 factor is exact, as it is for waits up to 2^51 ns;
  beyond that floating-point rounding and 64-bit overflow are not modelled.
- HttpResponse: Hijack, the request duration metrics, and a connection that breaks after the server has
  accepted bytes into its buffer.
- WorkerPool: a pool of size 0, panicking tasks and a second Start; the hand-off of an unbuffered channel
  is in the step relation but not in the class.
- WorkerPool.Pool.Submit: gives the select its answer when a case is ready; waiting for one is in the step relation.
- KafkaConsumer: rebalances and redelivery within a session; connecting, TLS, SASL, lag polling, and a
  second Start. Of the consumer only the fetch loop is also code; handlers and commits are steps.
- The time stamp of an event.
- Entrypoint.Entrypoint.RunToEnd: a wait that the given world never ends is answered StillWaiting.
- StopProtocol.Server.Stop: likewise; Start and its watcher are in the step relation only.
- Hooks, tasks and handlers that never return: a step that waits for one is simply never taken.
- Liveness that needs a fair scheduler: termination is stated as a bound on steps together with the fact
  that some step can be taken.
- The other components (dbservice, redisservice, producer, health server, clients, dashboards, adapters,
  environment wiring, logging, probes): thin wrappers that would add only easy members.
