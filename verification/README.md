# A verified model of the mosec model server

mosec serves machine-learning models. A Rust server takes HTTP requests, turns each
into a *task* with a 32-bit id, and moves it along the stages of its route. Every stage
has one bounded queue and any number of connections to Python worker processes; a
connection gathers a batch, sends it over a Unix socket, reads the reply, updates the
tasks and passes their ids on. A finished or failed task wakes the handler that
submitted it. On the Python side a coordinator decodes a batch, calls the user's
`forward`, encodes the results and sends one reply; a worker may also stream events, or
serve many models from a cache with SIEVE eviction.

This project models those parts and proves what they promise together.

| file | what it is |
|---|---|
| `Basics.dfy`, `Tasks.dfy` | shared vocabulary; tasks, and the critical sections of the task table as functions |
| `Pipeline.dfy` | the server as a step system: one step per critical section, channel operation or socket operation |
| `PipelineInvariant.dfy`, `PipelineSteps.dfy` | what every step keeps, event by event |
| `PipelineTheorems.dfy`, `PipelineAnswers.dfy` | safety over all runs; which reply an answer is |
| `PipelineProgress.dfy`, `PipelineLeaks.dfy` | no wedge, draining, and who is lost; which entries nobody removes |
| `TaskManagers.dfy`, `Batching.dfy` | the task manager as an object with maps changed in place and the locks it takes; gathering a batch |
| `TaskManagerSteps.dfy` | every operation of that object as a run of the step system |
| `LockDiscipline.dfy` | which operation takes which lock, and why waiting is never cyclic |
| `SieveSpec.dfy`, `SieveMaps.dfy`, `SieveFifo.dfy` | SIEVE on values, its eviction in closed form; as a bounded map; its first-in-first-out degeneration |
| `SieveCaches.dfy` | the cache as a linked list, a map and a hand on the heap, refining `SieveSpec` |
| `MultiModelSpec.dfy`, `MultiModelBatches.dfy` | loads, unloads and the ledger; grouping, scheduling and results of a batch, on values |
| `MultiModelWorkers.dfy` | the multi-model worker with its loops and its cache on the heap |
| `Frames.dfy` | the wire format on values |
| `RustWire.dfy`, `PythonWire.dfy`, `PythonSocket.dfy`, `Wire.dfy` | both ends of the socket, and what one end writes the other reads |
| `Coordinators.dfy`, `CoordinatorLoops.dfy` | one reply per batch, on values and as the loop |
| `Handshakes.dfy` | streaming from inside `forward`: two threads, a queue and a semaphore |
| `StreamEvents.dfy` | streaming from end to end: from the events put for a batch to the streams of its tasks |
| `Serving.dfy` | the parts put together, end to end |

Imperative code is modelled imperatively (classes, arrays, loops with invariants) and
specified by functions on values; the properties are proved about those functions and
about runs of step systems, for any number of clients, routes, stages and connections.

Assumptions, stated as preconditions where they are used:

- a worker echoes the ids it received and treats the items of a batch one by one
  (`Pipeline.Answers`, `Coordinators.Pointwise`); every route has a stage;
- `is_closed` followed by `send` on a notifier is one step;
- ids wrap at 2^32 and a submission happens only while fewer than 2^32 submissions
  separate it from every id still mentioned (`Pipeline.Young`);
- a `recv` that does not time out returns at least one byte while bytes are still to come;
- user code raises neither the success status nor the stream-event status
  (`Coordinators.Honest`);
- for progress: the workers' order is acyclic over all routes, at some earlier time every
  worker had one live connection that no failed send or read has hit since (others may
  fail; that such a connection lives on is proved, `ServedThroughout`), workers answer, and
  no connection is held up by a full event channel (capacity 16, src/tasks.rs:366 and
  src/protocol.rs:185).

Findings, where the code does less than its surroundings suggest:

- An abnormal reply sends the `i`-th *surviving* stream the `i`-th payload of the reply.
  With arbitrary payloads this is right exactly when every surviving task whose stream can
  still get an event is at its old position (`PositionalErrorsExactly`). The coordinator sends one
  payload for all ids, which makes it right always (`UniformErrorsReachTheirStreams`,
  `OneReplyForEach`).
- The Python receiver reads the flag, the count, ids, states and lengths with single
  `recv` calls, on a socket with a timeout of 2.0 seconds (mosec/coordinator.py:50,
  mosec/protocol.py:84), and after a timeout it calls `receive` again
  (mosec/coordinator.py:265), from wherever the timeout left the stream. So a batch is
  received as sent, with what follows it left alone, if and only if calls time out only
  before its first byte and then no fixed-size field is cut and none of its calls times
  out (`BatchReceivedExactly`, `ServerToWorker`); payloads may be cut anywhere. A cut id
  makes the worker go on with one byte of it (`CutIdHappens`); a timeout after the flag
  makes it take the count for a flag and the id for a count (`StallHappens`).
- The server casts the count to 16 bits and lengths to 32: a reader gets the batch
  exactly if both fit (`ReaderGetsBatch`); a batch of 2^16 tasks is announced as empty
  (`OverlongHappens`).
- The acquire of the semaphore for a reply has a timeout and its result is ignored, but
  the release that follows is not. From any such timeout on, the first or a later one, the
  two threads can be on the socket at once if and only if an event is queued or in the
  hands of the streaming thread and that thread has not failed; and under the same
  condition an event of one batch can be sent under an id of a later one, if none was
  before (`GivingUpExactly`). Neither needs a further timeout, and `OverlapHappens` is such
  a run. For the first timeout this is to say that the permit waited for still exists,
  neither lost nor with a thread that failed (`FirstGivingUp`). A timeout when no event is
  queued or in sending does no harm (`HandshakeIsSafe`).
- A read that fails after a batch was sent gives up the batch: its waiting tasks are in no
  queue any more and can only time out or go away. No other step does that to anybody,
  whatever was lost before (`LosesExactly`), so that along every run exactly those wait in
  vain who were in such a batch and have stayed (`LostExactly`); in every configuration it
  can happen (`LossHappens`).
- A client that goes away leaves its table entry and notifier to the pipeline, which
  removes them when it comes to notify (src/tasks.rs:299-322). Exactly after a failed read
  nothing ever does: an entry and its notifier stand for ever if and only if the read
  failed on a batch with the entry of a client that had gone away, or lost a client that
  goes away later (`LeaksExactly`, `LeakHappens`); where the server has drained, no other
  entry of such a client is left (`DrainedLeaks`).

## Model

| member | source | states |
|---|---|---|
| Serving.EndToEnd | src/tasks.rs:206-222 | In every reachable state, a request about to be returned as Normal carries serialize(f_{n-1}(...f_0(deserialize(its own input)))) for its own route: no mixing between tasks under any interleaving of submits, batches, timeouts, failures and replies. |
| Serving.MadeIsComposition | mosec/coordinator.py:241-255 | The client codec is used at the first and last stage only and the internal codec between stages, so the payload after k stages encodes the composition of k workers, given that the next stage's internal decoding undoes this stage's encoding. |
| Serving.JourneyIsMade | src/tasks.rs:79-84 | The state bits a task carries at stage k of n make each worker process compute exactly the step the pipeline attributes to it. |
| Serving.ReplyIsAnswer | mosec/coordinator.py:278-309 | Whatever a worker process replies to a batch, success or any failure, is an answer that the pipeline's safety theorems allow for. |
| Serving.BatchThereAndBack | src/protocol.rs:95-164 | A batch sent by the server arrives in the worker process as exactly its ids, states and payloads if and only if calls time out only before its first byte and then no fixed-size field is cut and no call times out; and its reply is read back as the same ids with an allowed code and payloads, leaving neighbouring bytes alone. |
| PipelineTheorems.CollectGetsOwnAnswer | src/tasks.rs:206-222 | A woken handler always finds its table entry (UnknownError is unreachable), the entry is final, and a Normal one went through every stage of its own route starting from its own input. |
| PipelineAnswers.AnswerIsTheReplys | src/tasks.rs:342-362 | Along every run from the start, what a handler collects, failed or not, has the code of one reply of that run and the payload at the position its id had in that batch; since then its entry has not been stored anew. |
| PipelineTheorems.ClientKeepsInput | src/tasks.rs:269-297 | While a request is being served no step changes the input or route it was submitted with. |
| PipelineTheorems.WokenAtMostOnce | src/tasks.rs:299-322 | Along every run a submission is woken at most once, and not at all after it timed out or went away. |
| PipelineTheorems.OnePlace | src/tasks.rs:141-182 | In every reachable state an id sits in at most one place: one position of one queue or of one connection's hand. |
| PipelineTheorems.QueuedWhereDue | src/tasks.rs:141-182 | A live queued id has a stage below its route's length and is in exactly the queue of that stage's worker, also when routes share workers at different stages. |
| PipelineTheorems.SentFaithfully | src/tasks.rs:324-340 | A batch on the socket has between 1 and max(1, batch size) items, each with the payload and the state bits its live task has at this worker. |
| PipelineTheorems.FinalStays | src/tasks.rs:342-378 | Once a task is final, no step of any run changes its entry. |
| PipelineTheorems.FailedOnlyNotified | src/tasks.rs:342-378 | A task with an abnormal update is in no queue and no batch: the only thing left to happen to it is the notification of its client. |
| PipelineTheorems.DeletionComplete | src/tasks.rs:248-263 | When a deletion finishes, whatever raced with it, the id is in neither the table nor the notifiers, nobody waits on it, and no other id was touched. |
| PipelineTheorems.EveryExitCleans | src/tasks.rs:206-263 | A client that times out and a stream that is over can go through both halves of the removal, and then the id is in neither map. |
| PipelineTheorems.CollectCleans | src/tasks.rs:206-222 | After a collection the id is in neither map, and no other id was touched. |
| PipelineTheorems.GoneStaysGone | src/tasks.rs:624-653 | After that the id stays out of both maps along every run, until it is issued again. |
| PipelineTheorems.RejectionIsLocal | src/tasks.rs:291-295 | A submission refused because the queue is full was never in a queue or batch, and neither half of its removal touches another id. |
| PipelineTheorems.NewIdUnused | src/tasks.rs:276-288 | An issued id is in no map, queue, batch or running handler, so inserts never overwrite a live task. |
| PipelineTheorems.ReuseExactly | src/tasks.rs:276-280 | The next id is still mentioned somewhere if and only if some mentioned id was issued a positive multiple of 2^32 submissions ago. |
| PipelineTheorems.QueueConserved | src/protocol.rs:254-286 | However many connections share a queue, along every run what was there plus what was put in equals what was taken plus what is left, in order: each enqueued id is taken once. |
| PipelineTheorems.BatchInOrder | src/protocol.rs:254-286 | Until it closes, a connection's batch is what it was plus what that connection took, in queue order: nothing gathered before the timer is lost. |
| PipelineTheorems.BatchEndsInOrder | src/protocol.rs:94-164 | After a failed send and after a normal reply all ids of the batch are sent on, in the order of the batch; after any other reply exactly the live ones are notified, in that order. |
| PipelineInvariant.InitInv | src/tasks.rs:106-117 | The server starts in a state that satisfies the invariant. |
| PipelineSteps.StepKeeps | src/tasks.rs:561-709 | Every one of the nineteen kinds of step (issue, list, store, enqueue or refuse, time out, cancel, finish, the two halves of a deletion, collect, accept, receive, close, filter, both outcomes of a send, failed read, reply, and each item of a connection's work list) keeps: ids fresh, every id in one place and due there, entries on their own journey, waiters reachable by a notifier or already being woken. |
| PipelineSteps.RunKeeps | src/tasks.rs:561-709 | So does every run, with any number of clients and connections. |
| PipelineProgress.ReachableMoves | src/protocol.rs:73-164 | No wedge: take any reachable state in which every worker has a live connection, whatever failed before, and any run from there that fails no send or read on those connections. Where it leads, if an id is queued or held, some connection can step; the order of workers is acyclic. |
| PipelineProgress.LiveExactly | src/protocol.rs:73-164 | A connection is live after a step if and only if it was live before and the step is not a failed send or read of its own; so answering a batch never ends it. |
| PipelineProgress.ServedThroughout | src/protocol.rs:73-164 | So along every run a worker with a live connection that no failure hits stays served, whatever the other connections do. |
| PipelineProgress.GathersAgain | src/protocol.rs:73-92 | A connection that is done with its batch, or finds nothing left of it, gathers again from nothing; one whose send failed ends; a new one starts by gathering. |
| PipelineProgress.InternalStepShrinks | src/protocol.rs:73-164 | Every step of a worker or connection strictly lowers the remaining work of the live tasks. |
| PipelineProgress.GivingUpShrinks | src/tasks.rs:206-222 | Timing out, collecting and going away never add work. |
| PipelineProgress.LosesExactly | src/protocol.rs:84-164 | Client by client and in every state, whoever is lost already: a step leaves a client waiting in vain if and only if it is a read that fails on the connection with its task in the batch (failed sends, full queues, expired and abnormal tasks lose nobody); and a lost client stays so until it times out or goes away. |
| PipelineProgress.LostExactly | src/protocol.rs:73-164 | Along every run, a client waits for something that is in no queue and no hand if and only if a read failed on a connection that had its task in the batch and the client has stayed since. |
| PipelineProgress.RunLosesNobody | src/protocol.rs:73-164 | Along every run without a failed read nobody is lost who was not before. |
| PipelineProgress.EveryStepShrinks | src/protocol.rs:73-164 | Every step but a submission and a new connection uses something up: steps of connections and workers, failing sends and reads, handlers under way, timeouts, cancellations and deletions. |
| PipelineProgress.Drains | src/tasks.rs:184-204 | From every reachable state, with submissions stopped, every run is bounded by what is there and what each new connection brings, whatever clients, workers and sockets do. Where connections can go no further, and every worker had a live one at the start of the run that no failure hit, or has one at its end, nothing is queued or held, and exactly those clients still wait whose task was in the batch of a failed read. |
| PipelineProgress.LossHappens | src/protocol.rs:111-117 | In every configuration a run with one request reaches a state in which a failed read leaves that request waiting in vain. |
| PipelineLeaks.LeavesExactly | src/tasks.rs:299-322 | Step by step: the entry of a client that went away comes to stand in no queue and no hand if and only if a read fails on a connection that has it in its batch, or a client that is lost already goes away; and once it stands there no step removes it. |
| PipelineLeaks.LeaksExactly | src/protocol.rs:111-117 | Along every run an entry stands without a client, in no queue and no hand, if and only if one of these two happened to it; then its notifier stands as well. |
| PipelineLeaks.DrainedLeaks | src/tasks.rs:184-204 | Where a server without new submissions has come to rest, clients that went away have left exactly those entries. |
| PipelineLeaks.LeakHappens | src/protocol.rs:111-117 | In every configuration a run with one request leaks its entry and its notifier. |
| LockDiscipline.WaitingIsNeverCyclic | src/tasks.rs:561-622 | Any number of threads running any such operations in any order: no thread holds two locks, no lock has two holders, and a thread waiting for a lock waits for one that can release it at once. |
| LockDiscipline.FlatSubmit | src/tasks.rs:206-297 | Submitting, waiting for a stream and deleting take one lock at a time, for every outcome; that these are the locks they take is in the contracts of `TaskManagers`, where a lock is taken only by code that holds none. |
| LockDiscipline.FlatReply | src/tasks.rs:159-182 | So do sending on, filtering and updating, for every outcome of every task of the batch. |
| LockDiscipline.LocksInOrder | src/tasks.rs:248-322 | Which locks submitting, collecting, deleting, notifying and sending take, lock by lock, in the order they are taken and given back. |
| TaskManagers.TaskManager.AddNewTask | src/tasks.rs:269-297 | Either the task is stored, listed and queued at its first worker, or the queue was full and only the new id's entries are gone; the id wraps; the locks are taken one at a time in the order counter, notifiers, table, and then those of the deletion. |
| TaskManagers.TaskManager.DeleteTask | src/tasks.rs:248-263 | Returns the entry and removes id from table and notifiers, and from the streams if asked to, each under its own lock. |
| TaskManagers.TaskManager.AwaitTask | src/tasks.rs:206-222 | After the wait: an expired one deletes both entries and is a timeout, any other takes the entry out and returns it, or finds none. |
| TaskManagers.TaskManager.NotifyTaskDone | src/tasks.rs:299-322 | Takes the notifier once; an open receiver is signalled, a closed one costs the table entry, whose lock is taken after that of the notifiers is released. |
| TaskManagers.TaskManager.SendTask | src/tasks.rs:159-182 | Queues the id at the worker of its stage, or waits without a lock and changes nothing while that queue is full; notifies when it is past the last stage, does nothing without an entry. |
| TaskManagers.TaskManager.GetMultiTasksData | src/tasks.rs:324-340 | Keeps exactly the live ids in order, with their payloads and state bits. |
| TaskManagers.TaskManager.UpdateMultiTasks | src/tasks.rs:342-378 | The table is the old one updated by the reply; on an abnormal code the live ids lose their notifiers, open receivers are signalled, entries of closed ones go, and streams get their events by position, waiting for room in a full channel unless its receiver leaves meanwhile; no lock is held while an event is sent or a notifier taken, and every map is reached under its own lock. |
| Tasks.UpdateAllFrame | src/tasks.rs:342-362 | A reply gives each entry of its batch the reply's code, the payload at the id's own position, whatever the code, the next stage and the old route, and changes no other entry. |
| Tasks.PresentInOrder | src/tasks.rs:324-340 | The live ids of a batch are those with an entry, all of them and in the order of the batch. |
| TaskManagers.UniformErrorsReachTheirStreams | src/tasks.rs:364-374 | When all payloads of an error reply are equal, every stream gets the payload the reply carries for its own task, whichever tasks expired. |
| TaskManagers.PositionalErrorsExactly | src/tasks.rs:364-374 | With arbitrary payloads delivery by position is right if and only if every live task whose stream can still get an event is at its own position of the batch. |
| Batching.GetBatch | src/protocol.rs:270-286 | A batch is the front of its queue in order, of size 1 to max(1, batch size), and what it leaves is the rest of the queue. |
| Batching.InnerBatch | src/protocol.rs:254-268 | Gathers up to the limit or until the timer fires; what was gathered stays. |
| TaskManagerSteps.AddNewTask | src/tasks.rs:269-297 | Run on an object that shows a state of the server, adding a task is the run issue, list, store, enqueue, followed by the two halves of a deletion when the queue is full, and shows the state that run leads to. |
| TaskManagerSteps.AwaitTask | src/tasks.rs:206-222 | So is what follows a wait: the collecting step, or the two halves of a deletion; what it returns is what the step system collects. |
| TaskManagerSteps.GetMultiTasksData | src/tasks.rs:324-340 | So is filtering a batch, and what it returns is what the connection has ready to send. |
| TaskManagerSteps.UpdateTable | src/tasks.rs:342-362 | So is a reply under the table lock, and the ids it hands on are those the connection lines up. |
| TaskManagerSteps.SendTask | src/tasks.rs:159-182 | So is sending a task on: steps of the connection that holds it, up to its next item, or up to where it is blocked exactly if the call waits. |
| TaskManagerSteps.NotifyTaskDone | src/tasks.rs:299-322 | So is a notification: one to three steps, which wake the client or clean up after it. |
| TaskManagerSteps.GetBatch | src/protocol.rs:270-286 | So is gathering a batch: as many receive steps as it has ids, and the step that closes it. |
| SieveCaches.NewCache | mosec/cache.py:70-78 | Construction succeeds if and only if the capacity is at least one, and gives the empty cache. |
| SieveCaches.SieveCache.Len | mosec/cache.py:85-87 | The size of the map is the number of entries of the list. |
| SieveCaches.SieveCache.Contains | mosec/cache.py:89-91 | The map knows a key exactly if the list has an entry for it. |
| SieveCaches.SieveCache.Get | mosec/cache.py:93-102 | The heap structure stays well formed and refines the value model's Get. |
| SieveCaches.SieveCache.Put | mosec/cache.py:104-130 | Same for Put: update in place, or evict when full and push at the head; new nodes are fresh. |
| SieveCaches.SieveCache.Remove | mosec/cache.py:132-142 | Same for Remove, also of the node the hand is on. |
| SieveCaches.SieveCache.Evict | mosec/cache.py:144-152 | Same for a manual eviction, also of an empty cache. |
| SieveCaches.SieveCache.EvictOne | mosec/cache.py:154-184 | The nested walk terminates after inspecting at most len + 1 nodes and refines the value model's eviction: victim, cleared bits, new hand. |
| SieveCaches.SieveCache.PushHead | mosec/cache.py:186-194 | The new node is the head, `prev` and `next` stay inverse, and the hand stays on its node. |
| SieveCaches.SieveCache.Unlink | mosec/cache.py:196-212 | The list closes over the removed node, head and tail stay its ends, and a hand on the node moves to its newer neighbour. |
| SieveCaches.SieveCache.Keys | mosec/cache.py:214-221 | Walking the list yields the keys from newest to oldest. |
| SieveCaches.SieveCache.Items | mosec/cache.py:223-230 | Walking the list yields the pairs from newest to oldest. |
| SieveCaches.SieveCache.ViewValid | mosec/cache.py:58-78 | A well-formed heap cache has distinct keys, at most its capacity of entries, and its hand on one of them or nowhere. |
| SieveSpec.VictimExactly | mosec/cache.py:154-184 | The walk starts at the hand, or at the tail when the hand is nowhere, goes towards the head and then on from the tail: the victim is v if and only if v is the first unvisited entry it meets, or where it started when all are visited. |
| SieveSpec.HandDecides | mosec/cache.py:168-184 | An unvisited entry under the hand is the one evicted: an eviction goes on where the last one stopped. |
| SieveSpec.EvictEffect | mosec/cache.py:154-184 | A visited entry is evicted only if all are visited; survivors keep key, value and order, and their bit exactly if the walk from the hand (or the tail) did not pass over them; the hand is on the victim's newer neighbour. |
| SieveSpec.HitEffect | mosec/cache.py:93-119 | A hit and an update mark their own entry and set at most its value; order, other bits and the hand stay. |
| SieveSpec.MissEffect | mosec/cache.py:104-130 | A miss changes nothing; an insertion puts an unmarked entry at the head, after an eviction when the cache is full, and the hand stays on its key. |
| SieveSpec.RemoveEffect | mosec/cache.py:132-142 | A removal takes out its entry and leaves the others as they are; the hand stays on its key, or moves to the newer neighbour of its entry, or nowhere when there is none. |
| SieveSpec.OperationsKeepValid | mosec/cache.py:93-212 | Every operation keeps keys distinct, the size within capacity and the hand inside. |
| SieveMaps.ActsAsBoundedMap | mosec/cache.py:93-142 | A lookup finds exactly what is held; a put sets its key and gives up at most one other, only when the cache is full and the key is new, and returns it; a removal takes out its key alone. |
| SieveFifo.SieveIsFifo | mosec/cache.py:104-212 | In every run without a hit or update, also with removals and manual evictions, SIEVE answers exactly like a bounded first-in-first-out queue. |
| SieveFifo.HitBreaksFifo | mosec/cache.py:93-102 | One hit is enough to change the order. |
| MultiModelWorkers.MultiModelWorker.Forward | mosec/worker.py:349-384 | With batching the data is a list and so is the answer, without it both are one item. A batch with an unnamed item fails before it touches anything; otherwise its groups run hits first, the cache and the ledger follow the value model, and on success every item has its own result at its own index. |
| MultiModelWorkers.MultiModelWorker.ForwardItems | mosec/worker.py:357-382 | The same for a list of items, with what it adds to the ledger. |
| MultiModelWorkers.MultiModelWorker.GroupItems | mosec/worker.py:357-360 | Fails exactly if some item has no name; otherwise one group per name, in order of first appearance, with positions and items in order. |
| MultiModelWorkers.MultiModelWorker.SplitGroups | mosec/worker.py:362-370 | Hits are exactly the names in the cache and misses the others, both in order. |
| MultiModelWorkers.MultiModelWorker.Scatter | mosec/worker.py:381-382 | Each result is written once, at the still empty position of its item, and nothing else changes. |
| MultiModelWorkers.MultiModelWorker.EnsureModel | mosec/worker.py:386-411 | A hit marks and returns the model; a miss checks availability before evicting, unloads what it evicts, loads and inserts; each failure leaves what the value model says. |
| MultiModelWorkers.MultiModelWorker.DispatchBalances | mosec/worker.py:386-411 | Whatever happens in a batch, the ledger of loads and unloads still agrees with the cache. |
| MultiModelBatches.MinimalLoading | mosec/worker.py:362-384 | A successful batch loads each distinct name that was not resident exactly once and no other, and no order of running the same groups that succeeds loads fewer. |
| MultiModelBatches.GroupAndScatter | mosec/worker.py:354-384 | If running a group is pointwise, item i gets the result of its own input under its own model, whatever the cache, the group sizes and the split. |
| MultiModelBatches.ServedWith | mosec/worker.py:373-380 | Every group runs with the model that was resident at entry or else a fresh load of its own name. |
| MultiModelBatches.GroupIndex | mosec/worker.py:357-360 | Item i is in the group of its name at the rank of its position. |
| MultiModelBatches.NamesInOrder | mosec/worker.py:357-360 | The groups stand in the order in which their names first appear in the batch. |
| MultiModelBatches.SplitInOrder | mosec/worker.py:362-370 | The held names and the missing names are together all names, each list in the order the names stand in. |
| MultiModelBatches.FirstFailure | mosec/worker.py:372-384 | A batch stops at the first group that fails and ends as that group did: by making its model available, by its run, or by a wrong number of results. |
| MultiModelBatches.RunBalances | mosec/worker.py:372-384 | Every batch, failing or not, keeps the ledger balanced and the capacity unchanged. |
| MultiModelSpec.AlternatesPerName | mosec/worker.py:386-411 | For each name the calls are load, unload, load, ...; each unload gets the model of the load before it; the name is resident exactly if its last call is a load. |
| MultiModelSpec.EnsureBalances | mosec/worker.py:386-411 | Making a model available keeps: calls alternate, and the cache holds exactly what was loaded and not unloaded. |
| MultiModelSpec.EnsureOutcomes | mosec/worker.py:386-411 | Hook by hook: a held model is looked up; an unavailable name is refused before anything happens; a full cache evicts one entry and has it unloaded, and if that fails nothing is loaded; then the load ends in its failure or in the insertion. |
| MultiModelSpec.RoomForOne | mosec/worker.py:398-410 | After the eviction the insertion never evicts again, so no model leaves the cache without `unload_model`. |
| MultiModelSpec.EnsureHeld | mosec/worker.py:389-396 | A resident model is returned without any load; an unavailable name changes nothing. |
| MultiModelSpec.EnsureMissing | mosec/worker.py:393-411 | A miss loads its name once if it succeeds, and every other resident model stays as it is or is evicted. |
| Frames.RoundTrip | src/protocol.rs:288-308 | For every message within its field sizes, decoding encode(m) ++ rest gives m and leaves rest. |
| Frames.Canonical | src/protocol.rs:196-252 | Whatever bytes decode to m begin with exactly the encoding of m. |
| Frames.StreamRoundTrip | src/protocol.rs:120-140 | A stream of frames, such as events followed by a reply, decodes to exactly those frames. |
| Frames.OneReading | src/protocol.rs:120-140 | Bytes read as a stream of frames if and only if they are its encoding: there is one way to write and one way to take apart. |
| Frames.ItemLayout | src/protocol.rs:299-306 | Byte by byte: four bytes of id, two of state and four of length, the most significant first, and then the payload. |
| Frames.MessageLayout | src/protocol.rs:294-298 | Two bytes of flag and two of count, the most significant first, and then the items one after the other. |
| RustWire.SendMessage | src/protocol.rs:288-308 | The bytes written are the header and the items with the 16-bit and 32-bit casts applied. |
| RustWire.ReadMessage | src/protocol.rs:196-252 | Succeeds if and only if a whole message is there; then it appends exactly its columns, yields its code and leaves what follows. |
| RustWire.CodeExactly | src/protocol.rs:211-223 | Which flag bits make which code, and which bit decides when several are set. |
| RustWire.ReaderGetsBatch | src/protocol.rs:296-303 | A reader gets the batch that was sent if and only if its count is below 2^16 and every length below 2^32. |
| PythonWire.RecvAllExact | mosec/protocol.py:166-174 | A payload that is there is rebuilt for every split into packets, and exactly its bytes are consumed, if and only if no call for it times out. |
| PythonWire.ReceivedExactly | mosec/protocol.py:88-106 | One call receives a message as sent, with the rest left alone, if and only if no fixed-size field is cut and no call times out. |
| PythonWire.TimeoutTakes | mosec/protocol.py:88-106 | A timeout before the first byte takes nothing; a later one has taken bytes of the message for good. |
| PythonWire.ShortFields | mosec/protocol.py:97-104 | A length that comes short raises before the payload is asked for; a short state raises only after the payload has been taken, so that the stream stands behind it; a short id is kept as it came. |
| PythonWire.ReceiveEnds | mosec/protocol.py:88-106 | A call of `receive` times out only if some `recv` does, and goes on for ever only when the stream has ended inside a payload. |
| PythonWire.BatchReceivedExactly | mosec/coordinator.py:257-268 | With a new try after every timeout a message is received as sent if and only if calls time out only before its first byte and then it is received whole. |
| PythonSocket.Socket.ReceiveAll | mosec/protocol.py:166-174 | The buffer loop returns the next bytes of the stream whatever the packets, or times out, or goes on for ever after the peer has cut the payload off. |
| PythonSocket.Socket.Receive | mosec/protocol.py:88-123 | Returns the columns of the batch, or raises exactly when a count, a length or a state came short, or times out where a call does. |
| PythonSocket.Socket.Send | mosec/protocol.py:125-145 | Sends the whole reply if lengths agree and every number fits its field, and otherwise sends nothing. |
| PythonSocket.PackedIsFrame | mosec/protocol.py:133-145 | With four-byte ids the reply is the frame of its message. |
| Wire.ServerToWorker | mosec/protocol.py:88-106 | With a new try after every timeout the worker receives the batch the server sent, ids as their four bytes, and nothing else, if and only if calls time out only before its first byte and then no fixed-size field is cut and no call times out. |
| Wire.CutIdHappens | mosec/protocol.py:97-100 | An id that comes in two parts is taken for a shorter one, and three bytes of the batch are left over. |
| Wire.StallHappens | mosec/coordinator.py:257-268 | After a timeout behind the flag the next try reads the count as a flag and the id as a count. |
| Wire.OverlongHappens | src/protocol.rs:296-303 | A batch of 2^16 tasks reads as an empty one followed by unread bytes. |
| Wire.WorkerToServer | src/protocol.rs:226-242 | The server reads the worker's reply with the ids, states and payloads that were sent. |
| Wire.FlagsAgree | src/protocol.rs:211-223 | Every status flag maps to the code of the same name, and different flags to different codes. |
| Coordinators.OneReplyForEach | mosec/coordinator.py:278-309 | For every outcome there are as many payloads as tasks; a reply that is not a success carries one identical payload. The reply is a success with payloads out if and only if: every payload decodes with the codec its state names; `forward` of the list of inputs, or without batching `forward` of the first input alone, succeeds with as many results; and these encode to out. |
| Coordinators.FailuresInOrder | mosec/coordinator.py:278-305 | What is reported: the first undecodable payload, with its own status and text, for the whole batch; then a failing `forward`, of the list or of the first input alone; then a wrong number of results, as an internal error; then the first result that cannot be encoded. |
| Coordinators.EachItsOwn | mosec/coordinator.py:278-297 | A success gives each task what the worker makes of that task's own payload and state bits, so batching changes nothing. |
| CoordinatorLoops.Coordinator.Turn | mosec/coordinator.py:257-316 | A batch that arrives is answered by exactly one reply with its ids and states in order; a timeout starts the next turn; a field that came short or a reply that cannot be packed sends nothing and ends the loop. |
| CoordinatorLoops.Coordinator.Process | mosec/coordinator.py:278-305 | The try block with its failure paths computes the status and payloads of the value model. |
| CoordinatorLoops.Coordinator.Forward | mosec/coordinator.py:281-288 | A worker with batching is called on the list of all inputs; one without on the first input alone, whose result becomes a list of one; an empty batch is an internal error there. |
| CoordinatorLoops.RepliesAlways | mosec/coordinator.py:307-311 | The reply can be packed if and only if every payload is shorter than 2^32 bytes. |
| Handshakes.HandshakeIsSafe | mosec/coordinator.py:185-198 | Over all runs whose acquires time out only when no event is queued or in sending: writes never overlap, no event goes out under an id of another batch, the wire is a prefix of the batches in order, each its own events in the order they were put and then its reply, and all of it when the worker waits. |
| Handshakes.PermitsCounted | mosec/coordinator.py:307-314 | Over all runs: permits that are free, with an event that is queued or in sending, with the worker or with the reply, those lost and that of a failed thread are one more than the acquires of a reply that timed out. |
| Handshakes.StepKeeps | mosec/coordinator.py:307-314 | Every step, also a timeout that no event can meet, keeps the two threads apart on the socket and the wire faithful to the batches. |
| Handshakes.ReplyIsNotStuck | mosec/coordinator.py:307-309 | Over all runs: a waiting reply is held up for at most four steps of the streaming thread per permit; where that thread can go no further the reply can have its permit if and only if not every permit there ever was is lost, or with the failed thread and the events it left. |
| Handshakes.EventsNameTheirBatch | mosec/coordinator.py:188-194 | Over all such runs the frame at each event's position of the wire is the event that its own batch put at that place, under the id ids[index] of that batch when 0 <= index, ids[|ids| + index] when index is negative; and its position counts exactly the earlier events in range. |
| Handshakes.TurnExactly | mosec/coordinator.py:185-198 | What a batch amounts to on the wire: one frame for each event with -|ids| <= index < |ids|, under the id the index names, in order, nothing for any other event, and then the reply with its ids and payloads. |
| Handshakes.TurnsAreTold | mosec/worker.py:215-228 | The batches, their events and their replies are those of the run: events are acquired for and put while their batch is the last one received, and the answer is what `forward` last ended with. |
| Handshakes.LossesExactly | mosec/coordinator.py:185-194 | Over all runs: a permit is lost by each interruption between acquiring and queuing an event, and the streaming thread has failed if and only if it came upon an event whose index names no task of the batch in work. |
| Handshakes.GivingUpExactly | mosec/coordinator.py:307-314 | Over all runs, whatever timed out before: when the acquire of the reply times out, then with no further timeout the threads can be on the socket at once if and only if an event is queued or in the streaming thread's hands and that thread has not failed; an event can come to be on the wire under an id of a batch that did not put it if and only if that holds or one is already. |
| Handshakes.FirstGivingUp | mosec/coordinator.py:307-314 | For the first such timeout the condition of both is that the permit still exists: not lost, and the streaming thread has not failed. |
| Handshakes.OverlapHappens | mosec/worker.py:215-228 | There is a run in which that happens. |
| StreamEvents.ReadReply | src/protocol.rs:111-140 | The loop hands each frame of events to the streams of its tasks as it is read, ends with the first other frame and reads nothing beyond it, or ends with a failed read; it takes one lock at a time. |
| StreamEvents.RelayedExactly | src/protocol.rs:128-141 | After any frames of events the loop ends with the reply that follows them, and by then every stream has been sent exactly the events the frames carry for its task, in order: all of them while it is open, a beginning once its receiver left. |
| StreamEvents.StreamsGetTheirEvents | mosec/coordinator.py:185-198 | End to end, for every batch of every run whose acquires time out only harmlessly: its frames stand together on the wire, and a server that reads the bytes sent for its events and then a reply has by then sent each stream exactly the texts put with an index, from either end of the ids, at which its own id stands, in the order they were put. |

## Left out

- HTTP handlers, compression, status texts, Prometheus metrics and the `remaining_task` gauge.
- The stream-event loop of a connection inside the step system, where events are consumed before the reply; it is `StreamEvents` by itself, over a stream map that only the loop changes. Nothing is claimed about events of a task whose stream is not registered yet: the sender is registered after the id is queued.
- TaskManagers.TaskManager.UpdateMultiTasks: which receivers leave while they are waited for is a parameter; what receivers read at other times is not in it.
- A read failure inside the stream-event loop, which breaks only the inner loop: it is treated as the connection dying.
- Clearing entries of handlers cancelled after their wake-up; a cancelled client is one whose receiver is closed before it is notified.
- Clocks: every timeout is a step that may happen at any time. Python's SIGALRM appears only as an error that `forward` may end with, or as an interruption between acquiring the semaphore and queuing an event.
- Methods of `TaskManagers.TaskManager` run uninterrupted; their interleavings at lock boundaries are the step system's, of which `TaskManagerSteps` shows each of them to be a run.
- Serving.EndToEnd: the batches of the step system are values; that they survive the wire is `BatchThereAndBack`, one batch at a time, and the two are not one combined transition system.
- MultiModelBatches.MinimalLoading: compares against other orders of running whole groups, not against schedules that split a group.
- User hooks (`forward`, codecs, `load_model`, `forward_model`, `has_model`) are functions of their arguments; a hook whose answer changes over time is not covered.
- PythonSocket.Socket.Receive: a payload that the peer cuts off is asked for without end; the model ends there with `Starved`, and `Turn` with `Hung`.
- CoordinatorLoops.Coordinator.Turn: the semaphore around its send is the subject of `Handshakes`.
- SieveCaches.SieveCache.Unlink: moves the hand before the pointer surgery instead of in the middle of it; nothing in between reads the hand.
- Serialized contents (JSON, pickle), logging, warnings, warm-up, dry run, process supervision, argument parsing, OpenAPI generation and the mixins.
