# Compute-graph task creator and bounded turn history, in Dafny

This project models two parts of the indexify repository.

**The task creator** of the compute-graph scheduler (`server-next/task_scheduler/src/task_creator.rs`).
It handles one event at a time and returns a decision record (`TaskCreationResult`). The record holds:
- the tasks to create;
- the outputs to park on the invocation's reduction queue;
- the queue entries that were consumed;
- whether the invocation has finished.

There are two events:
- Invoking a graph creates one task on the graph's start function. That task reads the invocation id as its input.
- Finishing a task walks a ladder of rules, and the first rule that applies decides:
  1. failure;
  2. router outputs, which override the static edges;
  3. a reducer draining the head of the reduction queue;
  4. a terminal leaf;
  5. the static fan-out over (edge, output) pairs, which parks later outputs meant for a reducer.

Every store read becomes a parameter that holds the read's result (`Result<…, Error>`):
- the graph lookup;
- the invocation context;
- the finished task's outputs;
- the head of the reduction queue.

The model takes each read at the point where the source makes it. A read error therefore matters only if that read is reached.

**The bounded conversation history** `LRUCache` (`src/memory/lru.rs`) is a class with three fields: the turns in insertion order, a map from each turn to itself, and a capacity. When the history is full, `add_turn` evicts the oldest turn and then appends the new one. `retrieve_history` returns the turns ranked by a similarity score. That score is the constant 0, so a stable sort leaves the turns in insertion order.

Files:
- `wrappers.dfy`: `Option` and `Result`.
- `data_model.dfy`: graphs, nodes, tasks, outputs, queue entries and the decision record. `create_task`, `reducer_task`, `ReduceTask::key` and `Output::key` live in the `data_model` crate, which is not part of this model. Here they are functions that record exactly the arguments they get: node name, input key, output id.
- `task_creator.dfy`:
  - `HandleInvokeComputeGraph` is straight-line code, so it is a function.
  - `HandleTaskFinished` is a method. It calls three loop methods, `CollectRouterEdges`, `CreateRouterTasks` and `FanOutTasks`, and is proved equal to the specification function `TaskFinishedDecision`.
  - The fan-out has a reference definition, `FanOut`/`Items`. It does not track state: a pair is parked exactly when its target is a reducer and it is not the first pair visited. The loop itself tests `new_tasks.len() > 0`. Its invariant `|newTasks| > 0 <==> |visited| > 0` ties that test to the reference definition.
- `task_creator_properties.dfy`: lemmas about each rung of the ladder, the visiting order, the deferral rule and completion.
- `scenarios.dfy`: worked examples on small graphs.
- `lru.dfy`: the `LruCache` class. Its state changes are also written as functions on values (`HistoryAfterAdd`, `CacheAfterAdd`), and the lemmas are about those functions.

Three behaviours of the source are worth stating on their own:
- **Reducer deferral is per event.** The deferral test at `task_creator.rs:179` is `compute_node.reducer() && new_tasks.len() > 0`, and `new_tasks` only holds the tasks created earlier in the same event. Two branches that each finish with one output for the reducer R therefore create two tasks on R (`Scenarios.ScenarioTwoBranchesIntoReducer`). A fan-out whose first pair targets some other node parks every later pair meant for a reducer, so no reducer task is created in that event.
- **A node without declared edges while work is outstanding.** The source reaches `edges.unwrap()` at `task_creator.rs:172` and panics. The model returns `Err(MissingEdges(fn))` for this case.
- **The queue head is not filtered by reducer.** The read at `task_creator.rs:124-131` takes the head of the queue of (namespace, graph, invocation id), and lines 132-139 run it on the finishing reducer without comparing the entry's function name with that reducer's.

## Model

| member | source | states |
|---|---|---|
| `TaskCreator.HandleInvokeComputeGraph` | server-next/task_scheduler/src/task_creator.rs:10-49 | A store error propagates. A missing graph gives an empty, unfinished record. A present graph gives exactly one task, on the start function, reading the invocation id. Both reduction lists are empty and the invocation is not finished. The record carries the event's namespace, graph and invocation id. |
| `TaskCreator.FirstUnknown` | server-next/task_scheduler/src/task_creator.rs:97-101 | Returns the position of the first name that has no node in the graph, or the length of the list when all names are known. Every name before that position is known. |
| `TaskCreator.CollectRouterEdges` | server-next/task_scheduler/src/task_creator.rs:88-95 | The nested loop gathers exactly `RouterEdges(outputs)`. |
| `TaskCreator.CreateRouterTasks` | server-next/task_scheduler/src/task_creator.rs:96-109 | The loop gives exactly `RouterTasks`: one task per router edge, in order, on the router's own input, or a not-found error for the first unknown edge. |
| `TaskCreator.FanOutTasks` | server-next/task_scheduler/src/task_creator.rs:172-198 | The nested edges/outputs loop, with its `new_tasks.len() > 0` test, gives exactly the reference definition `FanOut`. |
| `TaskCreator.TaskFinishedDecision` | server-next/task_scheduler/src/task_creator.rs:51-208 | Every successful record carries the finished task's namespace, graph name and invocation id. |
| `TaskCreator.HandleTaskFinished` | server-next/task_scheduler/src/task_creator.rs:51-208 | The method's result equals the decision ladder `TaskFinishedDecision` for the same task, graph and store reads. |
| `TaskCreatorProperties.FailedTaskDecision` | server-next/task_scheduler/src/task_creator.rs:62-82 | A failed task yields no tasks, no new and no processed reduction entries. The invocation is finished if and only if nothing is outstanding. |
| `TaskCreatorProperties.ReadFailuresAbort` | server-next/task_scheduler/src/task_creator.rs:56-131 | A failed store read aborts the event with that read's error wherever the read is reached. The invocation-context read (lines 56-60) is reached for every task. The outputs read (lines 85-87) is reached for every task that did not fail. The queue-head read (lines 124-131) is reached only for a compute reducer without router edges, and its error is wrapped in `NextReductionTaskError`. |
| `TaskCreatorProperties.RouterEdgesAppend` | server-next/task_scheduler/src/task_creator.rs:88-95 | The router edges of concatenated outputs are the concatenation of their router edges: output order first, then each payload's edge order. |
| `TaskCreatorProperties.RouterEdgesEmptyIff` | server-next/task_scheduler/src/task_creator.rs:88-96 | The router rung applies if and only if some output is a router payload with at least one edge. |
| `TaskCreatorProperties.RouterDecision` | server-next/task_scheduler/src/task_creator.rs:96-119 | With router edges present: the decision fails if and only if some router edge is unknown, and the error names the first unknown edge. Otherwise task k runs router edge k on the finished task's input key, nothing is queued or processed, and the invocation is not finished. |
| `TaskCreatorProperties.RouterIgnoresEdgesAndQueue` | server-next/task_scheduler/src/task_creator.rs:96-119 | With router edges present, two graphs with the same nodes but different static edges give the same decision. Any two reduction queue reads also give the same decision. |
| `TaskCreatorProperties.ReducerContinuation` | server-next/task_scheduler/src/task_creator.rs:121-150 | A finished reducer task with no router output and a queue head creates exactly one task. The task runs on the same reducer node and reads the head's output key. The head's key is processed and nothing else changes. |
| `TaskCreatorProperties.ProcessedIsQueueHead` | server-next/task_scheduler/src/task_creator.rs:121-150 | A record that processes a queue entry comes from a reducer task. The entry it processes is exactly the head it read. It has exactly one new task, which reads the head's output, and it queues nothing. |
| `TaskCreatorProperties.QueueReadOnlyByReducers` | server-next/task_scheduler/src/task_creator.rs:121-131 | For a task whose node is not a reducer, the reduction queue read, and any error from it, cannot change the decision. |
| `TaskCreatorProperties.TerminalLeaf` | server-next/task_scheduler/src/task_creator.rs:155-172 | A node without declared edges finishes the invocation with an empty record when nothing is outstanding. When tasks are still outstanding, it is the unwrap failure `MissingEdges`. |
| `TaskCreatorProperties.FanOutDecision` | server-next/task_scheduler/src/task_creator.rs:172-207 | With declared edges, the decision is the fan-out plan, or the fan-out's error. Nothing is processed and the invocation is not finished. |
| `TaskCreatorProperties.FinishedOnlyWhenNothingOutstanding` | server-next/task_scheduler/src/task_creator.rs:62-170 | A record that finishes the invocation needs an outstanding count of zero. It creates, queues and processes nothing. |
| `TaskCreatorProperties.PairsAt` | server-next/task_scheduler/src/task_creator.rs:173-174 | Visit number i times the number of outputs plus j is edge i with output j: edges are the outer loop, outputs the inner loop. |
| `TaskCreatorProperties.FanOutFailsIff` | server-next/task_scheduler/src/task_creator.rs:173-178 | The fan-out fails if and only if there is at least one output and some edge is unknown. The error names the first unknown edge. |
| `TaskCreatorProperties.FanOutWithoutOutputs` | server-next/task_scheduler/src/task_creator.rs:173-178 | With no outputs the fan-out creates and queues nothing, and an unknown edge raises no error. |
| `TaskCreatorProperties.FanOutCount` | server-next/task_scheduler/src/task_creator.rs:173-198 | Each (edge, output) pair adds exactly one task or one queue entry, so the number of tasks plus the number of queue entries is the number of edges times the number of outputs. |
| `TaskCreatorProperties.FanOutDeferralRule` | server-next/task_scheduler/src/task_creator.rs:179-196 | Pair k is queued, with the finished task's id and that output's key, exactly when its target is a reducer and a task was already created for an earlier pair. Otherwise it becomes a task on that output's key. |
| `TaskCreatorProperties.FanOutFirstPairSpawns` | server-next/task_scheduler/src/task_creator.rs:179-196 | The first edge with the first output always becomes the first task. |
| `TaskCreatorProperties.FanOutReducerOnlyFirst` | server-next/task_scheduler/src/task_creator.rs:179-188 | In a graph whose nodes carry their own names, no task after the first one in a fan-out runs a reducer. |
| `TaskCreatorProperties.FanOutIntoReducer` | server-next/task_scheduler/src/task_creator.rs:173-196 | A fan-out whose only edge is a reducer creates one task on it, reading the first output, and queues each later output, in order, as an entry on the reducer naming the finished task and that output's key. |
| `TaskCreatorProperties.FanOutInputs` | server-next/task_scheduler/src/task_creator.rs:180-195 | Every created task and every queue entry targets one of the node's edges and reads `key(invocation_id)` of one of the finished task's outputs. Queue entries name the finished task. |
| `Scenarios.ScenarioFanOut` | server-next/task_scheduler/src/task_creator.rs:173-198 | In the graph A -> [B, C], the invocation starts on A. A's output then fans out to one task on B and one on C, in that order. |
| `Scenarios.ScenarioRouter` | server-next/task_scheduler/src/task_creator.rs:88-119 | A router that selects Y creates exactly one task, on Y, even though the graph declares a static edge to Z. |
| `Scenarios.ScenarioTerminalLeaf` | server-next/task_scheduler/src/task_creator.rs:155-172 | A leaf finishes the invocation when the outstanding count is 0. With 3 tasks outstanding it is the unwrap failure. |
| `Scenarios.ScenarioTwoBranchesIntoReducer` | server-next/task_scheduler/src/task_creator.rs:179-196 | Two separate events that each carry one output for reducer R each create a task on R. |
| `Scenarios.ScenarioTwoOutputsIntoReducer` | server-next/task_scheduler/src/task_creator.rs:179-196 | One event with two outputs for reducer R creates one task on R reading the first output and queues the second output as an entry on R naming task `tb`. |
| `Lru.LruCache.constructor` | src/memory/lru.rs:12-18 | The capacity is the given one, or 12 when none is given. History and cache start empty. |
| `Lru.LruCache.RemoveOldestEntry` | src/memory/lru.rs:20-24 | Drops the oldest turn, if there is one, and removes its key from the cache. The capacity is unchanged and the invariant is kept. |
| `Lru.LruCache.GetSize` | src/memory/lru.rs:31-33 | The size never exceeds the capacity, or 1 when the capacity is 0. |
| `Lru.LruCache.AddTurn` | src/memory/lru.rs:37-49 | Always returns `Ok`. History and cache become `HistoryAfterAdd` and `CacheAfterAdd` of the old state. The capacity is unchanged and the invariant is kept. |
| `Lru.LruCache.RetrieveHistory` | src/memory/lru.rs:51-66 | Returns `Ok` with exactly the history, in insertion order, and changes nothing. |
| `Lru.AddTurnAppends` | src/memory/lru.rs:46 | After `add_turn`, the new turn is the last element of the history. |
| `Lru.AddTurnBelowCapacity` | src/memory/lru.rs:42-47 | Below capacity, the turn is appended and all earlier turns stay in place and in order. The size grows by one. |
| `Lru.AddTurnAtCapacity` | src/memory/lru.rs:42-47 | At or above capacity, on a non-empty history, exactly the front turn is dropped before the append. The result is `old[1..] + [turn]` and the size is unchanged. |
| `Lru.AddTurnKeepsBound` | src/memory/lru.rs:42-47 | `size <= max(capacity, 1)` is preserved by `add_turn`. |
| `Lru.ForgetOldestKeepsMirror` | src/memory/lru.rs:20-24 | Eviction keeps every cached key mapped to itself and present among the remaining turns. |
| `Lru.AddTurnKeepsMirror` | src/memory/lru.rs:42-47 | `add_turn` keeps every cached key mapped to itself and present in the history. |
| `Lru.EvictingDuplicateForgetsKey` | src/memory/lru.rs:20-24 | The cache's keys need not be all the turns. Evicting the older of two equal turns removes the key that the newer turn still has. |
| `Lru.TwoTurnsWithCapacityTwo` | src/memory/lru.rs:73-79 | With capacity 2, two turns added to an empty history are both kept, oldest first. |
| `Lru.AddTwoTurns` | src/memory/lru.rs:73-79 | On the object itself: a cache of capacity 2 given two turns has size 2 and holds both turns, oldest first. |
| `Lru.Similarity` | src/memory/lru.rs:26-29 | The unimplemented similarity scores every (query, turn) pair 0, so every turn ties in the ranking. |
| `Lru.SortByScoreSorts` | src/memory/lru.rs:62 | The sort orders the turns by decreasing score. |
| `Lru.SortByScorePermutes` | src/memory/lru.rs:62 | The sort keeps every scored turn, as many times as it occurs. |
| `Lru.SortByScoreKeepsTies` | src/memory/lru.rs:56-64 | When all scores are equal, the stable sort returns its input unchanged. |

## Left out

- The state store is not part of this model. Its reads become parameters, and any read failure is an abstract `StoreError`. The `map_err` at task_creator.rs:131 becomes `NextReductionTaskError`.
- `create_task`, `reducer_task`, `ReduceTask::key` and `Output::key` come from the `data_model` crate, which is not part of this model. They are recording functions. In particular:
  - a `create_task` that fails (the `?` at task_creator.rs:39, 107, 139 and 195) is not modelled;
  - the id a new task receives is not modelled, because it is randomness outside the scheduler.
- `Node::reducer()` is taken as true exactly for a compute node whose `reducer` flag is set. For a router node it is taken as false.
- The `tracing` logging (task_creator.rs:18-21, 68-71, 159) is not modelled. Neither is the `async` plumbing.
- The caller must process the events of one invocation one at a time. This is a concurrency requirement and is not modelled.
- `calculate_similarity` returns a floating-point 0.0. It is modelled as the integer 0, and the sort compares integers. The panic that `partial_cmp(...).unwrap()` would raise on NaN cannot happen with a constant score and is not modelled.
- `sort_by` is modelled as a stable insertion sort (`SortByScore`). Every stable sort by the same key gives the same order.
- The `memory_policy` argument of `add_turn` and `retrieve_history` is ignored, as in the source.
- `capacity` is a `usize`. It is modelled as an unbounded `nat`, because the source does no arithmetic on it that could overflow.
- Lru.LruCache.GetSize: its contract states only the size bound. That the value is the length of the history is its body.
- `ui/src/utils/loaders.ts`, `indexify_extractor_sdk/base_embedding.py` and `src/entity/index.rs` are not part of this model. They hold HTTP loaders, a wrapper over a text-splitting library with floating-point embeddings, and a generated database entity, and none of them makes a scheduling decision.
