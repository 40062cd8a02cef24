# TurboRun: a verified model

TurboRun schedules calls to language models. A node enters a dependency graph, becomes ready when its count of open
dependencies reaches zero, waits in a priority queue and for a signal on the launchpad, waits for a per-minute budget,
runs on a worker, and on completion releases its dependents, or cancels them if it failed. This project models each
stage and proves what the stages keep together, over every run.

The modules, by the part of the program they model:

- **Dependency graph.** `DependencyGraph` is the class with the program's maps and channel. Its methods are proved equal
  to functions on graph values (`GraphModel`), which refine an abstract account of what every live node still waits for
  (`Waiting`): the counters are exact for any order of pushes, duplicates and diamonds included, and an id that is not
  live never counts up to an emission. `Subtree` proves the recursive removal exact. `GraphRuns` covers whole runs.
- **Scheduler.** `Runner` is a step system: clients, push listener, ready listener, launch controller, workers, `Start`
  and `Pause` are program counters that interleave freely over bounded channels. `RunnerSafety`, `RunnerLedger`,
  `RunnerBooks`, `RunnerWorkers`, `RunnerOutcome` and `RunnerChannels` each keep one invariant; `RunnerRuns` joins them
  over all runs; `RunnerSlots`, `RunnerTheorems`, `RunnerProgress`, `RunnerLate`, `RunnerOrder`, `RunnerNodes`,
  `RunnerPause`, `RunnerLaunched` and `RunnerStranded` draw the conclusions. `Lifecycle` is the object whose fields the
  program updates under its locks, with the graph and the priority queue inside, tied to the steps.
- **Budget.** `RateLimit` is the per-minute book that the memory back end (`MemoryBackend`) and the manager
  (`UdsManager`) both keep; `ConsumptionTracker` is the scheduler's own view with its lenient branch. `Budget` and
  `BudgetBound` bound one process over every interleaving and every position of the minute boundary, `BudgetOwn` says
  what the tracker alone guarantees whatever the back end answers, and `BudgetClients` bounds many processes on one manager.
- **Priority queue.** `Heap` is the array heap under Go's sift loops, `PriorityQueues` the classes.
- **Text protocol.** `Text`, `Protocol` and `UdsClient`: number formatting and field splitting, the round trips, and the
  proof that a connected client gets the memory back end's answers.
- **Smaller cores.** `Streaming` (reassembly of streamed tool calls) and `Retry`.

Assumptions, stated as such: a dispatched node has its completion callback registered in the same step; node ids are
never reused and no node depends on itself; work functions return; nothing is stopped or reset during a run; the clock
does not run backwards; budgets do not change during a run.

Where the code does not do what its documentation says, the code is modelled and the difference is a theorem:

- The comment in `Start` (`turbo_run/runner_lifecycle.go:40`) says that nodes whose signal is dropped "will be processed
  eventually". `RunnerStranded.ResumeStrands` says exactly when they may never be: a run of at most n nodes can leave one
  behind if and only if n exceeds the slots of the launchpad, one per worker (`turbo_run/turbo_run.go:154`), and the graph
  may hold more nodes than that.
- The project's documentation says that the system "automatically identifies when dependencies are satisfied"
  (the repository's `README.md:19`). A node pushed after one of its dependencies has ended is never started
  (`RunnerLate.StartedWhenSatisfied`, and `GraphRuns.PublishedWhenSatisfied` on the graph alone); the promise holds exactly
  for nodes whose dependencies are all live when they are pushed.
- The comment of `GetSnapshot` (`utils/priority_queue/priority_queue.go:76-77`) promises the items in pop order.
  `Heap.SnapshotOutOfOrder` is a counterexample, and by `Heap.SnapshotInPopOrder` the promise holds of all queues of a size
  exactly if that size is at most two.
- The lenient branch near minute boundaries is said to "still respect limits"
  (`turbo_run/runner_consumption_tracker.go:156`). `BudgetBound.BoundIsReached` is a run that records twice the budget
  in a minute; `BudgetBound.MinuteBound` says when, and that it is never more.

## Model

| member | source | states |
|---|---|---|
| `DependencyGraph.Graph.Add` | turbo_run/graph.go:43-57 | The node is stored as given, and sent at once if it has no dependency; the counters still agree with what every live node waits for. |
| `DependencyGraph.Graph.Remove` | turbo_run/graph.go:60-80 | As `Add`; the channel gains exactly the nodes that stop waiting with this removal, each once and as it is stored, tokens and provider included. |
| `DependencyGraph.Graph.RemoveSubtree` | turbo_run/graph.go:85-97 | Removes exactly the live nodes reachable from the root, returns each once, root first and parents before children, and leaves every survivor as it was. |
| `DependencyGraph.Graph.RemoveSubtreeRecursive` | turbo_run/graph.go:101-117 | Terminates, because the surviving edges go from earlier to later nodes, and appends the removed ids in post-order. |
| `DependencyGraph.Graph.GetNodesWithNoDependencies` | turbo_run/graph.go:120-131 | Returns each live node with a zero counter, once. |
| `DependencyGraph.Graph.Clear` | turbo_run/graph.go:135-161 | Returns every live id once and leaves an empty graph and an empty channel. |
| `DependencyGraph.Graph.ReverseInPlace` | turbo_run/graph.go:92-94 | The swap loop reverses the list. |
| `Waiting.AddRefines` | turbo_run/graph.go:46-52 | Exact counting is kept by an addition, whatever the order of pushes and however often a dependency is repeated. |
| `Waiting.RemoveRefines` | turbo_run/graph.go:67-80 | Exact counting is kept by the removal of any id, live or not, and stale counters stay below one. |
| `Waiting.AddPublishes` | turbo_run/graph.go:54-56 | An addition publishes the node itself, if it has no dependency, and nothing else. |
| `Waiting.ReleasePublishes` | turbo_run/graph.go:71-77 | Counting down a child list publishes a child exactly once, when its counter crosses zero, and never a nil node. |
| `Waiting.RemovePublishes` | turbo_run/graph.go:71-77 | A removal publishes exactly the nodes that become entry points. |
| `Waiting.RemoveAppends` | turbo_run/graph.go:71-77 | A removal sends stored nodes, unchanged, and never nil. |
| `Subtree.RemoveSubtreeExact` | turbo_run/graph.go:101-117 | An id is removed if and only if it is live and reachable from the root through live nodes; survivors keep data, children and counter, and nothing is published. |
| `Subtree.RemoveSubtreeOrder` | turbo_run/graph.go:89-96 | The reversed post-order starts with the root, repeats nothing and lists every parent before each removed child, also in diamonds. |
| `Subtree.CancelRefines` | turbo_run/graph.go:101-117 | Exact counting is kept by a subtree removal, dead ids left behind in child lists included. |
| `Subtree.CancelEntry` | turbo_run/graph.go:101-117 | No ready, queued or running node but the root is removed. |
| `GraphRuns.EveryRunPublishesOnce` | turbo_run/graph.go:43-117 | In every run of additions and removals a live node has been published if and only if its counter is zero, no node is published twice, and nil is never published. |
| `GraphRuns.EveryRunKeepsNodes` | turbo_run/graph.go:43-117 | In every run, what the graph stores and publishes under an id is the node pushed under it, unchanged. |
| `GraphRuns.EveryRunAcyclic` | turbo_run/graph.go:46-52 | Although nothing checks for cycles, no run has one, dangling edges or not. |
| `GraphRuns.SomeEntry` | turbo_run/graph.go:120-131 | A non-empty graph whose nodes wait for live nodes only has an entry point. |
| `GraphRuns.PublishedWhenSatisfied` | turbo_run/graph.go:43-117 | In every run that removes live nodes only: a node pushed with a dependency that was not live is never published, and any other live node is published if and only if none of its dependencies is live any more. |
| `RunnerSafety.PushSafe` | turbo_run/runner_lifecycle.go:372-428 | The steps of clients and of the push listener keep the graph's counting and the stages. |
| `RunnerSafety.ListenSafe` | turbo_run/runner_lifecycle.go:164-188 | The ready listener never meets nil, and moves a node from one stage to exactly one other. |
| `RunnerSafety.LaunchSafe` | turbo_run/runner_lifecycle.go:191-288 | So does the launch controller. |
| `RunnerSafety.WorkSafe` | turbo_run/runner_lifecycle.go:291-351 | So do the workers; under both failure strategies the callback frees exactly its own stage. |
| `RunnerLedger.SettleFacts` | turbo_run/runner_lifecycle.go:291-342 | A callback removes the settled node alone, or with all live descendants, and survivors wait for no removed node. |
| `RunnerBooks.PartitionKept` | turbo_run/runner_lifecycle.go:291-342 | Every node ever added is live, completed, failed or cancelled, and only one of these. |
| `RunnerBooks.LedgerKept` | turbo_run/runner_lifecycle.go:300-337 | completedCount and failedCount each stand for their own nodes (removed after success; removed after their own failure, or cancelled), each corrected by what the running callbacks have counted early or have yet to count. |
| `RunnerBooks.NoneLostKept` | turbo_run/runner_lifecycle.go:380-414 | Every submitted node is in the push channel, in the listener's hand or added. |
| `RunnerWorkers.WorkersKept` | turbo_run/worker_pool.go:99-183 | busyWorkers = workers marked busy = size of workerNodeMap, entry by entry, after every step. |
| `RunnerWorkers.ResultsKept` | turbo_run/work_node.go:139-145 | Each node has sent as many results as it has had callbacks entered. |
| `RunnerWorkers.NeverBlocksOnResult` | turbo_run/work_node.go:139-145 | No node sends two results, so a worker never blocks on a result channel of capacity one. |
| `RunnerOutcome.OutcomeKept` | turbo_run/runner_lifecycle.go:305-341 | Whoever completed or failed ran after all its dependencies; whoever was cancelled lost one of them. |
| `RunnerOutcome.ReadyMeansReleased` | turbo_run/runner_lifecycle.go:164-188 | A node in any stage after the graph has all its dependencies behind it. |
| `RunnerChannels.BackpressureKept` | turbo_run/runner_lifecycle.go:343-400 | The graph never exceeds maxGraphSize, and a listener waiting while there is room has a wake-up token or a worker about to send one. |
| `RunnerChannels.CoveredKept` | turbo_run/runner_lifecycle.go:25-53 | After a resume that dropped no signal and until the next pause, every queued node has a signal somewhere on its way. |
| `RunnerChannels.ResumeCovers` | turbo_run/runner_lifecycle.go:35-42 | The resend loop gives each queued node a signal if and only if the launchpad, with the signals already held, is large enough. |
| `RunnerSlots.EveryRunHasSlots` | turbo_run/runner_lifecycle.go:25-53 | In every run, with any pauses, resumes and dropped signals: while unpaused, each queued node has a signal, provided that the graph may hold, or the clients have submitted, no more nodes than the launchpad has slots. |
| `RunnerRuns.NextInv` | turbo_run/runner_lifecycle.go:155-428 | Every step of every actor keeps all the invariants. |
| `RunnerRuns.Exec` | turbo_run/runner_lifecycle.go:155-428 | Every reachable state satisfies them. |
| `RunnerTheorems.NothingStartsEarly` | turbo_run/runner_lifecycle.go:164-288 | Whatever has left the ready channel is live, in exactly one stage, and its dependencies have completed (or failed, when failures are isolated). |
| `RunnerOrder.AddedAsSubmitted` | turbo_run/runner_lifecycle.go:372-414 | In every run the nodes added are the first ones submitted, in that order, each with the dependencies its client gave. |
| `RunnerNodes.NodeAsSubmitted` | turbo_run/runner_lifecycle.go:164-188 | In every run a submitted node is stored, received and queued with the tokens its client gave it. |
| `RunnerNodes.LargestFirst` | turbo_run/runner_lifecycle.go:207-211 | No queued node has more estimated tokens, as submitted, than the one that leaves the queue. |
| `RunnerPause.PauseHolds` | turbo_run/runner_lifecycle.go:47-53 | From a Pause to the next Start, whatever else happens: the scheduler is paused, and of the nodes queued then none leaves the queue, except one if the launch controller had already passed its pause check. |
| `RunnerPause.StartHolds` | turbo_run/runner_lifecycle.go:25-30 | From a Start to the next Pause the scheduler is not paused. |
| `RunnerLaunched.EveryRunCountsLaunches` | turbo_run/runner_lifecycle.go:279-285 | In every run launchedCount is the number of nodes in the pool, on workers, completed and failed by themselves, less the one just dispatched. |
| `RunnerLate.StartedWhenSatisfied` | turbo_run/runner_lifecycle.go:164-188 | In every run of the scheduler: a node pushed when a dependency was not live is never in any stage, never completes or fails, and leaves only when cancelled; any other live node is in a stage if and only if none of its dependencies is live. |
| `RunnerTheorems.WorkersNeverStall` | turbo_run/worker_pool.go:99-183 | busyWorkers stays within the pool, and a worker that has finished its work can always send the result. |
| `RunnerTheorems.CountsConserved` | turbo_run/runner_lifecycle.go:292-341 | Between callbacks, under both strategies: completedCount = nodes that left after success, failedCount = nodes that left after their own failure or were cancelled, and nodes added = live nodes + both. |
| `RunnerTheorems.VerdictIsDecided` | turbo_run/runner_lifecycle.go:305-341 | Under propagation, in every reachable state, a node that has left completed if it and all ancestors succeed, failed if only it fails, and was cancelled if and only if an ancestor fails. |
| `RunnerLaunched.IsolatedVerdict` | turbo_run/runner_lifecycle.go:324-341 | Where failures are isolated, nobody is cancelled, and a node that has left failed exactly if its own work function did. |
| `RunnerTheorems.ScheduleIndependence` | turbo_run/runner_lifecycle.go:291-342 | Two runs on the same dependencies and outcomes that empty their graphs end every node alike, whatever the interleaving and the sizes of pool and buffers. |
| `RunnerTheorems.OnlyBlockedLeft` | turbo_run/runner_lifecycle.go:155-428 | When no actor can move, nobody is paused and signals sufficed (none dropped by the last resume, or slots for the whole queue), a node is live only if it, or a live node it waits for, was pushed with a dependency that was not live. |
| `RunnerTheorems.NothingLeftBehind` | turbo_run/runner_lifecycle.go:155-428 | So if moreover every dependency was live when its node was pushed, every submitted node has ended, and each counter is the number of nodes that ended its way. (That the budget wait ends is assumed here; see `BudgetBound.EverGrantedIff`.) |
| `RunnerProgress.StepWorks` | turbo_run/runner_lifecycle.go:155-428 | Every step the scheduler takes by itself lowers a measure of the work ahead. |
| `RunnerProgress.ComesToRest` | turbo_run/runner_lifecycle.go:155-428 | So no interleaving goes on for longer than that measure. |
| `RunnerProgress.RunToRest` | turbo_run/runner_lifecycle.go:155-428 | From every reachable state the actors can go on until none can move. |
| `RunnerProgress.EveryNodeEnds` | turbo_run/runner_lifecycle.go:155-428 | From any unpaused state in which signals suffice, and under the same assumption, the scheduler left to itself stops within a bounded number of steps; where it stops only nodes behind a late push are live, and none is if every dependency was live when its node was pushed. |
| `RunnerStranded.StrandedForever` | turbo_run/runner_lifecycle.go:191-211 | With more nodes queued than signals left and nothing new becoming ready, the queue never empties. |
| `RunnerStranded.QueuedTooMany` | turbo_run/runner_lifecycle.go:35-42 | For any nodes without dependencies, more than the launchpad has slots, that the graph has room for: there is a run without any pause after which some node stays queued whatever the actors do. |
| `RunnerStranded.ResumeStrands` | turbo_run/runner_lifecycle.go:35-42 | Over all runs of at most n nodes, with any dependencies (live when pushed), pauses, resumes and interleavings: the scheduler can come to rest unpaused with a live node if and only if n exceeds the slots of the launchpad and the graph may hold more nodes than that. |
| `Lifecycle.TurboRun.Start` | turbo_run/runner_lifecycle.go:25-44 | Clears the paused flag and, if it was set, offers one signal per queued node, also while an earlier Start is still offering; otherwise offers none. The fields end as the step system's resend loop leaves them. |
| `Lifecycle.TurboRun.Pause` | turbo_run/runner_lifecycle.go:47-53 | Sets the paused flag and nothing else. |
| `Lifecycle.TurboRun.PopNext` | turbo_run/runner_lifecycle.go:207-211 | The node popped is queued and has the greatest priority of all; the step system allows it next; on an empty queue there is none. |
| `Lifecycle.TurboRun.QueueReady` | turbo_run/runner_lifecycle.go:176-179 | The received node is queued with its own estimated tokens as priority, in step with the model's heap. |
| `Lifecycle.TurboRun.OnResult` | turbo_run/runner_lifecycle.go:292-350 | The completion callback, on the graph object, does what the callback's steps do: one count, the removal, one count per cancelled descendant, one token. |
| `Lifecycle.TurboRun.CancelDescendants` | turbo_run/runner_lifecycle.go:306-323 | failedCount rises by exactly the number of descendants removed with the node. |
| `MemoryBackend.Memory.BudgetAvailable` | rate_limit/backends/memory/memory.go:39-59 | Resets lazily, then answers what is left of both budgets, never negative. |
| `MemoryBackend.Memory.RecordConsumption` | rate_limit/backends/memory/memory.go:62-74 | Resets lazily, then adds to this provider's usage only. |
| `MemoryBackend.Memory.TimeUntilReset` | rate_limit/backends/memory/memory.go:77-81 | The wait to the next minute: no shorter one leads there. |
| `ConsumptionTracker.Tracker.Cycle` | turbo_run/runner_consumption_tracker.go:70-90 | The fields change by exactly that cycle. |
| `ConsumptionTracker.CycleSavesOnce` | turbo_run/runner_consumption_tracker.go:70-90 | However often the timer fires in a minute, the minute before is saved once with what both named providers had used, the new one starts from nothing, and totals and saved minutes stay. |
| `ConsumptionTracker.Tracker.RecordConsumption` | turbo_run/runner_consumption_tracker.go:108-124 | Records locally, in the totals and in the back end; only the back end looks at the clock. |
| `ConsumptionTracker.Tracker.BudgetAvailableForCycle` | turbo_run/runner_consumption_tracker.go:133-198 | At three clock readings, combines both views: each number is one of the two views', and away from a boundary it exceeds neither. |
| `ConsumptionTracker.OfferExceeds` | turbo_run/runner_consumption_tracker.go:158-195 | The answer exceeds the back end's if and only if the lenient branch found the back end empty and the tracker not. |
| `ConsumptionTracker.OfferIs` | turbo_run/runner_consumption_tracker.go:158-195 | The answer is one of the two views: the larger one when exactly one is empty near a boundary, otherwise one that exceeds neither. |
| `BudgetBound.NextInv` | turbo_run/runner_lifecycle.go:219-254 | Every step of the launch loop, the clock and the minute timer keeps the relation between back end, tracker and log. |
| `BudgetBound.MinuteBound` | turbo_run/runner_consumption_tracker.go:108-198 | In every minute of every run usage is at most the budget plus the one record checked in an earlier minute, so at most twice the budget; and it exceeds the budget exactly when the lenient branch (near a boundary, back end empty, tracker not) let a request through. |
| `BudgetBound.AwayFromBoundary` | turbo_run/runner_consumption_tracker.go:150-153 | If no request recorded in a minute was granted near a boundary, the minute stays within its budget. |
| `BudgetBound.RequestBound` | turbo_run/runner_lifecycle.go:219-251 | At most one request too many in a minute. |
| `BudgetBound.BackendBound` | rate_limit/backends/memory/memory.go:39-109 | The back end's counter is what was recorded in its minute, within the same bound. |
| `BudgetBound.BoundIsReached` | turbo_run/runner_consumption_tracker.go:156-171 | For every token budget, with at least one request per minute, there is a run that records twice the tokens in one minute. |
| `BudgetBound.EverGrantedIff` | turbo_run/runner_lifecycle.go:219-249 | A request of a named provider can ever be granted if and only if its tokens fit the token budget and at least one request per minute is allowed; otherwise the launch loop waits forever. |
| `BudgetBound.WaitCanEnd` | turbo_run/runner_lifecycle.go:219-249 | From every reachable wait for a request that fits, a check in the next minute grants it. |
| `BudgetOwn.OwnBound` | turbo_run/runner_consumption_tracker.go:184-195 | Whatever the back end answers at any time (other processes, resets, a client without a manager): in a minute in which no grant was made near a boundary, one process is granted no more than its budget. |
| `BudgetOwn.OwnUsageBound` | turbo_run/runner_consumption_tracker.go:108-198 | Nor does it record more, where it records in the minute of the grant. |
| `BudgetOwn.TotalsAreAll` | turbo_run/runner_consumption_tracker.go:115-119 | The totals are what was ever recorded, across all minutes and resets. |
| `BudgetClients.BoundKept` | rate_limit/backends/uds/manager.go:191-245 | Usage plus everything granted and not yet recorded stays within the budget and one largest request of each other process. |
| `BudgetClients.ClientBound` | turbo_run/runner_consumption_tracker.go:184-195 | So with N processes the counter never exceeds the budget by more than N-1 largest requests, whenever resets fall. |
| `BudgetClients.ClientBoundIsReached` | turbo_run/runner_consumption_tracker.go:184-195 | For every N a run reaches that bound. |
| `PriorityQueues.HeapQueue.Up` | utils/priority_queue/heap_queue.go:17-25 | The sift-up loop of `container/heap`, over this type's `Less` and `Swap`. |
| `PriorityQueues.HeapQueue.Down` | utils/priority_queue/heap_queue.go:17-25 | The sift-down loop. |
| `PriorityQueues.PriorityQueue.Push` | utils/priority_queue/priority_queue.go:54-59 | Adds one entry to the contents, keeps heap order and index fields, returns the new size. |
| `PriorityQueues.PriorityQueue.Pop` | utils/priority_queue/priority_queue.go:62-67 | Takes an entry that none goes before (greatest in a max queue, least in a min queue), and only that one. |
| `PriorityQueues.PriorityQueue.GetSnapshot` | utils/priority_queue/priority_queue.go:78-87 | A permutation of the contents that starts with what the next pop returns. |
| `Heap.PushKeeps` | utils/priority_queue/heap_queue.go:28-33 | Heap order, index fields and contents after a push. |
| `Heap.PopKeeps` | utils/priority_queue/heap_queue.go:36-43 | The same after a pop, and that the entry returned is a first one. |
| `Heap.DrainSorts` | utils/priority_queue/priority_queue.go:62-67 | Popping until empty returns the contents in sorted order. |
| `Heap.SnapshotStartsRight` | utils/priority_queue/priority_queue.go:78-87 | The first element of a snapshot is the next pop's. |
| `Heap.SnapshotInPopOrder` | utils/priority_queue/priority_queue.go:76-87 | All queues of n entries that pushes and pops can build list their items in pop order if and only if n is at most two; for each greater n a run of n pushes fails. |
| `Heap.SnapshotSorted` | utils/priority_queue/priority_queue.go:76-87 | With pairwise distinct priorities, the entries of a snapshot are in pop order if and only if their priorities are sorted. |
| `Heap.SnapshotOutOfOrder` | utils/priority_queue/priority_queue.go:76-87 | Three pushes after which it has not. |
| `UdsManager.Manager.HandleCommand` | rate_limit/backends/uds/manager.go:135-189 | Reply and new books are those of the protocol, error replies included. |
| `UdsManager.Manager.GetBudget` | rate_limit/backends/uds/manager.go:192-212 | Resets lazily, then answers what is left. |
| `UdsClient.Client.SendCommand` | rate_limit/backends/uds/client.go:107-137 | When a command reaches the manager (first write, or second write after a reconnect), that it is then carried out once, when a reply comes back, and when the client stays connected. |
| `UdsClient.Client.BudgetAvailable` | rate_limit/backends/uds/client.go:140-164 | The manager's numbers if a readable reply comes back, else the client's full default budget. |
| `UdsClient.Client.RecordConsumption` | rate_limit/backends/uds/client.go:167-171 | The manager records it if the command arrives and the numbers fit; a refusal is not reported. |
| `UdsClient.Client.TimeUntilReset` | rate_limit/backends/uds/client.go:174-191 | Exact to the millisecond with the manager's answer, exact without it, and no change to the manager's books. |
| `Text.AtoiFormat` | rate_limit/backends/uds/manager.go:154-155 | Parsing recovers a formatted integer exactly when it fits 64 bits. |
| `Text.FieldsJoin` | rate_limit/backends/uds/manager.go:136 | Field splitting recovers words joined by single spaces. |
| `Text.FieldsSkip` | rate_limit/backends/uds/manager.go:136 | Any run of white space separates, also before and after words. |
| `Text.FieldsWord` | rate_limit/backends/uds/manager.go:136 | A word ends only at white space or at the end. |
| `Protocol.ParseSpell` | rate_limit/backends/uds/manager.go:135-177 | The manager understands exactly the command the client formatted, provided its numbers fit 64 bits. |
| `Protocol.ReadReply` | rate_limit/backends/uds/client.go:149-163 | The client reads back exactly the two numbers the manager sent. |
| `Protocol.ReadTime` | rate_limit/backends/uds/manager.go:179-181 | The reply is the time to the next minute in whole milliseconds, rounded down. |
| `Protocol.ResetAndPing` | rate_limit/backends/uds/manager.go:162-184 | After RESET every key has its whole budget; PING changes nothing. |
| `Protocol.UnderstoodExactly` | rate_limit/backends/uds/manager.go:135-188 | Which lines are which commands, word by word. |
| `Protocol.ErrorsChangeNothing` | rate_limit/backends/uds/manager.go:135-189 | A line gets an error reply if and only if it is no command, and then changes nothing. |
| `UdsClient.MirrorsStep` | rate_limit/backends/uds/manager.go:191-236 | One call through the wire and one on the memory back end give the same answer and leave matching books. |
| `UdsClient.SameAnswers` | rate_limit/backends/memory/memory.go:38-94 | So does any sequence of budget queries, records and budget changes. |
| `UdsClient.SameAnswersFromTheStart` | rate_limit/backends/uds/manager.go:41-54 | In particular on a fresh manager, against a memory back end built at the same time. |
| `Streaming.ParseStreamingResponse` | clients/groq/groq.go:373-522 | If the chunks heard carry a message, the response has exactly its id, object, index, content, finish reason, usage and calls, and the callback's tokens concatenate to its content; in any case, response and tokens in terms of the chunks heard. |
| `Streaming.AccumulatesPerIndex` | clients/groq/groq.go:425-461 | However deltas interleave, each accumulated call is what the deltas of its own index spell. |
| `Streaming.InterleavingIsIrrelevant` | clients/groq/groq.go:425-461 | Streams that agree on each index accumulate the same calls. |
| `Streaming.Reassembled` | clients/groq/groq.go:373-522 | However a message is cut into chunks and interleaved, every part of it comes back: names of the first chunk, content, calls, and the last finish reason and usage given. |
| `Streaming.CallsDropped` | clients/groq/groq.go:505-519 | All accumulated calls are returned if and only if their indices are 0 to k-1. |
| `Streaming.TokensAreContent` | clients/groq/groq.go:418-423 | The tokens handed to the callback concatenate to the content. |
| `Streaming.HeardJoins` | clients/groq/groq.go:382-403 | Lines before the end marker add up. |
| `Streaming.HeardUntilDone` | clients/groq/groq.go:400-403 | Lines after the end marker are never read. |
| `Streaming.TokensAreParts` | clients/groq/groq.go:418-423 | The callback gets each non-empty content as often as it came, and nothing empty. |
| `Retry.Execute` | utils/retry/retry.go:54-117 | Calls attempts 0 to k, where k is the first not worth retrying or the last allowed, and returns that one's value or error; without an error checker only attempt 0; the exhausted error if and only if MaxRetries is negative. |
| `Retry.RunWithRetry` | turbo_run/work_node.go:219-282 | The same for a node's work function: each earlier attempt failed with a retryable error, and the last attempt's result is returned. |
| `Retry.StopsOnce` | utils/retry/retry.go:59-103 | There is exactly one attempt to stop at. |
| `Retry.WaitedCapped` | utils/retry/retry.go:45-51 | The total delay is at most MaxRetries times MaxDelay. |
| `Retry.Backoff` | utils/retry/retry.go:45-51 | The first delay is the base, each later one the multiple of the one before, capped. |
| `Retry.DelaysGrow` | turbo_run/work_node.go:285-291 | With a multiple of at least one, delays never shrink, and once capped stay capped. |

## Left out

- The goroutines of the lifecycle and of the worker pool are a step system on values: atomic steps between which any other actor may move. `Lifecycle.TurboRun` shows, without interleaving, that updating the fields in place amounts to these steps for `Start`, `Pause`, the queue, the callback and the busy states; the channel loops themselves exist only as steps.
- `Runner.Listen` and `Runner.Work` take the graph's sends on its ready channel as total. In the program that channel is bounded and the sends happen under the graph's lock, so a large fan-out into a small buffer can stall; freedom from that stall is not claimed.
- The budget wait is a single step of the launch controller in the scheduler's model, which assumes that every request fits its budget; `BudgetBound.EverGrantedIff` states the condition, and the budget model has the steps of the wait in full.
- Start's window between clearing the paused flag and the first offer of the resend loop is kept; the length of the queue is read together with the flag, as in the program.
- `BudgetBound.MinuteBound`: covers the two named providers. Any other provider has no back end budget but is measured against the Groq budget by the tracker, and outside the model's claim the lenient branch lets it through.
- `BudgetClients.ClientBound`: covers checks outside the transition period and clients that reach the manager. A client without a manager falls back to its full budget, so no common bound exists then.
- `UdsClient.SameAnswers`: excludes the manager's ticker, which can drop usage recorded in the new minute, and a manager process replaced by a new one.
- Stop and quit (on shutdown the budget wait records and dispatches all the same), and Reset during a run; `Clear` is modelled on its own.
- Panics in work functions, and a callback registered only after the node has finished.
- Sockets, process start-up, HTTP, JSON, event emission, statistics, logging and token counting. Nodes carry their estimated tokens; streams start at decoded lines; a failing reader or a cancelled stream is not modelled.
- 64-bit overflow of the usage counters, and of the duration arithmetic in the backoff, where delays are real numbers.
- String matching that decides which errors are worth a retry: a parameter here.
- No conservation is claimed of the tracker's history: the lazy reset inside a check drops usage without saving it, so only what `Cycle` itself saves is stated.
- Configuration, the singleton, `utils/parallel`, loggers and mocks.
