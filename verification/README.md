# moon: verified models

moon is a build orchestrator. It builds a graph of actions for the tasks that were asked for, runs
the graph with a pool of jobs, decides which projects and tasks a change affects, stores outputs in
a content-addressed cache, and keeps a daemon per workspace. This project models the parts of moon
whose correctness spans many calls or many processes, and proves what they promise.

| files | what they model |
|---|---|
| `Digraph`, `Sequences`, `Rounding` | reachability and acyclicity, sums over lists, division that rounds up |
| `ActionGraph`, `Dispatcher` | action nodes, priority groups, and the search for the next node to run |
| `Pipeline`, `PipelineSafety`, `PipelineProgress`, `PipelineTokens` | the pipeline as a state machine of one dispatcher and any number of jobs, with its abort and cancel tokens |
| `Workspace`, `Requests` | what a build starts from, and which tasks a request asks for |
| `Builds`, `Wiring`, `BuildSteps`, `Builder` | the action graph builder: recursive expansion, deduplication, serial ordering |
| `Delivery` | the targets of a request one after the other, and what the whole build promises |
| `DirectScope`, `Limits` | which requests with a direct scope report a cycle, and inputs at the limits of what a build promises |
| `EndToEnd` | what a build orders is ordered in every run of its graph |
| `Affected`, `Pool` | affected marks, sequential and pooled, and the bounded pool |
| `Batching`, `Digests`, `Persist` | packing blobs into batches, and storing a manifest after its blobs |
| `Eviction`, `Collection`, `CollectionRace` | eviction within a budget, mark and sweep, and both beside persists |
| `Daemon`, `DaemonProgress` | ownership of the daemon among crashing servers and clients, and when it comes up and goes down |
| `Slicing` | dividing tasks among parallel CI jobs |

## How the models are built

Objects that the code updates in place are classes here, and loops are loops. Calls into code outside
the model become parameters: which items a file change affects, how a storage backend answers, when a
signal arrives, in what order futures end. A proof then holds for every such behaviour.

Where processes or jobs interleave, the model is a state machine in which every lock acquisition, token
read, look at a file, write, removal and channel send is one step; a write that first checks whether the
file exists is one step too. A property of runs is proved for every sequence of steps that can be taken
from the start.

Choices worth knowing:

- **Nodes.** A builder inserts an equal node once, so the builder's graph names nodes by their contents.
  The finished graph has indices; `Realizes` relates the two and asks only that requirements, direct and
  transitive together, are the same, which a transitive reduction keeps.
- **Adding an edge.** `Dag::add_edge` refuses an edge whose target already reaches its source. `HasPath`
  computes that.
- **Affected tasks.** Tasks are tracked before the graph is built, so which tasks are affected is a fixed
  set while it is built. Dependencies are exempt from the check, dependents are not.
- **Ledger.** The builder's ghost ledger says which nodes are being linked, whose dependents were
  followed, and which filtered tasks are lost. It exists for the proof only.
- **Cycles that are not there.** If task dependencies are acyclic (`Lawful`), a visit reports a cycle
  exactly when the node was created without its dependencies and one of them has come after it since
  (`Blocked`). That never happens with no or a deep upstream scope. With a direct scope it can:
  `ListedAfterSerial` is such a request. It does not happen in an `Orderly` request, in which no task is
  listed after one that depends on it unless all before run their dependencies in parallel. A request is
  `Simple` if no target is repeated and, for each serial target, nothing planned for the targets before it
  leads out of its dependencies; any number of serial targets is allowed. A simple request fails exactly
  when a target comes before something it needs in the plan of the targets listed before it (`Clashes`);
  and a target that clashes with any simple beginning of a request makes it fail.
- **CI filter.** A task filtered out in CI is marked as passthrough when it is first met, and passes the
  request on to its dependents only then. One that is first met as a dependency, or too deep for a direct
  downstream scope, is lost: `FilteredDependency` and `FilteredDependent` are requests whose tasks depend
  on their order. The graph always holds exactly what is expected without passing a lost task. What can be
  lost can be told from the workspace and the request: a filtered task is `Losable` if it can be met,
  other than through itself, in a way that does not follow its dependents. So in every order the graph
  holds at least what is expected without passing a losable task and at most what is expected at all, and
  if no losable task must pass the request on (`Unhindered`), exactly that. A request for the only filtered
  task is unhindered. Conversely, a request that starts with a task which meets a filtered one below it or
  below a dependent loses that one (`LostBehind`) and misses whatever is expected only through it. With a
  direct downstream scope the two meet: what is losable is lost in some order.
- **Serial edges.** With no cycle in the way, a serial task orders each of its dependencies, with all that it
  needs, after the one before. Every serial edge has such a task in the graph as its `Reason`, so a graph of
  parallel tasks has none.
- **Tokens.** A result is `Fatal` if it is `Aborted`, if its last execution was, or, with bail, if it is a failure
  that is not allowed. The abort token is set exactly if there is one. What a set token stops, and what the stopped
  jobs report, is stated for every continuation of a run.
- **Collection beside persists.** A persist that finds a blob present does not refresh its time. The
  blob can then be swept before the manifest is stored; `OldBlobIsLost` is such a run. Any number of
  collections and persists may be under way. `CareIsNeeded` gives the exact condition on a step: after a
  careless one, careful steps can lead to a manifest that misses a blob, and after a careful one they
  cannot.
- **Slicing.** A job whose slice starts past the end keeps the whole list. `JobsPartition` gives the exact
  condition under which the jobs form a partition, and `JobsRunTimes` how often the list is run in general.

## Model

| member | source | states |
|---|---|---|
| Digraph.AddEdgeKeepsAcyclic | crates/action-graph/src/action_graph_builder.rs:1524-1531 | an edge whose target does not reach its source closes no cycle |
| Digraph.AddEdgeClosesCycle | crates/action-graph/src/action_graph_builder.rs:1524-1531 | an edge whose target reaches its source closes one, so only such edges are refused |
| ActionGraphs.GroupPriorities | crates/action-graph/src/action_graph.rs:50-86 | the groups ascend by priority, and each lists exactly the nodes of its priority in the given order; a node that is no task has priority 0 |
| Dispatch.JobDispatcher.constructor | crates/action-pipeline/src/job_dispatcher.rs:18-30 | a dispatcher over groups that list every node starts with nothing visited and is valid |
| Dispatch.JobDispatcher.HasQueuedJobs | crates/action-pipeline/src/job_dispatcher.rs:32-34 | comparing counts is true exactly when a node is unvisited |
| Dispatch.JobDispatcher.FindApplicableIndex | crates/action-pipeline/src/job_dispatcher.rs:36-76 | search completeness: for priorities 0 and 1 nothing is returned exactly when nothing fresh that the node reaches can run; what is returned can run |
| Dispatch.JobDispatcher.FindInRequirements | crates/action-pipeline/src/job_dispatcher.rs:58-72 | the loop over requirements leaves everything traversed expanded, or returns the one node it found |
| Dispatch.JobDispatcher.FindInGroup | crates/action-pipeline/src/job_dispatcher.rs:89-138 | one level from its first node on: what it returns may be dispatched now and is work of one node, before which everything listed is unavailable or was deferred; otherwise all of the level is traversed and every available node met is deferred |
| Dispatch.JobDispatcher.FindNext | crates/action-pipeline/src/job_dispatcher.rs:87-139 | all levels in order: nothing is returned only if every available node was deferred; a result is work of a node before which everything listed, in its level and in earlier ones, is unavailable or deferred, and, with nothing deferred, leads to no work |
| Dispatch.JobDispatcher.Next | crates/action-pipeline/src/job_dispatcher.rs:81-151 | one dispatch: safety; levels in order and each from its first node on, passing over only what is unavailable or was turned down; deadlock freedom when nothing is in flight; the new state, and pruning that loses no unvisited node |
| Dispatch.WithoutInOrder | crates/action-pipeline/src/job_dispatcher.rs:142-148 | pruning drops completed nodes of a level one by one and keeps the order of the others |
| Dispatch.PruneInOrder | crates/action-pipeline/src/job_dispatcher.rs:142-148 | pruning treats levels one by one and keeps their order |
| Dispatch.QueuedNodeAvailable | crates/action-pipeline/src/job_dispatcher.rs:43-56 | in an acyclic graph, if all visited nodes are completed and one is left, some node can run |
| PipelineSafety.NextTakesSearchSteps | crates/action-pipeline/src/job_dispatcher.rs:81-151 | what a dispatch promises is a run of the state machine: a step for every node turned down, whatever steps jobs take between the looks, and a last step that picks the node or gives up |
| PipelineSafety.StepInv | crates/action-pipeline/src/action_pipeline.rs:274-385 | the invariant of the pipeline is kept by every step of the dispatcher, of any job, and of a signal |
| PipelineSafety.DispatchSafety | crates/action-pipeline/src/job_dispatcher.rs:43-56 | in every run no node is dispatched twice, and a dispatched node has all its direct and transitive requirements completed; running is within visited and not completed |
| PipelineSafety.NoBodyAboveAbort | crates/action-pipeline/src/job_context.rs:49-72 | once a node ends with a result that aborts, no node that requires it, however indirectly, has begun its body or ever does |
| PipelineTokens.FatalStopsAbove | crates/action-pipeline/src/job_context.rs:54-67 | the same by kind of result: `Aborted`, an aborted last execution, or, with bail, a failure or timeout that is not allowed |
| PipelineTokens.AbortIffFatal | crates/action-pipeline/src/job_context.rs:54-67 | in every run the abort token is set exactly if some result is of such a kind, and then the result of some body that was run is |
| PipelineTokens.ResultsAreHonest | crates/action-pipeline/src/job.rs:21-82 | in every run a result is what the body of its node ended with, or `Aborted` or `Skipped` because the token was set; a node whose body was not run reports one of these |
| PipelineTokens.SignalStopsBodies | crates/action-pipeline/src/job.rs:35-45 | after a signal no further body is begun |
| PipelineTokens.LateForAbort | crates/action-pipeline/src/job.rs:28-72 | a node that has yet to read the abort token when it is set, before or after its body, can only end as `Aborted` |
| PipelineTokens.LateForSignal | crates/action-pipeline/src/job.rs:66-81 | a node that does not know its result when a signal arrives can only end as `Aborted` or `Skipped` |
| PipelineTokens.TokenEndsDispatch | crates/action-pipeline/src/action_pipeline.rs:280-346 | once a token is set, at most the one node that is about to be is dispatched, and no persistent node is launched unless they are being launched already |
| PipelineSafety.RunKeepsOutcomes | crates/action-pipeline/src/job_context.rs:59-72 | a result that was sent stays what it was |
| PipelineSafety.Exclusion | crates/action-pipeline/src/action_pipeline.rs:312-382 | no two standard jobs with one nonzero id are in flight together, permits bound the bodies that run, and a persistent job finds all other jobs joined |
| PipelineSafety.InteractiveBarrier | crates/action-pipeline/src/action_pipeline.rs:335-346 | whatever is dispatched after an interactive node finds that node and all earlier jobs joined |
| PipelineSafety.AllResultsReceived | crates/action-pipeline/src/action_pipeline.rs:183-217 | as many results as nodes means a result from every node |
| PipelineProgress.RunsAreFinite | crates/action-pipeline/src/action_pipeline.rs:280-341 | every run is bounded by a measure of the graph, whatever the interleaving |
| PipelineProgress.CanStep | crates/action-pipeline/src/action_pipeline.rs:289-297 | a run that has not ended can always take a step other than a signal |
| PipelineProgress.MaximalRunCompletes | crates/action-pipeline/src/action_pipeline.rs:280-346 | a run without abort or cancel that cannot go on has dispatched, run and completed every node, with exactly one result each |
| GraphBuilder.HasPath | crates/action-graph/src/action_graph_builder.rs:1524-1531 | decides whether one node reaches another |
| GraphBuilder.ActionGraphBuilder.LinkRequirements | crates/action-graph/src/action_graph_builder.rs:1516-1545 | fails exactly when a missing edge would close a cycle; on success adds exactly the edges asked for; the graph stays acyclic |
| GraphBuilder.ActionGraphBuilder.TryLinkRequirements | crates/action-graph/src/action_graph_builder.rs:1604-1618 | adds a serial edge and records it, unless it exists or would close a cycle |
| GraphBuilder.ActionGraphBuilder.CollectSubtree | crates/action-graph/src/action_graph_builder.rs:1562-1591 | the stack walk lists exactly the task nodes reachable along non-serial edges, each once |
| GraphBuilder.ActionGraphBuilder.TryLinkEach | crates/action-graph/src/action_graph_builder.rs:1593-1595 | linking one node after another decides as checking all against the graph before the first |
| GraphBuilder.ActionGraphBuilder.LinkSerialRequirements | crates/action-graph/src/action_graph_builder.rs:1562-1596 | exactly the subtree is ordered after the previous dependency except where that would close a cycle; the graph stays well formed |
| Builds.SerialOrder | crates/action-graph/src/action_graph_builder.rs:1547-1561 | afterwards each node of the subtree requires the previous dependency directly or is reachable from it |
| Builds.EdgesIntoKeepAcyclic | crates/action-graph/src/action_graph_builder.rs:1598-1618 | any number of edges into one node from nodes it does not reach close no cycle |
| GraphBuilder.ActionGraphBuilder.InternalSyncProject | crates/action-graph/src/action_graph_builder.rs:1422-1477 | returns a node exactly for enabled, affected projects off the current path; a new node is linked to exactly the workspace sync and its dependencies; never reports a cycle, even if projects depend on each other in a cycle |
| GraphBuilder.ActionGraphBuilder.SyncProjectDependencies | crates/action-graph/src/action_graph_builder.rs:1454-1470 | syncs exactly the enabled, affected dependencies off the current path, and nothing comes to require a project on it |
| GraphBuilder.ActionGraphBuilder.PrepareTask | crates/action-graph/src/action_graph_builder.rs:1142-1153 | a task requires its project sync and installs, or else the workspace sync, and nothing more |
| GraphBuilder.ActionGraphBuilder.InternalRunTask | crates/action-graph/src/action_graph_builder.rs:1037-1183 | returns a node exactly for affected tasks that run; for acyclic dependencies a cycle is reported exactly when an existing node is to be linked and something it needs comes after it; every task added was asked for; a filtered task passes the request on exactly if it is first met in scope |
| GraphBuilder.ActionGraphBuilder.BypassTask | crates/action-graph/src/action_graph_builder.rs:1071-1090 | a task filtered out in CI gets no node; its dependents are followed exactly if this visit has them in scope, and otherwise it is lost |
| GraphBuilder.ActionGraphBuilder.CatchUp | crates/action-graph/src/action_graph_builder.rs:1109-1140 | an existing node catches up on dependencies and dependents that were out of scope when it was created; fails exactly when something it needs comes after it |
| GraphBuilder.ActionGraphBuilder.InsertTask | crates/action-graph/src/action_graph_builder.rs:1142-1182 | a new node is linked to its setup and, in scope, to its dependencies; its dependents are followed or noted as ignored |
| GraphBuilder.ActionGraphBuilder.RequireDependencies | crates/action-graph/src/action_graph_builder.rs:1156-1171 | for acyclic dependencies, linking a task to its requirements fails exactly when one of them came after the task before its dependencies were run |
| GraphBuilder.ActionGraphBuilder.RunTaskDependencies | crates/action-graph/src/action_graph_builder.rs:759-803 | returns the nodes of exactly the dependencies that run, in order; serially, each subtree is ordered after the dependency before it, and every serial edge orders the dependencies of some task in the graph that is not parallel |
| GraphBuilder.ActionGraphBuilder.OrderDependency | crates/action-graph/src/action_graph_builder.rs:780-797 | one more serial dependency is ordered with its whole subtree after the last one; for a parallel task nothing changes |
| GraphBuilder.ActionGraphBuilder.RunTaskDependents | crates/action-graph/src/action_graph_builder.rs:806-831 | every dependent that is affected is in place, with its own dependents in a deep scope, or marked as filtered |
| GraphBuilder.ActionGraphBuilder.RunTasks | crates/action-graph/src/action_graph_builder.rs:700-706 | the whole build: which requests report a cycle; the graph is acyclic and well formed; it has exactly the tasks that are expected without passing a lost task, where only losable tasks are lost, hence exactly those expected if the request is unhindered; what the first target is sure to lose is lost, and nothing expected only through it is in the graph; links every task to its dependencies; orders serial dependencies with their subtrees; every edge between tasks is a dependency, or orders consecutive dependencies of a task in the graph that is not parallel |
| BuildSteps.SerialReasons | crates/action-graph/src/action_graph_builder.rs:780-797 | serial links have as their reason the task, in the graph and not parallel, whose dependencies they order |
| Delivery.ParallelIsExact | crates/action-graph/src/action_graph_builder.rs:763-803 | with a deep scope and parallel tasks only, the edges between tasks are exactly their dependencies |
| Builds.ExpectedInPlace | crates/action-graph/src/action_graph_builder.rs:759-831 | when nothing is open, every task that the request asks for without passing a lost task has its node |
| Builds.ExactTasks | crates/action-graph/src/action_graph_builder.rs:1055-1090 | when nothing is open, the tasks with a node are exactly those expected without passing a lost task, and those expected at all if the request is unhindered |
| Requests.UnhinderedExact | crates/action-graph/src/action_graph_builder.rs:1055-1090 | if no filtered task that must pass the request on can be met, other than through itself, in a way that loses it, lost tasks change nothing |
| Requests.OnlyFilteredUnhindered | crates/action-graph/src/action_graph_builder.rs:1055-1090 | a request for the only filtered task loses nothing |
| Requests.LostIsLosable | crates/action-graph/src/action_graph_builder.rs:1055-1090 | what a request is sure to lose by starting with a target can be lost |
| Requests.LosableIsLost | crates/action-graph/src/action_graph_builder.rs:1055-1090 | with a direct downstream scope, what can be lost is sure to be lost by starting with some target |
| Requests.UnhinderedIff | crates/action-graph/src/action_graph_builder.rs:1055-1090 | with a direct downstream scope, a request is unhindered if and only if no order of it is sure to lose a task that must pass it on |
| BuildSteps.LosesMarked | crates/action-graph/src/action_graph_builder.rs:1071-1090 | once a task is linked and nothing else is open, every filtered task met below it was followed before or is lost |
| Delivery.LosesBehind | crates/action-graph/src/action_graph_builder.rs:1071-1090 | with a deep upstream scope, a filtered task that is met below a dependent of the first target, and not followed, is lost |
| Delivery.HistoryProgresses | crates/action-graph/src/action_graph_builder.rs:700-706 | what is known after each target, for every way the targets can be run one after the other |
| Delivery.NotBlocked | crates/action-graph/src/action_graph_builder.rs:1109-1131 | when its turn comes, no target of an orderly request is blocked, and one of a simple request only if it clashes |
| Delivery.Delivered | crates/action-graph/src/action_graph_builder.rs:700-706 | everything that a build promises once it ran all its targets |
| Wiring.ReachedBefore | crates/action-graph/src/action_graph_builder.rs:759-803 | running the dependencies of a task, serial edges included, does not change whether one of them comes after it |
| DirectScope.OrderlyNotReached | crates/action-graph/src/action_graph_builder.rs:1109-1131 | in an orderly request nothing that the next target needs comes after it |
| DirectScope.ChainIsTight | crates/action-graph/src/action_graph_builder.rs:1598-1618 | a serial target whose dependencies are not linked yet makes each of them require the one before it |
| DirectScope.AsPlannedMore | crates/action-graph/src/action_graph_builder.rs:780-797 | one more target, parallel, or serial with dependencies that nothing planned leads out of, adds exactly the edges planned for it |
| DirectScope.ReachedAsPlanned | crates/action-graph/src/action_graph_builder.rs:1524-1531 | whether something that a target needs comes after it shows in the plan of the targets before it |
| DirectScope.PlansMore | crates/action-graph/src/action_graph_builder.rs:759-803 | as long as the targets are simple the edges between tasks are the planned ones, and those of the longest simple beginning stay |
| DirectScope.LinkedNeverClashed | crates/action-graph/src/action_graph_builder.rs:1109-1131 | a target that clashes with a simple beginning of the request is never linked |
| BuildLimits.ListedAfterSerial | crates/action-graph/src/action_graph_builder.rs:1109-1131 | with a direct scope, a task listed after a serial one that depends on it reports a cycle, and listed before it does not |
| BuildLimits.FilteredDependency | crates/action-graph/src/action_graph_builder.rs:1055-1090 | a filtered task listed after a dependent loses its other dependent, and listed before it does not |
| BuildLimits.FilteredDependent | crates/action-graph/src/action_graph_builder.rs:1055-1090 | with a direct downstream scope, a filtered target listed after one it depends on loses its dependent, and listed before it does not |
| Builds.SubtreeIsNeeds | crates/action-graph/src/action_graph_builder.rs:1562-1591 | with a deep scope the walk finds exactly what a task needs in the workspace, because no serial edge ever stands in for a dependency |
| EndToEnd.BuildIsRunnable | crates/action-graph/src/action_graph_builder.rs:180-221 | the finished graph of an acyclic build can be run |
| EndToEnd.RequirementsFirst | crates/action-pipeline/src/job_dispatcher.rs:49-56 | in every run, what a node requires in the build is completed before the node is dispatched |
| EndToEnd.DependenciesFirst | crates/action-graph/src/action_graph_builder.rs:788-797 | a linked task is dispatched only after every dependency that runs |
| EndToEnd.SerialSubtreesNeverOverlap | crates/action-graph/src/action_graph_builder.rs:780-797 | in every run, nothing that a serial dependency needs is in flight together with the dependency before it |
| AffectedTracking.AffectedTracker.Walk | crates/affected/src/affected_tracker.rs:258-362 | one walk adds exactly the marks of the items it visits, and in a deep scope it visits a set closed under the relation |
| AffectedTracking.AffectedTracker.WalkFrom | crates/affected/src/affected_tracker.rs:582-686 | a walk from scratch marks by reachability: everything reached, one hop, or nothing, by scope |
| AffectedTracking.AffectedTracker.WalkBoth | crates/affected/src/project_tracker.rs:46-75 | both walks from an affected item add exactly the related marks that are due to it |
| AffectedTracking.AffectedTracker.MarkAffected | crates/affected/src/affected_tracker.rs:549-580 | an item affected by itself gives rise to exactly its own mark, the marks of both walks, and the mark on its project |
| AffectedTracking.AffectedTracker.TrackItem | crates/affected/src/affected_tracker.rs:192-256 | an item with a direct mark is only walked from, with the same result |
| AffectedTracking.AffectedTracker.Track | crates/affected/src/affected_tracker.rs:142-152 | sequential tracking adds exactly the marks that are due; fails exactly when a check fails |
| AffectedTracking.AffectedTracker.TrackAlone | crates/affected/src/task_tracker.rs:24-32 | the tracker of one item on its own fails exactly when its check fails, and otherwise puts out exactly the marks due to the item |
| AffectedTracking.AffectedTracker.TrackPooled | crates/affected/src/affected_tracker.rs:390-438 | one tracker per item, whose marks are what the bounded pool puts out, merged in input order for every completion order, adds exactly the marks that are due; fails exactly when a check fails, and then a prefix was merged |
| AffectedTracking.AffectedTracker.Extend | crates/affected/src/affected_tracker.rs:176-185 | merging holds the marks of both and no others |
| AffectedTracking.TrackingAgrees | crates/affected/src/affected_tracker.rs:371-438 | sequential and pooled tracking yield the same maps, for every order of the items |
| AffectedTracking.MarksExplained | crates/affected/src/affected_tracker.rs:258-362 | what tracking adds, in the fields of the workspace: the reason of an item's own check, a mark of each affected task it owns, and one of each item that lists it and that a walk got to, by the scope that belongs to projects or tasks and to dependencies or dependents |
| Pool.RunPooledTasks | crates/async-utils/src/lib.rs:5-77 | for every completion order: outputs are those of a prefix of the inputs, in order and once each; success exactly when nothing fails, and then of all inputs; never more in flight than allowed |
| Pool.Flush | crates/async-utils/src/lib.rs:56-68 | completed outputs are applied as long as the next one in input order is there |
| Batching.PartitionIntoBatches | crates/cache-storage/src/helpers.rs:42-98 | the multiset of items is kept; exactly items of size + 300 >= limit are streamed, alone; other batches, with 300 bytes for each item, keep within the limit; their number is at most 3/2 of that of any other grouping |
| Batching.PackingBound | crates/cache-storage/src/helpers.rs:47-50 | first-fit-decreasing: twice the number of groups is at most three times that of any other grouping within the limit |
| Batching.Place | crates/cache-storage/src/helpers.rs:54-87 | first fit: one item goes to the first batch with room, to a new one only if none has, or alone into a stream; the packing is kept |
| Batching.FindRoom | crates/cache-storage/src/helpers.rs:70-73 | the first batch that is not streamed and has room |
| Batching.Number | crates/cache-storage/src/helpers.rs:90-95 | batches count from one and know their total |
| Batching.ChunkIntoBatches | crates/cache-storage/src/helpers.rs:107-146 | the items in order, at most one batch per hundred begun and 512 in all, at most 100 items each unless there are too many |
| Batching.CreateBatches | crates/cache-storage/src/helpers.rs:148-158 | every item is in exactly one nonempty batch; with a limit the batches are packed and keep it, without one they are chunks of the items in order |
| Sequences.SortDecreasing | crates/cache-storage/src/helpers.rs:50 | sorts by key, largest first, keeping the multiset |
| Persist.Deduplicate | crates/cache-storage/src/storage_backend.rs:147-152 | each digest once |
| Persist.Retain | crates/cache-storage/src/storage_backend.rs:190-192 | exactly the inputs that were reported missing, each once |
| Persist.Backend.FindMissingBlobsBatched | crates/cache-storage/src/storage_backend.rs:76-128 | for an honest backend every absent digest is reported, in whatever order the batches end, and what is returned was reported by the backend |
| Persist.Backend.StoreEach | crates/cache-storage/src/storage_backend.rs:194-230 | what is counted as uploaded is present and was asked for, no more often than asked |
| Persist.Backend.StoreBlobsBatched | crates/cache-storage/src/storage_backend.rs:142-256 | success by count means that every input is present, even if the missing list has duplicates or extras; only inputs that the backend reported missing are uploaded, each at most once; a reliable backend succeeds |
| Persist.Backend.PersistManifest | crates/cache-storage/src/storage.rs:512-554 | a manifest is stored only if all its blobs are present; no manifest ever dangles; a reliable backend gets its manifest |
| Persist.AllUploaded | crates/cache-storage/src/storage_backend.rs:242-243 | as many uploads as inputs, none foreign or repeated, are all the inputs |
| Eviction.EvictManifests | crates/cache-local/src/local_storage.rs:237-307 | newest first, each manifest is evicted exactly when it is past its lifetime or its marginal size does not fit beside what is kept; counts what was removed |
| Eviction.Absorb | crates/cache-local/src/local_storage.rs:296-302 | each hash is kept and counted once |
| Eviction.KeptWithinBudget | crates/cache-local/src/local_storage.rs:272-306 | at every point the kept blobs, each hash counted once, are within the budget, although the marginal size may count a hash twice |
| Eviction.FreeIsNotEvicted | crates/cache-local/src/local_storage.rs:229-236 | a manifest within its lifetime whose blobs are all kept is never evicted |
| Eviction.SurvivorIsKept | crates/cache-local/src/local_storage.rs:295-303 | the blobs of a surviving manifest are in the keep set |
| Eviction.KeptHasSurvivor | crates/cache-local/src/local_storage.rs:295-303 | the keep set holds nothing that no surviving manifest refers to |
| Collection.LocalStorage.LoadEntries | crates/cache-local/src/local_storage.rs:251-270 | the readable manifests, each once |
| Collection.LocalStorage.RemoveEvicted | crates/cache-local/src/local_storage.rs:291-294 | the evicted files go, and no others |
| Collection.LocalStorage.Retain | crates/cas/src/gc.rs:107-171 | the sweep leaves exactly the blobs that are kept or within the grace window |
| Collection.LocalStorage.Gc | crates/cache-local/src/local_storage.rs:95-121 | a blob goes exactly when it is past the grace and no surviving readable manifest refers to it; unreadable manifests stay; stale manifests go; without a budget no others do; with one, the distinct blobs of the survivors are within it, a fresh manifest goes only if it does not fit beside survivors at least as new, and none goes if all fresh ones fit together |
| Collection.LeftWithinSize | crates/cache-local/src/local_storage.rs:272-306 | the distinct blobs of the readable manifests left behind are within the budget |
| Collection.GoneForReason | crates/cache-local/src/local_storage.rs:286-294 | a stale manifest goes; a fresh one goes only if what it adds to distinct blobs of survivors at least as new exceeds the budget |
| Collection.AllThatFitsStays | crates/cache-local/src/local_storage.rs:229-236 | if all fresh manifests fit together, each hash listed once and always with one size, none of them goes |
| Collection.KeptIsRooted | crates/cache-local/src/local_storage.rs:107-115 | the keep set is exactly what the manifests left behind refer to |
| CollectionRace.StepInv | crates/cas/src/gc.rs:107-171 | every careful step of any persist or collection keeps every blob that a manifest or a persist counts on, and keeps it out of reach of every sweep |
| CollectionRace.CarefulRunsStayComplete | crates/cache-local/src/local_storage.rs:95-121 | careful steps, however they interleave, lead to no manifest that misses a blob |
| CollectionRace.CarefulFromEmpty | crates/cache-local/src/local_storage.rs:95-121 | in every careful run from an empty cache no manifest ever misses a blob |
| CollectionRace.CareIsNeeded | crates/cas/src/gc.rs:102-106 | every careful continuation keeps all manifests complete if and only if the step was careful: what it counts on is in the keep set or within the grace window, and not about to be removed |
| CollectionRace.CarelessIsMissed | crates/cas/src/gc.rs:107-171 | after a careless step, careful steps can lead to a manifest that misses a blob |
| CollectionRace.FinishPersist | crates/cache-storage/src/storage.rs:512-554 | a persist that counts on a missing blob can write the others and store its manifest all the same |
| CollectionRace.OldBlobIsLost | crates/cache-local/src/local_storage.rs:161-173 | a run in which a blob found present with an old time is swept before its manifest is stored |
| DaemonOwnership.StepInv | crates/daemon-server/src/daemon_server.rs:397-435 | lock holders and endpoint files agree after every step of any process, including crashes and kills |
| DaemonOwnership.Ownership | crates/daemon-utils/src/lock.rs:28-51 | in every run at most one process acts as the owner and one as the spawner; a serving daemon holds the lock and its endpoint is its own |
| DaemonOwnership.OnlyOwnerTouchesEndpoint | crates/daemon-server/src/daemon_server.rs:415-435 | only the holder of the ownership lock creates or removes the socket and the state file |
| DaemonOwnership.ServingEndpointIsSafe | crates/daemon-server/src/daemon_server.rs:489-533 | no other process changes the endpoint of a serving daemon |
| DaemonOwnership.BindFindsNoSocket | crates/daemon-server/src/daemon_server.rs:415-424 | a server that got to binding never finds a leftover socket |
| DaemonOwnership.OnlySpawnerSpawns | crates/daemon/src/connector.rs:239-305 | a server is spawned only by the holder of the spawn lock, and starts without the ownership lock |
| DaemonOwnership.StopMeansGone | crates/daemon/src/connector.rs:308-375 | when a stop has cleaned up, no server owns the workspace and its endpoint is gone |
| DaemonProgress.NothingToDo | crates/daemon/src/connector.rs:244-275 | a start that looks while a daemon accepts connections, a stop that finds neither a daemon nor its record, and a server that finds the lock taken are over |
| DaemonProgress.SpawnWasNeeded | crates/daemon/src/connector.rs:270-293 | whoever spawns a server found twice that no daemon accepted connections, the second time with the spawn lock |
| DaemonProgress.StartCanSucceed | crates/daemon/src/connector.rs:239-305 | from every state of every run with a start that has yet to look, there is a way to a daemon that accepts connections |
| DaemonProgress.StartAloneSucceeds | crates/daemon/src/connector.rs:239-305 | with both locks free the steps of the start and of the server it spawns are enough |
| DaemonProgress.StopCanSucceed | crates/daemon/src/connector.rs:308-375 | a stop that sizes up a serving daemon can clean up without killing it |
| DaemonProgress.StopCanForce | crates/daemon/src/connector.rs:341-357 | it can clean up even if the daemon takes no step, by killing it |
| DaemonProgress.StopCleansLeftovers | crates/daemon/src/connector.rs:309-317 | a stop that finds only the record of a daemon that is gone cleans up on its own |
| DaemonOwnership.Acquire | crates/daemon/src/connector.rs:132-171 | a daemon is stopped at most once, and a client is acquired exactly when the first or, after one restart, the second handshake accepts |
| Slicing.SliceIsChunk | crates/action-graph/src/action_graph_builder.rs:673-695 | a job that starts inside the list gets the next `size` tasks or what is left |
| Slicing.SlicePastEnd | crates/action-graph/src/action_graph_builder.rs:650-695 | a job that starts past the end keeps the whole list, and a job index from the total on is refused |
| Slicing.SlicesAddUp | crates/action-graph/src/action_graph_builder.rs:673-695 | such jobs get consecutive disjoint slices that add up to a prefix of the list |
| Slicing.JobsPartition | crates/action-graph/src/action_graph_builder.rs:647-697 | together the jobs run every task exactly once, as multisets, if and only if the last job starts inside the list, and then in order |
| Slicing.JobsRunTimes | crates/action-graph/src/action_graph_builder.rs:647-697 | how often the list is run: once by the jobs that start inside it, and once by each of the others |
| Slicing.LastJobRepeats | crates/action-graph/src/action_graph_builder.rs:689-695 | five tasks over four jobs: the last job runs all five |

## Left out

- GraphBuilder.ActionGraphBuilder.RunTasks: for a direct upstream scope and a serial target with repeated dependencies, or one that depends on an earlier target which has dependencies, or on a later dependency of an earlier serial target, the condition for a cycle to be reported is exact for each visit, and only sufficient or necessary in terms of the request, because which serial edges are left out depends on the graph so far.
- Requests.UnhinderedIff: with a deep downstream scope being unhindered is sufficient, not necessary, because whether a filtered task is first met as a dependent or as a dependency then depends on the order of the recursion.
- GraphBuilder.ActionGraphBuilder.PrepareTask: install, environment and toolchain actions are opaque leaves, because they come from plugins that are not part of this model.
- GraphBuilder.ActionGraphBuilder.InternalSyncProject: which projects are affected is a fixed set, while the code also marks projects as it asks about them.
- Pool.RunPooledTasks: what an input, its future and its output do are functions of the input, so futures that share state are not captured.
- AffectedTracking.AffectedTracker.Track: which files and variables affect an item is a parameter; glob matching and file contents are not modelled.
- Persist.Backend.StoreBlobsBatched: blobs are their digests; transport, compression and content are not modelled, and nothing is removed while a persist runs (that is in `CollectionRace`).
- Collection.LocalStorage.Gc: files that cannot be removed and temporary files are not modelled.
- DaemonOwnership.Ownership: covers Unix sockets, not named pipes; timeouts are steps that may happen at any time, and a client that only waits for a connection is not followed further.
- `transitive_reduce` and the topological sort of the graph library: taken by specification, not implemented.
- Resolving targets by query or glob, execution plans, and the project and task graphs themselves.
- Retrieving blobs and hydrating manifests from several backends.
- Connection retries with backoff, idle shutdown, file watching and webhooks of the daemon.
- Pipeline subscribers, console output, process signals beyond the two tokens, and job panics.
- Arithmetic is unbounded except where the code converts a signed size.
