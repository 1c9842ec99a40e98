# The deterministic control plane, modelled and proved

This project models the parts of the repository that promise a definite outcome in spite of goroutine
scheduling, map iteration, arrival order, interruption and failure, and proves those promises. It has
one module per component; each file starts with a line on what it holds.

- **Dependency graphs** (`TopologicalOrder`, `Kahn`, `Planner`, `WorkflowCompiler`): both Kahn sorts
  against one definition of the least topological order.
- **Workflow runs** (`WorkflowRuntime`, `WorkflowResume`, `WorkflowDiscipline`, `WorkflowAnswers`): the
  runtime's loops against a recursive run, how steps end by the runner's answers and their policies, and
  what stopping at gates and resuming changes: nothing.
- **Scheduler** (`Gate`, `Assignment`, `SchedulerCore`, `SchedulerSystem`, `SchedulerConfluence`,
  `SchedulerOutcome`, `SchedulerAnswers`, `SchedulerErrors`, `SchedulerGates`, `Scheduler`): the critical sections under the scheduler's lock
  as atomic steps, interleaved in every order; safety with every failure the code allows for, and,
  without failures, confluence, termination and the meaning of the report. Approvals and rejections
  take no scheduler lock; `SchedulerGates` says what becomes of those that fall into a section.
  `SchedulerAnswers` says what sections and runs answer by the worker's results and the single gates.
  `SchedulerErrors` says when a dispatch that ends in an error makes the report depend on the schedule.
  `Scheduler` has the same sections as methods of an object and the loop of `Run` over them, with the
  choice of the next goroutine left open.
- **Tool host** (`Host`, `HostLinear`, `HostFifo`): single-flight idempotency with a bounded cache,
  linearized to one small cell per key, and which results the cache forgets.
- **Sync** (`Revision`, `Queue`, `Transfer`): one-way diff and apply with tombstones, two-sided
  reconciliation, resumable chunked transfer.
- **Derived views** (`VisualSession`, `VisualNames`, `Replay`, `Journal`, `Subscriptions`, `RecordStore`,
  `RecordWriters`): what is derived from an event stream or a record store agrees with it, live and
  after a restart; and what becomes of that with several writers at once.
- **Context bundles** (`ContextCompiler`): a greedy fill under a token budget.

Identifiers are places in the byte order of strings (`Ordering.Id`, the empty string least), except in
`VisualSession`, where node identities are built by concatenating strings. Hashes, workers, runners,
gates' answers, layouts, event and record validators are functions handed in; `Injective` is required of
a hash only where a statement needs it. File writes put down everything or nothing, and whether one
succeeds is an argument.

Where the code and its own words differ, the model follows the code:

- A conditional step is said to need a non-empty condition (toolbox/workflow/compile.go:134-138). The
  check lets an empty one pass, and a step without any configuration (`WorkflowCompiler.ConditionsIff`).
- A failed workflow run returns its state so that it can be resumed (toolbox/workflow/runtime.go:128-129).
  The step that failed has no attempt left, and the resumed run reads an error that was never set
  (`WorkflowResume.CrashesIff`, `WorkflowResume.FailedRunCannotGoOn`).
- The report of `Run` is said not to depend on goroutine scheduling (kernel/scheduler/run.go:22-23). It
  does when a batch has a dispatch that ends in an error and one that does not
  (`SchedulerErrors.ReportIsFixedIff`); without errors it does not (`SchedulerOutcome.RunIsConfluent`).
- Graphs and frames are said not to depend on delivery order (visualizer/session/session.go:4-6,
  visualizer/replay/replay.go:8-9). Different events that share a sequence keep the order in which they
  arrived (`VisualSession.ArrivalOrderIff`), and the graph can show it (`VisualSession.TieShowsInGraph`).
- Ties in the change queue are said to be settled by node (sync/queue/queue.go:28-29). Two different
  changes of one path, revision and node keep whichever came first (`Queue.OneQueueIff`).
- A node's identity is its kind, a colon and its reference (visualizer/session/session.go:19-22). Kinds with
  a colon can share one (`VisualNames.ColonsCollide`); without one every name has its own node.
- A journal's sequences need not be unique: after a failed write and a reopen one is given again that
  live subscribers have already seen (`Journal.SequenceReusedIff`).
- A record's revision is said to be monotonic (docs/adr/ADR-0019-record-identity-is-kind-id-with-a-monotonic-revision-the-hash.md:1).
  Two writers of one record can take it back, and leave the view behind (`RecordWriters.GoesBackIff`,
  `RecordWriters.FollowsIff`).
- Subscriptions are said to deliver in sequence order (obsv/journal/journal.go:25-27). They need not:
  `LiveOvertakesBacklog` and `LiveOvertakesLive` reach the two ways it fails, and `OrderlyExactly` gives
  the exact discipline under which it holds.
- `Subscribe` sends its backlog outside the lock into a buffer shared with live deliveries; enough of
  those, never fewer than 65, block it for as long as the journal is open (`BacklogFitsIff`,
  `SubscribeGetsStuck`, `StuckStays`).
- A rejection is said to be terminal (kernel/gate/gate.go:79-80). One that falls into a section whose
  gates have already passed does not stop it (`SchedulerGates.RejectedCompletesIff`).
- Bundles are said to take their inputs by kind and id (kernel/context/compiler.go:63-65). With ties among
  the inputs that have text a bundle shows the order in which the inputs came, and how the sort, which
  does not promise to keep it, placed them (`ContextCompiler.OneBundleIff`).
- An older tombstone is not advanced by a sync (`Revision.DiffEmptyAfterApply` says exactly when a
  second Diff is empty).
- The fallback for an empty truncation (kernel/context/compiler.go:97-100) is never taken:
  `ContextCompiler.TruncationFits`.

## Model

| member | source | states |
|---|---|---|
| `TopologicalOrder.GreedyIsLeastOrder` | kernel/allocator/planner/planner.go:125-163 | the order emitted by taking the least ready identifier each time is a topological order whenever one exists, and the lexicographically least of them |
| `TopologicalOrder.GreedyDecides` | kernel/allocator/planner/planner.go:127-163 | that order has all the nodes exactly when the graph can be ordered at all |
| `TopologicalOrder.OrderableIffAcyclic` | toolbox/workflow/compile.go:91-132 | a dependency graph can be ordered exactly when no dependency is missing and there is no cycle (walks and cycles are defined independently of any sort) |
| `TopologicalOrder.GreedyAnswers` | toolbox/workflow/compile.go:127-131 | the length test that ends both sorts tells the acyclic graphs from the others |
| `Kahn.Release` | toolbox/workflow/compile.go:114-122 | decrementing the indegree of every child keeps the indegree table counting the unmet dependencies and the queue holding exactly the ready nodes |
| `Kahn.TakeHead` | toolbox/workflow/compile.go:109-124 | one turn takes the least ready node and moves both invariants to the larger set of emitted nodes |
| `Kahn.Drain` | kernel/allocator/planner/planner.go:143-158 | the shared Kahn loop computes the greedy order |
| `Planner.Tabulate` | kernel/allocator/planner/planner.go:128-142 | the indegree table counts repeated dependencies with their repetitions and the children lists are their inverse |
| `Planner.Graph.Add` | kernel/allocator/planner/planner.go:55-71 | rejects an empty or duplicate identifier without a change; otherwise stores the package, Proposed unless it has a state, and appends it to the insertion order |
| `Planner.Graph.SetState` | kernel/allocator/planner/planner.go:166-175 | changes exactly the state of a known package |
| `Planner.Graph.ReadyIds` | kernel/allocator/planner/planner.go:179-202 | lists exactly the waiting packages whose dependencies are all completed, each once, in identifier order |
| `Planner.ReadyListUnique` | kernel/allocator/planner/planner.go:177-202 | the ready list is determined by the nodes: insertion order does not show |
| `Planner.Graph.Topological` | kernel/allocator/planner/planner.go:121-163 | succeeds exactly on closed acyclic graphs and then returns the least topological order, repeated dependencies and insertion order notwithstanding |
| `Planner.Graph.Validate` | kernel/allocator/planner/planner.go:96-118 | accepts exactly the closed acyclic graphs, and each error names a real self-dependency, missing dependency or cycle |
| `WorkflowCompiler.CollectDeps` | toolbox/workflow/compile.go:51-69 | a step is refused exactly for depending on itself or on an unknown step; otherwise its dependencies are returned sorted, each once |
| `WorkflowCompiler.Invert` | toolbox/workflow/compile.go:94-102 | ranging over the map in any order builds the indegree table and its inverse |
| `WorkflowCompiler.StartingSteps` | toolbox/workflow/compile.go:103-109 | the steps without dependencies, sorted |
| `WorkflowCompiler.TopoOrder` | toolbox/workflow/compile.go:93-132 | succeeds exactly on closed acyclic graphs, with the least topological order; its only error is the cycle |
| `WorkflowCompiler.Compile` | toolbox/workflow/compile.go:30-89 | succeeds exactly on workflows that meet the contract (contracts/go/v2/workflow.go:29-63), whose steps are well formed and whose dependencies are known and acyclic; the plan is the least-order plan of the workflow |
| `WorkflowCompiler.PlanUnique` | toolbox/workflow/compile.go:23-30 | two plans of the same workflow are equal: the order in which steps and dependencies are written leaves no trace |
| `WorkflowCompiler.CompilesByFields` | toolbox/workflow/compile.go:31-70 | which workflows compile, said by the fields of steps: tool steps name a tool, gate steps a gate, retries are not negative, parallel steps configured with a positive whole number and conditional ones with a text, identifiers and kinds accepted and no identifier twice, dependencies known and acyclic |
| `WorkflowCompiler.ConditionsIff` | toolbox/workflow/compile.go:134-140 | every conditional step of an accepted workflow has a non-empty condition exactly when none of them leaves its configuration out or gives an empty text |
| `WorkflowCompiler.ConditionUnread` | toolbox/workflow/compile.go:178-188 | a workflow that compiles still does when the condition of a conditional step is emptied or its configuration taken away |
| `WorkflowCompiler.EmptyConditionCompiles` | toolbox/workflow/compile.go:141-151 | such workflows exist: one conditional step with an empty condition |
| `WorkflowRuntime.Runtime.Attempt` | toolbox/workflow/runtime.go:220-236 | the retry loop makes attempts until one succeeds or none is left, counting them in the step's result |
| `WorkflowRuntime.Runtime.RunWithPolicy` | toolbox/workflow/runtime.go:199-238 | attempts, then the failure policy: skip and compensate make the step terminal, the others fail the run |
| `WorkflowRuntime.Runtime.Run` | toolbox/workflow/runtime.go:130-190 | for every prior state, attempts used up or not, the loop over the plan equals the recursive run, in its final state, its error and its log of runner and undo calls and of the metric records, gate evaluations among them |
| `WorkflowRuntime.TryFrom` | toolbox/workflow/runtime.go:205-218 | with an attempt left at least one is made and never more than retries plus one; with none left none is made |
| `WorkflowResume.SplitRun` | toolbox/workflow/runtime.go:146-189 | continuing from the state a closed gate left behind is continuing the uninterrupted run |
| `WorkflowResume.StoppedIsResumable` | toolbox/workflow/runtime.go:156-172 | a run stopped at a closed gate goes on from the state it returned, and stopping never uses up the last attempt of a step |
| `WorkflowResume.ResumeEquivalence` | toolbox/workflow/runtime.go:130-190 | any number of stops at withheld gates and resumptions makes the same concatenated runner calls, and ends in the same state and error, as one run with those gates open |
| `WorkflowResume.ResumedRunIsOpenRun` | toolbox/workflow/runtime.go:130-190 | sessions that get past every gate did what a run with every gate open does |
| `WorkflowResume.SessionsStatus` | toolbox/workflow/runtime.go:156-172 | the last session ends awaiting approval exactly when its error says so |
| `WorkflowResume.CrashesIff` | toolbox/workflow/runtime.go:199-236 | the runtime crashes at a step, reading an error that was never set, exactly when the run gets there, the step has used up its attempts, and no refused undo is there to report instead |
| `WorkflowResume.ResumableNeverCrashes` | toolbox/workflow/runtime.go:130-190 | with an attempt left on every unfinished step no run crashes |
| `WorkflowResume.FailedRunCannotGoOn` | toolbox/workflow/runtime.go:128-130 | the state a failed run returns cannot be resumed: under any gates the next run crashes at the step that failed, or fails there again when its undo is refused |
| `WorkflowDiscipline.NeverUnsatisfied` | toolbox/workflow/runtime.go:146-155 | with a compiled plan the dependencies-not-satisfied exit is unreachable, and a run without error leaves every step terminal |
| `WorkflowDiscipline.RunCallsWait` | toolbox/workflow/runtime.go:254-262 | the runner is called on a step only when all its dependencies are terminal |
| `WorkflowDiscipline.AttemptsConsecutive` | toolbox/workflow/runtime.go:205-218 | attempt numbers given to the runner are consecutive from the attempts already spent and never exceed the retries allowed |
| `WorkflowDiscipline.CompiledRunsInOrder` | toolbox/workflow/compile.go:30-132 | the three properties together for every plan Compile returns and every prior state |
| `WorkflowAnswers.TriesAnswer` | toolbox/workflow/runtime.go:205-218 | the attempts made end at the first that succeeds, or are all that the step is granted: one, and one more for each retry |
| `WorkflowAnswers.StepAnswers` | toolbox/workflow/runtime.go:199-238 | with an attempt left a runner step ends complete exactly when one of its attempts succeeds, skipped exactly when all fail and the policy is skip, compensated exactly when all fail, the policy is compensate and an undo exists and is not refused, and failed otherwise, an absent policy included |
| `WorkflowAnswers.UndoAnswers` | toolbox/workflow/runtime.go:224-233 | the undo is called once, with the earlier output, exactly when a step to be compensated fails for good and there is an undo |
| `WorkflowAnswers.RecordAnswers` | toolbox/workflow/runtime.go:146-190 | every step the run works on leaves one metric record with its attempts and whether it is finished, unless it crashes |
| `WorkflowAnswers.RunAnswers` | toolbox/workflow/runtime.go:130-238 | every step a run finishes was passed by its gate or has one of those three reasons; a run stops only at a step held by its gate, failed for good, crashed or with an unfinished dependency, with the matching status; without an error it finished its whole order; earlier finished results stay |
| `WorkflowAnswers.RunStartsFrom` | toolbox/workflow/runtime.go:131-144 | a run goes on from the results, order and identity of the state it is given, or starts from nothing |
| `Gate.Evaluate` | kernel/gate/gate.go:112-131 | asks the same gates, each as often, in the order of their names; passes when every gate passes and is pending when some gate is, whatever the others say |
| `Gate.SortGatesByName` | kernel/gate/gate.go:112-116 | the order the gates are asked in is by name and keeps every gate |
| `Gate.SameGatesSameOutcome` | kernel/gate/gate.go:108-131 | the outcome depends on the set of gates only |
| `Gate.PassesOrPends` | kernel/gate/gate.go:118-130 | a report never both passes and is pending |
| `Gate.RejectedNeverPasses` | kernel/gate/gate.go:72-102 | a rejected package never passes a set of gates with the human gate in it, whatever is approved |
| `Gate.Verdicts` | kernel/gate/gate.go:43-102 | the tests gate passes exactly when there are tests and all passed, and never pends; the human gate passes exactly what was approved and not rejected, and pends exactly what was neither |
| `Gate.HumanReview.RecordApproval` | kernel/gate/gate.go:73-77 | records the approval and leaves any rejection in place |
| `Gate.HumanReview.RecordRejection` | kernel/gate/gate.go:81-86 | records the rejection with its reason |
| `Assignment.RetryPlansNextAttempt` | kernel/scheduler/assignment.go:101-124 | expiry and retry keep the history a legal path; exactly the states that may go back to planned can be retried, as the next attempt and without a lease |
| `Assignment.TransitionKeepsHistoryLegal` | kernel/scheduler/assignment.go:32-94 | a transition succeeds exactly when the table allows it (or nothing changes) and the history stays a legal path through the table |
| `Assignment.TableIs` | kernel/scheduler/assignment.go:32-50 | the moves an assignment can make, one by one |
| `Assignment.AcceptedFromGates` | kernel/scheduler/assignment.go:32-50 | a legal history accepts from the gates only, and nothing follows acceptance or cancellation |
| `Scheduler.Scheduler.SetWorkPackageState` | kernel/scheduler/scheduler.go:470-485 | changes exactly that package's state |
| `Scheduler.Scheduler.BeginDispatch` | kernel/scheduler/scheduler.go:206-262 | the first critical section: route, create and lease the assignment, count the attempt, mark the package running; each early error leaves what it had already changed |
| `Scheduler.Scheduler.FinishDispatch` | kernel/scheduler/scheduler.go:303-357 | the second critical section: store the result, move the assignment, ask the gates, complete, fail or leave waiting |
| `Scheduler.Scheduler.TakeIn` | kernel/scheduler/scheduler.go:309-357 | the part of it after intake |
| `Scheduler.Scheduler.PassGates` | kernel/scheduler/scheduler.go:340-357 | accepts when every gate passes, waits when one is pending, and fails otherwise |
| `Scheduler.Scheduler.Resolve` | kernel/scheduler/scheduler.go:361-385 | asks the gates again for a package that awaits them and accepts, waits or fails |
| `Scheduler.Scheduler.ResetForRetry` | kernel/scheduler/run.go:88-97 | puts a failed package back to ready, and says whether it did |
| `Scheduler.Scheduler.RecordApproval` | kernel/scheduler/scheduler.go:388-394 | records an approval; it does not wait for the scheduler's lock |
| `Scheduler.Scheduler.RecordRejection` | kernel/scheduler/scheduler.go:397-403 | records a rejection; it does not wait for the scheduler's lock |
| `Scheduler.Scheduler.TakeOutcome` | kernel/scheduler/run.go:64-84 | counts one outcome, and retries or settles the package |
| `Scheduler.Scheduler.StartTurn` | kernel/scheduler/run.go:56-61 | a goroutine's first section keeps every package on its path and lowers the rank |
| `Scheduler.Scheduler.FinishTurn` | kernel/scheduler/run.go:56-61 | so do the worker's reply and its second section |
| `Scheduler.Scheduler.CollectTurn` | kernel/scheduler/run.go:64-84 | so does taking an outcome from the channel |
| `Scheduler.Scheduler.Turn` | kernel/scheduler/run.go:50-63 | any goroutine's next section keeps every package on its path and brings the run closer to its end |
| `Scheduler.Scheduler.AwaitBatch` | kernel/scheduler/run.go:50-84 | a batch ends, whatever order its goroutines take, with every package on its path |
| `Scheduler.Scheduler.Run` | kernel/scheduler/run.go:26-86 | terminates, and for every choice of the next goroutine returns the report and leaves the states that the recursion over the graph gives |
| `SchedulerSystem.StepKeepsSafe` | kernel/scheduler/scheduler.go:206-385 | every critical section, with every failure it allows, keeps the invariant and never takes back a completion |
| `SchedulerSystem.DependencySafety` | kernel/scheduler/run.go:41-63 | in every reachable state a running, completed or deficient package has all its dependencies completed, though readiness was computed in an earlier section; completed is never left |
| `SchedulerSystem.DependencySafetyFromFresh` | kernel/scheduler/scheduler.go:331-385 | from a fresh graph; and a completed package has an assignment that went Planned, Leased, Preparing, Running, Collecting, AwaitingGates, Accepted and a succeeded or partial result |
| `SchedulerSystem.OnlyPassingGatesComplete` | kernel/scheduler/scheduler.go:516-533 | a package becomes completed only in a section where its result is succeeded or partial and every gate passes |
| `SchedulerSystem.RejectionIsFinal` | kernel/gate/gate.go:81-102 | after a rejection no section that asks its gates completes the package, whatever approvals, retries and resolves follow |
| `SchedulerGates.SectionsAreWhole` | kernel/scheduler/scheduler.go:386-403 | decisions may fall into a section between its gates and its end: every state between sections is also reached with whole sections, each such decision moved behind its section |
| `SchedulerGates.AlwaysSafe` | kernel/scheduler/scheduler.go:331-358 | dependency safety holds in every state of that finer system, also in the middle of a section |
| `SchedulerGates.RejectedCompletesIff` | kernel/scheduler/scheduler.go:331-385 | a rejected package that is not completed can still become completed exactly when a section is under way whose gates passed for it when they were asked |
| `SchedulerGates.PastGatesAskedBefore` | kernel/gate/gate.go:81-102 | such a section asked its gates before the rejection |
| `SchedulerGates.RejectionMayComeTooLate` | kernel/scheduler/scheduler.go:397-403 | a rejection may fall into any section that is going to complete its package, which then ends rejected and completed |
| `SchedulerGates.CompletingSectionIsReached` | kernel/scheduler/scheduler.go:206-358 | sections like that are reached from a fresh graph |
| `SchedulerGates.DecisionsRecorded` | kernel/gate/gate.go:73-86 | after any decisions a package is rejected exactly when it ever was, and counts as approved exactly when it ever was and never rejected |
| `SchedulerConfluence.PackageStepPaths` | kernel/scheduler/scheduler.go:206-358 | in a run without faults every section leaves its package on the one path the worker's answers fix, and the other packages alone |
| `SchedulerConfluence.PackageStepCounts` | kernel/scheduler/run.go:64-84 | every section keeps the report counters equal to sums over the packages and lowers the rank of the run |
| `SchedulerOutcome.QuietProgress` | kernel/scheduler/run.go:26-86 | a run that is not over can always take a step |
| `SchedulerOutcome.SolutionUnique` | kernel/scheduler/run.go:22-25 | the recursive description of the accepted packages has one solution on a graph that can be ordered |
| `SchedulerOutcome.AcceptedAlongSolves` | kernel/scheduler/run.go:22-25 | and it has one, computed along any topological order |
| `SchedulerOutcome.FinalCounts` | kernel/scheduler/run.go:64-86 | at the end Accepted, Failed and Pending add up to the number of packages dispatched, and the whole report is the final one |
| `SchedulerOutcome.RunIsConfluent` | kernel/scheduler/run.go:22-86 | every finished run, under every interleaving and concurrency limit, has the states, assignments, results and report of the recursion over the dependency graph |
| `SchedulerOutcome.SchedulingIsInvisible` | kernel/scheduler/run.go:22-25 | two finished runs of one graph, under any two schedules and limits, end equal |
| `SchedulerOutcome.RunTerminates` | kernel/scheduler/run.go:37-86 | a run makes at most one dispatch per package and attempt, a bounded number of steps, and is never stuck |
| `SchedulerOutcome.UndispatchedIsBlocked` | kernel/allocator/planner/planner.go:179-202 | a package never dispatched has a transitive dependency that ended deficient or still awaits its gates |
| `SchedulerErrors.ReportIsFixedIff` | kernel/scheduler/run.go:50-84 | what Run has counted when a batch is over depends on the order in which its goroutines ran exactly when some dispatch of the batch ends in an error and another does not |
| `SchedulerErrors.UnmixedEnd` | kernel/scheduler/run.go:64-84 | otherwise the report is fixed: nothing counted when all end in errors, every outcome counted when none does |
| `SchedulerErrors.MixedEnds` | kernel/scheduler/run.go:64-68 | such a batch can end with nothing counted and with one outcome counted |
| `SchedulerErrors.EveryBatchStarts` | kernel/scheduler/run.go:46-62 | every batch Run starts is one of those |
| `SchedulerAnswers.BeginAnswers` | kernel/scheduler/scheduler.go:206-262 | the first section: without a worker nothing changes; with one the attempt is counted, and unless contract or record fails the package runs and the assignment is in progress with that worker, announced |
| `SchedulerAnswers.FinishAnswers` | kernel/scheduler/scheduler.go:303-357 | a recorded result completes the package exactly when it is good and every gate passes it, leaves it running and awaiting its gates exactly when it is good and some gate is pending, and makes it deficient exactly when it is not good or, with none pending, some gate does not pass |
| `SchedulerAnswers.OtherReplies` | kernel/scheduler/scheduler.go:263-330 | a worker that breaks down fails the attempt; a cancelled call cancels the assignment and a refused result changes nothing, both as errors |
| `SchedulerAnswers.UnrecordedAnswers` | kernel/scheduler/scheduler.go:325-350 | a record that cannot be written makes the section an error, announced, and takes nothing back |
| `SchedulerAnswers.UnrecordedReplies` | kernel/scheduler/scheduler.go:270-301 | the same for attempts that broke down or were cancelled |
| `SchedulerAnswers.ResolveAnswers` | kernel/scheduler/scheduler.go:361-385 | asking the gates again answers by the same three conditions; a package that does not await its gates is left alone |
| `SchedulerAnswers.UnrecordedResolve` | kernel/scheduler/scheduler.go:361-385 | and its record failing makes it an error without taking anything back |
| `SchedulerAnswers.CollectAnswers` | kernel/scheduler/run.go:64-84 | taking an outcome counts a dispatch and an attempt; a failed package goes back to ready while attempts are left and counts as failed when none is |
| `SchedulerAnswers.BatchAnswers` | kernel/scheduler/run.go:41-49 | a batch is the beginning of the sorted ready list, as long as concurrency allows |
| `SchedulerAnswers.NeverTooMany` | kernel/scheduler/run.go:27-50 | no more goroutines are ever under way than concurrency allows |
| `SchedulerAnswers.DependenciesCompleted` | kernel/scheduler/run.go:41-63 | in every state reached from a fresh graph, with any faults, what runs, is completed or deficient has all its dependencies completed, and what is completed has a good result and went through every stage |
| `SchedulerAnswers.RunByAnswers` | kernel/scheduler/run.go:22-86 | what a finished run means: a package was tried exactly when its dependencies completed, all its answers but the last were refused, it is completed, awaiting approval or deficient as its last answer and the gates say, and the report counts the packages in those states |
| `Host.StoredShape` | toolbox/host/host.go:216-228 | storing a new key adds it last and evicts exactly the oldest key when the cache is full, so the order list keeps naming the cached keys once each |
| `Host.LookupKeepsSound` | toolbox/host/host.go:115-140 | the first section keeps the tables sound: cached and in-flight keys disjoint, order list exact and within the limit |
| `Host.CompleteKeepsSound` | toolbox/host/host.go:153-171 | so does the second |
| `Host.Host.Consult` | toolbox/host/host.go:115-140 | the first section answers from the cache, waits for the call under way, refuses another input under the same key, or claims the key |
| `Host.Host.StoreLocked` | toolbox/host/host.go:216-228 | the in-place store and eviction loop equals the specification |
| `Host.Host.Publish` | toolbox/host/host.go:153-171 | the second section publishes the reply to waiters, caches a success and releases the key |
| `HostLinear.RunKeeps` | toolbox/host/host.go:115-171 | every interleaving of callers keeps the tables and the history of the simple object in agreement |
| `HostLinear.Linearizable` | toolbox/host/host.go:115-171 | every interleaving is explained by a legal history of one cell per key, in which each returned caller has exactly one operation with its key, input hash and response |
| `HostLinear.AnswersInTime` | toolbox/host/host.go:115-171 | a caller's operation takes effect between its start and its return and is never rewritten |
| `HostLinear.ReplayHasSource` | toolbox/host/host.go:115-140 | every replayed result is the output of an earlier execution with the same key and input hash, not dropped since |
| `HostLinear.SecondExecutionNeedsEviction` | toolbox/host/host.go:115-228 | no execution of a key starts after a success unless the result was evicted in between |
| `HostLinear.OneExecutionAtATime` | toolbox/host/host.go:128-171 | two executions of a key never overlap |
| `HostFifo.EveryRunIsFifo` | toolbox/host/host.go:216-228 | after every interleaving the order list is the order in which the keys still held succeeded, each drop having taken the oldest of one more than the limit |
| `HostFifo.DroppedInTurn` | toolbox/host/host.go:213-228 | a result is dropped exactly when as many other keys, all different, have succeeded after it as the cache holds |
| `HostFifo.ExecutedAgainAfterLimit` | toolbox/host/host.go:115-228 | so a key is executed again only after that many other keys have succeeded |
| `Revision.Set.Put` | sync/revision/revision.go:30-39 | an older revision never overwrites a newer one; the same or a newer one replaces the record |
| `Revision.Diff` | sync/revision/revision.go:71-98 | the loop over the sorted source paths computes the operations |
| `Revision.Apply` | sync/revision/revision.go:123-152 | the loop over the operations computes the new records, the count, the refusals and the error |
| `Revision.OnePass` | sync/revision/revision.go:71-152 | one pass refuses nothing, leaves paths absent from the source alone, never lowers a revision, and gives every path the source is not behind on the source's flag, and its record unless they agreed already or both were tombstones |
| `Revision.ConvergesExactly` | sync/revision/revision.go:71-152 | exactly when a path ends with the source's own record |
| `Revision.SecondPassIsIdle` | sync/revision/revision.go:123-152 | a second pass applies nothing and changes nothing |
| `Revision.DiffEmptyAfterApply` | sync/revision/revision.go:128-140 | Diff is empty after Apply exactly when the replica held no older tombstone for a path the source has deleted too |
| `Revision.OlderTombstoneIsNotAdvanced` | sync/revision/revision.go:134-140 | such a tombstone, as a concrete case |
| `Revision.OneMoreOperation` | sync/revision/revision.go:123-152 | for any operations, emitted by Diff or not: one older than the record it meets is refused, one that finds its own record or a deletion that finds a tombstone changes nothing, an empty path stops the whole, every other one is written |
| `Revision.RevisionsNeverFall` | sync/revision/revision.go:30-39 | whatever is applied, no record goes away and no revision goes down |
| `Revision.DiffFits` | sync/revision/revision.go:71-98 | Diff emits exactly the records the replica lacks, holds older, or holds with the other flag at the same revision, deletions for tombstones |
| `Transfer.Build` | sync/transfer/transfer.go:26-54 | refuses an empty id; otherwise the chunks tile the data end to end, none empty, each with its index, offset and hash |
| `Transfer.Push` | sync/transfer/transfer.go:170-196 | sends the chunks not held, in order, then a close; the first chunk its data do not cover stops it |
| `Transfer.PushedOfManifest` | sync/transfer/transfer.go:66-77 | with a manifest built from its own data a source never fails |
| `Transfer.Receiver.Accept` | sync/transfer/transfer.go:97-113 | stores exactly a chunk with a known index, the right length and the right hash |
| `Transfer.Receiver.Have` | sync/transfer/transfer.go:116-124 | lists the held indexes in order |
| `Transfer.Receiver.Missing` | sync/transfer/transfer.go:127-135 | lists the others in order |
| `Transfer.Receiver.Complete` | sync/transfer/transfer.go:146-158 | fails with chunks missing or a wrong whole hash, otherwise returns the chunks put end to end |
| `Transfer.Receiver.Run` | sync/transfer/transfer.go:228-256 | accepts chunk frames until a close, an unexpected frame, a bad chunk or the end of the connection |
| `Transfer.Transfer` | sync/transfer/transfer.go:258-272 | a transfer into a receiver with any verified chunks ends with the original data |
| `Transfer.CompleteIffHeld` | sync/transfer/transfer.go:146-158 | with an injective hash Complete returns the original data exactly when every chunk is held |
| `Transfer.AnyFramesComplete` | sync/transfer/transfer.go:97-158 | for any frames, reordered, repeated or wrong, Complete succeeds exactly when every index came with its right data, and then returns the original |
| `Transfer.SessionsKeepVerified` | sync/transfer/transfer.go:228-256 | over any interrupted sessions nothing unverified is held and nothing held is lost |
| `Transfer.PushSendsMissing` | sync/transfer/transfer.go:170-196 | the chunks a push sends are exactly the missing ones |
| `Transfer.ResumedTransferCompletes` | sync/transfer/transfer.go:170-256 | after any sessions over an unreliable source of frames one clean session sends exactly the missing chunks and returns the original |
| `Transfer.ListsSplit` | sync/transfer/transfer.go:116-135 | held and missing indexes are increasing and split the chunks between them |
| `Transfer.CompletionAnswers` | sync/transfer/transfer.go:146-158 | for any manifest and parts: not found exactly with a chunk missing, corrupt exactly when the whole has another hash |
| `Transfer.SessionAnswers` | sync/transfer/transfer.go:228-256 | a session holds for every index the last chunk that came before the first frame that does not verify, and that frame, or the end, decides its answer |
| `Transfer.PushAnswers` | sync/transfer/transfer.go:66-77 | for any manifest: a push succeeds exactly when the data cover every chunk to be sent, its frames carry the data their index names, and only one that succeeds closes |
| `Queue.Queue.Enqueue` | sync/queue/queue.go:30-48 | keeps the newer change of a path |
| `Queue.Queue.Pending` | sync/queue/queue.go:51-58 | lists the changes by path |
| `Queue.Queue.Drain` | sync/queue/queue.go:61-65 | lists them and empties the queue |
| `Queue.BestByPath` | sync/queue/queue.go:130-141 | the newest change of each path, or an error when a change has no path |
| `Queue.Reconcile` | sync/queue/queue.go:85-128 | places every path of the union in the list its two changes decide |
| `Queue.OneQueueIff` | sync/queue/queue.go:28-48 | every order of queueing the same changes gives one queue exactly when no path has two different newest changes of one revision and one node |
| `Queue.KeptIsNewest` | sync/queue/queue.go:30-48 | what a queue keeps at a path is one of the changes offered for it, and none of those is newer |
| `Queue.KeptIsHighest` | sync/queue/queue.go:43-48 | it has the highest revision offered for the path, and the greatest node among those |
| `Queue.EachPathOnce` | sync/queue/queue.go:85-128 | each path of the union is in exactly one list, once; no other path is in any |
| `Queue.DecisionByFields` | sync/queue/queue.go:85-145 | which path is in which list, by fields: sent or applied exactly when one side is alone or of the higher revision, converged exactly when revision, deletion and hash are equal, a conflict exactly when the revision is equal and one of the others is not |
| `Queue.DecisionMirrors` | sync/queue/queue.go:85-128 | swapping the arguments swaps Send and Apply and the sides of each conflict |
| `Queue.ExchangeConverges` | sync/queue/queue.go:30-145 | after each side enqueues what it must apply, both hold at every path one of the two changes, of the highest revision; they hold the same revision, flag and hash everywhere, and reconciling again reports only agreement, exactly when the first reconciliation had no conflict |
| `Queue.PendingRoundTrip` | sync/queue/queue.go:51-58 | what a queue lists, queued again, is that queue |
| `VisualSession.OrderedCopySorts` | visualizer/session/session.go:142-146 | the sort is by sequence and keeps every event |
| `VisualSession.ArrivalOrderIrrelevant` | visualizer/session/session.go:142-146 | events of which those that share a sequence are equal are ordered alike whatever order they arrived in |
| `VisualSession.ArrivalOrderIff` | visualizer/session/session.go:142-146 | and only those: every order of arrival gives one ordered copy exactly when events that share a sequence are equal |
| `VisualSession.TieShowsInGraph` | visualizer/session/session.go:176-191 | two events that share a sequence and bring different metadata to one node make graphs that differ with their order of arrival |
| `VisualSession.NodeSet.EnsureNode` | visualizer/session/session.go:167-174 | adds a node under its derived identity unless it is there |
| `VisualSession.NodeSet.AnnotateNode` | visualizer/session/session.go:176-191 | sets the metadata an event brings on an existing node |
| `VisualSession.EdgeSet.Add` | visualizer/session/session.go:210-220 | adds an edge, or lowers the sequence of the one that is there |
| `VisualSession.LinkEvent` | visualizer/session/session.go:54-81 | the nodes, edges and lookup tables of one event, before its metadata |
| `VisualSession.DescribeEvent` | visualizer/session/session.go:83-102 | its metadata, work package and artifact |
| `VisualSession.Project` | visualizer/session/session.go:35-106 | the fold over the ordered events, or the error |
| `VisualSession.AddsIsMentions` | visualizer/session/session.go:63-81 | the two lookup tables find exactly the last event with the cause's identifier and the first one of the correlation |
| `VisualSession.ProjectionIsMentioned` | visualizer/session/session.go:35-106 | the nodes and edges are exactly the ones some event mentions, each with the least sequence that mentions it and, for a node, the metadata the last of its events to bring any brings; every node identity is derived from its kind and reference, and both ends of every edge are nodes |
| `VisualSession.ProjectionSucceeds` | visualizer/session/session.go:35-42 | a projection succeeds exactly for a named session with events whose metadata are all well formed |
| `VisualSession.ProjectionFails` | visualizer/session/session.go:36-42 | and which error is which |
| `VisualNames.IdentityIsOwn` | visualizer/session/session.go:19-28 | for kinds without a colon different kinds or references have different identities |
| `VisualNames.ColonsCollide` | visualizer/session/session.go:19-28 | with a colon in a kind two names can be one node |
| `VisualNames.NamesHaveNodes` | visualizer/session/session.go:35-102 | without identities: the session and every kind and reference an event names has one node of its own, there is no other node, and each carries the least sequence that names it |
| `VisualNames.LinksAreEdges` | visualizer/session/session.go:54-102 | without identities: two names are linked by an edge of a kind exactly when some event links them, with the least sequence that does |
| `VisualNames.MetadataByName` | visualizer/session/session.go:83-92 | without identities: each value of a node is the one its own events bring last |
| `Replay.Build` | visualizer/replay/replay.go:47-75 | one frame per event in sequence order: the projection of the events so far, laid out; the first frame that fails decides the error |
| `Replay.FramesAnswer` | visualizer/replay/replay.go:47-75 | every frame has its number, the sequence, identifier and type of its event, the projection of the events up to it, and what the layout makes of that |
| `Replay.BuildFails` | visualizer/replay/replay.go:47-70 | the error is that of the missing session or events, or of the first stage that cannot be projected or laid out |
| `Replay.FramesGrow` | visualizer/replay/replay.go:42-75 | the frames are numbered, each is contained in every later one with the same sequences on its nodes and edges, and the last one is the projection of all the events |
| `Replay.ArrivalLeavesNoTrace` | visualizer/replay/replay.go:42-47 | projection and frames are the same for every arrival order of events of which those that share a sequence are equal |
| `Replay.Bridge.Apply` | visualizer/bridge/bridge.go:44-55 | appends a batch exactly when all of it validates, and invalidates the frames |
| `Replay.Bridge.Frames` | visualizer/bridge/bridge.go:66-78 | the cached list is always the one a build over the accumulated events gives |
| `Replay.Bridge.Consume` | visualizer/bridge/bridge.go:108-125 | takes the events up to the first that does not validate |
| `Replay.LiveIsReplay` | visualizer/bridge/bridge.go:1-8 | following a session live, in any order, divided into any batches and streams, some of them refused, and with the frames asked for at any moments, shows the frames of a replay of its journal |
| `Journal.Memory.AppendAssigned` | obsv/journal/journal.go:114-140 | fills in the version, assigns the next sequence and stores the event, or refuses it without a change |
| `Journal.Memory.Replay` | obsv/journal/journal.go:143-153 | the events at or after a sequence, in order |
| `Journal.AppendKeepsLogOk` | obsv/journal/journal.go:114-140 | sequences rise strictly and stay below the next one |
| `Journal.OpenFile` | obsv/journal/journal.go:249-272 | loads the lines one by one, raising the next sequence to each stored one |
| `Journal.File.Append` | obsv/journal/journal.go:275-290 | indexes the event, then writes its line whole or not at all |
| `Journal.ReopenRoundTrip` | obsv/journal/journal.go:249-290 | after any appends, failed writes and reopens, opening again succeeds and replays exactly the written events with their own rising sequences, gaps included, and the next sequence lies above them |
| `Journal.ReopenPreservesIff` | obsv/journal/journal.go:255-271 | a reopened journal replays the lines of its file exactly when all of them validate and their sequences rise strictly |
| `Journal.SequenceReusedIff` | obsv/journal/journal.go:249-290 | over any appends, failed writes and reopens a sequence is given to two events exactly when the file is reopened while the last event accepted since it was opened is not in it, and an event is accepted after that |
| `Journal.FailedWriteReused` | obsv/journal/journal.go:275-290 | a failed write, a reopen and an append give sequence 0 twice |
| `Subscriptions.ExactlyOnce` | obsv/journal/journal.go:64-180 | over every interleaving, what an open subscription was sent, lost, has in its backlog and has still to get is exactly the journaled events at or after the smaller of its start and the sequence it subscribed at, none twice; the counter counts the lost |
| `Subscriptions.Subscription.Deliver` | obsv/journal/journal.go:64-75 | enqueues, counts a drop when the buffer is full, and ignores a closed subscription |
| `Subscriptions.BacklogFitsIff` | obsv/journal/journal.go:169-178 | Subscribe can send its next backlog event exactly while fewer than 64 plus the rest of the backlog live events are in the buffer |
| `Subscriptions.StuckStays` | obsv/journal/journal.go:169-178 | a Subscribe whose buffer filled up before its backlog was sent stays blocked as long as the journal is not closed |
| `Subscriptions.SubscribeGetsStuck` | obsv/journal/journal.go:169-178 | and that state is reached: one backlog event, then sixty-five appends delivered before it is sent |
| `Subscriptions.OrderlyRunsDeliverInOrder` | obsv/journal/journal.go:25-27 | events reach a subscriber in sequence order over every run in which each delivery that gets into its buffer waits for the backlog and for smaller pending events |
| `Subscriptions.OrderlyExactly` | obsv/journal/journal.go:25-27 | the discipline is exact: after an orderly run a delivery takes its turn, or does not get in, exactly when every orderly way to go on from it keeps the subscriber in order |
| `Subscriptions.OvertakingTheBacklog` | obsv/journal/journal.go:169-178 | a live delivery that gets in while the backlog is still being sent lets the next backlog event come out of order |
| `Subscriptions.OvertakingAnAppend` | obsv/journal/journal.go:134-138 | so does a delivery made before a smaller appended event that still waits |
| `Subscriptions.LiveOvertakesBacklog` | obsv/journal/journal.go:157-180 | the first is reached, so the promise of delivery in sequence order does not hold of every run |
| `Subscriptions.LiveOvertakesLive` | obsv/journal/journal.go:134-138 | the second is reached too, by two appends after one Subscribe |
| `RecordStore.Store.PutRecord` | memory/store/store.go:77-104 | refuses an invalid or stale record, ignores the same content, and otherwise replaces the record |
| `RecordStore.Store.ListAllRecords` | memory/store/store.go:144-170 | lists every record once, by kind then id |
| `RecordStore.MemProjection.Put` | memory/projection/projection.go:62-79 | takes an entry unless it is unnamed or stale; the same hash changes nothing |
| `RecordStore.Rebuild` | memory/projection/rebuild.go:7-19 | never fails on a well-formed store and leaves exactly its records, whatever the view held |
| `RecordStore.PutTypedRecord` | memory/repo/repo.go:19-36 | stores first, and refreshes the view only after a change |
| `RecordStore.ProjectionErrorNeverHappens` | memory/repo/repo.go:32-34 | the projection error that is ignored cannot occur while the view is coherent and typed writes come one after the other |
| `RecordStore.ViewCoherence` | memory/repo/repo.go:19-36 | from a rebuild on, after any typed writes one after the other, new, repeated, stale or failed, the view equals the records and another rebuild changes nothing; no record is lost, goes back or changes within a revision |
| `RecordStore.DirectPutBreaksIff` | memory/memory.go:72-75 | a record put straight into the store leaves the view behind exactly when it validates, its file is written, and it is new, or newer than the stored one and of another content |
| `RecordStore.UnbuiltViewCatchesUp` | memory/repo/repo.go:31-34 | a view that lacks records gains each one at its first change and stays right about those it has |
| `RecordWriters.FollowsIff` | memory/repo/repo.go:19-36 | with any writers at once, each step of a typed write by itself, a view that agreed with the store agrees again once no write is under way exactly when every key left behind was written again |
| `RecordWriters.ShowKeepsIff` | memory/projection/projection.go:62-79 | a writer that shows its record leaves the key behind exactly when no other writer shows the stored record and this one shows it in vain or puts another in its place |
| `RecordWriters.TurnsKeepStoreAndView` | memory/store/store.go:77-104 | with one writer of a key at a time the store never loses a write or goes back, and the view follows it |
| `RecordWriters.GoesBackIff` | memory/store/store.go:83-102 | a write takes a record back exactly when another of at least its revision was written after its writer had looked |
| `RecordWriters.OlderWriteLast` | memory/repo/repo.go:28-34 | two writers that both look before either writes leave the older record in the store and the newer in the view |
| `RecordWriters.ReturningContent` | memory/projection/projection.go:68-71 | writers that look and write in one go can do it too, when content returns |
| `ContextCompiler.EstimateTokens` | kernel/context/compiler.go:47-53 | the least number of tokens of four runes that cover the text |
| `ContextCompiler.TruncationFits` | kernel/context/compiler.go:112-122 | a truncated text is shorter than the original, not empty, within its tokens, and fills them when there is no white space to trim |
| `ContextCompiler.TruncationCuts` | kernel/context/compiler.go:112-122 | the truncated text is the beginning of the original up to one rune short of its tokens, without the white space at its two ends, and an ellipsis |
| `ContextCompiler.SpacesAre` | kernel/context/compiler.go:121 | which characters are trimmed |
| `ContextCompiler.Fill` | kernel/context/compiler.go:80-107 | the loop over the sorted inputs computes the greedy fill |
| `ContextCompiler.FillMeetsBudget` | kernel/context/compiler.go:63-107 | the sections are the longest fitting prefix of the inputs with text plus at most one cut section, the use is their sum and within the budget, and the bundle counts as truncated exactly when some input with text is not whole in it |
| `ContextCompiler.SectionsByKey` | kernel/context/compiler.go:71-104 | the sections come by kind and by identifier within a kind |
| `ContextCompiler.LongestFitUnique` | kernel/context/compiler.go:80-91 | there is only one longest fitting prefix |
| `ContextCompiler.LargerBudgetKeepsMore` | kernel/context/compiler.go:63-91 | a larger budget never loses a whole section |
| `ContextCompiler.InputOrderIrrelevant` | kernel/context/compiler.go:71-78 | the bundle depends neither on the order of the inputs nor on how the sort breaks ties when kind and id decide the inputs that have text |
| `ContextCompiler.TieShows` | kernel/context/compiler.go:71-78 | two different inputs with text under one key make some budget show how the sort broke the tie |
| `ContextCompiler.OneBundleIff` | kernel/context/compiler.go:71-78 | the exact condition, for all inputs: every budget and every way to break ties give one bundle exactly when kind and id decide the inputs that have text |
| `ContextCompiler.Compile` | kernel/context/compiler.go:66-110 | the bundle of some arrangement of the inputs in key order, within its budget |

## Left out

- Scheduler.Scheduler.Run: does not model failures of routing, storage or intake, nor cancellation; the proof of the outcome needs a worker that answers or crashes. `SchedulerSystem.DependencySafety` covers them all, and `SchedulerErrors.ReportIsFixedIff` says what they do to the report.
- Scheduler.Scheduler.FinishDispatch: does not model telemetry, learning candidates or the bytes of events; of the events of a section it records the start, the acceptance and the failed assignment records, in their order.
- Scheduler.Scheduler.BeginDispatch: does not set the holder and the expiry of the lease on the binding, for which it would need the clock; nothing in a dispatch reads them.
- Scheduler.Scheduler.SetWorkPackageState: does not model the event for a durable work-package record that could not be written (kernel/scheduler/scheduler.go:478-484), which changes nothing else.
- Scheduler.Scheduler.RecordApproval: does not model several human gates in one configuration, each with its own record, or other gates that take approvals; one record stands for all human gates.
- Scheduler.Scheduler.RecordRejection: does not model them either; all human gates see a rejection at once.
- SchedulerSystem.StepKeepsSafe: does not model overlapping runs, or a direct dispatch beside a run; one of them is under way at a time, as the control-plane API serialises them.
- Overlapping runs and several direct callers of Dispatch, which read the ready list and lock again without a second look.
- Restoring a scheduler from stored assignments, the clock that leases are held against, and status listings.
- The order in which sections of different packages append events to the shared log is not part of the confluence statement.
- An assignment is a value passed between the two sections; that the goroutine and the table share one object between them shows only in what the second section writes back.
- WorkflowRuntime.Runtime.Run: does not model cancellation by context, or plans whose steps lie under other identifiers than their own, which Compile never makes.
- Clocks and latencies of the workflow runtime; of its metrics only that a step was recorded.
- WorkflowCompiler.Compile: does not model how a contract header is checked or what an identifier's pattern is; both are handed in.
- Host.Host.Consult: does not model invocations without a key, policy checks, the registry or the audit log; they come before the critical section or bypass it.
- Deep copies of cached results: outputs are values here.
- Transfer.Receiver.Run: does not model sending its offer or the encoding of frames; a session is the sequence of frames it reads.
- Progress as a fraction: floating point.
- VisualSession.Project: does not list nodes and edges in sorted order; a graph is the two maps they are sorted from, so equal graphs are equal lists. Edge keys are triples, so identities containing a NUL byte do not collide as the joined string keys could.
- Labels of nodes, which repeat their references, and session summaries.
- Layout is a function handed in; cursors over a frame list only move an index.
- Replay.Bridge.Consume: does not model cancellation by context.
- Journal.Memory.AppendAssigned: does not contain the snapshot of subscribers; `Subscriptions` models it as part of the same step.
- Subscriptions.StuckStays: does not model that a send on a channel panics when a close of the journal closes it; a backlog send is just not enabled once its subscription is closed.
- Trimmed views of a journal, and lines that do not decode.
- RecordStore.ViewCoherence: takes typed writes one after the other, though nothing in the store makes them so; `RecordWriters` takes them apart.
- RecordStore.ProjectionErrorNeverHappens: likewise.
- A rebuild of the view while writes are under way.
- RecordStore.Store.PutRecord: does not model unreadable or corrupt record files; data are canonical JSON already.
- The append-only event log of the memory store, retention floors and the digest of a projection, which is a function of its entries.
- ContextCompiler.Compile: does not model the digest, which is a function of the bundle.
- Registries, roles, contracts, policies, routing, compute allocation and learning scores: each settled by one branch or one filter, or floating point.
