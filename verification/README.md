# Mission harness: a verified model

The mission harness turns an approved design graph into a work plan, schedules
the plan's tasks, and lets the result merge only when the code shows what the
design asked for. Around that chain stand a design store with optimistic
concurrency, a mission session shared by several coordinators, a lease on
contract execution, an incremental code index, a command bus, a small shell and
a Telegram listener. This project models these parts in Dafny and proves what
they promise. `dafny verify dfyconfig.toml` checks everything.

| file | what it models |
|---|---|
| `TextOrder.dfy` | string order, stable sorting, sorted sets (Python's `sorted`) |
| `PyText.dfy` | the string operations the compilers use, written out |
| `Workplan.dfy` | next runnable task, block reasons, plan validation, cycle search |
| `TaskExecutor.dfy` | the scheduler's run over the array of tasks |
| `Design.dfy`, `Changeset.dfy`, `ChangesetCompiler.dfy`, `ChangesetLaws.dfy`, `OperationLaws.dfy` | the compiler from a design snapshot to operations, its laws over whole snapshots, and what each node and edge comes to, column by column |
| `Reconciliation.dfy` | reconciliation and the merge gate, end to end with the plan and the scheduler |
| `DesignStore.dfy`, `DesignStoreLaws.dfy` | the design tables, the operation log, batches and rollback; which operations are accepted and what each leaves in the tables |
| `Session.dfy` | stages, compare-and-set saves, all interleavings of the coordinators' saves |
| `Coordinators.dfy` | the coordinators' methods over the session store, with other callers saving in between |
| `ContractExecution.dfy` | the execution lease, section by section of its lock |
| `CodeGraph.dfy`, `CodeGraphLaws.dfy`, `CodeIndex.dfy`, `CodeIndexLaws.dfy`, `Impact.dfy` | the syntax-tree visitor and what it records, the incremental build and its laws over whole histories, the impact analysis |
| `CommandBus.dfy` | the bus, pause and abort signals, the wait for an approval |
| `ShellList.dfy` | parsing and running AND-OR lists |
| `Telegram.dfy`, `Chunker.dfy` | at-most-once delivery over crashes, and message chunks |

How the model is stated:

- Code that updates objects in place is a class with the same fields, or a
  method over an array, proved against a function or a predicate; laws are then
  proved about that function. Where the function says what is computed, a law
  says the same in terms of the input alone. Protocols are step relations whose
  runs are arbitrary interleavings.
- Texts written for people (errors, reasons) are structured values.
- Regular expressions are function parameters, so every law holds for any of
  them. `strip`, `replace`, `split` and `lower` are written out.
- A human or another thread is a schedule of arrivals; subprocesses, git and
  agents are arbitrary outcomes given as functions.

What the model shows about the code, beyond the laws it satisfies:

- A parent id of `None` is looked up under the text `"None"`
  (`src/mission_orchestrator/domain/changeset.py:180`), so a node without a
  parent inherits a locator exactly when a node called `None` gives it one
  (`ParentlessInheritsFromNone`; an input: `ClassInheritsFromNone`).
- A locator is derived from a path-like label for every intent
  (`src/mission_orchestrator/domain/changeset.py:178`), although
  `docs/hero-v2/ring1-worklog.md:27` wants a CHANGE or REMOVE without a locator
  to stay an issue. It does exactly when neither label nor parents yield one
  (`NoLocatorIssue`, `UnstatedLocatorIsIssue`; an input: `LabelAnchorsAChange`).
- A design that removes a `contains` or `inherits` edge can never pass the gate,
  because DISCONNECT is always unverifiable (`RemovingHardEdgeShutsGate`). A
  CREATE without a locator shuts the gate unless the node is external, although
  `docs/hero-v2/specs/K9-reconciliation-gate.md:27` calls that case non-critical
  (`GateMeaning`).
- Two edges can share an operation id when a node id contains `->`
  (`ArrowInAnIdCollides`).
- Two files can share a node id exactly when one path is the other, a colon, and
  names joined by dots (`ShareIff`; an input: `ColonInAPathCollides`). Over a set
  of paths with such a pair, and over no other, an incremental build can leave
  other tables than a first build (`AlwaysFreshIff`, `CollisionLosesARow`).
- Three moves that coordinators attempt are outside the transition table, so they
  save nothing (`DesignAndGrillRetriesAreRefused`, `ReconcilingCannotPause`).
- The blocked reason is searched for `phase=...` as plain text. Over all
  interleavings, tasks are worked on only under the snapshot approved for
  execution, if and only if no text that a block before plan approval may carry
  contains a task phase's marker (`GovernedIffMarkerless`): one such text is
  enough for a run that goes astray (`StrayIsReachable`).
- `complete` validates in one lock section and finishes in another, and another
  caller may overwrite the verdict in between: an execution can be completed with
  a recorded failure (`CompletedVerdict`, `CompletedWithFailedVerdict`).
- A chat execution is completed only after `complete` has seen configured, passed
  project checks, but checks may run again, and fail, before the commit: the
  record carries failed checks exactly then (`ChatCompletionWasChecked`,
  `CompletedWithFailedChecks`).
- A listed file whose `stat` fails keeps its old rows, so an incremental build
  equals a first one exactly when no such file was indexed before
  (`IncrementalIsFresh`; an input: `DanglingLinkStays`).
- A pipeline stops at its first failing command and keeps that status, and a `cd`
  in it moves the later commands and the shell. In the POSIX shell every command
  runs, in a subshell of its own. Both do the same exactly when the pipeline is a
  single command, or no stage leaves the directory and every stage before the
  last succeeds (`SameAsPosix`, `StatusAgainstPosix`; inputs: `FirstFailureWins`,
  `DirectoryIsCarried`).
- A reply to the backlog call that is not "ok" is read as an empty backlog
  (`src/mission_orchestrator/adapters/telegram/api.py:24`) and resets the offset
  to 0. Commands are still delivered at most once when no pending update has been
  handed on before at any such refusal; after a refusal in any other state the
  order can break (`DeliveryOverAllRuns`, `RefusalIsHarmlessIff`).

## Model

| member | source | states |
|---|---|---|
| Workplan.LastWins | src/mission_orchestrator/domain/workplan.py:7 | a lookup by id finds a task exactly when no later task has its id |
| Workplan.NextRunnable | src/mission_orchestrator/domain/workplan.py:6-14 | the first pending task whose known dependencies are all completed, or none when there is none |
| Workplan.BlockReason | src/mission_orchestrator/domain/workplan.py:17-26 | names the first listed dependency that failed or is blocked, with what it did; nothing exactly when no known dependency stopped |
| Workplan.CycleFinder.Visit | src/mission_orchestrator/domain/workplan.py:65-75 | the coloured search terminates, keeps the stack a path of the graph, finishes the node, and reports only simple cycles |
| Workplan.FindCycles | src/mission_orchestrator/domain/workplan.py:59-80 | every report is a simple closed path of the dependency graph, and there is no report exactly when the graph is acyclic |
| Workplan.TopologicalMeansAcyclic | src/mission_orchestrator/domain/workplan.py:74-75 | finishing every node with no cycle reported is a topological order, which rules out closed paths |
| Workplan.CollectCoverage | src/mission_orchestrator/domain/workplan.py:34-37 | maps each claimed operation to its owners, repeated and in order, and nothing else |
| Workplan.OwnersMeaning | src/mission_orchestrator/domain/workplan.py:34-37 | a task is among the owners of an operation exactly when it claims it |
| Workplan.OwnersCount | src/mission_orchestrator/domain/workplan.py:34-37 | an operation has as many owners as the tasks together list it |
| Workplan.GraphMeaning | src/mission_orchestrator/domain/workplan.py:59-62 | an id leads to exactly the known dependencies of the last task that has it |
| Workplan.ValidatePlan | src/mission_orchestrator/domain/workplan.py:29-56 | each error is justified, each fault other than a cycle is reported, and the list is empty exactly when every operation has one owner, no other is claimed, dependencies are known and not the task itself, and the graph is acyclic |
| Workplan.ValidMeansFaultless | src/mission_orchestrator/domain/workplan.py:29-56 | a valid plan justifies no error of any kind |
| TaskExecutor.TaskExecutor.BlockUnrunnable | src/mission_orchestrator/application/task_executor.py:112-118 | exactly the pending tasks become blocked; the fallback reason appears exactly where no needed task has stopped before the loop reaches the task, otherwise the reason names one of the task's own stopped dependencies |
| TaskExecutor.TaskExecutor.Run | src/mission_orchestrator/application/task_executor.py:53-105 | from any task list: terminates; starts each task once and only after all it needs has completed, even if the run is aborted then; returns the number completed; without an abort records each outcome, leaves nothing pending and meets the conclusions below; an abort leaves a list on which a later run can build |
| TaskExecutor.RecordedMeaning | src/mission_orchestrator/application/task_executor.py:67-105 | the k-th task started ends completed on a success, failed with the detail as its reason on a refusal, and as it was on an abort, with every other column unchanged |
| TaskExecutor.CountMeaning | src/mission_orchestrator/application/task_executor.py:53-105 | the number returned is that of the tasks that are completed |
| TaskExecutor.BlockedExactlyWhenHeldUp | src/mission_orchestrator/application/task_executor.py:53-118 | over an acyclic plan with any statuses, a task that was pending ends up blocked exactly when it waits, directly or through others that were pending, for one that failed or was blocked before the run |
| TaskExecutor.BlockedExactlyWhenUpstreamFailed | src/mission_orchestrator/application/task_executor.py:53-118 | if nothing was blocked before and no task had run too early, a task ends up blocked exactly when some task it transitively depends on failed |
| TaskExecutor.AllCompletedExactlyWhen | src/mission_orchestrator/application/task_executor.py:53-118 | a concluded run over an acyclic plan completes every task exactly when none had stopped before and every outcome was a success |
| TaskExecutor.SameShapeSamePlan | src/mission_orchestrator/domain/workplan.py:29-56 | a run keeps a valid plan valid |
| TaskExecutor.StuckConcludes | src/mission_orchestrator/application/task_executor.py:60-63 | when nothing is runnable, marking ends the run with no task pending and the completed count unchanged; in dependency order every newly blocked task names its own stopped dependency |
| TaskExecutor.StartKeepsOrder | src/mission_orchestrator/application/task_executor.py:60-64 | starting the first runnable task extends the start list to one that still respects every dependency and repeats nothing |
| TaskExecutor.FindStopper | src/mission_orchestrator/application/task_executor.py:112-118 | from any newly blocked task of an acyclic plan, the chain of missing dependencies ends at one that failed or was blocked before |
| Changeset.LocatorUnfolds | src/mission_orchestrator/domain/changeset.py:178-196 | the locator defined by the parent chain, without memo, satisfies the recursive rule: a node's own, else what it derives from its parent's, else none, also when parents form a circle |
| Changeset.CircleFound | src/mission_orchestrator/domain/changeset.py:174-175 | a node met again while it is being resolved lies on a circle of parents without a locator, so returning it unchanged is right |
| Changeset.TargetPreparer.Prepare | src/mission_orchestrator/domain/changeset.py:164-208 | terminates on any parent graph and returns the node filled in from its memo-free locator, which OperationLaws spells out; every memo entry is such a node, and `resolving` is restored |
| Changeset.TargetPreparer.PrepareNode | src/mission_orchestrator/domain/changeset.py:60-62 | replaces one node of the table by its prepared form, whatever was prepared before |
| ChangesetCompiler.CompileChangeset | src/mission_orchestrator/domain/changeset.py:52-148 | the three loops over mutable tables compute the order-free changeset of the laws below |
| ChangesetLaws.OrderIndependent | src/mission_orchestrator/domain/changeset.py:52-148 | the changeset depends on the node table only, not on the order in which nodes are listed or prepared |
| ChangesetLaws.ReorderingCompilesAlike | src/mission_orchestrator/domain/changeset.py:52-148 | any reordering of a snapshot with distinct node ids compiles to the same changeset |
| ChangesetLaws.EachNodeLandsOnce | src/mission_orchestrator/domain/changeset.py:71-99 | each node that is not KEEP is in exactly one of operations, skipped and issues, once; a KEEP node in none |
| ChangesetLaws.EachEdgeActsOnce | src/mission_orchestrator/domain/changeset.py:102-141 | there are as many CONNECT and DISCONNECT operations for a source, target and relation as CREATE and REMOVE edges |
| ChangesetLaws.DependsOnCreations | src/mission_orchestrator/domain/changeset.py:101-117 | a CONNECT depends on exactly the CREATE_NODE operations of this changeset that create one of its two ends; nothing else depends on anything |
| ChangesetLaws.OperationIdsDistinct | src/mission_orchestrator/domain/changeset.py:111-139 | operation ids are distinct exactly when no two edges of one acting intent spell the same source, target and relation text; node operations never clash |
| ChangesetLaws.ReadableLinesDiffer | src/mission_orchestrator/domain/changeset.py:111-139 | different edges never spell the same text when sources have no arrow and relations no colon |
| ChangesetLaws.ArrowInAnIdCollides | src/mission_orchestrator/domain/changeset.py:111 | an arrow in a source id lets two different edges share an operation id |
| ChangesetLaws.NoLocatorIssue | src/mission_orchestrator/domain/changeset.py:88-99 | a CHANGE or REMOVE node is reported as having no locator exactly when none is stated or derived, whatever it is derived from |
| ChangesetLaws.UnstatedLocatorIsIssue | src/mission_orchestrator/domain/changeset.py:178-196 | a CHANGE node without a stated locator is that issue exactly when its label is not a path and it derives nothing from a parent |
| ChangesetLaws.LabelAnchors | src/mission_orchestrator/domain/changeset.py:178 | a CHANGE or REMOVE node with an observed path for a label and no stated locator becomes an operation on that path |
| ChangesetLaws.LabelAnchorsAChange | src/mission_orchestrator/domain/changeset.py:178 | a concrete CHANGE node with no locator that is no issue |
| ChangesetLaws.ParentlessInheritsFromNone | src/mission_orchestrator/domain/changeset.py:180-196 | a node without a parent and without a locator of its own gets one exactly when it derives one from a node called None |
| ChangesetLaws.ClassInheritsFromNone | src/mission_orchestrator/domain/changeset.py:180-196 | a parentless class is placed in the file of a module called None |
| OperationLaws.LocatorPathMeaning | src/mission_orchestrator/domain/changeset.py:211-213 | the path of a locator is the stripped text up to its first colon, with slashes for backslashes |
| OperationLaws.OwnLocatorMeaning | src/mission_orchestrator/domain/changeset.py:178-239 | a node keeps the locator it states; else gets its target path, with a colon and its stripped qualified name if it has one, when that path is relative without a drive or a parent directory; else its label when that looks like a path |
| OperationLaws.FileBelowParent | src/mission_orchestrator/domain/changeset.py:180-192 | a module, or a label with a file name f, below a parent path p gets p, a slash and f when p is a directory or a source file at the root, and d, a slash and f when p is the source file d, a slash and some name; nothing without p or f |
| OperationLaws.SymbolBelowParent | src/mission_orchestrator/domain/changeset.py:193-196 | any other node below a source file gets the path, a colon, and its stripped qualified name or else the identifier of its label; nothing without both, and nothing below a directory |
| OperationLaws.ValidTargetPathMeaning | src/mission_orchestrator/domain/changeset.py:242-246 | a target path is valid exactly when it is not empty, not absolute, begins with no drive letter and has no part that is two dots |
| OperationLaws.PreparedMeaning | src/mission_orchestrator/domain/changeset.py:198-208 | preparing fills an empty locator with the one found and an empty target path with its path, and changes no other column |
| OperationLaws.EntryMeaning | src/mission_orchestrator/domain/changeset.py:66-99 | for every intent: whether a node is silent, skipped, an issue of a named kind, or an operation, by its locator and what is observed; and every column of the operation |
| OperationLaws.EdgeColumns | src/mission_orchestrator/domain/changeset.py:101-141 | every column of the operation of an acting edge; it is hard exactly for the relations contains and inherits in any case of letters |
| OperationLaws.VerificationMeaning | src/mission_orchestrator/domain/changeset.py:255-261 | contains and inherits alone are hard, imports found by the analyzer alone is resolved |
| OperationLaws.CompiledInOrder | src/mission_orchestrator/domain/changeset.py:143-148 | the changeset names its snapshot, and operations, skipped and issues are in ascending order of id and target |
| Reconciliation.CoveringTasks | src/mission_orchestrator/domain/reconciliation.py:58-61 | the first task that covers an operation, for every operation |
| Reconciliation.FirstCoverMeaning | src/mission_orchestrator/domain/reconciliation.py:58-61 | no task covers the operation, or the one found does and no earlier one |
| Reconciliation.Reconcile | src/mission_orchestrator/domain/reconciliation.py:51-77 | one check for each operation, in order, against its first covering task |
| Reconciliation.CheckMeaning | src/mission_orchestrator/domain/reconciliation.py:80-172 | a check lets the gate open exactly when a completed task covers the operation and the observation shows it fulfilled |
| Reconciliation.CheckStates | src/mission_orchestrator/domain/reconciliation.py:80-172 | which of the four states each kind of operation gets, by its cover and what is observed or verified, and that it blocks exactly when it is hard |
| Reconciliation.CheckDetails | src/mission_orchestrator/domain/reconciliation.py:80-172 | what each check reports: the missing or unfinished cover, the locator looked for and whether it was there, or whether the relationship was seen |
| Reconciliation.MergeGateReasons | src/mission_orchestrator/domain/reconciliation.py:175-189 | reports exactly the failed and blocked tasks and the checks that do not hold; empty exactly when the gate is open |
| Reconciliation.GateMeaning | src/mission_orchestrator/domain/reconciliation.py:51-189 | without changeset issues the gate is open exactly when no task stopped, every operation is covered by a completed task, every node came true, each edge to be created whose relation is contains or inherits is verified, and no such edge is to be removed |
| Reconciliation.RemovingHardEdgeShutsGate | src/mission_orchestrator/domain/reconciliation.py:154-172 | no observation and no tasks open the gate for a design that removes an edge whose relation, in lower case, is contains or inherits |
| Reconciliation.OpenGateVerifiesEdges | src/mission_orchestrator/domain/reconciliation.py:154-189 | an open gate has verified every edge to be created whose relation, in lower case, is contains or inherits |
| Reconciliation.EdgeCheckMeaning | src/mission_orchestrator/domain/reconciliation.py:154-172 | once a completed task covers the operation of an edge, it fails exactly for contains and inherits when the edge is to be removed or is not verified, and passes for every other relation |
| Reconciliation.GateAfterRun | src/mission_orchestrator/domain/reconciliation.py:175-189 | under a valid plan with no task pending, the gate is open exactly when every task completed and the design is fulfilled |
| Reconciliation.PlanRunReconcile | src/mission_orchestrator/domain/reconciliation.py:51-189 | from a valid plan, through any concluded run, the gate is open exactly when no task had stopped before, everything the run started succeeded, and the design is fulfilled |
| DesignStore.DesignStore.Write | src/mission_orchestrator/adapters/design/store.py:259-381 | the statements change the tables as the effect says, including the two cascades of a removed node; what each operation leaves in them is stated by DesignStoreLaws |
| DesignStore.DesignStore.RunBatch | src/mission_orchestrator/adapters/design/store.py:194-205 | the loop succeeds exactly when the batch does, and has then written it whole; otherwise it reports the first failure |
| DesignStore.DesignStore.Attempt | src/mission_orchestrator/adapters/design/store.py:193-215 | a batch is applied whole and logged, or, on any failure in the middle, the tables are as before and at most the rejection is logged |
| DesignStore.DesignStore.Apply | src/mission_orchestrator/adapters/design/store.py:170-215 | the in-place run with savepoint, rollback and log is one step of the log protocol |
| DesignStore.CheckFieldsMeaning | src/mission_orchestrator/adapters/design/store.py:313-337 | the validated columns change only where an accepted update names them, and the parent exists |
| DesignStore.BindFieldsMeaning | src/mission_orchestrator/adapters/design/store.py:302-342 | the text columns change only where an accepted update names them |
| DesignStoreLaws.UpdateWrites | src/mission_orchestrator/adapters/design/store.py:302-342 | after an applied update every column it names reads as the given value and every other column, node and edge is as before |
| DesignStoreLaws.AddWrites | src/mission_orchestrator/adapters/design/store.py:259-300 | after an applied add the node is there with every given column and the defaults of the others, and all else is as before |
| DesignStoreLaws.RemoveWrites | src/mission_orchestrator/adapters/design/store.py:344-350 | after an applied removal the node and its edges are gone, its children have no parent, and all else is as before |
| DesignStoreLaws.AddEdgeWrites | src/mission_orchestrator/adapters/design/store.py:352-370 | after an applied add the edge is there with the given provenance and intent, and all else is as before |
| DesignStoreLaws.RemoveEdgeWrites | src/mission_orchestrator/adapters/design/store.py:372-381 | after an applied removal exactly that edge is gone |
| DesignStoreLaws.UpdateAcceptedIff | src/mission_orchestrator/adapters/design/store.py:302-342 | an update is applied exactly when it names an existing node and one or more known columns other than the provenance, each with a valid value |
| DesignStoreLaws.AddAcceptedIff | src/mission_orchestrator/adapters/design/store.py:259-300 | a node is added exactly when its id is new, the required columns are stated and every column is valid |
| DesignStoreLaws.OtherAcceptedIff | src/mission_orchestrator/adapters/design/store.py:344-381 | removals are applied exactly when what they name exists; an edge is added exactly when it is new, its ends exist, and provenance and intent are valid |
| DesignStoreLaws.NoOtherOperation | src/mission_orchestrator/adapters/design/store.py:244-257 | nothing but the five operations is ever applied |
| DesignStoreLaws.RefusalMeaning | src/mission_orchestrator/adapters/design/store.py:259-393 | which problem is reported for a missing id, an unknown or existing node, a missing end, an existing or unknown edge |
| DesignStoreLaws.WordRefused | src/mission_orchestrator/adapters/design/store.py:395-399 | a value that no member of an enumeration is called is refused with its field and the value |
| DesignStoreLaws.NullLabelIsNone | src/mission_orchestrator/adapters/design/store.py:259-300 | a label given as null is stored as the text None |
| DesignStoreLaws.BatchInTurn | src/mission_orchestrator/adapters/design/store.py:194-205 | a batch is its operations in turn, and fails as the first of them that does |
| DesignStoreLaws.AnswerMeaning | src/mission_orchestrator/adapters/design/store.py:186-242 | a new request is applied exactly when it was made for the current revision and its batch succeeds; what is answered and logged in each case |
| DesignStore.CheckedIsSound | src/mission_orchestrator/adapters/design/store.py:259-381 | whatever passes the checks of any of the five operations can be written without breaking the graph |
| DesignStore.BatchKeepsWellFormed | src/mission_orchestrator/adapters/design/store.py:244-381 | a batch keeps every edge between existing nodes and every parent existing |
| DesignStore.RemoveUndoesAddNode | src/mission_orchestrator/adapters/design/store.py:259-300 | removing a node just added restores the graph exactly: the cascade reaches nothing else |
| DesignStore.RemoveUndoesAddEdge | src/mission_orchestrator/adapters/design/store.py:352-381 | removing an edge just added restores the graph exactly |
| DesignStore.ReachableIsReplay | src/mission_orchestrator/adapters/design/store.py:170-242 | after any sequence of calls the graph is the replay of exactly the applied batches, the revision is their number, their base revisions are 0, 1, 2 and so on, each row carries the revision of its time, and operation ids are unique |
| DesignStore.ReachableIsWellFormed | src/mission_orchestrator/adapters/design/store.py:259-381 | every reachable graph has existing endpoints and parents |
| DesignStore.OnlyAppliedChanges | src/mission_orchestrator/adapters/design/store.py:186-215 | conflict, rejection, duplicate and failure leave graph and revision alone; the log only grows, by at most one row |
| DesignStore.RepeatedIdGetsFirstResult | src/mission_orchestrator/adapters/design/store.py:179-184 | a repeated operation id gets the first call's result at any later time and changes nothing |
| DesignStore.OneWinnerPerRevision | src/mission_orchestrator/adapters/design/store.py:186-192 | two applied calls never build on the same revision |
| Session.MoveTo | src/mission_orchestrator/domain/session.py:127-152 | fails exactly outside the transition table; otherwise raises the revision by one and keeps the snapshot unless given one |
| Session.FilesystemMissionSessionStore.Save | src/mission_orchestrator/adapters/filesystem/session_store.py:28-38 | stores exactly when the mission, the expected revision and the successor revision match, and changes nothing otherwise |
| Session.SavedCopyIsFresh | src/mission_orchestrator/adapters/filesystem/session_store.py:28-36 | in every interleaving an accepted save was made from the session that is stored at that moment |
| Session.RevisionsCountSaves | src/mission_orchestrator/domain/session.py:46-155 | in every interleaving the n-th stored session has revision n, each save is a touch or a move of the table, and a completed mission stays completed |
| Session.GovernedIffMarkerless | src/mission_orchestrator/application/preparation_coordinator.py:227-341 | for any set of texts that early blocks may carry: in every interleaving the snapshot from READY to COMPLETED is the one current at the last approval, if and only if none of the texts contains a task phase marker |
| Session.StrayIsReachable | src/mission_orchestrator/application/interactive_task_coordinator.py:194-287 | any single such text gives a run of sixteen legal saves, with a task that failed on the way, that takes the task up again on another snapshot |
| Session.DesignAndGrillRetriesAreRefused | src/mission_orchestrator/application/preparation_coordinator.py:227-261 | retrying a blocked design or grill never saves; only a blocked research can be retried |
| Session.ReconcilingCannotPause | src/mission_orchestrator/application/interactive_task_coordinator.py:353-375 | from RECONCILING only READY, COMPLETED and BLOCKED are ever saved |
| Coordinators.SessionDesk.Save | src/mission_orchestrator/application/preparation_coordinator.py:380-391 | records exactly the saves that the store accepted, leaves the saved session stored, and always goes through when nobody else saves in between |
| Coordinators.PreparationCoordinator.RunResearch | src/mission_orchestrator/application/preparation_coordinator.py:115-142 | saves only what the protocol allows, from its own copies in turn, and ends blocked, in research review, or in design review when the grill is skipped, with the note of the block, the active task kept, and success reported as the source does; undisturbed it returns exactly when the stored session has the revision and the stage and there is a document |
| Coordinators.PreparationCoordinator.RunGrill | src/mission_orchestrator/application/preparation_coordinator.py:144-163 | saves only what the protocol allows and ends blocked or in design review; undisturbed it returns exactly when the stored session has the revision and the stage |
| Coordinators.PreparationCoordinator.ApproveDesignAndStructure | src/mission_orchestrator/application/preparation_coordinator.py:208-313 | saves nothing without an approval; otherwise carries the new snapshot to a plan review or a block; undisturbed it returns exactly when the stored session has the revision and the stage |
| Coordinators.PreparationCoordinator.RetryDesign | src/mission_orchestrator/application/preparation_coordinator.py:227-241 | never returns and never saves: the move back to design review is refused |
| Coordinators.PreparationCoordinator.RetryBlocked | src/mission_orchestrator/application/preparation_coordinator.py:243-261 | saves only by starting research again from DRAFT; undisturbed it returns exactly for a blocked research with a document, and any other block is refused as an invalid move or action |
| Coordinators.PreparationCoordinator.ApproveExecution | src/mission_orchestrator/application/preparation_coordinator.py:315-341 | moves a reviewed plan to READY with the snapshot it was reviewed with; undisturbed it returns exactly when the stored session has the revision and the stage |
| Coordinators.InteractiveTaskCoordinator.PrepareNext | src/mission_orchestrator/application/interactive_task_coordinator.py:71-126 | takes up the first task that can run, if one can, and stops at the first phase that blocks; otherwise completes exactly when there are tasks and all are completed, else blocks; undisturbed it returns exactly when the stored session has the revision and is READY |
| Coordinators.InteractiveTaskCoordinator.RetryPreparation | src/mission_orchestrator/application/interactive_task_coordinator.py:232-287 | takes up the active task again from the failed phase on, which is one that the blocked reason names, and ends in a task review or a block; undisturbed it returns exactly when the stored session is blocked in such a phase, on a task that exists |
| Coordinators.InteractiveTaskCoordinator.ExecutePrepared | src/mission_orchestrator/application/interactive_task_coordinator.py:128-192 | saves only what the protocol allows; ends as the first phase that blocks or is followed by an amendment says, else COMPLETED exactly without a divergence, a pending task and a gate reason, READY exactly without a divergence and with a pending task, and otherwise BLOCKED, with the note of what blocked it, or in the amendment review; the task stays active there and is cleared in READY and COMPLETED; only a pause refused while reconciling leaves the session there; undisturbed it ends in one of these ways exactly when the stored session holds the task in review and the lease can be had |
| Coordinators.InteractiveTaskCoordinator.RetryReview | src/mission_orchestrator/application/interactive_task_coordinator.py:194-230 | the same for the review of a failed task that is run again, which ends blocked or as the closing says |
| Coordinators.FromMeaning | src/mission_orchestrator/application/interactive_task_coordinator.py:256-262 | the phases run again are the suffix of the pipeline that begins with the first occurrence of the failed phase |
| Coordinators.FirstBlockMeaning | src/mission_orchestrator/application/interactive_task_coordinator.py:100-116 | the block of a pipeline is that of the first phase of the kind that blocks, and there is none exactly when no such phase blocks |
| Coordinators.InteractiveTaskCoordinator.Reconcile | src/mission_orchestrator/application/interactive_task_coordinator.py:346-395 | fails exactly when an amendment is seen at either of its two places; otherwise COMPLETED exactly when the task did not diverge, nothing is pending and the gate has no reason, READY exactly when it did not diverge and something is pending, BLOCKED otherwise |
| Coordinators.InteractiveTaskCoordinator.PauseForAmendment | src/mission_orchestrator/application/interactive_task_coordinator.py:463-479 | from EXECUTING, two saves lead over PAUSED to the amendment review |
| Coordinators.MissionControlPlane.RecordDesignAmendment | src/mission_orchestrator/application/control_plane.py:359-410 | one allowed save to the amendment review, or none; which of the answers depends on the stored stage and on a conflict |
| Coordinators.CopyWasStored | src/mission_orchestrator/adapters/filesystem/session_store.py:28-36 | of any calls that take turns, each accepted save was computed from the very session it replaced, although only revisions are compared |
| Coordinators.InterleavedCallsAreRuns | src/mission_orchestrator/application/preparation_coordinator.py:366-391 | whatever lawful calls store while taking turns is the history of a reachable state of the session protocol, so with markerless early texts tasks are worked on under the approved snapshot |
| ContractExecution.ContractExecutionService.Begin | src/mission_orchestrator/application/contract_execution.py:88-137 | opens a lease exactly when none is active and actor, stage and task status allow it |
| ContractExecution.BeginMeaning | src/mission_orchestrator/application/contract_execution.py:88-137 | a record is added exactly when none is active and either the mission begins a pending or failed task in review or block, or another actor begins a pending task in READY |
| ContractExecution.ContractExecutionService.Validate | src/mission_orchestrator/application/contract_execution.py:139-166 | writes the verdict on the active execution only, and is one step of the protocol |
| ContractExecution.ContractExecutionService.CompleteFinish | src/mission_orchestrator/application/contract_execution.py:193-242 | the last section of complete ends the execution only if it still holds the lease |
| ContractExecution.ContractExecutionService.End | src/mission_orchestrator/application/contract_execution.py:391-397 | a blocker or an amendment ends exactly the active execution |
| ContractExecution.EndMeaning | src/mission_orchestrator/application/contract_execution.py:376-397 | a blocker ends the active record of that id as blocked, a proposed amendment as an amendment, and no other record changes |
| ContractExecution.CompleteMeaning | src/mission_orchestrator/application/contract_execution.py:168-242 | the middle section of complete writes the verdict of its own validation and goes on exactly when it passes on the active record; the last one ends that record exactly when the commit succeeds |
| ContractExecution.AtMostOneLease | src/mission_orchestrator/application/contract_execution.py:88-242 | in every interleaving of lock sections at most one execution is active, and it is the last record |
| ContractExecution.EndedStaysEnded | src/mission_orchestrator/application/contract_execution.py:391-397 | an ended record never changes again, and no record changes identity, actor or task |
| ContractExecution.CompletionWasValidated | src/mission_orchestrator/application/contract_execution.py:168-242 | an execution finished by a call of complete was validated with success by that same call and held the lease from then on |
| ContractExecution.CompletedVerdict | src/mission_orchestrator/application/contract_execution.py:168-242 | a completed execution is recorded as verified exactly when the last validation by anyone passed |
| ContractExecution.CompletedWithFailedVerdict | src/mission_orchestrator/application/contract_execution.py:184-197 | a run in which the completing call saw a pass and the record says failed |
| ContractExecution.ContractExecutionService.CompleteEntry | src/mission_orchestrator/application/contract_execution.py:174-183 | the first section of complete lets a call in exactly when its execution is active and, for chat, configured checks have passed |
| ContractExecution.ContractExecutionService.RunChecks | src/mission_orchestrator/application/contract_execution.py:356-373 | writes the outcome of the checks on the active chat execution only |
| ContractExecution.OnlyFinishCompletes | src/mission_orchestrator/application/contract_execution.py:193-242 | nothing but the last section of complete ever completes an execution, and only the active one |
| ContractExecution.ChatCompletionWasChecked | src/mission_orchestrator/application/contract_execution.py:168-242 | whenever a chat execution becomes completed, the completing call saw its checks configured and passed when it began, and the record still says so exactly unless checks ran again meanwhile and the last of them did not pass |
| ContractExecution.CompletedWithFailedChecks | src/mission_orchestrator/application/contract_execution.py:176-242 | a run that completes a chat execution whose record carries failed checks and a patch applied after them |
| CodeGraph.GraphVisitor.Visit | src/mission_orchestrator/adapters/analysis/builder.py:115-188 | the visitor with its three stacks records exactly what the recursive meaning of the tree says and restores the stacks |
| CodeGraph.EmittedRooted | src/mission_orchestrator/adapters/analysis/builder.py:125-180 | all nodes name their file, and every edge and reference starts at the enclosing scope or at a node of the same file |
| CodeGraphLaws.FileRecords | src/mission_orchestrator/adapters/analysis/builder.py:102-188 | a file records its module and exactly what the visited places of its tree yield: a node and a defines edge for each class and function, an inherits edge to each base with a dotted name, imports edges to the names or the module given, a calls reference to each dotted callee and a references one to each name |
| CodeGraphLaws.InSourceOrder | src/mission_orchestrator/adapters/analysis/builder.py:115-180 | records stand in the order of the source, a definition before what it holds |
| CodeGraphLaws.PlaceMeaning | src/mission_orchestrator/adapters/analysis/builder.py:115-180 | every place visited is named by the definitions around it, and its scope is the innermost of them |
| CodeGraphLaws.DottedNameMeaning | src/mission_orchestrator/adapters/analysis/builder.py:181-188 | a name followed by attributes is those joined by dots; a chain that begins with anything else has only its attributes |
| CodeGraph.EmittableIff | src/mission_orchestrator/adapters/analysis/builder.py:125-127 | the ids that a file with given names for classes and functions can emit are exactly its path, and its path, a colon, and such names joined by dots |
| CodeGraph.ShareIff | src/mission_orchestrator/adapters/analysis/builder.py:125-127 | with names that hold no colon, two files can emit one id exactly when the paths are equal or one is the other, a colon, and names joined by dots |
| CodeGraph.AnyShareIff | src/mission_orchestrator/adapters/analysis/builder.py:125-127 | with arbitrary names, exactly when one path is the other, alone or followed by a colon and more |
| CodeGraph.OneOwner | src/mission_orchestrator/adapters/analysis/builder.py:125-127 | an id belongs to at most one path without a colon |
| CodeGraph.ColonInAPathCollides | src/mission_orchestrator/adapters/analysis/builder.py:125-127 | the method of a class in one file and the module of another file get one id |
| CodeIndex.NodesPurged | src/mission_orchestrator/adapters/analysis/builder.py:78-83 | deleting by the file column removes exactly the rows that the file emitted |
| CodeIndex.NodesInserted | src/mission_orchestrator/adapters/analysis/builder.py:57-60 | replacing rows never touches those of another file, as long as no node has two files |
| CodeIndex.LinksInserted | src/mission_orchestrator/adapters/analysis/builder.py:61-68 | under the same condition ignoring duplicate rows never drops one that another file owns |
| CodeIndex.FtsMeaning | src/mission_orchestrator/adapters/analysis/sqlite_graph.py:60-62 | the text index holds each node under its id, kind and file, and nothing else |
| CodeIndex.TablesRepresent | src/mission_orchestrator/adapters/analysis/builder.py:33-76 | the tables are the disjoint union of the files' rows exactly when they equal the tables filled from empty with those files |
| CodeIndex.CodeGraphBuilder.Build | src/mission_orchestrator/adapters/analysis/builder.py:33-76 | for any files the tables, the files seen and the revision become what the order-free build function says, the revision rises by one exactly when a file was purged or reparsed, and the text index mirrors the nodes; as long as no two files clash, the tables are those filled from empty with the files seen |
| CodeIndexLaws.CollisionLosesARow | src/mission_orchestrator/adapters/analysis/builder.py:57-83 | for any two different files that emit one id, indexing both and then dropping the second loses that row of the first, which a first build has |
| CodeIndex.ChangesMeaning | src/mission_orchestrator/adapters/analysis/builder.py:37-76 | the flag that the two loops compute says that some known file is gone or some listed file is new, touched or forced |
| CodeIndexLaws.SeenCameFromDisk | src/mission_orchestrator/adapters/analysis/builder.py:44-54 | whatever the index holds was listed and on the disk at some build |
| CodeIndexLaws.IncrementalIsFresh | src/mission_orchestrator/adapters/analysis/builder.py:33-76 | after any sequence of edits and builds the files seen are those of a first build, exactly when no listed file whose stat fails had been indexed |
| CodeIndexLaws.DanglingLinkStays | src/mission_orchestrator/adapters/analysis/builder.py:44-47 | an indexed link that dangles now keeps its file in the index, which a first build would not see |
| CodeIndexLaws.IncrementalTablesAreFresh | src/mission_orchestrator/adapters/analysis/builder.py:33-76 | the tables that the builds leave equal those of a first build only under that condition, and then always if no two files of the history clash |
| CodeIndexLaws.TablesAreSeen | src/mission_orchestrator/adapters/analysis/builder.py:33-76 | over a history without clashes the builds leave exactly the tables of the files seen |
| CodeIndexLaws.AlwaysFreshIff | src/mission_orchestrator/adapters/analysis/builder.py:33-83 | all builds over a set of paths leave the tables of a first build, under the condition on stat, if and only if no two of the paths can emit one id |
| CodeIndexLaws.ApartForPython | src/mission_orchestrator/adapters/analysis/builder.py:125-127 | which with names that hold no colon means that no path is another one, a colon, and names joined by dots |
| CodeIndexLaws.ApartForAny | src/mission_orchestrator/adapters/analysis/builder.py:125-127 | and with arbitrary names, that no path is another one followed by a colon and more |
| CodeIndexLaws.PlainPathsAreApart | src/mission_orchestrator/adapters/analysis/builder.py:125-127 | paths without a colon always qualify |
| Impact.DependentsMeaning | src/mission_orchestrator/adapters/analysis/sqlite_graph.py:90-99 | the query lists exactly the links into the node from both tables |
| Impact.DependentsInOrder | src/mission_orchestrator/adapters/analysis/sqlite_graph.py:90-99 | by relation and then by source, with no row twice |
| Impact.ClosedCatches | src/mission_orchestrator/adapters/analysis/cli.py:37-46 | a set closed under sources holds everything that reaches the start |
| Impact.ImpactAnalysis | src/mission_orchestrator/adapters/analysis/cli.py:37-46 | terminates and prints each node that reaches the start by one or more links exactly once, and no other; each line is explained by an earlier one |
| CommandBus.QueueCommandBus.GetNowait | src/mission_orchestrator/adapters/command_bus.py:17-31 | takes the head of deferred followed by queued commands, or nothing exactly when both are empty |
| CommandBus.QueueCommandBus.Defer | src/mission_orchestrator/adapters/command_bus.py:33-34 | puts commands back in front, in order |
| CommandBus.SignalController.WaitResumeOrAbort | src/mission_orchestrator/application/signal_controller.py:36-55 | while paused: ends at the first resume or abort of the stream, having acted on the gate settings in front of it, and puts all else there back in order; waits for ever exactly when the stream holds neither |
| CommandBus.SignalController.CheckSignals | src/mission_orchestrator/application/signal_controller.py:13-34 | terminates for any arrivals; takes only control commands, pauses and resumes in pairs, gate settings in order of arrival; stops at the first abort of the stream and at no other; waits for ever only in a pause that nothing ends; leaves no signal waiting when it lets the mission go on |
| CommandBus.PauseConserves | src/mission_orchestrator/application/signal_controller.py:36-55 | a pause loses no command, takes one resume or the first abort, and nothing else but gate settings |
| CommandBus.ModeIsLast | src/mission_orchestrator/application/signal_controller.py:30-31 | the gate mode afterwards is that of the last gate setting acted on |
| CommandBus.OneActedOn | src/mission_orchestrator/application/signal_controller.py:16-33 | taking one control command keeps the rest in order and gate settings in order of arrival |
| CommandBus.ReadBehind | src/mission_orchestrator/application/signal_controller.py:25-29 | what a nested pause does behind held-back commands is conserved for the whole bus |
| CommandBus.OrdinaryUntouched | src/mission_orchestrator/application/signal_controller.py:13-55 | the commands that are no signals are left exactly as they were: none lost, repeated or moved past another |
| CommandBus.ApprovalCoordinator.WaitTyped | src/mission_orchestrator/application/approval.py:79-90 | takes out the first approve, reject or abort and leaves all other commands in place |
| ShellList.FlattenInjective | src/mission_orchestrator/adapters/tools/bash_policy.py:61-90 | a list of tokens is spelled by at most one well-formed list of pipelines |
| ShellList.FlattenHasNoEmptySegment | src/mission_orchestrator/adapters/tools/bash_policy.py:68-79 | what a well-formed list spells has no empty segment |
| ShellList.Parse | src/mission_orchestrator/adapters/tools/bash_policy.py:61-90 | fails exactly on an empty segment; otherwise returns the one well-formed list that spells the tokens, so parsing and flattening are mutual inverses |
| ShellList.RunPipeline | src/mission_orchestrator/adapters/tools/bash_executor.py:56-70 | for any command runner, the loop computes the trace of stages: output passed on, errors collected, directory carried, stop at failure or timeout |
| ShellList.StagesInTurn | src/mission_orchestrator/adapters/tools/bash_executor.py:56-70 | each stage reads what the one before it wrote, in the directory and world it left; a stage runs exactly when all before it ended with status zero |
| ShellList.PipelineMeaning | src/mission_orchestrator/adapters/tools/bash_executor.py:61-70 | a pipeline writes what its last stage wrote and the errors of all, and has the status and directory of the last stage that ran |
| ShellList.PipelineStatus | src/mission_orchestrator/adapters/tools/bash_executor.py:61-70 | status zero means that every stage ran and succeeded; otherwise the status is the first failure's |
| ShellList.SameAsPosix | src/mission_orchestrator/adapters/tools/bash_executor.py:56-70 | for any runner, a pipeline does stage by stage what it does by sections 2.9.2 and 2.12 of the Shell Command Language of IEEE Std 1003.1-2017, where every stage runs, in a subshell, exactly when it is a single command, or no stage leaves the directory and every stage before the last succeeds |
| ShellList.StatusAgainstPosix | src/mission_orchestrator/adapters/tools/bash_executor.py:61-70 | where all stages end and none before the last leaves the directory, the results here are a prefix of those there, and the status is that of the first stage that fails there |
| ShellList.FirstFailureWins | src/mission_orchestrator/adapters/tools/bash_executor.py:68-69 | `false` piped into `true` has status 1 here and 0 there |
| ShellList.DirectoryIsCarried | src/mission_orchestrator/adapters/tools/bash_executor.py:64-70 | `cd src` piped into `ls` lists src and stays there; there it lists the old directory and stays in that |
| ShellList.Execute | src/mission_orchestrator/adapters/tools/bash_executor.py:36-54 | for any runner: the first pipeline runs, and each later one runs exactly when the status of the last that ran before it is zero for && and not zero for the other operator; each starts in the directory and world that one left; the status is that of the last that ran, and the output is what those that ran wrote, output before errors, in order; this is the left-associative AND-OR list of section 2.9.3 of the Shell Command Language of IEEE Std 1003.1-2017 |
| ShellList.ExpiredForGood | src/mission_orchestrator/adapters/tools/bash_executor.py:52-53 | a timeout ends the whole list |
| Telegram.HandedRises | src/mission_orchestrator/adapters/telegram/listener.py:122-132 | whatever a reply holds, the ids handed on rise strictly between the old and the new offset |
| Telegram.TelegramOffsetStore.Write | src/mission_orchestrator/adapters/telegram/lock.py:91-107 | refuses exactly negative values and then writes nothing |
| Telegram.TelegramOffsetStore.SynchronizeBacklog | src/mission_orchestrator/adapters/telegram/lock.py:109-117 | stores and returns one more than the largest id of the reply, 0 when there is none, and fails exactly when all ids are below -1 |
| Telegram.TelegramListener.Deliver | src/mission_orchestrator/adapters/telegram/listener.py:122-132 | persists each offset before handing the update on, skips what is below the offset or not an integer, and stops at the stop event |
| Telegram.DeliverIsSteps | src/mission_orchestrator/adapters/telegram/listener.py:122-132 | working through a reply of numbered updates, up to wherever the stop event is seen, is a run of the protocol's persist, hand-on and skip steps with the same result |
| Telegram.DeliveryOverAllRuns | src/mission_orchestrator/adapters/telegram/listener.py:82-132 | over all runs with crashes, restarts and competing processes the ids handed on rise strictly, and so are distinct, when the backlog call is never refused or only in harmless states; not when it may always be |
| Telegram.RefusalIsHarmlessIff | src/mission_orchestrator/adapters/telegram/api.py:24 | with only harmless refusals around it, a refusal keeps delivery in order whatever follows exactly when every pending update is still new: not handed on before, or, where ids must rise, above all that were |
| Telegram.OneListener | src/mission_orchestrator/adapters/telegram/lock.py:31-56 | at most one process is at work, and it holds the lock, in any run, whatever the server refuses |
| Chunker.ChunkMessage | src/mission_orchestrator/adapters/telegram/api.py:35-47 | terminates and returns the chunks of the laws below |
| Chunker.SplitMeaning | src/mission_orchestrator/adapters/telegram/api.py:41-43 | a message is cut at its last newline within the limit that leaves a chunk in front, else at the limit |
| Chunker.ChunksRebuildTheText | src/mission_orchestrator/adapters/telegram/api.py:35-47 | the text is the chunks interleaved with runs of newlines |
| Chunker.ChunksFit | src/mission_orchestrator/adapters/telegram/api.py:35-47 | every chunk has at most 4096 characters, only the last may be empty, only the first may begin with a newline, and a short chunk before the last was cut at a newline |
| Chunker.NothingVisibleIsLost | src/mission_orchestrator/adapters/telegram/api.py:35-47 | no character but newlines is lost, added or moved |

## Left out

- ContractExecution.CompletionWasValidated: assumes distinct execution ids, since `uuid4` is random; two services sharing one state file are outside it.
- DesignStore.ReachableIsReplay: treats one `apply` as one atomic step, although the source takes no write lock before it reads the revision.
- CodeIndex.CodeGraphBuilder.Build: a file that has a time stamp and cannot be read ends the build with an exception, which is not modelled; parsing text into a syntax tree is given.
- CodeIndexLaws.IncrementalIsFresh: takes equal modification times as equal contents, as the source does.
- CommandBus.SignalController.CheckSignals: a wait that outlasts every arrival ends the model with an outcome of its own, since the source waits for ever.
- ShellList.SameAsPosix: runs the stages of both pipelines one after the other; that the shell runs them at the same time is not modelled.
- Session.StrayIsReachable: the status of the task is not part of the session, so that it has failed (src/mission_orchestrator/application/interactive_task_coordinator.py:206) is seen from the course of the run.
- Telegram.DeliverIsSteps: ids of the server are numbers; the reply entries that `Deliver` skips for lack of one do not occur in the protocol.
- Telegram.DeliveryOverAllRuns: the server numbers updates upwards and forgets only confirmed ones; its random renumbering after an idle week is not modelled.
- The coordinators' documents, artifacts, events, leases and phase contents: each is the outcome it has for the session, given as a parameter; their action locks are covered by letting other callers save at any time.
- A blocked reason is the set of markers it contains, the leading one, and whether it mentions unresolved issues; the rest of the text is not kept.
- `TaskExecutor`'s task repository and snapshot updates, which copy what the array holds.
- JSON scalars other than null, text and lists of text in design operations; authors and time stamps of log rows; `approve`, its snapshot hash and the retry of `wait_for_approval`.
- The order of plan errors and gate reasons, and their wording.
- `apply_patch`, file reading and path checks of a chat execution; the contract verifier's source checks, which are an arbitrary pass or fail.
- Tokenizing, the allow-list, path checks and the built-in commands of the Bash tool; the trimming of its report.
- The listener's back-off, health states and command handling; Telegram's HTTP calls.
- Titles, complexity and other task fields that no modelled decision reads.
- SQLite, git, subprocess and file access: tables are maps and sets, outcomes are given.
- Provider loops, web interface, prompts, notifier, logger, reports, document catalog, cost ledger and model policy.
- Liveness of waits for a human.
