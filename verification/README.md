# mc_ai_bt in Dafny

mc_ai_bt turns an operator's intent into a behaviour tree, checks the tree against a schema and a policy, runs it on a
robot, and schedules the missions that own these trees. This project models three connected pieces of it and proves
what they promise together.

**Trees and their runs.** `BehaviourTree` holds the node kinds, the blackboard and the results. `Interleaving` is the
executor as threads: a small-step semantics in which the branches of a Parallel interleave, the mission's cancel flag
may be seen set at any step, a Timeout may fire at any moment, and the thread of a fired Timeout lives on. `Validator`
and `PolicyGuard` are the static checkers; `ResourceExclusion`, `RunBudget`, `ResultFlags`, `Progress`,
`RetryProgress`, `ShortRuns` and `GoalClosure` say what their verdicts mean for every interleaving. `Executor` is the
interpreter itself, loops and all, over an oracle for skills, checks and clocks; `ExecutorMeaning` says what each call
means in terms of the oracle's answers, and `ExecutorRuns` that each is one run of the threads. `PlanRules` reads the
two checkers rule by rule. Occurrence paths are child indices from the root; the child of a Retry or Timeout has
index 0 for every attempt.

**Missions.** `Missions` has the records and the scheduler's operations as functions, `MissionManager` the object with
its dictionaries, `NodeProtocol` the node around it: planner threads, runner threads, cancel events and the journal,
with every handler, trigger and thread end as one atomic step, and `AiBtNode` the handlers as methods.
`MissionRecords` and `RunEnds` say field by field what operations, thread ends and triggers make of the records.
`MissionHistory`, `SingleSlot`, `Repause`, `NodeSafety`, `Recovery` and `NodeService` prove what every run keeps;
`SchedulerCases` has the histories in which the scheduler does less than one might expect. The two classes keep what
is proved of the runs: a valid manager has the single slot, a valid node serves its missions and could crash at any
moment. Mission and execution ids are numbers drawn fresh: ids of one fixed length compare in order as numbers do.

**Planning.** `GoalCompiler`, `Producers`, `RedundantPrefix`, `GateRemoval`, `Provenance` and `VisualFallback` are the
stages of the pipeline. `SkillTerms`, `PrefixRule`, `Attachments`, `ProducerRule` and `FallbackRule` say on the tree
when exactly a stage changes a plan and to what, without the lists that the stages collect; `GateRuns` shows that
removing gates changes no run. `PlanningPipeline` is the composition of the stages, `AcceptedPlans` what became of the
planner's steps at the end of it, and `MissionOutcome` what the runner makes of a run. The skill registry, the policy limits, the extracted
constraints, the grounded aliases and the text functions are parameters, so the results hold for any of them. In the
results about the Fallback rewrite an oracle answers from the visible history of the run and from a node without its
`node_id`.

## Where the code does less than one might expect

- A plan that finishes while its mission is PAUSED, or QUEUED again after a resume, is applied: both keep the identity
  and `set_plan` looks at no state. Two missions then hold the slot (`SchedulerCases.LatePlanBreaksSingleSlot`,
  `LatePlanLeavesQueue`). `SingleSlot.SetPlanKeepsSlotIff` and `ReplanKeepsSlotIff` give the exact condition. The node's
  results assume that a plan result finds its own mission in PLANNING; `request_replan` is only ever called on the active
  mission, which meets the condition.
- A mission resumed into the queue keeps its identity, so a late result of the run that its pause stopped is accepted
  again (`QueuedMissionAcceptsStoppedRun`), and keeps its tree. A mission in PLANNING has a planner if and only if it has
  no tree (`NodeService.EveryMissionIsServed`), so once promoted such a mission waits for a planner that is not there
  (`NodeService.PromotedIsNotServed`, a run of the node).
- A mission may queue behind a paused one: a paused mission lets submissions pass, but not a resume
  (`QueuedBehindPaused`).
- The first accepted plan need not have version 1 (`FirstPlanAfterTwoReplans`): in every run its version is the number of
  times the mission was sent back to planning before, at least 1 (`MissionHistory.FirstPlanVersion`).
- The re-pause guard compares with the status text at the time of the resume. An empty reason is stored as "paused",
  and a progress report that arrives while the mission is paused overwrites the reason; both slip past the guard
  (`Repause.EmptyReasonSlipsThrough`, `LateProgressSlipsThrough`).
- A successful run without any Fallback that uses every attempt of its Retry may end at a progress below 1
  (`ExecutorRuns.SuccessMayEndShort`): leaves behind the one that failed in an earlier attempt are never made up for.
  Whether a tree excludes that can be told from the tree: `ShortRuns.FullRunsEndAtOneIff` says that all such runs end at 1
  if and only if no Retry of two or more attempts has a child that may fail short, or some such Retry has a child that
  cannot fail at all, in which case there is no such run (`FullRunExistsIff`). A Wait or WaitForEvent fails only when it
  sees the cancel flag or is blocked, so it counts among what cannot fail (`WaitThenTryEndsAtOne`, `WaitTwiceHasNoFullRun`).
- The Fallback rewrite keeps a success of the rewritten plan a success of the original, except exactly when the original
  ends by speaking and the mission was cancelled before that last word (`VisualFallback.RewriteShortens`,
  `LastWordRefused`).
- A plan that marks its goal node still has the planner's own goal checked by the validator, which may refuse the plan for
  a goal that would have been thrown away (`PlanningPipeline.PlannersGoalIsOnlyValidated`, `UnknownPredicateIsRefused`).

## Model

| member | source | states |
|---|---|---|
| Validator.PlanValidator.ValidateNode | mc_ai_bt/validator.py:85-232 | errors only grow, and grow exactly when some node of the subtree breaks a schema rule |
| Validator.PlanValidator.CollectActionResources | mc_ai_bt/validator.py:260-276 | the set grown in the loop is the resources of every Action of the subtree |
| Validator.PlanValidator.ValidateParallelResourceConflicts | mc_ai_bt/validator.py:234-258 | an error exactly when two branches of the Parallel need conflicting resources |
| Validator.WholeBodyIsAlone | mc_ai_bt/validator.py:234-258 | while one branch of a validated Parallel needs the whole body, no other branch needs the body or any part of it |
| Validator.ConflictMeans | mc_ai_bt/validator.py:324-340 | the body conflicts with itself and with each of its five parts, different parts with each other do not, and any other resource conflicts with itself alone |
| Validator.PlanValidator.ValidateGoalSpec | mc_ai_bt/validator.py:278-297 | errors grow exactly when the goal a planner wrote breaks a rule |
| Validator.PlanValidator.Validate | mc_ai_bt/validator.py:67-83 | a plan passes exactly when every node of its tree and its goal obey the rules |
| PlanRules.ValidatedIff | mc_ai_bt/validator.py:85-276 | a tree is valid exactly when every node at every path has the shape its kind asks for, with the bounds written out, and no two children of a Parallel hold Actions whose resources conflict |
| PlanRules.GoalSchemaMeans | mc_ai_bt/validator.py:278-297 | a goal is valid exactly when its type is known, it says how to verify, and a structured one names a known predicate or none, a visual one its query |
| ResourceExclusion.NoConcurrentResourceConflict | mc_ai_bt/validator.py:234-276 | in every interleaving of a validated tree, under any outcomes, cancellations and Timeouts that fire, each leaf in progress is in progress once, and two of them meet at a Parallel and need no conflicting resources |
| ResourceExclusion.OrphansMeanBlocked | mc_ai_bt/executor.py:543-590 | a call that returns while a thread it started is alive returns blocked, and the threads left behind begin no further leaf |
| Interleaving.FiredThreadLivesOn | mc_ai_bt/executor.py:543-590 | a Timeout may fire at any moment until its child is done; the call returns blocked, and the child's thread goes on under a set flag |
| ResourceExclusion.ApartActionsDoNotConflict | mc_ai_bt/validator.py:234-276 | two occurrences whose lowest common ancestor is a Parallel of a validated tree have no resource conflict |
| RunBudget.RunConserves | mc_ai_bt/executor.py:150-300 | for any prices, what a run spent, what it gave up and what is outstanding add up to the static count of the tree, at every moment of every interleaving |
| RunBudget.RunWithinTally | mc_ai_bt/executor.py:436-471 | no run spends more than the static count, in which a Retry counts its child once per attempt |
| PolicyGuard.Guard.Walk | mc_ai_bt/policy_guard.py:168-267 | the walk moves every counter by the subtree's count times the retry multiplier, and objects exactly when a node is unsafe |
| PolicyGuard.Guard.CountLeaf | mc_ai_bt/policy_guard.py:302-320 | which counters one leaf moves |
| PolicyGuard.Guard.CheckTotals | mc_ai_bt/policy_guard.py:637-658 | an objection exactly when some total exceeds its limit |
| PolicyGuard.Guard.CheckGoalAlignment | mc_ai_bt/policy_guard.py:660-704 | an objection exactly when a physical plan has an implicit goal, or a goal that other physical skills bring about but none of the plan's |
| PolicyGuard.Guard.Check | mc_ai_bt/policy_guard.py:151-166 | accepts exactly the plans that are safe at every node, within every limit and aligned with their goal |
| PlanRules.SafeIff | mc_ai_bt/policy_guard.py:168-300 | a tree is safe exactly when every node is: known available skills with good arguments, plain predicate names, polls within their bounds, no branch of a Fallback that contains a Condition that is never FALSE |
| PlanRules.AlignedIff | mc_ai_bt/policy_guard.py:660-704 | a goal is aligned exactly when no Action moves the robot, or it is explicit and some moving Action of the tree brings it about, if any moving skill does |
| PlanRules.RetryProductMeans | mc_ai_bt/policy_guard.py:193-206 | the retry product is the product of the attempts of all Retries in the tree |
| PolicyGuard.WalkCountIsTally | mc_ai_bt/policy_guard.py:168-225 | on validated trees the walk's count is what a run can spend |
| PolicyGuard.BudgetsBoundEveryRun | mc_ai_bt/policy_guard.py:637-658 | one execution of an accepted tree makes at most as many node visits, skill calls of each kind, checks and seconds of Wait as the limits allow |
| PolicyGuard.ShippedBudgets | mc_ai_bt/policy_guard.py:102-113 | under the shipped limits: at most 12 skill calls, 4 physical ones, 6 of the base and 3 of the body, 4 visual checks, 8 other checks, 32 visits and 30 seconds of Wait |
| ResultFlags.RootFlagsAreLeafFlags | mc_ai_bt/executor.py:180-219 | while no Timeout fires, the root is blocked, or asks for a decision, exactly when some visited leaf did |
| ResultFlags.BlackboardIsFold | mc_ai_bt/executor.py:167-219 | in a Parallel-free tree each leaf sees, and the root returns, the left fold of the facts of the leaves before |
| ResultFlags.FirstBlockedIsLast | mc_ai_bt/executor.py:442-471 | in a Parallel-free tree no leaf runs after the first blocked one |
| BehaviourTree.MergeFlags | mc_ai_bt/executor.py:522-541 | a Parallel succeeds when all branches do and is blocked, or asks for a decision, when one does |
| Progress.ClampNeverNeeded | mc_ai_bt/executor.py:860-897 | completed leaves never exceed the static count, so the clamp is never needed, and progress never falls |
| Progress.CountIsTally | mc_ai_bt/executor.py:860-876 | the static leaf count of a validated tree is what a run can complete, and is at least one |
| RetryProgress.FirmEndsAtOne | mc_ai_bt/executor.py:302-319 | where no Retry may start over after an attempt that failed short, every successful Fallback-free execution that uses every attempt ends at exactly 1, in every interleaving |
| RetryProgress.SingleAttemptsEndAtOne | mc_ai_bt/executor.py:302-319 | where no Retry makes a second attempt, success without Fallbacks alone is enough |
| ShortRuns.ShortRunExists | mc_ai_bt/executor.py:420-471 | in every other tree some such execution leaves leaves out |
| ShortRuns.FullRunExistsIff | mc_ai_bt/executor.py:445-471 | such executions exist if and only if no Retry of two or more attempts has a child that cannot fail |
| ShortRuns.WaitThenTryEndsAtOne | mc_ai_bt/executor.py:401-418 | a Wait in front of the Action that a Retry repeats costs no progress: an interrupted Wait ends the Retry, so every such execution ends at 1 |
| ShortRuns.WaitTwiceHasNoFullRun | mc_ai_bt/executor.py:401-418 | no execution that succeeds uses both attempts at a Wait |
| ShortRuns.FullRunsEndAtOneIff | mc_ai_bt/executor.py:860-897 | the condition on the tree is exact: it is necessary and sufficient for all such executions to end at 1 |
| Executor.LinkedCancel.Set | mc_ai_bt/executor.py:900-909 | a linked cancel flag is set once it or a flag it is linked to is |
| Executor.BtExecutor.Execute | mc_ai_bt/executor.py:150-300 | one call returns the result, visits the leaves and counts the progress that Eval says |
| Executor.BtExecutor.ExecuteSequence | mc_ai_bt/executor.py:180-198 | the Sequence loop against Eval |
| Executor.BtExecutor.ExecuteFallback | mc_ai_bt/executor.py:199-219 | the Fallback loop against Eval |
| Executor.BtExecutor.ExecuteRetry | mc_ai_bt/executor.py:420-471 | the attempt loop against Eval, cancel tests included |
| Executor.BtExecutor.ExecuteParallel | mc_ai_bt/executor.py:473-521 | branches with their own blackboard copies and a shared linked cancel flag, against Eval |
| Executor.BtExecutor.JoinBranches | mc_ai_bt/executor.py:522-541 | the join loop merges facts in branch order and ors the flags of failed branches |
| Executor.BtExecutor.ExecuteTimeout | mc_ai_bt/executor.py:543-590 | an expired Timeout returns blocked on the starting blackboard |
| Executor.LeafResultIsOutcome | mc_ai_bt/executor.py:321-400 | whatever skills, checkers and resolver answer, a leaf returns an outcome the thread semantics allows: no success while blocked, no decision request from a skill |
| ExecutorMeaning.CheckLeafMeans | mc_ai_bt/executor.py:734-772 | a Condition or GoalCheck succeeds exactly when the checker says TRUE, or does not know where inline resolution is on and the resolver says TRUE; fails exactly on FALSE in the same sense; asks for a decision exactly when it stays UNKNOWN; is blocked without asking exactly when no checker is wired |
| ExecutorMeaning.VisualLeafMeans | mc_ai_bt/executor.py:673-730 | a condition-mode VisualCheck succeeds on TRUE and fails on FALSE, an observe-mode one succeeds on both and records which it was; the structured form's answer comes first, then the visual service's |
| ExecutorMeaning.ActionLeafMeans | mc_ai_bt/executor.py:321-400 | an Action returns what its skill reports, unless that is blocked with an approved postcondition and inline resolution is on: then TRUE makes it succeed, FALSE makes it fail, and no answer leaves it blocked |
| ExecutorMeaning.WaitingLeafMeans | mc_ai_bt/executor.py:401-418 | a Wait succeeds exactly when its duration is within 300 seconds and it is not interrupted, a WaitForEvent exactly when the event happened; a missed deadline asks for a decision, an interruption fails, a missing checker blocks |
| ExecutorMeaning.SequenceMeans | mc_ai_bt/executor.py:180-198 | a Sequence calls its children in order on the facts so far, up to the first that does not succeed, and takes its flags |
| ExecutorMeaning.FallbackMeans | mc_ai_bt/executor.py:199-219 | a Fallback calls its children in order up to the first that succeeds or is blocked, and fails when all have failed |
| ExecutorMeaning.RetryMeans | mc_ai_bt/executor.py:420-471 | a Retry calls its child again up to the first success, block or cancel, without inline resolution |
| ExecutorMeaning.ParallelMeans | mc_ai_bt/executor.py:473-541 | each branch of a Parallel starts from the Parallel's own blackboard and, once a branch failed where that cancels, sees the flag set; the last branch that writes a fact has the last word, a block or a decision request of any branch is the Parallel's |
| ExecutorMeaning.TimeoutMeans | mc_ai_bt/executor.py:543-590 | a Timeout outside 0 to 600 seconds fails, an expired one is blocked on its starting blackboard, any other is its child's call without inline resolution |
| Executor.ResolverOnlyInline | mc_ai_bt/executor.py:448-464 | the decision resolver is never consulted inside a Retry, Parallel or Timeout |
| ExecutorRuns.EvalIsRun | mc_ai_bt/executor.py:150-300 | every executor call is a run of the threads with the same result, history and progress count; where the flag is never cleared, the run sees it as the history has it |
| ExecutorRuns.ExecutorEndsAtOne | mc_ai_bt/executor.py:302-319 | where no Retry makes a second attempt and the flag is never cleared, the executor's counter stands at the leaf count when it succeeds without Fallbacks |
| ExecutorRuns.ExecutorFlagsAreTraceFlags | mc_ai_bt/executor.py:180-219 | the executor's flags are exactly those of the leaves in its trace while no Timeout expires |
| ExecutorRuns.CounterWithinTotal | mc_ai_bt/executor.py:302-319 | the progress counter of the executor never passes the leaf count |
| ExecutorRuns.ExecutorWithinBudget | mc_ai_bt/policy_guard.py:637-658 | the executor's run of an accepted tree keeps the policy's action limits |
| ExecutorRuns.SuccessMayEndShort | mc_ai_bt/executor.py:420-471 | a validated Fallback-free tree, a successful run using every Retry attempt, and a final progress of 3/4 |
| GoalClosure.SuccessVisitsEveryLeaf | mc_ai_bt/executor.py:180-198 | a successful execution of a Fallback-free tree visited every leaf, and the last visit of each succeeded |
| GoalClosure.ObservationIsRecorded | mc_ai_bt/executor.py:798-832 | after a successful execution with an observe-mode VisualCheck the facts hold a completed observation that some observer of this run made |
| GoalClosure.ObservedGoalIsMet | mc_ai_bt/goal_check.py:368-373 | when the marked observation compiled to the goal and the execution succeeded, the marked node succeeded and the final check is TRUE for a TRUE and a FALSE answer alike |
| GoalClosure.MarkedLeafSucceeded | mc_ai_bt/planning_pipeline.py:1581-1709 | a leaf marked as goal node really succeeded when a Fallback-free execution did |
| GoalCheck.BoundedResultFacts | mc_ai_bt/mission.py:166-195 | the outcome reports at most the one trusted fact, unchanged and only when completed |
| GoalCheck.CheckMeans | mc_ai_bt/goal_check.py:219-286 | the final check: FALSE for a failed execution or an unknown type; TRUE for a goal a human accepts implicitly, the operator's answer for one that asks for it, UNKNOWN for other human goals; otherwise the evidence for its predicate, the execution's own first |
| MissionOutcome.OutcomeTracesBack | mc_ai_bt/node.py:446-512 | while no Timeout fires each of the four outcomes is characterised by the run behind it: which leaf was blocked or asked, whether the execution succeeded, and whether the final check or the decision in its place is TRUE, FALSE or open |
| RunEnds.RunnerEndRecorded | mc_ai_bt/node.py:446-535 | the mission of an accepted runner ends SUCCEEDED exactly when its execution succeeded and its goal is affirmed, FAILED exactly when nothing was blocked and the execution failed or the goal is denied, PAUSED exactly when a decision is asked for that it was not just resumed from, BLOCKED otherwise; a runner that is not accepted changes no mission |
| RunEnds.StepRecorded | mc_ai_bt/node.py:313-346 | what every thread end and trigger makes of the mission it means, and that one whose identity does not stand, or whose wish does not match the active mission, changes nothing |
| MissionOutcome.ObservationMissionSucceeds | mc_ai_bt/node.py:446-518 | an observation mission whose execution succeeds is marked a success without any decision, and reports an answer of its own run |
| MissionManager.Manager.constructor | mc_ai_bt/mission.py:249-258 | a manager over mission records, active on the best live one; idle and valid over recovered ones |
| MissionManager.Manager.PickBest | mc_ai_bt/mission.py:665-685 | of the candidates the one of highest priority, least id on ties |
| MissionManager.Manager.SubmitTask | mc_ai_bt/mission.py:260-301 | submit: rejection, queueing or taking the slot; the single slot is kept |
| MissionManager.Manager.ApplyPlan | mc_ai_bt/mission.py:320-343 | set_plan: refused on a stale identity or terminal mission, else a new running identity; the single slot is kept exactly when the slot was free for the mission |
| MissionManager.Manager.Replan | mc_ai_bt/mission.py:345-372 | request_replan: next version, no plan, the slot; the single slot is kept exactly when the slot was free for the mission |
| MissionManager.Manager.PauseTask | mc_ai_bt/mission.py:374-430 | pause: no change when paused, BLOCKED on an identical re-pause and the slot to the best of the queue, else PAUSED; the single slot is kept |
| MissionManager.Manager.ResumeTask | mc_ai_bt/mission.py:432-476 | resume: the slot if it is free or its own, else the queue, and the recorded reason; the single slot is kept |
| MissionManager.Manager.ReprioritizeTask | mc_ai_bt/mission.py:478-534 | reprioritize: the new priority, and preemption of a lower active mission, which loses the slot to it; the single slot is kept |
| MissionManager.Manager.CancelTask | mc_ai_bt/mission.py:536-554 | cancel: terminal, and only its own slot passes on, to the best of the queue; the single slot is kept |
| MissionManager.Manager.End | mc_ai_bt/mission.py:556-596 | mark_terminal: terminal, and only its own slot passes on, to the best of the queue; the single slot is kept |
| MissionManager.Manager.AcceptsAsyncResult | mc_ai_bt/mission.py:598-608 | may a result computed under this identity still count |
| MissionManager.Manager.Report | mc_ai_bt/mission.py:610-628 | update_status under the expected identity; the slot stays where it is |
| Missions.BestMeans | mc_ai_bt/mission.py:665-685 | the best of a set of missions is strictly ahead of every other: of higher priority, or of the same and a smaller id |
| MissionRecords.RefusedIff | mc_ai_bt/mission.py:636-663 | when exactly an operation is refused |
| MissionRecords.SubmissionRecorded | mc_ai_bt/mission.py:260-318 | when a submission is accepted, when it queues, and the record it leaves, priority clamped and title cut |
| MissionRecords.StateLaw | mc_ai_bt/mission.py:320-596 | the state of every mission after every operation |
| MissionRecords.SlotLaw | mc_ai_bt/mission.py:320-596 | who is active after every operation: a mission that ends or is paused passes the slot to the best of the queue |
| MissionRecords.PriorityLaw | mc_ai_bt/mission.py:478-534 | a priority changes only when its mission is reprioritised, and is then the requested one clamped to 0..255, preempting or not |
| MissionRecords.ProgressLaw | mc_ai_bt/mission.py:610-628 | progress changes only by a report, clamped to 0..1, and by success |
| MissionRecords.PlanLaw | mc_ai_bt/mission.py:320-372 | a mission gets its tree and goal from a plan, loses them when it is replanned, demoted or preempts, and keeps them otherwise |
| MissionRecords.IdentityLaw | mc_ai_bt/mission.py:320-476 | which operation draws a new execution, which starts a new version, and that no other touches an identity |
| MissionRecords.RequestStays | mc_ai_bt/mission.py:260-628 | intent, context, title, queueing and origin of a mission never change |
| MissionRecords.EventLaw | mc_ai_bt/mission.py:320-596 | which event every operation publishes, and whom it names as preempted |
| MissionRecords.RunKeepsRange | mc_ai_bt/mission.py:260-628 | in every run priorities stay within 0..255, progress within 0..1, and a SUCCEEDED mission stands at 1 |
| SingleSlot.RunKeepsSlot | mc_ai_bt/mission.py:260-534 | in every run at most one mission is PLANNING or RUNNING and it is the active one, the active one is PLANNING, RUNNING or PAUSED, and nobody is queued for a free slot |
| SingleSlot.StepKeepsSlot | mc_ai_bt/mission.py:687-719 | each operation keeps that |
| SingleSlot.SetPlanKeepsSlotIff | mc_ai_bt/mission.py:320-343 | set_plan keeps it exactly when no other mission is being planned or run |
| SingleSlot.ReplanKeepsSlotIff | mc_ai_bt/mission.py:345-372 | the same for request_replan |
| SingleSlot.PromotionPicksBest | mc_ai_bt/mission.py:665-719 | a queued mission that starts being planned is the best of the queue, or a caller preempted a lower one with it |
| SingleSlot.OtherMissionsUntouched | mc_ai_bt/mission.py:478-534 | an operation touches its subject, the promoted best of the queue and a preempted active mission, and no other |
| MissionHistory.NothingIsLost | mc_ai_bt/mission.py:645-655 | over any stretch of a run no mission is lost, terminal records are unchanged and versions never decrease |
| MissionHistory.AcceptedIff | mc_ai_bt/mission.py:598-608 | an execution identity a mission once had is accepted later exactly when it is still the mission's and the mission is neither PAUSED nor terminal |
| MissionHistory.NoLateAcceptance | mc_ai_bt/identity.py:33-51 | an identity a mission has left never comes back, and no result computed under it is accepted again |
| MissionHistory.PlanVersionsIncrease | mc_ai_bt/mission.py:328-343 | every accepted plan of a mission has a version greater than every one accepted before |
| MissionHistory.FirstPlanVersion | mc_ai_bt/mission.py:328-343 | in every run the version of the first accepted plan is the number of times the mission was sent back to planning since its submission, at least 1 |
| MissionHistory.AtMostOneResultApplied | mc_ai_bt/mission.py:645-655 | after a plan was applied under an expected identity, no plan and no failure under it changes anything |
| Repause.NoSilentRepauseLoop | mc_ai_bt/mission.py:416-426 | resumed straight to RUNNING from a recorded reason, the next pause for that reason blocks the mission and its slot goes to the best of the queue, whatever else happened meanwhile |
| Repause.PauseBlocksIff | mc_ai_bt/mission.py:416-430 | a pause blocks instead exactly when its reason is the recorded one, and the slot goes to the best of the queue |
| Repause.EmptyReasonSlipsThrough | mc_ai_bt/mission.py:426-430 | with an empty reason the same pause twice is not noticed |
| Repause.LateProgressSlipsThrough | mc_ai_bt/node.py:861-879 | a progress report during the pause hides the reason from the guard |
| SchedulerCases.LatePlanBreaksSingleSlot | mc_ai_bt/mission.py:328-343 | a late plan of a paused mission gives two missions the slot |
| SchedulerCases.LatePlanLeavesQueue | mc_ai_bt/mission.py:446-460 | a reached history in which the plan of a mission resumed into the queue is applied and two missions hold the slot |
| SchedulerCases.QueuedMissionAcceptsStoppedRun | mc_ai_bt/mission.py:446-460 | a mission resumed into the queue accepts the run its pause had stopped |
| SchedulerCases.PromotedWithOldPlan | mc_ai_bt/mission.py:687-694 | such a mission, promoted, is PLANNING with its old tree |
| SchedulerCases.QueuedBehindPaused | mc_ai_bt/mission.py:446-460 | a resumed mission may queue behind a paused active one |
| SchedulerCases.FirstPlanAfterTwoReplans | mc_ai_bt/mission.py:328-372 | a first accepted plan with version 2 |
| NodeSafety.NextKeepsInv | mc_ai_bt/node.py:252-535 | every step of the node keeps the invariant over missions, planner and runner threads and cancel events |
| NodeService.EveryMissionIsServed | mc_ai_bt/node.py:405-417 | in every run each RUNNING mission has a runner in flight with exactly its identity, and each PLANNING mission has a planner with its identity if and only if it has no tree |
| NodeService.PromotedIsNotServed | mc_ai_bt/node.py:561-569 | a run of the node from its boot that ends with the active mission in PLANNING, its old tree, and no planner |
| NodeSafety.SupersededRunnersAreCanceled | mc_ai_bt/node.py:571-680 | every other runner in flight has its cancel event set |
| NodeSafety.OnePlanPerIdentity | mc_ai_bt/node.py:313-346 | for one expected identity at most one plan is applied, duplicate planners or not, and later results change no mission |
| NodeSafety.NodeRunIsChain | mc_ai_bt/node.py:313-346 | a run of the node is a run of its scheduler, so identities, versions and terminal records fare as there |
| AiBtNode.MissionNode.MissionIsServed | mc_ai_bt/node.py:405-417 | between any two handlers: the running mission has its runner, a planned one its planner exactly while it has no tree, the journal knows both |
| AiBtNode.MissionNode.HandleSubmit | mc_ai_bt/node.py:252-277 | the submit handler takes the step of the protocol and keeps the node valid, as do all below |
| AiBtNode.MissionNode.PlanFinished | mc_ai_bt/node.py:332-346 | a planner's tree: applied under the expected identity and run, or ignored |
| AiBtNode.MissionNode.PlanFailed | mc_ai_bt/node.py:313-330 | a planner's failure: the mission fails, or it is ignored |
| AiBtNode.MissionNode.LaunchRunner | mc_ai_bt/node.py:405-417 | a runner under its own key with a fresh cancel event |
| AiBtNode.MissionNode.RunnerFinished | mc_ai_bt/node.py:497-535 | a runner's outcome is filtered by identity, then its cancel event goes |
| AiBtNode.MissionNode.StartNext | mc_ai_bt/node.py:561-569 | the scan for a ready mission starts a planner for the active mission if that one is ready, there being no other |
| AiBtNode.MissionNode.HandleCancel | mc_ai_bt/node.py:571-593 | the cancel handler |
| AiBtNode.MissionNode.HandlePause | mc_ai_bt/node.py:595-619 | the pause handler |
| AiBtNode.MissionNode.HandleResume | mc_ai_bt/node.py:621-640 | the resume handler |
| AiBtNode.MissionNode.HandleReprioritize | mc_ai_bt/node.py:642-680 | the reprioritize handler |
| AiBtNode.MissionNode.OnExecutionProgress | mc_ai_bt/node.py:861-879 | a progress report under the runner's identity |
| AiBtNode.MissionNode.BlockActiveFromTrigger | mc_ai_bt/node.py:932-952 | the trigger that blocks the active mission |
| AiBtNode.MissionNode.ReplanActiveFromTrigger | mc_ai_bt/node.py:954-992 | the trigger that sends the active mission back to planning |
| AiBtNode.MissionNode.PlanNewMissionFromTrigger | mc_ai_bt/node.py:994-1032 | the trigger that submits a mission when none is active |
| Recovery.CrashRecovery | mc_ai_bt/mission_journal.py:43-56 | stopped at any point of any run and rebuilt from the journal, every terminal mission is back exactly, every other as BLOCKED with its request and priority, and besides them exactly the submissions the run rejected; nobody is active and nothing live |
| Recovery.RecoveryIsIdempotent | mc_ai_bt/mission_journal.py:96-106 | recovering again, with or without the recovered records journaled, changes nothing |
| Recovery.BootIsSafe | mc_ai_bt/node.py:211-226 | a node booted from any journal starts with all invariants and no active mission |
| Recovery.RunKeepsJournal | mc_ai_bt/node.py:810-813 | at every point of a run the journal knows every mission, terminal ones exactly, though promoted and demoted missions are not journaled |
| Recovery.MissionJournal.Append | mc_ai_bt/mission_journal.py:30-41 | one more record at the end |
| Recovery.MissionJournal.LoadLatestMissions | mc_ai_bt/mission_journal.py:43-56 | the last record of every mission, recovered |
| GoalCompiler.GoalPlan.CompileFromGoalNode | mc_ai_bt/planning_pipeline.py:1581-1709 | the marker is consumed and the new goal depends on tree and marker alone |
| GoalCompiler.GoalPlan.GoalRelevantNodesInOrder | mc_ai_bt/planning_pipeline.py:1337-1354 | the Actions and VisualChecks in tree order |
| GoalCompiler.GoalPlan.EligibleCandidates | mc_ai_bt/planning_pipeline.py:1393-1411 | the nodes that may stand for the goal |
| GoalCompiler.CompiledGoalIsOfMark | mc_ai_bt/planning_pipeline.py:1639-1709 | a marker compiles to a goal exactly when the first node of that id stands for it: a non-voice Action with exactly one result gives that predicate with its own args, a listed observation with nothing eligible behind it the observation goal, a voice Action the goal of the one eligible leaf; everything else is unresolved |
| GoalCompiler.CompiledGoalHasAnswer | mc_ai_bt/planning_pipeline.py:1581-1709 | a compiled goal is unresolved, or a non-voice Action with exactly that result, or an observation nothing eligible follows, answers for it |
| GoalCompiler.AcceptedGoalIsAnswered | mc_ai_bt/policy_guard.py:660-704 | an accepted plan with a marked node that moves the robot has such an answer |
| Producers.OldPlanIsPrefix | mc_ai_bt/planning_pipeline.py:575-689 | the append leaves the old tree as an unchanged prefix |
| Producers.EveryDemandIsMet | mc_ai_bt/planning_pipeline.py:638-689 | afterwards every trusted, valid person constraint's alias has a producer |
| Producers.AppendIsIdempotent | mc_ai_bt/planning_pipeline.py:638-689 | a second append adds nothing |
| ProducerRule.OnlyCalledForAppended | mc_ai_bt/planning_pipeline.py:638-689 | every appended Action binds a person whom a trusted constraint that holds names and whom no leaf of the plan binds, with that constraint's id, and no two bind the same |
| RedundantPrefix.OnlyEarlierSiblingsGo | mc_ai_bt/planning_pipeline.py:904-1031 | only earlier siblings of the unique terminal go, each repeating its search or looking where nobody asked to; no wrapper is dropped, no Sequence emptied, the leaf list is the old one without them |
| RedundantPrefix.PrefixRemovalIsIdempotent | mc_ai_bt/planning_pipeline.py:1119-1137 | a second application changes nothing |
| PrefixRule.PrefixGoesIff | mc_ai_bt/planning_pipeline.py:873-1026 | the plan changes exactly when one moving Action finds its own target, stands in a Sequence, all that moves besides stands in front of it there and looks or searches for its target, with at most one look and none beside a known entity, and there is a search or an unasked look; then exactly these go |
| GateRuns.RunsSurviveRemoval | mc_ai_bt/planning_pipeline.py:1042-1116 | every run of the plan in which the dropped gates answer TRUE is a run of the rewritten plan: the other leaves begin and end in the same order with the same blackboards and results, and so does the execution, in every interleaving, with every cancel and every Timeout that fires |
| GateRuns.RemovalAddsNoRuns | mc_ai_bt/planning_pipeline.py:1042-1116 | every run of the rewritten plan is such a run of the plan |
| GateRemoval.OthersKept | mc_ai_bt/planning_pipeline.py:1076-1114 | whatever is no gate stays, in order |
| GateRemoval.ActionsKept | mc_ai_bt/planning_pipeline.py:1076-1114 | every Action stays, in order |
| GateRemoval.SettledIsFixed | mc_ai_bt/planning_pipeline.py:1076-1114 | the rewrite does nothing exactly when no gate is resolved by a later sibling and produced by no earlier one |
| GateRemoval.RemovalIsIdempotent | mc_ai_bt/planning_pipeline.py:1042-1116 | a second application changes nothing |
| GateRemoval.SequenceLosesGates | mc_ai_bt/planning_pipeline.py:1042-1114 | a Sequence keeps, in order and rewritten in turn, exactly the children that are no check for something a later sibling brings in by itself and no earlier one brought in |
| Provenance.StagesTrust | mc_ai_bt/planning_pipeline.py:752-852 | what guard and normalizer let through is trustworthy in every Action |
| Provenance.InjectionPassesGuard | mc_ai_bt/planning_pipeline.py:726-749 | a constraint that is attached passes the guard, which writes its relation |
| Provenance.StripCleans | mc_ai_bt/planning_pipeline.py:1152-1170 | no Action keeps the internal grounding key |
| Provenance.GroundingTrusts | mc_ai_bt/planning_pipeline.py:345-381 | an Action the normalizer lets through has the entity id its target is grounded to, or some grounded id |
| Attachments.InjectionAttaches | mc_ai_bt/planning_pipeline.py:692-749 | an Action that finds its own target, has arguments but neither constraint nor relation, and whose alias just one trusted constraint that holds speaks of, gets that constraint; every other leaf is as it was |
| Attachments.GuardRelates | mc_ai_bt/planning_pipeline.py:752-852 | the guard refuses exactly when some Action sets a relation itself or names a constraint it may not use, and otherwise writes the relation of every named constraint and nothing else |
| Attachments.GroundingFills | mc_ai_bt/planning_pipeline.py:345-381 | the normalizer refuses exactly when some Action carries an id that its alias, or the grounded set, does not bear out; otherwise an Action without an id whose target names a resolved alias gets that alias's id, and nothing else changes |
| Attachments.StripTakesKeyOnly | mc_ai_bt/planning_pipeline.py:1152-1170 | the internal key goes and nothing else |
| Attachments.StagesKeepLeaves | mc_ai_bt/planning_pipeline.py:692-852 | the three stages keep every leaf in its place and change no argument but constraint, relation and entity id |
| VisualFallback.RewriteShortens | mc_ai_bt/planning_pipeline.py:1446-1561 | with no Retry or Timeout above and speaking that succeeds, cancelled runs included: the visible trace of the rewritten plan is a prefix of the original, equal when it succeeds or blocks; its success implies the success of the original except exactly when the original ends by speaking and a cancel was seen before |
| VisualFallback.LastWordRefused | mc_ai_bt/planning_pipeline.py:1446-1561 | a validated plan and a cancel for which the rewritten plan succeeds and the original fails |
| VisualFallback.BranchesAreAlike | mc_ai_bt/planning_pipeline.py:1427-1467 | where the rewrite fires every branch runs like the shared steps, but for a last word refused after a cancel, so no branch stands for an answer |
| VisualFallback.FallbackRepeatsSteps | mc_ai_bt/planning_pipeline.py:1446-1561 | the replaced Fallback tries the same steps once per branch, but for a last word refused after a cancel |
| VisualFallback.RewriteCopiesLeaves | mc_ai_bt/planning_pipeline.py:1560-1561 | every leaf of the rewritten plan is a leaf of the original |
| FallbackRule.FallbackGoesIff | mc_ai_bt/planning_pipeline.py:1446-1561 | the rewrite fires exactly when the first Sequence that ends with an observation and a Fallback has one whose two or more branches all come down, speech and node ids aside, to the same steps; these then stand in the Fallback's place and the last of them is the goal node |
| FallbackRule.BareMeans | mc_ai_bt/planning_pipeline.py:1427-1443 | what equal apart from node ids means, node by node |
| PlanningPipeline.PlanMission | mc_ai_bt/planning_pipeline.py:1998-2090 | the stages in their order, as one function of the candidate plan |
| PlanningPipeline.AppendMissingRequiredProducers | mc_ai_bt/planning_pipeline.py:638-689 | the two loops append exactly the missing producers |
| PlanningPipeline.EditEveryAction | mc_ai_bt/planning_pipeline.py:721-749 | the loop over all Actions edits the arguments of each and nothing else |
| PlanningPipeline.CheckEveryAction | mc_ai_bt/planning_pipeline.py:801-852 | the loop refuses the plan at the first Action that fails, and edits all otherwise |
| PlanningPipeline.AcceptedTreeIsValid | mc_ai_bt/planning_pipeline.py:1998-2090 | the tree that runs is validated, although only the candidate went through the validator |
| PlanningPipeline.AcceptedPlanRunsSafely | mc_ai_bt/planning_pipeline.py:2068-2090 | no run of an accepted plan has a resource conflict or exceeds the budgets |
| PlanningPipeline.AcceptedPlanIsTrustworthy | mc_ai_bt/planning_pipeline.py:2019-2056 | in an accepted plan every relation, entity id and the absence of the internal key are as their sources say |
| AcceptedPlans.AcceptedPlanKeepsSteps | mc_ai_bt/planning_pipeline.py:1998-2090 | every step of the candidate that is no check, does not speak and does not move the robot without finding its own target is in the accepted plan, up to node id and the arguments the stages write |
| AcceptedPlans.AcceptedPlanAddsOnlyProducers | mc_ai_bt/planning_pipeline.py:1998-2090 | every Action of the accepted plan is one of the candidate's or a producer that a constraint calls for |
| AcceptedPlans.EveryPersonIsLookedFor | mc_ai_bt/planning_pipeline.py:575-689 | every person whom a constraint that holds names is looked for, under that alias, in the accepted plan |
| AcceptedPlans.AcceptedPlanIsRelated | mc_ai_bt/planning_pipeline.py:692-852 | in an accepted plan an Action that finds its own target under an alias that just one constraint speaks of names a constraint it may use and has its relation |
| AcceptedPlans.AcceptedPlanIsIdentified | mc_ai_bt/planning_pipeline.py:345-381 | in an accepted plan an Action whose target names an alias grounded to a live entity carries its id |
| AcceptedPlans.TrimmedIsSettled | mc_ai_bt/planning_pipeline.py:1042-1137 | after the first rewrites no redundant search and no gate that resolves itself is left |
| AcceptedPlans.GoalFollowsRewrite | mc_ai_bt/planning_pipeline.py:1554-1709 | the goal is compiled from the last shared step when a Fallback gave way, and else from the planner's mark |
| PlanningPipeline.PlannersGoalIsOnlyValidated | mc_ai_bt/planning_pipeline.py:1998-2066 | what the stages make of the planner's goal when a goal node is marked, which follows from their definitions: two goals that pass the schema check have the same outcome, one that does not is refused |
| PlanningPipeline.UnknownPredicateIsRefused | mc_ai_bt/validator.py:278-297 | one marked plan accepted with one goal and refused with another that names an unknown predicate |
| PlanningPipeline.AcceptedGoalIsAnswerable | mc_ai_bt/planning_pipeline.py:2064-2076 | an accepted marked plan that moves the robot has a structured goal that one of its leaves answers for |

## Left out

- BlackboardIsFold: stated for Parallel-free trees, because a Parallel merges whole copies of its starting blackboard in branch order (mc_ai_bt/executor.py:502, 522-533), so a stale copy may overwrite a newer fact.
- FirstBlockedIsLast: stated for Parallel-free trees, because the other branches of a Parallel go on after one is blocked.
- ExecuteParallel: branches run in index order; all other schedules are in the thread semantics, of which each call is one run.
- ExecuteTimeout: an expiring Timeout expires before its child ran; all other moments, and the thread it leaves behind, are in the thread semantics.
- EvalIsRun: the executor class runs the branches of a Parallel in index order and lets an expiring Timeout expire before its child ran; all other schedules, and the thread a Timeout leaves behind, are in the thread semantics.
- RewriteShortens: stated without a Retry or Timeout above the rewritten Sequence, because a Retry repeats a shortened attempt from the observation on; speaking is taken to succeed and not to be watched.
- EveryMissionIsServed: assumes that a plan result finds its own mission in PLANNING, because the code applies it to a mission that is PAUSED, or QUEUED again after a resume, too (`SchedulerCases.LatePlanBreaksSingleSlot`, `LatePlanLeavesQueue`), and that a runner ends with an outcome: one that dies by an exception (mc_ai_bt/node.py:425-535 has no handler) leaves a RUNNING mission without a runner.
- Nodes and arguments are values: the stages that write into the dictionaries of the plan are modelled as loops over the list of leaves that is then written back, so two places of a plan never share one dictionary.
- JSON: plans, contexts and journal lines are typed records; malformed text, extra keys and node kinds without a meaning do not occur. Structural equality of branches compares the typed nodes without node ids.
- Alias normalisation and lower-casing are abstract functions; stripping knows the ASCII blanks only.
- The mission goal contract path of the pipeline (`_synthesize_mission_goal`), which never looks at a candidate plan, and the goal completion of plans that mark no goal node, which is a parameter.
- Skills, checkers, the visual service, the decision resolver and the final snapshot are oracles that return well-formed results: success excludes blocked, and skills ask for no decision.
- Per-skill argument checks of the policy guard are one abstract predicate, and most predicates of the goal checker one abstract witness.
- Two short windows of the threads: a Timeout that expires just as its child has ended (mc_ai_bt/executor.py:586-589), where here it expires only before, and a Parallel branch that has failed but not yet set the flag of its siblings (mc_ai_bt/executor.py:509-511), where here both are one step.
- Wall-clock time: a Timeout fires at any moment, a WaitForEvent is one leaf with an oracle outcome, and Wait durations are numbers.
- ROS plumbing, prompts, reference extraction, lease timing, task projection, the tick log and the confirmation server.
- Messages, except status texts and pause reasons, which the re-pause guard compares.
- The reordering of journal appends outside the mission lock: each step and its journal entry are atomic.
