# Verified model of the local execution workflow

This project models the stateful core of agentic-dev and proves what it keeps, over whole runs and
over whole histories of commands. It needs nothing but Dafny 4.11: `dafny verify dfyconfig.toml`.

Each stateful component is written twice. A module of functions on values says what one step and one
run do; a class, in the form of the original code, updates its fields in place and is proved to do
exactly that. The theorems are lemmas about the functions.

## The components

**Planning a sub-task run** (`TaskGraph`). Role selection grows a set of needed ids until it is closed
under dependency; ordering repeatedly takes every task whose dependencies are done. Selection is proved
to be the least dependency-closed set holding the role's tasks, ordering to fail exactly when no order
exists and otherwise to sort by the longest chain of dependencies and then by declaration.

**Running sub-tasks** (`Scheduler*`, `SuppliedState`, `SubtaskRunner`). The machine holds the persisted state, the
project files, every version of the state file, the tasks started and the file writes made. The model
call, the size of the assembled context and the reply are an oracle per task and launch. A history is a
list of sessions, each fresh, resumed or given a state, over any selection, and stopped after any number
of state-file writes. The invariant, the exact completed set, progress under resume, recovery to the same
set, the final record of every task, the exact ending and write authorisation are proved for all of them.
When an attempt is applied, parked or failed is told from the budget, the outcome and the paths alone
(`SchedulerVerdicts`), and so are all results that depend on it.

**Running roles** (`RoleRunner`). The simpler machine that stops at the first failing role.

**The work-item queue** (`FreshNames`, `StoryNumbers`, `StoryNames`, `Numerals`, `Queue*`). Item files in one folder per
type and status; create, set-status and promote; the two "first free name" loops, which end by the
pigeonhole principle; and story numbers, printed and read back by a concrete model of the two patterns.

**The repair loop** (`RepairModel`, `RepairReplies`, `RepairLoop`). A bounded retry machine with three ways to
fail an attempt, a validated in-place write of the target, and a support report when the budget is spent. What a
reply stands for and why one is rejected is told from its text.

**Evidence, review and readiness** (`Evidence*`, `RecordFile`, `FreshRecord`, `Readiness`). What recording, reviewing
and validating demand is told condition by condition from the stored files. Records are mappings; checksums are functions on mappings and texts without collisions.
Histories interleave recording, forced re-recording, reviews, rebuilt bundles, moved HEADs and edited
status files.

**Agent plans** (`AgentOrder`). Writing an execution order and reading it back.

## What the proofs found

Some properties one would expect hold only under a condition. The code is modelled as it is, and the
condition is proved to be exact.

- The role runner compares the number of completed roles with the number of selected agents, and both a role
  filter and a plan that repeats a role (a blueprint with `docs` and `documentation` whose
  execution order does not name the role) break the comparison. The
  status is proved exactly for every plan, every selection, every saved state and all outcomes
  (`RoleRunner.UnfilteredRun`, `RoleRunner.SelectedRunEnding`): a selection that succeeds with nothing else
  blocked is `completed` exactly when the roles completed in the end are as many as its agents, which for distinct roles means that no role outside
  it had been completed (`RoleRunner.DistinctSelectionCompletes`). Concrete cases: `RoleRunner.SelectedRunCanStayRunning`,
  `RoleRunner.RepeatedRoleStaysRunning`, `RoleRunner.RepeatedRoleCanComplete`. A story whose plan repeats a role is
  never reported completed by unfiltered runs (`RoleRunner.RepeatedRolesNeverComplete`).
- The record's checksum, recomputed by the evidence validator, matches exactly when each copied repository
  field is None or truthy and the cleanliness is truthy or "" (`Evidence.ChecksumRoundTrip`); that always holds
  for built manifests, so every record just written is valid (`FreshRecord.FreshRecordsAreValid`). The older
  validator in the recording module, which nothing in the package calls, does not turn "" back into None: it
  rejects every record written on a detached HEAD (`FreshRecord.OlderValidatorNeedsBranch`,
  `FreshRecord.DetachedHeadIsRejected`).
- A cloud resume hands the runner the whole revision's status lists but only the ready tasks. It ends `completed`
  exactly when its tasks can all succeed, cover the criteria, and no other task of the revision is blocked
  (`SuppliedState.ResumeEnding`, `SuppliedState.WaitingTaskFailsResume`); and its tasks can be ordered at all exactly when
  everything they depend on is ready too, so a dependency completed earlier refuses the resume
  (`SuppliedState.ResumeOrderableExactly`, `SuppliedState.CompletedDependencyRefusesResume`).
- After numbering, the plain slug is taken exactly by a plain file in `stories/`, never by a directory or a
  blueprint story (`QueueNumbering.PlainSlugTakenExactly`, `QueueNumbering.PlainFileTakesTheSlug`).
- The repair result's `applied` flag is about the last attempt: it hides an earlier write exactly when no
  attempt wins, the reply at the budget fails and an earlier reply passed validation
  (`RepairLoop.AppliedFlagExactly`, `RepairLoop.AppliedFlagCanHideAWrite`). A last attempt whose checks failed is
  still labelled `within_budget` (`RepairLoop.LastLabelExactly`, `RepairLoop.FailedCheckIsLabelledWithinBudget`).
- A written plan reads back unchanged exactly when agents with one id are equal
  (`AgentOrder.PlanReadBackExactly`); for a blueprint that declares both `docs` and `documentation` this means
  naming the roles in its execution order (`AgentOrder.BlueprintPlanReadBackExactly`,
  `AgentOrder.TwoDocumentationAgentsAreLost`).
- `docs/runtime_config.md:167-171` says that failed and blocked tasks retry on resume only when their blocking
  condition can be resolved. The code starts a task exactly when it is neither completed nor, on resume, marked
  `cloud_redecomposition_required`, and its dependencies can succeed (`SchedulerStarts.RunStartsExactly`): a task that
  failed is tried again although nothing has changed (`SchedulerStarts.FailedTaskIsRetriedUnchanged`,
  `SchedulerStarts.UnresolvedModelIsRetried`). The model follows the code.

Readiness, in contrast, is a property of the files and not a latch, as intended: a changed manifest or HEAD revokes
it and restoring what was reviewed brings it back (`Readiness.ChangeRevokes`).

## Model

| member | source | states |
|---|---|---|
| TaskGraph.TopologicalSubtasks | src/agentic_dev/subtask_execution.py:222-242 | the loop ends; its result is a rearrangement of the tasks with every dependency first, sorted by the length of the longest dependency chain and within that by declaration; it fails exactly when no such rearrangement exists (a cycle or a missing dependency) |
| TaskGraph.SelectionOrderableExactly | src/agentic_dev/subtask_execution.py:222-242 | part of an orderable list can be ordered by itself exactly when everything its tasks depend on is in it |
| TaskGraph.SelectedSubtasks | src/agentic_dev/local_execution.py:527-545 | with a role, exactly the tasks in the role's dependency closure, in declaration order; an error exactly when no task has the role; the growing loop ends |
| TaskGraph.RoleClosureIsLeast | src/agentic_dev/local_execution.py:532-544 | the closure is contained in every dependency-closed set that holds the role's tasks |
| TaskGraph.RoleClosureClosed | src/agentic_dev/local_execution.py:536-543 | the closure holds every dependency of its members |
| TaskGraph.RoleClosureHoldsRole | src/agentic_dev/local_execution.py:531-535 | the closure holds every task of the role |
| TaskGraph.SelectionStaysOrderable | src/agentic_dev/local_execution.py:527-545 | if the whole blueprint can be ordered then so can every dependency-closed selection of it |
| SubtaskRunner.PlanSubtasks | src/agentic_dev/local_execution.py:304-327 | selection then ordering: the plan is exactly the selected tasks, dependencies first and sorted by rank; it fails exactly when the role is missing or the selection cannot be ordered |
| SubtaskRunner.ExecutionState.constructor | src/agentic_dev/local_execution.py:367-369 | the first saved state: the existing one, with a pending record added for each ordered task that has none |
| SubtaskRunner.ExecutionState.BlockSubtask | src/agentic_dev/local_execution.py:961-979 | marks and lists the task as blocked once, stops the story there, writes the state |
| SubtaskRunner.ExecutionState.FailSubtask | src/agentic_dev/local_execution.py:982-1001 | as above for a failed attempt; boundary violations are recorded as blocked, other failures as failed |
| SubtaskRunner.ExecutionState.MarkCloudRedecompositionRequired | src/agentic_dev/local_execution.py:1004-1030 | as above, and also lists the task for redecomposition once |
| SubtaskRunner.ExecutionState.CompleteSubtask | src/agentic_dev/local_execution.py:1033-1043 | lists the task as completed once and removes it from both other lists |
| SubtaskRunner.ExecutionState.ApplyExecutionWrites | src/agentic_dev/local_execution.py:860-883 | the loop over planned writes equals applying them in order |
| SubtaskRunner.ExecutionState.AttemptSubtask | src/agentic_dev/local_execution.py:388-497 | one attempt, with its two or three state-file writes, in place |
| SubtaskRunner.ExecutionState.VisitSubtask | src/agentic_dev/local_execution.py:371-497 | one turn of the main loop, in place: pass over, block, or attempt |
| SubtaskRunner.ExecutionState.RunSubtasks | src/agentic_dev/local_execution.py:371-500 | the main loop and finalisation equal the run function that all results below are about |
| SubtaskRunner.RunSubtaskLocalExecution | src/agentic_dev/local_execution.py:304-510 | from any sound saved or supplied state or none: the returned state is that of a whole run over a planned order and is `completed` or `blocked`; it fails exactly when the role is missing or the selection cannot be ordered |
| SchedulerInvariant.VisitKeeps | src/agentic_dev/local_execution.py:371-497 | one visit keeps the invariant in the state and in every state file it writes: lists duplicate-free, `completed_tasks` = ids with status completed, redecomposition within blocked, blocked disjoint from completed, and completed tasks of the graph have completed dependencies and records that pass their own checks |
| SchedulerInvariant.RunKeepsInvariant | src/agentic_dev/local_execution.py:367-500 | the same for every state file of a whole run, with or without a role filter |
| SchedulerInvariant.HistoryKeepsInvariant | src/agentic_dev/local_execution.py:367-500 | the same for the state file after any sequence of fresh, resumed or supplied-state runs, any selections, each stopped after any number of writes |
| SuppliedState.ResumeStateIs | src/agentic_dev/cloud_application/service.py:1343-1372 | the supplied state, field by field: pending, nothing current or to redecompose, a blank record with its status for each task of the revision, and the two lists those statuses give |
| SuppliedState.ResumeStateIsSound | src/agentic_dev/cloud_application/service.py:1343-1372 | the state a cloud resume supplies, whose completed tasks have no outputs, handoff or validation, satisfies the invariant for the ready tasks it runs |
| SuppliedState.ResumeEnding | src/agentic_dev/cloud_application/service.py:366-407 | such a resume ends `completed` exactly when its tasks can all succeed, cover every criterion, and no other task of the revision is blocked |
| SuppliedState.WaitingTaskFailsResume | src/agentic_dev/cloud_application/service.py:1343-1372 | concretely: the resume of a ready task succeeds, a task waiting for it is listed as blocked, and the run reports `blocked` |
| SuppliedState.ResumeOrderableExactly | src/agentic_dev/cloud_application/resume.py:38-53 | the ready tasks of an orderable revision can be ordered exactly when everything they depend on is ready too |
| SuppliedState.CompletedDependencyRefusesResume | src/agentic_dev/cloud_application/resume.py:38-53 | concretely: a ready task that depends on a completed one cannot be ordered, although the whole revision can |
| SchedulerInvariant.SuccessIsComplete | src/agentic_dev/local_execution.py:448-462 | a completed task's validation, outputs and handoff checks always pass, the context sections being non-empty |
| SchedulerOutcome.VisitFrame | src/agentic_dev/local_execution.py:371-497 | a visit changes nothing recorded about any other task |
| SchedulerOutcome.RunCompletesExactly | src/agentic_dev/local_execution.py:371-497 | for every graph, topological order, starting state and oracle: a task ends completed exactly when it was completed before or it and everything it transitively needs succeeds; the condition mentions no order |
| SchedulerOutcome.OrderDoesNotMatter | src/agentic_dev/local_execution.py:371-497 | two runs over any two topological orders, even of different selections, agree on every shared task |
| SchedulerOutcome.OneGoodResumeFinishes | src/agentic_dev/local_execution.py:367-401 | whatever failed before, one run in which every outcome succeeds completes every selected task, if none of them waits for redecomposition |
| SchedulerOutcome.HistoryStaysConsistent | src/agentic_dev/local_execution.py:367-497 | after any interrupted history with fixed outcomes the saved state only records what those outcomes could have produced |
| SchedulerOutcome.RecoveryReachesTheSameSet | src/agentic_dev/local_execution.py:367-500 | after any interrupted history with fixed outcomes, one more full run completes exactly what a single uninterrupted fresh run completes |
| SchedulerProgress.RunAdvances | src/agentic_dev/local_execution.py:367-500 | in every state file of a resumed run the completed list extends the old one, no attempt count is lower and no completed record is rewritten |
| SchedulerProgress.ResumesOnlyAdvance | src/agentic_dev/local_execution.py:367-401 | over any sequence of resumed, interrupted runs the completed list only grows at its end, attempts never fall and completed records are never rewritten |
| SchedulerProgress.AttemptsCountStarts | src/agentic_dev/local_execution.py:367-401 | over any sequence of resumed runs, each stopped at any write, a task's attempts rise by exactly the number of runs that started it before their stop |
| SchedulerProgress.CompletedNeverStartAgain | src/agentic_dev/local_execution.py:371-374 | once the state file says a task is completed, no later resumed run starts it |
| SchedulerProgress.VisitStarts | src/agentic_dev/local_execution.py:371-401 | a visit starts its task, at the cost of exactly one attempt, exactly when it is not passed over and its dependencies are completed |
| SchedulerProgress.RunStartsEachOnce | src/agentic_dev/local_execution.py:371-401 | a run starts each task at most once, never a completed one (nor, on resume, one waiting for redecomposition); in every state file it writes, attempts have risen by one exactly for the tasks started by then |
| SchedulerStarts.RunStartsExactly | src/agentic_dev/local_execution.py:371-401 | told from the saved state: a run starts exactly the selected tasks that are not completed nor, on resume, parked, and whose dependencies are achievable; earlier failures play no part |
| SchedulerStarts.ParkedExactly | src/agentic_dev/local_execution.py:371-422 | after a run a selected task waits for redecomposition exactly when it did before and was passed over, or it was started and its context is over the budget |
| SchedulerStarts.OversizedTaskIsParked | src/agentic_dev/local_execution.py:371-422 | a selected task not passed over, with achievable dependencies and a context over the budget, ends `cloud_redecomposition_required`, listed for redecomposition and as blocked, the story blocked, and no sequence of interrupted resumes ever starts it again |
| SchedulerStarts.ParkedNeverStartAgain | src/agentic_dev/local_execution.py:371-376 | no sequence of resumes, each stopped at any write, starts a task that waits for redecomposition or touches its record |
| SchedulerStarts.FailedTaskIsRetriedUnchanged | src/agentic_dev/local_execution.py:371-401 | a failed task is started again by the next resume although its outcome is the same |
| SchedulerStarts.UnresolvedModelIsRetried | src/agentic_dev/local_execution.py:407-409 | concretely: with no model configured, a resume starts the failed task again and its attempts rise by one |
| SchedulerRecords.RunExplainsEveryRecord | src/agentic_dev/local_execution.py:371-497 | told from the saved state and the outcomes alone: after a run each selected task's record is untouched (completed before, or parked and resumed), or blocked with a dependency not completed at the end, or that of one attempt: applied with its outputs and handoff, parked for a context over the budget, or failed with the failure type the outcome calls for |
| SchedulerRecords.SessionBuildsOn | src/agentic_dev/local_execution.py:367-369 | a launch builds on the supplied state if there is one, on the state file when it resumes, and otherwise on nothing: its first write says just that |
| SchedulerRecords.VisitTold | src/agentic_dev/local_execution.py:371-497 | every state file one visit writes, with the status, current task and all three lists it says: none when passed over, one when blocked, otherwise the start of the attempt and then its end, written twice on failure |
| SchedulerRecords.FirstWrite | src/agentic_dev/local_execution.py:367-369 | the first state file of a run is the saved state, or an empty pending one, with a blank record for each selected task that had none and nothing else changed |
| SchedulerRecords.HandoffKept | src/agentic_dev/local_execution.py:1046-1057 | the recorded handoff keeps what the reply gave and has the default for each of the six fields it left out, the written paths for both file lists |
| SchedulerEnding.RunSettlesEveryTask | src/agentic_dev/local_execution.py:371-499 | from any well-formed saved state a full pass leaves each selected task completed or on the blocked list |
| SchedulerEnding.FinalizeExactly | src/agentic_dev/local_execution.py:1102-1163 | how finalisation decides from any state, reachable or not: blocked, completed, ready or pending, and when the current task is cleared |
| SchedulerEnding.SettledEnding | src/agentic_dev/local_execution.py:1102-1120 | finalisation after a settled pass gives only `completed` or `blocked`: the `ready`/`pending` branch is unreachable |
| SchedulerEnding.RunEnding | src/agentic_dev/local_execution.py:1102-1163 | a run ends `completed` exactly when nothing is blocked, every selected task is completed and every `ID:` criterion is covered by a selected task |
| SchedulerEnding.EndingForetold | src/agentic_dev/local_execution.py:367-500 | the ending told before the launch: `completed` exactly when every selected task is achievable, every criterion covered and no unselected task is already blocked |
| Paths.NormalizeExactly | src/agentic_dev/local_execution.py:1236-1240 | a path is refused exactly when, backslashes turned, it begins with a slash or has a part ".."; otherwise its normal form has its parts in order without the empty and "." ones |
| Paths.PlainPathsAreUnchanged | src/agentic_dev/local_execution.py:1236-1240 | a path of plain parts without backslashes is accepted as it stands |
| Paths.NormalizeIsIdempotent | src/agentic_dev/local_execution.py:1236-1240 | normalising an accepted path again changes nothing |
| Paths.NormalizedPathsStayUnderRoot | src/agentic_dev/local_execution.py:1236-1240 | an accepted path has no "..", is not absolute, and resolved under any root stays below it |
| Paths.Unauthorized | src/agentic_dev/local_execution.py:850-857 | exactly the requested paths that no pattern admits; all of them when there is no pattern |
| SchedulerVerdicts.ParseExactly | src/agentic_dev/local_execution.py:778-809 | the reply's files are parsed exactly when every path is non-blank and acceptable, keeping order, contents and normalised paths |
| SchedulerVerdicts.AcceptedExactly | src/agentic_dev/local_execution.py:404-447 | a reply is applied exactly when a model is resolved, the context fits the budget less the reserved output and every path is well-formed and authorised; then whole, in order, with its handoff |
| SchedulerVerdicts.OversizedExactly | src/agentic_dev/local_execution.py:419-422 | an attempt is parked for redecomposition exactly when a model is resolved, the context can be assembled, and estimate plus reserved output exceed the maximum input |
| SchedulerVerdicts.RefusedExactly | src/agentic_dev/local_execution.py:404-487 | the table of failures: which of the failure types an attempt gets, exactly, for every outcome |
| SchedulerVerdicts.BoundaryViolationExactly | src/agentic_dev/local_execution.py:439-445 | a boundary violation is reported exactly for a well-formed reply with some unauthorised path |
| SchedulerWrites.ChangedFilesAreAuthorised | src/agentic_dev/local_execution.py:371-497 | every project file a whole run changes lies at a normal path matching a writable pattern of a task that the run started |
| SchedulerWrites.UnauthorisedRepliesChangeNothing | src/agentic_dev/local_execution.py:439-447 | a reply with any unauthorised, absolute, escaping or blank path changes no project file, not even through its other entries |
| SchedulerWrites.LastWriteWins | src/agentic_dev/local_execution.py:876-881 | each path ends with the content of its last entry in the reply |
| SchedulerWrites.AcceptedRepliesAreWritten | src/agentic_dev/local_execution.py:439-447 | every file of an accepted reply is on disk after the visit |
| RoleRunner.ExecutionState.RunLocalExecution | src/agentic_dev/local_execution.py:146-293 | the role loop with its `break`, and the closing status, equal the run function the results below are about |
| RoleRunner.ExecutionState.AttemptRole | src/agentic_dev/local_execution.py:163-287 | one role tried, with its state-file writes, in place |
| RoleRunner.UnfilteredRun | src/agentic_dev/local_execution.py:146-293 | fresh or resumed over any agent plan, repeated roles included: in every state file completed roles form a prefix of the order of first occurrences and only the next one can be blocked; the exact status: `blocked` unless all roles are completed, then `completed` only if no role is repeated |
| RoleRunner.DistinctRolesRun | src/agentic_dev/local_execution.py:146-293 | with distinct roles the run ends `completed` exactly when all roles are completed, otherwise `blocked` |
| RoleRunner.RepeatedRoleStaysRunning | src/agentic_dev/local_execution.py:289-293 | concretely: a role listed twice, both turns succeed, and the story stays `running` |
| RoleRunner.RepeatedRolesNeverComplete | src/agentic_dev/local_execution.py:146-293 | a story whose plan repeats a role is never reported completed, over any history of unfiltered runs and all outcomes |
| RoleRunner.HistoryStaysInOrder | src/agentic_dev/local_execution.py:146-293 | the same for the saved state after any sequence of fresh, resumed and interrupted unfiltered runs |
| RoleRunner.HistoryStaysWellFormed | src/agentic_dev/local_execution.py:146-293 | over any history of runs with any role filters: lists duplicate-free and disjoint, completed roles = finished executions |
| RoleRunner.SelectedRunEnding | src/agentic_dev/local_execution.py:146-293 | for any selection, repeated roles included, from every well-formed saved state and for all outcomes: the completed roles are the earlier ones and the selected ones before the first that fails; and the exact status: blocked if a selected role fails or another role is blocked; else completed exactly when all roles completed in the end are as many as the selected agents; else unchanged if nothing was left to run; else `running` |
| RoleRunner.DistinctSelectionCompletes | src/agentic_dev/local_execution.py:290-292 | for distinct selected roles that count agrees exactly when no role outside the selection had been completed |
| RoleRunner.SelectedRunCanStayRunning | src/agentic_dev/local_execution.py:289-293 | the concrete case: planner done, developer alone selected and successful, story still `running` |
| RoleRunner.RepeatedRoleCanComplete | src/agentic_dev/local_execution.py:289-293 | concretely: with another role completed before, a filter for a role listed twice is reported completed |
| RoleRunner.SelectedRunTold | src/agentic_dev/local_execution.py:146-293 | what a run of any selection records for all outcomes: one more attempt for exactly the roles tried, the completed list only extended, the exact blocked list, the failed role as the current one, none after completion |
| FreshNames.CandidatesDiffer | src/agentic_dev/queue_management.py:463-473 | all candidate names of a search are different, for counters of any width |
| FreshNames.TakenAtMostAll | src/agentic_dev/queue_management.py:463-478 | at most as many candidates in a row can be taken as there are stored names |
| StoryNames.ItemIdIsFresh | src/agentic_dev/queue_management.py:463-473 | an item id is prefix and time stamp, or that with the first free counter, at least two digits wide, from 01 on |
| StoryNames.SlugIsFresh | src/agentic_dev/queue_management.py:558-577 | a slug is its base, or the base with the first free counter from 2 on |
| StoryNames.PadIsShortest | src/agentic_dev/queue_management.py:545-549 | a padded numeral has the given width, or is longer without a leading zero |
| FreshNames.GenerateItemId | src/agentic_dev/queue_management.py:463-473 | the collision loop ends, on the first candidate id not in use |
| FreshNames.UniqueName | src/agentic_dev/queue_management.py:558-577 | the same for the slug loop |
| Numerals.ReadBack | src/agentic_dev/queue_management.py:545-549 | a zero-padded numeral of any width reads back as its number |
| Numerals.PadIsInjective | src/agentic_dev/queue_management.py:463-473 | different numbers have different zero-padded numerals |
| StoryNumbers.StoryNumbersFromText | src/agentic_dev/queue_management.py:580-587 | the scanning loop finds the successive matches of the two story-number patterns |
| StoryNames.IdAtExactly | src/agentic_dev/queue_management.py:580-587 | a story id is matched exactly where a whole word STORY- and digits stands |
| StoryNames.SlugAtExactly | src/agentic_dev/queue_management.py:580-587 | a slug number is matched exactly after `story_` at the beginning or after a slash, and before an underscore or the end |
| StoryNames.NumbersAreSuccessive | src/agentic_dev/queue_management.py:580-587 | the numbers read are those of the successive matches from left to right, with no match between one and the next |
| StoryNumbers.ReadStoryId | src/agentic_dev/queue_management.py:545-587 | parsing a printed story id gives back exactly its number |
| StoryNumbers.ReadSlug | src/agentic_dev/queue_management.py:552-587 | parsing a printed slug gives back exactly its number, whatever slug text follows |
| StoryNumbers.SafeSlugShape | src/agentic_dev/queue_management.py:552-555 | slug text is never empty, uses only [a-z0-9_], has no underscore at an end or doubled; the second substitution never changes anything |
| StoryNames.SlugTextExactly | src/agentic_dev/queue_management.py:552-555 | the slug text is the runs of [a-z0-9] of the title joined by single underscores, and "queue_item" when there is none |
| QueueNumbering.NextNumberExactly | src/agentic_dev/queue_management.py:524-542 | the next number is one more than the largest number carried by a blueprint id or slug, a story directory name or the first 500 characters of its story.md, and 1 when there is none |
| QueueNumbering.NextNumber | src/agentic_dev/queue_management.py:524-542 | both collecting loops together give one more than every number found |
| QueueNumbering.NextNumberIsUnused | src/agentic_dev/queue_management.py:524-549 | no blueprint entry and no story directory carries the next number in a printed id or slug |
| QueueNumbering.PlainSlugTakenExactly | src/agentic_dev/queue_management.py:558-577 | after numbering, the collision loop body runs exactly when a plain file of that name lies in `stories/` |
| QueueNumbering.PlainFileTakesTheSlug | src/agentic_dev/queue_management.py:558-577 | concretely: a plain file named like the first story's slug, for any title, makes the slug differ |
| QueueNumbering.NamesAreFresh | src/agentic_dev/queue_management.py:703-715 | the new id and slug are in neither blueprint nor stories folder, so promotion's duplicate checks never fire |
| Queue.ProjectFolder.CreateQueueItem | src/agentic_dev/queue_management.py:116-145 | in place, equal to the create function, keeping the queue invariant |
| Queue.ProjectFolder.SetQueueItemStatus | src/agentic_dev/queue_management.py:191-240 | in place, equal to the set-status function, keeping the invariant; succeeds exactly when an item asked for is on file |
| Queue.ProjectFolder.PromoteQueueItemToStory | src/agentic_dev/queue_management.py:243-333 | in place, equal to the promote function, keeping the invariant; succeeds exactly when the item may be promoted |
| QueueHistory.CreateKeeps | src/agentic_dev/queue_management.py:116-145 | creation uses an id no item has and leaves every other file alone, keeping the invariant |
| QueueHistory.SetStatusResult | src/agentic_dev/queue_management.py:191-240 | the item's one file moves to the new status folder, says so, and its history grows by the entry from the old status to the new |
| QueueHistory.CreateResult | src/agentic_dev/queue_management.py:116-145 | a creation adds one pending file with the given title and details, no history and no promotion, under its queue prefix, time stamp and first free counter |
| QueueHistory.SetStatusFailsExactly | src/agentic_dev/queue_management.py:191-240 | a status change fails, changing nothing, exactly when no item asked for is on file |
| QueueHistory.PromoteSucceedsExactly | src/agentic_dev/queue_management.py:243-333 | a promotion succeeds exactly when not both moves are asked for, the blueprint lists stories, and an item asked for is on file, not promoted, and approved, or pending with pending items allowed; otherwise nothing changes |
| QueueHistory.PromotionRefusedExactly | src/agentic_dev/queue_management.py:252-283 | which error a promotion ends with, exactly, for each error; names taken and files in the way never stop it |
| QueueHistory.PromotionTold | src/agentic_dev/queue_management.py:285-333 | everything a promotion leaves, told from the item and the request: story id and number, slug from the title or the id, and the item's one file, moved if asked for, with promotion and move on record |
| QueueHistory.PromotionResult | src/agentic_dev/queue_management.py:243-333 | blueprint and stories folder gain the new story, its id reads back as the next number, and the item names it |
| QueueHistory.HistoryKeeps | src/agentic_dev/queue_management.py:191-333 | over any sequence of create, set-status and promote: each id has one file in the folder of its status, its decision history is a chain from `pending` to that status, promoted items name distinct blueprint stories |
| QueueHistory.HistoryKeepsNamesUnique | src/agentic_dev/queue_management.py:243-333 | over any sequence of commands, story ids, slugs and folder names that start without repetition stay so |
| QueueHistory.FreshProjectHistory | src/agentic_dev/queue_management.py:116-352 | from a project without items: the invariant holds throughout, each queue holds what was created in it, each item is promoted at most once |
| QueueHistory.OthersUntouched | src/agentic_dev/queue_management.py:191-333 | a command leaves the files of all other items alone |
| QueueHistory.TotalIsSumOverFolders | src/agentic_dev/queue_management.py:336-352 | the per-type total added up over status folders is the number of items of that type |
| QueueHistory.HistoryTotals | src/agentic_dev/queue_management.py:191-352 | over any sequence of commands a queue's total grows by exactly the items created in it |
| QueueHistory.PromotedAtMostOnce | src/agentic_dev/queue_management.py:243-333 | over any sequence of commands an item is promoted at most once, and never if it already was |
| RepairLoop.RepairState.RunLocalRepairLoop | src/agentic_dev/local_repair_loop.py:330-633 | the `for` loop and the code after it, in place, equal the function the results below are about |
| RepairLoop.RepairState.Attempt | src/agentic_dev/local_repair_loop.py:331-611 | one attempt in place: model call, validation, write, checks, next prompt |
| RepairLoop.BudgetedRun | src/agentic_dev/local_repair_loop.py:330-633 | for every budget of at least 1: attempts numbered 1..n within the budget; completed exactly when the last attempt alone is accepted, otherwise the whole budget is used and a support report written, with the status of the last failure; the return after the loop is unreachable |
| RepairLoop.RunForetold | src/agentic_dev/local_repair_loop.py:330-611 | told from the replies and the check results: the run completes exactly when, for some attempt within the budget, the reply is a valid file, ruff passes if it is run and pytest passes if there are tests; it stops at the first such attempt; and every attempt is on record with the file its reply stands for, exactly the checks that ran and their results, and the cause and owner they call for |
| RepairReplies.AcceptedAs | src/agentic_dev/local_repair_loop.py:722-819 | a reply is accepted exactly as the file it stands for (its stripped text, or outside strict mode the body of its one outer fence), when that is non-empty, contains every required API string and names no disallowed domain |
| RepairReplies.RejectedExactly | src/agentic_dev/local_repair_loop.py:722-819 | the table of rejections: when a reply is rejected as empty, fenced in strict mode, malformed, lacking a required API string or of a wrong domain, exactly, and always as the developer's |
| RepairReplies.FencedReplyIsItsBody | src/agentic_dev/local_repair_loop.py:802-819 | a reply fenced as a whole stands for the text between its fences, character for character but for white space at both ends |
| RepairLoop.RunWithoutBudget | src/agentic_dev/local_repair_loop.py:613-633 | without a budget nothing is sent or written and there is no support report |
| RepairLoop.TargetHoldsLatestAccepted | src/agentic_dev/local_repair_loop.py:503-541 | the target ends with the output of the latest attempt that passed validation or untouched; what was written is exactly the outputs of the attempts marked applied; all of it acceptable |
| RepairLoop.AcceptedIsAcceptable | src/agentic_dev/local_repair_loop.py:722-819 | accepted output is non-empty and stripped, contains every required API string, matches no banned pattern and is unfenced in strict mode |
| RepairLoop.AppliedFlagExactly | src/agentic_dev/local_repair_loop.py:396-487 | told from the replies and check results: the result's `applied` flag hides an earlier write exactly when no attempt wins, the reply at the budget fails validation and an earlier one passed |
| RepairLoop.AppliedFlagCanHideAWrite | src/agentic_dev/local_repair_loop.py:396-412 | concretely: an accepted reply whose check fails, then a timeout at a budget of two: the target was written and `applied` is false |
| RepairLoop.LastLabelExactly | src/agentic_dev/local_repair_loop.py:429-541 | told from the replies and check results: the last attempt is labelled exhausted exactly when no attempt wins and the reply at the budget fails validation |
| RepairLoop.FailedCheckIsLabelledWithinBudget | src/agentic_dev/local_repair_loop.py:527-538 | concretely: one accepted reply whose check fails at a budget of one: not completed, and labelled within budget |
| RepairLoop.EmptyOutputNeedsFence | src/agentic_dev/local_repair_loop.py:978-990 | in strict mode the loop never reports an empty output: a blank reply is a model failure |
| RepairLoop.PromptsAreCurrent | src/agentic_dev/local_repair_loop.py:277-338 | every prompt sent shows the target's content at that moment |
| RepairLoop.PromptsFollowFailures | src/agentic_dev/local_repair_loop.py:415-611 | the next prompt names the cause and gives the very text of the latest failure (the rejected reply, or the failed check's output), or is unchanged after a model failure |
| EvidenceGates.RefusedForFirst | src/agentic_dev/local_execution_recording.py:698-790 | recording is refused for the first demand that is not met, in the listed order: execution type, safe executor name, a bundle about this branch, HEAD and bases, a clean tree, passing pytest, passing ruff, every requested role covered; and for nothing else |
| EvidenceGates.RecordSucceedsExactly | src/agentic_dev/local_execution_recording.py:684-865 | recording succeeds exactly when every demand is met and there is no record, or one of the same evidence, or force; which error an older record gives; and what is written |
| EvidenceGates.ReviewRefusedForFirst | src/agentic_dev/local_review.py:55-113 | a review is refused for the first demand that is not met: a known decision, a valid bundle, a record with a checksum, bound to this HEAD and to this manifest |
| EvidenceGates.ReviewSucceedsExactly | src/agentic_dev/local_review.py:38-155 | a review succeeds exactly when every demand is met and it is the first, forced or a repeat; the decision written binds HEAD, manifest and record on disk |
| RecordFile.RecordFileHolds | src/agentic_dev/local_execution_recording.py:232-399 | every key of a record just made, told from manifest, git identity, check outputs and request: the checksums of the very files read, the commit and bases git resolved, each requested role with its evidence, and no claim that agents ran |
| EvidenceJudged.ReasonsExactly | src/agentic_dev/local_evidence_validation.py:26-220 | the validator gives each of its reasons exactly when the files call for it |
| EvidenceJudged.ReadyExactly | src/agentic_dev/local_evidence_validation.py:26-220 | the story is ready exactly when the record is sealed, untouched, bound to the current files and backed by evidence for every role it claims, and a `ready_for_review` decision is about this record, HEAD and manifest; the other three fields of the answer likewise |
| Evidence.ChecksumRoundTrip | src/agentic_dev/local_execution_recording.py:265-399 | the checksum recomputed from the serialized record equals the stored one exactly when each repository field is None or truthy and the cleanliness truthy or "" |
| Evidence.PlainChecksumRoundTrip | src/agentic_dev/local_execution_recording.py:656-668 | the older validator's checksum agrees exactly when no copied field is None or falsy other than "" |
| Evidence.MappingDeterminesPayload | src/agentic_dev/local_execution_recording.py:265-303 | different evidence has a different payload mapping, so a collision-free checksum tells it apart |
| EvidenceStore.StoryReports.ValidateRoleCoverage | src/agentic_dev/local_execution_recording.py:165-229 | the loop over requested roles, in its accumulating form |
| EvidenceStore.StoryReports.RecordLocalExecution | src/agentic_dev/local_execution_recording.py:684-826 | in place, equal to the record function |
| EvidenceStore.StoryReports.RecordLocalReview | src/agentic_dev/local_review.py:38-155 | in place, equal to the review function |
| EvidenceStore.StoryReports.ValidateLocalEvidence | src/agentic_dev/local_evidence_validation.py:26-220 | the accumulating validator equals the assessment function |
| Readiness.ReadyMeans | src/agentic_dev/local_evidence_validation.py:165-206 | what readiness says of the files: a valid bundle, a matching record checksum, and a `ready_for_review` decision bound to this record, HEAD and manifest |
| Readiness.HistoryFacts | src/agentic_dev/local_review.py:98-155 | over every history the stored record was written by recording, and the stored decision was written by an accepted review (no dry run, no repeat of a stored decision) and not replaced since |
| Readiness.ReadinessWasReviewed | src/agentic_dev/local_evidence_validation.py:75-206 | over every interleaving of recording, forced re-recording, reviews, rebuilt bundles and moved HEADs: a ready story's decision was written by an accepted `ready_for_review` review, no later event replaced it, and manifest, record payload and HEAD were then exactly what they are now |
| Readiness.ReadinessWasRecorded | src/agentic_dev/local_execution_recording.py:716-826 | over every interleaving: a ready story's record was written by a recording, never replaced since, made at the very manifest and HEAD that hold now, when pytest and ruff had both passed, the tree was clean and every requested role was covered |
| Readiness.RecordAndReviewMakeReady | src/agentic_dev/local_evidence_validation.py:75-206 | the converse: a successful recording from a built manifest and then a `ready_for_review` review, forced if there is an older decision, make the story ready |
| Readiness.ChangeRevokes | src/agentic_dev/local_evidence_validation.py:75-206 | a changed manifest or HEAD revokes readiness for as long as it differs; going back restores it |
| Readiness.RerecordExactly | src/agentic_dev/local_execution_recording.py:798-826 | a story stays ready after a successful re-record exactly when the evidence is the same, and then nothing on disk changes |
| Readiness.RecordingIsIdempotent | src/agentic_dev/local_execution_recording.py:811-826 | recording the same evidence again, over whatever was recorded before, leaves the record unchanged, `executed_at` included |
| Readiness.UnforcedReviewKeepsDecision | src/agentic_dev/local_review.py:98-122 | without force an existing decision is never replaced; repeating it succeeds |
| Readiness.UnforcedRecordKeepsRecord | src/agentic_dev/local_execution_recording.py:803-826 | without force a record is never replaced by different evidence |
| Readiness.DryRunForetells | src/agentic_dev/local_execution_recording.py:828-865 | a dry run writes nothing and returns what the real run would |
| FreshRecord.FreshRecordsAreValid | src/agentic_dev/local_evidence_validation.py:26-126 | every record written from a manifest the bundle service built is judged valid by the evidence validator |
| FreshRecord.FreshRecordValidExactly | src/agentic_dev/local_execution_recording.py:684-888 | for an arbitrary manifest: a record just written is judged valid exactly when the manifest's base ref is None or truthy |
| FreshRecord.OlderValidatorNeedsBranch | src/agentic_dev/local_execution_recording.py:656-668 | the older validator's checksum accepts a record just written exactly when a branch is checked out |
| FreshRecord.DetachedHeadIsRejected | src/agentic_dev/local_execution_recording.py:656-668 | concretely: a story recorded on a detached HEAD has a valid record that the older validator rejects |
| AgentOrder.OrderedAssignedAgents | src/agentic_dev/prompt_pack.py:127-155 | the three loops equal the ordering function |
| AgentOrder.PlanReadBackExactly | src/agentic_dev/agent_assignment.py:113-120 | writing a plan and reading it back gives the same agents exactly when agents with the same id are equal |
| AgentOrder.OrderingPermutes | src/agentic_dev/prompt_pack.py:127-155 | with distinct ids and an order without repetitions: a permutation, listed agents first in listed order, the rest in original order |
| AgentOrder.OrderedBlueprintAssignedAgents | src/agentic_dev/agent_assignment.py:158-178 | the loop equals the blueprint ordering function |
| AgentOrder.ExecutionOrderFollowed | src/agentic_dev/agent_assignment.py:158-178 | for any execution order and any agents: first, in the order of the entries that name a declared role, the last agent of each such role; then, in declared order, the agents whose id none of them has |
| AgentOrder.FullOrderIsFollowed | src/agentic_dev/agent_assignment.py:158-178 | when every entry names a declared role the plan begins with one agent per entry, the k-th having the role entry k names |
| AgentOrder.PlanOrderFollowed | src/agentic_dev/prompt_pack.py:127-155 | the same for reading a plan, whose order names agent ids |
| AgentOrder.BlueprintPlanReadBackExactly | src/agentic_dev/agent_assignment.py:95-178 | the plan written for a blueprint reads back as written exactly when any two different agents of one id have their role named in the execution order |
| AgentOrder.TwoDocumentationAgentsAreLost | src/agentic_dev/agent_assignment.py:95-178 | concretely: `docs` and `documentation` with different details and no execution order are written as two agents and read back as the second one twice |
## Left out

- Scheduler.Judge: labels every unusable path as a malformed response; in the code the failure label is picked by searching the error text, which contains the path, so a path that spells one of the searched phrases gets another label. The reply is refused all the same.
- Scheduler.Attempt: the reply and the size of the context are fixed per task and launch; that the context is assembled from the handoffs of completed dependencies is not modelled. The two state writes of a failed attempt differ in the code by time stamps only and are equal here.
- Paths.Normalize: lexical paths only; links, destinations that are directories and operating-system write errors in `validate_write_destination` and `apply_execution_writes` are not part of this model, so writes succeed once authorised.
- SchedulerInvariant.HistoryKeepsInvariant: a run stops at a state-file write; an interrupt that arrives inside the code between two writes (which would still run the `finally` block) is not modelled.
- Glob patterns: `fnmatch` is an arbitrary matcher, so the write results hold for every matcher.
- Banned-domain patterns, lower-casing and role-name sorting are arbitrary functions given as parameters.
- StoryNumbers.Numbers: digits and word characters are the ASCII ones; other Unicode digits and letters, which Python's patterns also accept, are not modelled.
- HTTP, sub-processes, clocks, YAML text and the file system below whole files: replies, check results, git identities, time stamps and parsed mappings are parameters. Files that do not parse, and sections that are not mappings, are not modelled.
- Checksums: taken as injective and never empty; a record or decision file edited by hand is not an event of the readiness histories.
- Git: what a successful `rev-parse` or `merge-base` prints is taken to be non-empty, and all evidence commands of a history to resolve the same base ref.
- SchedulerInvariant.HistoryKeepsInvariant: a history has one graph; sessions on a blueprint and resumes of a runtime revision that reuses its ids for other tasks are not mixed in one history.
- The review bundle's checks other than manifest, HEAD, base, merge base and branch are one flag; attestation validation, provenance output and the rendered reports are not modelled.
- RoleRunner.RunRole: only the state is modelled, not the project files a role's reply writes (the same `apply_execution_writes` as in the sub-task runner) nor the kinds of failure.
- Normalisation of the role-name argument, model resolution, dry runs of the runners, token estimation, prompts, audit text and the `final_validation` details: plumbing around the modelled state.
- RepairModel.Prompt: holds the file content, the failure output and its cause; the text layout, plan and attempt reports and the classification of the initial failure are not modelled.
- QueueModel.Item: `category`, `priority`, `source_story`, `next_action` and creation time are copied or derived fields and are not modelled; neither are `list`, `show`, the reports, the text edit of the blueprint file, and item files without an id.
- AgentOrder.PlanFor: agents are id, role and other details; YAML dumping and the malformed-plan errors other than the empty list are not modelled.
- `merge_readiness.py`, `project_status.py`, `next_step.py`, `runtime_config.py`, `artifact_policy.py`, `public_readiness.py`: decision tables that a reading of their branches settles.
- `support_queue.py` (a smaller copy of the queue), `local_model_scorecard.py`, `codex_runtime.py`, the `cloud_*` modules and `review_state`: they would add only easier members or are used here as inputs.
