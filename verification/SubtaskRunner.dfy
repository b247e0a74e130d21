/** The sub-task runner in the source's own form: one mutable state, updated in place and written out
    after each change (src/agentic_dev/local_execution.py). Every method is proved to do to the state
    exactly what the functions of module Scheduler say. */
module SubtaskRunner {
  import opened Common
  import opened TaskGraph
  import opened Scheduler
  import SchedulerInvariant
  import SchedulerEnding

  class ExecutionState {
    var status: StoryStatus
    var currentTask: Option<Id>
    var completedTasks: seq<Id>
    var blockedTasks: seq<Id>
    var redecompositionTasks: seq<Id>
    var tasks: map<Id, TaskRecord>
    var projectFiles: map<string, string>
    /** Every version of the state file, oldest first. */
    ghost var stateFile: seq<State>
    ghost var started: seq<Id>
    ghost var edits: seq<Edit>
    /** The tasks started by the time of each write of the state file. */
    ghost var startedAt: seq<seq<Id>>

    function Snapshot(): State
      reads this
    {
      State(status, currentTask, completedTasks, blockedTasks, redecompositionTasks, tasks)
    }

    ghost function Machine(): Scheduler.Machine
      reads this
    {
      Scheduler.Machine(Snapshot(), projectFiles, stateFile, started, edits, startedAt)
    }

    /** initialize_subtask_state followed by the first write_state */
    constructor (existing: Option<State>, order: seq<Task>, files: map<string, string>)
      ensures Machine() == StartMachine(existing, order, files)
    {
      var s := Initialize(existing, order);
      status, currentTask := s.status, s.current;
      completedTasks, blockedTasks, redecompositionTasks := s.completed, s.blocked, s.redecompose;
      tasks, projectFiles := s.tasks, files;
      stateFile, started, edits, startedAt := [s], [], [], [[]];
    }

    /** write_state */
    method WriteState()
      modifies this`stateFile, this`startedAt
      ensures Machine() == Persist(old(Machine()), old(Snapshot()))
    {
      stateFile := stateFile + [Snapshot()];
      startedAt := startedAt + [started];
    }

    method SetDefault(id: Id)
      modifies this`tasks
      ensures Machine() == old(Machine()).(state := Ensure(old(Snapshot()), id))
    {
      tasks := tasks[id := RecordOf(Snapshot(), id)];
    }

    method BlockSubtask(id: Id)
      modifies this
      ensures Machine() == Persist(old(Machine()), BlockTask(old(Snapshot()), id))
    {
      var record := RecordOf(Snapshot(), id);
      tasks := tasks[id := record.(status := Blocked, failure := Some(BlockedByDependency))];
      if id !in blockedTasks { blockedTasks := blockedTasks + [id]; }
      status, currentTask := StoryBlocked, Some(id);
      WriteState();
    }

    method FailSubtask(id: Id, audit: TaskRecord, failure: FailureType)
      modifies this
      ensures Machine() == Persist(old(Machine()), FailTask(old(Snapshot()), id, audit, failure))
    {
      status, currentTask := StoryBlocked, Some(id);
      if id !in blockedTasks { blockedTasks := blockedTasks + [id]; }
      tasks := tasks[id := audit.(status := FailureStatus(failure), failure := Some(failure))];
      WriteState();
    }

    method MarkCloudRedecompositionRequired(id: Id, audit: TaskRecord)
      modifies this
      ensures Machine() == Persist(old(Machine()), RequireRedecomposition(old(Snapshot()), id, audit))
    {
      status, currentTask := StoryBlocked, Some(id);
      if id !in blockedTasks { blockedTasks := blockedTasks + [id]; }
      if id !in redecompositionTasks { redecompositionTasks := redecompositionTasks + [id]; }
      tasks := tasks[id := audit.(status := RedecompositionRequired, failure := Some(ContextOverBudget))];
      WriteState();
    }

    method CompleteSubtask(id: Id, audit: TaskRecord)
      modifies this
      ensures Machine() == old(Machine()).(state := CompleteTask(old(Snapshot()), id, audit))
    {
      tasks := tasks[id := audit];
      if id !in completedTasks { completedTasks := completedTasks + [id]; }
      blockedTasks := Without(blockedTasks, id);
      redecompositionTasks := Without(redecompositionTasks, id);
    }

    /** apply_execution_writes, destinations already checked */
    method ApplyExecutionWrites(id: Id, writes: seq<FileWrite>)
      modifies this`projectFiles, this`edits
      ensures Machine() == ApplyWrites(old(Machine()), id, writes)
    {
      for k := 0 to |writes|
        invariant Machine() == ApplyWrites(old(Machine()), id, writes[..k])
      {
        projectFiles := projectFiles[writes[k].path := writes[k].content];
        edits := edits + [Edit(id, writes[k].path, writes[k].content)];
        assert writes[..k + 1][..k] == writes[..k];
      }
      assert writes[..|writes|] == writes;
    }

    /** Marks the task as running and writes the state. */
    method StartSubtask(id: Id, audit: TaskRecord)
      modifies this
      ensures Machine() == Persist(old(Machine()).(started := old(started) + [id]), StartTask(old(Snapshot()), id, audit))
    {
      status, currentTask := StoryRunning, Some(id);
      tasks := tasks[id := audit];
      started := started + [id];
      WriteState();
    }

    /** The attempt at a task whose dependencies are completed. */
    method AttemptSubtask(task: Task, launch: Launch)
      modifies this
      ensures Machine() == Attempt(old(Machine()), task, launch)
    {
      hide Judge, Succeeded, WithContext, FailTask, RequireRedecomposition, CompleteTask, ApplyWrites, RecordOf, StartTask;
      var id, trial := task.id, launch.trials(task.id);
      var audit := Audit(RecordOf(Snapshot(), id).attempt + 1);
      StartSubtask(id, audit);
      audit := WithContext(audit, trial);
      match Judge(task, trial, launch.matches)
      case Oversized =>
        MarkCloudRedecompositionRequired(id, audit);
        WriteState();
      case Refused(failure) =>
        FailSubtask(id, audit, failure);
        WriteState();
      case Accepted(writes, handoff) =>
        ghost var running := Machine();
        ApplyExecutionWrites(id, writes);
        SchedulerInvariant.ApplyWritesFrame(running, id, writes);
        CompleteSubtask(id, Succeeded(audit, id, writes, handoff));
        WriteState();
    }

    method VisitSubtask(task: Task, launch: Launch)
      modifies this
      ensures Machine() == Visit(old(Machine()), task, launch)
    {
      var resume := launch.resume;
      var skips := Skips(Snapshot(), task.id, resume);
      SetDefault(task.id);
      if skips { return; }
      var blockedDependency := FirstBlocking(Snapshot(), task.dependsOn);
      if blockedDependency.Some? {
        BlockSubtask(task.id);
      } else {
        AttemptSubtask(task, launch);
      }
    }

    /** finalize_subtask_story_state */
    method FinalizeStory(order: seq<Task>, criteria: seq<string>)
      modifies this
      ensures Machine() == old(Machine()).(state := Finalize(old(Snapshot()), order, criteria))
    {
      var s := Finalize(Snapshot(), order, criteria);
      status, currentTask := s.status, s.current;
    }

    /** The runner's main loop and finalisation, from a freshly constructed state. */
    method RunSubtasks(order: seq<Task>, criteria: seq<string>, launch: Launch)
      modifies this
      ensures var end := RunTasks(old(Machine()), order, |order|, launch);
              Machine() == Persist(end, Finalize(end.state, order, criteria))
    {
      for k := 0 to |order|
        invariant Machine() == RunTasks(old(Machine()), order, k, launch)
      {
        VisitSubtask(order[k], launch);
      }
      FinalizeStory(order, criteria);
      WriteState();
    }
  }

  /** The order is made of exactly the selected tasks, dependencies first. */
  ghost predicate PlannedOrder(subtasks: seq<Task>, role: Option<string>, order: seq<Task>) {
    && DrawnFrom(ById(subtasks), order) && DependenciesFirst(order)
    && (forall t :: t in order <==> (t in subtasks && (role.Some? ==> t.id in RoleClosure(subtasks, role.value))))
  }

  predicate RoleIsMissing(subtasks: seq<Task>, role: Option<string>) {
    role.Some? && forall t | t in subtasks :: t.role != role.value
  }

  lemma PlannedFrom(subtasks: seq<Task>, role: Option<string>, selected: seq<Task>, order: seq<Task>)
    requires selected == if role.None? then subtasks else Keep(subtasks, RoleClosure(subtasks, role.value))
    requires DrawnFrom(ById(subtasks), selected) && TopologicalOrder(selected, order)
    ensures PlannedOrder(subtasks, role, order)
  {
    hide RoleClosure;
    OrderIsDrawn(ById(subtasks), selected, order);
  }

  /** Role selection followed by topological ordering; both failures come before any write. */
  method PlanSubtasks(subtasks: seq<Task>, role: Option<string>) returns (plan: Result<seq<Task>, string>)
    requires UniqueIds(subtasks) && (role.Some? ==> WellFormed(ById(subtasks)))
    ensures plan.Ok? ==> PlannedOrder(subtasks, role, plan.value)
    ensures plan.Ok? ==>
              RankedOrder(if role.None? then subtasks else Keep(subtasks, RoleClosure(subtasks, role.value)), plan.value)
    ensures plan.Err? <==>
            || RoleIsMissing(subtasks, role)
            || !Orderable(if role.None? then subtasks else Keep(subtasks, RoleClosure(subtasks, role.value)))
    ensures Orderable(subtasks) ==> (plan.Err? <==> RoleIsMissing(subtasks, role))
  {
    hide RoleClosure, WellFormed, TopologicalOrder, Orderable, RankedOrder, PlannedOrder;
    if role.Some? { RoleClosureClosed(subtasks, role.value); }
    var selected := SelectedSubtasks(subtasks, role);
    if selected.Err? { return Err("role is not assigned to any sub-task"); }
    GraphOfTasks(subtasks);
    if role.Some? {
      KeepUnique(subtasks, RoleClosure(subtasks, role.value));
      if Orderable(subtasks) { SelectionOfOrderable(subtasks, RoleClosure(subtasks, role.value)); }
    }
    var ordered := TopologicalSubtasks(selected.value);
    if ordered.Err? { return Err("sub-task dependency cycle"); }
    PlannedFrom(subtasks, role, selected.value, ordered.value);
    plan := Ok(ordered.value);
  }

  /** run_subtask_local_execution: the state returned is that of a whole run over a planned order,
      and its status is one of the two final ones. */
  method RunSubtaskLocalExecution(subtasks: seq<Task>, role: Option<string>, existing: Option<State>,
                                  criteria: seq<string>, files: map<string, string>, launch: Launch)
    returns (outcome: Result<State, string>, ghost order: seq<Task>)
    requires UniqueIds(subtasks) && (role.Some? ==> WellFormed(ById(subtasks)))
    requires SchedulerInvariant.DiskInv(ById(subtasks), existing)
    ensures outcome.Err? <==>
            || RoleIsMissing(subtasks, role)
            || !Orderable(if role.None? then subtasks else Keep(subtasks, RoleClosure(subtasks, role.value)))
    ensures Orderable(subtasks) ==> (outcome.Err? <==> RoleIsMissing(subtasks, role))
    ensures outcome.Ok? ==>
              && PlannedOrder(subtasks, role, order)
              && outcome.value == Run(existing, order, criteria, files, launch).state
              && outcome.value.status in {StoryCompleted, StoryBlocked}
  {
    hide Orderable, RunTasks, Finalize, StartMachine, RoleClosure, WellFormed, SchedulerInvariant.Inv, SchedulerEnding.AllCovered;
    order := [];
    var plan := PlanSubtasks(subtasks, role);
    if plan.Err? { return Err(plan.error), []; }
    order := plan.value;
    var state := new ExecutionState(existing, plan.value, files);
    state.RunSubtasks(plan.value, criteria, launch);
    outcome := Ok(state.Snapshot());
    assert outcome.value == Run(existing, order, criteria, files, launch).state;
    SchedulerEnding.RunEnding(ById(subtasks), existing, order, criteria, files, launch);
  }
}
