/** What a run leaves in each task's record, told from the state it started from and the state it
    ended in. */
module SchedulerRecords {
  import opened Common
  import opened TaskGraph
  import opened Scheduler
  import opened SchedulerInvariant
  import opened SchedulerOutcome
  import opened SchedulerVerdicts
  import Paths

  /** The outputs of an applied reply: the response file, then every written path in order. */
  ghost predicate OutputsOf(task: Task, files: seq<RawFile>, outputs: seq<string>) {
    && |outputs| == |files| + 1 && outputs[0] == "tasks/" + task.id + "/output.md"
    && forall i | 0 <= i < |files| :: Some(outputs[i + 1]) == Paths.Normalize(files[i].path)
  }

  /** The handoff kept for dependents: what the reply gave, and for each field it left out the default,
      which for the two file lists is the list of written paths. */
  ghost predicate HandoffOf(given: Handoff, written: seq<string>, kept: Handoff) {
    && kept.Keys == given.Keys + {"decisions", "files_changed", "outputs_produced", "tests_run", "unresolved_risks",
                                  "available_to_dependents"}
    && (forall key | key in given :: kept[key] == given[key])
    && (forall key | key in {"decisions", "tests_run", "unresolved_risks"} && key !in given :: kept[key] == Items([]))
    && (forall key | key in {"files_changed", "outputs_produced"} && key !in given :: kept[key] == Items(written))
    && ("available_to_dependents" !in given ==> kept["available_to_dependents"] == Flag(true))
  }

  predicate AllSections(sections: seq<string>) {
    sections == ["system_and_safety_instructions", "role_instructions", "story_goal", "applicable_requirements",
                 "required_context", "writable_path_rules", "expected_output_contract", "validation_instructions",
                 "response_contract"]
  }

  /** `after` is the record of a task that had `before` and was tried once: told from the outcome, field
      by field. */
  ghost predicate Tried(before: TaskRecord, after: TaskRecord, task: Task, launch: Launch) {
    var trial := launch.trials(task.id);
    && after.attempt == before.attempt + 1
    && (if trial.model.Some? && trial.context.Assembled? then AllSections(after.contextSections) else after.contextSections == [])
    && if Acceptable(task, trial, launch.matches)
       then && after.status == Completed && after.failure.None? && after.validation == Passed
            && OutputsOf(task, trial.reply.files, after.outputs)
            && HandoffOf(trial.reply.handoff, after.outputs[1..], after.handoff)
       else && after.failure.Some? && after.validation == NotValidated && after.outputs == [] && after.handoff == map[]
            && if TooLarge(task, trial)
               then after.status == RedecompositionRequired && after.failure.value == ContextOverBudget
               else && FailsWith(task, trial, launch.matches, after.failure.value)
                    && after.status == if after.failure.value == FileBoundaryViolation then Blocked else Failed
  }

  /** The record in the final state `r` follows from the starting state `s`, the task's outcome, and
      whether its dependencies are completed in the end: a task that is completed (or on resume waits for
      redecomposition) is passed over, and any other is blocked or tried. */
  ghost predicate Explained(s: State, r: State, task: Task, launch: Launch) {
    var before, after := RecordOf(s, task.id), RecordOf(r, task.id);
    if before.status == Completed || (launch.resume && before.status == RedecompositionRequired) then after == before
    else if exists d :: d in task.dependsOn && !IsCompleted(r, d)
    then after == before.(status := Blocked, failure := Some(BlockedByDependency))
    else Tried(before, after, task, launch)
  }

  lemma {:induction false} HandoffKept(given: Handoff, applied: seq<string>)
    ensures HandoffOf(given, applied, NormalizedHandoff(given, applied))
  {
    hide SetDefault;
    DefaultsAdded(given, applied, "decisions", "files_changed", "outputs_produced", "tests_run", "unresolved_risks",
                  "available_to_dependents");
  }

  /** Six defaults set one after the other, for any six different field names. */
  lemma DefaultsAdded(given: Handoff, written: seq<string>, decisions: string, changed: string, produced: string,
                      tests: string, risks: string, available: string)
    requires decisions !in [changed, produced, tests, risks, available] && changed !in [produced, tests, risks, available]
    requires produced !in [tests, risks, available] && tests !in [risks, available] && risks != available
    ensures var h := SetDefault(SetDefault(SetDefault(given, decisions, Items([])), changed, Items(written)), produced,
                                Items(written));
            var kept := SetDefault(SetDefault(SetDefault(h, tests, Items([])), risks, Items([])), available, Flag(true));
            && kept.Keys == given.Keys + {decisions, changed, produced, tests, risks, available}
            && (forall key | key in given :: kept[key] == given[key])
            && (forall key | key in {decisions, tests, risks} && key !in given :: kept[key] == Items([]))
            && (forall key | key in {changed, produced} && key !in given :: kept[key] == Items(written))
            && (available !in given ==> kept[available] == Flag(true))
  {
  }

  lemma AttemptedRecord(s: State, task: Task, launch: Launch)
    ensures var trial := launch.trials(task.id);
            var known := WithContext(Audit(RecordOf(s, task.id).attempt + 1), trial);
            RecordOf(AttemptedState(s, task, launch), task.id) ==
            match Judge(task, trial, launch.matches)
            case Oversized => known.(status := RedecompositionRequired, failure := Some(ContextOverBudget))
            case Refused(failure) => known.(status := FailureStatus(failure), failure := Some(failure))
            case Accepted(writes, handoff) => Succeeded(known, task.id, writes, handoff)
  {
    hide Judge, Succeeded, WithContext, FailureStatus;
  }

  /** The record an attempt leaves. */
  lemma {:induction false} AttemptIsTried(s: State, task: Task, launch: Launch)
    ensures Tried(RecordOf(s, task.id), RecordOf(AttemptedState(s, task, launch), task.id), task, launch)
  {
    assert AllSections(CONTEXT_SECTIONS);
    hide AllSections, CONTEXT_SECTIONS, Judge, Succeeded, AttemptedState, RecordOf, AllAllowed, Fits, TooLarge, FailsWith,
         HandoffOf, OutputsOf, WritesOf;
    var trial := launch.trials(task.id);
    AttemptedRecord(s, task, launch);
    AcceptedExactly(task, trial, launch.matches);
    TooLargeExactly(task, trial, launch.matches);
    match Judge(task, trial, launch.matches)
    case Oversized =>
    case Refused(failure) => RefusedExactly(task, trial, launch.matches, failure);
    case Accepted(writes, handoff) =>
      AcceptedNeedsContext(task, trial, launch.matches);
      SuccessTold(task, trial, RecordOf(s, task.id).attempt + 1, writes, handoff);
  }

  /** The record of a reply that is applied. */
  lemma SuccessTold(task: Task, trial: Trial, attempt: nat, writes: seq<FileWrite>, handoff: Handoff)
    requires trial.model.Some? && trial.context.Assembled? && trial.reply.Answer? && WritesOf(trial.reply.files, writes)
    ensures var r := Succeeded(WithContext(Audit(attempt), trial), task.id, writes, handoff);
            && r.attempt == attempt && r.status == Completed && r.failure.None? && r.validation == Passed
            && r.contextSections == CONTEXT_SECTIONS && OutputsOf(task, trial.reply.files, r.outputs)
            && HandoffOf(handoff, r.outputs[1..], r.handoff)
  {
    hide CONTEXT_SECTIONS, NormalizedHandoff, HandoffOf, OutputsOf, WritesOf, CompletionCheck;
    SuccessIsComplete(task, trial, attempt, writes, handoff);
    OutputsKept(task, trial.reply.files, writes);
    HandoffKept(handoff, PathsOf(writes));
  }

  lemma TooLargeExactly(task: Task, trial: Trial, matches: Paths.Matcher)
    ensures Judge(task, trial, matches) == Oversized <==> TooLarge(task, trial)
  {
    OversizedExactly(task, trial, matches);
    hide Judge;
  }

  lemma OutputsKept(task: Task, files: seq<RawFile>, writes: seq<FileWrite>)
    requires WritesOf(files, writes)
    ensures var outputs := [OutputPath(task.id)] + PathsOf(writes);
            OutputsOf(task, files, outputs) && outputs[1..] == PathsOf(writes)
  {
    hide Paths.Normalize;
  }

  lemma SameRecordTried(s: State, t: State, r: State, task: Task, launch: Launch)
    requires RecordOf(s, task.id) == RecordOf(t, task.id)
    ensures Tried(RecordOf(s, task.id), RecordOf(r, task.id), task, launch) <==>
            Tried(RecordOf(t, task.id), RecordOf(r, task.id), task, launch)
  {
    hide Tried;
  }

  lemma VisitExplained(m: Machine, task: Task, launch: Launch)
    requires task.id !in task.dependsOn
    ensures Explained(m.state, Visit(m, task, launch).state, task, launch)
  {
    hide Attempt, AttemptedState, Tried;
    var known, r := m.(state := Ensure(m.state, task.id)), Visit(m, task, launch).state;
    forall d | d in task.dependsOn ensures IsCompleted(r, d) <==> IsCompleted(known.state, d) {
      OthersKeepCompletion(m, task, launch, d);
    }
    AttemptIs(known, task, launch);
    AttemptIsTried(known.state, task, launch);
    SameRecordTried(m.state, known.state, r, task, launch);
  }

  lemma StillExplained(s: State, r: State, t: State, task: Task, launch: Launch)
    requires Explained(s, r, task, launch) && RecordOf(t, task.id) == RecordOf(r, task.id)
    requires forall d | d in task.dependsOn :: IsCompleted(t, d) <==> IsCompleted(r, d)
    ensures Explained(s, t, task, launch)
  {
    hide Tried, Skips;
  }

  lemma {:induction false} RunTasksExplained(m: Machine, order: seq<Task>, n: nat, launch: Launch)
    requires UniqueIds(order) && DependenciesFirst(order) && n <= |order|
    ensures forall k | 0 <= k < n :: Explained(m.state, RunTasks(m, order, n, launch).state, order[k], launch)
  {
    hide Visit, Explained, IsCompleted;
    if n > 0 {
      var before, task := RunTasks(m, order, n - 1, launch), order[n - 1];
      RunTasksExplained(m, order, n - 1, launch);
      forall k | 0 <= k < n - 1 ensures Explained(m.state, Visit(before, task, launch).state, order[k], launch) {
        EarlierStaysExplained(m.state, before, order, n, k, launch);
      }
      LastIsExplained(m, order, n, launch);
    }
  }

  lemma EarlierStaysExplained(s: State, before: Machine, order: seq<Task>, n: nat, k: nat, launch: Launch)
    requires UniqueIds(order) && DependenciesFirst(order) && k < n - 1 < |order|
    requires Explained(s, before.state, order[k], launch)
    ensures Explained(s, Visit(before, order[n - 1], launch).state, order[k], launch)
  {
    hide Visit, Explained, IsCompleted;
    var r := Visit(before, order[n - 1], launch).state;
    VisitFrame(before, order[n - 1], launch);
    forall d | d in order[k].dependsOn ensures IsCompleted(r, d) <==> IsCompleted(before.state, d) {
      assert d in Ids(order[..k]);
      var i :| 0 <= i < k && order[i].id == d;
      OthersKeepCompletion(before, order[n - 1], launch, d);
    }
    StillExplained(s, before.state, r, order[k], launch);
  }

  lemma LastIsExplained(m: Machine, order: seq<Task>, n: nat, launch: Launch)
    requires UniqueIds(order) && DependenciesFirst(order) && 0 < n <= |order|
    ensures Explained(m.state, RunTasks(m, order, n, launch).state, order[n - 1], launch)
  {
    hide Visit, Explained, RecordOf;
    var before, task := RunTasks(m, order, n - 1, launch), order[n - 1];
    assert task.id !in Ids(order[..n - 1]);
    UntouchedRecords(m, order, n - 1, launch, task.id);
    assert task.id !in task.dependsOn;
    VisitExplained(before, task, launch);
    SameBeforeExplained(m.state, before.state, Visit(before, task, launch).state, task, launch);
  }

  lemma SameBeforeExplained(s: State, t: State, r: State, task: Task, launch: Launch)
    requires Explained(t, r, task, launch) && RecordOf(s, task.id) == RecordOf(t, task.id)
    ensures Explained(s, r, task, launch)
  {
    hide Tried, IsCompleted;
  }

  /** After a run every selected task's record is explained. */
  lemma RunExplainsEveryRecord(existing: Option<State>, order: seq<Task>, criteria: seq<string>,
                               files: map<string, string>, launch: Launch, task: Task)
    requires UniqueIds(order) && DependenciesFirst(order) && task in order
    ensures Explained(Base(existing), Run(existing, order, criteria, files, launch).state, task, launch)
  {
    InitializeFrame(existing, order);
    RunEnds(existing, order, criteria, files, launch);
    hide RunTasks, Initialize, Run, Tried;
    RunTasksExplained(StartMachine(existing, order, files), order, |order|, launch);
    var k :| 0 <= k < |order| && order[k] == task;
  }

  // ---------------------------------------------------------------- the first state file

  lemma {:induction false} LogOnlyGrows(m: Machine, order: seq<Task>, n: nat, launch: Launch)
    requires n <= |order|
    ensures m.log <= RunTasks(m, order, n, launch).log
  {
    hide Attempt, AttemptedState, RunningState;
    if n > 0 {
      var before, task := RunTasks(m, order, n - 1, launch), order[n - 1];
      LogOnlyGrows(m, order, n - 1, launch);
      AttemptIs(before.(state := Ensure(before.state, task.id)), task, launch);
    }
  }

  /** The first state file of a run is the saved state, or an empty pending one, in which every selected task
      that had no record has a blank one; everything else on file is as it was. */
  lemma {:induction false} FirstWrite(existing: Option<State>, order: seq<Task>, criteria: seq<string>,
                                      files: map<string, string>, launch: Launch)
    ensures var log := Run(existing, order, criteria, files, launch).log;
            var saved := if existing.Some? then existing.value else State(StoryPending, None, [], [], [], map[]);
            && |log| > 0 && log[0] == saved.(tasks := log[0].tasks)
            && log[0].tasks.Keys == saved.tasks.Keys + Ids(order)
            && forall id | id in log[0].tasks ::
                 log[0].tasks[id] == if id in saved.tasks then saved.tasks[id]
                                     else TaskRecord(Pending, 0, None, [], [], map[], NotValidated)
  {
    var start := StartMachine(existing, order, files);
    LogOnlyGrows(start, order, |order|, launch);
    RunEnds(existing, order, criteria, files, launch);
    hide RunTasks, Run;
    assert Run(existing, order, criteria, files, launch).log[0] == start.log[0];
  }

  /** A session builds on the supplied state if there is one, on the state file when it resumes, and otherwise
      on nothing: stopped after its first write, the file says just that. */
  lemma {:induction false} SessionBuildsOn(disk: Option<State>, s: Session)
    requires s.writes == 1
    ensures var saved := if s.supplied.Some? then s.supplied.value
                         else if s.launch.resume && disk.Some? then disk.value
                         else State(StoryPending, None, [], [], [], map[]);
            var file := DiskAfter(disk, s);
            && file.Some? && file.value == saved.(tasks := file.value.tasks)
            && file.value.tasks.Keys == saved.tasks.Keys + Ids(s.order)
            && forall id | id in saved.tasks :: file.value.tasks[id] == saved.tasks[id]
  {
    hide Run;
    FirstWrite(Existing(s, disk), s.order, s.criteria, s.files, s.launch);
  }

  // ---------------------------------------------------------------- the state files of one visit

  /** The state file says that the task has just been started: its record is a blank one with one more
      attempt, and nothing else has changed. */
  ghost predicate StartedNow(s: State, w: State, task: Task) {
    && w.status == StoryRunning && w.current == Some(task.id)
    && w.completed == s.completed && w.blocked == s.blocked && w.redecompose == s.redecompose
    && w.tasks == s.tasks[task.id := TaskRecord(Running, RecordOf(s, task.id).attempt + 1, None, [], [], map[], NotValidated)]
  }

  /** The state file says that the story stopped at this task. */
  ghost predicate StoppedAt(s: State, r: State, id: Id) {
    && r.status == StoryBlocked && r.current == Some(id) && r.completed == s.completed
    && r.blocked == (if id in s.blocked then s.blocked else s.blocked + [id])
  }

  /** The state file says that the task was completed: it moves to the end of the completed list. */
  ghost predicate DoneAt(s: State, r: State, id: Id) {
    && r.status == StoryRunning && r.current == Some(id) && r.completed == s.completed + [id]
    && r.blocked == Without(s.blocked, id) && r.redecompose == Without(s.redecompose, id)
  }

  /** Every state file one visit writes, and the lists, status and current task it says: none when the task
      is passed over, one when a dependency is not completed, and otherwise the start of the task followed
      by its end, which a failure writes twice. */
  lemma {:induction false} VisitTold(m: Machine, task: Task, launch: Launch)
    requires ListsAgree(m.state)
    ensures var s, before, v := m.state, RecordOf(m.state, task.id), Visit(m, task, launch);
            var trial := launch.trials(task.id);
            if before.status == Completed || (launch.resume && before.status == RedecompositionRequired)
            then v.log == m.log && v.state == s.(tasks := s.tasks[task.id := before])
            else if exists d :: d in task.dependsOn && !IsCompleted(s, d)
            then v.log == m.log + [v.state] && StoppedAt(s, v.state, task.id) && v.state.redecompose == s.redecompose
            else && |v.log| > |m.log| && StartedNow(s, v.log[|m.log|], task)
                 && if Acceptable(task, trial, launch.matches)
                    then v.log == m.log + [v.log[|m.log|], v.state] && DoneAt(s, v.state, task.id)
                    else && v.log == m.log + [v.log[|m.log|], v.state, v.state] && StoppedAt(s, v.state, task.id)
                         && v.state.redecompose == if TooLarge(task, trial) && task.id !in s.redecompose
                                                   then s.redecompose + [task.id] else s.redecompose
  {
    hide Attempt, AttemptedState, Acceptable, TooLarge;
    var known := m.(state := Ensure(m.state, task.id));
    AttemptWrites(known, task, launch);
    if !IsCompleted(m.state, task.id) { AttemptedLists(known.state, task, launch); }
    RunningIsStarted(m.state, task);
  }

  /** How many state files an attempt writes. */
  lemma AttemptWrites(m: Machine, task: Task, launch: Launch)
    ensures var r := Attempt(m, task, launch);
            var running := RunningState(m.state, task);
            && r.state == AttemptedState(m.state, task, launch)
            && r.log == m.log + [running] + if Acceptable(task, launch.trials(task.id), launch.matches)
                                            then [r.state] else [r.state, r.state]
  {
    hide Judge, Succeeded, WithContext, StartTask, FailTask, RequireRedecomposition, CompleteTask, ApplyWrites, Acceptable;
    var trial := launch.trials(task.id);
    var running := Persist(m.(started := m.started + [task.id]), RunningState(m.state, task));
    AcceptedExactly(task, trial, launch.matches);
    if Judge(task, trial, launch.matches).Accepted? {
      ApplyWritesFrame(running, task.id, Judge(task, trial, launch.matches).writes);
    }
  }

  lemma AttemptedLists(s: State, task: Task, launch: Launch)
    requires ListsAgree(s) && !IsCompleted(s, task.id)
    ensures var r, trial := AttemptedState(s, task, launch), launch.trials(task.id);
            if Acceptable(task, trial, launch.matches) then DoneAt(s, r, task.id)
            else StoppedAt(s, r, task.id)
                 && r.redecompose == if TooLarge(task, trial) && task.id !in s.redecompose
                                     then s.redecompose + [task.id] else s.redecompose
  {
    hide Judge, Succeeded, WithContext, Acceptable, TooLarge;
    AcceptedExactly(task, launch.trials(task.id), launch.matches);
    TooLargeExactly(task, launch.trials(task.id), launch.matches);
  }

  lemma RunningIsStarted(s: State, task: Task)
    ensures StartedNow(s, RunningState(Ensure(s, task.id), task), task)
  {
    var e, audit := Ensure(s, task.id), Audit(RecordOf(s, task.id).attempt + 1);
    assert e.tasks[task.id := audit] == s.tasks[task.id := audit];
  }
}
