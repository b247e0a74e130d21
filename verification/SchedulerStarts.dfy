/** Which tasks a run starts, told from the saved state and the outcomes. */
module SchedulerStarts {
  import opened Common
  import opened TaskGraph
  import opened Scheduler
  import opened SchedulerInvariant
  import opened SchedulerOutcome
  import opened SchedulerProgress
  import opened SchedulerRecords
  import opened SchedulerEnding
  import opened SchedulerVerdicts

  /** A started task is one more attempt, and the record tells whether that attempt was made. */
  lemma StartedIsTried(s: State, m: Machine, ids: set<Id>, task: Task, launch: Launch)
    requires LogTally(s, m, ids, launch.resume) && Explained(s, m.state, task, launch)
    ensures task.id in m.started <==>
            && !IsCompleted(s, task.id) && !(launch.resume && RecordOf(s, task.id).status == RedecompositionRequired)
            && forall d | d in task.dependsOn :: IsCompleted(m.state, d)
  {
  }

  /** A run starts exactly the selected tasks that are neither completed nor, on resume, parked, and whose
      dependencies can all succeed; how the task itself failed before plays no part. */
  lemma {:induction false} RunStartsExactly(g: Graph, existing: Option<State>, order: seq<Task>, criteria: seq<string>,
                                            files: map<string, string>, launch: Launch, t: Task)
    requires WellFormed(g) && DrawnFrom(g, order) && DependenciesFirst(order) && DiskInv(g, existing) && t in order
    ensures t.id in Run(existing, order, criteria, files, launch).started <==>
            && !IsCompleted(Base(existing), t.id)
            && !(launch.resume && RecordOf(Base(existing), t.id).status == RedecompositionRequired)
            && forall d | d in t.dependsOn :: Achievable(g, Base(existing), launch, d)
  {
    hide Run, Achievable, IsCompleted, RecordOf, Explained, LogTally, Inv;
    var m := Run(existing, order, criteria, files, launch);
    RunStartsEachOnce(existing, order, criteria, files, launch);
    RunExplainsEveryRecord(existing, order, criteria, files, launch, t);
    StartedIsTried(Base(existing), m, Ids(order), t, launch);
    OrderIsClosed(g, order);
    forall d | d in t.dependsOn ensures IsCompleted(m.state, d) <==> Achievable(g, Base(existing), launch, d) {
      assert t.id in Ids(order);
      RunCompletesExactly(g, existing, order, criteria, files, launch, d);
    }
  }

  /** The outcome is a failure, and not for the size of the context. */
  ghost predicate PlainlyFails(t: Task, launch: Launch) {
    !Wins(t, launch) && !TooLarge(t, launch.trials(t.id))
  }

  /** A task that failed is started again by the next resume although nothing about it has changed. */
  lemma {:induction false} FailedTaskIsRetriedUnchanged(t: Task, criteria: seq<string>, files: map<string, string>,
                                                        launch: Launch)
    requires t.dependsOn == [] && PlainlyFails(t, launch) && launch.resume
    ensures var first := Run(None, [t], criteria, files, launch);
            var again := Run(Some(first.state), [t], criteria, files, launch);
            first.started == [t.id] && again.started == [t.id]
  {
    var g := map[t.id := t];
    var first := Run(None, [t], criteria, files, launch);
    hide Run, Inv, Acceptable, TooLarge, RequirementIds;
    assert DrawnFrom(g, [t]) && DependenciesFirst([t]) && WellFormed(g);
    StartsAlone(g, None, t, criteria, files, launch);
    RunKeepsInvariant(g, None, [t], criteria, files, launch);
    RunExplainsEveryRecord(None, [t], criteria, files, launch, t);
    StartsAlone(g, Some(first.state), t, criteria, files, launch);
  }

  lemma StartsAlone(g: Graph, existing: Option<State>, t: Task, criteria: seq<string>, files: map<string, string>,
                    launch: Launch)
    requires g == map[t.id := t] && t.dependsOn == [] && DiskInv(g, existing)
    requires RecordOf(Base(existing), t.id).status !in {Completed, RedecompositionRequired}
    ensures Run(existing, [t], criteria, files, launch).started == [t.id]
  {
    hide Run, Inv, Achievable, RequirementIds;
    assert DrawnFrom(g, [t]) && DependenciesFirst([t]) && WellFormed(g) && t in [t];
    RunStartsExactly(g, existing, [t], criteria, files, launch, t);
    RunStartsEachOnce(existing, [t], criteria, files, launch);
    var started := Run(existing, [t], criteria, files, launch).started;
    assert (set id | id in started) == {t.id};
    SizeOfElements(started);
  }

  // ---------------------------------------------------------------- contexts over the budget

  /** After a run a selected task waits for redecomposition exactly when it did before and was passed over,
      or it was tried and its context is larger than the budget leaves for input. */
  lemma {:induction false} ParkedExactly(g: Graph, existing: Option<State>, order: seq<Task>, criteria: seq<string>,
                                         files: map<string, string>, launch: Launch, t: Task)
    requires WellFormed(g) && DrawnFrom(g, order) && DependenciesFirst(order) && DiskInv(g, existing) && t in order
    ensures var m, before := Run(existing, order, criteria, files, launch), RecordOf(Base(existing), t.id);
            RecordOf(m.state, t.id).status == RedecompositionRequired <==>
            || (launch.resume && before.status == RedecompositionRequired)
            || (t.id in m.started && TooLarge(t, launch.trials(t.id)))
  {
    hide Run, LogTally, Inv, AllAllowed, FailsWith, OutputsOf, HandoffOf;
    RunExplainsEveryRecord(existing, order, criteria, files, launch, t);
    RunStartsEachOnce(existing, order, criteria, files, launch);
    StartedIsTried(Base(existing), Run(existing, order, criteria, files, launch), Ids(order), t, launch);
  }

  /** The record of `id` is `record` now and in every state file written so far. */
  ghost predicate LogKeeps(m: Machine, id: Id, record: TaskRecord) {
    RecordOf(m.state, id) == record && forall s | s in m.log :: RecordOf(s, id) == record
  }

  lemma VisitLeavesParked(m: Machine, task: Task, launch: Launch, id: Id, record: TaskRecord)
    requires LogKeeps(m, id, record) && record.status == RedecompositionRequired && launch.resume
    ensures LogKeeps(Visit(m, task, launch), id, record)
  {
    hide Attempt, AttemptedState, FirstBlocking;
    var known := m.(state := Ensure(m.state, task.id));
    AttemptIs(known, task, launch);
    AttemptedOnlyAbout(known.state, task, launch);
  }

  lemma {:induction false} PassLeavesParked(m: Machine, order: seq<Task>, n: nat, launch: Launch, id: Id, record: TaskRecord)
    requires LogKeeps(m, id, record) && record.status == RedecompositionRequired && launch.resume && n <= |order|
    ensures LogKeeps(RunTasks(m, order, n, launch), id, record)
  {
    hide Visit, LogKeeps;
    if n > 0 {
      PassLeavesParked(m, order, n - 1, launch, id, record);
      VisitLeavesParked(RunTasks(m, order, n - 1, launch), order[n - 1], launch, id, record);
    }
  }

  /** A resumed run leaves the record of a task that waits for redecomposition alone, in every state
      file it writes. */
  lemma RunLeavesParked(existing: Option<State>, order: seq<Task>, criteria: seq<string>, files: map<string, string>,
                        launch: Launch, id: Id)
    requires RecordOf(Base(existing), id).status == RedecompositionRequired && launch.resume
    ensures LogKeeps(Run(existing, order, criteria, files, launch), id, RecordOf(Base(existing), id))
  {
    InitializeFrame(existing, order);
    RunEnds(existing, order, criteria, files, launch);
    hide Initialize, RunTasks, Run, IsCompleted;
    PassLeavesParked(StartMachine(existing, order, files), order, |order|, launch, id, RecordOf(Base(existing), id));
  }

  /** No sequence of resumes, each stopped at any write, starts a task that waits for redecomposition. */
  lemma {:induction false} ParkedNeverStartAgain(disk: Option<State>, sessions: seq<Session>, id: Id)
    requires RecordOf(Base(disk), id).status == RedecompositionRequired
    requires forall k | 0 <= k < |sessions| :: Resumes(sessions[k])
    ensures Starts(disk, sessions, id) == 0
    ensures RecordOf(Base(DiskAfterAll(disk, sessions)), id) == RecordOf(Base(disk), id)
  {
    hide Run, RecordOf, IsCompleted;
    if sessions != [] {
      var last := |sessions| - 1;
      var s, before := sessions[last], DiskAfterAll(disk, sessions[..last]);
      ParkedNeverStartAgain(disk, sessions[..last], id);
      SessionTally(before, s);
      RunLeavesParked(before, s.order, s.criteria, s.files, s.launch, id);
    }
  }

  /** A selected task that is not passed over, whose dependencies can all succeed and whose context is larger
      than the budget leaves after the reserved output, ends waiting for redecomposition: it is on both lists,
      the story is blocked, and no resume ever starts it again, over any sequence of them, whatever they
      select, wherever they are stopped and whatever the task's outcome would be by then. */
  lemma {:induction false} OversizedTaskIsParked(g: Graph, existing: Option<State>, order: seq<Task>,
                                                 criteria: seq<string>, files: map<string, string>, launch: Launch,
                                                 t: Task, sessions: seq<Session>)
    requires WellFormed(g) && DrawnFrom(g, order) && DependenciesFirst(order) && DiskInv(g, existing) && t in order
    requires !IsCompleted(Base(existing), t.id)
    requires !(launch.resume && RecordOf(Base(existing), t.id).status == RedecompositionRequired)
    requires forall d | d in t.dependsOn :: Achievable(g, Base(existing), launch, d)
    requires var trial := launch.trials(t.id);
             && trial.model.Some? && trial.context.Assembled?
             && trial.context.estimatedInputTokens > t.budget.maxInputTokens - t.budget.reservedOutputTokens
    requires forall k | 0 <= k < |sessions| :: Resumes(sessions[k])
    ensures var r := Run(existing, order, criteria, files, launch).state;
            && RecordOf(r, t.id).status == RedecompositionRequired && RecordOf(r, t.id).failure == Some(ContextOverBudget)
            && t.id in r.redecompose && t.id in r.blocked && r.status == StoryBlocked
            && Starts(Some(r), sessions, t.id) == 0
  {
    hide Run, Inv, Achievable, OutputsOf, HandoffOf, Acceptable, FailsWith, AllCovered;
    var r := Run(existing, order, criteria, files, launch).state;
    RunStartsExactly(g, existing, order, criteria, files, launch, t);
    ParkedExactly(g, existing, order, criteria, files, launch, t);
    RunExplainsEveryRecord(existing, order, criteria, files, launch, t);
    RunKeepsInvariant(g, existing, order, criteria, files, launch);
    InvParked(g, r, t.id);
    InvListsAgree(g, r);
    RunEnding(g, existing, order, criteria, files, launch);
    ParkedNeverStartAgain(Some(r), sessions, t.id);
  }

  /** No model can be resolved for any task. */
  function NoModels(): Launch {
    Launch(_ => Trial(None, ContextError, RuntimeFailure), (path, pattern) => false, true)
  }

  /** The concrete case: with no model configured, each resume starts and fails the same task again. */
  lemma {:induction false} UnresolvedModelIsRetried(id: Id, files: map<string, string>)
    ensures var t := Task(id, "developer", [], [], ["src/*"], [], Budget(1, 0));
            var first := Run(None, [t], [], files, NoModels());
            var again := Run(Some(first.state), [t], [], files, NoModels());
            && first.started == [id] && again.started == [id]
            && RecordOf(again.state, id).attempt == RecordOf(first.state, id).attempt + 1
  {
    var t := Task(id, "developer", [], [], ["src/*"], [], Budget(1, 0));
    var first := Run(None, [t], [], files, NoModels());
    assert PlainlyFails(t, NoModels()) && NoModels().resume;
    hide Run, PlainlyFails, NoModels, RequirementIds;
    FailedTaskIsRetriedUnchanged(t, [], files, NoModels());
    assert UniqueIds([t]);
    RunStartsEachOnce(Some(first.state), [t], [], files, NoModels());
  }
}
