/** Which tasks a run completes, exactly; independence of the order; recovery after any stop. */
module SchedulerOutcome {
  import opened Common
  import opened TaskGraph
  import opened Scheduler
  import opened SchedulerInvariant
  import opened SchedulerVerdicts

  // ---------------------------------------------------------------- one visit

  /** `r` is `s` but for the record and list memberships of `id`. */
  ghost predicate OnlyAbout(s: State, r: State, id: Id) {
    forall e | e != id ::
      && RecordOf(r, e) == RecordOf(s, e) && (e in r.tasks <==> e in s.tasks)
      && (e in r.completed <==> e in s.completed) && (e in r.blocked <==> e in s.blocked)
      && (e in r.redecompose <==> e in s.redecompose)
  }

  lemma AttemptedOnlyAbout(s: State, task: Task, launch: Launch)
    ensures OnlyAbout(s, AttemptedState(s, task, launch), task.id)
  {
    hide Judge, Succeeded, WithContext;
  }

  /** A visit of one task leaves every other task's record and list memberships alone. */
  lemma {:induction false} VisitFrame(m: Machine, task: Task, launch: Launch)
    ensures OnlyAbout(m.state, Visit(m, task, launch).state, task.id)
  {
    var known := m.(state := Ensure(m.state, task.id));
    AttemptIs(known, task, launch);
    AttemptedOnlyAbout(known.state, task, launch);
    hide Attempt, AttemptedState, Skips, FirstBlocking;
  }

  /** The task's outcome is a reply that is applied. */
  ghost predicate Wins(task: Task, launch: Launch) {
    Acceptable(task, launch.trials(task.id), launch.matches)
  }

  lemma AttemptOutcome(s: State, task: Task, launch: Launch)
    ensures var r := AttemptedState(s, task, launch);
            && (IsCompleted(r, task.id) <==> Wins(task, launch)) && (!Wins(task, launch) ==> task.id in r.blocked)
            && RecordOf(r, task.id).attempt == RecordOf(s, task.id).attempt + 1
            && (RecordOf(r, task.id).status == RedecompositionRequired ==> !Wins(task, launch))
  {
    hide Judge, CompletionCheck, NormalizedHandoff, Acceptable;
    AcceptedExactly(task, launch.trials(task.id), launch.matches);
  }

  /** When the visited task ends up completed, and that otherwise it is on the blocked list. */
  lemma VisitOutcome(m: Machine, task: Task, launch: Launch)
    ensures var s, r := m.state, Visit(m, task, launch).state;
            IsCompleted(r, task.id) <==>
              IsCompleted(s, task.id)
              || (!(launch.resume && RecordOf(s, task.id).status == RedecompositionRequired)
                  && (forall d | d in task.dependsOn :: IsCompleted(s, d)) && Wins(task, launch))
    ensures ListsAgree(m.state) && ParkedIsListed(m.state, task.id) ==>
            IsCompleted(Visit(m, task, launch).state, task.id) || task.id in Visit(m, task, launch).state.blocked
  {
    hide Attempt, AttemptedState, Wins;
    var known := m.(state := Ensure(m.state, task.id));
    assert forall d :: IsCompleted(known.state, d) <==> IsCompleted(m.state, d);
    AttemptIs(known, task, launch);
    AttemptOutcome(known.state, task, launch);
  }

  // ---------------------------------------------------------------- the exact completed set

  /** The task itself is done or would be done: completed before, or tried and accepted now. */
  ghost predicate OwnSuccess(s: State, task: Task, launch: Launch) {
    || IsCompleted(s, task.id)
    || (!(launch.resume && RecordOf(s, task.id).status == RedecompositionRequired) && Wins(task, launch))
  }

  /** The task and everything it needs succeeds. Nothing here mentions an execution order. */
  ghost predicate Achievable(g: Graph, s: State, launch: Launch, id: Id) {
    forall d | d in g && Needs(g, id, d) :: OwnSuccess(s, g[d], launch)
  }

  lemma AchievableUnfolds(g: Graph, s: State, launch: Launch, id: Id)
    requires WellFormed(g) && id in g
    ensures Achievable(g, s, launch, id) <==>
            OwnSuccess(s, g[id], launch) && forall d | d in g[id].dependsOn :: Achievable(g, s, launch, d)
  {
    hide OwnSuccess, Needs;
    NeedsItself(g, id);
    if Achievable(g, s, launch, id) {
      forall d, e | d in g[id].dependsOn && e in g && Needs(g, d, e) ensures OwnSuccess(s, g[e], launch) {
        NeedsVia(g, id, d, e);
      }
    }
    if OwnSuccess(s, g[id], launch) && forall d | d in g[id].dependsOn :: Achievable(g, s, launch, d) {
      forall e | e in g && Needs(g, id, e) ensures OwnSuccess(s, g[e], launch) {
        if e != id {
          var d := NeedsStep(g, id, e);
        }
      }
    }
  }

  lemma CompletedIsAchievable(g: Graph, s: State, launch: Launch, id: Id)
    requires WellFormed(g) && Inv(g, s) && id in g && IsCompleted(s, id)
    ensures Achievable(g, s, launch, id)
  {
    var done := set d | d in s.completed;
    forall e | e in g && Needs(g, id, e) ensures OwnSuccess(s, g[e], launch) {
      ClosedContainsNeeds(g, done, id, e);
    }
  }

  lemma {:induction false} UntouchedRecords(m: Machine, order: seq<Task>, n: nat, launch: Launch, id: Id)
    requires n <= |order| && id !in Ids(order[..n])
    ensures RecordOf(RunTasks(m, order, n, launch).state, id) == RecordOf(m.state, id)
    ensures IsCompleted(RunTasks(m, order, n, launch).state, id) <==> IsCompleted(m.state, id)
  {
    hide Visit;
    if n > 0 {
      assert order[..n] == order[..n - 1] + [order[n - 1]];
      assert order[n - 1] in order[..n];
      UntouchedRecords(m, order, n - 1, launch, id);
      VisitFrame(RunTasks(m, order, n - 1, launch), order[n - 1], launch);
    }
  }

  ghost predicate CompletedExactly(g: Graph, s: State, launch: Launch, order: seq<Task>, n: nat, r: State)
    requires n <= |order|
  {
    forall k | 0 <= k < n :: IsCompleted(r, order[k].id) <==> Achievable(g, s, launch, order[k].id)
  }

  lemma {:induction false} RunTasksCompletes(g: Graph, m: Machine, order: seq<Task>, n: nat, launch: Launch)
    requires WellFormed(g) && DrawnFrom(g, order) && DependenciesFirst(order) && Inv(g, m.state) && n <= |order|
    ensures CompletedExactly(g, m.state, launch, order, n, RunTasks(m, order, n, launch).state)
  {
    hide Visit, Inv, Achievable, IsCompleted, Wins, DependenciesFirst, WellFormed;
    if n > 0 {
      var before, task := RunTasks(m, order, n - 1, launch), order[n - 1];
      RunTasksCompletes(g, m, order, n - 1, launch);
      assert task.id !in Ids(order[..n - 1]);
      LastTaskCompletes(g, m, order, n, launch);
      forall k | 0 <= k < n - 1
        ensures IsCompleted(Visit(before, task, launch).state, order[k].id) <==> IsCompleted(before.state, order[k].id)
      {
        assert order[k].id != task.id;
        OthersKeepCompletion(before, task, launch, order[k].id);
      }
    }
  }

  lemma OthersKeepCompletion(m: Machine, task: Task, launch: Launch, id: Id)
    requires id != task.id
    ensures IsCompleted(Visit(m, task, launch).state, id) <==> IsCompleted(m.state, id)
  {
    VisitFrame(m, task, launch);
    hide Visit;
  }

  lemma LastTaskCompletes(g: Graph, m: Machine, order: seq<Task>, n: nat, launch: Launch)
    requires WellFormed(g) && DrawnFrom(g, order) && DependenciesFirst(order) && Inv(g, m.state) && 0 < n <= |order|
    requires CompletedExactly(g, m.state, launch, order, n - 1, RunTasks(m, order, n - 1, launch).state)
    requires order[n - 1].id !in Ids(order[..n - 1])
    ensures IsCompleted(RunTasks(m, order, n, launch).state, order[n - 1].id) <==>
            Achievable(g, m.state, launch, order[n - 1].id)
  {
    hide Visit, Inv, Achievable, Wins;
    var before, task := RunTasks(m, order, n - 1, launch), order[n - 1];
    assert task in order;
    UntouchedRecords(m, order, n - 1, launch, task.id);
    VisitOutcome(before, task, launch);
    AchievableUnfolds(g, m.state, launch, task.id);
    forall d | d in task.dependsOn
      ensures d != task.id && (IsCompleted(before.state, d) <==> Achievable(g, m.state, launch, d))
    {
      assert d in Ids(order[..n - 1]);
      var k :| 0 <= k < n - 1 && order[k].id == d;
    }
    if IsCompleted(m.state, task.id) { CompletedIsAchievable(g, m.state, launch, task.id); }
  }

  // ---------------------------------------------------------------- whole runs

  /** The state a run builds on: the saved one, or the empty fresh state. */
  function Base(existing: Option<State>): State {
    existing.GetOr(FRESH_STATE)
  }

  lemma InitializeFrame(existing: Option<State>, order: seq<Task>)
    ensures var s, b := Initialize(existing, order), Base(existing);
            && (forall e :: RecordOf(s, e) == RecordOf(b, e) && (IsCompleted(s, e) <==> IsCompleted(b, e)))
            && s.completed == b.completed && s.blocked == b.blocked && s.redecompose == b.redecompose
  {
  }

  /** The last write only settles the story's status. */
  lemma RunEnds(existing: Option<State>, order: seq<Task>, criteria: seq<string>, files: map<string, string>,
                launch: Launch)
    ensures var m, r := FullPass(existing, order, files, launch), Run(existing, order, criteria, files, launch);
            && r.state.tasks == m.state.tasks && r.state.completed == m.state.completed
            && r.state.blocked == m.state.blocked && r.state.redecompose == m.state.redecompose
            && r.log == m.log + [r.state] && r.startedAt == m.startedAt + [m.started]
            && r.started == m.started && r.edits == m.edits && r.files == m.files
  {
    hide FullPass, StoryValidated;
    var s := FullPass(existing, order, files, launch).state;
    var f := Finalize(s, order, criteria);
    assert f == s.(status := f.status, current := f.current);
  }

  lemma SameRecordsSameAchievable(g: Graph, s: State, r: State, launch: Launch, id: Id)
    requires forall e :: RecordOf(r, e) == RecordOf(s, e) && (IsCompleted(r, e) <==> IsCompleted(s, e))
    ensures Achievable(g, s, launch, id) <==> Achievable(g, r, launch, id)
  {
    hide Needs, Wins, IsCompleted, RecordOf;
    assert forall d | d in g :: OwnSuccess(r, g[d], launch) <==> OwnSuccess(s, g[d], launch);
  }

  /** A run completes exactly the selected tasks that are achievable, whatever the order, and
      changes no other task's completion. */
  lemma RunCompletesExactly(g: Graph, existing: Option<State>, order: seq<Task>, criteria: seq<string>,
                            files: map<string, string>, launch: Launch, id: Id)
    requires WellFormed(g) && DrawnFrom(g, order) && DependenciesFirst(order) && DiskInv(g, existing)
    ensures IsCompleted(Run(existing, order, criteria, files, launch).state, id) <==>
            if id in Ids(order) then Achievable(g, Base(existing), launch, id) else IsCompleted(Base(existing), id)
  {
    var start := StartMachine(existing, order, files);
    InitializeKeeps(g, existing, order);
    InitializeFrame(existing, order);
    RunEnds(existing, order, criteria, files, launch);
    assert order[..|order|] == order;
    hide Inv, Achievable, Wins, Visit, Initialize, Run, IsCompleted, RecordOf;
    RunTasksCompletes(g, start, order, |order|, launch);
    SameRecordsSameAchievable(g, Base(existing), start.state, launch, id);
    var end, r := FullPass(existing, order, files, launch).state, Run(existing, order, criteria, files, launch).state;
    SameTasksSameCompletion(end, r, id);
    if id in Ids(order) {
      var t :| t in order && t.id == id;
      var k :| 0 <= k < |order| && order[k] == t;
    } else {
      UntouchedRecords(start, order, |order|, launch, id);
    }
  }

  lemma SameTasksSameCompletion(s: State, r: State, id: Id)
    requires s.tasks == r.tasks
    ensures IsCompleted(s, id) <==> IsCompleted(r, id)
  {
  }

  /** Two runs over any two topological orders, of the same or of different role selections, agree
      on every task they share. */
  lemma OrderDoesNotMatter(g: Graph, existing: Option<State>, a: seq<Task>, b: seq<Task>, criteria: seq<string>,
                           files: map<string, string>, launch: Launch, id: Id)
    requires WellFormed(g) && DiskInv(g, existing) && id in Ids(a) && id in Ids(b)
    requires DrawnFrom(g, a) && DependenciesFirst(a) && DrawnFrom(g, b) && DependenciesFirst(b)
    ensures IsCompleted(Run(existing, a, criteria, files, launch).state, id) <==>
            IsCompleted(Run(existing, b, criteria, files, launch).state, id)
  {
    hide Run, Achievable, IsCompleted, DrawnFrom, DependenciesFirst, WellFormed, DiskInv;
    RunCompletesExactly(g, existing, a, criteria, files, launch, id);
    RunCompletesExactly(g, existing, b, criteria, files, launch, id);
  }

  /** Whatever failed before, one resume in which every outcome succeeds completes every selected
      task, provided no task they need waits for redecomposition. */
  lemma {:induction false} OneGoodResumeFinishes(g: Graph, existing: Option<State>, order: seq<Task>,
                                                 criteria: seq<string>, files: map<string, string>, launch: Launch,
                                                 id: Id)
    requires WellFormed(g) && DrawnFrom(g, order) && DependenciesFirst(order) && DiskInv(g, existing)
    requires id in Ids(order) && forall t | t in order :: Wins(t, launch)
    requires forall t | t in order :: RecordOf(Base(existing), t.id).status != RedecompositionRequired
    ensures IsCompleted(Run(existing, order, criteria, files, launch).state, id)
  {
    hide Run, Wins;
    RunCompletesExactly(g, existing, order, criteria, files, launch, id);
    OrderIsClosed(g, order);
    forall d | d in g && Needs(g, id, d) ensures OwnSuccess(Base(existing), g[d], launch) {
      ClosedContainsNeeds(g, Ids(order), id, d);
      var t :| t in order && t.id == d;
    }
  }

  // ---------------------------------------------------------------- recovery after any stop

  /** A record these outcomes could have produced. */
  ghost predicate Plausible(record: TaskRecord, task: Task, launch: Launch) {
    && (record.status == Completed ==> Wins(task, launch))
    && (record.status == RedecompositionRequired ==> !Wins(task, launch))
  }

  /** The saved state only records what these outcomes could have produced. */
  ghost predicate Consistent(g: Graph, s: State, launch: Launch) {
    forall id | id in g :: Plausible(RecordOf(s, id), g[id], launch)
  }

  ghost predicate LogConsistent(g: Graph, m: Machine, launch: Launch) {
    Consistent(g, m.state, launch) && forall s | s in m.log :: Consistent(g, s, launch)
  }

  lemma OneRecordChanged(g: Graph, s: State, r: State, task: Task, record: TaskRecord, launch: Launch)
    requires Consistent(g, s, launch) && task.id in g && g[task.id] == task
    requires r.tasks == s.tasks[task.id := record] && Plausible(record, task, launch)
    ensures Consistent(g, r, launch)
  {
  }

  lemma SameTasksStillConsistent(g: Graph, s: State, r: State, launch: Launch)
    requires Consistent(g, s, launch) && forall id :: RecordOf(r, id) == RecordOf(s, id)
    ensures Consistent(g, r, launch)
  {
  }

  lemma AttemptStaysConsistent(g: Graph, m: Machine, task: Task, launch: Launch)
    requires LogConsistent(g, m, launch) && task.id in g && g[task.id] == task
    ensures LogConsistent(g, Attempt(m, task, launch), launch)
  {
    AttemptIs(m, task, launch);
    AttemptOutcome(m.state, task, launch);
    AttemptedTasks(m.state, task, launch);
    hide Consistent, Attempt, AttemptedState, RunningState, Wins;
    var running, r := RunningState(m.state, task), AttemptedState(m.state, task, launch);
    OneRecordChanged(g, m.state, running, task, RecordOf(running, task.id), launch);
    OneRecordChanged(g, m.state, r, task, RecordOf(r, task.id), launch);
  }

  /** An attempt changes one entry of the task table. */
  lemma AttemptedTasks(s: State, task: Task, launch: Launch)
    ensures var running, r := RunningState(s, task), AttemptedState(s, task, launch);
            && running.tasks == s.tasks[task.id := RecordOf(running, task.id)] && RecordOf(running, task.id).status == Running
            && RecordOf(running, task.id).attempt == RecordOf(s, task.id).attempt + 1
            && r.tasks == s.tasks[task.id := RecordOf(r, task.id)]
            && running.completed == s.completed && s.completed <= r.completed
  {
    hide Judge, Succeeded, WithContext;
  }

  lemma VisitStaysConsistent(g: Graph, m: Machine, task: Task, launch: Launch)
    requires LogConsistent(g, m, launch) && task.id in g && g[task.id] == task
    ensures LogConsistent(g, Visit(m, task, launch), launch)
  {
    hide Consistent, Attempt, Wins;
    var known := m.(state := Ensure(m.state, task.id));
    SameTasksStillConsistent(g, m.state, known.state, launch);
    if !Skips(m.state, task.id, launch.resume) {
      if FirstBlocking(known.state, task.dependsOn).Some? {
        var s := BlockTask(known.state, task.id);
        OneRecordChanged(g, known.state, s, task, s.tasks[task.id], launch);
      } else {
        AttemptStaysConsistent(g, known, task, launch);
      }
    }
  }

  lemma {:induction false} RunTasksStayConsistent(g: Graph, m: Machine, order: seq<Task>, n: nat, launch: Launch)
    requires LogConsistent(g, m, launch) && DrawnFrom(g, order) && n <= |order|
    ensures LogConsistent(g, RunTasks(m, order, n, launch), launch)
  {
    hide Visit, LogConsistent;
    if n > 0 {
      RunTasksStayConsistent(g, m, order, n - 1, launch);
      VisitStaysConsistent(g, RunTasks(m, order, n - 1, launch), order[n - 1], launch);
    }
  }

  lemma RunStaysConsistent(g: Graph, existing: Option<State>, order: seq<Task>, criteria: seq<string>,
                           files: map<string, string>, launch: Launch)
    requires Consistent(g, Base(existing), launch) && DrawnFrom(g, order)
    ensures LogConsistent(g, Run(existing, order, criteria, files, launch), launch)
  {
    var start := StartMachine(existing, order, files);
    InitializeFrame(existing, order);
    RunEnds(existing, order, criteria, files, launch);
    hide Consistent, RunTasks, Initialize, Run;
    SameTasksStillConsistent(g, Base(existing), start.state, launch);
    RunTasksStayConsistent(g, start, order, |order|, launch);
    SameTasksStillConsistent(g, FullPass(existing, order, files, launch).state,
                             Run(existing, order, criteria, files, launch).state, launch);
  }

  /** Sessions whose outcomes are those of `launch`: fresh or resumed, any selection, any stop. */
  ghost predicate SameOutcomes(session: Session, launch: Launch) {
    session.supplied.None? && session.launch.trials == launch.trials && session.launch.matches == launch.matches
  }

  lemma SameOutcomesSameWins(a: Launch, b: Launch)
    requires a.trials == b.trials && a.matches == b.matches
    ensures forall t :: Wins(t, a) <==> Wins(t, b)
    ensures forall g, s :: Consistent(g, s, a) <==> Consistent(g, s, b)
  {
  }

  lemma FreshIsConsistent(g: Graph, launch: Launch)
    ensures Consistent(g, FRESH_STATE, launch)
  {
  }

  lemma SessionStaysConsistent(g: Graph, disk: Option<State>, s: Session, launch: Launch)
    requires LegalSession(g, s) && SameOutcomes(s, launch) && Consistent(g, Base(disk), launch)
    ensures Consistent(g, Base(DiskAfter(disk, s)), launch)
  {
    SameOutcomesSameWins(s.launch, launch);
    FreshIsConsistent(g, s.launch);
    hide Consistent, Run;
    RunStaysConsistent(g, Existing(s, disk), s.order, s.criteria, s.files, s.launch);
  }

  lemma {:induction false} HistoryStaysConsistent(g: Graph, sessions: seq<Session>, launch: Launch)
    requires forall k | 0 <= k < |sessions| :: LegalSession(g, sessions[k]) && SameOutcomes(sessions[k], launch)
    ensures Consistent(g, Base(DiskAfterAll(None, sessions)), launch)
  {
    if sessions != [] {
      var last := |sessions| - 1;
      HistoryStaysConsistent(g, sessions[..last], launch);
      hide Consistent, SameOutcomes, LegalSession, DiskAfter;
      SessionStaysConsistent(g, DiskAfterAll(None, sessions[..last]), sessions[last], launch);
    } else {
      FreshIsConsistent(g, launch);
    }
  }

  /** The task and everything it needs has a successful outcome. */
  ghost predicate AllWin(g: Graph, launch: Launch, id: Id) {
    forall d | d in g && Needs(g, id, d) :: Wins(g[d], launch)
  }

  lemma ConsistentMeansWins(g: Graph, s: State, launch: Launch, id: Id)
    requires Consistent(g, s, launch) && WellFormed(g)
    ensures Achievable(g, s, launch, id) <==> AllWin(g, launch, id)
  {
    hide Wins, Needs;
    forall d | d in g ensures OwnSuccess(s, g[d], launch) <==> Wins(g[d], launch) {
      assert g[d].id == d && Plausible(RecordOf(s, d), g[d], launch);
    }
  }

  /** After any history of fresh and resumed sessions with these outcomes, each stopped at any
      write, one more full resume completes exactly the selected tasks that a single uninterrupted
      fresh run completes. */
  lemma {:induction false} RecoveryReachesTheSameSet(g: Graph, sessions: seq<Session>, order: seq<Task>,
                                                     criteria: seq<string>, files: map<string, string>, launch: Launch,
                                                     id: Id)
    requires WellFormed(g) && DrawnFrom(g, order) && DependenciesFirst(order) && id in Ids(order)
    requires forall k | 0 <= k < |sessions| :: LegalSession(g, sessions[k]) && SameOutcomes(sessions[k], launch)
    ensures IsCompleted(Run(DiskAfterAll(None, sessions), order, criteria, files, launch).state, id) <==>
            IsCompleted(Run(None, order, criteria, files, launch).state, id)
  {
    hide AllWin, Run, DiskAfterAll, Achievable, Consistent, IsCompleted, LegalSession, SameOutcomes, DrawnFrom,
         DependenciesFirst, WellFormed, Needs, Wins, Inv, Ids;
    var disk := DiskAfterAll(None, sessions);
    HistoryKeepsInvariant(g, None, sessions);
    HistoryStaysConsistent(g, sessions, launch);
    FreshIsConsistent(g, launch);
    RunCompletesExactly(g, disk, order, criteria, files, launch, id);
    RunCompletesExactly(g, None, order, criteria, files, launch, id);
    ConsistentMeansWins(g, Base(disk), launch, id);
    ConsistentMeansWins(g, FRESH_STATE, launch, id);
  }
}
