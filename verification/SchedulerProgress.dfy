/** What runs never lose and how often they start a task. */
module SchedulerProgress {
  import opened Common
  import opened TaskGraph
  import opened Scheduler
  import opened SchedulerInvariant
  import opened SchedulerOutcome

  // ---------------------------------------------------------------- nothing completed is lost

  /** The completed list only grows at its end, attempts never fall, and the record of a completed
      task is never rewritten. */
  ghost predicate Advances(s: State, r: State) {
    && s.completed <= r.completed
    && forall id :: && RecordOf(s, id).attempt <= RecordOf(r, id).attempt
                    && (IsCompleted(s, id) ==> IsCompleted(r, id) && RecordOf(r, id) == RecordOf(s, id))
  }

  lemma AdvancesTransitive(a: State, b: State, c: State)
    requires Advances(a, b) && Advances(b, c)
    ensures Advances(a, c)
  {
  }

  lemma OneRecordAdvances(s: State, r: State, id: Id, record: TaskRecord)
    requires !IsCompleted(s, id) && r.tasks == s.tasks[id := record]
    requires record.attempt >= RecordOf(s, id).attempt && s.completed <= r.completed
    ensures Advances(s, r)
  {
  }

  ghost predicate LogAdvances(s: State, m: Machine) {
    Advances(s, m.state) && forall r | r in m.log :: Advances(s, r)
  }

  lemma AttemptAdvances(s: State, m: Machine, task: Task, launch: Launch)
    requires LogAdvances(s, m) && !IsCompleted(m.state, task.id)
    ensures LogAdvances(s, Attempt(m, task, launch))
  {
    AttemptIs(m, task, launch);
    AttemptOutcome(m.state, task, launch);
    AttemptedTasks(m.state, task, launch);
    hide Advances, Attempt, AttemptedState, RunningState, Wins;
    var running, r := RunningState(m.state, task), AttemptedState(m.state, task, launch);
    OneRecordAdvances(m.state, running, task.id, RecordOf(running, task.id));
    AdvancesTransitive(s, m.state, running);
    OneRecordAdvances(m.state, r, task.id, RecordOf(r, task.id));
    AdvancesTransitive(s, m.state, r);
  }

  lemma SameTasksAdvance(s: State, r: State)
    requires s.completed == r.completed && forall id :: RecordOf(r, id) == RecordOf(s, id)
    requires forall id :: IsCompleted(s, id) <==> IsCompleted(r, id)
    ensures Advances(s, r)
  {
  }

  lemma VisitAdvances(s: State, m: Machine, task: Task, launch: Launch)
    requires LogAdvances(s, m)
    ensures LogAdvances(s, Visit(m, task, launch))
  {
    hide Advances, Attempt;
    var known := m.(state := Ensure(m.state, task.id));
    SameTasksAdvance(m.state, known.state);
    AdvancesTransitive(s, m.state, known.state);
    if !Skips(m.state, task.id, launch.resume) {
      if FirstBlocking(known.state, task.dependsOn).Some? {
        var r := BlockTask(known.state, task.id);
        OneRecordAdvances(known.state, r, task.id, r.tasks[task.id]);
        AdvancesTransitive(s, known.state, r);
      } else {
        AttemptAdvances(s, known, task, launch);
      }
    }
  }

  lemma {:induction false} RunTasksAdvance(s: State, m: Machine, order: seq<Task>, n: nat, launch: Launch)
    requires LogAdvances(s, m) && n <= |order|
    ensures LogAdvances(s, RunTasks(m, order, n, launch))
  {
    hide Visit, LogAdvances;
    if n > 0 {
      RunTasksAdvance(s, m, order, n - 1, launch);
      VisitAdvances(s, RunTasks(m, order, n - 1, launch), order[n - 1], launch);
    }
  }

  /** Every state file a resumed run writes is an advance on the one it resumed from. */
  lemma {:induction false} RunAdvances(existing: Option<State>, order: seq<Task>, criteria: seq<string>,
                                       files: map<string, string>, launch: Launch)
    ensures LogAdvances(Base(existing), Run(existing, order, criteria, files, launch))
  {
    var start := StartMachine(existing, order, files);
    InitializeFrame(existing, order);
    SameTasksAdvance(Base(existing), start.state);
    RunEnds(existing, order, criteria, files, launch);
    hide Advances, RunTasks, Initialize, Run, RecordOf;
    RunTasksAdvance(Base(existing), start, order, |order|, launch);
    var m, r := FullPass(existing, order, files, launch), Run(existing, order, criteria, files, launch);
    SameRecords(m.state, r.state);
    SameTasksAdvance(m.state, r.state);
    AdvancesTransitive(Base(existing), m.state, r.state);
  }

  lemma SameRecords(s: State, r: State)
    requires s.tasks == r.tasks
    ensures forall id :: RecordOf(r, id) == RecordOf(s, id)
    ensures forall id :: IsCompleted(s, id) <==> IsCompleted(r, id)
  {
  }

  /** Over any history of resumed and interrupted sessions the saved state only advances. */
  lemma {:induction false} ResumesOnlyAdvance(disk: Option<State>, sessions: seq<Session>)
    requires forall k | 0 <= k < |sessions| :: sessions[k].launch.resume && sessions[k].supplied.None?
    ensures Advances(Base(disk), Base(DiskAfterAll(disk, sessions)))
  {
    hide Advances, Run;
    if sessions == [] {
      SameTasksAdvance(Base(disk), Base(disk));
    } else {
      var last := |sessions| - 1;
      var s, before := sessions[last], DiskAfterAll(disk, sessions[..last]);
      ResumesOnlyAdvance(disk, sessions[..last]);
      RunAdvances(before, s.order, s.criteria, s.files, s.launch);
      SameTasksAdvance(Base(before), Base(before));
      AdvancesTransitive(Base(disk), Base(before), Base(DiskAfter(before, s)));
    }
  }

  // ---------------------------------------------------------------- attempts

  /** Exactly when a visit starts the task, and that this costs exactly one attempt. */
  lemma {:induction false} VisitStarts(m: Machine, task: Task, launch: Launch)
    ensures var r := Visit(m, task, launch);
            var starts := && !IsCompleted(m.state, task.id)
                          && !(launch.resume && RecordOf(m.state, task.id).status == RedecompositionRequired)
                          && forall d | d in task.dependsOn :: IsCompleted(m.state, d);
            && r.started == (if starts then m.started + [task.id] else m.started)
            && RecordOf(r.state, task.id).attempt == RecordOf(m.state, task.id).attempt + (if starts then 1 else 0)
  {
    var known := m.(state := Ensure(m.state, task.id));
    AttemptIs(known, task, launch);
    AttemptOutcome(known.state, task, launch);
    assert forall d :: IsCompleted(known.state, d) <==> IsCompleted(m.state, d);
    hide Attempt, AttemptedState, Wins, IsCompleted;
  }

  /** `r` is reached from `s` by starting the tasks `started`, each once and all among `ids`: none was
      completed, nor on resume parked for redecomposition, and attempts grew by exactly one for each. */
  ghost predicate Tally(s: State, r: State, started: seq<Id>, ids: set<Id>, resume: bool) {
    && NoDuplicates(started)
    && (forall id | id in started :: id in ids && !Skips(s, id, resume))
    && (forall id :: RecordOf(r, id).attempt == RecordOf(s, id).attempt + (if id in started then 1 else 0))
  }

  /** The tally holds now and of every state-file write, for the tasks started by then. */
  ghost predicate LogTally(s: State, m: Machine, ids: set<Id>, resume: bool) {
    && Tally(s, m.state, m.started, ids, resume) && |m.startedAt| == |m.log|
    && forall i | 0 <= i < |m.log| :: Tally(s, m.log[i], m.startedAt[i], ids, resume)
  }

  lemma TallyGrows(s: State, r: State, started: seq<Id>, ids: set<Id>, more: set<Id>, resume: bool)
    requires Tally(s, r, started, ids, resume) && ids <= more
    ensures Tally(s, r, started, more, resume)
  {
  }

  /** A step that changes no attempt count keeps the tally. */
  lemma SameAttemptsTally(s: State, r: State, t: State, started: seq<Id>, ids: set<Id>, resume: bool)
    requires Tally(s, r, started, ids, resume) && forall id :: RecordOf(t, id).attempt == RecordOf(r, id).attempt
    ensures Tally(s, t, started, ids, resume)
  {
  }

  /** Starting one more task extends the tally. */
  lemma OneMoreTally(s: State, r: State, t: State, started: seq<Id>, ids: set<Id>, id: Id, resume: bool)
    requires Tally(s, r, started, ids, resume) && id !in ids && !Skips(s, id, resume)
    requires RecordOf(t, id).attempt == RecordOf(r, id).attempt + 1
    requires forall e | e != id :: RecordOf(t, e).attempt == RecordOf(r, e).attempt
    ensures Tally(s, t, started + [id], ids + {id}, resume)
  {
    assert forall e | e in started + [id] :: e in ids + {id} && !Skips(s, e, resume);
  }

  lemma AttemptTallied(s: State, m: Machine, task: Task, ids: set<Id>, launch: Launch)
    requires LogTally(s, m, ids, launch.resume) && task.id !in ids && !Skips(s, task.id, launch.resume)
    ensures LogTally(s, Attempt(m, task, launch), ids + {task.id}, launch.resume)
  {
    AttemptIs(m, task, launch);
    AttemptedTasks(m.state, task, launch);
    AttemptOutcome(m.state, task, launch);
    var running, r := RunningState(m.state, task), Attempt(m, task, launch);
    hide Attempt, AttemptedState, RunningState, Wins, Skips;
    OneMoreTally(s, m.state, running, m.started, ids, task.id, launch.resume);
    OneMoreTally(s, m.state, r.state, m.started, ids, task.id, launch.resume);
    OldEntriesTallied(s, m, ids, ids + {task.id}, launch.resume);
    hide Tally;
  }

  lemma OldEntriesTallied(s: State, m: Machine, ids: set<Id>, more: set<Id>, resume: bool)
    requires LogTally(s, m, ids, resume) && ids <= more
    ensures LogTally(s, m, more, resume)
  {
    hide Tally;
    TallyGrows(s, m.state, m.started, ids, more, resume);
    forall i | 0 <= i < |m.log| ensures Tally(s, m.log[i], m.startedAt[i], more, resume) {
      TallyGrows(s, m.log[i], m.startedAt[i], ids, more, resume);
    }
  }

  /** One more visit extends the tally. */
  lemma VisitTallied(s: State, before: Machine, task: Task, ids: set<Id>, launch: Launch)
    requires LogTally(s, before, ids, launch.resume) && task.id !in ids
    requires Skips(s, task.id, launch.resume) == Skips(before.state, task.id, launch.resume)
    ensures LogTally(s, Visit(before, task, launch), ids + {task.id}, launch.resume)
  {
    hide Attempt, Tally;
    var known := before.(state := Ensure(before.state, task.id));
    SameAttemptsTally(s, before.state, known.state, before.started, ids, launch.resume);
    assert LogTally(s, known, ids, launch.resume);
    OldEntriesTallied(s, known, ids, ids + {task.id}, launch.resume);
    if !Skips(before.state, task.id, launch.resume) {
      if FirstBlocking(known.state, task.dependsOn).Some? {
        var blocked := BlockTask(known.state, task.id);
        SameAttemptsTally(s, known.state, blocked, before.started, ids + {task.id}, launch.resume);
      } else {
        AttemptTallied(s, known, task, ids, launch);
      }
    }
  }

  lemma {:induction false} RunTasksTally(m: Machine, order: seq<Task>, n: nat, launch: Launch)
    requires m.started == [] && m.startedAt == [[]] && m.log == [m.state] && UniqueIds(order) && n <= |order|
    ensures LogTally(m.state, RunTasks(m, order, n, launch), Ids(order[..n]), launch.resume)
  {
    hide Visit;
    if n > 0 {
      hide LogTally;
      var before, task := RunTasks(m, order, n - 1, launch), order[n - 1];
      RunTasksTally(m, order, n - 1, launch);
      assert order[..n] == order[..n - 1] + [task];
      assert task.id !in Ids(order[..n - 1]);
      assert Ids(order[..n]) == Ids(order[..n - 1]) + {task.id};
      UntouchedRecords(m, order, n - 1, launch, task.id);
      VisitTallied(m.state, before, task, Ids(order[..n - 1]), launch);
    }
  }

  /** A run starts a task at most once, never one already completed (nor, on resume, one waiting for
      redecomposition), and in every state file it writes each task's attempt count has grown by one
      exactly if the task was started by then. */
  lemma {:induction false} RunStartsEachOnce(existing: Option<State>, order: seq<Task>, criteria: seq<string>,
                                             files: map<string, string>, launch: Launch)
    requires UniqueIds(order)
    ensures LogTally(Base(existing), Run(existing, order, criteria, files, launch), Ids(order), launch.resume)
  {
    hide RunTasks, Initialize, Run, Tally, Skips;
    var start, r := StartMachine(existing, order, files), Run(existing, order, criteria, files, launch);
    var m := FullPass(existing, order, files, launch);
    InitializeFrame(existing, order);
    RunEnds(existing, order, criteria, files, launch);
    assert order[..|order|] == order;
    RunTasksTally(start, order, |order|, launch);
    SameRecords(m.state, r.state);
    hide FullPass, RecordOf, IsCompleted;
    FromSameRecords(start.state, Base(existing), m, Ids(order), launch.resume);
    SameAttemptsTally(Base(existing), m.state, r.state, m.started, Ids(order), launch.resume);
  }

  lemma FromSameRecords(s: State, t: State, m: Machine, ids: set<Id>, resume: bool)
    requires LogTally(s, m, ids, resume)
    requires forall id :: RecordOf(s, id) == RecordOf(t, id) && (IsCompleted(s, id) <==> IsCompleted(t, id))
    ensures LogTally(t, m, ids, resume)
  {
    assert forall id :: Skips(s, id, resume) == Skips(t, id, resume);
  }

  // ---------------------------------------------------------------- attempts over histories

  /** The tasks a session starts before it is stopped. */
  function StartsIn(session: Session, disk: Option<State>): seq<Id> {
    var m := SessionRun(session, disk);
    var k := Min(session.writes, |m.log|);
    if 0 < k <= |m.startedAt| then m.startedAt[k - 1] else []
  }

  /** In how many of the sessions the task is started. */
  function Starts(disk: Option<State>, sessions: seq<Session>, id: Id): nat {
    if sessions == [] then 0
    else
      var last := |sessions| - 1;
      Starts(disk, sessions[..last], id)
      + (if id in StartsIn(sessions[last], DiskAfterAll(disk, sessions[..last])) then 1 else 0)
  }

  ghost predicate Resumes(session: Session) {
    session.launch.resume && session.supplied.None? && UniqueIds(session.order)
  }

  /** Whatever write a resumed session is stopped at, the state file tallies with what it started. */
  lemma SessionTally(disk: Option<State>, s: Session)
    requires Resumes(s)
    ensures Tally(Base(disk), Base(DiskAfter(disk, s)), StartsIn(s, disk), Ids(s.order), true)
  {
    hide Run;
    RunStartsEachOnce(disk, s.order, s.criteria, s.files, s.launch);
  }

  /** Over any sequence of resumed sessions, each stopped at any write, a task's attempt count rises by
      exactly the number of sessions that started it. */
  lemma {:induction false} AttemptsCountStarts(disk: Option<State>, sessions: seq<Session>, id: Id)
    requires forall k | 0 <= k < |sessions| :: Resumes(sessions[k])
    ensures RecordOf(Base(DiskAfterAll(disk, sessions)), id).attempt ==
            RecordOf(Base(disk), id).attempt + Starts(disk, sessions, id)
  {
    hide Resumes, DiskAfter, StartsIn, RecordOf;
    if sessions != [] {
      var last := |sessions| - 1;
      AttemptsCountStarts(disk, sessions[..last], id);
      SessionTally(DiskAfterAll(disk, sessions[..last]), sessions[last]);
    }
  }

  /** Once the state file says that a task is completed, no later resumed session starts it again. */
  lemma {:induction false} CompletedNeverStartAgain(disk: Option<State>, sessions: seq<Session>, j: nat, k: nat, id: Id)
    requires j <= k < |sessions| && forall i | 0 <= i < |sessions| :: Resumes(sessions[i])
    requires IsCompleted(Base(DiskAfterAll(disk, sessions[..j])), id)
    ensures id !in StartsIn(sessions[k], DiskAfterAll(disk, sessions[..k]))
  {
    hide DiskAfterAll, DiskAfter, StartsIn;
    var earlier := DiskAfterAll(disk, sessions[..j]);
    HistorySplits(disk, sessions[..k], j);
    assert sessions[..k][..j] == sessions[..j];
    ResumesOnlyAdvance(earlier, sessions[..k][j..]);
    SessionTally(DiskAfterAll(disk, sessions[..k]), sessions[k]);
  }

  lemma {:induction false} HistorySplits(disk: Option<State>, sessions: seq<Session>, j: nat)
    requires j <= |sessions|
    ensures DiskAfterAll(disk, sessions) == DiskAfterAll(DiskAfterAll(disk, sessions[..j]), sessions[j..])
  {
    hide DiskAfter;
    if j == |sessions| {
      assert sessions[..j] == sessions;
    } else {
      var last := |sessions| - 1;
      HistorySplits(disk, sessions[..last], j);
      assert sessions[..last][..j] == sessions[..j];
      assert sessions[j..][..last - j] == sessions[..last][j..];
    }
  }
}
