/** The state a cloud resume hands to the runner
    (_build_resume_initial_state in src/agentic_dev/cloud_application/service.py,
    run_runtime_revision_execution in src/agentic_dev/cloud_application/resume.py). */
module SuppliedState {
  import opened Common
  import opened TaskGraph
  import opened Scheduler
  import opened SchedulerInvariant
  import opened SchedulerOutcome
  import SchedulerEnding

  /** A task of the active revision with its status there. */
  datatype Snapshot = Snapshot(task: Task, status: TaskStatus)

  const READY := Foreign("ready")

  ghost predicate UniqueSnapshots(revision: seq<Snapshot>) {
    forall i, j | 0 <= i < j < |revision| :: revision[i].task.id != revision[j].task.id
  }

  function IdsWith(revision: seq<Snapshot>, status: TaskStatus): (r: seq<Id>)
    ensures forall id :: id in r <==> exists k :: 0 <= k < |revision| && revision[k] == Snapshot(revision[k].task, status)
                                                  && revision[k].task.id == id
  {
    if revision == [] then []
    else
      var last := revision[|revision| - 1];
      var before := IdsWith(revision[..|revision| - 1], status);
      assert revision == revision[..|revision| - 1] + [last];
      if last.status == status then before + [last.task.id] else before
  }

  /** Nothing but the status is carried over: no attempt, output, handoff or validation result. */
  function BareRecords(revision: seq<Snapshot>): map<Id, TaskRecord> {
    if revision == [] then map[]
    else
      var last := revision[|revision| - 1];
      BareRecords(revision[..|revision| - 1])[last.task.id := INITIAL_RECORD.(status := last.status)]
  }

  function ResumeState(revision: seq<Snapshot>): State {
    State(StoryPending, None, IdsWith(revision, Completed), IdsWith(revision, Blocked), [], BareRecords(revision))
  }

  lemma {:induction false} BareRecordsAre(revision: seq<Snapshot>, k: nat)
    requires UniqueSnapshots(revision) && k < |revision|
    ensures var id := revision[k].task.id;
            id in BareRecords(revision) && BareRecords(revision)[id] == INITIAL_RECORD.(status := revision[k].status)
  {
    if k < |revision| - 1 { BareRecordsAre(revision[..|revision| - 1], k); }
  }

  lemma {:induction false} RecordsAreOfTheRevision(revision: seq<Snapshot>, id: Id)
    ensures id in BareRecords(revision) <==> exists k :: 0 <= k < |revision| && revision[k].task.id == id
  {
    if revision != [] {
      var n := |revision| - 1;
      RecordsAreOfTheRevision(revision[..n], id);
      assert forall k | 0 <= k < n :: revision[k] == revision[..n][k];
    }
  }

  /** The supplied state: pending, no current task, nothing to redecompose, and a blank record with its status
      for every task of the revision, once each. */
  lemma {:induction false} ResumeStateIs(revision: seq<Snapshot>)
    requires UniqueSnapshots(revision)
    ensures var s := ResumeState(revision);
            && s.status == StoryPending && s.current.None? && s.redecompose == []
            && (forall id :: id in s.tasks <==> exists k :: 0 <= k < |revision| && revision[k].task.id == id)
            && (forall k | 0 <= k < |revision| :: revision[k].task.id in s.tasks && s.tasks[revision[k].task.id] ==
                  TaskRecord(revision[k].status, 0, None, [], [], map[], NotValidated))
            && (forall id :: id in s.completed <==> id in s.tasks && s.tasks[id].status == Completed)
            && (forall id :: id in s.blocked <==> id in s.tasks && s.tasks[id].status == Blocked)
            && NoDuplicates(s.completed) && NoDuplicates(s.blocked)
  {
    hide IdsWith, BareRecords, UniqueSnapshots;
    forall id ensures id in BareRecords(revision) <==> exists k :: 0 <= k < |revision| && revision[k].task.id == id {
      RecordsAreOfTheRevision(revision, id);
    }
    forall k: nat | k < |revision|
      ensures revision[k].task.id in BareRecords(revision)
      ensures BareRecords(revision)[revision[k].task.id] == INITIAL_RECORD.(status := revision[k].status)
    {
      BareRecordsAre(revision, k);
    }
    forall id
      ensures id in IdsWith(revision, Completed) <==> id in BareRecords(revision) && BareRecords(revision)[id].status == Completed
      ensures id in IdsWith(revision, Blocked) <==> id in BareRecords(revision) && BareRecords(revision)[id].status == Blocked
    {
      ListedExactly(revision, Completed, id);
      ListedExactly(revision, Blocked, id);
    }
    IdsAreUnique(revision, Completed);
    IdsAreUnique(revision, Blocked);
  }

  lemma {:induction false} IdsAreUnique(revision: seq<Snapshot>, status: TaskStatus)
    requires UniqueSnapshots(revision)
    ensures NoDuplicates(IdsWith(revision, status))
  {
    if revision != [] {
      var n := |revision| - 1;
      IdsAreUnique(revision[..n], status);
      forall id | id in IdsWith(revision[..n], status) ensures id != revision[n].task.id {
        var k :| 0 <= k < n && revision[..n][k].task.id == id;
      }
      var before := IdsWith(revision[..n], status);
      assert revision[n].task.id !in before;
      assert revision[n].status == status ==> IdsWith(revision, status) == AppendOnce(before, revision[n].task.id);
    }
  }

  lemma ListedExactly(revision: seq<Snapshot>, status: TaskStatus, id: Id)
    requires UniqueSnapshots(revision)
    ensures id in IdsWith(revision, status) <==> id in BareRecords(revision) && BareRecords(revision)[id].status == status
  {
    RecordsAreOfTheRevision(revision, id);
    if id in BareRecords(revision) {
      var k :| 0 <= k < |revision| && revision[k].task.id == id;
      BareRecordsAre(revision, k);
      if revision[k].status == status { assert revision[k] == Snapshot(revision[k].task, status); }
    }
  }

  /** The tasks to resume are `ready` tasks of the revision. */
  ghost predicate ReadyTasks(g: Graph, revision: seq<Snapshot>) {
    forall k | 0 <= k < |revision| && revision[k].task.id in g :: revision[k].status == READY
  }

  lemma {:induction false} ReadyAreNeitherDoneNorParked(g: Graph, revision: seq<Snapshot>, id: Id)
    requires UniqueSnapshots(revision) && ReadyTasks(g, revision) && id in g
    ensures var record := RecordOf(ResumeState(revision), id);
            record.status != Completed && record.status != RedecompositionRequired
  {
    RecordsAreOfTheRevision(revision, id);
    if id in BareRecords(revision) {
      var k :| 0 <= k < |revision| && revision[k].task.id == id;
      BareRecordsAre(revision, k);
    }
  }

  /** The supplied state is a sound one to start from, although its completed tasks have neither outputs
      nor validation: so the results about runs and histories hold for resumes of a revision. */
  lemma {:induction false} ResumeStateIsSound(g: Graph, revision: seq<Snapshot>)
    requires UniqueSnapshots(revision) && ReadyTasks(g, revision)
    ensures Inv(g, ResumeState(revision))
  {
    hide IdsWith, BareRecords, ReadyTasks, UniqueSnapshots;
    var s := ResumeState(revision);
    IdsAreUnique(revision, Completed);
    IdsAreUnique(revision, Blocked);
    forall id ensures (id in s.completed <==> IsCompleted(s, id)) && (id in s.blocked ==> id !in s.completed) {
      ListedExactly(revision, Completed, id);
      ListedExactly(revision, Blocked, id);
    }
    forall id | id in g ensures id !in s.completed && ParkedIsListed(s, id) {
      ReadyAreNeitherDoneNorParked(g, revision, id);
      ListedExactly(revision, Completed, id);
    }
  }

  /** A resume of ready tasks completes exactly when they can all succeed, every criterion is covered by
      them, and no other task of the revision is blocked: one blocked task elsewhere makes the runner
      report the resume as blocked whatever its own tasks did. */
  lemma {:induction false} ResumeEnding(g: Graph, revision: seq<Snapshot>, order: seq<Task>, criteria: seq<string>,
                                        files: map<string, string>, launch: Launch)
    requires UniqueSnapshots(revision) && ReadyTasks(g, revision)
    requires WellFormed(g) && DrawnFrom(g, order) && DependenciesFirst(order)
    ensures Run(Some(ResumeState(revision)), order, criteria, files, launch).state.status == StoryCompleted <==>
            && (forall t | t in order :: Achievable(g, ResumeState(revision), launch, t.id))
            && SchedulerEnding.AllCovered(order, criteria)
            && forall k | 0 <= k < |revision| :: revision[k].status != Blocked
  {
    hide Run, Inv, Achievable, WellFormed, DrawnFrom, DependenciesFirst, SchedulerEnding.AllCovered, BareRecords;
    ResumeStateIsSound(g, revision);
    SchedulerEnding.EndingForetold(g, Some(ResumeState(revision)), order, criteria, files, launch);
    BlockedAreElsewhere(g, revision, order);
  }

  lemma BlockedAreElsewhere(g: Graph, revision: seq<Snapshot>, order: seq<Task>)
    requires ReadyTasks(g, revision) && DrawnFrom(g, order)
    ensures (forall id | id in ResumeState(revision).blocked :: id in Ids(order)) <==>
            forall k | 0 <= k < |revision| :: revision[k].status != Blocked
  {
    var blocked := ResumeState(revision).blocked;
    forall k | 0 <= k < |revision| && revision[k].status == Blocked
      ensures revision[k].task.id in blocked && revision[k].task.id !in Ids(order)
    {
      assert revision[k] == Snapshot(revision[k].task, Blocked);
    }
  }

  // ---------------------------------------------------------------- which resumes can be ordered

  function RevisionTasks(revision: seq<Snapshot>): (tasks: seq<Task>)
    ensures |tasks| == |revision| && forall k | 0 <= k < |revision| :: tasks[k] == revision[k].task
  {
    seq(|revision|, k requires 0 <= k < |revision| => revision[k].task)
  }

  /** The tasks a resume hands to the runner. */
  function ResumedTasks(revision: seq<Snapshot>): seq<Task> {
    Keep(RevisionTasks(revision), set id | id in IdsWith(revision, READY))
  }

  /** The ready tasks of an orderable revision can be ordered, and so run at all, exactly when everything
      they depend on is ready too: a dependency completed earlier is enough to refuse the resume. */
  lemma {:induction false} ResumeOrderableExactly(revision: seq<Snapshot>, order: seq<Task>)
    requires UniqueSnapshots(revision) && TopologicalOrder(RevisionTasks(revision), order)
    ensures Orderable(ResumedTasks(revision)) <==>
            forall k, d | 0 <= k < |revision| && revision[k].status == READY && d in revision[k].task.dependsOn ::
              d in IdsWith(revision, READY)
  {
    hide IdsWith, UniqueSnapshots, UniqueIds, TopologicalOrder, Orderable, HoldsDependencies;
    var tasks, ids := RevisionTasks(revision), set id | id in IdsWith(revision, READY);
    TasksAreUnique(revision);
    ReadyAreTasks(revision);
    SelectionOrderableExactly(tasks, ids, order);
    HeldExactly(revision, ids);
  }

  lemma ReadyAreTasks(revision: seq<Snapshot>)
    ensures (set id | id in IdsWith(revision, READY)) <= Ids(RevisionTasks(revision))
  {
    forall id | id in IdsWith(revision, READY) ensures id in Ids(RevisionTasks(revision)) {
      var k :| 0 <= k < |revision| && revision[k] == Snapshot(revision[k].task, READY) && revision[k].task.id == id;
      assert RevisionTasks(revision)[k] in RevisionTasks(revision);
    }
  }

  lemma HeldExactly(revision: seq<Snapshot>, ids: set<Id>)
    requires UniqueSnapshots(revision) && ids == set id | id in IdsWith(revision, READY)
    ensures HoldsDependencies(RevisionTasks(revision), ids) <==>
            forall k, d | 0 <= k < |revision| && revision[k].status == READY && d in revision[k].task.dependsOn ::
              d in IdsWith(revision, READY)
  {
    hide IdsWith, UniqueSnapshots;
    var tasks := RevisionTasks(revision);
    forall k | 0 <= k < |revision|
      ensures tasks[k] in tasks && (revision[k].task.id in ids <==> revision[k].status == READY)
    {
      ReadyIsListed(revision, k);
    }
  }

  lemma TasksAreUnique(revision: seq<Snapshot>)
    requires UniqueSnapshots(revision)
    ensures UniqueIds(RevisionTasks(revision))
  {
  }

  lemma ReadyIsListed(revision: seq<Snapshot>, k: nat)
    requires UniqueSnapshots(revision) && k < |revision|
    ensures revision[k].task.id in IdsWith(revision, READY) <==> revision[k].status == READY
  {
    BareRecordsAre(revision, k);
    ListedExactly(revision, READY, revision[k].task.id);
  }

  // ---------------------------------------------------------------- concrete revisions

  function PlainTask(id: Id, dependsOn: seq<Id>): Task {
    Task(id, "developer", dependsOn, [], ["src/*"], [], Budget(1, 0))
  }

  /** The concrete refusal: `first` is completed, `second` is ready and depends on it, and the resume of
      `second` cannot be ordered although the whole revision can. */
  lemma {:induction false} CompletedDependencyRefusesResume(first: Id, second: Id)
    requires first != second
    ensures var a, b := PlainTask(first, []), PlainTask(second, [first]);
            var revision := [Snapshot(a, Completed), Snapshot(b, READY)];
            && TopologicalOrder(RevisionTasks(revision), [a, b])
            && !Orderable(ResumedTasks(revision))
  {
    var a, b := PlainTask(first, []), PlainTask(second, [first]);
    var revision := [Snapshot(a, Completed), Snapshot(b, READY)];
    assert RevisionTasks(revision) == [a, b];
    TwoTasksInOrder(a, b);
    hide TopologicalOrder, Orderable;
    ResumeOrderableExactly(revision, [a, b]);
    ReadyIsListed(revision, 0);
    hide IdsWith;
    assert revision[1].status == READY && first in revision[1].task.dependsOn;
  }

  lemma TwoTasksInOrder(a: Task, b: Task)
    requires a.id != b.id && a.dependsOn == [] && b.dependsOn == [a.id]
    ensures TopologicalOrder([a, b], [a, b])
  {
    assert [a, b][..1] == [a];
    assert a in [a];
  }

  /** Every model call answers without changing a file. */
  function EmptyAnswers(): Launch {
    Launch(_ => Trial(Some("model"), Assembled(0), Answer([], map[])), (path, pattern) => false, true)
  }

  lemma EmptyAnswersWin(t: Task)
    requires t.budget.Usable() >= 0
    ensures Wins(t, EmptyAnswers())
  {
  }

  /** The concrete failure: the resume of `first` succeeds, `second`, which waits for it, is listed as
      blocked in the revision, and the run reports the story as blocked. */
  lemma {:induction false} WaitingTaskFailsResume(first: Id, second: Id, files: map<string, string>)
    requires first != second
    ensures var a, b := PlainTask(first, []), PlainTask(second, [first]);
            var s := Run(Some(ResumeState([Snapshot(a, READY), Snapshot(b, Blocked)])), [a], [], files, EmptyAnswers()).state;
            IsCompleted(s, first) && s.status == StoryBlocked
  {
    var a, b := PlainTask(first, []), PlainTask(second, [first]);
    var revision, g := [Snapshot(a, READY), Snapshot(b, Blocked)], map[first := a];
    EmptyAnswersWin(a);
    hide Run, Wins, EmptyAnswers, IdsWith, BareRecords, RequirementIds, Inv;
    assert DrawnFrom(g, [a]) && DependenciesFirst([a]) && WellFormed(g) && ReadyTasks(g, revision);
    assert revision[1].status == Blocked;
    ResumeStateIsSound(g, revision);
    ResumeEnding(g, revision, [a], [], files, EmptyAnswers());
    SchedulerEnding.RunEnding(g, Some(ResumeState(revision)), [a], [], files, EmptyAnswers());
    ReadyAreNeitherDoneNorParked(g, revision, first);
    assert Achievable(g, ResumeState(revision), EmptyAnswers(), first);
    RunCompletesExactly(g, Some(ResumeState(revision)), [a], [], files, EmptyAnswers(), first);
    assert a in [a];
  }
}
