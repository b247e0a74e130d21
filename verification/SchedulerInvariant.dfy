/** What every persisted state keeps, over every sequence of fresh, resumed, role-filtered and
    interrupted runs. */
module SchedulerInvariant {
  import opened Common
  import opened TaskGraph
  import opened Scheduler
  import Paths

  ghost predicate ListsAgree(s: State) {
    && NoDuplicates(s.completed) && NoDuplicates(s.blocked) && NoDuplicates(s.redecompose)
    && (forall id :: id in s.completed <==> IsCompleted(s, id))
    && (forall id | id in s.redecompose :: id in s.blocked)
    && (forall id | id in s.blocked :: id !in s.completed)
  }

  ghost predicate ParkedIsListed(s: State, id: Id) {
    RecordOf(s, id).status == RedecompositionRequired ==> id in s.redecompose
  }

  /** Completed tasks of the graph have completed dependencies and a record that passes its own checks. */
  ghost predicate CompletedAreSound(g: Graph, s: State) {
    forall id | id in s.completed && id in g ::
      RecordComplete(RecordOf(s, id)) && forall d | d in g[id].dependsOn :: d in s.completed
  }

  /** The lists fit together and, for the tasks of the graph, fit the records. A state may also know
      tasks outside the graph, in any condition. */
  ghost predicate Inv(g: Graph, s: State) {
    ListsAgree(s) && CompletedAreSound(g, s) && forall id | id in g :: ParkedIsListed(s, id)
  }

  ghost predicate LogInv(g: Graph, m: Machine) {
    Inv(g, m.state) && forall s | s in m.log :: Inv(g, s)
  }

  lemma EnsureKeeps(g: Graph, s: State, id: Id)
    requires Inv(g, s)
    ensures Inv(g, Ensure(s, id))
  {
  }

  lemma BlockKeeps(g: Graph, s: State, id: Id)
    requires Inv(g, s) && !IsCompleted(s, id)
    ensures Inv(g, BlockTask(s, id))
  {
  }

  lemma StartKeeps(g: Graph, s: State, id: Id, attempt: nat)
    requires Inv(g, s) && !IsCompleted(s, id)
    ensures Inv(g, StartTask(s, id, Audit(attempt)))
  {
  }

  lemma FailKeeps(g: Graph, s: State, id: Id, audit: TaskRecord, failure: FailureType)
    requires Inv(g, s) && !IsCompleted(s, id)
    ensures Inv(g, FailTask(s, id, audit, failure))
  {
  }

  lemma RedecompositionKeeps(g: Graph, s: State, id: Id, audit: TaskRecord)
    requires Inv(g, s) && !IsCompleted(s, id)
    ensures Inv(g, RequireRedecomposition(s, id, audit))
  {
  }

  lemma CompleteKeeps(g: Graph, s: State, id: Id, audit: TaskRecord)
    requires Inv(g, s) && id in g && audit.status == Completed && RecordComplete(audit)
    requires forall d | d in g[id].dependsOn :: IsCompleted(s, d)
    ensures Inv(g, CompleteTask(s, id, audit))
  {
  }

  /** A completed task always passes its own validation, output and handoff checks. */
  lemma {:induction false} SuccessIsComplete(task: Task, trial: Trial, attempt: nat, writes: seq<FileWrite>,
                                             handoff: Handoff)
    requires trial.model.Some? && trial.context.Assembled?
    ensures RecordComplete(Succeeded(WithContext(Audit(attempt), trial), task.id, writes, handoff))
    ensures Succeeded(WithContext(Audit(attempt), trial), task.id, writes, handoff).status == Completed
  {
  }

  lemma {:induction false} ApplyWritesFrame(m: Machine, id: Id, writes: seq<FileWrite>)
    ensures var r := ApplyWrites(m, id, writes);
            && r.state == m.state && r.log == m.log && r.startedAt == m.startedAt && r.started == m.started
            && m.edits <= r.edits
  {
    if writes != [] {
      ApplyWritesFrame(m, id, writes[..|writes| - 1]);
    }
  }

  /** The state an attempt first writes, with the task marked running. */
  function RunningState(s: State, task: Task): State {
    StartTask(s, task.id, Audit(RecordOf(s, task.id).attempt + 1))
  }

  /** The state an attempt leaves. */
  function AttemptedState(s: State, task: Task, launch: Launch): State {
    var running, trial := RunningState(s, task), launch.trials(task.id);
    var known := WithContext(Audit(RecordOf(s, task.id).attempt + 1), trial);
    match Judge(task, trial, launch.matches)
    case Oversized => RequireRedecomposition(running, task.id, known)
    case Refused(failure) => FailTask(running, task.id, known, failure)
    case Accepted(writes, handoff) => CompleteTask(running, task.id, Succeeded(known, task.id, writes, handoff))
  }

  /** An attempt writes the running state, then (once or twice) the state it leaves. */
  lemma AttemptIs(m: Machine, task: Task, launch: Launch)
    ensures var r := Attempt(m, task, launch);
            && r.state == AttemptedState(m.state, task, launch) && r.started == m.started + [task.id]
            && (forall s | s in r.log :: s in m.log || s == RunningState(m.state, task) || s == r.state)
            && var running, starts := RunningState(m.state, task), r.started;
            || (r.log == m.log + [running, r.state] && r.startedAt == m.startedAt + [starts, starts])
            || (r.log == m.log + [running, r.state, r.state] && r.startedAt == m.startedAt + [starts, starts, starts])
  {
    hide Judge, Succeeded, WithContext, StartTask, FailTask, RequireRedecomposition, CompleteTask, ApplyWrites;
    var trial := launch.trials(task.id);
    var running := Persist(m.(started := m.started + [task.id]), RunningState(m.state, task));
    if Judge(task, trial, launch.matches).Accepted? {
      ApplyWritesFrame(running, task.id, Judge(task, trial, launch.matches).writes);
    }
  }

  lemma AttemptKeeps(g: Graph, m: Machine, task: Task, launch: Launch)
    requires LogInv(g, m) && !IsCompleted(m.state, task.id) && task.id in g && g[task.id] == task
    requires forall d | d in task.dependsOn :: IsCompleted(m.state, d)
    ensures LogInv(g, Attempt(m, task, launch))
  {
    AttemptIs(m, task, launch);
    AttemptedStateKeeps(g, m.state, task, launch);
    hide Inv, Attempt, AttemptedState, RunningState;
  }

  lemma AttemptedStateKeeps(g: Graph, s: State, task: Task, launch: Launch)
    requires Inv(g, s) && !IsCompleted(s, task.id) && task.id in g && g[task.id] == task
    requires forall d | d in task.dependsOn :: IsCompleted(s, d)
    ensures Inv(g, RunningState(s, task)) && Inv(g, AttemptedState(s, task, launch))
  {
    hide Inv, Judge, Succeeded, WithContext;
    var id, trial, attempt := task.id, launch.trials(task.id), RecordOf(s, task.id).attempt + 1;
    var running, known := RunningState(s, task), WithContext(Audit(attempt), trial);
    StartKeeps(g, s, id, attempt);
    match Judge(task, trial, launch.matches)
    case Oversized => RedecompositionKeeps(g, running, id, known);
    case Refused(failure) => FailKeeps(g, running, id, known, failure);
    case Accepted(writes, handoff) =>
      AcceptedNeedsContext(task, trial, launch.matches);
      SuccessIsComplete(task, trial, attempt, writes, handoff);
      CompleteKeeps(g, running, id, Succeeded(known, id, writes, handoff));
  }

  lemma AcceptedNeedsContext(task: Task, trial: Trial, matches: Paths.Matcher)
    requires Judge(task, trial, matches).Accepted?
    ensures trial.model.Some? && trial.context.Assembled?
  {
  }

  lemma {:induction false} VisitKeeps(g: Graph, m: Machine, task: Task, launch: Launch)
    requires LogInv(g, m) && task.id in g && g[task.id] == task
    ensures LogInv(g, Visit(m, task, launch))
  {
    hide Inv, Attempt;
    var known := m.(state := Ensure(m.state, task.id));
    EnsureKeeps(g, m.state, task.id);
    if !Skips(m.state, task.id, launch.resume) {
      if FirstBlocking(known.state, task.dependsOn).Some? {
        BlockKeeps(g, known.state, task.id);
      } else {
        AttemptKeeps(g, known, task, launch);
      }
    }
  }

  lemma {:induction false} RunTasksKeeps(g: Graph, m: Machine, order: seq<Task>, n: nat, launch: Launch)
    requires LogInv(g, m) && DrawnFrom(g, order) && n <= |order|
    ensures LogInv(g, RunTasks(m, order, n, launch))
  {
    hide Inv, Visit;
    if n > 0 {
      RunTasksKeeps(g, m, order, n - 1, launch);
      VisitKeeps(g, RunTasks(m, order, n - 1, launch), order[n - 1], launch);
    }
  }

  /** What is on disk is absent or satisfies the invariant. */
  ghost predicate DiskInv(g: Graph, disk: Option<State>) {
    disk.Some? ==> Inv(g, disk.value)
  }

  lemma InitializeKeeps(g: Graph, existing: Option<State>, order: seq<Task>)
    requires DiskInv(g, existing)
    ensures Inv(g, Initialize(existing, order))
  {
  }

  lemma FinalizeKeeps(g: Graph, s: State, order: seq<Task>, criteria: seq<string>)
    requires Inv(g, s)
    ensures Inv(g, Finalize(s, order, criteria))
  {
    hide StoryValidated, RecordComplete;
    var r := Finalize(s, order, criteria);
    assert r == s.(status := r.status, current := r.current);
  }

  /** Every state file a run writes, from the first to the final one, satisfies the invariant. */
  lemma {:induction false} RunKeepsInvariant(g: Graph, existing: Option<State>, order: seq<Task>, criteria: seq<string>,
                                             files: map<string, string>, launch: Launch)
    requires DiskInv(g, existing) && DrawnFrom(g, order)
    ensures LogInv(g, Run(existing, order, criteria, files, launch))
  {
    hide Inv, Initialize, RunTasks, Finalize;
    InitializeKeeps(g, existing, order);
    RunTasksKeeps(g, StartMachine(existing, order, files), order, |order|, launch);
    FinalizeKeeps(g, FullPass(existing, order, files, launch).state, order, criteria);
  }

  // ---------------------------------------------------------------- histories of runs

  /** One launch of the runner: any dependency-closed selection in a topological order, fresh or
      resumed, possibly from a supplied state, and stopped after `writes` state-file writes. */
  datatype Session = Session(order: seq<Task>, criteria: seq<string>, files: map<string, string>, launch: Launch,
                             supplied: Option<State>, writes: nat)

  function Existing(session: Session, disk: Option<State>): Option<State> {
    if session.supplied.Some? then session.supplied
    else if session.launch.resume then disk
    else None
  }

  function SessionRun(session: Session, disk: Option<State>): Machine {
    Run(Existing(session, disk), session.order, session.criteria, session.files, session.launch)
  }

  /** The state file after the session; a session stopped before its first write leaves it alone. */
  function DiskAfter(disk: Option<State>, session: Session): Option<State> {
    var log := SessionRun(session, disk).log;
    var k := Min(session.writes, |log|);
    if k == 0 then disk else Some(log[k - 1])
  }

  function DiskAfterAll(disk: Option<State>, sessions: seq<Session>): Option<State> {
    if sessions == [] then disk
    else DiskAfter(DiskAfterAll(disk, sessions[..|sessions| - 1]), sessions[|sessions| - 1])
  }

  ghost predicate LegalSession(g: Graph, session: Session) {
    DrawnFrom(g, session.order) && DependenciesFirst(session.order) && DiskInv(g, session.supplied)
  }

  /** The invariant holds of the state file after every history of sessions. */
  lemma {:induction false} HistoryKeepsInvariant(g: Graph, disk: Option<State>, sessions: seq<Session>)
    requires DiskInv(g, disk) && forall k | 0 <= k < |sessions| :: LegalSession(g, sessions[k])
    ensures DiskInv(g, DiskAfterAll(disk, sessions))
  {
    hide Inv, Run, DrawnFrom, DependenciesFirst;
    if sessions != [] {
      var last := |sessions| - 1;
      HistoryKeepsInvariant(g, disk, sessions[..last]);
      var s := sessions[last];
      RunKeepsInvariant(g, Existing(s, DiskAfterAll(disk, sessions[..last])), s.order, s.criteria, s.files, s.launch);
    }
  }
}
