/** The sub-task runner as a function on values: what one visit of a task and one whole run do to
    the persisted state, the project files and the sequence of state-file writes
    (run_subtask_local_execution and its helpers in src/agentic_dev/local_execution.py). */
module Scheduler {
  import opened Common
  import opened TaskGraph
  import Strings
  import Paths

  // ---------------------------------------------------------------- persisted state

  /** `Foreign` is any status the runner itself never writes. */
  datatype TaskStatus = Pending | Running | Completed | Failed | Blocked | RedecompositionRequired | Foreign(text: string)

  datatype ReplyError = EmptyResponse | RuntimeDisabled | ConfigurationError | MalformedResponse

  datatype FailureType =
    | BlockedByDependency
    | ContextOverBudget
    | UnresolvedModel
    | ContextPreparationError
    | RuntimeUnavailable
    | BadReply(error: ReplyError)
    | FileBoundaryViolation

  datatype Value = Items(items: seq<string>) | Flag(flag: bool)

  type Handoff = map<string, Value>

  datatype Validation = NotValidated | Passed | Rejected

  datatype TaskRecord = TaskRecord(status: TaskStatus, attempt: nat, failure: Option<FailureType>,
                                   contextSections: seq<string>, outputs: seq<string>,
                                   handoff: Handoff, validation: Validation)

  datatype StoryStatus = StoryPending | StoryRunning | StoryBlocked | StoryReady | StoryCompleted

  datatype State = State(status: StoryStatus, current: Option<Id>, completed: seq<Id>, blocked: seq<Id>,
                         redecompose: seq<Id>, tasks: map<Id, TaskRecord>)

  // ---------------------------------------------------------------- the outside world, per task

  datatype RawFile = RawFile(path: string, content: string)

  datatype FileWrite = FileWrite(path: string, content: string)

  /** What assembling the task's context gives: an error, or a prompt of an estimated size. */
  datatype Context = ContextError | Assembled(estimatedInputTokens: nat)

  datatype Reply =
    | RuntimeFailure
    | Unusable(error: ReplyError)
    | Answer(files: seq<RawFile>, handoff: Handoff)

  datatype Trial = Trial(model: Option<string>, context: Context, reply: Reply)

  /** One launch: the outcome each task would have, the glob matcher and the resume flag. */
  datatype Launch = Launch(trials: Id -> Trial, matches: Paths.Matcher, resume: bool)

  const CONTEXT_SECTIONS: seq<string> := [
    "system_and_safety_instructions", "role_instructions", "story_goal", "applicable_requirements",
    "required_context", "writable_path_rules", "expected_output_contract", "validation_instructions",
    "response_contract"
  ]

  const HANDOFF_FIELDS: set<string> := {
    "decisions", "files_changed", "outputs_produced", "tests_run", "unresolved_risks", "available_to_dependents"
  }

  // ---------------------------------------------------------------- judging one attempt

  datatype Verdict =
    | Oversized
    | Refused(failure: FailureType)
    | Accepted(writes: seq<FileWrite>, handoff: Handoff)

  /** The files of a reply with normalised paths; None when any path is blank, absolute or climbs. */
  function ParseFiles(files: seq<RawFile>): (r: Option<seq<FileWrite>>)
    ensures r.Some? ==> forall w | w in r.value :: Paths.Normalize(w.path) == Some(w.path)
  {
    if files == [] then Some([])
    else
      var rest := ParseFiles(files[1..]);
      if Strings.Strip(files[0].path) == "" || Paths.Normalize(files[0].path).None? || rest.None? then None
      else
        Paths.NormalizeIsIdempotent(files[0].path);
        Some([FileWrite(Paths.Normalize(files[0].path).value, files[0].content)] + rest.value)
  }

  function PathsOf(writes: seq<FileWrite>): (r: seq<string>)
    ensures |r| == |writes| && forall i | 0 <= i < |writes| :: r[i] == writes[i].path
  {
    seq(|writes|, i requires 0 <= i < |writes| => writes[i].path)
  }

  function Judge(task: Task, trial: Trial, matches: Paths.Matcher): Verdict {
    if trial.model.None? then Refused(UnresolvedModel)
    else match trial.context
      case ContextError => Refused(ContextPreparationError)
      case Assembled(estimate) =>
        if estimate > task.budget.Usable() then Oversized
        else match trial.reply
          case RuntimeFailure => Refused(RuntimeUnavailable)
          case Unusable(error) => Refused(BadReply(error))
          case Answer(files, handoff) =>
            match ParseFiles(files)
            case None => Refused(BadReply(MalformedResponse))
            case Some(writes) =>
              if Paths.Unauthorized(matches, PathsOf(writes), task.writablePaths) != []
              then Refused(FileBoundaryViolation)
              else Accepted(writes, handoff)
  }

  // ---------------------------------------------------------------- records

  const INITIAL_RECORD := TaskRecord(Pending, 0, None, [], [], map[], NotValidated)

  function Audit(attempt: nat): TaskRecord {
    TaskRecord(Running, attempt, None, [], [], map[], NotValidated)
  }

  /** The audit entry once the context has been assembled, if it was. */
  function WithContext(audit: TaskRecord, trial: Trial): TaskRecord {
    if trial.model.Some? && trial.context.Assembled? then audit.(contextSections := CONTEXT_SECTIONS) else audit
  }

  function SetDefault(handoff: Handoff, key: string, value: Value): Handoff {
    if key in handoff then handoff else handoff[key := value]
  }

  function NormalizedHandoff(handoff: Handoff, applied: seq<string>): Handoff {
    var h := SetDefault(handoff, "decisions", Items([]));
    var h := SetDefault(h, "files_changed", Items(applied));
    var h := SetDefault(h, "outputs_produced", Items(applied));
    var h := SetDefault(h, "tests_run", Items([]));
    var h := SetDefault(h, "unresolved_risks", Items([]));
    SetDefault(h, "available_to_dependents", Flag(true))
  }

  function CompletionCheck(audit: TaskRecord): Validation {
    if audit.contextSections != [] && audit.outputs != [] && HANDOFF_FIELDS <= audit.handoff.Keys
    then Passed else Rejected
  }

  function OutputPath(id: Id): string {
    "tasks/" + id + "/output.md"
  }

  function Succeeded(audit: TaskRecord, id: Id, writes: seq<FileWrite>, handoff: Handoff): TaskRecord {
    var done := audit.(status := Completed, failure := None,
                       outputs := [OutputPath(id)] + PathsOf(writes),
                       handoff := NormalizedHandoff(handoff, PathsOf(writes)));
    done.(validation := CompletionCheck(done))
  }

  function FailureStatus(failure: FailureType): TaskStatus {
    if failure == FileBoundaryViolation then Blocked else Failed
  }

  // ---------------------------------------------------------------- state transitions

  function RecordOf(s: State, id: Id): TaskRecord {
    if id in s.tasks then s.tasks[id] else INITIAL_RECORD
  }

  /** `state["tasks"].setdefault(task.id, initial_task_state(task))` */
  function Ensure(s: State, id: Id): State {
    s.(tasks := s.tasks[id := RecordOf(s, id)])
  }

  predicate IsCompleted(s: State, id: Id) {
    id in s.tasks && s.tasks[id].status == Completed
  }

  /** The first declared dependency that is not completed. */
  function FirstBlocking(s: State, dependsOn: seq<Id>): (r: Option<Id>)
    ensures r.None? <==> forall d | d in dependsOn :: IsCompleted(s, d)
    ensures r.Some? ==> r.value in dependsOn && !IsCompleted(s, r.value)
  {
    if dependsOn == [] then None
    else if !IsCompleted(s, dependsOn[0]) then Some(dependsOn[0])
    else FirstBlocking(s, dependsOn[1..])
  }

  function BlockTask(s: State, id: Id): State {
    s.(tasks := s.tasks[id := RecordOf(s, id).(status := Blocked, failure := Some(BlockedByDependency))],
       blocked := AppendOnce(s.blocked, id), status := StoryBlocked, current := Some(id))
  }

  function StartTask(s: State, id: Id, audit: TaskRecord): State {
    s.(status := StoryRunning, current := Some(id), tasks := s.tasks[id := audit])
  }

  function FailTask(s: State, id: Id, audit: TaskRecord, failure: FailureType): State {
    s.(tasks := s.tasks[id := audit.(status := FailureStatus(failure), failure := Some(failure))],
       blocked := AppendOnce(s.blocked, id), status := StoryBlocked, current := Some(id))
  }

  function RequireRedecomposition(s: State, id: Id, audit: TaskRecord): State {
    s.(tasks := s.tasks[id := audit.(status := RedecompositionRequired, failure := Some(ContextOverBudget))],
       blocked := AppendOnce(s.blocked, id), redecompose := AppendOnce(s.redecompose, id),
       status := StoryBlocked, current := Some(id))
  }

  function CompleteTask(s: State, id: Id, audit: TaskRecord): State {
    s.(tasks := s.tasks[id := audit], completed := AppendOnce(s.completed, id),
       blocked := Without(s.blocked, id), redecompose := Without(s.redecompose, id))
  }

  // ---------------------------------------------------------------- a run

  datatype Edit = Edit(task: Id, path: string, content: string)

  /** The runner's state, the project files, and what happened so far: every state-file write, every
      task started, and every project-file write. `startedAt` holds, for each state-file write, the tasks
      started by then. */
  datatype Machine = Machine(state: State, files: map<string, string>, log: seq<State>,
                             started: seq<Id>, edits: seq<Edit>, startedAt: seq<seq<Id>>)

  function Persist(m: Machine, s: State): Machine {
    m.(state := s, log := m.log + [s], startedAt := m.startedAt + [m.started])
  }

  /** The planned writes of one accepted reply, in order. */
  function ApplyWrites(m: Machine, id: Id, writes: seq<FileWrite>): Machine {
    if writes == [] then m
    else
      var before := ApplyWrites(m, id, writes[..|writes| - 1]);
      var w := writes[|writes| - 1];
      before.(files := before.files[w.path := w.content], edits := before.edits + [Edit(id, w.path, w.content)])
  }

  function Attempt(m: Machine, task: Task, launch: Launch): Machine {
    var trial := launch.trials(task.id);
    var audit := Audit(RecordOf(m.state, task.id).attempt + 1);
    var running := Persist(m.(started := m.started + [task.id]), StartTask(m.state, task.id, audit));
    var known := WithContext(audit, trial);
    match Judge(task, trial, launch.matches)
    case Oversized =>
      var s := RequireRedecomposition(running.state, task.id, known);
      Persist(Persist(running, s), s)
    case Refused(failure) =>
      var s := FailTask(running.state, task.id, known, failure);
      Persist(Persist(running, s), s)
    case Accepted(writes, handoff) =>
      var written := ApplyWrites(running, task.id, writes);
      Persist(written, CompleteTask(running.state, task.id, Succeeded(known, task.id, writes, handoff)))
  }

  /** True when the runner passes over the task without looking at its dependencies. */
  predicate Skips(s: State, id: Id, resume: bool) {
    IsCompleted(s, id) || (resume && RecordOf(s, id).status == RedecompositionRequired)
  }

  function Visit(m: Machine, task: Task, launch: Launch): Machine {
    var known := m.(state := Ensure(m.state, task.id));
    if Skips(m.state, task.id, launch.resume) then known
    else if FirstBlocking(known.state, task.dependsOn).Some? then Persist(known, BlockTask(known.state, task.id))
    else Attempt(known, task, launch)
  }

  /** The machine after the first `n` tasks of the order. */
  function RunTasks(m: Machine, order: seq<Task>, n: nat, launch: Launch): Machine
    requires n <= |order|
  {
    if n == 0 then m else Visit(RunTasks(m, order, n - 1, launch), order[n - 1], launch)
  }

  const FRESH_STATE := State(StoryPending, None, [], [], [], map[])

  /** The state a run starts from; `existing` is None on a fresh run or when nothing was saved. */
  function Initialize(existing: Option<State>, order: seq<Task>): State {
    var s := existing.GetOr(FRESH_STATE);
    s.(tasks := (map id | id in Ids(order) :: INITIAL_RECORD) + s.tasks)
  }

  // ---------------------------------------------------------------- finalisation

  /** Ids of the acceptance criteria written as `ID: text`. */
  function RequirementIds(criteria: seq<string>): (r: seq<string>)
    ensures forall id :: id in r <==> exists c :: c in criteria && ':' in c && id == Strings.Strip(Strings.Before(c, ':'))
  {
    if criteria == [] then []
    else
      assert criteria == [criteria[0]] + criteria[1..];
      var rest := RequirementIds(criteria[1..]);
      if ':' in criteria[0] then [Strings.Strip(Strings.Before(criteria[0], ':'))] + rest else rest
  }

  predicate CoveredBy(order: seq<Task>, requirement: string) {
    exists k :: 0 <= k < |order| && requirement in order[k].requirementIds
  }

  predicate RecordComplete(r: TaskRecord) {
    r.validation == Passed && r.outputs != [] && "available_to_dependents" in r.handoff
  }

  predicate StoryValidated(order: seq<Task>, criteria: seq<string>, s: State) {
    && (forall r | r in RequirementIds(criteria) :: CoveredBy(order, r))
    && (forall t | t in order :: RecordComplete(RecordOf(s, t.id)))
  }

  function Finalize(s: State, order: seq<Task>, criteria: seq<string>): State {
    if s.redecompose != [] || s.blocked != [] then s.(status := StoryBlocked)
    else if forall t | t in order :: IsCompleted(s, t.id) then
      s.(status := if StoryValidated(order, criteria, s) then StoryCompleted else StoryBlocked, current := None)
    else if exists t :: t in order && !IsCompleted(s, t.id) && forall d | d in t.dependsOn :: IsCompleted(s, d) then
      s.(status := StoryReady)
    else s.(status := StoryPending)
  }

  function StartMachine(existing: Option<State>, order: seq<Task>, files: map<string, string>): Machine {
    var s := Initialize(existing, order);
    Machine(s, files, [s], [], [], [[]])
  }

  function FullPass(existing: Option<State>, order: seq<Task>, files: map<string, string>, launch: Launch): Machine {
    RunTasks(StartMachine(existing, order, files), order, |order|, launch)
  }

  function Run(existing: Option<State>, order: seq<Task>, criteria: seq<string>, files: map<string, string>,
               launch: Launch): Machine
  {
    var m := FullPass(existing, order, files, launch);
    Persist(m, Finalize(m.state, order, criteria))
  }
}
