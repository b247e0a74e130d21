/** Which project files a run may change. */
module SchedulerWrites {
  import opened Common
  import opened TaskGraph
  import opened Scheduler
  import opened SchedulerVerdicts
  import Paths
  import Strings

  // ---------------------------------------------------------------- whole runs

  /** The edit is to a normalised path that a pattern of its task admits. */
  ghost predicate Authorised(g: Graph, e: Edit, matches: Paths.Matcher) {
    && e.task in g && Paths.Writable(matches, e.path, g[e.task].writablePaths)
    && Paths.Normalize(e.path) == Some(e.path)
  }

  /** Project files are the originals with the recorded edits applied in order. */
  function Replay(files: map<string, string>, edits: seq<Edit>): map<string, string> {
    if edits == [] then files
    else
      var last := edits[|edits| - 1];
      Replay(files, edits[..|edits| - 1])[last.path := last.content]
  }

  ghost predicate WritesAccountedFor(g: Graph, files: map<string, string>, m: Machine, matches: Paths.Matcher) {
    && (forall e | e in m.edits :: e.task in m.started && Authorised(g, e, matches))
    && m.files == Replay(files, m.edits)
  }

  lemma WriteAccounted(g: Graph, files: map<string, string>, m: Machine, e: Edit, matches: Paths.Matcher)
    requires WritesAccountedFor(g, files, m, matches) && e.task in m.started && Authorised(g, e, matches)
    ensures WritesAccountedFor(g, files, m.(files := m.files[e.path := e.content], edits := m.edits + [e]), matches)
  {
    hide Authorised;
    assert (m.edits + [e])[..|m.edits|] == m.edits;
  }

  lemma {:induction false} ApplyWritesAccounted(g: Graph, files: map<string, string>, m: Machine, id: Id,
                                                writes: seq<FileWrite>, matches: Paths.Matcher)
    requires WritesAccountedFor(g, files, m, matches) && id in m.started
    requires forall w | w in writes :: Authorised(g, Edit(id, w.path, w.content), matches)
    ensures WritesAccountedFor(g, files, ApplyWrites(m, id, writes), matches)
    ensures ApplyWrites(m, id, writes).started == m.started
  {
    hide Authorised, WritesAccountedFor;
    if writes != [] {
      var n := |writes| - 1;
      ApplyWritesAccounted(g, files, m, id, writes[..n], matches);
      assert writes[n] in writes;
      WriteAccounted(g, files, ApplyWrites(m, id, writes[..n]), Edit(id, writes[n].path, writes[n].content), matches);
    }
  }

  lemma AttemptAccounted(g: Graph, files: map<string, string>, m: Machine, task: Task, launch: Launch)
    requires WritesAccountedFor(g, files, m, launch.matches) && task.id in g && g[task.id] == task
    ensures WritesAccountedFor(g, files, Attempt(m, task, launch), launch.matches)
  {
    hide Authorised, Judge, Replay, Succeeded, WithContext, RequireRedecomposition, FailTask, CompleteTask, StartTask;
    var audit := Audit(RecordOf(m.state, task.id).attempt + 1);
    var running := Persist(m.(started := m.started + [task.id]), StartTask(m.state, task.id, audit));
    assert WritesAccountedFor(g, files, running, launch.matches);
    var verdict := Judge(task, launch.trials(task.id), launch.matches);
    if verdict.Accepted? {
      AcceptedWritesAuthorised(g, task, launch);
      ApplyWritesAccounted(g, files, running, task.id, verdict.writes, launch.matches);
    }
  }

  lemma AcceptedWritesAuthorised(g: Graph, task: Task, launch: Launch)
    requires task.id in g && g[task.id] == task && Judge(task, launch.trials(task.id), launch.matches).Accepted?
    ensures forall w | w in Judge(task, launch.trials(task.id), launch.matches).writes ::
              Authorised(g, Edit(task.id, w.path, w.content), launch.matches)
  {
    hide Paths.Normalize, Paths.Writable;
    var writes := Judge(task, launch.trials(task.id), launch.matches).writes;
    NoneUnauthorized(launch.matches, PathsOf(writes), task.writablePaths);
    assert forall i | 0 <= i < |writes| :: PathsOf(writes)[i] == writes[i].path;
  }

  lemma {:induction false} RunTasksAccounted(g: Graph, files: map<string, string>, m: Machine, order: seq<Task>, n: nat,
                                             launch: Launch)
    requires WritesAccountedFor(g, files, m, launch.matches) && DrawnFrom(g, order) && n <= |order|
    ensures WritesAccountedFor(g, files, RunTasks(m, order, n, launch), launch.matches)
  {
    hide Attempt, Authorised;
    if n > 0 {
      var before, task := RunTasks(m, order, n - 1, launch), order[n - 1];
      RunTasksAccounted(g, files, m, order, n - 1, launch);
      AttemptAccounted(g, files, before.(state := Ensure(before.state, task.id)), task, launch);
    }
  }

  lemma {:induction false} ReplayTouchesOnlyEdits(files: map<string, string>, edits: seq<Edit>, path: string)
    requires forall e | e in edits :: e.path != path
    ensures path in Replay(files, edits) <==> path in files
    ensures path in files ==> Replay(files, edits)[path] == files[path]
  {
    if edits != [] {
      ReplayTouchesOnlyEdits(files, edits[..|edits| - 1], path);
      assert edits[|edits| - 1] in edits;
    }
  }

  ghost predicate Changed(before: map<string, string>, after: map<string, string>, path: string) {
    (path in before) != (path in after) || (path in before && before[path] != after[path])
  }

  /** Every project file a run changes lies at a normal path admitted by a writable pattern of a
      task that the run started. */
  lemma ChangedFilesAreAuthorised(g: Graph, existing: Option<State>, order: seq<Task>, criteria: seq<string>,
                                  files: map<string, string>, launch: Launch, path: string)
    requires DrawnFrom(g, order)
    requires Changed(files, Run(existing, order, criteria, files, launch).files, path)
    ensures Paths.Normalize(path) == Some(path)
    ensures exists id :: id in Run(existing, order, criteria, files, launch).started && id in g
                         && Paths.Writable(launch.matches, path, g[id].writablePaths)
  {
    hide RunTasks, Finalize, Initialize;
    RunTasksAccounted(g, files, StartMachine(existing, order, files), order, |order|, launch);
    var m := FullPass(existing, order, files, launch);
    assert Run(existing, order, criteria, files, launch).files == Replay(files, m.edits);
    if forall e | e in m.edits :: e.path != path {
      ReplayTouchesOnlyEdits(files, m.edits, path);
    }
    var e :| e in m.edits && e.path == path;
    assert Authorised(g, e, launch.matches);
  }

  /** A reply that is not accepted leaves every project file as it was. */
  lemma {:induction false} RefusedRepliesChangeNothing(m: Machine, task: Task, launch: Launch)
    requires !Judge(task, launch.trials(task.id), launch.matches).Accepted?
    ensures Visit(m, task, launch).files == m.files && Visit(m, task, launch).edits == m.edits
  {
  }

  /** A reply with any blank, escaping, absolute or unauthorised path changes no project file, not even
      those its other paths name. */
  lemma {:induction false} UnauthorisedRepliesChangeNothing(m: Machine, task: Task, launch: Launch)
    requires launch.trials(task.id).reply.Answer?
    requires !AllAllowed(launch.trials(task.id).reply.files, task.writablePaths, launch.matches)
    ensures Visit(m, task, launch).files == m.files && Visit(m, task, launch).edits == m.edits
  {
    AcceptedExactly(task, launch.trials(task.id), launch.matches);
    RefusedRepliesChangeNothing(m, task, launch);
    hide Visit;
  }

  /** Writes take effect in order: each path ends with the content of its last write. */
  lemma {:induction false} LastWriteWins(m: Machine, id: Id, writes: seq<FileWrite>, k: nat)
    requires k < |writes| && forall j | k < j < |writes| :: writes[j].path != writes[k].path
    ensures var files := ApplyWrites(m, id, writes).files;
            writes[k].path in files && files[writes[k].path] == writes[k].content
  {
    var n := |writes| - 1;
    if k < n {
      LastWriteWins(m, id, writes[..n], k);
      assert writes[n].path != writes[k].path;
    }
  }

  /** A task that is tried and accepted has every file of its reply written: the last entry for a
      path decides its content. */
  lemma {:induction false} AcceptedRepliesAreWritten(m: Machine, task: Task, launch: Launch, k: nat)
    requires !Skips(m.state, task.id, launch.resume) && FirstBlocking(Ensure(m.state, task.id), task.dependsOn).None?
    requires Judge(task, launch.trials(task.id), launch.matches).Accepted? && launch.trials(task.id).reply.Answer?
    requires var files := launch.trials(task.id).reply.files;
             k < |files| && forall j | k < j < |files| :: Paths.Normalize(files[j].path) != Paths.Normalize(files[k].path)
    ensures var f, files := launch.trials(task.id).reply.files[k], Visit(m, task, launch).files;
            Paths.Normalize(f.path).Some? && Paths.Normalize(f.path).value in files
            && files[Paths.Normalize(f.path).value] == f.content
  {
    hide Paths.Normalize, Skips, FirstBlocking, Ensure, Visit, ApplyWrites, Paths.Writable, ParseFiles;
    var files := launch.trials(task.id).reply.files;
    var writes := Judge(task, launch.trials(task.id), launch.matches).writes;
    ParseExactly(files);
    assert ParseFiles(files) == Some(writes);
    var running := VisitWrites(m, task, launch);
    LastWriteWins(running, task.id, writes, k);
  }

  /** The files after an accepted visit are those of applying the reply's writes. */
  lemma VisitWrites(m: Machine, task: Task, launch: Launch) returns (running: Machine)
    requires !Skips(m.state, task.id, launch.resume) && FirstBlocking(Ensure(m.state, task.id), task.dependsOn).None?
    requires Judge(task, launch.trials(task.id), launch.matches).Accepted?
    ensures Visit(m, task, launch).files ==
            ApplyWrites(running, task.id, Judge(task, launch.trials(task.id), launch.matches).writes).files
  {
    hide Judge, Skips, FirstBlocking, Ensure, Succeeded, CompleteTask, StartTask, ApplyWrites;
    var known := m.(state := Ensure(m.state, task.id));
    var audit := Audit(RecordOf(known.state, task.id).attempt + 1);
    running := Persist(known.(started := known.started + [task.id]), StartTask(known.state, task.id, audit));
  }
}
