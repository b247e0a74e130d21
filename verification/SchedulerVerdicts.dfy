/** When an attempt is accepted, oversized or refused, told from the task and its outcome alone. */
module SchedulerVerdicts {
  import opened Common
  import opened TaskGraph
  import opened Scheduler
  import Paths
  import Strings

  predicate WellPathed(f: RawFile) {
    Strings.Strip(f.path) != "" && Paths.Normalize(f.path).Some?
  }

  predicate PathAllowed(f: RawFile, patterns: seq<string>, matches: Paths.Matcher) {
    WellPathed(f) && exists k :: 0 <= k < |patterns| && matches(Paths.Normalize(f.path).value, patterns[k])
  }

  ghost predicate AllWellPathed(files: seq<RawFile>) {
    forall i | 0 <= i < |files| :: WellPathed(files[i])
  }

  ghost predicate AllAllowed(files: seq<RawFile>, patterns: seq<string>, matches: Paths.Matcher) {
    forall i | 0 <= i < |files| :: PathAllowed(files[i], patterns, matches)
  }

  /** Parsing succeeds exactly when every path is acceptable, and then keeps order and contents. */
  lemma {:induction false} ParseExactly(files: seq<RawFile>)
    ensures ParseFiles(files).Some? <==> AllWellPathed(files)
    ensures ParseFiles(files).Some? ==>
            && |ParseFiles(files).value| == |files|
            && forall i | 0 <= i < |files| ::
                 && ParseFiles(files).value[i].content == files[i].content
                 && Some(ParseFiles(files).value[i].path) == Paths.Normalize(files[i].path)
  {
    hide Paths.Normalize, Strings.Strip;
    if files != [] {
      ParseExactly(files[1..]);
      assert forall i | 0 < i < |files| :: files[i] == files[1..][i - 1];
      assert AllWellPathed(files) <==> WellPathed(files[0]) && AllWellPathed(files[1..]);
    }
  }

  lemma NoneUnauthorized(matches: Paths.Matcher, paths: seq<string>, patterns: seq<string>)
    ensures Paths.Unauthorized(matches, paths, patterns) == [] <==>
            forall i | 0 <= i < |paths| :: Paths.Writable(matches, paths[i], patterns)
  {
    hide Paths.Writable;
    var bad := Paths.Unauthorized(matches, paths, patterns);
    assert |bad| > 0 ==> bad[0] in bad;
    assert forall i | 0 <= i < |paths| :: paths[i] in paths;
  }

  lemma AllowedExactly(files: seq<RawFile>, patterns: seq<string>, matches: Paths.Matcher)
    ensures AllAllowed(files, patterns, matches) ==> AllWellPathed(files)
    ensures ParseFiles(files).Some? ==>
            (Paths.Unauthorized(matches, PathsOf(ParseFiles(files).value), patterns) == [] <==>
             AllAllowed(files, patterns, matches))
  {
    hide Paths.Normalize, Strings.Strip, ParseFiles;
    ParseExactly(files);
    if ParseFiles(files).Some? {
      var writes := ParseFiles(files).value;
      NoneUnauthorized(matches, PathsOf(writes), patterns);
      assert forall i | 0 <= i < |writes| :: PathsOf(writes)[i] == writes[i].path;
    }
  }

  /** A model is resolved and the assembled context fits the budget left for input. */
  predicate Fits(task: Task, trial: Trial) {
    && trial.model.Some? && trial.context.Assembled?
    && trial.context.estimatedInputTokens <= task.budget.maxInputTokens - task.budget.reservedOutputTokens
  }

  /** A model is resolved and the assembled context is larger than the budget left for input. */
  predicate TooLarge(task: Task, trial: Trial) {
    && trial.model.Some? && trial.context.Assembled?
    && trial.context.estimatedInputTokens > task.budget.maxInputTokens - task.budget.reservedOutputTokens
  }

  /** The context fits, and every requested path is non-blank, relative, free of ".." and admitted by
      the task's patterns. */
  ghost predicate Acceptable(task: Task, trial: Trial, matches: Paths.Matcher) {
    Fits(task, trial) && trial.reply.Answer? && AllAllowed(trial.reply.files, task.writablePaths, matches)
  }

  /** What the runner writes for a reply: each content at its normalised path, in the reply's order. */
  ghost predicate WritesOf(files: seq<RawFile>, writes: seq<FileWrite>) {
    && |writes| == |files|
    && forall i | 0 <= i < |files| ::
         writes[i].content == files[i].content && Some(writes[i].path) == Paths.Normalize(files[i].path)
  }

  /** A reply is applied exactly when it is acceptable, and then whole, in order and with its handoff. */
  lemma {:induction false} AcceptedExactly(task: Task, trial: Trial, matches: Paths.Matcher)
    ensures Judge(task, trial, matches).Accepted? <==> Acceptable(task, trial, matches)
    ensures var v := Judge(task, trial, matches);
            v.Accepted? ==> WritesOf(trial.reply.files, v.writes) && v.handoff == trial.reply.handoff
  {
    hide AllWellPathed, AllAllowed, Paths.Unauthorized, ParseFiles, PathsOf, Paths.Normalize;
    if Fits(task, trial) && trial.reply.Answer? {
      ParseExactly(trial.reply.files);
      AllowedExactly(trial.reply.files, task.writablePaths, matches);
    } else {
      assert !Judge(task, trial, matches).Accepted?;
    }
  }

  /** An attempt is parked for redecomposition exactly when a model is resolved, the context can be
      assembled, and its estimate exceeds what the budget leaves after the reserved output. */
  lemma {:induction false} OversizedExactly(task: Task, trial: Trial, matches: Paths.Matcher)
    ensures Judge(task, trial, matches) == Oversized <==>
            && trial.model.Some? && trial.context.Assembled?
            && trial.context.estimatedInputTokens + task.budget.reservedOutputTokens > task.budget.maxInputTokens
  {
    hide Paths.Unauthorized, ParseFiles, PathsOf;
  }

  /** The failure of an attempt that is neither accepted nor parked. */
  ghost predicate FailsWith(task: Task, trial: Trial, matches: Paths.Matcher, failure: FailureType) {
    match failure
    case UnresolvedModel => trial.model.None?
    case ContextPreparationError => trial.model.Some? && trial.context.ContextError?
    case RuntimeUnavailable => Fits(task, trial) && trial.reply.RuntimeFailure?
    case BadReply(error) =>
      && Fits(task, trial)
      && (trial.reply == Unusable(error)
          || (error == MalformedResponse && trial.reply.Answer? && !AllWellPathed(trial.reply.files)))
    case FileBoundaryViolation =>
      && Fits(task, trial) && trial.reply.Answer? && AllWellPathed(trial.reply.files)
      && !AllAllowed(trial.reply.files, task.writablePaths, matches)
    case BlockedByDependency => false
    case ContextOverBudget => false
  }

  /** An attempt fails, and with which failure, exactly as the table says. */
  lemma {:induction false} RefusedExactly(task: Task, trial: Trial, matches: Paths.Matcher, failure: FailureType)
    ensures Judge(task, trial, matches) == Refused(failure) <==> FailsWith(task, trial, matches, failure)
  {
    hide AllWellPathed, AllAllowed, Paths.Unauthorized, ParseFiles, PathsOf;
    if Fits(task, trial) && trial.reply.Answer? {
      ParseExactly(trial.reply.files);
      AllowedExactly(trial.reply.files, task.writablePaths, matches);
    }
  }

  /** A boundary violation is reported exactly when the reply is well-pathed but some path is not
      admitted by the task's patterns. */
  lemma {:induction false} BoundaryViolationExactly(task: Task, trial: Trial, matches: Paths.Matcher)
    ensures Judge(task, trial, matches) == Refused(FileBoundaryViolation) <==>
            && Fits(task, trial) && trial.reply.Answer?
            && AllWellPathed(trial.reply.files) && !AllAllowed(trial.reply.files, task.writablePaths, matches)
  {
    RefusedExactly(task, trial, matches, FileBoundaryViolation);
    hide Judge, AllWellPathed, AllAllowed;
  }
}
