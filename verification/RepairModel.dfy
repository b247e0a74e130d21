/** One attempt and the whole bounded repair loop, as functions of the model's replies and the check
    results (src/agentic_dev/local_repair_loop.py). */
module RepairModel {
  import opened Common
  import opened Strings

  datatype Kind =
    | RepairAccepted | EmptyLocalOutput | MalformedOutput | MarkdownFenceInStrictPython | MissingRequiredApi
    | LocalModelTimeout | LocalModelConnectionError | LocalModelRuntimeError | WrongDomain | RuffFailure
    | PytestFailure | ContractViolation | RetryBudgetExceeded

  datatype Owner = Developer | TestOwner | LocalRuntime | ManualSupport

  datatype Classification = Classification(kind: Kind, owner: Owner)

  // ---------------------------------------------------------------- output validation

  predicate IsLineBreak(c: char) {
    var k := c as int;
    0x0A <= k <= 0x0D || 0x1C <= k <= 0x1E || k == 0x85 || k == 0x2028 || k == 0x2029
  }

  function FirstBreak(s: string): (k: nat)
    ensures k <= |s| && (k < |s| ==> IsLineBreak(s[k]))
  {
    if s == "" || IsLineBreak(s[0]) then 0 else 1 + FirstBreak(s[1..])
  }

  /** `s.splitlines()` */
  function SplitLines(s: string): (lines: seq<string>)
    ensures s != "" ==> lines != []
  {
    if s == "" then []
    else
      var k := FirstBreak(s);
      if k == |s| then [s]
      else if s[k] == '\r' && k + 1 < |s| && s[k + 1] == '\n' then [s[..k]] + SplitLines(s[k + 2..])
      else [s[..k]] + SplitLines(s[k + 1..])
  }

  function JoinLines(lines: seq<string>): string {
    if lines == [] then "" else if |lines| == 1 then lines[0] else lines[0] + "\n" + JoinLines(lines[1..])
  }

  predicate LooksLikeFence(text: string) {
    StartsWith(Strip(text), "```") || StartsWith(Strip(text), "~~~")
  }

  /** normalize_repair_output: the text, or the body of its single outer fence; None on a bad fence. */
  function NormalizeOutput(text: string, allowFence: bool): Option<string> {
    if !allowFence || !LooksLikeFence(text) then Some(text)
    else
      var lines := SplitLines(text);
      if |lines| < 2 then None
      else if !StartsWith(Strip(lines[0]), "```") || Strip(lines[|lines| - 1]) != "```" then None
      else Some(Strip(JoinLines(lines[1..|lines| - 1])))
  }

  datatype Validation = Accepted(output: string) | Rejected(failure: Classification)

  /** validate_repair_output; `banned` tells whether a text names a disallowed domain. */
  function Validate(text: string, required: seq<string>, strict: bool, banned: string -> bool): Validation {
    var stripped := Strip(text);
    if stripped == "" then Rejected(Classification(EmptyLocalOutput, Developer))
    else if strict && LooksLikeFence(stripped) then Rejected(Classification(MarkdownFenceInStrictPython, Developer))
    else match NormalizeOutput(stripped, !strict)
      case None => Rejected(Classification(MalformedOutput, Developer))
      case Some(output) =>
        if Strip(output) == "" then Rejected(Classification(EmptyLocalOutput, Developer))
        else if exists k :: 0 <= k < |required| && !Contains(output, required[k]) then
          Rejected(Classification(MissingRequiredApi, Developer))
        else if banned(output) then Rejected(Classification(WrongDomain, Developer))
        else Accepted(output)
  }

  // ---------------------------------------------------------------- the outside world

  datatype RawReply = TimedOut | ConnectionFailed | OtherFailure | Response(text: string)

  datatype Reply = ModelFailed(failure: Classification) | Text(text: string)

  /** invoke_local_repair_model and classify_local_model_failure: a blank response is an error. */
  function Invoke(raw: RawReply): Reply {
    match raw
    case TimedOut => ModelFailed(Classification(LocalModelTimeout, LocalRuntime))
    case ConnectionFailed => ModelFailed(Classification(LocalModelConnectionError, LocalRuntime))
    case OtherFailure => ModelFailed(Classification(LocalModelRuntimeError, LocalRuntime))
    case Response(text) =>
      if Strip(text) == "" then ModelFailed(Classification(LocalModelRuntimeError, LocalRuntime)) else Text(text)
  }

  datatype CommandResult = CommandResult(passed: bool, output: string)

  /** format_command_output: never empty, whatever the command printed. */
  function FormatOutput(r: CommandResult): (s: string)
    ensures |s| > |r.output| && s[|s| - |r.output|..] == r.output
  {
    "Status: " + (if r.passed then "PASSED" else "FAILED") + "\n" + r.output
  }

  /** What the two checks would give after an attempt, should they run. */
  datatype Checks = Checks(ruff: CommandResult, pytest: CommandResult)

  datatype Prompt = Prompt(fileContent: string, failureOutput: string, cause: Classification)

  /** Everything fixed before the loop, and the replies and check results of each attempt. */
  datatype Setup = Setup(budget: int, required: seq<string>, strict: bool, banned: string -> bool,
                         runsRuff: bool, hasTests: bool, targetInTests: bool, lower: string -> string,
                         replies: nat -> RawReply, checks: nat -> Checks)

  // ---------------------------------------------------------------- checks after an attempt

  /** Which checks ran, and whether each passed; pytest is skipped after a ruff failure. */
  datatype Ran = Ran(ruff: Option<CommandResult>, pytest: Option<CommandResult>)

  function RunChecks(setup: Setup, k: nat): Ran {
    var ruff := if setup.runsRuff then Some(setup.checks(k).ruff) else None;
    var pytest := if setup.hasTests && (ruff.None? || ruff.value.passed) then Some(setup.checks(k).pytest) else None;
    Ran(ruff, pytest)
  }

  /** The output of the failed check, or "" when none failed. */
  function FailureText(ran: Ran): string {
    if ran.ruff.Some? && !ran.ruff.value.passed then FormatOutput(ran.ruff.value)
    else if ran.pytest.Some? && !ran.pytest.value.passed then FormatOutput(ran.pytest.value)
    else ""
  }

  function ClassifyRuff(setup: Setup, output: string): Classification {
    var lowered := setup.lower(output);
    if Contains(lowered, "fixture") || Contains(lowered, "importerror") || Contains(lowered, "cannot import name")
    then Classification(ContractViolation, TestOwner)
    else if setup.targetInTests then Classification(RuffFailure, TestOwner)
    else Classification(RuffFailure, Developer)
  }

  const TEST_WIRING: seq<string> := [
    "fixture '", "fixture \"", "importerror while importing test module", "module not found",
    "cannot import name", "attributeerror: module"
  ]

  function ClassifyPytest(setup: Setup, output: string): Classification {
    var lowered := setup.lower(output);
    if exists k :: 0 <= k < |TEST_WIRING| && Contains(lowered, TEST_WIRING[k])
    then Classification(PytestFailure, TestOwner) else Classification(PytestFailure, Developer)
  }

  /** classification_for_command_results */
  function ClassifyChecks(setup: Setup, ran: Ran): Classification {
    if ran.ruff.Some? && !ran.ruff.value.passed then ClassifyRuff(setup, FormatOutput(ran.ruff.value))
    else if ran.pytest.Some? && !ran.pytest.value.passed then ClassifyPytest(setup, FormatOutput(ran.pytest.value))
    else Classification(RepairAccepted, Developer)
  }

  // ---------------------------------------------------------------- the loop

  datatype BudgetStatus = WithinBudget | Exhausted

  /** `output` is None when the model gave none; `ran` is None when the checks did not run. */
  datatype Attempt = Attempt(number: nat, cause: Classification, output: Option<Validation>, applied: bool,
                             budgetStatus: BudgetStatus, ran: Option<Ran>)

  datatype Status = CompletedStatus | BudgetExceeded | RuntimeFailed(kind: Kind) | DryRun

  datatype Outcome = Outcome(status: Status, applied: bool, appliedPath: bool, supportReport: bool)

  /** `written` are the contents written to the target so far, `sent` the prompts sent. */
  datatype Loop = Loop(attempts: seq<Attempt>, target: Option<string>, prompt: Prompt, sent: seq<Prompt>,
                       written: seq<string>, supportReport: bool, outcome: Option<Outcome>)

  function Content(target: Option<string>): string {
    target.GetOr("")
  }

  function Label(setup: Setup, k: nat): BudgetStatus {
    if k < setup.budget then WithinBudget else Exhausted
  }

  /** After a failed attempt `k`: give up with a support report when the budget is used. */
  function GiveUpIfSpent(setup: Setup, s: Loop, k: nat, status: Status, applied: bool): Loop {
    if k >= setup.budget
    then s.(supportReport := true, outcome := Some(Outcome(status, applied, applied && s.written != [], true)))
    else s
  }

  /** Attempt number `k`. */
  function Iterate(setup: Setup, s: Loop, k: nat): Loop {
    var sent := s.(sent := s.sent + [s.prompt]);
    match Invoke(setup.replies(k))
    case ModelFailed(failure) =>
      var attempt := Attempt(k, failure, None, false, Label(setup, k), None);
      GiveUpIfSpent(setup, sent.(attempts := s.attempts + [attempt]), k, RuntimeFailed(failure.kind), false)
    case Text(text) =>
      match Validate(text, setup.required, setup.strict, setup.banned)
      case Rejected(failure) =>
        var attempt := Attempt(k, failure, Some(Rejected(failure)), false, Label(setup, k), None);
        var next := sent.(attempts := s.attempts + [attempt]);
        if k >= setup.budget then GiveUpIfSpent(setup, next, k, BudgetExceeded, false)
        else next.(prompt := Prompt(Content(s.target), text, failure))
      case Accepted(output) =>
        var ran := RunChecks(setup, k);
        var cause := ClassifyChecks(setup, ran);
        var attempt := Attempt(k, cause, Some(Accepted(output)), true, WithinBudget, Some(ran));
        var next := sent.(attempts := s.attempts + [attempt], target := Some(output), written := s.written + [output]);
        if FailureText(ran) == "" then next.(outcome := Some(Outcome(CompletedStatus, true, true, false)))
        else if k >= setup.budget then GiveUpIfSpent(setup, next, k, BudgetExceeded, true)
        else next.(prompt := Prompt(output, FailureText(ran), cause))
  }

  /** The loop after at most `n` attempts; nothing happens once there is an outcome. */
  function RunLoop(setup: Setup, s: Loop, n: nat): Loop {
    if n == 0 then s
    else
      var before := RunLoop(setup, s, n - 1);
      if before.outcome.Some? then before else Iterate(setup, before, n)
  }

  function Start(target: Option<string>, failureOutput: string, cause: Classification): Loop {
    Loop([], target, Prompt(Content(target), failureOutput, cause), [], [], false, None)
  }

  /** The for loop, and the code after it when it ends without an outcome. */
  function Finish(setup: Setup, start: Loop): Loop {
    var s := RunLoop(setup, start, if setup.budget > 0 then setup.budget else 0);
    if s.outcome.Some? then s
    else s.(outcome := Some(Outcome(BudgetExceeded, s.written != [], s.written != [], s.supportReport)))
  }

  /** run_local_repair_loop */
  function Run(setup: Setup, execute: bool, target: Option<string>, failureOutput: string, cause: Classification): Loop {
    var start := Start(target, failureOutput, cause);
    if execute then Finish(setup, start) else start.(outcome := Some(Outcome(DryRun, false, false, false)))
  }
}
