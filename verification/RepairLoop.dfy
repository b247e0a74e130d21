/** What the repair loop guarantees for every budget and every sequence of replies and check results,
    and the loop itself in the source's form. */
module RepairLoop {
  import opened Common
  import opened Strings
  import opened RepairModel
  import opened RepairReplies

  // ---------------------------------------------------------------- written contents

  /** The text may be written to the target. */
  ghost predicate Acceptable(setup: Setup, output: string) {
    && output != "" && Strip(output) == output
    && (forall k | 0 <= k < |setup.required| :: Contains(output, setup.required[k]))
    && !setup.banned(output)
    && (setup.strict ==> !LooksLikeFence(output))
  }

  lemma {:induction false} AcceptedIsAcceptable(setup: Setup, text: string)
    ensures var v := Validate(text, setup.required, setup.strict, setup.banned);
            v.Accepted? ==> Acceptable(setup, v.output)
  {
    hide Strip, Contains, SplitLines, JoinLines, LooksLikeFence, StartsWith;
    StripIsIdempotent(text);
    var stripped := Strip(text);
    if LooksLikeFence(stripped) && !setup.strict {
      var lines := SplitLines(stripped);
      if |lines| >= 2 { StripIsIdempotent(JoinLines(lines[1..|lines| - 1])); }
    }
  }

  /** In strict mode the loop never reports an empty output: a blank reply is a runtime failure. */
  lemma {:induction false} EmptyOutputNeedsFence(setup: Setup, raw: RawReply)
    requires Invoke(raw).Text? && setup.strict
    ensures Validate(Invoke(raw).text, setup.required, setup.strict, setup.banned)
            != Rejected(Classification(EmptyLocalOutput, Developer))
  {
    StripIsIdempotent(Invoke(raw).text);
  }

  // ---------------------------------------------------------------- the loop invariant

  predicate Passed(a: Attempt) {
    a.output.Some? && a.output.value.Accepted?
  }

  /** The output of the latest attempt that passed validation. */
  function LatestPassed(attempts: seq<Attempt>): Option<string> {
    if attempts == [] then None
    else
      var last := attempts[|attempts| - 1];
      if Passed(last) then Some(last.output.value.output) else LatestPassed(attempts[..|attempts| - 1])
  }

  /** The outputs of the attempts that passed validation, in order. */
  function PassedOutputs(attempts: seq<Attempt>): seq<string> {
    if attempts == [] then []
    else
      var last := attempts[|attempts| - 1];
      PassedOutputs(attempts[..|attempts| - 1]) + (if Passed(last) then [last.output.value.output] else [])
  }

  predicate ChecksPassed(setup: Setup, ran: Ran) {
    && (setup.runsRuff ==> ran.ruff.Some? && ran.ruff.value.passed)
    && (setup.hasTests ==> ran.pytest.Some? && ran.pytest.value.passed)
  }

  /** The facts about attempt `a`, the `k`-th. */
  ghost predicate AttemptFacts(setup: Setup, a: Attempt, k: nat) {
    && a.number == k
    && (a.applied <==> Passed(a))
    && (a.budgetStatus == Exhausted <==> k >= setup.budget && !Passed(a))
    && (a.cause.kind == RepairAccepted <==> Passed(a) && a.ran.Some? && ChecksPassed(setup, a.ran.value))
  }

  /** What the attempts and the target say of each other. */
  ghost predicate LoopInv(setup: Setup, original: Option<string>, s: Loop) {
    && (forall i | 0 <= i < |s.attempts| :: AttemptFacts(setup, s.attempts[i], i + 1))
    && (forall i | 0 <= i < |s.attempts| - 1 :: s.attempts[i].cause.kind != RepairAccepted)
    && (forall w | w in s.written :: Acceptable(setup, w))
    && s.target == (if LatestPassed(s.attempts).Some? then LatestPassed(s.attempts) else original)
    && s.written == PassedOutputs(s.attempts) && (s.written == [] <==> LatestPassed(s.attempts).None?)
    && |s.sent| == |s.attempts|
  }

  /** Before the outcome: `n` attempts, none accepted, and a prompt showing the target as it is. */
  ghost predicate Running(s: Loop, n: nat) {
    && s.outcome.None? && |s.attempts| == n && !s.supportReport
    && (n > 0 ==> s.attempts[n - 1].cause.kind != RepairAccepted)
    && s.prompt.fileContent == Content(s.target)
  }

  /** After it: completed by an accepted last attempt, or spent with a support report. */
  ghost predicate Ended(setup: Setup, s: Loop) {
    && s.outcome.Some? && 1 <= |s.attempts| <= setup.budget
    && var last := s.attempts[|s.attempts| - 1];
    && (s.outcome.value.status == CompletedStatus <==> last.cause.kind == RepairAccepted)
    && (s.outcome.value.status != CompletedStatus ==> |s.attempts| == setup.budget)
    && (s.supportReport <==> s.outcome.value.status != CompletedStatus)
    && s.outcome.value.supportReport == s.supportReport
    && s.outcome.value.applied == Passed(last) == s.outcome.value.appliedPath
    && s.outcome.value.status in {CompletedStatus, BudgetExceeded, RuntimeFailed(last.cause.kind)}
    && (s.outcome.value.status == RuntimeFailed(last.cause.kind) <==> last.output.None?)
  }

  lemma ChecksAgree(setup: Setup, k: nat)
    ensures var ran := RunChecks(setup, k);
            && (FailureText(ran) == "" <==> ChecksPassed(setup, ran))
            && (ClassifyChecks(setup, ran).kind == RepairAccepted <==> ChecksPassed(setup, ran))
  {
  }

  lemma AppendFacts(setup: Setup, original: Option<string>, s: Loop, r: Loop, a: Attempt)
    requires LoopInv(setup, original, s) && Running(s, |s.attempts|)
    requires r.attempts == s.attempts + [a] && AttemptFacts(setup, a, |s.attempts| + 1) && |r.sent| == |s.sent| + 1
    requires if Passed(a) then r.target == Some(a.output.value.output) && r.written == s.written + [a.output.value.output]
                               && Acceptable(setup, a.output.value.output)
             else r.target == s.target && r.written == s.written
    ensures LoopInv(setup, original, r)
  {
    hide Acceptable, AttemptFacts;
    var n := |s.attempts|;
    assert r.attempts[..n] == s.attempts;
    assert PassedOutputs(r.attempts) == PassedOutputs(s.attempts) + (if Passed(a) then [a.output.value.output] else []);
    assert LatestPassed(r.attempts) == (if Passed(a) then Some(a.output.value.output) else LatestPassed(s.attempts));
    forall i | 0 <= i < |r.attempts| ensures AttemptFacts(setup, r.attempts[i], i + 1) {
      if i < n { assert r.attempts[i] == s.attempts[i]; }
    }
    forall i | 0 <= i < |r.attempts| - 1 ensures r.attempts[i].cause.kind != RepairAccepted {
      assert r.attempts[i] == s.attempts[i];
    }
  }

  lemma IterateKeeps(setup: Setup, original: Option<string>, s: Loop, k: nat)
    requires 1 <= k <= setup.budget && LoopInv(setup, original, s) && Running(s, k - 1)
    ensures var r := Iterate(setup, s, k);
            LoopInv(setup, original, r) && (if r.outcome.Some? then Ended(setup, r) else Running(r, k) && k < setup.budget)
  {
    hide Acceptable, AttemptFacts, LatestPassed, PassedOutputs, Iterate;
    var r := Iterate(setup, s, k);
    IterateAppends(setup, s, k);
    AppendFacts(setup, original, s, r, r.attempts[k - 1]);
    IterateEnds(setup, s, k);
  }

  /** What one attempt adds. */
  lemma IterateAppends(setup: Setup, s: Loop, k: nat)
    requires k == |s.attempts| + 1
    ensures var r := Iterate(setup, s, k);
            && |r.attempts| == k && r.attempts == s.attempts + [r.attempts[k - 1]]
            && AttemptFacts(setup, r.attempts[k - 1], k) && |r.sent| == |s.sent| + 1
            && var a := r.attempts[k - 1];
            if Passed(a) then r.target == Some(a.output.value.output) && r.written == s.written + [a.output.value.output]
                              && Acceptable(setup, a.output.value.output)
            else r.target == s.target && r.written == s.written
  {
    hide Validate, ClassifyChecks, RunChecks, FailureText, Acceptable, ChecksPassed, Strip;
    if Invoke(setup.replies(k)).Text? {
      AcceptedIsAcceptable(setup, Invoke(setup.replies(k)).text);
      RejectedKind(setup, Invoke(setup.replies(k)).text);
    }
    ChecksAgree(setup, k);
  }

  /** How one attempt ends the loop or leaves it running. */
  lemma IterateEnds(setup: Setup, s: Loop, k: nat)
    requires 1 <= k <= setup.budget && Running(s, k - 1)
    ensures var r := Iterate(setup, s, k);
            if r.outcome.Some? then Ended(setup, r) else Running(r, k) && k < setup.budget
  {
    hide Validate, ClassifyChecks, RunChecks, FailureText, ChecksPassed, Strip;
    if Invoke(setup.replies(k)).Text? { RejectedKind(setup, Invoke(setup.replies(k)).text); }
    ChecksAgree(setup, k);
  }

  lemma RejectedKind(setup: Setup, text: string)
    ensures var v := Validate(text, setup.required, setup.strict, setup.banned);
            v.Rejected? ==> v.failure.kind != RepairAccepted
  {
    hide Strip, Contains, LooksLikeFence, NormalizeOutput;
  }

  lemma {:induction false} RunLoopKeeps(setup: Setup, target: Option<string>, failureOutput: string,
                                        cause: Classification, n: nat)
    requires n <= setup.budget || n == 0
    ensures var s := RunLoop(setup, Start(target, failureOutput, cause), n);
            && LoopInv(setup, target, s)
            && (if s.outcome.Some? then Ended(setup, s) else Running(s, n))
            && (n == setup.budget && n > 0 ==> s.outcome.Some?)
  {
    hide Iterate, LoopInv, Ended;
    if n == 0 {
      StartFacts(setup, target, failureOutput, cause);
    } else {
      RunLoopKeeps(setup, target, failureOutput, cause, n - 1);
      var before := RunLoop(setup, Start(target, failureOutput, cause), n - 1);
      if before.outcome.None? { IterateKeeps(setup, target, before, n); }
    }
  }

  lemma StartFacts(setup: Setup, target: Option<string>, failureOutput: string, cause: Classification)
    ensures LoopInv(setup, target, Start(target, failureOutput, cause))
    ensures Running(Start(target, failureOutput, cause), 0)
  {
  }

  // ---------------------------------------------------------------- main results

  /** For every budget of at least one: attempts are numbered from 1 within the budget, the run
      completes exactly when its last attempt was accepted (no earlier one was), and otherwise the
      whole budget was used and a support report written. The code after the loop is never reached. */
  lemma BudgetedRun(setup: Setup, target: Option<string>, failureOutput: string, cause: Classification)
    requires setup.budget >= 1
    ensures var s := Run(setup, true, target, failureOutput, cause);
            && s == RunLoop(setup, Start(target, failureOutput, cause), setup.budget)
            && Ended(setup, s) && LoopInv(setup, target, s)
  {
    RunLoopKeeps(setup, target, failureOutput, cause, setup.budget);
  }

  /** With no budget nothing is sent, nothing is written, and there is no support report. */
  lemma RunWithoutBudget(setup: Setup, target: Option<string>, failureOutput: string, cause: Classification)
    ensures var s := Run(setup, true, target, failureOutput, cause);
            setup.budget <= 0 <==> s.attempts == []
    ensures var s := Run(setup, true, target, failureOutput, cause);
            setup.budget <= 0 ==> s.outcome == Some(Outcome(BudgetExceeded, false, false, false))
                                  && s.target == target && s.sent == [] && !s.supportReport
  {
    if setup.budget >= 1 { BudgetedRun(setup, target, failureOutput, cause); }
  }

  /** The target ends with the output of the latest attempt that passed validation, or untouched; what
      was written to it is exactly the outputs of the attempts marked applied, in order, and all of it
      was acceptable. */
  lemma TargetHoldsLatestAccepted(setup: Setup, execute: bool, target: Option<string>, failureOutput: string,
                                  cause: Classification)
    ensures var s := Run(setup, execute, target, failureOutput, cause);
            && s.target == (if LatestPassed(s.attempts).Some? then LatestPassed(s.attempts) else target)
            && s.written == PassedOutputs(s.attempts) && (forall w | w in s.written :: Acceptable(setup, w))
            && (forall i | 0 <= i < |s.attempts| :: s.attempts[i].applied <==> Passed(s.attempts[i]))
            && (!execute ==> s.attempts == [] && s.sent == [] && s.outcome == Some(Outcome(DryRun, false, false, false)))
  {
    hide Acceptable;
    StartFacts(setup, target, failureOutput, cause);
    if setup.budget >= 1 { BudgetedRun(setup, target, failureOutput, cause); }
  }

  // ---------------------------------------------------------------- told from the replies

  /** The reply to attempt `k` is the text of a non-empty file with every required API string and no
      disallowed domain. */
  ghost predicate Validated(setup: Setup, k: nat) {
    && setup.replies(k).Response?
    && exists output :: && Carries(setup.replies(k).text, setup.strict, output)
                        && output != "" && HoldsAll(output, setup.required) && !setup.banned(output)
  }

  /** Attempt `k` would succeed: its reply passes validation and every check asked for passes. */
  ghost predicate Wins(setup: Setup, k: nat) {
    && Validated(setup, k)
    && (setup.runsRuff ==> setup.checks(k).ruff.passed) && (setup.hasTests ==> setup.checks(k).pytest.passed)
  }

  lemma ValidatedIs(setup: Setup, k: nat)
    ensures var reply := Invoke(setup.replies(k));
            Validated(setup, k) <==>
            reply.Text? && Validate(reply.text, setup.required, setup.strict, setup.banned).Accepted?
  {
    hide Validate, Strip, Carries, HoldsAll;
    if setup.replies(k).Response? {
      var text := setup.replies(k).text;
      forall output { AcceptedAs(text, setup.required, setup.strict, setup.banned, output); }
      if Strip(text) == "" { BlankIsNotValidated(setup, k, text); }
    }
  }

  lemma BlankIsNotValidated(setup: Setup, k: nat, text: string)
    requires setup.replies(k) == Response(text) && Strip(text) == ""
    ensures !Validated(setup, k)
  {
    hide Strip, HoldsAll, FenceBody;
    EmptyIsNoFence();
  }

  lemma ChecksPassedIs(setup: Setup, k: nat)
    ensures ChecksPassed(setup, RunChecks(setup, k)) <==>
            (setup.runsRuff ==> setup.checks(k).ruff.passed) && (setup.hasTests ==> setup.checks(k).pytest.passed)
  {
  }

  /** The model gave no answer. */
  ghost predicate NoAnswer(a: Attempt, kind: Kind) {
    a.cause == Classification(kind, LocalRuntime) && a.output.None? && a.ran.None?
  }

  /** The text points to test fixtures or imports. */
  ghost predicate TestWiring(text: string) {
    || Embeds(text, "fixture '") || Embeds(text, "fixture \"") || Embeds(text, "importerror while importing test module")
    || Embeds(text, "module not found") || Embeds(text, "cannot import name") || Embeds(text, "attributeerror: module")
  }

  lemma TestWiringIs(text: string)
    ensures (exists k :: 0 <= k < |TEST_WIRING| && Contains(text, TEST_WIRING[k])) <==> TestWiring(text)
  {
    hide Contains, Embeds;
    forall k | 0 <= k < |TEST_WIRING| ensures Contains(text, TEST_WIRING[k]) <==> Embeds(text, TEST_WIRING[k]) {
      ContainsExactly(text, TEST_WIRING[k]);
    }
    assert TEST_WIRING[0] == "fixture '" && TEST_WIRING[1] == "fixture \"";
    assert TEST_WIRING[2] == "importerror while importing test module" && TEST_WIRING[3] == "module not found";
    assert TEST_WIRING[4] == "cannot import name" && TEST_WIRING[5] == "attributeerror: module";
  }

  /** The cause recorded after the checks of attempt `k`. */
  ghost predicate CheckCause(setup: Setup, k: nat, cause: Classification) {
    var ruff, pytest := setup.checks(k).ruff, setup.checks(k).pytest;
    if setup.runsRuff && !ruff.passed then
      var lowered := setup.lower(FormatOutput(ruff));
      if Embeds(lowered, "fixture") || Embeds(lowered, "importerror") || Embeds(lowered, "cannot import name")
      then cause == Classification(ContractViolation, TestOwner)
      else cause == Classification(RuffFailure, if setup.targetInTests then TestOwner else Developer)
    else if setup.hasTests && !pytest.passed then
      && cause.kind == PytestFailure && cause.owner in {TestOwner, Developer}
      && (cause.owner == TestOwner <==> TestWiring(setup.lower(FormatOutput(pytest))))
    else cause == Classification(RepairAccepted, Developer)
  }

  /** Attempt `k` as recorded, told from its reply and its checks: a check is on record with the result it
      had, ruff when the target is checked by it, pytest when there are tests and ruff did not fail. */
  ghost predicate AttemptTold(setup: Setup, k: nat, a: Attempt) {
    && (Passed(a) <==> Validated(setup, k)) && (a.cause.kind == RepairAccepted <==> Wins(setup, k))
    && match setup.replies(k)
       case TimedOut => NoAnswer(a, LocalModelTimeout)
       case ConnectionFailed => NoAnswer(a, LocalModelConnectionError)
       case OtherFailure => NoAnswer(a, LocalModelRuntimeError)
       case Response(text) =>
         if Strip(text) == "" then NoAnswer(a, LocalModelRuntimeError)
         else if Validated(setup, k) then
           && Passed(a) && Carries(text, setup.strict, a.output.value.output) && CheckCause(setup, k, a.cause)
           && a.ran.Some? && a.ran.value.ruff == (if setup.runsRuff then Some(setup.checks(k).ruff) else None)
           && a.ran.value.pytest == (if setup.hasTests && (setup.runsRuff ==> setup.checks(k).ruff.passed)
                                     then Some(setup.checks(k).pytest) else None)
         else
           && a.output == Some(Rejected(a.cause)) && a.ran.None? && a.cause.owner == Developer
           && RejectedAs(text, setup.required, setup.strict, setup.banned, a.cause.kind)
  }

  lemma CauseIsTold(setup: Setup, k: nat)
    ensures CheckCause(setup, k, ClassifyChecks(setup, RunChecks(setup, k)))
  {
    hide Contains, Embeds, FormatOutput, TestWiring, TEST_WIRING;
    var ruff, pytest := setup.lower(FormatOutput(setup.checks(k).ruff)), setup.lower(FormatOutput(setup.checks(k).pytest));
    ContainsExactly(ruff, "fixture");
    ContainsExactly(ruff, "importerror");
    ContainsExactly(ruff, "cannot import name");
    TestWiringIs(pytest);
  }

  ghost predicate NeverWins(setup: Setup) {
    forall k: nat | 1 <= k <= setup.budget :: !Wins(setup, k)
  }

  lemma IterateIsJudged(setup: Setup, s: Loop, k: nat)
    ensures var r := Iterate(setup, s, k);
            && |r.attempts| == |s.attempts| + 1 && r.attempts[..|s.attempts|] == s.attempts
            && AttemptTold(setup, k, r.attempts[|s.attempts|])
  {
    hide Validate, ClassifyChecks, FailureText, ChecksPassed, Strip, Validated, Carries, RejectedAs, CheckCause;
    ChecksAgree(setup, k);
    ChecksPassedIs(setup, k);
    CauseIsTold(setup, k);
    ValidatedIs(setup, k);
    InvokeNeverAccepts(setup.replies(k));
    if Invoke(setup.replies(k)).Text? {
      var text := Invoke(setup.replies(k)).text;
      RejectedKind(setup, text);
      match Validate(text, setup.required, setup.strict, setup.banned)
      case Accepted(output) => AcceptedAs(text, setup.required, setup.strict, setup.banned, output);
      case Rejected(failure) => RejectedExactly(text, setup.required, setup.strict, setup.banned, failure);
    }
  }

  lemma InvokeNeverAccepts(raw: RawReply)
    ensures Invoke(raw).ModelFailed? ==> Invoke(raw).failure.kind != RepairAccepted
  {
    hide Strip;
  }

  /** Attempt by attempt, the records agree with the replies and check results. */
  ghost predicate Judged(setup: Setup, attempts: seq<Attempt>) {
    forall i: nat | i < |attempts| :: AttemptTold(setup, i + 1, attempts[i])
  }

  lemma {:induction false} AttemptsAreJudged(setup: Setup, start: Loop, n: nat)
    requires start.attempts == [] && start.outcome.None?
    ensures var s := RunLoop(setup, start, n);
            |s.attempts| <= n && (s.outcome.None? ==> |s.attempts| == n) && Judged(setup, s.attempts)
  {
    hide Iterate, AttemptTold;
    if n > 0 {
      var before := RunLoop(setup, start, n - 1);
      AttemptsAreJudged(setup, start, n - 1);
      if before.outcome.None? {
        IterateIsJudged(setup, before, n);
        var after := Iterate(setup, before, n);
        assert forall i: nat | i < n - 1 :: after.attempts[i] == after.attempts[..n - 1][i];
      }
    }
  }

  /** The run told from the replies and check results: it completes exactly when some attempt within the
      budget wins, stops at the first that does, and passes validation exactly where the reply does. */
  ghost predicate Foretold(setup: Setup, s: Loop) {
    && s.outcome.Some? && 1 <= |s.attempts| <= setup.budget
    && (s.outcome.value.status == CompletedStatus <==> !NeverWins(setup))
    && (s.outcome.value.status == CompletedStatus <==> Wins(setup, |s.attempts|))
    && (NeverWins(setup) ==> |s.attempts| == setup.budget)
    && (forall k: nat | 1 <= k < |s.attempts| :: !Wins(setup, k))
    && Judged(setup, s.attempts)
  }

  lemma ToldVerdicts(setup: Setup, attempts: seq<Attempt>)
    requires Judged(setup, attempts)
    ensures forall i: nat | i < |attempts| ::
              && (Passed(attempts[i]) <==> Validated(setup, i + 1))
              && (attempts[i].cause.kind == RepairAccepted <==> Wins(setup, i + 1))
  {
    hide Passed, Validated, Wins, CheckCause, Carries, RejectedAs, NoAnswer;
    forall i: nat | i < |attempts|
      ensures Passed(attempts[i]) <==> Validated(setup, i + 1)
      ensures attempts[i].cause.kind == RepairAccepted <==> Wins(setup, i + 1)
    {
      assert AttemptTold(setup, i + 1, attempts[i]);
    }
  }

  lemma EndedIsForetold(setup: Setup, s: Loop)
    requires Ended(setup, s) && Judged(setup, s.attempts)
    requires forall i | 0 <= i < |s.attempts| - 1 :: s.attempts[i].cause.kind != RepairAccepted
    ensures Foretold(setup, s)
  {
    hide Passed, Validated, Wins, AttemptTold;
    ToldVerdicts(setup, s.attempts);
    var n := |s.attempts|;
    forall k: nat | 1 <= k < n ensures !Wins(setup, k) {
      assert s.attempts[k - 1].cause.kind != RepairAccepted;
    }
    assert s.attempts[n - 1].cause.kind == RepairAccepted <==> Wins(setup, n);
  }

  lemma {:induction false} RunForetold(setup: Setup, target: Option<string>, failureOutput: string,
                                       cause: Classification)
    requires setup.budget >= 1
    ensures Foretold(setup, Run(setup, true, target, failureOutput, cause))
  {
    BudgetedRun(setup, target, failureOutput, cause);
    AttemptsAreJudged(setup, Start(target, failureOutput, cause), setup.budget);
    hide Run, RunLoop, Judged, Foretold, Ended, AttemptFacts, Acceptable, LatestPassed, PassedOutputs;
    EndedIsForetold(setup, Run(setup, true, target, failureOutput, cause));
  }

  /** No attempt wins, the reply at the budget fails validation, and an earlier one was written. */
  ghost predicate HidesAWrite(setup: Setup) {
    && NeverWins(setup) && setup.budget >= 1 && !Validated(setup, setup.budget)
    && exists k: nat :: 1 <= k < setup.budget && Validated(setup, k)
  }

  lemma AppliedFrom(setup: Setup, original: Option<string>, s: Loop)
    requires Foretold(setup, s) && Ended(setup, s) && LoopInv(setup, original, s)
    ensures (s.outcome.value.applied <==> s.written != []) <==> !HidesAWrite(setup)
    ensures s.outcome.value.applied ==> s.written != []
  {
    hide Passed, Validated, Wins, NeverWins, AttemptTold, AttemptFacts, Acceptable, PassedOutputs;
    ToldVerdicts(setup, s.attempts);
    var n := |s.attempts|;
    LatestPassedExists(s.attempts);
    WinsAreValidated(setup, n);
    assert Passed(s.attempts[n - 1]) <==> Validated(setup, n);
    if NeverWins(setup) {
      if exists k: nat :: 1 <= k < n && Validated(setup, k) {
        var k: nat :| 1 <= k < n && Validated(setup, k);
        assert Passed(s.attempts[k - 1]);
      } else {
        forall i | 0 <= i < n - 1 ensures !Passed(s.attempts[i]) { assert !Validated(setup, i + 1); }
      }
    }
  }

  /** The result's `applied` flag hides an earlier write exactly when no attempt wins, the reply at the
      budget fails validation and an earlier one passed; otherwise it tells whether the target was
      written. */
  lemma {:induction false} AppliedFlagExactly(setup: Setup, target: Option<string>, failureOutput: string,
                                              cause: Classification)
    requires setup.budget >= 1
    ensures var s := Run(setup, true, target, failureOutput, cause);
            && s.outcome.Some? && (s.outcome.value.applied ==> s.written != [])
            && ((s.outcome.value.applied <==> s.written != []) <==> !HidesAWrite(setup))
  {
    BudgetedRun(setup, target, failureOutput, cause);
    RunForetold(setup, target, failureOutput, cause);
    hide Run, RunLoop, Judged, LoopInv, HidesAWrite;
    AppliedFrom(setup, target, Run(setup, true, target, failureOutput, cause));
  }

  lemma WinsAreValidated(setup: Setup, k: nat)
    ensures Wins(setup, k) ==> Validated(setup, k)
  {
    hide Validated;
  }

  lemma {:induction false} LatestPassedExists(attempts: seq<Attempt>)
    ensures LatestPassed(attempts).None? <==> forall i | 0 <= i < |attempts| :: !Passed(attempts[i])
  {
    if attempts != [] {
      LatestPassedExists(attempts[..|attempts| - 1]);
    }
  }

  /** The last attempt is labelled exhausted exactly when no attempt wins and the reply at the budget
      fails validation; when it is the checks that fail there, the label stays within budget. */
  lemma {:induction false} LastLabelExactly(setup: Setup, target: Option<string>, failureOutput: string,
                                            cause: Classification)
    requires setup.budget >= 1
    ensures var s := Run(setup, true, target, failureOutput, cause);
            |s.attempts| > 0 &&
            (s.attempts[|s.attempts| - 1].budgetStatus == Exhausted <==> NeverWins(setup) && !Validated(setup, setup.budget))
  {
    BudgetedRun(setup, target, failureOutput, cause);
    RunForetold(setup, target, failureOutput, cause);
    hide Run, RunLoop, Passed, Validated, Wins, NeverWins, Acceptable, PassedOutputs, LatestPassed;
    var s := Run(setup, true, target, failureOutput, cause);
    var n := |s.attempts|;
    WinsAreValidated(setup, n);
    assert AttemptFacts(setup, s.attempts[n - 1], n);
    assert Passed(s.attempts[n - 1]) <==> Validated(setup, n);
  }

  /** Two attempts: the first reply, one character, is written and fails its check, then the model times out. */
  function TimeoutAfterWrite(c: char): Setup {
    var failed := CommandResult(false, "1 failed");
    Setup(2, [], true, _ => false, false, true, false, s => s, k => if k == 1 then Response([c]) else TimedOut,
          _ => Checks(failed, failed))
  }

  /** A text without outer space and too short for a fence is accepted as it stands. */
  lemma ShortTextIsAccepted(text: string, banned: string -> bool)
    requires 0 < |text| < 3 && !IsSpace(text[0]) && !IsSpace(text[|text| - 1]) && !banned(text)
    ensures Validate(text, [], true, banned) == Accepted(text)
  {
    StripKeeps(text);
    hide Strip, Contains;
    assert !StartsWith(text, "```") && !StartsWith(text, "~~~");
  }

  lemma ShortReplyIsValidated(setup: Setup, k: nat, text: string)
    requires setup.replies(k) == Response(text) && setup.required == [] && setup.strict && !setup.banned(text)
    requires 0 < |text| < 3 && !IsSpace(text[0]) && !IsSpace(text[|text| - 1])
    ensures Validated(setup, k)
  {
    StripKeeps(text);
    ShortTextIsAccepted(text, setup.banned);
    hide Validate, Strip, IsSpace;
  }

  lemma TimeoutIsNotValidated(setup: Setup, k: nat)
    requires setup.replies(k) == TimedOut
    ensures !Validated(setup, k)
  {
    hide Validate, Strip;
  }

  lemma RepliesOfTimeoutAfterWrite(c: char)
    requires !IsSpace(c)
    ensures Validated(TimeoutAfterWrite(c), 1) && !Validated(TimeoutAfterWrite(c), 2)
  {
    hide Validated;
    ShortReplyIsValidated(TimeoutAfterWrite(c), 1, [c]);
    TimeoutIsNotValidated(TimeoutAfterWrite(c), 2);
  }

  lemma ChecksAlwaysFail(c: char, k: nat)
    ensures !Wins(TimeoutAfterWrite(c), k)
  {
    hide Validated;
    var setup := TimeoutAfterWrite(c);
    assert !ChecksPassed(setup, RunChecks(setup, k));
  }

  /** The concrete failure: at those inputs the target is written, and `applied` is false. */
  lemma {:induction false} AppliedFlagCanHideAWrite(c: char, target: Option<string>, failureOutput: string,
                                                   cause: Classification)
    requires !IsSpace(c)
    ensures var s := Run(TimeoutAfterWrite(c), true, target, failureOutput, cause);
            s.outcome.Some? && s.written != [] && !s.outcome.value.applied
  {
    hide Run, Validated, Wins;
    var setup := TimeoutAfterWrite(c);
    forall k: nat ensures !Wins(setup, k) { ChecksAlwaysFail(c, k); }
    RepliesOfTimeoutAfterWrite(c);
    assert HidesAWrite(setup);
    hide TimeoutAfterWrite, HidesAWrite;
    AppliedFlagExactly(setup, target, failureOutput, cause);
  }

  lemma SameButForBudget(setup: Setup, budget: int, k: nat)
    ensures Validated(setup.(budget := budget), k) == Validated(setup, k)
    ensures Wins(setup.(budget := budget), k) == Wins(setup, k)
  {
    hide Validate, ChecksPassed;
    assert RunChecks(setup.(budget := budget), k) == RunChecks(setup, k);
    SameChecksPassed(setup, budget, RunChecks(setup, k));
  }

  lemma SameChecksPassed(setup: Setup, budget: int, ran: Ran)
    ensures ChecksPassed(setup.(budget := budget), ran) == ChecksPassed(setup, ran)
  {
  }

  /** The concrete failure, with a budget of one: the only reply is written and fails its check, so the
      run does not complete, and yet the attempt is labelled within budget. */
  lemma {:induction false} FailedCheckIsLabelledWithinBudget(c: char, target: Option<string>, failureOutput: string,
                                                            cause: Classification)
    requires !IsSpace(c)
    ensures var s := Run(TimeoutAfterWrite(c).(budget := 1), true, target, failureOutput, cause);
            && s.outcome.Some? && s.outcome.value.status != CompletedStatus
            && |s.attempts| == 1 && s.attempts[0].budgetStatus == WithinBudget
  {
    hide Run, Validated, Wins, Judged, TimeoutAfterWrite;
    var setup := TimeoutAfterWrite(c).(budget := 1);
    forall k: nat ensures !Wins(setup, k) {
      ChecksAlwaysFail(c, k);
      SameButForBudget(TimeoutAfterWrite(c), 1, k);
    }
    RepliesOfTimeoutAfterWrite(c);
    SameButForBudget(TimeoutAfterWrite(c), 1, 1);
    LastLabelExactly(setup, target, failureOutput, cause);
    RunForetold(setup, target, failureOutput, cause);
  }

  // ---------------------------------------------------------------- prompts

  /** The target's content before each attempt. */
  function ContentBefore(setup: Setup, start: Loop, i: nat): string {
    Content(RunLoop(setup, start, i).target)
  }

  lemma IterateSends(setup: Setup, s: Loop, k: nat)
    ensures Iterate(setup, s, k).sent == s.sent + [s.prompt]
  {
    hide Validate, ClassifyChecks, RunChecks, FailureText, Invoke;
  }

  /** Every prompt sent shows the target exactly as it is when the prompt is sent. */
  lemma {:induction false} PromptsAreCurrent(setup: Setup, target: Option<string>, failureOutput: string,
                                             cause: Classification, n: nat)
    requires n <= setup.budget || n == 0
    ensures var start := Start(target, failureOutput, cause);
            var s := RunLoop(setup, start, n);
            |s.sent| == |s.attempts| <= n
            && (|s.sent| > 0 ==> s.sent[0] == Prompt(if target.Some? then target.value else "", failureOutput, cause))
            && forall i: nat | i < |s.sent| :: s.sent[i].fileContent == ContentBefore(setup, start, i)
  {
    hide Iterate, LoopInv, Ended;
    if n > 0 {
      var start := Start(target, failureOutput, cause);
      var before := RunLoop(setup, start, n - 1);
      PromptsAreCurrent(setup, target, failureOutput, cause, n - 1);
      RunLoopKeeps(setup, target, failureOutput, cause, n - 1);
      RunLoopKeeps(setup, target, failureOutput, cause, n);
      SentMatchesAttempts(setup, target, RunLoop(setup, start, n));
      if before.outcome.None? {
        SentMatchesAttempts(setup, target, before);
        IterateSends(setup, before, n);
      }
    }
  }

  /** The prompt for the next attempt: unchanged after a model failure; after a rejected reply it
      carries that reply, after failed checks their output; and always the cause on record. */
  ghost predicate NextPromptFollows(setup: Setup, s: Loop) {
    var n := |s.attempts|;
    n > 0 && |s.sent| == n && s.outcome.None? ==>
      if !setup.replies(n).Response? || Strip(setup.replies(n).text) == "" then s.prompt == s.sent[n - 1]
      else
        && s.prompt.cause == s.attempts[n - 1].cause
        && s.prompt.failureOutput ==
           if !Validated(setup, n) then setup.replies(n).text
           else if setup.runsRuff && !setup.checks(n).ruff.passed then FormatOutput(setup.checks(n).ruff)
           else FormatOutput(setup.checks(n).pytest)
  }

  lemma FailedCheckIs(setup: Setup, k: nat)
    ensures var text := FailureText(RunChecks(setup, k));
            || text == ""
            || text == if setup.runsRuff && !setup.checks(k).ruff.passed then FormatOutput(setup.checks(k).ruff)
                       else FormatOutput(setup.checks(k).pytest)
  {
  }

  lemma IterateFollows(setup: Setup, s: Loop, k: nat)
    requires |s.sent| == |s.attempts| == k - 1
    ensures NextPromptFollows(setup, Iterate(setup, s, k))
  {
    hide Validate, ClassifyChecks, RunChecks, FailureText, FormatOutput, Strip, Validated;
    ValidatedIs(setup, k);
    FailedCheckIs(setup, k);
  }

  /** Retries carry the evidence: each next prompt names the cause and gives the very text of the latest
      failure, and a model failure repeats the prompt unchanged. */
  lemma {:induction false} PromptsFollowFailures(setup: Setup, target: Option<string>, failureOutput: string,
                                                 cause: Classification, n: nat)
    requires n <= setup.budget || n == 0
    ensures NextPromptFollows(setup, RunLoop(setup, Start(target, failureOutput, cause), n))
  {
    hide Iterate, LoopInv, Ended;
    if n > 0 {
      PromptsFollowFailures(setup, target, failureOutput, cause, n - 1);
      RunLoopKeeps(setup, target, failureOutput, cause, n - 1);
      var before := RunLoop(setup, Start(target, failureOutput, cause), n - 1);
      SentMatchesAttempts(setup, target, before);
      if before.outcome.None? { IterateFollows(setup, before, n); }
    }
  }

  lemma SentMatchesAttempts(setup: Setup, original: Option<string>, s: Loop)
    requires LoopInv(setup, original, s)
    ensures |s.sent| == |s.attempts|
  {
  }

  // ---------------------------------------------------------------- the loop in place

  class RepairState {
    var attempts: seq<Attempt>
    var target: Option<string>
    var currentPrompt: Prompt
    var written: seq<string>
    var supportReport: bool
    ghost var sent: seq<Prompt>

    ghost function Value(outcome: Option<Outcome>): Loop
      reads this
    {
      Loop(attempts, target, currentPrompt, sent, written, supportReport, outcome)
    }

    constructor (content: Option<string>, failureOutput: string, cause: Classification)
      ensures Value(None) == Start(content, failureOutput, cause)
    {
      attempts, target, written, supportReport, sent := [], content, [], false, [];
      currentPrompt := Prompt(Content(content), failureOutput, cause);
    }

    /** Records a failed attempt; with the budget spent, writes the support report. */
    method RecordFailure(setup: Setup, attempt: Attempt, status: Status) returns (outcome: Option<Outcome>)
      modifies this`attempts, this`supportReport
      ensures Value(outcome) == GiveUpIfSpent(setup, old(Value(None)).(attempts := old(attempts) + [attempt]),
                                              attempt.number, status, attempt.applied)
    {
      attempts := attempts + [attempt];
      outcome := None;
      if attempt.number >= setup.budget {
        supportReport := true;
        outcome := Some(Outcome(status, attempt.applied, attempt.applied && written != [], true));
      }
    }

    method Attempt(setup: Setup, k: nat) returns (outcome: Option<Outcome>)
      modifies this
      ensures Value(outcome) == Iterate(setup, old(Value(None)), k)
    {
      hide Validate, ClassifyChecks, RunChecks, FailureText, Invoke;
      sent := sent + [currentPrompt];
      match Invoke(setup.replies(k))
      case ModelFailed(failure) =>
        outcome := RecordFailure(setup, RepairModel.Attempt(k, failure, None, false, Label(setup, k), None),
                                 RuntimeFailed(failure.kind));
      case Text(text) =>
        match Validate(text, setup.required, setup.strict, setup.banned)
        case Rejected(failure) =>
          outcome := RecordFailure(setup, RepairModel.Attempt(k, failure, Some(Rejected(failure)), false, Label(setup, k), None),
                                   BudgetExceeded);
          if outcome.None? { currentPrompt := Prompt(Content(target), text, failure); }
        case Accepted(output) =>
          target, written := Some(output), written + [output];
          var ran := RunChecks(setup, k);
          var cause := ClassifyChecks(setup, ran);
          var attempt := RepairModel.Attempt(k, cause, Some(Accepted(output)), true, WithinBudget, Some(ran));
          if FailureText(ran) == "" {
            attempts := attempts + [attempt];
            return Some(Outcome(CompletedStatus, true, true, false));
          }
          outcome := RecordFailure(setup, attempt, BudgetExceeded);
          if outcome.None? { currentPrompt := Prompt(Content(target), FailureText(ran), cause); }
    }

    /** The for loop of run_local_repair_loop and the code after it. */
    method RunLocalRepairLoop(setup: Setup) returns (outcome: Outcome)
      modifies this
      ensures Value(Some(outcome)) == Finish(setup, old(Value(None)))
    {
      hide Iterate;
      ghost var start := Value(None);
      var limit := if setup.budget > 0 then setup.budget else 0;
      for k := 1 to limit + 1
        invariant Value(None) == RunLoop(setup, start, k - 1)
      {
        var ended := Attempt(setup, k);
        if ended.Some? {
          assert Value(ended) == RunLoop(setup, start, k);
          EndedStays(setup, start, k, limit);
          return ended.value;
        }
      }
      outcome := Outcome(BudgetExceeded, written != [], written != [], supportReport);
    }
  }

  lemma {:induction false} EndedStays(setup: Setup, s: Loop, k: nat, n: nat)
    requires k <= n && RunLoop(setup, s, k).outcome.Some?
    ensures RunLoop(setup, s, n) == RunLoop(setup, s, k)
  {
    hide Iterate;
    if k < n { EndedStays(setup, s, k, n - 1); }
  }
}
