/** The role-based runner: one agent role after another, stopping at the first failure
    (the role loop of run_local_execution in src/agentic_dev/local_execution.py). */
module RoleRunner {
  import opened Common

  type Role = string

  datatype ExecutionStatus = Started | Finished | Stuck

  datatype Execution = Execution(status: ExecutionStatus, attempt: nat)

  datatype RunStatus = RunRunning | RunBlocked | RunCompleted

  datatype State = State(status: RunStatus, current: Option<Role>, completed: seq<Role>, blocked: seq<Role>,
                         executions: map<Role, Execution>)

  /** What running a role would give: no model to call, a failure of any kind, or success. */
  datatype Outcome = NoModel | Fails | Succeeds

  type Outcomes = Role -> Outcome

  const FRESH := State(RunRunning, None, [], [], map[])

  /** The state, every version of the state file, and whether the loop was left by `break`. */
  datatype Machine = Machine(state: State, log: seq<State>, stopped: bool)

  predicate IsDone(s: State, role: Role) {
    role in s.executions && s.executions[role].status == Finished
  }

  function AttemptOf(s: State, role: Role): nat {
    if role in s.executions then s.executions[role].attempt else 0
  }

  function Persist(m: Machine, s: State): Machine {
    m.(state := s, log := m.log + [s])
  }

  function Start(s: State, role: Role): State {
    s.(status := RunRunning, current := Some(role),
       executions := s.executions[role := Execution(Started, AttemptOf(s, role) + 1)])
  }

  /** finalize_failure */
  function Fail(s: State, role: Role): State {
    s.(status := RunBlocked, current := Some(role), blocked := AppendOnce(s.blocked, role),
       executions := s.executions[role := Execution(Stuck, AttemptOf(s, role))])
  }

  /** complete_role and the audit entry's new status */
  function Complete(s: State, role: Role): State {
    s.(completed := AppendOnce(s.completed, role), blocked := Without(s.blocked, role),
       executions := s.executions[role := Execution(Finished, AttemptOf(s, role))])
  }

  function RunRole(m: Machine, role: Role, outcomes: Outcomes): Machine {
    if m.stopped || IsDone(m.state, role) then m
    else
      var running := Persist(m, Start(m.state, role));
      match outcomes(role)
      case NoModel => Persist(running, Fail(running.state, role)).(stopped := true)
      case Fails =>
        var s := Fail(running.state, role);
        Persist(Persist(running, s), s).(stopped := true)
      case Succeeds => Persist(running, Complete(running.state, role))
  }

  function RunRoles(m: Machine, roles: seq<Role>, n: nat, outcomes: Outcomes): Machine
    requires n <= |roles|
  {
    if n == 0 then m else RunRole(RunRoles(m, roles, n - 1, outcomes), roles[n - 1], outcomes)
  }

  /** The closing status: compares the number of completed roles with the number selected. */
  function Close(s: State, roles: seq<Role>): State {
    if s.blocked != [] then s.(status := RunBlocked)
    else if |s.completed| == |roles| then s.(status := RunCompleted, current := None)
    else s
  }

  function Run(existing: Option<State>, roles: seq<Role>, outcomes: Outcomes): Machine {
    var s := existing.GetOr(FRESH);
    var m := RunRoles(Machine(s, [s], false), roles, |roles|, outcomes);
    Persist(m, Close(m.state, roles))
  }

  // ---------------------------------------------------------------- the loop itself

  class ExecutionState {
    var status: RunStatus
    var currentRole: Option<Role>
    var completedRoles: seq<Role>
    var blockedRoles: seq<Role>
    var executions: map<Role, Execution>
    ghost var stateFile: seq<State>

    function Snapshot(): State
      reads this
    {
      State(status, currentRole, completedRoles, blockedRoles, executions)
    }

    constructor (existing: Option<State>)
      ensures Snapshot() == existing.GetOr(FRESH) && stateFile == [Snapshot()]
    {
      var s := existing.GetOr(FRESH);
      status, currentRole, completedRoles, blockedRoles, executions := s.status, s.current, s.completed, s.blocked, s.executions;
      stateFile := [s];
    }

    method WriteState()
      modifies this`stateFile
      ensures stateFile == old(stateFile) + [Snapshot()]
    {
      stateFile := stateFile + [Snapshot()];
    }

    method FinalizeFailure(role: Role)
      modifies this
      ensures Snapshot() == Fail(old(Snapshot()), role) && stateFile == old(stateFile) + [Snapshot()]
    {
      executions := executions[role := Execution(Stuck, AttemptOf(Snapshot(), role))];
      status, currentRole := RunBlocked, Some(role);
      if role !in blockedRoles { blockedRoles := blockedRoles + [role]; }
      WriteState();
    }

    /** One turn of the loop; `stop` asks for the `break`. */
    method AttemptRole(role: Role, outcome: Outcome) returns (stop: bool)
      requires !IsDone(Snapshot(), role)
      modifies this
      ensures Machine(Snapshot(), stateFile, stop) ==
              RunRole(Machine(old(Snapshot()), old(stateFile), false), role, _ => outcome)
    {
      var attempt := AttemptOf(Snapshot(), role) + 1;
      status, currentRole := RunRunning, Some(role);
      executions := executions[role := Execution(Started, attempt)];
      WriteState();
      stop := outcome != Succeeds;
      if outcome == Succeeds {
        executions := executions[role := Execution(Finished, attempt)];
        if role !in completedRoles { completedRoles := completedRoles + [role]; }
        blockedRoles := Without(blockedRoles, role);
        WriteState();
      } else {
        FinalizeFailure(role);
        if outcome == Fails { WriteState(); }
      }
    }

    method CloseRun(roles: seq<Role>)
      modifies this
      ensures Snapshot() == Close(old(Snapshot()), roles) && stateFile == old(stateFile) + [Snapshot()]
    {
      if blockedRoles != [] {
        status := RunBlocked;
      } else if |completedRoles| == |roles| {
        status, currentRole := RunCompleted, None;
      }
      WriteState();
    }

    method RunLocalExecution(roles: seq<Role>, outcomes: Outcomes)
      modifies this
      ensures var end := RunRoles(Machine(old(Snapshot()), old(stateFile), false), roles, |roles|, outcomes);
              Snapshot() == Close(end.state, roles) && stateFile == end.log + [Snapshot()]
    {
      hide Start, Fail, Complete;
      ghost var start := Machine(Snapshot(), stateFile, false);
      var k := 0;
      while k < |roles|
        invariant 0 <= k <= |roles|
        invariant Machine(Snapshot(), stateFile, false) == RunRoles(start, roles, k, outcomes)
      {
        if !IsDone(Snapshot(), roles[k]) {
          var stop := AttemptRole(roles[k], outcomes(roles[k]));
          if stop {
            assert Machine(Snapshot(), stateFile, true) == RunRoles(start, roles, k + 1, outcomes);
            StoppedStays(start, roles, k + 1, |roles|, outcomes);
            break;
          }
        }
        k := k + 1;
      }
      CloseRun(roles);
    }
  }

  lemma {:induction false} StoppedStays(m: Machine, roles: seq<Role>, k: nat, n: nat, outcomes: Outcomes)
    requires k <= n <= |roles| && RunRoles(m, roles, k, outcomes).stopped
    ensures RunRoles(m, roles, n, outcomes) == RunRoles(m, roles, k, outcomes)
  {
    if k < n {
      StoppedStays(m, roles, k, n - 1, outcomes);
    }
  }

  // ---------------------------------------------------------------- unfiltered runs

  /** Completed roles form a prefix of the agent order; only the first uncompleted role can be blocked. */
  ghost predicate InOrder(roles: seq<Role>, s: State) {
    && s.completed <= roles
    && (s.blocked == [] || (|s.completed| < |roles| && s.blocked == [roles[|s.completed|]]))
    && (forall r :: r in s.completed <==> IsDone(s, r))
  }

  ghost predicate LogInOrder(roles: seq<Role>, m: Machine) {
    InOrder(roles, m.state) && forall s | s in m.log :: InOrder(roles, s)
  }

  lemma NextIsNotDone(roles: seq<Role>, s: State)
    requires NoDuplicates(roles) && InOrder(roles, s) && |s.completed| < |roles|
    ensures roles[|s.completed|] !in s.completed && !IsDone(s, roles[|s.completed|])
    ensures s.completed + [roles[|s.completed|]] <= roles
  {
    var role := roles[|s.completed|];
    forall i | 0 <= i < |s.completed| ensures s.completed[i] != role { assert s.completed[i] == roles[i]; }
  }

  lemma CompleteInOrder(roles: seq<Role>, s: State)
    requires NoDuplicates(roles) && InOrder(roles, s) && |s.completed| < |roles|
    ensures var complete := Complete(s, roles[|s.completed|]);
            InOrder(roles, complete) && |s.completed| < |complete.completed|
  {
    NextIsNotDone(roles, s);
    WithoutOnly(roles[|s.completed|]);
    hide NoDuplicates;
  }

  lemma FailInOrder(roles: seq<Role>, s: State)
    requires NoDuplicates(roles) && InOrder(roles, s) && |s.completed| < |roles|
    ensures var failed := Fail(s, roles[|s.completed|]); InOrder(roles, failed) && failed.blocked != []
  {
    NextIsNotDone(roles, s);
    hide NoDuplicates;
  }

  /** Trying the next role of the order keeps the order, whatever comes of it. */
  lemma NextRoleInOrder(roles: seq<Role>, s: State)
    requires NoDuplicates(roles) && InOrder(roles, s) && |s.completed| < |roles|
    ensures var role := roles[|s.completed|];
            var running := Start(s, role);
            && !IsDone(s, role) && InOrder(roles, running)
            && InOrder(roles, Fail(running, role)) && Fail(running, role).blocked != []
            && InOrder(roles, Complete(running, role)) && |s.completed| < |Complete(running, role).completed|
  {
    hide NoDuplicates, Fail, Complete;
    NextIsNotDone(roles, s);
    var running := Start(s, roles[|s.completed|]);
    assert InOrder(roles, running);
    CompleteInOrder(roles, running);
    FailInOrder(roles, running);
  }

  /** Each role once, where it first occurs: a plan repeats a role when its blueprint declares it under
      two names. */
  function Distinct(roles: seq<Role>): (d: seq<Role>)
    ensures NoDuplicates(d) && forall r :: r in d <==> r in roles
  {
    if roles == [] then []
    else
      var n := |roles| - 1;
      assert roles == roles[..n] + [roles[n]];
      AppendOnce(Distinct(roles[..n]), roles[n])
  }

  lemma {:induction false} DistinctOfPrefix(roles: seq<Role>, n: nat)
    requires n <= |roles|
    ensures Distinct(roles[..n]) <= Distinct(roles)
  {
    if n < |roles| {
      DistinctOfPrefix(roles[..|roles| - 1], n);
      assert roles[..|roles| - 1][..n] == roles[..n];
    } else {
      assert roles[..n] == roles;
    }
  }

  lemma {:induction false} DistinctLength(roles: seq<Role>)
    ensures |Distinct(roles)| <= |roles|
    ensures |Distinct(roles)| == |roles| <==> NoDuplicates(roles)
    ensures NoDuplicates(roles) ==> Distinct(roles) == roles
  {
    hide NoDuplicates, Distinct;
    if roles == [] {
      NoRoles();
    } else {
      var n := |roles| - 1;
      DistinctLength(roles[..n]);
      DistinctLast(roles);
      assert roles == roles[..n] + [roles[n]];
      OneMore(roles[..n], roles[n]);
    }
  }

  lemma NoRoles()
    ensures Distinct([]) == [] && NoDuplicates<Role>([])
  {
  }

  lemma DistinctLast(roles: seq<Role>)
    requires roles != []
    ensures Distinct(roles) == AppendOnce(Distinct(roles[..|roles| - 1]), roles[|roles| - 1])
  {
  }

  /** Turn `n` of the loop either repeats a completed role or is the next one of the order. */
  lemma NextOrDone(roles: seq<Role>, n: nat, s: State)
    requires InOrder(Distinct(roles), s) && n < |roles| && |Distinct(roles[..n])| <= |s.completed|
    ensures |Distinct(roles[..n + 1])| <= |s.completed| + 1
    ensures roles[n] in s.completed ==> |Distinct(roles[..n + 1])| <= |s.completed|
    ensures roles[n] !in s.completed ==>
              |s.completed| < |Distinct(roles)| && Distinct(roles)[|s.completed|] == roles[n]
  {
    hide Distinct;
    DistinctOfPrefix(roles, n);
    DistinctOfPrefix(roles, n + 1);
    DistinctStep(roles, n);
    NextOrSeen(Distinct(roles), Distinct(roles[..n]), s.completed, roles[n]);
  }

  lemma DistinctStep(roles: seq<Role>, n: nat)
    requires n < |roles|
    ensures Distinct(roles[..n + 1]) == AppendOnce(Distinct(roles[..n]), roles[n])
  {
    assert roles[..n + 1][..n] == roles[..n];
  }

  lemma NextOrSeen(d: seq<Role>, seen: seq<Role>, completed: seq<Role>, role: Role)
    requires NoDuplicates(d) && seen <= d && AppendOnce(seen, role) <= d && completed <= d && |seen| <= |completed|
    ensures |AppendOnce(seen, role)| <= |completed| + 1
    ensures role in completed ==> |AppendOnce(seen, role)| <= |completed|
    ensures role !in completed ==> |completed| < |d| && d[|completed|] == role
  {
    if role in seen {
      var i :| 0 <= i < |seen| && seen[i] == role;
      assert completed[i] == d[i] == seen[i];
    } else {
      assert AppendOnce(seen, role)[|seen|] == role;
      assert d[|seen|] == role;
      if |completed| > |seen| {
        assert completed[|seen|] == role;
      } else {
        forall i | 0 <= i < |completed| ensures completed[i] != role { assert completed[i] == d[i]; }
      }
    }
  }

  lemma RunRoleInOrder(roles: seq<Role>, m: Machine, n: nat, outcomes: Outcomes)
    requires LogInOrder(Distinct(roles), m) && n < |roles|
    requires !m.stopped ==> |Distinct(roles[..n])| <= |m.state.completed|
    ensures var r := RunRole(m, roles[n], outcomes);
            && LogInOrder(Distinct(roles), r)
            && (if r.stopped then m.stopped || r.state.blocked != []
                else |Distinct(roles[..n + 1])| <= |r.state.completed|
                     && r.state.status == (if r.state.completed == m.state.completed then m.state.status else RunRunning)
                     && m.state.completed <= r.state.completed)
  {
    hide Distinct, InOrder, Start, Fail, Complete, IsDone;
    if !m.stopped {
      NextOrDone(roles, n, m.state);
      InOrderIsDone(Distinct(roles), m.state, roles[n]);
      if roles[n] !in m.state.completed {
        NextRoleInOrder(Distinct(roles), m.state);
        CompleteMeansRunning(m.state, roles[n]);
      }
    }
  }

  lemma InOrderIsDone(roles: seq<Role>, s: State, role: Role)
    requires InOrder(roles, s)
    ensures role in s.completed <==> IsDone(s, role)
  {
  }

  lemma CompleteMeansRunning(s: State, role: Role)
    ensures Complete(Start(s, role), role).status == RunRunning && s.completed <= Complete(Start(s, role), role).completed
  {
  }

  lemma {:induction false} RunRolesInOrder(roles: seq<Role>, m: Machine, n: nat, outcomes: Outcomes)
    requires LogInOrder(Distinct(roles), m) && !m.stopped && n <= |roles|
    ensures var r := RunRoles(m, roles, n, outcomes);
            && LogInOrder(Distinct(roles), r)
            && (if r.stopped then r.state.blocked != []
                else |Distinct(roles[..n])| <= |r.state.completed| && m.state.completed <= r.state.completed
                     && r.state.status == (if r.state.completed == m.state.completed then m.state.status else RunRunning))
  {
    hide RunRole, LogInOrder;
    if n > 0 {
      var before := RunRoles(m, roles, n - 1, outcomes);
      RunRolesInOrder(roles, m, n - 1, outcomes);
      RunRoleInOrder(roles, before, n - 1, outcomes);
      StoppedRoleStays(before, roles[n - 1], outcomes);
    }
  }

  lemma StoppedRoleStays(m: Machine, role: Role, outcomes: Outcomes)
    ensures m.stopped ==> RunRole(m, role, outcomes) == m
  {
  }

  /** The status an unfiltered run reports, told from the state it started from and the roles it left
      completed: blocked unless every role is completed, and then completed only if no role is repeated. */
  ghost function UnfilteredEnding(s: State, roles: seq<Role>, completed: seq<Role>): RunStatus {
    if completed != Distinct(roles) then RunBlocked
    else if NoDuplicates(roles) then RunCompleted
    else if s.completed == completed then s.status
    else RunRunning
  }

  /** Fresh or resumed over any agent plan: in every state written the completed roles form a prefix of
      the order and only the next one can be blocked, and the run's status is the one foretold. */
  lemma {:induction false} UnfilteredRun(existing: Option<State>, roles: seq<Role>, outcomes: Outcomes)
    requires InOrder(Distinct(roles), existing.GetOr(FRESH))
    ensures var r := Run(existing, roles, outcomes);
            && LogInOrder(Distinct(roles), r)
            && r.state.status == UnfilteredEnding(existing.GetOr(FRESH), roles, r.state.completed)
  {
    hide RunRoles, Distinct, InOrder, NoDuplicates, Close;
    var s := existing.GetOr(FRESH);
    var m := RunRoles(Machine(s, [s], false), roles, |roles|, outcomes);
    assert LogInOrder(Distinct(roles), Machine(s, [s], false));
    RunRolesInOrder(roles, Machine(s, [s], false), |roles|, outcomes);
    assert roles[..|roles|] == roles;
    CloseInOrder(s, roles, m);
  }

  lemma CloseInOrder(s: State, roles: seq<Role>, m: Machine)
    requires InOrder(Distinct(roles), m.state)
    requires m.stopped ==> m.state.blocked != []
    requires !m.stopped ==>
               && |Distinct(roles)| <= |m.state.completed|
               && m.state.status == (if m.state.completed == s.completed then s.status else RunRunning)
    ensures var c := Close(m.state, roles);
            InOrder(Distinct(roles), c) && c.status == UnfilteredEnding(s, roles, c.completed)
  {
    hide Distinct, NoDuplicates;
    DistinctLength(roles);
    assert |m.state.completed| == |Distinct(roles)| ==> m.state.completed == Distinct(roles);
  }

  /** With distinct roles the run ends blocked or completed, and completed exactly when every role is. */
  lemma {:induction false} DistinctRolesRun(existing: Option<State>, roles: seq<Role>, outcomes: Outcomes)
    requires NoDuplicates(roles) && InOrder(roles, existing.GetOr(FRESH))
    ensures var r := Run(existing, roles, outcomes);
            && LogInOrder(roles, r) && r.state.status in {RunBlocked, RunCompleted}
            && (r.state.status == RunCompleted <==> r.state.completed == roles)
  {
    hide Run, InOrder;
    DistinctLength(roles);
    UnfilteredRun(existing, roles, outcomes);
  }

  // ---------------------------------------------------------------- histories

  /** One launch: the selected roles, what they would give, and the number of state-file writes after
      which it is stopped. */
  datatype Launch = Launch(roles: seq<Role>, outcomes: Outcomes, resume: bool, writes: nat)

  /** The state file after the launch; one stopped before its first write leaves it alone. */
  function DiskAfter(disk: Option<State>, l: Launch): Option<State> {
    var log := Run(if l.resume then disk else None, l.roles, l.outcomes).log;
    var k := Min(l.writes, |log|);
    if k == 0 then disk else Some(log[k - 1])
  }

  function DiskAfterAll(disk: Option<State>, launches: seq<Launch>): Option<State> {
    if launches == [] then disk
    else DiskAfter(DiskAfterAll(disk, launches[..|launches| - 1]), launches[|launches| - 1])
  }

  /** Over any history of fresh, resumed and interrupted unfiltered runs the saved state keeps the order. */
  lemma {:induction false} HistoryStaysInOrder(roles: seq<Role>, launches: seq<Launch>)
    requires forall l | l in launches :: l.roles == roles
    ensures InOrder(Distinct(roles), DiskAfterAll(None, launches).GetOr(FRESH))
  {
    hide Run, InOrder, Distinct;
    FreshIsInOrder(Distinct(roles));
    if launches != [] {
      var n := |launches| - 1;
      var l, disk := launches[n], DiskAfterAll(None, launches[..n]);
      HistoryStaysInOrder(roles, launches[..n]);
      UnfilteredRun(if l.resume then disk else None, roles, l.outcomes);
    }
  }

  lemma FreshIsInOrder(roles: seq<Role>)
    ensures InOrder(roles, FRESH)
  {
  }

  ghost predicate NeverCompleted(m: Machine) {
    m.state.status != RunCompleted && forall s | s in m.log :: s.status != RunCompleted
  }

  lemma {:induction false} LoopNeverCompletes(m: Machine, roles: seq<Role>, n: nat, outcomes: Outcomes)
    requires NeverCompleted(m) && n <= |roles|
    ensures NeverCompleted(RunRoles(m, roles, n, outcomes))
  {
    if n > 0 { LoopNeverCompletes(m, roles, n - 1, outcomes); }
  }

  lemma RepeatingRunNeverCompletes(existing: Option<State>, roles: seq<Role>, outcomes: Outcomes)
    requires !NoDuplicates(roles) && InOrder(Distinct(roles), existing.GetOr(FRESH))
    requires existing.GetOr(FRESH).status != RunCompleted
    ensures NeverCompleted(Run(existing, roles, outcomes))
  {
    var s := existing.GetOr(FRESH);
    UnfilteredRun(existing, roles, outcomes);
    LoopNeverCompletes(Machine(s, [s], false), roles, |roles|, outcomes);
    hide RunRoles, InOrder, LogInOrder, Distinct, Close;
  }

  /** A story whose plan repeats a role is never reported completed, over any history of unfiltered runs
      and whatever their outcomes, although all of its roles may be. */
  lemma {:induction false} RepeatedRolesNeverComplete(roles: seq<Role>, launches: seq<Launch>)
    requires !NoDuplicates(roles) && forall l | l in launches :: l.roles == roles
    ensures DiskAfterAll(None, launches).GetOr(FRESH).status != RunCompleted
  {
    hide Run, InOrder, Distinct;
    if launches != [] {
      var n := |launches| - 1;
      var l, disk := launches[n], DiskAfterAll(None, launches[..n]);
      RepeatedRolesNeverComplete(roles, launches[..n]);
      HistoryStaysInOrder(roles, launches[..n]);
      FreshIsInOrder(Distinct(roles));
      RepeatingRunNeverCompletes(if l.resume then disk else None, roles, l.outcomes);
    }
  }

  // ---------------------------------------------------------------- runs of selected roles

  /** The lists are duplicate-free and disjoint, and the completed roles are the finished executions. */
  ghost predicate WellFormed(s: State) {
    && NoDuplicates(s.completed) && NoDuplicates(s.blocked)
    && (forall r :: r in s.completed <==> IsDone(s, r))
    && (forall r | r in s.blocked :: r !in s.completed)
  }

  ghost predicate LogWellFormed(m: Machine) {
    WellFormed(m.state) && forall s | s in m.log :: WellFormed(s)
  }

  lemma RunRoleKeeps(m: Machine, role: Role, outcomes: Outcomes)
    requires LogWellFormed(m)
    ensures LogWellFormed(RunRole(m, role, outcomes))
  {
    if !m.stopped && !IsDone(m.state, role) {
      var running := Start(m.state, role);
      StepsKeep(m.state, role);
      hide WellFormed, Start, Fail, Complete;
    }
  }

  lemma StepsKeep(s: State, role: Role)
    requires WellFormed(s) && !IsDone(s, role)
    ensures WellFormed(Start(s, role)) && WellFormed(Fail(Start(s, role), role)) && WellFormed(Complete(Start(s, role), role))
  {
    var running := Start(s, role);
    assert WellFormed(running);
    assert WellFormed(Fail(running, role));
    assert WellFormed(Complete(running, role));
  }

  lemma {:induction false} RunRolesKeep(m: Machine, roles: seq<Role>, n: nat, outcomes: Outcomes)
    requires LogWellFormed(m) && n <= |roles|
    ensures LogWellFormed(RunRoles(m, roles, n, outcomes))
  {
    hide LogWellFormed, RunRole;
    if n > 0 {
      RunRolesKeep(m, roles, n - 1, outcomes);
      RunRoleKeeps(RunRoles(m, roles, n - 1, outcomes), roles[n - 1], outcomes);
    }
  }

  lemma RunKeeps(existing: Option<State>, roles: seq<Role>, outcomes: Outcomes)
    requires WellFormed(existing.GetOr(FRESH))
    ensures LogWellFormed(Run(existing, roles, outcomes))
  {
    var s := existing.GetOr(FRESH);
    RunRolesKeep(Machine(s, [s], false), roles, |roles|, outcomes);
    hide RunRoles;
    var m := RunRoles(Machine(s, [s], false), roles, |roles|, outcomes);
    assert WellFormed(Close(m.state, roles));
    hide WellFormed;
  }

  /** Over any history of fresh, resumed and interrupted runs, each with its own role filter, the saved
      lists stay duplicate-free and disjoint, and completed means finished. */
  lemma {:induction false} HistoryStaysWellFormed(launches: seq<Launch>)
    ensures WellFormed(DiskAfterAll(None, launches).GetOr(FRESH))
  {
    hide Run;
    if launches != [] {
      hide WellFormed;
      var n := |launches| - 1;
      var l, disk := launches[n], DiskAfterAll(None, launches[..n]);
      HistoryStaysWellFormed(launches[..n]);
      FreshIsWellFormed();
      RunKeeps(if l.resume then disk else None, l.roles, l.outcomes);
    }
  }

  lemma FreshIsWellFormed()
    ensures WellFormed(FRESH)
  {
  }

  /** The role is tried by a run from `s`, and fails. */
  predicate WouldFail(s: State, role: Role, outcomes: Outcomes) {
    role !in s.completed && outcomes(role) != Succeeds
  }

  lemma SuccessfulRole(m: Machine, role: Role, outcomes: Outcomes)
    requires WellFormed(m.state) && !m.stopped && !WouldFail(m.state, role, outcomes)
    ensures var r := RunRole(m, role, outcomes);
            && !r.stopped
            && (forall x :: x in r.state.completed <==> x in m.state.completed || x == role)
            && (forall x :: x in r.state.blocked <==> x in m.state.blocked && x != role)
            && r.state.status == (if role in m.state.completed then m.state.status else RunRunning)
  {
  }

  /** The state left by a run of `roles[..n]` from `s` in which nothing fails. */
  ghost predicate SucceededUpTo(s: State, roles: seq<Role>, n: nat, m: Machine)
    requires n <= |roles|
  {
    && !m.stopped && WellFormed(m.state)
    && (forall x :: x in m.state.completed <==> x in s.completed || x in roles[..n])
    && (forall x :: x in m.state.blocked <==> x in s.blocked && x !in roles[..n])
    && m.state.status == (if forall x | x in roles[..n] :: x in s.completed then s.status else RunRunning)
  }

  ghost predicate SomeFails(s: State, roles: seq<Role>, outcomes: Outcomes) {
    exists r :: r in roles && WouldFail(s, r, outcomes)
  }

  lemma SuccessExtends(s: State, roles: seq<Role>, n: nat, before: Machine, after: Machine)
    requires 0 < n <= |roles| && SucceededUpTo(s, roles, n - 1, before) && !after.stopped && WellFormed(after.state)
    requires forall x :: x in after.state.completed <==> x in before.state.completed || x == roles[n - 1]
    requires forall x :: x in after.state.blocked <==> x in before.state.blocked && x != roles[n - 1]
    requires after.state.status == (if roles[n - 1] in before.state.completed then before.state.status else RunRunning)
    ensures SucceededUpTo(s, roles, n, after)
  {
    hide WellFormed;
    assert roles[..n] == roles[..n - 1] + [roles[n - 1]];
  }

  lemma {:induction false} RunRolesEnding(m: Machine, roles: seq<Role>, n: nat, outcomes: Outcomes)
    requires LogWellFormed(m) && !m.stopped && n <= |roles|
    ensures var r := RunRoles(m, roles, n, outcomes);
            if SomeFails(m.state, roles[..n], outcomes) then r.stopped && r.state.blocked != []
            else SucceededUpTo(m.state, roles, n, r)
  {
    if n > 0 {
      var before, role := RunRoles(m, roles, n - 1, outcomes), roles[n - 1];
      RunRolesEnding(m, roles, n - 1, outcomes);
      RunRolesKeep(m, roles, n - 1, outcomes);
      RunRolesKeep(m, roles, n, outcomes);
      assert roles[..n] == roles[..n - 1] + [role];
      hide RunRole, WellFormed, WouldFail;
      if before.stopped {
        StoppedRoleStays(before, role, outcomes);
      } else if WouldFail(before.state, role, outcomes) {
        FailedRole(before, role, outcomes);
        FailureCarries(m.state, before.state, role, outcomes);
        assert role in roles[..n];
      } else {
        SuccessfulRole(before, role, outcomes);
        hide SucceededUpTo;
        SuccessExtends(m.state, roles, n, before, RunRole(before, role, outcomes));
        NothingNewFails(m.state, roles, n, before, outcomes);
      }
    }
  }

  lemma FailureCarries(s: State, r: State, role: Role, outcomes: Outcomes)
    requires WouldFail(r, role, outcomes) && forall x | x in s.completed :: x in r.completed
    ensures WouldFail(s, role, outcomes)
  {
  }

  lemma NothingNewFails(s: State, roles: seq<Role>, n: nat, before: Machine, outcomes: Outcomes)
    requires 0 < n <= |roles| && SucceededUpTo(s, roles, n - 1, before) && !WouldFail(before.state, roles[n - 1], outcomes)
    requires !SomeFails(s, roles[..n - 1], outcomes)
    ensures !SomeFails(s, roles[..n], outcomes)
  {
    hide WellFormed;
    assert roles[..n] == roles[..n - 1] + [roles[n - 1]];
  }

  lemma FailedRole(m: Machine, role: Role, outcomes: Outcomes)
    requires WellFormed(m.state) && !m.stopped && WouldFail(m.state, role, outcomes)
    ensures var r := RunRole(m, role, outcomes);
            r.stopped && r.state.blocked != [] && r.state.completed == m.state.completed
  {
    assert role in AppendOnce(m.state.blocked, role);
  }

  /** The position of the first selected role that fails, or the number of roles. */
  ghost function FirstFailing(s: State, roles: seq<Role>, outcomes: Outcomes): (f: nat)
    ensures f <= |roles| && !SomeFails(s, roles[..f], outcomes)
    ensures f < |roles| ==> WouldFail(s, roles[f], outcomes)
  {
    if roles == [] then 0
    else
      var n := |roles| - 1;
      var f := FirstFailing(s, roles[..n], outcomes);
      assert roles[..n][..f] == roles[..f] && roles[..n + 1] == roles[..n] + [roles[n]] == roles;
      if f < n || WouldFail(s, roles[n], outcomes) then f else n + 1
  }

  /** All roles the state will know as completed or has been asked to run. */
  function Together(s: State, roles: seq<Role>): set<Role> {
    (set r | r in s.completed) + (set r | r in roles)
  }

  /** The status a run of selected roles reports, told from the saved state and the outcomes. */
  ghost function Ending(s: State, roles: seq<Role>, outcomes: Outcomes): RunStatus {
    if SomeFails(s, roles, outcomes) then RunBlocked
    else if exists r :: r in s.blocked && r !in roles then RunBlocked
    else if |Together(s, roles)| == |roles| then RunCompleted
    else if forall r | r in roles :: r in s.completed then s.status
    else RunRunning
  }

  /** How a run of any selection ends, from every well-formed saved state and for all outcomes. The
      completed roles are the earlier ones and the selected ones before the first that fails. The run is
      blocked when a selected role fails or a role outside the selection is blocked; else completed
      exactly when the roles completed in all are as many as the selected agents; else as it was when
      nothing was left to run; and left reported as running otherwise. */
  lemma {:induction false} SelectedRunEnding(s: State, roles: seq<Role>, outcomes: Outcomes)
    requires WellFormed(s)
    ensures var end := Run(Some(s), roles, outcomes).state;
            && end.status == Ending(s, roles, outcomes)
            && forall x :: x in end.completed <==> x in s.completed || x in roles[..FirstFailing(s, roles, outcomes)]
  {
    hide RunRoles, WellFormed, SomeFails, WouldFail, FirstFailing, Together;
    var start := Machine(s, [s], false);
    var f, m := FirstFailing(s, roles, outcomes), RunRoles(start, roles, |roles|, outcomes);
    assert LogWellFormed(start);
    RunRolesEnding(start, roles, f, outcomes);
    RunRolesEnding(start, roles, |roles|, outcomes);
    assert roles[..|roles|] == roles;
    if f < |roles| {
      FailureStops(start, roles, f, outcomes);
    } else {
      EmptyOrInhabited(m.state.blocked);
      CompletedTogether(s, roles, m);
    }
  }

  lemma CompletedTogether(s: State, roles: seq<Role>, m: Machine)
    requires SucceededUpTo(s, roles, |roles|, m)
    ensures |m.state.completed| == |Together(s, roles)|
  {
    assert roles[..|roles|] == roles;
    SizeOfElements(m.state.completed);
    assert (set r | r in m.state.completed) == Together(s, roles);
  }

  /** The loop is left at the first failing role, which completes nothing. */
  lemma FailureStops(start: Machine, roles: seq<Role>, f: nat, outcomes: Outcomes)
    requires LogWellFormed(start) && !start.stopped && f < |roles|
    requires !SomeFails(start.state, roles[..f], outcomes) && WouldFail(start.state, roles[f], outcomes)
    ensures SomeFails(start.state, roles, outcomes)
    ensures RunRoles(start, roles, |roles|, outcomes).state.completed == RunRoles(start, roles, f, outcomes).state.completed
  {
    var before := RunRoles(start, roles, f, outcomes);
    RunRolesEnding(start, roles, f, outcomes);
    assert forall r | r in roles[..f] :: !WouldFail(start.state, r, outcomes);
    hide WellFormed;
    assert WouldFail(before.state, roles[f], outcomes);
    FailedRole(before, roles[f], outcomes);
    assert RunRoles(start, roles, f + 1, outcomes) == RunRole(before, roles[f], outcomes);
    StoppedStays(start, roles, f + 1, |roles|, outcomes);
  }

  // ---------------------------------------------------------------- what a turn and a run record

  /** Every state file one turn writes: none for a completed role or after the break; otherwise first the
      start, one more attempt on record, and then the end, which a failed call writes twice. */
  lemma {:induction false} RoleTold(m: Machine, role: Role, outcomes: Outcomes)
    requires WellFormed(m.state)
    ensures var s, r := m.state, RunRole(m, role, outcomes);
            var attempt := (if role in s.executions then s.executions[role].attempt else 0) + 1;
            var first := s.(status := RunRunning, current := Some(role),
                            executions := s.executions[role := Execution(Started, attempt)]);
            if m.stopped || role in s.completed then r == m
            else if outcomes(role) == Succeeds
            then && !r.stopped && r.log == m.log + [first, r.state]
                 && r.state == State(RunRunning, Some(role), s.completed + [role], Without(s.blocked, role),
                                     s.executions[role := Execution(Finished, attempt)])
            else && r.stopped && r.log == m.log + [first, r.state] + (if outcomes(role) == Fails then [r.state] else [])
                 && r.state == State(RunBlocked, Some(role), s.completed,
                                     if role in s.blocked then s.blocked else s.blocked + [role],
                                     s.executions[role := Execution(Stuck, attempt)])
  {
  }

  lemma {:induction false} LogOnlyGrows(m: Machine, roles: seq<Role>, n: nat, outcomes: Outcomes)
    requires n <= |roles|
    ensures m.log <= RunRoles(m, roles, n, outcomes).log
  {
    hide Start, Fail, Complete;
    if n > 0 { LogOnlyGrows(m, roles, n - 1, outcomes); }
  }

  /** The first state file of a run is the saved state, or a fresh running one, and the last is its result. */
  lemma {:induction false} FirstAndLastWrite(existing: Option<State>, roles: seq<Role>, outcomes: Outcomes)
    ensures var r := Run(existing, roles, outcomes);
            && |r.log| > 0 && r.log[|r.log| - 1] == r.state
            && r.log[0] == if existing.Some? then existing.value else State(RunRunning, None, [], [], map[])
  {
    hide RunRoles, Close;
    var s := existing.GetOr(FRESH);
    LogOnlyGrows(Machine(s, [s], false), roles, |roles|, outcomes);
  }

  /** A launch builds on the state file when it resumes and otherwise on nothing. */
  lemma {:induction false} LaunchBuildsOn(disk: Option<State>, l: Launch)
    requires l.writes == 1
    ensures DiskAfter(disk, l) ==
            Some(if l.resume && disk.Some? then disk.value else State(RunRunning, None, [], [], map[]))
  {
    hide Run;
    FirstAndLastWrite(if l.resume then disk else None, l.roles, l.outcomes);
  }

  lemma TurnAttempts(m: Machine, role: Role, outcomes: Outcomes, x: Role)
    requires WellFormed(m.state) && !m.stopped
    ensures AttemptOf(RunRole(m, role, outcomes).state, x) ==
            AttemptOf(m.state, x) + (if x == role && role !in m.state.completed then 1 else 0)
    ensures m.state.completed <= RunRole(m, role, outcomes).state.completed
  {
    RoleTold(m, role, outcomes);
    hide RunRole, WellFormed;
  }

  /** As long as nothing fails, the roles tried are those of the selection that were not completed. */
  lemma {:induction false} SuccessAttempts(m: Machine, roles: seq<Role>, n: nat, outcomes: Outcomes, x: Role)
    requires LogWellFormed(m) && !m.stopped && n <= |roles| && !SomeFails(m.state, roles[..n], outcomes)
    ensures AttemptOf(RunRoles(m, roles, n, outcomes).state, x) ==
            AttemptOf(m.state, x) + (if x in roles[..n] && x !in m.state.completed then 1 else 0)
    ensures m.state.completed <= RunRoles(m, roles, n, outcomes).state.completed
  {
    hide RunRole, WellFormed, WouldFail, AttemptOf;
    if n > 0 {
      assert roles[..n] == roles[..n - 1] + [roles[n - 1]];
      SuccessAttempts(m, roles, n - 1, outcomes, x);
      RunRolesEnding(m, roles, n - 1, outcomes);
      TurnAttempts(RunRoles(m, roles, n - 1, outcomes), roles[n - 1], outcomes, x);
    }
  }

  /** The role is tried by a run: it is selected, was not completed, and does not come after the first that fails. */
  ghost predicate Tried(s: State, roles: seq<Role>, outcomes: Outcomes, x: Role) {
    var f := FirstFailing(s, roles, outcomes);
    x !in s.completed && (x in roles[..f] || (f < |roles| && x == roles[f]))
  }

  /** The blocked list after a run: the role that failed, and what was blocked before but for the selected
      roles that succeeded. */
  ghost predicate BlockedAfter(s: State, roles: seq<Role>, outcomes: Outcomes, end: State) {
    var f := FirstFailing(s, roles, outcomes);
    forall x :: x in end.blocked <==> (x in s.blocked && x !in roles[..f]) || (f < |roles| && x == roles[f])
  }

  /** What a run of any selection records, for all outcomes: each role tried has one more attempt on record and
      no other role has, the completed list only grows at its end, the failed role is the current one, and a
      completed story has none. */
  lemma {:induction false} SelectedRunTold(s: State, roles: seq<Role>, outcomes: Outcomes, x: Role)
    requires WellFormed(s)
    ensures var end, f := Run(Some(s), roles, outcomes).state, FirstFailing(s, roles, outcomes);
            && AttemptOf(end, x) == AttemptOf(s, x) + (if Tried(s, roles, outcomes, x) then 1 else 0)
            && s.completed <= end.completed && BlockedAfter(s, roles, outcomes, end)
            && (f < |roles| ==> end.current == Some(roles[f]))
            && (end.blocked == [] && |end.completed| == |roles| ==> end.current.None?)
  {
    hide RunRoles, WellFormed, SomeFails, FirstFailing, AttemptOf;
    var start := Machine(s, [s], false);
    var f, m := FirstFailing(s, roles, outcomes), RunRoles(start, roles, |roles|, outcomes);
    assert LogWellFormed(start);
    SuccessAttempts(start, roles, f, outcomes, x);
    RunRolesEnding(start, roles, f, outcomes);
    assert roles[..|roles|] == roles;
    if f < |roles| { LastTurn(start, roles, f, outcomes, x); }
    SameAttempts(m.state, Close(m.state, roles), x);
  }

  lemma SameAttempts(s: State, r: State, x: Role)
    requires s.executions == r.executions
    ensures AttemptOf(s, x) == AttemptOf(r, x)
  {
  }

  lemma LastTurn(start: Machine, roles: seq<Role>, f: nat, outcomes: Outcomes, x: Role)
    requires LogWellFormed(start) && !start.stopped && f < |roles|
    requires !SomeFails(start.state, roles[..f], outcomes) && WouldFail(start.state, roles[f], outcomes)
    ensures roles[f] !in roles[..f]
    ensures var before, end := RunRoles(start, roles, f, outcomes).state, RunRoles(start, roles, |roles|, outcomes).state;
            && AttemptOf(end, x) == AttemptOf(before, x) + (if x == roles[f] then 1 else 0)
            && end.current == Some(roles[f]) && end.completed == before.completed && roles[f] in end.blocked
            && forall y :: y in end.blocked <==> y in before.blocked || y == roles[f]
  {
    hide WellFormed, RunRole, AttemptOf;
    var before := RunRoles(start, roles, f, outcomes);
    RunRolesEnding(start, roles, f, outcomes);
    assert roles[f] !in before.state.completed;
    TurnAttempts(before, roles[f], outcomes, x);
    RoleTold(before, roles[f], outcomes);
    assert RunRoles(start, roles, f + 1, outcomes) == RunRole(before, roles[f], outcomes);
    StoppedStays(start, roles, f + 1, |roles|, outcomes);
  }

  lemma ProperSubsetIsSmaller<T>(a: set<T>, b: set<T>)
    requires a < b
    ensures |a| < |b|
  {
    assert b == a + (b - a);
    assert |b| == |a| + |b - a|;
  }

  /** For distinct selected roles: completed exactly when no role outside the selection had been. */
  lemma {:induction false} DistinctSelectionCompletes(s: State, roles: seq<Role>)
    requires NoDuplicates(roles)
    ensures |Together(s, roles)| == |roles| <==> forall r | r in s.completed :: r in roles
  {
    SizeOfElements(roles);
    var all, picked := Together(s, roles), set r | r in roles;
    if forall r | r in s.completed :: r in roles {
      assert all == picked;
    } else {
      var r :| r in s.completed && r !in roles;
      assert r in all && r !in picked && picked <= all;
      ProperSubsetIsSmaller(picked, all);
    }
  }

  /** A saved state whose only completed role is the given one. */
  function After(role: Role): State {
    State(RunRunning, Some(role), [role], [], map[role := Execution(Finished, 1)])
  }

  /** The concrete failure: the planner is done, the developer is selected alone and succeeds, and the
      story is still reported as running although no role is left over or blocked. */
  lemma {:induction false} SelectedRunCanStayRunning()
    ensures var end := Run(Some(After("planner")), ["developer"], _ => Succeeds).state;
            end.completed == ["planner", "developer"] && end.blocked == [] && end.status == RunRunning
  {
    var m := Machine(After("planner"), [After("planner")], false);
    assert RunRoles(m, ["developer"], 1, _ => Succeeds) == RunRole(m, "developer", _ => Succeeds);
  }

  /** The concrete failure of an unfiltered run: the plan lists the documentation role twice, both turns
      succeed, and the story is left reported as running. */
  lemma {:induction false} RepeatedRoleStaysRunning(role: Role)
    ensures var end := Run(None, [role, role], _ => Succeeds).state;
            end.completed == [role] && end.blocked == [] && end.status == RunRunning
  {
    var m := Machine(FRESH, [FRESH], false);
    var once := RunRole(m, role, _ => Succeeds);
    assert RunRoles(m, [role, role], 1, _ => Succeeds) == once;
    assert RunRoles(m, [role, role], 2, _ => Succeeds) == RunRole(once, role, _ => Succeeds) == once;
  }

  /** The opposite failure: with the planner done, filtering for a role listed twice is reported completed,
      because two completed roles match two agents. */
  lemma {:induction false} RepeatedRoleCanComplete(done: Role, role: Role)
    requires done != role
    ensures var end := Run(Some(After(done)), [role, role], _ => Succeeds).state;
            end.completed == [done, role] && end.status == RunCompleted
  {
    var m := Machine(After(done), [After(done)], false);
    var once := RunRole(m, role, _ => Succeeds);
    assert RunRoles(m, [role, role], 1, _ => Succeeds) == once;
    assert RunRoles(m, [role, role], 2, _ => Succeeds) == RunRole(once, role, _ => Succeeds) == once;
  }
}
