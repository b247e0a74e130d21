/** How a full pass leaves every task, and when the story ends `completed`. */
module SchedulerEnding {
  import opened Common
  import opened TaskGraph
  import opened Scheduler
  import opened SchedulerInvariant
  import opened SchedulerOutcome
  import Strings

  /** Among the first `n` tasks, each is completed or on the blocked list. */
  ghost predicate SettledUpTo(order: seq<Task>, n: nat, s: State)
    requires n <= |order|
  {
    forall k | 0 <= k < n :: IsCompleted(s, order[k].id) || order[k].id in s.blocked
  }

  lemma {:induction false} PassSettles(g: Graph, m: Machine, order: seq<Task>, n: nat, launch: Launch)
    requires DrawnFrom(g, order) && LogInv(g, m) && n <= |order|
    ensures SettledUpTo(order, n, RunTasks(m, order, n, launch).state)
  {
    hide Visit, Inv, CompletedAreSound;
    if n > 0 {
      var before, task := RunTasks(m, order, n - 1, launch), order[n - 1];
      PassSettles(g, m, order, n - 1, launch);
      RunTasksKeeps(g, m, order, n - 1, launch);
      InvListsAgree(g, before.state);
      assert ParkedIsListed(before.state, task.id) by { InvParked(g, before.state, task.id); }
      VisitSettles(before, task, launch);
    }
  }

  /** A visit settles its task and leaves settled tasks settled. */
  lemma VisitSettles(m: Machine, task: Task, launch: Launch)
    requires ListsAgree(m.state) && ParkedIsListed(m.state, task.id)
    ensures var r := Visit(m, task, launch).state;
            && (IsCompleted(r, task.id) || task.id in r.blocked)
            && forall id | IsCompleted(m.state, id) || id in m.state.blocked :: IsCompleted(r, id) || id in r.blocked
  {
    VisitFrame(m, task, launch);
    VisitOutcome(m, task, launch);
    hide Visit, FirstBlocking, Wins;
  }

  lemma InvListsAgree(g: Graph, s: State)
    requires Inv(g, s)
    ensures ListsAgree(s)
  {
  }

  lemma InvParked(g: Graph, s: State, id: Id)
    requires Inv(g, s) && id in g
    ensures ParkedIsListed(s, id)
  {
  }

  /** From any well-formed saved state, interrupted or not, a full pass settles every selected task. */
  lemma RunSettlesEveryTask(g: Graph, existing: Option<State>, order: seq<Task>, criteria: seq<string>,
                            files: map<string, string>, launch: Launch)
    requires DrawnFrom(g, order) && DiskInv(g, existing)
    ensures SettledUpTo(order, |order|, Run(existing, order, criteria, files, launch).state)
  {
    InitializeKeeps(g, existing, order);
    RunEnds(existing, order, criteria, files, launch);
    hide Inv, Run, RunTasks, Initialize;
    PassSettles(g, StartMachine(existing, order, files), order, |order|, launch);
  }

  /** Every criterion written as `ID: text` names, before its first colon, a requirement of some task. */
  ghost predicate AllCovered(order: seq<Task>, criteria: seq<string>) {
    forall c | c in criteria && ':' in c ::
      exists t :: t in order && Strings.Strip(Strings.Before(c, ':')) in t.requirementIds
  }

  lemma CoverageIs(order: seq<Task>, criteria: seq<string>)
    ensures AllCovered(order, criteria) <==> forall r | r in RequirementIds(criteria) :: CoveredBy(order, r)
  {
    hide Strings.Strip, Strings.Before;
    if AllCovered(order, criteria) {
      forall r | r in RequirementIds(criteria) ensures CoveredBy(order, r) {
        var c :| c in criteria && ':' in c && r == Strings.Strip(Strings.Before(c, ':'));
        var t :| t in order && r in t.requirementIds;
      }
    }
    forall c | c in criteria && ':' in c && CoveredBy(order, Strings.Strip(Strings.Before(c, ':')))
      ensures exists t :: t in order && Strings.Strip(Strings.Before(c, ':')) in t.requirementIds
    {
      var k :| 0 <= k < |order| && Strings.Strip(Strings.Before(c, ':')) in order[k].requirementIds;
      assert order[k] in order;
    }
  }

  /** With nothing blocked after a settled pass, nothing waits for redecomposition either, and every
      selected task is completed with a record that passes its checks. */
  lemma NothingBlocked(g: Graph, s: State, order: seq<Task>)
    requires Inv(g, s) && SettledUpTo(order, |order|, s) && forall t | t in order :: t.id in g
    requires s.blocked == []
    ensures s.redecompose == [] && forall t | t in order :: IsCompleted(s, t.id) && RecordComplete(RecordOf(s, t.id))
  {
    hide RecordComplete;
    EmptyOrInhabited(s.redecompose);
    forall t | t in order ensures IsCompleted(s, t.id) && RecordComplete(RecordOf(s, t.id)) {
      var k :| 0 <= k < |order| && order[k] == t;
      assert t.id in s.completed;
    }
  }

  /** How finalisation decides, for any state: blocked while anything is blocked or waits for redecomposition;
      otherwise completed or blocked when every task is completed, as all criteria are covered by tasks and
      every record is complete or not; otherwise ready when some task could be started, and else pending. */
  lemma {:induction false} FinalizeExactly(s: State, order: seq<Task>, criteria: seq<string>)
    ensures var r := Finalize(s, order, criteria);
            var stuck := s.redecompose != [] || s.blocked != [];
            var done := forall t | t in order :: IsCompleted(s, t.id);
            && r == s.(status := r.status, current := if !stuck && done then None else s.current)
            && (stuck ==> r.status == StoryBlocked)
            && (!stuck && done ==>
                  r.status == if AllCovered(order, criteria) && forall t | t in order :: RecordComplete(RecordOf(s, t.id))
                              then StoryCompleted else StoryBlocked)
            && (!stuck && !done ==>
                  r.status == if exists t :: t in order && !IsCompleted(s, t.id) && forall d | d in t.dependsOn :: IsCompleted(s, d)
                              then StoryReady else StoryPending)
  {
    hide CoveredBy, RequirementIds, AllCovered, RecordComplete, IsCompleted, RecordOf, StoryValidated;
    if s.redecompose == [] && s.blocked == [] && forall t | t in order :: IsCompleted(s, t.id) {
      ValidatedIs(s, order, criteria);
    }
  }

  lemma ValidatedIs(s: State, order: seq<Task>, criteria: seq<string>)
    ensures StoryValidated(order, criteria, s) <==>
            AllCovered(order, criteria) && forall t | t in order :: RecordComplete(RecordOf(s, t.id))
  {
    hide CoveredBy, RequirementIds, AllCovered, RecordComplete, RecordOf;
    CoverageIs(order, criteria);
  }

  /** Finalisation after a settled pass: the ready and pending endings are out of reach, and the
      story completes exactly when nothing is blocked and every criterion is covered. */
  lemma SettledEnding(g: Graph, s: State, order: seq<Task>, criteria: seq<string>)
    requires Inv(g, s) && SettledUpTo(order, |order|, s) && forall t | t in order :: t.id in g
    ensures var r := Finalize(s, order, criteria);
            && r.status in {StoryCompleted, StoryBlocked}
            && (r.status == StoryCompleted <==> s.blocked == [] && AllCovered(order, criteria))
            && r.current == (if s.blocked == [] then None else s.current)
  {
    hide Finalize, AllCovered, Inv, SettledUpTo, RecordComplete, IsCompleted;
    FinalizeExactly(s, order, criteria);
    if s.blocked == [] { NothingBlocked(g, s, order); }
  }

  /** A run ends `completed` or `blocked`. It ends `completed` exactly when no task is blocked, every
      selected task is completed and every `ID:` criterion is covered by a selected task. */
  lemma RunEnding(g: Graph, existing: Option<State>, order: seq<Task>, criteria: seq<string>,
                  files: map<string, string>, launch: Launch)
    requires DrawnFrom(g, order) && DiskInv(g, existing)
    ensures var r := Run(existing, order, criteria, files, launch).state;
            && r.status in {StoryCompleted, StoryBlocked}
            && (r.status == StoryCompleted <==>
                r.blocked == [] && (forall t | t in order :: IsCompleted(r, t.id)) && AllCovered(order, criteria))
            && (r.blocked == [] ==> r.current.None?)
  {
    hide AllCovered, Inv, RunTasks, Initialize, StoryValidated;
    var m, r := FullPass(existing, order, files, launch), Run(existing, order, criteria, files, launch);
    RunSettlesEveryTask(g, existing, order, criteria, files, launch);
    RunEnds(existing, order, criteria, files, launch);
    InitializeKeeps(g, existing, order);
    RunTasksKeeps(g, StartMachine(existing, order, files), order, |order|, launch);
    SameBlockedSettled(order, r.state, m.state);
    SettledEnding(g, m.state, order, criteria);
    if r.state.blocked == [] {
      forall t | t in order ensures IsCompleted(r.state, t.id) {
        var k :| 0 <= k < |order| && order[k] == t;
      }
    }
  }

  lemma SameBlockedSettled(order: seq<Task>, r: State, s: State)
    requires SettledUpTo(order, |order|, r) && s.tasks == r.tasks && s.blocked == r.blocked
    ensures SettledUpTo(order, |order|, s)
  {
  }

  lemma {:induction false} UnselectedStayListed(m: Machine, order: seq<Task>, n: nat, launch: Launch, id: Id)
    requires n <= |order| && id !in Ids(order[..n])
    ensures id in RunTasks(m, order, n, launch).state.blocked <==> id in m.state.blocked
  {
    hide Visit;
    if n > 0 {
      assert order[..n] == order[..n - 1] + [order[n - 1]];
      assert order[n - 1] in order[..n];
      UnselectedStayListed(m, order, n - 1, launch, id);
      VisitFrame(RunTasks(m, order, n - 1, launch), order[n - 1], launch);
    }
  }

  /** The ending can be told before the launch: the story completes exactly when every selected task
      is achievable, every criterion is covered, and no task outside the selection is already
      blocked. */
  lemma {:induction false} EndingForetold(g: Graph, existing: Option<State>, order: seq<Task>, criteria: seq<string>,
                                          files: map<string, string>, launch: Launch)
    requires WellFormed(g) && DrawnFrom(g, order) && DependenciesFirst(order) && DiskInv(g, existing)
    ensures Run(existing, order, criteria, files, launch).state.status == StoryCompleted <==>
            && (forall t | t in order :: Achievable(g, Base(existing), launch, t.id))
            && AllCovered(order, criteria)
            && (forall id | id in Base(existing).blocked :: id in Ids(order))
  {
    hide Run, Achievable, AllCovered, CompletedAreSound, WellFormed, DrawnFrom, DependenciesFirst, Initialize, RunTasks;
    var r := Run(existing, order, criteria, files, launch).state;
    RunEnding(g, existing, order, criteria, files, launch);
    RunKeepsInvariant(g, existing, order, criteria, files, launch);
    InvListsAgree(g, r);
    forall t | t in order ensures IsCompleted(r, t.id) <==> Achievable(g, Base(existing), launch, t.id) {
      RunCompletesExactly(g, existing, order, criteria, files, launch, t.id);
    }
    forall id | id !in Ids(order) ensures id in r.blocked <==> id in Base(existing).blocked {
      InitializeFrame(existing, order);
      RunEnds(existing, order, criteria, files, launch);
      assert order[..|order|] == order;
      UnselectedStayListed(StartMachine(existing, order, files), order, |order|, launch, id);
    }
    if r.blocked != [] && forall t | t in order :: IsCompleted(r, t.id) {
      assert r.blocked[0] in r.blocked && r.blocked[0] !in Ids(order);
    }
  }
}
