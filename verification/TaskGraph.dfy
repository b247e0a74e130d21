/** Blueprint sub-tasks, their dependency graph, role selection and topological ordering
    (src/agentic_dev/subtask_execution.py, src/agentic_dev/local_execution.py). */
module TaskGraph {
  import opened Common

  type Id = string

  datatype Budget = Budget(maxInputTokens: nat, reservedOutputTokens: nat) {
    function Usable(): int { maxInputTokens - reservedOutputTokens }
  }

  datatype Task = Task(id: Id, role: string, dependsOn: seq<Id>, requirementIds: seq<string>,
                       writablePaths: seq<string>, validation: seq<string>, budget: Budget)

  /** The blueprint's tasks indexed by id. */
  type Graph = map<Id, Task>

  function Ids(tasks: seq<Task>): set<Id> {
    set t | t in tasks :: t.id
  }

  ghost predicate UniqueIds(tasks: seq<Task>) {
    forall i, j | 0 <= i < j < |tasks| :: tasks[i].id != tasks[j].id
  }

  /** `{task.id: task for task in tasks}` */
  function ById(tasks: seq<Task>): (g: Graph)
    ensures g.Keys == Ids(tasks)
    ensures forall id | id in g :: g[id] in tasks && g[id].id == id
  {
    if tasks == [] then map[]
    else
      var last := |tasks| - 1;
      assert tasks == tasks[..last] + [tasks[last]];
      ById(tasks[..last])[tasks[last].id := tasks[last]]
  }

  /** Keys are the ids of their tasks and every dependency is declared. */
  ghost predicate WellFormed(g: Graph) {
    forall id | id in g :: g[id].id == id && forall d | d in g[id].dependsOn :: d in g
  }

  /** `tasks` are tasks of the graph, each at most once. */
  ghost predicate DrawnFrom(g: Graph, tasks: seq<Task>) {
    UniqueIds(tasks) && forall t | t in tasks :: t.id in g && g[t.id] == t
  }

  ghost predicate DependenciesFirst(order: seq<Task>) {
    forall i, d | 0 <= i < |order| && d in order[i].dependsOn :: d in Ids(order[..i])
  }

  ghost predicate TopologicalOrder(tasks: seq<Task>, order: seq<Task>) {
    UniqueIds(order) && DependenciesFirst(order) && forall t :: t in order <==> t in tasks
  }

  ghost predicate Orderable(tasks: seq<Task>) {
    exists order :: TopologicalOrder(tasks, order)
  }

  lemma SameTask(tasks: seq<Task>, a: Task, b: Task)
    requires UniqueIds(tasks) && a in tasks && b in tasks && a.id == b.id
    ensures a == b
  {
    var i :| 0 <= i < |tasks| && tasks[i] == a;
    var j :| 0 <= j < |tasks| && tasks[j] == b;
    assert i == j;
  }

  lemma HeadIdAppearsOnce(tasks: seq<Task>)
    requires UniqueIds(tasks) && tasks != []
    ensures forall t | t in tasks[1..] :: t.id != tasks[0].id
  {
    forall i | 0 <= i < |tasks[1..]| ensures tasks[1..][i].id != tasks[0].id {
      assert tasks[1..][i] == tasks[i + 1];
    }
  }

  lemma GraphOfTasks(tasks: seq<Task>)
    requires UniqueIds(tasks)
    ensures DrawnFrom(ById(tasks), tasks)
  {
    forall t | t in tasks ensures t.id in ById(tasks) && ById(tasks)[t.id] == t {
      assert t.id in Ids(tasks);
      SameTask(tasks, t, ById(tasks)[t.id]);
    }
  }

  // ---------------------------------------------------------------- transitive dependencies

  ghost predicate Chain(g: Graph, p: seq<Id>) {
    && |p| > 0
    && (forall i | 0 <= i < |p| :: p[i] in g)
    && (forall i | 0 < i < |p| :: p[i] in g[p[i - 1]].dependsOn)
  }

  /** `b` is `a` itself or one of its direct or indirect dependencies. */
  ghost predicate Needs(g: Graph, a: Id, b: Id) {
    exists p :: Chain(g, p) && p[0] == a && p[|p| - 1] == b
  }

  lemma NeedsItself(g: Graph, a: Id)
    requires a in g
    ensures Needs(g, a, a)
  {
    assert Chain(g, [a]) && [a][0] == a && [a][|[a]| - 1] == a;
  }

  lemma NeedsVia(g: Graph, a: Id, d: Id, b: Id)
    requires a in g && d in g[a].dependsOn && Needs(g, d, b)
    ensures Needs(g, a, b)
  {
    var p :| Chain(g, p) && p[0] == d && p[|p| - 1] == b;
    var q := [a] + p;
    forall i | 0 < i < |q| ensures q[i] in g[q[i - 1]].dependsOn {
      if i > 1 { assert q[i] == p[i - 1] && q[i - 1] == p[i - 2]; }
    }
    assert Chain(g, q) && q[0] == a && q[|q| - 1] == b;
  }

  lemma NeedsStep(g: Graph, a: Id, b: Id) returns (d: Id)
    requires Needs(g, a, b) && a != b
    ensures a in g && d in g[a].dependsOn && Needs(g, d, b)
  {
    var p :| Chain(g, p) && p[0] == a && p[|p| - 1] == b;
    d := p[1];
    var q := p[1..];
    forall i | 0 < i < |q| ensures q[i] in g[q[i - 1]].dependsOn {
      assert q[i] == p[i + 1] && q[i - 1] == p[i];
    }
    assert Chain(g, q) && q[0] == d && q[|q| - 1] == b;
  }

  lemma NeedsExtend(g: Graph, a: Id, b: Id, d: Id)
    requires Needs(g, a, b) && d in g && b in g && d in g[b].dependsOn
    ensures Needs(g, a, d)
  {
    var p :| Chain(g, p) && p[0] == a && p[|p| - 1] == b;
    var q := p + [d];
    forall i | 0 < i < |q| ensures q[i] in g[q[i - 1]].dependsOn {
      if i < |p| { assert q[i] == p[i] && q[i - 1] == p[i - 1]; }
    }
    assert Chain(g, q) && q[0] == a && q[|q| - 1] == d;
  }

  ghost predicate Closed(g: Graph, s: set<Id>) {
    forall id | id in s && id in g :: forall d | d in g[id].dependsOn :: d in s
  }

  lemma {:induction false} ClosedUnderChain(g: Graph, s: set<Id>, p: seq<Id>)
    requires Closed(g, s) && Chain(g, p) && p[0] in s
    ensures p[|p| - 1] in s
    decreases |p|
  {
    if |p| > 1 {
      var q := p[1..];
      assert q[0] in g[p[0]].dependsOn;
      forall i | 0 < i < |q| ensures q[i] in g[q[i - 1]].dependsOn {
        assert q[i] == p[i + 1] && q[i - 1] == p[i];
      }
      ClosedUnderChain(g, s, q);
    }
  }

  lemma ClosedContainsNeeds(g: Graph, s: set<Id>, a: Id, b: Id)
    requires Closed(g, s) && a in s && Needs(g, a, b)
    ensures b in s
  {
    var p :| Chain(g, p) && p[0] == a && p[|p| - 1] == b;
    ClosedUnderChain(g, s, p);
  }

  /** The ids of an order that lists dependencies first are closed under dependency. */
  lemma OrderIsClosed(g: Graph, order: seq<Task>)
    requires DrawnFrom(g, order) && DependenciesFirst(order)
    ensures Closed(g, Ids(order))
  {
    forall id, d | id in Ids(order) && id in g && d in g[id].dependsOn ensures d in Ids(order) {
      var t :| t in order && t.id == id;
      var i :| 0 <= i < |order| && order[i] == t;
      assert d in Ids(order[..i]);
    }
  }

  // ---------------------------------------------------------------- topological_subtasks

  predicate IsReady(t: Task, remaining: set<Id>, completed: set<Id>) {
    t.id in remaining && forall d | d in t.dependsOn :: d in completed
  }

  function Ready(tasks: seq<Task>, remaining: set<Id>, completed: set<Id>): (r: seq<Task>)
    ensures forall t :: t in r <==> t in tasks && IsReady(t, remaining, completed)
    ensures UniqueIds(tasks) ==> UniqueIds(r)
  {
    if tasks == [] then []
    else
      var rest := Ready(tasks[1..], remaining, completed);
      assert tasks == [tasks[0]] + tasks[1..];
      assert UniqueIds(tasks) ==> forall t | t in tasks[1..] :: t.id != tasks[0].id by {
        if UniqueIds(tasks) { HeadIdAppearsOnce(tasks); }
      }
      if IsReady(tasks[0], remaining, completed) then [tasks[0]] + rest else rest
  }

  /** When no remaining task is ready, the remaining tasks contain a cycle or miss a dependency:
      no arrangement of the tasks puts every dependency first. */
  lemma NoOrderWhenStuck(tasks: seq<Task>, remaining: set<Id>, completed: set<Id>, order: seq<Task>)
    requires UniqueIds(tasks) && remaining != {} && remaining + completed == Ids(tasks)
    requires forall t | t in tasks :: !IsReady(t, remaining, completed)
    ensures !TopologicalOrder(tasks, order)
  {
    if TopologicalOrder(tasks, order) {
      var id :| id in remaining;
      var t :| t in tasks && t.id == id;
      var i :| 0 <= i < |order| && order[i] == t;
      NoneRemainingBefore(tasks, remaining, completed, order, i + 1);
      assert false;
    }
  }

  lemma {:induction false} NoneRemainingBefore(tasks: seq<Task>, remaining: set<Id>, completed: set<Id>,
                                               order: seq<Task>, n: nat)
    requires remaining + completed == Ids(tasks) && TopologicalOrder(tasks, order) && n <= |order|
    requires forall t | t in tasks :: !IsReady(t, remaining, completed)
    ensures forall i | 0 <= i < n :: order[i].id !in remaining
  {
    if n > 0 {
      NoneRemainingBefore(tasks, remaining, completed, order, n - 1);
      var t := order[n - 1];
      assert t in tasks;
      forall d | d in t.dependsOn ensures d in completed {
        assert d in Ids(order[..n - 1]);
        var e :| e in order[..n - 1] && e.id == d;
        assert e in order && e in tasks && d in Ids(tasks);
      }
    }
  }

  // ---------------------------------------------------------------- which order it is

  ghost predicate DeclaredBefore(tasks: seq<Task>, a: Task, b: Task) {
    exists i, j :: 0 <= i < j < |tasks| && tasks[i] == a && tasks[j] == b
  }

  /** The rank of a task is the length of its longest chain of dependencies. */
  ghost predicate RankIs(t: Task, rank: map<Id, nat>) {
    && t.id in rank && (forall d | d in t.dependsOn :: d in rank && rank[d] < rank[t.id])
    && (rank[t.id] > 0 ==> exists d :: d in t.dependsOn && d in rank && rank[d] == rank[t.id] - 1)
  }

  /** Lower ranks come first, and tasks of the same rank in the order they are declared. */
  ghost predicate SortedByRank(tasks: seq<Task>, order: seq<Task>, rank: map<Id, nat>) {
    && (forall t | t in order :: t.id in rank)
    && forall i, j | 0 <= i < j < |order| ::
         || rank[order[i].id] < rank[order[j].id]
         || (rank[order[i].id] == rank[order[j].id] && DeclaredBefore(tasks, order[i], order[j]))
  }

  /** The one order that sorts the tasks by rank, and by declaration within a rank. */
  ghost predicate RankedOrder(tasks: seq<Task>, order: seq<Task>) {
    exists rank :: (forall t | t in tasks :: RankIs(t, rank)) && SortedByRank(tasks, order, rank)
  }

  /** Ready tasks come in declaration order. */
  lemma {:induction false} ReadyInOrder(tasks: seq<Task>, remaining: set<Id>, completed: set<Id>, i: nat, j: nat)
    requires i < j < |Ready(tasks, remaining, completed)|
    ensures DeclaredBefore(tasks, Ready(tasks, remaining, completed)[i], Ready(tasks, remaining, completed)[j])
  {
    hide IsReady, UniqueIds, DeclaredBefore;
    var rest, r := Ready(tasks[1..], remaining, completed), Ready(tasks, remaining, completed);
    if !IsReady(tasks[0], remaining, completed) {
      ReadyInOrder(tasks[1..], remaining, completed, i, j);
      LaterDeclared(tasks, r[i], r[j]);
    } else if i > 0 {
      ReadyInOrder(tasks[1..], remaining, completed, i - 1, j - 1);
      LaterDeclared(tasks, r[i], r[j]);
    } else {
      assert r[j] == rest[j - 1] && rest[j - 1] in rest;
      FirstDeclared(tasks, r[j]);
    }
  }

  ghost predicate InDeclaredOrder(tasks: seq<Task>, r: seq<Task>) {
    forall i: nat, j: nat | i < j < |r| :: DeclaredBefore(tasks, r[i], r[j])
  }

  lemma AllReadyInOrder(tasks: seq<Task>, remaining: set<Id>, completed: set<Id>)
    ensures InDeclaredOrder(tasks, Ready(tasks, remaining, completed))
  {
    hide DeclaredBefore, Ready, IsReady, UniqueIds;
    var r := Ready(tasks, remaining, completed);
    forall i: nat, j: nat | i < j < |r| ensures DeclaredBefore(tasks, r[i], r[j]) {
      ReadyInOrder(tasks, remaining, completed, i, j);
    }
  }

  lemma RoundKeys(rank: map<Id, nat>, ready: seq<Task>, round: nat)
    requires forall id | id in rank :: rank[id] < round
    ensures var next := RoundRank(rank, ready, round);
            next.Keys == rank.Keys + Ids(ready) && forall id | id in next :: next[id] < round + 1
  {
  }

  lemma FirstDeclared(tasks: seq<Task>, t: Task)
    requires tasks != [] && t in tasks[1..]
    ensures DeclaredBefore(tasks, tasks[0], t)
  {
    var k :| 0 <= k < |tasks[1..]| && tasks[1..][k] == t;
    assert tasks[k + 1] == t;
  }

  lemma LaterDeclared(tasks: seq<Task>, a: Task, b: Task)
    requires tasks != [] && DeclaredBefore(tasks[1..], a, b)
    ensures DeclaredBefore(tasks, a, b)
  {
    var i, j :| 0 <= i < j < |tasks[1..]| && tasks[1..][i] == a && tasks[1..][j] == b;
    assert tasks[i + 1] == a && tasks[j + 1] == b;
  }

  /** The state of the ranks before round `round`: the tasks done have their rank, below the round, and every
      remaining one waits for something done in the last round at the earliest. */
  ghost predicate RanksSoFar(tasks: seq<Task>, order: seq<Task>, done: set<Id>, rank: map<Id, nat>, round: nat) {
    && rank.Keys == done && (forall id | id in done :: rank[id] < round)
    && (forall t | t in tasks && t.id in done :: RankIs(t, rank))
    && (forall t | t in tasks && t.id !in done && round > 0 :: Waits(t, rank, round))
    && SortedByRank(tasks, order, rank)
  }

  ghost predicate Waits(t: Task, rank: map<Id, nat>, round: nat) {
    exists d :: d in t.dependsOn && (d !in rank || rank[d] == round - 1)
  }

  /** One round of ready tasks. */
  function RoundRank(rank: map<Id, nat>, ready: seq<Task>, round: nat): map<Id, nat> {
    rank + map id | id in Ids(ready) :: round
  }

  lemma RoundRanksTasks(tasks: seq<Task>, done: set<Id>, remaining: set<Id>, rank: map<Id, nat>, round: nat, t: Task)
    requires UniqueIds(tasks) && done !! remaining && done + remaining == Ids(tasks) && t in tasks
    requires rank.Keys == done && (forall id | id in done :: rank[id] < round)
    requires t.id in done ==> RankIs(t, rank)
    requires t.id !in done && round > 0 ==> Waits(t, rank, round)
    ensures var ready := Ready(tasks, remaining, done);
            var next := RoundRank(rank, ready, round);
            if t.id in done + Ids(ready) then RankIs(t, next) else Waits(t, next, round + 1)
  {
    var ready := Ready(tasks, remaining, done);
    var next := RoundRank(rank, ready, round);
    assert forall id | id in done :: id !in Ids(ready) && next[id] == rank[id];
    assert t.id in Ids(tasks);
    if t.id in Ids(ready) {
      var u :| u in ready && u.id == t.id;
      SameTask(tasks, t, u);
      if round > 0 {
        var d :| d in t.dependsOn && (d !in rank || rank[d] == round - 1);
        assert next[d] == round - 1;
      }
    } else if t.id !in done {
      assert t !in ready;
      var d :| d in t.dependsOn && d !in done;
      assert d !in next || next[d] == round;
    }
  }

  lemma RoundSorted(tasks: seq<Task>, order: seq<Task>, ready: seq<Task>, rank: map<Id, nat>, round: nat)
    requires SortedByRank(tasks, order, rank) && (forall id | id in rank :: rank[id] < round && id !in Ids(ready))
    requires InDeclaredOrder(tasks, ready)
    ensures SortedByRank(tasks, order + ready, RoundRank(rank, ready, round))
  {
    hide DeclaredBefore;
    var next, all := RoundRank(rank, ready, round), order + ready;
    forall k | 0 <= k < |all|
      ensures all[k].id in next && (if k < |order| then next[all[k].id] == rank[all[k].id] < round else next[all[k].id] == round)
    {
      if k < |order| { assert order[k] in order; } else { assert ready[k - |order|] in ready; }
    }
  }

  lemma RoundKeepsRanks(tasks: seq<Task>, order: seq<Task>, done: set<Id>, remaining: set<Id>, rank: map<Id, nat>, round: nat)
    requires UniqueIds(tasks) && done !! remaining && done + remaining == Ids(tasks)
    requires RanksSoFar(tasks, order, done, rank, round)
    ensures var ready := Ready(tasks, remaining, done);
            RanksSoFar(tasks, order + ready, done + Ids(ready), RoundRank(rank, ready, round), round + 1)
  {
    hide RankIs, Waits, SortedByRank, InDeclaredOrder, IsReady, UniqueIds, RoundRank;
    var ready := Ready(tasks, remaining, done);
    forall t | t in tasks
      ensures if t.id in done + Ids(ready) then RankIs(t, RoundRank(rank, ready, round))
              else Waits(t, RoundRank(rank, ready, round), round + 1)
    {
      RoundRanksTasks(tasks, done, remaining, rank, round, t);
    }
    AllReadyInOrder(tasks, remaining, done);
    ReadyAreRemaining(tasks, remaining, done);
    RoundKeys(rank, ready, round);
    RoundSorted(tasks, order, ready, rank, round);
  }

  lemma ReadyAreRemaining(tasks: seq<Task>, remaining: set<Id>, done: set<Id>)
    ensures Ids(Ready(tasks, remaining, done)) <= remaining
  {
  }

  /** The tasks taken so far: each once, dependencies first, and all of them given. */
  ghost predicate OrderedSoFar(tasks: seq<Task>, order: seq<Task>, done: set<Id>) {
    UniqueIds(order) && DependenciesFirst(order) && Ids(order) == done && forall t | t in order :: t in tasks
  }

  lemma RoundKeepsOrder(tasks: seq<Task>, order: seq<Task>, done: set<Id>, remaining: set<Id>)
    requires UniqueIds(tasks) && done !! remaining && OrderedSoFar(tasks, order, done)
    ensures var ready := Ready(tasks, remaining, done); OrderedSoFar(tasks, order + ready, done + Ids(ready))
  {
    var ready := Ready(tasks, remaining, done);
    RoundPrefixKeepsOrder(tasks, order, done, ready, |ready|);
    assert ready[..|ready|] == ready;
  }

  lemma {:induction false} RoundPrefixKeepsOrder(tasks: seq<Task>, order: seq<Task>, done: set<Id>, ready: seq<Task>, n: nat)
    requires OrderedSoFar(tasks, order, done) && UniqueIds(ready) && n <= |ready|
    requires forall t | t in ready :: t in tasks && t.id !in done && forall d | d in t.dependsOn :: d in done
    ensures OrderedSoFar(tasks, order + ready[..n], done + Ids(ready[..n]))
  {
    if n == 0 {
      assert order + ready[..0] == order && Ids(ready[..0]) == {};
    } else {
      var t := ready[n - 1];
      RoundPrefixKeepsOrder(tasks, order, done, ready, n - 1);
      assert order + ready[..n] == order + ready[..n - 1] + [t] && t in ready;
      assert ready[..n] == ready[..n - 1] + [t];
      assert Ids(ready[..n]) == Ids(ready[..n - 1]) + {t.id};
      hide DependenciesFirst;
      AppendKeepsOrder(order + ready[..n - 1], t);
    }
  }

  /** Repeatedly takes every task whose dependencies are done; fails exactly when no order exists, and
      otherwise sorts the tasks by rank and declaration. */
  method TopologicalSubtasks(subtasks: seq<Task>) returns (r: Result<seq<Task>, set<Id>>)
    requires UniqueIds(subtasks)
    ensures r.Ok? ==> TopologicalOrder(subtasks, r.value) && RankedOrder(subtasks, r.value)
    ensures r.Err? <==> !Orderable(subtasks)
  {
    hide UniqueIds, RanksSoFar, OrderedSoFar, RankedOrder, TopologicalOrder, RoundRank;
    var remaining := Ids(subtasks);
    var completed: set<Id> := {};
    var ordered: seq<Task> := [];
    ghost var rank: map<Id, nat>, round: nat := map[], 0;
    NothingTaken(subtasks);
    while remaining != {}
      invariant remaining !! completed && remaining + completed == Ids(subtasks)
      invariant OrderedSoFar(subtasks, ordered, completed)
      invariant RanksSoFar(subtasks, ordered, completed, rank, round)
      decreases remaining
    {
      var ready := Ready(subtasks, remaining, completed);
      if ready == [] {
        forall order ensures !TopologicalOrder(subtasks, order) {
          NoOrderWhenStuck(subtasks, remaining, completed, order);
        }
        return Err(remaining);
      }
      ghost var before, done, earlier := remaining, completed, ordered;
      for k := 0 to |ready|
        invariant ordered == earlier + ready[..k]
        invariant completed == done + Ids(ready[..k]) && remaining == before - Ids(ready[..k])
      {
        assert ready[..k + 1] == ready[..k] + [ready[k]];
        ordered := ordered + [ready[k]];
        completed := completed + {ready[k].id};
        remaining := remaining - {ready[k].id};
      }
      assert ready[..|ready|] == ready;
      ReadyAreRemaining(subtasks, before, done);
      assert ready[0].id in Ids(ready);
      RoundKeepsOrder(subtasks, earlier, done, before);
      RoundKeepsRanks(subtasks, earlier, done, before, rank, round);
      rank, round := RoundRank(rank, ready, round), round + 1;
    }
    AllTaken(subtasks, ordered, completed);
    AllRanked(subtasks, ordered, completed, rank, round);
    r := Ok(ordered);
  }

  lemma NothingTaken(tasks: seq<Task>)
    ensures OrderedSoFar(tasks, [], {}) && RanksSoFar(tasks, [], {}, map[], 0)
  {
  }

  lemma AllTaken(tasks: seq<Task>, order: seq<Task>, done: set<Id>)
    requires UniqueIds(tasks) && OrderedSoFar(tasks, order, done) && done == Ids(tasks)
    ensures TopologicalOrder(tasks, order)
  {
    forall t | t in tasks ensures t in order {
      assert t.id in Ids(tasks) && t.id in Ids(order);
      var u :| u in order && u.id == t.id;
      SameTask(tasks, t, u);
    }
  }

  lemma AllRanked(tasks: seq<Task>, order: seq<Task>, done: set<Id>, rank: map<Id, nat>, round: nat)
    requires RanksSoFar(tasks, order, done, rank, round) && done == Ids(tasks)
    ensures RankedOrder(tasks, order)
  {
    hide RankIs, Waits, SortedByRank;
    assert forall t | t in tasks :: t.id in Ids(tasks);
  }

  lemma OrderHoldsDependencies(tasks: seq<Task>, order: seq<Task>, t: Task, d: Id)
    requires TopologicalOrder(tasks, order) && t in tasks && d in t.dependsOn
    ensures d in Ids(tasks)
  {
    var i :| 0 <= i < |order| && order[i] == t;
    assert d in Ids(order[..i]);
    var e :| e in order[..i] && e.id == d;
    assert e in order;
  }

  /** A task with a dependency outside the list, even one completed long ago, cannot be ordered. */
  lemma {:induction false} OutsideDependencyBlocksOrder(tasks: seq<Task>, t: Task, d: Id)
    requires t in tasks && d in t.dependsOn && d !in Ids(tasks)
    ensures !Orderable(tasks)
  {
    forall order: seq<Task> ensures !TopologicalOrder(tasks, order) {
      if TopologicalOrder(tasks, order) { OrderHoldsDependencies(tasks, order, t, d); }
    }
  }

  lemma AppendKeepsOrder(ordered: seq<Task>, t: Task)
    requires UniqueIds(ordered) && DependenciesFirst(ordered) && t.id !in Ids(ordered)
    requires forall d | d in t.dependsOn :: d in Ids(ordered)
    ensures UniqueIds(ordered + [t]) && DependenciesFirst(ordered + [t])
    ensures Ids(ordered + [t]) == Ids(ordered) + {t.id}
  {
    var next := ordered + [t];
    forall i, j | 0 <= i < j < |next| ensures next[i].id != next[j].id {
      if j == |ordered| { assert ordered[i] in ordered; }
    }
    forall i, d | 0 <= i < |next| && d in next[i].dependsOn ensures d in Ids(next[..i]) {
      if i < |ordered| { assert next[..i] == ordered[..i]; } else { assert next[..i] == ordered; }
    }
  }

  // ---------------------------------------------------------------- selected_subtasks

  /** `[task for task in tasks if task.id in ids]` */
  function Keep(tasks: seq<Task>, ids: set<Id>): (r: seq<Task>)
    ensures forall t :: t in r <==> t in tasks && t.id in ids
  {
    if tasks == [] then []
    else
      assert tasks == [tasks[0]] + tasks[1..];
      if tasks[0].id in ids then [tasks[0]] + Keep(tasks[1..], ids) else Keep(tasks[1..], ids)
  }

  lemma {:induction false} KeepUnique(tasks: seq<Task>, ids: set<Id>)
    requires UniqueIds(tasks)
    ensures UniqueIds(Keep(tasks, ids))
  {
    if tasks != [] {
      HeadIdAppearsOnce(tasks);
      KeepUnique(tasks[1..], ids);
    }
  }

  ghost predicate NeededByRole(tasks: seq<Task>, role: string, id: Id) {
    exists t :: t in tasks && t.role == role && Needs(ById(tasks), t.id, id)
  }

  /** The ids a role needs: its own tasks and everything they depend on, directly or not. */
  ghost function RoleClosure(tasks: seq<Task>, role: string): set<Id> {
    set id | id in Ids(tasks) && NeededByRole(tasks, role, id)
  }

  ghost predicate HoldsRole(tasks: seq<Task>, role: string, s: set<Id>) {
    forall t | t in tasks && t.role == role :: t.id in s
  }

  lemma RoleClosureHoldsRole(tasks: seq<Task>, role: string)
    ensures HoldsRole(tasks, role, RoleClosure(tasks, role))
  {
    forall t | t in tasks && t.role == role ensures t.id in RoleClosure(tasks, role) {
      assert t.id in Ids(tasks);
      NeedsItself(ById(tasks), t.id);
      assert NeededByRole(tasks, role, t.id);
    }
  }

  lemma {:induction false} RoleClosureClosed(tasks: seq<Task>, role: string)
    requires WellFormed(ById(tasks))
    ensures Closed(ById(tasks), RoleClosure(tasks, role))
  {
    var g := ById(tasks);
    forall id, d | id in RoleClosure(tasks, role) && d in g[id].dependsOn ensures d in RoleClosure(tasks, role) {
      var t :| t in tasks && t.role == role && Needs(g, t.id, id);
      NeedsExtend(g, t.id, id, d);
      assert NeededByRole(tasks, role, d);
    }
  }

  /** The closure is the least dependency-closed set holding the role's tasks. */
  lemma RoleClosureIsLeast(tasks: seq<Task>, role: string, s: set<Id>)
    requires HoldsRole(tasks, role, s) && Closed(ById(tasks), s)
    ensures RoleClosure(tasks, role) <= s
  {
    forall id | id in RoleClosure(tasks, role) ensures id in s {
      var t :| t in tasks && t.role == role && Needs(ById(tasks), t.id, id);
      ClosedContainsNeeds(ById(tasks), s, t.id, id);
    }
  }

  /** Adds every dependency not yet needed; reports whether any was new. */
  method AddDependencies(dependencies: seq<Id>, needed: set<Id>) returns (grown: set<Id>, changed: bool)
    ensures grown == needed + set d | d in dependencies
    ensures changed <==> grown != needed
  {
    grown, changed := needed, false;
    for k := 0 to |dependencies|
      invariant grown == needed + set d | d in dependencies[..k]
      invariant changed <==> grown != needed
    {
      if dependencies[k] !in grown {
        grown := grown + {dependencies[k]};
        changed := true;
      }
      assert dependencies[..k + 1] == dependencies[..k] + [dependencies[k]];
    }
    assert dependencies[..|dependencies|] == dependencies;
  }

  ghost predicate DependenciesIn(g: Graph, ids: set<Id>, s: set<Id>) {
    forall id | id in ids && id in g :: forall d | d in g[id].dependsOn :: d in s
  }

  /** One sweep over a snapshot of the needed ids. */
  method SweepNeeded(byId: Graph, needed: set<Id>, ghost closure: set<Id>) returns (grown: set<Id>, changed: bool)
    requires needed <= closure <= byId.Keys && Closed(byId, closure)
    ensures needed <= grown <= closure
    ensures changed <==> grown != needed
    ensures DependenciesIn(byId, needed, grown)
  {
    grown, changed := needed, false;
    var todo := needed;
    while todo != {}
      invariant todo <= needed <= grown <= closure
      invariant changed <==> grown != needed
      invariant DependenciesIn(byId, needed - todo, grown)
    {
      var taskId :| taskId in todo;
      todo := todo - {taskId};
      var added;
      grown, added := AddDependencies(byId[taskId].dependsOn, grown);
      changed := changed || added;
    }
    assert needed - todo == needed;
  }

  /** Sweeps until nothing is added: a dependency-closed set within every closed set that
      holds `selected`. */
  method CloseOver(byId: Graph, selected: set<Id>, ghost closure: set<Id>) returns (needed: set<Id>)
    requires selected <= closure <= byId.Keys && Closed(byId, closure)
    ensures selected <= needed <= closure && Closed(byId, needed)
  {
    needed := selected;
    var changed := true;
    while changed
      invariant selected <= needed <= closure
      invariant !changed ==> DependenciesIn(byId, needed, needed)
      decreases closure - needed, changed
    {
      needed, changed := SweepNeeded(byId, needed, closure);
    }
  }

  /** The growing loop of the role filter computes exactly the role's closure. */
  method NeededIds(subtasks: seq<Task>, role: string, selected: set<Id>) returns (needed: set<Id>)
    requires UniqueIds(subtasks) && WellFormed(ById(subtasks))
    requires selected == set t | t in subtasks && t.role == role :: t.id
    ensures needed == RoleClosure(subtasks, role)
  {
    RoleClosureHoldsRole(subtasks, role);
    RoleClosureClosed(subtasks, role);
    needed := CloseOver(ById(subtasks), selected, RoleClosure(subtasks, role));
    assert HoldsRole(subtasks, role, needed);
    RoleClosureIsLeast(subtasks, role, needed);
  }

  /** The tasks to run for a role filter, in declaration order; an unknown role is an error. */
  method SelectedSubtasks(subtasks: seq<Task>, role: Option<string>) returns (r: Result<seq<Task>, string>)
    requires UniqueIds(subtasks) && (role.Some? ==> WellFormed(ById(subtasks)))
    ensures role.None? ==> r == Ok(subtasks)
    ensures role.Some? ==> (r.Err? <==> forall t | t in subtasks :: t.role != role.value)
    ensures role.Some? && r.Ok? ==> r.value == Keep(subtasks, RoleClosure(subtasks, role.value))
  {
    if role.None? { return Ok(subtasks); }
    var selected := set t | t in subtasks && t.role == role.value :: t.id;
    assert forall t | t in subtasks && t.role == role.value :: t.id in selected;
    if selected == {} { return Err(role.value); }
    var needed := NeededIds(subtasks, role.value, selected);
    r := Ok(Keep(subtasks, needed));
  }

  lemma {:induction false} KeepConcat(a: seq<Task>, b: seq<Task>, ids: set<Id>)
    ensures Keep(a + b, ids) == Keep(a, ids) + Keep(b, ids)
  {
    if a == [] {
      assert a + b == b;
    } else {
      KeepConcat(a[1..], b, ids);
      assert (a + b)[1..] == a[1..] + b;
      assert Keep(a + b, ids) == (if a[0].id in ids then [a[0]] else []) + Keep(a[1..] + b, ids);
    }
  }

  lemma KeepPrefix(order: seq<Task>, ids: set<Id>, i: nat)
    requires i < |order| && order[i].id in ids
    ensures var k := |Keep(order[..i], ids)|;
            k < |Keep(order, ids)| && Keep(order, ids)[k] == order[i] && Keep(order, ids)[..k] == Keep(order[..i], ids)
  {
    KeepConcat(order[..i], order[i..], ids);
    assert order == order[..i] + order[i..];
    assert order[i..][0] == order[i];
  }

  lemma {:induction false} KeptCameFrom(order: seq<Task>, ids: set<Id>, k: nat) returns (i: nat)
    requires k < |Keep(order, ids)|
    ensures i < |order| && order[i].id in ids && k == |Keep(order[..i], ids)|
  {
    if order[0].id in ids && k == 0 {
      i := 0;
    } else {
      i := KeptCameFrom(order[1..], ids, if order[0].id in ids then k - 1 else k);
      assert order[..i + 1][1..] == order[1..][..i];
      i := i + 1;
    }
  }

  /** A role filter never turns an orderable blueprint into a dependency cycle. */
  lemma {:induction false} SelectionStaysOrderable(tasks: seq<Task>, ids: set<Id>, order: seq<Task>)
    requires TopologicalOrder(tasks, order) && UniqueIds(tasks) && Closed(ById(tasks), ids)
    ensures TopologicalOrder(Keep(tasks, ids), Keep(order, ids))
  {
    var kept := Keep(order, ids);
    KeepUnique(order, ids);
    forall k, d | 0 <= k < |kept| && d in kept[k].dependsOn ensures d in Ids(kept[..k]) {
      var i := KeptCameFrom(order, ids, k);
      KeepPrefix(order, ids, i);
      var t := order[i];
      assert t in tasks;
      GraphOfTasks(tasks);
      assert d in Ids(order[..i]);
      var u :| u in order[..i] && u.id == d;
      assert u in Keep(order[..i], ids);
    }
  }

  lemma SelectionOfOrderable(tasks: seq<Task>, ids: set<Id>)
    requires Orderable(tasks) && UniqueIds(tasks) && Closed(ById(tasks), ids)
    ensures Orderable(Keep(tasks, ids))
  {
    var order :| TopologicalOrder(tasks, order);
    SelectionStaysOrderable(tasks, ids, order);
    hide UniqueIds, DependenciesFirst, Closed;
    assert TopologicalOrder(Keep(tasks, ids), Keep(order, ids));
  }

  /** The tasks with these ids depend on nothing else. */
  ghost predicate HoldsDependencies(tasks: seq<Task>, ids: set<Id>) {
    forall t, d | t in tasks && t.id in ids && d in t.dependsOn :: d in ids
  }

  /** Part of an orderable list can be ordered by itself exactly when it holds all its dependencies. */
  lemma {:induction false} SelectionOrderableExactly(tasks: seq<Task>, ids: set<Id>, order: seq<Task>)
    requires TopologicalOrder(tasks, order) && UniqueIds(tasks) && ids <= Ids(tasks)
    ensures Orderable(Keep(tasks, ids)) <==> HoldsDependencies(tasks, ids)
  {
    if HoldsDependencies(tasks, ids) {
      HeldIsClosed(tasks, ids);
      SelectionOfOrderable(tasks, ids);
    } else {
      var t, d :| t in tasks && t.id in ids && d in t.dependsOn && d !in ids;
      OutsideDependencyBlocksOrder(Keep(tasks, ids), t, d);
    }
  }

  lemma HeldIsClosed(tasks: seq<Task>, ids: set<Id>)
    requires HoldsDependencies(tasks, ids)
    ensures Closed(ById(tasks), ids)
  {
    var g := ById(tasks);
    forall id, d | id in ids && id in g && d in g[id].dependsOn ensures d in ids { assert g[id] in tasks; }
  }

  lemma OrderIsDrawn(g: Graph, tasks: seq<Task>, order: seq<Task>)
    requires DrawnFrom(g, tasks) && TopologicalOrder(tasks, order)
    ensures DrawnFrom(g, order)
  {
  }
}
