/** Agent plans: writing the execution order and reading it back
    (assign_agents in src/agentic_dev/agent_assignment.py, ordered_assigned_agents in
    src/agentic_dev/prompt_pack.py). */
module AgentOrder {
  import opened Common

  datatype Agent = Agent(id: string, role: string, details: string)

  /** An entry of an `execution_order` list: a string, or something that is skipped. */
  datatype OrderEntry = NotText | Text(id: string)

  datatype Plan = Plan(executionOrder: Option<seq<OrderEntry>>, assignedAgents: seq<Agent>)

  function AgentIds(agents: seq<Agent>): set<string> {
    set a | a in agents :: a.id
  }

  ghost predicate DistinctIds(agents: seq<Agent>) {
    forall i, j | 0 <= i < j < |agents| :: agents[i].id != agents[j].id
  }

  /** `agents_by_id[id]`: the last agent with that id. */
  function LastWithId(agents: seq<Agent>, id: string): (r: Option<Agent>)
    ensures r.None? <==> id !in AgentIds(agents)
    ensures r.Some? ==> r.value in agents && r.value.id == id
  {
    if agents == [] then None
    else
      var last := agents[|agents| - 1];
      assert agents == agents[..|agents| - 1] + [last];
      if last.id == id then Some(last) else LastWithId(agents[..|agents| - 1], id)
  }

  /** The listed agents, in listed order. */
  function Listed(agents: seq<Agent>, order: seq<OrderEntry>): seq<Agent> {
    if order == [] then []
    else
      var n := |order| - 1;
      var entry := order[n];
      Listed(agents, order[..n])
      + (if entry.Text? && LastWithId(agents, entry.id).Some? then [LastWithId(agents, entry.id).value] else [])
  }

  /** The agents whose ids are not among `ids`, in their original order. */
  function Others(agents: seq<Agent>, ids: set<string>): (r: seq<Agent>)
    ensures forall a :: a in r <==> a in agents && a.id !in ids
  {
    if agents == [] then []
    else
      var n := |agents| - 1;
      assert agents == agents[..n] + [agents[n]];
      Others(agents[..n], ids) + (if agents[n].id in ids then [] else [agents[n]])
  }

  /** ordered_assigned_agents; None for an empty plan. */
  function Ordered(plan: Plan): Option<seq<Agent>> {
    if plan.assignedAgents == [] then None
    else if plan.executionOrder.None? then Some(plan.assignedAgents)
    else
      var listed := Listed(plan.assignedAgents, plan.executionOrder.value);
      Some(listed + Others(plan.assignedAgents, AgentIds(listed)))
  }

  method IndexById(agents: seq<Agent>) returns (byId: map<string, Agent>)
    ensures forall id :: (if id in byId then Some(byId[id]) else None) == LastWithId(agents, id)
  {
    byId := map[];
    for i := 0 to |agents|
      invariant forall id :: (if id in byId then Some(byId[id]) else None) == LastWithId(agents[..i], id)
    {
      byId := byId[agents[i].id := agents[i]];
      assert agents[..i + 1][..i] == agents[..i];
    }
    assert agents[..|agents|] == agents;
  }

  method TakeListed(agents: seq<Agent>, order: seq<OrderEntry>) returns (listed: seq<Agent>)
    ensures listed == Listed(agents, order)
  {
    hide LastWithId;
    var byId := IndexById(agents);
    listed := [];
    for k := 0 to |order|
      invariant listed == Listed(agents, order[..k])
    {
      if order[k].Text? {
        assert (if order[k].id in byId then Some(byId[order[k].id]) else None) == LastWithId(agents, order[k].id);
        if order[k].id in byId { listed := listed + [byId[order[k].id]]; }
      }
      assert order[..k + 1][..k] == order[..k];
    }
    assert order[..|order|] == order;
  }

  method TakeOthers(agents: seq<Agent>, ids: set<string>) returns (others: seq<Agent>)
    ensures others == Others(agents, ids)
  {
    others := [];
    for i := 0 to |agents|
      invariant others == Others(agents[..i], ids)
    {
      if agents[i].id !in ids { others := others + [agents[i]]; }
      assert agents[..i + 1][..i] == agents[..i];
    }
    assert agents[..|agents|] == agents;
  }

  method OrderedAssignedAgents(plan: Plan) returns (ordered: Option<seq<Agent>>)
    ensures ordered == Ordered(plan)
  {
    if plan.assignedAgents == [] { return None; }
    if plan.executionOrder.None? { return Some(plan.assignedAgents); }
    var result := TakeListed(plan.assignedAgents, plan.executionOrder.value);
    var rest := TakeOthers(plan.assignedAgents, AgentIds(result));
    return Some(result + rest);
  }

  /** The plan assign_agents writes. */
  function PlanFor(agents: seq<Agent>): Plan {
    Plan(Some(seq(|agents|, i requires 0 <= i < |agents| => Text(agents[i].id))), agents)
  }

  /** An order that names only agents is listed entry by entry. */
  lemma {:induction false} KnownIdsAreListed(agents: seq<Agent>, order: seq<OrderEntry>)
    requires forall i | 0 <= i < |order| :: order[i].Text? && LastWithId(agents, order[i].id).Some?
    ensures |Listed(agents, order)| == |order|
    ensures forall i | 0 <= i < |order| :: Some(Listed(agents, order)[i]) == LastWithId(agents, order[i].id)
  {
    hide LastWithId;
    if order != [] {
      var n := |order| - 1;
      var last := LastWithId(agents, order[n].id);
      assert Listed(agents, order) == Listed(agents, order[..n]) + [last.value];
      hide Listed, AgentIds;
      KnownIdsAreListed(agents, order[..n]);
    }
  }

  /** Reading a written plan gives, position by position, the last agent with that position's id. */
  lemma ReadBackIsLast(agents: seq<Agent>)
    requires agents != []
    ensures var r := Ordered(PlanFor(agents));
            r.Some? && |r.value| == |agents|
            && forall i | 0 <= i < |agents| :: Some(r.value[i]) == LastWithId(agents, agents[i].id)
  {
    hide LastWithId;
    var order := PlanFor(agents).executionOrder.value;
    assert forall a | a in agents :: a.id in AgentIds(agents);
    KnownIdsAreListed(agents, order);
    var listed := Listed(agents, order);
    forall a | a in agents ensures a.id in AgentIds(listed) {
      var i :| 0 <= i < |agents| && agents[i] == a;
      assert listed[i] in listed && listed[i].id == a.id;
    }
    EmptyOrInhabited(Others(agents, AgentIds(listed)));
  }

  ghost predicate SameIdSameAgent(agents: seq<Agent>) {
    forall i, j | 0 <= i < j < |agents| && agents[i].id == agents[j].id :: agents[i] == agents[j]
  }

  lemma OwnIdFindsSelf(agents: seq<Agent>, i: nat)
    requires SameIdSameAgent(agents) && i < |agents|
    ensures LastWithId(agents, agents[i].id) == Some(agents[i])
  {
    hide LastWithId;
    assert agents[i].id in AgentIds(agents) by { assert agents[i] in agents; }
    var last := LastWithId(agents, agents[i].id).value;
    var j :| 0 <= j < |agents| && agents[j] == last;
  }

  /** Writing a plan and reading it back gives the same agents exactly when agents with the same id
      are equal, in particular whenever the ids are distinct. */
  lemma PlanReadBackExactly(agents: seq<Agent>)
    requires agents != []
    ensures Ordered(PlanFor(agents)) == Some(agents) <==> SameIdSameAgent(agents)
  {
    ReadBackIsLast(agents);
    hide LastWithId, Ordered, PlanFor;
    var r := Ordered(PlanFor(agents)).value;
    if SameIdSameAgent(agents) {
      forall i | 0 <= i < |agents| ensures r[i] == agents[i] { OwnIdFindsSelf(agents, i); }
      assert r == agents;
    }
    if r == agents {
      forall i, j | 0 <= i < j < |agents| && agents[i].id == agents[j].id ensures agents[i] == agents[j] {
        assert Some(r[i]) == Some(r[j]);
      }
    }
  }

  // ---------------------------------------------------------------- any execution order

  ghost predicate NoRepeatedText(order: seq<OrderEntry>) {
    forall i, j | 0 <= i < j < |order| && order[i].Text? && order[j].Text? :: order[i].id != order[j].id
  }

  lemma {:induction false} ListedAreAgents(agents: seq<Agent>, order: seq<OrderEntry>)
    ensures forall a | a in Listed(agents, order) :: a in agents && Text(a.id) in order
    ensures forall a | a in agents && Text(a.id) in order :: a.id in AgentIds(Listed(agents, order))
    ensures NoRepeatedText(order) ==> DistinctIds(Listed(agents, order))
  {
    if order != [] {
      var n := |order| - 1;
      ListedAreAgents(agents, order[..n]);
      assert order == order[..n] + [order[n]];
      var before, all := Listed(agents, order[..n]), Listed(agents, order);
      forall a | a in agents && Text(a.id) in order ensures a.id in AgentIds(all) {
        if order[n] == Text(a.id) {
          assert all[|all| - 1].id == a.id && all[|all| - 1] in all;
        } else {
          assert a.id in AgentIds(before);
          var b :| b in before && b.id == a.id;
          assert b in all;
        }
      }
      if NoRepeatedText(order) {
        forall b | b in before ensures Text(b.id) != order[n] {
          var k :| 0 <= k < n && order[..n][k] == Text(b.id);
          assert order[k] == Text(b.id);
        }
      }
    }
  }

  lemma {:induction false} OthersDistinct(agents: seq<Agent>, ids: set<string>)
    requires DistinctIds(agents)
    ensures DistinctIds(Others(agents, ids))
  {
    if agents != [] {
      var n := |agents| - 1;
      OthersDistinct(agents[..n], ids);
      forall a | a in Others(agents[..n], ids) ensures a.id != agents[n].id {
        var i :| 0 <= i < n && agents[..n][i] == a;
        assert agents[i] == a;
      }
    }
  }

  /** With distinct agents and an order without repetitions the result is a permutation of the agents:
      first the listed ones in listed order, then the rest in their original order. */
  lemma {:induction false} OrderingPermutes(agents: seq<Agent>, order: seq<OrderEntry>)
    requires agents != [] && DistinctIds(agents) && NoRepeatedText(order)
    ensures var listed := Listed(agents, order);
            var others := Others(agents, set a | a in agents && Text(a.id) in order :: a.id);
            var r := Ordered(Plan(Some(order), agents));
            && r == Some(listed + others) && DistinctIds(r.value)
            && (forall a :: a in r.value <==> a in agents)
            && (forall a :: a in listed <==> a in agents && Text(a.id) in order)
  {
    hide Listed, Others, NoRepeatedText;
    var listed := Listed(agents, order);
    ListedAreAgents(agents, order);
    assert AgentIds(listed) == set a | a in agents && Text(a.id) in order :: a.id;
    forall a | a in agents && a.id in AgentIds(listed) ensures a in listed {
      var b :| b in listed && b.id == a.id;
      OnlyOneWithId(agents, a, b);
    }
    OthersDistinct(agents, AgentIds(listed));
    var others := Others(agents, AgentIds(listed));
    assert forall i, j | 0 <= i < |listed| && 0 <= j < |others| :: listed[i].id != others[j].id by {
      forall i, j | 0 <= i < |listed| && 0 <= j < |others| ensures listed[i].id != others[j].id {
        assert listed[i] in listed && others[j] in others;
      }
    }
  }

  lemma OnlyOneWithId(agents: seq<Agent>, a: Agent, b: Agent)
    requires DistinctIds(agents) && a in agents && b in agents && a.id == b.id
    ensures a == b
  {
    var i :| 0 <= i < |agents| && agents[i] == a;
    var j :| 0 <= j < |agents| && agents[j] == b;
    assert i == j;
  }

  // ---------------------------------------------------------------- ordering by blueprint roles

  /** `by_role[role]`: the last declared agent with that role. */
  function LastWithRole(agents: seq<Agent>, role: string): (r: Option<Agent>)
    ensures r.None? <==> forall a | a in agents :: a.role != role
    ensures r.Some? ==> r.value in agents && r.value.role == role
  {
    if agents == [] then None
    else
      var last := agents[|agents| - 1];
      assert agents == agents[..|agents| - 1] + [last];
      if last.role == role then Some(last) else LastWithRole(agents[..|agents| - 1], role)
  }

  function ListedByRole(agents: seq<Agent>, order: seq<OrderEntry>): seq<Agent> {
    if order == [] then []
    else
      var n := |order| - 1;
      var entry := order[n];
      ListedByRole(agents, order[..n])
      + (if entry.Text? && LastWithRole(agents, entry.id).Some? then [LastWithRole(agents, entry.id).value] else [])
  }

  /** ordered_blueprint_assigned_agents */
  function BlueprintOrdered(agents: seq<Agent>, order: Option<seq<OrderEntry>>): seq<Agent> {
    if agents == [] || order.None? then agents
    else
      var listed := ListedByRole(agents, order.value);
      listed + Others(agents, AgentIds(listed))
  }

  method OrderedBlueprintAssignedAgents(agents: seq<Agent>, order: Option<seq<OrderEntry>>) returns (ordered: seq<Agent>)
    ensures ordered == BlueprintOrdered(agents, order)
  {
    if agents == [] || order.None? { return agents; }
    ordered := [];
    for k := 0 to |order.value|
      invariant ordered == ListedByRole(agents, order.value[..k])
    {
      if order.value[k].Text? {
        var agent := LastWithRole(agents, order.value[k].id);
        if agent.Some? { ordered := ordered + [agent.value]; }
      }
      assert order.value[..k + 1][..k] == order.value[..k];
    }
    assert order.value[..|order.value|] == order.value;
    var rest := TakeOthers(agents, AgentIds(ordered));
    ordered := ordered + rest;
  }

  // ---------------------------------------------------------------- the order is followed

  /** Place `i` holds the last declared agent with the role. */
  ghost predicate LastOfRole(agents: seq<Agent>, role: string, i: nat) {
    i < |agents| && agents[i].role == role && forall j | i < j < |agents| :: agents[j].role != role
  }

  /** Place `i` holds the last declared agent with the id. */
  ghost predicate LastOfId(agents: seq<Agent>, id: string, i: nat) {
    i < |agents| && agents[i].id == id && forall j | i < j < |agents| :: agents[j].id != id
  }

  lemma {:induction false} LastWithRoleExactly(agents: seq<Agent>, role: string, i: nat)
    requires LastOfRole(agents, role, i)
    ensures LastWithRole(agents, role) == Some(agents[i])
  {
    var n := |agents| - 1;
    if i < n { LastWithRoleExactly(agents[..n], role, i); }
  }

  lemma {:induction false} LastWithIdExactly(agents: seq<Agent>, id: string, i: nat)
    requires LastOfId(agents, id, i)
    ensures LastWithId(agents, id) == Some(agents[i])
  {
    var n := |agents| - 1;
    if i < n { LastWithIdExactly(agents[..n], id, i); }
  }

  /** The entry names a role of some declared agent. */
  predicate NamesRole(agents: seq<Agent>, entry: OrderEntry) {
    entry.Text? && exists a :: a in agents && a.role == entry.id
  }

  /** The entry names some declared agent. */
  predicate NamesId(agents: seq<Agent>, entry: OrderEntry) {
    entry.Text? && exists a :: a in agents && a.id == entry.id
  }

  /** How many of the first `n` entries name a declared role. */
  function RoleRank(agents: seq<Agent>, order: seq<OrderEntry>, n: nat): (r: nat)
    requires n <= |order|
    ensures r <= n
  {
    if n == 0 then 0 else RoleRank(agents, order, n - 1) + if NamesRole(agents, order[n - 1]) then 1 else 0
  }

  /** How many of the first `n` entries name a declared agent. */
  function IdRank(agents: seq<Agent>, order: seq<OrderEntry>, n: nat): (r: nat)
    requires n <= |order|
    ensures r <= n
  {
    if n == 0 then 0 else IdRank(agents, order, n - 1) + if NamesId(agents, order[n - 1]) then 1 else 0
  }

  /** Of two entries that name declared roles the earlier one ranks first. */
  lemma {:induction false} RankGrows(agents: seq<Agent>, order: seq<OrderEntry>, i: nat, j: nat)
    requires i < j <= |order| && NamesRole(agents, order[i])
    ensures RoleRank(agents, order, i) < RoleRank(agents, order, j)
  {
    hide NamesRole;
    if i + 1 < j { RankGrows(agents, order, i, j - 1); }
  }

  lemma {:induction false} RankOfAll(agents: seq<Agent>, order: seq<OrderEntry>, n: nat)
    requires n <= |order| && forall k | 0 <= k < n :: NamesRole(agents, order[k])
    ensures RoleRank(agents, order, n) == n
  {
    hide NamesRole;
    if n > 0 { RankOfAll(agents, order, n - 1); }
  }

  lemma {:induction false} SameRanks(agents: seq<Agent>, order: seq<OrderEntry>, m: nat, n: nat)
    requires n <= m <= |order|
    ensures RoleRank(agents, order[..m], n) == RoleRank(agents, order, n)
    ensures IdRank(agents, order[..m], n) == IdRank(agents, order, n)
  {
    hide NamesRole, NamesId;
    if n > 0 { SameRanks(agents, order, m, n - 1); }
  }

  /** The listed agent of the entry at place `k`: the last one declared with the role it names. */
  ghost predicate RoleAt(agents: seq<Agent>, order: seq<OrderEntry>, k: nat, listed: seq<Agent>)
    requires k < |order| && NamesRole(agents, order[k])
  {
    var place := RoleRank(agents, order, k);
    place < |listed| && forall i: nat | LastOfRole(agents, order[k].id, i) :: listed[place] == agents[i]
  }

  /** The listed agent of the entry at place `k`: the last one declared with the id it names. */
  ghost predicate IdAt(agents: seq<Agent>, order: seq<OrderEntry>, k: nat, listed: seq<Agent>)
    requires k < |order| && NamesId(agents, order[k])
  {
    var place := IdRank(agents, order, k);
    place < |listed| && forall i: nat | LastOfId(agents, order[k].id, i) :: listed[place] == agents[i]
  }

  /** The listed agents are those of the entries that name a role, entry by entry. */
  lemma {:induction false} ListedByRoleInOrder(agents: seq<Agent>, order: seq<OrderEntry>)
    ensures |ListedByRole(agents, order)| == RoleRank(agents, order, |order|)
    ensures forall k: nat | k < |order| && NamesRole(agents, order[k]) :: RoleAt(agents, order, k, ListedByRole(agents, order))
  {
    hide LastOfRole;
    if order != [] {
      var n, listed := |order| - 1, ListedByRole(agents, order);
      ListedByRoleInOrder(agents, order[..n]);
      forall k: nat | k <= n ensures RoleRank(agents, order[..n], k) == RoleRank(agents, order, k) {
        SameRanks(agents, order, n, k);
      }
      forall k: nat | k < |order| && NamesRole(agents, order[k]) ensures RoleAt(agents, order, k, listed) {
        if k < n {
          assert order[..n][k] == order[k] && RoleAt(agents, order[..n], k, ListedByRole(agents, order[..n]));
        } else {
          forall i: nat | LastOfRole(agents, order[n].id, i) { LastWithRoleExactly(agents, order[n].id, i); }
        }
      }
    }
  }

  /** The listed agents are those of the entries that name an agent, entry by entry. */
  lemma {:induction false} ListedInOrder(agents: seq<Agent>, order: seq<OrderEntry>)
    ensures |Listed(agents, order)| == IdRank(agents, order, |order|)
    ensures forall k: nat | k < |order| && NamesId(agents, order[k]) :: IdAt(agents, order, k, Listed(agents, order))
  {
    hide LastOfId;
    if order != [] {
      var n, listed := |order| - 1, Listed(agents, order);
      ListedInOrder(agents, order[..n]);
      forall k: nat | k <= n ensures IdRank(agents, order[..n], k) == IdRank(agents, order, k) {
        SameRanks(agents, order, n, k);
      }
      forall k: nat | k < |order| && NamesId(agents, order[k]) ensures IdAt(agents, order, k, listed) {
        if k < n {
          assert order[..n][k] == order[k] && IdAt(agents, order[..n], k, Listed(agents, order[..n]));
        } else {
          forall i: nat | LastOfId(agents, order[n].id, i) { LastWithIdExactly(agents, order[n].id, i); }
        }
      }
    }
  }

  /** `others` are the agents at these places, in declared order: those whose ids are not among `ids`. */
  ghost predicate OthersAt(agents: seq<Agent>, ids: set<string>, others: seq<Agent>, places: seq<nat>) {
    && |others| == |places|
    && (forall k | 0 <= k < |places| :: places[k] < |agents| && others[k] == agents[places[k]] && others[k].id !in ids)
    && (forall j, k | 0 <= j < k < |places| :: places[j] < places[k])
    && (forall i: nat | i < |agents| && agents[i].id !in ids :: i in places)
  }

  lemma OneMorePlace(agents: seq<Agent>, ids: set<string>, others: seq<Agent>, places: seq<nat>)
    requires agents != []
    requires OthersAt(agents[..|agents| - 1], ids, others, places)
    ensures var n := |agents| - 1;
            if agents[n].id in ids then OthersAt(agents, ids, others, places)
            else OthersAt(agents, ids, others + [agents[n]], places + [n])
  {
    var n := |agents| - 1;
    forall i: nat | i < n && agents[i].id !in ids ensures i in places { assert agents[..n][i].id !in ids; }
    assert n in places + [n];
  }

  lemma NoPlaces(ids: set<string>)
    ensures OthersAt([], ids, [], [])
  {
  }

  /** The agents left over keep their declared order, each as often as it is declared. */
  lemma {:induction false} OthersInOrder(agents: seq<Agent>, ids: set<string>) returns (places: seq<nat>)
    ensures OthersAt(agents, ids, Others(agents, ids), places)
  {
    hide OthersAt;
    places := [];
    if agents == [] {
      NoPlaces(ids);
    } else {
      var n := |agents| - 1;
      places := OthersInOrder(agents[..n], ids);
      OneMorePlace(agents, ids, Others(agents[..n], ids), places);
      if agents[n].id in ids { assert Others(agents, ids) == Others(agents[..n], ids); } else { places := places + [n]; }
    }
  }

  /** `written` follows the execution order: first, in the order of the entries that name a declared role, the
      last agent of each of those roles; then, in declared order, the agents whose id none of them has. */
  ghost predicate FollowsOrder(agents: seq<Agent>, order: seq<OrderEntry>, written: seq<Agent>) {
    var n := RoleRank(agents, order, |order|);
    && n <= |written|
    && (forall k: nat | k < |order| && NamesRole(agents, order[k]) :: RoleAt(agents, order, k, written[..n]))
    && exists places :: OthersAt(agents, AgentIds(written[..n]), written[n..], places)
  }

  /** The blueprint's execution order is followed, for any order and any agents: if two entries name
      declared roles, the agent of the earlier one comes first. */
  lemma {:induction false} ExecutionOrderFollowed(agents: seq<Agent>, order: seq<OrderEntry>)
    requires agents != []
    ensures FollowsOrder(agents, order, BlueprintOrdered(agents, Some(order)))
    ensures forall i: nat, j: nat | i < j < |order| && NamesRole(agents, order[i]) && NamesRole(agents, order[j]) ::
              RoleRank(agents, order, i) < RoleRank(agents, order, j)
  {
    hide ListedByRole, Others, RoleAt, OthersAt, AgentIds, NamesRole;
    ListedByRoleInOrder(agents, order);
    var listed, written := ListedByRole(agents, order), BlueprintOrdered(agents, Some(order));
    var places := OthersInOrder(agents, AgentIds(listed));
    assert written[..|listed|] == listed && written[|listed|..] == Others(agents, AgentIds(listed));
    forall i: nat, j: nat | i < j < |order| && NamesRole(agents, order[i]) && NamesRole(agents, order[j])
      ensures RoleRank(agents, order, i) < RoleRank(agents, order, j)
    {
      RankGrows(agents, order, i, j);
    }
  }

  /** When every entry names a declared role, the plan begins with one agent for each entry, in the very order
      of the entries: the one at place `k` has the role that entry `k` names. */
  lemma {:induction false} FullOrderIsFollowed(agents: seq<Agent>, order: seq<OrderEntry>)
    requires agents != [] && forall k | 0 <= k < |order| :: NamesRole(agents, order[k])
    ensures var written := BlueprintOrdered(agents, Some(order));
            |written| >= |order| && forall k | 0 <= k < |order| :: order[k].Text? && written[k].role == order[k].id
  {
    hide ListedByRole, Others;
    ListedByRoleInOrder(agents, order);
    forall k: nat | k <= |order| ensures RoleRank(agents, order, k) == k { RankOfAll(agents, order, k); }
    forall k: nat | k < |order| ensures ListedByRole(agents, order)[k].role == order[k].id {
      var a :| a in agents && a.role == order[k].id;
      var i := LastPlace(agents, order[k].id, |agents|);
      assert RoleAt(agents, order, k, ListedByRole(agents, order));
    }
  }

  lemma {:induction false} LastPlace(agents: seq<Agent>, role: string, n: nat) returns (i: nat)
    requires n <= |agents| && (exists j :: 0 <= j < n && agents[j].role == role)
    requires forall j | n <= j < |agents| :: agents[j].role != role
    ensures LastOfRole(agents, role, i)
  {
    if agents[n - 1].role == role { i := n - 1; } else { i := LastPlace(agents, role, n - 1); }
  }

  /** Without an execution order the declared order stands; a plan without agents has no order. */
  lemma {:induction false} NoOrderKeepsAgents(agents: seq<Agent>, order: Option<seq<OrderEntry>>)
    ensures BlueprintOrdered(agents, None) == agents && BlueprintOrdered([], order) == []
    ensures Ordered(Plan(None, agents)) == (if agents == [] then None else Some(agents)) && Ordered(Plan(order, [])).None?
  {
  }

  /** A plan's execution order is followed when it is read, for any order and any agents: first, in the order of
      the entries that name an agent, the last agent of each of those ids; then, in declared order, the agents
      whose id is not among them. */
  lemma {:induction false} PlanOrderFollowed(agents: seq<Agent>, order: seq<OrderEntry>)
    requires agents != []
    ensures var read, n := Ordered(Plan(Some(order), agents)), IdRank(agents, order, |order|);
            && read.Some? && n <= |read.value|
            && (forall k: nat | k < |order| && NamesId(agents, order[k]) :: IdAt(agents, order, k, read.value[..n]))
            && exists places :: OthersAt(agents, AgentIds(read.value[..n]), read.value[n..], places)
  {
    hide Listed, Others, IdAt, OthersAt, AgentIds, NamesId;
    ListedInOrder(agents, order);
    var listed, read := Listed(agents, order), Ordered(Plan(Some(order), agents)).value;
    var places := OthersInOrder(agents, AgentIds(listed));
    assert read[..|listed|] == listed && read[|listed|..] == Others(agents, AgentIds(listed));
  }

  /** Each role has one agent id and each id one role, as blueprint_assigned_agents builds them. */
  ghost predicate RolesMatchIds(agents: seq<Agent>) {
    forall a, b | a in agents && b in agents :: a.id == b.id <==> a.role == b.role
  }

  lemma {:induction false} ListedByRoleExactly(agents: seq<Agent>, order: seq<OrderEntry>)
    ensures forall a :: a in ListedByRole(agents, order) <==> Text(a.role) in order && Some(a) == LastWithRole(agents, a.role)
  {
    hide LastWithRole;
    if order != [] {
      ListedByRoleExactly(agents, order[..|order| - 1]);
      assert order == order[..|order| - 1] + [order[|order| - 1]];
    }
  }

  lemma SameIdByMembership(agents: seq<Agent>)
    ensures SameIdSameAgent(agents) <==> forall a, b | a in agents && b in agents && a.id == b.id :: a == b
  {
    if SameIdSameAgent(agents) {
      forall a, b | a in agents && b in agents && a.id == b.id ensures a == b {
        var i :| 0 <= i < |agents| && agents[i] == a;
        var j :| 0 <= j < |agents| && agents[j] == b;
      }
    }
  }

  lemma ListedIds(agents: seq<Agent>, order: seq<OrderEntry>, a: Agent)
    requires RolesMatchIds(agents) && a in agents
    ensures a.id in AgentIds(ListedByRole(agents, order)) <==> Text(a.role) in order
  {
    ListedByRoleExactly(agents, order);
    var listed, last := ListedByRole(agents, order), LastWithRole(agents, a.role);
    assert last.Some? && last.value.id == a.id;
    if Text(a.role) in order { assert last.value in listed; }
    if a.id in AgentIds(listed) {
      var b :| b in listed && b.id == a.id;
      assert b in agents;
    }
  }

  /** The plan written for a blueprint reads back as the order it was written in exactly when every
      two different agents declared for one id (as `docs` and `documentation` are) have their role
      named in the blueprint's execution order. */
  lemma {:induction false} BlueprintPlanReadBackExactly(agents: seq<Agent>, order: seq<OrderEntry>)
    requires agents != [] && RolesMatchIds(agents)
    ensures var written := BlueprintOrdered(agents, Some(order));
            written != [] && (Ordered(PlanFor(written)) == Some(written) <==>
              forall a, b | a in agents && b in agents && a.id == b.id && Text(a.role) !in order :: a == b)
  {
    var listed, written := ListedByRole(agents, order), BlueprintOrdered(agents, Some(order));
    var others := Others(agents, AgentIds(listed));
    hide ListedByRole, LastWithRole, Others, RolesMatchIds, AgentIds, Ordered, PlanFor;
    ListedByRoleExactly(agents, order);
    forall a | a in agents ensures a in others <==> Text(a.role) !in order {
      ListedIds(agents, order, a);
    }
    WrittenIsInhabited(agents, listed, others, order);
    PlanReadBackExactly(written);
    SameIdByMembership(written);
    hide SameIdSameAgent;
    forall a, b | a in listed && b in written && a.id == b.id ensures a == b {
      ListedAgentIsUnique(agents, order, a, b);
    }
  }

  lemma WrittenIsInhabited(agents: seq<Agent>, listed: seq<Agent>, others: seq<Agent>, order: seq<OrderEntry>)
    requires agents != [] && forall a | a in agents :: a in others <==> Text(a.role) !in order
    requires forall a :: a in listed <==> Text(a.role) in order && Some(a) == LastWithRole(agents, a.role)
    ensures listed + others != []
  {
    var a := agents[0];
    assert a in agents;
    if Text(a.role) in order {
      assert LastWithRole(agents, a.role).value in listed;
    } else {
      assert a in others;
    }
  }

  lemma ListedAgentIsUnique(agents: seq<Agent>, order: seq<OrderEntry>, a: Agent, b: Agent)
    requires RolesMatchIds(agents) && a in ListedByRole(agents, order) && a.id == b.id
    requires b in BlueprintOrdered(agents, Some(order))
    ensures a == b
  {
    ListedByRoleExactly(agents, order);
    assert a in agents;
    assert b in agents;
    assert a.id in AgentIds(ListedByRole(agents, order));
  }

  /** The concrete failure: a blueprint declares `docs` and `documentation` with different details and
      names no role in its execution order. The plan is written with both agents and read back with the
      second one twice. */
  lemma {:induction false} TwoDocumentationAgentsAreLost(first: string, second: string)
    requires first != second
    ensures var a, b := Agent("docs_agent", "documentation", first), Agent("docs_agent", "documentation", second);
            BlueprintOrdered([a, b], Some([])) == [a, b] && Ordered(PlanFor([a, b])) == Some([b, b])
  {
    var a, b := Agent("docs_agent", "documentation", first), Agent("docs_agent", "documentation", second);
    var agents := [a, b];
    NothingListed(agents);
    ReadBackIsLast(agents);
    assert agents[..1] == [a];
    assert LastWithId(agents, a.id) == Some(b);
    assert Ordered(PlanFor(agents)).value == [b, b];
  }

  lemma {:induction false} NothingLeftOut(agents: seq<Agent>)
    ensures Others(agents, {}) == agents
  {
    if agents != [] {
      NothingLeftOut(agents[..|agents| - 1]);
      assert agents == agents[..|agents| - 1] + [agents[|agents| - 1]];
    }
  }

  lemma NothingListed(agents: seq<Agent>)
    ensures BlueprintOrdered(agents, Some([])) == agents
  {
    NothingLeftOut(agents);
    assert AgentIds([]) == {};
  }
}
