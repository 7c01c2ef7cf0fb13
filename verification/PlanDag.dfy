/** ValidatePlan and its three-colour depth-first search for dependency cycles. */
module PlanDag {
  import opened Common
  import opened ExecutionTypes
  import LeaseProtocol

  datatype Plan = Plan(id: string, goalRef: string, revision: int, nodes: seq<PlanNode>)

  type Graph = map<string, seq<string>>

  // ---- Cycles and rankings -------------------------------------------------

  ghost predicate Edge(g: Graph, a: string, b: string) {
    a in g && exists i | 0 <= i < |g[a]| :: g[a][i] == b
  }

  ghost predicate Walk(g: Graph, p: seq<string>) {
    forall i | 0 <= i < |p| - 1 :: Edge(g, p[i], p[i + 1])
  }

  ghost predicate IsCycle(g: Graph, p: seq<string>) {
    |p| >= 2 && p[0] == p[|p| - 1] && Walk(g, p)
  }

  ghost predicate Cyclic(g: Graph) {
    exists p :: IsCycle(g, p)
  }

  /** Every ranked node that has dependencies ranks above each of them. */
  ghost predicate Descends(g: Graph, rank: map<string, nat>) {
    forall a, i | a in rank && a in g && 0 <= i < |g[a]| :: g[a][i] in rank && rank[g[a][i]] < rank[a]
  }

  ghost predicate Ranked(g: Graph, rank: map<string, nat>) {
    Descends(g, rank) && forall a | a in g :: a in rank
  }

  lemma {:induction false} RankFalls(g: Graph, rank: map<string, nat>, p: seq<string>, k: nat)
    requires Ranked(g, rank) && Walk(g, p) && k < |p| && |p| >= 2
    ensures p[0] in rank && p[k] in rank && rank[p[k]] + k <= rank[p[0]]
  {
    assert Edge(g, p[0], p[1]);
    if k > 0 {
      RankFalls(g, rank, p, k - 1);
      assert Edge(g, p[k - 1], p[k]);
    }
  }

  /** A topological ranking rules out every cycle. */
  lemma RankedIsAcyclic(g: Graph, rank: map<string, nat>)
    requires Ranked(g, rank)
    ensures !Cyclic(g)
  {
    forall p | IsCycle(g, p) ensures false {
      RankFalls(g, rank, p, |p| - 1);
    }
  }

  // ---- hasCycle ------------------------------------------------------------

  datatype Colour = Visiting | Done

  /** The dependency graph stays inside a finite universe of ids. */
  ghost predicate Closed(g: Graph, universe: set<string>) {
    && (forall x | x in g :: x in universe)
    && (forall x, i | x in g && 0 <= i < |g[x]| :: g[x][i] in universe)
  }

  /** The ids being visited are those on the stack, and the stack is a walk. */
  ghost predicate OnStack(g: Graph, state: map<string, Colour>, path: seq<string>) {
    && (forall i | 0 <= i < |path| :: path[i] in state && state[path[i]].Visiting?)
    && (forall x | x in state && state[x].Visiting? :: x in path)
    && Walk(g, path)
  }

  /** The finished ids are ranked above all their dependencies, and below top. */
  ghost predicate Finished(g: Graph, state: map<string, Colour>, rank: map<string, nat>, top: nat) {
    && (forall x | x in rank :: x in state && state[x].Done? && rank[x] < top)
    && (forall x | x in state && state[x].Done? :: x in rank)
    && Descends(g, rank)
  }

  /** Nothing is forgotten and nothing finished is reopened. */
  ghost predicate Later(a: map<string, Colour>, b: map<string, Colour>) {
    forall x | x in a :: x in b && (a[x].Done? ==> b[x].Done?)
  }

  lemma Enter(g: Graph, state: map<string, Colour>, rank: map<string, nat>, top: nat, path: seq<string>, id: string)
    requires OnStack(g, state, path) && Finished(g, state, rank, top) && id !in state
    requires path != [] ==> Edge(g, path[|path| - 1], id)
    ensures OnStack(g, state[id := Visiting], path + [id]) && Finished(g, state[id := Visiting], rank, top)
  {
    var stack := path + [id];
    assert stack[|path|] == id;
    forall i | 0 <= i < |stack| - 1 ensures Edge(g, stack[i], stack[i + 1]) {
      if i < |path| - 1 { assert Edge(g, path[i], path[i + 1]); }
    }
  }

  lemma Leave(g: Graph, state: map<string, Colour>, rank: map<string, nat>, top: nat, path: seq<string>, id: string)
    requires OnStack(g, state, path + [id]) && Finished(g, state, rank, top)
    requires forall i | 0 <= i < |path| :: path[i] != id
    requires id in g ==> forall i | 0 <= i < |g[id]| :: g[id][i] in state && state[g[id][i]].Done?
    ensures OnStack(g, state[id := Done], path) && Finished(g, state[id := Done], rank[id := top], top + 1)
  {
    var stack := path + [id];
    assert stack[|path|] == id;
    forall i | 0 <= i < |path| ensures path[i] in state && state[path[i]].Visiting? { assert stack[i] == path[i]; }
    forall i | 0 <= i < |path| - 1 ensures Edge(g, path[i], path[i + 1]) {
      assert Edge(g, stack[i], stack[i + 1]);
    }
  }

  /** The search state captured by the visit closure; an id without a colour is unseen. */
  class CycleSearch {
    const deps: Graph
    var state: map<string, Colour>

    ghost const universe: set<string>
    ghost var rank: map<string, nat>
    ghost var top: nat

    ghost predicate Valid(path: seq<string>)
      reads this
    {
      && Closed(deps, universe)
      && OnStack(deps, state, path)
      && Finished(deps, state, rank, top)
    }

    constructor (deps: Graph)
      ensures this.deps == deps && state == map[] && Valid([])
    {
      this.deps := deps;
      state := map[];
      universe := deps.Keys + set x, i | x in deps && 0 <= i < |deps[x]| :: deps[x][i];
      rank, top := map[], 0;
    }

    method Visit(id: string, ghost path: seq<string>) returns (found: bool)
      requires Valid(path) && id in universe
      requires path != [] ==> Edge(deps, path[|path| - 1], id)
      modifies this
      ensures found ==> Cyclic(deps)
      ensures !found ==> Valid(path) && Later(old(state), state) && id in state && state[id].Done?
      decreases universe - state.Keys, 0
    {
      if id in state && state[id].Visiting? {
        ClosesCycle(deps, path, id);
        return true;
      }
      if id in state && state[id].Done? { return false; }
      Enter(deps, state, rank, top, path, id);
      state := state[id := Visiting];
      found := VisitAll(if id in deps then deps[id] else [], id, path + [id]);
      if found { return true; }
      Leave(deps, state, rank, top, path, id);
      state := state[id := Done];
      rank, top := rank[id := top], top + 1;
      return false;
    }

    /** The loop over the dependencies of the node on top of the stack. */
    method VisitAll(edges: seq<string>, id: string, ghost stack: seq<string>) returns (found: bool)
      requires Valid(stack) && stack != [] && stack[|stack| - 1] == id
      requires edges == if id in deps then deps[id] else []
      modifies this
      ensures found ==> Cyclic(deps)
      ensures !found ==> Valid(stack) && Later(old(state), state)
      ensures !found ==> forall j | 0 <= j < |edges| :: edges[j] in state && state[edges[j]].Done?
      decreases universe - state.Keys, 1
    {
      for i := 0 to |edges|
        invariant Valid(stack) && Later(old(state), state)
        invariant forall j | 0 <= j < i :: edges[j] in state && state[edges[j]].Done?
      {
        assert old(state).Keys <= state.Keys;
        found := Visit(edges[i], stack);
        if found { return true; }
      }
      return false;
    }
  }

  /** An edge back to a node of the stack closes a cycle. */
  lemma ClosesCycle(g: Graph, path: seq<string>, id: string)
    requires Walk(g, path) && id in path && Edge(g, path[|path| - 1], id)
    ensures Cyclic(g)
  {
    var k :| 0 <= k < |path| && path[k] == id;
    var p := path[k..] + [id];
    forall i | 0 <= i < |p| - 1 ensures Edge(g, p[i], p[i + 1]) {
      if i < |p| - 2 { assert Edge(g, path[k + i], path[k + i + 1]); }
    }
    assert IsCycle(g, p);
  }

  /** The dependency map: the last node with an id wins. */
  function DepsOf(nodes: seq<PlanNode>): Graph {
    if nodes == [] then map[]
    else
      var last := nodes[|nodes| - 1];
      DepsOf(nodes[..|nodes| - 1])[last.id := last.dependsOn]
  }

  /** Terminates for every graph and finds a cycle exactly when there is one, whatever order keys come in. */
  method HasCycle(nodes: seq<PlanNode>) returns (found: bool)
    ensures found <==> Cyclic(DepsOf(nodes))
    ensures !found ==> exists rank :: Ranked(DepsOf(nodes), rank)
  {
    var deps: Graph := map[];
    for i := 0 to |nodes|
      invariant deps == DepsOf(nodes[..i])
    {
      deps := deps[nodes[i].id := nodes[i].dependsOn];
      assert nodes[..i + 1][..i] == nodes[..i];
    }
    assert nodes[..|nodes|] == nodes;
    var search := new CycleSearch(deps);
    var rest := deps.Keys;
    while rest != {}
      invariant search.Valid([]) && search.deps == deps && rest <= deps.Keys
      invariant forall x | x in deps.Keys - rest :: x in search.state && search.state[x].Done?
      decreases rest
    {
      var id :| id in rest;
      rest := rest - {id};
      if id !in search.state {
        found := search.Visit(id, []);
        if found { return true; }
      }
    }
    assert Ranked(deps, search.rank);
    RankedIsAcyclic(deps, search.rank);
    return false;
  }

  // ---- ValidatePlan --------------------------------------------------------

  predicate ValidEffect(e: EffectSpec) {
    match e.class_
    case EffectPure => true
    case EffectReadOnly => true
    case EffectIdempotentMutation => e.idempotencyKey != "" && e.retrySafe
    case EffectNonIdempotentMutation => !e.retrySafe
    case EffectUnknown(_) => false
  }

  predicate UniqueIds(nodes: seq<PlanNode>) {
    forall i, j | 0 <= i < j < |nodes| :: nodes[i].id != nodes[j].id
  }

  predicate Distinct(s: seq<string>) {
    forall i, j | 0 <= i < j < |s| :: s[i] != s[j]
  }

  predicate KnownId(nodes: seq<PlanNode>, id: string) {
    exists k | 0 <= k < |nodes| :: nodes[k].id == id
  }

  predicate NodeOk(node: PlanNode) {
    node.id != "" && ValidEffect(node.effect)
  }

  predicate DepsOk(nodes: seq<PlanNode>, node: PlanNode) {
    Distinct(node.dependsOn) && forall j | 0 <= j < |node.dependsOn| :: KnownId(nodes, node.dependsOn[j])
  }

  /** rank is a topological ranking of the plan. */
  ghost predicate Topological(nodes: seq<PlanNode>, rank: map<string, nat>) {
    forall i | 0 <= i < |nodes| ::
      && nodes[i].id in rank
      && forall j | 0 <= j < |nodes[i].dependsOn| ::
           nodes[i].dependsOn[j] in rank && rank[nodes[i].dependsOn[j]] < rank[nodes[i].id]
  }

  /** The bounded-DAG contract, without reference to any search. */
  ghost predicate ValidPlan(plan: Plan) {
    && plan.id != "" && plan.goalRef != "" && plan.revision > 0 && plan.nodes != []
    && (forall i | 0 <= i < |plan.nodes| :: NodeOk(plan.nodes[i]) && DepsOk(plan.nodes, plan.nodes[i]))
    && UniqueIds(plan.nodes)
    && exists rank :: Topological(plan.nodes, rank)
  }

  lemma {:induction false} DepsOfUnique(nodes: seq<PlanNode>, i: nat)
    requires UniqueIds(nodes) && i < |nodes|
    ensures nodes[i].id in DepsOf(nodes) && DepsOf(nodes)[nodes[i].id] == nodes[i].dependsOn
    decreases |nodes|
  {
    var front := nodes[..|nodes| - 1];
    if i < |front| {
      assert front[i] == nodes[i] && nodes[i].id != nodes[|nodes| - 1].id;
      DepsOfUnique(front, i);
    }
  }

  lemma {:induction false} DepsOfKnown(nodes: seq<PlanNode>, x: string) returns (k: nat)
    requires x in DepsOf(nodes)
    ensures k < |nodes| && nodes[k].id == x
    decreases |nodes|
  {
    k := |nodes| - 1;
    if nodes[k].id != x {
      k := DepsOfKnown(nodes[..|nodes| - 1], x);
    }
  }

  lemma TopologicalIsRanked(nodes: seq<PlanNode>, rank: map<string, nat>)
    requires UniqueIds(nodes)
    ensures Topological(nodes, rank) <==> Ranked(DepsOf(nodes), rank)
  {
    var g := DepsOf(nodes);
    forall i | 0 <= i < |nodes| ensures nodes[i].id in g && g[nodes[i].id] == nodes[i].dependsOn {
      DepsOfUnique(nodes, i);
    }
    forall a | a in g ensures exists k :: 0 <= k < |nodes| && nodes[k].id == a {
      var k := DepsOfKnown(nodes, a);
    }
  }

  datatype PlanError =
    | PlanIdRequired | GoalRefRequired | RevisionNotPositive | NoNodes
    | NodeIdRequired | DuplicateNodeId | InvalidEffect
    | SelfDependency | UnknownDependency | DuplicateDependency
    | ContainsCycle

  /** The plan has the fault that the error names. */
  ghost predicate Shows(plan: Plan, e: PlanError) {
    match e
    case PlanIdRequired => plan.id == ""
    case GoalRefRequired => plan.goalRef == ""
    case RevisionNotPositive => plan.revision <= 0
    case NoNodes => plan.nodes == []
    case ContainsCycle => Cyclic(DepsOf(plan.nodes))
    case _ => ShowsNode(plan.nodes, e) || exists node | node in plan.nodes :: ShowsDependency(plan.nodes, node, e)
  }

  ghost predicate ShowsNode(nodes: seq<PlanNode>, e: PlanError) {
    match e
    case NodeIdRequired => exists node | node in nodes :: node.id == ""
    case DuplicateNodeId => !UniqueIds(nodes)
    case InvalidEffect => exists node | node in nodes :: !ValidEffect(node.effect)
    case _ => false
  }

  ghost predicate ShowsDependency(nodes: seq<PlanNode>, node: PlanNode, e: PlanError) {
    match e
    case SelfDependency => node.id in node.dependsOn
    case UnknownDependency => exists d | d in node.dependsOn :: !KnownId(nodes, d)
    case DuplicateDependency => !Distinct(node.dependsOn)
    case _ => false
  }

  /** Accepts exactly the plans of the bounded-DAG contract, and names a fault of every other. */
  method ValidatePlan(plan: Plan) returns (err: Option<PlanError>)
    ensures err.None? <==> ValidPlan(plan)
    ensures err.Some? ==> Shows(plan, err.value)
  {
    if plan.id == "" { return Some(PlanIdRequired); }
    if plan.goalRef == "" { return Some(GoalRefRequired); }
    if plan.revision <= 0 { return Some(RevisionNotPositive); }
    if plan.nodes == [] { return Some(NoNodes); }
    err := CheckNodes(plan.nodes);
    if err.Some? { return; }
    for i := 0 to |plan.nodes|
      invariant forall k | 0 <= k < i :: DepsOk(plan.nodes, plan.nodes[k])
    {
      err := CheckDeps(plan.nodes, plan.nodes[i]);
      if err.Some? {
        NoSelfRank(plan.nodes, i);
        assert plan.nodes[i] in plan.nodes && ShowsDependency(plan.nodes, plan.nodes[i], err.value);
        return;
      }
    }
    var cyclic := HasCycle(plan.nodes);
    if cyclic {
      forall rank | Topological(plan.nodes, rank) ensures false {
        TopologicalIsRanked(plan.nodes, rank);
        RankedIsAcyclic(DepsOf(plan.nodes), rank);
      }
      return Some(ContainsCycle);
    }
    ghost var rank :| Ranked(DepsOf(plan.nodes), rank);
    TopologicalIsRanked(plan.nodes, rank);
    return None;
  }

  lemma NoSelfRank(nodes: seq<PlanNode>, i: nat)
    requires i < |nodes|
    ensures (exists rank :: Topological(nodes, rank)) ==> nodes[i].id !in nodes[i].dependsOn
  {
  }

  /** First pass: ids and effects. */
  method CheckNodes(nodes: seq<PlanNode>) returns (err: Option<PlanError>)
    ensures err.None? <==> UniqueIds(nodes) && forall i | 0 <= i < |nodes| :: NodeOk(nodes[i])
    ensures err.Some? ==> ShowsNode(nodes, err.value)
  {
    var seen: set<string> := {};
    for i := 0 to |nodes|
      invariant forall x :: x in seen <==> exists k | 0 <= k < i :: nodes[k].id == x
      invariant forall j, k | 0 <= j < k < i :: nodes[j].id != nodes[k].id
      invariant forall k | 0 <= k < i :: NodeOk(nodes[k])
    {
      assert nodes[i] in nodes;
      if nodes[i].id == "" { return Some(NodeIdRequired); }
      if nodes[i].id in seen { return Some(DuplicateNodeId); }
      if !ValidEffect(nodes[i].effect) { return Some(InvalidEffect); }
      seen := seen + {nodes[i].id};
    }
    return None;
  }

  /** Second pass, for one node: known, distinct dependencies other than itself. */
  method CheckDeps(nodes: seq<PlanNode>, node: PlanNode) returns (err: Option<PlanError>)
    ensures err.None? <==> DepsOk(nodes, node) && node.id !in node.dependsOn
    ensures err.Some? ==> ShowsDependency(nodes, node, err.value)
  {
    var seen: set<string> := {};
    for j := 0 to |node.dependsOn|
      invariant forall x :: x in seen <==> exists k | 0 <= k < j :: node.dependsOn[k] == x
      invariant forall i, k | 0 <= i < k < j :: node.dependsOn[i] != node.dependsOn[k]
      invariant forall k | 0 <= k < j :: node.dependsOn[k] != node.id && KnownId(nodes, node.dependsOn[k])
    {
      var dep := node.dependsOn[j];
      if dep == node.id { return Some(SelfDependency); }
      if !KnownId(nodes, dep) { return Some(UnknownDependency); }
      if dep in seen { return Some(DuplicateDependency); }
      seen := seen + {dep};
    }
    return None;
  }

  /** The runtime row that ensureRuntime registers for a plan node. */
  function RuntimeRecord(effect: EffectSpec): NodeRow {
    NodeRow(NodeReady, effect.class_, effect.retrySafe, effect.idempotencyKey, 0, 0, None, None, None)
  }

  /**
   A validated effect can be registered, and starts the lease protocol soundly, unless it is an
   idempotent mutation whose key is only white space: ValidatePlan checks that the key is not empty,
   Register that it is not blank.
   */
  lemma ValidEffectRegisters(key: NodeKey, effect: EffectSpec)
    requires ValidKey(key) && ValidEffect(effect)
    ensures LeaseProtocol.Admissible(RuntimeRecord(effect))
    ensures LeaseProtocol.RegisterRefusal(None, key, RuntimeRecord(effect)).None? <==>
            !(effect.class_.EffectIdempotentMutation? && Blank(effect.idempotencyKey))
  {
  }

  lemma BlankKeyWitness()
    ensures var effect := EffectSpec(EffectIdempotentMutation, " ", true);
            && ValidEffect(effect)
            && LeaseProtocol.RegisterRefusal(None, NodeKey("e", 1, "n"), RuntimeRecord(effect)).Some?
  {
    assert IsSpace(" "[0]);
  }
}
