/** Supervisor.PrepareRunnable, and what it guarantees over whole runs of a plan. */
module Scheduler {
  import opened Common
  import opened ExecutionTypes
  import opened PlanDag
  import opened Ordering
  import Budget
  import Worker

  type Runtimes = map<string, NodeState>

  /** Reading a Go map: a missing node has the empty state. */
  function StateOf(runtimes: Runtimes, id: string): NodeState {
    if id in runtimes then runtimes[id] else NodeUnset
  }

  predicate Waiting(state: NodeState) {
    state.NodeUnset? || state.NodePending? || state.NodeReady?
  }

  predicate DepsSucceeded(node: PlanNode, runtimes: Runtimes) {
    forall j | 0 <= j < |node.dependsOn| :: StateOf(runtimes, node.dependsOn[j]).NodeSucceeded?
  }

  predicate Eligible(node: PlanNode, runtimes: Runtimes) {
    Waiting(StateOf(runtimes, node.id)) && DepsSucceeded(node, runtimes)
  }

  predicate Active(state: NodeState) {
    state.NodeRunning? || state.NodeWaitingApproval? || state.NodeBlocked?
  }

  // ---- PrepareRunnable -----------------------------------------------------

  datatype Phase = PhaseReady | PhaseRunning | PhaseOther(name: string)

  datatype ConditionType = PartiallyBlocked | ApprovalRequired | TargetDegraded

  datatype Condition = Condition(kind: ConditionType, nodeRef: string)

  datatype SchedulerError = NotRunnable | PlanNotReady | PolicyFailed | UnknownDecision | EstimateFailed

  /** The collaborators: policy evaluator, target resolver, cost estimator. */
  datatype Collaborators = Collaborators(
    policy: PlanNode -> Option<PolicyRecord>,
    resolve: PlanNode -> Option<ExecutionTarget>,
    estimate: (PlanNode, ExecutionTarget) -> Option<Budget.Counters>)

  /** The collaborators allow, resolve and estimate this node. */
  predicate Cleared(node: PlanNode, c: Collaborators) {
    && c.policy(node).Some? && c.policy(node).value.decision.PolicyAllow?
    && c.resolve(node).Some?
    && c.estimate(node, c.resolve(node).value).Some?
  }

  /** Why an eligible node is not listed, as its condition says. */
  predicate Blocks(node: PlanNode, c: Collaborators, kind: ConditionType) {
    && c.policy(node).Some?
    && match kind {
         case PartiallyBlocked => c.policy(node).value.decision.PolicyDeny?
         case ApprovalRequired => c.policy(node).value.decision.PolicyRequireApproval?
         case TargetDegraded => c.policy(node).value.decision.PolicyAllow? && c.resolve(node).None?
       }
  }

  /** A collaborator failed on the node. */
  predicate Breaks(node: PlanNode, c: Collaborators, e: SchedulerError) {
    match e
    case PolicyFailed => c.policy(node).None?
    case UnknownDecision => c.policy(node).Some? && c.policy(node).value.decision.PolicyOther?
    case EstimateFailed =>
      && c.policy(node).Some? && c.policy(node).value.decision.PolicyAllow?
      && c.resolve(node).Some? && c.estimate(node, c.resolve(node).value).None?
    case _ => false
  }

  ghost predicate Broken(node: PlanNode, c: Collaborators) {
    exists e :: Breaks(node, c, e)
  }

  /** Every node is cleared, blocked for one reason, or broken. */
  lemma OneVerdict(node: PlanNode, c: Collaborators)
    ensures Cleared(node, c) ==> !Broken(node, c) && forall kind :: !Blocks(node, c, kind)
    ensures Broken(node, c) ==> forall kind :: !Blocks(node, c, kind)
    ensures forall k1, k2 | Blocks(node, c, k1) && Blocks(node, c, k2) :: k1 == k2
    ensures Cleared(node, c) || Broken(node, c) || exists kind :: Blocks(node, c, kind)
  {
    if !Cleared(node, c) && !Broken(node, c) {
      assert !Breaks(node, c, PolicyFailed) && !Breaks(node, c, UnknownDecision) && !Breaks(node, c, EstimateFailed);
      assert Blocks(node, c, PartiallyBlocked) || Blocks(node, c, ApprovalRequired) || Blocks(node, c, TargetDegraded);
    }
  }

  predicate AllCleared(nodes: seq<PlanNode>, c: Collaborators) {
    forall i | 0 <= i < |nodes| :: Cleared(nodes[i], c)
  }

  function Prepared(node: PlanNode, c: Collaborators): Worker.PreparedNode
    requires Cleared(node, c)
  {
    Worker.PreparedNode(node, c.resolve(node).value, c.policy(node).value,
                        c.estimate(node, c.resolve(node).value).value)
  }

  /** Listed nodes are eligible and cleared, and listed in id order. */
  ghost predicate ListedRightly(done: seq<PlanNode>, runtimes: Runtimes, c: Collaborators, prepared: seq<Worker.PreparedNode>) {
    && (forall k | 0 <= k < |prepared| ::
          && prepared[k].node in done
          && Eligible(prepared[k].node, runtimes) && Cleared(prepared[k].node, c)
          && prepared[k] == Prepared(prepared[k].node, c))
    && (forall i, j | 0 <= i < j < |prepared| :: Leq(prepared[i].node.id, prepared[j].node.id))
  }

  /** No eligible and cleared node is missing. */
  ghost predicate ListedFully(done: seq<PlanNode>, runtimes: Runtimes, c: Collaborators, prepared: seq<Worker.PreparedNode>) {
    forall node | node in done && Eligible(node, runtimes) && Cleared(node, c) :: Prepared(node, c) in prepared
  }

  predicate Noted(node: PlanNode, c: Collaborators, conditions: seq<Condition>) {
    exists k | 0 <= k < |conditions| :: conditions[k].nodeRef == node.id && Blocks(node, c, conditions[k].kind)
  }

  ghost predicate Justified(cond: Condition, done: seq<PlanNode>, runtimes: Runtimes, c: Collaborators) {
    exists node | node in done :: node.id == cond.nodeRef && Eligible(node, runtimes) && Blocks(node, c, cond.kind)
  }

  /** Conditions name exactly the eligible nodes that were not cleared, each with its reason. */
  ghost predicate Explained(done: seq<PlanNode>, runtimes: Runtimes, c: Collaborators, conditions: seq<Condition>) {
    && (forall node | node in done && Eligible(node, runtimes) && !Cleared(node, c) :: Noted(node, c, conditions))
    && (forall k | 0 <= k < |conditions| :: Justified(conditions[k], done, runtimes, c))
  }

  /** What PrepareRunnable makes of a list of nodes. */
  ghost predicate Passed(done: seq<PlanNode>, runtimes: Runtimes, c: Collaborators,
                         prepared: seq<Worker.PreparedNode>, conditions: seq<Condition>) {
    && ListedRightly(done, runtimes, c, prepared)
    && ListedFully(done, runtimes, c, prepared)
    && Explained(done, runtimes, c, conditions)
  }

  lemma Reordered(a: seq<PlanNode>, b: seq<PlanNode>, runtimes: Runtimes, c: Collaborators,
                  prepared: seq<Worker.PreparedNode>, conditions: seq<Condition>)
    requires forall node :: node in a <==> node in b
    requires Passed(a, runtimes, c, prepared, conditions)
    ensures Passed(b, runtimes, c, prepared, conditions)
  {
    forall k | 0 <= k < |conditions| ensures Justified(conditions[k], b, runtimes, c) {
      assert Justified(conditions[k], a, runtimes, c);
    }
  }

  lemma SameNodes(a: seq<PlanNode>, b: seq<PlanNode>)
    requires multiset(a) == multiset(b)
    ensures forall node :: node in a <==> node in b
  {
    forall node ensures node in a <==> node in b {
      assert node in a <==> node in multiset(a);
    }
  }

  /** No node is listed twice. */
  ghost predicate NoRepeats(prepared: seq<Worker.PreparedNode>) {
    forall i, j | 0 <= i < j < |prepared| :: prepared[i].node.id != prepared[j].node.id
  }

  lemma {:induction false} CountedTwice(nodes: seq<PlanNode>, node: PlanNode)
    requires multiset(nodes)[node] >= 2
    ensures exists i, j | 0 <= i < j < |nodes| :: nodes[i] == node && nodes[j] == node
    decreases |nodes|
  {
    var front, last := nodes[..|nodes| - 1], nodes[|nodes| - 1];
    assert nodes == front + [last];
    if last == node {
      assert node in multiset(front);
      var i :| 0 <= i < |front| && front[i] == node;
      assert nodes[i] == node && nodes[|nodes| - 1] == node;
    } else {
      CountedTwice(front, node);
      var i, j :| 0 <= i < j < |front| && front[i] == node && front[j] == node;
      assert nodes[i] == node && nodes[j] == node;
    }
  }

  lemma TwiceCounted(nodes: seq<PlanNode>, i: nat, j: nat)
    requires i < j < |nodes| && nodes[i] == nodes[j]
    ensures multiset(nodes)[nodes[i]] >= 2
  {
    assert nodes == nodes[..j] + [nodes[j]] + nodes[j + 1..];
    assert nodes[..j][i] == nodes[i];
  }

  /** Sorting keeps ids unique. */
  lemma StillUnique(a: seq<PlanNode>, b: seq<PlanNode>)
    requires multiset(a) == multiset(b) && UniqueIds(b)
    ensures UniqueIds(a)
  {
    SameNodes(a, b);
    forall i, j | 0 <= i < j < |a| ensures a[i].id != a[j].id {
      if a[i] == a[j] {
        TwiceCounted(a, i, j);
        CountedTwice(b, a[i]);
      } else {
        assert a[i] in b && a[j] in b;
        var k :| 0 <= k < |b| && b[k] == a[i];
        var l :| 0 <= l < |b| && b[l] == a[j];
        assert b[k].id != b[l].id;
      }
    }
  }

  /** One round of the loop. */
  method PrepareOne(done: seq<PlanNode>, node: PlanNode, runtimes: Runtimes, c: Collaborators,
                    prepared: seq<Worker.PreparedNode>, conditions: seq<Condition>)
    returns (prepared': seq<Worker.PreparedNode>, conditions': seq<Condition>, err: Option<SchedulerError>)
    requires Passed(done, runtimes, c, prepared, conditions)
    requires forall other | other in done :: Leq(other.id, node.id)
    ensures err.None? ==> Passed(done + [node], runtimes, c, prepared', conditions')
    ensures || prepared' == prepared
            || (&& |prepared'| == |prepared| + 1 && prepared' == prepared + [prepared'[|prepared|]]
                && prepared'[|prepared|].node == node)
    ensures err.None? ==> !(Eligible(node, runtimes) && Broken(node, c))
    ensures err.Some? ==> Eligible(node, runtimes) && Breaks(node, c, err.value)
  {
    OneVerdict(node, c);
    prepared', conditions', err := prepared, conditions, None;
    if !Waiting(StateOf(runtimes, node.id)) || !DepsSucceeded(node, runtimes) {
      Skip(done, node, runtimes, c, prepared, conditions);
      return;
    }
    var policy := c.policy(node);
    if policy.None? { return prepared, conditions, Some(PolicyFailed); }
    match policy.value.decision {
      case PolicyDeny =>
        conditions' := conditions + [Condition(PartiallyBlocked, node.id)];
        Note(done, node, runtimes, c, prepared, conditions, Condition(PartiallyBlocked, node.id));
        return;
      case PolicyRequireApproval =>
        conditions' := conditions + [Condition(ApprovalRequired, node.id)];
        Note(done, node, runtimes, c, prepared, conditions, Condition(ApprovalRequired, node.id));
        return;
      case PolicyAllow =>
      case PolicyOther(_) => return prepared, conditions, Some(UnknownDecision);
    }
    var target := c.resolve(node);
    if target.None? {
      conditions' := conditions + [Condition(TargetDegraded, node.id)];
      Note(done, node, runtimes, c, prepared, conditions, Condition(TargetDegraded, node.id));
      return;
    }
    var estimate := c.estimate(node, target.value);
    if estimate.None? { return prepared, conditions, Some(EstimateFailed); }
    prepared' := prepared + [Worker.PreparedNode(node, target.value, policy.value, estimate.value)];
    List(done, node, runtimes, c, prepared, conditions);
  }

  lemma StillJustified(done: seq<PlanNode>, node: PlanNode, runtimes: Runtimes, c: Collaborators, conditions: seq<Condition>)
    requires forall k | 0 <= k < |conditions| :: Justified(conditions[k], done, runtimes, c)
    ensures forall k | 0 <= k < |conditions| :: Justified(conditions[k], done + [node], runtimes, c)
  {
    forall k | 0 <= k < |conditions| ensures Justified(conditions[k], done + [node], runtimes, c) {
      assert Justified(conditions[k], done, runtimes, c);
    }
  }

  /** Appending a node that is not both eligible and cleared leaves the list right and full. */
  lemma StillListed(done: seq<PlanNode>, node: PlanNode, runtimes: Runtimes, c: Collaborators, prepared: seq<Worker.PreparedNode>)
    requires ListedRightly(done, runtimes, c, prepared) && ListedFully(done, runtimes, c, prepared)
    requires !Eligible(node, runtimes) || !Cleared(node, c)
    ensures ListedRightly(done + [node], runtimes, c, prepared) && ListedFully(done + [node], runtimes, c, prepared)
  {
  }

  lemma Skip(done: seq<PlanNode>, node: PlanNode, runtimes: Runtimes, c: Collaborators,
             prepared: seq<Worker.PreparedNode>, conditions: seq<Condition>)
    requires Passed(done, runtimes, c, prepared, conditions) && !Eligible(node, runtimes)
    ensures Passed(done + [node], runtimes, c, prepared, conditions)
  {
    StillListed(done, node, runtimes, c, prepared);
    StillJustified(done, node, runtimes, c, conditions);
  }

  lemma StillNoted(node: PlanNode, c: Collaborators, conditions: seq<Condition>, added: Condition)
    requires Noted(node, c, conditions)
    ensures Noted(node, c, conditions + [added])
  {
    var k :| 0 <= k < |conditions| && conditions[k].nodeRef == node.id && Blocks(node, c, conditions[k].kind);
    assert (conditions + [added])[k] == conditions[k];
  }

  lemma Note(done: seq<PlanNode>, node: PlanNode, runtimes: Runtimes, c: Collaborators,
             prepared: seq<Worker.PreparedNode>, conditions: seq<Condition>, added: Condition)
    requires Passed(done, runtimes, c, prepared, conditions)
    requires Eligible(node, runtimes) && Blocks(node, c, added.kind) && added.nodeRef == node.id
    ensures Passed(done + [node], runtimes, c, prepared, conditions + [added])
  {
    OneVerdict(node, c);
    StillListed(done, node, runtimes, c, prepared);
    StillJustified(done, node, runtimes, c, conditions);
    var all := conditions + [added];
    assert all[|conditions|] == added;
    assert node in done + [node];
    assert Justified(added, done + [node], runtimes, c);
    forall n | n in done + [node] && Eligible(n, runtimes) && !Cleared(n, c) ensures Noted(n, c, all) {
      if n in done { StillNoted(n, c, conditions, added); }
    }
  }

  lemma List(done: seq<PlanNode>, node: PlanNode, runtimes: Runtimes, c: Collaborators,
             prepared: seq<Worker.PreparedNode>, conditions: seq<Condition>)
    requires Passed(done, runtimes, c, prepared, conditions) && Eligible(node, runtimes) && Cleared(node, c)
    requires forall other | other in done :: Leq(other.id, node.id)
    ensures Passed(done + [node], runtimes, c, prepared + [Prepared(node, c)], conditions)
  {
    AddPrepared(done, node, runtimes, c, prepared);
    StillJustified(done, node, runtimes, c, conditions);
  }

  lemma AddPrepared(done: seq<PlanNode>, node: PlanNode, runtimes: Runtimes, c: Collaborators,
                    prepared: seq<Worker.PreparedNode>)
    requires ListedRightly(done, runtimes, c, prepared) && Eligible(node, runtimes) && Cleared(node, c)
    requires forall other | other in done :: Leq(other.id, node.id)
    ensures ListedRightly(done + [node], runtimes, c, prepared + [Prepared(node, c)])
  {
    var all := prepared + [Prepared(node, c)];
    assert all[|prepared|] == Prepared(node, c);
    forall i, j | 0 <= i < j < |all| ensures Leq(all[i].node.id, all[j].node.id) {
      assert all[i] == prepared[i];
      if j < |prepared| { assert all[j] == prepared[j]; }
    }
  }

  /** hasActiveOrWaitingNodes */
  method HasActive(runtimes: Runtimes) returns (r: bool)
    ensures r <==> exists id | id in runtimes :: Active(runtimes[id])
  {
    var rest := runtimes.Keys;
    while rest != {}
      invariant rest <= runtimes.Keys
      invariant forall id | id in runtimes.Keys - rest :: !Active(runtimes[id])
      decreases rest
    {
      var id :| id in rest;
      if Active(runtimes[id]) { return true; }
      rest := rest - {id};
    }
    return false;
  }

  // ---- No stall ------------------------------------------------------------

  /** Every node is waiting or done, and some node is not done. */
  ghost predicate Unblocked(plan: Plan, runtimes: Runtimes) {
    && (forall i | 0 <= i < |plan.nodes| ::
          var state := StateOf(runtimes, plan.nodes[i].id); Waiting(state) || state.NodeSucceeded?)
    && exists i | 0 <= i < |plan.nodes| :: !StateOf(runtimes, plan.nodes[i].id).NodeSucceeded?
  }

  /** Following unfinished dependencies downwards ends at a node whose dependencies are all done. */
  lemma {:induction false} Descend(plan: Plan, rank: map<string, nat>, runtimes: Runtimes, i: nat) returns (k: nat)
    requires Topological(plan.nodes, rank) && Unblocked(plan, runtimes)
    requires forall m | 0 <= m < |plan.nodes| :: DepsOk(plan.nodes, plan.nodes[m])
    requires i < |plan.nodes| && !StateOf(runtimes, plan.nodes[i].id).NodeSucceeded?
    ensures k < |plan.nodes| && Eligible(plan.nodes[k], runtimes)
    decreases rank[plan.nodes[i].id]
  {
    var node := plan.nodes[i];
    if DepsSucceeded(node, runtimes) { return i; }
    var j :| 0 <= j < |node.dependsOn| && !StateOf(runtimes, node.dependsOn[j]).NodeSucceeded?;
    assert KnownId(plan.nodes, node.dependsOn[j]);
    var m :| 0 <= m < |plan.nodes| && plan.nodes[m].id == node.dependsOn[j];
    k := Descend(plan, rank, runtimes, m);
  }

  lemma NoStall(plan: Plan, runtimes: Runtimes) returns (k: nat)
    requires ValidPlan(plan) && Unblocked(plan, runtimes)
    ensures k < |plan.nodes| && Eligible(plan.nodes[k], runtimes)
  {
    var rank :| Topological(plan.nodes, rank);
    var i :| 0 <= i < |plan.nodes| && !StateOf(runtimes, plan.nodes[i].id).NodeSucceeded?;
    k := Descend(plan, rank, runtimes, i);
  }

  lemma NotListedYet(nodes: seq<PlanNode>, i: nat, runtimes: Runtimes, c: Collaborators, prepared: seq<Worker.PreparedNode>)
    requires i < |nodes| && UniqueIds(nodes) && ListedRightly(nodes[..i], runtimes, c, prepared)
    ensures forall k | 0 <= k < |prepared| :: prepared[k].node.id != nodes[i].id
  {
    forall k | 0 <= k < |prepared| ensures prepared[k].node.id != nodes[i].id {
      assert prepared[k].node in nodes[..i];
    }
  }

  /** An eligible node on which a collaborator failed that way. */
  ghost predicate Halts(nodes: seq<PlanNode>, runtimes: Runtimes, c: Collaborators, e: SchedulerError) {
    exists node | node in nodes :: Eligible(node, runtimes) && Breaks(node, c, e)
  }

  lemma HaltsReordered(a: seq<PlanNode>, b: seq<PlanNode>, runtimes: Runtimes, c: Collaborators, e: SchedulerError)
    requires (forall node :: node in a <==> node in b) && Halts(a, runtimes, c, e)
    ensures Halts(b, runtimes, c, e)
  {
    var node :| node in a && Eligible(node, runtimes) && Breaks(node, c, e);
    assert node in b;
  }

  /** Nothing listed and nothing noted means that nothing is eligible. */
  lemma NothingEligible(nodes: seq<PlanNode>, runtimes: Runtimes, c: Collaborators,
                        prepared: seq<Worker.PreparedNode>, conditions: seq<Condition>)
    requires Passed(nodes, runtimes, c, prepared, conditions)
    ensures prepared == [] && conditions == [] <==> forall node | node in nodes :: !Eligible(node, runtimes)
  {
    if prepared != [] { assert prepared[0].node in nodes; }
    if conditions != [] { assert Justified(conditions[0], nodes, runtimes, c); }
    if prepared == [] && conditions == [] {
      forall node | node in nodes ensures !Eligible(node, runtimes) {
        assert Eligible(node, runtimes) ==> Cleared(node, c) || Noted(node, c, conditions);
      }
    }
  }

  /** Listed nodes have not begun, and their dependencies have all succeeded. */
  ghost predicate Runnable(prepared: seq<Worker.PreparedNode>, runtimes: Runtimes) {
    forall k | 0 <= k < |prepared| ::
      && !Begun(StateOf(runtimes, prepared[k].node.id)) && !Active(StateOf(runtimes, prepared[k].node.id))
      && forall d | d in prepared[k].node.dependsOn :: d in runtimes && runtimes[d].NodeSucceeded?
  }

  lemma ListedAreRunnable(nodes: seq<PlanNode>, runtimes: Runtimes, c: Collaborators, prepared: seq<Worker.PreparedNode>)
    requires ListedRightly(nodes, runtimes, c, prepared)
    ensures Runnable(prepared, runtimes)
  {
    hide Cleared, Prepared;
  }

  /** The loop over the sorted nodes. */
  method PrepareAll(nodes: seq<PlanNode>, runtimes: Runtimes, c: Collaborators)
    returns (prepared: seq<Worker.PreparedNode>, conditions: seq<Condition>, err: Option<SchedulerError>)
    requires SortedById(nodes)
    ensures err.None? ==> Passed(nodes, runtimes, c, prepared, conditions)
    ensures UniqueIds(nodes) ==> NoRepeats(prepared)
    ensures err.Some? ==> prepared == [] && Halts(nodes, runtimes, c, err.value)
    ensures err.None? ==> forall node | node in nodes && Eligible(node, runtimes) :: !Broken(node, c)
  {
    prepared, conditions := [], [];
    for i := 0 to |nodes|
      invariant Passed(nodes[..i], runtimes, c, prepared, conditions)
      invariant UniqueIds(nodes) ==> NoRepeats(prepared)
      invariant forall k | 0 <= k < i && Eligible(nodes[k], runtimes) :: !Broken(nodes[k], c)
    {
      hide Passed, Broken, Breaks, NoRepeats;
      var node := nodes[i];
      if UniqueIds(nodes) { NotListedYet(nodes, i, runtimes, c, prepared); }
      assert nodes[..i + 1] == nodes[..i] + [node];
      prepared, conditions, err := PrepareOne(nodes[..i], node, runtimes, c, prepared, conditions);
      if err.Some? {
        assert node in nodes;
        return [], conditions, err;
      }
    }
    assert nodes[..|nodes|] == nodes;
    err := None;
  }

  /**
   Lists, in id order, exactly the eligible nodes that the collaborators clear; every other eligible
   node leaves a condition. A valid plan with unfinished nodes, none of them stuck, always lists one.
   */
  method PrepareRunnable(phase: Phase, plan: Plan, runtimes: Runtimes, c: Collaborators)
    returns (prepared: seq<Worker.PreparedNode>, conditions: seq<Condition>, err: Option<SchedulerError>)
    ensures err == Some(NotRunnable) <==> !phase.PhaseReady? && !phase.PhaseRunning?
    ensures err.Some? ==> prepared == []
    ensures err.None? ==> Passed(plan.nodes, runtimes, c, prepared, conditions)
    ensures UniqueIds(plan.nodes) ==> NoRepeats(prepared)
    ensures Runnable(prepared, runtimes)
    // it fails exactly when nothing can run or wait, or a collaborator fails on an eligible node
    ensures err == Some(PlanNotReady) <==>
              && (phase.PhaseReady? || phase.PhaseRunning?)
              && (forall node | node in plan.nodes :: !Eligible(node, runtimes))
              && (forall id | id in runtimes :: !Active(runtimes[id]))
    ensures err.Some? && !err.value.NotRunnable? && !err.value.PlanNotReady? ==> Halts(plan.nodes, runtimes, c, err.value)
    ensures err.None? ==> forall node | node in plan.nodes && Eligible(node, runtimes) :: !Broken(node, c)
    ensures !phase.PhaseOther? && ValidPlan(plan) && Unblocked(plan, runtimes) && AllCleared(plan.nodes, c) ==>
              err.None? && prepared != []
  {
    hide Passed, NoRepeats, Runnable, Unblocked, ValidPlan, AllCleared, Eligible, Broken, Breaks, SortedById, UniqueIds;
    if !phase.PhaseReady? && !phase.PhaseRunning? {
      NoneRunnable(runtimes);
      return [], [], Some(NotRunnable);
    }
    var nodes := SortById(plan.nodes);
    SameNodes(nodes, plan.nodes);
    if UniqueIds(plan.nodes) { StillUnique(nodes, plan.nodes); }
    prepared, conditions, err := PrepareAll(nodes, runtimes, c);
    if err.Some? {
      HaltsReordered(nodes, plan.nodes, runtimes, c, err.value);
      HaltMeans(plan, runtimes, c, err.value);
      NoneRunnable(runtimes);
      return;
    }
    Reordered(nodes, plan.nodes, runtimes, c, prepared, conditions);
    NothingEligible(plan.nodes, runtimes, c, prepared, conditions);
    PassedAreRunnable(plan.nodes, runtimes, c, prepared, conditions);
    if ValidPlan(plan) && Unblocked(plan, runtimes) && AllCleared(plan.nodes, c) {
      NeverEmpty(plan, runtimes, c, prepared, conditions);
    }
    if prepared == [] && conditions == [] {
      var active := HasActive(runtimes);
      if !active { err := Some(PlanNotReady); }
    }
  }

  lemma NoneRunnable(runtimes: Runtimes)
    ensures Runnable([], runtimes) && NoRepeats([])
  {
  }

  lemma PassedAreRunnable(nodes: seq<PlanNode>, runtimes: Runtimes, c: Collaborators,
                          prepared: seq<Worker.PreparedNode>, conditions: seq<Condition>)
    requires Passed(nodes, runtimes, c, prepared, conditions)
    ensures Runnable(prepared, runtimes)
  {
    ListedAreRunnable(nodes, runtimes, c, prepared);
  }

  /** A collaborator's failure is none of the other errors, and some eligible node is not cleared. */
  lemma HaltMeans(plan: Plan, runtimes: Runtimes, c: Collaborators, e: SchedulerError)
    requires Halts(plan.nodes, runtimes, c, e)
    ensures !e.NotRunnable? && !e.PlanNotReady? && !AllCleared(plan.nodes, c)
    ensures exists node | node in plan.nodes :: Eligible(node, runtimes)
  {
    var node :| node in plan.nodes && Eligible(node, runtimes) && Breaks(node, c, e);
    var i :| 0 <= i < |plan.nodes| && plan.nodes[i] == node;
    assert !Cleared(plan.nodes[i], c);
  }

  lemma NeverEmpty(plan: Plan, runtimes: Runtimes, c: Collaborators,
                   prepared: seq<Worker.PreparedNode>, conditions: seq<Condition>)
    requires Passed(plan.nodes, runtimes, c, prepared, conditions)
    requires ValidPlan(plan) && Unblocked(plan, runtimes) && AllCleared(plan.nodes, c)
    ensures prepared != []
  {
    var k := NoStall(plan, runtimes);
    assert Prepared(plan.nodes[k], c) in prepared;
  }

  // ---- Whole runs ----------------------------------------------------------

  predicate Begun(state: NodeState) {
    state.NodeRunning? || state.NodeSucceeded? || state.NodeFailed?
  }

  /**
   A run of the plan: nothing has begun at first, SUCCEEDED is never left, and a node begins only if
   some earlier state made it eligible. What happens to nodes in any other way is left open.
   */
  ghost predicate PlanRun(nodes: seq<PlanNode>, rs: seq<Runtimes>) {
    && rs != []
    && (forall i | 0 <= i < |nodes| :: !Begun(StateOf(rs[0], nodes[i].id)))
    && (forall t | 0 <= t < |rs| - 1 :: PlanStep(nodes, rs, t, rs[t], rs[t + 1]))
  }

  ghost predicate PlanStep(nodes: seq<PlanNode>, rs: seq<Runtimes>, t: nat, before: Runtimes, after: Runtimes) {
    && (forall id | id in before && before[id].NodeSucceeded? :: StateOf(after, id).NodeSucceeded?)
    && (forall i | 0 <= i < |nodes| ::
          Begun(StateOf(after, nodes[i].id)) && !Begun(StateOf(before, nodes[i].id)) ==> WasEligible(nodes[i], rs, t))
  }

  ghost predicate WasEligible(node: PlanNode, rs: seq<Runtimes>, t: nat) {
    exists u | 0 <= u <= t && u < |rs| :: Eligible(node, rs[u])
  }

  lemma {:induction false} SucceededStays(nodes: seq<PlanNode>, rs: seq<Runtimes>, u: nat, t: nat, id: string)
    requires PlanRun(nodes, rs) && u <= t < |rs| && StateOf(rs[u], id).NodeSucceeded?
    ensures StateOf(rs[t], id).NodeSucceeded?
    decreases t - u
  {
    if u < t {
      assert PlanStep(nodes, rs, u, rs[u], rs[u + 1]);
      SucceededStays(nodes, rs, u + 1, t, id);
    }
  }

  lemma {:induction false} BegunHasDeps(nodes: seq<PlanNode>, rs: seq<Runtimes>, t: nat, i: nat)
    requires PlanRun(nodes, rs) && t < |rs| && i < |nodes| && Begun(StateOf(rs[t], nodes[i].id))
    ensures DepsSucceeded(nodes[i], rs[t])
    decreases t
  {
    if t > 0 {
      assert PlanStep(nodes, rs, t - 1, rs[t - 1], rs[t]);
      var u: nat;
      if Begun(StateOf(rs[t - 1], nodes[i].id)) {
        u := t - 1;
        BegunHasDeps(nodes, rs, u, i);
      } else {
        u :| u <= t - 1 && Eligible(nodes[i], rs[u]);
      }
      forall j | 0 <= j < |nodes[i].dependsOn| ensures StateOf(rs[t], nodes[i].dependsOn[j]).NodeSucceeded? {
        SucceededStays(nodes, rs, u, t, nodes[i].dependsOn[j]);
      }
    }
  }

  /** In every state of every run, whatever has begun has all its transitive dependencies SUCCEEDED. */
  lemma {:induction false} DependenciesFirst(nodes: seq<PlanNode>, rs: seq<Runtimes>, t: nat, p: seq<string>, k: nat)
    requires PlanRun(nodes, rs) && UniqueIds(nodes) && t < |rs|
    requires Walk(DepsOf(nodes), p) && 1 <= k < |p| && Begun(StateOf(rs[t], p[0]))
    ensures StateOf(rs[t], p[k]).NodeSucceeded?
    decreases k
  {
    if k > 1 {
      DependenciesFirst(nodes, rs, t, p, k - 1);
    }
    assert Edge(DepsOf(nodes), p[k - 1], p[k]);
    var i := DepsOfKnown(nodes, p[k - 1]);
    DepsOfUnique(nodes, i);
    BegunHasDeps(nodes, rs, t, i);
  }
}
