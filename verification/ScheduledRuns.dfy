/** The scheduler's guarantees on the states that the lease repository itself goes through. */
module ScheduledRuns {
  import opened ExecutionTypes
  import opened LeaseProtocol
  import opened LeaseRuns
  import opened PlanDag
  import opened Scheduler

  /** The runtime after the first t transactions. */
  function DbAt(ops: seq<Op>, t: nat): Runtime
    requires t <= |ops|
  {
    Run(map[], ops[..t])
  }

  lemma {:induction false} RunSnoc(db: Runtime, ops: seq<Op>, op: Op)
    ensures Run(db, ops + [op]) == After(Run(db, ops), op)
    decreases |ops|
  {
    hide After;
    if ops == [] {
      assert [op][1..] == [];
      assert Run(db, [op]) == Run(After(db, op), []);
    } else {
      assert (ops + [op])[1..] == ops[1..] + [op];
      RunSnoc(After(db, ops[0]), ops[1..], op);
    }
  }

  lemma DbAtStep(ops: seq<Op>, t: nat)
    requires t < |ops|
    ensures DbAt(ops, t + 1) == After(DbAt(ops, t), ops[t])
  {
    assert ops[..t + 1] == ops[..t] + [ops[t]];
    RunSnoc(map[], ops[..t], ops[t]);
  }

  lemma DbAtInv(ops: seq<Op>, t: nat)
    requires t <= |ops| && AdmissibleRun(ops)
    ensures Inv(DbAt(ops, t))
  {
    RunKeepsInv(map[], ops[..t]);
  }

  datatype Revision = Revision(executionId: string, planRevision: int)

  function KeyIn(r: Revision, id: string): NodeKey {
    NodeKey(r.executionId, r.planRevision, id)
  }

  /** What a scheduler reads of the plan's nodes. */
  function Seen(db: Runtime, r: Revision, nodes: seq<PlanNode>): Runtimes {
    var ids := set i | 0 <= i < |nodes| :: nodes[i].id;
    map id | id in ids && KeyIn(r, id) in db :: db[KeyIn(r, id)].row.state
  }

  lemma SeenState(db: Runtime, r: Revision, nodes: seq<PlanNode>, i: nat)
    requires i < |nodes|
    ensures StateOf(Seen(db, r, nodes), nodes[i].id) == StateIn(db, KeyIn(r, nodes[i].id))
  {
  }

  function StateIn(db: Runtime, key: NodeKey): NodeState {
    if key in db then db[key].row.state else NodeUnset
  }

  /** rs is what was there to be read after each transaction. */
  ghost predicate Observed(ops: seq<Op>, rs: seq<Runtimes>, r: Revision, nodes: seq<PlanNode>) {
    |rs| == |ops| + 1 && forall t | 0 <= t < |rs| :: rs[t] == Seen(DbAt(ops, t), r, nodes)
  }

  ghost predicate ClaimedAt(ops: seq<Op>, t: nat, key: NodeKey)
    requires t < |ops|
  {
    ops[t].Claim? && ops[t].key == key && RefusalIn(DbAt(ops, t), ops[t]).None?
  }

  /** Workers claim a node only once some earlier reading made it eligible. */
  ghost predicate Scheduled(ops: seq<Op>, rs: seq<Runtimes>, r: Revision, nodes: seq<PlanNode>) {
    forall t, i | 0 <= t < |ops| && 0 <= i < |nodes| && ClaimedAt(ops, t, KeyIn(r, nodes[i].id)) :: WasEligible(nodes[i], rs, t)
  }

  /** Nodes begin by an accepted claim and in no other way. */
  lemma BeginsByClaim(db: Runtime, op: Op, key: NodeKey)
    requires Inv(db) && AdmissibleOp(op) && Begun(StateIn(After(db, op), key)) && !Begun(StateIn(db, key))
    ensures op.Claim? && op.key == key && RefusalIn(db, op).None?
  {
    if key in db { assert NodeInv(db[key]); }
  }

  /** SUCCEEDED is never left. */
  lemma SucceededKept(db: Runtime, op: Op, key: NodeKey)
    requires StateIn(db, key).NodeSucceeded?
    ensures StateIn(After(db, op), key).NodeSucceeded?
  {
  }

  lemma StepIsPlanStep(ops: seq<Op>, rs: seq<Runtimes>, r: Revision, nodes: seq<PlanNode>, t: nat)
    requires AdmissibleRun(ops) && Observed(ops, rs, r, nodes) && Scheduled(ops, rs, r, nodes) && t < |ops|
    ensures PlanStep(nodes, rs, t, rs[t], rs[t + 1])
  {
    DbAtInv(ops, t);
    DbAtStep(ops, t);
    hide After, Inv, DbAt;
    var db, db' := DbAt(ops, t), DbAt(ops, t + 1);
    forall id | id in rs[t] && rs[t][id].NodeSucceeded? ensures StateOf(rs[t + 1], id).NodeSucceeded? {
      SucceededKept(db, ops[t], KeyIn(r, id));
    }
    forall i | 0 <= i < |nodes| && Begun(StateOf(rs[t + 1], nodes[i].id)) && !Begun(StateOf(rs[t], nodes[i].id))
      ensures WasEligible(nodes[i], rs, t)
    {
      SeenState(db, r, nodes, i);
      SeenState(db', r, nodes, i);
      BeginsByClaim(db, ops[t], KeyIn(r, nodes[i].id));
      assert ClaimedAt(ops, t, KeyIn(r, nodes[i].id));
    }
  }

  /** Every run of the repository in which claims follow the scheduler is a run of the plan. */
  lemma LeaseRunIsPlanRun(ops: seq<Op>, rs: seq<Runtimes>, r: Revision, nodes: seq<PlanNode>)
    requires AdmissibleRun(ops) && Observed(ops, rs, r, nodes) && Scheduled(ops, rs, r, nodes)
    ensures PlanRun(nodes, rs)
  {
    assert DbAt(ops, 0) == map[];
    forall i | 0 <= i < |nodes| ensures !Begun(StateOf(rs[0], nodes[i].id)) {
      SeenState(DbAt(ops, 0), r, nodes, i);
    }
    forall t | 0 <= t < |rs| - 1 ensures PlanStep(nodes, rs, t, rs[t], rs[t + 1]) {
      StepIsPlanStep(ops, rs, r, nodes, t);
    }
  }

  /** Hence, in the repository itself: whatever has begun has all its transitive dependencies SUCCEEDED. */
  lemma RepositoryDependenciesFirst(ops: seq<Op>, rs: seq<Runtimes>, r: Revision, nodes: seq<PlanNode>, t: nat, p: seq<string>, k: nat)
    requires AdmissibleRun(ops) && Observed(ops, rs, r, nodes) && Scheduled(ops, rs, r, nodes) && UniqueIds(nodes)
    requires t <= |ops| && Walk(DepsOf(nodes), p) && 1 <= k < |p| && Begun(StateOf(rs[t], p[0]))
    ensures KeyIn(r, p[k]) in DbAt(ops, t) && DbAt(ops, t)[KeyIn(r, p[k])].row.state.NodeSucceeded?
  {
    LeaseRunIsPlanRun(ops, rs, r, nodes);
    DependenciesFirst(nodes, rs, t, p, k);
  }
}
