/**
 PostgresExecutionNodeLeases: each method is one SQL transaction over the runtime table and the attempt
 table. Attempt rows are changed by UPDATE ... WHERE over the whole history of the node, and the
 transaction is rolled back unless exactly one row was affected.
 */
module LeaseRepository {
  import opened Common
  import opened ExecutionTypes
  import opened LeaseProtocol
  import opened LeaseRuns

  /** The WHERE clause of an attempt update, the node's own key being implied. */
  datatype Where = Where(
    id: Option<string>,
    number: int,
    fence: int,
    statuses: set<AttemptStatus>,
    effectStarted: Option<bool>,
    effectCommitted: Option<bool>)

  predicate Matches(w: Where, a: Attempt) {
    && (w.id.Some? ==> a.id == w.id.value)
    && a.number == w.number && a.fence == w.fence
    && a.status in w.statuses
    && (w.effectStarted.Some? ==> a.effectStartedAt.Some? == w.effectStarted.value)
    && (w.effectCommitted.Some? ==> a.effectCommittedAt.Some? == w.effectCommitted.value)
  }

  function OfLease(lease: NodeLease, statuses: set<AttemptStatus>): Where {
    Where(Some(lease.attemptRef), lease.attemptNumber, lease.fence, statuses, None, None)
  }

  /** UPDATE execution_attempts SET ... WHERE ..., requiring one affected row. */
  method UpdateOne(attempts: seq<Attempt>, w: Where, c: Change) returns (updated: seq<Attempt>, ok: bool)
    ensures |updated| == |attempts|
    ensures forall k | 0 <= k < |attempts| ::
              updated[k] == if Matches(w, attempts[k]) then Set(attempts[k], c) else attempts[k]
    ensures ok <==> exists k | 0 <= k < |attempts| ::
              Matches(w, attempts[k]) && forall j | 0 <= j < |attempts| && j != k :: !Matches(w, attempts[j])
  {
    updated := attempts;
    var affected := 0;
    ghost var hit := 0;
    for i := 0 to |attempts|
      invariant |updated| == |attempts| && 0 <= affected
      invariant forall k | 0 <= k < i ::
                  updated[k] == if Matches(w, attempts[k]) then Set(attempts[k], c) else attempts[k]
      invariant forall k | i <= k < |attempts| :: updated[k] == attempts[k]
      invariant affected == 0 <==> forall k | 0 <= k < i :: !Matches(w, attempts[k])
      invariant affected >= 1 ==> 0 <= hit < i && Matches(w, attempts[hit])
      invariant affected == 1 ==> forall j | 0 <= j < i && j != hit :: !Matches(w, attempts[j])
      invariant affected >= 2 ==> exists j | 0 <= j < i && j != hit :: Matches(w, attempts[j])
    {
      if Matches(w, attempts[i]) {
        if affected == 0 { hit := i; }
        updated := updated[i := Set(attempts[i], c)];
        affected := affected + 1;
      }
    }
    ok := affected == 1;
  }

  /** In a numbered history an update that names the current fence can only touch the last row. */
  method UpdateCurrent(n: Node, w: Where, c: Change) returns (updated: seq<Attempt>, ok: bool)
    requires Numbered(n) && w.fence == n.row.fence
    ensures ok <==> n.attempts != [] && Matches(w, Last(n.attempts))
    ensures ok ==> updated == SetLast(n.attempts, c)
  {
    updated, ok := UpdateOne(n.attempts, w, c);
    assert forall k | 0 <= k < |n.attempts| - 1 :: !Matches(w, n.attempts[k]);
  }

  /** The store honours the lease up to, and not beyond, the expiry its holder was told. */
  ghost predicate InForce(nodes: Runtime, lease: NodeLease) {
    lease.key in nodes && forall t :: Holds(nodes[lease.key].row, lease, t) <==> t < lease.expiresAt
  }

  class PostgresExecutionNodeLeases {
    var nodes: Runtime

    ghost predicate Valid()
      reads this
    {
      Inv(nodes)
    }

    constructor ()
      ensures nodes == map[] && Valid()
    {
      nodes := map[];
    }

    method Register(key: NodeKey, record: NodeRow) returns (err: Option<LeaseError>)
      requires Valid()
      modifies this
      ensures err == RefusalIn(old(nodes), Op.Register(key, record))
      ensures nodes == After(old(nodes), Op.Register(key, record))
      ensures Valid() <==> err.Some? || Admissible(record)
    {
      if !ValidRecord(key, record) { return Some(InvalidArgument); }
      if !RowConstraints(record) { return Some(ConstraintViolation); }
      if key in nodes { return Some(RuntimeExists); }
      RegisterInvariant(nodes, key, record);
      nodes := nodes[key := NewNode(record)];
      return None;
    }

    method Claim(key: NodeKey, owner: string, duration: int, now: Time, token: string, attemptId: string)
      returns (lease: Option<NodeLease>, err: Option<LeaseError>)
      requires Valid()
      modifies this
      ensures Valid()
      ensures err == RefusalIn(old(nodes), Op.Claim(key, owner, duration, now, token, attemptId))
      ensures nodes == After(old(nodes), Op.Claim(key, owner, duration, now, token, attemptId))
      ensures lease.Some? <==> err.None?
      ensures err.None? ==> key in old(nodes)
      ensures err.None? ==>
                lease.value == Grant(old(nodes)[key].row, Op.Claim(key, owner, duration, now, token, attemptId))
      ensures err.None? ==> lease.value.expiresAt == now + duration && InForce(nodes, lease.value)
    {
      ghost var op := Op.Claim(key, owner, duration, now, token, attemptId);
      StepKeepsInv(nodes, op);
      if !ValidLeaseIdentity(key, owner, duration) { return None, Some(InvalidArgument); }
      if key !in nodes { return None, Some(RuntimeNotFound); }
      assert NodeInv(nodes[key]);
      var row, attempts := nodes[key].row, nodes[key].attempts;
      if TerminalState(row.state) { return None, Some(NotClaimable); }
      var reclaim := false;
      match row.state {
        case NodeReady =>
          if row.lease.Some? { return None, Some(LeaseHeld); }
        case NodeRunning =>
          if row.lease.Some? && now < row.lease.value.expiresAt { return None, Some(LeaseHeld); }
          if !row.retrySafe || row.effectCommittedAt.Some? { return None, Some(RecoveryRequired); }
          reclaim := true;
        case _ => return None, Some(NotClaimable);
      }
      if reclaim {
        var w := Where(None, row.attemptNumber, row.fence, {AttemptPending, AttemptRunning}, None, None);
        var updated, ok := UpdateCurrent(nodes[key], w, Abandon(now));
        if !ok { return None, Some(AttemptStateConflict); }
        attempts := updated;
      }
      var attemptNumber, fence := row.attemptNumber + 1, row.fence + 1;
      var held := HeldLease(owner, token, now, now, now + duration);
      attempts := attempts + [Attempt(attemptId, attemptNumber, fence, owner, AttemptPending, None,
                                      row.idempotencyKey, "", NO_USAGE, now, None, None, None, None)];
      row := row.(state := NodeRunning, attemptNumber := attemptNumber, fence := fence, lease := Some(held),
                  effectStartedAt := None, effectCommittedAt := None);
      assert Node(row, attempts) == Applied(nodes[key], op);
      nodes := nodes[key := Node(row, attempts)];
      return Some(NodeLease(key, attemptId, owner, token, fence, attemptNumber, now, now, now + duration)), None;
    }

    method Renew(lease: NodeLease, duration: int, now: Time) returns (renewed: Option<NodeLease>, err: Option<LeaseError>)
      requires Valid()
      modifies this
      ensures Valid()
      ensures err == RefusalIn(old(nodes), Op.Renew(lease, duration, now))
      ensures nodes == After(old(nodes), Op.Renew(lease, duration, now))
      ensures renewed == if err.None? then Some(lease.(heartbeatAt := now, expiresAt := now + duration)) else None
      ensures err.None? ==> InForce(nodes, renewed.value)
    {
      StepKeepsInv(nodes, Op.Renew(lease, duration, now));
      if !ValidHeldLease(lease, duration) { return None, Some(InvalidArgument); }
      if lease.key !in nodes || !Holds(nodes[lease.key].row, lease, now) { return None, Some(LeaseLost); }
      var n := nodes[lease.key];
      var held := n.row.lease.value.(heartbeatAt := now, expiresAt := now + duration);
      if held.expiresAt <= held.claimedAt { return None, Some(ConstraintViolation); }
      n := n.(row := n.row.(lease := Some(held)));
      assert n == Applied(nodes[lease.key], Op.Renew(lease, duration, now));
      nodes := nodes[lease.key := n];
      return Some(lease.(heartbeatAt := now, expiresAt := now + duration)), None;
    }

    method StartAttempt(lease: NodeLease, binding: AttemptBinding, now: Time) returns (err: Option<LeaseError>)
      requires Valid()
      modifies this
      ensures Valid()
      ensures err == RefusalIn(old(nodes), Op.StartAttempt(lease, binding, now))
      ensures nodes == After(old(nodes), Op.StartAttempt(lease, binding, now))
    {
      StepKeepsInv(nodes, Op.StartAttempt(lease, binding, now));
      if Blank(lease.attemptRef) || !ValidBinding(binding) { return Some(BindingInvalid); }
      if lease.key !in nodes { return Some(RuntimeNotFound); }
      var n := nodes[lease.key];
      assert NodeInv(n);
      if !Holds(n.row, lease, now) || n.row.attemptNumber != lease.attemptNumber { return Some(LeaseLost); }
      var w := OfLease(lease, {AttemptPending});
      var updated, ok := UpdateCurrent(n, w, Start(binding, now));
      if !ok { return Some(AttemptStateConflict); }
      nodes := nodes[lease.key := n.(attempts := updated)];
      return None;
    }

    method MarkEffectStarted(lease: NodeLease, now: Time) returns (err: Option<LeaseError>)
      requires Valid()
      modifies this
      ensures Valid()
      ensures err == RefusalIn(old(nodes), Op.MarkEffectStarted(lease, now))
      ensures nodes == After(old(nodes), Op.MarkEffectStarted(lease, now))
    {
      StepKeepsInv(nodes, Op.MarkEffectStarted(lease, now));
      if !ValidLeaseAttempt(lease) { return Some(InvalidArgument); }
      if lease.key !in nodes { return Some(LeaseLost); }
      var n := nodes[lease.key];
      assert NodeInv(n);
      if !(Holds(n.row, lease, now) && n.row.effectStartedAt.None?) { return Some(LeaseLost); }
      var row := n.row.(effectStartedAt := Some(now));
      var w := OfLease(lease, {AttemptRunning}).(effectStarted := Some(false));
      var updated, ok := UpdateCurrent(n, w, EffectStarted(now));
      if !ok { return Some(AttemptStateConflict); }
      nodes := nodes[lease.key := Node(row, updated)];
      return None;
    }

    method MarkEffectCommitted(lease: NodeLease, now: Time) returns (err: Option<LeaseError>)
      requires Valid()
      modifies this
      ensures Valid()
      ensures err == RefusalIn(old(nodes), Op.MarkEffectCommitted(lease, now))
      ensures nodes == After(old(nodes), Op.MarkEffectCommitted(lease, now))
    {
      StepKeepsInv(nodes, Op.MarkEffectCommitted(lease, now));
      if !ValidLeaseAttempt(lease) { return Some(InvalidArgument); }
      if lease.key !in nodes { return Some(LeaseLost); }
      var n := nodes[lease.key];
      assert NodeInv(n);
      if !(Holds(n.row, lease, now) && n.row.effectStartedAt.Some? && n.row.effectCommittedAt.None?) {
        return Some(LeaseLost);
      }
      var row := n.row.(effectCommittedAt := Some(now));
      var w := OfLease(lease, {AttemptRunning}).(effectStarted := Some(true), effectCommitted := Some(false));
      var updated, ok := UpdateCurrent(n, w, EffectCommitted(now));
      if !ok { return Some(AttemptStateConflict); }
      nodes := nodes[lease.key := Node(row, updated)];
      return None;
    }

    method ReleaseBeforeEffect(lease: NodeLease, now: Time) returns (err: Option<LeaseError>)
      requires Valid()
      modifies this
      ensures Valid()
      ensures err == RefusalIn(old(nodes), Op.ReleaseBeforeEffect(lease, now))
      ensures nodes == After(old(nodes), Op.ReleaseBeforeEffect(lease, now))
    {
      StepKeepsInv(nodes, Op.ReleaseBeforeEffect(lease, now));
      if !ValidLeaseAttempt(lease) { return Some(InvalidArgument); }
      if lease.key !in nodes { return Some(LeaseLost); }
      var n := nodes[lease.key];
      assert NodeInv(n);
      if !(Holds(n.row, lease, now) && n.row.effectStartedAt.None?) { return Some(LeaseLost); }
      var row := n.row.(state := NodeReady, lease := None);
      var w := Where(None, lease.attemptNumber, lease.fence, {AttemptPending, AttemptRunning}, None, None);
      var updated, ok := UpdateCurrent(n, w, Abandon(now));
      if !ok { return Some(AttemptStateConflict); }
      nodes := nodes[lease.key := Node(row, updated)];
      return None;
    }

    method Complete(lease: NodeLease, terminal: NodeState, completion: AttemptCompletion, now: Time)
      returns (err: Option<LeaseError>)
      requires Valid()
      modifies this
      ensures Valid()
      ensures err == RefusalIn(old(nodes), Op.Complete(lease, terminal, completion, now))
      ensures nodes == After(old(nodes), Op.Complete(lease, terminal, completion, now))
    {
      StepKeepsInv(nodes, Op.Complete(lease, terminal, completion, now));
      if !ValidLeaseAttempt(lease) { return Some(InvalidArgument); }
      if !ValidCompletion(terminal, completion) { return Some(CompletionMismatch); }
      if lease.key !in nodes { return Some(RuntimeNotFound); }
      var n := nodes[lease.key];
      assert NodeInv(n);
      if !Holds(n.row, lease, now) || n.row.attemptNumber != lease.attemptNumber { return Some(LeaseLost); }
      if terminal.NodeSucceeded? && IsMutation(n.row.effectClass) && n.row.effectCommittedAt.None? {
        return Some(EffectNotCommitted);
      }
      var w := OfLease(lease, {AttemptRunning} + if completion.status.AttemptCancelled? then {AttemptPending} else {});
      var updated, ok := UpdateCurrent(n, w, Finish(completion, now));
      if !ok { return Some(AttemptStateConflict); }
      nodes := nodes[lease.key := Node(n.row.(state := terminal, lease := None), updated)];
      return None;
    }

    method RequeueFailed(key: NodeKey, now: Time) returns (err: Option<LeaseError>)
      requires Valid()
      modifies this
      ensures Valid()
      ensures err == RefusalIn(old(nodes), Op.RequeueFailed(key, now))
      ensures nodes == After(old(nodes), Op.RequeueFailed(key, now))
    {
      StepKeepsInv(nodes, Op.RequeueFailed(key, now));
      if !ValidKey(key) { return Some(InvalidArgument); }
      if key !in nodes { return Some(RuntimeNotFound); }
      var n := nodes[key];
      if !n.row.state.NodeFailed? { return Some(NotClaimable); }
      if !n.row.retrySafe || IsMutation(n.row.effectClass) { return Some(RecoveryRequired); }
      nodes := nodes[key := n.(row := n.row.(state := NodeReady, lease := None))];
      return None;
    }

    /** The transactions that other workers commit between two calls of one worker. */
    method Interleave(ops: seq<Op>)
      requires Valid() && AdmissibleRun(ops)
      modifies this
      ensures Valid()
      ensures nodes == Run(old(nodes), ops)
      ensures RuntimeExtends(old(nodes), nodes)
    {
      RunKeepsInv(nodes, ops);
      RunExtends(nodes, ops);
      nodes := Run(nodes, ops);
    }
  }
}
