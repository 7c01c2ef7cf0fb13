/** Records of the execution package: nodes, attempts, leases, targets. */
module ExecutionTypes {
  import opened Common

  datatype NodeState =
    | NodeUnset          // Go's empty state
    | NodePending
    | NodeReady
    | NodeRunning
    | NodeWaitingApproval
    | NodeSucceeded
    | NodeFailed
    | NodeSkipped
    | NodeBlocked
    | NodeCancelled

  /** nodeTransitions, with staying put always allowed. */
  predicate CanTransitionNode(from: NodeState, to: NodeState) {
    || from == to
    || match from {
         case NodePending => to.NodeReady? || to.NodeSkipped? || to.NodeBlocked? || to.NodeCancelled?
         case NodeReady => to.NodeRunning? || to.NodeWaitingApproval? || to.NodeBlocked? || to.NodeCancelled?
         case NodeWaitingApproval => to.NodeReady? || to.NodeBlocked? || to.NodeCancelled?
         case NodeRunning => to.NodeSucceeded? || to.NodeFailed? || to.NodeCancelled?
         case NodeFailed => to.NodeReady? || to.NodeBlocked? || to.NodeCancelled?
         case NodeBlocked => to.NodeReady? || to.NodeCancelled?
         case _ => false
       }
  }

  datatype EffectClass =
    | EffectPure
    | EffectReadOnly
    | EffectIdempotentMutation
    | EffectNonIdempotentMutation
    | EffectUnknown(name: string)

  predicate IsMutation(effect: EffectClass) {
    effect.EffectIdempotentMutation? || effect.EffectNonIdempotentMutation?
  }

  predicate TerminalState(state: NodeState) {
    state.NodeSucceeded? || state.NodeFailed? || state.NodeSkipped? || state.NodeCancelled?
  }

  datatype AttemptStatus =
    | AttemptPending
    | AttemptRunning
    | AttemptSucceeded
    | AttemptFailed
    | AttemptCancelled
    | AttemptAbandoned

  /** PENDING and RUNNING attempts still hold execution authority. */
  predicate OpenStatus(status: AttemptStatus) {
    status.AttemptPending? || status.AttemptRunning?
  }

  datatype Usage = Usage(inputTokens: int, outputTokens: int, cost: real, duration: int)

  const NO_USAGE := Usage(0, 0, 0.0, 0)

  predicate NonNegativeUsage(u: Usage) {
    u.inputTokens >= 0 && u.outputTokens >= 0 && u.cost >= 0.0 && u.duration >= 0
  }

  datatype AttemptBinding = AttemptBinding(
    targetRef: string,
    targetRevision: int,
    targetSnapshot: string,
    policyDecisionRef: string,
    budgetReservationRef: string)

  predicate ValidBinding(b: AttemptBinding) {
    && b.targetRef != "" && b.targetRevision >= 1 && !Blank(b.targetSnapshot)
    && b.policyDecisionRef != ""
    && !Blank(b.budgetReservationRef)
  }

  datatype AttemptCompletion = AttemptCompletion(status: AttemptStatus, errorClass: string, usage: Usage)

  /** One row of execution_attempts. An unset binding is the tuple of NULL columns. */
  datatype Attempt = Attempt(
    id: string,
    number: int,
    fence: int,
    owner: string,
    status: AttemptStatus,
    binding: Option<AttemptBinding>,
    idempotencyKey: string,
    errorClass: string,
    usage: Usage,
    claimedAt: Time,
    startedAt: Option<Time>,
    effectStartedAt: Option<Time>,
    effectCommittedAt: Option<Time>,
    finishedAt: Option<Time>)

  /** The nullable lease columns of a runtime row; they are set and cleared together. */
  datatype HeldLease = HeldLease(owner: string, token: string, claimedAt: Time, heartbeatAt: Time, expiresAt: Time)

  /** One row of execution_node_runtime. */
  datatype NodeRow = NodeRow(
    state: NodeState,
    effectClass: EffectClass,
    retrySafe: bool,
    idempotencyKey: string,
    attemptNumber: int,
    fence: int,
    lease: Option<HeldLease>,
    effectStartedAt: Option<Time>,
    effectCommittedAt: Option<Time>)

  /** A runtime row with its attempt history, in insertion order. */
  datatype Node = Node(row: NodeRow, attempts: seq<Attempt>)

  datatype NodeKey = NodeKey(executionId: string, planRevision: int, nodeId: string)

  predicate ValidKey(key: NodeKey) {
    key.executionId != "" && key.planRevision >= 1 && key.nodeId != ""
  }

  /** The authorization a worker holds and presents. */
  datatype NodeLease = NodeLease(
    key: NodeKey,
    attemptRef: string,
    owner: string,
    token: string,
    fence: int,
    attemptNumber: int,
    claimedAt: Time,
    heartbeatAt: Time,
    expiresAt: Time)

  datatype TargetType = TargetModel | TargetTool | TargetOther(name: string)

  datatype ExecutionTarget = ExecutionTarget(id: string, revision: int, kind: TargetType, digest: string)

  datatype PolicyDecision = PolicyAllow | PolicyDeny | PolicyRequireApproval | PolicyOther(name: string)

  datatype PolicyRecord = PolicyRecord(
    id: string,
    executionRef: string,
    planRevision: int,
    nodeRef: string,
    decision: PolicyDecision)

  datatype EffectSpec = EffectSpec(class_: EffectClass, idempotencyKey: string, retrySafe: bool)

  datatype PlanNode = PlanNode(id: string, dependsOn: seq<string>, effect: EffectSpec)
}
