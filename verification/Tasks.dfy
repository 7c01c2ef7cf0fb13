/** The Task aggregate, its canonical events, and the idempotency record of a command. */
module Tasks {
  import opened Common

  datatype TaskStatus =
    | TaskCreated
    | TaskPlanning
    | TaskRouting
    | TaskExecuting
    | TaskWaitingApproval
    | TaskValidating
    | TaskCompleted
    | TaskFailed
    | TaskCancelled
    | TaskExpired
    | TaskUnknown(name: string)

  predicate IsTerminal(s: TaskStatus) {
    s.TaskCompleted? || s.TaskFailed? || s.TaskCancelled? || s.TaskExpired?
  }

  predicate CanTransition(from: TaskStatus, to: TaskStatus) {
    && !IsTerminal(from)
    && match to {
         case TaskFailed => !from.TaskUnknown?
         case TaskCancelled => !from.TaskUnknown?
         case TaskExpired => !from.TaskUnknown?
         case TaskPlanning => from.TaskCreated?
         case TaskRouting => from.TaskPlanning?
         case TaskExecuting => from.TaskRouting? || from.TaskWaitingApproval?
         case TaskWaitingApproval => from.TaskExecuting?
         case TaskValidating => from.TaskExecuting?
         case TaskCompleted => from.TaskValidating?
         case _ => false
       }
  }

  datatype Task = Task(
    id: string, tenantId: string, projectId: string, createdBy: string,
    agentId: string, input: string,
    status: TaskStatus, version: int,
    result: string, cost: real, estimatedCost: real, actualCost: real, currency: string,
    routeDecisionId: string, traceId: string,
    createdAt: Time, updatedAt: Time, completedAt: Option<Time>)

  datatype TransitionCommand = TransitionCommand(to: TaskStatus, actor: string, cause: string, at: Time)

  datatype Transition = Transition(from: TaskStatus, to: TaskStatus, actor: string, cause: string, at: Time)

  predicate EvidenceComplete(t: Transition) {
    !Blank(t.actor) && !Blank(t.cause) && t.at != 0
  }

  datatype TransitionError = ActorRequired | CauseRequired | TimeRequired | AlreadyTerminal | IllegalTransition

  /**
   Task.Transition on a task value: it moves along an edge of the lifecycle or not at all, and stamps the
   completion time exactly when it reaches a terminal status.
   */
  function Move(t: Task, c: TransitionCommand): (r: Result<(Task, Transition), TransitionError>)
    ensures r.Ok? <==> !Blank(c.actor) && !Blank(c.cause) && c.at != 0 && CanTransition(t.status, c.to)
    ensures r.Ok? ==>
              var (moved, evidence) := r.value;
              && evidence.from == t.status && evidence.to == moved.status == c.to
              && EvidenceComplete(evidence)
              && evidence.actor == c.actor && evidence.cause == c.cause && evidence.at == c.at == moved.updatedAt
              && t == moved.(status := t.status, updatedAt := t.updatedAt, completedAt := t.completedAt)
              && (IsTerminal(c.to) ==> moved.completedAt == Some(c.at))
              && (!IsTerminal(c.to) ==> moved.completedAt == t.completedAt)
  {
    if Blank(c.actor) then Err(ActorRequired)
    else if Blank(c.cause) then Err(CauseRequired)
    else if c.at == 0 then Err(TimeRequired)
    else if IsTerminal(t.status) then Err(AlreadyTerminal)
    else if !CanTransition(t.status, c.to) then Err(IllegalTransition)
    else
      var moved := t.(status := c.to, updatedAt := c.at,
                      completedAt := if IsTerminal(c.to) then Some(c.at) else t.completedAt);
      Ok((moved, Transition(t.status, c.to, c.actor, c.cause, c.at)))
  }

  // ---- Events --------------------------------------------------------------

  datatype EventType =
    | TaskCreatedEvent
    | TaskPlanningStarted
    | TaskRoutingStarted
    | TaskExecutionStarted
    | TaskApprovalRequested
    | TaskValidationStarted
    | TaskCompletedEvent
    | TaskFailedEvent
    | TaskCancelledEvent
    | TaskExpiredEvent
    | TaskRouteSelected
    | NoEventType
    | OtherEvent(name: string)

  /** CanonicalTaskStateEvent */
  function Canonical(s: TaskStatus): Option<EventType> {
    match s
    case TaskCreated => Some(TaskCreatedEvent)
    case TaskPlanning => Some(TaskPlanningStarted)
    case TaskRouting => Some(TaskRoutingStarted)
    case TaskExecuting => Some(TaskExecutionStarted)
    case TaskWaitingApproval => Some(TaskApprovalRequested)
    case TaskValidating => Some(TaskValidationStarted)
    case TaskCompleted => Some(TaskCompletedEvent)
    case TaskFailed => Some(TaskFailedEvent)
    case TaskCancelled => Some(TaskCancelledEvent)
    case TaskExpired => Some(TaskExpiredEvent)
    case TaskUnknown(_) => None
  }

  /** The status that a state event records; other events record none. */
  function StatusOf(e: EventType): (s: Option<TaskStatus>)
    ensures s.Some? ==> Canonical(s.value) == Some(e)
    ensures forall t :: Canonical(t) == Some(e) ==> s == Some(t)
  {
    match e
    case TaskCreatedEvent => Some(TaskCreated)
    case TaskPlanningStarted => Some(TaskPlanning)
    case TaskRoutingStarted => Some(TaskRouting)
    case TaskExecutionStarted => Some(TaskExecuting)
    case TaskApprovalRequested => Some(TaskWaitingApproval)
    case TaskValidationStarted => Some(TaskValidating)
    case TaskCompletedEvent => Some(TaskCompleted)
    case TaskFailedEvent => Some(TaskFailed)
    case TaskCancelledEvent => Some(TaskCancelled)
    case TaskExpiredEvent => Some(TaskExpired)
    case _ => None
  }

  /** JSON text, as far as validation looks at it. */
  datatype Json = Absent | Malformed | Value(text: string)

  datatype TaskEvent = TaskEvent(
    eventId: string, tenantId: string, projectId: string, taskId: string,
    sequence: int, eventType: EventType,
    actorType: string, actorSubject: string,
    payload: Json, requestId: string, traceId: string, schemaVersion: int,
    occurredAt: Time, createdAt: Time)

  predicate ValidEvent(e: TaskEvent) {
    && !Blank(e.eventId) && !Blank(e.tenantId) && !Blank(e.projectId) && !Blank(e.taskId)
    && !e.eventType.NoEventType? && (e.eventType.OtherEvent? ==> !Blank(e.eventType.name)) && !Blank(e.traceId)
    && e.sequence >= 1 && e.schemaVersion >= 1 && e.occurredAt != 0 && e.createdAt != 0
    && !Blank(e.actorType) && !Blank(e.actorSubject)
    && e.payload.Value?
  }

  // ---- Outbox messages as commands write them ------------------------------

  datatype OutboxStatus = OutboxUnset | OutboxPending | OutboxDelivering | OutboxDelivered | OutboxDeadLetter | OutboxOther(name: string)

  datatype OutboxMessage = OutboxMessage(
    outboxId: string, tenantId: string, projectId: string, taskId: string,
    aggregateType: string, aggregateId: string, eventType: string, payload: Json,
    destination: string, idempotencyKey: string,
    status: OutboxStatus, attempts: int, availableAt: Time, createdAt: Time, deliveredAt: Option<Time>)

  predicate ValidMessage(m: OutboxMessage) {
    && !Blank(m.outboxId) && !Blank(m.tenantId) && !Blank(m.projectId)
    && !Blank(m.aggregateType) && !Blank(m.aggregateId) && !Blank(m.eventType)
    && !Blank(m.destination) && !Blank(m.idempotencyKey)
    && m.attempts >= 0 && m.availableAt != 0 && m.createdAt != 0
    && (m.status.OutboxPending? || m.status.OutboxDelivering? || m.status.OutboxDelivered? || m.status.OutboxDeadLetter?)
    && m.payload.Value?
  }

  /** prepareTaskOutboxMessage */
  function PrepareMessage(m: OutboxMessage, task: Task, now: Time): OutboxMessage {
    m.(tenantId := if m.tenantId == "" then task.tenantId else m.tenantId,
       projectId := if m.projectId == "" then task.projectId else m.projectId,
       taskId := if m.taskId == "" && m.aggregateType == "Task" && m.aggregateId == task.id then task.id else m.taskId,
       status := if m.status.OutboxUnset? then OutboxPending else m.status,
       createdAt := if m.createdAt == 0 then now else m.createdAt,
       availableAt := if m.availableAt == 0 then now else m.availableAt)
  }

  predicate MessageFits(m: OutboxMessage, task: Task) {
    && m.tenantId == task.tenantId && m.projectId == task.projectId
    && (m.taskId != "" ==> m.taskId == task.id)
    && ValidMessage(m)
  }

  // ---- Idempotency ---------------------------------------------------------

  datatype IdempotencyStatus = InProgress | Completed | FailedRetryable | FailedFinal | OtherIdempotency(name: string)

  predicate FinalStatus(s: IdempotencyStatus) {
    s.Completed? || s.FailedFinal?
  }

  datatype Candidate = Candidate(modelId: string, modelVersion: string, estimatedCost: real)

  datatype RouteDecision = RouteDecision(
    id: string, taskId: string, selected: Candidate, reason: string, policyVersion: string, createdAt: Time)

  datatype PlanRef = PlanRef(planId: string, revision: int)

  datatype FrozenPolicy = FrozenPolicy(id: string, planRevision: int, nodeRef: string, allowed: bool)

  datatype FrozenTarget = FrozenTarget(id: string, revision: int, kind: string, digest: string)

  datatype Selection = Selection(plan: PlanRef, node: string, decision: RouteDecision, policy: FrozenPolicy, target: FrozenTarget)

  /** The stored response; encoding is taken as identity. */
  datatype Response =
    | NoResponse
    | MalformedResponse
    | SelectionResponse(selection: Selection)
    | DecisionResponse(decision: RouteDecision)
    | OtherResponse(text: string, lenient: bool)

  /**
   Whether the stored JSON reads as a route decision. Reading is lenient: any object whose fields do not
   clash with a decision's does, and neither a selection nor a stored model response has such fields.
   */
  predicate ReadsAsDecision(r: Response) {
    r.DecisionResponse? || r.SelectionResponse? || (r.OtherResponse? && r.lenient)
  }

  datatype IdempotencyKey = IdempotencyKey(tenantId: string, projectId: string, operation: string, key: string)

  datatype IdempotencyRecord = IdempotencyRecord(
    key: IdempotencyKey, requestDigest: string, status: IdempotencyStatus,
    resourceId: string, responseCode: int, responseDigest: string, response: Response,
    createdAt: Time, expiresAt: Time)

  predicate ValidRecord(r: IdempotencyRecord) {
    && !Blank(r.key.tenantId) && !Blank(r.key.projectId) && !Blank(r.key.operation) && !Blank(r.key.key)
    && !Blank(r.requestDigest) && r.createdAt != 0 && r.expiresAt != 0
    && r.createdAt < r.expiresAt
    && !r.status.OtherIdempotency?
    && !r.response.MalformedResponse?
  }
}
