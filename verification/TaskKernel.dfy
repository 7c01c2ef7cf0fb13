/**
 The durable task-command kernel as a state machine: one command is one transaction over the task
 projection, the task event log, the idempotency records, the outbox and the route decisions. A command
 is admitted and applied, or the database stays as it is.
 */
module TaskKernel {
  import opened Common
  import opened Tasks

  datatype Db = Db(
    tasks: map<string, Task>,
    events: map<string, seq<TaskEvent>>,
    idempotency: map<IdempotencyKey, IdempotencyRecord>,
    outbox: seq<OutboxMessage>,
    decisions: seq<RouteDecision>)

  const EMPTY := Db(map[], map[], map[], [], [])

  datatype Principal = Principal(tenantId: string, projectId: string, subjectId: string, system: bool, taskSystemAccess: bool)

  datatype Command =
    | CreateTask(p: Principal, now: Time, task: Task, event: TaskEvent, outbox: seq<OutboxMessage>, idem: IdempotencyRecord)
    | CommitTransition(p: Principal, now: Time, task: Task, transition: Transition, event: TaskEvent,
                       outbox: seq<OutboxMessage>, idem: IdempotencyRecord)
    | CommitRoute(p: Principal, now: Time, task: Task, transition: Transition, decision: RouteDecision,
                  event: TaskEvent, outbox: seq<OutboxMessage>, idem: IdempotencyRecord)
    | SelectRoute(p: Principal, now: Time, task: Task, selection: Selection, event: TaskEvent, idem: IdempotencyRecord)
    | BeginModel(p: Principal, now: Time, task: Task, start: Option<Transition>, startEvent: Option<TaskEvent>,
                 idem: IdempotencyRecord)
    | FinalizeModel(p: Principal, now: Time, task: Task, transitions: seq<Transition>, events: seq<TaskEvent>,
                    idem: IdempotencyRecord)
    | MarkRetryable(p: Principal, idem: IdempotencyRecord)

  // ---- Scope ---------------------------------------------------------------

  predicate HasProject(p: Principal) {
    p.tenantId != "" && p.projectId != ""
  }

  predicate Authorized(p: Principal) {
    HasProject(p) && (p.system ==> p.taskSystemAccess)
  }

  predicate InScope(key: IdempotencyKey, p: Principal) {
    key.tenantId == p.tenantId && key.projectId == p.projectId
  }

  /** The persisted task is the principal's, and the command speaks of the same identity and version. */
  predicate CurrentMatches(db: Db, p: Principal, task: Task) {
    && task.id in db.tasks
    && var current := db.tasks[task.id];
    && current.tenantId == p.tenantId && current.projectId == p.projectId
    && current.tenantId == task.tenantId && current.projectId == task.projectId && current.createdBy == task.createdBy
    && task.version == current.version
  }

  // ---- Idempotency ---------------------------------------------------------

  /** reserveIdempotency takes the key: it is new, or a retryable failure of the same request. */
  predicate Acquires(db: Db, rec: IdempotencyRecord) {
    rec.key in db.idempotency ==>
      db.idempotency[rec.key].requestDigest == rec.requestDigest && db.idempotency[rec.key].status.FailedRetryable?
  }

  /** The key is finished for the same request: the recorded result is replayed. */
  predicate Replays(db: Db, rec: IdempotencyRecord) {
    && rec.key in db.idempotency
    && db.idempotency[rec.key].requestDigest == rec.requestDigest
    && FinalStatus(db.idempotency[rec.key].status)
  }

  /** The command holds the key in progress. */
  predicate HoldsKey(db: Db, rec: IdempotencyRecord) {
    && rec.key in db.idempotency
    && db.idempotency[rec.key].requestDigest == rec.requestDigest
    && db.idempotency[rec.key].status.InProgress?
  }

  /** The record after reserveIdempotency. */
  function ReservedRow(db: Db, rec: IdempotencyRecord): (r: IdempotencyRecord)
    ensures r.key == (if rec.key in db.idempotency then db.idempotency[rec.key].key else rec.key)
    ensures r.status.InProgress?
  {
    (if rec.key in db.idempotency then db.idempotency[rec.key] else rec)
    .(status := InProgress, resourceId := "", responseCode := 0, responseDigest := "", response := NoResponse)
  }

  /** The record after completeIdempotency. */
  function CompletedRow(row: IdempotencyRecord, rec: IdempotencyRecord): (r: IdempotencyRecord)
    ensures r.key == row.key && r.requestDigest == row.requestDigest && r.status == rec.status
  {
    row.(status := rec.status, resourceId := rec.resourceId, responseCode := rec.responseCode,
         responseDigest := rec.responseDigest, response := rec.response)
  }

  function WithResource(rec: IdempotencyRecord, id: string): (r: IdempotencyRecord)
    ensures r.key == rec.key && r.requestDigest == rec.requestDigest && r.status == rec.status
  {
    if rec.resourceId == "" then rec.(resourceId := id) else rec
  }

  function WithCode(rec: IdempotencyRecord, code: int): (r: IdempotencyRecord)
    ensures r.key == rec.key && r.requestDigest == rec.requestDigest && r.status == rec.status
  {
    if rec.responseCode == 0 then rec.(responseCode := code) else rec
  }

  // ---- Task projection and events ------------------------------------------

  function LogOf(events: map<string, seq<TaskEvent>>, id: string): seq<TaskEvent> {
    if id in events then events[id] else []
  }

  function EventsOf(db: Db, id: string): seq<TaskEvent> {
    LogOf(db.events, id)
  }

  /** SELECT COALESCE(MAX(sequence), 0) */
  function MaxSequence(events: seq<TaskEvent>): int {
    if events == [] then 0
    else
      var m, last := MaxSequence(events[..|events| - 1]), events[|events| - 1].sequence;
      if m < last then last else m
  }

  function NextSequence(db: Db, id: string): int {
    MaxSequence(EventsOf(db, id)) + 1
  }

  /** UPDATE tasks SET ..., version = version + n: identity and creation time are never written. */
  function Projected(current: Task, task: Task, n: int): (r: Task)
    ensures r.id == current.id && r.version == current.version + n && r.status == task.status
  {
    task.(id := current.id, tenantId := current.tenantId, projectId := current.projectId,
          createdBy := current.createdBy, createdAt := current.createdAt, version := current.version + n)
  }

  function OrElse(t: Time, default: Time): Time {
    if t == 0 then default else t
  }

  function Stamp(e: TaskEvent, current: Task, traceId: string, sequence: int, occurredAt: Time, now: Time): (r: TaskEvent)
    ensures r.taskId == current.id && r.sequence == sequence && r.eventType == e.eventType
  {
    e.(tenantId := current.tenantId, projectId := current.projectId, taskId := current.id,
       sequence := sequence, traceId := traceId,
       occurredAt := OrElse(e.occurredAt, occurredAt), createdAt := OrElse(e.createdAt, now),
       schemaVersion := if e.schemaVersion == 0 then 1 else e.schemaVersion)
  }

  function Typed(e: TaskEvent, default: EventType): TaskEvent {
    if e.eventType.NoEventType? then e.(eventType := default) else e
  }

  /** The first k events of a finalization, as they are inserted. */
  function StampAll(events: seq<TaskEvent>, transitions: seq<Transition>, current: Task, traceId: string,
                    first: int, now: Time, k: nat): (r: seq<TaskEvent>)
    requires k <= |events| == |transitions|
    ensures |r| == k
    ensures forall i | 0 <= i < k :: r[i] == Stamp(events[i], current, traceId, first + i, transitions[i].at, now)
  {
    if k == 0 then []
    else
      StampAll(events, transitions, current, traceId, first, now, k - 1)
      + [Stamp(events[k - 1], current, traceId, first + k - 1, transitions[k - 1].at, now)]
  }

  /** The first k outbox messages of a command, as they are inserted. */
  function PrepareAll(messages: seq<OutboxMessage>, task: Task, now: Time, k: nat): (r: seq<OutboxMessage>)
    requires k <= |messages|
    ensures |r| == k && forall i | 0 <= i < k :: r[i] == PrepareMessage(messages[i], task, now)
  {
    if k == 0 then [] else PrepareAll(messages, task, now, k - 1) + [PrepareMessage(messages[k - 1], task, now)]
  }

  predicate AllFit(messages: seq<OutboxMessage>, task: Task, now: Time) {
    forall i | 0 <= i < |messages| :: MessageFits(PrepareMessage(messages[i], task, now), task)
  }

  // ---- Edits ---------------------------------------------------------------

  /** What one admitted command writes. */
  datatype Edit = Edit(
    idem: IdempotencyRecord,
    task: Option<Task>,
    events: seq<TaskEvent>,
    outbox: seq<OutboxMessage>,
    decisions: seq<RouteDecision>)

  function Apply(db: Db, e: Edit): Db {
    Db(if e.task.Some? then db.tasks[e.task.value.id := e.task.value] else db.tasks,
       if e.task.Some? then db.events[e.task.value.id := EventsOf(db, e.task.value.id) + e.events] else db.events,
       db.idempotency[e.idem.key := e.idem],
       db.outbox + e.outbox,
       db.decisions + e.decisions)
  }

  // ---- CreateTask ----------------------------------------------------------

  function OwnedTask(task: Task, p: Principal): Task {
    task.(tenantId := p.tenantId, projectId := p.projectId, createdBy := p.subjectId)
  }

  predicate CreatorMatches(task: Task, p: Principal) {
    && (task.tenantId != "" ==> task.tenantId == p.tenantId)
    && (task.projectId != "" ==> task.projectId == p.projectId)
    && (task.createdBy != "" ==> task.createdBy == p.subjectId)
  }

  predicate ValidCreation(task: Task) {
    && !Blank(task.id) && !Blank(task.input) && !Blank(task.traceId)
    && task.tenantId != "" && task.projectId != "" && task.createdBy != ""
    && task.status.TaskCreated? && task.version == 1
    && task.createdAt != 0 && task.updatedAt != 0 && task.completedAt.None?
  }

  function CreatedEvent(c: Command): TaskEvent
    requires c.CreateTask?
  {
    var task := OwnedTask(c.task, c.p);
    Stamp(Typed(c.event, TaskCreatedEvent), task, task.traceId, 1, task.createdAt, c.now)
  }

  predicate AdmitsCreate(db: Db, c: Command)
    requires c.CreateTask?
  {
    && ValidRecord(c.idem) && c.idem.status.Completed? && Authorized(c.p) && InScope(c.idem.key, c.p)
    && CreatorMatches(c.task, c.p) && ValidCreation(OwnedTask(c.task, c.p))
    && Acquires(db, c.idem)
    && c.task.id !in db.tasks
    && CreatedEvent(c).eventType.TaskCreatedEvent? && ValidEvent(CreatedEvent(c))
    && AllFit(c.outbox, OwnedTask(c.task, c.p), c.now)
  }

  function EditCreate(db: Db, c: Command): Edit
    requires c.CreateTask?
  {
    var task := OwnedTask(c.task, c.p);
    Edit(CompletedRow(ReservedRow(db, c.idem), c.idem.(resourceId := task.id)),
         Some(task), [CreatedEvent(c)], PrepareAll(c.outbox, task, c.now, |c.outbox|), [])
  }

  // ---- CommitTransition ----------------------------------------------------

  function TransitionEvent(db: Db, c: Command): TaskEvent
    requires c.CommitTransition? && c.task.id in db.tasks
  {
    Stamp(c.event, db.tasks[c.task.id], c.task.traceId, NextSequence(db, c.task.id), c.transition.at, c.now)
  }

  predicate AdmitsTransition(db: Db, c: Command)
    requires c.CommitTransition?
  {
    && ValidRecord(c.idem) && !c.idem.status.InProgress? && Authorized(c.p) && InScope(c.idem.key, c.p)
    && Acquires(db, c.idem)
    && CurrentMatches(db, c.p, c.task)
    && c.transition.from == db.tasks[c.task.id].status && c.transition.to == c.task.status
    && EvidenceComplete(c.transition)
    && Canonical(c.task.status) == Some(c.event.eventType)
    && ValidEvent(TransitionEvent(db, c))
    && AllFit(c.outbox, db.tasks[c.task.id], c.now)
  }

  function EditTransition(db: Db, c: Command): Edit
    requires c.CommitTransition? && c.task.id in db.tasks
  {
    var current := db.tasks[c.task.id];
    Edit(CompletedRow(ReservedRow(db, c.idem), WithResource(c.idem, current.id)),
         Some(Projected(current, c.task, 1)), [TransitionEvent(db, c)],
         PrepareAll(c.outbox, current, c.now, |c.outbox|), [])
  }

  // ---- CommitRouteTransition -----------------------------------------------

  function RoutedDecision(c: Command): RouteDecision
    requires c.CommitRoute?
  {
    c.decision.(taskId := c.task.id, createdAt := OrElse(c.decision.createdAt, c.transition.at))
  }

  function RouteEvent(db: Db, c: Command): TaskEvent
    requires c.CommitRoute? && c.task.id in db.tasks
  {
    Stamp(Typed(c.event, TaskRoutingStarted), db.tasks[c.task.id], c.task.traceId,
          NextSequence(db, c.task.id), c.transition.at, c.now)
  }

  /** PLANNING to ROUTING, evidenced, with a decision about this task. */
  predicate RequestsRoute(status: TaskStatus, c: Command)
    requires c.CommitRoute?
  {
    && status.TaskPlanning? && c.transition.from.TaskPlanning?
    && c.transition.to.TaskRouting? && c.task.status.TaskRouting?
    && EvidenceComplete(c.transition)
    && !Blank(c.decision.id) && (c.decision.taskId != "" ==> c.decision.taskId == c.task.id)
  }

  predicate AdmitsRoute(db: Db, c: Command)
    requires c.CommitRoute?
  {
    && ValidRecord(c.idem) && c.idem.status.Completed? && Authorized(c.p) && InScope(c.idem.key, c.p)
    && Acquires(db, c.idem)
    && CurrentMatches(db, c.p, c.task)
    && RequestsRoute(db.tasks[c.task.id].status, c)
    && RouteEvent(db, c).eventType.TaskRoutingStarted? && ValidEvent(RouteEvent(db, c))
    && AllFit(c.outbox, db.tasks[c.task.id], c.now)
  }

  function EditRoute(db: Db, c: Command): Edit
    requires c.CommitRoute? && c.task.id in db.tasks
  {
    var current := db.tasks[c.task.id];
    var routed := c.task.(routeDecisionId := c.decision.id, estimatedCost := c.decision.selected.estimatedCost);
    Edit(CompletedRow(ReservedRow(db, c.idem),
                      WithCode(c.idem.(resourceId := current.id, response := DecisionResponse(RoutedDecision(c))), 201)),
         Some(Projected(current, routed, 1)), [RouteEvent(db, c)],
         PrepareAll(c.outbox, current, c.now, |c.outbox|), [RoutedDecision(c)])
  }

  // ---- CommitRouteSelection ------------------------------------------------

  function SelectionEvent(db: Db, c: Command): TaskEvent
    requires c.SelectRoute? && c.task.id in db.tasks
  {
    Stamp(Typed(c.event, TaskRouteSelected), db.tasks[c.task.id], db.tasks[c.task.id].traceId,
          NextSequence(db, c.task.id), c.selection.decision.createdAt, c.now)
  }

  predicate AdmitsSelection(db: Db, c: Command)
    requires c.SelectRoute?
  {
    && ValidRecord(c.idem) && c.idem.status.Completed? && Authorized(c.p) && InScope(c.idem.key, c.p)
    && !Blank(c.selection.decision.id) && !Blank(c.selection.decision.taskId)
    && c.selection.target.id != "" && c.selection.target.digest != ""
    && Acquires(db, c.idem)
    && CurrentMatches(db, c.p, c.task)
    && db.tasks[c.task.id].status.TaskRouting? && c.task.status.TaskRouting?
    && c.selection.decision.taskId == c.task.id && c.selection.decision.createdAt != 0
    && SelectionEvent(db, c).eventType.TaskRouteSelected? && ValidEvent(SelectionEvent(db, c))
  }

  function EditSelection(db: Db, c: Command): Edit
    requires c.SelectRoute? && c.task.id in db.tasks
  {
    var current := db.tasks[c.task.id];
    Edit(CompletedRow(ReservedRow(db, c.idem),
                      WithCode(c.idem.(resourceId := current.id, response := SelectionResponse(c.selection)), 200)),
         Some(current.(routeDecisionId := c.selection.decision.id,
                       estimatedCost := c.selection.decision.selected.estimatedCost,
                       updatedAt := OrElse(c.task.updatedAt, c.now), version := current.version + 1)),
         [SelectionEvent(db, c)], [], [c.selection.decision])
  }

  // ---- BeginModelExecution -------------------------------------------------

  function BeginEvent(db: Db, c: Command): TaskEvent
    requires c.BeginModel? && c.task.id in db.tasks && c.start.Some? && c.startEvent.Some?
  {
    Stamp(c.startEvent.value, db.tasks[c.task.id], c.task.traceId, NextSequence(db, c.task.id), c.start.value.at, c.now)
  }

  predicate AdmitsBegin(db: Db, c: Command)
    requires c.BeginModel?
  {
    && ValidRecord(c.idem) && c.idem.status.InProgress? && Authorized(c.p) && InScope(c.idem.key, c.p)
    && Acquires(db, c.idem)
    && CurrentMatches(db, c.p, c.task)
    && match db.tasks[c.task.id].status {
         case TaskRouting =>
           && c.start.Some? && c.startEvent.Some?
           && c.start.value.from.TaskRouting? && c.start.value.to.TaskExecuting? && c.task.status.TaskExecuting?
           && EvidenceComplete(c.start.value)
           && c.startEvent.value.eventType.TaskExecutionStarted?
           && ValidEvent(BeginEvent(db, c))
         case TaskExecuting => c.start.None? && c.startEvent.None?
         case _ => false
       }
  }

  function EditBegin(db: Db, c: Command): Edit
    requires c.BeginModel? && c.task.id in db.tasks
  {
    if c.start.Some? && c.startEvent.Some? then
      Edit(ReservedRow(db, c.idem), Some(Projected(db.tasks[c.task.id], c.task, 1)), [BeginEvent(db, c)], [], [])
    else
      Edit(ReservedRow(db, c.idem), None, [], [], [])
  }

  // ---- FinalizeModelExecution ----------------------------------------------

  /** Transition i continues where i-1 ended, is evidenced, and carries the canonical event of its target. */
  predicate ChainStep(from: TaskStatus, transitions: seq<Transition>, events: seq<TaskEvent>, i: int)
    requires 0 <= i < |transitions| == |events|
  {
    && transitions[i].from == (if i == 0 then from else transitions[i - 1].to)
    && EvidenceComplete(transitions[i])
    && Canonical(transitions[i].to) == Some(events[i].eventType)
  }

  predicate Chained(from: TaskStatus, transitions: seq<Transition>, events: seq<TaskEvent>)
    requires |transitions| == |events|
  {
    forall i | 0 <= i < |transitions| :: ChainStep(from, transitions, events, i)
  }

  predicate FinalShape(task: Task, transitions: seq<Transition>, status: IdempotencyStatus) {
    || (&& task.status.TaskCompleted? && |transitions| == 2 && status.Completed?
        && transitions[0].to.TaskValidating? && transitions[1].to.TaskCompleted?)
    || (&& task.status.TaskFailed? && |transitions| == 1 && status.FailedFinal?
        && transitions[0].to.TaskFailed?)
  }

  predicate AllValid(events: seq<TaskEvent>) {
    forall i | 0 <= i < |events| :: ValidEvent(events[i])
  }

  function FinalEvents(db: Db, c: Command): (r: seq<TaskEvent>)
    requires c.FinalizeModel? && c.task.id in db.tasks && |c.transitions| == |c.events|
    ensures |r| == |c.events|
  {
    StampAll(c.events, c.transitions, db.tasks[c.task.id], c.task.traceId, NextSequence(db, c.task.id), c.now, |c.events|)
  }

  predicate AdmitsFinalize(db: Db, c: Command)
    requires c.FinalizeModel?
  {
    && ValidRecord(c.idem) && FinalStatus(c.idem.status) && Authorized(c.p) && InScope(c.idem.key, c.p)
    && HoldsKey(db, c.idem)
    && CurrentMatches(db, c.p, c.task)
    && db.tasks[c.task.id].status.TaskExecuting?
    && |c.transitions| == |c.events| > 0
    && Chained(TaskExecuting, c.transitions, c.events)
    && c.transitions[|c.transitions| - 1].to == c.task.status
    && FinalShape(c.task, c.transitions, c.idem.status)
    && AllValid(FinalEvents(db, c))
  }

  function EditFinalize(db: Db, c: Command): Edit
    requires c.FinalizeModel? && c.task.id in db.tasks && c.idem.key in db.idempotency && |c.transitions| == |c.events|
  {
    var current := db.tasks[c.task.id];
    Edit(CompletedRow(db.idempotency[c.idem.key], WithResource(c.idem, current.id)),
         Some(Projected(current, c.task, |c.transitions|)), FinalEvents(db, c), [], [])
  }

  // ---- MarkModelExecutionRetryable -----------------------------------------

  predicate AdmitsRetryable(db: Db, c: Command)
    requires c.MarkRetryable?
  {
    && ValidRecord(c.idem) && c.idem.status.FailedRetryable? && HasProject(c.p) && InScope(c.idem.key, c.p)
    && HoldsKey(db, c.idem)
  }

  function EditRetryable(db: Db, c: Command): Edit
    requires c.MarkRetryable? && c.idem.key in db.idempotency
  {
    Edit(CompletedRow(db.idempotency[c.idem.key], c.idem), None, [], [], [])
  }

  // ---- One command, and runs -----------------------------------------------

  predicate Admits(db: Db, c: Command) {
    match c
    case CreateTask(_, _, _, _, _, _) => AdmitsCreate(db, c)
    case CommitTransition(_, _, _, _, _, _, _) => AdmitsTransition(db, c)
    case CommitRoute(_, _, _, _, _, _, _, _) => AdmitsRoute(db, c)
    case SelectRoute(_, _, _, _, _, _) => AdmitsSelection(db, c)
    case BeginModel(_, _, _, _, _, _) => AdmitsBegin(db, c)
    case FinalizeModel(_, _, _, _, _, _) => AdmitsFinalize(db, c)
    case MarkRetryable(_, _) => AdmitsRetryable(db, c)
  }

  function EditOf(db: Db, c: Command): Edit
    requires Admits(db, c)
  {
    match c
    case CreateTask(_, _, _, _, _, _) => EditCreate(db, c)
    case CommitTransition(_, _, _, _, _, _, _) => EditTransition(db, c)
    case CommitRoute(_, _, _, _, _, _, _, _) => EditRoute(db, c)
    case SelectRoute(_, _, _, _, _, _) => EditSelection(db, c)
    case BeginModel(_, _, _, _, _, _) => EditBegin(db, c)
    case FinalizeModel(_, _, _, _, _, _) => EditFinalize(db, c)
    case MarkRetryable(_, _) => EditRetryable(db, c)
  }

  /** Rejections and replays write nothing. */
  function Next(db: Db, c: Command): Db {
    if Admits(db, c) then Apply(db, EditOf(db, c)) else db
  }

  /** Any interleaving of commands by any clients. */
  function RunAll(db: Db, cs: seq<Command>): Db
    decreases |cs|
  {
    if cs == [] then db else RunAll(Next(db, cs[0]), cs[1..])
  }
}
