/**
 What an admitted command leaves behind, field by field, and what follows for every run: optimistic
 concurrency, isolation of projects, and an outbox that holds exactly what commands committed.
 */
module KernelMeaning {
  import opened Common
  import opened Tasks
  import opened TaskKernel
  import opened TaskProofs
  import Outbox

  /** Who asked, for what, and until when. */
  predicate Lasting(a: IdempotencyRecord, b: IdempotencyRecord) {
    a.key == b.key && a.requestDigest == b.requestDigest && a.createdAt == b.createdAt && a.expiresAt == b.expiresAt
  }

  predicate SameOrigin(a: Task, b: Task) {
    a.id == b.id && SameIdentity(a, b) && a.createdAt == b.createdAt
  }

  predicate SameContent(a: Task, b: Task) {
    && a.agentId == b.agentId && a.input == b.input && a.status == b.status && a.result == b.result
    && a.cost == b.cost && a.estimatedCost == b.estimatedCost && a.actualCost == b.actualCost && a.currency == b.currency
    && a.routeDecisionId == b.routeDecisionId && a.traceId == b.traceId
    && a.updatedAt == b.updatedAt && a.completedAt == b.completedAt
  }

  predicate SameIdentity(current: Task, task: Task) {
    current.tenantId == task.tenantId && current.projectId == task.projectId && current.createdBy == task.createdBy
  }

  // ---- Messages ------------------------------------------------------------

  /** The message may be stored with a command on this task at this time. */
  predicate Enters(m: OutboxMessage, task: Task, now: Time) {
    && !Blank(m.outboxId) && !Blank(m.aggregateType) && !Blank(m.aggregateId) && !Blank(m.eventType)
    && !Blank(m.destination) && !Blank(m.idempotencyKey) && m.payload.Value? && m.attempts >= 0
    && (m.tenantId == "" || m.tenantId == task.tenantId) && !Blank(task.tenantId)
    && (m.projectId == "" || m.projectId == task.projectId) && !Blank(task.projectId)
    && (m.taskId == "" || m.taskId == task.id)
    && (now == 0 ==> m.availableAt != 0 && m.createdAt != 0)
    && !m.status.OutboxOther?
  }

  /** The given message, as stored: the same intent, in the task's scope, pending unless told otherwise. */
  ghost predicate StoredAs(m: OutboxMessage, stored: OutboxMessage, task: Task, now: Time) {
    && Carries(m, stored)
    && stored.tenantId == task.tenantId && stored.projectId == task.projectId
    && (stored.taskId == "" || stored.taskId == task.id)
    && (m.taskId != "" || (m.aggregateType == "Task" && m.aggregateId == task.id) ==> stored.taskId == task.id)
    && (m.availableAt == 0 ==> stored.availableAt == now)
    && (m.createdAt == 0 ==> stored.createdAt == now)
  }

  /** What the sender fixed is kept, and a message given as pending, or without a status, can be delivered. */
  ghost predicate Carries(m: OutboxMessage, stored: OutboxMessage) {
    && stored.outboxId == m.outboxId && stored.aggregateType == m.aggregateType && stored.aggregateId == m.aggregateId
    && stored.eventType == m.eventType && stored.payload == m.payload && stored.destination == m.destination
    && stored.idempotencyKey == m.idempotencyKey && stored.attempts == m.attempts && stored.deliveredAt == m.deliveredAt
    && (m.availableAt != 0 ==> stored.availableAt == m.availableAt)
    && (m.createdAt != 0 ==> stored.createdAt == m.createdAt)
    && (!m.status.OutboxUnset? ==> stored.status == m.status)
    && (m.status.OutboxUnset? ==> stored.status.OutboxPending?)
    && (m.status.OutboxUnset? || m.status.OutboxPending? ==>
          Outbox.DueFrom(Outbox.Row(stored, None, None, ""), stored.availableAt))
  }

  /** The messages were appended, in order. */
  ghost predicate AllStored(messages: seq<OutboxMessage>, before: seq<OutboxMessage>, after: seq<OutboxMessage>, task: Task, now: Time) {
    && |after| == |before| + |messages| && before <= after
    && forall i | 0 <= i < |messages| :: StoredAs(messages[i], after[|before| + i], task, now)
  }

  lemma EntersIff(m: OutboxMessage, task: Task, now: Time)
    ensures Enters(m, task, now) <==> MessageFits(PrepareMessage(m, task, now), task)
    ensures Enters(m, task, now) ==> StoredAs(m, PrepareMessage(m, task, now), task, now)
  {
  }

  lemma AllEnterIff(messages: seq<OutboxMessage>, task: Task, now: Time, before: seq<OutboxMessage>)
    ensures AllFit(messages, task, now) <==> forall i | 0 <= i < |messages| :: Enters(messages[i], task, now)
    ensures AllFit(messages, task, now) ==>
              AllStored(messages, before, before + PrepareAll(messages, task, now, |messages|), task, now)
  {
    hide Enters, StoredAs, MessageFits, PrepareMessage;
    forall i | 0 <= i < |messages|
      ensures Enters(messages[i], task, now) <==> MessageFits(PrepareMessage(messages[i], task, now), task)
      ensures Enters(messages[i], task, now) ==> StoredAs(messages[i], PrepareMessage(messages[i], task, now), task, now)
    {
      EntersIff(messages[i], task, now);
    }
  }

  function MessagesOf(c: Command): seq<OutboxMessage> {
    if c.CreateTask? || c.CommitTransition? || c.CommitRoute? then c.outbox else []
  }

  lemma MessagesStored(db: Db, c: Command)
    requires Inv(db) && Admits(db, c)
    ensures MessagesOf(c) == [] ==> Next(db, c).outbox == db.outbox
    ensures MessagesOf(c) != [] ==>
              && c.task.id in Next(db, c).tasks
              && AllStored(MessagesOf(c), db.outbox, Next(db, c).outbox, Next(db, c).tasks[c.task.id], c.now)
  {
    hide ValidEvent, ValidRecord, EvidenceComplete, MaxSequence, LogAgrees, AllFit, PrepareAll, AllStored, Stamp, StampAll, FinalEvents,
         CreatorMatches, ValidCreation, Acquires, ReservedRow, CompletedRow, ChainStep;
    if c.CreateTask? {
      AllEnterIff(c.outbox, OwnedTask(c.task, c.p), c.now, db.outbox);
      SameScope(c.outbox, db.outbox, Next(db, c).outbox, OwnedTask(c.task, c.p), Next(db, c).tasks[c.task.id], c.now);
    } else if c.CommitTransition? || c.CommitRoute? {
      AllEnterIff(c.outbox, db.tasks[c.task.id], c.now, db.outbox);
      SameScope(c.outbox, db.outbox, Next(db, c).outbox, db.tasks[c.task.id], Next(db, c).tasks[c.task.id], c.now);
    } else {
      assert db.outbox + [] == db.outbox;
    }
  }

  lemma SameScope(messages: seq<OutboxMessage>, before: seq<OutboxMessage>, after: seq<OutboxMessage>, a: Task, b: Task, now: Time)
    requires AllStored(messages, before, after, a, now) && a.id == b.id && a.tenantId == b.tenantId && a.projectId == b.projectId
    ensures AllStored(messages, before, after, b, now)
  {
    hide Carries;
  }

  /** The messages of the admitted commands of a run, in the order of commitment. */
  function Sent(db: Db, cs: seq<Command>): seq<OutboxMessage>
    decreases |cs|
  {
    if cs == [] then []
    else (if Admits(db, cs[0]) then MessagesOf(cs[0]) else []) + Sent(Next(db, cs[0]), cs[1..])
  }

  ghost predicate AllCarried(given: seq<OutboxMessage>, before: seq<OutboxMessage>, after: seq<OutboxMessage>) {
    && |after| == |before| + |given| && before <= after
    && forall i | 0 <= i < |given| :: Carries(given[i], after[|before| + i])
  }

  lemma StepCarries(db: Db, c: Command)
    requires Inv(db)
    ensures AllCarried(if Admits(db, c) then MessagesOf(c) else [], db.outbox, Next(db, c).outbox)
  {
    hide Admits, EditOf, Apply, Inv, Carries;
    if Admits(db, c) { MessagesStored(db, c); }
  }

  lemma CarriedBoth(g: seq<OutboxMessage>, h: seq<OutboxMessage>, a: seq<OutboxMessage>, b: seq<OutboxMessage>, c: seq<OutboxMessage>)
    requires AllCarried(g, a, b) && AllCarried(h, b, c)
    ensures AllCarried(g + h, a, c)
  {
    hide Carries;
    forall i | 0 <= i < |g + h| ensures Carries((g + h)[i], c[|a| + i]) {
      if i >= |g| { assert Carries(h[i - |g|], c[|b| + (i - |g|)]); }
    }
  }

  /**
   The transactional outbox, over every run: it holds the messages of the commands that were admitted, all
   of them, once each, in the order of commitment, and nothing from a refused or replayed command.
   */
  lemma {:induction false} OutboxIsWhatWasSent(db: Db, cs: seq<Command>)
    requires Inv(db)
    ensures AllCarried(Sent(db, cs), db.outbox, RunAll(db, cs).outbox)
    decreases |cs|
  {
    if cs != [] {
      hide Next, Inv, Admits, MessagesOf, AllCarried;
      StepCarries(db, cs[0]);
      NextKeepsInv(db, cs[0]);
      OutboxIsWhatWasSent(Next(db, cs[0]), cs[1..]);
      CarriedBoth(if Admits(db, cs[0]) then MessagesOf(cs[0]) else [], Sent(Next(db, cs[0]), cs[1..]),
                  db.outbox, Next(db, cs[0]).outbox, RunAll(db, cs).outbox);
    } else {
      hide Carries;
    }
  }

  // ---- What each command leaves --------------------------------------------

  /** The given event in the task's scope, trace and log; times and schema have defaults. */
  predicate EventAs(e: TaskEvent, given: TaskEvent, task: Task, sequence: int, traceId: string, at: Time, now: Time) {
    && e.eventId == given.eventId && e.actorType == given.actorType && e.actorSubject == given.actorSubject
    && e.payload == given.payload && e.requestId == given.requestId
    && e.tenantId == task.tenantId && e.projectId == task.projectId && e.taskId == task.id && e.sequence == sequence
    && (!given.eventType.NoEventType? ==> e.eventType == given.eventType)
    && e.traceId == traceId
    && e.occurredAt == (if given.occurredAt != 0 then given.occurredAt else at)
    && e.createdAt == (if given.createdAt != 0 then given.createdAt else now)
    && e.schemaVersion == (if given.schemaVersion != 0 then given.schemaVersion else 1)
  }

  /** The row of the key after the command that brought this record: its outcome, under the dates of its first use. */
  ghost predicate AnswersAs(before: Db, db: Db, given: IdempotencyRecord, resourceId: string, code: int) {
    && given.key in db.idempotency
    && var row, first := db.idempotency[given.key], if given.key in before.idempotency then before.idempotency[given.key] else given;
    && row.createdAt == first.createdAt && row.expiresAt == first.expiresAt
    && row.key == given.key && row.requestDigest == given.requestDigest && row.status == given.status
    && row.responseDigest == given.responseDigest
    && row.resourceId == resourceId
    && row.responseCode == (if given.responseCode != 0 then given.responseCode else code)
  }

  /** One event was appended to the task's log. */
  ghost predicate Logged(db: Db, d: Db, id: string, given: TaskEvent, traceId: string, at: Time, now: Time) {
    && id in d.tasks && |EventsOf(d, id)| == |EventsOf(db, id)| + 1 && EventsOf(db, id) <= EventsOf(d, id)
    && EventAs(EventsOf(d, id)[|EventsOf(db, id)|], given, d.tasks[id], |EventsOf(db, id)| + 1, traceId, at, now)
  }

  /** No other task, log or key was touched. */
  ghost predicate OthersKept(db: Db, d: Db, id: string, key: IdempotencyKey) {
    && (forall x | x != id :: (x in d.tasks <==> x in db.tasks) && (x in db.tasks ==> d.tasks[x] == db.tasks[x]))
    && (forall x | x != id :: EventsOf(d, x) == EventsOf(db, x))
    && (forall k | k != key :: (k in d.idempotency <==> k in db.idempotency) && (k in db.idempotency ==> d.idempotency[k] == db.idempotency[k]))
  }

  lemma Applies(db: Db, c: Command)
    requires Inv(db) && Admits(db, c) && EditOf(db, c).task.Some?
    ensures var e, d := EditOf(db, c), Next(db, c);
            && e.task.value.id == c.task.id && c.task.id in d.tasks && d.tasks[c.task.id] == e.task.value
            && EventsOf(d, c.task.id) == EventsOf(db, c.task.id) + e.events && d.decisions == db.decisions + e.decisions
            && c.idem.key in d.idempotency && d.idempotency[c.idem.key] == e.idem
  {
    EditMovesOn(db, c);
    OwnRecordOnly(db, c);
    hide Admits, EditOf, Inv;
  }

  lemma ApplyKeepsOthers(db: Db, e: Edit, id: string)
    requires e.task.Some? ==> e.task.value.id == id
    ensures OthersKept(db, Apply(db, e), id, e.idem.key)
  {
  }

  /** A command touches its own task and its own key, and no other. */
  lemma TouchesItsOwn(db: Db, c: Command)
    requires Inv(db) && !c.MarkRetryable?
    ensures OthersKept(db, Next(db, c), c.task.id, c.idem.key)
  {
    hide Admits, EditOf, Inv, Apply;
    if Admits(db, c) {
      OwnRecordOnly(db, c);
      if EditOf(db, c).task.Some? { EditMovesOn(db, c); }
      ApplyKeepsOthers(db, EditOf(db, c), c.task.id);
    }
  }

  lemma StampAs(e: TaskEvent, given: TaskEvent, current: Task, t: Task, traceId: string, sequence: int, occurredAt: Time, now: Time)
    requires e == given || (given.eventType.NoEventType? && e == given.(eventType := e.eventType))
    requires current.id == t.id && current.tenantId == t.tenantId && current.projectId == t.projectId
    ensures EventAs(Stamp(e, current, traceId, sequence, occurredAt, now), given, t, sequence, traceId, occurredAt, now)
  {
  }

  lemma OneLogged(db: Db, d: Db, id: string, given: TaskEvent, e: TaskEvent, traceId: string, at: Time, now: Time)
    requires id in d.tasks && EventsOf(d, id) == EventsOf(db, id) + [e]
    requires EventAs(e, given, d.tasks[id], |EventsOf(db, id)| + 1, traceId, at, now)
    ensures Logged(db, d, id, given, traceId, at, now)
  {
  }

  lemma ProjectedAs(current: Task, task: Task, n: int)
    requires current.id == task.id
    ensures SameOrigin(current, Projected(current, task, n)) && SameContent(task, Projected(current, task, n))
  {
  }

  lemma RowAnswers(db: Db, d: Db, given: IdempotencyRecord, rec: IdempotencyRecord)
    requires Acquires(db, given) && (given.key in db.idempotency ==> db.idempotency[given.key].key == given.key)
    requires given.key in d.idempotency && d.idempotency[given.key] == CompletedRow(ReservedRow(db, given), rec)
    requires rec.status == given.status && rec.responseDigest == given.responseDigest
    requires given.responseCode != 0 ==> rec.responseCode == given.responseCode
    ensures AnswersAs(db, d, given, rec.resourceId, rec.responseCode) && d.idempotency[given.key].response == rec.response
  {
  }

  /** A new task of the caller's own, its first event, and the caller's answer. */
  ghost predicate Creates(db: Db, d: Db, c: Command)
    requires c.CreateTask?
  {
    && c.task.id !in db.tasks && c.task.id in d.tasks
    && var t := d.tasks[c.task.id];
    && t.id == c.task.id && t.tenantId == c.p.tenantId && t.projectId == c.p.projectId && t.createdBy == c.p.subjectId
    && t.version == 1 && t.status.TaskCreated? && t.createdAt == c.task.createdAt && SameContent(c.task, t)
    && Logged(db, d, t.id, c.event, c.task.traceId, c.task.createdAt, c.now) && EventsOf(d, t.id)[0].eventType.TaskCreatedEvent?
    && AnswersAs(db, d, c.idem, t.id, 0) && d.idempotency[c.idem.key].response == c.idem.response
    && d.decisions == db.decisions
  }

  lemma CreateMeans(db: Db, c: Command)
    requires Inv(db) && c.CreateTask? && Admits(db, c)
    ensures Creates(db, Next(db, c), c)
  {
    hide ValidEvent, ValidRecord, Blank, AllFit, PrepareAll, LogAgrees, CreatorMatches;
    Applies(db, c);
    var d, t := Next(db, c), OwnedTask(c.task, c.p);
    hide Next;
    StampAs(Typed(c.event, TaskCreatedEvent), c.event, t, t, t.traceId, 1, t.createdAt, c.now);
    assert EventsOf(db, c.task.id) == [];
    hide Stamp, EventAs;
    OneLogged(db, d, t.id, c.event, CreatedEvent(c), t.traceId, t.createdAt, c.now);
    assert EventsOf(d, t.id) == [CreatedEvent(c)];
    hide Logged;
    RowAnswers(db, d, c.idem, c.idem.(resourceId := t.id));
    assert db.decisions + [] == db.decisions;
  }

  /** The task moves on by one version with the command's content, identity kept, one event, and the answer. */
  ghost predicate Moves(db: Db, d: Db, c: Command)
    requires c.CommitTransition?
  {
    && c.task.id in db.tasks && c.task.id in d.tasks
    && var was, t := db.tasks[c.task.id], d.tasks[c.task.id];
    && SameOrigin(was, t) && SameContent(c.task, t) && t.version == was.version + 1
    && was.status == c.transition.from && t.status == c.transition.to
    && Logged(db, d, t.id, c.event, c.task.traceId, c.transition.at, c.now)
    && AnswersAs(db, d, c.idem, if c.idem.resourceId == "" then t.id else c.idem.resourceId, 0)
    && d.idempotency[c.idem.key].response == c.idem.response
    && d.decisions == db.decisions
  }

  lemma TransitionMeans(db: Db, c: Command)
    requires Inv(db) && c.CommitTransition? && Admits(db, c)
    ensures Moves(db, Next(db, c), c)
  {
    hide ValidEvent, ValidRecord, Blank, AllFit, PrepareAll, LogAgrees, EvidenceComplete, MaxSequence, Canonical;
    Applies(db, c);
    var d, was := Next(db, c), db.tasks[c.task.id];
    hide Next;
    LogSequences(db, c.task.id);
    StampAs(c.event, c.event, was, d.tasks[was.id], c.task.traceId, NextSequence(db, was.id), c.transition.at, c.now);
    hide Stamp, EventAs;
    OneLogged(db, d, was.id, c.event, TransitionEvent(db, c), c.task.traceId, c.transition.at, c.now);
    hide Logged;
    ProjectedAs(was, c.task, 1);
    hide Projected, SameContent, SameOrigin;
    RowAnswers(db, d, c.idem, WithResource(c.idem, was.id));
    assert db.decisions + [] == db.decisions;
  }

  lemma LogSequences(db: Db, id: string)
    requires Inv(db) && id in db.tasks
    ensures forall i | 0 <= i < |EventsOf(db, id)| :: EventsOf(db, id)[i].sequence == i + 1
    ensures NextSequence(db, id) == |EventsOf(db, id)| + 1 && db.tasks[id].version == |EventsOf(db, id)| && db.tasks[id].id == id
  {
    MaxSequenceIsLength(EventsOf(db, id));
  }

  /** The same decision, about this task. */
  predicate DecisionAs(d: RouteDecision, given: RouteDecision, taskId: string) {
    && d.id == given.id && d.taskId == taskId && d.selected == given.selected && d.reason == given.reason
    && d.policyVersion == given.policyVersion && (given.createdAt != 0 ==> d.createdAt == given.createdAt)
  }

  /** The task names the decision and its estimated cost. */
  predicate Chooses(t: Task, d: RouteDecision) {
    t.routeDecisionId == d.id && t.estimatedCost == d.selected.estimatedCost
  }

  /** PLANNING to ROUTING with a decision on record, which the task names and the answer carries. */
  ghost predicate Routes(db: Db, d: Db, c: Command)
    requires c.CommitRoute?
  {
    && c.task.id in db.tasks && c.task.id in d.tasks && d.decisions != []
    && var was, t, decision := db.tasks[c.task.id], d.tasks[c.task.id], d.decisions[|d.decisions| - 1];
    && d.decisions == db.decisions + [decision] && DecisionAs(decision, c.decision, c.task.id) && Chooses(t, decision)
    && was.status.TaskPlanning? && t.status.TaskRouting? && SameOrigin(was, t) && t.version == was.version + 1
    && SameContent(c.task.(routeDecisionId := t.routeDecisionId, estimatedCost := t.estimatedCost), t)
    && Logged(db, d, t.id, c.event, c.task.traceId, c.transition.at, c.now) && AnswersAs(db, d, c.idem, t.id, 201)
    && d.idempotency[c.idem.key].response == DecisionResponse(decision)
  }

  lemma RouteMeans(db: Db, c: Command)
    requires Inv(db) && c.CommitRoute? && Admits(db, c)
    ensures Routes(db, Next(db, c), c)
  {
    hide ValidEvent, ValidRecord, Blank, AllFit, PrepareAll, LogAgrees, EvidenceComplete, MaxSequence, Canonical;
    Applies(db, c);
    var d, was := Next(db, c), db.tasks[c.task.id];
    hide Next;
    LogSequences(db, c.task.id);
    StampAs(Typed(c.event, TaskRoutingStarted), c.event, was, d.tasks[was.id], c.task.traceId, NextSequence(db, was.id), c.transition.at, c.now);
    hide Stamp, EventAs;
    OneLogged(db, d, was.id, c.event, RouteEvent(db, c), c.task.traceId, c.transition.at, c.now);
    hide Logged, Typed;
    var routed := c.task.(routeDecisionId := c.decision.id, estimatedCost := c.decision.selected.estimatedCost);
    ProjectedAs(was, routed, 1);
    assert d.tasks[was.id] == Projected(was, routed, 1);
    hide SameContent, SameOrigin;
    RowAnswers(db, d, c.idem, WithCode(c.idem.(resourceId := was.id, response := DecisionResponse(RoutedDecision(c))), 201));
  }

  /** The routed task takes on the selection; nothing else about it changes. */
  ghost predicate Selects(db: Db, d: Db, c: Command)
    requires c.SelectRoute?
  {
    && c.task.id in db.tasks && c.task.id in d.tasks
    && var was, t := db.tasks[c.task.id], d.tasks[c.task.id];
    && d.decisions == db.decisions + [c.selection.decision] && Chooses(t, c.selection.decision)
    && was.status.TaskRouting? && SameOrigin(was, t) && t.version == was.version + 1
    && SameContent(was.(routeDecisionId := t.routeDecisionId, estimatedCost := t.estimatedCost, updatedAt := t.updatedAt), t)
    && Logged(db, d, t.id, c.event, was.traceId, c.selection.decision.createdAt, c.now) && AnswersAs(db, d, c.idem, t.id, 200)
    && d.idempotency[c.idem.key].response == SelectionResponse(c.selection)
  }

  lemma SelectionMeans(db: Db, c: Command)
    requires Inv(db) && c.SelectRoute? && Admits(db, c)
    ensures Selects(db, Next(db, c), c)
  {
    hide ValidEvent, ValidRecord, Blank, LogAgrees, EvidenceComplete, MaxSequence, Canonical;
    Applies(db, c);
    var d, was := Next(db, c), db.tasks[c.task.id];
    hide Next;
    LogSequences(db, c.task.id);
    StampAs(Typed(c.event, TaskRouteSelected), c.event, was, d.tasks[was.id], was.traceId,
            NextSequence(db, was.id), c.selection.decision.createdAt, c.now);
    hide Stamp, EventAs;
    OneLogged(db, d, was.id, c.event, SelectionEvent(db, c), was.traceId, c.selection.decision.createdAt, c.now);
    hide Logged, Typed;
    RowAnswers(db, d, c.idem, WithCode(c.idem.(resourceId := was.id, response := SelectionResponse(c.selection)), 200));
  }

  ghost predicate Begins(db: Db, d: Db, c: Command)
    requires c.BeginModel?
  {
    && c.task.id in db.tasks && c.task.id in d.tasks
    && var was, t := db.tasks[c.task.id], d.tasks[c.task.id];
    && HoldsKey(d, c.idem) && d.idempotency[c.idem.key].response.NoResponse? && t.status.TaskExecuting?
    && (was.status.TaskRouting? ==>
          && c.start.Some? && c.startEvent.Some? && SameOrigin(was, t) && SameContent(c.task, t) && t.version == was.version + 1
          && Logged(db, d, t.id, c.startEvent.value, c.task.traceId, c.start.value.at, c.now))
    && (!was.status.TaskRouting? ==> t == was && EventsOf(d, t.id) == EventsOf(db, t.id))
    && d.decisions == db.decisions
  }

  lemma BeginStart(db: Db, c: Command)
    requires Inv(db) && c.BeginModel? && Admits(db, c) && c.start.Some?
    ensures Begins(db, Next(db, c), c)
  {
    hide ValidEvent, ValidRecord, Blank, LogAgrees, EvidenceComplete, MaxSequence, Canonical;
    Applies(db, c);
    var d, was := Next(db, c), db.tasks[c.task.id];
    hide Next;
    LogSequences(db, c.task.id);
    StampAs(c.startEvent.value, c.startEvent.value, was, d.tasks[was.id], c.task.traceId, NextSequence(db, was.id), c.start.value.at, c.now);
    hide Stamp, EventAs;
    OneLogged(db, d, was.id, c.startEvent.value, BeginEvent(db, c), c.task.traceId, c.start.value.at, c.now);
    hide Logged;
    ProjectedAs(was, c.task, 1);
    hide Projected, SameContent, SameOrigin;
    assert db.decisions + [] == db.decisions;
  }

  lemma BeginRetry(db: Db, c: Command)
    requires Inv(db) && c.BeginModel? && Admits(db, c) && c.start.None?
    ensures Begins(db, Next(db, c), c)
  {
    hide ValidEvent, ValidRecord, Blank, LogAgrees, EvidenceComplete;
    assert db.decisions + [] == db.decisions;
    assert c.idem.key in db.idempotency ==> db.idempotency[c.idem.key].key == c.idem.key;
  }

  /** The key is held in progress without an answer; a ROUTING task is EXECUTING now, an EXECUTING one as it was. */
  lemma BeginMeans(db: Db, c: Command)
    requires Inv(db) && c.BeginModel? && Admits(db, c)
    ensures Begins(db, Next(db, c), c)
  {
    if c.start.Some? { BeginStart(db, c); } else { BeginRetry(db, c); }
  }

  /** The executing task ends with the command's content, an event per transition, and the final answer. */
  ghost predicate Ends(db: Db, d: Db, c: Command)
    requires c.FinalizeModel?
  {
    && c.task.id in db.tasks && c.task.id in d.tasks
    && var was, t := db.tasks[c.task.id], d.tasks[c.task.id];
    && was.status.TaskExecuting? && SameOrigin(was, t) && SameContent(c.task, t) && IsTerminal(t.status)
    && t.version == was.version + |c.transitions|
    && |EventsOf(d, t.id)| == |EventsOf(db, t.id)| + |c.events| && EventsOf(db, t.id) <= EventsOf(d, t.id)
    && |c.transitions| == |c.events|
    && (forall i | 0 <= i < |c.events| ::
          EventAs(EventsOf(d, t.id)[|EventsOf(db, t.id)| + i], c.events[i], t, |EventsOf(db, t.id)| + 1 + i,
                  c.task.traceId, c.transitions[i].at, c.now))
    && AnswersAs(db, d, c.idem, if c.idem.resourceId == "" then t.id else c.idem.resourceId, 0)
    && d.idempotency[c.idem.key].response == c.idem.response && d.idempotency[c.idem.key].responseCode == c.idem.responseCode
    && d.decisions == db.decisions
  }

  lemma FinalEventsAs(db: Db, c: Command, t: Task)
    requires c.FinalizeModel? && c.task.id in db.tasks && |c.transitions| == |c.events|
    requires var was := db.tasks[c.task.id]; was.id == t.id && was.tenantId == t.tenantId && was.projectId == t.projectId
    ensures forall i | 0 <= i < |c.events| :: EventAs(FinalEvents(db, c)[i], c.events[i], t, NextSequence(db, c.task.id) + i,
                                                        c.task.traceId, c.transitions[i].at, c.now)
  {
    hide EventAs, NextSequence, Stamp;
    var es, was, first := FinalEvents(db, c), db.tasks[c.task.id], NextSequence(db, c.task.id);
    forall i | 0 <= i < |c.events| ensures EventAs(es[i], c.events[i], t, first + i, c.task.traceId, c.transitions[i].at, c.now) {
      StampAs(c.events[i], c.events[i], was, t, c.task.traceId, first + i, c.transitions[i].at, c.now);
    }
  }

  lemma FinalizeMeans(db: Db, c: Command)
    requires Inv(db) && c.FinalizeModel? && Admits(db, c)
    ensures Ends(db, Next(db, c), c)
  {
    hide ValidEvent, ValidRecord, Blank, LogAgrees, EvidenceComplete, Chained, AllValid, EventAs, NextSequence, FinalEvents;
    Applies(db, c);
    var d, was := Next(db, c), db.tasks[c.task.id];
    hide Next;
    LogSequences(db, c.task.id);
    ProjectedAs(was, c.task, |c.transitions|);
    FinalEventsAs(db, c, d.tasks[was.id]);
    hide Projected, SameContent, SameOrigin;
    assert db.decisions + [] == db.decisions;
    assert db.idempotency[c.idem.key].key == c.idem.key;
  }

  /** Only the key changes: it is free again, with the failure on record. */
  ghost predicate Reopens(db: Db, d: Db, c: Command)
    requires c.MarkRetryable?
  {
    && d == db.(idempotency := d.idempotency) && c.idem.key in d.idempotency
    && AnswersAs(db, d, c.idem, c.idem.resourceId, 0) && Acquires(d, c.idem)
    && d.idempotency[c.idem.key].response == c.idem.response
    && (forall k | k != c.idem.key && k in db.idempotency :: k in d.idempotency && d.idempotency[k] == db.idempotency[k])
  }

  lemma RetryableMeans(db: Db, c: Command)
    requires Inv(db) && c.MarkRetryable? && Admits(db, c)
    ensures Reopens(db, Next(db, c), c)
  {
    hide ValidRecord, LogAgrees;
    assert db.outbox + [] == db.outbox && db.decisions + [] == db.decisions;
    assert db.idempotency[c.idem.key].key == c.idem.key;
  }

  // ---- Optimistic concurrency ----------------------------------------------

  /** Unchanged, or a later version. */
  ghost predicate MovedOn(db: Db, d: Db, id: string) {
    && id in db.tasks && id in d.tasks
    && d.tasks[id].version >= db.tasks[id].version
    && (d.tasks[id].version == db.tasks[id].version ==> d.tasks[id] == db.tasks[id] && EventsOf(d, id) == EventsOf(db, id))
  }

  lemma EditMovesOn(db: Db, c: Command)
    requires Inv(db) && Admits(db, c) && EditOf(db, c).task.Some?
    ensures !c.MarkRetryable? && EditOf(db, c).task.value.id == c.task.id
    ensures c.task.id in db.tasks ==> EditOf(db, c).task.value.version > db.tasks[c.task.id].version == c.task.version
  {
    hide ValidEvent, ValidRecord, EvidenceComplete, AllFit, PrepareAll, LogAgrees, MaxSequence, FinalEvents, Stamp, ChainStep, Acquires,
         ReservedRow, CompletedRow, CreatorMatches;
    assert c.task.id in db.tasks ==> db.tasks[c.task.id].id == c.task.id;
  }

  lemma StepMovesOn(db: Db, c: Command, id: string)
    requires Inv(db) && id in db.tasks
    ensures MovedOn(db, Next(db, c), id)
  {
    hide Admits, EditOf, Inv;
    if Admits(db, c) && EditOf(db, c).task.Some? { EditMovesOn(db, c); }
  }

  /** Over every run a version tells the row: as long as it is the same, so are the task and its log. */
  lemma {:induction false} VersionTells(db: Db, cs: seq<Command>, id: string)
    requires Inv(db) && id in db.tasks
    ensures MovedOn(db, RunAll(db, cs), id)
    decreases |cs|
  {
    if cs != [] {
      hide Next, Inv;
      StepMovesOn(db, cs[0], id);
      NextKeepsInv(db, cs[0]);
      VersionTells(Next(db, cs[0]), cs[1..], id);
    }
  }

  /** The command was built on this version of an existing task. */
  predicate BuiltOn(c: Command, id: string, version: int) {
    !c.CreateTask? && !c.MarkRetryable? && c.task.id == id && c.task.version == version
  }

  lemma AdmittedIsCurrent(db: Db, c: Command, id: string, version: int)
    requires BuiltOn(c, id, version) && Admits(db, c)
    ensures id in db.tasks && db.tasks[id].version == version
  {
    hide ValidEvent, ValidRecord, EvidenceComplete, AllFit, MaxSequence, FinalEvents, Stamp, ChainStep, Acquires;
  }

  /** Of the commands built on one version of a task, once one has written it no other is ever admitted. */
  lemma OneWriterPerVersion(db: Db, first: Command, cs: seq<Command>, second: Command, id: string, version: int)
    requires Inv(db) && Admits(db, first) && EditOf(db, first).task.Some?
    requires BuiltOn(first, id, version) && BuiltOn(second, id, version)
    ensures !Admits(RunAll(Next(db, first), cs), second)
  {
    AdmittedIsCurrent(db, first, id, version);
    EditMovesOn(db, first);
    NextKeepsInv(db, first);
    WritesItsTask(db, first);
    VersionTells(Next(db, first), cs, id);
    hide Admits, EditOf, Next, RunAll, Inv;
    if Admits(RunAll(Next(db, first), cs), second) {
      AdmittedIsCurrent(RunAll(Next(db, first), cs), second, id, version);
      assert false;
    }
  }

  lemma WritesItsTask(db: Db, c: Command)
    requires Admits(db, c) && EditOf(db, c).task.Some?
    ensures EditOf(db, c).task.value.id in Next(db, c).tasks
    ensures Next(db, c).tasks[EditOf(db, c).task.value.id] == EditOf(db, c).task.value
  {
    hide Admits, EditOf;
  }

  // ---- Isolation of projects -----------------------------------------------

  /** The project's tasks, logs and idempotency records are the same. */
  ghost predicate ProjectKept(db: Db, d: Db, tenantId: string, projectId: string) {
    && (forall id | id in db.tasks && db.tasks[id].tenantId == tenantId && db.tasks[id].projectId == projectId ::
          id in d.tasks && d.tasks[id] == db.tasks[id] && EventsOf(d, id) == EventsOf(db, id))
    && (forall k | k in db.idempotency && k.tenantId == tenantId && k.projectId == projectId ::
          k in d.idempotency && d.idempotency[k] == db.idempotency[k])
  }

  lemma EditStaysInProject(db: Db, c: Command)
    requires Inv(db) && Admits(db, c)
    ensures EditOf(db, c).idem.key == c.idem.key && InScope(c.idem.key, c.p)
    ensures EditOf(db, c).task.Some? && EditOf(db, c).task.value.id in db.tasks ==>
              var t := db.tasks[EditOf(db, c).task.value.id]; t.tenantId == c.p.tenantId && t.projectId == c.p.projectId
  {
    hide ValidEvent, ValidRecord, EvidenceComplete, AllFit, PrepareAll, LogAgrees, MaxSequence, FinalEvents, Stamp, ChainStep, Acquires,
         CreatorMatches;
    OwnRecordOnly(db, c);
    assert !c.MarkRetryable? && c.task.id in db.tasks ==> db.tasks[c.task.id].id == c.task.id;
  }

  lemma StepKeepsProject(db: Db, c: Command, tenantId: string, projectId: string)
    requires Inv(db) && !(c.p.tenantId == tenantId && c.p.projectId == projectId)
    ensures ProjectKept(db, Next(db, c), tenantId, projectId)
  {
    hide Admits, EditOf, Inv;
    if Admits(db, c) { EditStaysInProject(db, c); }
  }

  lemma KeptScope(a: Db, b: Db, c: Db, tenantId: string, projectId: string)
    requires ProjectKept(a, b, tenantId, projectId) && ProjectKept(b, c, tenantId, projectId)
    ensures ProjectKept(a, c, tenantId, projectId)
  {
  }

  /** Whatever other projects' principals run, a project's tasks, logs and records stay as they are. */
  lemma {:induction false} ProjectsAreIsolated(db: Db, cs: seq<Command>, tenantId: string, projectId: string)
    requires Inv(db) && forall i | 0 <= i < |cs| :: !(cs[i].p.tenantId == tenantId && cs[i].p.projectId == projectId)
    ensures ProjectKept(db, RunAll(db, cs), tenantId, projectId)
    decreases |cs|
  {
    if cs != [] {
      hide Next, Inv, ProjectKept;
      StepKeepsProject(db, cs[0], tenantId, projectId);
      NextKeepsInv(db, cs[0]);
      ProjectsAreIsolated(Next(db, cs[0]), cs[1..], tenantId, projectId);
      KeptScope(db, Next(db, cs[0]), RunAll(db, cs), tenantId, projectId);
    }
  }

  // ---- When a command is admitted ------------------------------------------

  /** The caller may use this key for this request. */
  predicate Entitled(rec: IdempotencyRecord, p: Principal) {
    ValidRecord(rec) && Authorized(p) && rec.key.tenantId == p.tenantId && rec.key.projectId == p.projectId
  }

  /** Who may command, and when the key is free: spelled out. */
  lemma EntitledIff(db: Db, rec: IdempotencyRecord, p: Principal)
    ensures Entitled(rec, p) <==>
              && p.tenantId != "" && p.projectId != "" && (p.system ==> p.taskSystemAccess)
              && rec.key.tenantId == p.tenantId && rec.key.projectId == p.projectId
              && !Blank(rec.key.tenantId) && !Blank(rec.key.projectId) && !Blank(rec.key.operation) && !Blank(rec.key.key)
              && !Blank(rec.requestDigest) && rec.createdAt != 0 && rec.expiresAt != 0 && rec.createdAt < rec.expiresAt
              && !rec.status.OtherIdempotency? && !rec.response.MalformedResponse?
    ensures Acquires(db, rec) <==>
              || rec.key !in db.idempotency
              || (db.idempotency[rec.key].requestDigest == rec.requestDigest && db.idempotency[rec.key].status.FailedRetryable?)
  {
    hide Blank;
  }

  /** The task is the caller's, and the command was built on its current version. */
  predicate UpToDate(db: Db, p: Principal, task: Task) {
    && task.id in db.tasks
    && var t := db.tasks[task.id];
    && t.tenantId == task.tenantId == p.tenantId && t.projectId == task.projectId == p.projectId
    && t.createdBy == task.createdBy && t.version == task.version
  }

  /** The event says what happened, by whom and when; what it leaves out has a default. */
  predicate EventComplete(e: TaskEvent, id: string, tenantId: string, projectId: string, traceId: string, occurredAt: Time, now: Time) {
    && !Blank(e.eventId) && !Blank(e.actorType) && !Blank(e.actorSubject) && e.payload.Value?
    && !Blank(id) && !Blank(tenantId) && !Blank(projectId) && !Blank(traceId)
    && (e.eventType.OtherEvent? ==> !Blank(e.eventType.name))
    && e.schemaVersion >= 0 && (e.occurredAt != 0 || occurredAt != 0) && (e.createdAt != 0 || now != 0)
  }

  lemma StampValidIff(e: TaskEvent, current: Task, traceId: string, sequence: int, occurredAt: Time, now: Time)
    requires sequence >= 1
    ensures ValidEvent(Stamp(e, current, traceId, sequence, occurredAt, now)) <==>
              !e.eventType.NoEventType? && EventComplete(e, current.id, current.tenantId, current.projectId, traceId, occurredAt, now)
  {
    hide Blank;
  }

  predicate OfType(e: TaskEvent, t: EventType) {
    e.eventType == t || e.eventType.NoEventType?
  }

  lemma TypedValidIff(e: TaskEvent, default: EventType, current: Task, traceId: string, sequence: int, occurredAt: Time, now: Time)
    requires sequence >= 1 && !default.NoEventType? && !default.OtherEvent?
    ensures var stamped := Stamp(Typed(e, default), current, traceId, sequence, occurredAt, now);
            stamped.eventType == default && ValidEvent(stamped) <==>
              OfType(e, default) && EventComplete(e, current.id, current.tenantId, current.projectId, traceId, occurredAt, now)
  {
    StampValidIff(Typed(e, default), current, traceId, sequence, occurredAt, now);
    hide Blank, ValidEvent;
  }

  ghost predicate AllEnter(messages: seq<OutboxMessage>, task: Task, now: Time) {
    forall i | 0 <= i < |messages| :: Enters(messages[i], task, now)
  }

  /** A creation is admitted exactly for a complete new task of the caller's, under a free key. */
  lemma CreateAdmittedIff(db: Db, c: Command)
    requires Inv(db) && c.CreateTask?
    ensures Admits(db, c) <==>
              && Entitled(c.idem, c.p) && c.idem.status.Completed? && Acquires(db, c.idem)
              && c.task.id !in db.tasks && c.task.status.TaskCreated? && c.task.version == 1 && c.task.completedAt.None?
              && (c.task.tenantId == "" || c.task.tenantId == c.p.tenantId)
              && (c.task.projectId == "" || c.task.projectId == c.p.projectId)
              && (c.task.createdBy == "" || c.task.createdBy == c.p.subjectId) && c.p.subjectId != ""
              && !Blank(c.task.id) && !Blank(c.task.input) && !Blank(c.task.traceId) && c.task.createdAt != 0 && c.task.updatedAt != 0
              && OfType(c.event, TaskCreatedEvent)
              && EventComplete(c.event, c.task.id, c.p.tenantId, c.p.projectId, c.task.traceId, c.task.createdAt, c.now)
              && AllEnter(c.outbox, OwnedTask(c.task, c.p), c.now)
  {
    hide Blank, ValidEvent, ValidRecord, Stamp, Enters, AllFit, Inv, Acquires, EventComplete, Typed, OfType;
    var t := OwnedTask(c.task, c.p);
    TypedValidIff(c.event, TaskCreatedEvent, t, t.traceId, 1, t.createdAt, c.now);
    AllEnterIff(c.outbox, t, c.now, db.outbox);
  }

  /** A transition is admitted exactly when it is evidenced, current and carries its canonical event. */
  lemma TransitionAdmittedIff(db: Db, c: Command)
    requires Inv(db) && c.CommitTransition?
    ensures Admits(db, c) <==>
              && Entitled(c.idem, c.p) && !c.idem.status.InProgress? && Acquires(db, c.idem) && UpToDate(db, c.p, c.task)
              && c.transition.from == db.tasks[c.task.id].status && c.transition.to == c.task.status
              && !Blank(c.transition.actor) && !Blank(c.transition.cause) && c.transition.at != 0
              && StatusOf(c.event.eventType) == Some(c.task.status)
              && EventComplete(c.event, c.task.id, c.p.tenantId, c.p.projectId, c.task.traceId, c.transition.at, c.now)
              && AllEnter(c.outbox, db.tasks[c.task.id], c.now)
  {
    hide Blank, ValidEvent, ValidRecord, Stamp, Enters, AllFit, Inv, Acquires, NextSequence, EventComplete, Authorized;
    if c.task.id in db.tasks {
      LogSequences(db, c.task.id);
      var t := db.tasks[c.task.id];
      StampValidIff(c.event, t, c.task.traceId, NextSequence(db, c.task.id), c.transition.at, c.now);
      AllEnterIff(c.outbox, t, c.now, db.outbox);
    }
  }

  /** A route is admitted exactly for a PLANNING task with a named decision about it. */
  lemma RouteAdmittedIff(db: Db, c: Command)
    requires Inv(db) && c.CommitRoute?
    ensures Admits(db, c) <==>
              && Entitled(c.idem, c.p) && c.idem.status.Completed? && Acquires(db, c.idem) && UpToDate(db, c.p, c.task)
              && db.tasks[c.task.id].status.TaskPlanning? && c.transition.from.TaskPlanning?
              && c.transition.to.TaskRouting? && c.task.status.TaskRouting?
              && !Blank(c.transition.actor) && !Blank(c.transition.cause) && c.transition.at != 0
              && !Blank(c.decision.id) && (c.decision.taskId == "" || c.decision.taskId == c.task.id)
              && OfType(c.event, TaskRoutingStarted)
              && EventComplete(c.event, c.task.id, c.p.tenantId, c.p.projectId, c.task.traceId, c.transition.at, c.now)
              && AllEnter(c.outbox, db.tasks[c.task.id], c.now)
  {
    hide Blank, ValidEvent, ValidRecord, Stamp, Enters, AllFit, Inv, Acquires, NextSequence, EventComplete, Typed, OfType, Authorized;
    if c.task.id in db.tasks {
      LogSequences(db, c.task.id);
      var t := db.tasks[c.task.id];
      TypedValidIff(c.event, TaskRoutingStarted, t, c.task.traceId, NextSequence(db, c.task.id), c.transition.at, c.now);
      AllEnterIff(c.outbox, t, c.now, db.outbox);
    }
  }

  lemma TaskIdNeeded(e: TaskEvent, t: Task, occurredAt: Time, now: Time)
    ensures EventComplete(e, t.id, t.tenantId, t.projectId, t.traceId, occurredAt, now) ==> !Blank(t.id)
  {
  }

  /** A selection is admitted exactly for a ROUTING task with a dated decision about it and a complete target. */
  lemma SelectionAdmittedIff(db: Db, c: Command)
    requires Inv(db) && c.SelectRoute?
    ensures Admits(db, c) <==>
              && Entitled(c.idem, c.p) && c.idem.status.Completed? && Acquires(db, c.idem) && UpToDate(db, c.p, c.task)
              && db.tasks[c.task.id].status.TaskRouting? && c.task.status.TaskRouting?
              && !Blank(c.selection.decision.id) && c.selection.decision.taskId == c.task.id && c.selection.decision.createdAt != 0
              && c.selection.target.id != "" && c.selection.target.digest != ""
              && OfType(c.event, TaskRouteSelected)
              && EventComplete(c.event, c.task.id, c.p.tenantId, c.p.projectId, db.tasks[c.task.id].traceId,
                               c.selection.decision.createdAt, c.now)
  {
    hide ValidEvent, ValidRecord, Stamp, Inv, Acquires, NextSequence, EventComplete, Typed, OfType, Authorized;
    if c.task.id in db.tasks {
      LogSequences(db, c.task.id);
      var t := db.tasks[c.task.id];
      TypedValidIff(c.event, TaskRouteSelected, t, t.traceId, NextSequence(db, c.task.id), c.selection.decision.createdAt, c.now);
      TaskIdNeeded(c.event, t, c.selection.decision.createdAt, c.now);
    }
  }

  /** A model call begins exactly for a ROUTING task with the start evidenced, or an EXECUTING one without. */
  lemma BeginAdmittedIff(db: Db, c: Command)
    requires Inv(db) && c.BeginModel?
    ensures Admits(db, c) <==>
              && Entitled(c.idem, c.p) && c.idem.status.InProgress? && Acquires(db, c.idem) && UpToDate(db, c.p, c.task)
              && if c.start.Some? || c.startEvent.Some? then
                   && c.start.Some? && c.startEvent.Some? && db.tasks[c.task.id].status.TaskRouting?
                   && c.start.value.from.TaskRouting? && c.start.value.to.TaskExecuting? && c.task.status.TaskExecuting?
                   && !Blank(c.start.value.actor) && !Blank(c.start.value.cause) && c.start.value.at != 0
                   && c.startEvent.value.eventType.TaskExecutionStarted?
                   && EventComplete(c.startEvent.value, c.task.id, c.p.tenantId, c.p.projectId, c.task.traceId, c.start.value.at, c.now)
                 else db.tasks[c.task.id].status.TaskExecuting?
  {
    hide Blank, ValidEvent, ValidRecord, Stamp, Inv, Acquires, NextSequence, EventComplete, Authorized;
    if c.task.id in db.tasks {
      LogSequences(db, c.task.id);
      if c.start.Some? && c.startEvent.Some? {
        StampValidIff(c.startEvent.value, db.tasks[c.task.id], c.task.traceId, NextSequence(db, c.task.id), c.start.value.at, c.now);
      }
    }
  }

  /** What an admitted command leaves behind. */
  ghost predicate Leaves(db: Db, d: Db, c: Command) {
    && match c {
         case CreateTask(_, _, _, _, _, _) => Creates(db, d, c)
         case CommitTransition(_, _, _, _, _, _, _) => Moves(db, d, c)
         case CommitRoute(_, _, _, _, _, _, _, _) => Routes(db, d, c)
         case SelectRoute(_, _, _, _, _, _) => Selects(db, d, c)
         case BeginModel(_, _, _, _, _, _) => Begins(db, d, c)
         case FinalizeModel(_, _, _, _, _, _) => Ends(db, d, c)
         case MarkRetryable(_, _) => Reopens(db, d, c)
       }
    && (!c.MarkRetryable? ==> OthersKept(db, d, c.task.id, c.idem.key))
    && (MessagesOf(c) == [] ==> d.outbox == db.outbox)
    && (MessagesOf(c) != [] ==> c.task.id in d.tasks && AllStored(MessagesOf(c), db.outbox, d.outbox, d.tasks[c.task.id], c.now))
  }

  /** Every admitted command leaves the task, its log, the answer, the decision and the messages it brought. */
  lemma CommandMeans(db: Db, c: Command)
    requires Inv(db) && Admits(db, c)
    ensures Leaves(db, Next(db, c), c)
  {
    hide Admits, Next, Inv, Creates, Moves, Routes, Selects, Begins, Ends, Reopens, OthersKept, AllStored;
    MessagesStored(db, c);
    match c
    case CreateTask(_, _, _, _, _, _) => CreateMeans(db, c); TouchesItsOwn(db, c);
    case CommitTransition(_, _, _, _, _, _, _) => TransitionMeans(db, c); TouchesItsOwn(db, c);
    case CommitRoute(_, _, _, _, _, _, _, _) => RouteMeans(db, c); TouchesItsOwn(db, c);
    case SelectRoute(_, _, _, _, _, _) => SelectionMeans(db, c); TouchesItsOwn(db, c);
    case BeginModel(_, _, _, _, _, _) => BeginMeans(db, c); TouchesItsOwn(db, c);
    case FinalizeModel(_, _, _, _, _, _) => FinalizeMeans(db, c); TouchesItsOwn(db, c);
    case MarkRetryable(_, _) => RetryableMeans(db, c);
  }
}
