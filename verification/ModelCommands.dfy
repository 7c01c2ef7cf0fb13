/** ExecuteModelIdempotent: the client side of begin, provider call and finalize. */
module ModelCommands {
  import opened Common
  import opened Tasks
  import opened TaskKernel
  import opened TaskProofs
  import opened KernelMeaning
  import opened TaskCommandStore
  import opened ModelFlight

  /** What the cost ledger has for the task after the call. */
  datatype LedgerTotal = LedgerTotal(amount: real, currency: string)

  datatype ProviderOutcome =
    | Success(text: string, total: Option<LedgerTotal>)
    | RetryableFailure(message: string)
    | FinalFailure(message: string)

  datatype ModelResult =
    | Rejected                                // no provider call was made
    | Stored(record: IdempotencyRecord)       // the stored response of an earlier call
    | Ran(outcome: ProviderOutcome)           // one provider call, and its outcome is on record
    | Unrecorded(outcome: ProviderOutcome)    // one provider call, but the final transaction was refused

  /** What the client cannot decide: other clients' commands, the provider, times and generated ids. */
  datatype Surroundings = Surroundings(
    beforeRead: seq<Command>,
    beforeBegin: seq<Command>,
    duringCall: seq<Command>,
    outcome: ProviderOutcome,
    actor: string, actorType: string, eventIds: nat -> string,
    begunAt: Time, validatedAt: Time, endedAt: Time)

  const DAY := 86_400_000_000_000

  function ModelKey(p: Principal, taskId: string, key: string): IdempotencyKey {
    IdempotencyKey(p.tenantId, p.projectId, ModelOperation(taskId), Trim(key))
  }

  /** Other clients never finalize or release a call that is not theirs. */
  ghost predicate Foreign(cs: seq<Command>, k: IdempotencyKey) {
    forall i | 0 <= i < |cs| && (cs[i].FinalizeModel? || cs[i].MarkRetryable?) :: cs[i].idem.key != k
  }

  lemma StepKeepsHold(db: Db, c: Command, rec: IdempotencyRecord)
    requires Inv(db) && HoldsKey(db, rec)
    requires c.FinalizeModel? || c.MarkRetryable? ==> c.idem.key != rec.key
    ensures HoldsKey(Next(db, c), rec)
  {
    hide Admits, EditOf, Inv;
    if Admits(db, c) {
      hide Next;
      EditedRecord(db, c);
    }
  }

  /** While a call is outstanding its key stays held, whatever the others do. */
  lemma {:induction false} HoldSurvives(db: Db, cs: seq<Command>, rec: IdempotencyRecord)
    requires Inv(db) && HoldsKey(db, rec) && Foreign(cs, rec.key)
    ensures HoldsKey(RunAll(db, cs), rec)
    decreases |cs|
  {
    if cs != [] {
      hide Next, Inv, HoldsKey;
      StepKeepsHold(db, cs[0], rec);
      NextKeepsInv(db, cs[0]);
      HoldSurvives(Next(db, cs[0]), cs[1..], rec);
    }
  }

  /** The stored answer of the key. */
  ghost predicate Replies(db: Db, k: IdempotencyKey, taskId: string, status: IdempotencyStatus, code: int, text: string) {
    && k in db.idempotency
    && var row := db.idempotency[k];
    && row.status == status && row.responseCode == code && row.resourceId == taskId
    && row.response.OtherResponse? && row.response.text == text
  }

  /** The task ended that way, with that result. */
  ghost predicate Ended(db: Db, taskId: string, status: TaskStatus, result: string, at: Time) {
    taskId in db.tasks && db.tasks[taskId].status == status && db.tasks[taskId].result == result && db.tasks[taskId].completedAt == Some(at)
  }

  /** The task carries the ledger's total, if there is one, and its earlier costs otherwise. */
  ghost predicate Costed(was: Task, t: Task, total: Option<LedgerTotal>) {
    && t.estimatedCost == was.estimatedCost
    && match total {
         case Some(sum) =>
           t.cost == sum.amount && t.actualCost == sum.amount && t.currency == (if sum.currency == "" then was.currency else sum.currency)
         case None => t.cost == was.cost && t.actualCost == was.actualCost && t.currency == was.currency
       }
  }

  /** What the database says when the client returns. */
  ghost predicate Settled(db: Db, k: IdempotencyKey, digest: string, taskId: string, w: Surroundings, r: ModelResult) {
    match r
    case Rejected => true
    case Stored(record) =>
      && k in db.idempotency && db.idempotency[k] == record && record.requestDigest == digest
      && FinalStatus(record.status) && !record.response.NoResponse?
    case Ran(Success(text, _)) => Replies(db, k, taskId, Completed, 200, text) && Ended(db, taskId, TaskCompleted, text, w.endedAt)
    case Ran(RetryableFailure(message)) => Replies(db, k, taskId, FailedRetryable, 503, message)
    case Ran(FinalFailure(message)) => Replies(db, k, taskId, FailedFinal, 500, message) && Ended(db, taskId, TaskFailed, message, w.endedAt)
    case Unrecorded(outcome) => InFlight(db, k) && !outcome.RetryableFailure?
  }

  /** Every later lookup of the key finds the record that is there now. */
  ghost predicate FoundForGood(db: Db, p: Principal, k: IdempotencyKey, digest: string) {
    && k in db.idempotency
    && forall cs :: Resolve(RunAll(db, cs), p, k, digest) == Ok(Some(db.idempotency[k]))
  }

  /** The key is in progress when the call is made and stays so through whatever others do until it returns. */
  ghost predicate HeldThroughout(atCall: Db, k: IdempotencyKey, others: seq<Command>) {
    forall n | 0 <= n <= |others| :: InFlight(RunAll(atCall, others[..n]), k)
  }

  /** The call was authorised by an admitted BeginModelExecution under the key. */
  ghost predicate AuthorisedBy(before: Db, atCall: Db, k: IdempotencyKey) {
    exists c: Command :: c.BeginModel? && c.idem.key == k && Admits(before, c) && atCall == Next(before, c)
  }

  /** At most one command of the client's own, on its own task and key. */
  ghost predicate OneCommand(a: Db, b: Db, taskId: string, k: IdempotencyKey) {
    b == a || exists c: Command :: Closes(c, taskId, k) && b == Next(a, c)
  }

  predicate Closes(c: Command, taskId: string, k: IdempotencyKey) {
    c.idem.key == k && ((c.FinalizeModel? && c.task.id == taskId) || c.MarkRetryable?)
  }

  /** Where the call stands in the store's own history: others, begin, the call among others, one closing command. */
  ghost predicate CalledIn(start: Db, w: Surroundings, atCall: Db, end: Db, taskId: string, k: IdempotencyKey) {
    && Inv(atCall) && HeldThroughout(atCall, k, w.duringCall)
    && AuthorisedBy(RunAll(RunAll(start, w.beforeRead), w.beforeBegin), atCall, k)
    && OneCommand(RunAll(atCall, w.duringCall), end, taskId, k)
  }

  // ---- When the provider is called, and when the outcome can be recorded ----

  ghost predicate HasDecision(db: Db, id: string) {
    exists i | 0 <= i < |db.decisions| :: db.decisions[i].id == id
  }

  /** The task may be executed: it is EXECUTING, or ROUTING with everything that its start event needs. */
  predicate Startable(t: Task, w: Surroundings) {
    || t.status.TaskExecuting?
    || (&& t.status.TaskRouting? && !Blank(w.actor) && !Blank(w.actorType) && !Blank(w.eventIds(0))
        && !Blank(t.id) && !Blank(t.traceId))
  }

  /**
   The provider gets called: nothing is stored or in progress under the key, the caller's routed task is
   startable and nobody changes it before the call begins, and the key is still free by then.
   */
  ghost predicate CanCall(start: Db, p: Principal, taskId: string, key: string, digest: string, w: Surroundings) {
    var k, read := ModelKey(p, taskId, key), RunAll(start, w.beforeRead);
    var begin := RunAll(read, w.beforeBegin);
    && !Blank(key) && !Blank(digest) && Resolve(start, p, k, Trim(digest)) == Ok(None)
    && !Blank(p.tenantId) && !Blank(p.projectId) && w.begunAt != 0 && w.begunAt + 86_400_000_000_000 != 0
    && taskId in read.tasks && read.tasks[taskId].tenantId == p.tenantId && read.tasks[taskId].projectId == p.projectId
    && read.tasks[taskId].routeDecisionId != "" && HasDecision(read, read.tasks[taskId].routeDecisionId)
    && Startable(read.tasks[taskId], w)
    && taskId in begin.tasks && begin.tasks[taskId].version == read.tasks[taskId].version
    && (k in begin.idempotency ==> begin.idempotency[k].requestDigest == Trim(digest) && begin.idempotency[k].status.FailedRetryable?)
  }

  /** What the closing events need. */
  predicate Evidenced(t: Task, w: Surroundings) {
    && !Blank(w.actor) && !Blank(w.actorType) && !Blank(t.id) && !Blank(t.traceId) && w.endedAt != 0 && !Blank(w.eventIds(1))
    && (w.outcome.Success? ==> w.validatedAt != 0 && !Blank(w.eventIds(2)))
  }

  /** The outcome can be recorded: nobody changed the task during the call. A retryable failure always can. */
  ghost predicate Recordable(atCall: Db, atEnd: Db, taskId: string, w: Surroundings) {
    || w.outcome.RetryableFailure?
    || (&& taskId in atCall.tasks && taskId in atEnd.tasks
        && atEnd.tasks[taskId].version == atCall.tasks[taskId].version && Evidenced(atCall.tasks[taskId], w))
  }

  lemma HoldsThroughout(db: Db, rec: IdempotencyRecord, others: seq<Command>)
    requires Inv(db) && HoldsKey(db, rec) && Foreign(others, rec.key)
    ensures HeldThroughout(db, rec.key, others)
  {
    forall n | 0 <= n <= |others| ensures InFlight(RunAll(db, others[..n]), rec.key) {
      HoldSurvives(db, others[..n], rec);
    }
  }

  lemma Begun(db: Db, c: Command)
    requires Inv(db) && c.BeginModel? && Admits(db, c)
    ensures HoldsKey(Next(db, c), c.idem) && c.task.id in Next(db, c).tasks
    ensures var t := Next(db, c).tasks[c.task.id];
            t.id == c.task.id && t.status.TaskExecuting? && t.tenantId == c.p.tenantId && t.projectId == c.p.projectId
    ensures Entitled(c.idem, c.p)
  {
    BeginMeans(db, c);
    BeginAdmittedIff(db, c);
    LogSequences(db, c.task.id);
    hide Admits, Next, Inv, HoldsKey, ValidRecord;
  }

  lemma Released(db: Db, p: Principal, rec: IdempotencyRecord, taskId: string, message: string) returns (c: Command)
    requires Inv(db) && HoldsKey(db, rec) && Entitled(rec, p)
    ensures c == MarkRetryable(p, Answer(rec, FailedRetryable, taskId, 503, message))
    ensures Admits(db, c) && Replies(Next(db, c), rec.key, taskId, FailedRetryable, 503, message)
  {
    c := MarkRetryable(p, Answer(rec, FailedRetryable, taskId, 503, message));
    hide Inv;
    assert Admits(db, c);
    RetryableMeans(db, c);
    hide Next, Admits;
  }

  function Answer(rec: IdempotencyRecord, status: IdempotencyStatus, taskId: string, code: int, text: string): (r: IdempotencyRecord)
    ensures r.key == rec.key && r.status == status
  {
    rec.(status := status, resourceId := taskId, responseCode := code, response := OtherResponse(text, true))
  }

  // causes of the client's transitions
  const EXECUTE_CAUSE := "execute selected model deployment"
  const VALIDATE_CAUSE := "validate model execution result"
  const ACCEPTED_CAUSE := "model execution result accepted"
  const FAILED_CAUSE := "model execution failed"

  lemma CausesAreGiven()
    ensures !Blank(EXECUTE_CAUSE) && !Blank(VALIDATE_CAUSE) && !Blank(ACCEPTED_CAUSE) && !Blank(FAILED_CAUSE)
  {
    assert !IsSpace(EXECUTE_CAUSE[0]) && !IsSpace(VALIDATE_CAUSE[0]) && !IsSpace(ACCEPTED_CAUSE[0]) && !IsSpace(FAILED_CAUSE[0]);
  }

  function ClientEvent(w: Surroundings, i: nat, eventType: EventType, at: Time): TaskEvent {
    TaskEvent(w.eventIds(i), "", "", "", 0, eventType, w.actorType, w.actor, Value(""), "", "", 1, at, at)
  }

  /** The finalization of an executing task that its client read as t. */
  ghost predicate Finalizes(c: Command, t: Task, p: Principal, rec: IdempotencyRecord, w: Surroundings) {
    && c.FinalizeModel? && c.p == p && c.now == w.endedAt && SameOrigin(t, c.task) && c.task.version == t.version
    && c.task.traceId == t.traceId && c.task.estimatedCost == t.estimatedCost
    && c.idem.key == rec.key && c.idem.requestDigest == rec.requestDigest && c.idem.createdAt == rec.createdAt
    && c.idem.expiresAt == rec.expiresAt && c.idem.resourceId == t.id && c.idem.response.OtherResponse?
    && |c.transitions| == |c.events| && (forall i | 0 <= i < |c.transitions| :: EvidenceComplete(c.transitions[i]))
  }

  /** EXECUTING, VALIDATING, COMPLETED. */
  ghost predicate Succeeds(c: Command, w: Surroundings)
    requires c.FinalizeModel? && |c.transitions| == |c.events|
  {
    && |c.transitions| == 2 && c.task.status.TaskCompleted? && c.idem.status.Completed?
    && c.transitions[0].from.TaskExecuting? && c.transitions[0].to.TaskValidating?
    && c.transitions[1].from.TaskValidating? && c.transitions[1].to.TaskCompleted?
    && c.events[0] == ClientEvent(w, 1, TaskValidationStarted, w.validatedAt)
    && c.events[1] == ClientEvent(w, 2, TaskCompletedEvent, w.endedAt)
  }

  /** EXECUTING, FAILED. */
  ghost predicate Fails(c: Command, w: Surroundings)
    requires c.FinalizeModel? && |c.transitions| == |c.events|
  {
    && |c.transitions| == 1 && c.task.status.TaskFailed? && c.idem.status.FailedFinal?
    && c.transitions[0].from.TaskExecuting? && c.transitions[0].to.TaskFailed?
    && c.events[0] == ClientEvent(w, 1, TaskFailedEvent, w.endedAt)
  }

  lemma ClientEventValid(w: Surroundings, i: nat, eventType: EventType, at: Time, current: Task, traceId: string, sequence: int, when: Time)
    requires sequence >= 1 && at != 0 && !eventType.NoEventType? && !eventType.OtherEvent?
    ensures ValidEvent(Stamp(ClientEvent(w, i, eventType, at), current, traceId, sequence, at, when)) <==>
              && !Blank(w.eventIds(i)) && !Blank(w.actorType) && !Blank(w.actor)
              && !Blank(current.id) && !Blank(current.tenantId) && !Blank(current.projectId) && !Blank(traceId)
  {
    StampValidIff(ClientEvent(w, i, eventType, at), current, traceId, sequence, at, when);
    hide Blank, ValidEvent, Stamp;
  }

  /** The task is as the client read it. */
  ghost predicate AsRead(db: Db, t: Task) {
    t.id in db.tasks && db.tasks[t.id].version == t.version
  }

  lemma AnswerIsValid(c: Command, rec: IdempotencyRecord)
    requires c.FinalizeModel? && c.idem.key == rec.key && c.idem.requestDigest == rec.requestDigest
    requires c.idem.createdAt == rec.createdAt && c.idem.expiresAt == rec.expiresAt && c.idem.response.OtherResponse?
    requires FinalStatus(c.idem.status) && ValidRecord(rec)
    ensures ValidRecord(c.idem)
  {
    hide Blank;
  }

  lemma ChainHolds(c: Command, w: Surroundings)
    requires c.FinalizeModel? && |c.transitions| == |c.events| && (Succeeds(c, w) || Fails(c, w))
    requires forall i | 0 <= i < |c.transitions| :: EvidenceComplete(c.transitions[i])
    ensures Chained(TaskExecuting, c.transitions, c.events) && FinalShape(c.task, c.transitions, c.idem.status)
    ensures |c.transitions| > 0 && c.transitions[|c.transitions| - 1].to == c.task.status && FinalStatus(c.idem.status)
  {
    hide EvidenceComplete;
    assert ChainStep(TaskExecuting, c.transitions, c.events, 0);
    if |c.transitions| == 2 { assert ChainStep(TaskExecuting, c.transitions, c.events, 1); }
  }

  /** What the final transaction looks at beyond the shape of the command. */
  lemma FinalizeIff(db: Db, c: Command, t: Task, p: Principal, rec: IdempotencyRecord, w: Surroundings)
    requires Inv(db) && HoldsKey(db, rec) && Entitled(rec, p) && Finalizes(c, t, p, rec, w) && (Succeeds(c, w) || Fails(c, w))
    requires t.tenantId == p.tenantId && t.projectId == p.projectId
    requires AsRead(db, t) ==> db.tasks[t.id] == t && t.status.TaskExecuting?
    ensures Admits(db, c) <==> AsRead(db, t) && AllValid(FinalEvents(db, c))
  {
    ChainHolds(c, w);
    AnswerIsValid(c, rec);
    hide ValidEvent, ValidRecord, Blank, Inv, FinalEvents, EvidenceComplete, Chained, FinalShape, Succeeds, Fails, FinalStatus, AllValid, Authorized;
  }

  lemma SuccessIff(db: Db, c: Command, t: Task, p: Principal, rec: IdempotencyRecord, w: Surroundings)
    requires Inv(db) && HoldsKey(db, rec) && Entitled(rec, p) && Finalizes(c, t, p, rec, w) && Succeeds(c, w)
    requires t.tenantId == p.tenantId && t.projectId == p.projectId && w.outcome.Success?
    requires c.transitions[0].at == w.validatedAt && c.transitions[1].at == w.endedAt && !Blank(w.actor)
    requires AsRead(db, t) ==> db.tasks[t.id] == t && t.status.TaskExecuting?
    ensures Admits(db, c) <==> AsRead(db, t) && Evidenced(t, w)
  {
    FinalizeIff(db, c, t, p, rec, w);
    if AsRead(db, t) {
      LogSequences(db, t.id);
      var es, first := FinalEvents(db, c), NextSequence(db, t.id);
      assert w.validatedAt != 0 && w.endedAt != 0;
      ClientEventValid(w, 1, TaskValidationStarted, w.validatedAt, t, t.traceId, first, c.now);
      ClientEventValid(w, 2, TaskCompletedEvent, w.endedAt, t, t.traceId, first + 1, c.now);
      NeedsScope(rec);
      hide Blank, ValidEvent, Stamp, Inv, Admits, ValidRecord, NextSequence, ClientEvent;
      assert AllValid(es) <==> ValidEvent(es[0]) && ValidEvent(es[1]);
    }
  }

  lemma FailureIff(db: Db, c: Command, t: Task, p: Principal, rec: IdempotencyRecord, w: Surroundings)
    requires Inv(db) && HoldsKey(db, rec) && Entitled(rec, p) && Finalizes(c, t, p, rec, w) && Fails(c, w)
    requires t.tenantId == p.tenantId && t.projectId == p.projectId && !w.outcome.Success?
    requires c.transitions[0].at == w.endedAt && !Blank(w.actor)
    requires AsRead(db, t) ==> db.tasks[t.id] == t && t.status.TaskExecuting?
    ensures Admits(db, c) <==> AsRead(db, t) && Evidenced(t, w)
  {
    FinalizeIff(db, c, t, p, rec, w);
    if AsRead(db, t) {
      LogSequences(db, t.id);
      var es, first := FinalEvents(db, c), NextSequence(db, t.id);
      assert w.endedAt != 0;
      ClientEventValid(w, 1, TaskFailedEvent, w.endedAt, t, t.traceId, first, c.now);
      NeedsScope(rec);
      hide Blank, ValidEvent, Stamp, Inv, Admits, ValidRecord, NextSequence, ClientEvent;
      assert AllValid(es) <==> ValidEvent(es[0]);
    }
  }

  lemma NeedsScope(rec: IdempotencyRecord)
    requires ValidRecord(rec)
    ensures !Blank(rec.key.tenantId) && !Blank(rec.key.projectId)
  {
    hide Blank;
  }

  /** A recorded outcome: the task and the answer, as the command brought them. */
  lemma Finalized(db: Db, c: Command, t: Task, p: Principal, rec: IdempotencyRecord, w: Surroundings)
    requires Inv(db) && Entitled(rec, p) && Finalizes(c, t, p, rec, w) && Admits(db, c)
    ensures var d := Next(db, c);
            && t.id in d.tasks && SameContent(c.task, d.tasks[t.id])
            && Replies(d, rec.key, t.id, c.idem.status, c.idem.responseCode, c.idem.response.text)
            && FoundForGood(d, p, rec.key, rec.requestDigest)
  {
    FinalizeMeans(db, c);
    NextKeepsInv(db, c);
    var d := Next(db, c);
    assert FinalStatus(c.idem.status);
    hide Admits, Next, Inv, SameContent, EventAs;
    IdNotEmpty(db, c);
    RecordFound(d, p, rec);
    forall cs ensures Resolve(RunAll(d, cs), p, rec.key, rec.requestDigest) == Ok(Some(d.idempotency[rec.key])) {
      ResolvedForGood(d, cs, p, rec.key, rec.requestDigest);
    }
  }

  /** An empty resource id would be filled with the task's own, which is what it is here. */
  lemma IdNotEmpty(db: Db, c: Command)
    requires Inv(db) && c.FinalizeModel? && Admits(db, c)
    ensures c.task.id in Next(db, c).tasks && Next(db, c).tasks[c.task.id].id == c.task.id
  {
    NextKeepsInv(db, c);
    FinalizeMeans(db, c);
    hide Admits, Next;
  }

  lemma RecordFound(d: Db, p: Principal, rec: IdempotencyRecord)
    requires Entitled(rec, p) && rec.key in d.idempotency
    requires d.idempotency[rec.key].requestDigest == rec.requestDigest && FinalStatus(d.idempotency[rec.key].status)
    ensures Resolve(d, p, rec.key, rec.requestDigest) == Ok(Some(d.idempotency[rec.key]))
  {
    hide Blank;
  }

  /** The command finalizes the task as COMPLETED with the provider's text and the ledger's total. */
  ghost predicate BringsSuccess(c: Command, task: Task, p: Principal, record: IdempotencyRecord, w: Surroundings) {
    && w.outcome.Success? && c.FinalizeModel? && Finalizes(c, task, p, record, w) && Succeeds(c, w)
    && Closes(c, task.id, record.key) && !Blank(w.actor)
    && c.transitions[0].at == w.validatedAt && c.transitions[1].at == w.endedAt
    && c.task.status.TaskCompleted? && c.idem.status.Completed? && c.task.result == w.outcome.text
    && c.task.completedAt == Some(w.endedAt) && Costed(task, c.task, w.outcome.total)
    && c.idem.responseCode == 200 && c.idem.response.text == w.outcome.text
  }

  /** The command finalizes the task as FAILED with the provider's message. */
  ghost predicate BringsFailure(c: Command, task: Task, p: Principal, record: IdempotencyRecord, w: Surroundings) {
    && w.outcome.FinalFailure? && c.FinalizeModel? && Finalizes(c, task, p, record, w) && Fails(c, w)
    && Closes(c, task.id, record.key) && !Blank(w.actor)
    && c.transitions[0].at == w.endedAt
    && c.task.status.TaskFailed? && c.idem.status.FailedFinal? && c.task.result == w.outcome.message && c.task.completedAt == Some(w.endedAt)
    && c.idem.responseCode == 500 && c.idem.response.text == w.outcome.message
  }

  /** The command commits exactly when the task is as it was read and the evidence complete. */
  lemma CommitsSuccess(db: Db, c: Command, task: Task, p: Principal, record: IdempotencyRecord, w: Surroundings,
                       r: Result<TaskCommandStore.Outcome, CommandError>)
    requires Inv(db) && HoldsKey(db, record) && Entitled(record, p) && BringsSuccess(c, task, p, record, w) && Reports(db, c, r)
    requires task.status.TaskExecuting? && task.tenantId == p.tenantId && task.projectId == p.projectId && MovedFrom(task, db)
    ensures r.Ok? <==> AsRead(db, task) && Evidenced(task, w)
    ensures r.Err? ==> Next(db, c) == db
    ensures r.Ok? ==>
              var d := Next(db, c);
              && Settled(d, record.key, record.requestDigest, task.id, w, Ran(w.outcome)) && OneCommand(db, d, task.id, record.key)
              && task.id in d.tasks && Costed(task, d.tasks[task.id], w.outcome.total) && FoundForGood(d, p, record.key, record.requestDigest)
  {
    hide Inv, Admits, Next, Blank, ValidRecord, Entitled, FoundForGood, HoldsKey, Reports,
         EvidenceComplete, ClientEvent, Finalizes, Succeeds, Fails, Evidenced;
    SuccessIff(db, c, task, p, record, w);
    CommitsIff(db, c, r);
    if r.Ok? { Finalized(db, c, task, p, record, w); }
  }

  lemma CommitsFailure(db: Db, c: Command, task: Task, p: Principal, record: IdempotencyRecord, w: Surroundings,
                       r: Result<TaskCommandStore.Outcome, CommandError>)
    requires Inv(db) && HoldsKey(db, record) && Entitled(record, p) && BringsFailure(c, task, p, record, w) && Reports(db, c, r)
    requires task.status.TaskExecuting? && task.tenantId == p.tenantId && task.projectId == p.projectId && MovedFrom(task, db)
    ensures r.Ok? <==> AsRead(db, task) && Evidenced(task, w)
    ensures r.Err? ==> Next(db, c) == db
    ensures r.Ok? ==>
              var d := Next(db, c);
              && Settled(d, record.key, record.requestDigest, task.id, w, Ran(w.outcome)) && OneCommand(db, d, task.id, record.key)
              && FoundForGood(d, p, record.key, record.requestDigest)
  {
    hide Inv, Admits, Next, Blank, ValidRecord, Entitled, FoundForGood, HoldsKey, Reports,
         EvidenceComplete, ClientEvent, Finalizes, Succeeds, Fails, Evidenced;
    FailureIff(db, c, task, p, record, w);
    CommitsIff(db, c, r);
    if r.Ok? { Finalized(db, c, task, p, record, w); }
  }

  lemma SuccessBuilt(p: Principal, task: Task, record: IdempotencyRecord, w: Surroundings,
                     validating: (Task, Transition), completed: (Task, Transition), c: Command)
    requires w.outcome.Success? && task.status.TaskExecuting?
    requires Move(WithTotal(task.(result := w.outcome.text), w.outcome.total),
                  TransitionCommand(TaskValidating, w.actor, VALIDATE_CAUSE, w.validatedAt)) == Ok(validating)
    requires Move(validating.0, TransitionCommand(TaskCompleted, w.actor, ACCEPTED_CAUSE, w.endedAt)) == Ok(completed)
    requires c == FinalizeModel(p, w.endedAt, completed.0, [validating.1, completed.1],
                                [ClientEvent(w, 1, TaskValidationStarted, w.validatedAt), ClientEvent(w, 2, TaskCompletedEvent, w.endedAt)],
                                Answer(record, Completed, task.id, 200, w.outcome.text))
    ensures BringsSuccess(c, task, p, record, w)
  {
    hide Blank, ClientEvent;
  }

  lemma FailureBuilt(p: Principal, task: Task, record: IdempotencyRecord, w: Surroundings, failed: (Task, Transition), c: Command)
    requires w.outcome.FinalFailure? && task.status.TaskExecuting?
    requires Move(task.(result := w.outcome.message), TransitionCommand(TaskFailed, w.actor, FAILED_CAUSE, w.endedAt)) == Ok(failed)
    requires c == FinalizeModel(p, w.endedAt, failed.0, [failed.1], [ClientEvent(w, 1, TaskFailedEvent, w.endedAt)],
                                Answer(record, FailedFinal, task.id, 500, w.outcome.message))
    ensures BringsFailure(c, task, p, record, w)
  {
    hide Blank, ClientEvent;
  }

  class ModelClient {
    const store: ScopedPostgresTaskCommands
    var calls: nat  // provider calls made

    constructor (s: ScopedPostgresTaskCommands)
      ensures store == s && calls == 0
    {
      store, calls := s, 0;
    }

    /** The task and evidence of BeginModelExecution; a retry of an EXECUTING task brings none. */
    method Prepare(task: Task, w: Surroundings) returns (r: Option<(Task, Option<Transition>)>)
      ensures r.Some? <==> task.status.TaskExecuting? || (task.status.TaskRouting? && !Blank(w.actor) && w.begunAt != 0)
      ensures r.Some? && task.status.TaskExecuting? ==> r.value == (task, None)
      ensures r.Some? && task.status.TaskRouting? ==>
                && SameOrigin(task, r.value.0) && r.value.0.version == task.version && r.value.0.traceId == task.traceId
                && r.value.0.status.TaskExecuting? && r.value.1.Some? && EvidenceComplete(r.value.1.value)
                && r.value.1.value.from.TaskRouting? && r.value.1.value.to.TaskExecuting? && r.value.1.value.at == w.begunAt
    {
      CausesAreGiven();
      hide Blank, EXECUTE_CAUSE;
      if task.status.TaskRouting? {
        var moved := Move(task, TransitionCommand(TaskExecuting, w.actor, EXECUTE_CAUSE, w.begunAt));
        if moved.Err? { return None; }
        return Some((moved.value.0, Some(moved.value.1)));
      }
      if !task.status.TaskExecuting? { return None; }
      return Some((task, None));
    }

    /** The route decision the task names. */
    method ReadDecision(id: string) returns (found: bool)
      ensures found <==> HasDecision(store.Snapshot(), id)
    {
      for i := 0 to |store.decisions|
        invariant forall k | 0 <= k < i :: store.decisions[k].id != id
      {
        if store.decisions[i].id == id { return true; }
      }
      return false;
    }

    /**
     The provider is called exactly when the key is free and the task can be executed, at most once per
     invocation and only while this client holds the key. The outcome of the call is on record unless
     somebody changed the task meanwhile, and every later lookup of the key returns it; if it could not be
     recorded the key stays in progress. atCall is the database as it stood when the provider was called.
     */
    method ExecuteModelIdempotent(p: Principal, taskId: string, key: string, digest: string, w: Surroundings)
      returns (r: ModelResult, ghost atCall: Db)
      requires store.Valid() && Foreign(w.duringCall, ModelKey(p, taskId, key))
      modifies this, store
      ensures store.Valid()
      ensures calls == old(calls) + Bit(r.Ran? || r.Unrecorded?)
      ensures r.Ran? || r.Unrecorded? <==> CanCall(old(store.Snapshot()), p, taskId, key, digest, w)
      ensures r.Ran? || r.Unrecorded? ==>
                && CalledIn(old(store.Snapshot()), w, atCall, store.Snapshot(), taskId, ModelKey(p, taskId, key))
                && (r == Ran(w.outcome) <==> Recordable(atCall, RunAll(atCall, w.duringCall), taskId, w))
                && (r == Unrecorded(w.outcome) <==> !Recordable(atCall, RunAll(atCall, w.duringCall), taskId, w))
      ensures Settled(store.Snapshot(), ModelKey(p, taskId, key), Trim(digest), taskId, w, r)
      ensures r.Ran? && r.outcome.Success? ==>
                taskId in atCall.tasks && taskId in store.tasks && Costed(atCall.tasks[taskId], store.tasks[taskId], r.outcome.total)
      ensures r.Ran? && !r.outcome.RetryableFailure? ==> FoundForGood(store.Snapshot(), p, ModelKey(p, taskId, key), Trim(digest))
      // a finished call is answered from its record
      ensures !Blank(key) && !Blank(digest) ==>
                match Resolve(old(store.Snapshot()), p, ModelKey(p, taskId, key), Trim(digest)) {
                  case Ok(Some(record)) => r == (if record.response.NoResponse? then Rejected else Stored(record))
                  case Ok(None) => true
                  case Err(_) => r == Rejected
                }
    {
      hide Inv, RunAll, ModelKey, Foreign, HeldThroughout, AuthorisedBy, OneCommand, Blank, Trim, Settled, Recordable, Startable,
           HasDecision, FoundForGood, Costed;
      ghost var start := store.Snapshot();
      atCall := start;
      var k := ModelKey(p, taskId, key);
      SettledTrivially(start, k, Trim(digest), taskId, w);
      if Blank(key) || Blank(digest) { return Rejected, atCall; }
      if !HasProject(p) { return Rejected, atCall; }
      var found := store.ResolveIdempotency(p, k, Trim(digest));
      if found.Err? { return Rejected, atCall; }
      if found.value.Some? {
        if found.value.value.response.NoResponse? { return Rejected, atCall; }
        FoundSettled(start, p, k, Trim(digest), taskId, w);
        return Stored(found.value.value), atCall;
      }

      store.Interleave(w.beforeRead);
      ghost var seen := store.Snapshot();
      InvIds(seen, taskId, k);
      SettledTrivially(seen, k, Trim(digest), taskId, w);
      var read := store.LockTask(p, taskId);
      if read.None? || read.value.routeDecisionId == "" { return Rejected, atCall; }
      var decided := ReadDecision(read.value.routeDecisionId);
      if !decided { return Rejected, atCall; }
      var prepared := Prepare(read.value, w);
      if prepared.None? {
        NotStartable(read.value, w);
        return Rejected, atCall;
      }
      store.Interleave(w.beforeBegin);
      VersionTells(seen, w.beforeBegin, taskId);
      r, atCall := BeginAndCall(p, read.value, prepared.value.0, prepared.value.1,
                        IdempotencyRecord(k, Trim(digest), InProgress, "", 0, "", NoResponse, w.begunAt, w.begunAt + DAY), w);
    }

    method BeginAndCall(p: Principal, ghost read: Task, task: Task, start: Option<Transition>, record: IdempotencyRecord, w: Surroundings)
      returns (r: ModelResult, ghost atCall: Db)
      requires store.Valid() && Foreign(w.duringCall, record.key)
      requires SameOrigin(read, task) && task.version == read.version && task.traceId == read.traceId && task.status.TaskExecuting?
      requires start.None? <==> read.status.TaskExecuting?
      requires start.Some? ==>
                 && read.status.TaskRouting? && start.value.from.TaskRouting? && start.value.to.TaskExecuting?
                 && EvidenceComplete(start.value) && start.value.at == w.begunAt
      requires MovedFrom(read, store.Snapshot())
      requires record == IdempotencyRecord(record.key, record.requestDigest, InProgress, "", 0, "", NoResponse, w.begunAt, w.begunAt + DAY)
      modifies this, store
      ensures store.Valid()
      ensures calls == old(calls) + Bit(r.Ran? || r.Unrecorded?)
      ensures r.Ran? || r.Unrecorded? <==>
                && Entitled(record, p) && Acquires(old(store.Snapshot()), record) && AsRead(old(store.Snapshot()), read)
                && read.tenantId == p.tenantId && read.projectId == p.projectId && Startable(read, w)
      ensures r.Ran? || r.Unrecorded? ==>
                && Inv(atCall) && HeldThroughout(atCall, record.key, w.duringCall)
                && AuthorisedBy(old(store.Snapshot()), atCall, record.key)
                && OneCommand(RunAll(atCall, w.duringCall), store.Snapshot(), task.id, record.key)
                && (r == Ran(w.outcome) <==> Recordable(atCall, RunAll(atCall, w.duringCall), task.id, w))
                && (r == Unrecorded(w.outcome) <==> !Recordable(atCall, RunAll(atCall, w.duringCall), task.id, w))
      ensures Settled(store.Snapshot(), record.key, record.requestDigest, task.id, w, r)
      ensures r.Ran? && r.outcome.Success? ==>
                task.id in atCall.tasks && task.id in store.tasks && Costed(atCall.tasks[task.id], store.tasks[task.id], r.outcome.total)
      ensures r.Ran? && !r.outcome.RetryableFailure? ==> FoundForGood(store.Snapshot(), p, record.key, record.requestDigest)
    {
      hide HeldThroughout, OneCommand, Inv, Admits, Foreign, ValidRecord, Blank, Settled, Recordable, FoundForGood, Costed, RunAll;
      ghost var before := store.Snapshot();
      atCall := before;
      var event := if start.Some? then Some(ClientEvent(w, 0, TaskExecutionStarted, w.begunAt)) else None;
      var c := BeginModel(p, w.begunAt, task, start, event, record);
      BeginsIff(before, c, read, record, w);
      var begun := store.BeginModelExecution(c);
      hide Entitled, Acquires, AsRead, Startable, EvidenceComplete;
      SettledTrivially(store.Snapshot(), record.key, record.requestDigest, task.id, w);
      if begun.Err? { return Rejected, atCall; }
      if begun.value.Replayed? {
        if begun.value.record.response.NoResponse? { return Rejected, atCall; }
        ReplaySettled(before, record, task.id, w);
        return Stored(begun.value.record), atCall;
      }
      Begun(before, c);
      hide Next, Reports;
      atCall := store.Snapshot();
      HoldsThroughout(atCall, record, w.duringCall);
      r := CallAndFinish(p, task.id, record, w);
    }

    method CallAndFinish(p: Principal, taskId: string, record: IdempotencyRecord, w: Surroundings) returns (r: ModelResult)
      requires store.Valid() && HoldsKey(store.Snapshot(), record) && Entitled(record, p) && Foreign(w.duringCall, record.key)
      requires taskId in store.tasks && store.tasks[taskId].id == taskId && store.tasks[taskId].status.TaskExecuting?
      requires store.tasks[taskId].tenantId == p.tenantId && store.tasks[taskId].projectId == p.projectId
      modifies this, store
      ensures store.Valid()
      ensures calls == old(calls) + 1 && (r == Ran(w.outcome) || r == Unrecorded(w.outcome))
      ensures r.Ran? <==> Recordable(old(store.Snapshot()), RunAll(old(store.Snapshot()), w.duringCall), taskId, w)
      ensures Settled(store.Snapshot(), record.key, record.requestDigest, taskId, w, r)
      ensures OneCommand(RunAll(old(store.Snapshot()), w.duringCall), store.Snapshot(), taskId, record.key)
      ensures r.Ran? && r.outcome.Success? ==> taskId in store.tasks && Costed(old(store.tasks)[taskId], store.tasks[taskId], r.outcome.total)
      ensures r.Ran? && !r.outcome.RetryableFailure? ==> FoundForGood(store.Snapshot(), p, record.key, record.requestDigest)
    {
      hide Inv, Admits, Next, RunAll, ValidRecord, Authorized, Entitled, Foreign, Blank, Costed, FoundForGood, Replies, Ended, Evidenced;
      ghost var atCall := store.Snapshot();
      var task := store.tasks[taskId];
      HoldSurvives(atCall, w.duringCall, record);
      VersionTells(atCall, w.duringCall, taskId);
      calls := calls + 1;              // the provider call runs outside any transaction,
      store.Interleave(w.duringCall);  // while other clients go on
      match w.outcome {
        case RetryableFailure(message) =>
          ghost var release := Released(store.Snapshot(), p, record, taskId, message);
          var refused := store.MarkModelExecutionRetryable(MarkRetryable(p, Answer(record, FailedRetryable, taskId, 503, message)));
          r := Ran(w.outcome);
        case FinalFailure(message) =>
          r := FinishFailed(p, task, record, w);
        case Success(_, _) =>
          r := FinishSucceeded(p, task, record, w);
      }
    }

    method FinishFailed(p: Principal, task: Task, record: IdempotencyRecord, w: Surroundings) returns (r: ModelResult)
      requires store.Valid() && HoldsKey(store.Snapshot(), record) && Entitled(record, p) && w.outcome.FinalFailure?
      requires task.status.TaskExecuting? && task.tenantId == p.tenantId && task.projectId == p.projectId
      requires MovedFrom(task, store.Snapshot())
      modifies store
      ensures store.Valid()
      ensures r == Ran(w.outcome) || r == Unrecorded(w.outcome)
      ensures r.Ran? <==> AsRead(old(store.Snapshot()), task) && Evidenced(task, w)
      ensures r.Unrecorded? ==> store.Snapshot() == old(store.Snapshot())
      ensures Settled(store.Snapshot(), record.key, record.requestDigest, task.id, w, r)
      ensures OneCommand(old(store.Snapshot()), store.Snapshot(), task.id, record.key)
      ensures r.Ran? ==> FoundForGood(store.Snapshot(), p, record.key, record.requestDigest)
    {
      hide Inv, Admits, Next, Blank, ValidRecord, FoundForGood, Move, Answer, ClientEvent, BringsSuccess, BringsFailure, Reports, HoldsKey,
           Entitled, Settled, OneCommand, Costed, AsRead, MovedFrom, WithTotal,
           VALIDATE_CAUSE, ACCEPTED_CAUSE, FAILED_CAUSE;
      CausesAreGiven();
      ghost var before := store.Snapshot();
      StillOpen(before, record, task.id, w);
      var moved := Move(task.(result := w.outcome.message), TransitionCommand(TaskFailed, w.actor, FAILED_CAUSE, w.endedAt));
      if moved.Err? { return Unrecorded(w.outcome); }
      var (failed, evidence) := moved.value;
      var c := FinalizeModel(p, w.endedAt, failed, [evidence], [ClientEvent(w, 1, TaskFailedEvent, w.endedAt)],
                             Answer(record, FailedFinal, task.id, 500, w.outcome.message));
      FailureBuilt(p, task, record, w, moved.value, c);
      var done := store.FinalizeModelExecution(c);
      CommitsFailure(before, c, task, p, record, w, done);
      return if done.Ok? then Ran(w.outcome) else Unrecorded(w.outcome);
    }

    method FinishSucceeded(p: Principal, task: Task, record: IdempotencyRecord, w: Surroundings) returns (r: ModelResult)
      requires store.Valid() && HoldsKey(store.Snapshot(), record) && Entitled(record, p) && w.outcome.Success?
      requires task.status.TaskExecuting? && task.tenantId == p.tenantId && task.projectId == p.projectId
      requires MovedFrom(task, store.Snapshot())
      modifies store
      ensures store.Valid()
      ensures r == Ran(w.outcome) || r == Unrecorded(w.outcome)
      ensures r.Ran? <==> AsRead(old(store.Snapshot()), task) && Evidenced(task, w)
      ensures r.Unrecorded? ==> store.Snapshot() == old(store.Snapshot())
      ensures Settled(store.Snapshot(), record.key, record.requestDigest, task.id, w, r)
      ensures OneCommand(old(store.Snapshot()), store.Snapshot(), task.id, record.key)
      ensures r.Ran? ==> task.id in store.tasks && Costed(task, store.tasks[task.id], w.outcome.total)
      ensures r.Ran? ==> FoundForGood(store.Snapshot(), p, record.key, record.requestDigest)
    {
      hide Inv, Admits, Next, Blank, ValidRecord, FoundForGood, Move, Answer, ClientEvent, BringsSuccess, BringsFailure, Reports, HoldsKey,
           Entitled, Settled, OneCommand, Costed, AsRead, MovedFrom, WithTotal,
           VALIDATE_CAUSE, ACCEPTED_CAUSE, FAILED_CAUSE;
      CausesAreGiven();
      ghost var before := store.Snapshot();
      StillOpen(before, record, task.id, w);
      var answered := WithTotal(task.(result := w.outcome.text), w.outcome.total);
      StatusKept(task.(result := w.outcome.text), w.outcome.total);
      var validating := Move(answered, TransitionCommand(TaskValidating, w.actor, VALIDATE_CAUSE, w.validatedAt));
      if validating.Err? { return Unrecorded(w.outcome); }
      var completed := Move(validating.value.0, TransitionCommand(TaskCompleted, w.actor, ACCEPTED_CAUSE, w.endedAt));
      if completed.Err? { return Unrecorded(w.outcome); }
      var c := FinalizeModel(p, w.endedAt, completed.value.0, [validating.value.1, completed.value.1],
                             [ClientEvent(w, 1, TaskValidationStarted, w.validatedAt), ClientEvent(w, 2, TaskCompletedEvent, w.endedAt)],
                             Answer(record, Completed, task.id, 200, w.outcome.text));
      SuccessBuilt(p, task, record, w, validating.value, completed.value, c);
      var done := store.FinalizeModelExecution(c);
      CommitsSuccess(before, c, task, p, record, w, done);
      return if done.Ok? then Ran(w.outcome) else Unrecorded(w.outcome);
    }
  }

  /** The ledger's total, if it could be read, becomes the task's cost. */
  function WithTotal(t: Task, total: Option<LedgerTotal>): Task {
    match total
    case None => t
    case Some(sum) =>
      t.(cost := sum.amount, actualCost := sum.amount, currency := if sum.currency != "" then sum.currency else t.currency)
  }

  /** The task is where it was read, or has moved on to another version. */
  ghost predicate MovedFrom(read: Task, db: Db) {
    AsRead(db, read) ==> db.tasks[read.id] == read
  }

  lemma BeginsIff(db: Db, c: Command, read: Task, rec: IdempotencyRecord, w: Surroundings)
    requires Inv(db) && c.BeginModel? && c.idem == rec && rec.status.InProgress? && c.now == w.begunAt && MovedFrom(read, db)
    requires SameOrigin(read, c.task) && c.task.version == read.version && c.task.traceId == read.traceId && c.task.status.TaskExecuting?
    requires c.start.None? <==> read.status.TaskExecuting?
    requires c.start.Some? ==>
               && read.status.TaskRouting? && c.start.value.from.TaskRouting? && c.start.value.to.TaskExecuting?
               && EvidenceComplete(c.start.value) && c.start.value.at == w.begunAt
    requires c.startEvent == if c.start.Some? then Some(ClientEvent(w, 0, TaskExecutionStarted, w.begunAt)) else None
    ensures Admits(db, c) <==>
              && Entitled(rec, c.p) && Acquires(db, rec) && AsRead(db, read)
              && read.tenantId == c.p.tenantId && read.projectId == c.p.projectId && Startable(read, w)
  {
    BeginAdmittedIff(db, c);
    if ValidRecord(rec) { NeedsScope(rec); }
    hide Admits, Inv, Blank, ValidRecord, Acquires, Authorized;
  }

  lemma SettledTrivially(db: Db, k: IdempotencyKey, digest: string, taskId: string, w: Surroundings)
    ensures Settled(db, k, digest, taskId, w, Rejected)
  {
  }

  lemma FoundSettled(db: Db, p: Principal, k: IdempotencyKey, digest: string, taskId: string, w: Surroundings)
    requires Resolve(db, p, k, digest).Ok? && Resolve(db, p, k, digest).value.Some?
    requires !Resolve(db, p, k, digest).value.value.response.NoResponse?
    ensures Settled(db, k, digest, taskId, w, Stored(Resolve(db, p, k, digest).value.value))
  {
    hide Blank;
  }

  lemma ReplaySettled(db: Db, rec: IdempotencyRecord, taskId: string, w: Surroundings)
    requires Replays(db, rec) && !db.idempotency[rec.key].response.NoResponse?
    ensures Settled(db, rec.key, rec.requestDigest, taskId, w, Stored(db.idempotency[rec.key]))
  {
  }

  /** A finalization is never replayed: it commits exactly when it is admitted. */
  lemma CommitsIff(db: Db, c: Command, r: Result<TaskCommandStore.Outcome, CommandError>)
    requires c.FinalizeModel? && Reports(db, c, r)
    ensures r.Ok? <==> Admits(db, c)
    ensures !Admits(db, c) ==> Next(db, c) == db
  {
    hide Admits;
  }

  lemma StillOpen(db: Db, rec: IdempotencyRecord, taskId: string, w: Surroundings)
    requires HoldsKey(db, rec) && !w.outcome.RetryableFailure?
    ensures Settled(db, rec.key, rec.requestDigest, taskId, w, Unrecorded(w.outcome)) && OneCommand(db, db, taskId, rec.key)
  {
  }

  lemma StatusKept(t: Task, total: Option<LedgerTotal>)
    ensures WithTotal(t, total).status == t.status
  {
  }

  lemma NotStartable(t: Task, w: Surroundings)
    requires !(t.status.TaskExecuting? || (t.status.TaskRouting? && !Blank(w.actor) && w.begunAt != 0))
    ensures !Startable(t, w) || w.begunAt == 0
  {
  }
}
