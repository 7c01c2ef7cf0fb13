/**
 The task-command repository. Every public method is one transaction: its statements update the tables one
 by one, and any error restores the tables as they were when it began.
 */
module TaskCommandStore {
  import opened Common
  import opened Tasks
  import opened TaskKernel
  import opened TaskProofs
  import opened KernelMeaning

  datatype CommandError =
    | InvalidCommand
    | NotFound
    | VersionConflict
    | IdempotencyConflict
    | IdempotencyInProgress
    | ReplayUnavailable

  datatype Reservation = Acquired | Replay(record: IdempotencyRecord) | Refused(error: CommandError)

  /** Either the command took effect, or an earlier identical one is replayed. */
  datatype Outcome = Committed(version: int) | Replayed(record: IdempotencyRecord)

  // ---- What each result means ----------------------------------------------

  /** A finished record from which CreateTask can replay. */
  predicate ReplaysTask(db: Db, rec: IdempotencyRecord) {
    && Replays(db, rec)
    && db.idempotency[rec.key].status.Completed? && db.idempotency[rec.key].resourceId in db.tasks
    && db.idempotency[rec.key].resourceId != ""
  }

  /** The replay a command gets when its key is already finished. */
  predicate CanReplay(db: Db, c: Command) {
    match c
    case CreateTask(_, _, _, _, _, _) => ReplaysTask(db, c.idem)
    case CommitRoute(_, _, _, _, _, _, _, _) =>
      ReplaysTask(db, c.idem) && ReadsAsDecision(db.idempotency[c.idem.key].response)
    case SelectRoute(_, _, _, _, _, _) =>
      && ReplaysTask(db, c.idem) && db.idempotency[c.idem.key].response.SelectionResponse?
      && db.idempotency[c.idem.key].response.selection.target.id != ""
      && db.idempotency[c.idem.key].response.selection.target.digest != ""
    case CommitTransition(_, _, _, _, _, _, _) => Replays(db, c.idem)
    case BeginModel(_, _, _, _, _, _) => Replays(db, c.idem)
    case _ => false
  }

  /**
   A commit is reported exactly when the command is admitted, with the persisted version; a replay hands
   back the stored record; a conflict means another digest and "in progress" means another holder.
   */
  ghost predicate Reports(db: Db, c: Command, r: Result<Outcome, CommandError>)
    requires !c.MarkRetryable?
  {
    && (r.Ok? && r.value.Committed? <==> Admits(db, c))
    && (r.Ok? && r.value.Committed? ==> PersistedAt(Next(db, c), c.task.id, r.value.version))
    && (r.Ok? && r.value.Replayed? ==> CanReplay(db, c) && r.value.record == db.idempotency[c.idem.key])
    && (r.Err? && CanReplay(db, c) ==> r.error.InvalidCommand?)
    && (r.Err? && r.error.IdempotencyConflict? ==>
          c.idem.key in db.idempotency && db.idempotency[c.idem.key].requestDigest != c.idem.requestDigest)
    && (r.Err? && r.error.IdempotencyInProgress? ==> HoldsKey(db, c.idem))
  }

  ghost predicate PersistedAt(db: Db, id: string, version: int) {
    id in db.tasks && db.tasks[id].version == version
  }

  /** After the rollback of a failed transaction the store is where the kernel says. */
  lemma Concluded(before: Db, c: Command, r: Result<Outcome, CommandError>)
    requires Inv(before) && !c.MarkRetryable? && Reports(before, c, r)
    ensures Inv(Next(before, c)) && (r.Err? ==> Next(before, c) == before)
    ensures r.Ok? && r.value.Committed? ==> Leaves(before, Next(before, c), c)
  {
    NextKeepsInv(before, c);
    if Admits(before, c) { CommandMeans(before, c); }
    hide Admits, Inv, Leaves;
  }

  /** Outcome of the statements inside a transaction, before a failed one is rolled back. */
  ghost predicate Attempted(before: Db, c: Command, after: Db, r: Result<Outcome, CommandError>)
    requires !c.MarkRetryable?
  {
    && Reports(before, c, r)
    && (r.Ok? ==> after == Next(before, c))
  }

  /** The key was free for this request and is now held by it; nothing else changed. */
  ghost predicate Reserved(before: Db, rec: IdempotencyRecord, after: Db) {
    && Acquires(before, rec)
    && after == before.(idempotency := before.idempotency[rec.key := ReservedRow(before, rec)])
    && after.idempotency[rec.key].requestDigest == rec.requestDigest
  }

  /** The tables hold what the edit says, written under the command's own ids. */
  lemma Commits(db: Db, c: Command, e: Edit, after: Db)
    requires Inv(db) && Admits(db, c) && !c.MarkRetryable? && e == EditOf(db, c)
    requires e.task.Some? && e.task.value.id == c.task.id && e.idem.key == c.idem.key
    requires after.tasks == db.tasks[c.task.id := e.task.value]
    requires after.events == db.events[c.task.id := EventsOf(db, c.task.id) + e.events]
    requires after.idempotency == db.idempotency[c.idem.key := e.idem]
    requires after.outbox == db.outbox + e.outbox
    requires after.decisions == db.decisions + e.decisions
    ensures after == Next(db, c)
    ensures PersistedAt(after, c.task.id, e.task.value.version)
  {
    hide Admits, EditOf, Inv;
  }

  lemma InvIds(db: Db, id: string, key: IdempotencyKey)
    requires Inv(db)
    ensures id in db.tasks ==> db.tasks[id].id == id
    ensures key in db.idempotency ==> db.idempotency[key].key == key
  {
  }

  /** Outcome of the writing part, once the key is held. */
  ghost predicate Wrote(before: Db, c: Command, after: Db, r: Result<int, CommandError>)
    requires !c.MarkRetryable?
  {
    && (r.Ok? <==> Admits(before, c))
    && (r.Ok? ==> after == Next(before, c) && PersistedAt(after, c.task.id, r.value))
    && (r.Err? ==> !r.error.IdempotencyConflict? && !r.error.IdempotencyInProgress?)
  }

  function AsOutcome(written: Result<int, CommandError>): Result<Outcome, CommandError> {
    if written.Ok? then Ok(Committed(written.value)) else Err(written.error)
  }

  /** A retry only takes the key back. */
  lemma BeginAgain(db: Db, c: Command)
    requires c.BeginModel? && c.task.id in db.tasks && c.start.None?
    requires c.idem.key in db.idempotency ==> db.idempotency[c.idem.key].key == c.idem.key
    ensures Apply(db, EditBegin(db, c)) == db.(idempotency := db.idempotency[c.idem.key := ReservedRow(db, c.idem)])
  {
  }

  class ScopedPostgresTaskCommands {
    var tasks: map<string, Task>
    var events: map<string, seq<TaskEvent>>
    var idempotency: map<IdempotencyKey, IdempotencyRecord>
    var outbox: seq<OutboxMessage>
    var decisions: seq<RouteDecision>

    function Snapshot(): Db
      reads this
    {
      Db(tasks, events, idempotency, outbox, decisions)
    }

    ghost predicate Valid()
      reads this
    {
      Inv(Snapshot())
    }

    constructor ()
      ensures Valid() && Snapshot() == EMPTY
    {
      tasks, events, idempotency, outbox, decisions := map[], map[], map[], [], [];
    }

    // ---- Statements --------------------------------------------------------

    /** Insert the key as in progress; on conflict look at the row that is there. */
    method ReserveIdempotency(rec: IdempotencyRecord) returns (o: Reservation)
      modifies this`idempotency
      ensures o.Acquired? <==> Acquires(old(Snapshot()), rec)
      ensures idempotency == if o.Acquired? then old(idempotency)[rec.key := ReservedRow(old(Snapshot()), rec)] else old(idempotency)
      ensures o.Acquired? ==> idempotency[rec.key].requestDigest == rec.requestDigest
      ensures o.Replay? <==> Replays(old(Snapshot()), rec)
      ensures o.Replay? ==> o.record == old(idempotency)[rec.key]
      ensures o.Refused? ==> rec.key in old(idempotency) && !o.error.NotFound? && !o.error.VersionConflict?
      ensures o.Refused? && o.error.IdempotencyConflict? ==> old(idempotency)[rec.key].requestDigest != rec.requestDigest
      ensures o.Refused? && o.error.IdempotencyInProgress? ==> HoldsKey(old(Snapshot()), rec)
    {
      if rec.key !in idempotency {
        idempotency := idempotency[rec.key := rec.(status := InProgress, resourceId := "", responseCode := 0,
                                                   responseDigest := "", response := NoResponse)];
        return Acquired;
      }
      var existing := idempotency[rec.key];
      if existing.requestDigest != rec.requestDigest {
        return Refused(IdempotencyConflict);
      }
      match existing.status {
        case Completed => o := Replay(existing);
        case FailedFinal => o := Replay(existing);
        case InProgress => o := Refused(IdempotencyInProgress);
        case FailedRetryable =>
          idempotency := idempotency[rec.key := existing.(status := InProgress, resourceId := "", responseCode := 0,
                                                          responseDigest := "", response := NoResponse)];
          o := Acquired;
        case OtherIdempotency(_) => o := Refused(InvalidCommand);
      }
    }

    /**
     Finish the key, if it is still this request's. A final result can be replayed from now on; digest,
     creation and expiry stay as they were, and no other key is touched.
     */
    method CompleteIdempotency(rec: IdempotencyRecord) returns (ok: bool)
      modifies this`idempotency
      ensures ok <==> rec.key in old(idempotency) && old(idempotency)[rec.key].requestDigest == rec.requestDigest
      ensures ok ==> idempotency == old(idempotency)[rec.key := CompletedRow(old(idempotency)[rec.key], rec)]
      ensures !ok ==> idempotency == old(idempotency)
      ensures ok && FinalStatus(rec.status) ==> Replays(Snapshot(), rec)
      ensures ok && rec.status.FailedRetryable? ==> Acquires(Snapshot(), rec)
      ensures ok ==> Lasting(old(idempotency)[rec.key], idempotency[rec.key])
      ensures forall k | k in old(idempotency) && k != rec.key :: k in idempotency && idempotency[k] == old(idempotency)[k]
    {
      ok := rec.key in idempotency && idempotency[rec.key].requestDigest == rec.requestDigest;
      if ok {
        var row := idempotency[rec.key];
        idempotency := idempotency[rec.key := row.(status := rec.status, resourceId := rec.resourceId,
                                                   responseCode := rec.responseCode, responseDigest := rec.responseDigest,
                                                   response := rec.response)];
      }
    }

    /**
     The guarded projection update: a row is written only while the version still matches, and then keeps
     its identity and creation time, takes the command's content, and moves on by n versions.
     */
    method UpdateTask(task: Task, n: int) returns (version: Option<int>)
      modifies this`tasks
      ensures version.Some? <==> task.id in old(tasks) && old(tasks)[task.id].version == task.version
      ensures version.None? ==> tasks == old(tasks)
      ensures version.Some? ==> tasks == old(tasks)[task.id := Projected(old(tasks)[task.id], task, n)]
      ensures version.Some? ==> PersistedAt(Snapshot(), task.id, version.value) && version.value == task.version + n
      ensures version.Some? ==> SameOrigin(old(tasks)[task.id], tasks[task.id]) && SameContent(task, tasks[task.id])
    {
      if task.id !in tasks || tasks[task.id].version != task.version {
        return None;
      }
      var row := tasks[task.id];
      tasks := tasks[task.id := row.(agentId := task.agentId, input := task.input, status := task.status, result := task.result,
                                     cost := task.cost, estimatedCost := task.estimatedCost, actualCost := task.actualCost,
                                     currency := task.currency, routeDecisionId := task.routeDecisionId,
                                     traceId := task.traceId, updatedAt := task.updatedAt, completedAt := task.completedAt,
                                     version := row.version + n)];
      version := Some(tasks[task.id].version);
    }

    method InsertEvent(e: TaskEvent)
      modifies this`events
      ensures events == old(events)[e.taskId := LogOf(old(events), e.taskId) + [e]]
    {
      events := events[e.taskId := LogOf(events, e.taskId) + [e]];
    }

    /** Prepare, check and insert the command's messages in order. */
    method InsertOutbox(messages: seq<OutboxMessage>, task: Task, now: Time) returns (ok: bool)
      modifies this`outbox
      ensures ok <==> AllFit(messages, task, now)
      ensures ok <==> forall i | 0 <= i < |messages| :: Enters(messages[i], task, now)
      ensures ok ==> outbox == old(outbox) + PrepareAll(messages, task, now, |messages|)
      ensures ok ==> AllStored(messages, old(outbox), outbox, task, now)
    {
      AllEnterIff(messages, task, now, outbox);
      hide PrepareMessage, MessageFits, Enters, AllStored;
      for i := 0 to |messages|
        invariant forall k | 0 <= k < i :: MessageFits(PrepareMessage(messages[k], task, now), task)
        invariant outbox == old(outbox) + PrepareAll(messages, task, now, i)
      {
        var message := PrepareMessage(messages[i], task, now);
        if !MessageFits(message, task) {
          return false;
        }
        outbox := outbox + [message];
      }
      return true;
    }

    /** The last statements of a command: append its event, then its messages, then finish its key. */
    method Finish(event: TaskEvent, messages: seq<OutboxMessage>, task: Task, now: Time, rec: IdempotencyRecord) returns (ok: bool)
      modifies this`events, this`outbox, this`idempotency
      ensures ok <==> ValidEvent(event) && AllFit(messages, task, now)
                      && rec.key in old(idempotency) && old(idempotency)[rec.key].requestDigest == rec.requestDigest
      ensures ok ==> events == old(events)[event.taskId := LogOf(old(events), event.taskId) + [event]]
      ensures ok ==> outbox == old(outbox) + PrepareAll(messages, task, now, |messages|)
      ensures ok ==> idempotency == old(idempotency)[rec.key := CompletedRow(old(idempotency)[rec.key], rec)]
    {
      hide ValidEvent, AllFit, PrepareAll, CompletedRow;
      if !ValidEvent(event) { return false; }
      InsertEvent(event);
      ok := InsertOutbox(messages, task, now);
      if ok {
        ok := CompleteIdempotency(rec);
      }
    }

    /** Lock the row; a task of another project is as good as missing. */
    method LockTask(p: Principal, id: string) returns (r: Option<Task>)
      ensures r.Some? <==> id in tasks && tasks[id].tenantId == p.tenantId && tasks[id].projectId == p.projectId
      ensures r.Some? ==> r.value == tasks[id]
    {
      if id !in tasks || tasks[id].tenantId != p.tenantId || tasks[id].projectId != p.projectId {
        return None;
      }
      return Some(tasks[id]);
    }

    method Rollback(saved: Db)
      modifies this
      ensures Snapshot() == saved
    {
      tasks, events, idempotency, outbox, decisions := saved.tasks, saved.events, saved.idempotency, saved.outbox, saved.decisions;
    }

    // ---- CommitTransition --------------------------------------------------

    method TransitionTx(c: Command) returns (r: Result<Outcome, CommandError>)
      requires Valid() && c.CommitTransition?
      modifies this
      ensures Attempted(old(Snapshot()), c, Snapshot(), r)
    {
      hide ValidRecord, Authorized, InScope, CurrentMatches, EvidenceComplete, ValidEvent, AllFit, Inv, Apply, EditOf;
      if !ValidRecord(c.idem) || c.idem.status.InProgress? || !Authorized(c.p) || !InScope(c.idem.key, c.p) {
        return Err(InvalidCommand);
      }
      var reservation := ReserveIdempotency(c.idem);
      if reservation.Refused? { return Err(reservation.error); }
      if reservation.Replay? { return Ok(Replayed(reservation.record)); }
      var written := WriteTransition(c, old(Snapshot()));
      return AsOutcome(written);
    }

    method WriteTransition(c: Command, ghost before: Db) returns (r: Result<int, CommandError>)
      requires c.CommitTransition? && Inv(before) && Reserved(before, c.idem, Snapshot())
      requires ValidRecord(c.idem) && !c.idem.status.InProgress? && Authorized(c.p) && InScope(c.idem.key, c.p)
      modifies this
      ensures Wrote(before, c, Snapshot(), r)
    {
      hide ValidEvent, ValidRecord, EvidenceComplete, MaxSequence, PrepareAll, AllFit, Stamp, Inv, Canonical;
      hide ReservedRow, CompletedRow, Projected, Authorized, InScope, WithResource, Apply, Next, Acquires;
      InvIds(before, c.task.id, c.idem.key);
      var locked := LockTask(c.p, c.task.id);
      if locked.None? { return Err(NotFound); }
      var current := locked.value;
      if !SameIdentity(current, c.task) { return Err(InvalidCommand); }
      if c.task.version != current.version { return Err(VersionConflict); }
      if c.transition.from != current.status || c.transition.to != c.task.status { return Err(InvalidCommand); }
      if !EvidenceComplete(c.transition) { return Err(InvalidCommand); }
      if Canonical(c.task.status) != Some(c.event.eventType) { return Err(InvalidCommand); }
      var sequence := NextSequence(Snapshot(), current.id);
      var version := UpdateTask(c.task, 1);
      if version.None? { return Err(VersionConflict); }
      var event := Stamp(c.event, current, c.task.traceId, sequence, c.transition.at, c.now);
      assert event == TransitionEvent(before, c);
      var completed := Finish(event, c.outbox, current, c.now, WithResource(c.idem, current.id));
      if !completed { return Err(InvalidCommand); }
      Commits(before, c, EditTransition(before, c), Snapshot());
      return Ok(version.value);
    }

    method CommitTransition(c: Command) returns (r: Result<Outcome, CommandError>)
      requires Valid() && c.CommitTransition?
      modifies this
      ensures Valid() && Snapshot() == Next(old(Snapshot()), c)
      ensures Reports(old(Snapshot()), c, r)
      ensures r.Ok? && r.value.Committed? ==> Leaves(old(Snapshot()), Snapshot(), c)
    {
      hide Leaves, Inv, Admits, Next;
      var saved := Snapshot();
      r := TransitionTx(c);
      if r.Err? { Rollback(saved); }
      Concluded(saved, c, r);
    }

    // ---- CreateTask --------------------------------------------------------

    method CreateTx(c: Command) returns (r: Result<Outcome, CommandError>)
      requires Valid() && c.CreateTask?
      modifies this
      ensures Attempted(old(Snapshot()), c, Snapshot(), r)
    {
      hide ValidRecord, Authorized, InScope, CreatorMatches, ValidCreation, OwnedTask, ValidEvent, AllFit, Inv, Apply, EditOf;
      if !ValidRecord(c.idem) || !c.idem.status.Completed? || !Authorized(c.p) || !InScope(c.idem.key, c.p) {
        return Err(InvalidCommand);
      }
      if !CreatorMatches(c.task, c.p) || !ValidCreation(OwnedTask(c.task, c.p)) {
        return Err(InvalidCommand);
      }
      var reservation := ReserveIdempotency(c.idem);
      if reservation.Refused? { return Err(reservation.error); }
      if reservation.Replay? {
        if !reservation.record.status.Completed? || reservation.record.resourceId == "" || reservation.record.resourceId !in tasks {
          return Err(ReplayUnavailable);
        }
        return Ok(Replayed(reservation.record));
      }
      var written := WriteCreation(c, old(Snapshot()));
      return AsOutcome(written);
    }

    method WriteCreation(c: Command, ghost before: Db) returns (r: Result<int, CommandError>)
      requires c.CreateTask? && Inv(before) && Reserved(before, c.idem, Snapshot())
      requires ValidRecord(c.idem) && c.idem.status.Completed? && Authorized(c.p) && InScope(c.idem.key, c.p)
      requires CreatorMatches(c.task, c.p) && ValidCreation(OwnedTask(c.task, c.p))
      modifies this
      ensures Wrote(before, c, Snapshot(), r)
    {
      hide ValidEvent, ValidRecord, EvidenceComplete, MaxSequence, PrepareAll, AllFit, Stamp, Inv, Typed;
      hide ReservedRow, CompletedRow, Projected, Authorized, InScope, WithResource, WithCode, Apply, Next, Acquires;
      hide CreatorMatches;
      InvIds(before, c.task.id, c.idem.key);
      var task := OwnedTask(c.task, c.p);
      if task.id in tasks { return Err(InvalidCommand); }
      tasks := tasks[task.id := task];
      var typed := Typed(c.event, TaskCreatedEvent);
      if !typed.eventType.TaskCreatedEvent? { return Err(InvalidCommand); }
      var event := Stamp(typed, task, task.traceId, 1, task.createdAt, c.now);
      var completed := Finish(event, c.outbox, task, c.now, c.idem.(resourceId := task.id));
      if !completed { return Err(InvalidCommand); }
      Commits(before, c, EditCreate(before, c), Snapshot());
      return Ok(task.version);
    }

    method CreateTask(c: Command) returns (r: Result<Outcome, CommandError>)
      requires Valid() && c.CreateTask?
      modifies this
      ensures Valid() && Snapshot() == Next(old(Snapshot()), c)
      ensures Reports(old(Snapshot()), c, r)
      ensures r.Ok? && r.value.Committed? ==> Leaves(old(Snapshot()), Snapshot(), c)
    {
      hide Leaves, Inv, Admits, Next;
      var saved := Snapshot();
      r := CreateTx(c);
      if r.Err? { Rollback(saved); }
      Concluded(saved, c, r);
    }

    // ---- CommitRouteTransition ---------------------------------------------

    method RouteTx(c: Command) returns (r: Result<Outcome, CommandError>)
      requires Valid() && c.CommitRoute?
      modifies this
      ensures Attempted(old(Snapshot()), c, Snapshot(), r)
    {
      hide ValidRecord, Authorized, InScope, CurrentMatches, EvidenceComplete, ValidEvent, AllFit, Inv, Apply, EditOf;
      if !ValidRecord(c.idem) || !c.idem.status.Completed? || !Authorized(c.p) || !InScope(c.idem.key, c.p) {
        return Err(InvalidCommand);
      }
      var reservation := ReserveIdempotency(c.idem);
      if reservation.Refused? { return Err(reservation.error); }
      if reservation.Replay? {
        if !reservation.record.status.Completed? || reservation.record.resourceId == "" || reservation.record.resourceId !in tasks {
          return Err(ReplayUnavailable);
        }
        if !ReadsAsDecision(reservation.record.response) { return Err(ReplayUnavailable); }
        return Ok(Replayed(reservation.record));
      }
      var written := WriteRoute(c, old(Snapshot()));
      return AsOutcome(written);
    }

    method WriteRoute(c: Command, ghost before: Db) returns (r: Result<int, CommandError>)
      requires c.CommitRoute? && Inv(before) && Reserved(before, c.idem, Snapshot())
      requires ValidRecord(c.idem) && c.idem.status.Completed? && Authorized(c.p) && InScope(c.idem.key, c.p)
      modifies this
      ensures Wrote(before, c, Snapshot(), r)
    {
      hide ValidEvent, ValidRecord, EvidenceComplete, MaxSequence, PrepareAll, AllFit, Stamp, Inv, Typed;
      hide ReservedRow, CompletedRow, Projected, Authorized, InScope, WithResource, WithCode, Apply, Next, Acquires;
      hide RequestsRoute, OrElse;
      InvIds(before, c.task.id, c.idem.key);
      var locked := LockTask(c.p, c.task.id);
      if locked.None? { return Err(NotFound); }
      var current := locked.value;
      if !SameIdentity(current, c.task) { return Err(InvalidCommand); }
      if c.task.version != current.version { return Err(VersionConflict); }
      if !RequestsRoute(current.status, c) { return Err(InvalidCommand); }
      var decision := c.decision.(taskId := current.id, createdAt := OrElse(c.decision.createdAt, c.transition.at));
      var routed := c.task.(routeDecisionId := decision.id, estimatedCost := decision.selected.estimatedCost);
      var sequence := NextSequence(Snapshot(), current.id);
      decisions := decisions + [decision];
      var version := UpdateTask(routed, 1);
      if version.None? { return Err(VersionConflict); }
      var typed := Typed(c.event, TaskRoutingStarted);
      if !typed.eventType.TaskRoutingStarted? { return Err(InvalidCommand); }
      var event := Stamp(typed, current, routed.traceId, sequence, c.transition.at, c.now);
      assert event == RouteEvent(before, c);
      var completed := Finish(event, c.outbox, current, c.now,
                              WithCode(c.idem.(resourceId := current.id, response := DecisionResponse(decision)), 201));
      if !completed { return Err(InvalidCommand); }
      Commits(before, c, EditRoute(before, c), Snapshot());
      return Ok(version.value);
    }

    method CommitRouteTransition(c: Command) returns (r: Result<Outcome, CommandError>)
      requires Valid() && c.CommitRoute?
      modifies this
      ensures Valid() && Snapshot() == Next(old(Snapshot()), c)
      ensures Reports(old(Snapshot()), c, r)
      ensures r.Ok? && r.value.Committed? ==> Leaves(old(Snapshot()), Snapshot(), c)
    {
      hide Leaves, Inv, Admits, Next;
      var saved := Snapshot();
      r := RouteTx(c);
      if r.Err? { Rollback(saved); }
      Concluded(saved, c, r);
    }

    // ---- CommitRouteSelection ----------------------------------------------

    method SelectionTx(c: Command) returns (r: Result<Outcome, CommandError>)
      requires Valid() && c.SelectRoute?
      modifies this
      ensures Attempted(old(Snapshot()), c, Snapshot(), r)
    {
      hide ValidRecord, Authorized, InScope, CurrentMatches, EvidenceComplete, ValidEvent, AllFit, Inv, Apply, EditOf;
      if !ValidRecord(c.idem) || !c.idem.status.Completed? {
        return Err(InvalidCommand);
      }
      if Blank(c.selection.decision.id) || Blank(c.selection.decision.taskId)
         || c.selection.target.id == "" || c.selection.target.digest == "" {
        return Err(InvalidCommand);
      }
      if !Authorized(c.p) || !InScope(c.idem.key, c.p) {
        return Err(InvalidCommand);
      }
      var reservation := ReserveIdempotency(c.idem);
      if reservation.Refused? { return Err(reservation.error); }
      if reservation.Replay? {
        if !reservation.record.status.Completed? || reservation.record.resourceId == "" || reservation.record.resourceId !in tasks {
          return Err(ReplayUnavailable);
        }
        var response := reservation.record.response;
        if !response.SelectionResponse? || response.selection.target.id == "" || response.selection.target.digest == "" {
          return Err(ReplayUnavailable);
        }
        return Ok(Replayed(reservation.record));
      }
      var written := WriteSelection(c, old(Snapshot()));
      return AsOutcome(written);
    }

    method WriteSelection(c: Command, ghost before: Db) returns (r: Result<int, CommandError>)
      requires c.SelectRoute? && Inv(before) && Reserved(before, c.idem, Snapshot())
      requires ValidRecord(c.idem) && c.idem.status.Completed? && Authorized(c.p) && InScope(c.idem.key, c.p)
      requires !Blank(c.selection.decision.id) && !Blank(c.selection.decision.taskId)
      requires c.selection.target.id != "" && c.selection.target.digest != ""
      modifies this
      ensures Wrote(before, c, Snapshot(), r)
    {
      hide ValidEvent, ValidRecord, EvidenceComplete, MaxSequence, Stamp, Inv, Typed;
      hide ReservedRow, CompletedRow, Projected, Authorized, InScope, WithResource, WithCode, Apply, Next, Acquires;
      hide Blank;
      InvIds(before, c.task.id, c.idem.key);
      var locked := LockTask(c.p, c.task.id);
      if locked.None? { return Err(NotFound); }
      var current := locked.value;
      if !current.status.TaskRouting? || !c.task.status.TaskRouting? { return Err(InvalidCommand); }
      if c.task.version != current.version { return Err(VersionConflict); }
      if !SameIdentity(current, c.task) { return Err(InvalidCommand); }
      var decision := c.selection.decision;
      if decision.taskId != current.id || decision.createdAt == 0 { return Err(InvalidCommand); }
      decisions := decisions + [decision];
      tasks := tasks[current.id := current.(routeDecisionId := decision.id, estimatedCost := decision.selected.estimatedCost,
                                            updatedAt := OrElse(c.task.updatedAt, c.now), version := current.version + 1)];
      var sequence := NextSequence(Snapshot(), current.id);
      var typed := Typed(c.event, TaskRouteSelected);
      if !typed.eventType.TaskRouteSelected? { return Err(InvalidCommand); }
      var event := Stamp(typed, current, current.traceId, sequence, decision.createdAt, c.now);
      assert event == SelectionEvent(before, c);
      var completed := Finish(event, [], current, c.now,
                              WithCode(c.idem.(resourceId := current.id, response := SelectionResponse(c.selection)), 200));
      if !completed { return Err(InvalidCommand); }
      Commits(before, c, EditSelection(before, c), Snapshot());
      return Ok(current.version + 1);
    }

    method CommitRouteSelection(c: Command) returns (r: Result<Outcome, CommandError>)
      requires Valid() && c.SelectRoute?
      modifies this
      ensures Valid() && Snapshot() == Next(old(Snapshot()), c)
      ensures Reports(old(Snapshot()), c, r)
      ensures r.Ok? && r.value.Committed? ==> Leaves(old(Snapshot()), Snapshot(), c)
    {
      hide Leaves, Inv, Admits, Next;
      var saved := Snapshot();
      r := SelectionTx(c);
      if r.Err? { Rollback(saved); }
      Concluded(saved, c, r);
    }

    // ---- BeginModelExecution -----------------------------------------------

    method BeginTx(c: Command) returns (r: Result<Outcome, CommandError>)
      requires Valid() && c.BeginModel?
      modifies this
      ensures Attempted(old(Snapshot()), c, Snapshot(), r)
    {
      hide ValidRecord, Authorized, InScope, CurrentMatches, EvidenceComplete, ValidEvent, AllFit, Inv, Apply, EditOf;
      if !ValidRecord(c.idem) || !c.idem.status.InProgress? || !Authorized(c.p) || !InScope(c.idem.key, c.p) {
        return Err(InvalidCommand);
      }
      var reservation := ReserveIdempotency(c.idem);
      if reservation.Refused? { return Err(reservation.error); }
      if reservation.Replay? {
        return Ok(Replayed(reservation.record));
      }
      var written := WriteBegin(c, old(Snapshot()));
      return AsOutcome(written);
    }

    method WriteBegin(c: Command, ghost before: Db) returns (r: Result<int, CommandError>)
      requires c.BeginModel? && Inv(before) && Reserved(before, c.idem, Snapshot())
      requires ValidRecord(c.idem) && c.idem.status.InProgress? && Authorized(c.p) && InScope(c.idem.key, c.p)
      modifies this
      ensures Wrote(before, c, Snapshot(), r)
    {
      hide ValidEvent, ValidRecord, EvidenceComplete, MaxSequence, PrepareAll, AllFit, Stamp, Inv, Typed;
      hide ReservedRow, CompletedRow, Projected, Authorized, InScope, WithResource, WithCode, Apply, Acquires;
      InvIds(before, c.task.id, c.idem.key);
      var locked := LockTask(c.p, c.task.id);
      if locked.None? { return Err(NotFound); }
      var current := locked.value;
      if !SameIdentity(current, c.task) { return Err(InvalidCommand); }
      if c.task.version != current.version { return Err(VersionConflict); }
      if current.status.TaskRouting? {
        if c.start.None? || c.startEvent.None? { return Err(InvalidCommand); }
        var start := c.start.value;
        if !start.from.TaskRouting? || !start.to.TaskExecuting? || !c.task.status.TaskExecuting? { return Err(InvalidCommand); }
        if !EvidenceComplete(start) { return Err(InvalidCommand); }
        if !c.startEvent.value.eventType.TaskExecutionStarted? { return Err(InvalidCommand); }
        var sequence := NextSequence(Snapshot(), current.id);
        var version := UpdateTask(c.task, 1);
        if version.None? { return Err(VersionConflict); }
        var event := Stamp(c.startEvent.value, current, c.task.traceId, sequence, start.at, c.now);
        assert event == BeginEvent(before, c);
        if !ValidEvent(event) { return Err(InvalidCommand); }
        InsertEvent(event);
        Commits(before, c, EditBegin(before, c), Snapshot());
        return Ok(version.value);
      } else if current.status.TaskExecuting? {
        if c.start.Some? || c.startEvent.Some? { return Err(InvalidCommand); }
        assert Snapshot() == Apply(before, EditBegin(before, c)) by { BeginAgain(before, c); }
        return Ok(current.version);
      }
      return Err(InvalidCommand);
    }

    method BeginModelExecution(c: Command) returns (r: Result<Outcome, CommandError>)
      requires Valid() && c.BeginModel?
      modifies this
      ensures Valid() && Snapshot() == Next(old(Snapshot()), c)
      ensures Reports(old(Snapshot()), c, r)
      ensures r.Ok? && r.value.Committed? ==> Leaves(old(Snapshot()), Snapshot(), c)
    {
      hide Leaves, Inv, Admits, Next;
      var saved := Snapshot();
      r := BeginTx(c);
      if r.Err? { Rollback(saved); }
      Concluded(saved, c, r);
    }

    // ---- FinalizeModelExecution --------------------------------------------

    /** The command's key must be held in progress for the same request. */
    method LoadHeld(rec: IdempotencyRecord) returns (e: Option<CommandError>)
      ensures e.None? <==> HoldsKey(Snapshot(), rec)
      ensures e.Some? ==> e.value.InvalidCommand? || e.value.IdempotencyConflict?
      ensures e.Some? && e.value.IdempotencyConflict? ==>
                rec.key in idempotency && idempotency[rec.key].requestDigest != rec.requestDigest
    {
      if rec.key !in idempotency { return Some(InvalidCommand); }
      var existing := idempotency[rec.key];
      if existing.requestDigest != rec.requestDigest { return Some(IdempotencyConflict); }
      if !existing.status.InProgress? { return Some(InvalidCommand); }
      return None;
    }

    /** Walk the transition chain, each step starting where the one before it ended. */
    method CheckChain(from: TaskStatus, transitions: seq<Transition>, taskEvents: seq<TaskEvent>, to: TaskStatus) returns (ok: bool)
      requires |transitions| == |taskEvents| > 0
      ensures ok <==> Chained(from, transitions, taskEvents) && transitions[|transitions| - 1].to == to
    {
      hide EvidenceComplete, Canonical;
      var expected := from;
      for i := 0 to |transitions|
        invariant expected == if i == 0 then from else transitions[i - 1].to
        invariant forall k | 0 <= k < i :: ChainStep(from, transitions, taskEvents, k)
      {
        assert Chained(from, transitions, taskEvents) ==> ChainStep(from, transitions, taskEvents, i);
        if transitions[i].from != expected { return false; }
        if !EvidenceComplete(transitions[i]) { return false; }
        if Canonical(transitions[i].to) != Some(taskEvents[i].eventType) { return false; }
        expected := transitions[i].to;
      }
      return expected == to;
    }

    /** Stamp, check and append the final events in order. */
    method InsertEvents(c: Command, current: Task, first: int) returns (ok: bool)
      requires c.FinalizeModel? && |c.transitions| == |c.events|
      modifies this`events
      ensures var stamped := StampAll(c.events, c.transitions, current, c.task.traceId, first, c.now, |c.events|);
              && (ok <==> AllValid(stamped))
              && (ok && |c.events| > 0 ==> events == old(events)[current.id := LogOf(old(events), current.id) + stamped])
    {
      hide ValidEvent, Stamp, StampAll;
      ghost var log := LogOf(events, current.id);
      ghost var stamped := StampAll(c.events, c.transitions, current, c.task.traceId, first, c.now, |c.events|);
      for i := 0 to |c.events|
        invariant forall k | 0 <= k < i :: ValidEvent(stamped[k])
        invariant LogOf(events, current.id) == log + stamped[..i]
        invariant i == 0 ==> events == old(events)
        invariant i > 0 ==> events == old(events)[current.id := LogOf(events, current.id)]
      {
        var event := Stamp(c.events[i], current, c.task.traceId, first + i, c.transitions[i].at, c.now);
        assert event == stamped[i];
        if !ValidEvent(event) { return false; }
        InsertEvent(event);
        assert stamped[..i + 1] == stamped[..i] + [event];
      }
      assert stamped[..|c.events|] == stamped;
      return true;
    }

    method FinalizeTx(c: Command) returns (r: Result<Outcome, CommandError>)
      requires Valid() && c.FinalizeModel?
      modifies this
      ensures Attempted(old(Snapshot()), c, Snapshot(), r)
    {
      hide ValidRecord, Authorized, InScope, CurrentMatches, Chained, FinalShape, FinalEvents, ValidEvent, Inv, Apply, EditOf;
      if !ValidRecord(c.idem) || !FinalStatus(c.idem.status) || !Authorized(c.p) || !InScope(c.idem.key, c.p) {
        return Err(InvalidCommand);
      }
      var unheld := LoadHeld(c.idem);
      if unheld.Some? { return Err(unheld.value); }
      var written := WriteFinal(c);
      return AsOutcome(written);
    }

    method WriteFinal(c: Command) returns (r: Result<int, CommandError>)
      requires Valid() && c.FinalizeModel? && HoldsKey(Snapshot(), c.idem)
      requires ValidRecord(c.idem) && FinalStatus(c.idem.status) && Authorized(c.p) && InScope(c.idem.key, c.p)
      modifies this
      ensures Wrote(old(Snapshot()), c, Snapshot(), r)
    {
      hide ValidEvent, ValidRecord, EvidenceComplete, MaxSequence, PrepareAll, AllFit, Stamp, Inv, Typed;
      hide ReservedRow, CompletedRow, Projected, Authorized, InScope, WithResource, WithCode, Apply, Next, Acquires;
      hide Chained, FinalShape, StampAll, SameContent, SameOrigin, Lasting, Replays, FinalStatus;
      ghost var before := Snapshot();
      InvIds(before, c.task.id, c.idem.key);
      var locked := LockTask(c.p, c.task.id);
      if locked.None? { return Err(NotFound); }
      var current := locked.value;
      if !current.status.TaskExecuting? { return Err(InvalidCommand); }
      if !SameIdentity(current, c.task) { return Err(InvalidCommand); }
      if c.task.version != current.version { return Err(VersionConflict); }
      if |c.transitions| != |c.events| || |c.transitions| == 0 { return Err(InvalidCommand); }
      var chained := CheckChain(current.status, c.transitions, c.events, c.task.status);
      if !chained || !FinalShape(c.task, c.transitions, c.idem.status) { return Err(InvalidCommand); }
      var sequence := NextSequence(Snapshot(), current.id);
      var version := UpdateTask(c.task, |c.transitions|);
      if version.None? { return Err(VersionConflict); }
      var appended := InsertEvents(c, current, sequence);
      assert FinalEvents(before, c) == StampAll(c.events, c.transitions, current, c.task.traceId, sequence, c.now, |c.events|);
      if !appended { return Err(InvalidCommand); }
      var completed := CompleteIdempotency(WithResource(c.idem, current.id));
      if !completed { return Err(InvalidCommand); }
      Commits(before, c, EditFinalize(before, c), Snapshot());
      return Ok(version.value);
    }

    method FinalizeModelExecution(c: Command) returns (r: Result<Outcome, CommandError>)
      requires Valid() && c.FinalizeModel?
      modifies this
      ensures Valid() && Snapshot() == Next(old(Snapshot()), c)
      ensures Reports(old(Snapshot()), c, r)
      ensures r.Ok? && r.value.Committed? ==> Leaves(old(Snapshot()), Snapshot(), c)
    {
      hide Leaves, Inv, Admits, Next;
      var saved := Snapshot();
      r := FinalizeTx(c);
      if r.Err? { Rollback(saved); }
      Concluded(saved, c, r);
    }

    // ---- MarkModelExecutionRetryable ---------------------------------------

    method MarkModelExecutionRetryable(c: Command) returns (e: Option<CommandError>)
      requires Valid() && c.MarkRetryable?
      modifies this`idempotency
      ensures Valid() && Snapshot() == Next(old(Snapshot()), c)
      ensures e.None? <==> Admits(old(Snapshot()), c)
    {
      NextKeepsInv(Snapshot(), c);
      if !ValidRecord(c.idem) || !c.idem.status.FailedRetryable? || !HasProject(c.p) || !InScope(c.idem.key, c.p) {
        return Some(InvalidCommand);
      }
      e := LoadHeld(c.idem);
      if e.Some? { return; }
      InvIds(Snapshot(), "", c.idem.key);
      var completed := CompleteIdempotency(c.idem);
    }

    // ---- Lookups -----------------------------------------------------------

    /** The finished record, if there is one; None when the key is unused or may be retried. */
    method ResolveIdempotency(p: Principal, key: IdempotencyKey, digest: string)
      returns (r: Result<Option<IdempotencyRecord>, LookupError>)
      requires Valid()
      ensures r == Resolve(Snapshot(), p, key, digest)
      ensures r.Ok? && r.value.Some? ==> key in idempotency && r.value.value == idempotency[key] && FinalStatus(r.value.value.status)
      // a finished record and a digest conflict are answers for good
      ensures Answered(r) ==> forall cs :: Resolve(RunAll(Snapshot(), cs), p, key, digest) == r
    {
      if Answered(Resolve(Snapshot(), p, key, digest)) {
        forall cs ensures Resolve(RunAll(Snapshot(), cs), p, key, digest) == Resolve(Snapshot(), p, key, digest) {
          ResolvedForGood(Snapshot(), cs, p, key, digest);
        }
      }
      hide RunAll, Inv;
      if Blank(key.operation) || Blank(key.key) || Blank(digest) { return Err(LookupInvalid); }
      if !Authorized(p) || !InScope(key, p) { return Err(LookupInvalid); }
      if key !in idempotency { return Ok(None); }
      var record := idempotency[key];
      if record.requestDigest != digest { return Err(LookupConflict); }
      match record.status {
        case Completed => r := Ok(Some(record));
        case FailedFinal => r := Ok(Some(record));
        case InProgress => r := Err(LookupInProgress);
        case FailedRetryable => r := Ok(None);
        case OtherIdempotency(_) => r := Err(LookupInvalid);
      }
    }

    method ResolveRouteSelection(p: Principal, key: IdempotencyKey, digest: string)
      returns (r: Result<Option<Selection>, LookupError>)
      requires Valid()
      ensures r == ResolveSelection(Snapshot(), p, key, digest)
      ensures r.Ok? && r.value.Some? ==>
                key in idempotency && idempotency[key].response == SelectionResponse(r.value.value)
      // a selection found is found unchanged in every later state
      ensures r.Ok? && r.value.Some? ==> forall cs :: ResolveSelection(RunAll(Snapshot(), cs), p, key, digest) == r
    {
      hide RunAll, Inv;
      var found := ResolveIdempotency(p, key, digest);
      if found.Err? { return Err(found.error); }
      if found.value.None? { return Ok(None); }
      var record := found.value.value;
      if !record.status.Completed? || record.resourceId == "" || !record.response.SelectionResponse? {
        return Err(ReplayIncomplete);
      }
      var s := record.response.selection;
      if s.decision.id == "" || s.decision.taskId != record.resourceId { return Err(ReplayIncomplete); }
      if s.target.id == "" || s.target.digest == "" { return Err(ReplayIncomplete); }
      return Ok(Some(s));
    }

    // ---- Other clients -----------------------------------------------------

    /** One command by whichever method it names; the outcome goes to its own client. */
    method Execute(c: Command)
      requires Valid()
      modifies this
      ensures Valid() && Snapshot() == Next(old(Snapshot()), c)
    {
      match c {
        case CreateTask(_, _, _, _, _, _) => var _ := CreateTask(c);
        case CommitTransition(_, _, _, _, _, _, _) => var _ := CommitTransition(c);
        case CommitRoute(_, _, _, _, _, _, _, _) => var _ := CommitRouteTransition(c);
        case SelectRoute(_, _, _, _, _, _) => var _ := CommitRouteSelection(c);
        case BeginModel(_, _, _, _, _, _) => var _ := BeginModelExecution(c);
        case FinalizeModel(_, _, _, _, _, _) => var _ := FinalizeModelExecution(c);
        case MarkRetryable(_, _) => var _ := MarkModelExecutionRetryable(c);
      }
    }

    /** Any commands by any clients: every history of the store is a run of the kernel. */
    method Interleave(cs: seq<Command>)
      requires Valid()
      modifies this
      ensures Valid() && Snapshot() == RunAll(old(Snapshot()), cs)
      decreases |cs|
    {
      if cs != [] {
        hide Next, Inv;
        Execute(cs[0]);
        Interleave(cs[1..]);
      }
    }
  }
}
