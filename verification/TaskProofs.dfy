/** What every interleaving of kernel commands keeps. */
module TaskProofs {
  import opened Common
  import opened Tasks
  import opened TaskKernel

  // ---- The log and the projection agree ------------------------------------

  /** The status an event log describes: its last state event, skipping events that record no status. */
  function Fold(events: seq<TaskEvent>): Option<TaskStatus> {
    if events == [] then None
    else
      var s := StatusOf(events[|events| - 1].eventType);
      if s.Some? then s else Fold(events[..|events| - 1])
  }

  /** Version counts the events, sequences are 1..n, and folding the log gives the persisted status. */
  ghost predicate LogAgrees(t: Task, events: seq<TaskEvent>) {
    && t.version == |events|
    && (forall i | 0 <= i < |events| :: events[i].sequence == i + 1 && events[i].taskId == t.id)
    && Fold(events) == Some(t.status)
  }

  ghost predicate Inv(db: Db) {
    && (forall id | id in db.tasks :: db.tasks[id].id == id && id in db.events && LogAgrees(db.tasks[id], db.events[id]))
    && (forall id | id in db.events :: id in db.tasks)
    && (forall k | k in db.idempotency :: db.idempotency[k].key == k)
  }

  lemma {:induction false} MaxSequenceIsLength(events: seq<TaskEvent>)
    requires forall i | 0 <= i < |events| :: events[i].sequence == i + 1
    ensures MaxSequence(events) == |events|
  {
    if events != [] {
      MaxSequenceIsLength(events[..|events| - 1]);
    }
  }

  /** One more event with the next sequence and, if it is a state event, the new status. */
  lemma AppendOne(before: Task, after: Task, events: seq<TaskEvent>, e: TaskEvent)
    requires LogAgrees(before, events)
    requires after.id == before.id && after.version == before.version + 1
    requires e.sequence == |events| + 1 && e.taskId == before.id
    requires StatusOf(e.eventType) == if after.status == before.status && e.eventType.TaskRouteSelected? then None else Some(after.status)
    ensures LogAgrees(after, events + [e])
  {
    assert (events + [e])[..|events|] == events;
  }

  /** What an edit must do for the invariant to survive it. */
  ghost predicate EditAgrees(db: Db, e: Edit) {
    e.task.Some? ==> LogAgrees(e.task.value, EventsOf(db, e.task.value.id) + e.events)
  }

  lemma ApplyKeepsInv(db: Db, e: Edit)
    requires Inv(db) && EditAgrees(db, e)
    ensures Inv(Apply(db, e))
  {
  }

  lemma SingleEventAgrees(db: Db, before: Task, after: Task, e: TaskEvent)
    requires Inv(db) && before.id in db.tasks && db.tasks[before.id] == before
    requires after.id == before.id && after.version == before.version + 1
    requires e.sequence == NextSequence(db, before.id) && e.taskId == before.id
    requires StatusOf(e.eventType) == if after.status == before.status && e.eventType.TaskRouteSelected? then None else Some(after.status)
    ensures LogAgrees(after, EventsOf(db, before.id) + [e])
  {
    MaxSequenceIsLength(EventsOf(db, before.id));
    AppendOne(before, after, EventsOf(db, before.id), e);
  }

  lemma FinalizeAgrees(db: Db, c: Command)
    requires Inv(db) && c.FinalizeModel? && AdmitsFinalize(db, c)
    ensures EditAgrees(db, EditFinalize(db, c))
  {
    hide ValidEvent, ValidRecord, EvidenceComplete, HoldsKey, MaxSequence, Fold;
    var current, log, es := db.tasks[c.task.id], EventsOf(db, c.task.id), FinalEvents(db, c);
    var final := Projected(current, c.task, |c.transitions|);
    MaxSequenceIsLength(log);
    assert ChainStep(TaskExecuting, c.transitions, c.events, 0);
    if |es| == 1 {
      AppendOne(current, final, log, es[0]);
      assert log + es == log + [es[0]];
    } else {
      assert ChainStep(TaskExecuting, c.transitions, c.events, 1);
      var middle := current.(status := TaskValidating, version := current.version + 1);
      AppendOne(current, middle, log, es[0]);
      AppendOne(middle, final, log + [es[0]], es[1]);
      assert log + es == log + [es[0]] + [es[1]];
    }
  }

  lemma CreateAgrees(db: Db, c: Command)
    requires Inv(db) && c.CreateTask? && AdmitsCreate(db, c)
    ensures EditAgrees(db, EditCreate(db, c))
  {
    hide ValidEvent, ValidRecord, Blank, AllFit, PrepareAll, Acquires, ReservedRow, CompletedRow, CreatorMatches;
    assert EventsOf(db, c.task.id) + [CreatedEvent(c)] == [CreatedEvent(c)];
  }

  lemma TransitionAgrees(db: Db, c: Command)
    requires Inv(db) && c.CommitTransition? && AdmitsTransition(db, c)
    ensures EditAgrees(db, EditTransition(db, c))
  {
    hide ValidEvent, ValidRecord, EvidenceComplete, AllFit, PrepareAll, Acquires, ReservedRow, CompletedRow, MaxSequence, LogAgrees, Fold;
    SingleEventAgrees(db, db.tasks[c.task.id], EditTransition(db, c).task.value, TransitionEvent(db, c));
  }

  lemma RouteAgrees(db: Db, c: Command)
    requires Inv(db) && c.CommitRoute? && AdmitsRoute(db, c)
    ensures EditAgrees(db, EditRoute(db, c))
  {
    hide ValidEvent, ValidRecord, EvidenceComplete, AllFit, PrepareAll, Acquires, ReservedRow, CompletedRow, MaxSequence, LogAgrees, Fold;
    SingleEventAgrees(db, db.tasks[c.task.id], EditRoute(db, c).task.value, RouteEvent(db, c));
  }

  lemma SelectionAgrees(db: Db, c: Command)
    requires Inv(db) && c.SelectRoute? && AdmitsSelection(db, c)
    ensures EditAgrees(db, EditSelection(db, c))
  {
    hide ValidEvent, ValidRecord, EvidenceComplete, AllFit, PrepareAll, Acquires, ReservedRow, CompletedRow, MaxSequence, LogAgrees, Fold;
    SingleEventAgrees(db, db.tasks[c.task.id], EditSelection(db, c).task.value, SelectionEvent(db, c));
  }

  lemma BeginAgrees(db: Db, c: Command)
    requires Inv(db) && c.BeginModel? && AdmitsBegin(db, c)
    ensures EditAgrees(db, EditBegin(db, c))
  {
    hide ValidEvent, ValidRecord, EvidenceComplete, Acquires, ReservedRow, MaxSequence, LogAgrees, Fold;
    if c.start.Some? {
      SingleEventAgrees(db, db.tasks[c.task.id], EditBegin(db, c).task.value, BeginEvent(db, c));
    }
  }

  lemma CommandAgrees(db: Db, c: Command)
    requires Inv(db) && Admits(db, c)
    ensures EditAgrees(db, EditOf(db, c))
  {
    hide AdmitsCreate, AdmitsTransition, AdmitsRoute, AdmitsSelection, AdmitsBegin, AdmitsFinalize;
    hide EditCreate, EditTransition, EditRoute, EditSelection, EditBegin, EditFinalize, Inv;
    match c
    case CreateTask(_, _, _, _, _, _) => CreateAgrees(db, c);
    case CommitTransition(_, _, _, _, _, _, _) => TransitionAgrees(db, c);
    case CommitRoute(_, _, _, _, _, _, _, _) => RouteAgrees(db, c);
    case SelectRoute(_, _, _, _, _, _) => SelectionAgrees(db, c);
    case BeginModel(_, _, _, _, _, _) => BeginAgrees(db, c);
    case FinalizeModel(_, _, _, _, _, _) => FinalizeAgrees(db, c);
    case MarkRetryable(_, _) =>
  }

  lemma NextKeepsInv(db: Db, c: Command)
    requires Inv(db)
    ensures Inv(Next(db, c))
  {
    if Admits(db, c) {
      CommandAgrees(db, c);
      ApplyKeepsInv(db, EditOf(db, c));
    }
  }

  lemma {:induction false} RunKeepsInv(db: Db, cs: seq<Command>)
    requires Inv(db)
    ensures Inv(RunAll(db, cs))
    decreases |cs|
  {
    if cs != [] {
      NextKeepsInv(db, cs[0]);
      RunKeepsInv(Next(db, cs[0]), cs[1..]);
    }
  }

  /** Event sourcing: in every reachable database, each task is exactly what its own log says. */
  lemma LogIsTheTask(cs: seq<Command>, id: string)
    requires id in RunAll(EMPTY, cs).tasks
    ensures var db := RunAll(EMPTY, cs);
            && id in db.events
            && db.tasks[id].version == |db.events[id]|
            && (forall i | 0 <= i < |db.events[id]| :: db.events[id][i].sequence == i + 1)
            && Fold(db.events[id]) == Some(db.tasks[id].status)
  {
    RunKeepsInv(EMPTY, cs);
  }

  // ---- Legal lifecycles ----------------------------------------------------

  /** The next event of a log may start it, keep its status, or move it along an edge of the lifecycle. */
  predicate LegalNext(status: Option<TaskStatus>, e: EventType) {
    match StatusOf(e)
    case None => status.Some?
    case Some(s) => if status.None? then s.TaskCreated? else CanTransition(status.value, s)
  }

  predicate Legal(events: seq<TaskEvent>) {
    events != [] ==>
      Legal(events[..|events| - 1]) && LegalNext(Fold(events[..|events| - 1]), events[|events| - 1].eventType)
  }

  ghost predicate LegalDb(db: Db) {
    forall id | id in db.events :: Legal(db.events[id])
  }

  lemma LegalAppend(events: seq<TaskEvent>, e: TaskEvent)
    requires Legal(events)
    ensures Legal(events + [e]) <==> LegalNext(Fold(events), e.eventType)
  {
    assert (events + [e])[..|events|] == events;
  }

  lemma LegalPair(events: seq<TaskEvent>, a: TaskEvent, b: TaskEvent)
    requires Legal(events) && LegalNext(Fold(events), a.eventType) && StatusOf(a.eventType).Some?
    requires LegalNext(StatusOf(a.eventType), b.eventType)
    ensures Legal(events + [a, b])
  {
    LegalAppend(events, a);
    assert (events + [a])[..|events|] == events;
    LegalAppend(events + [a], b);
    assert events + [a, b] == events + [a] + [b];
  }

  /** CommitTransition checks the evidence, not the lifecycle: the log stays legal iff the transition is an edge. */
  lemma TransitionLegalIff(db: Db, c: Command)
    requires Inv(db) && LegalDb(db) && c.CommitTransition? && Admits(db, c)
    ensures LegalDb(Next(db, c)) <==> CanTransition(c.transition.from, c.transition.to)
  {
    hide ValidEvent, ValidRecord, EvidenceComplete, AllFit, PrepareAll, Acquires, ReservedRow, CompletedRow, MaxSequence, Legal, Fold;
    var id, db' := c.task.id, Next(db, c);
    LegalAppend(EventsOf(db, id), TransitionEvent(db, c));
    assert db'.events[id] == EventsOf(db, id) + [TransitionEvent(db, c)];
    assert forall other | other in db'.events && other != id :: db'.events[other] == db.events[other];
  }

  /** The events an edit appends are legal after the log so far. */
  ghost predicate EditLegal(db: Db, e: Edit) {
    e.task.Some? ==> Legal(EventsOf(db, e.task.value.id) + e.events)
  }

  lemma SingleEventLegal(db: Db, id: string, e: TaskEvent)
    requires Inv(db) && LegalDb(db) && id in db.tasks
    requires LegalNext(Some(db.tasks[id].status), e.eventType)
    ensures Legal(EventsOf(db, id) + [e])
  {
    LegalAppend(EventsOf(db, id), e);
  }

  lemma FinalizeLegal(db: Db, c: Command)
    requires Inv(db) && LegalDb(db) && c.FinalizeModel? && AdmitsFinalize(db, c)
    ensures EditLegal(db, EditFinalize(db, c))
  {
    hide Legal, Fold, ValidEvent, ValidRecord, EvidenceComplete, MaxSequence, HoldsKey, CompletedRow;
    var log, es := EventsOf(db, c.task.id), FinalEvents(db, c);
    assert ChainStep(TaskExecuting, c.transitions, c.events, 0);
    if |es| == 1 {
      SingleEventLegal(db, c.task.id, es[0]);
      assert log + es == log + [es[0]];
    } else {
      assert ChainStep(TaskExecuting, c.transitions, c.events, 1);
      LegalPair(log, es[0], es[1]);
      assert log + es == log + [es[0], es[1]];
    }
  }

  lemma CreateLegal(db: Db, c: Command)
    requires Inv(db) && c.CreateTask? && AdmitsCreate(db, c)
    ensures EditLegal(db, EditCreate(db, c))
  {
    LegalAppend([], CreatedEvent(c));
    assert EventsOf(db, c.task.id) == [];
  }

  lemma RouteLegal(db: Db, c: Command)
    requires Inv(db) && LegalDb(db) && c.CommitRoute? && AdmitsRoute(db, c)
    ensures EditLegal(db, EditRoute(db, c))
  {
    hide ValidEvent, ValidRecord, EvidenceComplete, AllFit, PrepareAll, Acquires, ReservedRow, CompletedRow, MaxSequence, Legal, Fold, LogAgrees;
    SingleEventLegal(db, c.task.id, RouteEvent(db, c));
  }

  lemma SelectionLegal(db: Db, c: Command)
    requires Inv(db) && LegalDb(db) && c.SelectRoute? && AdmitsSelection(db, c)
    ensures EditLegal(db, EditSelection(db, c))
  {
    hide ValidEvent, ValidRecord, EvidenceComplete, AllFit, PrepareAll, Acquires, ReservedRow, CompletedRow, MaxSequence, Legal, Fold, LogAgrees;
    SingleEventLegal(db, c.task.id, SelectionEvent(db, c));
  }

  lemma BeginLegal(db: Db, c: Command)
    requires Inv(db) && LegalDb(db) && c.BeginModel? && AdmitsBegin(db, c)
    ensures EditLegal(db, EditBegin(db, c))
  {
    hide ValidEvent, ValidRecord, EvidenceComplete, Acquires, ReservedRow, MaxSequence, Legal, Fold, LogAgrees;
    if c.start.Some? {
      SingleEventLegal(db, c.task.id, BeginEvent(db, c));
    }
  }

  /** Every other command keeps the log legal by its own checks. */
  lemma OthersStayLegal(db: Db, c: Command)
    requires Inv(db) && LegalDb(db) && !c.CommitTransition? && Admits(db, c)
    ensures LegalDb(Next(db, c))
  {
    hide AdmitsCreate, AdmitsRoute, AdmitsSelection, AdmitsBegin, AdmitsFinalize, AdmitsTransition;
    hide EditCreate, EditRoute, EditSelection, EditBegin, EditFinalize, EditTransition, Inv;
    match c
    case CreateTask(_, _, _, _, _, _) => CreateLegal(db, c);
    case CommitRoute(_, _, _, _, _, _, _, _) => RouteLegal(db, c);
    case SelectRoute(_, _, _, _, _, _) => SelectionLegal(db, c);
    case BeginModel(_, _, _, _, _, _) => BeginLegal(db, c);
    case FinalizeModel(_, _, _, _, _, _) => FinalizeLegal(db, c);
    case MarkRetryable(_, _) =>
  }

  /** The command carries a task and a transition that Task.Transition produced. */
  ghost predicate WellBuilt(c: Command) {
    c.CommitTransition? ==> exists t, m :: Move(t, m) == Ok((c.task, c.transition))
  }

  lemma NextStaysLegal(db: Db, c: Command)
    requires Inv(db) && LegalDb(db) && WellBuilt(c)
    ensures LegalDb(Next(db, c))
  {
    if Admits(db, c) {
      if c.CommitTransition? {
        var t, m :| Move(t, m) == Ok((c.task, c.transition));
        TransitionLegalIff(db, c);
      } else {
        OthersStayLegal(db, c);
      }
    }
  }

  /** Commands built with Task.Transition keep every task on a legal lifecycle path, in every run. */
  lemma {:induction false} RunStaysLegal(db: Db, cs: seq<Command>)
    requires Inv(db) && LegalDb(db) && forall i | 0 <= i < |cs| :: WellBuilt(cs[i])
    ensures LegalDb(RunAll(db, cs))
    decreases |cs|
  {
    if cs != [] {
      NextKeepsInv(db, cs[0]);
      NextStaysLegal(db, cs[0]);
      RunStaysLegal(Next(db, cs[0]), cs[1..]);
    }
  }

  /** The task an admitted command writes is its own, and either new or in the status the command leaves. */
  lemma TouchedTaskWasLive(db: Db, c: Command)
    requires Inv(db) && Admits(db, c) && EditOf(db, c).task.Some?
    requires c.CommitTransition? ==> !IsTerminal(c.transition.from)
    ensures EditOf(db, c).task.value.id in db.tasks ==> !IsTerminal(db.tasks[EditOf(db, c).task.value.id].status)
  {
    hide ValidEvent, ValidRecord, MaxSequence, AllFit, PrepareAll, Acquires, ReservedRow, CompletedRow, LogAgrees;
    hide Stamp, StampAll, FinalEvents, ChainStep, EvidenceComplete;
    assert c.task.id in db.tasks ==> db.tasks[c.task.id].id == c.task.id;
  }

  /** A well-built command leaves a terminal task alone. */
  lemma TerminalUntouched(db: Db, c: Command, id: string)
    requires Inv(db) && id in db.tasks && IsTerminal(db.tasks[id].status) && WellBuilt(c)
    ensures id in Next(db, c).tasks && Next(db, c).tasks[id] == db.tasks[id]
    ensures EventsOf(Next(db, c), id) == EventsOf(db, id)
  {
    hide Admits, EditOf, Inv;
    if Admits(db, c) && EditOf(db, c).task.Some? {
      if c.CommitTransition? {
        var t, m :| Move(t, m) == Ok((c.task, c.transition));
      }
      TouchedTaskWasLive(db, c);
    }
  }

  /** Under the same premise a terminal task is final: neither its row nor its log ever changes again. */
  lemma {:induction false} TerminalIsFinal(db: Db, cs: seq<Command>, id: string)
    requires Inv(db) && id in db.tasks && IsTerminal(db.tasks[id].status)
    requires forall i | 0 <= i < |cs| :: WellBuilt(cs[i])
    ensures id in RunAll(db, cs).tasks && RunAll(db, cs).tasks[id] == db.tasks[id]
    ensures EventsOf(RunAll(db, cs), id) == EventsOf(db, id)
    decreases |cs|
  {
    if cs != [] {
      hide Next, WellBuilt, Inv;
      TerminalUntouched(db, cs[0], id);
      NextKeepsInv(db, cs[0]);
      TerminalIsFinal(Next(db, cs[0]), cs[1..], id);
    }
  }

  /** Without the premise it is not: a hand-built command that reopens a finished task is admitted. */
  lemma ReopensFinishedTask(db: Db, p: Principal, id: string, key: IdempotencyKey) returns (c: Command)
    requires Inv(db) && id in db.tasks && IsTerminal(db.tasks[id].status)
    requires Authorized(p) && db.tasks[id].tenantId == p.tenantId && db.tasks[id].projectId == p.projectId
    requires !Blank(id) && !Blank(p.tenantId) && !Blank(p.projectId) && !Blank(db.tasks[id].traceId)
    requires InScope(key, p) && !Blank(key.operation) && !Blank(key.key) && key !in db.idempotency
    ensures c.CommitTransition? && Admits(db, c)
    ensures Next(db, c).tasks[id].status == TaskPlanning
  {
    hide Fold, MaxSequence;
    var current := db.tasks[id];
    assert !Blank("x") by { assert !IsSpace("x"[0]); }
    var event := TaskEvent("x", "", "", "", 0, TaskPlanningStarted, "x", "x", Value("x"), "", "", 0, 0, 0);
    c := CommitTransition(p, 1, current.(status := TaskPlanning),
                          Transition(current.status, TaskPlanning, "x", "x", 1), event, [],
                          IdempotencyRecord(key, "x", Completed, "", 0, "", NoResponse, 1, 2));
    MaxSequenceIsLength(EventsOf(db, id));
  }

  // ---- Idempotency ---------------------------------------------------------

  /** No key is dropped, no digest changes, and a finished record is immutable. */
  ghost predicate RecordsExtend(a: Db, b: Db) {
    forall k | k in a.idempotency ::
      && k in b.idempotency
      && b.idempotency[k].requestDigest == a.idempotency[k].requestDigest
      && (FinalStatus(a.idempotency[k].status) ==> b.idempotency[k] == a.idempotency[k])
  }

  /** An admitted command writes its own key only, and only while that key is new, held or retryable. */
  lemma OwnRecordOnly(db: Db, c: Command)
    requires Inv(db) && Admits(db, c)
    ensures EditOf(db, c).idem.key == c.idem.key
    ensures EditOf(db, c).idem.requestDigest == c.idem.requestDigest
    ensures c.idem.key in db.idempotency ==>
              db.idempotency[c.idem.key].requestDigest == c.idem.requestDigest
              && !FinalStatus(db.idempotency[c.idem.key].status)
  {
    hide ValidEvent, ValidRecord, EvidenceComplete, AllFit, PrepareAll, LogAgrees, MaxSequence, FinalEvents, Stamp, ChainStep, CurrentMatches;
    assert c.idem.key in db.idempotency ==> db.idempotency[c.idem.key].key == c.idem.key;
  }

  lemma NextExtendsRecords(db: Db, c: Command)
    requires Inv(db)
    ensures RecordsExtend(db, Next(db, c))
  {
    hide Admits, EditOf;
    if Admits(db, c) {
      OwnRecordOnly(db, c);
    }
  }

  lemma {:induction false} RecordsOnlyExtend(db: Db, cs: seq<Command>)
    requires Inv(db)
    ensures RecordsExtend(db, RunAll(db, cs))
    decreases |cs|
  {
    if cs != [] {
      hide Next, Inv;
      NextExtendsRecords(db, cs[0]);
      NextKeepsInv(db, cs[0]);
      RecordsOnlyExtend(Next(db, cs[0]), cs[1..]);
    }
  }

  /** A duplicate of a finished command, and any command with a foreign digest, writes nothing, now or later. */
  lemma DuplicatesWriteNothing(db: Db, cs: seq<Command>, c: Command)
    requires Inv(db) && c.idem.key in db.idempotency
    requires FinalStatus(db.idempotency[c.idem.key].status) ||
             db.idempotency[c.idem.key].requestDigest != c.idem.requestDigest
    ensures var later := RunAll(db, cs);
            && !Admits(later, c) && Next(later, c) == later
            && (Replays(db, c.idem) ==> Replays(later, c.idem))
            && (Replays(db, c.idem) ==> later.idempotency[c.idem.key] == db.idempotency[c.idem.key])
  {
    RecordsOnlyExtend(db, cs);
  }

  // ---- Frozen binding ------------------------------------------------------

  datatype LookupError = LookupInvalid | LookupConflict | LookupInProgress | ReplayIncomplete

  /** ResolveIdempotency: the finished record, nothing, or an error. */
  function Resolve(db: Db, p: Principal, key: IdempotencyKey, digest: string): Result<Option<IdempotencyRecord>, LookupError> {
    if Blank(key.operation) || Blank(key.key) || Blank(digest) || !Authorized(p) || !InScope(key, p) then Err(LookupInvalid)
    else if key !in db.idempotency then Ok(None)
    else if db.idempotency[key].requestDigest != digest then Err(LookupConflict)
    else match db.idempotency[key].status
      case Completed => Ok(Some(db.idempotency[key]))
      case FailedFinal => Ok(Some(db.idempotency[key]))
      case InProgress => Err(LookupInProgress)
      case FailedRetryable => Ok(None)
      case OtherIdempotency(_) => Err(LookupInvalid)
  }

  /** ResolveRouteSelection */
  function ResolveSelection(db: Db, p: Principal, key: IdempotencyKey, digest: string): Result<Option<Selection>, LookupError> {
    match Resolve(db, p, key, digest)
    case Err(e) => Err(e)
    case Ok(None) => Ok(None)
    case Ok(Some(record)) =>
      if !record.status.Completed? || record.resourceId == "" || !record.response.SelectionResponse? then Err(ReplayIncomplete)
      else
        var s := record.response.selection;
        if s.decision.id == "" || s.decision.taskId != record.resourceId || s.target.id == "" || s.target.digest == ""
        then Err(ReplayIncomplete)
        else Ok(Some(s))
  }

  /** The lookup has an answer that no later command can change. */
  predicate Answered(r: Result<Option<IdempotencyRecord>, LookupError>) {
    (r.Ok? && r.value.Some?) || (r.Err? && r.error.LookupConflict?)
  }

  /** A finished record, and a conflict of digests, look the same in every later state. */
  lemma ResolvedForGood(db: Db, cs: seq<Command>, p: Principal, key: IdempotencyKey, digest: string)
    requires Inv(db) && Answered(Resolve(db, p, key, digest))
    ensures Resolve(RunAll(db, cs), p, key, digest) == Resolve(db, p, key, digest)
  {
    RecordsOnlyExtend(db, cs);
    hide RunAll, Blank, Inv;
  }

  /**
   Once a route selection commits, every later lookup of its key returns the same plan revision, node,
   decision, policy and target, whatever other commands run in between.
   */
  lemma FrozenBinding(db: Db, c: Command, cs: seq<Command>)
    requires Inv(db) && c.SelectRoute? && Admits(db, c)
    ensures ResolveSelection(RunAll(Next(db, c), cs), c.p, c.idem.key, c.idem.requestDigest) == Ok(Some(c.selection))
  {
    hide ValidEvent, EvidenceComplete, LogAgrees, MaxSequence, Stamp, RunAll;
    var db' := Next(db, c);
    NextKeepsInv(db, c);
    RecordsOnlyExtend(db', cs);
    assert db'.idempotency[c.idem.key].response == SelectionResponse(c.selection);
    assert RunAll(db', cs).idempotency[c.idem.key] == db'.idempotency[c.idem.key];
  }
}
