/**
 Single-flight model execution: BeginModelExecution authorises one provider call for an idempotency key,
 and only a recorded retryable failure frees the key for another.
 */
module ModelFlight {
  import opened Common
  import opened Tasks
  import opened TaskKernel
  import opened TaskProofs

  // ---- Counting authorisations ---------------------------------------------

  /** The key is taken: its record is in progress or finished. */
  predicate Taken(db: Db, k: IdempotencyKey) {
    k in db.idempotency && (db.idempotency[k].status.InProgress? || FinalStatus(db.idempotency[k].status))
  }

  function Bit(b: bool): nat {
    if b then 1 else 0
  }

  /** The command takes the key when admitted. */
  predicate Takes(c: Command, k: IdempotencyKey) {
    c.idem.key == k && !c.FinalizeModel? && !c.MarkRetryable?
  }

  /** The command leaves the key open to a retry when admitted. */
  predicate Frees(c: Command, k: IdempotencyKey) {
    c.idem.key == k && (c.MarkRetryable? || (c.CommitTransition? && c.idem.status.FailedRetryable?))
  }

  function Takings(db: Db, cs: seq<Command>, k: IdempotencyKey): nat
    decreases |cs|
  {
    if cs == [] then 0
    else Bit(Takes(cs[0], k) && Admits(db, cs[0])) + Takings(Next(db, cs[0]), cs[1..], k)
  }

  function Freeings(db: Db, cs: seq<Command>, k: IdempotencyKey): nat
    decreases |cs|
  {
    if cs == [] then 0
    else Bit(Frees(cs[0], k) && Admits(db, cs[0])) + Freeings(Next(db, cs[0]), cs[1..], k)
  }

  lemma EditedRecord(db: Db, c: Command)
    requires Inv(db) && Admits(db, c)
    ensures Next(db, c).idempotency == db.idempotency[c.idem.key := EditOf(db, c).idem]
    ensures EditOf(db, c).idem.status == c.idem.status
    ensures Takes(c, c.idem.key) <==> !Taken(db, c.idem.key)
    ensures c.BeginModel? ==> c.idem.status.InProgress?
    ensures FinalStatus(c.idem.status) || c.idem.status.InProgress? <==> !Frees(c, c.idem.key)
  {
    hide ValidEvent, EvidenceComplete, AllFit, PrepareAll, LogAgrees, MaxSequence, FinalEvents, Stamp, ChainStep, CurrentMatches;
    OwnRecordOnly(db, c);
  }

  lemma StepBalance(db: Db, c: Command, k: IdempotencyKey)
    requires Inv(db)
    ensures Bit(Takes(c, k) && Admits(db, c)) + Bit(Taken(db, k))
            == Bit(Frees(c, k) && Admits(db, c)) + Bit(Taken(Next(db, c), k))
  {
    hide Admits, EditOf, Inv;
    if Admits(db, c) {
      hide Next;
      EditedRecord(db, c);
    }
  }

  /**
   Conservation, for every run and every key: the commands admitted under a key are the retryable endings
   recorded for it, plus one exactly when its record is in progress, completed or failed for good.
   */
  lemma {:induction false} Balance(db: Db, cs: seq<Command>, k: IdempotencyKey)
    requires Inv(db)
    ensures Takings(db, cs, k) + Bit(Taken(db, k)) == Freeings(db, cs, k) + Bit(Taken(RunAll(db, cs), k))
    decreases |cs|
  {
    if cs != [] {
      hide Next, Inv, Taken, Takes, Frees;
      StepBalance(db, cs[0], k);
      NextKeepsInv(db, cs[0]);
      Balance(Next(db, cs[0]), cs[1..], k);
    }
  }

  // ---- Model keys belong to model commands ---------------------------------

  predicate IsModel(c: Command) {
    c.BeginModel? || c.FinalizeModel? || c.MarkRetryable?
  }

  const TASKS_PATH := "POST /api/v1/tasks"

  function ModelOperation(taskId: string): string {
    TASKS_PATH + "/" + Trim(taskId) + "/model"
  }

  function RouteOperation(taskId: string): string {
    TASKS_PATH + "/" + Trim(taskId) + "/route"
  }

  /** The operations that the other commands are issued under. */
  ghost predicate OtherOperation(op: string) {
    || op == TASKS_PATH
    || (exists id :: op == RouteOperation(id))
    || (exists id :: op == "task:route:planning:" + id)
    || (exists v :: op == "workflow:task-route-select:" + v)
  }

  /** No other command can name a model key, whatever the task ids are. */
  lemma ModelOperationIsPrivate(taskId: string, op: string)
    requires OtherOperation(op)
    ensures ModelOperation(taskId) != op
  {
    var m := ModelOperation(taskId);
    assert m[|m| - 1] == 'l' && m[0] == 'P';
    assert TASKS_PATH[|TASKS_PATH| - 1] == 's';
    forall id ensures RouteOperation(id)[|RouteOperation(id)| - 1] == 'e' {}
    forall id ensures ("task:route:planning:" + id)[0] == 't' {}
    forall v ensures ("workflow:task-route-select:" + v)[0] == 'w' {}
  }

  /** Provider calls authorised for a key. */
  function Authorised(db: Db, cs: seq<Command>, k: IdempotencyKey): nat
    decreases |cs|
  {
    if cs == [] then 0
    else Bit(cs[0].BeginModel? && cs[0].idem.key == k && Admits(db, cs[0])) + Authorised(Next(db, cs[0]), cs[1..], k)
  }

  function RetryableFailures(db: Db, cs: seq<Command>, k: IdempotencyKey): nat
    decreases |cs|
  {
    if cs == [] then 0
    else Bit(cs[0].MarkRetryable? && cs[0].idem.key == k && Admits(db, cs[0])) + RetryableFailures(Next(db, cs[0]), cs[1..], k)
  }

  lemma {:induction false} ModelCounts(db: Db, cs: seq<Command>, k: IdempotencyKey)
    requires forall i | 0 <= i < |cs| && cs[i].idem.key == k :: IsModel(cs[i])
    ensures Authorised(db, cs, k) == Takings(db, cs, k)
    ensures RetryableFailures(db, cs, k) == Freeings(db, cs, k)
    decreases |cs|
  {
    if cs != [] {
      assert cs[0].idem.key == k ==> IsModel(cs[0]);
      ModelCounts(Next(db, cs[0]), cs[1..], k);
    }
  }

  /** Single flight from an empty database: calls = retryable failures + one iff the record is taken. */
  lemma SingleFlightCount(cs: seq<Command>, k: IdempotencyKey)
    requires forall i | 0 <= i < |cs| && cs[i].idem.key == k :: IsModel(cs[i])
    ensures Authorised(EMPTY, cs, k) == RetryableFailures(EMPTY, cs, k) + Bit(Taken(RunAll(EMPTY, cs), k))
  {
    ModelCounts(EMPTY, cs, k);
    Balance(EMPTY, cs, k);
  }

  // ---- Clients, crashes and overlapping calls ------------------------------

  type Client = nat

  /** The database and, per client, the key of the provider call it has outstanding. */
  datatype System = System(db: Db, flights: map<Client, IdempotencyKey>)

  datatype Step =
    | Begin(client: Client, command: Command)   // BeginModelExecution; the provider call starts if admitted
    | Finish(client: Client, command: Command)  // the call returned; finalize or mark retryable
    | Crash(client: Client)                     // the client dies with its call outstanding
    | Other(command: Command)                   // any command under another operation

  /** A client calls begin first, and finalizes only the key its own call ran under. */
  predicate Enabled(s: System, step: Step, modelKeys: set<IdempotencyKey>) {
    match step
    case Begin(client, c) => c.BeginModel? && client !in s.flights && c.idem.key in modelKeys
    case Finish(client, c) => (c.FinalizeModel? || c.MarkRetryable?) && client in s.flights && s.flights[client] == c.idem.key
    case Crash(client) => client in s.flights
    case Other(c) => c.idem.key !in modelKeys
  }

  function Take(s: System, step: Step): System {
    match step
    case Begin(client, c) =>
      System(Next(s.db, c), if Admits(s.db, c) then s.flights[client := c.idem.key] else s.flights)
    case Finish(client, c) => System(Next(s.db, c), s.flights - {client})
    case Crash(client) => System(s.db, s.flights - {client})
    case Other(c) => System(Next(s.db, c), s.flights)
  }

  ghost predicate Run(s: System, steps: seq<Step>, modelKeys: set<IdempotencyKey>)
    decreases |steps|
  {
    steps != [] ==> Enabled(s, steps[0], modelKeys) && Run(Take(s, steps[0]), steps[1..], modelKeys)
  }

  function After(s: System, steps: seq<Step>): System
    decreases |steps|
  {
    if steps == [] then s else After(Take(s, steps[0]), steps[1..])
  }

  predicate InFlight(db: Db, k: IdempotencyKey) {
    k in db.idempotency && db.idempotency[k].status.InProgress?
  }

  /** Every outstanding call holds its key in progress, and no two share one. */
  ghost predicate Single(s: System, modelKeys: set<IdempotencyKey>) {
    && Inv(s.db)
    && (forall a | a in s.flights :: InFlight(s.db, s.flights[a]) && s.flights[a] in modelKeys)
    && (forall a, b | a in s.flights && b in s.flights && s.flights[a] == s.flights[b] :: a == b)
  }

  lemma TakeKeepsSingle(s: System, step: Step, modelKeys: set<IdempotencyKey>)
    requires Single(s, modelKeys) && Enabled(s, step, modelKeys)
    ensures Single(Take(s, step), modelKeys)
  {
    hide Admits, EditOf, Inv, Next;
    if !step.Crash? {
      NextKeepsInv(s.db, step.command);
      StepOnKey(s.db, step.command);
    }
  }

  /** What one command does to in-progress keys. */
  lemma StepOnKey(db: Db, c: Command)
    requires Inv(db)
    ensures forall k | k != c.idem.key :: InFlight(Next(db, c), k) <==> InFlight(db, k)
    ensures c.BeginModel? && Admits(db, c) ==> !InFlight(db, c.idem.key) && InFlight(Next(db, c), c.idem.key)
    ensures c.BeginModel? && InFlight(db, c.idem.key) ==> InFlight(Next(db, c), c.idem.key)
  {
    hide Admits, EditOf, Inv;
    if Admits(db, c) {
      hide Next;
      EditedRecord(db, c);
    }
  }

  /** Two provider calls under one idempotency key never overlap, in any run with any crashes. */
  lemma {:induction false} CallsNeverOverlap(s: System, steps: seq<Step>, modelKeys: set<IdempotencyKey>)
    requires Single(s, modelKeys) && Run(s, steps, modelKeys)
    ensures Single(After(s, steps), modelKeys)
    decreases |steps|
  {
    if steps != [] {
      hide Single, Take, Enabled;
      TakeKeepsSingle(s, steps[0], modelKeys);
      CallsNeverOverlap(Take(s, steps[0]), steps[1..], modelKeys);
    }
  }

  /** The key is in progress but the client that held it is gone. */
  ghost predicate Orphaned(s: System, k: IdempotencyKey) {
    InFlight(s.db, k) && forall a | a in s.flights :: s.flights[a] != k
  }

  lemma TakeKeepsOrphan(s: System, step: Step, modelKeys: set<IdempotencyKey>, k: IdempotencyKey)
    requires Single(s, modelKeys) && Enabled(s, step, modelKeys) && k in modelKeys && Orphaned(s, k)
    ensures Orphaned(Take(s, step), k)
  {
    hide Admits, EditOf, Inv, Next;
    if !step.Crash? {
      StepOnKey(s.db, step.command);
    }
  }

  /** A crash with the call outstanding fails closed: the key stays in progress and is never called again. */
  lemma {:induction false} CrashBlocks(s: System, steps: seq<Step>, modelKeys: set<IdempotencyKey>, k: IdempotencyKey)
    requires Single(s, modelKeys) && Run(s, steps, modelKeys) && k in modelKeys && Orphaned(s, k)
    ensures Orphaned(After(s, steps), k)
    decreases |steps|
  {
    if steps != [] {
      hide Single, Take, Enabled, Orphaned;
      TakeKeepsSingle(s, steps[0], modelKeys);
      TakeKeepsOrphan(s, steps[0], modelKeys, k);
      CrashBlocks(Take(s, steps[0]), steps[1..], modelKeys, k);
    }
  }

  /** The crash itself makes the key an orphan. */
  lemma CrashOrphans(s: System, client: Client, modelKeys: set<IdempotencyKey>, steps: seq<Step>)
    requires Single(s, modelKeys) && client in s.flights && Run(Take(s, Crash(client)), steps, modelKeys)
    ensures Orphaned(After(Take(s, Crash(client)), steps), s.flights[client])
  {
    TakeKeepsSingle(s, Crash(client), modelKeys);
    CrashBlocks(Take(s, Crash(client)), steps, modelKeys, s.flights[client]);
  }
}
