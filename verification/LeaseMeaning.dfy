/**
 What the lease operations mean for the worker that holds a node: how long a lease lasts, that nobody can
 disturb it while it lasts, and what each of the holder's operations leaves on record.
 */
module LeaseMeaning {
  import opened Common
  import opened ExecutionTypes
  import opened LeaseProtocol
  import opened LeaseRuns

  /** The lease is in force until exactly this instant, for an attempt in this status. */
  ghost predicate InHand(db: Runtime, lease: NodeLease, until: Time, status: AttemptStatus) {
    && lease.key in db && ValidLeaseAttempt(lease)
    && NamesLast(lease, db[lease.key].attempts) && Last(db[lease.key].attempts).status == status
    && db[lease.key].row.attemptNumber == lease.attemptNumber
    && (forall t :: Holds(db[lease.key].row, lease, t) <==> t < until)
  }

  lemma InHandRow(db: Runtime, lease: NodeLease, until: Time, status: AttemptStatus)
    requires InHand(db, lease, until, status)
    ensures var row := db[lease.key].row;
            && row.state.NodeRunning? && row.lease.Some? && row.lease.value.expiresAt == until && row.fence == lease.fence
  {
    var row := db[lease.key].row;
    assert Holds(row, lease, until - 1);
    assert !Holds(row, lease, until);
    var e := row.lease.value.expiresAt;
    assert Holds(row, lease, e - 1) && !Holds(row, lease, e);
  }

  // ---- Getting and keeping a lease -----------------------------------------

  /** A claim hands out a lease that is in force from now until now + duration, for a new pending attempt. */
  lemma ClaimGives(db: Runtime, op: Op)
    requires Inv(db) && op.Claim? && RefusalIn(db, op).None? && op.attemptId != ""
    ensures var lease, db' := Grant(db[op.key].row, op), After(db, op);
            && lease.key == op.key && lease.attemptRef == op.attemptId && lease.owner == op.owner && lease.token == op.token
            && lease.expiresAt == op.now + op.duration
            && InHand(db', lease, lease.expiresAt, AttemptPending)
            && |db'[op.key].attempts| == |db[op.key].attempts| + 1
            && Last(db'[op.key].attempts).claimedAt == op.now && Last(db'[op.key].attempts).owner == op.owner
            && Last(db'[op.key].attempts).idempotencyKey == db[op.key].row.idempotencyKey
            && db'[op.key].row.effectStartedAt.None? && db'[op.key].row.effectCommittedAt.None?
            && db'[op.key].row.effectClass == db[op.key].row.effectClass
  {
    assert NodeInv(db[op.key]);
  }

  /** Taking over a node abandons the attempt that ran out, and touches no other attempt. */
  lemma ReclaimAbandons(db: Runtime, op: Op, k: nat)
    requires Inv(db) && op.Claim? && RefusalIn(db, op).None? && k < |db[op.key].attempts|
    ensures var was, is_ := db[op.key].attempts[k], After(db, op)[op.key].attempts[k];
            if db[op.key].row.state.NodeRunning? && k == |db[op.key].attempts| - 1
            then is_ == was.(status := AttemptAbandoned, finishedAt := Some(op.now))
            else is_ == was
  {
    assert NodeInv(db[op.key]);
  }

  /** A renewal moves the end of the lease to now + duration, and nothing else. */
  lemma RenewGives(db: Runtime, lease: NodeLease, until: Time, status: AttemptStatus, duration: int, now: Time)
    requires InHand(db, lease, until, status) && RefusalIn(db, Renew(lease, duration, now)).None?
    ensures var db' := After(db, Renew(lease, duration, now));
            && InHand(db', lease, now + duration, status)
            && db'[lease.key].attempts == db[lease.key].attempts
            && db'[lease.key].row.effectStartedAt == db[lease.key].row.effectStartedAt
            && db'[lease.key].row.effectCommittedAt == db[lease.key].row.effectCommittedAt
  {
    assert Holds(db[lease.key].row, lease, now);
    hide NamesLast;
  }

  /** Whoever holds the lease can renew it as long as it is in force. */
  lemma RenewAcceptedIff(db: Runtime, lease: NodeLease, until: Time, status: AttemptStatus, duration: int, now: Time)
    requires InHand(db, lease, until, status) && ValidHeldLease(lease, duration)
    ensures RefusalIn(db, Renew(lease, duration, now)).None? <==>
            now < until && db[lease.key].row.lease.Some? && db[lease.key].row.lease.value.claimedAt < now + duration
  {
    InHandRow(db, lease, until, status);
    assert Holds(db[lease.key].row, lease, now) <==> now < until;
  }

  /** The operation is not the holder's own, and if it is a claim its clock reads before the end of the lease. */
  predicate Gentle(op: Op, lease: NodeLease, until: Time) {
    && (PresentsLease(op) && op.lease.key == lease.key ==> op.lease.fence != lease.fence)
    && (op.Claim? && op.key == lease.key ==> op.now < until)
  }

  lemma GentleStep(db: Runtime, op: Op, lease: NodeLease, until: Time, status: AttemptStatus)
    requires InHand(db, lease, until, status) && Gentle(op, lease, until)
    ensures lease.key in After(db, op) && After(db, op)[lease.key] == db[lease.key]
    ensures op.Claim? && op.key == lease.key ==> RefusalIn(db, op).Some?
  {
    InHandRow(db, lease, until, status);
    hide InHand;
  }

  /**
   Until the end of the lease, and as long as its holder does nothing, no interleaving of other workers'
   operations can change the node: no claim of it is accepted, and the lease stays in force.
   */
  lemma {:induction false} Undisturbed(db: Runtime, ops: seq<Op>, lease: NodeLease, until: Time, status: AttemptStatus)
    requires InHand(db, lease, until, status) && forall i | 0 <= i < |ops| :: Gentle(ops[i], lease, until)
    ensures lease.key in Run(db, ops) && Run(db, ops)[lease.key] == db[lease.key]
    ensures InHand(Run(db, ops), lease, until, status)
    decreases |ops|
  {
    if ops != [] {
      GentleStep(db, ops[0], lease, until, status);
      hide After, Holds, NamesLast, Gentle;
      Undisturbed(After(db, ops[0]), ops[1..], lease, until, status);
    }
  }

  /** From its end on, an uncommitted retry-safe node can be claimed by anyone; before it, by no one. */
  lemma ClaimableIff(db: Runtime, lease: NodeLease, until: Time, status: AttemptStatus, op: Op)
    requires InHand(db, lease, until, status) && op.Claim? && op.key == lease.key
    requires ValidLeaseIdentity(op.key, op.owner, op.duration)
    ensures RefusalIn(db, op).None? <==>
            until <= op.now && db[lease.key].row.retrySafe && db[lease.key].row.effectCommittedAt.None?
  {
    InHandRow(db, lease, until, status);
  }

  // ---- What the holder's operations record ---------------------------------

  /** Starting binds the attempt to exactly the target, policy and budget presented. */
  lemma StartGives(db: Runtime, lease: NodeLease, until: Time, binding: AttemptBinding, now: Time)
    requires InHand(db, lease, until, AttemptPending) && now < until && !Blank(lease.attemptRef) && ValidBinding(binding)
    ensures RefusalIn(db, StartAttempt(lease, binding, now)).None?
    ensures var db' := After(db, StartAttempt(lease, binding, now));
            && InHand(db', lease, until, AttemptRunning) && db'[lease.key].row == db[lease.key].row
            && Last(db'[lease.key].attempts).binding == Some(binding) && Last(db'[lease.key].attempts).startedAt == Some(now)
  {
    assert Holds(db[lease.key].row, lease, now);
  }

  lemma EffectStartGives(db: Runtime, lease: NodeLease, until: Time, now: Time)
    requires InHand(db, lease, until, AttemptRunning) && now < until && db[lease.key].row.effectStartedAt.None?
    ensures RefusalIn(db, MarkEffectStarted(lease, now)).None?
    ensures var db' := After(db, MarkEffectStarted(lease, now));
            && InHand(db', lease, until, AttemptRunning)
            && db'[lease.key].row.effectStartedAt == Some(now) == Last(db'[lease.key].attempts).effectStartedAt
            && db'[lease.key].row.effectCommittedAt == db[lease.key].row.effectCommittedAt
            && db'[lease.key].row.effectClass == db[lease.key].row.effectClass
  {
    InHandRow(db, lease, until, AttemptRunning);
    assert Holds(db[lease.key].row, lease, now);
  }

  lemma EffectCommitGives(db: Runtime, lease: NodeLease, until: Time, now: Time)
    requires InHand(db, lease, until, AttemptRunning) && now < until
    requires db[lease.key].row.effectStartedAt.Some? && db[lease.key].row.effectCommittedAt.None?
    ensures RefusalIn(db, MarkEffectCommitted(lease, now)).None?
    ensures var db' := After(db, MarkEffectCommitted(lease, now));
            && InHand(db', lease, until, AttemptRunning)
            && db'[lease.key].row.effectCommittedAt == Some(now) == Last(db'[lease.key].attempts).effectCommittedAt
            && db'[lease.key].row.effectClass == db[lease.key].row.effectClass
  {
    InHandRow(db, lease, until, AttemptRunning);
    assert Holds(db[lease.key].row, lease, now);
  }

  /** The same usage, with the duration in whole milliseconds. */
  predicate SameUsage(stored: Usage, reported: Usage) {
    && stored.inputTokens == reported.inputTokens && stored.outputTokens == reported.outputTokens
    && stored.cost == reported.cost
    && stored.duration <= reported.duration < stored.duration + 1_000_000 && stored.duration % 1_000_000 == 0
  }

  /** The node is closed in this state, and its last attempt, the lease's, records status, class and usage. */
  ghost predicate RecordedAs(db: Runtime, lease: NodeLease, state: NodeState, status: AttemptStatus, class_: string, usage: Usage) {
    && lease.key in db
    && var n := db[lease.key];
    && n.row.state == state && n.row.lease.None? && n.row.fence == lease.fence == |n.attempts| && n.attempts != []
    && Last(n.attempts).id == lease.attemptRef && Last(n.attempts).fence == lease.fence
    && Last(n.attempts).status == status && Last(n.attempts).errorClass == class_
    && SameUsage(Last(n.attempts).usage, usage)
  }

  lemma CompleteRecords(db: Runtime, lease: NodeLease, terminal: NodeState, completion: AttemptCompletion, now: Time)
    requires Inv(db) && RefusalIn(db, Complete(lease, terminal, completion, now)).None?
    ensures RecordedAs(After(db, Complete(lease, terminal, completion, now)), lease, terminal,
                     completion.status, completion.errorClass, completion.usage)
    ensures Last(After(db, Complete(lease, terminal, completion, now))[lease.key].attempts).finishedAt == Some(now)
  {
    assert NodeInv(db[lease.key]);
  }

  /** The holder can close the node while the lease is in force; a mutation as SUCCEEDED only once committed. */
  lemma CompleteAcceptedIff(db: Runtime, lease: NodeLease, until: Time, terminal: NodeState, completion: AttemptCompletion, now: Time)
    requires InHand(db, lease, until, AttemptRunning) && ValidCompletion(terminal, completion)
    ensures RefusalIn(db, Complete(lease, terminal, completion, now)).None? <==>
            && now < until
            && (terminal.NodeSucceeded? && IsMutation(db[lease.key].row.effectClass) ==> db[lease.key].row.effectCommittedAt.Some?)
  {
    assert Holds(db[lease.key].row, lease, now) <==> now < until;
  }

  /** The node is READY again and the lease's attempt is abandoned. */
  ghost predicate GivenBack(db: Runtime, lease: NodeLease) {
    && lease.key in db
    && var n := db[lease.key];
    && n.row.state.NodeReady? && n.row.lease.None? && n.row.fence == lease.fence == |n.attempts| && n.attempts != []
    && Last(n.attempts).status.AttemptAbandoned?
  }

  /** The holder can give the node back while the lease is in force and no effect has been started. */
  lemma ReleaseAcceptedIff(db: Runtime, lease: NodeLease, until: Time, status: AttemptStatus, now: Time)
    requires InHand(db, lease, until, status)
    ensures RefusalIn(db, ReleaseBeforeEffect(lease, now)).None? <==> now < until && db[lease.key].row.effectStartedAt.None?
  {
    assert Holds(db[lease.key].row, lease, now) <==> now < until;
  }

  lemma ReleaseGivesBack(db: Runtime, lease: NodeLease, now: Time)
    requires Inv(db) && RefusalIn(db, ReleaseBeforeEffect(lease, now)).None?
    ensures GivenBack(After(db, ReleaseBeforeEffect(lease, now)), lease)
  {
    assert NodeInv(db[lease.key]);
  }

  /** A node given back, or requeued, can be claimed at once by anyone. */
  lemma ReadyIsClaimable(db: Runtime, op: Op)
    requires Inv(db) && op.Claim? && op.key in db && db[op.key].row.state.NodeReady?
    requires ValidLeaseIdentity(op.key, op.owner, op.duration)
    ensures RefusalIn(db, op).None?
  {
    assert NodeInv(db[op.key]);
  }

  /** A failed node can be requeued, whoever asks, exactly if its effect may be repeated. */
  lemma RequeueRecords(db: Runtime, key: NodeKey, now: Time)
    requires Inv(db)
    ensures RefusalIn(db, RequeueFailed(key, now)).None? <==>
            && ValidKey(key) && key in db && db[key].row.state.NodeFailed?
            && db[key].row.retrySafe && !IsMutation(db[key].row.effectClass)
    ensures RefusalIn(db, RequeueFailed(key, now)).None? ==>
              var db' := After(db, RequeueFailed(key, now));
              && db'[key].row.state.NodeReady? && db'[key].row.lease.None? && db'[key].attempts == db[key].attempts
              && db'[key].row.fence == db[key].row.fence && db'[key].row.effectClass == db[key].row.effectClass
  {
    if key in db { assert NodeInv(db[key]); }
  }

  /** A new node is registered with what its plan says, without lease, effect marks or attempts. */
  lemma RegisterRecords(db: Runtime, key: NodeKey, record: NodeRow)
    ensures RefusalIn(db, Register(key, record)).None? ==>
              && key !in db && key in After(db, Register(key, record))
              && var n := After(db, Register(key, record))[key];
              && n.row.state == record.state && n.row.effectClass == record.effectClass && n.row.retrySafe == record.retrySafe
              && n.row.idempotencyKey == record.idempotencyKey && n.row.fence == record.fence
              && n.row.attemptNumber == record.attemptNumber
              && n.row.lease.None? && n.row.effectStartedAt.None? && n.row.effectCommittedAt.None? && n.attempts == []
  {
  }

  /** What a completion recorded is on record in every later state. */
  lemma CompletedForGood(db: Runtime, ops: seq<Op>, lease: NodeLease, state: NodeState, status: AttemptStatus, class_: string, usage: Usage)
    requires Inv(db) && AdmissibleRun(ops) && RecordedAs(db, lease, state, status, class_, usage) && !OpenStatus(status)
    ensures var later := Run(db, ops);
            && lease.key in later && lease.fence <= |later[lease.key].attempts|
            && var a := later[lease.key].attempts[lease.fence - 1];
            && a.id == lease.attemptRef && a.status == status && a.errorClass == class_ && SameUsage(a.usage, usage)
  {
    AttemptHistory(db, ops, lease.key, lease.fence - 1);
  }
}
