/**
 The transactional outbox: leases on messages, delivery and failure records, and the dispatcher. Each
 operation of the store is one transaction; dispatchers interleave freely.
 */
module Outbox {
  import opened Common
  import opened Tasks

  /** One row: the message and the dispatcher's lease on it. */
  datatype Row = Row(message: OutboxMessage, leaseOwner: Option<string>, leaseExpiresAt: Option<Time>, lastError: string)

  type Rows = map<string, Row>

  datatype Op =
    | Insert(message: OutboxMessage)
    | Lease(owner: string, now: Time, expiresAt: Time, picked: set<string>)
    | Deliver(id: string, owner: string, at: Time)
    | Fail(id: string, owner: string, now: Time, next: Time, maxAttempts: int, reason: string)

  // ---- One operation -------------------------------------------------------

  predicate Due(row: Row, now: Time) {
    || (row.message.status.OutboxPending? && row.message.availableAt <= now)
    || (row.message.status.OutboxDelivering? && row.leaseExpiresAt.Some? && row.leaseExpiresAt.value <= now)
  }

  predicate HeldBy(row: Row, owner: string) {
    row.message.status.OutboxDelivering? && row.leaseOwner == Some(owner)
  }

  predicate Holds(rows: Rows, id: string, owner: string) {
    id in rows && HeldBy(rows[id], owner)
  }

  function Leased(row: Row, owner: string, expiresAt: Time): Row {
    Row(row.message.(status := OutboxDelivering, attempts := row.message.attempts + 1),
        Some(owner), Some(expiresAt), row.lastError)
  }

  function Delivered(row: Row, at: Time): Row {
    Row(row.message.(status := OutboxDelivered, deliveredAt := Some(at)), None, None, "")
  }

  function Failed(row: Row, now: Time, next: Time, maxAttempts: int, reason: string): Row {
    if row.message.attempts >= maxAttempts
    then Row(row.message.(status := OutboxDeadLetter, availableAt := now), None, None, reason)
    else Row(row.message.(status := OutboxPending, availableAt := next), None, None, reason)
  }

  function After(rows: Rows, op: Op): (r: Rows)
    ensures rows.Keys <= r.Keys
  {
    match op
    case Insert(m) => if m.outboxId in rows then rows else rows[m.outboxId := Row(m, None, None, "")]
    case Lease(owner, now, expiresAt, picked) =>
      map id | id in rows :: if id in picked && Due(rows[id], now) then Leased(rows[id], owner, expiresAt) else rows[id]
    case Deliver(id, owner, at) =>
      if Holds(rows, id, owner) then rows[id := Delivered(rows[id], at)] else rows
    case Fail(id, owner, now, next, maxAttempts, reason) =>
      if Holds(rows, id, owner) then rows[id := Failed(rows[id], now, next, maxAttempts, reason)] else rows
  }

  function RunOps(rows: Rows, ops: seq<Op>): (r: Rows)
    ensures rows.Keys <= r.Keys
    decreases |ops|
  {
    if ops == [] then rows else RunOps(After(rows, ops[0]), ops[1..])
  }

  // ---- Every run -----------------------------------------------------------

  predicate Final(row: Row) {
    row.message.status.OutboxDelivered? || row.message.status.OutboxDeadLetter?
  }

  /** A lease exists only on a delivering message that was counted when it was leased. */
  ghost predicate Inv(rows: Rows) {
    forall id | id in rows ::
      && rows[id].message.outboxId == id && rows[id].message.attempts >= 0
      && (rows[id].leaseOwner.Some? ==> rows[id].message.status.OutboxDelivering? && rows[id].message.attempts >= 1)
  }

  /** Messages enter with a non-negative attempt count. */
  ghost predicate Admissible(ops: seq<Op>) {
    forall i | 0 <= i < |ops| && ops[i].Insert? :: ops[i].message.attempts >= 0
  }

  /** Rows persist, attempts only grow, and delivered or dead-lettered rows never change. */
  ghost predicate Extends(a: Rows, b: Rows) {
    forall id | id in a ::
      && id in b
      && a[id].message.attempts <= b[id].message.attempts
      && (Final(a[id]) ==> b[id] == a[id])
  }

  lemma StepExtends(rows: Rows, op: Op)
    ensures Extends(rows, After(rows, op))
  {
  }

  lemma ExtendsTransitive(a: Rows, b: Rows, c: Rows)
    requires Extends(a, b) && Extends(b, c)
    ensures Extends(a, c)
  {
  }

  lemma {:induction false} RunExtends(rows: Rows, ops: seq<Op>)
    ensures Extends(rows, RunOps(rows, ops))
    decreases |ops|
  {
    if ops != [] {
      hide After, Extends;
      StepExtends(rows, ops[0]);
      RunExtends(After(rows, ops[0]), ops[1..]);
      ExtendsTransitive(rows, After(rows, ops[0]), RunOps(rows, ops));
    }
  }

  lemma StepKeepsInv(rows: Rows, op: Op)
    requires Inv(rows) && (op.Insert? ==> op.message.attempts >= 0)
    ensures Inv(After(rows, op))
  {
  }

  lemma {:induction false} RunKeepsInv(rows: Rows, ops: seq<Op>)
    requires Inv(rows) && Admissible(ops)
    ensures Inv(RunOps(rows, ops))
    decreases |ops|
  {
    if ops != [] {
      StepKeepsInv(rows, ops[0]);
      RunKeepsInv(After(rows, ops[0]), ops[1..]);
    }
  }

  /** The owner leases this message in this operation. */
  predicate Takes(op: Op, id: string, owner: string) {
    op.Lease? && op.owner == owner && id in op.picked
  }

  predicate Reports(op: Op, id: string, owner: string) {
    (op.Deliver? || op.Fail?) && op.id == id && op.owner == owner
  }

  lemma StepKeepsLost(rows: Rows, op: Op, id: string, owner: string)
    requires id in rows && rows[id].leaseOwner != Some(owner) && !Takes(op, id, owner)
    ensures id in After(rows, op) && After(rows, op)[id].leaseOwner != Some(owner)
  {
  }

  /**
   An owner who does not hold a message, because it was re-leased under another name, delivered or given
   back, stays without it through any interleaving until that owner leases it anew; whatever it reports
   about the message meanwhile changes no row.
   */
  lemma {:induction false} LostLeaseStaysLost(rows: Rows, ops: seq<Op>, id: string, owner: string, report: Op)
    requires id in rows && rows[id].leaseOwner != Some(owner)
    requires forall i | 0 <= i < |ops| :: !Takes(ops[i], id, owner)
    requires Reports(report, id, owner)
    ensures !Holds(RunOps(rows, ops), id, owner)
    ensures After(RunOps(rows, ops), report) == RunOps(rows, ops)
    decreases |ops|
  {
    if ops != [] {
      hide After;
      StepKeepsLost(rows, ops[0], id, owner);
      LostLeaseStaysLost(After(rows, ops[0]), ops[1..], id, owner, report);
    }
  }

  // ---- What each operation leaves ------------------------------------------

  /** What is to be delivered, for whom and where to: everything but the delivery bookkeeping. */
  predicate SameMessage(a: OutboxMessage, b: OutboxMessage) {
    && a.outboxId == b.outboxId && a.tenantId == b.tenantId && a.projectId == b.projectId && a.taskId == b.taskId
    && a.aggregateType == b.aggregateType && a.aggregateId == b.aggregateId && a.eventType == b.eventType
    && a.payload == b.payload && a.destination == b.destination && a.idempotencyKey == b.idempotencyKey
    && a.createdAt == b.createdAt
  }

  ghost predicate DueFrom(row: Row, from: Time) {
    forall t :: Due(row, t) <==> t >= from
  }

  ghost predicate NeverDue(row: Row) {
    forall t :: !Due(row, t)
  }

  /** The owner's lease on the message runs until that time. */
  predicate HeldUntil(rows: Rows, id: string, owner: string, until: Time) {
    Holds(rows, id, owner) && rows[id].leaseExpiresAt == Some(until)
  }

  /** A pending message that enters can be taken from its available time on. */
  lemma InsertGives(rows: Rows, m: OutboxMessage)
    requires m.outboxId !in rows && m.status.OutboxPending?
    ensures var after := After(rows, Insert(m));
            m.outboxId in after && after[m.outboxId].message == m && DueFrom(after[m.outboxId], m.availableAt)
  {
  }

  /** A due message that is picked becomes the owner's, counted once more, and is nobody else's until the lease ends. */
  lemma LeaseGives(rows: Rows, op: Op, id: string)
    requires op.Lease? && id in rows && id in op.picked && Due(rows[id], op.now)
    ensures var after := After(rows, op);
            && HeldUntil(after, id, op.owner, op.expiresAt) && DueFrom(after[id], op.expiresAt)
            && SameMessage(rows[id].message, after[id].message)
            && after[id].message.attempts == rows[id].message.attempts + 1
            && after[id].message.availableAt == rows[id].message.availableAt
  {
  }

  /** A delivered message keeps its delivery time and is never due again. */
  lemma DeliverGives(rows: Rows, op: Op)
    requires op.Deliver? && Holds(rows, op.id, op.owner)
    ensures var after := After(rows, op);
            && op.id in after && after[op.id].message.status.OutboxDelivered? && NeverDue(after[op.id])
            && after[op.id].message.deliveredAt == Some(op.at) && after[op.id].leaseOwner.None?
            && SameMessage(rows[op.id].message, after[op.id].message)
            && after[op.id].message.attempts == rows[op.id].message.attempts
  {
  }

  /** A failed message waits until the next time, or, its attempts used up, is never due again. */
  lemma FailGives(rows: Rows, op: Op)
    requires op.Fail? && Holds(rows, op.id, op.owner)
    ensures var after := After(rows, op);
            && op.id in after && after[op.id].leaseOwner.None? && after[op.id].lastError == op.reason
            && SameMessage(rows[op.id].message, after[op.id].message)
            && after[op.id].message.attempts == rows[op.id].message.attempts
            && (rows[op.id].message.attempts >= op.maxAttempts ==>
                  after[op.id].message.status.OutboxDeadLetter? && NeverDue(after[op.id]))
            && (rows[op.id].message.attempts < op.maxAttempts ==>
                  after[op.id].message.status.OutboxPending? && DueFrom(after[op.id], op.next))
  {
  }

  // ---- What every run keeps ------------------------------------------------

  /** No lease at or after that time takes the message, and its owner reports nothing about it. */
  predicate Gentle(op: Op, id: string, owner: string, until: Time) {
    !(op.Lease? && op.now >= until && id in op.picked) && !Reports(op, id, owner)
  }

  lemma HeldStep(rows: Rows, op: Op, id: string, owner: string, until: Time)
    requires HeldUntil(rows, id, owner, until) && Gentle(op, id, owner, until)
    ensures id in After(rows, op) && After(rows, op)[id] == rows[id]
  {
  }

  /** A lease protects its message: until it ends, nothing that others do changes the row. */
  lemma {:induction false} HeldRun(rows: Rows, ops: seq<Op>, id: string, owner: string, until: Time)
    requires HeldUntil(rows, id, owner, until)
    requires forall i | 0 <= i < |ops| :: Gentle(ops[i], id, owner, until)
    ensures id in RunOps(rows, ops) && RunOps(rows, ops)[id] == rows[id]
    decreases |ops|
  {
    if ops != [] {
      hide After, Gentle;
      HeldStep(rows, ops[0], id, owner, until);
      HeldRun(After(rows, ops[0]), ops[1..], id, owner, until);
    }
  }

  lemma ContentStep(rows: Rows, op: Op, id: string)
    requires id in rows
    ensures id in After(rows, op) && SameMessage(rows[id].message, After(rows, op)[id].message)
  {
  }

  /** What is delivered is what was stored: no run changes a message's payload, destination or key. */
  lemma {:induction false} ContentKept(rows: Rows, ops: seq<Op>, id: string)
    requires id in rows
    ensures id in RunOps(rows, ops) && SameMessage(rows[id].message, RunOps(rows, ops)[id].message)
    decreases |ops|
  {
    if ops != [] {
      hide After;
      ContentStep(rows, ops[0], id);
      ContentKept(After(rows, ops[0]), ops[1..], id);
    }
  }

  lemma DeliveredStep(rows: Rows, op: Op, id: string)
    requires id in rows && !rows[id].message.status.OutboxDelivered?
    ensures id in After(rows, op)
    ensures After(rows, op)[id].message.status.OutboxDelivered? <==> op.Deliver? && op.id == id && Holds(rows, id, op.owner)
  {
  }

  lemma DeliveredStays(rows: Rows, ops: seq<Op>, id: string)
    requires id in rows && rows[id].message.status.OutboxDelivered?
    ensures id in RunOps(rows, ops) && RunOps(rows, ops)[id].message.status.OutboxDelivered?
  {
    RunExtends(rows, ops);
  }

  /** The i-th operation of the run reports the delivery of the message by the owner who then holds it. */
  predicate DeliveryAt(rows: Rows, ops: seq<Op>, i: int, id: string)
    requires 0 <= i < |ops|
  {
    ops[i].Deliver? && ops[i].id == id && Holds(RunOps(rows, ops[..i]), id, ops[i].owner)
  }

  lemma DeliveryLater(rows: Rows, ops: seq<Op>, i: int, id: string)
    requires ops != [] && 0 <= i < |ops| - 1
    ensures DeliveryAt(After(rows, ops[0]), ops[1..], i, id) <==> DeliveryAt(rows, ops, i + 1, id)
  {
    assert ops[..i + 1][1..] == ops[1..][..i];
  }

  /** A message is delivered in the store if and only if the owner of its lease reported so. */
  lemma {:induction false} DeliveredIff(rows: Rows, ops: seq<Op>, id: string)
    requires id in rows && !rows[id].message.status.OutboxDelivered?
    ensures id in RunOps(rows, ops)
    ensures RunOps(rows, ops)[id].message.status.OutboxDelivered? <==> exists i | 0 <= i < |ops| :: DeliveryAt(rows, ops, i, id)
    decreases |ops|
  {
    if ops != [] {
      hide After, DeliveryAt;
      DeliveredStep(rows, ops[0], id);
      DeliveryFirst(rows, ops, id);
      if After(rows, ops[0])[id].message.status.OutboxDelivered? {
        DeliveredStays(After(rows, ops[0]), ops[1..], id);
      } else {
        DeliveredIff(After(rows, ops[0]), ops[1..], id);
        DeliverySplit(rows, ops, id);
      }
    }
  }

  lemma DeliveryFirst(rows: Rows, ops: seq<Op>, id: string)
    requires ops != []
    ensures DeliveryAt(rows, ops, 0, id) <==> ops[0].Deliver? && ops[0].id == id && Holds(rows, id, ops[0].owner)
  {
  }

  lemma DeliverySplit(rows: Rows, ops: seq<Op>, id: string)
    requires ops != [] && !DeliveryAt(rows, ops, 0, id)
    ensures (exists i | 0 <= i < |ops| :: DeliveryAt(rows, ops, i, id))
            <==> (exists i | 0 <= i < |ops[1..]| :: DeliveryAt(After(rows, ops[0]), ops[1..], i, id))
  {
    hide After, DeliveryAt;
    forall i | 0 <= i < |ops| - 1
      ensures DeliveryAt(After(rows, ops[0]), ops[1..], i, id) <==> DeliveryAt(rows, ops, i + 1, id)
    {
      DeliveryLater(rows, ops, i, id);
    }
    if i :| 0 <= i < |ops| && DeliveryAt(rows, ops, i, id) {
      assert DeliveryAt(After(rows, ops[0]), ops[1..], i - 1, id);
    }
  }

  // ---- Bounded retries -----------------------------------------------------

  /** The operation returns the message to pending because its delivery failed. */
  predicate Retries(rows: Rows, op: Op, id: string) {
    op.Fail? && op.id == id && Holds(rows, id, op.owner) && rows[id].message.attempts < op.maxAttempts
  }

  function RetryCount(rows: Rows, ops: seq<Op>, id: string): nat
    decreases |ops|
  {
    if ops == [] then 0
    else (if Retries(rows, ops[0], id) then 1 else 0) + RetryCount(After(rows, ops[0]), ops[1..], id)
  }

  /** Failures of the message are recorded with at most m attempts, or with the count already reached. */
  ghost predicate Capped(rows: Rows, ops: seq<Op>, id: string, m: int)
    decreases |ops|
  {
    ops != [] ==>
      && (Retries(rows, ops[0], id) ==> ops[0].maxAttempts <= m)
      && Capped(After(rows, ops[0]), ops[1..], id, m)
  }

  /** Attempts already spent on retries that can never be used again. */
  function Used(rows: Rows, id: string): int {
    if id !in rows then 0
    else rows[id].message.attempts - (if rows[id].leaseOwner.Some? then 1 else 0)
  }

  lemma StepUses(rows: Rows, op: Op, id: string)
    requires Inv(rows) && (op.Insert? ==> op.message.attempts >= 0)
    ensures Used(rows, id) >= 0
    ensures Used(After(rows, op), id) >= Used(rows, id) + (if Retries(rows, op, id) then 1 else 0)
    ensures Retries(rows, op, id) ==> Used(After(rows, op), id) < op.maxAttempts
  {
  }

  lemma {:induction false} RetryBudget(rows: Rows, ops: seq<Op>, id: string, m: int)
    requires Inv(rows) && Admissible(ops) && Capped(rows, ops, id, m) && m >= 1
    ensures RetryCount(rows, ops, id) == 0 || Used(rows, id) + RetryCount(rows, ops, id) <= m - 1
    decreases |ops|
  {
    if ops != [] {
      hide Inv, After, Used, Retries;
      StepUses(rows, ops[0], id);
      StepKeepsInv(rows, ops[0]);
      RetryBudget(After(rows, ops[0]), ops[1..], id, m);
    }
  }

  /** With a fixed maximum m, a message returns to pending by failure at most m - 1 times, over any run. */
  lemma BoundedRetries(rows: Rows, ops: seq<Op>, id: string, m: int)
    requires Inv(rows) && Admissible(ops) && Capped(rows, ops, id, m) && m >= 1
    ensures RetryCount(rows, ops, id) <= m - 1
  {
    RetryBudget(rows, ops, id, m);
    if ops != [] {
      StepUses(rows, ops[0], id);
    }
  }

  // ---- What dispatchers issue ----------------------------------------------

  /** A failure is recorded with the configured maximum, or with a count the message has already reached. */
  predicate DispatcherOp(rows: Rows, op: Op, m: int) {
    op.Fail? && Holds(rows, op.id, op.owner) ==> op.maxAttempts <= m || op.maxAttempts <= rows[op.id].message.attempts
  }

  ghost predicate DispatcherRun(rows: Rows, ops: seq<Op>, m: int)
    decreases |ops|
  {
    ops != [] ==> DispatcherOp(rows, ops[0], m) && DispatcherRun(After(rows, ops[0]), ops[1..], m)
  }

  /** Any number of dispatchers that share one maximum keep every message capped by it. */
  lemma {:induction false} DispatchersCap(rows: Rows, ops: seq<Op>, id: string, m: int)
    requires DispatcherRun(rows, ops, m)
    ensures Capped(rows, ops, id, m)
    decreases |ops|
  {
    if ops != [] {
      hide After;
      DispatchersCap(After(rows, ops[0]), ops[1..], id, m);
    }
  }

  // ---- When attempts pass the maximum --------------------------------------

  /** Attempts are at most m, and a pending message has one left. */
  predicate WithinAttempts(rows: Rows, id: string, m: int) {
    && id in rows && rows[id].message.attempts <= m
    && (rows[id].message.status.OutboxPending? ==> rows[id].message.attempts < m)
  }

  /** The message is leased again after its lease ran out on the last attempt. */
  predicate ReleasedAtMaximum(rows: Rows, op: Op, id: string, m: int) {
    && op.Lease? && id in op.picked && id in rows && Due(rows[id], op.now)
    && rows[id].message.status.OutboxDelivering? && rows[id].message.attempts == m
  }

  /** One operation takes the attempts past the maximum exactly when it re-leases an expired last attempt. */
  lemma StepWithinIff(rows: Rows, op: Op, id: string, m: int)
    requires WithinAttempts(rows, id, m) && (Retries(rows, op, id) ==> op.maxAttempts <= m)
    ensures WithinAttempts(After(rows, op), id, m) <==> !ReleasedAtMaximum(rows, op, id, m)
    ensures ReleasedAtMaximum(rows, op, id, m) ==> After(rows, op)[id].message.attempts == m + 1
  {
  }

  ghost predicate EverReleasedAtMaximum(rows: Rows, ops: seq<Op>, id: string, m: int)
    decreases |ops|
  {
    ops != [] && (ReleasedAtMaximum(rows, ops[0], id, m) || EverReleasedAtMaximum(After(rows, ops[0]), ops[1..], id, m))
  }

  /** Over any run: the attempts stay within the maximum if and only if no expired last attempt is re-leased. */
  lemma {:induction false} AttemptsWithinIff(rows: Rows, ops: seq<Op>, id: string, m: int)
    requires WithinAttempts(rows, id, m) && Capped(rows, ops, id, m)
    ensures id in RunOps(rows, ops)
    ensures RunOps(rows, ops)[id].message.attempts <= m <==> !EverReleasedAtMaximum(rows, ops, id, m)
    decreases |ops|
  {
    if ops != [] {
      hide After, ReleasedAtMaximum, Retries, Extends;
      StepWithinIff(rows, ops[0], id, m);
      if ReleasedAtMaximum(rows, ops[0], id, m) {
        RunExtends(After(rows, ops[0]), ops[1..]);
        ExtendsAt(After(rows, ops[0]), RunOps(rows, ops), id);
      } else {
        AttemptsWithinIff(After(rows, ops[0]), ops[1..], id, m);
      }
    }
  }

  lemma ExtendsAt(a: Rows, b: Rows, id: string)
    requires Extends(a, b) && id in a
    ensures id in b && a[id].message.attempts <= b[id].message.attempts
  {
  }

  /** With a maximum of one, a lease that expires and is taken over makes two attempts. */
  lemma AttemptsPassMaximum(message: OutboxMessage)
    requires message.outboxId == "m" && message.status.OutboxPending? && message.attempts == 0 && message.availableAt == 1
    ensures var rows := map["m" := Row(message, None, None, "")];
            var ops := [Lease("a", 1, 2, {"m"}), Lease("b", 2, 3, {"m"})];
            && Inv(rows) && WithinAttempts(rows, "m", 1) && DispatcherRun(rows, ops, 1)
            && RunOps(rows, ops)["m"].message.attempts == 2
  {
    var rows := map["m" := Row(message, None, None, "")];
    var first, second := Lease("a", 1, 2, {"m"}), Lease("b", 2, 3, {"m"});
    assert [first, second][1..] == [second];
    assert After(rows, first)["m"] == Leased(rows["m"], "a", 2);
    assert RunOps(rows, [first, second]) == RunOps(After(rows, first), [second]) == After(After(rows, first), second);
    assert DispatcherRun(After(rows, first), [second], 1);
  }
}
