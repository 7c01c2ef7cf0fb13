/** The outbox repository and its dispatcher. */
module OutboxStore {
  import opened Common
  import opened Tasks
  import opened TaskKernel
  import opened Ordering
  import opened Outbox

  datatype OutboxError = InvalidRequest | LeaseLost

  // ---- Which messages a lease takes ----------------------------------------

  /** ORDER BY available_at, created_at, outbox_id */
  predicate Before(rows: Rows, a: string, b: string)
    requires a in rows && b in rows
  {
    var x, y := rows[a].message, rows[b].message;
    || x.availableAt < y.availableAt
    || (x.availableAt == y.availableAt && x.createdAt < y.createdAt)
    || (x.availableAt == y.availableAt && x.createdAt == y.createdAt && Leq(a, b))
  }

  lemma BeforeTotal(rows: Rows, a: string, b: string)
    requires a in rows && b in rows
    ensures Before(rows, a, b) || Before(rows, b, a)
  {
    LeqTotal(a, b);
  }

  lemma BeforeTransitive(rows: Rows, a: string, b: string, c: string)
    requires a in rows && b in rows && c in rows && Before(rows, a, b) && Before(rows, b, c)
    ensures Before(rows, a, c)
  {
    if Leq(a, b) && Leq(b, c) { LeqTransitive(a, b, c); }
  }

  /** The first rows of the pool in order, as many as the limit allows. */
  ghost predicate Prioritised(rows: Rows, pool: set<string>, picked: seq<string>, limit: int)
    requires pool <= rows.Keys
  {
    && (forall i | 0 <= i < |picked| :: picked[i] in pool)
    && (forall i, j | 0 <= i < j < |picked| :: picked[i] != picked[j] && Before(rows, picked[i], picked[j]))
    && (forall i, id | 0 <= i < |picked| && id in pool && id !in picked :: Before(rows, picked[i], id))
    && |picked| <= limit
    && (|picked| < limit ==> forall id | id in pool :: id in picked)
  }

  method First(rows: Rows, pool: set<string>) returns (first: string)
    requires pool <= rows.Keys && pool != {}
    ensures first in pool && forall id | id in pool :: Before(rows, first, id)
  {
    first :| first in pool;
    LeqTotal(first, first);
    var rest := pool - {first};
    while rest != {}
      invariant rest <= pool && first in pool && first !in rest
      invariant forall id | id in pool - rest :: Before(rows, first, id)
      decreases |rest|
    {
      var id :| id in rest;
      rest := rest - {id};
      BeforeTotal(rows, id, first);
      if !Before(rows, first, id) {
        forall other | other in pool - rest ensures Before(rows, id, other) {
          if other != id { BeforeTransitive(rows, id, first, other); } else { LeqTotal(id, id); }
        }
        first := id;
      }
    }
  }

  method Pick(rows: Rows, pool: set<string>, limit: int) returns (picked: seq<string>)
    requires pool <= rows.Keys && limit >= 0
    ensures Prioritised(rows, pool, picked, limit)
  {
    picked := [];
    var rest := pool;
    while |picked| < limit && rest != {}
      invariant rest <= pool && |picked| <= limit
      invariant forall id :: id in pool <==> id in picked || id in rest
      invariant forall i | 0 <= i < |picked| :: picked[i] !in rest
      invariant forall i, j | 0 <= i < j < |picked| :: picked[i] != picked[j] && Before(rows, picked[i], picked[j])
      invariant forall i, id | 0 <= i < |picked| && id in rest :: Before(rows, picked[i], id)
      decreases |rest|
    {
      var first := First(rows, rest);
      rest := rest - {first};
      picked := picked + [first];
    }
  }

  function DueIds(rows: Rows, now: Time, locked: set<string>): set<string> {
    set id | id in rows && Due(rows[id], now) && id !in locked
  }

  function IdsOf(ids: seq<string>): set<string> {
    set i | 0 <= i < |ids| :: ids[i]
  }

  /** The owner's lease on the message runs until then; the message itself is unchanged and counted once more. */
  ghost predicate Taken(before: Rows, after: Rows, id: string, owner: string, until: Time) {
    && id in before && HeldUntil(after, id, owner, until) && after[id].message.outboxId == id
    && SameMessage(before[id].message, after[id].message)
    && after[id].message.attempts == before[id].message.attempts + 1 >= 1
  }

  /** What a lease returns: each row as it now stands. */
  ghost predicate Handed(before: Rows, after: Rows, picked: seq<string>, items: seq<Row>, owner: string, until: Time) {
    && |items| == |picked|
    && (forall i | 0 <= i < |picked| :: Taken(before, after, picked[i], owner, until) && items[i] == after[picked[i]])
  }

  lemma LeaseHands(rows: Rows, picked: seq<string>, owner: string, now: Time, expiresAt: Time, locked: set<string>, limit: int)
    requires Inv(rows) && Prioritised(rows, DueIds(rows, now, locked), picked, limit)
    ensures var after := After(rows, Lease(owner, now, expiresAt, IdsOf(picked)));
            forall i | 0 <= i < |picked| :: Taken(rows, after, picked[i], owner, expiresAt)
  {
    hide Before;
    forall i | 0 <= i < |picked|
      ensures Taken(rows, After(rows, Lease(owner, now, expiresAt, IdsOf(picked))), picked[i], owner, expiresAt)
    {
      LeaseGives(rows, Lease(owner, now, expiresAt, IdsOf(picked)), picked[i]);
      hide After;
    }
  }

  /** A new pending message is among those a lease considers exactly from its available time on. */
  lemma EntersTheQueue(rows: Rows, m: OutboxMessage, now: Time, locked: set<string>)
    requires m.outboxId !in rows && m.status.OutboxPending?
    ensures m.outboxId in DueIds(After(rows, Insert(m)), now, locked) <==> now >= m.availableAt && m.outboxId !in locked
  {
    InsertGives(rows, m);
  }

  /** RETURNING the updated rows. */
  method ReadBack(rows: Rows, ids: seq<string>) returns (items: seq<Row>)
    requires forall i | 0 <= i < |ids| :: ids[i] in rows
    ensures |items| == |ids| && forall i | 0 <= i < |ids| :: items[i] == rows[ids[i]]
  {
    items := [];
    for i := 0 to |ids|
      invariant |items| == i && forall k | 0 <= k < i :: items[k] == rows[ids[k]]
    {
      items := items + [rows[ids[i]]];
    }
  }

  const MAX_BATCH := 1000

  class ScopedPostgresOutbox {
    var rows: Rows

    ghost predicate Valid()
      reads this
    {
      Inv(rows)
    }

    constructor ()
      ensures Valid() && rows == map[]
    {
      rows := map[];
    }

    /**
     Lease due messages in order, skipping rows other transactions have locked. Every returned message is
     now delivering, held by the owner, with one more attempt; every other row is as it was.
     */
    method LeaseDue(p: Principal, owner: string, limit: int, now: Time, duration: int, locked: set<string>)
      returns (r: Result<seq<Row>, OutboxError>, ghost picked: seq<string>)
      requires Valid()
      modifies this
      ensures Valid()
      ensures r.Ok? <==> !Blank(owner) && limit >= 1 && duration > 0 && now != 0 && Authorized(p)
      ensures r.Err? ==> rows == old(rows)
      ensures r.Ok? ==> Prioritised(old(rows), DueIds(old(rows), now, locked), picked, if limit > 1000 then 1000 else limit)
      ensures r.Ok? ==> rows == After(old(rows), Lease(Trim(owner), now, now + duration, IdsOf(picked)))
      ensures r.Ok? ==> Handed(old(rows), rows, picked, r.value, Trim(owner), now + duration)
    {
      hide Blank, Authorized, Prioritised, Inv, Leased, Due, Taken, Trim;
      picked := [];
      if Blank(owner) || limit < 1 || duration <= 0 || now == 0 || !Authorized(p) {
        return Err(InvalidRequest), picked;
      }
      var name := Trim(owner);
      var batch := if limit > MAX_BATCH then MAX_BATCH else limit;
      var pool := DueIds(rows, now, locked);
      var ids := Pick(rows, pool, batch);
      picked := ids;
      var chosen := IdsOf(ids);
      StepKeepsInv(rows, Lease(name, now, now + duration, chosen));
      LeaseHands(rows, ids, name, now, now + duration, locked, batch);
      rows := map id | id in rows :: if id in chosen && Due(rows[id], now) then Leased(rows[id], name, now + duration) else rows[id];
      var items := ReadBack(rows, ids);
      return Ok(items), picked;
    }

    method MarkDelivered(p: Principal, id: string, owner: string, at: Time) returns (e: Option<OutboxError>)
      requires Valid()
      modifies this
      ensures Valid()
      ensures e.None? <==> !Blank(id) && !Blank(owner) && at != 0 && Authorized(p) && Holds(old(rows), id, owner)
      ensures rows == if e.None? then After(old(rows), Deliver(id, owner, at)) else old(rows)
      ensures e.None? ==> rows[id].message.status.OutboxDelivered? && rows[id].message.deliveredAt == Some(at) && NeverDue(rows[id])
    {
      if Blank(id) || Blank(owner) || at == 0 || !Authorized(p) { return Some(InvalidRequest); }
      if id !in rows || !rows[id].message.status.OutboxDelivering? || rows[id].leaseOwner != Some(owner) {
        return Some(LeaseLost);
      }
      StepKeepsInv(rows, Deliver(id, owner, at));
      rows := rows[id := Delivered(rows[id], at)];
      return None;
    }

    method FailDelivery(p: Principal, id: string, owner: string, now: Time, next: Time, maxAttempts: int, reason: string)
      returns (r: Result<OutboxStatus, OutboxError>)
      requires Valid()
      modifies this
      ensures Valid()
      ensures r.Ok? <==> !Blank(id) && !Blank(owner) && now != 0 && next != 0 && maxAttempts >= 1 && Authorized(p)
                         && Holds(old(rows), id, owner)
      ensures rows == if r.Ok? then After(old(rows), Fail(id, owner, now, next, maxAttempts, Trim(reason))) else old(rows)
      ensures r.Ok? ==> r.value == rows[id].message.status && rows[id].leaseOwner.None? && rows[id].lastError == Trim(reason)
      ensures r.Ok? ==> (r.value.OutboxDeadLetter? <==> old(rows)[id].message.attempts >= maxAttempts)
      ensures r.Ok? && r.value.OutboxDeadLetter? ==> NeverDue(rows[id])
      ensures r.Ok? && !r.value.OutboxDeadLetter? ==> Waiting(rows, id, next, Trim(reason))
    {
      if Blank(id) || Blank(owner) || now == 0 || next == 0 || maxAttempts < 1 || !Authorized(p) { return Err(InvalidRequest); }
      if id !in rows || !rows[id].message.status.OutboxDelivering? || rows[id].leaseOwner != Some(owner) {
        return Err(LeaseLost);
      }
      StepKeepsInv(rows, Fail(id, owner, now, next, maxAttempts, Trim(reason)));
      var status, availableAt := OutboxPending, next;
      if rows[id].message.attempts >= maxAttempts {
        status, availableAt := OutboxDeadLetter, now;
      }
      rows := rows[id := Row(rows[id].message.(status := status, availableAt := availableAt), None, None, Trim(reason))];
      return Ok(status);
    }

    /** Other dispatchers and commands. */
    method Interleave(ops: seq<Op>)
      requires Valid() && Admissible(ops)
      modifies this
      ensures Valid() && rows == RunOps(old(rows), ops)
    {
      RunKeepsInv(rows, ops);
      rows := RunOps(rows, ops);
    }
  }

  // ---- Dispatcher ----------------------------------------------------------

  /** time.Duration: signed 64-bit nanoseconds. */
  newtype Duration = x: int | -0x8000_0000_0000_0000 <= x < 0x8000_0000_0000_0000

  const FIVE_MINUTES: Duration := 300_000_000_000

  function Pow2(n: nat): nat {
    if n == 0 then 1 else 2 * Pow2(n - 1)
  }

  lemma {:induction false} Pow2Grows(m: nat, n: nat)
    requires m <= n
    ensures 1 <= Pow2(m) <= Pow2(n)
    decreases n
  {
    if n > 0 {
      if m < n { Pow2Grows(m, n - 1); } else { Pow2Grows(m - 1, n - 1); }
    }
  }

  /** base doubled once per earlier attempt, at most five minutes */
  function Backoff(base: Duration, attempt: int): int {
    var doubled := base as int * Pow2(if attempt < 1 then 0 else attempt - 1);
    if doubled < FIVE_MINUTES as int then doubled else FIVE_MINUTES as int
  }

  /** The first wait is the base; each later one is twice the one before; none is over five minutes. */
  lemma BackoffDoubles(base: Duration, attempt: int)
    requires base > 0
    ensures attempt <= 1 ==> Backoff(base, attempt) == if base as int < 300_000_000_000 then base as int else 300_000_000_000
    ensures attempt >= 1 ==>
              Backoff(base, attempt + 1)
              == if 2 * Backoff(base, attempt) < 300_000_000_000 then 2 * Backoff(base, attempt) else 300_000_000_000
    ensures 0 < Backoff(base, attempt) <= 300_000_000_000
  {
    var n := if attempt < 1 then 0 else attempt - 1;
    Pow2Grows(0, n);
    assert base as int * Pow2(n + 1) == 2 * (base as int * Pow2(n));
    assert base as int * Pow2(n) >= base as int;
  }

  lemma CapReached(base: Duration, i: nat, n: nat)
    requires base > 0 && i <= n
    ensures base as int * Pow2(i) <= base as int * Pow2(n)
  {
    Pow2Grows(i, n);
  }

  /** The loop computes the capped power without ever leaving the 64-bit range. */
  method ComputeBackoff(base: Duration, attempt: int) returns (d: Duration)
    requires base > 0
    ensures d as int == Backoff(base, attempt)
  {
    var n := if attempt < 1 then 1 else attempt;
    d := base;
    var i := 1;
    while i < n && d < FIVE_MINUTES
      invariant 1 <= i <= n && d > 0
      invariant d as int == base as int * Pow2(i - 1)
      decreases n - i
    {
      d := d * 2;
      i := i + 1;
    }
    CapReached(base, i - 1, n - 1);
    if d > FIVE_MINUTES {
      return FIVE_MINUTES;
    }
  }

  datatype DispatchResult = DispatchResult(leased: nat, delivered: nat, retried: nat, deadLetter: nat, failed: nat)

  /** What became of one leased message. */
  datatype Report = WasDelivered | WasRetried | WasDeadLettered | ReportLost | Uncounted

  function Tally(r: DispatchResult, report: Report): DispatchResult {
    match report
    case WasDelivered => r.(delivered := r.delivered + 1)
    case WasRetried => r.(retried := r.retried + 1)
    case WasDeadLettered => r.(deadLetter := r.deadLetter + 1)
    case ReportLost => r.(failed := r.failed + 1)
    case Uncounted => r
  }

  /** The result that counts exactly these reports. */
  function Tallied(leased: nat, reports: seq<Report>): DispatchResult {
    if reports == [] then DispatchResult(leased, 0, 0, 0, 0)
    else Tally(Tallied(leased, reports[..|reports| - 1]), reports[|reports| - 1])
  }

  lemma {:induction false} EveryReportCounted(leased: nat, reports: seq<Report>)
    requires forall i | 0 <= i < |reports| :: !reports[i].Uncounted?
    ensures var r := Tallied(leased, reports);
            r.leased == leased && r.delivered + r.retried + r.deadLetter + r.failed == |reports|
  {
    if reports != [] {
      EveryReportCounted(leased, reports[..|reports| - 1]);
    }
  }

  /** A report that closed the message agrees with its row, for good. */
  ghost predicate Borne(rows: Rows, id: string, report: Report) {
    && !report.Uncounted?
    && (report.WasDelivered? ==> id in rows && rows[id].message.status.OutboxDelivered?)
    && (report.WasDeadLettered? ==> id in rows && rows[id].message.status.OutboxDeadLetter?)
  }

  /** The row is still there and was counted at least as often as the dispatcher's copy says. */
  ghost predicate Current(rows: Rows, item: Row) {
    item.message.outboxId in rows && rows[item.message.outboxId].message.attempts >= item.message.attempts >= 1
  }

  ghost predicate AllBorne(rows: Rows, items: seq<Row>, reports: seq<Report>)
    requires |reports| <= |items|
  {
    forall i | 0 <= i < |reports| :: Borne(rows, items[i].message.outboxId, reports[i])
  }

  ghost predicate AllCurrent(rows: Rows, items: seq<Row>) {
    forall i | 0 <= i < |items| :: Current(rows, items[i])
  }

  /** What an adapter answers. */
  datatype Delivery = Accepted | Refused(reason: string)

  /**
   What the dispatcher cannot decide: locks, other clients' operations before each item, the answer to
   each delivery, and time.
   */
  datatype Surroundings = Surroundings(
    locked: set<string>,
    others: nat -> seq<Op>,
    answers: nat -> Delivery,
    now: Time,
    later: nat -> Time)

  ghost predicate Fair(w: Surroundings) {
    forall i: nat :: Admissible(w.others(i))
  }

  /** Delivered only what was accepted, retried only what was refused, and never an unknown destination. */
  predicate Follows(report: Report, known: bool, answer: Delivery) {
    || report.ReportLost?
    || (if !known then report.WasDeadLettered?
        else if answer.Accepted? then report.WasDelivered?
        else report.WasRetried? || report.WasDeadLettered?)
  }

  ghost predicate AllFollow(items: seq<Row>, reports: seq<Report>, adapters: set<string>, w: Surroundings)
    requires |reports| <= |items|
  {
    forall i | 0 <= i < |reports| :: Follows(reports[i], items[i].message.destination in adapters, w.answers(i))
  }

  lemma ExtensionBears(a: Rows, b: Rows, items: seq<Row>, reports: seq<Report>)
    requires Extends(a, b) && |reports| <= |items|
    requires AllBorne(a, items, reports) && AllCurrent(a, items)
    ensures AllBorne(b, items, reports) && AllCurrent(b, items)
  {
  }

  lemma Append(rows: Rows, items: seq<Row>, reports: seq<Report>, report: Report, adapters: set<string>, w: Surroundings)
    requires |reports| < |items| && AllBorne(rows, items, reports) && AllFollow(items, reports, adapters, w)
    requires Borne(rows, items[|reports|].message.outboxId, report)
    requires Follows(report, items[|reports|].message.destination in adapters, w.answers(|reports|))
    ensures AllBorne(rows, items, reports + [report]) && AllFollow(items, reports + [report], adapters, w)
  {
    hide Follows, Borne;
  }

  lemma HandedAreCurrent(before: Rows, after: Rows, picked: seq<string>, items: seq<Row>, owner: string, until: Time)
    requires Handed(before, after, picked, items, owner, until)
    ensures AllCurrent(after, items)
  {
  }

  lemma OneOp(rows: Rows, op: Op, m: int)
    requires DispatcherOp(rows, op, m)
    ensures RunOps(rows, []) == rows && RunOps(rows, [op]) == After(rows, op)
    ensures DispatcherRun(rows, [], m) && DispatcherRun(rows, [op], m)
  {
    assert [op][1..] == [];
  }

  lemma ExtendsReflexive(rows: Rows)
    ensures Extends(rows, rows)
  {
  }

  // ---- A batch that finishes within its lease -------------------------------

  /** The items from the i-th on are still the owner's. */
  ghost predicate StillHeld(rows: Rows, items: seq<Row>, i: nat, owner: string, until: Time) {
    && (forall j | i <= j < |items| :: HeldUntil(rows, items[j].message.outboxId, owner, until))
    && (forall j, k | 0 <= j < k < |items| :: items[j].message.outboxId != items[k].message.outboxId)
  }

  /** Nobody takes over an expired lease of this batch, and nobody else reports under this owner's name. */
  ghost predicate Calm(w: Surroundings, owner: string, until: Time) {
    forall i: nat, k, id | 0 <= k < |w.others(i)| :: Gentle(w.others(i)[k], id, owner, until)
  }

  lemma CalmKeepsHeld(rows: Rows, items: seq<Row>, i: nat, owner: string, until: Time, w: Surroundings)
    requires StillHeld(rows, items, i, owner, until) && Calm(w, owner, until)
    ensures StillHeld(RunOps(rows, w.others(i)), items, i, owner, until)
  {
    hide Gentle;
    forall j | i <= j < |items| ensures HeldUntil(RunOps(rows, w.others(i)), items[j].message.outboxId, owner, until) {
      HeldRun(rows, w.others(i), items[j].message.outboxId, owner, until);
    }
  }

  /** Reporting one item leaves the others held. */
  lemma ReportKeepsHeld(rows: Rows, ops: seq<Op>, items: seq<Row>, i: nat, owner: string, until: Time)
    requires i < |items| && StillHeld(rows, items, i, owner, until)
    requires forall k | 0 <= k < |ops| :: Reports(ops[k], items[i].message.outboxId, owner)
    ensures StillHeld(RunOps(rows, ops), items, i + 1, owner, until)
  {
    forall j | i + 1 <= j < |items| ensures HeldUntil(RunOps(rows, ops), items[j].message.outboxId, owner, until) {
      HeldRun(rows, ops, items[j].message.outboxId, owner, until);
    }
  }

  lemma HandedAreHeld(before: Rows, after: Rows, picked: seq<string>, items: seq<Row>, owner: string, until: Time, pool: set<string>, limit: int)
    requires Handed(before, after, picked, items, owner, until) && pool <= before.Keys && Prioritised(before, pool, picked, limit)
    ensures StillHeld(after, items, 0, owner, until)
  {
    hide Before;
  }

  /** Each item of the batch is the row picked for it, as the lease left it. */
  ghost predicate Batch(before: Rows, picked: seq<string>, items: seq<Row>) {
    && |items| == |picked|
    && (forall i | 0 <= i < |items| ::
          && picked[i] in before && items[i].message.outboxId == picked[i]
          && SameMessage(before[picked[i]].message, items[i].message)
          && items[i].message.attempts == before[picked[i]].message.attempts + 1)
  }

  lemma HandedIsBatch(before: Rows, after: Rows, picked: seq<string>, items: seq<Row>, owner: string, until: Time)
    requires Handed(before, after, picked, items, owner, until)
    ensures Batch(before, picked, items)
  {
  }

  ghost predicate NoneLost(reports: seq<Report>) {
    forall i | 0 <= i < |reports| :: !reports[i].ReportLost?
  }

  lemma {:induction false} NoneFailed(leased: nat, reports: seq<Report>)
    requires NoneLost(reports)
    ensures Tallied(leased, reports).failed == 0
  {
    if reports != [] {
      NoneFailed(leased, reports[..|reports| - 1]);
    }
  }

  /** The report of this item is in order: it can be written while the lease is held. */
  predicate Reportable(p: Principal, item: Row, owner: string, now: Time, later: Time, base: Duration) {
    && Authorized(p) && !Blank(item.message.outboxId) && !Blank(owner)
    && now != 0 && later != 0 && now + Backoff(base, item.message.attempts) != 0
  }

  ghost predicate AllReportable(p: Principal, owner: string, items: seq<Row>, w: Surroundings, base: Duration) {
    forall i | 0 <= i < |items| :: Reportable(p, items[i], owner, w.now, w.later(i), base)
  }

  lemma NothingYet(rows: Rows, p: Principal, owner: string, items: seq<Row>, adapters: set<string>, w: Surroundings, base: Duration)
    ensures AllBorne(rows, items, []) && AllFollow(items, [], adapters, w) && NoneLost([])
    ensures Tallied(|items|, []) == DispatchResult(|items|, 0, 0, 0, 0)
  {
  }

  lemma OneMore(p: Principal, owner: string, items: seq<Row>, reports: seq<Report>, report: Report, w: Surroundings, base: Duration)
    requires |reports| < |items|
    ensures Tallied(|items|, reports + [report]) == Tally(Tallied(|items|, reports), report)
    ensures AllReportable(p, owner, items, w, base) ==> Reportable(p, items[|reports|], owner, w.now, w.later(|reports|), base)
    ensures NoneLost(reports) && !report.ReportLost? ==> NoneLost(reports + [report])
  {
    hide Tally, Reportable;
    assert (reports + [report])[..|reports|] == reports;
  }

  lemma AllAreCounted(rows: Rows, items: seq<Row>, reports: seq<Report>)
    requires |reports| == |items| && AllBorne(rows, items, reports)
    ensures var r := Tallied(|items|, reports);
            r.leased == |items| && r.leased == r.delivered + r.retried + r.deadLetter + r.failed
  {
    EveryReportCounted(|items|, reports);
  }

  class Dispatcher {
    const store: ScopedPostgresOutbox
    const owner: string
    const leaseDuration: int
    const maxAttempts: int
    const baseBackoff: Duration
    var adapters: set<string>

    predicate Configured() {
      !Blank(owner) && Trim(owner) == owner && leaseDuration > 0 && maxAttempts >= 1 && baseBackoff > 0
    }

    constructor (s: ScopedPostgresOutbox, owner: string, leaseDuration: int, maxAttempts: int, baseBackoff: Duration)
      ensures store == s && this.owner == owner && this.leaseDuration == leaseDuration
      ensures this.maxAttempts == maxAttempts && this.baseBackoff == baseBackoff && adapters == {}
    {
      store, this.owner, this.leaseDuration, this.maxAttempts, this.baseBackoff := s, owner, leaseDuration, maxAttempts, baseBackoff;
      adapters := {};
    }

    /** Every dispatcher there is leases and reports under one and the same name. */
    static method NewDispatcher(s: ScopedPostgresOutbox, owner: string, leaseDuration: int, maxAttempts: int, baseBackoff: Duration)
      returns (d: Dispatcher?)
      ensures d != null <==> !Blank(owner) && leaseDuration > 0 && maxAttempts >= 1 && baseBackoff > 0
      ensures d != null ==> fresh(d) && d.Configured() && d.store == s && d.adapters == {}
      ensures d != null ==> d.owner == Trim(owner) && d.leaseDuration == leaseDuration
                            && d.baseBackoff == baseBackoff && d.maxAttempts == maxAttempts
    {
      TrimTwice(owner);
      var name := Trim(owner);
      if name == "" || leaseDuration <= 0 || maxAttempts < 1 || baseBackoff <= 0 { return null; }
      d := new Dispatcher(s, name, leaseDuration, maxAttempts, baseBackoff);
    }

    method Register(destination: string) returns (ok: bool)
      modifies this
      ensures ok <==> !Blank(destination) && Trim(destination) !in old(adapters)
      ensures adapters == if ok then old(adapters) + {Trim(destination)} else old(adapters)
    {
      TrimTwice(destination);
      var name := Trim(destination);
      ok := name != "" && name !in adapters;
      if ok { adapters := adapters + {name}; }
    }

    /** Whatever the others do before the next item. */
    method Others(w: Surroundings, i: nat)
      requires store.Valid() && Fair(w)
      modifies store
      ensures store.Valid() && Extends(old(store.rows), store.rows)
      ensures store.rows == RunOps(old(store.rows), w.others(i))
    {
      RunExtends(store.rows, w.others(i));
      store.Interleave(w.others(i));
    }

    /**
     Deliver one leased message and report it, by at most one operation. A message counts as delivered
     only if its adapter accepted it; a refused one is due again after the capped exponential backoff, or
     dead-lettered at the configured maximum; a report is lost exactly when the lease is.
     */
    method DispatchItem(p: Principal, item: Row, answer: Delivery, now: Time, later: Time) returns (report: Report, ghost ops: seq<Op>)
      requires store.Valid() && Current(store.rows, item) && Configured()
      modifies store
      ensures store.Valid() && Extends(old(store.rows), store.rows)
      ensures Borne(store.rows, item.message.outboxId, report)
      ensures Follows(report, item.message.destination in adapters, answer)
      ensures |ops| <= 1 && store.rows == RunOps(old(store.rows), ops) && DispatcherRun(old(store.rows), ops, maxAttempts)
      ensures forall k | 0 <= k < |ops| :: Reports(ops[k], item.message.outboxId, owner)
      ensures report.ReportLost? <==> ops == []
      ensures report.ReportLost? ==> !Holds(old(store.rows), item.message.outboxId, owner)
                                     || !Reportable(p, item, owner, now, later, baseBackoff)
      ensures !Holds(old(store.rows), item.message.outboxId, owner) ==> report.ReportLost?
      ensures report.WasDelivered? ==> store.rows[item.message.outboxId].message.deliveredAt == Some(later)
      ensures item.message.destination in adapters && answer.Refused? ==>
                && (report.WasRetried? ==>
                      Waiting(store.rows, item.message.outboxId, now + Backoff(baseBackoff, item.message.attempts), Trim(answer.reason)))
                && (report.WasRetried? ==> old(store.rows[item.message.outboxId].message.attempts) < maxAttempts)
                && (report.WasDeadLettered? ==> old(store.rows[item.message.outboxId].message.attempts) >= maxAttempts)
    {
      hide Inv, Extends, Blank, Trim, Authorized, Backoff, NeverDue, DueFrom;
      var id := item.message.outboxId;
      if item.message.destination !in adapters {
        report, ops := ReportFailure(p, item, now, now, item.message.attempts, "outbox destination is not configured");
        return;
      }
      if answer.Refused? {
        var wait := ComputeBackoff(baseBackoff, item.message.attempts);
        report, ops := ReportFailure(p, item, now, now + wait as int, maxAttempts, answer.reason);
        if report.Uncounted? { report := WasRetried; }
        return;
      }
      StepExtends(store.rows, Deliver(id, owner, later));
      ExtendsReflexive(store.rows);
      ghost var before := store.rows;
      var e := store.MarkDelivered(p, id, owner, later);
      ops := if e.Some? then [] else [Deliver(id, owner, later)];
      OneOp(before, Deliver(id, owner, later), maxAttempts);
      return if e.Some? then ReportLost else WasDelivered, ops;
    }

    /** FailDelivery; the status decides between dead letter and anything else. */
    method ReportFailure(p: Principal, item: Row, now: Time, next: Time, limit: int, reason: string)
      returns (report: Report, ghost ops: seq<Op>)
      requires store.Valid() && Current(store.rows, item) && Configured()
      requires limit == maxAttempts || limit == item.message.attempts
      modifies store
      ensures store.Valid() && Extends(old(store.rows), store.rows)
      ensures report.WasDeadLettered? || report.ReportLost? || (report.Uncounted? && limit > item.message.attempts)
      ensures report.WasDeadLettered? ==> Borne(store.rows, item.message.outboxId, report)
      ensures report.Uncounted? ==> Waiting(store.rows, item.message.outboxId, next, Trim(reason))
      ensures !report.ReportLost? ==> (report.WasDeadLettered? <==> old(store.rows[item.message.outboxId].message.attempts) >= limit)
      ensures |ops| <= 1 && store.rows == RunOps(old(store.rows), ops) && DispatcherRun(old(store.rows), ops, maxAttempts)
      ensures forall k | 0 <= k < |ops| :: Reports(ops[k], item.message.outboxId, owner)
      ensures report.ReportLost? <==> ops == []
      ensures report.ReportLost? <==> !(&& Authorized(p) && !Blank(item.message.outboxId) && now != 0 && next != 0
                                        && Holds(old(store.rows), item.message.outboxId, owner))
    {
      hide Inv, Extends, Blank, Trim, Authorized, NeverDue, DueFrom;
      var id := item.message.outboxId;
      ghost var op, before := Fail(id, owner, now, next, limit, Trim(reason)), store.rows;
      StepExtends(before, op);
      ExtendsReflexive(before);
      OneOp(before, op, maxAttempts);
      var status := store.FailDelivery(p, id, owner, now, next, limit, reason);
      ops := if status.Err? then [] else [op];
      return if status.Err? then ReportLost else if status.value.OutboxDeadLetter? then WasDeadLettered else Uncounted, ops;
    }

    /** Other clients first, then the next item of the batch. */
    method DispatchNext(p: Principal, item: Row, w: Surroundings, i: nat, ghost before: Rows, ghost items: seq<Row>, ghost reports: seq<Report>)
      returns (report: Report)
      requires store.Valid() && Fair(w) && Configured() && Extends(before, store.rows)
      requires |reports| == i < |items| && item == items[i]
      requires AllBorne(store.rows, items, reports) && AllCurrent(store.rows, items) && AllFollow(items, reports, adapters, w)
      modifies store
      ensures store.Valid() && Extends(before, store.rows)
      ensures AllBorne(store.rows, items, reports + [report]) && AllCurrent(store.rows, items)
      ensures AllFollow(items, reports + [report], adapters, w)
      ensures StillHeld(old(store.rows), items, i, owner, w.now + leaseDuration) && Calm(w, owner, w.now + leaseDuration) ==>
                && StillHeld(store.rows, items, i + 1, owner, w.now + leaseDuration)
                && (Reportable(p, item, owner, w.now, w.later(i), baseBackoff) ==> !report.ReportLost?)
    {
      hide Extends, AllBorne, AllFollow, Inv, Borne, Fair, Follows, Calm, Reportable, DispatcherRun, RunOps, Backoff, Reports, Waiting, Blank, Trim;
      ghost var start := store.rows;
      Others(w, i);
      ghost var middle := store.rows;
      ExtendsTransitive(before, start, middle);
      ExtensionBears(start, middle, items, reports);
      ghost var ops;
      report, ops := DispatchItem(p, item, w.answers(i), w.now, w.later(i));
      ExtendsTransitive(before, middle, store.rows);
      ExtensionBears(middle, store.rows, items, reports);
      Append(store.rows, items, reports, report, adapters, w);
      if StillHeld(start, items, i, owner, w.now + leaseDuration) && Calm(w, owner, w.now + leaseDuration) {
        CalmKeepsHeld(start, items, i, owner, w.now + leaseDuration, w);
        ReportKeepsHeld(middle, ops, items, i, owner, w.now + leaseDuration);
      }
    }

    /**
     One batch. Every leased message is counted once, by what its adapter answered: delivered, retried,
     dead-lettered or failed. What is counted as delivered or dead-lettered is so in the store when the
     batch returns, and none is lost in a batch that finishes within its lease.
     */
    method DispatchOnce(p: Principal, limit: int, w: Surroundings)
      returns (r: Result<DispatchResult, OutboxError>, ghost picked: seq<string>, ghost items: seq<Row>, ghost reports: seq<Report>)
      requires store.Valid() && Fair(w) && Configured()
      modifies store
      ensures store.Valid() && Extends(old(store.rows), store.rows)
      ensures r.Ok? <==> limit >= 1 && w.now != 0 && Authorized(p)
      ensures r.Err? ==> store.rows == old(store.rows)
      ensures r.Ok? ==> Prioritised(old(store.rows), DueIds(old(store.rows), w.now, w.locked), picked, if limit > 1000 then 1000 else limit)
      ensures r.Ok? ==> Batch(old(store.rows), picked, items)
      ensures r.Ok? ==> r.value.leased == r.value.delivered + r.value.retried + r.value.deadLetter + r.value.failed
      ensures r.Ok? ==> |items| == |reports| && r.value == Tallied(|items|, reports)
      ensures r.Ok? ==> AllBorne(store.rows, items, reports) && AllFollow(items, reports, adapters, w)
      ensures r.Ok? && Calm(w, owner, w.now + leaseDuration) && AllReportable(p, owner, items, w, baseBackoff) ==>
                NoneLost(reports) && r.value.failed == 0
    {
      hide Extends, AllBorne, AllCurrent, AllFollow, Inv, Handed, Prioritised, After, Fair, StillHeld, Calm, Batch, AllReportable, Blank, Trim,
           Authorized, IdsOf, Tallied, NoneLost;
      items, reports := [], [];
      ghost var before, until := store.rows, w.now + leaseDuration;
      var leased;
      leased, picked := store.LeaseDue(p, owner, limit, w.now, leaseDuration, w.locked);
      StepExtends(before, Lease(owner, w.now, until, IdsOf(picked)));
      ExtendsReflexive(before);
      if leased.Err? {
        return Err(leased.error), picked, items, reports;
      }
      items := leased.value;
      HandedAreCurrent(before, store.rows, picked, items, owner, until);
      HandedIsBatch(before, store.rows, picked, items, owner, until);
      HandedAreHeld(before, store.rows, picked, items, owner, until, DueIds(before, w.now, w.locked), if limit > MAX_BATCH then MAX_BATCH else limit);
      NothingYet(store.rows, p, owner, items, adapters, w, baseBackoff);
      var result := DispatchResult(|leased.value|, 0, 0, 0, 0);
      for i := 0 to |leased.value|
        invariant store.Valid() && Extends(before, store.rows)
        invariant |reports| == i && result == Tallied(|items|, reports)
        invariant AllBorne(store.rows, items, reports) && AllCurrent(store.rows, items)
        invariant AllFollow(items, reports, adapters, w)
        invariant Calm(w, owner, until) ==> StillHeld(store.rows, items, i, owner, until)
        invariant Calm(w, owner, until) && AllReportable(p, owner, items, w, baseBackoff) ==> NoneLost(reports)
      {
        var report := DispatchNext(p, leased.value[i], w, i, before, items, reports);
        result := Tally(result, report);
        OneMore(p, owner, items, reports, report, w, baseBackoff);
        reports := reports + [report];
      }
      AllAreCounted(store.rows, items, reports);
      if NoneLost(reports) { NoneFailed(|items|, reports); }
      r := Ok(result);
    }
  }

  /** The message waits for its next attempt. */
  ghost predicate Waiting(rows: Rows, id: string, from: Time, lastError: string) {
    && id in rows && rows[id].message.status.OutboxPending? && rows[id].message.availableAt == from
    && DueFrom(rows[id], from) && rows[id].leaseOwner.None? && rows[id].lastError == lastError
  }
}
