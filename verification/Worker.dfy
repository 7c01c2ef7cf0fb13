/**
 PersistentWorker.Execute: claim, reserve, start, invoke, settle, complete, each a call that other
 workers' transactions may precede. World fixes everything the worker does not decide itself.
 */
module Worker {
  import opened Common
  import opened ExecutionTypes
  import opened LeaseProtocol
  import opened LeaseRuns
  import opened LeaseRepository
  import opened LeaseMeaning
  import opened Budget

  datatype PreparedNode = PreparedNode(node: PlanNode, target: ExecutionTarget, policy: PolicyRecord, estimate: Counters)

  datatype Execution = Execution(id: string, planRevision: int)

  datatype EffectDisposition =
    | NotApplicable
    | NotApplied
    | EffectIsCommitted
    | EffectIsUnknown
    | OtherDisposition(name: string)

  /** What classifyInvocationError can see of an invocation error. */
  datatype InvokeError = InvokeError(class_: string, deadlineExceeded: bool, canceled: bool)

  datatype Invocation = Invocation(usage: Usage, disposition: EffectDisposition, failure: Option<InvokeError>)

  function Classify(e: InvokeError): (class_: string)
    ensures class_ != ""
    ensures e.class_ != "" ==> class_ == e.class_
    ensures e.class_ == "" ==> (class_ == "TIMEOUT" <==> e.deadlineExceeded)
    ensures e.class_ == "" && !e.deadlineExceeded ==> (class_ == "TRANSIENT" <==> e.canceled)
    ensures e.class_ == "" && !e.deadlineExceeded && !e.canceled ==> class_ == "UNKNOWN"
  {
    if e.class_ != "" then e.class_
    else if e.deadlineExceeded then "TIMEOUT"
    else if e.canceled then "TRANSIENT"
    else "UNKNOWN"
  }

  // ---- Estimates and actuals -----------------------------------------------

  /** preparedNodeFromFrozenBinding: the estimate reserved for a frozen target. */
  function FrozenEstimate(target: ExecutionTarget, estimatedCost: real): Counters {
    Counters(estimatedCost, 1, if target.kind.TargetModel? then 1 else 0, if target.kind.TargetTool? then 1 else 0)
  }

  /** actualBudgetForInvocation */
  function ActualBudget(target: ExecutionTarget, usage: Usage): Counters {
    Counters(usage.cost, 1, 0, if target.kind.TargetTool? then 1 else 0)
  }

  const STARTED_ONLY := Counters(0.0, 1, 0, 0)

  /** A ledger operation as a worker executing this target would issue it. */
  predicate IssuedFor(op: LedgerOp, target: ExecutionTarget) {
    match op
    case Reserve(_, estimate) => estimate == FrozenEstimate(target, estimate.cost)
    case Settle(_, actual) =>
      actual == STARTED_ONLY || actual == ActualBudget(target, NO_USAGE.(cost := actual.cost))
    case Release(_) => true
  }

  predicate WorkerOp(op: LedgerOp, targets: string -> ExecutionTarget) {
    IssuedFor(op, targets(op.id))
  }

  ghost predicate BookFrozen(book: Book, targets: string -> ExecutionTarget) {
    forall id | id in book :: book[id].estimate == FrozenEstimate(targets(id), book[id].estimate.cost)
  }

  /** Whatever a worker settles is covered, call for call, by the estimate frozen for the same target. */
  lemma {:induction false} WorkersAreCovered(l: LedgerState, ops: seq<LedgerOp>, targets: string -> ExecutionTarget)
    requires BookFrozen(l.book, targets)
    requires forall i | 0 <= i < |ops| :: WorkerOp(ops[i], targets)
    ensures CoveredRun(l, ops)
    decreases |ops|
  {
    if ops != [] {
      WorkersAreCovered(AfterOp(l, ops[0]), ops[1..], targets);
    }
  }

  /**
   Any number of workers sharing one ledger that starts within its limits never commit more calls than
   the limits allow, and overshoot the cost limit at most by their own cost overruns.
   */
  lemma WorkersShareBudget(l: LedgerState, ops: seq<LedgerOp>, targets: string -> ExecutionTarget)
    requires l.ids == [] && l.book == map[] && WithinLimit(l.reserved0.Plus(l.consumed0), l.limit)
    requires forall i | 0 <= i < |ops| :: WorkerOp(ops[i], targets)
    ensures var r := RunLedger(l, ops);
            && WithinCalls(Committed(r), r.limit)
            && (r.limit.maxCost > 0.0 ==> Committed(r).cost <= r.limit.maxCost + Sum(r, Overrun).cost)
  {
    FreshLedgerBounded(l);
    WorkersAreCovered(l, ops, targets);
    SharedBound(l, ops);
  }

  function ReservationId(attemptRef: string): string {
    "attempt/" + attemptRef
  }

  // ---- The worker ----------------------------------------------------------

  datatype WorkerError =
    | ConfigInvalid
    | PreparedNodeInvalid
    | LeaseFailure(lease: LeaseError)
    | BudgetFailure(budget: BudgetError)
    | InvocationFailure(class_: string)
    | EffectResolutionRequired

  datatype WorkerResult = WorkerResult(lease: Option<NodeLease>, reservationRef: Option<string>, invocation: Option<Invocation>)

  /** The i-th call is made at clock(i), after others(i) and bookings(i) have been committed by other workers. */
  datatype World = World(
    others: nat -> seq<Op>,
    bookings: nat -> seq<LedgerOp>,
    clock: nat -> Time,
    token: string,
    attemptId: string,
    invocation: Invocation)

  ghost predicate Foreign(world: World) {
    && (forall i: nat :: AdmissibleRun(world.others(i)))
    && (forall i: nat, k | 0 <= k < |world.bookings(i)| :: world.bookings(i)[k].id != ReservationId(world.attemptId))
  }

  predicate ValidCandidate(execution: Execution, c: PreparedNode) {
    && execution.id != "" && execution.planRevision >= 1 && c.node.id != ""
    && c.policy.id != "" && c.policy.decision.PolicyAllow?
    && (c.policy.executionRef != "" ==> c.policy.executionRef == execution.id)
    && (c.policy.planRevision > 0 ==> c.policy.planRevision == execution.planRevision)
    && (c.policy.nodeRef != "" ==> c.policy.nodeRef == c.node.id)
    && c.target.id != "" && c.target.revision >= 1 && !Blank(c.target.digest)
  }

  /** Joined errors: nil when no part failed. */
  function LeaseErrors(err: Option<LeaseError>): seq<WorkerError> {
    if err.Some? then [LeaseFailure(err.value)] else []
  }

  function BudgetErrors(err: Option<BudgetError>): seq<WorkerError> {
    if err.Some? then [BudgetFailure(err.value)] else []
  }

  /** The node and the attempt of this lease succeeded; a mutation has its effect committed. */
  ghost predicate Succeeded(db: Runtime, lease: NodeLease) {
    && lease.key in db
    && var n := db[lease.key];
    && n.row.state.NodeSucceeded? && n.row.fence == lease.fence
    && n.attempts != []
    && Last(n.attempts).fence == lease.fence
    && Last(n.attempts).status.AttemptSucceeded?
    && (IsMutation(n.row.effectClass) ==> Last(n.attempts).effectCommittedAt.Some?)
  }

  /** The attempt of this lease has its effect marked as started. */
  ghost predicate EffectMarked(db: Runtime, lease: NodeLease) {
    && lease.key in db
    && 1 <= lease.fence <= |db[lease.key].attempts|
    && db[lease.key].attempts[lease.fence - 1].effectStartedAt.Some?
  }

  lemma EffectStaysMarked(a: Runtime, b: Runtime, lease: NodeLease)
    requires EffectMarked(a, lease) && RuntimeExtends(a, b)
    ensures EffectMarked(b, lease)
  {
    assert Extends(a[lease.key], b[lease.key]);
    assert Grows(a[lease.key].attempts[lease.fence - 1], b[lease.key].attempts[lease.fence - 1]);
  }

  lemma CompleteSucceeds(db: Runtime, lease: NodeLease, completion: AttemptCompletion, now: Time)
    requires Inv(db) && RefusalIn(db, Complete(lease, NodeSucceeded, completion, now)).None?
    ensures Succeeded(After(db, Complete(lease, NodeSucceeded, completion, now)), lease)
  {
    StepKeepsInv(db, Complete(lease, NodeSucceeded, completion, now));
    assert NodeInv(db[lease.key]);
    assert NodeInv(After(db, Complete(lease, NodeSucceeded, completion, now))[lease.key]);
  }

  lemma MarkMarks(db: Runtime, lease: NodeLease, now: Time)
    requires Inv(db) && RefusalIn(db, MarkEffectStarted(lease, now)).None?
    ensures EffectMarked(After(db, MarkEffectStarted(lease, now)), lease)
  {
    assert NodeInv(db[lease.key]);
  }

  /** The disposition and the error leave it open whether the effect happened. */
  predicate Unresolved(i: Invocation) {
    match i.disposition
    case EffectIsCommitted => i.failure.Some?
    case NotApplied => i.failure.None?
    case _ => true
  }

  function KeyOf(execution: Execution, candidate: PreparedNode): NodeKey {
    NodeKey(execution.id, execution.planRevision, candidate.node.id)
  }

  /** The lease names an attempt that did not exist yet. */
  ghost predicate NewGrant(before: Runtime, lease: NodeLease) {
    lease.key in before ==> |before[lease.key].attempts| < lease.fence
  }

  lemma ClaimIsNew(start: Runtime, db: Runtime, lease: NodeLease, op: Op)
    requires RuntimeExtends(start, db) && Inv(db) && op.Claim? && op.key in db && RefusalIn(db, op).None?
    requires lease == Grant(db[op.key].row, op)
    ensures NewGrant(start, lease)
  {
    assert NodeInv(db[op.key]);
    if op.key in start { assert Extends(start[op.key], db[op.key]); }
  }

  /**
   For a non-idempotent mutation: the lease's attempt is the node's last and has its effect started, and
   nothing that was there before ever started one.
   */
  ghost predicate SoleEffect(before: Runtime, after: Runtime, lease: NodeLease) {
    && lease.key in after
    && (after[lease.key].row.effectClass.EffectNonIdempotentMutation? ==>
          && EffectMarked(after, lease) && lease.fence == |after[lease.key].attempts|
          && (lease.key in before ==>
                forall k | 0 <= k < |before[lease.key].attempts| :: before[lease.key].attempts[k].effectStartedAt.None?))
  }

  lemma OnlyEffect(before: Runtime, after: Runtime, lease: NodeLease)
    requires Inv(after) && RuntimeExtends(before, after) && NewGrant(before, lease) && EffectMarked(after, lease)
    ensures SoleEffect(before, after, lease)
  {
    assert NodeInv(after[lease.key]);
    if lease.key in before {
      assert Extends(before[lease.key], after[lease.key]);
      forall k | 0 <= k < |before[lease.key].attempts| && after[lease.key].row.effectClass.EffectNonIdempotentMutation?
        ensures before[lease.key].attempts[k].effectStartedAt.None?
      {
        assert Grows(before[lease.key].attempts[k], after[lease.key].attempts[k]);
      }
    }
  }

  // ---- What the worker books -----------------------------------------------

  /** The candidate's estimate was frozen from its target. */
  predicate Frozen(candidate: PreparedNode) {
    candidate.estimate == FrozenEstimate(candidate.target, candidate.estimate.cost)
  }

  /** The ledger's log grew, and what was added under this id is what a worker on this target issues. */
  ghost predicate Booked(a: seq<LedgerOp>, b: seq<LedgerOp>, id: string, candidate: PreparedNode) {
    && a <= b
    && (Frozen(candidate) ==> forall i | |a| <= i < |b| && b[i].id == id :: IssuedFor(b[i], candidate.target))
  }

  /** The log grew by operations under other ids. */
  ghost predicate Unbooked(a: seq<LedgerOp>, b: seq<LedgerOp>, id: string) {
    a <= b && forall i | |a| <= i < |b| :: b[i].id != id
  }

  lemma BookedOne(a: seq<LedgerOp>, op: LedgerOp, candidate: PreparedNode)
    requires Frozen(candidate) ==> IssuedFor(op, candidate.target)
    ensures Booked(a, a + [op], op.id, candidate)
  {
    hide IssuedFor;
  }

  lemma BookedBoth(a: seq<LedgerOp>, b: seq<LedgerOp>, c: seq<LedgerOp>, id: string, candidate: PreparedNode)
    requires Booked(a, b, id, candidate) && Booked(b, c, id, candidate)
    ensures Booked(a, c, id, candidate)
  {
    hide IssuedFor;
  }

  lemma UnbookedBoth(a: seq<LedgerOp>, b: seq<LedgerOp>, c: seq<LedgerOp>, id: string)
    requires Unbooked(a, b, id) && Unbooked(b, c, id)
    ensures Unbooked(a, c, id)
  {
  }

  // ---- What is on record, and when the worker gets through ------------------

  /** Nothing went wrong but the call itself. */
  predicate OnlyInvocationErrors(err: seq<WorkerError>) {
    forall i | 0 <= i < |err| :: err[i].InvocationFailure?
  }

  /** The store records the call as it went: SUCCEEDED, or FAILED with its class, and the reported usage. */
  ghost predicate Outcome(db: Runtime, lease: NodeLease, i: Invocation) {
    if i.failure.None? then RecordedAs(db, lease, NodeSucceeded, AttemptSucceeded, "", i.usage)
    else RecordedAs(db, lease, NodeFailed, AttemptFailed, Classify(i.failure.value), i.usage)
  }

  /** A node that was not worked on is READY again, or closed as FAILED when it could not be marked. */
  ghost predicate Tidied(db: Runtime, lease: NodeLease) {
    GivenBack(db, lease) || RecordedAs(db, lease, NodeFailed, AttemptFailed, "UNKNOWN", NO_USAGE)
  }

  function BindingOf(candidate: PreparedNode, lease: NodeLease): AttemptBinding {
    AttemptBinding(candidate.target.id, candidate.target.revision, candidate.target.digest,
                   candidate.policy.id, ReservationId(lease.attemptRef))
  }

  /** The lease's attempt carries the candidate's target, policy and budget reservation. */
  ghost predicate BoundTo(db: Runtime, lease: NodeLease, candidate: PreparedNode) {
    && lease.key in db && 1 <= lease.fence <= |db[lease.key].attempts|
    && var a := db[lease.key].attempts[lease.fence - 1];
    && a.id == lease.attemptRef && a.binding.Some?
    && a.binding.value.targetRef == candidate.target.id && a.binding.value.targetRevision == candidate.target.revision
    && a.binding.value.targetSnapshot == candidate.target.digest && a.binding.value.policyDecisionRef == candidate.policy.id
    && a.binding.value.budgetReservationRef == "attempt/" + lease.attemptRef
  }

  lemma StartBinds(db: Runtime, lease: NodeLease, binding: AttemptBinding, now: Time)
    requires Inv(db) && RefusalIn(db, StartAttempt(lease, binding, now)).None?
    ensures var db' := After(db, StartAttempt(lease, binding, now));
            && lease.key in db' && 1 <= lease.fence <= |db'[lease.key].attempts|
            && db'[lease.key].attempts[lease.fence - 1].binding == Some(binding)
            && db'[lease.key].attempts[lease.fence - 1].id == lease.attemptRef
  {
    assert NodeInv(db[lease.key]);
  }

  lemma BoundStays(a: Runtime, b: Runtime, lease: NodeLease, candidate: PreparedNode)
    requires BoundTo(a, lease, candidate) && RuntimeExtends(a, b)
    ensures BoundTo(b, lease, candidate)
  {
    assert Extends(a[lease.key], b[lease.key]);
    assert Grows(a[lease.key].attempts[lease.fence - 1], b[lease.key].attempts[lease.fence - 1]);
  }

  /** Other workers never use this lease, and every clock reads before its end. */
  ghost predicate Peaceful(world: World, lease: NodeLease) {
    && (forall i: nat :: world.clock(i) < lease.expiresAt)
    && (forall i: nat, k | 1 <= i && 0 <= k < |world.others(i)| :: Gentle(world.others(i)[k], lease, lease.expiresAt))
  }

  /** The lease is in force, and the marks are where the candidate's next step expects them. */
  ghost predicate OnTrack(db: Runtime, lease: NodeLease, candidate: PreparedNode, status: AttemptStatus) {
    && InHand(db, lease, lease.expiresAt, status) && !Blank(lease.attemptRef)
    && var row := db[lease.key].row;
    && row.effectClass == candidate.node.effect.class_
    && (row.effectStartedAt.Some? <==> status.AttemptRunning? && IsMutation(row.effectClass))
    && row.effectCommittedAt.None?
  }

  /** The holder may close the attempt the way its call went. */
  ghost predicate ReadyToClose(db: Runtime, lease: NodeLease, candidate: PreparedNode, i: Invocation) {
    && InHand(db, lease, lease.expiresAt, AttemptRunning) && NonNegativeUsage(i.usage)
    && db[lease.key].row.effectClass == candidate.node.effect.class_
    && (i.failure.None? && IsMutation(candidate.node.effect.class_) ==> db[lease.key].row.effectCommittedAt.Some?)
  }

  lemma StaysReady(db: Runtime, world: World, k: nat, lease: NodeLease, candidate: PreparedNode, i: Invocation)
    requires ReadyToClose(db, lease, candidate, i) && Peaceful(world, lease) && k >= 1
    ensures ReadyToClose(Run(db, world.others(k)), lease, candidate, i)
  {
    Undisturbed(db, world.others(k), lease, lease.expiresAt, AttemptRunning);
  }

  lemma ReadyCloses(db: Runtime, lease: NodeLease, candidate: PreparedNode, i: Invocation,
                    terminal: NodeState, completion: AttemptCompletion, now: Time)
    requires ReadyToClose(db, lease, candidate, i) && now < lease.expiresAt && ValidCompletion(terminal, completion)
    requires terminal.NodeSucceeded? ==> i.failure.None?
    ensures RefusalIn(db, Complete(lease, terminal, completion, now)).None?
  {
    CompleteAcceptedIff(db, lease, lease.expiresAt, terminal, completion, now);
  }

  lemma TrackReady(db: Runtime, lease: NodeLease, candidate: PreparedNode, i: Invocation)
    requires OnTrack(db, lease, candidate, AttemptRunning) && NonNegativeUsage(i.usage)
    requires !IsMutation(candidate.node.effect.class_) || i.failure.Some?
    ensures ReadyToClose(db, lease, candidate, i)
  {
  }

  ghost predicate OnTrackMark(db: Runtime, lease: NodeLease, candidate: PreparedNode) {
    && InHand(db, lease, lease.expiresAt, AttemptRunning) && !Blank(lease.attemptRef)
    && db[lease.key].row.effectClass == candidate.node.effect.class_ && IsMutation(candidate.node.effect.class_)
    && db[lease.key].row.effectStartedAt.None? && db[lease.key].row.effectCommittedAt.None?
  }

  lemma StaysOnTrack(db: Runtime, world: World, i: nat, lease: NodeLease, candidate: PreparedNode, status: AttemptStatus)
    requires OnTrack(db, lease, candidate, status) && Peaceful(world, lease) && i >= 1
    ensures OnTrack(Run(db, world.others(i)), lease, candidate, status)
    ensures Run(db, world.others(i))[lease.key] == db[lease.key]
  {
    Undisturbed(db, world.others(i), lease, lease.expiresAt, status);
  }

  lemma TrackStarts(db: Runtime, world: World, lease: NodeLease, candidate: PreparedNode)
    requires OnTrack(db, lease, candidate, AttemptPending) && Peaceful(world, lease) && ValidBinding(BindingOf(candidate, lease))
    ensures var op := StartAttempt(lease, BindingOf(candidate, lease), world.clock(2));
            && RefusalIn(db, op).None?
            && (IsMutation(candidate.node.effect.class_) ==> OnTrackMark(After(db, op), lease, candidate))
            && (!IsMutation(candidate.node.effect.class_) ==> OnTrack(After(db, op), lease, candidate, AttemptRunning))
  {
    assert world.clock(2) < lease.expiresAt;
    StartGives(db, lease, lease.expiresAt, BindingOf(candidate, lease), world.clock(2));
  }

  lemma TrackMarks(start: Runtime, db: Runtime, world: World, lease: NodeLease, candidate: PreparedNode)
    requires OnTrackMark(start, lease, candidate) && Peaceful(world, lease) && db == Run(start, world.others(3))
    ensures var op := MarkEffectStarted(lease, world.clock(3));
            RefusalIn(db, op).None? && OnTrack(After(db, op), lease, candidate, AttemptRunning)
  {
    Undisturbed(start, world.others(3), lease, lease.expiresAt, AttemptRunning);
    assert world.clock(3) < lease.expiresAt;
    EffectStartGives(db, lease, lease.expiresAt, world.clock(3));
  }

  lemma TrackCommits(db: Runtime, world: World, lease: NodeLease, candidate: PreparedNode)
    requires OnTrack(db, lease, candidate, AttemptRunning) && IsMutation(candidate.node.effect.class_) && Peaceful(world, lease)
    ensures var op := MarkEffectCommitted(lease, world.clock(7));
            && RefusalIn(db, op).None?
            && (NonNegativeUsage(world.invocation.usage) ==> ReadyToClose(After(db, op), lease, candidate, world.invocation))
  {
    assert world.clock(7) < lease.expiresAt;
    EffectCommitGives(db, lease, lease.expiresAt, world.clock(7));
  }

  /** The call's result tells what to record: well-formed usage and, for a mutation, a known effect. */
  predicate Resolved(candidate: PreparedNode, i: Invocation) {
    NonNegativeUsage(i.usage) && (IsMutation(candidate.node.effect.class_) ==> !Unresolved(i))
  }

  /** Execute did no more than try to mark a committed effect. */
  ghost predicate LeftOpen(before: Runtime, after: Runtime, world: World, lease: NodeLease) {
    || after == before
    || after == After(Run(before, world.others(7)), MarkEffectCommitted(lease, world.clock(7)))
  }

  /**
   Everything the worker needs is given: a sound configuration and candidate, a claimable node of the
   candidate's effect class, room in the budget, and peace for as long as the lease lasts.
   */
  ghost predicate CanRun(nodes: Runtime, view: LedgerState, execution: Execution, candidate: PreparedNode, world: World,
                         workerId: string, leaseTTL: int)
  {
    var key, db := KeyOf(execution, candidate), Run(nodes, world.others(0));
    var op := Op.Claim(key, workerId, leaseTTL, world.clock(0), world.token, world.attemptId);
    && !Blank(workerId) && leaseTTL > 0 && ValidCandidate(execution, candidate) && !Blank(world.attemptId)
    && key in db && RefusalIn(db, op).None? && db[key].row.effectClass == candidate.node.effect.class_
    && Peaceful(world, Grant(db[key].row, op)) && ValidBinding(BindingOf(candidate, Grant(db[key].row, op)))
    && BudgetRefusal(RunLedger(RunLedger(view, world.bookings(0)), world.bookings(1)),
                     LedgerOp.Reserve(ReservationId(world.attemptId), candidate.estimate)).None?
  }

  // ---- Stretches of an execution -------------------------------------------

  /** Store and ledger at one moment. */
  datatype Point = Point(nodes: Runtime, view: LedgerState, log: seq<LedgerOp>)

  /** Nothing happened to this reservation; nodes only grew. */
  ghost predicate Passes(p: Point, q: Point, id: string) {
    RuntimeExtends(p.nodes, q.nodes) && Unbooked(p.log, q.log, id) && Untouched(p.view.book, q.view.book, id)
  }

  /** The worker booked what a worker on this candidate books; nodes only grew. */
  ghost predicate Works(p: Point, q: Point, id: string, candidate: PreparedNode) {
    RuntimeExtends(p.nodes, q.nodes) && Booked(p.log, q.log, id, candidate)
  }

  lemma PassesSame(p: Point, id: string)
    ensures Passes(p, p, id)
  {
  }

  lemma PassesBoth(p: Point, q: Point, r: Point, id: string)
    requires Passes(p, q, id) && Passes(q, r, id)
    ensures Passes(p, r, id)
  {
    ExtendsTransitive(p.nodes, q.nodes, r.nodes);
    UnbookedBoth(p.log, q.log, r.log, id);
    hide RuntimeExtends, Unbooked;
  }

  lemma PassesStore(p: Point, q: Point, op: Op, id: string)
    requires Inv(p.nodes) && q.nodes == After(p.nodes, op) && q.view == p.view && q.log == p.log
    ensures Passes(p, q, id)
  {
    StepExtends(p.nodes, op);
    hide RuntimeExtends, After;
  }

  lemma PassesWorks(p: Point, q: Point, id: string, candidate: PreparedNode)
    requires Passes(p, q, id)
    ensures Works(p, q, id, candidate)
  {
    hide RuntimeExtends, IssuedFor;
  }

  lemma WorksBoth(p: Point, q: Point, r: Point, id: string, candidate: PreparedNode)
    requires Works(p, q, id, candidate) && Works(q, r, id, candidate)
    ensures Works(p, r, id, candidate)
  {
    ExtendsTransitive(p.nodes, q.nodes, r.nodes);
    BookedBoth(p.log, q.log, r.log, id, candidate);
    hide RuntimeExtends, Booked;
  }

  lemma WorksPasses(p: Point, q: Point, r: Point, id: string, candidate: PreparedNode)
    requires (Works(p, q, id, candidate) && Passes(q, r, id)) || (Passes(p, q, id) && Works(q, r, id, candidate))
    ensures Works(p, r, id, candidate)
  {
    if Works(p, q, id, candidate) && Passes(q, r, id) { PassesWorks(q, r, id, candidate); } else { PassesWorks(p, q, id, candidate); }
    hide Works, Passes;
    WorksBoth(p, q, r, id, candidate);
  }

  lemma WorksBooks(p: Point, q: Point, op: LedgerOp, candidate: PreparedNode)
    requires q.nodes == p.nodes && q.log == p.log + [op] && (Frozen(candidate) ==> IssuedFor(op, candidate.target))
    ensures Works(p, q, op.id, candidate)
  {
    BookedOne(p.log, op, candidate);
    hide Booked;
  }

  lemma PassesKeepsOpen(p: Point, q: Point, id: string, candidate: PreparedNode)
    requires Passes(p, q, id) && StillOpen(p.view.book, id, candidate)
    ensures StillOpen(q.view.book, id, candidate)
  {
  }

  lemma PassesKeepsAccount(p: Point, q: Point, id: string, candidate: PreparedNode, i: Option<Invocation>)
    requires Passes(p, q, id) && Accounted(p.view.book, id, candidate, i)
    ensures Accounted(q.view.book, id, candidate, i)
    ensures p.view.book[id].Released? ==> q.view.book[id].Released?
  {
  }

  lemma ReserveOpens(l: LedgerState, id: string, candidate: PreparedNode)
    requires BudgetRefusal(l, LedgerOp.Reserve(id, candidate.estimate)).None?
    ensures id !in l.book && StillOpen(AfterOp(l, LedgerOp.Reserve(id, candidate.estimate)).book, id, candidate)
  {
  }

  lemma ReleaseCloses(l: LedgerState, id: string, candidate: PreparedNode)
    requires StillOpen(l.book, id, candidate)
    ensures BudgetRefusal(l, LedgerOp.Release(id)).None?
    ensures var b := AfterOp(l, LedgerOp.Release(id)).book; Accounted(b, id, candidate, None) && b[id].Released?
  {
  }

  lemma StartedOnlyCloses(l: LedgerState, id: string, candidate: PreparedNode)
    requires StillOpen(l.book, id, candidate)
    ensures BudgetRefusal(l, LedgerOp.Settle(id, STARTED_ONLY)).None?
    ensures Accounted(AfterOp(l, LedgerOp.Settle(id, STARTED_ONLY)).book, id, candidate, None)
  {
  }

  lemma SettleCloses(l: LedgerState, id: string, candidate: PreparedNode, i: Invocation)
    requires StillOpen(l.book, id, candidate)
    ensures var op := LedgerOp.Settle(id, ActualBudget(candidate.target, i.usage));
            && (BudgetRefusal(l, op).None? <==> i.usage.cost >= 0.0)
            && Accounted(AfterOp(l, op).book, id, candidate, Some(i))
  {
  }

  lemma ErrorsShow(prefix: seq<WorkerError>, e: Option<LeaseError>)
    ensures OnlyInvocationErrors(prefix + LeaseErrors(e)) ==> e.None? && OnlyInvocationErrors(prefix)
    ensures e.None? ==> prefix + LeaseErrors(e) == prefix
  {
    var err := prefix + LeaseErrors(e);
    if e.Some? { assert err[|prefix|] == LeaseFailure(e.value); }
    assert forall i | 0 <= i < |prefix| :: prefix[i] == err[i];
  }

  lemma ReadyAfterCommit(db: Runtime, world: World, lease: NodeLease, candidate: PreparedNode)
    requires OnTrack(db, lease, candidate, AttemptRunning) && IsMutation(candidate.node.effect.class_) && Peaceful(world, lease)
    ensures InHand(After(db, MarkEffectCommitted(lease, world.clock(7))), lease, lease.expiresAt, AttemptRunning)
  {
    assert world.clock(7) < lease.expiresAt;
    EffectCommitGives(db, lease, lease.expiresAt, world.clock(7));
  }

  lemma TrackInHand(db: Runtime, lease: NodeLease, candidate: PreparedNode, status: AttemptStatus)
    requires OnTrack(db, lease, candidate, status)
    ensures InHand(db, lease, lease.expiresAt, status)
  {
  }

  lemma BindsCandidate(db: Runtime, lease: NodeLease, candidate: PreparedNode, now: Time)
    requires Inv(db) && RefusalIn(db, StartAttempt(lease, BindingOf(candidate, lease), now)).None?
    ensures BoundTo(After(db, StartAttempt(lease, BindingOf(candidate, lease), now)), lease, candidate)
  {
    StartBinds(db, lease, BindingOf(candidate, lease), now);
    hide After, RefusalIn, Inv;
  }

  /** The attempt can be started, bound and, for a mutation, marked. */
  ghost predicate StartsWell(db: Runtime, world: World, lease: NodeLease, candidate: PreparedNode) {
    OnTrack(db, lease, candidate, AttemptPending) && Peaceful(world, lease) && ValidBinding(BindingOf(candidate, lease))
  }

  lemma StartsWellAfter(db: Runtime, world: World, i: nat, lease: NodeLease, candidate: PreparedNode)
    requires StartsWell(db, world, lease, candidate) && i >= 1
    ensures StartsWell(Run(db, world.others(i)), world, lease, candidate)
  {
    StaysOnTrack(db, world, i, lease, candidate, AttemptPending);
  }

  /** The call was made and its result can be recorded. */
  ghost predicate EndsWell(db: Runtime, world: World, lease: NodeLease, candidate: PreparedNode) {
    OnTrack(db, lease, candidate, AttemptRunning) && Peaceful(world, lease)
  }

  class PersistentWorker {
    const workerId: string
    const leaseTTL: int
    const store: PostgresExecutionNodeLeases
    const ledger: BudgetLedger

    constructor (workerId: string, leaseTTL: int, store: PostgresExecutionNodeLeases, ledger: BudgetLedger)
      ensures this.workerId == workerId && this.leaseTTL == leaseTTL && this.store == store && this.ledger == ledger
    {
      this.workerId, this.leaseTTL, this.store, this.ledger := workerId, leaseTTL, store, ledger;
    }

    ghost predicate Valid()
      reads store, ledger
    {
      store.Valid() && ledger.Valid()
    }

    ghost function Now(): Point
      reads store, ledger
    {
      Point(store.nodes, ledger.view, ledger.log)
    }

    /** What other workers commit before the i-th call. */
    method Yield(world: World, i: nat)
      requires Valid() && Foreign(world)
      modifies store, ledger
      ensures Valid() && Passes(old(Now()), Now(), ReservationId(world.attemptId))
      ensures store.nodes == Run(old(store.nodes), world.others(i))
      ensures ledger.view == RunLedger(old(ledger.view), world.bookings(i))
    {
      store.Interleave(world.others(i));
      OthersDoNotTouch(ledger.view, world.bookings(i), ReservationId(world.attemptId));
      ledger.Interleave(world.bookings(i));
    }

    /** atCall is the runtime as it stood when the target was called. */
    method Execute(execution: Execution, candidate: PreparedNode, world: World)
      returns (result: WorkerResult, err: seq<WorkerError>, ghost atCall: Runtime)
      requires Valid() && Foreign(world)
      modifies store, ledger
      ensures Valid() && RuntimeExtends(old(store.nodes), store.nodes)
      // a nil error means the work is durably done under this worker's own lease
      ensures err == [] ==> result.lease.Some? && Succeeded(store.nodes, result.lease.value)
      // the lease is a new grant for the candidate's node
      ensures result.lease.Some? ==>
                result.lease.value.key == KeyOf(execution, candidate) && NewGrant(old(store.nodes), result.lease.value)
      // a mutation target is called only once its effect mark is durable, and for a non-idempotent node
      // only if no attempt made before this call ever started an effect
      ensures result.invocation.Some? ==> result.lease.Some?
      ensures result.invocation.Some? && IsMutation(candidate.node.effect.class_) ==>
                && Inv(atCall) && RuntimeExtends(old(store.nodes), atCall) && RuntimeExtends(atCall, store.nodes)
                && EffectMarked(atCall, result.lease.value)
                && SoleEffect(old(store.nodes), store.nodes, result.lease.value)
      // a reservation that was made is accounted for
      ensures result.reservationRef.Some? ==>
                && result.reservationRef.value == ReservationId(world.attemptId)
                && result.reservationRef.value !in old(ledger.view.book)
                && Accounted(ledger.view.book, result.reservationRef.value, candidate, result.invocation)
      ensures result.invocation.Some? ==> result.reservationRef.Some? && result.invocation.value == world.invocation
      ensures Booked(old(ledger.log), ledger.log, ReservationId(world.attemptId), candidate)
      // what is on record: the binding, the call as it went, or a node left tidy without a call
      ensures result.invocation.Some? ==> BoundTo(store.nodes, result.lease.value, candidate)
      ensures result.invocation.Some? && OnlyInvocationErrors(err) ==> Outcome(store.nodes, result.lease.value, world.invocation)
      ensures result.lease.Some? && result.invocation.None? && |err| == 1 ==> Tidied(store.nodes, result.lease.value)
      // an open effect asks for resolution
      ensures result.invocation.Some? && AsksResolution(candidate, world.invocation) ==> err != [] && err[0] == EffectResolutionRequired
      // an unaccounted call is not closed
      ensures result.invocation.Some? && world.invocation.usage.cost < 0.0 ==> |err| == 1 && err[0].BudgetFailure?
      // given what it needs, the worker calls the target and records a result that tells what to record
      ensures CanRun(old(store.nodes), old(ledger.view), execution, candidate, world, workerId, leaseTTL) ==>
                && result.invocation.Some?
                && (Resolved(candidate, world.invocation) ==> OnlyInvocationErrors(err) && |err| <= 1)
                && (LeavesOpen(candidate, world.invocation) ==>
                      InHand(store.nodes, result.lease.value, result.lease.value.expiresAt, AttemptRunning))
    {
      hide After, RefusalIn, Run, RunLedger, AfterOp, BudgetRefusal, Inv, Implements, Foreign, RuntimeExtends, Booked, Unbooked,
           Untouched, Passes, Works, Accounted, Succeeded, Outcome, Tidied, BoundTo, EffectMarked, SoleEffect, StartsWell, EndsWell, InHand;
      ghost var p0, id := Now(), ReservationId(world.attemptId);
      PassesSame(p0, id);
      PassesWorks(p0, p0, id, candidate);
      WorksMeans(p0, p0, id, candidate);
      result, atCall := WorkerResult(None, None, None), store.nodes;
      if Blank(workerId) || leaseTTL <= 0 { return result, [ConfigInvalid], atCall; }
      if !ValidCandidate(execution, candidate) { return result, [PreparedNodeInvalid], atCall; }
      var key := KeyOf(execution, candidate);
      Yield(world, 0);
      ghost var p1 := Now();
      var granted, claimErr := store.Claim(key, workerId, leaseTTL, world.clock(0), world.token, world.attemptId);
      ghost var op := Op.Claim(key, workerId, leaseTTL, world.clock(0), world.token, world.attemptId);
      ghost var p2 := Now();
      PassesStore(p1, p2, op, id);
      PassesBoth(p0, p1, p2, id);
      PassesWorks(p0, p2, id, candidate);
      WorksMeans(p0, p2, id, candidate);
      if claimErr.Some? { return result, [LeaseFailure(claimErr.value)], atCall; }
      PassesMeans(p0, p1, id);
      ClaimIsNew(p0.nodes, p1.nodes, granted.value, op);
      if CanRun(old(store.nodes), old(ledger.view), execution, candidate, world, workerId, leaseTTL) {
        ClaimStartsWell(p1.nodes, op, granted.value, candidate, world);
      }
      result, err, atCall := RunAttempt(candidate, world, granted.value, execution.id);
      WorksPasses(p0, p2, Now(), id, candidate);
      WorksMeans(p0, Now(), id, candidate);
      PassesMeans(p0, p2, id);
      if result.invocation.Some? && IsMutation(candidate.node.effect.class_) {
        ExtendsTransitive(p0.nodes, p2.nodes, atCall);
        EffectStaysMarked(atCall, store.nodes, granted.value);
        OnlyEffect(p0.nodes, store.nodes, granted.value);
      }
    }

    /** Everything after the claim. */
    method RunAttempt(candidate: PreparedNode, world: World, lease: NodeLease, executionId: string)
      returns (result: WorkerResult, err: seq<WorkerError>, ghost atCall: Runtime)
      requires Valid() && Foreign(world) && lease.attemptRef == world.attemptId
      modifies store, ledger
      ensures Valid() && Works(old(Now()), Now(), ReservationId(world.attemptId), candidate)
      ensures result.lease == Some(lease)
      ensures err == [] ==> Succeeded(store.nodes, lease)
      ensures result.invocation.Some? && IsMutation(candidate.node.effect.class_) ==>
                && Inv(atCall) && RuntimeExtends(old(store.nodes), atCall) && RuntimeExtends(atCall, store.nodes)
                && EffectMarked(atCall, lease)
      ensures result.reservationRef.Some? ==>
                && result.reservationRef.value == ReservationId(world.attemptId)
                && result.reservationRef.value !in old(ledger.view.book)
                && Accounted(ledger.view.book, result.reservationRef.value, candidate, result.invocation)
      ensures result.invocation.Some? ==> result.reservationRef.Some? && result.invocation.value == world.invocation
      ensures result.invocation.Some? ==> BoundTo(store.nodes, lease, candidate)
      ensures result.invocation.Some? && OnlyInvocationErrors(err) ==> Outcome(store.nodes, lease, world.invocation)
      ensures result.invocation.None? && |err| == 1 ==> Tidied(store.nodes, lease)
      ensures result.invocation.Some? && AsksResolution(candidate, world.invocation) ==> err != [] && err[0] == EffectResolutionRequired
      ensures result.invocation.Some? && world.invocation.usage.cost < 0.0 ==> |err| == 1 && err[0].BudgetFailure?
      ensures StartsWell(old(store.nodes), world, lease, candidate)
              && BudgetRefusal(RunLedger(old(ledger.view), world.bookings(1)),
                               LedgerOp.Reserve(ReservationId(world.attemptId), candidate.estimate)).None?
              ==>
                && result.invocation.Some?
                && (Resolved(candidate, world.invocation) ==> OnlyInvocationErrors(err) && |err| <= 1)
                && (LeavesOpen(candidate, world.invocation) ==> InHand(store.nodes, lease, lease.expiresAt, AttemptRunning))
    {
      hide After, RefusalIn, Run, RunLedger, AfterOp, BudgetRefusal, Inv, Implements, Foreign, RuntimeExtends, Booked, Unbooked,
           Untouched, Passes, Works, StillOpen, Accounted, Succeeded, Outcome, GivenBack, RecordedAs, BoundTo, EffectMarked,
           StartsWell, EndsWell, InHand, Resolved, AsksResolution, LeavesOpen, OnlyInvocationErrors;
      ghost var p0 := Now();
      result, atCall := WorkerResult(Some(lease), None, None), store.nodes;
      var id := ReservationId(lease.attemptRef);
      Yield(world, 1);
      ghost var p1 := Now();
      if StartsWell(p0.nodes, world, lease, candidate) { StartsWellAfter(p0.nodes, world, 1, lease, candidate); }
      var reserveErr := ledger.Reserve(id, executionId, candidate.node.id, candidate.estimate);
      ghost var p2 := Now();
      WorksBooks(p1, p2, LedgerOp.Reserve(id, candidate.estimate), candidate);
      WorksPasses(p0, p1, p2, id, candidate);
      if reserveErr.Some? {
        var releaseErr := GiveUp(world, lease, 2);
        WorksPasses(p0, p2, Now(), id, candidate);
        return result, [BudgetFailure(reserveErr.value)] + LeaseErrors(releaseErr), atCall;
      }
      ReserveOpens(p1.view, id, candidate);
      PassesNew(p0, p1, id);
      result := result.(reservationRef := Some(id));
      var started, startErrs := StartOrGiveUp(candidate, world, lease, id);
      ghost var p3 := Now();
      atCall := store.nodes;
      WorksBoth(p0, p2, p3, id, candidate);
      if !started { return result, startErrs, atCall; }
      err := InvokeAndFinish(candidate, world, lease, id);
      WorksMeans(p0, p3, id, candidate);
      WorksMeans(p3, Now(), id, candidate);
      WorksBoth(p0, p3, Now(), id, candidate);
      BoundStays(p3.nodes, store.nodes, lease, candidate);
      result := result.(invocation := Some(world.invocation));
    }

    method GiveUp(world: World, lease: NodeLease, i: nat) returns (err: Option<LeaseError>)
      requires Valid() && Foreign(world)
      modifies store, ledger
      ensures Valid() && Passes(old(Now()), Now(), ReservationId(world.attemptId))
      ensures err.None? ==> GivenBack(store.nodes, lease)
    {
      hide After, RefusalIn, Run, RunLedger, Inv, Implements, Foreign, Passes, GivenBack;
      ghost var p0 := Now();
      Yield(world, i);
      ghost var p1 := Now();
      err := store.ReleaseBeforeEffect(lease, world.clock(i));
      PassesStore(p1, Now(), Op.ReleaseBeforeEffect(lease, world.clock(i)), ReservationId(world.attemptId));
      PassesBoth(p0, p1, Now(), ReservationId(world.attemptId));
      if err.None? { ReleaseGivesBack(p1.nodes, lease, world.clock(i)); }
    }

    method ReleaseAndGiveUp(candidate: PreparedNode, world: World, lease: NodeLease, id: string)
      returns (err: seq<WorkerError>)
      requires Valid() && Foreign(world) && id == ReservationId(world.attemptId)
      requires StillOpen(ledger.view.book, id, candidate)
      modifies store, ledger
      ensures Valid() && Works(old(Now()), Now(), id, candidate)
      ensures Accounted(ledger.view.book, id, candidate, None) && ledger.view.book[id].Released?
      ensures err == [] ==> GivenBack(store.nodes, lease)
    {
      hide After, RefusalIn, Run, RunLedger, AfterOp, BudgetRefusal, Inv, Implements, Foreign, Passes, Works, StillOpen, GivenBack;
      ghost var p0 := Now();
      Yield(world, 3);
      ghost var p1 := Now();
      PassesKeepsOpen(p0, p1, id, candidate);
      ReleaseCloses(p1.view, id, candidate);
      var budgetErr := ledger.Release(id);
      ghost var p2 := Now();
      WorksBooks(p1, p2, LedgerOp.Release(id), candidate);
      WorksPasses(p0, p1, p2, id, candidate);
      var leaseErr := GiveUp(world, lease, 4);
      PassesKeepsAccount(p2, Now(), id, candidate, None);
      WorksPasses(p0, p2, Now(), id, candidate);
      return BudgetErrors(budgetErr) + LeaseErrors(leaseErr);
    }

    /** StartAttempt and, for a mutation, MarkEffectStarted; on failure the reservation is closed and the lease given up. */
    method StartOrGiveUp(candidate: PreparedNode, world: World, lease: NodeLease, id: string)
      returns (started: bool, err: seq<WorkerError>)
      requires Valid() && Foreign(world) && id == ReservationId(world.attemptId) && lease.attemptRef == world.attemptId
      requires StillOpen(ledger.view.book, id, candidate)
      modifies store, ledger
      ensures Valid() && Works(old(Now()), Now(), id, candidate)
      ensures started ==> StillOpen(ledger.view.book, id, candidate) && BoundTo(store.nodes, lease, candidate)
      ensures started && IsMutation(candidate.node.effect.class_) ==> EffectMarked(store.nodes, lease)
      ensures !started ==> Accounted(ledger.view.book, id, candidate, None) && err != [] && (|err| == 1 ==> Tidied(store.nodes, lease))
      ensures StartsWell(old(store.nodes), world, lease, candidate) ==> started && EndsWell(store.nodes, world, lease, candidate)
    {
      hide After, RefusalIn, Run, RunLedger, AfterOp, Inv, Implements, Foreign, Passes, Works, StillOpen, Accounted, GivenBack, RecordedAs,
           BoundTo, EffectMarked, StartsWell, EndsWell, OnTrackMark;
      var binding := AttemptBinding(candidate.target.id, candidate.target.revision, candidate.target.digest,
                                    candidate.policy.id, id);
      ghost var p0 := Now();
      Yield(world, 2);
      ghost var p1 := Now();
      PassesKeepsOpen(p0, p1, id, candidate);
      if StartsWell(p0.nodes, world, lease, candidate) {
        StartsWellAfter(p0.nodes, world, 2, lease, candidate);
        WellStarts(p1.nodes, world, lease, candidate);
      }
      var startErr := store.StartAttempt(lease, binding, world.clock(2));
      ghost var p2 := Now();
      PassesStore(p1, p2, Op.StartAttempt(lease, binding, world.clock(2)), id);
      PassesBoth(p0, p1, p2, id);
      PassesKeepsOpen(p1, p2, id, candidate);
      PassesWorks(p0, p2, id, candidate);
      if startErr.Some? {
        var cleanupErrs := ReleaseAndGiveUp(candidate, world, lease, id);
        WorksBoth(p0, p2, Now(), id, candidate);
        return false, [LeaseFailure(startErr.value)] + cleanupErrs;
      }
      BindsCandidate(p1.nodes, lease, candidate, world.clock(2));
      if !IsMutation(candidate.node.effect.class_) { return true, []; }
      started, err := MarkOrFail(candidate, world, lease, id);
      WorksBoth(p0, p2, Now(), id, candidate);
      WorksMeans(p2, Now(), id, candidate);
      BoundStays(p2.nodes, store.nodes, lease, candidate);
    }

    /** MarkEffectStarted; on failure the started attempt is charged and closed as FAILED. */
    method MarkOrFail(candidate: PreparedNode, world: World, lease: NodeLease, id: string)
      returns (marked: bool, err: seq<WorkerError>)
      requires Valid() && Foreign(world) && id == ReservationId(world.attemptId)
      requires StillOpen(ledger.view.book, id, candidate)
      modifies store, ledger
      ensures Valid() && Works(old(Now()), Now(), id, candidate)
      ensures marked ==> StillOpen(ledger.view.book, id, candidate) && EffectMarked(store.nodes, lease)
      ensures !marked ==> Accounted(ledger.view.book, id, candidate, None) && err != [] && (|err| == 1 ==> Tidied(store.nodes, lease))
      ensures OnTrackMark(old(store.nodes), lease, candidate) && Peaceful(world, lease) ==>
                marked && EndsWell(store.nodes, world, lease, candidate)
    {
      hide After, RefusalIn, Run, RunLedger, AfterOp, BudgetRefusal, Inv, Implements, Foreign, Passes, Works, StillOpen, Accounted,
           GivenBack, RecordedAs, EffectMarked, OnTrack, OnTrackMark, Peaceful;
      ghost var p0 := Now();
      Yield(world, 3);
      ghost var p1 := Now();
      PassesKeepsOpen(p0, p1, id, candidate);
      if OnTrackMark(p0.nodes, lease, candidate) && Peaceful(world, lease) { TrackMarks(p0.nodes, p1.nodes, world, lease, candidate); }
      var markErr := store.MarkEffectStarted(lease, world.clock(3));
      ghost var p2 := Now();
      PassesStore(p1, p2, Op.MarkEffectStarted(lease, world.clock(3)), id);
      PassesBoth(p0, p1, p2, id);
      PassesWorks(p0, p2, id, candidate);
      PassesKeepsOpen(p1, p2, id, candidate);
      if markErr.None? {
        MarkMarks(p1.nodes, lease, world.clock(3));
        return true, [];
      }
      Yield(world, 4);
      ghost var p3 := Now();
      PassesKeepsOpen(p2, p3, id, candidate);
      WorksPasses(p0, p2, p3, id, candidate);
      StartedOnlyCloses(p3.view, id, candidate);
      var settleErr := ledger.Settle(id, STARTED_ONLY);
      ghost var p4 := Now();
      WorksBooks(p3, p4, LedgerOp.Settle(id, STARTED_ONLY), candidate);
      WorksBoth(p0, p3, p4, id, candidate);
      var completeErr := FailBeforeEffect(world, lease);
      PassesKeepsAccount(p4, Now(), id, candidate, None);
      WorksPasses(p0, p4, Now(), id, candidate);
      return false, [LeaseFailure(markErr.value)] + BudgetErrors(settleErr) + LeaseErrors(completeErr);
    }

    method FailBeforeEffect(world: World, lease: NodeLease) returns (err: Option<LeaseError>)
      requires Valid() && Foreign(world)
      modifies store, ledger
      ensures Valid() && Passes(old(Now()), Now(), ReservationId(world.attemptId))
      ensures err.None? ==> RecordedAs(store.nodes, lease, NodeFailed, AttemptFailed, "UNKNOWN", NO_USAGE)
    {
      hide After, RefusalIn, Run, RunLedger, Inv, Implements, Foreign, Passes, RecordedAs;
      ghost var p0 := Now();
      Yield(world, 5);
      ghost var p1 := Now();
      var failed := AttemptCompletion(AttemptFailed, "UNKNOWN", NO_USAGE);
      err := store.Complete(lease, NodeFailed, failed, world.clock(5));
      PassesStore(p1, Now(), Op.Complete(lease, NodeFailed, failed, world.clock(5)), ReservationId(world.attemptId));
      PassesBoth(p0, p1, Now(), ReservationId(world.attemptId));
      if err.None? { CompleteRecords(p1.nodes, lease, NodeFailed, failed, world.clock(5)); }
    }

    /** The target call, its settlement, and the completion of the attempt. */
    method InvokeAndFinish(candidate: PreparedNode, world: World, lease: NodeLease, id: string)
      returns (err: seq<WorkerError>)
      requires Valid() && Foreign(world) && id == ReservationId(world.attemptId)
      requires StillOpen(ledger.view.book, id, candidate)
      requires IsMutation(candidate.node.effect.class_) ==> EffectMarked(store.nodes, lease)
      modifies store, ledger
      ensures Valid() && Works(old(Now()), Now(), id, candidate)
      ensures Accounted(ledger.view.book, id, candidate, Some(world.invocation))
      ensures err == [] ==> Succeeded(store.nodes, lease)
      ensures OnlyInvocationErrors(err) ==> Outcome(store.nodes, lease, world.invocation)
      ensures AsksResolution(candidate, world.invocation) ==> err != [] && err[0] == EffectResolutionRequired
      ensures world.invocation.usage.cost < 0.0 ==>
                |err| == 1 && err[0].BudgetFailure? && store.nodes == Run(old(store.nodes), world.others(6))
      ensures EndsWell(old(store.nodes), world, lease, candidate) ==>
                && (Resolved(candidate, world.invocation) ==> OnlyInvocationErrors(err) && |err| <= 1)
                && (LeavesOpen(candidate, world.invocation) ==> InHand(store.nodes, lease, lease.expiresAt, AttemptRunning))
    {
      hide After, RefusalIn, Run, RunLedger, AfterOp, BudgetRefusal, Inv, Implements, Foreign, Passes, Works, StillOpen, Accounted,
           EffectMarked, Succeeded, Outcome, EndsWell, InHand, ReadyToClose;
      ghost var p0 := Now();
      Yield(world, 6);
      ghost var p1 := Now();
      PassesKeepsOpen(p0, p1, id, candidate);
      if EndsWell(p0.nodes, world, lease, candidate) {
        EndsWellAfter(p0.nodes, world, 6, lease, candidate);
        EndsWellInHand(p1.nodes, world, lease, candidate);
      }
      SettleCloses(p1.view, id, candidate, world.invocation);
      var settleErr := ledger.Settle(id, ActualBudget(candidate.target, world.invocation.usage));
      ghost var p2 := Now();
      WorksBooks(p1, p2, LedgerOp.Settle(id, ActualBudget(candidate.target, world.invocation.usage)), candidate);
      WorksPasses(p0, p1, p2, id, candidate);
      if settleErr.Some? {
        err := [BudgetFailure(settleErr.value)];
        assert err[0].BudgetFailure?;
        return;
      }
      if IsMutation(candidate.node.effect.class_) {
        err := FinishMutation(world, lease, candidate);
      } else {
        if EndsWell(p2.nodes, world, lease, candidate) && NonNegativeUsage(world.invocation.usage) {
          WellReady(p2.nodes, world, lease, candidate, world.invocation);
        }
        err := CompleteAs(world, 7, lease, candidate, world.invocation);
      }
      PassesKeepsAccount(p2, Now(), id, candidate, Some(world.invocation));
      WorksPasses(p0, p2, Now(), id, candidate);
    }

    /** Complete as SUCCEEDED without an invocation error, as FAILED with one. */
    method CompleteAs(world: World, i: nat, lease: NodeLease, candidate: PreparedNode, invocation: Invocation) returns (err: seq<WorkerError>)
      requires Valid() && Foreign(world) && i >= 1
      modifies store, ledger
      ensures Valid() && Passes(old(Now()), Now(), ReservationId(world.attemptId))
      ensures err == [] ==> Succeeded(store.nodes, lease)
      ensures invocation.failure.Some? ==> err != [] && err[0] == InvocationFailure(Classify(invocation.failure.value))
      ensures OnlyInvocationErrors(err) ==> Outcome(store.nodes, lease, invocation)
      ensures ReadyToClose(old(store.nodes), lease, candidate, invocation) && Peaceful(world, lease) ==>
                OnlyInvocationErrors(err) && |err| <= 1
    {
      hide After, RefusalIn, Run, RunLedger, Inv, Implements, Foreign, Passes, Succeeded, RecordedAs, InHand;
      ghost var p0 := Now();
      Yield(world, i);
      ghost var p1 := Now();
      var ok := invocation.failure.None?;
      var terminal := if ok then NodeSucceeded else NodeFailed;
      var completion := if ok then AttemptCompletion(AttemptSucceeded, "", invocation.usage)
                        else AttemptCompletion(AttemptFailed, Classify(invocation.failure.value), invocation.usage);
      if ReadyToClose(p0.nodes, lease, candidate, invocation) && Peaceful(world, lease) {
        StaysReady(p0.nodes, world, i, lease, candidate, invocation);
        assert world.clock(i) < lease.expiresAt;
        ReadyCloses(p1.nodes, lease, candidate, invocation, terminal, completion, world.clock(i));
      }
      var completeErr := store.Complete(lease, terminal, completion, world.clock(i));
      PassesStore(p1, Now(), Op.Complete(lease, terminal, completion, world.clock(i)), ReservationId(world.attemptId));
      PassesBoth(p0, p1, Now(), ReservationId(world.attemptId));
      if completeErr.None? { CompleteRecords(p1.nodes, lease, terminal, completion, world.clock(i)); }
      if !ok {
        ErrorsShow([InvocationFailure(completion.errorClass)], completeErr);
        return [InvocationFailure(completion.errorClass)] + LeaseErrors(completeErr);
      }
      ErrorsShow([], completeErr);
      if completeErr.None? { CompleteSucceeds(p1.nodes, lease, completion, world.clock(i)); }
      return [] + LeaseErrors(completeErr);
    }

    method FinishMutation(world: World, lease: NodeLease, candidate: PreparedNode) returns (err: seq<WorkerError>)
      requires Valid() && Foreign(world) && IsMutation(candidate.node.effect.class_)
      modifies store, ledger
      ensures Valid() && Passes(old(Now()), Now(), ReservationId(world.attemptId))
      ensures err == [] ==> Succeeded(store.nodes, lease)
      ensures OnlyInvocationErrors(err) ==> Outcome(store.nodes, lease, world.invocation)
      // an open effect asks for resolution and is left as it is
      ensures Unresolved(world.invocation) ==> err != [] && err[0] == EffectResolutionRequired
      ensures Unresolved(world.invocation) ==> LeftOpen(old(store.nodes), store.nodes, world, lease)
      ensures EndsWell(old(store.nodes), world, lease, candidate) ==>
                && (Resolved(candidate, world.invocation) ==> OnlyInvocationErrors(err) && |err| <= 1)
                && (Unresolved(world.invocation) ==> InHand(store.nodes, lease, lease.expiresAt, AttemptRunning))
    {
      hide After, RefusalIn, Run, RunLedger, Inv, Implements, Foreign, Passes, Succeeded, Outcome, InHand, ReadyToClose, OnTrack, Peaceful;
      var failure := world.invocation.failure;
      ghost var p0, id := Now(), ReservationId(world.attemptId);
      PassesSame(p0, id);
      if EndsWell(p0.nodes, world, lease, candidate) { TrackInHand(p0.nodes, lease, candidate, AttemptRunning); }
      match world.invocation.disposition {
        case EffectIsCommitted =>
          Yield(world, 7);
          ghost var p1 := Now();
          if EndsWell(p0.nodes, world, lease, candidate) {
            StaysOnTrack(p0.nodes, world, 7, lease, candidate, AttemptRunning);
            TrackCommits(p1.nodes, world, lease, candidate);
            ReadyAfterCommit(p1.nodes, world, lease, candidate);
          }
          var commitErr := store.MarkEffectCommitted(lease, world.clock(7));
          ghost var p2 := Now();
          PassesStore(p1, p2, Op.MarkEffectCommitted(lease, world.clock(7)), id);
          PassesBoth(p0, p1, p2, id);
          if commitErr.Some? {
            err := [EffectResolutionRequired, LeaseFailure(commitErr.value)];
            assert err[0] == EffectResolutionRequired;
            return;
          }
          if failure.Some? {
            err := [EffectResolutionRequired, InvocationFailure(Classify(failure.value))];
            assert err[0] == EffectResolutionRequired;
            return;
          }
          err := CompleteAs(world, 8, lease, candidate, world.invocation);
          PassesBoth(p0, p2, Now(), id);
        case NotApplied =>
          if failure.None? {
            err := [EffectResolutionRequired];
            assert err[0] == EffectResolutionRequired;
            return;
          }
          if EndsWell(p0.nodes, world, lease, candidate) && NonNegativeUsage(world.invocation.usage) {
            TrackReady(p0.nodes, lease, candidate, world.invocation);
          }
          err := CompleteAs(world, 7, lease, candidate, world.invocation);
        case _ =>
          err := [EffectResolutionRequired] +
            (if failure.Some? then [InvocationFailure(Classify(failure.value))] else []);
          assert err[0] == EffectResolutionRequired;
      }
    }
  }

  /** The effect is open and the settlement was accepted. */
  predicate AsksResolution(candidate: PreparedNode, i: Invocation) {
    IsMutation(candidate.node.effect.class_) && Unresolved(i) && i.usage.cost >= 0.0
  }

  /** The attempt is not to be closed: its effect is open, or its cost could not be booked. */
  predicate LeavesOpen(candidate: PreparedNode, i: Invocation) {
    AsksResolution(candidate, i) || i.usage.cost < 0.0
  }

  lemma EndsWellInHand(db: Runtime, world: World, lease: NodeLease, candidate: PreparedNode)
    requires EndsWell(db, world, lease, candidate)
    ensures InHand(db, lease, lease.expiresAt, AttemptRunning)
  {
  }

  lemma WorksMeans(p: Point, q: Point, id: string, candidate: PreparedNode)
    requires Works(p, q, id, candidate)
    ensures RuntimeExtends(p.nodes, q.nodes) && Booked(p.log, q.log, id, candidate)
  {
  }

  lemma PassesMeans(p: Point, q: Point, id: string)
    requires Passes(p, q, id)
    ensures RuntimeExtends(p.nodes, q.nodes) && (id in p.view.book <==> id in q.view.book)
  {
  }

  lemma PassesNew(p: Point, q: Point, id: string)
    requires Passes(p, q, id) && id !in q.view.book
    ensures id !in p.view.book
  {
  }

  lemma WellStarts(db: Runtime, world: World, lease: NodeLease, candidate: PreparedNode)
    requires StartsWell(db, world, lease, candidate)
    ensures var op := StartAttempt(lease, BindingOf(candidate, lease), world.clock(2));
            && RefusalIn(db, op).None? && Peaceful(world, lease)
            && (IsMutation(candidate.node.effect.class_) ==> OnTrackMark(After(db, op), lease, candidate))
            && (!IsMutation(candidate.node.effect.class_) ==> EndsWell(After(db, op), world, lease, candidate))
  {
    TrackStarts(db, world, lease, candidate);
    hide OnTrack, OnTrackMark, Peaceful, After, RefusalIn;
  }

  lemma EndsWellAfter(db: Runtime, world: World, i: nat, lease: NodeLease, candidate: PreparedNode)
    requires EndsWell(db, world, lease, candidate) && i >= 1
    ensures EndsWell(Run(db, world.others(i)), world, lease, candidate)
  {
    StaysOnTrack(db, world, i, lease, candidate, AttemptRunning);
  }

  lemma WellReady(db: Runtime, world: World, lease: NodeLease, candidate: PreparedNode, i: Invocation)
    requires EndsWell(db, world, lease, candidate) && NonNegativeUsage(i.usage) && !IsMutation(candidate.node.effect.class_)
    ensures ReadyToClose(db, lease, candidate, i) && Peaceful(world, lease)
  {
    TrackReady(db, lease, candidate, i);
  }

  lemma ClaimStartsWell(db: Runtime, op: Op, lease: NodeLease, candidate: PreparedNode, world: World)
    requires Inv(db) && op.Claim? && op.key in db && RefusalIn(db, op).None? && !Blank(op.attemptId)
    requires lease == Grant(db[op.key].row, op) && db[op.key].row.effectClass == candidate.node.effect.class_
    requires Peaceful(world, lease) && ValidBinding(BindingOf(candidate, lease))
    ensures StartsWell(After(db, op), world, lease, candidate)
  {
    ClaimGives(db, op);
    hide InHand, Peaceful, ValidBinding;
  }

  ghost predicate StillOpen(book: Book, id: string, candidate: PreparedNode) {
    id in book && book[id].Open? && book[id].estimate == candidate.estimate
  }

  /** One attempt at this cost, no frontier call, and so many tool calls. */
  predicate Charges(actual: Counters, cost: real, toolCalls: int) {
    actual.cost == cost && actual.nodeAttempts == 1 && actual.frontierCalls == 0 && actual.toolCalls == toolCalls
  }

  /**
   How an Execute that reserved budget leaves its reservation: released, or charged for the bare start,
   when the target was not called; settled with the reported usage when it was. It stays open in one
   case only, when the target reports a negative cost, which the ledger refuses.
   */
  ghost predicate Accounted(book: Book, id: string, candidate: PreparedNode, invocation: Option<Invocation>) {
    && id in book && book[id].estimate == candidate.estimate
    && match invocation {
         case None => book[id].Released? || (book[id].Settled? && Charges(book[id].actual, 0.0, 0))
         case Some(i) =>
           if i.usage.cost < 0.0 then book[id].Open?
           else book[id].Settled? && Charges(book[id].actual, i.usage.cost, if candidate.target.kind.TargetTool? then 1 else 0)
       }
  }

  /** No entry for this id appeared, changed or vanished. */
  ghost predicate Untouched(a: Book, b: Book, id: string) {
    && (id in a <==> id in b)
    && (id in a ==> b[id] == a[id])
  }

  lemma {:induction false} GrantsAreFor(db: Runtime, ops: seq<Op>, key: NodeKey, i: nat)
    requires i < |Grants(db, ops, key)|
    ensures Grants(db, ops, key)[i].key == key
    decreases |ops|
  {
    var first := if Granted(db, ops[0], key) then 1 else 0;
    if i >= first { GrantsAreFor(After(db, ops[0]), ops[1..], key, i - first); }
  }

  /**
   Interleaved workers: along any run, of all leases ever issued for a non-idempotent node only the last
   can have its effect marked, and Execute calls the target under a marked lease only.
   */
  lemma OneInvocationPerNonIdempotentNode(ops: seq<Op>, key: NodeKey, i: nat, j: nat)
    requires AdmissibleRun(ops) && key in Run(map[], ops)
    requires Run(map[], ops)[key].row.effectClass.EffectNonIdempotentMutation?
    requires i < |Grants(map[], ops, key)| && j < |Grants(map[], ops, key)|
    requires EffectMarked(Run(map[], ops), Grants(map[], ops, key)[i])
    requires EffectMarked(Run(map[], ops), Grants(map[], ops, key)[j])
    ensures i == j == |Grants(map[], ops, key)| - 1
  {
    RunKeepsInv(map[], ops);
    GrantsMatchHistory(map[], ops, key);
    GrantsAreFor(map[], ops, key, i);
    GrantsAreFor(map[], ops, key, j);
    assert NodeInv(Run(map[], ops)[key]);
  }

  /** A ledger whose whole log was booked by workers on frozen targets keeps to its limits. */
  lemma LoggedBudget(ledger: BudgetLedger, targets: string -> ExecutionTarget)
    requires ledger.Valid() && ledger.origin.ids == [] && ledger.origin.book == map[]
    requires WithinLimit(ledger.origin.reserved0.Plus(ledger.origin.consumed0), ledger.limit) && ledger.origin.limit == ledger.limit
    requires forall i | 0 <= i < |ledger.log| :: WorkerOp(ledger.log[i], targets)
    ensures WithinCalls(ledger.reserved.Plus(ledger.consumed), ledger.limit)
    ensures ledger.limit.maxCost > 0.0 ==>
              ledger.reserved.Plus(ledger.consumed).cost <= ledger.limit.maxCost + Sum(ledger.view, Overrun).cost
  {
    WorkersShareBudget(ledger.origin, ledger.log, targets);
    hide RunLedger, Counters.Plus, Sum;
  }

  lemma SoleEffectIsFinal(start: Runtime, first: Runtime, second: Runtime, after: Runtime, a: NodeLease, b: NodeLease)
    requires SoleEffect(start, first, a) && SoleEffect(second, after, b) && a.key == b.key
    requires RuntimeExtends(first, second) && RuntimeExtends(second, after)
    ensures !after[b.key].row.effectClass.EffectNonIdempotentMutation?
  {
    var key := a.key;
    assert Extends(first[key], second[key]) && Extends(second[key], after[key]);
    assert forall k | 0 <= k < |first[key].attempts| :: Grows(first[key].attempts[k], second[key].attempts[k]);
  }

  /** Successive executions of one non-idempotent node, by any two workers, never both call its target. */
  method ExecuteTwice(first: PersistentWorker, second: PersistentWorker, execution: Execution,
                      a: PreparedNode, b: PreparedNode, before: World, between: seq<Op>, after: World)
    returns (r1: WorkerResult, r2: WorkerResult)
    requires first.store == second.store && first.Valid() && second.Valid()
    requires Foreign(before) && Foreign(after) && AdmissibleRun(between)
    requires a.node.id == b.node.id && IsMutation(a.node.effect.class_) && IsMutation(b.node.effect.class_)
    modifies first.store, first.ledger, second.ledger
    ensures r1.invocation.Some? && r2.invocation.Some? ==>
              && KeyOf(execution, b) in first.store.nodes
              && !first.store.nodes[KeyOf(execution, b)].row.effectClass.EffectNonIdempotentMutation?
  {
    hide SoleEffect, RuntimeExtends, Inv, Implements, Foreign, Booked, BoundTo, Outcome, Tidied, Accounted, CanRun, InHand, EffectMarked,
         Succeeded, NewGrant, AsksResolution, LeavesOpen, Resolved, OnlyInvocationErrors, RunLedger, ReservationId;
    ghost var start := first.store.nodes;
    var e1, e2;
    ghost var c1, c2;
    r1, e1, c1 := first.Execute(execution, a, before);
    ghost var s1 := first.store.nodes;
    first.store.Interleave(between);
    ghost var s2 := first.store.nodes;
    r2, e2, c2 := second.Execute(execution, b, after);
    if r1.invocation.Some? && r2.invocation.Some? {
      HasKey(s2, first.store.nodes, r2.lease.value);
      SoleEffectIsFinal(start, s1, s2, first.store.nodes, r1.lease.value, r2.lease.value);
    }
  }

  lemma HasKey(before: Runtime, after: Runtime, lease: NodeLease)
    requires SoleEffect(before, after, lease)
    ensures lease.key in after
  {
  }

  /** A target that reports a negative cost: the settlement is refused and the reservation stays open. */
  lemma NegativeCostWitness(target: ExecutionTarget, usage: Usage)
    requires usage.cost == -1.0
    ensures var l := LedgerState(Limit(0.0, 0, 0, 0), ZERO, ZERO, ["r"], map["r" := Open(0, FrozenEstimate(target, 1.0))]);
            var op := LedgerOp.Settle("r", ActualBudget(target, usage));
            BudgetRefusal(l, op) == Some(NegativeValue) && AfterOp(l, op) == l && AfterOp(l, op).book["r"].Open?
  {
  }
}
