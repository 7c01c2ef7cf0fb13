/**
 The fenced node-lease protocol, one atomic transaction per operation. This is
 the simple form: an operation is either refused, and nothing changes, or it
 rewrites the runtime row together with the last attempt of the node's history.
 LeaseRepository proves that the repository's UPDATE ... WHERE transactions
 compute exactly this.
 */
module LeaseProtocol {
  import opened Common
  import opened ExecutionTypes

  datatype LeaseError =
    | InvalidArgument
    | RuntimeNotFound
    | RuntimeExists
    | NotClaimable
    | LeaseHeld
    | LeaseLost
    | RecoveryRequired
    | EffectNotCommitted
    | CompletionMismatch
    | AttemptStateConflict
    | BindingInvalid
    | ConstraintViolation

  type Runtime = map<NodeKey, Node>

  /** Every operation carries the clock reading of its own transaction. */
  datatype Op =
    | Register(key: NodeKey, record: NodeRow)
    | Claim(key: NodeKey, owner: string, duration: int, now: Time, token: string, attemptId: string)
    | Renew(lease: NodeLease, duration: int, now: Time)
    | StartAttempt(lease: NodeLease, binding: AttemptBinding, now: Time)
    | MarkEffectStarted(lease: NodeLease, now: Time)
    | MarkEffectCommitted(lease: NodeLease, now: Time)
    | ReleaseBeforeEffect(lease: NodeLease, now: Time)
    | Complete(lease: NodeLease, terminal: NodeState, completion: AttemptCompletion, now: Time)
    | RequeueFailed(key: NodeKey, now: Time)

  predicate PresentsLease(op: Op) {
    !op.Register? && !op.Claim? && !op.RequeueFailed?
  }

  function Target(op: Op): NodeKey {
    if PresentsLease(op) then op.lease.key else op.key
  }

  // ---- Argument validation -------------------------------------------------

  predicate ValidLeaseAttempt(lease: NodeLease) {
    lease.attemptRef != "" && lease.attemptNumber >= 1 && lease.fence >= 1
  }

  predicate ValidLeaseIdentity(key: NodeKey, owner: string, duration: int) {
    ValidKey(key) && !Blank(owner) && duration > 0
  }

  predicate ValidHeldLease(lease: NodeLease, duration: int) {
    && ValidLeaseIdentity(lease.key, lease.owner, duration)
    && ValidLeaseAttempt(lease)
    && !Blank(lease.token)
  }

  predicate ValidRecord(key: NodeKey, record: NodeRow) {
    && ValidKey(key)
    && !record.state.NodeUnset?
    && (record.effectClass.EffectIdempotentMutation? ==> !Blank(record.idempotencyKey))
    && (record.effectClass.EffectNonIdempotentMutation? ==> !record.retrySafe)
  }

  /** CHECK constraints of execution_node_runtime on a row inserted without lease or effect columns. */
  predicate RowConstraints(record: NodeRow) {
    && record.attemptNumber >= 0 && record.fence >= 0
    && !record.effectClass.EffectUnknown?
    && !record.state.NodeRunning?
  }

  predicate ValidCompletion(terminal: NodeState, completion: AttemptCompletion) {
    && match terminal {
         case NodeSucceeded => completion.status.AttemptSucceeded?
         case NodeFailed => completion.status.AttemptFailed? && completion.errorClass != ""
         case NodeCancelled => completion.status.AttemptCancelled?
         case _ => false
       }
    && NonNegativeUsage(completion.usage)
  }

  // ---- Authority -----------------------------------------------------------

  /** The guard of every fenced UPDATE: the row is running under this very lease, not yet expired. */
  predicate Holds(row: NodeRow, lease: NodeLease, now: Time) {
    && row.state.NodeRunning?
    && row.lease.Some?
    && row.lease.value.owner == lease.owner
    && row.lease.value.token == lease.token
    && row.fence == lease.fence
    && now < row.lease.value.expiresAt
  }

  function Last(attempts: seq<Attempt>): Attempt
    requires attempts != []
  {
    attempts[|attempts| - 1]
  }

  predicate NamesLast(lease: NodeLease, attempts: seq<Attempt>) {
    && attempts != []
    && Last(attempts).id == lease.attemptRef
    && Last(attempts).number == lease.attemptNumber
    && Last(attempts).fence == lease.fence
  }

  // ---- Refusals ------------------------------------------------------------

  function ClaimRefusal(node: Option<Node>, key: NodeKey, owner: string, duration: int, now: Time): Option<LeaseError> {
    if !ValidLeaseIdentity(key, owner, duration) then Some(InvalidArgument)
    else if node.None? then Some(RuntimeNotFound)
    else
      var row := node.value.row;
      match row.state
      case NodeReady => if row.lease.Some? then Some(LeaseHeld) else None
      case NodeRunning =>
        if row.lease.Some? && now < row.lease.value.expiresAt then Some(LeaseHeld)
        else if !row.retrySafe || row.effectCommittedAt.Some? then Some(RecoveryRequired)
        else None
      case _ => Some(NotClaimable)
  }

  function RenewRefusal(node: Option<Node>, lease: NodeLease, duration: int, now: Time): Option<LeaseError> {
    if !ValidHeldLease(lease, duration) then Some(InvalidArgument)
    else if node.None? || !Holds(node.value.row, lease, now) then Some(LeaseLost)
    else if now + duration <= node.value.row.lease.value.claimedAt then Some(ConstraintViolation)
    else None
  }

  function StartRefusal(node: Option<Node>, lease: NodeLease, binding: AttemptBinding, now: Time): Option<LeaseError> {
    if Blank(lease.attemptRef) || !ValidBinding(binding) then Some(BindingInvalid)
    else if node.None? then Some(RuntimeNotFound)
    else if !Holds(node.value.row, lease, now) || node.value.row.attemptNumber != lease.attemptNumber then Some(LeaseLost)
    else if !NamesLast(lease, node.value.attempts) || !Last(node.value.attempts).status.AttemptPending? then
      Some(AttemptStateConflict)
    else None
  }

  function EffectStartRefusal(node: Option<Node>, lease: NodeLease, now: Time): Option<LeaseError> {
    if !ValidLeaseAttempt(lease) then Some(InvalidArgument)
    else if node.None? || !Holds(node.value.row, lease, now) || node.value.row.effectStartedAt.Some? then Some(LeaseLost)
    else if !NamesLast(lease, node.value.attempts) || !Last(node.value.attempts).status.AttemptRunning? then
      Some(AttemptStateConflict)
    else None
  }

  function EffectCommitRefusal(node: Option<Node>, lease: NodeLease, now: Time): Option<LeaseError> {
    if !ValidLeaseAttempt(lease) then Some(InvalidArgument)
    else if || node.None? || !Holds(node.value.row, lease, now)
            || node.value.row.effectStartedAt.None? || node.value.row.effectCommittedAt.Some? then Some(LeaseLost)
    else if !NamesLast(lease, node.value.attempts) || !Last(node.value.attempts).status.AttemptRunning? then
      Some(AttemptStateConflict)
    else None
  }

  function ReleaseRefusal(node: Option<Node>, lease: NodeLease, now: Time): Option<LeaseError> {
    if !ValidLeaseAttempt(lease) then Some(InvalidArgument)
    else if node.None? || !Holds(node.value.row, lease, now) || node.value.row.effectStartedAt.Some? then Some(LeaseLost)
    else if node.value.row.attemptNumber != lease.attemptNumber then Some(AttemptStateConflict)
    else None
  }

  function CompleteRefusal(node: Option<Node>, lease: NodeLease, terminal: NodeState,
                           completion: AttemptCompletion, now: Time): Option<LeaseError> {
    if !ValidLeaseAttempt(lease) then Some(InvalidArgument)
    else if !ValidCompletion(terminal, completion) then Some(CompletionMismatch)
    else if node.None? then Some(RuntimeNotFound)
    else if !Holds(node.value.row, lease, now) || node.value.row.attemptNumber != lease.attemptNumber then Some(LeaseLost)
    else if terminal.NodeSucceeded? && IsMutation(node.value.row.effectClass) && node.value.row.effectCommittedAt.None? then
      Some(EffectNotCommitted)
    else if || !NamesLast(lease, node.value.attempts)
            || (Last(node.value.attempts).status.AttemptPending? && !terminal.NodeCancelled?) then
      Some(AttemptStateConflict)
    else None
  }

  function RequeueRefusal(node: Option<Node>, key: NodeKey): Option<LeaseError> {
    if !ValidKey(key) then Some(InvalidArgument)
    else if node.None? then Some(RuntimeNotFound)
    else if !node.value.row.state.NodeFailed? then Some(NotClaimable)
    else if !node.value.row.retrySafe || IsMutation(node.value.row.effectClass) then Some(RecoveryRequired)
    else None
  }

  function RegisterRefusal(node: Option<Node>, key: NodeKey, record: NodeRow): Option<LeaseError> {
    if !ValidRecord(key, record) then Some(InvalidArgument)
    else if !RowConstraints(record) then Some(ConstraintViolation)
    else if node.Some? then Some(RuntimeExists)
    else None
  }

  function Refusal(node: Option<Node>, op: Op): Option<LeaseError> {
    match op
    case Register(key, record) => RegisterRefusal(node, key, record)
    case Claim(key, owner, duration, now, _, _) => ClaimRefusal(node, key, owner, duration, now)
    case Renew(lease, duration, now) => RenewRefusal(node, lease, duration, now)
    case StartAttempt(lease, binding, now) => StartRefusal(node, lease, binding, now)
    case MarkEffectStarted(lease, now) => EffectStartRefusal(node, lease, now)
    case MarkEffectCommitted(lease, now) => EffectCommitRefusal(node, lease, now)
    case ReleaseBeforeEffect(lease, now) => ReleaseRefusal(node, lease, now)
    case Complete(lease, terminal, completion, now) => CompleteRefusal(node, lease, terminal, completion, now)
    case RequeueFailed(key, _) => RequeueRefusal(node, key)
  }

  // ---- Effects -------------------------------------------------------------

  function NewNode(record: NodeRow): Node {
    Node(record.(lease := None, effectStartedAt := None, effectCommittedAt := None), [])
  }

  function PendingAttempt(row: NodeRow, owner: string, now: Time, attemptId: string): Attempt {
    Attempt(attemptId, row.attemptNumber + 1, row.fence + 1, owner, AttemptPending, None, row.idempotencyKey,
            "", NO_USAGE, now, None, None, None, None)
  }

  /** The SET clauses that touch an attempt row. */
  datatype Change =
    | Abandon(now: Time)
    | Start(binding: AttemptBinding, now: Time)
    | EffectStarted(now: Time)
    | EffectCommitted(now: Time)
    | Finish(completion: AttemptCompletion, now: Time)

  /** duration_ms keeps the whole milliseconds of the reported duration. */
  function Set(a: Attempt, c: Change): Attempt {
    match c
    case Abandon(now) => a.(status := AttemptAbandoned, finishedAt := Some(now))
    case Start(binding, now) => a.(status := AttemptRunning, binding := Some(binding), startedAt := Some(now))
    case EffectStarted(now) => a.(effectStartedAt := Some(now))
    case EffectCommitted(now) => a.(effectCommittedAt := Some(now))
    case Finish(r, now) =>
      a.(status := r.status, errorClass := r.errorClass,
         usage := r.usage.(duration := r.usage.duration / 1_000_000 * 1_000_000),
         finishedAt := Some(now))
  }

  function SetLast(attempts: seq<Attempt>, c: Change): (r: seq<Attempt>)
    ensures |r| == |attempts|
  {
    if attempts == [] then [] else attempts[|attempts| - 1 := Set(Last(attempts), c)]
  }

  function ClaimedRow(row: NodeRow, owner: string, duration: int, now: Time, token: string): NodeRow {
    row.(state := NodeRunning, attemptNumber := row.attemptNumber + 1, fence := row.fence + 1,
         lease := Some(HeldLease(owner, token, now, now, now + duration)),
         effectStartedAt := None, effectCommittedAt := None)
  }

  /** The node after an accepted operation. */
  function Applied(n: Node, op: Op): Node {
    match op
    case Register(_, record) => NewNode(record)
    case Claim(_, owner, duration, now, token, attemptId) =>
      var kept := if n.row.state.NodeRunning? then SetLast(n.attempts, Abandon(now)) else n.attempts;
      Node(ClaimedRow(n.row, owner, duration, now, token), kept + [PendingAttempt(n.row, owner, now, attemptId)])
    case Renew(_, duration, now) =>
      if n.row.lease.None? then n
      else n.(row := n.row.(lease := Some(n.row.lease.value.(heartbeatAt := now, expiresAt := now + duration))))
    case StartAttempt(_, binding, now) => n.(attempts := SetLast(n.attempts, Start(binding, now)))
    case MarkEffectStarted(_, now) =>
      Node(n.row.(effectStartedAt := Some(now)), SetLast(n.attempts, EffectStarted(now)))
    case MarkEffectCommitted(_, now) =>
      Node(n.row.(effectCommittedAt := Some(now)), SetLast(n.attempts, EffectCommitted(now)))
    case ReleaseBeforeEffect(_, now) =>
      Node(n.row.(state := NodeReady, lease := None), SetLast(n.attempts, Abandon(now)))
    case Complete(_, terminal, completion, now) =>
      Node(n.row.(state := terminal, lease := None), SetLast(n.attempts, Finish(completion, now)))
    case RequeueFailed(_, _) => n.(row := n.row.(state := NodeReady, lease := None))
  }

  function Lookup(db: Runtime, key: NodeKey): Option<Node> {
    if key in db then Some(db[key]) else None
  }

  function RefusalIn(db: Runtime, op: Op): Option<LeaseError> {
    Refusal(Lookup(db, Target(op)), op)
  }

  /** One transaction: a refused operation is rolled back. */
  function After(db: Runtime, op: Op): Runtime {
    if RefusalIn(db, op).Some? then db
    else if op.Register? then db[op.key := NewNode(op.record)]
    else if Target(op) in db then db[Target(op) := Applied(db[Target(op)], op)]
    else db
  }

  /** Any interleaving of transactions by any number of workers; a crash is the absence of further operations. */
  function Run(db: Runtime, ops: seq<Op>): Runtime
    decreases |ops|
  {
    if ops == [] then db else Run(After(db, ops[0]), ops[1..])
  }

  // ---- The inductive invariant ---------------------------------------------

  /** AttemptNumber, LeaseFence and the history length agree, and attempt k carries number and fence k. */
  ghost predicate Numbered(n: Node) {
    && n.row.attemptNumber == n.row.fence == |n.attempts|
    && forall k | 0 <= k < |n.attempts| :: n.attempts[k].number == k + 1 && n.attempts[k].fence == k + 1
  }

  ghost predicate OnlyLastOpen(n: Node) {
    forall k | 0 <= k < |n.attempts| - 1 :: !OpenStatus(n.attempts[k].status)
  }

  /** The mutable row's state is a function of how the last attempt stands. */
  ghost predicate RowMatchesLast(n: Node) {
    && (n.row.lease.Some? <==> n.row.state.NodeRunning?)
    && match n.row.state {
         case NodeRunning =>
           && n.attempts != [] && OpenStatus(Last(n.attempts).status)
           && Last(n.attempts).owner == n.row.lease.value.owner
         case NodeSucceeded => n.attempts != [] && Last(n.attempts).status.AttemptSucceeded?
         case NodeFailed => n.attempts != [] && Last(n.attempts).status.AttemptFailed?
         case NodeCancelled => n.attempts != [] && Last(n.attempts).status.AttemptCancelled?
         case NodeReady =>
           n.attempts != [] ==> Last(n.attempts).status.AttemptAbandoned? || Last(n.attempts).status.AttemptFailed?
         case _ => n.attempts == []
       }
  }

  ghost predicate MarksMatchLast(n: Node) {
    if n.attempts == [] then n.row.effectStartedAt.None? && n.row.effectCommittedAt.None?
    else
      && n.row.effectStartedAt == Last(n.attempts).effectStartedAt
      && n.row.effectCommittedAt == Last(n.attempts).effectCommittedAt
  }

  /** An attempt that ran, or left an effect mark, carries its complete target, policy and budget binding. */
  ghost predicate Evidenced(a: Attempt) {
    && (a.effectCommittedAt.Some? ==> a.effectStartedAt.Some?)
    && (a.status.AttemptPending? ==> a.binding.None? && a.effectStartedAt.None?)
    && (a.binding.Some? <==> a.startedAt.Some?)
    && (a.binding.Some? ==> ValidBinding(a.binding.value))
    && (a.status.AttemptRunning? || a.status.AttemptSucceeded? || a.status.AttemptFailed? ==> a.binding.Some?)
    && (a.effectStartedAt.Some? ==> a.binding.Some?)
  }

  ghost predicate AllEvidenced(n: Node) {
    forall k | 0 <= k < |n.attempts| :: Evidenced(n.attempts[k])
  }

  /** What each effect class allows attempts other than the last to have done. */
  ghost predicate EffectsBounded(n: Node) {
    && (n.row.effectClass.EffectNonIdempotentMutation? ==>
          && !n.row.retrySafe
          && forall k | 0 <= k < |n.attempts| - 1 :: n.attempts[k].effectStartedAt.None?)
    && (IsMutation(n.row.effectClass) ==>
          && (forall k | 0 <= k < |n.attempts| - 1 :: n.attempts[k].effectCommittedAt.None?)
          && (n.row.state.NodeReady? ==> n.row.effectStartedAt.None?)
          && (n.row.state.NodeSucceeded? ==> n.row.effectCommittedAt.Some?))
  }

  ghost predicate NodeInv(n: Node) {
    && Numbered(n)
    && OnlyLastOpen(n)
    && RowMatchesLast(n)
    && MarksMatchLast(n)
    && AllEvidenced(n)
    && EffectsBounded(n)
  }

  ghost predicate Inv(db: Runtime) {
    forall key | key in db :: NodeInv(db[key])
  }

  /** Registrations as ensureRuntime builds them, and every other one the protocol can start from. */
  predicate Admissible(record: NodeRow) {
    && record.attemptNumber == 0 && record.fence == 0
    && !record.state.NodeSucceeded? && !record.state.NodeFailed? && !record.state.NodeCancelled?
  }

  predicate AdmissibleOp(op: Op) {
    op.Register? ==> Admissible(op.record)
  }

  /** Register establishes the invariant for exactly the admissible records. */
  lemma RegisterInvariant(db: Runtime, key: NodeKey, record: NodeRow)
    requires Inv(db)
    requires RefusalIn(db, Register(key, record)).None?
    ensures Inv(After(db, Register(key, record))) <==> Admissible(record)
  {
    var db' := After(db, Register(key, record));
    assert db'[key] == NewNode(record);
    assert forall k | k in db' && k != key :: db'[k] == db[k];
  }

  /** A record that starts at attempt 3 is accepted, and no history can match it. */
  lemma RegisterWitness()
    ensures var op := Register(NodeKey("e", 1, "n"), NodeRow(NodeReady, EffectPure, true, "", 3, 3, None, None, None));
            RefusalIn(map[], op).None? && !Inv(After(map[], op))
  {
    var record := NodeRow(NodeReady, EffectPure, true, "", 3, 3, None, None, None);
    assert !IsSpace("e"[0]) && !IsSpace("n"[0]);
    RegisterInvariant(map[], NodeKey("e", 1, "n"), record);
  }

  lemma ClaimKeepsInv(n: Node, op: Op)
    requires NodeInv(n) && op.Claim? && Refusal(Some(n), op).None?
    ensures NodeInv(Applied(n, op))
  {
  }

  lemma MarkKeepsInv(n: Node, op: Op)
    requires NodeInv(n) && Refusal(Some(n), op).None?
    requires op.StartAttempt? || op.MarkEffectStarted? || op.MarkEffectCommitted?
    ensures NodeInv(Applied(n, op))
  {
  }

  lemma CloseKeepsInv(n: Node, op: Op)
    requires NodeInv(n) && Refusal(Some(n), op).None?
    requires op.ReleaseBeforeEffect? || op.Complete?
    ensures NodeInv(Applied(n, op))
  {
  }

  lemma RowOnlyKeepsInv(n: Node, op: Op)
    requires NodeInv(n) && Refusal(Some(n), op).None?
    requires op.Renew? || op.RequeueFailed?
    ensures NodeInv(Applied(n, op))
  {
  }

  lemma StepKeepsInv(db: Runtime, op: Op)
    requires Inv(db) && AdmissibleOp(op)
    ensures Inv(After(db, op))
  {
    hide NodeInv, Applied;
    if RefusalIn(db, op).None? {
      if op.Register? {
        RegisterInvariant(db, op.key, op.record);
      } else if op.Claim? {
        ClaimKeepsInv(db[Target(op)], op);
      } else if op.ReleaseBeforeEffect? || op.Complete? {
        CloseKeepsInv(db[Target(op)], op);
      } else if op.Renew? || op.RequeueFailed? {
        RowOnlyKeepsInv(db[Target(op)], op);
      } else {
        MarkKeepsInv(db[Target(op)], op);
      }
    }
  }
}
