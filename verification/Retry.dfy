/**
 Automatic retries of a failed node. prepareRetry reads the attempts in one transaction and requeues in a
 later one, so several activities may decide on a number that is out of date when they requeue.
 */
module Retry {
  import opened Common
  import opened ExecutionTypes
  import opened LeaseProtocol
  import opened LeaseRuns
  import opened LeaseRepository
  import opened LeaseMeaning

  datatype RetryPolicy = RetryPolicy(maxAttempts: int, retryOn: seq<string>)

  datatype RetryError = RetryNotAllowed | ReadFailed | RequeueFailure(lease: LeaseError)

  /** A policy without a positive maximum allows one attempt. */
  function Maximum(policy: RetryPolicy): (m: int)
    ensures m >= 1
  {
    if policy.maxAttempts <= 0 then 1 else policy.maxAttempts
  }

  /** The plan allows another attempt after this one. */
  predicate Retryable(policy: RetryPolicy, effect: EffectSpec, latest: Attempt) {
    && latest.number < Maximum(policy)
    && effect.retrySafe && !IsMutation(effect.class_)
    && latest.errorClass != "" && latest.errorClass in policy.retryOn
  }

  /** What the read of the first transaction comes to. */
  predicate Decides(db: Runtime, key: NodeKey, policy: RetryPolicy, effect: EffectSpec) {
    ValidKey(key) && key in db && db[key].attempts != [] && Retryable(policy, effect, Last(db[key].attempts))
  }

  function Attempts(db: Runtime, key: NodeKey): nat {
    if key in db then |db[key].attempts| else 0
  }

  /** The requeue is accepted although the node has used up its attempts. */
  predicate Passes(db: Runtime, key: NodeKey, now: Time, m: int) {
    RefusalIn(db, RequeueFailed(key, now)).None? && Attempts(db, key) >= m
  }

  /** Decisions are made on the number of attempts there are, below the maximum. */
  lemma DecidedBelow(db: Runtime, key: NodeKey, policy: RetryPolicy, effect: EffectSpec)
    requires Inv(db) && Decides(db, key, policy, effect)
    ensures 1 <= Attempts(db, key) < Maximum(policy)
  {
    assert NodeInv(db[key]);
  }

  /** retryClassAllowed */
  method RetryClassAllowed(allowed: seq<string>, actual: string) returns (ok: bool)
    ensures ok <==> actual != "" && actual in allowed
  {
    if actual == "" { return false; }
    for i := 0 to |allowed|
      invariant actual !in allowed[..i]
    {
      if allowed[i] == actual { return true; }
    }
    return false;
  }

  class RetryActivity {
    const store: PostgresExecutionNodeLeases

    constructor (s: PostgresExecutionNodeLeases)
      ensures store == s
    {
      store := s;
    }

    /**
     The two transactions, with whatever others commit in between. A refused decision changes nothing. An
     accepted requeue was decided on a number below the maximum, so it passes the maximum if and only if
     that number is out of date and the current one has reached it.
     */
    method PrepareRetry(key: NodeKey, policy: RetryPolicy, effect: EffectSpec, between: seq<Op>, now: Time)
      returns (err: Option<RetryError>, ghost decided: nat)
      requires store.Valid() && AdmissibleRun(between)
      modifies store
      ensures store.Valid()
      ensures !Decides(old(store.nodes), key, policy, effect) ==> err.Some? && store.nodes == old(store.nodes)
      ensures Decides(old(store.nodes), key, policy, effect) ==>
                && decided == Attempts(old(store.nodes), key) < Maximum(policy)
                && store.nodes == After(Run(old(store.nodes), between), RequeueFailed(key, now))
                && (err.None? <==> RefusalIn(Run(old(store.nodes), between), RequeueFailed(key, now)).None?)
      // a requeue follows only a failure that the plan lists as retryable, of an effect that may be repeated
      ensures err.None? ==>
                && key in old(store.nodes) && old(store.nodes)[key].attempts != []
                && var latest := Last(old(store.nodes)[key].attempts);
                && latest.errorClass != "" && latest.errorClass in policy.retryOn
                && latest.number < (if policy.maxAttempts <= 0 then 1 else policy.maxAttempts)
                && effect.retrySafe && !effect.class_.EffectIdempotentMutation? && !effect.class_.EffectNonIdempotentMutation?
                && key in store.nodes && store.nodes[key].row.state.NodeReady?
      ensures err.None? ==>
                var current := Attempts(Run(old(store.nodes), between), key);
                && Decides(old(store.nodes), key, policy, effect)
                && (Passes(Run(old(store.nodes), between), key, now, Maximum(policy)) <==>
                      decided != current && current >= Maximum(policy))
    {
      decided := 0;
      if !ValidKey(key) { return Some(ReadFailed), decided; }
      var attempts := if key in store.nodes then store.nodes[key].attempts else [];
      if attempts == [] { return Some(RetryNotAllowed), decided; }
      var latest := Last(attempts);
      if latest.number >= Maximum(policy) { return Some(RetryNotAllowed), decided; }
      if !effect.retrySafe || IsMutation(effect.class_) { return Some(RetryNotAllowed), decided; }
      var allowed := RetryClassAllowed(policy.retryOn, latest.errorClass);
      if !allowed { return Some(RetryNotAllowed), decided; }
      DecidedBelow(store.nodes, key, policy, effect);
      decided := |attempts|;
      hide Inv, RefusalIn, After;
      store.Interleave(between);
      ghost var before := store.nodes;
      var e := store.RequeueFailed(key, now);
      RequeueRecords(before, key, now);
      return if e.Some? then Some(RequeueFailure(e.value)) else None, decided;
    }
  }

  // ---- The bound over runs -------------------------------------------------

  /** An accepted requeue of the node with attempts left. */
  predicate Timely(db: Runtime, op: Op, key: NodeKey, m: int) {
    op.RequeueFailed? && op.key == key && RefusalIn(db, op).None? && Attempts(db, key) < m
  }

  function TimelyRequeues(db: Runtime, ops: seq<Op>, key: NodeKey, m: int): nat
    decreases |ops|
  {
    if ops == [] then 0
    else (if Timely(db, ops[0], key, m) then 1 else 0) + TimelyRequeues(After(db, ops[0]), ops[1..], key, m)
  }

  /** Requeues of the node that can still be timely. */
  function Room(db: Runtime, key: NodeKey, m: int): int {
    if key !in db || db[key].attempts == [] || db[key].row.state.NodeReady? then m - Attempts(db, key) - 1
    else m - Attempts(db, key)
  }

  lemma StepKeepsRoom(db: Runtime, op: Op, key: NodeKey, m: int)
    requires Inv(db) && AdmissibleOp(op)
    ensures Room(After(db, op), key, m) <= Room(db, key, m) - (if Timely(db, op, key, m) then 1 else 0)
    ensures Timely(db, op, key, m) ==> Room(db, key, m) >= 1
  {
    if key in db { assert NodeInv(db[key]); }
  }

  /** Over any run and any interleaving, at most m - 1 requeues of a node are timely. */
  lemma {:induction false} TimelyBound(db: Runtime, ops: seq<Op>, key: NodeKey, m: int)
    requires Inv(db) && AdmissibleRun(ops) && m >= 1
    ensures TimelyRequeues(db, ops, key, m) == 0 || TimelyRequeues(db, ops, key, m) <= Room(db, key, m)
    ensures TimelyRequeues(db, ops, key, m) <= m - 1
    decreases |ops|
  {
    if ops != [] {
      hide After, Inv, Timely;
      StepKeepsRoom(db, ops[0], key, m);
      StepKeepsInv(db, ops[0]);
      TimelyBound(After(db, ops[0]), ops[1..], key, m);
    }
  }

  function Requeues(db: Runtime, ops: seq<Op>, key: NodeKey): nat
    decreases |ops|
  {
    if ops == [] then 0
    else
      (if ops[0].RequeueFailed? && ops[0].key == key && RefusalIn(db, ops[0]).None? then 1 else 0)
      + Requeues(After(db, ops[0]), ops[1..], key)
  }

  /** Accepted requeues of the node after its attempts were used up. */
  function PassingRequeues(db: Runtime, ops: seq<Op>, key: NodeKey, m: int): nat
    decreases |ops|
  {
    if ops == [] then 0
    else
      (if ops[0].RequeueFailed? && ops[0].key == key && Passes(db, key, ops[0].now, m) then 1 else 0)
      + PassingRequeues(After(db, ops[0]), ops[1..], key, m)
  }

  lemma {:induction false} TimelyOrPassing(db: Runtime, ops: seq<Op>, key: NodeKey, m: int)
    ensures Requeues(db, ops, key) == TimelyRequeues(db, ops, key, m) + PassingRequeues(db, ops, key, m)
    decreases |ops|
  {
    if ops != [] {
      hide After, RefusalIn;
      TimelyOrPassing(After(db, ops[0]), ops[1..], key, m);
    }
  }

  /** The retry bound: over any run, whatever exceeds m - 1 requeues was requeued past the maximum. */
  lemma RetryBound(db: Runtime, ops: seq<Op>, key: NodeKey, m: int)
    requires Inv(db) && AdmissibleRun(ops) && m >= 1
    ensures Requeues(db, ops, key) <= m - 1 + PassingRequeues(db, ops, key, m)
  {
    TimelyBound(db, ops, key, m);
    TimelyOrPassing(db, ops, key, m);
  }

  /** Each accepted requeue comes with the number it was decided on: below m, and still the current one. */
  ghost predicate UpToDate(db: Runtime, ops: seq<Op>, decided: seq<nat>, key: NodeKey, m: int)
    requires |decided| == |ops|
    decreases |ops|
  {
    ops != [] ==>
      && (ops[0].RequeueFailed? && ops[0].key == key && RefusalIn(db, ops[0]).None? ==> decided[0] == Attempts(db, key) < m)
      && UpToDate(After(db, ops[0]), ops[1..], decided[1..], key, m)
  }

  /** Activities whose decisions are up to date when they requeue make at most m - 1 requeues, over any run. */
  lemma {:induction false} UpToDateBound(db: Runtime, ops: seq<Op>, decided: seq<nat>, key: NodeKey, m: int)
    requires Inv(db) && AdmissibleRun(ops) && m >= 1 && |decided| == |ops| && UpToDate(db, ops, decided, key, m)
    ensures PassingRequeues(db, ops, key, m) == 0 && Requeues(db, ops, key) <= m - 1
    decreases |ops|
  {
    if ops != [] {
      StepKeepsInv(db, ops[0]);
      UpToDateBound(After(db, ops[0]), ops[1..], decided[1..], key, m);
      hide After, RefusalIn, Inv;
    }
    RetryBound(db, ops, key, m);
  }

  // ---- Where the bound ends ------------------------------------------------

  /** RequeueFailed itself never looks at the maximum. */
  lemma RequeueIgnoresMaximum(db: Runtime, key: NodeKey, now: Time, m: int)
    requires ValidKey(key) && key in db && db[key].row.state.NodeFailed? && Attempts(db, key) >= m
    requires db[key].row.retrySafe && !IsMutation(db[key].row.effectClass)
    ensures Passes(db, key, now, m)
  {
  }

  /** Nor does Claim: reclaiming an expired attempt adds one without any requeue, at any number of attempts. */
  lemma ReclaimAddsAttempt(db: Runtime, key: NodeKey, owner: string, duration: int, now: Time, token: string, id: string)
    requires Inv(db) && key in db && db[key].row.state.NodeRunning? && db[key].row.retrySafe
    requires db[key].row.effectCommittedAt.None? && db[key].row.lease.value.expiresAt <= now
    requires ValidLeaseIdentity(key, owner, duration)
    ensures var db' := After(db, Claim(key, owner, duration, now, token, id));
            && Attempts(db', key) == Attempts(db, key) + 1
            && db'[key].row.state.NodeRunning? && db'[key].row.retrySafe && db'[key].row.effectCommittedAt.None?
  {
    assert NodeInv(db[key]);
  }

  // ---- Two activities that overlap -----------------------------------------

  const NODE := NodeKey("e", 1, "n")
  const POLICY := RetryPolicy(2, ["TRANSIENT"])
  const EFFECT := EffectSpec(EffectReadOnly, "", true)

  /** The node is READY, read-only and retry-safe. */
  ghost predicate ReadyNode(db: Runtime, n: nat) {
    && Inv(db) && NODE in db && db[NODE].row.state.NodeReady? && |db[NODE].attempts| == n
    && db[NODE].row.retrySafe && db[NODE].row.effectClass.EffectReadOnly?
  }

  /** The node has just failed for a transient reason. */
  ghost predicate FailedNode(db: Runtime, n: nat) {
    && Inv(db) && NODE in db && db[NODE].row.state.NodeFailed? && |db[NODE].attempts| == n > 0
    && db[NODE].row.retrySafe && db[NODE].row.effectClass.EffectReadOnly?
    && Last(db[NODE].attempts).errorClass == "TRANSIENT"
  }

  function LeaseAt(n: nat): NodeLease {
    NodeLease(NODE, "a", "w", "t", n + 1, n + 1, 1, 1, 11)
  }

  function FailingRound(n: nat): (ops: seq<Op>)
    ensures AdmissibleRun(ops) && |ops| == 3
  {
    [Claim(NODE, "w", 10, 1, "t", "a"),
     StartAttempt(LeaseAt(n), AttemptBinding("g", 1, "s", "p", "b"), 2),
     Complete(LeaseAt(n), NodeFailed, AttemptCompletion(AttemptFailed, "TRANSIENT", NO_USAGE), 3)]
  }

  lemma NotBlanks()
    ensures !Blank("w") && !Blank("a") && !Blank("t") && !Blank("s") && !Blank("b") && !Blank("p") && !Blank("g")
  {
    assert !IsSpace("w"[0]) && !IsSpace("a"[0]) && !IsSpace("t"[0]) && !IsSpace("s"[0]);
    assert !IsSpace("b"[0]) && !IsSpace("p"[0]) && !IsSpace("g"[0]);
  }

  /** The node is running under the round's lease. */
  ghost predicate RunningNode(db: Runtime, n: nat, status: AttemptStatus) {
    && Inv(db) && NODE in db && |db[NODE].attempts| == n + 1 && Holds(db[NODE].row, LeaseAt(n), 2) && Holds(db[NODE].row, LeaseAt(n), 3)
    && db[NODE].row.retrySafe && db[NODE].row.effectClass.EffectReadOnly?
    && Last(db[NODE].attempts).id == "a" && Last(db[NODE].attempts).status == status
  }

  lemma RoundClaims(db: Runtime, n: nat)
    requires ReadyNode(db, n)
    ensures RunningNode(After(db, FailingRound(n)[0]), n, AttemptPending)
  {
    NotBlanks();
    assert NodeInv(db[NODE]);
    StepKeepsInv(db, FailingRound(n)[0]);
  }

  lemma RoundStarts(db: Runtime, n: nat)
    requires RunningNode(db, n, AttemptPending)
    ensures RunningNode(After(db, FailingRound(n)[1]), n, AttemptRunning)
  {
    NotBlanks();
    assert NodeInv(db[NODE]);
    StepKeepsInv(db, FailingRound(n)[1]);
  }

  lemma RoundFails(db: Runtime, n: nat)
    requires RunningNode(db, n, AttemptRunning)
    ensures FailedNode(After(db, FailingRound(n)[2]), n + 1)
  {
    assert NodeInv(db[NODE]);
    StepKeepsInv(db, FailingRound(n)[2]);
  }

  lemma RoundRuns(db: Runtime, n: nat)
    requires ReadyNode(db, n)
    ensures FailedNode(Run(db, FailingRound(n)), n + 1)
  {
    var ops := FailingRound(n);
    RoundClaims(db, n);
    var db1 := After(db, ops[0]);
    RoundStarts(db1, n);
    var db2 := After(db1, ops[1]);
    RoundFails(db2, n);
    hide After, ReadyNode, RunningNode, FailedNode, FailingRound;
    assert ops[1..][0] == ops[1] && ops[1..][1..] == [ops[2]] && [ops[2]][1..] == [];
    assert Run(db, ops) == Run(db1, ops[1..]) == Run(db2, [ops[2]]) == After(db2, ops[2]);
  }

  lemma RegisterReady()
    ensures ReadyNode(After(map[], REGISTER), 0)
  {
    StepKeepsInv(map[], REGISTER);
  }

  lemma RequeueReady(db: Runtime, n: nat)
    requires FailedNode(db, n)
    ensures RefusalIn(db, RequeueFailed(NODE, 4)).None? && ReadyNode(After(db, RequeueFailed(NODE, 4)), n)
  {
    StepKeepsInv(db, RequeueFailed(NODE, 4));
  }

  const REGISTER := Register(NODE, NodeRow(NodeReady, EffectReadOnly, true, "", 0, 0, None, None, None))

  lemma FirstFailure()
    ensures FailedNode(Run(map[], [REGISTER] + FailingRound(0)), 1)
  {
    RegisterReady();
    RoundRuns(After(map[], REGISTER), 0);
    hide After, FailedNode, FailingRound;
    assert ([REGISTER] + FailingRound(0))[1..] == FailingRound(0);
  }

  lemma NextFailure(db: Runtime, n: nat)
    requires FailedNode(db, n)
    ensures FailedNode(Run(db, [RequeueFailed(NODE, 4)] + FailingRound(n)), n + 1)
  {
    RequeueReady(db, n);
    RoundRuns(After(db, RequeueFailed(NODE, 4)), n);
    hide After, FailedNode, FailingRound, ReadyNode;
    assert ([RequeueFailed(NODE, 4)] + FailingRound(n))[1..] == FailingRound(n);
  }

  lemma FailureDecides(db: Runtime)
    requires FailedNode(db, 1)
    ensures Decides(db, NODE, POLICY, EFFECT) && Timely(db, RequeueFailed(NODE, 4), NODE, Maximum(POLICY))
  {
    assert NodeInv(db[NODE]);
  }

  /**
   With a maximum of two: both activities decide after the first failure; one requeues and the second
   attempt fails; the other's requeue is accepted all the same.
   */
  lemma OverlapWitness() returns (ops: seq<Op>, between: seq<Op>)
    ensures between == [RequeueFailed(NODE, 4)] + FailingRound(1) && AdmissibleRun(ops) && AdmissibleRun(between)
    ensures Decides(Run(map[], ops), NODE, POLICY, EFFECT)
    ensures Timely(Run(map[], ops), RequeueFailed(NODE, 4), NODE, Maximum(POLICY))
    ensures Passes(Run(Run(map[], ops), between), NODE, 4, Maximum(POLICY))
  {
    hide Run, Inv, FailingRound;
    ops, between := [REGISTER] + FailingRound(0), [RequeueFailed(NODE, 4)] + FailingRound(1);
    FirstFailure();
    FailureDecides(Run(map[], ops));
    NextFailure(Run(map[], ops), 1);
    RequeueIgnoresMaximum(Run(Run(map[], ops), between), NODE, 4, 2);
  }
}
