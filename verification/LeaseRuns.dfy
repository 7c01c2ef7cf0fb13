/** Safety of the lease protocol over every interleaving of its transactions. */
module LeaseRuns {
  import opened Common
  import opened ExecutionTypes
  import opened LeaseProtocol

  predicate AdmissibleRun(ops: seq<Op>) {
    forall i | 0 <= i < |ops| :: AdmissibleOp(ops[i])
  }

  lemma {:induction false} RunKeepsInv(db: Runtime, ops: seq<Op>)
    requires Inv(db) && AdmissibleRun(ops)
    ensures Inv(Run(db, ops))
    decreases |ops|
  {
    if ops != [] {
      StepKeepsInv(db, ops[0]);
      RunKeepsInv(After(db, ops[0]), ops[1..]);
    }
  }

  /**
   In every reachable state the attempt number is the fence, the history is exactly attempts 1..n with
   fence k on attempt k, the node is RUNNING iff its last attempt is open, every earlier attempt is
   closed, and the row's effect marks are the last attempt's.
   */
  lemma ReachableNode(ops: seq<Op>, key: NodeKey)
    requires AdmissibleRun(ops) && key in Run(map[], ops)
    ensures var n := Run(map[], ops)[key];
            && n.row.attemptNumber == n.row.fence == |n.attempts|
            && (forall k | 0 <= k < |n.attempts| :: n.attempts[k].number == k + 1 && n.attempts[k].fence == k + 1)
            && (n.row.state.NodeRunning? <==> n.attempts != [] && OpenStatus(Last(n.attempts).status))
            && (forall k | 0 <= k < |n.attempts| - 1 :: !OpenStatus(n.attempts[k].status))
            && (n.attempts != [] ==>
                  && n.row.effectStartedAt == Last(n.attempts).effectStartedAt
                  && n.row.effectCommittedAt == Last(n.attempts).effectCommittedAt)
  {
    RunKeepsInv(map[], ops);
    assert NodeInv(Run(map[], ops)[key]);
  }

  // ---- The history only grows ----------------------------------------------

  /** y is a later version of the same attempt row. */
  ghost predicate Grows(x: Attempt, y: Attempt) {
    && y.id == x.id && y.number == x.number && y.fence == x.fence && y.owner == x.owner
    && y.idempotencyKey == x.idempotencyKey && y.claimedAt == x.claimedAt
    && (!OpenStatus(x.status) ==> y == x)
    && (x.status.AttemptRunning? ==> !y.status.AttemptPending?)
    && (x.binding.Some? ==> y.binding == x.binding && y.startedAt == x.startedAt)
    && (x.effectStartedAt.Some? ==> y.effectStartedAt == x.effectStartedAt)
    && (x.effectCommittedAt.Some? ==> y.effectCommittedAt == x.effectCommittedAt)
  }

  /** m is a later version of n: frozen plan semantics, a fence that never falls, a history that only grows. */
  ghost predicate Extends(n: Node, m: Node) {
    && m.row.effectClass == n.row.effectClass
    && m.row.retrySafe == n.row.retrySafe
    && m.row.idempotencyKey == n.row.idempotencyKey
    && n.row.fence <= m.row.fence
    && |n.attempts| <= |m.attempts|
    && forall k | 0 <= k < |n.attempts| :: Grows(n.attempts[k], m.attempts[k])
  }

  ghost predicate RuntimeExtends(a: Runtime, b: Runtime) {
    forall key | key in a :: key in b && Extends(a[key], b[key])
  }

  lemma ExtendsTransitive(a: Runtime, b: Runtime, c: Runtime)
    requires RuntimeExtends(a, b) && RuntimeExtends(b, c)
    ensures RuntimeExtends(a, c)
  {
    forall key | key in a ensures key in c && Extends(a[key], c[key]) {
      assert key in b && Extends(a[key], b[key]) && Extends(b[key], c[key]);
      forall k | 0 <= k < |a[key].attempts| ensures Grows(a[key].attempts[k], c[key].attempts[k]) {
        assert Grows(a[key].attempts[k], b[key].attempts[k]) && Grows(b[key].attempts[k], c[key].attempts[k]);
      }
    }
  }

  lemma ClaimExtends(n: Node, op: Op)
    requires NodeInv(n) && op.Claim? && Refusal(Some(n), op).None?
    ensures Extends(n, Applied(n, op))
  {
  }

  lemma AcceptedExtends(n: Node, op: Op)
    requires NodeInv(n) && !op.Register? && !op.Claim? && Refusal(Some(n), op).None?
    ensures Extends(n, Applied(n, op))
  {
    hide Blank, EffectsBounded, ValidBinding, OnlyLastOpen;
  }

  lemma StepExtends(db: Runtime, op: Op)
    requires Inv(db)
    ensures RuntimeExtends(db, After(db, op))
  {
    forall key | key in db ensures key in After(db, op) && Extends(db[key], After(db, op)[key]) {
      if RefusalIn(db, op).None? && !op.Register? && key == Target(op) {
        if op.Claim? { ClaimExtends(db[key], op); } else { AcceptedExtends(db[key], op); }
        assert After(db, op)[key] == Applied(db[key], op);
      } else {
        assert After(db, op)[key] == db[key];
      }
    }
  }

  lemma {:induction false} RunExtends(db: Runtime, ops: seq<Op>)
    requires Inv(db) && AdmissibleRun(ops)
    ensures RuntimeExtends(db, Run(db, ops))
    decreases |ops|
  {
    if ops != [] {
      var db' := After(db, ops[0]);
      StepExtends(db, ops[0]);
      StepKeepsInv(db, ops[0]);
      RunExtends(db', ops[1..]);
      ExtendsTransitive(db, db', Run(db', ops[1..]));
    }
  }

  /**
   Attempt history over all runs: a closed attempt never changes again, a binding once set is never
   changed, and whatever succeeded or left an effect mark carries a complete binding.
   */
  lemma AttemptHistory(db: Runtime, ops: seq<Op>, key: NodeKey, k: nat)
    requires Inv(db) && AdmissibleRun(ops)
    requires key in db && k < |db[key].attempts|
    ensures var later := Run(db, ops);
            && key in later && k < |later[key].attempts|
            && var x := db[key].attempts[k]; var y := later[key].attempts[k];
            && (!OpenStatus(x.status) ==> y == x)
            && (x.binding.Some? ==> y.binding == x.binding)
            && (y.status.AttemptSucceeded? || y.effectStartedAt.Some? || y.effectCommittedAt.Some? ==>
                  y.binding.Some? && ValidBinding(y.binding.value))
  {
    RunExtends(db, ops);
    RunKeepsInv(db, ops);
    assert Extends(db[key], Run(db, ops)[key]) && NodeInv(Run(db, ops)[key]);
    assert Grows(db[key].attempts[k], Run(db, ops)[key].attempts[k]);
  }

  // ---- At most one effect --------------------------------------------------

  /**
   Once an attempt of a non-idempotent mutation has started its effect, no later attempt is ever
   created and no other attempt of the node ever starts one, whatever crashes, expiries, releases and
   requeues follow.
   */
  lemma NonIdempotentStartsOnce(db: Runtime, ops: seq<Op>, key: NodeKey, k: nat)
    requires Inv(db) && AdmissibleRun(ops)
    requires key in db && db[key].row.effectClass.EffectNonIdempotentMutation?
    requires k < |db[key].attempts| && db[key].attempts[k].effectStartedAt.Some?
    ensures var later := Run(db, ops);
            && key in later
            && |later[key].attempts| == |db[key].attempts| == k + 1
            && later[key].attempts[k].effectStartedAt == db[key].attempts[k].effectStartedAt
            && forall j | 0 <= j < k :: later[key].attempts[j].effectStartedAt.None?
  {
    RunExtends(db, ops);
    RunKeepsInv(db, ops);
    var n, m := db[key], Run(db, ops)[key];
    assert NodeInv(n) && NodeInv(m) && Extends(n, m);
    assert Grows(n.attempts[k], m.attempts[k]);
  }

  /**
   Once an attempt of a mutation has committed its effect it is, and stays, the node's last attempt, so
   no second attempt ever commits one.
   */
  lemma MutationCommitsOnce(db: Runtime, ops: seq<Op>, key: NodeKey, k: nat)
    requires Inv(db) && AdmissibleRun(ops)
    requires key in db && IsMutation(db[key].row.effectClass)
    requires k < |db[key].attempts| && db[key].attempts[k].effectCommittedAt.Some?
    ensures var later := Run(db, ops);
            && key in later
            && |later[key].attempts| == |db[key].attempts| == k + 1
            && later[key].attempts[k].effectCommittedAt == db[key].attempts[k].effectCommittedAt
            && forall j | 0 <= j < k :: later[key].attempts[j].effectCommittedAt.None?
  {
    RunExtends(db, ops);
    RunKeepsInv(db, ops);
    var n, m := db[key], Run(db, ops)[key];
    assert NodeInv(n) && NodeInv(m) && Extends(n, m);
    assert Grows(n.attempts[k], m.attempts[k]);
  }

  /** A SUCCEEDED mutation node stays exactly as it is, with a committed SUCCEEDED last attempt. */
  lemma SucceededMutationIsCommitted(ops: seq<Op>, more: seq<Op>, key: NodeKey)
    requires AdmissibleRun(ops) && AdmissibleRun(more)
    requires var db := Run(map[], ops);
             key in db && db[key].row.state.NodeSucceeded? && IsMutation(db[key].row.effectClass)
    ensures var n := Run(map[], ops)[key];
            && n.attempts != []
            && Last(n.attempts).status.AttemptSucceeded?
            && Last(n.attempts).effectCommittedAt.Some?
            && key in Run(Run(map[], ops), more) && Run(Run(map[], ops), more)[key] == n
  {
    RunKeepsInv(map[], ops);
    var db := Run(map[], ops);
    assert NodeInv(db[key]);
    ClosedForGood(db, more, key);
  }

  /** SUCCEEDED, CANCELLED and SKIPPED nodes, and FAILED nodes that may not be requeued, never change again. */
  lemma {:induction false} ClosedForGood(db: Runtime, ops: seq<Op>, key: NodeKey)
    requires key in db && TerminalState(db[key].row.state)
    requires db[key].row.state.NodeFailed? ==> !db[key].row.retrySafe || IsMutation(db[key].row.effectClass)
    ensures key in Run(db, ops) && Run(db, ops)[key] == db[key]
    decreases |ops|
  {
    if ops != [] {
      assert After(db, ops[0])[key] == db[key];
      ClosedForGood(After(db, ops[0]), ops[1..], key);
    }
  }

  // ---- Fencing -------------------------------------------------------------

  function Fence(db: Runtime, key: NodeKey): int {
    if key in db then db[key].row.fence else 0
  }

  /** The lease that an accepted Claim hands to its worker. */
  function Grant(row: NodeRow, op: Op): NodeLease
    requires op.Claim?
  {
    NodeLease(op.key, op.attemptId, op.owner, op.token, row.fence + 1, row.attemptNumber + 1,
              op.now, op.now, op.now + op.duration)
  }

  predicate Granted(db: Runtime, op: Op, key: NodeKey) {
    op.Claim? && op.key == key && key in db && RefusalIn(db, op).None?
  }

  /** All leases issued for a node along a run, in order. */
  function Grants(db: Runtime, ops: seq<Op>, key: NodeKey): seq<NodeLease>
    decreases |ops|
  {
    if ops == [] then []
    else
      var rest := Grants(After(db, ops[0]), ops[1..], key);
      if Granted(db, ops[0], key) then [Grant(db[key].row, ops[0])] + rest else rest
  }

  /** Lease number i of the list has fence base + i + 1 and names the attempt with that fence. */
  ghost predicate InStep(issued: seq<NodeLease>, base: int, n: Node) {
    && n.row.fence == |n.attempts| == base + |issued|
    && 0 <= base
    && forall i | 0 <= i < |issued| ::
         && issued[i].fence == base + i + 1
         && issued[i].attemptRef == n.attempts[base + i].id
         && issued[i].owner == n.attempts[base + i].owner
  }

  lemma ClaimInStep(n: Node, op: Op)
    requires NodeInv(n) && op.Claim? && Refusal(Some(n), op).None?
    ensures InStep([Grant(n.row, op)], n.row.fence, Applied(n, op))
  {
  }

  lemma OthersKeepFence(n: Node, op: Op)
    requires !op.Register? && !op.Claim?
    ensures Applied(n, op).row.fence == n.row.fence
  {
  }

  lemma GrantStep(db: Runtime, op: Op, key: NodeKey)
    requires Inv(db) && AdmissibleOp(op)
    ensures var db' := After(db, op);
            if Granted(db, op, key)
            then key in db' && InStep([Grant(db[key].row, op)], db[key].row.fence, db'[key])
            else Fence(db', key) == Fence(db, key)
  {
    if Granted(db, op, key) {
      ClaimInStep(db[key], op);
      assert After(db, op)[key] == Applied(db[key], op);
    } else if key in db && !op.Register? && !op.Claim? {
      OthersKeepFence(db[key], op);
    }
  }

  /** Issued leases and durable attempts are in step along every run. */
  lemma {:induction false} GrantsMatchHistory(db: Runtime, ops: seq<Op>, key: NodeKey)
    requires Inv(db) && AdmissibleRun(ops)
    ensures var later := Run(db, ops);
            if key in later then InStep(Grants(db, ops, key), Fence(db, key), later[key])
            else Grants(db, ops, key) == []
    decreases |ops|
  {
    if ops == [] {
      if key in db { assert NodeInv(db[key]); }
    } else {
      var op, db' := ops[0], After(db, ops[0]);
      GrantStep(db, op, key);
      StepKeepsInv(db, op);
      GrantsMatchHistory(db', ops[1..], key);
      hide Inv, After, Grant, RuntimeExtends, InStep;
      if Granted(db, op, key) {
        RunExtends(db', ops[1..]);
        ExtendsAt(db', Run(db', ops[1..]), key);
        FirstGrant(Grant(db[key].row, op), Grants(db', ops[1..], key), db'[key], Run(db', ops[1..])[key]);
      }
    }
  }

  lemma ExtendsAt(a: Runtime, b: Runtime, key: NodeKey)
    requires RuntimeExtends(a, b) && key in a
    ensures key in b && Extends(a[key], b[key])
  {
  }

  lemma FirstGrant(first: NodeLease, rest: seq<NodeLease>, n: Node, m: Node)
    requires InStep([first], n.row.fence - 1, n) && InStep(rest, n.row.fence, m) && Extends(n, m)
    ensures InStep([first] + rest, n.row.fence - 1, m)
  {
    assert [first][0] == first;
    var f := n.row.fence - 1;
    assert Grows(n.attempts[f], m.attempts[f]);
    forall i | 0 <= i < |[first] + rest|
      ensures var l := ([first] + rest)[i];
              l.fence == f + i + 1 && l.attemptRef == m.attempts[f + i].id && l.owner == m.attempts[f + i].owner
    {
      if i > 0 { assert ([first] + rest)[i] == rest[i - 1]; }
    }
  }

  lemma {:induction false} FenceNeverFalls(db: Runtime, ops: seq<Op>, key: NodeKey)
    requires key in db
    ensures key in Run(db, ops) && Fence(db, key) <= Fence(Run(db, ops), key)
    decreases |ops|
  {
    if ops != [] {
      FenceNeverFalls(After(db, ops[0]), ops[1..], key);
    }
  }

  /**
   Once a lease with a higher fence exists for the node, every operation that presents the older lease
   is refused, now and after any further operations, and leaves every row and attempt as it is.
   */
  lemma FencedOut(db: Runtime, ops: seq<Op>, op: Op)
    requires PresentsLease(op) && op.lease.key in db
    requires op.lease.fence < Fence(db, op.lease.key)
    ensures RefusalIn(Run(db, ops), op).Some?
    ensures After(Run(db, ops), op) == Run(db, ops)
  {
    FenceNeverFalls(db, ops, op.lease.key);
  }

  /** Of all leases ever issued for a node, at most one can have an operation accepted in any reachable state. */
  lemma OneEffectiveLease(ops: seq<Op>, key: NodeKey, i: nat, j: nat, a: Op, b: Op)
    requires AdmissibleRun(ops)
    requires i < |Grants(map[], ops, key)| && j < |Grants(map[], ops, key)|
    requires PresentsLease(a) && a.lease.key == key && a.lease.fence == Grants(map[], ops, key)[i].fence
    requires PresentsLease(b) && b.lease.key == key && b.lease.fence == Grants(map[], ops, key)[j].fence
    requires RefusalIn(Run(map[], ops), a).None? && RefusalIn(Run(map[], ops), b).None?
    ensures i == j == |Grants(map[], ops, key)| - 1
  {
    GrantsMatchHistory(map[], ops, key);
  }

  // ---- Expiry --------------------------------------------------------------

  predicate NotBefore(op: Op, t: Time) {
    !op.Register? ==> t <= op.now
  }

  /** The lease with this fence has been superseded, given up, or has run out by time t. */
  predicate Dead(db: Runtime, key: NodeKey, fence: int, t: Time) {
    && key in db
    && (|| fence < db[key].row.fence
        || (fence == db[key].row.fence && (db[key].row.lease.Some? ==> db[key].row.lease.value.expiresAt <= t)))
  }

  /** With a clock that does not step back, a lease that has expired never succeeds again, nor can it be renewed. */
  lemma {:induction false} ExpiredForGood(db: Runtime, ops: seq<Op>, op: Op, t: Time)
    requires PresentsLease(op) && Dead(db, op.lease.key, op.lease.fence, t)
    requires NotBefore(op, t) && forall i | 0 <= i < |ops| :: NotBefore(ops[i], t)
    ensures Dead(Run(db, ops), op.lease.key, op.lease.fence, t)
    ensures RefusalIn(Run(db, ops), op).Some?
    decreases |ops|
  {
    if ops != [] {
      ExpiredForGood(After(db, ops[0]), ops[1..], op, t);
    }
  }

  /** The clock premise is needed: transactions read the clock before they lock the row. */
  lemma ClockStepBackRevives(n: Node, lease: NodeLease, t: Time, duration: int)
    requires NodeInv(n) && n.row.state.NodeRunning? && ValidHeldLease(lease, duration)
    requires n.row.lease.value.owner == lease.owner && n.row.lease.value.token == lease.token
    requires n.row.fence == lease.fence && n.row.lease.value.expiresAt <= t
    requires n.row.lease.value.claimedAt < n.row.lease.value.expiresAt
    ensures Refusal(Some(n), Renew(lease, duration, t)).Some?
    ensures forall s :: Refusal(Some(n), Renew(lease, duration, s)).None? <==>
              n.row.lease.value.claimedAt - duration < s < n.row.lease.value.expiresAt
  {
  }

  /** A lease claimed at 10 that expired at 20: refused by a clock at 25, renewed by one that reads 15. */
  lemma ClockStepBackWitness()
    ensures var lease := NodeLease(NodeKey("e", 1, "n"), "a", "w", "t", 1, 1, 10, 10, 20);
            var n := Node(NodeRow(NodeRunning, EffectPure, true, "", 1, 1, Some(HeldLease("w", "t", 10, 10, 20)), None, None),
                          [Attempt("a", 1, 1, "w", AttemptPending, None, "", "", NO_USAGE, 10, None, None, None, None)]);
            && NodeInv(n)
            && Refusal(Some(n), Renew(lease, 10, 25)) == Some(LeaseLost)
            && Refusal(Some(n), Renew(lease, 10, 15)).None?
  {
    assert !IsSpace("e"[0]) && !IsSpace("n"[0]) && !IsSpace("w"[0]) && !IsSpace("t"[0]);
  }

  // ---- The node transition table -------------------------------------------

  /** The operation gives this node back before any effect. */
  predicate Releases(db: Runtime, op: Op, key: NodeKey) {
    op.ReleaseBeforeEffect? && op.lease.key == key && RefusalIn(db, op).None?
  }

  /** The repository moves a node along the table of node transitions except, exactly, when it releases it. */
  lemma MovesByTableIff(db: Runtime, op: Op, key: NodeKey)
    requires Inv(db) && key in db
    ensures key in After(db, op)
    ensures CanTransitionNode(db[key].row.state, After(db, op)[key].row.state) <==> !Releases(db, op, key)
  {
    assert NodeInv(db[key]);
  }

  ghost predicate TableRun(db: Runtime, ops: seq<Op>, key: NodeKey)
    requires key in db
    decreases |ops|
  {
    ops != [] ==>
      && key in After(db, ops[0])
      && CanTransitionNode(db[key].row.state, After(db, ops[0])[key].row.state)
      && TableRun(After(db, ops[0]), ops[1..], key)
  }

  ghost predicate EverReleases(db: Runtime, ops: seq<Op>, key: NodeKey)
    decreases |ops|
  {
    ops != [] && (Releases(db, ops[0], key) || EverReleases(After(db, ops[0]), ops[1..], key))
  }

  /** A whole run of a node follows the table if and only if it never releases the node. */
  lemma {:induction false} RunByTableIff(db: Runtime, ops: seq<Op>, key: NodeKey)
    requires Inv(db) && AdmissibleRun(ops) && key in db
    ensures TableRun(db, ops, key) <==> !EverReleases(db, ops, key)
    decreases |ops|
  {
    if ops != [] {
      MovesByTableIff(db, ops[0], key);
      StepKeepsInv(db, ops[0]);
      hide Inv, After, Releases, CanTransitionNode;
      RunByTableIff(After(db, ops[0]), ops[1..], key);
    }
  }

  /** A freshly claimed node is released: RUNNING to READY, which the table does not list. */
  lemma ReleaseWitness()
    ensures var lease := NodeLease(NodeKey("e", 1, "n"), "a", "w", "t", 1, 1, 10, 10, 20);
            var n := Node(NodeRow(NodeRunning, EffectPure, true, "", 1, 1, Some(HeldLease("w", "t", 10, 10, 20)), None, None),
                          [Attempt("a", 1, 1, "w", AttemptPending, None, "", "", NO_USAGE, 10, None, None, None, None)]);
            && NodeInv(n)
            && Refusal(Some(n), ReleaseBeforeEffect(lease, 15)).None?
            && Applied(n, ReleaseBeforeEffect(lease, 15)).row.state.NodeReady?
            && !CanTransitionNode(NodeRunning, NodeReady)
  {
  }
}
