/** One turn of the lifecycle loop as a function of the backend, and when the loop would never end. */
module LifecycleTurns {
  import opened Common
  import opened Tasks
  import opened Lifecycle

  const MAXIMUM_ATTEMPTS := 3

  const PLAN_STUB := "aicloud.task.plan.stub.v1"
  const ROUTE_STUB := "aicloud.task.route.stub.v1"
  const EXECUTE_STUB := "aicloud.task.execute.stub.v1"
  const VALIDATE_STUB := "aicloud.task.validate.stub.v1"

  /** What the loop does in each status. */
  datatype Stage = NoStage | Enter(to: TaskStatus) | Work(activity: string, name: string, to: TaskStatus)

  function StageOf(status: TaskStatus): (r: Stage)
    ensures !r.NoStage? ==> CanTransition(status, r.to) && Rank(r.to) == Rank(status) + 1 && Target(r.to)
    ensures r.NoStage? <==> IsTerminal(status) || status.TaskWaitingApproval? || status.TaskUnknown?
  {
    match status
    case TaskCreated => Enter(TaskPlanning)
    case TaskPlanning => Work(PLAN_STUB, "plan", TaskRouting)
    case TaskRouting => Work(ROUTE_STUB, "route", TaskExecuting)
    case TaskExecuting => Work(EXECUTE_STUB, "execute", TaskValidating)
    case TaskValidating => Work(VALIDATE_STUB, "validate", TaskCompleted)
    case _ => NoStage
  }

  /** A stub activity under the retry policy. */
  function Stub(b: Backend, activity: string, s: Scope, at: Time, attempts: nat): (Backend, bool)
    decreases attempts
  {
    if attempts == 0 then (b, false)
    else
      var (b', ok) := Stepped(b, activity, s, at);
      if ok then (b', true) else Stub(b', activity, s, at, attempts - 1)
  }

  /** Without a race, an activity gets through if and only if it fails at most twice. */
  lemma StubSucceedsIff(b: Backend, activity: string, s: Scope, at: Time)
    requires InScope(b.tasks, s) && activity !in b.terminalOnStep
    ensures Stub(b, activity, s, at, MAXIMUM_ATTEMPTS).1 <==> activity !in b.stepFailures || b.stepFailures[activity] <= 2
  {
    var b1 := Stepped(b, activity, s, at).0;
    var b2 := Stepped(b1, activity, s, at).0;
    assert Stub(b, activity, s, at, 3).1 <==>
      Stepped(b, activity, s, at).1 || Stepped(b1, activity, s, at).1 || Stepped(b2, activity, s, at).1 by {
      assert Stub(b, activity, s, at, 3) == if Stepped(b, activity, s, at).1 then (b1, true) else Stub(b1, activity, s, at, 2);
      assert Stub(b1, activity, s, at, 2) == if Stepped(b1, activity, s, at).1 then (b2, true) else Stub(b2, activity, s, at, 1);
    }
  }

  function Worked(b: Backend, s: Scope, stage: Stage, at: Time): (Backend, bool) {
    if stage.Work? then Stub(b, stage.activity, s, at, MAXIMUM_ATTEMPTS) else (b, true)
  }

  function InputFor(s: Scope, version: int, to: TaskStatus): (i: TransitionInput)
    ensures Honest(i)
  {
    TransitionInput(s, version, to, LIFECYCLE_VERSION, OperationKey(s.taskId, to))
  }

  /** The backend after one turn, and whether the loop goes round again. */
  function Turn(b: Backend, s: Scope, at: Time): (Backend, bool) {
    if !InScope(b.tasks, s) then (b, false)
    else
      var task := b.tasks[s.taskId];
      var stage := StageOf(task.status);
      if stage.NoStage? then (b, false)
      else
        var (worked, ok) := Worked(b, s, stage, at);
        if !ok then (worked, false)
        else
          var (b', r) := Transitioned(worked, InputFor(s, task.version, stage.to), at);
          match r
          case Err(Failure) => (b', false)
          case Err(StaleVersion) => (b', InScope(b'.tasks, s))
          case Ok(next) => (b', !(next.status == stage.to && stage.to.TaskCompleted?))
  }

  function Turns(b: Backend, s: Scope, at: Time, n: nat): Backend {
    if n == 0 then b else Turn(Turns(b, s, at, n - 1), s, at).0
  }

  /** The loop never leaves. */
  ghost predicate Forever(b: Backend, s: Scope, at: Time) {
    forall n: nat :: Turn(Turns(b, s, at, n), s, at).1
  }

  lemma {:induction false} TurnsShift(b: Backend, s: Scope, at: Time, n: nat)
    ensures Turns(Turn(b, s, at).0, s, at, n) == Turns(b, s, at, n + 1)
  {
    hide Turn;
    if n > 0 { TurnsShift(b, s, at, n - 1); }
  }

  // ---- Turns without faults ------------------------------------------------

  /** No fault is injected any more. */
  ghost predicate Quiet(b: Backend) {
    b.terminalOnStep == map[] && b.staleOnce == {} && forall a | a in b.stepFailures :: b.stepFailures[a] <= 0
  }

  /** Records under the task's keys were written for those keys, as TransitionTask writes them. */
  ghost predicate Kept(b: Backend, id: string) {
    forall to | Target(to) && OperationKey(id, to) in b.operations ::
      b.operations[OperationKey(id, to)].to == to && b.operations[OperationKey(id, to)].snapshot.status == to
  }

  /** A fault-free backend with the task in a status the loop works on. */
  ghost predicate Ready(b: Backend, s: Scope, at: Time) {
    && Quiet(b) && at != 0 && InScope(b.tasks, s) && Kept(b, s.taskId)
    && !StageOf(b.tasks[s.taskId].status).NoStage?
  }

  /** A target of the loop that the task has yet to reach is already on record under its key. */
  ghost predicate Forestalled(b: Backend, id: string)
    requires id in b.tasks
  {
    exists to :: Target(to) && !to.TaskCompleted? && Recorded(b, id, to) && Rank(to) > Rank(b.tasks[id].status)
  }

  lemma TargetKeysDiffer(id: string, x: TaskStatus, y: TaskStatus)
    requires Target(x) && Target(y) && x != y
    ensures OperationKey(id, x) != OperationKey(id, y)
  {
    var at := |Trim(id)| + |":transition:"|;
    assert OperationKey(id, x)[at] == Name(x)[0];
    assert OperationKey(id, y)[at] == Name(y)[0];
  }

  lemma KeyNotBlank(id: string, to: TaskStatus)
    ensures !Blank(OperationKey(id, to))
  {
    assert OperationKey(id, to)[|Trim(id)|] == ':' && !IsSpace(':');
  }

  lemma WorkflowMoves(t: Task, to: TaskStatus, at: Time)
    requires CanTransition(t.status, to) && at != 0
    ensures Moved(t, to, WORKFLOW_ACTOR, LIFECYCLE_VERSION, at).Some?
  {
    assert !IsSpace(WORKFLOW_ACTOR[0]) && !IsSpace(LIFECYCLE_VERSION[0]);
  }

  lemma QuietWork(b: Backend, s: Scope, stage: Stage, at: Time)
    requires Quiet(b) && InScope(b.tasks, s)
    ensures Worked(b, s, stage, at) == (b, true)
  {
  }

  /** The stuck turn: the record answers, nothing changes, and the loop goes round. */
  lemma StuckTurn(b: Backend, s: Scope, at: Time)
    requires Ready(b, s, at)
    requires var to := StageOf(b.tasks[s.taskId].status).to; Recorded(b, s.taskId, to) && !to.TaskCompleted?
    ensures Turn(b, s, at) == (b, true)
  {
    var stage := StageOf(b.tasks[s.taskId].status);
    QuietWork(b, s, stage, at);
    KeyNotBlank(s.taskId, stage.to);
  }

  lemma {:induction false} StuckForEver(b: Backend, s: Scope, at: Time, n: nat)
    requires Turn(b, s, at) == (b, true)
    ensures Turns(b, s, at, n) == b
  {
    hide Turn;
    if n > 0 { StuckForEver(b, s, at, n - 1); }
  }

  /** The free turn: the key is unused, the task climbs, and the operation is on record. */
  lemma FreeTurn(b: Backend, s: Scope, at: Time)
    requires Ready(b, s, at) && !Recorded(b, s.taskId, StageOf(b.tasks[s.taskId].status).to)
    ensures var to, b' := StageOf(b.tasks[s.taskId].status).to, Turn(b, s, at).0;
            && Turn(b, s, at).1 == !to.TaskCompleted?
            && Advanced(b, InputFor(s, b.tasks[s.taskId].version, to), b')
            && b'.operations[OperationKey(s.taskId, to)].snapshot.status == to
            && b'.stepFailures == b.stepFailures && InScope(b'.tasks, s)
  {
    var task := b.tasks[s.taskId];
    var stage := StageOf(task.status);
    QuietWork(b, s, stage, at);
    KeyNotBlank(s.taskId, stage.to);
    WorkflowMoves(task, stage.to, at);
    hide Blank, OperationKey;
  }

  /** The transition of a free turn reports its target. */
  lemma FreeTransition(b: Backend, s: Scope, at: Time)
    requires Ready(b, s, at) && Own(b, s.taskId)
    ensures var stage := StageOf(b.tasks[s.taskId].status);
            && !Recorded(b, s.taskId, stage.to) && Worked(b, s, stage, at) == (b, true)
            && var r := Transitioned(b, InputFor(s, b.tasks[s.taskId].version, stage.to), at).1;
            r.Ok? && r.value.status == stage.to
  {
    var task := b.tasks[s.taskId];
    var stage := StageOf(task.status);
    assert !Recorded(b, s.taskId, stage.to);
    QuietWork(b, s, stage, at);
    KeyNotBlank(s.taskId, stage.to);
    WorkflowMoves(task, stage.to, at);
    hide Blank, OperationKey;
  }

  /** One more record under one of the task's keys, for a target it has reached. */
  ghost predicate Noted(b: Backend, b': Backend, id: string, to: TaskStatus) {
    && id in b.tasks && id in b'.tasks && Target(to) && !Recorded(b, id, to)
    && b'.tasks[id].status == to && Rank(to) == Rank(b.tasks[id].status) + 1
    && OperationKey(id, to) in b'.operations
    && b'.operations[OperationKey(id, to)].to == to && b'.operations[OperationKey(id, to)].snapshot.status == to
    && b'.operations == b.operations[OperationKey(id, to) := b'.operations[OperationKey(id, to)]]
  }

  lemma OtherKeys(b: Backend, b': Backend, id: string, to: TaskStatus, x: TaskStatus)
    requires Noted(b, b', id, to) && Target(x) && x != to
    ensures OperationKey(id, x) in b'.operations <==> OperationKey(id, x) in b.operations
    ensures OperationKey(id, x) in b.operations ==> b'.operations[OperationKey(id, x)] == b.operations[OperationKey(id, x)]
  {
    TargetKeysDiffer(id, x, to);
  }

  lemma NotedStaysKept(b: Backend, b': Backend, id: string, to: TaskStatus)
    requires Noted(b, b', id, to) && Kept(b, id)
    ensures Kept(b', id)
  {
    hide OperationKey, Target, Rank;
    forall x | Target(x) && OperationKey(id, x) in b'.operations
      ensures b'.operations[OperationKey(id, x)].to == x && b'.operations[OperationKey(id, x)].snapshot.status == x
    {
      if x != to { OtherKeys(b, b', id, to, x); }
    }
  }

  lemma NotedStaysForestalled(b: Backend, b': Backend, id: string, to: TaskStatus)
    requires Noted(b, b', id, to)
    ensures Forestalled(b', id) <==> Forestalled(b, id)
  {
    hide OperationKey;
    if Forestalled(b, id) {
      var x :| Target(x) && !x.TaskCompleted? && Recorded(b, id, x) && Rank(x) > Rank(b.tasks[id].status);
      OtherKeys(b, b', id, to, x);
      assert Recorded(b', id, x);
    }
    if Forestalled(b', id) {
      var x :| Target(x) && !x.TaskCompleted? && Recorded(b', id, x) && Rank(x) > Rank(b'.tasks[id].status);
      OtherKeys(b, b', id, to, x);
      assert Recorded(b, id, x);
    }
  }

  lemma FreeTurnStaysReady(b: Backend, s: Scope, at: Time)
    requires Ready(b, s, at) && !Recorded(b, s.taskId, StageOf(b.tasks[s.taskId].status).to)
    requires !StageOf(b.tasks[s.taskId].status).to.TaskCompleted?
    ensures var b' := Turn(b, s, at).0;
            && Turn(b, s, at).1 && Ready(b', s, at)
            && Rank(b'.tasks[s.taskId].status) == Rank(b.tasks[s.taskId].status) + 1
            && (Forestalled(b', s.taskId) <==> Forestalled(b, s.taskId))
  {
    var id, to, b' := s.taskId, StageOf(b.tasks[s.taskId].status).to, Turn(b, s, at).0;
    FreeTurn(b, s, at);
    hide Turn, OperationKey, Kept, Forestalled;
    NotedStaysKept(b, b', id, to);
    NotedStaysForestalled(b, b', id, to);
  }

  lemma NotForestalled(b: Backend, id: string, to: TaskStatus)
    requires id in b.tasks && !Forestalled(b, id) && Target(to) && !to.TaskCompleted? && Rank(to) > Rank(b.tasks[id].status)
    ensures !Recorded(b, id, to)
  {
  }

  /** A forestalled task keeps the loop going round for ever ... */
  lemma {:induction false} ForestalledLoops(b: Backend, s: Scope, at: Time)
    requires Ready(b, s, at) && Forestalled(b, s.taskId)
    ensures Forever(b, s, at)
    decreases 5 - Rank(b.tasks[s.taskId].status)
  {
    var to, b' := StageOf(b.tasks[s.taskId].status).to, Turn(b, s, at).0;
    if Recorded(b, s.taskId, to) {
      StuckTurn(b, s, at);
      forall n: nat ensures Turn(Turns(b, s, at, n), s, at).1 { StuckForEver(b, s, at, n); }
    } else {
      assert !to.TaskCompleted?;
      hide Turn, Ready, Forestalled, Recorded;
      FreeTurnStaysReady(b, s, at);
      ForestalledLoops(b', s, at);
      forall n: nat ensures Turn(Turns(b, s, at, n), s, at).1 {
        if n > 0 { TurnsShift(b, s, at, n - 1); assert Turn(Turns(b', s, at, n - 1), s, at).1; }
      }
    }
  }

  /** ... and any other task brings it to an end. */
  lemma {:induction false} FreeLoopEnds(b: Backend, s: Scope, at: Time) returns (n: nat)
    requires Ready(b, s, at) && !Forestalled(b, s.taskId)
    ensures !Turn(Turns(b, s, at, n), s, at).1
    decreases 5 - Rank(b.tasks[s.taskId].status)
  {
    hide Turn, Forestalled, Recorded, Kept, Quiet;
    var to := StageOf(b.tasks[s.taskId].status).to;
    if to.TaskCompleted? {
      n := 0;
      LastTurnEnds(b, s, at);
    } else {
      NotForestalled(b, s.taskId, to);
      FreeTurnStaysReady(b, s, at);
      var m := FreeLoopEnds(Turn(b, s, at).0, s, at);
      TurnsShift(b, s, at, m);
      n := m + 1;
    }
  }

  lemma LastTurnEnds(b: Backend, s: Scope, at: Time)
    requires Ready(b, s, at) && StageOf(b.tasks[s.taskId].status).to.TaskCompleted?
    ensures !Turn(b, s, at).1
  {
    var stage := StageOf(b.tasks[s.taskId].status);
    if Recorded(b, s.taskId, stage.to) {
      QuietWork(b, s, stage, at);
      KeyNotBlank(s.taskId, stage.to);
    } else {
      FreeTurn(b, s, at);
    }
  }

  /** Exactly when the loop never ends: some target still ahead is already on record under the task's key. */
  lemma LoopsForeverIff(b: Backend, s: Scope, at: Time)
    requires Ready(b, s, at)
    ensures Forever(b, s, at) <==> Forestalled(b, s.taskId)
  {
    if Forestalled(b, s.taskId) {
      ForestalledLoops(b, s, at);
    } else {
      var n := FreeLoopEnds(b, s, at);
    }
  }

  /** Completion on record ahead of time ends the loop instead, reporting a task that is still VALIDATING as done. */
  lemma RecordedCompletionLies(b: Backend, s: Scope, at: Time)
    requires Ready(b, s, at) && b.tasks[s.taskId].status.TaskValidating? && Recorded(b, s.taskId, TaskCompleted)
    ensures Turn(b, s, at) == (b, false)
    ensures Transitioned(b, InputFor(s, b.tasks[s.taskId].version, TaskCompleted), at).1.Ok?
    ensures Transitioned(b, InputFor(s, b.tasks[s.taskId].version, TaskCompleted), at).1.value.status == TaskCompleted
  {
    QuietWork(b, s, StageOf(TaskValidating), at);
    KeyNotBlank(s.taskId, TaskCompleted);
  }

  // ---- Ending with the task terminal ---------------------------------------

  /** Some turn is the last one, and it leaves the task terminal. */
  ghost predicate EndsTerminal(b: Backend, s: Scope, at: Time) {
    exists n: nat :: EndsAt(b, s, at, n)
  }

  ghost predicate EndsAt(b: Backend, s: Scope, at: Time, n: nat) {
    var last := Turns(b, s, at, n);
    && !Turn(last, s, at).1
    && s.taskId in Turn(last, s, at).0.tasks && IsTerminal(Turn(last, s, at).0.tasks[s.taskId].status)
  }

  lemma FreeTurnNotes(b: Backend, s: Scope, at: Time)
    requires Ready(b, s, at) && !Recorded(b, s.taskId, StageOf(b.tasks[s.taskId].status).to)
    ensures Noted(b, Turn(b, s, at).0, s.taskId, StageOf(b.tasks[s.taskId].status).to)
  {
    FreeTurn(b, s, at);
    hide Turn, OperationKey;
  }

  lemma NotedOwnIff(b: Backend, b': Backend, id: string, to: TaskStatus)
    requires Noted(b, b', id, to)
    ensures Own(b', id) <==> Own(b, id)
  {
    hide OperationKey;
    forall x | Target(x) && x != to ensures Recorded(b', id, x) <==> Recorded(b, id, x) {
      OtherKeys(b, b', id, to, x);
    }
  }

  lemma OwnLastTurn(b: Backend, s: Scope, at: Time)
    requires Ready(b, s, at) && Own(b, s.taskId) && StageOf(b.tasks[s.taskId].status).to.TaskCompleted?
    ensures EndsAt(b, s, at, 0)
  {
    assert !Recorded(b, s.taskId, TaskCompleted);
    FreeTurn(b, s, at);
    hide Turn, OperationKey;
  }

  lemma OwnTurn(b: Backend, s: Scope, at: Time)
    requires Ready(b, s, at) && Own(b, s.taskId) && !StageOf(b.tasks[s.taskId].status).to.TaskCompleted?
    ensures var b' := Turn(b, s, at).0;
            && Ready(b', s, at) && Own(b', s.taskId)
            && Rank(b'.tasks[s.taskId].status) == Rank(b.tasks[s.taskId].status) + 1
  {
    var to, b' := StageOf(b.tasks[s.taskId].status).to, Turn(b, s, at).0;
    assert !Recorded(b, s.taskId, to);
    FreeTurnStaysReady(b, s, at);
    FreeTurnNotes(b, s, at);
    NotedOwnIff(b, b', s.taskId, to);
    hide Turn, OperationKey, Own;
  }

  /** A free turn goes on, ready for the next, unless it completes the task. */
  lemma ReadyTurn(b: Backend, s: Scope, at: Time)
    requires Ready(b, s, at) && Own(b, s.taskId)
    ensures Turn(b, s, at).1 <==> !StageOf(b.tasks[s.taskId].status).to.TaskCompleted?
    ensures Turn(b, s, at).1 ==> Ready(Turn(b, s, at).0, s, at)
  {
    FreeTransition(b, s, at);
    FreeTurn(b, s, at);
    hide Turn, Worked, Transitioned;
    if Turn(b, s, at).1 { OwnTurn(b, s, at); }
  }

  lemma EndsLater(b: Backend, s: Scope, at: Time, m: nat)
    requires EndsAt(Turn(b, s, at).0, s, at, m)
    ensures EndsAt(b, s, at, m + 1)
  {
    hide Turn;
    TurnsShift(b, s, at, m);
  }

  lemma {:induction false} OwnLoopEnds(b: Backend, s: Scope, at: Time) returns (n: nat)
    requires Ready(b, s, at) && Own(b, s.taskId)
    ensures EndsAt(b, s, at, n)
    decreases 5 - Rank(b.tasks[s.taskId].status)
  {
    hide Turn, Own, EndsAt, Quiet, Kept;
    if StageOf(b.tasks[s.taskId].status).to.TaskCompleted? {
      OwnLastTurn(b, s, at);
      n := 0;
    } else {
      OwnTurn(b, s, at);
      var m := OwnLoopEnds(Turn(b, s, at).0, s, at);
      EndsLater(b, s, at, m);
      n := m + 1;
    }
  }

  /** Once something ahead is on record, the task never gets to the end. */
  lemma BlockedStays(b: Backend, s: Scope, at: Time)
    requires Ready(b, s, at) && !Own(b, s.taskId)
    ensures Ready(Turn(b, s, at).0, s, at) && !Own(Turn(b, s, at).0, s.taskId)
  {
    var to, b' := StageOf(b.tasks[s.taskId].status).to, Turn(b, s, at).0;
    if Recorded(b, s.taskId, to) {
      if to.TaskCompleted? { RecordedCompletionLies(b, s, at); } else { StuckTurn(b, s, at); }
    } else {
      assert !to.TaskCompleted?;
      FreeTurnStaysReady(b, s, at);
      FreeTurnNotes(b, s, at);
      NotedOwnIff(b, b', s.taskId, to);
    }
    hide Turn, Ready, Own;
  }

  lemma {:induction false} BlockedForEver(b: Backend, s: Scope, at: Time, n: nat)
    requires Ready(b, s, at) && !Own(b, s.taskId)
    ensures Ready(Turns(b, s, at, n), s, at) && !Own(Turns(b, s, at, n), s.taskId)
  {
    hide Turn, Ready, Own;
    if n > 0 {
      BlockedForEver(b, s, at, n - 1);
      BlockedStays(Turns(b, s, at, n - 1), s, at);
    }
  }

  lemma BlockedNeverEnds(b: Backend, s: Scope, at: Time, n: nat)
    requires Ready(b, s, at) && !Own(b, s.taskId)
    ensures !EndsAt(b, s, at, n)
  {
    BlockedForEver(b, s, at, n + 1);
    hide Turn, Own;
    assert Turns(b, s, at, n + 1) == Turn(Turns(b, s, at, n), s, at).0;
  }

  /** A fault-free loop ends with its task terminal if and only if nothing ahead is on record at the start. */
  lemma EndsTerminalIff(b: Backend, s: Scope, at: Time)
    requires Ready(b, s, at)
    ensures EndsTerminal(b, s, at) <==> Own(b, s.taskId)
  {
    hide Ready, Own, EndsAt;
    if Own(b, s.taskId) {
      var n := OwnLoopEnds(b, s, at);
    } else {
      forall n: nat ensures !EndsAt(b, s, at, n) { BlockedNeverEnds(b, s, at, n); }
    }
  }

  // ---- How a task comes to be forestalled ----------------------------------

  /** Of two new tasks whose ids agree once trimmed, the first one's first turn keeps the second in its loop for ever. */
  lemma TwinIdsLoop(b: Backend, x: Scope, y: Scope, at: Time)
    requires Quiet(b) && b.operations == map[] && at != 0
    requires x.taskId != y.taskId && Trim(x.taskId) == Trim(y.taskId)
    requires InScope(b.tasks, x) && InScope(b.tasks, y)
    requires b.tasks[x.taskId].status.TaskCreated? && b.tasks[y.taskId].status.TaskCreated?
    ensures Forever(Turn(b, x, at).0, y, at)
  {
    var b' := Turn(b, x, at).0;
    FreeTurn(b, x, at);
    assert OperationKey(x.taskId, TaskPlanning) == OperationKey(y.taskId, TaskPlanning);
    hide Turn, OperationKey, Trim;
    forall to | Target(to) && to != TaskPlanning ensures OperationKey(y.taskId, to) !in b'.operations {
      TargetKeysDiffer(y.taskId, to, TaskPlanning);
    }
    assert Recorded(b', y.taskId, TaskPlanning);
    assert Ready(b', y, at) && Forestalled(b', y.taskId);
    ForestalledLoops(b', y, at);
  }

  /**
   Of two VALIDATING tasks whose ids agree once trimmed, the first one's last turn makes the second one's
   loop end at once, reporting COMPLETED, with the task left VALIDATING for good.
   */
  lemma TwinCompletionLies(b: Backend, x: Scope, y: Scope, at: Time)
    requires Quiet(b) && b.operations == map[] && at != 0
    requires x.taskId != y.taskId && Trim(x.taskId) == Trim(y.taskId)
    requires InScope(b.tasks, x) && InScope(b.tasks, y)
    requires b.tasks[x.taskId].status.TaskValidating? && b.tasks[y.taskId].status.TaskValidating?
    ensures var b' := Turn(b, x, at).0;
            && Turn(b', y, at) == (b', false) && b'.tasks[y.taskId].status.TaskValidating?
            && !EndsTerminal(b', y, at)
            && Transitioned(b', InputFor(y, b'.tasks[y.taskId].version, TaskCompleted), at).1.Ok?
  {
    var b' := Turn(b, x, at).0;
    FreeTurn(b, x, at);
    assert OperationKey(x.taskId, TaskCompleted) == OperationKey(y.taskId, TaskCompleted);
    hide Turn, OperationKey, Trim, Transitioned;
    forall to | Target(to) && to != TaskCompleted ensures OperationKey(y.taskId, to) !in b'.operations {
      TargetKeysDiffer(y.taskId, to, TaskCompleted);
    }
    assert Recorded(b', y.taskId, TaskCompleted);
    assert Ready(b', y, at);
    RecordedCompletionLies(b', y, at);
    EndsTerminalIff(b', y, at);
  }

  lemma TwinIdsExist()
    ensures Trim("a") == Trim("a ") == "a"
  {
    assert !IsSpace('a') && IsSpace(' ');
    assert TrimLeft("a ") == "a " && "a "[..1] == "a";
  }

  /** Two concrete tasks, "a" and "a " with a trailing space, in a fresh backend. */
  lemma TwinIdsWitness(t: Task, at: Time)
    requires t.status.TaskCreated? && at != 0
    ensures var b := Backend(ById([t.(id := "a"), t.(id := "a ")]), map[], map[], map[], {});
            var x, y := Scope(t.tenantId, t.projectId, "a", t.traceId), Scope(t.tenantId, t.projectId, "a ", t.traceId);
            Forever(Turn(b, x, at).0, y, at)
  {
    var first, second := t.(id := "a"), t.(id := "a ");
    TwinIdsExist();
    assert [first, second][..1] == [first] && [first][..0] == [];
    assert ById([first, second]) == ById([first])["a " := second];
    assert ById([first]) == map["a" := first];
    var b := Backend(ById([first, second]), map[], map[], map[], {});
    TwinIdsLoop(b, Scope(t.tenantId, t.projectId, "a", t.traceId), Scope(t.tenantId, t.projectId, "a ", t.traceId), at);
  }
}
