/**
 The task lifecycle workflow over the in-memory activity backend, with injected transient failures, stale
 versions and external status races.
 */
module Lifecycle {
  import opened Common
  import opened Tasks

  datatype TaskSnapshot = TaskSnapshot(taskId: string, status: TaskStatus, version: int, terminal: bool)

  datatype TransitionRecord = TransitionRecord(to: TaskStatus, snapshot: TaskSnapshot)

  datatype LifecycleError = StaleVersion | Failure

  datatype Scope = Scope(tenantId: string, projectId: string, taskId: string, traceId: string)

  /** The backend's state, injected faults included. */
  datatype Backend = Backend(
    tasks: map<string, Task>,
    operations: map<string, TransitionRecord>,
    stepFailures: map<string, int>,
    terminalOnStep: map<string, TaskStatus>,
    staleOnce: set<string>)

  function SnapshotOf(t: Task): TaskSnapshot {
    TaskSnapshot(t.id, t.status, t.version, IsTerminal(t.status))
  }

  predicate InScope(tasks: map<string, Task>, s: Scope) {
    && s.taskId in tasks
    && tasks[s.taskId].tenantId == s.tenantId && tasks[s.taskId].projectId == s.projectId && tasks[s.taskId].traceId == s.traceId
  }

  // ---- Operation keys ------------------------------------------------------

  function Name(s: TaskStatus): string {
    match s
    case TaskCreated => "CREATED"
    case TaskPlanning => "PLANNING"
    case TaskRouting => "ROUTING"
    case TaskExecuting => "EXECUTING"
    case TaskWaitingApproval => "WAITING_APPROVAL"
    case TaskValidating => "VALIDATING"
    case TaskCompleted => "COMPLETED"
    case TaskFailed => "FAILED"
    case TaskCancelled => "CANCELLED"
    case TaskExpired => "EXPIRED"
    case TaskUnknown(name) => name
  }

  function KeySuffix(to: TaskStatus): string {
    ":transition:" + Name(to) + ":lifecycle-v1"
  }

  /** TransitionOperationKey */
  function OperationKey(taskId: string, to: TaskStatus): string {
    Trim(taskId) + KeySuffix(to)
  }

  lemma KeyDeterminesId(a: string, b: string, to: TaskStatus)
    requires OperationKey(a, to) == OperationKey(b, to)
    ensures Trim(a) == Trim(b)
  {
    var k := OperationKey(a, to);
    assert Trim(a) == k[..|k| - |KeySuffix(to)|];
    assert Trim(b) == k[..|k| - |KeySuffix(to)|];
  }

  // ---- Activities ----------------------------------------------------------

  datatype TransitionInput = TransitionInput(scope: Scope, expectedVersion: int, to: TaskStatus, cause: string, key: string)

  const WORKFLOW_ACTOR := "workflow:task-execution-v1"
  const RACE_ACTOR := "test:external"
  const RACE_CAUSE := "S3C terminal race fixture"
  const LIFECYCLE_VERSION := "lifecycle-v1"

  function Moved(t: Task, to: TaskStatus, actor: string, cause: string, at: Time): Option<Task> {
    match Move(t, TransitionCommand(to, actor, cause, at))
    case Ok((moved, _)) => Some(moved.(version := t.version + 1))
    case Err(_) => None
  }

  /** TransitionTask as a function of the backend. */
  function Transitioned(b: Backend, i: TransitionInput, at: Time): (Backend, Result<TaskSnapshot, LifecycleError>) {
    if Blank(i.key) || !InScope(b.tasks, i.scope) then (b, Err(Failure))
    else if i.key in b.operations then
      (b, if b.operations[i.key].to == i.to then Ok(b.operations[i.key].snapshot) else Err(Failure))
    else
      var task := b.tasks[i.scope.taskId];
      if IsTerminal(task.status) then (b, Ok(SnapshotOf(task)))
      else if i.key in b.staleOnce then (b.(staleOnce := b.staleOnce - {i.key}), Err(StaleVersion))
      else if task.version != i.expectedVersion then (b, Err(StaleVersion))
      else
        match Moved(task, i.to, WORKFLOW_ACTOR, i.cause, at)
        case None => (b, Err(Failure))
        case Some(moved) =>
          (b.(tasks := b.tasks[i.scope.taskId := moved],
              operations := b.operations[i.key := TransitionRecord(i.to, SnapshotOf(moved))]),
           Ok(SnapshotOf(moved)))
  }

  /** runStep as a function of the backend; the flag says whether the activity succeeded. */
  function Stepped(b: Backend, activity: string, s: Scope, at: Time): (Backend, bool) {
    if !InScope(b.tasks, s) then (b, false)
    else if activity in b.stepFailures && b.stepFailures[activity] > 0 then
      (b.(stepFailures := b.stepFailures[activity := b.stepFailures[activity] - 1]), false)
    else if activity !in b.terminalOnStep then (b, true)
    else
      var rest := b.(terminalOnStep := b.terminalOnStep - {activity});
      var task := b.tasks[s.taskId];
      if IsTerminal(task.status) then (rest, true)
      else
        match Moved(task, b.terminalOnStep[activity], RACE_ACTOR, RACE_CAUSE, at)
        case None => (rest, false)
        case Some(moved) => (rest.(tasks := b.tasks[s.taskId := moved]), true)
  }

  // ---- Progress ------------------------------------------------------------

  /** How far along its lifecycle a status is; approval waits beside execution. */
  function Rank(s: TaskStatus): nat {
    match s
    case TaskCreated => 0
    case TaskPlanning => 1
    case TaskRouting => 2
    case TaskExecuting => 3
    case TaskWaitingApproval => 3
    case TaskValidating => 4
    case TaskUnknown(_) => 0
    case _ => 5
  }

  /** Every edge of the lifecycle climbs, but for the two between execution and approval. */
  lemma EdgesClimb(from: TaskStatus, to: TaskStatus)
    requires CanTransition(from, to)
    ensures Rank(from) <= Rank(to)
    ensures Rank(from) == Rank(to) ==> from.TaskWaitingApproval? || to.TaskWaitingApproval?
  {
  }

  /** Faults still to be injected. */
  function Injections(b: Backend): nat {
    |b.terminalOnStep| + |b.staleOnce|
  }

  function Remaining(b: Backend, id: string): nat {
    if id in b.tasks then 5 - Rank(b.tasks[id].status) else 0
  }

  /** The statuses that the workflow drives a task to. */
  predicate Target(s: TaskStatus) {
    s.TaskPlanning? || s.TaskRouting? || s.TaskExecuting? || s.TaskValidating? || s.TaskCompleted?
  }

  /** An operation under this task's key for the status is on record as done. */
  predicate Recorded(b: Backend, id: string, to: TaskStatus) {
    OperationKey(id, to) in b.operations && b.operations[OperationKey(id, to)].to == to
  }

  /** Whatever is on record under the task's own keys, the task has passed. */
  ghost predicate Own(b: Backend, id: string) {
    id in b.tasks ==> forall to | Target(to) && Recorded(b, id, to) :: Rank(to) <= Rank(b.tasks[id].status)
  }

  /** Nothing goes backwards: no task is lost, none loses rank, and no fault is added. */
  ghost predicate Forward(a: Backend, b: Backend) {
    && a.tasks.Keys == b.tasks.Keys
    && (forall id | id in a.tasks :: id in b.tasks && Rank(a.tasks[id].status) <= Rank(b.tasks[id].status))
    && Injections(b) <= Injections(a)
  }

  lemma ForwardTransitive(a: Backend, b: Backend, c: Backend)
    requires Forward(a, b) && Forward(b, c)
    ensures Forward(a, c)
  {
  }

  lemma RemovedShrinks(m: map<string, TaskStatus>, k: string)
    ensures |m - {k}| <= |m|
    ensures k in m ==> |m - {k}| < |m|
  {
    assert (m - {k}).Keys == m.Keys - {k};
    if k in m { assert m.Keys == (m.Keys - {k}) + {k}; } else { assert m.Keys - {k} == m.Keys; }
  }

  lemma MovedClimbs(t: Task, to: TaskStatus, actor: string, cause: string, at: Time)
    ensures var m := Moved(t, to, actor, cause, at);
            m.Some? ==> CanTransition(t.status, to) && m.value.id == t.id && m.value.status == to && Rank(t.status) <= Rank(to)
  {
    hide Blank;
    if CanTransition(t.status, to) { EdgesClimb(t.status, to); }
  }

  lemma ForwardKeepsOwn(a: Backend, b: Backend, id: string)
    requires Own(a, id) && Forward(a, b) && b.operations == a.operations
    ensures Own(b, id)
  {
    hide OperationKey, Rank, Target;
    forall to | id in b.tasks && Target(to) && Recorded(b, id, to) ensures Rank(to) <= Rank(b.tasks[id].status) {
      assert Recorded(a, id, to);
    }
  }

  /** An injected race moved the task up. */
  ghost predicate Raced(b: Backend, b': Backend, id: string) {
    && id in b.tasks && id in b'.tasks && b'.tasks == b.tasks[id := b'.tasks[id]]
    && Rank(b.tasks[id].status) <= Rank(b'.tasks[id].status)
  }

  /** The ways a step can change the backend. */
  lemma StepCases(b: Backend, activity: string, s: Scope, at: Time)
    ensures var b' := Stepped(b, activity, s, at).0;
            && b'.staleOnce == b.staleOnce
            && (|| (b'.tasks == b.tasks && b'.terminalOnStep == b.terminalOnStep)
                || (&& activity in b.terminalOnStep && b'.terminalOnStep == b.terminalOnStep - {activity}
                    && (b'.tasks == b.tasks || Raced(b, b', s.taskId))))
  {
    hide Rank, Moved;
    if InScope(b.tasks, s) && activity in b.terminalOnStep {
      MovedClimbs(b.tasks[s.taskId], b.terminalOnStep[activity], RACE_ACTOR, RACE_CAUSE, at);
    }
  }

  /** A step either leaves the task alone, or an injected race moved it and is used up. */
  lemma StepForward(b: Backend, activity: string, s: Scope, at: Time)
    ensures var b' := Stepped(b, activity, s, at).0;
            Forward(b, b') && (b'.tasks == b.tasks || Injections(b') < Injections(b))
  {
    hide Rank, Stepped;
    StepCases(b, activity, s, at);
    RemovedShrinks(b.terminalOnStep, activity);
  }

  ghost predicate Honest(i: TransitionInput) {
    i.key == OperationKey(i.scope.taskId, i.to)
  }

  /** The three ways a transition can change the backend. */
  lemma TransitionCases(b: Backend, i: TransitionInput, at: Time)
    ensures var b' := Transitioned(b, i, at).0;
            || b' == b
            || b' == b.(staleOnce := b.staleOnce - {i.key})
            || Advanced(b, i, b')
  {
    hide Blank, Rank;
    if InScope(b.tasks, i.scope) {
      MovedClimbs(b.tasks[i.scope.taskId], i.to, WORKFLOW_ACTOR, i.cause, at);
    }
  }

  /** The task took the step and the operation is on record. */
  ghost predicate Advanced(b: Backend, i: TransitionInput, b': Backend) {
    && i.scope.taskId in b.tasks && i.scope.taskId in b'.tasks
    && b'.tasks == b.tasks[i.scope.taskId := b'.tasks[i.scope.taskId]]
    && b'.tasks[i.scope.taskId].status == i.to && Rank(b.tasks[i.scope.taskId].status) <= Rank(i.to)
    && i.key in b'.operations && b'.operations[i.key].to == i.to
    && b'.operations == b.operations[i.key := b'.operations[i.key]]
    && b'.terminalOnStep == b.terminalOnStep && b'.staleOnce == b.staleOnce
  }

  lemma TransitionForward(b: Backend, i: TransitionInput, at: Time)
    ensures Forward(b, Transitioned(b, i, at).0)
  {
    hide Transitioned, Rank;
    TransitionCases(b, i, at);
  }

  /** A transition under its own key keeps the records of its task, and of every task whose id differs once trimmed. */
  lemma TransitionKeepsOwn(b: Backend, i: TransitionInput, at: Time, id: string)
    requires Own(b, id) && Honest(i) && (id == i.scope.taskId || Trim(id) != Trim(i.scope.taskId))
    ensures Own(Transitioned(b, i, at).0, id)
  {
    hide Transitioned, Trim, Rank, Target, KeySuffix;
    var b' := Transitioned(b, i, at).0;
    TransitionCases(b, i, at);
    forall to | id in b'.tasks && Target(to) && Recorded(b', id, to) ensures Rank(to) <= Rank(b'.tasks[id].status) {
      if OperationKey(id, to) == i.key && Advanced(b, i, b') {
        KeyDeterminesId(id, i.scope.taskId, to);
      } else {
        assert Recorded(b, id, to);
      }
    }
  }

  /** From a status just below its target, a transition climbs, uses up a fault, or fails. */
  lemma TransitionProgress(b: Backend, i: TransitionInput, at: Time)
    requires Own(b, i.scope.taskId) && Honest(i) && Target(i.to) && InScope(b.tasks, i.scope)
    requires CanTransition(b.tasks[i.scope.taskId].status, i.to) && Rank(i.to) > Rank(b.tasks[i.scope.taskId].status)
    requires b.tasks[i.scope.taskId].version == i.expectedVersion
    ensures var (b', r) := Transitioned(b, i, at);
            || (r.Err? && r.error.Failure?)
            || Rank(b'.tasks[i.scope.taskId].status) > Rank(b.tasks[i.scope.taskId].status)
            || Injections(b') < Injections(b)
  {
    assert !Recorded(b, i.scope.taskId, i.to);
  }

  /** A transition that reports its target has the task at or past it. */
  lemma ReportedIsPassed(b: Backend, i: TransitionInput, at: Time)
    requires Own(b, i.scope.taskId) && Honest(i) && Target(i.to)
    ensures var (b', r) := Transitioned(b, i, at);
            r.Ok? && r.value.status == i.to ==>
              i.scope.taskId in b'.tasks && Rank(i.to) <= Rank(b'.tasks[i.scope.taskId].status)
  {
    if InScope(b.tasks, i.scope) && i.key in b.operations && b.operations[i.key].to == i.to {
      assert Recorded(b, i.scope.taskId, i.to);
    }
  }

  /** With no fault in its way, a legal transition climbs if and only if its key is not yet on record. */
  lemma ClimbsIff(b: Backend, i: TransitionInput, at: Time)
    requires InScope(b.tasks, i.scope) && !Blank(i.key) && i.key !in b.staleOnce
    requires !IsTerminal(b.tasks[i.scope.taskId].status) && b.tasks[i.scope.taskId].version == i.expectedVersion
    requires Moved(b.tasks[i.scope.taskId], i.to, WORKFLOW_ACTOR, i.cause, at).Some?
    requires Rank(b.tasks[i.scope.taskId].status) < Rank(i.to)
    ensures var b' := Transitioned(b, i, at).0;
            Rank(b'.tasks[i.scope.taskId].status) > Rank(b.tasks[i.scope.taskId].status) <==> i.key !in b.operations
  {
  }

  /**
   What callers of TransitionTask rely on: nothing goes backwards; under its own key the task's records
   stay truthful, and so do those of every task whose id differs once trimmed; a reported target is
   passed; and a stale version means an injected fault, now used up, or a version that has moved on.
   */
  ghost predicate SoundTransition(b: Backend, i: TransitionInput, b': Backend, r: Result<TaskSnapshot, LifecycleError>) {
    && Forward(b, b')
    && (Honest(i) ==> KeepsOwn(b, b', i.scope.taskId))
    && (Honest(i) && Target(i.to) && Own(b, i.scope.taskId) && r.Ok? && r.value.status == i.to ==>
          i.scope.taskId in b'.tasks && Rank(i.to) <= Rank(b'.tasks[i.scope.taskId].status))
    && (r == Err(StaleVersion) ==>
          && b'.tasks == b.tasks && b'.operations == b.operations && i.scope.taskId in b.tasks
          && (i.key in b.staleOnce || b.tasks[i.scope.taskId].version != i.expectedVersion)
          && i.key !in b'.staleOnce)
  }

  ghost predicate KeepsOwn(b: Backend, b': Backend, id: string) {
    forall y | Own(b, y) && (y == id || Trim(y) != Trim(id)) :: Own(b', y)
  }

  lemma TransitionIsSound(b: Backend, i: TransitionInput, at: Time)
    ensures SoundTransition(b, i, Transitioned(b, i, at).0, Transitioned(b, i, at).1)
  {
    TransitionForward(b, i, at);
    if Honest(i) {
      forall y | Own(b, y) && (y == i.scope.taskId || Trim(y) != Trim(i.scope.taskId)) ensures Own(Transitioned(b, i, at).0, y) {
        TransitionKeepsOwn(b, i, at, y);
      }
      if Own(b, i.scope.taskId) && Target(i.to) { ReportedIsPassed(b, i, at); }
    }
    hide Forward, Own, Honest, Rank, Target, Moved, Blank;
  }

  /** What callers of a step rely on: the task is left alone, or an injected race moved it up and is used up. */
  ghost predicate SoundStep(b: Backend, b': Backend) {
    && Forward(b, b') && b'.operations == b.operations && b'.staleOnce == b.staleOnce
    && (b'.tasks == b.tasks || Injections(b') < Injections(b))
    && (forall y | Own(b, y) :: Own(b', y))
  }

  lemma StepIsSound(b: Backend, activity: string, s: Scope, at: Time)
    ensures SoundStep(b, Stepped(b, activity, s, at).0)
  {
    StepForward(b, activity, s, at);
    forall y | Own(b, y) ensures Own(Stepped(b, activity, s, at).0, y) {
      ForwardKeepsOwn(b, Stepped(b, activity, s, at).0, y);
    }
    hide Forward, Own, Moved;
  }

  function ById(tasks: seq<Task>): (r: map<string, Task>)
    ensures forall id | id in r :: r[id].id == id
  {
    if tasks == [] then map[] else ById(tasks[..|tasks| - 1])[tasks[|tasks| - 1].id := tasks[|tasks| - 1]]
  }

  /** Reading a Go map of counters. */
  function Count(calls: map<string, nat>, activity: string): nat {
    if activity in calls then calls[activity] else 0
  }

  class MemoryLifecycleActivities {
    var tasks: map<string, Task>
    var operations: map<string, TransitionRecord>
    var stepCalls: map<string, nat>
    var stepFailures: map<string, int>
    var terminalOnStep: map<string, TaskStatus>
    var staleOnce: set<string>

    function State(): Backend
      reads this
    {
      Backend(tasks, operations, stepFailures, terminalOnStep, staleOnce)
    }

    constructor (initial: seq<Task>, failures: map<string, int>, races: map<string, TaskStatus>, stale: set<string>)
      ensures State() == Backend(ById(initial), map[], failures, races, stale) && stepCalls == map[]
    {
      tasks, operations, stepCalls := ById(initial), map[], map[];
      stepFailures, terminalOnStep, staleOnce := failures, races, stale;
    }

    method LoadTask(s: Scope) returns (r: Result<TaskSnapshot, LifecycleError>)
      ensures r == if InScope(tasks, s) then Ok(SnapshotOf(tasks[s.taskId])) else Err(Failure)
    {
      if !InScope(tasks, s) { return Err(Failure); }
      return Ok(SnapshotOf(tasks[s.taskId]));
    }

    method TransitionTask(i: TransitionInput, at: Time) returns (r: Result<TaskSnapshot, LifecycleError>)
      modifies this`tasks, this`operations, this`staleOnce
      ensures (State(), r) == Transitioned(old(State()), i, at)
      ensures SoundTransition(old(State()), i, State(), r)
    {
      TransitionIsSound(State(), i, at);
      hide Blank, SoundTransition;
      if Blank(i.key) { return Err(Failure); }
      if !InScope(tasks, i.scope) { return Err(Failure); }
      if i.key in operations {
        if operations[i.key].to != i.to { return Err(Failure); }
        return Ok(operations[i.key].snapshot);
      }
      var task := tasks[i.scope.taskId];
      if IsTerminal(task.status) { return Ok(SnapshotOf(task)); }
      if i.key in staleOnce {
        staleOnce := staleOnce - {i.key};
        return Err(StaleVersion);
      }
      if task.version != i.expectedVersion { return Err(StaleVersion); }
      var moved := Move(task, TransitionCommand(i.to, WORKFLOW_ACTOR, i.cause, at));
      if moved.Err? { return Err(Failure); }
      task := moved.value.0.(version := task.version + 1);
      tasks := tasks[i.scope.taskId := task];
      operations := operations[i.key := TransitionRecord(i.to, SnapshotOf(task))];
      return Ok(SnapshotOf(task));
    }

    method RunStep(activity: string, s: Scope, at: Time) returns (ok: bool)
      modifies this`tasks, this`stepCalls, this`stepFailures, this`terminalOnStep
      ensures (State(), ok) == Stepped(old(State()), activity, s, at)
      ensures SoundStep(old(State()), State())
      ensures stepCalls == if InScope(old(tasks), s) then old(stepCalls)[activity := Count(old(stepCalls), activity) + 1] else old(stepCalls)
    {
      StepIsSound(State(), activity, s, at);
      hide SoundStep;
      if !InScope(tasks, s) { return false; }
      stepCalls := stepCalls[activity := Count(stepCalls, activity) + 1];
      if activity in stepFailures && stepFailures[activity] > 0 {
        stepFailures := stepFailures[activity := stepFailures[activity] - 1];
        return false;
      }
      if activity in terminalOnStep {
        var status := terminalOnStep[activity];
        terminalOnStep := terminalOnStep - {activity};
        var task := tasks[s.taskId];
        if !IsTerminal(task.status) {
          var moved := Move(task, TransitionCommand(status, RACE_ACTOR, RACE_CAUSE, at));
          if moved.Err? { return false; }
          tasks := tasks[s.taskId := moved.value.0.(version := task.version + 1)];
        }
      }
      return true;
    }
  }
}
