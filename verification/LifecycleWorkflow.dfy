/** TaskLifecycleWorkflow: drive a task to a terminal status, one activity and one transition at a time. */
module LifecycleWorkflow {
  import opened Common
  import opened Tasks
  import opened Lifecycle
  import opened LifecycleTurns

  datatype StepName = Activity(name: string) | Entered(status: TaskStatus)

  datatype WorkflowInput = WorkflowInput(schemaVersion: int, scope: Scope)

  datatype WorkflowError = InvalidInput | ActivityFailed | ApprovalNotImplemented | UnsupportedStatus

  datatype WorkflowResult = WorkflowResult(observed: Option<TaskStatus>, alreadyTerminal: bool, steps: seq<StepName>)

  const SCHEMA_VERSION := 1

  predicate ValidInput(i: WorkflowInput) {
    && i.schemaVersion == SCHEMA_VERSION
    && !Blank(i.scope.tenantId) && !Blank(i.scope.projectId) && !Blank(i.scope.taskId) && !Blank(i.scope.traceId)
  }

  // ---- Evidence ------------------------------------------------------------

  /** The statuses entered climb strictly, up to the given rank: none can appear twice. */
  ghost predicate Climbing(steps: seq<StepName>, rank: int) {
    && (forall i | 0 <= i < |steps| && steps[i].Entered? :: Rank(steps[i].status) <= rank)
    && (forall i, j | 0 <= i < j < |steps| && steps[i].Entered? && steps[j].Entered? ::
          Rank(steps[i].status) < Rank(steps[j].status))
  }

  lemma ClimbingHigher(steps: seq<StepName>, low: int, high: int)
    requires Climbing(steps, low) && low <= high
    ensures Climbing(steps, high)
  {
  }

  lemma DidActivity(steps: seq<StepName>, rank: int, name: string)
    requires Climbing(steps, rank)
    ensures Climbing(steps + [Activity(name)], rank)
  {
  }

  lemma EnteredStatus(steps: seq<StepName>, rank: int, to: TaskStatus)
    requires Climbing(steps, rank) && rank < Rank(to)
    ensures Climbing(steps + [Entered(to)], Rank(to))
  {
  }

  lemma ReachedOrNot(steps: seq<StepName>, low: int, reached: bool, to: TaskStatus, high: int)
    requires Climbing(steps, low) && low < Rank(to) && low <= high && (reached ==> Rank(to) <= high)
    ensures Climbing(if reached then steps + [Entered(to)] else steps, high)
  {
    hide Climbing;
    if reached {
      EnteredStatus(steps, low, to);
      ClimbingHigher(steps + [Entered(to)], Rank(to), high);
    } else {
      ClimbingHigher(steps, low, high);
    }
  }

  /** No status is entered twice. */
  ghost predicate EnteredOnce(steps: seq<StepName>) {
    forall i, j | 0 <= i < j < |steps| && steps[i].Entered? :: steps[i] != steps[j]
  }

  lemma ClimbedOnce(steps: seq<StepName>, rank: int)
    requires Climbing(steps, rank)
    ensures EnteredOnce(steps)
  {
  }

  /** The work that must come right before a status is entered. */
  function WorkBefore(to: TaskStatus): Option<(string, string)> {
    match to
    case TaskRouting => Some(("plan", "aicloud.task.plan.stub.v1"))
    case TaskExecuting => Some(("route", "aicloud.task.route.stub.v1"))
    case TaskValidating => Some(("execute", "aicloud.task.execute.stub.v1"))
    case TaskCompleted => Some(("validate", "aicloud.task.validate.stub.v1"))
    case _ => None
  }

  /** The activity behind a step was called between the two counts. */
  ghost predicate Called(name: string, before: map<string, nat>, now: map<string, nat>) {
    forall to | WorkBefore(to).Some? && WorkBefore(to).value.0 == name ::
      Count(now, WorkBefore(to).value.1) > Count(before, WorkBefore(to).value.1)
  }

  /** Each status is entered right after its work, and each piece of work is a call of its activity. */
  ghost predicate Honoured(steps: seq<StepName>, before: map<string, nat>, now: map<string, nat>) {
    && (forall i | 0 <= i < |steps| && steps[i].Entered? && WorkBefore(steps[i].status).Some? ::
          i > 0 && steps[i - 1] == Activity(WorkBefore(steps[i].status).value.0))
    && (forall i | 0 <= i < |steps| && steps[i].Activity? :: Called(steps[i].name, before, now))
    && (forall i | 0 <= i < |steps| && steps[i].Entered? :: Target(steps[i].status))
  }

  /** No counter goes back. */
  ghost predicate Counting(a: map<string, nat>, b: map<string, nat>) {
    forall activity :: Count(a, activity) <= Count(b, activity)
  }

  lemma CountingOn(a: map<string, nat>, b: map<string, nat>, c: map<string, nat>)
    requires Counting(a, b) && Counting(b, c)
    ensures Counting(a, c)
  {
    hide Count;
  }

  lemma CalledLater(name: string, before: map<string, nat>, now: map<string, nat>, later: map<string, nat>)
    requires Called(name, before, now) && Counting(now, later)
    ensures Called(name, before, later)
  {
    hide Count, WorkBefore;
    forall to | WorkBefore(to).Some? && WorkBefore(to).value.0 == name
      ensures Count(later, WorkBefore(to).value.1) > Count(before, WorkBefore(to).value.1)
    {
      assert Count(now, WorkBefore(to).value.1) <= Count(later, WorkBefore(to).value.1);
    }
  }

  lemma HonouredLater(steps: seq<StepName>, before: map<string, nat>, now: map<string, nat>, later: map<string, nat>)
    requires Honoured(steps, before, now) && Counting(now, later)
    ensures Honoured(steps, before, later)
  {
    hide Called, Counting, WorkBefore, Target;
    forall i | 0 <= i < |steps| && steps[i].Activity? ensures Called(steps[i].name, before, later) {
      CalledLater(steps[i].name, before, now, later);
    }
  }

  /** The stage's activity and name are those of the status it leads to. */
  lemma StageWork(status: TaskStatus)
    ensures var stage := StageOf(status);
            && (stage.Work? ==> WorkBefore(stage.to) == Some((stage.name, stage.activity)))
            && (stage.Enter? ==> WorkBefore(stage.to).None?)
            && (!stage.NoStage? ==> Target(stage.to))
  {
  }

  lemma StageCalled(status: TaskStatus, before: map<string, nat>, now: map<string, nat>)
    requires StageOf(status).Work? && Count(now, StageOf(status).activity) > Count(before, StageOf(status).activity)
    ensures Called(StageOf(status).name, before, now)
  {
  }

  lemma HonouredWork(steps: seq<StepName>, name: string, before: map<string, nat>, now: map<string, nat>)
    requires Honoured(steps, before, now) && Called(name, before, now)
    ensures Honoured(steps + [Activity(name)], before, now)
  {
    hide Called, WorkBefore, Target;
  }

  lemma HonouredEntry(steps: seq<StepName>, to: TaskStatus, before: map<string, nat>, now: map<string, nat>)
    requires Honoured(steps, before, now) && Target(to)
    requires WorkBefore(to).Some? ==> steps != [] && steps[|steps| - 1] == Activity(WorkBefore(to).value.0)
    ensures Honoured(steps + [Entered(to)], before, now)
  {
    hide Called, WorkBefore, Target;
  }

  // ---- Progress ------------------------------------------------------------

  /** The task is in the backend, no lower than the rank given. */
  ghost predicate AtLeast(b: Backend, id: string, rank: int) {
    id in b.tasks && rank <= Rank(b.tasks[id].status)
  }

  ghost predicate Shorter(a: Backend, b: Backend, id: string) {
    Remaining(b, id) < Remaining(a, id) || (Remaining(b, id) == Remaining(a, id) && Injections(b) < Injections(a))
  }

  lemma FewerIsShorter(a: Backend, b: Backend, c: Backend, id: string)
    requires id in a.tasks && Forward(a, b) && Forward(b, c)
    requires Injections(b) < Injections(a)
    ensures Shorter(a, c, id)
  {
  }

  /** The backend still shows the snapshot, and the target is the edge above it. */
  ghost predicate Fresh(b: Backend, s: Scope, snapshot: TaskSnapshot, to: TaskStatus) {
    && InScope(b.tasks, s) && snapshot == SnapshotOf(b.tasks[s.taskId])
    && CanTransition(snapshot.status, to) && Rank(snapshot.status) < Rank(to) && Target(to)
  }

  lemma {:induction false} StubIsSound(b: Backend, activity: string, s: Scope, at: Time, attempts: nat)
    ensures SoundStep(b, Stub(b, activity, s, at, attempts).0)
    decreases attempts
  {
    hide Stepped;
    if attempts == 0 {
      assert Forward(b, b);
    } else {
      var (b', ok) := Stepped(b, activity, s, at);
      StepIsSound(b, activity, s, at);
      if !ok {
        StubIsSound(b', activity, s, at, attempts - 1);
        SoundChain(b, b', Stub(b', activity, s, at, attempts - 1).0);
      }
    }
  }

  lemma SoundChain(a: Backend, b: Backend, c: Backend)
    requires SoundStep(a, b) && SoundStep(b, c)
    ensures SoundStep(a, c)
  {
    hide Own;
    ForwardTransitive(a, b, c);
    hide Forward;
    forall y | Own(a, y) ensures Own(c, y) {
      assert Own(b, y);
    }
  }

  /** Later turns keep the records of every task whose id differs once trimmed. */
  lemma KeepsOwnChain(a: Backend, b: Backend, c: Backend, id: string)
    requires KeepsOwn(a, b, id) && KeepsOwn(b, c, id)
    ensures KeepsOwn(a, c, id)
  {
    hide Own, Trim;
    forall y | Own(a, y) && (y == id || Trim(y) != Trim(id)) ensures Own(c, y) {
      assert Own(b, y);
    }
  }

  lemma StandsSound(b: Backend)
    ensures SoundStep(b, b)
  {
    assert Forward(b, b);
  }

  lemma OwnKept(a: Backend, b: Backend, id: string)
    requires Own(a, id) && (SoundStep(a, b) || KeepsOwn(a, b, id))
    ensures Own(b, id)
  {
  }

  lemma StepKeepsOwns(a: Backend, b: Backend, id: string)
    requires SoundStep(a, b)
    ensures KeepsOwn(a, b, id)
  {
  }

  lemma StepClimbs(a: Backend, b: Backend, id: string)
    requires SoundStep(a, b) && id in a.tasks
    ensures AtLeast(b, id, Rank(a.tasks[id].status)) && (b.tasks != a.tasks ==> Injections(b) < Injections(a))
  {
  }

  /** Work and transition together: no rank is lost, and if the transition got anywhere less remains. */
  lemma TurnShortens(a: Backend, b: Backend, c: Backend, id: string)
    requires SoundStep(a, b) && Forward(b, c) && id in a.tasks
    ensures AtLeast(c, id, Rank(a.tasks[id].status))
    ensures b.tasks != a.tasks || Shorter(b, c, id) ==> Shorter(a, c, id)
  {
    hide Rank, Own;
    if b.tasks != a.tasks { FewerIsShorter(a, b, c, id); }
  }

  /** The pieces of a turn whose work failed ... */
  lemma TurnFails(b: Backend, worked: Backend, s: Scope, at: Time, stage: Stage)
    requires InScope(b.tasks, s) && stage == StageOf(b.tasks[s.taskId].status) && !stage.NoStage?
    requires Worked(b, s, stage, at) == (worked, false)
    ensures Turn(b, s, at) == (worked, false)
  {
  }

  /** ... and of one that got to its transition. */
  lemma TurnGoes(b: Backend, worked: Backend, s: Scope, at: Time, stage: Stage, b': Backend, r: Result<TaskSnapshot, LifecycleError>)
    requires InScope(b.tasks, s) && stage == StageOf(b.tasks[s.taskId].status) && !stage.NoStage?
    requires Worked(b, s, stage, at) == (worked, true)
    requires Transitioned(worked, InputFor(s, b.tasks[s.taskId].version, stage.to), at) == (b', r)
    ensures r.Ok? ==> Turn(b, s, at) == (b', !(r.value.status == stage.to && stage.to.TaskCompleted?))
    ensures r.Err? ==> Turn(b, s, at) == (b', r.error.StaleVersion? && InScope(b'.tasks, s))
  {
  }

  /** The work for the status is the last thing done. */
  ghost predicate WorkDone(steps: seq<StepName>, to: TaskStatus) {
    WorkBefore(to).Some? ==> steps != [] && steps[|steps| - 1] == Activity(WorkBefore(to).value.0)
  }

  lemma CountedAfter(a: map<string, nat>, b: map<string, nat>, c: map<string, nat>, activity: string)
    requires Counting(a, b) && Count(c, activity) > Count(b, activity)
    ensures Count(c, activity) > Count(a, activity)
  {
    hide Count;
  }

  lemma EntryHonoured(steps: seq<StepName>, status: TaskStatus, before: map<string, nat>, now: map<string, nat>)
    requires !StageOf(status).NoStage? && Honoured(steps, before, now) && WorkDone(steps, StageOf(status).to)
    ensures Honoured(steps + [Entered(StageOf(status).to)], before, now)
  {
    StageWork(status);
    hide StageOf, Honoured, WorkBefore;
    HonouredEntry(steps, StageOf(status).to, before, now);
  }

  lemma FreeAt(b: Backend, s: Scope, at: Time, snapshot: TaskSnapshot, stage: Stage)
    requires stage == StageOf(snapshot.status) && !stage.NoStage? && Fresh(b, s, snapshot, stage.to)
    requires Ready(b, s, at) && Own(b, s.taskId)
    ensures Worked(b, s, stage, at) == (b, true)
    ensures var r := Transitioned(b, InputFor(s, snapshot.version, stage.to), at).1; r.Ok? && r.value.status == stage.to
  {
    FreeTransition(b, s, at);
    hide Worked, Transitioned, InputFor;
  }

  /** What the loop keeps for a task that nothing stands in the way of: it is ready to go on, or it arrived. */
  ghost predicate GetsThrough(b: Backend, s: Scope, at: Time, done: bool, e: Option<WorkflowError>) {
    if done then e.None? else Ready(b, s, at)
  }

  lemma ReadyGoesOn(b: Backend, b': Backend, s: Scope, at: Time, done: bool)
    requires Ready(b, s, at) && Own(b, s.taskId) && (b', !done) == Turn(b, s, at)
    ensures done <==> StageOf(b.tasks[s.taskId].status).to.TaskCompleted?
    ensures !done ==> Ready(b', s, at)
  {
    ReadyTurn(b, s, at);
    hide Turn, Own;
  }

  /** Each error says what was found. */
  ghost predicate Tells(b: Backend, s: Scope, e: WorkflowError) {
    match e
    case ApprovalNotImplemented => InScope(b.tasks, s) && b.tasks[s.taskId].status.TaskWaitingApproval?
    case UnsupportedStatus => InScope(b.tasks, s) && b.tasks[s.taskId].status.TaskUnknown?
    case InvalidInput => false
    case ActivityFailed => true
  }

  lemma ProgressShortens(b: Backend, i: TransitionInput, at: Time)
    requires Own(b, i.scope.taskId) && Honest(i) && Target(i.to) && InScope(b.tasks, i.scope)
    requires CanTransition(b.tasks[i.scope.taskId].status, i.to) && Rank(i.to) > Rank(b.tasks[i.scope.taskId].status)
    requires b.tasks[i.scope.taskId].version == i.expectedVersion
    ensures var (b', r) := Transitioned(b, i, at); (r.Err? && r.error.Failure?) || Shorter(b, b', i.scope.taskId)
  {
    TransitionProgress(b, i, at);
    TransitionForward(b, i, at);
    hide Own, Transitioned, Rank;
  }

  lemma StepsOutside(b: Backend, activity: string, s: Scope, at: Time)
    requires !InScope(b.tasks, s)
    ensures Stepped(b, activity, s, at) == (b, false)
  {
  }

  class TaskLifecycle {
    const activities: MemoryLifecycleActivities

    constructor (a: MemoryLifecycleActivities)
      ensures activities == a
    {
      activities := a;
    }

    /** One stub activity under the retry policy: at most three attempts. */
    method ExecuteStub(activity: string, s: Scope, at: Time) returns (ok: bool)
      modifies activities
      ensures (activities.State(), ok) == Stub(old(activities.State()), activity, s, at, MAXIMUM_ATTEMPTS)
      ensures SoundStep(old(activities.State()), activities.State())
      ensures Counting(old(activities.stepCalls), activities.stepCalls)
      ensures ok ==> Count(activities.stepCalls, activity) > Count(old(activities.stepCalls), activity)
      ensures Count(activities.stepCalls, activity) <= Count(old(activities.stepCalls), activity) + 3
    {
      StubIsSound(activities.State(), activity, s, at, MAXIMUM_ATTEMPTS);
      hide SoundStep, Stepped;
      ok := false;
      var attempt := 0;
      while attempt < MAXIMUM_ATTEMPTS && !ok
        invariant 0 <= attempt <= MAXIMUM_ATTEMPTS && Counting(old(activities.stepCalls), activities.stepCalls)
        invariant Count(activities.stepCalls, activity) <= Count(old(activities.stepCalls), activity) + attempt
        invariant ok ==> Count(activities.stepCalls, activity) > Count(old(activities.stepCalls), activity)
        invariant Stub(old(activities.State()), activity, s, at, MAXIMUM_ATTEMPTS)
                  == if ok then (activities.State(), true)
                     else Stub(activities.State(), activity, s, at, MAXIMUM_ATTEMPTS - attempt)
      {
        if !InScope(activities.tasks, s) { StepsOutside(activities.State(), activity, s, at); }
        ok := activities.RunStep(activity, s, at);
        attempt := attempt + 1;
      }
    }

    /** transitionTask: a stale version reloads the task instead of failing; applied says which it was. */
    method TransitionTask(s: Scope, snapshot: TaskSnapshot, to: TaskStatus, at: Time)
      returns (next: Option<TaskSnapshot>, applied: bool)
      requires Own(activities.State(), s.taskId) && Target(to)
      modifies activities
      ensures Forward(old(activities.State()), activities.State()) && KeepsOwn(old(activities.State()), activities.State(), s.taskId)
      ensures var (b, r) := Transitioned(old(activities.State()), InputFor(s, snapshot.version, to), at);
              && activities.State() == b && applied == r.Ok?
              && (r.Ok? ==> next == Some(r.value))
              && (r.Err? ==> (next.Some? <==> r.error.StaleVersion? && InScope(b.tasks, s)))
      ensures activities.stepCalls == old(activities.stepCalls)
      ensures applied && next.value.status == to ==> AtLeast(activities.State(), s.taskId, Rank(to))
      ensures next.Some? && Fresh(old(activities.State()), s, snapshot, to) ==>
                Shorter(old(activities.State()), activities.State(), s.taskId)
    {
      var i := InputFor(s, snapshot.version, to);
      ghost var b := activities.State();
      if Fresh(b, s, snapshot, to) { ProgressShortens(b, i, at); }
      hide Own, Transitioned, OperationKey, KeepsOwn, Fresh, Shorter, Rank, InScope, Forward;
      var r := activities.TransitionTask(i, at);
      if r.Ok? { return Some(r.value), true; }
      if r.error.StaleVersion? {
        var reloaded := activities.LoadTask(s);
        if reloaded.Ok? { return Some(reloaded.value), false; }
      }
      return None, false;
    }

    /** The stage's activity, if it has one. */
    method DoWork(s: Scope, snapshot: TaskSnapshot, stage: Stage, steps: seq<StepName>, at: Time, ghost calls: map<string, nat>)
      returns (ok: bool, climbed: seq<StepName>)
      requires Climbing(steps, Rank(snapshot.status)) && stage == StageOf(snapshot.status) && !stage.NoStage?
      requires Honoured(steps, calls, activities.stepCalls) && Counting(calls, activities.stepCalls)
      modifies activities
      ensures Honoured(climbed, calls, activities.stepCalls) && Counting(calls, activities.stepCalls)
      ensures ok ==> WorkDone(climbed, stage.to)
      ensures (activities.State(), ok) == Worked(old(activities.State()), s, stage, at)
      ensures SoundStep(old(activities.State()), activities.State())
      ensures Climbing(climbed, Rank(snapshot.status))
    {
      hide Climbing, Rank, SoundStep, Stub, StageOf, WorkBefore, Counting, Honoured, Called, Count;
      StandsSound(activities.State());
      StageWork(snapshot.status);
      if !stage.Work? { return true, steps; }
      ghost var before := activities.stepCalls;
      ok := ExecuteStub(stage.activity, s, at);
      HonouredLater(steps, calls, before, activities.stepCalls);
      CountingOn(calls, before, activities.stepCalls);
      if !ok { return false, steps; }
      DidActivity(steps, Rank(snapshot.status), stage.name);
      CountedAfter(calls, before, activities.stepCalls, stage.activity);
      StageCalled(snapshot.status, calls, activities.stepCalls);
      HonouredWork(steps, stage.name, calls, activities.stepCalls);
      climbed := steps + [Activity(stage.name)];
    }

    /** One turn of the loop from a status it works on: its activity, if any, then its transition. */
    method Advance(s: Scope, snapshot: TaskSnapshot, stage: Stage, steps: seq<StepName>, at: Time, ghost calls: map<string, nat>)
      returns (next: Option<TaskSnapshot>, reached: bool, climbed: seq<StepName>)
      requires Own(activities.State(), s.taskId) && stage == StageOf(snapshot.status) && !stage.NoStage?
      requires Fresh(activities.State(), s, snapshot, stage.to) && Climbing(steps, Rank(snapshot.status))
      requires Honoured(steps, calls, activities.stepCalls) && Counting(calls, activities.stepCalls)
      modifies activities
      ensures Honoured(climbed, calls, activities.stepCalls) && Counting(calls, activities.stepCalls)
      ensures KeepsOwn(old(activities.State()), activities.State(), s.taskId) && s.taskId in activities.tasks
      ensures (activities.State(), next.Some? && !(reached && stage.to.TaskCompleted?)) == Turn(old(activities.State()), s, at)
      ensures Climbing(climbed, Rank(activities.tasks[s.taskId].status))
      ensures next.Some? ==> Shorter(old(activities.State()), activities.State(), s.taskId)
      ensures reached ==> next.Some? && AtLeast(activities.State(), s.taskId, Rank(stage.to))
      ensures reached ==> climbed != [] && climbed[|climbed| - 1] == Entered(stage.to)
      ensures Ready(old(activities.State()), s, at) ==> next.Some? && reached
    {
      ghost var start := activities.State();
      hide Climbing, Rank, Own, Worked, Turn, StageOf, KeepsOwn, SoundStep, Shorter, Target, CanTransition, Honoured, Counting, WorkDone;
      hide Ready;
      if Ready(start, s, at) { FreeAt(start, s, at, snapshot, stage); }
      var ok;
      ok, climbed := DoWork(s, snapshot, stage, steps, at, calls);
      StepClimbs(start, activities.State(), s.taskId);
      OwnKept(start, activities.State(), s.taskId);
      StepKeepsOwns(start, activities.State(), s.taskId);
      if !ok {
        TurnFails(start, activities.State(), s, at, stage);
        ClimbingHigher(climbed, Rank(snapshot.status), Rank(activities.tasks[s.taskId].status));
        return None, false, climbed;
      }
      next, reached, climbed := Transit(s, snapshot, stage, climbed, at, start, calls);
    }

    /** The stage's transition, after its work. */
    method Transit(s: Scope, snapshot: TaskSnapshot, stage: Stage, steps: seq<StepName>, at: Time,
                   ghost start: Backend, ghost calls: map<string, nat>)
      returns (next: Option<TaskSnapshot>, reached: bool, climbed: seq<StepName>)
      requires Own(activities.State(), s.taskId) && stage == StageOf(snapshot.status) && !stage.NoStage?
      requires Fresh(start, s, snapshot, stage.to) && Climbing(steps, Rank(snapshot.status))
      requires Own(start, s.taskId) && SoundStep(start, activities.State()) && Worked(start, s, stage, at) == (activities.State(), true)
      requires Honoured(steps, calls, activities.stepCalls) && Counting(calls, activities.stepCalls) && WorkDone(steps, stage.to)
      modifies activities
      ensures Honoured(climbed, calls, activities.stepCalls) && Counting(calls, activities.stepCalls)
      ensures KeepsOwn(start, activities.State(), s.taskId) && s.taskId in activities.tasks
      ensures (activities.State(), next.Some? && !(reached && stage.to.TaskCompleted?)) == Turn(start, s, at)
      ensures Climbing(climbed, Rank(activities.tasks[s.taskId].status))
      ensures next.Some? ==> Shorter(start, activities.State(), s.taskId)
      ensures reached ==> next.Some? && AtLeast(activities.State(), s.taskId, Rank(stage.to))
      ensures reached ==> climbed != [] && climbed[|climbed| - 1] == Entered(stage.to)
      ensures Ready(start, s, at) ==> next.Some? && reached
    {
      hide Ready;
      if Ready(start, s, at) { FreeAt(start, s, at, snapshot, stage); }
      hide Climbing, Rank, Own, Worked, Transitioned, Turn, StageOf, InputFor, KeepsOwn, SoundStep, Forward, Shorter, Target, CanTransition,
           Honoured, Counting, WorkDone;
      ghost var middle := activities.State();
      ghost var t := Transitioned(middle, InputFor(s, snapshot.version, stage.to), at);
      TurnGoes(start, middle, s, at, stage, t.0, t.1);
      var applied;
      next, applied := TransitionTask(s, snapshot, stage.to, at);
      StepKeepsOwns(start, middle, s.taskId);
      KeepsOwnChain(start, middle, activities.State(), s.taskId);
      TurnShortens(start, middle, activities.State(), s.taskId);
      reached := applied && next.value.status == stage.to;
      ReachedOrNot(steps, Rank(snapshot.status), reached, stage.to, Rank(activities.tasks[s.taskId].status));
      EntryHonoured(steps, snapshot.status, calls, activities.stepCalls);
      climbed := if reached then steps + [Entered(stage.to)] else steps;
    }

    /** The body of the loop: load, look, and advance; done means the workflow returns. */
    method Iterate(s: Scope, sofar: WorkflowResult, at: Time, ghost calls: map<string, nat>)
      returns (done: bool, result: WorkflowResult, e: Option<WorkflowError>)
      requires Own(activities.State(), s.taskId) && !sofar.alreadyTerminal && Evidence(activities.State(), s.taskId, sofar.steps)
      requires Honoured(sofar.steps, calls, activities.stepCalls) && Counting(calls, activities.stepCalls)
      modifies activities
      ensures Honoured(result.steps, calls, activities.stepCalls) && Counting(calls, activities.stepCalls)
      ensures KeepsOwn(old(activities.State()), activities.State(), s.taskId)
      ensures (activities.State(), !done) == Turn(old(activities.State()), s, at)
      ensures Evidence(activities.State(), s.taskId, result.steps)
      ensures !done ==> Shorter(old(activities.State()), activities.State(), s.taskId) && !result.alreadyTerminal
      ensures done && e.None? ==> Arrived(activities.State(), s, result)
      ensures e.Some? ==> done && !e.value.InvalidInput? && Tells(activities.State(), s, e.value)
      ensures Ready(old(activities.State()), s, at) ==> GetsThrough(activities.State(), s, at, done, e)
    {
      ghost var start := activities.State();
      ReadyMeans(start, s, at);
      hide Ready;
      hide Own, Turn, Climbing, KeepsOwn, EnteredOnce, Rank, Shorter, Honoured, Counting;
      StandsSound(activities.State());
      StepKeepsOwns(activities.State(), activities.State(), s.taskId);
      StandsStill(activities.State(), s, at);
      done, result, e := true, sofar, None;
      var loaded := activities.LoadTask(s);
      if loaded.Err? { return true, result, Some(ActivityFailed); }
      var snapshot := loaded.value;
      result := result.(observed := Some(snapshot.status));
      if snapshot.terminal {
        result := result.(alreadyTerminal := true);
        return;
      }
      var stage := StageOf(snapshot.status);
      if stage.NoStage? {
        return true, result, Some(if snapshot.status.TaskWaitingApproval? then ApprovalNotImplemented else UnsupportedStatus);
      }
      var next, reached, steps := Advance(s, snapshot, stage, result.steps, at, calls);
      ClimbedOnce(steps, Rank(activities.tasks[s.taskId].status));
      if Ready(start, s, at) { ReadyGoesOn(start, activities.State(), s, at, !(next.Some? && !(reached && stage.to.TaskCompleted?))); }
      result := result.(steps := steps);
      if next.None? { return true, result, Some(ActivityFailed); }
      result := result.(observed := Some(next.value.status));
      if !(reached && stage.to.TaskCompleted?) { return false, result, None; }
      TopIsTerminal(activities.tasks[s.taskId].status);
      var final := activities.LoadTask(s);
      if final.Err? { return true, result, Some(ActivityFailed); }
      result := result.(observed := Some(final.value.status));
    }

    /**
     The loop ends for every starting status and every set of injected faults, provided no status still
     ahead is on record under the task's own keys. It returns without error only after observing the task
     in a terminal status, enters each status at most once, and leaves the records of every task whose id
     differs once trimmed as truthful as they were.
     */
    method Run(input: WorkflowInput, at: Time) returns (result: WorkflowResult, e: Option<WorkflowError>, ghost turns: nat)
      requires Own(activities.State(), input.scope.taskId)
      modifies activities
      ensures KeepsOwn(old(activities.State()), activities.State(), input.scope.taskId)
      ensures activities.State() == Turns(old(activities.State()), input.scope, at, turns)
      ensures ValidInput(input) ==> turns > 0 && !Turn(Turns(old(activities.State()), input.scope, at, turns - 1), input.scope, at).1
      ensures e.None? ==> ValidInput(input) && Arrived(activities.State(), input.scope, result)
      ensures e == Some(InvalidInput) <==> !ValidInput(input)
      ensures e.Some? && ValidInput(input) ==> Tells(activities.State(), input.scope, e.value)
      // a task that no fault stands in the way of gets through
      ensures ValidInput(input) && Ready(old(activities.State()), input.scope, at) ==> e.None?
      ensures EnteredOnce(result.steps) && Honoured(result.steps, old(activities.stepCalls), activities.stepCalls)
    {
      hide Own, Turn, Climbing, KeepsOwn, EnteredOnce, Arrived, Honoured, Counting, Ready, Tells;
      var s := input.scope;
      ghost var calls := activities.stepCalls;
      NothingCalled(calls);
      ghost var start := activities.State();
      StandsSound(start);
      StepKeepsOwns(start, start, s.taskId);
      NothingEntered(start, s.taskId);
      result, e, turns := WorkflowResult(None, false, []), None, 0;
      if !ValidInput(input) { return result, Some(InvalidInput), turns; }
      var done := false;
      while !done
        invariant KeepsOwn(start, activities.State(), s.taskId) && Own(activities.State(), s.taskId)
        invariant activities.State() == Turns(start, s, at, turns)
        invariant Evidence(activities.State(), s.taskId, result.steps)
        invariant Honoured(result.steps, calls, activities.stepCalls) && Counting(calls, activities.stepCalls)
        invariant !done ==> !result.alreadyTerminal
        invariant Ready(start, s, at) ==> GetsThrough(activities.State(), s, at, done, e)
        invariant e.Some? ==> done && Tells(activities.State(), s, e.value) && !e.value.InvalidInput?
        invariant done ==> turns > 0 && !Turn(Turns(start, s, at, turns - 1), s, at).1
        invariant done && e.None? ==> Arrived(activities.State(), s, result)
        decreases !done, Remaining(activities.State(), s.taskId), Injections(activities.State())
      {
        ghost var before := activities.State();
        done, result, e := Iterate(s, result, at, calls);
        turns := turns + 1;
        KeepsOwnChain(start, before, activities.State(), s.taskId);
        OwnKept(before, activities.State(), s.taskId);
      }
    }
  }

  /** The workflow may return without error: the backend shows the observed status, and it is terminal. */
  ghost predicate Arrived(b: Backend, s: Scope, result: WorkflowResult) {
    && InScope(b.tasks, s) && IsTerminal(b.tasks[s.taskId].status)
    && result.observed == Some(b.tasks[s.taskId].status)
    && (!result.alreadyTerminal ==> result.steps != [] && result.steps[|result.steps| - 1] == Entered(TaskCompleted))
  }

  /** What the steps claim so far. */
  ghost predicate Evidence(b: Backend, id: string, steps: seq<StepName>) {
    EnteredOnce(steps) && (id in b.tasks ==> Climbing(steps, Rank(b.tasks[id].status)))
  }

  lemma TopIsTerminal(s: TaskStatus)
    ensures Rank(TaskCompleted) <= Rank(s) ==> IsTerminal(s)
  {
  }

  lemma ReadyMeans(b: Backend, s: Scope, at: Time)
    ensures Ready(b, s, at) ==> InScope(b.tasks, s) && !StageOf(b.tasks[s.taskId].status).NoStage? && !IsTerminal(b.tasks[s.taskId].status)
  {
  }

  lemma NothingCalled(calls: map<string, nat>)
    ensures Honoured([], calls, calls) && Counting(calls, calls)
  {
  }

  lemma NothingEntered(b: Backend, id: string)
    ensures Evidence(b, id, [])
  {
  }

  /** Out of scope, or in a status the loop does not work on, a turn changes nothing and is the last. */
  lemma StandsStill(b: Backend, s: Scope, at: Time)
    ensures !InScope(b.tasks, s) || StageOf(b.tasks[s.taskId].status).NoStage? ==> Turn(b, s, at) == (b, false)
  {
  }
}
