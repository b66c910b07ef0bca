// One reconcile of a task against Substrate: which conditions and which phase it
// leaves behind, for every outcome of every call it makes.
module Reconciler {
  import opened Api

  const READY := "Ready"
  const WORKSPACE_READY := "WorkspaceReady"
  const GATEWAY_READY := "GatewayReady"

  // What the outside world answers during one reconcile; None means the call succeeded.
  // `checks` are the readiness probes made before the poll times out.
  datatype World = World(atespace: Option<string>, model: Option<string>, actor: Option<string>,
                         policy: Option<string>, suspended: Option<string>, resumed: Option<string>,
                         workerIp: string, checks: seq<bool>, freshId: string, now: int, later: int)

  // The position of the first condition of a kind, or the length when there is none.
  function Position(conds: seq<Condition>, kind: string): (i: nat)
    ensures i <= |conds| && (i < |conds| ==> conds[i].kind == kind)
    ensures forall j :: 0 <= j < i ==> conds[j].kind != kind
  {
    if conds == [] || conds[0].kind == kind then 0 else 1 + Position(conds[1..], kind)
  }

  predicate IsTrue(conds: seq<Condition>, kind: string) {
    var i := Position(conds, kind);
    i < |conds| && conds[i].status == "True"
  }

  function With(conds: seq<Condition>, c: Condition): seq<Condition> {
    var i := Position(conds, c.kind);
    if i < |conds| then conds[i := c] else conds + [c]
  }

  ghost predicate OnePerKind(conds: seq<Condition>) {
    forall i, j :: 0 <= i < j < |conds| ==> conds[i].kind != conds[j].kind
  }

  lemma WithSetsOneKind(conds: seq<Condition>, c: Condition, kind: string)
    ensures IsTrue(With(conds, c), kind) == if kind == c.kind then c.status == "True" else IsTrue(conds, kind)
    ensures OnePerKind(conds) ==> OnePerKind(With(conds, c))
  {
    var after, i, p := With(conds, c), Position(conds, c.kind), Position(conds, kind);
    if kind == c.kind {
      PositionIs(after, kind, i);
    } else if p < |conds| {
      PositionIs(after, kind, p);
    }
  }

  lemma PositionIs(conds: seq<Condition>, kind: string, i: nat)
    requires i < |conds| && conds[i].kind == kind
    requires forall j :: 0 <= j < i ==> conds[j].kind != kind
    ensures Position(conds, kind) == i
  {
  }

  // What With does to the list itself: one condition is the new one, the others stay.
  lemma WithPlacesOne(conds: seq<Condition>, c: Condition) returns (at: nat)
    ensures at < |With(conds, c)| && With(conds, c)[at] == c && |With(conds, c)| <= |conds| + 1
    ensures at < |conds| ==> conds[at].kind == c.kind && With(conds, c) == conds[at := c]
    ensures at >= |conds| ==> With(conds, c) == conds + [c] && forall i :: 0 <= i < |conds| ==> conds[i].kind != c.kind
  {
    at := Position(conds, c.kind);
  }

  function Probed(checks: seq<bool>): bool {
    true in checks
  }

  function Failing(task: Task, reason: string, message: string, now: int): Task {
    task.(status := task.status.(phase := FAILED_PHASE,
            conditions := With(task.status.conditions, Condition(READY, "False", reason, message, now))))
  }

  function WithPolicy(task: Task, w: World): Task {
    task.(status := task.status.(conditions := With(task.status.conditions,
      if w.policy.Some? then Condition(GATEWAY_READY, "False", "PolicyApplyFailed", w.policy.value, w.now)
      else Condition(GATEWAY_READY, "True", "PoliciesApplied", "Network policies active", w.now))))
  }

  function Suspending(task: Task, w: World): (Task, bool) {
    if w.suspended.Some? then (Failing(task, "ActorSuspendFailed", w.suspended.value, w.now), true)
    else
      (task.(status := task.status.(phase := SUSPENDED, workerIp := "",
               conditions := With(task.status.conditions,
                 Condition(READY, "False", "TaskSuspended", "Task is suspended", w.now)))),
       false)
  }

  function RunningConditions(conds: seq<Condition>, w: World): seq<Condition> {
    var known := IsTrue(conds, WORKSPACE_READY);
    if known || (w.workerIp != "" && Probed(w.checks)) then
      var c := if known then conds
             else With(conds,
               Condition(WORKSPACE_READY, "True", "SetupComplete", "Workspace setup completed at " + w.workerIp,
               w.later));
      With(c, Condition(READY, "True", "TaskRunning", "Task is running and its workspace is ready", w.later))
    else
      With(With(conds,
        Condition(WORKSPACE_READY, "False", "Initializing", "Workspace is initializing at " + w.workerIp, w.later)),
           Condition(READY, "False", "WorkspaceInitializing", "Waiting for workspace setup to complete", w.later))
  }

  function Resuming(task: Task, w: World): (Task, bool) {
    if w.resumed.Some? then (Failing(task, "ActorResumeFailed", w.resumed.value, w.now), true)
    else
      (task.(status := task.status.(phase := RUNNING, workerIp := w.workerIp,
               conditions := RunningConditions(task.status.conditions, w))),
       false)
  }

  function Placed(task: Task): Task {
    task.(meta := task.meta.(atespace := Normalized(task.meta.atespace)))
  }

  function Named(task: Task, w: World): Task {
    task.(status := task.status.(actor := task.meta.name, id := if task.status.id == "" then w.freshId
      else task.status.id))
  }

  // The task as reconcile leaves it, and whether it returned an error.
  function Reconciled(task: Task, w: World): (Task, bool) {
    var placed := Placed(task);
    var named := Named(placed, w);
    if w.atespace.Some? then (Failing(placed, "AtespaceCreationFailed", w.atespace.value, w.now), true)
    else if w.model.Some? then (named, true)
    else if w.actor.Some? then (Failing(named, "ActorCreationFailed", w.actor.value, w.now), true)
    else if task.spec.suspend then Suspending(WithPolicy(named, w), w)
    else Resuming(WithPolicy(named, w), w)
  }

  // ---- the reconciler, updating a task in place ----

  class TaskCell {
    var meta: TaskId
    const spec: Spec
    var phase: string
    var id: string
    var actor: string
    var workerIp: string
    var conditions: seq<Condition>

    function Value(): Task
      reads this
    {
      Task(meta, spec, Status(phase, id, actor, workerIp, conditions))
    }

    constructor (task: Task)
      ensures Value() == task
    {
      meta, spec := task.meta, task.spec;
      phase, id, actor, workerIp := task.status.phase, task.status.id, task.status.actor, task.status.workerIp;
      conditions := task.status.conditions;
    }

    method ConditionTrue(kind: string) returns (yes: bool)
      ensures yes == IsTrue(conditions, kind)
    {
      for i := 0 to |conditions|
        invariant forall j :: 0 <= j < i ==> conditions[j].kind != kind
      {
        if conditions[i].kind == kind { return conditions[i].status == "True"; }
      }
      return false;
    }

    method SetCondition(c: Condition)
      modifies this`conditions
      ensures conditions == With(old(conditions), c)
    {
      for i := 0 to |conditions|
        invariant conditions == old(conditions)
        invariant forall j :: 0 <= j < i ==> conditions[j].kind != c.kind
      {
        if conditions[i].kind == c.kind {
          conditions := conditions[i := c];
          return;
        }
      }
      conditions := conditions + [c];
    }

    method Fail(reason: string, message: string, now: int)
      modifies this`conditions, this`phase
      ensures Value() == Failing(old(Value()), reason, message, now)
    {
      SetCondition(Condition(READY, "False", reason, message, now));
      phase := FAILED_PHASE;
    }

    // Probes until one succeeds or the poll times out.
    method WorkspaceSetUp(w: World) returns (ready: bool)
      ensures ready == (IsTrue(conditions, WORKSPACE_READY) || (w.workerIp != "" && Probed(w.checks)))
    {
      ready := ConditionTrue(WORKSPACE_READY);
      if w.workerIp != "" && !ready {
        var i := 0;
        while i < |w.checks| && !ready
          invariant 0 <= i <= |w.checks|
          invariant ready <==> true in w.checks[..i]
        {
          ready := w.checks[i];
          assert w.checks[..i + 1] == w.checks[..i] + [w.checks[i]];
          i := i + 1;
        }
        assert w.checks == w.checks[..i] + w.checks[i..];
      }
    }

    method Resume(w: World) returns (failed: bool)
      modifies this`conditions, this`phase, this`workerIp
      ensures (Value(), failed) == Resuming(old(Value()), w)
    {
      if w.resumed.Some? {
        Fail("ActorResumeFailed", w.resumed.value, w.now);
        return true;
      }
      workerIp, phase := w.workerIp, RUNNING;
      var ready := WorkspaceSetUp(w);
      if ready {
        var known := ConditionTrue(WORKSPACE_READY);
        if !known {
          SetCondition(Condition(WORKSPACE_READY, "True", "SetupComplete",
            "Workspace setup completed at " + w.workerIp, w.later));
        }
        SetCondition(Condition(READY, "True", "TaskRunning", "Task is running and its workspace is ready", w.later));
      } else {
        SetCondition(Condition(WORKSPACE_READY, "False", "Initializing", "Workspace is initializing at " + w.workerIp,
          w.later));
        SetCondition(Condition(READY, "False", "WorkspaceInitializing", "Waiting for workspace setup to complete",
          w.later));
      }
      return false;
    }

    method Suspend(w: World) returns (failed: bool)
      modifies this`conditions, this`phase, this`workerIp
      ensures (Value(), failed) == Suspending(old(Value()), w)
    {
      if w.suspended.Some? {
        Fail("ActorSuspendFailed", w.suspended.value, w.now);
        return true;
      }
      workerIp, phase := "", SUSPENDED;
      SetCondition(Condition(READY, "False", "TaskSuspended", "Task is suspended", w.now));
      return false;
    }

    method RecordPolicy(w: World)
      modifies this`conditions
      ensures Value() == WithPolicy(old(Value()), w)
    {
      if w.policy.Some? {
        SetCondition(Condition(GATEWAY_READY, "False", "PolicyApplyFailed", w.policy.value, w.now));
      } else {
        SetCondition(Condition(GATEWAY_READY, "True", "PoliciesApplied", "Network policies active", w.now));
      }
    }

    method Reconcile(w: World) returns (failed: bool)
      modifies this
      ensures (Value(), failed) == Reconciled(old(Value()), w)
    {
      if meta.atespace == "" { meta := meta.(atespace := DEFAULT_ATESPACE); }
      if w.atespace.Some? {
        Fail("AtespaceCreationFailed", w.atespace.value, w.now);
        return true;
      }
      actor := meta.name;
      if id == "" { id := w.freshId; }
      if w.model.Some? { return true; }
      if w.actor.Some? {
        Fail("ActorCreationFailed", w.actor.value, w.now);
        return true;
      }
      RecordPolicy(w);
      if spec.suspend { failed := Suspend(w); } else { failed := Resume(w); }
    }
  }

  // ---- what every return path keeps ----

  // Ready is True only for a running task whose workspace is set up.
  predicate ReadySound(s: Status) {
    IsTrue(s.conditions, READY) ==> s.phase == RUNNING && IsTrue(s.conditions, WORKSPACE_READY)
  }

  // What a successful reconcile leaves.
  predicate AsDesired(status: Status, suspend: bool) {
    status.phase == DesiredPhase(suspend) && ReadySound(status)
  }

  // The one path that returns an error without touching Ready.
  predicate StopsAtModel(w: World) {
    w.atespace.None? && w.model.Some?
  }

  lemma RunningConditionsAreSound(conds: seq<Condition>, w: World)
    ensures var after := RunningConditions(conds, w);
            && (IsTrue(after, READY) <==> IsTrue(after, WORKSPACE_READY))
            && (IsTrue(conds, WORKSPACE_READY) ==> IsTrue(after, WORKSPACE_READY))
            && (OnePerKind(conds) ==> OnePerKind(after))
  {
    var ok := Condition(WORKSPACE_READY, "True", "SetupComplete", "Workspace setup completed at " + w.workerIp,
      w.later);
    var no := Condition(WORKSPACE_READY, "False", "Initializing", "Workspace is initializing at " + w.workerIp,
      w.later);
    var known := IsTrue(conds, WORKSPACE_READY);
    var setUp := known || (w.workerIp != "" && Probed(w.checks));
    var middle := if known then conds else With(conds, if setUp then ok else no);
    WithSetsOneKind(conds, if setUp then ok else no, WORKSPACE_READY);
    var last := if setUp then Condition(READY, "True", "TaskRunning", "Task is running and its workspace is ready",
      w.later)
                else Condition(READY, "False", "WorkspaceInitializing", "Waiting for workspace setup to complete",
                  w.later);
    WithSetsOneKind(middle, last, READY);
    WithSetsOneKind(middle, last, WORKSPACE_READY);
  }

  lemma FailingClearsReady(task: Task, reason: string, message: string, now: int)
    ensures var after := Failing(task, reason, message, now).status.conditions;
            && !IsTrue(after, READY)
            && IsTrue(after, WORKSPACE_READY) == IsTrue(task.status.conditions, WORKSPACE_READY)
            && (OnePerKind(task.status.conditions) ==> OnePerKind(after))
  {
    var c := Condition(READY, "False", reason, message, now);
    WithSetsOneKind(task.status.conditions, c, READY);
    WithSetsOneKind(task.status.conditions, c, WORKSPACE_READY);
  }

  lemma PolicyTouchesOnlyGateway(task: Task, w: World)
    ensures var conds, after := task.status.conditions, WithPolicy(task, w).status.conditions;
            && IsTrue(after, WORKSPACE_READY) == IsTrue(conds, WORKSPACE_READY)
            && IsTrue(after, GATEWAY_READY) == w.policy.None?
            && (OnePerKind(conds) ==> OnePerKind(after))
  {
    var c := if w.policy.Some? then Condition(GATEWAY_READY, "False", "PolicyApplyFailed", w.policy.value, w.now)
             else Condition(GATEWAY_READY, "True", "PoliciesApplied", "Network policies active", w.now);
    WithSetsOneKind(task.status.conditions, c, WORKSPACE_READY);
    WithSetsOneKind(task.status.conditions, c, GATEWAY_READY);
  }

  lemma ReconcileKeepsConditions(task: Task, w: World)
    ensures var conds, after := task.status.conditions, Reconciled(task, w).0.status.conditions;
            && (OnePerKind(conds) ==> OnePerKind(after))
            && (IsTrue(conds, WORKSPACE_READY) ==> IsTrue(after, WORKSPACE_READY))
            && (!StopsAtModel(w) ==> ReadySound(Reconciled(task, w).0.status))
            && (StopsAtModel(w) ==> after == conds && Reconciled(task, w).0.status.phase == task.status.phase)
  {
    var named := Named(Placed(task), w);
    var t := WithPolicy(named, w);
    PolicyTouchesOnlyGateway(named, w);
    if w.atespace.Some? {
      FailingClearsReady(Placed(task), "AtespaceCreationFailed", w.atespace.value, w.now);
    } else if w.model.None? && w.actor.Some? {
      FailingClearsReady(named, "ActorCreationFailed", w.actor.value, w.now);
    } else if w.model.None? && task.spec.suspend {
      if w.suspended.Some? {
        FailingClearsReady(t, "ActorSuspendFailed", w.suspended.value, w.now);
      } else {
        FailingClearsReady(t, "TaskSuspended", "Task is suspended", w.now);
      }
    } else if w.model.None? {
      if w.resumed.Some? {
        FailingClearsReady(t, "ActorResumeFailed", w.resumed.value, w.now);
      } else {
        RunningConditionsAreSound(t.status.conditions, w);
      }
    }
  }

  function ReconciledAll(task: Task, worlds: seq<World>): Task
    decreases |worlds|
  {
    if worlds == [] then task else ReconciledAll(Reconciled(task, worlds[0]).0, worlds[1..])
  }

  // Any number of reconciles, whatever each of them meets.
  lemma {:induction false} ReconcilesStaySound(task: Task, worlds: seq<World>)
    requires OnePerKind(task.status.conditions) && ReadySound(task.status)
    ensures var after := ReconciledAll(task, worlds).status;
            && OnePerKind(after.conditions) && ReadySound(after)
            && (IsTrue(task.status.conditions, WORKSPACE_READY) ==> IsTrue(after.conditions, WORKSPACE_READY))
    decreases |worlds|
  {
    if worlds != [] {
      ReconcileKeepsConditions(task, worlds[0]);
      ReconcilesStaySound(Reconciled(task, worlds[0]).0, worlds[1..]);
    }
  }

  // ---- what the worker stores ----

  // After an error the worker sets the phase itself and stores the same status.
  function Processed(task: Task, w: World): Task {
    var (after, failed) := Reconciled(task, w);
    if failed then after.(status := after.status.(phase := FAILED_PHASE)) else after
  }

  // The stored status can claim Ready on a failed task, in exactly one situation: the
  // model configuration is broken and the task was Ready before.
  lemma StoredReadyIsSoundIff(task: Task, w: World)
    ensures ReadySound(Processed(task, w).status)
            <==> !(StopsAtModel(w) && IsTrue(task.status.conditions, READY))
  {
    ReconcileKeepsConditions(task, w);
    if !StopsAtModel(w) {
      assert Reconciled(task, w).1 ==> !IsTrue(Reconciled(task, w).0.status.conditions, READY) by {
        assert Reconciled(task, w).1 ==> Reconciled(task, w).0.status.phase == FAILED_PHASE;
      }
    }
  }

  // What can happen to a stored task between and during reconciles, when calls do not
  // overlap. Replace is UpdateTask, which saves the caller's spec and status.
  datatype Op = Process(w: World) | SetSuspend(on: bool) | MarkDeleting | Replace(spec: Spec, status: Status)

  function Applied(task: Task, op: Op): Task {
    match op
    case Process(w) => Processed(task, w)
    case SetSuspend(on) => task.(spec := task.spec.(suspend := on))
    case MarkDeleting => task.(status := task.status.(phase := TERMINATING))
    case Replace(spec, status) => task.(spec := spec, status := status)
  }

  predicate SetUp(task: Task) {
    IsTrue(task.status.conditions, WORKSPACE_READY)
  }

  predicate SetUpThroughout(task: Task, ops: seq<Op>)
    decreases |ops|
  {
    SetUp(task) && (ops != [] ==> SetUpThroughout(Applied(task, ops[0]), ops[1..]))
  }

  predicate Carries(op: Op) {
    op.Replace? ==> IsTrue(op.status.conditions, WORKSPACE_READY)
  }

  lemma SetUpStaysIffCarried(task: Task, op: Op)
    requires SetUp(task)
    ensures SetUp(Applied(task, op)) <==> Carries(op)
  {
    if op.Process? { ReconcileKeepsConditions(task, op.w); }
  }

  function AppliedAll(task: Task, ops: seq<Op>): Task
    decreases |ops|
  {
    if ops == [] then task else AppliedAll(Applied(task, ops[0]), ops[1..])
  }

  // Workspace setup happens once: True stays True through reconciles, suspends, resumes
  // and delete marks, and through updates exactly as long as each of them carries it.
  lemma {:induction false} WorkspaceReadyStaysIff(task: Task, ops: seq<Op>)
    requires SetUp(task)
    ensures SetUpThroughout(task, ops) <==> forall i :: 0 <= i < |ops| ==> Carries(ops[i])
    decreases |ops|
  {
    if ops != [] {
      SetUpStaysIffCarried(task, ops[0]);
      if Carries(ops[0]) { WorkspaceReadyStaysIff(Applied(task, ops[0]), ops[1..]); }
      assert (forall i :: 0 <= i < |ops| ==> Carries(ops[i]))
        <==> Carries(ops[0]) && forall i :: 0 <= i < |ops[1..]| ==> Carries(ops[1..][i]) by {
        assert forall i :: 0 < i < |ops| ==> ops[i] == ops[1..][i - 1];
      }
    }
  }

  // Without updates it is sticky, and no condition is ever duplicated.
  lemma {:induction false} WorkspaceReadyIsSticky(task: Task, ops: seq<Op>)
    requires forall i :: 0 <= i < |ops| ==> !ops[i].Replace?
    ensures var before, after := task.status.conditions, AppliedAll(task, ops).status.conditions;
            && (IsTrue(before, WORKSPACE_READY) ==> IsTrue(after, WORKSPACE_READY))
            && (OnePerKind(before) ==> OnePerKind(after))
    decreases |ops|
  {
    if ops != [] {
      if ops[0].Process? { ReconcileKeepsConditions(task, ops[0].w); }
      WorkspaceReadyIsSticky(Applied(task, ops[0]), ops[1..]);
    }
  }

  // ---- success reaches the desired phase ----

  predicate NothingFails(w: World) {
    w.atespace.None? && w.model.None? && w.actor.None? && w.suspended.None? && w.resumed.None?
  }

  function DesiredPhase(suspend: bool): string {
    if suspend then SUSPENDED else RUNNING
  }

  lemma SuccessReachesDesiredPhase(task: Task, w: World)
    requires NothingFails(w)
    ensures var after := Processed(task, w);
            after.status.phase == DesiredPhase(task.spec.suspend) && ReadySound(after.status) && after.spec == task.spec
  {
    StoredReadyIsSoundIff(task, w);
  }

  // A world in which nothing fails and the workspace answers its first probe.
  const GOOD_WORLD := World(None, None, None, None, None, None, "10.0.0.1:80", [true], "id", 0, 0)

  lemma GoodWorldMakesReady(task: Task)
    requires !task.spec.suspend
    ensures NothingFails(GOOD_WORLD) && IsTrue(Processed(task, GOOD_WORLD).status.conditions, READY)
  {
    var w := GOOD_WORLD;
    assert w.checks[0] && Probed(w.checks);
    var conds := WithPolicy(Named(Placed(task), w), w).status.conditions;
    var c := if IsTrue(conds, WORKSPACE_READY) then conds
             else With(conds,
               Condition(WORKSPACE_READY, "True", "SetupComplete", "Workspace setup completed at " + w.workerIp,
               w.later));
    WithSetsOneKind(c, Condition(READY, "True", "TaskRunning", "Task is running and its workspace is ready", w.later),
      READY);
  }

  // ---- the stored status, field by field ----

  // No actor is reached.
  predicate FailsEarly(w: World) {
    w.atespace.Some? || w.model.Some? || w.actor.Some?
  }

  predicate Fails(task: Task, w: World) {
    FailsEarly(w) || if task.spec.suspend then w.suspended.Some? else w.resumed.Some?
  }

  // The conditions that the end of a resume sets.
  function SetUpAt(w: World): Condition {
    Condition(WORKSPACE_READY, "True", "SetupComplete", "Workspace setup completed at " + w.workerIp, w.later)
  }

  function InitializingAt(w: World): Condition {
    Condition(WORKSPACE_READY, "False", "Initializing", "Workspace is initializing at " + w.workerIp, w.later)
  }

  function RunningAt(w: World): Condition {
    Condition(READY, "True", "TaskRunning", "Task is running and its workspace is ready", w.later)
  }

  function WaitingAt(w: World): Condition {
    Condition(READY, "False", "WorkspaceInitializing", "Waiting for workspace setup to complete", w.later)
  }

  // All but the conditions.
  lemma StoredFieldsAre(task: Task, w: World)
    ensures var after, was := Processed(task, w), task.status;
            && after.spec == task.spec && after.meta.name == task.meta.name
            && after.status.phase
              == (if Fails(task, w) then "Failed" else if task.spec.suspend then "Suspended" else "Running")
            && after.status.actor == (if w.atespace.Some? then was.actor else task.meta.name)
            && after.status.id == (if w.atespace.Some? || was.id != "" then was.id else w.freshId)
            && after.status.workerIp
              == (if Fails(task, w) then was.workerIp else if task.spec.suspend then "" else w.workerIp)
  {
  }

  // Some probe of a worker with an address answered.
  predicate Answers(w: World) {
    w.workerIp != "" && exists i :: 0 <= i < |w.checks| && w.checks[i]
  }

  lemma RunningConditionsAre(conds: seq<Condition>, w: World)
    ensures var after := RunningConditions(conds, w);
            && (IsTrue(after, WORKSPACE_READY) <==> IsTrue(conds, WORKSPACE_READY) || Answers(w))
            && (IsTrue(after, READY) <==> IsTrue(conds, WORKSPACE_READY) || Answers(w))
            && IsTrue(after, GATEWAY_READY) == IsTrue(conds, GATEWAY_READY)
  {
    var ok, no, ready, waiting := SetUpAt(w), InitializingAt(w), RunningAt(w), WaitingAt(w);
    assert Probed(w.checks) <==> exists i :: 0 <= i < |w.checks| && w.checks[i];
    var known := IsTrue(conds, WORKSPACE_READY);
    var setUp := known || Answers(w);
    var middle := if known then conds else With(conds, if setUp then ok else no);
    ThreeKinds(conds, if setUp then ok else no);
    ThreeKinds(middle, if setUp then ready else waiting);
  }

  lemma ThreeKinds(conds: seq<Condition>, c: Condition)
    ensures var after := With(conds, c);
            && IsTrue(after, READY) == (if c.kind == READY then c.status == "True" else IsTrue(conds, READY))
            && IsTrue(after, WORKSPACE_READY)
               == (if c.kind == WORKSPACE_READY then c.status == "True" else IsTrue(conds, WORKSPACE_READY))
            && IsTrue(after, GATEWAY_READY)
               == (if c.kind == GATEWAY_READY then c.status == "True" else IsTrue(conds, GATEWAY_READY))
  {
    WithSetsOneKind(conds, c, READY);
    WithSetsOneKind(conds, c, WORKSPACE_READY);
    WithSetsOneKind(conds, c, GATEWAY_READY);
  }

  // The workspace is ready exactly if it was, or the task is running now and a probe of
  // its worker answered.
  lemma WorkspaceReadyIff(task: Task, w: World)
    ensures IsTrue(Processed(task, w).status.conditions, WORKSPACE_READY)
            <==> (IsTrue(task.status.conditions, WORKSPACE_READY)
                  || (!Fails(task, w) && !task.spec.suspend && Answers(w)))
  {
    ProcessedConditions(task, w);
  }

  // Ready is True exactly if the task is running and its workspace ready; only a model
  // error leaves it as it was.
  lemma ReadyIff(task: Task, w: World)
    ensures var before := task.status.conditions;
            IsTrue(Processed(task, w).status.conditions, READY) <==>
              if StopsAtModel(w) then IsTrue(before, READY)
              else !Fails(task, w) && !task.spec.suspend && (IsTrue(before, WORKSPACE_READY) || Answers(w))
  {
    ProcessedConditions(task, w);
  }

  // GatewayReady says whether the policy was applied, once that is reached.
  lemma GatewayReadyIff(task: Task, w: World)
    ensures IsTrue(Processed(task, w).status.conditions, GATEWAY_READY) <==>
              if FailsEarly(w) then IsTrue(task.status.conditions, GATEWAY_READY)
              else w.policy.None?
  {
    ProcessedConditions(task, w);
  }

  lemma ProcessedConditions(task: Task, w: World)
    ensures var conds, after := task.status.conditions, Processed(task, w).status.conditions;
            var running := !Fails(task, w) && !task.spec.suspend;
            && (IsTrue(after, WORKSPACE_READY) <==> IsTrue(conds, WORKSPACE_READY) || (running && Answers(w)))
            && (IsTrue(after, READY) <==>
                  if StopsAtModel(w) then IsTrue(conds, READY)
                  else running && (IsTrue(conds, WORKSPACE_READY) || Answers(w)))
            && (IsTrue(after, GATEWAY_READY) <==>
                  if FailsEarly(w) then IsTrue(conds, GATEWAY_READY) else w.policy.None?)
  {
    var named := Named(Placed(task), w);
    var conds := task.status.conditions;
    if w.atespace.Some? {
      ThreeKinds(conds, Condition(READY, "False", "AtespaceCreationFailed", w.atespace.value, w.now));
    } else if w.model.Some? {
    } else if w.actor.Some? {
      ThreeKinds(conds, Condition(READY, "False", "ActorCreationFailed", w.actor.value, w.now));
    } else {
      var t := WithPolicy(named, w);
      ThreeKinds(conds,
        if w.policy.Some? then Condition(GATEWAY_READY, "False", "PolicyApplyFailed", w.policy.value, w.now)
                        else Condition(GATEWAY_READY, "True", "PoliciesApplied", "Network policies active", w.now));
      AfterPolicy(task, t, w);
    }
  }

  lemma AfterPolicy(task: Task, t: Task, w: World)
    requires w.atespace.None? && w.model.None? && w.actor.None? && t == WithPolicy(Named(Placed(task), w), w)
    ensures var conds, after := t.status.conditions, Processed(task, w).status.conditions;
            var running := !Fails(task, w) && !task.spec.suspend;
            && (IsTrue(after, WORKSPACE_READY) <==> IsTrue(conds, WORKSPACE_READY) || (running && Answers(w)))
            && (IsTrue(after, READY) <==> running && (IsTrue(conds, WORKSPACE_READY) || Answers(w)))
            && IsTrue(after, GATEWAY_READY) == IsTrue(conds, GATEWAY_READY)
  {
    var conds := t.status.conditions;
    if task.spec.suspend && w.suspended.Some? {
      ThreeKinds(conds, Condition(READY, "False", "ActorSuspendFailed", w.suspended.value, w.now));
    } else if task.spec.suspend {
      ThreeKinds(conds, Condition(READY, "False", "TaskSuspended", "Task is suspended", w.now));
    } else if w.resumed.Some? {
      ThreeKinds(conds, Condition(READY, "False", "ActorResumeFailed", w.resumed.value, w.now));
    } else {
      RunningConditionsAre(conds, w);
    }
  }

  // ---- why a task is ready or not ----

  function Current(conds: seq<Condition>, kind: string): Option<Condition> {
    var i := Position(conds, kind);
    if i < |conds| then Some(conds[i]) else None
  }

  lemma WithSetsCurrent(conds: seq<Condition>, c: Condition, kind: string)
    ensures Current(With(conds, c), kind) == if kind == c.kind then Some(c) else Current(conds, kind)
  {
    var after, i, p := With(conds, c), Position(conds, c.kind), Position(conds, kind);
    if kind == c.kind {
      PositionIs(after, kind, i);
    } else if p < |conds| {
      PositionIs(after, kind, p);
    }
  }

  // The Ready condition after each outcome, with its reason and message.
  lemma ReadySaysWhy(task: Task, w: World)
    ensures Current(Processed(task, w).status.conditions, "Ready") ==
            if w.atespace.Some? then NotReady("AtespaceCreationFailed", w.atespace.value, w.now)
            else if w.model.Some? then Current(task.status.conditions, "Ready")
            else if w.actor.Some? then NotReady("ActorCreationFailed", w.actor.value, w.now)
            else if task.spec.suspend then
              (if w.suspended.Some? then NotReady("ActorSuspendFailed", w.suspended.value, w.now)
               else NotReady("TaskSuspended", "Task is suspended", w.now))
            else if w.resumed.Some? then NotReady("ActorResumeFailed", w.resumed.value, w.now)
            else if IsTrue(task.status.conditions, WORKSPACE_READY) || Answers(w) then
              Some(Condition("Ready", "True", "TaskRunning", "Task is running and its workspace is ready", w.later))
            else NotReady("WorkspaceInitializing", "Waiting for workspace setup to complete", w.later)
  {
    var t := WithPolicy(Named(Placed(task), w), w);
    var conds, after := task.status.conditions, t.status.conditions;
    if w.atespace.Some? {
      WithSetsCurrent(conds, NotReady("AtespaceCreationFailed", w.atespace.value, w.now).value, READY);
    } else if w.model.Some? {
    } else if w.actor.Some? {
      WithSetsCurrent(conds, NotReady("ActorCreationFailed", w.actor.value, w.now).value, READY);
    } else if task.spec.suspend && w.suspended.Some? {
      WithSetsCurrent(after, NotReady("ActorSuspendFailed", w.suspended.value, w.now).value, READY);
    } else if task.spec.suspend {
      WithSetsCurrent(after, NotReady("TaskSuspended", "Task is suspended", w.now).value, READY);
    } else if w.resumed.Some? {
      WithSetsCurrent(after, NotReady("ActorResumeFailed", w.resumed.value, w.now).value, READY);
    } else {
      PolicyTouchesOnlyGateway(Named(Placed(task), w), w);
      RunningReady(after, w);
    }
  }

  function NotReady(reason: string, message: string, time: int): Option<Condition> {
    Some(Condition("Ready", "False", reason, message, time))
  }

  lemma RunningReady(conds: seq<Condition>, w: World)
    ensures Current(RunningConditions(conds, w), READY)
            == Some(if IsTrue(conds, WORKSPACE_READY) || Answers(w) then RunningAt(w) else WaitingAt(w))
  {
    assert Probed(w.checks) <==> exists i :: 0 <= i < |w.checks| && w.checks[i];
    WithSetsCurrent(conds, RunningAt(w), READY);
    WithSetsCurrent(With(conds, SetUpAt(w)), RunningAt(w), READY);
    WithSetsCurrent(With(conds, InitializingAt(w)), WaitingAt(w), READY);
  }
}
