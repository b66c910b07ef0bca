// One worker over the in-memory store, with nothing failing: once the dust settles,
// every record and its actor are in the state the spec asks for.
module Convergence {
  import opened Api
  import opened MemoryStore
  import opened Reconciler

  // Where the worker stands. A task it holds is the copy it fetched; `outcome` is the
  // status this reconcile is going to report, given what its calls will answer.
  datatype Pc =
    | Waiting
    | Tearing(id: TaskId)
    | Erasing(id: TaskId)
    | Fetching(id: TaskId)
    | Ensuring(task: Task, outcome: Status)
    | Activating(task: Task, outcome: Status)
    | Reporting(task: Task, outcome: Status)

  // `publishing` holds the calls between their write, under the lock, and their send to
  // the event channel. An actor maps to whether it is running.
  datatype Plane = Plane(tasks: map<TaskId, Task>, events: seq<Event>, publishing: map<nat, Event>,
                         worker: Pc, actors: map<TaskId, bool>)

  // A save may carry any task at all, so it stands for UpdateTask, and for SuspendTask
  // and ResumeTask saving back a copy that has since gone stale.
  datatype Step =
    | Save(call: nat, task: Task)
    | Mark(call: nat, id: TaskId)
    | Publish(call: nat)
    | Receive
    | DeleteActor
    | Erase
    | Fetch(w: World)
    | EnsureActor
    | Activate
    | Report

  predicate Enabled(p: Plane, s: Step) {
    match s
    case Save(call, task) => call !in p.publishing && task.meta.name != ""
    case Mark(call, _) => call !in p.publishing
    case Publish(call) => call in p.publishing
    case Receive => p.worker.Waiting? && p.events != []
    case DeleteActor => p.worker.Tearing?
    case Erase => p.worker.Erasing?
    case Fetch(w) => p.worker.Fetching? && NothingFails(w)
    case EnsureActor => p.worker.Ensuring?
    case Activate => p.worker.Activating?
    case Report => p.worker.Reporting?
  }

  function Take(p: Plane, s: Step): Plane
    requires Enabled(p, s)
  {
    match s
    case Save(call, task) =>
      var saved := WithDefaults(task);
      p.(tasks := p.tasks[saved.meta := saved],
         publishing := p.publishing[call := Event(saved.meta.atespace, saved.meta.name, RECONCILE)])
    case Mark(call, id) =>
      var k := ReadId(id);
      if k !in p.tasks then p
      else p.(tasks := p.tasks[k := p.tasks[k].(status := p.tasks[k].status.(phase := TERMINATING))],
              publishing := p.publishing[call := Event(id.atespace, id.name, DELETE)])
    case Publish(call) =>
      p.(events := Published(p.events, p.publishing[call]), publishing := p.publishing - {call})
    case Receive =>
      var ev := p.events[0];
      p.(events := p.events[1..], worker := if ev.action == DELETE then Tearing(EventId(ev)) else Fetching(EventId(ev)))
    case DeleteActor => p.(actors := p.actors - {p.worker.id}, worker := Erasing(p.worker.id))
    case Erase => p.(tasks := p.tasks - {p.worker.id}, worker := Waiting)
    case Fetch(w) =>
      p.(worker := if p.worker.id in p.tasks then Ensuring(p.tasks[p.worker.id],
        Processed(p.tasks[p.worker.id], w).status) else Waiting)
    case EnsureActor =>
      var k := p.worker.task.meta;
      p.(actors := if k in p.actors then p.actors
        else p.actors[k := false], worker := Activating(p.worker.task, p.worker.outcome))
    case Activate =>
      p.(actors := p.actors[p.worker.task.meta := !p.worker.task.spec.suspend],
        worker := Reporting(p.worker.task, p.worker.outcome))
    case Report =>
      var k := ReadId(p.worker.task.meta);
      p.(tasks := if k in p.tasks then p.tasks[k := p.tasks[k].(status := p.worker.outcome)]
        else p.tasks, worker := Waiting)
  }

  predicate IsRun(p: Plane, steps: seq<Step>)
    decreases |steps|
  {
    steps == [] || (Enabled(p, steps[0]) && IsRun(Take(p, steps[0]), steps[1..]))
  }

  function After(p: Plane, steps: seq<Step>): Plane
    requires IsRun(p, steps)
    decreases |steps|
  {
    if steps == [] then p else After(Take(p, steps[0]), steps[1..])
  }

  // No send found the event channel full.
  predicate NothingDropped(p: Plane, steps: seq<Step>)
    requires IsRun(p, steps)
    decreases |steps|
  {
    steps == [] || ((steps[0].Publish? ==> |p.events| < EVENT_CAPACITY)
      && NothingDropped(Take(p, steps[0]), steps[1..]))
  }

  const START := Plane(map[], [], map[], Waiting, map[])

  // ---- the goal ----

  predicate Quiet(p: Plane) {
    p.events == [] && p.publishing == map[] && p.worker.Waiting?
  }

  predicate Settled(p: Plane, k: TaskId)
    requires k in p.tasks
  {
    var task := p.tasks[k];
    k in p.actors && p.actors[k] == !task.spec.suspend && AsDesired(task.status, task.spec.suspend)
  }

  ghost predicate Converged(p: Plane) {
    p.actors.Keys == p.tasks.Keys && forall k :: k in p.tasks ==> Settled(p, k)
  }

  // ---- the invariant ----

  ghost predicate EventComing(p: Plane, k: TaskId) {
    || (exists i :: 0 <= i < |p.events| && EventId(p.events[i]) == k)
    || (exists c :: c in p.publishing && EventId(p.publishing[c]) == k)
  }

  predicate HoldsTask(pc: Pc) {
    pc.Ensuring? || pc.Activating? || pc.Reporting?
  }

  predicate HoldsId(pc: Pc) {
    pc.Tearing? || pc.Erasing? || pc.Fetching?
  }

  // The worker is on its way to settle or remove k: it has yet to read the record, or it
  // carries the suspend flag the record still has.
  predicate Handling(p: Plane, k: TaskId)
    requires k in p.tasks
  {
    || (HoldsId(p.worker) && p.worker.id == k)
    || (HoldsTask(p.worker) && p.worker.task.meta == k && p.worker.task.spec.suspend == p.tasks[k].spec.suspend)
  }

  predicate Idle(p: Plane, k: TaskId) {
    !(HoldsId(p.worker) && p.worker.id == k) && !(HoldsTask(p.worker) && p.worker.task.meta == k)
  }

  ghost predicate Accounted(p: Plane, k: TaskId)
    requires k in p.tasks
  {
    EventComing(p, k) || Handling(p, k) || (Idle(p, k) && Settled(p, k))
  }

  ghost predicate WorkerOk(p: Plane) {
    var pc := p.worker;
    && (HoldsTask(pc) ==> pc.task.meta in p.tasks && ReadId(pc.task.meta) == pc.task.meta)
    && (HoldsTask(pc) ==> AsDesired(pc.outcome, pc.task.spec.suspend))
    && (pc.Activating? || pc.Reporting? ==> pc.task.meta in p.actors)
    && (pc.Reporting? ==> p.actors[pc.task.meta] == !pc.task.spec.suspend)
    && (pc.Erasing? ==> pc.id !in p.actors)
  }

  ghost predicate Good(p: Plane) {
    && WorkerOk(p)
    && (forall k :: k in p.tasks ==> Accounted(p, k))
    && (forall k :: k in p.tasks ==> p.tasks[k].meta == k && ReadId(k) == k)
    && (forall k :: k in p.actors ==> k in p.tasks)
  }

  lemma PublishKeepsEventsComing(p: Plane, call: nat, k: TaskId)
    requires call in p.publishing && |p.events| < EVENT_CAPACITY && EventComing(p, k)
    ensures EventComing(Take(p, Publish(call)), k)
  {
    var t, ev := Take(p, Publish(call)), p.publishing[call];
    if EventId(ev) == k {
      assert t.events[|p.events|] == ev;
    } else if i :| 0 <= i < |p.events| && EventId(p.events[i]) == k {
      assert t.events[i] == p.events[i];
    } else {
      var c :| c in p.publishing && EventId(p.publishing[c]) == k;
      assert c in t.publishing;
    }
  }

  lemma ReceiveKeepsAccounted(p: Plane, k: TaskId)
    requires Good(p) && Enabled(p, Receive) && k in p.tasks
    ensures Accounted(Take(p, Receive), k)
  {
    var t := Take(p, Receive);
    assert Accounted(p, k);
    if EventComing(p, k) && !Handling(t, k) {
      if i :| 0 <= i < |p.events| && EventId(p.events[i]) == k {
        assert i > 0 && t.events[i - 1] == p.events[i];
      } else {
        var c :| c in p.publishing && EventId(p.publishing[c]) == k;
        assert c in t.publishing;
      }
    }
  }

  // A write to k leaves an event for k on its way; other keys keep what they had.
  lemma WriteKeepsAccounted(p: Plane, s: Step, k: TaskId)
    requires Good(p) && Enabled(p, s) && (s.Save? || s.Mark?) && k in Take(p, s).tasks
    ensures Accounted(Take(p, s), k)
  {
    var t := Take(p, s);
    if t.publishing != p.publishing && EventId(t.publishing[s.call]) == k {
      assert s.call in t.publishing;
    } else {
      assert k in p.tasks && t.tasks[k] == p.tasks[k] && Accounted(p, k);
      if c :| c in p.publishing && EventId(p.publishing[c]) == k {
        assert t.publishing[c] == p.publishing[c];
      }
    }
  }

  lemma ReportKeepsAccounted(p: Plane, k: TaskId)
    requires Good(p) && Enabled(p, Report) && k in Take(p, Report).tasks
    ensures Accounted(Take(p, Report), k)
  {
    var t := Take(p, Report);
    assert k in p.tasks && Accounted(p, k) && t.events == p.events && t.publishing == p.publishing;
    assert p.worker.task.meta != k ==> t.tasks[k] == p.tasks[k];
  }

  lemma RemovalKeepsAccounted(p: Plane, s: Step, k: TaskId)
    requires Good(p) && Enabled(p, s) && (s.DeleteActor? || s.Erase?) && k in Take(p, s).tasks
    ensures Accounted(Take(p, s), k)
  {
    var t := Take(p, s);
    assert k in p.tasks && Accounted(p, k) && t.events == p.events && t.publishing == p.publishing;
    if EventComing(p, k) { assert EventComing(t, k); }
  }

  lemma FetchKeepsAccounted(p: Plane, s: Step, k: TaskId)
    requires Good(p) && Enabled(p, s) && s.Fetch? && k in Take(p, s).tasks
    ensures Accounted(Take(p, s), k)
  {
    var t := Take(p, s);
    assert k in p.tasks && Accounted(p, k) && t.tasks == p.tasks && t.events == p.events
      && t.publishing == p.publishing;
    if EventComing(p, k) { assert EventComing(t, k); }
    assert p.worker.id in p.tasks ==> p.tasks[p.worker.id].meta == p.worker.id;
  }

  lemma SubstrateKeepsAccounted(p: Plane, s: Step, k: TaskId)
    requires Good(p) && Enabled(p, s) && (s.EnsureActor? || s.Activate?) && k in Take(p, s).tasks
    ensures Accounted(Take(p, s), k)
  {
    var t := Take(p, s);
    assert k in p.tasks && Accounted(p, k) && t.tasks == p.tasks && t.events == p.events
      && t.publishing == p.publishing;
    if EventComing(p, k) { assert EventComing(t, k); }
  }

  lemma StepKeepsShape(p: Plane, s: Step)
    requires Good(p) && Enabled(p, s)
    ensures WorkerOk(Take(p, s))
    ensures forall k :: k in Take(p, s).tasks ==> Take(p, s).tasks[k].meta == k && ReadId(k) == k
    ensures forall k :: k in Take(p, s).actors ==> k in Take(p, s).tasks
  {
    if s.Fetch? && p.worker.id in p.tasks { SuccessReachesDesiredPhase(p.tasks[p.worker.id], s.w); }
  }

  lemma StepKeepsGood(p: Plane, s: Step)
    requires Good(p) && Enabled(p, s) && (s.Publish? ==> |p.events| < EVENT_CAPACITY)
    ensures Good(Take(p, s))
  {
    StepKeepsShape(p, s);
    forall k | k in Take(p, s).tasks
      ensures Accounted(Take(p, s), k)
    {
      if s.Publish? {
        assert Accounted(p, k);
        if EventComing(p, k) { PublishKeepsEventsComing(p, s.call, k); }
      } else if s.Receive? {
        ReceiveKeepsAccounted(p, k);
      } else if s.Save? || s.Mark? {
        WriteKeepsAccounted(p, s, k);
      } else if s.Report? {
        ReportKeepsAccounted(p, k);
      } else if s.Fetch? {
        FetchKeepsAccounted(p, s, k);
      } else if s.EnsureActor? || s.Activate? {
        SubstrateKeepsAccounted(p, s, k);
      } else {
        RemovalKeepsAccounted(p, s, k);
      }
    }
  }

  lemma {:induction false} RunsStayGood(p: Plane, steps: seq<Step>)
    requires Good(p) && IsRun(p, steps) && NothingDropped(p, steps)
    ensures Good(After(p, steps))
    decreases |steps|
  {
    if steps != [] {
      StepKeepsGood(p, steps[0]);
      RunsStayGood(Take(p, steps[0]), steps[1..]);
    }
  }

  lemma QuietAndGoodIsConverged(p: Plane)
    requires Good(p) && Quiet(p)
    ensures Converged(p)
  {
    assert forall k :: k in p.tasks ==> Accounted(p, k);
  }

  // Whatever the interleaving was: when no event is queued, none is being processed and
  // no call is between its write and its send, everything has converged.
  lemma QuietMeansConverged(steps: seq<Step>)
    requires IsRun(START, steps) && NothingDropped(START, steps)
    ensures Quiet(After(START, steps)) ==> Converged(After(START, steps))
  {
    RunsStayGood(START, steps);
    if Quiet(After(START, steps)) { QuietAndGoodIsConverged(After(START, steps)); }
  }
}
