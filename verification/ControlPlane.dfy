// API clients, workers and Substrate around one Redis store. Every store round trip
// and every Substrate call is one step with an arbitrary outcome; workers may die and
// restart anywhere.
module ControlPlane {
  import opened Api
  import opened Keys
  import opened RedisStore
  import opened Interleaving
  import Reconciler

  datatype ActorState = Active | Idle | Crashed | Deleting

  // Where a worker stands in processEvent and the calls below it.
  datatype Pc =
    | Waiting
    | Tearing(id: TaskId)                     // about to call DeleteActor
    | Erasing(id: TaskId)                     // actor gone; about to call DeleteTask
    | Fetching(id: TaskId)
    | Preparing(task: Task)                   // model, atespace, template
    | Creating(task: Task)                    // EnsureActor: first CreateActor
    | Inspecting(task: Task)                  // it exists; GetActor
    | Replacing(task: Task)                   // it is crashed; DeleteActor
    | Recreating(task: Task, tries: nat)      // waiting for a deletion to finish
    | Activating(task: Task)                  // egress policy, then suspend or resume
    | Reporting(task: Task)                   // about to read for UpdateTaskStatus
    | Writing                                 // about to write for UpdateTaskStatus

  datatype Plane = Plane(store: System, workers: map<nat, Pc>, actors: map<TaskId, ActorState>)

  datatype Preparation = GiveUp | Report | GoOn

  datatype Move =
    | Client(step: Interleaving.Step)
    | Start(w: nat)
    | Die(w: nat)
    | Receive(w: nat, ev: Event)
    | DeleteActor(w: nat, out: Outcome)
    | Erase(w: nat, tx: Outcome)
    | Fetch(w: nat, reachable: bool)
    | Prepare(w: nat, how: Preparation)
    | Create(w: nat, out: Outcome)
    | Inspect(w: nat, reachable: bool)
    | Replace(w: nat, out: Outcome)
    | Recreate(w: nat, out: Outcome, cancelled: bool)
    | Activate(w: nat, out: Outcome)
    | ReadBack(w: nat, reachable: bool, status: Status)
    | WriteBack(w: nat, tx: Outcome)
    | ActorGone(id: TaskId)
    | ActorCrashes(id: TaskId)

  const EMPTY_PLANE := Plane(EMPTY, map[], map[])
  const CREATE_RETRIES: nat := 20

  // The API server's own store calls: saves and delete marks, never a removal.
  predicate FromClient(step: Interleaving.Step) {
    match step
    case Save(_, _, _) => true
    case ReadForMark(c, _) => c.Client?
    case Write(c, _) => c.Client?
    case Abandon(c) => c.Client?
    case ReadForStatus(_, _, _) => false
    case Remove(_, _) => false
  }

  predicate At(p: Plane, w: nat, here: Pc -> bool) {
    w in p.workers && here(p.workers[w])
  }

  predicate Enabled(p: Plane, e: Move) {
    match e
    case Client(step) => FromClient(step) && Allowed(p.store, step)
    case Start(w) => w !in p.workers
    case Die(w) => w in p.workers
    case Receive(w, ev) => At(p, w, (pc: Pc) => pc.Waiting?) && NoColon(ev.atespace)
    case DeleteActor(w, _) => At(p, w, (pc: Pc) => pc.Tearing?)
    case Erase(w, _) => At(p, w, (pc: Pc) => pc.Erasing?) && Allowed(p.store, Remove(p.workers[w].id, e.tx))
    case Fetch(w, _) => At(p, w, (pc: Pc) => pc.Fetching?)
    case Prepare(w, _) => At(p, w, (pc: Pc) => pc.Preparing?)
    case Create(w, _) => At(p, w, (pc: Pc) => pc.Creating?)
    case Inspect(w, _) => At(p, w, (pc: Pc) => pc.Inspecting?)
    case Replace(w, _) => At(p, w, (pc: Pc) => pc.Replacing?)
    case Recreate(w, _, _) => At(p, w, (pc: Pc) => pc.Recreating?)
    case Activate(w, _) => At(p, w, (pc: Pc) => pc.Activating?)
    case ReadBack(w, _, status) =>
      At(p, w, (pc: Pc) => pc.Reporting?)
      && Allowed(p.store, ReadForStatus(Worker(w), ReadId(p.workers[w].task.meta), status))
    case WriteBack(w, tx) => At(p, w, (pc: Pc) => pc.Writing?) && Allowed(p.store, Write(Worker(w), tx))
    case ActorGone(id) => id in p.actors && p.actors[id].Deleting?
    case ActorCrashes(id) => id in p.actors && !p.actors[id].Deleting?
  }

  // Deletion is asynchronous: a deleted actor lingers in Deleting until it is gone.
  function Deleted(p: Plane, id: TaskId, out: Outcome): map<TaskId, ActorState> {
    if Landed(out) && id in p.actors then p.actors[id := Deleting] else p.actors
  }

  function Made(p: Plane, id: TaskId, out: Outcome): map<TaskId, ActorState> {
    if Landed(out) && id !in p.actors then p.actors[id := Idle] else p.actors
  }

  function Switched(p: Plane, task: Task, out: Outcome): map<TaskId, ActorState> {
    var id := ReadId(task.meta);
    if Landed(out) && id in p.actors && !p.actors[id].Deleting? then
      p.actors[id := if task.spec.suspend then Idle else Active]
    else p.actors
  }

  // The store step inside a control-plane step, if it has one.
  function StoreStep(p: Plane, e: Move): Option<Interleaving.Step>
    requires Enabled(p, e)
  {
    match e
    case Client(step) => Some(step)
    case Die(w) => if Worker(w) in p.store.calls then Some(Abandon(Worker(w))) else None
    case Erase(w, tx) => Some(Remove(p.workers[w].id, tx))
    case ReadBack(w, reachable, status) =>
      if reachable then Some(ReadForStatus(Worker(w), ReadId(p.workers[w].task.meta), status)) else None
    case WriteBack(w, tx) => Some(Write(Worker(w), tx))
    case _ => None
  }

  function NextStore(p: Plane, e: Move): System
    requires Enabled(p, e)
  {
    match StoreStep(p, e)
    case None => p.store
    case Some(step) => Interleaving.Take(p.store, step)
  }

  function NextPc(p: Plane, e: Move, pc: Pc): Pc {
    var records := p.store.db.records;
    match (e, pc)
    case (Receive(_, ev), _) => if ev.action == DELETE then Tearing(EventId(ev)) else Fetching(EventId(ev))
    case (DeleteActor(_, out), Tearing(id)) => if out.Done? then Erasing(id) else Waiting
    case (Erase(_, _), _) => Waiting
    case (Fetch(_, reachable), Fetching(id)) => if reachable && id in records then Preparing(records[id]) else Waiting
    case (Prepare(_, how), Preparing(task)) =>
      if how.GiveUp? then Waiting else if how.Report? then Reporting(task) else Creating(task)
    case (Create(_, out), Creating(task)) =>
      if out.Failed? then Reporting(task) else if ReadId(task.meta) in p.actors then Inspecting(task)
        else Activating(task)
    case (Inspect(_, reachable), Inspecting(task)) =>
      var id := ReadId(task.meta);
      if !reachable || id !in p.actors then Reporting(task)
      else if p.actors[id].Crashed? then Replacing(task)
      else if p.actors[id].Deleting? then Recreating(task, 0)
      else Activating(task)
    case (Replace(_, _), Replacing(task)) => Recreating(task, 0)
    case (Recreate(_, out, cancelled), Recreating(task, tries)) =>
      if cancelled || out.Failed? then Reporting(task)
      else if ReadId(task.meta) !in p.actors then Activating(task)
      else if tries + 1 < CREATE_RETRIES then Recreating(task, tries + 1)
      else Reporting(task)
    case (Activate(_, _), Activating(task)) => Reporting(task)
    case (ReadBack(_, reachable, _), Reporting(task)) =>
      if reachable && ReadId(task.meta) in records then Writing else Waiting
    case (WriteBack(_, _), _) => Waiting
    case _ => pc
  }

  function NextActors(p: Plane, e: Move): map<TaskId, ActorState>
    requires Enabled(p, e)
  {
    match e
    case DeleteActor(w, out) => Deleted(p, p.workers[w].id, out)
    case Create(w, out) => Made(p, ReadId(p.workers[w].task.meta), out)
    case Replace(w, out) => Deleted(p, ReadId(p.workers[w].task.meta), out)
    case Recreate(w, out, cancelled) => if cancelled then p.actors else Made(p, ReadId(p.workers[w].task.meta), out)
    case Activate(w, out) => Switched(p, p.workers[w].task, out)
    case ActorGone(id) => p.actors - {id}
    case ActorCrashes(id) => p.actors[id := Crashed]
    case _ => p.actors
  }

  function NextWorkers(p: Plane, e: Move): map<nat, Pc>
    requires Enabled(p, e)
  {
    match e
    case Client(_) => p.workers
    case ActorGone(_) => p.workers
    case ActorCrashes(_) => p.workers
    case Start(w) => p.workers[w := Waiting]
    case Die(w) => p.workers - {w}
    case _ => p.workers[e.w := NextPc(p, e, p.workers[e.w])]
  }

  function Take(p: Plane, e: Move): Plane
    requires Enabled(p, e)
  {
    Plane(NextStore(p, e), NextWorkers(p, e), NextActors(p, e))
  }

  predicate IsRun(p: Plane, es: seq<Move>)
    decreases |es|
  {
    es == [] || (Enabled(p, es[0]) && IsRun(Take(p, es[0]), es[1..]))
  }

  function After(p: Plane, es: seq<Move>): Plane
    requires IsRun(p, es)
    decreases |es|
  {
    if es == [] then p else After(Take(p, es[0]), es[1..])
  }

  // ---- safety with one worker at a time ----

  ghost predicate OneWorker(p: Plane) {
    forall v, w :: v in p.workers && w in p.workers ==> v == w
  }

  ghost predicate OneWorkerThroughout(p: Plane, es: seq<Move>)
    requires IsRun(p, es)
    decreases |es|
  {
    OneWorker(p) && (es != [] ==> OneWorkerThroughout(Take(p, es[0]), es[1..]))
  }

  predicate Live(p: Plane, id: TaskId) {
    id in p.actors && !p.actors[id].Deleting?
  }

  // No actor outlives its task record, except while it is being deleted.
  ghost predicate NoLeakedActor(p: Plane) {
    forall id :: Live(p, id) ==> id in p.store.db.records
  }

  predicate HasTask(pc: Pc) {
    pc.Preparing? || pc.Creating? || pc.Inspecting? || pc.Replacing? || pc.Recreating? || pc.Activating?
      || pc.Reporting?
  }

  ghost predicate WorkerOk(p: Plane, pc: Pc) {
    && (HasTask(pc) ==> pc.task.meta in p.store.db.records && OwnsKey(pc.task.meta, pc.task))
    && (pc.Erasing? ==> !Live(p, pc.id))
    && (pc.Tearing? || pc.Erasing? || pc.Fetching? ==> pc.id.atespace != "" && NoColon(pc.id.atespace))
  }

  ghost predicate Safe(p: Plane) {
    && Sound(p.store)
    && NoLeakedActor(p)
    && (forall w :: w in p.workers ==> WorkerOk(p, p.workers[w]))
  }

  // The store inside the plane only ever takes steps of the store system.
  lemma StoreStepIsAllowed(p: Plane, e: Move)
    requires Sound(p.store) && Enabled(p, e)
    ensures StoreStep(p, e).Some? ==> Allowed(p.store, StoreStep(p, e).value)
    ensures Sound(Take(p, e).store)
  {
    if StoreStep(p, e).Some? {
      StepKeepsSound(p.store, StoreStep(p, e).value);
    }
  }

  // Records vanish only when a worker erases the task it has just torn down.
  lemma RecordsVanishOnlyByErase(p: Plane, e: Move, id: TaskId)
    requires Safe(p) && Enabled(p, e)
    requires id in p.store.db.records && id !in Take(p, e).store.db.records
    ensures e.Erase? && p.workers[e.w].id == id && !Live(Take(p, e), id)
  {
    StoreStepIsAllowed(p, e);
    var step := StoreStep(p, e).value;
    OnlyRemoveTakesRecords(p.store, step, id);
    assert WorkerOk(p, p.workers[e.w]);
  }

  lemma StepKeepsActorsBacked(p: Plane, e: Move, id: TaskId)
    requires Safe(p) && OneWorker(p) && Enabled(p, e) && Live(Take(p, e), id)
    ensures id in Take(p, e).store.db.records
  {
    if id in p.store.db.records && id !in Take(p, e).store.db.records {
      RecordsVanishOnlyByErase(p, e, id);
    } else if !Live(p, id) {
      assert WorkerOk(p, p.workers[e.w]);
    }
  }

  predicate Moves(e: Move) {
    !(e.Client? || e.Start? || e.Die? || e.ActorGone? || e.ActorCrashes?)
  }

  lemma TaskHolderStaysOk(p: Plane, e: Move)
    requires Safe(p) && Enabled(p, e) && Moves(e) && HasTask(p.workers[e.w])
    ensures WorkerOk(Take(p, e), Take(p, e).workers[e.w])
  {
    var pc := p.workers[e.w];
    assert WorkerOk(p, pc);
    var next := NextPc(p, e, pc);
    assert !(next.Tearing? || next.Erasing? || next.Fetching?) && (HasTask(next) ==> next.task == pc.task);
    if pc.task.meta !in Take(p, e).store.db.records { RecordsVanishOnlyByErase(p, e, pc.task.meta); }
  }

  lemma MoverStaysOk(p: Plane, e: Move)
    requires Safe(p) && Enabled(p, e) && Moves(e)
    ensures WorkerOk(Take(p, e), Take(p, e).workers[e.w])
  {
    if HasTask(p.workers[e.w]) {
      TaskHolderStaysOk(p, e);
    } else {
      assert WorkerOk(p, p.workers[e.w]);
      assert HasTask(NextPc(p, e, p.workers[e.w])) ==> Take(p, e).store == p.store;
    }
  }

  lemma OthersStayOk(p: Plane, e: Move, w: nat)
    requires Safe(p) && Enabled(p, e) && !Moves(e) && w in p.workers && w in Take(p, e).workers
    ensures WorkerOk(Take(p, e), Take(p, e).workers[w])
  {
    assert WorkerOk(p, p.workers[w]);
    assert Take(p, e).workers[w] == p.workers[w];
  }

  lemma StepKeepsWorkerOk(p: Plane, e: Move, w: nat)
    requires Safe(p) && OneWorker(p) && Enabled(p, e) && w in Take(p, e).workers
    ensures WorkerOk(Take(p, e), Take(p, e).workers[w])
  {
    if Moves(e) {
      MoverStaysOk(p, e);
    } else if w in p.workers {
      OthersStayOk(p, e, w);
    }
  }

  lemma StepKeepsSafe(p: Plane, e: Move)
    requires Safe(p) && OneWorker(p) && Enabled(p, e)
    ensures Safe(Take(p, e))
  {
    StoreStepIsAllowed(p, e);
    forall id | Live(Take(p, e), id)
      ensures id in Take(p, e).store.db.records
    {
      StepKeepsActorsBacked(p, e, id);
    }
    forall w | w in Take(p, e).workers
      ensures WorkerOk(Take(p, e), Take(p, e).workers[w])
    {
      StepKeepsWorkerOk(p, e, w);
    }
  }

  // Whatever the clients do, whatever fails, however often the worker restarts.
  lemma {:induction false} OneWorkerLeaksNoActor(p: Plane, es: seq<Move>)
    requires Safe(p) && IsRun(p, es) && OneWorkerThroughout(p, es)
    ensures Safe(After(p, es)) && NoLeakedActor(After(p, es))
    decreases |es|
  {
    if es != [] {
      StepKeepsSafe(p, es[0]);
      OneWorkerLeaksNoActor(Take(p, es[0]), es[1..]);
    }
  }

  // An empty plane is safe, so every one-worker run from it is.
  lemma EmptyPlaneIsSafe()
    ensures Safe(EMPTY_PLANE) && OneWorker(EMPTY_PLANE)
  {
    EmptyStoreIsSoundAndExact();
  }

  // ---- exactly when an actor leaks, with any number of workers ----

  // The actor is created by this move, and its record is gone.
  predicate CreatesOrphan(p: Plane, e: Move)
    requires Enabled(p, e)
  {
    && (e.Create? || (e.Recreate? && !e.cancelled)) && Landed(e.out)
    && var id := ReadId(p.workers[e.w].task.meta);
    id !in p.actors && id !in p.store.db.records
  }

  // The record is erased by this move, and its actor is live.
  predicate ErasesLive(p: Plane, e: Move)
    requires Enabled(p, e)
  {
    e.Erase? && Landed(e.tx) && Live(p, ReadId(p.workers[e.w].id))
  }

  predicate Leaks(p: Plane, e: Move)
    requires Enabled(p, e)
  {
    CreatesOrphan(p, e) || ErasesLive(p, e)
  }

  predicate MakesActor(e: Move) {
    e.Create? || e.Recreate?
  }

  lemma RecordsOnlyGoByErase(p: Plane, e: Move, id: TaskId)
    requires Enabled(p, e) && id in p.store.db.records
    ensures id !in Take(p, e).store.db.records <==> e.Erase? && Landed(e.tx) && ReadId(p.workers[e.w].id) == id
  {
  }

  lemma NewActors(p: Plane, e: Move, id: TaskId)
    requires Enabled(p, e) && Live(Take(p, e), id) && !Live(p, id)
    ensures MakesActor(e) && Landed(e.out) && (e.Recreate? ==> !e.cancelled)
    ensures id !in p.actors && id == ReadId(p.workers[e.w].task.meta) && Take(p, e).store == p.store
  {
  }

  // A move takes a plane without leaked actors to one with some exactly if it creates an
  // actor whose record is gone or erases a record whose actor is live.
  lemma ActorsLeakOnlyThatWay(p: Plane, e: Move)
    requires Sound(p.store) && NoLeakedActor(p) && Enabled(p, e)
    ensures NoLeakedActor(Take(p, e)) <==> !Leaks(p, e)
  {
    StoreStepIsAllowed(p, e);
    var t := Take(p, e);
    if CreatesOrphan(p, e) {
      assert Live(t, ReadId(p.workers[e.w].task.meta));
    } else if ErasesLive(p, e) {
      RecordsOnlyGoByErase(p, e, ReadId(p.workers[e.w].id));
      assert Live(t, ReadId(p.workers[e.w].id));
    } else {
      forall id | Live(t, id)
        ensures id in t.store.db.records
      {
        if Live(p, id) { RecordsOnlyGoByErase(p, e, id); } else { NewActors(p, e, id); }
      }
    }
  }

  ghost predicate NeverLeaked(p: Plane, es: seq<Move>)
    requires IsRun(p, es)
    decreases |es|
  {
    NoLeakedActor(p) && (es != [] ==> NeverLeaked(Take(p, es[0]), es[1..]))
  }

  predicate NoMoveLeaks(p: Plane, es: seq<Move>)
    requires IsRun(p, es)
    decreases |es|
  {
    es != [] ==> !Leaks(p, es[0]) && NoMoveLeaks(Take(p, es[0]), es[1..])
  }

  // So no actor leaks in a run exactly when no move of it is such a move.
  lemma {:induction false} RunsLeakExactlyBySuchMoves(p: Plane, es: seq<Move>)
    requires Sound(p.store) && NoLeakedActor(p) && IsRun(p, es)
    ensures NeverLeaked(p, es) <==> NoMoveLeaks(p, es)
    decreases |es|
  {
    if es != [] {
      ActorsLeakOnlyThatWay(p, es[0]);
      StoreStepIsAllowed(p, es[0]);
      if !Leaks(p, es[0]) { RunsLeakExactlyBySuchMoves(Take(p, es[0]), es[1..]); }
    }
  }

  // One worker at a time never makes such a move.
  lemma {:induction false} OneWorkerMakesNoLeak(p: Plane, es: seq<Move>)
    requires Safe(p) && IsRun(p, es) && OneWorkerThroughout(p, es)
    ensures NeverLeaked(p, es) && NoMoveLeaks(p, es)
    decreases |es|
  {
    if es != [] {
      StepKeepsSafe(p, es[0]);
      ActorsLeakOnlyThatWay(p, es[0]);
      OneWorkerMakesNoLeak(Take(p, es[0]), es[1..]);
    }
  }

  // The plane refines the store system: its runs are store runs with idling.
  lemma {:induction false} PlaneRunsAreStoreRuns(p: Plane, es: seq<Move>) returns (steps: seq<Interleaving.Step>)
    requires Sound(p.store) && IsRun(p, es)
    ensures Interleaving.IsRun(p.store, steps) && Interleaving.After(p.store, steps) == After(p, es).store
    decreases |es|
  {
    if es == [] {
      steps := [];
    } else {
      StoreStepIsAllowed(p, es[0]);
      var rest := PlaneRunsAreStoreRuns(Take(p, es[0]), es[1..]);
      match StoreStep(p, es[0])
      case None => steps := rest;
      case Some(step) =>
        steps := [step] + rest;
        assert steps[1..] == rest;
    }
  }

  // ---- two runs that show what the hypotheses are for ----

  lemma Prepend(p: Plane, e: Move, rest: seq<Move>)
    requires Enabled(p, e) && IsRun(Take(p, e), rest)
    ensures IsRun(p, [e] + rest) && After(p, [e] + rest) == After(Take(p, e), rest)
  {
    assert ([e] + rest)[1..] == rest;
  }

  lemma Prepend2(p: Plane, d: Move, e: Move, rest: seq<Move>)
    requires Enabled(p, d) && Enabled(Take(p, d), e) && IsRun(Take(Take(p, d), e), rest)
    ensures IsRun(p, [d, e] + rest) && After(p, [d, e] + rest) == After(Take(Take(p, d), e), rest)
  {
    Prepend(Take(p, d), e, rest);
    Prepend(p, d, [e] + rest);
    assert [d] + ([e] + rest) == [d, e] + rest;
  }

  lemma RunInTwoParts(p: Plane, first: seq<Move>, second: seq<Move>)
    requires IsRun(p, first) && IsRun(After(p, first), second)
    ensures IsRun(p, first + second) && After(p, first + second) == After(After(p, first), second)
    decreases |first|
  {
    if first == [] {
      assert first + second == second;
    } else {
      assert (first + second)[1..] == first[1..] + second;
      RunInTwoParts(Take(p, first[0]), first[1..], second);
    }
  }

  // Nothing fails in this move, and if a worker starts it is worker 0.
  predicate GoesWell(e: Move) {
    match e
    case Client(step) => (step.Save? ==> step.tx.Done?) && (step.Write? ==> step.tx.Done?) && !step.Abandon?
    case Start(w) => w == 0
    case Die(_) => false
    case Receive(_, _) => true
    case DeleteActor(_, out) => out.Done?
    case Erase(_, tx) => tx.Done?
    case Fetch(_, reachable) => reachable
    case Prepare(_, how) => how.GoOn?
    case Create(_, out) => out.Done?
    case Inspect(_, reachable) => reachable
    case Replace(_, out) => out.Done?
    case Recreate(_, out, cancelled) => out.Done? && !cancelled
    case Activate(_, out) => out.Done?
    case ReadBack(_, reachable, _) => reachable
    case WriteBack(_, tx) => tx.Done?
    case ActorGone(_) => true
    case ActorCrashes(_) => false
  }

  predicate AllGoWell(es: seq<Move>) {
    forall i :: 0 <= i < |es| ==> GoesWell(es[i])
  }

  lemma {:induction false} OnlyWorkerZero(p: Plane, es: seq<Move>)
    requires IsRun(p, es) && AllGoWell(es) && p.workers.Keys <= {0}
    ensures OneWorkerThroughout(p, es)
    decreases |es|
  {
    if es != [] {
      assert GoesWell(es[0]);
      OnlyWorkerZero(Take(p, es[0]), es[1..]);
    }
  }

  predicate Savable(task: Task) {
    OwnsKey(task.meta, task) && task.meta.name != "" && WithDefaults(task) == task
  }

  // Worker 0, the only one, has read the task and is about to create its actor.
  predicate AboutToCreate(p: Plane, task: Task) {
    && p.workers == map[0 := Creating(task)] && p.actors == map[] && p.store.calls == map[]
    && task.meta in p.store.db.records && p.store.db.records[task.meta] == task
  }

  lemma CreationIsReached(task: Task) returns (es: seq<Move>)
    requires Savable(task)
    ensures IsRun(EMPTY_PLANE, es) && AboutToCreate(After(EMPTY_PLANE, es), task) && AllGoWell(es)
  {
    var e1, e2 := Move.Client(Save(task, 0, Done)), Start(0);
    var p2 := Take(Take(EMPTY_PLANE, e1), e2);
    assert p2.workers == map[0 := Waiting] && p2.store.db.records == map[task.meta := task] && p2.actors == map[];
    var rest := CreationFollows(p2, task);
    Prepend2(EMPTY_PLANE, e1, e2, rest);
    es := [e1, e2] + rest;
  }

  lemma CreationFollows(p: Plane, task: Task) returns (es: seq<Move>)
    requires Savable(task) && p.workers == map[0 := Waiting] && p.actors == map[] && p.store.calls == map[]
    requires task.meta in p.store.db.records && p.store.db.records[task.meta] == task
    ensures IsRun(p, es) && AboutToCreate(After(p, es), task) && AllGoWell(es)
  {
    var e3 := Move.Receive(0, Event(task.meta.atespace, task.meta.name, RECONCILE));
    var e4, e5 := Fetch(0, true), Prepare(0, GoOn);
    assert EventId(e3.ev) == task.meta;
    var p4 := Take(Take(p, e3), e4);
    assert p4.workers == map[0 := Preparing(task)] && p4.store == p.store && p4.actors == map[];
    Prepend(p4, e5, []);
    Prepend2(p, e3, e4, [e5]);
    es := [e3, e4] + [e5];
  }

  // Two workers: one erases the task while the other is about to create its actor.
  lemma TwoWorkersCanLeakAnActor(task: Task) returns (es: seq<Move>)
    requires Savable(task)
    ensures IsRun(EMPTY_PLANE, es) && Live(After(EMPTY_PLANE, es), task.meta)
    ensures task.meta !in After(EMPTY_PLANE, es).store.db.records
  {
    var before := CreationIsReached(task);
    var p0 := After(EMPTY_PLANE, before);
    var after := LeakByTwo(p0, task);
    RunInTwoParts(EMPTY_PLANE, before, after);
    es := before + after;
  }

  lemma LeakByTwo(p: Plane, task: Task) returns (es: seq<Move>)
    requires Savable(task) && AboutToCreate(p, task)
    ensures IsRun(p, es) && Live(After(p, es), task.meta) && task.meta !in After(p, es).store.db.records
  {
    var id := task.meta;
    var e1, e2 := Start(1), Move.Receive(1, Event(id.atespace, id.name, DELETE));
    var e3, e4, e5 := DeleteActor(1, Done), Erase(1, Done), Create(0, Done);
    var p2 := Take(Take(p, e1), e2);
    assert EventId(e2.ev) == id;
    assert p2.workers == map[0 := Creating(task), 1 := Tearing(id)] && p2.actors == map[] && p2.store == p.store;
    var p4 := Take(Take(p2, e3), e4);
    assert p4.workers == map[0 := Creating(task), 1 := Waiting] && p4.actors == map[];
    assert id !in p4.store.db.records;
    var p5 := Take(p4, e5);
    assert Live(p5, id) && id !in p5.store.db.records;
    Prepend(p4, e5, []);
    Prepend2(p2, e3, e4, [e5]);
    Prepend2(p, e1, e2, [e3, e4] + [e5]);
    es := [e1, e2] + ([e3, e4] + [e5]);
  }

  // The run ends with the worker's read for its status write, a saved suspend, and the
  // worker's write.
  predicate EndsInOverwrite(es: seq<Move>, task: Task, status: Status) {
    && |es| >= 3
    && es[|es| - 3] == ReadBack(0, true, status)
    && es[|es| - 2] == Move.Client(Save(task.(spec := task.spec.(suspend := true)), 1, Done))
    && es[|es| - 1] == WriteBack(0, Done)
  }

  predicate NotSuspended(p: Plane, id: TaskId) {
    id in p.store.db.records && !p.store.db.records[id].spec.suspend
  }

  // One worker throughout, nothing failing: a suspend saved while the worker's status
  // write is between its round trips is overwritten by that write.
  lemma RedisCanLoseASuspend(task: Task, w: Reconciler.World) returns (es: seq<Move>)
    requires Savable(task) && !task.spec.suspend && Reconciler.NothingFails(w)
    ensures IsRun(EMPTY_PLANE, es) && OneWorkerThroughout(EMPTY_PLANE, es) && AllGoWell(es)
    ensures EndsInOverwrite(es, task, Reconciler.Processed(task, w).status)
    ensures NotSuspended(After(EMPTY_PLANE, es), task.meta)
  {
    es := SuspendCanBeLost(task, Reconciler.Processed(task, w).status);
    OnlyWorkerZero(EMPTY_PLANE, es);
  }

  lemma SuspendCanBeLost(task: Task, status: Status) returns (es: seq<Move>)
    requires Savable(task) && !task.spec.suspend
    ensures IsRun(EMPTY_PLANE, es) && AllGoWell(es) && EndsInOverwrite(es, task, status)
    ensures NotSuspended(After(EMPTY_PLANE, es), task.meta)
  {
    var before := CreationIsReached(task);
    var after := SuspendLost(After(EMPTY_PLANE, before), task, status);
    RunInTwoParts(EMPTY_PLANE, before, after);
    es := before + after;
  }

  lemma SuspendLost(p: Plane, task: Task, status: Status) returns (es: seq<Move>)
    requires Savable(task) && AboutToCreate(p, task) && !task.spec.suspend
    ensures IsRun(p, es) && AllGoWell(es) && EndsInOverwrite(es, task, status) && NotSuspended(After(p, es), task.meta)
  {
    var d := ActorActivated(p, task);
    var e := StatusLost(After(p, d), task, status);
    RunInTwoParts(p, d, e);
    es := d + e;
  }

  lemma StatusLost(p: Plane, task: Task, status: Status) returns (es: seq<Move>)
    requires Savable(task) && !task.spec.suspend && p.workers == map[0 := Reporting(task)] && p.store.calls == map[]
    requires task.meta in p.store.db.records && p.store.db.records[task.meta] == task
    ensures IsRun(p, es) && AllGoWell(es) && EndsInOverwrite(es, task, status) && NotSuspended(After(p, es), task.meta)
  {
    var read := ReadBack(0, true, status);
    var t := StatusRead(p, task, status);
    var rest := SuspendOverwritten(t, task, status);
    Prepend(p, read, rest);
    es := [read] + rest;
  }

  lemma ActorActivated(p: Plane, task: Task) returns (es: seq<Move>)
    requires Savable(task) && AboutToCreate(p, task)
    ensures IsRun(p, es) && AllGoWell(es)
    ensures After(p, es).workers == map[0 := Reporting(task)] && After(p, es).store == p.store
  {
    assert ReadId(task.meta) == task.meta;
    es := [Create(0, Done), Activate(0, Done)];
    Prepend2(p, es[0], es[1], []);
    assert es == [es[0], es[1]] + [];
  }

  lemma StatusRead(p: Plane, task: Task, status: Status) returns (t: Plane)
    requires Savable(task) && p.workers == map[0 := Reporting(task)] && p.store.calls == map[]
    requires task.meta in p.store.db.records && p.store.db.records[task.meta] == task
    ensures var e := ReadBack(0, true, status); Enabled(p, e) && t == Take(p, e)
    ensures t.workers == map[0 := Writing]
    ensures t.store.calls == map[Interleaving.Worker(0) := StatusCall(task.meta, task.(status := status))]
  {
    assert ReadId(task.meta) == task.meta;
    t := Take(p, ReadBack(0, true, status));
  }

  lemma SuspendOverwritten(p: Plane, task: Task, status: Status) returns (es: seq<Move>)
    requires Savable(task) && !task.spec.suspend && p.workers == map[0 := Writing]
    requires p.store.calls == map[Interleaving.Worker(0) := StatusCall(task.meta, task.(status := status))]
    ensures es == [Move.Client(Save(task.(spec := task.spec.(suspend := true)), 1, Done)), WriteBack(0, Done)]
    ensures IsRun(p, es) && NotSuspended(After(p, es), task.meta)
  {
    var e4, e5 := Move.Client(Save(task.(spec := task.spec.(suspend := true)), 1, Done)), WriteBack(0, Done);
    var p4 := Take(p, e4);
    assert p4.workers == p.workers && p4.store.calls == p.store.calls;
    var p5 := Take(p4, e5);
    assert p5.store.db.records[task.meta] == task.(status := status);
    Prepend2(p, e4, e5, []);
    es := [e4, e5] + [];
  }
}
