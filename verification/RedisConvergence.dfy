// One worker over the Redis store, whose status write is two round trips. Clients may
// fail in any way; the worker's own calls go well.
module RedisConvergence {
  import opened Api
  import opened Keys
  import opened RedisStore
  import opened Interleaving
  import opened Reconciler

  // Where the worker stands; as in Convergence, with the status write split in two.
  datatype Pc =
    | Waiting
    | Tearing(id: TaskId)
    | Erasing(id: TaskId)
    | Fetching(id: TaskId)
    | Ensuring(task: Task, outcome: Status)
    | Activating(task: Task, outcome: Status)
    | Reporting(task: Task, outcome: Status)
    | Writing(task: Task, outcome: Status)

  // The worker's group sees the events from `since` on and has received those before
  // `cursor`. `wanted` records the suspend flag each task was last saved with since then.
  datatype Plane = Plane(store: System, since: nat, cursor: nat, worker: Pc,
                         actors: map<TaskId, bool>, wanted: map<TaskId, bool>)

  datatype Move =
    | Request(step: Interleaving.Step)
    | Receive
    | DeleteActor
    | Erase
    | Fetch(w: World)
    | EnsureActor
    | Activate
    | ReadBack
    | WriteBack

  const ME: Caller := Caller.Worker(0)

  // The group has just been created, at the tail of the stream.
  function Begun(store: System, actors: map<TaskId, bool>): Plane {
    Plane(store, |store.db.stream|, |store.db.stream|, Waiting, actors, map[])
  }

  // Saves, and the two halves of delete marks; a client may also give up in between.
  predicate FromRequest(step: Interleaving.Step) {
    match step
    case Save(_, _, _) => true
    case ReadForMark(c, _) => c != ME
    case Write(c, _) => c != ME
    case Abandon(c) => c != ME
    case ReadForStatus(_, _, _) => false
    case Remove(_, _) => false
  }

  function ReportRead(p: Plane): Interleaving.Step
    requires p.worker.Reporting?
  {
    ReadForStatus(ME, p.worker.task.meta, p.worker.outcome)
  }

  predicate Enabled(p: Plane, m: Move) {
    match m
    case Request(step) => FromRequest(step) && Allowed(p.store, step)
    case Receive => p.worker.Waiting? && p.cursor < |p.store.db.stream|
    case DeleteActor => p.worker.Tearing?
    case Erase => p.worker.Erasing? && Allowed(p.store, Remove(p.worker.id, Done))
    case Fetch(w) => p.worker.Fetching? && NothingFails(w)
    case EnsureActor => p.worker.Ensuring?
    case Activate => p.worker.Activating?
    case ReadBack => p.worker.Reporting? && Allowed(p.store, ReportRead(p))
    case WriteBack => p.worker.Writing? && Allowed(p.store, Write(ME, Done))
  }

  predicate Saves(step: Interleaving.Step) {
    step.Save? && Landed(step.tx) && step.task.meta.name != ""
  }

  function Take(p: Plane, m: Move): Plane
    requires Enabled(p, m)
  {
    match m
    case Request(step) =>
      p.(store := Interleaving.Take(p.store, step),
         wanted := if Saves(step) then p.wanted[WithDefaults(step.task).meta := step.task.spec.suspend] else p.wanted)
    case Receive =>
      var ev := p.store.db.stream[p.cursor];
      p.(cursor := p.cursor + 1, worker := if ev.action == DELETE then Tearing(EventId(ev)) else Fetching(EventId(ev)))
    case DeleteActor => p.(actors := p.actors - {p.worker.id}, worker := Erasing(p.worker.id))
    case Erase => p.(store := Interleaving.Take(p.store, Remove(p.worker.id, Done)), worker := Waiting)
    case Fetch(w) =>
      var records := p.store.db.records;
      p.(worker := if p.worker.id in records then Ensuring(records[p.worker.id],
        Processed(records[p.worker.id], w).status) else Waiting)
    case EnsureActor =>
      var k := p.worker.task.meta;
      p.(actors := if k in p.actors then p.actors
        else p.actors[k := false], worker := Activating(p.worker.task, p.worker.outcome))
    case Activate =>
      p.(actors := p.actors[p.worker.task.meta := !p.worker.task.spec.suspend],
        worker := Reporting(p.worker.task, p.worker.outcome))
    case ReadBack =>
      if p.worker.task.meta in p.store.db.records then
        p.(store := Interleaving.Take(p.store, ReportRead(p)), worker := Writing(p.worker.task, p.worker.outcome))
      else p.(worker := Waiting)
    case WriteBack => p.(store := Interleaving.Take(p.store, Write(ME, Done)), worker := Waiting)
  }

  predicate IsRun(p: Plane, ms: seq<Move>)
    decreases |ms|
  {
    ms == [] || (Enabled(p, ms[0]) && IsRun(Take(p, ms[0]), ms[1..]))
  }

  function After(p: Plane, ms: seq<Move>): Plane
    requires IsRun(p, ms)
    decreases |ms|
  {
    if ms == [] then p else After(Take(p, ms[0]), ms[1..])
  }

  // ---- the goal ----

  predicate Quiet(p: Plane) {
    p.cursor == |p.store.db.stream| && p.worker.Waiting?
  }

  predicate Settled(p: Plane, k: TaskId, suspend: bool) {
    k in p.store.db.records && k in p.actors && p.actors[k] == !suspend
      && AsDesired(p.store.db.records[k].status, suspend)
  }

  // An event for k was published since the group was created.
  ghost predicate Announced(p: Plane, k: TaskId) {
    exists i :: p.since <= i < |p.store.db.stream| && EventId(p.store.db.stream[i]) == k
  }

  // k and its actor are as the stored spec asks, or neither is there.
  predicate Matched(p: Plane, k: TaskId) {
    && (k in p.actors <==> k in p.store.db.records)
    && (k in p.store.db.records ==> Settled(p, k, p.store.db.records[k].spec.suspend))
  }

  ghost predicate Converged(p: Plane) {
    forall k :: Announced(p, k) ==> Matched(p, k)
  }

  // ---- the invariant ----

  ghost predicate EventComing(p: Plane, k: TaskId) {
    exists i :: p.cursor <= i < |p.store.db.stream| && EventId(p.store.db.stream[i]) == k
  }

  predicate HoldsTask(pc: Pc) {
    pc.Ensuring? || pc.Activating? || pc.Reporting? || pc.Writing?
  }

  predicate HoldsId(pc: Pc) {
    pc.Tearing? || pc.Erasing? || pc.Fetching?
  }

  predicate IsFor(pc: Pc, k: TaskId) {
    (HoldsId(pc) && pc.id == k) || (HoldsTask(pc) && pc.task.meta == k)
  }

  // The record the worker is about to write.
  function Held(p: Plane): Task
    requires ME in p.store.calls
  {
    p.store.calls[ME].task
  }

  // The worker has yet to read k, or what it carries and will write back agrees with the
  // record's suspend flag.
  predicate Handling(p: Plane, k: TaskId)
    requires k in p.store.db.records
  {
    var suspend := p.store.db.records[k].spec.suspend;
    && IsFor(p.worker, k)
    && (HoldsTask(p.worker) ==> p.worker.task.spec.suspend == suspend)
    && (p.worker.Writing? ==> ME in p.store.calls && Held(p).spec.suspend == suspend)
  }

  ghost predicate Accounted(p: Plane, k: TaskId)
    requires k in p.store.db.records
  {
    || EventComing(p, k)
    || Handling(p, k)
    || (!IsFor(p.worker, k) && Settled(p, k, p.store.db.records[k].spec.suspend))
  }

  ghost predicate WorkerOk(p: Plane) {
    var pc := p.worker;
    && (HoldsId(pc) ==> Filed(pc.id) && Announced(p, pc.id))
    && (HoldsTask(pc) ==> Announced(p, pc.task.meta))
    && (HoldsTask(pc) ==> pc.task.meta in p.store.db.records && AsDesired(pc.outcome, pc.task.spec.suspend))
    && (HoldsTask(pc) && !pc.Ensuring? ==> pc.task.meta in p.actors)
    && (pc.Reporting? || pc.Writing? ==> p.actors[pc.task.meta] == !pc.task.spec.suspend)
    && (pc.Erasing? ==> pc.id !in p.actors)
  }

  ghost predicate OthersMark(s: System) {
    forall c :: c in s.calls && c != ME ==> s.calls[c].MarkCall?
  }

  // The worker has a call under way exactly while it is writing; all others are marks.
  ghost predicate CallOk(p: Plane) {
    && OthersMark(p.store)
    && (ME in p.store.calls <==> p.worker.Writing?)
    && (p.worker.Writing? ==>
          p.store.calls[ME].StatusCall? && p.store.calls[ME].id == p.worker.task.meta
            && Held(p).status == p.worker.outcome)
  }

  predicate Filed(id: TaskId) {
    id.atespace != "" && NoColon(id.atespace)
  }

  ghost predicate StreamOk(p: Plane) {
    && p.since <= p.cursor <= |p.store.db.stream|
    && forall i :: p.since <= i < |p.store.db.stream| ==> Filed(EventId(p.store.db.stream[i]))
  }

  ghost predicate Shape(p: Plane) {
    && Sound(p.store) && StreamOk(p) && WorkerOk(p) && CallOk(p)
    && (forall k :: k in p.actors ==> k in p.store.db.records)
  }

  ghost predicate Good(p: Plane) {
    Shape(p) && forall k :: k in p.store.db.records && Announced(p, k) ==> Accounted(p, k)
  }

  // ---- what a client's step does to the store ----

  // Nothing, or one record is written and an event for it published, in one go.
  ghost predicate Touches(s: System, t: System, k: TaskId, ev: Event) {
    && Filed(k) && EventId(ev) == k && t.db.stream == s.db.stream + [ev]
    && k in t.db.records && t.db.records == s.db.records[k := t.db.records[k]]
  }

  lemma ClientEffect(s: System, step: Interleaving.Step) returns (k: TaskId, ev: Event)
    requires Sound(s) && OthersMark(s) && Allowed(s, step) && FromRequest(step)
    ensures var t := Interleaving.Take(s, step);
            && ((ME in t.calls <==> ME in s.calls) && (ME in s.calls ==> t.calls[ME] == s.calls[ME]))
            && ((t.db.records == s.db.records && t.db.stream == s.db.stream && !Saves(step)) || Touches(s, t, k, ev))
            && (Saves(step) ==> k == WithDefaults(step.task).meta && t.db.records[k].spec == step.task.spec)
            && (!Saves(step) ==> ev.action == DELETE)
  {
    k, ev := TaskId("", ""), Event("", "", DELETE);
    match step {
      case Save(task, _, _) =>
        if Saves(step) {
          k := WithDefaults(task).meta;
          ev := Event(k.atespace, k.name, RECONCILE);
        }
      case Write(c, tx) =>
        assert OwnsKey(s.calls[c].id, s.calls[c].task) && s.calls[c].MarkCall?;
        k := s.calls[c].id;
        ev := Event(k.atespace, k.name, DELETE);
      case ReadForMark(c, _) =>
      case Abandon(c) =>
    }
  }

  lemma ClientKeepsOthersMark(s: System, step: Interleaving.Step)
    requires OthersMark(s) && Allowed(s, step) && FromRequest(step)
    ensures OthersMark(Interleaving.Take(s, step))
  {
  }

  // ---- each step keeps the shape ----

  lemma StaysAnnounced(p: Plane, t: Plane, k: TaskId)
    requires t.since == p.since && p.store.db.stream <= t.store.db.stream && Announced(p, k)
    ensures Announced(t, k)
  {
    var i :| p.since <= i < |p.store.db.stream| && EventId(p.store.db.stream[i]) == k;
    assert t.store.db.stream[i] == p.store.db.stream[i];
  }

  lemma RequestKeepsWorkerOk(p: Plane, step: Interleaving.Step)
    requires Shape(p) && Enabled(p, Request(step))
    ensures WorkerOk(Take(p, Request(step)))
  {
    var touched, ev := ClientEffect(p.store, step);
    if HoldsId(p.worker) { StaysAnnounced(p, Take(p, Request(step)), p.worker.id); }
    if HoldsTask(p.worker) { StaysAnnounced(p, Take(p, Request(step)), p.worker.task.meta); }
  }

  lemma RequestKeepsStreamOk(p: Plane, step: Interleaving.Step)
    requires Shape(p) && Enabled(p, Request(step))
    ensures StreamOk(Take(p, Request(step))) && CallOk(Take(p, Request(step)))
    ensures p.store.db.records.Keys <= Take(p, Request(step)).store.db.records.Keys
  {
    var touched, ev := ClientEffect(p.store, step);
    ClientKeepsOthersMark(p.store, step);
  }

  lemma RequestKeepsShape(p: Plane, step: Interleaving.Step)
    requires Shape(p) && Enabled(p, Request(step))
    ensures Shape(Take(p, Request(step)))
  {
    RequestKeepsWorkerOk(p, step);
    RequestKeepsStreamOk(p, step);
    StepKeepsSound(p.store, step);
  }

  lemma ReceiveKeepsShape(p: Plane)
    requires Shape(p) && Enabled(p, Receive)
    ensures Shape(Take(p, Receive))
  {
  }

  lemma DeleteActorKeepsShape(p: Plane)
    requires Shape(p) && Enabled(p, DeleteActor)
    ensures Shape(Take(p, DeleteActor))
  {
  }

  lemma EraseKeepsShape(p: Plane)
    requires Shape(p) && Enabled(p, Erase)
    ensures Shape(Take(p, Erase)) && Take(p, Erase).store.db.records == p.store.db.records - {p.worker.id}
  {
    StepKeepsSound(p.store, Remove(p.worker.id, Done));
    assert ReadId(p.worker.id) == p.worker.id;
  }

  lemma FetchKeepsShape(p: Plane, w: World)
    requires Shape(p) && Enabled(p, Fetch(w))
    ensures Shape(Take(p, Fetch(w)))
  {
    if p.worker.id in p.store.db.records {
      assert OwnsKey(p.worker.id, p.store.db.records[p.worker.id]);
      SuccessReachesDesiredPhase(p.store.db.records[p.worker.id], w);
    }
  }

  lemma SubstrateKeepsShape(p: Plane, m: Move)
    requires Shape(p) && Enabled(p, m) && (m.EnsureActor? || m.Activate?)
    ensures Shape(Take(p, m))
  {
  }

  lemma ReadBackHolds(p: Plane)
    requires Shape(p) && Enabled(p, ReadBack)
    ensures var t, k := Take(p, ReadBack), p.worker.task.meta;
            t.store.db == p.store.db && t.worker == Writing(p.worker.task, p.worker.outcome)
            && t.store.calls == p.store.calls[ME := StatusCall(k, p.store.db.records[k].(status := p.worker.outcome))]
  {
    assert ReadId(p.worker.task.meta) == p.worker.task.meta;
  }

  lemma ReadBackKeepsShape(p: Plane)
    requires Shape(p) && Enabled(p, ReadBack)
    ensures Shape(Take(p, ReadBack))
  {
    ReadBackHolds(p);
    StepKeepsSound(p.store, ReportRead(p));
  }

  lemma WriteBackStores(p: Plane)
    requires Shape(p) && Enabled(p, WriteBack)
    ensures var t := Take(p, WriteBack);
            && t.store.db == p.store.db.(records := p.store.db.records[p.worker.task.meta := Held(p)])
            && t.store.calls == p.store.calls - {ME}
  {
  }

  lemma WriteBackKeepsShape(p: Plane)
    requires Shape(p) && Enabled(p, WriteBack)
    ensures Shape(Take(p, WriteBack))
  {
    WriteBackStores(p);
    StepKeepsSound(p.store, Write(ME, Done));
  }

  lemma StepKeepsShape(p: Plane, m: Move)
    requires Shape(p) && Enabled(p, m)
    ensures Shape(Take(p, m))
  {
    match m
    case Request(step) => RequestKeepsShape(p, step);
    case Receive => ReceiveKeepsShape(p);
    case DeleteActor => DeleteActorKeepsShape(p);
    case Erase => EraseKeepsShape(p);
    case Fetch(w) => FetchKeepsShape(p, w);
    case EnsureActor => SubstrateKeepsShape(p, m);
    case Activate => SubstrateKeepsShape(p, m);
    case ReadBack => ReadBackKeepsShape(p);
    case WriteBack => WriteBackKeepsShape(p);
  }

  // ---- each step keeps every record accounted for ----

  lemma EventsStayComing(p: Plane, t: Plane, k: TaskId)
    requires t.cursor == p.cursor && p.store.db.stream <= t.store.db.stream && EventComing(p, k)
    ensures EventComing(t, k)
  {
    var i :| p.cursor <= i < |p.store.db.stream| && EventId(p.store.db.stream[i]) == k;
    assert t.store.db.stream[i] == p.store.db.stream[i];
  }

  lemma AnnouncedBefore(p: Plane, step: Interleaving.Step, k: TaskId, ev: Event, touched: TaskId)
    requires Enabled(p, Request(step)) && Announced(Take(p, Request(step)), k)
    requires var t := Interleaving.Take(p.store, step);
             t.db.stream == p.store.db.stream || (Touches(p.store, t, touched, ev) && touched != k)
    ensures Announced(p, k)
  {
    var t := Take(p, Request(step));
    var i :| p.since <= i < |t.store.db.stream| && EventId(t.store.db.stream[i]) == k;
    assert i < |p.store.db.stream| && t.store.db.stream[i] == p.store.db.stream[i];
  }

  lemma RequestKeepsAccounted(p: Plane, step: Interleaving.Step, k: TaskId)
    requires Good(p) && Enabled(p, Request(step))
    requires k in Take(p, Request(step)).store.db.records && Announced(Take(p, Request(step)), k)
    ensures Accounted(Take(p, Request(step)), k)
  {
    var t := Take(p, Request(step));
    var touched, ev := ClientEffect(p.store, step);
    if Touches(p.store, t.store, touched, ev) && touched == k {
      assert t.store.db.stream[|p.store.db.stream|] == ev;
      assert EventComing(t, k);
    } else {
      AnnouncedBefore(p, step, k, ev, touched);
      assert t.store.db.records[k] == p.store.db.records[k] && Accounted(p, k);
      if EventComing(p, k) { EventsStayComing(p, t, k); }
    }
  }

  lemma ReceiveTakesOrLeaves(p: Plane, k: TaskId)
    requires Enabled(p, Receive) && EventComing(p, k)
    ensures EventComing(Take(p, Receive), k) || (HoldsId(Take(p, Receive).worker) && Take(p, Receive).worker.id == k)
  {
    var i :| p.cursor <= i < |p.store.db.stream| && EventId(p.store.db.stream[i]) == k;
    assert i > p.cursor ==> EventComing(Take(p, Receive), k);
  }

  lemma ReceiveKeepsAccounted(p: Plane, k: TaskId)
    requires Shape(p) && Enabled(p, Receive) && k in p.store.db.records && Accounted(p, k)
    ensures Accounted(Take(p, Receive), k)
  {
    if EventComing(p, k) { ReceiveTakesOrLeaves(p, k); }
  }

  lemma DeleteActorKeepsAccounted(p: Plane, k: TaskId)
    requires Shape(p) && Enabled(p, DeleteActor) && k in p.store.db.records && Accounted(p, k)
    ensures Accounted(Take(p, DeleteActor), k)
  {
    if EventComing(p, k) { EventsStayComing(p, Take(p, DeleteActor), k); }
  }

  lemma EraseKeepsAccounted(p: Plane, k: TaskId)
    requires Shape(p) && Enabled(p, Erase) && k in Take(p, Erase).store.db.records && k in p.store.db.records
             && Accounted(p, k)
    ensures Accounted(Take(p, Erase), k)
  {
    EraseKeepsShape(p);
    if EventComing(p, k) { EventsStayComing(p, Take(p, Erase), k); }
  }

  lemma FetchKeepsAccounted(p: Plane, w: World, k: TaskId)
    requires Shape(p) && Enabled(p, Fetch(w)) && k in p.store.db.records && Accounted(p, k)
    ensures Accounted(Take(p, Fetch(w)), k)
  {
    if EventComing(p, k) { EventsStayComing(p, Take(p, Fetch(w)), k); }
    if p.worker.id in p.store.db.records { assert OwnsKey(p.worker.id, p.store.db.records[p.worker.id]); }
  }

  lemma EnsureActorKeepsAccounted(p: Plane, k: TaskId)
    requires Shape(p) && Enabled(p, EnsureActor) && k in p.store.db.records && Accounted(p, k)
    ensures Accounted(Take(p, EnsureActor), k)
  {
    if EventComing(p, k) { EventsStayComing(p, Take(p, EnsureActor), k); }
  }

  lemma ActivateKeepsAccounted(p: Plane, k: TaskId)
    requires Shape(p) && Enabled(p, Activate) && k in p.store.db.records && Accounted(p, k)
    ensures Accounted(Take(p, Activate), k)
  {
    if EventComing(p, k) { EventsStayComing(p, Take(p, Activate), k); }
  }

  lemma ReadBackKeepsAccounted(p: Plane, k: TaskId)
    requires Shape(p) && Enabled(p, ReadBack) && k in p.store.db.records && Accounted(p, k)
    ensures Accounted(Take(p, ReadBack), k)
  {
    ReadBackHolds(p);
    if EventComing(p, k) { EventsStayComing(p, Take(p, ReadBack), k); }
  }

  lemma WriteBackKeepsAccounted(p: Plane, k: TaskId)
    requires Shape(p) && Enabled(p, WriteBack) && k in p.store.db.records && Accounted(p, k)
    ensures Accounted(Take(p, WriteBack), k)
  {
    WriteBackStores(p);
    if EventComing(p, k) { EventsStayComing(p, Take(p, WriteBack), k); }
  }

  lemma WorkerAnnouncesNothing(p: Plane, m: Move, k: TaskId)
    requires Shape(p) && Enabled(p, m) && !m.Request?
    ensures Take(p, m).store.db.stream == p.store.db.stream && Take(p, m).since == p.since
    ensures Announced(Take(p, m), k) == Announced(p, k)
  {
    if m.ReadBack? { ReadBackHolds(p); }
    if m.WriteBack? { WriteBackStores(p); }
    assert Take(p, m).store.db.stream == p.store.db.stream;
  }

  lemma WorkerAddsNoRecord(p: Plane, m: Move)
    requires Shape(p) && Enabled(p, m) && !m.Request?
    ensures Take(p, m).store.db.records.Keys <= p.store.db.records.Keys
  {
    if m.ReadBack? { ReadBackHolds(p); }
    if m.WriteBack? { WriteBackStores(p); }
    if m.Erase? { EraseKeepsShape(p); }
  }

  lemma WorkerKeepsAccounted(p: Plane, m: Move, k: TaskId)
    requires Shape(p) && Enabled(p, m) && !m.Request?
    requires k in p.store.db.records && k in Take(p, m).store.db.records && Accounted(p, k)
    ensures Accounted(Take(p, m), k)
  {
    match m
    case Receive => ReceiveKeepsAccounted(p, k);
    case DeleteActor => DeleteActorKeepsAccounted(p, k);
    case Erase => EraseKeepsAccounted(p, k);
    case Fetch(w) => FetchKeepsAccounted(p, w, k);
    case EnsureActor => EnsureActorKeepsAccounted(p, k);
    case Activate => ActivateKeepsAccounted(p, k);
    case ReadBack => ReadBackKeepsAccounted(p, k);
    case WriteBack => WriteBackKeepsAccounted(p, k);
  }

  lemma StepKeepsGood(p: Plane, m: Move)
    requires Good(p) && Enabled(p, m)
    ensures Good(Take(p, m))
  {
    StepKeepsShape(p, m);
    forall k | k in Take(p, m).store.db.records && Announced(Take(p, m), k)
      ensures Accounted(Take(p, m), k)
    {
      if m.Request? {
        RequestKeepsAccounted(p, m.step, k);
      } else {
        WorkerAnnouncesNothing(p, m, k);
        WorkerAddsNoRecord(p, m);
        WorkerKeepsAccounted(p, m, k);
      }
    }
  }

  lemma {:induction false} RunsStayGood(p: Plane, ms: seq<Move>)
    requires Good(p) && IsRun(p, ms)
    ensures Good(After(p, ms))
    decreases |ms|
  {
    if ms != [] {
      StepKeepsGood(p, ms[0]);
      RunsStayGood(Take(p, ms[0]), ms[1..]);
    }
  }

  lemma QuietAndGoodIsConverged(p: Plane)
    requires Good(p) && Quiet(p)
    ensures Converged(p)
  {
    assert forall k :: k in p.store.db.records && Announced(p, k) ==> Accounted(p, k);
  }

  // What a store and its actors may be when the group is created: any state the store can
  // reach, with actors only for tasks that are there.
  ghost predicate Startable(store: System, actors: map<TaskId, bool>) {
    Sound(store) && OthersMark(store) && ME !in store.calls && actors.Keys <= store.db.records.Keys
  }

  lemma BegunIsGood(store: System, actors: map<TaskId, bool>)
    requires Startable(store, actors)
    ensures Good(Begun(store, actors))
  {
  }

  // Whatever the interleaving, lost saves included: once every event is processed, all
  // tasks with an event since the group was created are as their stored specs ask.
  lemma QuietMeansConverged(store: System, actors: map<TaskId, bool>, ms: seq<Move>)
    requires Startable(store, actors) && IsRun(Begun(store, actors), ms)
    ensures Quiet(After(Begun(store, actors), ms)) ==> Converged(After(Begun(store, actors), ms))
  {
    var p := Begun(store, actors);
    BegunIsGood(store, actors);
    RunsStayGood(p, ms);
    if Quiet(After(p, ms)) { QuietAndGoodIsConverged(After(p, ms)); }
  }

  // ---- tasks without an event since the group was created ----

  predicate SameAt(p: Plane, t: Plane, k: TaskId) {
    && (k in t.store.db.records <==> k in p.store.db.records)
    && (k in p.store.db.records ==> t.store.db.records[k] == p.store.db.records[k])
    && (k in t.actors <==> k in p.actors) && (k in p.actors ==> t.actors[k] == p.actors[k])
  }

  lemma RequestAnnounces(p: Plane, step: Interleaving.Step, k: TaskId)
    requires Shape(p) && Enabled(p, Request(step))
    ensures Announced(p, k) ==> Announced(Take(p, Request(step)), k)
    ensures !Announced(Take(p, Request(step)), k) ==> SameAt(p, Take(p, Request(step)), k)
  {
    var t := Take(p, Request(step));
    var touched, ev := ClientEffect(p.store, step);
    if i :| p.since <= i < |p.store.db.stream| && EventId(p.store.db.stream[i]) == k {
      assert t.store.db.stream[i] == p.store.db.stream[i];
    }
    if Touches(p.store, t.store, touched, ev) && touched == k {
      assert t.store.db.stream[|p.store.db.stream|] == ev;
    }
  }

  lemma WorkerActsOnAnnounced(p: Plane, m: Move, k: TaskId)
    requires Shape(p) && Enabled(p, m) && !m.Request? && !Announced(p, k)
    ensures SameAt(p, Take(p, m), k)
  {
    if m.ReadBack? { ReadBackHolds(p); }
    if m.WriteBack? { WriteBackStores(p); }
    if m.Erase? { EraseKeepsShape(p); }
  }

  // They and their actors are left exactly as they were, settled or not.
  lemma {:induction false} OthersAreLeftAlone(p: Plane, ms: seq<Move>, k: TaskId)
    requires Shape(p) && IsRun(p, ms) && !Announced(After(p, ms), k)
    ensures !Announced(p, k) && SameAt(p, After(p, ms), k)
    decreases |ms|
  {
    if ms != [] {
      StepKeepsShape(p, ms[0]);
      OthersAreLeftAlone(Take(p, ms[0]), ms[1..], k);
      if ms[0].Request? {
        RequestAnnounces(p, ms[0].step, k);
      } else {
        WorkerAnnouncesNothing(p, ms[0], k);
        WorkerActsOnAnnounced(p, ms[0], k);
      }
    }
  }

  // In a run from an empty store every task is announced, so all of them converge.
  lemma QuietFromEmptyMeansAllConverged(ms: seq<Move>)
    requires IsRun(Begun(EMPTY, map[]), ms)
    ensures var p := After(Begun(EMPTY, map[]), ms);
            Quiet(p) ==> p.actors.Keys == p.store.db.records.Keys && forall k :: Matched(p, k)
  {
    var q := Begun(EMPTY, map[]);
    var p := After(q, ms);
    EmptyStoreIsSoundAndExact();
    BegunIsGood(EMPTY, map[]);
    QuietMeansConverged(EMPTY, map[], ms);
    if Quiet(p) {
      forall k
        ensures Matched(p, k) && (k in p.actors.Keys <==> k in p.store.db.records.Keys)
      {
        if !Announced(p, k) { OthersAreLeftAlone(q, ms, k); }
      }
    }
  }

  // ---- when a stored spec is the wanted one ----

  // A save of k.
  predicate SavesTo(m: Move, k: TaskId) {
    m.Request? && Saves(m.step) && WithDefaults(m.step.task).meta == k
  }

  // The save lands between the halves of a status write for its task and changes the
  // suspend flag from the one that write holds.
  predicate Flips(p: Plane, m: Move) {
    && m.Request? && Saves(m.step) && p.worker.Writing? && ME in p.store.calls
    && WithDefaults(m.step.task).meta == p.worker.task.meta
    && m.step.task.spec.suspend != Held(p).spec.suspend
  }

  // Whether the last save of k in the run flips; `flipped` is the answer before it.
  predicate LastSaveFlips(p: Plane, ms: seq<Move>, k: TaskId, flipped: bool)
    requires IsRun(p, ms)
    decreases |ms|
  {
    if ms == [] then flipped
    else LastSaveFlips(Take(p, ms[0]), ms[1..], k, if SavesTo(ms[0], k) then Flips(p, ms[0]) else flipped)
  }

  ghost predicate DeleteQueued(p: Plane, k: TaskId) {
    exists i :: p.cursor <= i < |p.store.db.stream| && EventId(p.store.db.stream[i]) == k
      && p.store.db.stream[i].action == DELETE
  }

  ghost predicate DeleteComing(p: Plane, k: TaskId) {
    DeleteQueued(p, k) || ((p.worker.Tearing? || p.worker.Erasing?) && p.worker.id == k)
  }

  predicate WritingFor(p: Plane, k: TaskId) {
    p.worker.Writing? && p.worker.task.meta == k && ME in p.store.calls
  }

  // What will be stored once the status write under way, if it is for k, is done.
  function FinalSuspend(p: Plane, k: TaskId): bool
    requires k in p.store.db.records
  {
    if WritingFor(p, k) then Held(p).spec.suspend else p.store.db.records[k].spec.suspend
  }

  predicate SpecIsWanted(p: Plane, k: TaskId)
    requires k in p.store.db.records && k in p.wanted
  {
    p.store.db.records[k].spec.suspend == p.wanted[k] && FinalSuspend(p, k) == p.wanted[k]
  }

  // k is about to be removed, or its last save was kept or flipped as told.
  ghost predicate Tracked(p: Plane, k: TaskId, flipped: bool) {
    k in p.store.db.records && Announced(p, k) ==>
      || DeleteComing(p, k)
      || (k in p.wanted && if flipped then FinalSuspend(p, k) != p.wanted[k] else SpecIsWanted(p, k))
  }

  lemma DeleteStaysQueued(p: Plane, t: Plane, k: TaskId)
    requires t.cursor == p.cursor && p.store.db.stream <= t.store.db.stream && DeleteQueued(p, k)
    ensures DeleteQueued(t, k)
  {
    var i :| p.cursor <= i < |p.store.db.stream| && EventId(p.store.db.stream[i]) == k
      && p.store.db.stream[i].action == DELETE;
    assert t.store.db.stream[i] == p.store.db.stream[i];
  }

  lemma SaveIsTracked(p: Plane, step: Interleaving.Step, k: TaskId)
    requires Shape(p) && Enabled(p, Request(step)) && SavesTo(Request(step), k)
    ensures Tracked(Take(p, Request(step)), k, Flips(p, Request(step)))
  {
    var touched, ev := ClientEffect(p.store, step);
  }

  lemma RequestKeepsTracked(p: Plane, step: Interleaving.Step, k: TaskId, flipped: bool)
    requires Shape(p) && Enabled(p, Request(step)) && !SavesTo(Request(step), k) && Tracked(p, k, flipped)
    ensures Tracked(Take(p, Request(step)), k, flipped)
  {
    var t := Take(p, Request(step));
    var touched, ev := ClientEffect(p.store, step);
    if k in t.store.db.records && Announced(t, k) {
      if Touches(p.store, t.store, touched, ev) && touched == k {
        assert t.store.db.stream[|p.store.db.stream|] == ev;
        assert DeleteQueued(t, k);
      } else {
        AnnouncedBefore(p, step, k, ev, touched);
        assert t.store.db.records[k] == p.store.db.records[k] && (k in p.wanted ==> t.wanted[k] == p.wanted[k]);
        if DeleteQueued(p, k) { DeleteStaysQueued(p, t, k); }
      }
    }
  }

  lemma ReceiveTakesDelete(p: Plane, k: TaskId)
    requires Enabled(p, Receive) && DeleteQueued(p, k)
    ensures DeleteComing(Take(p, Receive), k)
  {
    var i :| p.cursor <= i < |p.store.db.stream| && EventId(p.store.db.stream[i]) == k
      && p.store.db.stream[i].action == DELETE;
    assert i > p.cursor ==> DeleteQueued(Take(p, Receive), k);
  }

  lemma DeleteKeepsComing(p: Plane, m: Move, k: TaskId)
    requires Shape(p) && Enabled(p, m) && !m.Request? && DeleteComing(p, k) && k in Take(p, m).store.db.records
    ensures DeleteComing(Take(p, m), k)
  {
    WorkerAnnouncesNothing(p, m, k);
    if m.Receive? {
      ReceiveTakesDelete(p, k);
    } else if DeleteQueued(p, k) {
      DeleteStaysQueued(p, Take(p, m), k);
    } else if m.Erase? {
      EraseKeepsShape(p);
    }
  }

  lemma WorkerKeepsSuspend(p: Plane, m: Move, k: TaskId)
    requires Shape(p) && Enabled(p, m) && !m.Request? && k in p.store.db.records && k in Take(p, m).store.db.records
    ensures FinalSuspend(Take(p, m), k) == FinalSuspend(p, k) && Take(p, m).wanted == p.wanted
    ensures Take(p, m).store.db.records[k].spec.suspend
            in {p.store.db.records[k].spec.suspend, FinalSuspend(p, k)}
  {
    if m.ReadBack? { ReadBackHolds(p); }
    if m.WriteBack? { WriteBackStores(p); }
    if m.Erase? { EraseKeepsShape(p); }
  }

  lemma WorkerKeepsTracked(p: Plane, m: Move, k: TaskId, flipped: bool)
    requires Shape(p) && Enabled(p, m) && !m.Request? && Tracked(p, k, flipped)
    ensures Tracked(Take(p, m), k, flipped)
  {
    WorkerAnnouncesNothing(p, m, k);
    WorkerAddsNoRecord(p, m);
    if k in Take(p, m).store.db.records && Announced(p, k) {
      if DeleteComing(p, k) { DeleteKeepsComing(p, m, k); } else { WorkerKeepsSuspend(p, m, k); }
    }
  }

  lemma {:induction false} RunsStayTracked(p: Plane, ms: seq<Move>, k: TaskId, flipped: bool)
    requires Shape(p) && IsRun(p, ms) && Tracked(p, k, flipped)
    ensures Tracked(After(p, ms), k, LastSaveFlips(p, ms, k, flipped))
    decreases |ms|
  {
    if ms != [] {
      var m := ms[0];
      StepKeepsShape(p, m);
      if SavesTo(m, k) {
        SaveIsTracked(p, m.step, k);
      } else if m.Request? {
        RequestKeepsTracked(p, m.step, k, flipped);
      } else {
        WorkerKeepsTracked(p, m, k, flipped);
      }
      RunsStayTracked(Take(p, m), ms[1..], k, if SavesTo(m, k) then Flips(p, m) else flipped);
    }
  }

  // Once every event is processed, a task that is there is as its last save asked exactly
  // if that save did not flip.
  lemma QuietIsAsWantedIff(store: System, actors: map<TaskId, bool>, ms: seq<Move>, k: TaskId)
    requires Startable(store, actors) && IsRun(Begun(store, actors), ms)
    ensures var p := After(Begun(store, actors), ms);
            Quiet(p) && Announced(p, k) && k in p.store.db.records ==>
              && k in p.wanted
              && (Settled(p, k, p.wanted[k]) <==> !LastSaveFlips(Begun(store, actors), ms, k, false))
  {
    var q := Begun(store, actors);
    BegunIsGood(store, actors);
    QuietMeansConverged(store, actors, ms);
    RunsStayTracked(q, ms, k, false);
    RunsStayGood(q, ms);
  }

  predicate NoFlips(p: Plane, ms: seq<Move>)
    requires IsRun(p, ms)
    decreases |ms|
  {
    ms == [] || (!Flips(p, ms[0]) && NoFlips(Take(p, ms[0]), ms[1..]))
  }

  lemma {:induction false} NoFlipsNoLastFlip(p: Plane, ms: seq<Move>, k: TaskId)
    requires IsRun(p, ms) && NoFlips(p, ms)
    ensures !LastSaveFlips(p, ms, k, false)
    decreases |ms|
  {
    if ms != [] { NoFlipsNoLastFlip(Take(p, ms[0]), ms[1..], k); }
  }

  // If no save flips at all, every task is as its last save asked.
  lemma QuietMeansAsWanted(store: System, actors: map<TaskId, bool>, ms: seq<Move>, k: TaskId)
    requires Startable(store, actors) && IsRun(Begun(store, actors), ms) && NoFlips(Begun(store, actors), ms)
    ensures var p := After(Begun(store, actors), ms);
            Quiet(p) && Announced(p, k) && k in p.store.db.records ==> k in p.wanted && Settled(p, k, p.wanted[k])
  {
    NoFlipsNoLastFlip(Begun(store, actors), ms, k);
    QuietIsAsWantedIff(store, actors, ms, k);
  }

  // ---- the worker gets there ----

  // How many moves the worker still needs for what it has in hand.
  function Rank(pc: Pc): nat {
    match pc
    case Waiting => 0
    case Writing(_, _) => 1
    case Reporting(_, _) => 2
    case Activating(_, _) => 3
    case Ensuring(_, _) => 4
    case Fetching(_) => 5
    case Erasing(_) => 1
    case Tearing(_) => 2
  }

  lemma NextMove(p: Plane, w: World) returns (m: Move)
    requires Shape(p) && !Quiet(p) && NothingFails(w)
    ensures !m.Request? && Enabled(p, m)
    ensures m.Receive? <==> p.worker.Waiting?
  {
    match p.worker
    case Waiting => m := Receive;
    case Tearing(_) => m := DeleteActor;
    case Erasing(_) => m := Erase;
    case Fetching(_) => m := Fetch(w);
    case Ensuring(_, _) => m := EnsureActor;
    case Activating(_, _) => m := Activate;
    case Reporting(task, _) =>
      assert OwnsKey(task.meta, p.store.db.records[task.meta]);
      m := ReadBack;
    case Writing(_, _) => m := WriteBack;
  }

  lemma MoveGetsNearer(p: Plane, m: Move)
    requires Shape(p) && Enabled(p, m) && !m.Request?
    ensures var t := Take(p, m);
            && t.store.db.stream == p.store.db.stream && t.cursor == p.cursor + (if m.Receive? then 1 else 0)
            && (!m.Receive? ==> Rank(t.worker) < Rank(p.worker))
  {
    WorkerAnnouncesNothing(p, m, TaskId("", ""));
    if m.ReadBack? { ReadBackHolds(p); }
  }

  // From any state, if the clients pause, the worker alone reaches quiet: the tasks with
  // an event converge.
  lemma {:induction false} WorkerReachesQuiet(p: Plane, w: World) returns (ms: seq<Move>)
    requires Good(p) && NothingFails(w)
    ensures IsRun(p, ms) && (forall i :: 0 <= i < |ms| ==> !ms[i].Request?)
    ensures Quiet(After(p, ms)) && Converged(After(p, ms))
    decreases |p.store.db.stream| - p.cursor, Rank(p.worker)
  {
    if Quiet(p) {
      QuietAndGoodIsConverged(p);
      return [];
    }
    var m := NextMove(p, w);
    StepKeepsGood(p, m);
    MoveGetsNearer(p, m);
    var rest := WorkerReachesQuiet(Take(p, m), w);
    ms := [m] + rest;
    assert ms[1..] == rest;
  }
}
