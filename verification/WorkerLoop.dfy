// The worker as it runs: one event at a time against the Redis store, each acknowledged
// after it was processed. What other callers do meanwhile is in ControlPlane.
module WorkerLoop {
  import opened Api
  import opened Keys
  import opened RedisStore
  import opened Interleaving
  import opened Reconciler
  import EventStream

  // How the calls of one processEvent go: the teardown and the record's removal, the
  // first read, the Model read, the reconcile, and the two round trips of the status write.
  datatype Answers = Answers(teardown: bool, erase: Outcome, fetch: bool, model: bool, world: World, readBack: bool,
    write: Outcome)

  // The status write of one processed task, under the defaulted key.
  function StatusStored(db: Db, task: Task, a: Answers): Db {
    var id := Placed(task).meta;
    if a.readBack && id in db.records then
      IfLanded(a.write, db, StatusTx(db, id, db.records[id].(status := Processed(task, a.world).status)))
    else db
  }

  function AfterEvent(db: Db, ev: Event, a: Answers): Db {
    var id := EventId(ev);
    if ev.action == DELETE then
      (if a.teardown then IfLanded(a.erase, db, DeleteTx(db, id)) else db)
    else if a.fetch && a.model && id in db.records then StatusStored(db, db.records[id], a)
    else db
  }

  predicate StatusWritten(db: Db, task: Task, a: Answers) {
    !Reconciled(task, a.world).1 && a.readBack && Placed(task).meta in db.records && a.write.Done?
  }

  // No error is logged for the event. A task that is gone is not an error.
  predicate NoError(db: Db, ev: Event, a: Answers) {
    var id := EventId(ev);
    if ev.action == DELETE then a.teardown && a.erase.Done?
    else a.fetch && (id in db.records ==> a.model && StatusWritten(db, db.records[id], a))
  }

  // The store after these events, in order.
  function AfterEvents(db: Db, evs: seq<Event>, answers: nat -> Answers): Db {
    if evs == [] then db
    else
      var n := |evs| - 1;
      AfterEvent(AfterEvents(db, evs[..n], answers), evs[n], answers(n))
  }

  lemma OneMoreEvent(db: Db, evs: seq<Event>, ev: Event, answers: nat -> Answers)
    ensures AfterEvents(db, evs + [ev], answers) == AfterEvent(AfterEvents(db, evs, answers), ev, answers(|evs|))
  {
    assert (evs + [ev])[..|evs|] == evs;
  }

  // ---- what a run has done with the stream ----

  // The events handed out: positions in the stream, ascending.
  predicate InOrder(handled: seq<nat>, first: nat, end: nat) {
    && (forall i :: 0 <= i < |handled| ==> first <= handled[i] < end)
    && (forall i, j :: 0 <= i < j < |handled| ==> handled[i] < handled[j])
  }

  function EventsAt(log: seq<Event>, handled: seq<nat>): seq<Event>
    requires forall i :: 0 <= i < |handled| ==> handled[i] < |log|
  {
    seq(|handled|, i requires 0 <= i < |handled| => log[handled[i]])
  }

  // Of the stream from `first` to `end`: an event is acknowledged exactly if it was handed
  // out and its acknowledgement landed, and all others are still pending.
  ghost predicate Settles(group: EventStream.Group, handled: seq<nat>, first: nat, end: nat, acks: nat -> Outcome) {
    && InOrder(handled, first, end)
    && (forall i :: 0 <= i < |handled| ==> (handled[i] in group.acked <==> Landed(acks(i))))
    && (forall id :: id in group.acked && first <= id ==> id in handled)
    && (forall id :: first <= id < end && id !in group.acked ==> id in group.pel)
  }

  // What happens before and during one call of Next.
  datatype Turn = Turn(arrivals: seq<Event>, patience: nat, outs: nat -> Outcome)

  ghost predicate ReadsGoWell(turns: seq<Turn>) {
    forall t, k: nat :: 0 <= t < |turns| ==> turns[t].outs(k).Done?
  }

  class Worker {
    const store: RedisStore.Store
    const server: EventStream.StreamServer
    const consumer: string
    const batchSize: nat

    constructor (store: RedisStore.Store, server: EventStream.StreamServer, consumer: string, batchSize: nat)
      ensures this.store == store && this.server == server && this.consumer == consumer && this.batchSize == batchSize
    {
      this.store, this.server, this.consumer, this.batchSize := store, server, consumer, batchSize;
    }

    method ProcessEvent(ev: Event, a: Answers) returns (ok: bool)
      modifies store
      ensures store.Contents() == AfterEvent(old(store.Contents()), ev, a)
      ensures ok <==> NoError(old(store.Contents()), ev, a)
    {
      var id := TaskId(ev.atespace, ev.name);
      if ev.action == DELETE {
        if !a.teardown { return false; }
        var err := store.DeleteTask(id, a.erase);
        return err.None?;
      }
      var task, err := store.GetTask(id, a.fetch);
      if err.Some? { return err == Some(NotFound); }
      if !a.model { return false; }
      ok := ReconcileAndStore(task.value, a);
    }

    method ReconcileAndStore(task: Task, a: Answers) returns (ok: bool)
      modifies store
      ensures store.Contents() == StatusStored(old(store.Contents()), task, a)
      ensures ok <==> StatusWritten(old(store.Contents()), task, a)
    {
      var cell := new TaskCell(task);
      var failed := cell.Reconcile(a.world);
      if failed { cell.phase := FAILED_PHASE; }
      assert cell.Value() == Processed(task, a.world) && cell.meta == Placed(task).meta;
      var err := store.UpdateTaskStatus(cell.meta, cell.Value().status, a.readBack, a.write);
      ok := !failed && err.None?;
    }

    // The subscription stands at event `next`: what it holds locally is the rest of the
    // group's last read, all of it still pending.
    ghost predicate StandsAt(sub: EventStream.Subscription, next: nat)
      reads server, sub
    {
      && server.Valid() && sub.server == server && sub.batchSize > 0
      && server.group.cursor == next + |sub.pending|
      && (forall i :: 0 <= i < |sub.pending| ==> sub.pending[i] == next + i && next + i in server.group.pel)
      && (forall id :: id in server.group.acked ==> id < next)
    }

    // Where the subscription stands once event `next` has been handed out.
    ghost predicate Handed(sub: EventStream.Subscription, next: nat)
      reads server, sub
    {
      && server.Valid() && sub.server == server && sub.batchSize > 0
      && server.group.cursor == next + 1 + |sub.pending| && next in server.group.pel
      && (forall i :: 0 <= i < |sub.pending| ==> sub.pending[i] == next + 1 + i && next + 1 + i in server.group.pel)
      && (forall id :: id in server.group.acked ==> id < next)
    }

    // A read that fails may lose a batch: `after` is where the subscription then stands.
    method TakeNext(sub: EventStream.Subscription, turn: Turn, ghost next: nat)
      returns (r: EventStream.NextResult, ghost after: nat)
      requires StandsAt(sub, next)
      modifies sub`pending, server
      ensures server.log == old(server.log) && server.group.acked == old(server.group).acked && next <= after
      ensures forall id :: id in old(server.group).pel || next <= id < after ==> id in server.group.pel
      ensures r.Got? ==> r.id == next && after == next && Handed(sub, next)
      ensures !r.Got? ==> StandsAt(sub, after)
      ensures r.ContextDone? ==> after == next && (turn.patience == 0 || next == |server.log|)
      ensures (forall k: nat :: turn.outs(k).Done?) ==> !r.ReadFailed? && after == next
    {
      ghost var held, group := sub.pending, server.group;
      BatchIsPending(group, |server.log|, sub.batchSize, sub.consumer);
      r := sub.Next(turn.patience, turn.outs);
      after := if r.Got? then next else server.group.cursor;
      if held != [] {
        assert held[0] == next && sub.pending == held[1..];
        assert forall i :: 0 <= i < |sub.pending| ==> sub.pending[i] == held[i + 1] && held[i + 1] in server.group.pel;
      }
    }

    // One event, from the queue to its acknowledgement.
    method Step(sub: EventStream.Subscription, turn: Turn, a: Answers, ack: Outcome, ghost next: nat)
      returns (r: EventStream.NextResult, ghost after: nat)
      requires StandsAt(sub, next)
      modifies sub`pending, server, store
      ensures server.log == old(server.log) && next <= after && StandsAt(sub, after)
      ensures forall id :: (id in old(server.group).pel && id != next) || next < id < after ==> id in server.group.pel
      ensures r.Got? ==> r.id == next < |server.log| && after == next + 1
      ensures r.Got? ==> store.Contents() == AfterEvent(old(store.Contents()), server.log[next], a)
      ensures r.Got? ==> server.group.acked == old(server.group).acked + if Landed(ack) then {next} else {}
      ensures r.Got? && !Landed(ack) ==> next in server.group.pel
      ensures !r.Got? ==> server.group.acked == old(server.group).acked && store.Contents() == old(store.Contents())
      ensures !r.Got? && next < after ==> next in server.group.pel
      ensures !r.Got? && next in old(server.group).pel ==> next in server.group.pel
      ensures r.ContextDone? ==> after == next && (turn.patience == 0 || next == |server.log|)
      ensures (forall k: nat :: turn.outs(k).Done?) ==> r.Got? || r.ContextDone?
    {
      r, after := TakeNext(sub, turn, next);
      if r.Got? {
        var ok := ProcessEvent(server.log[r.id], a);
        ghost var held := server.group;
        server.XAck(r.id, ack);
        after := next + 1;
        assert server.group.acked == held.acked + if Landed(ack) then {next} else {};
        assert forall id :: id in held.pel && id != next ==> id in server.group.pel;
      }
    }

    // Until the context is done: one entry of `turns` for each call of Next it allows.
    method Run(turns: seq<Turn>, answers: nat -> Answers, acks: nat -> Outcome) returns (handled: seq<nat>)
      requires server.Valid() && batchSize > 0
      requires forall id :: id in server.group.acked ==> id < server.group.cursor
      modifies store, server
      ensures old(server.log) <= server.log && server.group.cursor <= |server.log|
      ensures Settles(server.group, handled, old(server.group).cursor, server.group.cursor, acks)
      ensures store.Contents() == AfterEvents(old(store.Contents()), EventsAt(server.log, handled), answers)
      ensures ReadsGoWell(turns) ==>
                forall i :: 0 <= i < |handled| ==> handled[i] == old(server.group).cursor + i
      ensures ReadsGoWell(turns) && (forall t :: 0 <= t < |turns| ==> turns[t].patience > 0) ==>
                |handled| == |turns| || old(server.group).cursor + |handled| == |server.log|
    {
      var sub := new EventStream.Subscription(server, consumer, batchSize);
      ghost var next;
      handled, next := Drain(sub, turns, answers, acks, server.group.cursor);
    }

    // What the loop keeps: `handled` was taken from the stream between `first` and `next`.
    ghost predicate Progress(sub: EventStream.Subscription, db: Db, first: nat, next: nat, handled: seq<nat>,
                             answers: nat -> Answers, acks: nat -> Outcome)
      reads server, store, sub
    {
      && StandsAt(sub, next) && first <= next <= |server.log| && Settles(server.group, handled, first, next, acks)
      && store.Contents() == AfterEvents(db, EventsAt(server.log, handled), answers)
    }

    method Arrive(sub: EventStream.Subscription, arrivals: seq<Event>, ghost handled: seq<nat>,
                  ghost answers: nat -> Answers,
                  ghost acks: nat -> Outcome, ghost db: Db, ghost first: nat, ghost next: nat)
      requires Progress(sub, db, first, next, handled, answers, acks)
      modifies server
      ensures server.log == old(server.log) + arrivals && Progress(sub, db, first, next, handled, answers, acks)
    {
      EventsStay(server.log, arrivals, handled);
      server.Publish(arrivals);
    }

    method TakeTurn(sub: EventStream.Subscription, turn: Turn, answers: nat -> Answers, acks: nat -> Outcome,
                    was: seq<nat>, ghost db: Db, ghost first: nat, ghost next: nat)
      returns (handled: seq<nat>, goOn: bool, ghost after: nat)
      requires Progress(sub, db, first, next, was, answers, acks)
      modifies sub`pending, server, store
      ensures old(server.log) <= server.log && next <= after && Progress(sub, db, first, after, handled, answers, acks)
      ensures handled == was || (handled == was + [next] && after == next + 1 && goOn)
      ensures (forall k: nat :: turn.outs(k).Done?) ==>
                if goOn then handled == was + [next] else (handled == was && after == next)
      ensures !goOn ==> after == next && handled == was && (turn.patience == 0 || next == |server.log|)
    {
      Arrive(sub, turn.arrivals, was, answers, acks, db, first, next);
      ghost var group := server.group;
      handled, goOn := was, true;
      var r;
      r, after := Step(sub, turn, answers(|was|), acks(|was|), next);
      if r.Got? {
        handled := was + [r.id];
        OneMoreAt(db, server.log, was, next, answers);
        OneMoreSettled(group, server.group, was, first, next, acks);
      } else {
        SkippedSettle(group, server.group, was, first, next, after, acks);
        goOn := r.ReadFailed?;
      }
    }

    method Drain(sub: EventStream.Subscription, turns: seq<Turn>, answers: nat -> Answers, acks: nat -> Outcome,
                 ghost first: nat)
      returns (handled: seq<nat>, ghost next: nat)
      requires StandsAt(sub, first) && sub.pending == []
      modifies sub`pending, server, store
      ensures old(server.log) <= server.log && Progress(sub, old(store.Contents()), first, next, handled, answers, acks)
      ensures Settles(server.group, handled, first, server.group.cursor, acks)
      ensures ReadsGoWell(turns) ==> forall i :: 0 <= i < |handled| ==> handled[i] == first + i
      ensures ReadsGoWell(turns) && (forall t :: 0 <= t < |turns| ==> turns[t].patience > 0) ==>
                |handled| == |turns| || first + |handled| == |server.log|
    {
      ghost var db := store.Contents();
      handled, next := [], first;
      for t := 0 to |turns|
        invariant old(server.log) <= server.log && Progress(sub, db, first, next, handled, answers, acks)
        invariant ReadsGoWell(turns) ==> |handled| == t && next == first + t
        invariant ReadsGoWell(turns) ==> forall i :: 0 <= i < |handled| ==> handled[i] == first + i
      {
        var goOn;
        handled, goOn, next := TakeTurn(sub, turns[t], answers, acks, handled, db, first, next);
        if !goOn { break; }
      }
      LocalRestIsPending(sub, handled, first, next, acks);
    }

    lemma LocalRestIsPending(sub: EventStream.Subscription, handled: seq<nat>, first: nat, next: nat,
                             acks: nat -> Outcome)
      requires StandsAt(sub, next) && Settles(server.group, handled, first, next, acks)
      ensures Settles(server.group, handled, first, server.group.cursor, acks)
    {
      forall id | next <= id < server.group.cursor
        ensures id in server.group.pel
      {
        assert sub.pending[id - next] == id;
      }
    }
  }

  lemma EventsStay(log: seq<Event>, more: seq<Event>, handled: seq<nat>)
    requires forall i :: 0 <= i < |handled| ==> handled[i] < |log|
    ensures EventsAt(log + more, handled) == EventsAt(log, handled)
  {
  }

  lemma OneMoreAt(db: Db, log: seq<Event>, handled: seq<nat>, next: nat, answers: nat -> Answers)
    requires next < |log| && forall i :: 0 <= i < |handled| ==> handled[i] < |log|
    ensures AfterEvents(db, EventsAt(log, handled + [next]), answers)
            == AfterEvent(AfterEvents(db, EventsAt(log, handled), answers), log[next], answers(|handled|))
  {
    OneMoreEvent(db, EventsAt(log, handled), log[next], answers);
    assert EventsAt(log, handled + [next]) == EventsAt(log, handled) + [log[next]];
  }

  // The event at `next` was handed out, and acknowledged if that landed.
  lemma OneMoreSettled(was: EventStream.Group, now: EventStream.Group, handled: seq<nat>, first: nat, next: nat,
                       acks: nat -> Outcome)
    requires Settles(was, handled, first, next, acks) && first <= next && next !in was.acked
    requires now.acked == was.acked + if Landed(acks(|handled|)) then {next} else {}
    requires forall id :: id in was.pel && id != next ==> id in now.pel
    requires !Landed(acks(|handled|)) ==> next in now.pel
    ensures Settles(now, handled + [next], first, next + 1, acks)
  {
    var more := handled + [next];
    assert forall id :: id in handled ==> id in more;
    assert next in more;
  }

  // A lost batch was skipped: all of it is pending.
  lemma SkippedSettle(was: EventStream.Group, now: EventStream.Group, handled: seq<nat>, first: nat, next: nat,
                      after: nat,
                      acks: nat -> Outcome)
    requires Settles(was, handled, first, next, acks) && first <= next <= after && now.acked == was.acked
    requires forall id :: id in was.pel || next <= id < after ==> id in now.pel
    ensures Settles(now, handled, first, after, acks)
  {
  }

  lemma BatchIsPending(g: EventStream.Group, published: nat, count: nat, consumer: string)
    requires g.cursor <= published
    ensures var batch := EventStream.Batch(g, published, count);
            var after := EventStream.Delivered(g, batch, consumer);
            && after.cursor == g.cursor + |batch| && (forall id :: id in g.pel ==> id in after.pel)
            && forall id :: g.cursor <= id < g.cursor + |batch| ==>
                 id in batch && batch[id - g.cursor] == id && id in after.pel
  {
    var batch := EventStream.Batch(g, published, count);
    assert forall i :: 0 <= i < |batch| ==> batch[i] in batch;
  }

  // ---- what processing an event means ----

  // Undisturbed, processing an event is a run of the store's own steps, so all that holds
  // over those runs holds over it.
  lemma EventAloneIsARun(db: Db, ev: Event, a: Answers, c: Caller) returns (steps: seq<Interleaving.Step>)
    requires Consistent(db) && NoColon(EventId(ev).atespace)
    ensures var s := System(db, map[]); IsRun(s, steps) && After(s, steps) == System(AfterEvent(db, ev, a), map[])
  {
    var id := EventId(ev);
    if ev.action == DELETE {
      steps := if a.teardown then [Remove(id, a.erase)] else [];
      if a.teardown { assert steps[1..] == [] && ReadId(id) == id; }
    } else if a.fetch && a.model && a.readBack && id in db.records {
      steps := StatusRun(db, id, a, c);
    } else {
      steps := [];
    }
  }

  lemma StatusRun(db: Db, id: TaskId, a: Answers, c: Caller) returns (steps: seq<Interleaving.Step>)
    requires Consistent(db) && id in db.records && a.readBack
    ensures var s := System(db, map[]);
            IsRun(s, steps) && After(s, steps) == System(StatusStored(db, db.records[id], a), map[])
  {
    var s := System(db, map[]);
    assert OwnsKey(id, db.records[id]) && ReadId(id) == id;
    var read, write := ReadForStatus(c, id, Processed(db.records[id], a.world).status), Write(c, a.write);
    var held := Take(s, read);
    assert held == System(db, map[c := StatusCall(id, db.records[id].(status := read.status))]);
    var done := Take(held, write);
    assert done.calls == map[];
    steps := [read, write];
    assert steps[1..] == [write] && steps[1..][1..] == [];
    assert IsRun(done, []) && IsRun(held, [write]) && After(held, [write]) == done;
  }

  // However many events, whatever each of them meets.
  lemma {:induction false} EventsKeepTheStoreConsistent(db: Db, evs: seq<Event>, answers: nat -> Answers)
    requires Consistent(db) && forall i :: 0 <= i < |evs| ==> NoColon(EventId(evs[i]).atespace)
    ensures Consistent(AfterEvents(db, evs, answers))
  {
    if evs != [] {
      var n := |evs| - 1;
      EventsKeepTheStoreConsistent(db, evs[..n], answers);
      EventKeepsTheStoreConsistent(AfterEvents(db, evs[..n], answers), evs[n], answers(n));
    }
  }

  lemma EventKeepsTheStoreConsistent(db: Db, ev: Event, a: Answers)
    requires Consistent(db) && NoColon(EventId(ev).atespace)
    ensures Consistent(AfterEvent(db, ev, a))
  {
    var steps := EventAloneIsARun(db, ev, a, Interleaving.Worker(0));
    RunsStaySound(System(db, map[]), steps);
  }

  predicate AllGoesWell(a: Answers) {
    a.fetch && a.model && a.readBack && a.write.Done? && NothingFails(a.world)
  }

  // A reconcile event processed without failures puts its task in the phase the spec asks
  // for and touches nothing else.
  lemma EventSettlesItsTask(db: Db, ev: Event, a: Answers)
    requires Consistent(db) && ev.action != DELETE && EventId(ev) in db.records && AllGoesWell(a)
    ensures var id, after := EventId(ev), AfterEvent(db, ev, a);
            && after == db.(records := after.records) && after.records.Keys == db.records.Keys
            && after.records[id].spec == db.records[id].spec
            && after.records[id].status.phase == DesiredPhase(db.records[id].spec.suspend)
            && ReadySound(after.records[id].status)
            && forall k :: k in db.records && k != id ==> after.records[k] == db.records[k]
  {
    var id := EventId(ev);
    assert OwnsKey(id, db.records[id]);
    SuccessReachesDesiredPhase(db.records[id], a.world);
  }

  // Two events are enough for a stored task that is Failed and Ready: the first reconcile
  // goes well, the second finds the model configuration broken.
  lemma ModelErrorLeavesFailedTaskReady(db: Db, id: TaskId) returns (log: seq<Event>, answers: nat -> Answers)
    requires Consistent(db) && id in db.records && !db.records[id].spec.suspend
    ensures var ev := Event(id.atespace, id.name, RECONCILE); log == [ev, ev]
    ensures var after := AfterEvents(db, log, answers);
            && id in after.records && after.records[id].status.phase == FAILED_PHASE
            && IsTrue(after.records[id].status.conditions, READY)
  {
    var ev := Event(id.atespace, id.name, RECONCILE);
    log := [ev, ev];
    var well := Answers(true, Done, true, true, GOOD_WORLD, true, Done);
    var broken := well.(world := GOOD_WORLD.(model := Some("unknown provider")));
    answers := n => if n == 0 then well else broken;
    assert OwnsKey(id, db.records[id]) && EventId(ev) == id;
    GoodWorldMakesReady(db.records[id]);
    EventStores(db, ev, well);
    var first := AfterEvent(db, ev, well);
    EventKeepsTheStoreConsistent(db, ev, well);
    assert OwnsKey(id, first.records[id]);
    EventStores(first, ev, broken);
    OneMoreEvent(db, [], ev, answers);
    OneMoreEvent(db, [] + [ev], ev, answers);
    assert log == [] + [ev] + [ev];
    ModelErrorKeepsReady(first.records[id], broken.world);
  }

  lemma EventStores(db: Db, ev: Event, a: Answers)
    requires ev.action != DELETE && a.fetch && a.model && a.readBack && a.write.Done?
    requires EventId(ev) in db.records && OwnsKey(EventId(ev), db.records[EventId(ev)])
    ensures EventId(ev) in AfterEvent(db, ev, a).records
    ensures var task := db.records[EventId(ev)];
            AfterEvent(db, ev, a).records[EventId(ev)] == task.(status := Processed(task, a.world).status)
  {
  }

  lemma ModelErrorKeepsReady(task: Task, w: World)
    requires StopsAtModel(w) && IsTrue(task.status.conditions, READY)
    ensures Processed(task, w).status.phase == FAILED_PHASE && IsTrue(Processed(task, w).status.conditions, READY)
  {
    ReconcileKeepsConditions(task, w);
  }
}
