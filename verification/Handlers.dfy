// The API server's task handlers over the Redis store: each reads, changes its copy and
// saves it back.
module Handlers {
  import opened Api
  import opened Keys
  import opened RedisStore
  import opened Interleaving
  import opened Reconciler
  import opened WorkerLoop
  import Validation

  datatype Reply = InvalidArgument | Missing | Internal | Accepted(task: Task) | Acknowledged

  function SwitchedTask(task: Task, suspend: bool): Task {
    task.(spec := task.spec.(suspend := suspend))
  }

  // SuspendTask and ResumeTask: the record is saved back under the name it carries.
  function SwitchTx(db: Db, id: TaskId, suspend: bool, now: int): Db
    requires id in db.records
  {
    SaveTx(db, WithDefaults(SwitchedTask(db.records[id], suspend)), now)
  }

  class Server {
    const store: RedisStore.Store

    constructor (store: RedisStore.Store)
      ensures this.store == store
    {
      this.store := store;
    }

    // `bound` are the task's workspace bindings.
    method UpdateTask(task: Task, bound: Option<seq<Option<Validation.Ref>>>, now: int, tx: Outcome) returns (r: Reply)
      modifies store
      ensures var valid := bound.None? || Validation.Sound(Validation.Present(bound.value));
              && (r.InvalidArgument? <==> !valid)
              && store.Contents() ==
                   (if valid && task.meta.name != "" then IfLanded(tx, old(store.Contents()),
                     SaveTx(old(store.Contents()), WithDefaults(task), now))
                    else old(store.Contents()))
      ensures r.InvalidArgument? || r.Internal? || r.Accepted?
      ensures var valid := bound.None? || Validation.Sound(Validation.Present(bound.value));
              r.Accepted? <==> valid && task.meta.name != "" && tx.Done?
      ensures r.Accepted? ==>
                r.task == WithDefaults(task) && r.task.meta in store.records && store.records[r.task.meta] == r.task
    {
      var problem := Validation.ValidateTask(bound);
      if problem.Some? { return InvalidArgument; }
      var mine := task;
      if mine.meta.atespace == "" { mine := mine.(meta := mine.meta.(atespace := DEFAULT_ATESPACE)); }
      var saved, err := store.SaveTask(mine, now, tx);
      if err.Some? { return Internal; }
      r := Accepted(saved);
    }

    method Switch(id: TaskId, suspend: bool, reachable: bool, now: int, tx: Outcome) returns (r: Reply)
      modifies store
      ensures reachable && ReadId(id) in old(store.records) && old(store.records)[ReadId(id)].meta.name != "" ==>
                && store.Contents()
                  == IfLanded(tx, old(store.Contents()), SwitchTx(old(store.Contents()), ReadId(id), suspend, now))
                && (r.Accepted? <==> tx.Done?)
                && (r.Accepted? ==> r.task == WithDefaults(SwitchedTask(old(store.records)[ReadId(id)], suspend)))
      ensures !(reachable && ReadId(id) in old(store.records)) ==>
                store.Contents() == old(store.Contents()) && !r.Accepted?
      ensures r.Missing? <==> reachable && ReadId(id) !in old(store.records)
      ensures r.Accepted? || r.Missing? || r.Internal?
    {
      var task, err := store.GetTask(id, reachable);
      if err.Some? { return if err == Some(NotFound) then Missing else Internal; }
      var saved;
      saved, err := store.SaveTask(task.value.(spec := task.value.spec.(suspend := suspend)), now, tx);
      if err.Some? { return Internal; }
      r := Accepted(saved);
    }

    method DeleteTask(id: TaskId, reachable: bool, tx: Outcome) returns (r: Reply)
      modifies store
      ensures reachable && ReadId(id) in old(store.records) ==>
                store.Contents() == IfLanded(tx, old(store.Contents()),
                  MarkTx(old(store.Contents()), ReadId(id), Terminated(old(store.records)[ReadId(id)])))
      ensures !(reachable && ReadId(id) in old(store.records)) ==> store.Contents() == old(store.Contents())
      ensures r.Acknowledged? <==> reachable && ReadId(id) in old(store.records) && tx.Done?
      ensures r.Missing? <==> reachable && ReadId(id) !in old(store.records)
      ensures r.Acknowledged? || r.Missing? || r.Internal?
    {
      var err := store.MarkTaskDeleting(id, reachable, tx);
      if err.Some? { return if err == Some(NotFound) then Missing else Internal; }
      r := Acknowledged;
    }
  }

  predicate Complete(db: Db, id: TaskId) {
    id in db.records && OwnsKey(id, db.records[id]) && db.records[id].status.phase != ""
  }

  // Suspending and resuming loses nothing of a running task: only the listing score and
  // the two published events tell that it happened.
  lemma ResumeUndoesSuspend(db: Db, id: TaskId, now1: int, now2: int)
    requires Complete(db, id) && !db.records[id].spec.suspend
    ensures var held := SwitchTx(db, id, true, now1);
            var ev := Event(id.atespace, id.name, RECONCILE);
            id in held.records
              && SwitchTx(held, id, false, now2) == SaveTx(db, db.records[id], now2).(stream := db.stream + [ev] + [ev])
  {
    var task := db.records[id];
    assert WithDefaults(SwitchedTask(task, true)) == SwitchedTask(task, true);
    assert WithDefaults(task) == task && SwitchedTask(SwitchedTask(task, true), false) == task;
    SaveTwice(db, SwitchedTask(task, true), task, now1, now2);
  }

  lemma SaveTwice(db: Db, first: Task, second: Task, now1: int, now2: int)
    requires first.meta == second.meta
    ensures var ev := Event(first.meta.atespace, first.meta.name, RECONCILE);
            SaveTx(SaveTx(db, first, now1), second, now2)
              == SaveTx(db, second, now2).(stream := db.stream + [ev] + [ev])
  {
    var id := first.meta;
    var once, twice, direct := SaveTx(db, first, now1), SaveTx(SaveTx(db, first, now1), second, now2),
      SaveTx(db, second, now2);
    assert twice.records == direct.records && twice.index == direct.index;
    assert AtespaceSet(once, id.atespace)[id.name := now2] == AtespaceSet(db, id.atespace)[id.name := now2];
    assert twice.byAtespace == direct.byAtespace;
  }

  // The event a suspend or resume publishes brings the task to the phase asked for, and
  // a finished workspace setup stays finished.
  lemma SwitchReachesItsPhase(db: Db, id: TaskId, suspend: bool, now: int, a: Answers)
    requires Consistent(db) && Complete(db, id) && AllGoesWell(a)
    ensures var saved := SwitchTx(db, id, suspend, now);
            var after := AfterEvent(saved, saved.stream[|saved.stream| - 1], a);
            && id in after.records && after.records[id].spec == db.records[id].spec.(suspend := suspend)
            && after.records[id].status.phase == DesiredPhase(suspend)
            && (IsTrue(db.records[id].status.conditions, WORKSPACE_READY) ==>
                IsTrue(after.records[id].status.conditions, WORKSPACE_READY))
  {
    var saved := SwitchTx(db, id, suspend, now);
    var ev := saved.stream[|saved.stream| - 1];
    assert EventId(ev) == id && saved.records[id] == SwitchedTask(db.records[id], suspend);
    SaveKeepsConsistent(db, SwitchedTask(db.records[id], suspend), now);
    EventSettlesItsTask(saved, ev, a);
    ReconcileKeepsConditions(saved.records[id], a.world);
  }

  // A delete request and then its event leave no trace of the task.
  lemma DeleteLeavesNothing(db: Db, id: TaskId, a: Answers)
    requires Consistent(db) && Complete(db, id) && a.teardown && a.erase.Done?
    ensures var marked := MarkTx(db, id, Terminated(db.records[id]));
            var after := AfterEvent(marked, marked.stream[|marked.stream| - 1], a);
            && after.records == db.records - {id} && Join(id) !in after.index
              && id.name !in AtespaceSet(after, id.atespace)
            && Consistent(after)
  {
    var marked := MarkTx(db, id, Terminated(db.records[id]));
    var ev := marked.stream[|marked.stream| - 1];
    assert EventId(ev) == id && ReadId(id) == id;
    assert Consistent(marked) by { WriteKeepsConsistent(db, MarkCall(id, Terminated(db.records[id]))); }
    DeleteKeepsConsistent(marked, id);
    assert marked.records - {id} == db.records - {id};
  }
}
