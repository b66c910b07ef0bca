// Any number of callers using the Redis store at once, one round trip per step.
// UpdateTaskStatus and MarkTaskDeleting read in one step and write in a later one;
// anything may happen in between.
module Interleaving {
  import opened Api
  import opened Keys
  import opened SortedSet
  import opened RedisStore

  datatype Caller = Client(n: nat) | Worker(n: nat)

  // A read-modify-write between its two round trips, holding the record it will write.
  datatype Call = StatusCall(id: TaskId, task: Task) | MarkCall(id: TaskId, task: Task)

  datatype System = System(db: Db, calls: map<Caller, Call>)

  datatype Step =
    | Save(task: Task, now: int, tx: Outcome)
    | ReadForStatus(c: Caller, id: TaskId, status: Status)
    | ReadForMark(c: Caller, id: TaskId)
    | Write(c: Caller, tx: Outcome)
    | Abandon(c: Caller)
    | Remove(id: TaskId, tx: Outcome)

  const EMPTY := System(Db(map[], map[], map[], []), map[])

  // What callers owe the store: atespaces hold no colon, and a status write names the
  // atespace it read from rather than leaving it empty. Deletes may leave it empty.
  predicate Allowed(s: System, step: Step) {
    match step
    case Save(task, _, _) => NoColon(task.meta.atespace)
    case ReadForStatus(c, id, _) => c !in s.calls && NoColon(id.atespace) && id.atespace != ""
    case ReadForMark(c, id) => c !in s.calls && NoColon(id.atespace)
    case Write(c, _) => c in s.calls
    case Abandon(c) => c in s.calls
    case Remove(id, _) => NoColon(id.atespace)
  }

  function WriteTx(db: Db, call: Call): Db {
    match call
    case StatusCall(id, task) => StatusTx(db, id, task)
    case MarkCall(id, task) => MarkTx(db, id, task)
  }

  function Take(s: System, step: Step): System
    requires Allowed(s, step)
  {
    match step
    case Save(task, now, tx) =>
      if task.meta.name == "" then s
      else s.(db := IfLanded(tx, s.db, SaveTx(s.db, WithDefaults(task), now)))
    case ReadForStatus(c, id, status) =>
      if ReadId(id) !in s.db.records then s
      else s.(calls := s.calls[c := StatusCall(id, s.db.records[ReadId(id)].(status := status))])
    case ReadForMark(c, id) =>
      if ReadId(id) !in s.db.records then s
      else s.(calls := s.calls[c := MarkCall(ReadId(id), Terminated(s.db.records[ReadId(id)]))])
    case Write(c, tx) =>
      System(IfLanded(tx, s.db, WriteTx(s.db, s.calls[c])), s.calls - {c})
    case Abandon(c) => s.(calls := s.calls - {c})
    case Remove(id, tx) => s.(db := IfLanded(tx, s.db, DeleteTx(s.db, ReadId(id))))
  }

  predicate IsRun(s: System, steps: seq<Step>)
    decreases |steps|
  {
    steps == [] || (Allowed(s, steps[0]) && IsRun(Take(s, steps[0]), steps[1..]))
  }

  function After(s: System, steps: seq<Step>): System
    requires IsRun(s, steps)
    decreases |steps|
  {
    if steps == [] then s else After(Take(s, steps[0]), steps[1..])
  }

  // ---- what holds of the database ----

  predicate Indexed(db: Db, id: TaskId) {
    Join(id) in db.index
  }

  // The two indexes hold the same tasks with the same scores, in both directions.
  ghost predicate IndexesAgree(db: Db) {
    && (forall m :: m in db.index ==> Mirrored(db, m))
    && (forall a, n :: n in AtespaceSet(db, a) ==> NoColon(a) && Indexed(db, TaskId(a, n)))
  }

  predicate Mirrored(db: Db, m: string)
    requires m in db.index
  {
    var id := MemberId(m);
    && m == Join(id) && NoColon(id.atespace)
    && id.name in AtespaceSet(db, id.atespace)
    && AtespaceSet(db, id.atespace)[id.name] == db.index[m]
  }

  ghost predicate IndexedHaveRecords(db: Db) {
    forall m :: m in db.index ==> MemberId(m) in db.records
  }

  predicate OwnsKey(id: TaskId, task: Task) {
    task.meta == id && NoColon(id.atespace) && id.atespace != ""
  }

  ghost predicate RecordsNameThemselves(db: Db) {
    forall id :: id in db.records ==> OwnsKey(id, db.records[id])
  }

  ghost predicate Consistent(db: Db) {
    IndexesAgree(db) && IndexedHaveRecords(db) && RecordsNameThemselves(db)
  }

  ghost predicate Sound(s: System) {
    && Consistent(s.db)
    && (forall c :: c in s.calls ==> OwnsKey(s.calls[c].id, s.calls[c].task))
  }

  lemma JoinIsInjective(j: TaskId, k: TaskId)
    requires NoColon(j.atespace) && NoColon(k.atespace)
    ensures Join(j) == Join(k) <==> j == k
  {
    MemberIdOfJoin(j);
    MemberIdOfJoin(k);
  }

  ghost predicate SameOtherEntries(db: Db, after: Db, id: TaskId) {
    forall a, n :: TaskId(a, n) != id ==>
      ((n in AtespaceSet(db, a) <==> n in AtespaceSet(after, a))
       && (n in AtespaceSet(db, a) ==> AtespaceSet(db, a)[n] == AtespaceSet(after, a)[n]))
  }

  lemma SaveLeavesOthersAlone(db: Db, task: Task, now: int)
    ensures SameOtherEntries(db, SaveTx(db, task, now), task.meta)
  {
  }

  lemma DeleteLeavesOthersAlone(db: Db, id: TaskId)
    ensures SameOtherEntries(db, DeleteTx(db, id), id)
  {
  }

  // A change to one task's index entries leaves every other task's entries mirrored.
  lemma OthersStayMirrored(db: Db, after: Db, id: TaskId, m: string)
    requires NoColon(id.atespace) && m != Join(id)
    requires m in db.index && Mirrored(db, m)
    requires m in after.index && after.index[m] == db.index[m]
    requires SameOtherEntries(db, after, id)
    ensures Mirrored(after, m)
  {
    var k := MemberId(m);
    assert k != id;
    assert TaskId(k.atespace, k.name) == k;
  }

  lemma SaveKeepsIndexesAgreeing(db: Db, task: Task, now: int)
    requires IndexesAgree(db) && NoColon(task.meta.atespace)
    ensures IndexesAgree(SaveTx(db, task, now))
  {
    var after, id := SaveTx(db, task, now), task.meta;
    SaveLeavesOthersAlone(db, task, now);
    assert after.index == db.index[Join(id) := now];
    assert forall a, n :: n in AtespaceSet(after, a) ==> TaskId(a, n) == id || n in AtespaceSet(db, a);
    forall m | m in after.index
      ensures Mirrored(after, m)
    {
      MemberIdOfJoin(id);
      if m != Join(id) { OthersStayMirrored(db, after, id, m); }
    }
  }

  lemma SaveKeepsConsistent(db: Db, task: Task, now: int)
    requires Consistent(db) && NoColon(task.meta.atespace) && task.meta.atespace != ""
    ensures Consistent(SaveTx(db, task, now))
  {
    SaveKeepsIndexesAgreeing(db, task, now);
    MemberIdOfJoin(task.meta);
  }

  lemma DeleteKeepsIndexesAgreeing(db: Db, id: TaskId)
    requires IndexesAgree(db) && NoColon(id.atespace)
    ensures IndexesAgree(DeleteTx(db, id))
  {
    var after := DeleteTx(db, id);
    DeleteLeavesOthersAlone(db, id);
    assert after.index == db.index - {Join(id)};
    forall m | m in after.index
      ensures Mirrored(after, m)
    {
      OthersStayMirrored(db, after, id, m);
    }
    forall a, n | n in AtespaceSet(after, a)
      ensures NoColon(a) && Indexed(after, TaskId(a, n))
    {
      assert n in AtespaceSet(db, a);
      JoinIsInjective(TaskId(a, n), id);
    }
  }

  lemma DeleteKeepsConsistent(db: Db, id: TaskId)
    requires Consistent(db) && NoColon(id.atespace)
    ensures Consistent(DeleteTx(db, id))
  {
    DeleteKeepsIndexesAgreeing(db, id);
    var after := DeleteTx(db, id);
    forall m | m in after.index
      ensures MemberId(m) in after.records
    {
      assert Mirrored(db, m);
    }
  }

  lemma WriteKeepsConsistent(db: Db, call: Call)
    requires Consistent(db) && OwnsKey(call.id, call.task)
    ensures Consistent(WriteTx(db, call))
  {
    assert forall a :: AtespaceSet(WriteTx(db, call), a) == AtespaceSet(db, a);
  }

  lemma StepKeepsSound(s: System, step: Step)
    requires Sound(s) && Allowed(s, step)
    ensures Sound(Take(s, step))
  {
    match step
    case Save(task, now, _) => if task.meta.name != "" { SaveKeepsConsistent(s.db, WithDefaults(task), now); }
    case ReadForStatus(_, _, _) =>
    case ReadForMark(_, _) =>
    case Write(c, _) => WriteKeepsConsistent(s.db, s.calls[c]);
    case Abandon(_) =>
    case Remove(id, _) => DeleteKeepsConsistent(s.db, ReadId(id));
  }

  // Every state of every interleaving: indexes agree, indexed tasks have records,
  // records are filed under their own names.
  lemma {:induction false} RunsStaySound(s: System, steps: seq<Step>)
    requires Sound(s) && IsRun(s, steps)
    ensures Sound(After(s, steps))
    decreases |steps|
  {
    if steps != [] {
      StepKeepsSound(s, steps[0]);
      RunsStaySound(Take(s, steps[0]), steps[1..]);
    }
  }

  lemma OnlyRemoveTakesRecords(s: System, step: Step, id: TaskId)
    requires Allowed(s, step) && id in s.db.records && id !in Take(s, step).db.records
    ensures step.Remove? && Landed(step.tx) && ReadId(step.id) == id
  {
  }

  // ---- records without index entries ----

  ghost predicate Orphan(db: Db, id: TaskId) {
    id in db.records && !Indexed(db, id)
  }

  // The write half of a call whose record was removed since the read.
  predicate LateWrite(s: System, step: Step)
    requires Allowed(s, step)
  {
    step.Write? && Landed(step.tx) && s.calls[step.c].id !in s.db.records
  }

  // A record loses its index entries in exactly one way: a late write brings it back.
  lemma OrphansComeFromLateWrites(s: System, step: Step)
    requires Sound(s) && Allowed(s, step)
    ensures (exists id :: Orphan(Take(s, step).db, id) && !Orphan(s.db, id)) <==> LateWrite(s, step)
  {
    var after := Take(s, step).db;
    if LateWrite(s, step) {
      var id := s.calls[step.c].id;
      MemberIdOfJoin(id);
      assert Orphan(after, id) && !Orphan(s.db, id);
    } else {
      forall id | Orphan(after, id)
        ensures Orphan(s.db, id)
      {
        if step.Remove? && Landed(step.tx) {
          JoinIsInjective(id, ReadId(step.id));
        }
      }
    }
  }

  lemma Prepend(s: System, step: Step, rest: seq<Step>)
    requires Allowed(s, step) && IsRun(Take(s, step), rest)
    ensures IsRun(s, [step] + rest) && After(s, [step] + rest) == After(Take(s, step), rest)
  {
    assert ([step] + rest)[1..] == rest;
  }

  // Such a run: a delete mark that reads before the record is removed and writes after.
  lemma LateMarkLeavesAnOrphan(task: Task) returns (steps: seq<Step>)
    requires OwnsKey(task.meta, task) && task.meta.name != "" && WithDefaults(task) == task
    ensures steps
            == [Save(task, 0, Done), ReadForMark(Client(0), task.meta), Remove(task.meta, Done), Write(Client(0), Done)]
    ensures IsRun(EMPTY, steps) && Orphan(After(EMPTY, steps).db, task.meta)
  {
    var id := task.meta;
    assert ReadId(id) == id;
    var s2 := Take(Take(EMPTY, Save(task, 0, Done)), ReadForMark(Client(0), id));
    assert s2.calls == map[Client(0) := MarkCall(id, Terminated(task))];
    var rest := RemoveThenWrite(s2, id, Terminated(task));
    Prepend(Take(EMPTY, Save(task, 0, Done)), ReadForMark(Client(0), id), rest);
    Prepend(EMPTY, Save(task, 0, Done), [ReadForMark(Client(0), id)] + rest);
    steps := [Save(task, 0, Done)] + ([ReadForMark(Client(0), id)] + rest);
  }

  lemma RemoveThenWrite(s: System, id: TaskId, task: Task) returns (steps: seq<Step>)
    requires OwnsKey(id, task) && s.calls == map[Client(0) := MarkCall(id, task)]
    ensures steps == [Remove(id, Done), Write(Client(0), Done)]
    ensures IsRun(s, steps) && Orphan(After(s, steps).db, id)
  {
    assert ReadId(id) == id;
    var t := Take(s, Remove(id, Done));
    assert t.calls == s.calls && !Indexed(t.db, id);
    Prepend(t, Write(Client(0), Done), []);
    Prepend(s, Remove(id, Done), [Write(Client(0), Done)]);
    steps := [Remove(id, Done)] + [Write(Client(0), Done)];
    assert [Write(Client(0), Done)] + [] == [Write(Client(0), Done)];
  }

  // Calls do not overlap: while one is between its round trips only it may move.
  predicate Alone(s: System, step: Step) {
    s.calls == map[] || ((step.Write? || step.Abandon?) && s.calls.Keys == {step.c})
  }

  predicate IsSerial(s: System, steps: seq<Step>)
    requires IsRun(s, steps)
    decreases |steps|
  {
    steps == [] || (Alone(s, steps[0]) && IsSerial(Take(s, steps[0]), steps[1..]))
  }

  ghost predicate Exact(s: System) {
    && (forall id :: id in s.db.records <==> (Indexed(s.db, id) && MemberId(Join(id)) == id))
    && (forall c :: c in s.calls ==> s.calls[c].id in s.db.records)
  }

  lemma SerialStepKeepsExact(s: System, step: Step)
    requires Sound(s) && Exact(s) && Allowed(s, step) && Alone(s, step)
    ensures Exact(Take(s, step))
  {
    var t := Take(s, step);
    StepKeepsSound(s, step);
    OrphansComeFromLateWrites(s, step);
    forall id
      ensures id in t.db.records <==> (Indexed(t.db, id) && MemberId(Join(id)) == id)
    {
      if id in t.db.records {
        MemberIdOfJoin(id);
        assert !Orphan(s.db, id) && !Orphan(t.db, id);
      }
    }
    forall c | c in t.calls
      ensures t.calls[c].id in t.db.records
    {
      if step.ReadForStatus? && c == step.c { assert ReadId(step.id) == step.id; }
    }
  }

  // When calls do not overlap, the records and the index members are the same tasks.
  lemma {:induction false} SerialRunsStayExact(s: System, steps: seq<Step>)
    requires Sound(s) && Exact(s) && IsRun(s, steps) && IsSerial(s, steps)
    ensures Exact(After(s, steps))
    decreases |steps|
  {
    if steps != [] {
      SerialStepKeepsExact(s, steps[0]);
      StepKeepsSound(s, steps[0]);
      SerialRunsStayExact(Take(s, steps[0]), steps[1..]);
    }
  }

  lemma EmptyStoreIsSoundAndExact()
    ensures Sound(EMPTY) && Exact(EMPTY)
  {
  }

  // ---- what the split read and write cost ----

  predicate By(step: Step, c: Caller) {
    match step
    case ReadForStatus(d, _, _) => d == c
    case ReadForMark(d, _) => d == c
    case Write(d, _) => d == c
    case Abandon(d) => d == c
    case Save(_, _, _) => false
    case Remove(_, _) => false
  }

  predicate Others(steps: seq<Step>, c: Caller) {
    forall i :: 0 <= i < |steps| ==> !By(steps[i], c)
  }

  // The read half of an UpdateTaskStatus or MarkTaskDeleting for id.
  predicate ReadsFor(step: Step, c: Caller, id: TaskId) {
    (step.ReadForStatus? || step.ReadForMark?) && step.c == c && step.id == id
  }

  lemma {:induction false} HeldCallStays(s: System, steps: seq<Step>, c: Caller)
    requires Sound(s) && IsRun(s, steps) && Others(steps, c) && c in s.calls
    ensures c in After(s, steps).calls && After(s, steps).calls[c] == s.calls[c] && Sound(After(s, steps))
    decreases |steps|
  {
    if steps != [] {
      assert !By(steps[0], c);
      StepKeepsSound(s, steps[0]);
      HeldCallStays(Take(s, steps[0]), steps[1..], c);
    }
  }

  lemma ReadHoldsSpec(s: System, read: Step, c: Caller, id: TaskId)
    requires Sound(s) && ReadsFor(read, c, id) && Allowed(s, read) && ReadId(id) in s.db.records
    ensures var t := Take(s, read);
            && Sound(t) && c in t.calls && t.calls[c].id == ReadId(id)
              && t.calls[c].task.spec == s.db.records[ReadId(id)].spec
  {
    StepKeepsSound(s, read);
  }

  // Whatever others do between the two round trips, the write puts back the spec that was
  // read. So a save that lands in between survives exactly if it left the spec as it was.
  lemma SaveBetweenSurvivesIff(s: System, read: Step, between: seq<Step>, c: Caller, id: TaskId, tx: Outcome)
    requires Sound(s) && ReadsFor(read, c, id) && Allowed(s, read) && ReadId(id) in s.db.records && Landed(tx)
    requires IsRun(Take(s, read), between) && Others(between, c)
    ensures var mid := After(Take(s, read), between);
            && Allowed(mid, Write(c, tx))
            && ReadId(id) in Take(mid, Write(c, tx)).db.records
    ensures var k, was := ReadId(id), s.db.records[ReadId(id)].spec;
            var now := Take(After(Take(s, read), between), Write(c, tx)).db.records[k].spec;
            && now == was
            && forall i :: 0 <= i < |between| && between[i].Save? && WithDefaults(between[i].task).meta == k ==>
                 (now == between[i].task.spec <==> between[i].task.spec == was)
  {
    ReadHoldsSpec(s, read, c, id);
    HeldCallStays(Take(s, read), between, c);
  }

  // UpdateTaskStatus reads under the defaulted atespace but writes under the atespace it
  // was given: the record stays filed under its own name exactly when that is not empty.
  lemma StatusWriteIsFiledRightIffAtespaceGiven(db: Db, id: TaskId, status: Status)
    requires Consistent(db) && ReadId(id) in db.records
    ensures RecordsNameThemselves(StatusTx(db, id, db.records[ReadId(id)].(status := status))) <==> id.atespace != ""
  {
    var after := StatusTx(db, id, db.records[ReadId(id)].(status := status));
    assert id in after.records;
    if id.atespace != "" {
      assert ReadId(id) == id;
    }
  }
}
