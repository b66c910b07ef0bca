// The Redis-backed task store: each pipelined transaction as a function of the
// database, the store object whose methods issue those transactions, and the
// listing of tasks through the two sorted-set indexes.
module RedisStore {
  import opened Api
  import opened Keys
  import opened SortedSet

  datatype Db = Db(records: map<TaskId, Task>, index: ZSet, byAtespace: map<string, ZSet>, stream: seq<Event>)

  function AtespaceSet(db: Db, atespace: string): ZSet {
    if atespace in db.byAtespace then db.byAtespace[atespace] else map[]
  }

  // SaveTask's MULTI: SET, ZADD to both indexes, XADD.
  function SaveTx(db: Db, task: Task, now: int): Db {
    var id := task.meta;
    db.(records := db.records[id := task],
        index := db.index[Join(id) := now],
        byAtespace := db.byAtespace[id.atespace := AtespaceSet(db, id.atespace)[id.name := now]],
        stream := db.stream + [Event(id.atespace, id.name, RECONCILE)])
  }

  // UpdateTaskStatus's MULTI: SET only.
  function StatusTx(db: Db, id: TaskId, task: Task): Db {
    db.(records := db.records[id := task])
  }

  // MarkTaskDeleting's MULTI: SET and XADD.
  function MarkTx(db: Db, id: TaskId, task: Task): Db {
    db.(records := db.records[id := task],
        stream := db.stream + [Event(id.atespace, id.name, DELETE)])
  }

  // DeleteTask's MULTI: DEL, ZREM from both indexes.
  function DeleteTx(db: Db, id: TaskId): Db {
    db.(records := db.records - {id},
        index := db.index - {Join(id)},
        byAtespace := db.byAtespace[id.atespace := AtespaceSet(db, id.atespace) - {id.name}])
  }

  function Terminated(task: Task): Task {
    task.(status := task.status.(phase := TERMINATING))
  }

  function IfLanded(o: Outcome, before: Db, after: Db): Db {
    if Landed(o) then after else before
  }

  function ErrorOf(o: Outcome): Option<Error> {
    if o.Done? then None else Some(Backend)
  }

  // ---- listing ----

  const MAX_INT64: int := 0x7fff_ffff_ffff_ffff

  predicate IsInt64(x: int) {
    -MAX_INT64 - 1 <= x <= MAX_INT64
  }

  // Two's-complement wrap of a sum that overflows by less than one period.
  function Wrap64(x: int): int {
    if x > MAX_INT64 then x - 0x1_0000_0000_0000_0000
    else if x < -MAX_INT64 - 1 then x + 0x1_0000_0000_0000_0000
    else x
  }

  predicate AllAtespaces(atespace: string) {
    atespace == "" || atespace == "*"
  }

  function JoinAll(atespace: string, names: seq<string>): (members: seq<string>)
    ensures |members| == |names|
    ensures forall i :: 0 <= i < |names| ==> members[i] == Join(TaskId(atespace, names[i]))
  {
    seq(|names|, i requires 0 <= i < |names| => Join(TaskId(atespace, names[i])))
  }

  // MGET: records that are missing are skipped.
  function Fetch(records: map<TaskId, Task>, members: seq<string>): seq<Task> {
    if members == [] then []
    else
      var id := MemberId(members[0]);
      (if id in records then [records[id]] else []) + Fetch(records, members[1..])
  }

  function ListedMembers(db: Db, atespace: string, start: int, stop: int): seq<string> {
    if AllAtespaces(atespace) then Range(NewestFirst(db.index), start, stop)
    else JoinAll(atespace, Range(NewestFirst(AtespaceSet(db, atespace)), start, stop))
  }

  // The members a request asks for; a limit that is not positive means 50.
  function Requested(db: Db, atespace: string, limit: int, offset: int): seq<string> {
    var count := if limit <= 0 then 50 else limit;
    ListedMembers(db, atespace, offset, Wrap64(offset + count - 1))
  }

  function Listed(db: Db, atespace: string, limit: int, offset: int): seq<Task> {
    Fetch(db.records, Requested(db, atespace, limit, offset))
  }

  lemma {:induction false} FetchSnoc(records: map<TaskId, Task>, members: seq<string>, m: string)
    ensures Fetch(records, members + [m])
         == Fetch(records, members) + (if MemberId(m) in records then [records[MemberId(m)]] else [])
  {
    if members == [] {
      assert [m][1..] == [];
    } else {
      assert (members + [m])[1..] == members[1..] + [m];
      FetchSnoc(records, members[1..], m);
    }
  }

  method JoinNames(atespace: string, names: seq<string>) returns (members: seq<string>)
    ensures members == JoinAll(atespace, names)
  {
    members := [];
    for i := 0 to |names|
      invariant |members| == i
      invariant forall j :: 0 <= j < i ==> members[j] == Join(TaskId(atespace, names[j]))
    {
      members := members + [Join(TaskId(atespace, names[i]))];
    }
  }

  // ---- the store object ----

  class Store {
    var records: map<TaskId, Task>
    var index: ZSet
    var byAtespace: map<string, ZSet>
    var stream: seq<Event>

    function Contents(): Db
      reads this
    {
      Db(records, index, byAtespace, stream)
    }

    constructor ()
      ensures Contents() == Db(map[], map[], map[], [])
    {
      records, index, byAtespace, stream := map[], map[], map[], [];
    }

    method SaveTask(task: Task, now: int, tx: Outcome) returns (saved: Task, err: Option<Error>)
      modifies this
      ensures task.meta.name == "" ==> err == Some(NameRequired) && saved == task && Contents() == old(Contents())
      ensures task.meta.name != "" ==>
                && saved == WithDefaults(task) && err == ErrorOf(tx)
                && saved.meta
                  == TaskId(if task.meta.atespace == "" then "default" else task.meta.atespace, task.meta.name)
                && saved.spec == task.spec
                && saved.status == (if task.status.phase == "" then task.status.(phase := "Pending") else task.status)
                && Contents() == IfLanded(tx, old(Contents()), SaveTx(old(Contents()), saved, now))
    {
      saved, err := task, None;
      if saved.meta.name == "" { return saved, Some(NameRequired); }
      if saved.meta.atespace == "" {
        saved := saved.(meta := saved.meta.(atespace := DEFAULT_ATESPACE));
      }
      if saved.status.phase == "" {
        saved := saved.(status := saved.status.(phase := PENDING));
      }
      var id := saved.meta;
      if Landed(tx) {
        var names := AtespaceSet(Contents(), id.atespace);
        records := records[id := saved];
        index := index[Join(id) := now];
        byAtespace := byAtespace[id.atespace := names[id.name := now]];
        stream := stream + [Event(id.atespace, id.name, RECONCILE)];
      }
      err := ErrorOf(tx);
    }

    method GetTask(id: TaskId, reachable: bool) returns (task: Option<Task>, err: Option<Error>)
      ensures !reachable ==> task == None && err == Some(Backend)
      ensures reachable && ReadId(id) !in records ==> task == None && err == Some(NotFound)
      ensures reachable && ReadId(id) in records ==> task == Some(records[ReadId(id)]) && err == None
    {
      if !reachable { return None, Some(Backend); }
      if ReadId(id) !in records { return None, Some(NotFound); }
      return Some(records[ReadId(id)]), None;
    }

    method UpdateTaskStatus(id: TaskId, status: Status, reachable: bool, tx: Outcome) returns (err: Option<Error>)
      modifies this
      ensures err == None ==> id in records && records[id].status == status && stream == old(stream)
      ensures reachable && ReadId(id) in old(records) ==>
                && err == ErrorOf(tx)
                && Contents() == IfLanded(tx, old(Contents()),
                     StatusTx(old(Contents()), id, old(records)[ReadId(id)].(status := status)))
      ensures !(reachable && ReadId(id) in old(records)) ==>
                err == Some(if reachable then NotFound else Backend) && Contents() == old(Contents())
    {
      var task;
      task, err := GetTask(id, reachable);
      if err.Some? { return; }
      var changed := task.value.(status := status);
      if Landed(tx) {
        records := records[id := changed];
      }
      err := ErrorOf(tx);
    }

    method MarkTaskDeleting(id: TaskId, reachable: bool, tx: Outcome) returns (err: Option<Error>)
      modifies this
      ensures err == None ==>
                && ReadId(id) in records && records[ReadId(id)].status.phase == "Terminating"
                && stream == old(stream) + [Event(ReadId(id).atespace, id.name, "delete")]
      ensures reachable && ReadId(id) in old(records) ==>
                && err == ErrorOf(tx)
                && Contents() == IfLanded(tx, old(Contents()),
                     MarkTx(old(Contents()), ReadId(id), Terminated(old(records)[ReadId(id)])))
      ensures !(reachable && ReadId(id) in old(records)) ==>
                err == Some(if reachable then NotFound else Backend) && Contents() == old(Contents())
    {
      var key := ReadId(id);
      var task;
      task, err := GetTask(key, reachable);
      if err.Some? { return; }
      var changed := task.value.(status := task.value.status.(phase := TERMINATING));
      if Landed(tx) {
        records := records[key := changed];
        stream := stream + [Event(key.atespace, key.name, DELETE)];
      }
      err := ErrorOf(tx);
    }

    method DeleteTask(id: TaskId, tx: Outcome) returns (err: Option<Error>)
      modifies this
      ensures err == ErrorOf(tx)
      ensures Contents() == IfLanded(tx, old(Contents()), DeleteTx(old(Contents()), ReadId(id)))
    {
      var key := ReadId(id);
      if Landed(tx) {
        var names := AtespaceSet(Contents(), key.atespace);
        records := records - {key};
        index := index - {Join(key)};
        byAtespace := byAtespace[key.atespace := names - {key.name}];
      }
      err := ErrorOf(tx);
    }

    // The index read: which members the page holds.
    method ReadIndex(atespace: string, start: int, stop: int) returns (members: seq<string>)
      ensures members == ListedMembers(Contents(), atespace, start, stop)
    {
      if AllAtespaces(atespace) {
        members := Range(NewestFirst(index), start, stop);
      } else {
        members := JoinNames(atespace, Range(NewestFirst(AtespaceSet(Contents(), atespace)), start, stop));
      }
    }

    // The batch read of the records those members name.
    method ReadRecords(members: seq<string>) returns (tasks: seq<Task>)
      ensures tasks == Fetch(records, members)
    {
      tasks := [];
      for i := 0 to |members|
        invariant tasks == Fetch(records, members[..i])
      {
        FetchSnoc(records, members[..i], members[i]);
        assert members[..i + 1] == members[..i] + [members[i]];
        var id := MemberId(members[i]);
        if id in records {
          tasks := tasks + [records[id]];
        }
      }
      assert members[..|members|] == members;
    }

    // Whether the index read and the batch read succeed; None is an error. The batch read
    // is made only for a page that has members.
    method ListTasks(atespace: string, limit: int, offset: int, indexOk: bool, recordsOk: bool)
      returns (tasks: Option<seq<Task>>)
      requires IsInt64(limit) && IsInt64(offset)
      ensures tasks.Some? ==> tasks.value == Listed(Contents(), atespace, limit, offset)
      ensures tasks.None? <==> !indexOk || (!recordsOk && Requested(Contents(), atespace, limit, offset) != [])
    {
      if !indexOk { return None; }
      var count := if limit <= 0 then 50 else limit;
      var members := ReadIndex(atespace, offset, Wrap64(offset + count - 1));
      if |members| == 0 { return Some([]); }
      if !recordsOk { return None; }
      var read := ReadRecords(members);
      tasks := Some(read);
    }
  }
}
