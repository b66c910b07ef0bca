// The order of a listing: a saved task comes first, and after any saves at increasing
// times the listing is by last save, newest first.
module SaveOrder {
  import opened Api
  import opened Basics
  import opened Keys
  import opened SortedSet
  import opened RedisStore
  import opened Interleaving
  import opened Listing

  function Dropped(s: seq<string>, m: string): seq<string> {
    if s == [] then [] else (if s[0] == m then [] else [s[0]]) + Dropped(s[1..], m)
  }

  function Without(tasks: seq<Task>, id: TaskId): seq<Task> {
    if tasks == [] then [] else (if tasks[0].meta == id then [] else [tasks[0]]) + Without(tasks[1..], id)
  }

  // ---- the index ----

  lemma {:induction false} DropKeepsOrder(z: ZSet, s: seq<string>, m: string)
    requires Descending(z, s)
    ensures Descending(z, Dropped(s, m))
    ensures forall k :: k in Dropped(s, m) <==> k in s && k != m
  {
    if s != [] {
      var tail, rest := s[1..], Dropped(s[1..], m);
      assert forall i :: 0 <= i < |tail| ==> tail[i] == s[i + 1];
      DropKeepsOrder(z, tail, m);
      HeadStaysFirst(z, s, rest);
      assert forall k :: k in s <==> k == s[0] || k in tail;
    }
  }

  lemma HeadStaysFirst(z: ZSet, s: seq<string>, rest: seq<string>)
    requires s != [] && Descending(z, s) && Descending(z, rest) && forall k :: k in rest ==> k in s[1..]
    ensures Descending(z, [s[0]] + rest) && Descending(z, [] + rest)
  {
    forall i | 0 <= i < |rest|
      ensures Before(z, s[0], rest[i])
    {
      assert rest[i] in s[1..];
    }
    assert [] + rest == rest;
  }

  lemma DroppedIsNewestFirst(z: ZSet, s: seq<string>, m: string)
    requires IsNewestFirst(z, s)
    ensures IsNewestFirst(z - {m}, Dropped(s, m))
  {
    DropKeepsOrder(z, s, m);
    var d := Dropped(s, m);
    assert forall i :: 0 <= i < |d| ==> d[i] in d;
    forall i, j | 0 <= i < j < |d|
      ensures Before(z - {m}, d[i], d[j])
    {
      assert Before(z, d[i], d[j]);
    }
  }

  // A member scored above all others moves to the front.
  lemma ScoredLastComesFirst(z: ZSet, m: string, now: int)
    requires forall k :: k in z ==> z[k] < now
    ensures NewestFirst(z[m := now]) == [m] + Dropped(NewestFirst(z), m)
  {
    var after := z[m := now];
    NewestFirstIsListing(z);
    NewestFirstIsListing(after);
    DroppedIsNewestFirst(z, NewestFirst(z), m);
    assert after - {m} == z - {m};
    PrependFirst(after, m, Dropped(NewestFirst(z), m));
    NewestFirstIsUnique(after, NewestFirst(after), [m] + Dropped(NewestFirst(z), m));
  }

  // ---- the listing ----

  predicate NamesItself(m: string) {
    m == Join(MemberId(m))
  }

  lemma {:induction false} FetchAfterSave(records: map<TaskId, Task>, members: seq<string>, task: Task)
    requires NoColon(task.meta.atespace)
    requires forall i :: 0 <= i < |members| ==> MemberId(members[i]) in records && NamesItself(members[i])
    requires forall i :: 0 <= i < |members| ==> records[MemberId(members[i])].meta == MemberId(members[i])
    ensures Fetch(records[task.meta := task], Dropped(members, Join(task.meta)))
            == Without(Fetch(records, members), task.meta)
  {
    if members != [] {
      var tail, id := members[1..], MemberId(members[0]);
      assert forall i :: 0 <= i < |tail| ==> tail[i] == members[i + 1];
      FetchAfterSave(records, tail, task);
      MemberIdOfJoin(task.meta);
      assert members[0] == Join(task.meta) <==> id == task.meta;
      var rest := Dropped(tail, Join(task.meta));
      assert ([members[0]] + rest)[1..] == rest && [] + rest == rest;
      assert Fetch(records, members)[1..] == Fetch(records, tail);
    }
  }

  // Every score is earlier than this time.
  ghost predicate SavedBefore(db: Db, time: int) {
    forall m :: m in db.index ==> db.index[m] < time
  }

  // A save later than all others puts its task at the head of the listing, with the
  // record saved; the other tasks keep their order and their records.
  lemma SavedTaskComesFirst(db: Db, task: Task, now: int)
    requires Consistent(db) && OwnsKey(task.meta, task) && SavedBefore(db, now)
    ensures Everything(SaveTx(db, task, now), "*") == [task] + Without(Everything(db, "*"), task.meta)
  {
    var after, m, members := SaveTx(db, task, now), Join(task.meta), NewestFirst(db.index);
    ScoredLastComesFirst(db.index, m, now);
    NewestFirstIsListing(db.index);
    MemberIdOfJoin(task.meta);
    forall i | 0 <= i < |members|
      ensures MemberId(members[i]) in db.records && NamesItself(members[i])
      ensures db.records[MemberId(members[i])].meta == MemberId(members[i])
    {
      assert members[i] in members && Mirrored(db, members[i]);
      assert OwnsKey(MemberId(members[i]), db.records[MemberId(members[i])]);
    }
    FetchAfterSave(db.records, members, task);
    var rest := Dropped(members, m);
    assert ([m] + rest)[1..] == rest;
  }

  lemma {:induction false} WithoutOfAtespace(tasks: seq<Task>, id: TaskId, atespace: string)
    ensures OfAtespace(Without(tasks, id), atespace) == Without(OfAtespace(tasks, atespace), id)
  {
    if tasks != [] {
      WithoutOfAtespace(tasks[1..], id, atespace);
      var a, b := Without(tasks[1..], id), OfAtespace(tasks[1..], atespace);
      assert ([tasks[0]] + a)[1..] == a && ([tasks[0]] + b)[1..] == b && [] + a == a && [] + b == b;
      assert [] + Without(b, id) == Without(b, id) && [] + OfAtespace(a, atespace) == OfAtespace(a, atespace);
    }
  }

  // The same in the listing of the task's atespace; another atespace's listing is unchanged.
  lemma SavedTaskComesFirstInItsAtespace(db: Db, task: Task, now: int, atespace: string)
    requires Consistent(db) && OwnsKey(task.meta, task) && SavedBefore(db, now) && !AllAtespaces(atespace)
    ensures Everything(SaveTx(db, task, now), atespace)
            == (if atespace == task.meta.atespace then [task] else []) + Without(Everything(db, atespace), task.meta)
  {
    SaveKeepsConsistent(db, task, now);
    AtespaceListingIsFilteredListing(db, atespace);
    AtespaceListingIsFilteredListing(SaveTx(db, task, now), atespace);
    SavedTaskComesFirst(db, task, now);
    var rest := Without(Everything(db, "*"), task.meta);
    WithoutOfAtespace(Everything(db, "*"), task.meta, atespace);
    assert ([task] + rest)[1..] == rest;
  }

  // ---- any number of saves ----

  datatype Saved = Saved(task: Task, time: int)

  predicate Orderly(saves: seq<Saved>) {
    && (forall i :: 0 <= i < |saves| ==> OwnsKey(saves[i].task.meta, saves[i].task))
    && (forall i, j :: 0 <= i < j < |saves| ==> saves[i].time < saves[j].time)
  }

  function SavedAll(saves: seq<Saved>): Db {
    if saves == [] then EMPTY.db
    else SaveTx(SavedAll(saves[..|saves| - 1]), saves[|saves| - 1].task, saves[|saves| - 1].time)
  }

  // Save i is the last one of its task.
  predicate IsLast(saves: seq<Saved>, i: nat) {
    i < |saves| && forall j :: i < j < |saves| ==> saves[j].task.meta != saves[i].task.meta
  }

  // The tasks are those saved at these positions.
  predicate TakenAt(tasks: seq<Task>, saves: seq<Saved>, order: seq<nat>) {
    |order| == |tasks| && forall i :: 0 <= i < |order| ==> order[i] < |saves| && tasks[i] == saves[order[i]].task
  }

  predicate Falling(order: seq<nat>) {
    forall i, j :: 0 <= i < j < |order| ==> order[i] > order[j]
  }

  // The tasks as last saved, latest save first: `order` names those saves.
  ghost predicate ByLastSave(tasks: seq<Task>, saves: seq<Saved>, order: seq<nat>) {
    TakenAt(tasks, saves, order) && Falling(order) && forall k: nat :: k in order <==> IsLast(saves, k)
  }

  lemma LastAfterOneMore(saves: seq<Saved>, s: Saved, k: nat)
    ensures IsLast(saves + [s], k)
            <==> k == |saves| || (IsLast(saves, k) && saves[k].task.meta != s.task.meta)
  {
    var more := saves + [s];
    assert more[|saves|] == s && forall j :: 0 <= j < |saves| ==> more[j] == saves[j];
  }

  // The positions whose task is another.
  function Others(order: seq<nat>, saves: seq<Saved>, id: TaskId): seq<nat>
    requires forall i :: 0 <= i < |order| ==> order[i] < |saves|
  {
    if order == [] then []
    else (if saves[order[0]].task.meta == id then [] else [order[0]]) + Others(order[1..], saves, id)
  }

  lemma {:induction false} OthersHold(order: seq<nat>, saves: seq<Saved>, id: TaskId, k: nat)
    requires forall i :: 0 <= i < |order| ==> order[i] < |saves|
    ensures k in Others(order, saves, id) <==> k in order && saves[k].task.meta != id
  {
    if order != [] {
      OthersHold(order[1..], saves, id, k);
      assert k in order <==> k == order[0] || k in order[1..];
    }
  }

  lemma FallingFrom(head: nat, tail: seq<nat>)
    requires Falling(tail) && forall k :: k in tail ==> k < head
    ensures Falling([head] + tail)
  {
    forall i | 0 <= i < |tail|
      ensures tail[i] < head
    {
      assert tail[i] in tail;
    }
  }

  lemma FallingTail(order: seq<nat>)
    requires Falling(order) && order != []
    ensures Falling(order[1..]) && forall k :: k in order[1..] ==> k < order[0]
  {
  }

  lemma {:induction false} OthersFall(order: seq<nat>, saves: seq<Saved>, id: TaskId)
    requires Falling(order) && forall i :: 0 <= i < |order| ==> order[i] < |saves|
    ensures Falling(Others(order, saves, id))
  {
    if order != [] {
      FallingTail(order);
      OthersFall(order[1..], saves, id);
      var rest := Others(order[1..], saves, id);
      forall k | k in rest
        ensures k < order[0]
      {
        OthersHold(order[1..], saves, id, k);
      }
      FallingFrom(order[0], rest);
      assert [] + rest == rest;
    }
  }

  lemma TakenCons(task: Task, tasks: seq<Task>, saves: seq<Saved>, at: nat, order: seq<nat>)
    requires at < |saves| && task == saves[at].task && TakenAt(tasks, saves, order)
    ensures TakenAt([task] + tasks, saves, [at] + order)
  {
  }

  lemma {:induction false} OthersAreTaken(tasks: seq<Task>, saves: seq<Saved>, order: seq<nat>, id: TaskId)
    requires TakenAt(tasks, saves, order)
    ensures TakenAt(Without(tasks, id), saves, Others(order, saves, id))
  {
    if order != [] {
      OthersAreTaken(tasks[1..], saves, order[1..], id);
      var rest, at := Without(tasks[1..], id), Others(order[1..], saves, id);
      TakenCons(tasks[0], rest, saves, order[0], at);
      assert [] + rest == rest && [] + at == at;
    }
  }

  lemma TakenOfMore(tasks: seq<Task>, saves: seq<Saved>, s: Saved, order: seq<nat>)
    requires TakenAt(tasks, saves, order)
    ensures TakenAt(tasks, saves + [s], order)
  {
  }

  lemma OneMoreByLastSave(tasks: seq<Task>, saves: seq<Saved>, order: seq<nat>, s: Saved) returns (more: seq<nat>)
    requires ByLastSave(tasks, saves, order)
    ensures ByLastSave([s.task] + Without(tasks, s.task.meta), saves + [s], more)
  {
    var id, n := s.task.meta, |saves|;
    var rest := Others(order, saves, id);
    OthersAreTaken(tasks, saves, order, id);
    TakenOfMore(Without(tasks, id), saves, s, rest);
    TakenCons(s.task, Without(tasks, id), saves + [s], n, rest);
    more := [n] + rest;
    forall k: nat
      ensures k in more <==> IsLast(saves + [s], k)
      ensures k in rest ==> k < n
    {
      OthersHold(order, saves, id, k);
      LastAfterOneMore(saves, s, k);
    }
    OthersFall(order, saves, id);
    FallingFrom(n, rest);
  }

  lemma {:induction false} SavesStayBefore(saves: seq<Saved>, time: int)
    requires forall i :: 0 <= i < |saves| ==> saves[i].time < time
    ensures SavedBefore(SavedAll(saves), time)
  {
    if saves != [] { SavesStayBefore(saves[..|saves| - 1], time); }
  }

  ghost predicate ListedByLastSave(saves: seq<Saved>, order: seq<nat>) {
    Consistent(SavedAll(saves)) && ByLastSave(Everything(SavedAll(saves), "*"), saves, order)
  }

  lemma NothingSaved()
    ensures ListedByLastSave([], [])
  {
    EmptyStoreIsSoundAndExact();
    NewestFirstIsListing(EMPTY.db.index);
  }

  // After any saves at increasing times the listing holds every task as last saved, the
  // one saved last first.
  lemma {:induction false} ListingIsByLastSave(saves: seq<Saved>) returns (order: seq<nat>)
    requires Orderly(saves)
    ensures ListedByLastSave(saves, order)
  {
    if saves == [] {
      NothingSaved();
      return [];
    }
    var n := |saves| - 1;
    var before := ListingIsByLastSave(saves[..n]);
    order := ListingAfterLast(saves, n, before);
  }

  lemma ListingAfterLast(saves: seq<Saved>, n: nat, order: seq<nat>) returns (more: seq<nat>)
    requires Orderly(saves) && |saves| == n + 1 && ListedByLastSave(saves[..n], order)
    ensures ListedByLastSave(saves, more)
  {
    SplitLast(saves, n);
    more := ListingAfterSave(saves[..n], saves[n], saves, order);
  }

  lemma ListingAfterSave(saves: seq<Saved>, s: Saved, all: seq<Saved>, order: seq<nat>) returns (more: seq<nat>)
    requires ListedByLastSave(saves, order) && all == saves + [s]
    requires OwnsKey(s.task.meta, s.task) && forall i :: 0 <= i < |saves| ==> saves[i].time < s.time
    ensures ListedByLastSave(all, more)
  {
    var db := SavedAll(saves);
    assert all[..|saves|] == saves;
    assert SavedAll(all) == SaveTx(db, s.task, s.time);
    SaveKeepsConsistent(db, s.task, s.time);
    SavesStayBefore(saves, s.time);
    SavedTaskComesFirst(db, s.task, s.time);
    more := OneMoreByLastSave(Everything(db, "*"), saves, order, s);
  }
}
