// Listing tasks refines one simple object: the newest-first sequence of all records.
// A page is a slice of it, an atespace listing is a filter of it.
module Listing {
  import opened Api
  import opened Basics
  import opened Keys
  import opened SortedSet
  import opened RedisStore
  import opened Interleaving

  // Redis sorted sets hold at most 2^32 - 1 members.
  const MAX_MEMBERS: int := 0xffff_ffff

  ghost predicate WithinCapacity(db: Db) {
    |db.index| <= MAX_MEMBERS && forall a :: |AtespaceSet(db, a)| <= MAX_MEMBERS
  }

  function AllMembers(db: Db, atespace: string): seq<string> {
    if AllAtespaces(atespace) then NewestFirst(db.index)
    else JoinAll(atespace, NewestFirst(AtespaceSet(db, atespace)))
  }

  // The whole listing, before any paging.
  function Everything(db: Db, atespace: string): seq<Task> {
    Fetch(db.records, AllMembers(db, atespace))
  }

  function OfAtespace(tasks: seq<Task>, atespace: string): seq<Task> {
    if tasks == [] then []
    else (if tasks[0].meta.atespace == atespace then [tasks[0]] else []) + OfAtespace(tasks[1..], atespace)
  }

  function Page<T>(s: seq<T>, offset: nat, count: nat): seq<T> {
    s[Min(offset, |s|)..Min(offset + count, |s|)]
  }

  // ---- an atespace listing is a filter of the global one ----

  function MembersOf(members: seq<string>, atespace: string): seq<string> {
    if members == [] then []
    else (if MemberId(members[0]).atespace == atespace then [members[0]] else []) + MembersOf(members[1..], atespace)
  }

  ghost predicate Descending(z: ZSet, s: seq<string>) {
    && (forall i :: 0 <= i < |s| ==> s[i] in z)
    && (forall i, j :: 0 <= i < j < |s| ==> Before(z, s[i], s[j]))
  }

  lemma {:induction false} FilterKeepsOrder(z: ZSet, s: seq<string>, atespace: string)
    requires Descending(z, s)
    ensures Descending(z, MembersOf(s, atespace))
    ensures forall m :: m in MembersOf(s, atespace) <==> m in s && MemberId(m).atespace == atespace
  {
    if s != [] {
      var tail, rest := s[1..], MembersOf(s[1..], atespace);
      assert forall i :: 0 <= i < |tail| ==> tail[i] == s[i + 1];
      FilterKeepsOrder(z, tail, atespace);
      assert s == [s[0]] + tail;
      forall i | 0 <= i < |rest|
        ensures Before(z, s[0], rest[i])
      {
        assert rest[i] in tail;
        var k :| 0 <= k < |tail| && tail[k] == rest[i];
        assert Before(z, s[0], s[k + 1]);
      }
    }
  }

  // Equal scores are broken alike in both indexes: the shared "atespace:" prefix cancels.
  lemma SameOrderInBothIndexes(db: Db, m: string, n: string)
    requires IndexesAgree(db) && m in db.index && n in db.index
    requires MemberId(m).atespace == MemberId(n).atespace
    ensures var z := AtespaceSet(db, MemberId(m).atespace);
            && MemberId(m).name in z && MemberId(n).name in z
            && Before(z, MemberId(m).name, MemberId(n).name) == Before(db.index, m, n)
  {
    var i, j := MemberId(m), MemberId(n);
    assert Mirrored(db, m) && Mirrored(db, n);
    assert m == (i.atespace + ":") + i.name && n == (i.atespace + ":") + j.name;
    LexPrefix(i.atespace + ":", j.name, i.name);
  }

  function NamesOf(members: seq<string>): (names: seq<string>)
    ensures |names| == |members|
    ensures forall i :: 0 <= i < |names| ==> names[i] == MemberId(members[i]).name
  {
    seq(|members|, i requires 0 <= i < |members| => MemberId(members[i]).name)
  }

  lemma FilteredNamesAreTheAtespaceListing(db: Db, atespace: string)
    requires IndexesAgree(db)
    ensures IsNewestFirst(AtespaceSet(db, atespace), NamesOf(MembersOf(NewestFirst(db.index), atespace)))
  {
    var all := NewestFirst(db.index);
    NewestFirstIsListing(db.index);
    var mine := MembersOf(all, atespace);
    FilterKeepsOrder(db.index, all, atespace);
    var names, z := NamesOf(mine), AtespaceSet(db, atespace);
    forall i | 0 <= i < |mine|
      ensures mine[i] in db.index && MemberId(mine[i]).atespace == atespace
      ensures names[i] in z
    {
      assert mine[i] in mine;
      assert Mirrored(db, mine[i]);
    }
    forall i, j | 0 <= i < j < |names|
      ensures Before(z, names[i], names[j])
    {
      SameOrderInBothIndexes(db, mine[i], mine[j]);
      assert Before(db.index, mine[i], mine[j]);
    }
    forall n | n in z
      ensures n in names
    {
      var m := Join(TaskId(atespace, n));
      MemberIdOfJoin(TaskId(atespace, n));
      assert m in all && m in mine;
      var i :| 0 <= i < |mine| && mine[i] == m;
      assert names[i] == n;
    }
  }

  lemma JoinUndoesNames(db: Db, members: seq<string>, atespace: string)
    requires IndexesAgree(db)
    requires forall m :: m in members ==> m in db.index && MemberId(m).atespace == atespace
    ensures JoinAll(atespace, NamesOf(members)) == members
  {
    forall i | 0 <= i < |members|
      ensures JoinAll(atespace, NamesOf(members))[i] == members[i]
    {
      assert members[i] in members;
      assert Mirrored(db, members[i]);
    }
  }

  lemma AtespaceMembersAreFiltered(db: Db, atespace: string)
    requires IndexesAgree(db)
    ensures JoinAll(atespace, NewestFirst(AtespaceSet(db, atespace))) == MembersOf(NewestFirst(db.index), atespace)
  {
    var all, z := NewestFirst(db.index), AtespaceSet(db, atespace);
    var mine := MembersOf(all, atespace);
    NewestFirstIsListing(db.index);
    FilterKeepsOrder(db.index, all, atespace);
    JoinUndoesNames(db, mine, atespace);
    FilteredNamesAreTheAtespaceListing(db, atespace);
    NewestFirstIsListing(z);
    NewestFirstIsUnique(z, NamesOf(mine), NewestFirst(z));
  }

  // ---- nothing indexed goes missing ----

  ghost predicate HaveRecords(db: Db, members: seq<string>) {
    forall i :: 0 <= i < |members| ==> MemberId(members[i]) in db.records
  }

  lemma MembersHaveRecords(db: Db, atespace: string)
    requires Consistent(db)
    ensures HaveRecords(db, AllMembers(db, atespace))
  {
    NewestFirstIsListing(db.index);
    if !AllAtespaces(atespace) {
      AtespaceMembersAreFiltered(db, atespace);
      FilterKeepsOrder(db.index, NewestFirst(db.index), atespace);
    }
  }

  lemma {:induction false} FetchReadsEachRecord(db: Db, members: seq<string>)
    requires HaveRecords(db, members)
    ensures |Fetch(db.records, members)| == |members|
    ensures forall i :: 0 <= i < |members| ==> Fetch(db.records, members)[i] == db.records[MemberId(members[i])]
  {
    if members != [] {
      var tail := members[1..];
      assert forall i :: 0 <= i < |tail| ==> tail[i] == members[i + 1];
      FetchReadsEachRecord(db, tail);
    }
  }

  lemma {:induction false} FetchCommutesWithFilter(db: Db, members: seq<string>, atespace: string)
    requires RecordsNameThemselves(db) && HaveRecords(db, members)
    ensures Fetch(db.records, MembersOf(members, atespace)) == OfAtespace(Fetch(db.records, members), atespace)
  {
    if members != [] {
      var tail := members[1..];
      assert forall i :: 0 <= i < |tail| ==> tail[i] == members[i + 1];
      FetchCommutesWithFilter(db, tail, atespace);
      assert Fetch(db.records, members) == [db.records[MemberId(members[0])]] + Fetch(db.records, tail);
      var rest := MembersOf(tail, atespace);
      assert Fetch(db.records, members)[1..] == Fetch(db.records, tail);
      assert ([members[0]] + rest)[1..] == rest && [] + rest == rest;
      assert OwnsKey(MemberId(members[0]), db.records[MemberId(members[0])]);
    }
  }

  // The atespace listing is the all-atespaces listing with the other atespaces left out.
  lemma AtespaceListingIsFilteredListing(db: Db, atespace: string)
    requires Consistent(db) && !AllAtespaces(atespace)
    ensures Everything(db, atespace) == OfAtespace(Everything(db, "*"), atespace)
  {
    AtespaceMembersAreFiltered(db, atespace);
    MembersHaveRecords(db, "*");
    FetchCommutesWithFilter(db, NewestFirst(db.index), atespace);
  }

  // ---- paging ----

  // What the API server passes on for the limit and offset in a request.
  function ServerListed(db: Db, atespace: string, limit: int, offset: int): seq<Task> {
    Listed(db, atespace, PageSize(limit), PageStart(offset))
  }

  function PageSize(limit: int): nat {
    if limit > 0 then limit else 50
  }

  function PageStart(offset: int): nat {
    if offset >= 0 then offset else 0
  }

  // No limit means fifty, and a negative offset the start.
  lemma DefaultsOfARequest(db: Db, atespace: string, limit: int, offset: int)
    ensures limit <= 0 ==> ServerListed(db, atespace, limit, offset) == ServerListed(db, atespace, 50, offset)
    ensures limit <= 0 ==> Listed(db, atespace, limit, offset) == Listed(db, atespace, 50, offset)
    ensures offset < 0 ==> ServerListed(db, atespace, limit, offset) == ServerListed(db, atespace, limit, 0)
    ensures limit > 0 && offset >= 0 ==>
              ServerListed(db, atespace, limit, offset) == Listed(db, atespace, limit, offset)
  {
  }

  lemma MemberCount(db: Db, atespace: string)
    requires WithinCapacity(db)
    ensures |AllMembers(db, atespace)| <= MAX_MEMBERS
  {
    NewestFirstIsListing(db.index);
    NewestFirstIsListing(AtespaceSet(db, atespace));
  }

  lemma ListedMembersAreARange(db: Db, atespace: string, start: nat, stop: int)
    ensures ListedMembers(db, atespace, start, stop) == Range(AllMembers(db, atespace), start, stop)
  {
    if !AllAtespaces(atespace) {
      var names := NewestFirst(AtespaceSet(db, atespace));
      assert |AllMembers(db, atespace)| == |names|;
      assert ListedMembers(db, atespace, start, stop) == Range(JoinAll(atespace, names), start, stop);
    }
  }

  lemma FetchOfSlice(db: Db, members: seq<string>, lo: nat, hi: nat)
    requires HaveRecords(db, members) && lo <= hi <= |members|
    ensures |Fetch(db.records, members)| == |members|
    ensures Fetch(db.records, members[lo..hi]) == Fetch(db.records, members)[lo..hi]
  {
    FetchReadsEachRecord(db, members);
    FetchReadsEachRecord(db, members[lo..hi]);
  }

  lemma RangeIsPage<T>(s: seq<T>, start: nat, count: nat)
    requires count > 0
    ensures Range(s, start, start + count - 1) == Page(s, start, count)
  {
  }

  lemma FetchOfPage(db: Db, members: seq<string>, start: nat, count: nat)
    requires HaveRecords(db, members) && count > 0
    ensures Fetch(db.records, Range(members, start, start + count - 1))
            == Page(Fetch(db.records, members), start, count)
  {
    RangeIsPage(members, start, count);
    FetchOfSlice(db, members, Min(start, |members|), Min(start + count, |members|));
  }

  lemma ListedFetchesARange(db: Db, atespace: string, start: nat, count: nat)
    requires count > 0
    ensures Listed(db, atespace, count, start)
         == Fetch(db.records, Range(AllMembers(db, atespace), start, Wrap64(start + count - 1)))
  {
    var stop := Wrap64(start + count - 1);
    assert Requested(db, atespace, count, start) == ListedMembers(db, atespace, start, stop);
    ListedMembersAreARange(db, atespace, start, stop);
  }

  lemma UnwrappedRequestIsAPage(db: Db, atespace: string, start: nat, count: nat)
    requires Consistent(db) && count > 0 && start + count - 1 <= MAX_INT64
    ensures Listed(db, atespace, count, start) == Page(Everything(db, atespace), start, count)
  {
    ListedFetchesARange(db, atespace, start, count);
    MembersHaveRecords(db, atespace);
    FetchOfPage(db, AllMembers(db, atespace), start, count);
  }

  lemma WrappedRequestIsEmpty(db: Db, atespace: string, start: nat, count: nat)
    requires WithinCapacity(db) && IsInt64(start) && IsInt64(count) && start + count - 1 > MAX_INT64
    ensures Listed(db, atespace, count, start) == []
  {
    var stop := Wrap64(start + count - 1);
    MemberCount(db, atespace);
    ListedMembersAreARange(db, atespace, start, stop);
    assert stop < 0 && stop + |AllMembers(db, atespace)| < start;
  }

  lemma PageIsEmptyIff<T>(s: seq<T>, start: nat, count: nat)
    requires count > 0
    ensures Page(s, start, count) == [] <==> start >= |s|
  {
  }

  // offset + limit - 1 does not pass the largest int64, or there is nothing left to list.
  predicate PageBoundHolds(total: nat, limit: int, offset: int) {
    PageStart(offset) + PageSize(limit) - 1 <= MAX_INT64 || PageStart(offset) >= total
  }

  // A request returns its slice of the whole listing exactly when that bound holds.
  lemma ListingIsAPageIffBoundHolds(db: Db, atespace: string, limit: int, offset: int)
    requires Consistent(db) && WithinCapacity(db) && IsInt64(limit) && IsInt64(offset)
    ensures ServerListed(db, atespace, limit, offset)
              == Page(Everything(db, atespace), PageStart(offset), PageSize(limit))
            <==> PageBoundHolds(|Everything(db, atespace)|, limit, offset)
  {
    var start, count := PageStart(offset), PageSize(limit);
    if start + count - 1 <= MAX_INT64 {
      UnwrappedRequestIsAPage(db, atespace, start, count);
    } else {
      WrappedRequestIsEmpty(db, atespace, start, count);
      var full := Everything(db, atespace);
      PageIsEmptyIff(full, start, count);
    }
  }

  // A database made by three saves.
  function ThreeSaved(a: Task, b: Task, c: Task): Db {
    SaveTx(SaveTx(SaveTx(EMPTY.db, a, 1), b, 2), c, 3)
  }

  // Three tasks, offset 2 and the largest limit: the third is left out.
  lemma WrapHidesATask(a: Task, b: Task, c: Task)
    requires OwnsKey(a.meta, a) && OwnsKey(b.meta, b) && OwnsKey(c.meta, c)
    requires a.meta != b.meta && a.meta != c.meta && b.meta != c.meta
    ensures var db := ThreeSaved(a, b, c);
            && Consistent(db) && WithinCapacity(db) && |Everything(db, "*")| == 3
            && ServerListed(db, "*", MAX_INT64, 2) == [] && |Page(Everything(db, "*"), 2, MAX_INT64)| == 1
  {
    var db := ThreeSaved(a, b, c);
    EmptyStoreIsSoundAndExact();
    SaveKeepsConsistent(EMPTY.db, a, 1);
    SaveKeepsConsistent(SaveTx(EMPTY.db, a, 1), b, 2);
    SaveKeepsConsistent(SaveTx(SaveTx(EMPTY.db, a, 1), b, 2), c, 3);
    ThreeSavedSizes(a, b, c);
    NewestFirstIsListing(db.index);
    MembersHaveRecords(db, "*");
    FetchOfSlice(db, AllMembers(db, "*"), 0, 3);
    WrappedRequestIsEmpty(db, "*", 2, MAX_INT64);
  }

  lemma ThreeSavedSizes(a: Task, b: Task, c: Task)
    requires OwnsKey(a.meta, a) && OwnsKey(b.meta, b) && OwnsKey(c.meta, c)
    requires a.meta != b.meta && a.meta != c.meta && b.meta != c.meta
    ensures WithinCapacity(ThreeSaved(a, b, c)) && |ThreeSaved(a, b, c).index| == 3
  {
    var db := ThreeSaved(a, b, c);
    JoinIsInjective(a.meta, b.meta);
    JoinIsInjective(a.meta, c.meta);
    JoinIsInjective(b.meta, c.meta);
    assert db.index.Keys == {Join(a.meta), Join(b.meta), Join(c.meta)};
    forall x
      ensures |AtespaceSet(db, x)| <= 3
    {
      AtMostThree(AtespaceSet(db, x), a.meta.name, b.meta.name, c.meta.name);
    }
  }

  lemma AtMostThree(z: ZSet, x: string, y: string, w: string)
    requires forall k :: k in z ==> k == x || k == y || k == w
    ensures |z| <= 3
  {
    assert z.Keys <= {x, y, w};
    SubsetIsSmaller(z.Keys, {x, y, w});
  }

  lemma {:induction false} SubsetIsSmaller<T>(a: set<T>, b: set<T>)
    requires a <= b
    ensures |a| <= |b|
  {
    assert b == a + (b - a);
  }

  // The offset of the k-th page.
  function NthOffset(limit: nat, k: nat): nat {
    if k == 0 then 0 else NthOffset(limit, k - 1) + limit
  }

  lemma {:induction false} NthOffsetIsProduct(limit: nat, k: nat)
    ensures NthOffset(limit, k) == k * limit
  {
    if k > 0 { NthOffsetIsProduct(limit, k - 1); }
  }

  // Consecutive requests of one size, from offset 0.
  function PagesFrom<T>(page: nat -> seq<T>, limit: nat, requests: nat): seq<T> {
    if requests == 0 then []
    else PagesFrom(page, limit, requests - 1) + page(NthOffset(limit, requests - 1))
  }

  function Pages(db: Db, atespace: string, limit: nat, requests: nat): seq<Task> {
    PagesFrom(offset => ServerListed(db, atespace, limit, offset), limit, requests)
  }

  lemma NextPageExtends(db: Db, atespace: string, limit: nat, done: nat)
    requires Consistent(db) && limit > 0 && done + limit <= MAX_INT64
    ensures Page(Everything(db, atespace), 0, done) + ServerListed(db, atespace, limit, done)
            == Page(Everything(db, atespace), 0, done + limit)
  {
    UnwrappedRequestIsAPage(db, atespace, done, limit);
    PagesAbut(Everything(db, atespace), done, limit);
  }

  lemma {:induction false} ExtendingPagesJoinUp<T>(full: seq<T>, page: nat -> seq<T>, limit: nat, requests: nat)
    requires NthOffset(limit, requests) <= MAX_INT64
    requires forall done: nat :: done + limit <= MAX_INT64 ==>
               Page(full, 0, done) + page(done) == Page(full, 0, done + limit)
    ensures PagesFrom(page, limit, requests) == Page(full, 0, NthOffset(limit, requests))
  {
    if requests > 0 { ExtendingPagesJoinUp(full, page, limit, requests - 1); }
  }

  // The pages at 0, L, 2L, ... join up to the whole listing: no gap and no repeat.
  lemma PagesJoinUp(db: Db, atespace: string, limit: nat, requests: nat)
    requires Consistent(db) && limit > 0 && requests * limit <= MAX_INT64
    ensures Pages(db, atespace, limit, requests) == Page(Everything(db, atespace), 0, requests * limit)
  {
    NthOffsetIsProduct(limit, requests);
    var page := offset => ServerListed(db, atespace, limit, offset);
    forall done: nat | done + limit <= MAX_INT64
      ensures Page(Everything(db, atespace), 0, done) + page(done) == Page(Everything(db, atespace), 0, done + limit)
    {
      NextPageExtends(db, atespace, limit, done);
    }
    ExtendingPagesJoinUp(Everything(db, atespace), page, limit, requests);
  }

  lemma PagesAbut<T>(s: seq<T>, done: nat, count: nat)
    ensures Page(s, 0, done) + Page(s, done, count) == Page(s, 0, done + count)
  {
  }
}
