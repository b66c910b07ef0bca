// The in-memory task store: records, the bounded event channel, and the watchers'
// channels. A watcher channel is named by its position in opening order.
module MemoryStore {
  import opened Api
  import opened Basics

  const EVENT_CAPACITY: nat := 1000
  const WATCH_CAPACITY: nat := 10

  // A full channel drops what is sent to it.
  function Published(events: seq<Event>, ev: Event): seq<Event> {
    if |events| < EVENT_CAPACITY then events + [ev] else events
  }

  // `since` is how many versions had been written when the channel was opened;
  // `received` is what its reader has taken from the buffer so far.
  datatype Chan = Chan(key: TaskId, since: nat, buffer: seq<Task>, received: seq<Task>, closed: bool)

  // `written` records every version of every key, in order.
  datatype Hub = Hub(watchers: map<TaskId, seq<nat>>, chans: seq<Chan>, written: map<TaskId, seq<Task>>)

  function Watchers(h: Hub, k: TaskId): seq<nat> {
    if k in h.watchers then h.watchers[k] else []
  }

  function Written(h: Hub, k: TaskId): seq<Task> {
    if k in h.written then h.written[k] else []
  }

  // ---- operations ----

  function Watched(h: Hub, k: TaskId): Hub {
    h.(watchers := h.watchers[k := Watchers(h, k) + [|h.chans|]],
       chans := h.chans + [Chan(k, |Written(h, k)|, [], [], false)])
  }

  function Find(ids: seq<nat>, i: nat): (at: nat)
    ensures at <= |ids| && (at < |ids| ==> ids[at] == i) && (at == |ids| ==> i !in ids)
  {
    if ids == [] || ids[0] == i then 0 else 1 + Find(ids[1..], i)
  }

  function Unlisted(ids: seq<nat>, i: nat): seq<nat> {
    var at := Find(ids, i);
    if at < |ids| then ids[..at] + ids[at + 1..] else ids
  }

  function Closed(h: Hub, i: nat): Hub
    requires i < |h.chans|
  {
    var k := h.chans[i].key;
    if i in Watchers(h, k) then
      h.(watchers := h.watchers[k := Unlisted(Watchers(h, k), i)], chans := h.chans[i := h.chans[i].(closed := true)])
    else h
  }

  function Offered(c: Chan, task: Task): Chan {
    if |c.buffer| < WATCH_CAPACITY then c.(buffer := c.buffer + [task]) else c
  }

  predicate AllBelow(ids: seq<nat>, bound: nat) {
    forall n :: 0 <= n < |ids| ==> ids[n] < bound
  }

  function OfferedAll(chans: seq<Chan>, ids: seq<nat>, task: Task): (after: seq<Chan>)
    requires AllBelow(ids, |chans|)
    ensures |after| == |chans|
    decreases |ids|
  {
    if ids == [] then chans
    else
      var most := OfferedAll(chans, ids[..|ids| - 1], task);
      var i := ids[|ids| - 1];
      most[i := Offered(most[i], task)]
  }

  predicate InRange(h: Hub, k: TaskId) {
    AllBelow(Watchers(h, k), |h.chans|)
  }

  function Notified(h: Hub, k: TaskId, task: Task): Hub
    requires InRange(h, k)
  {
    h.(chans := OfferedAll(h.chans, Watchers(h, k), task), written := h.written[k := Written(h, k) + [task]])
  }

  function Taken(h: Hub, i: nat): Hub
    requires i < |h.chans| && h.chans[i].buffer != []
  {
    var c := h.chans[i];
    h.(chans := h.chans[i := c.(buffer := c.buffer[1..], received := c.received + [c.buffer[0]])])
  }

  // ---- what holds in every run ----

  predicate OpenFor(c: Chan, k: TaskId) {
    c.key == k && !c.closed
  }

  // The channels opened for k and not yet closed, once each, in opening order.
  function OpenIds(chans: seq<Chan>, k: TaskId): seq<nat> {
    if chans == [] then []
    else
      var last := |chans| - 1;
      OpenIds(chans[..last], k) + (if OpenFor(chans[last], k) then [last] else [])
  }

  predicate Subsequence<T(==)>(a: seq<T>, b: seq<T>)
    decreases |b|
  {
    a == [] || (b != [] &&
      ((a[|a| - 1] == b[|b| - 1] && Subsequence(a[..|a| - 1], b[..|b| - 1])) || Subsequence(a, b[..|b| - 1])))
  }

  ghost predicate ChanOk(h: Hub, c: Chan) {
    c.since <= |Written(h, c.key)| && Subsequence(c.received + c.buffer, Written(h, c.key)[c.since..])
  }

  ghost predicate ListsOk(h: Hub) {
    forall k :: Watchers(h, k) == OpenIds(h.chans, k)
  }

  ghost predicate ChansOk(h: Hub) {
    forall i :: 0 <= i < |h.chans| ==> ChanOk(h, h.chans[i])
  }

  ghost predicate Good(h: Hub) {
    ListsOk(h) && ChansOk(h)
  }

  lemma OpenIdsOfMore(chans: seq<Chan>, c: Chan, k: TaskId)
    ensures OpenIds(chans + [c], k) == if OpenFor(c, k) then OpenIds(chans, k) + [|chans|] else OpenIds(chans, k)
  {
    assert (chans + [c])[..|chans|] == chans;
  }

  lemma LastIsMore(chans: seq<Chan>)
    requires chans != []
    ensures chans == chans[..|chans| - 1] + [chans[|chans| - 1]]
  {
  }

  ghost predicate Ascending(ids: seq<nat>) {
    forall a, b :: 0 <= a < b < |ids| ==> ids[a] < ids[b]
  }

  lemma {:induction false} OpenIdsAreTheOpenChannels(chans: seq<Chan>, k: TaskId)
    ensures forall i :: i in OpenIds(chans, k) <==> 0 <= i < |chans| && OpenFor(chans[i], k)
    ensures AllBelow(OpenIds(chans, k), |chans|) && Ascending(OpenIds(chans, k))
  {
    if chans != [] {
      var last := |chans| - 1;
      var before := OpenIds(chans[..last], k);
      OpenIdsAreTheOpenChannels(chans[..last], k);
      assert OpenIds(chans, k) == before || OpenIds(chans, k) == before + [last];
      assert forall i :: 0 <= i < last ==> chans[..last][i] == chans[i];
    }
  }

  lemma {:induction false} OpenIdsDependOnlyOnOpenness(chans: seq<Chan>, after: seq<Chan>, k: TaskId)
    requires |chans| == |after|
    requires forall i :: 0 <= i < |chans| ==> OpenFor(chans[i], k) == OpenFor(after[i], k)
    ensures OpenIds(chans, k) == OpenIds(after, k)
  {
    if chans != [] {
      OpenIdsDependOnlyOnOpenness(chans[..|chans| - 1], after[..|chans| - 1], k);
    }
  }

  lemma UnlistedFromEnd(ids: seq<nat>, last: nat, i: nat)
    requires i in ids || i == last
    ensures i in ids ==> Unlisted(ids + [last], i) == Unlisted(ids, i) + [last]
    ensures i !in ids ==> Unlisted(ids + [last], i) == ids
  {
    FindFirst(ids, last, i);
    WithoutAt(ids, last, Find(ids, i));
  }

  lemma WithoutAt(ids: seq<nat>, last: nat, at: nat)
    requires at <= |ids|
    ensures var more := ids + [last];
            more[..at] + more[at + 1..] == if at < |ids| then ids[..at] + ids[at + 1..] + [last] else ids
  {
  }

  lemma {:induction false} FindFirst(ids: seq<nat>, last: nat, i: nat)
    requires i in ids || i == last
    ensures Find(ids + [last], i) == Find(ids, i)
  {
    if ids != [] && ids[0] != i {
      assert (ids + [last])[1..] == ids[1..] + [last];
      assert ids == [ids[0]] + ids[1..];
      FindFirst(ids[1..], last, i);
    }
  }

  lemma OpenIdsOfLast(chans: seq<Chan>, k: TaskId)
    requires chans != []
    ensures var last := |chans| - 1;
            OpenIds(chans, k) == if OpenFor(chans[last], k) then OpenIds(chans[..last], k) + [last]
              else OpenIds(chans[..last], k)
  {
    LastIsMore(chans);
    OpenIdsOfMore(chans[..|chans| - 1], chans[|chans| - 1], k);
  }

  lemma {:induction false} ClosingUnlists(chans: seq<Chan>, after: seq<Chan>, i: nat, k: TaskId)
    requires i < |chans| == |after| && OpenFor(chans[i], k) && !OpenFor(after[i], k)
    requires forall j :: 0 <= j < |chans| && j != i ==> after[j] == chans[j]
    ensures OpenIds(after, k) == Unlisted(OpenIds(chans, k), i)
  {
    var last := |chans| - 1;
    OpenIdsOfLast(chans, k);
    OpenIdsOfLast(after, k);
    OpenIdsAreTheOpenChannels(chans[..last], k);
    if i == last {
      assert after[..last] == chans[..last];
      UnlistedFromEnd(OpenIds(chans[..last], k), last, i);
    } else {
      ClosingUnlists(chans[..last], after[..last], i, k);
      assert chans[..last][i] == chans[i];
      UnlistedFromEnd(OpenIds(chans[..last], k), last, i);
    }
  }

  lemma {:induction false} OfferingIsPointwise(chans: seq<Chan>, ids: seq<nat>, task: Task)
    requires AllBelow(ids, |chans|)
    requires Ascending(ids)
    ensures forall i :: 0 <= i < |chans| ==>
              OfferedAll(chans, ids, task)[i] == if i in ids then Offered(chans[i], task) else chans[i]
    decreases |ids|
  {
    if ids != [] {
      var front := ids[..|ids| - 1];
      assert ids == front + [ids[|ids| - 1]];
      assert AllBelow(front, |chans|) by {
        assert forall n :: 0 <= n < |front| ==> front[n] == ids[n];
      }
      OfferingIsPointwise(chans, front, task);
    }
  }

  lemma SubsequenceGrows<T>(a: seq<T>, b: seq<T>, x: T)
    requires Subsequence(a, b)
    ensures Subsequence(a, b + [x]) && Subsequence(a + [x], b + [x])
  {
    assert (b + [x])[..|b|] == b && (a + [x])[..|a|] == a;
  }

  lemma WatchKeepsLists(h: Hub, k: TaskId)
    requires ListsOk(h)
    ensures ListsOk(Watched(h, k))
  {
    forall j
      ensures Watchers(Watched(h, k), j) == OpenIds(Watched(h, k).chans, j)
    {
      OpenIdsOfMore(h.chans, Watched(h, k).chans[|h.chans|], j);
      assert Watchers(h, j) == OpenIds(h.chans, j);
    }
  }

  lemma WatchKeepsGood(h: Hub, k: TaskId)
    requires Good(h)
    ensures Good(Watched(h, k))
  {
    WatchKeepsLists(h, k);
    var t := Watched(h, k);
    assert forall j :: Written(t, j) == Written(h, j);
    forall i | 0 <= i < |t.chans|
      ensures ChanOk(t, t.chans[i])
    {
      if i < |h.chans| { assert ChanOk(h, h.chans[i]); } else { assert t.chans[i].received + t.chans[i].buffer == []; }
    }
  }

  lemma CloseKeepsLists(h: Hub, i: nat)
    requires ListsOk(h) && i < |h.chans|
    ensures ListsOk(Closed(h, i)) && Closed(h, i).chans[i].closed
  {
    var k, t := h.chans[i].key, Closed(h, i);
    OpenIdsAreTheOpenChannels(h.chans, k);
    assert Watchers(h, k) == OpenIds(h.chans, k);
    if i in Watchers(h, k) {
      forall j
        ensures Watchers(t, j) == OpenIds(t.chans, j)
      {
        if j == k { ClosingUnlists(h.chans, t.chans, i, k); } else { OpenIdsDependOnlyOnOpenness(h.chans, t.chans, j); }
      }
    }
  }

  lemma CloseKeepsGood(h: Hub, i: nat)
    requires Good(h) && i < |h.chans|
    ensures Good(Closed(h, i)) && Closed(h, i).chans[i].closed
  {
    CloseKeepsLists(h, i);
    var t := Closed(h, i);
    assert forall j :: Written(t, j) == Written(h, j);
    assert forall c :: 0 <= c < |h.chans| ==> ChanOk(h, h.chans[c]);
  }

  // Closing again changes nothing.
  lemma CloseTwiceIsCloseOnce(h: Hub, i: nat)
    requires Good(h) && i < |h.chans|
    ensures Closed(Closed(h, i), i) == Closed(h, i)
  {
    CloseKeepsLists(h, i);
    OpenIdsAreTheOpenChannels(Closed(h, i).chans, h.chans[i].key);
    assert Watchers(Closed(h, i), h.chans[i].key) == OpenIds(Closed(h, i).chans, h.chans[i].key);
  }

  // No write ever sends to a closed channel, and each open one is offered it once.
  lemma WritesReachExactlyTheOpenChannels(h: Hub, k: TaskId, task: Task)
    requires Good(h)
    ensures InRange(h, k) && forall i :: i in Watchers(h, k) ==> !h.chans[i].closed
    ensures forall i :: 0 <= i < |h.chans| ==>
              Notified(h, k, task).chans[i] == if OpenFor(h.chans[i], k) then Offered(h.chans[i], task) else h.chans[i]
  {
    assert Watchers(h, k) == OpenIds(h.chans, k);
    OpenIdsAreTheOpenChannels(h.chans, k);
    OfferingIsPointwise(h.chans, Watchers(h, k), task);
  }

  lemma OfferedChanStaysOk(h: Hub, k: TaskId, task: Task, c: Chan)
    requires InRange(h, k) && ChanOk(h, c)
    ensures ChanOk(Notified(h, k, task), c)
    ensures c.key == k ==> ChanOk(Notified(h, k, task), Offered(c, task))
  {
    if c.key == k {
      var w := Written(h, k);
      assert (w + [task])[c.since..] == w[c.since..] + [task];
      assert c.received + (c.buffer + [task]) == (c.received + c.buffer) + [task];
      SubsequenceGrows(c.received + c.buffer, w[c.since..], task);
    }
  }

  lemma WriteKeepsGood(h: Hub, k: TaskId, task: Task)
    requires Good(h)
    ensures InRange(h, k) && Good(Notified(h, k, task))
  {
    WritesReachExactlyTheOpenChannels(h, k, task);
    var t := Notified(h, k, task);
    forall j
      ensures Watchers(t, j) == OpenIds(t.chans, j)
    {
      OpenIdsDependOnlyOnOpenness(h.chans, t.chans, j);
    }
    forall i | 0 <= i < |t.chans|
      ensures ChanOk(t, t.chans[i])
    {
      OfferedChanStaysOk(h, k, task, h.chans[i]);
    }
  }

  lemma TakeKeepsGood(h: Hub, i: nat)
    requires Good(h) && i < |h.chans| && h.chans[i].buffer != []
    ensures Good(Taken(h, i))
  {
    var c, t := h.chans[i], Taken(h, i);
    assert (c.received + [c.buffer[0]]) + c.buffer[1..] == c.received + c.buffer;
    forall j
      ensures Watchers(t, j) == OpenIds(t.chans, j)
    {
      OpenIdsDependOnlyOnOpenness(h.chans, t.chans, j);
    }
    forall a | 0 <= a < |t.chans|
      ensures ChanOk(t, t.chans[a])
    {
      assert ChanOk(h, h.chans[a]);
    }
  }

  datatype Op = Watch(k: TaskId) | Close(i: nat) | Write(k: TaskId, task: Task) | Take(i: nat)

  function Applied(h: Hub, op: Op): Hub {
    match op
    case Watch(k) => Watched(h, k)
    case Close(i) => if i < |h.chans| then Closed(h, i) else h
    case Write(k, task) => if InRange(h, k) then Notified(h, k, task) else h
    case Take(i) => if i < |h.chans| && h.chans[i].buffer != [] then Taken(h, i) else h
  }

  function AppliedAll(h: Hub, ops: seq<Op>): Hub
    decreases |ops|
  {
    if ops == [] then h else AppliedAll(Applied(h, ops[0]), ops[1..])
  }

  const NEW_HUB := Hub(map[], [], map[])

  // Every run of watches, closes (repeated or not), writes and receives.
  lemma {:induction false} RunsStayGood(h: Hub, ops: seq<Op>)
    requires Good(h)
    ensures Good(AppliedAll(h, ops))
    decreases |ops|
  {
    if ops != [] {
      match ops[0] {
        case Watch(k) => WatchKeepsGood(h, k);
        case Close(i) => if i < |h.chans| { CloseKeepsGood(h, i); }
        case Write(k, task) => WriteKeepsGood(h, k, task);
        case Take(i) => if i < |h.chans| && h.chans[i].buffer != [] { TakeKeepsGood(h, i); }
      }
      RunsStayGood(Applied(h, ops[0]), ops[1..]);
    }
  }

  // ---- what a watcher receives ----

  // An open channel of the key gets the version as its last, if it holds fewer than ten;
  // a full one, a closed one and one of another key stay as they are.
  lemma WriteIsDelivered(h: Hub, k: TaskId, task: Task, i: nat)
    requires Good(h) && i < |h.chans|
    ensures InRange(h, k) && Notified(h, k, task).chans[i] ==
            if h.chans[i].key == k && !h.chans[i].closed && |h.chans[i].buffer| < 10
            then h.chans[i].(buffer := h.chans[i].buffer + [task]) else h.chans[i]
  {
    WritesReachExactlyTheOpenChannels(h, k, task);
  }

  // Taken or buffered, the channel has every version since it began; or fewer than that.
  predicate UpToDate(c: Chan, written: seq<Task>) {
    c.since <= |written| && c.received + c.buffer == written[c.since..]
  }

  predicate Short(c: Chan, written: seq<Task>) {
    c.since + |c.received| + |c.buffer| < |written|
  }

  predicate MissesNothing(h: Hub, i: nat) {
    i < |h.chans| && UpToDate(h.chans[i], Written(h, h.chans[i].key))
  }

  predicate HasMissed(h: Hub, i: nat) {
    i < |h.chans| && Short(h.chans[i], Written(h, h.chans[i].key))
  }

  // This write to the watcher's key finds its channel full.
  predicate FindsFull(h: Hub, op: Op, i: nat) {
    op.Write? && i < |h.chans| && op.k == h.chans[i].key && |h.chans[i].buffer| >= 10
  }

  predicate EverFull(h: Hub, ops: seq<Op>, i: nat)
    decreases |ops|
  {
    ops != [] && (FindsFull(h, ops[0], i) || EverFull(Applied(h, ops[0]), ops[1..], i))
  }

  lemma NewWatcherMissesNothing(h: Hub, k: TaskId)
    ensures MissesNothing(Watched(h, k), |h.chans|) && !Watched(h, k).chans[|h.chans|].closed
  {
    assert Written(Watched(h, k), k) == Written(h, k);
  }

  lemma OpKeepsChannel(h: Hub, op: Op, i: nat)
    requires Good(h) && i < |h.chans|
    ensures i < |Applied(h, op).chans| && Applied(h, op).chans[i].key == h.chans[i].key
    ensures Applied(h, op).chans[i].since == h.chans[i].since
    ensures h.chans[i].closed ==> Applied(h, op).chans[i].closed
  {
    if op.Write? { WriteIsDelivered(h, op.k, op.task, i); }
  }

  lemma {:induction false} ClosedStaysClosed(h: Hub, ops: seq<Op>, i: nat)
    requires Good(h) && i < |h.chans| && h.chans[i].closed
    ensures i < |AppliedAll(h, ops).chans| && AppliedAll(h, ops).chans[i].closed
    decreases |ops|
  {
    if ops != [] {
      OpKeepsChannel(h, ops[0], i);
      OpKeepsGood(h, ops[0]);
      ClosedStaysClosed(Applied(h, ops[0]), ops[1..], i);
    }
  }

  lemma OpKeepsGood(h: Hub, op: Op)
    requires Good(h)
    ensures Good(Applied(h, op))
  {
    RunsStayGood(h, [op]);
    assert AppliedAll(Applied(h, op), []) == Applied(h, op) && [op][1..] == [];
  }

  lemma TakeMovesOne(c: Chan)
    requires c.buffer != []
    ensures (c.received + [c.buffer[0]]) + c.buffer[1..] == c.received + c.buffer
  {
  }

  lemma WriteIsNotMissed(h: Hub, op: Op, i: nat)
    requires Good(h) && op.Write? && i < |h.chans| && !h.chans[i].closed
    ensures MissesNothing(h, i) && !FindsFull(h, op, i) ==> MissesNothing(Applied(h, op), i)
    ensures MissesNothing(h, i) && FindsFull(h, op, i) ==> HasMissed(Applied(h, op), i)
    ensures HasMissed(h, i) ==> HasMissed(Applied(h, op), i)
  {
    WriteIsDelivered(h, op.k, op.task, i);
    WriteIsWritten(h, op, h.chans[i].key);
    OneMoreWritten(h.chans[i], Written(h, h.chans[i].key), op.task);
  }

  lemma WriteIsWritten(h: Hub, op: Op, k: TaskId)
    requires op.Write? && InRange(h, op.k)
    ensures Written(Applied(h, op), k) == if k == op.k then Written(h, k) + [op.task] else Written(h, k)
  {
  }

  lemma OneMoreWritten(c: Chan, written: seq<Task>, task: Task)
    ensures UpToDate(c, written) ==> UpToDate(c.(buffer := c.buffer + [task]), written + [task])
    ensures UpToDate(c, written) ==> Short(c, written + [task])
    ensures Short(c, written) ==> Short(c, written + [task]) && Short(c.(buffer := c.buffer + [task]), written + [task])
  {
    if UpToDate(c, written) {
      assert (written + [task])[c.since..] == written[c.since..] + [task];
      Regroup(c.received, c.buffer, [task]);
      assert |c.received + c.buffer| == |written[c.since..]|;
    }
  }

  lemma OtherOpsMissNothing(h: Hub, op: Op, i: nat)
    requires Good(h) && !op.Write? && i < |h.chans|
    ensures MissesNothing(h, i) ==> MissesNothing(Applied(h, op), i)
    ensures HasMissed(h, i) ==> HasMissed(Applied(h, op), i)
  {
    assert forall k :: Written(Applied(h, op), k) == Written(h, k);
    if op.Take? && op.i == i && h.chans[i].buffer != [] { TakeMovesOne(h.chans[i]); }
  }

  lemma {:induction false} MissedStaysMissed(h: Hub, ops: seq<Op>, i: nat)
    requires Good(h) && HasMissed(h, i) && i < |AppliedAll(h, ops).chans| && !AppliedAll(h, ops).chans[i].closed
    ensures HasMissed(AppliedAll(h, ops), i)
    decreases |ops|
  {
    if ops != [] {
      if h.chans[i].closed { ClosedStaysClosed(h, ops, i); }
      if ops[0].Write? { WriteIsNotMissed(h, ops[0], i); } else { OtherOpsMissNothing(h, ops[0], i); }
      OpKeepsGood(h, ops[0]);
      MissedStaysMissed(Applied(h, ops[0]), ops[1..], i);
    }
  }

  // A watcher that is still open has every version written since it began exactly if no
  // write to its key ever found its channel full.
  lemma {:induction false} WatcherMissesNothingIff(h: Hub, ops: seq<Op>, i: nat)
    requires Good(h) && MissesNothing(h, i) && i < |AppliedAll(h, ops).chans| && !AppliedAll(h, ops).chans[i].closed
    ensures MissesNothing(AppliedAll(h, ops), i) <==> !EverFull(h, ops, i)
    decreases |ops|
  {
    if ops != [] {
      if h.chans[i].closed { ClosedStaysClosed(h, ops, i); }
      if ops[0].Write? { WriteIsNotMissed(h, ops[0], i); } else { OtherOpsMissNothing(h, ops[0], i); }
      OpKeepsGood(h, ops[0]);
      if FindsFull(h, ops[0], i) {
        MissedStaysMissed(Applied(h, ops[0]), ops[1..], i);
      } else {
        WatcherMissesNothingIff(Applied(h, ops[0]), ops[1..], i);
      }
    }
  }

  // ---- the store object ----

  class Store {
    var tasks: map<TaskId, Task>
    var events: seq<Event>
    var watchers: map<TaskId, seq<nat>>
    var chans: seq<Chan>
    var written: map<TaskId, seq<Task>>

    function View(): Hub
      reads this
    {
      Hub(watchers, chans, written)
    }

    ghost predicate Valid()
      reads this
    {
      Good(View())
    }

    constructor ()
      ensures Valid() && tasks == map[] && events == [] && View() == NEW_HUB
    {
      tasks, events, watchers, chans, written := map[], [], map[], [], map[];
    }

    method Notify(k: TaskId, task: Task)
      requires InRange(View(), k)
      modifies this`chans, this`written
      ensures View() == Notified(old(View()), k, task)
    {
      var listed := Watchers(View(), k);
      ghost var before := chans;
      for n := 0 to |listed|
        invariant written == old(written) && |chans| == |before|
        invariant AllBelow(listed[..n], |before|) && chans == OfferedAll(before, listed[..n], task)
      {
        var i := listed[n];
        assert listed[..n + 1][..n] == listed[..n];
        chans := chans[i := Offered(chans[i], task)];
      }
      assert listed[..|listed|] == listed;
      written := written[k := Written(View(), k) + [task]];
    }

    method SaveTask(task: Task) returns (saved: Task, err: Option<Error>)
      requires Valid()
      modifies this
      ensures Valid()
      ensures task.meta.name == "" ==>
                err == Some(NameRequired) && saved == task && tasks == old(tasks) && events == old(events)
                  && View() == old(View())
      ensures task.meta.name != "" ==>
                && err == None && saved == WithDefaults(task) && tasks == old(tasks)[saved.meta := saved]
                && saved.meta
                  == TaskId(if task.meta.atespace == "" then "default" else task.meta.atespace, task.meta.name)
                && saved.spec == task.spec
                && saved.status == (if task.status.phase == "" then task.status.(phase := "Pending") else task.status)
                && events == Published(old(events), Event(saved.meta.atespace, saved.meta.name, RECONCILE))
                && InRange(old(View()), saved.meta) && View() == Notified(old(View()), saved.meta, saved)
    {
      saved, err := task, None;
      if saved.meta.name == "" { return saved, Some(NameRequired); }
      if saved.meta.atespace == "" {
        saved := saved.(meta := saved.meta.(atespace := DEFAULT_ATESPACE));
      }
      if saved.status.phase == "" {
        saved := saved.(status := saved.status.(phase := PENDING));
      }
      tasks := tasks[saved.meta := saved];
      WriteKeepsGood(View(), saved.meta, saved);
      Notify(saved.meta, saved);
      if |events| < EVENT_CAPACITY {
        events := events + [Event(saved.meta.atespace, saved.meta.name, RECONCILE)];
      }
    }

    method UpdateTaskStatus(id: TaskId, status: Status) returns (err: Option<Error>)
      requires Valid()
      modifies this
      ensures Valid() && events == old(events)
      ensures ReadId(id) !in old(tasks) ==> err == Some(NotFound) && tasks == old(tasks) && View() == old(View())
      ensures ReadId(id) in old(tasks) ==>
                var changed := old(tasks)[ReadId(id)].(status := status);
                && err == None && tasks == old(tasks)[ReadId(id) := changed]
                && InRange(old(View()), ReadId(id)) && View() == Notified(old(View()), ReadId(id), changed)
    {
      var key := ReadId(id);
      if key !in tasks { return Some(NotFound); }
      var changed := tasks[key].(status := status);
      tasks := tasks[key := changed];
      WriteKeepsGood(View(), key, changed);
      Notify(key, changed);
      return None;
    }

    method MarkTaskDeleting(id: TaskId) returns (err: Option<Error>)
      requires Valid()
      modifies this
      ensures Valid()
      ensures ReadId(id) !in old(tasks) ==>
                err == Some(NotFound) && tasks == old(tasks) && events == old(events) && View() == old(View())
      ensures ReadId(id) in old(tasks) ==>
                var before := old(tasks)[ReadId(id)];
                var changed := before.(status := before.status.(phase := TERMINATING));
                && err == None && tasks == old(tasks)[ReadId(id) := changed]
                && events == Published(old(events), Event(id.atespace, id.name, DELETE))
                && InRange(old(View()), ReadId(id)) && View() == Notified(old(View()), ReadId(id), changed)
    {
      var key := ReadId(id);
      if key !in tasks { return Some(NotFound); }
      var changed := tasks[key].(status := tasks[key].status.(phase := TERMINATING));
      tasks := tasks[key := changed];
      WriteKeepsGood(View(), key, changed);
      Notify(key, changed);
      if |events| < EVENT_CAPACITY {
        events := events + [Event(id.atespace, id.name, DELETE)];
      }
      return None;
    }

    method DeleteTask(id: TaskId)
      modifies this`tasks
      ensures tasks == old(tasks) - {ReadId(id)}
    {
      tasks := tasks - {ReadId(id)};
    }

    method WatchTask(id: TaskId) returns (i: nat)
      requires Valid()
      modifies this`watchers, this`chans
      ensures Valid() && i == |old(chans)| && View() == Watched(old(View()), ReadId(id))
    {
      WatchKeepsGood(View(), ReadId(id));
      i := |chans|;
      var since := |Written(View(), ReadId(id))|;
      watchers := watchers[ReadId(id) := Watchers(View(), ReadId(id)) + [i]];
      chans := chans + [Chan(ReadId(id), since, [], [], false)];
    }

    // The closer WatchTask returns for channel i.
    method CloseWatch(i: nat)
      requires Valid() && i < |chans|
      modifies this`watchers, this`chans
      ensures Valid() && View() == Closed(old(View()), i)
    {
      CloseKeepsGood(View(), i);
      Unlist(i);
    }

    method Unlist(i: nat)
      requires i < |chans|
      modifies this`watchers, this`chans
      ensures View() == Closed(old(View()), i)
    {
      var k := chans[i].key;
      var listed := Watchers(View(), k);
      var n := Position(listed, i);
      if n < |listed| {
        watchers := watchers[k := listed[..n] + listed[n + 1..]];
        chans := chans[i := chans[i].(closed := true)];
      }
    }
  }

  method Position(ids: seq<nat>, i: nat) returns (n: nat)
    ensures n == Find(ids, i)
  {
    n := 0;
    while n < |ids| && ids[n] != i
      invariant n <= |ids| && i !in ids[..n]
    {
      n := n + 1;
    }
    if n < |ids| { FindIs(ids, i, n); } else { assert ids[..n] == ids; }
  }

  lemma {:induction false} FindIs(ids: seq<nat>, i: nat, n: nat)
    requires n < |ids| && ids[n] == i && i !in ids[..n]
    ensures Find(ids, i) == n
  {
    if n > 0 {
      assert ids[..n] == [ids[0]] + ids[1..][..n - 1];
      FindIs(ids[1..], i, n - 1);
    }
  }
}
