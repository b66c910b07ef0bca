// The task event queue: a Redis stream read through one consumer group. An event is
// named by its position in the stream.
module EventStream {
  import opened Api

  // Where the group stands: events before `start` predate it, events from `cursor` on
  // are undelivered, `pel` is the pending-entries list with each entry's owner.
  datatype Group = Group(start: nat, cursor: nat, pel: map<nat, string>, acked: set<nat>)

  function NewGroup(published: nat): Group {
    Group(published, published, map[], {})
  }

  // How many events the next read can deliver.
  function Available(g: Group, published: nat, count: nat): nat
    requires g.cursor <= published
  {
    if count < published - g.cursor then count else published - g.cursor
  }

  function Batch(g: Group, published: nat, count: nat): (ids: seq<nat>)
    requires g.cursor <= published
    ensures |ids| == Available(g, published, count)
    ensures forall i :: 0 <= i < |ids| ==> ids[i] == g.cursor + i
    ensures forall id :: id in ids <==> g.cursor <= id < g.cursor + |ids|
  {
    var n := Available(g, published, count);
    var ids := seq(n, i requires 0 <= i => g.cursor + i);
    assert forall id :: g.cursor <= id < g.cursor + n ==> id in ids by {
      forall id | g.cursor <= id < g.cursor + n
        ensures id in ids
      {
        assert ids[id - g.cursor] == id;
      }
    }
    ids
  }

  // XREADGROUP with ">": the next batch becomes pending for the consumer that asked.
  function Delivered(g: Group, ids: seq<nat>, consumer: string): Group {
    g.(cursor := g.cursor + |ids|, pel := g.pel + map id | id in ids :: consumer)
  }

  // XACK: only a pending entry can be acknowledged.
  function Acked(g: Group, id: nat): Group {
    if id in g.pel then g.(pel := g.pel - {id}, acked := g.acked + {id}) else g
  }

  // ---- the stream and a subscription as objects ----

  class StreamServer {
    var log: seq<Event>
    var group: Group

    predicate Valid()
      reads this
    {
      group.start <= group.cursor <= |log|
    }

    constructor (history: seq<Event>)
      ensures Valid() && log == history && group == NewGroup(|history|)
    {
      log, group := history, NewGroup(|history|);
    }

    // What API calls publish.
    method Publish(evs: seq<Event>)
      requires Valid()
      modifies this
      ensures Valid() && log == old(log) + evs && group == old(group)
    {
      log := log + evs;
    }

    // The next undelivered events, at most `count`, become pending for the consumer. A
    // failed call may still have delivered them.
    method XReadGroup(consumer: string, count: nat, out: Outcome) returns (ids: Option<seq<nat>>)
      requires Valid()
      modifies this
      ensures Valid() && log == old(log) && group.start == old(group).start && group.acked == old(group).acked
      ensures group.cursor == old(group).cursor + if Landed(out) then Available(old(group), |log|, count) else 0
      ensures group.cursor <= old(group).cursor + count
      ensures Landed(out) ==> group.cursor == old(group).cursor + count || group.cursor == |log|
      ensures forall id :: id in group.pel <==> id in old(group).pel || old(group).cursor <= id < group.cursor
      ensures forall id :: id in group.pel ==>
                group.pel[id] == if old(group).cursor <= id < group.cursor then consumer else old(group).pel[id]
      ensures out.Failed? ==> ids == None
      ensures out.Done? ==> ids.Some? && |ids.value| == group.cursor - old(group).cursor
      ensures out.Done? ==> forall i :: 0 <= i < |ids.value| ==> ids.value[i] == old(group).cursor + i
    {
      ids := None;
      if Landed(out) {
        var batch := Batch(group, |log|, count);
        group := Delivered(group, batch, consumer);
        if out.Done? { ids := Some(batch); }
      }
    }

    // Moves an entry from pending to acknowledged; an event that is not pending stays
    // where it is.
    method XAck(id: nat, out: Outcome)
      requires Valid()
      modifies this
      ensures Valid() && log == old(log) && group.start == old(group).start && group.cursor == old(group).cursor
      ensures forall k :: k in group.pel <==> k in old(group).pel && !(k == id && Landed(out))
      ensures forall k :: k in group.pel ==> group.pel[k] == old(group).pel[k]
      ensures forall k :: k in group.acked <==>
                k in old(group).acked || (k == id && Landed(out) && id in old(group).pel)
    {
      if Landed(out) { group := Acked(group, id); }
    }
  }

  // What Next gives its caller.
  datatype NextResult = Got(id: nat) | ContextDone | ReadFailed

  class Subscription {
    const server: StreamServer
    const consumer: string
    const batchSize: nat
    var pending: seq<nat>

    constructor (server: StreamServer, consumer: string, batchSize: nat)
      requires batchSize > 0
      ensures this.server == server && this.consumer == consumer && this.batchSize == batchSize && pending == []
    {
      this.server, this.consumer, this.batchSize, this.pending := server, consumer, batchSize, [];
    }

    // One read of the group; None is an error.
    method Read(out: Outcome) returns (events: Option<seq<nat>>)
      requires server.Valid()
      modifies server
      ensures server.Valid() && server.log == old(server.log)
      ensures var batch := Batch(old(server.group), |server.log|, batchSize);
              && events == (if out.Done? then Some(batch) else None)
              && server.group
                 == if Landed(out) then Delivered(old(server.group), batch, consumer) else old(server.group)
    {
      ghost var group, batch := server.group, Batch(server.group, |server.log|, batchSize);
      events := server.XReadGroup(consumer, batchSize, out);
      ghost var after := if Landed(out) then Delivered(group, batch, consumer) else group;
      assert server.group.pel == after.pel;
      assert out.Done? ==> events.value == batch;
    }

    // Hands out the head of the local batch, reading a new batch only when it is empty.
    // `patience` is how many reads the context allows, outs(k) how read k goes.
    method Next(patience: nat, outs: nat -> Outcome) returns (r: NextResult)
      requires server.Valid() && batchSize > 0
      modifies this`pending, server
      ensures server.Valid() && server.log == old(server.log)
      ensures old(pending) != [] ==>
                r == Got(old(pending)[0]) && pending == old(pending)[1..] && server.group == old(server.group)
      ensures old(pending) == [] && patience == 0 ==>
                r == ContextDone && pending == [] && server.group == old(server.group)
      ensures old(pending) == [] && patience > 0 && old(server.group).cursor < |server.log| ==>
                var batch := Batch(old(server.group), |server.log|, batchSize);
                && r == (if outs(0).Done? then Got(old(server.group).cursor) else ReadFailed)
                && pending == (if outs(0).Done? then batch[1..] else [])
                && server.group == if Landed(outs(0)) then Delivered(old(server.group), batch, consumer)
                  else old(server.group)
      ensures old(pending) == [] && patience > 0 && old(server.group).cursor == |server.log| ==>
                && pending == [] && server.group == old(server.group)
                && r == if forall k :: 0 <= k < patience ==> outs(k).Done? then ContextDone else ReadFailed
    {
      var polls := 0;
      while |pending| == 0
        invariant server.Valid() && server.log == old(server.log) && polls <= patience
        invariant polls == 0 ==> pending == old(pending) && server.group == old(server.group)
        invariant polls > 0 ==> old(pending) == [] && forall k :: 0 <= k < polls ==> outs(k).Done?
        invariant polls > 0 && old(server.group).cursor == |server.log| ==>
                    pending == [] && server.group == old(server.group)
        invariant polls > 0 && old(server.group).cursor < |server.log| ==>
                    polls == 1 && pending == Batch(old(server.group), |server.log|, batchSize)
                    && server.group == Delivered(old(server.group), pending, consumer)
        decreases |pending| == 0, patience - polls
      {
        if polls == patience { return ContextDone; }
        assert server.group.cursor == |server.log| ==> Delivered(server.group, [], consumer).pel == server.group.pel;
        var events := Read(outs(polls));
        if events.None? { return ReadFailed; }
        pending := events.value;
        polls := polls + 1;
      }
      r := Got(pending[0]);
      pending := pending[1..];
    }
  }

  // ---- any number of workers, crashes and failed acknowledgements ----

  // What a worker is doing with the event Next gave it last.
  datatype Work = Waiting | Processing(id: nat) | Acking(id: nat)

  datatype Member = Member(pending: seq<nat>, work: Work)

  datatype Delivery = Delivery(consumer: string, id: nat)

  // `returned` and `processed` record history: what Next ever returned, in order, and
  // the events processEvent returned for.
  datatype Queue = Queue(log: seq<Event>, group: Group, members: map<string, Member>,
                         returned: seq<Delivery>, processed: set<nat>)

  datatype Step =
    | Publish(ev: Event)
    | Join(c: string)
    | Read(c: string, count: nat, lost: bool)  // lost: the reply never arrived
    | Hand(c: string)
    | Finish(c: string)
    | Ack(c: string, landed: bool)
    | Crash(c: string)

  function Created(history: seq<Event>): Queue {
    Queue(history, NewGroup(|history|), map[], [], {})
  }

  predicate Enabled(q: Queue, s: Step) {
    match s
    case Publish(_) => true
    case Join(c) => c !in q.members
    case Read(c, count, _) =>
      c in q.members && q.members[c].work.Waiting? && q.members[c].pending == [] && count > 0
        && q.group.cursor <= |q.log|
    case Hand(c) => c in q.members && q.members[c].work.Waiting? && q.members[c].pending != []
    case Finish(c) => c in q.members && q.members[c].work.Processing?
    case Ack(c, _) => c in q.members && q.members[c].work.Acking?
    case Crash(c) => c in q.members
  }

  function Take(q: Queue, s: Step): Queue
    requires Enabled(q, s)
  {
    match s
    case Publish(ev) => q.(log := q.log + [ev])
    case Join(c) => q.(members := q.members[c := Member([], Waiting)])
    case Read(c, count, lost) =>
      var ids := Batch(q.group, |q.log|, count);
      q.(group := Delivered(q.group, ids, c),
         members := q.members[c := Member(if lost then [] else ids, Waiting)])
    case Hand(c) =>
      var p := q.members[c].pending;
      q.(members := q.members[c := Member(p[1..], Processing(p[0]))], returned := q.returned + [Delivery(c, p[0])])
    case Finish(c) =>
      var m := q.members[c];
      q.(members := q.members[c := m.(work := Acking(m.work.id))], processed := q.processed + {m.work.id})
    case Ack(c, landed) =>
      var m := q.members[c];
      q.(group := if landed then Acked(q.group, m.work.id) else q.group,
         members := q.members[c := m.(work := Waiting)])
    case Crash(c) => q.(members := q.members - {c})
  }

  predicate IsRun(q: Queue, steps: seq<Step>)
    decreases |steps|
  {
    steps == [] || (Enabled(q, steps[0]) && IsRun(Take(q, steps[0]), steps[1..]))
  }

  function After(q: Queue, steps: seq<Step>): Queue
    requires IsRun(q, steps)
    decreases |steps|
  {
    if steps == [] then q else After(Take(q, steps[0]), steps[1..])
  }

  // Exactly one of: undelivered, pending for one consumer, acknowledged.
  ghost predicate Conserved(q: Queue) {
    var g := q.group;
    && g.start <= g.cursor <= |q.log|
    && (forall id :: g.start <= id < g.cursor <==> id in g.pel || id in g.acked)
    && g.pel.Keys !! g.acked
  }

  ghost predicate Holds(q: Queue, c: string, id: nat) {
    c in q.members && (id in q.members[c].pending || (!q.members[c].work.Waiting? && q.members[c].work.id == id))
  }

  // What one worker holds is pending in its name, ascending, and new to everyone.
  ghost predicate MemberOk(q: Queue, c: string)
    requires c in q.members
  {
    var m := q.members[c];
    && (forall id :: id in m.pending ==> id in q.group.pel && q.group.pel[id] == c && NotReturned(q, c, id))
    && (forall i, j :: 0 <= i < j < |m.pending| ==> m.pending[i] < m.pending[j])
    && (!m.work.Waiting? ==> m.work.id in q.group.pel && q.group.pel[m.work.id] == c && m.work.id !in m.pending)
    && (m.work.Acking? ==> m.work.id in q.processed)
  }

  // Handed to nobody yet, and later in the stream than all its consumer was handed.
  ghost predicate NotReturned(q: Queue, c: string, id: nat) {
    && id < q.group.cursor
    && (forall k :: 0 <= k < |q.returned| ==> q.returned[k].id != id)
    && (forall k :: 0 <= k < |q.returned| && q.returned[k].consumer == c ==> q.returned[k].id < id)
  }

  // Next never returns an event twice, and gives each consumer its events in stream order.
  ghost predicate ReturnedOnceInOrder(q: Queue) {
    && (forall k :: 0 <= k < |q.returned| ==> q.returned[k].id < q.group.cursor)
    && (forall j, k :: 0 <= j < k < |q.returned| ==> q.returned[j].id != q.returned[k].id)
    && (forall j, k :: 0 <= j < k < |q.returned| && q.returned[j].consumer == q.returned[k].consumer ==>
          q.returned[j].id < q.returned[k].id)
  }

  ghost predicate AckedAfterProcessing(q: Queue) {
    q.group.acked <= q.processed
  }

  ghost predicate Good(q: Queue) {
    && Conserved(q) && ReturnedOnceInOrder(q) && AckedAfterProcessing(q)
    && (forall c :: c in q.members ==> MemberOk(q, c))
  }

  lemma StepConserves(q: Queue, s: Step)
    requires Good(q) && Enabled(q, s)
    ensures Conserved(Take(q, s)) && AckedAfterProcessing(Take(q, s))
  {
    if s.Ack? || s.Finish? {
      assert MemberOk(q, s.c);
    }
  }

  lemma StepKeepsReturned(q: Queue, s: Step)
    requires Good(q) && Enabled(q, s)
    ensures ReturnedOnceInOrder(Take(q, s))
  {
    if s.Hand? {
      assert MemberOk(q, s.c);
      assert q.members[s.c].pending[0] in q.members[s.c].pending;
    }
  }

  lemma ReaderStaysOk(q: Queue, s: Step)
    requires Good(q) && Enabled(q, s) && s.Read?
    ensures MemberOk(Take(q, s), s.c)
  {
    var ids := Batch(q.group, |q.log|, s.count);
    assert forall id :: id in ids ==> id in Delivered(q.group, ids, s.c).pel;
  }

  lemma ReceiverStaysOk(q: Queue, s: Step)
    requires Good(q) && Enabled(q, s) && s.Hand?
    ensures MemberOk(Take(q, s), s.c)
  {
    assert MemberOk(q, s.c);
    var p, t := q.members[s.c].pending, Take(q, s);
    forall i | 0 <= i < |p[1..]|
      ensures p[1..][i] in p && p[0] < p[1..][i]
    {
      assert p[0] < p[i + 1];
    }
    assert p[0] in p && t.returned == q.returned + [Delivery(s.c, p[0])];
    forall id | id in p[1..]
      ensures NotReturned(t, s.c, id)
    {
      assert NotReturned(q, s.c, id);
    }
  }

  lemma ActorStaysOk(q: Queue, s: Step)
    requires Good(q) && Enabled(q, s) && !s.Publish? && !s.Crash?
    ensures MemberOk(Take(q, s), s.c)
  {
    if s.Read? {
      ReaderStaysOk(q, s);
    } else if s.Hand? {
      ReceiverStaysOk(q, s);
    } else if !s.Join? {
      assert MemberOk(q, s.c);
    }
  }

  lemma BystanderStaysOk(q: Queue, s: Step, c: string)
    requires Good(q) && Enabled(q, s) && c in q.members
    requires s.Publish? || c != s.c
    ensures MemberOk(Take(q, s), c)
  {
    assert MemberOk(q, c);
    if !s.Publish? && s.c in q.members {
      assert MemberOk(q, s.c);
      if s.Hand? {
        assert q.members[s.c].pending[0] in q.members[s.c].pending;
      }
    }
  }

  lemma StepKeepsGood(q: Queue, s: Step)
    requires Good(q) && Enabled(q, s)
    ensures Good(Take(q, s))
  {
    StepConserves(q, s);
    StepKeepsReturned(q, s);
    forall c | c in Take(q, s).members
      ensures MemberOk(Take(q, s), c)
    {
      if !s.Publish? && c == s.c { ActorStaysOk(q, s); } else { BystanderStaysOk(q, s, c); }
    }
  }

  lemma {:induction false} RunsStayGood(q: Queue, steps: seq<Step>)
    requires Good(q) && IsRun(q, steps)
    ensures Good(After(q, steps))
    decreases |steps|
  {
    if steps != [] {
      StepKeepsGood(q, steps[0]);
      RunsStayGood(Take(q, steps[0]), steps[1..]);
    }
  }

  lemma NewGroupIsGood(history: seq<Event>)
    ensures Good(Created(history))
  {
  }

  // ---- stranded events ----

  // Pending, but no live worker holds it.
  ghost predicate Stranded(q: Queue, id: nat) {
    id in q.group.pel && !Holds(q, q.group.pel[id], id)
  }

  // How an event comes to be stranded: its worker crashes, the reply that carried it is
  // lost, or its acknowledgement fails.
  ghost predicate Strands(q: Queue, s: Step, id: nat)
    requires Enabled(q, s)
  {
    match s
    case Crash(c) => Holds(q, c, id)
    case Read(c, count, lost) => lost && q.group.cursor <= id < q.group.cursor + |Batch(q.group, |q.log|, count)|
    case Ack(c, landed) => !landed && q.members[c].work.id == id
    case _ => false
  }

  lemma EventsStrandOnlyThatWay(q: Queue, s: Step, id: nat)
    requires Good(q) && Enabled(q, s) && !Stranded(q, id)
    ensures Stranded(Take(q, s), id) <==> Strands(q, s, id)
  {
    if !s.Publish? && s.c in q.members {
      assert MemberOk(q, s.c);
      var p := q.members[s.c].pending;
      assert p != [] ==> p == [p[0]] + p[1..];
    }
  }

  lemma Prepend(q: Queue, s: Step, rest: seq<Step>)
    requires Enabled(q, s) && IsRun(Take(q, s), rest)
    ensures IsRun(q, [s] + rest) && After(q, [s] + rest) == After(Take(q, s), rest)
  {
    assert ([s] + rest)[1..] == rest;
  }

  // Such a run: a worker crashes with the one event it has read.
  lemma CrashStrandsAnEvent(c: string, ev: Event) returns (steps: seq<Step>)
    ensures steps == [Join(c), Publish(ev), Read(c, 1, false), Crash(c)]
    ensures IsRun(Created([]), steps) && Stranded(After(Created([]), steps), 0)
  {
    var q := Take(Take(Created([]), Join(c)), Publish(ev));
    assert q.log == [ev] && q.group == NewGroup(0) && q.members == map[c := Member([], Waiting)];
    var t := Take(q, Read(c, 1, false));
    assert 0 in Batch(q.group, 1, 1) && t.group.pel[0] == c;
    Prepend(t, Crash(c), []);
    Prepend(q, Read(c, 1, false), [Crash(c)]);
    var rest := [Read(c, 1, false)] + [Crash(c)];
    Prepend(Take(Created([]), Join(c)), Publish(ev), rest);
    Prepend(Created([]), Join(c), [Publish(ev)] + rest);
    steps := [Join(c)] + ([Publish(ev)] + rest);
    assert [Crash(c)] + [] == [Crash(c)];
  }

  lemma StrandedStepStaysStranded(q: Queue, s: Step, id: nat)
    requires Good(q) && Enabled(q, s) && Stranded(q, id)
    ensures Stranded(Take(q, s), id)
    ensures s.Hand? ==> q.members[s.c].pending[0] != id
  {
    if !s.Publish? && s.c in q.members {
      assert MemberOk(q, s.c);
      var p := q.members[s.c].pending;
      assert p != [] ==> p == [p[0]] + p[1..] && p[0] in p;
    }
  }

  // Since reads only ever ask for new events, nobody picks up a stranded one: it is
  // never handed out again and never acknowledged.
  lemma {:induction false} StrandedForever(q: Queue, steps: seq<Step>, id: nat)
    requires Good(q) && IsRun(q, steps) && Stranded(q, id)
    ensures var t := After(q, steps);
            && Stranded(t, id) && id !in t.group.acked
            && |q.returned| <= |t.returned| && t.returned[..|q.returned|] == q.returned
            && forall k :: |q.returned| <= k < |t.returned| ==> t.returned[k].id != id
    decreases |steps|
  {
    if steps != [] {
      StepKeepsGood(q, steps[0]);
      StrandedStepStaysStranded(q, steps[0], id);
      StrandedForever(Take(q, steps[0]), steps[1..], id);
    }
  }

  // Every event published since the group was created is in exactly one place.
  lemma EveryEventIsInOnePlace(q: Queue, id: nat)
    requires Good(q) && q.group.start <= id < |q.log|
    ensures var undelivered, acked, stranded := id >= q.group.cursor, id in q.group.acked, Stranded(q, id);
            var held := exists c :: Holds(q, c, id);
            && (undelivered || held || stranded || acked)
            && !(undelivered && (held || stranded || acked)) && !(held && (stranded || acked)) && !(stranded && acked)
    ensures forall c, d :: Holds(q, c, id) && Holds(q, d, id) ==> c == d
  {
    assert forall c :: c in q.members ==> MemberOk(q, c);
  }
}
