/** The hand-written event loop (`RunManual` in `src/run.rs`). */
module ManualServer {
  import opened Common
  import opened IntrusiveList
  import opened FakeIo
  import opened Echo
  import opened ManualConnection
  import opened Pipeline
  import opened PipelineRuns
  import opened ObjectCalls
  import opened RoundOrder
  import QueuedSlab

  /** What a live connection amounts to. */
  datatype View = View(echo: Echo, stream: FakeStream)

  /** The loop's variables for accepting: the listener, `accept_left` and `can_accept`. */
  datatype Acceptor = Acceptor(listener: FakeListener, left: nat, can: bool)

  /** The run so far, and what the slab holds. */
  datatype Books = Books(run: Trail, views: map<nat, View>)

  // ----- how the loop's variables stand to the ledger

  ghost predicate Served(l: Ledger, views: map<nat, View>) {
    && views.Keys == l.conns.Keys
    && forall k :: k in views ==>
          && (views[k].echo, views[k].stream.calls) == AtPhase(l.conns[k].phase)
          && views[k].stream.id == l.conns[k].id
  }

  /** The poll table is the listener under key 0 and exactly the live connections, each under its key
      plus one; every object knows its own index. */
  ghost predicate Tabled(views: map<nat, View>, listener: Option<nat>, items: map<nat, Item>) {
    && listener.Some? && listener.value in items && items[listener.value] == Item(READABLE, 0)
    && (forall k :: k in views ==>
          && views[k].stream.pollIndex.Some? && views[k].stream.pollIndex.value in items
          && items[views[k].stream.pollIndex.value] == Item(BOTH, k + 1))
    && (forall i :: i in items ==>
          if items[i].key == 0 then listener == Some(i)
          else items[i].key - 1 in views && views[items[i].key - 1].stream.pollIndex == Some(i))
  }

  ghost predicate Coupled(b: Books, a: Acceptor, queue: seq<nat>, items: map<nat, Item>, tape: Tape) {
    && Inv(b.run.l) && Recorded(b.run, tape) && b.run.l.listener.Open?
    && b.run.l.left == a.left && b.run.l.ready == a.can && b.run.l.calls == a.listener.calls
    && Served(b.run.l, b.views) && Tabled(b.views, a.listener.pollIndex, items)
    && forall k :: k in queue <==> k in b.run.l.todo
  }

  function Called(listener: FakeListener): FakeListener {
    listener.(calls := listener.calls + 1)
  }

  lemma TabledPut(views: map<nat, View>, listener: Option<nat>, items: map<nat, Item>, k: nat, i: nat, v: View)
    requires Tabled(views, listener, items) && k !in views && i !in items && v.stream.pollIndex == Some(i)
    ensures Tabled(views[k := v], listener, items[i := Item(BOTH, k + 1)])
  {
  }

  lemma TabledSame(views: map<nat, View>, listener: Option<nat>, items: map<nat, Item>, k: nat, v: View)
    requires Tabled(views, listener, items) && k in views && v.stream.pollIndex == views[k].stream.pollIndex
    ensures Tabled(views[k := v], listener, items)
  {
  }

  lemma TabledRemove(views: map<nat, View>, listener: Option<nat>, items: map<nat, Item>, k: nat)
    requires Tabled(views, listener, items) && k in views
    ensures views[k].stream.pollIndex.Some? && views[k].stream.pollIndex.value in items
    ensures Tabled(views - {k}, listener, items - {views[k].stream.pollIndex.value})
  {
  }

  lemma CoupledBlock(b: Books, a: Acceptor, queue: seq<nat>, items: map<nat, Item>, tape: Tape)
    requires Coupled(b, a, queue, items, tape) && a.can && a.left > 0 && Blocks(a.listener.calls + 1)
    ensures Enabled(b.run.l, BlockMove)
    ensures Coupled(Books(Advance(b.run, BlockMove), b.views), Acceptor(Called(a.listener), a.left, false), queue,
      items,
                    Note(tape, AcceptCall(true)))
  {
    hide Inv, Recorded, Served, Tabled;
    AcceptBlocksInv(b.run.l);
    RecordedThen(b.run, tape, BlockMove);
    NoteTwo(tape, AcceptCall(true), PollCall);
    ServedSame(b.run.l, AcceptBlocks(b.run.l), b.views);
  }

  lemma ServedSame(a: Ledger, b: Ledger, views: map<nat, View>)
    requires Served(a, views) && a.conns == b.conns
    ensures Served(b, views)
  {
  }

  lemma CoupledAccept(b: Books, a: Acceptor, queue: seq<nat>, items: map<nat, Item>, tape: Tape, k: nat, i: nat)
    requires Coupled(b, a, queue, items, tape) && a.can && a.left > 0 && !Blocks(a.listener.calls + 1)
    requires k !in b.views && i !in items
    ensures Enabled(b.run.l, AcceptMove(k))
    ensures AcceptConn(b.run.l, k).n == b.run.l.n && AcceptConn(b.run.l, k).m.poll == b.run.l.m.poll
    ensures var id := a.listener.calls + 1;
      Coupled(Books(Advance(b.run, AcceptMove(k)), b.views[k := View(START, FakeStream(id, Some(i), 0))]),
              Acceptor(Called(a.listener), a.left - 1, true), queue + [k], items[i := Item(BOTH, k + 1)],
              Note(Note(tape, AcceptCall(false)), RegisterCall(id)))
  {
    hide Inv, Recorded, Tabled;
    var id := a.listener.calls + 1;
    AcceptConnInv(b.run.l, k);
    RecordedThen(b.run, tape, AcceptMove(k));
    NoteTwo(tape, AcceptCall(false), RegisterCall(id));
    TabledPut(b.views, a.listener.pollIndex, items, k, i, View(START, FakeStream(id, Some(i), 0)));
  }

  lemma ServeCost(l: Ledger, views: map<nat, View>, k: nat, tape: Tape, w: View, after: Tape)
    requires Inv(l) && Served(l, views) && k in views && k in l.todo
    requires (w.echo, w.stream, after) == Outcome(views[k].echo, views[k].stream, tape)
    ensures k in l.conns && l.conns[k].phase <= 2 && w.stream.pollIndex == views[k].stream.pollIndex
    ensures Done(w.echo) <==> l.conns[k].phase == 2
    ensures w.stream.id == l.conns[k].id
    ensures var last := NoteAll(tape, CallsOf(l, ServeMove(k)));
      if Done(w.echo) then Served(Serve(l, k), views - {k}) && last == Note(after, UnregisterCall(w.stream.id))
      else Served(Serve(l, k), views[k := w]) && last == after
  {
    hide Inv, Outcome;
    PhaseBound(l, k);
    var c := l.conns[k];
    PhaseOutcome(c.phase, views[k].stream, tape);
    NoteTwo(tape, WriteCall(c.id, REQUEST, false), UnregisterCall(c.id));
    assert CallsOf(l, ServeMove(k)) == PhaseCalls(c.id, c.phase) + if c.phase < 2 then [] else [UnregisterCall(c.id)];
    assert PhaseCalls(c.id, c.phase) + [] == PhaseCalls(c.id, c.phase);
    assert c.phase == 2 ==> CallsOf(l, ServeMove(k)) == [WriteCall(c.id, REQUEST, false), UnregisterCall(c.id)];
  }

  /** One service of `k`, from its view `v` to `w`; a done connection leaves the tables. */
  lemma CoupledServe(b: Books, a: Acceptor, queue: seq<nat>, items: map<nat, Item>, tape: Tape, w: View, after: Tape)
    requires Coupled(b, a, queue, items, tape)
    requires queue != [] && Distinct(queue) && queue[0] in b.views
    requires var v := b.views[queue[0]]; (w.echo, w.stream, after) == Outcome(v.echo, v.stream, tape)
    ensures var k := queue[0];
      && Enabled(b.run.l, ServeMove(k)) && Serve(b.run.l, k).n == b.run.l.n
      && Serve(b.run.l, k).m.poll == b.run.l.m.poll
      && if Done(w.echo) then
           && w.stream.pollIndex.Some? && w.stream.pollIndex.value in items
           && Coupled(Books(Advance(b.run, ServeMove(k)), b.views - {k}), a, queue[1..],
             items - {w.stream.pollIndex.value},
                      Note(after, UnregisterCall(w.stream.id)))
         else Coupled(Books(Advance(b.run, ServeMove(k)), b.views[k := w]), a, queue[1..], items, after)
  {
    hide Tabled, Inv, Recorded, Served, Outcome;
    var k := queue[0];
    assert k in queue;
    TakenFirst(queue);
    ServeInv(b.run.l, k);
    ServeCost(b.run.l, b.views, k, tape, w, after);
    RecordedThen(b.run, tape, ServeMove(k));
    hide NoteAll, CallsOf, AtPhase, PhaseCalls;
    ServeKeeps(b.run.l, k);
    if Done(w.echo) {
      TabledRemove(b.views, a.listener.pollIndex, items, k);
    } else {
      TabledSame(b.views, a.listener.pollIndex, items, k, w);
    }
  }

  lemma ServeKeeps(l: Ledger, k: nat)
    requires k in l.conns
    ensures var a := Serve(l, k);
      && a.n == l.n && a.m.poll == l.m.poll && a.listener == l.listener && a.left == l.left && a.ready == l.ready
      && a.calls == l.calls && a.todo == l.todo - {k}
  {
  }

  lemma CoupledPoll(b: Books, a: Acceptor, queue: seq<nat>, items: map<nat, Item>, tape: Tape, after: seq<nat>)
    requires Coupled(b, a, queue, items, tape)
    requires queue == [] && (a.left > 0 ==> !a.can) && (a.left > 0 || b.views != map[])
    requires forall k :: k in after <==> k in b.views
    ensures Enabled(b.run.l, PollMove)
    ensures Coupled(Books(Advance(b.run, PollMove), b.views), a.(can := true), after, items, Note(tape, PollCall))
    ensures PollAll(b.run.l).m.poll == b.run.l.m.poll + 1 <= b.run.l.n + 2
  {
    hide Tabled, Recorded, ListenerInv, CallInv, OneARound;
    var l := b.run.l;
    assert forall k :: k in l.todo ==> k in queue;
    assert l.left == 0 ==> l.conns.Keys != {} by {
      assert b.views.Keys == l.conns.Keys;
      assert b.views != map[] ==> b.views.Keys != {};
    }
    PollAllInv(l);
    RecordedThen(b.run, tape, PollMove);
    NoteTwo(tape, PollCall, PollCall);
  }

  /** The connections the events queue. */
  ghost function Queues(events: seq<Item>): set<nat> {
    if events == [] then {}
    else
      var e := events[|events| - 1];
      Queues(events[..|events| - 1]) + if e.key > 0 && Wanted(e.interest) then {e.key - 1} else {}
  }

  /** A connection an event names goes to the back of the queue. */
  ghost function LinedUp(queue: seq<nat>, event: Item): seq<nat> {
    if event.key > 0 && Wanted(event.interest) then Without(queue, event.key - 1) + [event.key - 1] else queue
  }

  /** The queue after these events, in their order. */
  ghost function LineUp(events: seq<Item>): seq<nat> {
    if events == [] then [] else LinedUp(LineUp(events[..|events| - 1]), events[|events| - 1])
  }

  lemma EventsThen(events: seq<Item>, j: nat)
    requires j < |events|
    ensures LineUp(events[..j + 1]) == LinedUp(LineUp(events[..j]), events[j])
    ensures Frees(events[..j + 1]) <==> Frees(events[..j]) || events[j].key == 0
  {
    assert events[..j + 1][..j] == events[..j];
  }

  lemma NoEvents()
    ensures LineUp([]) == [] && !Frees([])
  {
  }

  /** The queue holds each connection the events name once. */
  lemma {:induction false} LineUpIs(events: seq<Item>)
    ensures Distinct(LineUp(events)) && forall k: nat :: k in LineUp(events) <==> k in Queues(events)
  {
    if events != [] {
      var rest, e := events[..|events| - 1], events[|events| - 1];
      LineUpIs(rest);
      if e.key > 0 && Wanted(e.interest) {
        AddedLast(Without(LineUp(rest), e.key - 1), e.key - 1);
      }
    }
  }

  ghost function Frees(events: seq<Item>): bool {
    events != [] && (Frees(events[..|events| - 1]) || events[|events| - 1].key == 0)
  }

  lemma {:induction false} QueuesEach(events: seq<Item>, j: nat)
    requires j < |events|
    ensures events[j].key > 0 && Wanted(events[j].interest) ==> events[j].key - 1 in Queues(events)
    ensures events[j].key == 0 ==> Frees(events)
  {
    if j < |events| - 1 {
      QueuesEach(events[..|events| - 1], j);
    }
  }

  lemma {:induction false} QueuesWithin(events: seq<Item>, live: set<nat>)
    requires forall j :: 0 <= j < |events| && events[j].key > 0 ==> events[j].key - 1 in live
    ensures Queues(events) <= live
  {
    if events != [] {
      QueuesWithin(events[..|events| - 1], live);
    }
  }

  /** An event says that connection `k` is readable and writable. */
  ghost predicate Named(events: seq<Item>, k: nat) {
    exists j :: 0 <= j < |events| && events[j] == Item(BOTH, k + 1)
  }

  /** A sweep of the poll table finds the listener, exactly the live connections, and nothing else. */
  lemma EventsCover(views: map<nat, View>, listener: Option<nat>, items: map<nat, Item>, events: seq<Item>,
    order: seq<nat>)
    requires Tabled(views, listener, items) && |events| == |order|
    requires forall i :: i in order <==> i in items
    requires forall j :: 0 <= j < |order| ==> order[j] in items && events[j] == items[order[j]]
    ensures forall j :: 0 <= j < |events| && events[j].key > 0 ==> events[j].key - 1 in views
    ensures Frees(events) && Queues(events) == views.Keys
  {
    QueuesWithin(events, views.Keys);
    QueuesEach(events, IndexOf(order, listener.value));
    forall k | k in views
      ensures k in Queues(events)
    {
      var j := IndexOf(order, views[k].stream.pollIndex.value);
      assert events[j] == Item(BOTH, k + 1) && Wanted(BOTH);
      QueuesEach(events, j);
    }
  }

  lemma EachNamed(views: map<nat, View>, listener: Option<nat>, items: map<nat, Item>, events: seq<Item>,
                  order: seq<nat>)
    requires Tabled(views, listener, items) && |events| == |order|
    requires forall i :: i in order <==> i in items
    requires forall j :: 0 <= j < |order| ==> order[j] in items && events[j] == items[order[j]]
    ensures forall k :: k in views ==> Named(events, k)
  {
    forall k | k in views
      ensures Named(events, k)
    {
      var j := IndexOf(order, views[k].stream.pollIndex.value);
      assert events[j] == Item(BOTH, k + 1);
    }
  }

  ghost function Opened(n: nat, start: Tape): Books {
    Books(Trail(OpenListener(Init(n)), [OpenMove], start), map[])
  }

  /** The listener has just been registered; nothing has been accepted. */
  lemma CoupledStart(n: nat, index: nat, start: Tape)
    ensures Coupled(Opened(n, start), Acceptor(FakeListener(Some(index), 0), n, true), [],
                    map[index := Item(READABLE, 0)], Note(start, RegisterCall(LISTENER)))
    ensures Opened(n, start).run.l.m.poll == 0 && Opened(n, start).run.l.n == n
  {
    hide Inv, Recorded;
    InitInv(n);
    OpenListenerInv(Init(n));
    RecordedInit(n, start);
    RecordedThen(Trail(Init(n), [], start), start, OpenMove);
    NoteTwo(start, RegisterCall(LISTENER), PollCall);
    assert [] + [OpenMove] == [OpenMove];
  }

  /** Nothing is left to accept or serve: the table holds only the listener and the counts are final. */
  lemma CoupledEnd(b: Books, a: Acceptor, queue: seq<nat>, items: map<nat, Item>, tape: Tape)
    requires Coupled(b, a, queue, items, tape) && a.left == 0 && b.views == map[]
    ensures a.listener.pollIndex.Some? && a.listener.pollIndex.value in items
    ensures items - {a.listener.pollIndex.value} == map[]
    ensures var end := CloseListener(b.run.l);
      && Finished(end) && end.n == b.run.l.n && end.m == Expected(end.n)
      && Recorded(Trail(end, b.run.moves + [CloseMove], b.run.start), Note(tape, UnregisterCall(LISTENER)))
  {
    hide Inv, Recorded;
    CloseListenerInv(b.run.l);
    assert b.run.l.conns.Keys == {};
    FinishedCounts(CloseListener(b.run.l));
    RecordedThen(b.run, tape, CloseMove);
    NoteTwo(tape, UnregisterCall(LISTENER), PollCall);
  }

  /** At every point of a run at most three connections are live, and no more than were to be accepted. */
  lemma FewLive(b: Books, a: Acceptor, queue: seq<nat>, items: map<nat, Item>, tape: Tape)
    requires Coupled(b, a, queue, items, tape)
    ensures |b.views| <= 3 && |b.views| <= b.run.l.n - a.left
  {
    hide Inv, Tabled, Recorded;
    FewConnections(b.run.l);
    assert |b.views.Keys| == |b.run.l.conns.Keys|;
  }

  // ----- the connections in the slab

  ghost function Objects(values: map<nat, Connection>): set<object> {
    (set k | k in values :: values[k]) + (set k | k in values :: values[k].buf)
  }

  ghost predicate Looks(c: Connection, v: View, size: nat)
    reads c, c.buf
  {
    c.Valid() && c.buf.Length == size && View(c.View(), c.stream) == v
  }

  /** The slab's connections are valid, share nothing, and look like `views`. */
  ghost predicate Tied(values: map<nat, Connection>, views: map<nat, View>, size: nat)
    reads Objects(values)
  {
    && values.Keys == views.Keys
    && (forall k :: k in values ==> Looks(values[k], views[k], size))
    && (forall j, k :: j in values && k in values && j != k ==>
          values[j] != values[k] && values[j].buf != values[k].buf)
  }

  lemma TiedKeys(values: map<nat, Connection>, views: map<nat, View>, size: nat)
    requires Tied(values, views, size)
    ensures values.Keys == views.Keys
  {
  }

  lemma TiedPut(values: map<nat, Connection>, views: map<nat, View>, size: nat, k: nat, c: Connection)
    requires Tied(values, views, size) && c.Valid() && c.buf.Length == size
    requires forall j :: j in values && j != k ==> c != values[j] && c.buf != values[j].buf
    ensures Tied(values[k := c], views[k := View(c.View(), c.stream)], size)
  {
  }

  lemma TiedRest(values: map<nat, Connection>, views: map<nat, View>, size: nat, k: nat)
    requires Tied(values, views, size) && k in values
    ensures Tied(values - {k}, views - {k}, size)
    ensures k in views && Looks(values[k], views[k], size)
    ensures values[k] !in Objects(values - {k}) && values[k].buf !in Objects(values - {k})
  {
  }

  lemma TiedAgain(values: map<nat, Connection>, views: map<nat, View>, size: nat, k: nat, w: View)
    requires k in values && k in views && Tied(values - {k}, views - {k}, size) && Looks(values[k], w, size)
    requires values[k] !in Objects(values - {k}) && values[k].buf !in Objects(values - {k})
    ensures Tied(values, views[k := w], size)
  {
    TiedPut(values - {k}, views - {k}, size, k, values[k]);
    assert (values - {k})[k := values[k]] == values && (views - {k})[k := w] == views[k := w];
  }

  type Conns = QueuedSlab.Slab<Connection>

  class RunManual {
    const n: nat
    const size: nat
    const stats: Stats
    const poll: PollTable
    const conns: NodeStore<Connection>

    /** Between runs the poll table and the slab are empty. */
    ghost predicate Quiescent()
      reads this, poll, conns
    {
      size >= |REQUEST| && poll.stats == stats && poll.items == map[] && conns.nodes == map[]
    }

    constructor (n: nat, size: nat, stats: Stats)
      requires size >= |REQUEST|
      ensures Quiescent() && this.n == n && this.size == size && this.stats == stats
      ensures fresh(poll) && fresh(conns)
    {
      this.n, this.size, this.stats := n, size, stats;
      poll := new PollTable(stats);
      conns := new NodeStore();
    }

    ghost predicate State(q: Conns, a: Acceptor, b: Books)
      reads this, q, q.nodes, q.next, poll, stats, Objects(q.values)
    {
      && q.Valid() && q.nodes == conns && size >= |REQUEST| && poll.stats == stats
      && Tied(q.values, b.views, size)
      && Coupled(b, a, q.queue, poll.items, stats.Kept())
    }

    /** One accept: it blocks, or yields one connection more, `keys[0]`. */
    method AcceptOne(q: Conns, a0: Acceptor, ghost b0: Books)
      returns (a: Acceptor, ghost b: Books, ghost keys: seq<nat>)
      requires State(q, a0, b0) && a0.left > 0 && a0.can
      modifies q, q.nodes, q.next, poll, stats
      ensures State(q, a, b) && b.run.l.m.poll == b0.run.l.m.poll && |keys| == a0.left - a.left
      ensures q.queue == old(q.queue) + keys
      ensures if a.can then |keys| == 1 && Moved(b0.run, b.run, [AcceptMove(keys[0])])
              else keys == [] && Moved(b0.run, b.run, [BlockMove]) && a.left > 0
      ensures forall k :: k in q.values ==>
        (k in old(q.values) && q.values[k] == old(q.values)[k]) || (fresh(q.values[k]) && fresh(q.values[k].buf))
    {
      hide QueuedSlab.Slab.Valid, Coupled;
      var listener, r := a0.listener.Accept(stats);
      assert Tied(q.values, b0.views, size);
      if r.WouldBlock? {
        CoupledBlock(b0, a0, q.queue, poll.items, old(stats.Kept()));
        a, b, keys := Acceptor(listener, a0.left, false), Books(Advance(b0.run, BlockMove), b0.views), [];
      } else {
        a := Acceptor(listener, a0.left - 1, true);
        ghost var key;
        b, key := AddConnection(q, r.value, a0, b0, old(stats.Kept()));
        keys := [key];
      }
    }

    /** A new connection is entered in the slab and queued. */
    method Enter(q: Conns, key: nat, c: Connection, ghost views: map<nat, View>)
      requires q.Valid() && key !in q.values && Tied(q.values, views, size) && c.Valid() && c.buf.Length == size
      requires forall j :: j in q.values ==> c != q.values[j] && c.buf != q.values[j].buf
      modifies q, q.nodes, q.next
      ensures q.Valid() && q.values == old(q.values)[key := c] && q.queue == old(q.queue) + [key]
      ensures Tied(q.values, views[key := View(c.View(), c.stream)], size)
      ensures c.View() == old(c.View())
    {
      hide QueuedSlab.Slab.Valid;
      ghost var values := q.values;
      q.InsertQueued(key, c);
      assert Tied(values, views, size);
      assert c.Valid();
      TiedPut(values, views, size, key, c);
    }

    /** The connection is entered in the slab, the poll table and the queue. */
    method AddConnection(q: Conns, stream: FakeStream, ghost a0: Acceptor, ghost b0: Books, ghost before: Tape)
      returns (ghost b: Books, ghost entered: nat)
      requires q.Valid() && q.nodes == conns && size >= |REQUEST| && poll.stats == stats
      requires Tied(q.values, b0.views, size) && stream == FakeStream(a0.listener.calls + 1, None, 0)
      requires Coupled(b0, a0, q.queue, poll.items, before) && a0.can && a0.left > 0
      requires !Blocks(a0.listener.calls + 1) && stats.Kept() == Note(before, AcceptCall(false))
      modifies q, q.nodes, q.next, poll, stats
      ensures State(q, Acceptor(Called(a0.listener), a0.left - 1, true), b)
      ensures Moved(b0.run, b.run, [AcceptMove(entered)]) && b.run.l.m.poll == b0.run.l.m.poll &&
        q.queue == old(q.queue) + [entered]
      ensures forall k :: k in q.values ==>
        (k in old(q.values) && q.values[k] == old(q.values)[k]) || (fresh(q.values[k]) && fresh(q.values[k].buf))
    {
      hide QueuedSlab.Slab.Valid, Coupled, Inv, Recorded, ListenerInv, ConnInv, CallInv, OneARound, Served, Tabled;
      hide Tied, AcceptConn, Connection.Valid, Connection.View;
      var key, index, c := Prepare(q, stream, b0.views);
      Enter(q, key, c, b0.views);
      CoupledAccept(b0, a0, old(q.queue), old(poll.items), before, key, index);
      b, entered := Books(Advance(b0.run, AcceptMove(key)), b0.views[key := View(START, c.stream)]), key;
    }

    /** The stream gets a vacant key, a place in the poll table and a connection of its own. */
    method Prepare(q: Conns, stream: FakeStream, ghost views: map<nat, View>)
      returns (key: nat, index: nat, c: Connection)
      requires q.Valid() && Tied(q.values, views, size) && size >= |REQUEST| && poll.stats == stats
      modifies poll, stats
      ensures q.Valid() && Tied(q.values, views, size) && key !in q.values && key !in views
      ensures stats.Kept() == Note(old(stats.Kept()), RegisterCall(stream.id))
      ensures index !in old(poll.items) && poll.items == old(poll.items)[index := Item(BOTH, key + 1)]
      ensures fresh(c) && fresh(c.buf) && c.Valid() && c.buf.Length == size
      ensures c.View() == START && c.stream == stream.(pollIndex := Some(index))
    {
      hide QueuedSlab.Slab.Valid;
      TiedKeys(q.values, views, size);
      key := q.AnyVacantEntry();
      index := poll.Register(key + 1, BOTH, stream.id);
      c := new Connection(stream.(pollIndex := Some(index)), size);
    }

    /** Accepts until an accept blocks or none is left; the connections `keys` join the queue in that order. */
    method AcceptAll(q: Conns, a0: Acceptor, ghost b0: Books)
      returns (a: Acceptor, ghost b: Books, ghost keys: seq<nat>)
      requires State(q, a0, b0)
      modifies q, q.nodes, q.next, poll, stats
      ensures State(q, a, b) && b.run.l.m.poll == b0.run.l.m.poll && (a.left > 0 ==> !a.can)
      ensures q.queue == old(q.queue) + keys && |keys| == a0.left - a.left
      ensures Moved(b0.run, b.run, Accepts(keys) + if a0.can && a.left > 0 then [BlockMove] else [])
      ensures forall k :: k in q.values ==>
        (k in old(q.values) && q.values[k] == old(q.values)[k]) || (fresh(q.values[k]) && fresh(q.values[k].buf))
    {
      hide State, Coupled, Inv, Recorded, ListenerInv, ConnInv, CallInv, OneARound, Served, Tabled, Tied, Looks;
      hide QueuedSlab.Slab.Valid;
      a, b, keys := a0, b0, [];
      while a.left > 0 && a.can
        invariant State(q, a, b) && b.run.l.m.poll == b0.run.l.m.poll
        invariant q.queue == old(q.queue) + keys && |keys| == a0.left - a.left
        invariant Moved(b0.run, b.run, Accepts(keys) + if a0.can && !a.can then [BlockMove] else [])
        invariant (a.can ==> a0.can) && (a0.can && !a.can ==> a.left > 0)
        invariant forall k :: k in q.values ==>
          (k in old(q.values) && q.values[k] == old(q.values)[k]) || (fresh(q.values[k]) && fresh(q.values[k].buf))
        decreases a.left, if a.can then 1 else 0
      {
        ghost var more, before := [], b;
        a, b, more := AcceptOne(q, a, b);
        MovedThen(b0.run, before.run, b.run, Accepts(keys) + [], if a.can then [AcceptMove(more[0])] else [BlockMove]);
        assert Accepts(keys) + [] == Accepts(keys);
        if a.can {
          AcceptsOne(keys, more[0]);
          assert keys + more == keys + [more[0]] && Accepts(keys + more) + [] == Accepts(keys + more);
        } else {
          assert keys + more == keys;
        }
        keys := keys + more;
      }
    }

    /** `process` on one connection leaves the others as they are. */
    method ProcessAt(q: Conns, key: nat, ghost views: map<nat, View>) returns (done: bool, c: Connection, ghost w: View)
      requires q.Valid() && key in q.values && Tied(q.values, views, size)
      modifies q.values[key], q.values[key].buf, stats
      ensures q.Valid() && c == q.values[key] && c.stream == w.stream
      ensures key in views
      ensures (w.echo, w.stream, stats.Kept()) == Outcome(views[key].echo, views[key].stream, old(stats.Kept()))
      ensures done <==> Done(w.echo)
      ensures if done then Tied(q.values - {key}, views - {key}, size) else Tied(q.values, views[key := w], size)
    {
      hide QueuedSlab.Slab.Valid, Outcome;
      c := q.Get(key);
      ghost var rest := q.values - {key};
      TiedRest(q.values, views, size, key);
      done := c.Process(stats);
      assert q.Valid();
      assert Tied(rest, views - {key}, size);
      w := View(c.View(), c.stream);
      if !done {
        TiedAgain(q.values, views, size, key, w);
      }
    }

    /** One turn of the processing loop: the front connection is taken off the queue and processed. */
    method ServeOne(q: Conns, key: nat, ghost a: Acceptor, ghost b0: Books) returns (ghost b: Books)
      requires State(q, a, b0) && q.queue != [] && key == q.queue[0]
      modifies q, q.nodes, q.next, poll, stats, Objects(q.values)
      ensures State(q, a, b) && b.run.l.m.poll == b0.run.l.m.poll
      ensures Moved(b0.run, b.run, [ServeMove(key)]) && q.queue == old(q.queue)[1..]
      ensures forall k :: k in q.values ==> k in old(q.values) && q.values[k] == old(q.values)[k]
    {
      hide QueuedSlab.Slab.Valid, Coupled, Outcome, Tied, Serve;
      ghost var tape := stats.Kept();
      Take(q, key, b0.views);
      var done, c, w := ProcessAt(q, key, b0.views);
      CoupledServe(b0, a, old(q.queue), poll.items, tape, w, stats.Kept());
      if done {
        b := Books(Advance(b0.run, ServeMove(key)), b0.views - {key});
        Close(q, key, c, b.views);
      } else {
        b := Books(Advance(b0.run, ServeMove(key)), b0.views[key := w]);
      }
    }

    method Take(q: Conns, key: nat, ghost views: map<nat, View>)
      requires q.Valid() && q.queue != [] && key == q.queue[0] && Tied(q.values, views, size)
      modifies q, q.nodes, q.next
      ensures q.Valid() && q.values == old(q.values) && q.queue == old(q.queue)[1..]
      ensures Tied(q.values, views, size) && key in q.values && key in views
      ensures Distinct(old(q.queue)) && key !in q.queue
    {
      Members(q.nodes.nodes, q.queue, q.next.head, q.next.tail);
      TakenFirst(q.queue);
      assert key in q.queue;
      hide QueuedSlab.Slab.Valid;
      q.Dequeue(key);
    }

    /** A finished connection is unregistered, then removed from the slab. */
    method Close(q: Conns, key: nat, c: Connection, ghost views: map<nat, View>)
      requires q.Valid() && key in q.values && c == q.values[key] && key !in q.queue && poll.stats == stats
      requires c.stream.pollIndex.Some? && c.stream.pollIndex.value in poll.items
      requires Tied(q.values - {key}, views, size)
      modifies q, q.nodes, q.next, poll, stats
      ensures q.Valid() && q.values == old(q.values) - {key} && q.queue == old(q.queue)
      ensures poll.items == old(poll.items) - {c.stream.pollIndex.value}
      ensures stats.Kept() == Note(old(stats.Kept()), UnregisterCall(c.stream.id))
      ensures Tied(q.values, views, size)
    {
      hide QueuedSlab.Slab.Valid;
      poll.Unregister(c.stream.pollIndex, c.stream.id);
      q.Free(key);
    }

    /** Serves each queued connection once, in the order of the queue. */
    method ServeAll(q: Conns, ghost a: Acceptor, ghost b0: Books) returns (ghost b: Books)
      requires State(q, a, b0)
      modifies q, q.nodes, q.next, poll, stats, Objects(q.values)
      ensures State(q, a, b) && b.run.l.m.poll == b0.run.l.m.poll
      ensures Moved(b0.run, b.run, Serves(old(q.queue))) && q.queue == []
      ensures forall k :: k in q.values ==> k in old(q.values) && q.values[k] == old(q.values)[k]
    {
      hide State, Coupled, Inv, Recorded, ListenerInv, ConnInv, CallInv, OneARound, Served, Tabled, Tied, Looks;
      hide QueuedSlab.Slab.Valid;
      b := b0;
      hide Moved, Serves;
      ghost var served: seq<Move> := [];
      MovedNone(b0.run);
      assert served + Serves(q.queue) == Serves(q.queue);
      while true
        invariant State(q, a, b) && b.run.l.m.poll == b0.run.l.m.poll
        invariant Moved(b0.run, b.run, served) && served + Serves(q.queue) == Serves(old(q.queue))
        invariant forall k :: k in q.values ==> k in old(q.values) && q.values[k] == old(q.values)[k]
        decreases |q.queue|
      {
        var next := Next(q, a, b);
        if next.None? {
          ServesNone();
          assert served + [] == served;
          return;
        }
        ghost var mid, queue := b, q.queue;
        b := ServeOne(q, next.value, a, b);
        MovedThen(b0.run, mid.run, b.run, served, [ServeMove(next.value)]);
        ServesFirst(queue);
        Regroup(served, [ServeMove(next.value)], Serves(q.queue));
        served := served + [ServeMove(next.value)];
      }
    }

    method Next(q: Conns, ghost a: Acceptor, ghost b: Books) returns (key: Option<nat>)
      requires State(q, a, b)
      ensures State(q, a, b)
      ensures key == if q.queue == [] then None else Some(q.queue[0])
    {
      hide Coupled;
      key := q.Head();
    }

    method MarkAt(q: Conns, key: nat, interest: bv8, ghost views: map<nat, View>) returns (doProcess: bool)
      requires q.Valid() && key in q.values && Tied(q.values, views, size)
      modifies q.values[key]
      ensures q.Valid() && q.queue == old(q.queue) && q.values == old(q.values) && Tied(q.values, views, size)
      ensures doProcess <==> Wanted(interest)
      ensures var c := q.values[key];
        && c.canRead == (old(q.values[key].canRead) || interest & READABLE != 0)
        && c.canWrite == (old(q.values[key].canWrite) || interest & WRITABLE != 0)
      ensures forall k :: k in q.values && k != key ==> q.values[k] != q.values[key]
    {
      hide QueuedSlab.Slab.Valid, Wanted;
      var c := q.Get(key);
      ghost var rest := q.values - {key};
      TiedRest(q.values, views, size, key);
      doProcess := c.Mark(interest);
      assert q.Valid();
      assert Tied(rest, views - {key}, size);
      TiedAgain(q.values, views, size, key, views[key]);
      assert views[key := views[key]] == views;
    }

    method Requeue(q: Conns, key: nat, ghost views: map<nat, View>)
      requires q.Valid() && key in q.values && Tied(q.values, views, size)
      modifies q, q.nodes, q.next
      ensures q.Valid() && q.values == old(q.values) && Tied(q.values, views, size)
      ensures forall k :: k in q.queue <==> k in old(q.queue) || k == key
      ensures q.queue == Without(old(q.queue), key) + [key]
    {
      hide QueuedSlab.Slab.Valid;
      q.Requeue(key);
    }

    /** One event: the listener may be called again, or a connection is queued for processing. */
    method HandleEvent(q: Conns, event: Item, can0: bool, ghost views: map<nat, View>) returns (can: bool)
      requires q.Valid() && Tied(q.values, views, size)
      requires event.key > 0 ==> event.key - 1 in q.values
      modifies q, q.nodes, q.next, Objects(q.values)
      ensures q.Valid() && q.values == old(q.values) && Tied(q.values, views, size)
      ensures can == (can0 || event.key == 0)
      ensures q.queue == LinedUp(old(q.queue), event)
      ensures forall k :: k in q.values ==> (old(q.values[k].canRead) ==> q.values[k].canRead)
      ensures forall k :: k in q.values ==> (old(q.values[k].canWrite) ==> q.values[k].canWrite)
      ensures event.key > 0 ==>
        && (event.interest & READABLE != 0 ==> q.values[event.key - 1].canRead)
        && (event.interest & WRITABLE != 0 ==> q.values[event.key - 1].canWrite)
    {
      hide QueuedSlab.Slab.Valid, Wanted, Tied;
      can := can0;
      if event.key == 0 {
        can := true;
      } else {
        var key := event.key - 1;
        var doProcess := MarkAt(q, key, event.interest, views);
        if doProcess {
          Requeue(q, key, views);
        }
      }
    }

    /** Polls; the listener may be called again, and the queue is exactly the live connections. */
    method PollRound(q: Conns, a0: Acceptor, ghost b0: Books) returns (a: Acceptor, ghost b: Books)
      requires State(q, a0, b0) && q.queue == []
      requires (a0.left > 0 ==> !a0.can) && (a0.left > 0 || b0.views != map[])
      modifies q, q.nodes, q.next, stats, Objects(q.values)
      ensures State(q, a, b) && b.run.l.m.poll == b0.run.l.m.poll + 1 <= b.run.l.n + 2
      ensures Moved(b0.run, b.run, [PollMove]) && a == a0.(can := true)
      ensures q.values == old(q.values) && forall k :: k in q.queue <==> k in q.values
      ensures forall k :: k in q.values ==> q.values[k].canRead && q.values[k].canWrite
    {
      hide QueuedSlab.Slab.Valid, Coupled, Inv, Recorded, ListenerInv, ConnInv, CallInv, OneARound, Served, Tabled;
      hide Tied, Looks, Named;
      var events := Sweep(q, a0, b0);
      var can := Dispatch(q, events, a0.can, b0.views);
      CoupledPoll(b0, a0, [], poll.items, old(stats.Kept()), q.queue);
      a, b := a0.(can := can), Books(Advance(b0.run, PollMove), b0.views);
    }

    /** The poll itself. */
    method Sweep(q: Conns, ghost a: Acceptor, ghost b: Books) returns (events: seq<Item>)
      requires State(q, a, b)
      modifies stats
      ensures q.Valid() && Tied(q.values, b.views, size) && q.values.Keys == b.views.Keys
      ensures stats.Kept() == Note(old(stats.Kept()), PollCall)
      ensures forall j :: 0 <= j < |events| && events[j].key > 0 ==> events[j].key - 1 in b.views
      ensures Frees(events) && Queues(events) == b.views.Keys
      ensures forall k :: k in b.views ==> Named(events, k)
    {
      hide QueuedSlab.Slab.Valid, Coupled, Frees, Queues, Named;
      var order;
      events, order := poll.Poll();
      hide Tied, Distinct;
      CoupledSweep(b, a, q.queue, poll.items, old(stats.Kept()), events, order);
    }

    lemma CoupledSweep(b: Books, a: Acceptor, queue: seq<nat>, items: map<nat, Item>, tape: Tape,
                       events: seq<Item>, order: seq<nat>)
      requires Coupled(b, a, queue, items, tape) && |events| == |order|
      requires forall i :: i in order <==> i in items
      requires forall j :: 0 <= j < |order| ==> order[j] in items && events[j] == items[order[j]]
      ensures forall j :: 0 <= j < |events| && events[j].key > 0 ==> events[j].key - 1 in b.views
      ensures Frees(events) && Queues(events) == b.views.Keys
      ensures forall k :: k in b.views ==> Named(events, k)
    {
      hide Inv, Recorded, Served, Tabled, Frees, Queues, Named;
      EachNamed(b.views, a.listener.pollIndex, items, events, order);
      EventsCover(b.views, a.listener.pollIndex, items, events, order);
    }

    /** The event loop. */
    method Dispatch(q: Conns, events: seq<Item>, can0: bool, ghost views: map<nat, View>) returns (can: bool)
      requires q.Valid() && Tied(q.values, views, size) && q.queue == []
      requires forall j :: 0 <= j < |events| && events[j].key > 0 ==> events[j].key - 1 in q.values
      modifies q, q.nodes, q.next, Objects(q.values)
      ensures q.Valid() && q.values == old(q.values) && Tied(q.values, views, size)
      ensures can == (can0 || Frees(events))
      ensures forall k: nat :: k in q.queue <==> k in Queues(events)
      ensures forall k :: k in q.values && Named(events, k) ==> q.values[k].canRead && q.values[k].canWrite
      ensures q.queue == LineUp(events)
    {
      hide QueuedSlab.Slab.Valid, Tied, LineUp, LinedUp, Frees, Queues;
      can := can0;
      NoEvents();
      for j := 0 to |events|
        invariant q.Valid() && q.values == old(q.values) && Tied(q.values, views, size)
        invariant can == (can0 || Frees(events[..j]))
        invariant q.queue == LineUp(events[..j])
        invariant forall i :: 0 <= i < j && events[i].key > 0 && events[i].interest == BOTH ==>
          q.values[events[i].key - 1].canRead && q.values[events[i].key - 1].canWrite
      {
        InterestBits();
        EventsThen(events, j);
        can := HandleEvent(q, events[j], can, views);
      }
      assert events[..|events|] == events;
      LineUpIs(events);
    }

    /** One round of the main loop: accept, serve the queue and the new connections once each, and poll unless
        everything is finished. */
    method Round(q: Conns, a0: Acceptor, ghost b0: Books)
      returns (a: Acceptor, finished: bool, ghost b: Books, ghost keys: seq<nat>)
      requires State(q, a0, b0)
      modifies q, q.nodes, q.next, poll, stats, Objects(q.values)
      ensures State(q, a, b) && b.run.l.n == b0.run.l.n && b.run.start == b0.run.start
      ensures b.run.moves == b0.run.moves + (Accepts(keys) + if a0.can && a.left > 0 then [BlockMove] else [])
                         + Serves(old(q.queue) + keys) + if finished then [] else [PollMove]
      ensures forall k :: k in old(q.queue) ==> k !in keys
      ensures finished ==> a.left == 0 && b.views == map[]
      ensures !finished ==> b.run.l.m.poll == b0.run.l.m.poll + 1 <= b.run.l.n + 2
      ensures forall k :: k in q.values ==>
        (k in old(q.values) && q.values[k] == old(q.values)[k]) || (fresh(q.values[k]) && fresh(q.values[k].buf))
    {
      hide State, Coupled, Inv, Recorded, ListenerInv, ConnInv, CallInv, OneARound, Served, Tabled, Tied, Looks;
      hide QueuedSlab.Slab.Valid;
      a, b, keys := AcceptAll(q, a0, b0);
      QueuedOnce(q, a, b, old(q.queue), keys);
      b := ServeAll(q, a, b);
      var live := Live(q, a, b);
      finished := a.left == 0 && live == 0;
      if !finished {
        a, b := PollRound(q, a, b);
      }
    }

    lemma QueuedOnce(q: Conns, a: Acceptor, b: Books, queue: seq<nat>, keys: seq<nat>)
      requires State(q, a, b) && q.queue == queue + keys
      ensures forall k :: k in queue ==> k !in keys
    {
      hide Coupled, Tied;
      AllDiffer(q.queue);
      forall k | k in queue
        ensures k !in keys
      {
        var i := IndexOf(queue, k);
        assert q.queue[i] == k && forall j :: 0 <= j < |keys| ==> q.queue[|queue| + j] == keys[j];
      }
    }

    /** A complete run: for every number of connections, whatever keys the slabs choose and in whatever
        order events arrive, it ends, with the closed counts, and leaves nothing behind. The calls it makes, each on
        its object and blocked or not, are those of one of the pipeline's schedules, none of them is wasted, and
        within a round the accepts come first and the new streams last. */
    method Run() returns (ghost schedule: seq<Move>, ghost end: Ledger)
      requires Quiescent()
      modifies poll, stats, conns
      ensures Quiescent()
      ensures stats.metrics == Plus(old(stats.metrics), Expected(n))
      ensures stats.log == old(stats.log) + Calls(Init(n), schedule)
      ensures Counts(old(stats.metrics), stats.metrics, Calls(Init(n), schedule))
      ensures Complete(n, schedule, end, Calls(Init(n), schedule))
      ensures AcceptsFirst(Calls(Init(n), schedule)) && NewLast(Calls(Init(n), schedule))
    {
      hide State, Coupled, Inv, Recorded, ListenerInv, ConnInv, CallInv, OneARound, Served, Tabled, Tied, Looks;
      hide QueuedSlab.Slab.Valid, Init, Calls, Complete, Opened, Counts, AcceptsFirst, NewLast, InRounds, StageAfter;
      var q, a, b := Start();
      var finished := false;
      while !finished
        invariant State(q, a, b) && b.run.start == old(stats.Kept())
        invariant InRounds(true, ROUND_START, b.run.moves)
        invariant !finished ==> StageAfter(ROUND_START, b.run.moves) == ROUND_START
        invariant b.run.l.n == n && (!finished ==> b.run.l.m.poll <= n + 2)
        invariant finished ==> a.left == 0 && b.views == map[]
        invariant q.nodes == conns && fresh(q) && fresh(q.next)
        invariant forall k :: k in q.values ==> fresh(q.values[k]) && fresh(q.values[k].buf)
        decreases !finished, n + 2 - b.run.l.m.poll
      {
        ghost var keys, moves, queue, can := [], b.run.moves, q.queue, a.can;
        a, finished, b, keys := Round(q, a, b);
        RoundThen(moves, queue, keys, if can && a.left > 0 then [BlockMove] else [],
                  if finished then [] else [PollMove]);
      }
      schedule, end := End(q, a, b);
    }

    method Start() returns (q: Conns, a: Acceptor, ghost b: Books)
      requires Quiescent()
      modifies poll, stats
      ensures InRounds(true, ROUND_START, b.run.moves) && StageAfter(ROUND_START, b.run.moves) == ROUND_START
      ensures State(q, a, b) && b.run.start == old(stats.Kept()) && b.run.l.n == n && b.run.l.m.poll == 0
      ensures fresh(q) && fresh(q.next) && q.nodes == conns && q.values == map[]
    {
      hide Coupled;
      q := new QueuedSlab.Slab.Over(conns);
      var index := poll.Register(0, READABLE, LISTENER);
      CoupledStart(n, index, old(stats.Kept()));
      assert poll.items == map[index := Item(READABLE, 0)];
      a := Acceptor(FakeListener(Some(index), 0), n, true);
      b := Opened(n, old(stats.Kept()));
      OpensInRounds(OpenMove);
    }

    method Live(q: Conns, ghost a: Acceptor, ghost b: Books) returns (live: nat)
      requires State(q, a, b)
      ensures State(q, a, b) && live == |b.views|
    {
      hide Coupled;
      live := q.Len();
      assert q.values.Keys == b.views.Keys;
    }

    method End(q: Conns, a: Acceptor, ghost b: Books) returns (ghost schedule: seq<Move>, ghost end: Ledger)
      requires State(q, a, b) && a.left == 0 && b.views == map[] && b.run.l.n == n
      requires InRounds(true, ROUND_START, b.run.moves)
      modifies poll, stats
      ensures Quiescent() && stats.metrics == Plus(b.run.start.metrics, Expected(n))
      ensures stats.log == b.run.start.log + Calls(Init(n), schedule)
      ensures Counts(b.run.start.metrics, stats.metrics, Calls(Init(n), schedule))
      ensures Complete(n, schedule, end, Calls(Init(n), schedule))
      ensures AcceptsFirst(Calls(Init(n), schedule)) && NewLast(Calls(Init(n), schedule))
    {
      hide Coupled, Complete, Calls, AcceptsFirst, NewLast, InRounds;
      CoupledEnd(b, a, q.queue, poll.items, stats.Kept());
      schedule, end := b.run.moves + [CloseMove], CloseListener(b.run.l);
      assert conns.nodes.Keys == {};
      poll.Unregister(a.listener.pollIndex, LISTENER);
      NoteAllCounts(b.run.start, Calls(Init(n), schedule));
      FinishedIsComplete(n, schedule, end);
      ClosesInRounds(b.run.moves);
      RoundsAreOrdered(true, n, schedule, end);
    }

    /** `k` runs on one instance cost exactly `k` times as much as one. */
    method RunTimes(k: nat)
      requires Quiescent()
      modifies poll, stats, conns
      ensures Quiescent()
      ensures stats.metrics == Plus(old(stats.metrics), Times(k, Expected(n)))
    {
      for i := 0 to k
        invariant Quiescent() && stats.metrics == Plus(old(stats.metrics), Times(i, Expected(n)))
      {
        TimesStep(old(stats.metrics), i, Expected(n));
        var _, _ := Run();
      }
    }
  }
}
