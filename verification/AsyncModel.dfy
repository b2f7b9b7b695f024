/** The async server's futures, and how tasks, registrations, poll items and the ledger stand to each
    other between two polls and inside one (`listen` and `connection` in `src/run.rs` over
    `src/future.rs`). */
module AsyncModel {
  import opened Common
  import opened Scheduler
  import opened FakeIo
  import opened Echo
  import opened Pipeline
  import opened Reactor

  /** An async function between polls: `listen` before its first poll, `listen` at its accept,
      `connection` at its start, its read or its write. The registration key is the handle it owns. */
  datatype Fut =
    | Listen(left: nat)
    | Accepting(listener: FakeListener, reg: nat, left: nat)
    | Serving(stream: FakeStream, reg: nat, echo: Echo)

  datatype Shape = Shape(fut: Fut, awake: bool)

  type Shapes = map<nat, Shape>

  /** The tasks without their waker counts. */
  ghost function ShapesOf(s: Sched<Fut>): Shapes {
    map k | k in s.tasks :: Shape(s.tasks[k].fut, s.tasks[k].awake)
  }

  lemma ShapesRefs(a: Sched<Fut>, b: Sched<Fut>)
    requires SameButRefs(a, b)
    ensures ShapesOf(a) == ShapesOf(b)
  {
  }

  lemma ShapesKeys(s: Sched<Fut>)
    ensures ShapesOf(s).Keys == s.tasks.Keys && |ShapesOf(s)| == |s.tasks|
  {
  }

  lemma ShapesAt(s: Sched<Fut>, k: nat)
    requires k in s.tasks
    ensures k in ShapesOf(s) && ShapesOf(s)[k] == Shape(s.tasks[k].fut, s.tasks[k].awake)
  {
  }

  lemma ShapesFuture(s: Sched<Fut>, k: nat, f: Fut)
    requires k in s.tasks
    ensures ShapesOf(SetFuture(s, k, f)) == ShapesOf(s)[k := Shape(f, s.tasks[k].awake)]
  {
  }

  lemma ShapesSpawn(s: Sched<Fut>, k: nat, f: Fut)
    ensures ShapesOf(Spawn(s, k, f)) == ShapesOf(s)[k := Shape(f, true)]
  {
  }

  lemma ShapesBegin(s: Sched<Fut>)
    requires s.queue != [] && s.queue[0] in s.tasks
    ensures ShapesOf(Begin(s)) == ShapesOf(s)[s.queue[0] := Shape(s.tasks[s.queue[0]].fut, false)]
  {
  }

  lemma ShapesFinish(s: Sched<Fut>, k: nat)
    ensures ShapesOf(Finish(s, k)) == ShapesOf(s) - {k}
  {
  }

  function RegOf(f: Fut): Option<nat> {
    match f
    case Listen(_) => None
    case Accepting(_, reg, _) => Some(reg)
    case Serving(_, reg, _) => Some(reg)
  }

  function PollIndexOf(f: Fut): Option<nat> {
    match f
    case Listen(_) => None
    case Accepting(listener, _, _) => listener.pollIndex
    case Serving(stream, _, _) => stream.pollIndex
  }

  function InterestOf(f: Fut): bv8 {
    if f.Serving? then BOTH else READABLE
  }

  /** Registrations and poll items are in bijection with the tasks that own them. */
  ghost predicate Owned(shapes: Shapes, regs: Registrations, items: map<nat, Item>, owner: map<nat, nat>) {
    && owner.Keys == regs.Keys
    && (forall r :: r in owner ==> owner[r] in shapes && RegOf(shapes[owner[r]].fut) == Some(r))
    && (forall k :: k in shapes && RegOf(shapes[k].fut).Some? ==>
          && RegOf(shapes[k].fut).value in owner && owner[RegOf(shapes[k].fut).value] == k
          && PollIndexOf(shapes[k].fut).Some? && PollIndexOf(shapes[k].fut).value in items
          && items[PollIndexOf(shapes[k].fut).value] == Item(InterestOf(shapes[k].fut), RegOf(shapes[k].fut).value))
    && (forall i :: i in items ==>
          items[i].key in owner && PollIndexOf(shapes[owner[items[i].key]].fut) == Some(i))
  }

  /** No wake-up is lost: a task not being polled is either awake, with its registration ready and no waker
      bound, or asleep, with its registration not ready and holding its waker. */
  ghost predicate ParkedTask(k: nat, shape: Shape, regs: Registrations, busy: Option<nat>) {
    match RegOf(shape.fut)
    case None => shape.awake || busy == Some(k)
    case Some(r) =>
      r in regs &&
      if busy == Some(k) then regs[r].waker == None || regs[r].waker == Some(k)
      else regs[r] == if shape.awake then Registration(true, None) else Registration(false, Some(k))
  }

  ghost predicate Parked(shapes: Shapes, regs: Registrations, busy: Option<nat>) {
    forall k :: k in shapes ==> ParkedTask(k, shapes[k], regs, busy)
  }

  /** What the ledger says of one task. */
  ghost predicate TracksTask(k: nat, shape: Shape, l: Ledger, lk: nat, busy: Option<nat>) {
    match shape.fut
    case Listen(left) => k == lk && l.listener.Unopened? && left == l.left
    case Accepting(listener, _, left) =>
      && k == lk && l.listener.Open? && left == l.left && listener.calls == l.calls
      && if busy == Some(k) then l.ready else left > 0 && l.ready == shape.awake
    case Serving(stream, _, echo) =>
      && k in l.conns && (echo, stream.calls) == AtPhase(l.conns[k].phase) && stream.id == l.conns[k].id
      && if busy == Some(k) then k in l.todo else (shape.awake <==> k in l.todo)
  }

  ghost predicate Tracks(shapes: Shapes, l: Ledger, lk: nat, busy: Option<nat>) {
    && (forall k :: k in shapes ==> TracksTask(k, shapes[k], l, lk, busy))
    && (forall k :: k in l.conns ==> k in shapes && shapes[k].fut.Serving?)
    && (!l.listener.Closed? ==> lk in shapes && !shapes[lk].fut.Serving?)
  }

  // ----- the tables under one task's change

  lemma OwnedSame(shapes: Shapes, regs: Registrations, items: map<nat, Item>, owner: map<nat, nat>,
                  after: Shapes, regs': Registrations)
    requires Owned(shapes, regs, items, owner) && after.Keys == shapes.Keys && regs'.Keys == regs.Keys
    requires forall k :: k in shapes ==>
      && RegOf(after[k].fut) == RegOf(shapes[k].fut) && PollIndexOf(after[k].fut) == PollIndexOf(shapes[k].fut)
      && InterestOf(after[k].fut) == InterestOf(shapes[k].fut)
    ensures Owned(after, regs', items, owner)
  {
  }

  lemma OwnedAdd(shapes: Shapes, regs: Registrations, items: map<nat, Item>, owner: map<nat, nat>,
                 k: nat, shape: Shape, reg: Registration, r: nat, i: nat)
    requires Owned(shapes, regs, items, owner) && r !in regs && i !in items
    requires k in shapes ==> RegOf(shapes[k].fut) == None
    requires RegOf(shape.fut) == Some(r) && PollIndexOf(shape.fut) == Some(i)
    ensures Owned(shapes[k := shape], regs[r := reg], items[i := Item(InterestOf(shape.fut), r)], owner[r := k])
  {
  }

  lemma OwnedRemove(shapes: Shapes, regs: Registrations, items: map<nat, Item>, owner: map<nat, nat>,
                    k: nat, r: nat, i: nat)
    requires Owned(shapes, regs, items, owner) && k in shapes
    requires RegOf(shapes[k].fut) == Some(r) && PollIndexOf(shapes[k].fut) == Some(i)
    ensures r in regs && i in items
    ensures Owned(shapes - {k}, regs - {r}, items - {i}, owner - {r})
  {
  }

  lemma OwnedApart(shapes: Shapes, regs: Registrations, items: map<nat, Item>, owner: map<nat, nat>, k: nat, r: nat)
    requires Owned(shapes, regs, items, owner)
    requires r !in regs || (k in shapes && RegOf(shapes[k].fut) == Some(r))
    ensures forall j :: j in shapes && j != k ==> RegOf(shapes[j].fut) != Some(r)
    ensures k in shapes && RegOf(shapes[k].fut) == Some(r) ==>
      r in regs && PollIndexOf(shapes[k].fut).Some? && PollIndexOf(shapes[k].fut).value in items
  {
  }

  /** At most `k` starts or stops being the task in its poll. */
  ghost predicate BusyBut(busy: Option<nat>, busy': Option<nat>, k: nat) {
    busy == busy' || ((busy == None || busy == Some(k)) && (busy' == None || busy' == Some(k)))
  }

  lemma ParkedPut(shapes: Shapes, regs: Registrations, busy: Option<nat>,
                  k: nat, shape: Shape, r: nat, reg: Registration, busy': Option<nat>)
    requires Parked(shapes, regs, busy) && BusyBut(busy, busy', k)
    requires forall j :: j in shapes && j != k ==> RegOf(shapes[j].fut) != Some(r)
    requires ParkedTask(k, shape, regs[r := reg], busy')
    ensures Parked(shapes[k := shape], regs[r := reg], busy')
  {
  }

  lemma ParkedRemove(shapes: Shapes, regs: Registrations, k: nat, r: nat)
    requires Parked(shapes, regs, Some(k))
    requires forall j :: j in shapes && j != k ==> RegOf(shapes[j].fut) != Some(r)
    ensures Parked(shapes - {k}, regs - {r}, None)
  {
  }

  lemma ParkedShape(shapes: Shapes, regs: Registrations, busy: Option<nat>, k: nat, shape: Shape, busy': Option<nat>)
    requires Parked(shapes, regs, busy) && BusyBut(busy, busy', k)
    requires ParkedTask(k, shape, regs, busy')
    ensures Parked(shapes[k := shape], regs, busy')
  {
  }

  /** The two ledgers say the same of every task but `k`. */
  ghost predicate SameElsewhere(l: Ledger, l': Ledger, k: nat, lk: nat) {
    && (forall j :: j != k ==> (j in l.conns <==> j in l'.conns) && (j in l.todo <==> j in l'.todo))
    && (forall j :: j != k && j in l.conns && j in l'.conns ==> l.conns[j] == l'.conns[j])
    && (k != lk ==> l'.listener == l.listener && l'.left == l.left && l'.ready == l.ready && l'.calls == l.calls)
  }

  lemma TracksPut(shapes: Shapes, l: Ledger, lk: nat, busy: Option<nat>,
                  k: nat, shape: Shape, l': Ledger, busy': Option<nat>)
    requires Tracks(shapes, l, lk, busy) && BusyBut(busy, busy', k) && SameElsewhere(l, l', k, lk)
    requires TracksTask(k, shape, l', lk, busy')
    requires k in l'.conns ==> shape.fut.Serving?
    requires k == lk && !l'.listener.Closed? ==> !shape.fut.Serving?
    ensures Tracks(shapes[k := shape], l', lk, busy')
  {
  }

  lemma TracksRemove(shapes: Shapes, l: Ledger, lk: nat, k: nat, l': Ledger)
    requires Tracks(shapes, l, lk, Some(k)) && SameElsewhere(l, l', k, lk) && k !in l'.conns
    requires k == lk ==> l'.listener.Closed?
    ensures Tracks(shapes - {k}, l', lk, None)
  {
  }

  // ----- the invariant, and each step of the server on it

  /** The server at one moment; `owner` maps each registration to the task that owns it, and `lk` is the key that
      `listen` was given. */
  datatype World = World(shapes: Shapes, regs: Registrations, items: map<nat, Item>, owner: map<nat, nat>,
                         l: Ledger, lk: nat)

  /** Between two polls (`busy` is `None`) and inside the poll of one task. */
  ghost predicate AsyncInv(w: World, busy: Option<nat>) {
    && Inv(w.l)
    && Owned(w.shapes, w.regs, w.items, w.owner) && Parked(w.shapes, w.regs, busy) && Tracks(w.shapes, w.l, w.lk, busy)
  }

  lemma OfTask(w: World, busy: Option<nat>, k: nat)
    requires AsyncInv(w, busy) && k in w.shapes
    ensures ParkedTask(k, w.shapes[k], w.regs, busy) && TracksTask(k, w.shapes[k], w.l, w.lk, busy)
    ensures k in w.l.conns <==> w.shapes[k].fut.Serving?
    ensures k in w.l.conns ==> w.l.conns[k].phase <= 2
    ensures k == w.lk && w.shapes[k].fut.Serving? ==> w.l.listener.Closed?
    ensures var f := w.shapes[k].fut; RegOf(f).Some? ==>
      && RegOf(f).value in w.regs && PollIndexOf(f).Some? && PollIndexOf(f).value in w.items
      && w.items[PollIndexOf(f).value] == Item(InterestOf(f), RegOf(f).value)
  {
  }

  /** A task is taken off the queue for its poll. */
  lemma BeginStep(w: World, k: nat)
    requires AsyncInv(w, None) && k in w.shapes && w.shapes[k].awake
    ensures AsyncInv(w.(shapes := w.shapes[k := w.shapes[k].(awake := false)]), Some(k))
    ensures var f := w.shapes[k].fut; RegOf(f).Some? ==>
      && RegOf(f).value in w.regs && w.regs[RegOf(f).value] == Registration(true, None)
      && PollIndexOf(f).Some? && PollIndexOf(f).value in w.items
  {
    hide Inv, Owned, Parked, Tracks;
    OfTask(w, None, k);
    var World(shapes, regs, items, owner, l, lk) := w;
    var shape := shapes[k].(awake := false);
    OwnedSame(shapes, regs, items, owner, shapes[k := shape], regs);
    ParkedShape(shapes, regs, None, k, shape, Some(k));
    TracksPut(shapes, l, lk, None, k, shape, l, Some(k));
  }

  lemma ServeElsewhere(l: Ledger, k: nat, lk: nat)
    requires k in l.conns && l.conns[k].phase <= 2
    ensures var a := Serve(l, k);
      && SameElsewhere(l, a, k, lk) && a.listener == l.listener && k !in a.todo
      && a.n == l.n && a.left == l.left && a.m.poll == l.m.poll
      && (k in a.conns <==> l.conns[k].phase < 2)
      && (k in a.conns ==> a.conns[k] == l.conns[k].(phase := l.conns[k].phase + 1))
  {
  }

  /** A connection's poll ends `Pending`. */
  lemma PendingStep(w: World, k: nat, f: Fut)
    requires AsyncInv(w, Some(k)) && k in w.shapes && w.shapes[k].fut.Serving? && f.Serving? && !w.shapes[k].awake
    requires f.reg == w.shapes[k].fut.reg && f.stream == w.shapes[k].fut.stream.(calls := f.stream.calls)
    requires k in w.l.conns && w.l.conns[k].phase < 2 && (f.echo, f.stream.calls) == AtPhase(w.l.conns[k].phase + 1)
    ensures AsyncInv(w.(shapes := w.shapes[k := Shape(f, false)], regs := w.regs[f.reg := Registration(false, Some(k))],
                        l := Serve(w.l, k)), None)
  {
    hide Inv, Owned, Parked, Tracks, AtPhase;
    OfTask(w, Some(k), k);
    var World(shapes, regs, items, owner, l, lk) := w;
    var shape, reg := Shape(f, false), Registration(false, Some(k));
    ServeInv(l, k);
    ServeElsewhere(l, k, lk);
    hide Serve, SameElsewhere;
    OwnedApart(shapes, regs, items, owner, k, f.reg);
    OwnedSame(shapes, regs, items, owner, shapes[k := shape], regs[f.reg := reg]);
    ParkedPut(shapes, regs, Some(k), k, shape, f.reg, reg, None);
    TracksPut(shapes, l, lk, Some(k), k, shape, Serve(l, k), None);
  }

  /** Everything that belongs to task `k` is gone. */
  ghost function Rid(w: World, k: nat, reg: nat, index: nat, l: Ledger): World {
    World(w.shapes - {k}, w.regs - {reg}, w.items - {index}, w.owner - {reg}, l, w.lk)
  }

  /** A connection's poll ends `Ready`: its stream is unregistered and its task will be freed. */
  lemma DoneStep(w: World, k: nat)
    requires AsyncInv(w, Some(k)) && k in w.shapes && w.shapes[k].fut.Serving?
    requires k in w.l.conns && w.l.conns[k].phase == 2
    ensures var f := w.shapes[k].fut;
      f.stream.pollIndex.Some? && AsyncInv(Rid(w, k, f.reg, f.stream.pollIndex.value, Serve(w.l, k)), None)
  {
    hide Inv, Owned, Parked, Tracks, AtPhase;
    OfTask(w, Some(k), k);
    var World(shapes, regs, items, owner, l, lk) := w;
    var f := shapes[k].fut;
    ServeInv(l, k);
    ServeElsewhere(l, k, lk);
    hide Serve, SameElsewhere;
    OwnedApart(shapes, regs, items, owner, k, f.reg);
    OwnedRemove(shapes, regs, items, owner, k, f.reg, f.stream.pollIndex.value);
    ParkedRemove(shapes, regs, k, f.reg);
    TracksRemove(shapes, l, lk, k, Serve(l, k));
  }

  /** The first poll of `listen` registers the listener. */
  lemma OpenStep(w: World, k: nat, r: nat, i: nat)
    requires AsyncInv(w, Some(k)) && k in w.shapes && w.shapes[k].fut.Listen? && r !in w.regs && i !in w.items
    ensures AsyncInv(
      World(w.shapes[k := w.shapes[k].(fut := Accepting(FakeListener(Some(i), 0), r, w.shapes[k].fut.left))],
            w.regs[r := Registration(true, None)], w.items[i := Item(READABLE, r)], w.owner[r := k],
            OpenListener(w.l), w.lk), Some(k))
    ensures CanOpen(w.l)
  {
    hide Inv, Owned, Parked, Tracks;
    OfTask(w, Some(k), k);
    var World(shapes, regs, items, owner, l, lk) := w;
    UnopenedCalls(l);
    var shape := shapes[k].(fut := Accepting(FakeListener(Some(i), 0), r, shapes[k].fut.left));
    OpenListenerInv(l);
    OwnedApart(shapes, regs, items, owner, k, r);
    OwnedAdd(shapes, regs, items, owner, k, shape, Registration(true, None), r, i);
    ParkedPut(shapes, regs, Some(k), k, shape, r, Registration(true, None), Some(k));
    TracksPut(shapes, l, lk, Some(k), k, shape, OpenListener(l), Some(k));
  }

  lemma UnopenedCalls(l: Ledger)
    requires Inv(l) && l.listener.Unopened?
    ensures l.calls == 0
  {
  }

  /** `listen` is left waiting at its accept. */
  lemma BlockStep(w: World, k: nat)
    requires AsyncInv(w, Some(k)) && k in w.shapes && w.shapes[k].fut.Accepting? && !w.shapes[k].awake
    requires w.shapes[k].fut.left > 0 && Blocks(w.shapes[k].fut.listener.calls + 1)
    ensures var f := w.shapes[k].fut;
      AsyncInv(w.(shapes := w.shapes[k := Shape(f.(listener := f.listener.(calls := f.listener.calls + 1)), false)],
                  regs := w.regs[f.reg := Registration(false, Some(k))], l := AcceptBlocks(w.l)), None)
    ensures CanAccept(w.l) && Blocks(w.l.calls + 1)
  {
    hide Inv, Owned, Parked, Tracks;
    OfTask(w, Some(k), k);
    var World(shapes, regs, items, owner, l, lk) := w;
    var f := shapes[k].fut;
    var shape := Shape(f.(listener := f.listener.(calls := f.listener.calls + 1)), false);
    var reg := Registration(false, Some(k));
    AcceptBlocksInv(l);
    OwnedApart(shapes, regs, items, owner, k, f.reg);
    OwnedSame(shapes, regs, items, owner, shapes[k := shape], regs[f.reg := reg]);
    ParkedPut(shapes, regs, Some(k), k, shape, f.reg, reg, None);
    TracksPut(shapes, l, lk, Some(k), k, shape, AcceptBlocks(l), None);
  }

  /** `listen` drops its listener and completes. */
  lemma CloseStep(w: World, k: nat)
    requires AsyncInv(w, Some(k)) && k in w.shapes && w.shapes[k].fut.Accepting? && w.shapes[k].fut.left == 0
    ensures var f := w.shapes[k].fut;
      f.listener.pollIndex.Some? && AsyncInv(Rid(w, k, f.reg, f.listener.pollIndex.value, CloseListener(w.l)), None)
  {
    hide Inv, Owned, Parked, Tracks;
    OfTask(w, Some(k), k);
    var World(shapes, regs, items, owner, l, lk) := w;
    var f := shapes[k].fut;
    CloseListenerInv(l);
    OwnedApart(shapes, regs, items, owner, k, f.reg);
    OwnedRemove(shapes, regs, items, owner, k, f.reg, f.listener.pollIndex.value);
    ParkedRemove(shapes, regs, k, f.reg);
    TracksRemove(shapes, l, lk, k, CloseListener(l));
  }

  /** Task `c` serves a stream that task `k` accepted, registered under `r` and at index `i`. */
  ghost function Joined(w: World, k: nat, c: nat, r: nat, i: nat): World
    requires k in w.shapes && w.shapes[k].fut.Accepting? && w.shapes[k].fut.left > 0 && w.l.left > 0
  {
    var f := w.shapes[k].fut;
    var mine := w.shapes[k].(fut := Accepting(f.listener.(calls := f.listener.calls + 1), f.reg, f.left - 1));
    var yours := Shape(Serving(FakeStream(f.listener.calls + 1, Some(i), 0), r, START), true);
    World(w.shapes[k := mine][c := yours], w.regs[r := Registration(true, None)], w.items[i := Item(BOTH, r)],
          w.owner[r := c], AcceptConn(w.l, c), w.lk)
  }

  /** `listen` accepts a stream, which is registered and given a task of its own. */
  lemma SpawnStep(w: World, k: nat, c: nat, r: nat, i: nat)
    requires AsyncInv(w, Some(k)) && k in w.shapes && w.shapes[k].fut.Accepting? && w.l.left > 0
    requires w.shapes[k].fut.left > 0 && !Blocks(w.shapes[k].fut.listener.calls + 1)
    requires c !in w.shapes && r !in w.regs && i !in w.items
    ensures AsyncInv(Joined(w, k, c, r, i), Some(k))
    ensures CanAccept(w.l) && !Blocks(w.l.calls + 1) && c !in w.l.conns && w.l.calls == w.shapes[k].fut.listener.calls
    ensures var l, a := w.l, AcceptConn(w.l, c);
      a.n == l.n && a.left == l.left - 1 && a.m == Count(Count(l.m, Accept), Register) && a.m.poll == l.m.poll
  {
    hide Inv, Owned, Parked, Tracks;
    OfTask(w, Some(k), k);
    var World(shapes, regs, items, owner, l, lk) := w;
    var f := shapes[k].fut;
    var mine := shapes[k].(fut := Accepting(f.listener.(calls := f.listener.calls + 1), f.reg, f.left - 1));
    var yours := Shape(Serving(FakeStream(f.listener.calls + 1, Some(i), 0), r, START), true);
    var mid := shapes[k := mine];
    NotAConn(shapes, l, lk, Some(k), c);
    AcceptConnInv(l, c);
    OwnedSame(shapes, regs, items, owner, mid, regs);
    OwnedApart(mid, regs, items, owner, c, r);
    OwnedAdd(mid, regs, items, owner, c, yours, Registration(true, None), r, i);
    ParkedShape(shapes, regs, Some(k), k, mine, Some(k));
    ParkedPut(mid, regs, Some(k), c, yours, r, Registration(true, None), Some(k));
    var left := l.(left := l.left - 1, calls := l.calls + 1);
    TracksPut(shapes, l, lk, Some(k), k, mine, left, Some(k));
    TracksPut(mid, left, lk, Some(k), c, yours, AcceptConn(l, c), Some(k));
  }

  lemma NotAConn(shapes: Shapes, l: Ledger, lk: nat, busy: Option<nat>, c: nat)
    requires Tracks(shapes, l, lk, busy) && c !in shapes
    ensures c !in l.conns
    ensures c == lk ==> l.listener.Closed?
  {
  }

  /** The first task of a run. */
  lemma StartStep(n: nat, k: nat)
    ensures AsyncInv(World(map[k := Shape(Listen(n), true)], map[], map[], map[], Init(n), k), None)
  {
    InitInv(n);
  }

  /** A task that owns nothing any more has no waker bound anywhere. */
  lemma NobodyHolds(w: World, k: nat)
    requires AsyncInv(w, None) && k !in w.shapes
    ensures forall r :: r in w.regs ==> w.regs[r].waker != Some(k)
  {
    hide Inv, Tracks;
    forall r | r in w.regs
      ensures w.regs[r].waker != Some(k)
    {
      assert ParkedTask(w.owner[r], w.shapes[w.owner[r]], w.regs, None);
    }
  }

  // ----- parking

  ghost predicate AllAsleep(shapes: Shapes) {
    forall k :: k in shapes ==> !shapes[k].awake
  }

  /** When the server parks, each live task has exactly one registration that holds its waker; it is not ready and
      has a live poll item, so the next reactor poll will wake the task. */
  lemma ParkedIsArmed(w: World, k: nat)
    requires AsyncInv(w, None) && AllAsleep(w.shapes) && k in w.shapes
    ensures RegOf(w.shapes[k].fut).Some?
    ensures var r := RegOf(w.shapes[k].fut).value;
      && Holders(w.regs, k) == {r} && !w.regs[r].ready
      && exists i :: i in w.items && w.items[i].key == r
  {
    hide Inv, TracksTask;
    var World(shapes, regs, items, owner, l, lk) := w;
    assert ParkedTask(k, shapes[k], regs, None);
    var r := RegOf(shapes[k].fut).value;
    assert items[PollIndexOf(shapes[k].fut).value].key == r;
    forall q | q in regs && regs[q].waker == Some(k)
      ensures q == r
    {
      assert ParkedTask(owner[q], shapes[owner[q]], regs, None);
    }
  }

  /** Parked with work left: nothing is owed a call, and the ledger allows the poll. */
  lemma ParkedCanPoll(shapes: Shapes, l: Ledger, lk: nat, regs: Registrations)
    requires Tracks(shapes, l, lk, None) && Parked(shapes, regs, None) && AllAsleep(shapes) && shapes != map[]
    requires l.todo <= l.conns.Keys && (l.listener.Closed? ==> l.left == 0)
    ensures CanPoll(l)
  {
  }

  lemma TodoLive(l: Ledger)
    requires Inv(l)
    ensures l.todo <= l.conns.Keys && (l.listener.Closed? ==> l.left == 0)
  {
  }

  /** The keys the poll table reports. */
  ghost function Reported(items: map<nat, Item>): set<nat> {
    set i | i in items :: items[i].key
  }

  /** Registrations and poll items are in bijection through the stored key, and each item's registration belongs to
      a live task: an event never names a vacant slot or another object's. */
  lemma ItemsMatchRegistrations(w: World, busy: Option<nat>)
    requires AsyncInv(w, busy)
    ensures Reported(w.items) == w.regs.Keys
    ensures forall i, j :: i in w.items && j in w.items && w.items[i].key == w.items[j].key ==> i == j
    ensures forall i :: i in w.items ==>
      exists k :: k in w.shapes && RegOf(w.shapes[k].fut) == Some(w.items[i].key) &&
        PollIndexOf(w.shapes[k].fut) == Some(i)
  {
    hide Inv, Tracks, Parked;
    AllSeen(w.shapes, w.regs, w.items, w.owner);
    forall i | i in w.items
      ensures exists k ::
        k in w.shapes && RegOf(w.shapes[k].fut) == Some(w.items[i].key) && PollIndexOf(w.shapes[k].fut) == Some(i)
    {
      assert w.owner[w.items[i].key] in w.shapes;
    }
  }

  /** Every registration has a poll item. */
  lemma AllSeen(shapes: Shapes, regs: Registrations, items: map<nat, Item>, owner: map<nat, nat>)
    requires Owned(shapes, regs, items, owner)
    ensures Reported(items) == regs.Keys
  {
    forall r | r in regs
      ensures r in Reported(items)
    {
      assert items[PollIndexOf(shapes[owner[r]].fut).value].key == r;
    }
  }

  lemma AsleepIsBound(shapes: Shapes, regs: Registrations, k: nat) returns (r: nat)
    requires Parked(shapes, regs, None) && k in shapes && !shapes[k].awake
    ensures r in regs && regs[r].waker == Some(k)
  {
    assert ParkedTask(k, shapes[k], regs, None);
    r := RegOf(shapes[k].fut).value;
  }

  /** A reactor poll makes every registration ready and wakes every task. */
  lemma AllWoken(a: Sched<Fut>, w: World, b: Sched<Fut>, regs: Registrations)
    requires AsyncInv(w, None) && w.shapes == ShapesOf(a) && AllAsleep(w.shapes)
    requires Swept(a, w.regs, Reported(w.items), b, regs)
    ensures regs.Keys == w.regs.Keys && forall r :: r in regs ==> regs[r] == Registration(true, None)
    ensures ShapesOf(b).Keys == w.shapes.Keys && b.tasks.Keys == a.tasks.Keys
    ensures forall k :: k in b.tasks ==> ShapesOf(b)[k] == Shape(w.shapes[k].fut, true)
  {
    hide Inv, Tracks, Parked, Owned;
    AllSeen(w.shapes, w.regs, w.items, w.owner);
    forall k | k in b.tasks
      ensures b.tasks[k].awake
    {
      var r := AsleepIsBound(w.shapes, w.regs, k);
      assert r in Reported(w.items);
    }
  }

  lemma PollStep(w: World, after: Shapes, regs: Registrations)
    requires AsyncInv(w, None) && AllAsleep(w.shapes) && w.shapes != map[]
    requires regs.Keys == w.regs.Keys && forall r :: r in regs ==> regs[r] == Registration(true, None)
    requires after.Keys == w.shapes.Keys && forall k :: k in after ==> after[k] == Shape(w.shapes[k].fut, true)
    ensures AsyncInv(w.(shapes := after, regs := regs, l := PollAll(w.l)), None)
    ensures CanPoll(w.l) && PollAll(w.l).m.poll == w.l.m.poll + 1 <= w.l.n + 2
  {
    hide Inv, ParkedTask, TracksTask, Tracks, Parked, Owned;
    var World(shapes, was, items, owner, l, lk) := w;
    TodoLive(l);
    ParkedCanPoll(shapes, l, lk, was);
    PollAllInv(l);
    RoundBound(PollAll(l));
    OwnedSame(shapes, was, items, owner, after, regs);
    AllParked(shapes, was, after, regs);
    AllTracked(shapes, was, l, lk, after);
  }

  lemma RoundBound(l: Ledger)
    requires Inv(l)
    ensures l.m.poll <= l.n + 2
  {
  }

  lemma AllParked(shapes: Shapes, was: Registrations, after: Shapes, regs: Registrations)
    requires Parked(shapes, was, None)
    requires regs.Keys == was.Keys && forall r :: r in regs ==> regs[r] == Registration(true, None)
    requires after.Keys == shapes.Keys && forall k :: k in after ==> after[k] == Shape(shapes[k].fut, true)
    ensures Parked(after, regs, None)
  {
  }

  lemma AllTracked(shapes: Shapes, was: Registrations, l: Ledger, lk: nat, after: Shapes)
    requires Tracks(shapes, l, lk, None) && Parked(shapes, was, None) && AllAsleep(shapes)
    requires after.Keys == shapes.Keys && forall k :: k in after ==> after[k] == Shape(shapes[k].fut, true)
    ensures Tracks(after, PollAll(l), lk, None)
  {
  }

  // ----- bounds and the end

  lemma {:induction false} InjectiveSize(owner: map<nat, nat>, range: set<nat>)
    requires forall r :: r in owner ==> owner[r] in range
    requires forall q, r :: q in owner && r in owner && q != r ==> owner[q] != owner[r]
    ensures |owner| <= |range|
    decreases |owner|
  {
    if r :| r in owner {
      var rest := owner - {r};
      assert owner.Keys == rest.Keys + {r};
      InjectiveSize(rest, range - {owner[r]});
    }
  }

  /** Never more than four tasks, nor four registrations, nor more than the capacity `n + 1` allows; and while a
      connection is still to be accepted there is room for it. */
  lemma FewTasks(w: World, busy: Option<nat>)
    requires AsyncInv(w, busy)
    ensures |w.shapes| <= 4 && |w.shapes| <= w.l.n + 1 && |w.regs| <= |w.shapes|
    ensures w.l.left > 0 ==> |w.shapes| <= w.l.n
    ensures w.l.listener.Unopened? ==> w.regs == map[]
  {
    hide Inv, ParkedTask;
    var World(shapes, regs, items, owner, l, lk) := w;
    FewConnections(l);
    InjectiveSize(owner, shapes.Keys);
    assert |regs.Keys| == |owner.Keys|;
    forall k | k in shapes
      ensures k in l.conns.Keys + {lk} && (l.listener.Unopened? && l.conns == map[] ==> RegOf(shapes[k].fut) == None)
    {
      assert TracksTask(k, shapes[k], l, lk, busy);
    }
    SubsetSize(shapes.Keys, l.conns.Keys + {lk});
    if l.listener.Unopened? {
      UnopenedEmpty(l);
      assert owner.Keys == {};
    }
  }

  lemma UnopenedEmpty(l: Ledger)
    requires Inv(l) && l.listener.Unopened?
    ensures l.conns == map[]
  {
  }

  /** No task is left: the run is complete and nothing remains in any table. */
  lemma EndStep(w: World)
    requires AsyncInv(w, None) && w.shapes == map[]
    ensures w.regs == map[] && w.items == map[]
    ensures w.l.m == Expected(w.l.n) && Finished(w.l)
  {
  }
}
