/** The async server: the futures of `src/future.rs`, `listen` and `connection` of `src/run.rs`, and
    the executor's main loop, over any of the three executors. */
module AsyncServer {
  import opened Common
  import opened Scheduler
  import opened FakeIo
  import opened Echo
  import opened Pipeline
  import opened PipelineRuns
  import opened ObjectCalls
  import opened RoundOrder
  import opened Reactor
  import opened AsyncModel
  import opened TaskLog
  import Executors

  datatype PollResult<+T> = Pending | Ready(value: T)

  /** The run so far, the owners of the registrations, and the key of `listen`. */
  datatype Books = Books(run: Trail, owner: map<nat, nat>, lk: nat)

  /** No poll was made from `a` to `b`. */
  ghost predicate SamePoll(a: Books, b: Books) {
    a.run.l.n == b.run.l.n && a.run.start == b.run.start && a.run.l.m.poll == b.run.l.m.poll
  }

  class Server {
    const n: nat
    const size: nat
    const stats: Stats
    const tasks: Executors.Tasks<Fut>
    const reactor: FakeReactor

    constructor (kind: Executors.Kind, n: nat, size: nat, stats: Stats)
      requires size >= |REQUEST|
      ensures this.n == n && this.size == size && this.stats == stats && Quiescent()
      ensures tasks.table.ArgTable? <==> kind.NonBox?
      ensures tasks.table.BxTable? <==> kind.Box?
      ensures tasks.table.BoxRcTable? <==> kind.BoxRc?
      ensures fresh(tasks) && fresh(tasks.parts)
      ensures fresh(reactor) && fresh(reactor.poll)
    {
      this.n, this.size, this.stats := n, size, stats;
      tasks := new Executors.Tasks(kind, n + 1);
      reactor := new FakeReactor(n + 1, stats);
    }

    /** Between runs every table is empty. */
    ghost predicate Quiescent()
      reads tasks, tasks.parts, reactor, reactor.poll
    {
      && Wired() && tasks.Valid() && tasks.model.tasks == map[]
      && reactor.registrations == map[] && reactor.poll.items == map[]
    }

    /** Buffers hold a request, and task and registration tables have room for the listener and every connection. */
    ghost predicate Wired() {
      && size >= |REQUEST| && reactor.poll.stats == stats
      && tasks.capacity == n + 1 && reactor.capacity == n + 1 && reactor.Apart(tasks)
    }

    /** The waker counts are exact. */
    ghost predicate Sane()
      reads tasks, tasks.parts, reactor
    {
      Wired() && tasks.Valid() && Counted(tasks.model, reactor.registrations)
    }

    // ----- the I/O futures

    /** `ReadFuture::poll`: binds the task's waker, and makes no call while the registration is not ready. */
    method ReadFuture(k: nat, reg: nat, stream: FakeStream, room: nat) returns (s: FakeStream, r: PollResult<seq<byte>>)
      requires Sane() && k in tasks.model.tasks && reg in reactor.registrations
      requires reactor.registrations[reg].ready && !Blocks(stream.calls + 1) ==> |REQUEST| <= room
      modifies tasks, tasks.parts, reactor, stats
      ensures Sane() && SameButRefs(old(tasks.model), tasks.model)
      ensures !old(reactor.registrations)[reg].ready ==>
        r.Pending? && s == stream && stats.Kept() == old(stats.Kept())
      ensures old(reactor.registrations)[reg].ready ==>
        && s == stream.(calls := stream.calls + 1)
        && stats.Kept() == Note(old(stats.Kept()), ReadCall(stream.id, Blocks(s.calls)))
        && r == if Blocks(s.calls) then Pending else Ready(REQUEST)
      ensures reactor.registrations == old(reactor.registrations)[reg := Registration(r.Ready?, Some(k))]
    {
      hide Executors.Tasks.Valid, Logged, Counted, SameButRefs;
      reactor.BindWaker(tasks, reg, k);
      s := stream;
      if !reactor.registrations[reg].ready {
        return s, Pending;
      }
      var io;
      s, io := stream.Read(stats, room);
      if io.WouldBlock? {
        CountedReady(tasks.model, reactor.registrations, reg, false);
        reactor.SetReady(reg, false);
        r := Pending;
      } else {
        r := Ready(io.value);
      }
    }

    /** `WriteFuture::poll`, with the bytes it is to write. */
    method WriteFuture(k: nat, reg: nat, stream: FakeStream, data: seq<byte>)
      returns (s: FakeStream, r: PollResult<nat>)
      requires Sane() && k in tasks.model.tasks && reg in reactor.registrations
      modifies tasks, tasks.parts, reactor, stats
      ensures Sane() && SameButRefs(old(tasks.model), tasks.model)
      ensures !old(reactor.registrations)[reg].ready ==>
        r.Pending? && s == stream && stats.Kept() == old(stats.Kept())
      ensures old(reactor.registrations)[reg].ready ==>
        && s == stream.(calls := stream.calls + 1)
        && stats.Kept() == Note(old(stats.Kept()), WriteCall(stream.id, data, Blocks(s.calls)))
        && r == if Blocks(s.calls) then Pending else Ready(|data|)
      ensures reactor.registrations == old(reactor.registrations)[reg := Registration(r.Ready?, Some(k))]
    {
      hide Executors.Tasks.Valid, Logged, Counted, SameButRefs;
      reactor.BindWaker(tasks, reg, k);
      s := stream;
      if !reactor.registrations[reg].ready {
        return s, Pending;
      }
      var io;
      s, io := stream.Write(stats, data);
      if io.WouldBlock? {
        CountedReady(tasks.model, reactor.registrations, reg, false);
        reactor.SetReady(reg, false);
        r := Pending;
      } else {
        r := Ready(io.value);
      }
    }

    /** `AcceptFuture::poll`; an accepted stream is registered, and marked ready, at once. */
    method AcceptFuture(k: nat, reg: nat, listener: FakeListener)
      returns (l: FakeListener, r: PollResult<(FakeStream, nat)>)
      requires Sane() && k in tasks.model.tasks && reg in reactor.registrations
      requires reactor.registrations[reg].ready && !Blocks(listener.calls + 1) ==>
        |reactor.registrations| < reactor.capacity
      modifies tasks, tasks.parts, reactor, reactor.poll, stats
      ensures Sane() && SameButRefs(old(tasks.model), tasks.model)
      ensures !old(reactor.registrations)[reg].ready ==>
        r.Pending? && l == listener && stats.Kept() == old(stats.Kept())
      ensures old(reactor.registrations)[reg].ready ==>
        && l == listener.(calls := listener.calls + 1) && (r.Pending? <==> Blocks(l.calls))
        && var called := Note(old(stats.Kept()), AcceptCall(r.Pending?));
           stats.Kept() == if r.Pending? then called else Note(called, RegisterCall(l.calls))
      ensures var bound := old(reactor.registrations)[reg := Registration(r.Ready?, Some(k))];
        if r.Pending? then reactor.registrations == bound && reactor.poll.items == old(reactor.poll.items)
        else
          var (stream, key) := r.value;
          && stream.id == l.calls && stream.calls == 0 && stream.pollIndex.Some?
          && stream.pollIndex.value !in old(reactor.poll.items)
          && key !in old(reactor.registrations) && reactor.registrations == bound[key := Registration(true, None)]
          && reactor.poll.items == old(reactor.poll.items)[stream.pollIndex.value := Item(BOTH, key)]
    {
      hide Executors.Tasks.Valid, Logged, Counted, SameButRefs;
      reactor.BindWaker(tasks, reg, k);
      SizeKept(old(reactor.registrations), reg, reactor.registrations[reg]);
      l := listener;
      if !reactor.registrations[reg].ready {
        return l, Pending;
      }
      var io;
      l, io := listener.Accept(stats);
      if io.WouldBlock? {
        CountedReady(tasks.model, reactor.registrations, reg, false);
        reactor.SetReady(reg, false);
        r := Pending;
      } else {
        var index, key := NewHandle(BOTH, io.value.id);
        r := Ready((io.value.(pollIndex := Some(index)), key));
      }
    }

    lemma SizeKept(regs: Registrations, r: nat, reg: Registration)
      requires r in regs
      ensures |regs[r := reg]| == |regs|
    {
    }

    /** `AsyncFakeStream::new` and `AsyncFakeListener::new`: the registration, which is unwrapped, is never refused,
        and starts out ready. */
    method NewHandle(interest: bv8, ghost id: nat) returns (index: nat, key: nat)
      requires Sane() && |reactor.registrations| < reactor.capacity
      modifies reactor, reactor.poll, stats
      ensures Sane() && stats.Kept() == Note(old(stats.Kept()), RegisterCall(id))
      ensures index !in old(reactor.poll.items) && key !in old(reactor.registrations)
      ensures reactor.registrations == old(reactor.registrations)[key := Registration(true, None)]
      ensures reactor.poll.items == old(reactor.poll.items)[index := Item(interest, key)]
    {
      hide Counted;
      var entry := reactor.Register(interest, id);
      key, index := entry.value.0, entry.value.1;
      CountedPut(tasks.model, tasks.model, old(reactor.registrations), key, Registration(true, None));
      reactor.SetReady(key, true);
      assert reactor.registrations == old(reactor.registrations)[key := Registration(true, None)];
    }

    // ----- connection

    /** What `connection` needs of its own registration and state. */
    ghost predicate CanServe(k: nat, stream: FakeStream, reg: nat, echo: Echo)
      reads tasks, reactor, reactor.poll
    {
      && k in tasks.model.tasks && reg in reactor.registrations
      && reactor.registrations[reg] == Registration(true, None)
      && stream.pollIndex.Some? && stream.pollIndex.value in reactor.poll.items
      && Sound(echo, size) && !Done(echo) && (!echo.sending ==> |echo.received| + |REQUEST| <= size)
    }

    /** One await of a read: a completed future is dropped, which unbinds the waker. */
    method AwaitRead(k: nat, stream: FakeStream, reg: nat, echo: Echo) returns (blocked: bool, s: FakeStream, e: Echo)
      requires Sane() && CanServe(k, stream, reg, echo) && !echo.sending
      modifies tasks, tasks.parts, reactor, stats
      ensures Sane() && SameButRefs(old(tasks.model), tasks.model)
      ensures s == stream.(calls := stream.calls + 1)
      ensures stats.Kept() == Note(old(stats.Kept()), ReadCall(stream.id, Blocks(s.calls)))
      ensures blocked <==> Blocks(s.calls)
      ensures e == if blocked then echo else Step(echo, Got(REQUEST))
      ensures reactor.registrations == if blocked then old(reactor.registrations)[reg := Registration(false, Some(k))]
                                       else old(reactor.registrations)
      ensures !blocked ==> CanServe(k, s, reg, e) && e.sending
    {
      hide Executors.Tasks.Valid, Logged, Counted;
      var r;
      s, r := ReadFuture(k, reg, stream, size - |echo.received|);
      blocked, e := r.Pending?, echo;
      if !blocked {
        reactor.UnbindWaker(tasks, reg);
        assert reactor.registrations == old(reactor.registrations);
        StepSound(echo, Got(REQUEST), size);
        RequestEndsInput(echo.received);
        e := Step(echo, Got(r.value));
      }
    }

    method AwaitWrite(k: nat, stream: FakeStream, reg: nat, echo: Echo) returns (blocked: bool, s: FakeStream, e: Echo)
      requires Sane() && CanServe(k, stream, reg, echo) && echo.sending
      modifies tasks, tasks.parts, reactor, stats
      ensures Sane() && SameButRefs(old(tasks.model), tasks.model)
      ensures s == stream.(calls := stream.calls + 1)
      ensures stats.Kept() == Note(old(stats.Kept()), WriteCall(stream.id, Unsent(echo), Blocks(s.calls)))
      ensures blocked <==> Blocks(s.calls)
      ensures e == if blocked then echo else Step(echo, Took(|echo.received| - echo.sent))
      ensures reactor.registrations == if blocked then old(reactor.registrations)[reg := Registration(false, Some(k))]
                                       else old(reactor.registrations)
      ensures !blocked ==> Done(e)
    {
      hide Executors.Tasks.Valid, Logged, Counted;
      var r;
      s, r := WriteFuture(k, reg, stream, echo.received[echo.sent..]);
      blocked, e := r.Pending?, echo;
      if !blocked {
        reactor.UnbindWaker(tasks, reg);
        assert reactor.registrations == old(reactor.registrations);
        e := Step(echo, Took(r.value));
      }
    }

    /** `connection`, resumed at whichever await it had reached. */
    method PollConnection(k: nat, f: Fut) returns (done: bool)
      requires Sane() && f.Serving? && CanServe(k, f.stream, f.reg, f.echo)
      modifies tasks, tasks.parts, reactor, reactor.poll, stats
      ensures Sane()
      ensures var (echo, stream, tape) := Outcome(f.echo, f.stream, old(stats.Kept()));
        && done == Done(echo)
        && if done then
             && SameButRefs(old(tasks.model), tasks.model)
             && reactor.registrations == old(reactor.registrations) - {f.reg}
             && reactor.poll.items == old(reactor.poll.items) - {f.stream.pollIndex.value}
             && stats.Kept() == Note(tape, UnregisterCall(f.stream.id))
           else
             && SameButRefs(SetFuture(old(tasks.model), k, Serving(stream, f.reg, echo)), tasks.model)
             && reactor.registrations == old(reactor.registrations)[f.reg := Registration(false, Some(k))]
             && reactor.poll.items == old(reactor.poll.items) && stats.Kept() == tape
    {
      hide Executors.Tasks.Valid, Logged, Counted, SameButRefs, Sound, Step, Outcome;
      var blocked, stream, reg, echo := false, f.stream, f.reg, f.echo;
      SameButRefsSelf(tasks.model);
      while !echo.sending
        invariant Sane() && CanServe(k, stream, reg, echo)
        invariant SameButRefs(old(tasks.model), tasks.model) && reactor.registrations == old(reactor.registrations)
        invariant Outcome(echo, stream, stats.Kept()) == Outcome(f.echo, f.stream, old(stats.Kept()))
        invariant stream == f.stream.(calls := stream.calls) && reactor.poll.items == old(reactor.poll.items)
        decreases if echo.sending then 0 else 1
      {
        ghost var mid := tasks.model;
        OutcomeRead(echo, stream, stats.Kept());
        blocked, stream, echo := AwaitRead(k, stream, reg, echo);
        SameButRefsTrans(old(tasks.model), mid, tasks.model);
        if blocked {
          Suspend(k, Serving(stream, reg, echo), old(tasks.model));
          return false;
        }
      }
      while echo.sent < |echo.received|
        invariant Sane() && echo.sending && (!Done(echo) ==> CanServe(k, stream, reg, echo))
        invariant SameButRefs(old(tasks.model), tasks.model) && reactor.registrations == old(reactor.registrations)
        invariant Outcome(echo, stream, stats.Kept()) == Outcome(f.echo, f.stream, old(stats.Kept()))
        invariant stream == f.stream.(calls := stream.calls) && reactor.poll.items == old(reactor.poll.items)
        decreases !Done(echo)
      {
        ghost var mid := tasks.model;
        OutcomeWrite(echo, stream, stats.Kept());
        blocked, stream, echo := AwaitWrite(k, stream, reg, echo);
        SameButRefsTrans(old(tasks.model), mid, tasks.model);
        if blocked {
          Suspend(k, Serving(stream, reg, echo), old(tasks.model));
          return false;
        }
        OutcomeDone(echo, stream, stats.Kept());
      }
      OutcomeDone(echo, stream, stats.Kept());
      DropHandle(stream.pollIndex, reg, stream.id, old(tasks.model));
      done := true;
    }

    /** The future's state is kept in its slot until the next poll. */
    method Suspend(k: nat, f: Fut, ghost s: Sched<Fut>)
      requires Sane() && k in s.tasks && SameButRefs(s, tasks.model)
      modifies tasks, tasks.parts
      ensures Sane() && SameButRefs(SetFuture(s, k, f), tasks.model)
    {
      hide Executors.Tasks.Valid, Logged, Counted, SameButRefs;
      SameButRefsFuture(s, tasks.model, k, f);
      CountedFuture(tasks.model, reactor.registrations, k, f);
      tasks.SetFuture(k, f);
    }

    /** Dropping an I/O object: it leaves the poll table, then its registration is removed. */
    method DropHandle(pollIndex: Option<nat>, reg: nat, ghost id: nat, ghost s: Sched<Fut>)
      requires Sane() && SameButRefs(s, tasks.model) && reg in reactor.registrations
      requires pollIndex.Some? && pollIndex.value in reactor.poll.items
      modifies tasks, tasks.parts, reactor, reactor.poll, stats
      ensures Sane() && SameButRefs(s, tasks.model)
      ensures reactor.registrations == old(reactor.registrations) - {reg}
      ensures reactor.poll.items == old(reactor.poll.items) - {pollIndex.value}
      ensures stats.Kept() == Note(old(stats.Kept()), UnregisterCall(id))
    {
      hide Counted, SameButRefs;
      reactor.poll.Unregister(pollIndex, id);
      ghost var mid := tasks.model;
      reactor.Deregister(tasks, reg);
      SameButRefsTrans(s, mid, tasks.model);
    }

    lemma SameButRefsSelf(s: Sched<Fut>)
      ensures SameButRefs(s, s)
    {
    }

    // ----- the books

    /** What `b` says of the server, and the server as it is. */
    ghost function Here(b: Books): World
      reads tasks, reactor, reactor.poll
    {
      World(ShapesOf(tasks.model), reactor.registrations, reactor.poll.items, b.owner, b.run.l, b.lk)
    }

    ghost predicate Charged(b: Books)
      reads stats
    {
      b.run.l.n == n && Recorded(b.run, stats.Kept())
    }

    /** The whole server, with `busy` the task in its poll. */
    ghost predicate State(b: Books, busy: Option<nat>)
      reads tasks, tasks.parts, reactor, reactor.poll, stats
    {
      Sane() && Charged(b) && AsyncInv(Here(b), busy)
    }

    /** What is left when the polled task `k` has completed: everything but `k` is as it must be, and no registration
        holds a clone of its waker. */
    ghost predicate Completed(k: nat, b: Books)
      reads tasks, tasks.parts, reactor, reactor.poll, stats
    {
      && Sane() && Charged(b) && k in tasks.model.tasks && !tasks.model.tasks[k].awake
      && AsyncInv(Here(b).(shapes := ShapesOf(tasks.model) - {k}), None)
    }

    /** The state `k`'s future is in, on being taken off the queue. */
    ghost predicate Polled(k: nat, f: Fut)
      reads tasks, reactor
    {
      && k in tasks.model.tasks && tasks.model.tasks[k].fut == f && !tasks.model.tasks[k].awake
      && (RegOf(f).Some? ==> RegOf(f).value in reactor.registrations
                             && reactor.registrations[RegOf(f).value] == Registration(true, None))
    }

    // ----- listen

    /** `AsyncFakeListener::new`, on the first poll. */
    method NewListener(k: nat, left: nat, ghost b0: Books) returns (listener: FakeListener, reg: nat, ghost b: Books)
      requires State(b0, Some(k)) && Polled(k, Listen(left))
      modifies tasks, tasks.parts, reactor, reactor.poll, stats
      ensures State(b, Some(k)) && Polled(k, Accepting(listener, reg, left)) && Moved(b0.run, b.run, [OpenMove])
      ensures SamePoll(b0, b) && b.run.l.left == b0.run.l.left && tasks.model.queue == old(tasks.model.queue)
    {
      hide Executors.Tasks.Valid, Logged, Counted, SameButRefs;
      hide Recorded, AsyncInv, Inv, Owned, Parked, Tracks, ShapesOf;
      ghost var w := Here(b0);
      ShapesKeys(tasks.model);
      ShapesAt(tasks.model, k);
      Unopened(w, k);
      var index;
      index, reg := NewHandle(READABLE, LISTENER);
      listener := FakeListener(Some(index), 0);
      OpenStep(w, k, reg, index);
      Advanced(b0, old(stats.Kept()), OpenMove);
      b := Books(Advance(b0.run, OpenMove), b0.owner[reg := k], b0.lk);
      Store(k, Accepting(listener, reg, left));
    }

    /** The running future's state, in its slot. */
    method Store(k: nat, f: Fut)
      requires Sane() && k in tasks.model.tasks
      modifies tasks, tasks.parts
      ensures Sane() && tasks.model == SetFuture(old(tasks.model), k, f)
      ensures ShapesOf(tasks.model) == ShapesOf(old(tasks.model))[k := Shape(f, old(tasks.model).tasks[k].awake)]
    {
      hide Executors.Tasks.Valid, Logged, Counted;
      CountedFuture(tasks.model, reactor.registrations, k, f);
      ShapesFuture(tasks.model, k, f);
      tasks.SetFuture(k, f);
    }

    lemma Unopened(w: World, k: nat)
      requires AsyncInv(w, Some(k)) && k in w.shapes && w.shapes[k].fut.Listen?
      ensures |w.regs| == 0
    {
      hide Inv;
      FewTasks(w, Some(k));
    }

    /** `listener.accept().await` and, once it completes, the spawn of the connection. */
    method AwaitAccept(k: nat, listener0: FakeListener, reg: nat, left: nat, ghost b0: Books)
      returns (blocked: bool, listener: FakeListener, ghost b: Books, ghost spawned: nat)
      requires State(b0, Some(k)) && Polled(k, Accepting(listener0, reg, left)) && left > 0
      modifies tasks, tasks.parts, reactor, reactor.poll, stats
      ensures SamePoll(b0, b)
      ensures blocked ==> Moved(b0.run, b.run, [BlockMove])
      ensures !blocked ==> Moved(b0.run, b.run, [AcceptMove(spawned)])
      ensures blocked ==> State(b, None) && b.run.l.left == b0.run.l.left && tasks.model.queue == old(tasks.model.queue)
      ensures !blocked ==> State(b, Some(k)) && Polled(k, Accepting(listener, reg, left - 1))
      ensures !blocked ==> b.run.l.left < b0.run.l.left && tasks.model.queue == old(tasks.model.queue) + [spawned]
    {
      hide Executors.Tasks.Valid, Logged, Counted, SameButRefs;
      hide Recorded, AsyncInv, Inv, Owned, Parked, Tracks, ShapesOf;
      ghost var s, w := tasks.model, Here(b0);
      ShapesAt(s, k);
      Room(s, w, k);
      var r;
      listener, r := AcceptFuture(k, reg, listener0);
      ShapesRefs(s, tasks.model);
      LiveRefs(s, tasks.model, k);
      blocked := r.Pending?;
      if blocked {
        BlockStep(w, k);
        Advanced(b0, old(stats.Kept()), BlockMove);
        b, spawned := b0.(run := Advance(b0.run, BlockMove)), 0;
        Store(k, Accepting(listener, reg, left));
      } else {
        var (stream, key) := r.value;
        b, spawned := SpawnConnection(k, listener, reg, left, stream, key, s, w, b0, old(stats.Kept()));
      }
    }

    lemma LiveRefs(a: Sched<Fut>, b: Sched<Fut>, k: nat)
      requires SameButRefs(a, b) && k in a.tasks
      ensures k in b.tasks && b.tasks[k].fut == a.tasks[k].fut && b.tasks[k].awake == a.tasks[k].awake
      ensures b.queue == a.queue && b.tasks.Keys == a.tasks.Keys && |b.tasks| == |a.tasks|
    {
    }

    /** There is room for one more registration and one more task. */
    lemma Room(s: Sched<Fut>, w: World, k: nat)
      requires AsyncInv(w, Some(k)) && w.shapes == ShapesOf(s) && k in s.tasks
      requires s.tasks[k].fut.Accepting? && s.tasks[k].fut.left > 0
      ensures |w.regs| <= w.l.n && |s.tasks| <= w.l.n
      ensures s.tasks[k].fut.left == w.l.left && s.tasks[k].fut.listener.calls == w.l.calls
    {
      hide Inv;
      ShapesKeys(s);
      ShapesAt(s, k);
      OfTask(w, Some(k), k);
      FewTasks(w, Some(k));
    }

    /** The completed accept is dropped, and the connection becomes a task; neither spawn nor registration is refused.
        `s` and `w` are the scheduler and the server before the accept. */
    method SpawnConnection(k: nat, listener: FakeListener, reg: nat, left: nat, stream: FakeStream, key: nat,
                           ghost s: Sched<Fut>, ghost w: World, ghost b0: Books, ghost tape: Tape)
      returns (ghost b: Books, ghost c: nat)
      requires Sane() && SameButRefs(s, tasks.model) && b0.run.l.n == n && |s.tasks| <= n
      requires AsyncInv(w, Some(k)) && w.shapes == ShapesOf(s) && k in s.tasks
      requires w.owner == b0.owner && w.l == b0.run.l && w.lk == b0.lk
      requires left > 0 && listener.calls > 0 && !Blocks(listener.calls) && b0.run.l.left == left
      requires s.tasks[k] == Entry(Accepting(listener.(calls := listener.calls - 1), reg, left), false, s.tasks[k].refs)
      requires reg in w.regs && w.regs[reg] == Registration(true, None) && key !in w.regs
      requires reactor.registrations == w.regs[reg := Registration(true, Some(k))][key := Registration(true, None)]
      requires stream.id == listener.calls && stream.calls == 0
      requires stream.pollIndex.Some? && stream.pollIndex.value !in w.items
      requires reactor.poll.items == w.items[stream.pollIndex.value := Item(BOTH, key)]
      requires Recorded(b0.run, tape)
      requires stats.Kept() == Note(Note(tape, AcceptCall(false)), RegisterCall(listener.calls))
      modifies tasks, tasks.parts, reactor
      ensures State(b, Some(k)) && Polled(k, Accepting(listener, reg, left - 1))
      ensures SamePoll(b0, b) && b.run.l.left < b0.run.l.left && Moved(b0.run, b.run, [AcceptMove(c)])
      ensures tasks.model.queue == s.queue + [c]
    {
      hide Executors.Tasks.Valid, Logged, Counted, SameButRefs;
      hide Recorded, AsyncInv, Inv, Owned, Parked, Tracks, ShapesOf, AcceptConn;
      ShapesAt(s, k);
      ShapesKeys(s);
      var key' := Attend(k, Accepting(listener, reg, left - 1), Serving(stream, key, START), s, w.regs);
      c := key';
      SpawnStep(w, k, c, key, stream.pollIndex.value);
      Advanced(b0, tape, AcceptMove(c));
      assert stream == FakeStream(listener.calls, Some(stream.pollIndex.value), 0);
      b := Books(Advance(b0.run, AcceptMove(c)), b0.owner[key := c], b0.lk);
    }

    /** Task `k` goes on as `mine`, and a new task is given `yours`. */
    method Attend(k: nat, mine: Fut, yours: Fut, ghost s: Sched<Fut>, ghost regs: Registrations) returns (c: nat)
      requires mine.Accepting? && yours.Serving?
      requires Sane() && SameButRefs(s, tasks.model) && |s.tasks| <= n && k in s.tasks && !s.tasks[k].awake
      requires mine.reg in regs && regs[mine.reg] == Registration(true, None) && yours.reg !in regs
      requires reactor.registrations ==
        regs[mine.reg := Registration(true, Some(k))][yours.reg := Registration(true, None)]
      modifies tasks, tasks.parts, reactor
      ensures Sane() && c !in s.tasks && k in tasks.model.tasks
      ensures tasks.model.tasks[k].fut == mine && !tasks.model.tasks[k].awake
      ensures ShapesOf(tasks.model) == ShapesOf(s)[k := Shape(mine, false)][c := Shape(yours, true)]
      ensures reactor.registrations == regs[yours.reg := Registration(true, None)]
      ensures tasks.model.queue == s.queue + [c]
    {
      hide Executors.Tasks.Valid, Logged, Counted, SameButRefs, ShapesOf;
      DropAccept(mine.reg, yours.reg, s, regs);
      ShapesRefs(s, tasks.model);
      LiveRefs(s, tasks.model, k);
      Store(k, mine);
      c := Enlist(yours);
    }

    /** Dropping the completed accept future unbinds the waker from the listener's registration. */
    method DropAccept(reg: nat, key: nat, ghost s: Sched<Fut>, ghost regs: Registrations)
      requires Sane() && SameButRefs(s, tasks.model)
      requires reg in regs && regs[reg] == Registration(true, None) && key !in regs && reg in reactor.registrations
      requires reactor.registrations == regs[reg := reactor.registrations[reg]][key := Registration(true, None)]
      requires reactor.registrations[reg].ready
      modifies tasks, tasks.parts, reactor
      ensures Sane() && SameButRefs(s, tasks.model)
      ensures reactor.registrations == regs[key := Registration(true, None)]
    {
      hide Executors.Tasks.Valid, Logged, Counted, SameButRefs;
      ghost var mid := tasks.model;
      reactor.UnbindWaker(tasks, reg);
      SameButRefsTrans(s, mid, tasks.model);
      assert reactor.registrations == regs[key := Registration(true, None)];
    }

    /** A spawn that is unwrapped. */
    method Enlist(f: Fut) returns (key: nat)
      requires Sane() && |tasks.model.tasks| < tasks.capacity
      modifies tasks, tasks.parts
      ensures Sane() && key !in old(tasks.model).tasks && tasks.model == Spawn(old(tasks.model), key, f)
      ensures ShapesOf(tasks.model) == ShapesOf(old(tasks.model))[key := Shape(f, true)]
    {
      hide Executors.Tasks.Valid, Logged, Counted;
      var r := tasks.Add(f);
      key := r.value;
      CountedSpawn(old(tasks.model), reactor.registrations, key, f);
      ShapesSpawn(old(tasks.model), key, f);
    }

    /** `listen`, resumed or started. */
    method PollListen(k: nat, f: Fut, ghost b0: Books) returns (done: bool, ghost b: Books, ghost keys: seq<nat>)
      requires State(b0, Some(k)) && Polled(k, f) && !f.Serving?
      modifies tasks, tasks.parts, reactor, reactor.poll, stats
      ensures SamePoll(b0, b) && if done then Completed(k, b) else State(b, None)
      ensures Moved(b0.run, b.run, (if f.Listen? then [OpenMove] else []) + Accepts(keys)
                                   + [if done then CloseMove else BlockMove])
      ensures tasks.model.queue == old(tasks.model.queue) + keys
      ensures b.run.l.left < b0.run.l.left || (b.run.l.left == b0.run.l.left && keys == [])
    {
      hide State, Sane, AsyncInv, Inv, Owned, Parked, Tracks, ShapesOf, Completed;
      hide Executors.Tasks.Valid, Logged, Counted;
      var listener, reg, left := FakeListener(None, 0), 0, f.left;
      b, keys := b0, [];
      ghost var first := if f.Listen? then [OpenMove] else [];
      if f.Listen? {
        listener, reg, b := NewListener(k, left, b0);
      } else {
        listener, reg := f.listener, f.reg;
      }
      assert first + Accepts(keys) == first;
      while left > 0
        invariant State(b, Some(k)) && Polled(k, Accepting(listener, reg, left)) && SamePoll(b0, b)
        invariant Moved(b0.run, b.run, first + Accepts(keys))
        invariant tasks.model.queue == old(tasks.model.queue) + keys
        invariant b.run.l.left < b0.run.l.left || (b.run.l.left == b0.run.l.left && keys == [])
        decreases left
      {
        ghost var mid := b;
        var blocked;
        ghost var c;
        blocked, listener, b, c := AwaitAccept(k, listener, reg, left, b);
        MovedThen(b0.run, mid.run, b.run, first + Accepts(keys), [if blocked then BlockMove else AcceptMove(c)]);
        if blocked {
          return false, b, keys;
        }
        AcceptsOne(keys, c);
        assert first + Accepts(keys) + [AcceptMove(c)] == first + Accepts(keys + [c]);
        left, keys := left - 1, keys + [c];
      }
      ghost var mid := b;
      b := DropListener(k, listener, reg, b);
      MovedThen(b0.run, mid.run, b.run, first + Accepts(keys), [CloseMove]);
      done := true;
    }

    method DropListener(k: nat, listener: FakeListener, reg: nat, ghost b0: Books) returns (ghost b: Books)
      requires State(b0, Some(k)) && Polled(k, Accepting(listener, reg, 0))
      modifies tasks, tasks.parts, reactor, reactor.poll, stats
      ensures Completed(k, b) && SamePoll(b0, b) && Moved(b0.run, b.run, [CloseMove])
      ensures b.run.l.left == b0.run.l.left && tasks.model.queue == old(tasks.model.queue)
    {
      hide Executors.Tasks.Valid, Logged, Counted, SameButRefs;
      hide Recorded, AsyncInv, Inv, Owned, Parked, Tracks, ShapesOf;
      ghost var s, w := tasks.model, Here(b0);
      ShapesAt(s, k);
      OfTask(w, Some(k), k);
      CloseStep(w, k);
      Advanced(b0, old(stats.Kept()), CloseMove);
      SameButRefsSelf(s);
      DropHandle(listener.pollIndex, reg, LISTENER, s);
      ShapesRefs(s, tasks.model);
      LiveRefs(s, tasks.model, k);
      b := Books(Advance(b0.run, CloseMove), b0.owner - {reg}, b0.lk);
    }

    // ----- the executor's loop

    /** The poll of a connection task. */
    method PollServing(k: nat, f: Fut, ghost b0: Books) returns (done: bool, ghost b: Books)
      requires State(b0, Some(k)) && Polled(k, f) && f.Serving?
      modifies tasks, tasks.parts, reactor, reactor.poll, stats
      ensures SamePoll(b0, b) && if done then Completed(k, b) else State(b, None)
      ensures Moved(b0.run, b.run, [ServeMove(k)])
      ensures b.run.l.left == b0.run.l.left && tasks.model.queue == old(tasks.model.queue)
    {
      hide Executors.Tasks.Valid, Logged, Counted, SameButRefs;
      hide Recorded, AsyncInv, Inv, Owned, Parked, Tracks, ShapesOf;
      hide Sound, Serve, AtPhase, Outcome;
      ghost var s, w, l := tasks.model, Here(b0), b0.run.l;
      ShapesAt(s, k);
      OfTask(w, Some(k), k);
      ghost var p := l.conns[k].phase;
      AtPhaseSound(p, size);
      PhaseOutcome(p, f.stream, stats.Kept());
      done := PollConnection(k, f);
      ServeCost(l, k, old(stats.Kept()));
      Advanced(b0, old(stats.Kept()), ServeMove(k));
      ServeElsewhere(l, k, b0.lk);
      b := b0.(run := Advance(b0.run, ServeMove(k)));
      if done {
        DoneStep(w, k);
        ShapesRefs(s, tasks.model);
        LiveRefs(s, tasks.model, k);
        b := b.(owner := b0.owner - {f.reg});
      } else {
        var (echo, stream, _) := Outcome(f.echo, f.stream, old(stats.Kept()));
        ghost var g := Serving(stream, f.reg, echo);
        PendingStep(w, k, g);
        ShapesFuture(s, k, g);
        ShapesRefs(SetFuture(s, k, g), tasks.model);
        LiveRefs(SetFuture(s, k, g), tasks.model, k);
      }
    }

    /** The calls of a service. */
    lemma ServeCost(l: Ledger, k: nat, tape: Tape)
      requires k in l.conns && k in l.todo && l.conns[k].phase <= 2
      ensures var c := l.conns[k]; var called := NoteAll(tape, PhaseCalls(c.id, c.phase));
        NoteAll(tape, CallsOf(l, ServeMove(k))) == if c.phase < 2 then called else Note(called, UnregisterCall(c.id))
    {
      var c := l.conns[k];
      NoteTwo(tape, WriteCall(c.id, REQUEST, false), UnregisterCall(c.id));
      assert PhaseCalls(c.id, c.phase) + [] == PhaseCalls(c.id, c.phase);
    }

    ghost function OneCall(tape: Tape, m: Move, id: nat): Tape {
      match m
      case OpenMove => Note(tape, RegisterCall(LISTENER))
      case BlockMove => Note(tape, AcceptCall(true))
      case AcceptMove(_) => Note(Note(tape, AcceptCall(false)), RegisterCall(id))
      case CloseMove => Note(tape, UnregisterCall(LISTENER))
      case _ => Note(tape, PollCall)
    }

    /** One move more on the tape. */
    lemma Advanced(b: Books, tape: Tape, m: Move)
      requires Recorded(b.run, tape) && Enabled(b.run.l, m) && (m.ServeMove? ==> b.run.l.conns[m.key].phase <= 2)
      ensures Recorded(Advance(b.run, m), NoteAll(tape, CallsOf(b.run.l, m)))
      ensures Moved(b.run, Advance(b.run, m), [m])
      ensures !m.ServeMove? ==> NoteAll(tape, CallsOf(b.run.l, m)) == OneCall(tape, m, b.run.l.calls + 1)
    {
      RecordedThen(b.run, tape, m);
      var calls := CallsOf(b.run.l, m);
      NoteTwo(tape, calls[0], RegisterCall(b.run.l.calls + 1));
    }

    /** Takes the next task off the queue. */
    method Take(ghost b: Books) returns (key: Option<nat>, fut: Option<Fut>)
      requires State(b, None)
      modifies tasks, tasks.parts
      ensures key.None? ==> State(b, None) && tasks.model.queue == [] && tasks.model == old(tasks.model)
      ensures key.Some? ==> fut.Some? && State(b, key) && Polled(key.value, fut.value)
      ensures key.Some? ==> var queue := old(tasks.model.queue);
        queue != [] && key.value == queue[0] && tasks.model.queue == queue[1..]
    {
      hide Executors.Tasks.Valid, Logged, Counted, AsyncInv, Inv, Owned, Parked, Tracks, ShapesOf, WellFormed;
      ghost var s, w := tasks.model, Here(b);
      key, fut := tasks.Begin();
      if key.Some? {
        FrontAwake(s);
        ShapesAt(s, key.value);
        ShapesBegin(s);
        CountedBegin(s, reactor.registrations);
        BeginStep(w, key.value);
      }
    }

    lemma FrontAwake(s: Sched<Fut>)
      requires WellFormed(s) && s.queue != []
      ensures s.queue[0] in s.tasks && s.tasks[s.queue[0]].awake
    {
    }

    /** The `done` block: the count asserted there is one, because no registration holds a clone any more. */
    method Retire(k: nat, ghost b: Books)
      requires Completed(k, b)
      modifies tasks, tasks.parts
      ensures State(b, None) && tasks.model.queue == old(tasks.model.queue)
      ensures k in old(tasks.model).tasks && old(tasks.model).tasks[k].refs == 1 && k !in tasks.model.tasks
    {
      hide Executors.Tasks.Valid, Logged, Counted, AsyncInv, Inv, Owned, Parked, Tracks, ShapesOf, WellFormed;
      ghost var s := tasks.model;
      NobodyHolds(Here(b).(shapes := ShapesOf(s) - {k}), k);
      UnheldCount(s, reactor.registrations, k);
      AwakeIsQueued(s, k);
      CountedFinish(s, reactor.registrations, k);
      ShapesFinish(s, k);
      tasks.Finish(k);
    }

    /** One turn of the loop in `process_next`. */
    method ProcessOne(ghost b0: Books) returns (idle: bool, ghost b: Books)
      requires State(b0, None) && InOrder(b0.run.moves, tasks.model.queue)
      modifies tasks, tasks.parts, reactor, reactor.poll, stats
      ensures State(b, None) && SamePoll(b0, b) && InOrder(b.run.moves, tasks.model.queue)
      ensures idle ==> tasks.model.queue == []
      ensures !idle ==>
        || b.run.l.left < b0.run.l.left
        || (b.run.l.left == b0.run.l.left && |tasks.model.queue| < |old(tasks.model.queue)|)
    {
      hide State, Sane, Completed, Polled, AsyncInv, Inv, Owned, Parked, Tracks, ShapesOf;
      hide Executors.Tasks.Valid, Logged, Counted, InOrder;
      b := b0;
      ghost var queue := tasks.model.queue;
      var key, fut := Take(b0);
      idle := key.None?;
      if !idle {
        var k, done := key.value, false;
        if fut.value.Serving? {
          done, b := PollServing(k, fut.value, b0);
          InOrderServe(b0.run.moves, queue);
          if done {
            Retire(k, b);
          }
        } else {
          ghost var keys;
          done, b, keys := PollListen(k, fut.value, b0);
          if done {
            Retire(k, b);
          }
          QueuedOnce(b, queue[1..], keys);
          InOrderListen(b0.run.moves, queue, if fut.value.Listen? then [OpenMove] else [], keys,
                        if done then CloseMove else BlockMove);
        }
      }
    }

    lemma QueuedOnce(b: Books, queue: seq<nat>, keys: seq<nat>)
      requires State(b, None) && tasks.model.queue == queue + keys
      ensures forall k :: k in keys ==> k !in queue
    {
      hide AsyncInv;
      AllDiffer(tasks.model.queue);
      forall k | k in queue
        ensures k !in keys
      {
        var i := IndexOf(queue, k);
        assert tasks.model.queue[i] == k;
        assert forall j :: 0 <= j < |keys| ==> tasks.model.queue[|queue| + j] == keys[j];
      }
    }

    method ProcessNext(ghost b0: Books) returns (ghost b: Books)
      requires State(b0, None) && InOrder(b0.run.moves, tasks.model.queue)
      modifies tasks, tasks.parts, reactor, reactor.poll, stats
      ensures State(b, None) && SamePoll(b0, b) && tasks.model.queue == [] && InOrder(b.run.moves, [])
      ensures forall k :: k in tasks.model.tasks ==> !Owed(tasks.log, k)
    {
      hide State, Sane, AsyncInv, Inv, Owned, Parked, Tracks, ShapesOf, Executors.Tasks.Valid, Logged, Counted;
      hide InOrder;
      b := b0;
      var idle := false;
      while !idle
        invariant State(b, None) && SamePoll(b0, b) && InOrder(b.run.moves, tasks.model.queue)
        invariant idle ==> tasks.model.queue == []
        decreases !idle, b.run.l.left, |tasks.model.queue|
      {
        idle, b := ProcessOne(b);
      }
      NoneOwed(b);
    }

    /** The executor's log is legal whatever was run on it, so what holds of every log holds here. */
    lemma NoneOwed(b: Books)
      requires State(b, None) && tasks.model.queue == []
      ensures forall k :: k in tasks.model.tasks ==> !Owed(tasks.log, k)
    {
      hide AsyncInv;
      NothingOwed(tasks.capacity, tasks.log, tasks.model);
    }

    /** The reactor's poll, on a parked server with live tasks: it wakes every one of them. */
    method Park(ghost b0: Books) returns (ghost b: Books)
      requires State(b0, None) && tasks.model.queue == [] && tasks.model.tasks != map[]
      modifies tasks, tasks.parts, reactor, stats
      ensures State(b, None) && Moved(b0.run, b.run, [PollMove]) && b.run.l.m.poll == b0.run.l.m.poll + 1 <= n + 2
      ensures forall k :: k in tasks.model.tasks ==> tasks.model.tasks[k].awake
      ensures tasks.model.tasks.Keys == old(tasks.model).tasks.Keys
    {
      hide Executors.Tasks.Valid, Logged, Counted, AsyncInv, Inv, Owned, Parked, Tracks, WellFormed, Swept;
      ghost var s, w := tasks.model, Here(b0);
      Asleep(s);
      reactor.Poll(tasks);
      AllWoken(s, w, tasks.model, reactor.registrations);
      PollStep(w, ShapesOf(tasks.model), reactor.registrations);
      Advanced(b0, old(stats.Kept()), PollMove);
      b := b0.(run := Advance(b0.run, PollMove));
    }

    lemma Asleep(s: Sched<Fut>)
      requires WellFormed(s) && s.queue == []
      ensures AllAsleep(ShapesOf(s)) && (s.tasks != map[] ==> ShapesOf(s) != map[])
    {
    }

    /** A complete run: for every number of connections, whatever keys the slabs choose and in whatever order
        events arrive, it ends, with the closed counts, and leaves nothing behind. The calls it makes, each on its
        object and blocked or not, are those of one of the pipeline's schedules, none of them is wasted, and within a
        round the new streams come last. */
    method Run() returns (ghost schedule: seq<Move>, ghost end: Ledger)
      requires Quiescent()
      modifies tasks, tasks.parts, reactor, reactor.poll, stats
      ensures Quiescent()
      ensures stats.metrics == Plus(old(stats.metrics), Expected(n))
      ensures stats.log == old(stats.log) + Calls(Init(n), schedule)
      ensures Counts(old(stats.metrics), stats.metrics, Calls(Init(n), schedule))
      ensures Complete(n, schedule, end, Calls(Init(n), schedule)) && NewLast(Calls(Init(n), schedule))
    {
      hide State, Sane, AsyncInv, Inv, Owned, Parked, Tracks, ShapesOf, Executors.Tasks.Valid, Logged, Counted;
      hide Quiescent, Init, Calls, Complete, Counts, InOrder, NewLast;
      ghost var b := Start();
      var finished := false;
      while !finished
        invariant State(b, None) && b.run.start == old(stats.Kept()) && InOrder(b.run.moves, tasks.model.queue)
        invariant if finished then tasks.model.tasks == map[] else b.run.l.m.poll <= n + 2
        decreases !finished, n + 2 - b.run.l.m.poll
      {
        b := ProcessNext(b);
        finished := Idle(b);
        if !finished {
          ghost var moves := b.run.moves;
          b := Park(b);
          InOrderPoll(moves, [], tasks.model.queue);
        }
      }
      schedule, end := End(b);
    }

    method Start() returns (ghost b: Books)
      requires Quiescent()
      modifies tasks, tasks.parts
      ensures State(b, None) && b.run.start == stats.Kept() && b.run.l.m.poll == 0
      ensures InOrder(b.run.moves, tasks.model.queue)
      ensures stats.Kept() == old(stats.Kept())
    {
      hide AsyncInv, Recorded, Executors.Tasks.Valid, Logged, WellFormed, InOrder;
      assert Counted(tasks.model, reactor.registrations);
      NobodyQueued(tasks.model);
      var k := Enlist(Listen(n));
      b := Books(Trail(Init(n), [], stats.Kept()), map[], k);
      StartStep(n, k);
      RecordedInit(n, stats.Kept());
      assert ShapesOf(old(tasks.model)) == map[];
      InOrderOne(k);
      assert tasks.model.queue == [k];
    }

    lemma NobodyQueued(s: Sched<Fut>)
      requires WellFormed(s) && s.tasks == map[]
      ensures s.queue == []
    {
      SomeMember(s.queue);
    }

    method Idle(ghost b: Books) returns (idle: bool)
      requires State(b, None)
      ensures State(b, None) && (idle <==> tasks.model.tasks == map[])
    {
      hide AsyncInv;
      idle := tasks.IsEmpty();
    }

    ghost method End(b: Books) returns (schedule: seq<Move>, end: Ledger)
      requires State(b, None) && tasks.model.tasks == map[] && InOrder(b.run.moves, tasks.model.queue)
      ensures Quiescent() && stats.metrics == Plus(b.run.start.metrics, Expected(n))
      ensures stats.log == b.run.start.log + Calls(Init(n), schedule)
      ensures Counts(b.run.start.metrics, stats.metrics, Calls(Init(n), schedule))
      ensures Complete(n, schedule, end, Calls(Init(n), schedule)) && NewLast(Calls(Init(n), schedule))
    {
      hide NewLast;
      RoundsAreOrdered(false, n, b.run.moves, b.run.l);
      ShapesKeys(tasks.model);
      EndStep(Here(b));
      schedule, end := b.run.moves, b.run.l;
      NoteAllCounts(b.run.start, Calls(Init(n), schedule));
      FinishedIsComplete(n, schedule, end);
    }

    /** `k` runs on one instance cost exactly `k` times as much as one. */
    method RunTimes(k: nat)
      requires Quiescent()
      modifies tasks, tasks.parts, reactor, reactor.poll, stats
      ensures Quiescent()
      ensures stats.metrics == Plus(old(stats.metrics), Times(k, Expected(n)))
    {
      hide Quiescent;
      for i := 0 to k
        invariant Quiescent() && stats.metrics == Plus(old(stats.metrics), Times(i, Expected(n)))
      {
        TimesStep(old(stats.metrics), i, Expected(n));
        var _, _ := Run();
      }
    }
  }
}
