/** `process_next` over arbitrary futures, on any of the three executors. They differ in how a completed
    future is dropped: `arg` drops it in its slot, with the table borrowed, the other two before they
    borrow it. */
module ProcessNext {
  import opened Common
  import opened Scheduler
  import opened TaskLog
  import opened Futures
  import opened FutureLaws
  import Executors

  /** Uses a waker, if there is one to use. */
  method UseWaker(tasks: Executors.Tasks<Future>, me: Option<nat>, use: Use, w: Waker) returns (ops: Ops)
    requires tasks.Valid()
    modifies tasks, tasks.parts
    ensures tasks.Valid() && ops == Using(old(tasks.model), me, use, w)
    ensures tasks.model == DoAll(old(tasks.model), ops) && tasks.log == old(tasks.log) + ops
    ensures Used(old(tasks.model), me, use, w, tasks.model)
    ensures forall k :: k in tasks.model.tasks ==> (tasks.model.tasks[k].awake <==> Owed(tasks.log, k))
  {
    ops := MakeUse(tasks, me, use, w);
    UsingMeans(old(tasks.model), me, use, w);
    AwakeIffOwed(tasks.capacity, tasks.log, tasks.model);
  }

  method MakeUse(tasks: Executors.Tasks<Future>, me: Option<nat>, use: Use, w: Waker) returns (ops: Ops)
    requires tasks.Valid()
    modifies tasks, tasks.parts
    ensures tasks.Valid() && ops == Using(old(tasks.model), me, use, w)
    ensures tasks.model == DoAll(old(tasks.model), ops) && tasks.log == old(tasks.log) + ops
  {
    hide Executors.Tasks.Valid, Logged, WellFormed;
    ops := [];
    var k;
    match w {
      case Own =>
        if me == None {
          return;
        }
        k := me.value;
        var live := tasks.IsLive(k);
        if !live || use.WakeByValue? || use.DropClone? {
          return;
        }
      case Of(task) =>
        k := task;
        var clones := tasks.Clones(k);
        if clones == 0 {
          return;
        }
    }
    match use
    case WakeByRef =>
      tasks.Wake(k);
      ops := [Woken(k)];
      DoAllOne(old(tasks.model), Woken(k));
    case MakeClone =>
      tasks.CloneWaker(k);
      ops := [Cloned(k)];
      DoAllOne(old(tasks.model), Cloned(k));
    case WakeByValue =>
      tasks.WakeAndDrop(k);
      ops := [Woken(k), Dropped(k)];
      DoAllTwo(old(tasks.model), Woken(k), Dropped(k));
    case DropClone =>
      tasks.DropWaker(k);
      ops := [Dropped(k)];
      DoAllOne(old(tasks.model), Dropped(k));
  }

  lemma DoAllTwo(s: Tasks, a: Op<Future>, b: Op<Future>)
    ensures DoAll(s, [a, b]) == Do(Do(s, a), b)
  {
    assert [a, b] == [a] + [b];
    DoAllThen(s, [a], [b]);
    DoAllOne(s, a);
    DoAllOne(Do(s, a), b);
  }

  lemma FollowsNothing(s: Tasks, me: Option<nat>, log: Log<Future>)
    ensures Follows(s, me, Return, []) && DoAll(s, []) == s && log + [] == log
  {
  }

  lemma FollowsGiven(s: Tasks, me: Option<nat>, e: Effects, k: nat, rest: Ops)
    requires e.SpawnThen? && |s.tasks| != s.capacity && k < s.capacity && k !in s.tasks
    requires Follows(Spawn(s, k, e.body), me, e.given, rest)
    ensures var ops := [Spawned(k, e.body)] + rest;
      Follows(s, me, e, ops) && DoAll(s, ops) == DoAll(Spawn(s, k, e.body), rest)
  {
    var ops := [Spawned(k, e.body)] + rest;
    assert ops[1..] == rest;
  }

  lemma FollowsRefused(s: Tasks, me: Option<nat>, e: Effects, ops: Ops)
    requires e.SpawnThen? && |s.tasks| == s.capacity && Follows(s, me, e.refused, ops)
    ensures Follows(s, me, e, ops)
  {
  }

  lemma FollowsUse(s: Tasks, me: Option<nat>, e: Effects, rest: Ops)
    requires e.UseThen? && Follows(DoAll(s, Using(s, me, e.use, e.waker)), me, e.more, rest)
    ensures var now := Using(s, me, e.use, e.waker);
      Follows(s, me, e, now + rest) && DoAll(s, now + rest) == DoAll(DoAll(s, now), rest)
  {
    var now := Using(s, me, e.use, e.waker);
    assert (now + rest)[|now|..] == rest;
    DoAllThen(s, now, rest);
  }

  /** Carries out a script. */
  method Perform(tasks: Executors.Tasks<Future>, me: Option<nat>, e: Effects) returns (ops: Ops)
    requires tasks.Valid()
    modifies tasks, tasks.parts
    ensures tasks.Valid() && Follows(old(tasks.model), me, e, ops)
    ensures tasks.model == DoAll(old(tasks.model), ops) && tasks.log == old(tasks.log) + ops
    decreases e
  {
    hide Executors.Tasks.Valid, Logged, WellFormed, Using, Follows, DoAll, Spawn, Used, Owed;
    match e
    case Return =>
      ops := [];
      FollowsNothing(tasks.model, me, tasks.log);
    case SpawnThen(body, given, refused) =>
      var key := tasks.Add(body);
      if key.Some? {
        var rest := Perform(tasks, me, given);
        ops := [Spawned(key.value, body)] + rest;
        Regroup(old(tasks.log), [Spawned(key.value, body)], rest);
        FollowsGiven(old(tasks.model), me, e, key.value, rest);
      } else {
        ops := Perform(tasks, me, refused);
        FollowsRefused(old(tasks.model), me, e, ops);
      }
    case UseThen(use, w, more) =>
      var now := UseWaker(tasks, me, use, w);
      var rest := Perform(tasks, me, more);
      ops := now + rest;
      Regroup(old(tasks.log), now, rest);
      FollowsUse(old(tasks.model), me, e, rest);
  }

  /** A destructor that runs while the table is borrowed: a clone or a drop of a waker touches only the count, but
      the first wake or spawn fails. */
  method PerformBorrowed(tasks: Executors.Tasks<Future>, e: Effects) returns (ops: Ops, loud: bool)
    requires tasks.Valid()
    modifies tasks, tasks.parts
    ensures tasks.Valid() && (loud <==> Loud(old(tasks.model), e))
    ensures !loud ==> Follows(old(tasks.model), None, e, ops)
    ensures !loud ==> tasks.model == DoAll(old(tasks.model), ops) && tasks.log == old(tasks.log) + ops
    decreases e
  {
    hide Executors.Tasks.Valid, Logged, WellFormed, Using, Follows, DoAll, Loud, Used, Owed;
    LoudIs(tasks.model, e);
    match e
    case Return =>
      ops, loud := [], false;
      FollowsNothing(tasks.model, None, tasks.log);
    case SpawnThen(_, _, _) =>
      ops, loud := [], true;
    case UseThen(use, w, more) =>
      ops, loud := [], false;
      if w.Of? && (use.WakeByRef? || use.WakeByValue?) {
        var clones := tasks.Clones(w.task);
        if clones > 0 {
          loud := true;
          return;
        }
      }
      var now := UseWaker(tasks, None, use, w);
      var rest;
      rest, loud := PerformBorrowed(tasks, more);
      ops := now + rest;
      Regroup(old(tasks.log), now, rest);
      if !loud {
        FollowsUse(old(tasks.model), None, e, rest);
      }
  }

  lemma LoudIs(s: Tasks, e: Effects)
    ensures Loud(s, e) <==>
      match e
      case Return => false
      case SpawnThen(_, _, _) => true
      case UseThen(use, w, more) =>
        || (w.Of? && (use.WakeByRef? || use.WakeByValue?) && w.task in s.tasks && s.tasks[w.task].refs > 1)
        || Loud(DoAll(s, Using(s, None, use, w)), more)
  {
  }

  datatype Turn = Idle | Polled(r: Record) | Stopped(v: Verdict)

  /** What a turn from `s` promises. */
  ghost predicate Turned(strict: bool, s: Tasks, turn: Turn, after: Tasks) {
    match turn
    case Idle => after == s && s.queue == []
    case Polled(r) => Obeys(s, r) && after == After(s, r) && (strict ==> !Disturbs(s, r.key, r.ops))
    case Stopped(Clean) => false
    case Stopped(Leaked(r)) => Leaks(s, r) && (strict ==> !Disturbs(s, r.key, r.ops))
    case Stopped(Reentered(key, ops)) => strict && Disturbs(s, key, ops)
  }

  lemma TurnPending(strict: bool, s: Tasks, k: nat, ops: Ops)
    requires WellFormed(s) && Polling(s, k, ops) && !IsReady(s.tasks[k].fut)
    ensures var rest, mid := RestOf(s.tasks[k].fut), Mid(s, k, ops);
      k in mid.tasks && Turned(strict, s, Polled(Record(k, ops, Stays(rest))), SetFuture(mid, k, rest))
  {
    hide WellFormed, Follows, Do;
    var r := Record(k, ops, Stays(RestOf(s.tasks[k].fut)));
    PollingKeeps(s, k, ops);
    DoNothing(Mid(s, k, ops));
    PollsKeep(s, r);
    StoredIs(Mid(s, k, ops), k, RestOf(s.tasks[k].fut));
  }

  lemma StoredIs(s: Tasks, k: nat, f: Future)
    requires k in s.tasks
    ensures Do(s, Stored(k, f)) == SetFuture(s, k, f)
  {
  }

  lemma FreedIs(s: Tasks, k: nat)
    requires k in s.tasks && s.tasks[k].refs == 1
    ensures Do(s, Freed(k)) == Finish(s, k)
  {
  }

  lemma TurnReady(strict: bool, s: Tasks, k: nat, ops: Ops, drops: Ops)
    requires WellFormed(s) && Polling(s, k, ops) && IsReady(s.tasks[k].fut)
    requires Follows(Mid(s, k, ops), None, DropsOf(s.tasks[k].fut), drops)
    requires strict ==> !Loud(Mid(s, k, ops), DropsOf(s.tasks[k].fut))
    ensures var r, at := Record(k, ops, Completes(drops)), DoAll(Mid(s, k, ops), drops);
      && k in at.tasks
      && if at.tasks[k].refs == 1 then Turned(strict, s, Polled(r), Finish(at, k))
         else Turned(strict, s, Stopped(Leaked(r)), at)
  {
    hide WellFormed, Follows, Do, DoAll, Loud;
    var r := Record(k, ops, Completes(drops));
    PollsKeep(s, r);
    if At(s, r).tasks[k].refs == 1 {
      FreedIs(At(s, r), k);
    }
  }

  /** One turn of the loop. */
  method TakeTurn(tasks: Executors.Tasks<Future>) returns (turn: Turn)
    requires tasks.Valid()
    modifies tasks, tasks.parts
    ensures tasks.Valid() && Turned(tasks.table.ArgTable?, old(tasks.model), turn, tasks.model)
    ensures turn.Idle? ==> tasks.log == old(tasks.log)
    ensures turn.Polled? ==> tasks.log == old(tasks.log) + (Begins(turn.r) + [Ends(turn.r)])
  {
    hide Executors.Tasks.Valid, Logged, WellFormed, Follows, Loud, DoAll;
    ghost var s := tasks.model;
    var key, fut := tasks.Begin();
    if key.None? {
      return Idle;
    }
    var k, f := key.value, fut.value;
    var ops := Perform(tasks, Some(k), EffectsOf(f));
    assert Polling(s, k, ops);
    hide Turned, SetFuture, Polling, Mid;
    if IsReady(f) {
      turn := Complete(tasks, k, f, ops, s);
      if turn.Polled? {
        LogOfTurn(old(tasks.log), turn.r);
      }
    } else {
      TurnPending(tasks.table.ArgTable?, s, k, ops);
      tasks.SetFuture(k, RestOf(f));
      turn := Polled(Record(k, ops, Stays(RestOf(f))));
      LogOfTurn(old(tasks.log), turn.r);
    }
  }

  lemma LogOfTurn(log: Log<Future>, r: Record)
    ensures log + [Begun(r.key)] + r.ops + (if r.fate.Completes? then r.fate.drops else []) + [Ends(r)]
         == log + (Begins(r) + [Ends(r)])
    ensures r.fate.Stays? ==> log + [Begun(r.key)] + r.ops + [Ends(r)] == log + (Begins(r) + [Ends(r)])
  {
  }

  /** The `done` block: the future is dropped, the count checked, and the task freed. */
  method Complete(tasks: Executors.Tasks<Future>, k: nat, f: Future, ops: Ops, ghost s: Tasks) returns (turn: Turn)
    requires tasks.Valid() && WellFormed(s) && Polling(s, k, ops) && tasks.model == Mid(s, k, ops)
    requires IsReady(f) && f == s.tasks[k].fut
    modifies tasks, tasks.parts
    ensures tasks.Valid() && Turned(tasks.table.ArgTable?, s, turn, tasks.model) && !turn.Idle?
    ensures turn.Polled? ==>
      && turn.r.key == k && turn.r.ops == ops && turn.r.fate.Completes?
      && tasks.log == old(tasks.log) + turn.r.fate.drops + [Freed(k)]
  {
    hide Executors.Tasks.Valid, Logged, WellFormed, Follows, Loud, DoAll, Polling, Mid, Finish;
    var drops, loud := [], false;
    if tasks.table.ArgTable? {
      drops, loud := PerformBorrowed(tasks, DropsOf(f));
      if loud {
        return Stopped(Reentered(k, ops));
      }
    } else {
      drops := Perform(tasks, None, DropsOf(f));
    }
    TurnReady(tasks.table.ArgTable?, s, k, ops, drops);
    var refs := tasks.WakerCount(k);
    var r := Record(k, ops, Completes(drops));
    hide Turned;
    if refs != 1 {
      return Stopped(Leaked(r));
    }
    tasks.Finish(k);
    turn := Polled(r);
  }

  /** Polls what is queued until nothing is, or a check fails. */
  method Process(tasks: Executors.Tasks<Future>) returns (log: seq<Record>, verdict: Verdict, ghost end: Tasks)
    requires tasks.Valid()
    modifies tasks, tasks.parts
    ensures tasks.Valid()
    ensures Pass(tasks.table.ArgTable?, old(tasks.model), log, end, verdict)
    ensures verdict.Clean? ==> tasks.model == end && tasks.log == old(tasks.log) + AllOps(log)
    ensures !verdict.Leaked? <==> NoneLeft(old(tasks.log), Futures.Polled(log, verdict))
  {
    hide Executors.Tasks.Valid, Logged, WellFormed, Runs, Peaceful, Obeys, Leaks, Disturbs, After, Begins, NoneLeft;
    log, verdict, end := [], Clean, tasks.model;
    NoPolls(tasks.model);
    while true
      invariant tasks.Valid() && end == tasks.model && Runs(old(tasks.model), log, end)
      invariant tasks.table.ArgTable? ==> Peaceful(old(tasks.model), log)
      invariant tasks.log == old(tasks.log) + AllOps(log)
      decreases Weight(tasks.model.tasks, tasks.model.capacity), |tasks.model.queue|
    {
      var turn := TakeTurn(tasks);
      if !turn.Polled? {
        verdict := if turn.Idle? then Clean else turn.v;
        CleanIffNoneLeft(tasks.table.ArgTable?, tasks.capacity, old(tasks.log), old(tasks.model), log, end, verdict);
        return;
      }
      PollDecreases(end, turn.r);
      PollsKeepCapacity(end, turn.r);
      RunsThen(old(tasks.model), log, end, turn.r);
      assert (log + [turn.r])[..|log|] == log;
      log, end := log + [turn.r], tasks.model;
    }
  }

  lemma NoPolls(s: Tasks)
    ensures Runs(s, [], s) && Peaceful(s, [])
  {
  }

  lemma PollsKeepCapacity(s: Tasks, r: Record)
    requires WellFormed(s) && Obeys(s, r)
    ensures After(s, r).capacity == s.capacity
  {
    PollsKeep(s, r);
  }
}
