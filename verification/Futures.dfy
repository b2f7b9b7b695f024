/** Arbitrary futures and the passes they give `process_next`.

    What a poll does to the executor is a script: it may spawn, learning only whether the spawn was
    refused, and it may wake, clone and drop wakers, its own task's or any of which a clone is
    outstanding, before it returns `Ready` or `Pending`. A future that is ready is dropped, and its
    destructor may do the same. When its polls are used up a future stays `Pending`. */
module Futures {
  import opened Common
  import opened Scheduler
  import opened TaskLog

  /** The waker the poll is given, by reference, or a clone of some task's. */
  datatype Waker = Own | Of(task: nat)

  datatype Use = WakeByRef | WakeByValue | MakeClone | DropClone

  datatype Effects =
    | Return
    | SpawnThen(body: Future, given: Effects, refused: Effects)
    | UseThen(use: Use, waker: Waker, more: Effects)

  datatype Future = Quiet | Poll(effects: Effects, result: Result)

  datatype Result = Pending(rest: Future) | Ready(drops: Effects)

  type Tasks = Sched<Future>
  type Ops = seq<Op<Future>>

  function EffectsOf(f: Future): Effects {
    if f.Quiet? then Return else f.effects
  }

  function IsReady(f: Future): bool {
    f.Poll? && f.result.Ready?
  }

  function RestOf(f: Future): Future {
    if f.Poll? && f.result.Pending? then f.result.rest else Quiet
  }

  function DropsOf(f: Future): Effects {
    if IsReady(f) then f.result.drops else Return
  }

  // ----- what one script does

  ghost function DoAll(s: Tasks, ops: Ops): Tasks
    decreases |ops|
  {
    if ops == [] then s else DoAll(Do(s, ops[0]), ops[1..])
  }

  lemma {:induction false} DoAllThen(s: Tasks, a: Ops, b: Ops)
    ensures DoAll(s, a + b) == DoAll(DoAll(s, a), b)
    decreases |a|
  {
    if a == [] {
      assert a + b == b;
    } else {
      DoAllThen(Do(s, a[0]), a[1..], b);
      assert (a + b)[1..] == a[1..] + b;
    }
  }

  lemma DoAllOne(s: Tasks, e: Op<Future>)
    ensures DoAll(s, [e]) == Do(s, e)
    ensures CanAll(s, [e]) <==> Can(s, e)
    ensures Choices([e]) == if e.Spawned? then [e.key] else []
  {
    assert [e][1..] == [];
    assert DoAll(Do(s, e), [e][1..]) == Do(s, e);
  }

  /** The task a waker wakes. The poll of `me` has that task's waker by reference; there is any other to use only
      while a clone of it is outstanding. */
  function Whose(s: Tasks, me: Option<nat>, w: Waker): Option<nat> {
    match w
    case Own => if me.Some? && me.value in s.tasks then me else None
    case Of(k) => if k in s.tasks && s.tasks[k].refs > 1 then Some(k) else None
  }

  /** A borrowed waker cannot be given away. */
  function Using(s: Tasks, me: Option<nat>, use: Use, w: Waker): Ops {
    match Whose(s, me, w)
    case None => []
    case Some(k) =>
      match use
      case WakeByRef => [Woken(k)]
      case MakeClone => [Cloned(k)]
      case WakeByValue => if w.Own? then [] else [Woken(k), Dropped(k)]
      case DropClone => if w.Own? then [] else [Dropped(k)]
  }

  /** `ops` is what the script `e` does from `s`: a spawn into a full table is refused, any other gets some
      vacant key. */
  ghost predicate Follows(s: Tasks, me: Option<nat>, e: Effects, ops: Ops)
    decreases e
  {
    match e
    case Return => ops == []
    case SpawnThen(body, given, refused) =>
      if |s.tasks| == s.capacity then Follows(s, me, refused, ops)
      else
        && ops != [] && ops[0].Spawned? && ops[0].fut == body && Can(s, ops[0])
        && Follows(Do(s, ops[0]), me, given, ops[1..])
    case UseThen(use, w, more) =>
      var now := Using(s, me, use, w);
      now <= ops && Follows(DoAll(s, now), me, more, ops[|now|..])
  }

  /** A destructor that gets as far as waking or spawning. */
  ghost predicate Loud(s: Tasks, e: Effects)
    decreases e
  {
    match e
    case Return => false
    case SpawnThen(_, _, _) => true
    case UseThen(use, w, more) =>
      var now := Using(s, None, use, w);
      (now != [] && now[0].Woken?) || Loud(DoAll(s, now), more)
  }

  ghost predicate CanAll(s: Tasks, ops: Ops)
    decreases |ops|
  {
    ops == [] || (Can(s, ops[0]) && CanAll(Do(s, ops[0]), ops[1..]))
  }

  lemma {:induction false} CanAllThen(s: Tasks, a: Ops, b: Ops)
    requires CanAll(s, a) && CanAll(DoAll(s, a), b)
    ensures CanAll(s, a + b)
    decreases |a|
  {
    if a == [] {
      assert a + b == b;
    } else {
      CanAllThen(Do(s, a[0]), a[1..], b);
      assert (a + b)[1..] == a[1..] + b;
    }
  }

  lemma {:induction false} CanAllLogged(capacity: nat, log: Log<Future>, s: Tasks, ops: Ops)
    requires Logged(capacity, log, s) && CanAll(s, ops)
    ensures Logged(capacity, log + ops, DoAll(s, ops))
    decreases |ops|
  {
    if ops == [] {
      assert log + ops == log;
    } else {
      LoggedThen(capacity, log, s, ops[0]);
      CanAllLogged(capacity, log + [ops[0]], Do(s, ops[0]), ops[1..]);
      assert log + ops == log + [ops[0]] + ops[1..];
    }
  }

  /** The keys that the spawns among `ops` were given. */
  ghost function Choices(ops: Ops): seq<nat>
    decreases |ops|
  {
    if ops == [] then []
    else (if ops[0].Spawned? then [ops[0].key] else []) + Choices(ops[1..])
  }

  lemma {:induction false} ChoicesThen(a: Ops, b: Ops)
    ensures Choices(a + b) == Choices(a) + Choices(b)
    decreases |a|
  {
    if a == [] {
      assert a + b == b;
      NoChoices(Choices(b));
    } else {
      ChoicesThen(a[1..], b);
      assert (a + b)[1..] == a[1..] + b;
      Regroup(if a[0].Spawned? then [a[0].key] else [], Choices(a[1..]), Choices(b));
    }
  }

  /** What a use does, said of the tasks. */
  lemma UsingIs(s: Tasks, me: Option<nat>, use: Use, w: Waker)
    ensures var now := Using(s, me, use, w); var t := DoAll(s, now);
      && CanAll(s, now) && Choices(now) == []
      && t.capacity == s.capacity && t.tasks.Keys == s.tasks.Keys
      && forall k :: k in s.tasks ==> t.tasks[k].fut == s.tasks[k].fut
    ensures WellFormed(s) ==> WellFormed(DoAll(s, Using(s, me, use, w)))
  {
    hide WellFormed;
    var now := Using(s, me, use, w);
    if now != [] {
      DoAllOne(s, now[0]);
      DoWellFormedIf(s, now[0]);
      if |now| == 1 {
        assert now == [now[0]];
      } else {
        var mid := Do(s, now[0]);
        assert now == [now[0]] + [now[1]];
        DoAllOne(mid, now[1]);
        DoWellFormedIf(mid, now[1]);
        DoAllThen(s, [now[0]], [now[1]]);
        CanAllThen(s, [now[0]], [now[1]]);
        ChoicesThen([now[0]], [now[1]]);
      }
    }
  }

  lemma DoWellFormedIf(s: Tasks, e: Op<Future>)
    ensures WellFormed(s) ==> WellFormed(Do(s, e))
  {
    if WellFormed(s) {
      DoWellFormed(s, e);
    }
  }

  lemma SpawnedKeeps(s: Tasks, e: Op<Future>)
    requires Can(s, e) && e.Spawned?
    ensures forall k :: k in s.tasks ==> k in Do(s, e).tasks && Do(s, e).tasks[k].fut == s.tasks[k].fut
  {
  }

  /** A script does only what can be done, and frees nothing. */
  lemma {:induction false} FollowsKeeps(s: Tasks, me: Option<nat>, e: Effects, ops: Ops)
    requires WellFormed(s) && Follows(s, me, e, ops)
    ensures var t := DoAll(s, ops);
      && CanAll(s, ops) && WellFormed(t) && t.capacity == s.capacity
      && forall k :: k in s.tasks ==> k in t.tasks && t.tasks[k].fut == s.tasks[k].fut
    decreases e
  {
    hide WellFormed, Do, Can;
    match e
    case Return =>
    case SpawnThen(body, given, refused) =>
      if |s.tasks| == s.capacity {
        FollowsKeeps(s, me, refused, ops);
      } else {
        DoWellFormed(s, ops[0]);
        SpawnedKeeps(s, ops[0]);
        FollowsKeeps(Do(s, ops[0]), me, given, ops[1..]);
      }
    case UseThen(use, w, more) =>
      var now := Using(s, me, use, w);
      var rest := ops[|now|..];
      UsingIs(s, me, use, w);
      hide Using;
      FollowsKeeps(DoAll(s, now), me, more, rest);
      assert ops == now + rest;
      DoAllThen(s, now, rest);
      CanAllThen(s, now, rest);
  }

  // ----- a poll

  /** What became of a future that was polled; `drops` is what its destructor did. */
  datatype Fate = Stays(rest: Future) | Completes(drops: Ops)

  datatype Record = Record(key: nat, ops: Ops, fate: Fate)

  /** A poll up to the moment its future is put back or, if completed, its count is checked. */
  function Begins(r: Record): Ops {
    [Begun(r.key)] + r.ops + if r.fate.Completes? then r.fate.drops else []
  }

  function Ends(r: Record): Op<Future> {
    match r.fate
    case Stays(rest) => Stored(r.key, rest)
    case Completes(_) => Freed(r.key)
  }

  /** After the poll of `key` that did `ops`. */
  ghost function Mid(s: Tasks, key: nat, ops: Ops): Tasks {
    DoAll(Do(s, Begun(key)), ops)
  }

  ghost function At(s: Tasks, r: Record): Tasks {
    DoAll(Mid(s, r.key, r.ops), if r.fate.Completes? then r.fate.drops else [])
  }

  ghost function After(s: Tasks, r: Record): Tasks {
    Do(At(s, r), Ends(r))
  }

  /** The poll of the task at the front of the queue, by its script. */
  ghost predicate Polling(s: Tasks, key: nat, ops: Ops) {
    && s.queue != [] && key == s.queue[0] && key in s.tasks
    && Follows(Do(s, Begun(key)), Some(key), EffectsOf(s.tasks[key].fut), ops)
  }

  /** That poll and what comes of it, short of the check of the count. */
  ghost predicate Polls(s: Tasks, r: Record) {
    && Polling(s, r.key, r.ops)
    && var f := s.tasks[r.key].fut;
       match r.fate
       case Stays(rest) => !IsReady(f) && rest == RestOf(f)
       case Completes(drops) => IsReady(f) && Follows(Mid(s, r.key, r.ops), None, DropsOf(f), drops)
  }

  /** A poll that passes the check. */
  ghost predicate Obeys(s: Tasks, r: Record) {
    Polls(s, r) && Can(At(s, r), Ends(r))
  }

  /** A completed task of whose waker a clone is outstanding: the check fails. */
  ghost predicate Leaks(s: Tasks, r: Record) {
    Polls(s, r) && r.fate.Completes? && !Can(At(s, r), Ends(r))
  }

  /** Its destructor wakes or spawns. */
  ghost predicate Disturbs(s: Tasks, key: nat, ops: Ops) {
    Polling(s, key, ops) && Loud(Mid(s, key, ops), DropsOf(s.tasks[key].fut))
  }

  lemma BeginsIs(s: Tasks, r: Record)
    ensures DoAll(s, Begins(r)) == At(s, r)
    ensures DoAll(s, Begins(r) + [Ends(r)]) == After(s, r)
  {
    var drops := if r.fate.Completes? then r.fate.drops else [];
    assert Begins(r) == [Begun(r.key)] + (r.ops + drops);
    DoAllThen(s, [Begun(r.key)], r.ops + drops);
    DoAllOne(s, Begun(r.key));
    DoAllThen(Do(s, Begun(r.key)), r.ops, drops);
    DoAllThen(s, Begins(r), [Ends(r)]);
    DoAllOne(At(s, r), Ends(r));
  }

  lemma PollingKeeps(s: Tasks, key: nat, ops: Ops)
    requires WellFormed(s) && Polling(s, key, ops)
    ensures Can(s, Begun(key)) && CanAll(Do(s, Begun(key)), ops)
    ensures var t := Mid(s, key, ops);
      WellFormed(t) && t.capacity == s.capacity && key in t.tasks && t.tasks[key].fut == s.tasks[key].fut
  {
    hide Follows;
    var begun := Do(s, Begun(key));
    DoWellFormed(s, Begun(key));
    FollowsKeeps(begun, Some(key), EffectsOf(s.tasks[key].fut), ops);
  }

  lemma CanAllBegins(s: Tasks, r: Record)
    requires Can(s, Begun(r.key)) && CanAll(Do(s, Begun(r.key)), r.ops)
    requires CanAll(Mid(s, r.key, r.ops), if r.fate.Completes? then r.fate.drops else [])
    ensures CanAll(s, Begins(r))
  {
    hide Do, Can;
    var drops := if r.fate.Completes? then r.fate.drops else [];
    CanAllThen(Do(s, Begun(r.key)), r.ops, drops);
    assert Begins(r)[1..] == r.ops + drops;
  }

  lemma PollsKeep(s: Tasks, r: Record)
    requires WellFormed(s) && Polls(s, r)
    ensures var t := At(s, r);
      && CanAll(s, Begins(r)) && WellFormed(t) && t.capacity == s.capacity && r.key in t.tasks
      && (r.fate.Stays? ==> Can(t, Ends(r))) && t.tasks[r.key].fut == s.tasks[r.key].fut
      && (r.fate.Completes? ==> (Can(t, Ends(r)) <==> t.tasks[r.key].refs == 1) && t.tasks[r.key].refs >= 1)
    ensures WellFormed(After(s, r)) && After(s, r).capacity == s.capacity
  {
    hide WellFormed, Loud, Follows, Do, DoAll, CanAll, Begins;
    var mid := Mid(s, r.key, r.ops);
    var drops := if r.fate.Completes? then r.fate.drops else [];
    PollingKeeps(s, r.key, r.ops);
    DoNothing(mid);
    if r.fate.Completes? {
      FollowsKeeps(mid, None, DropsOf(s.tasks[r.key].fut), drops);
    }
    CanAllBegins(s, r);
    LiveCount(At(s, r), r.key);
    DoWellFormed(At(s, r), Ends(r));
  }

  lemma DoNothing(s: Tasks)
    ensures DoAll(s, []) == s && CanAll(s, [])
  {
  }

  lemma LiveCount(s: Tasks, k: nat)
    requires WellFormed(s) && k in s.tasks
    ensures s.tasks[k].refs >= 1
  {
  }

  // ----- a pass

  /** The complete polls `log`, one after the other. */
  ghost predicate Runs(s: Tasks, log: seq<Record>, end: Tasks)
    decreases |log|
  {
    if log == [] then end == s
    else Obeys(s, log[0]) && Runs(After(s, log[0]), log[1..], end)
  }

  ghost function AllOps(log: seq<Record>): Ops {
    if log == [] then [] else AllOps(log[..|log| - 1]) + (Begins(log[|log| - 1]) + [Ends(log[|log| - 1])])
  }

  /** No destructor on the way wakes or spawns. */
  ghost predicate Peaceful(s: Tasks, log: seq<Record>)
    decreases |log|
  {
    log == [] || (!Disturbs(s, log[0].key, log[0].ops) && Peaceful(After(s, log[0]), log[1..]))
  }

  /** How a pass of `process_next` ended: with an empty queue, at a failed check of the count, or at a destructor that
      called into a borrowed table. */
  datatype Verdict = Clean | Leaked(r: Record) | Reentered(key: nat, ops: Ops)

  /** A pass from `s`: the polls `log`, which lead to `end`, and there its verdict. In a strict executor the table is
      borrowed while a future is dropped. */
  ghost predicate Pass(strict: bool, s: Tasks, log: seq<Record>, end: Tasks, v: Verdict) {
    && Runs(s, log, end) && (strict ==> Peaceful(s, log))
    && match v
       case Clean => end.queue == []
       case Leaked(r) => Leaks(end, r) && (strict ==> !Disturbs(end, r.key, r.ops))
       case Reentered(key, ops) => strict && Disturbs(end, key, ops)
  }

  lemma {:induction false} RunsThen(s: Tasks, log: seq<Record>, mid: Tasks, r: Record)
    requires Runs(s, log, mid) && Obeys(mid, r)
    ensures Runs(s, log + [r], After(mid, r))
    ensures Peaceful(s, log) && !Disturbs(mid, r.key, r.ops) ==> Peaceful(s, log + [r])
    decreases |log|
  {
    if log != [] {
      RunsThen(After(s, log[0]), log[1..], mid, r);
      assert (log + [r])[1..] == log[1..] + [r];
    } else {
      assert (log + [r])[1..] == [];
    }
  }

  /** Whatever the futures do, the queue is always exactly the live, awake tasks, without repetition. */
  lemma {:induction false} RunsWellFormed(s: Tasks, log: seq<Record>, end: Tasks)
    requires WellFormed(s) && Runs(s, log, end)
    ensures WellFormed(end) && end.capacity == s.capacity
    decreases |log|
  {
    if log != [] {
      PollsKeep(s, log[0]);
      RunsWellFormed(After(s, log[0]), log[1..], end);
    }
  }

  // ----- the count

  /** No poll in `log` completed with a clone of its task's waker outstanding; said of the log alone. */
  ghost predicate NoneLeft(before: Log<Future>, log: seq<Record>)
    decreases |log|
  {
    log == [] ||
    (&& (log[0].fate.Completes? ==> Outstanding(before + Begins(log[0]), log[0].key) == 0)
     && NoneLeft(before + Begins(log[0]) + [Ends(log[0])], log[1..]))
  }

  /** The polls of a pass, with the one that failed its check. */
  function Polled(log: seq<Record>, v: Verdict): seq<Record> {
    log + if v.Leaked? then [v.r] else []
  }

  lemma PollLogged(capacity: nat, before: Log<Future>, s: Tasks, r: Record)
    requires Logged(capacity, before, s) && Polls(s, r)
    ensures Logged(capacity, before + Begins(r), At(s, r))
    ensures Obeys(s, r) ==> Logged(capacity, before + Begins(r) + [Ends(r)], After(s, r))
    ensures r.fate.Completes? ==> (Obeys(s, r) <==> Outstanding(before + Begins(r), r.key) == 0)
    ensures WellFormed(s)
  {
    hide Outstanding, At, Begins, Do;
    LogWellFormed(capacity, before);
    PollsKeep(s, r);
    BeginsIs(s, r);
    CanAllLogged(capacity, before, s, Begins(r));
    CountIsExact(capacity, before + Begins(r), r.key);
    if Obeys(s, r) {
      LoggedThen(capacity, before + Begins(r), At(s, r), Ends(r));
    }
  }

  /** A pass ends without a failed check exactly if every task that completed in it had no clone of its waker
      outstanding when its future had been dropped. */
  lemma {:induction false} CleanIffNoneLeft(strict: bool, capacity: nat, before: Log<Future>,
                                            s: Tasks, log: seq<Record>, end: Tasks, v: Verdict)
    requires Logged(capacity, before, s) && Pass(strict, s, log, end, v)
    ensures !v.Leaked? <==> NoneLeft(before, Polled(log, v))
    decreases |log|
  {
    hide Outstanding, Logged, Polls, Disturbs;
    var all := Polled(log, v);
    if log != [] {
      var r := log[0];
      PollLogged(capacity, before, s, r);
      CleanIffNoneLeft(strict, capacity, before + Begins(r) + [Ends(r)], After(s, r), log[1..], end, v);
      assert all[0] == r && all[1..] == Polled(log[1..], v);
    } else if v.Leaked? {
      PollLogged(capacity, before, s, v.r);
      assert all[0] == v.r;
    }
  }

  // ----- the key choices determine the pass

  lemma FirstChoice(a: Ops, b: Ops, x: seq<nat>, y: seq<nat>)
    requires a != [] && b != [] && a[0].Spawned? && b[0].Spawned? && Choices(a) + x == Choices(b) + y
    ensures a[0].key == b[0].key && Choices(a[1..]) + x == Choices(b[1..]) + y
  {
    var p, q := Choices(a[1..]), Choices(b[1..]);
    Regroup([a[0].key], p, x);
    Regroup([b[0].key], q, y);
    SameFirst(a[0].key, p + x, b[0].key, q + y);
  }

  lemma SameFirst(i: nat, x: seq<nat>, j: nat, y: seq<nat>)
    requires [i] + x == [j] + y
    ensures i == j && x == y
  {
    assert ([i] + x)[0] == i && ([j] + y)[0] == j;
    assert ([i] + x)[1..] == x && ([j] + y)[1..] == y;
  }

  lemma NoChoiceYet(s: Tasks, me: Option<nat>, use: Use, w: Waker, ops: Ops)
    requires Using(s, me, use, w) <= ops
    ensures var n := |Using(s, me, use, w)|;
      Choices(ops) == Choices(ops[n..]) && ops == Using(s, me, use, w) + ops[n..]
  {
    var now := Using(s, me, use, w);
    UsingIs(s, me, use, w);
    assert ops == now + ops[|now|..];
    ChoicesThen(now, ops[|now|..]);
  }

  lemma {:induction false} SameChoicesSameOps(s: Tasks, me: Option<nat>, e: Effects, a: Ops, b: Ops,
                                              x: seq<nat>, y: seq<nat>)
    requires Follows(s, me, e, a) && Follows(s, me, e, b) && Choices(a) + x == Choices(b) + y
    ensures a == b && x == y
    decreases e
  {
    hide Using, Do, DoAll, Can, Choices;
    match e
    case Return =>
      NoChoices(x);
      NoChoices(y);
    case SpawnThen(body, given, refused) =>
      if |s.tasks| == s.capacity {
        SameChoicesSameOps(s, me, refused, a, b, x, y);
      } else {
        FirstChoice(a, b, x, y);
        SameChoicesSameOps(Do(s, a[0]), me, given, a[1..], b[1..], x, y);
        assert a == [a[0]] + a[1..] && b == [b[0]] + b[1..];
      }
    case UseThen(use, w, more) =>
      var now := Using(s, me, use, w);
      NoChoiceYet(s, me, use, w, a);
      NoChoiceYet(s, me, use, w, b);
      SameChoicesSameOps(DoAll(s, now), me, more, a[|now|..], b[|now|..], x, y);
  }

  lemma BeginsChoices(r: Record)
    ensures Choices(Begins(r)) == Choices(r.ops) + Choices(if r.fate.Completes? then r.fate.drops else [])
    ensures Choices(Begins(r) + [Ends(r)]) == Choices(Begins(r))
  {
    var drops := if r.fate.Completes? then r.fate.drops else [];
    assert Begins(r) == [Begun(r.key)] + (r.ops + drops);
    assert Begins(r)[1..] == r.ops + drops;
    ChoicesThen(r.ops, drops);
    ChoicesThen(Begins(r), [Ends(r)]);
    assert [Ends(r)][1..] == [];
    assert Choices([Ends(r)]) == [];
  }

  lemma SameChoicesSamePoll(s: Tasks, a: Record, b: Record, x: seq<nat>, y: seq<nat>)
    requires Polls(s, a) && Polls(s, b) && Choices(Begins(a)) + x == Choices(Begins(b)) + y
    ensures a == b && x == y
  {
    hide Follows, Loud, Choices, Begins, Do;
    var f := s.tasks[a.key].fut;
    var da := if a.fate.Completes? then a.fate.drops else [];
    var db := if b.fate.Completes? then b.fate.drops else [];
    BeginsChoices(a);
    BeginsChoices(b);
    NoChoices(x);
    NoChoices(y);
    Regroup(Choices(a.ops), Choices(da), x);
    Regroup(Choices(b.ops), Choices(db), y);
    SameScript(s, a.key, EffectsOf(f), a.ops, b.ops, Choices(da) + x, Choices(db) + y);
    if IsReady(f) {
      SameChoicesSameOps(Mid(s, a.key, a.ops), None, DropsOf(f), da, db, x, y);
    }
  }

  lemma NoChoices(x: seq<nat>)
    ensures Choices([]) == [] && Choices([]) + x == x
  {
  }

  lemma SameScript(s: Tasks, key: nat, e: Effects, a: Ops, b: Ops, x: seq<nat>, y: seq<nat>)
    requires Follows(Do(s, Begun(key)), Some(key), e, a) && Follows(Do(s, Begun(key)), Some(key), e, b)
    requires Choices(a) + x == Choices(b) + y
    ensures a == b && x == y
  {
    SameChoicesSameOps(Do(s, Begun(key)), Some(key), e, a, b, x, y);
  }

  /** The keys the spawns of a pass were given, in order. */
  ghost function PassChoices(log: seq<Record>, v: Verdict): seq<nat>
    decreases |log|
  {
    if log != [] then Choices(Begins(log[0])) + PassChoices(log[1..], v)
    else
      match v
      case Clean => []
      case Leaked(r) => Choices(Begins(r))
      case Reentered(_, ops) => Choices(ops)
  }

  /** How a poll that was broken off in its destructor compares with one that was not. */
  lemma SameChoicesSoFar(s: Tasks, key: nat, ops: Ops, r: Record, x: seq<nat>, y: seq<nat>)
    requires Polling(s, key, ops) && Polls(s, r) && Choices(ops) + x == Choices(Begins(r)) + y
    ensures key == r.key && ops == r.ops
  {
    hide Follows, Choices, Begins, Do;
    var drops := if r.fate.Completes? then r.fate.drops else [];
    BeginsChoices(r);
    NoChoices(x);
    NoChoices(y);
    Regroup(Choices(r.ops), Choices(drops), y);
    SameScript(s, key, EffectsOf(s.tasks[key].fut), ops, r.ops, x, Choices(drops) + y);
  }

  lemma PassTail(strict: bool, s: Tasks, log: seq<Record>, end: Tasks, v: Verdict)
    requires Pass(strict, s, log, end, v) && log != []
    ensures Polls(s, log[0]) && Pass(strict, After(s, log[0]), log[1..], end, v)
    ensures PassChoices(log, v) == Choices(Begins(log[0])) + PassChoices(log[1..], v)
    ensures Peaceful(s, log) <==> !Disturbs(s, log[0].key, log[0].ops) && Peaceful(After(s, log[0]), log[1..])
    ensures strict ==> Peaceful(s, log)
  {
    hide Polls, Disturbs, After, Leaks;
  }

  /** A pass `a`, strict or not, beside one that is not and was given the same keys, as far as `a` got. */
  lemma {:induction false} PassesAgree(strict: bool, s: Tasks, a: seq<Record>, enda: Tasks, va: Verdict,
                                       b: seq<Record>, endb: Tasks, vb: Verdict, more: seq<nat>)
    requires Pass(strict, s, a, enda, va) && Pass(false, s, b, endb, vb)
    requires PassChoices(a, va) + more == PassChoices(b, vb)
    ensures va.Reentered? <==>
      strict && !(Peaceful(s, b) && (vb.Leaked? ==> !Disturbs(endb, vb.r.key, vb.r.ops)))
    ensures if va.Reentered? then |a| <= |b| && a == b[..|a|] else a == b && enda == endb && va == vb
    decreases |a|
  {
    hide Pass, PassChoices, Peaceful, Polls, Disturbs, Choices, After, Begins, Can;
    if a != [] && b != [] {
      PassTail(strict, s, a, enda, va);
      PassTail(false, s, b, endb, vb);
      Regroup(Choices(Begins(a[0])), PassChoices(a[1..], va), more);
      SameChoicesSamePoll(s, a[0], b[0], PassChoices(a[1..], va) + more, PassChoices(b[1..], vb));
      PassesAgree(strict, After(s, a[0]), a[1..], enda, va, b[1..], endb, vb, more);
      assert a == [a[0]] + a[1..] && b == [b[0]] + b[1..];
    } else {
      PassesAgreeAtEnd(strict, s, a, enda, va, b, endb, vb, more);
    }
  }

  /** One of them stops here. */
  lemma PassesAgreeAtEnd(strict: bool, s: Tasks, a: seq<Record>, enda: Tasks, va: Verdict,
                         b: seq<Record>, endb: Tasks, vb: Verdict, more: seq<nat>)
    requires Pass(strict, s, a, enda, va) && Pass(false, s, b, endb, vb) && (a == [] || b == [])
    requires PassChoices(a, va) + more == PassChoices(b, vb)
    ensures va.Reentered? <==>
      strict && !(Peaceful(s, b) && (vb.Leaked? ==> !Disturbs(endb, vb.r.key, vb.r.ops)))
    ensures if va.Reentered? then a == [] else a == b && enda == endb && va == vb
  {
    hide Loud, Choices, At, After, Begins, Can, Follows;
    if b != [] || vb.Leaked? {
      var r := if b != [] then b[0] else vb.r;
      var y := if b != [] then PassChoices(b[1..], vb) else [];
      assert PassChoices(b, vb) == Choices(Begins(r)) + y;
      if a != [] || va.Leaked? {
        var q := if a != [] then a[0] else va.r;
        var x := if a != [] then PassChoices(a[1..], va) else [];
        assert PassChoices(a, va) == Choices(Begins(q)) + x;
        SameChoicesSamePoll(s, q, r, x + more, y);
      } else if va.Reentered? {
        SameChoicesSoFar(s, va.key, va.ops, r, more, y);
      }
    }
  }

  /** Two passes over the same tasks that were given the same keys made the same polls in the same order, did the
      same in each, and ended alike, whichever executors made them, unless a destructor stopped one. */
  lemma SameChoicesSamePass(s: Tasks, p: bool, a: seq<Record>, enda: Tasks, va: Verdict,
                            q: bool, b: seq<Record>, endb: Tasks, vb: Verdict)
    requires Pass(p, s, a, enda, va) && Pass(q, s, b, endb, vb) && !va.Reentered? && !vb.Reentered?
    requires PassChoices(a, va) == PassChoices(b, vb)
    ensures a == b && enda == endb && va == vb
  {
    hide Runs, Leaks, Disturbs, Peaceful, PassChoices;
    assert PassChoices(a, va) + [] == PassChoices(b, vb);
    PassesAgree(p, s, a, enda, va, b, endb, vb, []);
  }

  // ----- order

  lemma UsingAppends(s: Tasks, me: Option<nat>, use: Use, w: Waker)
    ensures s.queue <= DoAll(s, Using(s, me, use, w)).queue
  {
    var now := Using(s, me, use, w);
    if now != [] {
      DoAllOne(s, now[0]);
      if |now| == 1 {
        assert now == [now[0]];
      } else {
        assert now == [now[0]] + [now[1]];
        DoAllThen(s, [now[0]], [now[1]]);
        DoAllOne(Do(s, now[0]), now[1]);
      }
    }
  }

  lemma {:induction false} FollowsAppends(s: Tasks, me: Option<nat>, e: Effects, ops: Ops)
    requires Follows(s, me, e, ops)
    ensures s.queue <= DoAll(s, ops).queue
    decreases e
  {
    match e
    case Return =>
    case SpawnThen(body, given, refused) =>
      if |s.tasks| == s.capacity {
        FollowsAppends(s, me, refused, ops);
      } else {
        FollowsAppends(Do(s, ops[0]), me, given, ops[1..]);
      }
    case UseThen(use, w, more) =>
      var now := Using(s, me, use, w);
      UsingAppends(s, me, use, w);
      hide Using, Do, Can;
      FollowsAppends(DoAll(s, now), me, more, ops[|now|..]);
      assert ops == now + ops[|now|..];
      DoAllThen(s, now, ops[|now|..]);
  }

  lemma AfterKeepsOrder(s: Tasks, r: Record)
    requires WellFormed(s) && Obeys(s, r)
    ensures s.queue[1..] <= After(s, r).queue
  {
    hide Follows, Loud, Do;
    var mid := Mid(s, r.key, r.ops);
    QueueEnds(s, r);
    FollowsAppends(Do(s, Begun(r.key)), Some(r.key), EffectsOf(s.tasks[r.key].fut), r.ops);
    if r.fate.Completes? {
      FollowsAppends(mid, None, DropsOf(s.tasks[r.key].fut), r.fate.drops);
      KeepsFront(s.queue[1..], At(s, r).queue, r.key);
    }
  }

  lemma QueueEnds(s: Tasks, r: Record)
    requires WellFormed(s) && Obeys(s, r)
    ensures Do(s, Begun(r.key)).queue == s.queue[1..] && r.key !in s.queue[1..]
    ensures After(s, r).queue == if r.fate.Completes? then Without(At(s, r).queue, r.key) else At(s, r).queue
  {
    hide Follows, Loud, DoAll;
    TakenFirst(s.queue);
  }

  lemma KeepsFront(front: seq<nat>, queue: seq<nat>, k: nat)
    requires front <= queue && k !in front
    ensures front <= Without(queue, k)
  {
    if k in queue {
      var i := IndexOf(queue, k);
      assert i >= |front| by {
        assert forall j :: 0 <= j < |front| ==> queue[j] in front;
      }
    }
  }

  /** First in, first out: a pass polls the tasks that were queued when it began, in that order, before any task
      queued during it. */
  lemma {:induction false} FirstInFirstOut(s: Tasks, log: seq<Record>, end: Tasks)
    requires WellFormed(s) && Runs(s, log, end)
    ensures forall i :: 0 <= i < |log| && i < |s.queue| ==> log[i].key == s.queue[i]
    ensures |log| < |s.queue| ==> s.queue[|log|..] <= end.queue
    decreases |log|
  {
    if log == [] {
      assert s.queue[0..] == s.queue;
    } else {
      hide At, After, Polls, WellFormed;
      var next := After(s, log[0]);
      PollsKeep(s, log[0]);
      AfterKeepsOrder(s, log[0]);
      FrontIsPolled(s, log[0]);
      FirstInFirstOut(next, log[1..], end);
      forall i | 0 <= i < |log| && i < |s.queue|
        ensures log[i].key == s.queue[i]
      {
        if i > 0 {
          assert log[i] == log[1..][i - 1] && next.queue[i - 1] == s.queue[1..][i - 1];
        }
      }
      if |log| < |s.queue| {
        assert s.queue[|log|..] == s.queue[1..][|log| - 1..];
        assert s.queue[1..][|log| - 1..] <= next.queue[|log| - 1..];
      }
    }
  }

  lemma FrontIsPolled(s: Tasks, r: Record)
    requires Polls(s, r)
    ensures s.queue != [] && r.key == s.queue[0]
  {
  }

  // ----- every pass over such futures ends

  function Size(f: Future): nat {
    match f
    case Quiet => 0
    case Poll(effects, Pending(rest)) => 1 + EffectsSize(effects) + Size(rest)
    case Poll(effects, Ready(drops)) => 1 + EffectsSize(effects) + EffectsSize(drops)
  }

  function EffectsSize(e: Effects): nat {
    match e
    case Return => 0
    case SpawnThen(body, given, refused) => 1 + Size(body) + EffectsSize(given) + EffectsSize(refused)
    case UseThen(_, _, more) => 1 + EffectsSize(more)
  }

  ghost function SizeAt(tasks: map<nat, Entry<Future>>, k: nat): nat {
    if k in tasks then Size(tasks[k].fut) else 0
  }

  /** All that the futures in the slots below `n` have left to do. */
  ghost function Weight(tasks: map<nat, Entry<Future>>, n: nat): nat {
    if n == 0 then 0 else Weight(tasks, n - 1) + SizeAt(tasks, n - 1)
  }

  lemma {:induction false} WeightChange(a: map<nat, Entry<Future>>, b: map<nat, Entry<Future>>, k: nat, n: nat)
    requires forall j :: j != k ==> SizeAt(a, j) == SizeAt(b, j)
    ensures Weight(b, n) == Weight(a, n) + if k < n then SizeAt(b, k) - SizeAt(a, k) else 0
  {
    if n > 0 {
      WeightChange(a, b, k, n - 1);
      assert n - 1 != k ==> SizeAt(a, n - 1) == SizeAt(b, n - 1);
    }
  }

  lemma {:induction false} FollowsWeight(s: Tasks, me: Option<nat>, e: Effects, ops: Ops)
    requires Follows(s, me, e, ops)
    ensures Weight(DoAll(s, ops).tasks, s.capacity) <= Weight(s.tasks, s.capacity) + EffectsSize(e)
    decreases e
  {
    match e
    case Return =>
    case SpawnThen(body, given, refused) =>
      if |s.tasks| == s.capacity {
        FollowsWeight(s, me, refused, ops);
      } else {
        var t := Do(s, ops[0]);
        WeightChange(s.tasks, t.tasks, ops[0].key, s.capacity);
        FollowsWeight(t, me, given, ops[1..]);
      }
    case UseThen(use, w, more) =>
      var now := Using(s, me, use, w);
      var t := DoAll(s, now);
      UsingIs(s, me, use, w);
      WeightChange(s.tasks, t.tasks, 0, s.capacity);
      hide Using, Do, Can;
      FollowsWeight(t, me, more, ops[|now|..]);
      assert ops == now + ops[|now|..];
      DoAllThen(s, now, ops[|now|..]);
  }

  /** Each poll uses up some of a future, or shortens the queue and changes nothing else. */
  lemma PollDecreases(s: Tasks, r: Record)
    requires WellFormed(s) && Obeys(s, r)
    ensures var a, b := Weight(s.tasks, s.capacity), Weight(After(s, r).tasks, s.capacity);
      b < a || (b == a && |After(s, r).queue| < |s.queue|)
  {
    hide Follows, Loud, WellFormed;
    var f := s.tasks[r.key].fut;
    var n, begun, mid, at := s.capacity, Do(s, Begun(r.key)), Mid(s, r.key, r.ops), At(s, r);
    PollingKeeps(s, r.key, r.ops);
    PollsKeep(s, r);
    WeightChange(s.tasks, begun.tasks, r.key, n);
    FollowsWeight(begun, Some(r.key), EffectsOf(f), r.ops);
    if r.fate.Completes? {
      FollowsWeight(mid, None, DropsOf(f), r.fate.drops);
    } else if f.Quiet? {
      NothingFollows(begun, Some(r.key), r.ops);
    }
    WeightChange(at.tasks, After(s, r).tasks, r.key, n);
    KeyBelow(s, r.key);
  }

  lemma NothingFollows(s: Tasks, me: Option<nat>, ops: Ops)
    requires Follows(s, me, Return, ops)
    ensures ops == []
  {
  }

  lemma KeyBelow(s: Tasks, k: nat)
    requires WellFormed(s) && k in s.tasks
    ensures k < s.capacity
  {
  }

  // ----- futures that make no clones

  predicate MakesNone(e: Effects) {
    match e
    case Return => true
    case SpawnThen(body, given, refused) => Tame(body) && MakesNone(given) && MakesNone(refused)
    case UseThen(use, _, more) => !use.MakeClone? && MakesNone(more)
  }

  /** Neither the future nor any it spawns ever clones a waker. */
  predicate Tame(f: Future) {
    match f
    case Quiet => true
    case Poll(effects, Pending(rest)) => MakesNone(effects) && Tame(rest)
    case Poll(effects, Ready(drops)) => MakesNone(effects) && MakesNone(drops)
  }

  ghost predicate AllTame(s: Tasks) {
    forall k :: k in s.tasks ==> s.tasks[k].refs == 1 && Tame(s.tasks[k].fut)
  }

  lemma UsingTame(s: Tasks, me: Option<nat>, use: Use, w: Waker)
    requires AllTame(s) && !use.MakeClone?
    ensures AllTame(DoAll(s, Using(s, me, use, w)))
  {
    var now := Using(s, me, use, w);
    if now != [] {
      assert now == [now[0]];
      DoAllOne(s, now[0]);
    }
  }

  lemma {:induction false} FollowsTame(s: Tasks, me: Option<nat>, e: Effects, ops: Ops)
    requires AllTame(s) && MakesNone(e) && Follows(s, me, e, ops)
    ensures AllTame(DoAll(s, ops))
    decreases e
  {
    match e
    case Return =>
    case SpawnThen(body, given, refused) =>
      if |s.tasks| == s.capacity {
        FollowsTame(s, me, refused, ops);
      } else {
        FollowsTame(Do(s, ops[0]), me, given, ops[1..]);
      }
    case UseThen(use, w, more) =>
      var now := Using(s, me, use, w);
      UsingTame(s, me, use, w);
      hide Using, Do, Can, AllTame;
      FollowsTame(DoAll(s, now), me, more, ops[|now|..]);
      assert ops == now + ops[|now|..];
      DoAllThen(s, now, ops[|now|..]);
  }

  lemma PollsTame(s: Tasks, r: Record)
    requires WellFormed(s) && AllTame(s) && Polls(s, r)
    ensures Obeys(s, r) && AllTame(After(s, r))
  {
    hide Follows, Loud, DoAll, WellFormed;
    var f, begun := s.tasks[r.key].fut, Do(s, Begun(r.key));
    PollsKeep(s, r);
    FollowsTame(begun, Some(r.key), EffectsOf(f), r.ops);
    DoNothing(Mid(s, r.key, r.ops));
    if r.fate.Completes? {
      FollowsTame(Mid(s, r.key, r.ops), None, DropsOf(f), r.fate.drops);
    }
    assert AllTame(At(s, r));
  }

  /** Where no waker has been cloned and none will be, no check of a count fails. */
  lemma {:induction false} TameNeverLeak(strict: bool, s: Tasks, log: seq<Record>, end: Tasks, v: Verdict)
    requires WellFormed(s) && AllTame(s) && Pass(strict, s, log, end, v)
    ensures !v.Leaked? && AllTame(end)
    decreases |log|
  {
    hide Polls, Disturbs, AllTame, WellFormed, After, Peaceful;
    if log != [] {
      PassTail(strict, s, log, end, v);
      PollsTame(s, log[0]);
      PollsKeep(s, log[0]);
      TameNeverLeak(strict, After(s, log[0]), log[1..], end, v);
    } else if v.Leaked? {
      PollsTame(s, v.r);
    }
  }

  // ----- what fails, and how

  const STASHES := Poll(UseThen(MakeClone, Own, Return), Ready(Return))

  lemma FollowsOne(s: Tasks, me: Option<nat>, use: Use, w: Waker, ops: Ops)
    requires Follows(s, me, UseThen(use, w, Return), ops)
    ensures ops == Using(s, me, use, w)
  {
    var now := Using(s, me, use, w);
    assert Follows(DoAll(s, now), me, Return, ops[|now|..]);
  }

  lemma PollOfStash(ops: Ops)
    requires Polling(Spawn(Empty(1), 0, STASHES), 0, ops)
    ensures ops == [Cloned(0)]
    ensures Mid(Spawn(Empty(1), 0, STASHES), 0, ops) == Sched(1, map[0 := Entry(STASHES, false, 2)], [])
  {
    var s: Tasks := Spawn(Empty(1), 0, STASHES);
    var begun := Do(s, Begun(0));
    assert begun == Sched(1, map[0 := Entry(STASHES, false, 1)], []);
    FollowsOne(begun, Some(0), MakeClone, Own, ops);
    DoAllOne(begun, Cloned(0));
  }

  lemma OnlyStash(r: Record)
    requires Polls(Spawn(Empty(1), 0, STASHES), r)
    ensures r == Record(0, [Cloned(0)], Completes([])) && Leaks(Spawn(Empty(1), 0, STASHES), r)
  {
    PollOfStash(r.ops);
    NothingFollows(Sched(1, map[0 := Entry(STASHES, false, 2)], []), None, r.fate.drops);
  }

  /** A future that stashes a clone of its own waker and is ready: no executor's pass survives it. */
  lemma StashedWakerFails(strict: bool, log: seq<Record>, end: Tasks, v: Verdict)
    requires Pass(strict, Spawn(Empty(1), 0, STASHES), log, end, v)
    ensures log == [] && v == Leaked(Record(0, [Cloned(0)], Completes([])))
  {
    hide Follows, Do, DoAll, At, After, Can;
    if log != [] {
      OnlyStash(log[0]);
    } else if v.Leaked? {
      OnlyStash(v.r);
    }
  }

  const WAKES_IN_DROP := Poll(UseThen(MakeClone, Own, Return), Ready(UseThen(WakeByValue, Of(0), Return)))

  /** The one poll of `WAKES_IN_DROP`, up to the moment it is dropped. */
  lemma PollOfWaker(ops: Ops)
    requires Polling(Spawn(Empty(1), 0, WAKES_IN_DROP), 0, ops)
    ensures ops == [Cloned(0)]
    ensures Mid(Spawn(Empty(1), 0, WAKES_IN_DROP), 0, ops) == Sched(1, map[0 := Entry(WAKES_IN_DROP, false, 2)], [])
  {
    var s: Tasks := Spawn(Empty(1), 0, WAKES_IN_DROP);
    var begun := Do(s, Begun(0));
    assert begun == Sched(1, map[0 := Entry(WAKES_IN_DROP, false, 1)], []);
    FollowsOne(begun, Some(0), MakeClone, Own, ops);
    DoAllOne(begun, Cloned(0));
  }

  lemma DropOfWaker(drops: Ops)
    requires Follows(Sched(1, map[0 := Entry(WAKES_IN_DROP, false, 2)], []), None, DropsOf(WAKES_IN_DROP), drops)
    ensures drops == [Woken(0), Dropped(0)]
    ensures DoAll(Sched(1, map[0 := Entry(WAKES_IN_DROP, false, 2)], []), drops) ==
      Sched(1, map[0 := Entry(WAKES_IN_DROP, true, 1)], [0])
  {
    var mid: Tasks := Sched(1, map[0 := Entry(WAKES_IN_DROP, false, 2)], []);
    FollowsOne(mid, None, WakeByValue, Of(0), drops);
    assert drops == [Woken(0)] + [Dropped(0)];
    DoAllThen(mid, [Woken(0)], [Dropped(0)]);
    DoAllOne(mid, Woken(0));
    DoAllOne(Do(mid, Woken(0)), Dropped(0));
  }

  lemma FreedQueue(s: Tasks)
    requires s == Sched(1, map[0 := Entry(WAKES_IN_DROP, true, 1)], [0])
    ensures Do(s, Freed(0)) == Empty(1)
  {
    assert s.tasks - {0} == map[];
    assert Without([0], 0) == [];
  }

  lemma OnlyPoll(r: Record)
    requires Polls(Spawn(Empty(1), 0, WAKES_IN_DROP), r)
    ensures var s := Spawn(Empty(1), 0, WAKES_IN_DROP);
      && r == Record(0, [Cloned(0)], Completes([Woken(0), Dropped(0)]))
      && Obeys(s, r) && Disturbs(s, 0, r.ops) && After(s, r) == Empty(1)
  {
    var s: Tasks := Spawn(Empty(1), 0, WAKES_IN_DROP);
    PollOfWaker(r.ops);
    DropOfWaker(r.fate.drops);
    FreedQueue(At(s, r));
  }

  lemma EmptyEnds(log: seq<Record>, end: Tasks)
    requires Runs(Empty(1), log, end)
    ensures log == [] && end == Empty(1)
  {
  }

  /** One that gives the clone up in its destructor, by waking itself: the boxed executors finish it, the other
      stops with its table borrowed. */
  lemma WakeInDropStopsTheStrict(strict: bool, log: seq<Record>, end: Tasks, v: Verdict)
    requires Pass(strict, Spawn(Empty(1), 0, WAKES_IN_DROP), log, end, v)
    ensures if strict then v == Reentered(0, [Cloned(0)])
            else v.Clean? && log == [Record(0, [Cloned(0)], Completes([Woken(0), Dropped(0)]))] && end.tasks == map[]
  {
    hide Follows, Loud, Do, DoAll, At, After, Can;
    var s: Tasks := Spawn(Empty(1), 0, WAKES_IN_DROP);
    if log != [] {
      OnlyPoll(log[0]);
      var rest := log[1..];
      assert log == [log[0]] + rest && Runs(Empty(1), rest, end);
      EmptyEnds(rest, end);
    } else if v.Leaked? {
      OnlyPoll(v.r);
    } else if v.Reentered? {
      PollOfWaker(v.ops);
    }
  }
}
