/** What the scripts of `Futures` come to, said of the tasks themselves: each use of a waker, each spawn and each
    poll by what it leaves in the table, and a future by the poll at which it completes. */
module FutureLaws {
  import opened Common
  import opened Scheduler
  import opened TaskLog
  import opened Futures

  // ----- a use of a waker

  /** From `s` to `t` only task `k` has changed, to this flag and this count; if it was woken it has joined the
      queue. */
  ghost predicate Changed(s: Tasks, t: Tasks, k: nat, awake: bool, refs: int) {
    && k in s.tasks && t.capacity == s.capacity && t.tasks.Keys == s.tasks.Keys
    && (forall j :: j in s.tasks && j != k ==> t.tasks[j] == s.tasks[j])
    && t.tasks[k].fut == s.tasks[k].fut && t.tasks[k].awake == awake && t.tasks[k].refs == refs
    && t.queue == if awake && !s.tasks[k].awake then s.queue + [k] else s.queue
  }

  /** A wake leaves the task awake, a clone costs one reference, a drop gives one back, and a wake by value does both.
      The waker of the poll itself can only be woken by reference or cloned. */
  ghost predicate Used(s: Tasks, me: Option<nat>, use: Use, w: Waker, t: Tasks) {
    match w
    case Of(k) =>
      if k !in s.tasks || s.tasks[k].refs <= 1 then t == s
      else
        var refs: int := s.tasks[k].refs;
        (match use
         case WakeByRef => Changed(s, t, k, true, refs)
         case MakeClone => Changed(s, t, k, s.tasks[k].awake, refs + 1)
         case WakeByValue => Changed(s, t, k, true, refs - 1)
         case DropClone => Changed(s, t, k, s.tasks[k].awake, refs - 1))
    case Own =>
      if me == None || me.value !in s.tasks then t == s
      else
        var k := me.value;
        var refs: int := s.tasks[k].refs;
        (match use
         case WakeByRef => Changed(s, t, k, true, refs)
         case MakeClone => Changed(s, t, k, s.tasks[k].awake, refs + 1)
         case _ => t == s)
  }

  lemma UsingMeans(s: Tasks, me: Option<nat>, use: Use, w: Waker)
    ensures Used(s, me, use, w, DoAll(s, Using(s, me, use, w)))
  {
    var now := Using(s, me, use, w);
    if now != [] {
      DoAllOne(s, now[0]);
      if |now| == 1 {
        assert now == [now[0]];
      } else {
        assert now == [now[0]] + [now[1]];
        DoAllThen(s, [now[0]], [now[1]]);
        DoAllOne(Do(s, now[0]), now[1]);
      }
    }
  }

  /** A script that begins with a use of a waker makes that use, and goes on with the rest. */
  lemma UseMeans(s: Tasks, me: Option<nat>, use: Use, w: Waker, more: Effects, ops: Ops) returns (t: Tasks, rest: Ops)
    requires Follows(s, me, UseThen(use, w, more), ops)
    ensures Used(s, me, use, w, t) && Follows(t, me, more, rest) && DoAll(s, ops) == DoAll(t, rest)
  {
    var now := Using(s, me, use, w);
    t, rest := DoAll(s, now), ops[|now|..];
    assert ops == now + rest;
    UsingMeans(s, me, use, w);
    DoAllThen(s, now, rest);
  }

  /** One that begins with a spawn gives the new future a vacant slot of its own, awake, at the back of the queue and
      with no clone of its waker, and goes on as it does when given one; or, the table being full, as when refused. */
  lemma SpawnMeans(s: Tasks, me: Option<nat>, body: Future, given: Effects, refused: Effects, ops: Ops)
    requires Follows(s, me, SpawnThen(body, given, refused), ops)
    ensures |s.tasks| == s.capacity ==> Follows(s, me, refused, ops)
    ensures |s.tasks| != s.capacity ==>
      exists k: nat, rest: Ops ::
        && k < s.capacity && k !in s.tasks && ops == [Spawned(k, body)] + rest
        && var t := Sched(s.capacity, s.tasks[k := Entry(body, true, 1)], s.queue + [k]);
           Follows(t, me, given, rest) && DoAll(s, ops) == DoAll(t, rest)
  {
    if |s.tasks| != s.capacity {
      assert ops == [Spawned(ops[0].key, body)] + ops[1..];
    }
  }

  /** A destructor is loud exactly if it wakes or spawns: one that is not only clones and drops, and one that is leaves
      a wake or a spawn, unless its first such act is a spawn into a full table. */
  lemma {:induction false} LoudIsHeard(s: Tasks, e: Effects, ops: Ops)
    requires Follows(s, None, e, ops)
    ensures !Loud(s, e) ==> forall i :: 0 <= i < |ops| ==> ops[i].Cloned? || ops[i].Dropped?
    ensures Loud(s, e) ==> |s.tasks| == s.capacity || exists i :: 0 <= i < |ops| && (ops[i].Woken? || ops[i].Spawned?)
    decreases e
  {
    match e
    case Return =>
    case SpawnThen(_, _, _) =>
    case UseThen(use, w, more) =>
      var now := Using(s, None, use, w);
      var t, rest := DoAll(s, now), ops[|now|..];
      UsingIs(s, None, use, w);
      assert |t.tasks| == |s.tasks| by {
        assert |t.tasks.Keys| == |s.tasks.Keys|;
      }
      LoudIsHeard(t, more, rest);
      assert ops == now + rest;
      assert now != [] && now[0].Woken? ==> ops[0].Woken?;
      if i :| 0 <= i < |rest| && (rest[i].Woken? || rest[i].Spawned?) {
        assert ops[|now| + i] == rest[i];
      }
  }

  // ----- a poll

  lemma OthersKeep(s: Tasks, r: Record, k: nat)
    requires WellFormed(s) && Obeys(s, r) && k in s.tasks && k != r.key
    ensures k in After(s, r).tasks && After(s, r).tasks[k].fut == s.tasks[k].fut
  {
    hide WellFormed, Follows, Loud, DoAll;
    PollingKeeps(s, r.key, r.ops);
    var begun, mid := Do(s, Begun(r.key)), Mid(s, r.key, r.ops);
    DoWellFormed(s, Begun(r.key));
    FollowsKeeps(begun, Some(r.key), EffectsOf(s.tasks[r.key].fut), r.ops);
    DoNothing(mid);
    if r.fate.Completes? {
      FollowsKeeps(mid, None, DropsOf(s.tasks[r.key].fut), r.fate.drops);
    }
  }

  /** A poll of a pending future carries out its script and leaves its continuation in the slot. */
  lemma PendingMeans(s: Tasks, r: Record, e: Effects, rest: Future)
    requires WellFormed(s) && Polls(s, r) && s.tasks[r.key].fut == Poll(e, Pending(rest))
    ensures Follows(Do(s, Begun(r.key)), Some(r.key), e, r.ops) && r.fate == Stays(rest)
    ensures Obeys(s, r) && r.key in After(s, r).tasks && After(s, r).tasks[r.key].fut == rest
  {
    hide WellFormed, Follows, Loud, DoAll;
    PollsKeep(s, r);
  }

  /** A poll of one that is ready carries out its script, then its destructor's, and if no clone of its waker is left
      its slot is vacant. */
  lemma ReadyMeans(s: Tasks, r: Record, e: Effects, drops: Effects)
    requires WellFormed(s) && Polls(s, r) && s.tasks[r.key].fut == Poll(e, Ready(drops))
    ensures var begun := Do(s, Begun(r.key));
      && Follows(begun, Some(r.key), e, r.ops) && r.fate.Completes?
      && Follows(DoAll(begun, r.ops), None, drops, r.fate.drops)
      && var t := DoAll(DoAll(begun, r.ops), r.fate.drops);
         && r.key in t.tasks && (Obeys(s, r) <==> t.tasks[r.key].refs == 1)
         && (Obeys(s, r) ==> After(s, r).tasks == t.tasks - {r.key})
  {
    hide WellFormed, Follows, Loud, DoAll;
    PollsKeep(s, r);
  }

  /** A future whose polls are used up does nothing and stays. */
  lemma QuietMeans(s: Tasks, r: Record)
    requires WellFormed(s) && Polls(s, r) && s.tasks[r.key].fut == Quiet
    ensures r.ops == [] && r.fate == Stays(Quiet) && Obeys(s, r)
    ensures r.key in After(s, r).tasks && After(s, r).tasks[r.key].fut == Quiet
  {
    PollsKeep(s, r);
    NothingFollows(Do(s, Begun(r.key)), Some(r.key), r.ops);
  }

  // ----- when a future completes

  /** How many times a future is pending before it is ready, if it ever is. */
  ghost function Pendings(f: Future): Option<nat> {
    match f
    case Quiet => None
    case Poll(_, Ready(_)) => Some(0)
    case Poll(_, Pending(rest)) => if Pendings(rest).Some? then Some(Pendings(rest).value + 1) else None
  }

  ghost function PollsOf(log: seq<Record>, k: nat): nat {
    if log == [] then 0 else (if log[0].key == k then 1 else 0) + PollsOf(log[1..], k)
  }

  lemma NextPoll(s: Tasks, r: Record, k: nat)
    requires WellFormed(s) && Obeys(s, r) && k in s.tasks
    ensures WellFormed(After(s, r))
    ensures var before := Pendings(s.tasks[k].fut);
      if k != r.key then k in After(s, r).tasks && Pendings(After(s, r).tasks[k].fut) == before
      else
        && (r.fate.Completes? <==> before == Some(0))
        && (before != Some(0) ==>
              && k in After(s, r).tasks
              && Pendings(After(s, r).tasks[k].fut) == if before.Some? then Some(before.value - 1) else None)
  {
    hide WellFormed, Polls, After;
    FrontIsPolled(s, r);
    PollsKeep(s, r);
    if k != r.key {
      OthersKeep(s, r, k);
    } else {
      match s.tasks[k].fut
      case Quiet => QuietMeans(s, r);
      case Poll(e, Pending(rest)) => PendingMeans(s, r, e, rest);
      case Poll(e, Ready(drops)) => ReadyMeans(s, r, e, drops);
    }
  }

  /** A future that is pending `m` times completes at its next poll after those, and at no other; one that is never
      ready completes at none. */
  lemma {:induction false} CompletesAfterPendings(s: Tasks, log: seq<Record>, end: Tasks, k: nat, i: nat)
    requires WellFormed(s) && Runs(s, log, end) && k in s.tasks && i < |log| && log[i].key == k
    requires var m := Pendings(s.tasks[k].fut); m.Some? ==> PollsOf(log[..i], k) <= m.value
    ensures log[i].fate.Completes? <==> Pendings(s.tasks[k].fut) == Some(PollsOf(log[..i], k))
    decreases |log|
  {
    hide WellFormed, Obeys, After;
    NextPoll(s, log[0], k);
    if i > 0 {
      assert log[..i][1..] == log[1..][..i - 1] && log[1..][i - 1] == log[i];
      CompletesAfterPendings(After(s, log[0]), log[1..], end, k, i - 1);
    }
  }

  /** Until then it is live, with that many fewer polls to go. */
  lemma {:induction false} LiveUntilReady(s: Tasks, log: seq<Record>, end: Tasks, k: nat)
    requires WellFormed(s) && Runs(s, log, end) && k in s.tasks
    requires var m := Pendings(s.tasks[k].fut); m.Some? ==> PollsOf(log, k) <= m.value
    ensures k in end.tasks
    ensures var m := Pendings(s.tasks[k].fut);
      Pendings(end.tasks[k].fut) == if m.Some? then Some(m.value - PollsOf(log, k)) else None
    decreases |log|
  {
    hide WellFormed, Obeys, After;
    if log != [] {
      NextPoll(s, log[0], k);
      LiveUntilReady(After(s, log[0]), log[1..], end, k);
    }
  }
}
