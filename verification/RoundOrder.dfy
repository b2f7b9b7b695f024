/** The order of the calls inside a round. Both servers serve the new streams after the older ones; the manual loop
    also accepts before it serves. Other schedules need not keep to either. */
module RoundOrder {
  import opened FakeIo
  import opened Echo
  import opened Pipeline
  import opened PipelineRuns
  import opened ObjectCalls
  import Common

  // ----- said of moves

  /** Since the last poll: whether a connection was served, the keys accepted, and whether one of those was served. */
  datatype Stage = Stage(served: bool, recent: set<nat>, recentServed: bool)

  const ROUND_START := Stage(false, {}, false)

  /** Whether `m` may come next; `first` asks that accepts come before services. */
  predicate Allows(first: bool, a: Stage, m: Move) {
    match m
    case BlockMove => first ==> !a.served
    case AcceptMove(_) => first ==> !a.served
    case ServeMove(k) => a.recentServed ==> k in a.recent
    case _ => true
  }

  function Passes(a: Stage, m: Move): Stage {
    match m
    case AcceptMove(k) => a.(recent := a.recent + {k})
    case ServeMove(k) => Stage(true, a.recent, a.recentServed || k in a.recent)
    case PollMove => ROUND_START
    case _ => a
  }

  ghost function StageAfter(a: Stage, moves: seq<Move>): Stage
    decreases |moves|
  {
    if moves == [] then a else StageAfter(Passes(a, moves[0]), moves[1..])
  }

  ghost predicate InRounds(first: bool, a: Stage, moves: seq<Move>)
    decreases |moves|
  {
    moves == [] || (Allows(first, a, moves[0]) && InRounds(first, Passes(a, moves[0]), moves[1..]))
  }

  lemma {:induction false} InRoundsThen(first: bool, a: Stage, x: seq<Move>, y: seq<Move>)
    ensures StageAfter(a, x + y) == StageAfter(StageAfter(a, x), y)
    ensures InRounds(first, a, x + y) <==> InRounds(first, a, x) && InRounds(first, StageAfter(a, x), y)
    decreases |x|
  {
    if x == [] {
      assert x + y == y;
    } else {
      InRoundsThen(first, Passes(a, x[0]), x[1..], y);
      assert (x + y)[1..] == x[1..] + y;
    }
  }

  ghost function KeySet(keys: seq<nat>): set<nat> {
    set k | k in keys
  }

  lemma KeySetThen(keys: seq<nat>, k: nat)
    ensures KeySet([]) == {} && KeySet(keys + [k]) == KeySet(keys) + {k}
  {
  }

  lemma {:induction false} AcceptsInRounds(first: bool, a: Stage, keys: seq<nat>)
    requires first ==> !a.served
    ensures InRounds(first, a, Accepts(keys))
    ensures StageAfter(a, Accepts(keys)) == a.(recent := a.recent + KeySet(keys))
    decreases |keys|
  {
    hide KeySet, InRounds, StageAfter;
    KeySetThen([], 0);
    NoMove(first, a);
    if keys == [] {
      assert a.recent + {} == a.recent;
    } else {
      var rest, k := keys[..|keys| - 1], keys[|keys| - 1];
      AcceptsInRounds(first, a, rest);
      InRoundsThen(first, a, Accepts(rest), [AcceptMove(k)]);
      OneMove(first, StageAfter(a, Accepts(rest)), AcceptMove(k));
      assert keys == rest + [k];
      KeySetThen(rest, k);
      assert a.recent + KeySet(rest) + {k} == a.recent + KeySet(keys);
    }
  }

  lemma OneMove(first: bool, a: Stage, m: Move)
    ensures StageAfter(a, [m]) == Passes(a, m) && (InRounds(first, a, [m]) <==> Allows(first, a, m))
  {
    assert [m][1..] == [];
  }

  /** The older keys, then the recent ones. */
  lemma {:induction false} ServesLast(a: Stage, earlier: seq<nat>, keys: seq<nat>)
    requires forall k :: k in earlier ==> k !in a.recent
    requires forall k :: k in keys ==> k in a.recent
    requires a.recentServed ==> earlier == []
    ensures InRounds(true, a, Serves(earlier + keys))
    decreases |earlier| + |keys|
  {
    var all := earlier + keys;
    if all != [] {
      var next := Passes(a, ServeMove(all[0]));
      assert Serves(all)[1..] == Serves(all[1..]);
      if earlier != [] {
        assert all[1..] == earlier[1..] + keys;
        ServesLast(next, earlier[1..], keys);
      } else {
        assert all[1..] == earlier + keys[1..];
        ServesLast(next, earlier, keys[1..]);
      }
    }
  }

  /** A round of the manual loop, up to its poll. */
  lemma RoundInRounds(earlier: seq<nat>, keys: seq<nat>, blocks: seq<Move>)
    requires forall k :: k in earlier ==> k !in keys
    requires blocks == [] || blocks == [BlockMove]
    ensures InRounds(true, ROUND_START, Accepts(keys) + blocks + Serves(earlier + keys))
  {
    hide InRounds, StageAfter;
    AcceptsInRounds(true, ROUND_START, keys);
    var mid := StageAfter(ROUND_START, Accepts(keys));
    if blocks == [] {
      assert Accepts(keys) + blocks == Accepts(keys);
    } else {
      InRoundsThen(true, ROUND_START, Accepts(keys), blocks);
      OneMove(true, mid, BlockMove);
    }
    ServesLast(mid, earlier, keys);
    InRoundsThen(true, ROUND_START, Accepts(keys) + blocks, Serves(earlier + keys));
  }

  /** A whole round, after others. */
  lemma RoundThen(moves: seq<Move>, queue: seq<nat>, keys: seq<nat>, blocks: seq<Move>, poll: seq<Move>)
    requires InRounds(true, ROUND_START, moves) && StageAfter(ROUND_START, moves) == ROUND_START
    requires forall k :: k in queue ==> k !in keys
    requires blocks == [] || blocks == [BlockMove]
    requires poll == [] || poll == [PollMove]
    ensures var all := moves + (Accepts(keys) + blocks) + Serves(queue + keys) + poll;
      InRounds(true, ROUND_START, all) && (poll != [] ==> StageAfter(ROUND_START, all) == ROUND_START)
  {
    hide InRounds, StageAfter;
    var round := Accepts(keys) + blocks + Serves(queue + keys);
    RoundInRounds(queue, keys, blocks);
    InRoundsThen(true, ROUND_START, moves, round);
    assert moves + (Accepts(keys) + blocks) + Serves(queue + keys) == moves + round;
    if poll == [] {
      assert moves + round + poll == moves + round;
    } else {
      InRoundsThen(true, ROUND_START, moves + round, poll);
      OneMove(true, StageAfter(ROUND_START, moves + round), PollMove);
    }
  }

  lemma OpensInRounds(m: Move)
    requires m == OpenMove
    ensures InRounds(true, ROUND_START, [m]) && StageAfter(ROUND_START, [m]) == ROUND_START
  {
    OneMove(true, ROUND_START, m);
  }

  lemma ClosesInRounds(moves: seq<Move>)
    requires InRounds(true, ROUND_START, moves)
    ensures InRounds(true, ROUND_START, moves + [CloseMove])
  {
    InRoundsThen(true, ROUND_START, moves, [CloseMove]);
    OneMove(true, StageAfter(ROUND_START, moves), CloseMove);
  }

  // ----- first in, first out

  /** The new connections stand last in the queue, and once one of them has been served no other is in it. */
  ghost predicate NewBehind(a: Stage, queue: seq<nat>) {
    && (forall i, j :: 0 <= i < j < |queue| && queue[i] in a.recent ==> queue[j] in a.recent)
    && (a.recentServed ==> forall k :: k in queue ==> k in a.recent)
  }

  /** What a queue served in order keeps. */
  ghost predicate InOrder(moves: seq<Move>, queue: seq<nat>) {
    InRounds(false, ROUND_START, moves) && NewBehind(StageAfter(ROUND_START, moves), queue)
  }

  lemma InOrderStart()
    ensures InOrder([], [])
  {
  }

  /** A queue of one old task. */
  lemma InOrderOne(k: nat)
    ensures InOrder([], [k])
  {
  }

  /** The front connection is taken off the queue and served. */
  lemma InOrderServe(moves: seq<Move>, queue: seq<nat>)
    requires queue != [] && InOrder(moves, queue)
    ensures InOrder(moves + [ServeMove(queue[0])], queue[1..])
  {
    var a, m := StageAfter(ROUND_START, moves), ServeMove(queue[0]);
    InRoundsThen(false, ROUND_START, moves, [m]);
    OneMove(false, a, m);
    assert queue[0] in queue;
    assert forall k :: k in queue[1..] ==> k in queue;
    if queue[0] in a.recent {
      forall k | k in queue[1..]
        ensures k in a.recent
      {
        var j :| 1 <= j < |queue| && queue[j] == k;
      }
    }
  }

  /** The listener is taken off it, and the connections it accepts join at the back. */
  lemma InOrderListen(moves: seq<Move>, queue: seq<nat>, opens: seq<Move>, keys: seq<nat>, ends: Move)
    requires queue != [] && InOrder(moves, queue) && forall k :: k in keys ==> k !in queue[1..]
    requires opens == [] || opens == [OpenMove]
    requires ends == BlockMove || ends == CloseMove
    ensures InOrder(moves + (opens + Accepts(keys) + [ends]), queue[1..] + keys)
  {
    hide InRounds, StageAfter;
    var a := StageAfter(ROUND_START, moves);
    InRoundsThen(false, ROUND_START, moves, opens + Accepts(keys) + [ends]);
    InRoundsThen(false, a, opens + Accepts(keys), [ends]);
    InRoundsThen(false, a, opens, Accepts(keys));
    NoMove(false, a);
    OneMove(false, a, OpenMove);
    AcceptsInRounds(false, a, keys);
    OneMove(false, StageAfter(a, opens + Accepts(keys)), ends);
    var b := a.(recent := a.recent + KeySet(keys));
    assert StageAfter(ROUND_START, moves + (opens + Accepts(keys) + [ends])) == b;
    JoinBehind(a, queue, keys);
  }

  lemma JoinBehind(a: Stage, queue: seq<nat>, keys: seq<nat>)
    requires queue != [] && NewBehind(a, queue) && forall k :: k in keys ==> k !in queue[1..]
    ensures NewBehind(a.(recent := a.recent + KeySet(keys)), queue[1..] + keys)
  {
  }

  lemma NoMove(first: bool, a: Stage)
    ensures InRounds(first, a, []) && StageAfter(a, []) == a
  {
  }

  lemma InOrderPoll(moves: seq<Move>, queue: seq<nat>, after: seq<nat>)
    requires InOrder(moves, queue)
    ensures InOrder(moves + [PollMove], after)
  {
    InRoundsThen(false, ROUND_START, moves, [PollMove]);
    OneMove(false, StageAfter(ROUND_START, moves), PollMove);
  }

  // ----- said of calls

  predicate Works(c: Call) {
    c.ReadCall? || c.WriteCall?
  }

  /** The stream of this read or write was registered in the same round. */
  ghost predicate NewAt(calls: seq<Call>, i: nat)
    requires i < |calls| && Works(calls[i])
  {
    exists p :: 0 <= p < i && calls[p] == RegisterCall(calls[i].id) && !PollWithin(calls, p, i)
  }

  /** No accept follows a read or a write in the same round. */
  ghost predicate AcceptsFirst(calls: seq<Call>) {
    forall i, j :: 0 <= i < j < |calls| && Works(calls[i]) && calls[j].AcceptCall? ==> PollWithin(calls, i, j)
  }

  /** Once a stream accepted in a round has been read or written, no older one is in that round. */
  ghost predicate NewLast(calls: seq<Call>) {
    forall i, j :: 0 <= i < j < |calls| && Works(calls[i]) && Works(calls[j]) && NewAt(calls, i) ==>
      PollWithin(calls, i, j) || NewAt(calls, j)
  }

  ghost predicate Ordered(first: bool, calls: seq<Call>) {
    (first ==> AcceptsFirst(calls)) && NewLast(calls)
  }

  /** Since the last poll: whether there was a read or a write, the streams registered, and whether one of those was
      read or written. */
  ghost function StageOf(calls: seq<Call>): Stage {
    if calls == [] then ROUND_START
    else
      var a := StageOf(calls[..|calls| - 1]);
      match calls[|calls| - 1]
      case PollCall => ROUND_START
      case RegisterCall(id) => a.(recent := a.recent + {id})
      case ReadCall(id, _) => Stage(true, a.recent, a.recentServed || id in a.recent)
      case WriteCall(id, _, _) => Stage(true, a.recent, a.recentServed || id in a.recent)
      case _ => a
  }

  lemma PollWithinRest(calls: seq<Call>, i: nat, j: nat)
    requires i < j <= |calls| && calls != []
    ensures var rest, n := calls[..|calls| - 1], |calls| - 1;
      && (j <= n ==> (PollWithin(calls, i, j) <==> PollWithin(rest, i, j)))
      && (i < n && j == |calls| ==> (PollWithin(calls, i, j) <==> PollWithin(rest, i, n) || calls[n].PollCall?))
  {
    var rest, n := calls[..|calls| - 1], |calls| - 1;
    if i < n && j == |calls| && calls[n].PollCall? {
      assert i < n < j && calls[n].PollCall?;
    }
    if PollWithin(calls, i, j) {
      var p :| i < p < j && calls[p].PollCall?;
      assert p < n ==> rest[p].PollCall?;
    }
    if j <= n && PollWithin(rest, i, j) {
      var p :| i < p < j && rest[p].PollCall?;
      assert calls[p].PollCall?;
    }
    if i < n && PollWithin(rest, i, n) {
      var p :| i < p < n && rest[p].PollCall?;
      assert calls[p].PollCall?;
    }
  }

  lemma {:induction false} ServedSince(calls: seq<Call>, i: nat)
    requires i < |calls| && Works(calls[i]) && !PollWithin(calls, i, |calls|)
    ensures StageOf(calls).served
  {
    if i < |calls| - 1 {
      PollWithinRest(calls, i, |calls|);
      ServedSince(calls[..|calls| - 1], i);
    }
  }

  lemma {:induction false} RecentSince(calls: seq<Call>, p: nat, id: nat)
    requires p < |calls| && calls[p] == RegisterCall(id) && !PollWithin(calls, p, |calls|)
    ensures id in StageOf(calls).recent
  {
    if p < |calls| - 1 {
      PollWithinRest(calls, p, |calls|);
      RecentSince(calls[..|calls| - 1], p, id);
    }
  }

  lemma {:induction false} RecentWasRegistered(calls: seq<Call>, id: nat) returns (p: nat)
    requires id in StageOf(calls).recent
    ensures p < |calls| && calls[p] == RegisterCall(id) && !PollWithin(calls, p, |calls|)
  {
    var n := |calls| - 1;
    if calls[n] == RegisterCall(id) {
      p := n;
    } else {
      p := RecentWasRegistered(calls[..n], id);
      PollWithinRest(calls, p, |calls|);
    }
  }

  lemma NewAtRest(calls: seq<Call>, i: nat)
    requires i < |calls| - 1 && Works(calls[i])
    ensures NewAt(calls, i) <==> NewAt(calls[..|calls| - 1], i)
  {
    var rest := calls[..|calls| - 1];
    forall p | 0 <= p < i
      ensures PollWithin(calls, p, i) <==> PollWithin(rest, p, i)
    {
      PollWithinRest(calls, p, i);
    }
    assert forall p :: 0 <= p < i ==> calls[p] == rest[p];
  }

  lemma {:induction false} RecentServedSince(calls: seq<Call>, i: nat)
    requires i < |calls| && Works(calls[i]) && NewAt(calls, i) && !PollWithin(calls, i, |calls|)
    ensures StageOf(calls).recentServed
  {
    var rest := calls[..|calls| - 1];
    if i < |calls| - 1 {
      PollWithinRest(calls, i, |calls|);
      NewAtRest(calls, i);
      RecentServedSince(rest, i);
    } else {
      var p :| 0 <= p < i && calls[p] == RegisterCall(calls[i].id) && !PollWithin(calls, p, i);
      PollWithinRest(calls, p, i);
      RecentSince(rest, p, calls[i].id);
    }
  }

  predicate Suits(first: bool, a: Stage, c: Call) {
    && (first && c.AcceptCall? ==> !a.served)
    && (Works(c) && a.recentServed ==> c.id in a.recent)
  }

  lemma OrderedThen(first: bool, calls: seq<Call>, c: Call)
    requires Ordered(first, calls) && Suits(first, StageOf(calls), c)
    ensures Ordered(first, calls + [c])
  {
    var all, n := calls + [c], |calls|;
    assert all[..|all| - 1] == calls;
    forall i | 0 <= i < n && Works(all[i])
      ensures first && c.AcceptCall? ==> PollWithin(all, i, n)
      ensures Works(c) && NewAt(all, i) ==> PollWithin(all, i, n) || NewAt(all, n)
    {
      PollWithinRest(all, i, n);
      NewAtRest(all, i);
      if !PollWithin(all, i, n) {
        ServedSince(calls, i);
        if Works(c) && NewAt(all, i) {
          RecentServedSince(calls, i);
          var p := RecentWasRegistered(calls, c.id);
          PollWithinRest(all, p, n);
          assert all[p] == RegisterCall(all[n].id);
        }
      }
    }
    forall i, j | 0 <= i < j < n && Works(all[i])
      ensures first && all[j].AcceptCall? ==> PollWithin(all, i, j)
      ensures Works(all[j]) && NewAt(all, i) ==> PollWithin(all, i, j) || NewAt(all, j)
    {
      PollWithinRest(all, i, j);
      NewAtRest(all, i);
      if Works(all[j]) {
        NewAtRest(all, j);
      }
      assert all[i] == calls[i] && all[j] == calls[j];
    }
  }

  // ----- from moves to calls

  /** The stage of the moves is that of the calls, connections standing for their streams. */
  ghost predicate SameStage(l: Ledger, a: Stage, b: Stage) {
    && a.served == b.served && a.recentServed == b.recentServed
    && (forall k :: k in l.conns ==> (k in a.recent <==> l.conns[k].id in b.recent))
    && (forall id :: id in b.recent ==> id <= l.calls)
  }

  lemma StageThen(calls: seq<Call>, c: Call)
    ensures var a := StageOf(calls);
      StageOf(calls + [c]) ==
        match c
        case PollCall => ROUND_START
        case RegisterCall(id) => a.(recent := a.recent + {id})
        case ReadCall(id, _) => Stage(true, a.recent, a.recentServed || id in a.recent)
        case WriteCall(id, _, _) => Stage(true, a.recent, a.recentServed || id in a.recent)
        case _ => a
  {
    assert (calls + [c])[..|calls|] == calls;
  }

  lemma MoveOrdered(first: bool, l: Ledger, m: Move, a: Stage, before: seq<Call>)
    requires Inv(l) && Enabled(l, m) && Allows(first, a, m)
    requires Ordered(first, before) && SameStage(l, a, StageOf(before))
    ensures Ordered(first, before + CallsOf(l, m))
    ensures SameStage(Apply(l, m), Passes(a, m), StageOf(before + CallsOf(l, m)))
  {
    hide Ordered, StageOf, Inv;
    IdsDiffer(l);
    var made := CallsOf(l, m);
    StageThen(before, made[0]);
    OrderedThen(first, before, made[0]);
    if |made| == 1 {
      assert before + made == before + [made[0]];
    } else {
      var mid := before + [made[0]];
      assert before + made == mid + [made[1]];
      StageThen(mid, made[1]);
      OrderedThen(first, mid, made[1]);
    }
  }

  lemma {:induction false} RunsOrdered(first: bool, l: Ledger, moves: seq<Move>, end: Ledger,
                                       a: Stage, before: seq<Call>)
    requires Inv(l) && Runs(l, moves, end) && InRounds(first, a, moves)
    requires Ordered(first, before) && SameStage(l, a, StageOf(before))
    ensures Ordered(first, before + Calls(l, moves))
    decreases |moves|
  {
    hide Inv, Ordered, StageOf, SameStage;
    if moves == [] {
      assert before + Calls(l, moves) == before;
    } else {
      var made, rest := CallsOf(l, moves[0]), Calls(Apply(l, moves[0]), moves[1..]);
      ApplyInv(l, moves[0]);
      MoveOrdered(first, l, moves[0], a, before);
      RunsOrdered(first, Apply(l, moves[0]), moves[1..], end, Passes(a, moves[0]), before + made);
      Common.Regroup(before, made, rest);
    }
  }

  /** The calls of a run that keeps to the rounds are in order. */
  lemma RoundsAreOrdered(first: bool, n: nat, moves: seq<Move>, end: Ledger)
    requires Runs(Init(n), moves, end) && InRounds(first, ROUND_START, moves)
    ensures NewLast(Calls(Init(n), moves)) && (first ==> AcceptsFirst(Calls(Init(n), moves)))
  {
    InitInv(n);
    RunsOrdered(first, Init(n), moves, end, ROUND_START, []);
    assert [] + Calls(Init(n), moves) == Calls(Init(n), moves);
  }
}
