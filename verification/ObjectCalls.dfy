/** What a run does to each object: whatever the schedule, the listener and every stream see the same calls, with
    the same outcomes, in the same order. */
module ObjectCalls {
  import opened FakeIo
  import opened Echo
  import opened Pipeline
  import opened PipelineRuns
  import Common

  /** The calls made on one object. */
  ghost function On(calls: seq<Call>, id: nat): seq<Call> {
    if calls == [] then []
    else (if IdOf(calls[0]) == Common.Some(id) then [calls[0]] else []) + On(calls[1..], id)
  }

  lemma {:induction false} OnThen(a: seq<Call>, b: seq<Call>, id: nat)
    ensures On(a + b, id) == On(a, id) + On(b, id)
    decreases |a|
  {
    if a == [] {
      assert a + b == b;
    } else {
      OnThen(a[1..], b, id);
      assert (a + b)[1..] == a[1..] + b;
      Common.Regroup(if IdOf(a[0]) == Common.Some(id) then [a[0]] else [], On(a[1..], id), On(b, id));
    }
  }

  lemma OnFew(a: Call, b: Call, id: nat)
    ensures On([a], id) == if IdOf(a) == Common.Some(id) then [a] else []
    ensures On([a, b], id) == On([a], id) + On([b], id)
  {
    assert [a][1..] == [];
    assert [a, b] == [a] + [b];
    OnThen([a], [b], id);
  }

  /** The accept calls of a listener that was called `calls` times. */
  ghost function AcceptCalls(calls: nat): seq<Call> {
    if calls == 0 then [] else AcceptCalls(calls - 1) + [AcceptCall(Blocks(calls))]
  }

  ghost function ListenerCalls(l: Ledger): seq<Call> {
    if l.listener.Unopened? then []
    else [RegisterCall(LISTENER)] + AcceptCalls(l.calls) + if l.listener.Closed? then [UnregisterCall(LISTENER)] else []
  }

  ghost function Turn(id: nat, phase: nat): seq<Call> {
    PhaseCalls(id, phase) + if phase < 2 then [] else [UnregisterCall(id)]
  }

  /** The calls on a stream that has had `turns` turns. */
  ghost function StreamCalls(id: nat, turns: nat): seq<Call> {
    if turns == 0 then [RegisterCall(id)] else StreamCalls(id, turns - 1) + Turn(id, turns - 1)
  }

  /** `calls` is what the ledger says object `id` has seen. */
  ghost predicate Seen(l: Ledger, id: nat, calls: seq<Call>) {
    if id == LISTENER then calls == ListenerCalls(l)
    else
      && (forall k :: k in l.conns && l.conns[k].id == id ==> calls == StreamCalls(id, l.conns[k].phase))
      && ((forall k :: k in l.conns ==> l.conns[k].id != id) ==>
            calls == if id % 2 == 0 && id <= l.calls then StreamCalls(id, 3) else [])
  }

  /** The calls of a move on one object. */
  ghost function MadeBy(l: Ledger, m: Move, id: nat): seq<Call>
    requires Enabled(l, m)
  {
    match m
    case OpenMove => if id == LISTENER then [RegisterCall(id)] else []
    case BlockMove => if id == LISTENER then [AcceptCall(true)] else []
    case AcceptMove(_) =>
      if id == LISTENER then [AcceptCall(false)] else if id == l.calls + 1 then [RegisterCall(id)] else []
    case ServeMove(k) => if id == l.conns[k].id then Turn(id, l.conns[k].phase) else []
    case CloseMove => if id == LISTENER then [UnregisterCall(id)] else []
    case PollMove => []
  }

  lemma TurnOn(c: Conn, id: nat)
    requires c.phase <= 2 && c.id != LISTENER
    ensures var made := PhaseCalls(c.id, c.phase) + if c.phase < 2 then [] else [UnregisterCall(c.id)];
      On(made, id) == if id == c.id then Turn(id, c.phase) else []
  {
    var made := PhaseCalls(c.id, c.phase) + if c.phase < 2 then [] else [UnregisterCall(c.id)];
    OnFew(made[0], made[|made| - 1], id);
    OnFew(made[|made| - 1], made[0], id);
    assert |made| == 1 ==> made == [made[0]];
    assert |made| == 2 ==> made == [made[0], made[1]];
  }

  lemma MadeOn(l: Ledger, m: Move, id: nat)
    requires Enabled(l, m) && (m.ServeMove? ==> l.conns[m.key].phase <= 2 && l.conns[m.key].id != LISTENER)
    ensures On(CallsOf(l, m), id) == MadeBy(l, m, id)
  {
    if m.ServeMove? {
      TurnOn(l.conns[m.key], id);
    } else {
      var made := CallsOf(l, m);
      OnFew(made[0], made[|made| - 1], id);
      OnFew(made[|made| - 1], made[0], id);
    }
  }

  /** No two live connections serve the same stream, and no stream is numbered beyond the calls made. */
  lemma IdsDiffer(l: Ledger)
    requires Inv(l)
    ensures forall j, k :: j in l.conns && k in l.conns && j != k ==> l.conns[j].id != l.conns[k].id
    ensures forall k :: k in l.conns ==> 0 < l.conns[k].id <= l.calls && l.conns[k].id % 2 == 0 && l.conns[k].phase <= 2
  {
    hide CallInv;
  }

  lemma MoveSeen(l: Ledger, m: Move, id: nat, calls: seq<Call>)
    requires Inv(l) && Enabled(l, m) && Seen(l, id, calls)
    ensures Seen(Apply(l, m), id, calls + On(CallsOf(l, m), id))
  {
    hide Inv;
    IdsDiffer(l);
    MadeOn(l, m, id);
    hide CallsOf, On, StreamCalls, AcceptCalls;
    if id == LISTENER {
      ListenerMoves(l, m, calls);
    } else if m.ServeMove? {
      ServeSeen(l, m.key, id, calls);
    } else if m.AcceptMove? {
      var a := Apply(l, m);
      assert forall j :: j in l.conns ==> j in a.conns && a.conns[j] == l.conns[j];
      assert calls + [] == calls;
      FirstCalls(id);
      assert id == l.calls + 1 ==> m.key in a.conns && calls == [];
    } else {
      assert calls + [] == calls;
    }
  }

  lemma ListenerMoves(l: Ledger, m: Move, calls: seq<Call>)
    requires Inv(l) && Enabled(l, m) && calls == ListenerCalls(l)
    ensures calls + On(CallsOf(l, m), LISTENER) == ListenerCalls(Apply(l, m))
  {
    hide CallInv, ConnInv;
    if m.ServeMove? {
      IdsDiffer(l);
    }
    MadeOn(l, m, LISTENER);
    hide On, CallsOf;
    assert AcceptCalls(l.calls + 1) == AcceptCalls(l.calls) + [AcceptCall(Blocks(l.calls + 1))];
  }

  lemma ServeSeen(l: Ledger, k: nat, id: nat, calls: seq<Call>)
    requires k in l.conns && l.conns[k].phase <= 2 && id != LISTENER && Seen(l, id, calls)
    requires forall j :: j in l.conns && j != k ==> l.conns[j].id != l.conns[k].id
    requires l.conns[k].id <= l.calls && l.conns[k].id % 2 == 0
    ensures Seen(Serve(l, k), id, calls + if id == l.conns[k].id then Turn(id, l.conns[k].phase) else [])
  {
    hide Turn, StreamCalls;
    var a := Serve(l, k);
    assert forall j :: j in l.conns && j != k ==> j in a.conns && a.conns[j] == l.conns[j];
    if id == l.conns[k].id {
      var phase := l.conns[k].phase;
      NextTurn(id, phase);
      assert calls == StreamCalls(id, phase);
      assert forall j :: j in a.conns && a.conns[j].id == id ==> j == k;
      if phase < 2 {
        assert k in a.conns && a.conns[k].phase == phase + 1;
      } else {
        assert k !in a.conns;
      }
    } else {
      assert calls + [] == calls;
    }
  }

  lemma NextTurn(id: nat, turns: nat)
    ensures StreamCalls(id, turns + 1) == StreamCalls(id, turns) + Turn(id, turns)
  {
  }

  lemma FirstCalls(id: nat)
    ensures StreamCalls(id, 0) == [RegisterCall(id)]
  {
  }

  lemma {:induction false} RunsSeen(l: Ledger, moves: seq<Move>, end: Ledger, id: nat, before: seq<Call>)
    requires Inv(l) && Runs(l, moves, end) && Seen(l, id, before)
    ensures Seen(end, id, before + On(Calls(l, moves), id))
    decreases |moves|
  {
    hide Inv, Seen, On;
    if moves == [] {
      OnNothing(id, before);
    } else {
      var made := CallsOf(l, moves[0]);
      ApplyInv(l, moves[0]);
      MoveSeen(l, moves[0], id, before);
      RunsSeen(Apply(l, moves[0]), moves[1..], end, id, before + On(made, id));
      OnThen(made, Calls(Apply(l, moves[0]), moves[1..]), id);
      Common.Regroup(before, On(made, id), On(Calls(Apply(l, moves[0]), moves[1..]), id));
    }
  }

  lemma OnNothing(id: nat, before: seq<Call>)
    ensures before + On([], id) == before
  {
  }

  /** All the calls an object sees in a complete run of `n` connections. */
  ghost function AllCalls(n: nat, id: nat): seq<Call> {
    if id == LISTENER then [RegisterCall(LISTENER)] + AcceptCalls(2 * n) + [UnregisterCall(LISTENER)]
    else if id % 2 == 0 && id <= 2 * n then
      [RegisterCall(id), ReadCall(id, true), ReadCall(id, false), WriteCall(id, REQUEST, true),
       WriteCall(id, REQUEST, false), UnregisterCall(id)]
    else []
  }

  lemma AllTurns(id: nat)
    ensures StreamCalls(id, 3) == [RegisterCall(id), ReadCall(id, true), ReadCall(id, false),
                                   WriteCall(id, REQUEST, true), WriteCall(id, REQUEST, false), UnregisterCall(id)]
  {
    assert StreamCalls(id, 1) == [RegisterCall(id), ReadCall(id, true)];
    assert StreamCalls(id, 2) == StreamCalls(id, 1) + [ReadCall(id, false), WriteCall(id, REQUEST, true)];
  }

  /** Every complete schedule makes the same calls on every object, with the same outcomes, in the same order. */
  lemma EveryObjectSeesTheSame(n: nat, moves: seq<Move>, end: Ledger, id: nat)
    requires Runs(Init(n), moves, end) && Finished(end)
    ensures On(Calls(Init(n), moves), id) == AllCalls(n, id)
  {
    InitInv(n);
    hide Inv;
    RunsInv(Init(n), moves, end);
    RunsSeen(Init(n), moves, end, id, []);
    AllAccepted(end);
    AllTurns(id);
    hide StreamCalls;
    assert [] + On(Calls(Init(n), moves), id) == On(Calls(Init(n), moves), id);
  }

  /** What a complete run of `n` connections leaves on the tape: the calls of a schedule, none of them wasted, and the
      same on each object whatever the schedule. */
  ghost predicate Complete(n: nat, moves: seq<Move>, end: Ledger, calls: seq<Call>) {
    && Runs(Init(n), moves, end) && Finished(end) && calls == Calls(Init(n), moves)
    && Frugal(calls) && forall id :: On(calls, id) == AllCalls(n, id)
  }

  lemma FinishedIsComplete(n: nat, moves: seq<Move>, end: Ledger)
    requires Runs(Init(n), moves, end) && Finished(end)
    ensures Complete(n, moves, end, Calls(Init(n), moves))
  {
    hide Frugal, On, Calls;
    NoWastedCall(n, moves, end);
    forall id
      ensures On(Calls(Init(n), moves), id) == AllCalls(n, id)
    {
      EveryObjectSeesTheSame(n, moves, end, id);
    }
  }

  lemma AllAccepted(l: Ledger)
    requires Inv(l) && Finished(l)
    ensures l.calls == 2 * l.n
  {
  }
}
