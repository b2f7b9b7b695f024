/** Every schedule of the pipeline. The two servers are two of them: the manual loop always accepts
    before it serves, the async server does whatever its queue holds next. */
module PipelineRuns {
  import opened FakeIo
  import opened Echo
  import opened Pipeline
  import Common

  datatype Move = OpenMove | BlockMove | AcceptMove(key: nat) | ServeMove(key: nat) | CloseMove | PollMove

  ghost predicate Enabled(l: Ledger, m: Move) {
    match m
    case OpenMove => CanOpen(l)
    case BlockMove => CanAccept(l) && Blocks(l.calls + 1)
    case AcceptMove(k) => CanAccept(l) && !Blocks(l.calls + 1) && k !in l.conns
    case ServeMove(k) => k in l.todo && k in l.conns
    case CloseMove => CanClose(l)
    case PollMove => CanPoll(l)
  }

  ghost function Apply(l: Ledger, m: Move): Ledger
    requires Enabled(l, m)
  {
    match m
    case OpenMove => OpenListener(l)
    case BlockMove => AcceptBlocks(l)
    case AcceptMove(k) => AcceptConn(l, k)
    case ServeMove(k) => Serve(l, k)
    case CloseMove => CloseListener(l)
    case PollMove => PollAll(l)
  }

  ghost predicate Runs(l: Ledger, moves: seq<Move>, end: Ledger)
    decreases |moves|
  {
    if moves == [] then end == l
    else Enabled(l, moves[0]) && Runs(Apply(l, moves[0]), moves[1..], end)
  }

  lemma {:induction false} RunsThen(l: Ledger, moves: seq<Move>, mid: Ledger, m: Move)
    requires Runs(l, moves, mid) && Enabled(mid, m)
    ensures Runs(l, moves + [m], Apply(mid, m))
    decreases |moves|
  {
    if moves == [] {
      assert (moves + [m])[1..] == [];
    } else {
      RunsThen(Apply(l, moves[0]), moves[1..], mid, m);
      assert (moves + [m])[1..] == moves[1..] + [m];
    }
  }

  // ----- the calls a schedule makes

  /** The I/O calls of one move, each on the object it names. */
  ghost function CallsOf(l: Ledger, m: Move): seq<Call>
    requires Enabled(l, m)
  {
    match m
    case OpenMove => [RegisterCall(LISTENER)]
    case BlockMove => [AcceptCall(true)]
    case AcceptMove(_) => [AcceptCall(false), RegisterCall(l.calls + 1)]
    case ServeMove(k) =>
      var c := l.conns[k];
      PhaseCalls(c.id, c.phase) + if c.phase < 2 then [] else [UnregisterCall(c.id)]
    case CloseMove => [UnregisterCall(LISTENER)]
    case PollMove => [PollCall]
  }

  ghost function Calls(l: Ledger, moves: seq<Move>): seq<Call>
    decreases |moves|
  {
    if moves == [] || !Enabled(l, moves[0]) then []
    else CallsOf(l, moves[0]) + Calls(Apply(l, moves[0]), moves[1..])
  }

  lemma {:induction false} CallsThen(l: Ledger, moves: seq<Move>, mid: Ledger, m: Move)
    requires Runs(l, moves, mid) && Enabled(mid, m)
    ensures Calls(l, moves + [m]) == Calls(l, moves) + CallsOf(mid, m)
    decreases |moves|
  {
    if moves == [] {
      assert (moves + [m])[1..] == [];
    } else {
      CallsThen(Apply(l, moves[0]), moves[1..], mid, m);
      assert (moves + [m])[1..] == moves[1..] + [m];
    }
  }

  /** A run so far: the moves that led to `l`, and the tape when it began. */
  datatype Trail = Trail(l: Ledger, moves: seq<Move>, start: Tape)

  /** From `start` on, the tape shows exactly the calls of these moves. */
  ghost predicate Recorded(r: Trail, tape: Tape) {
    && Runs(Init(r.l.n), r.moves, r.l)
    && tape == NoteAll(r.start, Calls(Init(r.l.n), r.moves)) && tape.metrics == Plus(r.start.metrics, r.l.m)
  }

  ghost function Advance(r: Trail, m: Move): Trail {
    if Enabled(r.l, m) then Trail(Apply(r.l, m), r.moves + [m], r.start) else r
  }

  /** From `a` to `b` the run made just these moves. */
  ghost predicate Moved(a: Trail, b: Trail, moves: seq<Move>) {
    a.l.n == b.l.n && a.start == b.start && b.moves == a.moves + moves
  }

  lemma MovedThen(a: Trail, b: Trail, c: Trail, x: seq<Move>, y: seq<Move>)
    requires Moved(a, b, x) && Moved(b, c, y)
    ensures Moved(a, c, x + y)
  {
    assert a.moves + x + y == a.moves + (x + y);
  }

  ghost function Accepts(keys: seq<nat>): seq<Move> {
    if keys == [] then [] else Accepts(keys[..|keys| - 1]) + [AcceptMove(keys[|keys| - 1])]
  }

  lemma AcceptsOne(keys: seq<nat>, k: nat)
    ensures Accepts(keys + [k]) == Accepts(keys) + [AcceptMove(k)]
  {
    assert (keys + [k])[..|keys|] == keys;
  }

  ghost function Serves(keys: seq<nat>): seq<Move> {
    if keys == [] then [] else [ServeMove(keys[0])] + Serves(keys[1..])
  }

  lemma ServesFirst(keys: seq<nat>)
    requires keys != []
    ensures Serves(keys) == [ServeMove(keys[0])] + Serves(keys[1..])
  {
  }

  lemma ServesNone()
    ensures Serves([]) == []
  {
  }

  lemma MovedNone(r: Trail)
    ensures Moved(r, r, [])
  {
  }

  lemma RecordedInit(n: nat, start: Tape)
    ensures Recorded(Trail(Init(n), [], start), start)
  {
  }

  /** One more move costs the calls it makes. */
  lemma RecordedThen(r: Trail, tape: Tape, m: Move)
    requires Recorded(r, tape) && Enabled(r.l, m) && (m.ServeMove? ==> r.l.conns[m.key].phase <= 2)
    ensures Recorded(Advance(r, m), NoteAll(tape, CallsOf(r.l, m)))
    ensures Moved(r, Advance(r, m), [m])
  {
    RunsThen(Init(r.l.n), r.moves, r.l, m);
    CallsThen(Init(r.l.n), r.moves, r.l, m);
    NoteAllThen(r.start, Calls(Init(r.l.n), r.moves), CallsOf(r.l, m));
    CallsCost(r.l, m, r.start.metrics, tape);
  }

  lemma ServeCost(l: Ledger, k: nat, base: Metrics, tape: Tape)
    requires k in l.conns && k in l.todo && l.conns[k].phase <= 2 && tape.metrics == Plus(base, l.m)
    ensures var calls := CallsOf(l, ServeMove(k));
      NoteAll(tape, calls) == Tape(Plus(base, Serve(l, k).m), tape.log + calls) && Serve(l, k).n == l.n
  {
    var c := l.conns[k];
    NoteTwo(tape, ReadCall(c.id, true), PollCall);
    NoteTwo(tape, ReadCall(c.id, false), WriteCall(c.id, REQUEST, true));
    NoteTwo(tape, WriteCall(c.id, REQUEST, false), UnregisterCall(c.id));
    assert PhaseCalls(c.id, c.phase) + [] == PhaseCalls(c.id, c.phase);
  }

  lemma CallsCost(l: Ledger, m: Move, base: Metrics, tape: Tape)
    requires Enabled(l, m) && (m.ServeMove? ==> l.conns[m.key].phase <= 2) && tape.metrics == Plus(base, l.m)
    ensures NoteAll(tape, CallsOf(l, m)) == Tape(Plus(base, Apply(l, m).m), tape.log + CallsOf(l, m))
    ensures Apply(l, m).n == l.n
  {
    var calls := CallsOf(l, m);
    if m.ServeMove? {
      ServeCost(l, m.key, base, tape);
    } else {
      NoteTwo(tape, calls[0], RegisterCall(l.calls + 1));
    }
  }

  lemma ApplyInv(l: Ledger, m: Move)
    requires Inv(l) && Enabled(l, m)
    ensures Inv(Apply(l, m)) && Apply(l, m).n == l.n
  {
    hide Inv;
    match m
    case OpenMove => OpenListenerInv(l);
    case BlockMove => AcceptBlocksInv(l);
    case AcceptMove(k) => AcceptConnInv(l, k);
    case ServeMove(k) => ServeInv(l, k);
    case CloseMove => CloseListenerInv(l);
    case PollMove => PollAllInv(l);
  }

  /** How many moves are left, exactly. */
  ghost function Work(l: Ledger): int {
    var (a, b, c) := Tally(l.conns);
    (if l.listener.Unopened? then 1 else 0) + (if l.listener.Closed? then 0 else 1)
    + (2 * l.n - l.calls) + 3 * l.left + 3 * a + 2 * b + c + Polls(l.n) - l.m.poll
  }

  lemma ServeWork(l: Ledger, k: nat)
    requires k in l.conns && l.conns[k].phase <= 2
    ensures Work(Serve(l, k)) == Work(l) - 1
  {
    hide Tally;
    var c := l.conns[k];
    if c.phase == 2 {
      TallyClose(l.conns, k);
    } else {
      TallyAdvance(l.conns, k, c.(phase := c.phase + 1));
    }
  }

  lemma ApplyWork(l: Ledger, m: Move)
    requires Inv(l) && Enabled(l, m)
    ensures Work(Apply(l, m)) == Work(l) - 1
  {
    hide Inv, Tally, Serve;
    match m
    case AcceptMove(k) => TallyNew(l.conns, k, Conn(l.calls + 1, l.m.poll, 0));
    case ServeMove(k) =>
      PhaseBound(l, k);
      ServeWork(l, k);
    case _ =>
  }

  lemma {:induction false} RunsInv(l: Ledger, moves: seq<Move>, end: Ledger)
    requires Inv(l) && Runs(l, moves, end)
    ensures Inv(end) && end.n == l.n && |moves| == Work(l) - Work(end)
    decreases |moves|
  {
    hide Inv, Work;
    if moves != [] {
      ApplyInv(l, moves[0]);
      ApplyWork(l, moves[0]);
      RunsInv(Apply(l, moves[0]), moves[1..], end);
    }
  }

  lemma WorkLeft(l: Ledger)
    requires Inv(l)
    ensures Work(l) >= 0
  {
  }

  lemma WorkDone(l: Ledger)
    requires Inv(l) && Finished(l)
    ensures Work(l) == 0
  {
  }

  /** No state of the pipeline is stuck short of its end. */
  lemma NeverStuck(l: Ledger) returns (m: Move)
    requires Inv(l) && !Finished(l)
    ensures Enabled(l, m)
  {
    hide Tally, OneARound;
    if l.listener.Unopened? {
      m := OpenMove;
    } else if k :| k in l.todo {
      m := ServeMove(k);
    } else if l.listener.Open? && l.left > 0 && l.ready {
      if Blocks(l.calls + 1) {
        m := BlockMove;
      } else {
        Common.VacantSomewhere(l.conns.Keys);
        var k: nat :| k !in l.conns.Keys;
        m := AcceptMove(k);
      }
    } else if l.left > 0 || l.conns != map[] {
      assert l.todo == {};
      m := PollMove;
    } else {
      m := CloseMove;
    }
  }

  /** Whatever the schedule and the keys, no run of `n` connections is longer than `5n + 2` moves and the polls,
      and a run that can go no further has finished, at exactly that length, with the closed counts. */
  lemma EveryScheduleFinishes(n: nat, moves: seq<Move>, end: Ledger)
    requires Runs(Init(n), moves, end)
    ensures |moves| <= 5 * n + 2 + Polls(n)
    ensures (forall m :: !Enabled(end, m)) ==> Finished(end)
    ensures Finished(end) ==> |moves| == 5 * n + 2 + Polls(n) && end.m == Expected(n)
  {
    hide Inv;
    InitInv(n);
    TallyEmpty();
    RunsInv(Init(n), moves, end);
    WorkLeft(end);
    if !Finished(end) {
      var m := NeverStuck(end);
      assert Enabled(end, m);
    } else {
      FinishedCounts(end);
      WorkDone(end);
    }
  }

  // ----- no wasted call

  /** After a call on an object has blocked, no call names that object until the next poll. In particular an object
      blocks at most once between two polls, and that is the last call on it. */
  ghost predicate Frugal(calls: seq<Call>) {
    forall i, j :: 0 <= i < j < |calls| && Blocked(calls[i]) && IdOf(calls[j]) == IdOf(calls[i]) ==>
      PollWithin(calls, i, j)
  }

  ghost predicate PollWithin(calls: seq<Call>, i: nat, j: nat)
    requires j <= |calls|
  {
    exists p :: i < p < j && calls[p].PollCall?
  }

  /** The objects that have blocked since the last poll. */
  ghost function Waiting(calls: seq<Call>): set<nat> {
    if calls == [] then {}
    else
      var c := calls[|calls| - 1];
      if c.PollCall? then {}
      else Waiting(calls[..|calls| - 1]) + if Blocked(c) then {IdOf(c).value} else {}
  }

  lemma {:induction false} WaitingSincePoll(calls: seq<Call>, i: nat)
    requires i < |calls| && Blocked(calls[i]) && !PollWithin(calls, i, |calls|)
    ensures IdOf(calls[i]).value in Waiting(calls)
  {
    if i < |calls| - 1 {
      var rest := calls[..|calls| - 1];
      assert PollWithin(rest, i, |rest|) ==> PollWithin(calls, i, |calls|);
      WaitingSincePoll(rest, i);
    }
  }

  lemma FrugalThen(calls: seq<Call>, c: Call)
    requires Frugal(calls) && (IdOf(c).Some? ==> IdOf(c).value !in Waiting(calls))
    ensures Frugal(calls + [c])
    ensures Waiting(calls + [c]) ==
      if c.PollCall? then {} else Waiting(calls) + if Blocked(c) then {IdOf(c).value} else {}
  {
    var all := calls + [c];
    assert all[..|all| - 1] == calls;
    forall i, j | 0 <= i < j < |all| && Blocked(all[i]) && IdOf(all[j]) == IdOf(all[i])
      ensures PollWithin(all, i, j)
    {
      if j == |calls| && !PollWithin(calls, i, j) {
        WaitingSincePoll(calls, i);
      }
      var p :| i < p < j && calls[p].PollCall?;
      assert all[p].PollCall?;
    }
  }

  /** Of two calls in one move only the second can block. */
  lemma FrugalThenTwo(calls: seq<Call>, c: Call, d: Call)
    requires Frugal(calls) && !c.PollCall? && !d.PollCall? && !Blocked(c)
    requires IdOf(c).value !in Waiting(calls) && IdOf(d).value !in Waiting(calls)
    ensures Frugal(calls + [c, d])
    ensures Waiting(calls + [c, d]) == Waiting(calls) + if Blocked(d) then {IdOf(d).value} else {}
  {
    hide Frugal, Waiting;
    FrugalThen(calls, c);
    FrugalThen(calls + [c], d);
    assert calls + [c, d] == calls + [c] + [d];
  }

  /** An object that has blocked since the last poll is not due for a call: the listener waits to be ready, and its
      connection has had its turn. */
  ghost predicate Barred(l: Ledger, waiting: set<nat>) {
    && (LISTENER in waiting ==> l.listener.Open? && !l.ready && l.left > 0)
    && (forall o :: o in waiting ==> o <= l.calls)
    && (forall k :: k in l.todo && k in l.conns ==> l.conns[k].id !in waiting)
  }

  lemma MoveFrugal(l: Ledger, m: Move, before: seq<Call>)
    requires Inv(l) && Enabled(l, m) && Frugal(before) && Barred(l, Waiting(before))
    ensures Frugal(before + CallsOf(l, m)) && Barred(Apply(l, m), Waiting(before + CallsOf(l, m)))
  {
    hide Frugal, Waiting, CallInv;
    var calls := CallsOf(l, m);
    if |calls| == 1 {
      assert calls == [calls[0]];
      FrugalThen(before, calls[0]);
    } else {
      assert calls == [calls[0], calls[1]];
      FrugalThenTwo(before, calls[0], calls[1]);
    }
  }

  lemma {:induction false} RunsFrugal(l: Ledger, moves: seq<Move>, end: Ledger, before: seq<Call>)
    requires Inv(l) && Runs(l, moves, end) && Frugal(before) && Barred(l, Waiting(before))
    ensures Frugal(before + Calls(l, moves))
    decreases |moves|
  {
    hide Inv, Frugal, Barred;
    if moves == [] {
      assert before + Calls(l, moves) == before;
    } else {
      ApplyInv(l, moves[0]);
      MoveFrugal(l, moves[0], before);
      RunsFrugal(Apply(l, moves[0]), moves[1..], end, before + CallsOf(l, moves[0]));
      assert before + Calls(l, moves) == before + CallsOf(l, moves[0]) + Calls(Apply(l, moves[0]), moves[1..]);
    }
  }

  /** No schedule wastes a call. */
  lemma NoWastedCall(n: nat, moves: seq<Move>, end: Ledger)
    requires Runs(Init(n), moves, end)
    ensures Frugal(Calls(Init(n), moves))
  {
    InitInv(n);
    RunsFrugal(Init(n), moves, end, []);
    assert [] + Calls(Init(n), moves) == Calls(Init(n), moves);
  }

  // ----- one turn a round

  /** A connection that has had its turn gets no other before the next poll. */
  lemma {:induction false} ServedOncePerPoll(l: Ledger, moves: seq<Move>, end: Ledger, k: nat)
    requires Runs(l, moves, end) && k !in l.todo
    requires forall i :: 0 <= i < |moves| ==> moves[i] != PollMove && moves[i] != AcceptMove(k)
    ensures ServeMove(k) !in moves
    decreases |moves|
  {
    if moves != [] {
      ServedOncePerPoll(Apply(l, moves[0]), moves[1..], end, k);
      assert moves == [moves[0]] + moves[1..];
    }
  }

  /** Nor is the listener called again, once an accept has blocked. */
  lemma {:induction false} ListenerWaitsForPoll(l: Ledger, moves: seq<Move>, end: Ledger)
    requires Runs(l, moves, end) && !l.ready && !l.listener.Unopened?
    requires PollMove !in moves
    ensures BlockMove !in moves && forall k :: AcceptMove(k) !in moves
    decreases |moves|
  {
    if moves != [] {
      assert moves == [moves[0]] + moves[1..];
      ListenerWaitsForPoll(Apply(l, moves[0]), moves[1..], end);
    }
  }
}
