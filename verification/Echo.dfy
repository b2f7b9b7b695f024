/** One request and response on a connection: `Connection::process` in the manual server,
    `connection` in the async one (`src/run.rs`). The first is a loop over an explicit state that
    returns whenever a call would block; the second is straight-line code. */
module Echo {
  import opened Common
  import opened FakeIo

  /** What a stream answers to one call; a `Took` may be short and a `Got` may be empty. */
  datatype Reply = Block | Got(bytes: seq<byte>) | Took(size: nat)

  datatype Echo = Echo(received: seq<byte>, sending: bool, sent: nat, written: seq<byte>)

  const START := Echo([], false, 0, [])

  predicate Done(c: Echo) {
    c.sending && c.sent >= |c.received|
  }

  /** `r` can answer the call a connection in state `c` makes, with a buffer of `size` bytes. */
  ghost predicate Answers(c: Echo, r: Reply, size: nat) {
    && !Done(c)
    && match r
       case Block => true
       case Got(bytes) => !c.sending && |c.received| + |bytes| <= size
       case Took(n) => c.sending && c.sent + n <= |c.received|
  }

  /** One turn of the loop in `process`. */
  function Step(c: Echo, r: Reply): Echo {
    match r
    case Block => c
    case Got(bytes) => c.(received := c.received + bytes, sending := NEWLINE in c.received + bytes)
    case Took(n) =>
      c.(sent := c.sent + n,
         written := c.written + if c.sent + n <= |c.received| then c.received[c.sent..c.sent + n] else [])
  }

  /** `process`, called again after each `Block` until it is done, given these replies in all. */
  ghost function Resume(c: Echo, replies: seq<Reply>): Echo
    decreases |replies|
  {
    if replies == [] then c else Resume(Step(c, replies[0]), replies[1..])
  }

  ghost predicate Legal(c: Echo, replies: seq<Reply>, size: nat)
    decreases |replies|
  {
    replies == [] || (Answers(c, replies[0], size) && Legal(Step(c, replies[0]), replies[1..], size))
  }

  // ----- the straight-line form

  ghost function BytesOf(r: Reply): seq<byte> {
    if r.Got? then r.bytes else []
  }

  ghost function SizeOf(r: Reply): nat {
    if r.Took? then r.size else 0
  }

  /** `while !buf.contains(newline) { read }`, and the replies left over. */
  ghost function ReadLoop(buf: seq<byte>, replies: seq<Reply>): (seq<byte>, seq<Reply>)
    decreases |replies|
  {
    if NEWLINE in buf || replies == [] then (buf, replies)
    else ReadLoop(buf + BytesOf(replies[0]), replies[1..])
  }

  /** `while sent < buf_len { write }`: the final `sent` and the bytes written. */
  ghost function WriteLoop(buf: seq<byte>, sent: nat, written: seq<byte>, replies: seq<Reply>): (nat, seq<byte>)
    decreases |replies|
  {
    if sent >= |buf| || replies == [] then (sent, written)
    else
      var n := SizeOf(replies[0]);
      WriteLoop(buf, sent + n, written + if sent + n <= |buf| then buf[sent..sent + n] else [], replies[1..])
  }

  /** `connection` on a stream whose successful calls give these replies. */
  ghost function Straight(replies: seq<Reply>): Echo {
    var (buf, rest) := ReadLoop([], replies);
    if NEWLINE !in buf then Echo(buf, false, 0, [])
    else var (sent, written) := WriteLoop(buf, 0, [], rest); Echo(buf, true, sent, written)
  }

  ghost function Successes(replies: seq<Reply>): seq<Reply> {
    if replies == [] then []
    else if replies[0].Block? then Successes(replies[1..])
    else [replies[0]] + Successes(replies[1..])
  }

  // ----- what holds at every call

  /** The send position lies inside what was received, which fits the buffer; what was written is the
      part before it; and sending starts exactly when a newline has arrived. */
  ghost predicate Sound(c: Echo, size: nat) {
    && c.sent <= |c.received| <= size
    && c.written == c.received[..c.sent]
    && (c.sending <==> NEWLINE in c.received)
    && (!c.sending ==> c.sent == 0)
  }

  lemma StepSound(c: Echo, r: Reply, size: nat)
    requires Sound(c, size) && Answers(c, r, size)
    ensures Sound(Step(c, r), size)
  {
  }

  lemma {:induction false} ResumeSound(c: Echo, replies: seq<Reply>, size: nat)
    requires Sound(c, size) && Legal(c, replies, size)
    ensures Sound(Resume(c, replies), size)
    decreases |replies|
  {
    if replies != [] {
      StepSound(c, replies[0], size);
      ResumeSound(Step(c, replies[0]), replies[1..], size);
    }
  }

  /** A finished exchange wrote exactly what it read, and that contains a newline. */
  lemma EchoesTheRequest(replies: seq<Reply>, size: nat)
    requires Legal(START, replies, size) && Done(Resume(START, replies))
    ensures var c := Resume(START, replies);
      c.written == c.received && NEWLINE in c.received && |c.received| <= size
  {
    ResumeSound(START, replies, size);
  }

  // ----- blocking makes no difference

  lemma {:induction false} BlockingIsInvisible(c: Echo, replies: seq<Reply>, size: nat)
    requires Legal(c, replies, size)
    ensures Resume(c, Successes(replies)) == Resume(c, replies)
    ensures Legal(c, Successes(replies), size)
    decreases |replies|
  {
    if replies != [] {
      BlockingIsInvisible(Step(c, replies[0]), replies[1..], size);
      if !replies[0].Block? {
        var s := Successes(replies);
        assert s[1..] == Successes(replies[1..]);
      }
    }
  }

  ghost predicate AllSucceed(replies: seq<Reply>) {
    forall i :: 0 <= i < |replies| ==> !replies[i].Block?
  }

  lemma {:induction false} SuccessesSucceed(replies: seq<Reply>)
    ensures AllSucceed(Successes(replies))
  {
    if replies != [] {
      SuccessesSucceed(replies[1..]);
    }
  }

  lemma {:induction false} WritesAgree(c: Echo, replies: seq<Reply>, size: nat)
    requires Legal(c, replies, size) && AllSucceed(replies) && c.sending
    ensures var (sent, written) := WriteLoop(c.received, c.sent, c.written, replies);
      Resume(c, replies) == Echo(c.received, true, sent, written)
    decreases |replies|
  {
    if replies != [] {
      WritesAgree(Step(c, replies[0]), replies[1..], size);
    }
  }

  lemma {:induction false} ReadsAgree(c: Echo, replies: seq<Reply>, size: nat)
    requires Legal(c, replies, size) && AllSucceed(replies)
    requires c == Echo(c.received, false, 0, []) && NEWLINE !in c.received
    ensures var (buf, rest) := ReadLoop(c.received, replies);
      Resume(c, replies) ==
        if NEWLINE !in buf then Echo(buf, false, 0, [])
        else var (sent, written) := WriteLoop(buf, 0, [], rest); Echo(buf, true, sent, written)
    decreases |replies|
  {
    if replies != [] {
      var d := Step(c, replies[0]);
      if d.sending {
        WritesAgree(d, replies[1..], size);
      } else {
        ReadsAgree(d, replies[1..], size);
      }
    }
  }

  /** However the stream blocks, the resumable loop does what the straight-line code does on the calls
      that succeeded. */
  lemma ResumableIsStraightLine(replies: seq<Reply>, size: nat)
    requires Legal(START, replies, size)
    ensures Resume(START, replies) == Straight(Successes(replies))
  {
    BlockingIsInvisible(START, replies, size);
    SuccessesSucceed(replies);
    ReadsAgree(START, Successes(replies), size);
  }

  // ----- on a fake stream

  lemma RequestEndsInput(buf: seq<byte>)
    ensures NEWLINE in buf + REQUEST
  {
  }

  /** The replies a fake stream that has been called `calls` times gives until the connection blocks
      or is done. */
  ghost function Replies(c: Echo, calls: nat): seq<Reply>
    decreases if c.sending then 0 else 1
  {
    if Done(c) then []
    else if Blocks(calls + 1) then [Block]
    else if c.sending then [Took(if c.sent <= |c.received| then |c.received| - c.sent else 0)]
    else
      RequestEndsInput(c.received);
      [Got(REQUEST)] + Replies(Step(c, Got(REQUEST)), calls + 1)
  }

  /** What a connection gives to its next write. */
  function Unsent(c: Echo): seq<byte> {
    if c.sent <= |c.received| then c.received[c.sent..] else []
  }

  /** The call a connection makes, and gets `r` for. */
  ghost function CallOf(c: Echo, id: nat, r: Reply): Call {
    if c.sending then WriteCall(id, Unsent(c), r.Block?) else ReadCall(id, r.Block?)
  }

  ghost function CallsFor(c: Echo, id: nat, replies: seq<Reply>): seq<Call>
    decreases |replies|
  {
    if replies == [] then [] else [CallOf(c, id, replies[0])] + CallsFor(Step(c, replies[0]), id, replies[1..])
  }

  /** What the stream took of the bytes it was given. */
  ghost function Taken(made: Call, r: Reply): seq<byte> {
    if made.WriteCall? && SizeOf(r) <= |made.data| then made.data[..SizeOf(r)] else []
  }

  ghost function Delivered(made: seq<Call>, replies: seq<Reply>): seq<byte>
    requires |made| == |replies|
  {
    if made == [] then [] else Taken(made[0], replies[0]) + Delivered(made[1..], replies[1..])
  }

  lemma StepTaken(c: Echo, id: nat, r: Reply, size: nat)
    requires Sound(c, size) && Answers(c, r, size)
    ensures Step(c, r).written == c.written + Taken(CallOf(c, id, r), r)
  {
    if r.Took? {
      assert c.received[c.sent..c.sent + r.size] == Unsent(c)[..r.size];
    } else {
      assert c.written + [] == c.written;
    }
  }

  lemma CallsForThen(c: Echo, id: nat, r: Reply, rest: seq<Reply>)
    ensures CallsFor(c, id, [r] + rest) == [CallOf(c, id, r)] + CallsFor(Step(c, r), id, rest)
  {
    assert ([r] + rest)[1..] == rest;
  }

  /** What a connection counts as written is what its write calls were given and the stream took of it. */
  lemma {:induction false} WrittenIsDelivered(c: Echo, id: nat, replies: seq<Reply>, size: nat)
    requires Sound(c, size) && Legal(c, replies, size)
    ensures |CallsFor(c, id, replies)| == |replies|
    ensures Resume(c, replies).written == c.written + Delivered(CallsFor(c, id, replies), replies)
    decreases |replies|
  {
    if replies == [] {
      assert c.written + [] == c.written;
    } else {
      var r, rest := replies[0], replies[1..];
      StepSound(c, r, size);
      StepTaken(c, id, r, size);
      WrittenIsDelivered(Step(c, r), id, rest, size);
      CallsForThen(c, id, r, rest);
      assert replies == [r] + rest;
      hide Step, Sound, Taken, CallOf;
      Regroup(c.written, Taken(CallOf(c, id, r), r), Delivered(CallsFor(Step(c, r), id, rest), rest));
    }
  }

  /** Blocking ends a turn: a call that would block is the last of its turn, and the exchange goes on. */
  lemma {:induction false} BlockEndsTurn(c: Echo, s: FakeStream, t: Tape, i: nat)
    requires !c.sending ==> c.sent == 0
    requires var made := CallsFor(c, s.id, Replies(c, s.calls)); i < |made| && Blocked(made[i])
    ensures i == |CallsFor(c, s.id, Replies(c, s.calls))| - 1
    ensures !Done(Outcome(c, s, t).0) && !Blocks(Outcome(c, s, t).1.calls + 1)
    decreases if c.sending then 0 else 1
  {
    var r := Replies(c, s.calls);
    if !Done(c) && !Blocks(s.calls + 1) && !c.sending {
      RequestEndsInput(c.received);
      var d, after, tape := Step(c, Got(REQUEST)), s.(calls := s.calls + 1), Note(t, ReadCall(s.id, false));
      assert r[1..] == Replies(d, after.calls);
      assert CallsFor(c, s.id, r)[1..] == CallsFor(d, s.id, r[1..]);
      BlockEndsTurn(d, after, tape, i - 1);
    } else {
      assert r[1..] == [];
    }
  }

  /** Where those replies leave the connection, the stream and the tape. */
  ghost function Outcome(c: Echo, s: FakeStream, t: Tape): (Echo, FakeStream, Tape)
    decreases if c.sending then 0 else 1
  {
    var blocked, after := Blocks(s.calls + 1), s.(calls := s.calls + 1);
    if Done(c) then (c, s, t)
    else if c.sending then
      (if blocked then c else Step(c, Took(if c.sent <= |c.received| then |c.received| - c.sent else 0)),
       after, Note(t, WriteCall(s.id, Unsent(c), blocked)))
    else if blocked then (c, after, Note(t, ReadCall(s.id, true)))
    else
      RequestEndsInput(c.received);
      Outcome(Step(c, Got(REQUEST)), after, Note(t, ReadCall(s.id, false)))
  }

  lemma OutcomeRead(c: Echo, s: FakeStream, t: Tape)
    requires !c.sending
    ensures var blocked, after := Blocks(s.calls + 1), s.(calls := s.calls + 1);
      Outcome(c, s, t) == if blocked then (c, after, Note(t, ReadCall(s.id, true)))
                          else Outcome(Step(c, Got(REQUEST)), after, Note(t, ReadCall(s.id, false)))
  {
  }

  lemma OutcomeWrite(c: Echo, s: FakeStream, t: Tape)
    requires c.sending && c.sent < |c.received|
    ensures var blocked, after := Blocks(s.calls + 1), s.(calls := s.calls + 1);
      && Outcome(c, s, t) == (if blocked then c else Step(c, Took(|c.received| - c.sent)), after,
                              Note(t, WriteCall(s.id, Unsent(c), blocked)))
      && (!blocked ==> Done(Outcome(c, s, t).0))
  {
  }

  lemma OutcomeDone(c: Echo, s: FakeStream, t: Tape)
    requires Done(c)
    ensures Outcome(c, s, t) == (c, s, t)
  {
  }

  /** So a connection on a fake stream is an instance of the general exchange, call by call. */
  lemma {:induction false} OutcomeIsResume(c: Echo, s: FakeStream, t: Tape, size: nat)
    requires Sound(c, size) && (!c.sending ==> |c.received| + |REQUEST| <= size)
    ensures var r := Replies(c, s.calls);
      && Legal(c, r, size) && Outcome(c, s, t).0 == Resume(c, r)
      && Outcome(c, s, t).1 == s.(calls := s.calls + |r|)
      && Outcome(c, s, t).2 == NoteAll(t, CallsFor(c, s.id, r))
    decreases if c.sending then 0 else 1
  {
    var r := Replies(c, s.calls);
    if !Done(c) && !Blocks(s.calls + 1) && !c.sending {
      var d, after, tape := Step(c, Got(REQUEST)), s.(calls := s.calls + 1), Note(t, ReadCall(s.id, false));
      RequestEndsInput(c.received);
      StepSound(c, Got(REQUEST), size);
      OutcomeIsResume(d, after, tape, size);
      assert r[1..] == Replies(d, after.calls);
      assert CallsFor(c, s.id, r)[1..] == CallsFor(d, s.id, r[1..]);
    } else if !Done(c) {
      assert r[1..] == [];
      assert CallsFor(c, s.id, r) == [CallOf(c, s.id, r[0])];
      assert Resume(c, r) == Resume(Step(c, r[0]), []);
      assert NoteAll(t, [CallOf(c, s.id, r[0])]) == NoteAll(Note(t, CallOf(c, s.id, r[0])), []);
    }
  }

  /** All the replies of a fake stream that has been called `calls` times, turn after turn until the exchange is
      done. */
  ghost function AllReplies(c: Echo, calls: nat): seq<Reply>
    decreases if c.sending then 0 else 1, if Blocks(calls + 1) then 1 else 0
  {
    if Done(c) then []
    else if Blocks(calls + 1) then [Block] + AllReplies(c, calls + 1)
    else if c.sending then [Took(if c.sent <= |c.received| then |c.received| - c.sent else 0)]
    else
      RequestEndsInput(c.received);
      [Got(REQUEST)] + AllReplies(Step(c, Got(REQUEST)), calls + 1)
  }

  /** They are the replies of one turn, then all the others. */
  lemma {:induction false} TurnByTurn(c: Echo, calls: nat)
    requires !c.sending ==> c.sent == 0
    ensures var r := Replies(c, calls);
      AllReplies(c, calls) == r + AllReplies(Resume(c, r), calls + |r|)
    decreases if c.sending then 0 else 1
  {
    var r := Replies(c, calls);
    if !Done(c) && !Blocks(calls + 1) && !c.sending {
      RequestEndsInput(c.received);
      var d := Step(c, Got(REQUEST));
      TurnByTurn(d, calls + 1);
      assert r[1..] == Replies(d, calls + 1);
    } else if !Done(c) {
      assert Resume(c, r) == Resume(Step(c, r[0]), []);
    }
  }

  /** From any point of an exchange and for any number of calls made before, the turns end, having written
      everything that was read. */
  lemma {:induction false} EveryExchangeEnds(c: Echo, calls: nat, size: nat)
    requires Sound(c, size) && (!c.sending ==> |c.received| + |REQUEST| <= size)
    ensures var all := AllReplies(c, calls); var d := Resume(c, all);
      && Legal(c, all, size) && Done(d) && d.written == d.received && NEWLINE in d.received
      && d.received == if c.sending then c.received else c.received + REQUEST
    decreases if c.sending then 0 else 1, if Blocks(calls + 1) then 1 else 0
  {
    var all := AllReplies(c, calls);
    if !Done(c) {
      var d := Step(c, all[0]);
      if Blocks(calls + 1) {
        assert all[1..] == AllReplies(c, calls + 1);
        EveryExchangeEnds(c, calls + 1, size);
      } else {
        StepSound(c, all[0], size);
        if c.sending {
          assert all[1..] == [];
          assert Resume(d, []) == d;
        } else {
          RequestEndsInput(c.received);
          assert all[1..] == AllReplies(d, calls + 1);
          EveryExchangeEnds(d, calls + 1, size);
        }
      }
    }
  }

  /** Whatever the parity a stream starts from, all its turns together do what the straight-line code does. */
  lemma WholeExchange(calls: nat, size: nat)
    requires size >= |REQUEST|
    ensures var all := AllReplies(START, calls); var d := Resume(START, all);
      && Legal(START, all, size) && Done(d) && d.written == REQUEST && d == Straight(Successes(all))
  {
    EveryExchangeEnds(START, calls, size);
    ResumableIsStraightLine(AllReplies(START, calls), size);
    assert [] + REQUEST == REQUEST;
  }

  /** A connection between rounds, by the number of rounds it has been served. */
  ghost function AtPhase(phase: nat): (Echo, nat) {
    if phase == 0 then (START, 0)
    else if phase == 1 then (START, 1)
    else (Echo(REQUEST, true, 0, []), 3)
  }

  lemma AtPhaseSound(phase: nat, size: nat)
    requires phase <= 2 && size >= |REQUEST|
    ensures var c := AtPhase(phase).0;
      Sound(c, size) && !Done(c) && (!c.sending ==> |c.received| + |REQUEST| <= size)
  {
  }

  /** The calls of a connection's turn in each phase. */
  ghost function PhaseCalls(id: nat, phase: nat): seq<Call> {
    if phase == 0 then [ReadCall(id, true)]
    else if phase == 1 then [ReadCall(id, false), WriteCall(id, REQUEST, true)]
    else [WriteCall(id, REQUEST, false)]
  }

  /** Each round moves a connection to its next phase, by the calls the ledger charges. */
  lemma PhaseOutcome(phase: nat, s: FakeStream, t: Tape)
    requires phase <= 2 && s.calls == AtPhase(phase).1
    ensures var (d, after, tape) := Outcome(AtPhase(phase).0, s, t);
      && after.id == s.id && after.pollIndex == s.pollIndex && tape == NoteAll(t, PhaseCalls(s.id, phase))
      && (Done(d) <==> phase == 2) && (phase < 2 ==> (d, after.calls) == AtPhase(phase + 1))
  {
    RequestEndsInput([]);
    assert [] + REQUEST == REQUEST;
    assert Step(START, Got(REQUEST)) == AtPhase(2).0;
    NoteTwo(t, PhaseCalls(s.id, phase)[0], WriteCall(s.id, REQUEST, true));
  }
}
