/** The fake I/O objects of `src/fakeio.rs` and the six counters they keep (`Stats` in `src/run.rs`). */
module FakeIo {
  import opened Common

  newtype byte = x: int | 0 <= x < 256

  datatype StatsType = Register | Unregister | Poll | Accept | Read | Write

  datatype Metrics = Metrics(register: nat, unregister: nat, poll: nat, accept: nat, read: nat, write: nat)

  const NO_CALLS := Metrics(0, 0, 0, 0, 0, 0)

  function Count(m: Metrics, t: StatsType): Metrics {
    match t
    case Register => m.(register := m.register + 1)
    case Unregister => m.(unregister := m.unregister + 1)
    case Poll => m.(poll := m.poll + 1)
    case Accept => m.(accept := m.accept + 1)
    case Read => m.(read := m.read + 1)
    case Write => m.(write := m.write + 1)
  }

  function Plus(a: Metrics, b: Metrics): Metrics {
    Metrics(a.register + b.register, a.unregister + b.unregister, a.poll + b.poll,
            a.accept + b.accept, a.read + b.read, a.write + b.write)
  }

  /** One call on an object: the listener has the number `LISTENER`, a stream the number of the accept call that
      yielded it. A write is noted with the bytes it was given. */
  datatype Call =
    | RegisterCall(id: nat)
    | UnregisterCall(id: nat)
    | PollCall
    | AcceptCall(blocked: bool)
    | ReadCall(id: nat, blocked: bool)
    | WriteCall(id: nat, data: seq<byte>, blocked: bool)

  const LISTENER: nat := 0

  function TypeOf(c: Call): StatsType {
    match c
    case RegisterCall(_) => Register
    case UnregisterCall(_) => Unregister
    case PollCall => Poll
    case AcceptCall(_) => Accept
    case ReadCall(_, _) => Read
    case WriteCall(_, _, _) => Write
  }

  /** The object a call is made on; a poll is made on none. */
  function IdOf(c: Call): Option<nat> {
    match c
    case PollCall => None
    case AcceptCall(_) => Some(LISTENER)
    case _ => Some(c.id)
  }

  predicate Blocked(c: Call) {
    (c.AcceptCall? || c.ReadCall? || c.WriteCall?) && c.blocked
  }

  /** The counters, and every call they counted. */
  datatype Tape = Tape(metrics: Metrics, log: seq<Call>)

  function Note(t: Tape, c: Call): Tape {
    Tape(Count(t.metrics, TypeOf(c)), t.log + [c])
  }

  function NoteAll(t: Tape, calls: seq<Call>): Tape
    decreases |calls|
  {
    if calls == [] then t else NoteAll(Note(t, calls[0]), calls[1..])
  }

  lemma {:induction false} NoteAllThen(t: Tape, x: seq<Call>, y: seq<Call>)
    ensures NoteAll(t, x + y) == NoteAll(NoteAll(t, x), y)
    decreases |x|
  {
    if x == [] {
      assert x + y == y;
    } else {
      NoteAllThen(Note(t, x[0]), x[1..], y);
      assert (x + y)[1..] == x[1..] + y;
    }
  }

  /** How many of the calls are of each kind. */
  ghost function Made(calls: seq<Call>): Metrics {
    if calls == [] then Metrics(0, 0, 0, 0, 0, 0)
    else
      var m := Made(calls[1..]);
      match calls[0]
      case RegisterCall(_) => m.(register := 1 + m.register)
      case UnregisterCall(_) => m.(unregister := 1 + m.unregister)
      case PollCall => m.(poll := 1 + m.poll)
      case AcceptCall(_) => m.(accept := 1 + m.accept)
      case ReadCall(_, _) => m.(read := 1 + m.read)
      case WriteCall(_, _, _) => m.(write := 1 + m.write)
  }

  /** From `a` to `b` each counter has grown by the number of calls of its kind among `calls`. */
  ghost predicate Counts(a: Metrics, b: Metrics, calls: seq<Call>) {
    var made := Made(calls);
    && b.register == a.register + made.register && b.unregister == a.unregister + made.unregister
    && b.poll == a.poll + made.poll && b.accept == a.accept + made.accept
    && b.read == a.read + made.read && b.write == a.write + made.write
  }

  /** The tape counts what is on it. */
  lemma {:induction false} NoteAllCounts(t: Tape, calls: seq<Call>)
    ensures Counts(t.metrics, NoteAll(t, calls).metrics, calls) && NoteAll(t, calls).log == t.log + calls
    decreases |calls|
  {
    if calls != [] {
      NoteAllCounts(Note(t, calls[0]), calls[1..]);
      assert t.log + calls == t.log + [calls[0]] + calls[1..];
    }
  }

  function Times(k: nat, m: Metrics): Metrics {
    Metrics(k * m.register, k * m.unregister, k * m.poll, k * m.accept, k * m.read, k * m.write)
  }

  lemma TimesStep(base: Metrics, k: nat, m: Metrics)
    ensures Plus(Plus(base, Times(k, m)), m) == Plus(base, Times(k + 1, m))
  {
  }

  lemma NoteTwo(t: Tape, a: Call, b: Call)
    ensures NoteAll(t, [a]) == Note(t, a) && NoteAll(t, [a, b]) == Note(Note(t, a), b)
  {
    assert NoteAll(Note(t, a), [a][1..]) == Note(t, a);
    assert [a, b][1..] == [b] && [b][1..] == [];
    assert NoteAll(Note(t, a), [b]) == Note(Note(t, a), b);
  }

  class Stats {
    var metrics: Metrics
    ghost var log: seq<Call>

    constructor ()
      ensures Kept() == Tape(NO_CALLS, [])
    {
      metrics, log := NO_CALLS, [];
    }

    ghost function Kept(): Tape
      reads this
    {
      Tape(metrics, log)
    }

    method Inc(t: StatsType, ghost call: Call)
      requires t == TypeOf(call)
      modifies this
      ensures Kept() == Note(old(Kept()), call)
      ensures log == old(log) + [call] && Counts(old(metrics), metrics, [call])
    {
      NoteAllCounts(Kept(), [call]);
      NoteTwo(Kept(), call, call);
      metrics, log := Count(metrics, t), log + [call];
    }
  }

  /** What every successful read delivers. */
  const REQUEST: seq<byte> := [104, 101, 108, 108, 111, 32, 119, 111, 114, 108, 100, 10]
  const NEWLINE: byte := 10

  /** It is "hello world" and a newline: twelve bytes, and the newline is the last and the only one. */
  lemma RequestIs()
    ensures |REQUEST| == 12 && REQUEST[11] == NEWLINE && forall i :: 0 <= i < 11 ==> REQUEST[i] != NEWLINE
    ensures forall i :: 0 <= i < 12 ==> REQUEST[i] as int == "hello world\n"[i] as int
    ensures NEWLINE as int == '\n' as int
  {
    var text := "hello world\n";
    assert text[0] == 'h' && text[1] == 'e' && text[2] == 'l' && text[3] == 'l' && text[4] == 'o' && text[5] == ' ';
    assert text[6] == 'w' && text[7] == 'o' && text[8] == 'r' && text[9] == 'l' && text[10] == 'd' && text[11] == '\n';
  }

  datatype IoResult<+T> = WouldBlock | Ok(value: T)

  /** Calls alternate: every odd call blocks. */
  predicate Blocks(call: nat) {
    call % 2 == 1
  }

  /** An I/O object belongs to one connection or future, which holds it by value. */
  datatype FakeStream = FakeStream(id: nat, pollIndex: Option<nat>, calls: nat) {
    /** Reads into a buffer with `room` bytes left; on a successful call the request must fit. */
    method Read(stats: Stats, room: nat) returns (s: FakeStream, r: IoResult<seq<byte>>)
      requires !Blocks(calls + 1) ==> |REQUEST| <= room
      modifies stats
      ensures stats.Kept() == Note(old(stats.Kept()), ReadCall(id, Blocks(calls + 1)))
      ensures s == this.(calls := calls + 1)
      ensures r == if Blocks(calls + 1) then WouldBlock else Ok(REQUEST)
    {
      stats.Inc(StatsType.Read, ReadCall(id, Blocks(calls + 1)));
      s := this.(calls := calls + 1);
      r := if Blocks(s.calls) then WouldBlock else Ok(REQUEST);
    }

    method Write(stats: Stats, data: seq<byte>) returns (s: FakeStream, r: IoResult<nat>)
      modifies stats
      ensures stats.Kept() == Note(old(stats.Kept()), WriteCall(id, data, Blocks(calls + 1)))
      ensures s == this.(calls := calls + 1)
      ensures r == if Blocks(calls + 1) then WouldBlock else Ok(|data|)
    {
      stats.Inc(StatsType.Write, WriteCall(id, data, Blocks(calls + 1)));
      s := this.(calls := calls + 1);
      r := if Blocks(s.calls) then WouldBlock else Ok(|data|);
    }
  }

  datatype FakeListener = FakeListener(pollIndex: Option<nat>, calls: nat) {
    method Accept(stats: Stats) returns (l: FakeListener, r: IoResult<FakeStream>)
      modifies stats
      ensures stats.Kept() == Note(old(stats.Kept()), AcceptCall(Blocks(calls + 1)))
      ensures l == this.(calls := calls + 1)
      ensures r == if Blocks(calls + 1) then WouldBlock else Ok(FakeStream(calls + 1, None, 0))
    {
      stats.Inc(StatsType.Accept, AcceptCall(Blocks(calls + 1)));
      l := this.(calls := calls + 1);
      r := if Blocks(l.calls) then WouldBlock else Ok(FakeStream(calls + 1, None, 0));
    }
  }

  const READABLE: bv8 := 1
  const WRITABLE: bv8 := 2
  const BOTH: bv8 := READABLE | WRITABLE

  /** The two bits differ, and `BOTH` has both. */
  lemma InterestBits()
    ensures READABLE & WRITABLE == 0 && BOTH & READABLE != 0 && BOTH & WRITABLE != 0
    ensures READABLE & READABLE != 0 && WRITABLE & WRITABLE != 0
  {
  }

  datatype Item = Item(interest: bv8, key: nat)

  class PollTable {
    const stats: Stats
    var items: map<nat, Item>

    constructor (stats: Stats)
      ensures this.stats == stats && items == map[]
    {
      this.stats := stats;
      items := map[];
    }

    /** Enters a handle under some vacant index, which the handle then stores. */
    method Register(key: nat, interest: bv8, ghost id: nat) returns (index: nat)
      modifies this, stats
      ensures stats.Kept() == Note(old(stats.Kept()), RegisterCall(id))
      ensures index !in old(items) && items == old(items)[index := Item(interest, key)]
    {
      stats.Inc(StatsType.Register, RegisterCall(id));
      VacantSomewhere(items.Keys);
      index :| index !in items.Keys;
      items := items[index := Item(interest, key)];
    }

    /** A handle that was never registered only costs the call. */
    method Unregister(pollIndex: Option<nat>, ghost id: nat)
      requires pollIndex.Some? ==> pollIndex.value in items
      modifies this, stats
      ensures stats.Kept() == Note(old(stats.Kept()), UnregisterCall(id))
      ensures items == if pollIndex.Some? then old(items) - {pollIndex.value} else old(items)
    {
      stats.Inc(StatsType.Unregister, UnregisterCall(id));
      if pollIndex.Some? {
        items := items - {pollIndex.value};
      }
    }

    /** Every registered item is reported once, in some order. */
    method Poll() returns (events: seq<Item>, order: seq<nat>)
      modifies stats
      ensures stats.Kept() == Note(old(stats.Kept()), PollCall)
      ensures Distinct(order) && |events| == |order|
      ensures forall i :: i in order <==> i in items
      ensures forall j :: 0 <= j < |order| ==> order[j] in items && events[j] == items[order[j]]
    {
      stats.Inc(StatsType.Poll, PollCall);
      events, order := [], [];
      var rest := items.Keys;
      while rest != {}
        invariant stats.Kept() == Note(old(stats.Kept()), PollCall)
        invariant rest <= items.Keys
        invariant Distinct(order) && |events| == |order|
        invariant forall i :: i in order <==> i in items && i !in rest
        invariant forall j :: 0 <= j < |order| ==> order[j] in items && events[j] == items[order[j]]
        decreases |rest|
      {
        var i :| i in rest;
        AddedLast(order, i);
        events, order := events + [items[i]], order + [i];
        rest := rest - {i};
      }
    }
  }
}
