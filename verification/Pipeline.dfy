/** What both servers do to their connections, round by round, stripped of every data structure.

    Calls on a fake object alternate between blocking and succeeding, so a connection takes
    three rounds: its read blocks; its read succeeds and its write blocks; its write succeeds.
    One connection is accepted per round. The ledger records this against the six counters,
    and both servers are proved to step it. Keys and the order of service are left open. */
module Pipeline {
  import opened Common
  import opened FakeIo

  datatype Listener = Unopened | Open | Closed

  /** `id` is the number of the accept call that yielded the stream, `born` the number of polls made by then. */
  datatype Conn = Conn(id: nat, born: nat, phase: nat)

  /** `left` connections are still to be accepted; `todo` are the ones still to be served this round;
      `ready` says that the listener may be called; `last` is the latest key accepted. */
  datatype Ledger = Ledger(n: nat, left: nat, listener: Listener, ready: bool, calls: nat,
                           conns: map<nat, Conn>, todo: set<nat>, last: nat, m: Metrics)

  function Init(n: nat): Ledger {
    Ledger(n, n, Unopened, false, 0, map[], {}, 0, NO_CALLS)
  }

  // ----- the steps

  predicate CanOpen(l: Ledger) {
    l.listener.Unopened?
  }

  function OpenListener(l: Ledger): Ledger {
    l.(listener := Open, ready := true, m := Count(l.m, Register))
  }

  predicate CanAccept(l: Ledger) {
    l.listener.Open? && l.ready && l.left > 0
  }

  function AcceptBlocks(l: Ledger): Ledger {
    l.(ready := false, calls := l.calls + 1, m := Count(l.m, Accept))
  }

  function AcceptConn(l: Ledger, k: nat): Ledger
    requires l.left > 0
  {
    l.(left := l.left - 1, calls := l.calls + 1, conns := l.conns[k := Conn(l.calls + 1, l.m.poll, 0)],
       todo := l.todo + {k}, last := k, m := Count(Count(l.m, Accept), Register))
  }

  /** One service of connection `k`; the last one closes it. */
  function Serve(l: Ledger, k: nat): Ledger
    requires k in l.conns
  {
    var c := l.conns[k];
    if c.phase == 0 then
      l.(conns := l.conns[k := c.(phase := 1)], todo := l.todo - {k}, m := Count(l.m, Read))
    else if c.phase == 1 then
      l.(conns := l.conns[k := c.(phase := 2)], todo := l.todo - {k}, m := Count(Count(l.m, Read), Write))
    else
      l.(conns := l.conns - {k}, todo := l.todo - {k}, m := Count(Count(l.m, Write), Unregister))
  }

  predicate CanClose(l: Ledger) {
    l.listener.Open? && l.left == 0
  }

  function CloseListener(l: Ledger): Ledger {
    l.(listener := Closed, ready := false, m := Count(l.m, Unregister))
  }

  predicate CanPoll(l: Ledger) {
    && !l.listener.Unopened? && l.todo == {} && (l.left > 0 ==> !l.ready)
    && (l.left > 0 || l.conns != map[])
  }

  function PollAll(l: Ledger): Ledger {
    l.(ready := l.listener.Open?, todo := l.conns.Keys, m := Count(l.m, Poll))
  }

  predicate Finished(l: Ledger) {
    l.listener.Closed? && l.left == 0 && l.conns == map[]
  }

  // ----- the invariant

  ghost function InPhase(conns: map<nat, Conn>, p: nat): set<nat> {
    set k | k in conns && conns[k].phase == p
  }

  lemma PhasePut(conns: map<nat, Conn>, k: nat, c: Conn, p: nat)
    ensures |InPhase(conns[k := c], p)| ==
      |InPhase(conns, p)| + (if c.phase == p then 1 else 0) - if k in conns && conns[k].phase == p then 1 else 0
  {
    var rest := InPhase(conns, p) - {k};
    assert InPhase(conns, p) == if k in conns && conns[k].phase == p then rest + {k} else rest;
    assert InPhase(conns[k := c], p) == if c.phase == p then rest + {k} else rest;
  }

  lemma PhaseRemove(conns: map<nat, Conn>, k: nat, p: nat)
    ensures |InPhase(conns - {k}, p)| == |InPhase(conns, p)| - if k in conns && conns[k].phase == p then 1 else 0
  {
    var rest := InPhase(conns - {k}, p);
    assert InPhase(conns, p) == if k in conns && conns[k].phase == p then rest + {k} else rest;
  }

  lemma SizePut(conns: map<nat, Conn>, k: nat, c: Conn)
    ensures |conns[k := c]| == if k in conns then |conns| else |conns| + 1
  {
  }

  /** How many connections are in each phase. */
  ghost function Tally(conns: map<nat, Conn>): (nat, nat, nat) {
    (|InPhase(conns, 0)|, |InPhase(conns, 1)|, |InPhase(conns, 2)|)
  }

  lemma TallyEmpty()
    ensures Tally(map[]) == (0, 0, 0)
  {
  }

  lemma TallyNew(conns: map<nat, Conn>, k: nat, c: Conn)
    requires k !in conns && c.phase == 0
    ensures Tally(conns[k := c]) == (Tally(conns).0 + 1, Tally(conns).1, Tally(conns).2)
    ensures |conns[k := c]| == |conns| + 1
  {
    hide InPhase;
    PhasePut(conns, k, c, 0);
    PhasePut(conns, k, c, 1);
    PhasePut(conns, k, c, 2);
    SizePut(conns, k, c);
  }

  lemma TallyAdvance(conns: map<nat, Conn>, k: nat, c: Conn)
    requires k in conns && conns[k].phase <= 1 && c.phase == conns[k].phase + 1
    ensures var t := Tally(conns);
      Tally(conns[k := c]) == if c.phase == 1 then (t.0 - 1, t.1 + 1, t.2) else (t.0, t.1 - 1, t.2 + 1)
    ensures |conns[k := c]| == |conns|
  {
    hide InPhase;
    PhasePut(conns, k, c, 0);
    PhasePut(conns, k, c, 1);
    PhasePut(conns, k, c, 2);
    SizePut(conns, k, c);
  }

  lemma TallyClose(conns: map<nat, Conn>, k: nat)
    requires k in conns && conns[k].phase == 2
    ensures Tally(conns - {k}) == (Tally(conns).0, Tally(conns).1, Tally(conns).2 - 1)
    ensures |conns - {k}| == |conns| - 1
  {
    hide InPhase;
    PhaseRemove(conns, k, 0);
    PhaseRemove(conns, k, 1);
    PhaseRemove(conns, k, 2);
    assert (conns - {k}).Keys == conns.Keys - {k};
  }

  ghost function Accepted(l: Ledger): int {
    l.n - l.left
  }

  ghost predicate ListenerInv(l: Ledger) {
    && l.left <= l.n && l.m.accept == l.calls
    && (l.listener.Unopened? ==> l == Init(l.n).(last := l.last))
    && (l.listener.Closed? ==> l.left == 0 && !l.ready)
    && (l.left == 0 ==> l.calls == 2 * l.n && l.m.poll >= l.n)
    && (l.listener.Open? && l.left > 0 ==>
          if !l.ready then l.calls == 2 * Accepted(l) + 1 && l.m.poll == Accepted(l)
          else if Blocks(l.calls) then l.calls == 2 * Accepted(l) + 1 && l.m.poll == Accepted(l) + 1
          else l.calls == 2 * Accepted(l) && l.m.poll == Accepted(l))
  }

  /** No two connections were accepted in the same round. */
  ghost predicate OneARound(conns: map<nat, Conn>) {
    forall j, k :: j in conns && k in conns && j != k ==> conns[j].born != conns[k].born
  }

  lemma OneARoundPut(conns: map<nat, Conn>, k: nat, c: Conn)
    requires OneARound(conns)
    requires forall j :: j in conns && j != k ==> conns[j].born != c.born
    ensures OneARound(conns[k := c])
  {
  }

  lemma OneARoundRest(conns: map<nat, Conn>, k: nat)
    requires OneARound(conns)
    ensures OneARound(conns - {k})
    ensures k in conns ==> forall j :: j in conns && j != k ==> conns[j].born != conns[k].born
  {
  }

  /** Each connection's phase is its age. */
  ghost predicate ConnInv(l: Ledger) {
    && l.todo <= l.conns.Keys
    && (forall k :: k in l.conns ==>
          && 1 <= l.conns[k].born <= Accepted(l) && l.conns[k].phase <= 2 && l.conns[k].id == 2 * l.conns[k].born
          && l.conns[k].born + l.conns[k].phase == l.m.poll + if k in l.todo then 0 else 1)
    && OneARound(l.conns)
    && (Accepted(l) >= 1 && l.m.poll <= Accepted(l) + 1 ==> l.last in l.conns && l.conns[l.last].born == Accepted(l))
    && (if l.n == 0 then l.m.poll == 0 else l.m.poll <= l.n + 2)
  }

  /** Every call is accounted for: what the live connections have not yet asked for is what is missing. */
  ghost predicate CallInv(l: Ledger) {
    && l.m.register == Accepted(l) + (if l.listener.Unopened? then 0 else 1)
    && l.m.unregister + |l.conns| == Accepted(l) + (if l.listener.Closed? then 1 else 0)
    && l.m.read + 2 * Tally(l.conns).0 + Tally(l.conns).1 == 2 * Accepted(l)
    && l.m.write + 2 * Tally(l.conns).0 + 2 * Tally(l.conns).1 + Tally(l.conns).2 == 2 * Accepted(l)
  }

  ghost predicate Inv(l: Ledger) {
    ListenerInv(l) && ConnInv(l) && CallInv(l)
  }

  lemma InitInv(n: nat)
    ensures Inv(Init(n))
  {
  }

  lemma OpenListenerInv(l: Ledger)
    requires Inv(l) && CanOpen(l)
    ensures Inv(OpenListener(l))
  {
  }

  lemma AcceptBlocksInv(l: Ledger)
    requires Inv(l) && CanAccept(l) && Blocks(l.calls + 1)
    ensures Inv(AcceptBlocks(l))
  {
  }

  lemma AcceptConnInv(l: Ledger, k: nat)
    requires Inv(l) && CanAccept(l) && !Blocks(l.calls + 1) && k !in l.conns
    ensures Inv(AcceptConn(l, k))
  {
    AcceptConnAges(l, k);
    AcceptConnCalls(l, k);
  }

  lemma AcceptConnAges(l: Ledger, k: nat)
    requires Inv(l) && CanAccept(l) && !Blocks(l.calls + 1) && k !in l.conns
    ensures ListenerInv(AcceptConn(l, k)) && ConnInv(AcceptConn(l, k))
  {
    hide CallInv, OneARound;
    OneARoundPut(l.conns, k, Conn(l.calls + 1, l.m.poll, 0));
  }

  lemma AcceptConnCalls(l: Ledger, k: nat)
    requires CallInv(l) && CanAccept(l) && l.left <= l.n && k !in l.conns
    ensures CallInv(AcceptConn(l, k))
  {
    hide Tally;
    TallyNew(l.conns, k, Conn(l.calls + 1, l.m.poll, 0));
  }

  lemma ServeInv(l: Ledger, k: nat)
    requires Inv(l) && k in l.todo
    ensures k in l.conns && Inv(Serve(l, k))
  {
    ServeAges(l, k);
    ServeCalls(l, k);
  }

  lemma ServeAges(l: Ledger, k: nat)
    requires Inv(l) && k in l.todo
    ensures k in l.conns && ListenerInv(Serve(l, k)) && ConnInv(Serve(l, k))
  {
    hide CallInv, OneARound;
    var c := l.conns[k];
    OneARoundRest(l.conns, k);
    if c.phase < 2 {
      OneARoundPut(l.conns, k, c.(phase := c.phase + 1));
    }
  }

  lemma ServeCalls(l: Ledger, k: nat)
    requires CallInv(l) && k in l.conns && l.conns[k].phase <= 2
    ensures CallInv(Serve(l, k))
  {
    hide Tally;
    var c := l.conns[k];
    if c.phase == 2 {
      TallyClose(l.conns, k);
    } else {
      TallyAdvance(l.conns, k, c.(phase := c.phase + 1));
    }
  }

  lemma CloseListenerInv(l: Ledger)
    requires Inv(l) && CanClose(l)
    ensures Inv(CloseListener(l))
  {
  }

  lemma PollAllInv(l: Ledger)
    requires Inv(l) && CanPoll(l)
    ensures Inv(PollAll(l))
  {
  }

  // ----- what follows

  lemma PhaseBound(l: Ledger, k: nat)
    requires Inv(l) && k in l.conns
    ensures l.conns[k].phase <= 2
  {
  }

  function Polls(n: nat): nat {
    if n == 0 then 0 else n + 2
  }

  /** The closed formulas for a complete run of `n` connections. */
  function Expected(n: nat): Metrics {
    Metrics(n + 1, n + 1, Polls(n), 2 * n, 2 * n, 2 * n)
  }

  lemma FinishedCounts(l: Ledger)
    requires Inv(l) && Finished(l)
    ensures l.m == Expected(l.n)
  {
  }

  lemma {:induction false} FewBorn(conns: map<nat, Conn>, lo: int, hi: int)
    requires lo <= hi + 1
    requires forall k :: k in conns ==> lo <= conns[k].born <= hi
    requires OneARound(conns)
    ensures |conns| <= hi - lo + 1
    decreases hi - lo + 1
  {
    if hi < lo {
      assert conns.Keys == {} by {
        if k :| k in conns.Keys { assert false; }
      }
    } else if k :| k in conns && conns[k].born == hi {
      FewBorn(conns - {k}, lo, hi - 1);
      assert conns.Keys == (conns - {k}).Keys + {k};
    } else {
      FewBorn(conns, lo, hi - 1);
    }
  }

  /** At no point are more than three connections live, nor more than were accepted. */
  lemma FewConnections(l: Ledger)
    requires Inv(l)
    ensures |l.conns| <= 3 && |l.conns| <= Accepted(l) <= l.n
  {
    FewBorn(l.conns, 1, Accepted(l));
    FewBorn(l.conns, l.m.poll - 2, l.m.poll);
  }
}
