/** The comparison the repository makes (`tests` in `src/run.rs`): every server does the same I/O. */
module Comparison {
  import opened FakeIo
  import opened Pipeline
  import opened PipelineRuns
  import opened ObjectCalls
  import opened RoundOrder
  import Executors
  import ManualServer
  import AsyncServer

  /** `server` has its tasks in the table of its kind of executor. */
  ghost predicate IsServer(server: AsyncServer.Server, kind: Executors.Kind, n: nat, size: nat) {
    && server.n == n && server.size == size
    && (server.tasks.table.ArgTable? <==> kind.NonBox?)
    && (server.tasks.table.BxTable? <==> kind.Box?)
    && (server.tasks.table.BoxRcTable? <==> kind.BoxRc?)
  }

  /** What the repository's tests expect, for any number of connections and of runs. */
  ghost predicate AsExpected(m: Metrics, n: nat, times: nat) {
    && m.register == m.unregister == times * (n + 1) && m.poll == times * (if n == 0 then 0 else n + 2)
    && m.accept == m.read == m.write == times * (2 * n)
  }

  lemma TimesExpected(times: nat, n: nat)
    ensures AsExpected(Times(times, Expected(n)), n, times)
  {
  }

  /** `times` runs of the manual server and of the async server on each of the three executors, on fresh counters, for
      any number of connections and any buffer that holds a request; the servers that were run are returned too. */
  method Compare(n: nat, size: nat, times: nat)
    returns (manual: Metrics, nonbox: Metrics, box: Metrics, boxRc: Metrics, ghost loop: ManualServer.RunManual,
             ghost a: AsyncServer.Server, ghost b: AsyncServer.Server, ghost c: AsyncServer.Server)
    requires size >= |REQUEST|
    ensures manual == nonbox == box == boxRc && AsExpected(manual, n, times)
    ensures loop.n == n && loop.size == size && loop.stats.metrics == manual
    ensures IsServer(a, Executors.NonBox, n, size) && a.stats.metrics == nonbox
    ensures IsServer(b, Executors.Box, n, size) && b.stats.metrics == box
    ensures IsServer(c, Executors.BoxRc, n, size) && c.stats.metrics == boxRc
  {
    hide Times, Expected, IsServer, AsExpected;
    TimesExpected(times, n);
    manual, loop := ManualMetrics(n, size, times);
    nonbox, a := AsyncMetrics(Executors.NonBox, n, size, times);
    box, b := AsyncMetrics(Executors.Box, n, size, times);
    boxRc, c := AsyncMetrics(Executors.BoxRc, n, size, times);
  }

  method ManualMetrics(n: nat, size: nat, times: nat) returns (metrics: Metrics, ghost ran: ManualServer.RunManual)
    requires size >= |REQUEST|
    ensures metrics == Times(times, Expected(n)) && fresh(ran) && fresh(ran.stats)
    ensures ran.n == n && ran.size == size && ran.stats.metrics == metrics
  {
    var stats := new Stats();
    var run := new ManualServer.RunManual(n, size, stats);
    run.RunTimes(times);
    metrics, ran := stats.metrics, run;
  }

  method AsyncMetrics(kind: Executors.Kind, n: nat, size: nat, times: nat)
    returns (metrics: Metrics, ghost ran: AsyncServer.Server)
    requires size >= |REQUEST|
    ensures metrics == Times(times, Expected(n)) && fresh(ran) && fresh(ran.stats)
    ensures IsServer(ran, kind, n, size) && ran.stats.metrics == metrics
  {
    var stats := new Stats();
    var server := new AsyncServer.Server(kind, n, size, stats);
    server.RunTimes(times);
    metrics, ran := stats.metrics, server;
  }

  /** One run of each, on its own counters: the listener and every stream see the same calls in all of them, with the
      same outcomes and in the same order, and after a call that blocks an object sees no other before the next poll. */
  method CompareCalls(n: nat, size: nat)
    returns (ghost loop: ManualServer.RunManual,
             ghost a: AsyncServer.Server, ghost b: AsyncServer.Server, ghost c: AsyncServer.Server)
    requires size >= |REQUEST|
    ensures loop.n == n && loop.size == size && IsServer(a, Executors.NonBox, n, size)
    ensures IsServer(b, Executors.Box, n, size) && IsServer(c, Executors.BoxRc, n, size)
    ensures AcceptsFirst(loop.stats.log)
    ensures AllSeen(loop.stats.log, n) && AllSeen(a.stats.log, n) && AllSeen(b.stats.log, n) && AllSeen(c.stats.log, n)
  {
    hide IsServer, AllSeen, AcceptsFirst;
    loop := ManualCalls(n, size);
    a := AsyncCalls(Executors.NonBox, n, size);
    b := AsyncCalls(Executors.Box, n, size);
    c := AsyncCalls(Executors.BoxRc, n, size);
  }

  /** Each object saw just the calls it sees in a complete run, none was wasted, and new streams came last. */
  ghost predicate AllSeen(calls: seq<Call>, n: nat) {
    Frugal(calls) && NewLast(calls) && forall id :: On(calls, id) == AllCalls(n, id)
  }

  method ManualCalls(n: nat, size: nat) returns (ghost ran: ManualServer.RunManual)
    requires size >= |REQUEST|
    ensures fresh(ran) && fresh(ran.stats) && ran.n == n && ran.size == size
    ensures AllSeen(ran.stats.log, n) && AcceptsFirst(ran.stats.log)
  {
    hide Calls, Frugal, NewLast, On;
    var stats := new Stats();
    var run := new ManualServer.RunManual(n, size, stats);
    ghost var schedule, end := run.Run();
    assert [] + Calls(Init(n), schedule) == Calls(Init(n), schedule);
    ran := run;
  }

  method AsyncCalls(kind: Executors.Kind, n: nat, size: nat) returns (ghost ran: AsyncServer.Server)
    requires size >= |REQUEST|
    ensures fresh(ran) && fresh(ran.stats) && IsServer(ran, kind, n, size) && AllSeen(ran.stats.log, n)
  {
    hide Calls, Frugal, NewLast, On;
    var stats := new Stats();
    var server := new AsyncServer.Server(kind, n, size, stats);
    ghost var schedule, end := server.Run();
    assert [] + Calls(Init(n), schedule) == Calls(Init(n), schedule);
    ran := server;
  }
}
