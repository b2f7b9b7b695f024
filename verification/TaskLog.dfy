/** The log of a task table: every operation made on it since it was empty, whoever made it. What is
    proved here of logs is said of the log alone, and holds of every table that keeps one. */
module TaskLog {
  import opened Common
  import opened Scheduler

  type Log<F> = seq<Op<F>>

  ghost function Replay<F>(capacity: nat, log: Log<F>): Sched<F> {
    if log == [] then Empty(capacity) else Do(Replay(capacity, log[..|log| - 1]), log[|log| - 1])
  }

  ghost predicate Legal<F>(capacity: nat, log: Log<F>) {
    log == [] ||
    (Legal(capacity, log[..|log| - 1]) && Can(Replay(capacity, log[..|log| - 1]), log[|log| - 1]))
  }

  /** `log` is legal and leads from the empty table to `s`. */
  ghost predicate Logged<F>(capacity: nat, log: Log<F>, s: Sched<F>) {
    Legal(capacity, log) && s == Replay(capacity, log)
  }

  lemma LoggedThen<F>(capacity: nat, log: Log<F>, s: Sched<F>, e: Op<F>)
    requires Logged(capacity, log, s) && Can(s, e)
    ensures Logged(capacity, log + [e], Do(s, e))
  {
    assert (log + [e])[..|log|] == log;
  }

  lemma {:induction false} LegalPrefix<F>(capacity: nat, log: Log<F>, i: nat)
    requires Legal(capacity, log) && i <= |log|
    ensures Legal(capacity, log[..i])
    ensures i < |log| ==> Can(Replay(capacity, log[..i]), log[i])
  {
    if i < |log| {
      var rest := log[..|log| - 1];
      if i < |rest| {
        LegalPrefix(capacity, rest, i);
        assert rest[..i] == log[..i];
      }
    } else {
      assert log[..i] == log;
    }
  }

  lemma {:induction false} LogWellFormed<F>(capacity: nat, log: Log<F>)
    ensures WellFormed(Replay(capacity, log)) && Replay(capacity, log).capacity == capacity
  {
    if log != [] {
      LogWellFormed(capacity, log[..|log| - 1]);
      DoWellFormed(Replay(capacity, log[..|log| - 1]), log[|log| - 1]);
    }
  }

  // ----- who is owed a poll

  predicate Owes<F>(e: Op<F>, k: nat) {
    (e.Spawned? || e.Woken?) && e.key == k
  }

  /** `k` was spawned or woken, and no poll of it has begun since. */
  ghost predicate Owed<F>(log: Log<F>, k: nat) {
    exists i :: 0 <= i < |log| && Owes(log[i], k) && forall j :: i < j < |log| ==> log[j] != Begun(k)
  }

  /** The moment the poll now owed to `k` became due. */
  ghost function Since<F>(log: Log<F>, k: nat): Option<nat> {
    if log == [] then None
    else
      var e, due := log[|log| - 1], Since(log[..|log| - 1], k);
      if e == Begun(k) || e == Freed(k) then None
      else if Owes(e, k) && due == None then Some(|log| - 1)
      else due
  }

  lemma {:induction false} SinceBelow<F>(log: Log<F>, k: nat)
    ensures Since(log, k).Some? ==> Since(log, k).value < |log| && Owes(log[Since(log, k).value], k)
  {
    if log != [] {
      SinceBelow(log[..|log| - 1], k);
    }
  }

  ghost predicate Older<F>(log: Log<F>, j: nat, k: nat) {
    Since(log, j).Some? && Since(log, k).Some? && Since(log, j).value < Since(log, k).value
  }

  /** The longest due first. */
  ghost predicate ByAge<F>(log: Log<F>, queue: seq<nat>) {
    forall i: nat, j: nat {:trigger Older(log, queue[i], queue[j])} :: i < j < |queue| ==>
      Older(log, queue[i], queue[j])
  }

  lemma OlderIs<F>(log: Log<F>, j: nat, k: nat)
    ensures Older(log, j, k) <==>
      Since(log, j).Some? && Since(log, k).Some? && Since(log, j).value < Since(log, k).value
  {
  }

  lemma ByAgeSame<F>(rest: Log<F>, log: Log<F>, queue: seq<nat>)
    requires ByAge(rest, queue) && forall k :: k in queue ==> Since(log, k) == Since(rest, k)
    ensures ByAge(log, queue)
  {
    hide Since;
    forall i: nat, j: nat | i < j < |queue|
      ensures Older(log, queue[i], queue[j])
    {
      assert Older(rest, queue[i], queue[j]);
    }
  }

  lemma ByAgeLast<F>(log: Log<F>, queue: seq<nat>, k: nat)
    requires ByAge(log, queue) && forall j :: j in queue ==> Older(log, j, k)
    ensures ByAge(log, queue + [k])
  {
    hide Since;
    var all := queue + [k];
    forall i: nat, j: nat | i < j < |all|
      ensures Older(log, all[i], all[j])
    {
      assert j < |queue| ==> Older(log, queue[i], queue[j]);
    }
  }

  lemma ByAgeWithout<F>(log: Log<F>, queue: seq<nat>, k: nat)
    requires ByAge(log, queue)
    ensures ByAge(log, Without(queue, k))
  {
    hide Since;
    if k in queue {
      var p := IndexOf(queue, k);
      var rest := Without(queue, k);
      assert rest == queue[..p] + queue[p + 1..];
      forall i: nat, j: nat | i < j < |rest|
        ensures Older(log, rest[i], rest[j])
      {
        assert Older(log, queue[if i < p then i else i + 1], queue[if j < p then j else j + 1]);
      }
    }
  }

  lemma SinceElsewhere<F>(log: Log<F>, e: Op<F>, k: nat)
    ensures e.key != k || e.Cloned? || e.Dropped? || e.Stored? ==> Since(log + [e], k) == Since(log, k)
    ensures Owes(e, k) ==> Since(log + [e], k) == if Since(log, k) == None then Some(|log|) else Since(log, k)
    ensures e == Begun(k) || e == Freed(k) ==> Since(log + [e], k) == None
  {
    assert (log + [e])[..|log|] == log;
  }

  /** At every moment the queue is exactly the tasks for which a poll is due, and the longest due is first. */
  lemma {:induction false} QueueByAge<F>(capacity: nat, log: Log<F>)
    requires Legal(capacity, log)
    ensures var queue := Replay(capacity, log).queue;
      ByAge(log, queue) && forall k :: k in queue <==> Since(log, k).Some?
  {
    if log != [] {
      var rest, e := log[..|log| - 1], log[|log| - 1];
      QueueByAge(capacity, rest);
      LogWellFormed(capacity, rest);
      assert log == rest + [e];
      hide Replay;
      QueueStep(rest, e, Replay(capacity, rest));
    }
  }

  lemma QueueStep<F>(log: Log<F>, e: Op<F>, s: Sched<F>)
    requires WellFormed(s) && Can(s, e)
    requires ByAge(log, s.queue) && forall k :: k in s.queue <==> Since(log, k).Some?
    ensures var queue := Do(s, e).queue;
      ByAge(log + [e], queue) && forall k :: k in queue <==> Since(log + [e], k).Some?
  {
    hide Since, Older, ByAge;
    var all, queue := log + [e], s.queue;
    var kept := if e.Begun? || e.Freed? then Without(queue, e.key) else queue;
    forall k: nat
      ensures k != e.key || e.Cloned? || e.Dropped? || e.Stored? ==> Since(all, k) == Since(log, k)
      ensures Owes(e, k) ==> Since(all, k) == if Since(log, k) == None then Some(|log|) else Since(log, k)
      ensures e == Begun(k) || e == Freed(k) ==> Since(all, k) == None
      ensures Since(log, k).Some? ==> Since(log, k).value < |log|
    {
      SinceElsewhere(log, e, k);
      SinceBelow(log, k);
    }
    if e.Begun? {
      TakenFirst(queue);
    }
    ByAgeWithout(log, queue, e.key);
    ByAgeSame(log, all, kept);
    if (e.Spawned? || e.Woken?) && e.key !in queue {
      forall j | j in queue
        ensures Older(all, j, e.key)
      {
        OlderIs(all, j, e.key);
      }
      ByAgeLast(all, queue, e.key);
    }
  }

  lemma OwedThen<F>(log: Log<F>, e: Op<F>, k: nat)
    ensures Owed(log + [e], k) <==> Owes(e, k) || (Owed(log, k) && e != Begun(k))
  {
    var all := log + [e];
    if Owes(e, k) {
      assert all[|log|] == e;
    }
    if Owed(log, k) && e != Begun(k) {
      var i :| 0 <= i < |log| && Owes(log[i], k) && forall j :: i < j < |log| ==> log[j] != Begun(k);
      assert Owes(all[i], k);
    }
    if Owed(all, k) && !Owes(e, k) {
      var i :| 0 <= i < |all| && Owes(all[i], k) && forall j :: i < j < |all| ==> all[j] != Begun(k);
      assert Owes(log[i], k) && all[|log|] == e;
      assert forall j :: i < j < |log| ==> log[j] == all[j];
    }
  }

  lemma {:induction false} DueIsOwed<F>(capacity: nat, log: Log<F>, k: nat)
    requires Legal(capacity, log) && k in Replay(capacity, log).tasks
    ensures Since(log, k).Some? <==> Owed(log, k)
  {
    if log != [] {
      var rest, e := log[..|log| - 1], log[|log| - 1];
      assert log == rest + [e];
      OwedThen(rest, e, k);
      SinceElsewhere(rest, e, k);
      hide Owed, Since;
      if e != Freed(k) && !(e.Spawned? && e.key == k) {
        DueIsOwed(capacity, rest, k);
      }
    }
  }

  /** At every moment the queue holds exactly the live tasks that are owed a poll. */
  lemma QueuedIffOwed<F>(capacity: nat, log: Log<F>, s: Sched<F>, k: nat)
    requires Logged(capacity, log, s) && k in s.tasks
    ensures k in s.queue <==> Owed(log, k)
  {
    hide Owed, Since, Replay;
    QueueByAge(capacity, log);
    DueIsOwed(capacity, log, k);
  }

  /** A task is awake exactly while it is owed a poll; in particular a wake leaves it owed one. */
  lemma AwakeIffOwed<F>(capacity: nat, log: Log<F>, s: Sched<F>)
    requires Logged(capacity, log, s)
    ensures forall k :: k in s.tasks ==> (s.tasks[k].awake <==> Owed(log, k))
  {
    hide Owed, Logged, Replay;
    LoggedWellFormed(capacity, log, s);
    forall k | k in s.tasks
      ensures s.tasks[k].awake <==> Owed(log, k)
    {
      QueuedIffOwed(capacity, log, s, k);
      AwakeIsQueued(s, k);
    }
  }

  lemma LoggedWellFormed<F>(capacity: nat, log: Log<F>, s: Sched<F>)
    requires Logged(capacity, log, s)
    ensures WellFormed(s)
  {
    LogWellFormed(capacity, log);
  }

  /** When the queue is empty, no live task has been woken since its last poll began. */
  lemma NothingOwed<F>(capacity: nat, log: Log<F>, s: Sched<F>)
    requires Logged(capacity, log, s) && s.queue == []
    ensures forall k :: k in s.tasks ==> !Owed(log, k)
  {
    hide Owed, Logged;
    forall k | k in s.tasks
      ensures !Owed(log, k)
    {
      QueuedIffOwed(capacity, log, s, k);
    }
  }

  /** A poll only ever begins because one is owed: any number of wakes before it cause just one. */
  lemma PolledBecauseOwed<F>(capacity: nat, log: Log<F>, i: nat)
    requires Legal(capacity, log) && i < |log| && log[i].Begun?
    ensures Owed(log[..i], log[i].key)
  {
    hide Owed;
    LegalPrefix(capacity, log, i);
    QueuedIffOwed(capacity, log[..i], Replay(capacity, log[..i]), log[i].key);
  }

  /** First in, first out: of all the polls that are due, the one that begins has been due longest. */
  lemma LongestDueFirst<F>(capacity: nat, log: Log<F>, i: nat, k: nat)
    requires Legal(capacity, log) && i < |log| && log[i].Begun?
    requires k != log[i].key && Since(log[..i], k).Some?
    ensures Older(log[..i], log[i].key, k)
  {
    hide Owed, Since, Replay, Older;
    LegalPrefix(capacity, log, i);
    QueueByAge(capacity, log[..i]);
    var queue := Replay(capacity, log[..i]).queue;
    assert queue[0] == log[i].key;
    var j := IndexOf(queue, k);
    assert Older(log[..i], queue[0], queue[j]);
  }

  // ----- clones

  /** The clones of `k`'s waker made and not yet dropped. */
  ghost function Outstanding<F>(log: Log<F>, k: nat): int {
    if log == [] then 0
    else
      var e, rest := log[|log| - 1], Outstanding(log[..|log| - 1], k);
      if e == Cloned(k) then rest + 1 else if e == Dropped(k) then rest - 1 else rest
  }

  /** A live task's count is one for its own waker and one for each clone outstanding; a slot that is vacant has no
      clone outstanding, whatever futures lived there before. */
  lemma {:induction false} CountIsExact<F>(capacity: nat, log: Log<F>, k: nat)
    requires Legal(capacity, log)
    ensures var s := Replay(capacity, log);
      Outstanding(log, k) == if k in s.tasks then s.tasks[k].refs - 1 else 0
  {
    if log != [] {
      CountIsExact(capacity, log[..|log| - 1], k);
    }
  }

  // ----- the use of a slot

  /** The last thing that happened to slot `k` was a spawn. */
  ghost predicate Live<F>(log: Log<F>, k: nat) {
    exists i :: 0 <= i < |log| && log[i].Spawned? && log[i].key == k && forall j :: i < j < |log| ==> log[j] != Freed(k)
  }

  lemma LiveThen<F>(log: Log<F>, e: Op<F>, k: nat)
    ensures Live(log + [e], k) <==> (e.Spawned? && e.key == k) || (Live(log, k) && e != Freed(k))
  {
    var all := log + [e];
    if e.Spawned? && e.key == k {
      assert all[|log|] == e;
    }
    if Live(log, k) && e != Freed(k) {
      var i :| 0 <= i < |log| && log[i].Spawned? && log[i].key == k && forall j :: i < j < |log| ==> log[j] != Freed(k);
      assert all[i] == log[i];
    }
    if Live(all, k) && !(e.Spawned? && e.key == k) {
      var i :| 0 <= i < |all| && all[i].Spawned? && all[i].key == k && forall j :: i < j < |all| ==> all[j] != Freed(k);
      assert all[i] == log[i] && all[|log|] == e;
      assert forall j :: i < j < |log| ==> log[j] == all[j];
    }
  }

  lemma {:induction false} LiveIsLive<F>(capacity: nat, log: Log<F>, k: nat)
    requires Legal(capacity, log)
    ensures k in Replay(capacity, log).tasks <==> Live(log, k)
  {
    if log != [] {
      var rest, e := log[..|log| - 1], log[|log| - 1];
      assert log == rest + [e];
      LiveThen(rest, e, k);
      hide Live;
      LiveIsLive(capacity, rest, k);
    }
  }

  /** Every future is dropped exactly once: between two spawns into a slot it is freed, and between two times it is
      freed there is a spawn. */
  lemma SpawnsAndEndsAlternate<F>(capacity: nat, log: Log<F>, i: nat, j: nat)
    requires Legal(capacity, log) && i < j < |log| && log[i].key == log[j].key
    ensures log[i].Spawned? && log[j].Spawned? ==> exists m :: i < m < j && log[m] == Freed(log[i].key)
    ensures log[i].Freed? && log[j].Freed? ==>
      exists m :: i < m < j && log[m].Spawned? && log[m].key == log[i].key
  {
    LegalPrefix(capacity, log, j);
    LiveIsLive(capacity, log[..j], log[i].key);
    assert log[..j][i] == log[i];
  }

  /** A future that has completed is never polled again: its slot is polled only after another spawn into it. */
  lemma NeverPolledAfterReady<F>(capacity: nat, log: Log<F>, i: nat, j: nat)
    requires Legal(capacity, log) && i < j < |log|
    requires log[i].Freed? && log[j] == Begun(log[i].key)
    ensures exists m :: i < m < j && log[m].Spawned? && log[m].key == log[i].key
  {
    LegalPrefix(capacity, log, j);
    LiveIsLive(capacity, log[..j], log[i].key);
    assert log[..j][i] == log[i];
  }
}
