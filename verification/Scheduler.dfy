/** The scheduler all three executors implement: a table of tasks and a FIFO queue of the
    tasks that are owed a poll. A vacant key is chosen by the caller of `Spawn`, so nothing
    here depends on the slab's allocation policy. */
module Scheduler {
  import opened Common

  /** `refs` counts the task's own waker and every live clone of it. */
  datatype Entry<F> = Entry(fut: F, awake: bool, refs: nat)

  datatype Sched<F> = Sched(capacity: nat, tasks: map<nat, Entry<F>>, queue: seq<nat>)

  ghost predicate WellFormed<F>(s: Sched<F>) {
    && Distinct(s.queue)
    && (forall k :: k in s.tasks ==> k < s.capacity && s.tasks[k].refs >= 1)
    && (forall k :: k in s.queue <==> k in s.tasks && s.tasks[k].awake)
  }

  function Empty<F>(capacity: nat): Sched<F> {
    Sched(capacity, map[], [])
  }

  function Spawn<F>(s: Sched<F>, k: nat, fut: F): Sched<F> {
    s.(tasks := s.tasks[k := Entry(fut, true, 1)], queue := s.queue + [k])
  }

  function Wake<F>(s: Sched<F>, k: nat): Sched<F>
    requires k in s.tasks
  {
    if s.tasks[k].awake then s
    else s.(tasks := s.tasks[k := s.tasks[k].(awake := true)], queue := s.queue + [k])
  }

  /** Takes the task at the front of the queue for a poll. */
  function Begin<F>(s: Sched<F>): Sched<F>
    requires s.queue != [] && s.queue[0] in s.tasks
  {
    s.(tasks := s.tasks[s.queue[0] := s.tasks[s.queue[0]].(awake := false)], queue := s.queue[1..])
  }

  /** Frees a completed task, taking it off the queue if it woke itself in its last poll. */
  ghost function Finish<F>(s: Sched<F>, k: nat): Sched<F> {
    s.(tasks := s.tasks - {k}, queue := Without(s.queue, k))
  }

  function SetFuture<F>(s: Sched<F>, k: nat, fut: F): Sched<F>
    requires k in s.tasks
  {
    s.(tasks := s.tasks[k := s.tasks[k].(fut := fut)])
  }

  function SetRefs<F>(s: Sched<F>, k: nat, refs: nat): Sched<F>
    requires k in s.tasks
  {
    s.(tasks := s.tasks[k := s.tasks[k].(refs := refs)])
  }

  // Every operation keeps the queue a duplicate-free list of exactly the live tasks that are awake.

  lemma SpawnWellFormed<F>(s: Sched<F>, k: nat, fut: F)
    requires WellFormed(s) && k < s.capacity && k !in s.tasks
    ensures WellFormed(Spawn(s, k, fut))
  {
    AllDiffer(s.queue);
    AddedLast(s.queue, k);
  }

  lemma AwakeIsQueued<F>(s: Sched<F>, k: nat)
    requires WellFormed(s) && k in s.tasks
    ensures k in s.queue <==> s.tasks[k].awake
  {
  }

  lemma WakeWellFormed<F>(s: Sched<F>, k: nat)
    requires WellFormed(s) && k in s.tasks
    ensures WellFormed(Wake(s, k))
  {
    if !s.tasks[k].awake {
      AddedLast(s.queue, k);
    }
  }

  lemma BeginWellFormed<F>(s: Sched<F>)
    requires WellFormed(s) && s.queue != []
    ensures s.queue[0] in s.tasks && WellFormed(Begin(s))
  {
    TakenFirst(s.queue);
    var k := s.queue[0];
    assert k in s.queue;
  }

  lemma FinishWellFormed<F>(s: Sched<F>, k: nat)
    requires WellFormed(s)
    ensures WellFormed(Finish(s, k))
  {
  }

  lemma SetFutureWellFormed<F>(s: Sched<F>, k: nat, fut: F)
    requires WellFormed(s) && k in s.tasks
    ensures WellFormed(SetFuture(s, k, fut))
  {
  }

  lemma SetRefsWellFormed<F>(s: Sched<F>, k: nat, refs: nat)
    requires WellFormed(s) && k in s.tasks && refs >= 1
    ensures WellFormed(SetRefs(s, k, refs))
  {
  }

  // ----- one operation at a time

  /** What can be done to a task table: `Woken`, `Cloned` and `Dropped` are uses of the task's waker, `Stored` is what
      a poll leaves in the future's slot. */
  datatype Op<F> =
    | Spawned(key: nat, fut: F)
    | Woken(key: nat)
    | Cloned(key: nat)
    | Dropped(key: nat)
    | Begun(key: nat)
    | Stored(key: nat, fut: F)
    | Freed(key: nat)

  /** A clone can be dropped only if there is one, and a task can be freed only if there is none. */
  ghost predicate Can<F>(s: Sched<F>, e: Op<F>) {
    match e
    case Spawned(k, _) => k !in s.tasks && k < s.capacity
    case Woken(k) => k in s.tasks
    case Cloned(k) => k in s.tasks
    case Dropped(k) => k in s.tasks && s.tasks[k].refs > 1
    case Begun(k) => s.queue != [] && s.queue[0] == k && k in s.tasks
    case Stored(k, _) => k in s.tasks
    case Freed(k) => k in s.tasks && s.tasks[k].refs == 1
  }

  ghost function Do<F>(s: Sched<F>, e: Op<F>): Sched<F> {
    if !Can(s, e) then s
    else
      match e
      case Spawned(k, fut) => Spawn(s, k, fut)
      case Woken(k) => Wake(s, k)
      case Cloned(k) => SetRefs(s, k, s.tasks[k].refs + 1)
      case Dropped(k) => SetRefs(s, k, s.tasks[k].refs - 1)
      case Begun(_) => Begin(s)
      case Stored(k, fut) => SetFuture(s, k, fut)
      case Freed(k) => Finish(s, k)
  }

  lemma DoWellFormed<F>(s: Sched<F>, e: Op<F>)
    requires WellFormed(s)
    ensures WellFormed(Do(s, e)) && Do(s, e).capacity == s.capacity
  {
    hide WellFormed;
    if Can(s, e) {
      match e
      case Spawned(k, fut) => SpawnWellFormed(s, k, fut);
      case Woken(k) => WakeWellFormed(s, k);
      case Cloned(k) => SetRefsWellFormed(s, k, s.tasks[k].refs + 1);
      case Dropped(k) => SetRefsWellFormed(s, k, s.tasks[k].refs - 1);
      case Begun(_) => BeginWellFormed(s);
      case Stored(k, fut) => SetFutureWellFormed(s, k, fut);
      case Freed(k) => FinishWellFormed(s, k);
    }
  }
}
