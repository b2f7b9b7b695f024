/** `mod boxrc` of `src/executor.rs`: boxed futures kept in the task, and one reference-counted
    waker per slot, made once and shared by every task that ever occupies the slot. */
module BoxRcExecutor {
  import opened Common
  import opened Scheduler
  import QueuedSlab

  datatype Task<F> = Task(fut: Option<F>, awake: bool)

  /** The slab holds exactly `tasks`, and the waker of a vacant slot has no clones. */
  ghost predicate Agrees<F>(values: map<nat, Task<F>>, counts: seq<nat>, tasks: map<nat, Entry<F>>) {
    && values.Keys == tasks.Keys
    && (forall k :: k in tasks ==> k < |counts| && values[k] == Task(Some(tasks[k].fut), tasks[k].awake))
    && (forall k :: 0 <= k < |counts| ==> counts[k] == if k in tasks then tasks[k].refs else 1)
  }

  lemma AgreesSize<F>(values: map<nat, Task<F>>, counts: seq<nat>, tasks: map<nat, Entry<F>>)
    requires Agrees(values, counts, tasks)
    ensures values.Keys == tasks.Keys && |values| == |tasks| <= |counts|
    ensures forall k :: k in values ==> k < |counts|
  {
    VacantBelow(values.Keys, |counts|);
    assert |values.Keys| == |tasks.Keys|;
  }

  lemma AgreesPut<F>(values: map<nat, Task<F>>, counts: seq<nat>, tasks: map<nat, Entry<F>>, k: nat, e: Entry<F>)
    requires Agrees(values, counts, tasks) && (k in tasks || k < |counts|)
    ensures k < |counts| && Agrees(values[k := Task(Some(e.fut), e.awake)], counts[k := e.refs], tasks[k := e])
    ensures k in tasks ==> k in values && values[k] == Task(Some(tasks[k].fut), tasks[k].awake)
    ensures counts[k] == (if k in tasks then tasks[k].refs else 1)
    ensures k in tasks && tasks[k].fut == e.fut && tasks[k].awake == e.awake ==>
      values[k := Task(Some(e.fut), e.awake)] == values
    ensures counts[k] == e.refs ==> counts[k := e.refs] == counts
  {
  }

  lemma AgreesFree<F>(values: map<nat, Task<F>>, counts: seq<nat>, tasks: map<nat, Entry<F>>, k: nat)
    requires Agrees(values, counts, tasks) && k in tasks && tasks[k].refs == 1
    ensures Agrees(values - {k}, counts, tasks - {k}) && k in values
  {
  }

  class Tasks<F> {
    const capacity: nat
    const data: QueuedSlab.Slab<Task<F>>
    const counts: array<nat>
    ghost var model: Sched<F>

    ghost predicate Valid()
      reads this, data, data.nodes, data.next, counts
      ensures Valid() ==> WellFormed(model) && model.capacity == capacity
    {
      && WellFormed(model) && model.capacity == capacity == counts.Length
      && data.Valid() && data.queue == model.queue && Agrees(data.values, counts[..], model.tasks)
    }

    constructor (tasksMax: nat)
      ensures Valid() && model == Empty(tasksMax)
      ensures fresh(data) && fresh(data.nodes) && fresh(data.next) && fresh(counts)
    {
      capacity := tasksMax;
      data := new QueuedSlab.Slab();
      counts := new nat[tasksMax](_ => 1);
      model := Empty(tasksMax);
    }

    method IsEmpty() returns (empty: bool)
      requires Valid()
      ensures empty <==> model.tasks == map[]
    {
      var n := data.Len();
      empty := n == 0;
      assert data.values.Keys == model.tasks.Keys;
    }

    method Add(fut: F) returns (key: Option<nat>)
      requires Valid()
      modifies this, data, data.nodes, data.next, counts
      ensures Valid()
      ensures key.None? <==> |old(model).tasks| == capacity
      ensures key.None? ==> model == old(model)
      ensures key.Some? ==> key.value < capacity && key.value !in old(model).tasks
      ensures key.Some? ==> model == Spawn(old(model), key.value, fut)
    {
      hide QueuedSlab.Slab.Valid, WellFormed, Agrees;
      AgreesSize(data.values, counts[..], model.tasks);
      var n := data.Len();
      if n == capacity {
        return None;
      }
      var k := data.VacantEntry(capacity);
      SpawnWellFormed(model, k, fut);
      AgreesPut(data.values, counts[..], model.tasks, k, Entry(fut, true, 1));
      data.InsertQueued(k, Task(Some(fut), true));
      model := Spawn(model, k, fut);
      key := Some(k);
    }

    method IsLive(k: nat) returns (live: bool)
      requires Valid()
      ensures live <==> k in model.tasks
    {
      live := k in data.nodes.nodes;
    }

    method Wake(taskId: nat)
      requires Valid() && taskId in model.tasks
      modifies this, data, data.nodes, data.next
      ensures Valid()
      ensures model == Scheduler.Wake(old(model), taskId)
    {
      hide QueuedSlab.Slab.Valid, WellFormed, Agrees;
      WakeWellFormed(model, taskId);
      AgreesPut(data.values, counts[..], model.tasks, taskId, model.tasks[taskId].(awake := true));
      var task := data.Get(taskId);
      if !task.awake {
        AwakeIsQueued(model, taskId);
        data.Set(taskId, task.(awake := true));
        data.Requeue(taskId);
        model := Scheduler.Wake(model, taskId);
      }
    }

    /** The first block of `process_next`: takes the front task off the queue and hands out its future. */
    method Begin() returns (key: Option<nat>, fut: Option<F>)
      requires Valid()
      modifies this, data, data.nodes, data.next
      ensures Valid()
      ensures key.None? <==> old(model).queue == []
      ensures key.None? ==> model == old(model)
      ensures key.Some? ==> key.value == old(model).queue[0] && key.value in old(model).tasks
      ensures key.Some? ==> model == Scheduler.Begin(old(model)) && fut == Some(old(model).tasks[key.value].fut)
    {
      hide QueuedSlab.Slab.Valid, WellFormed, Agrees;
      key := data.Head();
      if key.None? {
        return None, None;
      }
      var k := key.value;
      BeginWellFormed(model);
      AgreesPut(data.values, counts[..], model.tasks, k, model.tasks[k].(awake := false));
      data.Dequeue(k);
      var task := data.Get(k);
      data.Set(k, task.(awake := false));
      fut := task.fut;
      model := Scheduler.Begin(model);
    }

    /** The in-place effect of a poll on the stored future. */
    method SetFuture(k: nat, fut: F)
      requires Valid() && k in model.tasks
      modifies this, data, data.nodes
      ensures Valid()
      ensures model == Scheduler.SetFuture(old(model), k, fut)
    {
      hide QueuedSlab.Slab.Valid, WellFormed, Agrees;
      SetFutureWellFormed(model, k, fut);
      AgreesPut(data.values, counts[..], model.tasks, k, model.tasks[k].(fut := fut));
      var task := data.Get(k);
      data.Set(k, task.(fut := Some(fut)));
      model := Scheduler.SetFuture(model, k, fut);
    }

    /** The `done` block of `process_next`; the count assertion is its precondition. */
    method Finish(k: nat)
      requires Valid() && k in model.tasks
      requires model.tasks[k].refs == 1
      modifies this, data, data.nodes, data.next, counts
      ensures Valid()
      ensures model == Scheduler.Finish(old(model), k)
    {
      hide QueuedSlab.Slab.Valid, WellFormed, Agrees;
      FinishWellFormed(model, k);
      AgreesFree(data.values, counts[..], model.tasks, k);
      var task := data.Get(k);
      data.Set(k, task.(fut := None));
      data.Free(k);
      assert data.values == old(data.values) - {k};
      model := Scheduler.Finish(model, k);
    }

    method WakerCount(k: nat) returns (refs: nat)
      requires Valid() && k in model.tasks
      ensures refs == model.tasks[k].refs
    {
      refs := counts[k];
    }

    method CloneWaker(k: nat)
      requires Valid() && k in model.tasks
      modifies this, counts
      ensures Valid()
      ensures model == SetRefs(old(model), k, old(model).tasks[k].refs + 1)
    {
      hide QueuedSlab.Slab.Valid, WellFormed, Agrees;
      ghost var e := model.tasks[k].(refs := model.tasks[k].refs + 1);
      SetRefsWellFormed(model, k, e.refs);
      AgreesPut(data.values, counts[..], model.tasks, k, e);
      counts[k] := counts[k] + 1;
      assert counts[..] == old(counts[..])[k := e.refs];
      model := SetRefs(model, k, model.tasks[k].refs + 1);
    }

    /** Dropping a clone; a clone exists, so the slot's own waker is not the last. */
    method DropWaker(k: nat)
      requires Valid() && k in model.tasks && model.tasks[k].refs > 1
      modifies this, counts
      ensures Valid()
      ensures model == SetRefs(old(model), k, old(model).tasks[k].refs - 1)
    {
      hide QueuedSlab.Slab.Valid, WellFormed, Agrees;
      ghost var e := model.tasks[k].(refs := model.tasks[k].refs - 1);
      SetRefsWellFormed(model, k, e.refs);
      AgreesPut(data.values, counts[..], model.tasks, k, e);
      counts[k] := counts[k] - 1;
      assert counts[..] == old(counts[..])[k := e.refs];
      model := SetRefs(model, k, model.tasks[k].refs - 1);
    }

    /** `wake` by value: wakes the slot's task, then drops the clone. */
    method WakeAndDrop(k: nat)
      requires Valid() && k in model.tasks && model.tasks[k].refs > 1
      modifies this, data, data.nodes, data.next, counts
      ensures Valid()
      ensures model == SetRefs(Scheduler.Wake(old(model), k), k, old(model).tasks[k].refs - 1)
    {
      hide QueuedSlab.Slab.Valid, WellFormed, Agrees;
      Wake(k);
      DropWaker(k);
    }
  }
}
