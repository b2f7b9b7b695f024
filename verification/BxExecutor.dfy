/** `mod bx` of `src/executor.rs`: boxed futures and embedded wakers, both kept in the task. */
module BxExecutor {
  import opened Common
  import opened Scheduler
  import QueuedSlab

  datatype Task<F> = Task(fut: Option<F>, refs: nat, awake: bool)

  /** The slab holds exactly `tasks`; a live task always has its future. */
  ghost predicate Agrees<F>(values: map<nat, Task<F>>, tasks: map<nat, Entry<F>>) {
    && values.Keys == tasks.Keys
    && (forall k :: k in tasks ==> values[k] == Task(Some(tasks[k].fut), tasks[k].refs, tasks[k].awake))
  }

  lemma AgreesSize<F>(values: map<nat, Task<F>>, s: Sched<F>)
    requires Agrees(values, s.tasks) && WellFormed(s)
    ensures values.Keys == s.tasks.Keys && |values| == |s.tasks| <= s.capacity
    ensures forall k :: k in values ==> k < s.capacity
  {
    VacantBelow(values.Keys, s.capacity);
    assert |values.Keys| == |s.tasks.Keys|;
  }

  lemma AgreesPut<F>(values: map<nat, Task<F>>, tasks: map<nat, Entry<F>>, k: nat, e: Entry<F>)
    requires Agrees(values, tasks)
    ensures Agrees(values[k := Task(Some(e.fut), e.refs, e.awake)], tasks[k := e])
    ensures k in tasks ==> k in values && values[k] == Task(Some(tasks[k].fut), tasks[k].refs, tasks[k].awake)
  {
  }

  lemma AgreesFree<F>(values: map<nat, Task<F>>, tasks: map<nat, Entry<F>>, k: nat)
    requires Agrees(values, tasks) && k in tasks
    ensures Agrees(values - {k}, tasks - {k}) && k in values
  {
  }

  class Tasks<F> {
    const capacity: nat
    const data: QueuedSlab.Slab<Task<F>>
    ghost var model: Sched<F>

    ghost predicate Valid()
      reads this, data, data.nodes, data.next
      ensures Valid() ==> WellFormed(model) && model.capacity == capacity
    {
      && WellFormed(model) && model.capacity == capacity
      && data.Valid() && data.queue == model.queue && Agrees(data.values, model.tasks)
    }

    constructor (tasksMax: nat)
      ensures Valid() && model == Empty(tasksMax)
      ensures fresh(data) && fresh(data.nodes) && fresh(data.next)
    {
      capacity := tasksMax;
      data := new QueuedSlab.Slab();
      model := Empty(tasksMax);
    }

    method IsEmpty() returns (empty: bool)
      requires Valid()
      ensures empty <==> model.tasks == map[]
    {
      var n := data.Len();
      empty := n == 0;
      assert data.values.Keys == model.tasks.Keys;
    }

    method Add(fut: F) returns (key: Option<nat>)
      requires Valid()
      modifies this, data, data.nodes, data.next
      ensures Valid()
      ensures key.None? <==> |old(model).tasks| == capacity
      ensures key.None? ==> model == old(model)
      ensures key.Some? ==> key.value < capacity && key.value !in old(model).tasks
      ensures key.Some? ==> model == Spawn(old(model), key.value, fut)
    {
      hide QueuedSlab.Slab.Valid, WellFormed, Agrees;
      AgreesSize(data.values, model);
      var n := data.Len();
      if n == capacity {
        return None;
      }
      var k := data.VacantEntry(capacity);
      SpawnWellFormed(model, k, fut);
      AgreesPut(data.values, model.tasks, k, Entry(fut, true, 1));
      data.InsertQueued(k, Task(Some(fut), 1, true));
      model := Spawn(model, k, fut);
      key := Some(k);
    }

    method IsLive(k: nat) returns (live: bool)
      requires Valid()
      ensures live <==> k in model.tasks
    {
      live := k in data.nodes.nodes;
    }

    method Wake(taskId: nat)
      requires Valid() && taskId in model.tasks
      modifies this, data, data.nodes, data.next
      ensures Valid()
      ensures model == Scheduler.Wake(old(model), taskId)
    {
      hide QueuedSlab.Slab.Valid, WellFormed, Agrees;
      WakeWellFormed(model, taskId);
      AgreesPut(data.values, model.tasks, taskId, model.tasks[taskId].(awake := true));
      var task := data.Get(taskId);
      if !task.awake {
        AwakeIsQueued(model, taskId);
        data.Set(taskId, task.(awake := true));
        data.Requeue(taskId);
        model := Scheduler.Wake(model, taskId);
      }
    }

    /** The first block of `process_next`: takes the front task off the queue and hands out its future. */
    method Begin() returns (key: Option<nat>, fut: Option<F>)
      requires Valid()
      modifies this, data, data.nodes, data.next
      ensures Valid()
      ensures key.None? <==> old(model).queue == []
      ensures key.None? ==> model == old(model)
      ensures key.Some? ==> key.value == old(model).queue[0] && key.value in old(model).tasks
      ensures key.Some? ==> model == Scheduler.Begin(old(model)) && fut == Some(old(model).tasks[key.value].fut)
    {
      hide QueuedSlab.Slab.Valid, WellFormed, Agrees;
      key := data.Head();
      if key.None? {
        return None, None;
      }
      var k := key.value;
      BeginWellFormed(model);
      AgreesPut(data.values, model.tasks, k, model.tasks[k].(awake := false));
      data.Dequeue(k);
      var task := data.Get(k);
      data.Set(k, task.(awake := false));
      fut := task.fut;
      model := Scheduler.Begin(model);
    }

    /** The in-place effect of a poll on the stored future. */
    method SetFuture(k: nat, fut: F)
      requires Valid() && k in model.tasks
      modifies this, data, data.nodes
      ensures Valid()
      ensures model == Scheduler.SetFuture(old(model), k, fut)
    {
      hide QueuedSlab.Slab.Valid, WellFormed, Agrees;
      SetFutureWellFormed(model, k, fut);
      AgreesPut(data.values, model.tasks, k, model.tasks[k].(fut := fut));
      var task := data.Get(k);
      data.Set(k, task.(fut := Some(fut)));
      model := Scheduler.SetFuture(model, k, fut);
    }

    /** The `done` block of `process_next`; the count assertion is its precondition. */
    method Finish(k: nat)
      requires Valid() && k in model.tasks
      requires model.tasks[k].refs == 1
      modifies this, data, data.nodes, data.next
      ensures Valid()
      ensures model == Scheduler.Finish(old(model), k)
    {
      hide QueuedSlab.Slab.Valid, WellFormed, Agrees;
      FinishWellFormed(model, k);
      AgreesFree(data.values, model.tasks, k);
      var task := data.Get(k);
      data.Set(k, task.(fut := None));
      data.Free(k);
      assert data.values == old(data.values) - {k};
      model := Scheduler.Finish(model, k);
    }

    method WakerCount(k: nat) returns (refs: nat)
      requires Valid() && k in model.tasks
      ensures refs == model.tasks[k].refs
    {
      var task := data.Get(k);
      refs := task.refs;
    }

    method CloneWaker(k: nat)
      requires Valid() && k in model.tasks
      modifies this, data, data.nodes
      ensures Valid()
      ensures model == SetRefs(old(model), k, old(model).tasks[k].refs + 1)
    {
      hide QueuedSlab.Slab.Valid, WellFormed, Agrees;
      ghost var e := model.tasks[k].(refs := model.tasks[k].refs + 1);
      SetRefsWellFormed(model, k, e.refs);
      AgreesPut(data.values, model.tasks, k, e);
      var task := data.Get(k);
      data.Set(k, task.(refs := task.refs + 1));
      model := SetRefs(model, k, model.tasks[k].refs + 1);
    }

    /** Dropping a clone; the waker's own assertion is the precondition. */
    method DropWaker(k: nat)
      requires Valid() && k in model.tasks && model.tasks[k].refs > 1
      modifies this, data, data.nodes
      ensures Valid()
      ensures model == SetRefs(old(model), k, old(model).tasks[k].refs - 1)
    {
      hide QueuedSlab.Slab.Valid, WellFormed, Agrees;
      ghost var e := model.tasks[k].(refs := model.tasks[k].refs - 1);
      SetRefsWellFormed(model, k, e.refs);
      AgreesPut(data.values, model.tasks, k, e);
      var task := data.Get(k);
      data.Set(k, task.(refs := task.refs - 1));
      model := SetRefs(model, k, model.tasks[k].refs - 1);
    }

    /** `EmbedWaker::wake`: wakes by reference, then drops the clone. */
    method WakeAndDrop(k: nat)
      requires Valid() && k in model.tasks && model.tasks[k].refs > 1
      modifies this, data, data.nodes, data.next
      ensures Valid()
      ensures model == SetRefs(Scheduler.Wake(old(model), k), k, old(model).tasks[k].refs - 1)
    {
      hide QueuedSlab.Slab.Valid, WellFormed, Agrees;
      Wake(k);
      DropWaker(k);
    }
  }
}
