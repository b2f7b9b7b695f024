/** `mod arg` of `src/executor.rs`: futures stored by value beside the task slab, wakers
    embedded in the tasks. */
module ArgExecutor {
  import opened Common
  import opened Scheduler
  import QueuedSlab

  datatype Task = Task(refs: nat, awake: bool)

  /** The slab and the future slots hold exactly `tasks`; a slot is initialised just when its task is live. */
  ghost predicate Agrees<F>(values: map<nat, Task>, futs: seq<Option<F>>, tasks: map<nat, Entry<F>>) {
    && values.Keys == tasks.Keys
    && (forall k :: k in tasks ==> k < |futs| && values[k] == Task(tasks[k].refs, tasks[k].awake))
    && (forall k :: 0 <= k < |futs| ==> futs[k] == if k in tasks then Some(tasks[k].fut) else None)
  }

  lemma AgreesSize<F>(values: map<nat, Task>, futs: seq<Option<F>>, tasks: map<nat, Entry<F>>)
    requires Agrees(values, futs, tasks)
    ensures values.Keys == tasks.Keys && |values| == |tasks| <= |futs|
    ensures forall k :: k in values ==> k < |futs|
  {
    VacantBelow(values.Keys, |futs|);
    assert |values.Keys| == |tasks.Keys|;
  }

  lemma AgreesPut<F>(values: map<nat, Task>, futs: seq<Option<F>>, tasks: map<nat, Entry<F>>, k: nat, e: Entry<F>)
    requires Agrees(values, futs, tasks) && (k in tasks || k < |futs|)
    ensures k < |futs| && Agrees(values[k := Task(e.refs, e.awake)], futs[k := Some(e.fut)], tasks[k := e])
    ensures k in tasks ==> k in values && values[k] == Task(tasks[k].refs, tasks[k].awake)
    ensures futs[k] == if k in tasks then Some(tasks[k].fut) else None
    ensures k in tasks && tasks[k].refs == e.refs && tasks[k].awake == e.awake ==>
      values[k := Task(e.refs, e.awake)] == values
    ensures k in tasks && tasks[k].fut == e.fut ==> futs[k := Some(e.fut)] == futs
  {
  }

  lemma AgreesFree<F>(values: map<nat, Task>, futs: seq<Option<F>>, tasks: map<nat, Entry<F>>, k: nat)
    requires Agrees(values, futs, tasks) && k in tasks
    ensures k < |futs| && Agrees(values - {k}, futs[k := None], tasks - {k}) && k in values && futs[k].Some?
  {
  }

  class Tasks<F> {
    const capacity: nat
    const data: QueuedSlab.Slab<Task>
    const futs: array<Option<F>>
    ghost var model: Sched<F>

    ghost predicate Valid()
      reads this, data, data.nodes, data.next, futs
      ensures Valid() ==> WellFormed(model) && model.capacity == capacity
    {
      && WellFormed(model) && model.capacity == capacity == futs.Length
      && data.Valid() && data.queue == model.queue && Agrees(data.values, futs[..], model.tasks)
    }

    constructor (tasksMax: nat)
      ensures Valid() && model == Empty(tasksMax)
      ensures fresh(data) && fresh(data.nodes) && fresh(data.next) && fresh(futs)
    {
      capacity := tasksMax;
      data := new QueuedSlab.Slab();
      futs := new Option<F>[tasksMax](_ => None);
      model := Empty(tasksMax);
    }

    method IsEmpty() returns (empty: bool)
      requires Valid()
      ensures empty <==> model.tasks == map[]
    {
      var n := data.Len();
      empty := n == 0;
      assert data.values.Keys == model.tasks.Keys;
    }

    method Add(fut: F) returns (key: Option<nat>)
      requires Valid()
      modifies this, data, data.nodes, data.next, futs
      ensures Valid()
      ensures key.None? <==> |old(model).tasks| == capacity
      ensures key.None? ==> model == old(model)
      ensures key.Some? ==> key.value < capacity && key.value !in old(model).tasks
      ensures key.Some? ==> model == Spawn(old(model), key.value, fut)
      ensures key.Some? ==> key.value < futs.Length && old(futs[..])[key.value] == None && futs[key.value] == Some(fut)
    {
      hide QueuedSlab.Slab.Valid, WellFormed, Agrees;
      AgreesSize(data.values, futs[..], model.tasks);
      var n := data.Len();
      if n == capacity {
        return None;
      }
      var k := data.VacantEntry(capacity);
      SpawnWellFormed(model, k, fut);
      AgreesPut(data.values, futs[..], model.tasks, k, Entry(fut, true, 1));
      data.InsertQueued(k, Task(1, true));
      futs[k] := Some(fut);
      model := Spawn(model, k, fut);
      assert futs[..] == old(futs[..])[k := Some(fut)];
      key := Some(k);
    }

    method IsLive(k: nat) returns (live: bool)
      requires Valid()
      ensures live <==> k in model.tasks
    {
      live := k in data.nodes.nodes;
    }

    method Wake(taskId: nat)
      requires Valid() && taskId in model.tasks
      modifies this, data, data.nodes, data.next
      ensures Valid()
      ensures model == Scheduler.Wake(old(model), taskId)
    {
      hide QueuedSlab.Slab.Valid, WellFormed, Agrees;
      WakeWellFormed(model, taskId);
      AgreesPut(data.values, futs[..], model.tasks, taskId, model.tasks[taskId].(awake := true));
      var task := data.Get(taskId);
      if !task.awake {
        AwakeIsQueued(model, taskId);
        data.Set(taskId, task.(awake := true));
        data.Requeue(taskId);
        model := Scheduler.Wake(model, taskId);
      }
    }

    /** The first block of `process_next`: takes the front task off the queue and hands out its future. */
    method Begin() returns (key: Option<nat>, fut: Option<F>)
      requires Valid()
      modifies this, data, data.nodes, data.next
      ensures Valid()
      ensures key.None? <==> old(model).queue == []
      ensures key.None? ==> model == old(model)
      ensures key.Some? ==> key.value == old(model).queue[0] && key.value in old(model).tasks
      ensures key.Some? ==> model == Scheduler.Begin(old(model)) && fut == Some(old(model).tasks[key.value].fut)
    {
      hide QueuedSlab.Slab.Valid, WellFormed, Agrees;
      key := data.Head();
      if key.None? {
        return None, None;
      }
      var k := key.value;
      BeginWellFormed(model);
      AgreesPut(data.values, futs[..], model.tasks, k, model.tasks[k].(awake := false));
      data.Dequeue(k);
      var task := data.Get(k);
      data.Set(k, task.(awake := false));
      fut := futs[k];
      model := Scheduler.Begin(model);
    }

    /** The in-place effect of a poll on the stored future. */
    method SetFuture(k: nat, fut: F)
      requires Valid() && k in model.tasks
      modifies this, futs
      ensures Valid()
      ensures model == Scheduler.SetFuture(old(model), k, fut)
    {
      hide QueuedSlab.Slab.Valid, WellFormed, Agrees;
      SetFutureWellFormed(model, k, fut);
      AgreesPut(data.values, futs[..], model.tasks, k, model.tasks[k].(fut := fut));
      futs[k] := Some(fut);
      model := Scheduler.SetFuture(model, k, fut);
      assert futs[..] == old(futs[..])[k := Some(fut)];
    }

    /** The `done` block of `process_next`; the count assertion is its precondition. */
    method Finish(k: nat)
      requires Valid() && k in model.tasks
      requires model.tasks[k].refs == 1
      modifies this, data, data.nodes, data.next, futs
      ensures Valid()
      ensures model == Scheduler.Finish(old(model), k)
      ensures k < futs.Length && old(futs[..])[k].Some? && futs[k] == None
    {
      hide QueuedSlab.Slab.Valid, WellFormed, Agrees;
      FinishWellFormed(model, k);
      AgreesFree(data.values, futs[..], model.tasks, k);
      futs[k] := None;
      data.Free(k);
      model := Scheduler.Finish(model, k);
      assert futs[..] == old(futs[..])[k := None];
    }

    method WakerCount(k: nat) returns (refs: nat)
      requires Valid() && k in model.tasks
      ensures refs == model.tasks[k].refs
    {
      var task := data.Get(k);
      refs := task.refs;
    }

    method CloneWaker(k: nat)
      requires Valid() && k in model.tasks
      modifies this, data, data.nodes
      ensures Valid()
      ensures model == SetRefs(old(model), k, old(model).tasks[k].refs + 1)
    {
      hide QueuedSlab.Slab.Valid, WellFormed, Agrees;
      ghost var e := model.tasks[k].(refs := model.tasks[k].refs + 1);
      SetRefsWellFormed(model, k, e.refs);
      AgreesPut(data.values, futs[..], model.tasks, k, e);
      var task := data.Get(k);
      data.Set(k, task.(refs := task.refs + 1));
      model := SetRefs(model, k, model.tasks[k].refs + 1);
    }

    /** Dropping a clone; the waker's own assertion is the precondition. */
    method DropWaker(k: nat)
      requires Valid() && k in model.tasks && model.tasks[k].refs > 1
      modifies this, data, data.nodes
      ensures Valid()
      ensures model == SetRefs(old(model), k, old(model).tasks[k].refs - 1)
    {
      hide QueuedSlab.Slab.Valid, WellFormed, Agrees;
      ghost var e := model.tasks[k].(refs := model.tasks[k].refs - 1);
      SetRefsWellFormed(model, k, e.refs);
      AgreesPut(data.values, futs[..], model.tasks, k, e);
      var task := data.Get(k);
      data.Set(k, task.(refs := task.refs - 1));
      model := SetRefs(model, k, model.tasks[k].refs - 1);
    }

    /** `EmbedWaker::wake`: wakes by reference, then drops the clone. */
    method WakeAndDrop(k: nat)
      requires Valid() && k in model.tasks && model.tasks[k].refs > 1
      modifies this, data, data.nodes, data.next
      ensures Valid()
      ensures model == SetRefs(Scheduler.Wake(old(model), k), k, old(model).tasks[k].refs - 1)
    {
      hide QueuedSlab.Slab.Valid, WellFormed, Agrees;
      Wake(k);
      DropWaker(k);
    }
  }
}
