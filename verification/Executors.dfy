/** One of the three executors' task tables, with the log of all that is done to it. Whatever holds of
    the table through this class holds of all three. */
module Executors {
  import opened Common
  import opened Scheduler
  import opened TaskLog
  import ArgExecutor
  import BxExecutor
  import BoxRcExecutor

  datatype Kind = NonBox | Box | BoxRc

  datatype Table<F> =
    | ArgTable(arg: ArgExecutor.Tasks<F>)
    | BxTable(bx: BxExecutor.Tasks<F>)
    | BoxRcTable(rc: BoxRcExecutor.Tasks<F>)
  {
    /** Every object the table is made of. */
    ghost function Parts(): set<object> {
      match this
      case ArgTable(t) => {t, t.data, t.data.nodes, t.data.next, t.futs}
      case BxTable(t) => {t, t.data, t.data.nodes, t.data.next}
      case BoxRcTable(t) => {t, t.data, t.data.nodes, t.data.next, t.counts}
    }

    ghost predicate Valid()
      reads Parts()
    {
      match this
      case ArgTable(t) => t.Valid()
      case BxTable(t) => t.Valid()
      case BoxRcTable(t) => t.Valid()
    }

    ghost function Model(): Sched<F>
      reads Parts()
    {
      match this
      case ArgTable(t) => t.model
      case BxTable(t) => t.model
      case BoxRcTable(t) => t.model
    }
  }

  class Tasks<F> {
    const capacity: nat
    const table: Table<F>
    ghost const parts: set<object>
    ghost var model: Sched<F>
    ghost var log: Log<F>

    ghost predicate Valid()
      reads this, parts
      ensures Valid() ==> WellFormed(model) && model.capacity == capacity && Logged(capacity, log, model)
    {
      && parts == table.Parts() && this !in parts && table.Valid()
      && model == table.Model() && WellFormed(model) && model.capacity == capacity && Logged(capacity, log, model)
    }

    constructor (kind: Kind, tasksMax: nat)
      ensures Valid() && model == Empty(tasksMax) && log == [] && capacity == tasksMax
      ensures table.ArgTable? <==> kind.NonBox?
      ensures table.BxTable? <==> kind.Box?
      ensures table.BoxRcTable? <==> kind.BoxRc?
      ensures fresh(parts)
    {
      capacity := tasksMax;
      match kind {
        case NonBox =>
          var t := new ArgExecutor.Tasks<F>(tasksMax);
          table, parts := ArgTable(t), ArgTable(t).Parts();
        case Box =>
          var t := new BxExecutor.Tasks<F>(tasksMax);
          table, parts := BxTable(t), BxTable(t).Parts();
        case BoxRc =>
          var t := new BoxRcExecutor.Tasks<F>(tasksMax);
          table, parts := BoxRcTable(t), BoxRcTable(t).Parts();
      }
      model, log := Empty(tasksMax), [];
    }

    method IsEmpty() returns (empty: bool)
      requires Valid()
      ensures empty <==> model.tasks == map[]
    {
      hide ArgExecutor.Tasks.Valid, BxExecutor.Tasks.Valid, BoxRcExecutor.Tasks.Valid, WellFormed, Logged;
      match table {
        case ArgTable(t) => empty := t.IsEmpty();
        case BxTable(t) => empty := t.IsEmpty();
        case BoxRcTable(t) => empty := t.IsEmpty();
      }
    }

    /** Refused exactly when the table is full. */
    method Add(fut: F) returns (key: Option<nat>)
      requires Valid()
      modifies this, parts
      ensures Valid()
      ensures key.None? <==> |old(model).tasks| == capacity
      ensures key.None? ==> model == old(model) && log == old(log)
      ensures key.Some? ==> key.value < capacity && key.value !in old(model).tasks
      ensures key.Some? ==> model == Spawn(old(model), key.value, fut) && log == old(log) + [Spawned(key.value, fut)]
    {
      hide ArgExecutor.Tasks.Valid, BxExecutor.Tasks.Valid, BoxRcExecutor.Tasks.Valid, WellFormed, Logged;
      match table {
        case ArgTable(t) => key := t.Add(fut);
        case BxTable(t) => key := t.Add(fut);
        case BoxRcTable(t) => key := t.Add(fut);
      }
      if key.Some? {
        Note(Spawned(key.value, fut));
      }
    }

    /** The table has done `e`; model and log follow. */
    ghost method Note(e: Op<F>)
      requires parts == table.Parts() && this !in parts && table.Valid() && WellFormed(model) &&
        model.capacity == capacity
      requires Logged(capacity, log, model) && Can(model, e) && table.Model() == Do(model, e)
      modifies this`model, this`log
      ensures Valid() && model == Do(old(model), e) && log == old(log) + [e]
    {
      LoggedThen(capacity, log, model, e);
      DoWellFormed(model, e);
      model, log := Do(model, e), log + [e];
    }

    ghost method NoteWaking(k: nat)
      requires parts == table.Parts() && this !in parts && table.Valid() && WellFormed(model) &&
        model.capacity == capacity
      requires Logged(capacity, log, model) && k in model.tasks && model.tasks[k].refs > 1
      requires table.Model() == SetRefs(Scheduler.Wake(model, k), k, model.tasks[k].refs - 1)
      modifies this`model, this`log
      ensures Valid() && model == table.Model() && log == old(log) + [Woken(k), Dropped(k)]
    {
      hide Logged, WellFormed;
      LoggedThen(capacity, log, model, Woken(k));
      DoWellFormed(model, Woken(k));
      ghost var mid := Scheduler.Wake(model, k);
      LoggedThen(capacity, log + [Woken(k)], mid, Dropped(k));
      DoWellFormed(mid, Dropped(k));
      model, log := table.Model(), log + [Woken(k)] + [Dropped(k)];
    }

    method Wake(k: nat)
      requires Valid() && k in model.tasks
      modifies this, parts
      ensures Valid() && model == Scheduler.Wake(old(model), k) && log == old(log) + [Woken(k)]
    {
      hide ArgExecutor.Tasks.Valid, BxExecutor.Tasks.Valid, BoxRcExecutor.Tasks.Valid, WellFormed, Logged;
      match table {
        case ArgTable(t) => t.Wake(k);
        case BxTable(t) => t.Wake(k);
        case BoxRcTable(t) => t.Wake(k);
      }
      Note(Woken(k));
    }

    /** Takes the front task off the queue and hands out its future. */
    method Begin() returns (key: Option<nat>, fut: Option<F>)
      requires Valid()
      modifies this, parts
      ensures Valid() && (key.None? <==> old(model).queue == [])
      ensures key.None? ==> model == old(model) && log == old(log)
      ensures key.Some? ==> key.value == old(model).queue[0] && key.value in old(model).tasks
      ensures key.Some? ==> model == Scheduler.Begin(old(model)) && log == old(log) + [Begun(key.value)]
      ensures key.Some? ==> fut == Some(old(model).tasks[key.value].fut)
    {
      hide ArgExecutor.Tasks.Valid, BxExecutor.Tasks.Valid, BoxRcExecutor.Tasks.Valid, WellFormed, Logged;
      match table {
        case ArgTable(t) => key, fut := t.Begin();
        case BxTable(t) => key, fut := t.Begin();
        case BoxRcTable(t) => key, fut := t.Begin();
      }
      if key.Some? {
        Note(Begun(key.value));
      }
    }

    /** The in-place effect of a poll on the stored future. */
    method SetFuture(k: nat, fut: F)
      requires Valid() && k in model.tasks
      modifies this, parts
      ensures Valid() && model == Scheduler.SetFuture(old(model), k, fut) && log == old(log) + [Stored(k, fut)]
    {
      hide ArgExecutor.Tasks.Valid, BxExecutor.Tasks.Valid, BoxRcExecutor.Tasks.Valid, WellFormed, Logged;
      match table {
        case ArgTable(t) => t.SetFuture(k, fut);
        case BxTable(t) => t.SetFuture(k, fut);
        case BoxRcTable(t) => t.SetFuture(k, fut);
      }
      Note(Stored(k, fut));
    }

    /** Frees a completed task; the count assertion is the precondition. */
    method Finish(k: nat)
      requires Valid() && k in model.tasks && model.tasks[k].refs == 1
      modifies this, parts
      ensures Valid() && model == Scheduler.Finish(old(model), k) && log == old(log) + [Freed(k)]
    {
      hide ArgExecutor.Tasks.Valid, BxExecutor.Tasks.Valid, BoxRcExecutor.Tasks.Valid, WellFormed, Logged;
      match table {
        case ArgTable(t) => t.Finish(k);
        case BxTable(t) => t.Finish(k);
        case BoxRcTable(t) => t.Finish(k);
      }
      Note(Freed(k));
    }

    method CloneWaker(k: nat)
      requires Valid() && k in model.tasks
      modifies this, parts
      ensures Valid() && model == SetRefs(old(model), k, old(model).tasks[k].refs + 1) && log == old(log) + [Cloned(k)]
    {
      hide ArgExecutor.Tasks.Valid, BxExecutor.Tasks.Valid, BoxRcExecutor.Tasks.Valid, WellFormed, Logged;
      match table {
        case ArgTable(t) => t.CloneWaker(k);
        case BxTable(t) => t.CloneWaker(k);
        case BoxRcTable(t) => t.CloneWaker(k);
      }
      Note(Cloned(k));
    }

    /** Drops a clone; the waker's own assertion is the precondition. */
    method DropWaker(k: nat)
      requires Valid() && k in model.tasks && model.tasks[k].refs > 1
      modifies this, parts
      ensures Valid() && model == SetRefs(old(model), k, old(model).tasks[k].refs - 1) && log == old(log) + [Dropped(k)]
    {
      hide ArgExecutor.Tasks.Valid, BxExecutor.Tasks.Valid, BoxRcExecutor.Tasks.Valid, WellFormed, Logged;
      match table {
        case ArgTable(t) => t.DropWaker(k);
        case BxTable(t) => t.DropWaker(k);
        case BoxRcTable(t) => t.DropWaker(k);
      }
      Note(Dropped(k));
    }

    method IsLive(k: nat) returns (live: bool)
      requires Valid()
      ensures live <==> k in model.tasks
    {
      hide ArgExecutor.Tasks.Valid, BxExecutor.Tasks.Valid, BoxRcExecutor.Tasks.Valid, WellFormed, Logged;
      match table {
        case ArgTable(t) => live := t.IsLive(k);
        case BxTable(t) => live := t.IsLive(k);
        case BoxRcTable(t) => live := t.IsLive(k);
      }
    }

    /** How many clones of `k`'s waker there are to use. */
    method Clones(k: nat) returns (n: nat)
      requires Valid()
      ensures n == if k in model.tasks then model.tasks[k].refs - 1 else 0
    {
      n := 0;
      var live := IsLive(k);
      if live {
        var refs := WakerCount(k);
        n := refs - 1;
      }
    }

    /** The count that completion asserts. */
    method WakerCount(k: nat) returns (refs: nat)
      requires Valid() && k in model.tasks
      ensures refs == model.tasks[k].refs
    {
      hide ArgExecutor.Tasks.Valid, BxExecutor.Tasks.Valid, BoxRcExecutor.Tasks.Valid, WellFormed, Logged;
      match table {
        case ArgTable(t) => refs := t.WakerCount(k);
        case BxTable(t) => refs := t.WakerCount(k);
        case BoxRcTable(t) => refs := t.WakerCount(k);
      }
    }

    /** Wakes by value: wakes, then drops the clone. */
    method WakeAndDrop(k: nat)
      requires Valid() && k in model.tasks && model.tasks[k].refs > 1
      modifies this, parts
      ensures Valid() && model == SetRefs(Scheduler.Wake(old(model), k), k, old(model).tasks[k].refs - 1)
      ensures log == old(log) + [Woken(k), Dropped(k)]
    {
      hide ArgExecutor.Tasks.Valid, BxExecutor.Tasks.Valid, BoxRcExecutor.Tasks.Valid, WellFormed, Logged;
      match table {
        case ArgTable(t) => t.WakeAndDrop(k);
        case BxTable(t) => t.WakeAndDrop(k);
        case BoxRcTable(t) => t.WakeAndDrop(k);
      }
      NoteWaking(k);
    }
  }
}
