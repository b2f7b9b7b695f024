/** The reactor of `src/future.rs`: registrations with a readiness flag and an optional waker, over
    the poll table. A waker is a task's key; each clone is counted in the task (`src/waker.rs`). */
module Reactor {
  import opened Common
  import opened Scheduler
  import opened FakeIo
  import opened TaskLog
  import Executors

  datatype Registration = Registration(ready: bool, waker: Option<nat>)

  type Registrations = map<nat, Registration>

  ghost function Holders(regs: Registrations, k: nat): set<nat> {
    set r | r in regs && regs[r].waker == Some(k)
  }

  /** Every bound waker belongs to a live task, and a task's count is one for its own waker and one for
      each registration that holds a clone. */
  ghost predicate Counted<F>(s: Sched<F>, regs: Registrations) {
    && (forall r :: r in regs && regs[r].waker.Some? ==> regs[r].waker.value in s.tasks)
    && (forall k :: k in s.tasks ==> s.tasks[k].refs == 1 + |Holders(regs, k)|)
  }

  ghost function Holds(reg: Registration, k: nat): nat {
    if reg.waker == Some(k) then 1 else 0
  }

  lemma HoldersPut(regs: Registrations, r: nat, reg: Registration, k: nat)
    ensures |Holders(regs[r := reg], k)| == |Holders(regs, k)| + Holds(reg, k) - if r in regs then Holds(regs[r],
      k) else 0
    ensures r in regs && regs[r].waker == Some(k) ==> |Holders(regs, k)| >= 1
  {
    var rest := Holders(regs, k) - {r};
    assert Holders(regs, k) == if r in regs && regs[r].waker == Some(k) then rest + {r} else rest;
    assert Holders(regs[r := reg], k) == if reg.waker == Some(k) then rest + {r} else rest;
  }

  /** Only the counts may differ. */
  ghost predicate SameButRefs<F>(a: Sched<F>, b: Sched<F>) {
    && a.capacity == b.capacity && a.queue == b.queue && a.tasks.Keys == b.tasks.Keys
    && forall k :: k in a.tasks ==> b.tasks[k] == a.tasks[k].(refs := b.tasks[k].refs)
  }

  lemma SameButRefsTrans<F>(a: Sched<F>, b: Sched<F>, c: Sched<F>)
    requires SameButRefs(a, b) && SameButRefs(b, c)
    ensures SameButRefs(a, c)
  {
  }

  lemma SameButRefsFuture<F>(a: Sched<F>, b: Sched<F>, k: nat, fut: F)
    requires SameButRefs(a, b) && k in a.tasks
    ensures k in b.tasks && SameButRefs(SetFuture(a, k, fut), SetFuture(b, k, fut))
  {
  }

  lemma CountedFuture<F>(s: Sched<F>, regs: Registrations, k: nat, fut: F)
    requires Counted(s, regs) && k in s.tasks
    ensures Counted(SetFuture(s, k, fut), regs)
  {
  }

  /** Replacing a registration keeps the counts exact if each task gains and loses just the clones that
      the new and the old registration hold. */
  lemma CountedPut<F>(a: Sched<F>, b: Sched<F>, regs: Registrations, r: nat, reg: Registration)
    requires Counted(a, regs) && SameButRefs(a, b)
    requires reg.waker.Some? ==> reg.waker.value in a.tasks
    requires forall k :: k in a.tasks ==>
      b.tasks[k].refs == a.tasks[k].refs + Holds(reg, k) - if r in regs then Holds(regs[r], k) else 0
    ensures Counted(b, regs[r := reg])
  {
    forall k | k in b.tasks
      ensures b.tasks[k].refs == 1 + |Holders(regs[r := reg], k)|
    {
      HoldersPut(regs, r, reg, k);
    }
  }

  lemma CountedReady<F>(s: Sched<F>, regs: Registrations, r: nat, ready: bool)
    requires Counted(s, regs) && r in regs
    ensures Counted(s, regs[r := regs[r].(ready := ready)])
  {
    CountedPut(s, s, regs, r, regs[r].(ready := ready));
  }

  /** A clone held by a registration makes the count at least two, as dropping it asserts. */
  lemma HeldCount<F>(s: Sched<F>, regs: Registrations, r: nat)
    requires Counted(s, regs) && r in regs && regs[r].waker.Some?
    ensures regs[r].waker.value in s.tasks && s.tasks[regs[r].waker.value].refs > 1
  {
    HoldersPut(regs, r, regs[r], regs[r].waker.value);
  }

  /** A task whose waker no registration holds has count one, as completion asserts. */
  lemma UnheldCount<F>(s: Sched<F>, regs: Registrations, k: nat)
    requires Counted(s, regs) && k in s.tasks
    requires forall r :: r in regs ==> regs[r].waker != Some(k)
    ensures s.tasks[k].refs == 1
  {
  }

  lemma CountedRemove<F>(s: Sched<F>, regs: Registrations, r: nat)
    requires Counted(s, regs) && (r in regs ==> regs[r].waker == None)
    ensures Counted(s, regs - {r})
  {
    forall k | k in s.tasks
      ensures Holders(regs - {r}, k) == Holders(regs, k)
    {
    }
  }

  lemma CountedSpawn<F>(s: Sched<F>, regs: Registrations, k: nat, fut: F)
    requires Counted(s, regs) && k !in s.tasks
    ensures Counted(Spawn(s, k, fut), regs)
  {
  }

  lemma CountedBegin<F>(s: Sched<F>, regs: Registrations)
    requires Counted(s, regs) && s.queue != [] && s.queue[0] in s.tasks
    ensures Counted(Begin(s), regs)
  {
  }

  lemma CountedFinish<F>(s: Sched<F>, regs: Registrations, k: nat)
    requires Counted(s, regs)
    requires forall r :: r in regs ==> regs[r].waker != Some(k)
    ensures Counted(Finish(s, k), regs)
  {
  }

  // ----- one sweep of the events

  /** From tasks `a` and registrations `was`, the events for `seen` have been handled: their registrations
      are ready and hold no waker, and exactly the tasks whose wakers they held are awake besides those
      that were. */
  ghost predicate Swept<F>(a: Sched<F>, was: Registrations, seen: set<nat>, b: Sched<F>, regs: Registrations) {
    && regs.Keys == was.Keys && b.tasks.Keys == a.tasks.Keys && b.capacity == a.capacity
    && (forall r :: r in was ==> regs[r] == if r in seen then Registration(true, None) else was[r])
    && (forall k :: k in a.tasks ==> b.tasks[k].fut == a.tasks[k].fut)
    && (forall k :: k in a.tasks ==>
          (b.tasks[k].awake <==> a.tasks[k].awake || exists r :: r in seen && r in was && was[r].waker == Some(k)))
  }

  lemma SweptNone<F>(a: Sched<F>, was: Registrations)
    ensures Swept(a, was, {}, a, was)
  {
  }

  lemma SweptReady<F>(a: Sched<F>, was: Registrations, seen: set<nat>, b: Sched<F>, regs: Registrations, r: nat)
    requires Swept(a, was, seen, b, regs) && (r in regs ==> regs[r].waker == None)
    ensures Swept(a, was, seen + {r}, b, if r in regs then regs[r := Registration(true, None)] else regs)
  {
  }

  lemma SweptWake<F>(a: Sched<F>, was: Registrations, seen: set<nat>, b: Sched<F>, regs: Registrations, r: nat,
    refs: nat)
    requires Swept(a, was, seen, b, regs) && r in regs && regs[r].waker.Some? && regs[r].waker.value in b.tasks
    ensures Swept(a, was, seen + {r}, SetRefs(Wake(b, regs[r].waker.value), regs[r].waker.value, refs),
                  regs[r := Registration(true, None)])
  {
  }

  lemma CountedWake<F>(s: Sched<F>, regs: Registrations, k: nat)
    requires Counted(s, regs) && k in s.tasks
    ensures Counted(Wake(s, k), regs)
  {
  }

  class FakeReactor {
    const capacity: nat
    const poll: PollTable
    var registrations: Registrations

    constructor (registrationsMax: nat, stats: Stats)
      ensures capacity == registrationsMax && registrations == map[]
      ensures fresh(poll) && poll.items == map[] && poll.stats == stats
    {
      capacity := registrationsMax;
      poll := new PollTable(stats);
      registrations := map[];
    }

    /** The executor is made of other objects. */
    ghost predicate Apart<F>(tasks: Executors.Tasks<F>) {
      this !in tasks.parts && poll !in tasks.parts && poll.stats !in tasks.parts
    }

    /** Refused only when the registrations are full; `id` is the number of the handle that is registered. */
    method Register(interest: bv8, ghost id: nat) returns (entry: Option<(nat, nat)>)
      modifies this, poll, poll.stats
      ensures entry.None? <==> |old(registrations)| == capacity
      ensures entry.None? ==> registrations == old(registrations) && poll.items == old(poll.items)
      ensures entry.None? ==> poll.stats.Kept() == old(poll.stats.Kept())
      ensures entry.Some? ==> var (key, index) := entry.value;
        && key !in old(registrations) && registrations == old(registrations)[key := Registration(false, None)]
        && index !in old(poll.items) && poll.items == old(poll.items)[index := Item(interest, key)]
        && poll.stats.Kept() == Note(old(poll.stats.Kept()), RegisterCall(id))
    {
      if |registrations| == capacity {
        return None;
      }
      VacantSomewhere(registrations.Keys);
      var key :| key !in registrations.Keys;
      registrations := registrations[key := Registration(false, None)];
      var index := poll.Register(key, interest, id);
      entry := Some((key, index));
    }

    method SetReady(reg: nat, ready: bool)
      requires reg in registrations
      modifies this
      ensures registrations == old(registrations)[reg := old(registrations)[reg].(ready := ready)]
    {
      registrations := registrations[reg := registrations[reg].(ready := ready)];
    }

    /** Keeps the current waker if `will_wake` recognises it, which it may fail to do. */
    method BindWaker<F>(tasks: Executors.Tasks<F>, reg: nat, k: nat)
      requires tasks.Valid() && Apart(tasks) && reg in registrations && k in tasks.model.tasks
      requires Counted(tasks.model, registrations)
      modifies this, tasks, tasks.parts
      ensures tasks.Valid() && SameButRefs(old(tasks.model), tasks.model)
      ensures registrations == old(registrations)[reg := old(registrations)[reg].(waker := Some(k))]
      ensures Counted(tasks.model, registrations)
    {
      hide Executors.Tasks.Valid, Logged, Counted;
      var event := registrations[reg];
      var current := event.waker;
      if current == Some(k) {
        var recognised := *;
        if recognised {
          assert registrations == registrations[reg := registrations[reg].(waker := Some(k))];
          return;
        }
      }
      Rebind(tasks, reg, k);
    }

    /** The new waker is cloned before the old one is dropped. */
    method Rebind<F>(tasks: Executors.Tasks<F>, reg: nat, k: nat)
      requires tasks.Valid() && Apart(tasks) && reg in registrations && k in tasks.model.tasks
      requires Counted(tasks.model, registrations)
      modifies this, tasks, tasks.parts
      ensures tasks.Valid() && SameButRefs(old(tasks.model), tasks.model)
      ensures registrations == old(registrations)[reg := old(registrations)[reg].(waker := Some(k))]
      ensures Counted(tasks.model, registrations)
    {
      hide Executors.Tasks.Valid, Logged, Counted, WellFormed;
      var event := registrations[reg];
      var current := event.waker;
      if current.Some? {
        HeldCount(tasks.model, registrations, reg);
      }
      tasks.CloneWaker(k);
      if current.Some? {
        tasks.DropWaker(current.value);
      }
      CountedPut(old(tasks.model), tasks.model, registrations, reg, event.(waker := Some(k)));
      registrations := registrations[reg := event.(waker := Some(k))];
    }

    method UnbindWaker<F>(tasks: Executors.Tasks<F>, reg: nat)
      requires tasks.Valid() && Apart(tasks) && reg in registrations
      requires Counted(tasks.model, registrations)
      modifies this, tasks, tasks.parts
      ensures tasks.Valid() && SameButRefs(old(tasks.model), tasks.model)
      ensures registrations == old(registrations)[reg := old(registrations)[reg].(waker := None)]
      ensures Counted(tasks.model, registrations)
    {
      hide Executors.Tasks.Valid, Logged, Counted;
      var event := registrations[reg];
      if event.waker.Some? {
        HeldCount(tasks.model, registrations, reg);
        tasks.DropWaker(event.waker.value);
      }
      CountedPut(old(tasks.model), tasks.model, registrations, reg, event.(waker := None));
      registrations := registrations[reg := event.(waker := None)];
    }

    /** Drops a registration handle, and with it the waker it may still hold. */
    method Deregister<F>(tasks: Executors.Tasks<F>, reg: nat)
      requires tasks.Valid() && Apart(tasks) && reg in registrations
      requires Counted(tasks.model, registrations)
      modifies this, tasks, tasks.parts
      ensures tasks.Valid() && SameButRefs(old(tasks.model), tasks.model)
      ensures registrations == old(registrations) - {reg}
      ensures Counted(tasks.model, registrations)
    {
      hide Executors.Tasks.Valid, Logged, Counted;
      UnbindWaker(tasks, reg);
      CountedRemove(tasks.model, registrations, reg);
      registrations := registrations - {reg};
      assert registrations == old(registrations) - {reg};
    }

    /** Marks every registration that has a poll item ready, and wakes and drops the waker it holds. */
    method Poll<F>(tasks: Executors.Tasks<F>)
      requires tasks.Valid() && Apart(tasks) && Counted(tasks.model, registrations)
      modifies this, poll.stats, tasks, tasks.parts
      ensures tasks.Valid() && Counted(tasks.model, registrations)
      ensures poll.stats.Kept() == Note(old(poll.stats.Kept()), PollCall)
      ensures Swept(old(tasks.model), old(registrations), set i | i in poll.items :: poll.items[i].key,
                    tasks.model, registrations)
    {
      hide Executors.Tasks.Valid, Logged, Counted, Swept;
      var events, order := poll.Poll();
      ghost var seen: set<nat> := {};
      SweptNone(tasks.model, registrations);
      for j := 0 to |events|
        invariant tasks.Valid() && Counted(tasks.model, registrations)
        invariant poll.stats.Kept() == Note(old(poll.stats.Kept()), PollCall)
        invariant seen == set i | 0 <= i < j :: events[i].key
        invariant Swept(old(tasks.model), old(registrations), seen, tasks.model, registrations)
      {
        var r := events[j].key;
        Handle(tasks, r, seen, old(tasks.model), old(registrations));
        seen := seen + {r};
      }
      ghost var all := set i | i in poll.items :: poll.items[i].key;
      assert seen == all by {
        forall r | r in all
          ensures r in seen
        {
          var i :| i in poll.items && poll.items[i].key == r;
          var j := IndexOf(order, i);
          assert events[j].key == r;
        }
      }
    }

    /** One event. */
    method Handle<F>(tasks: Executors.Tasks<F>, r: nat, ghost seen: set<nat>, ghost a: Sched<F>,
      ghost was: Registrations)
      requires tasks.Valid() && Apart(tasks) && Counted(tasks.model, registrations)
      requires Swept(a, was, seen, tasks.model, registrations)
      modifies this, tasks, tasks.parts
      ensures tasks.Valid() && Counted(tasks.model, registrations)
      ensures Swept(a, was, seen + {r}, tasks.model, registrations)
    {
      hide Executors.Tasks.Valid, Logged, Counted, Swept;
      if r !in registrations {
        SweptReady(a, was, seen, tasks.model, registrations, r);
        return;
      }
      var waker := registrations[r].waker;
      var ready := Registration(true, None);
      if waker.Some? {
        HeldCount(tasks.model, registrations, r);
        SweptWake(a, was, seen, tasks.model, registrations, r, tasks.model.tasks[waker.value].refs - 1);
        CountedWake(tasks.model, registrations, waker.value);
        ghost var awake := Wake(tasks.model, waker.value);
        tasks.WakeAndDrop(waker.value);
        CountedPut(awake, tasks.model, registrations, r, ready);
      } else {
        SweptReady(a, was, seen, tasks.model, registrations, r);
        CountedPut(tasks.model, tasks.model, registrations, r, ready);
      }
      registrations := registrations[r := ready];
    }
  }
}
