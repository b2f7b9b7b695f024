/** A slab of list nodes with a queue threaded through it: the tasks and run queue of each executor
    (`TasksData` in `src/executor.rs`), the connections and `needs_process` of the manual server. */
module QueuedSlab {
  import opened Common
  import opened IntrusiveList

  class Slab<V> {
    const nodes: NodeStore<V>
    const next: List
    ghost var values: map<nat, V>
    ghost var queue: seq<nat>

    ghost predicate Valid()
      reads this, nodes, next
      ensures Valid() ==> Distinct(queue)
    {
      && next.keys == queue && next.Valid(nodes.nodes) && Threaded(nodes.nodes, queue)
      && values.Keys == nodes.nodes.Keys
      && forall k :: k in values ==> nodes.nodes[k].value == values[k]
    }

    constructor ()
      ensures Valid() && values == map[] && queue == []
      ensures fresh(nodes) && fresh(next)
    {
      nodes := new NodeStore();
      next := new List();
      values, queue := map[], [];
    }

    /** A fresh, empty queue over a slab that is empty but may have been used before. */
    constructor Over(store: NodeStore<V>)
      requires store.nodes == map[]
      ensures Valid() && values == map[] && queue == []
      ensures nodes == store && fresh(next)
    {
      nodes := store;
      next := new List();
      values, queue := map[], [];
    }

    method Len() returns (n: nat)
      requires Valid()
      ensures n == |values|
    {
      n := |nodes.nodes|;
      assert nodes.nodes.Keys == values.Keys;
    }

    /** Some vacant key below the capacity; which one is the slab's business. */
    method VacantEntry(capacity: nat) returns (key: nat)
      requires Valid() && (forall k :: k in values ==> k < capacity) && |values| < capacity
      ensures key < capacity && key !in values
    {
      VacantBelow(values.Keys, capacity);
      key :| key < capacity && key !in nodes.nodes.Keys;
    }

    /** Some vacant key of a slab that may grow. */
    method AnyVacantEntry() returns (key: nat)
      requires Valid()
      ensures key !in values
    {
      VacantSomewhere(values.Keys);
      key :| key !in nodes.nodes.Keys;
    }

    method Get(key: nat) returns (value: V)
      requires Valid() && key in values
      ensures value == values[key]
    {
      value := nodes.nodes[key].value;
    }

    method Head() returns (key: Option<nat>)
      requires Valid()
      ensures key == if queue == [] then None else Some(queue[0])
      ensures forall k :: k in queue ==> k in values
    {
      Members(nodes.nodes, next.keys, next.head, next.tail);
      key := next.head;
    }

    method Set(key: nat, value: V)
      requires Valid() && key in values
      modifies this, nodes
      ensures Valid() && values == old(values)[key := value] && queue == old(queue)
    {
      nodes.nodes := nodes.nodes[key := nodes.nodes[key].(value := value)];
      values := values[key := value];
      SameLinks(old(nodes.nodes), nodes.nodes, next.keys, next.head, next.tail);
    }

    /** A new entry at the back of the queue. */
    method InsertQueued(key: nat, value: V)
      requires Valid() && key !in values
      modifies this, nodes, next
      ensures Valid() && values == old(values)[key := value] && queue == old(queue) + [key]
    {
      Members(nodes.nodes, next.keys, next.head, next.tail);
      nodes.nodes := nodes.nodes[key := Node(None, None, value)];
      SameLinks(old(nodes.nodes), nodes.nodes, next.keys, next.head, next.tail);
      next.PushBack(nodes, key);
      values, queue := values[key := value], queue + [key];
    }

    /** `remove` then `push_back`. */
    method Requeue(key: nat)
      requires Valid() && key in values
      modifies this, nodes, next
      ensures Valid() && values == old(values) && queue == Without(old(queue), key) + [key]
      ensures forall k :: k in queue <==> k in old(queue) || k == key
    {
      next.MoveToBack(nodes, key);
      queue := Without(queue, key) + [key];
    }

    method Dequeue(key: nat)
      requires Valid() && queue != [] && key == queue[0]
      modifies this, nodes, next
      ensures Valid() && values == old(values) && queue == old(queue)[1..]
    {
      TakenFirst(queue);
      next.Remove(nodes, key);
      queue := queue[1..];
    }

    /** Takes the entry off the queue, if it is on it, and frees its slot. */
    method Free(key: nat)
      requires Valid() && key in values
      modifies this, nodes, next
      ensures Valid() && values == old(values) - {key} && queue == Without(old(queue), key)
    {
      next.Remove(nodes, key);
      ghost var linked := nodes.nodes;
      nodes.nodes := nodes.nodes - {key};
      values, queue := values - {key}, Without(queue, key);
      SameLinks(linked, nodes.nodes, next.keys, next.head, next.tail);
    }
  }
}
