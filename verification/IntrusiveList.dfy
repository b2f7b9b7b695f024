/** The intrusive doubly linked list of `src/list.rs`: links are slab keys, and several
    lists may thread through one node store. */
module IntrusiveList {
  import opened Common

  datatype Node<T> = Node(prev: Option<nat>, next: Option<nat>, value: T)

  /** A slab of nodes, addressed by key. */
  class NodeStore<T> {
    var nodes: map<nat, Node<T>>

    constructor ()
      ensures nodes == map[]
    {
      nodes := map[];
    }
  }

  ghost predicate Detached<T>(nodes: map<nat, Node<T>>, key: nat) {
    key in nodes && nodes[key].prev == None && nodes[key].next == None
  }

  /** Every node off the list is detached, so it may be removed or pushed at any time. */
  ghost predicate Threaded<T>(nodes: map<nat, Node<T>>, keys: seq<nat>) {
    forall k :: k in nodes ==> k in keys || Detached(nodes, k)
  }

  /** The links of the `i`-th member name its neighbours. */
  ghost predicate LinkedAt<T>(nodes: map<nat, Node<T>>, keys: seq<nat>, i: nat)
    requires i < |keys|
  {
    && keys[i] in nodes
    && nodes[keys[i]].prev == (if i == 0 then None else Some(keys[i - 1]))
    && nodes[keys[i]].next == (if i == |keys| - 1 then None else Some(keys[i + 1]))
  }

  /** `head`, `tail` and the links of `nodes` spell exactly the sequence `keys`. */
  ghost predicate Linked<T>(nodes: map<nat, Node<T>>, keys: seq<nat>, head: Option<nat>, tail: Option<nat>) {
    && Distinct(keys)
    && head == (if keys == [] then None else Some(keys[0]))
    && tail == (if keys == [] then None else Some(keys[|keys| - 1]))
    && forall i: nat {:trigger LinkedAt(nodes, keys, i)} :: i < |keys| ==> LinkedAt(nodes, keys, i)
  }

  /** Only links may change, and only those of nodes in `touched`. */
  ghost predicate OnlyLinks<T>(before: map<nat, Node<T>>, after: map<nat, Node<T>>, touched: seq<nat>) {
    && after.Keys == before.Keys
    && (forall k :: k in before ==> after[k].value == before[k].value)
    && forall k :: k in before && k !in touched ==> after[k] == before[k]
  }

  lemma Untouched<T>(nodes: map<nat, Node<T>>, keys: seq<nat>)
    ensures OnlyLinks(nodes, nodes, keys)
  {
  }

  ghost function Splice(keys: seq<nat>, at: nat, key: nat): (r: seq<nat>)
    requires at <= |keys|
  {
    keys[..at] + [key] + keys[at..]
  }

  /** The place directly after `after`, or the front. */
  ghost function PlaceAfter(keys: seq<nat>, after: Option<nat>): (at: nat)
    requires after.Some? ==> after.value in keys
    ensures at <= |keys|
    ensures if after.None? then at == 0 else at > 0 && keys[at - 1] == after.value
  {
    match after
    case None => 0
    case Some(p) => IndexOf(keys, p) + 1
  }

  lemma Members<T>(nodes: map<nat, Node<T>>, keys: seq<nat>, head: Option<nat>, tail: Option<nat>)
    requires Linked(nodes, keys, head, tail)
    ensures forall k :: k in keys ==> k in nodes
    ensures head.Some? ==> head.value in keys
    ensures tail.Some? ==> tail.value in keys
  {
    forall k | k in keys
      ensures k in nodes
    {
      assert LinkedAt(nodes, keys, IndexOf(keys, k));
    }
  }

  lemma SpliceLinked<T>(before: map<nat, Node<T>>, after: map<nat, Node<T>>, keys: seq<nat>, at: nat, key: nat,
                        head: Option<nat>, tail: Option<nat>)
    requires Linked(before, keys, head, tail) && key !in keys && at <= |keys| && key in after
    requires after[key].prev == (if at == 0 then None else Some(keys[at - 1]))
    requires after[key].next == (if at == |keys| then None else Some(keys[at]))
    requires forall i :: 0 <= i < |keys| ==>
      && keys[i] in before && keys[i] in after
      && after[keys[i]].prev == (if i == at then Some(key) else before[keys[i]].prev)
      && after[keys[i]].next == (if i == at - 1 then Some(key) else before[keys[i]].next)
    ensures Linked(after, Splice(keys, at, key), if at == 0 then Some(key) else head,
                   if at == |keys| then Some(key) else tail)
  {
    AllDiffer(keys);
    var r := Splice(keys, at, key);
    forall i: nat | i < |r|
      ensures LinkedAt(after, r, i)
    {
      if i != at {
        assert LinkedAt(before, keys, if i < at then i else i - 1);
      }
    }
  }

  lemma CutLinked<T>(before: map<nat, Node<T>>, after: map<nat, Node<T>>, keys: seq<nat>, at: nat,
                     head: Option<nat>, tail: Option<nat>)
    requires Linked(before, keys, head, tail) && at < |keys| && keys[at] in before
    requires forall i :: 0 <= i < |keys| && i != at ==>
      && keys[i] in before && keys[i] in after
      && after[keys[i]].prev == (if i == at + 1 then before[keys[at]].prev else before[keys[i]].prev)
      && after[keys[i]].next == (if i == at - 1 then before[keys[at]].next else before[keys[i]].next)
    ensures Linked(after, keys[..at] + keys[at + 1..], if at == 0 then before[keys[at]].next else head,
                   if at == |keys| - 1 then before[keys[at]].prev else tail)
  {
    AllDiffer(keys);
    var r := keys[..at] + keys[at + 1..];
    assert LinkedAt(before, keys, at);
    forall i: nat | i < |r|
      ensures LinkedAt(after, r, i)
    {
      assert LinkedAt(before, keys, if i < at then i else i + 1);
    }
  }

  ghost function SetNext<T>(nodes: map<nat, Node<T>>, key: Option<nat>, next: Option<nat>): map<nat, Node<T>>
    requires key.Some? ==> key.value in nodes
  {
    if key.None? then nodes else nodes[key.value := nodes[key.value].(next := next)]
  }

  ghost function SetPrev<T>(nodes: map<nat, Node<T>>, key: Option<nat>, prev: Option<nat>): map<nat, Node<T>>
    requires key.Some? ==> key.value in nodes
  {
    if key.None? then nodes else nodes[key.value := nodes[key.value].(prev := prev)]
  }

  /** Detaching a member and joining its neighbours. */
  lemma UnlinkedMember<T>(nodes: map<nat, Node<T>>, keys: seq<nat>, at: nat, head: Option<nat>, tail: Option<nat>)
    requires Linked(nodes, keys, head, tail) && at < |keys| && keys[at] in nodes
    ensures var n := nodes[keys[at]];
      && (n.prev.Some? ==> n.prev.value in nodes) && (n.next.Some? ==> n.next.value in nodes)
      && var after := SetPrev(SetNext(nodes[keys[at] := n.(prev := None, next := None)], n.prev, n.next), n.next,
        n.prev);
      && Linked(after, keys[..at] + keys[at + 1..], if at == 0 then n.next else head,
                if at == |keys| - 1 then n.prev else tail)
      && OnlyLinks(nodes, after, keys) && Detached(after, keys[at])
    ensures head == Some(keys[at]) <==> at == 0
    ensures tail == Some(keys[at]) <==> at == |keys| - 1
  {
    AllDiffer(keys);
    Members(nodes, keys, head, tail);
    assert LinkedAt(nodes, keys, at);
    var n := nodes[keys[at]];
    var after := SetPrev(SetNext(nodes[keys[at] := n.(prev := None, next := None)], n.prev, n.next), n.next, n.prev);
    CutLinked(nodes, after, keys, at, head, tail);
  }

  lemma JoinLinked<T>(before: map<nat, Node<T>>, after: map<nat, Node<T>>, a: seq<nat>, b: seq<nat>,
                      ahead: Option<nat>, atail: Option<nat>, bhead: Option<nat>, btail: Option<nat>)
    requires Linked(before, a, ahead, atail) && Linked(before, b, bhead, btail) && b != []
    requires forall k :: k in a ==> k !in b
    requires forall i :: 0 <= i < |a| ==>
      && a[i] in before && a[i] in after && after[a[i]].prev == before[a[i]].prev
      && after[a[i]].next == (if i == |a| - 1 then bhead else before[a[i]].next)
    requires forall i :: 0 <= i < |b| ==>
      && b[i] in before && b[i] in after && after[b[i]].next == before[b[i]].next
      && after[b[i]].prev == (if i == 0 then atail else before[b[i]].prev)
    ensures Linked(after, a + b, if a == [] then bhead else ahead, btail)
  {
    AllDiffer(a);
    AllDiffer(b);
    var r := a + b;
    assert forall k :: k in b ==> k !in a;
    forall i, j | 0 <= i < j < |r|
      ensures r[i] != r[j]
    {
      if i < |a| <= j { assert a[i] in a && b[j - |a|] in b; }
    }
    forall i: nat | i < |r|
      ensures LinkedAt(after, r, i)
    {
      if i < |a| {
        assert LinkedAt(before, a, i);
      } else {
        assert LinkedAt(before, b, i - |a|);
      }
    }
  }

  /** Appending the first member of `b` to `a` and giving it back its successor appends all of `b`. */
  lemma AppendedHead<T>(before: map<nat, Node<T>>, mid: map<nat, Node<T>>, a: seq<nat>, b: seq<nat>,
                        ahead: Option<nat>, atail: Option<nat>, bhead: Option<nat>, btail: Option<nat>,
                        midHead: Option<nat>)
    requires Linked(before, a, ahead, atail) && Linked(before, b, bhead, btail) && b != []
    requires forall k :: k in a ==> k !in b
    requires Linked(mid, a + [b[0]], midHead, bhead) && OnlyLinks(before, mid, a + [b[0]])
    requires b[0] in before
    ensures var after := mid[b[0] := mid[b[0]].(next := before[b[0]].next)];
      Linked(after, a + b, midHead, btail) && OnlyLinks(before, after, a + b)
  {
    var s := a + [b[0]];
    AllDiffer(a);
    AllDiffer(b);
    AllDiffer(s);
    var after := mid[b[0] := mid[b[0]].(next := before[b[0]].next)];
    Members(before, a, ahead, atail);
    Members(before, b, bhead, btail);
    forall i: nat | i < |a|
      ensures a[i] in after && after[a[i]].prev == before[a[i]].prev
      ensures after[a[i]].next == if i == |a| - 1 then bhead else before[a[i]].next
    {
      assert LinkedAt(before, a, i) && LinkedAt(mid, s, i) && s[i] == a[i];
    }
    assert LinkedAt(mid, s, |a|);
    assert forall i :: 0 < i < |b| ==> b[i] !in s;
    JoinLinked(before, after, a, b, ahead, atail, bhead, btail);
  }

  /** A list is unchanged by anything that leaves the links of its members alone. */
  lemma SameLinks<T>(before: map<nat, Node<T>>, after: map<nat, Node<T>>, keys: seq<nat>,
                     head: Option<nat>, tail: Option<nat>)
    requires Linked(before, keys, head, tail)
    requires forall k :: k in keys && k in before ==>
      k in after && after[k].prev == before[k].prev && after[k].next == before[k].next
    ensures Linked(after, keys, head, tail)
  {
    forall i: nat | i < |keys|
      ensures LinkedAt(after, keys, i)
    {
      assert LinkedAt(before, keys, i) && keys[i] in keys;
    }
  }

  /** So every list disjoint from what an operation touched is still the same list. */
  lemma OtherListUnchanged<T>(before: map<nat, Node<T>>, after: map<nat, Node<T>>, touched: seq<nat>,
                              keys: seq<nat>, head: Option<nat>, tail: Option<nat>)
    requires OnlyLinks(before, after, touched)
    requires Linked(before, keys, head, tail)
    requires forall k :: k in keys ==> k !in touched
    ensures Linked(after, keys, head, tail)
  {
    SameLinks(before, after, keys, head, tail);
  }

  class List {
    var head: Option<nat>
    var tail: Option<nat>
    ghost var keys: seq<nat>

    ghost predicate Valid<T>(nodes: map<nat, Node<T>>)
      reads this
    {
      Linked(nodes, keys, head, tail)
    }

    constructor ()
      ensures keys == [] && head == None && tail == None
    {
      head, tail, keys := None, None, [];
    }

    predicate IsEmpty()
      reads this
    {
      head.None?
    }

    method Insert<T>(store: NodeStore<T>, after: Option<nat>, key: nat)
      requires Valid(store.nodes) && key in store.nodes && key !in keys
      requires after.Some? ==> after.value in keys
      modifies this, store
      ensures Valid(store.nodes)
      ensures keys == Splice(old(keys), PlaceAfter(old(keys), after), key)
      ensures OnlyLinks(old(store.nodes), store.nodes, keys)
    {
      AllDiffer(keys);
      ghost var at := PlaceAfter(keys, after);
      Members(store.nodes, keys, head, tail);
      assert at > 0 ==> LinkedAt(store.nodes, keys, at - 1);
      var nodes := store.nodes;
      var next;
      if after.Some? {
        var pkey := after.value;
        next := nodes[pkey].next;
        nodes := nodes[pkey := nodes[pkey].(next := Some(key))];
        nodes := nodes[key := nodes[key].(prev := Some(pkey))];
      } else {
        next := head;
        head := Some(key);
        nodes := nodes[key := nodes[key].(prev := None)];
      }
      nodes := nodes[key := nodes[key].(next := next)];
      if next.Some? {
        nodes := nodes[next.value := nodes[next.value].(prev := Some(key))];
      } else {
        tail := Some(key);
      }
      SpliceLinked(store.nodes, nodes, keys, at, key, old(head), old(tail));
      store.nodes := nodes;
      keys := Splice(keys, at, key);
    }

    method Remove<T>(store: NodeStore<T>, key: nat)
      requires Valid(store.nodes)
      requires key in keys || Detached(store.nodes, key)
      modifies this, store
      ensures Valid(store.nodes) && Detached(store.nodes, key)
      ensures keys == Without(old(keys), key)
      ensures OnlyLinks(old(store.nodes), store.nodes, old(keys))
      ensures key !in old(keys) ==> store.nodes == old(store.nodes) && head == old(head) && tail == old(tail)
    {
      hide Linked, OnlyLinks;
      Members(store.nodes, keys, head, tail);
      if key in keys {
        UnlinkedMember(store.nodes, keys, IndexOf(keys, key), head, tail);
      }
      var nodes := store.nodes;
      var prev, next := nodes[key].prev, nodes[key].next;
      nodes := nodes[key := nodes[key].(prev := None, next := None)];
      if prev.Some? {
        nodes := nodes[prev.value := nodes[prev.value].(next := next)];
      }
      if next.Some? {
        nodes := nodes[next.value := nodes[next.value].(prev := prev)];
      }
      assert key !in keys ==> nodes == store.nodes;
      Untouched(store.nodes, keys);
      if head == Some(key) {
        head := next;
      }
      if tail == Some(key) {
        tail := prev;
      }
      store.nodes := nodes;
      keys := Without(keys, key);
    }

    method PopFront<T>(store: NodeStore<T>) returns (key: Option<nat>)
      requires Valid(store.nodes)
      modifies this, store
      ensures Valid(store.nodes)
      ensures key == if old(keys) == [] then None else Some(old(keys)[0])
      ensures keys == if old(keys) == [] then [] else old(keys)[1..]
      ensures key.Some? ==> Detached(store.nodes, key.value)
      ensures OnlyLinks(old(store.nodes), store.nodes, old(keys))
    {
      key := head;
      if key.Some? {
        TakenFirst(keys);
        Remove(store, key.value);
      }
    }

    method PushBack<T>(store: NodeStore<T>, key: nat)
      requires Valid(store.nodes) && key in store.nodes && key !in keys
      modifies this, store
      ensures Valid(store.nodes)
      ensures keys == old(keys) + [key]
      ensures OnlyLinks(old(store.nodes), store.nodes, keys)
    {
      AllDiffer(keys);
      Insert(store, tail, key);
    }

    /** `remove` then `push_back`, as every caller that queues a key writes it. */
    method MoveToBack<T>(store: NodeStore<T>, key: nat)
      requires Valid(store.nodes) && Threaded(store.nodes, keys) && key in store.nodes
      modifies this, store
      ensures Valid(store.nodes) && Threaded(store.nodes, keys)
      ensures keys == Without(old(keys), key) + [key]
      ensures OnlyLinks(old(store.nodes), store.nodes, keys)
    {
      Remove(store, key);
      PushBack(store, key);
    }

    method Concat<T>(store: NodeStore<T>, other: List)
      requires other != this && Valid(store.nodes) && other.Valid(store.nodes)
      requires forall k :: k in keys ==> k !in other.keys
      modifies this, other, store
      ensures Valid(store.nodes) && other.Valid(store.nodes)
      ensures keys == old(keys) + old(other.keys) && other.keys == []
      ensures OnlyLinks(old(store.nodes), store.nodes, keys)
    {
      if other.IsEmpty() {
        return;
      }
      ghost var mine, rest := keys, other.keys;
      Members(store.nodes, rest, other.head, other.tail);
      AllDiffer(mine);
      var hkey := other.head.value;
      var next := store.nodes[hkey].next;
      Insert(store, tail, hkey);
      assert keys == mine + [rest[0]];
      AppendedHead(old(store.nodes), store.nodes, mine, rest, old(head), old(tail), other.head, other.tail, head);
      store.nodes := store.nodes[hkey := store.nodes[hkey].(next := next)];
      tail := other.tail;
      other.head, other.tail, other.keys := None, None, [];
      keys := mine + rest;
    }
  }
}
