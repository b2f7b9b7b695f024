/** Optional values, slab keys and sequences of distinct keys, shared by every component. */
module Common {
  datatype Option<+T> = None | Some(value: T)

  lemma Regroup<T>(x: seq<T>, y: seq<T>, z: seq<T>)
    ensures x + y + z == x + (y + z)
  {
  }

  ghost predicate Differ(s: seq<nat>, i: nat, j: nat)
    requires i < |s| && j < |s|
  {
    s[i] != s[j]
  }

  /** No key occurs twice. It is stated through `Differ` so that `AllDiffer` decides where it is used. */
  ghost predicate Distinct(s: seq<nat>) {
    forall i: nat, j: nat {:trigger Differ(s, i, j)} :: i < j < |s| ==> Differ(s, i, j)
  }

  lemma AllDiffer(s: seq<nat>)
    requires Distinct(s)
    ensures forall i, j :: 0 <= i < j < |s| ==> s[i] != s[j]
  {
    forall i, j | 0 <= i < j < |s|
      ensures s[i] != s[j]
    {
      assert Differ(s, i, j);
    }
  }

  lemma SomeMember(s: seq<nat>)
    ensures s == [] || exists k :: k in s
  {
    if s != [] {
      assert s[0] in s;
    }
  }

  lemma AddedLast(s: seq<nat>, k: nat)
    requires Distinct(s) && k !in s
    ensures Distinct(s + [k])
    ensures forall x :: x in s + [k] <==> x in s || x == k
  {
    AllDiffer(s);
  }

  lemma TakenFirst(s: seq<nat>)
    requires Distinct(s) && s != []
    ensures Distinct(s[1..]) && Without(s, s[0]) == s[1..]
    ensures forall x :: x in s[1..] <==> x in s && x != s[0]
  {
    AllDiffer(s);
    assert IndexOf(s, s[0]) == 0;
    assert s == [s[0]] + s[1..];
  }

  /** The position of a member. */
  ghost function IndexOf(s: seq<nat>, k: nat): (i: nat)
    requires k in s
    ensures i < |s| && s[i] == k
  {
    var i :| 0 <= i < |s| && s[i] == k;
    i
  }

  /** The sequence with its member `k` deleted; unchanged when `k` is not a member. */
  ghost function Without(s: seq<nat>, k: nat): (r: seq<nat>)
    ensures |r| == if k in s then |s| - 1 else |s|
    ensures Distinct(s) ==> Distinct(r) && forall x :: x in r <==> x in s && x != k
  {
    if k !in s then s
    else
      var i := IndexOf(s, k);
      var r := s[..i] + s[i + 1..];
      assert Distinct(s) ==> Distinct(r) && forall x :: x in r <==> x in s && x != k by {
        if Distinct(s) {
          AllDiffer(s);
          forall x | x in s && x != k
            ensures x in r
          {
            var j := IndexOf(s, x);
            assert x == if j < i then r[j] else r[j - 1];
          }
        }
      }
      r
  }

  lemma {:induction false} UpTo(n: nat) returns (s: set<nat>)
    ensures |s| == n
    ensures forall k: nat :: k in s <==> k < n
  {
    if n == 0 {
      s := {};
    } else {
      var t := UpTo(n - 1);
      s := t + {n - 1};
    }
  }

  lemma SubsetSize(a: set<nat>, b: set<nat>)
    requires a <= b
    ensures |a| <= |b|
    ensures |a| == |b| ==> a == b
  {
    assert b == a + (b - a);
  }

  /** A full table has no room and a table with room has a vacant slot below its capacity. */
  lemma VacantBelow(used: set<nat>, capacity: nat)
    requires forall k :: k in used ==> k < capacity
    ensures |used| <= capacity
    ensures |used| < capacity ==> exists k: nat :: k < capacity && k !in used
  {
    var all := UpTo(capacity);
    SubsetSize(used, all);
    if |used| < capacity {
      if all <= used { SubsetSize(all, used); }
      var k :| k in all && k !in used;
    }
  }

  /** A growing table always has a vacant slot. */
  lemma VacantSomewhere(used: set<nat>)
    ensures exists k: nat :: k !in used
  {
    var all := UpTo(|used| + 1);
    if all <= used { SubsetSize(all, used); }
    var k :| k in all && k !in used;
  }
}
