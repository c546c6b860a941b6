/** Orders of a finite dependency relation.

    `deps[v]` is the set of direct prerequisites of node `v`.  This module says which nodes a
    breadth-first removal of satisfied nodes can reach, and in which order it must emit them;
    nothing in it mentions queues or counters.
  */
module DependencyOrder {

  type Deps = deps: seq<set<nat>> | WellFormed(deps) witness []

  predicate WellFormed(deps: seq<set<nat>>) {
    forall v, u :: 0 <= v < |deps| && u in deps[v] ==> u < |deps|
  }

  ghost predicate Distinct<T>(s: seq<T>) {
    forall i, j :: 0 <= i < j < |s| ==> s[i] != s[j]
  }

  // ---------------------------------------------------------------------------------------------
  // Paths and cycles
  // ---------------------------------------------------------------------------------------------

  /** A walk that steps from a prerequisite to a node that needs it. */
  ghost predicate IsPath(deps: Deps, p: seq<nat>) {
    && |p| > 0
    && (forall k :: 0 <= k < |p| ==> p[k] < |deps|)
    && (forall k :: 0 <= k < |p| - 1 ==> p[k] in deps[p[k + 1]])
  }

  ghost predicate IsCycle(deps: Deps, p: seq<nat>) {
    IsPath(deps, p) && |p| >= 2 && p[0] == p[|p| - 1]
  }

  ghost predicate Cyclic(deps: Deps) {
    exists p :: IsCycle(deps, p)
  }

  ghost predicate OnCycle(deps: Deps, v: nat) {
    exists p :: IsCycle(deps, p) && p[0] == v
  }

  /** `v` is on a cycle, or has a direct or indirect prerequisite that is. */
  ghost predicate Blocked(deps: Deps, v: nat) {
    exists p :: IsPath(deps, p) && p[|p| - 1] == v && OnCycle(deps, p[0])
  }

  // ---------------------------------------------------------------------------------------------
  // The order
  // ---------------------------------------------------------------------------------------------

  /** One more than the last position in `order` that holds a prerequisite of `v`; 0 if none does. */
  ghost function LastPrereq(deps: Deps, order: seq<nat>, v: nat): nat
    requires v < |deps|
  {
    if order == [] then 0
    else if order[|order| - 1] in deps[v] then |order|
    else LastPrereq(deps, order[..|order| - 1], v)
  }

  ghost predicate KeyLess(deps: Deps, order: seq<nat>, x: nat, y: nat)
    requires x < |deps| && y < |deps|
  {
    var kx, ky := LastPrereq(deps, order, x), LastPrereq(deps, order, y);
    kx < ky || (kx == ky && x < y)
  }

  ghost predicate InRange(deps: Deps, s: seq<nat>) {
    forall k :: 0 <= k < |s| ==> s[k] < |deps|
  }

  /** `s` is sorted by the position in `order` of the latest prerequisite, then by index. */
  ghost predicate KeySorted(deps: Deps, order: seq<nat>, s: seq<nat>)
    requires InRange(deps, s)
  {
    forall a, b :: 0 <= a < b < |s| ==> KeyLess(deps, order, s[a], s[b])
  }

  ghost predicate Satisfied(deps: Deps, order: seq<nat>, v: nat)
    requires v < |deps|
  {
    forall u :: u in deps[v] ==> u in order
  }

  /** `order` lists exactly the nodes whose prerequisites it lists, prerequisites first, ready nodes
      in the order in which their latest prerequisite was emitted. */
  ghost predicate IsKahnOrder(deps: Deps, order: seq<nat>) {
    && InRange(deps, order)
    && Distinct(order)
    && (forall v :: 0 <= v < |deps| ==> (v in order <==> Satisfied(deps, order, v)))
    && (forall b :: 0 <= b < |order| ==> LastPrereq(deps, order, order[b]) <= b)
    && KeySorted(deps, order, order)
  }

  lemma {:induction false} LastPrereqMeaning(deps: Deps, order: seq<nat>, v: nat)
    requires v < |deps|
    ensures LastPrereq(deps, order, v) <= |order|
    ensures forall a :: LastPrereq(deps, order, v) <= a < |order| ==> order[a] !in deps[v]
    ensures LastPrereq(deps, order, v) > 0 ==> order[LastPrereq(deps, order, v) - 1] in deps[v]
  {
    if order != [] && order[|order| - 1] !in deps[v] {
      LastPrereqMeaning(deps, order[..|order| - 1], v);
    }
  }

  /** In a Kahn order every prerequisite stands before its dependant. */
  lemma PrereqsFirst(deps: Deps, order: seq<nat>, a: nat, b: nat)
    requires IsKahnOrder(deps, order)
    requires a < |order| && b < |order| && order[a] in deps[order[b]]
    ensures a < b
  {
    LastPrereqMeaning(deps, order, order[b]);
  }

  lemma LastPrereqPrefix(deps: Deps, order: seq<nat>, n: nat, v: nat)
    requires v < |deps| && n <= |order|
    requires forall a :: n <= a < |order| ==> order[a] !in deps[v]
    ensures LastPrereq(deps, order, v) == LastPrereq(deps, order[..n], v)
    decreases |order|
  {
    if n < |order| {
      var shorter := order[..|order| - 1];
      LastPrereqPrefix(deps, shorter, n, v);
      assert shorter[..n] == order[..n];
    } else {
      assert order[..n] == order;
    }
  }

  // ---------------------------------------------------------------------------------------------
  // Uniqueness: the contract of a Kahn order leaves no freedom
  // ---------------------------------------------------------------------------------------------

  lemma {:induction false} KahnOrderContains(deps: Deps, o1: seq<nat>, o2: seq<nat>, b: nat)
    requires IsKahnOrder(deps, o1) && IsKahnOrder(deps, o2)
    requires b < |o1|
    ensures o1[b] in o2
    decreases b
  {
    forall u | u in deps[o1[b]]
      ensures u in o2
    {
      assert o1[b] in o1;
      var a :| 0 <= a < |o1| && o1[a] == u;
      PrereqsFirst(deps, o1, a, b);
      KahnOrderContains(deps, o1, o2, a);
    }
  }

  /** At the first difference both orders would have to put the smaller key first. */
  lemma KahnOrdersAgreeAt(deps: Deps, o1: seq<nat>, o2: seq<nat>, k: nat)
    requires IsKahnOrder(deps, o1) && IsKahnOrder(deps, o2)
    requires k < |o1| && k < |o2| && o1[..k] == o2[..k]
    ensures o1[k] == o2[k]
  {
    var x, y := o1[k], o2[k];
    KahnOrderContains(deps, o1, o2, k);
    KahnOrderContains(deps, o2, o1, k);
    var p :| 0 <= p < |o2| && o2[p] == x;
    var q :| 0 <= q < |o1| && o1[q] == y;
    if x != y {
      assert forall a :: 0 <= a < k ==> o1[a] == o1[..k][a] == o2[..k][a] == o2[a];
      assert p > k && q > k;
      KeyIsPrefixKey(deps, o1, o2, k, x);
      KeyIsPrefixKey(deps, o2, o1, k, y);
    }
  }

  /** A node whose prerequisites all lie in the common prefix has the same key in both orders. */
  lemma KeyIsPrefixKey(deps: Deps, o1: seq<nat>, o2: seq<nat>, k: nat, x: nat)
    requires IsKahnOrder(deps, o1) && IsKahnOrder(deps, o2)
    requires k < |o1| && k < |o2| && o1[..k] == o2[..k] && x == o1[k]
    ensures LastPrereq(deps, o1, x) == LastPrereq(deps, o2, x)
  {
    LastPrereqMeaning(deps, o1, x);
    LastPrereqPrefix(deps, o1, k, x);
    assert forall c :: 0 <= c < k ==> o2[c] == o1[..k][c] == o1[c];
    assert x in o1;
    assert forall u :: u in deps[x] ==> u in o1[..k];
    LastPrereqPrefix(deps, o2, k, x);
  }

  lemma {:induction false} KahnOrderPrefixUnique(deps: Deps, o1: seq<nat>, o2: seq<nat>, k: nat)
    requires IsKahnOrder(deps, o1) && IsKahnOrder(deps, o2)
    requires k <= |o1| && k <= |o2|
    ensures o1[..k] == o2[..k]
    decreases k
  {
    if k > 0 {
      KahnOrderPrefixUnique(deps, o1, o2, k - 1);
      KahnOrdersAgreeAt(deps, o1, o2, k - 1);
      assert o1[..k] == o1[..k - 1] + [o1[k - 1]];
      assert o2[..k] == o2[..k - 1] + [o2[k - 1]];
    }
  }

  lemma KahnOrderLength(deps: Deps, o1: seq<nat>, o2: seq<nat>)
    requires IsKahnOrder(deps, o1) && IsKahnOrder(deps, o2)
    ensures |o1| <= |o2|
  {
    if |o2| < |o1| {
      KahnOrderPrefixUnique(deps, o1, o2, |o2|);
      assert forall p :: 0 <= p < |o2| ==> o1[p] == o1[..|o2|][p] == o2[p];
      KahnOrderContains(deps, o1, o2, |o2|);
    }
  }

  /** There is only one Kahn order, so a contract that promises one fixes the whole output. */
  lemma KahnOrderUnique(deps: Deps, o1: seq<nat>, o2: seq<nat>)
    requires IsKahnOrder(deps, o1) && IsKahnOrder(deps, o2)
    ensures o1 == o2
  {
    KahnOrderLength(deps, o1, o2);
    KahnOrderLength(deps, o2, o1);
    KahnOrderPrefixUnique(deps, o1, o2, |o1|);
    assert o1[..|o1|] == o1 && o2[..|o2|] == o2;
  }

  // ---------------------------------------------------------------------------------------------
  // What is left out of a Kahn order
  // ---------------------------------------------------------------------------------------------

  /** Along a path that ends inside the order, every node is in the order, at rising positions. */
  lemma {:induction false} PathInsideOrder(deps: Deps, order: seq<nat>, p: seq<nat>)
    requires IsKahnOrder(deps, order) && IsPath(deps, p) && p[|p| - 1] in order
    ensures p[0] in order
    ensures forall a, b :: 0 <= a < |order| && 0 <= b < |order| && |p| >= 2 ==>
              order[a] == p[0] && order[b] == p[|p| - 1] ==> a < b
    decreases |p|
  {
    if |p| >= 2 {
      var n := |p| - 1;
      var front := p[..n];
      assert p[n - 1] in deps[p[n]];
      assert front[|front| - 1] == p[n - 1];
      PathInsideOrder(deps, order, front);
      forall a, b | 0 <= a < |order| && 0 <= b < |order| && order[a] == p[0] && order[b] == p[n]
        ensures a < b
      {
        var c :| 0 <= c < |order| && order[c] == p[n - 1];
        PrereqsFirst(deps, order, c, b);
        if |front| >= 2 {
          assert front[0] == p[0];
          assert a < c;
        }
      }
    }
  }

  lemma OrderedNodesAreUnblocked(deps: Deps, order: seq<nat>, v: nat)
    requires IsKahnOrder(deps, order) && v in order
    ensures !Blocked(deps, v)
  {
    if Blocked(deps, v) {
      var p :| IsPath(deps, p) && p[|p| - 1] == v && OnCycle(deps, p[0]);
      PathInsideOrder(deps, order, p);
      var c :| IsCycle(deps, c) && c[0] == p[0];
      PathInsideOrder(deps, order, c);
    }
  }

  /** A node outside the order has arbitrarily long chains of prerequisites outside the order. */
  lemma {:induction false} OutsideChain(deps: Deps, order: seq<nat>, v: nat, n: nat) returns (p: seq<nat>)
    requires IsKahnOrder(deps, order) && v < |deps| && v !in order
    ensures IsPath(deps, p) && |p| == n + 1 && p[n] == v
    decreases n
  {
    if n == 0 {
      p := [v];
    } else {
      var u :| u in deps[v] && u !in order;
      var front := OutsideChain(deps, order, u, n - 1);
      p := front + [v];
    }
  }

  lemma {:induction false} Pigeonhole(p: seq<nat>, n: nat) returns (i: nat, j: nat)
    requires |p| > n && forall k :: 0 <= k < |p| ==> p[k] < n
    ensures i < j < |p| && p[i] == p[j]
    decreases n
  {
    var last := |p| - 1;
    if a :| 0 <= a < last && p[a] == p[last] {
      i, j := a, last;
    } else {
      // Rename the largest value to the one the last element frees.
      var q := seq(last, k requires 0 <= k < last => if p[k] == n - 1 then p[last] else p[k]);
      assert forall k :: 0 <= k < last ==> q[k] < n - 1;
      i, j := Pigeonhole(q, n - 1);
    }
  }

  lemma UnorderedNodesAreBlocked(deps: Deps, order: seq<nat>, v: nat)
    requires IsKahnOrder(deps, order) && v < |deps| && v !in order
    ensures Blocked(deps, v)
  {
    var p := OutsideChain(deps, order, v, |deps|);
    var i, j := Pigeonhole(p, |deps|);
    var cycle := p[i..j + 1];
    assert IsCycle(deps, cycle) && cycle[0] == p[i];
    var tail := p[i..];
    assert IsPath(deps, tail) && tail[|tail| - 1] == v && tail[0] == p[i];
  }

  /** A Kahn order holds exactly the nodes that neither lie on a cycle nor depend on one. */
  lemma KahnOrderHoldsUnblocked(deps: Deps, order: seq<nat>)
    requires IsKahnOrder(deps, order)
    ensures forall v :: 0 <= v < |deps| ==> (v in order <==> !Blocked(deps, v))
  {
    forall v | 0 <= v < |deps|
      ensures v in order <==> !Blocked(deps, v)
    {
      if v in order {
        OrderedNodesAreUnblocked(deps, order, v);
      } else {
        UnorderedNodesAreBlocked(deps, order, v);
      }
    }
  }

  lemma DistinctCovers(s: seq<nat>, n: nat)
    requires Distinct(s) && forall k :: 0 <= k < |s| ==> s[k] < n
    ensures |s| <= n
    ensures |s| == n ==> forall v :: 0 <= v < n ==> v in s
  {
    if |s| > n {
      var i, j := Pigeonhole(s, n);
    }
    if |s| == n {
      forall v | 0 <= v < n
        ensures v in s
      {
        if v !in s {
          var i, j := Pigeonhole(s + [v], n);
        }
      }
    }
  }

  /** The order is complete exactly when the relation has no cycle. */
  lemma KahnOrderCompleteIffAcyclic(deps: Deps, order: seq<nat>)
    requires IsKahnOrder(deps, order)
    ensures |order| == |deps| <==> !Cyclic(deps)
  {
    DistinctCovers(order, |deps|);
    KahnOrderHoldsUnblocked(deps, order);
    if Cyclic(deps) {
      var c :| IsCycle(deps, c);
      var single := [c[0]];
      assert IsPath(deps, single) && single[|single| - 1] == c[0] && OnCycle(deps, single[0]);
      assert Blocked(deps, c[0]);
    } else if |order| < |deps| {
      if forall v :: 0 <= v < |deps| ==> v in order {
        CoveringIsLong(order, |deps|);
      }
    }
  }

  lemma CoveringIsLong(s: seq<nat>, n: nat)
    requires forall v :: 0 <= v < n ==> v in s
    ensures |s| >= n
  {
    if |s| < n {
      var positions := seq(n, v requires 0 <= v < n => Position(s, v));
      var i, j := Pigeonhole(positions, |s|);
    }
  }

  ghost function Position(s: seq<nat>, v: nat): (k: nat)
    requires v in s
    ensures k < |s| && s[k] == v
  {
    var k: nat :| k < |s| && s[k] == v;
    k
  }

  // ---------------------------------------------------------------------------------------------
  // Depth
  // ---------------------------------------------------------------------------------------------

  /** There is a chain of `n` prerequisites below `v`; the depth of `v` is the largest such `n`. */
  ghost predicate HasChain(deps: Deps, v: nat, n: nat)
    requires v < |deps|
    decreases n
  {
    n == 0 || exists u :: u in deps[v] && HasChain(deps, u, n - 1)
  }

  /** A later node has a prerequisite at least as late as any prerequisite of an earlier node. */
  lemma LaterPrereq(deps: Deps, order: seq<nat>, a: nat, b: nat, c: nat) returns (last: nat)
    requires IsKahnOrder(deps, order)
    requires a < b < |order| && c < |order| && order[c] in deps[order[a]]
    ensures c <= last < b && order[last] in deps[order[b]]
  {
    LastPrereqMeaning(deps, order, order[a]);
    LastPrereqMeaning(deps, order, order[b]);
    assert KeyLess(deps, order, order[a], order[b]);
    last := LastPrereq(deps, order, order[b]) - 1;
  }

  /** A Kahn order never goes back to a shallower node. */
  lemma {:induction false} KahnOrderByDepth(deps: Deps, order: seq<nat>, a: nat, b: nat, n: nat)
    requires IsKahnOrder(deps, order)
    requires a <= b < |order| && HasChain(deps, order[a], n)
    ensures HasChain(deps, order[b], n)
    decreases n
  {
    if n > 0 && a < b {
      var u :| u in deps[order[a]] && HasChain(deps, u, n - 1);
      assert order[a] in order;
      var c :| 0 <= c < |order| && order[c] == u;
      var last := LaterPrereq(deps, order, a, b, c);
      KahnOrderByDepth(deps, order, c, last, n - 1);
    }
  }

  ghost function Roots(deps: Deps, n: nat): (r: seq<nat>)
    requires n <= |deps|
    ensures forall k :: 0 <= k < |r| ==> r[k] < n && deps[r[k]] == {}
    ensures forall v :: 0 <= v < n && deps[v] == {} ==> v in r
    ensures forall i, j :: 0 <= i < j < |r| ==> r[i] < r[j]
  {
    if n == 0 then [] else if deps[n - 1] == {} then Roots(deps, n - 1) + [n - 1] else Roots(deps, n - 1)
  }

  lemma RootKey(deps: Deps, order: seq<nat>, x: nat)
    requires IsKahnOrder(deps, order) && x in order
    ensures LastPrereq(deps, order, x) == 0 <==> deps[x] == {}
  {
    LastPrereqMeaning(deps, order, x);
    if deps[x] != {} {
      var u :| u in deps[x];
      assert u in order;
    }
  }

  lemma SmallerRoot(deps: Deps, k: nat, y: nat)
    requires k < |Roots(deps, |deps|)| && y < Roots(deps, |deps|)[k] && deps[y] == {}
    ensures exists j :: 0 <= j < k && Roots(deps, |deps|)[j] == y
  {
    var roots := Roots(deps, |deps|);
    var j :| 0 <= j < |roots| && roots[j] == y;
  }

  /** If the first roots stand in their places, the node that follows them is the next root. */
  lemma NextRoot(deps: Deps, order: seq<nat>, k: nat)
    requires IsKahnOrder(deps, order)
    requires k < |Roots(deps, |deps|)|
    requires forall a :: 0 <= a < k ==> a < |order| && order[a] == Roots(deps, |deps|)[a]
    ensures k < |order| && order[k] == Roots(deps, |deps|)[k]
  {
    var roots := Roots(deps, |deps|);
    var r := roots[k];
    assert Satisfied(deps, order, r) && r in order;
    var p :| 0 <= p < |order| && order[p] == r;
    assert p >= k;
    if p > k {
      assert KeyLess(deps, order, order[k], r);
      assert order[k] in order;
      RootKey(deps, order, r);
      RootKey(deps, order, order[k]);
      SmallerRoot(deps, k, order[k]);
    }
  }

  /** The nodes without prerequisites come first, in index order. */
  lemma KahnOrderStartsWithRoots(deps: Deps, order: seq<nat>)
    requires IsKahnOrder(deps, order)
    ensures Roots(deps, |deps|) <= order
  {
    var roots := Roots(deps, |deps|);
    for k := 0 to |roots|
      invariant k <= |order|
      invariant forall a :: 0 <= a < k ==> a < |order| && order[a] == Roots(deps, |deps|)[a]
    {
      NextRoot(deps, order, k);
    }
  }
}
