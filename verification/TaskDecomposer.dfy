/** The title-resolved dependency graph of a task plan and Kahn's algorithm over it
    (src/agent/planning/task_decomposer.cpp). */
module TaskDecomposer {
  import opened DependencyOrder
  import opened Json
  import opened Options

  datatype PlannedTask = PlannedTask(
    title: string,
    instruction: string,
    priority: string,
    dependsOn: seq<string>,
    estimatedEffort: string)

  // ---------------------------------------------------------------------------------------------
  // What the titles mean
  // ---------------------------------------------------------------------------------------------

  /** The index a title resolves to: of several tasks with that title, the last. */
  function Resolve(tasks: seq<PlannedTask>, title: string): (r: Option<nat>)
    ensures r.Some? ==> r.value < |tasks| && tasks[r.value].title == title
    ensures forall k :: 0 <= k < |tasks| && tasks[k].title == title ==> r.Some? && k <= r.value
  {
    if tasks == [] then None
    else if tasks[|tasks| - 1].title == title then Some(|tasks| - 1)
    else Resolve(tasks[..|tasks| - 1], title)
  }

  function ResolveAll(tasks: seq<PlannedTask>, titles: seq<string>): (r: set<nat>)
    ensures forall u :: u in r <==> exists k :: 0 <= k < |titles| && Resolve(tasks, titles[k]) == Some(u)
  {
    set k | 0 <= k < |titles| && Resolve(tasks, titles[k]).Some? :: Resolve(tasks, titles[k]).value
  }

  /** The prerequisites of each task; titles that no task carries are ignored. */
  function Prerequisites(tasks: seq<PlannedTask>): (deps: Deps)
    ensures |deps| == |tasks|
  {
    seq(|tasks|, i requires 0 <= i < |tasks| => ResolveAll(tasks, tasks[i].dependsOn))
  }

  // ---------------------------------------------------------------------------------------------
  // In-degrees
  // ---------------------------------------------------------------------------------------------

  type Graph = seq<seq<nat>>

  /** How many parallel edges lead to `v` from the first `n` nodes, those in `done` not counted. */
  ghost function InCount(graph: Graph, done: set<nat>, v: nat, n: nat): nat
    requires n <= |graph|
  {
    if n == 0 then 0
    else InCount(graph, done, v, n - 1) + if n - 1 in done then 0 else multiset(graph[n - 1])[v]
  }

  lemma {:induction false} InCountZero(graph: Graph, done: set<nat>, v: nat, n: nat)
    requires n <= |graph|
    ensures InCount(graph, done, v, n) == 0 <==> forall u :: 0 <= u < n && u !in done ==> v !in graph[u]
  {
    if n > 0 {
      InCountZero(graph, done, v, n - 1);
    }
  }

  lemma {:induction false} InCountDone(graph: Graph, done: set<nat>, u: nat, v: nat, n: nat)
    requires n <= |graph| && u < |graph| && u !in done
    ensures InCount(graph, done, v, n) == InCount(graph, done + {u}, v, n) + if u < n then multiset(graph[u])[v] else 0
  {
    if n > 0 {
      InCountDone(graph, done, u, v, n - 1);
    }
  }

  lemma {:induction false} InCountEdge(graph: Graph, u: nat, i: nat, v: nat, n: nat)
    requires n <= |graph| && u < |graph|
    ensures var bigger := graph[u := graph[u] + [i]];
            InCount(bigger, {}, v, n) == InCount(graph, {}, v, n) + if u < n && v == i then 1 else 0
  {
    if n > 0 {
      InCountEdge(graph, u, i, v, n - 1);
      assert multiset(graph[u] + [i]) == multiset(graph[u]) + multiset{i};
    }
  }

  // ---------------------------------------------------------------------------------------------
  // Building the graph
  // ---------------------------------------------------------------------------------------------

  ghost predicate IsSorted(s: seq<nat>) {
    forall a, b :: 0 <= a < b < |s| ==> s[a] <= s[b]
  }

  /** `graph` and `inDegree` agree, adjacency lists are in index order and hold node numbers. */
  ghost predicate IsCounted(graph: Graph, inDegree: seq<int>) {
    && |inDegree| == |graph|
    && (forall u, k :: 0 <= u < |graph| && 0 <= k < |graph[u]| ==> graph[u][k] < |graph|)
    && (forall u :: 0 <= u < |graph| ==> IsSorted(graph[u]))
    && (forall v :: 0 <= v < |graph| ==> inDegree[v] == InCount(graph, {}, v, |graph|))
  }

  ghost predicate Transposes(graph: Graph, deps: Deps) {
    && |graph| == |deps|
    && (forall u, v :: 0 <= u < |graph| && 0 <= v < |graph| ==> (v in graph[u] <==> u in deps[v]))
  }

  /** The edges to the first `i` tasks and to the first `k` prerequisites of the next one. */
  ghost predicate HasEdges(tasks: seq<PlannedTask>, graph: Graph, i: nat, k: nat)
    requires i < |tasks| ==> k <= |tasks[i].dependsOn|
  {
    && |graph| == |tasks|
    && (forall u, v :: 0 <= u < |graph| && v in graph[u] ==> v < i || (v == i && i < |tasks|))
    && (forall u, v :: 0 <= u < |graph| && 0 <= v < i && v < |tasks| ==>
          (v in graph[u] <==> u in ResolveAll(tasks, tasks[v].dependsOn)))
    && (i < |tasks| ==> forall u :: 0 <= u < |graph| ==>
          (i in graph[u] <==> u in ResolveAll(tasks, tasks[i].dependsOn[..k])))
  }

  /** How often a list of titles means the task at `u`. */
  ghost function Mentions(tasks: seq<PlannedTask>, titles: seq<string>, u: nat): nat {
    if titles == [] then 0
    else Mentions(tasks, titles[..|titles| - 1], u) + if Resolve(tasks, titles[|titles| - 1]) == Some(u) then 1 else 0
  }

  /** One edge from `u` to `v` for each time `v` mentions `u`. */
  ghost predicate HasEdgePerMention(tasks: seq<PlannedTask>, graph: Graph) {
    && |graph| == |tasks|
    && forall u, v :: 0 <= u < |graph| && 0 <= v < |graph| ==>
         multiset(graph[u])[v] == Mentions(tasks, tasks[v].dependsOn, u)
  }

  /** The same for the first `i` tasks and the first `k` prerequisites of the next one. */
  ghost predicate CountsEdges(tasks: seq<PlannedTask>, graph: Graph, i: nat, k: nat)
    requires i < |tasks| ==> k <= |tasks[i].dependsOn|
  {
    && |graph| == |tasks|
    && (forall u, v :: 0 <= u < |graph| && 0 <= v < i && v < |tasks| ==>
          multiset(graph[u])[v] == Mentions(tasks, tasks[v].dependsOn, u))
    && (i < |tasks| ==> forall u :: 0 <= u < |graph| ==>
          multiset(graph[u])[i] == Mentions(tasks, tasks[i].dependsOn[..k], u))
    && (forall u, v :: 0 <= u < |graph| && i < v < |tasks| ==> multiset(graph[u])[v] == 0)
  }

  lemma EdgeIsMention(tasks: seq<PlannedTask>, graph: Graph, i: nat, k: nat, u: Option<nat>)
    requires i < |tasks| && k < |tasks[i].dependsOn| && (u.Some? ==> u.value < |graph|)
    requires CountsEdges(tasks, graph, i, k) && Resolve(tasks, tasks[i].dependsOn[k]) == u
    ensures CountsEdges(tasks, if u.Some? then graph[u.value := graph[u.value] + [i]] else graph, i, k + 1)
  {
    var titles := tasks[i].dependsOn;
    assert titles[..k + 1][..k] == titles[..k];
    var bigger := if u.Some? then graph[u.value := graph[u.value] + [i]] else graph;
    forall w, v | 0 <= w < |graph| && 0 <= v < |tasks|
      ensures multiset(bigger[w])[v] == multiset(graph[w])[v] + if u == Some(w) && v == i then 1 else 0
    {
      if u == Some(w) {
        assert multiset(bigger[w]) == multiset(graph[w]) + multiset{i};
      }
    }
  }

  lemma ResolveAllStep(tasks: seq<PlannedTask>, titles: seq<string>, k: nat, u: nat)
    requires k < |titles|
    ensures u in ResolveAll(tasks, titles[..k + 1]) <==>
            u in ResolveAll(tasks, titles[..k]) || Resolve(tasks, titles[k]) == Some(u)
  {
    var shorter, longer := titles[..k], titles[..k + 1];
    assert longer == shorter + [titles[k]];
    if u in ResolveAll(tasks, shorter) {
      var j :| 0 <= j < |shorter| && Resolve(tasks, shorter[j]) == Some(u);
      assert longer[j] == shorter[j];
    }
    assert longer[k] == titles[k];
  }

  method IndexTitles(tasks: seq<PlannedTask>) returns (titleToIndex: map<string, nat>)
    ensures forall t :: if t in titleToIndex then Resolve(tasks, t) == Some(titleToIndex[t])
            else Resolve(tasks, t) == None
  {
    titleToIndex := map[];
    for i := 0 to |tasks|
      invariant forall t :: Resolve(tasks[..i], t) == if t in titleToIndex then Some(titleToIndex[t]) else None
    {
      assert tasks[..i + 1][..i] == tasks[..i];
      titleToIndex := titleToIndex[tasks[i].title := i];
    }
    assert tasks[..|tasks|] == tasks;
  }

  lemma SortedAppend(s: seq<nat>, i: nat)
    requires IsSorted(s) && forall x :: x in s ==> x <= i
    ensures IsSorted(s + [i])
  {
    assert forall a :: 0 <= a < |s| ==> s[a] in s;
  }

  lemma EdgeCounted(graph: Graph, inDegree: seq<int>, i: nat, u: nat)
    requires IsCounted(graph, inDegree) && i < |graph| && u < |graph|
    requires forall x :: x in graph[u] ==> x <= i
    ensures IsCounted(graph[u := graph[u] + [i]], inDegree[i := inDegree[i] + 1])
  {
    var bigger := graph[u := graph[u] + [i]];
    forall v | 0 <= v < |graph|
      ensures inDegree[i := inDegree[i] + 1][v] == InCount(bigger, {}, v, |graph|)
    {
      InCountEdge(graph, u, i, v, |graph|);
    }
    SortedAppend(graph[u], i);
  }

  /** One edge: `graph[u].push_back(i)`. */
  lemma EdgeAdded(tasks: seq<PlannedTask>, graph: Graph, i: nat, k: nat, u: nat)
    requires i < |tasks| && k < |tasks[i].dependsOn| && u < |graph|
    requires HasEdges(tasks, graph, i, k)
    requires Resolve(tasks, tasks[i].dependsOn[k]) == Some(u)
    ensures HasEdges(tasks, graph[u := graph[u] + [i]], i, k + 1)
  {
    var bigger := graph[u := graph[u] + [i]];
    forall w | 0 <= w < |graph|
      ensures i in bigger[w] <==> w in ResolveAll(tasks, tasks[i].dependsOn[..k + 1])
    {
      ResolveAllStep(tasks, tasks[i].dependsOn, k, w);
    }
  }

  lemma NoEdgeAdded(tasks: seq<PlannedTask>, graph: Graph, i: nat, k: nat)
    requires i < |tasks| && k < |tasks[i].dependsOn|
    requires HasEdges(tasks, graph, i, k)
    requires Resolve(tasks, tasks[i].dependsOn[k]) == None
    ensures HasEdges(tasks, graph, i, k + 1)
  {
    forall w | 0 <= w < |graph|
      ensures i in graph[w] <==> w in ResolveAll(tasks, tasks[i].dependsOn[..k + 1])
    {
      ResolveAllStep(tasks, tasks[i].dependsOn, k, w);
    }
  }

  /** The edges of the first `i` tasks, and of the first `k` prerequisites of the next one, are there. */
  ghost predicate Built(tasks: seq<PlannedTask>, graph: Graph, inDegree: seq<int>, i: nat, k: nat)
    requires i < |tasks| ==> k <= |tasks[i].dependsOn|
  {
    IsCounted(graph, inDegree) && HasEdges(tasks, graph, i, k) && CountsEdges(tasks, graph, i, k)
  }

  lemma NothingBuilt(tasks: seq<PlannedTask>)
    ensures Built(tasks, seq(|tasks|, _ => []), seq(|tasks|, _ => 0), 0, 0)
  {
    var graph: Graph := seq(|tasks|, _ => []);
    forall v | 0 <= v < |tasks|
      ensures InCount(graph, {}, v, |graph|) == 0
    {
      InCountZero(graph, {}, v, |graph|);
    }
  }

  lemma MentionBuilt(tasks: seq<PlannedTask>, graph: Graph, inDegree: seq<int>, i: nat, k: nat)
    requires i < |tasks| && k < |tasks[i].dependsOn| && Built(tasks, graph, inDegree, i, k)
    ensures match Resolve(tasks, tasks[i].dependsOn[k])
            case None => Built(tasks, graph, inDegree, i, k + 1)
            case Some(u) => Built(tasks, graph[u := graph[u] + [i]], inDegree[i := inDegree[i] + 1], i, k + 1)
  {
    var resolved := Resolve(tasks, tasks[i].dependsOn[k]);
    EdgeIsMention(tasks, graph, i, k, resolved);
    match resolved
    case None =>
      NoEdgeAdded(tasks, graph, i, k);
    case Some(u) =>
      EdgeCounted(graph, inDegree, i, u);
      EdgeAdded(tasks, graph, i, k, u);
  }

  lemma TaskBuilt(tasks: seq<PlannedTask>, graph: Graph, inDegree: seq<int>, i: nat)
    requires i < |tasks| && Built(tasks, graph, inDegree, i, |tasks[i].dependsOn|)
    ensures Built(tasks, graph, inDegree, i + 1, 0)
  {
    var titles := tasks[i].dependsOn;
    assert titles[..|titles|] == titles;
  }

  method BuildGraph(tasks: seq<PlannedTask>) returns (graph: Graph, inDegree: seq<int>)
    ensures IsCounted(graph, inDegree) && Transposes(graph, Prerequisites(tasks)) && HasEdgePerMention(tasks, graph)
  {
    var titleToIndex := IndexTitles(tasks);
    graph := seq(|tasks|, _ => []);
    inDegree := seq(|tasks|, _ => 0);
    NothingBuilt(tasks);
    for i := 0 to |tasks|
      invariant Built(tasks, graph, inDegree, i, 0)
    {
      for k := 0 to |tasks[i].dependsOn|
        invariant Built(tasks, graph, inDegree, i, k)
      {
        MentionBuilt(tasks, graph, inDegree, i, k);
        var title := tasks[i].dependsOn[k];
        if title in titleToIndex {
          var u := titleToIndex[title];
          graph := graph[u := graph[u] + [i]];
          inDegree := inDegree[i := inDegree[i] + 1];
        }
      }
      TaskBuilt(tasks, graph, inDegree, i);
    }
  }

  // ---------------------------------------------------------------------------------------------
  // Kahn's loop
  // ---------------------------------------------------------------------------------------------

  ghost function Elements(s: seq<nat>): set<nat> {
    set x | x in s
  }

  /** Edges to `v` from nodes not yet popped, plus those among the last `rest` of the node being relaxed. */
  ghost function Unrelaxed(graph: Graph, order: seq<nat>, rest: seq<nat>, v: nat): nat {
    InCount(graph, Elements(order), v, |graph|) + multiset(rest)[v]
  }

  /** The state of the loop: `order` is popped, `queue` pending, `rest` the adjacency still to relax
      of the node popped last. */
  ghost predicate KahnState(deps: Deps, graph: Graph, inDegree: seq<int>, order: seq<nat>, queue: seq<nat>,
                            rest: seq<nat>) {
    && |inDegree| == |graph|
    && InRange(deps, order + queue)
    && Distinct(order + queue)
    && (forall v :: 0 <= v < |graph| ==> inDegree[v] == Unrelaxed(graph, order, rest, v))
    && (forall v :: 0 <= v < |graph| ==> (v in order + queue <==> inDegree[v] == 0))
    && KeySorted(deps, order, order + queue)
    && (forall b :: 0 <= b < |order| ==> order[b] < |deps| && LastPrereq(deps, order, order[b]) <= b)
    && (rest != [] ==> order != [] && order[|order| - 1] < |graph| && EndsWith(graph[order[|order| - 1]], rest))
  }

  ghost predicate Below(s: seq<nat>, n: nat) {
    forall k :: 0 <= k < |s| ==> s[k] < n
  }

  ghost predicate EndsWith(s: seq<nat>, rest: seq<nat>) {
    |rest| <= |s| && s[|s| - |rest|..] == rest
  }

  /** When no edge of the popped node is left, a pushed node has all prerequisites popped. */
  lemma ReadyMeansSatisfied(deps: Deps, graph: Graph, inDegree: seq<int>, order: seq<nat>, queue: seq<nat>, v: nat)
    requires Transposes(graph, deps) && KahnState(deps, graph, inDegree, order, queue, [])
    requires v < |graph|
    ensures v in order + queue <==> Satisfied(deps, order, v)
  {
    InCountZero(graph, Elements(order), v, |graph|);
    assert forall u :: 0 <= u < |graph| ==> (v in graph[u] <==> u in deps[v]);
    assert forall u :: u in Elements(order) <==> u in order;
  }

  lemma PoppedCounts(deps: Deps, graph: Graph, inDegree: seq<int>, order: seq<nat>, queue: seq<nat>)
    requires Transposes(graph, deps) && queue != []
    requires KahnState(deps, graph, inDegree, order, queue, [])
    ensures queue[0] < |graph| && queue[0] !in order
    ensures forall v :: 0 <= v < |graph| ==> inDegree[v] == Unrelaxed(graph, order + [queue[0]], graph[queue[0]], v)
  {
    var u := queue[0];
    var order' := order + [u];
    assert (order + queue)[|order|] == u;
    assert forall a :: 0 <= a < |order| ==> (order + queue)[a] == order[a];
    assert Elements(order') == Elements(order) + {u};
    forall v | 0 <= v < |graph|
      ensures Unrelaxed(graph, order', graph[u], v) == Unrelaxed(graph, order, [], v)
    {
      InCountDone(graph, Elements(order), u, v, |graph|);
    }
  }

  /** Every pushed node has all its prerequisites popped, so another pop changes no key. */
  lemma PoppedKeys(deps: Deps, graph: Graph, inDegree: seq<int>, order: seq<nat>, queue: seq<nat>, x: nat)
    requires Transposes(graph, deps) && queue != []
    requires KahnState(deps, graph, inDegree, order, queue, [])
    requires x in order + queue && queue[0] !in order
    ensures x < |deps| && LastPrereq(deps, order + [queue[0]], x) == LastPrereq(deps, order, x)
  {
    var order' := order + [queue[0]];
    ReadyMeansSatisfied(deps, graph, inDegree, order, queue, x);
    assert order'[..|order|] == order;
    LastPrereqPrefix(deps, order', |order|, x);
  }

  /** Popping the front of the queue leaves exactly its adjacency to relax. */
  lemma Popped(deps: Deps, graph: Graph, inDegree: seq<int>, order: seq<nat>, queue: seq<nat>)
    requires Transposes(graph, deps) && queue != []
    requires KahnState(deps, graph, inDegree, order, queue, [])
    ensures queue[0] < |graph|
    ensures KahnState(deps, graph, inDegree, order + [queue[0]], queue[1..], graph[queue[0]])
  {
    var u := queue[0];
    var order' := order + [u];
    PoppedCounts(deps, graph, inDegree, order, queue);
    assert order' + queue[1..] == order + queue;
    forall x | x in order + queue
      ensures x < |deps| && LastPrereq(deps, order', x) == LastPrereq(deps, order, x)
    {
      PoppedKeys(deps, graph, inDegree, order, queue, x);
    }
    assert forall b :: 0 <= b < |order'| ==> order'[b] == (order + queue)[b] && order'[b] in order + queue;
    LastPrereqMeaning(deps, order, u);
    assert EndsWith(graph[u], graph[u]);
  }

  ghost predicate IsCountedShape(graph: Graph) {
    && (forall u, k :: 0 <= u < |graph| && 0 <= k < |graph[u]| ==> graph[u][k] < |graph|)
    && (forall u :: 0 <= u < |graph| ==> IsSorted(graph[u]))
  }

  ghost function Pushed(inDegree: seq<int>, queue: seq<nat>, v: nat): seq<nat>
    requires v < |inDegree|
  {
    if inDegree[v] == 0 then queue + [v] else queue
  }

  /** A node pushed now has the largest key so far: its latest prerequisite is the node popped last. */
  lemma NewKeyIsLargest(deps: Deps, graph: Graph, inDegree: seq<int>, order: seq<nat>, queue: seq<nat>, rest: seq<nat>,
                        x: nat)
    requires IsCountedShape(graph) && Transposes(graph, deps)
    requires KahnState(deps, graph, inDegree, order, queue, rest) && rest != []
    requires x in order + queue
    ensures rest[0] < |deps| && x < |deps| && KeyLess(deps, order, x, rest[0])
  {
    var u := order[|order| - 1];
    var v := rest[0];
    var adjacent := graph[u];
    var k := |adjacent| - |rest|;
    assert adjacent[k] == v && v in adjacent;
    LastPrereqMeaning(deps, order, x);
    assert LastPrereq(deps, order, v) == |order|;
    if u in deps[x] {
      assert x in adjacent;
      assert x !in rest;
      assert forall a :: k <= a < |adjacent| ==> adjacent[a] == rest[a - k];
      var a :| 0 <= a < |adjacent| && adjacent[a] == x;
      assert v !in order + queue;
    }
  }

  lemma PushKeepsKeys(deps: Deps, graph: Graph, inDegree: seq<int>, order: seq<nat>, queue: seq<nat>, rest: seq<nat>)
    requires IsCountedShape(graph) && Transposes(graph, deps)
    requires KahnState(deps, graph, inDegree, order, queue, rest) && rest != []
    ensures InRange(deps, order + (queue + [rest[0]])) && KeySorted(deps, order, order + (queue + [rest[0]]))
  {
    var pushed := order + queue;
    assert order + (queue + [rest[0]]) == pushed + [rest[0]];
    forall a | 0 <= a < |pushed|
      ensures rest[0] < |deps| && KeyLess(deps, order, pushed[a], rest[0])
    {
      NewKeyIsLargest(deps, graph, inDegree, order, queue, rest, pushed[a]);
    }
    EdgeTarget(deps, graph, inDegree, order, queue, rest);
  }

  /** An edge still to relax leads to a node that was not pushed. */
  lemma EdgeTarget(deps: Deps, graph: Graph, inDegree: seq<int>, order: seq<nat>, queue: seq<nat>, rest: seq<nat>)
    requires IsCountedShape(graph) && Transposes(graph, deps)
    requires KahnState(deps, graph, inDegree, order, queue, rest) && rest != []
    ensures rest[0] < |graph| && inDegree[rest[0]] > 0 && rest[0] !in order + queue
  {
    var adjacent := graph[order[|order| - 1]];
    assert adjacent[|adjacent| - |rest|] == rest[0];
    assert rest[0] in multiset(rest);
  }

  /** Relaxing one edge: `if (--in_degree[v] == 0) q.push(v)`. */
  lemma Relaxed(deps: Deps, graph: Graph, inDegree: seq<int>, order: seq<nat>, queue: seq<nat>, rest: seq<nat>)
    requires IsCountedShape(graph) && Transposes(graph, deps)
    requires KahnState(deps, graph, inDegree, order, queue, rest) && rest != []
    ensures rest[0] < |graph|
    ensures var v := rest[0];
            var lower := inDegree[v := inDegree[v] - 1];
            KahnState(deps, graph, lower, order, Pushed(lower, queue, v), rest[1..])
  {
    var v := rest[0];
    EdgeTarget(deps, graph, inDegree, order, queue, rest);
    var lower := inDegree[v := inDegree[v] - 1];
    forall w | 0 <= w < |graph|
      ensures lower[w] == Unrelaxed(graph, order, rest[1..], w)
    {
      CountHead(rest, w);
    }
    if lower[v] == 0 {
      PushKeepsKeys(deps, graph, inDegree, order, queue, rest);
      assert order + (queue + [v]) == order + queue + [v];
    }
    EndsWithTail(graph[order[|order| - 1]], rest);
  }

  lemma CountHead(rest: seq<nat>, w: nat)
    requires rest != []
    ensures multiset(rest)[w] == multiset(rest[1..])[w] + if rest[0] == w then 1 else 0
  {
    assert rest == [rest[0]] + rest[1..];
  }

  lemma EndsWithTail(s: seq<nat>, rest: seq<nat>)
    requires EndsWith(s, rest) && rest != []
    ensures EndsWith(s, rest[1..])
  {
    assert s[|s| - |rest[1..]|..] == s[|s| - |rest|..][1..];
  }

  lemma InitialState(deps: Deps, graph: Graph, inDegree: seq<int>, queue: seq<nat>)
    requires IsCounted(graph, inDegree) && Transposes(graph, deps)
    requires Below(queue, |graph|)
    requires forall a, b :: 0 <= a < b < |queue| ==> queue[a] < queue[b]
    requires forall v :: 0 <= v < |graph| ==> (v in queue <==> inDegree[v] == 0)
    ensures KahnState(deps, graph, inDegree, [], queue, [])
  {
    assert [] + queue == queue;
    assert Elements([]) == {};
  }

  /** The nodes of in-degree zero, in index order. */
  method InitialQueue(graph: Graph, inDegree: seq<int>, ghost deps: Deps) returns (queue: seq<nat>)
    requires IsCounted(graph, inDegree) && Transposes(graph, deps)
    ensures KahnState(deps, graph, inDegree, [], queue, [])
  {
    queue := [];
    for i := 0 to |graph|
      invariant Below(queue, i)
      invariant forall a, b :: 0 <= a < b < |queue| ==> queue[a] < queue[b]
      invariant forall v :: 0 <= v < i ==> (v in queue <==> inDegree[v] == 0)
    {
      if inDegree[i] == 0 {
        queue := queue + [i];
      }
    }
    InitialState(deps, graph, inDegree, queue);
  }

  /** `for (auto v : graph[u])`, where `u` is the node popped last. */
  method RelaxAll(graph: Graph, inDegree0: seq<int>, queue0: seq<nat>, u: nat, ghost order: seq<nat>, ghost deps: Deps)
    returns (inDegree: seq<int>, queue: seq<nat>)
    requires IsCountedShape(graph) && Transposes(graph, deps) && u < |graph|
    requires KahnState(deps, graph, inDegree0, order, queue0, graph[u])
    ensures KahnState(deps, graph, inDegree, order, queue, [])
  {
    inDegree, queue := inDegree0, queue0;
    assert graph[u][0..] == graph[u];
    for k := 0 to |graph[u]|
      invariant KahnState(deps, graph, inDegree, order, queue, graph[u][k..])
    {
      var v := graph[u][k];
      Relaxed(deps, graph, inDegree, order, queue, graph[u][k..]);
      inDegree := inDegree[v := inDegree[v] - 1];
      if inDegree[v] == 0 {
        queue := queue + [v];
      }
      assert graph[u][k..][1..] == graph[u][k + 1..];
    }
    assert graph[u][|graph[u]|..] == [];
  }

  lemma OrderIsShort(deps: Deps, graph: Graph, inDegree: seq<int>, order: seq<nat>, queue: seq<nat>)
    requires Transposes(graph, deps) && KahnState(deps, graph, inDegree, order, queue, []) && queue != []
    ensures |order| < |graph|
  {
    DistinctCovers(order + queue, |graph|);
  }

  lemma FinalState(deps: Deps, graph: Graph, inDegree: seq<int>, order: seq<nat>)
    requires Transposes(graph, deps) && KahnState(deps, graph, inDegree, order, [], [])
    ensures IsKahnOrder(deps, order)
  {
    assert order + [] == order;
    forall v | 0 <= v < |deps|
      ensures v in order <==> Satisfied(deps, order, v)
    {
      ReadyMeansSatisfied(deps, graph, inDegree, order, [], v);
    }
  }

  /** The loop both `DetectCycle` and `TopoSort` run, returning the nodes in the order they are popped. */
  method Kahn(graph: Graph, inDegree0: seq<int>, ghost deps: Deps) returns (order: seq<nat>)
    requires IsCounted(graph, inDegree0) && Transposes(graph, deps)
    ensures IsKahnOrder(deps, order)
  {
    var inDegree := inDegree0;
    var queue := InitialQueue(graph, inDegree, deps);
    order := [];
    while queue != []
      invariant KahnState(deps, graph, inDegree, order, queue, [])
      decreases |graph| - |order|
    {
      OrderIsShort(deps, graph, inDegree, order, queue);
      Popped(deps, graph, inDegree, order, queue);
      var u := queue[0];
      queue := queue[1..];
      order := order + [u];
      inDegree, queue := RelaxAll(graph, inDegree, queue, u, order, deps);
    }
    FinalState(deps, graph, inDegree, order);
  }

  // ---------------------------------------------------------------------------------------------
  // DetectCycle and TopoSort
  // ---------------------------------------------------------------------------------------------

  /** A chain of tasks, each a resolved prerequisite of the next, that ends where it starts. */
  ghost predicate HasDependencyCycle(tasks: seq<PlannedTask>) {
    Cyclic(Prerequisites(tasks))
  }

  method DetectCycle(tasks: seq<PlannedTask>) returns (cyclic: bool)
    ensures cyclic <==> HasDependencyCycle(tasks)
  {
    var graph, inDegree := BuildGraph(tasks);
    var order := Kahn(graph, inDegree, Prerequisites(tasks));
    KahnOrderCompleteIffAcyclic(Prerequisites(tasks), order);
    DistinctCovers(order, |tasks|);
    cyclic := |order| != |tasks|;
  }

  function Pick(tasks: seq<PlannedTask>, order: seq<nat>): (r: seq<PlannedTask>)
    requires Below(order, |tasks|)
    ensures |r| == |order|
  {
    seq(|order|, k requires 0 <= k < |order| => tasks[order[k]])
  }

  /** `result` lists the tasks along the Kahn order of their resolved prerequisites. */
  ghost predicate IsTopoSorted(tasks: seq<PlannedTask>, result: seq<PlannedTask>) {
    exists order: seq<nat> :: IsKahnOrder(Prerequisites(tasks), order) && result == Pick(tasks, order)
  }

  method TopoSort(tasks: seq<PlannedTask>) returns (result: seq<PlannedTask>)
    ensures IsTopoSorted(tasks, result)
    ensures |result| == |tasks| <==> !HasDependencyCycle(tasks)
  {
    var graph, inDegree := BuildGraph(tasks);
    var order := Kahn(graph, inDegree, Prerequisites(tasks));
    result := [];
    for k := 0 to |order|
      invariant result == Pick(tasks, order)[..k]
    {
      // Each index is popped once, so no task is read after it was moved out.
      assert order[k] !in order[..k];
      result := result + [tasks[order[k]]];
    }
    KahnOrderCompleteIffAcyclic(Prerequisites(tasks), order);
  }

  /** The output is a function of the input: no other list meets the contract of `TopoSort`. */
  lemma TopoSortIsDetermined(tasks: seq<PlannedTask>, r1: seq<PlannedTask>, r2: seq<PlannedTask>)
    requires IsTopoSorted(tasks, r1) && IsTopoSorted(tasks, r2)
    ensures r1 == r2
  {
    var o1 :| IsKahnOrder(Prerequisites(tasks), o1) && r1 == Pick(tasks, o1);
    var o2 :| IsKahnOrder(Prerequisites(tasks), o2) && r2 == Pick(tasks, o2);
    KahnOrderUnique(Prerequisites(tasks), o1, o2);
  }

  lemma PickSplit(tasks: seq<PlannedTask>, order: seq<nat>, p: nat)
    requires p < |order| && Below(order, |tasks|)
    ensures Pick(tasks, order) == Pick(tasks, order[..p]) + [tasks[order[p]]] + Pick(tasks, order[p + 1..])
  {
  }

  lemma PickWithout(tasks: seq<PlannedTask>, left: seq<nat>, right: seq<nat>, n: nat)
    requires n <= |tasks| && Below(left, n) && Below(right, n) && Below(left + right, n)
    ensures Pick(tasks[..n], left + right) == Pick(tasks, left) + Pick(tasks, right)
  {
  }

  lemma DistinctWithout(order: seq<nat>, n: nat, p: nat)
    requires Distinct(order) && p < |order| && order[p] == n
    requires Below(order, n + 1)
    ensures Distinct(order[..p] + order[p + 1..])
    ensures Below(order[..p], n) && Below(order[p + 1..], n) && Below(order[..p] + order[p + 1..], n)
  {
  }

  lemma LargestPosition(order: seq<nat>, n: nat) returns (p: nat)
    requires Distinct(order) && |order| == n + 1 && Below(order, n + 1)
    ensures p < |order| && order[p] == n
  {
    DistinctCovers(order, n + 1);
    assert n in order;
    p :| p < |order| && order[p] == n;
  }

  lemma MiddleMoved(a: seq<PlannedTask>, x: PlannedTask, b: seq<PlannedTask>, tasks: seq<PlannedTask>)
    requires tasks != [] && x == tasks[|tasks| - 1] && multiset(a + b) == multiset(tasks[..|tasks| - 1])
    ensures multiset(a + [x] + b) == multiset(tasks)
  {
    assert tasks == tasks[..|tasks| - 1] + [x];
    assert multiset(a + [x] + b) == multiset(a + b) + multiset{x};
  }

  lemma {:induction false} PickIsPermutation(tasks: seq<PlannedTask>, order: seq<nat>)
    requires Distinct(order) && |order| == |tasks| && Below(order, |tasks|)
    ensures multiset(Pick(tasks, order)) == multiset(tasks)
    decreases |tasks|
  {
    if tasks != [] {
      var n := |tasks| - 1;
      var p := LargestPosition(order, n);
      var left, right := order[..p], order[p + 1..];
      DistinctWithout(order, n, p);
      PickSplit(tasks, order, p);
      PickWithout(tasks, left, right, n);
      PickIsPermutation(tasks[..n], left + right);
      MiddleMoved(Pick(tasks, left), tasks[n], Pick(tasks, right), tasks);
    }
  }

  /** On an acyclic plan `TopoSort` returns all tasks, no prerequisite after its dependant, and never
      goes back to a task of smaller depth. */
  lemma TopoSortOnAcyclicPlan(tasks: seq<PlannedTask>, order: seq<nat>)
    requires !HasDependencyCycle(tasks) && IsKahnOrder(Prerequisites(tasks), order)
    ensures multiset(Pick(tasks, order)) == multiset(tasks)
    ensures forall a, b :: 0 <= a < |order| && 0 <= b < |order| && order[a] in Prerequisites(tasks)[order[b]] ==> a < b
    ensures forall a, b, n: nat :: 0 <= a <= b < |order| && HasChain(Prerequisites(tasks), order[a], n) ==>
              HasChain(Prerequisites(tasks), order[b], n)
    ensures Roots(Prerequisites(tasks), |tasks|) <= order
  {
    var deps := Prerequisites(tasks);
    KahnOrderCompleteIffAcyclic(deps, order);
    PickIsPermutation(tasks, order);
    forall a, b | 0 <= a < |order| && 0 <= b < |order| && order[a] in deps[order[b]]
      ensures a < b
    {
      PrereqsFirst(deps, order, a, b);
    }
    forall a, b, n: nat | 0 <= a <= b < |order| && HasChain(deps, order[a], n)
      ensures HasChain(deps, order[b], n)
    {
      KahnOrderByDepth(deps, order, a, b, n);
    }
    KahnOrderStartsWithRoots(deps, order);
  }

  // ---------------------------------------------------------------------------------------------
  // Decompose
  // ---------------------------------------------------------------------------------------------

  datatype PlanError =
    | EmptyReply
    | UnparsableReply
    | NoTaskArray
    | TooManyTasks
    | NotAnObject(index: nat)
    | MissingTitle(index: nat)
    | MissingInstruction(index: nat)
    | CyclicPlan
    | Exception

  datatype TaskPlan = TaskPlan(tasks: seq<PlannedTask>, error: Option<PlanError>, success: bool)

  /** What came back from the provider; the JSON parser is not part of this model. */
  datatype Reply = ChatThrew | NoContent | Discarded | Parsed(json: Json)

  /** `static_cast<std::size_t>(max_tasks)`. */
  function TaskLimit(maxTasks: int): (limit: int)
    ensures maxTasks >= 0 ==> limit == maxTasks
    ensures maxTasks < 0 ==> limit - maxTasks == 0x1_0000_0000_0000_0000
  {
    if maxTasks >= 0 then maxTasks else maxTasks + 0x1_0000_0000_0000_0000
  }

  ghost predicate HasText(item: Json, key: string) {
    item.Obj? && key in item.fields && item.fields[key].Str? && item.fields[key].s != ""
  }

  ghost predicate HasTaskArray(json: Json) {
    json.Obj? && "tasks" in json.fields && json.fields["tasks"].Arr?
  }

  ghost function TaskItems(json: Json): seq<Json>
    requires HasTaskArray(json)
  {
    json.fields["tasks"].items
  }

  ghost predicate IsValidItem(item: Json) {
    HasText(item, "title") && HasText(item, "instruction")
  }

  ghost predicate IsValidResponse(json: Json, maxTasks: int) {
    && HasTaskArray(json)
    && |TaskItems(json)| <= TaskLimit(maxTasks)
    && forall i :: 0 <= i < |TaskItems(json)| ==> IsValidItem(TaskItems(json)[i])
  }

  /** The complaint names the first offending item. */
  ghost predicate Reports(json: Json, i: nat, error: PlanError) {
    && HasTaskArray(json) && i < |TaskItems(json)|
    && (forall k :: 0 <= k < i ==> IsValidItem(TaskItems(json)[k]))
    && var item := TaskItems(json)[i];
    && (error == NotAnObject(i) ==> !item.Obj?)
    && (error == MissingTitle(i) ==> item.Obj? && !HasText(item, "title"))
    && (error == MissingInstruction(i) ==> HasText(item, "title") && !HasText(item, "instruction"))
  }

  /** What is wrong with a reply. */
  ghost predicate Complains(json: Json, maxTasks: int, error: PlanError) {
    match error
    case NoTaskArray => !HasTaskArray(json)
    case TooManyTasks => HasTaskArray(json) && |TaskItems(json)| > TaskLimit(maxTasks)
    case NotAnObject(i) => Reports(json, i, error)
    case MissingTitle(i) => Reports(json, i, error)
    case MissingInstruction(i) => Reports(json, i, error)
    case _ => false
  }

  method ValidateResponse(json: Json, maxTasks: int) returns (error: Option<PlanError>)
    ensures error.None? <==> IsValidResponse(json, maxTasks)
    ensures error.Some? ==> Complains(json, maxTasks, error.value)
  {
    if !json.Obj? || "tasks" !in json.fields || !json.fields["tasks"].Arr? {
      return Some(NoTaskArray);
    }
    var items := json.fields["tasks"].items;
    if |items| > TaskLimit(maxTasks) {
      return Some(TooManyTasks);
    }
    for i := 0 to |items|
      invariant forall k :: 0 <= k < i ==> IsValidItem(items[k])
    {
      var item := items[i];
      if !item.Obj? {
        return Some(NotAnObject(i));
      }
      if "title" !in item.fields || !item.fields["title"].Str? || item.fields["title"].s == "" {
        return Some(MissingTitle(i));
      }
      if "instruction" !in item.fields || !item.fields["instruction"].Str? || item.fields["instruction"].s == "" {
        return Some(MissingInstruction(i));
      }
    }
    return None;
  }

  // ---------------------------------------------------------------------------------------------
  // Reading the entries of a reply
  // ---------------------------------------------------------------------------------------------

  /** `c` is the small letter or its capital. */
  ghost predicate IsLetter(c: char, small: char) {
    c == small || ('A' <= c <= 'Z' && c as int - 'A' as int == small as int - 'a' as int)
  }

  /** `text` is `word`, which is in small letters, in any case. */
  ghost predicate IsWord(text: string, word: string) {
    && |text| == |word|
    && forall k :: 0 <= k < |word| ==> IsLetter(text[k], word[k])
  }

  /** The three priorities: what is neither low nor one of the names of high is medium. */
  ghost predicate IsPriorityOf(priority: string, raw: string) {
    && priority in {"low", "medium", "high"}
    && (priority == "low" <==> IsWord(raw, "low"))
    && (priority == "high" <==>
          IsWord(raw, "high") || IsWord(raw, "urgent") || IsWord(raw, "critical") || IsWord(raw, "important"))
  }

  function ToLower(c: char): char {
    if 'A' <= c <= 'Z' then c - 'A' + 'a' else c
  }

  function Lower(text: string): (r: string)
    ensures |r| == |text|
  {
    seq(|text|, i requires 0 <= i < |text| => ToLower(text[i]))
  }

  lemma LowerIsWord(text: string, word: string)
    requires forall k :: 0 <= k < |word| ==> 'a' <= word[k] <= 'z'
    ensures Lower(text) == word <==> IsWord(text, word)
  {
    if |text| == |word| {
      assert forall k :: 0 <= k < |word| ==> (Lower(text)[k] == word[k] <==> IsLetter(text[k], word[k]));
    }
  }

  lemma NormalIsMedium(priority: string)
    requires IsPriorityOf(priority, "normal")
    ensures priority == "medium"
  {
    assert "normal"[0] == 'n' && "urgent"[0] == 'u';
  }

  method NormalizePriority(raw: string) returns (priority: string)
    ensures IsPriorityOf(priority, raw)
  {
    var lower := Lower(raw);
    priority :=
      if lower == "low" then "low"
      else if lower == "high" || lower == "urgent" || lower == "critical" || lower == "important" then "high"
      else "medium";
    LowerIsWord(raw, "low");
    LowerIsWord(raw, "high");
    LowerIsWord(raw, "urgent");
    LowerIsWord(raw, "critical");
    LowerIsWord(raw, "important");
  }

  /** The entries of `depends_on`; without such an array there are none. */
  ghost function DependsOn(item: Json): seq<Json>
    requires item.Obj?
  {
    if "depends_on" in item.fields && item.fields["depends_on"].Arr? then item.fields["depends_on"].items else []
  }

  /** `item.value(key, ..)` does not throw: what the key holds, if anything, is text. */
  ghost predicate IsTextIfAny(item: Json, key: string)
    requires item.Obj?
  {
    key in item.fields ==> item.fields[key].Str?
  }

  ghost predicate CanRead(item: Json)
    requires item.Obj?
  {
    IsTextIfAny(item, "priority") && IsTextIfAny(item, "estimated_effort")
  }

  /** `task` is what the entry `item` of a reply says. */
  ghost predicate Renders(task: PlannedTask, item: Json) {
    && IsValidItem(item) && CanRead(item)
    && task.title == item.fields["title"].s && task.instruction == item.fields["instruction"].s
    && (if "priority" in item.fields then IsPriorityOf(task.priority, item.fields["priority"].s)
        else task.priority == "medium")
    && task.estimatedEffort == (if "estimated_effort" in item.fields then item.fields["estimated_effort"].s else "")
    && ListsTexts(task.dependsOn, DependsOn(item))
  }

  lemma RendersOne(a: PlannedTask, b: PlannedTask, item: Json)
    requires Renders(a, item) && Renders(b, item)
    ensures a == b
  {
    TextsAreUnique(a.dependsOn, b.dependsOn, DependsOn(item));
  }

  /** The text entries of an array, in order. */
  method ReadTexts(items: seq<Json>) returns (texts: seq<string>)
    ensures ListsTexts(texts, items)
  {
    texts := [];
    for i := 0 to |items|
      invariant ListsTexts(texts, items[..i])
    {
      TextsStep(items, i);
      ghost var before := texts;
      if items[i].Str? {
        texts := texts + [items[i].s];
      }
      assert forall k :: 0 <= k < i ==> items[..i][..k] == items[..k];
    }
    assert items[..|items|] == items;
  }

  /** One entry of the reply as a task; `None` where reading it throws. */
  method ReadTask(item: Json) returns (task: Option<PlannedTask>)
    requires IsValidItem(item)
    ensures task.Some? <==> CanRead(item)
    ensures task.Some? ==> Renders(task.value, item)
  {
    var priority, effort, dependsOn := "normal", "", [];
    if "priority" in item.fields {
      if !item.fields["priority"].Str? {
        return None;
      }
      priority := item.fields["priority"].s;
    }
    if "estimated_effort" in item.fields {
      if !item.fields["estimated_effort"].Str? {
        return None;
      }
      effort := item.fields["estimated_effort"].s;
    }
    var normalized := NormalizePriority(priority);
    if priority == "normal" {
      NormalIsMedium(normalized);
    }
    if "depends_on" in item.fields && item.fields["depends_on"].Arr? {
      dependsOn := ReadTexts(item.fields["depends_on"].items);
    }
    return Some(PlannedTask(item.fields["title"].s, item.fields["instruction"].s, normalized, dependsOn, effort));
  }

  /** `tasks` are the entries `items[..|tasks|]`, read one by one. */
  ghost predicate ReadsAs(items: seq<Json>, tasks: seq<PlannedTask>) {
    && |tasks| <= |items|
    && forall i :: 0 <= i < |tasks| ==> Renders(tasks[i], items[i])
  }

  /** The reply is valid and all its entries can be read: the plan before sorting is `tasks`. */
  ghost predicate Readable(reply: Reply, maxTasks: int, tasks: seq<PlannedTask>) {
    && reply.Parsed? && IsValidResponse(reply.json, maxTasks)
    && |tasks| == |TaskItems(reply.json)| && ReadsAs(TaskItems(reply.json), tasks)
  }

  // ---------------------------------------------------------------------------------------------
  // What the reply itself says about the order
  // ---------------------------------------------------------------------------------------------

  /** No later entry has the title of entry `u`. */
  ghost predicate IsLastOfTitle(items: seq<Json>, u: nat)
    requires u < |items| && HasText(items[u], "title")
  {
    forall k :: u < k < |items| && HasText(items[k], "title") ==>
      items[k].fields["title"] != items[u].fields["title"]
  }

  /** Entry `i` names the title of entry `u` among its prerequisites, and no later entry has that title. */
  ghost predicate Names(items: seq<Json>, i: nat, u: nat) {
    && i < |items| && u < |items| && items[i].Obj? && HasText(items[u], "title")
    && items[u].fields["title"] in DependsOn(items[i])
    && IsLastOfTitle(items, u)
  }

  ghost function NamedBy(items: seq<Json>, i: nat): (r: set<nat>)
    ensures forall u :: u in r <==> Names(items, i, u)
  {
    set u | 0 <= u < |items| && Names(items, i, u)
  }

  /** The prerequisites of each entry, read off the reply. */
  ghost function NamedDeps(items: seq<Json>): (deps: Deps)
    ensures |deps| == |items|
  {
    seq(|items|, i requires 0 <= i < |items| => NamedBy(items, i))
  }

  /** What an entry names, its task is to wait for ... */
  lemma NamedIsListed(items: seq<Json>, tasks: seq<PlannedTask>, i: nat, u: nat)
    requires ReadsAs(items, tasks) && |tasks| == |items| && i < |items| && u < |items|
    ensures tasks[u].title in tasks[i].dependsOn <==> items[u].fields["title"] in DependsOn(items[i])
  {
    hide ListsTexts;
    assert Renders(tasks[i], items[i]) && Renders(tasks[u], items[u]);
    TextsAreListed(tasks[i].dependsOn, DependsOn(items[i]), tasks[u].title);
  }

  /** ... and of several entries with that title, the last is meant. */
  lemma LastIsMeant(items: seq<Json>, tasks: seq<PlannedTask>, u: nat)
    requires ReadsAs(items, tasks) && |tasks| == |items| && u < |items|
    ensures Resolve(tasks, tasks[u].title) == Some(u) <==>
            HasText(items[u], "title") && IsLastOfTitle(items, u)
  {
    hide ListsTexts;
    forall k | 0 <= k < |items|
      ensures HasText(items[k], "title") && items[k].fields["title"] == Str(tasks[k].title)
    {
      assert Renders(tasks[k], items[k]);
    }
  }

  lemma ResolvesIn(tasks: seq<PlannedTask>, titles: seq<string>, u: nat)
    requires u < |tasks|
    ensures u in ResolveAll(tasks, titles) <==>
            tasks[u].title in titles && Resolve(tasks, tasks[u].title) == Some(u)
  {
  }

  lemma NamesMeansResolves(items: seq<Json>, tasks: seq<PlannedTask>, i: nat, u: nat)
    requires ReadsAs(items, tasks) && |tasks| == |items| && i < |items| && u < |items|
    ensures Names(items, i, u) <==> u in ResolveAll(tasks, tasks[i].dependsOn)
  {
    hide ListsTexts, ResolveAll, Resolve;
    NamedIsListed(items, tasks, i, u);
    LastIsMeant(items, tasks, u);
    ResolvesIn(tasks, tasks[i].dependsOn, u);
    assert Renders(tasks[i], items[i]) && Renders(tasks[u], items[u]);
  }

  /** The prerequisites that titles resolve to are those that the reply names. */
  lemma NamedDepsAre(items: seq<Json>, tasks: seq<PlannedTask>)
    requires ReadsAs(items, tasks) && |tasks| == |items|
    ensures Prerequisites(tasks) == NamedDeps(items)
  {
    forall i | 0 <= i < |items|
      ensures Prerequisites(tasks)[i] == NamedDeps(items)[i]
    {
      forall u: nat
        ensures u in Prerequisites(tasks)[i] <==> u in NamedDeps(items)[i]
      {
        if u < |items| {
          NamesMeansResolves(items, tasks, i, u);
        }
      }
    }
  }

  /** The reply can be planned: it is valid, every entry can be read, and no chain of names leads back. */
  ghost predicate CanPlan(reply: Reply, maxTasks: int) {
    && reply.Parsed? && IsValidResponse(reply.json, maxTasks)
    && var items := TaskItems(reply.json);
    && (forall i :: 0 <= i < |items| ==> CanRead(items[i]))
    && !Cyclic(NamedDeps(items))
  }

  /** The plan holds, along `order`, what each entry says. */
  ghost predicate IsPlanAlong(items: seq<Json>, plan: seq<PlannedTask>, order: seq<nat>) {
    && IsKahnOrder(NamedDeps(items), order) && |plan| == |order| == |items|
    && forall k :: 0 <= k < |order| ==> Renders(plan[k], items[order[k]])
  }

  lemma SortedPlan(items: seq<Json>, tasks: seq<PlannedTask>, plan: seq<PlannedTask>) returns (order: seq<nat>)
    requires ReadsAs(items, tasks) && |tasks| == |items| && IsTopoSorted(tasks, plan) && |plan| == |tasks|
    ensures IsPlanAlong(items, plan, order)
  {
    NamedDepsAre(items, tasks);
    order :| IsKahnOrder(Prerequisites(tasks), order) && plan == Pick(tasks, order);
    forall k | 0 <= k < |order|
      ensures Renders(plan[k], items[order[k]])
    {
      assert plan[k] == tasks[order[k]];
    }
  }

  /** In a plan every entry has exactly one place, and stands behind those it names. */
  lemma PlanPutsNamedFirst(items: seq<Json>, plan: seq<PlannedTask>, order: seq<nat>, i: nat, u: nat)
    returns (a: nat, b: nat)
    requires IsPlanAlong(items, plan, order) && Names(items, i, u)
    ensures a < b < |plan| && order[a] == u && order[b] == i
    ensures Renders(plan[a], items[u]) && Renders(plan[b], items[i])
  {
    DistinctCovers(order, |items|);
    assert u in order && i in order;
    a :| a < |order| && order[a] == u;
    b :| b < |order| && order[b] == i;
    assert u in NamedDeps(items)[order[b]];
    PrereqsFirst(NamedDeps(items), order, a, b);
  }

  method Decompose(reply: Reply, maxTasks: int) returns (plan: TaskPlan)
    ensures plan.success <==> exists tasks :: Readable(reply, maxTasks, tasks) && !HasDependencyCycle(tasks)
    ensures plan.success ==> plan.error.None? && exists tasks ::
              Readable(reply, maxTasks, tasks) && IsTopoSorted(tasks, plan.tasks)
                  && |plan.tasks| == |tasks| <= TaskLimit(maxTasks)
    ensures plan.success <==> CanPlan(reply, maxTasks)
    ensures plan.success ==> exists order :: IsPlanAlong(TaskItems(reply.json), plan.tasks, order)
    ensures !plan.success ==> plan.error.Some?
    ensures plan.error == Some(EmptyReply) <==> reply.NoContent?
    ensures plan.error == Some(UnparsableReply) <==> reply.Discarded?
    ensures reply.Parsed? && !IsValidResponse(reply.json, maxTasks) ==>
              plan.error.Some? && Complains(reply.json, maxTasks, plan.error.value)
    ensures plan.error == Some(CyclicPlan) ==>
              plan.tasks == [] && exists tasks :: Readable(reply, maxTasks, tasks) && HasDependencyCycle(tasks)
    // An exception while reading leaves the tasks read so far in the failed plan.
    ensures plan.error == Some(Exception) ==>
              if reply.ChatThrew? then plan.tasks == []
              else reply.Parsed? && IsValidResponse(reply.json, maxTasks)
                   && ReadsAs(TaskItems(reply.json), plan.tasks) && |plan.tasks| < |TaskItems(reply.json)|
                   && !CanRead(TaskItems(reply.json)[|plan.tasks|])
    ensures !plan.success && plan.error != Some(Exception) ==> plan.tasks == []
  {
    match reply
    case ChatThrew => return TaskPlan([], Some(Exception), false);
    case NoContent => return TaskPlan([], Some(EmptyReply), false);
    case Discarded => return TaskPlan([], Some(UnparsableReply), false);
    case Parsed(json) =>
      var invalid := ValidateResponse(json, maxTasks);
      if invalid.Some? {
        return TaskPlan([], invalid, false);
      }
      var items := json.fields["tasks"].items;
      var tasks: seq<PlannedTask> := [];
      for i := 0 to |items|
        invariant |tasks| == i && ReadsAs(items, tasks)
      {
        var task := ReadTask(items[i]);
        if task.None? {
          assert forall all :: Readable(reply, maxTasks, all) ==> Renders(all[i], items[i]);
          return TaskPlan(tasks, Some(Exception), false);
        }
        tasks := tasks + [task.value];
      }
      assert Readable(reply, maxTasks, tasks);
      OneReading(reply, maxTasks, tasks);
      NamedDepsAre(items, tasks);
      var cyclic := DetectCycle(tasks);
      if cyclic {
        return TaskPlan([], Some(CyclicPlan), false);
      }
      var sorted := TopoSort(tasks);
      ghost var order := SortedPlan(items, tasks, sorted);
      return TaskPlan(sorted, None, true);
  }

  lemma OneReading(reply: Reply, maxTasks: int, tasks: seq<PlannedTask>)
    requires Readable(reply, maxTasks, tasks)
    ensures forall other :: Readable(reply, maxTasks, other) ==> other == tasks
  {
    forall other | Readable(reply, maxTasks, other)
      ensures other == tasks
    {
      forall i | 0 <= i < |tasks|
        ensures other[i] == tasks[i]
      {
        RendersOne(other[i], tasks[i], TaskItems(reply.json)[i]);
      }
    }
  }
}
