/** The topological check of a visual workflow plan: Kahn's algorithm over the edges
    that are not LOOP_BACK, with multiplicity. */
module PlanGraph {
  import opened Basics

  type NodeId = nat

  datatype Arc = Arc(source: NodeId, target: NodeId)

  // ---- What the topological loop decides -------------------------------------------

  predicate Linked(arcs: seq<Arc>, w: seq<NodeId>, i: nat)
    requires i + 1 < |w|
  {
    Arc(w[i], w[i + 1]) in arcs
  }

  predicate IsWalk(arcs: seq<Arc>, w: seq<NodeId>) {
    |w| >= 2 && forall i :: 0 <= i < |w| - 1 ==> Linked(arcs, w, i)
  }

  predicate IsCycle(arcs: seq<Arc>, w: seq<NodeId>) { IsWalk(arcs, w) && w[0] == w[|w| - 1] }

  ghost predicate Acyclic(arcs: seq<Arc>) { forall w :: !IsCycle(arcs, w) }

  function Targets(arcs: seq<Arc>, u: NodeId): seq<NodeId> {
    if arcs == [] then []
    else
      var front, last := arcs[..|arcs| - 1], arcs[|arcs| - 1];
      Targets(front, u) + if last.source == u then [last.target] else []
  }

  function CountOf(s: seq<NodeId>, v: NodeId): nat {
    if s == [] then 0 else CountOf(s[..|s| - 1], v) + if s[|s| - 1] == v then 1 else 0
  }

  /** Arcs into `v`, with multiplicity, whose source is not yet processed. */
  function InCount(arcs: seq<Arc>, v: NodeId, done: set<NodeId>): nat {
    if arcs == [] then 0
    else
      var last := arcs[|arcs| - 1];
      InCount(arcs[..|arcs| - 1], v, done) + if last.target == v && last.source !in done then 1 else 0
  }

  lemma CountOfSnoc(s: seq<NodeId>, x: NodeId, v: NodeId)
    ensures CountOf(s + [x], v) == CountOf(s, v) + if x == v then 1 else 0
  {
    assert (s + [x])[..|s + [x]| - 1] == s;
  }

  lemma {:induction false} ProcessingLowersInCount(arcs: seq<Arc>, v: NodeId, done: set<NodeId>, u: NodeId)
    requires u !in done
    ensures InCount(arcs, v, done) == InCount(arcs, v, done + {u}) + CountOf(Targets(arcs, u), v)
  {
    if arcs != [] {
      var front, last := arcs[..|arcs| - 1], arcs[|arcs| - 1];
      ProcessingLowersInCount(front, v, done, u);
      if last.source == u {
        CountOfSnoc(Targets(front, u), last.target, v);
      } else {
        assert Targets(arcs, u) == Targets(front, u);
      }
    }
  }

  /** No unprocessed arc is counted exactly when every arc into `v` comes from `done`. */
  lemma {:induction false} InCountZero(arcs: seq<Arc>, v: NodeId, done: set<NodeId>)
    ensures InCount(arcs, v, done) == 0 <==> forall a :: a in arcs && a.target == v ==> a.source in done
  {
    if arcs != [] {
      var front, last := arcs[..|arcs| - 1], arcs[|arcs| - 1];
      InCountZero(front, v, done);
      assert arcs == front + [last];
      assert forall a :: a in arcs <==> a in front || a == last;
    }
  }

  // ---- The order found is topological -------------------------------------------------

  /** Every arc into a listed node comes from earlier in the list. */
  ghost predicate Topological(arcs: seq<Arc>, order: seq<NodeId>) {
    forall j, a :: 0 <= j < |order| && a in arcs && a.target == order[j] ==> a.source in order[..j]
  }

  lemma {:induction false} WalkRanksRise(arcs: seq<Arc>, order: seq<NodeId>, w: seq<NodeId>, k: nat)
    requires NoDuplicates(order) && Topological(arcs, order) && IsWalk(arcs, w) && 1 <= k < |w|
    requires forall a :: a in arcs ==> a.target in order
    ensures exists i, j :: 0 <= i < j < |order| && order[i] == w[0] && order[j] == w[k]
  {
    assert Linked(arcs, w, k - 1);
    var a := Arc(w[k - 1], w[k]);
    var j :| 0 <= j < |order| && order[j] == w[k];
    assert w[k - 1] in order[..j];
    var m :| 0 <= m < j && order[m] == w[k - 1];
    if k > 1 {
      WalkRanksRise(arcs, order, w, k - 1);
      var i, m' :| 0 <= i < m' < |order| && order[i] == w[0] && order[m'] == w[k - 1];
      assert m' == m;
    }
  }

  lemma TopologicalOrderExcludesCycles(arcs: seq<Arc>, order: seq<NodeId>)
    requires NoDuplicates(order) && Topological(arcs, order)
    requires forall a :: a in arcs ==> a.target in order
    ensures Acyclic(arcs)
  {
    forall w ensures !IsCycle(arcs, w) {
      if IsCycle(arcs, w) {
        WalkRanksRise(arcs, order, w, |w| - 1);
      }
    }
  }

  // ---- Nodes left behind contain a cycle ----------------------------------------------

  ghost predicate HasPredecessor(arcs: seq<Arc>, rest: set<NodeId>, v: NodeId) {
    exists a :: a in arcs && a.target == v && a.source in rest
  }

  // Instantiated by name only: following predecessors by itself would never stop.
  ghost predicate EachHasPredecessor(arcs: seq<Arc>, rest: set<NodeId>) {
    forall v {:trigger HasPredecessor(arcs, rest, v)} :: v in rest ==> HasPredecessor(arcs, rest, v)
  }

  lemma {:induction false} WalkBackwards(arcs: seq<Arc>, rest: set<NodeId>, n: nat) returns (w: seq<NodeId>)
    requires rest != {} && EachHasPredecessor(arcs, rest)
    ensures |w| == n + 1 && Elements(w) <= rest
    ensures forall i :: 0 <= i < |w| - 1 ==> Linked(arcs, w, i)
  {
    if n == 0 {
      var v :| v in rest;
      w := [v];
    } else {
      var tail := WalkBackwards(arcs, rest, n - 1);
      assert tail[0] in Elements(tail);
      assert HasPredecessor(arcs, rest, tail[0]);
      var a :| a in arcs && a.target == tail[0] && a.source in rest;
      w := [a.source] + tail;
      assert Elements(w) == {a.source} + Elements(tail);
      forall i | 0 <= i < |w| - 1 ensures Linked(arcs, w, i) {
        if i > 0 { assert Linked(arcs, tail, i - 1); }
      }
    }
  }

  lemma PredecessorsMakeCycle(arcs: seq<Arc>, rest: set<NodeId>)
    requires rest != {} && EachHasPredecessor(arcs, rest)
    ensures !Acyclic(arcs)
  {
    var w := WalkBackwards(arcs, rest, |rest|);
    if NoDuplicates(w) {
      NoDuplicatesBound(w, rest);
      assert false;
    }
    var i, j :| 0 <= i < j < |w| && w[i] == w[j];
    var cycle := w[i..j + 1];
    forall k | 0 <= k < |cycle| - 1 ensures Linked(arcs, cycle, k) { assert Linked(arcs, w, i + k); }
    assert IsCycle(arcs, cycle);
  }

  // ---- The loop ---------------------------------------------------------------------------

  /** Lower the in-degree of every target, appending those that reach zero. */
  method Relax(ghost ids: set<NodeId>, targets: seq<NodeId>, indegree0: map<NodeId, int>, ready0: seq<NodeId>)
    returns (indegree: map<NodeId, int>, ready: seq<NodeId>)
    requires indegree0.Keys == ids && forall v :: v in targets ==> v in ids
    requires forall v :: v in ids ==> indegree0[v] >= CountOf(targets, v)
    requires NoDuplicates(ready0) && forall v :: v in ids ==> (v in ready0 <==> indegree0[v] == 0)
    ensures indegree.Keys == ids && forall v :: v in ids ==> indegree[v] == indegree0[v] - CountOf(targets, v)
    ensures ready0 <= ready && NoDuplicates(ready) && Elements(ready) <= Elements(ready0) + ids
    ensures forall v :: v in ids ==> (v in ready <==> indegree[v] == 0)
  {
    indegree, ready := indegree0, ready0;
    var i := 0;
    while i < |targets|
      invariant 0 <= i <= |targets| && indegree.Keys == ids
      invariant forall v :: v in ids ==> indegree[v] == indegree0[v] - CountOf(targets[..i], v)
      invariant ready0 <= ready && NoDuplicates(ready) && Elements(ready) <= Elements(ready0) + ids
      invariant forall v :: v in ids ==> (v in ready <==> indegree[v] == 0)
    {
      var t := targets[i];
      assert targets[..i + 1] == targets[..i] + [t];
      forall v ensures CountOf(targets[..i + 1], v) == CountOf(targets[..i], v) + if t == v then 1 else 0 {
        CountOfSnoc(targets[..i], t, v);
      }
      CountOfPrefix(targets, i + 1, t);
      indegree := indegree[t := indegree[t] - 1];
      if indegree[t] == 0 { ready := ready + [t]; }
      i := i + 1;
    }
    assert targets[..i] == targets;
  }

  lemma {:induction false} CountOfPrefix(s: seq<NodeId>, n: nat, v: NodeId)
    requires n <= |s|
    ensures CountOf(s[..n], v) <= CountOf(s, v)
    decreases |s|
  {
    if n < |s| {
      CountOfPrefix(s[..|s| - 1], n, v);
      assert s[..|s| - 1][..n] == s[..n];
    } else {
      assert s[..n] == s;
    }
  }

  /** The adjacency of a node without outgoing arcs is the zero value. */
  function Adjacent(adjacency: map<NodeId, seq<NodeId>>, u: NodeId): seq<NodeId> {
    if u in adjacency then adjacency[u] else []
  }

  ghost predicate LoopInv(ids: set<NodeId>, arcs: seq<Arc>, indegree: map<NodeId, int>, ready: seq<NodeId>, head: nat) {
    && head <= |ready| && NoDuplicates(ready) && Elements(ready) <= ids && indegree.Keys == ids
    && (forall v :: v in ids ==> indegree[v] == InCount(arcs, v, Elements(ready[..head])))
    && (forall v :: v in ids ==> (v in ready <==> indegree[v] == 0))
    && Topological(arcs, ready)
  }

  lemma HeadNotProcessed(ready: seq<NodeId>, head: nat)
    requires head < |ready| && NoDuplicates(ready)
    ensures ready[head] !in Elements(ready[..head])
    ensures Elements(ready[..head + 1]) == Elements(ready[..head]) + {ready[head]}
  {
    assert ready[..head + 1] == ready[..head] + [ready[head]];
  }

  /** Nodes appended while processing the head have all their arcs from processed nodes. */
  lemma TopologicalExtends(ids: set<NodeId>, arcs: seq<Arc>, ready: seq<NodeId>, more: seq<NodeId>, head: nat)
    requires Topological(arcs, ready) && ready <= more && head < |ready| && Elements(more) <= ids
    requires forall v :: v in ids && v in more ==> InCount(arcs, v, Elements(more[..head + 1])) == 0
    ensures Topological(arcs, more)
  {
    forall j, a | 0 <= j < |more| && a in arcs && a.target == more[j] ensures a.source in more[..j] {
      if j < |ready| {
        assert more[..j] == ready[..j] && more[j] == ready[j];
      } else {
        assert more[j] in Elements(more);
        InCountZero(arcs, more[j], Elements(more[..head + 1]));
        assert a.source in more[..head + 1];
        assert more[..j][..head + 1] == more[..head + 1];
      }
    }
  }

  /** Process the node at the head of the ready list. */
  method ProcessHead(ids: set<NodeId>, ghost arcs: seq<Arc>, adjacency: map<NodeId, seq<NodeId>>,
                     indegree0: map<NodeId, int>, ready0: seq<NodeId>, head: nat)
    returns (indegree: map<NodeId, int>, ready: seq<NodeId>)
    requires LoopInv(ids, arcs, indegree0, ready0, head) && head < |ready0|
    requires forall u :: u in ids ==> Adjacent(adjacency, u) == Targets(arcs, u)
    requires forall u, v :: u in ids && v in Targets(arcs, u) ==> v in ids
    ensures LoopInv(ids, arcs, indegree, ready, head + 1) && ready0 <= ready
  {
    var u := ready0[head];
    assert u in Elements(ready0);
    HeadNotProcessed(ready0, head);
    forall v ensures InCount(arcs, v, Elements(ready0[..head])) ==
                     InCount(arcs, v, Elements(ready0[..head + 1])) + CountOf(Adjacent(adjacency, u), v) {
      ProcessingLowersInCount(arcs, v, Elements(ready0[..head]), u);
    }
    indegree, ready := Relax(ids, Adjacent(adjacency, u), indegree0, ready0);
    assert ready[..head + 1] == ready0[..head + 1];
    TopologicalExtends(ids, arcs, ready0, ready, head);
  }

  /** `visited == len(nodes)` after the loop, for any order of the initially ready nodes. */
  method TopologicalCheck(ids: set<NodeId>, ghost arcs: seq<Arc>, adjacency: map<NodeId, seq<NodeId>>,
                          indegree0: map<NodeId, int>)
    returns (dag: bool)
    requires forall a :: a in arcs ==> a.source in ids && a.target in ids
    requires forall u :: u in ids ==> Adjacent(adjacency, u) == Targets(arcs, u)
    requires indegree0.Keys == ids && forall v :: v in ids ==> indegree0[v] == InCount(arcs, v, {})
    ensures dag <==> Acyclic(arcs)
  {
    var ready := InitiallyReady(ids, indegree0);
    assert Elements(ready[..0]) == {};
    InitiallyTopological(ids, arcs, indegree0, ready);
    TargetsAreNodes(ids, arcs);
    var indegree, visited := indegree0, 0;
    while visited < |ready|
      invariant LoopInv(ids, arcs, indegree, ready, visited)
      decreases |ids| - visited
    {
      NoDuplicatesBound(ready, ids);
      indegree, ready := ProcessHead(ids, arcs, adjacency, indegree, ready, visited);
      visited := visited + 1;
    }
    assert ready[..visited] == ready;
    NoDuplicatesBound(ready, ids);
    dag := visited == |ids|;
    if dag {
      TopologicalOrderExcludesCycles(arcs, ready);
    } else {
      LeftoverHasCycle(ids, arcs, indegree, ready);
    }
  }

  method InitiallyReady(ids: set<NodeId>, indegree: map<NodeId, int>) returns (ready: seq<NodeId>)
    requires indegree.Keys == ids
    ensures NoDuplicates(ready) && Elements(ready) <= ids
    ensures forall v :: v in ids ==> (v in ready <==> indegree[v] == 0)
  {
    ready := [];
    var todo := ids;
    while todo != {}
      invariant todo <= ids && NoDuplicates(ready) && Elements(ready) <= ids - todo
      invariant forall v :: v in ids - todo ==> (v in ready <==> indegree[v] == 0)
      invariant forall v :: v in ready ==> v in ids - todo
    {
      var v :| v in todo;
      todo := todo - {v};
      if indegree[v] == 0 { ready := ready + [v]; }
    }
  }

  lemma InitiallyTopological(ids: set<NodeId>, arcs: seq<Arc>, indegree: map<NodeId, int>, ready: seq<NodeId>)
    requires indegree.Keys == ids && Elements(ready) <= ids
    requires forall v :: v in ids ==> indegree[v] == InCount(arcs, v, {}) && (v in ready <==> indegree[v] == 0)
    ensures Topological(arcs, ready)
  {
    forall j | 0 <= j < |ready| ensures forall a :: a in arcs ==> a.target != ready[j] {
      assert ready[j] in Elements(ready);
      InCountZero(arcs, ready[j], {});
    }
  }

  lemma {:induction false} TargetsAreNodes(ids: set<NodeId>, arcs: seq<Arc>)
    requires forall a :: a in arcs ==> a.source in ids && a.target in ids
    ensures forall u, v :: v in Targets(arcs, u) ==> v in ids
  {
    if arcs != [] {
      var front := arcs[..|arcs| - 1];
      assert forall a :: a in front ==> a in arcs;
      assert arcs[|arcs| - 1] in arcs;
      TargetsAreNodes(ids, front);
    }
  }

  lemma LeftoverHasCycle(ids: set<NodeId>, arcs: seq<Arc>, indegree: map<NodeId, int>, ready: seq<NodeId>)
    requires LoopInv(ids, arcs, indegree, ready, |ready|) && |ready| != |ids|
    requires forall a :: a in arcs ==> a.source in ids
    ensures !Acyclic(arcs)
  {
    assert ready[..|ready|] == ready;
    var rest := ids - Elements(ready);
    DistinctLength(ready);
    assert ids == Elements(ready) + rest;
    forall v {:trigger HasPredecessor(arcs, rest, v)} | v in rest ensures HasPredecessor(arcs, rest, v) {
      InCountZero(arcs, v, Elements(ready));
      var a :| a in arcs && a.target == v && a.source !in Elements(ready);
    }
    PredecessorsMakeCycle(arcs, rest);
  }

  lemma {:induction false} DistinctLength(s: seq<NodeId>)
    requires NoDuplicates(s)
    ensures |Elements(s)| == |s|
  {
    if s != [] {
      var front, last := s[..|s| - 1], s[|s| - 1];
      DistinctLength(front);
      assert Elements(s) == Elements(front) + {last} && last !in Elements(front);
    }
  }
}
