/** `ValidatePlan`: the node and edge rules of a visual workflow plan, checked in one pass
    over each list, and then the topological check of `PlanGraph`. */
module PlanRules {
  import opened Basics
  import opened PlanGraph

  const MAX_NODES := 64
  const MAX_EDGES := 128
  const MAX_PLAN_ANNOTATIONS := 64
  const MAX_NODE_ANNOTATIONS := 32

  datatype NodeKind = Activity | Branch | Loop | OtherNode

  // The empty string stands for an operation or type that is not set.
  datatype Node = Node(id: NodeId, kind: NodeKind, operation: string, requestType: string, responseType: string,
                       annotations: nat)

  datatype EdgeKind = Conditional | Data | LoopBack | OtherEdge

  datatype Edge = Edge(source: NodeId, target: NodeId, kind: EdgeKind, edgeLabel: string)

  // A list may hold nil elements.
  datatype Plan = Plan(nodes: seq<Option<Node>>, edges: seq<Option<Edge>>, annotations: nat)

  predicate AllPresent<T>(s: seq<Option<T>>) { forall i :: 0 <= i < |s| ==> s[i].Some? }

  function Values<T>(s: seq<Option<T>>): (r: seq<T>)
    requires AllPresent(s)
    ensures |r| == |s| && forall i :: 0 <= i < |s| ==> Some(r[i]) == s[i]
  {
    seq(|s|, i requires 0 <= i < |s| => s[i].value)
  }

  // ---- What a valid plan is ----------------------------------------------------------

  predicate Callable(n: Node) { n.kind.Activity? || n.kind.Branch? }

  predicate NodeFits(n: Node) {
    Callable(n) ==> n.operation != "" && n.requestType != "" && n.responseType != ""
  }

  ghost predicate NodesValid(nodes: seq<Node>) {
    && (forall i :: 0 <= i < |nodes| ==> NodeFits(nodes[i]))
    && forall i, j :: 0 <= i < j < |nodes| ==> nodes[i].id != nodes[j].id
  }

  predicate EdgeFits(byId: map<NodeId, Node>, e: Edge) {
    && e.source in byId && e.target in byId
    && match e.kind
       case Conditional => e.edgeLabel != "" && byId[e.source].kind.Branch?
       case Data => Callable(byId[e.source]) && Callable(byId[e.target])
                    && byId[e.source].responseType == byId[e.target].requestType != ""
       case LoopBack => byId[e.source].kind.Loop? || byId[e.target].kind.Loop?
       case OtherEdge => true
  }

  /** Two different positions of the edge list may hold these edges. */
  predicate Compatible(a: Edge, b: Edge) {
    && a != b
    && !(a.kind.Conditional? && b.kind.Conditional? && a.source == b.source && a.edgeLabel == b.edgeLabel)
    && !(a.kind.Data? && b.kind.Data? && a.target == b.target)
  }

  ghost predicate EdgesValid(byId: map<NodeId, Node>, edges: seq<Edge>) {
    && (forall i :: 0 <= i < |edges| ==> EdgeFits(byId, edges[i]))
    && forall i, j :: 0 <= i < j < |edges| ==> Compatible(edges[i], edges[j])
  }

  function Forward(edges: seq<Edge>): seq<Arc> {
    if edges == [] then []
    else
      var front, last := edges[..|edges| - 1], edges[|edges| - 1];
      Forward(front) + if last.kind.LoopBack? then [] else [Arc(last.source, last.target)]
  }

  ghost predicate Indexes(byId: map<NodeId, Node>, nodes: seq<Node>) {
    && (forall i :: 0 <= i < |nodes| ==> nodes[i].id in byId && byId[nodes[i].id] == nodes[i])
    && forall k :: k in byId ==> byId[k] in nodes && byId[k].id == k
  }

  predicate WithinLimits(plan: Plan) {
    && |plan.nodes| <= MAX_NODES && |plan.edges| <= MAX_EDGES && plan.annotations <= MAX_PLAN_ANNOTATIONS
    && forall n :: n in plan.nodes && n.Some? ==> n.value.annotations <= MAX_NODE_ANNOTATIONS
  }

  ghost predicate ValidPlan(plan: Plan) {
    && WithinLimits(plan) && AllPresent(plan.nodes) && AllPresent(plan.edges)
    && NodesValid(Values(plan.nodes))
    && (exists byId :: Indexes(byId, Values(plan.nodes)) && EdgesValid(byId, Values(plan.edges)))
    && Acyclic(Forward(Values(plan.edges)))
  }

  lemma IndexUnique(a: map<NodeId, Node>, b: map<NodeId, Node>, nodes: seq<Node>)
    requires Indexes(a, nodes) && Indexes(b, nodes)
    ensures a == b
  {
    forall k | k in a ensures k in b && b[k] == a[k] {
      var i :| 0 <= i < |nodes| && nodes[i] == a[k];
    }
    forall k | k in b ensures k in a {
      var i :| 0 <= i < |nodes| && nodes[i] == b[k];
    }
  }

  // ---- The passes ----------------------------------------------------------------------

  method CheckNodes(nodes: seq<Node>) returns (ok: bool, byId: map<NodeId, Node>)
    ensures ok <==> NodesValid(nodes)
    ensures ok ==> Indexes(byId, nodes)
  {
    byId := map[];
    for i := 0 to |nodes|
      invariant NodesValid(nodes[..i]) && Indexes(byId, nodes[..i])
    {
      var n := nodes[i];
      if n.id in byId {
        var j :| 0 <= j < i && nodes[j] == byId[n.id];
        return false, byId;
      }
      byId := byId[n.id := n];
      if Callable(n) && (n.operation == "" || n.requestType == "" || n.responseType == "") {
        assert !NodeFits(nodes[i]);
        return false, byId;
      }
      assert nodes[..i + 1] == nodes[..i] + [n];
    }
    assert nodes[..|nodes|] == nodes;
    ok := true;
  }

  // The tables in which the edge pass looks for a clash.
  datatype Seen = Seen(edges: set<Edge>, labels: set<(NodeId, string)>, dataTargets: set<NodeId>)

  function LabelsOf(done: seq<Edge>): set<(NodeId, string)> {
    set e | e in done && e.kind.Conditional? :: (e.source, e.edgeLabel)
  }

  function DataTargetsOf(done: seq<Edge>): set<NodeId> {
    set e | e in done && e.kind.Data? :: e.target
  }

  function SeenIn(done: seq<Edge>): Seen { Seen(Elements(done), LabelsOf(done), DataTargetsOf(done)) }

  /** A new edge clashes with no earlier one exactly when the three tables do not hold it. */
  lemma TablesDecide(done: seq<Edge>, e: Edge)
    ensures (forall i :: 0 <= i < |done| ==> Compatible(done[i], e)) <==>
            && e !in Elements(done) && (e.kind.Conditional? ==> (e.source, e.edgeLabel) !in LabelsOf(done))
            && (e.kind.Data? ==> e.target !in DataTargetsOf(done))
  {
    if forall i :: 0 <= i < |done| ==> Compatible(done[i], e) {
      assert forall d :: d in done ==> Compatible(d, e);
    }
  }

  lemma SeenSnoc(done: seq<Edge>, e: Edge)
    ensures Elements(done + [e]) == Elements(done) + {e}
    ensures LabelsOf(done + [e]) == if e.kind.Conditional? then LabelsOf(done) + {(e.source, e.edgeLabel)} else LabelsOf(done)
    ensures DataTargetsOf(done + [e]) == if e.kind.Data? then DataTargetsOf(done) + {e.target} else DataTargetsOf(done)
  {
    assert forall d :: d in done + [e] <==> d in done || d == e;
  }

  ghost predicate InTable(ids: set<NodeId>, arcs: seq<Arc>, indegree: map<NodeId, int>) {
    indegree.Keys == ids && forall v :: v in ids ==> indegree[v] == InCount(arcs, v, {})
  }

  ghost predicate OutTable(ids: set<NodeId>, arcs: seq<Arc>, adjacency: map<NodeId, seq<NodeId>>) {
    forall u :: u in ids ==> Adjacent(adjacency, u) == Targets(arcs, u)
  }

  /** The adjacency and in-degree tables of the topological check describe `arcs`. */
  ghost predicate Tables(ids: set<NodeId>, arcs: seq<Arc>, adjacency: map<NodeId, seq<NodeId>>, indegree: map<NodeId, int>) {
    InTable(ids, arcs, indegree) && OutTable(ids, arcs, adjacency)
  }

  lemma ForwardSnoc(done: seq<Edge>, e: Edge)
    ensures Forward(done + [e]) == if e.kind.LoopBack? then Forward(done) else Forward(done) + [Arc(e.source, e.target)]
  {
    assert (done + [e])[..|done + [e]| - 1] == done;
  }

  lemma ArcCounted(arcs: seq<Arc>, arc: Arc, v: NodeId)
    ensures InCount(arcs + [arc], v, {}) == InCount(arcs, v, {}) + if arc.target == v then 1 else 0
  {
    assert (arcs + [arc])[..|arcs + [arc]| - 1] == arcs;
  }

  lemma ArcListed(arcs: seq<Arc>, arc: Arc, v: NodeId)
    ensures Targets(arcs + [arc], v) == if arc.source == v then Targets(arcs, v) + [arc.target] else Targets(arcs, v)
  {
    assert (arcs + [arc])[..|arcs + [arc]| - 1] == arcs;
  }

  lemma InTableSnoc(ids: set<NodeId>, arcs: seq<Arc>, indegree: map<NodeId, int>, arc: Arc)
    requires InTable(ids, arcs, indegree) && arc.target in ids
    ensures InTable(ids, arcs + [arc], indegree[arc.target := indegree[arc.target] + 1])
  {
    forall v | v in ids
      ensures indegree[arc.target := indegree[arc.target] + 1][v] == InCount(arcs + [arc], v, {})
    {
      ArcCounted(arcs, arc, v);
    }
  }

  lemma OutTableSnoc(ids: set<NodeId>, arcs: seq<Arc>, adjacency: map<NodeId, seq<NodeId>>, arc: Arc)
    requires OutTable(ids, arcs, adjacency) && arc.source in ids
    ensures OutTable(ids, arcs + [arc], adjacency[arc.source := Adjacent(adjacency, arc.source) + [arc.target]])
  {
    forall v | v in ids
      ensures Adjacent(adjacency[arc.source := Adjacent(adjacency, arc.source) + [arc.target]], v) == Targets(arcs + [arc], v)
    {
      ArcListed(arcs, arc, v);
    }
  }

  /** The rules of one edge's kind, given that its ends exist. */
  method AdmitKind(byId: map<NodeId, Node>, e: Edge, labels0: set<(NodeId, string)>, dataTargets0: set<NodeId>)
    returns (ok: bool, labels: set<(NodeId, string)>, dataTargets: set<NodeId>)
    requires e.source in byId && e.target in byId
    ensures ok <==> EdgeFits(byId, e) && (e.kind.Conditional? ==> (e.source, e.edgeLabel) !in labels0)
                    && (e.kind.Data? ==> e.target !in dataTargets0)
    ensures ok ==> labels == if e.kind.Conditional? then labels0 + {(e.source, e.edgeLabel)} else labels0
    ensures ok ==> dataTargets == if e.kind.Data? then dataTargets0 + {e.target} else dataTargets0
  {
    ok, labels, dataTargets := true, labels0, dataTargets0;
    if e.kind.Conditional? {
      if e.edgeLabel == "" || !byId[e.source].kind.Branch? || (e.source, e.edgeLabel) in labels {
        return false, labels, dataTargets;
      }
      labels := labels + {(e.source, e.edgeLabel)};
    }
    if e.kind.Data? {
      var response, request := byId[e.source].responseType, byId[e.target].requestType;
      if !Callable(byId[e.source]) || !Callable(byId[e.target]) || response == "" || request == ""
         || response != request || e.target in dataTargets {
        return false, labels, dataTargets;
      }
      dataTargets := dataTargets + {e.target};
    }
    if e.kind.LoopBack? && !byId[e.source].kind.Loop? && !byId[e.target].kind.Loop? { ok := false; }
  }

  method AdmitEdge(byId: map<NodeId, Node>, ghost done: seq<Edge>, s: Seen, e: Edge) returns (ok: bool, t: Seen)
    requires EdgesValid(byId, done) && s == SeenIn(done)
    ensures ok <==> EdgesValid(byId, done + [e])
    ensures ok ==> t == SeenIn(done + [e]) && EdgeFits(byId, e)
  {
    TablesDecide(done, e);
    EdgesValidSnoc(byId, done, e);
    if e in s.edges || e.source !in byId || e.target !in byId { return false, s; }
    var fits, labels, dataTargets := AdmitKind(byId, e, s.labels, s.dataTargets);
    if !fits { return false, s; }
    SeenSnoc(done, e);
    return true, Seen(s.edges + {e}, labels, dataTargets);
  }

  /** A LOOP_BACK edge takes no part in the topological check. */
  method CountEdge(ids: set<NodeId>, ghost done: seq<Edge>, e: Edge, adjacency0: map<NodeId, seq<NodeId>>,
                   indegree0: map<NodeId, int>)
    returns (adjacency: map<NodeId, seq<NodeId>>, indegree: map<NodeId, int>)
    requires Tables(ids, Forward(done), adjacency0, indegree0) && e.source in ids && e.target in ids
    ensures Tables(ids, Forward(done + [e]), adjacency, indegree)
  {
    ForwardSnoc(done, e);
    adjacency, indegree := adjacency0, indegree0;
    if !e.kind.LoopBack? {
      InTableSnoc(ids, Forward(done), indegree, Arc(e.source, e.target));
      OutTableSnoc(ids, Forward(done), adjacency, Arc(e.source, e.target));
      adjacency := adjacency[e.source := Adjacent(adjacency, e.source) + [e.target]];
      indegree := indegree[e.target := indegree[e.target] + 1];
    }
  }

  lemma EdgesValidSnoc(byId: map<NodeId, Node>, done: seq<Edge>, e: Edge)
    requires EdgesValid(byId, done)
    ensures EdgesValid(byId, done + [e]) <==>
            EdgeFits(byId, e) && forall j :: 0 <= j < |done| ==> Compatible(done[j], e)
  {
    var longer := done + [e];
    assert longer[|done|] == e && forall j :: 0 <= j < |done| ==> longer[j] == done[j];
    if EdgesValid(byId, longer) {
      assert EdgeFits(byId, longer[|done|]);
      forall j | 0 <= j < |done| ensures Compatible(done[j], e) { assert Compatible(longer[j], longer[|done|]); }
    }
  }

  lemma EdgesValidPrefix(byId: map<NodeId, Node>, edges: seq<Edge>, done: seq<Edge>)
    requires done <= edges
    ensures EdgesValid(byId, edges) ==> EdgesValid(byId, done)
  {
  }

  method CheckEdges(byId: map<NodeId, Node>, edges: seq<Edge>)
    returns (ok: bool, adjacency: map<NodeId, seq<NodeId>>, indegree: map<NodeId, int>)
    ensures ok <==> EdgesValid(byId, edges)
    ensures ok ==> Tables(byId.Keys, Forward(edges), adjacency, indegree)
  {
    var seen := Seen({}, {}, {});
    adjacency, indegree := map[], map v | v in byId :: 0;
    ghost var done := [];
    for i := 0 to |edges|
      invariant done == edges[..i]
      invariant EdgesValid(byId, done) && seen == SeenIn(done)
      invariant Tables(byId.Keys, Forward(done), adjacency, indegree)
    {
      TakeSnoc(edges, i);
      ok, seen := AdmitEdge(byId, done, seen, edges[i]);
      EdgesValidPrefix(byId, edges, done + [edges[i]]);
      if !ok { return false, adjacency, indegree; }
      adjacency, indegree := CountEdge(byId.Keys, done, edges[i], adjacency, indegree);
      done := done + [edges[i]];
    }
    assert done == edges;
    ok := true;
  }

  lemma {:induction false} ForwardStaysInside(byId: map<NodeId, Node>, edges: seq<Edge>)
    requires forall i :: 0 <= i < |edges| ==> EdgeFits(byId, edges[i])
    ensures forall a :: a in Forward(edges) ==> a.source in byId && a.target in byId
  {
    if edges != [] {
      var front, last := edges[..|edges| - 1], edges[|edges| - 1];
      ForwardStaysInside(byId, front);
      assert EdgeFits(byId, edges[|edges| - 1]);
      assert forall a :: a in Forward(edges) ==> a in Forward(front) || a == Arc(last.source, last.target);
    }
  }

  method ValidatePlan(plan: Plan) returns (valid: bool)
    ensures valid <==> ValidPlan(plan)
  {
    if !WithinLimits(plan) || !AllPresent(plan.nodes) || !AllPresent(plan.edges) { return false; }
    valid := CheckPlan(Values(plan.nodes), Values(plan.edges));
  }

  method CheckPlan(nodes: seq<Node>, edges: seq<Edge>) returns (valid: bool)
    ensures valid <==>
            && NodesValid(nodes) && (exists byId :: Indexes(byId, nodes) && EdgesValid(byId, edges))
            && Acyclic(Forward(edges))
  {
    var ok, byId := CheckNodes(nodes);
    if !ok { return false; }
    forall other | Indexes(other, nodes) ensures other == byId { IndexUnique(other, byId, nodes); }
    var fits, adjacency, indegree := CheckEdges(byId, edges);
    if !fits { return false; }
    ForwardStaysInside(byId, edges);
    valid := TopologicalCheck(byId.Keys, Forward(edges), adjacency, indegree);
  }
}
