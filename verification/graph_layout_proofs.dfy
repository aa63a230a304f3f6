/**
 * Properties of the layout adapter, and of the derivation engine and the
 * adapter composed.
 */
module GraphLayoutProofs {
  import opened Wrappers
  import opened BjjTypes
  import opened GraphLayout
  import KnowledgeGraph
  import KnowledgeGraphProofs

  /** The `direction` argument changes neither the request nor the result. */
  lemma LayoutIgnoresDirection(nodes: seq<Node>, edges: seq<Edge>, d1: Direction, d2: Direction,
                               oracle: LayoutRequest -> OracleResponse)
    ensures Layout(nodes, edges, d1, oracle) == Layout(nodes, edges, d2, oracle)
  {
  }

  /** Placing a node changes nothing the request is built from. */
  lemma PlacedNodeHasSameBox(n: Node, children: seq<PlacedBox>)
    ensures BoxOf(PlaceNode(n, children)) == BoxOf(n)
  {
  }

  /** A laid-out graph asks the oracle for exactly the layout it was built from. */
  lemma RelayoutSendsSameRequest(nodes: seq<Node>, edges: seq<Edge>, d: Direction,
                                 oracle: LayoutRequest -> OracleResponse)
    ensures var r := Layout(nodes, edges, d, oracle);
      BuildRequest(r.layoutNodes, r.layoutEdges) == BuildRequest(nodes, edges)
  {
    var r := Layout(nodes, edges, d, oracle);
    var q1 := BuildRequest(r.layoutNodes, r.layoutEdges);
    var q2 := BuildRequest(nodes, edges);
    forall i | 0 <= i < |nodes| ensures q1.children[i] == q2.children[i] {
      assert r.layoutNodes[i].(position := nodes[i].position) == nodes[i];
    }
    assert q1.children == q2.children;
  }

  /** Laying out an already laid-out graph again changes nothing. */
  lemma LayoutIsIdempotent(nodes: seq<Node>, edges: seq<Edge>, d: Direction,
                           oracle: LayoutRequest -> OracleResponse)
    ensures var r := Layout(nodes, edges, d, oracle);
      Layout(r.layoutNodes, r.layoutEdges, d, oracle) == r
  {
    var r := Layout(nodes, edges, d, oracle);
    RelayoutSendsSameRequest(nodes, edges, d, oracle);
    var answer := oracle(BuildRequest(nodes, edges));
    if answer.Ok? {
      var r2 := Layout(r.layoutNodes, r.layoutEdges, d, oracle);
      forall i | 0 <= i < |nodes| ensures r2.layoutNodes[i] == r.layoutNodes[i] {
        var n := nodes[i];
        var p := r.layoutNodes[i];
        assert p.(position := n.position) == n;
        assert FollowsFallback(n, answer.children, p);
        assert FollowsFallback(p, answer.children, r2.layoutNodes[i]);
        assert r2.layoutNodes[i].(position := p.position) == p;
        assert FindBox(answer.children, p.id) == FindBox(answer.children, n.id);
      }
      assert r2.layoutNodes == r.layoutNodes;
    }
  }

  /** The box requested for an engine node has the size the engine gave the node. */
  lemma BoxMatchesNodeStyle(p: Position)
    ensures var n := KnowledgeGraph.MakeNode(p);
      BoxOf(n) == Box(p.id, n.style.width, n.style.height)
    ensures BoxOf(KnowledgeGraph.MakeNode(p)).width == if Truthy(p.isVariant) then 150 else 180
  {
  }

  /** When every edge joins two nodes, every arc of the request joins two requested boxes. */
  lemma ArcsJoinRequestedBoxes(nodes: seq<Node>, edges: seq<Edge>)
    requires forall e :: e in edges ==> e.source in NodeIds(nodes) && e.target in NodeIds(nodes)
    ensures var q := BuildRequest(nodes, edges);
      forall a :: a in q.edges ==>
        (exists b :: b in q.children && a.sources == [b.id]) && (exists b :: b in q.children && a.targets == [b.id])
  {
    var q := BuildRequest(nodes, edges);
    forall a | a in q.edges
      ensures (exists b :: b in q.children && a.sources == [b.id]) && (exists b :: b in q.children && a.targets == [b.id])
    {
      var j :| 0 <= j < |q.edges| && q.edges[j] == a;
      var e := edges[j];
      assert e in edges;
      var ns :| ns in nodes && ns.id == e.source;
      var nt :| nt in nodes && nt.id == e.target;
      var si :| 0 <= si < |nodes| && nodes[si] == ns;
      var ti :| 0 <= ti < |nodes| && nodes[ti] == nt;
      assert q.children[si] in q.children && q.children[si].id == e.source;
      assert q.children[ti] in q.children && q.children[ti].id == e.target;
    }
  }

  function NodeIds(nodes: seq<Node>): (r: set<PositionId>) {
    set n | n in nodes :: n.id
  }

  /** The request's boxes are sized as the nodes' styles when every node's box is. */
  lemma BoxesFollowStyles(nodes: seq<Node>, edges: seq<Edge>)
    requires forall n :: n in nodes ==> BoxOf(n) == Box(n.id, n.style.width, n.style.height)
    ensures var q := BuildRequest(nodes, edges);
      forall i :: 0 <= i < |nodes| ==> q.children[i] == Box(nodes[i].id, nodes[i].style.width, nodes[i].style.height)
  {
    var q := BuildRequest(nodes, edges);
    forall i | 0 <= i < |nodes|
      ensures q.children[i] == Box(nodes[i].id, nodes[i].style.width, nodes[i].style.height)
    {
      assert nodes[i] in nodes;
    }
  }

  /** For a derived graph, the request holds one box per node, sized as the node's style. */
  lemma DerivedBoxesMatchNodeStyles(kb: KnowledgeBase, f: KnowledgeGraph.Filters)
    ensures var g := KnowledgeGraph.Generate(kb, f);
      var q := BuildRequest(g.nodes, g.edges);
      forall i :: 0 <= i < |g.nodes| ==>
        q.children[i] == Box(g.nodes[i].id, g.nodes[i].style.width, g.nodes[i].style.height)
  {
    var g := KnowledgeGraph.Generate(kb, f);
    var nodes := KnowledgeGraph.NodePass(kb.positions, f);
    assert g.nodes == nodes;
    KnowledgeGraphProofs.NodesDescribeShownPositions(kb.positions, f);
    forall n | n in nodes ensures BoxOf(n) == Box(n.id, n.style.width, n.style.height) {
      var k :| 0 <= k < |kb.positions| && KnowledgeGraphProofs.DescribesPosition(n, kb.positions[k].position);
    }
    BoxesFollowStyles(nodes, g.edges);
  }

  /** For a derived graph, the oracle is never handed an arc to a node it was not asked to place. */
  lemma DerivedArcsJoinRequestedBoxes(kb: KnowledgeBase, f: KnowledgeGraph.Filters)
    ensures var g := KnowledgeGraph.Generate(kb, f);
      var q := BuildRequest(g.nodes, g.edges);
      forall a :: a in q.edges ==>
        (exists b :: b in q.children && a.sources == [b.id]) && (exists b :: b in q.children && a.targets == [b.id])
  {
    var g := KnowledgeGraph.Generate(kb, f);
    KnowledgeGraphProofs.EveryEdgeHasASource(kb, f);
    KnowledgeGraphProofs.NodeIdsAreIncluded(kb.positions, f);
    assert NodeIds(g.nodes) == KnowledgeGraph.Included(kb, f);
    ArcsJoinRequestedBoxes(g.nodes, g.edges);
  }
}
