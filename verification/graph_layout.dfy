/**
 * The layout adapter of `src/utils/graphLayout.ts` (`getLayoutedElements`).
 * It builds a request for an external layout oracle (one sized box per node,
 * one arc per edge), copies the coordinates the oracle returns back onto the
 * nodes, and on oracle failure returns the input unchanged. The oracle is a
 * parameter: a function from the request to its answer.
 */
module GraphLayout {
  import opened Wrappers
  import opened BjjTypes

  const DefaultNodeWidth := 180
  const DefaultNodeHeight := 60
  const VariantNodeWidth := 150
  const VariantNodeHeight := 60

  /** The `direction` argument; the force strategy ignores it. */
  datatype Direction = Right | Down

  datatype LayoutOption = LayoutOption(name: string, value: string)

  /** The fixed strategy configuration sent with every request. */
  const DefaultLayoutOptions := [
    LayoutOption("elk.algorithm", "force"),
    LayoutOption("org.eclipse.elk.spacing.nodeNode", "250"),
    LayoutOption("org.eclipse.elk.force.idealEdgeLength", "250"),
    LayoutOption("org.eclipse.elk.edgeRouting", "POLYLINE")]

  /** A sized box for one node. */
  datatype Box = Box(id: PositionId, width: int, height: int)

  /** A directed arc for one edge. */
  datatype Arc = Arc(id: EdgeKey, sources: seq<PositionId>, targets: seq<PositionId>)

  datatype LayoutRequest = LayoutRequest(
    id: string,
    layoutOptions: seq<LayoutOption>,
    children: seq<Box>,
    edges: seq<Arc>)

  /** A box of the oracle's answer; either coordinate may be missing. */
  datatype PlacedBox = PlacedBox(id: PositionId, x: Option<int>, y: Option<int>)

  /** The oracle either fails (the awaited promise rejects) or returns placed boxes. */
  datatype OracleResponse = Fail | Ok(children: seq<PlacedBox>)

  datatype Layouted = Layouted(layoutNodes: seq<Node>, layoutEdges: seq<Edge>)

  function BoxOf(n: Node): (r: Box) {
    var variant := Truthy(n.data.isVariant);
    Box(
      n.id,
      if variant then VariantNodeWidth else DefaultNodeWidth,
      if variant then VariantNodeHeight else DefaultNodeHeight)
  }

  function ArcOf(e: Edge): (r: Arc) {
    Arc(e.key, [e.source], [e.target])
  }

  /** The request: one box per node and one arc per edge, both in input order. */
  function BuildRequest(nodes: seq<Node>, edges: seq<Edge>): (r: LayoutRequest)
    ensures r.id == "root" && r.layoutOptions == DefaultLayoutOptions
    ensures |r.children| == |nodes|
    ensures forall i :: 0 <= i < |nodes| ==>
      && r.children[i].id == nodes[i].id
      && r.children[i].width == (if Truthy(nodes[i].data.isVariant) then 150 else 180)
      && r.children[i].height == 60
    ensures |r.edges| == |edges|
    ensures forall i :: 0 <= i < |edges| ==>
      r.edges[i] == Arc(edges[i].key, [edges[i].source], [edges[i].target])
  {
    LayoutRequest(
      "root",
      DefaultLayoutOptions,
      seq(|nodes|, i requires 0 <= i < |nodes| => BoxOf(nodes[i])),
      seq(|edges|, i requires 0 <= i < |edges| => ArcOf(edges[i])))
  }

  /** `children.find(n => n.id === id)`: the first placed box with that id. */
  function FindBox(children: seq<PlacedBox>, id: PositionId): (r: Option<PlacedBox>)
    ensures r.None? <==> forall j :: 0 <= j < |children| ==> children[j].id != id
    ensures r.Some? ==> exists j :: 0 <= j < |children| && children[j] == r.value && r.value.id == id
                                    && forall k :: 0 <= k < j ==> children[k].id != id
  {
    if |children| == 0 then None
    else if children[0].id == id then Some(children[0])
    else
      var r := FindBox(children[1..], id);
      assert forall j :: 1 <= j < |children| ==> children[j] == children[1..][j - 1];
      if r.Some? then
        var j :| 0 <= j < |children[1..]| && children[1..][j] == r.value && r.value.id == id
                 && forall k :: 0 <= k < j ==> children[1..][k].id != id;
        assert children[j + 1] == r.value;
        r
      else r
  }

  /** `oracle ?? previous ?? 0`. */
  function Coordinate(oracle: Option<int>, previous: Option<int>): (r: int) {
    oracle.GetOr(previous.GetOr(0))
  }

  function BoxX(b: Option<PlacedBox>): (r: Option<int>) { if b.Some? then b.value.x else None }
  function BoxY(b: Option<PlacedBox>): (r: Option<int>) { if b.Some? then b.value.y else None }
  function PreviousX(n: Node): (r: Option<int>) { if n.position.Some? then Some(n.position.value.x) else None }
  function PreviousY(n: Node): (r: Option<int>) { if n.position.Some? then Some(n.position.value.y) else None }

  /** The node with its position replaced by the oracle's, falling back to its own or 0. */
  function PlaceNode(n: Node, children: seq<PlacedBox>): (r: Node) {
    var b := FindBox(children, n.id);
    n.(position := Some(Point(Coordinate(BoxX(b), PreviousX(n)), Coordinate(BoxY(b), PreviousY(n)))))
  }

  /**
   * Each coordinate of `placed` is the oracle's value for the first box with
   * the node's id, else the node's previous value, else 0.
   */
  ghost predicate FollowsFallback(n: Node, children: seq<PlacedBox>, placed: Node) {
    var b := FindBox(children, n.id);
    && placed.position.Some?
    && placed.position.value.x ==
         (if b.Some? && b.value.x.Some? then b.value.x.value
          else if n.position.Some? then n.position.value.x else 0)
    && placed.position.value.y ==
         (if b.Some? && b.value.y.Some? then b.value.y.value
          else if n.position.Some? then n.position.value.y else 0)
  }

  /** `getLayoutedElements`; the oracle's failure never propagates. */
  function Layout(nodes: seq<Node>, edges: seq<Edge>, direction: Direction,
                  oracle: LayoutRequest -> OracleResponse): (r: Layouted)
    ensures r.layoutEdges == edges
    ensures |r.layoutNodes| == |nodes|
    ensures forall i :: 0 <= i < |nodes| ==> r.layoutNodes[i].(position := nodes[i].position) == nodes[i]
    ensures oracle(BuildRequest(nodes, edges)).Fail? ==> r.layoutNodes == nodes
    ensures oracle(BuildRequest(nodes, edges)).Ok? ==>
      forall i :: 0 <= i < |nodes| ==>
        FollowsFallback(nodes[i], oracle(BuildRequest(nodes, edges)).children, r.layoutNodes[i])
  {
    match oracle(BuildRequest(nodes, edges))
    case Fail => Layouted(nodes, edges)
    case Ok(children) =>
      Layouted(seq(|nodes|, i requires 0 <= i < |nodes| => PlaceNode(nodes[i], children)), edges)
  }
}
