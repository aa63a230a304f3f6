/**
 * The graph-derivation engine of `src/utils/knowledgeGraph.ts`
 * (`generateGraphElements`): a knowledge base and a filter record become an
 * ordered list of position nodes and a deduplicated ordered list of
 * technique edges.
 *
 * The engine runs three passes. The node pass keeps every position unless
 * variants are hidden and the position is a variant. The outcome-edge pass
 * walks the kept nodes, resolves their applicable techniques, filters them
 * and emits one edge per outcome that ends on a kept position. The
 * setup-edge pass links the origin of every setup technique to the origin of
 * the technique it sets up. Both edge passes feed one id-keyed map in which
 * the first write for an id wins; the output is the map's insertion order.
 */
module KnowledgeGraph {
  import opened Wrappers
  import opened BjjTypes

  datatype TypeFilter = AllTypes | OnlyType(techniqueType: TechniqueType)
  datatype DifficultyFilter = AllDifficulties | OnlyDifficulty(difficulty: Difficulty)
  datatype ApplicabilityFilter = AllApplicabilities | OnlyApplicability(applicability: Applicability)

  /** `KnowledgeGraphFilters`: each selector is either `'all'` or one value. */
  datatype Filters = Filters(
    techniqueType: TypeFilter,
    difficulty: DifficultyFilter,
    applicability: ApplicabilityFilter,
    showVariants: bool)

  datatype Graph = Graph(nodes: seq<Node>, edges: seq<Edge>)

  const VariantNodeWidth := 150
  const RegularNodeWidth := 180
  const NodeHeight := 60

  // ---------------------------------------------------------------------------
  // Node pass
  // ---------------------------------------------------------------------------

  /** A position yields a node unless variants are hidden and it is a variant. */
  predicate IsShown(p: Position, f: Filters) {
    !(!f.showVariants && Truthy(p.isVariant))
  }

  /** The node built for a kept position, placed at the origin. */
  function MakeNode(p: Position): (r: Node) {
    var variant := Truthy(p.isVariant);
    Node(
      p.id,
      "default",
      Some(Point(0, 0)),
      PositionNodeData(p.name, p.id, p.advantage, p.isVariant),
      NodeStyle(
        if variant then VariantNodeWidth else RegularNodeWidth,
        NodeHeight,
        if variant then "12px" else "14px"))
  }

  /** The nodes of the kept positions, in knowledge-base order. */
  function NodePass(entries: seq<PositionEntry>, f: Filters): (r: seq<Node>) {
    if |entries| == 0 then []
    else
      (if IsShown(entries[0].position, f) then [MakeNode(entries[0].position)] else [])
      + NodePass(entries[1..], f)
  }

  /** `includedPositions`: the ids of the kept positions. */
  function KeptIds(entries: seq<PositionEntry>, f: Filters): (r: set<PositionId>) {
    if |entries| == 0 then {}
    else
      (if IsShown(entries[0].position, f) then {entries[0].position.id} else {})
      + KeptIds(entries[1..], f)
  }

  function Included(kb: KnowledgeBase, f: Filters): (r: set<PositionId>) {
    KeptIds(kb.positions, f)
  }

  /** The position ids the outcome pass starts from, one per node. */
  function StartIds(nodes: seq<Node>): (r: set<PositionId>) {
    set n | n in nodes :: n.data.positionId
  }

  // ---------------------------------------------------------------------------
  // Technique filters
  // ---------------------------------------------------------------------------

  /** Difficulty must match exactly unless the filter is `'all'`. */
  predicate DifficultyPasses(t: Technique, f: Filters) {
    !(f.difficulty.OnlyDifficulty? && t.difficulty != f.difficulty.difficulty)
  }

  /** Applicability must match exactly, unless the filter is `'all'` or the technique is `Both`. */
  predicate ApplicabilityPasses(t: Technique, f: Filters) {
    !(f.applicability.OnlyApplicability?
      && t.applicability != f.applicability.applicability
      && t.applicability != Both)
  }

  /** The six types the type filter never hides. */
  predicate IsPositional(tt: TechniqueType) {
    tt in [Sweep, Escape, Transition, Takedown, GuardPass, GuardRecovery]
  }

  /** The type filter can only hide non-positional techniques of another type. */
  predicate TypePasses(t: Technique, f: Filters) {
    !(f.techniqueType.OnlyType?
      && !IsPositional(t.techniqueType)
      && t.techniqueType != f.techniqueType.techniqueType)
  }

  predicate PassesFilters(t: Technique, f: Filters) {
    DifficultyPasses(t, f) && ApplicabilityPasses(t, f) && TypePasses(t, f)
  }

  // ---------------------------------------------------------------------------
  // Outcome-edge pass
  // ---------------------------------------------------------------------------

  /**
   * An outcome yields an edge when its end position is present, truthy (the
   * empty string is falsy in the source) and kept.
   */
  predicate EmitsEdge(o: TechniqueOutcome, included: set<PositionId>) {
    o.endPositionId.Some? && o.endPositionId.value != "" && o.endPositionId.value in included
  }

  /** Outcome `i` of `tech` yields an edge. */
  predicate Emits(tech: Technique, i: nat, included: set<PositionId>) {
    i < |tech.outcomes| && EmitsEdge(tech.outcomes[i], included)
  }

  /** The edge outcome `i` of `tech` contributes when listed at `start`. */
  function OutcomeEdge(start: PositionId, tech: Technique, i: nat): (r: Edge)
    requires i < |tech.outcomes| && tech.outcomes[i].endPositionId.Some?
  {
    var end := tech.outcomes[i].endPositionId.value;
    Edge(
      OutcomeKey(start, tech.id, end, i),
      start,
      end,
      TechniqueEdgeData(tech.id, tech.techniqueType, tech.name, false))
  }

  /** The edges of the outcomes of `tech` from index `i` on, in declaration order. */
  function OutcomeEdgesFrom(start: PositionId, tech: Technique, included: set<PositionId>, i: nat): (r: seq<Edge>)
    decreases |tech.outcomes| - i
  {
    if i >= |tech.outcomes| then []
    else
      (if EmitsEdge(tech.outcomes[i], included) then [OutcomeEdge(start, tech, i)] else [])
      + OutcomeEdgesFrom(start, tech, included, i + 1)
  }

  /** The edges of the techniques listed at `start`; unresolved ids are skipped. */
  function TechniqueEdges(kb: KnowledgeBase, f: Filters, start: PositionId, ids: seq<TechniqueId>,
                          included: set<PositionId>): (r: seq<Edge>)
  {
    if |ids| == 0 then []
    else
      (match LookupTechnique(kb.techniques, ids[0])
       case None => []
       case Some(t) => if PassesFilters(t, f) then OutcomeEdgesFrom(start, t, included, 0) else [])
      + TechniqueEdges(kb, f, start, ids[1..], included)
  }

  /** The edges starting at one node; a position id that does not resolve yields none. */
  function PositionEdges(kb: KnowledgeBase, f: Filters, start: PositionId, included: set<PositionId>): (r: seq<Edge>) {
    match LookupPosition(kb.positions, start)
    case None => []
    case Some(p) => TechniqueEdges(kb, f, start, p.applicableTechniqueIds, included)
  }

  /** The outcome edges of all nodes, in node order. */
  function OutcomePass(kb: KnowledgeBase, f: Filters, nodes: seq<Node>, included: set<PositionId>): (r: seq<Edge>) {
    if |nodes| == 0 then []
    else PositionEdges(kb, f, nodes[0].data.positionId, included) + OutcomePass(kb, f, nodes[1..], included)
  }

  // ---------------------------------------------------------------------------
  // Setup-edge pass
  // ---------------------------------------------------------------------------

  /** The edge from the origin of setup technique `setupTech` (listed as `setupId`) to the origin of `tech`. */
  function SetupEdge(setupId: TechniqueId, setupTech: Technique, tech: Technique): (r: Edge) {
    Edge(
      SetupKey(setupId, tech.id),
      setupTech.originPositionId,
      tech.originPositionId,
      TechniqueEdgeData(setupId, setupTech.techniqueType, "Setup: " + setupTech.name, true))
  }

  /** The setup edges into `tech` for the setup ids `ids`; unresolved ids are skipped. */
  function SetupEdgesOf(kb: KnowledgeBase, tech: Technique, ids: seq<TechniqueId>, included: set<PositionId>): (r: seq<Edge>) {
    if |ids| == 0 then []
    else
      (match LookupTechnique(kb.techniques, ids[0])
       case None => []
       case Some(st) =>
         if st.originPositionId in included && tech.originPositionId in included
         then [SetupEdge(ids[0], st, tech)] else [])
      + SetupEdgesOf(kb, tech, ids[1..], included)
  }

  /** The setup edges of all techniques, in knowledge-base order. */
  function SetupPass(kb: KnowledgeBase, entries: seq<TechniqueEntry>, included: set<PositionId>): (r: seq<Edge>) {
    if |entries| == 0 then []
    else
      SetupEdgesOf(kb, entries[0].technique, entries[0].technique.setupTechniqueIds, included)
      + SetupPass(kb, entries[1..], included)
  }

  // ---------------------------------------------------------------------------
  // The id-keyed edge map
  // ---------------------------------------------------------------------------

  /** The ids under which the edges of `c` are stored. */
  function Ids<K>(c: seq<Edge>, id: EdgeKey -> K): (r: set<K>) {
    set e | e in c :: id(e.key)
  }

  /** The index of the first edge of `c` stored under id `k`, or `|c|` if none is. */
  function FirstIndexOf<K(==)>(c: seq<Edge>, id: EdgeKey -> K, k: K): (r: nat)
    ensures r <= |c|
    ensures r < |c| <==> k in Ids(c, id)
    ensures r < |c| ==> id(c[r].key) == k
    ensures forall j :: 0 <= j < r ==> id(c[j].key) != k
  {
    if |c| == 0 then 0
    else if id(c[0].key) == k then 0
    else
      var r := 1 + FirstIndexOf(c[1..], id, k);
      assert forall j :: 1 <= j < |c| ==> c[j] == c[1..][j - 1];
      assert k in Ids(c[1..], id) ==> k in Ids(c, id);
      r
  }

  /**
   * Writes the edges of `c` in order into a map that already holds the ids
   * `seen`, skipping every edge whose id is present: the insertion order of
   * the map's new entries.
   */
  function DedupBy<K(==)>(c: seq<Edge>, id: EdgeKey -> K, seen: set<K>): (r: seq<Edge>) {
    if |c| == 0 then []
    else if id(c[0].key) in seen then DedupBy(c[1..], id, seen)
    else [c[0]] + DedupBy(c[1..], id, seen + {id(c[0].key)})
  }

  /**
   * What the map adds to one holding the ids `seen`: edges of `c` whose ids
   * were not present, no two under one id, covering every new id of `c`.
   */
  lemma {:induction false} DedupByAddsNewIds<K>(c: seq<Edge>, id: EdgeKey -> K, seen: set<K>)
    ensures var r := DedupBy(c, id, seen);
      forall j :: 0 <= j < |r| ==> r[j] in c && id(r[j].key) !in seen
    ensures var r := DedupBy(c, id, seen);
      forall i, j :: 0 <= i < j < |r| ==> id(r[i].key) != id(r[j].key)
    ensures Ids(DedupBy(c, id, seen), id) == Ids(c, id) - seen
  {
    if |c| > 0 {
      IdsOfCons(c, id);
      var k := id(c[0].key);
      if k in seen {
        DedupByAddsNewIds(c[1..], id, seen);
      } else {
        var rest := DedupBy(c[1..], id, seen + {k});
        DedupByAddsNewIds(c[1..], id, seen + {k});
        var r := [c[0]] + rest;
        assert DedupBy(c, id, seen) == r;
        IdsOfCons(r, id);
        assert r[1..] == rest;
      }
    }
  }

  /** The ids of a non-empty sequence: its head's id and its tail's ids. */
  lemma IdsOfCons<K>(c: seq<Edge>, id: EdgeKey -> K)
    requires |c| > 0
    ensures Ids(c, id) == {id(c[0].key)} + Ids(c[1..], id)
    ensures forall j :: 1 <= j < |c| ==> c[j] == c[1..][j - 1]
  {
    assert c == [c[0]] + c[1..];
  }

  /** Edge identity in the model: the key itself. */
  function Identity(k: EdgeKey): (r: EdgeKey) { k }

  function KeySet(c: seq<Edge>): (r: set<EdgeKey>) { Ids(c, Identity) }

  /** The edges of `c`, the first per key, in first-insertion order. */
  function Dedup(c: seq<Edge>): (r: seq<Edge>) { DedupBy(c, Identity, {}) }

  // ---------------------------------------------------------------------------
  // The engine
  // ---------------------------------------------------------------------------

  /** Every edge written into the map, in writing order: outcome edges, then setup edges. */
  function Candidates(kb: KnowledgeBase, f: Filters): (r: seq<Edge>) {
    var included := Included(kb, f);
    OutcomePass(kb, f, NodePass(kb.positions, f), included) + SetupPass(kb, kb.techniques, included)
  }

  /** `generateGraphElements`. */
  function Generate(kb: KnowledgeBase, f: Filters): (r: Graph) {
    Graph(NodePass(kb.positions, f), Dedup(Candidates(kb, f)))
  }
}
