/**
 * What `generateGraphElements` promises, proved about the model in
 * `KnowledgeGraph`: which positions become nodes and in what order, exactly
 * which outcome and setup edges appear, which filters can remove which
 * edges, and how the edge map orders and deduplicates them.
 */
module KnowledgeGraphProofs {
  import opened Wrappers
  import opened BjjTypes
  import opened KnowledgeGraph
  import opened EdgeMap

  // ---------------------------------------------------------------------------
  // Nodes
  // ---------------------------------------------------------------------------

  /**
   * `idx` lists, in increasing order, the knowledge-base indices of exactly
   * the shown positions, and node `i` is the node of position `idx[i]`.
   */
  ghost predicate SelectsShown(entries: seq<PositionEntry>, f: Filters, nodes: seq<Node>, idx: seq<int>) {
    && |idx| == |nodes|
    && (forall i :: 0 <= i < |idx| ==> 0 <= idx[i] < |entries| && nodes[i] == MakeNode(entries[idx[i]].position))
    && (forall i, j :: 0 <= i < j < |idx| ==> idx[i] < idx[j])
    && (forall k :: 0 <= k < |entries| ==> (IsShown(entries[k].position, f) <==> k in idx))
  }

  /** The indices `idx` moved one position later. */
  function Shift(idx: seq<int>): (r: seq<int>)
    ensures |r| == |idx|
    ensures forall i :: 0 <= i < |idx| ==> r[i] == idx[i] + 1
  {
    seq(|idx|, i requires 0 <= i < |idx| => idx[i] + 1)
  }

  lemma ShiftMembers(idx: seq<int>, k: int)
    ensures k in Shift(idx) <==> k - 1 in idx
  {
    if k - 1 in idx {
      var i :| 0 <= i < |idx| && idx[i] == k - 1;
      assert Shift(idx)[i] == k;
    }
  }

  /** A hidden head position adds no node; the tail's indices move by one. */
  lemma SelectsShownSkip(entries: seq<PositionEntry>, f: Filters, idx': seq<int>)
    requires |entries| > 0 && !IsShown(entries[0].position, f)
    requires SelectsShown(entries[1..], f, NodePass(entries[1..], f), idx')
    ensures SelectsShown(entries, f, NodePass(entries, f), Shift(idx'))
  {
    assert NodePass(entries, f) == NodePass(entries[1..], f);
    NodesAtShiftedIndices(entries, entries[1..], NodePass(entries[1..], f), idx');
    SkipKeepsMembership(entries, f, idx');
  }

  /** Nodes built from tail indices `idx'` are built from the entries at the shifted indices. */
  lemma NodesAtShiftedIndices(entries: seq<PositionEntry>, tail: seq<PositionEntry>, nodes: seq<Node>, idx': seq<int>)
    requires |entries| > 0 && tail == entries[1..] && |idx'| == |nodes|
    requires forall i :: 0 <= i < |idx'| ==> 0 <= idx'[i] < |tail| && nodes[i] == MakeNode(tail[idx'[i]].position)
    ensures var idx := Shift(idx');
      forall i :: 0 <= i < |idx| ==> 0 <= idx[i] < |entries| && nodes[i] == MakeNode(entries[idx[i]].position)
  {
    var idx := Shift(idx');
    forall i | 0 <= i < |idx|
      ensures 0 <= idx[i] < |entries| && nodes[i] == MakeNode(entries[idx[i]].position)
    {
      assert entries[idx'[i] + 1] == tail[idx'[i]];
    }
  }

  lemma SkipKeepsMembership(entries: seq<PositionEntry>, f: Filters, idx': seq<int>)
    requires |entries| > 0 && !IsShown(entries[0].position, f)
    requires forall i :: 0 <= i < |idx'| ==> 0 <= idx'[i]
    requires forall k :: 0 <= k < |entries| - 1 ==> (IsShown(entries[1..][k].position, f) <==> k in idx')
    ensures forall k :: 0 <= k < |entries| ==> (IsShown(entries[k].position, f) <==> k in Shift(idx'))
  {
    var tail := entries[1..];
    var idx := Shift(idx');
    forall k | 0 <= k < |entries|
      ensures IsShown(entries[k].position, f) <==> k in idx
    {
      ShiftMembers(idx', k);
      if k > 0 {
        assert entries[k] == tail[k - 1];
      } else {
        assert forall i :: 0 <= i < |idx'| ==> idx[i] >= 1;
      }
    }
  }

  /** Prepending index 0 to shifted non-negative increasing indices keeps them increasing. */
  lemma ConsShiftIncreasing(idx': seq<int>)
    requires forall i :: 0 <= i < |idx'| ==> 0 <= idx'[i]
    requires forall i, j :: 0 <= i < j < |idx'| ==> idx'[i] < idx'[j]
    ensures var idx := [0] + Shift(idx'); forall i, j :: 0 <= i < j < |idx| ==> idx[i] < idx[j]
  {
    var shifted := Shift(idx');
    var idx := [0] + shifted;
    forall i, j | 0 <= i < j < |idx| ensures idx[i] < idx[j] {
      assert idx[j] == shifted[j - 1];
      if i > 0 {
        assert idx[i] == shifted[i - 1];
      }
    }
  }

  /** A shown head position adds the first node, at index 0. */
  lemma SelectsShownKeep(entries: seq<PositionEntry>, f: Filters, idx': seq<int>)
    requires |entries| > 0 && IsShown(entries[0].position, f)
    requires SelectsShown(entries[1..], f, NodePass(entries[1..], f), idx')
    ensures SelectsShown(entries, f, NodePass(entries, f), [0] + Shift(idx'))
  {
    var rest := NodePass(entries[1..], f);
    assert NodePass(entries, f) == [MakeNode(entries[0].position)] + rest;
    NodesAtShiftedIndices(entries, entries[1..], rest, idx');
    KeepAddsNode(entries, rest, Shift(idx'));
    ConsShiftIncreasing(idx');
    KeepAddsMembership(entries, f, idx');
  }

  /** Prepending the head's node to nodes built from entries `idx` matches index 0 followed by `idx`. */
  lemma KeepAddsNode(entries: seq<PositionEntry>, rest: seq<Node>, idx: seq<int>)
    requires |entries| > 0 && |idx| == |rest|
    requires forall i :: 0 <= i < |idx| ==> 0 <= idx[i] < |entries| && rest[i] == MakeNode(entries[idx[i]].position)
    ensures var nodes := [MakeNode(entries[0].position)] + rest; var idx0 := [0] + idx;
      |idx0| == |nodes| &&
      forall i :: 0 <= i < |idx0| ==> 0 <= idx0[i] < |entries| && nodes[i] == MakeNode(entries[idx0[i]].position)
  {
    var nodes := [MakeNode(entries[0].position)] + rest;
    var idx0 := [0] + idx;
    forall i | 0 < i < |idx0|
      ensures 0 <= idx0[i] < |entries| && nodes[i] == MakeNode(entries[idx0[i]].position)
    {
      assert idx0[i] == idx[i - 1] && nodes[i] == rest[i - 1];
    }
  }

  lemma KeepAddsMembership(entries: seq<PositionEntry>, f: Filters, idx': seq<int>)
    requires |entries| > 0 && IsShown(entries[0].position, f)
    requires forall k :: 0 <= k < |entries| - 1 ==> (IsShown(entries[1..][k].position, f) <==> k in idx')
    ensures forall k :: 0 <= k < |entries| ==> (IsShown(entries[k].position, f) <==> k in [0] + Shift(idx'))
  {
    var tail := entries[1..];
    var shifted := Shift(idx');
    var idx := [0] + shifted;
    forall k | 0 <= k < |entries|
      ensures IsShown(entries[k].position, f) <==> k in idx
    {
      ShiftMembers(idx', k);
      assert k in idx <==> k == 0 || k in shifted;
      if k > 0 {
        assert entries[k] == tail[k - 1];
      }
    }
  }

  /** One node per shown position, in knowledge-base order, and no other node. */
  lemma {:induction false} NodesAreShownPositionsInOrder(entries: seq<PositionEntry>, f: Filters)
    ensures exists idx :: SelectsShown(entries, f, NodePass(entries, f), idx)
  {
    if |entries| == 0 {
      var none: seq<int> := [];
      assert SelectsShown(entries, f, NodePass(entries, f), none);
    } else {
      NodesAreShownPositionsInOrder(entries[1..], f);
      var idx' :| SelectsShown(entries[1..], f, NodePass(entries[1..], f), idx');
      if IsShown(entries[0].position, f) {
        SelectsShownKeep(entries, f, idx');
      } else {
        SelectsShownSkip(entries, f, idx');
      }
    }
  }

  /**
   * The fields a node takes from its position: id, label, advantage and
   * variant flag copied, placed at the origin, and sized 150 or 180 by 60.
   */
  ghost predicate DescribesPosition(n: Node, p: Position) {
    && n.id == p.id
    && n.nodeType == "default"
    && n.position == Some(Point(0, 0))
    && n.data == PositionNodeData(p.name, p.id, p.advantage, p.isVariant)
    && n.style.width == (if p.isVariant == Some(true) then 150 else 180)
    && n.style.height == 60
    && n.style.fontSize == (if p.isVariant == Some(true) then "12px" else "14px")
  }

  lemma MakeNodeDescribes(p: Position)
    ensures DescribesPosition(MakeNode(p), p)
  {
  }

  /** Shown: variants are shown or the position is not a variant. */
  ghost predicate Shown(p: Position, f: Filters) {
    f.showVariants || p.isVariant != Some(true)
  }

  /** Every node describes a shown position of the knowledge base. */
  lemma NodesDescribeShownPositions(entries: seq<PositionEntry>, f: Filters)
    ensures forall n :: n in NodePass(entries, f) ==>
      exists k :: 0 <= k < |entries| && DescribesPosition(n, entries[k].position) && Shown(entries[k].position, f)
  {
    var nodes := NodePass(entries, f);
    NodesAreShownPositionsInOrder(entries, f);
    var idx :| SelectsShown(entries, f, nodes, idx);
    forall n | n in nodes
      ensures exists k :: 0 <= k < |entries| && DescribesPosition(n, entries[k].position) && Shown(entries[k].position, f)
    {
      var i :| 0 <= i < |nodes| && nodes[i] == n;
      SelectedNodeDescribes(entries, f, nodes, idx, i);
    }
  }

  lemma SelectedNodeDescribes(entries: seq<PositionEntry>, f: Filters, nodes: seq<Node>, idx: seq<int>, i: int)
    requires SelectsShown(entries, f, nodes, idx) && 0 <= i < |nodes|
    ensures 0 <= idx[i] < |entries|
    ensures DescribesPosition(nodes[i], entries[idx[i]].position) && Shown(entries[idx[i]].position, f)
  {
    var k := idx[i];
    assert IsShown(entries[k].position, f) by { assert k in idx; }
    MakeNodeDescribes(entries[k].position);
  }

  /** Every shown position of the knowledge base is described by a node. */
  lemma ShownPositionsHaveNodes(entries: seq<PositionEntry>, f: Filters)
    ensures forall k :: 0 <= k < |entries| && Shown(entries[k].position, f) ==>
      exists n :: n in NodePass(entries, f) && DescribesPosition(n, entries[k].position)
  {
    var nodes := NodePass(entries, f);
    NodesAreShownPositionsInOrder(entries, f);
    var idx :| SelectsShown(entries, f, nodes, idx);
    forall k | 0 <= k < |entries| && Shown(entries[k].position, f)
      ensures exists n :: n in nodes && DescribesPosition(n, entries[k].position)
    {
      assert IsShown(entries[k].position, f);
      var i :| 0 <= i < |idx| && idx[i] == k;
      assert nodes[i] in nodes;
      MakeNodeDescribes(entries[k].position);
    }
  }

  /** The node ids, and the position ids the outcome pass starts from, are `includedPositions`. */
  lemma {:induction false} NodeIdsAreIncluded(entries: seq<PositionEntry>, f: Filters)
    ensures (set n | n in NodePass(entries, f) :: n.id) == KeptIds(entries, f)
    ensures StartIds(NodePass(entries, f)) == KeptIds(entries, f)
  {
    if |entries| > 0 {
      NodeIdsAreIncluded(entries[1..], f);
      var head := if IsShown(entries[0].position, f) then [MakeNode(entries[0].position)] else [];
      assert forall n :: n in NodePass(entries, f) <==> n in head || n in NodePass(entries[1..], f);
    }
  }

  /** Only `showVariants` decides which positions are kept. */
  lemma {:induction false} KeptIdsOnlyDependOnShowVariants(entries: seq<PositionEntry>, f1: Filters, f2: Filters)
    requires f1.showVariants == f2.showVariants
    ensures KeptIds(entries, f1) == KeptIds(entries, f2)
    ensures NodePass(entries, f1) == NodePass(entries, f2)
  {
    if |entries| > 0 {
      KeptIdsOnlyDependOnShowVariants(entries[1..], f1, f2);
    }
  }

  // ---------------------------------------------------------------------------
  // Filters
  // ---------------------------------------------------------------------------

  /** The type filter removes a technique exactly when it is a Submission or Control of another type than the one selected. */
  lemma TypeFilterRemovesOnlySubmissionsAndControls(t: Technique, f: Filters)
    ensures !TypePasses(t, f) <==>
      && f.techniqueType.OnlyType?
      && (t.techniqueType == Submission || t.techniqueType == Control)
      && t.techniqueType != f.techniqueType.techniqueType
  {
  }

  // ---------------------------------------------------------------------------
  // Outcome edges, layer by layer
  // ---------------------------------------------------------------------------

  lemma {:induction false} OutcomeEdgesFromSound(start: PositionId, tech: Technique, inc: set<PositionId>, i0: nat, edge: Edge)
    requires edge in OutcomeEdgesFrom(start, tech, inc, i0)
    ensures exists i: nat :: i0 <= i && Emits(tech, i, inc) && edge == OutcomeEdge(start, tech, i)
    decreases |tech.outcomes| - i0
  {
    if i0 < |tech.outcomes| {
      if !(EmitsEdge(tech.outcomes[i0], inc) && edge == OutcomeEdge(start, tech, i0)) {
        OutcomeEdgesFromSound(start, tech, inc, i0 + 1, edge);
      }
    }
  }

  lemma {:induction false} OutcomeEdgesFromComplete(start: PositionId, tech: Technique, inc: set<PositionId>, i0: nat, i: nat)
    requires i0 <= i && Emits(tech, i, inc)
    ensures OutcomeEdge(start, tech, i) in OutcomeEdgesFrom(start, tech, inc, i0)
    decreases i - i0
  {
    if i0 < i {
      OutcomeEdgesFromComplete(start, tech, inc, i0 + 1, i);
    }
  }

  /** An outcome with no (or an empty) end position yields no edge. */
  lemma OutcomeWithoutEndYieldsNoEdge(start: PositionId, tech: Technique, inc: set<PositionId>, k: nat)
    requires k < |tech.outcomes|
    requires tech.outcomes[k].endPositionId.None? || tech.outcomes[k].endPositionId == Some("")
    ensures forall edge :: edge in OutcomeEdgesFrom(start, tech, inc, 0) ==> edge.key.OutcomeKey? && edge.key.idx != k
  {
    forall edge | edge in OutcomeEdgesFrom(start, tech, inc, 0) ensures edge.key.OutcomeKey? && edge.key.idx != k {
      OutcomeEdgesFromSound(start, tech, inc, 0, edge);
    }
  }

  /** Some id of `ids` resolves to `tech`. */
  ghost predicate Resolves(kb: KnowledgeBase, ids: seq<TechniqueId>, tech: Technique) {
    exists tid :: tid in ids && LookupTechnique(kb.techniques, tid) == Some(tech)
  }

  lemma {:induction false} TechniqueEdgesSound(kb: KnowledgeBase, f: Filters, start: PositionId, ids: seq<TechniqueId>,
                                               inc: set<PositionId>, edge: Edge)
    requires edge in TechniqueEdges(kb, f, start, ids, inc)
    ensures exists tech, i: nat :: Resolves(kb, ids, tech) && PassesFilters(tech, f) && Emits(tech, i, inc)
                                   && edge == OutcomeEdge(start, tech, i)
  {
    var head := match LookupTechnique(kb.techniques, ids[0])
      case None => []
      case Some(t) => if PassesFilters(t, f) then OutcomeEdgesFrom(start, t, inc, 0) else [];
    assert TechniqueEdges(kb, f, start, ids, inc) == head + TechniqueEdges(kb, f, start, ids[1..], inc);
    if edge in head {
      var t := LookupTechnique(kb.techniques, ids[0]).value;
      OutcomeEdgesFromSound(start, t, inc, 0, edge);
      var i: nat :| Emits(t, i, inc) && edge == OutcomeEdge(start, t, i);
      assert Resolves(kb, ids, t) by { assert ids[0] in ids; }
    } else {
      TechniqueEdgesSound(kb, f, start, ids[1..], inc, edge);
      var t, i: nat :| Resolves(kb, ids[1..], t) && PassesFilters(t, f) && Emits(t, i, inc) && edge == OutcomeEdge(start, t, i);
      var tid :| tid in ids[1..] && LookupTechnique(kb.techniques, tid) == Some(t);
      assert tid in ids;
    }
  }

  lemma {:induction false} TechniqueEdgesComplete(kb: KnowledgeBase, f: Filters, start: PositionId, ids: seq<TechniqueId>,
                                                  inc: set<PositionId>, tech: Technique, i: nat)
    requires Resolves(kb, ids, tech) && PassesFilters(tech, f) && Emits(tech, i, inc)
    ensures OutcomeEdge(start, tech, i) in TechniqueEdges(kb, f, start, ids, inc)
  {
    var tid :| tid in ids && LookupTechnique(kb.techniques, tid) == Some(tech);
    if ids[0] == tid {
      OutcomeEdgesFromComplete(start, tech, inc, 0, i);
    } else {
      assert tid in ids[1..];
      TechniqueEdgesComplete(kb, f, start, ids[1..], inc, tech, i);
    }
  }

  /** `start` resolves to a position that lists an id resolving to `tech`. */
  ghost predicate Lists(kb: KnowledgeBase, start: PositionId, tech: Technique) {
    && LookupPosition(kb.positions, start).Some?
    && Resolves(kb, LookupPosition(kb.positions, start).value.applicableTechniqueIds, tech)
  }

  lemma {:induction false} OutcomePassSound(kb: KnowledgeBase, f: Filters, nodes: seq<Node>, inc: set<PositionId>, edge: Edge)
    requires edge in OutcomePass(kb, f, nodes, inc)
    ensures exists start, tech, i: nat :: start in StartIds(nodes) && Lists(kb, start, tech) && PassesFilters(tech, f)
                                          && Emits(tech, i, inc) && edge == OutcomeEdge(start, tech, i)
  {
    var start := nodes[0].data.positionId;
    if edge in PositionEdges(kb, f, start, inc) {
      var p := LookupPosition(kb.positions, start).value;
      TechniqueEdgesSound(kb, f, start, p.applicableTechniqueIds, inc, edge);
      assert start in StartIds(nodes) by { assert nodes[0] in nodes; }
    } else {
      OutcomePassSound(kb, f, nodes[1..], inc, edge);
      var s, t, i: nat :| s in StartIds(nodes[1..]) && Lists(kb, s, t) && PassesFilters(t, f)
                           && Emits(t, i, inc) && edge == OutcomeEdge(s, t, i);
      var n :| n in nodes[1..] && n.data.positionId == s;
      assert n in nodes;
    }
  }

  lemma {:induction false} OutcomePassComplete(kb: KnowledgeBase, f: Filters, nodes: seq<Node>, inc: set<PositionId>,
                                               start: PositionId, tech: Technique, i: nat)
    requires start in StartIds(nodes) && Lists(kb, start, tech) && PassesFilters(tech, f) && Emits(tech, i, inc)
    ensures OutcomeEdge(start, tech, i) in OutcomePass(kb, f, nodes, inc)
  {
    if nodes[0].data.positionId == start {
      var p := LookupPosition(kb.positions, start).value;
      TechniqueEdgesComplete(kb, f, start, p.applicableTechniqueIds, inc, tech, i);
    } else {
      var n :| n in nodes && n.data.positionId == start;
      assert n in nodes[1..];
      OutcomePassComplete(kb, f, nodes[1..], inc, start, tech, i);
    }
  }

  /**
   * Outcome `i` of `tech` yields an edge from `start`: `start` is kept, its
   * position lists an id resolving to `tech`, `tech` passes the three
   * filters, and the outcome ends on a kept position.
   */
  ghost predicate OutcomeSource(kb: KnowledgeBase, f: Filters, start: PositionId, tech: Technique, i: nat) {
    && start in Included(kb, f)
    && Lists(kb, start, tech)
    && PassesFilters(tech, f)
    && Emits(tech, i, Included(kb, f))
  }

  /** The outcome pass emits exactly the edges of the outcome sources. */
  lemma OutcomeCandidates(kb: KnowledgeBase, f: Filters)
    ensures forall edge :: edge in OutcomePass(kb, f, NodePass(kb.positions, f), Included(kb, f)) ==>
      exists start, tech, i: nat :: OutcomeSource(kb, f, start, tech, i) && edge == OutcomeEdge(start, tech, i)
    ensures forall start, tech, i: nat :: OutcomeSource(kb, f, start, tech, i) ==>
      OutcomeEdge(start, tech, i) in OutcomePass(kb, f, NodePass(kb.positions, f), Included(kb, f))
  {
    var nodes := NodePass(kb.positions, f);
    var inc := Included(kb, f);
    NodeIdsAreIncluded(kb.positions, f);
    forall edge | edge in OutcomePass(kb, f, nodes, inc)
      ensures exists start, tech, i: nat :: OutcomeSource(kb, f, start, tech, i) && edge == OutcomeEdge(start, tech, i)
    {
      OutcomePassSound(kb, f, nodes, inc, edge);
    }
    forall start, tech, i: nat | OutcomeSource(kb, f, start, tech, i)
      ensures OutcomeEdge(start, tech, i) in OutcomePass(kb, f, nodes, inc)
    {
      OutcomePassComplete(kb, f, nodes, inc, start, tech, i);
    }
  }

  // ---------------------------------------------------------------------------
  // Setup edges, layer by layer
  // ---------------------------------------------------------------------------

  /** `sid` resolves, and the origins of its technique and of `tech` are both kept. */
  ghost predicate SetupResolves(kb: KnowledgeBase, inc: set<PositionId>, sid: TechniqueId, tech: Technique) {
    && LookupTechnique(kb.techniques, sid).Some?
    && LookupTechnique(kb.techniques, sid).value.originPositionId in inc
    && tech.originPositionId in inc
  }

  lemma {:induction false} SetupEdgesOfSound(kb: KnowledgeBase, tech: Technique, ids: seq<TechniqueId>, inc: set<PositionId>, edge: Edge)
    requires edge in SetupEdgesOf(kb, tech, ids, inc)
    ensures exists sid :: sid in ids && SetupResolves(kb, inc, sid, tech)
                          && edge == SetupEdge(sid, LookupTechnique(kb.techniques, sid).value, tech)
  {
    var st := LookupTechnique(kb.techniques, ids[0]);
    if st.Some? && st.value.originPositionId in inc && tech.originPositionId in inc && edge == SetupEdge(ids[0], st.value, tech) {
      assert ids[0] in ids;
    } else {
      SetupEdgesOfSound(kb, tech, ids[1..], inc, edge);
      var sid :| sid in ids[1..] && SetupResolves(kb, inc, sid, tech)
                 && edge == SetupEdge(sid, LookupTechnique(kb.techniques, sid).value, tech);
      assert sid in ids;
    }
  }

  lemma {:induction false} SetupEdgesOfComplete(kb: KnowledgeBase, tech: Technique, ids: seq<TechniqueId>, inc: set<PositionId>, sid: TechniqueId)
    requires sid in ids && SetupResolves(kb, inc, sid, tech)
    ensures SetupEdge(sid, LookupTechnique(kb.techniques, sid).value, tech) in SetupEdgesOf(kb, tech, ids, inc)
  {
    if ids[0] != sid {
      assert sid in ids[1..];
      SetupEdgesOfComplete(kb, tech, ids[1..], inc, sid);
    }
  }

  /** `tech` is the value of some technique entry. */
  ghost predicate InTechniques(entries: seq<TechniqueEntry>, tech: Technique) {
    exists j :: 0 <= j < |entries| && entries[j].technique == tech
  }

  lemma {:induction false} SetupPassSound(kb: KnowledgeBase, entries: seq<TechniqueEntry>, inc: set<PositionId>, edge: Edge)
    requires edge in SetupPass(kb, entries, inc)
    ensures exists tech, sid :: InTechniques(entries, tech) && sid in tech.setupTechniqueIds && SetupResolves(kb, inc, sid, tech)
                                && edge == SetupEdge(sid, LookupTechnique(kb.techniques, sid).value, tech)
  {
    var t := entries[0].technique;
    if edge in SetupEdgesOf(kb, t, t.setupTechniqueIds, inc) {
      SetupEdgesOfSound(kb, t, t.setupTechniqueIds, inc, edge);
      assert InTechniques(entries, t);
    } else {
      SetupPassSound(kb, entries[1..], inc, edge);
      var tech, sid :| InTechniques(entries[1..], tech) && sid in tech.setupTechniqueIds && SetupResolves(kb, inc, sid, tech)
                       && edge == SetupEdge(sid, LookupTechnique(kb.techniques, sid).value, tech);
      var j :| 0 <= j < |entries[1..]| && entries[1..][j].technique == tech;
      assert entries[j + 1].technique == tech;
    }
  }

  lemma {:induction false} SetupPassComplete(kb: KnowledgeBase, entries: seq<TechniqueEntry>, inc: set<PositionId>,
                                             tech: Technique, sid: TechniqueId)
    requires InTechniques(entries, tech) && sid in tech.setupTechniqueIds && SetupResolves(kb, inc, sid, tech)
    ensures SetupEdge(sid, LookupTechnique(kb.techniques, sid).value, tech) in SetupPass(kb, entries, inc)
  {
    if entries[0].technique == tech {
      SetupEdgesOfComplete(kb, tech, tech.setupTechniqueIds, inc, sid);
    } else {
      var j :| 0 <= j < |entries| && entries[j].technique == tech;
      assert entries[1..][j - 1].technique == tech;
      SetupPassComplete(kb, entries[1..], inc, tech, sid);
    }
  }

  /**
   * `sid`, listed as a setup of the knowledge-base technique `tech`, yields a
   * setup edge: it resolves and both origin positions are kept.
   */
  ghost predicate SetupSource(kb: KnowledgeBase, f: Filters, sid: TechniqueId, tech: Technique) {
    && InTechniques(kb.techniques, tech)
    && sid in tech.setupTechniqueIds
    && SetupResolves(kb, Included(kb, f), sid, tech)
  }

  // ---------------------------------------------------------------------------
  // Dangling references
  // ---------------------------------------------------------------------------

  /** A listed technique id that does not resolve contributes nothing. */
  lemma {:induction false} DanglingTechniqueIdIsSkipped(kb: KnowledgeBase, f: Filters, start: PositionId,
                                                        a: seq<TechniqueId>, tid: TechniqueId, b: seq<TechniqueId>,
                                                        inc: set<PositionId>)
    requires LookupTechnique(kb.techniques, tid).None?
    ensures TechniqueEdges(kb, f, start, a + [tid] + b, inc) == TechniqueEdges(kb, f, start, a + b, inc)
  {
    if |a| == 0 {
      assert a + [tid] + b == [tid] + b && a + b == b;
      assert ([tid] + b)[1..] == b;
    } else {
      assert (a + [tid] + b)[0] == a[0] && (a + b)[0] == a[0];
      assert (a + [tid] + b)[1..] == a[1..] + [tid] + b;
      assert (a + b)[1..] == a[1..] + b;
      DanglingTechniqueIdIsSkipped(kb, f, start, a[1..], tid, b, inc);
    }
  }

  /** A setup technique id that does not resolve contributes nothing. */
  lemma {:induction false} DanglingSetupIdIsSkipped(kb: KnowledgeBase, tech: Technique,
                                                    a: seq<TechniqueId>, sid: TechniqueId, b: seq<TechniqueId>,
                                                    inc: set<PositionId>)
    requires LookupTechnique(kb.techniques, sid).None?
    ensures SetupEdgesOf(kb, tech, a + [sid] + b, inc) == SetupEdgesOf(kb, tech, a + b, inc)
  {
    if |a| == 0 {
      assert a + [sid] + b == [sid] + b && a + b == b;
      assert ([sid] + b)[1..] == b;
    } else {
      assert (a + [sid] + b)[0] == a[0] && (a + b)[0] == a[0];
      assert (a + [sid] + b)[1..] == a[1..] + [sid] + b;
      assert (a + b)[1..] == a[1..] + b;
      DanglingSetupIdIsSkipped(kb, tech, a[1..], sid, b, inc);
    }
  }

  // ---------------------------------------------------------------------------
  // The derived graph
  // ---------------------------------------------------------------------------

  function OutcomeCandidatesOf(kb: KnowledgeBase, f: Filters): (r: seq<Edge>) {
    OutcomePass(kb, f, NodePass(kb.positions, f), Included(kb, f))
  }

  function SetupCandidatesOf(kb: KnowledgeBase, f: Filters): (r: seq<Edge>) {
    SetupPass(kb, kb.techniques, Included(kb, f))
  }

  /** The setup pass emits exactly the edges of the setup sources. */
  lemma SetupCandidates(kb: KnowledgeBase, f: Filters)
    ensures forall edge :: edge in SetupCandidatesOf(kb, f) ==>
      exists tech, sid :: SetupSource(kb, f, sid, tech)
                          && edge == SetupEdge(sid, LookupTechnique(kb.techniques, sid).value, tech)
    ensures forall tech, sid :: SetupSource(kb, f, sid, tech) ==>
      SetupEdge(sid, LookupTechnique(kb.techniques, sid).value, tech) in SetupCandidatesOf(kb, f)
  {
    var inc := Included(kb, f);
    forall edge | edge in SetupCandidatesOf(kb, f)
      ensures exists tech, sid :: SetupSource(kb, f, sid, tech)
                                  && edge == SetupEdge(sid, LookupTechnique(kb.techniques, sid).value, tech)
    {
      SetupPassSound(kb, kb.techniques, inc, edge);
    }
    forall tech, sid | SetupSource(kb, f, sid, tech)
      ensures SetupEdge(sid, LookupTechnique(kb.techniques, sid).value, tech) in SetupCandidatesOf(kb, f)
    {
      SetupPassComplete(kb, kb.techniques, inc, tech, sid);
    }
  }

  /** Outcome candidates carry outcome keys, setup candidates setup keys. */
  lemma CandidateKeyKinds(kb: KnowledgeBase, f: Filters)
    ensures forall e :: e in OutcomeCandidatesOf(kb, f) ==> e.key.OutcomeKey?
    ensures forall e :: e in SetupCandidatesOf(kb, f) ==> e.key.SetupKey?
    ensures KeySet(OutcomeCandidatesOf(kb, f)) !! KeySet(SetupCandidatesOf(kb, f))
  {
    OutcomeCandidates(kb, f);
    SetupCandidates(kb, f);
  }

  /** The map holds exactly the keys written into it. */
  lemma DedupKeySet(c: seq<Edge>)
    ensures KeySet(Dedup(c)) == KeySet(c)
    ensures forall e :: e in Dedup(c) ==> e in c
  {
    DedupByAddsNewIds(c, Identity, {});
    assert Ids(c, Identity) - {} == Ids(c, Identity);
    var r := Dedup(c);
    assert forall e :: e in r ==> exists j :: 0 <= j < |r| && r[j] == e;
  }

  /**
   * Every edge of the derived graph comes from an outcome source or a setup
   * source, and carries that source's data; no edge touches a position that
   * is not kept.
   */
  lemma EveryEdgeHasASource(kb: KnowledgeBase, f: Filters)
    ensures forall edge :: edge in Generate(kb, f).edges ==>
      edge.source in Included(kb, f) && edge.target in Included(kb, f)
    ensures forall edge :: edge in Generate(kb, f).edges && edge.key.OutcomeKey? ==>
      exists tech :: OutcomeSource(kb, f, edge.key.start, tech, edge.key.idx)
                     && edge == OutcomeEdge(edge.key.start, tech, edge.key.idx)
    ensures forall edge :: edge in Generate(kb, f).edges && edge.key.SetupKey? ==>
      exists tech :: SetupSource(kb, f, edge.key.setup, tech)
                     && edge == SetupEdge(edge.key.setup, LookupTechnique(kb.techniques, edge.key.setup).value, tech)
  {
    OutcomeCandidates(kb, f);
    SetupCandidates(kb, f);
    CandidateKeyKinds(kb, f);
    DedupKeySet(Candidates(kb, f));
  }

  /** A position that is not kept is neither the source nor the target of any edge. */
  lemma HiddenPositionHasNoEdge(kb: KnowledgeBase, f: Filters, p: PositionId)
    requires p !in Included(kb, f)
    ensures forall e :: e in Generate(kb, f).edges ==> e.source != p && e.target != p
  {
    EveryEdgeHasASource(kb, f);
  }

  /**
   * An edge's endpoints and data agree with its key: an outcome edge runs
   * from its key's start to its key's end and names the key's technique; a
   * setup edge, and only a setup edge, carries the setup flag and names the
   * setup technique.
   */
  lemma EdgeDataMatchesKey(kb: KnowledgeBase, f: Filters)
    ensures forall e :: e in Generate(kb, f).edges && e.key.OutcomeKey? ==>
      && e.source == e.key.start && e.target == e.key.end
      && e.data.techniqueId == e.key.tech && !e.data.isSetupEdge
    ensures forall e :: e in Generate(kb, f).edges && e.key.SetupKey? ==>
      e.data.techniqueId == e.key.setup && e.data.isSetupEdge
  {
    EveryEdgeHasASource(kb, f);
  }

  /**
   * An outcome edge keyed (s, t, e, i) is in the graph exactly when outcome i
   * of a technique with id t, listed at the kept position s and passing the
   * filters, ends on the kept position e.
   */
  lemma OutcomeEdgeIff(kb: KnowledgeBase, f: Filters, s: PositionId, t: TechniqueId, e: PositionId, i: nat)
    ensures OutcomeKey(s, t, e, i) in KeySet(Generate(kb, f).edges) <==>
      exists tech :: OutcomeSource(kb, f, s, tech, i) && tech.id == t && tech.outcomes[i].endPositionId == Some(e)
  {
    if OutcomeKey(s, t, e, i) in KeySet(Generate(kb, f).edges) {
      OutcomeKeyHasSource(kb, f, s, t, e, i);
    }
    if exists tech :: OutcomeSource(kb, f, s, tech, i) && tech.id == t && tech.outcomes[i].endPositionId == Some(e) {
      var tech :| OutcomeSource(kb, f, s, tech, i) && tech.id == t && tech.outcomes[i].endPositionId == Some(e);
      OutcomeSourceHasKey(kb, f, s, tech, i);
    }
  }

  lemma OutcomeKeyHasSource(kb: KnowledgeBase, f: Filters, s: PositionId, t: TechniqueId, e: PositionId, i: nat)
    requires OutcomeKey(s, t, e, i) in KeySet(Generate(kb, f).edges)
    ensures exists tech :: OutcomeSource(kb, f, s, tech, i) && tech.id == t && tech.outcomes[i].endPositionId == Some(e)
  {
    var key := OutcomeKey(s, t, e, i);
    OutcomeCandidates(kb, f);
    CandidateKeyKinds(kb, f);
    DedupKeySet(Candidates(kb, f));
    var edge :| edge in Candidates(kb, f) && edge.key == key;
    assert edge in OutcomeCandidatesOf(kb, f);
    var start, tech, j: nat :| OutcomeSource(kb, f, start, tech, j) && edge == OutcomeEdge(start, tech, j);
    assert start == s && j == i && tech.id == t;
  }

  lemma OutcomeSourceHasKey(kb: KnowledgeBase, f: Filters, s: PositionId, tech: Technique, i: nat)
    requires OutcomeSource(kb, f, s, tech, i)
    ensures OutcomeKey(s, tech.id, tech.outcomes[i].endPositionId.value, i) in KeySet(Generate(kb, f).edges)
  {
    OutcomeCandidates(kb, f);
    DedupKeySet(Candidates(kb, f));
    var edge := OutcomeEdge(s, tech, i);
    assert edge in Candidates(kb, f);
  }

  /**
   * Every outcome source is drawn: the graph holds an edge under its key,
   * from its start to its end, naming its technique.
   */
  lemma OutcomeSourceYieldsEdge(kb: KnowledgeBase, f: Filters, s: PositionId, tech: Technique, i: nat)
    requires OutcomeSource(kb, f, s, tech, i)
    ensures exists e :: e in Generate(kb, f).edges
                        && e.key == OutcomeKey(s, tech.id, tech.outcomes[i].endPositionId.value, i)
                        && e.source == s && e.target == tech.outcomes[i].endPositionId.value
                        && e.data.techniqueId == tech.id && !e.data.isSetupEdge
  {
    var key := OutcomeKey(s, tech.id, tech.outcomes[i].endPositionId.value, i);
    OutcomeEdgeIff(kb, f, s, tech.id, tech.outcomes[i].endPositionId.value, i);
    EdgeDataMatchesKey(kb, f);
    var e :| e in Generate(kb, f).edges && e.key == key;
  }

  /**
   * A setup edge keyed (sid, tid) is in the graph exactly when a technique
   * with id tid lists sid as a setup, sid resolves, and both origins are kept.
   */
  lemma SetupEdgeIff(kb: KnowledgeBase, f: Filters, sid: TechniqueId, tid: TechniqueId)
    ensures SetupKey(sid, tid) in KeySet(Generate(kb, f).edges) <==>
      exists tech :: SetupSource(kb, f, sid, tech) && tech.id == tid
  {
    if SetupKey(sid, tid) in KeySet(Generate(kb, f).edges) {
      SetupKeyHasSource(kb, f, sid, tid);
    }
    if exists tech :: SetupSource(kb, f, sid, tech) && tech.id == tid {
      var tech :| SetupSource(kb, f, sid, tech) && tech.id == tid;
      SetupSourceHasKey(kb, f, sid, tech);
    }
  }

  lemma SetupKeyHasSource(kb: KnowledgeBase, f: Filters, sid: TechniqueId, tid: TechniqueId)
    requires SetupKey(sid, tid) in KeySet(Generate(kb, f).edges)
    ensures exists tech :: SetupSource(kb, f, sid, tech) && tech.id == tid
  {
    var key := SetupKey(sid, tid);
    SetupCandidates(kb, f);
    CandidateKeyKinds(kb, f);
    DedupKeySet(Candidates(kb, f));
    var edge :| edge in Candidates(kb, f) && edge.key == key;
    assert edge in SetupCandidatesOf(kb, f);
    var tech, sid' :| SetupSource(kb, f, sid', tech)
                      && edge == SetupEdge(sid', LookupTechnique(kb.techniques, sid').value, tech);
    assert sid' == sid && tech.id == tid;
  }

  lemma SetupSourceHasKey(kb: KnowledgeBase, f: Filters, sid: TechniqueId, tech: Technique)
    requires SetupSource(kb, f, sid, tech)
    ensures SetupKey(sid, tech.id) in KeySet(Generate(kb, f).edges)
  {
    SetupCandidates(kb, f);
    DedupKeySet(Candidates(kb, f));
    var edge := SetupEdge(sid, LookupTechnique(kb.techniques, sid).value, tech);
    assert edge in Candidates(kb, f);
  }

  /**
   * Edge keys in the graph are pairwise distinct, the edge kept for a key is
   * the first one written under it, and edges appear in the order of their
   * keys' first writes.
   */
  lemma EdgeMapSemantics(kb: KnowledgeBase, f: Filters)
    ensures var es := Generate(kb, f).edges;
      forall i, j :: 0 <= i < j < |es| ==> es[i].key != es[j].key
    ensures var c := Candidates(kb, f);
      forall x :: x in Generate(kb, f).edges ==>
        FirstIndexOf(c, Identity, x.key) < |c| && c[FirstIndexOf(c, Identity, x.key)] == x
    ensures var c := Candidates(kb, f); var es := Generate(kb, f).edges;
      forall i, j :: 0 <= i < j < |es| ==> FirstIndexOf(c, Identity, es[i].key) < FirstIndexOf(c, Identity, es[j].key)
  {
    var c := Candidates(kb, f);
    DedupByAddsNewIds(c, Identity, {});
    DedupKeepsFirst(c, Identity, {});
    DedupKeepsOrder(c, Identity, {});
  }

  /** Writing two key-disjoint batches keeps each batch's own first writes. */
  lemma DedupDisjointAppend(a: seq<Edge>, b: seq<Edge>)
    requires KeySet(a) !! KeySet(b)
    ensures Dedup(a + b) == Dedup(a) + Dedup(b)
  {
    DedupAppend(a, b, Identity, {});
    assert {} + KeySet(a) == KeySet(a);
    assert KeySet(a) * KeySet(b) == {} * KeySet(b);
    DedupIgnoresUnusedIds(b, Identity, KeySet(a), {});
  }

  /** In `a + b`, an `a` element is an outcome edge and a `b` element a setup edge. */
  lemma OutcomesThenSetups(a: seq<Edge>, b: seq<Edge>)
    requires forall e :: e in a ==> e.key.OutcomeKey?
    requires forall e :: e in b ==> e.key.SetupKey?
    ensures var es := a + b;
      forall i, j :: 0 <= i < j < |es| && es[i].key.SetupKey? ==> es[j].key.SetupKey?
  {
    var es := a + b;
    assert forall k :: 0 <= k < |a| ==> es[k] == a[k] && a[k] in a;
    assert forall k :: |a| <= k < |es| ==> es[k] == b[k - |a|] && b[k - |a|] in b;
  }

  /** All outcome edges come before all setup edges. */
  lemma OutcomeEdgesPrecedeSetupEdges(kb: KnowledgeBase, f: Filters)
    ensures Generate(kb, f).edges == Dedup(OutcomeCandidatesOf(kb, f)) + Dedup(SetupCandidatesOf(kb, f))
    ensures var es := Generate(kb, f).edges;
      forall i, j :: 0 <= i < j < |es| && es[i].key.SetupKey? ==> es[j].key.SetupKey?
  {
    var o := OutcomeCandidatesOf(kb, f);
    var s := SetupCandidatesOf(kb, f);
    CandidateKeyKinds(kb, f);
    DedupDisjointAppend(o, s);
    DedupKeySet(o);
    DedupKeySet(s);
    OutcomesThenSetups(Dedup(o), Dedup(s));
  }

  /** The setup edges among `es`, in order. */
  function SetupEdgesIn(es: seq<Edge>): (r: seq<Edge>)
    ensures forall e :: e in r <==> e in es && e.key.SetupKey?
  {
    if |es| == 0 then []
    else (if es[0].key.SetupKey? then [es[0]] else []) + SetupEdgesIn(es[1..])
  }

  lemma {:induction false} SetupEdgesInAppend(a: seq<Edge>, b: seq<Edge>)
    ensures SetupEdgesIn(a + b) == SetupEdgesIn(a) + SetupEdgesIn(b)
  {
    if |a| == 0 {
      assert a + b == b;
    } else {
      assert (a + b)[0] == a[0] && (a + b)[1..] == a[1..] + b;
      SetupEdgesInAppend(a[1..], b);
    }
  }

  lemma {:induction false} SetupEdgesInAllSetups(es: seq<Edge>)
    requires forall e :: e in es ==> e.key.SetupKey?
    ensures SetupEdgesIn(es) == es
  {
    if |es| > 0 {
      var h, t := es[0], es[1..];
      assert es == [h] + t;
      assert h in es;
      assert forall e :: e in t ==> e in es;
      SetupEdgesInAllSetups(t);
    }
  }

  lemma {:induction false} SetupEdgesInNoSetups(es: seq<Edge>)
    requires forall e :: e in es ==> e.key.OutcomeKey?
    ensures SetupEdgesIn(es) == []
  {
    if |es| > 0 {
      var h, t := es[0], es[1..];
      assert h in es;
      assert forall e :: e in t ==> e in es;
      SetupEdgesInNoSetups(t);
    }
  }

  /**
   * The setup edges of the graph, in order, depend on `showVariants` only:
   * the difficulty, applicability and type filters never add or remove one.
   */
  lemma SetupEdgesIgnoreTechniqueFilters(kb: KnowledgeBase, f1: Filters, f2: Filters)
    requires f1.showVariants == f2.showVariants
    ensures SetupEdgesIn(Generate(kb, f1).edges) == SetupEdgesIn(Generate(kb, f2).edges)
    ensures SetupEdgesIn(Generate(kb, f1).edges) == Dedup(SetupCandidatesOf(kb, f1))
  {
    KeptIdsOnlyDependOnShowVariants(kb.positions, f1, f2);
    assert SetupCandidatesOf(kb, f1) == SetupCandidatesOf(kb, f2);
    forall f | f == f1 || f == f2
      ensures SetupEdgesIn(Generate(kb, f).edges) == Dedup(SetupCandidatesOf(kb, f))
    {
      OutcomeEdgesPrecedeSetupEdges(kb, f);
      CandidateKeyKinds(kb, f);
      DedupKeySet(OutcomeCandidatesOf(kb, f));
      DedupKeySet(SetupCandidatesOf(kb, f));
      SetupEdgesInAppend(Dedup(OutcomeCandidatesOf(kb, f)), Dedup(SetupCandidatesOf(kb, f)));
      SetupEdgesInNoSetups(Dedup(OutcomeCandidatesOf(kb, f)));
      SetupEdgesInAllSetups(Dedup(SetupCandidatesOf(kb, f)));
    }
  }

  // ---------------------------------------------------------------------------
  // Filter asymmetries on the derived graph
  // ---------------------------------------------------------------------------

  /** A `Both` technique keeps its outcome edges under every applicability filter. */
  lemma BothTechniquesIgnoreApplicabilityFilter(kb: KnowledgeBase, f: Filters, a: ApplicabilityFilter,
                                                s: PositionId, tech: Technique, i: nat)
    requires OutcomeSource(kb, f, s, tech, i) && tech.applicability == Both
    ensures OutcomeKey(s, tech.id, tech.outcomes[i].endPositionId.value, i)
            in KeySet(Generate(kb, f.(applicability := a)).edges)
  {
    var f' := f.(applicability := a);
    KeptIdsOnlyDependOnShowVariants(kb.positions, f, f');
    assert OutcomeSource(kb, f', s, tech, i);
    OutcomeEdgeIff(kb, f', s, tech.id, tech.outcomes[i].endPositionId.value, i);
  }

  /** A positional technique keeps its outcome edges under every type filter. */
  lemma PositionalTechniquesIgnoreTypeFilter(kb: KnowledgeBase, f: Filters, tf: TypeFilter,
                                             s: PositionId, tech: Technique, i: nat)
    requires OutcomeSource(kb, f, s, tech, i) && IsPositional(tech.techniqueType)
    ensures OutcomeKey(s, tech.id, tech.outcomes[i].endPositionId.value, i)
            in KeySet(Generate(kb, f.(techniqueType := tf)).edges)
  {
    var f' := f.(techniqueType := tf);
    KeptIdsOnlyDependOnShowVariants(kb.positions, f, f');
    assert OutcomeSource(kb, f', s, tech, i);
    OutcomeEdgeIff(kb, f', s, tech.id, tech.outcomes[i].endPositionId.value, i);
  }

  // ---------------------------------------------------------------------------
  // One-step unfoldings, for computing the graph of a concrete knowledge base
  // ---------------------------------------------------------------------------

  lemma OneOutcome(start: PositionId, tech: Technique, inc: set<PositionId>)
    requires |tech.outcomes| == 1
    ensures OutcomeEdgesFrom(start, tech, inc, 0) ==
      if EmitsEdge(tech.outcomes[0], inc) then [OutcomeEdge(start, tech, 0)] else []
  {
  }

  lemma OneTechnique(kb: KnowledgeBase, f: Filters, start: PositionId, tid: TechniqueId, tech: Technique,
                     rest: seq<TechniqueId>, inc: set<PositionId>)
    requires LookupTechnique(kb.techniques, tid) == Some(tech)
    ensures TechniqueEdges(kb, f, start, [tid] + rest, inc) ==
      (if PassesFilters(tech, f) then OutcomeEdgesFrom(start, tech, inc, 0) else [])
      + TechniqueEdges(kb, f, start, rest, inc)
  {
    assert ([tid] + rest)[1..] == rest;
  }

  /** A position listing one technique with one outcome. */
  lemma OneListedTechnique(kb: KnowledgeBase, f: Filters, start: PositionId, p: Position, t: Technique,
                           inc: set<PositionId>)
    requires LookupPosition(kb.positions, start) == Some(p)
    requires |p.applicableTechniqueIds| == 1
    requires LookupTechnique(kb.techniques, p.applicableTechniqueIds[0]) == Some(t)
    requires |t.outcomes| == 1
    ensures PositionEdges(kb, f, start, inc) ==
      if PassesFilters(t, f) && EmitsEdge(t.outcomes[0], inc) then [OutcomeEdge(start, t, 0)] else []
  {
    var ids := p.applicableTechniqueIds;
    assert ids == [ids[0]] + [];
    OneTechnique(kb, f, start, ids[0], t, [], inc);
    OneOutcome(start, t, inc);
  }

  /** A position listing two techniques with one outcome each. */
  lemma TwoListedTechniques(kb: KnowledgeBase, f: Filters, start: PositionId, p: Position, t0: Technique,
                            t1: Technique, inc: set<PositionId>)
    requires LookupPosition(kb.positions, start) == Some(p)
    requires |p.applicableTechniqueIds| == 2
    requires LookupTechnique(kb.techniques, p.applicableTechniqueIds[0]) == Some(t0)
    requires LookupTechnique(kb.techniques, p.applicableTechniqueIds[1]) == Some(t1)
    requires |t0.outcomes| == 1 && |t1.outcomes| == 1
    ensures PositionEdges(kb, f, start, inc) ==
      (if PassesFilters(t0, f) && EmitsEdge(t0.outcomes[0], inc) then [OutcomeEdge(start, t0, 0)] else [])
      + (if PassesFilters(t1, f) && EmitsEdge(t1.outcomes[0], inc) then [OutcomeEdge(start, t1, 0)] else [])
  {
    var ids := p.applicableTechniqueIds;
    assert ids == [ids[0]] + ([ids[1]] + []);
    OneTechnique(kb, f, start, ids[0], t0, [ids[1]], inc);
    OneTechnique(kb, f, start, ids[1], t1, [], inc);
    OneOutcome(start, t0, inc);
    OneOutcome(start, t1, inc);
  }

  lemma ListedAt(kb: KnowledgeBase, f: Filters, start: PositionId, p: Position, inc: set<PositionId>)
    requires LookupPosition(kb.positions, start) == Some(p)
    ensures PositionEdges(kb, f, start, inc) == TechniqueEdges(kb, f, start, p.applicableTechniqueIds, inc)
  {
  }

  lemma OutcomePassCons(kb: KnowledgeBase, f: Filters, n: Node, rest: seq<Node>, inc: set<PositionId>)
    ensures OutcomePass(kb, f, [n] + rest, inc) == PositionEdges(kb, f, n.data.positionId, inc) + OutcomePass(kb, f, rest, inc)
  {
    assert ([n] + rest)[1..] == rest;
  }

  lemma SetupPassCons(kb: KnowledgeBase, e: TechniqueEntry, rest: seq<TechniqueEntry>, inc: set<PositionId>)
    ensures SetupPass(kb, [e] + rest, inc) ==
      SetupEdgesOf(kb, e.technique, e.technique.setupTechniqueIds, inc) + SetupPass(kb, rest, inc)
  {
    assert ([e] + rest)[1..] == rest;
  }

  lemma OneSetup(kb: KnowledgeBase, tech: Technique, sid: TechniqueId, st: Technique, inc: set<PositionId>)
    requires LookupTechnique(kb.techniques, sid) == Some(st)
    requires st.originPositionId in inc && tech.originPositionId in inc
    ensures SetupEdgesOf(kb, tech, [sid], inc) == [SetupEdge(sid, st, tech)]
  {
    assert [sid][1..] == [];
  }
}
