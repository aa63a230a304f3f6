/**
 * The small knowledge base of `src/utils/knowledgeGraph.test.ts` and the
 * graphs the engine derives from it under the filter settings used there.
 */
module Fixture {
  import opened Wrappers
  import opened BjjTypes
  import opened KnowledgeGraph
  import opened EdgeMap
  import opened KnowledgeGraphProofs

  function Pos(id: PositionId, name: string, isVariant: Option<bool>, techs: seq<TechniqueId>): (r: PositionEntry) {
    PositionEntry(id, Position(id, name, isVariant, None, techs))
  }

  function Tech(id: TechniqueId, name: string, origin: PositionId, tt: TechniqueType, d: Difficulty,
                a: Applicability, outcomes: seq<TechniqueOutcome>, setups: seq<TechniqueId>): (r: TechniqueEntry) {
    TechniqueEntry(id, Technique(id, name, a, d, tt, origin, outcomes, setups))
  }

  function MoveTo(end: PositionId, description: string): (r: TechniqueOutcome) {
    TechniqueOutcome(PositionChange, Some(end), description)
  }

  const Positions := [
    Pos("pos-a", "Position A", None, ["tech-a1", "tech-a2"]),
    Pos("pos-b", "Position B", None, ["tech-b1"]),
    Pos("pos-c", "Position C", None, ["tech-c1"]),
    Pos("pos-variant", "Position Variant", Some(true), ["tech-v1"])]

  const Techniques := [
    Tech("tech-a1", "Tech A1", "pos-a", Transition, Beginner, Both, [MoveTo("pos-b", "Move to B")], []),
    Tech("tech-a2", "Tech A2", "pos-a", Submission, Advanced, Gi,
         [TechniqueOutcome(SubmissionOutcome, None, "Submit")], []),
    Tech("tech-b1", "Tech B1", "pos-b", Transition, Beginner, Both, [MoveTo("pos-variant", "Move to Variant")], []),
    Tech("tech-c1", "Tech C1", "pos-c", Transition, Beginner, Both, [MoveTo("pos-a", "Move to A")], ["tech-a1"]),
    Tech("tech-v1", "Tech V1", "pos-variant", Transition, Beginner, Both, [MoveTo("pos-a", "Move to A")], [])]

  const Kb := KnowledgeBase(Positions, Techniques)

  const DefaultFilters := Filters(AllTypes, AllDifficulties, AllApplicabilities, true)

  function OutcomeEdgeOf(start: PositionId, tech: TechniqueId, name: string, end: PositionId): (r: Edge) {
    Edge(OutcomeKey(start, tech, end, 0), start, end, TechniqueEdgeData(tech, Transition, name, false))
  }

  const SetupA1C1 :=
    Edge(SetupKey("tech-a1", "tech-c1"), "pos-a", "pos-c", TechniqueEdgeData("tech-a1", Transition, "Setup: Tech A1", true))

  const AllPositions: set<PositionId> := {"pos-a", "pos-b", "pos-c", "pos-variant"}

  lemma PositionLookups()
    ensures LookupPosition(Positions, "pos-a") == Some(Positions[0].position)
    ensures LookupPosition(Positions, "pos-b") == Some(Positions[1].position)
    ensures LookupPosition(Positions, "pos-c") == Some(Positions[2].position)
    ensures LookupPosition(Positions, "pos-variant") == Some(Positions[3].position)
  {
    assert Positions[1..][1..][1..][0].key == "pos-variant";
  }

  lemma LookupA1() ensures LookupTechnique(Techniques, "tech-a1") == Some(Techniques[0].technique) {}
  lemma LookupA2() ensures LookupTechnique(Techniques, "tech-a2") == Some(Techniques[1].technique) {}
  lemma LookupB1() ensures LookupTechnique(Techniques, "tech-b1") == Some(Techniques[2].technique) {}
  lemma LookupC1() ensures LookupTechnique(Techniques, "tech-c1") == Some(Techniques[3].technique) {}
  lemma LookupV1() ensures LookupTechnique(Techniques, "tech-v1") == Some(Techniques[4].technique) {}

  lemma DefaultNodes()
    ensures NodePass(Positions, DefaultFilters) ==
      [MakeNode(Positions[0].position), MakeNode(Positions[1].position),
       MakeNode(Positions[2].position), MakeNode(Positions[3].position)]
    ensures KeptIds(Positions, DefaultFilters) == AllPositions
  {
    assert Positions[1..][1..][1..][1..] == [];
  }

  lemma EdgesFromA()
    ensures PositionEdges(Kb, DefaultFilters, "pos-a", AllPositions) == [OutcomeEdgeOf("pos-a", "tech-a1", "Tech A1", "pos-b")]
  {
    PositionLookups();
    LookupA1();
    LookupA2();
    TwoListedTechniques(Kb, DefaultFilters, "pos-a", Positions[0].position, Techniques[0].technique,
                        Techniques[1].technique, AllPositions);
  }

  lemma EdgesFromB()
    ensures PositionEdges(Kb, DefaultFilters, "pos-b", AllPositions) == [OutcomeEdgeOf("pos-b", "tech-b1", "Tech B1", "pos-variant")]
  {
    PositionLookups();
    LookupB1();
    OneListedTechnique(Kb, DefaultFilters, "pos-b", Positions[1].position, Techniques[2].technique, AllPositions);
  }

  lemma EdgesFromC()
    ensures PositionEdges(Kb, DefaultFilters, "pos-c", AllPositions) == [OutcomeEdgeOf("pos-c", "tech-c1", "Tech C1", "pos-a")]
  {
    PositionLookups();
    LookupC1();
    OneListedTechnique(Kb, DefaultFilters, "pos-c", Positions[2].position, Techniques[3].technique, AllPositions);
  }

  lemma EdgesFromVariant()
    ensures PositionEdges(Kb, DefaultFilters, "pos-variant", AllPositions) == [OutcomeEdgeOf("pos-variant", "tech-v1", "Tech V1", "pos-a")]
  {
    PositionLookups();
    LookupV1();
    OneListedTechnique(Kb, DefaultFilters, "pos-variant", Positions[3].position, Techniques[4].technique, AllPositions);
  }

  const DefaultNodeList := [MakeNode(Positions[0].position), MakeNode(Positions[1].position),
                            MakeNode(Positions[2].position), MakeNode(Positions[3].position)]

  const DefaultOutcomeEdges := [
    OutcomeEdgeOf("pos-a", "tech-a1", "Tech A1", "pos-b"),
    OutcomeEdgeOf("pos-b", "tech-b1", "Tech B1", "pos-variant"),
    OutcomeEdgeOf("pos-c", "tech-c1", "Tech C1", "pos-a"),
    OutcomeEdgeOf("pos-variant", "tech-v1", "Tech V1", "pos-a")]

  /** The outcome pass over four nodes whose positions yield one edge each. */
  lemma OneEdgeEach(kb: KnowledgeBase, f: Filters, n0: Node, n1: Node, n2: Node, n3: Node, inc: set<PositionId>,
                    e0: Edge, e1: Edge, e2: Edge, e3: Edge)
    requires PositionEdges(kb, f, n0.data.positionId, inc) == [e0]
    requires PositionEdges(kb, f, n1.data.positionId, inc) == [e1]
    requires PositionEdges(kb, f, n2.data.positionId, inc) == [e2]
    requires PositionEdges(kb, f, n3.data.positionId, inc) == [e3]
    ensures OutcomePass(kb, f, [n0, n1, n2, n3], inc) == [e0, e1, e2, e3]
  {
    OutcomePassCons(kb, f, n3, [], inc);
    OutcomePassCons(kb, f, n2, [n3], inc);
    OutcomePassCons(kb, f, n1, [n2, n3], inc);
    OutcomePassCons(kb, f, n0, [n1, n2, n3], inc);
  }

  lemma DefaultOutcomePass()
    ensures OutcomePass(Kb, DefaultFilters, DefaultNodeList, AllPositions) == DefaultOutcomeEdges
  {
    var ns := DefaultNodeList;
    var es := DefaultOutcomeEdges;
    EdgesFromA();
    EdgesFromB();
    EdgesFromC();
    EdgesFromVariant();
    OneEdgeEach(Kb, DefaultFilters, ns[0], ns[1], ns[2], ns[3], AllPositions, es[0], es[1], es[2], es[3]);
    assert ns == [ns[0], ns[1], ns[2], ns[3]];
    assert es == [es[0], es[1], es[2], es[3]];
  }

  lemma DefaultSetupPass()
    ensures SetupPass(Kb, Techniques, AllPositions) == [SetupA1C1]
  {
    var ts := Techniques;
    assert ts == [ts[0]] + ([ts[1]] + ([ts[2]] + ([ts[3]] + ([ts[4]] + []))));
    SetupPassCons(Kb, ts[4], [], AllPositions);
    SetupPassCons(Kb, ts[3], [ts[4]], AllPositions);
    SetupPassCons(Kb, ts[2], [ts[3], ts[4]], AllPositions);
    SetupPassCons(Kb, ts[1], [ts[2], ts[3], ts[4]], AllPositions);
    SetupPassCons(Kb, ts[0], [ts[1], ts[2], ts[3], ts[4]], AllPositions);
    LookupA1();
    OneSetup(Kb, ts[3].technique, "tech-a1", ts[0].technique, AllPositions);
    assert "Setup: " + "Tech A1" == "Setup: Tech A1";
    assert SetupEdge("tech-a1", ts[0].technique, ts[3].technique) == SetupA1C1;
    assert ts[3].technique.setupTechniqueIds == ["tech-a1"];
    assert SetupPass(Kb, [], AllPositions) == [];
  }

  lemma DefaultCandidates()
    ensures Candidates(Kb, DefaultFilters) == DefaultOutcomeEdges + [SetupA1C1]
  {
    DefaultNodes();
    DefaultOutcomePass();
    DefaultSetupPass();
  }

  lemma DefaultKeysAreDistinct()
    ensures var c := DefaultOutcomeEdges + [SetupA1C1];
      forall i, j :: 0 <= i < j < |c| ==> Identity(c[i].key) != Identity(c[j].key)
  {
  }

  /** With every filter at `'all'` the graph has all four nodes and five edges, outcome edges first. */
  lemma DefaultGraph()
    ensures Generate(Kb, DefaultFilters) == Graph(DefaultNodeList, DefaultOutcomeEdges + [SetupA1C1])
  {
    DefaultNodes();
    DefaultCandidates();
    DefaultKeysAreDistinct();
    DedupOfDistinctIds(DefaultOutcomeEdges + [SetupA1C1], Identity, {});
  }

  lemma DefaultEdgesNameNoSubmission()
    ensures forall e :: e in DefaultOutcomeEdges + [SetupA1C1] ==> e.data.techniqueId != "tech-a2"
  {
  }

  /** The submission of tech-a2 has no end position, so no edge names it. */
  lemma SubmissionYieldsNoEdge()
    ensures forall e :: e in Generate(Kb, DefaultFilters).edges ==> e.data.techniqueId != "tech-a2"
  {
    DefaultGraph();
    DefaultEdgesNameNoSubmission();
  }

  const HiddenVariants := DefaultFilters.(showVariants := false)

  const HiddenNodeList := [MakeNode(Positions[0].position), MakeNode(Positions[1].position), MakeNode(Positions[2].position)]

  lemma HiddenNodes()
    ensures NodePass(Positions, HiddenVariants) == HiddenNodeList
    ensures KeptIds(Positions, HiddenVariants) == {"pos-a", "pos-b", "pos-c"}
  {
    assert Positions[1..][1..][1..][1..] == [];
  }

  lemma HiddenNodeIds()
    ensures forall n :: n in HiddenNodeList ==> n.id != "pos-variant"
  {
  }

  /** Hiding variants drops pos-variant and, with it, the edge from pos-b into it. */
  lemma HiddenVariantGraph()
    ensures Generate(Kb, HiddenVariants).nodes == HiddenNodeList
    ensures forall n :: n in Generate(Kb, HiddenVariants).nodes ==> n.id != "pos-variant"
    ensures forall e :: e in Generate(Kb, HiddenVariants).edges ==> !(e.source == "pos-b" && e.target == "pos-variant")
  {
    HiddenNodes();
    HiddenNodeIds();
    var inc: set<PositionId> := {"pos-a", "pos-b", "pos-c"};
    assert "pos-variant" !in inc;
    HiddenPositionHasNoEdge(Kb, HiddenVariants, "pos-variant");
  }

  lemma SourcesUnder(f: Filters)
    requires f.showVariants
    requires PassesFilters(Techniques[0].technique, f) && PassesFilters(Techniques[3].technique, f)
    ensures OutcomeSource(Kb, f, "pos-a", Techniques[0].technique, 0)
    ensures OutcomeSource(Kb, f, "pos-c", Techniques[3].technique, 0)
  {
    DefaultNodes();
    KeptIdsOnlyDependOnShowVariants(Kb.positions, f, DefaultFilters);
    PositionLookups();
    LookupA1();
    LookupC1();
    assert "tech-a1" in Positions[0].position.applicableTechniqueIds;
    assert "tech-c1" in Positions[2].position.applicableTechniqueIds;
  }

  /** The setup edge from tech-a1 survives every filter that shows variants. */
  lemma SetupEdgeUnder(f: Filters)
    requires f.showVariants
    ensures SetupA1C1 in Generate(Kb, f).edges
  {
    SetupEdgesIgnoreTechniqueFilters(Kb, f, DefaultFilters);
    DefaultGraph();
    assert SetupA1C1 in DefaultOutcomeEdges + [SetupA1C1];
  }

  /**
   * Under any filters that show variants and let tech-a1 and tech-c1
   * through, the graph keeps the outcome edges of both and the setup edge
   * from tech-a1.
   */
  lemma KeptEdgesUnder(f: Filters)
    requires f.showVariants
    requires PassesFilters(Techniques[0].technique, f) && PassesFilters(Techniques[3].technique, f)
    ensures exists e :: e in Generate(Kb, f).edges && e.source == "pos-a" && e.target == "pos-b"
                        && e.data.techniqueId == "tech-a1" && !e.data.isSetupEdge
    ensures exists e :: e in Generate(Kb, f).edges && e.data.techniqueId == "tech-c1" && !e.data.isSetupEdge
    ensures SetupA1C1 in Generate(Kb, f).edges
  {
    SourcesUnder(f);
    OutcomeSourceYieldsEdge(Kb, f, "pos-a", Techniques[0].technique, 0);
    OutcomeSourceYieldsEdge(Kb, f, "pos-c", Techniques[3].technique, 0);
    SetupEdgeUnder(f);
  }

  lemma TransitionTypeFilter()
    ensures var f := DefaultFilters.(techniqueType := OnlyType(Transition));
      && (exists e :: e in Generate(Kb, f).edges && e.data.techniqueId == "tech-a1")
      && (exists e :: e in Generate(Kb, f).edges && e.data.techniqueId == "tech-c1" && !e.data.isSetupEdge)
  {
    KeptEdgesUnder(DefaultFilters.(techniqueType := OnlyType(Transition)));
  }

  /** Filtering by Submission does not hide the Transition techniques. */
  lemma SubmissionTypeFilter()
    ensures var f := DefaultFilters.(techniqueType := OnlyType(Submission));
      && (exists e :: e in Generate(Kb, f).edges && e.data.techniqueId == "tech-a1" && !e.data.isSetupEdge)
      && (exists e :: e in Generate(Kb, f).edges && e.data.techniqueId == "tech-c1" && !e.data.isSetupEdge)
      && (exists e :: e in Generate(Kb, f).edges && e.data.techniqueId == "tech-a1" && e.data.isSetupEdge)
  {
    KeptEdgesUnder(DefaultFilters.(techniqueType := OnlyType(Submission)));
  }

  lemma BeginnerDifficultyFilter()
    ensures var f := DefaultFilters.(difficulty := OnlyDifficulty(Beginner));
      && (exists e :: e in Generate(Kb, f).edges && e.data.techniqueId == "tech-a1")
      && (exists e :: e in Generate(Kb, f).edges && e.data.techniqueId == "tech-c1" && !e.data.isSetupEdge)
      && (exists e :: e in Generate(Kb, f).edges && e.data.isSetupEdge && e.data.techniqueId == "tech-a1")
  {
    KeptEdgesUnder(DefaultFilters.(difficulty := OnlyDifficulty(Beginner)));
  }

  /** Filtering by NoGi keeps the Both techniques. */
  lemma NoGiApplicabilityFilter()
    ensures var f := DefaultFilters.(applicability := OnlyApplicability(NoGi));
      && (exists e :: e in Generate(Kb, f).edges && e.data.techniqueId == "tech-a1")
      && (exists e :: e in Generate(Kb, f).edges && e.data.techniqueId == "tech-c1" && !e.data.isSetupEdge)
      && (exists e :: e in Generate(Kb, f).edges && e.data.isSetupEdge && e.data.techniqueId == "tech-a1")
  {
    KeptEdgesUnder(DefaultFilters.(applicability := OnlyApplicability(NoGi)));
  }
}
