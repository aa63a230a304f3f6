/**
 * The string edge ids of `generateGraphElements`, and what keying the edge
 * map by them does.
 *
 * The source stores edges under the id
 * `${start}-via-${technique}-to-${end}-${index}` for an outcome edge and
 * `setup-${setup}-to-${technique}` for a setup edge. Position and technique
 * ids are free strings, so two different edges can render to the same id;
 * the map then keeps the first and silently drops the second. The rest of
 * the model keys the map by `EdgeKey`, the tuple the id is built from; this
 * module models the string keying as written, exhibits the collision, and
 * shows that both keyings agree whenever the rendered ids do not collide.
 */
module EdgeIds {
  import opened Wrappers
  import opened BjjTypes
  import opened KnowledgeGraph
  import opened EdgeMap
  import opened KnowledgeGraphProofs

  // ---------------------------------------------------------------------------
  // Rendering
  // ---------------------------------------------------------------------------

  predicate IsDigit(c: char) { '0' <= c <= '9' }

  function DigitChar(d: nat): (c: char)
    requires d < 10
    ensures IsDigit(c) && c as int - '0' as int == d
  {
    "0123456789"[d]
  }

  /** Template-literal rendering of a non-negative integer: its decimal digits, no leading zeros. */
  function NatToString(n: nat): (r: string)
    ensures |r| > 0 && forall i :: 0 <= i < |r| ==> IsDigit(r[i])
    ensures |r| > 1 ==> r[0] != '0'
    decreases n
  {
    if n < 10 then [DigitChar(n)] else NatToString(n / 10) + [DigitChar(n % 10)]
  }

  /** The value of a string of decimal digits. */
  function DecimalValue(s: string): (r: nat)
    requires forall i :: 0 <= i < |s| ==> IsDigit(s[i])
  {
    if |s| == 0 then 0
    else
      assert IsDigit(s[|s| - 1]);
      DecimalValue(s[..|s| - 1]) * 10 + (s[|s| - 1] as int - '0' as int)
  }

  /** Reading back the digits of `n` gives `n`: the rendering of indices loses nothing. */
  lemma {:induction false} NatToStringRoundTrip(n: nat)
    ensures DecimalValue(NatToString(n)) == n
    decreases n
  {
    var r := NatToString(n);
    if n >= 10 {
      NatToStringRoundTrip(n / 10);
      assert r[..|r| - 1] == NatToString(n / 10);
    }
  }

  /** The id under which the source stores an edge with key `k`. */
  function RenderEdgeId(k: EdgeKey): (r: string) {
    match k
    case OutcomeKey(s, t, e, i) => s + "-via-" + t + "-to-" + e + "-" + NatToString(i)
    case SetupKey(sid, tid) => "setup-" + sid + "-to-" + tid
  }

  // ---------------------------------------------------------------------------
  // The collisions
  // ---------------------------------------------------------------------------

  /** Two different outcome edges render to the same id. */
  lemma OutcomeIdsCollide()
    ensures OutcomeKey("a", "b-via-c", "e", 0) != OutcomeKey("a-via-b", "c", "e", 0)
    ensures RenderEdgeId(OutcomeKey("a", "b-via-c", "e", 0)) == RenderEdgeId(OutcomeKey("a-via-b", "c", "e", 0))
  {
    assert "a" + "-via-" + "b-via-c" == "a-via-b" + "-via-" + "c";
  }

  /** An outcome edge and a setup edge render to the same id. */
  lemma OutcomeAndSetupIdsCollide()
    ensures RenderEdgeId(OutcomeKey("setup-x", "t", "e", 0)) == RenderEdgeId(SetupKey("x-via-t", "e-0"))
  {
    assert NatToString(0) == "0";
    assert "setup-x" + "-via-" + "t" + "-to-" + "e" + "-" + "0" == "setup-" + "x-via-t" + "-to-" + "e-0";
  }

  // ---------------------------------------------------------------------------
  // The engine as written: the map keyed by rendered ids
  // ---------------------------------------------------------------------------

  /** `generateGraphElements` with the edge map keyed by the rendered string ids. */
  function GenerateAsWritten(kb: KnowledgeBase, f: Filters): (r: Graph)
    ensures r.nodes == Generate(kb, f).nodes
    ensures forall e :: e in r.edges ==> e in Candidates(kb, f)
    ensures forall i, j :: 0 <= i < j < |r.edges| ==> RenderEdgeId(r.edges[i].key) != RenderEdgeId(r.edges[j].key)
    ensures Ids(r.edges, RenderEdgeId) == Ids(Candidates(kb, f), RenderEdgeId)
  {
    var c := Candidates(kb, f);
    var es := DedupBy(c, RenderEdgeId, {});
    DedupByAddsNewIds(c, RenderEdgeId, {});
    assert Ids(c, RenderEdgeId) - {} == Ids(c, RenderEdgeId);
    assert forall e :: e in es ==> exists j :: 0 <= j < |es| && es[j] == e;
    Graph(NodePass(kb.positions, f), es)
  }

  /** `id` tells apart exactly the keys of `c` that differ. */
  ghost predicate SeparatesKeys<K>(c: seq<Edge>, id: EdgeKey -> K) {
    forall x, y :: x in c && y in c && id(x.key) == id(y.key) ==> x.key == y.key
  }

  /**
   * Keying the map by `id` or by the key itself gives the same output when
   * `id` separates the keys written so far (`p`) and still to be written (`c`).
   */
  lemma {:induction false} DedupBySeparatingId<K>(p: seq<Edge>, c: seq<Edge>, id: EdgeKey -> K)
    requires SeparatesKeys(p + c, id)
    ensures DedupBy(c, id, Ids(p, id)) == DedupBy(c, Identity, KeySet(p))
    decreases |c|
  {
    if |c| > 0 {
      var h, t := c[0], c[1..];
      assert c == [h] + t;
      SeparatedHead(p, c, id);
      if h.key in KeySet(p) {
        SkipCons(h, t, id, Ids(p, id));
        SkipCons(h, t, Identity, KeySet(p));
        SeparatesSubsequence(p + c, p + t, id);
        DedupBySeparatingId(p, t, id);
      } else {
        KeepCons(h, t, id, Ids(p, id));
        KeepCons(h, t, Identity, KeySet(p));
        assert (p + [h]) + t == p + c;
        DedupBySeparatingId(p + [h], t, id);
        IdsSnoc(p, h, id);
        IdsSnoc(p, h, Identity);
      }
    }
  }

  /** Under separation, the head of `c` has been written by id exactly when it has been by key. */
  lemma SeparatedHead<K>(p: seq<Edge>, c: seq<Edge>, id: EdgeKey -> K)
    requires |c| > 0 && SeparatesKeys(p + c, id)
    ensures id(c[0].key) in Ids(p, id) <==> c[0].key in KeySet(p)
  {
    var x := c[0];
    assert x in p + c;
    if id(x.key) in Ids(p, id) {
      var e :| e in p && id(e.key) == id(x.key);
      assert e in p + c;
      assert Identity(e.key) == x.key;
    }
  }

  lemma SeparatesSubsequence<K>(big: seq<Edge>, small: seq<Edge>, id: EdgeKey -> K)
    requires SeparatesKeys(big, id)
    requires forall e :: e in small ==> e in big
    ensures SeparatesKeys(small, id)
  {
  }

  lemma IdsSnoc<K>(p: seq<Edge>, x: Edge, id: EdgeKey -> K)
    ensures Ids(p + [x], id) == Ids(p, id) + {id(x.key)}
  {
    assert forall e :: e in p + [x] <==> e in p || e == x;
  }

  /** Where no two different edge keys render to one id, the as-written engine and the model agree. */
  lemma AsWrittenAgreesWithoutCollisions(kb: KnowledgeBase, f: Filters)
    requires SeparatesKeys(Candidates(kb, f), RenderEdgeId)
    ensures GenerateAsWritten(kb, f) == Generate(kb, f)
  {
    var c := Candidates(kb, f);
    assert [] + c == c;
    assert Ids([], RenderEdgeId) == {};
    assert KeySet([]) == {};
    DedupBySeparatingId([], c, RenderEdgeId);
  }

  /** Two writes under different ids both stay. */
  lemma DedupPairOfDistinctIds<K>(a: Edge, b: Edge, id: EdgeKey -> K)
    requires id(a.key) != id(b.key)
    ensures DedupBy([a] + [b], id, {}) == [a, b]
  {
    assert [a] + [b] == [a] + ([b] + []);
    KeepCons(a, [b], id, {});
    KeepCons(b, [], id, {} + {id(a.key)});
  }

  /** A second write under the same id is dropped. */
  lemma DedupPairOfEqualIds<K>(a: Edge, b: Edge, id: EdgeKey -> K)
    requires id(a.key) == id(b.key)
    ensures DedupBy([a] + [b], id, {}) == [a]
  {
    assert [a] + [b] == [a] + ([b] + []);
    KeepCons(a, [b], id, {});
    SkipCons(b, [], id, {} + {id(a.key)});
  }

  /** A single write stays. */
  lemma DedupSingle<K>(b: Edge, id: EdgeKey -> K)
    ensures DedupBy([] + [b], id, {}) == [b]
  {
    assert [] + [b] == [b] + [];
    KeepCons(b, [], id, {});
  }

  // ---------------------------------------------------------------------------
  // A knowledge base on which the collision drops an edge
  // ---------------------------------------------------------------------------

  function Move(id: TechniqueId, origin: PositionId, end: PositionId): (r: TechniqueEntry) {
    TechniqueEntry(id, Technique(id, id, Both, Beginner, Transition, origin,
                                 [TechniqueOutcome(PositionChange, Some(end), "")], []))
  }

  const CollidingPositions := [
    PositionEntry("a", Position("a", "A", None, None, ["b-via-c"])),
    PositionEntry("a-via-b", Position("a-via-b", "A via B", None, None, ["c"])),
    PositionEntry("e", Position("e", "E", None, None, []))]

  const CollidingTechniques := [Move("b-via-c", "a", "e"), Move("c", "a-via-b", "e")]

  const CollidingKb := KnowledgeBase(CollidingPositions, CollidingTechniques)

  const NoFilters := Filters(AllTypes, AllDifficulties, AllApplicabilities, true)

  const FirstEdge := OutcomeEdge("a", CollidingTechniques[0].technique, 0)
  const SecondEdge := OutcomeEdge("a-via-b", CollidingTechniques[1].technique, 0)

  const CollidingIncluded: set<PositionId> := {"a", "a-via-b", "e"}

  lemma CollidingNodes()
    ensures NodePass(CollidingPositions, NoFilters) ==
      [MakeNode(CollidingPositions[0].position), MakeNode(CollidingPositions[1].position),
       MakeNode(CollidingPositions[2].position)]
    ensures Included(CollidingKb, NoFilters) == CollidingIncluded
  {
    assert CollidingPositions[1..][1..][1..] == [];
  }

  lemma CollidingLookups()
    ensures LookupPosition(CollidingPositions, "a") == Some(CollidingPositions[0].position)
    ensures LookupPosition(CollidingPositions, "a-via-b") == Some(CollidingPositions[1].position)
    ensures LookupPosition(CollidingPositions, "e") == Some(CollidingPositions[2].position)
    ensures LookupTechnique(CollidingTechniques, "b-via-c") == Some(CollidingTechniques[0].technique)
    ensures LookupTechnique(CollidingTechniques, "c") == Some(CollidingTechniques[1].technique)
  {
  }

  lemma EdgesFromCollidingA()
    ensures PositionEdges(CollidingKb, NoFilters, "a", CollidingIncluded) == [FirstEdge]
  {
    CollidingLookups();
    OneListedTechnique(CollidingKb, NoFilters, "a", CollidingPositions[0].position,
                       CollidingTechniques[0].technique, CollidingIncluded);
  }

  lemma EdgesFromCollidingAB()
    ensures PositionEdges(CollidingKb, NoFilters, "a-via-b", CollidingIncluded) == [SecondEdge]
  {
    CollidingLookups();
    OneListedTechnique(CollidingKb, NoFilters, "a-via-b", CollidingPositions[1].position,
                       CollidingTechniques[1].technique, CollidingIncluded);
  }

  lemma EdgesFromCollidingE()
    ensures PositionEdges(CollidingKb, NoFilters, "e", CollidingIncluded) == []
  {
    CollidingLookups();
    ListedAt(CollidingKb, NoFilters, "e", CollidingPositions[2].position, CollidingIncluded);
  }

  lemma CollidingOutcomes()
    ensures OutcomePass(CollidingKb, NoFilters, NodePass(CollidingPositions, NoFilters), CollidingIncluded)
         == [FirstEdge, SecondEdge]
  {
    var inc := CollidingIncluded;
    var ps := CollidingPositions;
    CollidingNodes();
    EdgesFromCollidingA();
    EdgesFromCollidingAB();
    EdgesFromCollidingE();
    var n0, n1, n2 := MakeNode(ps[0].position), MakeNode(ps[1].position), MakeNode(ps[2].position);
    OutcomePassCons(CollidingKb, NoFilters, n2, [], inc);
    OutcomePassCons(CollidingKb, NoFilters, n1, [n2], inc);
    OutcomePassCons(CollidingKb, NoFilters, n0, [n1, n2], inc);
  }

  lemma CollidingSetups()
    ensures SetupPass(CollidingKb, CollidingTechniques, CollidingIncluded) == []
  {
    var ts := CollidingTechniques;
    assert ts == [ts[0]] + ([ts[1]] + []);
    SetupPassCons(CollidingKb, ts[1], [], CollidingIncluded);
    SetupPassCons(CollidingKb, ts[0], [ts[1]], CollidingIncluded);
  }

  lemma CollidingCandidates()
    ensures Candidates(CollidingKb, NoFilters) == [FirstEdge, SecondEdge]
  {
    CollidingNodes();
    CollidingOutcomes();
    CollidingSetups();
  }

  /** As written, the second edge shares the first one's id and is dropped. */
  lemma AsWrittenDropsCollidingEdge()
    ensures GenerateAsWritten(CollidingKb, NoFilters).edges == [FirstEdge]
    ensures SecondEdge !in GenerateAsWritten(CollidingKb, NoFilters).edges
  {
    CollidingCandidates();
    OutcomeIdsCollide();
    assert [FirstEdge, SecondEdge] == [FirstEdge] + [SecondEdge];
    DedupPairOfEqualIds(FirstEdge, SecondEdge, RenderEdgeId);
  }

  /** Keyed by the edge tuple, both edges are drawn. */
  lemma ModelKeepsBothEdges()
    ensures Generate(CollidingKb, NoFilters).edges == [FirstEdge, SecondEdge]
  {
    CollidingCandidates();
    OutcomeIdsCollide();
    assert [FirstEdge, SecondEdge] == [FirstEdge] + [SecondEdge];
    DedupPairOfDistinctIds(FirstEdge, SecondEdge, Identity);
  }

  // ---------------------------------------------------------------------------
  // A knowledge base on which an outcome edge shadows a setup edge
  // ---------------------------------------------------------------------------

  const ShadowPositions := [
    PositionEntry("setup-x", Position("setup-x", "Setup X", None, None, ["t"])),
    PositionEntry("e", Position("e", "E", None, None, []))]

  /**
   * `t` moves from "setup-x" to "e" and is the only listed technique; it is
   * Advanced, so a Beginner filter hides it. `e-0` is set up by `x-via-t`.
   */
  const ShadowTechniques := [
    TechniqueEntry("t", Technique("t", "t", Both, Advanced, Transition, "setup-x",
                                  [TechniqueOutcome(PositionChange, Some("e"), "")], [])),
    TechniqueEntry("x-via-t", Technique("x-via-t", "x-via-t", Both, Beginner, Transition, "setup-x", [], [])),
    TechniqueEntry("e-0", Technique("e-0", "e-0", Both, Beginner, Transition, "e", [], ["x-via-t"]))]

  const ShadowKb := KnowledgeBase(ShadowPositions, ShadowTechniques)

  const BeginnerOnly := NoFilters.(difficulty := OnlyDifficulty(Beginner))

  const ShadowIncluded: set<PositionId> := {"setup-x", "e"}

  /** The outcome edge "setup-x-via-t-to-e-0". */
  const ShadowingEdge := OutcomeEdge("setup-x", ShadowTechniques[0].technique, 0)

  /** The setup edge "setup-x-via-t-to-e-0". */
  const ShadowedEdge := SetupEdge("x-via-t", ShadowTechniques[1].technique, ShadowTechniques[2].technique)

  lemma ShadowNodes(f: Filters)
    requires f.showVariants
    ensures NodePass(ShadowPositions, f) ==
      [MakeNode(ShadowPositions[0].position), MakeNode(ShadowPositions[1].position)]
    ensures Included(ShadowKb, f) == ShadowIncluded
  {
    var ps := ShadowPositions;
    assert ps[1..][1..] == [];
    assert NodePass(ps[1..], f) == [MakeNode(ps[1].position)];
    assert KeptIds(ps[1..], f) == {"e"};
  }

  lemma ShadowLookups()
    ensures LookupPosition(ShadowPositions, "setup-x") == Some(ShadowPositions[0].position)
    ensures LookupPosition(ShadowPositions, "e") == Some(ShadowPositions[1].position)
    ensures LookupTechnique(ShadowTechniques, "t") == Some(ShadowTechniques[0].technique)
    ensures LookupTechnique(ShadowTechniques, "x-via-t") == Some(ShadowTechniques[1].technique)
  {
  }

  lemma ShadowOutcomes(f: Filters)
    requires f.showVariants
    ensures OutcomePass(ShadowKb, f, NodePass(ShadowPositions, f), ShadowIncluded)
         == if PassesFilters(ShadowTechniques[0].technique, f) then [ShadowingEdge] else []
  {
    var ps := ShadowPositions;
    var inc := ShadowIncluded;
    ShadowNodes(f);
    ShadowLookups();
    OneListedTechnique(ShadowKb, f, "setup-x", ps[0].position, ShadowTechniques[0].technique, inc);
    ListedAt(ShadowKb, f, "e", ps[1].position, inc);
    var n0, n1 := MakeNode(ps[0].position), MakeNode(ps[1].position);
    OutcomePassCons(ShadowKb, f, n1, [], inc);
    OutcomePassCons(ShadowKb, f, n0, [n1], inc);
  }

  lemma ShadowSetups()
    ensures SetupPass(ShadowKb, ShadowTechniques, ShadowIncluded) == [ShadowedEdge]
  {
    var ts := ShadowTechniques;
    assert ts == [ts[0]] + ([ts[1]] + ([ts[2]] + []));
    SetupPassCons(ShadowKb, ts[2], [], ShadowIncluded);
    SetupPassCons(ShadowKb, ts[1], [ts[2]], ShadowIncluded);
    SetupPassCons(ShadowKb, ts[0], [ts[1], ts[2]], ShadowIncluded);
    ShadowLookups();
    OneSetup(ShadowKb, ts[2].technique, "x-via-t", ts[1].technique, ShadowIncluded);
  }

  lemma ShadowCandidates(f: Filters)
    requires f.showVariants
    ensures Candidates(ShadowKb, f) ==
      (if PassesFilters(ShadowTechniques[0].technique, f) then [ShadowingEdge] else []) + [ShadowedEdge]
  {
    ShadowNodes(f);
    ShadowOutcomes(f);
    ShadowSetups();
  }

  /** As written, the setup edge shares the outcome edge's id and is dropped. */
  lemma AsWrittenShadowsSetupEdge()
    ensures GenerateAsWritten(ShadowKb, NoFilters).edges == [ShadowingEdge]
  {
    ShadowCandidates(NoFilters);
    assert PassesFilters(ShadowTechniques[0].technique, NoFilters);
    OutcomeAndSetupIdsCollide();
    DedupPairOfEqualIds(ShadowingEdge, ShadowedEdge, RenderEdgeId);
  }

  /** As written, hiding the outcome edge's technique lets the setup edge through. */
  lemma AsWrittenDrawsSetupEdgeWhenOutcomeHidden()
    ensures GenerateAsWritten(ShadowKb, BeginnerOnly).edges == [ShadowedEdge]
  {
    ShadowCandidates(BeginnerOnly);
    assert !PassesFilters(ShadowTechniques[0].technique, BeginnerOnly);
    DedupSingle(ShadowedEdge, RenderEdgeId);
  }

  /**
   * As written, a difficulty filter decides whether a setup edge is drawn:
   * the setup edge is missing under no filter and present under a Beginner filter.
   */
  lemma AsWrittenSetupEdgeDependsOnFilters()
    ensures ShadowedEdge !in GenerateAsWritten(ShadowKb, NoFilters).edges
    ensures ShadowedEdge in GenerateAsWritten(ShadowKb, BeginnerOnly).edges
  {
    AsWrittenShadowsSetupEdge();
    AsWrittenDrawsSetupEdgeWhenOutcomeHidden();
    assert ShadowingEdge.key.OutcomeKey? && ShadowedEdge.key.SetupKey?;
  }

  /** Keyed by the edge tuple, both edges are drawn under no filter. */
  lemma ModelDrawsBothShadowEdges()
    ensures Generate(ShadowKb, NoFilters).edges == [ShadowingEdge, ShadowedEdge]
  {
    ShadowCandidates(NoFilters);
    assert PassesFilters(ShadowTechniques[0].technique, NoFilters);
    DedupPairOfDistinctIds(ShadowingEdge, ShadowedEdge, Identity);
  }

  /** Keyed by the edge tuple, the Beginner filter leaves only the setup edge. */
  lemma ModelDrawsSetupEdgeWhenOutcomeHidden()
    ensures Generate(ShadowKb, BeginnerOnly).edges == [ShadowedEdge]
  {
    ShadowCandidates(BeginnerOnly);
    assert !PassesFilters(ShadowTechniques[0].technique, BeginnerOnly);
    DedupSingle(ShadowedEdge, Identity);
  }

  /** Keyed by the edge tuple, the setup edge is drawn under both filter settings. */
  lemma ModelKeepsShadowedSetupEdge()
    ensures ShadowedEdge in Generate(ShadowKb, NoFilters).edges
    ensures ShadowedEdge in Generate(ShadowKb, BeginnerOnly).edges
    ensures ShadowingEdge in Generate(ShadowKb, NoFilters).edges
  {
    ModelDrawsBothShadowEdges();
    ModelDrawsSetupEdgeWhenOutcomeHidden();
  }
}
