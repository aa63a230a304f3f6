# GrappleGraph graph derivation, modelled in Dafny

This project models the graph-derivation engine of GrappleGraph and the layout adapter that follows it.

- **`generateGraphElements`** (`src/utils/knowledgeGraph.ts`) turns a knowledge base of Brazilian Jiu-Jitsu positions and techniques into nodes and edges for a React Flow graph.
  - **Nodes.** It makes one node per position. When variants are hidden, variant positions get no node.
  - **Outcome edges.** A technique listed at a kept position yields one edge per outcome that ends on a kept position. The technique must also pass the difficulty, applicability and type filters.
  - **Setup edges.** A setup link yields an edge from the setup technique's origin to the technique's origin, when both origins are kept.
  - **Collection.** All edges go into one id-keyed map. The first write for an id wins, and the map's values are read back in insertion order.
- **`getLayoutedElements`** (`src/utils/graphLayout.ts`) builds a request for the layout engine: one sized box per node and one arc per edge.
  - It copies the engine's coordinates back onto the nodes. A missing coordinate falls back to the node's previous one, then to 0.
  - When the engine fails, it returns its input unchanged.

Modules:

- `Wrappers`: `Option`.
- `BjjTypes`: the records of `src/types/bjj.ts`.
  - A `Record` keyed by id is a sequence of (key, value) entries in insertion order.
  - Lookup returns the first entry with the key, or `None`.
- `KnowledgeGraph`: the engine.
  - The node pass, the three technique filters, the outcome-edge pass, the setup-edge pass and the map.
  - The map is `DedupBy`, generic in the identity it keys edges by. The engine keys by `EdgeKey`, the tuple each edge id is built from.
- `EdgeMap`: what the first-writer-wins map guarantees. Also `CollectEdges`, a loop with a finite map that mirrors the source's `Map`.
- `KnowledgeGraphProofs`: what the derived graph contains.
  - Which nodes it has, and in which order.
  - Exactly which outcome and setup edges it has, as if-and-only-if statements.
  - Which filter can remove which edge.
  - Ordering and deduplication.
- `GraphLayout`, `GraphLayoutProofs`: the layout adapter. The layout engine is a function parameter from request to answer.
- `Fixture`: the mock knowledge base of `src/utils/knowledgeGraph.test.ts` and the graphs derived from it under that file's filter settings.
- `EdgeIds`: the string edge ids the source actually uses, and the collisions they allow (see Findings).

## Model

| member | source | states |
|---|---|---|
| BjjTypes.Truthy | src/utils/knowledgeGraph.ts:53 | The optional variant flag counts as set exactly when it is present and true; absent and false behave alike. |
| BjjTypes.LookupPositionFindsFirst | src/utils/knowledgeGraph.ts:85 | Looking up a position id gives `None` exactly when no entry has that key. Otherwise it gives the value of the first entry with that key. |
| BjjTypes.LookupTechniqueFindsFirst | src/utils/knowledgeGraph.ts:89 | Looking up a technique id gives `None` exactly when no entry has that key. Otherwise it gives the value of the first entry with that key. |
| KnowledgeGraph.DedupByAddsNewIds | src/utils/knowledgeGraph.ts:113-127 | Every edge the map keeps was written and its id was not already present. Kept ids are pairwise distinct. The kept ids are exactly the written ids minus those already present. |
| EdgeMap.DedupKeepsFirst | src/utils/knowledgeGraph.ts:113-127 | The edge kept for an id is the first edge written under that id: first writer wins, never overwritten. |
| EdgeMap.DedupKeepsOrder | src/utils/knowledgeGraph.ts:173 | Kept edges appear in the order their ids were first written, as `Map` iteration does. |
| EdgeMap.DedupAppend | src/utils/knowledgeGraph.ts:48-173 | Writing two batches into one map is writing the first, then the second into the map the first left behind. |
| EdgeMap.DedupOfDistinctIds | src/utils/knowledgeGraph.ts:113 | When no id repeats and none is already present, the map keeps every written edge, in order. |
| EdgeMap.CollectEdges | src/utils/knowledgeGraph.ts:113-127 | The `has`-guarded `set` loop over a finite map, read back in insertion order, returns exactly the first-write-per-key sequence. |
| KnowledgeGraphProofs.NodesAreShownPositionsInOrder | src/utils/knowledgeGraph.ts:52-78 | There is an increasing list of knowledge-base indices such that node i is built from the i-th listed position. The listed positions are exactly the shown ones: all of them, or all non-variants when variants are hidden. |
| KnowledgeGraphProofs.NodesDescribeShownPositions | src/utils/knowledgeGraph.ts:52-77 | Every node describes a shown position. Its id, type, origin placement, data and size are all copied from that position. |
| KnowledgeGraphProofs.ShownPositionsHaveNodes | src/utils/knowledgeGraph.ts:52-77 | Every shown position is described by some node. |
| KnowledgeGraphProofs.NodeIdsAreIncluded | src/utils/knowledgeGraph.ts:56-77 | The set of node ids equals `includedPositions`. So does the set of start ids the outcome pass walks. |
| KnowledgeGraphProofs.KeptIdsOnlyDependOnShowVariants | src/utils/knowledgeGraph.ts:52-56 | Two filter settings with the same `showVariants` keep the same positions and build the same nodes. |
| KnowledgeGraphProofs.TypeFilterRemovesOnlySubmissionsAndControls | src/utils/knowledgeGraph.ts:99-105 | The type filter rejects a technique exactly when a single type is selected and the technique is a Submission or Control of a different type. |
| KnowledgeGraphProofs.OutcomeEdgesFromSound | src/utils/knowledgeGraph.ts:108-128 | Every edge from one technique's outcomes comes from an outcome that ends on a kept position. |
| KnowledgeGraphProofs.OutcomeEdgesFromComplete | src/utils/knowledgeGraph.ts:108-128 | Every outcome of the technique that ends on a kept position yields its edge. |
| KnowledgeGraphProofs.OutcomeWithoutEndYieldsNoEdge | src/utils/knowledgeGraph.ts:109 | An outcome whose end position is absent or the empty string yields no edge. |
| KnowledgeGraphProofs.TechniqueEdgesSound | src/utils/knowledgeGraph.ts:88-105 | Every edge from a listed id comes from an id that resolves to a technique. That technique passes the filters and has an emitting outcome. |
| KnowledgeGraphProofs.TechniqueEdgesComplete | src/utils/knowledgeGraph.ts:88-105 | Every emitting outcome of a resolving, filter-passing listed technique yields its edge. |
| KnowledgeGraphProofs.OutcomePassSound | src/utils/knowledgeGraph.ts:83-88 | Every outcome-pass edge starts at a node's position, and that position lists the technique that emits it. |
| KnowledgeGraphProofs.OutcomePassComplete | src/utils/knowledgeGraph.ts:83-88 | Every such (start, technique, outcome) yields its edge in the outcome pass. |
| KnowledgeGraphProofs.OutcomeCandidates | src/utils/knowledgeGraph.ts:83-134 | The outcome pass emits exactly the edges of the outcome sources. An outcome source is: a kept start that lists a filter-passing technique whose outcome ends on a kept position. |
| KnowledgeGraphProofs.SetupEdgesOfSound | src/utils/knowledgeGraph.ts:140-166 | Every setup edge of a technique comes from a listed setup id that resolves. Both origins of that edge are kept. |
| KnowledgeGraphProofs.SetupEdgesOfComplete | src/utils/knowledgeGraph.ts:140-166 | Every listed setup id that resolves, with both origins kept, yields its setup edge. |
| KnowledgeGraphProofs.SetupPassSound | src/utils/knowledgeGraph.ts:138-139 | Every setup-pass edge comes from a knowledge-base technique and one of its listed setups. |
| KnowledgeGraphProofs.SetupPassComplete | src/utils/knowledgeGraph.ts:138-139 | Every setup link of a knowledge-base technique that resolves, with both origins kept, yields its edge. |
| KnowledgeGraphProofs.DanglingTechniqueIdIsSkipped | src/utils/knowledgeGraph.ts:89-90 | A listed technique id that resolves to nothing can be removed without changing the edges. |
| KnowledgeGraphProofs.DanglingSetupIdIsSkipped | src/utils/knowledgeGraph.ts:141-142 | A setup id that resolves to nothing can be removed without changing the edges. |
| KnowledgeGraphProofs.SetupCandidates | src/utils/knowledgeGraph.ts:136-171 | The setup pass emits exactly the edges of the setup sources. The technique filters play no part. |
| KnowledgeGraphProofs.CandidateKeyKinds | src/utils/knowledgeGraph.ts:112-146 | Outcome candidates carry outcome keys and setup candidates carry setup keys. So the two passes never share a key. |
| KnowledgeGraphProofs.DedupKeySet | src/utils/knowledgeGraph.ts:173 | The map holds exactly the keys written into it, and only written edges. |
| KnowledgeGraphProofs.EveryEdgeHasASource | src/utils/knowledgeGraph.ts:111-159 | Every edge joins two kept positions. Each edge is the edge of an outcome source or of a setup source, according to its key. |
| KnowledgeGraphProofs.HiddenPositionHasNoEdge | src/utils/knowledgeGraph.ts:111-145 | A position that is not kept is neither source nor target of any edge. |
| KnowledgeGraphProofs.EdgeDataMatchesKey | src/utils/knowledgeGraph.ts:115-159 | An outcome edge runs from its key's start to its key's end, names the key's technique, and has no setup flag. A setup edge names the setup technique and carries the setup flag. |
| KnowledgeGraphProofs.OutcomeEdgeIff | src/utils/knowledgeGraph.ts:88-127 | The graph has an outcome edge keyed (start, technique, end, index) if and only if that outcome is an outcome source ending on that end. |
| KnowledgeGraphProofs.OutcomeSourceYieldsEdge | src/utils/knowledgeGraph.ts:108-128 | Every outcome source is drawn: some edge in the graph has its key, its endpoints and its technique id, and no setup flag. |
| KnowledgeGraphProofs.SetupEdgeIff | src/utils/knowledgeGraph.ts:138-166 | The graph has a setup edge keyed (setup, technique) if and only if some knowledge-base technique with that id lists a setup that resolves and has both origins kept. |
| KnowledgeGraphProofs.EdgeMapSemantics | src/utils/knowledgeGraph.ts:113-173 | In the derived graph, edge keys are pairwise distinct. Each kept edge is the first candidate written under its key. Edges are ordered by first write. |
| KnowledgeGraphProofs.DedupDisjointAppend | src/utils/knowledgeGraph.ts:112-173 | Two batches with disjoint key sets deduplicate independently. |
| KnowledgeGraphProofs.OutcomesThenSetups | src/utils/knowledgeGraph.ts:81-173 | In a batch of outcome edges followed by a batch of setup edges, no outcome edge follows a setup edge. |
| KnowledgeGraphProofs.OutcomeEdgesPrecedeSetupEdges | src/utils/knowledgeGraph.ts:81-173 | The graph's edges are the deduplicated outcome edges followed by the deduplicated setup edges. No outcome edge follows a setup edge. |
| KnowledgeGraphProofs.SetupEdgesIgnoreTechniqueFilters | src/utils/knowledgeGraph.ts:136-171 | The setup edges of the graph, in order, are the same for any two filter settings that agree on `showVariants`. |
| KnowledgeGraphProofs.BothTechniquesIgnoreApplicabilityFilter | src/utils/knowledgeGraph.ts:94-98 | An outcome edge of a `Both` technique survives every applicability filter. |
| KnowledgeGraphProofs.PositionalTechniquesIgnoreTypeFilter | src/utils/knowledgeGraph.ts:99-105 | An outcome edge of a positional technique survives every type filter. The positional types are Sweep, Escape, Transition, Takedown, GuardPass and GuardRecovery. |
| GraphLayout.BuildRequest | src/utils/graphLayout.ts:31-48 | The request has id "root" and the fixed force-layout options. It has one box per node, in order, sized 150 or 180 wide by 60 from the node's variant flag. It has one arc per edge, from the edge's source to its target. |
| GraphLayout.FindBox | src/utils/graphLayout.ts:54 | `None` exactly when no placed box has the id. Otherwise, the first placed box with the id. |
| GraphLayout.Layout | src/utils/graphLayout.ts:24-73 | Edges pass through unchanged. Each node keeps every field except its position. On failure, the nodes come back unchanged. On success, each coordinate is the engine's, else the node's previous one, else 0. |
| GraphLayoutProofs.LayoutIgnoresDirection | src/utils/graphLayout.ts:27-28 | The direction argument changes nothing. |
| GraphLayoutProofs.PlacedNodeHasSameBox | src/utils/graphLayout.ts:53-61 | Placing a node leaves its requested box unchanged. |
| GraphLayoutProofs.RelayoutSendsSameRequest | src/utils/graphLayout.ts:31-63 | Laying out an already laid-out graph sends the engine the same request. |
| GraphLayoutProofs.LayoutIsIdempotent | src/utils/graphLayout.ts:53-63 | For a deterministic engine, laying out a laid-out graph again returns it unchanged. |
| GraphLayoutProofs.BoxMatchesNodeStyle | src/utils/graphLayout.ts:31-35 | The box requested for an engine node has the width and height the engine put in the node's style. |
| GraphLayoutProofs.ArcsJoinRequestedBoxes | src/utils/graphLayout.ts:31-41 | When every edge joins two nodes, every arc joins two requested boxes. |
| GraphLayoutProofs.BoxesFollowStyles | src/utils/graphLayout.ts:31-35 | When each node's box matches its style, the request's boxes are the nodes' styles, in order. |
| GraphLayoutProofs.DerivedBoxesMatchNodeStyles | src/utils/graphLayout.ts:31-35 | For a derived graph, box i of the request has node i's id and style size. |
| GraphLayoutProofs.DerivedArcsJoinRequestedBoxes | src/utils/graphLayout.ts:37-41 | For a derived graph, no arc names a node the engine was not asked to place. |
| Fixture.DefaultNodes | src/utils/knowledgeGraph.test.ts:70-75 | With variants shown, the mock knowledge base gives four nodes: pos-a, pos-b, pos-c and pos-variant, in that order. |
| Fixture.DefaultGraph | src/utils/knowledgeGraph.test.ts:77-96 | With every filter at 'all', the graph has the four nodes and five edges. The edges are pos-a to pos-b via tech-a1, pos-b to pos-variant, pos-c to pos-a, pos-variant to pos-a, and the setup edge pos-a to pos-c labelled "Setup: Tech A1". |
| Fixture.SubmissionYieldsNoEdge | src/utils/knowledgeGraph.test.ts:84-88 | No edge names tech-a2, whose only outcome is a submission. |
| Fixture.HiddenVariantGraph | src/utils/knowledgeGraph.test.ts:62-103 | Hiding variants leaves the three nodes pos-a, pos-b and pos-c, and no edge from pos-b to pos-variant. |
| Fixture.KeptEdgesUnder | src/utils/knowledgeGraph.test.ts:105-134 | Under any filters that show variants and let tech-a1 and tech-c1 through, the pos-a to pos-b outcome edge, a tech-c1 outcome edge and the tech-a1 setup edge all remain. |
| Fixture.TransitionTypeFilter | src/utils/knowledgeGraph.test.ts:105-110 | Filtering by Transition keeps a tech-a1 edge and a tech-c1 outcome edge. |
| Fixture.SubmissionTypeFilter | src/utils/knowledgeGraph.test.ts:112-118 | Filtering by Submission keeps the transition outcome edges of tech-a1 and tech-c1, and the tech-a1 setup edge. |
| Fixture.BeginnerDifficultyFilter | src/utils/knowledgeGraph.test.ts:120-126 | Filtering by Beginner keeps the tech-a1 and tech-c1 outcome edges and the tech-a1 setup edge. |
| Fixture.NoGiApplicabilityFilter | src/utils/knowledgeGraph.test.ts:128-134 | Filtering by NoGi keeps the `Both` techniques' edges and the tech-a1 setup edge. |
| EdgeIds.NatToString | src/utils/knowledgeGraph.ts:112 | An outcome index renders as a non-empty string of decimal digits without a leading zero. |
| EdgeIds.NatToStringRoundTrip | src/utils/knowledgeGraph.ts:112 | Reading the rendered digits back gives the index: rendering loses nothing. |
| EdgeIds.OutcomeIdsCollide | src/utils/knowledgeGraph.ts:112 | Two different outcome keys render to the same string id. |
| EdgeIds.OutcomeAndSetupIdsCollide | src/utils/knowledgeGraph.ts:112-146 | An outcome key and a setup key render to the same string id. |
| EdgeIds.GenerateAsWritten | src/utils/knowledgeGraph.ts:112-147 | With the map keyed by the rendered strings: the nodes are the model's, every edge is a candidate, rendered ids are pairwise distinct, and the set of rendered ids equals the candidates'. |
| EdgeIds.DedupBySeparatingId | src/utils/knowledgeGraph.ts:113 | Keying the map by an identity that tells every two different keys apart gives the same output as keying by the key. |
| EdgeIds.AsWrittenAgreesWithoutCollisions | src/utils/knowledgeGraph.ts:112-147 | On any knowledge base whose candidate keys render to distinct ids, the string-keyed engine and the model give the same graph. |
| EdgeIds.AsWrittenDropsCollidingEdge | src/utils/knowledgeGraph.ts:112-113 | On a three-position knowledge base, the string-keyed engine keeps only the first of two distinct outcome edges and drops the second. |
| EdgeIds.ModelKeepsBothEdges | src/utils/knowledgeGraph.ts:108-128 | On the same knowledge base, the tuple-keyed engine draws both edges. |
| EdgeIds.DedupPairOfDistinctIds | src/utils/knowledgeGraph.ts:113-127 | Two writes under different ids are both kept, in order. |
| EdgeIds.DedupPairOfEqualIds | src/utils/knowledgeGraph.ts:113-127 | A second write under an id already present is dropped and the first stays. |
| EdgeIds.AsWrittenShadowsSetupEdge | src/utils/knowledgeGraph.ts:112-147 | On a knowledge base where an outcome edge renders as "setup-x-via-t-to-e-0", as the setup edge from `x-via-t` into `e-0` also does, the string-keyed engine draws only the outcome edge. |
| EdgeIds.AsWrittenDrawsSetupEdgeWhenOutcomeHidden | src/utils/knowledgeGraph.ts:92-147 | On the same knowledge base, once a Beginner difficulty filter hides the outcome edge's Advanced technique, the string-keyed engine draws the setup edge. |
| EdgeIds.AsWrittenSetupEdgeDependsOnFilters | src/utils/knowledgeGraph.ts:92-147 | As written, whether that setup edge is drawn depends on a technique filter: missing with no filter, present under the Beginner filter. |
| EdgeIds.ModelDrawsBothShadowEdges | src/utils/knowledgeGraph.ts:108-166 | With no filter, the tuple-keyed engine draws the outcome edge and then the setup edge. |
| EdgeIds.ModelDrawsSetupEdgeWhenOutcomeHidden | src/utils/knowledgeGraph.ts:92-166 | Under the Beginner filter, the tuple-keyed engine draws only the setup edge. |
| EdgeIds.ModelKeepsShadowedSetupEdge | src/utils/knowledgeGraph.ts:136-171 | The tuple-keyed engine draws the setup edge under both filter settings, and the outcome edge when no filter hides it. |

## Left out

- Console logging (`console.log`, `console.error`) has no effect on the result and is not modelled.
- The layout engine's internals are left out. It is a function parameter, and a rejected promise is its `Fail` answer.
- `async`/`await` is not modelled; the adapter is a pure function of the engine's answer.
- `techniqueTypeColors` and the commented-out edge styling are unused by the returned value.
- Only the fields declared in `BjjTypes.Position`, `BjjTypes.Technique` and `BjjTypes.TechniqueOutcome` are modelled; the engine reads no other field. Left out of positions: `description`, `aliases`, `parentPositionId`, `variantIds`, `media`, `inversePositionId`. Left out of techniques: `description`, `aliases`, `counteredByTechniqueIds`, `followUpTechniqueIds`, `media`, `steps`, `notes`. Left out of outcomes: `likelihood`, `counteredByTechniqueId`.
- `Object.values` lists integer-like keys first, in numeric order. Keys inherited from a prototype are also not modelled. Entries are taken in insertion order, which is what the knowledge base's string ids give.
- `BjjTypes.LookupPositionFindsFirst`: JavaScript records have unique keys. The model allows repeated keys and takes the first, so on well-formed data the two agree.
- `BjjTypes.LookupTechniqueFindsFirst`: the same first-match choice for technique records, which agrees with record indexing whenever keys are unique.
- Coordinates are integers; the floating-point values the layout engine may return are not modelled.
- An absent `applicableTechniqueIds` or `setupTechniqueIds` is modelled as the empty list, which the code treats identically.
- An outcome edge's absent `isSetupEdge` is modelled as `false`. Every use in the source reads it as a truth value, where the two behave alike.
- `advantage` is modelled as the optional five-way union `BjjTypes.Advantage` both on positions and in node data, and copied unchanged. Node data declares the field as a plain `string`, but the engine only ever stores a position's union value there.
- The `direction` argument is an enumeration of its two allowed values.
- The main model keys the map by `EdgeKey`, the tuple each id is rendered from, and not by the string. `EdgeIds` models the string keying as written; see Findings.
- The knowledge-base data file `src/data/bjj_knowledge_base.ts` is not part of this model. Only the test file's mock knowledge base is modelled (`Fixture`).
- The UI files (`src/app`, `src/components`) and `src/types/user.ts` are not part of this model.
- Outcome ids and setup ids share one string namespace and can collide (`EdgeIds.OutcomeAndSetupIdsCollide`). Only `EdgeIds.GenerateAsWritten` follows the code here. `Generate` keys the map by `EdgeKey`, where outcome and setup keys never meet (`KnowledgeGraphProofs.CandidateKeyKinds`).
- `KnowledgeGraphProofs.SetupEdgesIgnoreTechniqueFilters`, `KnowledgeGraphProofs.SetupCandidates`, `KnowledgeGraphProofs.SetupEdgeIff` and `KnowledgeGraphProofs.OutcomeEdgesPrecedeSetupEdges` are stated for the tuple-keyed map. They carry over to the string-keyed code only when the candidate ids render distinctly (`EdgeIds.AsWrittenAgreesWithoutCollisions`). As written, a colliding outcome edge can hide a setup edge, and then a technique filter decides whether the setup edge is drawn (`EdgeIds.AsWrittenSetupEdgeDependsOnFilters`).

## Findings

| source | as written | input that shows it | evidently intended | confidence | as-written member | corrected member |
|---|---|---|---|---|---|---|
| src/utils/knowledgeGraph.ts:112 | The edge id joins start, technique id, end and index with hyphens, and `edgeSet.has(edgeId)` skips an edge whose id is already present. Ids are free strings, so two different edges can share an id. | Position "a" lists technique "b-via-c" and position "a-via-b" lists technique "c", both moving to "e". Both edges get the id "a-via-b-via-c-to-e-0", and the second is dropped. | One edge per distinct (start, technique, end, outcome index). | low, not executed | EdgeIds.AsWrittenDropsCollidingEdge | EdgeIds.ModelKeepsBothEdges |
| src/utils/knowledgeGraph.ts:146 | The setup edge id `setup-${setupTechId}-to-${technique.id}` lives in the same map as the outcome ids, and `edgeSet.has(edgeId)` skips a setup edge whose id an outcome edge already took. | Position "setup-x" lists technique "t" (Advanced) moving to "e"; technique "e-0" lists setup "x-via-t". The outcome id and the setup id are both "setup-x-via-t-to-e-0", so the setup edge is dropped with no filter and drawn under a Beginner difficulty filter. | Setup edges depend on no technique filter, and each outcome and setup link gets its own edge. | low, not executed | EdgeIds.AsWrittenSetupEdgeDependsOnFilters | EdgeIds.ModelKeepsShadowedSetupEdge |
