/**
 * The knowledge-base entities and the graph elements the derivation engine
 * produces, after `src/types/bjj.ts`. Identifiers are plain strings; the
 * knowledge base is two ordered sequences of keyed entries, because the
 * engine iterates its records in insertion order and looks entries up by key.
 */
module BjjTypes {
  import opened Wrappers

  type PositionId = string
  type TechniqueId = string

  datatype Applicability = Gi | NoGi | Both

  datatype Difficulty = Beginner | Intermediate | Advanced

  datatype TechniqueType =
    | Submission | Sweep | Escape | Transition
    | Control | Takedown | GuardPass | GuardRecovery

  datatype OutcomeKind =
    | PositionChange | SubmissionOutcome | ControlChange | Reset | Failure | Countered

  datatype Advantage = Dominant | Advantageous | Neutral | Disadvantageous | Inferior

  /** One possible result of a technique; `endPositionId` is absent for terminal results. */
  datatype TechniqueOutcome = TechniqueOutcome(
    kind: OutcomeKind,
    endPositionId: Option<PositionId>,
    description: string)

  /**
   * A position. An absent `applicableTechniqueIds` list is represented by the
   * empty sequence: the engine treats the two alike.
   */
  datatype Position = Position(
    id: PositionId,
    name: string,
    isVariant: Option<bool>,
    advantage: Option<Advantage>,
    applicableTechniqueIds: seq<TechniqueId>)

  /** A technique; an absent `setupTechniqueIds` list is the empty sequence. */
  datatype Technique = Technique(
    id: TechniqueId,
    name: string,
    applicability: Applicability,
    difficulty: Difficulty,
    techniqueType: TechniqueType,
    originPositionId: PositionId,
    outcomes: seq<TechniqueOutcome>,
    setupTechniqueIds: seq<TechniqueId>)

  datatype PositionEntry = PositionEntry(key: PositionId, position: Position)
  datatype TechniqueEntry = TechniqueEntry(key: TechniqueId, technique: Technique)

  /** Two records, each an ordered sequence of (key, value) entries. */
  datatype KnowledgeBase = KnowledgeBase(
    positions: seq<PositionEntry>,
    techniques: seq<TechniqueEntry>)

  /** JavaScript truthiness of an optional boolean: only `true` is truthy. */
  function Truthy(b: Option<bool>): (r: bool)
    ensures r <==> b == Some(true)
  {
    b.Some? && b.value
  }

  /** `knowledgeBase.positions[key]`: the value of the first entry with that key. */
  function LookupPosition(entries: seq<PositionEntry>, key: PositionId): (r: Option<Position>) {
    if |entries| == 0 then None
    else if entries[0].key == key then Some(entries[0].position)
    else LookupPosition(entries[1..], key)
  }

  /** `knowledgeBase.techniques[key]`: the value of the first entry with that key. */
  function LookupTechnique(entries: seq<TechniqueEntry>, key: TechniqueId): (r: Option<Technique>) {
    if |entries| == 0 then None
    else if entries[0].key == key then Some(entries[0].technique)
    else LookupTechnique(entries[1..], key)
  }

  /** A position lookup fails exactly when no entry has the key, and otherwise finds the first such entry. */
  lemma {:induction false} LookupPositionFindsFirst(entries: seq<PositionEntry>, key: PositionId)
    ensures LookupPosition(entries, key).None? <==> forall j :: 0 <= j < |entries| ==> entries[j].key != key
    ensures LookupPosition(entries, key).Some? ==>
      exists j :: 0 <= j < |entries| && entries[j] == PositionEntry(key, LookupPosition(entries, key).value)
                  && forall k :: 0 <= k < j ==> entries[k].key != key
  {
    if |entries| > 0 && entries[0].key != key {
      var tail := entries[1..];
      LookupPositionFindsFirst(tail, key);
      assert forall j :: 1 <= j < |entries| ==> entries[j] == tail[j - 1];
      if LookupPosition(tail, key).Some? {
        var j :| 0 <= j < |tail| && tail[j] == PositionEntry(key, LookupPosition(tail, key).value)
                 && forall k :: 0 <= k < j ==> tail[k].key != key;
        assert entries[j + 1] == tail[j];
      }
    }
  }

  /** A technique lookup fails exactly when no entry has the key, and otherwise finds the first such entry. */
  lemma {:induction false} LookupTechniqueFindsFirst(entries: seq<TechniqueEntry>, key: TechniqueId)
    ensures LookupTechnique(entries, key).None? <==> forall j :: 0 <= j < |entries| ==> entries[j].key != key
    ensures LookupTechnique(entries, key).Some? ==>
      exists j :: 0 <= j < |entries| && entries[j] == TechniqueEntry(key, LookupTechnique(entries, key).value)
                  && forall k :: 0 <= k < j ==> entries[k].key != key
  {
    if |entries| > 0 && entries[0].key != key {
      var tail := entries[1..];
      LookupTechniqueFindsFirst(tail, key);
      assert forall j :: 1 <= j < |entries| ==> entries[j] == tail[j - 1];
      if LookupTechnique(tail, key).Some? {
        var j :| 0 <= j < |tail| && tail[j] == TechniqueEntry(key, LookupTechnique(tail, key).value)
                 && forall k :: 0 <= k < j ==> tail[k].key != key;
        assert entries[j + 1] == tail[j];
      }
    }
  }

  /** A point on the canvas. Coordinates are only copied, never computed. */
  datatype Point = Point(x: int, y: int)

  /** The size hint the engine attaches to a node. */
  datatype NodeStyle = NodeStyle(width: int, height: int, fontSize: string)

  /** `PositionNodeData`; `labelText` is the source's `label` (a reserved word here). */
  datatype PositionNodeData = PositionNodeData(
    labelText: string,
    positionId: PositionId,
    advantage: Option<Advantage>,
    isVariant: Option<bool>)

  /** A graph node; `position` is optional because the layout adapter reads it defensively. */
  datatype Node = Node(
    id: PositionId,
    nodeType: string,
    position: Option<Point>,
    data: PositionNodeData,
    style: NodeStyle)

  /**
   * The identity of an edge: an outcome edge is identified by its start
   * position, technique, end position and outcome index; a setup edge by the
   * setup technique and the technique it sets up.
   */
  datatype EdgeKey =
    | OutcomeKey(start: PositionId, tech: TechniqueId, end: PositionId, idx: nat)
    | SetupKey(setup: TechniqueId, target: TechniqueId)

  /** `TechniqueEdgeData`; `isSetupEdge` false stands for the absent flag. */
  datatype TechniqueEdgeData = TechniqueEdgeData(
    techniqueId: TechniqueId,
    techniqueType: TechniqueType,
    labelText: string,
    isSetupEdge: bool)

  datatype Edge = Edge(
    key: EdgeKey,
    source: PositionId,
    target: PositionId,
    data: TechniqueEdgeData)
}
