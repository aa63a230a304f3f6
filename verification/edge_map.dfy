/**
 * Properties of the id-keyed edge map of `generateGraphElements`: ids in the
 * output are distinct, the first write for an id is the one kept, and the
 * output lists edges in the order their ids were first written.
 */
module EdgeMap {
  import opened BjjTypes
  import opened KnowledgeGraph

  /** The edge kept for an id is the first one written under it. */
  lemma {:induction false} DedupKeepsFirst<K>(c: seq<Edge>, id: EdgeKey -> K, seen: set<K>)
    ensures forall x :: x in DedupBy(c, id, seen) ==>
      FirstIndexOf(c, id, id(x.key)) < |c| && c[FirstIndexOf(c, id, id(x.key))] == x
  {
    if |c| > 0 {
      var tail := c[1..];
      DedupByAddsNewIds(c, id, seen);
      assert forall j :: 1 <= j < |c| ==> c[j] == tail[j - 1];
      if id(c[0].key) in seen {
        DedupKeepsFirst(tail, id, seen);
        DedupByAddsNewIds(tail, id, seen);
        forall x | x in DedupBy(c, id, seen)
          ensures FirstIndexOf(c, id, id(x.key)) < |c| && c[FirstIndexOf(c, id, id(x.key))] == x
        {
          assert x in DedupBy(tail, id, seen);
          assert id(x.key) != id(c[0].key);
        }
      } else {
        var s' := seen + {id(c[0].key)};
        DedupKeepsFirst(tail, id, s');
        DedupByAddsNewIds(tail, id, s');
        forall x | x in DedupBy(c, id, seen)
          ensures FirstIndexOf(c, id, id(x.key)) < |c| && c[FirstIndexOf(c, id, id(x.key))] == x
        {
          if x != c[0] {
            assert x in DedupBy(tail, id, s');
            assert id(x.key) != id(c[0].key);
          }
        }
      }
    }
  }

  /** When no id repeats and none is already present, every write lands: the map keeps `c` as it is. */
  lemma {:induction false} DedupOfDistinctIds<K>(c: seq<Edge>, id: EdgeKey -> K, seen: set<K>)
    requires forall i, j :: 0 <= i < j < |c| ==> id(c[i].key) != id(c[j].key)
    requires forall j :: 0 <= j < |c| ==> id(c[j].key) !in seen
    ensures DedupBy(c, id, seen) == c
  {
    if |c| > 0 {
      var tail := c[1..];
      assert forall j :: 0 <= j < |tail| ==> tail[j] == c[j + 1];
      DedupOfDistinctIds(tail, id, seen + {id(c[0].key)});
      assert c == [c[0]] + tail;
    }
  }

  /** Past an edge stored under another id, the first index under `k` moves by one. */
  lemma FirstIndexPastHead<K>(c: seq<Edge>, id: EdgeKey -> K, k: K)
    requires |c| > 0 && id(c[0].key) != k
    ensures FirstIndexOf(c, id, k) == 1 + FirstIndexOf(c[1..], id, k)
  {
  }

  /** The edges of `r` appear in the order their ids were first written in `c`. */
  ghost predicate InFirstWriteOrder<K>(c: seq<Edge>, id: EdgeKey -> K, r: seq<Edge>) {
    forall i, j :: 0 <= i < j < |r| ==>
      FirstIndexOf(c, id, id(r[i].key)) < FirstIndexOf(c, id, id(r[j].key))
  }

  lemma OrderPastHead<K>(c: seq<Edge>, id: EdgeKey -> K, r: seq<Edge>)
    requires |c| > 0
    requires forall j :: 0 <= j < |r| ==> id(r[j].key) != id(c[0].key)
    requires InFirstWriteOrder(c[1..], id, r)
    ensures InFirstWriteOrder(c, id, r)
    ensures InFirstWriteOrder(c, id, [c[0]] + r)
  {
    forall j | 0 <= j < |r|
      ensures FirstIndexOf(c, id, id(r[j].key)) == 1 + FirstIndexOf(c[1..], id, id(r[j].key))
    {
      FirstIndexPastHead(c, id, id(r[j].key));
    }
    var r' := [c[0]] + r;
    forall i, j | 0 <= i < j < |r'|
      ensures FirstIndexOf(c, id, id(r'[i].key)) < FirstIndexOf(c, id, id(r'[j].key))
    {
      assert r'[j] == r[j - 1];
      if i > 0 {
        assert r'[i] == r[i - 1];
      }
    }
  }

  /** The output lists edges in the order their ids were first written. */
  lemma {:induction false} DedupKeepsOrder<K>(c: seq<Edge>, id: EdgeKey -> K, seen: set<K>)
    ensures InFirstWriteOrder(c, id, DedupBy(c, id, seen))
  {
    if |c| > 0 {
      var tail := c[1..];
      if id(c[0].key) in seen {
        DedupKeepsOrder(tail, id, seen);
        DedupByAddsNewIds(tail, id, seen);
        OrderPastHead(c, id, DedupBy(tail, id, seen));
      } else {
        var s' := seen + {id(c[0].key)};
        DedupKeepsOrder(tail, id, s');
        DedupByAddsNewIds(tail, id, s');
        OrderPastHead(c, id, DedupBy(tail, id, s'));
      }
    }
  }

  /** Writing `a` then `b` is writing `a`, then `b` into the map `a` left behind. */
  lemma {:induction false} DedupAppend<K>(a: seq<Edge>, b: seq<Edge>, id: EdgeKey -> K, seen: set<K>)
    ensures DedupBy(a + b, id, seen) == DedupBy(a, id, seen) + DedupBy(b, id, seen + Ids(a, id))
  {
    if |a| == 0 {
      assert a + b == b;
      assert seen + Ids(a, id) == seen;
    } else {
      var h, t := a[0], a[1..];
      var after := seen + Ids(a, id);
      assert a == [h] + t;
      assert a + b == [h] + t + b;
      IdsOfCons(a, id);
      if id(h.key) in seen {
        assert seen + Ids(t, id) == after;
        DedupAppend(t, b, id, seen);
        AppendSkipStep(h, t, b, id, seen, after);
      } else {
        assert seen + {id(h.key)} + Ids(t, id) == after;
        DedupAppend(t, b, id, seen + {id(h.key)});
        AppendKeepStep(h, t, b, id, seen, after);
      }
    }
  }

  /** The step of `DedupAppend` when the head `h` is already in the map. */
  lemma AppendSkipStep<K>(h: Edge, t: seq<Edge>, b: seq<Edge>, id: EdgeKey -> K, seen: set<K>, after: set<K>)
    requires id(h.key) in seen
    requires DedupBy(t + b, id, seen) == DedupBy(t, id, seen) + DedupBy(b, id, after)
    ensures DedupBy([h] + t + b, id, seen) == DedupBy([h] + t, id, seen) + DedupBy(b, id, after)
  {
    assert [h] + t + b == [h] + (t + b);
    SkipCons(h, t + b, id, seen);
    SkipCons(h, t, id, seen);
  }

  /** The step of `DedupAppend` when the head `h` is new to the map. */
  lemma AppendKeepStep<K>(h: Edge, t: seq<Edge>, b: seq<Edge>, id: EdgeKey -> K, seen: set<K>, after: set<K>)
    requires id(h.key) !in seen
    requires var s' := seen + {id(h.key)};
      DedupBy(t + b, id, s') == DedupBy(t, id, s') + DedupBy(b, id, after)
    ensures DedupBy([h] + t + b, id, seen) == DedupBy([h] + t, id, seen) + DedupBy(b, id, after)
  {
    var s' := seen + {id(h.key)};
    assert [h] + t + b == [h] + (t + b);
    KeepCons(h, t + b, id, seen);
    KeepCons(h, t, id, seen);
    var x := DedupBy(t, id, s');
    var y := DedupBy(b, id, after);
    assert [h] + (x + y) == ([h] + x) + y;
  }

  lemma SkipCons<K>(h: Edge, rest: seq<Edge>, id: EdgeKey -> K, seen: set<K>)
    requires id(h.key) in seen
    ensures DedupBy([h] + rest, id, seen) == DedupBy(rest, id, seen)
  {
    assert ([h] + rest)[1..] == rest;
  }

  lemma KeepCons<K>(h: Edge, rest: seq<Edge>, id: EdgeKey -> K, seen: set<K>)
    requires id(h.key) !in seen
    ensures DedupBy([h] + rest, id, seen) == [h] + DedupBy(rest, id, seen + {id(h.key)})
  {
    assert ([h] + rest)[1..] == rest;
  }

  /** Ids already in the map that no edge of `c` uses do not change what `c` adds. */
  lemma {:induction false} DedupIgnoresUnusedIds<K>(c: seq<Edge>, id: EdgeKey -> K, s1: set<K>, s2: set<K>)
    requires s1 * Ids(c, id) == s2 * Ids(c, id)
    ensures DedupBy(c, id, s1) == DedupBy(c, id, s2)
  {
    if |c| > 0 {
      var k := id(c[0].key);
      var tail := c[1..];
      assert c == [c[0]] + tail;
      assert Ids(c, id) == {k} + Ids(tail, id);
      assert k in s1 * Ids(c, id) <==> k in s2 * Ids(c, id);
      assert k in s1 <==> k in s2;
      if k in s1 {
        assert s1 * Ids(tail, id) == s2 * Ids(tail, id) by {
          forall x | x in Ids(tail, id) ensures x in s1 <==> x in s2 {
            assert x in s1 * Ids(c, id) <==> x in s2 * Ids(c, id);
          }
        }
        DedupIgnoresUnusedIds(tail, id, s1, s2);
      } else {
        assert (s1 + {k}) * Ids(tail, id) == (s2 + {k}) * Ids(tail, id) by {
          forall x | x in Ids(tail, id) ensures x in s1 + {k} <==> x in s2 + {k} {
            assert x in s1 * Ids(c, id) <==> x in s2 * Ids(c, id);
          }
        }
        DedupIgnoresUnusedIds(tail, id, s1 + {k}, s2 + {k});
      }
    }
  }

  /**
   * The map-based collection of the source: `edgeSet.has` guards each write,
   * `edgeSet.set` records the first edge for a key, and `Array.from(edgeSet.values())`
   * reads the entries back in insertion order. It computes `Dedup`.
   */
  method CollectEdges(candidates: seq<Edge>) returns (edges: seq<Edge>)
    ensures edges == Dedup(candidates)
  {
    var edgeSet: map<EdgeKey, Edge> := map[];
    var order: seq<EdgeKey> := [];
    for i := 0 to |candidates|
      invariant edgeSet.Keys == KeySet(candidates[..i])
      invariant forall k :: k in order ==> k in edgeSet
      invariant InOrder(edgeSet, order) == Dedup(candidates[..i])
    {
      var e := candidates[i];
      assert candidates[..i + 1] == candidates[..i] + [e];
      DedupSnoc(candidates[..i], e);
      if e.key !in edgeSet {
        InOrderSnoc(edgeSet, order, e);
        edgeSet := edgeSet[e.key := e];
        order := order + [e.key];
      }
    }
    assert candidates[..|candidates|] == candidates;
    edges := InOrder(edgeSet, order);
  }

  /** The values of `m` read back in the key order `order`. */
  function InOrder(m: map<EdgeKey, Edge>, order: seq<EdgeKey>): (r: seq<Edge>)
    requires forall k :: k in order ==> k in m
  {
    seq(|order|, j requires 0 <= j < |order| => m[order[j]])
  }

  lemma InOrderSnoc(m: map<EdgeKey, Edge>, order: seq<EdgeKey>, e: Edge)
    requires forall k :: k in order ==> k in m
    requires e.key !in m
    ensures forall k :: k in order + [e.key] ==> k in m[e.key := e]
    ensures InOrder(m[e.key := e], order + [e.key]) == InOrder(m, order) + [e]
  {
  }

  /** Writing one more edge appends it exactly when its key is new. */
  lemma DedupSnoc(c: seq<Edge>, e: Edge)
    ensures Dedup(c + [e]) == Dedup(c) + (if e.key in KeySet(c) then [] else [e])
    ensures KeySet(c + [e]) == KeySet(c) + {e.key}
  {
    DedupAppend(c, [e], Identity, {});
    assert {} + KeySet(c) == KeySet(c);
    assert [e][1..] == [];
    assert forall x :: x in c + [e] <==> x in c || x == e;
  }
}
