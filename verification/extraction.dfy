/**
 * The second pass as a whole: select the construction ways of the object map
 * and assemble each one into a finished record.
 */
module Extraction {
  import opened Wrappers
  import opened Osm
  import opened ConstructionFilter
  import opened GeometryAssembly

  /** The records the second pass produces from the object map. */
  function Extract(objects: ObjectMap): seq<ConstructionWay>
    requires objects.Valid()
  {
    Assembled(objects, WaysToProcess(objects))
  }

  /** Build `ways_to_process`, then run the assembly loop over it. */
  method RunSecondPass(objects: ObjectMap) returns (finalWays: seq<ConstructionWay>)
    requires objects.Valid()
    ensures finalWays == Extract(objects)
  {
    var waysToProcess := WaysToProcess(objects);
    finalWays := AssembleConstructionWays(objects, waysToProcess);
  }

  /**
   * Every record the second pass emits comes from a way of the map that carries
   * both keys: it keeps that way's id and tags and carries the way's resolved
   * geometry, one coordinate per reference, in reference order.
   */
  lemma ExtractedRecordsAreResolvedWays(objects: ObjectMap, c: ConstructionWay)
    requires objects.Valid() && c in Extract(objects)
    ensures WayId(c.id) in objects.m && SelectedForAssembly(objects.m[WayId(c.id)])
    ensures c.tags == objects.m[WayId(c.id)].way.tags
    ensures Geometry(objects, objects.m[WayId(c.id)].way.nodes) == Some(c.geometry)
  {
    var ways := WaysToProcess(objects);
    var r := Extract(objects);
    var pos := EmittedPositions(objects, ways);
    var k :| 0 <= k < |r| && r[k] == c;
    assert ways[pos[k]] in ways;
  }

  /** Every way of the map that carries both keys and whose references all resolve gets its record. */
  lemma ResolvedWaysAreExtracted(objects: ObjectMap, k: OsmId)
    requires objects.Valid() && k in objects.m && SelectedForAssembly(objects.m[k])
    requires AllResolve(objects, objects.m[k].way.nodes)
    ensures exists c :: c in Extract(objects) && c.id == objects.m[k].way.id
  {
    var ways := WaysToProcess(objects);
    var r := Extract(objects);
    var pos := EmittedPositions(objects, ways);
    var i :| 0 <= i < |ways| && ways[i] == objects.m[k].way;
    var p :| 0 <= p < |pos| && pos[p] == i;
    assert r[p] in r;
  }

  /** The record such a way gets carries its id, its tags and its resolved geometry. */
  lemma ResolvedWayRecord(objects: ObjectMap, k: OsmId)
    requires objects.Valid() && k in objects.m && SelectedForAssembly(objects.m[k])
    requires AllResolve(objects, objects.m[k].way.nodes)
    ensures var w := objects.m[k].way;
            ConstructionWay(w.id, w.tags, Geometry(objects, w.nodes).value) in Extract(objects)
  {
    var ways := WaysToProcess(objects);
    var r := Extract(objects);
    var pos := EmittedPositions(objects, ways);
    var i :| 0 <= i < |ways| && ways[i] == objects.m[k].way;
    var p :| 0 <= p < |pos| && pos[p] == i;
    assert r[p] == ConstructionWay(ways[i].id, ways[i].tags, Geometry(objects, ways[i].nodes).value);
    assert r[p] in r;
  }

  /** The records come in ascending way-id order, so no way is emitted twice. */
  lemma ExtractedInIdOrder(objects: ObjectMap)
    requires objects.Valid()
    ensures RecordIdsAscending(Extract(objects))
  {
    var ways := WaysToProcess(objects);
    assert IdsAscending(ways);
    AssembledKeepsIdOrder(objects, ways);
    assert Extract(objects) == Assembled(objects, ways);
  }

  /** Fewer records than selected ways exactly when some selected way has a dangling reference. */
  lemma ExtractDropsOnlyDanglingWays(objects: ObjectMap)
    requires objects.Valid()
    ensures |Extract(objects)| <= |WaysToProcess(objects)|
    ensures |Extract(objects)| == |WaysToProcess(objects)| <==>
            forall w :: w in WaysToProcess(objects) ==> AllResolve(objects, w.nodes)
  {
    AllEmittedIffAllResolve(objects, WaysToProcess(objects));
  }

  /** A way under construction with both of its nodes in the map yields one record, lon first. */
  lemma ResolvedWayScenario()
    ensures var tags := map[HighwayKey := "construction", ConstructionKey := "primary"];
      var objects := ObjectMap(
        map[NodeId(10) := NodeObj(Node(10, map[], 20, 10)),
            NodeId(11) := NodeObj(Node(11, map[], 21, 11)),
            WayId(1) := WayObj(Way(1, tags, [10, 11]))],
        [NodeId(10), NodeId(11), WayId(1)]);
      objects.Valid() &&
      Extract(objects) == [ConstructionWay(1, tags, [Coord(10, 20), Coord(11, 21)])]
  {
    var tags := map[HighwayKey := "construction", ConstructionKey := "primary"];
    var w := Way(1, tags, [10, 11]);
    var objects := ObjectMap(
        map[NodeId(10) := NodeObj(Node(10, map[], 20, 10)),
            NodeId(11) := NodeObj(Node(11, map[], 21, 11)),
            WayId(1) := WayObj(w)],
        [NodeId(10), NodeId(11), WayId(1)]);
    var vs := objects.Values();
    assert vs == [objects.m[NodeId(10)], objects.m[NodeId(11)], WayObj(w)];
    assert FilterWays(vs[2..]) == [w];
    assert FilterWays(vs[1..]) == [w] by { assert vs[1..][1..] == vs[2..]; }
    assert WaysToProcess(objects) == [w];
    assert Resolve(objects, 10) == Some(Coord(10, 20));
    assert Resolve(objects, 11) == Some(Coord(11, 21));
    assert Geometry(objects, [11]) == Some([Coord(11, 21)]) by {
      assert [11][1..] == [];
      assert Geometry(objects, []) == Some([]);
      assert [Coord(11, 21)] + [] == [Coord(11, 21)];
    }
    assert Geometry(objects, [10, 11]) == Some([Coord(10, 20), Coord(11, 21)]) by {
      assert [10, 11][1..] == [11];
      assert [Coord(10, 20)] + [Coord(11, 21)] == [Coord(10, 20), Coord(11, 21)];
    }
    assert [w][..0] == [];
  }

  /** A way with a reference missing from the map is dropped entirely: no record, not a partial one. */
  lemma DanglingWayScenario()
    ensures var tags := map[HighwayKey := "construction", ConstructionKey := "primary"];
      var objects := ObjectMap(
        map[NodeId(10) := NodeObj(Node(10, map[], 20, 10)),
            WayId(1) := WayObj(Way(1, tags, [10, 12]))],
        [NodeId(10), WayId(1)]);
      objects.Valid() && Extract(objects) == []
  {
    var tags := map[HighwayKey := "construction", ConstructionKey := "primary"];
    var w := Way(1, tags, [10, 12]);
    var objects := ObjectMap(
        map[NodeId(10) := NodeObj(Node(10, map[], 20, 10)),
            WayId(1) := WayObj(w)],
        [NodeId(10), WayId(1)]);
    var vs := objects.Values();
    assert vs == [objects.m[NodeId(10)], WayObj(w)];
    assert FilterWays(vs[1..]) == [w];
    assert WaysToProcess(objects) == [w];
    assert !AllResolve(objects, w.nodes) by { assert Resolve(objects, w.nodes[1]).None?; }
    assert [w][..0] == [];
  }
}
