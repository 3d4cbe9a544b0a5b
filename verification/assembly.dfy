/**
 * The geometry assembler: for every selected way, look each node reference up
 * in the object map, in order, and either emit a finished record with the
 * resolved coordinates or, at the first reference that is not a node of the
 * map, drop the way entirely.
 */
module GeometryAssembly {
  import opened Wrappers
  import opened Osm

  /** A vertex of the line: `x` is the longitude, `y` the latitude. */
  datatype Coord = Coord(x: int, y: int)

  /** The finished record: the way's id, its tags, and its line geometry. */
  datatype ConstructionWay = ConstructionWay(id: int, tags: Tags, geometry: seq<Coord>)

  function CoordOf(node: Node): Coord
  {
    Coord(node.decimicroLon, node.decimicroLat)
  }

  /** The coordinate a node reference resolves to: only an entry that is a node counts. */
  function Resolve(objects: ObjectMap, nodeId: int): (r: Option<Coord>)
    ensures r.Some? <==> NodeId(nodeId) in objects.m && objects.m[NodeId(nodeId)].NodeObj?
    ensures r.Some? ==> r.value == CoordOf(objects.m[NodeId(nodeId)].node)
  {
    match objects.Get(NodeId(nodeId))
    case Some(NodeObj(node)) => Some(CoordOf(node))
    case _ => None
  }

  /** Every reference of the list resolves. */
  predicate AllResolve(objects: ObjectMap, nodes: seq<int>)
  {
    forall i :: 0 <= i < |nodes| ==> Resolve(objects, nodes[i]).Some?
  }

  /**
   * The geometry of a reference list: present only when every reference
   * resolves, and then one coordinate per reference, in reference order.
   */
  function Geometry(objects: ObjectMap, nodes: seq<int>): (r: Option<seq<Coord>>)
    ensures r.Some? <==> AllResolve(objects, nodes)
    ensures r.Some? ==> |r.value| == |nodes|
    ensures r.Some? ==> forall i :: 0 <= i < |nodes| ==> Some(r.value[i]) == Resolve(objects, nodes[i])
  {
    if nodes == [] then Some([])
    else
      match Resolve(objects, nodes[0])
      case None => None
      case Some(c) =>
        match Geometry(objects, nodes[1..])
        case None =>
          assert forall i :: 0 <= i < |nodes[1..]| ==> nodes[1..][i] == nodes[i + 1];
          None
        case Some(rest) => Some([c] + rest)
  }

  /**
   * The records the assembly loop emits for `ways`, in order: one per way whose
   * references all resolve, none for the others.
   */
  function Assembled(objects: ObjectMap, ways: seq<Way>): (r: seq<ConstructionWay>)
    ensures |r| <= |ways|
  {
    if ways == [] then []
    else
      var done := Assembled(objects, ways[..|ways| - 1]);
      var way := ways[|ways| - 1];
      match Geometry(objects, way.nodes)
      case Some(coords) => done + [ConstructionWay(way.id, way.tags, coords)]
      case None => done
  }

  /**
   * The positions of `ways` that produce a record, ascending: the witness that
   * the emitted records form an order-preserving subsequence of `ways`, one
   * record per way whose references all resolve, each keeping the way's id and
   * tags and carrying its geometry.
   */
  ghost function EmittedPositions(objects: ObjectMap, ways: seq<Way>): (pos: seq<nat>)
    ensures var r := Assembled(objects, ways);
      && |pos| == |r|
      && (forall a, b :: 0 <= a < b < |pos| ==> pos[a] < pos[b])
      && (forall k :: 0 <= k < |pos| ==>
            && pos[k] < |ways|
            && r[k].id == ways[pos[k]].id
            && r[k].tags == ways[pos[k]].tags
            && Geometry(objects, ways[pos[k]].nodes) == Some(r[k].geometry))
      && (forall i :: 0 <= i < |ways| ==> (i in pos <==> AllResolve(objects, ways[i].nodes)))
  {
    if ways == [] then []
    else
      var n := |ways| - 1;
      var done := EmittedPositions(objects, ways[..n]);
      assert forall i :: 0 <= i < n ==> ways[..n][i] == ways[i];
      if Geometry(objects, ways[n].nodes).Some? then done + [n] else done
  }

  /** A record is emitted for every way exactly when no way has a dangling reference. */
  lemma {:induction false} AllEmittedIffAllResolve(objects: ObjectMap, ways: seq<Way>)
    ensures |Assembled(objects, ways)| == |ways| <==>
            forall i :: 0 <= i < |ways| ==> AllResolve(objects, ways[i].nodes)
  {
    if ways != [] {
      var n := |ways| - 1;
      AllEmittedIffAllResolve(objects, ways[..n]);
      assert forall i :: 0 <= i < n ==> ways[..n][i] == ways[i];
    }
  }

  /** Records listed with strictly ascending way ids (so no way twice). */
  predicate RecordIdsAscending(records: seq<ConstructionWay>)
  {
    forall i, j :: 0 <= i < j < |records| ==> records[i].id < records[j].id
  }

  /** Emitting records keeps the ways' order, so ascending way ids stay ascending (no duplicates). */
  lemma AssembledKeepsIdOrder(objects: ObjectMap, ways: seq<Way>)
    requires forall i, j :: 0 <= i < j < |ways| ==> ways[i].id < ways[j].id
    ensures RecordIdsAscending(Assembled(objects, ways))
  {
    var pos := EmittedPositions(objects, ways);
  }

  /** The tag conversion loop: every pair of the way's tags inserted into a fresh map. */
  method CopyTags(tags: Tags) returns (copy: Tags)
    ensures copy.Keys == tags.Keys
    ensures forall k :: k in copy ==> copy[k] == tags[k]
  {
    copy := map[];
    var rest := tags.Keys;
    while rest != {}
      invariant rest <= tags.Keys
      invariant copy.Keys == tags.Keys - rest
      invariant forall k :: k in copy ==> copy[k] == tags[k]
      decreases |rest|
    {
      var k :| k in rest;
      copy := copy[k := tags[k]];
      rest := rest - {k};
    }
  }

  /**
   * The assembly loop: for each way, resolve its references in order, stop at
   * the first one that is not a node of the map and skip the way, otherwise
   * push the finished record. The object map is only read.
   */
  method AssembleConstructionWays(objects: ObjectMap, waysToProcess: seq<Way>)
    returns (finalWays: seq<ConstructionWay>)
    ensures finalWays == Assembled(objects, waysToProcess)
  {
    finalWays := [];
    var i := 0;
    while i < |waysToProcess|
      invariant 0 <= i <= |waysToProcess|
      invariant finalWays == Assembled(objects, waysToProcess[..i])
    {
      var way := waysToProcess[i];
      assert waysToProcess[..i + 1][..i] == waysToProcess[..i];
      var coords: seq<Coord> := [];
      var validWay := true;
      var j := 0;
      while j < |way.nodes|
        invariant 0 <= j <= |way.nodes|
        invariant validWay
        invariant |coords| == j
        invariant forall k :: 0 <= k < j ==> Some(coords[k]) == Resolve(objects, way.nodes[k])
      {
        match objects.Get(NodeId(way.nodes[j])) {
          case Some(NodeObj(node)) =>
            coords := coords + [CoordOf(node)];
          case _ =>
            validWay := false;
            break;
        }
        j := j + 1;
      }
      if !validWay {
        // way.nodes[j] is the first reference that does not resolve
        assert !Resolve(objects, way.nodes[j]).Some?;
        assert Geometry(objects, way.nodes).None?;
        i := i + 1;
        continue;
      }
      assert AllResolve(objects, way.nodes);
      assert Geometry(objects, way.nodes).value == coords;
      var tagsMap := CopyTags(way.tags);
      assert tagsMap == way.tags;
      finalWays := finalWays + [ConstructionWay(way.id, tagsMap, coords)];
      i := i + 1;
    }
    assert waysToProcess[..i] == waysToProcess;
  }
}
