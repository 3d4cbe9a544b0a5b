/**
 * The tag test of the extractor: the predicate handed to the dependency
 * resolving reader, and the second-pass selection of the ways to assemble
 * from the ordered object map.
 */
module ConstructionFilter {
  import opened Osm

  const HighwayKey: string := "highway"
  const ConstructionKey: string := "construction"

  /** Both keys are present, whatever their values are. */
  predicate HasConstructionKeys(tags: Tags)
  {
    HighwayKey in tags && ConstructionKey in tags
  }

  /** The object the second pass keeps: a way carrying both keys. */
  predicate SelectedForAssembly(obj: OsmObj)
  {
    obj.WayObj? && HasConstructionKeys(obj.way.tags)
  }

  /**
   * The predicate given to the reader: a way with at least two node references
   * whose tags hold both keys. It is exactly the second-pass selection plus the
   * node-count test, so nodes and relations are never accepted.
   */
  predicate Accept(obj: OsmObj)
    ensures Accept(obj) <==> SelectedForAssembly(obj) && |obj.way.nodes| >= 2
    ensures !obj.WayObj? ==> !Accept(obj)
  {
    match obj
    case WayObj(way) =>
      if |way.nodes| >= 2 then HighwayKey in way.tags && ConstructionKey in way.tags
      else false
    case _ => false
  }

  /** Ways listed with strictly ascending ids (so no way twice). */
  predicate IdsAscending(ways: seq<Way>)
  {
    forall i, j :: 0 <= i < j < |ways| ==> ways[i].id < ways[j].id
  }

  /**
   * The `filter_map` over the values: the ways carrying both keys, in the order
   * the values come. The node count is not tested again. Order is stated only
   * for input in ascending id order, which is what the values iterator gives.
   */
  function FilterWays(objs: seq<OsmObj>): (r: seq<Way>)
    ensures |r| <= |objs|
    ensures forall w :: w in r ==> WayObj(w) in objs && HasConstructionKeys(w.tags)
    ensures forall o :: o in objs && SelectedForAssembly(o) ==> o.way in r
    ensures ObjectsSorted(objs) ==> IdsAscending(r)
  {
    if objs == [] then []
    else
      var rest := FilterWays(objs[1..]);
      assert forall o :: o in objs[1..] ==> o in objs;
      match objs[0]
      case WayObj(way) =>
        if HasConstructionKeys(way.tags) then
          assert ObjectsSorted(objs) ==> forall j :: 0 < j < |objs| ==> IdLess(IdOf(objs[0]), IdOf(objs[j]));
          [way] + rest
        else rest
      case _ => rest
  }

  /**
   * `ways_to_process`: exactly the ways of the object map carrying both keys,
   * each one the object stored under its own way id, in ascending key order.
   */
  function WaysToProcess(objects: ObjectMap): (r: seq<Way>)
    requires objects.Valid()
    ensures |r| <= |objects.keys|
    ensures forall w :: w in r ==>
      WayId(w.id) in objects.m && objects.m[WayId(w.id)] == WayObj(w) && HasConstructionKeys(w.tags)
    ensures forall k :: k in objects.m && SelectedForAssembly(objects.m[k]) ==> objects.m[k].way in r
    ensures IdsAscending(r)
  {
    objects.ValuesInKeyOrder();
    FilterWays(objects.Values())
  }

  /** Every object the reader's predicate accepts is selected by the second pass. */
  lemma AcceptedIsSelected(objects: ObjectMap, k: OsmId)
    requires objects.Valid() && k in objects.m && Accept(objects.m[k])
    ensures objects.m[k].way in WaysToProcess(objects)
  {
  }

  /**
   * The second pass does not repeat the node-count test: a one-node way with
   * both keys is rejected by the predicate yet selected from the map.
   */
  lemma SelectionSkipsNodeCount()
    ensures var w := Way(7, map[HighwayKey := "construction", ConstructionKey := "primary"], [1]);
            var objects := ObjectMap(map[WayId(7) := WayObj(w)], [WayId(7)]);
            objects.Valid() && !Accept(WayObj(w)) && WaysToProcess(objects) == [w]
  {
  }

  /**
   * The predicate tests for the two keys, not for the value `highway=construction`:
   * a way tagged only `highway=construction` is rejected, a `highway=primary`
   * way that also carries a `construction` key is accepted.
   */
  lemma AcceptTestsKeysNotValues()
    ensures !Accept(WayObj(Way(1, map[HighwayKey := "construction"], [10, 11])))
    ensures Accept(WayObj(Way(2, map[HighwayKey := "primary", ConstructionKey := "minor"], [10, 11])))
  {
  }
}
