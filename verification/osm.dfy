/**
 * The OpenStreetMap objects the extractor works on, as the `osmpbfreader`
 * crate delivers them, and the ordered object map (`BTreeMap<OsmId, OsmObj>`)
 * that the dependency-resolving reader hands to the second pass.
 */
module Osm {
  import opened Wrappers

  /** A tag set: each key at most once, order irrelevant. */
  type Tags = map<string, string>

  /** A point record; its coordinate is kept in the reader's decimicro-degree units. */
  datatype Node = Node(id: int, tags: Tags, decimicroLat: int, decimicroLon: int)

  /** A way: a tagged, ordered list of node references (node ids). */
  datatype Way = Way(id: int, tags: Tags, nodes: seq<int>)

  /** A relation; its member list plays no part in the extraction. */
  datatype Relation = Relation(id: int, tags: Tags)

  datatype OsmObj = NodeObj(node: Node) | WayObj(way: Way) | RelationObj(rel: Relation)

  /** The key type of the object map: the kind of object and its numeric id. */
  datatype OsmId = NodeId(id: int) | WayId(id: int) | RelationId(id: int)

  /** The identity of an object, the key the reader files it under. */
  function IdOf(obj: OsmObj): OsmId
  {
    match obj
    case NodeObj(n) => NodeId(n.id)
    case WayObj(w) => WayId(w.id)
    case RelationObj(r) => RelationId(r.id)
  }

  /** Position of an id's kind in the derived ordering: nodes, then ways, then relations. */
  function KindRank(k: OsmId): nat
  {
    match k
    case NodeId(_) => 0
    case WayId(_) => 1
    case RelationId(_) => 2
  }

  /** The strict order of the object map's keys: by kind first, then by numeric id. */
  predicate IdLess(a: OsmId, b: OsmId)
  {
    KindRank(a) < KindRank(b) || (KindRank(a) == KindRank(b) && a.id < b.id)
  }

  predicate StrictlySorted(ks: seq<OsmId>)
  {
    forall i, j :: 0 <= i < j < |ks| ==> IdLess(ks[i], ks[j])
  }

  /** Objects listed in strictly ascending order of their ids. */
  predicate ObjectsSorted(objs: seq<OsmObj>)
  {
    forall i, j :: 0 <= i < j < |objs| ==> IdLess(IdOf(objs[i]), IdOf(objs[j]))
  }

  /**
   * The ordered object map. `m` gives lookups, `keys` the ascending key order
   * in which the map's `values()` iterator visits the entries.
   */
  datatype ObjectMap = ObjectMap(m: map<OsmId, OsmObj>, keys: seq<OsmId>)
  {
    /** The ordered-map invariant, and every object filed under its own id. */
    predicate Valid()
    {
      && StrictlySorted(keys)
      && (forall k :: k in keys ==> k in m)
      && (forall k :: k in m ==> k in keys)
      && (forall k :: k in m ==> IdOf(m[k]) == k)
    }

    /** `objects.get(&id)`. */
    function Get(id: OsmId): (r: Option<OsmObj>)
      ensures r.Some? <==> id in m
      ensures r.Some? ==> r.value == m[id]
    {
      if id in m then Some(m[id]) else None
    }

    /** `objects.values()`: the objects in ascending key order. */
    function Values(): seq<OsmObj>
      requires Valid()
    {
      seq(|keys|, i requires 0 <= i < |keys| => m[keys[i]])
    }

    /** The values iterator visits every stored object exactly once, in ascending id order. */
    lemma ValuesInKeyOrder()
      requires Valid()
      ensures ObjectsSorted(Values())
      ensures forall o :: o in Values() ==> IdOf(o) in m && m[IdOf(o)] == o
      ensures forall k :: k in m ==> m[k] in Values()
    {
      var vs := Values();
      forall k | k in m
        ensures m[k] in vs
      {
        var i :| 0 <= i < |keys| && keys[i] == k;
        assert vs[i] == m[k];
      }
    }
  
    /** A lookup succeeds exactly for an id the values iterator visits, and returns the object with that id. */
    lemma GetAgreesWithValues(id: OsmId)
      requires Valid()
      ensures Get(id).Some? <==> exists i :: 0 <= i < |Values()| && IdOf(Values()[i]) == id
      ensures Get(id).Some? ==> IdOf(Get(id).value) == id && Get(id).value in Values()
    {
      ValuesInKeyOrder();
      var vs := Values();
      if i :| 0 <= i < |vs| && IdOf(vs[i]) == id {
        assert vs[i] in vs;
      }
      if id in m {
        assert m[id] in vs;
        var i :| 0 <= i < |vs| && vs[i] == m[id];
        assert IdOf(vs[i]) == id;
      }
    }
  }
}
