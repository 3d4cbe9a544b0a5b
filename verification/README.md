# Construction-way extraction: a Dafny model of the second pass

`osm-construction-extractor` reads an OpenStreetMap PBF file and keeps, in
memory, the ways that are under construction, together with their line
geometry. The first pass is done by the `osmpbfreader` crate: given a
predicate on objects, it returns an ordered map (`BTreeMap<OsmId, OsmObj>`)
holding the accepted ways and every node they reference that the file
contains; a referenced node can be missing from it. This project models
what the program itself does with that map:

- the predicate it hands to the reader: a way with at least two node
  references whose tags contain both the key `highway` and the key
  `construction` (key presence only, whatever the values);
- the second-pass selection `ways_to_process`: the ways of the map that carry
  both keys, in ascending key order (the node count is not tested again);
- the geometry assembler: for each selected way, look every node reference up
  in the map, in order, append `(lon, lat)` on a hit, and on the first
  reference that is missing or is not a node drop the whole way; otherwise
  push a `ConstructionWay` record with the way's id, a copy of its tags and
  the coordinates.

Modules: `Osm` (objects, ids, their order, the ordered object map),
`ConstructionFilter` (predicate and selection), `GeometryAssembly`
(coordinate resolution, the assembly loop and its specification),
`Extraction` (the second pass end to end, with two worked scenarios);
`Wrappers` holds `Option`.

The object map is a value (`ObjectMap`: a Dafny `map` plus its keys in
ascending order). `ObjectMap.Valid` is the ordered-map invariant plus the
fact that the reader files every object under its own id. The assembler
only reads it, so the map is the same before and after assembly by
construction. Keys are ordered as the derived order of the crate's `OsmId`
enum: nodes, then ways, then relations, each by numeric id.

Two choices of the code are worth stating, since other reasonable policies
exist:

- A way with a reference that is missing from the map, or that is not a
  node, is dropped entirely; the program only prints a warning for it. A
  keep-and-flag policy, emitting the way marked as degraded together with a
  count of dangling references, is not what the code does.
- The filter tests that both keys `highway` and `construction` are present.
  A value test `highway=construction` would reject a `highway=primary` way
  carrying a `construction` key, and accept a way tagged only
  `highway=construction`; the code does the opposite in both cases.

Consequently the number of records equals the number of selected ways only
when no selected way has a dangling reference
(`Extraction.ExtractDropsOnlyDanglingWays`).

## Model

| member | source | states |
|---|---|---|
| `Osm.ObjectMap.GetAgreesWithValues` | osm-construction-extractor/src/main.rs:90 | on a valid map, `get` succeeds exactly for the ids of the objects `values()` visits, and returns the object carrying that id |
| `Osm.ObjectMap.ValuesInKeyOrder` | osm-construction-extractor/src/main.rs:59-60 | `values()` visits every stored object, each in ascending id order, and each is stored under its own id |
| `ConstructionFilter.Accept` | osm-construction-extractor/src/main.rs:36-44 | accepted iff the second-pass selection holds and the way has at least two node references; nodes and relations are never accepted |
| `ConstructionFilter.AcceptTestsKeysNotValues` | osm-construction-extractor/src/main.rs:40 | a way tagged only `highway=construction` is rejected; a `highway=primary` way that also has a `construction` key is accepted |
| `ConstructionFilter.FilterWays` | osm-construction-extractor/src/main.rs:61-72 | keeps exactly the ways carrying both keys, each from the input, never longer than the input; ascending input ids give ascending way ids |
| `ConstructionFilter.WaysToProcess` | osm-construction-extractor/src/main.rs:59-73 | exactly the ways of the map carrying both keys, each the object stored under its own way id, in strictly ascending key order |
| `ConstructionFilter.AcceptedIsSelected` | osm-construction-extractor/src/main.rs:36-73 | every object the predicate accepts is among the ways the second pass selects |
| `ConstructionFilter.SelectionSkipsNodeCount` | osm-construction-extractor/src/main.rs:59-73 | a one-node way with both keys is rejected by the predicate but still selected by the second pass |
| `GeometryAssembly.Resolve` | osm-construction-extractor/src/main.rs:90-98 | a reference resolves exactly when its node id is in the map as a node, and then to `(lon, lat)` of that node |
| `GeometryAssembly.Geometry` | osm-construction-extractor/src/main.rs:85-100 | a geometry exists iff every reference resolves; it then has one coordinate per reference, position i holding the coordinate of reference i |
| `GeometryAssembly.Assembled` | osm-construction-extractor/src/main.rs:81-120 | the records of the assembly loop, never more than the ways; what each record is, and in what order, is stated by `EmittedPositions` |
| `GeometryAssembly.EmittedPositions` | osm-construction-extractor/src/main.rs:81-120 | the records are an order-preserving subsequence of the ways: one per way whose references all resolve and none for the others, each with that way's id, tags and geometry |
| `GeometryAssembly.AllEmittedIffAllResolve` | osm-construction-extractor/src/main.rs:94-117 | as many records as ways iff no way has a dangling reference |
| `GeometryAssembly.AssembledKeepsIdOrder` | osm-construction-extractor/src/main.rs:83-120 | ascending way ids give ascending record ids, so no record is duplicated |
| `GeometryAssembly.CopyTags` | osm-construction-extractor/src/main.rs:108-111 | the copied tag map has exactly the keys and values of the way's tags |
| `GeometryAssembly.AssembleConstructionWays` | osm-construction-extractor/src/main.rs:81-120 | the loop's `final_ways` equals `Assembled`: break at the first unresolved reference, skip the way, otherwise push id, tags and coordinates |
| `Extraction.RunSecondPass` | osm-construction-extractor/src/main.rs:59-120 | selection followed by assembly yields the records `Extract` describes |
| `Extraction.ExtractedRecordsAreResolvedWays` | osm-construction-extractor/src/main.rs:108-117 | every record comes from a way of the map carrying both keys, with the same id and tags and that way's resolved geometry |
| `Extraction.ResolvedWaysAreExtracted` | osm-construction-extractor/src/main.rs:83-120 | every way of the map carrying both keys whose references all resolve gets a record with its id |
| `Extraction.ResolvedWayRecord` | osm-construction-extractor/src/main.rs:108-117 | every such way of the map has a record that is exactly the way's id, its tags and its resolved geometry |
| `Extraction.ExtractedInIdOrder` | osm-construction-extractor/src/main.rs:59-120 | records come in strictly ascending way-id order |
| `Extraction.ExtractDropsOnlyDanglingWays` | osm-construction-extractor/src/main.rs:94-105 | at most one record per selected way, and exactly one each iff no selected way has a dangling reference |
| `Extraction.ResolvedWayScenario` | osm-construction-extractor/src/main.rs:85-117 | a construction way over two present nodes yields one record with geometry `[(lon10, lat10), (lon11, lat11)]` |
| `Extraction.DanglingWayScenario` | osm-construction-extractor/src/main.rs:89-105 | a way referencing an absent node yields no record at all |

## Left out

- Opening the PBF file and `get_objs_and_deps` (lines 32-47): decoding, decompression and dependency resolution happen in the `osmpbfreader` crate, which is not part of this model. The object map is an input, and `ObjectMap.Valid` states what the model assumes of it.
- Command-line parsing (lines 19-28): argument plumbing only.
- The progress bar, the timers and every `println!`/`eprintln!`, including the warning for a missing node (lines 29-31, 48-53, 75-78, 95, 103, 119, 121-138): user-facing side effects with no effect on the records.
- Floating-point coordinates: a coordinate is kept in the reader's decimicro-degree integers. `node.lon()`/`node.lat()` scale these by 1e-7, and `geo::LineString`/`Coord` become a sequence of `Coord` values.
- Integer widths: ids (64-bit) and decimicro coordinates (32-bit) are unbounded integers. No operation in the core does arithmetic on them.
- `SmartString`-to-`String` conversion in the tag copy: treated as the identity on string contents.
- Relation member lists: relations only need to be recognised as not ways.
- `ways_to_process` holds references into the map (`Vec<&Way>`); the model holds copies of the way values, which is the same thing for a map that is never mutated.
- The reader's side of the predicate: the model does not prove that every way in the object map passed `Accept`, since the map is built by the crate. `AcceptedIsSelected` gives the direction the program relies on.
- `BTreeMap::get` is modelled as a Dafny map lookup (`ObjectMap.Get`); `GetAgreesWithValues` ties it to the ordered view.
- Buffer capacities (`with_capacity`): no effect on contents.
