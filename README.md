# gpx2js mapper in Dafny

This project models the GPX-to-object mapper of gpx2js (`main.js`). The mapper
takes the generic tree that the XML parser (xml2js) builds from a GPX document
and turns it into a plain result object with four kinds of content:

- the metadata fields, spread into the top level;
- `waypoints`;
- `tracks`, where each track has `segments` of points;
- `routes`, where each route has `points`.

Every leaf value is copied as the parser delivers it. Nothing is parsed as a
number.

Modules:

- `XmlTree` (`xml_tree.dfy`) is the parsed tree. A `Node` is either
  `Text(text)` or `Elem(attrs, children)`. `attrs` is the attribute map, the
  parser's `$` key. `children` maps each child tag to its occurrences in
  document order. `Children` is the property lookup `node[tag]`.
  `HasAttributeMap` says whether `node['$']` exists.
- `JsValue` (`js_value.dfy`) is the result values and `Extend`, the
  right-biased merge that `xtend` performs. A `Value` is one of:
  - `Undefined`;
  - an attribute string `Str`;
  - an occurrence shared from the tree, `Copied`;
  - an array `List`;
  - an object `Record` over `Object = map<string, Value>`.
- `GpxSpec` (`gpx_spec.dfy`) holds the specification functions. Each one
  builds its result left to right, as the loops of `main.js` do. Beside them
  are the lemmas that state what the mapper promises. The `...Mappable`
  predicates describe the trees the mapper can read without throwing.
- `Gpx` (`gpx.dfy`) holds the mapper as `main.js` writes it. Each function is
  a method with the source's loops and local objects. Each method is proved
  equal to its specification function. The body of the outer loop of
  `parseTracks` (one `trk`, with its inner `trkseg` loop) is the method
  `ParseTrack`.

The mapper throws a `TypeError` on some inputs. These cases become
preconditions:

- a point without an attribute map, because it reads `input['$'].lat`;
- a `trk` without `trkseg`, a `trkseg` without `trkpt`, or an `rte` without
  `rtept`, because it reads `.length` of `undefined`;
- an empty `metadata` list;
- a first `bounds` occurrence without attributes.

A missing `lat`, `lon` or bounds attribute on an element that does have
attributes is not an error in the source. The result then holds `undefined`,
and the model gives `Undefined`.

## Model

| member | source | states |
|---|---|---|
| `JsValue.Extend` | main.js:127-141 | the merged object has the properties of both arguments; the right one wins where both have a property |
| `JsValue.ExtendWithNothing` | main.js:137 | merging `{}` into an object leaves it unchanged, as when `parseTracks` or `parseRoutes` returns `{}` |
| `JsValue.ExtendDisjointCommutes` | main.js:127-141 | merging two objects with no property in common gives the same object in either order |
| `JsValue.ExtendFourDisjoint` | main.js:127-142 | merging four objects with distinct properties into `{}` keeps each object's values, and merging them in reverse order gives the same object |
| `GpxSpec.SimpleItems` | main.js:7-15 | the result has a property exactly for each requested tag present in the input, never one outside the request, and its value is that tag's first occurrence |
| `GpxSpec.SimpleItemsReadsFirstOccurrenceOnly` | main.js:11 | occurrences after the first never matter: two elements with the same requested tags and the same first occurrences give the same object |
| `Gpx.ExtractSimpleItems` | main.js:7-15 | the `forEach` loop that fills `rv` tag by tag produces exactly `SimpleItems` |
| `GpxSpec.WaypointCoordinates` | main.js:44-45 | a point object always has `lat` and `lon`, taken from the attribute map, never from children, and not overridden by the merge |
| `GpxSpec.CoordinatesNotWaypointFields` | main.js:47-51 | `lat` and `lon` are not among the 18 copied tags, which is why the merge cannot override them |
| `GpxSpec.WaypointOptionalFields` | main.js:47-51 | apart from `lat` and `lon`, a point object has exactly the present members of the 18-tag list, each its first occurrence |
| `Gpx.ParseWaypoint` | main.js:40-52 | assigning `lat` and `lon` to a fresh object and then merging the extracted fields gives `Waypoint` |
| `GpxSpec.Waypoints` | main.js:54-64 | the mapped array has the same length as the input, and entry `i` is point `i` mapped |
| `GpxSpec.WaypointsAppend` | main.js:56-61 | mapping a concatenation gives the concatenation of the mapped parts, so the mapping works point by point in order |
| `Gpx.ParseWaypoints` | main.js:54-64 | the counted `push` loop produces exactly `Waypoints` |
| `GpxSpec.Segments` | main.js:76-78 | a track has one segment per `trkseg`, in order, and each segment is that `trkseg`'s `trkpt` list mapped |
| `GpxSpec.TrackSegments` | main.js:74-78 | a track object's `segments` is an array with one entry per `trkseg`, in order, and entry `i` is the mapped `trkpt` list of `trkseg` `i` |
| `GpxSpec.TrackOptionalFields` | main.js:71-73 | apart from `segments`, a track object has exactly the present descriptive tags of `trk`, each its first occurrence |
| `Gpx.ParseTrack` | main.js:69-80 | the body of the outer loop for one `trk` (field merge, then the inner `trkseg` push loop) produces exactly `Track` |
| `GpxSpec.TrackList` | main.js:68-81 | the output array has one entry per `trk` |
| `GpxSpec.TrackListAt` | main.js:68-81 | entry `i` of the output array is the object of `trk` number `i`, so tracks keep document order |
| `GpxSpec.TracksShape` | main.js:83-87 | `parseTracks` returns `{}` exactly when there are no tracks, and otherwise an object whose only property is `tracks`, holding the output array |
| `GpxSpec.TrackPointOrder` | main.js:68-80 | point `j` of segment `k` of track `i` is `trkpt` `j` of `trkseg` `k` of `trk` `i`, mapped: segment order and point order follow the document |
| `Gpx.ParseTracks` | main.js:66-88 | the counted loop over `trk` and the final length test produce exactly `Tracks` |
| `GpxSpec.Route` | main.js:93-100 | a route object has `points`, the mapped `rtept` list in order, and otherwise exactly the present descriptive tags of `rte`, each its first occurrence |
| `GpxSpec.RouteList` | main.js:92-101 | the output array has one entry per `rte`, and entry `i` is the object of route `i` |
| `GpxSpec.RoutesShape` | main.js:103-107 | `parseRoutes` returns `{}` exactly when there are no routes, and otherwise an object whose only property is `routes`, holding the output array |
| `Gpx.ParseRoutes` | main.js:90-108 | the counted loop over `rte` and the final length test produce exactly `Routes` |
| `GpxSpec.Metadata` | main.js:17-38 | the metadata object has exactly the present descriptive tags of the first `metadata` element, each its first occurrence, plus `bounds` exactly when that element has a `bounds` child |
| `GpxSpec.MetadataBounds` | main.js:24-36 | `bounds` holds exactly `lat` and `lon`. `lat.min`, `lat.max`, `lon.min` and `lon.max` are the `minlat`, `maxlat`, `minlon` and `maxlon` attributes of the first `bounds` element, kept as text |
| `Gpx.ParseMetadata` | main.js:17-38 | merging the extracted fields into `rv` and then assigning `rv.bounds` produces exactly `Metadata` |
| `GpxSpec.MetadataPartFields` | main.js:21-22 | the metadata step contributes each metadata tag exactly when the first `metadata` element has it, holding its first occurrence |
| `GpxSpec.TopLevelNamesDistinct` | main.js:21 | `waypoints`, `tracks` and `routes` are not among the properties that the metadata step can contribute |
| `GpxSpec.ContributionsDisjoint` | main.js:127-142 | the four steps of the dispatch contribute pairwise disjoint sets of properties |
| `GpxSpec.ConvertHoldsContributions` | main.js:127-142 | the result's properties are the union of the four contributions, and each contribution's values appear unchanged |
| `GpxSpec.ConvertMergeOrderIrrelevant` | main.js:127-142 | merging the four contributions in reverse order gives the same result |
| `GpxSpec.ConvertWaypoints` | main.js:131-134 | `waypoints` is present exactly when the source has a `wpt` list, even an empty one, and it holds that list mapped |
| `GpxSpec.ConvertTracks` | main.js:136-138 | `tracks` is present exactly when the source has a non-empty `trk` list, and it holds one object per `trk` |
| `GpxSpec.ConvertRoutes` | main.js:140-142 | `routes` is present exactly when the source has a non-empty `rte` list, and it holds one object per `rte` |
| `GpxSpec.ConvertMetadataFields` | main.js:127-129 | metadata is spread into the top level and never placed under a `metadata` property. Each metadata tag is present exactly when the first `metadata` element has it |
| `GpxSpec.ConvertBounds` | main.js:127-129 | `bounds` is at the top level exactly when the first `metadata` element has a `bounds` child, and it holds the object built from that child |
| `GpxSpec.ConvertEmptyDocument` | main.js:125-142 | a root with none of `metadata`, `wpt`, `trk` and `rte` gives `{}` |
| `GpxSpec.SingleWaypointObject` | main.js:40-51 | `<wpt lat="1.5" lon="-2.25"><ele>100</ele></wpt>` maps to exactly `lat`, `lon` and `ele`, with the values kept as text |
| `GpxSpec.SingleWaypointScenario` | main.js:131-134 | a `gpx` root holding only that point gives an object whose only property is `waypoints`, holding that point |
| `GpxSpec.TwoSegmentTrackScenario` | main.js:74-78 | a track with two segments, of two points and of one point, has `segments` of lengths 2 and 1, with the points in document order |
| `Gpx.ConvertGpx` | main.js:125-142 | reassigning `result` step by step (metadata, then `wpt`, `trk`, `rte`, each only when present) produces exactly `Convert` |

## Left out

- Reading the file, the XML parser, `console.error` and the callback
  (main.js:110-123, 144). The model starts from the parsed `gpx` root. It does
  not cover the error branches, which call the callback and then carry on.
  It does not cover a document whose root is not `gpx`.
- Property order of the result objects. JavaScript keeps insertion order, and
  the model uses maps, which have none.
- The parser's `_` key for the text of an element that has attributes. The
  mapper never reads it. A copied occurrence is kept as the whole `Node`.
- Lookups of tag names that are also JavaScript prototype properties, such as
  `constructor`. None of the tag lists in the source names one.
- Numeric parsing and the errors `MissingCoordinate`, `MalformedCoordinate`,
  `MalformedNumericField` and `MalformedBoundsField`. The code copies every
  value, coordinates and bounds included, as text, so the model does too.
- A `metadata` property in the result. The code spreads the metadata fields
  into the top level (main.js:128), so the model does too.
- A track without `trkseg`, a segment without `trkpt` and a route without
  `rtept`. A track with no segments should give `segments: []`, but the code
  throws here. The model states these cases as preconditions instead of
  giving a result.
