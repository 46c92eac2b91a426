/** The mapper of main.js, step by step as it is written there: each
    function that fills an object or pushes onto an array in a loop is a
    method with that loop, proved to compute what module GpxSpec says. */
module Gpx {
  import opened XmlTree
  import opened JsValue
  import opened GpxSpec

  /** `extractSimpleItems`: visit the requested tags in order and, for each
      one present, store its first occurrence. */
  method ExtractSimpleItems(input: Node, items: seq<string>) returns (rv: Object)
    ensures rv == SimpleItems(input, items)
  {
    rv := map[];
    for i := 0 to |items|
      invariant rv == SimpleItems(input, items[..i])
    {
      var item := items[i];
      assert items[..i + 1][..i] == items[..i];
      if item in Children(input) {
        rv := rv[item := FirstOf(Children(input)[item])];
      }
    }
    assert items[..|items|] == items;
  }

  /** `parseMetadata`: the descriptive fields of the first occurrence, then
      the nested `bounds` object when that occurrence has a `bounds` child. */
  method ParseMetadata(input: seq<Node>) returns (rv: Object)
    requires MetadataMappable(input)
    ensures rv == Metadata(input)
  {
    rv := map[];
    var md := input[0];
    var extracted := ExtractSimpleItems(md, MetadataFields);
    rv := Extend(rv, extracted);
    if "bounds" in Children(md) {
      var bounds := Children(md)["bounds"][0];
      rv := rv["bounds" := Record(map[
        "lat" := Record(map["min" := Attribute(bounds, "minlat"), "max" := Attribute(bounds, "maxlat")]),
        "lon" := Record(map["min" := Attribute(bounds, "minlon"), "max" := Attribute(bounds, "maxlon")])])];
    }
  }

  /** `parseWaypoint`: the coordinates from the attribute map, then the
      present optional fields merged over them. */
  method ParseWaypoint(input: Node) returns (outPoint: Object)
    requires PointMappable(input)
    ensures outPoint == Waypoint(input)
  {
    outPoint := map[];
    outPoint := outPoint["lat" := Attribute(input, "lat")];
    outPoint := outPoint["lon" := Attribute(input, "lon")];
    var extracted := ExtractSimpleItems(input, WaypointFields);
    outPoint := Extend(outPoint, extracted);
  }

  /** `parseWaypoints`: push the mapped points in input order. */
  method ParseWaypoints(input: seq<Node>) returns (points: seq<Value>)
    requires PointsMappable(input)
    ensures points == Waypoints(input)
  {
    points := [];
    for i := 0 to |input|
      invariant points == Waypoints(input[..i])
    {
      var wpt := ParseWaypoint(input[i]);
      assert input[..i + 1][..i] == input[..i];
      points := points + [Record(wpt)];
    }
    assert input[..|input|] == input;
  }

  /** The body of the loop of `parseTracks` for one `trk`: its fields,
      then one pushed segment per `trkseg`, each the mapped `trkpt` list. */
  method ParseTrack(inTrack: Node) returns (outTrack: Object)
    requires TrackMappable(inTrack)
    ensures outTrack == Track(inTrack)
  {
    outTrack := map[];
    var extracted := ExtractSimpleItems(inTrack, TrackFields);
    outTrack := Extend(outTrack, extracted);
    var segments: seq<Value> := [];
    var trkseg := Children(inTrack)["trkseg"];
    for trksegn := 0 to |trkseg|
      invariant segments == Segments(trkseg[..trksegn])
    {
      assert SegmentMappable(trkseg[trksegn]);
      var points := ParseWaypoints(Children(trkseg[trksegn])["trkpt"]);
      assert trkseg[..trksegn + 1][..trksegn] == trkseg[..trksegn];
      segments := segments + [List(points)];
    }
    assert trkseg[..|trkseg|] == trkseg;
    outTrack := outTrack["segments" := List(segments)];
  }

  /** `parseTracks`: push one object per `trk`, in order; `{}` when no track
      was pushed. */
  method ParseTracks(input: seq<Node>) returns (r: Object)
    requires TracksMappable(input)
    ensures r == Tracks(input)
  {
    var output: seq<Value> := [];
    for trackn := 0 to |input|
      invariant output == TrackList(input[..trackn])
    {
      var outTrack := ParseTrack(input[trackn]);
      assert input[..trackn + 1][..trackn] == input[..trackn];
      output := output + [Record(outTrack)];
    }
    assert output == TrackList(input) by {
      assert input[..|input|] == input;
    }
    if |output| > 0 {
      r := map["tracks" := List(output)];
    } else {
      r := map[];
    }
  }

  /** `parseRoutes`: for each `rte`, its fields and its mapped points;
      `{}` when no route was pushed. */
  method ParseRoutes(input: seq<Node>) returns (r: Object)
    requires RoutesMappable(input)
    ensures r == Routes(input)
  {
    var output: seq<Value> := [];
    for routen := 0 to |input|
      invariant output == RouteList(input[..routen])
    {
      var inRoute := input[routen];
      var outRoute: Object := map[];
      var extracted := ExtractSimpleItems(inRoute, RouteFields);
      outRoute := Extend(outRoute, extracted);
      var points := ParseWaypoints(Children(inRoute)["rtept"]);
      outRoute := outRoute["points" := List(points)];
      assert input[..routen + 1][..routen] == input[..routen];
      output := output + [Record(outRoute)];
    }
    assert output == RouteList(input) by {
      assert input[..|input|] == input;
    }
    if |output| > 0 {
      r := map["routes" := List(output)];
    } else {
      r := map[];
    }
  }

  /** The dispatch of `convert` on the parsed `gpx` root: merge in each
      contribution whose source list is present, in the order metadata,
      waypoints, tracks, routes. */
  method ConvertGpx(source: Node) returns (result: Object)
    requires GpxMappable(source)
    ensures result == Convert(source)
  {
    var kids := Children(source);
    result := map[];
    if "metadata" in kids {
      var md := ParseMetadata(kids["metadata"]);
      result := Extend(result, md);
    }
    assert result == Extend(map[], MetadataPart(source));
    ghost var sofar := result;
    if "wpt" in kids {
      var wpts := ParseWaypoints(kids["wpt"]);
      result := Extend(result, map["waypoints" := List(wpts)]);
    }
    assert result == Extend(sofar, WaypointsPart(source));
    sofar := result;
    if "trk" in kids {
      var tracks := ParseTracks(kids["trk"]);
      result := Extend(result, tracks);
      assert tracks == TracksPart(source);
    } else {
      assert TracksPart(source) == map[];
      ExtendWithNothing(result);
    }
    assert result == Extend(sofar, TracksPart(source));
    sofar := result;
    if "rte" in kids {
      var routes := ParseRoutes(kids["rte"]);
      result := Extend(result, routes);
      assert routes == RoutesPart(source);
    } else {
      assert RoutesPart(source) == map[];
      ExtendWithNothing(result);
    }
    assert result == Extend(sofar, RoutesPart(source));
  }
}
