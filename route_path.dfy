/** The tracking map's reading of the selected route (`getSelectedRoutePath`),
    which pushes points into an array loop by loop, and the edit tool that
    moves the vertex nearest to a click. */
module RoutePath {
  import opened Wrappers
  import opened GeoJson

  /** `pushCoords`: appends every `[lng, lat]` pair of `coords` as a point. */
  method PushCoords(out: seq<LatLng>, coords: seq<Position>) returns (r: seq<LatLng>)
    ensures r == out + Swap(coords)
  {
    r := out;
    var i := 0;
    while i < |coords|
      invariant 0 <= i <= |coords|
      invariant r == out + Swap(coords[..i])
    {
      assert coords[..i + 1][..i] == coords[..i];
      r := r + [LatLng(coords[i].lat, coords[i].lng)];
      i := i + 1;
    }
    assert coords[..i] == coords;
  }

  /** The loop over the lines of a MultiLineString. */
  method PushLines(out: seq<LatLng>, lines: seq<seq<Position>>) returns (r: seq<LatLng>)
    ensures r == out + Swap(Flatten(lines))
  {
    r := out;
    var i := 0;
    while i < |lines|
      invariant 0 <= i <= |lines|
      invariant r == out + Swap(Flatten(lines[..i]))
    {
      assert lines[..i + 1][..i] == lines[..i];
      PushedTwice(out, Flatten(lines[..i]), lines[i]);
      r := PushCoords(r, lines[i]);
      i := i + 1;
    }
    assert lines[..i] == lines;
  }

  /** `pushPolygon`: ring 0, when there is one. */
  method PushPolygon(out: seq<LatLng>, rings: seq<seq<Position>>) returns (r: seq<LatLng>)
    ensures r == out + Swap(ExteriorRing(rings))
  {
    r := out;
    if |rings| > 0 {
      r := PushCoords(r, rings[0]);
    } else {
      assert Swap([]) == [];
    }
  }

  /** The loop over the polygons of a MultiPolygon. */
  method PushPolygons(out: seq<LatLng>, polygons: seq<seq<seq<Position>>>) returns (r: seq<LatLng>)
    ensures r == out + Swap(ExteriorRings(polygons))
  {
    r := out;
    var i := 0;
    while i < |polygons|
      invariant 0 <= i <= |polygons|
      invariant r == out + Swap(ExteriorRings(polygons[..i]))
    {
      PolygonsStep(out, r, polygons, i);
      r := PushPolygon(r, polygons[i]);
      i := i + 1;
    }
    assert polygons[..i] == polygons;
  }

  /** One more polygon's ring 0 extends the pushed prefix by exactly it. */
  lemma PolygonsStep(out: seq<LatLng>, r: seq<LatLng>, polygons: seq<seq<seq<Position>>>, i: nat)
    requires i < |polygons|
    requires r == out + Swap(ExteriorRings(polygons[..i]))
    ensures r + Swap(ExteriorRing(polygons[i])) == out + Swap(ExteriorRings(polygons[..i + 1]))
  {
    var done, ring := ExteriorRings(polygons[..i]), ExteriorRing(polygons[i]);
    RingsSnoc(polygons, i);
    PushedTwice(out, done, ring);
  }

  /** Pushing `a` and then `b` is pushing `a + b`. */
  lemma PushedTwice(out: seq<LatLng>, a: seq<Position>, b: seq<Position>)
    ensures out + Swap(a) + Swap(b) == out + Swap(a + b)
  {
    SwapAppend(a, b);
  }

  lemma RingsSnoc(polygons: seq<seq<seq<Position>>>, i: nat)
    requires i < |polygons|
    ensures ExteriorRings(polygons[..i + 1]) == ExteriorRings(polygons[..i]) + ExteriorRing(polygons[i])
  {
    assert polygons[..i + 1][..i] == polygons[..i];
  }

  /** The pushes for one geometry: the whole LineString, each line of a
      MultiLineString, ring 0 of a Polygon, ring 0 of each polygon of a
      MultiPolygon; nothing for anything else. */
  method PushGeometry(out: seq<LatLng>, g: Option<Geometry>) returns (r: seq<LatLng>)
    ensures r == out + Swap(GeometryLine(g))
  {
    r := out;
    if g.None? {
      assert Swap([]) == [];
      return;
    }
    match g.value {
      case LineString(coords) =>
        r := PushCoords(r, coords);
      case MultiLineString(lines) =>
        r := PushLines(r, lines);
      case Polygon(rings) =>
        r := PushPolygon(r, rings);
      case MultiPolygon(polygons) =>
        r := PushPolygons(r, polygons);
      case _ =>
        assert Swap([]) == [];
    }
  }

  /** The loop over the features of a FeatureCollection. */
  method PushFeatures(fs: seq<Feature>) returns (out: seq<LatLng>)
    ensures out == Swap(FeaturesLine(fs))
  {
    out := [];
    var i := 0;
    while i < |fs|
      invariant 0 <= i <= |fs|
      invariant out == Swap(FeaturesLine(fs[..i]))
    {
      assert fs[..i + 1][..i] == fs[..i];
      SwapAppend(FeaturesLine(fs[..i]), GeometryLine(fs[i].geometry));
      out := PushGeometry(out, fs[i].geometry);
      i := i + 1;
    }
    assert fs[..i] == fs;
  }

  /** `getSelectedRoutePath`: a text is parsed first, and one that fails or
      gives `null` leaves no route; a Feature contributes its geometry, a
      FeatureCollection each feature's geometry in order, a bare geometry
      itself. The result is the route path, and it agrees with
      `extractLineCoords` wherever that one returns. */
  method SelectedRoutePath(s: Stored) returns (out: seq<LatLng>)
    ensures out == RoutePath(s)
    ensures ExtractLineCoords(s).Some? ==> out == ExtractLineCoords(s).value
  {
    ExtractIsRoutePath(s);
    var doc := DocOf(s);
    if doc.None? {
      return [];
    }
    match doc.value {
      case Single(f) =>
        out := PushGeometry([], f.geometry);
      case Bare(g) =>
        out := PushGeometry([], Some(g));
      case Collection(fs) =>
        out := PushFeatures(fs);
    }
  }

  // --------------------------------------------------- move nearest vertex

  /** Squared planar distance in degrees; `Math.hypot` is its square root,
      so both order the vertices alike. */
  function Dist2(p: LatLng, q: LatLng): real
  {
    (p.lat - q.lat) * (p.lat - q.lat) + (p.lng - q.lng) * (p.lng - q.lng)
  }

  /** The scan for the vertex nearest to a click: the first index of least
      distance (a later vertex replaces the best only when strictly closer). */
  method NearestVertex(path: seq<LatLng>, click: LatLng) returns (best: nat)
    requires |path| > 0
    ensures best < |path|
    ensures forall i :: 0 <= i < |path| ==> Dist2(path[best], click) <= Dist2(path[i], click)
    ensures forall i :: 0 <= i < best ==> Dist2(path[best], click) < Dist2(path[i], click)
  {
    best := 0;
    var bestD := Dist2(path[0], click);
    var i := 1;
    while i < |path|
      invariant 1 <= i <= |path| && best < i
      invariant bestD == Dist2(path[best], click)
      invariant forall k :: 0 <= k < i ==> bestD <= Dist2(path[k], click)
      invariant forall k :: 0 <= k < best ==> bestD < Dist2(path[k], click)
    {
      var d := Dist2(path[i], click);
      if d < bestD {
        best, bestD := i, d;
      }
      i := i + 1;
    }
  }

  /** Back to `[lng, lat]` pairs. */
  function Unswap(pts: seq<LatLng>): (ps: seq<Position>)
    ensures |ps| == |pts|
    ensures forall i :: 0 <= i < |pts| ==> ps[i] == Position(pts[i].lng, pts[i].lat)
  {
    if pts == [] then [] else Unswap(pts[..|pts| - 1]) + [Position(pts[|pts| - 1].lng, pts[|pts| - 1].lat)]
  }

  /** The first feature whose geometry is a line or an area, if any. */
  function FirstTraced(fs: seq<Feature>): (k: Option<nat>)
    ensures k.Some? ==> k.value < |fs| && fs[k.value].geometry.Some? && (IsLine(fs[k.value].geometry.value) || IsArea(fs[k.value].geometry.value))
    ensures k.Some? ==> forall j :: 0 <= j < k.value ==> !(fs[j].geometry.Some? && (IsLine(fs[j].geometry.value) || IsArea(fs[j].geometry.value)))
    ensures k.None? ==> forall j :: 0 <= j < |fs| ==> !(fs[j].geometry.Some? && (IsLine(fs[j].geometry.value) || IsArea(fs[j].geometry.value)))
  {
    if fs == [] then None
    else if fs[0].geometry.Some? && (IsLine(fs[0].geometry.value) || IsArea(fs[0].geometry.value)) then Some(0)
    else
      var k := FirstTraced(fs[1..]);
      if k.Some? then Some(k.value + 1) else None
  }

  /** The document shown after moving a vertex: the edited path becomes one
      LineString that replaces the geometry of a Feature, of the first traced
      feature of a collection (feature 0 when there is none), or a bare
      geometry; no route at all becomes a new Feature. */
  function WithEditedPath(d: Option<Doc>, path: seq<LatLng>): (r: Doc)
    requires d.Some? && d.value.Collection? ==> |d.value.features| > 0
    ensures d.None? || !d.value.Collection? ==> DocLine(r) == Unswap(path)
    ensures d.Some? && d.value.Collection? && FirstTraced(d.value.features).Some? ==>
      var fs := d.value.features;
      var k := FirstTraced(fs).value;
      && r.Collection? && |r.features| == |fs|
      && GeometryLine(r.features[k].geometry) == Unswap(path)
      && r.features[k].properties == fs[k].properties
      && forall j :: 0 <= j < |fs| && j != k ==> r.features[j] == fs[j]
    ensures d.Some? && d.value.Collection? && FirstTraced(d.value.features).None? ==>
      var fs := d.value.features;
      && r.Collection? && |r.features| == |fs|
      && GeometryLine(r.features[0].geometry) == Unswap(path)
      && r.features[0].properties == fs[0].properties
      && forall j :: 0 < j < |fs| ==> r.features[j] == fs[j]
    ensures d.Some? && d.value.Single? ==> r.Single? && r.feature.properties == d.value.feature.properties
    ensures d.None? ==> r.Single? && r.feature.properties == Some(map[])
    ensures d.Some? && d.value.Bare? ==> r.Bare? && r.geometry == LineString(Unswap(path))
  {
    var line := LineString(Unswap(path));
    if d.None? then Single(Feature(Some(line), Some(map[])))
    else match d.value
      case Single(f) => Single(f.(geometry := Some(line)))
      case Collection(fs) =>
        var k := if FirstTraced(fs).Some? then FirstTraced(fs).value else 0;
        Collection(fs[k := fs[k].(geometry := Some(line))])
      case Bare(_) => Bare(line)
  }

  lemma {:induction false} SwapUnswap(pts: seq<LatLng>)
    ensures Swap(Unswap(pts)) == pts
  {
    var ps := Unswap(pts);
    assert forall i :: 0 <= i < |pts| ==> Swap(ps)[i] == pts[i];
  }

  /** Reading the route back after a vertex move on a Feature or a bare
      geometry gives the edited path itself. */
  lemma EditedPathReadsBack(d: Option<Doc>, path: seq<LatLng>)
    requires d.None? || !d.value.Collection?
    ensures RoutePath(Object(WithEditedPath(d, path))) == path
  {
    SwapUnswap(path);
  }

  /** A collection whose path is non-empty has a traced feature, so the
      fallback to feature 0 is never taken from the click handler. */
  lemma {:induction false} NonEmptyPathHasTracedFeature(fs: seq<Feature>)
    requires FeaturesLine(fs) != []
    ensures FirstTraced(fs).Some?
  {
    if FirstTraced(fs).None? {
      NoTracedNoLine(fs);
    }
  }

  lemma {:induction false} NoTracedNoLine(fs: seq<Feature>)
    requires forall j :: 0 <= j < |fs| ==> !(fs[j].geometry.Some? && (IsLine(fs[j].geometry.value) || IsArea(fs[j].geometry.value)))
    ensures FeaturesLine(fs) == []
  {
    if fs != [] {
      NoTracedNoLine(fs[..|fs| - 1]);
    }
  }

  /** The click handler with the move tool on: nothing for an empty path;
      otherwise the scan's vertex `best` takes the click's place in the path
      and the edited path is written back into the document. */
  method MoveNearestVertex(s: Stored, click: LatLng) returns (r: Option<Doc>, best: nat)
    ensures r.None? <==> RoutePath(s) == []
    ensures r.Some? ==>
      && best < |RoutePath(s)|
      && (forall i :: 0 <= i < |RoutePath(s)| ==> Dist2(RoutePath(s)[best], click) <= Dist2(RoutePath(s)[i], click))
      && DocOf(s).Some?
      && (DocOf(s).value.Collection? ==> FirstTraced(DocOf(s).value.features).Some?)
      && r.value == WithEditedPath(DocOf(s), RoutePath(s)[best := click])
  {
    best := 0;
    var path := SelectedRoutePath(s);
    if |path| == 0 {
      return None, best;
    }
    best := NearestVertex(path, click);
    var updated := path[best := click];
    var d := DocOf(s);
    if d.value.Collection? {
      NonEmptyPathHasTracedFeature(d.value.features);
    }
    r := Some(WithEditedPath(d, updated));
  }
}
