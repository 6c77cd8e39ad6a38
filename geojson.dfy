/** Route geometry as the front end reads it: a closed tagged union over the
    GeoJSON objects of RFC 7946, and the traversal `extractLineCoords` of the
    home page, which flattens a document into the points of its lines. */
module GeoJson {
  import opened Wrappers

  /** A position: longitude first, then latitude (section 3.1.1 of RFC 7946). */
  datatype Position = Position(lng: real, lat: real)

  /** A point as the map library takes it: latitude first. */
  datatype LatLng = LatLng(lat: real, lng: real)

  /** A property value of a Feature; numbers are the integral ones. */
  datatype Prop = Number(n: int) | Text(s: string) | OtherProp

  type Props = map<string, Prop>

  /** The geometry objects of section 3.1 of RFC 7946 the front end tells
      apart; `OtherGeometry` is any other `type` (GeometryCollection, an
      unknown name, or a value that is not an object at all). A Polygon's
      ring 0 is its exterior ring (section 3.1.6). */
  datatype Geometry =
    | Point(at: Position)
    | LineString(coords: seq<Position>)
    | MultiLineString(lines: seq<seq<Position>>)
    | Polygon(rings: seq<seq<Position>>)
    | MultiPolygon(polygons: seq<seq<seq<Position>>>)
    | OtherGeometry

  /** A Feature (section 3.2): its geometry and its properties may be null. */
  datatype Feature = Feature(geometry: Option<Geometry>, properties: Option<Props>)

  /** A GeoJSON text: a bare geometry, a Feature, or a FeatureCollection
      (section 3.3; a missing `features` member reads as no features). */
  datatype Doc = Bare(geometry: Geometry) | Single(feature: Feature) | Collection(features: seq<Feature>)

  /** What `JSON.parse` makes of a stored text. */
  datatype Parsed = Unparseable | ParsedNull | ParsedDoc(doc: Doc)

  /** A route's `geojson` column as it reaches the page: a falsy value
      (null, undefined or the empty text), an object, or a text still to parse. */
  datatype Stored = Missing | Object(doc: Doc) | Serialized(parsed: Parsed)

  predicate IsLine(g: Geometry)
  {
    g.LineString? || g.MultiLineString?
  }

  predicate IsArea(g: Geometry)
  {
    g.Polygon? || g.MultiPolygon?
  }

  // ------------------------------------------------------------ traversal

  /** The lines of a MultiLineString, one after the other. */
  function Flatten(lines: seq<seq<Position>>): (ps: seq<Position>)
    ensures lines == [] ==> ps == []
  {
    if lines == [] then [] else Flatten(lines[..|lines| - 1]) + lines[|lines| - 1]
  }

  /** Ring 0 of a polygon, or nothing when it has no ring. */
  function ExteriorRing(rings: seq<seq<Position>>): seq<Position>
  {
    if |rings| > 0 then rings[0] else []
  }

  /** Ring 0 of every polygon of a MultiPolygon, one after the other. */
  function ExteriorRings(polygons: seq<seq<seq<Position>>>): seq<Position>
  {
    if polygons == [] then []
    else ExteriorRings(polygons[..|polygons| - 1]) + ExteriorRing(polygons[|polygons| - 1])
  }

  /** The positions one geometry contributes to a route's line: a
      LineString's coordinates, every line of a MultiLineString, ring 0 of a
      Polygon, ring 0 of every polygon of a MultiPolygon; nothing for a
      Point, another type or a null geometry. */
  function GeometryLine(g: Option<Geometry>): seq<Position>
  {
    if g.None? then []
    else match g.value
      case LineString(coords) => coords
      case MultiLineString(lines) => Flatten(lines)
      case Polygon(rings) => ExteriorRing(rings)
      case MultiPolygon(polygons) => ExteriorRings(polygons)
      case _ => []
  }

  /** The lines of every feature, in order. */
  function FeaturesLine(fs: seq<Feature>): seq<Position>
  {
    if fs == [] then [] else FeaturesLine(fs[..|fs| - 1]) + GeometryLine(fs[|fs| - 1].geometry)
  }

  /** The positions `handleGeom` collects from a document. */
  function DocLine(d: Doc): seq<Position>
  {
    match d
    case Bare(g) => GeometryLine(Some(g))
    case Single(f) => GeometryLine(f.geometry)
    case Collection(fs) => FeaturesLine(fs)
  }

  /** `[lng, lat]` pairs turned into `{lat, lng}` points. */
  function Swap(ps: seq<Position>): (pts: seq<LatLng>)
    ensures |pts| == |ps|
    ensures forall i :: 0 <= i < |ps| ==> pts[i] == LatLng(ps[i].lat, ps[i].lng)
  {
    if ps == [] then [] else Swap(ps[..|ps| - 1]) + [LatLng(ps[|ps| - 1].lat, ps[|ps| - 1].lng)]
  }

  /** `extractLineCoords`: nothing for a falsy value or a text that does not
      parse; the swapped line of the document otherwise. A text that parses
      to `null` passes the falsy test before parsing and then fails on
      `g.type`: None stands for that TypeError. */
  function ExtractLineCoords(s: Stored): (r: Option<seq<LatLng>>)
    ensures r.None? <==> s == Serialized(ParsedNull)
  {
    match s
    case Missing => Some([])
    case Object(d) => Some(Swap(DocLine(d)))
    case Serialized(Unparseable) => Some([])
    case Serialized(ParsedNull) => None
    case Serialized(ParsedDoc(d)) => Some(Swap(DocLine(d)))
  }

  /** The document a stored value holds, if any. */
  function DocOf(s: Stored): Option<Doc>
  {
    match s
    case Object(d) => Some(d)
    case Serialized(ParsedDoc(d)) => Some(d)
    case _ => None
  }

  /** The route path with the `null` text read as no route: what the
      traversal evidently means for every stored value. */
  function RoutePath(s: Stored): (pts: seq<LatLng>)
    ensures DocOf(s).None? ==> pts == []
  {
    if DocOf(s).Some? then Swap(DocLine(DocOf(s).value)) else []
  }

  // -------------------------------------------------------------- lemmas

  lemma {:induction false} SwapAppend(a: seq<Position>, b: seq<Position>)
    ensures Swap(a + b) == Swap(a) + Swap(b)
  {
    if b != [] {
      var b' := b[..|b| - 1];
      assert (a + b)[..|a + b| - 1] == a + b';
      SwapAppend(a, b');
    } else {
      assert a + b == a;
    }
  }

  lemma {:induction false} FeaturesLineAppend(a: seq<Feature>, b: seq<Feature>)
    ensures FeaturesLine(a + b) == FeaturesLine(a) + FeaturesLine(b)
  {
    if b != [] {
      var b' := b[..|b| - 1];
      assert (a + b)[..|a + b| - 1] == a + b';
      FeaturesLineAppend(a, b');
    } else {
      assert a + b == a;
    }
  }

  /** The points of a FeatureCollection are those of its features, in
      order: the line of `a + b` is the line of `a` followed by that of `b`. */
  lemma CollectionIsConcatenation(a: seq<Feature>, b: seq<Feature>)
    ensures ExtractLineCoords(Object(Collection(a + b))).value
         == ExtractLineCoords(Object(Collection(a))).value + ExtractLineCoords(Object(Collection(b))).value
  {
    FeaturesLineAppend(a, b);
    SwapAppend(FeaturesLine(a), FeaturesLine(b));
  }

  /** Point features add nothing to the path. */
  lemma PointsIgnored(fs: seq<Feature>, p: Position, props: Option<Props>)
    ensures ExtractLineCoords(Object(Collection(fs + [Feature(Some(Point(p)), props)])))
         == ExtractLineCoords(Object(Collection(fs)))
  {
    FeaturesLineAppend(fs, [Feature(Some(Point(p)), props)]);
    assert FeaturesLine([Feature(Some(Point(p)), props)]) == [];
    assert FeaturesLine(fs) + [] == FeaturesLine(fs);
  }

  /** A Feature reads as its geometry alone. */
  lemma FeatureIsItsGeometry(g: Geometry, props: Option<Props>)
    ensures ExtractLineCoords(Object(Single(Feature(Some(g), props)))) == ExtractLineCoords(Object(Bare(g)))
  {
  }

  /** Wherever `extractLineCoords` returns, it returns the route path; it
      throws exactly on the text `null`. */
  lemma {:induction false} ExtractIsRoutePath(s: Stored)
    ensures ExtractLineCoords(s).Some? ==> ExtractLineCoords(s).value == RoutePath(s)
    ensures s == Serialized(ParsedNull) ==> ExtractLineCoords(s).None? && RoutePath(s) == []
  {
  }

  /** The discrepancy: a `geojson` column holding the text `null` makes
      `extractLineCoords` throw, where an absent one gives no points. */
  lemma NullTextThrows()
    ensures ExtractLineCoords(Serialized(ParsedNull)).None?
    ensures ExtractLineCoords(Missing) == Some([])
  {
  }
}
