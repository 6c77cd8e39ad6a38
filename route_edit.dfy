/** The two rewrites of a route's document on the tracking map: the
    LineString normaliser applied when an edited route is saved as one line,
    and the merge of the points of interest placed on the map into the
    route's document. */
module RouteEdit {
  import opened Wrappers
  import opened GeoJson

  // ------------------------------------------------------------ normalize

  /** `toFeature(geom)`: a Feature with empty properties. */
  function AsFeature(g: Geometry): Feature
  {
    Feature(Some(g), Some(map[]))
  }

  /** `toLS`: a LineString stays as it is; a MultiLineString is flattened;
      a Polygon gives ring 0, a MultiPolygon ring 0 of its FIRST polygon
      only; anything else (or a null geometry) gives nothing. */
  function ToLineFeature(g: Option<Geometry>): (r: Option<Feature>)
    ensures r.Some? <==> g.Some? && (IsLine(g.value) || IsArea(g.value))
    ensures r.Some? ==> r.value.geometry.Some? && r.value.geometry.value.LineString? && r.value.properties == Some(map[])
  {
    if g.None? then None
    else match g.value
      case LineString(_) => Some(AsFeature(g.value))
      case MultiLineString(lines) => Some(AsFeature(LineString(Flatten(lines))))
      case Polygon(rings) => Some(AsFeature(LineString(ExteriorRing(rings))))
      case MultiPolygon(polygons) =>
        Some(AsFeature(LineString(if |polygons| > 0 then ExteriorRing(polygons[0]) else [])))
      case _ => None
  }

  /** The first feature whose geometry satisfies the line test (`lines`) or
      the area test (otherwise). */
  function FindFeature(fs: seq<Feature>, lines: bool): (k: Option<nat>)
    ensures k.Some? ==> k.value < |fs| && fs[k.value].geometry.Some?
    ensures k.Some? ==> (if lines then IsLine(fs[k.value].geometry.value) else IsArea(fs[k.value].geometry.value))
    ensures k.None? <==> forall j :: 0 <= j < |fs| ==>
      !(fs[j].geometry.Some? && (if lines then IsLine(fs[j].geometry.value) else IsArea(fs[j].geometry.value)))
    ensures k.Some? ==> forall j :: 0 <= j < k.value ==>
      !(fs[j].geometry.Some? && (if lines then IsLine(fs[j].geometry.value) else IsArea(fs[j].geometry.value)))
  {
    if fs == [] then None
    else if fs[0].geometry.Some? && (if lines then IsLine(fs[0].geometry.value) else IsArea(fs[0].geometry.value)) then Some(0)
    else
      var k := FindFeature(fs[1..], lines);
      if k.Some? then Some(k.value + 1) else None
  }

  /** `normalize`: a Feature or a bare geometry becomes its LineString
      Feature, or stays as it is when it has none; a FeatureCollection
      becomes the LineString Feature of its first line feature, else of its
      first area feature, else stays as it is. */
  function Normalize(d: Doc): Doc
  {
    match d
    case Single(f) => if ToLineFeature(f.geometry).Some? then Single(ToLineFeature(f.geometry).value) else d
    case Bare(g) => if ToLineFeature(Some(g)).Some? then Single(ToLineFeature(Some(g)).value) else d
    case Collection(fs) =>
      var pick := if FindFeature(fs, true).Some? then FindFeature(fs, true) else FindFeature(fs, false);
      if pick.Some? then Single(ToLineFeature(fs[pick.value].geometry).value) else d
  }

  /** A document with something to trace, or nothing at all. */
  predicate Traced(d: Doc)
  {
    match d
    case Single(f) => f.geometry.Some? && (IsLine(f.geometry.value) || IsArea(f.geometry.value))
    case Bare(g) => IsLine(g) || IsArea(g)
    case Collection(fs) => exists j :: 0 <= j < |fs| && fs[j].geometry.Some? && (IsLine(fs[j].geometry.value) || IsArea(fs[j].geometry.value))
  }

  /** The saved value is a single LineString Feature exactly when the
      document has a line or an area; otherwise it is saved unchanged. */
  lemma NormalizeShape(d: Doc)
    ensures Traced(d) ==> Normalize(d).Single? && Normalize(d).feature.geometry.Some?
                          && Normalize(d).feature.geometry.value.LineString?
    ensures !Traced(d) ==> Normalize(d) == d
  {
    if d.Collection? && Traced(d) {
      var j :| 0 <= j < |d.features| && d.features[j].geometry.Some? && (IsLine(d.features[j].geometry.value) || IsArea(d.features[j].geometry.value));
      if FindFeature(d.features, true).None? {
        assert IsArea(d.features[j].geometry.value);
      }
    }
  }

  /** A line feature wins over an area feature that comes before it. */
  lemma LinesPreferred(fs: seq<Feature>, k: nat)
    requires k < |fs| && fs[k].geometry.Some? && IsLine(fs[k].geometry.value)
    requires forall j :: 0 <= j < k ==> !(fs[j].geometry.Some? && IsLine(fs[j].geometry.value))
    ensures Normalize(Collection(fs)) == Single(ToLineFeature(fs[k].geometry).value)
  {
    assert FindFeature(fs, true) == Some(k);
  }

  lemma {:induction false} FirstRingIsPrefix(polygons: seq<seq<seq<Position>>>)
    requires |polygons| > 0
    ensures ExteriorRing(polygons[0]) <= ExteriorRings(polygons)
  {
    if |polygons| > 1 {
      var init := polygons[..|polygons| - 1];
      FirstRingIsPrefix(init);
      assert init[0] == polygons[0];
    } else {
      assert polygons[..0] == [];
    }
  }

  /** On a Feature or a bare geometry the saved line is the route's own
      line, except for a MultiPolygon, where only the first polygon's ring
      survives: a prefix of what the extractors read. */
  lemma {:induction false} NormalizedLineIsPrefix(d: Doc)
    requires !d.Collection? && Traced(d)
    ensures DocLine(Normalize(d)) <= DocLine(d)
    ensures !(d.Bare? && d.geometry.MultiPolygon?) && !(d.Single? && d.feature.geometry.value.MultiPolygon?) ==>
            DocLine(Normalize(d)) == DocLine(d)
  {
    var g := if d.Bare? then d.geometry else d.feature.geometry.value;
    assert DocLine(d) == GeometryLine(Some(g));
    if g.MultiPolygon? && |g.polygons| > 0 {
      FirstRingIsPrefix(g.polygons);
    }
  }

  /** Two polygons: normalising keeps the first ring and drops the second. */
  lemma SecondPolygonDropped(r0: seq<Position>, r1: seq<Position>)
    requires r1 != []
    ensures DocLine(Normalize(Bare(MultiPolygon([[r0], [r1]])))) == r0
    ensures DocLine(Bare(MultiPolygon([[r0], [r1]]))) == r0 + r1 != r0
  {
    assert |r0 + r1| > |r0|;
    var ps := [[r0], [r1]];
    assert ps[..1] == [[r0]];
    assert ps[..1][..0] == [];
    assert ExteriorRings(ps[..1]) == r0;
    assert ExteriorRings(ps) == r0 + r1;
  }

  // -------------------------------------------------------------- POI merge

  /** A point of interest placed on the map: its category and optional name. */
  datatype Poi = Poi(lat: real, lng: real, category: string, name: Option<string>)

  /** A POI as a Point feature with `kind: 'poi'`, its category as `poiType`
      and its name when it has one (an undefined name is dropped by JSON). */
  function PoiFeature(p: Poi): (f: Feature)
    ensures f.geometry == Some(Point(Position(p.lng, p.lat)))
  {
    Feature(Some(Point(Position(p.lng, p.lat))), Some(PoiProps(p)))
  }

  function PoiProps(p: Poi): Props
  {
    var props := map["kind" := Text("poi"), "poiType" := Text(p.category)];
    if p.name.Some? then props["name" := Text(p.name.value)] else props
  }

  function PoiFeatures(pois: seq<Poi>): (fs: seq<Feature>)
    ensures |fs| == |pois|
    ensures forall i :: 0 <= i < |pois| ==> fs[i] == PoiFeature(pois[i])
  {
    if pois == [] then [] else PoiFeatures(pois[..|pois| - 1]) + [PoiFeature(pois[|pois| - 1])]
  }

  /** The route's document as the merge reads it: a text that fails to
      parse stays a string, which a collection's reader sees through
      `f.geometry` as a feature without geometry. */
  function Member(s: Stored): Feature
  {
    match s
    case Object(Single(f)) => f
    case Serialized(ParsedDoc(Single(f))) => f
    case _ => Feature(None, None)
  }

  /** The merge as written: no route gives a collection of the POIs; a
      collection gets the POIs appended; anything else is put first in a
      new collection, as it is. A bare geometry put there is read through
      `f.geometry`, which it lacks, so it reads as a feature without one. */
  function MergePoisAsWritten(s: Stored, pois: seq<Poi>): (d: Doc)
    ensures d.Collection? && |d.features| >= |pois| && d.features[|d.features| - |pois|..] == PoiFeatures(pois)
  {
    if s.Missing? || s == Serialized(ParsedNull) then Collection(PoiFeatures(pois))
    else if DocOf(s).Some? && DocOf(s).value.Collection? then Collection(DocOf(s).value.features + PoiFeatures(pois))
    else Collection([Member(s)] + PoiFeatures(pois))
  }

  /** The merge as evidently meant: a bare geometry is wrapped in a Feature
      before it joins the collection. */
  function MergePois(s: Stored, pois: seq<Poi>): (d: Doc)
    ensures d.Collection? && |d.features| >= |pois| && d.features[|d.features| - |pois|..] == PoiFeatures(pois)
  {
    if DocOf(s).Some? && DocOf(s).value.Bare? then Collection([AsFeature(DocOf(s).value.geometry)] + PoiFeatures(pois))
    else MergePoisAsWritten(s, pois)
  }

  lemma {:induction false} PoisHaveNoLine(pois: seq<Poi>)
    ensures FeaturesLine(PoiFeatures(pois)) == []
  {
    if pois != [] {
      var fs := PoiFeatures(pois);
      assert fs[..|fs| - 1] == PoiFeatures(pois[..|pois| - 1]);
      PoisHaveNoLine(pois[..|pois| - 1]);
    }
  }

  /** A document of one member followed by the POIs reads as that member. */
  lemma {:induction false} MemberThenPois(f: Feature, pois: seq<Poi>)
    ensures DocLine(Collection([f] + PoiFeatures(pois))) == GeometryLine(f.geometry)
  {
    var ps := PoiFeatures(pois);
    PoisHaveNoLine(pois);
    FeaturesLineAppend([f], ps);
    OneFeatureLine(f);
    assert FeaturesLine([f]) + FeaturesLine(ps) == GeometryLine(f.geometry) + [];
  }

  lemma OneFeatureLine(f: Feature)
    ensures FeaturesLine([f]) == GeometryLine(f.geometry)
  {
    assert [f][..0] == [];
  }

  lemma {:induction false} CollectionThenPois(fs: seq<Feature>, pois: seq<Poi>)
    ensures DocLine(Collection(fs + PoiFeatures(pois))) == DocLine(Collection(fs))
  {
    PoisHaveNoLine(pois);
    FeaturesLineAppend(fs, PoiFeatures(pois));
  }

  /** What the merge does to a document already parsed. */
  lemma {:induction false} MergeDocKeepsLine(d: Doc, pois: seq<Poi>)
    ensures DocLine(MergePois(Object(d), pois)) == DocLine(d)
  {
    match d
    case Collection(fs) => MergeCollectionKeepsLine(fs, pois);
    case Bare(g) => MergeBareKeepsLine(g, pois);
    case Single(f) => MergeSingleKeepsLine(f, pois);
  }

  lemma MergeCollectionKeepsLine(fs: seq<Feature>, pois: seq<Poi>)
    ensures DocLine(MergePois(Object(Collection(fs)), pois)) == DocLine(Collection(fs))
  {
    assert MergePois(Object(Collection(fs)), pois) == Collection(fs + PoiFeatures(pois));
    CollectionThenPois(fs, pois);
  }

  lemma MergeBareKeepsLine(g: Geometry, pois: seq<Poi>)
    ensures DocLine(MergePois(Object(Bare(g)), pois)) == DocLine(Bare(g))
  {
    assert MergePois(Object(Bare(g)), pois) == Collection([AsFeature(g)] + PoiFeatures(pois));
    MemberThenPois(AsFeature(g), pois);
  }

  lemma MergeSingleKeepsLine(f: Feature, pois: seq<Poi>)
    ensures DocLine(MergePois(Object(Single(f)), pois)) == DocLine(Single(f))
  {
    assert MergePois(Object(Single(f)), pois) == Collection([f] + PoiFeatures(pois));
    MemberThenPois(f, pois);
  }

  /** Without a document the merge has no line either. */
  lemma {:induction false} MergeNoDocHasNoLine(s: Stored, pois: seq<Poi>)
    requires DocOf(s).None?
    ensures DocLine(MergePois(s, pois)) == []
  {
    if s.Missing? || s == Serialized(ParsedNull) {
      PoisHaveNoLine(pois);
    } else {
      MemberThenPois(Feature(None, None), pois);
    }
  }

  /** Saving POIs never changes the route's path, whatever the route's
      document is. */
  lemma {:induction false} MergeKeepsRoutePath(s: Stored, pois: seq<Poi>)
    ensures RoutePath(Object(MergePois(s, pois))) == RoutePath(s)
  {
    if DocOf(s).Some? {
      var d := DocOf(s).value;
      MergeDocKeepsLine(d, pois);
      assert MergePois(s, pois) == MergePois(Object(d), pois);
    } else {
      MergeNoDocHasNoLine(s, pois);
    }
  }

  /** The discrepancy: a route stored as a bare geometry with a non-empty
      line loses its whole path when POIs are merged as written. */
  lemma {:induction false} BareRouteLosesPath(g: Geometry, pois: seq<Poi>)
    requires GeometryLine(Some(g)) != []
    ensures RoutePath(Object(MergePoisAsWritten(Object(Bare(g)), pois))) == []
    ensures RoutePath(Object(Bare(g))) != []
  {
    MemberThenPois(Feature(None, None), pois);
  }
}
