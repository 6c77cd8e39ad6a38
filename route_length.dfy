/** The routes page's length and duration of a route: the kilometres along
    its lines (`sumLineKm`, `lengthFromGeometry`, `getKmFromGeojson`) and the
    time label built from a declared duration or estimated from the length
    (`getTimeLabelFromGeojson`). The distance between two positions is a
    parameter: any function that is never negative. */
module RouteLength {
  import opened Wrappers
  import opened GeoJson
  import Text

  /** The per-segment distance, in kilometres. */
  type Distance = (Position, Position) -> real

  ghost predicate NonNegative(dist: Distance)
  {
    forall a: Position, b: Position :: dist(a, b) >= 0.0
  }

  /** The sum of the distances between consecutive positions. */
  function Segments(coords: seq<Position>, dist: Distance): (km: real)
    requires NonNegative(dist)
    ensures km >= 0.0
    ensures |coords| < 2 ==> km == 0.0
  {
    if |coords| < 2 then 0.0
    else Segments(coords[..|coords| - 1], dist) + dist(coords[|coords| - 2], coords[|coords| - 1])
  }

  /** `sumLineKm`: the loop from the second position on, adding the
      distance from the one before. */
  method SumLineKm(coords: seq<Position>, dist: Distance) returns (s: real)
    requires NonNegative(dist)
    ensures s == Segments(coords, dist)
  {
    s := 0.0;
    if |coords| < 2 {
      return;
    }
    var i := 1;
    while i < |coords|
      invariant 1 <= i <= |coords|
      invariant s == Segments(coords[..i], dist)
    {
      assert coords[..i + 1][..i] == coords[..i];
      s := s + dist(coords[i - 1], coords[i]);
      i := i + 1;
    }
    assert coords[..i] == coords;
  }

  /** Two pieces joined end to start: the join adds one segment. */
  lemma {:induction false} SegmentsAppend(a: seq<Position>, b: seq<Position>, dist: Distance)
    requires NonNegative(dist) && a != [] && b != []
    ensures Segments(a + b, dist) == Segments(a, dist) + dist(a[|a| - 1], b[0]) + Segments(b, dist)
  {
    if |b| == 1 {
      assert (a + b)[..|a + b| - 1] == a;
    } else {
      var b' := b[..|b| - 1];
      assert (a + b)[..|a + b| - 1] == a + b';
      SegmentsAppend(a, b', dist);
      assert b'[|b'| - 1] == b[|b| - 2];
    }
  }

  /** Joining pieces never shortens them: the join's segment is not negative. */
  lemma SegmentsJoinAtLeast(a: seq<Position>, b: seq<Position>, dist: Distance)
    requires NonNegative(dist)
    ensures Segments(a, dist) + Segments(b, dist) <= Segments(a + b, dist)
  {
    if a == [] {
      assert a + b == b;
    } else if b == [] {
      assert a + b == a;
    } else {
      SegmentsAppend(a, b, dist);
    }
  }

  /** The `reduce` over the lines of a MultiLineString. */
  function LinesKm(lines: seq<seq<Position>>, dist: Distance): (km: real)
    requires NonNegative(dist)
    ensures km >= 0.0
  {
    if lines == [] then 0.0 else LinesKm(lines[..|lines| - 1], dist) + Segments(lines[|lines| - 1], dist)
  }

  /** The `reduce` over the polygons of a MultiPolygon: ring 0 of each. */
  function PolygonsKm(polygons: seq<seq<seq<Position>>>, dist: Distance): (km: real)
    requires NonNegative(dist)
    ensures km >= 0.0
  {
    if polygons == [] then 0.0
    else PolygonsKm(polygons[..|polygons| - 1], dist) + Segments(ExteriorRing(polygons[|polygons| - 1]), dist)
  }

  /** `lengthFromGeometry`: a LineString's segments, the sum over the lines
      of a MultiLineString, the perimeter of ring 0 of a Polygon, the sum of
      those of a MultiPolygon's polygons, and 0 for a null geometry, a Point
      or another type. */
  function GeometryKm(g: Option<Geometry>, dist: Distance): (km: real)
    requires NonNegative(dist)
    ensures km >= 0.0
    ensures g.None? || g.value.Point? || g.value.OtherGeometry? ==> km == 0.0
  {
    if g.None? then 0.0
    else match g.value
      case LineString(coords) => Segments(coords, dist)
      case MultiLineString(lines) => LinesKm(lines, dist)
      case Polygon(rings) => Segments(ExteriorRing(rings), dist)
      case MultiPolygon(polygons) => PolygonsKm(polygons, dist)
      case _ => 0.0
  }

  function FeaturesKm(fs: seq<Feature>, dist: Distance): (km: real)
    requires NonNegative(dist)
    ensures km >= 0.0
  {
    if fs == [] then 0.0 else FeaturesKm(fs[..|fs| - 1], dist) + GeometryKm(fs[|fs| - 1].geometry, dist)
  }

  /** A Feature's length is its geometry's; a FeatureCollection's the sum
      over its features. */
  function DocKm(d: Doc, dist: Distance): (km: real)
    requires NonNegative(dist)
    ensures km >= 0.0
  {
    match d
    case Bare(g) => GeometryKm(Some(g), dist)
    case Single(f) => GeometryKm(f.geometry, dist)
    case Collection(fs) => FeaturesKm(fs, dist)
  }

  /** `getKmFromGeojson`: 0 for a falsy value or a text that does not parse;
      None for the text `null`, on which reading `g.type` throws. */
  function KmFromGeojson(s: Stored, dist: Distance): (km: Option<real>)
    requires NonNegative(dist)
    ensures km.None? <==> s == Serialized(ParsedNull)
    ensures km.Some? ==> km.value >= 0.0
    ensures DocOf(s).None? && km.Some? ==> km.value == 0.0
  {
    if s == Serialized(ParsedNull) then None
    else if DocOf(s).Some? then Some(DocKm(DocOf(s).value, dist))
    else Some(0.0)
  }

  lemma {:induction false} FeaturesKmAppend(a: seq<Feature>, b: seq<Feature>, dist: Distance)
    requires NonNegative(dist)
    ensures FeaturesKm(a + b, dist) == FeaturesKm(a, dist) + FeaturesKm(b, dist)
  {
    if b == [] {
      assert a + b == a;
    } else {
      var b' := b[..|b| - 1];
      assert (a + b)[..|a + b| - 1] == a + b';
      FeaturesKmAppend(a, b', dist);
    }
  }

  /** The length of a collection is additive over its features. */
  lemma CollectionKmAdds(a: seq<Feature>, b: seq<Feature>, dist: Distance)
    requires NonNegative(dist)
    ensures KmFromGeojson(Object(Collection(a + b)), dist).value
         == KmFromGeojson(Object(Collection(a)), dist).value + KmFromGeojson(Object(Collection(b)), dist).value
  {
    FeaturesKmAppend(a, b, dist);
  }

  lemma {:induction false} LinesKmAtMostPath(lines: seq<seq<Position>>, dist: Distance)
    requires NonNegative(dist)
    ensures LinesKm(lines, dist) <= Segments(Flatten(lines), dist)
  {
    if lines != [] {
      var init := lines[..|lines| - 1];
      LinesKmAtMostPath(init, dist);
      SegmentsJoinAtLeast(Flatten(init), lines[|lines| - 1], dist);
    }
  }

  lemma {:induction false} PolygonsKmAtMostPath(polygons: seq<seq<seq<Position>>>, dist: Distance)
    requires NonNegative(dist)
    ensures PolygonsKm(polygons, dist) <= Segments(ExteriorRings(polygons), dist)
  {
    if polygons != [] {
      var init := polygons[..|polygons| - 1];
      PolygonsKmAtMostPath(init, dist);
      SegmentsJoinAtLeast(ExteriorRings(init), ExteriorRing(polygons[|polygons| - 1]), dist);
    }
  }

  lemma GeometryKmAtMostPath(g: Option<Geometry>, dist: Distance)
    requires NonNegative(dist)
    ensures GeometryKm(g, dist) <= Segments(GeometryLine(g), dist)
  {
    if g.Some? && g.value.MultiLineString? {
      LinesKmAtMostPath(g.value.lines, dist);
    } else if g.Some? && g.value.MultiPolygon? {
      PolygonsKmAtMostPath(g.value.polygons, dist);
    }
  }

  lemma {:induction false} FeaturesKmAtMostPath(fs: seq<Feature>, dist: Distance)
    requires NonNegative(dist)
    ensures FeaturesKm(fs, dist) <= Segments(FeaturesLine(fs), dist)
  {
    if fs != [] {
      var init := fs[..|fs| - 1];
      FeaturesKmAtMostPath(init, dist);
      GeometryKmAtMostPath(fs[|fs| - 1].geometry, dist);
      SegmentsJoinAtLeast(FeaturesLine(init), GeometryLine(fs[|fs| - 1].geometry), dist);
    }
  }

  /** The length counts the segments within each line and not the jumps
      between lines, so it never exceeds the length of the path the map
      draws through all of them. */
  lemma KmAtMostPathLength(d: Doc, dist: Distance)
    requires NonNegative(dist)
    ensures DocKm(d, dist) <= Segments(DocLine(d), dist)
  {
    match d
    case Bare(g) => GeometryKmAtMostPath(Some(g), dist);
    case Single(f) => GeometryKmAtMostPath(f.geometry, dist);
    case Collection(fs) => FeaturesKmAtMostPath(fs, dist);
  }

  // ------------------------------------------------------------ time label

  /** `Math.round(n / 60)` for an integer `n`: halves round up. */
  function RoundDiv60(n: int): (q: int)
    ensures 60 * q - 30 <= n < 60 * q + 30
  {
    (n + 30) / 60
  }

  /** `typeof props[k] === 'number'`. */
  predicate HasNumber(props: Option<Props>, k: string)
  {
    props.Some? && k in props.value && props.value[k].Number?
  }

  /** The declared duration in minutes: `durationMinutes`, else the rounded
      minutes of `durationSeconds`, else `timeMin`, each taken only when it is
      a number. */
  function DeclaredMinutes(props: Option<Props>): (m: Option<int>)
    ensures HasNumber(props, "durationMinutes") ==> m == Some(props.value["durationMinutes"].n)
    ensures !HasNumber(props, "durationMinutes") && HasNumber(props, "durationSeconds") ==>
      m == Some(RoundDiv60(props.value["durationSeconds"].n))
    ensures m.None? <==>
      !HasNumber(props, "durationMinutes") && !HasNumber(props, "durationSeconds") && !HasNumber(props, "timeMin")
  {
    if HasNumber(props, "durationMinutes") then Some(props.value["durationMinutes"].n)
    else if HasNumber(props, "durationSeconds") then Some(RoundDiv60(props.value["durationSeconds"].n))
    else if HasNumber(props, "timeMin") then Some(props.value["timeMin"].n)
    else None
  }

  /** `${n}` for an integer. */
  function IntToString(n: int): string
  {
    if n < 0 then "-" + Text.NatToString(-n) else Text.NatToString(n)
  }

  /** JavaScript's `%`: the remainder takes the sign of the dividend. */
  function JsRem60(n: int): (r: int)
    ensures n >= 0 ==> 0 <= r < 60 && r == n % 60
    ensures n < 0 ==> -60 < r <= 0 && r == -((-n) % 60)
    ensures (n - r) % 60 == 0
  {
    if n >= 0 then n % 60 else -((-n) % 60)
  }

  /** The label of a minute count: "`h`h `m`m" with the whole hours (the
      floor of minutes / 60) when there is at least one, "`m`m" otherwise. */
  function Label(minutes: int): string
  {
    var h := minutes / 60;
    var m := JsRem60(minutes);
    if h > 0 then IntToString(h) + "h " + IntToString(m) + "m" else IntToString(m) + "m"
  }

  /** The estimate from the length at 50 km/h: `Math.round(km / 50 * 60)`,
      at least one minute. */
  function EstimatedMinutes(km: real): (m: int)
    ensures m >= 1
  {
    var r := (km * 6.0 / 5.0 + 0.5).Floor;
    if r > 1 then r else 1
  }

  /** The properties the label reads: those of a Feature. */
  function PropsOf(d: Doc): Option<Props>
  {
    if d.Single? then d.feature.properties else None
  }

  /** `getTimeLabelFromGeojson`: "-" for a falsy value or a text that does
      not parse; the declared duration when there is one; otherwise the
      estimate from a positive length, or "-" for no length. None for the
      text `null`, on which reading `g.properties` throws. */
  function TimeLabel(s: Stored, dist: Distance): (shown: Option<string>)
    requires NonNegative(dist)
    ensures shown.None? <==> s == Serialized(ParsedNull)
    ensures DocOf(s).None? && shown.Some? ==> shown.value == "-"
    ensures DocOf(s).Some? && DeclaredMinutes(PropsOf(DocOf(s).value)).Some? ==>
      shown == Some(Label(DeclaredMinutes(PropsOf(DocOf(s).value)).value))
    ensures DocOf(s).Some? && DeclaredMinutes(PropsOf(DocOf(s).value)).None? ==>
      var km := DocKm(DocOf(s).value, dist);
      shown == Some(if km > 0.0 then Label(EstimatedMinutes(km)) else "-")
  {
    if s == Serialized(ParsedNull) then None
    else if DocOf(s).None? then Some("-")
    else
      var d := DocOf(s).value;
      var declared := DeclaredMinutes(PropsOf(d));
      if declared.Some? then Some(Label(declared.value))
      else
        var km := DocKm(d, dist);
        if km > 0.0 then Some(Label(EstimatedMinutes(km))) else Some("-")
  }

  /** Without a declared duration, the label is "-" exactly when the route
      has no length, and otherwise counts at least one minute. */
  lemma DashIffNoLength(d: Doc, dist: Distance)
    requires NonNegative(dist)
    requires DeclaredMinutes(PropsOf(d)).None?
    ensures TimeLabel(Object(d), dist) == Some("-") <==> DocKm(d, dist) == 0.0
  {
    if DocKm(d, dist) > 0.0 {
      LabelHasDigits(EstimatedMinutes(DocKm(d, dist)));
    }
  }

  lemma LabelHasDigits(minutes: int)
    ensures Label(minutes) != "-"
  {
    var l := Label(minutes);
    assert l[|l| - 1] == 'm';
  }

  predicate IsDigit(c: char)
  {
    '0' <= c <= '9'
  }

  /** The length of the run of digits a text starts with. */
  function DigitRun(l: string): (n: nat)
    ensures n <= |l|
  {
    if l == [] || !IsDigit(l[0]) then 0 else 1 + DigitRun(l[1..])
  }

  lemma {:induction false} DigitRunOf(s: string, rest: string)
    requires forall i :: 0 <= i < |s| ==> IsDigit(s[i])
    requires rest != [] && !IsDigit(rest[0])
    ensures DigitRun(s + rest) == |s|
  {
    if s == [] {
      assert s + rest == rest;
    } else {
      assert (s + rest)[1..] == s[1..] + rest;
      DigitRunOf(s[1..], rest);
    }
  }

  /** A label starts with the digits of the hours, followed by 'h', when
      there are hours, and with the digits of the minutes, followed by 'm',
      otherwise. */
  lemma LabelStart(a: nat)
    ensures var l := Label(a);
      && DigitRun(l) < |l|
      && (a / 60 > 0 ==> l[..DigitRun(l)] == Text.NatToString(a / 60) && l[DigitRun(l)] == 'h'
                         && l[DigitRun(l) + 2..|l| - 1] == Text.NatToString(a % 60))
      && (a / 60 == 0 ==> l[..DigitRun(l)] == Text.NatToString(a % 60) && l[DigitRun(l)] == 'm')
  {
    var l := Label(a);
    var h, m := Text.NatToString(a / 60), Text.NatToString(a % 60);
    if a / 60 > 0 {
      assert l == h + ("h " + m + "m");
      DigitRunOf(h, "h " + m + "m");
    } else {
      assert l == m + "m";
      DigitRunOf(m, "m");
    }
  }

  /** Labels of non-negative counts determine the count: 60 * h + m. */
  lemma {:induction false} LabelDeterminesMinutes(a: nat, b: nat)
    requires Label(a) == Label(b)
    ensures a == b
  {
    var l := Label(a);
    LabelStart(a);
    LabelStart(b);
    if a / 60 > 0 && b / 60 > 0 {
      Text.NatToStringInjective(a / 60, b / 60);
      Text.NatToStringInjective(a % 60, b % 60);
    } else if a / 60 > 0 || b / 60 > 0 {
      assert false;
    } else {
      Text.NatToStringInjective(a % 60, b % 60);
    }
  }
}
