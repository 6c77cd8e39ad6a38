/** The body of `POST /registrations` as JSON gives it, and what the global
    validation pipe (whitelist, forbidNonWhitelisted, transform) accepts for
    it under the declared `CreateRegistrationDto` and `SponsorLocationInput`
    constraints. */
module RegistrationDto {
  import opened Wrappers
  import Backend

  /** A JSON value. */
  datatype Value =
    | Null
    | Bool(b: bool)
    | Num(x: real)
    | Str(s: string)
    | List(items: seq<Value>)
    | Object(fields: map<string, Value>)

  /** The properties present in a JSON object; a missing key is `undefined`. */
  type Body = map<string, Value>

  /** `obj[key]`, None standing for `undefined`. */
  function Lookup(body: Body, key: string): (r: Option<Value>)
    ensures r.Some? <==> key in body
  {
    if key in body then Some(body[key]) else None
  }

  /** What `@IsOptional()` lets through untested: `null` or `undefined`. */
  predicate Missing(body: Body, key: string)
  {
    key !in body || body[key] == Null
  }

  /** The string at `key`, when there is one. */
  function StrField(body: Body, key: string): (r: Option<string>)
    ensures r.Some? <==> key in body && body[key].Str?
  {
    if key in body && body[key].Str? then Some(body[key].s) else None
  }

  /** `@Length(lo, hi)` on a string; lengths are counted in characters. */
  predicate LengthIn(v: Value, lo: nat, hi: nat)
  {
    v.Str? && lo <= |v.s| <= hi
  }

  /** The format validators class-validator takes from validator.js. */
  datatype Formats = Formats(isIso8601: string -> bool, isStrictIso8601: string -> bool, isEmail: string -> bool)

  /** The properties `CreateRegistrationDto` declares. */
  const DtoKeys: set<string> := {
    "type", "routeId", "when", "whenMultiple", "name", "email", "phone", "license",
    "motoPlate", "motoBrand", "motoModel", "motoClub", "message", "companyName",
    "website", "services", "sponsorLocations"}

  /** The declared optional plain strings. */
  const OptionalStringKeys: set<string> := {
    "motoPlate", "motoBrand", "motoModel", "motoClub", "message", "companyName", "website", "services"}

  /** The properties `SponsorLocationInput` declares. */
  const LocationKeys: set<string> := {"lat", "lng", "label", "category", "note"}

  const TypeNames: set<string> := {"PILOT", "SPECTATOR", "SPONSOR"}

  /** A `SponsorLocationInput`: an object with only declared properties,
      numeric lat and lng, and label, category and note absent, null or strings. */
  predicate ValidLocation(v: Value)
  {
    && v.Object? && v.fields.Keys <= LocationKeys
    && "lat" in v.fields && v.fields["lat"].Num?
    && "lng" in v.fields && v.fields["lng"].Num?
    && (Missing(v.fields, "label") || v.fields["label"].Str?)
    && (Missing(v.fields, "category") || v.fields["category"].Str?)
    && (Missing(v.fields, "note") || v.fields["note"].Str?)
  }

  /** The pipe accepts the body: no undeclared property, and every declared
      constraint met. `routeId` and `when` are required for every type. */
  predicate ValidDto(body: Body, f: Formats)
  {
    && body.Keys <= DtoKeys
    && "type" in body && body["type"].Str? && body["type"].s in TypeNames
    && "routeId" in body && body["routeId"].Str?
    && "when" in body && body["when"].Str? && f.isIso8601(body["when"].s)
    && (Missing(body, "whenMultiple") ||
          (body["whenMultiple"].List?
           && forall i :: 0 <= i < |body["whenMultiple"].items| ==>
                body["whenMultiple"].items[i].Str? && f.isStrictIso8601(body["whenMultiple"].items[i].s)))
    && "name" in body && LengthIn(body["name"], 2, 120)
    && "email" in body && body["email"].Str? && f.isEmail(body["email"].s)
    && "phone" in body && LengthIn(body["phone"], 5, 30)
    && (Missing(body, "license") || LengthIn(body["license"], 3, 50))
    && (forall k :: k in OptionalStringKeys ==> Missing(body, k) || body[k].Str?)
    && (Missing(body, "sponsorLocations") ||
          (body["sponsorLocations"].List?
           && forall i :: 0 <= i < |body["sponsorLocations"].items| ==> ValidLocation(body["sponsorLocations"].items[i])))
  }

  /** `routeSlug` is not declared, so a body that carries it never passes:
      the service's lookup by slug cannot be reached over HTTP. */
  lemma PipeRejectsRouteSlug(body: Body, f: Formats)
    requires "routeSlug" in body
    ensures !ValidDto(body, f)
  {
    assert "routeSlug" !in DtoKeys;
  }

  /** The facts about an accepted body that the controller's checks
      depend on: the type is one of the three, the required properties are
      strings, license and companyName are missing or strings, and there is
      no routeSlug. */
  predicate WellTyped(body: Body)
  {
    && "type" in body && (body["type"] == Str("PILOT") || body["type"] == Str("SPECTATOR") || body["type"] == Str("SPONSOR"))
    && "name" in body && body["name"].Str? && "email" in body && body["email"].Str?
    && "phone" in body && body["phone"].Str?
    && "routeId" in body && body["routeId"].Str? && "when" in body && body["when"].Str?
    && (Missing(body, "license") || body["license"].Str?)
    && (Missing(body, "companyName") || body["companyName"].Str?)
    && "routeSlug" !in body
  }

  lemma AcceptedIsWellTyped(body: Body, f: Formats)
    requires ValidDto(body, f)
    ensures WellTyped(body)
  {
    assert "routeSlug" !in DtoKeys;
    assert "companyName" in OptionalStringKeys;
  }

  /** The service's view of one nested location. */
  predicate DescribesLocation(v: Value, l: Backend.LocationInput)
  {
    v.Object? && "lat" in v.fields && "lng" in v.fields
    && v.fields["lat"] == Num(l.lat) && v.fields["lng"] == Num(l.lng)
    && l.labelText == StrField(v.fields, "label")
    && l.category == StrField(v.fields, "category")
    && l.note == StrField(v.fields, "note")
  }

  function KindOf(name: string): Backend.RegType
  {
    if name == "PILOT" then Backend.Pilot
    else if name == "SPECTATOR" then Backend.Spectator
    else Backend.Sponsor
  }

  /** `d` is what the service reads from `body`: the same strings and
      numbers, a route id exactly when the body's routeId is a non-empty
      string (which row a given id text names is not modelled), and each
      date with its text. */
  predicate Describes(body: Body, d: Backend.RegistrationInput)
  {
    && "type" in body && body["type"].Str? && d.kind == KindOf(body["type"].s)
    && (d.routeId.None? <==> !(StrField(body, "routeId").Some? && StrField(body, "routeId").value != []))
    && d.routeSlug == StrField(body, "routeSlug")
    && (d.when.Some? <==> StrField(body, "when").Some?)
    && (d.when.Some? ==> d.when.value.text == StrField(body, "when").value)
    && (d.whenMultiple.Some? <==> ("whenMultiple" in body && body["whenMultiple"].List?))
    && (d.whenMultiple.Some? ==>
          |d.whenMultiple.value| == |body["whenMultiple"].items|
          && forall i :: 0 <= i < |d.whenMultiple.value| ==> body["whenMultiple"].items[i] == Str(d.whenMultiple.value[i].text))
    && StrField(body, "name") == Some(d.name)
    && StrField(body, "email") == Some(d.email)
    && StrField(body, "phone") == Some(d.phone)
    && d.license == StrField(body, "license")
    && d.motoPlate == StrField(body, "motoPlate") && d.motoBrand == StrField(body, "motoBrand")
    && d.motoModel == StrField(body, "motoModel") && d.motoClub == StrField(body, "motoClub")
    && d.message == StrField(body, "message") && d.companyName == StrField(body, "companyName")
    && d.website == StrField(body, "website") && d.services == StrField(body, "services")
    && (d.sponsorLocations.Some? <==> ("sponsorLocations" in body && body["sponsorLocations"].List?))
    && (d.sponsorLocations.Some? ==>
          |d.sponsorLocations.value| == |body["sponsorLocations"].items|
          && forall i :: 0 <= i < |d.sponsorLocations.value| ==>
               DescribesLocation(body["sponsorLocations"].items[i], d.sponsorLocations.value[i]))
  }

  /** A body the pipe accepts reaches the service without a route slug and
      with a `when` date, whatever its type. */
  lemma AcceptedBodyShape(body: Body, f: Formats, d: Backend.RegistrationInput)
    requires ValidDto(body, f) && Describes(body, d)
    ensures d.routeSlug.None? && d.when.Some?
    ensures 2 <= |d.name| <= 120 && 5 <= |d.phone| <= 30
    ensures d.license.Some? ==> 3 <= |d.license.value| <= 50
  {
    assert "routeSlug" !in DtoKeys;
  }
}
