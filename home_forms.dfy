/** The three registration forms of the home page (pilot, spectator and
    sponsor): the checks each makes before sending, in their order, and the
    request body it then sends to `POST /registrations`. */
module HomeForms {
  import opened Wrappers
  import opened Text
  import opened RegistrationDto
  import RegistrationsController

  // ---------------------------------------------------------------- email

  /** A character of `[^\s@]`. */
  predicate Plain(c: char)
  {
    !IsSpace(c) && c != '@'
  }

  predicate AllPlain(t: string)
  {
    forall k :: 0 <= k < |t| ==> Plain(t[k])
  }

  /** A '.' with a character on each side. */
  predicate HasInnerDot(t: string)
  {
    exists j :: 0 < j < |t| - 1 && t[j] == '.'
  }

  /** The index of the first '@', or the length when there is none. */
  function FirstAt(s: string): (i: nat)
    ensures i <= |s| && (i < |s| ==> s[i] == '@')
    ensures forall k :: 0 <= k < i ==> s[k] != '@'
  {
    if s == [] || s[0] == '@' then 0 else 1 + FirstAt(s[1..])
  }

  /** `/^[^\s@]+@[^\s@]+\.[^\s@]+$/.test(s)`: a non-empty head of
      `[^\s@]` up to the first '@', and after it only `[^\s@]` with a '.'
      that has a character on each side. */
  predicate LooksLikeEmail(s: string)
  {
    var i := FirstAt(s);
    0 < i < |s| && AllPlain(s[..i]) && AllPlain(s[i + 1..]) && HasInnerDot(s[i + 1..])
  }

  /** An address the pattern accepts is not blank. */
  lemma EmailNotBlank(s: string)
    requires LooksLikeEmail(s)
    ensures !IsBlank(s)
  {
    assert s[..FirstAt(s)][0] == s[0];
  }

  /** An address the pattern accepts has no white space at either end, so
      trimming leaves it as it is. */
  lemma EmailIsTrimmed(s: string)
    requires LooksLikeEmail(s)
    ensures Trim(s) == s
  {
    var i := FirstAt(s);
    assert s[..i][0] == s[0];
    var tail := s[i + 1..];
    assert tail[|tail| - 1] == s[|s| - 1];
    assert TrimStart(s) == s;
  }

  /** A non-blank text stays non-blank once trimmed. */
  lemma TrimmedFilled(s: string)
    requires !IsBlank(s)
    ensures !IsBlank(Trim(s))
  {
    TrimEmptyIffBlank(s);
    var t := TrimStart(s);
    assert TrimEnd(t)[..1] == t[..1];
  }

  // --------------------------------------------------------------- errors

  /** The errors the forms report. */
  datatype FormError =
    | NameRequired | PhoneRequired | LicenseRequired | InvalidEmail
    | CompanyRequired | ContactRequired | RouteRequired | WhenRequired
    | DatesRequired | LocationRequired

  function Message(e: FormError): string
  {
    match e
    case NameRequired => "Nombre es requerido"
    case PhoneRequired => "Teléfono es requerido"
    case LicenseRequired => "Licencia es requerida"
    case InvalidEmail => "Email inválido"
    case CompanyRequired => "Nombre de empresa es requerido"
    case ContactRequired => "Nombre de contacto es requerido"
    case RouteRequired => "Ruta requerida"
    case WhenRequired => "Fecha/hora requerida"
    case DatesRequired => "Selecciona al menos una fecha disponible"
    case LocationRequired => "Debes añadir al menos una ubicación en el mapa"
  }

  /** A property whose value is `x.trim() || undefined` for a trimmed
      `t`: JSON leaves it out when nothing is left. */
  function WithOptional(body: Body, key: string, t: string): (b: Body)
    ensures b.Keys <= body.Keys + {key}
    ensures t != [] ==> key in b && b[key] == Str(t)
    ensures t == [] ==> b == body
    ensures t != [] ==> b == body[key := Str(t)]
  {
    if t == [] then body else body[key := Str(t)]
  }

  // ----------------------------------------------------------- pilot form

  datatype PilotForm = PilotForm(
    name: string, email: string, phone: string, license: string,
    motoPlate: string, motoBrand: string, motoModel: string, motoClub: string, message: string)

  /** The pilot form's checks: name, phone, license, then the email
      pattern; the first that fails is reported. */
  function PilotCheck(f: PilotForm): (r: Option<FormError>)
    ensures r.None? <==> !IsBlank(f.name) && !IsBlank(f.phone) && !IsBlank(f.license) && LooksLikeEmail(f.email)
    ensures r == Some(NameRequired) <==> IsBlank(f.name)
    ensures r == Some(PhoneRequired) <==> !IsBlank(f.name) && IsBlank(f.phone)
    ensures r == Some(LicenseRequired) <==> !IsBlank(f.name) && !IsBlank(f.phone) && IsBlank(f.license)
    ensures r == Some(InvalidEmail) <==>
      !IsBlank(f.name) && !IsBlank(f.phone) && !IsBlank(f.license) && !LooksLikeEmail(f.email)
  {
    TrimEmptyIffBlank(f.name);
    TrimEmptyIffBlank(f.phone);
    TrimEmptyIffBlank(f.license);
    if Trim(f.name) == [] then Some(NameRequired)
    else if Trim(f.phone) == [] then Some(PhoneRequired)
    else if Trim(f.license) == [] then Some(LicenseRequired)
    else if !LooksLikeEmail(f.email) then Some(InvalidEmail)
    else None
  }

/** The object a pilot registration passes to the API client: every
      text trimmed, and `when` the ride's start as `toISOString` writes it. */
  datatype PilotRequest = PilotRequest(
    routeId: string, when: string, name: string, email: string, phone: string, license: string,
    motoPlate: string, motoBrand: string, motoModel: string, motoClub: string, message: string)

  /** Submitting the pilot form: the first failed check, or the request. */
  function PilotSubmit(f: PilotForm, routeId: string, whenIso: string): (r: Result<PilotRequest, FormError>)
    ensures r.Err? <==> PilotCheck(f).Some?
    ensures r.Err? ==> r.error == PilotCheck(f).value
    ensures r.Ok? ==> r.value.routeId == routeId && r.value.when == whenIso
    ensures r.Ok? ==> r.value.name == Trim(f.name) && r.value.email == Trim(f.email)
    ensures r.Ok? ==> r.value.phone == Trim(f.phone) && r.value.license == Trim(f.license)
    ensures r.Ok? ==> r.value.motoPlate == Trim(f.motoPlate) && r.value.motoBrand == Trim(f.motoBrand)
    ensures r.Ok? ==> r.value.motoModel == Trim(f.motoModel) && r.value.motoClub == Trim(f.motoClub)
    ensures r.Ok? ==> r.value.message == Trim(f.message)
  {
    var check := PilotCheck(f);
    if check.Some? then Err(check.value)
    else Ok(PilotRequest(routeId, whenIso, Trim(f.name), Trim(f.email), Trim(f.phone), Trim(f.license),
      Trim(f.motoPlate), Trim(f.motoBrand), Trim(f.motoModel), Trim(f.motoClub), Trim(f.message)))
  }

  /** The JSON body of a pilot request, with `type` 'PILOT'. */
  function PilotBody(q: PilotRequest): Body
  {
    map[
      "type" := Str("PILOT"), "routeId" := Str(q.routeId), "when" := Str(q.when),
      "name" := Str(q.name), "email" := Str(q.email), "phone" := Str(q.phone), "license" := Str(q.license)]
    + PilotOptionals(q)
  }

  const PilotOptionalKeys: set<string> := {"motoPlate", "motoBrand", "motoModel", "motoClub", "message"}

  /** The optional pilot properties, each left out when empty. */
  function PilotOptionals(q: PilotRequest): (m: Body)
    ensures m.Keys <= PilotOptionalKeys
  {
    WithOptional(WithOptional(WithOptional(WithOptional(WithOptional(map[],
      "motoPlate", q.motoPlate), "motoBrand", q.motoBrand), "motoModel", q.motoModel),
      "motoClub", q.motoClub), "message", q.message)
  }

  lemma PilotBodyName(q: PilotRequest)
    ensures var body := PilotBody(q);
      && "name" in body && body["name"] == Str(q.name)
      && "email" in body && body["email"] == Str(q.email)
  {
  }

  lemma PilotBodyPhone(q: PilotRequest)
    ensures var body := PilotBody(q);
      && "phone" in body && body["phone"] == Str(q.phone)
      && "license" in body && body["license"] == Str(q.license)
  {
  }

  lemma PilotBodyType(q: PilotRequest)
    ensures var body := PilotBody(q);
      && "type" in body && body["type"] == Str("PILOT")
  {
  }

  lemma PilotBodyRoute(q: PilotRequest)
    ensures var body := PilotBody(q);
      && "routeId" in body && body["routeId"] == Str(q.routeId)
  {
  }

  lemma PilotBodyWhen(q: PilotRequest)
    ensures var body := PilotBody(q);
      && "when" in body && body["when"] == Str(q.when)
  {
  }

  lemma PilotBodyPasses(q: PilotRequest)
    requires !IsBlank(q.routeId) && !IsBlank(q.when) && !IsBlank(q.name) && !IsBlank(q.email)
    requires !IsBlank(q.phone) && !IsBlank(q.license)
    ensures RegistrationsController.CreateCheck(PilotBody(q)) == RegistrationsController.Pass
  {
    var body := PilotBody(q);
    PilotBodyName(q);
    PilotBodyPhone(q);
    PilotBodyType(q);
    PilotBodyRoute(q);
    PilotBodyWhen(q);
    assert RegistrationsController.Requirements(body);
    RegistrationsController.CreateCheckMeaning(body);
  }

  /** A pilot form the page lets through passes the hand-written checks of
      the controller's `create`, and the address it sends is the one the
      pattern accepted. The validation pipe that runs first is stricter:
      see `PilotPageAcceptsShortName`. */
  lemma PilotFormPassesChecks(f: PilotForm, routeId: string, whenIso: string)
    requires PilotSubmit(f, routeId, whenIso).Ok?
    requires !IsBlank(routeId) && !IsBlank(whenIso)
    ensures RegistrationsController.CreateCheck(PilotBody(PilotSubmit(f, routeId, whenIso).value)) == RegistrationsController.Pass
    ensures PilotSubmit(f, routeId, whenIso).value.email == f.email
  {
    EmailNotBlank(f.email);
    TrimmedFilled(f.email);
    TrimmedFilled(f.name);
    TrimmedFilled(f.phone);
    TrimmedFilled(f.license);
    PilotBodyPasses(PilotSubmit(f, routeId, whenIso).value);
    EmailIsTrimmed(f.email);
  }

  // ------------------------------------------------------- spectator form

  datatype SpectatorForm = SpectatorForm(
    routeId: string, when: string, name: string, email: string, phone: string, message: string)

  /** The spectator form's checks: name, phone, email pattern, route, then
      the date; the first that fails is reported. */
  function SpectatorCheck(f: SpectatorForm): (r: Option<FormError>)
    ensures r.None? <==> !IsBlank(f.name) && !IsBlank(f.phone) && LooksLikeEmail(f.email) && f.routeId != [] && f.when != []
    ensures r == Some(NameRequired) <==> IsBlank(f.name)
    ensures r == Some(PhoneRequired) <==> !IsBlank(f.name) && IsBlank(f.phone)
    ensures r == Some(InvalidEmail) <==> !IsBlank(f.name) && !IsBlank(f.phone) && !LooksLikeEmail(f.email)
    ensures r == Some(RouteRequired) <==> !IsBlank(f.name) && !IsBlank(f.phone) && LooksLikeEmail(f.email) && f.routeId == []
    ensures r == Some(WhenRequired) <==>
      !IsBlank(f.name) && !IsBlank(f.phone) && LooksLikeEmail(f.email) && f.routeId != [] && f.when == []
  {
    TrimEmptyIffBlank(f.name);
    TrimEmptyIffBlank(f.phone);
    if Trim(f.name) == [] then Some(NameRequired)
    else if Trim(f.phone) == [] then Some(PhoneRequired)
    else if !LooksLikeEmail(f.email) then Some(InvalidEmail)
    else if f.routeId == [] then Some(RouteRequired)
    else if f.when == [] then Some(WhenRequired)
    else None
  }

/** The object a spectator registration passes to the API client; `when`
      is the chosen option's start as `toISOString` writes it. */
  datatype SpectatorRequest = SpectatorRequest(
    routeId: string, when: string, name: string, email: string, phone: string, message: string)

  function SpectatorSubmit(f: SpectatorForm, whenIso: string): (r: Result<SpectatorRequest, FormError>)
    ensures r.Err? <==> SpectatorCheck(f).Some?
    ensures r.Err? ==> r.error == SpectatorCheck(f).value
    ensures r.Ok? ==> r.value.routeId == f.routeId != [] && r.value.when == whenIso
    ensures r.Ok? ==> r.value.name == Trim(f.name) && r.value.email == Trim(f.email) && r.value.phone == Trim(f.phone)
    ensures r.Ok? ==> r.value.message == Trim(f.message)
  {
    var check := SpectatorCheck(f);
    if check.Some? then Err(check.value)
    else Ok(SpectatorRequest(f.routeId, whenIso, Trim(f.name), Trim(f.email), Trim(f.phone), Trim(f.message)))
  }

  /** The JSON body of a spectator request, with `type` 'SPECTATOR'. */
  function SpectatorBody(q: SpectatorRequest): Body
  {
    WithOptional(map[
      "type" := Str("SPECTATOR"), "routeId" := Str(q.routeId), "when" := Str(q.when),
      "name" := Str(q.name), "email" := Str(q.email), "phone" := Str(q.phone)],
      "message", q.message)
  }

  lemma SpectatorBodyPasses(q: SpectatorRequest)
    requires !IsBlank(q.routeId) && !IsBlank(q.when) && !IsBlank(q.name) && !IsBlank(q.email) && !IsBlank(q.phone)
    ensures RegistrationsController.CreateCheck(SpectatorBody(q)) == RegistrationsController.Pass
  {
    var body := SpectatorBody(q);
    assert RegistrationsController.KindIs(body, "SPECTATOR");
    assert RegistrationsController.Requirements(body);
    RegistrationsController.CreateCheckMeaning(body);
  }

  /** A route id with no white space is not blank once it is not empty. */
  lemma FilledId(id: string)
    requires HasNoSpace(id) && id != []
    ensures !IsBlank(id)
  {
    assert !IsSpace(id[0]);
  }

  /** A spectator form the page lets through passes the controller's
      hand-written checks, provided the chosen route's id has no white space
      (the page only tests that it is not empty). */
  lemma SpectatorFormPassesChecks(f: SpectatorForm, whenIso: string)
    requires SpectatorSubmit(f, whenIso).Ok?
    requires HasNoSpace(f.routeId) && !IsBlank(whenIso)
    ensures RegistrationsController.CreateCheck(SpectatorBody(SpectatorSubmit(f, whenIso).value)) == RegistrationsController.Pass
  {
    EmailNotBlank(f.email);
    TrimmedFilled(f.email);
    TrimmedFilled(f.name);
    TrimmedFilled(f.phone);
    FilledId(f.routeId);
    SpectatorBodyPasses(SpectatorSubmit(f, whenIso).value);
  }

  // --------------------------------------------------------- sponsor form

  /** A point placed on the sponsor's map; an empty category or note is
      not sent. */
  datatype Spot = Spot(lat: real, lng: real, category: string, note: string)

  datatype SponsorForm = SponsorForm(
    routeId: string, when: seq<string>, name: string, email: string, phone: string,
    companyName: string, website: string, services: string)

  /** The sponsor form's checks: company, contact name, email pattern,
      phone, route, at least one date, at least one map location. */
  function SponsorCheck(f: SponsorForm, spots: seq<Spot>): (r: Option<FormError>)
    ensures r.None? <==>
      && !IsBlank(f.companyName) && !IsBlank(f.name) && LooksLikeEmail(f.email) && !IsBlank(f.phone)
      && f.routeId != [] && |f.when| > 0 && |spots| > 0
    ensures r == Some(CompanyRequired) <==> IsBlank(f.companyName)
    ensures r == Some(ContactRequired) <==> !IsBlank(f.companyName) && IsBlank(f.name)
    ensures r == Some(InvalidEmail) <==> !IsBlank(f.companyName) && !IsBlank(f.name) && !LooksLikeEmail(f.email)
    ensures r == Some(PhoneRequired) <==>
      !IsBlank(f.companyName) && !IsBlank(f.name) && LooksLikeEmail(f.email) && IsBlank(f.phone)
    ensures r == Some(RouteRequired) <==>
      !IsBlank(f.companyName) && !IsBlank(f.name) && LooksLikeEmail(f.email) && !IsBlank(f.phone) && f.routeId == []
    ensures r == Some(DatesRequired) <==>
      && !IsBlank(f.companyName) && !IsBlank(f.name) && LooksLikeEmail(f.email) && !IsBlank(f.phone)
      && f.routeId != [] && |f.when| == 0
    ensures r == Some(LocationRequired) <==>
      && !IsBlank(f.companyName) && !IsBlank(f.name) && LooksLikeEmail(f.email) && !IsBlank(f.phone)
      && f.routeId != [] && |f.when| > 0 && |spots| == 0
  {
    TrimEmptyIffBlank(f.companyName);
    TrimEmptyIffBlank(f.name);
    TrimEmptyIffBlank(f.phone);
    if Trim(f.companyName) == [] then Some(CompanyRequired)
    else if Trim(f.name) == [] then Some(ContactRequired)
    else if !LooksLikeEmail(f.email) then Some(InvalidEmail)
    else if Trim(f.phone) == [] then Some(PhoneRequired)
    else if f.routeId == [] then Some(RouteRequired)
    else if |f.when| == 0 then Some(DatesRequired)
    else if |spots| == 0 then Some(LocationRequired)
    else None
  }

/** The one object a sponsor's submit passes to the API client: the first
      date as `when` and every date as `whenMultiple`. */
  datatype SponsorRequest = SponsorRequest(
    routeId: string, name: string, email: string, phone: string, companyName: string,
    website: string, services: string, when: string, whenMultiple: seq<string>, locations: seq<Spot>)

  function SponsorSubmit(f: SponsorForm, spots: seq<Spot>): (r: Result<SponsorRequest, FormError>)
    ensures r.Err? <==> SponsorCheck(f, spots).Some?
    ensures r.Err? ==> r.error == SponsorCheck(f, spots).value
    ensures r.Ok? ==> r.value.whenMultiple == f.when && |f.when| > 0 && r.value.when == f.when[0]
    ensures r.Ok? ==> r.value.locations == spots && |spots| > 0
    ensures r.Ok? ==> r.value.routeId == f.routeId && r.value.name == Trim(f.name) && r.value.email == Trim(f.email)
    ensures r.Ok? ==> r.value.phone == Trim(f.phone) && r.value.companyName == Trim(f.companyName)
    ensures r.Ok? ==> r.value.website == Trim(f.website) && r.value.services == Trim(f.services)
  {
    var check := SponsorCheck(f, spots);
    if check.Some? then Err(check.value)
    else Ok(SponsorRequest(f.routeId, Trim(f.name), Trim(f.email), Trim(f.phone), Trim(f.companyName),
      Trim(f.website), Trim(f.services), f.when[0], f.when, spots))
  }

  /** `category: p.category || undefined`, and the same for the note. */
  function SpotValue(p: Spot): (v: Value)
    ensures RegistrationsController.HasCoords(v)
  {
    var coords := map["lat" := Num(p.lat), "lng" := Num(p.lng)];
    var withCategory := if p.category == [] then coords else coords["category" := Str(p.category)];
    Object(if p.note == [] then withCategory else withCategory["note" := Str(p.note)])
  }

  function SpotValues(spots: seq<Spot>): (vs: seq<Value>)
    ensures |vs| == |spots| && forall i :: 0 <= i < |spots| ==> vs[i] == SpotValue(spots[i])
  {
    if spots == [] then [] else SpotValues(spots[..|spots| - 1]) + [SpotValue(spots[|spots| - 1])]
  }

  function Texts(xs: seq<string>): (vs: seq<Value>)
    ensures |vs| == |xs| && forall i :: 0 <= i < |xs| ==> vs[i] == Str(xs[i])
  {
    if xs == [] then [] else Texts(xs[..|xs| - 1]) + [Str(xs[|xs| - 1])]
  }

  /** The JSON body of a sponsor request, with `type` 'SPONSOR'. */
  function SponsorBody(q: SponsorRequest): Body
  {
    map[
      "type" := Str("SPONSOR"), "routeId" := Str(q.routeId),
      "name" := Str(q.name), "email" := Str(q.email), "phone" := Str(q.phone),
      "companyName" := Str(q.companyName),
      "when" := Str(q.when), "whenMultiple" := List(Texts(q.whenMultiple)),
      "sponsorLocations" := List(SpotValues(q.locations))]
    + SponsorOptionals(q)
  }

  /** `website` and `services`, each left out when empty. */
  function SponsorOptionals(q: SponsorRequest): (m: Body)
    ensures m.Keys <= {"website", "services"}
  {
    WithOptional(WithOptional(map[], "website", q.website), "services", q.services)
  }

  lemma SponsorBodyName(q: SponsorRequest)
    ensures var body := SponsorBody(q);
      && "name" in body && body["name"] == Str(q.name)
      && "email" in body && body["email"] == Str(q.email)
  {
  }

  lemma SponsorBodyPhone(q: SponsorRequest)
    ensures var body := SponsorBody(q);
      && "phone" in body && body["phone"] == Str(q.phone)
  {
  }

  lemma SponsorBodyType(q: SponsorRequest)
    ensures var body := SponsorBody(q);
      && "type" in body && body["type"] == Str("SPONSOR")
  {
  }

  lemma SponsorBodyRoute(q: SponsorRequest)
    ensures var body := SponsorBody(q);
      && "routeId" in body && body["routeId"] == Str(q.routeId)
  {
  }

  lemma SponsorBodyCompany(q: SponsorRequest)
    ensures var body := SponsorBody(q);
      && "companyName" in body && body["companyName"] == Str(q.companyName)
  {
  }

  lemma SponsorBodyLocations(q: SponsorRequest)
    ensures var body := SponsorBody(q);
      && "sponsorLocations" in body && body["sponsorLocations"] == List(SpotValues(q.locations))
  {
  }

  lemma SponsorBodyPasses(q: SponsorRequest)
    requires !IsBlank(q.routeId) && !IsBlank(q.name) && !IsBlank(q.email) && !IsBlank(q.phone)
    requires !IsBlank(q.companyName) && |q.locations| > 0
    ensures RegistrationsController.CreateCheck(SponsorBody(q)) == RegistrationsController.Pass
  {
    var body := SponsorBody(q);
    SponsorBodyName(q);
    SponsorBodyPhone(q);
    SponsorBodyType(q);
    SponsorBodyRoute(q);
    SponsorBodyCompany(q);
    SponsorBodyLocations(q);
    assert RegistrationsController.HasLocationList(body);
    assert RegistrationsController.AllHaveCoords(body["sponsorLocations"].items);
    assert RegistrationsController.Requirements(body);
    RegistrationsController.CreateCheckMeaning(body);
  }

  /** A sponsor form the page lets through passes the controller's
      hand-written checks, provided the route's id has no white space: every
      location it sends has numeric coordinates. */
  lemma SponsorFormPassesChecks(f: SponsorForm, spots: seq<Spot>)
    requires SponsorSubmit(f, spots).Ok?
    requires HasNoSpace(f.routeId)
    ensures RegistrationsController.CreateCheck(SponsorBody(SponsorSubmit(f, spots).value)) == RegistrationsController.Pass
  {
    EmailNotBlank(f.email);
    TrimmedFilled(f.email);
    TrimmedFilled(f.name);
    TrimmedFilled(f.phone);
    TrimmedFilled(f.companyName);
    FilledId(f.routeId);
    SponsorBodyPasses(SponsorSubmit(f, spots).value);
  }

  // ------------------------------------------ the forms and the DTO lengths

  /** The validation pipe refuses a name shorter than two characters,
      whatever else the body holds. */
  lemma ShortNameRefused(body: Body, fm: Formats)
    requires "name" in body && body["name"].Str? && |body["name"].s| < 2
    ensures !ValidDto(body, fm)
  {
  }

  lemma SampleEmail()
    ensures LooksLikeEmail("a@b.co")
  {
    var s := "a@b.co";
    assert s[1..] == "@b.co";
    assert FirstAt(s) == 1;
    assert s[2..][1] == '.';
  }

  /** The sample fields: not blank, and a one-letter name trims to itself. */
  lemma SampleFields()
    ensures !IsBlank("A") && !IsBlank("12345") && !IsBlank("abc") && !IsBlank("Co")
    ensures Trim("A") == "A"
  {
    assert !IsSpace("A"[0]);
    assert !IsSpace("12345"[0]);
    assert !IsSpace("abc"[0]);
    assert !IsSpace("Co"[0]);
  }

  /** A pilot form the page accepts is refused by the pipe when its
      trimmed name has fewer than two characters. */
  lemma PilotShortNameRefused(f: PilotForm, routeId: string, whenIso: string, fm: Formats)
    requires PilotSubmit(f, routeId, whenIso).Ok? && |Trim(f.name)| < 2
    ensures !ValidDto(PilotBody(PilotSubmit(f, routeId, whenIso).value), fm)
  {
    var q := PilotSubmit(f, routeId, whenIso).value;
    PilotBodyName(q);
    ShortNameRefused(PilotBody(q), fm);
  }

  /** The pilot form accepts a one-letter name, which the pipe refuses:
      the page sends a body that comes back as a Bad Request. */
  lemma PilotPageAcceptsShortName(routeId: string, whenIso: string, fm: Formats)
    ensures var f := PilotForm("A", "a@b.co", "12345", "abc", "", "", "", "", "");
      && PilotSubmit(f, routeId, whenIso).Ok?
      && !ValidDto(PilotBody(PilotSubmit(f, routeId, whenIso).value), fm)
  {
    var f := PilotForm("A", "a@b.co", "12345", "abc", "", "", "", "", "");
    PilotSampleChecked(f);
    PilotShortNameRefused(f, routeId, whenIso, fm);
  }

  lemma PilotSampleChecked(f: PilotForm)
    requires f == PilotForm("A", "a@b.co", "12345", "abc", "", "", "", "", "")
    ensures PilotCheck(f).None? && |Trim(f.name)| == 1
  {
    SampleEmail();
    SampleFields();
  }

  /** The pilot form as the DTO evidently needs it: the page's checks and
      the trimmed name, phone and license within the DTO's lengths. */
  predicate PilotFitsDto(f: PilotForm)
  {
    && PilotCheck(f).None?
    && 2 <= |Trim(f.name)| <= 120 && 5 <= |Trim(f.phone)| <= 30 && 3 <= |Trim(f.license)| <= 50
  }

  /** Such a form passes the controller's checks, and the name, phone and
      license it sends meet the DTO's length bounds. */
  lemma PilotFormFitsDto(f: PilotForm, routeId: string, whenIso: string)
    requires PilotFitsDto(f) && !IsBlank(routeId) && !IsBlank(whenIso)
    ensures PilotSubmit(f, routeId, whenIso).Ok?
    ensures var body := PilotBody(PilotSubmit(f, routeId, whenIso).value);
      && RegistrationsController.CreateCheck(body) == RegistrationsController.Pass
      && "name" in body && LengthIn(body["name"], 2, 120)
      && "phone" in body && LengthIn(body["phone"], 5, 30)
      && "license" in body && LengthIn(body["license"], 3, 50)
  {
    var q := PilotSubmit(f, routeId, whenIso).value;
    PilotFormPassesChecks(f, routeId, whenIso);
    PilotBodyName(q);
    PilotBodyPhone(q);
  }

  lemma SpectatorBodyName(q: SpectatorRequest)
    ensures var body := SpectatorBody(q);
      && "name" in body && body["name"] == Str(q.name)
      && "phone" in body && body["phone"] == Str(q.phone)
  {
  }

  /** The spectator form accepts a one-letter name, which the pipe refuses. */
  lemma SpectatorPageAcceptsShortName(whenIso: string, fm: Formats)
    ensures var f := SpectatorForm("r", "d", "A", "a@b.co", "12345", "");
      && SpectatorSubmit(f, whenIso).Ok?
      && !ValidDto(SpectatorBody(SpectatorSubmit(f, whenIso).value), fm)
  {
    var f := SpectatorForm("r", "d", "A", "a@b.co", "12345", "");
    SpectatorSampleChecked(f);
    SpectatorShortNameRefused(f, whenIso, fm);
  }

  lemma SpectatorSampleChecked(f: SpectatorForm)
    requires f == SpectatorForm("r", "d", "A", "a@b.co", "12345", "")
    ensures SpectatorCheck(f).None? && |Trim(f.name)| == 1
  {
    SampleEmail();
    SampleFields();
  }

  /** A spectator form the page accepts is refused by the pipe when its
      trimmed name has fewer than two characters. */
  lemma SpectatorShortNameRefused(f: SpectatorForm, whenIso: string, fm: Formats)
    requires SpectatorSubmit(f, whenIso).Ok? && |Trim(f.name)| < 2
    ensures !ValidDto(SpectatorBody(SpectatorSubmit(f, whenIso).value), fm)
  {
    var q := SpectatorSubmit(f, whenIso).value;
    SpectatorBodyName(q);
    ShortNameRefused(SpectatorBody(q), fm);
  }

  /** The spectator form as the DTO evidently needs it. */
  predicate SpectatorFitsDto(f: SpectatorForm)
  {
    SpectatorCheck(f).None? && 2 <= |Trim(f.name)| <= 120 && 5 <= |Trim(f.phone)| <= 30
  }

  /** Such a form passes the controller's checks, and the name and phone it
      sends meet the DTO's length bounds. */
  lemma SpectatorFormFitsDto(f: SpectatorForm, whenIso: string)
    requires SpectatorFitsDto(f) && HasNoSpace(f.routeId) && !IsBlank(whenIso)
    ensures SpectatorSubmit(f, whenIso).Ok?
    ensures var body := SpectatorBody(SpectatorSubmit(f, whenIso).value);
      && RegistrationsController.CreateCheck(body) == RegistrationsController.Pass
      && "name" in body && LengthIn(body["name"], 2, 120)
      && "phone" in body && LengthIn(body["phone"], 5, 30)
  {
    SpectatorFormPassesChecks(f, whenIso);
    SpectatorBodyName(SpectatorSubmit(f, whenIso).value);
  }

  /** The sponsor form accepts a one-letter contact name, which the pipe
      refuses. */
  lemma SponsorPageAcceptsShortName(fm: Formats)
    ensures var f := SponsorForm("r", ["d"], "A", "a@b.co", "12345", "Co", "", "");
      && SponsorSubmit(f, [Spot(0.0, 0.0, "", "")]).Ok?
      && !ValidDto(SponsorBody(SponsorSubmit(f, [Spot(0.0, 0.0, "", "")]).value), fm)
  {
    var f := SponsorForm("r", ["d"], "A", "a@b.co", "12345", "Co", "", "");
    var spots := [Spot(0.0, 0.0, "", "")];
    SponsorSampleChecked(f, spots);
    SponsorShortNameRefused(f, spots, fm);
  }

  lemma SponsorSampleChecked(f: SponsorForm, spots: seq<Spot>)
    requires f == SponsorForm("r", ["d"], "A", "a@b.co", "12345", "Co", "", "")
    requires spots == [Spot(0.0, 0.0, "", "")]
    ensures SponsorCheck(f, spots).None? && |Trim(f.name)| == 1
  {
    SampleEmail();
    SampleFields();
  }

  /** A sponsor form the page accepts is refused by the pipe when its
      trimmed contact name has fewer than two characters. */
  lemma SponsorShortNameRefused(f: SponsorForm, spots: seq<Spot>, fm: Formats)
    requires SponsorSubmit(f, spots).Ok? && |Trim(f.name)| < 2
    ensures !ValidDto(SponsorBody(SponsorSubmit(f, spots).value), fm)
  {
    var q := SponsorSubmit(f, spots).value;
    SponsorBodyName(q);
    ShortNameRefused(SponsorBody(q), fm);
  }

  /** The sponsor form as the DTO evidently needs it. */
  predicate SponsorFitsDto(f: SponsorForm, spots: seq<Spot>)
  {
    SponsorCheck(f, spots).None? && 2 <= |Trim(f.name)| <= 120 && 5 <= |Trim(f.phone)| <= 30
  }

  /** Such a form passes the controller's checks, and the contact name and
      phone it sends meet the DTO's length bounds. */
  lemma SponsorFormFitsDto(f: SponsorForm, spots: seq<Spot>)
    requires SponsorFitsDto(f, spots) && HasNoSpace(f.routeId)
    ensures SponsorSubmit(f, spots).Ok?
    ensures var body := SponsorBody(SponsorSubmit(f, spots).value);
      && RegistrationsController.CreateCheck(body) == RegistrationsController.Pass
      && "name" in body && LengthIn(body["name"], 2, 120)
      && "phone" in body && LengthIn(body["phone"], 5, 30)
  {
    SponsorFormPassesChecks(f, spots);
    SponsorBodyName(SponsorSubmit(f, spots).value);
    SponsorBodyPhone(SponsorSubmit(f, spots).value);
  }
}
