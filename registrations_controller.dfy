/** The registrations controller: the checks `create` makes before calling
    the service and the way it reports the service's errors, and the admin
    handlers, each of which refuses any role other than ADMIN before doing
    anything else. */
module RegistrationsController {
  import opened Wrappers
  import opened RegistrationDto
  import Text
  import Slug
  import Backend

  // ------------------------------------------------------------ JS values

  /** `!v`: the falsy JSON values (undefined, null, false, 0 and ''). */
  predicate Falsy(v: Option<Value>)
  {
    v.None? || v == Some(Null) || v == Some(Bool(false)) || v == Some(Num(0.0)) || v == Some(Str([]))
  }

  /** The property is a string with a non-white-space character. */
  predicate HasText(body: Body, key: string)
  {
    key in body && body[key].Str? && !Text.IsBlank(body[key].s)
  }

  /** The property is there, not null, and not a string: `?.trim()` on it throws. */
  predicate NonString(body: Body, key: string)
  {
    key in body && body[key] != Null && !body[key].Str?
  }

  /** What `!body[key]?.trim()` does: it is false for non-blank text, true
      for null, undefined and blank text, and throws a TypeError otherwise. */
  datatype Probe = Blank | Filled | Throws

  function TrimProbe(body: Body, key: string): (p: Probe)
    ensures p == Filled <==> HasText(body, key)
    ensures p == Throws <==> NonString(body, key)
  {
    if key !in body || body[key] == Null then Blank
    else if !body[key].Str? then Throws
    else
      Text.TrimEmptyIffBlank(body[key].s);
      if Text.Trim(body[key].s) == [] then Blank else Filled
  }

  predicate KindIs(body: Body, name: string)
  {
    "type" in body && body["type"] == Str(name)
  }

  predicate IsKnownKind(body: Body)
  {
    KindIs(body, "PILOT") || KindIs(body, "SPECTATOR") || KindIs(body, "SPONSOR")
  }

  /** `typeof l?.lat === 'number' && typeof l?.lng === 'number'`. */
  predicate HasCoords(v: Value)
  {
    v.Object? && "lat" in v.fields && v.fields["lat"].Num? && "lng" in v.fields && v.fields["lng"].Num?
  }

  /** `dto.sponsorLocations || []` is an array with an element. */
  predicate HasLocationList(body: Body)
  {
    "sponsorLocations" in body && body["sponsorLocations"].List? && |body["sponsorLocations"].items| > 0
  }

  // ----------------------------------------------------------- create checks

  /** The checks of `create`, in their order. */
  datatype Check =
    | NameRequired | EmailRequired | PhoneRequired | TypeRequired | RouteRequired
    | WhenRequired | LicenseRequired | CompanyRequired | LocationsRequired | CoordsRequired

  /** The message of the BadRequest a failed check throws. */
  function Message(c: Check): string
  {
    match c
    case NameRequired => "name required"
    case EmailRequired => "email required"
    case PhoneRequired => "phone required"
    case TypeRequired => "type required"
    case RouteRequired => "routeId or routeSlug required"
    case WhenRequired => "when required"
    case LicenseRequired => "license required for PILOT"
    case CompanyRequired => "companyName required for SPONSOR"
    case LocationsRequired => "At least one sponsor location is required"
    case CoordsRequired => "Each sponsor location must include numeric lat and lng"
  }

  /** How the checks of `create` end: the call to the service, a failed
      check, or a TypeError. */
  datatype Outcome = Pass | Refuse(check: Check) | Crash

  /** A check on a trimmed property: go on when it holds. */
  function Then(p: Probe, c: Check, rest: Outcome): (o: Outcome)
  {
    if p == Filled then rest else if p == Throws then Crash else Refuse(c)
  }

  /** The chain of checks `create` makes, in its order; a failed check ends it. */
  function CreateCheck(body: Body): (o: Outcome)
  {
    FirstChecks(TrimProbe(body, "name"), TrimProbe(body, "email"), TrimProbe(body, "phone"),
      Falsy(Lookup(body, "type")), KindChecks(body))
  }

  /** name, email, phone and type, in that order, then `rest`. */
  function FirstChecks(name: Probe, email: Probe, phone: Probe, noType: bool, rest: Outcome): Outcome
  {
    Then(name, NameRequired,
    Then(email, EmailRequired,
    Then(phone, PhoneRequired,
    if noType then Refuse(TypeRequired) else rest)))
  }

  /** The checks that depend on the type, once it is set. */
  function KindChecks(body: Body): (o: Outcome)
    ensures o == Pass <==> KindRequirements(body)
    ensures o == Crash ==> NonString(body, "when") || NonString(body, "license") || NonString(body, "companyName")
  {
    if IsKnownKind(body) && !HasText(body, "routeId") && !HasText(body, "routeSlug") then
      Refuse(RouteRequired)
    else if KindIs(body, "PILOT") || KindIs(body, "SPECTATOR") then
      Then(TrimProbe(body, "when"), WhenRequired,
        if KindIs(body, "PILOT") then Then(TrimProbe(body, "license"), LicenseRequired, Pass)
        else Pass)
    else if KindIs(body, "SPONSOR") then SponsorChecks(body)
    else Pass
  }

  /** The SPONSOR checks: a company name, then a non-empty list of
      locations each with numeric coordinates. */
  function SponsorChecks(body: Body): (o: Outcome)
    ensures o == Pass <==> HasText(body, "companyName") && HasLocationList(body) && AllHaveCoords(body["sponsorLocations"].items)
    ensures o == Crash ==> NonString(body, "companyName")
  {
    Then(TrimProbe(body, "companyName"), CompanyRequired,
      if !HasLocationList(body) then Refuse(LocationsRequired)
      else if !AllHaveCoords(body["sponsorLocations"].items) then
        Refuse(CoordsRequired)
      else Pass)
  }

  predicate AllHaveCoords(items: seq<Value>)
  {
    forall i :: 0 <= i < |items| ==> HasCoords(items[i])
  }

  /** What a body must satisfy for `create` to reach the service, stated
      field by field without the order of the checks. */
  predicate Requirements(body: Body)
  {
    && HasText(body, "name") && HasText(body, "email") && HasText(body, "phone")
    && !Falsy(Lookup(body, "type"))
    && KindRequirements(body)
  }

  predicate KindRequirements(body: Body)
  {
    && (IsKnownKind(body) ==> HasText(body, "routeId") || HasText(body, "routeSlug"))
    && (KindIs(body, "PILOT") || KindIs(body, "SPECTATOR") ==> HasText(body, "when"))
    && (KindIs(body, "PILOT") ==> HasText(body, "license"))
    && (KindIs(body, "SPONSOR") ==>
          HasText(body, "companyName") && HasLocationList(body) && AllHaveCoords(body["sponsorLocations"].items))
  }

  /** The checks pass exactly when the requirements hold, and throw only on
      a property of the wrong type. */
  lemma CreateCheckMeaning(body: Body)
    ensures CreateCheck(body) == Pass <==> Requirements(body)
    ensures CreateCheck(body) == Crash ==>
      NonString(body, "name") || NonString(body, "email") || NonString(body, "phone")
      || NonString(body, "when") || NonString(body, "license") || NonString(body, "companyName")
  {
  }

  /** name, email and phone are checked first, in that order: a body whose
      name is blank is refused for its name whatever else it holds. */
  lemma NameEmailPhoneFirst(body: Body)
    ensures TrimProbe(body, "name") == Blank ==> CreateCheck(body) == Refuse(NameRequired)
    ensures HasText(body, "name") && TrimProbe(body, "email") == Blank ==> CreateCheck(body) == Refuse(EmailRequired)
    ensures HasText(body, "name") && HasText(body, "email") && TrimProbe(body, "phone") == Blank ==>
      CreateCheck(body) == Refuse(PhoneRequired)
  {
  }

  /** A body the validation pipe accepts never makes the checks throw and
      always has a type. */
  lemma PipedBodyChecks(body: Body, f: Formats)
    requires ValidDto(body, f)
    ensures CreateCheck(body) != Crash
    ensures CreateCheck(body) != Refuse(TypeRequired)
  {
    AcceptedIsWellTyped(body, f);
    WellTypedChecks(body);
  }

  lemma WellTypedChecks(body: Body)
    requires WellTyped(body)
    ensures CreateCheck(body) != Crash
    ensures CreateCheck(body) != Refuse(TypeRequired)
  {
    CreateCheckMeaning(body);
    assert !Falsy(Lookup(body, "type"));
    assert KindChecks(body) != Refuse(TypeRequired);
  }

  /** The pipe lets a PILOT through without a license; the controller then
      refuses it, once the earlier checks pass. */
  lemma PilotLicenseCheckedByController(body: Body, f: Formats)
    requires ValidDto(body, f) && KindIs(body, "PILOT") && Missing(body, "license")
    requires HasText(body, "name") && HasText(body, "email") && HasText(body, "phone")
    requires HasText(body, "routeId") && HasText(body, "when")
    ensures CreateCheck(body) == Refuse(LicenseRequired)
  {
  }

  /** The controller does not look at `when` for a SPONSOR: dropping it
      leaves the outcome of the checks as it was. */
  lemma SponsorWhenIgnoredByChecks(body: Body)
    requires KindIs(body, "SPONSOR")
    ensures CreateCheck(body - {"when"}) == CreateCheck(body)
  {
    assert "type" != "when" && "name" != "when" && "email" != "when" && "phone" != "when";
    ProbeReadsOneKey(body, "when", "name");
    ProbeReadsOneKey(body, "when", "email");
    ProbeReadsOneKey(body, "when", "phone");
    ProbeReadsOneKey(body, "when", "type");
    SponsorKindChecksIgnoreWhen(body);
  }

  /** A probe reads its own property and no other. */
  lemma ProbeReadsOneKey(body: Body, other: string, key: string)
    requires other != key
    ensures TrimProbe(body - {other}, key) == TrimProbe(body, key)
    ensures Lookup(body - {other}, key) == Lookup(body, key)
  {
  }

  lemma SponsorKindChecksIgnoreWhen(body: Body)
    requires KindIs(body, "SPONSOR")
    ensures KindChecks(body - {"when"}) == KindChecks(body)
  {
    var without := body - {"when"};
    assert "type" != "when" && "routeId" != "when" && "routeSlug" != "when";
    assert KindIs(without, "SPONSOR") && !KindIs(without, "PILOT") && !KindIs(without, "SPECTATOR");
    assert HasText(without, "routeId") == HasText(body, "routeId");
    assert HasText(without, "routeSlug") == HasText(body, "routeSlug");
    SponsorChecksIgnoreWhen(body);
  }

  lemma SponsorChecksIgnoreWhen(body: Body)
    ensures SponsorChecks(body - {"when"}) == SponsorChecks(body)
  {
    var without := body - {"when"};
    assert "companyName" != "when" && "sponsorLocations" != "when";
    assert TrimProbe(without, "companyName") == TrimProbe(body, "companyName");
    assert HasLocationList(without) == HasLocationList(body);
  }

  /** The pipe in front of the controller does require `when`, so a
      SPONSOR body without it never reaches the checks. */
  lemma SponsorWhenRequiredByPipe(body: Body, f: Formats)
    requires "when" !in body
    ensures !ValidDto(body, f)
  {
  }

  /** The catch block: BadRequest and Conflict pass through, every other
      error becomes BadRequest 'Invalid registration payload'. */
  function Caught(e: Backend.Error): (r: Backend.Error)
    ensures r.BadRequest? || r.Conflict?
    ensures e.BadRequest? || e.Conflict? <==> r == e
    ensures !(e.BadRequest? || e.Conflict?) ==> r == Backend.BadRequest("Invalid registration payload")
  {
    if e.BadRequest? || e.Conflict? then e else Backend.BadRequest("Invalid registration payload")
  }

  /** The error a failed check throws; a TypeError is none of the HTTP errors. */
  function Thrown(o: Outcome): Backend.Error
  {
    if o.Refuse? then Backend.BadRequest(Message(o.check)) else Backend.Internal("TypeError")
  }

  /** The BadRequest the validation pipe throws; the list of failed
      constraints it carries is not modelled. */
  const ValidationFailed := "Bad Request"

  /** Under the pipe and the checks, the service is given a route id. */
  lemma PassedBodyNamesRoute(body: Body, d: Backend.RegistrationInput)
    requires WellTyped(body) && Describes(body, d) && CreateCheck(body) == Pass
    ensures d.routeId.Some? && d.routeSlug.None?
  {
    CreateCheckMeaning(body);
    assert IsKnownKind(body);
    assert !HasText(body, "routeSlug");
    var id := body["routeId"].s;
    assert !Text.IsBlank(id);
    assert id != [];
  }

  // ---------------------------------------------------------------- handlers

  /** `POST /registrations`: the validation pipe, then the controller.
      `d` is the service's view of the body and `now` the clock. */
  method Create(store: Backend.Store, body: Body, f: Formats, d: Backend.RegistrationInput, now: Backend.Time)
    returns (r: Result<Backend.Id, Backend.Error>)
    requires store.Valid() && Describes(body, d)
    modifies store
    ensures store.Valid()
    ensures !ValidDto(body, f) ==> r == Err(Backend.BadRequest(ValidationFailed)) && store.Snapshot() == old(store.Snapshot())
    ensures ValidDto(body, f) && CreateCheck(body) != Pass ==>
      r == Err(Caught(Thrown(CreateCheck(body)))) && store.Snapshot() == old(store.Snapshot())
    ensures ValidDto(body, f) && CreateCheck(body) == Pass ==>
      d.routeId.Some? &&
      if d.kind == Backend.Pilot && Backend.PilotTaken(old(store.registrations), d.routeId.value, d) then
        r == Err(Backend.Conflict("Pilot already registered for this route")) && store.Snapshot() == old(store.Snapshot())
      else
        r == Ok(old(store.nextId))
        && store.Snapshot() == Backend.RegistrationCreated(old(store.Snapshot()), d.routeId.value, d, now)
  {
    if !ValidDto(body, f) {
      return Err(Backend.BadRequest(ValidationFailed));
    }
    AcceptedIsWellTyped(body, f);
    r := CreateAccepted(store, body, d, now);
  }

  /** The controller's `create` on a body the pipe accepted: the checks,
      then the service, with its errors passed through the catch block. */
  method CreateAccepted(store: Backend.Store, body: Body, d: Backend.RegistrationInput, now: Backend.Time)
    returns (r: Result<Backend.Id, Backend.Error>)
    requires store.Valid() && WellTyped(body) && Describes(body, d)
    modifies store
    ensures store.Valid()
    ensures CreateCheck(body) != Pass ==>
      r == Err(Caught(Thrown(CreateCheck(body)))) && store.Snapshot() == old(store.Snapshot())
    ensures CreateCheck(body) == Pass ==>
      d.routeId.Some? &&
      if d.kind == Backend.Pilot && Backend.PilotTaken(old(store.registrations), d.routeId.value, d) then
        r == Err(Backend.Conflict("Pilot already registered for this route")) && store.Snapshot() == old(store.Snapshot())
      else
        r == Ok(old(store.nextId))
        && store.Snapshot() == Backend.RegistrationCreated(old(store.Snapshot()), d.routeId.value, d, now)
  {
    var o := CreateCheck(body);
    if o != Pass {
      return Err(Caught(Thrown(o)));
    }
    PassedBodyNamesRoute(body, d);
    r := Submit(store, d, now);
  }

  /** The call to the service, for a request that names its route by id. */
  method Submit(store: Backend.Store, d: Backend.RegistrationInput, now: Backend.Time)
    returns (r: Result<Backend.Id, Backend.Error>)
    requires store.Valid() && d.routeId.Some?
    modifies store
    ensures store.Valid()
    ensures d.kind == Backend.Pilot && Backend.PilotTaken(old(store.registrations), d.routeId.value, d) ==>
      r == Err(Backend.Conflict("Pilot already registered for this route")) && store.Snapshot() == old(store.Snapshot())
    ensures !(d.kind == Backend.Pilot && Backend.PilotTaken(old(store.registrations), d.routeId.value, d)) ==>
      r == Ok(old(store.nextId))
      && store.Snapshot() == Backend.RegistrationCreated(old(store.Snapshot()), d.routeId.value, d, now)
  {
    var created := store.CreateRegistration(d, now);
    if created.Err? {
      return Err(Caught(created.error));
    }
    return Ok(created.value);
  }

  /** `req.user?.role === 'ADMIN'`. */
  predicate IsAdmin(role: Option<string>)
  {
    role == Some("ADMIN")
  }

  const Denied := Backend.Forbidden("Forbidden")

  /** `GET /registrations/pending`. */
  method Pending(store: Backend.Store, role: Option<string>) returns (r: Result<seq<Backend.Id>, Backend.Error>)
    requires store.Valid()
    ensures !IsAdmin(role) <==> r == Err(Denied)
    ensures r.Ok? ==> forall i, j :: 0 <= i < j < |r.value| ==> r.value[i] > r.value[j]
    ensures r.Ok? ==> forall id :: id in r.value <==>
      id in store.registrations && store.registrations[id].status == Backend.Pending
  {
    if !IsAdmin(role) {
      return Err(Denied);
    }
    var ids := store.ListPending();
    return Ok(ids);
  }

  /** The `status` query of `GET /registrations/sponsors`: absent or empty
      means every status; a value that is not a status makes the database
      query fail. */
  function StatusFilter(status: Option<string>): (r: Result<Option<Backend.Status>, Backend.Error>)
    ensures r == Ok(None) <==> !Backend.Truthy(status)
    ensures r.Ok? && r.value.Some? ==> status == Some(StatusName(r.value.value))
    ensures r.Err? ==> r == Err(Backend.Internal("Internal server error"))
  {
    if !Backend.Truthy(status) then Ok(None)
    else if status.value == "PENDING" then Ok(Some(Backend.Pending))
    else if status.value == "APPROVED" then Ok(Some(Backend.Approved))
    else if status.value == "REJECTED" then Ok(Some(Backend.Rejected))
    else Err(Backend.Internal("Internal server error"))
  }

  function StatusName(s: Backend.Status): string
  {
    match s
    case Pending => "PENDING"
    case Approved => "APPROVED"
    case Rejected => "REJECTED"
  }

  /** Every status's name selects that status. */
  lemma StatusFilterNames(s: Backend.Status)
    ensures StatusFilter(Some(StatusName(s))) == Ok(Some(s))
  {
  }

  /** `GET /registrations/sponsors?status=`. */
  method Sponsors(store: Backend.Store, role: Option<string>, status: Option<string>)
    returns (r: Result<seq<Backend.Id>, Backend.Error>)
    requires store.Valid()
    ensures !IsAdmin(role) ==> r == Err(Denied)
    ensures IsAdmin(role) && StatusFilter(status).Err? ==> r == Err(StatusFilter(status).error)
    ensures r.Ok? ==> IsAdmin(role) && StatusFilter(status).Ok?
    ensures r.Ok? ==> forall i, j :: 0 <= i < j < |r.value| ==> r.value[i] > r.value[j]
    ensures r.Ok? ==> forall id :: id in r.value <==>
      id in store.registrations && store.registrations[id].kind == Backend.Sponsor
      && (Backend.Truthy(status) ==> status == Some(StatusName(store.registrations[id].status)))
  {
    if !IsAdmin(role) {
      return Err(Denied);
    }
    var filter := StatusFilter(status);
    if filter.Err? {
      return Err(filter.error);
    }
    var ids := store.ListSponsors(filter.value);
    return Ok(ids);
  }

  /** `GET /registrations/sponsors-public`: approved sponsors, for anyone. */
  method SponsorsPublic(store: Backend.Store) returns (ids: seq<Backend.Id>)
    requires store.Valid()
    ensures forall i, j :: 0 <= i < j < |ids| ==> ids[i] > ids[j]
    ensures forall id :: id in ids <==>
      id in store.registrations && store.registrations[id].kind == Backend.Sponsor
      && store.registrations[id].status == Backend.Approved
  {
    ids := store.ListSponsors(Some(Backend.Approved));
  }

  /** The `status` of a status body: only the two decisions are accepted. */
  function DecisionOf(body: Body): (r: Result<Backend.Decision, Backend.Error>)
    ensures r == Ok(Backend.Approve) <==> Lookup(body, "status") == Some(Str("APPROVED"))
    ensures r == Ok(Backend.Reject) <==> Lookup(body, "status") == Some(Str("REJECTED"))
    ensures r.Err? ==> r == Err(Backend.Forbidden("Invalid status"))
  {
    if Lookup(body, "status") == Some(Str("APPROVED")) then Ok(Backend.Approve)
    else if Lookup(body, "status") == Some(Str("REJECTED")) then Ok(Backend.Reject)
    else Err(Backend.Forbidden("Invalid status"))
  }

  /** `PATCH /registrations/:id/status`. */
  method SetStatus(store: Backend.Store, role: Option<string>, id: Backend.Id, body: Body)
    returns (r: Result<Backend.Approval, Backend.Error>)
    requires store.Valid()
    modifies store
    ensures store.Valid()
    ensures !IsAdmin(role) ==> r == Err(Denied) && store.Snapshot() == old(store.Snapshot())
    ensures IsAdmin(role) && DecisionOf(body).Err? ==> r == Err(DecisionOf(body).error) && store.Snapshot() == old(store.Snapshot())
    ensures IsAdmin(role) && DecisionOf(body).Ok? && id !in old(store.registrations) ==>
      r == Err(Backend.NotFound("Registration not found")) && store.Snapshot() == old(store.Snapshot())
    ensures IsAdmin(role) && DecisionOf(body).Ok? && id in old(store.registrations) ==>
      var reg := old(store.registrations[id]);
      var decided := Backend.Decided(old(store.Snapshot()), id, DecisionOf(body).value);
      if DecisionOf(body) == Ok(Backend.Approve) && reg.kind == Backend.Pilot then
        && r == Ok(Backend.DriverCreated(old(store.nextId), if Backend.Truthy(reg.motoPlate) then Some(old(store.nextId) + 1) else None))
        && store.Snapshot() == Backend.WithApprovedDriver(decided, reg,
             Slug.FreshSlug(Slug.DriverSlugBase(Some(reg.name)), Backend.DriverSlugs(old(store.drivers), None)))
      else
        r == Ok(Backend.StatusOnly) && store.Snapshot() == decided
  {
    if !IsAdmin(role) {
      return Err(Denied);
    }
    var decision := DecisionOf(body);
    if decision.Err? {
      return Err(decision.error);
    }
    r := store.SetStatus(id, decision.value);
  }

  /** How `updateRegistration` reads its body: the seven text fields when
      `typeof` says they are strings, `routeId` and `when` when they are
      truthy. `routeOf` is the row a route id value names and `dateOf` is
      `new Date(value)`; neither is modelled further. */
  function ReadPatch(body: Body, routeOf: Value -> Backend.Id, dateOf: Value -> Backend.Time): (p: Backend.RegistrationPatch)
    ensures p.companyName.Some? <==> "companyName" in body && body["companyName"].Str?
    ensures p.companyName.Some? ==> body["companyName"] == Str(p.companyName.value)
    ensures p.website.Some? <==> "website" in body && body["website"].Str?
    ensures p.website.Some? ==> body["website"] == Str(p.website.value)
    ensures p.services.Some? <==> "services" in body && body["services"].Str?
    ensures p.services.Some? ==> body["services"] == Str(p.services.value)
    ensures p.message.Some? <==> "message" in body && body["message"].Str?
    ensures p.message.Some? ==> body["message"] == Str(p.message.value)
    ensures p.email.Some? <==> "email" in body && body["email"].Str?
    ensures p.email.Some? ==> body["email"] == Str(p.email.value)
    ensures p.phone.Some? <==> "phone" in body && body["phone"].Str?
    ensures p.phone.Some? ==> body["phone"] == Str(p.phone.value)
    ensures p.name.Some? <==> "name" in body && body["name"].Str?
    ensures p.name.Some? ==> body["name"] == Str(p.name.value)
    ensures p.routeId.Some? <==> !Falsy(Lookup(body, "routeId"))
    ensures p.routeId.Some? ==> p.routeId.value == routeOf(body["routeId"])
    ensures p.when.Some? <==> !Falsy(Lookup(body, "when"))
    ensures p.when.Some? ==> p.when.value == dateOf(body["when"])
  {
    Backend.RegistrationPatch(
      StrField(body, "companyName"), StrField(body, "website"), StrField(body, "services"), StrField(body, "message"),
      StrField(body, "email"), StrField(body, "phone"), StrField(body, "name"),
      if Falsy(Lookup(body, "routeId")) then None else Some(routeOf(body["routeId"])),
      if Falsy(Lookup(body, "when")) then None else Some(dateOf(body["when"])))
  }

  /** An empty body, or one whose properties are all of the wrong kind,
      leaves the registration as it is. */
  lemma IgnoredBodyChangesNothing(reg: Backend.Registration, body: Body, routeOf: Value -> Backend.Id, dateOf: Value -> Backend.Time)
    requires forall k :: k in body ==> !body[k].Str?
    requires Falsy(Lookup(body, "routeId")) && Falsy(Lookup(body, "when"))
    ensures Backend.PatchRegistration(reg, ReadPatch(body, routeOf, dateOf)) == reg
  {
    var p := ReadPatch(body, routeOf, dateOf);
    assert p == Backend.RegistrationPatch(None, None, None, None, None, None, None, None, None);
  }

  /** An empty `routeId` or `when` is skipped: the stored route and date
      stay, while an empty text field is written. */
  lemma EmptyRouteAndDateSkipped(reg: Backend.Registration, body: Body, routeOf: Value -> Backend.Id, dateOf: Value -> Backend.Time)
    requires Lookup(body, "routeId") == Some(Str([])) && Lookup(body, "when") == Some(Str([]))
    ensures var r := Backend.PatchRegistration(reg, ReadPatch(body, routeOf, dateOf));
      r.routeId == reg.routeId && r.when == reg.when
    ensures Lookup(body, "name") == Some(Str([])) ==>
      Backend.PatchRegistration(reg, ReadPatch(body, routeOf, dateOf)).name == []
  {
  }

  /** `PATCH /registrations/:id`: the admin gate, then the service reads
      the body and writes the fields it carries. */
  method Update(store: Backend.Store, role: Option<string>, id: Backend.Id, body: Body,
                routeOf: Value -> Backend.Id, dateOf: Value -> Backend.Time)
    returns (r: Result<Backend.Registration, Backend.Error>)
    requires store.Valid()
    modifies store
    ensures store.Valid()
    ensures !IsAdmin(role) ==> r == Err(Denied) && store.Snapshot() == old(store.Snapshot())
    ensures IsAdmin(role) && id !in old(store.registrations) ==>
      r == Err(Backend.NotFound("Registration not found")) && store.Snapshot() == old(store.Snapshot())
    ensures IsAdmin(role) && id in old(store.registrations) ==>
      && r == Ok(Backend.PatchRegistration(old(store.registrations[id]), ReadPatch(body, routeOf, dateOf)))
      && store.Snapshot() == old(store.Snapshot()).(registrations := old(store.registrations)[id := r.value])
  {
    if !IsAdmin(role) {
      return Err(Denied);
    }
    r := store.UpdateRegistration(id, ReadPatch(body, routeOf, dateOf));
  }

  /** `DELETE /registrations/:id`. */
  method Remove(store: Backend.Store, role: Option<string>, id: Backend.Id) returns (r: Result<(), Backend.Error>)
    requires store.Valid()
    modifies store
    ensures store.Valid()
    ensures !IsAdmin(role) ==> r == Err(Denied) && store.Snapshot() == old(store.Snapshot())
    ensures IsAdmin(role) && id !in old(store.registrations) ==>
      r == Err(Backend.NotFound("Registration not found")) && store.Snapshot() == old(store.Snapshot())
    ensures IsAdmin(role) && id in old(store.registrations) ==>
      r == Ok(()) && store.Snapshot() == Backend.RegistrationDeleted(old(store.Snapshot()), id)
  {
    if !IsAdmin(role) {
      return Err(Denied);
    }
    r := store.DeleteRegistration(id);
  }

  /** `value || undefined` on a POI text field: kept when it is a non-empty
      string; a truthy value of another type is refused by the database. */
  function PoiText(body: Body, key: string): (r: Option<string>)
    ensures r.Some? <==> HasString(body, key)
    ensures r.Some? ==> body[key] == Str(r.value)
  {
    if key in body && body[key].Str? && body[key].s != [] then Some(body[key].s) else None
  }

  predicate HasString(body: Body, key: string)
  {
    key in body && body[key].Str? && body[key].s != []
  }

  /** The POI text fields are storable: each is falsy or a string. */
  predicate PoiTextsStorable(body: Body)
  {
    forall k :: k in {"label", "category", "note"} ==> Falsy(Lookup(body, k)) || body[k].Str?
  }

  /** `POST /registrations/:id/pois`. */
  method AddPoi(store: Backend.Store, role: Option<string>, id: Backend.Id, body: Body)
    returns (r: Result<Backend.Id, Backend.Error>)
    requires store.Valid()
    modifies store
    ensures store.Valid()
    ensures !IsAdmin(role) ==> r == Err(Denied) && store.Snapshot() == old(store.Snapshot())
    ensures IsAdmin(role) && !HasCoords(Object(body)) ==> r == Err(Backend.BadRequest("lat/lng required")) && store.Snapshot() == old(store.Snapshot())
    ensures IsAdmin(role) && HasCoords(Object(body)) && id !in old(store.registrations) ==>
      r == Err(Backend.NotFound("Registration not found")) && store.Snapshot() == old(store.Snapshot())
    ensures IsAdmin(role) && HasCoords(Object(body)) && id in old(store.registrations) && !PoiTextsStorable(body) ==>
      r == Err(Backend.Internal("Internal server error")) && store.Snapshot() == old(store.Snapshot())
    ensures IsAdmin(role) && HasCoords(Object(body)) && id in old(store.registrations) && PoiTextsStorable(body) ==>
      && r == Ok(old(store.nextId)) && r.value !in old(store.locations)
      && store.Snapshot() == old(store.Snapshot()).(
           locations := old(store.locations)[r.value := Backend.SponsorLocation(id, body["lat"].x, body["lng"].x,
             PoiText(body, "label"), PoiText(body, "category"), PoiText(body, "note"))],
           nextId := r.value + 1)
  {
    if !IsAdmin(role) {
      return Err(Denied);
    }
    if !HasCoords(Object(body)) {
      return Err(Backend.BadRequest("lat/lng required"));
    }
    if !PoiTextsStorable(body) {
      if id in store.registrations {
        return Err(Backend.Internal("Internal server error"));
      }
      return Err(Backend.NotFound("Registration not found"));
    }
    r := store.AddSponsorPoi(id, Backend.PoiInput(body["lat"].x, body["lng"].x,
      PoiText(body, "label"), PoiText(body, "category"), PoiText(body, "note")));
  }

  /** `PATCH /registrations/:id/pois/:poiId`: string fields replace the
      stored ones. */
  method UpdatePoi(store: Backend.Store, role: Option<string>, id: Backend.Id, poiId: Backend.Id, body: Body)
    returns (r: Result<Backend.SponsorLocation, Backend.Error>)
    requires store.Valid()
    modifies store
    ensures store.Valid()
    ensures !IsAdmin(role) ==> r == Err(Denied) && store.Snapshot() == old(store.Snapshot())
    ensures IsAdmin(role) && !old(store.OwnsPoi(id, poiId)) ==> r == Err(Backend.NotFound("POI not found")) && store.Snapshot() == old(store.Snapshot())
    ensures IsAdmin(role) && old(store.OwnsPoi(id, poiId)) ==>
      && r.Ok? && r.value.registrationId == id
      && r.value.lat == old(store.locations[poiId].lat) && r.value.lng == old(store.locations[poiId].lng)
      && r.value.labelText == (if "label" in body && body["label"].Str? then Some(body["label"].s) else old(store.locations[poiId].labelText))
      && r.value.category == (if "category" in body && body["category"].Str? then Some(body["category"].s) else old(store.locations[poiId].category))
      && r.value.note == (if "note" in body && body["note"].Str? then Some(body["note"].s) else old(store.locations[poiId].note))
      && store.Snapshot() == old(store.Snapshot()).(locations := old(store.locations)[poiId := r.value])
  {
    if !IsAdmin(role) {
      return Err(Denied);
    }
    r := store.UpdateSponsorPoi(id, poiId, Backend.PoiPatch(StrField(body, "label"), StrField(body, "category"), StrField(body, "note")));
  }

  /** `DELETE /registrations/:id/pois/:poiId`. */
  method DeletePoi(store: Backend.Store, role: Option<string>, id: Backend.Id, poiId: Backend.Id)
    returns (r: Result<(), Backend.Error>)
    requires store.Valid()
    modifies store
    ensures store.Valid()
    ensures !IsAdmin(role) ==> r == Err(Denied) && store.Snapshot() == old(store.Snapshot())
    ensures IsAdmin(role) && !old(store.OwnsPoi(id, poiId)) ==> r == Err(Backend.NotFound("POI not found")) && store.Snapshot() == old(store.Snapshot())
    ensures IsAdmin(role) && old(store.OwnsPoi(id, poiId)) ==>
      r == Ok(()) && store.Snapshot() == old(store.Snapshot()).(locations := old(store.locations) - {poiId})
  {
    if !IsAdmin(role) {
      return Err(Denied);
    }
    r := store.DeleteSponsorPoi(id, poiId);
  }
}
