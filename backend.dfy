/** The backend's route, driver and registration services over one store.
    Each table is a map from id to record (sponsor dates, which are never
    looked up by id, are a sequence in insertion order); ids come from one
    counter. Every service operation is a method of `Store` that either
    fails with the exception the service throws and leaves the store as it
    was, or performs the service's inserts, updates and deletes; the new
    state is given by a function of the old one, and the lemmas beside each
    function say what the operation guarantees. */
module Backend {
  import opened Wrappers
  import opened Text
  import opened Slug

  type Id = nat

  /** Milliseconds since the epoch, as `Date` holds them. */
  type Time = int

  datatype RegType = Pilot | Spectator | Sponsor
  datatype Status = Pending | Approved | Rejected

  /** The HTTP exceptions the services and the controller throw. */
  datatype Error =
    | NotFound(message: string)
    | Conflict(message: string)
    | BadRequest(message: string)
    | Forbidden(message: string)
    | Internal(message: string)

  /** A JavaScript string value is truthy when it is present and not ''. */
  predicate Truthy(s: Option<string>)
  {
    s.Some? && s.value != []
  }

  /** `value || undefined`: an empty string is not stored. */
  function OrAbsent(s: Option<string>): (r: Option<string>)
    ensures r.Some? <==> Truthy(s)
    ensures r.Some? ==> r == s
  {
    if s == Some([]) then None else s
  }

  /** A field of the body is written when the body carries it. */
  function Patched<T>(current: T, given: Option<T>): T
  {
    if given.Some? then given.value else current
  }

  /** The same for a nullable column. */
  function PatchedOptional<T>(current: Option<T>, given: Option<T>): Option<T>
  {
    if given.Some? then given else current
  }

  /** An ISO-8601 string from a request, with the instant `new Date(text)`
      gives for it. */
  datatype DateArg = DateArg(text: string, instant: Time)

  datatype Route = Route(name: string, description: Option<string>, geojson: Option<string>, slug: Option<string>)

  datatype Driver = Driver(
    name: string, license: Option<string>, userId: Option<string>, club: Option<string>,
    nickname: Option<string>, preferNickname: bool, slug: Option<string>)

  datatype Vehicle = Vehicle(
    plate: string, brand: Option<string>, model: Option<string>, club: Option<string>, driverId: Option<Id>)

  datatype Registration = Registration(
    routeId: Id, kind: RegType, status: Status,
    name: string, email: string, phone: string, license: string,
    motoPlate: Option<string>, motoBrand: Option<string>, motoModel: Option<string>, motoClub: Option<string>,
    message: Option<string>, companyName: Option<string>, website: Option<string>, services: Option<string>,
    when: Time)

  datatype SponsorLocation = SponsorLocation(
    registrationId: Id, lat: real, lng: real, labelText: Option<string>, category: Option<string>, note: Option<string>)

  datatype SponsorDate = SponsorDate(registrationId: Id, when: Time)

  /** The body of `POST /routes`, and of `PATCH /routes/:id` (every field optional there). */
  datatype RouteInput = RouteInput(name: string, description: Option<string>, geojson: Option<string>)
  datatype RoutePatch = RoutePatch(name: Option<string>, description: Option<string>, geojson: Option<string>)

  datatype DriverInput = DriverInput(
    name: string, license: Option<string>, userId: Option<string>, club: Option<string>,
    nickname: Option<string>, preferNickname: Option<bool>)
  datatype DriverPatch = DriverPatch(
    name: Option<string>, license: Option<string>, userId: Option<string>, club: Option<string>,
    nickname: Option<string>, preferNickname: Option<bool>)

  datatype LocationInput = LocationInput(
    lat: real, lng: real, labelText: Option<string>, category: Option<string>, note: Option<string>)

  /** A registration request as the service receives it. `routeId` is None
      when the request's routeId is absent or ''. */
  datatype RegistrationInput = RegistrationInput(
    kind: RegType, routeId: Option<Id>, routeSlug: Option<string>,
    when: Option<DateArg>, whenMultiple: Option<seq<DateArg>>,
    name: string, email: string, phone: string, license: Option<string>,
    motoPlate: Option<string>, motoBrand: Option<string>, motoModel: Option<string>, motoClub: Option<string>,
    message: Option<string>, companyName: Option<string>, website: Option<string>, services: Option<string>,
    sponsorLocations: Option<seq<LocationInput>>)

  /** The fields of the admin update body the service looks at: each
      string field when it is a string, `routeId` when it is truthy, and
      `when`, when it is truthy, as the instant `new Date(when)` gives. */
  datatype RegistrationPatch = RegistrationPatch(
    companyName: Option<string>, website: Option<string>, services: Option<string>, message: Option<string>,
    email: Option<string>, phone: Option<string>, name: Option<string>,
    routeId: Option<Id>, when: Option<Time>)

  datatype PoiInput = PoiInput(lat: real, lng: real, labelText: Option<string>, category: Option<string>, note: Option<string>)

  /** The string-typed fields of a POI update body. */
  datatype PoiPatch = PoiPatch(labelText: Option<string>, category: Option<string>, note: Option<string>)

  datatype Decision = Approve | Reject

  /** What `setStatus` returns besides the updated registration. */
  datatype Approval = StatusOnly | DriverCreated(driverId: Id, vehicleId: Option<Id>)

  // ------------------------------------------------------------------ slugs

  /** The slugs held by rows other than `exclude`. */
  function RouteSlugs(routes: map<Id, Route>, exclude: Option<Id>): set<string>
  {
    set id | id in routes && routes[id].slug.Some? && Some(id) != exclude :: routes[id].slug.value
  }

  function DriverSlugs(drivers: map<Id, Driver>, exclude: Option<Id>): set<string>
  {
    set id | id in drivers && drivers[id].slug.Some? && Some(id) != exclude :: drivers[id].slug.value
  }

  /** No slug is held by two rows (the column is unique; several rows may lack one). */
  predicate UniqueRouteSlugs(routes: map<Id, Route>)
  {
    forall a, b :: a in routes && b in routes && a != b && routes[a].slug.Some? ==> routes[a].slug != routes[b].slug
  }

  predicate UniqueDriverSlugs(drivers: map<Id, Driver>)
  {
    forall a, b :: a in drivers && b in drivers && a != b && drivers[a].slug.Some? ==> drivers[a].slug != drivers[b].slug
  }

  /** Storing a slug no other row holds keeps the column unique. */
  lemma RouteSlugKeepsUnique(routes: map<Id, Route>, id: Id, r: Route)
    requires UniqueRouteSlugs(routes)
    requires r.slug.Some? ==> r.slug.value !in RouteSlugs(routes, Some(id))
    ensures UniqueRouteSlugs(routes[id := r])
  {
    forall x | x in routes && x != id && routes[x].slug.Some?
      ensures routes[x].slug != r.slug
    {
      assert routes[x].slug.value in RouteSlugs(routes, Some(id));
    }
  }

  lemma DriverSlugKeepsUnique(drivers: map<Id, Driver>, id: Id, d: Driver)
    requires UniqueDriverSlugs(drivers)
    requires d.slug.Some? ==> d.slug.value !in DriverSlugs(drivers, Some(id))
    ensures UniqueDriverSlugs(drivers[id := d])
  {
    forall x | x in drivers && x != id && drivers[x].slug.Some?
      ensures drivers[x].slug != d.slug
    {
      assert drivers[x].slug.value in DriverSlugs(drivers, Some(id));
    }
  }

  /** A route slug the backfill treats as present (not null, undefined or ''). */
  predicate HasSlug(r: Route)
  {
    Truthy(r.slug)
  }

  /** The backfill's write for one route: a route without a slug gets
      `slug`; one with a slug is left alone. */
  function WithSlug(routes: map<Id, Route>, id: Id, slug: string): (r: map<Id, Route>)
    requires id in routes
    ensures r.Keys == routes.Keys
  {
    if HasSlug(routes[id]) then routes else routes[id := routes[id].(slug := Some(slug))]
  }

  /** The backfill's progress: the routes are those of `before`, each one
      differing from its old self in the slug at most; routes that had a
      slug, and the routes still to visit, are unchanged; every visited
      route has a slug. */
  predicate FilledExcept(before: map<Id, Route>, after: map<Id, Route>, todo: set<Id>)
  {
    && after.Keys == before.Keys && todo <= after.Keys
    && (forall id :: id in after ==> after[id] == before[id].(slug := after[id].slug))
    && (forall id :: id in after && (HasSlug(before[id]) || id in todo) ==> after[id] == before[id])
    && (forall id :: id in after && id !in todo ==> after[id].slug.Some?)
  }

  /** Visiting one more route keeps the progress description. */
  lemma FilledOneMore(before: map<Id, Route>, current: map<Id, Route>, todo: set<Id>, id: Id, slug: string)
    requires FilledExcept(before, current, todo) && id in todo
    ensures FilledExcept(before, WithSlug(current, id, slug), todo - {id})
  {
  }

  /** A non-empty name that differs from the stored one: the only case in
      which `update` makes a new slug. */
  predicate Renames(current: string, given: Option<string>)
  {
    Truthy(given) && given.value != current
  }

  /** The route `update` writes. `regenerated` is the slug made anew, when
      one was; '' is not written, and without a new slug the stored one stays. */
  function PatchRoute(cur: Route, dto: RoutePatch, regenerated: Option<string>): (r: Route)
    ensures r.name == if dto.name.Some? then dto.name.value else cur.name
    ensures r.description == if dto.description.Some? then dto.description else cur.description
    ensures r.geojson == if dto.geojson.Some? then dto.geojson else cur.geojson
    ensures r.slug == cur.slug || r.slug == regenerated
    ensures regenerated.None? ==> r.slug == cur.slug
    ensures Truthy(regenerated) ==> r.slug == regenerated
  {
    Route(Patched(cur.name, dto.name), PatchedOptional(cur.description, dto.description),
      PatchedOptional(cur.geojson, dto.geojson), if Truthy(regenerated) then regenerated else cur.slug)
  }

  /** The driver `update` writes; the same slug rule as for routes. */
  function PatchDriver(cur: Driver, dto: DriverPatch, regenerated: Option<string>): (r: Driver)
    ensures r.name == if dto.name.Some? then dto.name.value else cur.name
    ensures r.license == if dto.license.Some? then dto.license else cur.license
    ensures r.userId == if dto.userId.Some? then dto.userId else cur.userId
    ensures r.club == if dto.club.Some? then dto.club else cur.club
    ensures r.nickname == if dto.nickname.Some? then dto.nickname else cur.nickname
    ensures r.preferNickname == if dto.preferNickname.Some? then dto.preferNickname.value else cur.preferNickname
    ensures r.slug == cur.slug || r.slug == regenerated
    ensures regenerated.None? ==> r.slug == cur.slug
    ensures Truthy(regenerated) ==> r.slug == regenerated
  {
    cur.(name := Patched(cur.name, dto.name), license := PatchedOptional(cur.license, dto.license),
         userId := PatchedOptional(cur.userId, dto.userId), club := PatchedOptional(cur.club, dto.club),
         nickname := PatchedOptional(cur.nickname, dto.nickname),
         preferNickname := Patched(cur.preferNickname, dto.preferNickname),
         slug := if Truthy(regenerated) then regenerated else cur.slug)
  }

  // ---------------------------------------------------------- registrations

  /** An existing PILOT registration that blocks `d` on route `routeId`:
      same email, or same license when one is given, or same plate when one is given. */
  predicate Clashes(r: Registration, routeId: Id, d: RegistrationInput)
  {
    r.routeId == routeId && r.kind == Pilot
    && (r.email == d.email
        || (Truthy(d.license) && r.license == d.license.value)
        || (Truthy(d.motoPlate) && r.motoPlate == d.motoPlate))
  }

  ghost predicate PilotTaken(regs: map<Id, Registration>, routeId: Id, d: RegistrationInput)
  {
    exists id :: id in regs && Clashes(regs[id], routeId, d)
  }

  /** The route a request names: its routeId, else the route holding its
      routeSlug, else none. */
  ghost function ResolvedRoute(routes: map<Id, Route>, d: RegistrationInput): (r: Option<Id>)
    ensures d.routeId.Some? ==> r == d.routeId
    ensures d.routeId.None? && r.Some? ==> Truthy(d.routeSlug) && r.value in routes && routes[r.value].slug == d.routeSlug
    ensures d.routeId.None? && r.None? ==> !Truthy(d.routeSlug) || forall id :: id in routes ==> routes[id].slug != d.routeSlug
  {
    if d.routeId.Some? then d.routeId
    else if Truthy(d.routeSlug) && exists id :: id in routes && routes[id].slug == d.routeSlug then
      Some(var id :| id in routes && routes[id].slug == d.routeSlug; id)
    else None
  }

  /** A SPONSOR request that lists several dates at once. */
  predicate HasDateList(d: RegistrationInput)
  {
    d.kind == Sponsor && d.whenMultiple.Some? && |d.whenMultiple.value| > 0
  }

  /** The registration's `when`: the first listed date, else the given
      date, else `now`, the current time. */
  function RegisteredWhen(d: RegistrationInput, now: Time): Time
  {
    if HasDateList(d) then d.whenMultiple.value[0].instant
    else if d.when.Some? && d.when.value.text != [] then d.when.value.instant
    else now
  }

  /** The sponsor dates `create` inserts for registration `id`: only a
      SPONSOR gets dates, at least one, all pointing at the registration,
      the first being the registration's own `when`; a date list gives
      exactly one per element, in order. */
  function NewSponsorDates(id: Id, d: RegistrationInput, now: Time): (ds: seq<SponsorDate>)
    ensures ds == [] <==> d.kind != Sponsor
    ensures forall i :: 0 <= i < |ds| ==> ds[i].registrationId == id
    ensures ds != [] ==> ds[0].when == RegisteredWhen(d, now)
    ensures HasDateList(d) ==> |ds| == |d.whenMultiple.value|
    ensures HasDateList(d) ==> forall i :: 0 <= i < |ds| ==> ds[i].when == d.whenMultiple.value[i].instant
    ensures d.kind == Sponsor && !HasDateList(d) ==> |ds| == 1
  {
    if HasDateList(d) then
      var w := d.whenMultiple.value;
      seq(|w|, i requires 0 <= i < |w| => SponsorDate(id, w[i].instant))
    else if d.kind == Sponsor then [SponsorDate(id, RegisteredWhen(d, now))]
    else []
  }

  /** The row `create` inserts (status defaults to PENDING). */
  function NewRegistration(d: RegistrationInput, routeId: Id, when: Time): Registration
  {
    Registration(
      routeId, d.kind, Pending, d.name, d.email, d.phone,
      if Truthy(d.license) then d.license.value else "",
      OrAbsent(d.motoPlate), OrAbsent(d.motoBrand), OrAbsent(d.motoModel), OrAbsent(d.motoClub),
      OrAbsent(d.message), OrAbsent(d.companyName), OrAbsent(d.website), OrAbsent(d.services),
      when)
  }

  function NewLocation(registrationId: Id, l: LocationInput): SponsorLocation
  {
    SponsorLocation(registrationId, l.lat, l.lng, OrAbsent(l.labelText), OrAbsent(l.category), OrAbsent(l.note))
  }

  function LocationInputs(d: RegistrationInput): seq<LocationInput>
  {
    if d.sponsorLocations.Some? then d.sponsorLocations.value else []
  }

  /** The `n` ids from `lo` on. */
  function IdRange(lo: Id, n: nat): (s: set<Id>)
    ensures forall k :: k in s <==> lo <= k < lo + n
  {
    if n == 0 then {} else IdRange(lo, n - 1) + {lo + n - 1}
  }

  lemma {:induction false} IdRangeCard(lo: Id, n: nat)
    ensures |IdRange(lo, n)| == n
  {
    if n > 0 {
      var smaller := IdRange(lo, n - 1);
      IdRangeCard(lo, n - 1);
      assert lo + n - 1 !in smaller;
      assert IdRange(lo, n) == smaller + {lo + n - 1};
    }
  }

  /** The nested sponsor locations of a new registration, numbered from `firstId`. */
  function NewLocations(firstId: Id, registrationId: Id, locs: seq<LocationInput>): (m: map<Id, SponsorLocation>)
    ensures m.Keys == IdRange(firstId, |locs|)
    ensures forall k :: k in m ==> m[k] == NewLocation(registrationId, locs[k - firstId])
    ensures forall k :: k in m ==> m[k].registrationId == registrationId
  {
    map k | k in IdRange(firstId, |locs|) :: NewLocation(registrationId, locs[k - firstId])
  }

  /** The driver an approved PILOT registration becomes. */
  function ApprovedDriver(reg: Registration, slug: string): Driver
  {
    Driver(reg.name, Some(reg.license), None, OrAbsent(reg.motoClub), None, false, Some(slug))
  }

  function ApprovedVehicle(reg: Registration, driverId: Id): Vehicle
    requires reg.motoPlate.Some?
  {
    Vehicle(reg.motoPlate.value, OrAbsent(reg.motoBrand), OrAbsent(reg.motoModel), OrAbsent(reg.motoClub), Some(driverId))
  }

  function StatusOf(decision: Decision): Status
  {
    if decision == Approve then Approved else Rejected
  }

  /** `updateRegistration`: the whitelisted fields the body carries replace
      the stored ones; '' clears companyName, website, services and message.
      Type, status, license and the moto fields never change, and an empty
      body changes nothing. */
  function PatchRegistration(reg: Registration, p: RegistrationPatch): (r: Registration)
    ensures r.kind == reg.kind && r.status == reg.status && r.license == reg.license
    ensures r.motoPlate == reg.motoPlate && r.motoBrand == reg.motoBrand
      && r.motoModel == reg.motoModel && r.motoClub == reg.motoClub
    ensures r.companyName == if p.companyName.Some? then OrAbsent(p.companyName) else reg.companyName
    ensures r.website == if p.website.Some? then OrAbsent(p.website) else reg.website
    ensures r.services == if p.services.Some? then OrAbsent(p.services) else reg.services
    ensures r.message == if p.message.Some? then OrAbsent(p.message) else reg.message
    ensures p.companyName == Some([]) ==> r.companyName.None?
    ensures p.website == Some([]) ==> r.website.None?
    ensures p.services == Some([]) ==> r.services.None?
    ensures p.message == Some([]) ==> r.message.None?
    ensures p.email.Some? ==> r.email == p.email.value
    ensures p.email.None? ==> r.email == reg.email
    ensures p.phone.Some? ==> r.phone == p.phone.value
    ensures p.phone.None? ==> r.phone == reg.phone
    ensures p.name.Some? ==> r.name == p.name.value
    ensures p.name.None? ==> r.name == reg.name
    ensures p.routeId.Some? ==> r.routeId == p.routeId.value
    ensures p.routeId.None? ==> r.routeId == reg.routeId
    ensures p.when.Some? ==> r.when == p.when.value
    ensures p.when.None? ==> r.when == reg.when
    ensures p == RegistrationPatch(None, None, None, None, None, None, None, None, None) ==> r == reg
  {
    Registration(
      Patched(reg.routeId, p.routeId), reg.kind, reg.status,
      Patched(reg.name, p.name), Patched(reg.email, p.email), Patched(reg.phone, p.phone), reg.license,
      reg.motoPlate, reg.motoBrand, reg.motoModel, reg.motoClub,
      if p.message.Some? then OrAbsent(p.message) else reg.message,
      if p.companyName.Some? then OrAbsent(p.companyName) else reg.companyName,
      if p.website.Some? then OrAbsent(p.website) else reg.website,
      if p.services.Some? then OrAbsent(p.services) else reg.services,
      Patched(reg.when, p.when))
  }

  /** `updateSponsorPoi`: a string replaces the stored value ('' included);
      anything else keeps it. */
  function PatchLocation(l: SponsorLocation, p: PoiPatch): (r: SponsorLocation)
    ensures r.registrationId == l.registrationId && r.lat == l.lat && r.lng == l.lng
    ensures p.labelText.Some? ==> r.labelText == p.labelText
    ensures p.labelText.None? ==> r.labelText == l.labelText
    ensures p.category.Some? ==> r.category == p.category
    ensures p.category.None? ==> r.category == l.category
    ensures p.note.Some? ==> r.note == p.note
    ensures p.note.None? ==> r.note == l.note
  {
    l.(labelText := if p.labelText.Some? then p.labelText else l.labelText,
       category := if p.category.Some? then p.category else l.category,
       note := if p.note.Some? then p.note else l.note)
  }

  /** The ids of the registrations on a route. */
  function RegistrationsOf(regs: map<Id, Registration>, routeId: Id): (ids: set<Id>)
    ensures forall id :: id in ids <==> id in regs && regs[id].routeId == routeId
  {
    set id | id in regs && regs[id].routeId == routeId
  }

  /** The ids of the sponsor locations owned by one of `regIds`. */
  function LocationsOf(locs: map<Id, SponsorLocation>, regIds: set<Id>): (ids: set<Id>)
    ensures forall id :: id in ids <==> id in locs && locs[id].registrationId in regIds
  {
    set id | id in locs && locs[id].registrationId in regIds
  }

  /** The sponsor dates not owned by any of `regIds`, in their order. */
  function DatesNotOf(ds: seq<SponsorDate>, regIds: set<Id>): (r: seq<SponsorDate>)
    ensures forall x :: x in r <==> x in ds && x.registrationId !in regIds
  {
    if ds == [] then []
    else if ds[0].registrationId in regIds then DatesNotOf(ds[1..], regIds)
    else [ds[0]] + DatesNotOf(ds[1..], regIds)
  }

  /** Filtering by no registration keeps every date in place. */
  lemma {:induction false} DatesNotOfNone(ds: seq<SponsorDate>)
    ensures DatesNotOf(ds, {}) == ds
  {
    if ds != [] {
      DatesNotOfNone(ds[1..]);
      assert ds == [ds[0]] + ds[1..];
    }
  }

  /** Which registrations a listing returns: `listPending`, or
      `listSponsors` with an optional status. */
  datatype Listing = PendingOnly | SponsorsIn(status: Option<Status>)

  predicate Selects(l: Listing, r: Registration)
  {
    match l
    case PendingOnly => r.status == Pending
    case SponsorsIn(s) => r.kind == Sponsor && (s.None? || r.status == s.value)
  }

  /** The selected registrations with an id below `n`, newest first. Rows
      are created in id order, so descending ids are descending `createdAt`. */
  function ListedBelow(regs: map<Id, Registration>, l: Listing, n: nat): (ids: seq<Id>)
    ensures forall k :: 0 <= k < |ids| ==> ids[k] < n
    ensures forall i, j :: 0 <= i < j < |ids| ==> ids[i] > ids[j]
    ensures forall id :: id in ids <==> id < n && id in regs && Selects(l, regs[id])
  {
    if n == 0 then []
    else
      var older := ListedBelow(regs, l, n - 1);
      if n - 1 in regs && Selects(l, regs[n - 1]) then [n - 1] + older else older
  }

  // --------------------------------------------------------------- database

  /** The contents of every table, and the id counter. */
  datatype Db = Db(
    routes: map<Id, Route>, drivers: map<Id, Driver>, vehicles: map<Id, Vehicle>,
    registrations: map<Id, Registration>, locations: map<Id, SponsorLocation>,
    sponsorDates: seq<SponsorDate>, nextId: Id)

  predicate IdsBelow<T>(m: map<Id, T>, n: Id)
  {
    forall id :: id in m ==> id < n
  }

  /** Every sponsor location belongs to a stored registration. */
  predicate LocationsOwned(locs: map<Id, SponsorLocation>, regs: map<Id, Registration>)
  {
    forall id :: id in locs ==> locs[id].registrationId in regs
  }

  /** Ids are below the counter, slugs are unique, and sponsor locations
      have an owner. */
  predicate Consistent(db: Db)
  {
    && IdsBelow(db.routes, db.nextId) && IdsBelow(db.drivers, db.nextId) && IdsBelow(db.vehicles, db.nextId)
    && IdsBelow(db.registrations, db.nextId) && IdsBelow(db.locations, db.nextId)
    && UniqueRouteSlugs(db.routes) && UniqueDriverSlugs(db.drivers)
    && LocationsOwned(db.locations, db.registrations)
  }

  /** `remove` on a route: its registrations, their sponsor locations and
      their sponsor dates, then the route. */
  function RouteRemoved(db: Db, id: Id): Db
  {
    var regIds := RegistrationsOf(db.registrations, id);
    db.(routes := db.routes - {id},
        registrations := db.registrations - regIds,
        locations := db.locations - LocationsOf(db.locations, regIds),
        sponsorDates := DatesNotOf(db.sponsorDates, regIds))
  }

  /** After a route's removal nothing refers to it or to its registrations,
      everything else stays, and the store stays consistent. */
  lemma RouteRemovedLeavesNoReference(db: Db, id: Id)
    requires Consistent(db)
    ensures var after := RouteRemoved(db, id);
      && Consistent(after)
      && id !in after.routes
      && (forall x :: x in after.registrations ==> after.registrations[x].routeId != id)
      && (forall x :: x in db.registrations && db.registrations[x].routeId != id ==>
            x in after.registrations && after.registrations[x] == db.registrations[x])
      && (forall x :: x in after.locations ==> after.locations[x].registrationId in after.registrations)
      && (forall s :: s in after.sponsorDates ==>
            s.registrationId !in db.registrations || db.registrations[s.registrationId].routeId != id)
  {
    var regIds := RegistrationsOf(db.registrations, id);
    var after := RouteRemoved(db, id);
    forall x | x in after.locations
      ensures after.locations[x].registrationId in after.registrations
    {
      assert x !in LocationsOf(db.locations, regIds);
    }
  }

  /** `create` on a registration for route `routeId`: the registration, its
      sponsor locations and its sponsor dates. */
  function RegistrationCreated(db: Db, routeId: Id, d: RegistrationInput, now: Time): Db
  {
    WithRegistration(db, NewRegistration(d, routeId, RegisteredWhen(d, now)), LocationInputs(d),
      NewSponsorDates(db.nextId, d, now))
  }

  /** Inserts `reg` under the next id, then its locations under the ids after it. */
  function WithRegistration(db: Db, reg: Registration, locs: seq<LocationInput>, dates: seq<SponsorDate>): Db
  {
    var id := db.nextId;
    db.(registrations := db.registrations[id := reg],
        locations := db.locations + NewLocations(id + 1, id, locs),
        sponsorDates := db.sponsorDates + dates,
        nextId := id + 1 + |locs|)
  }

  /** Inserting a registration keeps the store consistent. */
  lemma RegistrationInsertKeepsConsistent(db: Db, reg: Registration, locs: seq<LocationInput>, dates: seq<SponsorDate>)
    requires Consistent(db)
    ensures Consistent(WithRegistration(db, reg, locs, dates))
  {
    var after := WithRegistration(db, reg, locs, dates);
    assert LocationsOwned(after.locations, after.registrations);
  }

  /** Inserting a registration adds exactly it, under a fresh id. */
  lemma RegistrationInsertAddsOne(db: Db, reg: Registration, locs: seq<LocationInput>, dates: seq<SponsorDate>)
    requires Consistent(db)
    ensures var after := WithRegistration(db, reg, locs, dates);
      && db.nextId !in db.registrations
      && after.registrations.Keys == db.registrations.Keys + {db.nextId}
      && after.registrations[db.nextId] == reg
  {
  }

  /** The nested locations of a new registration, numbered above every
      stored location, grow the table by their number and all belong to it. */
  lemma LocationsAdded(locations: map<Id, SponsorLocation>, added: map<Id, SponsorLocation>, id: Id, locs: seq<LocationInput>)
    requires IdsBelow(locations, id + 1)
    requires added == NewLocations(id + 1, id, locs)
    ensures |(locations + added).Keys - locations.Keys| == |locs|
    ensures forall x :: x in locations + added && x !in locations ==> (locations + added)[x].registrationId == id
  {
    assert (locations + added).Keys - locations.Keys == added.Keys;
    IdRangeCard(id + 1, |locs|);
  }

  /** `setStatus`'s status change. */
  function Decided(db: Db, id: Id, decision: Decision): Db
    requires id in db.registrations
  {
    db.(registrations := db.registrations[id := db.registrations[id].(status := StatusOf(decision))])
  }

  /** `setStatus`'s side effects on an approved PILOT: one driver with the
      given slug and, when the registration has a plate, one vehicle of
      that driver. */
  function WithApprovedDriver(db: Db, reg: Registration, slug: string): Db
  {
    var did := db.nextId;
    var withDriver := db.(drivers := db.drivers[did := ApprovedDriver(reg, slug)], nextId := did + 1);
    if Truthy(reg.motoPlate) then
      withDriver.(vehicles := db.vehicles[did + 1 := ApprovedVehicle(reg, did)], nextId := did + 2)
    else withDriver
  }

  /** Approval adds exactly one driver, and a vehicle exactly when the
      registration has a plate; with a slug no driver holds, the store stays
      consistent. */
  lemma ApprovalAddsDriver(db: Db, reg: Registration, slug: string)
    requires Consistent(db)
    requires slug !in DriverSlugs(db.drivers, None)
    ensures var after := WithApprovedDriver(db, reg, slug); var did := db.nextId;
      && Consistent(after)
      && did !in db.drivers && after.drivers.Keys == db.drivers.Keys + {did}
      && after.drivers[did].slug == Some(slug)
      && (Truthy(reg.motoPlate) ==>
            did + 1 !in db.vehicles && after.vehicles.Keys == db.vehicles.Keys + {did + 1}
            && after.vehicles[did + 1].driverId == Some(did))
      && (!Truthy(reg.motoPlate) ==> after.vehicles == db.vehicles)
      && after.registrations == db.registrations && after.routes == db.routes
  {
    DriverSlugKeepsUnique(db.drivers, db.nextId, ApprovedDriver(reg, slug));
  }

  /** `deleteRegistration`: the registration's sponsor locations, then the
      registration; its sponsor dates stay. */
  function RegistrationDeleted(db: Db, id: Id): Db
  {
    db.(locations := db.locations - LocationsOf(db.locations, {id}),
        registrations := db.registrations - {id})
  }

  /** After `deleteRegistration` no location belongs to the registration,
      and every sponsor date it had is still stored, now without an owner.
      Route removal, in contrast, deletes the dates. */
  lemma RegistrationDeletedKeepsDates(db: Db, id: Id)
    requires Consistent(db)
    ensures var after := RegistrationDeleted(db, id);
      && Consistent(after)
      && id !in after.registrations
      && (forall x :: x in after.locations ==> after.locations[x].registrationId != id)
      && after.sponsorDates == db.sponsorDates
      && (forall s :: s in db.sponsorDates && s.registrationId == id ==>
            s in after.sponsorDates && s.registrationId !in after.registrations)
  {
  }

  class Store {
    var routes: map<Id, Route>
    var drivers: map<Id, Driver>
    var vehicles: map<Id, Vehicle>
    var registrations: map<Id, Registration>
    var locations: map<Id, SponsorLocation>
    var sponsorDates: seq<SponsorDate>
    /** The next id the store hands out. */
    var nextId: Id

    function Snapshot(): Db
      reads this
    {
      Db(routes, drivers, vehicles, registrations, locations, sponsorDates, nextId)
    }

    ghost predicate Valid()
      reads this
    {
      Consistent(Snapshot())
    }

    constructor ()
      ensures Valid()
      ensures Snapshot() == Db(map[], map[], map[], map[], map[], [], 0)
    {
      routes, drivers, vehicles, registrations, locations, sponsorDates := map[], map[], map[], map[], map[], [];
      nextId := 0;
    }

    // -------------------------------------------------------------- routes

    /** `findOne` */
    method FindRoute(id: Id) returns (r: Result<Route, Error>)
      ensures id in routes ==> r == Ok(routes[id])
      ensures id !in routes ==> r == Err(NotFound("Route not found"))
    {
      if id !in routes {
        return Err(NotFound("Route not found"));
      }
      return Ok(routes[id]);
    }

    /** `findBySlug`: the route holding `slug`, which is unique. */
    method FindRouteBySlug(slug: string) returns (r: Result<Id, Error>)
      requires Valid()
      ensures r.Ok? ==> r.value in routes && routes[r.value].slug == Some(slug)
      ensures r.Ok? ==> forall id :: id in routes && routes[id].slug == Some(slug) ==> id == r.value
      ensures r.Err? ==> (r == Err(NotFound("Route not found"))
        && forall id :: id in routes ==> routes[id].slug != Some(slug))
    {
      if id :| id in routes && routes[id].slug == Some(slug) {
        return Ok(id);
      }
      return Err(NotFound("Route not found"));
    }

    /** `makeUniqueSlug(name, excludeId)`: the first free candidate made
        from `slugify(name)`, held by no route but `exclude`. */
    method MakeUniqueRouteSlug(name: string, exclude: Option<Id>) returns (slug: string)
      ensures slug !in RouteSlugs(routes, exclude)
      ensures slug == FreshSlug(Slugify(name), RouteSlugs(routes, exclude))
    {
      slug := UniqueSlug(Slugify(name), RouteSlugs(routes, exclude));
    }

    /** `create`: the route with a fresh slug made from its name. */
    method CreateRoute(dto: RouteInput) returns (id: Id, created: Route)
      requires Valid()
      modifies this
      ensures Valid()
      ensures id == old(nextId) && id !in old(routes)
      ensures created == Route(dto.name, dto.description, dto.geojson, created.slug)
      ensures created.slug == Some(FreshSlug(Slugify(dto.name), RouteSlugs(old(routes), None)))
      ensures Snapshot() == old(Snapshot()).(routes := old(routes)[id := created], nextId := id + 1)
    {
      var slug := MakeUniqueRouteSlug(dto.name, None);
      id := nextId;
      created := Route(dto.name, dto.description, dto.geojson, Some(slug));
      RouteSlugKeepsUnique(routes, id, created);
      routes := routes[id := created];
      nextId := nextId + 1;
    }

    /** `update`: the body's fields replace the stored ones; the slug is
        made anew, ignoring the route's own, only when a non-empty name
        differs from the stored one. */
    method UpdateRoute(id: Id, dto: RoutePatch) returns (r: Result<Route, Error>)
      requires Valid()
      modifies this
      ensures Valid()
      ensures id !in old(routes) ==> r == Err(NotFound("Route not found")) && Snapshot() == old(Snapshot())
      ensures id in old(routes) ==> var cur := old(routes[id]);
        && r == Ok(PatchRoute(cur, dto,
             if Renames(cur.name, dto.name) then Some(FreshSlug(Slugify(dto.name.value), RouteSlugs(old(routes), Some(id))))
             else None))
        && Snapshot() == old(Snapshot()).(routes := old(routes)[id := r.value])
    {
      var found := FindRoute(id);
      if found.Err? {
        return Err(found.error);
      }
      var current := found.value;
      var regenerated: Option<string> := None;
      if Renames(current.name, dto.name) {
        var s := MakeUniqueRouteSlug(dto.name.value, Some(id));
        regenerated := Some(s);
      }
      var updated := PatchRoute(current, dto, regenerated);
      RouteSlugKeepsUnique(routes, id, updated);
      routes := routes[id := updated];
      return Ok(updated);
    }

    /** `remove`: NotFound for an unknown route; otherwise the cascade. */
    method RemoveRoute(id: Id) returns (r: Result<(), Error>)
      requires Valid()
      modifies this
      ensures Valid()
      ensures id !in old(routes) ==> r == Err(NotFound("Route not found")) && Snapshot() == old(Snapshot())
      ensures id in old(routes) ==> r == Ok(()) && Snapshot() == RouteRemoved(old(Snapshot()), id)
    {
      var found := FindRoute(id);
      if found.Err? {
        return Err(found.error);
      }
      ghost var before := Snapshot();
      RouteRemovedLeavesNoReference(before, id);
      var regIds := RegistrationsOf(registrations, id);
      if regIds != {} {
        locations := locations - LocationsOf(locations, regIds);
        sponsorDates := DatesNotOf(sponsorDates, regIds);
        registrations := registrations - regIds;
      } else {
        DatesNotOfNone(sponsorDates);
      }
      routes := routes - {id};
      assert Snapshot() == RouteRemoved(before, id);
      return Ok(());
    }

    /** The backfill script: every route whose slug is null, undefined or ''
        gets the first free slug made from its name (the route's own slug
        aside), checked against the slugs held at that moment, including
        those assigned earlier in the same run. The routes are visited in
        whatever order the store lists them. */
    method BackfillRouteSlugs()
      requires Valid()
      modifies this
      ensures Valid()
      ensures FilledExcept(old(routes), routes, {})
      ensures Snapshot() == old(Snapshot()).(routes := routes)
    {
      var todo := routes.Keys;
      while todo != {}
        invariant Valid()
        invariant FilledExcept(old(routes), routes, todo)
        invariant Snapshot() == old(Snapshot()).(routes := routes)
        decreases |todo|
      {
        var id :| id in todo;
        ghost var current := routes;
        var slug := BackfillOne(id);
        FilledOneMore(old(routes), current, todo, id, slug);
        todo := todo - {id};
      }
    }

    /** One turn of the backfill loop: a slug-less route gets the first free
        slug made from its name; `slug` is that slug, or the route's own. */
    method BackfillOne(id: Id) returns (slug: string)
      requires Valid() && id in routes
      modifies this
      ensures Valid()
      ensures !HasSlug(old(routes[id])) ==> slug == FreshSlug(Slugify(old(routes[id]).name), RouteSlugs(old(routes), Some(id)))
      ensures routes == WithSlug(old(routes), id, slug)
      ensures Snapshot() == old(Snapshot()).(routes := routes)
    {
      var route := routes[id];
      slug := if route.slug.Some? then route.slug.value else [];
      if !HasSlug(route) {
        slug := MakeUniqueRouteSlug(route.name, Some(id));
        RouteSlugKeepsUnique(routes, id, route.(slug := Some(slug)));
        routes := routes[id := route.(slug := Some(slug))];
      }
    }

    // ------------------------------------------------------------- drivers

    method FindDriver(id: Id) returns (r: Result<Driver, Error>)
      ensures id in drivers ==> r == Ok(drivers[id])
      ensures id !in drivers ==> r == Err(NotFound("Driver not found"))
    {
      if id !in drivers {
        return Err(NotFound("Driver not found"));
      }
      return Ok(drivers[id]);
    }

    method FindDriverBySlug(slug: string) returns (r: Result<Id, Error>)
      requires Valid()
      ensures r.Ok? ==> r.value in drivers && drivers[r.value].slug == Some(slug)
      ensures r.Ok? ==> forall id :: id in drivers && drivers[id].slug == Some(slug) ==> id == r.value
      ensures r.Err? ==> (r == Err(NotFound("Driver not found"))
        && forall id :: id in drivers ==> drivers[id].slug != Some(slug))
    {
      if id :| id in drivers && drivers[id].slug == Some(slug) {
        return Ok(id);
      }
      return Err(NotFound("Driver not found"));
    }

    /** `makeUniqueDriverSlug(name, excludeId)`: as for routes, but from
        `slugify(name) || 'pilot'`, so the result is never ''. */
    method MakeUniqueDriverSlug(name: string, exclude: Option<Id>) returns (slug: string)
      ensures slug != []
      ensures slug !in DriverSlugs(drivers, exclude)
      ensures slug == FreshSlug(DriverSlugBase(Some(name)), DriverSlugs(drivers, exclude))
    {
      slug := UniqueSlug(DriverSlugBase(Some(name)), DriverSlugs(drivers, exclude));
      FreshSlugIsBaseIffFree(DriverSlugBase(Some(name)), DriverSlugs(drivers, exclude));
    }

    /** `create`: the body's fields plus a fresh slug. */
    method CreateDriver(dto: DriverInput) returns (id: Id, created: Driver)
      requires Valid()
      modifies this
      ensures Valid()
      ensures id == old(nextId) && id !in old(drivers)
      ensures created == Driver(dto.name, dto.license, dto.userId, dto.club, dto.nickname,
        Patched(false, dto.preferNickname), created.slug)
      ensures created.slug == Some(FreshSlug(DriverSlugBase(Some(dto.name)), DriverSlugs(old(drivers), None)))
      ensures Snapshot() == old(Snapshot()).(drivers := old(drivers)[id := created], nextId := id + 1)
    {
      var slug := MakeUniqueDriverSlug(dto.name, None);
      id := nextId;
      created := Driver(dto.name, dto.license, dto.userId, dto.club, dto.nickname,
        Patched(false, dto.preferNickname), Some(slug));
      DriverSlugKeepsUnique(drivers, id, created);
      drivers := drivers[id := created];
      nextId := nextId + 1;
    }

    /** `update`: as for routes; a regenerated driver slug is never '', so
        it is always written. */
    method UpdateDriver(id: Id, dto: DriverPatch) returns (r: Result<Driver, Error>)
      requires Valid()
      modifies this
      ensures Valid()
      ensures id !in old(drivers) ==> r == Err(NotFound("Driver not found")) && Snapshot() == old(Snapshot())
      ensures id in old(drivers) ==> var cur := old(drivers[id]);
        && r == Ok(PatchDriver(cur, dto,
             if Renames(cur.name, dto.name) then Some(FreshSlug(DriverSlugBase(dto.name), DriverSlugs(old(drivers), Some(id))))
             else None))
        && Snapshot() == old(Snapshot()).(drivers := old(drivers)[id := r.value])
    {
      var found := FindDriver(id);
      if found.Err? {
        return Err(found.error);
      }
      var current := found.value;
      var regenerated: Option<string> := None;
      if Renames(current.name, dto.name) {
        var s := MakeUniqueDriverSlug(dto.name.value, Some(id));
        regenerated := Some(s);
      }
      var updated := PatchDriver(current, dto, regenerated);
      DriverSlugKeepsUnique(drivers, id, updated);
      drivers := drivers[id := updated];
      return Ok(updated);
    }

    /** `remove`: deletes only after `findOne` found the driver. */
    method RemoveDriver(id: Id) returns (r: Result<(), Error>)
      requires Valid()
      modifies this
      ensures Valid()
      ensures id !in old(drivers) ==> r == Err(NotFound("Driver not found")) && Snapshot() == old(Snapshot())
      ensures id in old(drivers) ==> r == Ok(()) && Snapshot() == old(Snapshot()).(drivers := old(drivers) - {id})
    {
      var found := FindDriver(id);
      if found.Err? {
        return Err(found.error);
      }
      drivers := drivers - {id};
      return Ok(());
    }

    // ------------------------------------------------------- registrations

    /** The route lookup at the start of `create`. */
    method ResolveRoute(d: RegistrationInput) returns (r: Result<Id, Error>)
      requires Valid()
      ensures r.Ok? <==> ResolvedRoute(routes, d).Some?
      ensures r.Ok? ==> r.value == ResolvedRoute(routes, d).value
      ensures r.Err? ==> r == Err(NotFound(if Truthy(d.routeSlug) then "Route not found" else "Route not specified"))
    {
      if d.routeId.Some? {
        return Ok(d.routeId.value);
      }
      if Truthy(d.routeSlug) {
        if id :| id in routes && routes[id].slug == d.routeSlug {
          return Ok(id);
        }
        return Err(NotFound("Route not found"));
      }
      return Err(NotFound("Route not specified"));
    }

    /** `create`. Fails, changing nothing, when no route is named
        (NotFound), or when a PILOT clashes with one already on the route
        (Conflict). Otherwise inserts one registration, its sponsor
        locations, and its sponsor dates. `now` is `new Date()`. */
    method CreateRegistration(d: RegistrationInput, now: Time) returns (r: Result<Id, Error>)
      requires Valid()
      modifies this
      ensures Valid()
      ensures var route := ResolvedRoute(old(routes), d);
        if route.None? then
          r == Err(NotFound(if Truthy(d.routeSlug) then "Route not found" else "Route not specified"))
          && Snapshot() == old(Snapshot())
        else if d.kind == Pilot && PilotTaken(old(registrations), route.value, d) then
          r == Err(Conflict("Pilot already registered for this route")) && Snapshot() == old(Snapshot())
        else
          r == Ok(old(nextId)) && Snapshot() == RegistrationCreated(old(Snapshot()), route.value, d, now)
    {
      var resolved := ResolveRoute(d);
      if resolved.Err? {
        return Err(resolved.error);
      }
      var routeId := resolved.value;
      if d.kind == Pilot && exists id :: id in registrations && Clashes(registrations[id], routeId, d) {
        return Err(Conflict("Pilot already registered for this route"));
      }
      var id := nextId;
      InsertRegistration(NewRegistration(d, routeId, RegisteredWhen(d, now)), LocationInputs(d),
        NewSponsorDates(id, d, now));
      return Ok(id);
    }

    /** The inserts of `create`, once the request passed its checks. */
    method InsertRegistration(reg: Registration, locs: seq<LocationInput>, dates: seq<SponsorDate>)
      requires Valid()
      modifies this
      ensures Valid()
      ensures Snapshot() == WithRegistration(old(Snapshot()), reg, locs, dates)
    {
      RegistrationInsertKeepsConsistent(Snapshot(), reg, locs, dates);
      var after := WithRegistration(Snapshot(), reg, locs, dates);
      registrations := after.registrations;
      locations := after.locations;
      sponsorDates := after.sponsorDates;
      nextId := after.nextId;
      assert Snapshot() == after;
    }

    /** `setStatus`. Records the decision; approving a PILOT also creates a
        driver with a fresh slug and, when the registration has a plate, a
        vehicle of that driver. */
    method SetStatus(id: Id, decision: Decision) returns (r: Result<Approval, Error>)
      requires Valid()
      modifies this
      ensures Valid()
      ensures id !in old(registrations) ==> r == Err(NotFound("Registration not found")) && Snapshot() == old(Snapshot())
      ensures id in old(registrations) ==> var reg := old(registrations[id]); var decided := Decided(old(Snapshot()), id, decision);
        if decision == Approve && reg.kind == Pilot then
          r == Ok(DriverCreated(old(nextId), if Truthy(reg.motoPlate) then Some(old(nextId) + 1) else None))
          && Snapshot() == WithApprovedDriver(decided, reg,
               FreshSlug(DriverSlugBase(Some(reg.name)), DriverSlugs(old(drivers), None)))
        else
          r == Ok(StatusOnly) && Snapshot() == decided
    {
      if id !in registrations {
        return Err(NotFound("Registration not found"));
      }
      var reg := registrations[id];
      registrations := registrations[id := reg.(status := StatusOf(decision))];
      if decision == Approve && reg.kind == Pilot {
        var driverId, vehicleId := AddApprovedDriver(reg);
        return Ok(DriverCreated(driverId, vehicleId));
      }
      return Ok(StatusOnly);
    }

    /** The driver and vehicle inserts of an approval. */
    method AddApprovedDriver(reg: Registration) returns (driverId: Id, vehicleId: Option<Id>)
      requires Valid()
      modifies this
      ensures Valid()
      ensures driverId == old(nextId)
      ensures vehicleId == if Truthy(reg.motoPlate) then Some(driverId + 1) else None
      ensures Snapshot() == WithApprovedDriver(old(Snapshot()), reg,
        FreshSlug(DriverSlugBase(Some(reg.name)), DriverSlugs(old(drivers), None)))
    {
      var slug := MakeUniqueDriverSlug(reg.name, None);
      ApprovalAddsDriver(Snapshot(), reg, slug);
      var after := WithApprovedDriver(Snapshot(), reg, slug);
      driverId := nextId;
      drivers := after.drivers;
      vehicleId := None;
      if Truthy(reg.motoPlate) {
        vehicleId := Some(driverId + 1);
        vehicles := after.vehicles;
      }
      nextId := after.nextId;
      assert Snapshot() == after;
    }

    /** `updateRegistration`: NotFound for an unknown id, otherwise only the
        whitelisted fields the body carries change. */
    method UpdateRegistration(id: Id, p: RegistrationPatch) returns (r: Result<Registration, Error>)
      requires Valid()
      modifies this
      ensures Valid()
      ensures id !in old(registrations) ==> r == Err(NotFound("Registration not found")) && Snapshot() == old(Snapshot())
      ensures id in old(registrations) ==>
        && r == Ok(PatchRegistration(old(registrations[id]), p))
        && Snapshot() == old(Snapshot()).(registrations := old(registrations)[id := r.value])
    {
      if id !in registrations {
        return Err(NotFound("Registration not found"));
      }
      var updated := PatchRegistration(registrations[id], p);
      registrations := registrations[id := updated];
      return Ok(updated);
    }

    /** `deleteRegistration`: NotFound for an unknown id; otherwise its
        sponsor locations, then the registration. */
    method DeleteRegistration(id: Id) returns (r: Result<(), Error>)
      requires Valid()
      modifies this
      ensures Valid()
      ensures id !in old(registrations) ==> r == Err(NotFound("Registration not found")) && Snapshot() == old(Snapshot())
      ensures id in old(registrations) ==> r == Ok(()) && Snapshot() == RegistrationDeleted(old(Snapshot()), id)
    {
      if id !in registrations {
        return Err(NotFound("Registration not found"));
      }
      RegistrationDeletedKeepsDates(Snapshot(), id);
      locations := locations - LocationsOf(locations, {id});
      registrations := registrations - {id};
      return Ok(());
    }

    /** `listPending`: every pending registration, newest first. */
    method ListPending() returns (ids: seq<Id>)
      requires Valid()
      ensures forall i, j :: 0 <= i < j < |ids| ==> ids[i] > ids[j]
      ensures forall id :: id in ids <==> id in registrations && registrations[id].status == Pending
    {
      ids := ListedBelow(registrations, PendingOnly, nextId);
    }

    /** `listSponsors`: every SPONSOR registration, only those with `status`
        when one is given, newest first. */
    method ListSponsors(status: Option<Status>) returns (ids: seq<Id>)
      requires Valid()
      ensures forall i, j :: 0 <= i < j < |ids| ==> ids[i] > ids[j]
      ensures forall id :: id in ids <==>
        id in registrations && registrations[id].kind == Sponsor
        && (status.Some? ==> registrations[id].status == status.value)
    {
      ids := ListedBelow(registrations, SponsorsIn(status), nextId);
    }

    /** `addSponsorPoi`: a new location of an existing registration; empty
        label, category and note are not stored. */
    method AddSponsorPoi(registrationId: Id, body: PoiInput) returns (r: Result<Id, Error>)
      requires Valid()
      modifies this
      ensures Valid()
      ensures registrationId !in registrations ==> r == Err(NotFound("Registration not found")) && Snapshot() == old(Snapshot())
      ensures registrationId in registrations ==>
        && r == Ok(old(nextId)) && r.value !in old(locations)
        && Snapshot() == old(Snapshot()).(
             locations := old(locations)[r.value := NewLocation(registrationId,
               LocationInput(body.lat, body.lng, body.labelText, body.category, body.note))],
             nextId := r.value + 1)
    {
      if registrationId !in registrations {
        return Err(NotFound("Registration not found"));
      }
      var id := nextId;
      locations := locations[id := NewLocation(registrationId, LocationInput(body.lat, body.lng, body.labelText, body.category, body.note))];
      nextId := nextId + 1;
      return Ok(id);
    }

    /** The POI exists and belongs to the registration in the request path. */
    predicate OwnsPoi(registrationId: Id, poiId: Id)
      reads this
    {
      poiId in locations && locations[poiId].registrationId == registrationId
    }

    /** `updateSponsorPoi`: NotFound unless the registration owns the POI;
        string fields replace the stored ones, others keep them. */
    method UpdateSponsorPoi(registrationId: Id, poiId: Id, body: PoiPatch) returns (r: Result<SponsorLocation, Error>)
      requires Valid()
      modifies this
      ensures Valid()
      ensures !old(OwnsPoi(registrationId, poiId)) ==> r == Err(NotFound("POI not found")) && Snapshot() == old(Snapshot())
      ensures old(OwnsPoi(registrationId, poiId)) ==>
        && r == Ok(PatchLocation(old(locations[poiId]), body))
        && Snapshot() == old(Snapshot()).(locations := old(locations)[poiId := r.value])
    {
      if !OwnsPoi(registrationId, poiId) {
        return Err(NotFound("POI not found"));
      }
      var updated := PatchLocation(locations[poiId], body);
      locations := locations[poiId := updated];
      return Ok(updated);
    }

    /** `deleteSponsorPoi`: NotFound unless the registration owns the POI. */
    method DeleteSponsorPoi(registrationId: Id, poiId: Id) returns (r: Result<(), Error>)
      requires Valid()
      modifies this
      ensures Valid()
      ensures !old(OwnsPoi(registrationId, poiId)) ==> r == Err(NotFound("POI not found")) && Snapshot() == old(Snapshot())
      ensures old(OwnsPoi(registrationId, poiId)) ==>
        && r == Ok(())
        && Snapshot() == old(Snapshot()).(locations := old(locations) - {poiId})
    {
      if !OwnsPoi(registrationId, poiId) {
        return Err(NotFound("POI not found"));
      }
      locations := locations - {poiId};
      return Ok(());
    }
  }
}
