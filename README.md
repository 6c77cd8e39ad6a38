# motoapp core, modelled in Dafny

motoapp tracks motorcycle rides. A NestJS backend stores routes, drivers,
vehicles, GPS positions and public registrations. Registrations are pilots,
spectators and sponsors; sponsors also have dated slots and map points of
interest ("POIs"). A Next.js front end shows the rides, draws and edits
route shapes stored as GeoJSON, simulates vehicles along a route, and lets a
driver share the phone's position.

This project models that core and proves what it promises:

- **Backend store** (`backend.dfy`): routes, drivers, vehicles,
  registrations, sponsor locations and sponsor dates, as a `Store` class.
  Each service method states its new state as a function of the old one.
  The lemmas show that slugs stay unique and that no location outlives its
  registration.
- **Slugs** (`slug.dfy`, `text.dfy`): `slugify` as a chain of string
  steps, and the `-2`, `-3`, … loop that picks a free slug. A slug is a
  fixed point of `slugify`, and the loop returns the first free candidate.
- **Registration requests** (`registration_dto.dfy`,
  `registrations_controller.dfy`): the validation pipe's DTO, the
  controller's hand-written checks in their order, its error mapping and
  its admin gate.
- **Positions** (`positions.dfy`): storing and broadcasting a fix, the
  last fix of one vehicle, and the group-by query for the last fix of
  every vehicle.
- **GeoJSON traversal** (`geojson.dfy`, `route_path.dfy`,
  `route_edit.dfy`, `route_length.dfy`): the front end's readers of a
  stored route shape (`extractLineCoords`, `getSelectedRoutePath`,
  `getKmFromGeojson`, `getTimeLabelFromGeojson`). Also its writers: vertex
  dragging, shape normalisation and the POI merge. GeoJSON follows RFC
  7946: positions are longitude first (section 3.1.1), and a polygon's
  first ring is its exterior ring (section 3.1.6).
- **Simulation** (`simulation.dfy`): the per-vehicle timers and the
  stepping of a simulated vehicle along the route path, 11 points per
  segment.
- **Home page** (`home_dates.dfy`, `home_forms.dfy`): the season's date
  options, the per-route date filters, the sponsor date checkboxes, the
  map bounds, and the three sign-up forms with their request bodies.
- **Sponsors admin page** (`sponsors_page.dfy`): the POI edit list and the
  sequence of API calls that "save" sends.
- **Share page** (`share.dfy`): the position watch with its two-second
  throttle.
- **Route guard** (`app_guard.dfy`): the redirect rules of `_app.tsx`.

Some ids are generated by the database. The model uses natural numbers from
one counter for them. Timestamps are integers. The great-circle distance is
a parameter `dist` with non-negative values. Requests that the front end
sends are recorded as values rather than performed.

## Model

| member | source | states |
|---|---|---|
| Backend.OrAbsent | backend/src/registrations/registrations.service.ts:40-49 | `x \|\| undefined`: present exactly when the text is present and non-empty, and then unchanged |
| Backend.RouteSlugKeepsUnique | backend/src/routes/routes.service.ts:54-65 | writing a route whose slug is fresh among the other routes keeps every route slug unique |
| Backend.DriverSlugKeepsUnique | backend/src/drivers/drivers.service.ts:66-76 | the same for driver slugs |
| Backend.WithSlug | backend/src/scripts/backfill-route-slugs.ts:36-39 | setting one route's slug keeps the set of route ids |
| Backend.FilledOneMore | backend/src/scripts/backfill-route-slugs.ts:35-43 | one backfill step gives one more route a slug and changes nothing else |
| Backend.PatchRoute | backend/src/routes/routes.service.ts:31-37 | each field the DTO gives replaces the stored one and each it leaves out is kept; the slug changes only to a regenerated slug, and it does change when one was regenerated |
| Backend.PatchDriver | backend/src/drivers/drivers.service.ts:40-46 | the same for drivers: given fields replace, missing fields are kept, and the slug follows a regenerated one |
| Backend.ResolvedRoute | backend/src/registrations/registrations.service.ts:11-17 | a given route id wins; otherwise the route whose slug matches a non-empty routeSlug; otherwise none |
| Backend.NewSponsorDates | backend/src/registrations/registrations.service.ts:64-100 | sponsors only: one date per `whenMultiple` entry, in order, or else one date from `when`; all belong to the new registration |
| Backend.NewLocations | backend/src/registrations/registrations.service.ts:52-62 | one new location per input, with consecutive fresh ids, each owned by the new registration |
| Backend.LocationsAdded | backend/src/registrations/registrations.service.ts:52-62 | creating a registration adds exactly as many locations as inputs, all owned by it |
| Backend.PatchRegistration | backend/src/registrations/registrations.service.ts:177-193 | kind, status, license and bike fields are kept; each given text, route and date replaces its field and each missing one is kept; an empty company name, website, services or message clears its field; an empty patch changes nothing |
| Backend.PatchLocation | backend/src/registrations/registrations.service.ts:222-233 | owner and coordinates are kept; each given label, category or note replaces the stored one, and each that is not given is kept |
| Backend.RegistrationsOf | backend/src/routes/routes.service.ts:43-45 | exactly the registrations of the route |
| Backend.LocationsOf | backend/src/routes/routes.service.ts:46 | exactly the locations owned by those registrations |
| Backend.DatesNotOf | backend/src/routes/routes.service.ts:47 | exactly the sponsor dates that do not belong to those registrations |
| Backend.ListedBelow | backend/src/registrations/registrations.service.ts:104-118 | the matching registrations, newest first, each listed once |
| Backend.RouteRemovedLeavesNoReference | backend/src/routes/routes.service.ts:40-52 | after removing a route the store stays consistent: no registration refers to the route, every other registration is kept, every location still has its registration, and no date of a removed registration is left |
| Backend.RegistrationInsertKeepsConsistent | backend/src/registrations/registrations.service.ts:67-97 | inserting a registration with its locations and dates keeps the store consistent |
| Backend.RegistrationInsertAddsOne | backend/src/registrations/registrations.service.ts:67-97 | the insert adds exactly one registration, under the next id, which was free |
| Backend.ApprovalAddsDriver | backend/src/registrations/registrations.service.ts:124-148 | approving a pilot adds one driver with a fresh unique slug, and a vehicle exactly when a plate was given |
| Backend.RegistrationDeletedKeepsDates | backend/src/registrations/registrations.service.ts:196-202 | deleting a registration removes it and its locations and keeps the store consistent; its sponsor dates stay, now without an owner |
| Backend.Store.FindRoute | backend/src/routes/routes.service.ts:14-18 | the stored route, or NotFound("Route not found") |
| Backend.Store.FindRouteBySlug | backend/src/routes/routes.service.ts:20-24 | the only route with that slug, or NotFound |
| Backend.Store.MakeUniqueRouteSlug | backend/src/routes/routes.service.ts:54-65 | the first free candidate for the slugified name, ignoring the excluded route |
| Backend.Store.CreateRoute | backend/src/routes/routes.service.ts:26-29 | one new route under the next id, with the first free slug for its name |
| Backend.Store.UpdateRoute | backend/src/routes/routes.service.ts:31-38 | NotFound for an unknown id; otherwise the patched route, with the slug regenerated when the name changes |
| Backend.Store.RemoveRoute | backend/src/routes/routes.service.ts:40-52 | NotFound for an unknown id; otherwise the store becomes `RouteRemoved` |
| Backend.Store.BackfillRouteSlugs | backend/src/scripts/backfill-route-slugs.ts:33-44 | afterwards every route has a slug, and routes that had one keep it |
| Backend.Store.BackfillOne | backend/src/scripts/backfill-route-slugs.ts:36-39 | a route without a slug gets the first free slug for its name |
| Backend.Store.FindDriver | backend/src/drivers/drivers.service.ts:17-24 | the stored driver, or NotFound("Driver not found") |
| Backend.Store.FindDriverBySlug | backend/src/drivers/drivers.service.ts:26-33 | the only driver with that slug, or NotFound |
| Backend.Store.MakeUniqueDriverSlug | backend/src/drivers/drivers.service.ts:66-76 | a non-empty slug, the first free candidate for the name, or for "pilot" when the name slugifies to nothing |
| Backend.Store.CreateDriver | backend/src/drivers/drivers.service.ts:35-38 | one new driver under the next id, with a fresh slug |
| Backend.Store.UpdateDriver | backend/src/drivers/drivers.service.ts:40-47 | NotFound for an unknown id; otherwise the patched driver |
| Backend.Store.RemoveDriver | backend/src/drivers/drivers.service.ts:49-53 | NotFound for an unknown id; otherwise exactly that driver is gone |
| Backend.Store.ResolveRoute | backend/src/registrations/registrations.service.ts:10-17 | the route `ResolvedRoute` picks; else "Route not found" when a slug was given, "Route not specified" when not |
| Backend.Store.CreateRegistration | backend/src/registrations/registrations.service.ts:9-102 | route resolution, the duplicate-pilot conflict, then one insert with its locations and sponsor dates |
| Backend.Store.InsertRegistration | backend/src/registrations/registrations.service.ts:67-97 | the store becomes `WithRegistration` of the old one |
| Backend.Store.SetStatus | backend/src/registrations/registrations.service.ts:120-151 | NotFound for an unknown id; otherwise the new status, plus a driver for an approved pilot |
| Backend.Store.AddApprovedDriver | backend/src/registrations/registrations.service.ts:124-148 | a driver under the next id, and a vehicle under the id after it exactly when a plate is present |
| Backend.Store.UpdateRegistration | backend/src/registrations/registrations.service.ts:177-193 | NotFound for an unknown id; otherwise the registration becomes `PatchRegistration` of it |
| Backend.Store.DeleteRegistration | backend/src/registrations/registrations.service.ts:196-202 | NotFound for an unknown id; otherwise the store becomes `RegistrationDeleted` |
| Backend.Store.ListPending | backend/src/registrations/registrations.service.ts:104-110 | exactly the pending registrations, newest first |
| Backend.Store.ListSponsors | backend/src/registrations/registrations.service.ts:112-118 | exactly the sponsor registrations with the given status, or of any status, newest first |
| Backend.Store.AddSponsorPoi | backend/src/registrations/registrations.service.ts:205-219 | NotFound for an unknown registration; otherwise one new location owned by it |
| Backend.Store.UpdateSponsorPoi | backend/src/registrations/registrations.service.ts:222-234 | NotFound unless the POI belongs to the registration; otherwise the POI becomes `PatchLocation` of it |
| Backend.Store.DeleteSponsorPoi | backend/src/registrations/registrations.service.ts:237-242 | NotFound unless the POI belongs to the registration; otherwise exactly that POI is gone |
| RegistrationDto.AcceptedBodyShape | backend/src/registrations/dto/create-registration.dto.ts:8-33 | a body the pipe accepts has no routeSlug, has a date, has a name of 2-120 characters and a phone of 5-30, and a license of 3-50 when present |
| RegistrationDto.PipeRejectsRouteSlug | backend/src/main.ts:8 | the whitelist pipe refuses a body that carries `routeSlug` |
| RegistrationDto.AcceptedIsWellTyped | backend/src/registrations/dto/create-registration.dto.ts:4-92 | every field of an accepted body has the declared type |
| RegistrationsController.CreateCheckMeaning | backend/src/registrations/registrations.controller.ts:12-37 | the hand-written checks pass exactly when their requirements hold, and crash only on a non-string field that they trim |
| RegistrationsController.KindChecks | backend/src/registrations/registrations.controller.ts:12-37 | the per-kind checks pass exactly when the per-kind requirements hold |
| RegistrationsController.NameEmailPhoneFirst | backend/src/registrations/registrations.controller.ts:16-18 | name, then email, then phone are refused first, in that order |
| RegistrationsController.SponsorChecks | backend/src/registrations/registrations.controller.ts:30-37 | a sponsor needs a company name and a non-empty location list whose entries all have numeric coordinates |
| RegistrationsController.TrimProbe | backend/src/registrations/registrations.controller.ts:16-18 | `!x?.trim()` is false exactly for text with a non-space character, and throws exactly on a present non-string |
| RegistrationsController.WellTypedChecks | backend/src/registrations/registrations.controller.ts:12-37 | on a well-typed body the checks never crash and never say the type is missing |
| RegistrationsController.PipedBodyChecks | backend/src/registrations/registrations.controller.ts:12-37 | the same for any body the pipe accepts |
| RegistrationsController.PilotLicenseCheckedByController | backend/src/registrations/registrations.controller.ts:27-29 | a pipe-valid pilot body without a license is refused by the controller |
| RegistrationsController.SponsorWhenIgnoredByChecks | backend/src/registrations/registrations.controller.ts:24-25 | for a sponsor, removing `when` does not change the checks' outcome |
| RegistrationsController.SponsorKindChecksIgnoreWhen | backend/src/registrations/registrations.controller.ts:24-25 | the same for the per-kind checks alone |
| RegistrationsController.SponsorWhenRequiredByPipe | backend/src/registrations/dto/create-registration.dto.ts:11-12 | the pipe still refuses a body without `when` |
| RegistrationsController.Caught | backend/src/registrations/registrations.controller.ts:39-44 | BadRequest and Conflict pass through; every other error becomes "Invalid registration payload" |
| RegistrationsController.PassedBodyNamesRoute | backend/src/registrations/registrations.controller.ts:20-23 | a body that passes names its route by id, never by slug |
| RegistrationsController.Create | backend/src/registrations/registrations.controller.ts:11-45 | pipe refusal, then the checks' refusal, then the service outcome; the store changes only on success |
| RegistrationsController.CreateAccepted | backend/src/registrations/registrations.controller.ts:38 | a body that passes the checks reaches the service |
| RegistrationsController.Submit | backend/src/registrations/registrations.controller.ts:38 | a second pilot for the same route and date is refused; otherwise the registration is inserted |
| RegistrationsController.Pending | backend/src/registrations/registrations.controller.ts:48-53 | refused exactly for non-admins; otherwise the pending list, newest first |
| RegistrationsController.StatusFilter | backend/src/registrations/registrations.controller.ts:58-60 | no filter exactly for a missing or empty query; a filter only for a known status name |
| RegistrationsController.StatusFilterNames | backend/src/registrations/registrations.controller.ts:58-60 | every status name selects its status |
| RegistrationsController.Sponsors | backend/src/registrations/registrations.controller.ts:56-61 | refused for non-admins; otherwise the sponsors with the filtered status, newest first |
| RegistrationsController.SponsorsPublic | backend/src/registrations/registrations.controller.ts:64-67 | exactly the approved sponsors, newest first |
| RegistrationsController.DecisionOf | backend/src/registrations/registrations.controller.ts:74-75 | "APPROVED" and "REJECTED" are the only accepted decisions; anything else is "Invalid status" |
| RegistrationsController.SetStatus | backend/src/registrations/registrations.controller.ts:70-77 | admin gate, then the decision check, then the service; for an admin, a valid decision and a known id it succeeds, and the new store is the decided one, plus the approved pilot's driver (and vehicle with a plate) under the first free slug |
| RegistrationsController.Update | backend/src/registrations/registrations.controller.ts:80-85 | admin gate, then the service update; for an admin and a known id the registration becomes `PatchRegistration` of it by the patch read from the body, and nothing else changes |
| RegistrationsController.ReadPatch | backend/src/registrations/registrations.service.ts:181-189 | a text field is in the patch exactly when the body holds a string for it, with that string; the route and the date exactly when the body's value is truthy |
| RegistrationsController.IgnoredBodyChangesNothing | backend/src/registrations/registrations.service.ts:181-189 | a body with no string field and a falsy route and date leaves the registration as it is |
| RegistrationsController.EmptyRouteAndDateSkipped | backend/src/registrations/registrations.service.ts:187-189 | an empty route or date text is skipped, while an empty name text is written |
| RegistrationsController.Remove | backend/src/registrations/registrations.controller.ts:88-93 | admin gate, then the service delete |
| RegistrationsController.PoiText | backend/src/registrations/registrations.controller.ts:96-102 | a text field of the POI body is read exactly when it is a string |
| RegistrationsController.AddPoi | backend/src/registrations/registrations.controller.ts:96-102 | admin gate, "lat/lng required" without numeric coordinates, then the service; for an admin, numeric coordinates and a known registration it succeeds with a fresh id and adds exactly that location |
| RegistrationsController.UpdatePoi | backend/src/registrations/registrations.controller.ts:105-110 | admin gate, then the service update of an owned POI; the coordinates are kept, and each string label, category or note in the body replaces the stored one |
| RegistrationsController.DeletePoi | backend/src/registrations/registrations.controller.ts:113-118 | admin gate, then the service delete of an owned POI |
| Positions.PositionStore.Create | backend/src/positions/positions.service.ts:10-22 | the fix is stored under the next id and then broadcast, in that order |
| Positions.StoreThenBroadcast | backend/src/positions/positions.service.ts:20-21 | every broadcast follows the store of the same fix, and the stored fixes grow by exactly that fix |
| Positions.StoredFixes | backend/src/positions/positions.service.ts:10-22 | the stored fixes are exactly the fixes of the log's store events: each one was stored, and each stored one is there |
| Positions.LastByVehicle | backend/src/positions/positions.service.ts:24-26 | none exactly when the vehicle has no fix; otherwise one of its fixes with the latest timestamp |
| Positions.MaxTimestamp | backend/src/positions/positions.service.ts:30-37 | the latest timestamp among the vehicle's fixes |
| Positions.Groups | backend/src/positions/positions.service.ts:30-37 | one group per vehicle that has fixes |
| Positions.Select | backend/src/positions/positions.service.ts:38-40 | exactly the fixes whose (vehicle, timestamp) pair is in the key set |
| Positions.LastAll | backend/src/positions/positions.service.ts:28-42 | no fixes give no rows |
| Positions.LastAllIsLatestPerVehicle | backend/src/positions/positions.service.ts:28-42 | a fix is returned exactly when no fix of its vehicle is later |
| Positions.LastAllCoversVehicles | backend/src/positions/positions.service.ts:28-42 | every vehicle with a fix has a row |
| Positions.LastByVehicleInLastAll | backend/src/positions/positions.service.ts:24-42 | the single-vehicle answer is among the all-vehicles rows |
| Positions.LastAllKeepsTies | backend/src/positions/positions.service.ts:28-42 | two fixes of one vehicle with the same latest time are both returned |
| GeoJson.Swap | frontend/src/pages/index.tsx:238 | each `[lng, lat]` position becomes `{lat, lng}`, in order |
| GeoJson.ExtractLineCoords | frontend/src/pages/index.tsx:224-239 | throws, modelled as none, exactly on the stored text "null" |
| GeoJson.CollectionIsConcatenation | frontend/src/pages/index.tsx:236 | a collection's path is its features' paths joined |
| GeoJson.PointsIgnored | frontend/src/pages/index.tsx:228-234 | a Point feature adds nothing to the path |
| GeoJson.FeatureIsItsGeometry | frontend/src/pages/index.tsx:235-237 | a Feature's path is its geometry's path |
| GeoJson.NullTextThrows | frontend/src/pages/index.tsx:225-226 | the text "null" passes the falsy check, so the reader fails on it, while a missing shape gives the empty path |
| GeoJson.RoutePath | frontend/src/components/TrackingMapInner.tsx:393-423 | no document gives the empty path |
| GeoJson.ExtractIsRoutePath | frontend/src/pages/index.tsx:224-239 | whenever the home page reader answers, it agrees with the map's reader |
| RoutePath.PushCoords | frontend/src/components/TrackingMapInner.tsx:397-399 | appends the swapped positions |
| RoutePath.PushLines | frontend/src/components/TrackingMapInner.tsx:405-421 | appends every line of a MultiLineString, in order |
| RoutePath.PushPolygon | frontend/src/components/TrackingMapInner.tsx:400-403 | appends the exterior ring only |
| RoutePath.PushPolygons | frontend/src/components/TrackingMapInner.tsx:405-421 | appends each polygon's exterior ring, in order |
| RoutePath.PushGeometry | frontend/src/components/TrackingMapInner.tsx:405-421 | appends the geometry's path |
| RoutePath.PushFeatures | frontend/src/components/TrackingMapInner.tsx:405-421 | the features' paths joined |
| RoutePath.SelectedRoutePath | frontend/src/components/TrackingMapInner.tsx:393-423 | the loop computes `RoutePath`, which equals the home page reader whenever that one answers |
| RoutePath.NearestVertex | frontend/src/components/TrackingMapInner.tsx:175-180 | the index of the first vertex at the least distance from the click |
| RoutePath.Unswap | frontend/src/components/TrackingMapInner.tsx:187 | each `{lat, lng}` becomes `[lng, lat]`, in order |
| RoutePath.SwapUnswap | frontend/src/components/TrackingMapInner.tsx:187 | swapping back gives the points unchanged |
| RoutePath.FirstTraced | frontend/src/components/TrackingMapInner.tsx:196-197 | the first feature with a line or area geometry, or none when there is none |
| RoutePath.WithEditedPath | frontend/src/components/TrackingMapInner.tsx:184-202 | a bare geometry stays bare and becomes the edited line; a Feature keeps its `properties` and gets the line; no shape gives a Feature with empty `properties`; in a collection the first traced feature (or feature 0) gets the line, keeps its `properties`, and every other feature is kept |
| RoutePath.EditedPathReadsBack | frontend/src/components/TrackingMapInner.tsx:184-202 | reading the written shape gives back exactly the edited path |
| RoutePath.MoveNearestVertex | frontend/src/components/TrackingMapInner.tsx:171-202 | nothing to write exactly when the path is empty; otherwise the nearest vertex moves to the click and the rest of the path stays |
| RouteEdit.ToLineFeature | frontend/src/components/TrackingMapInner.tsx:305-321 | a line or area geometry becomes one LineString feature with empty properties; anything else gives none |
| RouteEdit.FindFeature | frontend/src/components/TrackingMapInner.tsx:326-327 | the first feature of the wanted kind, or none when there is none |
| RouteEdit.NormalizeShape | frontend/src/components/TrackingMapInner.tsx:303-332 | a traced shape becomes one line feature; any other shape is kept |
| RouteEdit.LinesPreferred | frontend/src/components/TrackingMapInner.tsx:323-328 | in a collection the first line feature wins over any area feature |
| RouteEdit.NormalizedLineIsPrefix | frontend/src/components/TrackingMapInner.tsx:305-321 | the normalised path is a prefix of the original path, and the same path except for MultiPolygons |
| RouteEdit.SecondPolygonDropped | frontend/src/components/TrackingMapInner.tsx:316-318 | normalising a two-polygon shape keeps only the first polygon's ring |
| RouteEdit.PoiFeature | frontend/src/components/TrackingMapInner.tsx:619-623 | a POI becomes a Point at `[lng, lat]` |
| RouteEdit.PoiFeatures | frontend/src/components/TrackingMapInner.tsx:619-623 | one Point feature per POI, in order |
| RouteEdit.MergePoisAsWritten | frontend/src/components/TrackingMapInner.tsx:617-631 | the merge as written: a collection ending with the POI features |
| RouteEdit.BareRouteLosesPath | frontend/src/components/TrackingMapInner.tsx:629-631 | merging POIs into a bare geometry that has a path leaves a document whose path is empty |
| RouteEdit.MergePois | frontend/src/components/TrackingMapInner.tsx:625-631 | the corrected merge: a collection ending with the POI features |
| RouteEdit.MergeKeepsRoutePath | frontend/src/components/TrackingMapInner.tsx:625-631 | the corrected merge keeps the route's path for every stored shape |
| RouteEdit.MergeDocKeepsLine | frontend/src/components/TrackingMapInner.tsx:627-628 | appending POI features to a collection keeps its path |
| RouteLength.Segments | frontend/src/pages/routes.tsx:22-26 | a line's length is never negative, and is zero below two points |
| RouteLength.SumLineKm | frontend/src/pages/routes.tsx:22-26 | the loop sums the distances between neighbouring points |
| RouteLength.SegmentsJoinAtLeast | frontend/src/pages/routes.tsx:22-26 | two lines measured apart are never longer than the joined line |
| RouteLength.LinesKm | frontend/src/pages/routes.tsx:31-38 | a MultiLineString's length is never negative |
| RouteLength.PolygonsKm | frontend/src/pages/routes.tsx:31-38 | a MultiPolygon's length is never negative |
| RouteLength.GeometryKm | frontend/src/pages/routes.tsx:27-41 | never negative, and zero for a point or an unknown geometry |
| RouteLength.DocKm | frontend/src/pages/routes.tsx:42-48 | a document's length is never negative |
| RouteLength.KmFromGeojson | frontend/src/pages/routes.tsx:42-48 | throws, modelled as none, exactly on the text "null"; otherwise non-negative, and zero without a shape |
| RouteLength.CollectionKmAdds | frontend/src/pages/routes.tsx:46 | a collection's length is the sum of its features' lengths |
| RouteLength.KmAtMostPathLength | frontend/src/pages/routes.tsx:27-48 | the length never exceeds the length of the joined path that the map draws |
| RouteLength.DeclaredMinutes | frontend/src/pages/routes.tsx:52-58 | `durationMinutes` wins, else `durationSeconds` rounded to minutes, else `timeMin`; none exactly when none of them is a number |
| RouteLength.RoundDiv60 | frontend/src/pages/routes.tsx:56 | `Math.round(n / 60)`: the nearest whole minute |
| RouteLength.EstimatedMinutes | frontend/src/pages/routes.tsx:62-64 | the estimate from the length at 50 km/h, rounded, is at least one minute |
| RouteLength.JsRem60 | frontend/src/pages/routes.tsx:70 | JavaScript's `%`: congruent to n modulo 60, with the sign of n; the Euclidean remainder for n ≥ 0 and minus that of -n for n < 0 |
| RouteLength.TimeLabel | frontend/src/pages/routes.tsx:49-72 | none exactly on the text "null"; "-" without a shape; the declared duration when there is one; otherwise the estimate from a positive length, or "-" at length zero |
| RouteLength.DashIffNoLength | frontend/src/pages/routes.tsx:59-68 | without a declared duration the label is "-" exactly when the length is zero |
| RouteLength.LabelStart | frontend/src/pages/routes.tsx:69-71 | the label starts with the whole hours followed by `h` when there are any, and with the minutes followed by `m` otherwise |
| RouteLength.LabelDeterminesMinutes | frontend/src/pages/routes.tsx:69-71 | different minute counts give different labels |
| Simulation.PathStep | frontend/src/components/TrackingMapInner.tsx:436-443 | the cursor stays within the path |
| Simulation.PathStepOnSegment | frontend/src/components/TrackingMapInner.tsx:436-443 | each step emits the point at `sub/10` along the current segment and advances the cursor |
| Simulation.WalkStep | frontend/src/components/TrackingMapInner.tsx:445-450 | without a path the vehicle jitters around its last point or the centre, and the cursor stays |
| Simulation.Walk | frontend/src/components/TrackingMapInner.tsx:440-443 | n steps emit n points and keep the cursor in range |
| Simulation.WalkAlongSegment | frontend/src/components/TrackingMapInner.tsx:440-443 | steps along one segment emit its evenly spaced points and move to the next segment after 11 |
| Simulation.ElevenPointsPerSegment | frontend/src/components/TrackingMapInner.tsx:440-443 | 11 steps emit both ends of the segment and then start the next one |
| Simulation.Manager.StartFor | frontend/src/components/TrackingMapInner.tsx:459-463 | a vehicle that already has a timer keeps it; otherwise it gets a new timer |
| Simulation.Manager.StopFor | frontend/src/components/TrackingMapInner.tsx:465-469 | the vehicle's timer is gone and its cursor is kept |
| Simulation.Manager.StopEach | frontend/src/components/TrackingMapInner.tsx:474 | every timer is cleared |
| Simulation.Manager.StartAll | frontend/src/components/TrackingMapInner.tsx:471-478 | nothing without a selection; otherwise exactly the selected vehicles run |
| Simulation.Manager.StopAll | frontend/src/components/TrackingMapInner.tsx:480-484 | no timers, and the simulation is off |
| Simulation.Manager.SelectRoute | frontend/src/components/TrackingMapInner.tsx:69 | a route is selected and nothing else changes |
| Simulation.Manager.DeselectRoute | frontend/src/components/TrackingMapInner.tsx:68-81 | without a route the positions are cleared and the simulation stops |
| Simulation.Manager.Step | frontend/src/components/TrackingMapInner.tsx:427-457 | when enabled, the vehicle's cursor moves one tick, its position is the emitted point, and that point is posted |
| Simulation.Tick | frontend/src/components/TrackingMapInner.tsx:432-451 | the cursor stays within the path |
| Simulation.Advance | frontend/src/components/TrackingMapInner.tsx:432-451 | the imperative step computes `Tick` |
| Simulation.StopKeepsCursor | frontend/src/components/TrackingMapInner.tsx:465-469 | stopping one vehicle removes only its timer and keeps every cursor |
| Simulation.StartIdempotent | frontend/src/components/TrackingMapInner.tsx:459-460 | starting a vehicle twice leaves one timer for it |
| Slug.Decompose | backend/src/routes/routes.service.ts:69-70 | each character decomposes into one or two; characters below U+00C0 stay as they are |
| Slug.Nfd | backend/src/routes/routes.service.ts:69-70 | text below U+00C0 is unchanged |
| Slug.StripMarks | backend/src/routes/routes.service.ts:69-70 | no combining mark remains, and text without marks is unchanged |
| Slug.KeepAllowed | backend/src/routes/routes.service.ts:73 | only `a-z`, `0-9`, space and `-` remain, and such text is unchanged |
| Slug.SpaceRunsToDash | backend/src/routes/routes.service.ts:74 | no white space remains, and text without it is unchanged |
| Slug.SquashDashes | backend/src/routes/routes.service.ts:75 | no two dashes in a row remain, and text without them is unchanged |
| Slug.SlugifyIsSlug | backend/src/routes/routes.service.ts:67-76 | the result has only slug characters and no double dash |
| Slug.SlugifyFixesSlugs | backend/src/routes/routes.service.ts:67-76 | a slug is its own slugify |
| Slug.SlugifyIdempotent | backend/src/routes/routes.service.ts:67-76 | slugifying twice is slugifying once |
| Slug.SlugifySteps | backend/src/scripts/backfill-route-slugs.ts:5-14 | the backfill script's slugify equals the service's |
| Slug.SlugifyNullable | backend/src/drivers/drivers.service.ts:55-56 | `(s \|\| '')` first: a missing name slugifies to nothing |
| Slug.DriverSlugBase | backend/src/drivers/drivers.service.ts:67 | a non-empty slug: the name's, or "pilot" when that is empty |
| Slug.CandidateInjective | backend/src/routes/routes.service.ts:59-64 | different counters give different candidates |
| Slug.TakenCandidatesBound | backend/src/routes/routes.service.ts:59-64 | the loop cannot pass more taken candidates than there are taken slugs, so it ends |
| Slug.FirstFreeFrom | backend/src/routes/routes.service.ts:56-64 | the candidate found is free |
| Slug.FreshSlugIsFirstFree | backend/src/routes/routes.service.ts:54-65 | the result is free and every earlier candidate is taken |
| Slug.FirstFreeUnique | backend/src/routes/routes.service.ts:54-65 | only one candidate has that property |
| Slug.FreshSlugIsBaseIffFree | backend/src/routes/routes.service.ts:54-65 | the base itself exactly when it is free; otherwise a numbered candidate from 2 up |
| Slug.UniqueSlug | backend/src/routes/routes.service.ts:56-64 | the loop returns the first free candidate |
| Text.TrimEmptyIffBlank | backend/src/registrations/registrations.controller.ts:16-18 | trimming gives the empty text exactly for blank text |
| Text.ToLower | frontend/src/pages/index.tsx:92 | the same length, with each ASCII capital lowered |
| HomeDates.Weekday | frontend/src/pages/index.tsx:66 | a day of the week, 0 to 6 |
| HomeDates.PushDay | frontend/src/pages/index.tsx:66-80 | one day of the walk appends that day's options and leaves the earlier ones as they were |
| HomeDates.OptionsOnAreOffered | frontend/src/pages/index.tsx:66-80 | one day's options are exactly the offered dates of that day |
| HomeDates.MonthOptionsAreOffered | frontend/src/pages/index.tsx:55-87 | one month's options are exactly the offered dates of that month |
| HomeDates.MonthOptionsAscending | frontend/src/pages/index.tsx:55-87 | one month's options ascend |
| HomeDates.WalkedAscending | frontend/src/pages/index.tsx:55-87 | the options of the season's months ascend |
| HomeDates.SeasonIsExactlyOffered | frontend/src/pages/index.tsx:55-87 | the season's options are exactly the Saturday and Sunday rides and the Thursday night rides |
| HomeDates.SpectatorDates | frontend/src/pages/index.tsx:55-87 | the loop yields exactly the offered dates, ascending |
| HomeDates.FindRoute | frontend/src/pages/index.tsx:91 | the first route with the id, or none when there is none |
| HomeDates.VisibleSpectatorDates | frontend/src/pages/index.tsx:90-94 | weekend dates, plus Thursday nights on a night route |
| HomeDates.VisibleSponsorDates | frontend/src/pages/index.tsx:97-101 | Thursday nights on a night route, weekend dates otherwise |
| HomeDates.SpectatorFilterAscending | frontend/src/pages/index.tsx:90-94 | the filtered list still ascends |
| HomeDates.SponsorFilterAscending | frontend/src/pages/index.tsx:97-101 | the filtered list still ascends |
| HomeDates.SpectatorSees | frontend/src/pages/index.tsx:90-94 | which offered dates a spectator sees for a route |
| HomeDates.SponsorSees | frontend/src/pages/index.tsx:97-101 | which offered dates a sponsor sees for a route |
| HomeDates.Dedup | frontend/src/pages/index.tsx:567 | `new Set` removes repeats and keeps every value |
| HomeDates.Tick | frontend/src/pages/index.tsx:567 | ticking adds the date without repeats |
| HomeDates.Untick | frontend/src/pages/index.tsx:568 | unticking removes exactly that date |
| HomeDates.TickAppends | frontend/src/pages/index.tsx:563-569 | ticking a new date appends it; ticking a present one changes nothing |
| HomeDates.UntickUndoesTick | frontend/src/pages/index.tsx:563-569 | unticking undoes ticking an absent date |
| HomeDates.UntickAbsent | frontend/src/pages/index.tsx:568 | unticking an absent date changes nothing |
| HomeDates.Lats | frontend/src/pages/index.tsx:164-175 | the latitudes of the path, in order |
| HomeDates.Lngs | frontend/src/pages/index.tsx:164-175 | the longitudes of the path, in order |
| HomeDates.Min | frontend/src/pages/index.tsx:164-175 | the least value of the list |
| HomeDates.Max | frontend/src/pages/index.tsx:164-175 | the greatest value of the list |
| HomeDates.SponsorBounds | frontend/src/pages/index.tsx:164-175 | no bounds without a route or a path; otherwise the least and greatest latitude and longitude |
| HomeForms.FirstAt | frontend/src/pages/index.tsx:356 | the position of the first `@`, or the length when there is none |
| HomeForms.EmailNotBlank | frontend/src/pages/index.tsx:356 | an address the pattern accepts is never blank |
| HomeForms.EmailIsTrimmed | frontend/src/pages/index.tsx:356 | an address the pattern accepts has nothing to trim |
| HomeForms.WithOptional | frontend/src/pages/index.tsx:358-372 | `x.trim() \|\| undefined`: an empty value leaves the body as it was, and a non-empty one is sent under the key with the other keys kept |
| HomeForms.PilotCheck | frontend/src/pages/index.tsx:353-356 | the pilot form's first failing check, in the page's order, or none exactly when all pass |
| HomeForms.PilotSubmit | frontend/src/pages/index.tsx:358-372 | an error exactly when the check fails; otherwise the request for the chosen ride, with every text field, optional ones included, sent trimmed |
| HomeForms.PilotBodyPasses | frontend/src/pages/index.tsx:358-372 | the pilot request body passes the controller's checks |
| HomeForms.PilotFormPassesChecks | frontend/src/pages/index.tsx:358-372 | a pilot form the page accepts passes the controller's hand-written checks, and sends the address the pattern accepted |
| HomeForms.PilotShortNameRefused | frontend/src/pages/index.tsx:353-356 | a pilot form the page accepts whose trimmed name is shorter than two characters is refused by the validation pipe |
| HomeForms.PilotPageAcceptsShortName | frontend/src/pages/index.tsx:353-356 | the page accepts a pilot form with a one-letter name, and the pipe refuses the body it sends |
| HomeForms.PilotFormFitsDto | frontend/src/pages/index.tsx:353-372 | a pilot form that also meets the DTO's lengths passes the controller's checks and sends a name, phone and license within those lengths |
| HomeForms.SpectatorCheck | frontend/src/pages/index.tsx:417-421 | the spectator form's first failing check, or none exactly when all pass |
| HomeForms.SpectatorSubmit | frontend/src/pages/index.tsx:424-432 | an error exactly when the check fails; otherwise the request for the chosen route and date, with name, email, phone and message trimmed |
| HomeForms.SpectatorBodyPasses | frontend/src/pages/index.tsx:424-432 | the spectator request body passes the controller's checks |
| HomeForms.SpectatorFormPassesChecks | frontend/src/pages/index.tsx:424-432 | a spectator form the page accepts passes the controller's hand-written checks |
| HomeForms.SpectatorShortNameRefused | frontend/src/pages/index.tsx:417-421 | a spectator form the page accepts whose trimmed name is shorter than two characters is refused by the validation pipe |
| HomeForms.SpectatorPageAcceptsShortName | frontend/src/pages/index.tsx:417-421 | the page accepts a spectator form with a one-letter name, and the pipe refuses the body it sends |
| HomeForms.SpectatorFormFitsDto | frontend/src/pages/index.tsx:417-432 | a spectator form that also meets the DTO's lengths passes the controller's checks and sends a name and phone within those lengths |
| HomeForms.SponsorCheck | frontend/src/pages/index.tsx:494-500 | the sponsor form's first failing check, or none exactly when all pass |
| HomeForms.SponsorSubmit | frontend/src/pages/index.tsx:502-520 | an error exactly when the check fails; otherwise a request with every ticked date, the first as `when`, every map spot, and every text field trimmed |
| HomeForms.SponsorBodyPasses | frontend/src/pages/index.tsx:502-520 | the sponsor request body passes the controller's checks |
| HomeForms.SponsorFormPassesChecks | frontend/src/pages/index.tsx:502-520 | a sponsor form the page accepts passes the controller's hand-written checks |
| HomeForms.SponsorPageAcceptsShortName | frontend/src/pages/index.tsx:494-500 | the page accepts a sponsor form with a one-letter contact name, and the pipe refuses the body it sends |
| HomeForms.SponsorShortNameRefused | frontend/src/pages/index.tsx:494-500 | a sponsor form the page accepts whose trimmed contact name is shorter than two characters is refused by the validation pipe |
| HomeForms.SponsorFormFitsDto | frontend/src/pages/index.tsx:494-520 | a sponsor form that also meets the DTO's lengths passes the controller's checks and sends a name and phone within those lengths |
| HomeForms.ShortNameRefused | backend/src/registrations/dto/create-registration.dto.ts:19-21 | the validation pipe refuses any body whose name is shorter than two characters |
| SponsorsPage.OrNull | frontend/src/pages/sponsors.tsx:71-74 | `x \|\| null`: null exactly for the empty text |
| SponsorsPage.ToDelete | frontend/src/pages/sponsors.tsx:80-81 | exactly the original POIs whose id is no longer in the edit list |
| SponsorsPage.SaveEdit | frontend/src/pages/sponsors.tsx:66-99 | the calls sent are the registration update, then the deletes, then the updates |
| SponsorsPage.SendDeletes | frontend/src/pages/sponsors.tsx:82-85 | one delete per removed POI, in order |
| SponsorsPage.SendUpdates | frontend/src/pages/sponsors.tsx:86-91 | one update per stored POI of the edit list, in order |
| SponsorsPage.DeletedWasRemoved | frontend/src/pages/sponsors.tsx:80-85 | every POI deleted was in the original and is missing from the edits |
| SponsorsPage.RemovedIsDeleted | frontend/src/pages/sponsors.tsx:80-85 | every original POI missing from the edits is deleted |
| SponsorsPage.DeletesAreRemovedOriginals | frontend/src/pages/sponsors.tsx:80-85 | a POI id is deleted exactly when it was original and is missing from the edits |
| SponsorsPage.DeletesBeforeUpdates | frontend/src/pages/sponsors.tsx:82-91 | no update is sent before a delete |
| SponsorsPage.OneUpdatePerEntry | frontend/src/pages/sponsors.tsx:82-91 | each stored id is updated once per edit entry with that id; a temporary or empty id never is |
| SponsorsPage.UpdateIsStored | frontend/src/pages/sponsors.tsx:87 | every update names a stored POI id |
| SponsorsPage.AddPoi | frontend/src/pages/sponsors.tsx:317 | "Añadir POI" appends one entry with a `tmp-` id and keeps the others |
| SponsorsPage.AddedPoiNeverSent | frontend/src/pages/sponsors.tsx:86-91 | an added POI is neither deleted nor updated by the save |
| SponsorsPage.RemovePoi | frontend/src/pages/sponsors.tsx:324 | exactly the entries with another id remain |
| SponsorsPage.SetCategory | frontend/src/pages/sponsors.tsx:327 | the entries with the id get the category; the others are kept |
| SponsorsPage.SetNote | frontend/src/pages/sponsors.tsx:328 | the entries with the id get the note; the others are kept |
| SponsorsPage.RemovedPoiIsDeleted | frontend/src/pages/sponsors.tsx:324 | a removed original POI is deleted by the save and never updated |
| SponsorsPage.ToggleDetails | frontend/src/pages/sponsors.tsx:37-39 | the chosen card's open flag flips and every other card keeps its own |
| SponsorsPage.PendingSponsors | frontend/src/pages/sponsors.tsx:53-55 | exactly the pending sponsor registrations, and none when the list is missing |
| SponsorsPage.OnlySponsors | frontend/src/pages/sponsors.tsx:54 | exactly the sponsor registrations of the list |
| Share.SpeedField | frontend/src/pages/share.tsx:88 | NaN and the infinities are left out, a missing speed is sent as null, a number as itself |
| Share.MessageOr | frontend/src/pages/share.tsx:93 | the error's message, or the fallback when it is empty |
| Share.SpacedPairwise | frontend/src/pages/share.tsx:81-84 | accepted times are at least two seconds apart per step between them |
| Share.SentFixesAreSpaced | frontend/src/pages/share.tsx:81-84 | any two fixes the page sent were accepted at least two seconds apart per fix between them |
| Share.SharePage.ChooseVehicle | frontend/src/pages/share.tsx:141 | only the chosen vehicle changes |
| Share.SharePage.StartWatching | frontend/src/pages/share.tsx:70-107 | nothing without a user and a vehicle; "unsupported" without geolocation; else the counter resets and the watch starts or its failure is shown |
| Share.SharePage.StopWatching | frontend/src/pages/share.tsx:61-68 | the current watch, if any, is cleared; no watch remains |
| Share.SharePage.OnPosition | frontend/src/pages/share.tsx:80-95 | a callback within two seconds of the last accepted one is dropped; otherwise one fix is sent, and the counter moves only when the send succeeds |
| AppGuard.Enforce | frontend/src/pages/_app.tsx:14-27 | to the login page exactly off it without a token; to the vehicles page exactly on it with a token; otherwise allowed |
| AppGuard.RedirectSettles | frontend/src/pages/_app.tsx:18-25 | the page a redirect goes to is always allowed |
| AppGuard.Reached | frontend/src/pages/_app.tsx:28-31 | every page reached is allowed, and is the path itself or its redirect |
| AppGuard.TokenDecidesLogin | frontend/src/pages/_app.tsx:28-31 | a reached page is under the login path exactly when there is no token |

## Left out

- The database schema and its referential actions are not part of this model. Deleting a registration is modelled as succeeding, and its sponsor dates are kept.
- Concurrency between requests is not modelled. Each service call runs alone on the store.
- Request dates are pairs: the text and the instant that `new Date` gives for it. Date parsing and ISO 8601 checking are not modelled.
- Slug.Nfd: Unicode NFD is modelled for the Latin-1 letters only. Other code points pass through unchanged.
- `toLowerCase` is modelled for ASCII letters only.
- Backend.ListedBelow: the `createdAt` order is modelled as id order, which is the insertion order.
- The validation pipe's error messages are one message; the per-field class-validator texts are left out.
- Strings are sequences of characters; UTF-16 surrogate pairs are not modelled.
- Socket broadcasting is a log of events, and HTTP polling is not modelled.
- Positions.LastByVehicle: which fix of a timestamp tie the database returns is not specified by the source. The model states only that the fix has the latest timestamp.
- GeoJSON altitude, bounding boxes and foreign members are not modelled. Unknown geometry types are one `OtherGeometry` case.
- RouteLength.EstimatedMinutes: the contract states only the one-minute floor; the rounding of `km / 50 * 60` is in the body.
- RouteLength.TimeLabel: only a Feature's `properties` are read; `properties` on a collection or a bare geometry is a foreign member and is not modelled.
- The haversine distance is a parameter `dist` with non-negative values. Its formula and floating-point error are left out.
- RoutePath.NearestVertex: `Math.hypot` is replaced by the squared distance, which orders points the same way.
- Timers are handles from a counter; `setInterval` and `clearInterval` themselves are not modelled.
- Random jitter in the simulation is passed in as parameters.
- RoutePath.WithEditedPath: requires a collection to have at least one feature. The vertex tool reaches it only with a non-empty path, which needs a traced feature.
- `getKmFromGeojson` and `getTimeLabelFromGeojson` throw on the stored text "null". The model returns none there.
- HomeDates.SpectatorDates: the source sorts the list. The model proves the generated list is already ascending, so the sort is the identity and is not modelled as an algorithm.
- HomeDates.SpectatorSees: option values and labels are formatted strings in the source. The model keeps the date fields instead.
- `toISOString` is a parameter of the form submissions.
- HomeForms.PilotFormPassesChecks: the route id and the ISO date are assumed to contain a non-space character.
- HomeForms.SpectatorFormPassesChecks: the route id is assumed to contain no white space.
- HomeForms.SponsorFormPassesChecks: the route id is assumed to contain no white space.
- HomeForms.PilotFormFitsDto: the corrected forms are shown to meet the DTO's length bounds and the controller's checks, not every decorator of the DTO. The `@IsEmail` and `@IsISO8601` formats are parameters and are not related to the page's pattern.
- RouteLength.TimeLabel: GeoJSON property numbers are whole numbers (`GeoJson.Prop`). A fractional `durationMinutes`, `durationSeconds` or `timeMin`, such as 12.5 shown as "12.5m", is not represented, and `Math.round` of seconds is taken on whole seconds only.
- Backend.Consistent: a registration's route id is not required to name a stored route. An unknown route id in a create or an update succeeds in the model. In the source the foreign key fails and the controller answers "Invalid registration payload" (create) or an unhandled error (update).
- RegistrationsController.ReadPatch: the route id and the date are read through the parameters `routeOf` and `dateOf`. These stand for Prisma's use of the value and for `new Date(body.when)`; an invalid date and a non-string truthy route id are not modelled.
- The SVG thumbnail projection and the default spectator date are not modelled.
- SponsorsPage.SaveEdit: a failing request stops the remaining calls in the source. The plan assumes every call succeeds.
- SponsorsPage.SaveEdit: the registration patch is recorded as a local value and not sent to the modelled backend.
- Share page: login, `loadVehicles` and the geolocation error callback's messages are not modelled.
- Share.SharePage.OnPosition: the status line's `toFixed(5)` text is kept as the two numbers.
- Share.SharePage.OnPosition: the callback's closure keeps the `vehicleId` of the render that started the watch. The model sends the current one.
- `_app.tsx`: `getCurrentRole` and the `ready` flag are not modelled.

## Findings

| source | as written | input that shows it | evidently intended | confidence | as-written member | corrected member |
|---|---|---|---|---|---|---|
| frontend/src/components/TrackingMapInner.tsx:617-631 | merging POIs into a bare geometry puts the geometry object itself into `features` | a route stored as a bare LineString with two points, and one POI | the geometry is wrapped in a Feature, so the route keeps its path | high, not executed | RouteEdit.BareRouteLosesPath | RouteEdit.MergeKeepsRoutePath |
| frontend/src/pages/index.tsx:225-226 | the stored text "null" passes `!g`, parses to null, and `g.type` throws | a route whose geojson column holds the text "null" | an empty path, as for a missing shape | high, not executed | GeoJson.NullTextThrows | GeoJson.ExtractIsRoutePath |
| frontend/src/pages/index.tsx:353-356 | the pilot form checks only that name, phone and license are not blank; the DTO needs 2-120, 5-30 and 3-50 characters | a pilot form with name "A", phone "12345", license "abc" | the page checks the DTO's lengths, so an accepted form is not refused with a Bad Request | medium, not executed | HomeForms.PilotPageAcceptsShortName | HomeForms.PilotFormFitsDto |
| frontend/src/pages/index.tsx:417-421 | the spectator form checks only that name and phone are not blank; the DTO needs 2-120 and 5-30 characters | a spectator form with name "A" and phone "12345" | the page checks the DTO's lengths | medium, not executed | HomeForms.SpectatorPageAcceptsShortName | HomeForms.SpectatorFormFitsDto |
| frontend/src/pages/index.tsx:494-500 | the sponsor form checks only that the contact name and phone are not blank; the DTO needs 2-120 and 5-30 characters | a sponsor form with contact name "A" and phone "12345" | the page checks the DTO's lengths | medium, not executed | HomeForms.SponsorPageAcceptsShortName | HomeForms.SponsorFormFitsDto |
