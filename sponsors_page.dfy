/** The sponsors page: the edit dialog's list of points of interest, what
    saving it sends to the API (one update of the registration, the deletes,
    then the updates), the details toggles and the pending-request filter. */
module SponsorsPage {
  import opened Wrappers
  import opened Text

  /** A point of interest as the page holds it (`caption` is its label); an empty caption, category or
      note stands for a null or missing one. Points added in the dialog get
      an id starting with 'tmp-'. */
  datatype Poi = Poi(id: string, lat: real, lng: real, caption: string, category: string, note: string)

  datatype Kind = Pilot | Spectator | Sponsor

  /** A registration as the page lists it; empty texts stand for null. */
  datatype Registration = Registration(
    id: string, kind: Kind, name: string, email: string, phone: string,
    companyName: string, website: string, services: string, message: string, locations: seq<Poi>)

  /** `x || null`: a falsy text is sent as null. */
  function OrNull(x: string): (r: Option<string>)
    ensures r.None? <==> x == []
  {
    if x == [] then None else Some(x)
  }

  /** The fields `saveEdit` sends to `registrationsUpdate`. */
  datatype RegistrationPatch = RegistrationPatch(
    companyName: Option<string>, website: Option<string>, services: Option<string>,
    message: Option<string>, email: string, phone: string, name: string)

  /** `{ category: p.category || undefined, note: ..., label: ... }`. */
  datatype PoiPatch = PoiPatch(category: Option<string>, note: Option<string>, caption: Option<string>)

  /** The API requests of a save, in the order they are made. */
  datatype Call =
    | UpdateRegistration(regId: string, patch: RegistrationPatch)
    | DeletePoi(regId: string, poiId: string)
    | UpdatePoi(regId: string, poiId: string, poiPatch: PoiPatch)

  function PatchOf(r: Registration): RegistrationPatch
  {
    RegistrationPatch(OrNull(r.companyName), OrNull(r.website), OrNull(r.services), OrNull(r.message),
      r.email, r.phone, r.name)
  }

  function PoiPatchOf(p: Poi): PoiPatch
  {
    PoiPatch(OrNull(p.category), OrNull(p.note), OrNull(p.caption))
  }

  /** Some entry of `pois` carries the id. */
  predicate HasId(pois: seq<Poi>, id: string)
  {
    exists k :: 0 <= k < |pois| && pois[k].id == id
  }

  /** `p.id && !String(p.id).startsWith('tmp-')`: the point exists on the
      server. */
  predicate Stored(id: string)
  {
    id != [] && !StartsWith(id, "tmp-")
  }

  // ---------------------------------------------------------- the save plan

  /** `toDelete`: the original points whose id no edited entry carries,
      in their original order. */
  function ToDelete(original: seq<Poi>, edits: seq<Poi>): (ds: seq<Poi>)
    ensures forall o :: o in ds <==> o in original && !HasId(edits, o.id)
    ensures |ds| <= |original|
  {
    if original == [] then []
    else
      var o := original[|original| - 1];
      assert forall x :: x in original <==> x in original[..|original| - 1] || x == o;
      ToDelete(original[..|original| - 1], edits) + (if HasId(edits, o.id) then [] else [o])
  }

  /** One delete request per point, in order. */
  function DeleteCalls(regId: string, ds: seq<Poi>): (cs: seq<Call>)
    ensures |cs| == |ds|
    ensures forall i :: 0 <= i < |ds| ==> cs[i] == DeletePoi(regId, ds[i].id)
  {
    if ds == [] then [] else DeleteCalls(regId, ds[..|ds| - 1]) + [DeletePoi(regId, ds[|ds| - 1].id)]
  }

  /** One update request per edited point that exists on the server, in
      order. */
  function UpdateCalls(regId: string, edits: seq<Poi>): (cs: seq<Call>)
    ensures forall i :: 0 <= i < |cs| ==> cs[i].UpdatePoi? && cs[i].regId == regId && Stored(cs[i].poiId)
    ensures |cs| <= |edits|
  {
    if edits == [] then []
    else
      var p := edits[|edits| - 1];
      UpdateCalls(regId, edits[..|edits| - 1])
      + (if Stored(p.id) then [UpdatePoi(regId, p.id, PoiPatchOf(p))] else [])
  }

  /** Everything a save requests when every request succeeds. */
  function SavePlan(r: Registration, edits: seq<Poi>): seq<Call>
  {
    [UpdateRegistration(r.id, PatchOf(r))] + DeleteCalls(r.id, ToDelete(r.locations, edits)) + UpdateCalls(r.id, edits)
  }

  /** `saveEdit`: the registration's own fields first, then a delete for
      every point removed in the dialog, then an update for every remaining
      point the server knows. */
  method SaveEdit(r: Registration, edits: seq<Poi>) returns (calls: seq<Call>)
    ensures calls == SavePlan(r, edits)
  {
    var toDelete := ToDelete(r.locations, edits);
    var deletes := SendDeletes(r.id, toDelete);
    var updates := SendUpdates(r.id, edits);
    calls := [UpdateRegistration(r.id, PatchOf(r))] + deletes + updates;
  }

  /** The first loop of `saveEdit`: one delete request per point, in order. */
  method SendDeletes(regId: string, toDelete: seq<Poi>) returns (calls: seq<Call>)
    ensures calls == DeleteCalls(regId, toDelete)
  {
    calls := [];
    for i := 0 to |toDelete|
      invariant calls == DeleteCalls(regId, toDelete[..i])
    {
      assert toDelete[..i + 1][..i] == toDelete[..i];
      calls := calls + [DeletePoi(regId, toDelete[i].id)];
    }
    assert toDelete[..|toDelete|] == toDelete;
  }

  /** The second loop of `saveEdit`: an update request for each entry whose
      id is set and does not start with 'tmp-'. */
  method SendUpdates(regId: string, edits: seq<Poi>) returns (calls: seq<Call>)
    ensures calls == UpdateCalls(regId, edits)
  {
    calls := [];
    for i := 0 to |edits|
      invariant calls == UpdateCalls(regId, edits[..i])
    {
      var p := edits[i];
      assert edits[..i + 1][..i] == edits[..i] && edits[..i + 1][i] == p;
      if p.id != [] && !StartsWith(p.id, "tmp-") {
        calls := calls + [UpdatePoi(regId, p.id, PoiPatchOf(p))];
      }
    }
    assert edits[..|edits|] == edits;
  }

  // ------------------------------------------------------ what a save does

  /** A delete request names a point of the registration that no entry of
      the dialog carries any more. */
  lemma DeletedWasRemoved(r: Registration, edits: seq<Poi>, c: Call)
    requires c in SavePlan(r, edits) && c.DeletePoi?
    ensures HasId(r.locations, c.poiId) && !HasId(edits, c.poiId)
  {
    var ds := ToDelete(r.locations, edits);
    var plan := SavePlan(r, edits);
    var dcs := DeleteCalls(r.id, ds);
    var ucs := UpdateCalls(r.id, edits);
    var k :| 0 <= k < |plan| && plan[k] == c;
    PlanAt(r, edits, k);
    if 1 <= k <= |dcs| {
      assert ds[k - 1] in ds;
      var j :| 0 <= j < |r.locations| && r.locations[j] == ds[k - 1];
      assert r.locations[j].id == c.poiId;
    } else {
      assert false;
    }
  }

  /** The request at position `k` of a save: the registration update
      first, then the deletes, then only updates. */
  lemma PlanAt(r: Registration, edits: seq<Poi>, k: nat)
    requires k < |SavePlan(r, edits)|
    ensures var dcs := DeleteCalls(r.id, ToDelete(r.locations, edits));
      && (k == 0 ==> SavePlan(r, edits)[k].UpdateRegistration?)
      && (1 <= k <= |dcs| ==> SavePlan(r, edits)[k] == dcs[k - 1])
      && (k > |dcs| ==> SavePlan(r, edits)[k].UpdatePoi?)
  {
    var dcs := DeleteCalls(r.id, ToDelete(r.locations, edits));
    var ucs := UpdateCalls(r.id, edits);
    assert SavePlan(r, edits) == [UpdateRegistration(r.id, PatchOf(r))] + dcs + ucs;
    if k > |dcs| {
      assert SavePlan(r, edits)[k] == ucs[k - 1 - |dcs|];
    }
  }

  /** A point of the registration that no entry of the dialog carries any
      more gets a delete request. */
  lemma RemovedIsDeleted(r: Registration, edits: seq<Poi>, id: string)
    requires HasId(r.locations, id) && !HasId(edits, id)
    ensures DeletePoi(r.id, id) in SavePlan(r, edits)
  {
    var ds := ToDelete(r.locations, edits);
    var plan := SavePlan(r, edits);
    var dcs := DeleteCalls(r.id, ds);
    var j :| 0 <= j < |r.locations| && r.locations[j].id == id;
    assert r.locations[j] in ds;
    var k :| 0 <= k < |ds| && ds[k] == r.locations[j];
    PlanAt(r, edits, k + 1);
    assert plan[k + 1] == DeletePoi(r.id, id);
  }

  /** A point is deleted exactly when the registration has it and no entry
      of the dialog carries its id any more. */
  lemma DeletesAreRemovedOriginals(r: Registration, edits: seq<Poi>, id: string)
    ensures (exists c :: c in SavePlan(r, edits) && c.DeletePoi? && c.poiId == id) <==>
      (HasId(r.locations, id) && !HasId(edits, id))
  {
    if exists c :: c in SavePlan(r, edits) && c.DeletePoi? && c.poiId == id {
      var c :| c in SavePlan(r, edits) && c.DeletePoi? && c.poiId == id;
      DeletedWasRemoved(r, edits, c);
    }
    if HasId(r.locations, id) && !HasId(edits, id) {
      RemovedIsDeleted(r, edits, id);
    }
  }

  /** Every delete comes before every point update. */
  lemma DeletesBeforeUpdates(r: Registration, edits: seq<Poi>, i: nat, j: nat)
    requires i < j < |SavePlan(r, edits)|
    ensures SavePlan(r, edits)[j].DeletePoi? ==> !SavePlan(r, edits)[i].UpdatePoi?
  {
    var dcs := DeleteCalls(r.id, ToDelete(r.locations, edits));
    var ucs := UpdateCalls(r.id, edits);
    var plan := SavePlan(r, edits);
    if j > |dcs| {
      assert plan[j] == ucs[j - 1 - |dcs|];
    } else if i > 0 {
      assert plan[i] == dcs[i - 1];
    }
  }

  /** The number of entries with the id. */
  function CountId(pois: seq<Poi>, id: string): nat
  {
    if pois == [] then 0 else CountId(pois[..|pois| - 1], id) + (if pois[|pois| - 1].id == id then 1 else 0)
  }

  /** The number of point updates for the id. */
  function CountUpdates(cs: seq<Call>, id: string): nat
  {
    if cs == [] then 0
    else CountUpdates(cs[..|cs| - 1], id) + (if cs[|cs| - 1].UpdatePoi? && cs[|cs| - 1].poiId == id then 1 else 0)
  }

  lemma {:induction false} CountUpdatesAppend(a: seq<Call>, b: seq<Call>, id: string)
    ensures CountUpdates(a + b, id) == CountUpdates(a, id) + CountUpdates(b, id)
  {
    if b != [] {
      assert (a + b)[..|a + b| - 1] == a + b[..|b| - 1];
      CountUpdatesAppend(a, b[..|b| - 1], id);
    } else {
      assert a + b == a;
    }
  }

  lemma {:induction false} NoUpdatesAmongDeletes(regId: string, ds: seq<Poi>, id: string)
    ensures CountUpdates(DeleteCalls(regId, ds), id) == 0
  {
    if ds != [] {
      NoUpdatesAmongDeletes(regId, ds[..|ds| - 1], id);
      assert DeleteCalls(regId, ds)[..|ds| - 1] == DeleteCalls(regId, ds[..|ds| - 1]);
    }
  }

  lemma {:induction false} UpdatesPerEntry(regId: string, edits: seq<Poi>, id: string)
    ensures CountUpdates(UpdateCalls(regId, edits), id) == if Stored(id) then CountId(edits, id) else 0
  {
    if edits != [] {
      var init := edits[..|edits| - 1];
      var p := edits[|edits| - 1];
      UpdatesPerEntry(regId, init, id);
      CountUpdatesAppend(UpdateCalls(regId, init),
        if Stored(p.id) then [UpdatePoi(regId, p.id, PoiPatchOf(p))] else [], id);
      if Stored(p.id) {
        assert CountUpdates([UpdatePoi(regId, p.id, PoiPatchOf(p))], id) == CountUpdates([], id) + (if p.id == id then 1 else 0);
      }
    }
  }

  /** A save updates a point the server knows once per dialog entry with
      its id (so exactly once, ids being distinct), and never a point whose
      id is empty or starts with 'tmp-'. */
  lemma OneUpdatePerEntry(r: Registration, edits: seq<Poi>, id: string)
    ensures CountUpdates(SavePlan(r, edits), id) == if Stored(id) then CountId(edits, id) else 0
  {
    var dcs := DeleteCalls(r.id, ToDelete(r.locations, edits));
    var ucs := UpdateCalls(r.id, edits);
    CountUpdatesAppend([UpdateRegistration(r.id, PatchOf(r))] + dcs, ucs, id);
    CountUpdatesAppend([UpdateRegistration(r.id, PatchOf(r))], dcs, id);
    assert CountUpdates([UpdateRegistration(r.id, PatchOf(r))], id) == CountUpdates([], id);
    NoUpdatesAmongDeletes(r.id, ToDelete(r.locations, edits), id);
    UpdatesPerEntry(r.id, edits, id);
  }

  // ------------------------------------------------------ the dialog's list

  /** 'Añadir POI': a new point at (0, 0) with id `tmp-<now>` and empty
      category and note. */
  function AddPoi(edits: seq<Poi>, now: nat): (r: seq<Poi>)
    ensures |r| == |edits| + 1 && r[..|edits|] == edits
    ensures StartsWith(r[|edits|].id, "tmp-")
  {
    var added := Poi("tmp-" + NatToString(now), 0.0, 0.0, "", "", "");
    assert StartsWith(added.id, "tmp-") by {
      assert added.id[..4] == "tmp-";
    }
    edits + [added]
  }

  /** A point added in the dialog never reaches the server: no request of
      the save names its id, as long as the registration's own points have
      server ids. */
  lemma AddedPoiNeverSent(r: Registration, edits: seq<Poi>, now: nat)
    requires forall k :: 0 <= k < |r.locations| ==> Stored(r.locations[k].id)
    ensures var id := AddPoi(edits, now)[|edits|].id;
      forall c :: c in SavePlan(r, AddPoi(edits, now)) && !c.UpdateRegistration? ==> c.poiId != id
  {
    var all := AddPoi(edits, now);
    var id := all[|edits|].id;
    forall c | c in SavePlan(r, all) && !c.UpdateRegistration?
      ensures c.poiId != id
    {
      if c.DeletePoi? {
        DeletedWasRemoved(r, all, c);
      } else {
        UpdateIsStored(r, all, c);
      }
    }
  }

  /** A point update names an id the server knows. */
  lemma UpdateIsStored(r: Registration, edits: seq<Poi>, c: Call)
    requires c in SavePlan(r, edits) && c.UpdatePoi?
    ensures Stored(c.poiId)
  {
    var plan := SavePlan(r, edits);
    var dcs := DeleteCalls(r.id, ToDelete(r.locations, edits));
    var ucs := UpdateCalls(r.id, edits);
    var k :| 0 <= k < |plan| && plan[k] == c;
    if k == 0 {
      assert false;
    } else if k <= |dcs| {
      assert false;
    } else {
      assert plan[k] == ucs[k - 1 - |dcs|];
    }
  }

  /** 'Eliminar': every entry with the id leaves the list; the others stay,
      in order. */
  function RemovePoi(edits: seq<Poi>, id: string): (r: seq<Poi>)
    ensures forall p :: p in r <==> p in edits && p.id != id
    ensures !HasId(r, id)
    ensures |r| <= |edits|
  {
    if edits == [] then []
    else
      var p := edits[|edits| - 1];
      var rest := RemovePoi(edits[..|edits| - 1], id);
      assert forall x :: x in edits <==> x in edits[..|edits| - 1] || x == p;
      if p.id != id then rest + [p] else rest
  }

  /** Editing the category of the entry with the id. */
  function SetCategory(edits: seq<Poi>, id: string, category: string): (r: seq<Poi>)
    ensures |r| == |edits|
    ensures forall k :: 0 <= k < |edits| ==>
      r[k] == if edits[k].id == id then edits[k].(category := category) else edits[k]
  {
    if edits == [] then []
    else
      var p := edits[|edits| - 1];
      SetCategory(edits[..|edits| - 1], id, category) + [if p.id == id then p.(category := category) else p]
  }

  /** Editing the note of the entry with the id. */
  function SetNote(edits: seq<Poi>, id: string, note: string): (r: seq<Poi>)
    ensures |r| == |edits|
    ensures forall k :: 0 <= k < |edits| ==>
      r[k] == if edits[k].id == id then edits[k].(note := note) else edits[k]
  {
    if edits == [] then []
    else
      var p := edits[|edits| - 1];
      SetNote(edits[..|edits| - 1], id, note) + [if p.id == id then p.(note := note) else p]
  }

  /** Removing a point in the dialog makes the next save delete it when the
      server has it, and send no update for it. */
  lemma RemovedPoiIsDeleted(r: Registration, edits: seq<Poi>, id: string)
    requires HasId(r.locations, id)
    ensures (exists c :: c in SavePlan(r, RemovePoi(edits, id)) && c.DeletePoi? && c.poiId == id)
    ensures CountUpdates(SavePlan(r, RemovePoi(edits, id)), id) == 0
  {
    DeletesAreRemovedOriginals(r, RemovePoi(edits, id), id);
    OneUpdatePerEntry(r, RemovePoi(edits, id), id);
    NoEntryNoCount(RemovePoi(edits, id), id);
  }

  lemma {:induction false} NoEntryNoCount(pois: seq<Poi>, id: string)
    requires !HasId(pois, id)
    ensures CountId(pois, id) == 0
  {
    if pois != [] {
      NoEntryNoCount(pois[..|pois| - 1], id);
    }
  }

  // ---------------------------------------------------- details and lists

  /** Whether an entry's details are open: a missing entry reads as closed. */
  predicate IsOpen(open: map<string, bool>, id: string)
  {
    id in open && open[id]
  }

  /** `toggleDetails`: the entry of the id flips; every other entry keeps
      its value. */
  function ToggleDetails(open: map<string, bool>, id: string): (r: map<string, bool>)
    ensures r.Keys == open.Keys + {id}
    ensures IsOpen(r, id) <==> !IsOpen(open, id)
    ensures forall k :: k in open && k != id ==> r[k] == open[k]
  {
    open[id := !IsOpen(open, id)]
  }

  /** Two toggles leave the entry as open or closed as it was. */
  lemma ToggleTwice(open: map<string, bool>, id: string, other: string)
    ensures IsOpen(ToggleDetails(ToggleDetails(open, id), id), other) <==> IsOpen(open, other)
  {
  }

  /** The pending tab: only the SPONSOR requests, in order; no answer reads
      as an empty list. */
  function PendingSponsors(pending: Option<seq<Registration>>): (r: seq<Registration>)
    ensures pending.None? ==> r == []
    ensures pending.Some? ==> forall x :: x in r <==> x in pending.value && x.kind == Sponsor
  {
    if pending.None? then [] else OnlySponsors(pending.value)
  }

  function OnlySponsors(rs: seq<Registration>): (r: seq<Registration>)
    ensures forall x :: x in r <==> x in rs && x.kind == Sponsor
    ensures |r| <= |rs|
  {
    if rs == [] then []
    else
      var x := rs[|rs| - 1];
      assert forall y :: y in rs <==> y in rs[..|rs| - 1] || y == x;
      OnlySponsors(rs[..|rs| - 1]) + (if x.kind == Sponsor then [x] else [])
  }
}
