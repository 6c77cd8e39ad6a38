/** The position service: recording a fix and relaying it to viewers, and
    the two last-position queries. The table of fixes is a sequence in
    insertion order; the relay is a ghost log of the events the service
    causes, so the order of "stored" and "broadcast" can be stated. */
module Positions {
  import opened Wrappers

  /** Milliseconds since the epoch. */
  type Time = int

  /** One stored fix. */
  datatype Fix = Fix(id: nat, vehicleId: string, lat: real, lng: real, speed: Option<real>, timestamp: Time)

  /** The body of `POST /positions`: `timestamp` is optional. */
  datatype FixInput = FixInput(vehicleId: string, lat: real, lng: real, speed: Option<real>, timestamp: Option<Time>)

  /** The payload of the `position` broadcast. */
  datatype Update = Update(vehicleId: string, lat: real, lng: real, ts: Time)

  datatype Event = Stored(fix: Fix) | Broadcast(update: Update)

  /** The broadcast of a stored row carries its vehicle, coordinates and
      timestamp. */
  function UpdateOf(f: Fix): Update
  {
    Update(f.vehicleId, f.lat, f.lng, f.timestamp)
  }

  /** The fixes the log records as stored, in order. */
  function StoredFixes(log: seq<Event>): (fs: seq<Fix>)
    ensures |fs| <= |log|
    ensures forall f :: f in fs ==> Stored(f) in log
    ensures forall i :: 0 <= i < |log| && log[i].Stored? ==> log[i].fix in fs
  {
    if log == [] then []
    else if log[|log| - 1].Stored? then StoredFixes(log[..|log| - 1]) + [log[|log| - 1].fix]
    else StoredFixes(log[..|log| - 1])
  }

  /** Every broadcast comes right after the storing of the fix it carries,
      and every stored fix is broadcast right after it is stored. */
  ghost predicate RelayFollowsStore(log: seq<Event>)
  {
    && (forall i :: 0 <= i < |log| && log[i].Broadcast? ==>
          0 < i && log[i - 1].Stored? && log[i].update == UpdateOf(log[i - 1].fix))
    && (forall i :: 0 <= i < |log| && log[i].Stored? ==>
          i + 1 < |log| && log[i + 1] == Broadcast(UpdateOf(log[i].fix)))
  }

  /** Appending a store followed by its broadcast keeps the relay in step. */
  lemma {:induction false} StoreThenBroadcast(log: seq<Event>, f: Fix)
    requires RelayFollowsStore(log)
    ensures RelayFollowsStore(log + [Stored(f), Broadcast(UpdateOf(f))])
    ensures StoredFixes(log + [Stored(f), Broadcast(UpdateOf(f))]) == StoredFixes(log) + [f]
  {
    var mid := log + [Stored(f)];
    var after := mid + [Broadcast(UpdateOf(f))];
    assert after[..|after| - 1] == mid;
    assert mid[..|mid| - 1] == log;
    assert after == log + [Stored(f), Broadcast(UpdateOf(f))];
    assert StoredFixes(after) == StoredFixes(mid) == StoredFixes(log) + [f];
    forall i | 0 <= i < |after| && after[i].Stored?
      ensures i + 1 < |after| && after[i + 1] == Broadcast(UpdateOf(after[i].fix))
    {
      if i < |log| {
        assert after[i] == log[i];
      }
    }
    forall i | 0 <= i < |after| && after[i].Broadcast?
      ensures 0 < i && after[i - 1].Stored? && after[i].update == UpdateOf(after[i - 1].fix)
    {
      if i < |log| {
        assert after[i] == log[i] && after[i - 1] == log[i - 1];
      }
    }
  }

  class PositionStore {
    var fixes: seq<Fix>
    var nextId: nat
    ghost var log: seq<Event>

    ghost predicate Valid()
      reads this
    {
      && StoredFixes(log) == fixes
      && RelayFollowsStore(log)
      && forall i :: 0 <= i < |fixes| ==> fixes[i].id < nextId
    }

    constructor ()
      ensures Valid() && fixes == [] && log == []
    {
      fixes := [];
      nextId := 0;
      log := [];
    }

    /** `create`: stores one fix, its timestamp the one given or else the
        store's clock `now`; then broadcasts the stored row; then returns it. */
    method Create(input: FixInput, now: Time) returns (f: Fix)
      requires Valid()
      modifies this
      ensures Valid()
      ensures f == Fix(old(nextId), input.vehicleId, input.lat, input.lng, input.speed,
                       if input.timestamp.Some? then input.timestamp.value else now)
      ensures fixes == old(fixes) + [f] && nextId == old(nextId) + 1
      ensures log == old(log) + [Stored(f), Broadcast(UpdateOf(f))]
    {
      var ts := if input.timestamp.Some? then input.timestamp.value else now;
      f := Fix(nextId, input.vehicleId, input.lat, input.lng, input.speed, ts);
      StoreThenBroadcast(log, f);
      fixes := fixes + [f];
      nextId := nextId + 1;
      log := log + [Stored(f), Broadcast(UpdateOf(f))];
    }
  }

  // ------------------------------------------------------------- queries

  predicate HasFixOf(fs: seq<Fix>, v: string)
  {
    exists i :: 0 <= i < |fs| && fs[i].vehicleId == v
  }

  /** `lastByVehicle`: a fix of `v` with the greatest timestamp, or null
      when there is none. Among fixes that tie, the source leaves the choice
      to the database; this one takes the earliest stored. */
  function LastByVehicle(fs: seq<Fix>, v: string): (r: Option<Fix>)
    ensures r.None? <==> !HasFixOf(fs, v)
    ensures r.Some? ==> r.value in fs && r.value.vehicleId == v
    ensures r.Some? ==> forall i :: 0 <= i < |fs| && fs[i].vehicleId == v ==> fs[i].timestamp <= r.value.timestamp
  {
    if fs == [] then None
    else
      var earlier := fs[..|fs| - 1];
      var last := fs[|fs| - 1];
      var best := LastByVehicle(earlier, v);
      assert forall i :: 0 <= i < |earlier| ==> earlier[i] == fs[i];
      if last.vehicleId != v then best
      else if best.Some? && best.value.timestamp >= last.timestamp then best
      else Some(last)
  }

  /** The `_max.timestamp` of the group of `v`: None when `v` has no fix. */
  function MaxTimestamp(fs: seq<Fix>, v: string): (m: Option<Time>)
    ensures m.None? <==> !HasFixOf(fs, v)
    ensures m.Some? ==> exists i :: 0 <= i < |fs| && fs[i].vehicleId == v && fs[i].timestamp == m.value
    ensures m.Some? ==> forall i :: 0 <= i < |fs| && fs[i].vehicleId == v ==> fs[i].timestamp <= m.value
  {
    if fs == [] then None
    else
      var earlier := fs[..|fs| - 1];
      var last := fs[|fs| - 1];
      var m := MaxTimestamp(earlier, v);
      assert forall i :: 0 <= i < |earlier| ==> earlier[i] == fs[i];
      if last.vehicleId != v then m
      else if m.Some? && m.value >= last.timestamp then m
      else Some(last.timestamp)
  }

  function Vehicles(fs: seq<Fix>): set<string>
  {
    set i | 0 <= i < |fs| :: fs[i].vehicleId
  }

  /** First phase of `lastAll`: `groupBy vehicleId` with the greatest
      timestamp of each group. */
  function Groups(fs: seq<Fix>): (gs: map<string, Option<Time>>)
    ensures gs.Keys == Vehicles(fs)
    ensures forall v :: v in gs ==> gs[v].Some?
  {
    map v | v in Vehicles(fs) :: MaxTimestamp(fs, v)
  }

  /** The `OR` filter: the groups whose maximum is not null, as pairs. */
  function WhereOr(gs: map<string, Option<Time>>): set<(string, Time)>
  {
    set v | v in gs && gs[v].Some? :: (v, gs[v].value)
  }

  /** `findMany` with the filter: the stored fixes matching one of the
      pairs, in storage order. */
  function Select(fs: seq<Fix>, keys: set<(string, Time)>): (rows: seq<Fix>)
    ensures forall f :: f in rows <==> f in fs && (f.vehicleId, f.timestamp) in keys
    ensures |rows| <= |fs|
  {
    if fs == [] then []
    else
      var rest := Select(fs[1..], keys);
      if (fs[0].vehicleId, fs[0].timestamp) in keys then [fs[0]] + rest else rest
  }

  /** `lastAll`: nothing on an empty store, otherwise every fix whose
      timestamp is its vehicle's greatest. */
  function LastAll(fs: seq<Fix>): (rows: seq<Fix>)
    ensures fs == [] ==> rows == []
  {
    var gs := Groups(fs);
    if |gs| == 0 then [] else Select(fs, WhereOr(gs))
  }

  /** A fix is in `lastAll` exactly when it is stored and no fix of its
      vehicle is later. */
  lemma LastAllIsLatestPerVehicle(fs: seq<Fix>, f: Fix)
    ensures f in LastAll(fs) <==>
      f in fs && forall i :: 0 <= i < |fs| && fs[i].vehicleId == f.vehicleId ==> fs[i].timestamp <= f.timestamp
  {
    var gs := Groups(fs);
    if f in fs {
      var k :| 0 <= k < |fs| && fs[k] == f;
      assert f.vehicleId in Vehicles(fs);
      assert |gs| > 0 by { assert f.vehicleId in gs.Keys; }
      var m := MaxTimestamp(fs, f.vehicleId);
      assert gs[f.vehicleId] == m;
      if forall i :: 0 <= i < |fs| && fs[i].vehicleId == f.vehicleId ==> fs[i].timestamp <= f.timestamp {
        assert fs[k].timestamp <= m.value;
        var j :| 0 <= j < |fs| && fs[j].vehicleId == f.vehicleId && fs[j].timestamp == m.value;
        assert m.value == f.timestamp;
        assert (f.vehicleId, f.timestamp) in WhereOr(gs);
      } else {
        assert m.value != f.timestamp;
        assert forall v :: v in gs ==> (v, gs[v].value) != (f.vehicleId, f.timestamp);
      }
    }
  }

  /** Every vehicle with a fix has a row in `lastAll`. */
  lemma LastAllCoversVehicles(fs: seq<Fix>, v: string)
    requires HasFixOf(fs, v)
    ensures exists r :: r in LastAll(fs) && r.vehicleId == v
  {
    var best := LastByVehicle(fs, v);
    LastAllIsLatestPerVehicle(fs, best.value);
  }

  /** The fix `lastByVehicle` picks is one of the rows of `lastAll`. */
  lemma LastByVehicleInLastAll(fs: seq<Fix>, v: string)
    requires LastByVehicle(fs, v).Some?
    ensures LastByVehicle(fs, v).value in LastAll(fs)
  {
    LastAllIsLatestPerVehicle(fs, LastByVehicle(fs, v).value);
  }

  /** Two fixes of one vehicle with the same, greatest timestamp are both
      returned: `lastAll` can hold several rows for a vehicle. */
  lemma LastAllKeepsTies(a: Fix, b: Fix)
    requires a != b && a.vehicleId == b.vehicleId && a.timestamp == b.timestamp
    ensures LastAll([a, b]) == [a, b]
  {
    var fs := [a, b];
    LastAllIsLatestPerVehicle(fs, a);
    LastAllIsLatestPerVehicle(fs, b);
    var gs := Groups(fs);
    assert a.vehicleId in Vehicles(fs);
    assert |gs| > 0 by { assert a.vehicleId in gs.Keys; }
    var keys := WhereOr(gs);
    assert (a.vehicleId, a.timestamp) in keys;
    assert Select(fs, keys) == [a] + Select([b], keys);
    assert Select([b], keys) == [b] + Select([], keys);
  }
}
