/** The tracking map's playback simulation: a timer per simulated vehicle,
    and per vehicle a cursor `{idx, sub}` that walks the selected route's
    path in tenths of a segment, or a random walk around the last point
    when the route has fewer than two vertices. Timers are opaque handles;
    a tick of a timer is an explicit call of `Step`; the random draws are
    parameters within the ranges `Math.random` gives. */
module Simulation {
  import opened Wrappers
  import GeoJson
  import RoutePath

  type VehicleId = string
  type LatLng = GeoJson.LatLng

  /** A handle returned by `setInterval`. */
  type Timer = nat

  /** A vehicle's cursor: segment `idx`, tenth `sub`, and the last point of
      its random walk. */
  datatype SimState = SimState(idx: int, sub: int, pos: Option<LatLng>)

  /** The point a fraction `t` of the way from `a` to `b`. */
  function Lerp(a: LatLng, b: LatLng, t: real): LatLng
  {
    GeoJson.LatLng(a.lat + (b.lat - a.lat) * t, a.lng + (b.lng - a.lng) * t)
  }

  /** A cursor the step keeps: a segment index that is not negative and a
      tenth between 0 and 10. */
  predicate InRange(st: SimState)
  {
    st.idx >= 0 && 0 <= st.sub <= 10
  }

  /** The segment a step emits from: a cursor past the last segment starts
      over at the first. */
  function Rewound(st: SimState, n: nat): SimState
  {
    if st.idx >= n - 1 then st.(idx := 0, sub := 0) else st
  }

  /** One step along a path of at least two vertices: the point `sub`
      tenths along segment `idx`, then the cursor one tenth further, onto
      the next segment after the tenth tenth. */
  function PathStep(st: SimState, path: seq<LatLng>): (r: (SimState, LatLng))
    requires |path| >= 2 && InRange(st)
    ensures InRange(r.0)
  {
    var c := Rewound(st, |path|);
    var next := Lerp(path[c.idx], path[c.idx + 1], c.sub as real / 10.0);
    var sub := c.sub + 1;
    (if sub > 10 then c.(sub := 0, idx := c.idx + 1) else c.(sub := sub), next)
  }

  /** One step of the random walk: from the last point, or the map's
      centre, by the drawn offsets. */
  function WalkStep(st: SimState, center: LatLng, dLat: real, dLng: real): (r: (SimState, LatLng))
    ensures r.0.pos == Some(r.1) && r.0.idx == st.idx && r.0.sub == st.sub
  {
    var p := if st.pos.Some? then st.pos.value else center;
    var q := GeoJson.LatLng(p.lat + dLat, p.lng + dLng);
    (st.(pos := Some(q)), q)
  }

  /** `(Math.random() - 0.5) * 0.001`. */
  predicate Jitter(d: real)
  {
    -0.0005 <= d < 0.0005
  }

  /** The emitted point lies on the segment the cursor is on: vertex `idx`
      at tenth 0, vertex `idx + 1` at tenth 10, and the segment index is
      always valid. */
  lemma PathStepOnSegment(st: SimState, path: seq<LatLng>)
    requires |path| >= 2 && InRange(st)
    ensures var c := Rewound(st, |path|);
      && 0 <= c.idx && c.idx + 1 < |path|
      && PathStep(st, path).1 == Lerp(path[c.idx], path[c.idx + 1], c.sub as real / 10.0)
      && (c.sub == 0 ==> PathStep(st, path).1 == path[c.idx])
      && (c.sub == 10 ==> PathStep(st, path).1 == path[c.idx + 1])
  {
  }

  /** `n` steps from tenth `s` of segment `i`, while the cursor stays on it. */
  function Walk(st: SimState, path: seq<LatLng>, n: nat): (r: (SimState, seq<LatLng>))
    requires |path| >= 2 && InRange(st)
    ensures |r.1| == n && InRange(r.0)
    decreases n
  {
    if n == 0 then (st, [])
    else
      var (st', p) := PathStep(st, path);
      var (last, ps) := Walk(st', path, n - 1);
      (last, [p] + ps)
  }

  /** From tenth `s` of a segment that is not the last, `n` steps with
      `s + n <= 11` emit the points at tenths `s`, …, `s + n - 1`. */
  lemma {:induction false} WalkAlongSegment(i: nat, s: nat, pos: Option<LatLng>, path: seq<LatLng>, n: nat)
    requires i + 1 < |path| && s <= 10 && s + n <= 11
    ensures forall k :: 0 <= k < n ==>
      Walk(SimState(i, s, pos), path, n).1[k] == Lerp(path[i], path[i + 1], (s + k) as real / 10.0)
    ensures Walk(SimState(i, s, pos), path, n).0 == if s + n == 11 then SimState(i + 1, 0, pos) else SimState(i, s + n, pos)
    decreases n
  {
    if n > 0 {
      var st := SimState(i, s, pos);
      assert Rewound(st, |path|) == st;
      var r := PathStep(st, path);
      var w := Walk(r.0, path, n - 1);
      assert Walk(st, path, n) == (w.0, [r.1] + w.1);
      if s < 10 {
        assert r.0 == SimState(i, s + 1, pos);
        WalkAlongSegment(i, s + 1, pos, path, n - 1);
        forall k | 1 <= k < n
          ensures Walk(st, path, n).1[k] == Lerp(path[i], path[i + 1], (s + k) as real / 10.0)
        {
          assert Walk(st, path, n).1[k] == w.1[k - 1];
          assert (s + 1) + (k - 1) == s + k;
        }
      } else {
        assert r.0 == SimState(i + 1, 0, pos);
      }
    }
  }

  /** Every segment is played as 11 points, from its first vertex to its
      second, after which the cursor is at the start of the next segment. */
  lemma ElevenPointsPerSegment(i: nat, pos: Option<LatLng>, path: seq<LatLng>)
    requires i + 1 < |path|
    ensures Walk(SimState(i, 0, pos), path, 11).1[0] == path[i]
    ensures Walk(SimState(i, 0, pos), path, 11).1[10] == path[i + 1]
    ensures Walk(SimState(i, 0, pos), path, 11).0 == SimState(i + 1, 0, pos)
  {
    WalkAlongSegment(i, 0, pos, path, 11);
    var ps := Walk(SimState(i, 0, pos), path, 11).1;
    assert (0 + 10) as real / 10.0 == 1.0;
    assert ps[10] == Lerp(path[i], path[i + 1], 1.0);
    assert ps[0] == Lerp(path[i], path[i + 1], 0.0);
  }

  class Manager {
    /** `simTimersRef`: one running timer per simulated vehicle. */
    var timers: map<VehicleId, Timer>
    /** `simStatesRef`: the cursors; kept when a timer stops. */
    var states: map<VehicleId, SimState>
    /** `simEnabledRef`: steps do something only while it is set. */
    var enabled: bool
    /** The `simRunning` flag shown by the controls. */
    var running: bool
    /** `routeSelectedRef`. */
    var routeSelected: bool
    /** The markers shown on the map. */
    var positions: map<VehicleId, LatLng>
    /** The next handle `setInterval` gives. */
    var nextTimer: Timer
    /** Every fix the steps posted, in order. */
    ghost var posted: seq<(VehicleId, LatLng)>

    ghost predicate Valid()
      reads this
    {
      && (forall v :: v in timers ==> timers[v] < nextTimer)
      && (forall v, w :: v in timers && w in timers && v != w ==> timers[v] != timers[w])
      && (forall v :: v in states ==> InRange(states[v]))
    }

    constructor ()
      ensures Valid() && timers == map[] && states == map[] && !enabled && !running
      ensures positions == map[] && posted == []
    {
      timers := map[];
      states := map[];
      enabled := false;
      running := false;
      routeSelected := false;
      positions := map[];
      nextTimer := 0;
      posted := [];
    }

    /** `startSimulationFor`: a new timer for a vehicle without one; nothing
        for a vehicle that has one. */
    method StartFor(v: VehicleId)
      requires Valid()
      modifies this
      ensures Valid()
      ensures v in old(timers) ==> timers == old(timers) && nextTimer == old(nextTimer)
      ensures v !in old(timers) ==> timers == old(timers)[v := old(nextTimer)] && nextTimer == old(nextTimer) + 1
      ensures states == old(states) && enabled == old(enabled) && running == old(running)
      ensures routeSelected == old(routeSelected) && positions == old(positions) && posted == old(posted)
    {
      if v in timers {
        return;
      }
      timers := timers[v := nextTimer];
      nextTimer := nextTimer + 1;
    }

    /** `stopSimulationFor`: the vehicle's timer is cleared and dropped;
        its cursor stays. */
    method StopFor(v: VehicleId)
      requires Valid()
      modifies this
      ensures Valid()
      ensures timers == old(timers) - {v} && nextTimer == old(nextTimer)
      ensures states == old(states) && enabled == old(enabled) && running == old(running)
      ensures routeSelected == old(routeSelected) && positions == old(positions) && posted == old(posted)
    {
      timers := timers - {v};
    }

    /** Clears every timer, one key at a time. */
    method StopEach()
      requires Valid()
      modifies this
      ensures Valid()
      ensures timers == map[] && nextTimer == old(nextTimer)
      ensures states == old(states) && enabled == old(enabled) && running == old(running)
      ensures routeSelected == old(routeSelected) && positions == old(positions) && posted == old(posted)
    {
      var keys := timers.Keys;
      while keys != {}
        invariant Valid()
        invariant keys == timers.Keys && nextTimer == old(nextTimer)
        invariant states == old(states) && enabled == old(enabled) && running == old(running)
        invariant routeSelected == old(routeSelected) && positions == old(positions) && posted == old(posted)
        decreases |keys|
      {
        var v :| v in keys;
        StopFor(v);
        keys := keys - {v};
      }
    }

    /** `startAll`: nothing with no vehicle selected; otherwise every timer
        is cleared, stepping is enabled, and each selected vehicle gets one
        timer, so the timers are exactly those of the selection. */
    method StartAll(selected: seq<VehicleId>)
      requires Valid()
      modifies this
      ensures Valid()
      ensures selected == [] ==> timers == old(timers) && enabled == old(enabled) && running == old(running)
      ensures selected != [] ==> timers.Keys == set v | v in selected && enabled && running
      ensures forall v :: v in timers && v !in old(timers) ==> old(nextTimer) <= timers[v]
      ensures states == old(states) && routeSelected == old(routeSelected) && positions == old(positions)
      ensures posted == old(posted)
    {
      if |selected| == 0 {
        return;
      }
      StopEach();
      enabled := true;
      running := true;
      var i := 0;
      while i < |selected|
        invariant 0 <= i <= |selected| && Valid()
        invariant timers.Keys == set v | v in selected[..i]
        invariant forall v :: v in timers ==> old(nextTimer) <= timers[v]
        invariant enabled && running && nextTimer >= old(nextTimer)
        invariant states == old(states) && routeSelected == old(routeSelected) && positions == old(positions)
        invariant posted == old(posted)
      {
        assert selected[..i + 1] == selected[..i] + [selected[i]];
        StartFor(selected[i]);
        i := i + 1;
      }
      assert selected[..i] == selected;
    }

    /** `stopAll`: stepping is disabled and every timer cleared. */
    method StopAll()
      requires Valid()
      modifies this
      ensures Valid()
      ensures timers == map[] && !enabled && !running
      ensures states == old(states) && routeSelected == old(routeSelected) && positions == old(positions)
      ensures posted == old(posted) && nextTimer == old(nextTimer)
    {
      enabled := false;
      running := false;
      StopEach();
    }

    /** The effect of selecting a route. */
    method SelectRoute()
      modifies this
      ensures routeSelected
      ensures timers == old(timers) && states == old(states) && enabled == old(enabled) && running == old(running)
      ensures positions == old(positions) && posted == old(posted) && nextTimer == old(nextTimer)
    {
      routeSelected := true;
    }

    /** The effect of clearing the route selection: no markers, stepping
        disabled, every timer cleared. */
    method DeselectRoute()
      requires Valid()
      modifies this
      ensures Valid()
      ensures !routeSelected && positions == map[] && timers == map[] && !enabled && !running
      ensures states == old(states) && posted == old(posted) && nextTimer == old(nextTimer)
    {
      routeSelected := false;
      positions := map[];
      enabled := false;
      running := false;
      StopEach();
    }

    /** `stepSimulationFor`, one tick of a vehicle's timer: nothing while
        stepping is disabled. Otherwise a vehicle without a cursor gets one
        at segment `idx0` (0 to 2) and tenth `sub0` (0 to 9); the cursor moves
        one step along the selected route's path, or, on a path of fewer
        than two vertices, the walk moves by the drawn offsets; the point is
        posted, and shown only when the post succeeds. */
    method Step(v: VehicleId, route: GeoJson.Stored, idx0: nat, sub0: nat, dLat: real, dLng: real,
                center: LatLng, sendOk: bool)
      requires Valid()
      requires idx0 < 3 && sub0 < 10 && Jitter(dLat) && Jitter(dLng)
      modifies this
      ensures Valid()
      ensures !old(enabled) ==> states == old(states) && positions == old(positions) && posted == old(posted)
      ensures old(enabled) ==>
        var r := Tick(if v in old(states) then old(states)[v] else SimState(idx0, sub0, None),
                      GeoJson.RoutePath(route), center, dLat, dLng);
        && states == old(states)[v := r.0]
        && posted == old(posted) + [(v, r.1)]
        && positions == (if sendOk then old(positions)[v := r.1] else old(positions))
      ensures timers == old(timers) && enabled == old(enabled) && running == old(running)
      ensures routeSelected == old(routeSelected) && nextTimer == old(nextTimer)
    {
      if !enabled {
        return;
      }
      var path := RoutePath.SelectedRoutePath(route);
      var cur := if v in states then states[v] else SimState(idx0, sub0, None);
      var st, next := Advance(cur, path, center, dLat, dLng);
      states := states[v := st];
      posted := posted + [(v, next)];
      if sendOk {
        positions := positions[v := next];
      }
    }
  }

  /** What one tick does to a cursor, on the path or off it. */
  function Tick(st: SimState, path: seq<LatLng>, center: LatLng, dLat: real, dLng: real): (r: (SimState, LatLng))
    requires InRange(st)
    ensures InRange(r.0)
  {
    if |path| >= 2 then PathStep(st, path) else WalkStep(st, center, dLat, dLng)
  }

  /** The cursor updates of `stepSimulationFor`, in place on `st`. */
  method Advance(st0: SimState, path: seq<LatLng>, center: LatLng, dLat: real, dLng: real)
    returns (st: SimState, next: LatLng)
    requires InRange(st0)
    ensures (st, next) == Tick(st0, path, center, dLat, dLng)
  {
    st := st0;
    if |path| >= 2 {
      if st.idx >= |path| - 1 {
        st := st.(idx := 0, sub := 0);
      }
      var a := path[st.idx];
      var b := path[st.idx + 1];
      next := Lerp(a, b, st.sub as real / 10.0);
      st := st.(sub := st.sub + 1);
      if st.sub > 10 {
        st := st.(sub := 0, idx := st.idx + 1);
      }
    } else {
      var p := if st.pos.Some? then st.pos.value else center;
      p := GeoJson.LatLng(p.lat + dLat, p.lng + dLng);
      st := st.(pos := Some(p));
      next := p;
    }
  }

  /** Stopping a vehicle's timer keeps its cursor, so a restart resumes
      where it stopped; and stopping twice is stopping once. */
  method StopKeepsCursor(m: Manager, v: VehicleId)
    requires m.Valid()
    modifies m
    ensures m.states == old(m.states) && v !in m.timers
    ensures m.timers == old(m.timers) - {v}
  {
    m.StopFor(v);
    var once := m.timers;
    m.StopFor(v);
    assert m.timers == once;
  }

  /** Starting twice is starting once. */
  method StartIdempotent(m: Manager, v: VehicleId)
    requires m.Valid()
    modifies m
    ensures v in m.timers && m.timers.Keys == old(m.timers.Keys) + {v}
  {
    m.StartFor(v);
    var once := m.timers;
    m.StartFor(v);
    assert m.timers == once;
  }
}
