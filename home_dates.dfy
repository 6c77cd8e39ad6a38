/** The ride dates of the home page: the options generated for November and
    December 2025, the per-route filters the spectator and sponsor forms
    apply to them, the sponsor's date checkboxes, and the map bounds of the
    sponsor's route. Dates are day numbers and local minutes: no time zone. */
module HomeDates {
  import opened Wrappers
  import opened Text
  import GeoJson

  /** 'Fines de semana' (09:00 on Saturdays and Sundays) and
      'Jueves nocturnos' (18:00 on Thursdays). */
  datatype Group = Weekend | ThursdayNight

  /** One option: its group, its month as `Date.getMonth` numbers it
      (10 is November), its day of the month and its starting hour. */
  datatype DateOption = DateOption(group: Group, month: nat, date: nat, hour: nat)

  const November: nat := 10
  const December: nat := 11

  /** The months the options cover, in the order they are walked. */
  const Months: seq<nat> := [November, December]

  predicate InSeason(m: nat)
  {
    m == November || m == December
  }

  /** The number of days of a month of the season. */
  function DaysIn(m: nat): nat
    requires InSeason(m)
  {
    if m == November then 30 else 31
  }

  /** Days from 1 November 2025 to the first day of the month. */
  function MonthOffset(m: nat): nat
    requires InSeason(m)
  {
    if m == November then 0 else 30
  }

  /** `getDay()`: 0 is Sunday and 6 Saturday; 1 November 2025 is a Saturday. */
  function Weekday(m: nat, date: nat): (dow: nat)
    requires InSeason(m)
    ensures dow < 7
  {
    (5 + MonthOffset(m) + date) % 7
  }

  /** `start.getTime()` up to a constant: local minutes since midnight of
      1 November 2025. */
  function Ts(o: DateOption): int
    requires InSeason(o.month)
  {
    (MonthOffset(o.month) + o.date - 1) * 1440 + o.hour * 60
  }

  /** The options pushed for one day, weekend test first. */
  function OptionsOn(m: nat, date: nat): seq<DateOption>
    requires InSeason(m)
  {
    var dow := Weekday(m, date);
    (if dow == 6 || dow == 0 then [DateOption(Weekend, m, date, 9)] else [])
    + (if dow == 4 then [DateOption(ThursdayNight, m, date, 18)] else [])
  }

  /** The options of days 1 to `n` of month `m`, in the order the walk
      pushes them. */
  function MonthOptions(m: nat, n: nat): seq<DateOption>
    requires InSeason(m)
  {
    if n == 0 then [] else MonthOptions(m, n - 1) + OptionsOn(m, n)
  }

  /** The options of every day of the months `ms`, in walk order. */
  function Walked(ms: seq<nat>): seq<DateOption>
    requires forall i :: 0 <= i < |ms| ==> InSeason(ms[i])
  {
    if ms == [] then []
    else Walked(ms[..|ms| - 1]) + MonthOptions(ms[|ms| - 1], DaysIn(ms[|ms| - 1]))
  }

  /** What the design asks for: a day of the season, at 09:00 on a Saturday
      or a Sunday, or at 18:00 on a Thursday. */
  predicate Offered(o: DateOption)
  {
    && InSeason(o.month) && 1 <= o.date <= DaysIn(o.month)
    && (|| (o.group == Weekend && o.hour == 9 && (Weekday(o.month, o.date) == 6 || Weekday(o.month, o.date) == 0))
        || (o.group == ThursdayNight && o.hour == 18 && Weekday(o.month, o.date) == 4))
  }

  /** Strictly increasing start times. */
  predicate Ascending(s: seq<DateOption>)
  {
    && (forall i :: 0 <= i < |s| ==> InSeason(s[i].month))
    && (forall i, j :: 0 <= i < j < |s| ==> Ts(s[i]) < Ts(s[j]))
  }

  // ------------------------------------------------ the options themselves

  lemma MonthOptionsAreOffered(m: nat, n: nat, o: DateOption)
    requires InSeason(m) && n <= DaysIn(m)
    ensures o in MonthOptions(m, n) <==> (Offered(o) && o.month == m && o.date <= n)
  {
    MonthOptionsByDay(m, n, o);
    if o.month == m && 1 <= o.date <= n {
      OptionsOnAreOffered(m, o.date, o);
    }
  }

  /** An option is among those of days 1 to `n` exactly when it is one of
      the options of its own day, and that day is one of them. */
  lemma {:induction false} MonthOptionsByDay(m: nat, n: nat, o: DateOption)
    requires InSeason(m)
    ensures o in MonthOptions(m, n) <==> (o.month == m && 1 <= o.date <= n && o in OptionsOn(m, o.date))
  {
    if n > 0 {
      MonthOptionsByDay(m, n - 1, o);
      OptionsOnDay(m, n, o);
      assert MonthOptions(m, n) == MonthOptions(m, n - 1) + OptionsOn(m, n);
    }
  }

  lemma OptionsOnDay(m: nat, n: nat, o: DateOption)
    requires InSeason(m)
    ensures o in OptionsOn(m, n) ==> o.month == m && o.date == n
  {
  }

  /** The options of one day are exactly the offered ones on that day. */
  lemma OptionsOnAreOffered(m: nat, n: nat, o: DateOption)
    requires InSeason(m) && 1 <= n <= DaysIn(m)
    ensures o in OptionsOn(m, n) <==> (Offered(o) && o.month == m && o.date == n)
  {
  }

  /** Every option of days 1 to `n` of a month starts on one of those days,
      at its 09:00 or 18:00, and each starts later than the one before. */
  lemma {:induction false} MonthOptionsAscending(m: nat, n: nat)
    requires InSeason(m)
    ensures Ascending(MonthOptions(m, n))
    ensures forall i :: 0 <= i < |MonthOptions(m, n)| ==>
      && MonthOptions(m, n)[i].month == m
      && MonthOffset(m) * 1440 <= Ts(MonthOptions(m, n)[i]) < (MonthOffset(m) + n) * 1440
  {
    if n > 0 {
      MonthOptionsAscending(m, n - 1);
      var a := MonthOptions(m, n - 1);
      var b := OptionsOn(m, n);
      assert MonthOptions(m, n) == a + b;
      if b == [] {
        assert a + b == a;
      } else {
        var x := b[0];
        assert b == [x];
        assert x.month == m && x.date == n && (x.hour == 9 || x.hour == 18);
        forall y | y in a
          ensures Ts(y) < Ts(x)
        {
          var i :| 0 <= i < |a| && a[i] == y;
        }
        AscendingSnoc(a, x);
      }
    }
  }

  /** The months of `ms` strictly increase. */
  predicate MonthsIncrease(ms: seq<nat>)
  {
    && (forall i :: 0 <= i < |ms| ==> InSeason(ms[i]))
    && (forall i, j :: 0 <= i < j < |ms| ==> ms[i] < ms[j])
  }

  /** The walk over increasing months of the season yields options whose
      start times increase, every one before the end of the last month. */
  lemma {:induction false} WalkedAscending(ms: seq<nat>)
    requires MonthsIncrease(ms)
    ensures Ascending(Walked(ms))
    ensures ms != [] ==> forall i :: 0 <= i < |Walked(ms)| ==>
      Ts(Walked(ms)[i]) < (MonthOffset(ms[|ms| - 1]) + DaysIn(ms[|ms| - 1])) * 1440
  {
    if ms != [] {
      var init := ms[..|ms| - 1];
      var m := ms[|ms| - 1];
      assert MonthsIncrease(init);
      WalkedAscending(init);
      MonthOptionsAscending(m, DaysIn(m));
      var a := Walked(init);
      var b := MonthOptions(m, DaysIn(m));
      assert Walked(ms) == a + b;
      if init != [] {
        assert init[|init| - 1] < m;
        assert forall i :: 0 <= i < |a| ==> Ts(a[i]) < MonthOffset(m) * 1440;
      }
      forall i, j | 0 <= i < j < |a + b|
        ensures Ts((a + b)[i]) < Ts((a + b)[j])
      {
        if i < |a| && j >= |a| {
          assert (a + b)[i] == a[i] && (a + b)[j] == b[j - |a|];
        }
      }
      forall i | 0 <= i < |a + b|
        ensures Ts((a + b)[i]) < (MonthOffset(m) + DaysIn(m)) * 1440
      {
        if i < |a| {
          assert (a + b)[i] == a[i];
        } else {
          assert (a + b)[i] == b[i - |a|];
        }
      }
    }
  }

  /** Every option of `ms` is offered and falls in one of its months. */
  lemma {:induction false} WalkedAreOffered(ms: seq<nat>, o: DateOption)
    requires forall i :: 0 <= i < |ms| ==> InSeason(ms[i])
    ensures o in Walked(ms) <==> Offered(o) && o.month in ms
  {
    if ms != [] {
      var init := ms[..|ms| - 1];
      var m := ms[|ms| - 1];
      WalkedAreOffered(init, o);
      MonthOptionsAreOffered(m, DaysIn(m), o);
      assert ms == init + [m];
    }
  }

  /** The generated list before its sort holds every offered option of the
      season, and no other. */
  lemma SeasonIsExactlyOffered(o: DateOption)
    ensures o in Walked(Months) <==> Offered(o)
  {
    WalkedAreOffered(Months, o);
  }

  /** One day of the walk: the weekend option on a Saturday or a Sunday,
      the night option on a Thursday. */
  method PushDay(opts: seq<DateOption>, m: nat, date: nat) returns (r: seq<DateOption>)
    requires InSeason(m)
    ensures r == opts + OptionsOn(m, date)
  {
    r := opts;
    var dow := Weekday(m, date);
    if dow == 6 || dow == 0 {
      r := r + [DateOption(Weekend, m, date, 9)];
    }
    if dow == 4 {
      r := r + [DateOption(ThursdayNight, m, date, 18)];
    }
  }

  lemma DayPushed(done: seq<DateOption>, m: nat, date: nat)
    requires InSeason(m) && date >= 1
    ensures done + MonthOptions(m, date - 1) + OptionsOn(m, date) == done + MonthOptions(m, date)
  {
  }

/** `spectatorDates`: the walk over the days of November and December
      2025 pushes the weekend option (09:00) of every Saturday and Sunday and
      the night option (18:00) of every Thursday; the list is then sorted by
      start time, which leaves it as it is since it is already ascending. */
  method SpectatorDates() returns (opts: seq<DateOption>)
    ensures Ascending(opts)
    ensures forall o :: o in opts <==> Offered(o)
  {
    opts := [];
    for k := 0 to |Months|
      invariant opts == Walked(Months[..k])
    {
      var m := Months[k];
      var date := 1;
      while date <= DaysIn(m)
        invariant 1 <= date <= DaysIn(m) + 1
        invariant opts == Walked(Months[..k]) + MonthOptions(m, date - 1)
      {
        opts := PushDay(opts, m, date);
        DayPushed(Walked(Months[..k]), m, date);
        date := date + 1;
      }
      assert Months[..k + 1][..k] == Months[..k];
    }
    assert Months[..|Months|] == Months;
    WalkedAscending(Months);
    forall o
      ensures o in opts <==> Offered(o)
    {
      SeasonIsExactlyOffered(o);
    }
  }

  // ------------------------------------------------------ route filters

  /** A route as the home page lists it. */
  datatype RouteInfo = RouteInfo(id: string, name: string, geojson: GeoJson.Stored)

  /** `routes.find(r => r.id === id)`: the first route with that id. */
  function FindRoute(routes: seq<RouteInfo>, id: string): (r: Option<RouteInfo>)
    ensures r.None? <==> forall i :: 0 <= i < |routes| ==> routes[i].id != id
    ensures r.Some? ==> r.value.id == id
    ensures r.Some? ==> exists k :: 0 <= k < |routes| && routes[k] == r.value && (forall i :: 0 <= i < k ==> routes[i].id != id)
  {
    if routes == [] then None
    else if routes[0].id == id then Some(routes[0])
    else
      var r := FindRoute(routes[1..], id);
      if r.Some? then
        assert forall i :: 1 <= i < |routes| ==> routes[i] == routes[1..][i - 1];
        r
      else r
  }

  /** `(selected?.name || '').toLowerCase().includes('nocturna')`. */
  predicate IsNocturna(routes: seq<RouteInfo>, routeId: string)
  {
    var selected := FindRoute(routes, routeId);
    Contains(ToLower(if selected.Some? then selected.value.name else ""), "nocturna")
  }

  /** The spectator form's filter: weekend options always, night options
      only when `nocturna` holds; order kept. */
  function VisibleSpectatorDates(opts: seq<DateOption>, nocturna: bool): (r: seq<DateOption>)
    ensures forall o :: o in r <==> o in opts && (o.group == Weekend || (nocturna && o.group == ThursdayNight))
    ensures |r| <= |opts|
  {
    if opts == [] then []
    else
      var o := opts[|opts| - 1];
      VisibleSpectatorDates(opts[..|opts| - 1], nocturna)
      + (if o.group == Weekend || (nocturna && o.group == ThursdayNight) then [o] else [])
  }

  /** The sponsor form's filter: only night options for a 'nocturna' route,
      only weekend options for any other; order kept. */
  function VisibleSponsorDates(opts: seq<DateOption>, nocturna: bool): (r: seq<DateOption>)
    ensures forall o :: o in r <==> o in opts && (if nocturna then o.group == ThursdayNight else o.group == Weekend)
    ensures |r| <= |opts|
  {
    if opts == [] then []
    else
      var o := opts[|opts| - 1];
      VisibleSponsorDates(opts[..|opts| - 1], nocturna)
      + (if (if nocturna then o.group == ThursdayNight else o.group == Weekend) then [o] else [])
  }

  /** An option later than every option of an ascending list extends it. */
  lemma AscendingSnoc(r: seq<DateOption>, o: DateOption)
    requires Ascending(r) && InSeason(o.month)
    requires forall x :: x in r ==> Ts(x) < Ts(o)
    ensures Ascending(r + [o])
  {
    var s := r + [o];
    forall i, j | 0 <= i < j < |s|
      ensures Ts(s[i]) < Ts(s[j])
    {
      assert s[i] == r[i];
      if j < |r| {
        assert s[j] == r[j];
      } else {
        assert r[i] in r;
      }
    }
  }

  lemma {:induction false} SpectatorFilterAscending(opts: seq<DateOption>, nocturna: bool)
    requires Ascending(opts)
    ensures Ascending(VisibleSpectatorDates(opts, nocturna))
  {
    if opts != [] {
      var init := opts[..|opts| - 1];
      var o := opts[|opts| - 1];
      assert Ascending(init);
      SpectatorFilterAscending(init, nocturna);
      var r := VisibleSpectatorDates(init, nocturna);
      forall x | x in r
        ensures Ts(x) < Ts(o)
      {
        var i :| 0 <= i < |init| && init[i] == x;
        assert opts[i] == x;
      }
      if o.group == Weekend || (nocturna && o.group == ThursdayNight) {
        AscendingSnoc(r, o);
      } else {
        assert VisibleSpectatorDates(opts, nocturna) == r + [];
      }
    }
  }

  lemma {:induction false} SponsorFilterAscending(opts: seq<DateOption>, nocturna: bool)
    requires Ascending(opts)
    ensures Ascending(VisibleSponsorDates(opts, nocturna))
  {
    if opts != [] {
      var init := opts[..|opts| - 1];
      var o := opts[|opts| - 1];
      assert Ascending(init);
      SponsorFilterAscending(init, nocturna);
      var r := VisibleSponsorDates(init, nocturna);
      forall x | x in r
        ensures Ts(x) < Ts(o)
      {
        var i :| 0 <= i < |init| && init[i] == x;
        assert opts[i] == x;
      }
      if (if nocturna then o.group == ThursdayNight else o.group == Weekend) {
        AscendingSnoc(r, o);
      } else {
        assert VisibleSponsorDates(opts, nocturna) == r + [];
      }
    }
  }

  /** What the spectator sees for a route: every weekend option of the
      season, the Thursday nights exactly when the route is a 'nocturna'
      one, and nothing else; still in ascending order. */
  lemma SpectatorSees(routes: seq<RouteInfo>, routeId: string, opts: seq<DateOption>, o: DateOption)
    requires Ascending(opts) && forall x :: x in opts <==> Offered(x)
    ensures var visible := VisibleSpectatorDates(opts, IsNocturna(routes, routeId));
      && Ascending(visible)
      && (Offered(o) && o.group == Weekend ==> o in visible)
      && (Offered(o) && o.group == ThursdayNight ==> (o in visible <==> IsNocturna(routes, routeId)))
      && (o in visible ==> Offered(o))
  {
    SpectatorFilterAscending(opts, IsNocturna(routes, routeId));
  }

  /** What the sponsor sees for a route: the Thursday nights of the season
      for a 'nocturna' route, its weekends for any other; in ascending order. */
  lemma SponsorSees(routes: seq<RouteInfo>, routeId: string, opts: seq<DateOption>, o: DateOption)
    requires Ascending(opts) && forall x :: x in opts <==> Offered(x)
    ensures var visible := VisibleSponsorDates(opts, IsNocturna(routes, routeId));
      && Ascending(visible)
      && (o in visible <==> Offered(o) && (if IsNocturna(routes, routeId) then o.group == ThursdayNight else o.group == Weekend))
  {
    SponsorFilterAscending(opts, IsNocturna(routes, routeId));
  }

  // --------------------------------------------------- sponsor checkboxes

  predicate NoDuplicates(s: seq<string>)
  {
    forall i, j :: 0 <= i < j < |s| ==> s[i] != s[j]
  }

  /** `Array.from(new Set(s))`: the first occurrence of every value, in order. */
  function Dedup(s: seq<string>): (r: seq<string>)
    ensures NoDuplicates(r)
    ensures forall x :: x in r <==> x in s
    ensures NoDuplicates(s) ==> r == s
  {
    if s == [] then []
    else
      var d := Dedup(s[..|s| - 1]);
      var x := s[|s| - 1];
      assert forall y :: y in s <==> y in s[..|s| - 1] || y == x;
      if x in d then d else d + [x]
  }

  /** Ticking a date: the list with the value added, duplicates merged. */
  function Tick(when: seq<string>, v: string): (r: seq<string>)
    ensures NoDuplicates(r)
    ensures forall x :: x in r <==> x in when || x == v
  {
    Dedup(when + [v])
  }

  /** Unticking a date: every occurrence of the value removed, order kept. */
  function Untick(when: seq<string>, v: string): (r: seq<string>)
    ensures forall x :: x in r <==> x in when && x != v
    ensures |r| <= |when|
    ensures NoDuplicates(when) ==> NoDuplicates(r)
  {
    if when == [] then []
    else
      var rest := Untick(when[..|when| - 1], v);
      var x := when[|when| - 1];
      assert forall y :: y in when <==> y in when[..|when| - 1] || y == x;
      assert NoDuplicates(when) ==> NoDuplicates(when[..|when| - 1]) && x !in when[..|when| - 1];
      if x == v then rest else rest + [x]
  }

  /** The checkbox's `onChange`: tick or untick by the new checked state. */
  function ToggleDate(when: seq<string>, v: string, checked: bool): seq<string>
  {
    if checked then Tick(when, v) else Untick(when, v)
  }

  /** Ticking a new date on a list built by the checkboxes appends it, and
      ticking one already there changes nothing. */
  lemma TickAppends(when: seq<string>, v: string)
    requires NoDuplicates(when)
    ensures ToggleDate(when, v, true) == if v in when then when else when + [v]
  {
    if v !in when {
      assert NoDuplicates(when + [v]);
    } else {
      assert Dedup(when + [v]) == Dedup(when);
    }
  }

  /** Unticking removes exactly what ticking added. */
  lemma {:induction false} UntickUndoesTick(when: seq<string>, v: string)
    requires NoDuplicates(when) && v !in when
    ensures ToggleDate(ToggleDate(when, v, true), v, false) == when
  {
    TickAppends(when, v);
    assert (when + [v])[..|when|] == when;
    UntickAbsent(when, v);
  }

  lemma {:induction false} UntickAbsent(when: seq<string>, v: string)
    requires v !in when
    ensures Untick(when, v) == when
  {
    if when != [] {
      UntickAbsent(when[..|when| - 1], v);
    }
  }

  // ------------------------------------------------------ sponsor bounds

  /** The map's corner points: south-west and north-east. */
  datatype Bounds = Bounds(south: real, west: real, north: real, east: real)

  /** What `sponsorBounds` gives: a throw (the route's geojson is the text
      `null`), no bounds, or the bounds. */
  datatype BoundsOutcome = Throws | NoBounds | HasBounds(bounds: Bounds)

  function Lats(pts: seq<GeoJson.LatLng>): (r: seq<real>)
    ensures |r| == |pts| && forall i :: 0 <= i < |pts| ==> r[i] == pts[i].lat
  {
    if pts == [] then [] else Lats(pts[..|pts| - 1]) + [pts[|pts| - 1].lat]
  }

  function Lngs(pts: seq<GeoJson.LatLng>): (r: seq<real>)
    ensures |r| == |pts| && forall i :: 0 <= i < |pts| ==> r[i] == pts[i].lng
  {
    if pts == [] then [] else Lngs(pts[..|pts| - 1]) + [pts[|pts| - 1].lng]
  }

  /** `Math.min(...xs)` on a non-empty list. */
  function Min(xs: seq<real>): (m: real)
    requires |xs| > 0
    ensures m in xs && forall i :: 0 <= i < |xs| ==> m <= xs[i]
  {
    if |xs| == 1 then xs[0]
    else
      var m := Min(xs[..|xs| - 1]);
      assert forall i :: 0 <= i < |xs| - 1 ==> xs[..|xs| - 1][i] == xs[i];
      if xs[|xs| - 1] < m then xs[|xs| - 1] else m
  }

  /** `Math.max(...xs)` on a non-empty list. */
  function Max(xs: seq<real>): (m: real)
    requires |xs| > 0
    ensures m in xs && forall i :: 0 <= i < |xs| ==> xs[i] <= m
  {
    if |xs| == 1 then xs[0]
    else
      var m := Max(xs[..|xs| - 1]);
      assert forall i :: 0 <= i < |xs| - 1 ==> xs[..|xs| - 1][i] == xs[i];
      if xs[|xs| - 1] > m then xs[|xs| - 1] else m
  }

  /** `sponsorBounds`: the selected route's points, read by
      `extractLineCoords`; with two or more, the box spanned by their
      least and greatest latitude and longitude. A missing route has no
      geojson, hence no points. */
  function SponsorBounds(routes: seq<RouteInfo>, routeId: string): (r: BoundsOutcome)
    ensures var route := FindRoute(routes, routeId);
      var coords := GeoJson.ExtractLineCoords(if route.Some? then route.value.geojson else GeoJson.Missing);
      && (r.Throws? <==> coords.None?)
      && (r.NoBounds? <==> coords.Some? && |coords.value| < 2)
      && (r.HasBounds? ==>
          && (forall i :: 0 <= i < |coords.value| ==>
                r.bounds.south <= coords.value[i].lat <= r.bounds.north
                && r.bounds.west <= coords.value[i].lng <= r.bounds.east)
          && (exists i :: 0 <= i < |coords.value| && coords.value[i].lat == r.bounds.south)
          && (exists i :: 0 <= i < |coords.value| && coords.value[i].lat == r.bounds.north)
          && (exists i :: 0 <= i < |coords.value| && coords.value[i].lng == r.bounds.west)
          && (exists i :: 0 <= i < |coords.value| && coords.value[i].lng == r.bounds.east))
  {
    var route := FindRoute(routes, routeId);
    var coords := GeoJson.ExtractLineCoords(if route.Some? then route.value.geojson else GeoJson.Missing);
    if coords.None? then Throws
    else if |coords.value| < 2 then NoBounds
    else
      var pts := coords.value;
      HasBounds(Bounds(Min(Lats(pts)), Min(Lngs(pts)), Max(Lats(pts)), Max(Lngs(pts))))
  }
}
