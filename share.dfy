/** The location-sharing page: a logged-in driver picks a vehicle, starts
    the browser's position watch, and each position callback sends at most
    one fix per two seconds to the API. */
module Share {
  import opened Wrappers

  /** The smallest gap, in milliseconds, between two fixes sent. */
  const MinGap: int := 2000

  /** `pos.coords.speed` as the browser reports it. */
  datatype Speed = NoSpeed | SpeedOf(x: real) | NotANumber | Infinite

  /** The `speed` member of the JSON payload: left out, null, or a number. */
  datatype SentSpeed = Omitted | SentNull | SentNumber(x: real)

  /** One `positionsCreate` request. */
  datatype Fix = Fix(vehicleId: string, lat: real, lng: real, speed: SentSpeed)

  /** What the page's status line says. */
  datatype Status =
    | Blank
    | Unsupported
    | Starting
    | Active
    | StartFailed(message: string)
    | Stopped
    | SentAt(lat: real, lng: real)
    | SendFailed(message: string)

  /** `isFinite(speed) ? speed : undefined`: a null speed counts as finite
      and travels as null; NaN and the infinities are dropped. */
  function SpeedField(s: Speed): (r: SentSpeed)
    ensures r.Omitted? <==> s.NotANumber? || s.Infinite?
    ensures r.SentNull? <==> s.NoSpeed?
    ensures s.SpeedOf? ==> r == SentNumber(s.x)
  {
    match s
    case NoSpeed => SentNull
    case SpeedOf(x) => SentNumber(x)
    case NotANumber => Omitted
    case Infinite => Omitted
  }

  /** `e?.message || fallback`. */
  function MessageOr(message: string, fallback: string): (r: string)
    ensures message != [] ==> r == message
    ensures message == [] ==> r == fallback
  {
    if message == [] then fallback else message
  }

  /** `now - lastSent < 2000`: the callback is dropped. */
  predicate TooSoon(lastSent: int, now: int)
  {
    now - lastSent < MinGap
  }

  /** Each time is at least two seconds after the one before it, and the
      first at least two seconds after `start`. */
  ghost predicate Spaced(start: int, ts: seq<int>)
  {
    (|ts| > 0 ==> ts[0] - start >= MinGap) &&
    forall i :: 0 < i < |ts| ==> ts[i] - ts[i - 1] >= MinGap
  }

  /** Any two accepted callback times, not only neighbours, are at least
      two seconds apart per step between them. */
  lemma {:induction false} SpacedPairwise(start: int, ts: seq<int>, i: nat, j: nat)
    requires Spaced(start, ts)
    requires i <= j < |ts|
    ensures ts[j] - ts[i] >= MinGap * (j - i)
    decreases j - i
  {
    if i < j {
      SpacedPairwise(start, ts, i, j - 1);
      assert ts[j] - ts[j - 1] >= MinGap;
    }
  }

  lemma {:induction false} SpacedAppend(start: int, ts: seq<int>, t: int)
    requires Spaced(start, ts)
    requires t - (if ts == [] then start else ts[|ts| - 1]) >= MinGap
    ensures Spaced(start, ts + [t])
  {
    var s := ts + [t];
    forall i | 0 < i < |s|
      ensures s[i] - s[i - 1] >= MinGap
    {
      if i < |ts| {
        assert s[i] == ts[i] && s[i - 1] == ts[i - 1];
      }
    }
  }

  /** The page's state: the refs and the state hooks that the watch
      callbacks update. */
  class SharePage {
    var loggedIn: bool
    var vehicleId: string
    var watching: bool
    var watchId: Option<int>
    var lastSent: int
    var positionsSent: nat
    var status: Status
    /** The requests made so far, oldest first. */
    var sent: seq<Fix>
    /** The watches handed to `clearWatch`, oldest first. */
    var cleared: seq<int>
    /** The callback times that passed the throttle, oldest first. */
    ghost var accepted: seq<int>

    /** `lastSent` is the latest accepted time (0 before any), accepted
        times are spaced two seconds apart, one request per accepted time,
        and the counter never exceeds the requests made. */
    ghost predicate Valid()
      reads this
    {
      Spaced(0, accepted) &&
      lastSent == (if accepted == [] then 0 else accepted[|accepted| - 1]) &&
      |sent| == |accepted| &&
      positionsSent <= |sent|
    }

    constructor(loggedIn: bool, vehicleId: string)
      ensures Valid()
      ensures this.loggedIn == loggedIn && this.vehicleId == vehicleId
      ensures !watching && watchId == None && lastSent == 0 && positionsSent == 0
      ensures status == Blank && sent == [] && cleared == [] && accepted == []
    {
      this.loggedIn := loggedIn;
      this.vehicleId := vehicleId;
      watching := false;
      watchId := None;
      lastSent := 0;
      positionsSent := 0;
      status := Blank;
      sent := [];
      cleared := [];
      accepted := [];
    }

    /** `canStart`: a user and a vehicle. */
    predicate CanStart()
      reads this
    {
      loggedIn && vehicleId != []
    }

    /** Choosing another vehicle in the list. */
    method ChooseVehicle(v: string)
      modifies this
      ensures vehicleId == v
      ensures loggedIn == old(loggedIn) && watching == old(watching) && watchId == old(watchId)
      ensures lastSent == old(lastSent) && positionsSent == old(positionsSent) && status == old(status)
      ensures sent == old(sent) && cleared == old(cleared) && accepted == old(accepted)
    {
      vehicleId := v;
    }

    /** `startWatching`: nothing without a user and a vehicle; a message
        without geolocation; otherwise the counter restarts at zero and the
        watch begins, or its failure is reported. `watch` is what
        `watchPosition` answers. */
    method StartWatching(hasGeolocation: bool, watch: Result<int, string>)
      requires Valid()
      modifies this
      ensures Valid()
      ensures !old(CanStart()) ==>
        status == old(status) && positionsSent == old(positionsSent)
        && watching == old(watching) && watchId == old(watchId)
      ensures old(CanStart()) && !hasGeolocation ==>
        status == Unsupported && positionsSent == old(positionsSent)
        && watching == old(watching) && watchId == old(watchId)
      ensures old(CanStart()) && hasGeolocation && watch.Ok? ==>
        positionsSent == 0 && watching && watchId == Some(watch.value) && status == Active
      ensures old(CanStart()) && hasGeolocation && watch.Err? ==>
        positionsSent == 0 && watching == old(watching) && watchId == old(watchId)
        && status == StartFailed(MessageOr(watch.error, "No se pudo iniciar geolocalización"))
      ensures loggedIn == old(loggedIn) && vehicleId == old(vehicleId) && lastSent == old(lastSent)
      ensures sent == old(sent) && cleared == old(cleared) && accepted == old(accepted)
    {
      if !CanStart() {
        return;
      }
      if !hasGeolocation {
        status := Unsupported;
        return;
      }
      positionsSent := 0;
      status := Starting;
      match watch {
        case Ok(id) =>
          watchId := Some(id);
          watching := true;
          status := Active;
        case Err(message) =>
          status := StartFailed(MessageOr(message, "No se pudo iniciar geolocalización"));
      }
    }

    /** `stopWatching`: the current watch, if any, is cleared; afterwards
        there is no watch and the page is not watching. */
    method StopWatching()
      requires Valid()
      modifies this
      ensures Valid()
      ensures watchId == None && !watching && status == Stopped
      ensures cleared == old(cleared) + (if old(watchId).Some? then [old(watchId).value] else [])
      ensures loggedIn == old(loggedIn) && vehicleId == old(vehicleId) && lastSent == old(lastSent)
      ensures positionsSent == old(positionsSent) && sent == old(sent) && accepted == old(accepted)
    {
      if watchId.Some? {
        cleared := cleared + [watchId.value];
      }
      watchId := None;
      watching := false;
      status := Stopped;
    }

    /** The watch callback at time `now`: dropped when the last accepted
        callback is less than two seconds old; otherwise the slot is taken
        before the request, so a failed request (`failure` holds its
        message) still takes it, and only a request that succeeds moves
        the counter. */
    method OnPosition(now: int, lat: real, lng: real, speed: Speed, failure: Option<string>)
      requires Valid()
      modifies this
      ensures Valid()
      ensures TooSoon(old(lastSent), now) ==>
        lastSent == old(lastSent) && sent == old(sent) && accepted == old(accepted)
        && positionsSent == old(positionsSent) && status == old(status)
      ensures !TooSoon(old(lastSent), now) ==>
        lastSent == now && accepted == old(accepted) + [now]
        && sent == old(sent) + [Fix(vehicleId, lat, lng, SpeedField(speed))]
      ensures !TooSoon(old(lastSent), now) && failure.None? ==>
        positionsSent == old(positionsSent) + 1 && status == SentAt(lat, lng)
      ensures !TooSoon(old(lastSent), now) && failure.Some? ==>
        positionsSent == old(positionsSent) && status == SendFailed(MessageOr(failure.value, "Error enviando posición"))
      ensures loggedIn == old(loggedIn) && vehicleId == old(vehicleId) && watching == old(watching)
      ensures watchId == old(watchId) && cleared == old(cleared)
    {
      if now - lastSent < MinGap {
        return;
      }
      SpacedAppend(0, accepted, now);
      lastSent := now;
      accepted := accepted + [now];
      sent := sent + [Fix(vehicleId, lat, lng, SpeedField(speed))];
      match failure {
        case None =>
          positionsSent := positionsSent + 1;
          status := SentAt(lat, lng);
        case Some(message) =>
          status := SendFailed(MessageOr(message, "Error enviando posición"));
      }
    }
  }

  /** However the callbacks arrive, any two fixes the page sent were
      accepted at least two seconds apart per fix between them. */
  lemma SentFixesAreSpaced(page: SharePage, i: nat, j: nat)
    requires page.Valid()
    requires i <= j < |page.accepted|
    ensures page.accepted[j] - page.accepted[i] >= MinGap * (j - i)
  {
    SpacedPairwise(0, page.accepted, i, j);
  }
}
