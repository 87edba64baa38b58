/** The decision logic of the `/calculate` handler of backend/server.js.
    The geocoder and router replies are inputs (`None` stands for a network
    error, a timeout, an empty answer or an unparsable coordinate, all of
    which the handler treats alike), the clock is an hour, and the
    great-circle distance is an abstract non-negative function. */
module Estimation {
  import opened Wrappers
  import opened Text
  import opened Surge
  import opened Fares
  import opened Gazetteer

  /** A GeoJSON position: longitude first, then latitude. */
  datatype Position = Position(lon: real, lat: real)

  /** The first route of a router reply: metres (0 when absent), seconds
      (0 when absent) and the route's geometry when it has one. */
  datatype RouteReply = RouteReply(distanceM: real, durationS: real, geometry: Option<seq<Position>>)

  /** `haversineKm` on two coordinates; its trigonometry is not modelled. */
  type GreatCircle = (Coord, Coord) -> real

  ghost predicate NonNegative(greatCircle: GreatCircle)
  {
    forall a, b :: greatCircle(a, b) >= 0.0
  }

  /** The external calls the handler makes, in order. */
  datatype Call = Geocode(query: string) | Wait(ms: nat) | Route(from: Coord, to: Coord)

  /** The JSON body the handler sends: an estimate or a 400 error. */
  datatype Response =
    | Estimate(pickup: Coord, drop: Coord, routeGeometry: seq<Position>,
               distanceKm: real, durationMin: real, surgeMultiplier: real,
               isOutstation: bool, fares: seq<ServiceFares>, estimated: bool)
    | BadRequest(error: string)

  const INVALID_INPUT := "Please select valid pickup/drop location."
  const UNRESOLVED := "Unable to determine locations. Please use more specific addresses or city names."

  /** Spacing between the two geocoder requests, in milliseconds. */
  const GEOCODER_SPACING_MS: nat := 1100

  function NotFound(query: string): string
  {
    "Could not find location: " + query + ". Please try a more specific address."
  }

  /** The error for an unresolvable endpoint quotes the input it could not resolve. */
  lemma NotFoundNamesInput(query: string)
    ensures Contains(NotFound(query), query)
  {
    ContainsInfix("Could not find location: ", query, ". Please try a more specific address.");
  }

  /** `Math.max` of two numbers. */
  function Max(a: real, b: real): (m: real)
    ensures m >= a && m >= b && (m == a || m == b)
  {
    if a > b then a else b
  }

  /** `typeof field === "string" ? field.trim() : ""`: a missing or
      non-string field reads as empty, and so does an all-whitespace one. */
  function TrimmedField(field: Option<string>): (t: string)
    ensures field.Some? ==> t == Trim(field.value)
    ensures t == [] <==> field.None? || forall k :: 0 <= k < |field.value| ==> IsTrimmable(field.value[k])
  {
    match field
    case Some(s) =>
      TrimEmptyIff(s);
      Trim(s)
    case None => ""
  }

  /** `buildFallbackRoute`: a two-point LineString from pickup to drop,
      longitude first; the two points read back as the pickup and the drop. */
  function FallbackRoute(pickup: Coord, drop: Coord): (line: seq<Position>)
    ensures |line| == 2 && ToCoord(line[0]) == pickup && ToCoord(line[1]) == drop
    ensures line[0].lon == pickup.lon && line[1].lon == drop.lon
  {
    [Position(pickup.lon, pickup.lat), Position(drop.lon, drop.lat)]
  }

  /** Reading a GeoJSON position back as a coordinate. */
  function ToCoord(p: Position): Coord
  {
    Coord(p.lat, p.lon)
  }

  /** An endpoint's coordinate: the geocoder's answer, else the gazetteer's. */
  function Resolve(geocoded: Option<Coord>, query: string): (r: Option<Coord>)
    ensures r.None? <==> geocoded.None? && Lookup(query).None?
    ensures geocoded.Some? ==> r == geocoded
    ensures geocoded.None? ==> r == Lookup(query)
  {
    if geocoded.Some? then geocoded else Lookup(query)
  }

  /** The post-routing distance floor: under half a kilometre counts as 5 km. */
  function FloorDistance(km: real): (r: real)
    ensures r >= 0.5
    ensures km >= 0.5 ==> r == km
    ensures km < 0.5 ==> r == 5.0
  {
    if km < 0.5 then 5.0 else km
  }

  /** The post-routing duration floor: under 5 minutes counts as 15. */
  function FloorDuration(minutes: real): (r: real)
    ensures r >= 5.0
    ensures minutes >= 5.0 ==> r == minutes
    ensures minutes < 5.0 ==> r == 15.0
  {
    if minutes < 5.0 then 15.0 else minutes
  }

  /** The recovery path of the handler's `catch` block: gazetteer only, a
      great-circle route (12 km when it comes out as zero), at least
      15 minutes, and always reported as an estimate. */
  function Recovery(trimmedPickup: string, trimmedDrop: string, greatCircle: GreatCircle, hour: Hour): (resp: Response)
    requires NonNegative(greatCircle)
    ensures resp.BadRequest? <==> Lookup(trimmedPickup).None? || Lookup(trimmedDrop).None?
    ensures resp.BadRequest? ==> resp.error == UNRESOLVED
    ensures resp.Estimate? ==>
      && resp.pickup == Lookup(trimmedPickup).value
      && resp.drop == Lookup(trimmedDrop).value
      && resp.routeGeometry == FallbackRoute(resp.pickup, resp.drop)
      && resp.distanceKm > 0.0
      && (greatCircle(resp.pickup, resp.drop) == 0.0 ==> resp.distanceKm == 12.0)
      && (greatCircle(resp.pickup, resp.drop) > 0.0 ==> resp.distanceKm == greatCircle(resp.pickup, resp.drop))
      && resp.durationMin == Max(15.0, resp.distanceKm * 2.5)
      && resp.durationMin >= 15.0 && resp.durationMin >= resp.distanceKm * 2.5
      && resp.surgeMultiplier == SurgeMultiplier(hour)
      && resp.isOutstation == IsOutstation(resp.distanceKm)
      && resp.fares == FareTable(resp.distanceKm, resp.durationMin, resp.surgeMultiplier)
      && resp.estimated
  {
    var fbPickup := Lookup(trimmedPickup);
    var fbDrop := Lookup(trimmedDrop);
    if fbPickup.None? || fbDrop.None? then
      BadRequest(UNRESOLVED)
    else
      var measured := greatCircle(fbPickup.value, fbDrop.value);
      var distanceKm := if measured != 0.0 then measured else 12.0;
      var durationMin := Max(15.0, distanceKm * 2.5);
      var surge := SurgeMultiplier(hour);
      Estimate(fbPickup.value, fbDrop.value, FallbackRoute(fbPickup.value, fbDrop.value),
               distanceKm, durationMin, surge, distanceKm > 40.0,
               FareTable(distanceKm, durationMin, surge), true)
  }

  /** The `/calculate` handler. `defect` stands for an unexpected exception
      escaping the main path after the fares are computed, which sends the
      handler to its `catch` block. */
  method Calculate(pickup: Option<string>, drop: Option<string>,
                   geoPickup: Option<Coord>, geoDrop: Option<Coord>, route: Option<RouteReply>,
                   greatCircle: GreatCircle, hour: Hour, defect: bool)
    returns (resp: Response, calls: seq<Call>)
    requires NonNegative(greatCircle)
    // validation
    ensures TrimmedField(pickup) == [] || TrimmedField(drop) == [] ==>
              resp == BadRequest(INVALID_INPUT) && calls == []
    // geocoding: pickup, the mandatory pause, then drop, whatever the answers
    ensures TrimmedField(pickup) != [] && TrimmedField(drop) != [] ==>
              |calls| >= 3 && calls[..3] == [Geocode(TrimmedField(pickup)), Wait(GEOCODER_SPACING_MS), Geocode(TrimmedField(drop))]
    // an endpoint nothing resolves is a 400 naming it; pickup is reported first
    ensures TrimmedField(pickup) != [] && TrimmedField(drop) != [] && Resolve(geoPickup, TrimmedField(pickup)).None? ==>
              resp == BadRequest(NotFound(TrimmedField(pickup))) && |calls| == 3
    ensures TrimmedField(pickup) != [] && TrimmedField(drop) != [] && Resolve(geoPickup, TrimmedField(pickup)).Some?
            && Resolve(geoDrop, TrimmedField(drop)).None? ==>
              resp == BadRequest(NotFound(TrimmedField(drop))) && |calls| == 3
    // both endpoints resolved: one routing call, then the estimate
    ensures TrimmedField(pickup) != [] && TrimmedField(drop) != []
            && Resolve(geoPickup, TrimmedField(pickup)).Some? && Resolve(geoDrop, TrimmedField(drop)).Some? ==>
              && calls == [Geocode(TrimmedField(pickup)), Wait(GEOCODER_SPACING_MS), Geocode(TrimmedField(drop)),
                           Route(Resolve(geoPickup, TrimmedField(pickup)).value, Resolve(geoDrop, TrimmedField(drop)).value)]
              && (defect ==> resp == Recovery(TrimmedField(pickup), TrimmedField(drop), greatCircle, hour))
              && (!defect ==> resp.Estimate?)
    ensures !defect && resp.Estimate? ==>
              && resp.pickup == Resolve(geoPickup, TrimmedField(pickup)).value
              && resp.drop == Resolve(geoDrop, TrimmedField(drop)).value
              && resp.distanceKm >= 0.5 && resp.durationMin >= 5.0
              && resp.surgeMultiplier == SurgeMultiplier(hour)
              && resp.isOutstation == IsOutstation(resp.distanceKm)
              && resp.fares == FareTable(resp.distanceKm, resp.durationMin, resp.surgeMultiplier)
              && (resp.estimated <==> geoPickup.None? || geoDrop.None? || route.None?)
    // the router answered
    ensures !defect && resp.Estimate? && route.Some? ==>
              && resp.distanceKm == FloorDistance(route.value.distanceM / 1000.0)
              && resp.durationMin == FloorDuration(route.value.durationS / 60.0)
              && resp.routeGeometry == (if route.value.geometry.Some? then route.value.geometry.value
                                        else FallbackRoute(resp.pickup, resp.drop))
    // the router failed: great-circle distance and a straight line
    ensures !defect && resp.Estimate? && route.None? ==>
              && resp.distanceKm == FloorDistance(greatCircle(resp.pickup, resp.drop))
              && resp.durationMin == Max(10.0, greatCircle(resp.pickup, resp.drop) * 2.5)
              && resp.routeGeometry == FallbackRoute(resp.pickup, resp.drop)
  {
    var trimmedPickup := TrimmedField(pickup);
    var trimmedDrop := TrimmedField(drop);
    calls := [];
    if trimmedPickup == [] || trimmedDrop == [] {
      return BadRequest(INVALID_INPUT), calls;
    }

    var usedFallback := false;
    var pickupAt, dropAt := Coord(0.0, 0.0), Coord(0.0, 0.0);
    var gotPickup, gotDrop := false, false;

    // 1. geocoding, pickup then drop
    calls := calls + [Geocode(trimmedPickup)];
    if geoPickup.Some? {
      pickupAt, gotPickup := geoPickup.value, true;
    }
    calls := calls + [Wait(GEOCODER_SPACING_MS), Geocode(trimmedDrop)];
    if geoDrop.Some? {
      dropAt, gotDrop := geoDrop.value, true;
    }
    if !gotPickup {
      var fb := FallbackCoords(trimmedPickup);
      if fb.Some? {
        pickupAt, usedFallback := fb.value, true;
      } else {
        return BadRequest(NotFound(trimmedPickup)), calls;
      }
    }
    if !gotDrop {
      var fb := FallbackCoords(trimmedDrop);
      if fb.Some? {
        dropAt, usedFallback := fb.value, true;
      } else {
        return BadRequest(NotFound(trimmedDrop)), calls;
      }
    }

    // 2. routing
    calls := calls + [Route(pickupAt, dropAt)];
    var distanceKm, durationMin, geometry;
    if route.Some? {
      distanceKm := route.value.distanceM / 1000.0;
      durationMin := route.value.durationS / 60.0;
      geometry := if route.value.geometry.Some? then route.value.geometry.value else FallbackRoute(pickupAt, dropAt);
    } else {
      usedFallback := true;
      distanceKm := greatCircle(pickupAt, dropAt);
      durationMin := Max(10.0, distanceKm * 2.5);
      geometry := FallbackRoute(pickupAt, dropAt);
    }
    if distanceKm < 0.5 {
      distanceKm := 5.0;
    }
    if durationMin < 5.0 {
      durationMin := 15.0;
    }

    // 3. fares
    var surge := SurgeMultiplier(hour);
    var fares := CalculateFares(distanceKm, durationMin, surge);
    var isOutstation := distanceKm > 40.0;

    if defect {
      resp := Recovery(trimmedPickup, trimmedDrop, greatCircle, hour);
    } else {
      resp := Estimate(pickupAt, dropAt, geometry, distanceKm, durationMin, surge, isOutstation, fares, usedFallback);
    }
  }

  /** Chennai to Salem with both external services down: both ends come from
      the gazetteer, the great-circle distance is used, the trip is an
      outstation trip priced with the 15 percent markup, and the result is
      reported as an estimate. */
  method ChennaiToSalemScenario(greatCircle: GreatCircle, hour: Hour) returns (resp: Response)
    requires NonNegative(greatCircle) && greatCircle(CHENNAI, SALEM) > 40.0
    ensures resp.Estimate? && resp.pickup == CHENNAI && resp.drop == SALEM
    ensures resp.distanceKm == greatCircle(CHENNAI, SALEM)
    ensures resp.isOutstation && OutstationFactor(resp.distanceKm) == 1.15
    ensures resp.routeGeometry == FallbackRoute(CHENNAI, SALEM)
    ensures resp.estimated
  {
    CityExamples();
    TrimKeeps("Chennai");
    TrimKeeps("Salem");
    var calls;
    resp, calls := Calculate(Some("Chennai"), Some("Salem"), None, None, None, greatCircle, hour, false);
  }
}
