/**
 * The route strategies: one per transport mode, each a pure function of the
 * request and the distance between its two points. They differ only in the
 * average speed, the narrative steps and the mode name.
 */
module Strategies {
  import opened Domain

  /** Java's `(int)` cast of a double: truncation toward zero (int range overflow not modelled). */
  function Truncate(x: real): (r: int)
    ensures 0.0 <= x ==> 0 <= r && r as real <= x < r as real + 1.0
    ensures x < 0.0 ==> r <= 0 && r as real - 1.0 < x <= r as real
  {
    if x >= 0.0 then x.Floor else -((-x).Floor)
  }

  /** Java's `Math.round`: the nearest integer, halves rounded up (long range overflow not modelled). */
  function JavaRound(x: real): (r: int)
    ensures r as real - 0.5 <= x < r as real + 0.5
  {
    (x + 0.5).Floor
  }

  /** True when `r` is a whole number of hundredths. */
  predicate IsHundredths(r: real)
  {
    (r * 100.0).Floor as real == r * 100.0
  }

  /** The strategies' private `round`: `Math.round(value * 100.0) / 100.0`. */
  function Round2(v: real): (r: real)
    ensures IsHundredths(r)
    ensures v - 0.005 < r <= v + 0.005
  {
    var k := JavaRound(v * 100.0);
    assert (k as real / 100.0) * 100.0 == k as real;
    k as real / 100.0
  }

  /**
   * `m` is the travel time in whole minutes, truncated, for covering `d` km
   * at `speed` km/h: the largest whole number not above `d / speed * 60`.
   */
  predicate TravelMinutes(m: int, d: real, speed: real)
    requires speed > 0.0
  {
    0 <= m && m as real <= d / speed * 60.0 < m as real + 1.0
  }

  /** CarRouteStrategy.compute: 80 km/h, three steps over major highways. */
  function CarRoute(req: RouteRequest, env: Env): (r: RouteResponse)
    ensures r.mode == "CAR"
    ensures TravelMinutes(r.durationMinutes, RouteDistance(req, env), 80.0)
    ensures r.distanceKm == Round2(RouteDistance(req, env))
    ensures r.steps == ["Start at " + GeoPointText(req.origin, env),
                        "Drive on major highways",
                        "Arrive at " + GeoPointText(req.destination, env)]
  {
    var distance := RouteDistance(req, env);
    var duration := Truncate(distance / 80.0 * 60.0);
    var steps := ["Start at " + GeoPointText(req.origin, env),
                  "Drive on major highways",
                  "Arrive at " + GeoPointText(req.destination, env)];
    RouteResponse(Round2(distance), duration, steps, "CAR")
  }

  /** BikeRouteStrategy.compute: 15 km/h, four steps avoiding highways. */
  function BikeRoute(req: RouteRequest, env: Env): (r: RouteResponse)
    ensures r.mode == "BIKE"
    ensures TravelMinutes(r.durationMinutes, RouteDistance(req, env), 15.0)
    ensures r.distanceKm == Round2(RouteDistance(req, env))
    ensures r.steps == ["Start at " + GeoPointText(req.origin, env),
                        "Follow bike paths and secondary roads",
                        "Avoid highways",
                        "Arrive at " + GeoPointText(req.destination, env)]
  {
    var distance := RouteDistance(req, env);
    var duration := Truncate(distance / 15.0 * 60.0);
    var steps := ["Start at " + GeoPointText(req.origin, env),
                  "Follow bike paths and secondary roads",
                  "Avoid highways",
                  "Arrive at " + GeoPointText(req.destination, env)];
    RouteResponse(Round2(distance), duration, steps, "BIKE")
  }

  /** MotorcycleRouteStrategy.compute: 60 km/h, three Spanish steps, mode from the enum constant. */
  function MotorcycleRoute(req: RouteRequest, env: Env): (r: RouteResponse)
    ensures r.mode == ModeName(MOTORCYCLE)
    ensures TravelMinutes(r.durationMinutes, RouteDistance(req, env), 60.0)
    ensures r.distanceKm == Round2(RouteDistance(req, env))
    ensures r.steps == ["Inicio en " + GeoPointText(req.origin, env),
                        "Toma una ruta flexible, usando carreteras principales y algunos atajos",
                        "Llegada a " + GeoPointText(req.destination, env)]
  {
    var distance := RouteDistance(req, env);
    var duration := Truncate(distance / 60.0 * 60.0);
    var steps := ["Inicio en " + GeoPointText(req.origin, env),
                  "Toma una ruta flexible, usando carreteras principales y algunos atajos",
                  "Llegada a " + GeoPointText(req.destination, env)];
    RouteResponse(Round2(distance), duration, steps, ModeName(MOTORCYCLE))
  }

  /**
   * The three strategy beans. Each is stateless; `Mode` is the key the
   * registry files it under.
   */
  datatype Strategy = CarRouteStrategy | BikeRouteStrategy | MotorcycleRouteStrategy
  {
    function Mode(): TransportMode
    {
      match this
      case CarRouteStrategy => CAR
      case BikeRouteStrategy => BIKE
      case MotorcycleRouteStrategy => MOTORCYCLE
    }

    /** The average speed, in km/h, the strategy assumes. */
    function Speed(): (s: real)
      ensures s > 0.0
    {
      match this
      case CarRouteStrategy => 80.0
      case BikeRouteStrategy => 15.0
      case MotorcycleRouteStrategy => 60.0
    }

    /** `RouteStrategy.compute`, dispatched to the strategy's own computation. */
    function Compute(req: RouteRequest, env: Env): (r: RouteResponse)
      ensures r.mode == ModeName(Mode())
      ensures TravelMinutes(r.durationMinutes, RouteDistance(req, env), Speed())
      ensures r.distanceKm == Round2(RouteDistance(req, env))
      ensures 3 <= |r.steps| <= 4
    {
      match this
      case CarRouteStrategy => CarRoute(req, env)
      case BikeRouteStrategy => BikeRoute(req, env)
      case MotorcycleRouteStrategy => MotorcycleRoute(req, env)
    }
  }

  /** Truncated travel minutes are unique: they are the floor of the exact travel time. */
  lemma TravelMinutesUnique(m: int, n: int, d: real, speed: real)
    requires speed > 0.0
    requires TravelMinutes(m, d, speed) && TravelMinutes(n, d, speed)
    ensures m == n
  {
  }

  /** Rounding to hundredths picks the unique hundredth in (v - 0.005, v + 0.005]. */
  lemma {:induction false} Round2Unique(v: real, k: int)
    requires v - 0.005 < k as real / 100.0 <= v + 0.005
    ensures Round2(v) == k as real / 100.0
  {
    var j := JavaRound(v * 100.0);
    assert j as real / 100.0 == Round2(v);
    assert k as real - 0.5 <= v * 100.0 < k as real + 0.5;
    assert j == k;
  }

  /** Halves round up: a distance exactly halfway between two hundredths goes to the upper one. */
  lemma Round2HalfUp(k: int)
    ensures Round2((k as real + 0.5) / 100.0) == (k + 1) as real / 100.0
  {
    Round2Unique((k as real + 0.5) / 100.0, k + 1);
  }

  /** Rounding twice changes nothing. */
  lemma Round2Idempotent(v: real)
    ensures Round2(Round2(v)) == Round2(v)
  {
    var r := Round2(v);
    var k := (r * 100.0).Floor;
    assert k as real / 100.0 == r;
    Round2Unique(r, k);
  }

  /** Rounding keeps a distance nonnegative. */
  lemma Round2Nonnegative(v: real)
    requires v >= 0.0
    ensures Round2(v) >= 0.0
  {
    var k := JavaRound(v * 100.0);
    assert k >= 0;
  }

  /** Every strategy's duration is a nonnegative number of minutes. */
  lemma DurationNonnegative(s: Strategy, req: RouteRequest, env: Env)
    ensures s.Compute(req, env).durationMinutes >= 0
  {
  }

  /**
   * For one request the faster strategy never takes longer:
   * car (80 km/h) <= motorcycle (60 km/h) <= bike (15 km/h).
   */
  lemma DurationsOrderedBySpeed(req: RouteRequest, env: Env)
    ensures CarRoute(req, env).durationMinutes <= MotorcycleRoute(req, env).durationMinutes
    ensures MotorcycleRoute(req, env).durationMinutes <= BikeRoute(req, env).durationMinutes
  {
    var d := RouteDistance(req, env);
    assert d / 80.0 * 60.0 <= d / 60.0 * 60.0 <= d / 15.0 * 60.0;
  }

  /** At 60 km/h the minutes are the whole kilometres of the unrounded distance. */
  lemma MotorcycleMinutesAreWholeKm(req: RouteRequest, env: Env)
    ensures MotorcycleRoute(req, env).durationMinutes == RouteDistance(req, env).Floor
  {
    var d := RouteDistance(req, env);
    assert d / 60.0 * 60.0 == d;
  }

  /** A 100 km trip by car takes 75 minutes. */
  lemma CarHundredKilometres(req: RouteRequest, env: Env)
    requires RouteDistance(req, env) == 100.0
    ensures CarRoute(req, env).durationMinutes == 75
  {
    TravelMinutesUnique(CarRoute(req, env).durationMinutes, 75, 100.0, 80.0);
  }
}
