/**
 * The value types the planner works on: transport modes, geographic points,
 * route requests and route responses, plus the two pieces of code outside the
 * model that every strategy depends on (the great-circle distance and Java's
 * rendering of a double as text).
 */
module Domain {
  import opened Wrappers

  /** The closed enumeration of transport modes. */
  datatype TransportMode = CAR | BIKE | MOTORCYCLE

  /** `Enum.name()`: the identifier of the constant. */
  function ModeName(m: TransportMode): string
  {
    match m
    case CAR => "CAR"
    case BIKE => "BIKE"
    case MOTORCYCLE => "MOTORCYCLE"
  }

  /** `Enum.valueOf`: the constant whose name is exactly `s`, if there is one. */
  function ModeNamed(s: string): (r: Option<TransportMode>)
    ensures r.Some? ==> ModeName(r.value) == s
    ensures r.None? <==> forall m :: ModeName(m) != s
  {
    if s == "CAR" then Some(CAR)
    else if s == "BIKE" then Some(BIKE)
    else if s == "MOTORCYCLE" then Some(MOTORCYCLE)
    else None
  }

  /** Distinct constants have distinct names, so a name identifies its constant. */
  lemma ModeNameInjective(m: TransportMode, n: TransportMode)
    ensures ModeName(m) == ModeName(n) <==> m == n
  {
    if ModeName(m) == ModeName(n) {
      assert ModeNamed(ModeName(m)) == Some(m);
    }
  }

  /** A point given by latitude and longitude in degrees. */
  datatype GeoPoint = GeoPoint(lat: real, lon: real)

  /** What a client asks for: where from, where to, and how. */
  datatype RouteRequest = RouteRequest(origin: GeoPoint, destination: GeoPoint, mode: TransportMode)

  /** What a strategy answers: distance (km), whole minutes, narrative steps and the mode's name. */
  datatype RouteResponse = RouteResponse(distanceKm: real, durationMinutes: int, steps: seq<string>, mode: string)

  /** A distance in kilometres; never negative. */
  type Km = r: real | r >= 0.0

  /** A point in time (LocalDateTime), as an ordered count of clock ticks. */
  type Timestamp = int

  /**
   * The collaborators the strategies call but the model does not implement:
   * the haversine distance (floating-point trigonometry, so only its
   * nonnegativity is known) and Java's `Double.toString`.
   */
  datatype Env = Env(distance: (GeoPoint, GeoPoint) -> Km, showDouble: real -> string)

  /** The distance a strategy computes for a request. */
  function RouteDistance(req: RouteRequest, env: Env): Km
  {
    env.distance(req.origin, req.destination)
  }

  /** The record's `toString`: `GeoPoint[lat=…, lon=…]`. */
  function GeoPointText(p: GeoPoint, env: Env): string
  {
    "GeoPoint[lat=" + env.showDouble(p.lat) + ", lon=" + env.showDouble(p.lon) + "]"
  }

  /** The record's `toString`: `RouteRequest[origin=…, destination=…, mode=…]`. */
  function RouteRequestText(req: RouteRequest, env: Env): string
  {
    "RouteRequest[origin=" + GeoPointText(req.origin, env)
    + ", destination=" + GeoPointText(req.destination, env)
    + ", mode=" + ModeName(req.mode) + "]"
  }
}
