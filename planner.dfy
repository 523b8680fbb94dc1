/**
 * The route planner: a registry from transport mode to strategy, built once
 * from the available strategy beans, and `planRoute`, which selects the
 * strategy, computes the route and writes a statistics row through to the
 * stats table before answering. Repeated identical requests are answered
 * from a cache.
 */
module Planner {
  import opened Wrappers
  import opened Domain
  import opened Errors
  import opened Strategies
  import opened Entities
  import opened Repositories

  /** The beans the container finds: one of each strategy. */
  const AvailableStrategies: seq<Strategy> := [CarRouteStrategy, BikeRouteStrategy, MotorcycleRouteStrategy]

  /** No two beans declare the same mode. */
  predicate DistinctModes(beans: seq<Strategy>)
  {
    forall i, j :: 0 <= i < j < |beans| ==> beans[i].Mode() != beans[j].Mode()
  }

  /**
   * `Collectors.toMap(RouteStrategy::getMode, identity())` over the beans in
   * order: the first repeated key makes the collector throw.
   */
  function BuildRegistry(beans: seq<Strategy>): (r: Result<map<TransportMode, Strategy>, Exception>)
    ensures r.Success? <==> DistinctModes(beans)
    ensures r.Success? ==> forall m :: m in r.value <==> exists b :: b in beans && b.Mode() == m
    ensures r.Success? ==> forall m :: m in r.value ==> r.value[m].Mode() == m && r.value[m] in beans
  {
    if beans == [] then Success(map[])
    else
      var init := beans[..|beans| - 1];
      var b := beans[|beans| - 1];
      match BuildRegistry(init)
      case Failure(e) => Failure(e)
      case Success(m) =>
        if b.Mode() in m then
          Failure(OtherException("Duplicate key " + ModeName(b.Mode())))
        else
          assert forall x :: x in beans <==> x in init || x == b;
          Success(m[b.Mode() := b])
  }

  /** What `planRoute` answers, leaving aside the statistics write: lookup, then compute. */
  function Plan(strategies: map<TransportMode, Strategy>, req: RouteRequest, env: Env): (r: Result<RouteResponse, Exception>)
    ensures r.Failure? <==> req.mode !in strategies
    ensures r.Failure? ==> r.error == UnsupportedMode(req.mode)
    ensures r.Success? ==> r.value == strategies[req.mode].Compute(req, env)
  {
    if req.mode in strategies then Success(strategies[req.mode].Compute(req, env))
    else Failure(UnsupportedMode(req.mode))
  }

  /** The statistics row `saveRouteStatistics` writes for a request and its response. */
  function StatsRowFor(id: int, req: RouteRequest, resp: RouteResponse, now: Timestamp): RouteStatsRow
  {
    RouteStatsRow(id, req.origin.lat, req.origin.lon, req.destination.lat, req.destination.lon,
                  resp.mode, resp.distanceKm, resp.durationMinutes, now)
  }

  /**
   * For any bean list whose registry builds, a mode is served exactly when
   * some bean declares it, and the answer is named after the requested mode.
   */
  lemma RegistryServesDeclaredModes(beans: seq<Strategy>, req: RouteRequest, env: Env)
    requires BuildRegistry(beans).Success?
    ensures Plan(BuildRegistry(beans).value, req, env).Success? <==> exists b :: b in beans && b.Mode() == req.mode
    ensures Plan(BuildRegistry(beans).value, req, env).Success? ==>
              Plan(BuildRegistry(beans).value, req, env).value.mode == ModeName(req.mode)
  {
  }

  /**
   * With the three available strategies every mode is served, and the
   * response is the computation of the strategy for the requested mode,
   * named after it.
   */
  lemma AvailableRegistryServesEveryMode(req: RouteRequest, env: Env)
    ensures BuildRegistry(AvailableStrategies).Success?
    ensures Plan(BuildRegistry(AvailableStrategies).value, req, env).Success?
    ensures Plan(BuildRegistry(AvailableStrategies).value, req, env).value.mode == ModeName(req.mode)
  {
    var beans := AvailableStrategies;
    assert DistinctModes(beans);
    var m := BuildRegistry(beans).value;
    var b := match req.mode
      case CAR => CarRouteStrategy
      case BIKE => BikeRouteStrategy
      case MOTORCYCLE => MotorcycleRouteStrategy;
    assert b in beans && b.Mode() == req.mode;
    assert req.mode in m;
  }

  /** A registry with two beans for one mode cannot be built. */
  lemma DuplicateModeRejected(beans: seq<Strategy>, i: int, j: int)
    requires 0 <= i < j < |beans| && beans[i].Mode() == beans[j].Mode()
    ensures BuildRegistry(beans).Failure?
  {
  }

  class RoutePlanner {
    /** The registry `init` builds. */
    var strategies: map<TransportMode, Strategy>
    /** The "routes" cache, keyed by the whole request. */
    var cache: map<RouteRequest, RouteResponse>
    const repository: RouteStatsRepository
    const env: Env

    /** The table is consistent and every cached response is what planning would compute now. */
    ghost predicate Valid()
      reads this, repository
    {
      && repository.Valid()
      && forall q :: q in cache ==> Plan(strategies, q, env) == Success(cache[q])
    }

    /** The constructor: no strategies are registered until `Init` runs. */
    constructor (repository: RouteStatsRepository, env: Env)
      requires repository.Valid()
      ensures Valid()
      ensures strategies == map[] && cache == map[]
      ensures this.repository == repository && this.env == env
    {
      strategies := map[];
      cache := map[];
      this.repository := repository;
      this.env := env;
    }

    /**
     * `init` (run once by the container, before any request): builds the
     * registry from the beans; a duplicate mode makes it fail and leaves
     * the registry as it was.
     */
    method Init(beans: seq<Strategy>) returns (o: Outcome<Exception>)
      requires Valid() && cache == map[]
      modifies this`strategies
      ensures Valid()
      ensures BuildRegistry(beans).Success? ==> o == Pass && strategies == BuildRegistry(beans).value
      ensures BuildRegistry(beans).Failure? ==>
                o == Fail(BuildRegistry(beans).error) && strategies == old(strategies)
    {
      var built := BuildRegistry(beans);
      if built.Failure? {
        return Fail(built.error);
      }
      strategies := built.value;
      o := Pass;
    }

    /**
     * `saveRouteStatistics`: builds the stats entity from the request and
     * the response and saves it; `fault` is the store's failure, if any.
     */
    method SaveRouteStatistics(req: RouteRequest, resp: RouteResponse, now: Timestamp,
                               fault: Option<Exception>) returns (o: Outcome<Exception>)
      requires Valid()
      modifies repository
      ensures Valid()
      ensures fault.Some? ==> o == Fail(fault.value) && repository.rows == old(repository.rows)
      ensures fault.None? ==>
                o == Pass &&
                repository.rows == old(repository.rows) + [StatsRowFor(old(repository.nextId), req, resp, now)]
    {
      var stats := new RouteStats(req.origin.lat, req.origin.lon,
                                  req.destination.lat, req.destination.lon,
                                  resp.mode, resp.distanceKm, resp.durationMinutes, now);
      o := repository.Save(stats, fault);
    }

    /**
     * The body of `planRoute`: an unsupported mode fails before anything is
     * computed or written; otherwise the response is computed, one row is
     * written, and the response is returned only if the write succeeded.
     */
    method PlanRoute(req: RouteRequest, now: Timestamp, saveFault: Option<Exception>)
      returns (r: Result<RouteResponse, Exception>)
      requires Valid()
      modifies repository
      ensures Valid()
      ensures req.mode !in strategies ==>
                r == Failure(UnsupportedMode(req.mode)) && repository.rows == old(repository.rows)
      ensures req.mode in strategies && saveFault.Some? ==>
                r == Failure(saveFault.value) && repository.rows == old(repository.rows)
      ensures req.mode in strategies && saveFault.None? ==>
                r == Success(strategies[req.mode].Compute(req, env)) &&
                repository.rows == old(repository.rows) + [StatsRowFor(old(repository.nextId), req, r.value, now)]
      ensures r.Success? ==> r == Plan(strategies, req, env)
    {
      if req.mode !in strategies {
        return Failure(UnsupportedMode(req.mode));
      }
      var strategy := strategies[req.mode];
      var response := strategy.Compute(req, env);
      var saved := SaveRouteStatistics(req, response, now, saveFault);
      if saved.Fail? {
        return Failure(saved.error);
      }
      r := Success(response);
    }

    /**
     * `planRoute` behind its cache: a cached request is answered from the
     * cache with no computation and no write; otherwise the body runs and a
     * successful answer is cached. Failures are not cached.
     */
    method PlanRouteCached(req: RouteRequest, now: Timestamp, saveFault: Option<Exception>)
      returns (r: Result<RouteResponse, Exception>)
      requires Valid()
      modifies this`cache, repository
      ensures Valid()
      ensures r.Success? ==> r == Plan(strategies, req, env)
      ensures req in old(cache) ==>
                r == Success(old(cache)[req]) && cache == old(cache) && repository.rows == old(repository.rows)
      ensures req !in old(cache) && req.mode !in strategies ==>
                r == Failure(UnsupportedMode(req.mode)) && repository.rows == old(repository.rows)
      ensures req !in old(cache) && req.mode in strategies && saveFault.Some? ==>
                r == Failure(saveFault.value) && repository.rows == old(repository.rows)
      ensures req !in old(cache) && req.mode in strategies && saveFault.None? ==>
                r.Success? &&
                repository.rows == old(repository.rows) + [StatsRowFor(old(repository.nextId), req, r.value, now)]
      ensures req !in old(cache) ==> cache == if r.Success? then old(cache)[req := r.value] else old(cache)
    {
      if req in cache {
        return Success(cache[req]);
      }
      r := PlanRoute(req, now, saveFault);
      if r.Success? {
        cache := cache[req := r.value];
      }
    }

    /**
     * Two identical requests in a row, each with a working store: the same
     * answer twice and exactly one statistics row.
     */
    method RepeatedRequestIsCached(req: RouteRequest, now: Timestamp, later: Timestamp)
      returns (first: Result<RouteResponse, Exception>, second: Result<RouteResponse, Exception>)
      requires Valid()
      modifies this`cache, repository
      ensures Valid()
      ensures first == second
      ensures req.mode in strategies && req !in old(cache) ==>
                |repository.rows| == |old(repository.rows)| + 1
      ensures req.mode !in strategies ==> repository.rows == old(repository.rows)
      ensures req in old(cache) ==> repository.rows == old(repository.rows)
      ensures |repository.rows| <= |old(repository.rows)| + 1
    {
      first := PlanRouteCached(req, now, None);
      second := PlanRouteCached(req, later, None);
    }
  }
}
