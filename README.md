# Route planner core, modelled in Dafny

This project models the route-planning core of the navigator service:

- the three route strategies (car, bike, motorcycle). Each is a pure function of a request and the
  great-circle distance between its two points.
- the strategy registry, built once from the available strategy beans and keyed by transport mode.
- `planRoute`: look up the strategy, compute the route, write one statistics row through to the
  `route_stats` table, and answer. A cache keyed by the whole request sits in front of it.
- the audit decorator and the audit service. Every audited call leaves one entry in a separate
  `audit_entries` table, recording its result or its error, and errors are rethrown.
- the retention delete on the statistics table, the two input validators, and the global
  exception handler that turns exceptions into error responses.

Layout, one module per file:

- `wrappers.dfy`: Option, Result, Outcome.
- `domain.dfy`: modes, points, requests, responses, and the environment of outside code.
- `strategies.dfy`: the three strategies and their rounding.
- `errors.dfy`: the exception kinds.
- `entities.dfy`: the `RouteStats` and `AuditEntry` entity classes and their row values.
- `repositories.dfy`: the two tables as classes.
- `planner.dfy`: registry and `RoutePlanner`.
- `text.dfy`: joining strings.
- `auditing.dfy`: `AuditService`, `AuditAspect`.
- `validation.dfy`: the two validators.
- `exception_handler.dfy`: `GlobalExceptionHandler`.
- `audited_planning.dfy`: the audited endpoint, i.e. the planner wrapped by the decorator.

State that the source changes in place is held in classes:

- the planner's registry and cache;
- each table's rows and identity counter;
- the entities' fields.

Everything else is datatypes and functions.

Resolved inconsistencies, and behaviour the model takes from the code:

- The strategy interface declares `String mode()`. Car and bike implement it, while the
  motorcycle strategy implements `TransportMode getMode()` and the planner keys its map by
  `getMode`. The model gives every strategy one `Mode(): TransportMode`. The response's mode
  string is that constant's name, which is the literal each strategy returns.
- Duration is the truncation `(int)(distance / speed * 60)`, not a rounding.
- A failed statistics write propagates out of `planRoute`, so no response is returned.
- The coordinate validator accepts [-180, 180] for latitude as well (see Findings).

Outside code is passed in as parameters:

- the haversine distance, typed to be nonnegative (`Domain.Env.distance`);
- Java's `Double.toString` (`Domain.Env.showDouble`);
- the clock (`now`);
- the bean list the container discovers;
- the failure of each database write (`fault` parameters).

## Model

| member | source | states |
|---|---|---|
| Domain.ModeNamed | src/main/java/com/froy/navigator/model/TransportMode.java:7-11 | the constant named exactly `s` is found when there is one, and none is found only when no constant has that name |
| Domain.ModeNameInjective | src/main/java/com/froy/navigator/model/TransportMode.java:7-11 | two constants share a name only if they are the same constant |
| Strategies.Truncate | src/main/java/com/froy/navigator/strategy/CarRouteStrategy.java:21 | the `(int)` cast truncates toward zero: a nonnegative value is cut to the whole number at or below it, a negative one to the whole number at or above it |
| Strategies.JavaRound | src/main/java/com/froy/navigator/strategy/CarRouteStrategy.java:36 | `Math.round` gives the integer within one half of the value, with halves going up |
| Strategies.Round2 | src/main/java/com/froy/navigator/strategy/CarRouteStrategy.java:35-37 | the rounded distance is a whole number of hundredths, within (v - 0.005, v + 0.005] of the input |
| Strategies.CarRoute | src/main/java/com/froy/navigator/strategy/CarRouteStrategy.java:17-33 | mode "CAR"; duration is the whole minutes, not above the exact time, for driving the unrounded distance at 80 km/h; distance rounded to hundredths; exactly the three car steps naming origin and destination |
| Strategies.BikeRoute | src/main/java/com/froy/navigator/strategy/BikeRouteStrategy.java:17-34 | mode "BIKE"; whole minutes at 15 km/h from the unrounded distance; distance rounded to hundredths; exactly the four bike steps |
| Strategies.MotorcycleRoute | src/main/java/com/froy/navigator/strategy/MotorcycleRouteStrategy.java:19-35 | mode is the name of `MOTORCYCLE`; whole minutes at 60 km/h; distance rounded to hundredths; exactly the three Spanish steps |
| Strategies.Strategy.Speed | src/main/java/com/froy/navigator/strategy/CarRouteStrategy.java:21 | every strategy's average speed is positive |
| Strategies.Strategy.Compute | src/main/java/com/froy/navigator/strategy/RouteStrategy.java:19-26 | whichever strategy computes, the response mode is the name of the mode that strategy is registered under; minutes and rounding follow its speed; three or four steps |
| Strategies.TravelMinutesUnique | src/main/java/com/froy/navigator/strategy/CarRouteStrategy.java:21 | the truncated minute count for a distance and a speed is unique |
| Strategies.Round2Unique | src/main/java/com/froy/navigator/strategy/CarRouteStrategy.java:35-37 | rounding agrees with the independent definition: the one hundredth in (v - 0.005, v + 0.005] |
| Strategies.Round2HalfUp | src/main/java/com/froy/navigator/strategy/BikeRouteStrategy.java:36-38 | a value halfway between two hundredths rounds to the upper one |
| Strategies.Round2Idempotent | src/main/java/com/froy/navigator/strategy/MotorcycleRouteStrategy.java:37-39 | rounding an already rounded distance changes nothing |
| Strategies.Round2Nonnegative | src/main/java/com/froy/navigator/strategy/CarRouteStrategy.java:35-37 | a nonnegative distance stays nonnegative after rounding |
| Strategies.DurationNonnegative | src/main/java/com/froy/navigator/strategy/CarRouteStrategy.java:21 | every strategy's duration is at least zero, since distances are never negative |
| Strategies.DurationsOrderedBySpeed | src/main/java/com/froy/navigator/strategy/MotorcycleRouteStrategy.java:23 | for one request, car minutes <= motorcycle minutes <= bike minutes |
| Strategies.MotorcycleMinutesAreWholeKm | src/main/java/com/froy/navigator/strategy/MotorcycleRouteStrategy.java:23 | at 60 km/h the minutes are the whole kilometres of the unrounded distance |
| Strategies.CarHundredKilometres | src/main/java/com/froy/navigator/strategy/CarRouteStrategy.java:21 | 100 km by car is 75 minutes |
| Entities.RouteStats.constructor | src/main/java/com/froy/navigator/entity/RouteStats.java:46-56 | the seven arguments land in their fields in order, the calculation time is the clock reading, and the id is unset |
| Entities.RouteStats.SetId | src/main/java/com/froy/navigator/entity/RouteStats.java:63-65 | sets the id and may change no other field |
| Entities.RouteStats.SetOriginLat | src/main/java/com/froy/navigator/entity/RouteStats.java:71-73 | sets originLat and may change no other field |
| Entities.RouteStats.SetOriginLon | src/main/java/com/froy/navigator/entity/RouteStats.java:79-81 | sets originLon and may change no other field |
| Entities.RouteStats.SetDestinationLat | src/main/java/com/froy/navigator/entity/RouteStats.java:87-89 | sets destinationLat and may change no other field |
| Entities.RouteStats.SetDestinationLon | src/main/java/com/froy/navigator/entity/RouteStats.java:95-97 | sets destinationLon and may change no other field |
| Entities.RouteStats.SetModeUsed | src/main/java/com/froy/navigator/entity/RouteStats.java:103-105 | sets modeUsed and may change no other field |
| Entities.RouteStats.SetDistanceKm | src/main/java/com/froy/navigator/entity/RouteStats.java:111-113 | sets distanceKm and may change no other field |
| Entities.RouteStats.SetDurationMinutes | src/main/java/com/froy/navigator/entity/RouteStats.java:119-121 | sets durationMinutes and may change no other field |
| Entities.RouteStats.SetCalculationTime | src/main/java/com/froy/navigator/entity/RouteStats.java:127-129 | sets calculationTime and may change no other field |
| Entities.AuditEntry.constructor | src/main/java/com/froy/navigator/entity/AuditEntry.java:31-35 | action and message stored as given, timestamp is the clock reading, id unset |
| Entities.AuditEntry.SetId | src/main/java/com/froy/navigator/entity/AuditEntry.java:42-44 | sets the id and may change no other field |
| Entities.AuditEntry.SetAction | src/main/java/com/froy/navigator/entity/AuditEntry.java:50-52 | sets the action and may change no other field |
| Entities.AuditEntry.SetTimestamp | src/main/java/com/froy/navigator/entity/AuditEntry.java:58-60 | sets the timestamp and may change no other field |
| Entities.AuditEntry.SetMessage | src/main/java/com/froy/navigator/entity/AuditEntry.java:66-68 | sets the message and may change no other field |
| Repositories.Retained | src/main/java/com/froy/navigator/repository/RouteStatsRepository.java:28 | a row survives the delete exactly when its calculation time is at or after the cutoff, including rows equal to it |
| Repositories.Removed | src/main/java/com/froy/navigator/repository/RouteStatsRepository.java:28 | a row is deleted exactly when its calculation time is strictly before the cutoff |
| Repositories.RetainedRemovedPartition | src/main/java/com/froy/navigator/repository/RouteStatsRepository.java:23-29 | kept and deleted rows together are the old table (as a multiset), so kept + deleted = old size |
| Repositories.RetainedIdempotent | src/main/java/com/froy/navigator/repository/RouteStatsRepository.java:28 | a second delete with the same cutoff keeps everything and removes nothing |
| Repositories.RetainedKeepsOrder | src/main/java/com/froy/navigator/repository/RouteStatsRepository.java:28 | surviving rows keep their order, so keys still increase along the table |
| Repositories.RouteStatsRepository.Save | src/main/java/com/froy/navigator/repository/RouteStatsRepository.java:17 | a successful save appends exactly the entity's row under the next key and writes the key back; a failed one changes neither table nor entity |
| Repositories.RouteStatsRepository.DeleteOldRouteStats | src/main/java/com/froy/navigator/repository/RouteStatsRepository.java:19-29 | the table becomes the kept rows; the count returned is the number of rows removed, between 0 and the old size |
| Repositories.AuditEntryRepository.Save | src/main/java/com/froy/navigator/repository/AuditEntryRepository.java:12 | a successful save appends exactly the entry's row under the next key; a failed one changes nothing |
| Planner.BuildRegistry | src/main/java/com/froy/navigator/service/RoutePlanner.java:60-63 | building succeeds exactly when no two beans declare the same mode; then the keys are exactly the declared modes and each key maps to a bean declaring that mode |
| Planner.DuplicateModeRejected | src/main/java/com/froy/navigator/service/RoutePlanner.java:63 | two beans with one mode make the build fail |
| Planner.Plan | src/main/java/com/froy/navigator/service/RoutePlanner.java:76-82 | fails exactly when the mode has no strategy, with the "Modo de transporte no soportado: <mode>" business error; otherwise the selected strategy's computation |
| Planner.RegistryServesDeclaredModes | src/main/java/com/froy/navigator/service/RoutePlanner.java:60-82 | for any bean list whose registry builds, a mode is served exactly when some bean declares it, and a served answer names the requested mode |
| Planner.AvailableRegistryServesEveryMode | src/main/java/com/froy/navigator/service/RoutePlanner.java:60-82 | with the three strategies the registry builds, every mode is served and the response names the requested mode |
| Planner.RoutePlanner.constructor | src/main/java/com/froy/navigator/service/RoutePlanner.java:39-42 | a new planner has no strategies and an empty cache |
| Planner.RoutePlanner.Init | src/main/java/com/froy/navigator/service/RoutePlanner.java:50-64 | on success the registry is the built map; on a duplicate mode the error is raised and the registry is unchanged |
| Planner.RoutePlanner.SaveRouteStatistics | src/main/java/com/froy/navigator/service/RoutePlanner.java:100-107 | appends exactly one row: origin lat/lon, destination lat/lon, response mode, distance, minutes, clock reading; a failed write appends nothing and reports the failure |
| Planner.RoutePlanner.PlanRoute | src/main/java/com/froy/navigator/service/RoutePlanner.java:74-92 | unsupported mode: business error, table unchanged; failed write: that failure, table unchanged; otherwise the strategy's response and exactly one new row built from request and response |
| Planner.RoutePlanner.PlanRouteCached | src/main/java/com/froy/navigator/service/RoutePlanner.java:73-92 | a cached request gets the cached answer with no new row; an uncached one runs the body and only a success is cached; every answer equals what planning computes, so the cache never changes a value |
| Planner.RoutePlanner.RepeatedRequestIsCached | src/main/java/com/froy/navigator/service/RoutePlanner.java:73 | two identical calls give the same answer and add at most one row; none when the request was already cached, and none for an unsupported mode |
| Text.JoinAppend | src/main/java/com/froy/navigator/exception/GlobalExceptionHandler.java:61-63 | joining two nonempty lists is joining each with one separator between them |
| Auditing.ResultAndErrorMessagesDiffer | src/main/java/com/froy/navigator/service/auditing/AuditAspect.java:47-54 | the success message and the failure message of one call are never equal |
| Auditing.AuditService.constructor | src/main/java/com/froy/navigator/service/auditing/AuditService.java:25-27 | the service writes to the repository it is given |
| Auditing.AuditService.Audit | src/main/java/com/froy/navigator/service/auditing/AuditService.java:37-41 | appends exactly one entry with this action, message and clock reading and leaves earlier entries alone; a failed write rolls back, leaving the log unchanged, and throws |
| Auditing.AuditAspect.constructor | src/main/java/com/froy/navigator/service/auditing/AuditAspect.java:27-29 | the aspect audits through the service it is given |
| Auditing.AuditAspect.AuditOperation | src/main/java/com/froy/navigator/service/auditing/AuditAspect.java:41-57 | a success is returned unchanged with one "Method: …, Arguments: […], Result: …" entry; a failure gets one "…, Error: <message>" entry and is rethrown; a failed success audit leads to an Error audit of that failure, which is thrown and the result lost; a failed error audit throws its own failure and leaves the log unchanged |
| SupportedModeValidator.ToUpperAscii | src/main/java/com/froy/navigator/validation/SupportedModeValidator.java:23 | upper-casing keeps the length and maps each character to its upper-case form |
| SupportedModeValidator.ToUpperIdempotent | src/main/java/com/froy/navigator/validation/SupportedModeValidator.java:23 | upper-casing twice is upper-casing once |
| SupportedModeValidator.IsValid | src/main/java/com/froy/navigator/validation/SupportedModeValidator.java:18-24 | null is rejected; a string is accepted exactly when its upper-cased form is the name of a transport mode |
| SupportedModeValidator.SupportedModesAreModeNames | src/main/java/com/froy/navigator/validation/SupportedModeValidator.java:15-16 | the accepted set is exactly the names of the TransportMode constants |
| SupportedModeValidator.CaseInsensitive | src/main/java/com/froy/navigator/validation/SupportedModeValidator.java:23 | a value and its upper-cased form are accepted or rejected together |
| SupportedModeValidator.ModeNamesAccepted | src/main/java/com/froy/navigator/validation/SupportedModeValidator.java:15-23 | every mode's name is accepted |
| SupportedModeValidator.Examples | src/main/java/com/froy/navigator/validation/SupportedModeValidator.java:23 | "car" and "Bike" are accepted; "PLANE" and "" are rejected |
| GeoCoordinatesValidator.IsValid | src/main/java/com/froy/navigator/validation/GeoCoordinatesValidator.java:13-19 | null is rejected; a value is accepted exactly when -180 <= v <= 180 |
| GeoCoordinatesValidator.Bounds | src/main/java/com/froy/navigator/validation/GeoCoordinatesValidator.java:14-18 | -180 and 180 are accepted; -180.5, 180.5 and null are rejected |
| GeoCoordinatesValidator.ImpossibleLatitudeAccepted | src/main/java/com/froy/navigator/validation/GeoCoordinatesValidator.java:17-18 | a point with latitude 120, outside [-90, 90], passes the check |
| GeoCoordinatesValidator.IsValidLatitude | src/main/java/com/froy/navigator/validation/GeoCoordinatesValidator.java:17 | the corrected latitude check accepts exactly [-90, 90] and is stricter than the check as written |
| GeoCoordinatesValidator.CorrectedCheckDiffersOnlyBeyondPoles | src/main/java/com/froy/navigator/dto/GeoPoint.java:9-12 | the corrected point check and the one as written disagree exactly on latitudes with 90 < abs(lat) <= 180 |
| ExceptionHandler.Handle | src/main/java/com/froy/navigator/exception/GlobalExceptionHandler.java:24-88 | the response status is always the body's status; business and validation errors give 400, not found gives 404, anything else 500; message and details are per handler, validation details being the field errors joined by "; " before the description; timestamp is the clock reading |
| ExceptionHandler.NoFieldErrors | src/main/java/com/froy/navigator/exception/GlobalExceptionHandler.java:61-68 | with no field errors the details are exactly " - " + description |
| ExceptionHandler.OneFieldError | src/main/java/com/froy/navigator/exception/GlobalExceptionHandler.java:61-68 | a single field error prints as "field: message - description" |
| ExceptionHandler.FieldErrorsAppend | src/main/java/com/froy/navigator/exception/GlobalExceptionHandler.java:61-63 | two nonempty groups of field errors print as their texts joined by one "; " |
| ExceptionHandler.UnsupportedModeIsBadRequest | src/main/java/com/froy/navigator/exception/GlobalExceptionHandler.java:24-31 | the planner's unsupported-mode error becomes a 400 whose message names the mode |
| AuditedPlanning.PlanRouteAudited | src/main/java/com/froy/navigator/controller/RouteRestController.java:79-129 | with working audit writes every call leaves exactly one "Ruta Planificada" entry; unsupported modes and failed statistics writes are audited as errors and rethrown, with no row written; a success returns the planned route, adds one row and a Result entry; a cached request adds no row |

## Left out

- The haversine distance (`DistanceCalculator`) is floating-point trigonometry. It is a parameter whose only known property is that it is nonnegative; symmetry and zero self-distance are not assumed. DistanceCalculatorTest checks approximate values and is not modelled.
- Java's `Double.toString` is a parameter. The text of points, requests and results is built from it following the records' `toString` layout.
- IEEE double behaviour (rounding of `x * 100` and `/ 100`, NaN, infinities) is left out: arithmetic is over exact reals.
- Strategies.Truncate: does not model the saturation of `(int)` at the int range. Distances on Earth stay far below it.
- Strategies.JavaRound: does not model the saturation of `Math.round` at the long range.
- The controllers, the startup logger, the OpenAPI and datasource configuration, the application class and the API constants are framework wiring. The one controller method that is modelled is the audited planning call: its action label is passed in, and its return value's text is the `showResult` parameter.
- The annotation declarations carry only metadata. The action label is a parameter.
- AOP proxying, bean discovery, JPA identity generation, the cache provider and transaction managers are replaced by explicit state. The discovered beans are a sequence parameter. Each table is a sequence of rows with an identity counter. The cache is a map. Each write's own unit of work is a separate table whose failed write changes nothing.
- Concurrency, including single-flight caching under concurrent callers: calls are sequential.
- Cache eviction and expiry have no policy in the source and are not modelled.
- `String.toUpperCase` is locale-sensitive and covers all of Unicode. The model upper-cases ASCII letters only.
- Getters: Dafny reads the entity fields directly, so getter calls are field reads. The no-argument JPA constructors are not modelled.
- Repositories.RouteStatsRepository.Save: does not model a save of an entity that already has an id, which JPA merges. The core only saves new entities.
- Planner.BuildRegistry: the duplicate-key error carries "Duplicate key <mode>" only. Java's message also prints the two clashing beans.
- Planner.RoutePlanner.PlanRoute: before `init` the source's map is null and `planRoute` throws a NullPointerException. The model starts with an empty registry, so it reports the mode as unsupported.
- Planner.RoutePlanner.Init: requires an empty cache. The container runs `init` once, before any request reaches the planner.
- Exceptions whose `getMessage()` is null are not modelled; every modelled exception has a message.
- The clock is read once per call: the statistics row and the audit entries of one audited call carry the same reading.
- Auditing.AuditAspect.AuditOperation: takes the wrapped operation's outcome rather than running it. The composition in `AuditedPlanning` runs planning once and audits after it returns or fails.
- Arguments of an audited call are given as their `String.valueOf` texts; `Arrays.toString` adds the brackets and separators.

## Findings

| source | as written | input that shows it | evidently intended | confidence | as-written member | corrected member |
|---|---|---|---|---|---|---|
| src/main/java/com/froy/navigator/validation/GeoCoordinatesValidator.java:17-18 | latitude and longitude are both checked against [-180, 180] | a point with latitude 120 passes validation | latitude within [-90, 90], as the comment on the check says | medium; not executed | GeoCoordinatesValidator.ImpossibleLatitudeAccepted | GeoCoordinatesValidator.IsValidLatitude |
