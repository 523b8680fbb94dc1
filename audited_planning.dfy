/**
 * The audited planning endpoint: the planner's (cached) `planRoute` wrapped by
 * the audit decorator with the action label "Ruta Planificada". The statistics
 * and the audit entries live in two separate tables, so a failed statistics
 * write never removes the audit record of the call.
 */
module AuditedPlanning {
  import opened Wrappers
  import opened Domain
  import opened Errors
  import opened Entities
  import opened Planner
  import opened Auditing

  const PlanRouteAction := "Ruta Planificada"

  /**
   * One call of the audited endpoint: planning runs exactly once, then the
   * decorator audits its outcome. `showResult` is the text of the returned
   * response; the faults are the failures, if any, of the statistics write
   * and of the two audit writes the decorator may attempt.
   */
  method PlanRouteAudited(planner: RoutePlanner, aspect: AuditAspect, req: RouteRequest,
                          now: Timestamp, saveFault: Option<Exception>,
                          successFault: Option<Exception>, errorFault: Option<Exception>,
                          showResult: RouteResponse -> string)
    returns (r: Result<RouteResponse, Exception>)
    requires planner.Valid() && aspect.Valid()
    modifies planner`cache, planner.repository, aspect.auditService.repository
    ensures planner.Valid() && aspect.Valid()
    // an answer is always the planned route for the request
    ensures r.Success? ==> r == Plan(planner.strategies, req, planner.env)
    // with a working audit table every call, successful or not, leaves exactly one entry
    ensures successFault.None? && errorFault.None? ==>
              |aspect.Log()| == |old(aspect.Log())| + 1 &&
              aspect.Log()[..|old(aspect.Log())|] == old(aspect.Log()) &&
              aspect.Log()[|old(aspect.Log())|].action == PlanRouteAction
    // an unsupported mode: nothing computed or stored, the error is audited and rethrown
    ensures req.mode !in planner.strategies && errorFault.None? ==>
              r == Failure(UnsupportedMode(req.mode)) &&
              planner.repository.rows == old(planner.repository.rows) &&
              aspect.Log() == old(aspect.Log()) +
                [AuditRow(old(aspect.auditService.repository.nextId), PlanRouteAction, now,
                          ErrorMessage(CallText("planRoute", [RouteRequestText(req, planner.env)]),
                                       UnsupportedMode(req.mode)))]
    // a new request for a served mode with working stores: one row, one "Result" entry, the answer
    ensures req !in old(planner.cache) && req.mode in planner.strategies && saveFault.None? && successFault.None? ==>
              r.Success? &&
              |planner.repository.rows| == |old(planner.repository.rows)| + 1 &&
              aspect.Log() == old(aspect.Log()) +
                [AuditRow(old(aspect.auditService.repository.nextId), PlanRouteAction, now,
                          ResultMessage(CallText("planRoute", [RouteRequestText(req, planner.env)]),
                                        showResult(r.value)))]
    // a cached request: no new row, and with a working audit table the cached answer
    ensures req in old(planner.cache) ==> planner.repository.rows == old(planner.repository.rows)
    ensures req in old(planner.cache) && successFault.None? ==> r == Success(old(planner.cache)[req])
    // a failed statistics write: no row, yet the audit entry records the error
    ensures req !in old(planner.cache) && req.mode in planner.strategies && saveFault.Some? && errorFault.None? ==>
              r == Failure(saveFault.value) &&
              planner.repository.rows == old(planner.repository.rows) &&
              aspect.Log() == old(aspect.Log()) +
                [AuditRow(old(aspect.auditService.repository.nextId), PlanRouteAction, now,
                          ErrorMessage(CallText("planRoute", [RouteRequestText(req, planner.env)]),
                                       saveFault.value))]
  {
    var outcome := planner.PlanRouteCached(req, now, saveFault);
    r := aspect.AuditOperation(PlanRouteAction, "planRoute", [RouteRequestText(req, planner.env)],
                               outcome, showResult, now, successFault, errorFault);
  }
}
