/**
 * The audit path: a service that appends one entry to the audit table in a
 * unit of work of its own, and the decorator that runs around an audited
 * operation and records its result or its error.
 */
module Auditing {
  import opened Wrappers
  import opened Domain
  import opened Errors
  import opened Entities
  import opened Repositories
  import opened Text

  /** `Arrays.toString(args)`, given each argument's `String.valueOf`. */
  function ArgumentsText(args: seq<string>): string
  {
    "[" + Join(args, ", ") + "]"
  }

  /** The part of an audit message fixed before the call: method name and arguments. */
  function CallText(methodName: string, args: seq<string>): string
  {
    "Method: " + methodName + ", Arguments: " + ArgumentsText(args)
  }

  /** The message of an audit entry for a call that returned `resultText`. */
  function ResultMessage(call: string, resultText: string): string
  {
    call + ", Result: " + resultText
  }

  /** The message of an audit entry for a call that threw `e`. */
  function ErrorMessage(call: string, e: Exception): string
  {
    call + ", Error: " + e.message
  }

  /** Result and error messages never coincide: their markers differ at the same place. */
  lemma ResultAndErrorMessagesDiffer(call: string, resultText: string, e: Exception)
    ensures ResultMessage(call, resultText) != ErrorMessage(call, e)
  {
    var n := |call| + 2;
    assert ResultMessage(call, resultText)[n] == 'R';
    assert ErrorMessage(call, e)[n] == 'E';
  }

  /** AuditService. */
  class AuditService {
    const repository: AuditEntryRepository

    constructor (repository: AuditEntryRepository)
      ensures this.repository == repository
    {
      this.repository := repository;
    }

    /**
     * `audit`: one new entry with this action and message, stamped `now`,
     * appended in its own transaction. On `fault` that transaction rolls
     * back: nothing is appended and the failure propagates.
     */
    method Audit(action: string, message: string, now: Timestamp, fault: Option<Exception>)
      returns (o: Outcome<Exception>)
      requires repository.Valid()
      modifies repository
      ensures repository.Valid()
      ensures fault.Some? ==>
                o == Fail(fault.value) && repository.rows == old(repository.rows) &&
                repository.nextId == old(repository.nextId)
      ensures fault.None? ==>
                o == Pass &&
                repository.rows == old(repository.rows) + [AuditRow(old(repository.nextId), action, now, message)]
    {
      var entry := new AuditEntry(action, message, now);
      o := repository.Save(entry, fault);
    }
  }

  /** AuditAspect. */
  class AuditAspect {
    const auditService: AuditService

    ghost predicate Valid()
      reads this, auditService, auditService.repository
    {
      auditService.repository.Valid()
    }

    constructor (auditService: AuditService)
      ensures this.auditService == auditService
    {
      this.auditService := auditService;
    }

    /** The audit table the aspect writes to. */
    ghost function Log(): seq<AuditRow>
      reads this, auditService, auditService.repository
    {
      auditService.repository.rows
    }

    /**
     * `auditOperation` around an operation that has already run once with
     * `outcome` (`show` is the result's `toString`). The success audit sits
     * inside the `try`: when it fails (`successFault`), the catch block
     * audits that failure instead (`errorFault` is the store failure of the
     * catch block's audit) and rethrows it. An error audit that itself fails
     * replaces the exception being rethrown.
     */
    method AuditOperation<T>(action: string, methodName: string, args: seq<string>,
                             outcome: Result<T, Exception>, show: T -> string, now: Timestamp,
                             successFault: Option<Exception>, errorFault: Option<Exception>)
      returns (r: Result<T, Exception>)
      requires Valid()
      modifies auditService.repository
      ensures Valid()
      // the operation's result passes through unchanged, or the failure is rethrown
      ensures r.Success? <==> outcome.Success? && successFault.None?
      ensures r.Success? ==> r == outcome
      ensures outcome.Failure? && errorFault.None? ==> r == outcome
      // what the table gains: one entry whenever the last audit attempted succeeds
      ensures outcome.Success? && successFault.None? ==>
                Log() == old(Log()) + [AuditRow(old(auditService.repository.nextId), action, now,
                                                ResultMessage(CallText(methodName, args), show(outcome.value)))]
      ensures outcome.Success? && successFault.Some? && errorFault.None? ==>
                r == Failure(successFault.value) &&
                Log() == old(Log()) + [AuditRow(old(auditService.repository.nextId), action, now,
                                                ErrorMessage(CallText(methodName, args), successFault.value))]
      ensures outcome.Failure? && errorFault.None? ==>
                Log() == old(Log()) + [AuditRow(old(auditService.repository.nextId), action, now,
                                                ErrorMessage(CallText(methodName, args), outcome.error))]
      // every failed audit leaves the table alone and its exception is the one thrown
      ensures outcome.Success? && successFault.Some? && errorFault.Some? ==>
                r == Failure(errorFault.value) && Log() == old(Log())
      ensures outcome.Failure? && errorFault.Some? ==>
                r == Failure(errorFault.value) && Log() == old(Log())
    {
      var message := CallText(methodName, args);
      // try
      var thrown: Option<Exception> := None;
      if outcome.Success? {
        var audited := auditService.Audit(action, ResultMessage(message, show(outcome.value)), now, successFault);
        if audited.Pass? {
          return Success(outcome.value);
        }
        thrown := Some(audited.error);
      } else {
        thrown := Some(outcome.error);
      }
      // catch (Throwable e)
      var e := thrown.value;
      var audited := auditService.Audit(action, ErrorMessage(message, e), now, errorFault);
      if audited.Fail? {
        return Failure(audited.error);
      }
      r := Failure(e);
    }
  }
}
