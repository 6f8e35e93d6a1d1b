/** What an endpoint sends back, reduced to what the handlers decide: the
    status code, the envelope's `message`, its `errors` list and the `data`
    payload (`success_response` and `error_response`). */
module Http {
  import opened Wrappers
  import opened Text
  import Helpers

  datatype Reply<T> = Reply(status: int, message: string, errors: seq<string>, body: Option<T>)

  /** `error_response(message, status_code=status)`. */
  function Fail<T>(status: int, message: string): (r: Reply<T>)
    ensures r.status == status && r.message == message && r.body.None? && r.errors == []
  {
    Reply(status, message, [], None)
  }

  /** `error_response(message, errors=errors, status_code=status)`. */
  function FailWith<T>(status: int, message: string, errors: seq<string>): (r: Reply<T>)
    ensures r.status == status && r.message == message && r.body.None? && r.errors == errors
  {
    Reply(status, message, errors, None)
  }

  /** `success_response(message, data=body, status_code=status)`. */
  function Done<T>(status: int, message: string, body: T): (r: Reply<T>)
    ensures r.status == status && r.message == message && r.body == Some(body)
  {
    Reply(status, message, [], Some(body))
  }

  predicate Succeeded<T>(r: Reply<T>)
  {
    200 <= r.status < 300
  }

  const NoDataProvided: string := "No data provided"
  const MissingRequiredFields: string := "Missing required fields"
  const AccessDenied: string := "Access denied"

  /** The reply of `handle_db_error` when the handler raised. */
  const DatabaseOperationFailed: string := "Database operation failed"

  /** The message a failed service call reports: its own message, or the
      context of the exception it caught (the exception text is not modelled). */
  function ServiceMessage<T>(r: Result<T>): string
    requires !r.Ok?
  {
    if r.Err? then r.msg else r.context
  }

  /** The reply of `auth_required` when the handler it wraps raises: 401, with
      `str(e)` of the exception as the only error. No listing route catches
      its own exceptions, so this is what they answer. */
  const AuthenticationFailed: string := "Authentication failed"

  /** `str(e)` of the ZeroDivisionError that `//` raises on a zero divisor. */
  const ZeroDivisionText: string := "integer division or modulo by zero"

  /** A listing endpoint's reply: one page of `rows` (`paginate_query` with its
      default cap of 100). A zero page size makes the page count divide by
      zero, and `auth_required` answers the exception. */
  function Paged<T>(rows: seq<T>, page: int, perPage: int, message: string): (r: Reply<Helpers.Page<T>>)
    ensures r.status == 200 <==> perPage != 0
    ensures r.status != 200 ==> r == FailWith(401, AuthenticationFailed, [ZeroDivisionText])
    ensures r.status == 200 ==> r.message == message && r.body == Helpers.Paginate(rows, page, perPage, 100)
    ensures r.status == 200 ==> r.body.value.total == |rows| && forall x :: x in r.body.value.items ==> x in rows
  {
    match Helpers.Paginate(rows, page, perPage, 100)
    case None => FailWith(401, AuthenticationFailed, [ZeroDivisionText])
    case Some(p) =>
      Helpers.PageItemsAreRows(rows, page, perPage, 100);
      Done(200, message, p)
  }

  /** `404 if "not found" in message else 500`. */
  function NotFoundOr500(message: string): int
  {
    if IsInfix("not found", message) then 404 else 500
  }

  /** The lookup failures the summary endpoints relay are answered with 404. */
  lemma LookupFailuresAre404()
    ensures NotFoundOr500("Farmer not found") == 404
    ensures NotFoundOr500("Veterinarian not found") == 404
  {
    assert OccursAt("not found", "Farmer not found", 7);
    assert OccursAt("not found", "Veterinarian not found", 13);
  }
}
