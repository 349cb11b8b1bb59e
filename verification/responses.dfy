/**
 * Django's `JsonResponse` as the views use it: a JSON object with a status
 * code, or the exception its constructor raises.
 */
module Responses {
  import opened Wrappers
  import opened Json

  /** A view's result: a JSON response, or an exception Django turns into a server error. */
  datatype Response = Http(status: int, body: Json) | Exception

  /**
   * The message of the exception `JsonResponse(body, status=status)` raises,
   * if any: with `safe=True` a non-dictionary is a `TypeError`, checked
   * before the status, which must lie in 100..599.
   */
  function RejectReason(body: Json, status: int): (r: Option<string>)
    ensures r.None? <==> body.Obj? && 100 <= status <= 599
  {
    if !body.Obj? then Some("In order to allow non-dict objects to be serialized set the safe parameter to False.")
    else if !(100 <= status <= 599) then Some("HTTP status code must be an integer from 100 to 599.")
    else None
  }

  /** `JsonResponse(body, status=status)`. */
  function JsonResponse(body: Json, status: int): (r: Response)
    ensures r.Http? <==> body.Obj? && 100 <= status <= 599
    ensures r.Http? ==> r.status == status && r.body == body
  {
    if RejectReason(body, status).None? then Http(status, body) else Exception
  }

  /** `{'error': message}`. */
  function ErrorBody(message: string): Json
  {
    Obj(map["error" := Str(message)])
  }
}
