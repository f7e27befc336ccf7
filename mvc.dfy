/** The ASP.NET Core MVC values the API layer produces, reduced to what the core sets. */
module Mvc {
  import opened Wrappers
  import opened Contracts

  /** `Response` and `Response<T>`; the non-generic one has no `value`. */
  datatype ResponseBody<T> = ResponseBody(status: OperationStatus, message: string, value: Option<T>)

  /** The `IActionResult`s the core returns. */
  datatype ActionResult<T> =
    | Ok(body: ResponseBody<T>)                       // 200, `Ok(body)`
    | Created(location: string, body: ResponseBody<T>) // 201, `Created(uri, body)`
    | StatusCodeResult(code: int, value: Option<string>) // `StatusCode(code, value)` or an `ObjectResult`

  /** The status code the client sees for a returned result. */
  function HttpStatus<T>(result: ActionResult<T>): (code: int)
    ensures result.StatusCodeResult? ==> code == result.code
    ensures result.Ok? ==> code == 200
    ensures result.Created? ==> code == 201
  {
    match result
    case Ok(_) => 200
    case Created(_, _) => 201
    case StatusCodeResult(code, _) => code
  }

  /** One `ModelState.AddModelError(key, message)` entry. */
  datatype ModelError = ModelError(key: string, message: string)
}
