/**
 * The result types the services return (`Contracts.Models`). That assembly is not
 * part of this model; its factories are taken to store the given text as `Message`
 * and as the only entry of `Messages`, and `Processing()` to carry no text.
 */
module Contracts {
  import opened Wrappers

  /**
   * `OperationStatus`. A C# enum variable can hold any integer, for instance one
   * read from a reply, so the values outside the four named ones are kept.
   */
  datatype OperationStatus = Success | Processing | BadRequest | InternalFail | Unnamed(code: int)

  /** `OperationResult<T>`; `response` is the optional typed payload. */
  datatype OperationResult<T> = OperationResult(
    status: OperationStatus,
    message: string,
    messages: seq<string>,
    response: Option<T>)

  /** The non-generic `OperationResult`, which carries no payload. */
  type UntypedResult = OperationResult<()>

  function SuccessResult<T>(payload: Option<T>, message: string): OperationResult<T> {
    OperationResult(Success, message, [message], payload)
  }

  function ProcessingResult<T>(payload: Option<T>): OperationResult<T> {
    OperationResult(Processing, "", [], payload)
  }

  function BadRequestResult<T>(message: string): OperationResult<T> {
    OperationResult(BadRequest, message, [message], None)
  }

  function InternalFailResult<T>(payload: Option<T>, message: string): OperationResult<T> {
    OperationResult(InternalFail, message, [message], payload)
  }

  /** `OperationResult.Succeeded`, taken to mean a `Success` status. */
  predicate Succeeded<T>(r: OperationResult<T>) {
    r.status == Success
  }
}

/** `IdentityOperationResult`: the boolean-success / error-list result of the identity calls. */
module IdentityResults {

  datatype IdentityOperationResult = Success | Processing | Failed(errors: seq<string>) {
    predicate Succeeded() { Success? }
  }

  /** `IdentityOperationResult.Failed(params string[] errors)` with one error. */
  function FailedWith(error: string): IdentityOperationResult {
    Failed([error])
  }
}
