/**
 * The status-to-response tables of the controllers: `CustomControllerBase` for the
 * untyped results and `AccountController` for account creation, whose success is a
 * 201 at the new account's id.
 */
module Controllers {
  import opened Wrappers
  import opened Contracts
  import opened Mvc
  import opened Accounts

  /** How `HandleOperationResult` ends: with a result, or by throwing. */
  datatype HandlerOutcome<T> =
    | Returned(result: ActionResult<T>)
    | ThrewApiException(errors: seq<ModelError>)     // `ApiException(ModelState.AllErrors())`
    | ThrewArgumentOutOfRange(status: OperationStatus)
    | ThrewNullReference                             // `Response!.Id` on a missing payload

  /** The model errors the BadRequest branch adds: one per message, under the empty key, in order. */
  function ErrorsFor(messages: seq<string>): (errors: seq<ModelError>)
    ensures |errors| == |messages|
    ensures forall i :: 0 <= i < |messages| ==> errors[i] == ModelError("", messages[i])
    decreases |messages|
  {
    if messages == [] then []
    else ErrorsFor(messages[..|messages| - 1]) + [ModelError("", messages[|messages| - 1])]
  }

  /**
   * `CustomControllerBase.HandleOperationResult` once the model errors are in place:
   * `modelState` is the model state after the BadRequest loop.
   */
  function BaseOutcome(r: UntypedResult, modelState: seq<ModelError>): (o: HandlerOutcome<()>)
    ensures (o.Returned? && o.result.Ok?) <==> r.status == Success || r.status == Processing
    ensures o.Returned? && o.result.Ok? ==> o.result.body == ResponseBody(r.status, r.message, None)
    ensures (o.Returned? && o.result.StatusCodeResult?) <==> r.status == InternalFail
    ensures o.Returned? && o.result.StatusCodeResult? ==> HttpStatus(o.result) == 500 && o.result.value == Some(r.message)
    ensures !(o.Returned? && o.result.Created?)
    ensures o.ThrewApiException? <==> r.status == BadRequest
    ensures o.ThrewApiException? ==> o.errors == modelState
    ensures o.ThrewArgumentOutOfRange? <==> r.status.Unnamed?
    ensures !o.ThrewNullReference?
  {
    match r.status
    case Success => Returned(Ok(ResponseBody(r.status, r.message, None)))
    case Processing => Returned(Ok(ResponseBody(r.status, r.message, None)))
    case BadRequest => ThrewApiException(modelState)
    case InternalFail => Returned(StatusCodeResult(500, Some(r.message)))
    case Unnamed(_) => ThrewArgumentOutOfRange(r.status)
  }

  /** `AccountController.HandleOperationResult`, with the same reading of `modelState`. */
  function AccountOutcome(r: OperationResult<AccountOwnedResponse>, modelState: seq<ModelError>)
    : (o: HandlerOutcome<AccountOwnedResponse>)
    ensures r.status == Success && r.response.Some? ==>
              o == Returned(Created(r.response.value.id, ResponseBody(r.status, r.message, r.response)))
    ensures o.ThrewNullReference? <==> r.status == Success && r.response.None?
    ensures (o.Returned? && o.result.Ok?) <==> r.status == Processing
    ensures o.Returned? && o.result.Ok? ==> o.result.body == ResponseBody(r.status, r.message, None)
    ensures (o.Returned? && o.result.StatusCodeResult?) <==> r.status == InternalFail
    ensures o.Returned? && o.result.StatusCodeResult? ==> HttpStatus(o.result) == 500 && o.result.value == Some(r.message)
    ensures o.ThrewApiException? <==> r.status == BadRequest
    ensures o.ThrewApiException? ==> o.errors == modelState
    ensures o.ThrewArgumentOutOfRange? <==> r.status.Unnamed?
  {
    match r.status
    case Success =>
      if r.response.None? then ThrewNullReference
      else Returned(Created(r.response.value.id, ResponseBody(r.status, r.message, r.response)))
    case Processing => Returned(Ok(ResponseBody(r.status, r.message, None)))
    case BadRequest => ThrewApiException(modelState)
    case InternalFail => Returned(StatusCodeResult(500, Some(r.message)))
    case Unnamed(_) => ThrewArgumentOutOfRange(r.status)
  }

  /** The untyped view of a typed result: the payload dropped. */
  function Untyped<T>(r: OperationResult<T>): UntypedResult {
    OperationResult(r.status, r.message, r.messages, None)
  }

  /** An untyped outcome seen at another payload type; no untyped outcome carries a payload. */
  function Retyped<T>(o: HandlerOutcome<()>): HandlerOutcome<T> {
    match o
    case Returned(Ok(b)) => Returned(Ok(ResponseBody(b.status, b.message, None)))
    case Returned(Created(l, b)) => Returned(Created(l, ResponseBody(b.status, b.message, None)))
    case Returned(StatusCodeResult(c, v)) => Returned(StatusCodeResult(c, v))
    case ThrewApiException(e) => ThrewApiException(e)
    case ThrewArgumentOutOfRange(s) => ThrewArgumentOutOfRange(s)
    case ThrewNullReference => ThrewNullReference
  }

  /** The two tables differ only for `Success`: a 201 with the payload instead of a 200 without it. */
  lemma TablesAgreeExceptOnSuccess(r: OperationResult<AccountOwnedResponse>, modelState: seq<ModelError>)
    requires r.status != Success
    ensures AccountOutcome(r, modelState) == Retyped(BaseOutcome(Untyped(r), modelState))
  {
  }

  /** A returned result is a success code exactly for `Success` and `Processing`. */
  lemma ReturnedCodes(r: UntypedResult, modelState: seq<ModelError>)
    ensures BaseOutcome(r, modelState).Returned? ==>
              (200 <= HttpStatus(BaseOutcome(r, modelState).result) < 300 <==> r.status == Success || r.status == Processing)
  {
  }

  /** `CustomControllerBase`; `modelState` is the controller's `ModelState`, in insertion order. */
  class CustomControllerBase {
    var modelState: seq<ModelError>

    constructor ()
      ensures modelState == []
    {
      modelState := [];
    }

    method HandleOperationResult(operationResult: UntypedResult) returns (outcome: HandlerOutcome<()>)
      modifies this
      ensures modelState == old(modelState) + if operationResult.status == BadRequest then ErrorsFor(operationResult.messages) else []
      ensures outcome == BaseOutcome(operationResult, modelState)
    {
      match operationResult.status
      case Success =>
        outcome := Returned(Ok(ResponseBody(operationResult.status, operationResult.message, None)));
      case Processing =>
        outcome := Returned(Ok(ResponseBody(operationResult.status, operationResult.message, None)));
      case BadRequest =>
        var i := 0;
        while i < |operationResult.messages|
          invariant 0 <= i <= |operationResult.messages|
          invariant modelState == old(modelState) + ErrorsFor(operationResult.messages[..i])
        {
          assert operationResult.messages[..i + 1][..i] == operationResult.messages[..i];
          modelState := modelState + [ModelError("", operationResult.messages[i])];
          i := i + 1;
        }
        assert operationResult.messages[..i] == operationResult.messages;
        outcome := ThrewApiException(modelState);
      case InternalFail =>
        outcome := Returned(StatusCodeResult(500, Some(operationResult.message)));
      case Unnamed(_) =>
        outcome := ThrewArgumentOutOfRange(operationResult.status);
    }
  }

  /** `AccountController`, as far as its private `HandleOperationResult` goes. */
  class AccountController {
    var modelState: seq<ModelError>

    constructor ()
      ensures modelState == []
    {
      modelState := [];
    }

    method HandleOperationResult(operationResult: OperationResult<AccountOwnedResponse>)
      returns (outcome: HandlerOutcome<AccountOwnedResponse>)
      modifies this
      ensures modelState == old(modelState) + if operationResult.status == BadRequest then ErrorsFor(operationResult.messages) else []
      ensures outcome == AccountOutcome(operationResult, modelState)
    {
      match operationResult.status
      case Success =>
        if operationResult.response.None? {
          return ThrewNullReference;
        }
        outcome := Returned(Created(operationResult.response.value.id,
                                    ResponseBody(operationResult.status, operationResult.message, operationResult.response)));
      case Processing =>
        outcome := Returned(Ok(ResponseBody(operationResult.status, operationResult.message, None)));
      case BadRequest =>
        var i := 0;
        while i < |operationResult.messages|
          invariant 0 <= i <= |operationResult.messages|
          invariant modelState == old(modelState) + ErrorsFor(operationResult.messages[..i])
        {
          assert operationResult.messages[..i + 1][..i] == operationResult.messages[..i];
          modelState := modelState + [ModelError("", operationResult.messages[i])];
          i := i + 1;
        }
        assert operationResult.messages[..i] == operationResult.messages;
        outcome := ThrewApiException(modelState);
      case InternalFail =>
        outcome := Returned(StatusCodeResult(500, Some(operationResult.message)));
      case Unnamed(_) =>
        outcome := ThrewArgumentOutOfRange(operationResult.status);
    }
  }
}
