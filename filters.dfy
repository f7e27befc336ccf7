/**
 * `UserAccountCheckingActionFilterAttribute`: before an action on an account runs,
 * find the account id the request names and let the action run only when the account
 * belongs to the calling user.
 */
module Filters {
  import opened Wrappers
  import opened Entities
  import opened Storage
  import opened External
  import opened Text
  import opened Mvc
  import opened Accounts

  /**
   * An action argument as the filter sees it. `OneWayTransaction` also stands for the
   * secured one-way DTO, which derives from it; `sourceAccountId` is `None` for `null`.
   */
  datatype ActionArgument =
    | OneWayTransaction(sourceAccountId: Option<string>)
    | TwoWayTransaction(sourceAccountId: Option<string>)
    | OtherArgument

  /** A route value: a string, or any other object. */
  datatype RouteValue = RouteString(text: string) | OtherRouteValue

  predicate IsTransaction(a: ActionArgument) {
    a.OneWayTransaction? || a.TwoWayTransaction?
  }

  /** The source account id of the first transaction DTO among the arguments. */
  function ArgumentSourceId(arguments: seq<ActionArgument>): (id: Option<string>)
    ensures (forall i :: 0 <= i < |arguments| ==> !IsTransaction(arguments[i])) ==> id.None?
    ensures (exists i :: 0 <= i < |arguments| && IsTransaction(arguments[i])) ==>
              exists i :: 0 <= i < |arguments| && IsTransaction(arguments[i]) && id == arguments[i].sourceAccountId &&
                          forall j :: 0 <= j < i ==> !IsTransaction(arguments[j])
  {
    match FirstWhere(arguments, IsTransaction)
    case Some(argument) => argument.sourceAccountId
    case None => None
  }

  /** The `accountId` route value when it is a string that is not blank. */
  function RouteAccountId(route: map<string, RouteValue>): (id: Option<string>)
    ensures id.Some? <==>
              "accountId" in route && route["accountId"].RouteString? && !IsNullOrWhiteSpace(Some(route["accountId"].text))
    ensures id.Some? ==> id.value == route["accountId"].text
  {
    if "accountId" in route && route["accountId"].RouteString? && !IsNullOrWhiteSpace(Some(route["accountId"].text))
    then Some(route["accountId"].text)
    else None
  }

  /** The account id the request names: the DTO's unless blank, else the route's. */
  function SourceAccountId(arguments: seq<ActionArgument>, route: map<string, RouteValue>): (id: Option<string>)
    ensures !IsNullOrWhiteSpace(ArgumentSourceId(arguments)) ==> id == ArgumentSourceId(arguments)
    ensures IsNullOrWhiteSpace(ArgumentSourceId(arguments)) ==> id == RouteAccountId(route)
    ensures id.None? || !IsNullOrWhiteSpace(id)
  {
    var fromArguments := ArgumentSourceId(arguments);
    if IsNullOrWhiteSpace(fromArguments) then RouteAccountId(route) else fromArguments
  }

  datatype Verdict = Proceed | Forbid

  /**
   * The filter's decision: with no account id named the action proceeds unchecked;
   * otherwise it proceeds exactly when the account belongs to the user. The ownership
   * query may throw.
   */
  function Decide(env: Collaborators, accounts: Collection<AccountEntity>, arguments: seq<ActionArgument>,
                  route: map<string, RouteValue>, userId: string): (v: Fallible<Verdict>)
    ensures SourceAccountId(arguments, route).None? ==> v == Completed(Proceed)
    ensures v.Faulted? <==>
              SourceAccountId(arguments, route).Some? &&
              BelongsTo(env, accounts, SourceAccountId(arguments, route).value, userId).Faulted?
    ensures v == Completed(Forbid) <==>
              SourceAccountId(arguments, route).Some? &&
              BelongsTo(env, accounts, SourceAccountId(arguments, route).value, userId) == Completed(false)
  {
    match SourceAccountId(arguments, route)
    case None => Completed(Proceed)
    case Some(sourceAccountId) =>
      match BelongsTo(env, accounts, sourceAccountId, userId)
      case Faulted => Faulted
      case Completed(belongs) => Completed(if belongs then Proceed else Forbid)
  }

  /** `ActionExecutingContext`: the arguments, the route values, the user, and the result a filter may set. */
  class ActionContext {
    const arguments: seq<ActionArgument>
    const route: map<string, RouteValue>
    const userId: string
    var result: Option<ActionResult<()>>

    constructor (arguments: seq<ActionArgument>, route: map<string, RouteValue>, userId: string)
      ensures this.arguments == arguments && this.route == route && this.userId == userId && result == None
    {
      this.arguments := arguments;
      this.route := route;
      this.userId := userId;
      result := None;
    }
  }

  /** The `next` delegate: the rest of the pipeline, of which only the number of invocations is observed. */
  class NextAction {
    var invocations: nat

    constructor ()
      ensures invocations == 0
    {
      invocations := 0;
    }

    method Invoke()
      modifies this
      ensures invocations == old(invocations) + 1
    {
      invocations := invocations + 1;
    }
  }

  class UserAccountCheckingFilter {
    const env: Collaborators
    const accounts: Collection<AccountEntity>

    constructor (env: Collaborators, accounts: Collection<AccountEntity>)
      ensures this.env == env && this.accounts == accounts
    {
      this.env := env;
      this.accounts := accounts;
    }

    /**
     * `OnActionExecutionAsync`: a forbidden request gets a 403 with no value and the
     * action is not run; otherwise `next` runs exactly once and the result is left alone.
     */
    method OnActionExecution(context: ActionContext, next: NextAction) returns (r: Fallible<()>)
      modifies context, next
      ensures var v := Decide(env, accounts, context.arguments, context.route, context.userId);
              r.Faulted? == v.Faulted? &&
              next.invocations == old(next.invocations) + (if v == Completed(Proceed) then 1 else 0) &&
              context.result == if v == Completed(Forbid) then Some(StatusCodeResult(403, None)) else old(context.result)
    {
      var sourceAccountId := SourceAccountId(context.arguments, context.route);
      if sourceAccountId.Some? {
        var isAccountBelongsToUser := BelongsTo(env, accounts, sourceAccountId.value, context.userId);
        if isAccountBelongsToUser.Faulted? {
          return Faulted;
        }
        if !isAccountBelongsToUser.value {
          context.result := Some(StatusCodeResult(403, None));
          return Completed(());
        }
      }
      next.Invoke();
      r := Completed(());
    }
  }
}
