/**
 * `TransactionService`: deposit, withdrawal and transfer requests. Each checks the
 * account ids and the accounts before publishing one `TransactionMessage`; every
 * exception is caught and reported as an internal failure.
 */
module Transactions {
  import opened Wrappers
  import opened Contracts
  import opened Entities
  import opened Storage
  import opened External
  import opened Kafka
  import opened Responses
  import opened Pipeline
  import opened Mapping
  import opened Repositories
  import Messages

  const InvalidSourceId := "Source account id has invalid format"
  const InvalidDestinationId := "Destination account id has invalid format"
  const AccountExpired := "Account is expired"
  const SourceAccountInvalid :=
    "Provided account information is not valid. Account is expired or entered security code is not correct"
  const DestinationAccountInvalid := "Destination account information is not valid. Account is probably expired"
  const DepositFailure := "Error occurred while trying to make deposit"
  const WithdrawalFailure := "Error occurred while trying to make withdrawal"
  const TransferFailure := "Error occurred while trying to make transfer"

  /** The checks `Deposit` makes before publishing. */
  function DepositGate(env: Collaborators, accounts: Collection<AccountEntity>, m: OneWayTransactionModel)
    : (g: Gate<UntypedResult>)
    ensures env.tryParseObjectId(m.sourceAccountId).None? ==> g == Rejected(BadRequestResult(InvalidSourceId))
    ensures g.Admitted? <==> AccountPasses(env, accounts, m.sourceAccountId, env.isAccountValid)
    ensures g.Aborted? <==> env.tryParseObjectId(m.sourceAccountId).Some? && !accounts.reachable
    ensures env.tryParseObjectId(m.sourceAccountId).Some? && accounts.reachable &&
            !AccountPasses(env, accounts, m.sourceAccountId, env.isAccountValid) ==>
              g == Rejected(BadRequestResult(AccountExpired))
    ensures g.Rejected? ==> g.result.status == BadRequest
  {
    match env.tryParseObjectId(m.sourceAccountId)
    case None => Rejected(BadRequestResult(InvalidSourceId))
    case Some(sourceId) =>
      match FindAccount(accounts, sourceId)
      case Faulted => Aborted
      case Completed(account) =>
        if account.None? || !env.isAccountValid(account.value) then Rejected(BadRequestResult(AccountExpired))
        else Admitted
  }

  /** The checks `Withdraw` makes before publishing: the account must pass with the supplied code. */
  function WithdrawGate(env: Collaborators, accounts: Collection<AccountEntity>, m: OneWaySecuredTransactionModel)
    : (g: Gate<UntypedResult>)
    ensures env.tryParseObjectId(m.sourceAccountId).None? ==> g == Rejected(BadRequestResult(InvalidSourceId))
    ensures g.Admitted? <==>
              AccountPasses(env, accounts, m.sourceAccountId, (a: AccountEntity) => env.isAccountValidWithCode(a, m.securityCode))
    ensures g.Aborted? <==> env.tryParseObjectId(m.sourceAccountId).Some? && !accounts.reachable
    ensures env.tryParseObjectId(m.sourceAccountId).Some? && accounts.reachable &&
            !AccountPasses(env, accounts, m.sourceAccountId,
                           (a: AccountEntity) => env.isAccountValidWithCode(a, m.securityCode)) ==>
              g == Rejected(BadRequestResult(SourceAccountInvalid))
    ensures g.Rejected? ==> g.result.status == BadRequest
  {
    match env.tryParseObjectId(m.sourceAccountId)
    case None => Rejected(BadRequestResult(InvalidSourceId))
    case Some(sourceId) =>
      match FindAccount(accounts, sourceId)
      case Faulted => Aborted
      case Completed(account) =>
        if account.None? || !env.isAccountValidWithCode(account.value, m.securityCode) then
          Rejected(BadRequestResult(SourceAccountInvalid))
        else Admitted
  }

  /**
   * The checks `Transfer` makes before publishing. Both id formats are checked, source
   * first; then the destination is loaded before the source, but a failing source is
   * reported before a failing destination. Only the source is checked with the code.
   */
  function TransferGate(env: Collaborators, accounts: Collection<AccountEntity>, m: TwoWayTransactionModel)
    : (g: Gate<UntypedResult>)
    ensures env.tryParseObjectId(m.sourceAccountId).None? ==> g == Rejected(BadRequestResult(InvalidSourceId))
    ensures env.tryParseObjectId(m.sourceAccountId).Some? && env.tryParseObjectId(m.destinationAccountId).None? ==>
              g == Rejected(BadRequestResult(InvalidDestinationId))
    ensures env.tryParseObjectId(m.destinationAccountId).Some? && accounts.reachable &&
            !AccountPasses(env, accounts, m.sourceAccountId,
                           (a: AccountEntity) => env.isAccountValidWithCode(a, m.sourceAccountSecurityCode)) &&
            env.tryParseObjectId(m.sourceAccountId).Some? ==>
              g == Rejected(BadRequestResult(SourceAccountInvalid))
    ensures env.tryParseObjectId(m.destinationAccountId).Some? && accounts.reachable &&
            AccountPasses(env, accounts, m.sourceAccountId,
                          (a: AccountEntity) => env.isAccountValidWithCode(a, m.sourceAccountSecurityCode)) &&
            !AccountPasses(env, accounts, m.destinationAccountId, env.isAccountValid) ==>
              g == Rejected(BadRequestResult(DestinationAccountInvalid))
    ensures g.Admitted? <==>
              AccountPasses(env, accounts, m.sourceAccountId,
                            (a: AccountEntity) => env.isAccountValidWithCode(a, m.sourceAccountSecurityCode)) &&
              AccountPasses(env, accounts, m.destinationAccountId, env.isAccountValid)
    ensures g.Aborted? <==>
              env.tryParseObjectId(m.sourceAccountId).Some? && env.tryParseObjectId(m.destinationAccountId).Some? &&
              !accounts.reachable
    ensures g.Rejected? ==> g.result.status == BadRequest
  {
    match env.tryParseObjectId(m.sourceAccountId)
    case None => Rejected(BadRequestResult(InvalidSourceId))
    case Some(sourceId) =>
      match env.tryParseObjectId(m.destinationAccountId)
      case None => Rejected(BadRequestResult(InvalidDestinationId))
      case Some(destinationId) =>
        match FindAccount(accounts, destinationId)
        case Faulted => Aborted
        case Completed(destinationAccount) =>
          match FindAccount(accounts, sourceId)
          case Faulted => Aborted
          case Completed(sourceAccount) =>
            if sourceAccount.None? || !env.isAccountValidWithCode(sourceAccount.value, m.sourceAccountSecurityCode) then
              Rejected(BadRequestResult(SourceAccountInvalid))
            else if destinationAccount.None? || !env.isAccountValid(destinationAccount.value) then
              Rejected(BadRequestResult(DestinationAccountInvalid))
            else Admitted
  }

  /**
   * One transaction request, with the service's catch-all applied: whatever is thrown,
   * before or after publishing, becomes `InternalFail(failure)`, and so does a record
   * that was not persisted; a reply is returned unchanged and its absence is `Processing`.
   */
  function TransactionRun(gate: Gate<UntypedResult>, message: Messages.TransactionMessage, d: Dispatched<UntypedResult>, failure: string)
    : (t: Trace<Messages.TransactionMessage, UntypedResult>)
    ensures t.published == if gate.Admitted? then [message] else []
    ensures t.subscribed == if gate.Admitted? then d.Subscribed() else []
    ensures gate.Rejected? ==> t.result == gate.result
    ensures gate.Aborted? ==> t.result == InternalFailResult(None, failure)
    ensures gate.Admitted? && !d.Awaited? ==> t.result == InternalFailResult(None, failure)
    ensures gate.Admitted? && d.Awaited? ==>
              t.result == match d.reply
                          case Completed(Some(reply)) => reply
                          case Completed(None) => ProcessingResult(None)
                          case Faulted => InternalFailResult(None, failure)
  {
    var run := Run(gate, message, d, InternalFailResult(None, failure), ProcessingResult(None));
    Trace(run.published, run.subscribed, run.result.CatchAll(InternalFailResult(None, failure)))
  }

  class TransactionService {
    const env: Collaborators
    const accounts: Collection<AccountEntity>
    const producer: Producer<Messages.TransactionMessage>
    const responses: ResponseService<UntypedResult>

    constructor (env: Collaborators, accounts: Collection<AccountEntity>,
                 producer: Producer<Messages.TransactionMessage>, responses: ResponseService<UntypedResult>)
      ensures this.env == env && this.accounts == accounts
      ensures this.producer == producer && this.responses == responses
    {
      this.env := env;
      this.accounts := accounts;
      this.producer := producer;
      this.responses := responses;
    }

    function Pattern(): string {
      env.responseChannelPattern(Messages.TransactionCreation)
    }

    method Deposit(m: OneWayTransactionModel) returns (r: UntypedResult)
      modifies producer, responses
      ensures var t := TransactionRun(DepositGate(env, accounts, m), ToDepositMessage(m),
                                      old(NextDispatch(producer, responses, Pattern())), DepositFailure);
              r == t.result &&
              producer.published == old(producer.published) + t.published &&
              responses.subscriptions == old(responses.subscriptions) + t.subscribed
    {
      var sourceId := env.tryParseObjectId(m.sourceAccountId);
      if sourceId.None? {
        return BadRequestResult(InvalidSourceId);
      }
      var account := FindAccount(accounts, sourceId.value);
      if account.Faulted? {
        return InternalFailResult(None, DepositFailure);
      }
      if account.value.None? || !env.isAccountValid(account.value.value) {
        return BadRequestResult(AccountExpired);
      }
      var message := ToDepositMessage(m);
      var d := PublishAndAwait(producer, responses, message, Pattern());
      r := Conclude(d, InternalFailResult(None, DepositFailure), ProcessingResult(None)).CatchAll(InternalFailResult(None, DepositFailure));
    }

    method Withdraw(m: OneWaySecuredTransactionModel) returns (r: UntypedResult)
      modifies producer, responses
      ensures var t := TransactionRun(WithdrawGate(env, accounts, m), ToWithdrawalMessage(m),
                                      old(NextDispatch(producer, responses, Pattern())), WithdrawalFailure);
              r == t.result &&
              producer.published == old(producer.published) + t.published &&
              responses.subscriptions == old(responses.subscriptions) + t.subscribed
    {
      var sourceId := env.tryParseObjectId(m.sourceAccountId);
      if sourceId.None? {
        return BadRequestResult(InvalidSourceId);
      }
      var account := FindAccount(accounts, sourceId.value);
      if account.Faulted? {
        return InternalFailResult(None, WithdrawalFailure);
      }
      if account.value.None? || !env.isAccountValidWithCode(account.value.value, m.securityCode) {
        return BadRequestResult(SourceAccountInvalid);
      }
      var message := ToWithdrawalMessage(m);
      var d := PublishAndAwait(producer, responses, message, Pattern());
      r := Conclude(d, InternalFailResult(None, WithdrawalFailure), ProcessingResult(None)).CatchAll(InternalFailResult(None, WithdrawalFailure));
    }

    method Transfer(m: TwoWayTransactionModel) returns (r: UntypedResult)
      modifies producer, responses
      ensures var t := TransactionRun(TransferGate(env, accounts, m), ToTransferMessage(m),
                                      old(NextDispatch(producer, responses, Pattern())), TransferFailure);
              r == t.result &&
              producer.published == old(producer.published) + t.published &&
              responses.subscriptions == old(responses.subscriptions) + t.subscribed
    {
      var sourceId := env.tryParseObjectId(m.sourceAccountId);
      if sourceId.None? {
        return BadRequestResult(InvalidSourceId);
      }
      var destinationId := env.tryParseObjectId(m.destinationAccountId);
      if destinationId.None? {
        return BadRequestResult(InvalidDestinationId);
      }
      var destinationAccount := FindAccount(accounts, destinationId.value);
      if destinationAccount.Faulted? {
        return InternalFailResult(None, TransferFailure);
      }
      var sourceAccount := FindAccount(accounts, sourceId.value);
      if sourceAccount.Faulted? {
        return InternalFailResult(None, TransferFailure);
      }
      if sourceAccount.value.None? ||
         !env.isAccountValidWithCode(sourceAccount.value.value, m.sourceAccountSecurityCode) {
        return BadRequestResult(SourceAccountInvalid);
      }
      if destinationAccount.value.None? || !env.isAccountValid(destinationAccount.value.value) {
        return BadRequestResult(DestinationAccountInvalid);
      }
      var message := ToTransferMessage(m);
      var d := PublishAndAwait(producer, responses, message, Pattern());
      r := Conclude(d, InternalFailResult(None, TransferFailure), ProcessingResult(None)).CatchAll(InternalFailResult(None, TransferFailure));
    }

    /**
     * `GetBalance`: the account's balance, 0 when there is no such account. An id that
     * does not parse makes `new ObjectId` throw, and nothing catches it.
     */
    function GetBalance(accountId: string): (r: Fallible<real>)
      ensures r.Faulted? <==> env.tryParseObjectId(accountId).None? || !accounts.reachable
      ensures r.Completed? ==>
                var found := FirstWhere(accounts.documents, (a: AccountEntity) => a.id == env.tryParseObjectId(accountId).value);
                r.value == if found.Some? then found.value.balance else 0.0
    {
      match NewObjectId(env, accountId)
      case Faulted => Faulted
      case Completed(id) =>
        match FindAccount(accounts, id)
        case Faulted => Faulted
        case Completed(account) => Completed(if account.Some? then account.value.balance else 0.0)
    }
  }
}
