/**
 * `AccountService`: account creation and deletion run the command pipeline without
 * catching exceptions; the ownership check and the listings are queries on the
 * accounts collection.
 */
module Accounts {
  import opened Wrappers
  import opened Contracts
  import opened Entities
  import opened Storage
  import opened External
  import opened Text
  import opened Kafka
  import opened Responses
  import opened Pipeline
  import opened Mapping
  import opened Repositories
  import Messages

  /**
   * `AccountOwnedResponseModel`, the payload of a successful creation reply. Its
   * declaration is not part of this model; only `Id`, the location of the created
   * account, is read by the core.
   */
  datatype AccountOwnedResponse = AccountOwnedResponse(id: string, name: string, accountType: AccountType, balance: real)

  /** The creation failure text, carried over from the personal-information update as the code has it. */
  const CreationFailure := "Error occurred while trying to update personal information"
  const DeletionRejected := "Error occured while trying to delete account. Specified account doesn't exist or already deleted"
  const DeletionFailure := "Error occurred while trying to delete account"

  /** The owner of a loaded account, `null` when none was loaded (`accountEntity?.Owner`). */
  function OwnerOf(account: Option<AccountEntity>): Option<string> {
    if account.Some? then account.value.owner else None
  }

  /**
   * The checks `DeleteAsync` makes before publishing. `new ObjectId(id)` and the
   * lookup may throw; an account that is missing or has no owner is rejected.
   */
  function DeleteGate(env: Collaborators, accounts: Collection<AccountEntity>, id: string): (g: Gate<UntypedResult>)
    ensures g.Aborted? <==> env.tryParseObjectId(id).None? || !accounts.reachable
    ensures g.Rejected? ==> g.result == BadRequestResult(DeletionRejected)
    ensures g.Admitted? <==> AccountPasses(env, accounts, id, (a: AccountEntity) => !IsNullOrWhiteSpace(a.owner))
  {
    match NewObjectId(env, id)
    case Faulted => Aborted
    case Completed(accountId) =>
      match FindAccount(accounts, accountId)
      case Faulted => Aborted
      case Completed(account) =>
        if IsNullOrWhiteSpace(OwnerOf(account)) then Rejected(BadRequestResult(DeletionRejected)) else Admitted
  }

  /**
   * `BelongsTo`: some stored account has the id and is owned by the customer. The id is
   * converted while the filter is built, so an unparsable id throws even on an empty
   * collection.
   */
  function BelongsTo(env: Collaborators, accounts: Collection<AccountEntity>, accountId: string, customerId: string)
    : (r: Fallible<bool>)
    ensures r.Faulted? <==> env.tryParseObjectId(accountId).None? || !accounts.reachable
    ensures r.Completed? ==>
              (r.value <==> exists i :: 0 <= i < |accounts.documents| &&
                                        accounts.documents[i].id == env.tryParseObjectId(accountId).value &&
                                        accounts.documents[i].owner == Some(customerId))
  {
    match NewObjectId(env, accountId)
    case Faulted => Faulted
    case Completed(id) =>
      match Query(accounts, (a: AccountEntity) => a.id == id && a.owner.Some? && a.owner.value == customerId)
      case Faulted => Faulted
      case Completed(owned) => Completed(|owned| > 0)
  }

  /** `GetCustomerAccountsAsync`: the accounts the customer owns, before they are adapted to response models. */
  function CustomerAccounts(accounts: Collection<AccountEntity>, customerId: string): (r: Fallible<seq<AccountEntity>>)
    ensures r.Faulted? <==> !accounts.reachable
    ensures r.Completed? ==>
              forall a :: multiset(r.value)[a] == if a.owner == Some(customerId) then multiset(accounts.documents)[a] else 0
  {
    Query(accounts, (a: AccountEntity) => a.owner == Some(customerId))
  }

  /** `GetAsync(id)`: the account with that id, before it is adapted; the id conversion may throw. */
  function AccountById(env: Collaborators, accounts: Collection<AccountEntity>, id: string): (r: Fallible<Option<AccountEntity>>)
    ensures r.Faulted? <==> env.tryParseObjectId(id).None? || !accounts.reachable
    ensures r.Completed? && r.value.Some? ==>
              r.value.value in accounts.documents && r.value.value.id == env.tryParseObjectId(id).value
    ensures r.Completed? && r.value.None? ==>
              forall a :: a in accounts.documents ==> a.id != env.tryParseObjectId(id).value
  {
    match NewObjectId(env, id)
    case Faulted => Faulted
    case Completed(accountId) => FindAccount(accounts, accountId)
  }

  class AccountService {
    const env: Collaborators
    const accounts: Collection<AccountEntity>
    const creationProducer: Producer<Messages.AccountCreationMessage>
    const deletionProducer: Producer<Messages.AccountDeletionMessage>
    /** The one response service, seen at the two reply types it is asked for. */
    const creationResponses: ResponseService<OperationResult<AccountOwnedResponse>>
    const deletionResponses: ResponseService<UntypedResult>

    constructor (env: Collaborators, accounts: Collection<AccountEntity>,
                 creationProducer: Producer<Messages.AccountCreationMessage>,
                 deletionProducer: Producer<Messages.AccountDeletionMessage>,
                 creationResponses: ResponseService<OperationResult<AccountOwnedResponse>>,
                 deletionResponses: ResponseService<UntypedResult>)
      ensures this.env == env && this.accounts == accounts
      ensures this.creationProducer == creationProducer && this.deletionProducer == deletionProducer
      ensures this.creationResponses == creationResponses && this.deletionResponses == deletionResponses
    {
      this.env := env;
      this.accounts := accounts;
      this.creationProducer := creationProducer;
      this.deletionProducer := deletionProducer;
      this.creationResponses := creationResponses;
      this.deletionResponses := deletionResponses;
    }

    function CreationPattern(): string {
      env.responseChannelPattern(Messages.AccountCreation)
    }

    function DeletionPattern(): string {
      env.responseChannelPattern(Messages.AccountDeletion)
    }

    /** `CreateAsync`: no checks before publishing; exceptions propagate. */
    method Create(customerId: string, model: AccountCreationModel) returns (r: Fallible<OperationResult<AccountOwnedResponse>>)
      modifies creationProducer, creationResponses
      ensures var t := Run(Admitted, ToAccountCreationMessage(model, customerId),
                           old(NextDispatch(creationProducer, creationResponses, CreationPattern())),
                           InternalFailResult(None, CreationFailure), ProcessingResult(None));
              r == t.result &&
              creationProducer.published == old(creationProducer.published) + t.published &&
              creationResponses.subscriptions == old(creationResponses.subscriptions) + t.subscribed
    {
      var message := ToAccountCreationMessage(model, customerId);
      var d := PublishAndAwait(creationProducer, creationResponses, message, CreationPattern());
      r := Conclude(d, InternalFailResult(None, CreationFailure), ProcessingResult(None));
    }

    /** `DeleteAsync`: publishes one deletion message for an owned account; exceptions propagate. */
    method Delete(id: string) returns (r: Fallible<UntypedResult>)
      modifies deletionProducer, deletionResponses
      ensures var t := Run(DeleteGate(env, accounts, id), Messages.AccountDeletionMessage(id),
                           old(NextDispatch(deletionProducer, deletionResponses, DeletionPattern())),
                           InternalFailResult(None, DeletionFailure), ProcessingResult(None));
              r == t.result &&
              deletionProducer.published == old(deletionProducer.published) + t.published &&
              deletionResponses.subscriptions == old(deletionResponses.subscriptions) + t.subscribed
    {
      var accountId := NewObjectId(env, id);
      if accountId.Faulted? {
        return Faulted;
      }
      var accountEntity := FindAccount(accounts, accountId.value);
      if accountEntity.Faulted? {
        return Faulted;
      }
      if IsNullOrWhiteSpace(OwnerOf(accountEntity.value)) {
        return Completed(BadRequestResult(DeletionRejected));
      }
      var message := Messages.AccountDeletionMessage(id);
      var d := PublishAndAwait(deletionProducer, deletionResponses, message, DeletionPattern());
      r := Conclude(d, InternalFailResult(None, DeletionFailure), ProcessingResult(None));
    }
  }
}
