# DistributedBanking.Client — the request-side command pipeline, in Dafny

DistributedBanking.Client is the HTTP front end of a banking system. Accounts, users and
transactions are changed by commands it publishes to Kafka. A ledger process applies
them and answers on a Redis channel.

Every mutating request runs the same pipeline:
1. Parse the ids and load a snapshot from MongoDB.
2. Apply a validity rule, and return early when it fails.
3. Publish one command message.
4. Treat any delivery status other than `Persisted` as a failure.
5. Derive the response channel `"<pattern>:<partition>:<offset>"` from the message and its log position.
6. Wait up to 5000 ms for a reply. A missing reply becomes `Processing`.

This project models that pipeline and proves what each operation does with it:
- `TransactionService`: deposit, withdraw, transfer and balance.
- `AccountService`: create and delete, the ownership check, and the customer's accounts.
- `IdentityService`: role creation, registration, passport update, user deletion and login.
- `UserManager`: e-mail lookup, sign-in and role resolution.
- The message builders of `MappingExtensions`.
- The ownership action filter.
- The status-to-HTTP tables of the controllers.

## How the model is built

- **Producers.** A Kafka producer is a class `Kafka.Producer<M>`. It keeps the log of the messages
  handed to it in `published`. The broker's answer to the n-th message is `broker(n)`: a
  delivery receipt, or a fault when `ProduceAsync` throws. That answer is fixed but arbitrary.
  So "nothing is published" is the statement `published == old(published)`.
- **Replies.** `Responses.ResponseService<T>` records each subscription. What the ledger publishes
  on a channel is an `Arrival`: after how many milliseconds, and the reply or a fault. The race
  between the subscription and `Task.Delay` is decided by comparing that delay with the wait.
  A tie goes to the timer.
- **Publish and await.** The source repeats these steps in nine places: three in `TransactionService`, two in `AccountService` and four in `IdentityService`. Here they are one method,
  `Pipeline.PublishAndAwait`, proved against the function `Pipeline.Dispatch`.
- **Each operation.** Each service method is proved against `Pipeline.Run`. `Run` takes the
  outcome of the operation's own checks (a `Gate`: admitted, rejected with a result, or aborted
  by an exception) and the dispatch. It gives the messages published, the channels awaited, and
  the result.
- **Exceptions.** An exception is `Wrappers.Fallible.Faulted`. Five things can throw in this model:
  - an unreachable repository (`Storage.Collection.reachable == false`);
  - `new ObjectId(s)` on text that `ObjectId.TryParse` rejects;
  - `ProduceAsync`;
  - the subscription;
  - the roles manager's `CreateAsync` (`Identity.RolesManager.outcome`).

  `TransactionService`'s `Deposit`, `Withdraw` and `Transfer` catch everything and return
  `InternalFail`; its `GetBalance` lets exceptions propagate. `AccountService` and
  `IdentityService` let exceptions propagate, so their results are `Fallible`. `UserManager`'s
  e-mail lookup and sign-in catch them.
- **Repositories.** A repository is a `Collection`: its documents in storage order. A lookup by id or
  by filter is the first matching document, or all of them.
- **Outside code.** Code whose bodies are outside this model is uninterpreted: the function-typed
  fields of `External.Collaborators`. These are `ObjectId.TryParse`, `AccountValidator.IsAccountValid`
  (both overloads), `NormalizeString`, password hashing and verification, token generation, and
  the response-channel pattern of each message type. Kafka's rendering of a partition and an
  offset is a `Responses.Renderer`. The channel lemmas assume that rendering is injective and
  that a rendered partition contains no `:`.
- **Result types.** `Contracts.Models` is not part of this model. Its factories are taken to store the
  given text as `Message` and as the only entry of `Messages`, and `Processing()` to carry no
  text. `Succeeded` is taken to mean status `Success`.
  `IdentityOperationResult.Failed(e)` is taken to hold the errors given.

Where the documented behaviour and the code differ, the model follows the code:
- **Transfer** stops at the first failing check. Source-account errors are reported before
  destination-account errors, and the destination's reason is then never computed. A description
  that has both legs evaluated does not match the code.
- **No sufficient-funds check.** There is no such check anywhere in the request path, and the
  model has none.
- **No unsubscribe on timeout.** When the timer wins, `GetResponse` returns `default`. It does not
  unsubscribe, and the model claims nothing about the subscription afterwards.
- **A failing subscription** is an exception. `TransactionService` turns it into `InternalFail`;
  the account and identity services let it propagate.
- **Text carried as written.** `AccountService.CreateAsync` reports a delivery failure as "Error
  occurred while trying to update personal information", and `DeleteAsync` spells "occured". The
  model carries both texts as the code has them.

## Model

Some functions that model source code directly have no row of their own; the rows of the
lemmas and members that state their properties stand for them:
- `Responses.BuildResponseChannel` (`ResponseService.cs:39-42`): `Responses.SplitBuildsBack` and
  `Responses.ChannelIdentifiesPosition`.
- `Responses.WaitMilliseconds` (`ResponseService.cs:24`): `Responses.DefaultWaitIsFiveSeconds` and
  `Responses.ResponseService.GetResponse`.
- `Users.ResolvedNames` (`UserManager.cs:99-113`): the `Users.ResolvedNames*` lemmas,
  `Users.FaultPersists` and `Users.UserManager.GetRoles`.
- The seven `Mapping.To*Message` builders (`MappingExtensions.cs:15-100`): the `Mapping` lemmas,
  one or two per builder.

| member | source | states |
|---|---|---|
| Responses.SplitBuildsBack | DistributedBanking.Client.Domain/Services/Implementation/ResponseService.cs:39-42 | the channel is the pattern, ':', the rendered partition, ':' and the rendered offset: splitting it at its ':' separators gives back the two renderings |
| Responses.ChannelIdentifiesPosition | DistributedBanking.Client.Domain/Services/Implementation/ResponseService.cs:41 | for one pattern, two log positions with the same channel are the same position, given injective colon-free renderings |
| Responses.AwaitReply | DistributedBanking.Client.Domain/Services/Implementation/ResponseService.cs:26-36 | the reply is returned unchanged exactly when it arrives before the timer; a faulted subscription that wins rethrows; otherwise the result is `default` |
| Responses.DefaultWaitIsFiveSeconds | DistributedBanking.Client.Domain/Services/Implementation/ResponseService.cs:24 | with no timeout supplied, a reply is taken if and only if it arrives within 5000 ms |
| Responses.ResponseService.GetResponse | DistributedBanking.Client.Domain/Services/Implementation/ResponseService.cs:21-37 | subscribes once, to the channel built from the pattern and the log position alone, for the supplied wait or 5000 ms, and returns the race's outcome |
| Kafka.Producer.Produce | DistributedBanking.Client.Domain/Services/Implementation/TransactionService.cs:52 | appends the message to the published log and returns the broker's answer for that position in the log |
| Pipeline.Dispatch | DistributedBanking.Client.Domain/Services/Implementation/TransactionService.cs:52-61 | a reply is awaited exactly when the delivery is `Persisted`, on the channel of its log position, for 5000 ms; a throwing `ProduceAsync` and a non-persisted delivery await nothing |
| Pipeline.Run | DistributedBanking.Client.Domain/Services/Implementation/TransactionService.cs:40-61 | a rejected or aborted request publishes and awaits nothing; an admitted one publishes its message once; a non-persisted delivery gives the failure result; a reply is returned unchanged and its absence gives `Processing`; the request faults exactly when a check, `ProduceAsync` or the subscription throws |
| Pipeline.Conclude | DistributedBanking.Client.Domain/Services/Implementation/AccountService.cs:40-49 | after publishing: a throw from `ProduceAsync` or the subscription surfaces, a non-persisted record gives the operation's failure result, a reply is returned unchanged and its absence gives `Processing` |
| Pipeline.PublishAndAwait | DistributedBanking.Client.Domain/Services/Implementation/TransactionService.cs:51-59 | publishes exactly one message and subscribes only when `Dispatch` awaits, with the outcome `Dispatch` gives for the broker's next answer |
| External.NewObjectId | DistributedBanking.Client.Domain/Services/Implementation/TransactionService.cs:160 | `new ObjectId(s)` throws exactly when `TryParse` rejects `s` |
| Storage.FirstWhere | DistributedBanking.Client.Data/Repositories/Base/RepositoryBase.cs:38-42 | the result is absent iff no document matches, and otherwise is the first matching document |
| Storage.Where | DistributedBanking.Client.Data/Repositories/Base/RepositoryBase.cs:44-47 | every matching document, as often as it is stored, and nothing else; empty iff none matches |
| Repositories.FindAccount | DistributedBanking.Client.Domain/Services/Implementation/TransactionService.cs:45 | the account with that id if one is stored, else none; throws iff the repository is unreachable |
| Transactions.DepositGate | DistributedBanking.Client.Domain/Services/Implementation/TransactionService.cs:40-49 | an unparsable id gives BadRequest "Source account id has invalid format"; the deposit is admitted iff the account exists and is valid; a parsable id whose account is missing or not valid gives BadRequest "Account is expired"; a throwing lookup aborts; every rejection is a BadRequest |
| Transactions.WithdrawGate | DistributedBanking.Client.Domain/Services/Implementation/TransactionService.cs:76-86 | an unparsable id gives BadRequest "Source account id has invalid format"; admitted iff the account exists and is valid with the supplied security code; a parsable id whose account is missing or fails the check gives BadRequest "Provided account information is not valid. ..."; every rejection is a BadRequest |
| Transactions.TransferGate | DistributedBanking.Client.Domain/Services/Implementation/TransactionService.cs:113-134 | the source id format is checked before the destination's; a failing source account is reported even when the destination also fails; admitted iff the source passes with its code and the destination passes without one; a passing source with a missing or invalid destination gives BadRequest "Destination account information is not valid. Account is probably expired"; every rejection is a BadRequest |
| Transactions.TransactionRun | DistributedBanking.Client.Domain/Services/Implementation/TransactionService.cs:36-70 | with the catch-all: any exception and any non-persisted delivery give `InternalFail` with the operation's text; rejections publish nothing; a reply is returned unchanged, its absence is `Processing` |
| Transactions.TransactionService.Deposit | DistributedBanking.Client.Domain/Services/Implementation/TransactionService.cs:36-70 | the result, the published log and the subscriptions are those of `TransactionRun` over `DepositGate` and the deposit message |
| Transactions.TransactionService.Withdraw | DistributedBanking.Client.Domain/Services/Implementation/TransactionService.cs:72-107 | the result, the published log and the subscriptions are those of `TransactionRun` over `WithdrawGate` and the withdrawal message |
| Transactions.TransactionService.Transfer | DistributedBanking.Client.Domain/Services/Implementation/TransactionService.cs:109-156 | the result, the published log and the subscriptions are those of `TransactionRun` over `TransferGate` and the transfer message |
| Transactions.TransactionService.GetBalance | DistributedBanking.Client.Domain/Services/Implementation/TransactionService.cs:158-163 | the stored account's balance, 0 when there is no such account; throws on an unparsable id or an unreachable repository |
| Accounts.DeleteGate | DistributedBanking.Client.Domain/Services/Implementation/AccountService.cs:88-93 | deletion is admitted iff the account exists and its owner is not null or blank; otherwise BadRequest; the id conversion and the lookup may throw |
| Accounts.BelongsTo | DistributedBanking.Client.Domain/Services/Implementation/AccountService.cs:73-79 | true iff some stored account has the id and the customer as its (non-null) owner; throws on an unparsable id |
| Accounts.CustomerAccounts | DistributedBanking.Client.Domain/Services/Implementation/AccountService.cs:66-71 | exactly the stored accounts owned by the customer, each as often as it is stored |
| Accounts.AccountById | DistributedBanking.Client.Domain/Services/Implementation/AccountService.cs:52-57 | the stored account with that id, or none; throws on an unparsable id |
| Accounts.AccountService.Create | DistributedBanking.Client.Domain/Services/Implementation/AccountService.cs:37-50 | publishes the creation message unconditionally; non-persisted gives `InternalFail` with no payload and no wait; a reply is returned unchanged, else `Processing` with no payload |
| Accounts.AccountService.Delete | DistributedBanking.Client.Domain/Services/Implementation/AccountService.cs:86-105 | publishes exactly one deletion message carrying the given id, only when `DeleteGate` admits; non-persisted gives `InternalFail`; a reply is returned unchanged, else `Processing` |
| Users.GetByEmail | DistributedBanking.Client.Data/Repositories/Implementation/UsersRepository.cs:23-26 | the stored user whose normalized e-mail is the normalized argument, or none |
| Users.FindUser | DistributedBanking.Client.Domain/Services/Implementation/UserManager.cs:87 | the stored user with that id, or none |
| Users.FindRole | DistributedBanking.Client.Domain/Services/Implementation/UserManager.cs:102 | the stored role with that id, or none |
| Users.UserManager.FindByEmail | DistributedBanking.Client.Domain/Services/Implementation/UserManager.cs:30-44 | a user is found iff the repository answers and stores one under the normalized e-mail; a throwing lookup gives `null` |
| Users.UserManager.PasswordSignIn | DistributedBanking.Client.Domain/Services/Implementation/UserManager.cs:62-83 | succeeds iff the user exists and the password verifies against the stored hash and salt; an unknown e-mail gives Failed("User with the specified email doesn't exist"); an exception gives Failed with no errors |
| Users.UserManager.Roles | DistributedBanking.Client.Domain/Services/Implementation/UserManager.cs:85-97 | an unknown user has no roles; a stored user's roles are the names the role loop collects |
| Users.UserManager.GetRoles | DistributedBanking.Client.Domain/Services/Implementation/UserManager.cs:85-114 | the loop over the user's role ids returns what `Roles` specifies |
| Users.ResolvedNamesBounded | DistributedBanking.Client.Domain/Services/Implementation/UserManager.cs:99-113 | the role loop collects at most one name per role id |
| Users.ResolvedNamesInOrder | DistributedBanking.Client.Domain/Services/Implementation/UserManager.cs:100-110 | when every id resolves, the names are the roles' names, one per id, in the order of the ids |
| Users.ResolvedNamesSkipsUnresolved | DistributedBanking.Client.Domain/Services/Implementation/UserManager.cs:99-113 | when every role id parses and the roles repository answers, the names collected are those of the roles the ids name, in the order of the ids, with ids that name no role skipped |
| Users.NamesOfResolvingSnoc | DistributedBanking.Client.Domain/Services/Implementation/UserManager.cs:103-110 | one more role id adds its role's name at the end, or nothing when it names no role |
| Users.ResolvedNamesAreRoleNames | DistributedBanking.Client.Domain/Services/Implementation/UserManager.cs:103-110 | every collected name is the name of a stored role |
| Users.ResolvedNamesFaults | DistributedBanking.Client.Domain/Services/Implementation/UserManager.cs:100-102 | the loop throws iff some role id does not parse, or there is an id and the roles repository is unreachable |
| Users.FaultPersists | DistributedBanking.Client.Domain/Services/Implementation/UserManager.cs:100-102 | an exception on one role id ends the whole loop with that exception |
| Users.UserManager.IsInRole | DistributedBanking.Client.Domain/Services/Implementation/UserManager.cs:116-128 | false for an unknown user; otherwise true iff the first role stored under the normalized name has its id among the user's roles |
| Identity.RolesManager.RoleExists | DistributedBanking.Client.Domain/Services/Implementation/RolesManager.cs:15-18 | true iff some stored role has the normalized name |
| Identity.RolesManager.Create | DistributedBanking.Client.Domain/Services/Implementation/IdentityService.cs:63 | records the creation request and returns the roles manager's answer to it |
| Identity.RoleCreationResult | DistributedBanking.Client.Domain/Services/Implementation/IdentityService.cs:63-71 | `Success` iff the roles manager's creation succeeded, else Failed("Unable to create new role. Try again later"); a throwing creation propagates |
| Identity.IdentityService.CreateRole | DistributedBanking.Client.Domain/Services/Implementation/IdentityService.cs:56-72 | an existing role name gives Failed("Role with the specified name already exists") and no creation is requested; otherwise exactly one creation is requested and reported by `RoleCreationResult` |
| Identity.RegistrationGate | DistributedBanking.Client.Domain/Services/Implementation/IdentityService.cs:76-80 | registration goes ahead iff no stored user has the e-mail or the lookup throws; otherwise Failed("A user with the same email is already registered") |
| Identity.IdentityService.RegisterCustomer | DistributedBanking.Client.Domain/Services/Implementation/IdentityService.cs:74-94 | publishes one registration message with the password's hash and salt only when `RegistrationGate` admits; non-persisted gives Failed with no wait; a reply is returned unchanged, else `Processing` |
| Identity.IdentityService.RegisterWorker | DistributedBanking.Client.Domain/Services/Implementation/IdentityService.cs:96-116 | as `RegisterCustomer`, with the worker message carrying the role |
| Identity.FindCustomer | DistributedBanking.Client.Domain/Services/Implementation/IdentityService.cs:120 | throws iff the id does not parse or the repository is unreachable; otherwise the first stored customer with that id, or none |
| Identity.UpdateGate | DistributedBanking.Client.Domain/Services/Implementation/IdentityService.cs:120-124 | the update goes ahead iff a customer with that id is stored; otherwise Failed("User with the specified email does not exist"), or an exception |
| Identity.IdentityService.UpdateCustomerPersonalInformation | DistributedBanking.Client.Domain/Services/Implementation/IdentityService.cs:118-139 | publishes one passport-update message only when `UpdateGate` admits; non-persisted gives Failed; a reply is returned unchanged, else `Processing` |
| Identity.IdentityService.DeleteUser | DistributedBanking.Client.Domain/Services/Implementation/IdentityService.cs:141-160 | an unknown e-mail gives Failed and publishes nothing; otherwise one deletion message carrying the user's end-user id; non-persisted gives Failed; a reply is returned unchanged, else `Processing` |
| Identity.IdentityService.Login | DistributedBanking.Client.Domain/Services/Implementation/IdentityService.cs:162-178 | a token is returned exactly when the sign-in succeeds, which is exactly when the user exists and the password verifies; the token is the one generated for that user and the role names `GetRolesAsync` gives; a throw while resolving those roles propagates; otherwise Failed with no token |
| Mapping.DepositMessageRoundTrip | DistributedBanking.Client.Domain/Mapping/MappingExtensions.cs:69-78 | the deposit message has type Deposit, no security code and no destination, and reads back to the request it came from |
| Mapping.WithdrawalMessageRoundTrip | DistributedBanking.Client.Domain/Mapping/MappingExtensions.cs:80-89 | the withdrawal message has type Withdrawal, the security code and no destination, and reads back to its request |
| Mapping.TransferMessageRoundTrip | DistributedBanking.Client.Domain/Mapping/MappingExtensions.cs:91-100 | the transfer message has type Transfer, the source code and the destination, and reads back to its request |
| Mapping.TransactionMessagesDiffer | DistributedBanking.Client.Domain/Mapping/MappingExtensions.cs:69-100 | no deposit, withdrawal and transfer message coincide |
| Mapping.AccountCreationMessageCarriesArguments | DistributedBanking.Client.Domain/Mapping/MappingExtensions.cs:64-67 | the account-creation message carries the given customer id, name and type |
| Mapping.PassportUpdateMessageCarriesArguments | DistributedBanking.Client.Domain/Mapping/MappingExtensions.cs:53-62 | the passport-update message carries the customer id and the four passport fields unchanged |
| Mapping.UserRegistrationMessageHidesPassword | DistributedBanking.Client.Domain/Mapping/MappingExtensions.cs:15-31 | the registration message carries the supplied hash and salt and every other field, and does not depend on the plaintext password |
| Mapping.WorkerRegistrationMessageCarriesRole | DistributedBanking.Client.Domain/Mapping/MappingExtensions.cs:33-51 | the worker message puts the role argument in Role and copies position, passport and address; it does not depend on the plaintext password |
| Filters.ArgumentSourceId | DistributedBanking.Client.API/Filters/UserAccountCheckingActionFilterAttribute.cs:21-29 | the source id of the first argument that is a one-way or two-way transaction DTO; none when there is no such argument |
| Filters.RouteAccountId | DistributedBanking.Client.API/Filters/UserAccountCheckingActionFilterAttribute.cs:33-36 | the `accountId` route value exactly when it is a string that is not null or blank |
| Filters.SourceAccountId | DistributedBanking.Client.API/Filters/UserAccountCheckingActionFilterAttribute.cs:21-37 | the DTO's id unless it is null or blank, else the route's; never a blank id |
| Filters.Decide | DistributedBanking.Client.API/Filters/UserAccountCheckingActionFilterAttribute.cs:39-54 | with no id, proceed unchecked; otherwise forbid exactly when the account does not belong to the user; the ownership query may throw |
| Filters.UserAccountCheckingFilter.OnActionExecution | DistributedBanking.Client.API/Filters/UserAccountCheckingActionFilterAttribute.cs:19-55 | a forbidden request gets a 403 with no value and `next` is not invoked; otherwise `next` is invoked exactly once and the result is untouched |
| Controllers.ErrorsFor | DistributedBanking.Client.API/Controllers/Identity/CustomControllerBase.cs:31-34 | one model error per message, under the empty key, in order |
| Controllers.BaseOutcome | DistributedBanking.Client.API/Controllers/Identity/CustomControllerBase.cs:22-45 | Success and Processing give 200 Ok with status and message; BadRequest throws `ApiException` with the model errors; InternalFail gives 500 with the message; any other status throws `ArgumentOutOfRangeException` |
| Controllers.CustomControllerBase.HandleOperationResult | DistributedBanking.Client.API/Controllers/Identity/CustomControllerBase.cs:22-45 | adds one model error per message only for BadRequest, and ends as `BaseOutcome` says |
| Controllers.AccountOutcome | DistributedBanking.Client.API/Controllers/AccountController.cs:94-121 | Success gives 201 Created at the payload's id with the payload, or a null-reference exception without one; Processing gives 200 Ok without payload; BadRequest, InternalFail and other statuses as in the base table |
| Controllers.AccountController.HandleOperationResult | DistributedBanking.Client.API/Controllers/AccountController.cs:94-121 | adds one model error per message only for BadRequest, and ends as `AccountOutcome` says |
| Controllers.TablesAgreeExceptOnSuccess | DistributedBanking.Client.API/Controllers/AccountController.cs:103-119 | for every status but Success, the account table gives what the base table gives |
| Controllers.ReturnedCodes | DistributedBanking.Client.API/Controllers/Identity/CustomControllerBase.cs:26-41 | a returned result has a 2xx code exactly for Success and Processing |

## Left out

- The Redis subscription and `Task.Delay`. The race is modelled by the arrival time of the reply, so timing and concurrency between requests are not modelled.
- The `TimeSpan` timeout conversion. A supplied timeout is already a whole number of milliseconds between 0 and 2^31-1. `Convert.ToInt32`'s rounding and its overflow exception are not modelled.
- Kafka, Redis and MongoDB plumbing:
  - message headers;
  - serialization;
  - the repository classes beyond the lookups the core makes;
  - dependency injection and the HTTP middleware.
- `AccountValidator`, `ObjectId.TryParse`, `NormalizeString`, password hashing, `VerifyPassword`, `TokenService` and the response-channel patterns. Their bodies are not part of this model; they are uninterpreted functions. Hashing is a fixed function of the password, so the random salt is not modelled.
- Identity.IdentityService.Login: `TokenService.GenerateTokenAsync`'s JWT construction (claims, signing key, expiry) is an uninterpreted function of the user and the role names; only the `GetRolesAsync` call inside it, and its exceptions, are modelled.
- `RolesManager.CreateAsync` is not part of the source. Its answers are a fixed but arbitrary sequence.
- `AccountService.GetAsync()` (all accounts), `AccountService.UpdateAsync`, `UserManager.FindByIdAsync`, `TransactionService.GetAccountTransactionHistory` and `IdentityService.Logout`. These are not operations of the command pipeline.
- `Accounts.CustomerAccounts` and `Accounts.AccountById` return the stored entities. The Mapster `Adapt` into response models is left out: it is a field-by-field copy, and the response models' declarations are not part of this model. For the same reason `Accounts.AccountOwnedResponse` keeps only the fields the core reads.
- `Users.UserManager.FindByEmail` returns the stored user, not the adapted `UserModel`.
- `ModelState` is a list of errors in insertion order, not a dictionary keyed by field. Each `ApiException` carries every error in it. AutoWrapper's rendering of the exception as a response is not modelled.
- `Controllers.CustomControllerBase` and `Controllers.AccountController` are separate classes. In the source the second derives from the first; Dafny classes here have no inheritance.
- Logging, and the thin controllers that only forward to the services.
- The account service's single response service is two `ResponseService` objects, one per reply type. The account-creation and account-deletion channels are disjoint by pattern in practice, but the model does not relate the two.
