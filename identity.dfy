/**
 * `IdentityService`: role creation, customer and worker registration, passport
 * update, user deletion and login. The three commands run the command pipeline and
 * let exceptions propagate; the e-mail lookups go through `UserManager`, which
 * swallows them.
 */
module Identity {
  import opened Wrappers
  import Contracts
  import opened IdentityResults
  import opened Entities
  import opened Storage
  import opened External
  import opened Kafka
  import opened Responses
  import opened Pipeline
  import opened Mapping
  import opened Users
  import Messages

  const RoleTaken := "Role with the specified name already exists"
  const RoleCreationFailure := "Unable to create new role. Try again later"
  const EmailTaken := "A user with the same email is already registered"
  const RegistrationFailure := "Error occurred while trying to register new user"
  const UnknownUser := "User with the specified email does not exist"
  const UpdateFailure := "Error occurred while trying to update personal information"
  const DeletionFailure := "Error occurred while trying to delete user"

  /** `LoginModel`. */
  datatype LoginModel = LoginModel(email: string, password: string)

  /**
   * `IRolesManager`. `RoleExists` queries the roles collection; `CreateAsync` is outside
   * this model: `requested` logs the names it is asked to create and `outcome(n)` is its
   * answer to the n-th request.
   */
  class RolesManager {
    const env: Collaborators
    const roles: Collection<ApplicationRole>
    const outcome: nat -> Fallible<Contracts.UntypedResult>
    var requested: seq<string>

    constructor (env: Collaborators, roles: Collection<ApplicationRole>, outcome: nat -> Fallible<Contracts.UntypedResult>)
      ensures this.env == env && this.roles == roles && this.outcome == outcome && requested == []
    {
      this.env := env;
      this.roles := roles;
      this.outcome := outcome;
      requested := [];
    }

    /** `RoleExists`: some stored role has the normalized name. */
    function RoleExists(roleName: string): (r: Fallible<bool>)
      ensures r.Faulted? <==> !roles.reachable
      ensures r.Completed? ==>
                (r.value <==> exists i :: 0 <= i < |roles.documents| && roles.documents[i].normalizedName == env.normalize(roleName))
    {
      match Query(roles, (a: ApplicationRole) => a.normalizedName == env.normalize(roleName))
      case Faulted => Faulted
      case Completed(found) => Completed(|found| > 0)
    }

    /** `CreateAsync(new ApplicationRole(roleName))`. */
    method Create(roleName: string) returns (r: Fallible<Contracts.UntypedResult>)
      modifies this
      ensures requested == old(requested) + [roleName]
      ensures r == outcome(|old(requested)|)
    {
      r := outcome(|requested|);
      requested := requested + [roleName];
    }
  }

  /** How `CreateRole` reports the roles manager's answer. */
  function RoleCreationResult(created: Fallible<Contracts.UntypedResult>): (r: Fallible<IdentityOperationResult>)
    ensures r.Faulted? <==> created.Faulted?
    ensures r.Completed? ==> (r.value.Succeeded() <==> Contracts.Succeeded(created.value))
    ensures r.Completed? && !r.value.Succeeded() ==> r.value == FailedWith(RoleCreationFailure)
  {
    match created
    case Faulted => Faulted
    case Completed(result) => Completed(if Contracts.Succeeded(result) then Success else FailedWith(RoleCreationFailure))
  }

  /**
   * The check both registrations make before hashing and publishing. A lookup that
   * throws is swallowed by `FindByEmailAsync`, so registration then goes ahead.
   */
  function RegistrationGate(userManager: UserManager, email: string): (g: Gate<IdentityOperationResult>)
    ensures g.Admitted? <==>
              !userManager.users.reachable ||
              forall u :: u in userManager.users.documents ==> u.normalizedEmail != userManager.env.normalize(email)
    ensures g.Rejected? ==> g.result == FailedWith(EmailTaken)
    ensures !g.Aborted?
  {
    if userManager.FindByEmail(email).Some? then Rejected(FailedWith(EmailTaken)) else Admitted
  }

  /** `_customersRepository.GetAsync(new ObjectId(customerId))`. */
  function FindCustomer(env: Collaborators, customers: Collection<CustomerEntity>, customerId: string)
    : (r: Fallible<Option<CustomerEntity>>)
    ensures r.Faulted? <==> env.tryParseObjectId(customerId).None? || !customers.reachable
    ensures r.Completed? ==>
              r.value == FirstWhere(customers.documents, (c: CustomerEntity) => c.id == env.tryParseObjectId(customerId).value)
  {
    match NewObjectId(env, customerId)
    case Faulted => Faulted
    case Completed(id) => FindFirst(customers, (c: CustomerEntity) => c.id == id)
  }

  /** The check `UpdateCustomerPersonalInformation` makes before publishing. */
  function UpdateGate(env: Collaborators, customers: Collection<CustomerEntity>, customerId: string)
    : (g: Gate<IdentityOperationResult>)
    ensures g.Aborted? <==> env.tryParseObjectId(customerId).None? || !customers.reachable
    ensures g.Rejected? ==> g.result == FailedWith(UnknownUser)
    ensures g.Admitted? <==>
              env.tryParseObjectId(customerId).Some? && customers.reachable &&
              exists i :: 0 <= i < |customers.documents| && customers.documents[i].id == env.tryParseObjectId(customerId).value
  {
    match FindCustomer(env, customers, customerId)
    case Faulted => Aborted
    case Completed(None) => Rejected(FailedWith(UnknownUser))
    case Completed(Some(_)) => Admitted
  }

  class IdentityService {
    const env: Collaborators
    const userManager: UserManager
    const rolesManager: RolesManager
    const customers: Collection<CustomerEntity>
    const userRegistrationProducer: Producer<Messages.UserRegistrationMessage>
    const workerRegistrationProducer: Producer<Messages.WorkerRegistrationMessage>
    const endUserDeletionProducer: Producer<Messages.EndUserDeletionMessage>
    const customerInformationUpdateProducer: Producer<Messages.CustomerInformationUpdateMessage>
    const responses: ResponseService<IdentityOperationResult>

    constructor (env: Collaborators, userManager: UserManager, rolesManager: RolesManager,
                 customers: Collection<CustomerEntity>,
                 userRegistrationProducer: Producer<Messages.UserRegistrationMessage>,
                 workerRegistrationProducer: Producer<Messages.WorkerRegistrationMessage>,
                 endUserDeletionProducer: Producer<Messages.EndUserDeletionMessage>,
                 customerInformationUpdateProducer: Producer<Messages.CustomerInformationUpdateMessage>,
                 responses: ResponseService<IdentityOperationResult>)
      ensures this.env == env && this.userManager == userManager && this.rolesManager == rolesManager
      ensures this.customers == customers && this.responses == responses
      ensures this.userRegistrationProducer == userRegistrationProducer
      ensures this.workerRegistrationProducer == workerRegistrationProducer
      ensures this.endUserDeletionProducer == endUserDeletionProducer
      ensures this.customerInformationUpdateProducer == customerInformationUpdateProducer
    {
      this.env := env;
      this.userManager := userManager;
      this.rolesManager := rolesManager;
      this.customers := customers;
      this.userRegistrationProducer := userRegistrationProducer;
      this.workerRegistrationProducer := workerRegistrationProducer;
      this.endUserDeletionProducer := endUserDeletionProducer;
      this.customerInformationUpdateProducer := customerInformationUpdateProducer;
      this.responses := responses;
    }

    function Pattern(kind: Messages.MessageKind): string {
      env.responseChannelPattern(kind)
    }

    /** `CreateRole`: an existing name is refused without asking the roles manager to create it. */
    method CreateRole(roleName: string) returns (r: Fallible<IdentityOperationResult>)
      modifies rolesManager
      ensures rolesManager.RoleExists(roleName).Faulted? ==>
                r.Faulted? && rolesManager.requested == old(rolesManager.requested)
      ensures rolesManager.RoleExists(roleName) == Completed(true) ==>
                r == Completed(FailedWith(RoleTaken)) && rolesManager.requested == old(rolesManager.requested)
      ensures rolesManager.RoleExists(roleName) == Completed(false) ==>
                rolesManager.requested == old(rolesManager.requested) + [roleName] &&
                r == RoleCreationResult(rolesManager.outcome(|old(rolesManager.requested)|))
    {
      var roleExists := rolesManager.RoleExists(roleName);
      if roleExists.Faulted? {
        return Faulted;
      }
      if roleExists.value {
        return Completed(FailedWith(RoleTaken));
      }
      var result := rolesManager.Create(roleName);
      r := RoleCreationResult(result);
    }

    /** `RegisterCustomer`: a free e-mail leads to one registration message carrying the password's hash and salt. */
    method RegisterCustomer(model: EndUserRegistrationModel) returns (r: Fallible<IdentityOperationResult>)
      modifies userRegistrationProducer, responses
      ensures var hashed := env.hashPassword(model.password);
              var t := Run(RegistrationGate(userManager, model.email), ToUserRegistrationMessage(model, hashed.0, hashed.1),
                           old(NextDispatch(userRegistrationProducer, responses, Pattern(Messages.UserRegistration))),
                           FailedWith(RegistrationFailure), Processing);
              r == t.result &&
              userRegistrationProducer.published == old(userRegistrationProducer.published) + t.published &&
              responses.subscriptions == old(responses.subscriptions) + t.subscribed
    {
      var existingUser := userManager.FindByEmail(model.email);
      if existingUser.Some? {
        return Completed(FailedWith(EmailTaken));
      }
      var hashed := env.hashPassword(model.password);
      var message := ToUserRegistrationMessage(model, hashed.0, hashed.1);
      var d := PublishAndAwait(userRegistrationProducer, responses, message, Pattern(Messages.UserRegistration));
      r := Conclude(d, FailedWith(RegistrationFailure), Processing);
    }

    /** `RegisterWorker`: as `RegisterCustomer`, with the role put in the message. */
    method RegisterWorker(model: WorkerRegistrationModel, role: string) returns (r: Fallible<IdentityOperationResult>)
      modifies workerRegistrationProducer, responses
      ensures var hashed := env.hashPassword(model.user.password);
              var t := Run(RegistrationGate(userManager, model.user.email),
                           ToWorkerRegistrationMessage(model, role, hashed.0, hashed.1),
                           old(NextDispatch(workerRegistrationProducer, responses, Pattern(Messages.WorkerRegistration))),
                           FailedWith(RegistrationFailure), Processing);
              r == t.result &&
              workerRegistrationProducer.published == old(workerRegistrationProducer.published) + t.published &&
              responses.subscriptions == old(responses.subscriptions) + t.subscribed
    {
      var existingWorker := userManager.FindByEmail(model.user.email);
      if existingWorker.Some? {
        return Completed(FailedWith(EmailTaken));
      }
      var hashed := env.hashPassword(model.user.password);
      var message := ToWorkerRegistrationMessage(model, role, hashed.0, hashed.1);
      var d := PublishAndAwait(workerRegistrationProducer, responses, message, Pattern(Messages.WorkerRegistration));
      r := Conclude(d, FailedWith(RegistrationFailure), Processing);
    }

    /** `UpdateCustomerPersonalInformation`: only a stored customer's passport update is published. */
    method UpdateCustomerPersonalInformation(customerId: string, passport: CustomerPassportModel)
      returns (r: Fallible<IdentityOperationResult>)
      modifies customerInformationUpdateProducer, responses
      ensures var t := Run(UpdateGate(env, customers, customerId), ToCustomerInformationUpdateMessage(passport, customerId),
                           old(NextDispatch(customerInformationUpdateProducer, responses, Pattern(Messages.CustomerInformationUpdate))),
                           FailedWith(UpdateFailure), Processing);
              r == t.result &&
              customerInformationUpdateProducer.published == old(customerInformationUpdateProducer.published) + t.published &&
              responses.subscriptions == old(responses.subscriptions) + t.subscribed
    {
      var customer := FindCustomer(env, customers, customerId);
      if customer.Faulted? {
        return Faulted;
      }
      if customer.value.None? {
        return Completed(FailedWith(UnknownUser));
      }
      var message := ToCustomerInformationUpdateMessage(passport, customerId);
      var d := PublishAndAwait(customerInformationUpdateProducer, responses, message, Pattern(Messages.CustomerInformationUpdate));
      r := Conclude(d, FailedWith(UpdateFailure), Processing);
    }

    /** `DeleteUser`: the deletion message names the end user behind the e-mail. */
    method DeleteUser(email: string) returns (r: Fallible<IdentityOperationResult>)
      modifies endUserDeletionProducer, responses
      ensures match userManager.FindByEmail(email)
              case None =>
                r == Completed(FailedWith(UnknownUser)) &&
                endUserDeletionProducer.published == old(endUserDeletionProducer.published) &&
                responses.subscriptions == old(responses.subscriptions)
              case Some(user) =>
                var t := Run(Admitted, Messages.EndUserDeletionMessage(user.endUserId),
                             old(NextDispatch(endUserDeletionProducer, responses, Pattern(Messages.EndUserDeletion))),
                             FailedWith(DeletionFailure), Processing);
                r == t.result &&
                endUserDeletionProducer.published == old(endUserDeletionProducer.published) + t.published &&
                responses.subscriptions == old(responses.subscriptions) + t.subscribed
    {
      var appUser := userManager.FindByEmail(email);
      if appUser.None? {
        return Completed(FailedWith(UnknownUser));
      }
      var message := Messages.EndUserDeletionMessage(appUser.value.endUserId);
      var d := PublishAndAwait(endUserDeletionProducer, responses, message, Pattern(Messages.EndUserDeletion));
      r := Conclude(d, FailedWith(DeletionFailure), Processing);
    }

    /**
     * `Login`: a token exactly when the user exists and the password verifies; the
     * sign-in result itself is returned on success. Token generation resolves the
     * user's role names first, and a throw there propagates.
     */
    function Login(model: LoginModel): (r: Fallible<(IdentityOperationResult, Option<string>)>)
      ensures userManager.FindByEmail(model.email).None? ==> r == Completed((FailedWith(UnknownUser), None))
      ensures r.Faulted? <==>
                var user := userManager.FindByEmail(model.email);
                user.Some? && userManager.PasswordSignIn(model.email, model.password).Succeeded() &&
                userManager.Roles(user.value.id).Faulted?
      ensures r.Completed? ==>
                (r.value.0.Succeeded() <==>
                   var user := userManager.FindByEmail(model.email);
                   user.Some? && userManager.env.verifyPassword(model.password, user.value.passwordHash, user.value.passwordSalt))
      ensures r.Completed? ==> (r.value.1.Some? <==> r.value.0.Succeeded())
      ensures r.Completed? && r.value.1.Some? ==>
                var user := userManager.FindByEmail(model.email).value;
                r.value.1.value == env.generateToken(user, userManager.Roles(user.id).value)
      ensures r.Completed? && !r.value.0.Succeeded() ==> r.value.0.Failed?
    {
      match userManager.FindByEmail(model.email)
      case None => Completed((FailedWith(UnknownUser), None))
      case Some(appUser) =>
        var loginResult := userManager.PasswordSignIn(model.email, model.password);
        if !loginResult.Succeeded() then Completed((FailedWith(IncorrectCredentials), None))
        else
          match userManager.Roles(appUser.id)
          case Faulted => Faulted
          case Completed(roleNames) => Completed((loginResult, Some(env.generateToken(appUser, roleNames))))
    }
  }
}
