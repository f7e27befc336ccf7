/**
 * `MappingExtensions`: the domain models the services receive and the Kafka message
 * each `ToKafkaMessage` overload builds from them. Each message is paired with the
 * reading the ledger makes of it, and the lemmas show that nothing is lost or mixed up
 * on the way.
 */
module Mapping {
  import opened Wrappers
  import opened Messages
  import Entities

  datatype CustomerPassportModel = CustomerPassportModel(
    documentNumber: string,
    issuer: string,
    issueDateTime: int,
    expirationDateTime: int)

  datatype AddressModel = AddressModel(
    country: string,
    region: string,
    city: string,
    street: string,
    building: string,
    postalCode: string)

  datatype EndUserRegistrationModel = EndUserRegistrationModel(
    firstName: string,
    lastName: string,
    birthDate: int,
    phoneNumber: string,
    email: string,
    password: string,
    passport: CustomerPassportModel)

  /** `WorkerRegistrationModel` extends `EndUserRegistrationModel`. */
  datatype WorkerRegistrationModel = WorkerRegistrationModel(
    user: EndUserRegistrationModel,
    position: string,
    address: AddressModel)

  datatype AccountCreationModel = AccountCreationModel(name: string, accountType: Entities.AccountType)

  datatype OneWayTransactionModel = OneWayTransactionModel(
    sourceAccountId: string,
    amount: real,
    description: Option<string>)

  datatype OneWaySecuredTransactionModel = OneWaySecuredTransactionModel(
    sourceAccountId: string,
    amount: real,
    description: Option<string>,
    securityCode: string)

  datatype TwoWayTransactionModel = TwoWayTransactionModel(
    sourceAccountId: string,
    sourceAccountSecurityCode: string,
    destinationAccountId: string,
    amount: real,
    description: Option<string>)

  function ToPassport(p: CustomerPassportModel): Passport {
    Passport(p.documentNumber, p.issuer, p.issueDateTime, p.expirationDateTime)
  }

  function ToAddress(a: AddressModel): Address {
    Address(a.country, a.region, a.city, a.street, a.building, a.postalCode)
  }

  /** `EndUserRegistrationModel.ToKafkaMessage(passwordHash, salt)`. */
  function ToUserRegistrationMessage(m: EndUserRegistrationModel, passwordHash: string, salt: string)
    : UserRegistrationMessage
  {
    UserRegistrationMessage(m.firstName, m.lastName, m.birthDate, m.phoneNumber, m.email,
                            passwordHash, salt, ToPassport(m.passport))
  }

  /** `WorkerRegistrationModel.ToKafkaMessage(role, passwordHash, salt)`. */
  function ToWorkerRegistrationMessage(m: WorkerRegistrationModel, role: string, passwordHash: string, salt: string)
    : WorkerRegistrationMessage
  {
    WorkerRegistrationMessage(m.user.firstName, m.user.lastName, m.user.birthDate, m.user.phoneNumber,
                              m.user.email, passwordHash, salt, role, m.position,
                              ToPassport(m.user.passport), ToAddress(m.address))
  }

  /** `CustomerPassportModel.ToKafkaMessage(customerId)`. */
  function ToCustomerInformationUpdateMessage(p: CustomerPassportModel, customerId: string)
    : CustomerInformationUpdateMessage
  {
    CustomerInformationUpdateMessage(customerId, p.documentNumber, p.issuer, p.issueDateTime, p.expirationDateTime)
  }

  /** `AccountCreationModel.ToKafkaMessage(customerId)`. */
  function ToAccountCreationMessage(m: AccountCreationModel, customerId: string): AccountCreationMessage {
    AccountCreationMessage(customerId, m.name, m.accountType)
  }

  /** `OneWayTransactionModel.ToKafkaMessage()`: a deposit. */
  function ToDepositMessage(m: OneWayTransactionModel): TransactionMessage {
    TransactionMessage(m.sourceAccountId, None, None, Deposit, m.amount, m.description)
  }

  /** `OneWaySecuredTransactionModel.ToKafkaMessage()`: a withdrawal. */
  function ToWithdrawalMessage(m: OneWaySecuredTransactionModel): TransactionMessage {
    TransactionMessage(m.sourceAccountId, Some(m.securityCode), None, Withdrawal, m.amount, m.description)
  }

  /** `TwoWayTransactionModel.ToKafkaMessage()`: a transfer. */
  function ToTransferMessage(m: TwoWayTransactionModel): TransactionMessage {
    TransactionMessage(m.sourceAccountId, Some(m.sourceAccountSecurityCode), Some(m.destinationAccountId),
                       Transfer, m.amount, m.description)
  }

  /** The request a transaction message stands for. */
  datatype TransactionRequest =
    | DepositRequest(deposit: OneWayTransactionModel)
    | WithdrawalRequest(withdrawal: OneWaySecuredTransactionModel)
    | TransferRequest(transfer: TwoWayTransactionModel)

  /**
   * Reads a transaction message back: its type decides the request, a deposit carries
   * neither security code nor destination, a withdrawal a code and no destination, a
   * transfer both.
   */
  function RequestOf(msg: TransactionMessage): Option<TransactionRequest> {
    match msg.transactionType
    case Deposit =>
      if msg.sourceSecurityCode.None? && msg.destinationAccountId.None? then
        Some(DepositRequest(OneWayTransactionModel(msg.sourceAccountId, msg.amount, msg.description)))
      else None
    case Withdrawal =>
      if msg.sourceSecurityCode.Some? && msg.destinationAccountId.None? then
        Some(WithdrawalRequest(OneWaySecuredTransactionModel(
          msg.sourceAccountId, msg.amount, msg.description, msg.sourceSecurityCode.value)))
      else None
    case Transfer =>
      if msg.sourceSecurityCode.Some? && msg.destinationAccountId.Some? then
        Some(TransferRequest(TwoWayTransactionModel(
          msg.sourceAccountId, msg.sourceSecurityCode.value, msg.destinationAccountId.value, msg.amount, msg.description)))
      else None
  }

  /** A deposit message is typed Deposit, has no code and no destination, and keeps the rest. */
  lemma DepositMessageRoundTrip(m: OneWayTransactionModel)
    ensures ToDepositMessage(m).transactionType == Deposit
    ensures ToDepositMessage(m).sourceSecurityCode.None? && ToDepositMessage(m).destinationAccountId.None?
    ensures RequestOf(ToDepositMessage(m)) == Some(DepositRequest(m))
  {
  }

  /** A withdrawal message is typed Withdrawal, carries the code, has no destination, and keeps the rest. */
  lemma WithdrawalMessageRoundTrip(m: OneWaySecuredTransactionModel)
    ensures ToWithdrawalMessage(m).transactionType == Withdrawal
    ensures ToWithdrawalMessage(m).sourceSecurityCode == Some(m.securityCode)
    ensures ToWithdrawalMessage(m).destinationAccountId.None?
    ensures RequestOf(ToWithdrawalMessage(m)) == Some(WithdrawalRequest(m))
  {
  }

  /** A transfer message is typed Transfer, carries the source code and the destination, and keeps the rest. */
  lemma TransferMessageRoundTrip(m: TwoWayTransactionModel)
    ensures ToTransferMessage(m).transactionType == Transfer
    ensures ToTransferMessage(m).sourceSecurityCode == Some(m.sourceAccountSecurityCode)
    ensures ToTransferMessage(m).destinationAccountId == Some(m.destinationAccountId)
    ensures RequestOf(ToTransferMessage(m)) == Some(TransferRequest(m))
  {
  }

  /** The three overloads never build the same message. */
  lemma TransactionMessagesDiffer(d: OneWayTransactionModel, w: OneWaySecuredTransactionModel, t: TwoWayTransactionModel)
    ensures ToDepositMessage(d) != ToWithdrawalMessage(w)
    ensures ToDepositMessage(d) != ToTransferMessage(t)
    ensures ToWithdrawalMessage(w) != ToTransferMessage(t)
  {
  }

  /** The account-creation message carries the given customer, name and type. */
  lemma AccountCreationMessageCarriesArguments(m: AccountCreationModel, customerId: string)
    ensures var msg := ToAccountCreationMessage(m, customerId);
            msg.customerId == customerId && AccountCreationModel(msg.name, msg.accountType) == m
  {
  }

  /** The passport-update message carries the customer and the four passport fields unchanged. */
  lemma PassportUpdateMessageCarriesArguments(p: CustomerPassportModel, customerId: string)
    ensures var msg := ToCustomerInformationUpdateMessage(p, customerId);
            msg.customerId == customerId &&
            CustomerPassportModel(msg.documentNumber, msg.issuer, msg.issueDateTime, msg.expirationDateTime) == p
  {
  }

  /** The registration model a registration message describes, given the password it was made from. */
  function RegistrationModelOf(msg: UserRegistrationMessage, password: string): EndUserRegistrationModel {
    EndUserRegistrationModel(msg.firstName, msg.lastName, msg.birthDate, msg.phoneNumber, msg.email, password,
      CustomerPassportModel(msg.passport.documentNumber, msg.passport.issuer,
                            msg.passport.issueDateTime, msg.passport.expirationDateTime))
  }

  /**
   * The registration message carries the supplied hash and salt and every other field,
   * and it does not depend on the plaintext password at all.
   */
  lemma UserRegistrationMessageHidesPassword(m: EndUserRegistrationModel, otherPassword: string, passwordHash: string, salt: string)
    ensures var msg := ToUserRegistrationMessage(m, passwordHash, salt);
            msg.passwordHash == passwordHash && msg.salt == salt &&
            RegistrationModelOf(msg, m.password) == m &&
            ToUserRegistrationMessage(m.(password := otherPassword), passwordHash, salt) == msg
  {
  }

  /** The worker model a worker-registration message describes, given the password it was made from. */
  function WorkerModelOf(msg: WorkerRegistrationMessage, password: string): WorkerRegistrationModel {
    WorkerRegistrationModel(
      EndUserRegistrationModel(msg.firstName, msg.lastName, msg.birthDate, msg.phoneNumber, msg.email, password,
        CustomerPassportModel(msg.passport.documentNumber, msg.passport.issuer,
                              msg.passport.issueDateTime, msg.passport.expirationDateTime)),
      msg.position,
      AddressModel(msg.address.country, msg.address.region, msg.address.city,
                   msg.address.street, msg.address.building, msg.address.postalCode))
  }

  /**
   * The worker-registration message puts the role argument in Role, carries hash and
   * salt, copies position, passport and address, and omits the plaintext password.
   */
  lemma WorkerRegistrationMessageCarriesRole(m: WorkerRegistrationModel, role: string, otherPassword: string, passwordHash: string, salt: string)
    ensures var msg := ToWorkerRegistrationMessage(m, role, passwordHash, salt);
            msg.role == role && msg.passwordHash == passwordHash && msg.salt == salt &&
            WorkerModelOf(msg, m.user.password) == m &&
            ToWorkerRegistrationMessage(m.(user := m.user.(password := otherPassword)), role, passwordHash, salt) == msg
  {
  }
}
