/**
 * The command messages published to Kafka (`Shared.Messaging.Messages`). Each kind of
 * message has its own response-channel pattern; the patterns' values are not part of
 * this model (see `Collaborators.responseChannelPattern`). Dates are kept as ticks.
 */
module Messages {
  import opened Wrappers
  import Entities

  /** One kind per message type, hence per Kafka topic and per response-channel pattern. */
  datatype MessageKind =
    | TransactionCreation
    | AccountCreation
    | AccountDeletion
    | UserRegistration
    | WorkerRegistration
    | CustomerInformationUpdate
    | EndUserDeletion

  datatype TransactionType = Deposit | Withdrawal | Transfer

  /** `TransactionMessage`; `null` security code or destination is `None`. */
  datatype TransactionMessage = TransactionMessage(
    sourceAccountId: string,
    sourceSecurityCode: Option<string>,
    destinationAccountId: Option<string>,
    transactionType: TransactionType,
    amount: real,
    description: Option<string>)

  datatype AccountCreationMessage = AccountCreationMessage(
    customerId: string,
    name: string,
    accountType: Entities.AccountType)

  datatype AccountDeletionMessage = AccountDeletionMessage(accountId: string)

  datatype Passport = Passport(
    documentNumber: string,
    issuer: string,
    issueDateTime: int,
    expirationDateTime: int)

  datatype Address = Address(
    country: string,
    region: string,
    city: string,
    street: string,
    building: string,
    postalCode: string)

  /** `UserRegistrationMessage`: there is no field for a plaintext password. */
  datatype UserRegistrationMessage = UserRegistrationMessage(
    firstName: string,
    lastName: string,
    birthDate: int,
    phoneNumber: string,
    email: string,
    passwordHash: string,
    salt: string,
    passport: Passport)

  datatype WorkerRegistrationMessage = WorkerRegistrationMessage(
    firstName: string,
    lastName: string,
    birthDate: int,
    phoneNumber: string,
    email: string,
    passwordHash: string,
    salt: string,
    role: string,
    position: string,
    passport: Passport,
    address: Address)

  datatype CustomerInformationUpdateMessage = CustomerInformationUpdateMessage(
    customerId: string,
    documentNumber: string,
    issuer: string,
    issueDateTime: int,
    expirationDateTime: int)

  datatype EndUserDeletionMessage = EndUserDeletionMessage(endUserId: string)
}
