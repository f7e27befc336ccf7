/** The stored documents the core reads (`Shared.Data.Entities`), reduced to the fields it uses. */
module Entities {
  import opened Wrappers

  /** A MongoDB `ObjectId`; `hex` is what its `ToString()` returns. */
  datatype ObjectId = ObjectId(hex: string)

  /** `AccountType` is an enum whose members are not part of this model. */
  type AccountType = int

  /** `AccountEntity`: an account snapshot. `owner` is a customer id, `null` once deleted. */
  datatype AccountEntity = AccountEntity(
    id: ObjectId,
    name: string,
    owner: Option<string>,
    accountType: AccountType,
    balance: real,
    securityCode: string,
    expirationDate: int)

  /** `ApplicationUser`; `roles` holds the ids of its roles as strings. */
  datatype ApplicationUser = ApplicationUser(
    id: ObjectId,
    email: string,
    normalizedEmail: string,
    passwordHash: string,
    passwordSalt: string,
    roles: seq<string>,
    endUserId: string)

  /** `ApplicationRole`. */
  datatype ApplicationRole = ApplicationRole(id: ObjectId, name: string, normalizedName: string)

  /** `CustomerEntity`; only its id is read by the core. */
  datatype CustomerEntity = CustomerEntity(id: ObjectId)
}
