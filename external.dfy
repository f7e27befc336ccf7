/**
 * Code the core calls but whose bodies are not part of this model, as uninterpreted
 * functions: `ObjectId.TryParse`, `AccountValidator.IsAccountValid` (both overloads),
 * `NormalizeString`, `IPasswordHashingService`, `ITokenService` and the
 * response-channel pattern constant of each message type.
 */
module External {
  import opened Wrappers
  import opened Entities
  import Messages

  datatype Collaborators = Collaborators(
    tryParseObjectId: string -> Option<ObjectId>,
    isAccountValid: AccountEntity -> bool,
    isAccountValidWithCode: (AccountEntity, string) -> bool,
    normalize: string -> string,
    /** `HashPassword(password, out salt)`, as (hash, salt). */
    hashPassword: string -> (string, string),
    /** `VerifyPassword(password, hash, salt)`. */
    verifyPassword: (string, string, string) -> bool,
    /** `CreateJwtToken` written out: the token for a user and the role names `GetRolesAsync` gave. */
    generateToken: (ApplicationUser, seq<string>) -> string,
    responseChannelPattern: Messages.MessageKind -> string)

  /** `new ObjectId(s)`: the id `TryParse` accepts, or a `FormatException`. */
  function NewObjectId(env: Collaborators, s: string): (r: Fallible<ObjectId>)
    ensures r.Faulted? <==> env.tryParseObjectId(s).None?
  {
    match env.tryParseObjectId(s)
    case Some(id) => Completed(id)
    case None => Faulted
  }
}
